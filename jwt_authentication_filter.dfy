/** `org.example.expert.config.JwtAuthenticationFilter`: the per-request gate
    that reads a bearer token, classifies the outcome of validating it, installs
    an authenticated principal into the security context, and either writes an
    error response or lets the rest of the filter chain run. */
module Filter {
  import opened Wrappers
  import opened JavaLong
  import opened Dto
  import opened JwtToken

  const BearerPrefix: string := "Bearer "
  const JsonContentType: string := "application/json;charset=UTF-8"
  /** "Authentication is required." */
  const AuthenticationRequired: string := "인증이 필요합니다."
  /** "An error occurred while processing the request." */
  const ProcessingFailed: string := "요청 처리 중 오류가 발생했습니다."

  /** The three members of Spring's `HttpStatus` the filter responds with. */
  datatype HttpStatus = BadRequest | Unauthorized | InternalServerError
  {
    /** `value()`: the numeric status code. */
    function Value(): int {
      match this
      case BadRequest => 400
      case Unauthorized => 401
      case InternalServerError => 500
    }

    /** `name()`: the enum constant's name. */
    function Name(): string {
      match this
      case BadRequest => "BAD_REQUEST"
      case Unauthorized => "UNAUTHORIZED"
      case InternalServerError => "INTERNAL_SERVER_ERROR"
    }
  }

  /** A value of the error map, as Jackson serialises it. */
  datatype JsonValue = JsonString(s: string) | JsonNumber(n: int)

  /** The error map `sendErrorResponse` fills: status name, numeric code, message. */
  function ErrorBody(status: HttpStatus, message: string): map<string, JsonValue> {
    map["status" := JsonString(status.Name()), "code" := JsonNumber(status.Value()),
        "message" := JsonString(message)]
  }

  /** A claim as jjwt's typed lookup `claims.get(name, String.class)` sees it:
      absent (null), a string, or a value of another JSON type. */
  datatype ClaimValue = Missing | Text(text: string) | NonText

  /** The claims the filter reads: `getSubject()`, a possibly null string that
      the getter does not type-check, and the `email` and `userRole` claims,
      read through the typed lookup. */
  datatype Claims = Claims(subject: Option<string>, email: ClaimValue, userRole: ClaimValue)

  /** What a typed string lookup does: return a possibly null string, or throw
      `RequiredTypeException` when the claim holds another type. */
  datatype Lookup = Threw | Returned(value: Option<string>)

  function GetString(v: ClaimValue): Lookup {
    match v
    case Missing => Returned(None)
    case Text(s) => Returned(Some(s))
    case NonText => Threw
  }

  /** `jwtUtil.extractClaims(jwt)`, classified by the `catch` arm its exception
      reaches: expired, one of the three 400 arms, or any other exception. */
  datatype ValidationOutcome =
    | Valid(claims: Claims)
    | Expired
    | Malformed
    | Unsupported
    | SecurityFailure
    | Other

  /** The code the filter calls but that is not part of this model. */
  datatype Collaborators = Collaborators(
    substringToken: string -> string,            // JwtUtil.substringToken
    extractClaims: string -> ValidationOutcome,  // JwtUtil.extractClaims
    longValueOf: string -> Option<Long>,         // Long.valueOf on a non-null string
    userRoleOf: Option<string> -> Option<Role>)  // UserRole.of, None when it throws

  /** What the security context may hold: this filter's token, or an
      authentication installed by some other mechanism. */
  datatype Authentication = Jwt(token: JwtAuthenticationToken) | Foreign(name: string)

  datatype ErrorResponse = ErrorResponse(status: HttpStatus, message: string)

  /** The effect of one pass: the context afterwards, the error written (if
      any), and whether the chain runs. */
  datatype Decision = Decision(context: Option<Authentication>, error: Option<ErrorResponse>, chained: bool)

  function Proceed(context: Option<Authentication>): Decision {
    Decision(context, None, true)
  }

  function Reject(context: Option<Authentication>, status: HttpStatus, message: string): Decision {
    Decision(context, Some(ErrorResponse(status, message)), false)
  }

  /** The header is present and starts with exactly "Bearer " (case-sensitive). */
  predicate IsBearer(header: Option<string>) {
    header.Some? && |BearerPrefix| <= |header.value| && header.value[..|BearerPrefix|] == BearerPrefix
  }

  /** The user `setAuthentication` builds from the claims, or None when one of
      its steps throws: a null subject or one `Long.valueOf` rejects; an email
      claim that is not a string; a role claim that is not a string or that
      `UserRole.of` rejects. */
  function PrincipalOf(c: Collaborators, claims: Claims): Option<AuthUser> {
    var email := GetString(claims.email);
    var role := GetString(claims.userRole);
    if claims.subject.None? || email.Threw? || role.Threw? then None
    else
      match (c.longValueOf(claims.subject.value), c.userRoleOf(role.value))
      case (Some(id), Some(userRole)) => Some(NewAuthUser(id, email.value, userRole))
      case _ => None
  }

  /** `processAuthentication`: the outcome table for a token already cut out of the header. */
  function Authenticate(c: Collaborators, jwt: string, context: Option<Authentication>): Decision {
    match c.extractClaims(jwt)
    case Valid(claims) =>
      if context.Some? then Proceed(context)
      else (match PrincipalOf(c, claims)
            case Some(u) => Proceed(Some(Jwt(NewJwtAuthenticationToken(u))))
            case None => Reject(context, InternalServerError, ProcessingFailed))
    case Expired => Reject(context, Unauthorized, AuthenticationRequired)
    case Malformed => Reject(context, BadRequest, AuthenticationRequired)
    case Unsupported => Reject(context, BadRequest, AuthenticationRequired)
    case SecurityFailure => Reject(context, BadRequest, AuthenticationRequired)
    case Other => Reject(context, InternalServerError, ProcessingFailed)
  }

  /** `doFilterInternal`: skip JWT handling without a bearer header, else
      authenticate. On every request the chain runs, once, exactly when no error
      is written; every error is one row of the status table; and the context
      changes only from empty to a token this filter built. */
  function Decide(c: Collaborators, header: Option<string>, context: Option<Authentication>): (d: Decision)
    ensures d.chained <==> d.error.None?
    ensures d.error.Some? ==>
              || d.error.value == ErrorResponse(Unauthorized, AuthenticationRequired)
              || d.error.value == ErrorResponse(BadRequest, AuthenticationRequired)
              || d.error.value == ErrorResponse(InternalServerError, ProcessingFailed)
    ensures d.context != context ==>
              && context.None? && d.chained
              && d.context.Some? && d.context.value.Jwt?
              && Established(d.context.value.token)
              && HasRoleAuthority(d.context.value.token.GetPrincipal())
  {
    if !IsBearer(header) then Proceed(context)
    else Authenticate(c, c.substringToken(header.value), context)
  }

  /** The filter together with the per-request state it acts on: the security
      context, the response, and the number of times the chain was invoked. */
  class JwtAuthenticationFilter {
    const collaborators: Collaborators
    var context: Option<Authentication>
    var responseStatus: Option<int>
    var responseContentType: Option<string>
    var responseBody: Option<map<string, JsonValue>>
    var chainCalls: nat

    constructor (collaborators: Collaborators)
      ensures this.collaborators == collaborators
      ensures context == None && chainCalls == 0
      ensures responseStatus == None && responseContentType == None && responseBody == None
    {
      this.collaborators := collaborators;
      context := None;
      responseStatus, responseContentType, responseBody := None, None, None;
      chainCalls := 0;
    }

    method DoFilterInternal(header: Option<string>)
      modifies this
      ensures var d := Decide(collaborators, header, old(context));
              && context == d.context
              && chainCalls == old(chainCalls) + (if d.chained then 1 else 0)
      ensures var d := Decide(collaborators, header, old(context));
              d.error.None? ==>
                && responseStatus == old(responseStatus)
                && responseContentType == old(responseContentType)
                && responseBody == old(responseBody)
      ensures var d := Decide(collaborators, header, old(context));
              d.error.Some? ==>
                && responseStatus == Some(d.error.value.status.Value())
                && responseContentType == Some(JsonContentType)
                && responseBody == Some(ErrorBody(d.error.value.status, d.error.value.message))
    {
      if !IsBearer(header) {
        chainCalls := chainCalls + 1;  // chain.doFilter
        return;
      }
      var jwt := collaborators.substringToken(header.value);
      var ok := ProcessAuthentication(jwt);
      if !ok {
        return;
      }
      chainCalls := chainCalls + 1;  // chain.doFilter
    }

    method ProcessAuthentication(jwt: string) returns (ok: bool)
      modifies this`context, this`responseStatus, this`responseContentType, this`responseBody
      ensures var d := Authenticate(collaborators, jwt, old(context));
              ok == d.chained && context == d.context
      ensures var d := Authenticate(collaborators, jwt, old(context));
              d.error.None? ==>
                && responseStatus == old(responseStatus)
                && responseContentType == old(responseContentType)
                && responseBody == old(responseBody)
      ensures var d := Authenticate(collaborators, jwt, old(context));
              d.error.Some? ==>
                && responseStatus == Some(d.error.value.status.Value())
                && responseContentType == Some(JsonContentType)
                && responseBody == Some(ErrorBody(d.error.value.status, d.error.value.message))
    {
      match collaborators.extractClaims(jwt) {
        case Valid(claims) =>
          if context.None? {
            var failed := SetAuthentication(claims);
            if failed {
              SendErrorResponse(InternalServerError, ProcessingFailed);
              return false;
            }
          }
          return true;
        case Expired =>
          SendErrorResponse(Unauthorized, AuthenticationRequired);
        case Malformed =>
          SendErrorResponse(BadRequest, AuthenticationRequired);
        case Unsupported =>
          SendErrorResponse(BadRequest, AuthenticationRequired);
        case SecurityFailure =>
          SendErrorResponse(BadRequest, AuthenticationRequired);
        case Other =>
          SendErrorResponse(InternalServerError, ProcessingFailed);
      }
      return false;
    }

    /** `setAuthentication`; `failed` reports that one of its steps threw. */
    method SetAuthentication(claims: Claims) returns (failed: bool)
      modifies this`context
      ensures failed <==> PrincipalOf(collaborators, claims).None?
      ensures context == if failed then old(context)
                         else Some(Jwt(NewJwtAuthenticationToken(PrincipalOf(collaborators, claims).value)))
    {
      var subject := claims.subject;
      if subject.None? {
        return true;  // Long.valueOf(null)
      }
      var userId := collaborators.longValueOf(subject.value);
      if userId.None? {
        return true;
      }
      var email := GetString(claims.email);
      if email.Threw? {
        return true;
      }
      var roleClaim := GetString(claims.userRole);
      if roleClaim.Threw? {
        return true;
      }
      var userRole := collaborators.userRoleOf(roleClaim.value);
      if userRole.None? {
        return true;
      }
      var authUser := NewAuthUser(userId.value, email.value, userRole.value);
      var authenticationToken := NewJwtAuthenticationToken(authUser);
      context := Some(Jwt(authenticationToken));
      return false;
    }

    method SendErrorResponse(status: HttpStatus, message: string)
      modifies this`responseStatus, this`responseContentType, this`responseBody
      ensures responseStatus == Some(status.Value())
      ensures responseContentType == Some(JsonContentType)
      ensures responseBody == Some(ErrorBody(status, message))
    {
      responseStatus := Some(status.Value());
      responseContentType := Some(JsonContentType);
      var errorResponse: map<string, JsonValue> := map[];
      errorResponse := errorResponse["status" := JsonString(status.Name())];
      errorResponse := errorResponse["code" := JsonNumber(status.Value())];
      errorResponse := errorResponse["message" := JsonString(message)];
      responseBody := Some(errorResponse);
    }
  }

  // Properties of one pass of the filter, stated over `Decide`, which
  // `DoFilterInternal` is proved to follow.

  /** Without an `Authorization` header that starts with exactly "Bearer ", the
      request goes down the chain, nothing is written, the context is kept. */
  lemma PassThroughWithoutBearer(c: Collaborators, header: Option<string>, ctx: Option<Authentication>)
    requires !IsBearer(header)
    ensures Decide(c, header, ctx) == Decision(ctx, None, true)
  {
  }

  /** A valid token on a request with an empty context: the chain runs exactly
      when every claim parses, and then the context holds a fresh authenticated
      token for the user the claims name; otherwise the request fails with 500
      and the context stays empty. */
  lemma ValidTokenInstallsPrincipal(c: Collaborators, header: Option<string>, claims: Claims)
    requires IsBearer(header) && c.extractClaims(c.substringToken(header.value)) == Valid(claims)
    ensures var d := Decide(c, header, None);
            d.chained <==>
              && claims.subject.Some? && c.longValueOf(claims.subject.value).Some?
              && !claims.email.NonText?
              && !claims.userRole.NonText? && c.userRoleOf(GetString(claims.userRole).value).Some?
    ensures var d := Decide(c, header, None);
            d.chained ==>
              && d.error.None?
              && d.context.Some? && d.context.value.Jwt?
              && var t := d.context.value.token;
                 var p := t.GetPrincipal();
                 && t.authenticated && t.GetCredentials() == None
                 && p.id == c.longValueOf(claims.subject.value).value
                 && p.email == GetString(claims.email).value
                 && p.userRole == c.userRoleOf(GetString(claims.userRole).value).value
                 && t.authorities == [SimpleGrantedAuthority(p.userRole.name)]
    ensures var d := Decide(c, header, None);
            !d.chained ==> d == Decision(None, Some(ErrorResponse(InternalServerError, ProcessingFailed)), false)
  {
  }

  /** A valid token on a request that is already authenticated changes
      nothing, whatever the claims hold: they are not even parsed. */
  lemma ExistingAuthenticationKept(c: Collaborators, header: Option<string>, ctx: Option<Authentication>, claims: Claims)
    requires IsBearer(header) && c.extractClaims(c.substringToken(header.value)) == Valid(claims)
    requires ctx.Some?
    ensures Decide(c, header, ctx) == Decision(ctx, None, true)
  {
  }

  /** An expired token is answered with 401 and stops the request. */
  lemma ExpiredTokenRejected(c: Collaborators, header: Option<string>, ctx: Option<Authentication>)
    requires IsBearer(header) && c.extractClaims(c.substringToken(header.value)) == Expired
    ensures Decide(c, header, ctx) ==
            Decision(ctx, Some(ErrorResponse(Unauthorized, AuthenticationRequired)), false)
  {
  }

  /** A malformed, unsupported or security-rejected token is answered with 400
      and the same message as an expired one. */
  lemma InvalidTokenRejected(c: Collaborators, header: Option<string>, ctx: Option<Authentication>)
    requires IsBearer(header)
    requires c.extractClaims(c.substringToken(header.value)) in {Malformed, Unsupported, SecurityFailure}
    ensures Decide(c, header, ctx) ==
            Decision(ctx, Some(ErrorResponse(BadRequest, AuthenticationRequired)), false)
  {
  }

  /** The request fails with 500 exactly when validation throws something
      unclassified or, with an empty context, building the user throws; the
      generic message is used and the context is not written. */
  lemma InternalErrorExactly(c: Collaborators, header: Option<string>, ctx: Option<Authentication>)
    ensures var d := Decide(c, header, ctx);
            (d.error.Some? && d.error.value.status == InternalServerError) <==>
            && IsBearer(header)
            && var outcome := c.extractClaims(c.substringToken(header.value));
               || outcome.Other?
               || (outcome.Valid? && ctx.None? && PrincipalOf(c, outcome.claims).None?)
    ensures var d := Decide(c, header, ctx);
            d.error.Some? && d.error.value.status == InternalServerError ==>
              d.error.value.message == ProcessingFailed && d.context == ctx && !d.chained
  {
  }

  /** Running the filter again on the same request leaves the context as the
      first run left it. */
  lemma ContextIdempotent(c: Collaborators, header: Option<string>, ctx: Option<Authentication>)
    ensures var first := Decide(c, header, ctx).context;
            Decide(c, header, first).context == first
  {
  }

  /** A token issued for (id, email, role), with the subject written as
      `Long.toString(id)` and the role as its name, authenticates as exactly
      that user, provided the subject parser is `Long.valueOf` and `UserRole.of`
      reads a role's name back as that role. */
  lemma IssuedTokenAuthenticates(c: Collaborators, header: Option<string>,
                                 id: Long, email: string, role: Role)
    requires ActsAsValueOf(c.longValueOf)
    requires c.userRoleOf(Some(role.name)) == Some(role)
    requires IsBearer(header)
    requires c.extractClaims(c.substringToken(header.value)) ==
             Valid(Claims(Some(ToString(id)), Text(email), Text(role.name)))
    ensures Decide(c, header, None) ==
            Decision(Some(Jwt(NewJwtAuthenticationToken(NewAuthUser(id, Some(email), role)))), None, true)
  {
    ParseLongRoundTrip(id);
  }

  /** The error map has exactly the keys status, code and message; code is the
      numeric status and status its enum name, and two error maps are equal
      exactly when they report the same status with the same message. */
  lemma ErrorBodyShape(status: HttpStatus, message: string, status': HttpStatus, message': string)
    ensures var body := ErrorBody(status, message);
            && body.Keys == {"status", "code", "message"}
            && body["code"] == JsonNumber(status.Value())
            && body["status"] == JsonString(status.Name())
            && body["message"] == JsonString(message)
    ensures ErrorBody(status, message) == ErrorBody(status', message') <==>
            status == status' && message == message'
  {
  }
}
