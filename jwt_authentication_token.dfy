/** `org.example.expert.config.JwtAuthenticationToken`: the Spring Security
    authentication object that wraps an `AuthUser`. */
module JwtToken {
  import opened Wrappers
  import opened Dto

  /** The token's state: the authorities handed to `AbstractAuthenticationToken`,
      the wrapped user, and the inherited authenticated flag. */
  datatype JwtAuthenticationToken = JwtAuthenticationToken(
    authorities: seq<GrantedAuthority>,
    authUser: AuthUser,
    authenticated: bool)
  {
    /** `getCredentials()`: a JWT carries no credentials once verified, so null. */
    function GetCredentials(): Option<string> {
      None
    }

    /** `getPrincipal()`: the wrapped user. */
    function GetPrincipal(): AuthUser {
      authUser
    }
  }

  /** The state every constructed token is in. */
  predicate Established(t: JwtAuthenticationToken) {
    t.authenticated && t.authorities == t.authUser.authorities
  }

  /** `new JwtAuthenticationToken(authUser)`: `super(authUser.getAuthorities())`,
      then the field, then `setAuthenticated(true)`. */
  function NewJwtAuthenticationToken(authUser: AuthUser): (t: JwtAuthenticationToken)
    ensures Established(t)
    ensures t.GetPrincipal() == authUser
  {
    JwtAuthenticationToken(authUser.authorities, authUser, true)
  }

  /** What a caller observes of a fresh token: authenticated, no credentials,
      the same user as principal, and the user's single role-named authority. */
  lemma TokenOfAuthUser(id: JavaLong.Long, email: Option<string>, userRole: Role)
    ensures var t := NewJwtAuthenticationToken(NewAuthUser(id, email, userRole));
            && t.authenticated
            && t.GetCredentials() == None
            && t.GetPrincipal() == NewAuthUser(id, email, userRole)
            && t.authorities == [SimpleGrantedAuthority(userRole.name)]
  {
  }

  /** A constructed token is exactly the token built from its principal. */
  lemma TokenRoundTrip(t: JwtAuthenticationToken)
    requires Established(t)
    ensures NewJwtAuthenticationToken(t.GetPrincipal()) == t
  {
  }
}
