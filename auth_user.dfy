/** `org.example.expert.domain.common.dto.AuthUser`: the authenticated user
    that the filter installs, with its single role-named authority. */
module Dto {
  import opened Wrappers
  import opened JavaLong

  /** A constant of the `UserRole` enum, known here by its `name()`. */
  datatype Role = Role(name: string)

  /** Spring's `SimpleGrantedAuthority`: a permission named by a string. */
  datatype GrantedAuthority = SimpleGrantedAuthority(authority: string)

  /** The four final fields of `AuthUser`; `email` is a Java `String`, so it may be null. */
  datatype AuthUser = AuthUser(
    id: Long,
    email: Option<string>,
    userRole: Role,
    authorities: seq<GrantedAuthority>)

  /** The invariant the constructor establishes: exactly one authority, named after the role. */
  predicate HasRoleAuthority(u: AuthUser) {
    u.authorities == [SimpleGrantedAuthority(u.userRole.name)]
  }

  /** `new AuthUser(id, email, userRole)`. */
  function NewAuthUser(id: Long, email: Option<string>, userRole: Role): (u: AuthUser)
    ensures HasRoleAuthority(u)
    ensures u.id == id && u.email == email && u.userRole == userRole
  {
    AuthUser(id, email, userRole, [SimpleGrantedAuthority(userRole.name)])
  }

  /** Every constructed user is rebuilt from its three getters, so the
      constructor loses nothing and adds nothing but the derived authority. */
  lemma AuthUserRoundTrip(u: AuthUser)
    requires HasRoleAuthority(u)
    ensures NewAuthUser(u.id, u.email, u.userRole) == u
  {
  }

  /** Two users built from different arguments differ. */
  lemma NewAuthUserInjective(id: Long, email: Option<string>, userRole: Role,
                             id': Long, email': Option<string>, userRole': Role)
    ensures NewAuthUser(id, email, userRole) == NewAuthUser(id', email', userRole') <==>
            id == id' && email == email' && userRole == userRole'
  {
  }
}
