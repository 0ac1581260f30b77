/**
 * Sign-in and role gating (lib/auth.ts and app/admin/layout.tsx): the
 * credentials check, the provider list, the role carried from the user into
 * the token and the session, and the admin layout's gate.
 */
module Auth {
  import opened Wrappers

  /** What the sign-in form posts; either field may be missing, and so may
      the whole object. */
  datatype Credentials = Credentials(email: Option<string>, password: Option<string>)

  /** The configured `ADMIN_EMAIL` and `ADMIN_PASS`, either possibly unset. */
  datatype AdminEnv = AdminEnv(email: Option<string>, pass: Option<string>)

  datatype AuthUser = AuthUser(id: string, name: string, email: Option<string>, role: Option<string>)

  /** `authorize` returns a user or null; it can also throw. */
  datatype AuthResult = Denied | Throws | Authorized(user: AuthUser)

  const Admin := "ADMIN"
  const Member := "MEMBER"

  function EmailOf(c: Option<Credentials>): Option<string> {
    if c.Some? then c.value.email else None
  }

  function PasswordOf(c: Option<Credentials>): Option<string> {
    if c.Some? then c.value.password else None
  }

  /** `authorize` as written: `credentials?.email === ADMIN_EMAIL &&
      credentials?.password === ADMIN_PASS`, where an absent value equals an
      absent value; the user then takes `credentials.email`, which throws when
      the credentials object itself is missing. */
  function AuthorizeAsWritten(c: Option<Credentials>, env: AdminEnv): (r: AuthResult)
    ensures r.Authorized? ==> EmailOf(c) == env.email && PasswordOf(c) == env.pass
    ensures r.Authorized? ==> r.user == AuthUser("1", "Dev Admin", env.email, Some(Admin))
    ensures r.Throws? <==> c.None? && env.email.None? && env.pass.None?
    ensures r.Denied? <==> EmailOf(c) != env.email || PasswordOf(c) != env.pass
  {
    if EmailOf(c) == env.email && PasswordOf(c) == env.pass then
      if c.None? then Throws
      else Authorized(AuthUser("1", "Dev Admin", c.value.email, Some(Admin)))
    else Denied
  }

  /** With neither admin variable set, credentials without an email and a
      password sign in as the administrator. */
  lemma UnsetAdminEnvAdmitsEmptyCredentials()
    ensures AuthorizeAsWritten(Some(Credentials(None, None)), AdminEnv(None, None)).Authorized?
    ensures AuthorizeAsWritten(Some(Credentials(None, None)), AdminEnv(None, None)).user.role == Some(Admin)
  {
  }

  /** `authorize` as intended: only credentials that carry both values and
      match a configured email and password sign in. */
  function Authorize(c: Option<Credentials>, env: AdminEnv): (r: AuthResult)
    ensures !r.Throws?
    ensures r.Authorized? <==>
      env.email.Some? && env.pass.Some? && EmailOf(c) == env.email && PasswordOf(c) == env.pass
    ensures r.Authorized? ==>
      r.user == AuthUser("1", "Dev Admin", env.email, Some(Admin))
  {
    if env.email.Some? && env.pass.Some? && EmailOf(c) == env.email && PasswordOf(c) == env.pass then
      Authorized(AuthUser("1", "Dev Admin", EmailOf(c), Some(Admin)))
    else Denied
  }

  /** Once both admin variables are set, the two agree on every input. */
  lemma AuthorizeAgreesWhenConfigured(c: Option<Credentials>, env: AdminEnv)
    requires env.email.Some? && env.pass.Some?
    ensures AuthorizeAsWritten(c, env) == Authorize(c, env)
  {
    if EmailOf(c) == env.email && PasswordOf(c) == env.pass {
      assert c.Some?;
      assert c.value.email == env.email;
    }
  }

  /** A configured sign-in provider. */
  datatype Provider = CredentialsProvider | GoogleProvider(clientId: string, clientSecret: string)

  /** An environment value used in a boolean test: unset and empty are false. */
  predicate Truthy(v: Option<string>) {
    v.Some? && v.value != ""
  }

  /** The provider list: credentials first, then Google when both its
      client id and secret are set. */
  method BuildProviders(googleId: Option<string>, googleSecret: Option<string>)
    returns (providers: seq<Provider>)
    ensures |providers| >= 1 && providers[0] == CredentialsProvider
    ensures |providers| == 2 <==> Truthy(googleId) && Truthy(googleSecret)
    ensures |providers| <= 2
    ensures |providers| == 2 ==> providers[1] == GoogleProvider(googleId.value, googleSecret.value)
  {
    providers := [];
    providers := providers + [CredentialsProvider];
    if Truthy(googleId) && Truthy(googleSecret) {
      providers := providers + [GoogleProvider(googleId.value, googleSecret.value)];
    }
  }

  /** The role the `jwt` callback leaves on the token: the signing-in user's
      role, `MEMBER` when the user has none, and the old role on later calls
      without a user. */
  function JwtRole(tokenRole: Option<string>, user: Option<AuthUser>): (r: Option<string>)
    ensures user.None? ==> r == tokenRole
    ensures user.Some? ==> r.Some? && (r.value == Admin <==> user.value.role == Some(Admin))
    ensures user.Some? && user.value.role.None? ==> r == Some(Member)
    ensures user.Some? && user.value.role.Some? ==> r == user.value.role
  {
    if user.Some? then Some(user.value.role.GetOr(Member)) else tokenRole
  }

  /** The signed token the session strategy keeps. */
  class Token {
    var role: Option<string>

    constructor()
      ensures role.None?
    {
      role := None;
    }

    /** The `jwt` callback: `token.role = user.role ?? 'MEMBER'` when a user
        signs in. */
    method Jwt(user: Option<AuthUser>)
      modifies this
      ensures role == JwtRole(old(role), user)
    {
      if user.Some? {
        role := Some(user.value.role.GetOr(Member));
      }
    }
  }

  class SessionUser {
    const email: Option<string>
    var role: Option<string>

    constructor(e: Option<string>)
      ensures email == e && role.None?
    {
      email := e;
      role := None;
    }
  }

  /** The session object handed to pages; its user may be missing. */
  class Session {
    const user: SessionUser?

    constructor(u: SessionUser?)
      ensures user == u
    {
      user := u;
    }

    /** The `session` callback: copy the token's role onto the user. */
    method ApplyToken(token: Token)
      modifies user
      ensures user != null ==> user.role == token.role
    {
      if user != null {
        user.role := token.role;
      }
    }
  }

  const SignInUrl := "/api/auth/signin?callbackUrl=/admin"

  datatype Gate = RedirectTo(url: string) | RenderAdmin

  /** The admin layout lets through only a session whose user has the
      `ADMIN` role. */
  function AdminGate(session: Session?): (r: Gate)
    reads session, if session != null then {session.user} else {}
    ensures r == RenderAdmin <==>
      session != null && session.user != null && session.user.role == Some(Admin)
    ensures r.RedirectTo? ==> r.url == SignInUrl
  {
    if session == null || session.user == null || session.user.role != Some(Admin) then
      RedirectTo(SignInUrl)
    else RenderAdmin
  }

  /** Through a credentials sign-in, the admin role, and so the admin pages,
      are reached only with both admin variables set and matched. */
  lemma AdminRoleNeedsConfiguredCredentials(c: Option<Credentials>, env: AdminEnv, tokenRole: Option<string>)
    ensures var a := Authorize(c, env);
      JwtRole(tokenRole, if a.Authorized? then Some(a.user) else None) == Some(Admin) ==>
        tokenRole == Some(Admin)
        || (env.email.Some? && env.pass.Some? && EmailOf(c) == env.email && PasswordOf(c) == env.pass)
  {
  }

  /** A user who signs in without a role (a Google account, say) becomes a
      member and is turned away from the admin pages. */
  method RolelessUserIsRefused(u: AuthUser) returns (gate: Gate)
    requires u.role.None?
    ensures gate == RedirectTo(SignInUrl)
  {
    var token := new Token();
    token.Jwt(Some(u));
    var su := new SessionUser(u.email);
    var session := new Session(su);
    session.ApplyToken(token);
    gate := AdminGate(session);
  }
}
