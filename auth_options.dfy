/**
 * lib/authOptions.ts: the credentials provider's `authorize`, and the `jwt`
 * and `session` callbacks that carry its result into the token and the session.
 * The token is an opaque record here; signing and encoding it is next-auth's.
 */
module AuthOptions {
  import opened Wrappers
  import opened Text
  import opened Schema
  import opened Passwords
  import opened Http

  datatype SessionStrategy = JwtStrategy | DatabaseStrategy

  const Strategy := JwtStrategy

  /** `session.maxAge`, in seconds. */
  const SessionMaxAge := 30 * 24 * 60 * 60

  /** The sign-in, sign-out and error pages all point at the login page. */
  const LoginPage := "/auth/login"

  /** Sessions are JSON Web Tokens that last thirty days. */
  lemma SessionsLastThirtyDays()
    ensures Strategy == JwtStrategy && SessionMaxAge == 2592000 && SessionMaxAge / (24 * 60 * 60) == 30
  {
  }

  /** The credentials form: `{ email, password }`, either possibly absent. */
  datatype Credentials = Credentials(email: Option<string>, password: Option<string>)

  /** The user object `authorize` hands to next-auth. */
  datatype AuthUser = AuthUser(id: string, name: Option<string>, email: string, role: string)

  /** `User.findOne({ email })` on a store keyed by email. */
  function FindByEmail(users: map<string, UserDoc>, email: string): (r: Option<UserDoc>)
    ensures r.Some? <==> email in users
    ensures r.Some? ==> r.value == users[email]
  {
    if email in users then Some(users[email]) else None
  }

  /**
   * `authorize(credentials)`: a user only for present credentials whose
   * lower-cased, trimmed email is stored and whose password compares equal to
   * the stored digest. `fault` is a database failure, which the catch turns
   * into `None` like every other rejection.
   */
  function Authorize(credentials: Option<Credentials>, users: map<string, UserDoc>, fault: bool, h: Hasher): (r: Option<AuthUser>)
    ensures r.Some? <==>
      && credentials.Some? && Truthy(credentials.value.email) && Truthy(credentials.value.password) && !fault
      && NormalizeEmail(credentials.value.email.value) in users
      && h.compare(credentials.value.password.value, users[NormalizeEmail(credentials.value.email.value)].password)
    ensures r.Some? ==>
      var u := users[NormalizeEmail(credentials.value.email.value)];
      && r.value.id == u.id && r.value.name == u.name && r.value.email == u.email
      && r.value.role == RoleName(u.role) && r.value.role in {"user", "admin"}
  {
    if credentials.None? || !Truthy(credentials.value.email) || !Truthy(credentials.value.password) then None
    else
      var email := NormalizeEmail(credentials.value.email.value);
      if fault then None
      else match FindByEmail(users, email)
        case None => None
        case Some(user) =>
          if !h.compare(credentials.value.password.value, user.password) then None
          else Some(AuthUser(user.id, user.name, user.email, Or(Some(RoleName(user.role)), "user")))
  }

  /**
   * Two sign-in attempts with non-empty emails that agree once lower-cased and trimmed get
   * the same answer; an unknown email and a wrong password both get `None`.
   */
  lemma AuthorizeSeesNormalizedEmailOnly(e1: string, e2: string, password: string, users: map<string, UserDoc>, fault: bool, h: Hasher)
    requires e1 != "" && e2 != "" && NormalizeEmail(e1) == NormalizeEmail(e2)
    ensures Authorize(Some(Credentials(Some(e1), Some(password))), users, fault, h)
         == Authorize(Some(Credentials(Some(e2), Some(password))), users, fault, h)
    ensures NormalizeEmail(e1) !in users ==> Authorize(Some(Credentials(Some(e1), Some(password))), users, fault, h).None?
    ensures NormalizeEmail(e1) in users && !h.compare(password, users[NormalizeEmail(e1)].password)
            ==> Authorize(Some(Credentials(Some(e1), Some(password))), users, fault, h).None?
  {
  }

  /** The JWT's claims; `jwt` writes them when a user has just signed in. */
  class Token {
    var id: Option<string>
    var email: Option<string>
    var name: Option<string>
    var role: Option<string>

    /** A token with none of the custom claims. */
    constructor ()
      ensures id.None? && email.None? && name.None? && role.None?
    {
      id, email, name, role := None, None, None, None;
    }

    /** `callbacks.jwt`: copies the signed-in user's claims, defaulting the role to "user". */
    method Jwt(user: Option<AuthUser>)
      modifies this
      ensures user.None? ==> id == old(id) && email == old(email) && name == old(name) && role == old(role)
      ensures user.Some? ==> && id == Some(user.value.id) && email == Some(user.value.email)
                             && name == user.value.name && role == Some(Or(Some(user.value.role), "user"))
      ensures user.Some? ==> role.Some? && role.value != ""
    {
      if user.Some? {
        id := Some(user.value.id);
        email := Some(user.value.email);
        name := user.value.name;
        role := Some(Or(Some(user.value.role), "user"));
      }
    }
  }

  /** The session object the `session` callback receives and returns. */
  class Session {
    var user: Option<SessionUser>

    constructor (user: Option<SessionUser>)
      ensures this.user == user
    {
      this.user := user;
    }

    /** `callbacks.session`: copies the token's id and role onto `session.user`, when there is one. */
    method Populate(token: Token)
      modifies this
      ensures old(user).None? ==> user.None?
      ensures old(user).Some? ==> user == Some(old(user).value.(id := token.id, role := token.role))
    {
      if user.Some? {
        user := Some(user.value.(id := token.id, role := token.role));
      }
    }
  }

  /**
   * A sign-in from end to end: `authorize`, then `jwt` on a fresh token, then
   * `session` on a session whose name and email next-auth takes from the token.
   * The session carries exactly the authorized user's id, name, email and role.
   */
  method SignIn(credentials: Option<Credentials>, users: map<string, UserDoc>, fault: bool, h: Hasher)
    returns (session: Option<SessionUser>)
    ensures session.Some? <==> Authorize(credentials, users, fault, h).Some?
    ensures session.Some? ==>
      var u := Authorize(credentials, users, fault, h).value;
      session.value == SessionUser(Some(u.id), u.name, Some(u.email), Some(u.role))
  {
    var user := Authorize(credentials, users, fault, h);
    if user.None? {
      return None;
    }
    var token := new Token();
    token.Jwt(user);
    var s := new Session(Some(SessionUser(None, token.name, token.email, None)));
    s.Populate(token);
    session := s.user;
  }
}
