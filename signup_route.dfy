/**
 * app/api/auth/signup/route.ts: `POST /api/auth/signup`. A chain of early
 * returns over the body, then the duplicate lookup under the normalized email,
 * then one insert into the users collection; anything thrown is mapped to a
 * status by looking for known fragments in the error message.
 */
module SignupRoute {
  import opened Wrappers
  import opened Text
  import opened Schema
  import opened Passwords
  import opened Http

  /** The JSON body `{ name, email, password }`. */
  datatype SignupBody = SignupBody(name: Option<string>, email: Option<string>, password: Option<string>)

  /** What a failing step throws: an `Error` with its message, or any other value. */
  datatype Thrown = ErrorValue(message: string) | OtherValue

  /** The `user` of the 201 reply; it has no password field. */
  datatype CreatedUser = CreatedUser(id: ObjectId, name: Option<string>, email: string, role: string)

  const MinNameLength := 2
  const MinPasswordLength := 6
  /** At most this many characters of an unrecognised error message are echoed. */
  const EchoedMessageLength := 100

  const CredentialsRequired := "Email and password are required"
  const NameRequired := "Full name is required"
  const PasswordTooShort := "Password must be at least 6 characters"
  const AlreadyRegistered := "Email already registered. Please log in instead."
  const ConnectionRefused := "Cannot connect to MongoDB. Please check your MONGO_URI in .env.local and ensure your cluster is running."
  const ClusterNotFound := "MongoDB cluster not found. Please verify your MONGO_URI is correct. Follow the MONGODB_ATLAS_SETUP.md guide."
  const DatabaseAuthFailed := "MongoDB authentication failed. Check your username and password in MONGO_URI."
  const DatabaseErrorPrefix := "Database error: "
  const SignupFailed := "Signup failed. Please try again."

  /** The validation chain; the first failing check gives the 400 message. */
  function ValidationError(b: SignupBody): (r: Option<string>)
    ensures r == Some(CredentialsRequired) <==> !Truthy(b.email) || !Truthy(b.password)
    ensures r == Some(NameRequired) <==>
      Truthy(b.email) && Truthy(b.password) && (!Truthy(b.name) || |Trim(b.name.value)| < MinNameLength)
    ensures r == Some(PasswordTooShort) <==>
      Truthy(b.email) && Truthy(b.password) && Truthy(b.name) && |Trim(b.name.value)| >= MinNameLength
      && |b.password.value| < MinPasswordLength
    ensures r.None? <==>
      Truthy(b.email) && Truthy(b.password) && Truthy(b.name)
      && |Trim(b.name.value)| >= MinNameLength && |b.password.value| >= MinPasswordLength
  {
    if !Truthy(b.email) || !Truthy(b.password) then Some(CredentialsRequired)
    else if !Truthy(b.name) || |Trim(b.name.value)| < MinNameLength then Some(NameRequired)
    else if |b.password.value| < MinPasswordLength then Some(PasswordTooShort)
    else None
  }

  predicate IsDuplicateKey(m: string) { Contains(m, "duplicate key") || Contains(m, "E11000") }
  predicate IsConnectionRefused(m: string) { Contains(m, "ECONNREFUSED") }
  predicate IsClusterNotFound(m: string) { Contains(m, "querySrv") || Contains(m, "ENOTFOUND") }
  predicate IsAuthFailure(m: string) { Contains(m, "authentication failed") || Contains(m, "unauthorized") }

  /**
   * The catch block: a duplicate key is a 409, the three connection problems
   * are 503s, any other `Error` is a 500 echoing at most 100 characters of its
   * message, and a thrown non-`Error` is a generic 500.
   */
  function ErrorReply(e: Thrown): (r: Reply<CreatedUser>)
    ensures r.Failure? && r.status in {409, 503, 500}
    ensures r.status == 409 <==> e.ErrorValue? && IsDuplicateKey(e.message)
    ensures r.status == 409 ==> r.error == AlreadyRegistered
    ensures r.status == 503 <==>
      e.ErrorValue? && !IsDuplicateKey(e.message)
      && (IsConnectionRefused(e.message) || IsClusterNotFound(e.message) || IsAuthFailure(e.message))
    ensures r.status == 503 && IsConnectionRefused(e.message) ==> r.error == ConnectionRefused
    ensures r.status == 503 && !IsConnectionRefused(e.message) && IsClusterNotFound(e.message) ==> r.error == ClusterNotFound
    ensures r.status == 503 && !IsConnectionRefused(e.message) && !IsClusterNotFound(e.message) ==> r.error == DatabaseAuthFailed
    ensures e.OtherValue? ==> r == Failure(500, SignupFailed)
    ensures e.ErrorValue? && r.status == 500 ==>
      && r.error == DatabaseErrorPrefix + Prefix(e.message, EchoedMessageLength)
      && StartsWith(r.error, DatabaseErrorPrefix)
      && r.error[|DatabaseErrorPrefix|..] <= e.message
      && |r.error| <= |DatabaseErrorPrefix| + EchoedMessageLength
  {
    match e
    case OtherValue => Failure(500, SignupFailed)
    case ErrorValue(m) =>
      if IsDuplicateKey(m) then Failure(409, AlreadyRegistered)
      else if IsConnectionRefused(m) then Failure(503, ConnectionRefused)
      else if IsClusterNotFound(m) then Failure(503, ClusterNotFound)
      else if IsAuthFailure(m) then Failure(503, DatabaseAuthFailed)
      else
        var echoed := Prefix(m, EchoedMessageLength);
        assert (DatabaseErrorPrefix + echoed)[|DatabaseErrorPrefix|..] == echoed;
        assert (DatabaseErrorPrefix + echoed)[..|DatabaseErrorPrefix|] == DatabaseErrorPrefix;
        Failure(500, DatabaseErrorPrefix + echoed)
  }

  /** The fields handed to `User.create` for a body that passed validation. */
  function NewUserFields(b: SignupBody, hashed: string): UserFields
    requires ValidationError(b).None?
  {
    UserFields(Some(Trim(b.name.value)), Some(NormalizeEmail(b.email.value)), Some(hashed), Some("user"))
  }

  /**
   * The whole handler on a store: the reply and the users afterwards. `fault`
   * is what the database throws at its first use, if it fails; the digest is
   * `h.hash(password, salt)`, and `newId`/`now` are the new document's id and
   * creation time. No failure changes the store; a success inserts one user,
   * under the normalized email, with the trimmed name, the digest and role "user".
   */
  function Outcome(users: map<string, UserDoc>, b: SignupBody, fault: Option<Thrown>, h: Hasher, salt: string, newId: ObjectId, now: int)
    : (r: (Reply<CreatedUser>, map<string, UserDoc>))
    ensures r.0.Success? <==> r.1 != users
    ensures ValidationError(b).Some? ==> r == (Failure(400, ValidationError(b).value), users)
    ensures ValidationError(b).None? && fault.Some? ==> r == (ErrorReply(fault.value), users)
    ensures ValidationError(b).None? && fault.None? && NormalizeEmail(b.email.value) in users ==>
      r == (Failure(409, AlreadyRegistered), users)
    ensures r.0.Success? ==>
      && ValidationError(b).None? && fault.None?
      && var email := NormalizeEmail(b.email.value);
      && email !in users && email != ""
      && r.0 == Success(201, CreatedUser(newId, Some(Trim(b.name.value)), email, "user"))
      && r.1 == users[email := UserDoc(newId, Some(Trim(b.name.value)), email, h.hash(b.password.value, salt), UserRole, now)]
  {
    match ValidationError(b)
    case Some(message) => (Failure(400, message), users)
    case None =>
      if fault.Some? then (ErrorReply(fault.value), users)
      else
        var email := NormalizeEmail(b.email.value);
        if email in users then (Failure(409, AlreadyRegistered), users)
        else
          match CreateUser(NewUserFields(b, h.hash(b.password.value, salt)), newId, now)
          case Err(message) => (ErrorReply(ErrorValue(message)), users)
          case Ok(user) => (Success(201, CreatedUser(user.id, user.name, user.email, RoleName(user.role))), users[email := user])
  }

  /** A signup keeps the users collection well formed, given an id no user has. */
  lemma SignupKeepsUsersValid(users: map<string, UserDoc>, b: SignupBody, fault: Option<Thrown>, h: Hasher, salt: string, newId: ObjectId, now: int)
    requires ValidUsers(users) && FreshId(users, newId)
    ensures ValidUsers(Outcome(users, b, fault, h, salt, newId, now).1)
  {
    if Outcome(users, b, fault, h, salt, newId, now).0.Success? {
      var email := NormalizeEmail(b.email.value);
      InsertKeepsUsersValid(users, email, UserDoc(newId, Some(Trim(b.name.value)), email, h.hash(b.password.value, salt), UserRole, now));
    }
  }

  /** A stored digest is never the plain password, when the hasher hides it. */
  lemma SignupStoresNoPlaintext(users: map<string, UserDoc>, b: SignupBody, h: Hasher, salt: string, newId: ObjectId, now: int)
    requires Hiding(h)
    requires Outcome(users, b, None, h, salt, newId, now).0.Success?
    ensures var after := Outcome(users, b, None, h, salt, newId, now).1;
            after[NormalizeEmail(b.email.value)].password != b.password.value
            && |after| == |users| + 1
  {
  }

  /** Once an email has signed up, any spelling of it that differs only in case or surrounding space gets 409. */
  lemma SecondSignupConflicts(users: map<string, UserDoc>, b1: SignupBody, b2: SignupBody, h: Hasher, salt1: string, salt2: string,
                              id1: ObjectId, id2: ObjectId, now1: int, now2: int)
    requires Outcome(users, b1, None, h, salt1, id1, now1).0.Success?
    requires ValidationError(b2).None? && NormalizeEmail(b2.email.value) == NormalizeEmail(b1.email.value)
    ensures var after := Outcome(users, b1, None, h, salt1, id1, now1).1;
            Outcome(after, b2, None, h, salt2, id2, now2) == (Failure(409, AlreadyRegistered), after)
  {
  }

  /** Inserting a user under its own new, normalized email and a fresh id keeps the collection well formed. */
  lemma InsertKeepsUsersValid(users: map<string, UserDoc>, email: string, user: UserDoc)
    requires ValidUsers(users) && FreshId(users, user.id) && email !in users
    requires user.email == email && email != "" && IsNormalEmail(email)
    ensures ValidUsers(users[email := user])
  {
    var after := users[email := user];
    forall k | k in after
      ensures after[k].email == k && k != "" && IsNormalEmail(k) && after[k].id != ""
    {
      if k != email {
        assert after[k] == users[k];
      }
    }
    forall k1, k2 | k1 in after && k2 in after && after[k1].id == after[k2].id
      ensures k1 == k2
    {
      if k1 != email && k2 != email {
        assert users[k1].id == users[k2].id;
      }
    }
  }

  /** "User validation failed: email: Path `email` is required." */
  const BlankEmailMessage := ValidationFailed(UserValidationFailed, [RequiredError("email")])

  /** An email of white space only is truthy, but lower-cases and trims to "". */
  lemma BlankEmailNormalizesToEmpty(email: string)
    requires IsBlank(email)
    ensures NormalizeEmail(email) == ""
  {
    assert IsBlank(Lower(email));
  }

  /** Creating a user with email "" fails the required validator, and only it. */
  lemma BlankEmailCastFails(name: Option<string>, hashed: string, id: ObjectId, now: int)
    requires hashed != ""
    ensures CreateUser(UserFields(name, Some(""), Some(hashed), Some("user")), id, now) == Err(BlankEmailMessage)
  {
    assert UserErrors(UserFields(name, Some(""), Some(hashed), Some("user"))) == [RequiredError("email")];
  }

  /**
   * A body that passes validation but whose email is only white space
   * normalizes to "", which the schema's required validator rejects when the
   * user is created: the reply is the catch block's answer to that validation
   * error (not a 400), and the store is unchanged.
   */
  lemma BlankEmailIsDatabaseError(users: map<string, UserDoc>, b: SignupBody, h: Hasher, salt: string, newId: ObjectId, now: int)
    requires ValidationError(b).None? && IsBlank(b.email.value)
    requires "" !in users && h.hash(b.password.value, salt) != ""
    ensures Outcome(users, b, None, h, salt, newId, now) == (ErrorReply(ErrorValue(BlankEmailMessage)), users)
    ensures Outcome(users, b, None, h, salt, newId, now).0.status in {409, 503, 500}
  {
    BlankEmailNormalizesToEmpty(b.email.value);
    BlankEmailCastFails(Some(Trim(b.name.value)), h.hash(b.password.value, salt), newId, now);
  }
}
