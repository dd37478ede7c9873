/**
 * The account handlers (src/controller/user.controller.ts): register, verify,
 * forgot password, reset password, and the current-user echo.
 *
 * Each handler is a method over the database connection and the mailer; its
 * postcondition ties what it did to a function over the value of the database,
 * and the lemmas below state what those functions promise.
 */
module UserController {
  import opened Wrappers
  import opened Bson
  import Argon2
  import opened UserModel
  import opened Store
  import opened Mail
  import opened Http

  const UserCreated := "User successfully created"
  const AccountExists := "Account already exists"
  const CouldNotVerify := "Could not verify user"
  const AlreadyVerified := "User is already verified"
  const UserVerified := "User successfully verified"
  const ResetRequested := "If a user with that email is registered you will receive a password reset email"
  const NotVerified := "User is not verified"
  const CouldNotReset := "Could not reset user password"
  const PasswordUpdated := "Successfully updated user password"
  const Sender := "test@example.com"

  function VerificationEmail(u: User, id: ObjectId): Email {
    Email(Sender, u.email, "Please verify your account",
          "Verification code " + u.verificationCode + ". Id: " + IdText(id))
  }

  function ResetEmail(u: User, code: string, id: ObjectId): Email {
    Email(Sender, u.email, "Reset your password", "Password reset code: " + code + ". Id " + IdText(id))
  }

  // ---- register ----

  /** `createUserHandler`: create, then mail the verification code; map a duplicate key to 409. */
  function Register(db: Db, body: CreateUserInput, code: NanoId, salt: Argon2.Salt): (o: Outcome)
    requires db.Valid()
    ensures o.db.Valid()
  {
    match db.CreateUser(body, code, salt)
    case Success(created) =>
      var (db', id) := created;
      Outcome(db', Send(UserCreated), [VerificationEmail(db'.users[id], id)])
    case Failure(e) =>
      if e.Code() == Some(11000) then Outcome(db, Response(409, Text(AccountExists)), [])
      else Outcome(db, Response(500, ErrorObject(e)), [])
  }

  method CreateUserHandler(db: Database, mailer: Mailer, body: CreateUserInput, code: NanoId, salt: Argon2.Salt)
    returns (res: Response)
    requires db.Valid()
    modifies db, mailer
    ensures db.Valid()
    ensures var o := Register(old(db.State()), body, code, salt);
      db.State() == o.db && res == o.response && mailer.sent == old(mailer.sent) + o.mail
  {
    var created := db.CreateUser(body, code, salt);
    match created
    case Success(id) =>
      var user := db.users[id];
      mailer.SendEmail(VerificationEmail(user, id));
      res := Send(UserCreated);
    case Failure(e) =>
      if e.Code() == Some(11000) {
        res := Response(409, Text(AccountExists));
      } else {
        res := Response(500, ErrorObject(e));
      }
  }

  // ---- verify ----

  /** `verifyUserHandler`. */
  function Verify(db: Db, id: ObjectId, code: string): (o: Outcome)
    requires db.Valid()
    ensures o.db.Valid() && o.mail == []
  {
    match db.FindUserById(id)
    case None => Outcome(db, Send(CouldNotVerify), [])
    case Some(user) =>
      if user.verified then Outcome(db, Send(AlreadyVerified), [])
      else if user.verificationCode == code then
        // the stored document passed validation, and flipping `verified` keeps it so
        Outcome(db.SaveUser(id, user.(verified := true), Unchanged).value, Send(UserVerified), [])
      else Outcome(db, Send(CouldNotVerify), [])
  }

  method VerifyUserHandler(db: Database, id: ObjectId, verificationCode: string) returns (res: Response)
    requires db.Valid()
    modifies db
    ensures db.Valid()
    ensures Verify(old(db.State()), id, verificationCode) == Outcome(db.State(), res, [])
  {
    var found := db.FindUserById(id);
    if found.None? {
      return Send(CouldNotVerify);
    }
    var user := found.value;
    if user.verified {
      return Send(AlreadyVerified);
    }
    if user.verificationCode == verificationCode {
      user := user.(verified := true);
      var _ := db.SaveUser(id, user, Unchanged);
      return Send(UserVerified);
    }
    res := Send(CouldNotVerify);
  }

  // ---- forgot password ----

  /** `forgotPasswordHandler`. */
  function ForgotPassword(db: Db, email: string, code: NanoId): (o: Outcome)
    requires db.Valid()
    ensures o.db.Valid()
  {
    match db.FindUserByEmail(email)
    case None => Outcome(db, Send(ResetRequested), [])
    case Some(id) =>
      var user := db.users[id];
      if !user.verified then Outcome(db, Send(NotVerified), [])
      else
        // as in `Verify`, the store's validation cannot reject this save
        var db' := db.SaveUser(id, user.(passwordResetCode := Some(code)), Unchanged).value;
        Outcome(db', Send(ResetRequested), [ResetEmail(user, code, id)])
  }

  method ForgotPasswordHandler(db: Database, mailer: Mailer, email: string, code: NanoId) returns (res: Response)
    requires db.Valid()
    modifies db, mailer
    ensures db.Valid()
    ensures var o := ForgotPassword(old(db.State()), email, code);
      db.State() == o.db && res == o.response && mailer.sent == old(mailer.sent) + o.mail
  {
    var found := db.FindUserByEmail(email);
    if found.None? {
      return Send(ResetRequested);
    }
    var id := found.value;
    var user := db.users[id];
    if !user.verified {
      return Send(NotVerified);
    }
    var passwordResetCode := code;
    user := user.(passwordResetCode := Some(passwordResetCode));
    var _ := db.SaveUser(id, user, Unchanged);
    mailer.SendEmail(ResetEmail(user, passwordResetCode, id));
    res := Send(ResetRequested);
  }

  // ---- reset password ----

  /** `!user.passwordResetCode || user.passwordResetCode !== passwordResetCode`: an empty stored code is falsy too. */
  predicate ResetRefused(u: User, code: string) {
    u.passwordResetCode.None? || u.passwordResetCode.value == "" || u.passwordResetCode.value != code
  }

  /** `resetPasswordHandler`. */
  function ResetPassword(db: Db, id: ObjectId, code: string, password: string, salt: Argon2.Salt): (o: Outcome)
    requires db.Valid()
    ensures o.db.Valid() && o.mail == []
  {
    match db.FindUserById(id)
    case None => Outcome(db, Response(400, Text(CouldNotReset)), [])
    case Some(user) =>
      if ResetRefused(user, code) then Outcome(db, Response(400, Text(CouldNotReset)), [])
      else
        match db.SaveUser(id, user.(passwordResetCode := None, password := Argon2.Plain(password)), Changed(salt))
        case Success(db') => Outcome(db', Send(PasswordUpdated), [])
        case Failure(e) => Outcome(db, Unhandled(e), [])
  }

  method ResetPasswordHandler(db: Database, id: ObjectId, passwordResetCode: string, password: string, salt: Argon2.Salt)
    returns (res: Response)
    requires db.Valid()
    modifies db
    ensures db.Valid()
    ensures ResetPassword(old(db.State()), id, passwordResetCode, password, salt) == Outcome(db.State(), res, [])
  {
    var found := db.FindUserById(id);
    if found.None? || ResetRefused(found.value, passwordResetCode) {
      return Response(400, Text(CouldNotReset));
    }
    var user := found.value;
    user := user.(passwordResetCode := None);
    user := user.(password := Argon2.Plain(password));
    var saved := db.SaveUser(id, user, Changed(salt));
    if saved.Failure? {
      return Unhandled(saved.error);
    }
    res := Send(PasswordUpdated);
  }

  // ---- current user ----

  /** `getCurrentUserHandler`: the decoded token left in `res.locals.user`, sent back unchanged. */
  function GetCurrentUserHandler(locals: Locals): Response {
    Response(200, Decoded(locals.user))
  }
}

/** What the account handlers promise, stated over their functions. */
module UserControllerProperties {
  import opened Wrappers
  import opened Bson
  import Argon2
  import opened UserModel
  import opened Store
  import opened Http
  import opened UserController

  /** `part` occurs in `s` starting at index `i`. */
  predicate OccursAt(s: string, part: string, i: int) {
    0 <= i <= |s| - |part| && s[i..i + |part|] == part
  }

  ghost predicate Contains(s: string, part: string) {
    exists i :: OccursAt(s, part, i)
  }

  /** The verification email names the code and the id it is for. */
  lemma VerificationEmailMentions(u: User, id: ObjectId)
    ensures VerificationEmail(u, id).to == u.email
    ensures Contains(VerificationEmail(u, id).text, u.verificationCode)
    ensures Contains(VerificationEmail(u, id).text, IdText(id))
  {
    var text := VerificationEmail(u, id).text;
    var head := "Verification code ";
    var mid := ". Id: ";
    assert text == head + u.verificationCode + mid + IdText(id);
    assert OccursAt(text, u.verificationCode, |head|);
    assert OccursAt(text, IdText(id), |head| + |u.verificationCode| + |mid|);
  }

  /** The reset email names the new code and the id it is for. */
  lemma ResetEmailMentions(u: User, code: string, id: ObjectId)
    ensures ResetEmail(u, code, id).to == u.email
    ensures Contains(ResetEmail(u, code, id).text, code)
    ensures Contains(ResetEmail(u, code, id).text, IdText(id))
  {
    var text := ResetEmail(u, code, id).text;
    var head := "Password reset code: ";
    var mid := ". Id ";
    assert text == head + code + mid + IdText(id);
    assert OccursAt(text, code, |head|);
    assert OccursAt(text, IdText(id), |head| + |code| + |mid|);
  }

  /**
   * Registration answers 409 exactly when the document is valid and its
   * lower-cased email is taken; then nothing is stored and no email is sent.
   */
  lemma RegisterConflict(db: Db, body: CreateUserInput, code: NanoId, salt: Argon2.Salt)
    requires db.Valid()
    ensures Register(db, body, code, salt).response == Response(409, Text(AccountExists)) <==>
      MeetsRequired(NewUser(body, code)) && exists id | id in db.users :: db.users[id].email == Lower(body.email)
    ensures Register(db, body, code, salt).response.status == 409 ==>
      Register(db, body, code, salt).db == db && Register(db, body, code, salt).mail == []
  {
  }

  /**
   * A successful registration stores one new unverified user under a fresh id,
   * with the generated code, a digest of the password and the lower-cased email,
   * and sends one email to that address naming the code and the id.
   */
  lemma RegisterCreates(db: Db, body: CreateUserInput, code: NanoId, salt: Argon2.Salt)
    requires db.Valid()
    requires Register(db, body, code, salt).response == Send(UserCreated)
    ensures var o := Register(db, body, code, salt);
      exists id | id !in db.users && id in o.db.users ::
        && o.db.users == db.users[id := o.db.users[id]]
        && o.db.sessions == db.sessions
        && o.db.users[id].email == Lower(body.email)
        && o.db.users[id].verificationCode == code
        && !o.db.users[id].verified
        && o.db.users[id].password.Hashed?
        && (forall c :: ValidatePassword(o.db.users[id], c) <==> c == body.password)
        && |o.mail| == 1 && o.mail[0].to == Lower(body.email)
        && Contains(o.mail[0].text, code) && Contains(o.mail[0].text, IdText(id))
  {
    var (db', id) := db.CreateUser(body, code, salt).value;
    VerificationEmailMentions(db'.users[id], id);
  }

  /**
   * Registering twice with emails equal up to case: the second attempt is a
   * conflict that changes nothing, and one account holds that email.
   */
  lemma RegisterTwice(db: Db, first: CreateUserInput, second: CreateUserInput, code1: NanoId, code2: NanoId,
                      salt1: Argon2.Salt, salt2: Argon2.Salt)
    requires db.Valid()
    requires Register(db, first, code1, salt1).response == Send(UserCreated)
    requires MeetsRequired(NewUser(second, code2)) && Lower(second.email) == Lower(first.email)
    ensures var db1 := Register(db, first, code1, salt1).db;
      && Register(db1, second, code2, salt2) == Outcome(db1, Response(409, Text(AccountExists)), [])
      && (exists id | id in db1.users :: db1.users[id].email == Lower(first.email))
      && (forall a, b | a in db1.users && b in db1.users && db1.users[a].email == Lower(first.email)
                        && db1.users[b].email == Lower(first.email) :: a == b)
  {
    var db1 := Register(db, first, code1, salt1).db;
    var (_, id) := db.CreateUser(first, code1, salt1).value;
    assert db1.users[id].email == Lower(second.email);
  }

  /**
   * Verification: an unknown id, an already verified user (whatever the code)
   * and a wrong code change nothing; the right code sets `verified` and nothing else.
   */
  lemma VerifyOutcomes(db: Db, id: ObjectId, code: string)
    requires db.Valid()
    ensures var o := Verify(db, id, code);
      && (id !in db.users ==> o == Outcome(db, Send(CouldNotVerify), []))
      && (id in db.users && db.users[id].verified ==> o == Outcome(db, Send(AlreadyVerified), []))
      && (id in db.users && !db.users[id].verified && db.users[id].verificationCode != code ==>
            o == Outcome(db, Send(CouldNotVerify), []))
      && (id in db.users && !db.users[id].verified && db.users[id].verificationCode == code ==>
            o == Outcome(db.(users := db.users[id := db.users[id].(verified := true)]), Send(UserVerified), []))
  {
  }

  /** A second verification with the same code answers "already verified" and changes nothing. */
  lemma VerifyIdempotent(db: Db, id: ObjectId, code: string)
    requires db.Valid()
    requires Verify(db, id, code).response == Send(UserVerified)
    ensures var db1 := Verify(db, id, code).db;
      Verify(db1, id, code) == Outcome(db1, Send(AlreadyVerified), [])
  {
  }

  /**
   * Forgot password: an unknown email gets the generic message and an
   * unverified user "User is not verified", with no code stored and no mail;
   * a verified user gets the generic message, the new code replaces any old
   * one, and one email names it.
   */
  lemma ForgotPasswordOutcomes(db: Db, email: string, code: NanoId)
    requires db.Valid()
    ensures var o := ForgotPassword(db, email, code);
      && (db.FindUserByEmail(email).None? ==> o == Outcome(db, Send(ResetRequested), []))
      && (db.FindUserByEmail(email).Some? && !db.users[db.FindUserByEmail(email).value].verified ==>
            o == Outcome(db, Send(NotVerified), []))
      && (db.FindUserByEmail(email).Some? && db.users[db.FindUserByEmail(email).value].verified ==>
            var id := db.FindUserByEmail(email).value;
            && o.response == Send(ResetRequested)
            && o.db == db.(users := db.users[id := db.users[id].(passwordResetCode := Some(code))])
            && |o.mail| == 1 && o.mail[0].to == db.users[id].email && Contains(o.mail[0].text, code))
  {
    var found := db.FindUserByEmail(email);
    if found.Some? {
      ResetEmailMentions(db.users[found.value], code, found.value);
    }
  }

  /**
   * Reset password: a missing user, a missing or empty stored code, or a
   * different code are refused with 400 and change nothing. Otherwise the code
   * is cleared and the password becomes a digest of the new one, which then
   * validates and nothing else does; an empty new password fails validation
   * and the save rejects.
   */
  lemma ResetPasswordOutcomes(db: Db, id: ObjectId, code: string, password: string, salt: Argon2.Salt)
    requires db.Valid()
    ensures var o := ResetPassword(db, id, code, password, salt);
      && (id !in db.users || ResetRefused(db.users[id], code) ==>
            o == Outcome(db, Response(400, Text(CouldNotReset)), []))
      && (id in db.users && !ResetRefused(db.users[id], code) && password == "" ==>
            o == Outcome(db, Unhandled(ValidationError), []))
      && (id in db.users && !ResetRefused(db.users[id], code) && password != "" ==>
            && o.response == Send(PasswordUpdated)
            && id in o.db.users
            && o.db == db.(users := db.users[id := o.db.users[id]])
            && o.db.users[id].passwordResetCode == None
            && (forall c :: ValidatePassword(o.db.users[id], c) <==> c == password)
            && o.db.users[id] == db.users[id].(passwordResetCode := None, password := o.db.users[id].password))
  {
  }

  /** A reset code works once: the same request repeated after a successful reset is refused. */
  lemma ResetCodeSingleUse(db: Db, id: ObjectId, code: string, password: string, again: string,
                           salt1: Argon2.Salt, salt2: Argon2.Salt)
    requires db.Valid()
    requires ResetPassword(db, id, code, password, salt1).response == Send(PasswordUpdated)
    ensures var db1 := ResetPassword(db, id, code, password, salt1).db;
      ResetPassword(db1, id, code, again, salt2) == Outcome(db1, Response(400, Text(CouldNotReset)), [])
  {
  }
}
