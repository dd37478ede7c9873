/**
 * The two collections (users and sessions) and the user service over them.
 *
 * `Db` is the content of the database as a value; `Database` is the
 * connection the handlers mutate in place, and each of its methods is proved
 * against the matching `Db` function. Object ids come from one counter, so an
 * id is never reused. `emailIndex` is the unique index on `email`.
 */
module Store {
  import opened Wrappers
  import opened Bson
  import Argon2
  import opened UserModel
  import opened SessionModel

  datatype StoreError = ValidationError | DuplicateKey {
    /** The driver's error code: 11000 for a unique-index violation, none for a validation error. */
    function Code(): Option<int> {
      if DuplicateKey? then Some(11000) else None
    }
  }

  datatype Db = Db(
    users: map<ObjectId, User>,
    emailIndex: map<string, ObjectId>,
    sessions: map<ObjectId, Session>,
    nextId: ObjectId)
  {
    /**
     * Ids below the counter; the index and the users agree, so emails are
     * unique; every stored email is lower case, every stored user passes the
     * `required` validators, and every stored password is a digest.
     */
    ghost predicate Valid() {
      && (forall id | id in users :: id < nextId)
      && (forall id | id in sessions :: id < nextId)
      && (forall e | e in emailIndex :: emailIndex[e] in users && users[emailIndex[e]].email == e)
      && (forall id | id in users :: users[id].email in emailIndex && emailIndex[users[id].email] == id)
      && (forall id | id in users :: IsLower(users[id].email) && MeetsRequired(users[id]) && users[id].password.Hashed?)
    }

    /** `findUserById`. */
    function FindUserById(id: ObjectId): (r: Option<User>)
      ensures r.Some? <==> id in users
      ensures r.Some? ==> r.value == users[id]
    {
      if id in users then Some(users[id]) else None
    }

    /**
     * `findUserByEmail`: the schema's lower-case setter also applies to the
     * query value, so the lookup is by the lower-cased email.
     */
    function FindUserByEmail(email: string): (r: Option<ObjectId>)
      requires Valid()
      ensures r.Some? ==> r.value in users && users[r.value].email == Lower(email)
      ensures r.None? ==> forall id | id in users :: users[id].email != Lower(email)
    {
      var e := Lower(email);
      if e in emailIndex then Some(emailIndex[e]) else None
    }

    /** `SessionModel.findById`. */
    function FindSessionById(id: ObjectId): (r: Option<Session>)
      ensures r.Some? <==> id in sessions
      ensures r.Some? ==> r.value == sessions[id]
    {
      if id in sessions then Some(sessions[id]) else None
    }

    /**
     * `createUser` (`UserModel.create`): build the document with its defaults,
     * run the `required` validators, hash the new password in the save hook,
     * and insert under the unique email index.
     */
    function CreateUser(input: CreateUserInput, code: NanoId, salt: Argon2.Salt): (r: Result<(Db, ObjectId), StoreError>)
      requires Valid()
      ensures r.Failure? ==> (r.error == ValidationError <==> !MeetsRequired(NewUser(input, code)))
      ensures r == Failure(DuplicateKey) <==>
        MeetsRequired(NewUser(input, code)) && exists id | id in users :: users[id].email == Lower(input.email)
      ensures r.Success? ==>
        var (db, id) := r.value;
        && db.Valid()
        && id !in users && id !in sessions && id in db.users
        && db == this.(users := users[id := db.users[id]], emailIndex := db.emailIndex, nextId := db.nextId)
        && db.users[id].email == Lower(input.email)
        && db.users[id].firstName == input.firstName && db.users[id].lastName == input.lastName
        && db.users[id].verificationCode == code
        && db.users[id].passwordResetCode == None
        && !db.users[id].verified
        && (forall c :: ValidatePassword(db.users[id], c) <==> c == input.password)
    {
      var doc := NewUser(input, code);
      if !MeetsRequired(doc) then Failure(ValidationError)
      else
        var stored := PreSave(doc, Changed(salt));
        if stored.email in emailIndex then Failure(DuplicateKey)
        else
          LowerNormalizes(input.email);
          var id := nextId;
          Success((Db(users[id := stored], emailIndex[stored.email := id], sessions, nextId + 1), id))
    }

    /**
     * `user.save()` after the handler changed fields of a loaded user: validate,
     * run the pre-save hook, write back. `change` is mongoose's record of
     * whether `password` was modified.
     */
    function SaveUser(id: ObjectId, doc: User, change: PasswordChange): (r: Result<Db, StoreError>)
      requires Valid() && id in users && doc.email == users[id].email
      requires change.Unchanged? <==> doc.password == users[id].password
      ensures r.Success? <==> MeetsRequired(doc)
      ensures r.Failure? ==> r.error == ValidationError
      ensures r.Success? ==> r.value.Valid() && r.value == this.(users := users[id := PreSave(doc, change)])
    {
      if !MeetsRequired(doc) then Failure(ValidationError)
      else Success(this.(users := users[id := PreSave(doc, change)]))
    }

    /** Insert a session document under a fresh id. */
    function InsertSession(s: Session): (r: (Db, ObjectId))
      requires Valid()
      ensures r.0.Valid()
      ensures r.1 !in sessions && r.1 !in users
      ensures r.0 == this.(sessions := sessions[r.1 := s], nextId := r.0.nextId)
    {
      (this.(sessions := sessions[nextId := s], nextId := nextId + 1), nextId)
    }
  }

  /** The empty database. */
  function Empty(): (db: Db)
    ensures db.Valid()
  {
    Db(map[], map[], map[], 0)
  }

  class Database {
    var users: map<ObjectId, User>
    var emailIndex: map<string, ObjectId>
    var sessions: map<ObjectId, Session>
    var nextId: ObjectId

    function State(): Db
      reads this
    {
      Db(users, emailIndex, sessions, nextId)
    }

    ghost predicate Valid()
      reads this
    {
      State().Valid()
    }

    constructor ()
      ensures Valid() && State() == Empty()
    {
      users, emailIndex, sessions, nextId := map[], map[], map[], 0;
    }

    function FindUserById(id: ObjectId): Option<User>
      reads this
    {
      State().FindUserById(id)
    }

    function FindUserByEmail(email: string): Option<ObjectId>
      reads this
      requires Valid()
    {
      State().FindUserByEmail(email)
    }

    function FindSessionById(id: ObjectId): Option<Session>
      reads this
    {
      State().FindSessionById(id)
    }

    method CreateUser(input: CreateUserInput, code: NanoId, salt: Argon2.Salt) returns (r: Result<ObjectId, StoreError>)
      requires Valid()
      modifies this
      ensures Valid()
      ensures match old(State()).CreateUser(input, code, salt)
        case Success(created) => r == Success(created.1) && State() == created.0
        case Failure(e) => r == Failure(e) && State() == old(State())
    {
      var doc := NewUser(input, code);
      if !MeetsRequired(doc) {
        return Failure(ValidationError);
      }
      doc := PreSave(doc, Changed(salt));
      if doc.email in emailIndex {
        return Failure(DuplicateKey);
      }
      var id := nextId;
      ghost var created := old(State()).CreateUser(input, code, salt).value;
      assert created == (Db(users[id := doc], emailIndex[doc.email := id], sessions, nextId + 1), id);
      users := users[id := doc];
      emailIndex := emailIndex[doc.email := id];
      nextId := nextId + 1;
      r := Success(id);
    }

    method SaveUser(id: ObjectId, doc: User, change: PasswordChange) returns (r: Result<(), StoreError>)
      requires Valid() && id in users && doc.email == users[id].email
      requires change.Unchanged? <==> doc.password == users[id].password
      modifies this
      ensures Valid()
      ensures match old(State()).SaveUser(id, doc, change)
        case Success(db) => r.Success? && State() == db
        case Failure(e) => r == Failure(e) && State() == old(State())
    {
      if !MeetsRequired(doc) {
        return Failure(ValidationError);
      }
      users := users[id := PreSave(doc, change)];
      r := Success(());
    }

    method InsertSession(s: Session) returns (id: ObjectId)
      requires Valid()
      modifies this
      ensures Valid()
      ensures (State(), id) == old(State()).InsertSession(s)
    {
      id := nextId;
      sessions := sessions[id := s];
      nextId := nextId + 1;
    }
  }
}
