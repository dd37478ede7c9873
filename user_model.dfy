/**
 * The user document (src/model/user.model.ts): its fields and defaults, the
 * `required` and `lowercase` schema options, the private-field list, the
 * pre-save hook that hashes a modified password, and `validatePassword`.
 */
module UserModel {
  import opened Wrappers
  import Argon2
  import opened Bson

  /** `privateFields`: the keys removed before a user is put in a token. */
  const PrivateFields: seq<string> := ["password", "__v", "verificationCode", "passwordResetCode", "verified"]

  /**
   * A stored user. `passwordResetCode` is `None` both when it was never set and
   * after a reset stored `null`.
   */
  datatype User = User(
    email: string,
    firstName: string,
    lastName: string,
    password: Argon2.Secret,
    verificationCode: string,
    passwordResetCode: Option<string>,
    verified: bool)

  /** The registration body handed to the store. */
  datatype CreateUserInput = CreateUserInput(email: string, firstName: string, lastName: string, password: string)

  // ---- nanoid ----

  predicate IsUrlChar(c: char) {
    'A' <= c <= 'Z' || 'a' <= c <= 'z' || '0' <= c <= '9' || c == '_' || c == '-'
  }

  /** What `nanoid()` returns with its default size: 21 characters of the URL-safe alphabet. */
  predicate IsNanoId(s: string) {
    |s| == 21 && forall i | 0 <= i < |s| :: IsUrlChar(s[i])
  }

  type NanoId = s: string | IsNanoId(s) witness "AAAAAAAAAAAAAAAAAAAAA"

  // ---- the `lowercase: true` setter on email ----

  function LowerChar(c: char): char {
    if 'A' <= c <= 'Z' then (c as int + 32) as char else c
  }

  predicate IsLower(s: string) {
    forall i | 0 <= i < |s| :: !('A' <= s[i] <= 'Z')
  }

  function Lower(s: string): (r: string)
    ensures |r| == |s|
    ensures forall i | 0 <= i < |s| :: r[i] == LowerChar(s[i])
  {
    if s == [] then [] else [LowerChar(s[0])] + Lower(s[1..])
  }

  /** The setter's output is lower case, and applying it again changes nothing. */
  lemma LowerNormalizes(s: string)
    ensures IsLower(Lower(s))
    ensures Lower(Lower(s)) == Lower(s)
  {
    assert Lower(Lower(s)) == Lower(s) by {
      forall i | 0 <= i < |s| ensures Lower(Lower(s))[i] == Lower(s)[i] {
        assert LowerChar(LowerChar(s[i])) == LowerChar(s[i]);
      }
    }
  }

  // ---- construction, validation and the save hook ----

  /**
   * A new document from a registration body: the email through the lower-case
   * setter, the generated verification code, `verified` false and no reset code.
   */
  function NewUser(input: CreateUserInput, code: NanoId): (u: User)
    ensures IsLower(u.email) && u.email == Lower(input.email)
    ensures u.password == Argon2.Plain(input.password) && u.verificationCode == code
    ensures !u.verified && u.passwordResetCode.None?
  {
    LowerNormalizes(input.email);
    User(Lower(input.email), input.firstName, input.lastName, Argon2.Plain(input.password), code, None, false)
  }

  /** mongoose's `required` validator: a required string may not be empty. */
  predicate MeetsRequired(u: User) {
    && u.email != ""
    && u.firstName != ""
    && u.lastName != ""
    && (u.password.Plain? ==> u.password.text != "")
    && u.verificationCode != ""
  }

  /** Whether `password` was assigned since the document was loaded, with the salt argon2 draws to hash it. */
  datatype PasswordChange = Unchanged | Changed(salt: Argon2.Salt)

  /** `validatePassword`: the argon2 verdict, and false where argon2 throws. */
  function ValidatePassword(u: User, candidate: string): (ok: bool)
    ensures ok ==> u.password.Hashed?
  {
    match Argon2.Verify(u.password, candidate)
    case Success(matches) => matches
    case Failure(_) => false
  }

  /**
   * The `pre("save")` hook: an unmodified password is left alone; a modified
   * one is replaced by its digest, and no other field changes.
   */
  function PreSave(u: User, change: PasswordChange): (r: User)
    ensures change == Unchanged ==> r == u
    ensures change.Changed? ==> r.password.Hashed? && r == u.(password := r.password)
    ensures change.Changed? && u.password.Plain? ==>
      forall c :: ValidatePassword(r, c) <==> c == u.password.text
  {
    match change
    case Unchanged => u
    case Changed(salt) => u.(password := Argon2.Hash(u.password, salt))
  }

  /** `user.toJSON()`: every stored field under its schema name, plus `_id` and the version key `__v`. */
  function ToJson(id: ObjectId, u: User): (j: Object)
    ensures forall k | k in PrivateFields :: k in j
    ensures "_id" in j && j["_id"] == Oid(id) && "email" in j && j["email"] == Str(u.email)
    ensures "firstName" in j && j["firstName"] == Str(u.firstName) && "lastName" in j && j["lastName"] == Str(u.lastName)
  {
    map[
      "_id" := Oid(id),
      "email" := Str(u.email),
      "firstName" := Str(u.firstName),
      "lastName" := Str(u.lastName),
      "password" := Digest(u.password),
      "verificationCode" := Str(u.verificationCode),
      "passwordResetCode" := (if u.passwordResetCode.Some? then Str(u.passwordResetCode.value) else Null),
      "verified" := Bool(u.verified),
      "__v" := Num(0)]
  }
}
