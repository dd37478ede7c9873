/** The session document (src/model/session.model.ts). */
module SessionModel {
  import opened Bson

  /** A session refers to the user it was created for; `valid` is the revocation flag. */
  datatype Session = Session(user: ObjectId, valid: bool)

  /** `SessionModel.create({ user })`: `valid` takes its schema default, true. */
  function NewSession(user: ObjectId): Session {
    Session(user, true)
  }
}
