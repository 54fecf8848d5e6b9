/** The user-record store (UserRepositoryImpl.kt): writes and reads of the
    record under Users/<id>, password-reset mail and sign-out, each completed
    task mapped to the `(ok, message)` (or `(model, ok, message)`) callback.
    The stored user model `M` is opaque here: its class is not part of this model. */
module UserRepository {
  import opened Common
  import opened Store

  const UsersNode := "Users"

  /** The path of a user's record. */
  function UserPath(userId: string): Path {
    [UsersNode, userId]
  }

  /** How a database or identity-service task completed: a failure carries
      the exception's message, None when the exception or its message is null. */
  datatype Completion = Succeeded | Failed(message: Option<string>)

  datatype Reply = Reply(ok: bool, message: string)

  const AddFallback := "An unknown error occurred while adding user data."
  const UpdateFallback := "An unknown error occurred while updating profile."
  const ResetFallback := "An unknown error occurred while sending reset email."
  const LogoutFallback := "An unknown error occurred during logout."

  /** The callback value for a task, with its success text and fallback error text. */
  function ReplyOf(c: Completion, success: string, fallback: string): (r: Reply)
    ensures r.ok <==> c.Succeeded?
    ensures c.Succeeded? ==> r.message == success
    ensures c.Failed? ==> r.message == MessageOr(c.message, fallback)
  {
    match c
    case Succeeded => Reply(true, success)
    case Failed(m) => Reply(false, MessageOr(m, fallback))
  }

  /** The users node: for each stored id, the decoded model, or None when
      the stored data does not decode into a model. */
  type Users<M> = map<string, Option<M>>

  /** `setValue(model)` on Users/<userId>: the whole record is replaced. */
  datatype SetUser<M> = SetUser(path: Path, model: M)

  /** `addUserToDatabase`: the write it issues and the reply for its completion. */
  function AddUserToDatabase<M>(userId: string, model: M, c: Completion): (r: (SetUser<M>, Reply))
    ensures r.0.path == UserPath(userId) && r.0.model == model
    ensures r.1.ok <==> c.Succeeded?
    ensures c.Succeeded? ==> r.1.message == "User added"
    ensures c.Failed? ==> r.1.message == MessageOr(c.message, AddFallback)
  {
    (SetUser(UserPath(userId), model), ReplyOf(c, "User added", AddFallback))
  }

  /** The users node after a successful whole-record write. */
  function ApplySetUser<M>(users: Users<M>, w: SetUser<M>): Users<M>
    requires |w.path| == 2 && w.path[0] == UsersNode
  {
    users[w.path[1] := Some(w.model)]
  }

  /** `updateProfile`: only the supplied children are sent, via `updateChildren`. */
  function UpdateProfile(userId: string, data: Record, c: Completion): (r: (Write, Reply))
    ensures r.0 == UpdateChildren(UserPath(userId), data)
    ensures r.1.ok <==> c.Succeeded?
    ensures c.Succeeded? ==> r.1.message == "User updated"
    ensures c.Failed? ==> r.1.message == MessageOr(c.message, UpdateFallback)
  {
    (UpdateChildren(UserPath(userId), data), ReplyOf(c, "User updated", UpdateFallback))
  }

  /** A profile update touches only the children it names, and re-sending it changes nothing more. */
  lemma UpdateProfileIsPartial(db: Db, userId: string, data: Record, c: Completion, k: string)
    requires k !in data
    ensures var after := Apply(db, UpdateProfile(userId, data, c).0);
      (k in At(after, UserPath(userId)) <==> k in At(db, UserPath(userId)))
      && (k in At(db, UserPath(userId)) ==> At(after, UserPath(userId))[k] == At(db, UserPath(userId))[k])
    ensures var w := UpdateProfile(userId, data, c).0; Apply(Apply(db, w), w) == Apply(db, w)
  {
    var w := UpdateProfile(userId, data, c).0;
    ApplyUpdateIdempotent(At(db, UserPath(userId)), data);
    assert Apply(Apply(db, w), w).Keys == Apply(db, w).Keys;
  }

  /** `forgetPassword`. */
  function ForgetPassword(email: string, c: Completion): (r: Reply)
    ensures r.ok <==> c.Succeeded?
    ensures c.Succeeded? ==> r.message == "Reset email sent to " + email
    ensures c.Failed? ==> r.message == MessageOr(c.message, ResetFallback)
  {
    ReplyOf(c, "Reset email sent to " + email, ResetFallback)
  }

  /** `logout`: `thrown` is the message of the exception sign-out raised, if it raised one. */
  function Logout(thrown: Option<Option<string>>): (r: Reply)
    ensures r.ok <==> thrown.None?
    ensures thrown.None? ==> r.message == "logout successfully"
    ensures thrown.Some? ==> r.message == MessageOr(thrown.value, LogoutFallback)
  {
    match thrown
    case None => Reply(true, "logout successfully")
    case Some(m) => Reply(false, MessageOr(m, LogoutFallback))
  }

  /** What a one-shot read of Users/<id> delivers: a snapshot (does the node
      exist, and what it decodes to), or a cancellation with its message. */
  datatype ReadResult<M> = Snapshot(present: bool, decoded: Option<M>) | Cancelled(message: string)

  /** The snapshot of a user's node. */
  function Read<M>(users: Users<M>, userId: string): ReadResult<M> {
    if userId in users then Snapshot(true, users[userId]) else Snapshot(false, None)
  }

  datatype UserReply<M> = UserReply(user: Option<M>, ok: bool, message: string)

  /** `getUserById`: a missing or malformed record is a soft failure, not an error. */
  function GetUserById<M>(r: ReadResult<M>): (u: UserReply<M>)
    ensures u.ok <==> u.user.Some?
    ensures u.ok <==> r.Snapshot? && r.present && r.decoded.Some?
    ensures u.ok ==> u.user == r.decoded && u.message == "Data fetched successfully"
    ensures r.Snapshot? && r.present && r.decoded.None? ==> u.message == "User data is null or malformed"
    ensures r.Snapshot? && !r.present ==> u.message == "User does not exist"
    ensures r.Cancelled? ==> u.message == r.message
  {
    match r
    case Snapshot(present, decoded) =>
      if present then
        if decoded.Some? then UserReply(decoded, true, "Data fetched successfully")
        else UserReply(None, false, "User data is null or malformed")
      else UserReply(None, false, "User does not exist")
    case Cancelled(m) => UserReply(None, false, m)
  }

  /** A user written by `addUserToDatabase` is read back unchanged by `getUserById`. */
  lemma AddThenGet<M>(users: Users<M>, userId: string, model: M, c: Completion)
    ensures var w := AddUserToDatabase(userId, model, c).0;
      GetUserById(Read(ApplySetUser(users, w), userId)) == UserReply(Some(model), true, "Data fetched successfully")
  {
  }

  /** Writing one user's record leaves every other user's read unchanged. */
  lemma AddLeavesOthers<M>(users: Users<M>, userId: string, other: string, model: M, c: Completion)
    requires other != userId
    ensures var w := AddUserToDatabase(userId, model, c).0;
      GetUserById(Read(ApplySetUser(users, w), other)) == GetUserById(Read(users, other))
  {
  }
}
