/** The authentication gateway (AuthRepositoryImpl.kt): sign-in and sign-up
    against the identity service, with each completed task mapped to the
    `(ok, message[, uid])` tuple handed to the caller's callback. */
module AuthRepository {
  import opened Common

  /** The exception a failed task carries. `errorCode` is present exactly when
      the exception is a FirebaseAuthException (whose code is never null). */
  datatype TaskException = TaskException(message: Option<string>, errorCode: Option<string>)

  /** How an identity-service task completed; a failed task may carry no exception. */
  datatype Completion = Succeeded | Failed(exception: Option<TaskException>)

  datatype LoginReply = LoginReply(ok: bool, message: string)
  datatype RegisterReply = RegisterReply(ok: bool, message: string, uid: string)

  const LoginSuccess := "Login successfully"
  const LoginFallback := "An unknown error occurred during login."
  const RegisterSuccess := "Registered successfully"
  const RegisterFallback := "An unknown error occurred during registration."
  const WeakPassword := "Password is too weak. Please choose a stronger one."
  const InvalidEmail := "The email address is not valid."
  const EmailInUse := "This email address is already registered."

  /** The exception's message, or `fallback` when there is no exception or no message. */
  function ExceptionMessage(e: Option<TaskException>, fallback: string): string {
    match e
    case Some(x) => MessageOr(x.message, fallback)
    case None => fallback
  }

  /** The callback value of `login` for one completed sign-in task. */
  function Login(c: Completion): (r: LoginReply)
    ensures r.ok <==> c.Succeeded?
    ensures c.Succeeded? ==> r.message == LoginSuccess
    ensures c.Failed? && c.exception.Some? && c.exception.value.message.Some?
      ==> r.message == c.exception.value.message.value
    ensures c.Failed? && (c.exception.None? || c.exception.value.message.None?)
      ==> r.message == LoginFallback
  {
    match c
    case Succeeded => LoginReply(true, LoginSuccess)
    case Failed(e) => LoginReply(false, ExceptionMessage(e, LoginFallback))
  }

  /** The three identity-service error codes that get a message of their own. */
  predicate IsKnownCode(code: string) {
    code == "ERROR_WEAK_PASSWORD" || code == "ERROR_INVALID_EMAIL" || code == "ERROR_EMAIL_ALREADY_IN_USE"
  }

  /** The fixed message table for sign-up failures; other codes keep `raw`. */
  function CodeMessage(code: string, raw: string): (m: string)
    ensures code == "ERROR_WEAK_PASSWORD" ==> m == WeakPassword
    ensures code == "ERROR_INVALID_EMAIL" ==> m == InvalidEmail
    ensures code == "ERROR_EMAIL_ALREADY_IN_USE" ==> m == EmailInUse
    ensures !IsKnownCode(code) ==> m == raw
  {
    match code
    case "ERROR_WEAK_PASSWORD" => WeakPassword
    case "ERROR_INVALID_EMAIL" => InvalidEmail
    case "ERROR_EMAIL_ALREADY_IN_USE" => EmailInUse
    case _ => raw
  }

  /** The callback value of `register` for one completed sign-up task.
      `currentUid` is the identity service's current user id after the task. */
  function Register(c: Completion, currentUid: Option<string>): (r: RegisterReply)
    ensures r.ok <==> c.Succeeded?
    ensures c.Succeeded? ==> r.message == RegisterSuccess && r.uid == currentUid.GetOr("")
    ensures c.Failed? ==> r.uid == ""
    ensures c.Failed? && c.exception.Some? && c.exception.value.errorCode.Some?
      ==> r.message == CodeMessage(c.exception.value.errorCode.value, ExceptionMessage(c.exception, RegisterFallback))
    ensures c.Failed? && (c.exception.None? || c.exception.value.errorCode.None?)
      ==> r.message == ExceptionMessage(c.exception, RegisterFallback)
  {
    match c
    case Succeeded => RegisterReply(true, RegisterSuccess, currentUid.GetOr(""))
    case Failed(e) =>
      var raw := ExceptionMessage(e, RegisterFallback);
      if e.Some? && e.value.errorCode.Some? then RegisterReply(false, CodeMessage(e.value.errorCode.value, raw), "")
      else RegisterReply(false, raw, "")
  }

  /** For the three known codes the user sees a fixed text, whatever the
      exception's own message and whoever the current user is. */
  lemma KnownCodeHidesRawMessage(code: string, m1: Option<string>, m2: Option<string>, u1: Option<string>, u2: Option<string>)
    requires IsKnownCode(code)
    ensures Register(Failed(Some(TaskException(m1, Some(code)))), u1)
         == Register(Failed(Some(TaskException(m2, Some(code)))), u2)
    ensures Register(Failed(Some(TaskException(m1, Some(code)))), u1).message
         in {WeakPassword, InvalidEmail, EmailInUse}
  {
  }

  /** The fixed table tells the three known failures apart. */
  lemma KnownCodesDistinct(a: string, b: string, raw: string)
    requires IsKnownCode(a) && IsKnownCode(b) && a != b
    ensures CodeMessage(a, raw) != CodeMessage(b, raw)
  {
  }

  /** Sign-in and sign-up agree on success, and a failure reports the same
      text through both unless sign-up has a fixed message for its code. */
  lemma LoginRegisterAgree(c: Completion, uid: Option<string>)
    ensures Login(c).ok == Register(c, uid).ok
    ensures c.Failed? && c.exception.Some? && c.exception.value.message.Some?
      && (c.exception.value.errorCode.None? || !IsKnownCode(c.exception.value.errorCode.value))
      ==> Login(c).message == Register(c, uid).message
  {
  }
}
