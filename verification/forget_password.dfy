/** The forgotten-password screen (ForgetPasswordActivity.kt): a non-blank
    email starts one reset request through the user store, and its callback
    either returns to login or shows the failure. */
module ForgetPassword {
  import opened Common
  import opened Text
  import UserRepository

  datatype Form = Form(email: string, loading: bool)

  function InitialForm(): Form {
    Form("", false)
  }

  /** The reset request. */
  datatype Call = ResetRequest(email: string)

  /** "Send Reset Link": disabled while loading; a blank email shows a toast
      and requests nothing; otherwise loading starts and exactly one request
      is made for the email as typed. */
  function Submit(f: Form): (r: Step<Form, Call>)
    ensures r.nav == Stay
    ensures f.loading ==> r == Quiet(f)
    ensures !f.loading && IsBlank(f.email) ==> r == Step(f, Some("Please enter your email address"), None, Stay)
    ensures !f.loading && !IsBlank(f.email) ==>
      r.state == f.(loading := true) && r.toast == None && r.call == Some(ResetRequest(f.email))
  {
    if f.loading then Quiet(f)
    else if IsBlank(f.email) then Step(f, Some("Please enter your email address"), None, Stay)
    else Step(f.(loading := true), None, Some(ResetRequest(f.email)), Stay)
  }

  /** The request's callback: loading ends and the message is shown; success
      opens login and closes this screen, failure stays. */
  function OnResult(f: Form, ok: bool, message: string): (r: Step<Form, Call>)
    ensures r.state == f.(loading := false) && r.call == None && r.toast == Some(message)
    ensures ok ==> r.nav == Start(LoginScreen, true)
    ensures !ok ==> r.nav == Stay
  {
    Step(f.(loading := false), Some(message), None, if ok then Start(LoginScreen, true) else Stay)
  }

  /** End to end through the user store: a completed reset shows
      "Reset email sent to <email>" and returns to login; a failed one shows the
      store's message and stays, ready for another try. */
  lemma ResetThroughStore(f: Form, c: UserRepository.Completion)
    requires !f.loading && !IsBlank(f.email)
    ensures var sent := Submit(f);
      var reply := UserRepository.ForgetPassword(sent.call.value.email, c);
      var done := OnResult(sent.state, reply.ok, reply.message);
      (c.Succeeded? ==> done.toast == Some("Reset email sent to " + f.email) && done.nav == Start(LoginScreen, true))
      && (c.Failed? ==> done.nav == Stay && !done.state.loading && Submit(done.state).call.Some?)
  {
  }
}
