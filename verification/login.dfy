/** The login screen (LoginActivity.kt): fields pre-filled from the stored
    credentials, the sign-in button with its loading flag, and the
    "remember me" updates to the "User" preferences file after a successful
    sign-in. The text fields and the checkbox stay editable while a sign-in
    is in flight, and the callback reads them as they are when it runs.
    The screen is modelled as if the `testag` stub its fields call returned
    its receiver; as written that stub throws once the fields are composed. */
module Login {
  import opened Common

  /** The "User" preferences file: a string-to-string store. */
  type Prefs = map<string, string>

  const EmailKey := "email"
  const PasswordKey := "password"

  /** `getString(key, "") ?: ""`. */
  function Stored(prefs: Prefs, key: string): string {
    if key in prefs then prefs[key] else ""
  }

  datatype Form = Form(email: string, password: string, rememberMe: bool, loading: bool)

  /** The screen's state: the form and the preferences file. */
  datatype Screen = Screen(form: Form, prefs: Prefs)

  /** The form when the screen opens: the stored email and password, or "". */
  function Prefill(prefs: Prefs): (f: Form)
    ensures EmailKey !in prefs ==> f.email == ""
    ensures EmailKey in prefs ==> f.email == prefs[EmailKey]
    ensures PasswordKey !in prefs ==> f.password == ""
    ensures PasswordKey in prefs ==> f.password == prefs[PasswordKey]
    ensures !f.rememberMe && !f.loading
  {
    Form(Stored(prefs, EmailKey), Stored(prefs, PasswordKey), false, false)
  }

  /** The sign-in request. */
  datatype Call = SignIn(email: string, password: string)

  /** "Sign In": disabled while loading; otherwise loading starts and the
      sign-in is requested with the fields as they are. */
  function Click(s: Screen): (r: Step<Screen, Call>)
    ensures r.nav == Stay && r.toast == None && r.state.prefs == s.prefs
    ensures s.form.loading ==> r == Quiet(s)
    ensures !s.form.loading ==>
      r.state.form == s.form.(loading := true) && r.call == Some(SignIn(s.form.email, s.form.password))
  {
    if s.form.loading then Quiet(s)
    else Step(s.(form := s.form.(loading := true)), None, Some(SignIn(s.form.email, s.form.password)), Stay)
  }

  /** The preferences after a successful sign-in: both credentials stored
      with "remember me", both removed without it. */
  function Remember(prefs: Prefs, f: Form): (p: Prefs)
    ensures f.rememberMe ==> EmailKey in p && p[EmailKey] == f.email && PasswordKey in p && p[PasswordKey] == f.password
    ensures !f.rememberMe ==> EmailKey !in p && PasswordKey !in p
    ensures forall k :: k != EmailKey && k != PasswordKey ==> (k in p <==> k in prefs)
    ensures forall k :: k != EmailKey && k != PasswordKey && k in prefs ==> p[k] == prefs[k]
  {
    if f.rememberMe then prefs[EmailKey := f.email][PasswordKey := f.password]
    else prefs - {EmailKey, PasswordKey}
  }

  /** The sign-in callback: loading ends and the message is shown. Success
      updates the stored credentials and opens the dashboard with the email,
      closing this screen; failure changes nothing else. */
  function OnResult(s: Screen, ok: bool, message: string): (r: Step<Screen, Call>)
    ensures r.state.form == s.form.(loading := false) && r.call == None && r.toast == Some(message)
    ensures ok ==> r.state.prefs == Remember(s.prefs, s.form) && r.nav == Start(DashboardScreen(Some(s.form.email)), true)
    ensures !ok ==> r.state.prefs == s.prefs && r.nav == Stay
  {
    var f := s.form.(loading := false);
    if ok then Step(Screen(f, Remember(s.prefs, s.form)), Some(message), None, Start(DashboardScreen(Some(s.form.email)), true))
    else Step(Screen(f, s.prefs), Some(message), None, Stay)
  }

  /** A remembered sign-in pre-fills the next login screen with the same
      credentials; a sign-in without "remember me" leaves it empty. */
  lemma RememberRoundTrip(s: Screen, message: string)
    ensures var next := Prefill(OnResult(s, true, message).state.prefs);
      (s.form.rememberMe ==> next.email == s.form.email && next.password == s.form.password)
      && (!s.form.rememberMe ==> next.email == "" && next.password == "")
  {
  }

  /** A failed sign-in leaves the next pre-fill as it was. */
  lemma FailureKeepsPrefill(s: Screen, message: string)
    ensures Prefill(OnResult(s, false, message).state.prefs) == Prefill(s.prefs)
  {
  }

  /** One press yields one request: a second press before the callback does
      nothing, and the callback re-enables the button. */
  lemma OneSignInInFlight(s: Screen, ok: bool, message: string)
    requires !s.form.loading
    ensures Click(Click(s).state) == Quiet(Click(s).state)
    ensures !OnResult(Click(s).state, ok, message).state.form.loading
  {
  }
}
