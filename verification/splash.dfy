/** The splash screen (SplashActivity.kt): after its animation delays it
    shows a "Get Started" button that routes on the email stored in the
    "User" preferences file. The delays themselves are not modelled; the
    flag they eventually set is an input. */
module Splash {
  import opened Common
  import Login

  /** The stored email, "" when absent. */
  function StoredEmail(prefs: Login.Prefs): (e: string)
    ensures Login.EmailKey !in prefs ==> e == ""
    ensures Login.EmailKey in prefs ==> e == prefs[Login.EmailKey]
  {
    Login.Stored(prefs, Login.EmailKey)
  }

  /** `handleGetStarted`: no stored email goes to login, any other to the
      dashboard (without an email extra); either way the splash closes. */
  function Route(prefs: Login.Prefs): (n: Nav)
    ensures StoredEmail(prefs) == "" ==> n == Start(LoginScreen, true)
    ensures StoredEmail(prefs) != "" ==> n == Start(DashboardScreen(None), true)
  {
    if StoredEmail(prefs) == "" then Start(LoginScreen, true) else Start(DashboardScreen(None), true)
  }

  /** A press of "Get Started": the button exists only once the animation has
      set `showGetStarted`. */
  function Press(showGetStarted: bool, prefs: Login.Prefs): (n: Nav)
    ensures !showGetStarted ==> n == Stay
    ensures showGetStarted ==> n == Route(prefs)
  {
    if showGetStarted then Route(prefs) else Stay
  }

  /** Routing reads the stored email and nothing else. */
  lemma RouteReadsOnlyEmail(p: Login.Prefs, q: Login.Prefs)
    requires StoredEmail(p) == StoredEmail(q)
    ensures Route(p) == Route(q)
  {
  }

  /** After a successful sign-in the splash routes to the dashboard exactly
      when "remember me" was ticked with a non-empty email. */
  lemma RouteAfterSignIn(s: Login.Screen, message: string)
    ensures Route(Login.OnResult(s, true, message).state.prefs) == Start(DashboardScreen(None), true)
      <==> s.form.rememberMe && s.form.email != ""
  {
  }
}
