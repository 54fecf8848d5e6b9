/** Vocabulary shared by every screen and repository of the storefront:
    optional values, validation verdicts, navigation, and one UI step. */
module Common {

  /** A Kotlin nullable value. */
  datatype Option<+T> = None | Some(value: T) {
    function GetOr(default: T): T {
      match this
      case Some(v) => v
      case None => default
    }
  }

  /** The outcome of a form validator: the first failing check's message, or Ok. */
  datatype Verdict = Ok | Error(message: string)

  /** The screens an action can open. `DashboardScreen` carries the optional
      "email" intent extra; `ProductDetailScreen` carries the four tea extras;
      `ProfileHome` is the profile overview inside the profile activity. */
  datatype Destination =
    | LoginScreen
    | RegistrationScreen
    | ForgetPasswordScreen
    | DashboardScreen(emailExtra: Option<string>)
    | ProductDetailScreen(teaName: string, teaDescription: string, teaImage: string, teaPrice: real)
    | SearchScreen
    | FavouriteScreen
    | ProfileScreen
    | AddProductScreen
    | ProfileHome

  /** What an action does to the activity stack. */
  datatype Nav = Stay | Finish | Start(target: Destination, finishCurrent: bool)

  /** The result of one UI action: the new screen state, at most one toast,
      at most one remote call started, and the navigation performed. */
  datatype Step<S, C> = Step(state: S, toast: Option<string>, call: Option<C>, nav: Nav)

  /** A step that changes nothing and shows nothing. */
  function Quiet<S, C>(s: S): (r: Step<S, C>)
    ensures r.state == s && r.toast == None && r.call == None && r.nav == Stay
  {
    Step(s, None, None, Stay)
  }

  /** Kotlin's rendering of a nullable string inside a string template:
      a null message is printed as "null". */
  function Shown(m: Option<string>): (r: string)
    ensures m.Some? ==> r == m.value
    ensures m.None? ==> r == "null"
  {
    match m
    case Some(s) => s
    case None => "null"
  }

  /** Kotlin's `message ?: fallback`. */
  function MessageOr(m: Option<string>, fallback: string): (r: string)
    ensures m.Some? ==> r == m.value
    ensures m.None? ==> r == fallback
  {
    m.GetOr(fallback)
  }
}
