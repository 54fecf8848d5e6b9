/** The registration screen (RegistratinActivity.kt): four text fields, a
    country dropdown that starts on a sentinel, the submit checks in their
    order, and a loading flag that disables every control. The sign-up call
    itself is commented out in the source, so a passing submit only sets the
    flag, and nothing ever clears it. */
module Registration {
  import opened Common
  import opened Text

  const Sentinel := "Select Country"

  /** The dropdown's entries. */
  function Options(): seq<string> {
    ["Nepal", "India", "China"]
  }

  datatype Form = Form(firstName: string, lastName: string, email: string, password: string,
                       country: string, expanded: bool, loading: bool)

  function InitialForm(): Form {
    Form("", "", "", "", Sentinel, false, false)
  }

  datatype Field = FirstName | LastName | EmailField | PasswordField

  /** What the user can do on the screen. */
  datatype Event =
    | Type(field: Field, text: string)
    | OpenMenu
    | DismissMenu
    | ChooseOption(option: string)
    | RegisterPress
    | SignInLink

  /** The dropdown is drawn only when expanded and not loading. */
  predicate MenuShown(f: Form) {
    f.expanded && !f.loading
  }

  /** The submit checks in order: email and password, then the names, then the country. */
  function Validate(f: Form): (v: Verdict)
    ensures IsBlank(f.email) || IsBlank(f.password) ==> v == Error("Email and Password must not be empty")
    ensures !IsBlank(f.email) && !IsBlank(f.password) && (IsBlank(f.firstName) || IsBlank(f.lastName))
      ==> v == Error("First Name and Last Name must not be empty")
    ensures v == Error("Please select a country")
      <==> !IsBlank(f.email) && !IsBlank(f.password) && !IsBlank(f.firstName) && !IsBlank(f.lastName)
           && f.country == Sentinel
    ensures v == Ok
      <==> !IsBlank(f.email) && !IsBlank(f.password) && !IsBlank(f.firstName) && !IsBlank(f.lastName)
           && f.country != Sentinel
  {
    if IsBlank(f.email) || IsBlank(f.password) then Error("Email and Password must not be empty")
    else if IsBlank(f.firstName) || IsBlank(f.lastName) then Error("First Name and Last Name must not be empty")
    else if f.country == Sentinel then Error("Please select a country")
    else Ok
  }

  /** One event. Every control is disabled while loading. The dropdown's
      entries exist only while it is shown. The register button makes no
      remote call: it shows a failed check's message or sets the flag. */
  function Handle(f: Form, e: Event): (r: Step<Form, ()>)
    ensures r.call == None
    ensures f.loading ==> r == Quiet(f)
    ensures e.ChooseOption? && MenuShown(f)
      ==> r.state == f.(country := e.option, expanded := false)
    ensures e.RegisterPress? && !f.loading && Validate(f).Error?
      ==> r.state == f && r.toast == Some(Validate(f).message)
    ensures e.RegisterPress? && !f.loading && Validate(f) == Ok
      ==> r.state == f.(loading := true) && r.toast == None && r.nav == Stay
    ensures r.nav != Stay <==> e.SignInLink? && !f.loading
    ensures r.nav != Stay ==> r.nav == Start(LoginScreen, true)
  {
    if f.loading then Quiet(f)
    else match e
      case Type(FirstName, t) => Quiet(f.(firstName := t))
      case Type(LastName, t) => Quiet(f.(lastName := t))
      case Type(EmailField, t) => Quiet(f.(email := t))
      case Type(PasswordField, t) => Quiet(f.(password := t))
      case OpenMenu => Quiet(f.(expanded := true))
      case DismissMenu => if MenuShown(f) then Quiet(f.(expanded := false)) else Quiet(f)
      case ChooseOption(o) => if MenuShown(f) then Quiet(f.(country := o, expanded := false)) else Quiet(f)
      case RegisterPress =>
        (match Validate(f)
         case Error(m) => Step(f, Some(m), None, Stay)
         case Ok => Quiet(f.(loading := true)))
      case SignInLink => Step(f, None, None, Start(LoginScreen, true))
  }

  /** The form after a run of events. */
  function Run(f: Form, events: seq<Event>): Form
    decreases |events|
  {
    if |events| == 0 then f else Run(Handle(f, events[0]).state, events[1..])
  }

  /** Choosing a listed country from the open menu selects it, closes the
      menu, and clears the country check. */
  lemma ChoosingACountryClearsTheCheck(f: Form, i: nat)
    requires MenuShown(f) && i < |Options()|
    ensures var g := Handle(f, ChooseOption(Options()[i])).state;
      g.country == Options()[i] && !g.expanded && Validate(g) != Error("Please select a country")
  {
  }

  /** Once the flag is set, no sequence of events changes anything: the
      screen is stuck in its loading state. */
  lemma {:induction false} LoadingIsPermanent(f: Form, events: seq<Event>)
    requires f.loading
    ensures Run(f, events) == f
    decreases |events|
  {
    if |events| > 0 {
      LoadingIsPermanent(Handle(f, events[0]).state, events[1..]);
    }
  }

  /** A passing submit ends in the stuck state, with no account created. */
  lemma PassingSubmitSticks(f: Form, events: seq<Event>)
    requires !f.loading && Validate(f) == Ok
    ensures Run(f, [RegisterPress] + events) == f.(loading := true)
    ensures Handle(f, RegisterPress).call == None
  {
    assert ([RegisterPress] + events)[1..] == events;
    LoadingIsPermanent(f.(loading := true), events);
  }
}
