/** The favourite-tea form (FavouriteActivity.kt): tea name and tea type are
    required, the description is not, and saving only shows a toast and
    closes the screen: nothing is stored anywhere. */
module Favourite {
  import opened Common
  import opened Text

  datatype Form = Form(teaName: string, teaType: string, description: string, loading: bool)

  function InitialForm(): Form {
    Form("", "", "", false)
  }

  /** The only check: tea name and tea type must not be blank. */
  function Validate(f: Form): (v: Verdict)
    ensures v == Ok <==> !IsBlank(f.teaName) && !IsBlank(f.teaType)
    ensures v != Ok ==> v == Error("Please fill in all required fields")
  {
    if IsBlank(f.teaName) || IsBlank(f.teaType) then Error("Please fill in all required fields") else Ok
  }

  /** The save button: disabled while loading; a failed check shows its message
      and stays; otherwise the confirmation is shown, the flag (set and cleared
      in the same handler) ends false, and the screen closes. No call is made. */
  function Submit(f: Form): (r: Step<Form, ()>)
    ensures r.call == None
    ensures f.loading ==> r == Quiet(f)
    ensures !f.loading && Validate(f).Error? ==> r == Step(f, Some("Please fill in all required fields"), None, Stay)
    ensures !f.loading && Validate(f) == Ok ==>
      r.state == f && r.toast == Some("Favourite tea saved: " + f.teaName) && r.nav == Finish
  {
    if f.loading then Quiet(f)
    else match Validate(f)
      case Error(m) => Step(f, Some(m), None, Stay)
      case Ok => Step(f.(loading := true).(loading := false), Some("Favourite tea saved: " + f.teaName), None, Finish)
  }

  /** The description never affects the outcome of a save. */
  lemma DescriptionNotRequired(f: Form, d: string)
    ensures Submit(f.(description := d)).toast == Submit(f).toast
    ensures Submit(f.(description := d)).nav == Submit(f).nav
  {
  }
}
