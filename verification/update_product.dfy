/** The update-product screen (UpdateProductActivity.kt): a price field that
    takes digits and at most one dot, the form filled from the loaded product,
    the submit checks, the partial-update map and the loading flag. */
module UpdateProduct {
  import opened Common
  import opened Text
  import opened Price
  import opened Store

  /** The form, the loading flag, and the "productId" extra the screen was
      opened with (None when absent). */
  datatype Form = Form(productId: Option<string>, name: string, price: string, description: string, loading: bool)

  function InitialForm(productId: Option<string>): Form {
    Form(productId, "", "", "", false)
  }

  /** The fields of a loaded product, None where the product has no value.
      The price is the text of the stored number. */
  datatype Loaded = Loaded(productName: Option<string>, productDesc: Option<string>, priceText: Option<string>)

  /** Filling the form from a loaded product: absent values become "". */
  function Populate(f: Form, p: Loaded): (r: Form)
    ensures r.productId == f.productId && r.loading == f.loading
    ensures r.name == p.productName.GetOr("") && r.description == p.productDesc.GetOr("")
    ensures r.price == p.priceText.GetOr("")
  {
    f.(name := p.productName.GetOr(""), description := p.productDesc.GetOr(""), price := p.priceText.GetOr(""))
  }

  /** The field filter: every character a digit or a dot, and at most one dot. */
  function EditPrice(current: string, proposed: string): (r: string)
    ensures AllPriceChars(proposed) && Count(proposed, '.') <= 1 ==> r == proposed
    ensures !(AllPriceChars(proposed) && Count(proposed, '.') <= 1) ==> r == current
  {
    if AllPriceChars(proposed) && Count(proposed, '.') <= 1 then proposed else current
  }

  /** A run of proposed texts, each applied to the field in turn. */
  function EditPriceAll(current: string, proposals: seq<string>): string
    decreases |proposals|
  {
    if |proposals| == 0 then current else EditPriceAll(EditPrice(current, proposals[0]), proposals[1..])
  }

  /** A field that started filtered stays filtered: digits and at most one dot,
      so it parses unless it is "" or ".". */
  lemma {:induction false} PriceFieldStaysDecimal(current: string, proposals: seq<string>)
    requires AllPriceChars(current) && Count(current, '.') <= 1
    ensures var r := EditPriceAll(current, proposals);
      AllPriceChars(r) && Count(r, '.') <= 1 && (ParseDecimal(r).None? <==> r == "" || r == ".")
    decreases |proposals|
  {
    if |proposals| > 0 {
      PriceFieldStaysDecimal(EditPrice(current, proposals[0]), proposals[1..]);
    } else {
      SingleDotParses(current);
    }
  }

  /** The submit checks in order: blank fields, then the price. */
  function Validate(f: Form): (v: Verdict)
    ensures IsBlank(f.name) || IsBlank(f.description) || IsBlank(f.price) ==> v == Error("Please fill all fields")
    ensures v == Error("Please enter a valid price")
      <==> !IsBlank(f.name) && !IsBlank(f.description) && !IsBlank(f.price)
           && (ParseDecimal(f.price).None? || ParseDecimal(f.price).value <= 0.0)
    ensures v == Ok
      <==> !IsBlank(f.name) && !IsBlank(f.description) && !IsBlank(f.price)
           && ParseDecimal(f.price).Some? && ParseDecimal(f.price).value > 0.0
  {
    var price := ParseDecimal(f.price);
    if IsBlank(f.name) || IsBlank(f.description) || IsBlank(f.price) then Error("Please fill all fields")
    else if price.None? || price.value <= 0.0 then Error("Please enter a valid price")
    else Ok
  }

  /** The button's `enabled`: not loading, nothing blank, and the price parses. */
  predicate Enabled(f: Form) {
    !f.loading && !IsBlank(f.name) && !IsBlank(f.description) && !IsBlank(f.price) && ParseDecimal(f.price).Some?
  }

  /** For a filtered field the checks pass exactly when name and description
      are not blank and the price has a non-zero digit. */
  lemma ValidateCharacterised(f: Form)
    requires AllPriceChars(f.price) && Count(f.price, '.') <= 1
    ensures Validate(f) == Ok <==> !IsBlank(f.name) && !IsBlank(f.description) && HasNonZeroDigit(f.price)
  {
    if |f.price| > 0 {
      PriceTextNotBlank(f.price);
    }
    if HasNonZeroDigit(f.price) {
      assert HasDigit(f.price);
    }
  }

  /** The update request: the id as text ("null" when absent) and the map of values. */
  datatype Call = UpdateCall(productId: string, data: Record)

  /** The id as `productId.toString()` renders it. */
  function IdText(id: Option<string>): string {
    Shown(id)
  }

  /** The map sent with the update: exactly four keys, and a null id when the
      screen was opened without one. */
  function UpdateData(f: Form, price: real): (d: Record)
    ensures d.Keys == {"productDesc", "productPrice", "productName", "productId"}
    ensures d["productName"] == VStr(f.name) && d["productDesc"] == VStr(f.description)
    ensures d["productPrice"] == VNum(price)
    ensures d["productId"] == if f.productId.Some? then VStr(f.productId.value) else VNull
  {
    map["productDesc" := VStr(f.description), "productPrice" := VNum(price), "productName" := VStr(f.name),
        "productId" := if f.productId.Some? then VStr(f.productId.value) else VNull]
  }

  /** The "Update Product" button. It is disabled while loading or while the
      form cannot be sent; a failed check shows its message; a passing form
      sets the loading flag and sends the update. */
  function Submit(f: Form): (r: Step<Form, Call>)
    ensures r.nav == Stay
    ensures !Enabled(f) ==> r == Quiet(f)
    ensures Enabled(f) && Validate(f).Error? ==> r.state == f && r.toast == Some(Validate(f).message) && r.call == None
    ensures r.call.Some? <==> Enabled(f) && Validate(f) == Ok
    ensures r.call.Some? ==>
      r.state == f.(loading := true) && r.toast == None
      && r.call.value == UpdateCall(IdText(f.productId), UpdateData(f, ParseDecimal(f.price).value))
  {
    if !Enabled(f) then Quiet(f)
    else match Validate(f)
      case Error(m) => Step(f, Some(m), None, Stay)
      case Ok => Step(f.(loading := true), None, Some(UpdateCall(IdText(f.productId), UpdateData(f, ParseDecimal(f.price).value))), Stay)
  }

  /** The update's callback: loading ends, the message is shown, and the screen
      closes only on success. */
  function OnUpdated(f: Form, ok: bool, message: string): (r: Step<Form, Call>)
    ensures r.state == f.(loading := false) && r.call == None && r.toast == Some(message)
    ensures r.nav == if ok then Finish else Stay
  {
    Step(f.(loading := false), Some(message), None, if ok then Finish else Stay)
  }

  /** While an update is outstanding the button does nothing, so one press
      sends at most one update; the callback re-enables it. */
  lemma OneUpdateInFlight(f: Form, ok: bool, message: string)
    requires Submit(f).call.Some?
    ensures Submit(Submit(f).state) == Quiet(Submit(f).state)
    ensures Enabled(OnUpdated(Submit(f).state, ok, message).state)
  {
  }

  /** Applied as a partial update to a stored product, the map changes only
      its four keys and sending it twice changes nothing more. */
  lemma UpdateIsPartial(rec: Record, f: Form, price: real, k: string)
    requires k !in UpdateData(f, price)
    ensures var after := ApplyUpdate(rec, UpdateData(f, price));
      (k in after <==> k in rec) && (k in rec ==> after[k] == rec[k])
      && ApplyUpdate(after, UpdateData(f, price)) == after
  {
    ApplyUpdateIdempotent(rec, UpdateData(f, price));
  }
}
