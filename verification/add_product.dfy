/** The add-product screen (AddProductActivity.kt): a price field that only
    takes digits and dots, the submit checks in their order, the enable
    predicate of the submit button, and the image upload followed by the
    product write. */
module AddProduct {
  import opened Common
  import opened Text
  import opened Price

  /** `ProductModel` as the screen builds it. */
  datatype Product = Product(productId: string, productName: string, price: real, description: string, image: string)

  /** The form: three text fields and the picked image, if any. */
  datatype Form = Form(name: string, price: string, description: string, image: Option<string>)

  function InitialForm(): Form {
    Form("", "", "", None)
  }

  /** A proposed new text for the price field is taken only when every
      character is a digit or a dot; any number of dots is allowed. */
  function EditPrice(current: string, proposed: string): (r: string)
    ensures AllPriceChars(proposed) ==> r == proposed
    ensures !AllPriceChars(proposed) ==> r == current
  {
    if forall i :: 0 <= i < |proposed| ==> IsDigit(proposed[i]) || proposed[i] == '.' then proposed else current
  }

  /** A run of proposed texts, each applied to the field in turn. */
  function EditPriceAll(current: string, proposals: seq<string>): string
    decreases |proposals|
  {
    if |proposals| == 0 then current else EditPriceAll(EditPrice(current, proposals[0]), proposals[1..])
  }

  /** Whatever is typed, the field holds only digits and dots. */
  lemma {:induction false} PriceFieldStaysNumeric(current: string, proposals: seq<string>)
    requires AllPriceChars(current)
    ensures AllPriceChars(EditPriceAll(current, proposals))
    decreases |proposals|
  {
    if |proposals| > 0 {
      PriceFieldStaysNumeric(EditPrice(current, proposals[0]), proposals[1..]);
    }
  }

  /** The filter lets through a text that does not parse as a price. */
  lemma SeveralDotsPassTheFilter()
    ensures EditPrice("", "1.2.3") == "1.2.3"
    ensures ParseDecimal("1.2.3").None?
  {
    assert "1.2.3"[1] == '.' && "1.2.3"[3] == '.';
    CountSplit("1.2.3", 1, '.');
    CountSplit("1.2.3"[2..], 1, '.');
  }

  /** The submit button's `enabled`: name, description and price are not blank
      and the price parses. The image and the price's sign play no part. */
  predicate Enabled(f: Form) {
    !IsBlank(f.name) && !IsBlank(f.description) && !IsBlank(f.price) && ParseDecimal(f.price).Some?
  }

  /** The submit checks in order: the image, then the blank fields, then the price. */
  function Validate(f: Form): (v: Verdict)
    ensures f.image.None? ==> v == Error("Please select an image first")
    ensures f.image.Some? && (IsBlank(f.name) || IsBlank(f.description) || IsBlank(f.price))
      ==> v == Error("Please fill all fields")
    ensures v == Error("Please enter a valid price")
      <==> f.image.Some? && !IsBlank(f.name) && !IsBlank(f.description) && !IsBlank(f.price)
           && (ParseDecimal(f.price).None? || ParseDecimal(f.price).value <= 0.0)
    ensures v == Ok
      <==> f.image.Some? && !IsBlank(f.name) && !IsBlank(f.description) && !IsBlank(f.price)
           && ParseDecimal(f.price).Some? && ParseDecimal(f.price).value > 0.0
  {
    var price := ParseDecimal(f.price);
    if f.image.None? then Error("Please select an image first")
    else if IsBlank(f.name) || IsBlank(f.description) || IsBlank(f.price) then Error("Please fill all fields")
    else if price.None? || price.value <= 0.0 then Error("Please enter a valid price")
    else Ok
  }

  /** For a field that went through the filter, the checks pass exactly when an
      image is picked, name and description are not blank, and the price has at
      most one dot and a non-zero digit. */
  lemma ValidateCharacterised(f: Form)
    requires AllPriceChars(f.price)
    ensures Validate(f) == Ok
      <==> f.image.Some? && !IsBlank(f.name) && !IsBlank(f.description)
           && Count(f.price, '.') <= 1 && HasNonZeroDigit(f.price)
  {
    if |f.price| > 0 {
      PriceTextNotBlank(f.price);
    }
    if HasNonZeroDigit(f.price) {
      assert HasDigit(f.price);
    }
  }

  /** A passing form enables its button; an enabled button can still fail the
      checks, for a missing image or a zero price. */
  lemma EnabledIsWeakerThanValid(f: Form)
    ensures Validate(f) == Ok ==> Enabled(f)
    ensures Enabled(Form("Tea", "0", "Leaf", Some("img"))) && Validate(Form("Tea", "0", "Leaf", Some("img"))).Error?
    ensures Enabled(Form("Tea", "5", "Leaf", None)) && Validate(Form("Tea", "5", "Leaf", None)).Error?
  {
    var zero := Form("Tea", "0", "Leaf", Some("img"));
    assert IsDigit(zero.price[0]);
    assert !HasNonZeroDigit(zero.price);
    assert !IsWhitespace(zero.name[0]) && !IsWhitespace(zero.description[0]);
    var noImage := Form("Tea", "5", "Leaf", None);
    assert IsDigit(noImage.price[0]);
    assert ParseDecimal(noImage.price).Some?;
  }

  /** The remote calls the screen makes. */
  datatype Call = Upload(image: string, price: real) | AddProductCall(product: Product)

  /** A press of the submit button. The button ignores presses while disabled;
      a failed check shows its message and calls nothing; otherwise the image
      upload starts, carrying the price parsed at this moment. */
  function Submit(f: Form): (r: Step<Form, Call>)
    ensures r.state == f && r.nav == Stay
    ensures !Enabled(f) ==> r == Quiet(f)
    ensures Enabled(f) && Validate(f).Error? ==> r.toast == Some(Validate(f).message) && r.call == None
    ensures r.call.Some? <==> Enabled(f) && Validate(f) == Ok
    ensures r.call.Some? ==>
      r.call.value.Upload? && f.image == Some(r.call.value.image)
      && ParseDecimal(f.price) == Some(r.call.value.price) && r.call.value.price > 0.0
  {
    if !Enabled(f) then Quiet(f)
    else match Validate(f)
      case Error(m) => Step(f, Some(m), None, Stay)
      case Ok => Step(f, None, Some(Upload(f.image.value, ParseDecimal(f.price).value)), Stay)
  }

  /** The upload's callback: no URL gives a toast and no write; a URL makes the
      product from the name and description as they are now, the price parsed
      at the press, an empty id and the URL. */
  function OnUploaded(f: Form, price: real, url: Option<string>): (r: Step<Form, Call>)
    ensures r.state == f && r.nav == Stay
    ensures url.None? ==> r.call == None && r.toast == Some("Image upload failed. Try again.")
    ensures url.Some? ==>
      r.toast == None
      && r.call == Some(AddProductCall(Product("", f.name, price, f.description, url.value)))
  {
    match url
    case None => Step(f, Some("Image upload failed. Try again."), None, Stay)
    case Some(u) => Step(f, None, Some(AddProductCall(Product("", f.name, price, f.description, u))), Stay)
  }

  /** The write's callback: its message is shown, and only success returns to
      the dashboard, closing this screen. */
  function OnAdded(f: Form, ok: bool, message: string): (r: Step<Form, Call>)
    ensures r.state == f && r.call == None && r.toast == Some(message)
    ensures ok ==> r.nav == Start(DashboardScreen(None), true)
    ensures !ok ==> r.nav == Stay
  {
    Step(f, Some(message), None, if ok then Start(DashboardScreen(None), true) else Stay)
  }

  /** The back arrow returns to the dashboard, closing this screen. */
  function Back(f: Form): (r: Step<Form, Call>)
    ensures r.call == None && r.toast == None && r.nav == Start(DashboardScreen(None), true)
  {
    Step(f, None, None, Start(DashboardScreen(None), true))
  }

  /** A product the screen can write. */
  predicate ValidProduct(p: Product) {
    p.productId == "" && !IsBlank(p.productName) && !IsBlank(p.description) && p.price > 0.0
  }

  /** When the fields are untouched between the press and the upload's return,
      the product written is valid and carries the form's own values. */
  lemma SubmittedProductIsValid(f: Form, url: string)
    requires Submit(f).call.Some?
    ensures var up := Submit(f).call.value;
      var add := OnUploaded(f, up.price, Some(url)).call.value;
      add.AddProductCall? && ValidProduct(add.product)
      && add.product.productName == f.name && add.product.description == f.description
      && add.product.image == url && Some(add.product.price) == ParseDecimal(f.price)
  {
  }
}
