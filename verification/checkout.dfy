/** The checkout screen (CheckoutActivity.kt): the product read from the
    intent extras, the delivery address check, the payment option (which
    can only ever be cash on delivery), and the order record written to the
    database under the fixed user id. The push key and the timestamp are
    inputs: they come from the database client and the clock. */
module Checkout {
  import opened Common
  import opened Text
  import opened Store

  const CashOnDelivery := "Cash on Delivery"
  const UserId := "user_123"

  /** The extras the screen is opened with; None where an extra is absent. */
  datatype Extras = Extras(productName: Option<string>, productPrice: Option<real>, productImageRes: Option<int>)

  datatype Product = Product(name: string, price: real, imageRes: int)

  /** The product read from the extras, with their defaults. */
  function ReadExtras(e: Extras): (p: Product)
    ensures e.productName.None? ==> p.name == "Selected Product"
    ensures e.productName.Some? ==> p.name == e.productName.value
    ensures p.price == if e.productPrice.Some? then e.productPrice.value else 0.0
    ensures p.imageRes == if e.productImageRes.Some? then e.productImageRes.value else 0
  {
    Product(e.productName.GetOr("Selected Product"), e.productPrice.GetOr(0.0), e.productImageRes.GetOr(0))
  }

  datatype Form = Form(address: string, payment: string)

  function InitialForm(): Form {
    Form("", CashOnDelivery)
  }

  /** Editing the address, or a click on the only payment row or its radio button. */
  datatype Event = TypeAddress(text: string) | PickCashOnDelivery

  function Handle(f: Form, e: Event): (r: Form)
    ensures e.TypeAddress? ==> r == f.(address := e.text)
    ensures e.PickCashOnDelivery? ==> r == f.(payment := CashOnDelivery)
  {
    match e
    case TypeAddress(t) => f.(address := t)
    case PickCashOnDelivery => f.(payment := CashOnDelivery)
  }

  function Run(f: Form, events: seq<Event>): Form
    decreases |events|
  {
    if |events| == 0 then f else Run(Handle(f, events[0]), events[1..])
  }

  /** The payment option starts as cash on delivery and no event changes it. */
  lemma {:induction false} PaymentIsAlwaysCash(events: seq<Event>)
    ensures Run(InitialForm(), events).payment == CashOnDelivery
  {
    RunKeepsCash(InitialForm(), events);
  }

  lemma {:induction false} RunKeepsCash(f: Form, events: seq<Event>)
    requires f.payment == CashOnDelivery
    ensures Run(f, events).payment == CashOnDelivery
    decreases |events|
  {
    if |events| > 0 {
      RunKeepsCash(Handle(f, events[0]), events[1..]);
    }
  }

  /** Where an order is stored: orders/user_123/<orderId>. */
  function OrderPath(orderId: string): Path {
    ["orders", UserId, orderId]
  }

  /** The order record: the seven values, with the push key as its id. */
  function OrderRecord(p: Product, address: string, payment: string, orderId: string, timestamp: string): (rec: Record)
    ensures rec.Keys == {"orderId", "productName", "productPrice", "productImageRes", "deliveryAddress", "paymentMethod", "timestamp"}
    ensures rec["orderId"] == VStr(orderId)
    ensures rec["productName"] == VStr(p.name) && rec["productPrice"] == VNum(p.price) && rec["productImageRes"] == VInt(p.imageRes)
    ensures rec["deliveryAddress"] == VStr(address) && rec["paymentMethod"] == VStr(payment)
    ensures rec["timestamp"] == VStr(timestamp)
  {
    map["orderId" := VStr(orderId), "productName" := VStr(p.name), "productPrice" := VNum(p.price),
        "productImageRes" := VInt(p.imageRes), "deliveryAddress" := VStr(address),
        "paymentMethod" := VStr(payment), "timestamp" := VStr(timestamp)]
  }

  /** "Confirm Purchase". A blank address shows a toast and writes nothing.
      Otherwise a push key is requested under "orders": without one the save
      returns silently (no write and no callback); with one the record is
      written at orders/user_123/<key>. */
  function Confirm(p: Product, f: Form, pushKey: Option<string>, timestamp: string): (r: Step<Form, Write>)
    ensures r.state == f && r.nav == Stay
    ensures IsBlank(f.address) ==> r.toast == Some("Please enter your delivery address.") && r.call == None
    ensures !IsBlank(f.address) ==> r.toast == None
    ensures r.call.Some? <==> !IsBlank(f.address) && pushKey.Some?
    ensures r.call.Some? ==>
      r.call.value == SetRecord(OrderPath(pushKey.value), OrderRecord(p, f.address, f.payment, pushKey.value, timestamp))
  {
    if IsBlank(f.address) then Step(f, Some("Please enter your delivery address."), None, Stay)
    else match pushKey
      case None => Quiet(f)
      case Some(k) => Step(f, None, Some(SetRecord(OrderPath(k), OrderRecord(p, f.address, f.payment, k, timestamp))), Stay)
  }

  /** How the order write completed; a failure carries the exception's message. */
  datatype SaveResult = Saved | SaveFailed(message: Option<string>)

  /** The write's callback: a success toast and a return to the dashboard that
      closes this screen, or the failure text and staying here. */
  function OnSaved(f: Form, o: SaveResult): (r: Step<Form, Write>)
    ensures r.state == f && r.call == None
    ensures o.Saved? ==> r.toast == Some("Order confirmed and saved successfully!") && r.nav == Start(DashboardScreen(None), true)
    ensures o.SaveFailed? ==> r.toast == Some("Failed to save order: " + Shown(o.message)) && r.nav == Stay
  {
    match o
    case Saved => Step(f, Some("Order confirmed and saved successfully!"), None, Start(DashboardScreen(None), true))
    case SaveFailed(m) => Step(f, Some("Failed to save order: " + Shown(m)), None, Stay)
  }

  /** The back arrow closes the screen. */
  function Back(f: Form): (r: Step<Form, Write>)
    ensures r.nav == Finish && r.call == None && r.toast == None
  {
    Step(f, None, None, Finish)
  }

  /** The written order's id is the last segment of its path, the path is
      under the fixed user, and the stored record reads back with the
      confirmed address, the product and cash on delivery. */
  lemma PlacedOrderReadsBack(db: Db, p: Product, events: seq<Event>, key: string, timestamp: string)
    requires !IsBlank(Run(InitialForm(), events).address)
    ensures var f := Run(InitialForm(), events);
      var w := Confirm(p, f, Some(key), timestamp).call.value;
      w.SetRecord? && |w.path| == 3 && w.path[..2] == ["orders", UserId]
      && w.record["orderId"] == VStr(w.path[2])
      && var stored := At(Apply(db, w), w.path);
      stored["deliveryAddress"] == VStr(f.address)
      && stored["paymentMethod"] == VStr(CashOnDelivery)
      && stored["productName"] == VStr(p.name) && stored["productPrice"] == VNum(p.price)
  {
    PaymentIsAlwaysCash(events);
  }
}
