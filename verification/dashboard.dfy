/** The dashboard (DashboardActivity.kt): the greeting derived from the
    "email" extra, the four featured blends, and the navigation its buttons
    and cards trigger. Drawable resources are named by strings. */
module Dashboard {
  import opened Common
  import opened Text
  import Login

  /** `getStringExtra("email")?.split('@')?.get(0)?.capitalize() ?: "Tea Lover"`. */
  function Greeting(extra: Option<string>): (g: string)
    ensures extra.None? ==> g == "Tea Lover"
    ensures extra.Some? && '@' in extra.value ==> g == Capitalize(extra.value[..IndexOf(extra.value, '@')])
    ensures extra.Some? && '@' !in extra.value ==> g == Capitalize(extra.value)
  {
    match extra
    case None => "Tea Lover"
    case Some(e) => Capitalize(BeforeFirst(e, '@'))
  }

  /** The greeting keeps the text before the first '@' and changes at most
      its first character, to upper case. */
  lemma GreetingChangesOnlyFirstCharacter(e: string)
    requires '@' in e
    ensures var local := e[..IndexOf(e, '@')];
      var g := Greeting(Some(e));
      |g| == |local| && '@' !in g
      && (|local| > 0 ==> g[0] == Upper(e[0]) && g[1..] == local[1..])
  {
    var local := e[..IndexOf(e, '@')];
    assert '@' !in local by { assert local == BeforeFirst(e, '@'); }
    if |local| > 0 {
      assert local[0] == e[0];
      assert Upper(e[0]) != '@' by { assert e[0] != '@'; }
    }
    assert forall i :: 1 <= i < |local| ==> Greeting(Some(e))[i] == local[i];
  }

  /** A successful sign-in opens the dashboard greeting the signed-in email's
      local part. */
  lemma SignInGreets(s: Login.Screen, message: string)
    ensures var n := Login.OnResult(s, true, message).nav;
      n.Start? && n.target.DashboardScreen?
      && Greeting(n.target.emailExtra) == Greeting(Some(s.form.email))
  {
  }

  /** `TeaBlend`. */
  datatype TeaBlend = TeaBlend(name: string, description: string, image: string, price: real)

  const ChamomileText := "Relax with soothing chamomile flowers. Perfect for unwinding after a long day. Helps promote restful sleep and reduce anxiety."
  const ButterflyText := "Invigorate your senses with fresh Butterfly Pea Flower tea. Known for its vibrant blue color and mild, earthy flavor. Great for an antioxidant boost and can change color with citrus!"
  const HerbalText := "Experience warmth and zest from a delightful blend of lemon and ginger. Ideal for soothing colds, aiding digestion, or simply enjoying a refreshing drink."
  const HibiscusText := "Savor the tart and fruity notes of natural hibiscus extracts. A refreshing and healthy beverage, rich in Vitamin C, and known to support blood pressure."

  /** `sampleTeaBlends`, in display order. */
  function Blends(): (b: seq<TeaBlend>)
    ensures |b| == 4
    ensures forall i, j :: 0 <= i < j < |b| ==> b[i].name != b[j].name
    ensures forall i :: 0 <= i < |b| ==> b[i].price > 0.0
  {
    var b := [ TeaBlend("Chamomile Calm", ChamomileText, "chamomiletea", 200.0),
               TeaBlend("Butterfly Fresh", ButterflyText, "menubutterfly", 250.0),
               TeaBlend("Herbal Tea", HerbalText, "herbaltea", 200.0),
               TeaBlend("Hibiscus Tea", HibiscusText, "kotlinhibis", 300.0) ];
    assert b[0].name[0] == 'C' && b[1].name[0] == 'B' && b[2].name[0] == 'H' && b[3].name[0] == 'H';
    assert b[2].name[1] == 'e' && b[3].name[1] == 'i';
    b
  }

  /** What can be tapped on the dashboard. */
  datatype Tap = SearchIcon | FavouriteIcon | ProfileIcon | AddProductButton | Card(blend: TeaBlend)

  /** Each tap opens a screen on top of the dashboard, which stays open; a card
      forwards its blend's name, description, image and price. */
  function OnTap(t: Tap): (n: Nav)
    ensures n.Start? && !n.finishCurrent
    ensures t.Card? ==> n.target == ProductDetailScreen(t.blend.name, t.blend.description, t.blend.image, t.blend.price)
  {
    match t
    case SearchIcon => Start(SearchScreen, false)
    case FavouriteIcon => Start(FavouriteScreen, false)
    case ProfileIcon => Start(ProfileScreen, false)
    case AddProductButton => Start(AddProductScreen, false)
    case Card(b) => Start(ProductDetailScreen(b.name, b.description, b.image, b.price), false)
  }

  /** Distinct cards open distinct detail screens. */
  lemma CardsOpenDistinctDetails(i: nat, j: nat)
    requires i < j < |Blends()|
    ensures OnTap(Card(Blends()[i])) != OnTap(Card(Blends()[j]))
  {
    assert Blends()[i].name != Blends()[j].name;
  }
}
