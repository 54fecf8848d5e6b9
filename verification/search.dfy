/** The tea search screen (SearchActivity.kt): a fixed catalogue filtered by
    a case-insensitive query on name or description, and a set of favourite
    tea ids toggled from the list. */
module Search {
  import opened Common
  import opened Text

  /** `TeaModel`; the drawable resource is named by a string. */
  datatype Tea = Tea(id: string, name: string, description: string, image: string)

  /** The screen's catalogue, in display order. */
  function Catalogue(): (c: seq<Tea>)
    ensures |c| == 4
    ensures [c[0].id, c[1].id, c[2].id, c[3].id] == ["1", "2", "3", "4"]
    ensures forall i, j :: 0 <= i < j < |c| ==> c[i].id != c[j].id
  {
    [ Tea("1", "Chamomile Tea", "Relaxing and soothing", "chamomile"),
      Tea("2", "Butterfly Tea", "Fresh flavor", "butterfly"),
      Tea("3", "Hibiscus Tea", "Rich red color and tart flavor", "hibiscus"),
      Tea("4", "Herbal Tea", "Light citrus notes", "herbal") ]
  }

  /** The filter's test: the query occurs, ignoring case, in the name or the description. */
  predicate Matches(t: Tea, query: string) {
    ContainsIgnoreCase(t.name, query) || ContainsIgnoreCase(t.description, query)
  }

  /** `a` is `b` with some elements left out, the rest kept in order. */
  predicate IsSubsequence<T(==)>(a: seq<T>, b: seq<T>)
    decreases |b|
  {
    |a| == 0 || (|b| > 0 && ((a[0] == b[0] && IsSubsequence(a[1..], b[1..])) || IsSubsequence(a, b[1..])))
  }

  /** `teaList.filter { name or description contains the query, ignoring case }`. */
  function Filter(teas: seq<Tea>, query: string): (r: seq<Tea>)
    ensures IsSubsequence(r, teas)
    ensures forall i :: 0 <= i < |r| ==> Matches(r[i], query)
    ensures forall i :: 0 <= i < |teas| && Matches(teas[i], query) ==> teas[i] in r
    ensures |r| <= |teas|
  {
    if |teas| == 0 then []
    else
      var rest := Filter(teas[1..], query);
      assert forall i :: 1 <= i < |teas| ==> teas[i] == teas[1..][i - 1];
      if Matches(teas[0], query) then [teas[0]] + rest else rest
  }

  /** The empty query keeps every tea, in order. */
  lemma {:induction false} EmptyQueryKeepsAll(teas: seq<Tea>)
    ensures Filter(teas, "") == teas
  {
    if |teas| > 0 {
      EmptyNeedleIsContained(teas[0].name);
      EmptyQueryKeepsAll(teas[1..]);
      assert teas == [teas[0]] + teas[1..];
    }
  }

  /** The filter keeps every copy of a matching tea and no copy of any other,
      so the result is fixed even for a list with repeats. */
  lemma {:induction false} FilterCountsCopies(teas: seq<Tea>, query: string, t: Tea)
    ensures multiset(Filter(teas, query))[t] == if Matches(t, query) then multiset(teas)[t] else 0
  {
    if |teas| > 0 {
      FilterCountsCopies(teas[1..], query, t);
      assert teas == [teas[0]] + teas[1..];
      assert multiset(teas) == multiset{teas[0]} + multiset(teas[1..]);
    }
  }

  /** The screen state: the query text and the favourite tea ids. */
  datatype SearchState = SearchState(query: string, favourites: set<string>)

  function Initial(): SearchState {
    SearchState("", {})
  }

  /** The teas the list shows. */
  function Visible(st: SearchState): seq<Tea> {
    Filter(Catalogue(), st.query)
  }

  /** Editing the query replaces it and leaves the favourites alone. */
  function OnQueryChange(st: SearchState, query: string): (r: SearchState)
    ensures r.query == query && r.favourites == st.favourites
  {
    st.(query := query)
  }

  /** The heart button: remove the id when it is a favourite, add it otherwise. */
  function ToggleFavourite(ids: set<string>, id: string): (r: set<string>)
    ensures id in r <==> id !in ids
    ensures forall other :: other != id ==> (other in r <==> other in ids)
  {
    if id in ids then ids - {id} else ids + {id}
  }

  /** A click on a row's heart toggles that tea's id and keeps the query. */
  function OnFavouriteClick(st: SearchState, t: Tea): (r: SearchState)
    ensures r.query == st.query
    ensures t.id in r.favourites <==> t.id !in st.favourites
    ensures forall other :: other != t.id ==> (other in r.favourites <==> other in st.favourites)
  {
    st.(favourites := ToggleFavourite(st.favourites, t.id))
  }

  /** Two clicks on the same heart restore the favourites. */
  lemma {:induction false} ToggleTwiceRestores(ids: set<string>, id: string)
    ensures ToggleFavourite(ToggleFavourite(ids, id), id) == ids
  {
    var once := ToggleFavourite(ids, id);
    var twice := ToggleFavourite(once, id);
    forall x ensures x in twice <==> x in ids {
      if x == id { assert id in twice <==> id !in once; } else { assert x in twice <==> x in once; }
    }
  }

  /** The list depends on the query alone, and the favourites on the clicks alone. */
  lemma FavouritesAndQueryIndependent(st: SearchState, t: Tea, query: string)
    ensures Visible(OnFavouriteClick(st, t)) == Visible(st)
    ensures OnQueryChange(OnFavouriteClick(st, t), query).favourites
         == OnFavouriteClick(OnQueryChange(st, query), t).favourites
  {
  }
}
