/** The pharmacy result view of MedicineAvailability.tsx: the search form's
    guard and query parameters, how a response updates the page state, and
    the displayed list (filter by availability, then sort by distance or
    price). */
module Pharmacy {
  import opened Common
  import opened Text

  /** A pharmacy row (fields the view only displays are omitted). Distance
      and price are JavaScript numbers; NaN is not modelled. */
  datatype Pharmacy = Pharmacy(id: string, name: string, distance: real, price: real, availability: string)

  /** The `sortBy` state: 'distance' or 'price'. */
  datatype SortKey = ByDistance | ByPrice

  const AllAvailabilities := "all"

  function Key(p: Pharmacy, k: SortKey): real
  {
    match k
    case ByDistance => p.distance
    case ByPrice => p.price
  }

  predicate Sorted(s: seq<Pharmacy>, k: SortKey)
  {
    forall i, j :: 0 <= i < j < |s| ==> Key(s[i], k) <= Key(s[j], k)
  }

  /** The filter callback: 'all' keeps everything, any other value keeps the
      pharmacies with exactly that availability. */
  predicate Shown(p: Pharmacy, filter: string)
  {
    filter == AllAvailabilities || p.availability == filter
  }

  /** `results.filter(...)`. */
  function Filter(rs: seq<Pharmacy>, filter: string): (r: seq<Pharmacy>)
    ensures forall p :: multiset(r)[p] == if Shown(p, filter) then multiset(rs)[p] else 0
    ensures |r| <= |rs|
  {
    if rs == [] then []
    else
      var rest := Filter(rs[1..], filter);
      assert rs == [rs[0]] + rs[1..];
      if Shown(rs[0], filter) then [rs[0]] + rest else rest
  }

  /** Filtering with 'all' is the identity. */
  lemma {:induction false} FilterAllKeepsEverything(rs: seq<Pharmacy>)
    ensures Filter(rs, AllAvailabilities) == rs
  {
    if rs != [] {
      FilterAllKeepsEverything(rs[1..]);
      assert rs == [rs[0]] + rs[1..];
    }
  }

  /** Every key in `s` is at least `b`. */
  predicate LowerBound(b: real, s: seq<Pharmacy>, k: SortKey)
  {
    forall i :: 0 <= i < |s| ==> b <= Key(s[i], k)
  }

  lemma SortedCons(x: Pharmacy, s: seq<Pharmacy>, k: SortKey)
    requires Sorted(s, k) && LowerBound(Key(x, k), s, k)
    ensures Sorted([x] + s, k)
  {
    var r := [x] + s;
    forall i, j | 0 <= i < j < |r| ensures Key(r[i], k) <= Key(r[j], k) {
      assert r[j] == s[j - 1];
      if i > 0 {
        assert r[i] == s[i - 1];
      }
    }
  }

  /** Insert `p` before the first element whose key is not smaller, so that
      equal keys keep their relative order. */
  function Insert(p: Pharmacy, s: seq<Pharmacy>, k: SortKey): (r: seq<Pharmacy>)
    ensures |r| == |s| + 1
  {
    if s == [] || Key(p, k) <= Key(s[0], k) then [p] + s
    else [s[0]] + Insert(p, s[1..], k)
  }

  /** Insertion adds `p` and nothing else. */
  lemma {:induction false} InsertPermutes(p: Pharmacy, s: seq<Pharmacy>, k: SortKey)
    ensures multiset(Insert(p, s, k)) == multiset(s) + multiset{p}
    decreases |s|
  {
    if !(s == [] || Key(p, k) <= Key(s[0], k)) {
      InsertPermutes(p, s[1..], k);
      assert s == [s[0]] + s[1..];
    }
  }

  /** A bound below `p` and below all of `s` stays below the result. */
  lemma {:induction false} InsertLowerBound(p: Pharmacy, s: seq<Pharmacy>, k: SortKey, b: real)
    requires LowerBound(b, s, k) && b <= Key(p, k)
    ensures LowerBound(b, Insert(p, s, k), k)
    decreases |s|
  {
    if !(s == [] || Key(p, k) <= Key(s[0], k)) {
      assert LowerBound(b, s[1..], k);
      InsertLowerBound(p, s[1..], k, b);
      var rest := Insert(p, s[1..], k);
      assert forall i :: 1 <= i < |rest| + 1 ==> ([s[0]] + rest)[i] == rest[i - 1];
    }
  }

  /** Insertion into an ordered list keeps it ordered. */
  lemma {:induction false} InsertSorted(p: Pharmacy, s: seq<Pharmacy>, k: SortKey)
    requires Sorted(s, k)
    ensures Sorted(Insert(p, s, k), k)
    decreases |s|
  {
    if s == [] || Key(p, k) <= Key(s[0], k) {
      SortedCons(p, s, k);
    } else {
      InsertSorted(p, s[1..], k);
      assert LowerBound(Key(s[0], k), s[1..], k);
      InsertLowerBound(p, s[1..], k, Key(s[0], k));
      SortedCons(s[0], Insert(p, s[1..], k), k);
    }
  }

  /** `sort` with the key comparator: an ordered permutation. */
  function SortBy(s: seq<Pharmacy>, k: SortKey): (r: seq<Pharmacy>)
    ensures Sorted(r, k)
    ensures multiset(r) == multiset(s)
  {
    if s == [] then []
    else
      var tail := SortBy(s[1..], k);
      InsertSorted(s[0], tail, k);
      InsertPermutes(s[0], tail, k);
      assert s == [s[0]] + s[1..];
      Insert(s[0], tail, k)
  }

  /** Sorting an already ordered list leaves it as it is. */
  lemma {:induction false} SortByKeepsSorted(s: seq<Pharmacy>, k: SortKey)
    requires Sorted(s, k)
    ensures SortBy(s, k) == s
  {
    if s != [] {
      SortByKeepsSorted(s[1..], k);
      assert s == [s[0]] + s[1..];
    }
  }

  /** `filteredResults`: the shown pharmacies, ordered by the chosen key. */
  function FilteredResults(results: seq<Pharmacy>, filter: string, k: SortKey): (r: seq<Pharmacy>)
    ensures Sorted(r, k)
    ensures forall p :: multiset(r)[p] == if Shown(p, filter) then multiset(results)[p] else 0
    ensures forall p :: p in r <==> p in results && Shown(p, filter)
  {
    var r := SortBy(Filter(results, filter), k);
    assert forall p :: p in r <==> multiset(r)[p] > 0;
    r
  }

  /** With 'all' the view shows a reordering of every result. */
  lemma AllShowsEveryResult(results: seq<Pharmacy>, k: SortKey)
    ensures multiset(FilteredResults(results, AllAvailabilities, k)) == multiset(results)
  {
    FilterAllKeepsEverything(results);
  }

  /** `getAvailabilityClass`. */
  function AvailabilityClass(a: string): (c: string)
    ensures c == "in-stock" <==> a == "In Stock"
    ensures c == "low-stock" <==> a == "Low Stock"
    ensures c == "out-of-stock" <==> a == "Out of Stock"
    ensures c == "" <==> a !in {"In Stock", "Low Stock", "Out of Stock"}
  {
    match a
    case "In Stock" => "in-stock"
    case "Low Stock" => "low-stock"
    case "Out of Stock" => "out-of-stock"
    case _ => ""
  }

  /** The class identifies the availability: two values with the same
      non-empty class are the same value. */
  lemma AvailabilityClassDeterminesLabel(a: string, b: string)
    requires AvailabilityClass(a) == AvailabilityClass(b) != ""
    ensures a == b
  {
  }

  // ------------------------------------------------------------ search form

  datatype Location = Location(lat: real, lon: real)

  /** One query parameter, by name (number formatting is not modelled). */
  datatype QueryParam = Medicine(name: string) | Lat(lat: real) | Lon(lon: real)

  datatype SearchState = SearchState(query: string, results: seq<Pharmacy>, loading: bool, error: string)

  /** The state after submitting, and the query of the request sent, if any. */
  datatype Submitted = Submitted(state: SearchState, request: Option<seq<QueryParam>>)

  const EnterMedicine := "Please enter a medicine name"
  const NoResults := "No results found"
  const SearchFailed := "Failed to search for medicine. Make sure the server is running."

  /** The synchronous part of `handleSearch`, up to the fetch. */
  function StartSearch(st: SearchState, location: Option<Location>): (s: Submitted)
    ensures IsBlank(st.query, Js) <==> s.request.None?
    ensures s.request.None? ==> s.state == st.(error := EnterMedicine)
    ensures s.request.Some? ==>
              && s.state == st.(loading := true, error := "", results := [])
              && |s.request.value| >= 1
              && s.request.value[0] == Medicine(Strip(st.query, Js))
              && (location.None? ==> |s.request.value| == 1)
              && (location.Some? ==>
                    s.request.value[1..] == [Lat(location.value.lat), Lon(location.value.lon)])
  {
    var q := Strip(st.query, Js);
    if q == [] then Submitted(st.(error := EnterMedicine), None)
    else
      var coords := match location
        case None => []
        case Some(l) => [Lat(l.lat), Lon(l.lon)];
      Submitted(st.(loading := true, error := "", results := []), Some([Medicine(q)] + coords))
  }

  /** A coordinate parameter is present exactly when a location is known. */
  lemma CoordinatesIffLocation(st: SearchState, location: Option<Location>)
    requires !IsBlank(st.query, Js)
    ensures var ps := StartSearch(st, location).request.value;
            (exists i | 0 <= i < |ps| :: ps[i].Lat?) <==> location.Some?
  {
    var ps := StartSearch(st, location).request.value;
    if location.Some? {
      assert ps[1].Lat?;
    }
  }

  /** What the fetch produced: a parsed body, or a thrown error. */
  datatype Outcome =
    | Answer(success: bool, pharmacies: Option<seq<Pharmacy>>, error: Option<string>)
    | Thrown

  /** The rest of `handleSearch`, after the fetch settles. */
  function FinishSearch(st: SearchState, o: Outcome): (s: SearchState)
    ensures !s.loading && s.query == st.query
    ensures o.Answer? && o.success && o.pharmacies.Some? ==>
              s.results == o.pharmacies.value && s.error == st.error
    ensures o.Answer? && !(o.success && o.pharmacies.Some?) ==>
              s.results == st.results
              && (Truthy(o.error) ==> s.error == o.error.value)
              && (!Truthy(o.error) ==> s.error == NoResults)
    ensures o.Thrown? ==> s.results == st.results && s.error == SearchFailed
  {
    match o
    case Answer(success, pharmacies, error) =>
      if success && pharmacies.Some? then st.(results := pharmacies.value, loading := false)
      else st.(error := OrElse(error, NoResults), loading := false)
    case Thrown => st.(error := SearchFailed, loading := false)
  }

  /** A full search: a blank query never clears the shown results, and a
      search that was sent ends with results only from its own answer. */
  lemma SearchRoundTrip(st: SearchState, location: Option<Location>, o: Outcome)
    ensures var sub := StartSearch(st, location);
            && (sub.request.None? ==> sub.state.results == st.results)
            && (sub.request.Some? ==>
                  var fin := FinishSearch(sub.state, o);
                  && !fin.loading
                  && (fin.results != [] ==> o.Answer? && o.pharmacies == Some(fin.results))
                  && (fin.error == "" <==> o.Answer? && o.success && o.pharmacies.Some?))
  {
  }
}
