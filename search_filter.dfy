/**
 * The search page's filter (`sidebardata` in client/src/pages/Search.jsx) and its codec:
 * reading the recognised keys out of the URL, filling in defaults, writing every field back,
 * and the field-update reducer behind the sidebar's inputs.
 */
module SearchFilter {
  import opened Wrappers
  import opened UrlParams

  /** The seven-field filter; `listingType` is the field the page calls `type`. */
  datatype Filter = Filter(
    searchTerm: string,
    listingType: string,
    parking: bool,
    furnished: bool,
    offer: bool,
    sort: string,
    order: string)

  /** The filter's keys, in the order the state object declares them. */
  datatype Field = SearchTerm | Type | Parking | Furnished | Offer | Sort | Order

  type TextField = k: Field | k.SearchTerm? || k.Type? || k.Sort? || k.Order? witness SearchTerm
  type FlagField = k: Field | k.Parking? || k.Furnished? || k.Offer? witness Parking

  /** A field's value: the state object holds strings and booleans. */
  datatype Value = Text(s: string) | Flag(b: bool)

  function Get(f: Filter, k: Field): Value
  {
    match k
    case SearchTerm => Text(f.searchTerm)
    case Type => Text(f.listingType)
    case Parking => Flag(f.parking)
    case Furnished => Flag(f.furnished)
    case Offer => Flag(f.offer)
    case Sort => Text(f.sort)
    case Order => Text(f.order)
  }

  /** The property name of a field, which is also its query key. */
  function Name(k: Field): string
  {
    match k
    case SearchTerm => "searchTerm"
    case Type => "type"
    case Parking => "parking"
    case Furnished => "furnished"
    case Offer => "offer"
    case Sort => "sort"
    case Order => "order"
  }

  /** `Object.keys(sidebardata)`. */
  const Fields: seq<Field> := [SearchTerm, Type, Parking, Furnished, Offer, Sort, Order]

  /** The keys the page reads from its URL; `startIndex` is not among them. */
  const RecognizedParams: seq<string> :=
    ["searchTerm", "type", "parking", "furnished", "offer", "sort", "order"]

  /** The state before the first URL has been read. */
  const InitialFilter: Filter := Filter("", "all", false, false, false, "createdAt", "desc")

  /** `String(value)`: booleans become "true" or "false". */
  function Render(v: Value): string
  {
    match v
    case Text(s) => s
    case Flag(b) => if b then "true" else "false"
  }

  /** A JavaScript string that is falsy: missing (`undefined`) or empty. */
  predicate Blank(v: Option<string>)
  {
    v.None? || v.value == ""
  }

  /** `v || d` on a possibly missing string. */
  function OrDefault(v: Option<string>, d: string): string
  {
    if Blank(v) then d else v.value
  }

  /** The three fields that name a choice are never empty once normalised. */
  predicate IsNormal(f: Filter)
  {
    f.listingType != "" && f.sort != "" && f.order != ""
  }

  // ---------------------------------------------------------------- decoding

  /**
   * The object `getParams(params)` returns: for each key of `params` in turn that the query
   * holds, that key with the query's (first) value, written into the object.
   */
  function SelectParams(search: Pairs, params: seq<string>): (r: Pairs)
    ensures forall k :: Lookup(r, k) == (if k in params then Lookup(search, k) else None)
  {
    if params == [] then []
    else
      var k := params[|params| - 1];
      var r := SelectParams(search, params[..|params| - 1]);
      assert params == params[..|params| - 1] + [k];
      match Lookup(search, k)
      case None => r
      case Some(v) => Set(r, k, v)
  }

  /** `getParams`: the loop that builds the result object key by key. */
  method GetParams(search: Pairs, params: seq<string>) returns (result: Pairs)
    ensures result == SelectParams(search, params)
  {
    result := [];
    for i := 0 to |params|
      invariant result == SelectParams(search, params[..i])
    {
      assert params[..i + 1][..i] == params[..i];
      var value := Lookup(search, params[i]);
      if value.Some? {
        result := Set(result, params[i], value.value);
      }
    }
    assert params[..|params|] == params;
  }

  /** Decoding ignores every key it does not recognise, the paging key among them. */
  lemma DecodeIgnoresUnrecognised(search: Pairs, k: string)
    requires k !in RecognizedParams
    ensures forall i :: 0 <= i < |SelectParams(search, RecognizedParams)| ==>
              SelectParams(search, RecognizedParams)[i].0 != k
  {
  }

  /**
   * The effect's `setSidebardata({...})`: a complete filter from the decoded object, with
   * the defaults "", "all", false, "createdAt" and "desc".
   */
  function Normalize(params: Pairs): (f: Filter)
    ensures IsNormal(f)
    ensures f.searchTerm == OrDefault(Lookup(params, "searchTerm"), "")
    ensures Blank(Lookup(params, "type")) ==> f.listingType == "all"
    ensures !Blank(Lookup(params, "type")) ==> f.listingType == Lookup(params, "type").value
    ensures Blank(Lookup(params, "sort")) ==> f.sort == "createdAt"
    ensures !Blank(Lookup(params, "sort")) ==> f.sort == Lookup(params, "sort").value
    ensures Blank(Lookup(params, "order")) ==> f.order == "desc"
    ensures !Blank(Lookup(params, "order")) ==> f.order == Lookup(params, "order").value
    ensures f.parking <==> Lookup(params, "parking") == Some("true")
    ensures f.furnished <==> Lookup(params, "furnished") == Some("true")
    ensures f.offer <==> Lookup(params, "offer") == Some("true")
  {
    Filter(
      OrDefault(Lookup(params, "searchTerm"), ""),
      OrDefault(Lookup(params, "type"), "all"),
      Lookup(params, "parking") == Some("true"),
      Lookup(params, "furnished") == Some("true"),
      Lookup(params, "offer") == Some("true"),
      OrDefault(Lookup(params, "sort"), "createdAt"),
      OrDefault(Lookup(params, "order"), "desc"))
  }

  /** A URL with none of the recognised keys gives the page's initial filter. */
  lemma NormalizeWithoutParams(search: Pairs)
    requires forall i :: 0 <= i < |search| ==> search[i].0 !in RecognizedParams
    ensures Normalize(SelectParams(search, RecognizedParams)) == InitialFilter
  {
  }

  // ---------------------------------------------------------------- encoding

  /** Where a field stands in `Fields`. */
  function Position(k: Field): (i: nat)
    ensures i < |Fields| && Fields[i] == k
  {
    match k
    case SearchTerm => 0
    case Type => 1
    case Parking => 2
    case Furnished => 3
    case Offer => 4
    case Sort => 5
    case Order => 6
  }

  /** No two fields share a property name. */
  lemma NamesDistinct()
    ensures forall i, j :: 0 <= i < j < |Fields| ==> Name(Fields[i]) != Name(Fields[j])
  {
  }

  /** The query `handleSubmit` navigates to: one pair per field, in declaration order. */
  function Encode(f: Filter): (q: Pairs)
    ensures |q| == |Fields| && DistinctKeys(q)
    ensures forall i :: 0 <= i < |q| ==> q[i].0 == RecognizedParams[i]
    ensures forall k :: Lookup(q, Name(k)) == Some(Render(Get(f, k)))
  {
    var q := seq(|Fields|, i requires 0 <= i < |Fields| => (Name(Fields[i]), Render(Get(f, Fields[i]))));
    NamesDistinct();
    RecognizedAreFieldNames();
    forall k ensures Lookup(q, Name(k)) == Some(Render(Get(f, k))) {
      LookupAt(q, Position(k));
    }
    q
  }

  /** `handleSubmit`: the loop that sets every field of the filter on a fresh query. */
  method EncodeFilter(f: Filter) returns (urlParams: Pairs)
    ensures urlParams == Encode(f)
  {
    ghost var q := Encode(f);
    urlParams := [];
    for i := 0 to |Fields|
      invariant urlParams == q[..i]
    {
      var key := Fields[i];
      assert Lookup(urlParams, Name(key)) == None by {
        forall j | 0 <= j < i ensures urlParams[j].0 != Name(key) {
          assert urlParams[j] == q[j];
        }
      }
      urlParams := Set(urlParams, Name(key), Render(Get(f, key)));
      assert q[..i + 1] == q[..i] + [q[i]];
    }
    assert q[..|Fields|] == q;
  }

  /** The recognised keys are the names of the fields, in the same order. */
  lemma RecognizedAreFieldNames()
    ensures |RecognizedParams| == |Fields|
    ensures forall i :: 0 <= i < |Fields| ==> RecognizedParams[i] == Name(Fields[i])
  {
  }

  /** Reading back a submitted URL: the page requests exactly the URL it navigated to. */
  lemma SelectEncode(f: Filter)
    ensures SelectParams(Encode(f), RecognizedParams) == Encode(f)
  {
    var q := Encode(f);
    RecognizedAreFieldNames();
    SelectInOrder(q, RecognizedParams, |q|);
    assert RecognizedParams[..|q|] == RecognizedParams;
    assert q[..|q|] == q;
  }

  /**
   * Selecting, in order, the keys of a query with distinct keys rebuilds that query: the
   * first n keys give its first n pairs.
   */
  lemma {:induction false} SelectInOrder(q: Pairs, keys: seq<string>, n: nat)
    requires DistinctKeys(q) && |keys| == |q| && n <= |q|
    requires forall i :: 0 <= i < |q| ==> q[i].0 == keys[i]
    ensures SelectParams(q, keys[..n]) == q[..n]
  {
    if n > 0 {
      SelectInOrder(q, keys, n - 1);
      var k := keys[n - 1];
      assert keys[..n][..n - 1] == keys[..n - 1];
      LookupAt(q, n - 1);
      var before := q[..n - 1];
      assert Lookup(before, k) == None by {
        forall j | 0 <= j < |before| ensures before[j].0 != k {
          assert q[j].0 != q[n - 1].0;
        }
      }
      assert q[..n] == before + [q[n - 1]];
    }
  }

  /** Normalising an object that holds every field of a normal filter gives that filter. */
  lemma NormalizeComplete(params: Pairs, f: Filter)
    requires IsNormal(f)
    requires forall k :: Lookup(params, Name(k)) == Some(Render(Get(f, k)))
    ensures Normalize(params) == f
  {
    assert Lookup(params, Name(SearchTerm)) == Some(f.searchTerm);
    assert Lookup(params, Name(Type)) == Some(f.listingType);
    assert Lookup(params, Name(Parking)) == Some(Render(Flag(f.parking)));
    assert Lookup(params, Name(Furnished)) == Some(Render(Flag(f.furnished)));
    assert Lookup(params, Name(Offer)) == Some(Render(Flag(f.offer)));
    assert Lookup(params, Name(Sort)) == Some(f.sort);
    assert Lookup(params, Name(Order)) == Some(f.order);
  }

  /**
   * The filter rebuilt from a submitted URL is the one that was submitted, provided the
   * three choice fields are non-empty (an empty one reads back as its default).
   */
  lemma DecodeEncode(f: Filter)
    requires IsNormal(f)
    ensures Normalize(SelectParams(Encode(f), RecognizedParams)) == f
  {
    SelectEncode(f);
    NormalizeComplete(Encode(f), f);
  }

  // ---------------------------------------------------------------- sort_order

  /** `s.split(sep)`: the pieces between separators, in order; there is always at least one. */
  function Split(s: string, sep: char): (r: seq<string>)
    ensures |r| >= 1
    ensures forall i :: 0 <= i < |r| ==> sep !in r[i]
  {
    if s == [] then [""]
    else
      var rest := Split(s[1..], sep);
      if s[0] == sep then [""] + rest
      else
        assert sep !in [s[0]] + rest[0];
        [[s[0]] + rest[0]] + rest[1..]
  }

  /** The pieces joined with the separator between them. */
  function Join(pieces: seq<string>, sep: char): string
    requires |pieces| >= 1
  {
    if |pieces| == 1 then pieces[0] else pieces[0] + [sep] + Join(pieces[1..], sep)
  }

  /** Splitting loses nothing: joining the pieces gives back the string. */
  lemma {:induction false} JoinSplit(s: string, sep: char)
    ensures Join(Split(s, sep), sep) == s
  {
    if s != [] {
      JoinSplit(s[1..], sep);
      var rest := Split(s[1..], sep);
      if s[0] != sep && |rest| > 1 {
        assert Split(s, sep)[1..] == rest[1..];
      }
    }
  }

  /** A string without the separator splits into itself alone. */
  lemma {:induction false} SplitWithoutSeparator(s: string, sep: char)
    requires sep !in s
    ensures Split(s, sep) == [s]
  {
    if s != [] {
      SplitWithoutSeparator(s[1..], sep);
      assert [s[0]] + s[1..] == s;
    }
  }

  /** A separator-free first piece splits off on its own. */
  lemma {:induction false} SplitFirst(a: string, rest: string, sep: char)
    requires sep !in a
    ensures Split(a + [sep] + rest, sep) == [a] + Split(rest, sep)
  {
    if a == [] {
      assert a + [sep] + rest == [sep] + rest;
    } else {
      SplitFirst(a[1..], rest, sep);
      assert (a + [sep] + rest)[1..] == a[1..] + [sep] + rest;
      assert [a[0]] + a[1..] == a;
    }
  }

  /** Two separator-free strings joined by one separator split back into the two. */
  lemma SplitPair(a: string, b: string, sep: char)
    requires sep !in a && sep !in b
    ensures Split(a + [sep] + b, sep) == [a, b]
  {
    SplitFirst(a, b, sep);
    SplitWithoutSeparator(b, sep);
  }

  /** The select's value, `${sort}_${order}`. */
  function SortOrderValue(f: Filter): string
  {
    f.sort + "_" + f.order
  }

  /**
   * `const [sort, order] = value.split("_")` with the defaults "createdAt" and "desc" for a
   * missing or empty part; pieces after the second are dropped.
   */
  function SplitSortOrder(value: string): (r: (string, string))
    ensures r.0 != "" && r.1 != ""
    ensures '_' !in value ==> r == (OrDefault(Some(value), "createdAt"), "desc")
  {
    var parts := Split(value, '_');
    assert '_' !in value ==> parts == [value] by {
      if '_' !in value {
        SplitWithoutSeparator(value, '_');
      }
    }
    (OrDefault(Some(parts[0]), "createdAt"),
     OrDefault(if |parts| > 1 then Some(parts[1]) else None, "desc"))
  }

  /** Each of the first two pieces is kept, or replaced by its default when empty. */
  lemma SortOrderDefaults(a: string, b: string)
    requires '_' !in a && '_' !in b
    ensures SplitSortOrder(a + "_" + b) == (OrDefault(Some(a), "createdAt"), OrDefault(Some(b), "desc"))
  {
    SplitPair(a, b, '_');
  }

  /** Pieces after the second are dropped. */
  lemma SortOrderDropsExtraPieces(a: string, b: string, rest: string)
    requires '_' !in a && '_' !in b
    ensures SplitSortOrder(a + "_" + b + "_" + rest) == SplitSortOrder(a + "_" + b)
  {
    SplitFirst(a, b + "_" + rest, '_');
    SplitFirst(b, rest, '_');
    assert a + "_" + b + "_" + rest == a + ['_'] + (b + ['_'] + rest);
    SortOrderDefaults(a, b);
  }

  /** The select's value splits back into the sort and order it was built from. */
  lemma SortOrderRoundTrip(f: Filter)
    requires f.sort != "" && f.order != ""
    requires '_' !in f.sort && '_' !in f.order
    ensures SplitSortOrder(SortOrderValue(f)) == (f.sort, f.order)
  {
    SortOrderDefaults(f.sort, f.order);
  }

  // ---------------------------------------------------------------- handleChange

  /** What an input of the sidebar reports when it changes. */
  datatype ChangeEvent =
    | RadioChange(group: TextField, id: string)      // a radio: the field its name selects, its id
    | CheckboxChange(box: FlagField, checked: bool)  // a checkbox: the field its id selects, its state
    | SortOrderChange(value: string)                 // the select whose id is "sort_order"
    | InputChange(input: TextField, value: string)   // any other input: the field its id selects

  /** The filter with one text field replaced. */
  function WithText(f: Filter, k: TextField, s: string): (r: Filter)
    ensures Get(r, k) == Text(s) && OnlyChanged(f, r, {k})
  {
    match k
    case SearchTerm => f.(searchTerm := s)
    case Type => f.(listingType := s)
    case Sort => f.(sort := s)
    case Order => f.(order := s)
  }

  /** The filter with one boolean field replaced. */
  function WithFlag(f: Filter, k: FlagField, b: bool): (r: Filter)
    ensures Get(r, k) == Flag(b) && OnlyChanged(f, r, {k})
  {
    match k
    case Parking => f.(parking := b)
    case Furnished => f.(furnished := b)
    case Offer => f.(offer := b)
  }

  /** The filter with sort and order replaced. */
  function WithSortOrder(f: Filter, sortOrder: (string, string)): (r: Filter)
    ensures r.sort == sortOrder.0 && r.order == sortOrder.1 && OnlyChanged(f, r, {Sort, Order})
  {
    f.(sort := sortOrder.0, order := sortOrder.1)
  }

  /** Every field outside `changed` reads the same in both filters. */
  ghost predicate OnlyChanged(before: Filter, after: Filter, changed: set<Field>)
  {
    forall k :: k !in changed ==> Get(after, k) == Get(before, k)
  }

  /**
   * The updater `handleChange` passes to `setSidebardata`: a radio sets the field named by
   * its group to its id, a checkbox sets its field to its checked state, the sort select sets
   * sort and order from its split value, any other input sets its field to its value; every
   * other field is kept.
   */
  function ApplyChange(f: Filter, e: ChangeEvent): (r: Filter)
    ensures e.RadioChange? ==> Get(r, e.group) == Text(e.id) && OnlyChanged(f, r, {e.group})
    ensures e.CheckboxChange? ==> Get(r, e.box) == Flag(e.checked) && OnlyChanged(f, r, {e.box})
    ensures e.SortOrderChange? ==>
              (r.sort, r.order) == SplitSortOrder(e.value) && OnlyChanged(f, r, {Sort, Order})
    ensures e.InputChange? ==> Get(r, e.input) == Text(e.value) && OnlyChanged(f, r, {e.input})
  {
    match e
    case RadioChange(group, id) => WithText(f, group, id)
    case CheckboxChange(box, checked) => WithFlag(f, box, checked)
    case SortOrderChange(value) => WithSortOrder(f, SplitSortOrder(value))
    case InputChange(input, value) => WithText(f, input, value)
  }
}
