/** The search page's filters (src/pages/Search.jsx): the record the sidebar edits, how
    it is read from the page's query string, how it is written back on submit, and the
    queries sent to the listings API. */
module SearchFilters {
  import opened Options
  import opened Numerals
  import opened QueryParams

  /** The sidebar's filter record; `kind` is the source's `type` field. */
  datatype FilterState = FilterState(
    searchTerm: string,
    kind: string,
    parking: bool,
    furnished: bool,
    offer: bool,
    sort: string,
    order: string)

  /** The record the page starts with, before the query string is read. */
  const InitialFilters := FilterState("", "all", false, false, false, "createdAt", "desc")

  /** Results requested per page from the listings API. */
  const PageSize: nat := 9

  /** JavaScript's `get(name) || default` for a string: the default when the name is
      absent or its value is empty. */
  function OrDefault(v: Option<string>, default: string): string {
    if v.Some? && v.value != "" then v.value else default
  }

  /** No field that has a default is left empty: what decoding always produces. */
  predicate FullyPopulated(f: FilterState) {
    f.kind != "" && f.sort != "" && f.order != ""
  }

  /** Reads the filters from the query string, filling the default of every field that
      is absent or empty; a flag is set only by the literal value "true". */
  function Decode(q: Params): (f: FilterState)
    ensures FullyPopulated(f)
  {
    FilterState(
      OrDefault(Get(q, "searchTerm"), ""),
      OrDefault(Get(q, "type"), "all"),
      Get(q, "parking") == Some("true"),
      Get(q, "furnished") == Some("true"),
      Get(q, "offer") == Some("true"),
      OrDefault(Get(q, "sort"), "createdAt"),
      OrDefault(Get(q, "order"), "desc"))
  }

  /** `set(name, value)` when `cond` holds, nothing otherwise: one line of the encoder. */
  function SetIf(ps: Params, cond: bool, name: string, value: string): Params {
    if cond then Set(ps, name, value) else ps
  }

  /** Writes the filters as the query string of the search page, leaving out the values
      that filter nothing (an empty search term, type "all" or empty, a false flag) and
      writing sort and order whenever they are not empty. */
  function Encode(f: FilterState): Params {
    var p1 := SetIf([], f.searchTerm != "", "searchTerm", f.searchTerm);
    var p2 := SetIf(p1, f.kind != "" && f.kind != "all", "type", f.kind);
    var p3 := SetIf(p2, f.parking, "parking", "true");
    var p4 := SetIf(p3, f.furnished, "furnished", "true");
    var p5 := SetIf(p4, f.offer, "offer", "true");
    var p6 := SetIf(p5, f.sort != "", "sort", f.sort);
    SetIf(p6, f.order != "", "order", f.order)
  }

  /** The query of the first page: the encoding of the filters read from the URL (the
      effect repeats the submit encoder condition for condition) plus `limit=9`. */
  function FirstPageQuery(f: FilterState): Params {
    Set(Encode(f), "limit", Decimal(PageSize))
  }

  /** The query of a further page: the page's own query string with `startIndex` set to
      the number of listings already shown and `limit` set to 9. */
  function ShowMoreQuery(search: Params, shown: nat): Params {
    Set(Set(search, "startIndex", Decimal(shown)), "limit", Decimal(PageSize))
  }

  lemma GetSetIf(ps: Params, cond: bool, name: string, value: string, key: string)
    ensures Get(SetIf(ps, cond, name, value), key)
            == if cond && key == name then Some(value) else Get(ps, key)
  {
    if cond {
      if key == name {
        GetSetSame(ps, name, value);
      } else {
        GetSetOther(ps, name, value, key);
      }
    }
  }

  /** Decoding an empty query string gives exactly the initial filters. */
  lemma DecodeEmpty()
    ensures Decode([]) == InitialFilters
  {
  }

  /** How each field is read: a flag is true exactly when its value is the literal
      "true"; a text field takes its value when that is present and not empty, and its
      default when it is absent or empty. */
  lemma DecodeFields(q: Params)
    ensures Decode(q).parking <==> Get(q, "parking") == Some("true")
    ensures Decode(q).furnished <==> Get(q, "furnished") == Some("true")
    ensures Decode(q).offer <==> Get(q, "offer") == Some("true")
    ensures Get(q, "searchTerm") in {None, Some("")} ==> Decode(q).searchTerm == ""
    ensures Get(q, "type") in {None, Some("")} ==> Decode(q).kind == "all"
    ensures Get(q, "sort") in {None, Some("")} ==> Decode(q).sort == "createdAt"
    ensures Get(q, "order") in {None, Some("")} ==> Decode(q).order == "desc"
    ensures Get(q, "searchTerm") !in {None, Some("")} ==> Some(Decode(q).searchTerm) == Get(q, "searchTerm")
    ensures Get(q, "type") !in {None, Some("")} ==> Some(Decode(q).kind) == Get(q, "type")
    ensures Get(q, "sort") !in {None, Some("")} ==> Some(Decode(q).sort) == Get(q, "sort")
    ensures Get(q, "order") !in {None, Some("")} ==> Some(Decode(q).order) == Get(q, "order")
  {
  }

  /** The value the encoding should carry under each name: the field's text for a
      non-empty search term, sort or order and for a type other than "all", "true" for a
      set flag, nothing otherwise. */
  function EncodedValue(f: FilterState, name: string): Option<string> {
    if name == "searchTerm" && f.searchTerm != "" then Some(f.searchTerm)
    else if name == "type" && f.kind != "" && f.kind != "all" then Some(f.kind)
    else if name == "parking" && f.parking then Some("true")
    else if name == "furnished" && f.furnished then Some("true")
    else if name == "offer" && f.offer then Some("true")
    else if name == "sort" && f.sort != "" then Some(f.sort)
    else if name == "order" && f.order != "" then Some(f.order)
    else None
  }

  lemma EncodeGetAt(f: FilterState, key: string)
    ensures Get(Encode(f), key) == EncodedValue(f, key)
  {
    var p1 := SetIf([], f.searchTerm != "", "searchTerm", f.searchTerm);
    var p2 := SetIf(p1, f.kind != "" && f.kind != "all", "type", f.kind);
    var p3 := SetIf(p2, f.parking, "parking", "true");
    var p4 := SetIf(p3, f.furnished, "furnished", "true");
    var p5 := SetIf(p4, f.offer, "offer", "true");
    var p6 := SetIf(p5, f.sort != "", "sort", f.sort);
    var p7 := SetIf(p6, f.order != "", "order", f.order);
    assert Encode(f) == p7;
    GetSetIf([], f.searchTerm != "", "searchTerm", f.searchTerm, key);
    GetSetIf(p1, f.kind != "" && f.kind != "all", "type", f.kind, key);
    GetSetIf(p2, f.parking, "parking", "true", key);
    GetSetIf(p3, f.furnished, "furnished", "true", key);
    GetSetIf(p4, f.offer, "offer", "true", key);
    GetSetIf(p5, f.sort != "", "sort", f.sort, key);
    GetSetIf(p6, f.order != "", "order", f.order, key);
  }

  /** What the encoder writes, name by name: each name's value is the one
      `EncodedValue` gives, so the no-op values are left out and no name other than the
      seven filters appears. */
  lemma EncodeGet(f: FilterState)
    ensures forall name :: Get(Encode(f), name) == EncodedValue(f, name)
    ensures forall name :: name !in FilterNames ==> Get(Encode(f), name) == None
  {
    forall name ensures Get(Encode(f), name) == EncodedValue(f, name) {
      EncodeGetAt(f, name);
    }
  }

  /** The names the search page's query string carries. */
  const FilterNames: set<string> := {"searchTerm", "type", "parking", "furnished", "offer", "sort", "order"}

  /** Decoding reads only the seven filter names. */
  lemma DecodeReadsFilterNames(p: Params, q: Params)
    requires forall name :: name in FilterNames ==> Get(p, name) == Get(q, name)
    ensures Decode(p) == Decode(q)
  {
  }

  /** Round trip: decoding what the encoder writes gives the same filters back, for every
      record whose type, sort and order are not empty (every record `Decode` produces). */
  lemma RoundTrip(f: FilterState)
    requires FullyPopulated(f)
    ensures Decode(Encode(f)) == f
  {
    EncodeGet(f);
  }

  /** The type, sort and order the round trip needs are exactly the ones an empty value
      would lose: an empty type comes back as "all". */
  lemma EmptyTypeComesBackAll(f: FilterState)
    requires f.kind == ""
    ensures Decode(Encode(f)).kind == "all"
  {
    EncodeGet(f);
  }

  /** Submitting what was read from a URL and reading it again changes nothing. */
  lemma DecodeEncodeDecode(q: Params)
    ensures Decode(Encode(Decode(q))) == Decode(q)
  {
    RoundTrip(Decode(q));
  }

  /** The first-page query is the submit encoding followed by `limit=9`; it carries no
      `startIndex` and reads back as the same filters. */
  lemma FirstPageQueryShape(f: FilterState)
    ensures FirstPageQuery(f) == Encode(f) + [("limit", "9")]
    ensures Get(FirstPageQuery(f), "startIndex") == None
    ensures Get(FirstPageQuery(f), "limit") == Some("9")
    ensures Decode(FirstPageQuery(f)) == Decode(Encode(f))
  {
    EncodeGet(f);
    assert Get(Encode(f), "limit") == None;
    SetAppends(Encode(f), "limit", "9");
    assert Decimal(PageSize) == "9";
    GetSetSame(Encode(f), "limit", "9");
    forall key | key != "limit"
      ensures Get(FirstPageQuery(f), key) == Get(Encode(f), key)
    {
      GetSetOther(Encode(f), "limit", "9", key);
    }
  }

  lemma ShowMoreQueryGet(search: Params, shown: nat, key: string)
    ensures Get(ShowMoreQuery(search, shown), key)
            == if key == "limit" then Some("9")
               else if key == "startIndex" then Some(Decimal(shown))
               else Get(search, key)
  {
    var s1 := Set(search, "startIndex", Decimal(shown));
    assert Decimal(PageSize) == "9";
    GetSetIf(s1, true, "limit", "9", key);
    GetSetIf(search, true, "startIndex", Decimal(shown), key);
  }

  /** The further-page query carries `startIndex` reading back as the number of listings
      shown and `limit=9`, whatever those names held before, and every other name of the
      page's query string unchanged. */
  lemma ShowMoreQueryShape(search: Params, shown: nat)
    ensures Get(ShowMoreQuery(search, shown), "limit") == Some("9")
    ensures Get(ShowMoreQuery(search, shown), "startIndex").Some?
    ensures var v := Get(ShowMoreQuery(search, shown), "startIndex").value;
            AllDigits(v) && ParseDecimal(v) == shown
    ensures forall key :: key != "limit" && key != "startIndex" ==>
              Get(ShowMoreQuery(search, shown), key) == Get(search, key)
  {
    ShowMoreQueryGet(search, shown, "limit");
    ShowMoreQueryGet(search, shown, "startIndex");
    DecimalRoundTrip(shown);
    forall key | key != "limit" && key != "startIndex"
      ensures Get(ShowMoreQuery(search, shown), key) == Get(search, key)
    {
      ShowMoreQueryGet(search, shown, key);
    }
  }

  /** A further page asks for the same filters as the page's query string. */
  lemma ShowMoreQueryFilters(search: Params, shown: nat)
    ensures Decode(ShowMoreQuery(search, shown)) == Decode(search)
  {
    var q := ShowMoreQuery(search, shown);
    forall key | key in FilterNames
      ensures Get(q, key) == Get(search, key)
    {
      ShowMoreQueryGet(search, shown, key);
    }
    DecodeReadsFilterNames(q, search);
  }

  /** A change event of the sidebar: the input's id, its value and, for a checkbox,
      whether it is checked. */
  datatype InputEvent = InputEvent(id: string, value: string, checked: bool)

  /** JavaScript's `s.split("_")`: the pieces between underscores, at least one. */
  function SplitUnderscore(s: string): (parts: seq<string>)
    ensures |parts| >= 1
  {
    if s == [] then [""]
    else
      var rest := SplitUnderscore(s[1..]);
      if s[0] == '_' then [""] + rest else [[s[0]] + rest[0]] + rest[1..]
  }

  /** Splitting "X_Y", where neither X nor Y holds an underscore, gives [X, Y]. */
  lemma {:induction false} SplitPair(x: string, y: string)
    requires '_' !in x && '_' !in y
    ensures SplitUnderscore(x + "_" + y) == [x, y]
  {
    if x == [] {
      assert x + "_" + y == "_" + y;
      assert ("_" + y)[1..] == y;
      SplitWhole(y);
    } else {
      assert (x + "_" + y)[1..] == x[1..] + "_" + y;
      SplitPair(x[1..], y);
      assert [x[0]] + x[1..] == x;
    }
  }

  /** A string without underscores splits into itself. */
  lemma {:induction false} SplitWhole(s: string)
    requires '_' !in s
    ensures SplitUnderscore(s) == [s]
  {
    if s != [] {
      SplitWhole(s[1..]);
      assert [s[0]] + s[1..] == s;
    }
  }

  /** `handleChange`: "type" and "searchTerm" take the input's value, the three flags
      take its checked state, "sort_order" is split at "_" into sort and order (an
      order missing from the value, undefined in the source, is the empty string);
      any other id changes nothing. */
  function ApplyChange(f: FilterState, e: InputEvent): FilterState {
    if e.id == "type" then f.(kind := e.value)
    else if e.id == "searchTerm" then f.(searchTerm := e.value)
    else if e.id == "parking" then f.(parking := e.checked)
    else if e.id == "furnished" then f.(furnished := e.checked)
    else if e.id == "offer" then f.(offer := e.checked)
    else if e.id == "sort_order" then
      var parts := SplitUnderscore(e.value);
      f.(sort := parts[0], order := if |parts| > 1 then parts[1] else "")
    else f
  }

  /** The fields an input id names. */
  function Targets(id: string): set<string> {
    if id == "type" || id == "searchTerm" || id == "parking" || id == "furnished" || id == "offer"
    then {id}
    else if id == "sort_order" then {"sort", "order"}
    else {}
  }

  /** `g` agrees with `f` on every field whose name is not in `names`. */
  predicate SameExcept(f: FilterState, g: FilterState, names: set<string>) {
    && ("searchTerm" !in names ==> g.searchTerm == f.searchTerm)
    && ("type" !in names ==> g.kind == f.kind)
    && ("parking" !in names ==> g.parking == f.parking)
    && ("furnished" !in names ==> g.furnished == f.furnished)
    && ("offer" !in names ==> g.offer == f.offer)
    && ("sort" !in names ==> g.sort == f.sort)
    && ("order" !in names ==> g.order == f.order)
  }

  /** Every change event changes only the field or fields its id names. */
  lemma ChangeTouchesOnlyTargets(f: FilterState, e: InputEvent)
    ensures SameExcept(f, ApplyChange(f, e), Targets(e.id))
  {
  }

  /** The type and search-term inputs store the input's value. */
  lemma ChangeText(f: FilterState, e: InputEvent)
    ensures e.id == "type" ==> ApplyChange(f, e) == f.(kind := e.value)
    ensures e.id == "searchTerm" ==> ApplyChange(f, e) == f.(searchTerm := e.value)
  {
  }

  /** A flag checkbox sets its flag to the checked state. */
  lemma ChangeFlag(f: FilterState, e: InputEvent)
    requires e.id in ["parking", "furnished", "offer"]
    ensures var g := ApplyChange(f, e);
            (e.id == "parking" ==> g.parking == e.checked)
            && (e.id == "furnished" ==> g.furnished == e.checked)
            && (e.id == "offer" ==> g.offer == e.checked)
  {
  }

  /** Choosing "X_Y" in the sort menu sets sort to X and order to Y. */
  lemma ChangeSortOrder(f: FilterState, x: string, y: string, checked: bool)
    requires '_' !in x && '_' !in y
    ensures ApplyChange(f, InputEvent("sort_order", x + "_" + y, checked)) == f.(sort := x, order := y)
  {
    SplitPair(x, y);
  }
}
