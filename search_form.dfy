/**
 * The home-page search form: select controls that write fields of the filter record, a price
 * select that maps buckets to a `priceMin`/`priceMax` pair and back, and a submit that either
 * hands the filters to the page's search callback or serialises them into a `/search` URL.
 */
module SearchForm {
  import opened Wrappers
  import opened JsValues
  import ScrollToTop

  datatype SearchType = Trucks | Trailers

  function SearchTypeName(t: SearchType): string {
    match t
    case Trucks => "trucks"
    case Trailers => "trailers"
  }

  // ---------------------------------------------------------------------------
  // Price buckets
  // ---------------------------------------------------------------------------

  datatype PriceOption = AnyPrice | Under50K | From50KTo100K | From100KTo200K | Over200K

  /** The `value` attribute of each price option. */
  function PriceOptionValue(o: PriceOption): string {
    match o
    case AnyPrice => "any"
    case Under50K => "50000"
    case From50KTo100K => "100000"
    case From100KTo200K => "200000"
    case Over200K => "999999"
  }

  /** The option a chosen `value` stands for; an unknown value means any price. */
  function ParsePriceChoice(value: string): (o: PriceOption)
    ensures value == PriceOptionValue(o) || o == AnyPrice
  {
    if value == "50000" then Under50K
    else if value == "100000" then From50KTo100K
    else if value == "200000" then From100KTo200K
    else if value == "999999" then Over200K
    else AnyPrice
  }

  lemma ParsePriceChoiceOfValue(o: PriceOption)
    ensures ParsePriceChoice(PriceOptionValue(o)) == o
  {
  }

  /** The (`priceMin`, `priceMax`) pair an option writes; `Undefined` clears a bound. */
  function PriceBounds(o: PriceOption): (Value, Value) {
    match o
    case AnyPrice => (Undefined, Undefined)
    case Under50K => (Undefined, Num(50000))
    case From50KTo100K => (Num(50000), Num(100000))
    case From100KTo200K => (Num(100000), Num(200000))
    case Over200K => (Num(200000), Undefined)
  }

  /** Choosing a price option: both bounds are written, every other field reads as before. */
  function ApplyPriceOption(f: JsObject, o: PriceOption): (r: JsObject)
    ensures Get(r, "priceMin") == PriceBounds(o).0 && Get(r, "priceMax") == PriceBounds(o).1
    ensures forall k :: k != "priceMin" && k != "priceMax" ==> Get(r, k) == Get(f, k)
  {
    Put(Put(f, "priceMin", PriceBounds(o).0), "priceMax", PriceBounds(o).1)
  }

  /**
   * The option the price select shows for a filter record: one of the four buckets when the
   * bounds are exactly that bucket's (a missing or zero bound counts as absent), else any price.
   */
  function PriceOptionOf(f: JsObject): PriceOption {
    var lo, hi := Get(f, "priceMin"), Get(f, "priceMax");
    if hi == Num(50000) && !Truthy(lo) then Under50K
    else if lo == Num(50000) && hi == Num(100000) then From50KTo100K
    else if lo == Num(100000) && hi == Num(200000) then From100KTo200K
    else if lo == Num(200000) && !Truthy(hi) then Over200K
    else AnyPrice
  }

  /** Choosing a bucket and reading the select back gives the same bucket. */
  lemma PriceRoundTrip(f: JsObject, o: PriceOption)
    ensures PriceOptionOf(ApplyPriceOption(f, o)) == o
  {
  }

  /** Bounds that are not one of the four buckets (such as 0 to 75000) show as any price. */
  lemma OtherBoundsShowAny(f: JsObject)
    requires Get(f, "priceMin") == Num(0) && Get(f, "priceMax") == Num(75000)
    ensures PriceOptionOf(f) == AnyPrice
  {
  }

  // ---------------------------------------------------------------------------
  // Select controls
  // ---------------------------------------------------------------------------

  datatype Control = TruckTypeSelect | BodyManufacturerSelect | PriceSelect | ConditionSelect | StateSelect

  /** The filter fields a control writes. */
  function ControlFields(c: Control): set<string> {
    match c
    case TruckTypeSelect => {"truckType"}
    case BodyManufacturerSelect => {"bodyManufacturer"}
    case PriceSelect => {"priceMin", "priceMax"}
    case ConditionSelect => {"condition"}
    case StateSelect => {"state"}
  }

  /**
   * The new filter record after `choice` is picked in control `c`: "all" clears the type,
   * "" and "all" clear the condition, "" clears the state and the manufacturer, and a
   * manufacturer is stored as a one-element list.
   */
  function ApplyChoice(f: JsObject, c: Control, choice: string): (r: JsObject)
    ensures forall k :: k !in ControlFields(c) ==> Get(r, k) == Get(f, k)
  {
    match c
    case TruckTypeSelect => Put(f, "truckType", if choice == "all" then Undefined else Str(choice))
    case BodyManufacturerSelect => Put(f, "bodyManufacturer", if choice == "" then Undefined else List([choice]))
    case PriceSelect => ApplyPriceOption(f, ParsePriceChoice(choice))
    case ConditionSelect =>
      Put(f, "condition", if choice == "" || choice == "all" then Undefined else Str(choice))
    case StateSelect => Put(f, "state", if choice == "" then Undefined else Str(choice))
  }

  /** A string field's text when it is a non-empty string, else the select's placeholder value. */
  function TextOr(v: Value, placeholder: string): string {
    if v.Str? && v.s != "" then v.s else placeholder
  }

  /** The value each select displays for a filter record. */
  function Display(f: JsObject, c: Control): string {
    match c
    case TruckTypeSelect => TextOr(Get(f, "truckType"), "all")
    case BodyManufacturerSelect =>
      var v := Get(f, "bodyManufacturer");
      if v.List? && |v.items| > 0 then v.items[0] else ""
    case PriceSelect => PriceOptionValue(PriceOptionOf(f))
    case ConditionSelect => TextOr(Get(f, "condition"), "")
    case StateSelect => TextOr(Get(f, "state"), "")
  }

  /**
   * What a select shows right after `choice` was picked in it: the choice itself, except that
   * "all" as a condition shows the empty placeholder, an empty type shows "all", and an
   * unknown price value shows any price.
   */
  function Shown(c: Control, choice: string): string {
    match c
    case TruckTypeSelect => if choice == "" then "all" else choice
    case BodyManufacturerSelect => choice
    case PriceSelect => PriceOptionValue(ParsePriceChoice(choice))
    case ConditionSelect => if choice == "all" then "" else choice
    case StateSelect => choice
  }

  lemma SelectRoundTrip(f: JsObject, c: Control, choice: string)
    ensures Display(ApplyChoice(f, c, choice), c) == Shown(c, choice)
  {
    if c == PriceSelect {
      PriceRoundTrip(f, ParsePriceChoice(choice));
    }
  }

  /** Every option a select offers displays as itself once picked, apart from condition "all". */
  lemma OfferedOptionsShowThemselves(c: Control, choice: string)
    requires choice != ""
    requires c == PriceSelect ==> choice in {"any", "50000", "100000", "200000", "999999"}
    requires c == ConditionSelect ==> choice != "all"
    ensures Shown(c, choice) == choice
  {
  }

  // ---------------------------------------------------------------------------
  // Query serialisation
  // ---------------------------------------------------------------------------

  /** URL search parameters as an ordered list of name/value pairs. */
  type Params = seq<(string, string)>

  /** The first value under `name`, as `URLSearchParams.get` reads it. */
  function ParamGet(ps: Params, name: string): Option<string> {
    if ps == [] then None
    else if ps[0].0 == name then Some(ps[0].1)
    else ParamGet(ps[1..], name)
  }

  function RemoveParam(ps: Params, name: string): (r: Params)
    ensures ParamGet(r, name) == None
    ensures forall n :: n != name ==> ParamGet(r, n) == ParamGet(ps, n)
  {
    if ps == [] then []
    else if ps[0].0 == name then RemoveParam(ps[1..], name)
    else [ps[0]] + RemoveParam(ps[1..], name)
  }

  /**
   * `URLSearchParams.set`: the first pair under `name` takes the value and any later ones are
   * dropped; a new name is appended. A pair at the front under another name stays at the front.
   */
  function SetParam(ps: Params, name: string, value: string): (r: Params)
    ensures ParamGet(r, name) == Some(value)
    ensures forall n :: n != name ==> ParamGet(r, n) == ParamGet(ps, n)
    ensures ps != [] && ps[0].0 != name ==> r != [] && r[0] == ps[0]
    ensures r != []
  {
    if ps == [] then [(name, value)]
    else if ps[0].0 == name then [(name, value)] + RemoveParam(ps[1..], name)
    else [ps[0]] + SetParam(ps[1..], name, value)
  }

  /**
   * The text a filter value contributes, or `None` when it is skipped: undefined, the empty
   * string and an empty list are skipped, a list gives its first element, anything else its
   * `toString`.
   */
  function ParamText(v: Value): Option<string> {
    match v
    case Undefined => None
    case Str(s) => if s == "" then None else Some(s)
    case Num(n) => Some(IntToString(n))
    case NaN => Some("NaN")
    case List(items) => if items == [] then None else Some(items[0])
  }

  /** One `forEach` step over an `Object.entries` pair. */
  function AddEntry(ps: Params, entry: (string, Value)): Params {
    match ParamText(entry.1)
    case Some(text) => SetParam(ps, entry.0, text)
    case None => ps
  }

  /** The entries added in order, as the `forEach` does. */
  function AddEntries(ps: Params, entries: JsObject): Params
    decreases entries
  {
    if entries == [] then ps else AddEntries(AddEntry(ps, entries[0]), entries[1..])
  }

  /** The parameters `handleSubmit` builds: `type` first, then the filter entries. */
  function SearchQuery(t: SearchType, filters: JsObject): Params {
    AddEntries([("type", SearchTypeName(t))], filters)
  }

  /** `handleSubmit`'s loop over the filter entries. */
  method BuildSearchParams(t: SearchType, filters: JsObject) returns (ps: Params)
    ensures ps == SearchQuery(t, filters)
  {
    ps := [("type", SearchTypeName(t))];
    var i := 0;
    while i < |filters|
      invariant 0 <= i <= |filters|
      invariant AddEntries(ps, filters[i..]) == SearchQuery(t, filters)
    {
      assert filters[i..][1..] == filters[i + 1..];
      ps := AddEntry(ps, filters[i]);
      i := i + 1;
    }
  }

  /** Entries under names other than the front pair's never move it. */
  lemma {:induction false} AddEntriesKeepsFront(ps: Params, entries: JsObject)
    requires ps != [] && ps[0].0 !in Keys(entries)
    ensures AddEntries(ps, entries) != [] && AddEntries(ps, entries)[0] == ps[0]
    decreases entries
  {
    if entries != [] {
      var next := AddEntry(ps, entries[0]);
      assert next != [] && next[0] == ps[0];
      AddEntriesKeepsFront(next, entries[1..]);
    }
  }

  /**
   * For a filter record (whose keys are distinct), each name reads back as the text of its
   * filter value, or as before when that value is skipped or absent.
   */
  lemma {:induction false} AddEntriesGet(ps: Params, entries: JsObject, name: string)
    requires DistinctKeys(entries)
    ensures ParamGet(AddEntries(ps, entries), name)
      == if ParamText(Get(entries, name)).Some? then ParamText(Get(entries, name)) else ParamGet(ps, name)
    decreases entries
  {
    if entries == [] {
    } else {
      var next := AddEntry(ps, entries[0]);
      AddEntriesGet(next, entries[1..], name);
      if entries[0].0 == name {
        GetMissing(entries[1..], name);
      }
    }
  }

  /**
   * The submitted query: `type` is the first parameter; every other filter appears under its own
   * name exactly when its value is not skipped, with that value's text.
   */
  lemma SearchQueryShape(t: SearchType, filters: JsObject, name: string)
    requires DistinctKeys(filters) && "type" !in Keys(filters)
    ensures SearchQuery(t, filters) != [] && SearchQuery(t, filters)[0] == ("type", SearchTypeName(t))
    ensures name != "type" ==> ParamGet(SearchQuery(t, filters), name) == ParamText(Get(filters, name))
  {
    AddEntriesKeepsFront([("type", SearchTypeName(t))], filters);
    AddEntriesGet([("type", SearchTypeName(t))], filters, name);
  }

  /** `name=value` pairs joined by `&`; percent-encoding is not modelled. */
  function QueryString(ps: Params): string {
    if ps == [] then ""
    else if |ps| == 1 then ps[0].0 + "=" + ps[0].1
    else ps[0].0 + "=" + ps[0].1 + "&" + QueryString(ps[1..])
  }

  /** The location a submit without a search callback navigates to. */
  function SearchLocation(t: SearchType, filters: JsObject): (location: string)
    ensures ScrollToTop.IsSearchPage(location)
  {
    var location := "/search?" + QueryString(SearchQuery(t, filters));
    assert location[..8] == "/search?";
    location
  }

  // ---------------------------------------------------------------------------
  // The form
  // ---------------------------------------------------------------------------

  class SearchFormState {
    var filters: JsObject
    var searchType: SearchType
    var location: string
    /** The filter records handed to the search callback, in order. */
    var searches: seq<JsObject>
    /** Whether the page supplied an `onSearch` callback. */
    const hasOnSearch: bool

    constructor (location: string, hasOnSearch: bool)
      ensures filters == [] && searchType == Trucks && searches == []
      ensures this.location == location && this.hasOnSearch == hasOnSearch
    {
      filters := [];
      searchType := Trucks;
      this.location := location;
      searches := [];
      this.hasOnSearch := hasOnSearch;
    }

    /** The Trucks / Trailers toggle. */
    method SetSearchType(t: SearchType)
      modifies this
      ensures searchType == t
      ensures filters == old(filters) && location == old(location) && searches == old(searches)
    {
      searchType := t;
    }

    /** `handleFiltersChange`: the record is replaced, and a search page is told at once. */
    method ChangeFilters(newFilters: JsObject)
      modifies this
      ensures filters == newFilters
      ensures searches == old(searches) + (if hasOnSearch then [newFilters] else [])
      ensures searchType == old(searchType) && location == old(location)
    {
      filters := newFilters;
      if hasOnSearch {
        searches := searches + [newFilters];
      }
    }

    /** A select's `onChange`. */
    method Select(c: Control, choice: string)
      modifies this
      ensures filters == ApplyChoice(old(filters), c, choice)
      ensures Display(filters, c) == Shown(c, choice)
      ensures searches == old(searches) + (if hasOnSearch then [filters] else [])
      ensures searchType == old(searchType) && location == old(location)
    {
      SelectRoundTrip(filters, c, choice);
      ChangeFilters(ApplyChoice(filters, c, choice));
    }

    /** `handleSubmit`: the current filters go to the callback, or the page navigates to the search URL. */
    method Submit()
      modifies this
      ensures hasOnSearch ==> searches == old(searches) + [filters] && location == old(location)
      ensures !hasOnSearch ==>
        location == SearchLocation(searchType, filters) && searches == old(searches)
        && ScrollToTop.IsSearchPage(location)
      ensures filters == old(filters) && searchType == old(searchType)
    {
      if hasOnSearch {
        searches := searches + [filters];
      } else {
        var ps := BuildSearchParams(searchType, filters);
        location := "/search?" + QueryString(ps);
      }
    }
  }
}
