/**
 * The truck results sidebar: a local copy of the filter record edited by checkboxes, inputs
 * and selects. Type, condition and state changes are pushed to the page at once; price, year,
 * mileage and manufacturer edits stay local until "Apply Filters".
 */
module FiltersSidebar {
  import opened Wrappers
  import opened JsValues

  // ---------------------------------------------------------------------------
  // Checkbox lists
  // ---------------------------------------------------------------------------

  /** `filters.field || []`: the current list, or an empty one when the field is unset. */
  function CurrentList(v: Value): seq<string> {
    if v.List? then v.items else []
  }

  /** `names.filter(m => m !== name)`: every occurrence of `name` dropped, the rest kept. */
  function Without(names: seq<string>, name: string): (r: seq<string>)
    ensures name !in r
    ensures multiset(r) == multiset(names)[name := 0]
    ensures |r| <= |names|
  {
    if names == [] then []
    else
      var rest := Without(names[1..], name);
      assert names == [names[0]] + names[1..];
      if names[0] == name then rest else [names[0]] + rest
  }

  /** Dropping a name that is not there changes nothing. */
  lemma {:induction false} WithoutAbsent(names: seq<string>, name: string)
    requires name !in names
    ensures Without(names, name) == names
  {
    if names != [] {
      WithoutAbsent(names[1..], name);
    }
  }

  /** A checkbox toggle on a list: checking appends (duplicates are possible), unchecking drops every copy. */
  function ToggledList(current: seq<string>, name: string, checked: bool): seq<string> {
    if checked then current + [name] else Without(current, name)
  }

  /** Checking a box and then unchecking it leaves the list as it was, when the name was not on it. */
  lemma CheckThenUncheck(current: seq<string>, name: string)
    requires name !in current
    ensures ToggledList(ToggledList(current, name, true), name, false) == current
  {
    WithoutAbsent(current, name);
    WithoutAppended(current, name);
  }

  lemma {:induction false} WithoutAppended(names: seq<string>, name: string)
    ensures Without(names + [name], name) == Without(names, name)
  {
    if names == [] {
      assert Without([name], name) == Without([], name);
    } else {
      assert (names + [name])[1..] == names[1..] + [name];
      WithoutAppended(names[1..], name);
    }
  }

  /** `field?.includes(name) || false`: whether a list checkbox shows as checked. */
  predicate BoxChecked(f: JsObject, field: string, name: string) {
    var v := Get(f, field);
    v.List? && name in v.items
  }

  /** The chassis and body manufacturer toggles. */
  function ToggleManufacturer(f: JsObject, field: string, name: string, checked: bool): (r: JsObject)
    ensures BoxChecked(r, field, name) <==> checked
    ensures forall k :: k != field ==> Get(r, k) == Get(f, k)
    ensures checked ==> multiset(CurrentList(Get(r, field))) == multiset(CurrentList(Get(f, field))) + multiset{name}
  {
    Put(f, field, ToggledValue(Get(f, field), name, checked))
  }

  /** The list a toggle stores, given the field's current value. */
  function ToggledValue(v: Value, name: string, checked: bool): Value {
    List(ToggledList(CurrentList(v), name, checked))
  }

  // ---------------------------------------------------------------------------
  // Mileage
  // ---------------------------------------------------------------------------

  datatype MileageOption = Under25K | From25KTo50K | From50KTo100K | Over100K

  function MileageOptionValue(o: MileageOption): string {
    match o
    case Under25K => "25000"
    case From25KTo50K => "50000"
    case From50KTo100K => "100000"
    case Over100K => "999999"
  }

  /** `handleMileageChange`: unchecking clears the cap; checking a known range sets its cap, anything else clears it. */
  function MileageChange(f: JsObject, range: string, checked: bool): (r: JsObject)
    ensures forall k :: k != "mileageMax" ==> Get(r, k) == Get(f, k)
  {
    Put(f, "mileageMax", MileageCapFor(range, checked))
  }

  function MileageCapFor(range: string, checked: bool): Value {
    if !checked then Undefined
    else if range == "25000" then Num(25000)
    else if range == "50000" then Num(50000)
    else if range == "100000" then Num(100000)
    else Undefined
  }

  /** Whether a mileage box shows as checked: the three caps by equality, "Over 100,000" when there is no cap or a larger one. */
  predicate MileageChecked(f: JsObject, o: MileageOption) {
    var v := Get(f, "mileageMax");
    match o
    case Under25K => v == Num(25000)
    case From25KTo50K => v == Num(50000)
    case From50KTo100K => v == Num(100000)
    case Over100K => v == Undefined || (v.Num? && v.n > 100000)
  }

  /** At most one mileage box is ever checked. */
  lemma MileageBoxesExclusive(f: JsObject, o: MileageOption, p: MileageOption)
    requires MileageChecked(f, o) && MileageChecked(f, p)
    ensures o == p
  {
  }

  /**
   * Checking a box shows exactly that box checked. Unchecking any box clears the cap, which
   * shows "Over 100,000" as checked.
   */
  lemma MileageChangeShows(f: JsObject, o: MileageOption, checked: bool, p: MileageOption)
    ensures checked ==> (MileageChecked(MileageChange(f, MileageOptionValue(o), true), p) <==> p == o)
    ensures !checked ==> (MileageChecked(MileageChange(f, MileageOptionValue(o), false), p) <==> p == Over100K)
  {
  }

  // ---------------------------------------------------------------------------
  // Number inputs and year selects
  // ---------------------------------------------------------------------------

  /** A number input's `onChange`: empty text clears the field, other text is `parseInt`ed (possibly to NaN). */
  function NumberInput(text: string): Value {
    if text == "" then Undefined
    else match ParseInt(text)
      case Some(n) => Num(n)
      case None => NaN
  }

  /** A number input's `value`: `field || ""`. */
  function NumberShown(v: Value): string {
    if v.Num? && v.n != 0 then IntToString(v.n) else ""
  }

  /** Typing a number's own text stores that number, and the input shows the same text; zero shows as empty. */
  lemma NumberInputRoundTrip(n: int)
    ensures NumberInput(IntToString(n)) == Num(n)
    ensures NumberShown(NumberInput(IntToString(n))) == (if n == 0 then "" else IntToString(n))
  {
    ParseIntOfIntToString(n);
  }

  /** A year select's `onChange`: "any" clears the bound, any other option is `parseInt`ed. */
  function YearChoice(choice: string): Value {
    if choice == "any" then Undefined
    else match ParseInt(choice)
      case Some(n) => Num(n)
      case None => NaN
  }

  /** A year select's `value`: the bound's text when it is truthy, else "any". */
  function YearShown(v: Value): string {
    if v.Num? && v.n != 0 then IntToString(v.n) else "any"
  }

  /** Picking a year option shows that option again. */
  lemma YearRoundTrip(year: int)
    requires year != 0
    ensures YearShown(YearChoice(IntToString(year))) == IntToString(year)
  {
    ParseIntOfIntToString(year);
    assert IntToString(year) != "any" by {
      assert 'a' in "any";
      if IntToString(year) == "any" {
        IntToStringChars(year, 'a');
      }
    }
  }

  // ---------------------------------------------------------------------------
  // The sidebar
  // ---------------------------------------------------------------------------

  /** The sidebar's controls and what was entered in each. */
  datatype Edit =
    | TruckType(choice: string)
    | Condition(choice: string)
    | PriceMin(text: string)
    | PriceMax(text: string)
    | YearMin(choice: string)
    | YearMax(choice: string)
    | Mileage(range: string, checked: bool)
    | ChassisManufacturer(name: string, checked: bool)
    | BodyManufacturer(name: string, checked: bool)
    | State(choice: string)

  /** The one filter field an edit writes. */
  function EditField(e: Edit): string {
    match e
    case TruckType(_) => "truckType"
    case Condition(_) => "condition"
    case PriceMin(_) => "priceMin"
    case PriceMax(_) => "priceMax"
    case YearMin(_) => "yearMin"
    case YearMax(_) => "yearMax"
    case Mileage(_, _) => "mileageMax"
    case ChassisManufacturer(_, _) => "chassisManufacturer"
    case BodyManufacturer(_, _) => "bodyManufacturer"
    case State(_) => "state"
  }

  /** The selects that push their change to the page at once. */
  predicate Immediate(e: Edit) {
    e.TruckType? || e.Condition? || e.State?
  }

  /** The value an edit writes into its field, given the field's current value. */
  function EditValue(current: Value, e: Edit): Value {
    match e
    case TruckType(c) => if c == "all" then Undefined else Str(c)
    case Condition(c) => if c == "" || c == "all" then Undefined else Str(c)
    case PriceMin(t) => NumberInput(t)
    case PriceMax(t) => NumberInput(t)
    case YearMin(c) => YearChoice(c)
    case YearMax(c) => YearChoice(c)
    case Mileage(range, checked) => MileageCapFor(range, checked)
    case ChassisManufacturer(m, checked) => ToggledValue(current, m, checked)
    case BodyManufacturer(m, checked) => ToggledValue(current, m, checked)
    case State(c) => if c == "" then Undefined else Str(c)
  }

  /** The new local record after an edit; no field other than the edit's own changes. */
  function ApplyEdit(f: JsObject, e: Edit): (r: JsObject)
    ensures forall k :: k != EditField(e) ==> Get(r, k) == Get(f, k)
    ensures e.Mileage? ==> r == MileageChange(f, e.range, e.checked)
    ensures e.ChassisManufacturer? ==> r == ToggleManufacturer(f, "chassisManufacturer", e.name, e.checked)
    ensures e.BodyManufacturer? ==> r == ToggleManufacturer(f, "bodyManufacturer", e.name, e.checked)
  {
    Put(f, EditField(e), EditValue(Get(f, EditField(e)), e))
  }

  class FiltersSidebarState {
    var localFilters: JsObject
    /** The records passed to `onFiltersChange`, in order. */
    var emitted: seq<JsObject>

    constructor (filters: JsObject)
      ensures localFilters == filters && emitted == []
    {
      localFilters := filters;
      emitted := [];
    }

    /** The page passed a new filter record: the local copy is replaced by it. */
    method ReceiveFilters(filters: JsObject)
      modifies this
      ensures localFilters == filters && emitted == old(emitted)
    {
      localFilters := filters;
    }

    /** A control's change handler. */
    method Handle(e: Edit)
      modifies this
      ensures localFilters == ApplyEdit(old(localFilters), e)
      ensures emitted == old(emitted) + (if Immediate(e) then [localFilters] else [])
    {
      localFilters := ApplyEdit(localFilters, e);
      if Immediate(e) {
        emitted := emitted + [localFilters];
      }
    }

    /** "Apply Filters": the local record goes to the page. */
    method Apply()
      modifies this
      ensures localFilters == old(localFilters) && emitted == old(emitted) + [localFilters]
    {
      emitted := emitted + [localFilters];
    }
  }
}
