/**
 * The trailer results sidebar. Like the truck sidebar it edits a local copy of the filter
 * record, but the price and year inputs push the record to the page when they lose focus, a
 * manufacturer list that becomes empty is unset, and a Clear button empties everything.
 */
module TrailerFiltersSidebar {
  import opened Wrappers
  import opened JsValues
  import FiltersSidebar

  /** A filter value that narrows the search: set, not the empty string, and not an empty list. */
  predicate IsActive(v: Value) {
    v != Undefined && v != Str("") && (v.List? ==> |v.items| > 0)
  }

  /** `hasActiveFilters`: some value of the record is active. */
  function HasActiveFilters(f: JsObject): (r: bool)
    ensures r <==> exists i :: 0 <= i < |f| && IsActive(f[i].1)
  {
    if f == [] then false
    else if IsActive(f[0].1) then true
    else
      var r := HasActiveFilters(f[1..]);
      assert forall i :: 1 <= i < |f| ==> f[i] == f[1..][i - 1];
      r
  }

  /** A field that reads as active makes the record active. */
  lemma {:induction false} ActiveFieldMakesActive(f: JsObject, k: string)
    requires IsActive(Get(f, k))
    ensures HasActiveFilters(f)
  {
    if f[0].0 != k {
      ActiveFieldMakesActive(f[1..], k);
    }
  }

  /**
   * The manufacturer toggle: the list is updated as in the truck sidebar, but an empty result is
   * stored as unset, so no empty list is ever left behind.
   */
  function ToggleManufacturer(f: JsObject, name: string, checked: bool): (r: JsObject)
    ensures forall k :: k != "manufacturer" ==> Get(r, k) == Get(f, k)
    ensures Get(r, "manufacturer") == Undefined || IsActive(Get(r, "manufacturer"))
    ensures FiltersSidebar.BoxChecked(r, "manufacturer", name) <==> checked
  {
    var names := FiltersSidebar.ToggledList(FiltersSidebar.CurrentList(Get(f, "manufacturer")), name, checked);
    Put(f, "manufacturer", if |names| > 0 then List(names) else Undefined)
  }

  /** Checking a manufacturer always leaves the record with an active filter. */
  lemma CheckedManufacturerIsActive(f: JsObject, name: string)
    ensures HasActiveFilters(ToggleManufacturer(f, name, true))
  {
    ActiveFieldMakesActive(ToggleManufacturer(f, name, true), "manufacturer");
  }

  /** The axle select's `value`: `axles?.toString() || "all"`; zero still shows as "0". */
  function AxlesShown(v: Value): string {
    match v
    case Num(n) => IntToString(n)
    case NaN => "NaN"
    case _ => "all"
  }

  /** The axle select's `onChange`: "all" clears the field, an option is `parseInt`ed. */
  function AxlesChoice(choice: string): Value {
    if choice == "all" then Undefined
    else match ParseInt(choice)
      case Some(n) => Num(n)
      case None => NaN
  }

  /** Picking an axle count shows that count again; "all" shows "all". */
  lemma AxlesRoundTrip(n: int)
    ensures AxlesShown(AxlesChoice(IntToString(n))) == IntToString(n)
    ensures AxlesShown(AxlesChoice("all")) == "all"
  {
    ParseIntOfIntToString(n);
    assert 'a' in "all";
    if IntToString(n) == "all" {
      IntToStringChars(n, 'a');
    }
  }

  /** The sidebar's controls and what was entered in each. */
  datatype Edit =
    | TrailerType(choice: string)
    | Condition(choice: string)
    | PriceMin(text: string)
    | PriceMax(text: string)
    | YearMin(text: string)
    | YearMax(text: string)
    | Axles(choice: string)
    | Location(choice: string)
    | Manufacturer(name: string, checked: bool)

  function EditField(e: Edit): string {
    match e
    case TrailerType(_) => "trailerType"
    case Condition(_) => "condition"
    case PriceMin(_) => "priceMin"
    case PriceMax(_) => "priceMax"
    case YearMin(_) => "yearMin"
    case YearMax(_) => "yearMax"
    case Axles(_) => "axles"
    case Location(_) => "location"
    case Manufacturer(_, _) => "manufacturer"
  }

  /** Price and year inputs wait for the blur; every other control pushes at once. */
  predicate Immediate(e: Edit) {
    !(e.PriceMin? || e.PriceMax? || e.YearMin? || e.YearMax?)
  }

  function EditValue(current: Value, e: Edit): Value {
    match e
    case TrailerType(c) => if c == "all" then Undefined else Str(c)
    case Condition(c) => if c == "" || c == "all" then Undefined else Str(c)
    case PriceMin(t) => FiltersSidebar.NumberInput(t)
    case PriceMax(t) => FiltersSidebar.NumberInput(t)
    case YearMin(t) => FiltersSidebar.NumberInput(t)
    case YearMax(t) => FiltersSidebar.NumberInput(t)
    case Axles(c) => AxlesChoice(c)
    case Location(c) => if c == "" then Undefined else Str(c)
    case Manufacturer(m, checked) =>
      var names := FiltersSidebar.ToggledList(FiltersSidebar.CurrentList(current), m, checked);
      if |names| > 0 then List(names) else Undefined
  }

  /** The new local record after an edit; no field other than the edit's own changes. */
  function ApplyEdit(f: JsObject, e: Edit): (r: JsObject)
    ensures forall k :: k != EditField(e) ==> Get(r, k) == Get(f, k)
    ensures e.Manufacturer? ==> r == ToggleManufacturer(f, e.name, e.checked)
  {
    Put(f, EditField(e), EditValue(Get(f, EditField(e)), e))
  }

  class TrailerFiltersSidebarState {
    var localFilters: JsObject
    /** The records passed to `onFiltersChange`, in order. */
    var emitted: seq<JsObject>

    constructor (filters: JsObject)
      ensures localFilters == filters && emitted == []
    {
      localFilters := filters;
      emitted := [];
    }

    /** The page passed a new filter record: the local copy is replaced by it. */
    method ReceiveFilters(filters: JsObject)
      modifies this
      ensures localFilters == filters && emitted == old(emitted)
    {
      localFilters := filters;
    }

    method Handle(e: Edit)
      modifies this
      ensures localFilters == ApplyEdit(old(localFilters), e)
      ensures emitted == old(emitted) + (if Immediate(e) then [localFilters] else [])
    {
      localFilters := ApplyEdit(localFilters, e);
      if Immediate(e) {
        emitted := emitted + [localFilters];
      }
    }

    /** A price or year input lost focus: the local record goes to the page. */
    method Blur()
      modifies this
      ensures localFilters == old(localFilters) && emitted == old(emitted) + [localFilters]
    {
      emitted := emitted + [localFilters];
    }

    /** "Clear": the empty record, locally and for the page; nothing is active any more. */
    method Clear()
      modifies this
      ensures localFilters == [] && emitted == old(emitted) + [[]]
      ensures !HasActiveFilters(localFilters)
    {
      localFilters := [];
      emitted := emitted + [[]];
    }
  }
}
