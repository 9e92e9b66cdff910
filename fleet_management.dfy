/** The fleet screen (src/components/Fleet/FleetManagement.tsx): the vehicle list filter, the
    status and type checkboxes that feed `setFilters`, and the breakdown-risk colouring. */
module FleetManagement {
  import opened Js
  import opened Text
  import Seqs
  import Bands
  import opened Selection
  import opened FleetSlice

  /** The search box matches the registration number, the make or the model. */
  predicate MatchesSearch(v: Vehicle, term: string)
  {
    FieldMatches(v.registrationNumber, term) ||
    FieldMatches(v.specifications.make, term) ||
    FieldMatches(v.specifications.model, term)
  }

  /** The `filteredVehicles` callback: search, status list and type list must all admit the vehicle. */
  predicate Shown(v: Vehicle, term: string, filters: Filters)
  {
    MatchesSearch(v, term) && ListAdmits(filters.status, v.status) && ListAdmits(filters.vehicleType, v.vehicleType)
  }

  /** `filteredVehicles`: the vehicles the screen lists, in store order. */
  function FilteredVehicles(vehicles: seq<Vehicle>, term: string, filters: Filters): (r: seq<Vehicle>)
    ensures |r| == Seqs.Count(vehicles, (v: Vehicle) => Shown(v, term, filters))
    ensures Seqs.Sublist(r, vehicles)
    ensures forall i :: 0 <= i < |r| ==> Shown(r[i], term, filters)
    ensures forall i :: 0 <= i < |vehicles| && Shown(vehicles[i], term, filters) ==> vehicles[i] in r
  {
    Seqs.Filter(vehicles, (v: Vehicle) => Shown(v, term, filters))
  }

  /** With the initial empty search and empty filter lists every vehicle is listed, in order. */
  lemma UnfilteredShowsAll(vehicles: seq<Vehicle>)
    ensures FilteredVehicles(vehicles, "", Filters([], [])) == vehicles
  {
    forall i | 0 <= i < |vehicles|
      ensures Shown(vehicles[i], "", Filters([], []))
    {
      EmptyTermMatches(vehicles[i].registrationNumber);
    }
    Seqs.FilterKeepsAll(vehicles, (v: Vehicle) => Shown(v, "", Filters([], [])));
  }

  /** The listed vehicles do not depend on the case of the search term. */
  lemma FilteredVehiclesIgnoresCase(vehicles: seq<Vehicle>, term: string, filters: Filters)
    ensures FilteredVehicles(vehicles, term, filters) == FilteredVehicles(vehicles, Lower(term), filters)
  {
    LowerIdempotent(term);
    Seqs.FilterExt(vehicles, (v: Vehicle) => Shown(v, term, filters), (v: Vehicle) => Shown(v, Lower(term), filters));
  }

  /** A checkbox's `onChange`: checking appends the value, unchecking removes every occurrence of it. */
  function ToggleChecked(list: seq<string>, value: string, checked: bool): (r: seq<string>)
    ensures checked ==> |r| == |list| + 1 && r[..|list|] == list && r[|list|] == value
    ensures !checked ==> value !in r && Seqs.Sublist(r, list)
    ensures !checked ==> |r| == Seqs.Count(list, (s: string) => s != value)
    ensures !checked ==> forall i :: 0 <= i < |list| && list[i] != value ==> list[i] in r
  {
    if checked then list + [value]
    else
      var r := Seqs.Filter(list, (s: string) => s != value);
      assert forall i :: 0 <= i < |r| ==> r[i] != value;
      r
  }

  /** Checking a box and unchecking it again gives the filter list back. */
  lemma CheckThenUncheck(list: seq<string>, value: string)
    requires value !in list
    ensures ToggleChecked(ToggleChecked(list, value, true), value, false) == list
  {
    var p := (s: string) => s != value;
    Seqs.FilterAppend(list, [value], p);
    Seqs.FilterKeepsAll(list, p);
    assert Seqs.Filter([value], p) == [];
  }

  /** The payload a status checkbox dispatches: `{ status: newStatus }`. */
  function StatusCheckbox(filters: Filters, status: string, checked: bool): (p: FiltersPatch)
    ensures p.vehicleType == None && p.status.Some?
    ensures p.status.Some? ==> (status in p.status.value <==> checked)
  {
    FiltersPatch(Some(ToggleChecked(filters.status, status, checked)), None)
  }

  /** The payload a type checkbox dispatches: `{ type: newType }`. */
  function TypeCheckbox(filters: Filters, vehicleType: string, checked: bool): (p: FiltersPatch)
    ensures p.status == None && p.vehicleType.Some?
    ensures p.vehicleType.Some? ==> (vehicleType in p.vehicleType.value <==> checked)
  {
    FiltersPatch(None, Some(ToggleChecked(filters.vehicleType, vehicleType, checked)))
  }

  /** After a status checkbox is dispatched the box shows its new state and the type list is kept. */
  lemma StatusCheckboxEffect(filters: Filters, status: string, checked: bool)
    ensures var f := MergeFilters(filters, StatusCheckbox(filters, status, checked));
            (status in f.status <==> checked) && f.vehicleType == filters.vehicleType
  {
    var f := MergeFilters(filters, StatusCheckbox(filters, status, checked));
    if checked {
      assert f.status[|filters.status|] == status;
    }
  }

  /** After a type checkbox is dispatched the box shows its new state and the status list is kept. */
  lemma TypeCheckboxEffect(filters: Filters, vehicleType: string, checked: bool)
    ensures var f := MergeFilters(filters, TypeCheckbox(filters, vehicleType, checked));
            (vehicleType in f.vehicleType <==> checked) && f.status == filters.status
  {
    var f := MergeFilters(filters, TypeCheckbox(filters, vehicleType, checked));
    if checked {
      assert f.vehicleType[|filters.vehicleType|] == vehicleType;
    }
  }

  /** `getRiskColor` on the breakdown risk: at most 30 green, at most 60 yellow, above red. */
  function RiskColor(risk: real): (c: string)
    ensures c == "text-green-600" <==> risk <= 30.0
    ensures c == "text-yellow-600" <==> 30.0 < risk <= 60.0
    ensures c == "text-red-600" <==> 60.0 < risk
  {
    Bands.TextClass(Bands.AtMost(risk, 30.0, 60.0))
  }
}
