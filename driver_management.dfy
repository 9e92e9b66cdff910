/** The driver screen (src/components/Drivers/DriverManagement.tsx): the driver filter, the
    risk and fatigue colouring and the high-fatigue alert. */
module DriverManagement {
  import opened Text
  import Seqs
  import Bands
  import opened Selection
  import opened DriverSlice

  /** `${driver.firstName} ${driver.lastName}` */
  function FullName(d: Driver): (name: string)
    ensures |name| == |d.firstName| + 1 + |d.lastName|
    ensures name[..|d.firstName|] == d.firstName && name[|d.firstName|] == ' '
    ensures name[|d.firstName| + 1..] == d.lastName
  {
    d.firstName + " " + d.lastName
  }

  /** The search box matches the full name, the e-mail or the licence number. */
  predicate MatchesSearch(d: Driver, term: string)
  {
    FieldMatches(FullName(d), term) || FieldMatches(d.email, term) || FieldMatches(d.licenseNumber, term)
  }

  /** The `filteredDrivers` callback: only the status is filtered. */
  predicate Shown(d: Driver, term: string, statusFilter: string)
  {
    MatchesSearch(d, term) && AllOrEquals(statusFilter, d.status)
  }

  /** `filteredDrivers`: the drivers the screen lists, in store order. */
  function FilteredDrivers(drivers: seq<Driver>, term: string, statusFilter: string): (r: seq<Driver>)
    ensures |r| == Seqs.Count(drivers, (d: Driver) => Shown(d, term, statusFilter))
    ensures Seqs.Sublist(r, drivers)
    ensures forall i :: 0 <= i < |r| ==> Shown(r[i], term, statusFilter)
    ensures forall i :: 0 <= i < |drivers| && Shown(drivers[i], term, statusFilter) ==> drivers[i] in r
  {
    Seqs.Filter(drivers, (d: Driver) => Shown(d, term, statusFilter))
  }

  /** A search for a driver's full name, in any case, finds that driver. */
  lemma FullNameFindsDriver(d: Driver, term: string)
    requires Lower(term) == Lower(FullName(d))
    ensures MatchesSearch(d, term)
  {
    assert OccursAt(Lower(FullName(d)), Lower(term), 0);
    FieldMatchesIff(FullName(d), term);
  }

  /** `getRiskColor` on the risk assessment: at most 10 green, at most 25 yellow, above red. */
  function RiskColor(risk: real): (c: string)
    ensures c == "text-green-600" <==> risk <= 10.0
    ensures c == "text-yellow-600" <==> 10.0 < risk <= 25.0
    ensures c == "text-red-600" <==> 25.0 < risk
  {
    Bands.TextClass(Bands.AtMost(risk, 10.0, 25.0))
  }

  /** `getFatigueColor`: at most 20 green, at most 50 yellow, above red. */
  function FatigueColor(fatigue: real): (c: string)
    ensures c == "text-green-600" <==> fatigue <= 20.0
    ensures c == "text-yellow-600" <==> 20.0 < fatigue <= 50.0
    ensures c == "text-red-600" <==> 50.0 < fatigue
  {
    Bands.TextClass(Bands.AtMost(fatigue, 20.0, 50.0))
  }

  /** The "High fatigue detected" banner. */
  predicate HighFatigueAlert(d: Driver)
  {
    d.aiMonitoring.fatigueLevel > 50.0
  }

  /** The banner is shown exactly for the drivers whose fatigue figure is coloured red. */
  lemma HighFatigueIffRed(d: Driver)
    ensures HighFatigueAlert(d) <==> FatigueColor(d.aiMonitoring.fatigueLevel) == "text-red-600"
  {
  }
}
