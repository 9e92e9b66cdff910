/** The maintenance screen (src/components/Maintenance/MaintenanceManagement.tsx): the record
    filter, the status, priority and risk colouring and the Pending card. */
module MaintenanceManagement {
  import opened Text
  import Seqs
  import Bands
  import opened Selection
  import opened MaintenanceSlice

  /** The search box matches the vehicle number or the description. */
  predicate MatchesSearch(r: MaintenanceRecord, term: string)
  {
    FieldMatches(r.vehicleNumber, term) || FieldMatches(r.description, term)
  }

  /** The `filteredRecords` callback. */
  predicate Shown(r: MaintenanceRecord, term: string, statusFilter: string, priorityFilter: string)
  {
    MatchesSearch(r, term) && AllOrEquals(statusFilter, r.status) && AllOrEquals(priorityFilter, r.priority)
  }

  /** `filteredRecords`: the records the screen lists, in store order. */
  function FilteredRecords(records: seq<MaintenanceRecord>, term: string, statusFilter: string, priorityFilter: string)
    : (r: seq<MaintenanceRecord>)
    ensures |r| == Seqs.Count(records, (m: MaintenanceRecord) => Shown(m, term, statusFilter, priorityFilter))
    ensures Seqs.Sublist(r, records)
    ensures forall i :: 0 <= i < |r| ==> Shown(r[i], term, statusFilter, priorityFilter)
    ensures forall i :: 0 <= i < |records| && Shown(records[i], term, statusFilter, priorityFilter) ==> records[i] in r
  {
    Seqs.Filter(records, (m: MaintenanceRecord) => Shown(m, term, statusFilter, priorityFilter))
  }

  /** With the initial empty search and both selects on 'all' every record is listed. */
  lemma UnfilteredShowsAll(records: seq<MaintenanceRecord>)
    ensures FilteredRecords(records, "", "all", "all") == records
  {
    forall i | 0 <= i < |records|
      ensures Shown(records[i], "", "all", "all")
    {
      EmptyTermMatches(records[i].vehicleNumber);
    }
    Seqs.FilterKeepsAll(records, (m: MaintenanceRecord) => Shown(m, "", "all", "all"));
  }

  function StatusColor(status: string): (c: string)
    ensures c == Bands.GrayBadge <==> status !in ["completed", "in_progress", "pending", "overdue"]
    ensures status == "completed" ==> c == Bands.GreenBadge
    ensures status == "overdue" ==> c == Bands.RedBadge
  {
    match status
    case "completed" => Bands.GreenBadge
    case "in_progress" => Bands.BlueBadge
    case "pending" => Bands.YellowBadge
    case "overdue" => Bands.RedBadge
    case _ => Bands.GrayBadge
  }

  function PriorityColor(priority: string): (c: string)
    ensures c == Bands.GrayBadge <==> priority !in ["critical", "high", "medium", "low"]
    ensures priority == "critical" ==> c == Bands.RedBadge
    ensures priority == "low" ==> c == Bands.GreenBadge
  {
    match priority
    case "critical" => Bands.RedBadge
    case "high" => Bands.OrangeBadge
    case "medium" => Bands.YellowBadge
    case "low" => Bands.GreenBadge
    case _ => Bands.GrayBadge
  }

  /** Each listed priority has a colour of its own: the badge tells the priority apart. */
  lemma PriorityColorDistinct(p: string, q: string)
    requires p in ["critical", "high", "medium", "low"] && q in ["critical", "high", "medium", "low"]
    requires p != q
    ensures PriorityColor(p) != PriorityColor(q)
  {
  }

  /** `getRiskColor` on the failure risk: at most 30 green, at most 60 yellow, above red. */
  function RiskColor(risk: real): (c: string)
    ensures c == "text-green-600" <==> risk <= 30.0
    ensures c == "text-yellow-600" <==> 30.0 < risk <= 60.0
    ensures c == "text-red-600" <==> 60.0 < risk
  {
    Bands.TextClass(Bands.AtMost(risk, 30.0, 60.0))
  }

  predicate IsPending(r: MaintenanceRecord)
  {
    r.status == "pending"
  }

  /** The Pending card: `records.filter(r => r.status === 'pending').length`. */
  function PendingCount(records: seq<MaintenanceRecord>): (n: nat)
    ensures n <= |records|
    ensures n == Seqs.Count(records, IsPending)
  {
    |Seqs.Filter(records, IsPending)|
  }

  /** The Pending card counts exactly the rows the list shows when the status select is set to
      'pending' and nothing else is filtered. */
  lemma PendingCountMatchesFilter(records: seq<MaintenanceRecord>)
    ensures PendingCount(records) == |FilteredRecords(records, "", "pending", "all")|
  {
    forall i | 0 <= i < |records|
      ensures IsPending(records[i]) == Shown(records[i], "", "pending", "all")
    {
      EmptyTermMatches(records[i].vehicleNumber);
    }
    Seqs.FilterExt(records, IsPending, (m: MaintenanceRecord) => Shown(m, "", "pending", "all"));
  }
}
