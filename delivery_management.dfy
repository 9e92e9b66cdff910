/** The delivery screen (src/components/Deliveries/DeliveryManagement.tsx): the delivery filter,
    the status cards and the status, priority and risk colouring. */
module DeliveryManagement {
  import opened Text
  import Seqs
  import Bands
  import opened Selection
  import opened DeliverySlice

  /** The search box matches the tracking number, the pickup or the delivery location. */
  predicate MatchesSearch(d: Delivery, term: string)
  {
    FieldMatches(d.trackingNumber, term) || FieldMatches(d.pickupLocation, term) || FieldMatches(d.deliveryLocation, term)
  }

  /** The `filteredDeliveries` callback. */
  predicate Shown(d: Delivery, term: string, statusFilter: string, priorityFilter: string)
  {
    MatchesSearch(d, term) && AllOrEquals(statusFilter, d.status) && AllOrEquals(priorityFilter, d.priority)
  }

  /** `filteredDeliveries`: the deliveries the screen lists, in store order. */
  function FilteredDeliveries(deliveries: seq<Delivery>, term: string, statusFilter: string, priorityFilter: string)
    : (r: seq<Delivery>)
    ensures |r| == Seqs.Count(deliveries, (d: Delivery) => Shown(d, term, statusFilter, priorityFilter))
    ensures Seqs.Sublist(r, deliveries)
    ensures forall i :: 0 <= i < |r| ==> Shown(r[i], term, statusFilter, priorityFilter)
    ensures forall i :: 0 <= i < |deliveries| && Shown(deliveries[i], term, statusFilter, priorityFilter) ==> deliveries[i] in r
  {
    Seqs.Filter(deliveries, (d: Delivery) => Shown(d, term, statusFilter, priorityFilter))
  }

  /** Narrowing the status select never lists a delivery that 'all' would not list. */
  lemma StatusFilterNarrows(deliveries: seq<Delivery>, term: string, status: string, priorityFilter: string)
    ensures forall i :: 0 <= i < |FilteredDeliveries(deliveries, term, status, priorityFilter)| ==>
              FilteredDeliveries(deliveries, term, status, priorityFilter)[i] in FilteredDeliveries(deliveries, term, "all", priorityFilter)
  {
    var narrow := FilteredDeliveries(deliveries, term, status, priorityFilter);
    var wide := FilteredDeliveries(deliveries, term, "all", priorityFilter);
    forall i | 0 <= i < |narrow|
      ensures narrow[i] in wide
    {
      var j :| 0 <= j < |deliveries| && deliveries[j] == narrow[i];
      assert Shown(deliveries[j], term, "all", priorityFilter);
    }
  }

  function StatusColor(status: string): (c: string)
    ensures c == Bands.GrayBadge <==> status !in ["delivered", "in_transit", "pending", "failed"]
    ensures status == "delivered" ==> c == Bands.GreenBadge
    ensures status == "failed" ==> c == Bands.RedBadge
  {
    match status
    case "delivered" => Bands.GreenBadge
    case "in_transit" => Bands.BlueBadge
    case "pending" => Bands.YellowBadge
    case "failed" => Bands.RedBadge
    case _ => Bands.GrayBadge
  }

  function PriorityColor(priority: string): (c: string)
    ensures c == Bands.GrayBadge <==> priority !in ["urgent", "high", "medium", "low"]
    ensures c == Bands.RedBadge <==> priority == "urgent"
  {
    match priority
    case "urgent" => Bands.RedBadge
    case "high" => Bands.OrangeBadge
    case "medium" => Bands.YellowBadge
    case "low" => Bands.GreenBadge
    case _ => Bands.GrayBadge
  }

  /** `getRiskColor`, used for both the delay risk and the traffic impact: at most 10 green,
      at most 30 yellow, above red. */
  function RiskColor(risk: real): (c: string)
    ensures c == "text-green-600" <==> risk <= 10.0
    ensures c == "text-yellow-600" <==> 10.0 < risk <= 30.0
    ensures c == "text-red-600" <==> 30.0 < risk
  {
    Bands.TextClass(Bands.AtMost(risk, 10.0, 30.0))
  }

  /** The colour of the Delay Risk and Traffic Impact figures of one delivery. */
  function PredictionColors(d: Delivery): (c: (string, string))
    ensures c.0 == "text-red-600" <==> d.aiPredictions.delayRisk > 30.0
    ensures c.1 == "text-red-600" <==> d.aiPredictions.trafficImpact > 30.0
  {
    (RiskColor(d.aiPredictions.delayRisk), RiskColor(d.aiPredictions.trafficImpact))
  }

  predicate InTransit(d: Delivery) { d.status == "in_transit" }
  predicate Delivered(d: Delivery) { d.status == "delivered" }
  predicate Pending(d: Delivery) { d.status == "pending" }

  /** The four cards: total, in transit, delivered and pending. */
  function StatusCards(deliveries: seq<Delivery>): (cards: (nat, nat, nat, nat))
    ensures cards.0 == |deliveries|
    ensures cards.1 == Seqs.Count(deliveries, InTransit)
    ensures cards.2 == Seqs.Count(deliveries, Delivered)
    ensures cards.3 == Seqs.Count(deliveries, Pending)
    ensures cards.1 + cards.2 + cards.3 <= cards.0
  {
    var cards := (|deliveries|,
                  |Seqs.Filter(deliveries, InTransit)|,
                  |Seqs.Filter(deliveries, Delivered)|,
                  |Seqs.Filter(deliveries, Pending)|);
    Seqs.CountExclusive(deliveries, InTransit, Delivered, Pending);
    cards
  }
}
