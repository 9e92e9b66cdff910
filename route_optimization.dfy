/** The route optimisation screen (src/components/Routes/RouteOptimization.tsx): the simulated
    optimisation of one route or of all routes, and the `isOptimizing`/`selectedRoute` flags. */
module RouteOptimization {
  import opened Js
  import Seqs
  import opened RouteSlice

  /** `Math.min(a, b)` */
  function Min(a: real, b: real): (m: real)
    ensures m <= a && m <= b && (m == a || m == b)
  {
    if a <= b then a else b
  }

  /** The optimised copy of a route: 15% shorter, 10% faster and with each AI score raised by a
      fixed step up to its cap (95, 95 and 98). */
  function Optimized(r: Route): (o: Route)
    ensures o.(distance := r.distance, estimatedTime := r.estimatedTime, aiOptimizations := r.aiOptimizations) == r
    ensures o.distance == r.distance * 0.85 && o.estimatedTime == r.estimatedTime * 0.9
    ensures o.aiOptimizations.fuelEfficiency <= 95.0
    ensures o.aiOptimizations.trafficPrediction <= 95.0
    ensures o.aiOptimizations.etaAccuracy <= 98.0
    ensures r.aiOptimizations.fuelEfficiency <= 95.0 ==> o.aiOptimizations.fuelEfficiency >= r.aiOptimizations.fuelEfficiency
    ensures r.aiOptimizations.trafficPrediction <= 95.0 ==> o.aiOptimizations.trafficPrediction >= r.aiOptimizations.trafficPrediction
    ensures r.aiOptimizations.etaAccuracy <= 98.0 ==> o.aiOptimizations.etaAccuracy >= r.aiOptimizations.etaAccuracy
    ensures r.aiOptimizations.fuelEfficiency <= 85.0 ==> o.aiOptimizations.fuelEfficiency == r.aiOptimizations.fuelEfficiency + 10.0
    ensures r.aiOptimizations.fuelEfficiency >= 85.0 ==> o.aiOptimizations.fuelEfficiency == 95.0
    ensures r.aiOptimizations.trafficPrediction <= 90.0 ==> o.aiOptimizations.trafficPrediction == r.aiOptimizations.trafficPrediction + 5.0
    ensures r.aiOptimizations.trafficPrediction >= 90.0 ==> o.aiOptimizations.trafficPrediction == 95.0
    ensures r.aiOptimizations.etaAccuracy <= 95.0 ==> o.aiOptimizations.etaAccuracy == r.aiOptimizations.etaAccuracy + 3.0
    ensures r.aiOptimizations.etaAccuracy >= 95.0 ==> o.aiOptimizations.etaAccuracy == 98.0
  {
    r.(distance := r.distance * 0.85,
       estimatedTime := r.estimatedTime * 0.9,
       aiOptimizations := RouteScores(
         Min(95.0, r.aiOptimizations.fuelEfficiency + 10.0),
         Min(95.0, r.aiOptimizations.trafficPrediction + 5.0),
         Min(98.0, r.aiOptimizations.etaAccuracy + 3.0)))
  }

  /** A route whose scores are all at their caps keeps them when optimised again. */
  lemma OptimizedAtCapKeepsScores(r: Route)
    requires r.aiOptimizations == RouteScores(95.0, 95.0, 98.0)
    ensures Optimized(r).aiOptimizations == r.aiOptimizations
  {
  }

  /** A non-negative distance or time never grows. */
  lemma OptimizedShortens(r: Route)
    requires r.distance >= 0.0 && r.estimatedTime >= 0.0
    ensures 0.0 <= Optimized(r).distance <= r.distance
    ensures 0.0 <= Optimized(r).estimatedTime <= r.estimatedTime
  {
  }

  /** `routes.map(...)` in `handleOptimizeAll`: one optimised route per route, in the same order. */
  function OptimizeAll(routes: seq<Route>): (r: seq<Route>)
    ensures |r| == |routes|
    ensures forall i :: 0 <= i < |routes| ==> r[i] == Optimized(routes[i]) && r[i].id == routes[i].id
  {
    seq(|routes|, i requires 0 <= i < |routes| => Optimized(routes[i]))
  }

  /** The component's state cells, over the route slice it reads and dispatches to. */
  class RouteScreen {
    var isOptimizing: bool
    var selectedRoute: Option<string>
    const store: RouteStore

    constructor (store: RouteStore)
      ensures this.store == store && !isOptimizing && selectedRoute == None
    {
      this.store := store;
      isOptimizing := false;
      selectedRoute := None;
    }

    /** `handleOptimizeRoute`: the first route with the id is optimised and appended to the
        optimised routes; an unknown id dispatches nothing. The flags are reset at the end. */
    method HandleOptimizeRoute(routeId: string)
      modifies this`isOptimizing, this`selectedRoute, store`optimizedRoutes
      ensures !isOptimizing && selectedRoute == None
      ensures var i := Seqs.FindIndex(store.routes, RouteId, routeId);
              i == -1 ==> store.optimizedRoutes == old(store.optimizedRoutes)
      ensures var i := Seqs.FindIndex(store.routes, RouteId, routeId);
              i != -1 ==> store.optimizedRoutes == old(store.optimizedRoutes) + [Optimized(store.routes[i])]
    {
      isOptimizing := true;
      selectedRoute := Some(routeId);
      var i := Seqs.FindIndex(store.routes, RouteId, routeId);
      if i != -1 {
        var optimizedRoute := Optimized(store.routes[i]);
        store.SetOptimizedRoutes(store.optimizedRoutes + [optimizedRoute]);
      }
      isOptimizing := false;
      selectedRoute := None;
    }

    /** `handleOptimizeAll`: the optimised routes become the optimised copy of every route.
        `selectedRoute` is not touched. */
    method HandleOptimizeAll()
      modifies this`isOptimizing, store`optimizedRoutes
      ensures !isOptimizing
      ensures store.optimizedRoutes == OptimizeAll(store.routes)
    {
      isOptimizing := true;
      var optimized := OptimizeAll(store.routes);
      store.SetOptimizedRoutes(optimized);
      isOptimizing := false;
    }
  }
}
