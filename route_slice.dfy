/** The route slice of the Redux store (src/store/slices/routeSlice.ts): the planned routes and,
    separately, the optimised routes; `addRoute` and `updateRoute` touch only the planned routes. */
module RouteSlice {
  import opened Js
  import Seqs

  datatype Waypoint = Waypoint(lat: real, lng: real, address: string)

  /** The three AI scores of a route, in percent. */
  datatype RouteScores = RouteScores(fuelEfficiency: real, trafficPrediction: real, etaAccuracy: real)

  datatype Route = Route(
    id: string,
    name: string,
    origin: string,
    destination: string,
    distance: real,
    estimatedTime: real,
    actualTime: Option<real>,
    status: string,
    vehicleId: string,
    driverId: string,
    deliveries: seq<string>,
    waypoints: seq<Waypoint>,
    aiOptimizations: RouteScores)

  function RouteId(r: Route): string
  {
    r.id
  }

  class RouteStore {
    var routes: seq<Route>
    var optimizedRoutes: seq<Route>
    var loading: bool
    var error: Option<string>

    constructor ()
      ensures routes == [] && optimizedRoutes == [] && !loading && error == None
    {
      routes := [];
      optimizedRoutes := [];
      loading := false;
      error := None;
    }

    method SetRoutes(payload: seq<Route>)
      modifies this`routes
      ensures routes == payload
    {
      routes := payload;
    }

    method SetOptimizedRoutes(payload: seq<Route>)
      modifies this`optimizedRoutes
      ensures optimizedRoutes == payload
    {
      optimizedRoutes := payload;
    }

    method AddRoute(route: Route)
      modifies this`routes
      ensures routes == old(routes) + [route]
    {
      routes := routes + [route];
    }

    method UpdateRoute(route: Route)
      modifies this`routes
      ensures routes == Seqs.ReplaceFirst(old(routes), RouteId, route)
    {
      var index := Seqs.FindIndex(routes, RouteId, route.id);
      Seqs.UpdateFirstAtFindIndex(routes, RouteId, route.id, _ => route);
      if index != -1 {
        routes := routes[index := route];
      }
    }

    method SetLoading(value: bool)
      modifies this`loading
      ensures loading == value
    {
      loading := value;
    }

    method SetError(value: Option<string>)
      modifies this`error
      ensures error == value
    {
      error := value;
    }
  }
}
