/** `DirectionsAPI`: the directions of a route, and the routes of a direction. */
module DirectionsApi {
  import opened Wrappers
  import opened Text
  import opened Decimal
  import opened PyValue
  import opened PtvClient

  datatype DirectionRequest = DirectionRequest(routeId: int)

  /** What `get_directions_for_route` may be handed at run time: the
      `DirectionRequest` it declares, or a bare Python value. */
  datatype DirectionsArgument = RequestArgument(request: DirectionRequest) | ValueArgument(value: Value)

  /** `get_directions_for_route`: the route id comes from the request record. */
  function GetDirectionsForRoute(req: DirectionRequest): (call: Call)
    ensures call.params == None
  {
    Call(Path(["v3", "directions", "route", IntToString(req.routeId)]), None)
  }

  /** `get_directions_for_route` on whatever it is handed: reading
      `request.route_id` raises `AttributeError` (`None`) on anything but a
      `DirectionRequest`, before any call is made. */
  function DirectionsForRouteOn(arg: DirectionsArgument): (call: Option<Call>)
    ensures call.Some? <==> arg.RequestArgument?
    ensures call.Some? ==> call.value.params == None
  {
    match arg
    case RequestArgument(req) => Some(GetDirectionsForRoute(req))
    case ValueArgument(_) => None
  }

  /** Handed a request, it asks for the directions of that request's route. */
  lemma DirectionsForRouteOnRequest(req: DirectionRequest)
    ensures DirectionsForRouteOn(RequestArgument(req)).Some?
    ensures Segments(DirectionsForRouteOn(RequestArgument(req)).value.path) ==
              ["", "v3", "directions", "route", IntToString(req.routeId)]
  {
    DirectionsForRoutePath(req);
  }

  /** `get_direction_by_id`. */
  function GetDirectionById(directionId: int): (call: Call)
    ensures call.params == None
  {
    Call(Path(["v3", "directions", IntToString(directionId)]), None)
  }

  /** `get_direction_for_route_and_type`. */
  function GetDirectionForRouteAndType(directionId: int, routeType: int): (call: Call)
    ensures call.params == None
  {
    Call(Path(["v3", "directions", IntToString(directionId), "route_type", IntToString(routeType)]), None)
  }

  /** `/v3/directions/route/<route id>`. */
  lemma DirectionsForRoutePath(req: DirectionRequest)
    ensures Segments(GetDirectionsForRoute(req).path) == ["", "v3", "directions", "route", IntToString(req.routeId)]
  {
    var segs := ["v3", "directions", "route", IntToString(req.routeId)];
    assert Segments(Path(segs)) == [""] + segs by {
      IntToStringPlain(req.routeId);
      SegmentsOfPath(segs);
    }
  }

  /** `/v3/directions/<direction id>`. */
  lemma DirectionByIdPath(directionId: int)
    ensures Segments(GetDirectionById(directionId).path) == ["", "v3", "directions", IntToString(directionId)]
  {
    var segs := ["v3", "directions", IntToString(directionId)];
    assert Segments(Path(segs)) == [""] + segs by {
      IntToStringPlain(directionId);
      SegmentsOfPath(segs);
    }
  }

  /** `/v3/directions/<direction id>/route_type/<route type>`. */
  lemma DirectionForRouteAndTypePath(directionId: int, routeType: int)
    ensures Segments(GetDirectionForRouteAndType(directionId, routeType).path)
              == ["", "v3", "directions", IntToString(directionId), "route_type", IntToString(routeType)]
  {
    var segs := ["v3", "directions", IntToString(directionId), "route_type", IntToString(routeType)];
    assert Segments(Path(segs)) == [""] + segs by {
      IntToStringPlain(directionId);
      IntToStringPlain(routeType);
      SegmentsOfPath(segs);
    }
  }

  /** A for-route path never coincides with a by-id path or a route-and-type
      path: the three have different numbers of segments. */
  lemma DirectionsPathsDistinct(req: DirectionRequest, directionId: int, routeType: int)
    ensures GetDirectionsForRoute(req).path != GetDirectionById(directionId).path
    ensures GetDirectionsForRoute(req).path != GetDirectionForRouteAndType(directionId, routeType).path
  {
    DirectionsForRoutePath(req);
    DirectionByIdPath(directionId);
    DirectionForRouteAndTypePath(directionId, routeType);
  }
}
