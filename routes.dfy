/** `RoutesAPI`: all routes, optionally filtered, and one route by id. */
module RoutesApi {
  import opened Wrappers
  import opened Text
  import opened Decimal
  import opened PyValue
  import opened PtvClient

  /** The route types are whatever the caller lists; the config flow passes the
      form's string value, so each is a general value rendered with `str`. */
  datatype RouteRequest = RouteRequest(routeTypes: Option<seq<Value>>, routeName: Option<string>)

  /** `map(str, xs)`. */
  function Renders(xs: seq<Value>): (texts: seq<string>)
    ensures |texts| == |xs| && forall k :: 0 <= k < |xs| ==> texts[k] == Render(xs[k])
  {
    seq(|xs|, i requires 0 <= i < |xs| => Render(xs[i]))
  }

  /** `if request.route_types:` — a list is truthy when present and non-empty. */
  predicate FiltersTypes(req: RouteRequest)
  {
    req.routeTypes.Some? && |req.routeTypes.value| > 0
  }

  /** `if request.route_name:` — a name is truthy when present and non-empty. */
  predicate FiltersName(req: RouteRequest)
  {
    Truthy(OfStr(req.routeName))
  }

  /** `get_all_routes`: starts from an empty dictionary and inserts each filter
      only when it is truthy, types before name. */
  method GetAllRoutes(req: RouteRequest) returns (call: Call)
    ensures call.path == "/v3/routes" && call.params.Some?
    ensures Keys(call.params.value) ==
              (if FiltersTypes(req) then ["route_types"] else []) + (if FiltersName(req) then ["route_name"] else [])
    ensures Lookup(call.params.value, "route_types") ==
              if FiltersTypes(req) then Some(VStr(Join(Renders(req.routeTypes.value), ","))) else None
    ensures Lookup(call.params.value, "route_name") ==
              if FiltersName(req) then Some(VStr(req.routeName.value)) else None
  {
    var params: seq<Param> := [];
    if FiltersTypes(req) {
      params := params + [Param("route_types", VStr(Join(Renders(req.routeTypes.value), ",")))];
    }
    if FiltersName(req) {
      params := params + [Param("route_name", VStr(req.routeName.value))];
    }
    call := Call("/v3/routes", Some(params));
    assert FiltersTypes(req) && FiltersName(req) ==> Keys(params) == ["route_types", "route_name"];
  }

  /** With neither filter the dictionary is empty, so the URL carries `?devid=`
      right after `/v3/routes`. */
  lemma AllRoutesUnfiltered(c: Client)
    ensures UnsignedUrl(c, "/v3/routes", Some([])) == BaseUrl + "/v3/routes" + "?devid=" + c.devId
  {
    UnsignedWithoutParams(c, "/v3/routes", Some([]));
  }

  /** `get_route_by_id`: no parameters. */
  function GetRouteById(routeId: int): (call: Call)
    ensures call.params == None
  {
    Call(Path(["v3", "routes", IntToString(routeId)]), None)
  }

  /** The by-id path is `/v3/routes/<id>`; and with no parameters its URL has
      `?devid=` right after the path. */
  lemma RouteByIdLayout(c: Client, routeId: int)
    ensures Segments(GetRouteById(routeId).path) == ["", "v3", "routes", IntToString(routeId)]
    ensures UnsignedUrl(c, GetRouteById(routeId).path, None) == BaseUrl + GetRouteById(routeId).path + "?devid=" + c.devId
  {
    var segs := ["v3", "routes", IntToString(routeId)];
    assert Segments(Path(segs)) == [""] + segs by {
      IntToStringPlain(routeId);
      SegmentsOfPath(segs);
    }
    assert '?' !in Path(segs) by {
      IntToStringPlain(routeId);
      PathWithout(segs, '?');
    }
    UnsignedWithoutParams(c, Path(segs), None);
  }
}
