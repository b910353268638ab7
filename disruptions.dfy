/** `DisruptionsAPI`: disruptions for all route types, a route, a route and stop, a stop, one id, and the disruption modes. */
module DisruptionsApi {
  import opened Wrappers
  import opened Text
  import opened Decimal
  import opened PyValue
  import opened PtvClient
  import opened ListParams

  datatype DisruptionRequest = DisruptionRequest(
    routeTypes: Option<seq<int>>,
    disruptionModes: Option<seq<int>>,
    disruptionStatus: Option<string>)

  /** `get_all_disruptions`: both lists comma-joined (or `None`), the status passed through. */
  function GetAllDisruptions(req: DisruptionRequest): (call: Call)
    ensures call.path == "/v3/disruptions"
    ensures call.params.Some?
    ensures Keys(call.params.value) == ["route_types", "disruption_modes", "disruption_status"]
    ensures call.params.value[0].value == JoinedIntsOrNone(req.routeTypes)
    ensures call.params.value[1].value == JoinedIntsOrNone(req.disruptionModes)
    ensures call.params.value[2].value == OfStr(req.disruptionStatus)
  {
    Call("/v3/disruptions", Some([
      Param("route_types", JoinedIntsOrNone(req.routeTypes)),
      Param("disruption_modes", JoinedIntsOrNone(req.disruptionModes)),
      Param("disruption_status", OfStr(req.disruptionStatus))]))
  }

  /** The single entry the route, route-and-stop and stop queries send. */
  function StatusOnly(status: Option<string>): seq<Param>
  {
    [Param("disruption_status", OfStr(status))]
  }

  /** `get_disruptions_by_route`. */
  function GetDisruptionsByRoute(routeId: int, status: Option<string>): (call: Call)
    ensures call.params == Some(StatusOnly(status))
  {
    Call(Path(["v3", "disruptions", "route", IntToString(routeId)]), Some(StatusOnly(status)))
  }

  /** `get_disruptions_by_route_and_stop`. */
  function GetDisruptionsByRouteAndStop(routeId: int, stopId: int, status: Option<string>): (call: Call)
    ensures call.params == Some(StatusOnly(status))
  {
    Call(Path(["v3", "disruptions", "route", IntToString(routeId), "stop", IntToString(stopId)]), Some(StatusOnly(status)))
  }

  /** `get_disruptions_by_stop`. */
  function GetDisruptionsByStop(stopId: int, status: Option<string>): (call: Call)
    ensures call.params == Some(StatusOnly(status))
  {
    Call(Path(["v3", "disruptions", "stop", IntToString(stopId)]), Some(StatusOnly(status)))
  }

  /** `get_disruption_by_id`: no parameters. */
  function GetDisruptionById(disruptionId: int): (call: Call)
    ensures call.params == None
  {
    Call(Path(["v3", "disruptions", IntToString(disruptionId)]), None)
  }

  /** `get_disruption_modes`: a constant path, no parameters. */
  function GetDisruptionModes(): (call: Call)
    ensures call.path == "/v3/disruptions/modes" && call.params == None
  {
    Call("/v3/disruptions/modes", None)
  }

  /** `/v3/disruptions/route/<route id>`. */
  lemma DisruptionsByRoutePath(routeId: int, status: Option<string>)
    ensures Segments(GetDisruptionsByRoute(routeId, status).path) == ["", "v3", "disruptions", "route", IntToString(routeId)]
  {
    var segs := ["v3", "disruptions", "route", IntToString(routeId)];
    assert Segments(Path(segs)) == [""] + segs by {
      IntToStringPlain(routeId);
      SegmentsOfPath(segs);
    }
  }

  /** `/v3/disruptions/route/<route id>/stop/<stop id>`: the route segment comes before the stop segment. */
  lemma DisruptionsByRouteAndStopPath(routeId: int, stopId: int, status: Option<string>)
    ensures Segments(GetDisruptionsByRouteAndStop(routeId, stopId, status).path)
              == ["", "v3", "disruptions", "route", IntToString(routeId), "stop", IntToString(stopId)]
  {
    var segs := ["v3", "disruptions", "route", IntToString(routeId), "stop", IntToString(stopId)];
    assert Segments(Path(segs)) == [""] + segs by {
      IntToStringPlain(routeId);
      IntToStringPlain(stopId);
      SegmentsOfPath(segs);
    }
  }

  /** `/v3/disruptions/stop/<stop id>`. */
  lemma DisruptionsByStopPath(stopId: int, status: Option<string>)
    ensures Segments(GetDisruptionsByStop(stopId, status).path) == ["", "v3", "disruptions", "stop", IntToString(stopId)]
  {
    var segs := ["v3", "disruptions", "stop", IntToString(stopId)];
    assert Segments(Path(segs)) == [""] + segs by {
      IntToStringPlain(stopId);
      SegmentsOfPath(segs);
    }
  }

  /** `/v3/disruptions/<disruption id>`. */
  lemma DisruptionByIdPath(disruptionId: int)
    ensures Segments(GetDisruptionById(disruptionId).path) == ["", "v3", "disruptions", IntToString(disruptionId)]
  {
    var segs := ["v3", "disruptions", IntToString(disruptionId)];
    assert Segments(Path(segs)) == [""] + segs by {
      IntToStringPlain(disruptionId);
      SegmentsOfPath(segs);
    }
  }

  /** No disruption id, however chosen, makes the by-id path the modes path:
      the character after `/v3/disruptions/` is a digit or `-`, never `m`. */
  lemma DisruptionByIdIsNotModes(disruptionId: int)
    ensures GetDisruptionById(disruptionId).path != GetDisruptionModes().path
  {
    var d := IntToString(disruptionId);
    var byId := GetDisruptionById(disruptionId).path;
    var segs := ["v3", "disruptions", d];
    var last: seq<string> := [d];
    assert segs[1..] == ["disruptions", d] && ["disruptions", d][1..] == last && last[1..] == [];
    assert Path([d]) == "/" + d + "";
    assert Path(["disruptions", d]) == "/" + "disruptions" + Path([d]);
    assert byId == "/" + "v3" + Path(["disruptions", d]);
    assert byId[16] == d[0];
    assert GetDisruptionModes().path[16] == 'm';
  }
}
