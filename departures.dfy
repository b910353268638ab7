/** `DeparturesAPI.get_departures`: the departures of a stop, optionally for one route. */
module DeparturesApi {
  import opened Wrappers
  import opened Text
  import opened Decimal
  import opened PyValue
  import opened PtvClient
  import opened ListParams

  datatype DepartureRequest = DepartureRequest(
    routeType: int,
    stopId: int,
    routeId: Option<int>,
    directionId: Option<int>,
    maxResults: Option<int>,
    includeCancelled: Option<bool>,
    expand: Option<seq<string>>)

  /** The path and parameters `get_departures` hands to the client. */
  function GetDepartures(req: DepartureRequest): (call: Call)
    ensures call.params.Some?
    ensures Keys(call.params.value) == ["direction_id", "max_results", "include_cancelled", "expand"]
    ensures call.params.value[0].value == OfInt(req.directionId)
    ensures call.params.value[1].value == OfInt(req.maxResults)
    ensures call.params.value[2].value == OfBool(req.includeCancelled)
    ensures call.params.value[3].value == JoinedOrNone(req.expand)
  {
    var stopPath := Path(["v3", "departures", "route_type", IntToString(req.routeType), "stop", IntToString(req.stopId)]);
    var path := if Truthy(OfInt(req.routeId)) then stopPath + Path(["route", IntToString(req.routeId.value)]) else stopPath;
    Call(path, Some([
      Param("direction_id", OfInt(req.directionId)),
      Param("max_results", OfInt(req.maxResults)),
      Param("include_cancelled", OfBool(req.includeCancelled)),
      Param("expand", JoinedOrNone(req.expand))]))
  }

  /** The path names the route type and the stop, then the route exactly when
      the route id is truthy (so `None` and `0` both leave it out). */
  lemma DeparturesPath(req: DepartureRequest)
    ensures var rt, sid := IntToString(req.routeType), IntToString(req.stopId);
            Segments(GetDepartures(req).path) ==
              ["", "v3", "departures", "route_type", rt, "stop", sid] +
              (if req.routeId.Some? && req.routeId.value != 0 then ["route", IntToString(req.routeId.value)] else [])
  {
    if req.routeId.Some? && req.routeId.value != 0 {
      DeparturesPathWithRoute(req);
    } else {
      DeparturesPathWithoutRoute(req);
    }
  }

  lemma DeparturesPathWithRoute(req: DepartureRequest)
    requires req.routeId.Some? && req.routeId.value != 0
    ensures var rt, sid := IntToString(req.routeType), IntToString(req.stopId);
            Segments(GetDepartures(req).path) ==
              [""] + (["v3", "departures", "route_type", rt, "stop", sid] + ["route", IntToString(req.routeId.value)])
  {
    var segs := ["v3", "departures", "route_type", IntToString(req.routeType), "stop", IntToString(req.stopId)];
    var tail := ["route", IntToString(req.routeId.value)];
    var all := segs + tail;
    assert Segments(Path(all)) == [""] + all by {
      IntToStringPlain(req.routeType);
      IntToStringPlain(req.stopId);
      IntToStringPlain(req.routeId.value);
      assert all == ["v3", "departures", "route_type", IntToString(req.routeType), "stop", IntToString(req.stopId),
                     "route", IntToString(req.routeId.value)];
      SegmentsOfPath(all);
    }
    PathAppend(segs, tail);
  }

  lemma DeparturesPathWithoutRoute(req: DepartureRequest)
    requires !(req.routeId.Some? && req.routeId.value != 0)
    ensures Segments(GetDepartures(req).path) ==
              [""] + ["v3", "departures", "route_type", IntToString(req.routeType), "stop", IntToString(req.stopId)]
  {
    var segs := ["v3", "departures", "route_type", IntToString(req.routeType), "stop", IntToString(req.stopId)];
    assert GetDepartures(req).path == Path(segs);
    assert Segments(Path(segs)) == [""] + segs by {
      IntToStringPlain(req.routeType);
      IntToStringPlain(req.stopId);
      SegmentsOfPath(segs);
    }
  }

  /** The parameter block is never empty, so the query starts with `?direction_id=`
      and lists the four entries in order, unset ones as `None`, before `devid`. */
  lemma DeparturesQuery(c: Client, req: DepartureRequest)
    ensures var call := GetDepartures(req);
            UnsignedUrl(c, call.path, call.params) ==
              BaseUrl + call.path + "?" + Join([
                "direction_id=" + Render(OfInt(req.directionId)),
                "max_results=" + Render(OfInt(req.maxResults)),
                "include_cancelled=" + Render(OfBool(req.includeCancelled)),
                "expand=" + Render(JoinedOrNone(req.expand))], "&") + "&devid=" + c.devId
  {
    var call := GetDepartures(req);
    DeparturesPathPlain(req);
    UnsignedWithParams(c, call.path, call.params.value);
    var ps := call.params.value;
    assert ps == [
      Param("direction_id", OfInt(req.directionId)),
      Param("max_results", OfInt(req.maxResults)),
      Param("include_cancelled", OfBool(req.includeCancelled)),
      Param("expand", JoinedOrNone(req.expand))];
    assert "direction_id" + "=" == "direction_id=" && "max_results" + "=" == "max_results=";
    assert "include_cancelled" + "=" == "include_cancelled=" && "expand" + "=" == "expand=";
    assert Entries(ps) == [
      "direction_id=" + Render(OfInt(req.directionId)),
      "max_results=" + Render(OfInt(req.maxResults)),
      "include_cancelled=" + Render(OfBool(req.includeCancelled)),
      "expand=" + Render(JoinedOrNone(req.expand))];
  }

  /** No departures path contains a `?`. */
  lemma DeparturesPathPlain(req: DepartureRequest)
    ensures '?' !in GetDepartures(req).path
  {
    var segs := ["v3", "departures", "route_type", IntToString(req.routeType), "stop", IntToString(req.stopId)];
    IntToStringPlain(req.routeType);
    IntToStringPlain(req.stopId);
    PathWithout(segs, '?');
    if Truthy(OfInt(req.routeId)) {
      IntToStringPlain(req.routeId.value);
      PathWithout(["route", IntToString(req.routeId.value)], '?');
    }
  }
}
