/** `StopsAPI`: one stop, the stops of a route, and the stops near a location. */
module StopsApi {
  import opened Wrappers
  import opened Text
  import opened Decimal
  import opened PyValue
  import opened PtvClient
  import opened ListParams

  datatype StopRequest = StopRequest(
    routeId: int,
    routeType: int,
    stopDisruptions: Option<bool>,
    includeGeopath: Option<bool>,
    geopathUtc: Option<string>,
    includeAdvertisedInterchange: Option<bool>)

  /** The coordinates are Python floats; the model keeps them as reals. */
  datatype StopsByDistanceRequest = StopsByDistanceRequest(
    latitude: real,
    longitude: real,
    routeTypes: Option<seq<int>>,
    maxResults: Option<int>,
    maxDistance: Option<int>,
    stopDisruptions: Option<bool>)

  /** `get_stop_by_id`: the stop, then its route type; one entry. */
  function GetStopById(stopId: int, routeType: int, stopDisruptions: Option<bool>): (call: Call)
    ensures call.params == Some([Param("stop_disruptions", OfBool(stopDisruptions))])
  {
    Call(Path(["v3", "stops", IntToString(stopId), "route_type", IntToString(routeType)]),
         Some([Param("stop_disruptions", OfBool(stopDisruptions))]))
  }

  /** `get_stops_for_route`: the four optional fields in declared order, passed through. */
  function GetStopsForRoute(req: StopRequest): (call: Call)
    ensures call.params.Some?
    ensures Keys(call.params.value) == ["stop_disruptions", "include_geopath", "geopath_utc", "include_advertised_interchange"]
    ensures call.params.value[0].value == OfBool(req.stopDisruptions)
    ensures call.params.value[1].value == OfBool(req.includeGeopath)
    ensures call.params.value[2].value == OfStr(req.geopathUtc)
    ensures call.params.value[3].value == OfBool(req.includeAdvertisedInterchange)
  {
    Call(Path(["v3", "stops", "route", IntToString(req.routeId), "route_type", IntToString(req.routeType)]), Some([
      Param("stop_disruptions", OfBool(req.stopDisruptions)),
      Param("include_geopath", OfBool(req.includeGeopath)),
      Param("geopath_utc", OfStr(req.geopathUtc)),
      Param("include_advertised_interchange", OfBool(req.includeAdvertisedInterchange))]))
  }

  /** The parameters of the stops-near-a-location query. */
  function DistanceParams(req: StopsByDistanceRequest): (ps: seq<Param>)
    ensures Keys(ps) == ["route_types", "max_results", "max_distance", "stop_disruptions"]
    ensures ps[0].value == JoinedIntsOrNone(req.routeTypes)
    ensures ps[1].value == OfInt(req.maxResults)
    ensures ps[2].value == OfInt(req.maxDistance)
    ensures ps[3].value == OfBool(req.stopDisruptions)
  {
    [Param("route_types", JoinedIntsOrNone(req.routeTypes)),
     Param("max_results", OfInt(req.maxResults)),
     Param("max_distance", OfInt(req.maxDistance)),
     Param("stop_disruptions", OfBool(req.stopDisruptions))]
  }

  /** The placeholder text the plain (non-f) string literal leaves in the path. */
  const LocationPlaceholder := "{request.latitude},{request.longitude}"

  /** `get_stops_by_distance` as written: the path is a plain string literal, so
      its braces are sent verbatim and the coordinates never reach the URL. */
  function GetStopsByDistance(req: StopsByDistanceRequest): (call: Call)
    ensures call.params == Some(DistanceParams(req))
  {
    Call(Path(["v3", "stops", "location", LocationPlaceholder]), Some(DistanceParams(req)))
  }

  /** The as-written path is one fixed text, whatever the request: its last
      segment is the placeholder itself, braces and all. */
  lemma StopsByDistancePath(req: StopsByDistanceRequest)
    ensures Segments(GetStopsByDistance(req).path) == ["", "v3", "stops", "location", LocationPlaceholder]
  {
    var segs := ["v3", "stops", "location", LocationPlaceholder];
    assert Segments(Path(segs)) == [""] + segs by {
      assert '/' !in LocationPlaceholder;
      assert forall k :: 0 <= k < |segs| ==> '/' !in segs[k];
      SegmentsOfPath(segs);
    }
  }

  /** Two requests that differ only in their location produce the same call. */
  lemma StopsByDistanceIgnoresLocation(a: StopsByDistanceRequest, b: StopsByDistanceRequest)
    requires a.routeTypes == b.routeTypes && a.maxResults == b.maxResults
    requires a.maxDistance == b.maxDistance && a.stopDisruptions == b.stopDisruptions
    ensures GetStopsByDistance(a) == GetStopsByDistance(b)
  {
  }

  /** A concrete pair: the Melbourne CBD and Geelong ask for the same URL. */
  lemma StopsByDistanceCounterexample(c: Client, hmac: Hmac)
    ensures var cbd := StopsByDistanceRequest(-37.8136, 144.9631, None, None, None, None);
            var geelong := StopsByDistanceRequest(-38.1499, 144.3617, None, None, None, None);
            && cbd.latitude != geelong.latitude
            && BuildUrl(c, GetStopsByDistance(cbd).path, GetStopsByDistance(cbd).params, hmac)
               == BuildUrl(c, GetStopsByDistance(geelong).path, GetStopsByDistance(geelong).params, hmac)
  {
    var cbd := StopsByDistanceRequest(-37.8136, 144.9631, None, None, None, None);
    var geelong := StopsByDistanceRequest(-38.1499, 144.3617, None, None, None, None);
    StopsByDistanceIgnoresLocation(cbd, geelong);
  }

  /** `get_stops_by_distance` as evidently intended: the f-string renders the two
      coordinates, `str(latitude)` and `str(longitude)`, into the last segment.
      `render` stands for Python's `str` on floats. */
  function GetStopsByDistanceFixed(req: StopsByDistanceRequest, render: real -> string): (call: Call)
    ensures call.params == Some(DistanceParams(req))
  {
    Call(Path(["v3", "stops", "location", render(req.latitude) + "," + render(req.longitude)]), Some(DistanceParams(req)))
  }

  /** With a rendering that writes no `/` or `,` (as `str` of a float does not),
      the corrected path carries both coordinates: the last segment splits at `,`
      into exactly the rendered latitude and longitude. */
  lemma StopsByDistanceFixedLocation(req: StopsByDistanceRequest, render: real -> string)
    requires '/' !in render(req.latitude) && ',' !in render(req.latitude)
    requires '/' !in render(req.longitude) && ',' !in render(req.longitude)
    ensures var segs := Segments(GetStopsByDistanceFixed(req, render).path);
            && |segs| == 5 && segs[..4] == ["", "v3", "stops", "location"]
            && SplitOn(segs[4], ',') == [render(req.latitude), render(req.longitude)]
  {
    var lat, lon := render(req.latitude), render(req.longitude);
    var loc := lat + "," + lon;
    assert SplitOn(loc, ',') == [lat, lon] by {
      assert loc == Join([lat, lon], ",");
      SplitJoin([lat, lon], ',');
    }
    var segs := ["v3", "stops", "location", loc];
    assert Segments(Path(segs)) == [""] + segs by {
      NotInCat(lat, ",", '/');
      NotInCat(lat + ",", lon, '/');
      SegmentsOfPath(segs);
    }
  }

  /** Under the same condition, requests at different coordinates get different paths. */
  lemma StopsByDistanceFixedDistinguishes(a: StopsByDistanceRequest, b: StopsByDistanceRequest, render: real -> string)
    requires forall x: real :: '/' !in render(x) && ',' !in render(x)
    requires render(a.latitude) != render(b.latitude) || render(a.longitude) != render(b.longitude)
    ensures GetStopsByDistanceFixed(a, render).path != GetStopsByDistanceFixed(b, render).path
  {
    StopsByDistanceFixedLocation(a, render);
    StopsByDistanceFixedLocation(b, render);
  }

  /** `/v3/stops/<stop id>/route_type/<route type>`. */
  lemma StopByIdPath(stopId: int, routeType: int, stopDisruptions: Option<bool>)
    ensures Segments(GetStopById(stopId, routeType, stopDisruptions).path)
              == ["", "v3", "stops", IntToString(stopId), "route_type", IntToString(routeType)]
  {
    var segs := ["v3", "stops", IntToString(stopId), "route_type", IntToString(routeType)];
    assert Segments(Path(segs)) == [""] + segs by {
      IntToStringPlain(stopId);
      IntToStringPlain(routeType);
      SegmentsOfPath(segs);
    }
  }

  /** `/v3/stops/route/<route id>/route_type/<route type>`. */
  lemma StopsForRoutePath(req: StopRequest)
    ensures Segments(GetStopsForRoute(req).path)
              == ["", "v3", "stops", "route", IntToString(req.routeId), "route_type", IntToString(req.routeType)]
  {
    var segs := ["v3", "stops", "route", IntToString(req.routeId), "route_type", IntToString(req.routeType)];
    assert Segments(Path(segs)) == [""] + segs by {
      IntToStringPlain(req.routeId);
      IntToStringPlain(req.routeType);
      SegmentsOfPath(segs);
    }
  }
}
