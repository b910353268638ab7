/** `PatternsAPI.get_pattern`: the stopping pattern of one run. */
module PatternsApi {
  import opened Wrappers
  import opened Text
  import opened Decimal
  import opened PyValue
  import opened PtvClient
  import opened ListParams

  datatype PatternRequest = PatternRequest(runId: int, routeType: int, expand: Option<seq<string>>)

  /** The run, then its route type; one entry, `expand`, always present. */
  function GetPattern(req: PatternRequest): (call: Call)
    ensures call.params == Some([Param("expand", JoinedOrNone(req.expand))])
  {
    Call(Path(["v3", "pattern", "run", IntToString(req.runId), "route_type", IntToString(req.routeType)]),
         Some([Param("expand", JoinedOrNone(req.expand))]))
  }

  /** `/v3/pattern/run/<run id>/route_type/<route type>`. */
  lemma PatternPath(req: PatternRequest)
    ensures Segments(GetPattern(req).path) ==
              ["", "v3", "pattern", "run", IntToString(req.runId), "route_type", IntToString(req.routeType)]
  {
    var segs := ["v3", "pattern", "run", IntToString(req.runId), "route_type", IntToString(req.routeType)];
    IntToStringPlain(req.runId);
    IntToStringPlain(req.routeType);
    SegmentsOfPath(segs);
  }

  lemma PatternPathPlain(req: PatternRequest)
    ensures '?' !in GetPattern(req).path
  {
    var segs := ["v3", "pattern", "run", IntToString(req.runId), "route_type", IntToString(req.routeType)];
    IntToStringPlain(req.runId);
    IntToStringPlain(req.routeType);
    PathWithout(segs, '?');
  }

  /** The dictionary is never empty, so the query always starts `?expand=`:
      the comma-joined list, or the text `None` when the list is absent or empty. */
  lemma PatternQuery(c: Client, req: PatternRequest)
    ensures var call := GetPattern(req);
            UnsignedUrl(c, call.path, call.params) ==
              BaseUrl + call.path + "?" + ("expand=" + Render(JoinedOrNone(req.expand))) + "&devid=" + c.devId
    ensures req.expand.None? || req.expand == Some([]) ==>
              Render(JoinedOrNone(req.expand)) == "None"
  {
    var call := GetPattern(req);
    PatternPathPlain(req);
    UnsignedWithParams(c, call.path, call.params.value);
    assert "expand" + "=" == "expand=";
    assert Entries(call.params.value) == ["expand=" + Render(JoinedOrNone(req.expand))];
  }
}
