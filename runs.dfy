/** `RunsAPI`: the runs of a route, and one run by id. */
module RunsApi {
  import opened Wrappers
  import opened Text
  import opened Decimal
  import opened PtvClient

  datatype RunRequest = RunRequest(routeId: int, routeType: int)

  /** `get_runs_for_route`. */
  function GetRunsForRoute(req: RunRequest): (call: Call)
    ensures call.params == None
  {
    Call(Path(["v3", "runs", "route", IntToString(req.routeId), "route_type", IntToString(req.routeType)]), None)
  }

  /** `get_run_by_id`. */
  function GetRunById(runId: int, routeType: int): (call: Call)
    ensures call.params == None
  {
    Call(Path(["v3", "runs", IntToString(runId), "route_type", IntToString(routeType)]), None)
  }

  /** `/v3/runs/route/<route id>/route_type/<route type>`. */
  lemma RunsForRoutePath(req: RunRequest)
    ensures Segments(GetRunsForRoute(req).path)
              == ["", "v3", "runs", "route", IntToString(req.routeId), "route_type", IntToString(req.routeType)]
  {
    var segs := ["v3", "runs", "route", IntToString(req.routeId), "route_type", IntToString(req.routeType)];
    assert Segments(Path(segs)) == [""] + segs by {
      IntToStringPlain(req.routeId);
      IntToStringPlain(req.routeType);
      SegmentsOfPath(segs);
    }
  }

  /** `/v3/runs/<run id>/route_type/<route type>`. */
  lemma RunByIdPath(runId: int, routeType: int)
    ensures Segments(GetRunById(runId, routeType).path) == ["", "v3", "runs", IntToString(runId), "route_type", IntToString(routeType)]
  {
    var segs := ["v3", "runs", IntToString(runId), "route_type", IntToString(routeType)];
    assert Segments(Path(segs)) == [""] + segs by {
      IntToStringPlain(runId);
      IntToStringPlain(routeType);
      SegmentsOfPath(segs);
    }
  }

  /** For any integers the two paths differ: the for-route path has one segment more. */
  lemma RunsPathsDistinct(req: RunRequest, runId: int, routeType: int)
    ensures GetRunsForRoute(req).path != GetRunById(runId, routeType).path
  {
    RunsForRoutePath(req);
    RunByIdPath(runId, routeType);
  }
}
