/**
 * The connector `PTVApi.async_get_departures`: it builds the departures request
 * from the configured route type, stop, route and direction, fetches it, and
 * turns the response's departures into records of a local time, a platform and
 * a direction name, dropping departures that have no time at all.
 */
module Connector {
  import opened Wrappers
  import opened Text
  import opened Decimal
  import opened PyValue
  import opened PtvClient
  import opened DeparturesApi

  /** The four configured values the request is built from, as stored by the config flow. */
  datatype Settings = Settings(routeType: Value, stop: Value, route: Value, direction: Value)

  /** The `direction` entry of a departure: absent, JSON `null`, or an object
      with or without a `direction_name`. */
  datatype DirectionField = NoDirection | NullDirection | DirectionObject(directionName: Option<Value>)

  /** One departure of the response. `.get` returns `None` for an absent key, so
      an absent time or platform is `VNone`. */
  datatype Departure = Departure(estimated: Value, scheduled: Value, platform: Value, direction: DirectionField)

  /** The `departures` entry of the response: absent, `null`, or a list. */
  datatype DepartureList = Missing | Null | Listed(departures: seq<Departure>)

  /** One output record. */
  datatype Record = Record(departure: string, platform: Value, direction: Value)

  /** The exceptions the connector can raise. */
  datatype Raised =
    | BadSetting        // `int()` of a configured value raised
    | TimeNotText       // the chosen time is truthy but not a string, so `strptime` raises
    | TimeUnparsed      // the chosen time does not parse as `%Y-%m-%dT%H:%M:%SZ`
    | DirectionIsNull   // `None.get("direction_name")`
    | DeparturesNotList // iterating over `None`

  /** The UTC-to-local conversion (`_convert_utc_to_local`), a parameter of the
      model: the local `%I:%M %p` text, or `None` when `strptime` raises. */
  type Convert = string -> Option<string>

  /** The request `async_get_departures` builds: the route type and stop go
      through `int()`, the route and direction only when truthy, and the three
      remaining fields are fixed. `None` when one of the `int()` calls raises. */
  function DepartureRequestFor(s: Settings): (r: Option<DepartureRequest>)
    ensures r.Some? <==>
              && ToInt(s.routeType).Some? && ToInt(s.stop).Some?
              && (Truthy(s.route) ==> ToInt(s.route).Some?)
              && (Truthy(s.direction) ==> ToInt(s.direction).Some?)
    ensures r.Some? ==> r.value.routeType == ToInt(s.routeType).value && r.value.stopId == ToInt(s.stop).value
    ensures r.Some? ==> r.value.routeId == (if Truthy(s.route) then ToInt(s.route) else None)
    ensures r.Some? ==> r.value.directionId == (if Truthy(s.direction) then ToInt(s.direction) else None)
    ensures r.Some? ==> r.value.maxResults == Some(5) && r.value.includeCancelled == Some(false) && r.value.expand == Some(["All"])
  {
    var routeType := ToInt(s.routeType);
    var stop := ToInt(s.stop);
    var route := if Truthy(s.route) then ToInt(s.route) else None;
    var direction := if Truthy(s.direction) then ToInt(s.direction) else None;
    if routeType.None? || stop.None? || (Truthy(s.route) && route.None?) || (Truthy(s.direction) && direction.None?) then None
    else Some(DepartureRequest(routeType.value, stop.value, route, direction, Some(5), Some(false), Some(["All"])))
  }

  /** The route reaches the departures path exactly when the configured route is
      truthy and `int()` of it is not zero: a route stored as the text `"0"` is
      truthy here but its number is then dropped by `get_departures`. */
  lemma RouteInDeparturesPath(s: Settings)
    requires DepartureRequestFor(s).Some?
    ensures var req := DepartureRequestFor(s).value;
            var hasRoute := Truthy(s.route) && ToInt(s.route).value != 0;
            Segments(GetDepartures(req).path) ==
              ["", "v3", "departures", "route_type", IntToString(req.routeType), "stop", IntToString(req.stopId)] +
              (if hasRoute then ["route", IntToString(ToInt(s.route).value)] else [])
  {
    DeparturesPath(DepartureRequestFor(s).value);
  }

  /** `estimated or scheduled`: the estimated time when it is truthy, otherwise the scheduled one. */
  function ChosenTime(d: Departure): (t: Value)
    ensures Truthy(t) <==> Truthy(d.estimated) || Truthy(d.scheduled)
  {
    if Truthy(d.estimated) then d.estimated else d.scheduled
  }

  /** A departure yields a record only when its chosen time is truthy. */
  predicate Kept(d: Departure)
  {
    Truthy(ChosenTime(d))
  }

  /** `d.get("direction", {}).get("direction_name")`. */
  function DirectionName(f: DirectionField): (r: Result<Value, Raised>)
    ensures r.Failure? <==> f.NullDirection?
    ensures f.NoDirection? ==> r == Success(VNone)
    ensures f.DirectionObject? ==> r == Success(OfOption(f.directionName))
  {
    match f
    case NoDirection => Success(VNone)
    case NullDirection => Failure(DirectionIsNull)
    case DirectionObject(name) => Success(OfOption(name))
  }

  function OfOption(o: Option<Value>): Value
  {
    if o.Some? then o.value else VNone
  }

  /** The record of a kept departure, evaluated in the order of the dictionary
      literal: the converted time first, then the platform, then the direction. */
  function RecordFor(d: Departure, convert: Convert): (r: Result<Record, Raised>)
    ensures r.Success? <==>
              ChosenTime(d).VStr? && convert(ChosenTime(d).s).Some? && !d.direction.NullDirection?
    ensures r.Success? ==> r.value.platform == d.platform
    ensures r.Success? ==> r.value.departure == convert(ChosenTime(d).s).value
    ensures r.Success? ==> Success(r.value.direction) == DirectionName(d.direction)
  {
    var t := ChosenTime(d);
    if !t.VStr? then Failure(TimeNotText)
    else match convert(t.s)
      case None => Failure(TimeUnparsed)
      case Some(local) =>
        match DirectionName(d.direction)
        case Failure(e) => Failure(e)
        case Success(name) => Success(Record(local, d.platform, name))
  }

  /** What one departure contributes to the list: nothing, one record, or the exception. */
  function Contribution(d: Departure, convert: Convert): Result<seq<Record>, Raised>
  {
    if !Kept(d) then Success([])
    else match RecordFor(d, convert)
      case Failure(e) => Failure(e)
      case Success(r) => Success([r])
  }

  /** The records `acc` followed by those of `rest`, or the exception `rest` raises. */
  function Prepend(acc: seq<Record>, rest: Result<seq<Record>, Raised>): Result<seq<Record>, Raised>
  {
    match rest
    case Success(rs) => Success(acc + rs)
    case Failure(e) => Failure(e)
  }

  /** The loop over a list of departures, front to back: the first exception
      stops it. */
  function Records(ds: seq<Departure>, convert: Convert): Result<seq<Record>, Raised>
  {
    if ds == [] then Success([])
    else match Contribution(ds[0], convert)
      case Failure(e) => Failure(e)
      case Success(first) => Prepend(first, Records(ds[1..], convert))
  }

  /** The whole of `async_get_departures` on a given response. */
  function DeparturesOutcome(s: Settings, response: DepartureList, convert: Convert): Result<seq<Record>, Raised>
  {
    if DepartureRequestFor(s).None? then Failure(BadSetting)
    else match response
      case Missing => Success([])
      case Null => Failure(DeparturesNotList)
      case Listed(ds) => Records(ds, convert)
  }

  /** `async_get_departures`: the request it issues (`None` when building it
      raised) and the records it returns. The response is the model's input. */
  method AsyncGetDepartures(s: Settings, response: DepartureList, convert: Convert)
    returns (call: Option<Call>, result: Result<seq<Record>, Raised>)
    ensures DepartureRequestFor(s).Some? ==> call == Some(GetDepartures(DepartureRequestFor(s).value))
    ensures DepartureRequestFor(s).None? ==> call == None
    ensures result == DeparturesOutcome(s, response, convert)
  {
    var request := DepartureRequestFor(s);
    if request.None? {
      return None, Failure(BadSetting);
    }
    call := Some(GetDepartures(request.value));
    if response.Null? {
      return call, Failure(DeparturesNotList);
    }
    var ds := if response.Listed? then response.departures else [];
    var departures: seq<Record> := [];
    assert ds[0..] == ds;
    PrependNothing(Records(ds, convert));
    for i := 0 to |ds|
      invariant Records(ds, convert) == Prepend(departures, Records(ds[i..], convert))
    {
      var d := ds[i];
      assert ds[i..][0] == d && ds[i..][1..] == ds[i + 1..];
      var rest := Records(ds[i + 1..], convert);
      assert Records(ds[i..], convert) ==
        match Contribution(d, convert)
        case Failure(e) => Failure(e)
        case Success(first) => Prepend(first, rest);
      var time := if Truthy(d.estimated) then d.estimated else d.scheduled;
      if Truthy(time) {
        if !time.VStr? {
          return call, Failure(TimeNotText);
        }
        var local := convert(time.s);
        if local.None? {
          return call, Failure(TimeUnparsed);
        }
        var direction: Value;
        match d.direction {
          case NoDirection => direction := VNone;
          case NullDirection => return call, Failure(DirectionIsNull);
          case DirectionObject(name) => direction := if name.Some? then name.value else VNone;
        }
        var record := Record(local.value, d.platform, direction);
        assert Contribution(d, convert) == Success([record]);
        PrependTwice(departures, [record], rest);
        departures := departures + [record];
      } else {
        assert Contribution(d, convert) == Success([]);
        PrependNothing(rest);
      }
    }
    assert ds[|ds|..] == [] && departures + [] == departures;
    result := Success(departures);
  }

  /** The departures with a truthy chosen time, in their original order. */
  function KeptOnly(ds: seq<Departure>): (kept: seq<Departure>)
    ensures |kept| <= |ds|
    ensures forall k :: 0 <= k < |kept| ==> Kept(kept[k]) && kept[k] in ds
    ensures forall k :: 0 <= k < |ds| && Kept(ds[k]) ==> ds[k] in kept
  {
    if ds == [] then []
    else (if Kept(ds[0]) then [ds[0]] else []) + KeptOnly(ds[1..])
  }

  /** The loop agrees with a reference reading: it succeeds exactly when every
      kept departure has a record, and then it returns those records in the
      order of the kept departures. */
  lemma {:induction false} RecordsReference(ds: seq<Departure>, convert: Convert)
    ensures var kept := KeptOnly(ds);
            Records(ds, convert).Success? <==> forall k :: 0 <= k < |kept| ==> RecordFor(kept[k], convert).Success?
    ensures var kept := KeptOnly(ds);
            Records(ds, convert).Success? ==>
              && |Records(ds, convert).value| == |kept|
              && forall k :: 0 <= k < |kept| ==> Records(ds, convert).value[k] == RecordFor(kept[k], convert).value
  {
    if ds != [] {
      RecordsReference(ds[1..], convert);
      if Kept(ds[0]) {
        RecordsTake(ds, convert);
        ReferenceStep(ds[0], KeptOnly(ds[1..]), Records(ds, convert), Records(ds[1..], convert), convert);
      } else {
        RecordsSkip(ds, convert);
      }
    }
  }

  /** A departure without a time is skipped: it adds no record and no kept departure. */
  lemma RecordsSkip(ds: seq<Departure>, convert: Convert)
    requires ds != [] && !Kept(ds[0])
    ensures KeptOnly(ds) == KeptOnly(ds[1..])
    ensures Records(ds, convert) == Records(ds[1..], convert)
  {
    assert Contribution(ds[0], convert) == Success([]);
    PrependNothing(Records(ds[1..], convert));
  }

  /** A departure with a time comes first among the kept ones, and its record
      (or its exception) comes first in the result. */
  lemma RecordsTake(ds: seq<Departure>, convert: Convert)
    requires ds != [] && Kept(ds[0])
    ensures KeptOnly(ds) == [ds[0]] + KeptOnly(ds[1..])
    ensures RecordFor(ds[0], convert).Failure? ==> Records(ds, convert) == Failure(RecordFor(ds[0], convert).error)
    ensures RecordFor(ds[0], convert).Success? ==>
              Records(ds, convert) == Prepend([RecordFor(ds[0], convert).value], Records(ds[1..], convert))
  {
  }

  /** One step of the reference reading: a kept departure in front of the rest. */
  lemma ReferenceStep(d: Departure, tail: seq<Departure>, whole: Result<seq<Record>, Raised>,
                      rest: Result<seq<Record>, Raised>, convert: Convert)
    requires RecordFor(d, convert).Failure? ==> whole == Failure(RecordFor(d, convert).error)
    requires RecordFor(d, convert).Success? ==> whole == Prepend([RecordFor(d, convert).value], rest)
    requires rest.Success? <==> forall k :: 0 <= k < |tail| ==> RecordFor(tail[k], convert).Success?
    requires rest.Success? ==> |rest.value| == |tail| && forall k :: 0 <= k < |tail| ==> rest.value[k] == RecordFor(tail[k], convert).value
    ensures var kept := [d] + tail;
            whole.Success? <==> forall k :: 0 <= k < |kept| ==> RecordFor(kept[k], convert).Success?
    ensures var kept := [d] + tail;
            whole.Success? ==>
              && |whole.value| == |kept|
              && forall k :: 0 <= k < |kept| ==> whole.value[k] == RecordFor(kept[k], convert).value
  {
    var kept := [d] + tail;
    assert forall k :: 1 <= k < |kept| ==> kept[k] == tail[k - 1];
    if forall k :: 0 <= k < |kept| ==> RecordFor(kept[k], convert).Success? {
      assert RecordFor(kept[0], convert).Success?;
      forall k | 0 <= k < |tail| ensures RecordFor(tail[k], convert).Success? {
        assert kept[k + 1] == tail[k];
      }
    }
    if whole.Success? {
      assert kept[0] == d;
    }
  }

  /** The `j`-th kept departure is the first whose record raises, and it raises `e`. */
  predicate FirstFailure(kept: seq<Departure>, j: int, convert: Convert, e: Raised)
  {
    && 0 <= j < |kept|
    && (forall k :: 0 <= k < j ==> RecordFor(kept[k], convert).Success?)
    && RecordFor(kept[j], convert) == Failure(e)
  }

  /** When the loop raises, it raises what the first failing kept departure raises. */
  lemma {:induction false} RecordsFailure(ds: seq<Departure>, convert: Convert)
    requires Records(ds, convert).Failure?
    ensures exists j :: FirstFailure(KeptOnly(ds), j, convert, Records(ds, convert).error)
  {
    var e := Records(ds, convert).error;
    var kept, tail := KeptOnly(ds), KeptOnly(ds[1..]);
    if !Kept(ds[0]) {
      RecordsSkip(ds, convert);
      RecordsFailure(ds[1..], convert);
    } else if RecordFor(ds[0], convert).Failure? {
      RecordsTake(ds, convert);
      assert FirstFailure(kept, 0, convert, e);
    } else {
      RecordsTake(ds, convert);
      RecordsFailure(ds[1..], convert);
      var j :| FirstFailure(tail, j, convert, e);
      FailureShifts(ds[0], tail, j, convert, e);
    }
  }

  lemma FailureShifts(d: Departure, tail: seq<Departure>, j: int, convert: Convert, e: Raised)
    requires RecordFor(d, convert).Success? && FirstFailure(tail, j, convert, e)
    ensures FirstFailure([d] + tail, j + 1, convert, e)
  {
    var kept := [d] + tail;
    forall k | 0 <= k < j + 1 ensures RecordFor(kept[k], convert).Success? {
      if k > 0 {
        assert kept[k] == tail[k - 1];
      }
    }
  }

  lemma PrependTwice(a: seq<Record>, b: seq<Record>, r: Result<seq<Record>, Raised>)
    ensures Prepend(a, Prepend(b, r)) == Prepend(a + b, r)
  {
    if r.Success? {
      assert a + (b + r.value) == a + b + r.value;
    }
  }

  lemma PrependNothing(r: Result<seq<Record>, Raised>)
    ensures Prepend([], r) == r
  {
    if r.Success? {
      assert [] + r.value == r.value;
    }
  }

  /** The records never outnumber the departures. */
  lemma RecordsCount(ds: seq<Departure>, convert: Convert)
    requires Records(ds, convert).Success?
    ensures |Records(ds, convert).value| <= |ds|
  {
    RecordsReference(ds, convert);
  }

  /** A response without a `departures` key gives an empty list. */
  lemma MissingDeparturesEmpty(s: Settings, convert: Convert)
    requires DepartureRequestFor(s).Some?
    ensures DeparturesOutcome(s, Missing, convert) == Success([])
  {
  }

  /** A departure with neither time changes nothing, wherever it stands. */
  lemma {:induction false} TimelessDropped(before: seq<Departure>, d: Departure, after: seq<Departure>, convert: Convert)
    requires !Truthy(d.estimated) && !Truthy(d.scheduled)
    ensures Records(before + [d] + after, convert) == Records(before + after, convert)
  {
    if before == [] {
      assert before + [d] + after == [d] + after;
      assert ([d] + after)[0] == d && ([d] + after)[1..] == after && before + after == after;
      assert Contribution(d, convert) == Success([]);
      PrependNothing(Records(after, convert));
    } else {
      TimelessDropped(before[1..], d, after, convert);
      assert (before + [d] + after)[1..] == before[1..] + [d] + after;
      assert (before + after)[1..] == before[1..] + after;
      assert (before + [d] + after)[0] == before[0] && (before + after)[0] == before[0];
    }
  }

  /** The time of a record: the estimated time when that is a non-empty string,
      the scheduled one otherwise, each through the conversion. */
  lemma TimeChoice(d: Departure, convert: Convert)
    requires RecordFor(d, convert).Success?
    ensures Truthy(d.estimated) ==> d.estimated.VStr? && RecordFor(d, convert).value.departure == convert(d.estimated.s).value
    ensures !Truthy(d.estimated) ==> d.scheduled.VStr? && RecordFor(d, convert).value.departure == convert(d.scheduled.s).value
  {
  }
}
