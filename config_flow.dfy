/**
 * The configuration flow `PTVConfigFlow`: five steps, user (credentials),
 * route type, stop, route and direction, that accumulate the answers in the
 * flow's `data` dictionary and end in a configuration entry.
 *
 * Each step is called either with the submitted form (`Some(input)`), which
 * it merges into `data` before handing over to the next step with no input,
 * or with no input, which shows its own form. What the flow asks the API is
 * recorded as a `Fetch`; what the API answers is an input of the model (a
 * `Listing`, and a `Probe` for the credential test).
 */
module ConfigFlow {
  import opened Wrappers
  import opened Text
  import opened Decimal
  import opened PyValue
  import opened PtvClient
  import opened RouteTypesApi
  import opened RoutesApi
  import opened DirectionsApi

  /** The configuration keys; their text lives in the integration's `const.py`. */
  const DevIdKey := "dev_id"
  const ApiKeyKey := "api_key"
  const RouteTypeKey := "route_type"
  const StopIdKey := "stop_id"
  const RouteIdKey := "route_id"
  const DirectionIdKey := "direction_id"

  const EntryTitle := "Public Transport Victoria"

  datatype StepId = UserStep | RouteTypeStep | StopStep | RouteStep | DirectionStep

  /** One item of an API listing: its id and its display name. */
  datatype Choice = Choice(id: Value, name: Value)

  /** The items an API listing returned, or `ListingFailed` when fetching or
      reading it raised (a failed request, a missing key). */
  datatype Listing = Listed(choices: seq<Choice>) | ListingFailed

  /** How the credential test went: a response (truthy or not), or one of the
      two kinds of exception the step distinguishes. */
  datatype Probe = Responded(truthy: bool) | RaisedInvalidAuth | RaisedOther

  /** The developer id and API key the flow's connector was built with. */
  datatype Credentials = Credentials(devId: Value, apiKey: Value)

  /** A request the flow issued to fill a form. */
  datatype Fetch = FetchRouteTypes(call: Call) | FetchRoutes(call: Call) | FetchDirections(call: Call)

  /** What a step returns: a form (with its selectable options and its errors),
      the finished entry, or an exception that escapes the flow. */
  datatype FlowResult =
    | Form(step: StepId, options: map<string, Value>, errors: map<string, string>)
    | Entry(title: string, entryData: map<string, Value>)
    | Raised

  /** The user form again, with the error under `base`. */
  function UserError(error: string): (r: FlowResult)
    ensures r.Form? && r.step == UserStep && r.errors == map["base" := error]
  {
    Form(UserStep, map[], map["base" := error])
  }

  /** `{str(item["id"]): item["name"] for item in items}`: one option per rendered
      id, a later item replacing an earlier one with the same rendered id. */
  function Options(cs: seq<Choice>): (m: map<string, Value>)
  {
    if cs == [] then map[]
    else Options(cs[..|cs| - 1])[Render(cs[|cs| - 1].id) := cs[|cs| - 1].name]
  }

  /** The options are keyed by exactly the rendered ids of the items. */
  lemma {:induction false} OptionsKeys(cs: seq<Choice>)
    ensures Options(cs).Keys == set i | 0 <= i < |cs| :: Render(cs[i].id)
  {
    if cs != [] {
      var init := cs[..|cs| - 1];
      OptionsKeys(init);
      var ids := set i | 0 <= i < |cs| :: Render(cs[i].id);
      var initIds := set i | 0 <= i < |init| :: Render(init[i].id);
      assert ids == initIds + {Render(cs[|cs| - 1].id)} by {
        forall k | k in ids ensures k in initIds + {Render(cs[|cs| - 1].id)} {
          var i :| 0 <= i < |cs| && Render(cs[i].id) == k;
          if i < |cs| - 1 {
            assert init[i] == cs[i];
          }
        }
        forall k | k in initIds ensures k in ids {
          var i :| 0 <= i < |init| && Render(init[i].id) == k;
          assert cs[i] == init[i];
        }
      }
    }
  }

  /** The option of an id is the name of the last item with that rendered id. */
  lemma {:induction false} OptionsLastWins(cs: seq<Choice>, i: int)
    requires 0 <= i < |cs|
    requires forall j :: i < j < |cs| ==> Render(cs[j].id) != Render(cs[i].id)
    ensures Render(cs[i].id) in Options(cs) && Options(cs)[Render(cs[i].id)] == cs[i].name
  {
    if i < |cs| - 1 {
      var init := cs[..|cs| - 1];
      assert init[i] == cs[i];
      OptionsLastWins(init, i);
    }
  }

  class Flow {
    /** `self.ptv_api`: the connector's credentials, once the user step built it. */
    var api: Option<Credentials>
    /** `self.data`: the answers so far. */
    var data: map<string, Value>

    constructor()
      ensures api == None && data == map[]
    {
      api := None;
      data := map[];
    }

    /** `async_step_user`. With input it builds the connector (unless a
        credential is missing), tests it, and only on a truthy response merges
        the input and moves on to the route-type form. An exception there is
        caught here too and reported as `unknown`, with the input already merged. */
    method StepUser(input: Option<map<string, Value>>, probe: Probe, listing: Listing)
      returns (result: FlowResult, fetch: Option<Fetch>)
      modifies this
      ensures input.None? ==> api == old(api) && data == old(data) && result == Form(UserStep, map[], map[]) && fetch == None
      ensures input.Some? && (DevIdKey !in input.value || ApiKeyKey !in input.value) ==>
                api == old(api) && data == old(data) && result == UserError("unknown") && fetch == None
      ensures input.Some? && DevIdKey in input.value && ApiKeyKey in input.value ==>
                api == Some(Credentials(input.value[DevIdKey], input.value[ApiKeyKey]))
      ensures input.Some? && DevIdKey in input.value && ApiKeyKey in input.value && probe == Responded(true) ==>
                && data == old(data) + input.value
                && fetch == Some(FetchRouteTypes(GetRouteTypes()))
                && result == (if listing.Listed? then Form(RouteTypeStep, Options(listing.choices), map[]) else UserError("unknown"))
      ensures input.Some? && DevIdKey in input.value && ApiKeyKey in input.value && probe != Responded(true) ==>
                && data == old(data) && fetch == None
                && result == UserError(match probe
                                       case Responded(_) => "cannot_connect"
                                       case RaisedInvalidAuth => "invalid_auth"
                                       case RaisedOther => "unknown")
    {
      fetch := None;
      if input.None? {
        result := Form(UserStep, map[], map[]);
        return;
      }
      var userInput := input.value;
      if DevIdKey !in userInput || ApiKeyKey !in userInput {
        result := UserError("unknown");
        return;
      }
      api := Some(Credentials(userInput[DevIdKey], userInput[ApiKeyKey]));
      match probe {
        case Responded(truthy) =>
          if truthy {
            data := data + userInput;
            var next;
            next, fetch := StepRouteType(None, listing);
            result := if next.Raised? then UserError("unknown") else next;
          } else {
            result := UserError("cannot_connect");
          }
        case RaisedInvalidAuth =>
          result := UserError("invalid_auth");
        case RaisedOther =>
          result := UserError("unknown");
      }
    }

    /** `async_step_route_type`. Without input it lists the route types;
        without a connector that raises. */
    method StepRouteType(input: Option<map<string, Value>>, listing: Listing)
      returns (result: FlowResult, fetch: Option<Fetch>)
      modifies this
      ensures api == old(api)
      ensures input.Some? ==> data == old(data) + input.value && result == Form(StopStep, map[], map[]) && fetch == None
      ensures input.None? ==> data == old(data)
      ensures input.None? && api.None? ==> result == Raised && fetch == None
      ensures input.None? && api.Some? ==>
                && fetch == Some(FetchRouteTypes(GetRouteTypes()))
                && result == if listing.Listed? then Form(RouteTypeStep, Options(listing.choices), map[]) else Raised
    {
      if input.Some? {
        data := data + input.value;
        result, fetch := StepStop(None, listing);
        return;
      }
      fetch := None;
      if api.None? {
        result := Raised;
        return;
      }
      fetch := Some(FetchRouteTypes(GetRouteTypes()));
      result := if listing.Listed? then Form(RouteTypeStep, Options(listing.choices), map[]) else Raised;
    }

    /** `async_step_stop`: the stop id is typed in, nothing is listed. */
    method StepStop(input: Option<map<string, Value>>, listing: Listing)
      returns (result: FlowResult, fetch: Option<Fetch>)
      modifies this
      ensures api == old(api)
      ensures input.None? ==> data == old(data) && result == Form(StopStep, map[], map[]) && fetch == None
      ensures input.Some? ==> data == old(data) + input.value
      ensures input.Some? && (api.None? || RouteTypeKey !in data) ==> result == Raised && fetch == None
      ensures input.Some? && api.Some? && RouteTypeKey in data ==>
                && fetch.Some? && fetch.value.FetchRoutes?
                && RoutesFilteredBy(fetch.value.call, data[RouteTypeKey])
                && result == if listing.Listed? then Form(RouteStep, Options(listing.choices), map[]) else Raised
    {
      if input.Some? {
        data := data + input.value;
        result, fetch := StepRoute(None, listing);
        return;
      }
      result, fetch := Form(StopStep, map[], map[]), None;
    }

    /** `async_step_route`. Without input it lists the routes of the chosen route
        type; a missing connector or route type raises. With input it hands
        over to the corrected direction step (see `StepRouteAsWritten`). */
    method StepRoute(input: Option<map<string, Value>>, listing: Listing)
      returns (result: FlowResult, fetch: Option<Fetch>)
      modifies this
      ensures api == old(api)
      ensures input.Some? ==> data == old(data) + input.value
      ensures input.Some? && (api.None? || RouteIdKey !in data) ==> result == Raised && fetch == None
      ensures input.Some? && api.Some? && RouteIdKey in data && DirectionsCallFor(data[RouteIdKey]).None? ==>
                result == Raised && fetch == None
      ensures input.Some? && api.Some? && RouteIdKey in data && DirectionsCallFor(data[RouteIdKey]).Some? ==>
                && fetch == Some(FetchDirections(DirectionsCallFor(data[RouteIdKey]).value))
                && result == if listing.Listed? then Form(DirectionStep, Options(listing.choices), map[]) else Raised
      ensures input.None? ==> data == old(data)
      ensures input.None? && (api.None? || RouteTypeKey !in data) ==> result == Raised && fetch == None
      ensures input.None? && api.Some? && RouteTypeKey in data ==>
                && fetch.Some? && fetch.value.FetchRoutes?
                && RoutesFilteredBy(fetch.value.call, data[RouteTypeKey])
                && result == if listing.Listed? then Form(RouteStep, Options(listing.choices), map[]) else Raised
    {
      if input.Some? {
        data := data + input.value;
        result, fetch := StepDirection(None, listing);
        return;
      }
      if api.None? || RouteTypeKey !in data {
        result, fetch := Raised, None;
        return;
      }
      var call := GetAllRoutes(RouteRequest(Some([data[RouteTypeKey]]), None));
      JoinSingle(Render(data[RouteTypeKey]), ",");
      fetch := Some(FetchRoutes(call));
      result := if listing.Listed? then Form(RouteStep, Options(listing.choices), map[]) else Raised;
    }

    /** `async_step_direction`. With input it finishes the flow; without, it
        lists the directions of the chosen route. */
    method StepDirection(input: Option<map<string, Value>>, listing: Listing)
      returns (result: FlowResult, fetch: Option<Fetch>)
      modifies this
      ensures api == old(api)
      ensures input.Some? ==> data == old(data) + input.value && result == Entry(EntryTitle, data) && fetch == None
      ensures input.None? ==> data == old(data)
      ensures input.None? && (api.None? || RouteIdKey !in data) ==> result == Raised && fetch == None
      ensures input.None? && api.Some? && RouteIdKey in data && DirectionsCallFor(data[RouteIdKey]).None? ==>
                result == Raised && fetch == None
      ensures input.None? && api.Some? && RouteIdKey in data && DirectionsCallFor(data[RouteIdKey]).Some? ==>
                && fetch == Some(FetchDirections(DirectionsCallFor(data[RouteIdKey]).value))
                && result == if listing.Listed? then Form(DirectionStep, Options(listing.choices), map[]) else Raised
    {
      if input.Some? {
        data := data + input.value;
        result, fetch := Entry(EntryTitle, data), None;
        return;
      }
      if api.None? || RouteIdKey !in data {
        result, fetch := Raised, None;
        return;
      }
      var call := DirectionsCallFor(data[RouteIdKey]);
      if call.None? {
        result, fetch := Raised, None;
        return;
      }
      fetch := Some(FetchDirections(call.value));
      result := if listing.Listed? then Form(DirectionStep, Options(listing.choices), map[]) else Raised;
    }

    /** `async_step_direction` as written: without input it hands the raw route
        id to `get_directions_for_route`, whose `request.route_id` raises
        `AttributeError`; a missing connector or route id raises earlier. */
    method StepDirectionAsWritten(input: Option<map<string, Value>>, listing: Listing)
      returns (result: FlowResult, fetch: Option<Fetch>)
      modifies this
      ensures api == old(api)
      ensures input.Some? ==> data == old(data) + input.value && result == Entry(EntryTitle, data) && fetch == None
      ensures input.None? ==> data == old(data) && result == Raised && fetch == None
    {
      if input.Some? {
        data := data + input.value;
        result, fetch := Entry(EntryTitle, data), None;
        return;
      }
      if api.Some? && RouteIdKey in data {
        var call := DirectionsCallAsWritten(data[RouteIdKey]);
        assert call.None?;
      }
      result, fetch := Raised, None;
    }

    /** `async_step_route` as written: a submitted route is merged and the
        as-written direction step raises; without input it is `StepRoute`. */
    method StepRouteAsWritten(input: Option<map<string, Value>>, listing: Listing)
      returns (result: FlowResult, fetch: Option<Fetch>)
      modifies this
      ensures api == old(api)
      ensures input.Some? ==> data == old(data) + input.value && result == Raised && fetch == None
      ensures input.None? ==> data == old(data)
      ensures input.None? && (api.None? || RouteTypeKey !in data) ==> result == Raised && fetch == None
      ensures input.None? && api.Some? && RouteTypeKey in data ==>
                && fetch.Some? && fetch.value.FetchRoutes?
                && RoutesFilteredBy(fetch.value.call, data[RouteTypeKey])
                && result == if listing.Listed? then Form(RouteStep, Options(listing.choices), map[]) else Raised
    {
      if input.Some? {
        data := data + input.value;
        result, fetch := StepDirectionAsWritten(None, listing);
        return;
      }
      result, fetch := StepRoute(None, listing);
    }
  }

  /** The directions request of the direction step as written: the stored
      route id itself is handed over, so reading its `route_id` raises. */
  function DirectionsCallAsWritten(routeId: Value): (call: Option<Call>)
    ensures call == None
  {
    DirectionsForRouteOn(ValueArgument(routeId))
  }

  /** The directions request as evidently intended: the stored route id goes
      through `int()` into a `DirectionRequest`; `None` when `int()` raises.
      The request asks for the directions of exactly that route. */
  function DirectionsCallFor(routeId: Value): (call: Option<Call>)
    ensures call.Some? <==> ToInt(routeId).Some?
    ensures call.Some? ==> call.value.params == None
    ensures call.Some? ==> Segments(call.value.path) == ["", "v3", "directions", "route", IntToString(ToInt(routeId).value)]
  {
    match ToInt(routeId)
    case None => None
    case Some(n) =>
      DirectionsForRouteOnRequest(DirectionRequest(n));
      DirectionsForRouteOn(RequestArgument(DirectionRequest(n)))
  }

  /** The route form offers each route under `str(route_id)`; submitting that
      key back, the corrected step asks for the directions of the route whose
      id renders as that very key. */
  lemma ChosenRouteDirections(routeId: int)
    ensures var key := Render(VInt(routeId));
            && DirectionsCallFor(VStr(key)).Some?
            && Segments(DirectionsCallFor(VStr(key)).value.path) == ["", "v3", "directions", "route", key]
  {
    ToIntOfRendered(routeId);
  }

  /** The routes request of the route step: `/v3/routes` filtered by exactly the
      one chosen route type, sent as its `str` and nothing else. */
  predicate RoutesFilteredBy(call: Call, routeType: Value)
  {
    && call.path == "/v3/routes"
    && call.params.Some?
    && Keys(call.params.value) == ["route_types"]
    && Lookup(call.params.value, "route_types") == Some(VStr(Render(routeType)))
  }

  lemma JoinSingle(x: string, sep: string)
    ensures Join([x], sep) == x
  {
  }

  /** A whole successful run of the corrected flow: the five forms submitted in
      order on a new flow, each API call answered. The directions asked for are
      those of the chosen route, and the entry holds every answer, a later
      answer overriding an earlier one under the same key. */
  method CompleteFlow(user: map<string, Value>, routeType: map<string, Value>, stop: map<string, Value>,
                      route: map<string, Value>, direction: map<string, Value>,
                      routeTypes: seq<Choice>, routes: seq<Choice>, directions: seq<Choice>)
    returns (directionsFetch: Option<Fetch>, entry: FlowResult)
    requires DevIdKey in user && ApiKeyKey in user
    requires RouteTypeKey in user + routeType + stop
    requires RouteIdKey in user + routeType + stop + route
    requires ToInt((user + routeType + stop + route)[RouteIdKey]).Some?
    ensures var routeId := ToInt((user + routeType + stop + route)[RouteIdKey]).value;
            directionsFetch == Some(FetchDirections(GetDirectionsForRoute(DirectionRequest(routeId))))
    ensures entry == Entry(EntryTitle, user + routeType + stop + route + direction)
  {
    var flow := new Flow();
    var shown, fetch := flow.StepUser(None, Responded(true), Listed(routeTypes));
    assert shown == Form(UserStep, map[], map[]);
    shown, fetch := flow.StepUser(Some(user), Responded(true), Listed(routeTypes));
    assert flow.data == map[] + user == user;
    assert flow.api.Some?;
    assert shown == Form(RouteTypeStep, Options(routeTypes), map[]);
    shown, fetch := flow.StepRouteType(Some(routeType), Listed(routes));
    assert flow.data == user + routeType;
    assert shown == Form(StopStep, map[], map[]);
    shown, fetch := flow.StepStop(Some(stop), Listed(routes));
    assert flow.data == user + routeType + stop;
    assert shown == Form(RouteStep, Options(routes), map[]);
    shown, directionsFetch := flow.StepRoute(Some(route), Listed(directions));
    assert flow.data == user + routeType + stop + route;
    assert shown == Form(DirectionStep, Options(directions), map[]);
    entry, fetch := flow.StepDirection(Some(direction), Listed([]));
  }

  /** The same run on the flow as written: whatever the answers, submitting the
      route form raises, so the flow never reaches the direction form or an entry. */
  method CompleteFlowAsWritten(user: map<string, Value>, routeType: map<string, Value>, stop: map<string, Value>,
                               route: map<string, Value>, routeTypes: seq<Choice>, routes: seq<Choice>)
    returns (outcome: FlowResult)
    ensures outcome == Raised
  {
    var flow := new Flow();
    var shown, fetch := flow.StepUser(Some(user), Responded(true), Listed(routeTypes));
    shown, fetch := flow.StepRouteType(Some(routeType), Listed(routes));
    shown, fetch := flow.StepStop(Some(stop), Listed(routes));
    outcome, fetch := flow.StepRouteAsWritten(Some(route), Listed([]));
  }
}
