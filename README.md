# Public Transport Victoria integration — a Dafny model

This project models the core of the Home Assistant integration for Public
Transport Victoria (PTV) timetable API version 3. It covers three parts:

- **The API client** (`PTVApiClient._build_url`). It appends the
  parameters and the developer id to `BASE_URL + path`, signs everything
  after the host with HMAC-SHA1 under the API key, and appends the
  hex-encoded signature.
- **The endpoint wrappers.** These are departures, disruptions, stops,
  routes, patterns, directions, runs and route types. Each one turns a
  request into a path and an ordered parameter dictionary.
- **The connector and the configuration flow.**
  - The connector `PTVApi.async_get_departures` builds a departure request
    from the configured stop, route and direction. It then turns the API's
    departures into records of departure time, platform and direction.
  - The configuration flow `PTVConfigFlow` walks through user, route
    type, stop, route and direction. It accumulates the answers in a
    `data` dictionary. It is meant to end in an entry, but as written
    submitting the route form always raises (see "## Findings"). The model
    keeps both the flow as written and a corrected direction step.

How the Python is modelled:

- A Python dictionary of parameters is a sequence of `Param` in insertion
  order (`PtvClient.Call`).
- A Python value (`None`, `bool`, `int`, `str`) is `PyValue.Value`.
  `str()` is modelled by `Render`, truthiness by `Truthy` and `int()`
  by `ToInt`.
- The HMAC primitive is a function parameter returning a 20-byte digest.
- The connector's time conversion is a function parameter.
- API responses are inputs: the connector's departure list, and the flow's
  listings and credential probe.
- Pure code (URL building, the wrappers, the response mapping) is
  functions and lemmas.
- Code that loops over a response (`async_get_departures`) is a method
  with a loop, proved against a reference definition.
- `get_all_routes` builds its parameter dictionary by conditional
  insertion. It is a method that extends a local sequence; it has no object
  and modifies nothing.
- The configuration flow updates its `data` dictionary and its connector
  field in place. It is a class with `api` and `data` fields, one method per
  step.

Where the written code and the documented design differ, the model follows
the code:

- A parameter whose value is `None` is sent as the text `None`. Only an
  empty or missing dictionary is left out of the query.
- The credential test checks the truthiness of the whole route-types
  response.
- Nothing in the repository raises `InvalidAuth`. The `invalid_auth`
  branch is still modelled: the probe outcome `RaisedInvalidAuth` is an
  input of the model, so the branch is reachable there even though the
  code as written never takes it.
- When the nested route-type step raises inside the user step, the error
  is reported as `unknown`. The credentials and the merged `data` are
  kept.
- The connector reads `self.route_type`, `self.stop`, `self.route` and
  `self.direction`, which its constructor never sets, and it uses
  `DepartureRequest` without importing it. The model takes the four
  settings as inputs (`Connector.Settings`) and uses the request type of
  `departures.py`.
- The route step passes the form's route type, as received, into
  `RouteRequest.route_types`. For that reason routes' `route_types` are
  modelled as Python values and rendered with `str()`.

## Model

Source paths are relative to the repository root.

| member | source | states |
|---|---|---|
| PtvClient.Lookup | custom_components/public_transport_victoria/PublicTransportVictoria/api/routes.py:22-26 | reading a key of a built parameter dictionary (as the routes filter does) finds a value exactly when the key is one of the dictionary's keys |
| PtvClient.UnsignedUrl | custom_components/public_transport_victoria/PublicTransportVictoria/api/client.py:25-29 | the URL before signing always starts with `BASE_URL + path` |
| PtvClient.UrlSignature | custom_components/public_transport_victoria/PublicTransportVictoria/api/client.py:32-33 | the signature is 40 characters long, the hex form of a 20-byte SHA-1 HMAC |
| PtvClient.BuildUrl | custom_components/public_transport_victoria/PublicTransportVictoria/api/client.py:23-35 | the signed URL still starts with `BASE_URL + path` |
| PtvClient.UnsignedLayout | custom_components/public_transport_victoria/PublicTransportVictoria/api/client.py:25-29 | the unsigned URL is `BASE_URL` followed by the path, the `?`-joined query and `devid=<dev_id>` |
| PtvClient.LayoutAfterHost | custom_components/public_transport_victoria/PublicTransportVictoria/api/client.py:25-29 | for any host without `?`, the URL is host + path + query + devid, with `&` or `?` chosen by whether a `?` is already present |
| PtvClient.UnsignedWithParams | custom_components/public_transport_victoria/PublicTransportVictoria/api/client.py:26-29 | with a non-empty dictionary and a `?`-free path, the URL is `path?k1=v1&...&kn=vn&devid=<dev_id>` in insertion order |
| PtvClient.UnsignedWithoutParams | custom_components/public_transport_victoria/PublicTransportVictoria/api/client.py:26-29 | with no or an empty dictionary, the URL is `path?devid=<dev_id>` |
| PtvClient.BuildUrlLayout | custom_components/public_transport_victoria/PublicTransportVictoria/api/client.py:31-35 | when `BASE_URL` does not recur after the host, the signed text is everything after the host and the URL ends in `&signature=` + hex(HMAC(api_key, signed text)) |
| PtvClient.SignatureIsDigest | custom_components/public_transport_victoria/PublicTransportVictoria/api/client.py:31-35 | hex-decoding the signature yields exactly HMAC(api_key, raw), so the signature determines the digest |
| PtvClient.OneQuestionMark | custom_components/public_transport_victoria/PublicTransportVictoria/api/client.py:27-29 | with `?`-free path, keys, values and dev id, the final URL has exactly one `?` |
| PtvClient.UrlAroundMark | custom_components/public_transport_victoria/PublicTransportVictoria/api/client.py:25-35 | the URL is `BASE_URL + path`, then `?`, then the query, devid and signature |
| PtvClient.SignedTextAroundMark | custom_components/public_transport_victoria/PublicTransportVictoria/api/client.py:25-31 | the signed text is the path, `?`, and the query after the mark |
| PtvClient.QueryAfterMarkPlain | custom_components/public_transport_victoria/PublicTransportVictoria/api/client.py:27-29 | the text after the mark has no `?` when no entry and no dev id has one |
| PtvClient.BaseUrlPlain | custom_components/public_transport_victoria/PublicTransportVictoria/api/client.py:11 | `BASE_URL` has no `?` and no `&` |
| PtvClient.QueryEntries | custom_components/public_transport_victoria/PublicTransportVictoria/api/client.py:27 | when keys and rendered values have no `&`, splitting the query on `&` gives back the `key=str(value)` entries, one per parameter, in order |
| PtvClient.SigningInputTruncated | custom_components/public_transport_victoria/PublicTransportVictoria/api/client.py:31 | a path that repeats `BASE_URL` after a `/` makes the signed text just `/`: `split(BASE_URL)[1]` stops at the second occurrence |
| PtvClient.NoCharInJoin | custom_components/public_transport_victoria/PublicTransportVictoria/api/client.py:27 | a `'&'.join` of pieces without a character (the character not in the separator) has none of it |
| Text.SplitOn | custom_components/public_transport_victoria/PublicTransportVictoria/api/client.py:31 | `str.split` on a character always yields at least one piece |
| Text.SplitOnFree | custom_components/public_transport_victoria/PublicTransportVictoria/api/client.py:31 | splitting a text without the separator yields the text itself |
| Text.SplitOnCat | custom_components/public_transport_victoria/PublicTransportVictoria/api/client.py:31 | splitting `x + sep + y` concatenates the splits of `x` and of `y` |
| Text.SplitOnFreePrefix | custom_components/public_transport_victoria/PublicTransportVictoria/api/client.py:31 | a separator-free prefix is glued onto the first piece |
| Text.SplitJoin | custom_components/public_transport_victoria/PublicTransportVictoria/api/client.py:27 | splitting a join of separator-free pieces on the same separator gives the pieces back |
| Text.Split | custom_components/public_transport_victoria/PublicTransportVictoria/api/client.py:31 | `str.split` on a text separator yields at least one piece, and a text starting with it yields an empty first piece and at least two pieces |
| Text.SplitWithoutOccurrence | custom_components/public_transport_victoria/PublicTransportVictoria/api/client.py:31 | splitting a text that does not contain the separator yields the text itself |
| Text.SplitAfterSeparator | custom_components/public_transport_victoria/PublicTransportVictoria/api/client.py:31 | for `sep + t`, the second piece is the first piece of `t` |
| Text.SplitAfterForeignChar | custom_components/public_transport_victoria/PublicTransportVictoria/api/client.py:31 | a leading character that cannot start the separator stays on the first piece |
| Text.PathAppend | custom_components/public_transport_victoria/PublicTransportVictoria/api/departures.py:26-28 | appending segments to an f-string path is concatenation of the two paths |
| Text.PathWithout | custom_components/public_transport_victoria/PublicTransportVictoria/api/departures.py:26-28 | a path built from segments without a character (other than `/`) has none of it |
| Text.SegmentsOfPath | custom_components/public_transport_victoria/PublicTransportVictoria/api/departures.py:26-28 | splitting a built path on `/` recovers its segments after a leading empty one |
| Decimal.DigitChar | custom_components/public_transport_victoria/PublicTransportVictoria/api/departures.py:26 | each digit value is written as a digit character |
| Decimal.NatToString | custom_components/public_transport_victoria/PublicTransportVictoria/api/departures.py:26 | `str()` of a natural number is all digits |
| Decimal.IntToString | custom_components/public_transport_victoria/PublicTransportVictoria/api/departures.py:26 | `str()` of an int is non-empty, made of digits and `-`, and starts with a digit exactly when the number is non-negative |
| Decimal.NatRoundTrip | custom_components/public_transport_victoria/PublicTransportVictoria/api/departures.py:26 | reading the digits of `str(n)` gives back `n` |
| Decimal.IntRoundTrip | custom_components/public_transport_victoria/PublicTransportVictoria/api/departures.py:26 | `int(str(n)) == n` for every int |
| Decimal.IntToStringInjective | custom_components/public_transport_victoria/PublicTransportVictoria/api/departures.py:26 | different ids render differently, so distinct ids give distinct paths |
| Decimal.IntToStringPlain | custom_components/public_transport_victoria/PublicTransportVictoria/api/departures.py:26 | a rendered int never contains `/`, `,`, `&`, `?` or `=` and so cannot disturb a path, list or query |
| Hex.HexChar | custom_components/public_transport_victoria/PublicTransportVictoria/api/client.py:33 | each nibble is written as a lower-case hex digit |
| Hex.HexValue | custom_components/public_transport_victoria/PublicTransportVictoria/api/client.py:33 | a hex digit denotes a nibble below 16 |
| Hex.HexDigest | custom_components/public_transport_victoria/PublicTransportVictoria/api/client.py:33 | `hexdigest()` is twice as long as the digest and lower-case hex throughout |
| Hex.HexRoundTrip | custom_components/public_transport_victoria/PublicTransportVictoria/api/client.py:33 | decoding `hexdigest()` gives back the digest bytes |
| Hex.HexDigestInjective | custom_components/public_transport_victoria/PublicTransportVictoria/api/client.py:33 | different digests have different hex forms |
| PyValue.ToIntOfRendered | custom_components/public_transport_victoria/PublicTransportVictoria/public_transport_victoria.py:41-44 | `int(str(n)) == n` and `int(n) == n` on Python values |
| ListParams.JoinedOrNone | custom_components/public_transport_victoria/PublicTransportVictoria/api/departures.py:34 | `",".join(xs) if xs else None` is a string exactly when the list is present and non-empty, otherwise `None` |
| ListParams.JoinedIntsOrNone | custom_components/public_transport_victoria/PublicTransportVictoria/api/disruptions.py:24-25 | `",".join(map(str, xs)) if xs else None` is a string exactly when the list is present and non-empty, otherwise `None` |
| ListParams.JoinedRoundTrip | custom_components/public_transport_victoria/PublicTransportVictoria/api/departures.py:34 | splitting the joined `expand` value on `,` gives back the comma-free items |
| ListParams.JoinedIntsRoundTrip | custom_components/public_transport_victoria/PublicTransportVictoria/api/disruptions.py:24-25 | splitting the joined id list on `,` and parsing each piece gives back the ids |
| DeparturesApi.GetDepartures | custom_components/public_transport_victoria/PublicTransportVictoria/api/departures.py:30-35 | the parameters are `direction_id`, `max_results`, `include_cancelled` and `expand` in that order, with the request's values and the joined `expand` list or `None` |
| DeparturesApi.DeparturesPath | custom_components/public_transport_victoria/PublicTransportVictoria/api/departures.py:26-28 | the path segments are `v3/departures/route_type/<rt>/stop/<stop>`, then `route/<route>` exactly when the route id is present and non-zero |
| DeparturesApi.DeparturesPathWithRoute | custom_components/public_transport_victoria/PublicTransportVictoria/api/departures.py:26-28 | a truthy route id adds the `route/<id>` segments |
| DeparturesApi.DeparturesPathWithoutRoute | custom_components/public_transport_victoria/PublicTransportVictoria/api/departures.py:26-27 | an absent or zero route id adds nothing |
| DeparturesApi.DeparturesQuery | custom_components/public_transport_victoria/PublicTransportVictoria/api/departures.py:26-37 | the request URL carries all four parameters, `None` ones as the text `None`, then `devid` |
| DeparturesApi.DeparturesPathPlain | custom_components/public_transport_victoria/PublicTransportVictoria/api/departures.py:26-28 | the departures path has no `?` |
| DisruptionsApi.GetAllDisruptions | custom_components/public_transport_victoria/PublicTransportVictoria/api/disruptions.py:20-28 | the path is `/v3/disruptions`, and the parameters are `route_types`, `disruption_modes` and `disruption_status`, the lists joined or `None` |
| DisruptionsApi.GetDisruptionsByRoute | custom_components/public_transport_victoria/PublicTransportVictoria/api/disruptions.py:30-34 | the only parameter is `disruption_status` |
| DisruptionsApi.GetDisruptionsByRouteAndStop | custom_components/public_transport_victoria/PublicTransportVictoria/api/disruptions.py:36-40 | the only parameter is `disruption_status` |
| DisruptionsApi.GetDisruptionsByStop | custom_components/public_transport_victoria/PublicTransportVictoria/api/disruptions.py:42-46 | the only parameter is `disruption_status` |
| DisruptionsApi.GetDisruptionById | custom_components/public_transport_victoria/PublicTransportVictoria/api/disruptions.py:48-51 | no parameters are sent |
| DisruptionsApi.GetDisruptionModes | custom_components/public_transport_victoria/PublicTransportVictoria/api/disruptions.py:53-56 | the path is `/v3/disruptions/modes` with no parameters |
| DisruptionsApi.DisruptionsByRoutePath | custom_components/public_transport_victoria/PublicTransportVictoria/api/disruptions.py:32 | the segments are `v3/disruptions/route/<route>` |
| DisruptionsApi.DisruptionsByRouteAndStopPath | custom_components/public_transport_victoria/PublicTransportVictoria/api/disruptions.py:38 | the segments are `v3/disruptions/route/<route>/stop/<stop>` |
| DisruptionsApi.DisruptionsByStopPath | custom_components/public_transport_victoria/PublicTransportVictoria/api/disruptions.py:44 | the segments are `v3/disruptions/stop/<stop>` |
| DisruptionsApi.DisruptionByIdPath | custom_components/public_transport_victoria/PublicTransportVictoria/api/disruptions.py:50 | the segments are `v3/disruptions/<id>` |
| DisruptionsApi.DisruptionByIdIsNotModes | custom_components/public_transport_victoria/PublicTransportVictoria/api/disruptions.py:48-56 | no disruption id, negative ones included, produces the modes path |
| StopsApi.GetStopById | custom_components/public_transport_victoria/PublicTransportVictoria/api/stops.py:33-37 | the only parameter is `stop_disruptions` |
| StopsApi.GetStopsForRoute | custom_components/public_transport_victoria/PublicTransportVictoria/api/stops.py:39-48 | the parameters are the four flags in source order with the request's values |
| StopsApi.DistanceParams | custom_components/public_transport_victoria/PublicTransportVictoria/api/stops.py:53-58 | the parameters are `route_types` (joined or `None`), `max_results`, `max_distance` and `stop_disruptions` |
| StopsApi.GetStopsByDistance | custom_components/public_transport_victoria/PublicTransportVictoria/api/stops.py:50-59 | as written, the call sends the four distance parameters |
| StopsApi.StopsByDistancePath | custom_components/public_transport_victoria/PublicTransportVictoria/api/stops.py:52 | as written, the last path segment is the literal text `{request.latitude},{request.longitude}` |
| StopsApi.StopsByDistanceIgnoresLocation | custom_components/public_transport_victoria/PublicTransportVictoria/api/stops.py:50-59 | as written, two requests that differ only in their coordinates give the same call |
| StopsApi.StopsByDistanceCounterexample | custom_components/public_transport_victoria/PublicTransportVictoria/api/stops.py:52 | as written, Melbourne CBD and Geelong give the same signed URL |
| StopsApi.GetStopsByDistanceFixed | custom_components/public_transport_victoria/PublicTransportVictoria/api/stops.py:50-59 | the corrected call sends the same parameters |
| StopsApi.StopsByDistanceFixedLocation | custom_components/public_transport_victoria/PublicTransportVictoria/api/stops.py:52 | corrected: the last segment splits at `,` into the rendered latitude and longitude |
| StopsApi.StopsByDistanceFixedDistinguishes | custom_components/public_transport_victoria/PublicTransportVictoria/api/stops.py:52 | corrected: locations that render differently give different paths |
| StopsApi.StopByIdPath | custom_components/public_transport_victoria/PublicTransportVictoria/api/stops.py:35 | the segments are `v3/stops/<stop>/route_type/<type>` |
| StopsApi.StopsForRoutePath | custom_components/public_transport_victoria/PublicTransportVictoria/api/stops.py:41 | the segments are `v3/stops/route/<route>/route_type/<type>` |
| RoutesApi.Renders | custom_components/public_transport_victoria/PublicTransportVictoria/api/routes.py:24 | `map(str, ...)` renders each element in place |
| RoutesApi.GetAllRoutes | custom_components/public_transport_victoria/PublicTransportVictoria/api/routes.py:19-27 | the path is `/v3/routes`. The keys are `route_types` if the list is truthy, then `route_name` if the name is truthy. `route_types` maps to the comma-joined rendering and `route_name` to the name; each key is absent otherwise |
| RoutesApi.AllRoutesUnfiltered | custom_components/public_transport_victoria/PublicTransportVictoria/api/routes.py:22-27 | the unfiltered (empty-dictionary) request URL is `/v3/routes?devid=<dev_id>` |
| RoutesApi.GetRouteById | custom_components/public_transport_victoria/PublicTransportVictoria/api/routes.py:29-32 | no parameters are sent |
| RoutesApi.RouteByIdLayout | custom_components/public_transport_victoria/PublicTransportVictoria/api/routes.py:29-32 | the segments are `v3/routes/<id>`, and the URL is that path with `?devid=` |
| PatternsApi.GetPattern | custom_components/public_transport_victoria/PublicTransportVictoria/api/patterns.py:20-24 | the only parameter is `expand`, joined or `None` |
| PatternsApi.PatternPath | custom_components/public_transport_victoria/PublicTransportVictoria/api/patterns.py:22 | the segments are `v3/pattern/run/<run>/route_type/<type>` |
| PatternsApi.PatternPathPlain | custom_components/public_transport_victoria/PublicTransportVictoria/api/patterns.py:22 | the pattern path has no `?` |
| PatternsApi.PatternQuery | custom_components/public_transport_victoria/PublicTransportVictoria/api/patterns.py:20-24 | the query is `?expand=<joined>&devid=`, and an absent or empty list is sent as `expand=None` |
| DirectionsApi.GetDirectionsForRoute | custom_components/public_transport_victoria/PublicTransportVictoria/api/directions.py:18-21 | no parameters are sent |
| DirectionsApi.GetDirectionById | custom_components/public_transport_victoria/PublicTransportVictoria/api/directions.py:23-26 | no parameters are sent |
| DirectionsApi.GetDirectionForRouteAndType | custom_components/public_transport_victoria/PublicTransportVictoria/api/directions.py:28-31 | no parameters are sent |
| DirectionsApi.DirectionsForRoutePath | custom_components/public_transport_victoria/PublicTransportVictoria/api/directions.py:20 | the segments are `v3/directions/route/<route>` |
| DirectionsApi.DirectionByIdPath | custom_components/public_transport_victoria/PublicTransportVictoria/api/directions.py:25 | the segments are `v3/directions/<id>` |
| DirectionsApi.DirectionForRouteAndTypePath | custom_components/public_transport_victoria/PublicTransportVictoria/api/directions.py:30 | the segments are `v3/directions/<id>/route_type/<type>` |
| DirectionsApi.DirectionsPathsDistinct | custom_components/public_transport_victoria/PublicTransportVictoria/api/directions.py:18-31 | the route listing path never coincides with either by-id path |
| RunsApi.GetRunsForRoute | custom_components/public_transport_victoria/PublicTransportVictoria/api/runs.py:19-22 | no parameters are sent |
| RunsApi.GetRunById | custom_components/public_transport_victoria/PublicTransportVictoria/api/runs.py:24-27 | no parameters are sent |
| RunsApi.RunsForRoutePath | custom_components/public_transport_victoria/PublicTransportVictoria/api/runs.py:21 | the segments are `v3/runs/route/<route>/route_type/<type>` |
| RunsApi.RunByIdPath | custom_components/public_transport_victoria/PublicTransportVictoria/api/runs.py:26 | the segments are `v3/runs/<run>/route_type/<type>` |
| RunsApi.RunsPathsDistinct | custom_components/public_transport_victoria/PublicTransportVictoria/api/runs.py:19-27 | the runs-for-route path never coincides with a run-by-id path |
| RouteTypesApi.GetRouteTypes | custom_components/public_transport_victoria/PublicTransportVictoria/api/route_types.py:11-14 | no parameters are sent |
| RouteTypesApi.RouteTypesUrl | custom_components/public_transport_victoria/PublicTransportVictoria/api/route_types.py:11-14 | the signed text is `/v3/route_types?devid=<dev_id>`, and the URL is that text with its HMAC signature |
| Connector.DepartureRequestFor | custom_components/public_transport_victoria/PublicTransportVictoria/public_transport_victoria.py:40-48 | the request is built exactly when `int()` succeeds on route type, stop, and the truthy route and direction. It carries those ids, with route and direction `None` when falsy, and `max_results=5`, `include_cancelled=False`, `expand=["All"]` |
| Connector.RouteInDeparturesPath | custom_components/public_transport_victoria/PublicTransportVictoria/public_transport_victoria.py:40-50 | the configured route appears in the departures path exactly when it is truthy and non-zero |
| Connector.ChosenTime | custom_components/public_transport_victoria/PublicTransportVictoria/public_transport_victoria.py:54 | the chosen time is truthy exactly when the estimated or the scheduled time is |
| Connector.DirectionName | custom_components/public_transport_victoria/PublicTransportVictoria/public_transport_victoria.py:59 | `.get("direction", {}).get("direction_name")` raises exactly on an explicit `null` direction. It gives `None` when the key is missing, and the name or `None` otherwise |
| Connector.RecordFor | custom_components/public_transport_victoria/PublicTransportVictoria/public_transport_victoria.py:54-60 | a kept departure makes a record exactly when its time is a string that converts and its direction is not `null`. The record holds the converted time, the platform and the direction name |
| Connector.AsyncGetDepartures | custom_components/public_transport_victoria/PublicTransportVictoria/public_transport_victoria.py:38-62 | the loop issues the departures call for the settings and returns exactly `DeparturesOutcome`, the reference mapping of the whole response |
| Connector.KeptOnly | custom_components/public_transport_victoria/PublicTransportVictoria/public_transport_victoria.py:55 | the departures with a truthy time: no more than were received, each one from the response and kept, and every kept departure of the response among them |
| Connector.RecordsReference | custom_components/public_transport_victoria/PublicTransportVictoria/public_transport_victoria.py:52-62 | the loop succeeds exactly when every kept departure makes a record, and then returns one record per kept departure, in order |
| Connector.RecordsFailure | custom_components/public_transport_victoria/PublicTransportVictoria/public_transport_victoria.py:52-62 | when the loop raises, it raises the error of the first kept departure that fails |
| Connector.RecordsSkip | custom_components/public_transport_victoria/PublicTransportVictoria/public_transport_victoria.py:55 | a departure without a time contributes nothing |
| Connector.RecordsTake | custom_components/public_transport_victoria/PublicTransportVictoria/public_transport_victoria.py:55-60 | a departure with a time contributes its record or stops the loop with its error |
| Connector.FailureShifts | custom_components/public_transport_victoria/PublicTransportVictoria/public_transport_victoria.py:52-60 | a successful departure in front moves the first failure one place |
| Connector.RecordsCount | custom_components/public_transport_victoria/PublicTransportVictoria/public_transport_victoria.py:52-62 | there are never more records than departures |
| Connector.MissingDeparturesEmpty | custom_components/public_transport_victoria/PublicTransportVictoria/public_transport_victoria.py:53 | a response without `departures` gives an empty list |
| Connector.TimelessDropped | custom_components/public_transport_victoria/PublicTransportVictoria/public_transport_victoria.py:54-55 | removing a departure with neither time, anywhere in the list, does not change the outcome |
| Connector.TimeChoice | custom_components/public_transport_victoria/PublicTransportVictoria/public_transport_victoria.py:54-57 | the estimated time is used when truthy, and the scheduled time otherwise |
| Connector.PrependTwice | custom_components/public_transport_victoria/PublicTransportVictoria/public_transport_victoria.py:56 | appending two batches of records is appending their concatenation |
| Connector.PrependNothing | custom_components/public_transport_victoria/PublicTransportVictoria/public_transport_victoria.py:52 | appending no records changes nothing |
| ConfigFlow.UserError | custom_components/public_transport_victoria/config_flow.py:49-64 | an error re-shows the user form with the error under `base` |
| ConfigFlow.OptionsKeys | custom_components/public_transport_victoria/config_flow.py:75 | the options' keys are exactly `str()` of the listed ids (the same comprehension builds the route and direction options at lines 115 and 136) |
| ConfigFlow.OptionsLastWins | custom_components/public_transport_victoria/config_flow.py:75 | an id's option holds the name of its last occurrence in the listing (likewise at lines 115 and 136) |
| ConfigFlow.Flow.constructor | custom_components/public_transport_victoria/config_flow.py:29-32 | a new flow has no connector and empty data |
| ConfigFlow.Flow.StepUser | custom_components/public_transport_victoria/config_flow.py:34-64 | the submitted credentials build the connector, and a missing key reports `unknown` and changes nothing. A truthy probe merges the input and moves on to the route-type step (route-type form, or `unknown` if that listing raised). A falsy probe reports `cannot_connect`, `InvalidAuth` `invalid_auth`, any other exception `unknown`. With no input the user form is shown |
| ConfigFlow.Flow.StepRouteType | custom_components/public_transport_victoria/config_flow.py:66-83 | input is merged and hands over to the stop form. Without input the route types are fetched and offered by `str(route_type)`. A missing connector or a failed listing raises |
| ConfigFlow.Flow.StepStop | custom_components/public_transport_victoria/config_flow.py:85-101 | input is merged and hands over to the route step, otherwise the stop form is shown |
| ConfigFlow.Flow.StepRoute | custom_components/public_transport_victoria/config_flow.py:103-123 | corrected hand-over: input is merged and the corrected direction step follows (directions of `int(route id)`, or a raise when `int()` fails). Without input it fetches `/v3/routes` filtered by the chosen route type and offers the routes by `str(route_id)`. A missing route type or connector raises |
| ConfigFlow.Flow.StepRouteAsWritten | custom_components/public_transport_victoria/config_flow.py:103-109 | as written: a submitted route is merged and the step raises, because the direction step it hands over to raises. Without input it is the route listing above |
| ConfigFlow.Flow.StepDirection | custom_components/public_transport_victoria/config_flow.py:125-144 | corrected: input is merged and the entry is created with title `Public Transport Victoria` and all data. Without input it asks for the directions of `int(route id)` and offers them. A missing route id or connector, or a failing `int()`, raises |
| ConfigFlow.Flow.StepDirectionAsWritten | custom_components/public_transport_victoria/config_flow.py:125-136 | as written: input is merged and the entry is created. Without input the step always raises, because the raw route id is handed to `get_directions_for_route` |
| ConfigFlow.DirectionsCallAsWritten | custom_components/public_transport_victoria/config_flow.py:133-135 | as written, handing the stored route id to `get_directions_for_route` never yields a call |
| ConfigFlow.DirectionsCallFor | custom_components/public_transport_victoria/config_flow.py:133-135 | corrected: a call exists exactly when `int()` of the stored route id succeeds. It sends no parameters, and its path is `v3/directions/route/<int(route id)>` |
| ConfigFlow.ChosenRouteDirections | custom_components/public_transport_victoria/config_flow.py:115 | submitting back the route form's key `str(route_id)`, the corrected step asks for the directions of the route whose id renders as that key |
| ConfigFlow.JoinSingle | custom_components/public_transport_victoria/config_flow.py:111-113 | joining the one chosen route type leaves it unchanged, so the filter is that route type's text |
| ConfigFlow.CompleteFlow | custom_components/public_transport_victoria/config_flow.py:34-144 | corrected flow: answering the five forms in order, the directions fetched are those of `int(route id)`, and the entry's data is the union of all the answers, later ones winning |
| ConfigFlow.CompleteFlowAsWritten | custom_components/public_transport_victoria/config_flow.py:34-136 | as written: whatever is answered, the run raises when the route form is submitted |
| DirectionsApi.DirectionsForRouteOn | custom_components/public_transport_victoria/PublicTransportVictoria/api/directions.py:18-21 | `get_directions_for_route` yields a call exactly when it is handed a `DirectionRequest`. Anything else raises on `request.route_id` |
| DirectionsApi.DirectionsForRouteOnRequest | custom_components/public_transport_victoria/PublicTransportVictoria/api/directions.py:18-21 | handed a request, it asks for `v3/directions/route/<route_id>` |

## Left out

- HTTP itself is not modelled: the `aiohttp` session, `raise_for_status`, JSON decoding, and the `params` that `_request` also forwards to `session.request`. A call is modelled by the path and parameters it hands to the client.
- HMAC-SHA1 is a parameter (`Hmac`) because its internals are a foreign library. The model states only that the signature is its hex form over the signed text.
- The UTC to local time conversion (`_convert_utc_to_local`) is a parameter (`Convert`), because `strptime`, time zones and `strftime` are library code. `None` stands for a value that does not parse.
- `str()` of a float is a parameter (`render`) of the corrected stops-by-distance call, because floating-point printing is not modelled.
- `int()` of a string is modelled for an optional sign followed by ASCII decimal digits. Surrounding whitespace, `_` separators and non-ASCII digits, which Python also accepts, are not modelled: such strings are treated as raising.
- The configuration keys in `const.py` are assumed, because `const.py` is not part of this model. The model relies only on the keys being distinct.
- The voluptuous schemas, translation of errors, logging and Home Assistant's flow manager are not modelled. A form is modelled by its step, its options and its errors.
- The integration's set-up in `__init__.py`, the sensor platform and the wiring of `PTVApi` (the API objects it creates) are not modelled.
- Listing responses are taken as already reduced to `(id, name)` pairs. A missing key in a response is modelled as a failed listing.
- PtvClient.BuildUrlLayout: when `BASE_URL` recurs inside the path or query, the signed text is cut at the second occurrence. That case is only stated by SigningInputTruncated; the layout lemma requires that `BASE_URL` does not recur.
- Connector.AsyncGetDepartures: when `int()` of a setting raises, the model reports `BadSetting` and issues no call; the Python exception type (`ValueError` or `TypeError`) is not distinguished.
- Response shapes other than those modelled are left out: a departure that is not an object; a `departures` entry that is neither absent, `null` nor a list; and a `direction` that is present but is neither an object nor `null` (a string, number or list, on which `.get("direction_name")` also raises). The model covers an absent entry, `null` (iterating over it raises) and a list of departure objects, and Connector.DirectionName's "raises exactly on `null`" is meant within these shapes.
- ConfigFlow.Flow.StepRoute: as written, submitting the route form raises `AttributeError`, because the direction step passes the raw route id to `get_directions_for_route`, which reads `request.route_id`. This member models the evidently intended hand-over instead. StepRouteAsWritten models the code as written.
- ConfigFlow.Flow.StepDirection: as written, the step without input raises `AttributeError` on `request.route_id`. This member models the evidently intended call `get_directions_for_route(DirectionRequest(route_id=int(...)))`, and the directions listing is an input of the model. StepDirectionAsWritten models the code as written.
- ConfigFlow.CompleteFlow: as written, no run reaches the direction form or an entry (CompleteFlowAsWritten). This member describes a run of the corrected flow.

## Findings

| source | as written | input that shows it | evidently intended | confidence | as-written member | corrected member |
|---|---|---|---|---|---|---|
| custom_components/public_transport_victoria/PublicTransportVictoria/api/stops.py:52 | the location path is a plain string literal rather than an f-string, so the text `{request.latitude},{request.longitude}` is sent verbatim and the coordinates never reach the URL | latitude -37.8136, longitude 144.9631 (Melbourne CBD) and latitude -38.1499, longitude 144.3617 (Geelong) build the same signed URL | the last segment is `<latitude>,<longitude>` rendered from the request | not executed | StopsApi.StopsByDistanceCounterexample | StopsApi.StopsByDistanceFixedLocation |
| custom_components/public_transport_victoria/config_flow.py:133-135 | the direction step passes the stored route id, a form string, to `get_directions_for_route`. That method reads `request.route_id` (directions.py line 20), which raises `AttributeError`, and nothing catches it | any route form submission, e.g. route id `"1"` after choosing route type `"0"` and stop `1071` | `get_directions_for_route(DirectionRequest(route_id=int(self.data[CONF_ROUTE_ID])))`, which lists the directions of the chosen route | not executed; the intended argument is inferred from `DirectionRequest`'s only field | ConfigFlow.CompleteFlowAsWritten | ConfigFlow.ChosenRouteDirections |
