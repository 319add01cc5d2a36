/**
 * `get_flight_plans` of atc_del_simulator/atc_del_simulator.py: it turns the
 * raw departure records an airport's departure feed returns into flat flight
 * plans, stopping after `number` plans, and, when details are requested,
 * looks each operator and aircraft type up once through two local caches.
 *
 * The four network fetches are the fields of an `Oracle`; the pseudo-random
 * squawk is drawn from the oracle's `squawkDraw`.
 */
module AtcDelSimulator {
  import opened Wrappers
  import opened Python

  /** Size of one page of AeroAPI results. */
  const AEROAPI_STD_SET_SIZE: int := 15
  /** Bounds passed to `random.randint` for the squawk. */
  const SQUAWK_MIN: int := 100
  const SQUAWK_MAX: int := 6999
  /** The traffic type for which no `type` filter is sent. */
  const ALL_TRAFFIC: string := "ALL"

  /** A decoded JSON object whose values are strings or `null`. */
  type JsonObject = map<string, Option<string>>

  /** The value under a departure's `origin` or `destination` key. */
  datatype Nested =
    | Absent              // the key is missing (a plan shows `""` for it)
    | Null                // the key holds JSON `null`
    | Object(fields: JsonObject)

  /** A raw departure record; `None` stands for a missing key or a `null` value. */
  datatype Departure = Departure(
    ident: Option<string>,
    aircraftType: Option<string>,
    operatorIcao: Option<string>,
    route: Option<string>,
    origin: Nested,
    destination: Nested)

  /** One normalised flight plan; `None` in a details field is the source's `""`. */
  datatype FlightPlan = FlightPlan(
    ident: string,
    aircraftType: string,
    aircraftDetails: Option<JsonObject>,
    originIcao: string,
    originDetails: Nested,
    originRawMetar: string,
    destinationIcao: string,
    destinationDetails: Nested,
    operatorIcao: string,
    operatorDetails: Option<JsonObject>,
    route: string,
    squawk: int)

  /** The query parameters of `fetch_departures` apart from the random time window. */
  datatype DepartureQuery = DepartureQuery(icao: string, maxPages: int, trafficType: Option<string>)

  /** One call into the flight record source, in the order the calls are made. */
  datatype Fetch =
    | FetchRawMetar(icao: string)
    | FetchDepartures(query: DepartureQuery)
    | FetchOperator(operatorIcao: string)
    | FetchAircraft(aircraftType: string)

  /** The external collaborators: what each fetch answers, and the random generator. */
  datatype Oracle = Oracle(
    departures: DepartureQuery -> seq<Departure>,
    operator: string -> JsonObject,
    aircraft: string -> JsonObject,
    rawMetar: string -> string,
    squawkDraw: nat -> nat)

  // ---------------------------------------------------------------------------
  // The pure part of fetch_departures

  /** `math.floor(number / 15) + 1`: the fewest pages of 15 that hold more than `number` results. */
  function MaxPages(number: int): (pages: int)
    ensures (pages - 1) * AEROAPI_STD_SET_SIZE <= number < pages * AEROAPI_STD_SET_SIZE
    ensures number >= 0 ==> pages >= 1
  {
    number / AEROAPI_STD_SET_SIZE + 1
  }

  /** The parameters `fetch_departures` sends; `type` only when the traffic type is not "ALL". */
  function DepartureParams(icao: string, number: int, trafficType: string): (q: DepartureQuery)
    ensures q.icao == icao
    ensures (q.maxPages - 1) * AEROAPI_STD_SET_SIZE <= number < q.maxPages * AEROAPI_STD_SET_SIZE
    ensures q.trafficType.Some? <==> trafficType != ALL_TRAFFIC
    ensures q.trafficType.Some? ==> q.trafficType.value == trafficType
  {
    DepartureQuery(icao, MaxPages(number), if trafficType != ALL_TRAFFIC then Some(trafficType) else None)
  }

  // ---------------------------------------------------------------------------
  // Field normalisation

  /** `d[key].strip() if key in d and d[key] else ""` */
  function FieldText(f: Option<string>): (r: string)
    ensures IsStripped(r)
    ensures r != "" ==> Truthy(f)
  {
    if Truthy(f) then Strip(f.value) else ""
  }

  /** Either kind of nested value on which `"code_icao" in ...` raises `TypeError`. */
  predicate RaisesTypeError(d: Departure) {
    d.origin.Null? || d.destination.Null?
  }

  /** The stripped `code_icao` of a nested airport, `""` when it or its key is missing. */
  function NestedIcao(n: Nested): (r: string)
    requires !n.Null?
    ensures IsStripped(r)
    ensures r != "" ==> n.Object? && "code_icao" in n.fields && Truthy(n.fields["code_icao"])
  {
    if n.Object? && "code_icao" in n.fields then FieldText(n.fields["code_icao"]) else ""
  }

  // ---------------------------------------------------------------------------
  // What the caches hold after a prefix of the departures

  /** Keys of `operator_cache` after departures `0 .. n-1`: their raw (unstripped) truthy operator codes. */
  function OperatorCodesSeen(deps: seq<Departure>, n: nat): (codes: set<string>)
    requires n <= |deps|
    ensures forall c :: c in codes ==> c != ""
  {
    if n == 0 then {}
    else
      var raw := deps[n - 1].operatorIcao;
      OperatorCodesSeen(deps, n - 1) + (if Truthy(raw) then {raw.value} else {})
  }

  /** Keys of `aircraft_cache` after departures `0 .. n-1`: the stripped forms of their truthy aircraft types. */
  function AircraftTypesSeen(deps: seq<Departure>, n: nat): (types: set<string>)
    requires n <= |deps|
    ensures forall t :: t in types ==> IsStripped(t)
  {
    if n == 0 then {}
    else
      var raw := deps[n - 1].aircraftType;
      AircraftTypesSeen(deps, n - 1) + (if Truthy(raw) then {Strip(raw.value)} else {})
  }

  /** Departure `i` misses the operator cache (checked under the raw code), so the operator is fetched. */
  predicate OperatorFetchedAt(deps: seq<Departure>, i: nat)
    requires i < |deps|
  {
    Truthy(deps[i].operatorIcao) && deps[i].operatorIcao.value !in OperatorCodesSeen(deps, i)
  }

  /** Departure `i` misses the aircraft cache (checked under the raw type), so the type is fetched. */
  predicate AircraftFetchedAt(deps: seq<Departure>, i: nat)
    requires i < |deps|
  {
    Truthy(deps[i].aircraftType) && deps[i].aircraftType.value !in AircraftTypesSeen(deps, i)
  }

  /** The operator fetch departure `i` triggers, if any. */
  function OperatorFetches(deps: seq<Departure>, i: nat): seq<Fetch>
    requires i < |deps|
  {
    if OperatorFetchedAt(deps, i) then [FetchOperator(Strip(deps[i].operatorIcao.value))] else []
  }

  /** The aircraft fetch departure `i` triggers, if any. */
  function AircraftFetches(deps: seq<Departure>, i: nat): seq<Fetch>
    requires i < |deps|
  {
    if AircraftFetchedAt(deps, i) then [FetchAircraft(Strip(deps[i].aircraftType.value))] else []
  }

  /** The fetches departure `i` triggers: none without details, else the operator first, then the aircraft type. */
  function StepFetches(deps: seq<Departure>, i: nat, details: bool): seq<Fetch>
    requires i < |deps|
  {
    if details then OperatorFetches(deps, i) + AircraftFetches(deps, i) else []
  }

  /**
   * Every fetch of a call, in order, up to and including the handling of
   * departure `n-1`: the prelude (the METAR with details, then the
   * departures), then each departure's own fetches.
   */
  function CallFetches(origin: string, number: int, trafficType: string, details: bool, deps: seq<Departure>, n: nat): seq<Fetch>
    requires n <= |deps|
  {
    if n == 0 then
      (if details then [FetchRawMetar(origin)] else []) + [FetchDepartures(DepartureParams(origin, number, trafficType))]
    else
      CallFetches(origin, number, trafficType, details, deps, n - 1) + StepFetches(deps, n - 1, details)
  }

  // ---------------------------------------------------------------------------
  // The flight plans, departure by departure

  /**
   * How many departures the loop handles before its `break`: the largest
   * count that neither exceeds the supply nor reaches past `number`.
   */
  function Processed(number: int, available: nat): (n: nat)
    ensures n <= available && n <= if number < 0 then 0 else number
    ensures n == available || n == number || (n == 0 && number <= 0)
  {
    if number <= 0 then 0 else if number < available then number else available
  }

  /** The first of departures `0 .. n-1` that raises `TypeError`, or `n` if none does. */
  function CrashIndex(deps: seq<Departure>, n: nat): (c: nat)
    requires n <= |deps|
    ensures c <= n
    ensures forall k :: 0 <= k < c ==> !RaisesTypeError(deps[k])
    ensures c < n ==> RaisesTypeError(deps[c])
  {
    if n == 0 then 0
    else
      var c := CrashIndex(deps, n - 1);
      if c < n - 1 then c else if RaisesTypeError(deps[n - 1]) then n - 1 else n
  }

  /** The METAR every plan carries: fetched once for the origin when details are on, else `""`. */
  function OriginMetar(origin: string, details: bool, o: Oracle): string {
    if details then o.rawMetar(origin) else ""
  }

  /** `aircraft_details` of a plan: the aircraft record of its stripped type, with details only. */
  function AircraftDetailsFor(d: Departure, details: bool, o: Oracle): Option<JsonObject> {
    var t := FieldText(d.aircraftType);
    if details && t != "" then Some(o.aircraft(t)) else None
  }

  /**
   * `operator_details` of plan `i`: the cache is read under the stripped code,
   * but holds only raw codes, so the operator record is found only if some
   * departure up to `i` carried exactly the stripped code.
   */
  function OperatorDetailsAt(deps: seq<Departure>, i: nat, details: bool, o: Oracle): (r: Option<JsonObject>)
    requires i < |deps|
  {
    var s := FieldText(deps[i].operatorIcao);
    if details && s != "" && s in OperatorCodesSeen(deps, i + 1) then Some(o.operator(s)) else None
  }

  /** The plan built from departure `i`. */
  function PlanAt(deps: seq<Departure>, i: nat, details: bool, metar: string, o: Oracle): FlightPlan
    requires i < |deps| && !RaisesTypeError(deps[i])
  {
    var d := deps[i];
    FlightPlan(
      ident := FieldText(d.ident),
      aircraftType := FieldText(d.aircraftType),
      aircraftDetails := AircraftDetailsFor(d, details, o),
      originIcao := NestedIcao(d.origin),
      originDetails := d.origin,
      originRawMetar := metar,
      destinationIcao := NestedIcao(d.destination),
      destinationDetails := d.destination,
      operatorIcao := FieldText(d.operatorIcao),
      operatorDetails := OperatorDetailsAt(deps, i, details, o),
      route := FieldText(d.route),
      squawk := RandInt(SQUAWK_MIN, SQUAWK_MAX, o.squawkDraw(i)))
  }

  /**
   * What every plan satisfies: its text fields carry no surrounding
   * whitespace, its squawk lies in [100, 6999], it carries the call's METAR
   * and the departure's nested airports, and without details it has no
   * operator or aircraft record.
   */
  lemma PlanAtProperties(deps: seq<Departure>, i: nat, details: bool, metar: string, o: Oracle)
    requires i < |deps| && !RaisesTypeError(deps[i])
    ensures var p := PlanAt(deps, i, details, metar, o);
      && IsStripped(p.ident) && IsStripped(p.aircraftType) && IsStripped(p.operatorIcao) && IsStripped(p.route)
      && IsStripped(p.originIcao) && IsStripped(p.destinationIcao)
      && SQUAWK_MIN <= p.squawk <= SQUAWK_MAX
      && p.originRawMetar == metar
      && p.originDetails == deps[i].origin && p.destinationDetails == deps[i].destination
      && (!details ==> p.aircraftDetails.None? && p.operatorDetails.None?)
  {
  }

  /** The plans built from departures `0 .. n-1`, in order: plan `k` comes from departure `k`. */
  function PlansUpTo(deps: seq<Departure>, n: nat, details: bool, metar: string, o: Oracle): (plans: seq<FlightPlan>)
    requires n <= |deps| && CrashIndex(deps, n) == n
    ensures |plans| == n
  {
    if n == 0 then [] else PlansUpTo(deps, n - 1, details, metar, o) + [PlanAt(deps, n - 1, details, metar, o)]
  }

  /** A departure that does not raise extends the plans by its own plan. */
  lemma PlansUpToNext(deps: seq<Departure>, i: nat, details: bool, metar: string, o: Oracle)
    requires i < |deps| && CrashIndex(deps, i) == i && !RaisesTypeError(deps[i])
    ensures CrashIndex(deps, i + 1) == i + 1
    ensures PlansUpTo(deps, i + 1, details, metar, o) == PlansUpTo(deps, i, details, metar, o) + [PlanAt(deps, i, details, metar, o)]
  {
  }

  /** Order is preserved: plan `k` is the one built from departure `k`. */
  lemma {:induction false} PlansUpToAt(deps: seq<Departure>, n: nat, details: bool, metar: string, o: Oracle, k: nat)
    requires n <= |deps| && CrashIndex(deps, n) == n
    requires k < n
    ensures PlansUpTo(deps, n, details, metar, o)[k] == PlanAt(deps, k, details, metar, o)
  {
    if k < n - 1 {
      PlansUpToAt(deps, n - 1, details, metar, o, k);
    }
  }

  /**
   * What the loop over departures `deps` returns and fetches: the plans of the
   * first `number` departures and their fetches, or `TypeError` and the
   * fetches made up to and including the departure that raised it.
   */
  function Run(origin: string, number: int, trafficType: string, details: bool, deps: seq<Departure>,
               metar: string, o: Oracle): (Result<seq<FlightPlan>, PyError>, seq<Fetch>)
  {
    var n := Processed(number, |deps|);
    var c := CrashIndex(deps, n);
    if c == n then (Success(PlansUpTo(deps, n, details, metar, o)), CallFetches(origin, number, trafficType, details, deps, n))
    else (Failure(TypeError), CallFetches(origin, number, trafficType, details, deps, c + 1))
  }

  /** What a call of `get_flight_plans` returns and fetches. */
  function CallOutcome(origin: string, number: int, trafficType: string, details: bool, o: Oracle)
    : (Result<seq<FlightPlan>, PyError>, seq<Fetch>)
  {
    Run(origin, number, trafficType, details, o.departures(DepartureParams(origin, number, trafficType)),
        OriginMetar(origin, details, o), o)
  }

  /** Once departure `i` raises, it stays the first to raise however many more are handled. */
  lemma {:induction false} CrashIndexStays(deps: seq<Departure>, i: nat, n: nat)
    requires i < n <= |deps| && CrashIndex(deps, i) == i && RaisesTypeError(deps[i])
    ensures CrashIndex(deps, n) == i
  {
    if n > i + 1 {
      CrashIndexStays(deps, i, n - 1);
    }
  }

  // ---------------------------------------------------------------------------
  // get_flight_plans

  /** `operator_cache` after departures `0 .. n-1` with details on: keyed by raw code, holding the stripped code's record. */
  predicate OperatorCacheHolds(deps: seq<Departure>, n: nat, operatorCache: map<string, JsonObject>, o: Oracle)
    requires n <= |deps|
  {
    && operatorCache.Keys == OperatorCodesSeen(deps, n)
    && (forall c :: c in operatorCache ==> operatorCache[c] == o.operator(Strip(c)))
  }

  /** `aircraft_cache` after departures `0 .. n-1` with details on: keyed by stripped type, holding that type's record. */
  predicate AircraftCacheHolds(deps: seq<Departure>, n: nat, aircraftCache: map<string, JsonObject>, o: Oracle)
    requires n <= |deps|
  {
    && aircraftCache.Keys == AircraftTypesSeen(deps, n)
    && (forall t :: t in aircraftCache ==> aircraftCache[t] == o.aircraft(t))
  }

  /** Both caches after departures `0 .. n-1`; without details they stay empty. */
  predicate CachesHold(deps: seq<Departure>, n: nat, details: bool, operatorCache: map<string, JsonObject>,
                       aircraftCache: map<string, JsonObject>, o: Oracle)
    requires n <= |deps|
  {
    if details then OperatorCacheHolds(deps, n, operatorCache, o) && AircraftCacheHolds(deps, n, aircraftCache, o)
    else operatorCache == map[] && aircraftCache == map[]
  }

  /**
   * atc_del_simulator.py lines 107-113: fetch the operator of departure `i` unless its raw code is
   * already a key, and cache the record under the raw code.
   */
  method MemoiseOperator(deps: seq<Departure>, i: nat, operatorCache: map<string, JsonObject>, o: Oracle)
    returns (operators: map<string, JsonObject>, fetched: seq<Fetch>)
    requires i < |deps| && OperatorCacheHolds(deps, i, operatorCache, o)
    ensures OperatorCacheHolds(deps, i + 1, operators, o)
    ensures fetched == OperatorFetches(deps, i)
  {
    operators, fetched := operatorCache, [];
    var rawOperator := deps[i].operatorIcao;
    if Truthy(rawOperator) && rawOperator.value !in operators {
      var operator := o.operator(Strip(rawOperator.value));
      fetched := [FetchOperator(Strip(rawOperator.value))];
      operators := operators[rawOperator.value := operator];
    }
  }

  /**
   * atc_del_simulator.py lines 114-120: fetch the aircraft type of departure `i` unless its raw
   * type is already a key, and cache the record under the stripped type.
   */
  method MemoiseAircraft(deps: seq<Departure>, i: nat, aircraftCache: map<string, JsonObject>, o: Oracle)
    returns (aircraft: map<string, JsonObject>, fetched: seq<Fetch>)
    requires i < |deps| && AircraftCacheHolds(deps, i, aircraftCache, o)
    ensures AircraftCacheHolds(deps, i + 1, aircraft, o)
    ensures fetched == AircraftFetches(deps, i)
  {
    aircraft, fetched := aircraftCache, [];
    var rawType := deps[i].aircraftType;
    if Truthy(rawType) && rawType.value !in aircraft {
      var aircraftType := Strip(rawType.value);
      var details := o.aircraft(aircraftType);
      fetched := [FetchAircraft(aircraftType)];
      aircraft := aircraft[aircraftType := details];
    } else if Truthy(rawType) {
      // the raw type is a key, so it is already stripped
      StripStripped(rawType.value);
    }
  }

  /** atc_del_simulator.py lines 106-120: with details on, bring both caches up to date for departure `i`. */
  method MemoiseDetails(deps: seq<Departure>, i: nat, details: bool, operatorCache: map<string, JsonObject>,
                        aircraftCache: map<string, JsonObject>, o: Oracle)
    returns (operators: map<string, JsonObject>, aircraft: map<string, JsonObject>, fetched: seq<Fetch>)
    requires i < |deps| && CachesHold(deps, i, details, operatorCache, aircraftCache, o)
    ensures CachesHold(deps, i + 1, details, operators, aircraft, o)
    ensures fetched == StepFetches(deps, i, details)
  {
    operators, aircraft, fetched := operatorCache, aircraftCache, [];
    if details {
      var operatorFetches, aircraftFetches;
      operators, operatorFetches := MemoiseOperator(deps, i, operators, o);
      aircraft, aircraftFetches := MemoiseAircraft(deps, i, aircraft, o);
      fetched := operatorFetches + aircraftFetches;
    }
  }

  /**
   * atc_del_simulator.py lines 121-168 of one loop iteration: the plan built from departure `i`
   * once the caches are up to date, or the `TypeError` a `null` origin or
   * destination raises.
   */
  method BuildFlightPlan(deps: seq<Departure>, i: nat, details: bool, originMetar: string,
                         operatorCache: map<string, JsonObject>, aircraftCache: map<string, JsonObject>, o: Oracle)
    returns (r: Result<FlightPlan, PyError>)
    requires i < |deps| && CachesHold(deps, i + 1, details, operatorCache, aircraftCache, o)
    ensures r.Failure? <==> RaisesTypeError(deps[i])
    ensures r.Failure? ==> r.error == TypeError
    ensures r.Success? ==> r.value == PlanAt(deps, i, details, originMetar, o)
  {
    var departure := deps[i];
    var ident := FieldText(departure.ident);
    var aircraftType := FieldText(departure.aircraftType);
    var aircraftDetails := if aircraftType != "" && aircraftType in aircraftCache then Some(aircraftCache[aircraftType]) else None;
    if departure.origin.Null? {
      return Failure(TypeError);
    }
    var originIcao := NestedIcao(departure.origin);
    var originDetails := departure.origin;
    var originRawMetar := originMetar;
    if departure.destination.Null? {
      return Failure(TypeError);
    }
    var destinationIcao := NestedIcao(departure.destination);
    var destinationDetails := departure.destination;
    var operatorIcao := FieldText(departure.operatorIcao);
    if operatorIcao != "" {
      StripIdempotent(departure.operatorIcao.value);
    }
    var operatorDetails := if operatorIcao != "" && operatorIcao in operatorCache then Some(operatorCache[operatorIcao]) else None;
    var route := FieldText(departure.route);
    var squawk := RandInt(SQUAWK_MIN, SQUAWK_MAX, o.squawkDraw(i));
    r := Success(FlightPlan(ident, aircraftType, aircraftDetails, originIcao, originDetails, originRawMetar,
                            destinationIcao, destinationDetails, operatorIcao, operatorDetails, route, squawk));
  }

  /**
   * One pass of the loop body (atc_del_simulator.py lines 106-168) over departure `i`: the caches
   * and the fetches so far brought up to departure `i + 1`, and the plan of
   * departure `i` or the `TypeError` it raises.
   */
  method HandleDeparture(origin: string, number: int, trafficType: string, deps: seq<Departure>, i: nat,
                         details: bool, originMetar: string, operatorCache: map<string, JsonObject>,
                         aircraftCache: map<string, JsonObject>, fetches: seq<Fetch>, o: Oracle)
    returns (operators: map<string, JsonObject>, aircraft: map<string, JsonObject>, fetched: seq<Fetch>,
             plan: Result<FlightPlan, PyError>)
    requires i < |deps|
    requires CachesHold(deps, i, details, operatorCache, aircraftCache, o)
    requires fetches == CallFetches(origin, number, trafficType, details, deps, i)
    ensures CachesHold(deps, i + 1, details, operators, aircraft, o)
    ensures fetched == CallFetches(origin, number, trafficType, details, deps, i + 1)
    ensures plan.Failure? <==> RaisesTypeError(deps[i])
    ensures plan.Failure? ==> plan.error == TypeError
    ensures plan.Success? ==> plan.value == PlanAt(deps, i, details, originMetar, o)
  {
    var stepFetches;
    operators, aircraft, stepFetches := MemoiseDetails(deps, i, details, operatorCache, aircraftCache, o);
    fetched := fetches + stepFetches;
    plan := BuildFlightPlan(deps, i, details, originMetar, operators, aircraft, o);
  }

  /**
   * `get_flight_plans(origin, number, traffic_type, details)`. Besides the
   * result it returns every fetch it made, in order.
   */
  method GetFlightPlans(origin: string, number: int, trafficType: string, details: bool, o: Oracle)
    returns (result: Result<seq<FlightPlan>, PyError>, fetches: seq<Fetch>)
    ensures result == CallOutcome(origin, number, trafficType, details, o).0
    ensures fetches == CallOutcome(origin, number, trafficType, details, o).1
  {
    var flightPlans: seq<FlightPlan> := [];
    var operatorCache: map<string, JsonObject> := map[];
    var aircraftCache: map<string, JsonObject> := map[];
    var originMetar := if details then o.rawMetar(origin) else "";
    var query := DepartureParams(origin, number, trafficType);
    var departures := o.departures(query);
    fetches := (if details then [FetchRawMetar(origin)] else []) + [FetchDepartures(query)];
    ghost var n := Processed(number, |departures|);
    assert CallOutcome(origin, number, trafficType, details, o) == Run(origin, number, trafficType, details, departures, originMetar, o);

    var i := 0;
    while i < |departures|
      invariant i <= n && |flightPlans| == i
      invariant CrashIndex(departures, i) == i
      invariant flightPlans == PlansUpTo(departures, i, details, originMetar, o)
      invariant fetches == CallFetches(origin, number, trafficType, details, departures, i)
      invariant CachesHold(departures, i, details, operatorCache, aircraftCache, o)
    {
      if |flightPlans| >= number {
        break;
      }
      var flightPlan;
      operatorCache, aircraftCache, fetches, flightPlan :=
        HandleDeparture(origin, number, trafficType, departures, i, details, originMetar,
                        operatorCache, aircraftCache, fetches, o);
      if flightPlan.Failure? {
        CrashIndexStays(departures, i, n);
        assert Run(origin, number, trafficType, details, departures, originMetar, o) == (Failure(TypeError), fetches);
        result := Failure(flightPlan.error);
        return;
      }
      PlansUpToNext(departures, i, details, originMetar, o);
      flightPlans := flightPlans + [flightPlan.value];
      i := i + 1;
    }
    assert i == n;
    assert Run(origin, number, trafficType, details, departures, originMetar, o) == (Success(flightPlans), fetches);
    result := Success(flightPlans);
  }
}
