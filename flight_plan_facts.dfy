/**
 * Properties of `get_flight_plans` stated over `CallOutcome`, the function the
 * method `AtcDelSimulator.GetFlightPlans` is proved to compute: which calls
 * succeed, how many plans come back and in what order, what every plan
 * carries, and how often each operator and aircraft type is fetched.
 */
module FlightPlanFacts {
  import opened Wrappers
  import opened Python
  import opened AtcDelSimulator

  // ---------------------------------------------------------------------------
  // Success, count and order

  /**
   * A call fails exactly when one of the first `number` departures (capped by
   * the supply) has a `null` origin or destination, and then with
   * `TypeError`; otherwise it returns one plan per handled departure, plan
   * `k` being the plan of departure `k`.
   */
  lemma {:induction false} OutcomeResult(origin: string, number: int, trafficType: string, details: bool, o: Oracle)
    ensures var deps := o.departures(DepartureParams(origin, number, trafficType));
      var n := Processed(number, |deps|);
      var r := CallOutcome(origin, number, trafficType, details, o).0;
      && (r.Success? <==> forall k :: 0 <= k < n ==> !RaisesTypeError(deps[k]))
      && (r.Failure? ==> r.error == TypeError)
      && (r.Success? ==> |r.value| == n)
      && (r.Success? ==> forall k :: 0 <= k < n ==> r.value[k] == PlanAt(deps, k, details, OriginMetar(origin, details, o), o))
  {
    var deps := o.departures(DepartureParams(origin, number, trafficType));
    var n := Processed(number, |deps|);
    var metar := OriginMetar(origin, details, o);
    var c := CrashIndex(deps, n);
    if c == n {
      forall k | 0 <= k < n
        ensures PlansUpTo(deps, n, details, metar, o)[k] == PlanAt(deps, k, details, metar, o)
      {
        PlansUpToAt(deps, n, details, metar, o, k);
      }
    }
  }

  /** At most `number` plans come back, and exactly `number` when the call succeeds on enough departures. */
  lemma OutcomeCount(origin: string, number: int, trafficType: string, details: bool, o: Oracle)
    ensures var deps := o.departures(DepartureParams(origin, number, trafficType));
      var r := CallOutcome(origin, number, trafficType, details, o).0;
      && (r.Success? ==> |r.value| <= |deps| && (number <= 0 ==> |r.value| == 0))
      && (r.Success? && number > 0 ==> |r.value| == if number < |deps| then number else |deps|)
  {
    OutcomeResult(origin, number, trafficType, details, o);
  }

  /**
   * Every plan of a successful call has its text fields stripped, a squawk
   * in [100, 6999], the origin's METAR (or `""` without details) and the
   * departure's nested airports; without details it has no operator or
   * aircraft record.
   */
  lemma {:induction false} OutcomePlansWellFormed(origin: string, number: int, trafficType: string, details: bool, o: Oracle)
    ensures var deps := o.departures(DepartureParams(origin, number, trafficType));
      var r := CallOutcome(origin, number, trafficType, details, o).0;
      r.Success? ==> forall k :: 0 <= k < |r.value| ==>
        var p := r.value[k];
        && IsStripped(p.ident) && IsStripped(p.aircraftType) && IsStripped(p.operatorIcao) && IsStripped(p.route)
        && IsStripped(p.originIcao) && IsStripped(p.destinationIcao)
        && SQUAWK_MIN <= p.squawk <= SQUAWK_MAX
        && p.originRawMetar == OriginMetar(origin, details, o)
        && p.originDetails == deps[k].origin && p.destinationDetails == deps[k].destination
        && (!details ==> p.aircraftDetails.None? && p.operatorDetails.None? && p.originRawMetar == "")
  {
    var deps := o.departures(DepartureParams(origin, number, trafficType));
    var metar := OriginMetar(origin, details, o);
    var r := CallOutcome(origin, number, trafficType, details, o).0;
    OutcomeResult(origin, number, trafficType, details, o);
    if r.Success? {
      forall k | 0 <= k < |r.value|
        ensures var p := r.value[k];
          && IsStripped(p.ident) && IsStripped(p.aircraftType) && IsStripped(p.operatorIcao) && IsStripped(p.route)
          && IsStripped(p.originIcao) && IsStripped(p.destinationIcao)
          && SQUAWK_MIN <= p.squawk <= SQUAWK_MAX
          && p.originRawMetar == metar
          && p.originDetails == deps[k].origin && p.destinationDetails == deps[k].destination
          && (!details ==> p.aircraftDetails.None? && p.operatorDetails.None? && p.originRawMetar == "")
      {
        PlanAtProperties(deps, k, details, metar, o);
      }
    }
  }

  // ---------------------------------------------------------------------------
  // The fetches

  /** Without details the departures are the only fetch, however many departures are handled. */
  lemma {:induction false} CallFetchesWithoutDetails(origin: string, number: int, trafficType: string,
                                                     deps: seq<Departure>, n: nat)
    requires n <= |deps|
    ensures CallFetches(origin, number, trafficType, false, deps, n) == [FetchDepartures(DepartureParams(origin, number, trafficType))]
  {
    if n > 0 {
      CallFetchesWithoutDetails(origin, number, trafficType, deps, n - 1);
    }
  }

  /** Every call starts with the METAR fetch (with details only) and then the departures fetch. */
  lemma {:induction false} CallFetchesPrelude(origin: string, number: int, trafficType: string, details: bool,
                                              deps: seq<Departure>, n: nat)
    requires n <= |deps|
    ensures var fs := CallFetches(origin, number, trafficType, details, deps, n);
      var q := DepartureParams(origin, number, trafficType);
      && (details ==> |fs| >= 2 && fs[0] == FetchRawMetar(origin) && fs[1] == FetchDepartures(q))
      && (!details ==> |fs| >= 1 && fs[0] == FetchDepartures(q))
  {
    if n > 0 {
      CallFetchesPrelude(origin, number, trafficType, details, deps, n - 1);
    }
  }

  /** A call without details fetches nothing but the departures, whether it succeeds or not. */
  lemma OutcomeFetchesWithoutDetails(origin: string, number: int, trafficType: string, o: Oracle)
    ensures CallOutcome(origin, number, trafficType, false, o).1 == [FetchDepartures(DepartureParams(origin, number, trafficType))]
  {
    var deps := o.departures(DepartureParams(origin, number, trafficType));
    var n := Processed(number, |deps|);
    var c := CrashIndex(deps, n);
    CallFetchesWithoutDetails(origin, number, trafficType, deps, if c == n then n else c + 1);
  }

  /** No departure triggers a METAR fetch: with details the only one is the first fetch of the call, without none. */
  lemma {:induction false} CallFetchesMetarOnlyFirst(origin: string, number: int, trafficType: string, details: bool,
                                                     deps: seq<Departure>, n: nat)
    requires n <= |deps|
    ensures forall k :: (if details then 1 else 0) <= k < |CallFetches(origin, number, trafficType, details, deps, n)| ==>
      !CallFetches(origin, number, trafficType, details, deps, n)[k].FetchRawMetar?
  {
    if n > 0 {
      CallFetchesMetarOnlyFirst(origin, number, trafficType, details, deps, n - 1);
      var before := CallFetches(origin, number, trafficType, details, deps, n - 1);
      var step := StepFetches(deps, n - 1, details);
      var all: seq<Fetch> := before + step;
      forall k | (if details then 1 else 0) <= k < |all|
        ensures !all[k].FetchRawMetar?
      {
        if k < |before| {
          assert all[k] == before[k];
        } else {
          var ops, types := OperatorFetches(deps, n - 1), AircraftFetches(deps, n - 1);
          assert details && step == ops + types;
          assert all[k] in ops || all[k] in types;
        }
      }
    }
  }

  /** A call fetches the origin's METAR exactly once, as its first fetch, when details are on, and never otherwise. */
  lemma OutcomeMetarFetchedOnce(origin: string, number: int, trafficType: string, details: bool, o: Oracle)
    ensures var fs := CallOutcome(origin, number, trafficType, details, o).1;
      && (details ==> |fs| >= 1 && fs[0] == FetchRawMetar(origin))
      && (forall k :: (if details then 1 else 0) <= k < |fs| ==> !fs[k].FetchRawMetar?)
  {
    var deps := o.departures(DepartureParams(origin, number, trafficType));
    var n := Processed(number, |deps|);
    var c := CrashIndex(deps, n);
    var handled := if c == n then n else c + 1;
    CallFetchesPrelude(origin, number, trafficType, details, deps, handled);
    CallFetchesMetarOnlyFirst(origin, number, trafficType, details, deps, handled);
  }

  /** The operator cache keys after departures `0 .. n-1` are exactly their truthy raw operator codes. */
  lemma {:induction false} OperatorCodesSeenMembers(deps: seq<Departure>, n: nat, code: string)
    requires n <= |deps|
    ensures code in OperatorCodesSeen(deps, n) <==>
      exists k :: 0 <= k < n && Truthy(deps[k].operatorIcao) && deps[k].operatorIcao.value == code
  {
    if n > 0 {
      OperatorCodesSeenMembers(deps, n - 1, code);
      var raw := deps[n - 1].operatorIcao;
      if Truthy(raw) && raw.value == code {
        assert code in OperatorCodesSeen(deps, n);
      }
    }
  }

  /** The aircraft cache keys after departures `0 .. n-1` are exactly the stripped forms of their truthy types. */
  lemma {:induction false} AircraftTypesSeenMembers(deps: seq<Departure>, n: nat, aircraftType: string)
    requires n <= |deps|
    ensures aircraftType in AircraftTypesSeen(deps, n) <==>
      exists k :: 0 <= k < n && Truthy(deps[k].aircraftType) && Strip(deps[k].aircraftType.value) == aircraftType
  {
    if n > 0 {
      AircraftTypesSeenMembers(deps, n - 1, aircraftType);
      var raw := deps[n - 1].aircraftType;
      if Truthy(raw) && Strip(raw.value) == aircraftType {
        assert aircraftType in AircraftTypesSeen(deps, n);
      }
    }
  }

  /** An operator is fetched at departure `i` exactly when its raw code is truthy and new among departures `0 .. i-1`. */
  lemma OperatorFetchedAtFirstOccurrence(deps: seq<Departure>, i: nat)
    requires i < |deps|
    ensures OperatorFetchedAt(deps, i) <==>
      Truthy(deps[i].operatorIcao) && forall k :: 0 <= k < i ==> deps[k].operatorIcao != deps[i].operatorIcao
  {
    var raw := deps[i].operatorIcao;
    if Truthy(raw) {
      OperatorCodesSeenMembers(deps, i, raw.value);
    }
  }

  /** No raw operator code is fetched twice in one call. */
  lemma OperatorFetchedOnce(deps: seq<Departure>, i: nat, j: nat)
    requires i < j < |deps|
    requires OperatorFetchedAt(deps, i) && OperatorFetchedAt(deps, j)
    ensures deps[i].operatorIcao != deps[j].operatorIcao
  {
    OperatorFetchedAtFirstOccurrence(deps, j);
  }

  /**
   * An aircraft type is fetched at departure `i` exactly when its raw type is
   * truthy and differs from the stripped type of every earlier departure.
   */
  lemma AircraftFetchedAtFirstOccurrence(deps: seq<Departure>, i: nat)
    requires i < |deps|
    ensures AircraftFetchedAt(deps, i) <==>
      Truthy(deps[i].aircraftType) &&
      forall k :: 0 <= k < i && Truthy(deps[k].aircraftType) ==> Strip(deps[k].aircraftType.value) != deps[i].aircraftType.value
  {
    var raw := deps[i].aircraftType;
    if Truthy(raw) {
      AircraftTypesSeenMembers(deps, i, raw.value);
    }
  }

  /**
   * A departure whose raw type is already stripped is not fetched again once
   * an earlier departure fetched the same stripped type.
   */
  lemma AircraftFetchedOnce(deps: seq<Departure>, i: nat, j: nat)
    requires i < j < |deps|
    requires AircraftFetchedAt(deps, i) && AircraftFetchedAt(deps, j)
    requires IsStripped(deps[j].aircraftType.value)
    ensures Strip(deps[i].aircraftType.value) != deps[j].aircraftType.value
  {
    AircraftFetchedAtFirstOccurrence(deps, j);
  }

  // ---------------------------------------------------------------------------
  // The records a plan carries

  /**
   * With details, the lookup of atc_del_simulator.py lines 125-129 in the
   * aircraft cache as it stands after departure `i` yields `AircraftDetailsFor`:
   * every non-empty stripped type is a key by then, holding that type's record.
   */
  lemma AircraftDetailsFromCache(deps: seq<Departure>, i: nat, aircraftCache: map<string, JsonObject>, o: Oracle)
    requires i < |deps| && AircraftCacheHolds(deps, i + 1, aircraftCache, o)
    ensures var t := FieldText(deps[i].aircraftType);
      && (t != "" ==> t in aircraftCache && aircraftCache[t] == o.aircraft(t))
      && AircraftDetailsFor(deps[i], true, o) == if t != "" && t in aircraftCache then Some(aircraftCache[t]) else None
  {
    var t := FieldText(deps[i].aircraftType);
    if t != "" {
      AircraftTypesSeenMembers(deps, i + 1, t);
    }
  }

  /**
   * A non-empty whitespace-only aircraft type is truthy and never a key, so
   * `fetch_aircraft` is called with `""`, yet the plan shows the empty type
   * and no aircraft record.
   */
  lemma BlankAircraftTypeFetched(deps: seq<Departure>, i: nat, o: Oracle)
    requires i < |deps| && deps[i].aircraftType.Some?
    requires deps[i].aircraftType.value != "" && AllSpace(deps[i].aircraftType.value)
    ensures AircraftFetchedAt(deps, i) && AircraftFetches(deps, i) == [FetchAircraft("")]
    ensures FieldText(deps[i].aircraftType) == "" && AircraftDetailsFor(deps[i], true, o).None?
  {
    var blank := deps[i].aircraftType.value;
    StripAllSpace(blank);
    assert IsSpace(blank[0]);
    assert !IsStripped(blank);
  }

  /** With details, a plan whose raw operator code has no surrounding whitespace carries that operator's record. */
  lemma OperatorDetailsOfStrippedCode(deps: seq<Departure>, i: nat, o: Oracle)
    requires i < |deps|
    requires Truthy(deps[i].operatorIcao) && IsStripped(deps[i].operatorIcao.value)
    ensures OperatorDetailsAt(deps, i, true, o) == Some(o.operator(deps[i].operatorIcao.value))
  {
    var code := deps[i].operatorIcao.value;
    StripStripped(code);
    OperatorCodesSeenMembers(deps, i + 1, code);
  }

  /**
   * The cache is written under the raw code but read under the stripped one:
   * a lone departure of operator "KLM " fetches the record of "KLM", yet its
   * plan carries no operator record.
   */
  lemma PaddedOperatorLosesDetails(d: Departure, o: Oracle)
    requires d.operatorIcao == Some("KLM ") && d.aircraftType.None?
    ensures StepFetches([d], 0, true) == [FetchOperator("KLM")]
    ensures OperatorDetailsAt([d], 0, true, o).None?
  {
    StripUnique("", "KLM", " ");
    assert "" + "KLM" + " " == "KLM ";
    assert "KLM" != "KLM ";
  }

  /**
   * The aircraft cache is checked under the raw type but written under the
   * stripped one: two departures of type " B738" fetch "B738" twice.
   */
  lemma PaddedAircraftTypeFetchedTwice(d: Departure)
    requires d.aircraftType == Some(" B738") && d.operatorIcao.None?
    ensures StepFetches([d, d], 0, true) == [FetchAircraft("B738")]
    ensures StepFetches([d, d], 1, true) == [FetchAircraft("B738")]
  {
    StripUnique(" ", "B738", "");
    assert " " + "B738" + "" == " B738";
    assert AircraftTypesSeen([d, d], 1) == {"B738"};
    assert " B738" != "B738";
  }
}
