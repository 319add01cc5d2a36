# ATC departure-clearance simulator: flight-plan normalisation and configuration store

This project models the two pieces of logic in `atc_del_simulator`.

- **`get_flight_plans`** (atc_del_simulator/atc_del_simulator.py:94-170) asks the departure feed for an airport's recent departures.
  - It turns each raw departure record into a flat flight plan and stops after `number` plans.
  - Every text field is whitespace-stripped; a missing or falsy field becomes `""`.
  - Origin and destination ICAO codes come from the nested `origin` / `destination` objects.
  - Every plan gets a random squawk in [100, 6999].
  - With `details` on, the call first fetches the origin's METAR. It then looks up each operator and aircraft type through two local memo caches.
  - The pure part of `fetch_departures` is modelled too: the `max_pages` arithmetic and the optional `type` filter.
- **`AdsConfig`** (atc_del_simulator/ads_config.py) is a property store whose key set is fixed at construction.
  - `set_property` only overwrites existing keys and raises `KeyError` otherwise.
  - `set_api_token` sets a token and the matching session's request headers.
  - The two command callbacks of `cli.py` that write to it are included. Each writes a key the store never creates. The `cli` callback writes `database` only when its `database` option is truthy (atc_del_simulator/cli.py:47), and only then raises `KeyError`. The `route` command always writes `use_cache` (atc_del_simulator/cli.py:93), so it always raises `KeyError`.

Modules:

- `Wrappers` (`wrappers.dfy`): `Option`, `Result` and `Outcome`.
- `Python` (`python.dfy`): the Python behaviour the model relies on.
  - `str.strip` over the Unicode whitespace set, with its uniqueness and idempotence lemmas.
  - Truthiness of an optional string.
  - `random.randint` as a function of the generator's draw.
  - The exceptions raised.
- `AtcDelSimulator` (`atc_del_simulator.dfy`): the data model, the parameters of the departures query, and the specification functions.
  - The specification functions are `CallOutcome`, `PlansUpTo`, `CallFetches`, `CrashIndex`, `OperatorCodesSeen` and `AircraftTypesSeen`.
  - The loop of `get_flight_plans` is proved against them. It is an imperative method with two memo maps, an early `break` and an early exit on `TypeError`.
- `FlightPlanFacts` (`flight_plan_facts.dfy`): the properties of a call, stated over `CallOutcome`.
- `Config` (`ads_config.dfy`): `AdsConfig` as a class with a `conf` map field. Its methods are proved against the value-level functions `PropertySet` and `TokenSet`, whose properties are lemmas.
- `Cli` (`cli.dfy`): the `cli` group callback and the first statement of the `route` command.

The external collaborators are modelled as an `Oracle` value passed to the call.

- The four fetches are oracle fields: `departures`, `operator`, `aircraft` and `rawMetar`.
- The random generator is `squawkDraw`: plan `i` takes draw `i`.
- `GetFlightPlans` also returns the list of fetches it made, in order. An entry of that list is a call of one of the `fetch_*` functions, whatever that function's own guard then does. For example, `fetch_aircraft` called with `""` returns `{}` without a request (atc_del_simulator/atc_del_simulator.py:64).
- The list, `CallFetches`, is built from the predicates `OperatorFetchedAt` and `AircraftFetchedAt`, which decide per departure whether a lookup is made.
  - "No fetch without details" and "the METAR only first" are stated about the list itself.
  - The at-most-once lemmas `OperatorFetchedOnce` and `AircraftFetchedOnce` are stated over those predicates: over the departures' raw operator codes and raw aircraft types. The list can hold the same fetch twice: raw codes `"KLM"` then `"KLM "` give `FetchOperator("KLM")` twice.

Behaviour of the code that the model follows:

- **`null` origin or destination.** A `null` origin or destination makes `get_flight_plans` raise `TypeError` (atc_del_simulator/atc_del_simulator.py:132, :140). The test `"code_icao" in None` raises it. The whole call then fails, after that departure's lookups were already fetched.
- **Operator cache keys.** The operator cache is checked and written under the raw code but read under the stripped code (atc_del_simulator/atc_del_simulator.py:107-113, :148-152).
  - A padded code such as `"KLM "` is fetched as `"KLM"`. Its plan carries the record only if some departure up to it carried exactly `"KLM"` (`OperatorDetailsAt`). A lone departure of `"KLM "` therefore gets no operator record (`PaddedOperatorLosesDetails`).
  - The raw codes `"KLM"` and `"KLM "` are two different keys. A call that meets both fetches the record of `"KLM"` twice. Only a raw code seen before is not fetched again (`OperatorFetchedOnce`).
- **Aircraft cache keys.** The aircraft cache is checked under the raw type but written under the stripped type (atc_del_simulator/atc_del_simulator.py:114-120).
  - A padded type such as `" B738"` is fetched again at every occurrence (`PaddedAircraftTypeFetchedTwice`).
  - `"B738"` followed by `" B738"` also fetches `"B738"` twice. A departure is not fetched again only when its raw type is already stripped and an earlier departure stripped to it (`AircraftFetchedOnce`).
  - A non-empty whitespace-only type is truthy and never a cache key. At every such departure `fetch_aircraft` is called with `""`, and its guard answers `{}`. The plan shows no type and no record (`BlankAircraftTypeFetched`).
- **Details are eager.** With `details` on, plans carry their operator and aircraft records at once.
- **Squawk range.** The squawk is `random.randint(100, 6999)`, which includes codes with the digits 8 and 9.

## Model

| member | source | states |
|---|---|---|
| Python.IsSpace | atc_del_simulator/atc_del_simulator.py:121 | definition: the characters `str.isspace()` accepts, which `str.strip()` removes |
| Python.TrimStart | atc_del_simulator/atc_del_simulator.py:121 | the left half of `str.strip()`: its result does not start with whitespace |
| Python.TrimEnd | atc_del_simulator/atc_del_simulator.py:121 | the right half of `str.strip()`: its result does not end with whitespace |
| Python.Truthy | atc_del_simulator/atc_del_simulator.py:121 | definition: `key in d and d[key]` for a string field, false for a missing, `null` or empty value |
| Python.Strip | atc_del_simulator/atc_del_simulator.py:121-124 | `str.strip()` leaves no surrounding whitespace |
| Python.StripUnique | atc_del_simulator/atc_del_simulator.py:121-124 | whitespace around a stripped non-empty core is exactly what strip removes |
| Python.StripStripped | atc_del_simulator/atc_del_simulator.py:145-147 | a string without surrounding whitespace is its own strip |
| Python.StripIdempotent | atc_del_simulator/atc_del_simulator.py:145-152 | stripping twice is stripping once, so a record found under a stripped code `s` is `o.operator(Strip(s)) == o.operator(s)` |
| Python.StripAllSpace | atc_del_simulator/atc_del_simulator.py:114-120 | a string of whitespace only strips to the empty string |
| Python.TrimStartSuffix | atc_del_simulator/atc_del_simulator.py:121 | the left trim is a suffix of its input and removes only whitespace |
| Python.TrimEndPrefix | atc_del_simulator/atc_del_simulator.py:121 | the right trim is a prefix of its input and removes only whitespace |
| Python.RandInt | atc_del_simulator/atc_del_simulator.py:154 | `random.randint(100, 6999)` yields a value in the inclusive range |
| Python.RandIntCoversRange | atc_del_simulator/atc_del_simulator.py:154 | every value of the range is reachable by some draw |
| AtcDelSimulator.MaxPages | atc_del_simulator/atc_del_simulator.py:24 | `floor(number/15)+1` is the number of 15-result pages with `(pages-1)*15 <= number < pages*15`, at least 1 for `number >= 0` |
| AtcDelSimulator.DepartureParams | atc_del_simulator/atc_del_simulator.py:23-29 | the query asks for the origin, `max_pages` as above, and a `type` filter exactly when the traffic type is not "ALL", with that type as its value |
| AtcDelSimulator.FieldText | atc_del_simulator/atc_del_simulator.py:121-124 | a text field of a plan carries no surrounding whitespace, and it is non-empty only if the source field is present and truthy |
| AtcDelSimulator.NestedIcao | atc_del_simulator/atc_del_simulator.py:130-134 | an airport code is stripped, and non-empty only if the nested object has a truthy `code_icao` |
| AtcDelSimulator.RaisesTypeError | atc_del_simulator/atc_del_simulator.py:130-143 | definition: the departure's `origin` or `destination` is `null`, on which `"code_icao" in ...` raises `TypeError` (lines 132, 140) |
| AtcDelSimulator.OperatorCodesSeen | atc_del_simulator/atc_del_simulator.py:107-113 | the operator cache keys are raw truthy codes, never empty |
| AtcDelSimulator.AircraftTypesSeen | atc_del_simulator/atc_del_simulator.py:114-120 | the aircraft cache keys are stripped types |
| AtcDelSimulator.OperatorFetchedAt | atc_del_simulator/atc_del_simulator.py:107-111 | definition: the raw operator code is truthy and not yet a key of the operator cache |
| AtcDelSimulator.AircraftFetchedAt | atc_del_simulator/atc_del_simulator.py:114-118 | definition: the raw aircraft type is truthy and not yet a key of the aircraft cache |
| AtcDelSimulator.OperatorFetches | atc_del_simulator/atc_del_simulator.py:112 | definition: the call `fetch_operator` with the stripped code when `OperatorFetchedAt`, else none |
| AtcDelSimulator.AircraftFetches | atc_del_simulator/atc_del_simulator.py:119 | definition: the call `fetch_aircraft` with the stripped type when `AircraftFetchedAt`, else none |
| AtcDelSimulator.StepFetches | atc_del_simulator/atc_del_simulator.py:106-120 | definition: a departure's lookups, the operator before the aircraft type, and none without details |
| AtcDelSimulator.Processed | atc_del_simulator/atc_del_simulator.py:103-105 | the loop handles the minimum of the supply and `number`, none for `number <= 0`: the count is at most both, and equal to one of them unless `number <= 0` |
| AtcDelSimulator.CrashIndex | atc_del_simulator/atc_del_simulator.py:130-143 | the first handled departure whose `origin` or `destination` is `null`: none before it raises, and it does |
| AtcDelSimulator.CrashIndexStays | atc_del_simulator/atc_del_simulator.py:132-140 | once a departure raises, it stays the first to raise however many further departures are considered |
| AtcDelSimulator.OriginMetar | atc_del_simulator/atc_del_simulator.py:99-101 | definition: the origin's METAR with details, `""` without; every plan carries it (line 136) |
| AtcDelSimulator.AircraftDetailsFor | atc_del_simulator/atc_del_simulator.py:125-129 | definition: the record of the plan's stripped type, with details and a non-empty type only |
| AtcDelSimulator.OperatorDetailsAt | atc_del_simulator/atc_del_simulator.py:148-152 | definition: the record of the stripped operator code, found only if that exact string is a raw code seen up to this departure |
| AtcDelSimulator.PlanAt | atc_del_simulator/atc_del_simulator.py:155-168 | definition: the twelve fields of the plan built from one departure |
| AtcDelSimulator.PlanAtProperties | atc_del_simulator/atc_del_simulator.py:121-168 | every plan has stripped text fields, a squawk in [100, 6999], the call's METAR and the departure's nested airports, and no records without details |
| AtcDelSimulator.PlansUpTo | atc_del_simulator/atc_del_simulator.py:103-169 | one plan per handled departure |
| AtcDelSimulator.PlansUpToAt | atc_del_simulator/atc_del_simulator.py:103-169 | order is preserved: plan `k` is built from departure `k` |
| AtcDelSimulator.PlansUpToNext | atc_del_simulator/atc_del_simulator.py:169 | a departure that does not raise appends exactly its own plan |
| AtcDelSimulator.MemoiseOperator | atc_del_simulator/atc_del_simulator.py:107-113 | the operator is fetched (under the stripped code) exactly when its raw code is truthy and not yet a key; afterwards the cache holds exactly the raw codes seen, each mapped to its stripped code's record |
| AtcDelSimulator.MemoiseAircraft | atc_del_simulator/atc_del_simulator.py:114-120 | the type is fetched exactly when its raw form is truthy and not a key; afterwards the cache holds exactly the stripped types seen, each mapped to its record |
| AtcDelSimulator.MemoiseDetails | atc_del_simulator/atc_del_simulator.py:106-120 | with details both caches advance as above, operator first; without details nothing is fetched and the caches stay empty |
| AtcDelSimulator.BuildFlightPlan | atc_del_simulator/atc_del_simulator.py:121-168 | the plan built from the caches is the specified plan, and `TypeError` is raised exactly on a `null` origin or destination |
| AtcDelSimulator.HandleDeparture | atc_del_simulator/atc_del_simulator.py:106-168 | one loop pass advances the caches and the fetch list by one departure and yields that departure's plan or its `TypeError` |
| AtcDelSimulator.Run | atc_del_simulator/atc_del_simulator.py:103-170 | definition: the loop over a given departure list: the plans of the handled departures and their fetches, or `TypeError` and the fetches up to the departure that raised it |
| AtcDelSimulator.CallFetches | atc_del_simulator/atc_del_simulator.py:99-120 | definition: the METAR fetch with details, the departures fetch, then each handled departure's operator and aircraft fetches in order |
| AtcDelSimulator.CallOutcome | atc_del_simulator/atc_del_simulator.py:94-170 | definition: the plans and fetches of the loop over the departures the feed answers, with the call's METAR |
| AtcDelSimulator.GetFlightPlans | atc_del_simulator/atc_del_simulator.py:94-170 | the result and the ordered fetches are those of `CallOutcome`: the plans of the first `number` departures, or `TypeError` after the fetches up to the departure that raised it |
| FlightPlanFacts.OutcomeResult | atc_del_simulator/atc_del_simulator.py:103-170 | a call succeeds exactly when none of the handled departures has a `null` origin or destination; it then returns `min(number, supply)` plans in departure order, and otherwise fails with `TypeError` |
| FlightPlanFacts.OutcomeCount | atc_del_simulator/atc_del_simulator.py:103-105 | a successful call returns at most the supply, none for `number <= 0`, and exactly `min(number, supply)` otherwise |
| FlightPlanFacts.OutcomePlansWellFormed | atc_del_simulator/atc_del_simulator.py:121-168 | every returned plan has stripped text fields, a squawk in [100, 6999], the one METAR of the call (`""` without details) and no records without details |
| FlightPlanFacts.CallFetchesWithoutDetails | atc_del_simulator/atc_del_simulator.py:106 | without details no METAR, operator or aircraft fetch is ever made |
| FlightPlanFacts.CallFetchesPrelude | atc_del_simulator/atc_del_simulator.py:99-102 | every call fetches the METAR first (with details only), then the departures |
| FlightPlanFacts.OutcomeFetchesWithoutDetails | atc_del_simulator/atc_del_simulator.py:99-106 | a call without details fetches only the departures, whether it succeeds or fails |
| FlightPlanFacts.CallFetchesMetarOnlyFirst | atc_del_simulator/atc_del_simulator.py:99-120 | no departure triggers a METAR fetch: after the first fetch (with details) or from the start (without) none is a METAR fetch |
| FlightPlanFacts.OutcomeMetarFetchedOnce | atc_del_simulator/atc_del_simulator.py:99-101 | a call with details fetches the origin's METAR first and never again, whether it succeeds or fails; without details never |
| FlightPlanFacts.OperatorCodesSeenMembers | atc_del_simulator/atc_del_simulator.py:107-113 | a code is an operator cache key exactly when an earlier departure carried it raw and truthy |
| FlightPlanFacts.AircraftTypesSeenMembers | atc_del_simulator/atc_del_simulator.py:114-120 | a type is an aircraft cache key exactly when it is the stripped form of an earlier truthy type |
| FlightPlanFacts.OperatorFetchedAtFirstOccurrence | atc_del_simulator/atc_del_simulator.py:107-112 | an operator is fetched at a departure exactly when its raw code is truthy and appears at no earlier departure |
| FlightPlanFacts.OperatorFetchedOnce | atc_del_simulator/atc_del_simulator.py:107-113 | no raw operator code is fetched twice in one call |
| FlightPlanFacts.AircraftFetchedAtFirstOccurrence | atc_del_simulator/atc_del_simulator.py:114-119 | a type is fetched exactly when its raw form is truthy and differs from the stripped form of every earlier type |
| FlightPlanFacts.AircraftFetchedOnce | atc_del_simulator/atc_del_simulator.py:114-120 | a departure whose raw type is already stripped is not fetched again when an earlier fetched departure stripped to the same type |
| FlightPlanFacts.AircraftDetailsFromCache | atc_del_simulator/atc_del_simulator.py:125-129 | with details, every non-empty stripped type is a key of the aircraft cache after its departure, mapped to that type's record, and the lookup there gives the plan's aircraft record |
| FlightPlanFacts.BlankAircraftTypeFetched | atc_del_simulator/atc_del_simulator.py:114-129 | at any departure whose type is non-empty and all whitespace, `fetch_aircraft` is called with `""`, and the plan shows the empty type and no record |
| FlightPlanFacts.OperatorDetailsOfStrippedCode | atc_del_simulator/atc_del_simulator.py:148-152 | with details, a plan whose raw operator code is already stripped carries that operator's record |
| FlightPlanFacts.PaddedOperatorLosesDetails | atc_del_simulator/atc_del_simulator.py:112-113 | a lone departure of operator "KLM " is fetched as "KLM" but its plan carries no operator record; with an earlier departure of exactly "KLM" it would |
| FlightPlanFacts.PaddedAircraftTypeFetchedTwice | atc_del_simulator/atc_del_simulator.py:117-120 | two departures of type " B738" fetch "B738" twice |
| Config.PyTruthy | atc_del_simulator/cli.py:47 | definition: Python truthiness of a configuration value, as in `if database:` |
| Config.IsApiSession | atc_del_simulator/ads_config.py:33-38 | definition: the two session names `set_api_token` acts on, `aeroapi_session` and `avwx_session` |
| Config.TokenKey | atc_del_simulator/ads_config.py:33-39 | each API session has its own token key among the configuration keys |
| Config.AuthHeader | atc_del_simulator/ads_config.py:36-41 | the auth header differs from `Accept`, so the merge sets both headers |
| Config.ApiHeaders | atc_del_simulator/ads_config.py:35-42 | the merged headers are exactly `Accept` with the JSON media type and the auth header with the token |
| Config.PropertySet | atc_del_simulator/ads_config.py:24-29 | an existing key takes the value, which is returned, and every other key keeps its value; an unknown key raises `KeyError` and changes nothing; the key set never changes |
| Config.TokenSet | atc_del_simulator/ads_config.py:31-42 | the key set never changes, and a session name other than the two API sessions changes nothing |
| Config.TokenSetUpdatesSession | atc_del_simulator/ads_config.py:33-42 | on an intact configuration the token is set, `Accept` and the auth header are overridden, the session's other headers and every other key are kept |
| Config.TokenSetFailures | atc_del_simulator/ads_config.py:34-42 | `KeyError` without a token key (nothing changes), `KeyError` without the session and `AttributeError` on a non-session value (the token already set) |
| Config.TokenSetLeavesOtherSession | atc_del_simulator/ads_config.py:33-42 | setting one session's token never touches the other session or its token |
| Config.InitialConf | atc_del_simulator/ads_config.py:9-16 | a new configuration has exactly the six keys |
| Config.AdsConfig.constructor | atc_del_simulator/ads_config.py:8-18 | exactly the six keys, the given tokens and `verbose`, and both sessions carrying the JSON `Accept` header and their token header |
| Config.Lookup | atc_del_simulator/ads_config.py:20-22 | definition: `dict.get`, the stored value or `None` |
| Config.LookupAfterPropertySet | atc_del_simulator/ads_config.py:20-29 | get after set: an existing key reads back the value just set, every other key reads its old value, and an unknown key still reads `None` |
| Config.AdsConfig.GetProperty | atc_del_simulator/ads_config.py:20-22 | definition: `Lookup` on the current configuration |
| Config.AdsConfig.SetProperty | atc_del_simulator/ads_config.py:24-29 | the new configuration and the result are those of `PropertySet`, a successful set reads back, every other key reads as before, and the key set is kept |
| Config.AdsConfig.SetApiToken | atc_del_simulator/ads_config.py:31-42 | the new configuration and the outcome are those of `TokenSet`; on an intact configuration it succeeds, sets the token, merges the two headers into the session and keeps every unrelated key |
| Cli.Cli | atc_del_simulator/cli.py:42-49 | on a configuration built by the constructor the tokens and `verbose` are set, both sessions get `Accept` and their token header merged in, the console is kept, and a truthy `database` raises `KeyError("database")` |
| Cli.Route | atc_del_simulator/cli.py:91-93 | on a configuration built by the constructor `use_cache` raises `KeyError("use_cache")` and nothing changes |

## Left out

- The HTTP bodies of `fetch_departures`, `fetch_operator`, `fetch_aircraft` and `fetch_raw_metar` (atc_del_simulator/atc_del_simulator.py:15-91) are oracle functions. Network access, JSON decoding and `HTTPError` handling are not modelled. Neither are their guards on the session and token, which are folded into what the oracle answers.
- The oracle answers a repeated fetch with the same record. In the source the second fetch of `"B738"` after `" B738"` (atc_del_simulator/atc_del_simulator.py:117-120) overwrites `aircraft_cache["B738"]` with a fresh response, which could be `{}` after an `HTTPError` (atc_del_simulator/atc_del_simulator.py:70-74). Two plans of one type can then carry different records in the source, never in the model. The "that type's record" of `AircraftDetailsFromCache` and of the cache predicates rests on this.
- The random four-hour time window of the departures query (atc_del_simulator/atc_del_simulator.py:19-22) needs the wall clock and a float from `random.random()`. The query carries only the origin, `max_pages` and `type`.
- MaxPages: integer division, exact for every `number`. The source computes `math.floor(number / 15)` in floating point (atc_del_simulator/atc_del_simulator.py:24). That result can differ for integers beyond 2^53. Past the float range, about 1.8e308, `number / 15` raises `OverflowError`, which the model does not raise.
- JSON values other than strings and `null` in a departure's text fields or in `code_icao` are not modelled. A truthy non-string value would make `.strip()` raise `AttributeError`.
- An `origin` or `destination` that is a JSON string, number, boolean or list is not modelled; `Nested` has only a missing key, `null` and an object. For a string, `"code_icao" in "KJFK"` is a substring test (atc_del_simulator/atc_del_simulator.py:132); a number raises `TypeError`.
- `requests.Session` is modelled as its header map, held by value inside the configuration. Aliasing of a session object shared outside `AdsConfig` is not modelled. Header names are compared case-sensitively, whereas `requests` compares them case-insensitively. The same-case names the source uses behave alike.
- The headers of a fresh `requests.Session` come from the library. They are a parameter of the constructor.
- The rich `Console` is an opaque value. Printing, prompts, tables and the TinyDB search of atc_del_simulator/cli.py are presentation and I/O.
- The rest of the `route` command after atc_del_simulator/cli.py:93 is not modelled, because that line raises and the command never gets further. Its own memo caches (atc_del_simulator/cli.py:177-191) belong to that unreachable part.
- The `waypoint=` argument that atc_del_simulator/cli.py:127 passes is not modelled. `get_flight_plans` does not accept it; it is modelled with its own signature.
- `start_db`, called at atc_del_simulator/cli.py:49, is not defined by `AdsConfig` and is not part of this model. The line before it already raises.
- `get_ifr_flight_plans`, `generate_vfr_flight_plans` and `get_rules_info`, which atc_del_simulator/__init__.py:9-13 re-exports, are defined nowhere in the source, so there is nothing to model.
- Exception messages are abstracted to the key. `set_property` raises `KeyError` with the message "<name> is not a valid configuration property" (atc_del_simulator/ads_config.py:29). A missing session raises the bare key (atc_del_simulator/ads_config.py:35). The model's `KeyError` carries the key in both cases.
- Aliasing between the configuration's own values is not modelled. A `requests.Session` stored under two keys is one object. After `set_property("avwx_session", get_property("aeroapi_session"))`, a later `set_api_token("aeroapi_session", t)` also changes what `avwx_session` holds. The model holds sessions by value, so `TokenSetLeavesOtherSession` holds there but not in the source.
- Cli.Cli: requires a configuration with the constructor's keys and intact sessions, which is what the `click` pass decorator creates. The error paths of the three writes before `database` are therefore not exercised.
- The loop body of `get_flight_plans` is split into `MemoiseOperator`, `MemoiseAircraft`, `MemoiseDetails`, `BuildFlightPlan` and `HandleDeparture`. These follow the source's statements in order but are not separate functions in the source.
