/**
 * The home page's delivery planning: the recap enriched with the selected route's cost
 * and duration scaled for batching, the delivery payload sent on confirmation (cost,
 * volume, schedule, load minutes, departure and estimated return, trucks and the
 * persisted directions link), the route request, and the page state its handlers update.
 * Server replies are parameters of the handlers; instants are milliseconds since the epoch.
 */
module HomePage {
  import opened JsValues
  import opened RouteQRCode
  import opened DeliveryRecapModal

  /** The factory in Tlemcen, as `[latitude, longitude]`. */
  const FactoryLat: real := 34.937822
  const FactoryLng: real := -1.378849

  // ---------------------------------------------------------------------------
  // Server data

  /** A route's `batching` object: its `tripsPerTruck` and the rest of its fields. */
  datatype Batching = Batching(tripsPerTruck: Option<real>, others: map<string, Value>)

  /** A route from the routing service; `None` is an absent field. `duration` is in seconds. */
  datatype Route = Route(
    id: int,
    cost: Option<real>,
    duration: Option<real>,
    batching: Option<Batching>,
    geometry: Value,
    trajectory: Value)

  /** The feasibility reply. */
  datatype Feasibility = Feasibility(feasible: bool, tripsPerTruck: Option<real>, reason: Option<string>)

  /** The `feasibility` state: `null` before a check, `false` when it failed, else the reply. */
  datatype FeasibilityState = NotChecked | CheckFailed | Checked(reply: Feasibility)

  /** `routes.find(r => r.id === id)`. */
  function FindRoute(routes: seq<Route>, id: int): (r: Option<Route>)
    ensures r.Some? ==> r.value in routes && r.value.id == id
    ensures r.None? <==> forall i :: 0 <= i < |routes| ==> routes[i].id != id
    ensures routes != [] && routes[0].id == id ==> r == Some(routes[0])
  {
    if routes == [] then None
    else if routes[0].id == id then Some(routes[0])
    else FindRoute(routes[1..], id)
  }

  /** `selectedRoute && routes.length > 0 ? routes.find(...) : none`; a selected id of 0 is falsy. */
  function SelectedRoute(selected: Option<int>, routes: seq<Route>): (r: Option<Route>)
    ensures r.Some? ==> selected.Some? && selected.value != 0 && r.value.id == selected.value && r.value in routes
    ensures r.None? <==> selected.None? || selected.value == 0 || forall i :: 0 <= i < |routes| ==> routes[i].id != selected.value
  {
    if selected.Some? && selected.value != 0 && |routes| > 0 then FindRoute(routes, selected.value) else None
  }

  // ---------------------------------------------------------------------------
  // Batching adjustment of the recap

  /** `feasData.tripsPerTruck || 1`. */
  function Multiplier(f: Feasibility): (m: real)
    ensures m != 0.0
    ensures TruthyReal(f.tripsPerTruck) ==> m == f.tripsPerTruck.value
    ensures !TruthyReal(f.tripsPerTruck) ==> m == 1.0
  {
    OrReal(f.tripsPerTruck, 1.0)
  }

  /** `route.batching?.tripsPerTruck || 1`. */
  function PriorTrips(route: Route): (p: real)
    ensures p != 0.0
    ensures route.batching.Some? && TruthyReal(route.batching.value.tripsPerTruck) ==>
      p == route.batching.value.tripsPerTruck.value
    ensures !(route.batching.Some? && TruthyReal(route.batching.value.tripsPerTruck)) ==> p == 1.0
  {
    OrReal(if route.batching.Some? then route.batching.value.tripsPerTruck else None, 1.0)
  }

  /** `Math.round(route.cost / prior * multiplier)`; NaN without a cost. */
  function AdjustedCost(route: Route, multiplier: real): JsNumber
  {
    if route.cost.None? then NaN else Finite(Round(Rescaled(route.cost.value, PriorTrips(route), multiplier)) as real)
  }

  /** A per-batch amount re-expressed for `multiplier` trips: `amount / prior * multiplier`. */
  function Rescaled(amount: real, prior: real, multiplier: real): real
    requires prior != 0.0
  {
    amount / prior * multiplier
  }

  /** `route.duration * multiplier`, still in seconds; NaN without a duration. */
  function AdjustedDuration(route: Route, multiplier: real): JsNumber
  {
    if route.duration.None? then NaN else Finite(route.duration.value * multiplier)
  }

  /** `adjustedCost ? `${adjustedCost} DA` : ''`. */
  function PriceText(cost: JsNumber, env: Env): Value
  {
    if TruthyNumber(cost) then Str(NumberToString(cost, env) + " DA") else Str("")
  }

  /** `adjustedDuration ? (adjustedDuration / 60).toFixed(1) + ' min' : ''`. */
  function DurationText(duration: JsNumber, env: Env): Value
  {
    if TruthyNumber(duration) then Str(env.toFixed1(duration.r / 60.0) + " min") else Str("")
  }

  /** `{ ...route.batching, tripsPerTruck: multiplier }`. */
  function BatchingValue(route: Route, multiplier: real): Value
  {
    var others := if route.batching.Some? then route.batching.value.others else map[];
    Obj(others["tripsPerTruck" := Num(Finite(multiplier))])
  }

  /** `route.geometry?.coordinates || route.trajectory || undefined`. */
  function RouteTrajectory(route: Route): Value
  {
    var coordinates := if route.geometry.Undefined? || route.geometry.Null? then Undefined
                       else Get(route.geometry, "coordinates");
    Or(Or(coordinates, route.trajectory), Undefined)
  }

  /** The five fields the selected route writes into the recap. */
  function RouteFields(route: Route, multiplier: real, env: Env): map<string, Value>
  {
    map[
      "route" := Str("Route " + DecimalText(route.id)),
      "price" := PriceText(AdjustedCost(route, multiplier), env),
      "adjustedDuration" := DurationText(AdjustedDuration(route, multiplier), env),
      "batching" := BatchingValue(route, multiplier),
      "route_trajectory" := RouteTrajectory(route)]
  }

  /** The recap after a feasibility reply: the form, enriched when feasible and a route is selected. */
  function EnrichRecap(form: map<string, Value>, f: Feasibility, selected: Option<int>, routes: seq<Route>, env: Env)
    : map<string, Value>
  {
    var route := SelectedRoute(selected, routes);
    if f.feasible && route.Some? then form + RouteFields(route.value, Multiplier(f), env) else form
  }

  /** An infeasible reply, or no selected route, leaves the recap equal to the submitted form. */
  lemma EnrichRecapUnchanged(form: map<string, Value>, f: Feasibility, selected: Option<int>, routes: seq<Route>, env: Env)
    requires !f.feasible || SelectedRoute(selected, routes).None?
    ensures EnrichRecap(form, f, selected, routes, env) == form
  {
  }

  /**
   * When enriched, the recap keeps every other field of the form; its batching carries the
   * multiplier as `tripsPerTruck` and the route's other batching fields; its price is empty
   * exactly when the adjusted cost is 0 or NaN.
   */
  lemma EnrichRecapFields(form: map<string, Value>, f: Feasibility, selected: Option<int>, routes: seq<Route>, env: Env)
    requires f.feasible && SelectedRoute(selected, routes).Some?
    ensures var recap := EnrichRecap(form, f, selected, routes, env);
      var route := SelectedRoute(selected, routes).value;
      && recap.Keys == form.Keys + {"route", "price", "adjustedDuration", "batching", "route_trajectory"}
      && (forall k :: k in form && k !in {"route", "price", "adjustedDuration", "batching", "route_trajectory"}
            ==> recap[k] == form[k])
      && Get(recap["batching"], "tripsPerTruck") == Num(Finite(Multiplier(f)))
      && (forall k :: route.batching.Some? && k in route.batching.value.others && k != "tripsPerTruck"
            ==> Get(recap["batching"], k) == route.batching.value.others[k])
      && (recap["price"] == Str("") <==> !TruthyNumber(AdjustedCost(route, Multiplier(f))))
  {
    var route := SelectedRoute(selected, routes).value;
    var m := Multiplier(f);
    var fields := RouteFields(route, m, env);
    var written := {"route", "price", "adjustedDuration", "batching", "route_trajectory"};
    assert EnrichRecap(form, f, selected, routes, env) == form + fields;
    assert fields.Keys == written;
    MergeKeeps(form, fields);
    assert fields["batching"] == BatchingValue(route, m);
    assert fields["price"] == PriceText(AdjustedCost(route, m), env);
  }

  /** Spreading `fields` over `form`: the fields win, every other entry of the form is kept. */
  lemma MergeKeeps(form: map<string, Value>, fields: map<string, Value>)
    ensures (form + fields).Keys == form.Keys + fields.Keys
    ensures forall k :: k in form && k !in fields ==> (form + fields)[k] == form[k]
    ensures forall k :: k in fields ==> (form + fields)[k] == fields[k]
  {
  }

  /**
   * Without a prior batching the cost is the route cost times the multiplier, rounded; the
   * duration is scaled by the multiplier.
   */
  lemma AdjustedWithoutPriorBatching(route: Route, multiplier: real, cost: real, duration: real)
    requires route.batching.None? && route.cost == Some(cost) && route.duration == Some(duration)
    ensures AdjustedCost(route, multiplier) == Finite(Round(cost * multiplier) as real)
    ensures AdjustedDuration(route, multiplier) == Finite(duration * multiplier)
  {
  }

  /** Re-batching divides out the route's own trips per truck before applying the new multiplier. */
  lemma AdjustedCostRescales(route: Route, multiplier: real, cost: real, prior: real)
    requires route.cost == Some(cost) && route.batching.Some? && route.batching.value.tripsPerTruck == Some(prior)
    requires prior != 0.0
    ensures AdjustedCost(route, multiplier) == Finite(Round(cost / prior * multiplier) as real)
    ensures cost / prior * multiplier - 0.5 < Round(cost / prior * multiplier) as real <= cost / prior * multiplier + 0.5
  {
    var x := cost / prior * multiplier;
    assert Rescaled(cost, prior, multiplier) == x;
    assert AdjustedCost(route, multiplier) == Finite(Round(x) as real) by {
      assert PriorTrips(route) == prior;
    }
  }

  // ---------------------------------------------------------------------------
  // The delivery payload

  /** `routeDetails`: present when a route is selected and found. */
  function RouteDetails(selected: Option<int>, routes: seq<Route>): Option<Route>
  {
    SelectedRoute(selected, routes)
  }

  /** `routeDetails.route_trajectory`. */
  function DetailTrajectory(details: Option<Route>): Value
  {
    if details.Some? then RouteTrajectory(details.value) else Undefined
  }

  /** `routeDetails.route_duration_min`, which is `route.duration || 0`, in seconds. */
  function DetailDuration(details: Option<Route>): Value
  {
    if details.Some? then Num(Finite(OrReal(details.value.duration, 0.0))) else Undefined
  }

  /** `routeLink`: the persisted link, `None` for `null`. The URL builder may throw. */
  function RouteLink(details: Option<Route>, recap: map<string, Value>, env: Env): (r: Completion<Option<string>>)
    ensures r.Normal? && r.value.Some? ==> r.value.value != ""
    ensures var coords := Or(DetailTrajectory(details), Field(recap, "route_trajectory"));
      && (!Truthy(coords) ==> r == Normal(None))
      && (r.Throw? <==> Truthy(coords) && GoogleMapsDirectionsUrl(Candidate(coords), env).Throw?)
      && (r.Normal? && r.value.Some? ==> GoogleMapsDirectionsUrl(Candidate(coords), env) == Normal(r.value.value))
      && (Truthy(coords) && GoogleMapsDirectionsUrl(Candidate(coords), env).Normal? ==>
            var url := GoogleMapsDirectionsUrl(Candidate(coords), env).value;
            r == Normal(if url == "" then None else Some(url)))
  {
    var coords := Or(DetailTrajectory(details), Field(recap, "route_trajectory"));
    if !Truthy(coords) then Normal(None)
    else match GoogleMapsDirectionsUrl(Candidate(coords), env)
      case Throw(e) => Throw(e)
      case Normal(l) => Normal(if l == "" then None else Some(l))
  }

  /** A character `replace(/[^\d.]/g, '')` keeps. */
  predicate DigitOrDot(c: char)
  {
    IsDigit(c) || c == '.'
  }

  /** `s.replace(/[^\d.]/g, '')`. */
  function KeepDigitsAndDots(s: string): (t: string)
    ensures forall i :: 0 <= i < |t| ==> DigitOrDot(t[i])
  {
    if s == [] then []
    else (if DigitOrDot(s[0]) then [s[0]] else []) + KeepDigitsAndDots(s[1..])
  }

  /** One character is kept exactly when it is a digit or a dot. */
  lemma KeepDigitsAndDotsOfChar(c: char)
    ensures KeepDigitsAndDots([c]) == if DigitOrDot(c) then [c] else []
  {
    assert [c][1..] == [];
  }

  /** The replacement works character by character and keeps the order. */
  lemma {:induction false} KeepDigitsAndDotsConcat(a: string, b: string)
    ensures KeepDigitsAndDots(a + b) == KeepDigitsAndDots(a) + KeepDigitsAndDots(b)
  {
    if a == [] {
      assert a + b == b;
    } else {
      assert (a + b)[0] == a[0];
      assert (a + b)[1..] == a[1..] + b;
      KeepDigitsAndDotsConcat(a[1..], b);
    }
  }

  /** The result is exactly the digits and dots of the text, in order: a filter. */
  lemma {:induction false} KeepDigitsAndDotsIsFilter(s: string)
    ensures KeepDigitsAndDots(s) == Filter(s, DigitOrDot)
  {
    if s != [] {
      KeepDigitsAndDotsIsFilter(s[1..]);
    }
  }

  /** A text of digits and dots alone is left as it is, so the replacement is idempotent. */
  lemma {:induction false} KeepDigitsAndDotsIdempotent(s: string)
    ensures KeepDigitsAndDots(KeepDigitsAndDots(s)) == KeepDigitsAndDots(s)
  {
    if s != [] {
      var rest := KeepDigitsAndDots(s[1..]);
      KeepDigitsAndDotsIdempotent(s[1..]);
      if DigitOrDot(s[0]) {
        KeepDigitsAndDotsConcat([s[0]], rest);
        KeepDigitsAndDotsOfChar(s[0]);
      } else {
        assert KeepDigitsAndDots(s) == rest;
      }
    }
  }

  /** `Number((recap.price || '').replace(...))`; a truthy price that is not text throws. */
  function PriceNumber(recap: map<string, Value>, env: Env): Completion<JsNumber>
  {
    var price := Or(Field(recap, "price"), Str(""));
    if price.Str? then Normal(StringToNumber(KeepDigitsAndDots(price.s), env))
    else Throw("TypeError: replace is not a function")
  }

  /** `costPerM3`: the found route's cost, else the number in the price text (0 when NaN without a route). */
  function CostPerM3(details: Option<Route>, recap: map<string, Value>, env: Env): Completion<JsNumber>
  {
    if details.Some? then
      if TruthyReal(details.value.cost) then Normal(Finite(details.value.cost.value)) else PriceNumber(recap, env)
    else match PriceNumber(recap, env)
      case Throw(e) => Throw(e)
      case Normal(n) => Normal(if TruthyNumber(n) then n else Finite(0.0))
  }

  /** `Number(recap.volume) || 0`. */
  function Volume(recap: map<string, Value>, env: Env): real
  {
    var n := ToNumber(Field(recap, "volume"), env);
    if TruthyNumber(n) then n.r else 0.0
  }

  /** `recap.minutes_per_m3 || 5`. */
  function Rate(recap: map<string, Value>): Value
  {
    Or(Field(recap, "minutes_per_m3"), Num(Finite(5.0)))
  }

  /** `Math.ceil((rate * volume) || 0)` for a rate already converted to a number. */
  function LoadFor(rate: JsNumber, volume: real): int
  {
    var product := Mul(rate, Finite(volume));
    Ceil(if TruthyNumber(product) then product.r else 0.0)
  }

  /** `Math.ceil((rate * (volume || 0)) || 0)`. */
  function LoadMinutes(recap: map<string, Value>, env: Env): int
  {
    LoadFor(ToNumber(Rate(recap), env), Volume(recap, env))
  }

  /** `scheduledAtIso`: `date + 'T' + time` when both are present (an invalid date throws), else now. */
  function ScheduledAt(recap: map<string, Value>, env: Env, now: int): Completion<int>
  {
    if Truthy(Field(recap, "date")) && Truthy(Field(recap, "time")) then
      match NewDate(Plus(Plus(Field(recap, "date"), Str("T"), env), Field(recap, "time"), env), env)
      case Valid(ms) => Normal(ms)
      case Invalid => Throw("RangeError: Invalid time value")
    else Normal(now)
  }

  /** `departure_time`: the schedule minus the load; the schedule itself when that is no valid date. */
  function DepartureTime(scheduled: int, load: int): int
  {
    match DateFromTime(Finite(scheduled as real - (load * 60000) as real))
    case Valid(ms) => ms
    case Invalid => scheduled
  }

  /** `(route_duration_min || recap.adjustedDuration || 0) * 60 * 1000`. */
  function RouteDurationMs(details: Option<Route>, recap: map<string, Value>, env: Env): JsNumber
  {
    var minutes := Or(Or(DetailDuration(details), Field(recap, "adjustedDuration")), Num(Finite(0.0)));
    Mul(Mul(ToNumber(minutes, env), Finite(60.0)), Finite(1000.0))
  }

  /** `estimated_return_time`: the schedule plus load and route; the schedule when that is no valid date. */
  function ReturnTime(scheduled: int, load: int, routeMs: JsNumber): int
  {
    match DateFromTime(Add(Finite(scheduled as real + (load * 60000) as real), routeMs))
    case Valid(ms) => ms
    case Invalid => scheduled
  }

  /** `truck_ids`: an array as it is, a truthy value as a singleton, else empty. */
  function TruckIds(v: Value): (r: Value)
    ensures r.Arr?
    ensures v.Arr? ==> r == v
    ensures !v.Arr? && Truthy(v) ==> r == Arr([v])
    ensures !Truthy(v) ==> r == Arr([])
  {
    if v.Arr? then v else if Truthy(v) then Arr([v]) else Arr([])
  }

  /** The modelled fields of the delivery payload; times are the instants the ISO texts denote. */
  datatype DeliveryPayload = DeliveryPayload(
    customerName: Value,
    customerPhone: Value,
    volumeM3: real,
    cost: JsNumber,
    status: string,
    scheduledAt: int,
    truckIds: Value,
    minutesPerM3: Value,
    loadMinutes: int,
    departureTime: int,
    estimatedReturnTime: int,
    chosenRouteId: Option<int>,
    routeTrajectory: Value,
    routeDurationMin: Option<real>,
    routeLink: Option<string>)

  /** The payload `handleConfirmDelivery` sends, or what it throws before sending. */
  function ConfirmPayload(recap: map<string, Value>, selected: Option<int>, routes: seq<Route>, env: Env, now: int)
    : Completion<DeliveryPayload>
  {
    var details := RouteDetails(selected, routes);
    match RouteLink(details, recap, env)
    case Throw(e) => Throw(e)
    case Normal(link) =>
      match CostPerM3(details, recap, env)
      case Throw(e) => Throw(e)
      case Normal(cost) =>
        match ScheduledAt(recap, env, now)
        case Throw(e) => Throw(e)
        case Normal(scheduled) =>
          var load := LoadMinutes(recap, env);
          Normal(DeliveryPayload(
            Or(Or(Field(recap, "customerName"), Field(recap, "customer_name")), Str("")),
            Or(Or(Field(recap, "customerPhone"), Field(recap, "customer_phone")), Str("")),
            Volume(recap, env),
            cost,
            "pending",
            scheduled,
            TruckIds(Field(recap, "truck_ids")),
            Rate(recap),
            load,
            DepartureTime(scheduled, load),
            ReturnTime(scheduled, load, RouteDurationMs(details, recap, env)),
            if details.Some? && details.value.id != 0 then Some(details.value.id) else None,
            Or(DetailTrajectory(details), Undefined),
            if details.Some? && TruthyReal(details.value.duration) then details.value.duration else None,
            link))
  }

  /** The load is 0 for a zero volume. */
  lemma LoadZeroForZeroVolume(recap: map<string, Value>, env: Env)
    requires Volume(recap, env) == 0.0
    ensures LoadMinutes(recap, env) == 0
  {
  }

  /** With a numeric rate, the load is the rate times the volume rounded up. */
  lemma LoadMinutesOfRate(recap: map<string, Value>, env: Env, rate: real)
    requires ToNumber(Rate(recap), env) == Finite(rate)
    ensures var product := rate * Volume(recap, env);
      product as real <= LoadMinutes(recap, env) as real < product + 1.0
  {
  }

  /** A larger volume never needs fewer load minutes, at a non-negative rate. */
  lemma LoadMinutesMonotone(r1: map<string, Value>, r2: map<string, Value>, env: Env, rate: real)
    requires ToNumber(Rate(r1), env) == Finite(rate) && ToNumber(Rate(r2), env) == Finite(rate)
    requires rate >= 0.0 && Volume(r1, env) <= Volume(r2, env)
    ensures LoadMinutes(r1, env) <= LoadMinutes(r2, env)
  {
    LoadForMonotone(rate, Volume(r1, env), Volume(r2, env));
  }

  /** At a fixed non-negative rate, the load grows with the volume. */
  lemma LoadForMonotone(rate: real, v1: real, v2: real)
    requires rate >= 0.0 && v1 <= v2
    ensures LoadFor(Finite(rate), v1) <= LoadFor(Finite(rate), v2)
  {
    LoadForIsCeil(rate, v1);
    LoadForIsCeil(rate, v2);
    CeilOfProductMonotone(rate, v1, v2);
  }

  /** `|| 0` only replaces a zero product by zero. */
  lemma LoadForIsCeil(rate: real, volume: real)
    ensures LoadFor(Finite(rate), volume) == Ceil(rate * volume)
  {
    assert Mul(Finite(rate), Finite(volume)) == Finite(rate * volume);
  }

  lemma CeilOfProductMonotone(rate: real, v1: real, v2: real)
    requires rate >= 0.0 && v1 <= v2
    ensures Ceil(rate * v1) <= Ceil(rate * v2)
  {
    assert rate * v2 - rate * v1 == rate * (v2 - v1);
    CeilMonotone(rate * v1, rate * v2);
  }

  lemma LoadMinutesIsCeil(recap: map<string, Value>, env: Env, rate: real)
    requires ToNumber(Rate(recap), env) == Finite(rate)
    ensures LoadMinutes(recap, env) == Ceil(rate * Volume(recap, env))
  {
    LoadForIsCeil(rate, Volume(recap, env));
  }


  /** The schedule is now unless both a date and a time are given. */
  lemma ScheduleDefaultsToNow(recap: map<string, Value>, env: Env, now: int)
    requires !Truthy(Field(recap, "date")) || !Truthy(Field(recap, "time"))
    ensures ScheduledAt(recap, env, now) == Normal(now)
  {
  }

  /** Departure is the schedule minus the load whenever that is a valid date. */
  lemma DepartureExact(scheduled: int, load: int)
    requires -MaxTimeMs <= scheduled - load * 60000 <= MaxTimeMs
    ensures DepartureTime(scheduled, load) == scheduled - load * 60000
  {
  }

  /**
   * With a selected route, the route's `duration` (seconds) is multiplied as if it were
   * minutes: the return is the schedule plus load plus `duration` times 60000 ms.
   */
  lemma ReturnUsesSecondsAsMinutes(recap: map<string, Value>, env: Env, route: Route, scheduled: int, load: int, seconds: real)
    requires route.duration == Some(seconds) && seconds != 0.0
    requires -(MaxTimeMs as real) <= scheduled as real + (load * 60000) as real + seconds * 60000.0 <= MaxTimeMs as real
    ensures ReturnTime(scheduled, load, RouteDurationMs(Some(route), recap, env))
         == Trunc(scheduled as real + (load * 60000) as real + seconds * 60000.0)
  {
    assert RouteDurationMs(Some(route), recap, env) == Finite(seconds * 60000.0) by {
      assert Or(Or(DetailDuration(Some(route)), Field(recap, "adjustedDuration")), Num(Finite(0.0)))
          == Num(Finite(seconds));
    }
  }

  /**
   * Without a selected route the recap's `adjustedDuration` text (`"… min"`) is used; it is
   * not a number, the sum is no valid date, and the return falls back to the schedule.
   */
  lemma ReturnFallsBackOnFormattedDuration(recap: map<string, Value>, env: Env, scheduled: int, load: int, i: nat)
    requires Field(recap, "adjustedDuration").Str?
    requires i < |Field(recap, "adjustedDuration").s| && Field(recap, "adjustedDuration").s[i] == 'm'
    ensures ReturnTime(scheduled, load, RouteDurationMs(None, recap, env)) == scheduled
  {
    var adjusted := Field(recap, "adjustedDuration");
    assert ToNumber(adjusted, env) == NaN by {
      assert !NumericLiteralChar(adjusted.s[i]);
    }
    assert RouteDurationMs(None, recap, env) == NaN by {
      assert Or(Or(DetailDuration(None), adjusted), Num(Finite(0.0))) == adjusted;
    }
  }

  /** The text the recap stores as `adjustedDuration` always contains an `m`. */
  lemma DurationTextHasM(duration: JsNumber, env: Env)
    requires TruthyNumber(duration)
    ensures var t := DurationText(duration, env).s;
      |t| >= 3 && t[|t| - 3] == 'm'
  {
  }

  /**
   * Departure never follows the schedule and the return never precedes it, for a
   * non-negative rate and volume and a route duration that is NaN or non-negative.
   */
  lemma TimelineOrdered(recap: map<string, Value>, details: Option<Route>, env: Env, scheduled: int)
    requires var rate := ToNumber(Rate(recap), env); rate.NaN? || rate.r >= 0.0
    requires Volume(recap, env) >= 0.0
    requires var ms := RouteDurationMs(details, recap, env); ms.NaN? || ms.r >= 0.0
    ensures DepartureTime(scheduled, LoadMinutes(recap, env)) <= scheduled
    ensures scheduled <= ReturnTime(scheduled, LoadMinutes(recap, env), RouteDurationMs(details, recap, env))
  {
    LoadMinutesNonNegative(recap, env);
    DepartureNotAfter(scheduled, LoadMinutes(recap, env));
    ReturnNotBefore(scheduled, LoadMinutes(recap, env), RouteDurationMs(details, recap, env));
  }

  lemma LoadMinutesNonNegative(recap: map<string, Value>, env: Env)
    requires var rate := ToNumber(Rate(recap), env); rate.NaN? || rate.r >= 0.0
    requires Volume(recap, env) >= 0.0
    ensures LoadMinutes(recap, env) >= 0
  {
    var product := Mul(ToNumber(Rate(recap), env), Finite(Volume(recap, env)));
    assert product.Finite? ==> product.r >= 0.0;
  }

  lemma DepartureNotAfter(scheduled: int, load: nat)
    ensures DepartureTime(scheduled, load) <= scheduled
  {
    var x := scheduled as real - (load * 60000) as real;
    assert x <= scheduled as real;
    if x >= 0.0 {
      assert Trunc(x) as real <= x;
    } else {
      assert Trunc(x) as real - 1.0 < x;
    }
  }

  lemma ReturnNotBefore(scheduled: int, load: nat, routeMs: JsNumber)
    requires routeMs.NaN? || routeMs.r >= 0.0
    ensures scheduled <= ReturnTime(scheduled, load, routeMs)
  {
    var x := Add(Finite(scheduled as real + (load * 60000) as real), routeMs);
    if x.Finite? {
      assert x.r >= scheduled as real;
      if x.r < 0.0 {
        assert x.r <= Trunc(x.r) as real;
      }
    }
  }

  /**
   * The price text the recap stores for a positive whole adjusted cost reads back, on
   * confirmation without a route, as that cost.
   */
  lemma PriceRoundTrip(n: nat, env: Env)
    requires 0 < n < 1000000000000000000000
    ensures PriceNumber(map["price" := PriceText(Finite(n as real), env)], env) == Normal(Finite(n as real))
  {
    var digits := NatText(n);
    assert PriceText(Finite(n as real), env) == Str(digits + " DA") by {
      assert (n as real).Floor == n;
      assert NumberToString(Finite(n as real), env) == DecimalText(n);
    }
    assert KeepDigitsAndDots(digits + " DA") == digits by {
      KeepDigitsOfNatText(digits, " DA");
    }
    assert StringToNumber(digits, env) == Finite(n as real) by {
      assert !IsJsWhiteSpace(digits[0]);
      DigitsValueOfNatText(n);
    }
  }


  lemma {:induction false} KeepDigitsOfNatText(digits: string, tail: string)
    requires forall i :: 0 <= i < |digits| ==> IsDigit(digits[i])
    requires forall i :: 0 <= i < |tail| ==> !DigitOrDot(tail[i])
    ensures KeepDigitsAndDots(digits + tail) == digits
  {
    if digits == [] {
      KeepNone(tail);
      assert digits + tail == tail;
    } else {
      assert (digits + tail)[1..] == digits[1..] + tail;
      KeepDigitsOfNatText(digits[1..], tail);
      assert [digits[0]] + digits[1..] == digits;
    }
  }

  lemma {:induction false} KeepNone(s: string)
    requires forall i :: 0 <= i < |s| ==> !DigitOrDot(s[i])
    ensures KeepDigitsAndDots(s) == []
  {
    if s != [] {
      KeepNone(s[1..]);
    }
  }

  /**
   * For a trajectory of well-formed numeric pairs that need no swap, the modal's link and
   * the persisted link are the same directions link.
   */
  lemma LinksAgreeWithoutSwap(items: seq<Value>, env: Env)
    requires |items| >= 2
    requires forall i :: 0 <= i < |items| ==>
      items[i].Arr? && |items[i].items| == 2 && items[i].items[0].Num? && items[i].items[1].Num?
      && !SwapsAxes(items[i].items[0].n, items[i].items[1].n)
    ensures RouteUrl(map["route_trajectory" := Arr(items)], env) == DirectionsUrl(items, env)
    ensures RouteLink(None, map["route_trajectory" := Arr(items)], env) == Normal(Some(DirectionsUrl(items, env)))
  {
    var t := Arr(items);
    assert Candidate(t) == t by {
      assert !IsNested(t);
    }
    assert NormalizedPairs(items, env) == items by {
      NormalizedUnchanged(items, env);
    }
    var url := DirectionsUrl(items, env);
    assert GoogleMapsDirectionsUrl(t, env) == Normal(url);
    assert |url| > 0 by {
      assert StartsWith(url, DirectionsPrefix);
    }
  }

  /**
   * An entry that is not an array: the persisted link's builder throws on it, while the
   * modal's link drops it and is the link of the other entries.
   */
  lemma LinksOnNonArrayEntry(items: seq<Value>, x: Value, env: Env)
    requires |items| >= 2 && AllPairs(items) && !IsNested(Arr(items)) && !x.Arr?
    ensures RouteLink(None, map["route_trajectory" := Arr(items + [x])], env) == Throw(NotAPair)
    ensures RouteUrl(map["route_trajectory" := Arr(items + [x])], env) == RouteUrl(map["route_trajectory" := Arr(items)], env)
  {
    var t := Arr(items + [x]);
    assert (items + [x])[0] == items[0];
    assert Candidate(t) == t by {
      assert !IsNested(t);
    }
    assert Candidate(Arr(items)) == Arr(items);
    assert !AllPairs(items + [x]) by {
      assert (items + [x])[|items|] == x;
    }
    assert NormalizedPairs(items + [x], env) == NormalizedPairs(items, env) by {
      NormalizedPairsDropsLast(items, x, env);
    }
  }

  /** A last entry that is not an array is dropped by the normalisation. */
  lemma {:induction false} NormalizedPairsDropsLast(items: seq<Value>, x: Value, env: Env)
    requires !x.Arr?
    ensures NormalizedPairs(items + [x], env) == NormalizedPairs(items, env)
  {
    if items == [] {
      assert [x][1..] == [];
    } else {
      assert (items + [x])[0] == items[0];
      assert (items + [x])[1..] == items[1..] + [x];
      NormalizedPairsDropsLast(items[1..], x, env);
    }
  }

  lemma {:induction false} NormalizedUnchanged(items: seq<Value>, env: Env)
    requires forall i :: 0 <= i < |items| ==>
      items[i].Arr? && |items[i].items| == 2 && items[i].items[0].Num? && items[i].items[1].Num?
      && !SwapsAxes(items[i].items[0].n, items[i].items[1].n)
    ensures NormalizedPairs(items, env) == items
  {
    if items != [] {
      var p := items[0];
      assert p.items == [p.items[0], p.items[1]];
      NormalizedUnchanged(items[1..], env);
      assert [items[0]] + items[1..] == items;
    }
  }

  /**
   * For `[lng, lat]` pairs beyond 90 degrees of longitude, the modal shows the link of the
   * swapped pairs while the persisted link keeps the pairs as they are.
   */
  lemma LinksDifferOnSwap(a: real, b: real, c: real, d: real, env: Env)
    requires 90.0 < AbsReal(a) <= 180.0 && AbsReal(b) <= 90.0
    requires 90.0 < AbsReal(c) <= 180.0 && AbsReal(d) <= 90.0
    ensures var items := [Arr([Num(Finite(a)), Num(Finite(b))]), Arr([Num(Finite(c)), Num(Finite(d))])];
      var swapped := [Arr([Num(Finite(b)), Num(Finite(a))]), Arr([Num(Finite(d)), Num(Finite(c))])];
      && RouteUrl(map["route_trajectory" := Arr(items)], env) == DirectionsUrl(swapped, env)
      && RouteLink(None, map["route_trajectory" := Arr(items)], env) == Normal(Some(DirectionsUrl(items, env)))
      && swapped != items
  {
    var items := [Arr([Num(Finite(a)), Num(Finite(b))]), Arr([Num(Finite(c)), Num(Finite(d))])];
    var swapped := [Arr([Num(Finite(b)), Num(Finite(a))]), Arr([Num(Finite(d)), Num(Finite(c))])];
    LngLatSwapped(a, b, env);
    LngLatSwapped(c, d, env);
    assert items[1..] == [items[1]];
    assert items[1..][1..] == [];
    assert NormalizedPairs(items[1..], env) == [swapped[1]] + NormalizedPairs([], env);
    assert NormalizedPairs(items, env) == [swapped[0]] + NormalizedPairs(items[1..], env);
    assert NormalizedPairs(items, env) == swapped;
    assert !IsNested(Arr(items));
    assert Candidate(Arr(items)) == Arr(items);
    assert |DirectionsUrl(items, env)| > 0 by {
      assert StartsWith(DirectionsUrl(items, env), DirectionsPrefix);
    }
    assert swapped[0] != items[0];
  }

  /**
   * The modal and the payload agree on the load minutes for a recap with a numeric,
   * non-zero volume, no explicit load and no `minutesPerM3`.
   */
  lemma LoadMinutesAgree(recap: map<string, Value>, env: Env, volume: real)
    requires Field(recap, "volume") == Num(Finite(volume)) && volume != 0.0
    requires !Truthy(Field(recap, "load_minutes")) && !Truthy(Field(recap, "loadMinutes"))
    requires !Truthy(Field(recap, "minutesPerM3"))
    requires ToNumber(Rate(recap), env).Finite?
    ensures Timing(recap, env).loadMinutes == Num(Finite(LoadMinutes(recap, env) as real))
  {
    var rate := ToNumber(Rate(recap), env);
    assert RecapRate(recap) == Rate(recap);
    assert RecapVolume(recap, env) == Finite(volume);
  }

  // ---------------------------------------------------------------------------
  // The route request

  /** The body of the route request; positions are `[longitude, latitude]`. */
  datatype RoutesRequest = RoutesRequest(factory: seq<real>, customer: seq<real>, tripsPerTruck: real)

  /** `feasibility && feasibility.tripsPerTruck ? feasibility.tripsPerTruck : 1`. */
  function RequestTrips(feasibility: FeasibilityState): real
  {
    if feasibility.Checked? && TruthyReal(feasibility.reply.tripsPerTruck) then feasibility.reply.tripsPerTruck.value
    else 1.0
  }

  /** The route request for a user position given as `(latitude, longitude)`. */
  function RoutesRequestFor(userPosition: (real, real), feasibility: FeasibilityState): (r: RoutesRequest)
    ensures r.factory == [FactoryLng, FactoryLat] && r.customer == [userPosition.1, userPosition.0]
    ensures r.tripsPerTruck != 0.0
    ensures feasibility.Checked? && TruthyReal(feasibility.reply.tripsPerTruck) ==>
      r.tripsPerTruck == feasibility.reply.tripsPerTruck.value
    ensures !(feasibility.Checked? && TruthyReal(feasibility.reply.tripsPerTruck)) ==> r.tripsPerTruck == 1.0
  {
    RoutesRequest([FactoryLng, FactoryLat], [userPosition.1, userPosition.0], RequestTrips(feasibility))
  }

  // ---------------------------------------------------------------------------
  // Page state

  /** The reply of the route service: `RoutesFailed` when the request or its parse fails. */
  datatype RoutesReply = RoutesFailed | RoutesOk(routes: Option<seq<Route>>)

  /** What confirming did: nothing (no recap), threw before sending, or sent a payload. */
  datatype ConfirmOutcome = NoRecap | ConfirmThrew(error: string) | Sent(payload: DeliveryPayload)

  /** A built payload is sent; a thrown error ends the handler before the request. */
  function OutcomeOf(built: Completion<DeliveryPayload>): (o: ConfirmOutcome)
    ensures built.Throw? <==> o.ConfirmThrew?
    ensures built.Normal? <==> o.Sent?
  {
    match built
    case Throw(e) => ConfirmThrew(e)
    case Normal(p) => Sent(p)
  }

  class HomePageState {
    var userPosition: Option<(real, real)>
    var routes: seq<Route>
    var loading: bool
    var error: string
    var selectedRoute: Option<int>
    var deliveryModalOpen: bool
    var recapModalOpen: bool
    var recapData: Option<map<string, Value>>
    var feasibility: FeasibilityState
    var feasibilityLoading: bool
    var feasibilityError: string

    constructor ()
      ensures userPosition == None && routes == [] && !loading && error == "" && selectedRoute == None
      ensures !deliveryModalOpen && !recapModalOpen && recapData == None
      ensures feasibility == NotChecked && !feasibilityLoading && feasibilityError == ""
    {
      userPosition := None;
      routes := [];
      loading := false;
      error := "";
      selectedRoute := None;
      deliveryModalOpen := false;
      recapModalOpen := false;
      recapData := None;
      feasibility := NotChecked;
      feasibilityLoading := false;
      feasibilityError := "";
    }

    /**
     * `handleDeliveryFormSubmit`: opens the recap, checks feasibility (`reply` is `None`
     * when the request fails) and stores the enriched recap.
     */
    method HandleDeliveryFormSubmit(form: map<string, Value>, reply: Option<Feasibility>, env: Env)
      modifies this`deliveryModalOpen, this`recapModalOpen, this`feasibility, this`feasibilityError
      modifies this`feasibilityLoading, this`recapData
      ensures !deliveryModalOpen && recapModalOpen && !feasibilityLoading
      ensures reply.Some? ==>
        && feasibility == Checked(reply.value)
        && feasibilityError == OrText(reply.value.reason, "")
        && recapData == Some(EnrichRecap(form, reply.value, selectedRoute, routes, env))
      ensures reply.None? ==>
        && feasibility == CheckFailed
        && feasibilityError == "Could not check delivery feasibility."
        && recapData == old(recapData)
    {
      deliveryModalOpen := false;
      recapModalOpen := true;
      feasibility := NotChecked;
      feasibilityError := "";
      feasibilityLoading := true;
      match reply {
        case Some(f) =>
          feasibility := Checked(f);
          feasibilityError := OrText(f.reason, "");
          var recap := EnrichRecap(form, f, selectedRoute, routes, env);
          recapData := Some(recap);
        case None =>
          feasibility := CheckFailed;
          feasibilityError := "Could not check delivery feasibility.";
      }
      feasibilityLoading := false;
    }

    /** `generateRoutes`: returns the request it sends, if any. */
    method GenerateRoutes(reply: RoutesReply) returns (request: Option<RoutesRequest>)
      modifies this
      ensures old(userPosition).None? ==> request == None && unchanged(this)
      ensures old(userPosition).Some? ==>
        && request == Some(RoutesRequestFor(old(userPosition).value, old(feasibility)))
        && selectedRoute == None && !loading
        && routes == (if reply.RoutesOk? && reply.routes.Some? then reply.routes.value else [])
        && error == (if reply.RoutesFailed? then "Could not generate routes." else "")
      ensures old(userPosition).Some? ==>
        && userPosition == old(userPosition) && feasibility == old(feasibility)
        && recapData == old(recapData) && deliveryModalOpen == old(deliveryModalOpen)
        && recapModalOpen == old(recapModalOpen) && feasibilityLoading == old(feasibilityLoading)
        && feasibilityError == old(feasibilityError)
    {
      if userPosition.None? {
        return None;
      }
      loading := true;
      error := "";
      routes := [];
      selectedRoute := None;
      request := Some(RoutesRequestFor(userPosition.value, feasibility));
      match reply {
        case RoutesFailed =>
          error := "Could not generate routes.";
        case RoutesOk(rs) =>
          routes := if rs.Some? then rs.value else [];
      }
      loading := false;
    }

    /**
     * `handleConfirmDelivery`: builds and sends the payload; `saved` is whether the save
     * request succeeded. When building the payload throws, the loading flag stays set.
     */
    method HandleConfirmDelivery(env: Env, now: int, saved: bool) returns (outcome: ConfirmOutcome)
      modifies this`feasibilityLoading, this`feasibilityError, this`recapModalOpen
      ensures old(recapData).None? ==> outcome == NoRecap && unchanged(this)
      ensures old(recapData).Some? ==>
        outcome == OutcomeOf(ConfirmPayload(old(recapData).value, old(selectedRoute), old(routes), env, now))
      ensures outcome.ConfirmThrew? ==>
        feasibilityLoading && feasibilityError == "" && recapModalOpen == old(recapModalOpen)
      ensures outcome.Sent? ==>
        && !feasibilityLoading && recapModalOpen == (old(recapModalOpen) && !saved)
        && feasibilityError == (if saved then "" else "Failed to save delivery.")
    {
      if recapData.None? {
        return NoRecap;
      }
      feasibilityLoading := true;
      feasibilityError := "";
      var built := ConfirmPayload(recapData.value, selectedRoute, routes, env, now);
      outcome := OutcomeOf(built);
      if outcome.Sent? {
        if saved {
          recapModalOpen := false;
        } else {
          feasibilityError := "Failed to save delivery.";
        }
        feasibilityLoading := false;
      }
    }
  }
}
