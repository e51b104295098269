/**
 * The recap modal's derived values: the route link it offers, resolved from the
 * delivery's `route_trajectory` (a JSON text, a GeoJSON-like object, a list of pairs or
 * an `http` link), and the loading, departure and return times it shows.
 * The recap data is the object the modal receives, given by its own properties.
 */
module DeliveryRecapModal {
  import opened JsValues
  import opened RouteQRCode

  // ---------------------------------------------------------------------------
  // Trajectory geometry (shared with the persisted link of the home page)

  /** A `{type, coordinates}` object whose `type` is truthy and whose `coordinates` is an array. */
  predicate IsGeoJson(raw: Value)
  {
    Truthy(raw) && Truthy(Get(raw, "type")) && Get(raw, "coordinates").Arr?
  }

  /** The GeoJSON object is replaced by its coordinates; anything else is kept. */
  function UnwrapGeoJson(raw: Value): Value
  {
    if IsGeoJson(raw) then Get(raw, "coordinates") else raw
  }

  /** A non-empty array whose first entry is a non-empty array whose first entry is an array. */
  predicate IsNested(candidate: Value)
  {
    candidate.Arr? && |candidate.items| > 0
    && candidate.items[0].Arr? && |candidate.items[0].items| > 0
    && candidate.items[0].items[0].Arr?
  }

  /** `items.flat()`: the entries of array entries are spliced in, other entries kept. */
  function Flat(items: seq<Value>): seq<Value>
  {
    if items == [] then []
    else (if items[0].Arr? then items[0].items else [items[0]]) + Flat(items[1..])
  }

  /** Flattening is done one entry at a time and keeps the order. */
  lemma {:induction false} FlatConcat(a: seq<Value>, b: seq<Value>)
    ensures Flat(a + b) == Flat(a) + Flat(b)
  {
    if a == [] {
      assert a + b == b;
    } else {
      assert (a + b)[0] == a[0];
      assert (a + b)[1..] == a[1..] + b;
      FlatConcat(a[1..], b);
    }
  }

  /** Entries that are not arrays are kept as they are. */
  lemma {:induction false} FlatOfScalars(items: seq<Value>)
    requires forall i :: 0 <= i < |items| ==> !items[i].Arr?
    ensures Flat(items) == items
  {
    if items != [] {
      FlatOfScalars(items[1..]);
      assert [items[0]] + items[1..] == items;
    }
  }

  /** Flattening removes exactly one level: a list of lines becomes their concatenation. */
  lemma FlatOfLines(a: seq<Value>, b: seq<Value>)
    ensures Flat([Arr(a), Arr(b)]) == a + b
  {
    assert [Arr(a), Arr(b)][1..] == [Arr(b)];
    assert [Arr(b)][1..] == [];
    assert Flat([Arr(b)]) == b + [];
    assert b + [] == b;
  }

  /** The MultiLineString case: a nested candidate is flattened one level. */
  function FlattenNested(candidate: Value): Value
  {
    if IsNested(candidate) then Arr(Flat(candidate.items)) else candidate
  }

  /** The coordinate list after unwrapping and flattening. */
  function Candidate(raw: Value): Value
  {
    FlattenNested(UnwrapGeoJson(raw))
  }

  // ---------------------------------------------------------------------------
  // Pair normalisation

  /** An array with at least two components. */
  predicate IsPairShaped(pair: Value)
  {
    pair.Arr? && |pair.items| >= 2
  }

  /** The heuristic's swap condition: `b` looks like a latitude and `a` like a longitude. */
  predicate SwapsAxes(a: JsNumber, b: JsNumber)
  {
    AbsAtMost(b, 90.0) && AbsAtMost(a, 180.0) && AbsAbove(a, 90.0)
  }

  /** One entry of `candidate.map(...)`: `None` stands for the `null` that `filter(Boolean)` drops. */
  function NormalizePair(pair: Value, env: Env): Option<Value>
  {
    if !pair.Arr? || |pair.items| < 2 then None
    else
      var a := ToNumber(pair.items[0], env);
      var b := ToNumber(pair.items[1], env);
      if AbsAtMost(a, 90.0) && AbsAtMost(b, 180.0) && AbsAbove(b, 90.0) then Some(Arr([Num(a), Num(b)]))
      else if AbsAtMost(b, 90.0) && AbsAtMost(a, 180.0) && AbsAbove(a, 90.0) then Some(Arr([Num(b), Num(a)]))
      else Some(Arr([Num(a), Num(b)]))
  }

  /** `candidate.map(normalise).filter(Boolean)`. */
  function NormalizedPairs(items: seq<Value>, env: Env): (pairs: seq<Value>)
    ensures AllPairs(pairs)
  {
    if items == [] then []
    else match NormalizePair(items[0], env)
      case None => NormalizedPairs(items[1..], env)
      case Some(p) => [p] + NormalizedPairs(items[1..], env)
  }

  /** The normalised form of a pair-shaped entry. */
  function Normalized(pair: Value, env: Env): Value
    requires IsPairShaped(pair)
  {
    var a := ToNumber(pair.items[0], env);
    var b := ToNumber(pair.items[1], env);
    Arr(if SwapsAxes(a, b) then [Num(b), Num(a)] else [Num(a), Num(b)])
  }

  /**
   * A pair `[a, b]` becomes `[b, a]` exactly when |b| <= 90 and 90 < |a| <= 180; otherwise
   * it stays `[a, b]`, extra components dropped. Entries that are not arrays of at least two
   * components are dropped.
   */
  lemma NormalizePairSpec(pair: Value, env: Env)
    ensures NormalizePair(pair, env).Some? <==> IsPairShaped(pair)
    ensures IsPairShaped(pair) ==> NormalizePair(pair, env) == Some(Normalized(pair, env))
  {
  }

  /**
   * The geometry the routing service returns is `[lng, lat]`. A pair whose longitude is at
   * most 90 in magnitude is left as it is, so its longitude is read as the latitude.
   */
  lemma LngLatKept(lng: real, lat: real, env: Env)
    requires AbsReal(lng) <= 90.0 && AbsReal(lat) <= 90.0
    ensures NormalizePair(Arr([Num(Finite(lng)), Num(Finite(lat))]), env)
         == Some(Arr([Num(Finite(lng)), Num(Finite(lat))]))
  {
  }

  /** A pair whose first component is a longitude beyond 90 in magnitude is swapped. */
  lemma LngLatSwapped(lng: real, lat: real, env: Env)
    requires 90.0 < AbsReal(lng) <= 180.0 && AbsReal(lat) <= 90.0
    ensures NormalizePair(Arr([Num(Finite(lng)), Num(Finite(lat))]), env)
         == Some(Arr([Num(Finite(lat)), Num(Finite(lng))]))
  {
  }

  /** The normalised form of each entry of a list of pair-shaped entries. */
  function NormalizedAll(pairs: seq<Value>, env: Env): (r: seq<Value>)
    requires forall i :: 0 <= i < |pairs| ==> IsPairShaped(pairs[i])
    ensures |r| == |pairs|
    ensures forall i :: 0 <= i < |pairs| ==> r[i] == Normalized(pairs[i], env)
  {
    if pairs == [] then [] else [Normalized(pairs[0], env)] + NormalizedAll(pairs[1..], env)
  }

  /**
   * The surviving pairs are the pair-shaped entries, in their original order, each
   * normalised.
   */
  lemma {:induction false} NormalizedPairsSpec(items: seq<Value>, env: Env)
    ensures NormalizedPairs(items, env) == NormalizedAll(Filter(items, IsPairShaped), env)
  {
    if items != [] {
      NormalizePairSpec(items[0], env);
      NormalizedPairsSpec(items[1..], env);
      if IsPairShaped(items[0]) {
        var f := Filter(items, IsPairShaped);
        assert f == [items[0]] + Filter(items[1..], IsPairShaped);
        assert f[1..] == Filter(items[1..], IsPairShaped);
      }
    }
  }

  // ---------------------------------------------------------------------------
  // The route link

  /** The fallback: a trajectory that is text starting with `http` is itself the link. */
  function FallbackUrl(trajectory: Value): string
  {
    if trajectory.Str? && StartsWith(trajectory.s, "http") then trajectory.s else ""
  }

  /** `raw`: text starting with `[` is parsed as JSON (`None` when the parse throws). */
  function ParseTrajectory(trajectory: Value, env: Env): Option<Value>
  {
    if trajectory.Str? && StartsWith(trajectory.s, "[") then env.parseJson(trajectory.s) else Some(trajectory)
  }

  /** `routeUrl`: the link the modal offers for the recap data. */
  function RouteUrl(data: map<string, Value>, env: Env): string
  {
    var trajectory := Field(data, "route_trajectory");
    if !Truthy(trajectory) then ""
    else match ParseTrajectory(trajectory, env)
      case None => FallbackUrl(trajectory)
      case Some(raw) =>
        var candidate := Candidate(raw);
        if candidate.Arr? && |candidate.items| >= 2 then
          var coords := NormalizedPairs(candidate.items, env);
          if |coords| >= 2 then
            match GoogleMapsDirectionsUrl(Arr(coords), env)
            case Normal(url) => url
            case Throw(_) => FallbackUrl(trajectory)
          else ""
        else FallbackUrl(trajectory)
  }

  /** Without a truthy trajectory there is no link. */
  lemma RouteUrlAbsent(data: map<string, Value>, env: Env)
    requires !Truthy(Field(data, "route_trajectory"))
    ensures RouteUrl(data, env) == ""
  {
  }

  /** A trajectory given as an `http` text is used verbatim. */
  lemma RouteUrlHttp(data: map<string, Value>, env: Env)
    requires Field(data, "route_trajectory").Str?
    requires StartsWith(Field(data, "route_trajectory").s, "http")
    ensures RouteUrl(data, env) == Field(data, "route_trajectory").s
  {
    var s := Field(data, "route_trajectory").s;
    assert s[0] == 'h';
    assert !StartsWith(s, "[");
  }

  /**
   * When the trajectory yields a coordinate list of at least two entries, the link is the
   * directions link of the normalised pairs if at least two survive, and empty otherwise.
   */
  lemma RouteUrlOfCoordinates(data: map<string, Value>, env: Env, raw: Value)
    requires Truthy(Field(data, "route_trajectory"))
    requires ParseTrajectory(Field(data, "route_trajectory"), env) == Some(raw)
    requires Candidate(raw).Arr? && |Candidate(raw).items| >= 2
    ensures var coords := NormalizedPairs(Candidate(raw).items, env);
      RouteUrl(data, env) == if |coords| >= 2 then DirectionsUrl(coords, env) else ""
  {
  }

  /** A link other than the verbatim text is only built from at least two surviving pairs. */
  lemma RouteUrlNeedsTwoPairs(data: map<string, Value>, env: Env)
    requires RouteUrl(data, env) != FallbackUrl(Field(data, "route_trajectory"))
    requires RouteUrl(data, env) != ""
    ensures Truthy(Field(data, "route_trajectory"))
    ensures var raw := ParseTrajectory(Field(data, "route_trajectory"), env);
      raw.Some? && Candidate(raw.value).Arr? && |Candidate(raw.value).items| >= 2
      && |NormalizedPairs(Candidate(raw.value).items, env)| >= 2
      && RouteUrl(data, env) == DirectionsUrl(NormalizedPairs(Candidate(raw.value).items, env), env)
  {
  }

  /** The GeoJSON object and its bare coordinates give the same link. */
  lemma RouteUrlUnwrapsGeoJson(data: map<string, Value>, env: Env)
    requires IsGeoJson(Field(data, "route_trajectory"))
    ensures RouteUrl(data, env)
         == RouteUrl(data["route_trajectory" := Get(Field(data, "route_trajectory"), "coordinates")], env)
  {
    var coords := Get(Field(data, "route_trajectory"), "coordinates");
    var data' := data["route_trajectory" := coords];
    assert Field(data', "route_trajectory") == coords;
    assert !IsGeoJson(coords);
  }

  // ---------------------------------------------------------------------------
  // Timing

  /** What the modal shows: load minutes, departure and estimated return (`None` is `-`). */
  datatype RecapTiming = RecapTiming(loadMinutes: Value, departure: Option<Instant>, estimatedReturn: Option<Instant>)

  /** `minutes_per_m3 || minutesPerM3 || 5`. */
  function RecapRate(data: map<string, Value>): Value
  {
    Or(Or(Field(data, "minutes_per_m3"), Field(data, "minutesPerM3")), Num(Finite(5.0)))
  }

  /** `Number(volume || volume_m3 || 0)`. */
  function RecapVolume(data: map<string, Value>, env: Env): JsNumber
  {
    ToNumber(Or(Or(Field(data, "volume"), Field(data, "volume_m3")), Num(Finite(0.0))), env)
  }

  /** `Math.ceil(rate * volume)` on numbers. */
  function DerivedLoad(rate: JsNumber, volume: JsNumber): JsNumber
  {
    CeilNumber(Mul(rate, volume))
  }

  /** `load_minutes || loadMinutes || Math.ceil(minutesPerM3 * volume)`. */
  function RecapLoadMinutes(data: map<string, Value>, env: Env): Value
  {
    Or(Or(Field(data, "load_minutes"), Field(data, "loadMinutes")),
       Num(DerivedLoad(ToNumber(RecapRate(data), env), RecapVolume(data, env))))
  }

  /** The scheduled instant: `scheduled_at`, else `date + 'T' + time`, else none. */
  function RecapScheduled(data: map<string, Value>, env: Env): Option<Instant>
  {
    if Truthy(Field(data, "scheduled_at")) then Some(NewDate(Field(data, "scheduled_at"), env))
    else if Truthy(Field(data, "date")) && Truthy(Field(data, "time")) then
      Some(NewDate(Plus(Plus(Field(data, "date"), Str("T"), env), Field(data, "time"), env), env))
    else None
  }

  /** `route_duration_min || (adjustedDuration ? Number(adjustedDuration) / 60 : 0) || 0`. */
  function RecapRouteMinutes(data: map<string, Value>, env: Env): Value
  {
    var adjusted := Field(data, "adjustedDuration");
    Or(Or(Field(data, "route_duration_min"),
          Num(if Truthy(adjusted) then DivBy(ToNumber(adjusted, env), 60.0) else Finite(0.0))),
       Num(Finite(0.0)))
  }

  /** `departure`: the explicit departure time, else the schedule minus the load. */
  function RecapDeparture(data: map<string, Value>, env: Env, load: Value, scheduled: Option<Instant>): Option<Instant>
  {
    if Truthy(Field(data, "departure_time")) then Some(NewDate(Field(data, "departure_time"), env))
    else if scheduled.Some? then
      Some(DateFromTime(Sub(TimeValue(scheduled.value), Mul(ToNumber(load, env), Finite(60000.0)))))
    else None
  }

  /** `estReturn`: the explicit return time, else the schedule plus load and route minutes. */
  function RecapReturn(data: map<string, Value>, env: Env, load: Value, routeMinutes: Value, scheduled: Option<Instant>)
    : Option<Instant>
  {
    if Truthy(Field(data, "estimated_return_time")) then Some(NewDate(Field(data, "estimated_return_time"), env))
    else if scheduled.Some? then
      Some(DateFromTime(Add(TimeValue(scheduled.value), Mul(ToNumber(Plus(load, routeMinutes, env), env), Finite(60000.0)))))
    else None
  }

  /** The timing block of the modal. */
  function Timing(data: map<string, Value>, env: Env): RecapTiming
  {
    var load := RecapLoadMinutes(data, env);
    var scheduled := RecapScheduled(data, env);
    RecapTiming(load, RecapDeparture(data, env, load, scheduled),
                RecapReturn(data, env, load, RecapRouteMinutes(data, env), scheduled))
  }

  /** Adding two numbers is numeric addition. */
  lemma PlusOfNumbers(a: JsNumber, b: JsNumber, env: Env)
    ensures Plus(Num(a), Num(b), env) == Num(Add(a, b))
  {
  }

  /**
   * Without explicit load minutes, the load is the rate (5 when falsy) times the volume,
   * rounded up.
   */
  lemma LoadMinutesDerived(data: map<string, Value>, env: Env, rate: real, volume: real)
    requires !Truthy(Field(data, "load_minutes")) && !Truthy(Field(data, "loadMinutes"))
    requires ToNumber(RecapRate(data), env) == Finite(rate)
    requires RecapVolume(data, env) == Finite(volume)
    ensures Timing(data, env).loadMinutes == Num(Finite(Ceil(rate * volume) as real))
    ensures rate * volume <= Ceil(rate * volume) as real < rate * volume + 1.0
  {
    assert Timing(data, env).loadMinutes == RecapLoadMinutes(data, env);
    assert RecapLoadMinutes(data, env) == Num(DerivedLoad(Finite(rate), Finite(volume)));
    DerivedLoadOfFinite(rate, volume);
  }

  lemma DerivedLoadOfFinite(rate: real, volume: real)
    ensures DerivedLoad(Finite(rate), Finite(volume)) == Finite(Ceil(rate * volume) as real)
  {
    assert Mul(Finite(rate), Finite(volume)) == Finite(rate * volume);
  }

  /** A falsy rate falls back to 5 minutes per cubic metre. */
  lemma DefaultRate(data: map<string, Value>, env: Env)
    requires !Truthy(Field(data, "minutes_per_m3")) && !Truthy(Field(data, "minutesPerM3"))
    ensures ToNumber(RecapRate(data), env) == Finite(5.0)
  {
  }

  /** Explicit load minutes win over the derived value. */
  lemma LoadMinutesExplicit(data: map<string, Value>, env: Env)
    requires Truthy(Field(data, "load_minutes"))
    ensures Timing(data, env).loadMinutes == Field(data, "load_minutes")
  {
  }

  /** Without `load_minutes`, a truthy `loadMinutes` is shown as given, before any derived value. */
  lemma LoadMinutesCamelCase(data: map<string, Value>, env: Env)
    requires !Truthy(Field(data, "load_minutes")) && Truthy(Field(data, "loadMinutes"))
    ensures Timing(data, env).loadMinutes == Field(data, "loadMinutes")
  {
    assert Timing(data, env).loadMinutes == RecapLoadMinutes(data, env);
  }

  /**
   * With no explicit times and a valid schedule, departure is the schedule minus the load
   * and the estimated return the schedule plus load and route minutes, in milliseconds.
   */
  lemma TimingFromSchedule(data: map<string, Value>, env: Env, scheduled: int, load: real, routeMinutes: real)
    requires !Truthy(Field(data, "departure_time")) && !Truthy(Field(data, "estimated_return_time"))
    requires RecapScheduled(data, env) == Some(Valid(scheduled))
    requires RecapLoadMinutes(data, env) == Num(Finite(load))
    requires RecapRouteMinutes(data, env) == Num(Finite(routeMinutes))
    ensures Timing(data, env).departure == Some(DateFromTime(Finite(scheduled as real - load * 60000.0)))
    ensures Timing(data, env).estimatedReturn
         == Some(DateFromTime(Finite(scheduled as real + (load + routeMinutes) * 60000.0)))
  {
    var lv, rv, sch := RecapLoadMinutes(data, env), RecapRouteMinutes(data, env), RecapScheduled(data, env);
    assert Timing(data, env) == RecapTiming(lv, RecapDeparture(data, env, lv, sch), RecapReturn(data, env, lv, rv, sch));
    DepartureFromSchedule(data, env, scheduled, load);
    ReturnFromSchedule(data, env, scheduled, load, routeMinutes);
  }

  lemma DepartureFromSchedule(data: map<string, Value>, env: Env, scheduled: int, load: real)
    requires !Truthy(Field(data, "departure_time"))
    ensures RecapDeparture(data, env, Num(Finite(load)), Some(Valid(scheduled)))
         == Some(DateFromTime(Finite(scheduled as real - load * 60000.0)))
  {
    assert ToNumber(Num(Finite(load)), env) == Finite(load);
  }

  lemma ReturnFromSchedule(data: map<string, Value>, env: Env, scheduled: int, load: real, routeMinutes: real)
    requires !Truthy(Field(data, "estimated_return_time"))
    ensures RecapReturn(data, env, Num(Finite(load)), Num(Finite(routeMinutes)), Some(Valid(scheduled)))
         == Some(DateFromTime(Finite(scheduled as real + (load + routeMinutes) * 60000.0)))
  {
    PlusOfNumbers(Finite(load), Finite(routeMinutes), env);
    assert ToNumber(Num(Finite(load + routeMinutes)), env) == Finite(load + routeMinutes);
  }

  /** With no explicit times and no way to derive a schedule, both times are absent. */
  lemma TimingWithoutSchedule(data: map<string, Value>, env: Env)
    requires !Truthy(Field(data, "departure_time")) && !Truthy(Field(data, "estimated_return_time"))
    requires !Truthy(Field(data, "scheduled_at"))
    requires !Truthy(Field(data, "date")) || !Truthy(Field(data, "time"))
    ensures Timing(data, env).departure == None && Timing(data, env).estimatedReturn == None
  {
  }

  /**
   * The `adjustedDuration` the home page stores is text such as `"12.5 min"`. `Number()`
   * of it is NaN, so without `route_duration_min` the route adds no minutes.
   */
  lemma FormattedDurationIgnored(data: map<string, Value>, env: Env, i: nat)
    requires !Truthy(Field(data, "route_duration_min"))
    requires Field(data, "adjustedDuration").Str?
    requires i < |Field(data, "adjustedDuration").s| && Field(data, "adjustedDuration").s[i] == 'm'
    ensures RecapRouteMinutes(data, env) == Num(Finite(0.0))
  {
    assert !NumericLiteralChar(Field(data, "adjustedDuration").s[i]);
  }

  /** Departure precedes the schedule, which precedes the return, for a non-negative load and route. */
  lemma TimingOrdered(data: map<string, Value>, env: Env, scheduled: int, load: real, routeMinutes: real)
    requires !Truthy(Field(data, "departure_time")) && !Truthy(Field(data, "estimated_return_time"))
    requires RecapScheduled(data, env) == Some(Valid(scheduled))
    requires RecapLoadMinutes(data, env) == Num(Finite(load))
    requires RecapRouteMinutes(data, env) == Num(Finite(routeMinutes))
    requires load >= 0.0 && routeMinutes >= 0.0
    requires Timing(data, env).departure.value.Valid? && Timing(data, env).estimatedReturn.value.Valid?
    ensures Timing(data, env).departure.value.ms <= scheduled <= Timing(data, env).estimatedReturn.value.ms
  {
    TimingFromSchedule(data, env, scheduled, load, routeMinutes);
  }
}
