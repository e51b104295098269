/**
 * The Google Maps directions link built from an ordered list of coordinate pairs
 * (`getGoogleMapsDirectionsUrl`). Its partner is a reader of the link's query string:
 * the link carries the first pair as `origin`, the last as `destination`, the pairs in
 * between, in order, as an encoded `waypoints` list, and `travelmode=driving`.
 */
module RouteQRCode {
  import opened JsValues
  import opened UriComponent

  const DirectionsBase: string := "https://www.google.com/maps/dir/"
  const DirectionsPrefix: string := "https://www.google.com/maps/dir/?api=1&origin="
  const TravelModeSuffix: string := "&travelmode=driving"

  /** A message standing for the TypeError thrown when an entry has no `join` method. */
  const NotAPair: string := "TypeError: pair.join is not a function"

  /** `pair.join(',')` for an array entry. */
  function PairText(pair: Value, env: Env): string
    requires pair.Arr?
  {
    JoinElements(pair.items, env)
  }

  predicate AllPairs(items: seq<Value>)
  {
    forall i :: 0 <= i < |items| ==> items[i].Arr?
  }

  /** `pairs.map(pair => pair.join(','))`. */
  function PairTexts(pairs: seq<Value>, env: Env): (texts: seq<string>)
    requires AllPairs(pairs)
    ensures |texts| == |pairs|
    ensures forall i :: 0 <= i < |pairs| ==> texts[i] == PairText(pairs[i], env)
  {
    if pairs == [] then [] else [PairText(pairs[0], env)] + PairTexts(pairs[1..], env)
  }

  /** The interior entries, `coords.slice(1, -1)`. */
  function Interior(items: seq<Value>): seq<Value>
    requires |items| >= 2
  {
    items[1..|items| - 1]
  }

  /** The `|`-separated interior pairs, before encoding. */
  function WaypointsText(items: seq<Value>, env: Env): string
    requires |items| >= 2 && AllPairs(items)
  {
    JoinStrings(PairTexts(Interior(items), env), "|")
  }

  /** The link for at least two array entries. */
  function DirectionsUrl(items: seq<Value>, env: Env): (url: string)
    requires |items| >= 2 && AllPairs(items)
    ensures StartsWith(url, DirectionsPrefix + PairText(items[0], env) + "&destination=")
    ensures EndsWith(url, TravelModeSuffix)
  {
    var origin := PairText(items[0], env);
    var destination := PairText(items[|items| - 1], env);
    var waypoints := WaypointsText(items, env);
    var url := DirectionsPrefix + origin + "&destination=" + destination
      + (if waypoints != "" then "&waypoints=" + EncodeURIComponent(waypoints) else "")
      + TravelModeSuffix;
    assert url[..|DirectionsPrefix + origin + "&destination="|] == DirectionsPrefix + origin + "&destination=";
    url
  }

  /** `value < 2` where `value` is the `length` property that a non-array object carries. */
  predicate LengthBelowTwo(length: Value, env: Env)
  {
    var n := ToNumber(length, env);
    n.Finite? && n.r < 2.0
  }

  /**
   * `getGoogleMapsDirectionsUrl(coords)`. A string of two or more characters, an entry that
   * is not an array, or any other truthy non-array value with no `length` below 2 makes it
   * throw (`coords[0].join`, `pair.join` or `coords.slice` is not a function).
   */
  function GoogleMapsDirectionsUrl(coords: Value, env: Env): (r: Completion<string>)
    ensures !Truthy(coords) ==> r == Normal("")
    ensures coords.Arr? && |coords.items| < 2 ==> r == Normal("")
    ensures coords.Arr? && |coords.items| >= 2 ==> (r.Normal? <==> AllPairs(coords.items))
    ensures r.Normal? && r.value != "" ==> coords.Arr? && |coords.items| >= 2
    ensures coords.Str? ==> (r == Normal("") <==> Utf16Length(coords.s) < 2)
    ensures coords.Str? ==> (r.Throw? <==> Utf16Length(coords.s) >= 2)
    ensures r.Normal? && r.value != "" ==>
      StartsWith(r.value, DirectionsPrefix) && EndsWith(r.value, TravelModeSuffix)
    ensures coords.Arr? && |coords.items| >= 2 && r.Normal? ==>
      StartsWith(r.value, DirectionsPrefix + PairText(coords.items[0], env) + "&destination=")
    ensures coords.Arr? && |coords.items| >= 2 && AllPairs(coords.items) ==>
      r == Normal(DirectionsUrl(coords.items, env))
  {
    if !Truthy(coords) then Normal("")
    else match coords
      case Str(s) => if Utf16Length(s) < 2 then Normal("") else Throw(NotAPair)
      case Arr(items) =>
        if |items| < 2 then Normal("")
        else if !AllPairs(items) then Throw(NotAPair)
        else
          var url := DirectionsUrl(items, env);
          assert StartsWith(url, DirectionsPrefix) by {
            var p := DirectionsPrefix + PairText(items[0], env) + "&destination=";
            assert url[..|DirectionsPrefix|] == p[..|DirectionsPrefix|];
          }
          Normal(url)
      case Obj(_) => if LengthBelowTwo(Get(coords, "length"), env) then Normal("") else Throw(NotAPair)
      case _ => Throw(NotAPair)
  }

  /**
   * One character outside the Basic Multilingual Plane is two UTF-16 code units, so the
   * length test lets it through and the text is indexed as a list of pairs, which throws.
   */
  lemma AstralCharacterThrows(c: char, env: Env)
    requires c as int >= 0x10000
    ensures GoogleMapsDirectionsUrl(Str([c]), env) == Throw(NotAPair)
  {
    assert Utf16Length([c]) == 2 by {
      assert [c][1..] == [];
    }
  }

  // ---------------------------------------------------------------------------
  // Reading the link back

  /** `s.split(sep)`. */
  function SplitOn(s: string, sep: char): (parts: seq<string>)
    ensures |parts| >= 1
  {
    if s == [] then [""]
    else
      var rest := SplitOn(s[1..], sep);
      if s[0] == sep then [""] + rest else [[s[0]] + rest[0]] + rest[1..]
  }

  /** `s` split at the first `c`: what comes before and what comes after (empty if no `c`). */
  function SplitAtFirst(s: string, c: char): (string, string)
  {
    if s == [] then ("", "")
    else if s[0] == c then ("", s[1..])
    else
      var (before, after) := SplitAtFirst(s[1..], c);
      ([s[0]] + before, after)
  }

  /** The query string of a link, after its first `?`. */
  function Query(url: string): string
  {
    SplitAtFirst(url, '?').1
  }

  /** The `name=value` pairs of a query string, in order and still percent-encoded. */
  function QueryParams(query: string): (params: seq<(string, string)>)
  {
    NameValues(SplitOn(query, '&'))
  }

  /** Each piece split at its first `=`. */
  function NameValues(pieces: seq<string>): (params: seq<(string, string)>)
    ensures |params| == |pieces|
  {
    if pieces == [] then [] else [SplitAtFirst(pieces[0], '=')] + NameValues(pieces[1..])
  }

  /** The parameters the link is expected to carry. */
  function ExpectedParams(items: seq<Value>, env: Env): seq<(string, string)>
    requires |items| >= 2 && AllPairs(items)
  {
    LinkParams(PairText(items[0], env), PairText(items[|items| - 1], env), WaypointsText(items, env))
  }

  /** The parameters of a link from its origin, destination and unencoded waypoints text. */
  function LinkParams(origin: string, destination: string, waypoints: string): seq<(string, string)>
  {
    if waypoints != "" then
      [("api", "1"), ("origin", origin), ("destination", destination),
       ("waypoints", EncodeURIComponent(waypoints)), ("travelmode", "driving")]
    else
      [("api", "1"), ("origin", origin), ("destination", destination), ("travelmode", "driving")]
  }

  lemma {:induction false} SplitAtFirstOf(p: string, c: char, rest: string)
    requires c !in p
    ensures SplitAtFirst(p + [c] + rest, c) == (p, rest)
  {
    if p == [] {
      assert p + [c] + rest == [c] + rest;
    } else {
      assert p[0] in p;
      assert (p + [c] + rest)[0] == p[0];
      assert (p + [c] + rest)[1..] == p[1..] + [c] + rest;
      SplitAtFirstOf(p[1..], c, rest);
      assert [p[0]] + p[1..] == p;
    }
  }

  lemma {:induction false} SplitOnWithout(p: string, sep: char)
    requires sep !in p
    ensures SplitOn(p, sep) == [p]
  {
    if p != [] {
      assert p[0] in p;
      SplitOnWithout(p[1..], sep);
      assert [p[0]] + p[1..] == p;
    }
  }

  lemma {:induction false} SplitOnPrefix(p: string, sep: char, rest: string)
    requires sep !in p
    ensures SplitOn(p + [sep] + rest, sep) == [p] + SplitOn(rest, sep)
  {
    if p == [] {
      assert p + [sep] + rest == [sep] + rest;
    } else {
      assert (p + [sep] + rest)[1..] == p[1..] + [sep] + rest;
      SplitOnPrefix(p[1..], sep, rest);
      assert [p[0]] + p[1..] == p;
    }
  }

  /** Splitting on the separator undoes joining with it, when no part contains it. */
  lemma {:induction false} SplitJoin(parts: seq<string>, sep: char)
    requires |parts| >= 1
    requires forall i :: 0 <= i < |parts| ==> sep !in parts[i]
    ensures SplitOn(JoinStrings(parts, [sep]), sep) == parts
  {
    if |parts| == 1 {
      SplitOnWithout(parts[0], sep);
    } else {
      SplitJoin(parts[1..], sep);
      SplitOnPrefix(parts[0], sep, JoinStrings(parts[1..], [sep]));
      assert [parts[0]] + parts[1..] == parts;
    }
  }

  /** `name=value` pieces of a query string. */
  function Pieces(params: seq<(string, string)>): (pieces: seq<string>)
    ensures |pieces| == |params|
    ensures forall i :: 0 <= i < |params| ==> pieces[i] == params[i].0 + "=" + params[i].1
  {
    if params == [] then [] else [params[0].0 + "=" + params[0].1] + Pieces(params[1..])
  }

  /** Parameters whose names and values hold no `&` and whose names hold no `=`. */
  predicate PlainParams(params: seq<(string, string)>)
  {
    forall i :: 0 <= i < |params| ==> '&' !in params[i].0 && '&' !in params[i].1 && '=' !in params[i].0
  }

  lemma {:induction false} NameValuesOfPieces(params: seq<(string, string)>)
    requires PlainParams(params)
    ensures NameValues(Pieces(params)) == params
  {
    if params != [] {
      var (name, value) := params[0];
      assert name + "=" + value == name + ['='] + value;
      SplitAtFirstOf(name, '=', value);
      assert Pieces(params)[1..] == Pieces(params[1..]);
      NameValuesOfPieces(params[1..]);
      assert [params[0]] + params[1..] == params;
    }
  }

  /** Reading the query string back gives the parameters it was joined from. */
  lemma QueryParamsOfPieces(params: seq<(string, string)>)
    requires |params| >= 1 && PlainParams(params)
    ensures QueryParams(JoinStrings(Pieces(params), "&")) == params
  {
    var pieces := Pieces(params);
    forall i | 0 <= i < |pieces|
      ensures '&' !in pieces[i]
    {
      assert pieces[i] == params[i].0 + "=" + params[i].1;
    }
    SplitJoin(pieces, '&');
    NameValuesOfPieces(params);
  }

  /** The link text with waypoints is the base, `?`, and its five parameters joined with `&`. */
  lemma LinkWithWaypoints(origin: string, destination: string, waypoints: string)
    requires waypoints != ""
    ensures DirectionsPrefix + origin + "&destination=" + destination
            + ("&waypoints=" + EncodeURIComponent(waypoints)) + TravelModeSuffix
         == DirectionsBase + "?" + JoinStrings(Pieces(LinkParams(origin, destination, waypoints)), "&")
  {
    var e := EncodeURIComponent(waypoints);
    var ps := Pieces(LinkParams(origin, destination, waypoints));
    assert ps[0] == "api" + "=" + "1" == "api=1";
    assert ps[1] == "origin" + "=" + origin == "origin=" + origin;
    assert ps[2] == "destination" + "=" + destination == "destination=" + destination;
    assert ps[3] == "waypoints" + "=" + e == "waypoints=" + e;
    assert ps[4] == "travelmode" + "=" + "driving" == "travelmode=driving";
    assert ps == ["api=1", "origin=" + origin, "destination=" + destination, "waypoints=" + e, "travelmode=driving"];
    JoinedFive(origin, destination, e);
  }

  lemma JoinedFive(origin: string, destination: string, e: string)
    ensures DirectionsPrefix + origin + "&destination=" + destination + ("&waypoints=" + e) + TravelModeSuffix
         == DirectionsBase + "?"
            + JoinStrings(["api=1", "origin=" + origin, "destination=" + destination, "waypoints=" + e, "travelmode=driving"], "&")
  {
    var o, d, w := "origin=" + origin, "destination=" + destination, "waypoints=" + e;
    var flat := "api=1" + "&" + o + "&" + d + "&" + w + "&" + "travelmode=driving";
    assert JoinStrings(["api=1", o, d, w, "travelmode=driving"], "&") == flat by {
      JoinOfFive("api=1", o, d, w, "travelmode=driving", "&");
    }
    assert DirectionsPrefix + origin + "&destination=" + destination + ("&waypoints=" + e) + TravelModeSuffix
        == DirectionsBase + "?" + flat by {
      LinkPieces();
      RegroupWithWaypoints(DirectionsPrefix, "&destination=", "&waypoints=", TravelModeSuffix,
        DirectionsBase + "?", "api=1", "&", "origin=", "destination=", "waypoints=", "travelmode=driving",
        origin, destination, e);
    }
  }

  /** `Regroup` for a link with a waypoints parameter, its literal pieces given by name. */
  lemma RegroupWithWaypoints(prefix: string, dest: string, way: string, suffix: string,
                             bq: string, a: string, s: string, on: string, dn: string, wn: string, t: string,
                             origin: string, destination: string, e: string)
    requires prefix == bq + a + s + on && dest == s + dn && way == s + wn && suffix == s + t
    ensures prefix + origin + dest + destination + (way + e) + suffix
         == bq + (a + s + (on + origin) + s + (dn + destination) + s + (wn + e) + s + t)
  {
  }

  /** The link text without waypoints is the base, `?`, and its four parameters joined with `&`. */
  lemma LinkWithoutWaypoints(origin: string, destination: string)
    ensures DirectionsPrefix + origin + "&destination=" + destination + "" + TravelModeSuffix
         == DirectionsBase + "?" + JoinStrings(Pieces(LinkParams(origin, destination, "")), "&")
  {
    var ps := Pieces(LinkParams(origin, destination, ""));
    assert ps[0] == "api" + "=" + "1" == "api=1";
    assert ps[1] == "origin" + "=" + origin == "origin=" + origin;
    assert ps[2] == "destination" + "=" + destination == "destination=" + destination;
    assert ps[3] == "travelmode" + "=" + "driving" == "travelmode=driving";
    assert ps == ["api=1", "origin=" + origin, "destination=" + destination, "travelmode=driving"];
    JoinedFour(origin, destination);
  }

  lemma JoinedFour(origin: string, destination: string)
    ensures DirectionsPrefix + origin + "&destination=" + destination + "" + TravelModeSuffix
         == DirectionsBase + "?" + JoinStrings(["api=1", "origin=" + origin, "destination=" + destination, "travelmode=driving"], "&")
  {
    var o, d := "origin=" + origin, "destination=" + destination;
    assert JoinStrings(["api=1", o, d, "travelmode=driving"], "&")
        == "api=1" + "&" + o + "&" + d + "&" + "travelmode=driving" by {
      JoinOfFour("api=1", o, d, "travelmode=driving", "&");
    }
    LinkPieces();
    Regroup(DirectionsBase + "?", "api=1", "&", "origin=", origin, "destination=", destination,
            "", "travelmode=driving");
    assert "" + "" == "";
  }

  /** The fixed parts of the link, split at the parameter boundaries. */
  lemma LinkPieces()
    ensures DirectionsPrefix == DirectionsBase + "?" + "api=1" + "&" + "origin="
    ensures TravelModeSuffix == "&" + "travelmode=driving"
    ensures "&destination=" == "&" + "destination="
    ensures "&waypoints=" == "&" + "waypoints="
  {
  }

  lemma JoinOfFour(a: string, b: string, c: string, d: string, sep: string)
    ensures JoinStrings([a, b, c, d], sep) == a + sep + b + sep + c + sep + d
  {
    assert [a, b, c, d][1..] == [b, c, d] && [b, c, d][1..] == [c, d] && [c, d][1..] == [d];
    assert JoinStrings([c, d], sep) == c + sep + d;
    assert JoinStrings([b, c, d], sep) == b + sep + (c + sep + d);
  }

  lemma JoinOfFive(a: string, b: string, c: string, d: string, e: string, sep: string)
    ensures JoinStrings([a, b, c, d, e], sep) == a + sep + b + sep + c + sep + d + sep + e
  {
    assert [a, b, c, d, e][1..] == [b, c, d, e];
    JoinOfFour(b, c, d, e, sep);
  }

  /**
   * The link read two ways: as the prefix, origin, destination and suffix the link builder
   * concatenates, and as the base with its `&`-joined parameters (`w` empty or a waypoints
   * parameter).
   */
  lemma Regroup(bq: string, a: string, s: string, on: string, origin: string, dn: string, destination: string,
                w: string, t: string)
    ensures (bq + a + s + on) + origin + (s + dn) + destination + (if w == "" then "" else s + w) + (s + t)
         == bq + (a + s + (on + origin) + s + (dn + destination) + (if w == "" then "" else s + w) + s + t)
  {
  }

  /** The link is the base, `?`, and the expected parameters joined with `&`. */
  lemma DirectionsUrlShape(items: seq<Value>, env: Env)
    requires |items| >= 2 && AllPairs(items)
    ensures DirectionsUrl(items, env) == DirectionsBase + "?" + JoinStrings(Pieces(ExpectedParams(items, env)), "&")
  {
    var origin := PairText(items[0], env);
    var destination := PairText(items[|items| - 1], env);
    var waypoints := WaypointsText(items, env);
    if waypoints != "" {
      LinkWithWaypoints(origin, destination, waypoints);
    } else {
      LinkWithoutWaypoints(origin, destination);
    }
  }

  lemma QueryOfBase(q: string)
    ensures Query(DirectionsBase + "?" + q) == q
  {
    assert DirectionsBase + "?" + q == DirectionsBase + ['?'] + q;
    SplitAtFirstOf(DirectionsBase, '?', q);
  }

  /**
   * The link's query string carries, in this order: `api=1`, the first pair as `origin`,
   * the last pair as `destination`, the encoded waypoints when there are any, and
   * `travelmode=driving`. The pair texts must not contain `&` themselves.
   */
  lemma DirectionsUrlParams(items: seq<Value>, env: Env)
    requires |items| >= 2 && AllPairs(items)
    requires '&' !in PairText(items[0], env) && '&' !in PairText(items[|items| - 1], env)
    ensures Query(DirectionsUrl(items, env)) == JoinStrings(Pieces(ExpectedParams(items, env)), "&")
    ensures QueryParams(Query(DirectionsUrl(items, env))) == ExpectedParams(items, env)
  {
    DirectionsUrlShape(items, env);
    QueryOfBase(JoinStrings(Pieces(ExpectedParams(items, env)), "&"));
    ExpectedParamsPlain(items, env);
    QueryParamsOfPieces(ExpectedParams(items, env));
  }

  lemma ExpectedParamsPlain(items: seq<Value>, env: Env)
    requires |items| >= 2 && AllPairs(items)
    requires '&' !in PairText(items[0], env) && '&' !in PairText(items[|items| - 1], env)
    ensures PlainParams(ExpectedParams(items, env))
  {
    LinkParamsPlain(PairText(items[0], env), PairText(items[|items| - 1], env), WaypointsText(items, env));
  }

  /** No parameter name holds `&` or `=`, and no value holds `&`, when the end pairs hold no `&`. */
  lemma LinkParamsPlain(origin: string, destination: string, waypoints: string)
    requires '&' !in origin && '&' !in destination
    ensures PlainParams(LinkParams(origin, destination, waypoints))
  {
    var common := [("api", "1"), ("origin", origin), ("destination", destination)];
    var last := [("travelmode", "driving")];
    assert PlainParams(common) by {
      assert '&' !in "api" && '&' !in "1" && '=' !in "api";
      assert '&' !in "origin" && '=' !in "origin";
      assert '&' !in "destination" && '=' !in "destination";
    }
    assert PlainParams(last) by {
      assert '&' !in "travelmode" && '&' !in "driving" && '=' !in "travelmode";
    }
    if waypoints != "" {
      var e := EncodeURIComponent(waypoints);
      var middle := [("waypoints", e)];
      assert PlainParams(middle) by {
        assert forall i :: 0 <= i < |e| ==> e[i] != '&';
        assert '&' !in "waypoints" && '=' !in "waypoints";
      }
      PlainParamsConcat(common, middle);
      PlainParamsConcat(common + middle, last);
      assert LinkParams(origin, destination, waypoints) == common + middle + last;
    } else {
      PlainParamsConcat(common, last);
      assert LinkParams(origin, destination, waypoints) == common + last;
    }
  }

  lemma PlainParamsConcat(a: seq<(string, string)>, b: seq<(string, string)>)
    requires PlainParams(a) && PlainParams(b)
    ensures PlainParams(a + b)
  {
    forall i | 0 <= i < |a + b|
      ensures '&' !in (a + b)[i].0 && '&' !in (a + b)[i].1 && '=' !in (a + b)[i].0
    {
      if i < |a| {
        assert (a + b)[i] == a[i];
      } else {
        assert (a + b)[i] == b[i - |a|];
      }
    }
  }

  /**
   * The `waypoints` parameter, once decoded and split on `|`, gives back the interior
   * pairs in their original order, when those texts contain no `|` themselves.
   */
  lemma WaypointsRoundTrip(items: seq<Value>, env: Env)
    requires |items| >= 3 && AllPairs(items)
    requires forall i :: 1 <= i < |items| - 1 ==> '|' !in PairText(items[i], env)
    requires WaypointsText(items, env) != ""
    ensures DecodeURIComponent(EncodeURIComponent(WaypointsText(items, env))).Some?
    ensures SplitOn(DecodeURIComponent(EncodeURIComponent(WaypointsText(items, env))).value, '|')
         == PairTexts(Interior(items), env)
  {
    var texts := PairTexts(Interior(items), env);
    DecodeEncode(WaypointsText(items, env));
    forall i | 0 <= i < |texts|
      ensures '|' !in texts[i]
    {
      assert texts[i] == PairText(items[i + 1], env);
    }
    SplitJoin(texts, '|');
  }

  /** `&waypoints=` is present exactly when there is an interior pair with a non-empty text. */
  lemma WaypointsPresence(items: seq<Value>, env: Env)
    requires |items| >= 2 && AllPairs(items)
    ensures WaypointsText(items, env) != "" <==>
      |items| >= 4 || (|items| == 3 && PairText(items[1], env) != "")
  {
    var texts := PairTexts(Interior(items), env);
    if |items| >= 4 {
      assert |texts| >= 2;
      assert |JoinStrings(texts, "|")| >= 1;
    }
  }

  /** With exactly two entries the link has no waypoints. */
  lemma TwoEntryUrl(items: seq<Value>, env: Env)
    requires |items| == 2 && AllPairs(items)
    ensures DirectionsUrl(items, env)
         == DirectionsPrefix + PairText(items[0], env) + "&destination=" + PairText(items[1], env) + TravelModeSuffix
  {
    assert PairTexts(Interior(items), env) == [];
  }
}
