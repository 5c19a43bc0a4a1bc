/** The browser-side music helpers: the three requests to the proxy's music routes, which
    build their query parameters by appending to a `URLSearchParams` and either return the
    payload or throw, and the `M:SS` duration format. A request's outcome is an oracle
    value: the fetch (or `response.json()`) rejected, or the parsed body. */
module AudiusClient {
  import opened Wrappers
  import opened Js
  import opened Json

  const ApiUrl: string := "http://localhost:3001"

  /** One query parameter, name and value. */
  type Param = (string, string)

  datatype Request = Request(url: string, params: seq<Param>)

  datatype Fetched = Rejected(message: string) | Body(data: Json)

  /** The destructured `options`; a field the caller left out is `Undefined`. */
  datatype TrackOptions = TrackOptions(genre: Json, mood: Json, time: Json, limit: Json)

  const DefaultLimit: int := 10
  const DefaultTime: string := "week"
  const TrendingFailed: string := "Failed to fetch trending tracks"
  const SearchFailed: string := "Failed to search tracks"
  const TrackFailed: string := "Failed to fetch track"

  /** The parameter names in order. */
  function Names(ps: seq<Param>): (r: seq<string>)
    ensures |r| == |ps| && forall k :: 0 <= k < |ps| ==> r[k] == ps[k].0
  {
    seq(|ps|, k requires 0 <= k < |ps| => ps[k].0)
  }

  /** `params.get(name)`: the value of the first parameter with that name. */
  function Get(ps: seq<Param>, name: string): (r: Option<string>)
    ensures r.None? <==> name !in Names(ps)
  {
    if ps == [] then None
    else if ps[0].0 == name then Some(ps[0].1)
    else
      assert Names(ps[1..]) == Names(ps)[1..];
      Get(ps[1..], name)
  }

  lemma GetAppend(ps: seq<Param>, p: Param, name: string)
    ensures Get(ps + [p], name) == if Get(ps, name).Some? then Get(ps, name) else if p.0 == name then Some(p.1) else None
  {
    if ps != [] {
      assert (ps + [p])[1..] == ps[1..] + [p];
      GetAppend(ps[1..], p, name);
    } else {
      assert Names([p]) == [p.0];
    }
  }

  /** `limit.toString()` after the default 10 applies to an `undefined` limit; `null` has no
      `toString` and throws. */
  function LimitString(limit: Json): Result<string, string> {
    if limit.Undefined? then Ok(IntToDecimal(DefaultLimit))
    else if limit.Null? then Err(ReadError(limit, "toString"))
    else Ok(Display(limit))
  }

  /** `params.append(name, value)` when `value` is truthy. */
  method AppendIfTruthy(ps: seq<Param>, name: string, value: Json) returns (ps': seq<Param>)
    ensures Names(ps') == Names(ps) + (if Truthy(value) then [name] else [])
    ensures forall n :: n != name ==> Get(ps', n) == Get(ps, n)
    ensures name !in Names(ps) ==> Get(ps', name) == if Truthy(value) then Some(Display(value)) else None
  {
    ps' := ps;
    if Truthy(value) {
      ps' := ps' + [(name, Display(value))];
      forall n { GetAppend(ps, (name, Display(value)), n); }
      assert Names(ps') == Names(ps) + [name];
    }
  }

  /** `new URLSearchParams({ limit: limit.toString(), time })` followed by the optional
      `genre`: `limit` and `time` are always sent (defaults 10 and "week"), `genre` only when
      truthy; a `null` limit throws before anything is sent. */
  method TrendingParams(options: TrackOptions) returns (r: Result<seq<Param>, string>)
    ensures r.Err? <==> options.limit.Null?
    ensures r.Err? ==> r.error == ReadError(Null, "toString")
    ensures r.Ok? ==>
      && Names(r.value) == ["limit", "time"] + (if Truthy(options.genre) then ["genre"] else [])
      && Get(r.value, "limit") == Some(LimitString(options.limit).value)
      && Get(r.value, "time") == Some(if options.time.Undefined? then DefaultTime else Display(options.time))
      && Get(r.value, "genre") == if Truthy(options.genre) then Some(Display(options.genre)) else None
  {
    var limit := LimitString(options.limit);
    if limit.Err? {
      return Err(limit.error);
    }
    var time := if options.time.Undefined? then DefaultTime else Display(options.time);
    var ps0: seq<Param> := [("limit", limit.value), ("time", time)];
    assert Names(ps0) == ["limit", "time"];
    assert Get(ps0, "limit") == Some(limit.value);
    assert Get(ps0, "time") == Some(time);
    var ps := AppendIfTruthy(ps0, "genre", options.genre);
    return Ok(ps);
  }

  /** `new URLSearchParams({ q: query, limit: limit.toString() })` followed by the optional
      `genre` and `mood`, each appended only when truthy. */
  method SearchParams(query: Json, options: TrackOptions) returns (r: Result<seq<Param>, string>)
    ensures r.Err? <==> options.limit.Null?
    ensures r.Err? ==> r.error == ReadError(Null, "toString")
    ensures r.Ok? ==>
      && Names(r.value) == ["q", "limit"] + (if Truthy(options.genre) then ["genre"] else [])
                                          + (if Truthy(options.mood) then ["mood"] else [])
      && Get(r.value, "q") == Some(Display(query))
      && Get(r.value, "limit") == Some(LimitString(options.limit).value)
      && Get(r.value, "genre") == (if Truthy(options.genre) then Some(Display(options.genre)) else None)
      && Get(r.value, "mood") == if Truthy(options.mood) then Some(Display(options.mood)) else None
  {
    var limit := LimitString(options.limit);
    if limit.Err? {
      return Err(limit.error);
    }
    var ps0: seq<Param> := [("q", Display(query)), ("limit", limit.value)];
    assert Names(ps0) == ["q", "limit"];
    assert Get(ps0, "q") == Some(Display(query));
    assert Get(ps0, "limit") == Some(limit.value);
    var ps1 := AppendIfTruthy(ps0, "genre", options.genre);
    var ps := AppendIfTruthy(ps1, "mood", options.mood);
    return Ok(ps);
  }

  /** `if (data.success) return data[key]; throw new Error(data.error || fallback)`; a
      rejected request passes its error through, and a nullish body throws on `.success`. */
  function Unwrap(outcome: Fetched, key: string, fallback: string): (r: Result<Json, string>)
    ensures outcome.Body? && Truthy(Field(outcome.data, "success")) ==> r == Ok(Field(outcome.data, key))
    ensures outcome.Body? && !IsNullish(outcome.data) && !Truthy(Field(outcome.data, "success")) ==>
      r == Err(if Truthy(Field(outcome.data, "error")) then Display(Field(outcome.data, "error")) else fallback)
    ensures outcome.Rejected? ==> r == Err(outcome.message)
    ensures outcome.Body? && IsNullish(outcome.data) ==> r == Err(ReadError(outcome.data, "success"))
    ensures r.Ok? ==> outcome.Body? && Truthy(Field(outcome.data, "success"))
  {
    match outcome
    case Rejected(m) => Err(m)
    case Body(data) =>
      match Member(data, "success")
      case None => Err(ReadError(data, "success"))
      case Some(success) =>
        if Truthy(success) then Ok(Field(data, key))
        else Err(Display(Or(Field(data, "error"), Str(fallback))))
  }

  /** `getTrendingTracks`: sends the trending parameters and unwraps `tracks`. */
  method GetTrendingTracks(options: TrackOptions, fetch: Request -> Fetched)
    returns (r: Result<Json, string>, sent: Option<Request>)
    ensures sent.None? <==> options.limit.Null?
    ensures sent.None? ==> r == Err(ReadError(Null, "toString"))
    ensures sent.Some? ==>
      && sent.value.url == ApiUrl + "/api/audius/trending"
      && Names(sent.value.params) == ["limit", "time"] + (if Truthy(options.genre) then ["genre"] else [])
      && Get(sent.value.params, "limit") == Some(LimitString(options.limit).value)
      && Get(sent.value.params, "time") == Some(if options.time.Undefined? then DefaultTime else Display(options.time))
      && Get(sent.value.params, "genre") == (if Truthy(options.genre) then Some(Display(options.genre)) else None)
      && r == Unwrap(fetch(sent.value), "tracks", TrendingFailed)
  {
    var ps := TrendingParams(options);
    if ps.Err? {
      return Err(ps.error), None;
    }
    var req := Request(ApiUrl + "/api/audius/trending", ps.value);
    return Unwrap(fetch(req), "tracks", TrendingFailed), Some(req);
  }

  /** `searchTracks`: sends the search parameters and unwraps `tracks`. */
  method SearchTracks(query: Json, options: TrackOptions, fetch: Request -> Fetched)
    returns (r: Result<Json, string>, sent: Option<Request>)
    ensures sent.None? <==> options.limit.Null?
    ensures sent.None? ==> r == Err(ReadError(Null, "toString"))
    ensures sent.Some? ==>
      && sent.value.url == ApiUrl + "/api/audius/search"
      && Names(sent.value.params) == ["q", "limit"] + (if Truthy(options.genre) then ["genre"] else [])
                                                  + (if Truthy(options.mood) then ["mood"] else [])
      && Get(sent.value.params, "q") == Some(Display(query))
      && Get(sent.value.params, "limit") == Some(LimitString(options.limit).value)
      && Get(sent.value.params, "genre") == (if Truthy(options.genre) then Some(Display(options.genre)) else None)
      && Get(sent.value.params, "mood") == (if Truthy(options.mood) then Some(Display(options.mood)) else None)
      && r == Unwrap(fetch(sent.value), "tracks", SearchFailed)
  {
    var ps := SearchParams(query, options);
    if ps.Err? {
      return Err(ps.error), None;
    }
    var req := Request(ApiUrl + "/api/audius/search", ps.value);
    return Unwrap(fetch(req), "tracks", SearchFailed), Some(req);
  }

  /** `getTrack`: the id goes into the path, no parameters are sent, and `track` is
      unwrapped: a successful body gives its track, any other body its error or the default
      message, and a rejected request its own error. */
  function GetTrack(trackId: Json, fetch: Request -> Fetched): (r: Result<Json, string>)
    ensures var outcome := fetch(Request(ApiUrl + "/api/audius/track/" + Display(trackId), []));
      && (outcome.Rejected? ==> r == Err(outcome.message))
      && (outcome.Body? && Truthy(Field(outcome.data, "success")) ==> r == Ok(Field(outcome.data, "track")))
      && (outcome.Body? && !IsNullish(outcome.data) && !Truthy(Field(outcome.data, "success")) ==>
            r == Err(if Truthy(Field(outcome.data, "error")) then Display(Field(outcome.data, "error")) else TrackFailed))
      && (outcome.Body? && IsNullish(outcome.data) ==> r == Err(ReadError(outcome.data, "success")))
  {
    Unwrap(fetch(Request(ApiUrl + "/api/audius/track/" + Display(trackId), [])), "track", TrackFailed)
  }

  /** JavaScript's `%`, whose remainder takes the sign of the dividend. */
  function TruncRem(n: int, d: nat): int
    requires d > 0
  {
    if n < 0 then -((-n) % d) else n % d
  }

  /** `formatDuration` on a whole number of seconds (`None` is `undefined` or `null`): a
      falsy input is "0:00"; otherwise `Math.floor(s / 60)`, a colon, and the remainder
      padded to two characters with '0'. */
  function FormatDuration(seconds: Option<int>): (r: string)
    ensures seconds.None? || seconds.value == 0 ==> r == "0:00"
  {
    match seconds
    case None => "0:00"
    case Some(s) =>
      if s == 0 then "0:00"
      else
        var mins := s / 60;
        var secs := TruncRem(s, 60);
        IntToDecimal(mins) + ":" + PadStart(IntToDecimal(secs), 2, '0')
  }

  /** Two decimal digits for a number below 60. */
  lemma TwoDigits(d: nat)
    requires d < 60
    ensures var p := PadStart(NatToDecimal(d), 2, '0');
      |p| == 2 && AllDigits(p) && DecimalValue(p) == d
  {
    var p := PadStart(NatToDecimal(d), 2, '0');
    if d < 10 {
      assert NatToDecimal(d) == [DigitChar(d)];
      assert p == ['0', DigitChar(d)];
      assert p[..1] == ['0'];
      assert DecimalValue(['0']) == 0 by { assert ['0'][..0] == []; }
      assert p[..|p| - 1] == ['0'];
    } else {
      assert NatToDecimal(d) == NatToDecimal(d / 10) + [DigitChar(d % 10)];
      DecimalRoundTrip(d);
    }
  }

  lemma BeforeFirstOfJoin(m: string, c: char, rest: string)
    requires c !in m
    ensures BeforeFirst(m + [c] + rest, c) == m
  {
    if m != [] {
      assert (m + [c] + rest)[1..] == m[1..] + [c] + rest;
      BeforeFirstOfJoin(m[1..], c, rest);
    }
  }

  /** The output for a non-negative number of seconds, zero included. */
  lemma FormatNatural(s: nat)
    ensures FormatDuration(Some(s)) == NatToDecimal(s / 60) + ":" + PadStart(NatToDecimal(s % 60), 2, '0')
  {
    if s == 0 {
      assert NatToDecimal(0) == "0";
      assert PadStart("0", 2, '0') == "00";
    }
  }

  /** For a non-negative whole number of seconds the output is the minutes, a colon and
      exactly two digits of seconds, and reading it back gives the number of seconds. */
  lemma DurationRoundTrip(s: nat)
    ensures var r := FormatDuration(Some(s));
      var m := BeforeFirst(r, ':');
      && |m| < |r| && r[|m|] == ':'
      && AllDigits(m) && m == NatToDecimal(s / 60)
      && var ss := r[|m| + 1..];
      && |ss| == 2 && AllDigits(ss)
      && DecimalValue(m) * 60 + DecimalValue(ss) == s
  {
    var m := NatToDecimal(s / 60);
    var ss := PadStart(NatToDecimal(s % 60), 2, '0');
    TwoDigits(s % 60);
    DecimalRoundTrip(s / 60);
    FormatNatural(s);
    var r := m + [':'] + ss;
    assert FormatDuration(Some(s)) == r;
    assert ':' !in m by {
      forall k | 0 <= k < |m| ensures m[k] != ':' { assert IsDigit(m[k]); }
    }
    BeforeFirstOfJoin(m, ':', ss);
    assert r[|m| + 1..] == ss;
  }

  /** Negative input is not clamped: the floored minutes and the truncated remainder make
      -61 seconds "-2:-1". */
  lemma NegativeDuration()
    ensures FormatDuration(Some(-61)) == "-2:-1"
  {
    assert -61 / 60 == -2;
    assert TruncRem(-61, 60) == -1;
    assert NatToDecimal(2) == ['2'];
    assert NatToDecimal(1) == ['1'];
    assert IntToDecimal(-2) == "-2";
    assert IntToDecimal(-1) == "-1";
    assert PadStart("-1", 2, '0') == "-1";
    assert FormatDuration(Some(-61)) == "-2" + ":" + "-1";
  }
}
