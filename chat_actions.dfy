/** The action markers in the model's final text (mockup-app/server/index.js): the text is the
    reply's text blocks joined with newlines, the directives are what
    `/\[ACTION:(\w+):([^\]:]+):?(\d+)?\]/g` finds in it, and the displayed message is the text
    with every match of `/\[ACTION:[^\]]+\]/g` removed, then trimmed. */
module ChatActions {
  import opened Wrappers
  import opened Js

  const MarkerOpen: string := "[ACTION:"

  /** `\w` without the `u` flag. */
  predicate IsWordChar(c: char) {
    'a' <= c <= 'z' || 'A' <= c <= 'Z' || '0' <= c <= '9' || c == '_'
  }

  /** `[^\]:]` */
  predicate IsParamChar(c: char) {
    c != ']' && c != ':'
  }

  /** `[^\]]` */
  predicate IsNotClose(c: char) {
    c != ']'
  }

  predicate All(s: string, p: char -> bool) {
    forall k :: 0 <= k < |s| ==> p(s[k])
  }

  predicate OpensAt(s: string, p: nat) {
    p + |MarkerOpen| <= |s| && s[p..p + |MarkerOpen|] == MarkerOpen
  }

  /** The end of the longest run of characters satisfying `p` that starts at `i`: where a
      greedy character-class repetition stops. */
  function SpanEnd(s: string, i: nat, p: char -> bool): (j: nat)
    requires i <= |s|
    ensures i <= j <= |s|
    ensures forall k :: i <= k < j ==> p(s[k])
    ensures j < |s| ==> !p(s[j])
    decreases |s| - i
  {
    if i < |s| && p(s[i]) then SpanEnd(s, i + 1, p) else i
  }

  /** A run that satisfies `p` up to `j`, and stops there, ends at `j`. */
  lemma {:induction false} SpanEndIs(s: string, i: nat, j: nat, p: char -> bool)
    requires i <= j <= |s|
    requires forall k :: i <= k < j ==> p(s[k])
    requires j < |s| ==> !p(s[j])
    ensures SpanEnd(s, i, p) == j
    decreases j - i
  {
    if i < j {
      SpanEndIs(s, i + 1, j, p);
    }
  }

  /** `{type, param1, param2}`; `param2` is `parseInt` of the digit group, or `null`. */
  datatype Action = Action(kind: string, param1: string, param2: Option<nat>)

  /** What the grammar promises of a directive: a non-empty word-character type, and a
      non-empty first parameter without `:` or `]`. */
  predicate WellFormed(a: Action) {
    a.kind != [] && All(a.kind, IsWordChar) && a.param1 != [] && All(a.param1, IsParamChar)
  }

  /** A match and the index just after it. */
  datatype Found = Found(action: Action, end: nat)

  /** What follows the first parameter, which stopped at `q` on a `:` or a `]`: either that
      `]`, or `:`, a possibly empty digit run and `]`. Gives `param2` and the end of the match. */
  function TailAt(s: string, q: nat): (r: Option<(Option<nat>, nat)>)
    requires q < |s| && (s[q] == ':' || s[q] == ']')
    ensures r.Some? ==> q < r.value.1 <= |s|
  {
    if s[q] == ']' then Some((None, q + 1))
    else
      var d1 := SpanEnd(s, q + 1, IsDigit);
      if d1 < |s| && s[d1] == ']' then
        Some((if d1 > q + 1 then Some(DecimalValue(s[q + 1..d1])) else None, d1 + 1))
      else None
  }

  /** The match of the action regex that starts exactly at `p`, if any. Backtracking cannot
      help: the type must be the whole word run (the next character must be `:`), and the
      first parameter must be the whole `[^\]:]` run (any shorter choice is followed by a
      character that is neither `:`, a digit run reaching `]`, nor `]`). */
  function ActionAt(s: string, p: nat): (r: Option<Found>)
    ensures r.Some? ==> p < r.value.end <= |s| && WellFormed(r.value.action)
  {
    if !OpensAt(s, p) then None
    else
      var t0 := p + |MarkerOpen|;
      var t1 := SpanEnd(s, t0, IsWordChar);
      if t1 == t0 || t1 == |s| || s[t1] != ':' then None
      else
        var q1 := SpanEnd(s, t1 + 1, IsParamChar);
        if q1 == t1 + 1 || q1 == |s| then None
        else
          match TailAt(s, q1)
          case None => None
          case Some(t) => Some(Found(Action(s[t0..t1], s[t1 + 1..q1], t.0), t.1))
  }

  // ---------------------------------------------------------------------------------------
  // The regex as a grammar, the reference ActionAt is checked against

  /** The text `[ACTION:<kind>:<param1><tail>]`. */
  function MarkerText(kind: string, param1: string, tail: string): string {
    MarkerOpen + kind + ":" + param1 + tail + "]"
  }

  /** `:?(\d+)?` in a successful match: nothing, or a colon followed by digits. (A digit run
      without the colon cannot occur: it would belong to the first parameter.) */
  predicate IsTail(tail: string) {
    tail == [] || (tail[0] == ':' && AllDigits(tail[1..]))
  }

  predicate Fits(kind: string, param1: string, tail: string) {
    kind != [] && All(kind, IsWordChar) && param1 != [] && All(param1, IsParamChar) && IsTail(tail)
  }

  function Param2Of(tail: string): Option<nat>
    requires IsTail(tail)
  {
    if |tail| > 1 then Some(DecimalValue(tail[1..])) else None
  }

  /** Where the parts of a marker's text sit. */
  lemma MarkerPieces(kind: string, param1: string, tail: string)
    ensures var m := MarkerText(kind, param1, tail);
      var a := |MarkerOpen|; var b := a + |kind|; var c := b + 1 + |param1|;
      |m| == c + |tail| + 1 && m[..a] == MarkerOpen && m[a..b] == kind && m[b] == ':'
        && m[b + 1..c] == param1 && m[c..c + |tail|] == tail && m[c + |tail|] == ']'
  {
    var m := MarkerText(kind, param1, tail);
    var x := MarkerOpen + kind + ":" + param1 + tail;
    assert m == x + "]";
    var y := MarkerOpen + kind + ":" + param1;
    assert x == y + tail;
    var z := MarkerOpen + kind + ":";
    assert y == z + param1;
    assert z == MarkerOpen + kind + ":";
  }

  /** Reading a window of `s` that holds `m`. */
  lemma Window(s: string, p: nat, m: string, a: nat, b: nat)
    requires p + |m| <= |s| && s[p..p + |m|] == m
    requires a <= b <= |m|
    ensures s[p + a..p + b] == m[a..b]
  {
    forall k | 0 <= k < b - a ensures s[p + a..p + b][k] == m[a..b][k] {
      assert s[p + a + k] == s[p..p + |m|][a + k];
    }
  }

  /** The pieces of a marker, side by side, make up its text. */
  lemma Assemble(s: string, p: nat, t1: nat, q1: nat, e: nat)
    requires p + |MarkerOpen| <= t1 < q1 < e <= |s|
    requires OpensAt(s, p) && s[t1] == ':' && s[e - 1] == ']'
    ensures s[p..e] == MarkerText(s[p + |MarkerOpen|..t1], s[t1 + 1..q1], s[q1..e - 1])
  {
    var t0 := p + |MarkerOpen|;
    assert s[p..e] == s[p..t0] + s[t0..t1] + s[t1..t1 + 1] + s[t1 + 1..q1] + s[q1..e - 1] + s[e - 1..e];
    assert s[t1..t1 + 1] == ":" && s[e - 1..e] == "]";
  }

  /** Soundness of the tail: it is nothing or a colon and digits, and gives `param2`. */
  lemma TailAtSound(s: string, q: nat)
    requires q < |s| && (s[q] == ':' || s[q] == ']') && TailAt(s, q).Some?
    ensures var e := TailAt(s, q).value.1;
      s[e - 1] == ']' && IsTail(s[q..e - 1]) && TailAt(s, q).value.0 == Param2Of(s[q..e - 1])
  {
    var e := TailAt(s, q).value.1;
    if s[q] != ']' {
      var d1 := SpanEnd(s, q + 1, IsDigit);
      assert s[q..e - 1][1..] == s[q + 1..d1];
    }
  }

  /** Soundness: a match found by ActionAt is the text of a marker of the grammar, and the
      directive is read off that text. */
  lemma ActionAtSound(s: string, p: nat)
    requires ActionAt(s, p).Some?
    ensures var f := ActionAt(s, p).value;
      exists tail :: Fits(f.action.kind, f.action.param1, tail)
        && s[p..f.end] == MarkerText(f.action.kind, f.action.param1, tail)
        && f.action.param2 == Param2Of(tail)
  {
    var f := ActionAt(s, p).value;
    var t0 := p + |MarkerOpen|;
    var t1 := SpanEnd(s, t0, IsWordChar);
    var q1 := SpanEnd(s, t1 + 1, IsParamChar);
    TailAtSound(s, q1);
    var tail := s[q1..f.end - 1];
    Assemble(s, p, t1, q1, f.end);
    assert Fits(f.action.kind, f.action.param1, tail);
  }

  /** Completeness of the tail: a grammar tail closed by `]` is read whole. */
  lemma TailAtComplete(s: string, q: nat, tail: string)
    requires IsTail(tail) && q + |tail| < |s| && s[q..q + |tail|] == tail && s[q + |tail|] == ']'
    ensures TailAt(s, q) == Some((Param2Of(tail), q + |tail| + 1))
  {
    if tail != [] {
      assert s[q] == tail[0];
      var d0, d1 := q + 1, q + |tail|;
      assert s[d0..d1] == tail[1..];
      forall k | d0 <= k < d1 ensures IsDigit(s[k]) {
        assert s[k] == s[d0..d1][k - d0];
      }
      SpanEndIs(s, d0, d1, IsDigit);
    }
  }

  /** The slices of `s` that hold a grammar marker's parts. */
  lemma MarkerWindows(s: string, p: nat, kind: string, param1: string, tail: string)
    requires p + |MarkerText(kind, param1, tail)| <= |s|
    requires s[p..p + |MarkerText(kind, param1, tail)|] == MarkerText(kind, param1, tail)
    ensures var t0 := p + |MarkerOpen|; var t1 := t0 + |kind|; var q1 := t1 + 1 + |param1|;
      q1 + |tail| < |s| && p + |MarkerText(kind, param1, tail)| == q1 + |tail| + 1
        && s[p..t0] == MarkerOpen && s[t0..t1] == kind && s[t1..t1 + 1] == ":"
        && s[t1 + 1..q1] == param1 && s[q1..q1 + |tail|] == tail && s[q1 + |tail|..q1 + |tail| + 1] == "]"
  {
    MarkerPieces(kind, param1, tail);
    PiecesWindows(s, p, MarkerText(kind, param1, tail), kind, param1, tail);
  }

  /** MarkerWindows for any text `m` laid out as the pieces of a marker. */
  lemma PiecesWindows(s: string, p: nat, m: string, kind: string, param1: string, tail: string)
    requires p + |m| <= |s| && s[p..p + |m|] == m
    requires var a := |MarkerOpen|; var b := a + |kind|; var c := b + 1 + |param1|;
      |m| == c + |tail| + 1 && m[..a] == MarkerOpen && m[a..b] == kind && m[b] == ':'
        && m[b + 1..c] == param1 && m[c..c + |tail|] == tail && m[c + |tail|] == ']'
    ensures var t0 := p + |MarkerOpen|; var t1 := t0 + |kind|; var q1 := t1 + 1 + |param1|;
      q1 + |tail| < |s| && p + |m| == q1 + |tail| + 1
        && s[p..t0] == MarkerOpen && s[t0..t1] == kind && s[t1..t1 + 1] == ":"
        && s[t1 + 1..q1] == param1 && s[q1..q1 + |tail|] == tail && s[q1 + |tail|..q1 + |tail| + 1] == "]"
  {
    var a := |MarkerOpen|;
    var b := a + |kind|;
    var c := b + 1 + |param1|;
    Window(s, p, m, 0, a);
    assert m[0..a] == m[..a];
    Window(s, p, m, a, b);
    Window(s, p, m, b, b + 1);
    assert m[b..b + 1] == ":";
    Window(s, p, m, b + 1, c);
    Window(s, p, m, c, c + |tail|);
    Window(s, p, m, c + |tail|, |m|);
    assert m[c + |tail|..|m|] == "]";
  }

  /** Where the greedy runs stop on a text laid out as a grammar marker. */
  lemma MarkerRuns(s: string, p: nat, t1: nat, q1: nat, e: nat)
    requires p + |MarkerOpen| < t1 < q1 - 1 && q1 < e <= |s|
    requires All(s[p + |MarkerOpen|..t1], IsWordChar) && s[t1] == ':'
    requires All(s[t1 + 1..q1], IsParamChar) && (s[q1] == ':' || s[q1] == ']')
    ensures SpanEnd(s, p + |MarkerOpen|, IsWordChar) == t1 && SpanEnd(s, t1 + 1, IsParamChar) == q1
  {
    var t0 := p + |MarkerOpen|;
    forall k | t0 <= k < t1 ensures IsWordChar(s[k]) {
      assert s[k] == s[t0..t1][k - t0];
    }
    SpanEndIs(s, t0, t1, IsWordChar);
    forall k | t1 + 1 <= k < q1 ensures IsParamChar(s[k]) {
      assert s[k] == s[t1 + 1..q1][k - t1 - 1];
    }
    SpanEndIs(s, t1 + 1, q1, IsParamChar);
  }

  /** ActionAt read off the runs it stops at. */
  lemma ActionAtOfRuns(s: string, p: nat, t1: nat, q1: nat)
    requires OpensAt(s, p) && p + |MarkerOpen| < t1 && t1 + 1 < q1 < |s|
    requires SpanEnd(s, p + |MarkerOpen|, IsWordChar) == t1 && s[t1] == ':'
    requires SpanEnd(s, t1 + 1, IsParamChar) == q1
    requires s[q1] == ':' || s[q1] == ']'
    requires TailAt(s, q1).Some?
    ensures ActionAt(s, p) ==
      Some(Found(Action(s[p + |MarkerOpen|..t1], s[t1 + 1..q1], TailAt(s, q1).value.0), TailAt(s, q1).value.1))
  {
  }

  /** Completeness: wherever the text of a grammar marker starts, ActionAt finds exactly it. */
  lemma ActionAtComplete(s: string, p: nat, kind: string, param1: string, tail: string)
    requires Fits(kind, param1, tail)
    requires p + |MarkerText(kind, param1, tail)| <= |s|
    requires s[p..p + |MarkerText(kind, param1, tail)|] == MarkerText(kind, param1, tail)
    ensures ActionAt(s, p) == Some(Found(Action(kind, param1, Param2Of(tail)), p + |MarkerText(kind, param1, tail)|))
  {
    MarkerWindows(s, p, kind, param1, tail);
    var t0 := p + |MarkerOpen|;
    var t1 := t0 + |kind|;
    var q1 := t1 + 1 + |param1|;
    var e := q1 + |tail| + 1;
    assert OpensAt(s, p);
    assert s[t1] == s[t1..t1 + 1][0];
    assert s[e - 1] == s[e - 1..e][0];
    assert s[q1] == if tail == [] then ']' else tail[0] by {
      if tail != [] { assert s[q1] == s[q1..q1 + |tail|][0]; }
    }
    MarkerRuns(s, p, t1, q1, e);
    TailAtComplete(s, q1, tail);
    ActionAtOfRuns(s, p, t1, q1);
  }

  // ---------------------------------------------------------------------------------------
  // The exec loop

  /** `actionRegex.exec(text)` with `lastIndex = from`: the first match starting at or after
      `from`. */
  function NextAction(s: string, from: nat): (r: Option<Found>)
    ensures r.Some? ==> from < r.value.end <= |s| && WellFormed(r.value.action)
    decreases |s| - from
  {
    if from >= |s| then None
    else
      match ActionAt(s, from)
      case Some(f) => Some(f)
      case None => NextAction(s, from + 1)
  }

  /** The directives the exec loop collects from index `from` on. */
  function ActionsFrom(s: string, from: nat): seq<Action>
    decreases |s| - from
  {
    match NextAction(s, from)
    case None => []
    case Some(f) => [f.action] + ActionsFrom(s, f.end)
  }

  /** Every directive the loop collects satisfies the grammar. */
  lemma {:induction false} ActionsWellFormed(s: string, from: nat)
    ensures forall i :: 0 <= i < |ActionsFrom(s, from)| ==> WellFormed(ActionsFrom(s, from)[i])
    decreases |s| - from
  {
    match NextAction(s, from)
    case None =>
    case Some(f) =>
      ActionsWellFormed(s, f.end);
  }

  /** The `while ((match = actionRegex.exec(textContent)) !== null)` loop. */
  method ParseActions(text: string) returns (actions: seq<Action>)
    ensures actions == ActionsFrom(text, 0)
    ensures forall i :: 0 <= i < |actions| ==> WellFormed(actions[i])
  {
    actions := [];
    var last := 0;
    var m := NextAction(text, last);
    while m.Some?
      invariant last <= |text|
      invariant m == NextAction(text, last)
      invariant actions + ActionsFrom(text, last) == ActionsFrom(text, 0)
      decreases |text| - last
    {
      actions := actions + [m.value.action];
      last := m.value.end;
      m := NextAction(text, last);
    }
    ActionsWellFormed(text, 0);
  }

  // ---------------------------------------------------------------------------------------
  // Stripping the markers from the displayed text

  /** The end of a match of `/\[ACTION:[^\]]+\]/` starting exactly at `p`: a non-empty run of
      characters other than `]`, closed by the first `]`. */
  function StripAt(s: string, p: nat): (r: Option<nat>)
    ensures r.Some? ==> p < r.value <= |s|
  {
    if !OpensAt(s, p) then None
    else
      var e := SpanEnd(s, p + |MarkerOpen|, IsNotClose);
      if e > p + |MarkerOpen| && e < |s| then Some(e + 1) else None
  }

  /** `replace(/\[ACTION:[^\]]+\]/g, '')` from index `from` on. */
  function StripFrom(s: string, from: nat): string
    decreases |s| - from
  {
    if from >= |s| then []
    else
      match StripAt(s, from)
      case Some(e) => StripFrom(s, e)
      case None => [s[from]] + StripFrom(s, from + 1)
  }

  function StripMarkers(s: string): string {
    StripFrom(s, 0)
  }

  /** The message shown to the user. */
  function DisplayedText(text: string): string {
    Trim(StripMarkers(text))
  }

  /** A marker the parser accepts is also removed whole from the display: the stripping regex
      matches at the same place and ends at the same `]`. */
  lemma ParsedMarkerStripped(s: string, p: nat)
    requires ActionAt(s, p).Some?
    ensures StripAt(s, p) == Some(ActionAt(s, p).value.end)
  {
    var f := ActionAt(s, p).value;
    var t0 := p + |MarkerOpen|;
    forall k | t0 <= k < f.end - 1 ensures IsNotClose(s[k]) {
      var t1 := SpanEnd(s, t0, IsWordChar);
      var q1 := SpanEnd(s, t1 + 1, IsParamChar);
      if q1 + 1 <= k {
        var d1 := SpanEnd(s, q1 + 1, IsDigit);
      }
    }
    SpanEndIs(s, t0, f.end - 1, IsNotClose);
  }

  /** The positions of `s`, from `from` on, that the replace keeps, in increasing order. */
  function KeptFrom(s: string, from: nat): (r: seq<nat>)
    ensures forall i :: 0 <= i < |r| ==> from <= r[i] < |s|
    ensures forall i, j :: 0 <= i < j < |r| ==> r[i] < r[j]
    decreases |s| - from
  {
    if from >= |s| then []
    else
      match StripAt(s, from)
      case Some(e) => KeptFrom(s, e)
      case None => [from] + KeptFrom(s, from + 1)
  }

  /** The stripped text is `s` read at the kept positions. */
  lemma {:induction false} KeptSpellsStrip(s: string, from: nat)
    ensures |KeptFrom(s, from)| == |StripFrom(s, from)|
    ensures forall i :: 0 <= i < |KeptFrom(s, from)| ==> StripFrom(s, from)[i] == s[KeptFrom(s, from)[i]]
    decreases |s| - from
  {
    if from < |s| {
      match StripAt(s, from)
      case Some(e) =>
        KeptSpellsStrip(s, e);
      case None =>
        KeptSpellsStrip(s, from + 1);
        var k, t := KeptFrom(s, from + 1), StripFrom(s, from + 1);
        assert KeptFrom(s, from) == [from] + k;
        assert StripFrom(s, from) == [s[from]] + t;
        forall i | 1 <= i < |k| + 1 ensures ([s[from]] + t)[i] == s[([from] + k)[i]] {
          assert ([s[from]] + t)[i] == t[i - 1];
          assert ([from] + k)[i] == k[i - 1];
        }
    }
  }

  /** A parsed marker is `[ACTION:` and characters other than `]` up to its closing `]`. */
  lemma MarkerEndsAtFirstClose(s: string, p: nat)
    requires ActionAt(s, p).Some?
    ensures s[ActionAt(s, p).value.end - 1] == ']'
    ensures forall k :: p <= k < ActionAt(s, p).value.end - 1 ==> s[k] != ']'
  {
    var e := ActionAt(s, p).value.end;
    ParsedMarkerStripped(s, p);
    var t0 := p + |MarkerOpen|;
    assert SpanEnd(s, t0, IsNotClose) == e - 1;
    forall k | p <= k < t0 ensures s[k] != ']' {
      assert s[k] == s[p..t0][k - p] == MarkerOpen[k - p];
    }
  }

  /** A strip match that starts before a parsed marker and reaches into it ends where the
      marker ends: the `[` of the marker cannot sit inside `[ACTION:`, and both runs stop at
      the first `]`. */
  lemma StripCrossingEndsWithMarker(s: string, q: nat, p: nat)
    requires ActionAt(s, p).Some? && q < p
    requires StripAt(s, q).Some? && p < StripAt(s, q).value
    ensures StripAt(s, q).value == ActionAt(s, p).value.end
  {
    var e, end := StripAt(s, q).value, ActionAt(s, p).value.end;
    MarkerEndsAtFirstClose(s, p);
    var t := q + |MarkerOpen|;
    assert SpanEnd(s, t, IsNotClose) == e - 1;
    assert s[p] == s[p..p + |MarkerOpen|][0] == '[';
    assert s[e - 1] == ']';
    assert !(p <= e - 1 < end - 1);
    assert !(t <= end - 1 < e - 1);
  }

  /** Scanning from any index up to a parsed marker keeps none of the marker's positions. */
  lemma {:induction false} MarkerNotKeptFrom(s: string, from: nat, p: nat)
    requires ActionAt(s, p).Some? && from <= p
    ensures forall i :: 0 <= i < |KeptFrom(s, from)| ==>
      !(p <= KeptFrom(s, from)[i] < ActionAt(s, p).value.end)
    decreases |s| - from
  {
    var end := ActionAt(s, p).value.end;
    if from == p {
      ParsedMarkerStripped(s, p);
      assert KeptFrom(s, p) == KeptFrom(s, end);
    } else {
      match StripAt(s, from)
      case None =>
        MarkerNotKeptFrom(s, from + 1, p);
        assert KeptFrom(s, from) == [from] + KeptFrom(s, from + 1);
      case Some(e) =>
        if e <= p {
          MarkerNotKeptFrom(s, e, p);
        } else {
          StripCrossingEndsWithMarker(s, from, p);
          assert KeptFrom(s, from) == KeptFrom(s, end);
        }
    }
  }

  /** No character of a parsed marker reaches the displayed text: the replace keeps `s` at
      increasing positions, none of them inside the marker, even where an earlier strip match
      swallows the marker's start. */
  lemma ParsedMarkerNotDisplayed(s: string, p: nat)
    requires ActionAt(s, p).Some?
    ensures var kept := KeptFrom(s, 0);
      |StripMarkers(s)| == |kept|
      && (forall i :: 0 <= i < |kept| ==> StripMarkers(s)[i] == s[kept[i]])
      && (forall i :: 0 <= i < |kept| ==> !(p <= kept[i] < ActionAt(s, p).value.end))
  {
    KeptSpellsStrip(s, 0);
    MarkerNotKeptFrom(s, 0, p);
  }

  /** Text without any `[ACTION:` is displayed as it is (before trimming). */
  lemma {:induction false} StripWithoutMarkers(s: string, from: nat)
    requires from <= |s|
    requires forall p :: from <= p < |s| ==> !OpensAt(s, p)
    ensures StripFrom(s, from) == s[from..]
    decreases |s| - from
  {
    if from < |s| {
      StripWithoutMarkers(s, from + 1);
      assert s[from..] == [s[from]] + s[from + 1..];
    }
  }
}
