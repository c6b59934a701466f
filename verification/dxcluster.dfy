/** DX-cluster line decoders: the fixed-column `DX de` spot and the `^`-separated PC11 and
    PC61 messages. `float()` and the `strptime`/`mktime` step are parameters, and so is the
    clock reading `datetime.now` gives the character spot. */
module DxCluster {
  import opened Text

  // ---------------------------------------------------------------------------------------
  // Character runs.

  /** `[A-Za-z0-9/]` */
  predicate IsCallChar(c: char) { IsAsciiAlnum(c) || c == '/' }

  /** `[0-9.]` */
  predicate IsFreqChar(c: char) { IsDigit(c) || c == '.' }

  /** `[\sA-Za-z0-9.,;#+\-!?$()@/]`: what a comment may keep. */
  predicate IsCommentChar(c: char)
  {
    IsSpace(c) || IsAsciiAlnum(c) || c == '.' || c == ',' || c == ';' || c == '#' || c == '+'
    || c == '-' || c == '!' || c == '?' || c == '$' || c == '(' || c == ')' || c == '@' || c == '/'
  }

  /** The character classes the decoders scan runs of. */
  datatype CharSet = CallChars | FreqChars | OtherChars | NotCaret

  predicate InSet(c: char, cs: CharSet)
  {
    match cs
    case CallChars => IsCallChar(c)
    case FreqChars => IsFreqChar(c)
    case OtherChars => !IsCommentChar(c)
    case NotCaret => c != '^'
  }

  /** The length of the longest run of `cs` characters from `i` on. */
  function Span(s: string, i: nat, cs: CharSet): (n: nat)
    ensures i <= |s| ==> i + n <= |s|
    ensures i >= |s| ==> n == 0
    ensures forall k :: i <= k < i + n ==> InSet(s[k], cs)
    ensures i + n < |s| ==> !InSet(s[i + n], cs)
    decreases |s| - i
  {
    if i < |s| && InSet(s[i], cs) then 1 + Span(s, i + 1, cs) else 0
  }

  /** A run that reaches `e` and stops there has length `e - i`. */
  lemma {:induction false} SpanStops(s: string, i: nat, e: nat, cs: CharSet)
    requires i <= e <= |s|
    requires forall k :: i <= k < e ==> InSet(s[k], cs)
    requires e < |s| ==> !InSet(s[e], cs)
    ensures Span(s, i, cs) == e - i
    decreases e - i
  {
    if i < e {
      SpanStops(s, i + 1, e, cs);
    }
  }

  // ---------------------------------------------------------------------------------------
  // The spotter: `re.match(r'[A-Za-z0-9\/]+[:$]', s)`.

  /** `s` starts with `n >= 1` call characters followed by `:` or `$`. */
  predicate SpotterAt(s: string, n: int)
  {
    1 <= n < |s| && (forall k :: 0 <= k < n ==> IsCallChar(s[k])) && (s[n] == ':' || s[n] == '$')
  }

  /** The matched text, terminator included. */
  function MatchSpotter(s: string): (m: Option<string>)
    ensures m.Some? <==> exists n :: SpotterAt(s, n)
    ensures m.Some? ==> |m.value| >= 2 && SpotterAt(s, |m.value| - 1) && m.value == s[..|m.value|]
  {
    var n := Span(s, 0, CallChars);
    if n >= 1 && n < |s| && (s[n] == ':' || s[n] == '$') then
      assert SpotterAt(s, n);
      Some(s[..n + 1])
    else
      assert forall j :: !SpotterAt(s, j) by {
        forall j | SpotterAt(s, j)
          ensures false
        {
          SpanStops(s, 0, j, CallChars);
        }
      }
      None
  }

  /** The spotter is the call characters, with the terminator kept only when it is `$`:
      `re.sub(':', '', ...)` deletes the colon. */
  lemma SpotterText(s: string)
    requires MatchSpotter(s).Some?
    ensures var m := MatchSpotter(s).value;
      var run := m[..|m| - 1];
      RemoveAll(m, ":") == if m[|m| - 1] == ':' then run else m
  {
    var m := MatchSpotter(s).value;
    var run := m[..|m| - 1];
    assert forall k :: 0 <= k < |run| ==> IsCallChar(run[k]) && run[k] != ':' by {
      assert forall k :: 0 <= k < |run| ==> run[k] == s[k];
    }
    if m[|m| - 1] == ':' {
      assert m == run + ":";
      RemoveAllTrailing(run, ":");
    } else {
      assert forall k :: 0 <= k < |m| ==> m[k] != ':' by {
        assert forall k :: 0 <= k < |run| ==> m[k] == run[k];
      }
      RemoveAllAbsent(m, ":");
    }
  }

  // ---------------------------------------------------------------------------------------
  // The frequency: `re.search(r'[0-9\.]{5,12}', s)`.

  /** Five or more frequency characters start at `i`. */
  predicate FreqRunAt(s: string, i: nat)
  {
    Span(s, i, FreqChars) >= 5
  }

  /** The leftmost match from `i` on: at the first position with five or more frequency
      characters, as many of them as the pattern takes, at most twelve. */
  function SearchFreq(s: string, i: nat): (r: Option<string>)
    requires i <= |s|
    ensures r.Some? <==> exists j :: i <= j <= |s| && FreqRunAt(s, j)
    ensures r.Some? ==> 5 <= |r.value| <= 12 && forall k :: 0 <= k < |r.value| ==> IsFreqChar(r.value[k])
    decreases |s| - i
  {
    var n := Span(s, i, FreqChars);
    if n >= 5 then
      var m := if n < 12 then n else 12;
      var r := s[i..i + m];
      assert FreqRunAt(s, i);
      assert forall k :: 0 <= k < m ==> r[k] == s[i + k];
      Some(r)
    else if i == |s| then
      None
    else
      assert !FreqRunAt(s, i);
      SearchFreq(s, i + 1)
  }

  /** No position before the match starts a run of five. */
  lemma {:induction false} SearchFreqLeftmost(s: string, i: nat, j: nat)
    requires i <= j <= |s| && FreqRunAt(s, j)
    requires forall k :: i <= k < j ==> !FreqRunAt(s, k)
    ensures SearchFreq(s, i) == Some(s[j..j + if Span(s, j, FreqChars) < 12 then Span(s, j, FreqChars) else 12])
    decreases j - i
  {
    if i < j {
      assert !FreqRunAt(s, i);
      SearchFreqLeftmost(s, i + 1, j);
    } else {
      assert FreqRunAt(s, j);
    }
  }

  // ---------------------------------------------------------------------------------------
  // The DX call and the comment.

  /** `re.sub(r'[^A-Za-z0-9\/]+', '', s)`: every character outside `[A-Za-z0-9/]` deleted. */
  function KeepCallChars(s: string): (r: string)
    ensures |r| <= |s|
    ensures forall k :: 0 <= k < |r| ==> IsCallChar(r[k])
  {
    if |s| == 0 then []
    else if IsCallChar(s[0]) then
      var rest := KeepCallChars(s[1..]);
      assert forall k :: 1 <= k < |rest| + 1 ==> ([s[0]] + rest)[k] == rest[k - 1];
      [s[0]] + rest
    else KeepCallChars(s[1..])
  }

  /** Deleting works piece by piece, and keeps a string of call characters whole. */
  lemma {:induction false} KeepCallCharsAppend(a: string, b: string)
    ensures KeepCallChars(a + b) == KeepCallChars(a) + KeepCallChars(b)
    ensures (forall k :: 0 <= k < |a| ==> IsCallChar(a[k])) ==> KeepCallChars(a) == a
  {
    if |a| > 0 {
      assert (a + b)[0] == a[0];
      assert (a + b)[1..] == a[1..] + b;
      KeepCallCharsAppend(a[1..], b);
      if forall k :: 0 <= k < |a| ==> IsCallChar(a[k]) {
        assert forall k :: 0 <= k < |a| - 1 ==> a[1..][k] == a[k + 1];
        assert KeepCallChars(a) == [a[0]] + a[1..];
        assert [a[0]] + a[1..] == a;
      }
    } else {
      assert a + b == b;
    }
  }

  /** Each character is judged on its own: a call character stays where it is, any other is
      deleted. */
  lemma KeepCallCharsDeletes(a: string, c: char, b: string)
    ensures KeepCallChars(a + [c] + b)
      == KeepCallChars(a) + (if IsCallChar(c) then [c] else []) + KeepCallChars(b)
  {
    KeepCallCharsAppend(a + [c], b);
    KeepCallCharsAppend(a, [c]);
    assert [c][1..] == [];
  }

  /** `re.sub(r'[^...]+', ' ', s)`: every run of characters a comment may not hold becomes one
      space. */
  function CollapseOthers(s: string): (r: string)
    ensures AllComment(r)
    ensures |r| <= |s|
    decreases |s|
  {
    if |s| == 0 then []
    else if IsCommentChar(s[0]) then
      var rest := CollapseOthers(s[1..]);
      assert forall k :: 1 <= k < |rest| + 1 ==> ([s[0]] + rest)[k] == rest[k - 1];
      [s[0]] + rest
    else
      var n := Span(s, 0, OtherChars);
      var rest := CollapseOthers(s[n..]);
      assert IsCommentChar(' ');
      assert forall k :: 1 <= k < |rest| + 1 ==> (" " + rest)[k] == rest[k - 1];
      " " + rest
  }

  /** A comment of allowed characters only is left as it is. */
  lemma {:induction false} CollapseKeeps(s: string)
    requires AllComment(s)
    ensures CollapseOthers(s) == s
  {
    if |s| > 0 {
      CollapseKeeps(s[1..]);
      assert [s[0]] + s[1..] == s;
    }
  }

  /** An allowed character is kept in place. */
  lemma CollapseKeepsChar(c: char, rest: string)
    requires IsCommentChar(c)
    ensures CollapseOthers([c] + rest) == [c] + CollapseOthers(rest)
  {
    assert ([c] + rest)[1..] == rest;
  }

  /** A whole run of characters a comment may not hold, however long, becomes exactly one
      space: "a%%%b" gives "a b". */
  lemma CollapseRun(run: string, rest: string)
    requires |run| > 0 && forall k :: 0 <= k < |run| ==> !IsCommentChar(run[k])
    requires |rest| == 0 || IsCommentChar(rest[0])
    ensures CollapseOthers(run + rest) == " " + CollapseOthers(rest)
  {
    var s := run + rest;
    assert forall k :: 0 <= k < |run| ==> s[k] == run[k];
    SpanStops(s, 0, |run|, OtherChars);
    assert s[|run|..] == rest;
  }

  // ---------------------------------------------------------------------------------------
  // `decode_char_spot`

  datatype CharSpot = CharSpot(spotter: string, frequency: real, dx: string, comment: string, time: int)

  /** `decode_char_spot(raw_string)` (dxcluster.py:9-29). `toFloat` is Python's `float()`
      (`None` for `ValueError`), `now` the clock reading. */
  function DecodeCharSpot(raw: string, toFloat: string -> Option<real>, now: int): (r: Result<CharSpot>)
    ensures r.Err? ==> r.error == ValueError
    ensures r.Ok? ==> r.value.time == now
    ensures r.Ok? ==> r.value.dx == KeepCallChars(Slice(raw, 26, 38))
    ensures r.Ok? ==> r.value.comment == Strip(CollapseOthers(Slice(raw, 39, 69)))
  {
    match MatchSpotter(Slice(raw, 6, 15))
    case None => Err(ValueError)
    case Some(m) =>
      match SearchFreq(Slice(raw, 10, 25), 0)
      case None => Err(ValueError)
      case Some(f) =>
        match toFloat(f)
        case None => Err(ValueError)
        case Some(freq) =>
          Ok(CharSpot(RemoveAll(m, ":"), freq, KeepCallChars(Slice(raw, 26, 38)),
            Strip(CollapseOthers(Slice(raw, 39, 69))), now))
  }

  /** The spot is refused exactly when the spotter field, the frequency field or the
      frequency text is malformed. */
  lemma CharSpotErrors(raw: string, toFloat: string -> Option<real>, now: int)
    ensures var s := Slice(raw, 6, 15);
      var t := Slice(raw, 10, 25);
      DecodeCharSpot(raw, toFloat, now).Err?
      <==> (forall n :: !SpotterAt(s, n)) || (forall j :: 0 <= j <= |t| ==> !FreqRunAt(t, j))
           || toFloat(SearchFreq(t, 0).value).None?
  {
  }

  predicate AllComment(s: string) { forall k :: 0 <= k < |s| ==> IsCommentChar(s[k]) }

  lemma TrimStartComment(c: string)
    requires AllComment(c)
    ensures AllComment(TrimStart(c))
  {
    var u := TrimStart(c);
    forall k | 0 <= k < |u|
      ensures IsCommentChar(u[k])
    {
      assert u[k] == c[|c| - |u| + k];
    }
  }

  lemma TrimEndComment(c: string)
    requires AllComment(c)
    ensures AllComment(TrimEnd(c))
  {
    var t := TrimEnd(c);
    forall k | 0 <= k < |t|
      ensures IsCommentChar(t[k])
    {
      assert t[k] == c[k];
    }
  }

  /** Stripping keeps a comment of allowed characters one. */
  lemma CommentShape(c: string)
    requires AllComment(c)
    ensures AllComment(Strip(c))
  {
    TrimStartComment(c);
    TrimEndComment(TrimStart(c));
  }

  /** A decoded spot's spotter is the matched call without its colon, and its frequency is
      what `float()` makes of the matched frequency text. */
  lemma CharSpotSpotter(raw: string, toFloat: string -> Option<real>, now: int)
    requires DecodeCharSpot(raw, toFloat, now).Ok?
    ensures var r := DecodeCharSpot(raw, toFloat, now).value;
      var m := MatchSpotter(Slice(raw, 6, 15)).value;
      var f := SearchFreq(Slice(raw, 10, 25), 0).value;
      r.spotter == (if m[|m| - 1] == ':' then m[..|m| - 1] else m) && toFloat(f) == Some(r.frequency)
  {
    var m := MatchSpotter(Slice(raw, 6, 15)).value;
    var f := SearchFreq(Slice(raw, 10, 25), 0).value;
    var r := DecodeCharSpot(raw, toFloat, now).value;
    assert r.spotter == RemoveAll(m, ":") && toFloat(f) == Some(r.frequency);
    SpotterText(Slice(raw, 6, 15));
  }

  /** A decoded spot's DX call holds `[A-Za-z0-9/]` only, and its comment only allowed
      characters, with no whitespace at either end. */
  lemma CharSpotText(raw: string, toFloat: string -> Option<real>, now: int)
    requires DecodeCharSpot(raw, toFloat, now).Ok?
    ensures var r := DecodeCharSpot(raw, toFloat, now).value;
      (forall k :: 0 <= k < |r.dx| ==> IsCallChar(r.dx[k]))
      && AllComment(r.comment)
      && (|r.comment| > 0 ==> !IsSpace(r.comment[0]) && !IsSpace(r.comment[|r.comment| - 1]))
  {
    var c := CollapseOthers(Slice(raw, 39, 69));
    assert DecodeCharSpot(raw, toFloat, now).value.comment == Strip(c);
    StripEnds(c);
    CommentShape(c);
  }

  // ---------------------------------------------------------------------------------------
  // `split("^")`

  /** `s.split("^")`: the pieces between the carets, always at least one. */
  function Split(s: string): (parts: seq<string>)
    ensures |parts| >= 1
    ensures NoCaret(s) ==> parts == [s]
    decreases |s|
  {
    var n := Span(s, 0, NotCaret);
    if n == |s| then [s] else [s[..n]] + Split(s[n + 1..])
  }

  /** `"^".join(parts)` */
  function Join(parts: seq<string>): string
    requires |parts| >= 1
  {
    if |parts| == 1 then parts[0] else parts[0] + "^" + Join(parts[1..])
  }

  predicate NoCaret(s: string) { forall k :: 0 <= k < |s| ==> s[k] != '^' }

  /** The first piece is the text before the first caret. */
  lemma SplitHead(s: string)
    ensures var n := Span(s, 0, NotCaret);
      NoCaret(s[..n]) && (n < |s| ==> s == s[..n] + "^" + s[n + 1..])
  {
    var n := Span(s, 0, NotCaret);
    forall k | 0 <= k < n
      ensures s[..n][k] != '^'
    {
      assert s[..n][k] == s[k] && InSet(s[k], NotCaret);
    }
    if n < |s| {
      CaretSplit(s, n);
    }
  }

  /** A text with a caret at `n` is what comes before it, the caret, and the rest. */
  lemma CaretSplit(s: string, n: nat)
    requires n < |s| && s[n] == '^'
    ensures s == s[..n] + "^" + s[n + 1..]
  {
    var t := s[..n] + "^" + s[n + 1..];
    forall k | 0 <= k < |s|
      ensures s[k] == t[k]
    {
      if k < n {
        assert t[k] == s[..n][k];
      } else if k > n {
        assert t[k] == s[n + 1..][k - n - 1];
      }
    }
  }

  /** The pieces hold no caret, and joining them gives the string back. */
  lemma {:induction false} SplitJoin(s: string)
    ensures forall i :: 0 <= i < |Split(s)| ==> NoCaret(Split(s)[i])
    ensures Join(Split(s)) == s
    decreases |s|
  {
    var n := Span(s, 0, NotCaret);
    SplitHead(s);
    if n < |s| {
      SplitJoin(s[n + 1..]);
      assert Split(s) == [s[..n]] + Split(s[n + 1..]);
      JoinCons(s[..n], Split(s[n + 1..]));
    }
  }

  /** One caret-free piece put in front of caret-free pieces. */
  lemma JoinCons(p: string, rest: seq<string>)
    requires |rest| >= 1 && NoCaret(p) && forall i :: 0 <= i < |rest| ==> NoCaret(rest[i])
    ensures forall i :: 0 <= i < |[p] + rest| ==> NoCaret(([p] + rest)[i])
    ensures Join([p] + rest) == p + "^" + Join(rest)
  {
    var parts := [p] + rest;
    assert parts[0] == p && parts[1..] == rest;
    forall i | 1 <= i < |parts|
      ensures NoCaret(parts[i])
    {
      assert parts[i] == rest[i - 1];
    }
  }

  /** The first caret of `p + "^" + rest` when `p` has none. */
  lemma CaretAfter(p: string, rest: string)
    requires NoCaret(p)
    ensures var s := p + "^" + rest;
      Span(s, 0, NotCaret) == |p| && s[..|p|] == p && s[|p| + 1..] == rest
  {
    var s := p + "^" + rest;
    forall k | 0 <= k < |p|
      ensures s[k] == p[k] && InSet(s[k], NotCaret)
    {
      assert s == p + ("^" + rest);
    }
    SpanStops(s, 0, |p|, NotCaret);
    assert s[..|p|] == p;
    assert s[|p| + 1..] == rest;
  }

  /** Splitting a join of caret-free pieces gives the pieces back. */
  lemma {:induction false} JoinSplit(parts: seq<string>)
    requires |parts| >= 1 && forall i :: 0 <= i < |parts| ==> NoCaret(parts[i])
    ensures Split(Join(parts)) == parts
    decreases |parts|
  {
    var p := parts[0];
    if |parts| == 1 {
      SpanStops(p, 0, |p|, NotCaret);
    } else {
      var rest := Join(parts[1..]);
      CaretAfter(p, rest);
      JoinSplit(parts[1..]);
      assert [p] + parts[1..] == parts;
    }
  }

  // ---------------------------------------------------------------------------------------
  // PC11 and PC61

  /** The dict of a PC11 or PC61 spot; `ip` is there for PC61 only. */
  datatype PcSpot = PcSpot(frequency: real, dx: string, time: int, comment: string,
                           spotter: string, node: string, ip: Option<string>, rawSpot: string)

  /** `s[:-1]` */
  function DropLast(s: string): string
  {
    if |s| == 0 then s else s[..|s| - 1]
  }

  /** The fields both messages read, in the order of dxcluster.py:36-41 and 51-56, with the
      `IndexError` of the first missing field and the `ValueError` of `float()` and of
      `strptime`. `toTime` is `mktime(strptime(..., "%d-%b-%Y %H%M"))`. */
  function DecodePcFields(raw: string, spot: seq<string>, toFloat: string -> Option<real>,
                          toTime: string -> Option<int>): (r: Result<PcSpot>)
    ensures r.Ok? ==> |spot| >= 8
    ensures r.Err? ==> r.error == IndexError || r.error == ValueError
  {
    if |spot| < 2 then Err(IndexError)
    else match toFloat(spot[1])
    case None => Err(ValueError)
    case Some(freq) =>
      if |spot| < 5 then Err(IndexError)
      else match toTime(spot[3] + " " + DropLast(spot[4]))
      case None => Err(ValueError)
      case Some(t) =>
        if |spot| < 8 then Err(IndexError)
        else Ok(PcSpot(freq, spot[2], t, spot[5], spot[6], spot[7], None, raw))
  }

  /** `decode_pc11_message(raw_string)` (dxcluster.py:31-43). */
  function DecodePc11(raw: string, toFloat: string -> Option<real>, toTime: string -> Option<int>)
    : (r: Result<PcSpot>)
    ensures var spot := Split(raw);
      r.Ok? ==>
        (|spot| >= 8 && r.value.dx == spot[2] && r.value.comment == spot[5] && r.value.spotter == spot[6]
         && r.value.node == spot[7] && r.value.ip.None? && r.value.rawSpot == raw
         && toFloat(spot[1]) == Some(r.value.frequency)
         && toTime(spot[3] + " " + DropLast(spot[4])) == Some(r.value.time))
  {
    DecodePcFields(raw, Split(raw), toFloat, toTime)
  }

  /** `decode_pc61_message(raw_string)` (dxcluster.py:46-59): PC11's fields and the IP address
      in field 8. */
  function DecodePc61(raw: string, toFloat: string -> Option<real>, toTime: string -> Option<int>)
    : (r: Result<PcSpot>)
    ensures var spot := Split(raw);
      r.Ok? ==> |spot| >= 9 && r.value.ip == Some(spot[8])
  {
    var spot := Split(raw);
    match DecodePcFields(raw, spot, toFloat, toTime)
    case Err(e) => Err(e)
    case Ok(d) => if |spot| < 9 then Err(IndexError) else Ok(d.(ip := Some(spot[8])))
  }

  /** A PC61 message that decodes decodes as PC11 too, to the same spot without the IP. */
  lemma Pc61ExtendsPc11(raw: string, toFloat: string -> Option<real>, toTime: string -> Option<int>)
    ensures DecodePc61(raw, toFloat, toTime).Ok?
      ==> DecodePc11(raw, toFloat, toTime) == Ok(DecodePc61(raw, toFloat, toTime).value.(ip := None))
  {
  }

  /** A message is decoded exactly when it has the eight fields PC11 reads and both parses
      succeed. */
  lemma Pc11Accepts(raw: string, toFloat: string -> Option<real>, toTime: string -> Option<int>)
    ensures var spot := Split(raw);
      DecodePc11(raw, toFloat, toTime).Ok?
      <==> |spot| >= 8 && toFloat(spot[1]).Some? && toTime(spot[3] + " " + DropLast(spot[4])).Some?
  {
  }

  /** A PC61 message is decoded exactly when it has the nine fields PC61 reads and both
      parses succeed. */
  lemma Pc61Accepts(raw: string, toFloat: string -> Option<real>, toTime: string -> Option<int>)
    ensures var spot := Split(raw);
      DecodePc61(raw, toFloat, toTime).Ok?
      <==> |spot| >= 9 && toFloat(spot[1]).Some? && toTime(spot[3] + " " + DropLast(spot[4])).Some?
  {
  }

  /** Fields joined with `^` come back out in their places: dx from field 2, comment from 5,
      spotter from 6 and node from 7. */
  lemma Pc11OfFields(fields: seq<string>, toFloat: string -> Option<real>, toTime: string -> Option<int>)
    requires |fields| >= 8 && forall i :: 0 <= i < |fields| ==> NoCaret(fields[i])
    requires toFloat(fields[1]).Some? && toTime(fields[3] + " " + DropLast(fields[4])).Some?
    ensures var raw := Join(fields);
      DecodePc11(raw, toFloat, toTime)
      == Ok(PcSpot(toFloat(fields[1]).value, fields[2], toTime(fields[3] + " " + DropLast(fields[4])).value,
                   fields[5], fields[6], fields[7], None, raw))
  {
    JoinSplit(fields);
  }
}
