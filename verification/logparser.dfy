/** The Cabrillo log reader: the text of the log is split into lines at "\r\n", and every
    line that starts with `QSO` is cut into its fixed columns. Reading the file is left to the
    caller, and `strptime` is a parameter. */
module LogParser {
  import opened Text

  // ---------------------------------------------------------------------------------------
  // `split("\r\n")`

  /** "\r\n" starts at `i`. */
  predicate CrlfAt(s: string, i: int)
  {
    0 <= i && i + 1 < |s| && s[i] == '\r' && s[i + 1] == '\n'
  }

  predicate NoCrlf(s: string) { forall k :: 0 <= k < |s| ==> !CrlfAt(s, k) }

  /** The first "\r\n" at or after `i`, or `|s|` when there is none. */
  function FindCrlf(s: string, i: nat): (j: nat)
    requires i <= |s|
    ensures i <= j <= |s|
    ensures j < |s| ==> CrlfAt(s, j)
    ensures forall k :: i <= k < j ==> !CrlfAt(s, k)
    decreases |s| - i
  {
    if i == |s| || CrlfAt(s, i) then i else FindCrlf(s, i + 1)
  }

  /** `s.split("\r\n")`: the pieces between the separators, always at least one. */
  function Lines(s: string): (lines: seq<string>)
    ensures |lines| >= 1
    ensures NoCrlf(s) ==> lines == [s]
    decreases |s|
  {
    var j := FindCrlf(s, 0);
    if j == |s| then [s] else [s[..j]] + Lines(s[j + 2..])
  }

  /** `"\r\n".join(lines)` */
  function JoinLines(lines: seq<string>): string
    requires |lines| >= 1
  {
    if |lines| == 1 then lines[0] else lines[0] + "\r\n" + JoinLines(lines[1..])
  }

  /** A text with a separator at `j` is what comes before it, the separator, and the rest. */
  lemma CrlfSplit(s: string, j: nat)
    requires CrlfAt(s, j)
    ensures s == s[..j] + "\r\n" + s[j + 2..]
  {
    var t := s[..j] + "\r\n" + s[j + 2..];
    forall k | 0 <= k < |s|
      ensures s[k] == t[k]
    {
      if k < j {
        assert t[k] == s[..j][k];
      } else if k >= j + 2 {
        assert t[k] == s[j + 2..][k - j - 2];
      }
    }
  }

  /** The first line holds no separator, and the rest of the text follows one. */
  lemma FirstLine(s: string)
    ensures var j := FindCrlf(s, 0);
      NoCrlf(s[..j]) && (j < |s| ==> s == s[..j] + "\r\n" + s[j + 2..])
  {
    var j := FindCrlf(s, 0);
    forall k | 0 <= k < j && CrlfAt(s[..j], k)
      ensures false
    {
      assert CrlfAt(s, k);
    }
    if j < |s| {
      CrlfSplit(s, j);
    }
  }

  /** The lines hold no separator, and joining them gives the text back. */
  lemma {:induction false} LinesJoin(s: string)
    ensures forall i :: 0 <= i < |Lines(s)| ==> NoCrlf(Lines(s)[i])
    ensures JoinLines(Lines(s)) == s
    decreases |s|
  {
    var j := FindCrlf(s, 0);
    FirstLine(s);
    if j < |s| {
      LinesJoin(s[j + 2..]);
      var rest := Lines(s[j + 2..]);
      var lines := Lines(s);
      assert lines == [s[..j]] + rest;
      assert lines[0] == s[..j] && lines[1..] == rest;
      forall i | 1 <= i < |lines|
        ensures NoCrlf(lines[i])
      {
        assert lines[i] == rest[i - 1];
      }
      assert JoinLines(lines) == lines[0] + "\r\n" + JoinLines(lines[1..]);
    } else {
      assert s[..j] == s;
    }
  }

  // ---------------------------------------------------------------------------------------
  // `int()` on a column

  /** The body of a Python integer literal: ASCII digits, with single underscores allowed
      between two digits. */
  predicate DigitGroups(s: string)
  {
    |s| >= 1 && IsDigit(s[0]) && IsDigit(s[|s| - 1])
    && (forall k :: 0 <= k < |s| ==> IsDigit(s[k]) || s[k] == '_')
    && (forall k :: 0 <= k < |s| - 1 ==> !DoubleUnderscore(s, k))
  }

  /** `__` starts at `k`. */
  predicate DoubleUnderscore(s: string, k: int)
  {
    0 <= k && k + 1 < |s| && s[k] == '_' && s[k + 1] == '_'
  }

  /** The number the digits of `s` spell, underscores skipped. */
  function DigitsValue(s: string): nat
  {
    if |s| == 0 then 0
    else if IsDigit(s[|s| - 1]) then 10 * DigitsValue(s[..|s| - 1]) + DigitValue(s[|s| - 1])
    else DigitsValue(s[..|s| - 1])
  }

  /** A Python integer literal without surrounding whitespace: an optional sign, then digit
      groups. */
  function ParseLiteral(t: string): (r: Option<int>)
    ensures r.Some? ==> |t| >= 1 && (IsDigit(t[0]) || t[0] == '+' || t[0] == '-')
    ensures r.Some? && r.value < 0 ==> t[0] == '-'
  {
    if |t| > 0 && (t[0] == '+' || t[0] == '-') && DigitGroups(t[1..]) then
      var v: int := DigitsValue(t[1..]);
      Some(if t[0] == '-' then -v else v)
    else if DigitGroups(t) then Some(DigitsValue(t))
    else None
  }

  /** Python's `int(s)` on a string: the literal between the surrounding whitespace; `None`
      for the `ValueError`. */
  function ParseInt(s: string): (r: Option<int>)
    ensures AllSpace(s) ==> r.None?
    ensures r.Some? && r.value < 0 ==> exists k :: 0 <= k < |s| && s[k] == '-'
  {
    var t := TrimStart(s);
    assert |t| > 0 ==> t[0] == s[|s| - |t|];
    var u := Strip(s);
    assert |u| > 0 ==> u[0] == s[|s| - |t|];
    ParseLiteral(u)
  }

  /** The digit character of `d`. */
  function Digit(d: nat): (c: char)
    requires d < 10
    ensures IsDigit(c) && DigitValue(c) == d
  {
    ('0' as int + d) as char
  }

  /** The value of a digit character. */
  function DigitValue(c: char): int
  {
    c as int - '0' as int
  }

  /** A one-character column parses exactly when it holds a digit, to that digit's value. */
  lemma DigitColumn(c: char)
    ensures ParseInt([c]) == if IsDigit(c) then Some(DigitValue(c)) else None
  {
    if IsSpace(c) {
      assert TrimStart([c]) == TrimStart([c][1..]);
      assert [c][1..] == [];
    } else {
      StripTrimmed([c]);
      assert [c][1..] == [];
      if IsDigit(c) {
        assert DigitsValue([c]) == 10 * DigitsValue([]) + DigitValue(c);
      }
    }
  }

  /** `str(n)` for `n >= 0`. */
  function Show(n: nat): (s: string)
    ensures |s| >= 1 && forall k :: 0 <= k < |s| ==> IsDigit(s[k])
  {
    if n < 10 then [Digit(n)] else Show(n / 10) + [Digit(n % 10)]
  }

  /** `str(n)` */
  function ShowInt(n: int): string
  {
    if n < 0 then "-" + Show(-n) else Show(n)
  }

  lemma {:induction false} ShowValue(n: nat)
    ensures DigitsValue(Show(n)) == n
  {
    if n >= 10 {
      var s := Show(n);
      ShowValue(n / 10);
      assert s[..|s| - 1] == Show(n / 10);
    }
  }

  /** `int(str(n)) == n` */
  lemma ParseShow(n: int)
    ensures ParseLiteral(ShowInt(n)) == Some(n)
  {
    var s := ShowInt(n);
    var m := if n < 0 then -n else n;
    ShowValue(m);
    if n < 0 {
      assert s[1..] == Show(m);
    }
  }

  // ---------------------------------------------------------------------------------------
  // Padded columns

  function Spaces(n: nat): (s: string)
    ensures |s| == n && AllSpace(s)
  {
    seq(n, _ => ' ')
  }

  /** Empty, or starts and ends with a character `strip()` keeps. */
  predicate Trimmed(x: string)
  {
    |x| == 0 || (!IsSpace(x[0]) && !IsSpace(x[|x| - 1]))
  }

  lemma StripTrimmed(x: string)
    requires Trimmed(x)
    ensures Strip(x) == x
  {
  }

  lemma {:induction false} TrimStartSpaces(l: nat, y: string)
    requires |y| == 0 || !IsSpace(y[0])
    ensures TrimStart(Spaces(l) + y) == y
  {
    if l > 0 {
      assert (Spaces(l) + y)[1..] == Spaces(l - 1) + y;
      TrimStartSpaces(l - 1, y);
    } else {
      assert Spaces(l) + y == y;
    }
  }

  lemma {:induction false} TrimEndSpaces(x: string, t: nat)
    requires |x| == 0 || !IsSpace(x[|x| - 1])
    ensures TrimEnd(x + Spaces(t)) == x
  {
    if t > 0 {
      assert (x + Spaces(t))[..|x| + t - 1] == x + Spaces(t - 1);
      TrimEndSpaces(x, t - 1);
    } else {
      assert x + Spaces(t) == x;
    }
  }

  /** `x` with `lead` spaces before it and `trail` after it. */
  function Pad(lead: nat, x: string, trail: nat): (f: string)
    ensures |f| == lead + |x| + trail
  {
    Spaces(lead) + x + Spaces(trail)
  }

  /** `f` is `x` with some spaces on either side. */
  ghost predicate IsPadded(f: string, x: string)
  {
    exists lead: nat, trail: nat :: f == Pad(lead, x, trail)
  }

  /** `strip()` takes back the padding of a trimmed value. */
  lemma StripPadded(f: string, x: string)
    requires IsPadded(f, x) && Trimmed(x)
    ensures Strip(f) == x
  {
    var lead: nat, trail: nat :| f == Pad(lead, x, trail);
    if |x| == 0 {
      assert f == Spaces(lead) + Spaces(trail);
      assert f == Spaces(lead + trail) + "";
      TrimStartSpaces(lead + trail, "");
    } else {
      assert f == Spaces(lead) + (x + Spaces(trail));
      TrimStartSpaces(lead, x + Spaces(trail));
      TrimEndSpaces(x, trail);
    }
  }

  /** `int()` reads back a padded `str(n)`. */
  lemma ParsePadded(f: string, n: int)
    requires IsPadded(f, ShowInt(n))
    ensures ParseInt(f) == Some(n)
  {
    var s := ShowInt(n);
    assert Trimmed(s);
    StripPadded(f, s);
    ParseShow(n);
  }

  // ---------------------------------------------------------------------------------------
  // One QSO line

  /** The dict `import_cabrillo` appends for a line. */
  datatype Qso = Qso(freq: int, mode: string, time: int, fromCall: string, sentRst: int,
                     sentExchange: string, qsoPartner: string, rcvdRst: int, rcvdExchange: string,
                     station: int)

  /** The columns of one `QSO:` line (logparser.py:16-25), with Python's clamping slices, the
      `ValueError` of each `int()` and of `strptime`, and the `IndexError` of `qso[80]` on a
      short line. `toTime` is `strptime(..., "%Y-%m-%d %H%M")`. */
  function DecodeQso(qso: string, toTime: string -> Option<int>): (r: Result<Qso>)
    ensures r.Err? ==> r.error == ValueError || r.error == IndexError
    ensures r.Err? && r.error == IndexError ==> |qso| <= 80
    ensures r.Ok? ==> |qso| > 80 && IsDigit(qso[80]) && r.value.station == DigitValue(qso[80])
    ensures r.Ok? ==> |r.value.mode| <= 2
  {
    match ParseInt(Slice(qso, 4, 11))
    case None => Err(ValueError)
    case Some(freq) =>
      match toTime(Slice(qso, 14, 29))
      case None => Err(ValueError)
      case Some(time) =>
        match ParseInt(Slice(qso, 44, 47))
        case None => Err(ValueError)
        case Some(sentRst) =>
          match ParseInt(Slice(qso, 69, 72))
          case None => Err(ValueError)
          case Some(rcvdRst) =>
            if |qso| <= 80 then Err(IndexError)
            else
              DigitColumn(qso[80]);
              match ParseInt([qso[80]])
              case None => Err(ValueError)
              case Some(station) =>
                Ok(Qso(freq, Slice(qso, 11, 13), time, Strip(Slice(qso, 30, 44)), sentRst,
                       Strip(Slice(qso, 48, 55)), Strip(Slice(qso, 55, 68)), rcvdRst,
                       Strip(Slice(qso, 73, 79)), station))
  }

  /** `strip()` leaves a trimmed string. */
  lemma StripIsTrimmed(s: string)
    ensures Trimmed(Strip(s))
  {
    StripEnds(s);
  }

  /** The text fields of a decoded entry carry no surrounding whitespace. */
  lemma DecodedTextTrimmed(qso: string, toTime: string -> Option<int>)
    requires DecodeQso(qso, toTime).Ok?
    ensures var q := DecodeQso(qso, toTime).value;
      Trimmed(q.fromCall) && Trimmed(q.sentExchange) && Trimmed(q.qsoPartner) && Trimmed(q.rcvdExchange)
  {
    StripIsTrimmed(Slice(qso, 30, 44));
    StripIsTrimmed(Slice(qso, 48, 55));
    StripIsTrimmed(Slice(qso, 55, 68));
    StripIsTrimmed(Slice(qso, 73, 79));
  }

  /** A line whose columns hold the fields of `q`, numbers as `str()` writes them and text
      without surrounding whitespace, each padded with spaces to its column, decodes to `q`. */
  lemma DecodeColumns(qso: string, toTime: string -> Option<int>, q: Qso)
    requires |qso| > 80 && IsDigit(qso[80]) && q.station == DigitValue(qso[80])
    requires IsPadded(Slice(qso, 4, 11), ShowInt(q.freq)) && Slice(qso, 11, 13) == q.mode
    requires toTime(Slice(qso, 14, 29)) == Some(q.time)
    requires IsPadded(Slice(qso, 30, 44), q.fromCall) && Trimmed(q.fromCall)
    requires IsPadded(Slice(qso, 44, 47), ShowInt(q.sentRst))
    requires IsPadded(Slice(qso, 48, 55), q.sentExchange) && Trimmed(q.sentExchange)
    requires IsPadded(Slice(qso, 55, 68), q.qsoPartner) && Trimmed(q.qsoPartner)
    requires IsPadded(Slice(qso, 69, 72), ShowInt(q.rcvdRst))
    requires IsPadded(Slice(qso, 73, 79), q.rcvdExchange) && Trimmed(q.rcvdExchange)
    ensures DecodeQso(qso, toTime) == Ok(q)
  {
    ParsePadded(Slice(qso, 4, 11), q.freq);
    ParsePadded(Slice(qso, 44, 47), q.sentRst);
    ParsePadded(Slice(qso, 69, 72), q.rcvdRst);
    StripPadded(Slice(qso, 30, 44), q.fromCall);
    StripPadded(Slice(qso, 48, 55), q.sentExchange);
    StripPadded(Slice(qso, 55, 68), q.qsoPartner);
    StripPadded(Slice(qso, 73, 79), q.rcvdExchange);
    DigitColumn(qso[80]);
    DecodeParsed(qso, toTime, q);
  }

  /** A line is decoded exactly when its three number columns and its time parse and the
      station column holds a digit. */
  lemma DecodeQsoAccepts(qso: string, toTime: string -> Option<int>)
    ensures DecodeQso(qso, toTime).Ok?
      <==> (ParseInt(Slice(qso, 4, 11)).Some? && toTime(Slice(qso, 14, 29)).Some?
            && ParseInt(Slice(qso, 44, 47)).Some? && ParseInt(Slice(qso, 69, 72)).Some?
            && |qso| > 80 && IsDigit(qso[80]))
  {
    if |qso| > 80 {
      DigitColumn(qso[80]);
    }
  }

  /** The step from the parsed columns to the entry. */
  lemma DecodeParsed(qso: string, toTime: string -> Option<int>, q: Qso)
    requires |qso| > 80 && ParseInt([qso[80]]) == Some(q.station)
    requires ParseInt(Slice(qso, 4, 11)) == Some(q.freq) && Slice(qso, 11, 13) == q.mode
    requires toTime(Slice(qso, 14, 29)) == Some(q.time)
    requires Strip(Slice(qso, 30, 44)) == q.fromCall && ParseInt(Slice(qso, 44, 47)) == Some(q.sentRst)
    requires Strip(Slice(qso, 48, 55)) == q.sentExchange && Strip(Slice(qso, 55, 68)) == q.qsoPartner
    requires ParseInt(Slice(qso, 69, 72)) == Some(q.rcvdRst) && Strip(Slice(qso, 73, 79)) == q.rcvdExchange
    ensures DecodeQso(qso, toTime) == Ok(q)
  {
  }

  // ---------------------------------------------------------------------------------------
  // `import_cabrillo`

  /** `re.match("^QSO", line)` */
  predicate IsQsoLine(line: string) { StartsWith(line, "QSO") }

  /** The lines that produce an entry, in their order. */
  function QsoLines(lines: seq<string>): (qs: seq<string>)
    ensures |qs| <= |lines|
    ensures forall k :: 0 <= k < |qs| ==> IsQsoLine(qs[k])
  {
    if |lines| == 0 then []
    else
      var last := lines[|lines| - 1];
      QsoLines(lines[..|lines| - 1]) + (if IsQsoLine(last) then [last] else [])
  }

  /** The log built after reading `lines`, or the error of the first QSO line that fails:
      the exception leaves the loop, and nothing is returned. */
  function ImportLines(lines: seq<string>, toTime: string -> Option<int>): (r: Result<seq<Qso>>)
    ensures r.Err? ==> r.error == ValueError || r.error == IndexError
    ensures r.Ok? ==> |r.value| == |QsoLines(lines)|
  {
    if |lines| == 0 then Ok([])
    else
      match ImportLines(lines[..|lines| - 1], toTime)
      case Err(e) => Err(e)
      case Ok(log) =>
        var line := lines[|lines| - 1];
        if !IsQsoLine(line) then Ok(log)
        else
          match DecodeQso(line, toTime)
          case Err(e) => Err(e)
          case Ok(q) => Ok(log + [q])
  }

  /** Lines are filtered one by one, so the order of the kept lines is the order of the text. */
  lemma {:induction false} QsoLinesAppend(a: seq<string>, b: seq<string>)
    ensures QsoLines(a + b) == QsoLines(a) + QsoLines(b)
    decreases |b|
  {
    if |b| == 0 {
      assert a + b == a;
    } else {
      assert (a + b)[..|a + b| - 1] == a + b[..|b| - 1];
      QsoLinesAppend(a, b[..|b| - 1]);
    }
  }

  /** A successful import has one entry per QSO line, each the decoding of its line, in order. */
  lemma {:induction false} ImportOk(lines: seq<string>, toTime: string -> Option<int>)
    requires ImportLines(lines, toTime).Ok?
    ensures var log := ImportLines(lines, toTime).value;
      var qs := QsoLines(lines);
      |log| == |qs| && forall k :: 0 <= k < |qs| ==> DecodeQso(qs[k], toTime) == Ok(log[k])
  {
    if |lines| > 0 {
      var init := lines[..|lines| - 1];
      ImportOk(init, toTime);
      var log := ImportLines(lines, toTime).value;
      var log0 := ImportLines(init, toTime).value;
      var qs0 := QsoLines(init);
      if IsQsoLine(lines[|lines| - 1]) {
        forall k | 0 <= k < |qs0|
          ensures DecodeQso(QsoLines(lines)[k], toTime) == Ok(log[k])
        {
          assert QsoLines(lines)[k] == qs0[k] && log[k] == log0[k];
        }
      }
    }
  }

  /** `DecodeQso` with the time parser fixed. */
  function Decoder(toTime: string -> Option<int>): string -> Result<Qso>
  {
    s => DecodeQso(s, toTime)
  }

  /** Line `k` of `qs` is the first that `dec` refuses, and it fails with `e`. */
  predicate FailsFirstAt(qs: seq<string>, k: int, dec: string -> Result<Qso>, e: Error)
  {
    0 <= k < |qs| && dec(qs[k]) == Err(e) && forall j :: 0 <= j < k ==> dec(qs[j]).Ok?
  }

  lemma FailsFirstExtend(qs: seq<string>, more: seq<string>, k: int, dec: string -> Result<Qso>, e: Error)
    requires FailsFirstAt(qs, k, dec, e)
    ensures FailsFirstAt(qs + more, k, dec, e)
  {
    assert forall j :: 0 <= j <= k ==> (qs + more)[j] == qs[j];
  }

  lemma FailsFirstLast(qs: seq<string>, last: string, dec: string -> Result<Qso>, e: Error)
    requires forall j :: 0 <= j < |qs| ==> dec(qs[j]).Ok?
    requires dec(last) == Err(e)
    ensures FailsFirstAt(qs + [last], |qs|, dec, e)
  {
    assert forall j :: 0 <= j < |qs| ==> (qs + [last])[j] == qs[j];
  }

  /** A failed import reports the error of the first QSO line that does not decode. */
  lemma {:induction false} ImportErr(lines: seq<string>, toTime: string -> Option<int>)
    requires ImportLines(lines, toTime).Err?
    ensures exists k :: FailsFirstAt(QsoLines(lines), k, Decoder(toTime), ImportLines(lines, toTime).error)
  {
    var dec := Decoder(toTime);
    var init := lines[..|lines| - 1];
    var last := lines[|lines| - 1];
    var qs0 := QsoLines(init);
    var more := if IsQsoLine(last) then [last] else [];
    var e := ImportLines(lines, toTime).error;
    assert QsoLines(lines) == qs0 + more;
    if ImportLines(init, toTime).Err? {
      ImportErr(init, toTime);
      var k :| FailsFirstAt(qs0, k, dec, e);
      FailsFirstExtend(qs0, more, k, dec, e);
    } else {
      ImportOk(init, toTime);
      assert forall j :: 0 <= j < |qs0| ==> dec(qs0[j]).Ok?;
      FailsFirstLast(qs0, last, dec, e);
    }
  }

  /** Once a line has failed, the lines after it change nothing. */
  lemma {:induction false} ImportErrSticks(lines: seq<string>, n: nat, toTime: string -> Option<int>)
    requires n <= |lines| && ImportLines(lines[..n], toTime).Err?
    ensures ImportLines(lines, toTime) == ImportLines(lines[..n], toTime)
    decreases |lines| - n
  {
    if n == |lines| {
      assert lines[..n] == lines;
    } else {
      var init := lines[..|lines| - 1];
      assert init[..n] == lines[..n];
      ImportErrSticks(init, n, toTime);
    }
  }

  /** One more line read after a prefix that imported cleanly. */
  lemma ImportNext(lines: seq<string>, i: int, toTime: string -> Option<int>)
    requires 0 <= i < |lines| && ImportLines(lines[..i], toTime).Ok?
    ensures var log := ImportLines(lines[..i], toTime).value;
      ImportLines(lines[..i + 1], toTime)
      == if !IsQsoLine(lines[i]) then Ok(log)
         else match DecodeQso(lines[i], toTime)
              case Err(e) => Err(e)
              case Ok(q) => Ok(log + [q])
  {
    assert lines[..i + 1][..i] == lines[..i];
  }

  /** A QSO line that does not decode after a clean prefix decides the whole import. */
  lemma ImportStops(lines: seq<string>, i: int, toTime: string -> Option<int>)
    requires 0 <= i < |lines| && ImportLines(lines[..i], toTime).Ok?
    requires IsQsoLine(lines[i]) && DecodeQso(lines[i], toTime).Err?
    ensures ImportLines(lines, toTime) == Err(DecodeQso(lines[i], toTime).error)
  {
    ImportNext(lines, i, toTime);
    ImportErrSticks(lines, i + 1, toTime);
  }

  /** `import_cabrillo(filename)` (logparser.py:5-38) on the text of the file: one pass over
      the lines, appending the decoded entry of each QSO line to the log. */
  method ImportCabrillo(text: string, toTime: string -> Option<int>) returns (r: Result<seq<Qso>>)
    ensures r == ImportLines(Lines(text), toTime)
  {
    var lines := Lines(text);
    var log: seq<Qso> := [];
    var i := 0;
    while i < |lines|
      invariant 0 <= i <= |lines|
      invariant ImportLines(lines[..i], toTime) == Ok(log)
    {
      var qso := lines[i];
      ImportNext(lines, i, toTime);
      if IsQsoLine(qso) {
        var d := DecodeQso(qso, toTime);
        if d.Err? {
          ImportStops(lines, i, toTime);
          return Err(d.error);
        }
        log := log + [d.value];
      }
      i := i + 1;
    }
    assert lines[..i] == lines;
    return Ok(log);
  }
}
