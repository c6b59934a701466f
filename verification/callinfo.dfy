/** `Callinfo`: resolving a raw, possibly compound callsign at a timestamp to one entity
    record, on top of an injected lookup library. The static `callsign_exceptions` table is a
    parameter (`exceptions`), and so is the "now" that pyhamtools reads from the clock. */
module CallInfo {
  import opened Text
  import opened Records
  import opened Lookup
  import opened Grammar

  // ---------------------------------------------------------------------------------------
  // `_iterate_prefix`

  /** 2006-01-01 00:00:00 UTC in epoch seconds. */
  const VK9_CUTOFF := 1136073600

  /** `(VK|AX|VI)9[A-Z]{3}` occurs at `i`. */
  predicate Vk9At(s: string, i: int)
  {
    0 <= i && i + 6 <= |s|
    && ((s[i] == 'V' && s[i + 1] == 'K') || (s[i] == 'A' && s[i + 1] == 'X') || (s[i] == 'V' && s[i + 1] == 'I'))
    && s[i + 2] == '9' && IsUpper(s[i + 3]) && IsUpper(s[i + 4]) && IsUpper(s[i + 5])
  }

  predicate HasVk9(s: string)
  {
    exists i :: 0 <= i <= |s| - 6 && Vk9At(s, i)
  }

  /** Where the search starts: the whole call, or for VK9 island calls after the cutoff
      `callsign[0:3] + callsign[4:5]`. */
  function SearchStart(callsign: string, ts: int): (p: string)
    ensures !(HasVk9(callsign) && ts > VK9_CUTOFF) ==> p == callsign
    ensures HasVk9(callsign) && ts > VK9_CUTOFF ==> p == callsign[..3] + [callsign[4]]
  {
    if HasVk9(callsign) && ts > VK9_CUTOFF then Slice(callsign, 0, 3) + Slice(callsign, 4, 5)
    else callsign
  }

  /** `s.replace(' ', '')` */
  function RemoveSpaces(s: string): (r: string)
    ensures |r| <= |s|
    ensures forall i :: 0 <= i < |r| ==> r[i] != ' '
    ensures (forall i :: 0 <= i < |s| ==> s[i] != ' ') ==> r == s
  {
    if |s| == 0 then []
    else if s[0] == ' ' then RemoveSpaces(s[1..])
    else assert s == [s[0]] + s[1..]; [s[0]] + RemoveSpaces(s[1..])
  }

  /** `prefix.replace(' ', '')[:-1]` */
  function Shorten(p: string): (r: string)
    ensures |p| > 0 ==> |r| < |p|
    ensures (forall i :: 0 <= i < |p| ==> p[i] != ' ') && |p| > 0 ==> r == p[..|p| - 1]
  {
    var q := RemoveSpaces(p);
    if |q| == 0 then q else q[..|q| - 1]
  }

  /** `replace` works piece by piece. */
  lemma {:induction false} RemoveSpacesAppend(a: string, b: string)
    ensures RemoveSpaces(a + b) == RemoveSpaces(a) + RemoveSpaces(b)
    decreases |a|
  {
    if |a| > 0 {
      assert (a + b)[1..] == a[1..] + b;
      RemoveSpacesAppend(a[1..], b);
    } else {
      assert a + b == b;
    }
  }

  /** On one character: a space is dropped, anything else kept. */
  lemma RemoveSpacesChar(c: char)
    ensures RemoveSpaces([c]) == if c == ' ' then [] else [c]
  {
    assert [c][1..] == [];
  }

  /** With the empty string giving the empty string, this fixes `Shorten` everywhere: a
      trailing space is ignored, and otherwise the last character goes and the spaces before
      it are removed. */
  lemma ShortenLast(a: string, c: char)
    ensures Shorten(a + [c]) == if c == ' ' then Shorten(a) else RemoveSpaces(a)
  {
    RemoveSpacesAppend(a, [c]);
    RemoveSpacesChar(c);
    if c != ' ' {
      assert RemoveSpaces(a + [c])[..|RemoveSpaces(a + [c])| - 1] == RemoveSpaces(a);
    } else {
      assert RemoveSpaces(a) + [] == RemoveSpaces(a);
    }
  }

  /** The strings the loop asks the prefix table about, in order. */
  function Candidates(p: string): (cs: seq<string>)
    ensures |cs| <= |p|
    decreases |p|
  {
    if |p| == 0 then [] else [p] + Candidates(Shorten(p))
  }

  /** Longest-prefix search: the first candidate the prefix table knows, `KeyError` once
      the string is used up. */
  function ResolvePrefix(lib: LookupLib, p: string, ts: int): (r: Result<Record>)
    ensures r.Err? ==> r.error == KeyError
    ensures r.Ok? ==> exists q :: q in Candidates(p) && LookupPrefix(lib, q, ts) == r
    decreases |p|
  {
    if |p| == 0 then Err(KeyError)
    else match LookupPrefix(lib, p, ts)
      case Ok(rec) => Ok(rec)
      case Err(_) => ResolvePrefix(lib, Shorten(p), ts)
  }

  /** `_iterate_prefix(callsign, timestamp)` */
  function IteratePrefixSpec(lib: LookupLib, callsign: string, ts: int): (r: Result<Record>)
    ensures r.Err? ==> r.error == KeyError
    ensures r.Ok? ==> exists q :: q in Candidates(SearchStart(callsign, ts)) && LookupPrefix(lib, q, ts) == r
  {
    ResolvePrefix(lib, SearchStart(callsign, ts), ts)
  }

  /** Candidate `i` is the first one the prefix table answers, with `rec`. */
  predicate FirstHitAt(lib: LookupLib, cs: seq<string>, ts: int, i: int, rec: Record)
  {
    FirstHit(PrefixAnswer(lib, ts), cs, i, rec)
  }

  function PrefixAnswer(lib: LookupLib, ts: int): string -> Result<Record>
  {
    s => LookupPrefix(lib, s, ts)
  }

  /** Candidate `i` is the first one `ans` answers, with `rec`. */
  predicate FirstHit(ans: string -> Result<Record>, cs: seq<string>, i: int, rec: Record)
  {
    0 <= i < |cs| && ans(cs[i]) == Ok(rec) && forall j :: 0 <= j < i ==> ans(cs[j]).Err?
  }

  /** A successful search returns the answer for the first candidate the table knows. */
  lemma {:induction false} ResolvePrefixFound(lib: LookupLib, p: string, ts: int)
    requires ResolvePrefix(lib, p, ts).Ok?
    ensures exists i :: FirstHitAt(lib, Candidates(p), ts, i, ResolvePrefix(lib, p, ts).value)
    decreases |p|
  {
    var cs := Candidates(p);
    var rest := Candidates(Shorten(p));
    assert cs == [p] + rest;
    var r := ResolvePrefix(lib, p, ts);
    if LookupPrefix(lib, p, ts).Ok? {
      assert FirstHitAt(lib, cs, ts, 0, r.value);
    } else {
      assert r == ResolvePrefix(lib, Shorten(p), ts);
      ResolvePrefixFound(lib, Shorten(p), ts);
      var i :| FirstHitAt(lib, rest, ts, i, r.value);
      FirstHitShift(PrefixAnswer(lib, ts), p, rest, i, r.value);
      assert FirstHitAt(lib, cs, ts, i + 1, r.value);
    }
  }

  /** A candidate the table misses, put in front, moves the first hit one place on. */
  lemma FirstHitShift(ans: string -> Result<Record>, p: string, rest: seq<string>, i: int, rec: Record)
    requires ans(p).Err? && FirstHit(ans, rest, i, rec)
    ensures FirstHit(ans, [p] + rest, i + 1, rec)
  {
    var cs := [p] + rest;
    forall j | 0 <= j < i + 1
      ensures ans(cs[j]).Err?
    {
      if j > 0 {
        assert cs[j] == rest[j - 1];
      }
    }
    assert cs[i + 1] == rest[i];
  }

  /** A failed search asked the table about every candidate in vain. */
  lemma {:induction false} ResolvePrefixMissed(lib: LookupLib, p: string, ts: int)
    requires ResolvePrefix(lib, p, ts).Err?
    ensures forall j :: 0 <= j < |Candidates(p)| ==> LookupPrefix(lib, Candidates(p)[j], ts).Err?
    decreases |p|
  {
    if |p| > 0 {
      var cs := Candidates(p);
      var rest := Candidates(Shorten(p));
      assert cs == [p] + rest;
      assert LookupPrefix(lib, p, ts).Err?;
      ResolvePrefixMissed(lib, Shorten(p), ts);
      forall j | 0 <= j < |cs|
        ensures LookupPrefix(lib, cs[j], ts).Err?
      {
        if j > 0 {
          assert cs[j] == rest[j - 1];
        }
      }
    }
  }

  /** The search fails exactly when the table knows none of the candidates. */
  lemma ResolvePrefixFails(lib: LookupLib, p: string, ts: int)
    ensures ResolvePrefix(lib, p, ts).Err?
      <==> forall j :: 0 <= j < |Candidates(p)| ==> LookupPrefix(lib, Candidates(p)[j], ts).Err?
  {
    if ResolvePrefix(lib, p, ts).Err? {
      ResolvePrefixMissed(lib, p, ts);
    } else {
      ResolvePrefixFound(lib, p, ts);
    }
  }

  /** Without spaces the candidates are the call and then ever shorter leading parts of it,
      one character less each time: `len(p)` lookups at most. */
  lemma {:induction false} CandidatesOfUnspaced(p: string)
    requires forall i :: 0 <= i < |p| ==> p[i] != ' '
    ensures |Candidates(p)| == |p|
    ensures forall i :: 0 <= i < |p| ==> Candidates(p)[i] == p[..|p| - i]
    decreases |p|
  {
    if |p| > 0 {
      var q := p[..|p| - 1];
      assert Shorten(p) == q;
      CandidatesOfUnspaced(q);
      forall i | 0 <= i < |p|
        ensures Candidates(p)[i] == p[..|p| - i]
      {
        if i > 0 {
          assert Candidates(p)[i] == Candidates(q)[i - 1];
          assert q[..|q| - (i - 1)] == p[..|p| - i];
        }
      }
    }
  }

  /** The loop of `_iterate_prefix`. */
  method IteratePrefix(lib: LookupLib, callsign: string, ts: int) returns (r: Result<Record>)
    ensures r == IteratePrefixSpec(lib, callsign, ts)
  {
    var prefix := callsign;
    if HasVk9(callsign) && ts > VK9_CUTOFF {
      prefix := Slice(callsign, 0, 3) + Slice(callsign, 4, 5);
    }
    while |prefix| > 0
      invariant ResolvePrefix(lib, prefix, ts) == IteratePrefixSpec(lib, callsign, ts)
      decreases |prefix|
    {
      var found := LookupPrefix(lib, prefix, ts);
      if found.Ok? {
        return found;
      }
      prefix := Shorten(prefix);
    }
    return Err(KeyError);
  }

  /** A VK9 island call after the cutoff is looked up from `callsign[0:3] + callsign[4:5]`:
      "VK9XAA" from "VK9A" down. */
  lemma Vk9Rule(lib: LookupLib, callsign: string, ts: int)
    requires HasVk9(callsign) && ts > VK9_CUTOFF
    ensures IteratePrefixSpec(lib, callsign, ts) == ResolvePrefix(lib, callsign[..3] + [callsign[4]], ts)
  {
  }

  // ---------------------------------------------------------------------------------------
  // `check_if_mm`, `check_if_am`, `check_if_beacon`

  /** `s[-n:]` */
  function Last(s: string, n: nat): (r: string)
    ensures |r| == if n <= |s| then n else |s|
  {
    if n <= |s| then s[|s| - n..] else s
  }

  /** `/MM` is recognised exactly when the call ends with it, in any case. */
  predicate CheckIfMm(callsign: string)
    ensures CheckIfMm(callsign) <==> |callsign| >= 3 && Upper(callsign[|callsign| - 3..]) == "/MM"
  {
    ContainsInThree(Upper(Last(callsign, 3)), "/MM");
    Contains(Upper(Last(callsign, 3)), "/MM")
  }

  /** `/AM` likewise. */
  predicate CheckIfAm(callsign: string)
    ensures CheckIfAm(callsign) <==> |callsign| >= 3 && Upper(callsign[|callsign| - 3..]) == "/AM"
  {
    ContainsInThree(Upper(Last(callsign, 3)), "/AM");
    Contains(Upper(Last(callsign, 3)), "/AM")
  }

  /** The `/BCN` test adds nothing to the `/B` test. */
  predicate CheckIfBeacon(callsign: string)
    ensures CheckIfBeacon(callsign) <==> Contains(Upper(Last(callsign, 4)), "/B")
  {
    var check := Upper(Last(callsign, 4));
    BcnHasB(check);
    Contains(check, "/B") || Contains(check, "/BCN")
  }

  /** A three-character marker is in the last three characters exactly when it ends them. */
  lemma ContainsInThree(u: string, t: string)
    requires |t| == 3 && |u| <= 3
    ensures Contains(u, t) <==> u == t
  {
    ContainsAt(u, t);
    if Contains(u, t) {
      var i :| OccursAt(u, t, i);
    }
    if u == t {
      assert OccursAt(u, t, 0);
    }
  }

  /** Wherever `/BCN` occurs, `/B` does. */
  lemma BcnHasB(check: string)
    ensures Contains(check, "/BCN") ==> Contains(check, "/B")
  {
    if Contains(check, "/BCN") {
      ContainsAt(check, "/BCN");
      var i :| OccursAt(check, "/BCN", i);
      assert check[i..i + 2] == check[i..i + 4][..2];
      assert OccursAt(check, "/B", i);
      ContainsAt(check, "/B");
    }
  }

  /** Both `X/B` and `X/BCN` count as beacons, in any case. */
  lemma BeaconSuffixes(base: string)
    ensures CheckIfBeacon(base + "/B") && CheckIfBeacon(base + "/BCN")
  {
    var b := Upper(Last(base + "/B", 4));
    assert |b| >= 2 && b[|b| - 2..] == "/B";
    assert OccursAt(b, "/B", |b| - 2);
    ContainsAt(b, "/B");
    var n := Upper(Last(base + "/BCN", 4));
    assert n[..2] == "/B";
    assert OccursAt(n, "/B", 0);
    ContainsAt(n, "/B");
  }

  // ---------------------------------------------------------------------------------------
  // The patterns `_dismantle_callsign` tests.

  /** `[/A-Z0-9\-]` */
  predicate CallChar(c: char) { IsUpperAlnum(c) || c == '/' || c == '-' }

  predicate CallTripleAt(s: string, i: int)
  {
    0 <= i && i + 3 <= |s| && CallChar(s[i]) && CallChar(s[i + 1]) && CallChar(s[i + 2])
  }

  /** `re.search('[/A-Z0-9\-]{3,15}', s)`: three such characters in a row. */
  predicate HasCallRun(s: string)
  {
    exists i :: 0 <= i <= |s| - 3 && CallTripleAt(s, i)
  }

  /** The length of a trailing `-\d{1,3}`, 0 when `s` has none. */
  function SessionSuffixLen(s: string): (n: nat)
    ensures n <= |s|
    ensures n > 0 ==> 2 <= n <= 4 && s[|s| - n] == '-'
  {
    var t := TrailingRun(s, Digit);
    if 1 <= t <= 3 && t < |s| && s[|s| - t - 1] == '-' then t + 1 else 0
  }

  /** `re.search('/[A-Z0-9]{lo,hi}$', s)` */
  predicate EndsWithAppendix(s: string, lo: nat, hi: nat)
  {
    var y := TrailingRun(s, Alnum);
    lo <= y <= hi && y < |s| && s[|s| - y - 1] == '/'
  }

  /** The alphanumerics after the last slash. */
  function Appendix(s: string): string
  {
    s[|s| - TrailingRun(s, Alnum)..]
  }

  /** What is left once `/` and the appendix are cut off. */
  function BeforeAppendix(s: string): string
    requires TrailingRun(s, Alnum) < |s|
  {
    s[..|s| - TrailingRun(s, Alnum) - 1]
  }

  /** Lines 131-132: drop a `-NN` session suffix, working on the uppercased call from then
      on. Without a suffix the call keeps its original case. */
  function WithoutSessionSuffix(callsign: string): string
  {
    var entire := Upper(callsign);
    var n := SessionSuffixLen(entire);
    if n > 0 then entire[..|entire| - n] else callsign
  }

  /** Lines 134-135: `DH1TW/HC2/P` becomes `DH1TW/HC2`. */
  function WithoutSecondAppendix(c: string): string
  {
    if EndsWithAppendix(c, 1, 4) && EndsWithAppendix(BeforeAppendix(c), 1, 4) then BeforeAppendix(c)
    else c
  }

  /** The call the appendix rules look at. */
  function Cleaned(callsign: string): string
  {
    WithoutSecondAppendix(WithoutSessionSuffix(callsign))
  }

  /** `re.search('[A-Z0-9]{4,10}/[A-Z0-9]{2,4}$', c)` */
  predicate MultiAppendix(c: string)
  {
    EndsWithAppendix(c, 2, 4) && TrailingRun(BeforeAppendix(c), Alnum) >= 4
  }

  /** `re.search('/[A-Z0-9]$', c)` */
  predicate SingleAppendix(c: string)
  {
    |c| >= 2 && c[|c| - 2] == '/' && IsUpperAlnum(c[|c| - 1])
  }

  predicate LetterTripleAt(s: string, i: int)
  {
    0 <= i && i + 3 <= |s| && IsUpper(s[i]) && IsUpper(s[i + 1]) && IsUpper(s[i + 2])
  }

  /** `re.search('[A-Z]{3}', s)` */
  predicate HasLetterTriple(s: string)
  {
    exists i :: 0 <= i <= |s| - 3 && LetterTripleAt(s, i)
  }

  /** `re.search('/[A-Z]{3}$', s)` */
  predicate EndsWithSlashLetters(s: string)
  {
    |s| >= 4 && s[|s| - 4] == '/' && IsUpper(s[|s| - 3]) && IsUpper(s[|s| - 2]) && IsUpper(s[|s| - 1])
  }

  /** `len(re.findall(r'\\d+', s))`: the raw-string pattern is a backslash followed by `d`s,
      so this counts the places where `\d` is written out. */
  function BackslashDCount(s: string): nat
  {
    if |s| < 2 then 0
    else (if s[0] == '\\' && s[1] == 'd' then 1 else 0) + BackslashDCount(s[1..])
  }

  /** A call without a backslash never has the count 1, so the area digit is never
      written into it. */
  lemma {:induction false} NoBackslashNoCount(s: string)
    requires forall i :: 0 <= i < |s| ==> s[i] != '\\'
    ensures BackslashDCount(s) == 0
  {
    if |s| >= 2 {
      NoBackslashNoCount(s[1..]);
    }
  }

  /** `re.sub('[\d]+', d, s)`: every run of digits becomes the single digit `d`. */
  function ReplaceDigitRuns(s: string, d: char): (r: string)
    ensures (forall i :: 0 <= i < |s| ==> !IsDigit(s[i])) ==> r == s
    decreases |s|
  {
    if |s| == 0 then []
    else if IsDigit(s[0]) then
      var n := Run(s, 0, Digit);
      assert n >= 1;
      [d] + ReplaceDigitRuns(s[n..], d)
    else
      assert s == [s[0]] + s[1..];
      [s[0]] + ReplaceDigitRuns(s[1..], d)
  }

  /** A run of digits after a digit-free stretch becomes the single character `d`; the
      stretch is kept and the rest is rewritten in turn. */
  lemma ReplaceDigitRunsSplit(pre: string, digits: string, rest: string, d: char)
    requires forall i :: 0 <= i < |pre| ==> !IsDigit(pre[i])
    requires |digits| > 0 && forall i :: 0 <= i < |digits| ==> IsDigit(digits[i])
    requires |rest| == 0 || !IsDigit(rest[0])
    ensures ReplaceDigitRuns(pre + digits + rest, d) == pre + [d] + ReplaceDigitRuns(rest, d)
  {
    assert pre + digits + rest == pre + (digits + rest);
    ReplaceDigitRunsKeeps(pre, digits + rest, d);
    ReplaceDigitRunsHead(digits, rest, d);
  }

  /** A digit-free stretch in front is kept as it is. */
  lemma {:induction false} ReplaceDigitRunsKeeps(pre: string, tail: string, d: char)
    requires forall i :: 0 <= i < |pre| ==> !IsDigit(pre[i])
    ensures ReplaceDigitRuns(pre + tail, d) == pre + ReplaceDigitRuns(tail, d)
    decreases |pre|
  {
    if |pre| == 0 {
      assert pre + tail == tail;
    } else {
      var t := pre[1..] + tail;
      var r := ReplaceDigitRuns(tail, d);
      assert ReplaceDigitRuns(pre + tail, d) == [pre[0]] + ReplaceDigitRuns(t, d) by {
        assert pre + tail == [pre[0]] + t;
        ReplaceDigitRunsOther(pre[0], t, d);
      }
      assert ReplaceDigitRuns(t, d) == pre[1..] + r by {
        ReplaceDigitRunsKeeps(pre[1..], tail, d);
      }
      assert [pre[0]] + (pre[1..] + r) == pre + r by {
        assert pre == [pre[0]] + pre[1..];
      }
    }
  }

  /** A character that is not a digit is kept. */
  lemma ReplaceDigitRunsOther(c: char, t: string, d: char)
    requires !IsDigit(c)
    ensures ReplaceDigitRuns([c] + t, d) == [c] + ReplaceDigitRuns(t, d)
  {
    assert ([c] + t)[1..] == t;
  }

  /** A leading run of digits becomes `d`. */
  lemma ReplaceDigitRunsHead(digits: string, rest: string, d: char)
    requires |digits| > 0 && forall i :: 0 <= i < |digits| ==> IsDigit(digits[i])
    requires |rest| == 0 || !IsDigit(rest[0])
    ensures ReplaceDigitRuns(digits + rest, d) == [d] + ReplaceDigitRuns(rest, d)
  {
    var s := digits + rest;
    assert forall i :: 0 <= i < |digits| ==> s[i] == digits[i];
    RunStops(s, 0, |digits|, Digit);
    assert s[|digits|..] == rest;
  }

  /** `re.search('^[A-Z0-9]{1,4}/', e)` */
  predicate PrefixForm(e: string)
  {
    var p := Run(e, 0, Alnum);
    1 <= p <= 4 && p < |e| && e[p] == '/'
  }

  /** `re.search('/[A-Z0-9]+', e)` from `i` on, without the slash. */
  function FirstSlashRun(e: string, i: nat): (r: Option<string>)
    requires i <= |e|
    ensures r.Some? ==> |r.value| >= 1 && AllIn(r.value, Alnum)
    decreases |e| - i
  {
    if i == |e| then None
    else if e[i] == '/' && Run(e, i + 1, Alnum) >= 1 then
      RunAll(e, i + 1, Alnum);
      Some(e[i + 1..i + 1 + Run(e, i + 1, Alnum)])
    else FirstSlashRun(e, i + 1)
  }

  // ---------------------------------------------------------------------------------------
  // `_dismantle_callsign`

  /** What a branch of `_dismantle_callsign` ends with: a fixed record, one `_iterate_prefix`
      call on `call` at time `at` (with the beacon flag added to its answer when `beacon`),
      or `KeyError`. Every branch ends in exactly one of these, so the string rules can be
      stated apart from the lookups. */
  datatype Plan = Answer(rec: Record) | Search(call: string, at: int, beacon: bool) | Refuse

  /** `data = ....copy(); data[const.BEACON] = True` on success. */
  function Beacon(r: Result<Record>): (b: Result<Record>)
    ensures b.Ok? <==> r.Ok?
    ensures b.Ok? ==> b.value == WithBeacon(r.value)
    ensures b.Err? ==> b == r
  {
    match r
    case Ok(d) => Ok(WithBeacon(d))
    case Err(e) => Err(e)
  }

  /** Carrying out a plan against the lookup library. */
  function Execute(lib: LookupLib, plan: Plan): (r: Result<Record>)
    ensures r.Err? ==> r.error == KeyError
    ensures plan.Answer? ==> r == Ok(plan.rec)
    ensures plan.Refuse? ==> r == Err(KeyError)
    ensures plan.Search? ==> (r.Ok? <==> IteratePrefixSpec(lib, plan.call, plan.at).Ok?)
    ensures plan.Search? && !plan.beacon ==> r == IteratePrefixSpec(lib, plan.call, plan.at)
    ensures plan.Search? && plan.beacon && r.Ok? ==>
      r.value == WithBeacon(IteratePrefixSpec(lib, plan.call, plan.at).value)
  {
    match plan
    case Answer(rec) => Ok(rec)
    case Search(call, at, beacon) =>
      if beacon then Beacon(IteratePrefixSpec(lib, call, at)) else IteratePrefixSpec(lib, call, at)
    case Refuse => Err(KeyError)
  }

  /** The last resort, lines 224-228: the static table, searched without the timestamp. */
  function FromExceptions(exceptions: map<string, string>, entire: string, now: int): (p: Plan)
    ensures p.Refuse? <==> entire !in exceptions
    ensures entire in exceptions ==> p == Search(exceptions[entire], now, false)
  {
    if entire in exceptions then Search(exceptions[entire], now, false) else Refuse
  }

  /** Lines 138-182: `call/xxx` with an appendix of 2-4 characters. */
  function ResolveMultiAppendix(c: string, ts: int): (p: Plan)
    requires MultiAppendix(c)
    ensures !p.Refuse?
    ensures p.Answer? <==> Appendix(c) in {"MM", "AM"}
    ensures p.Answer? ==> p.rec == MaritimeMobile() || p.rec == AircraftMobile()
    ensures p.Search? ==> p.at == ts && (p.beacon <==> Appendix(c) == "BCN")
  {
    var app := Appendix(c);
    if app == "MM" then Answer(MaritimeMobile())
    else if app == "AM" then Answer(AircraftMobile())
    // QRP, QRPP, BCN and LH each remove their own marker `"/" + app`; the tests are
    // disjoint, so their order does not matter.
    else if app == "QRP" || app == "QRPP" || app == "LH" then Search(RemoveAll(c, "/" + app), ts, false)
    else if app == "BCN" then Search(RemoveAll(c, "/" + app), ts, true)
    else if HasLetterTriple(app) then Search(if EndsWithSlashLetters(c) then c[..|c| - 4] else c, ts, false)
    else Search(app, ts, false)
  }

  /** Lines 185-205: `call/x`. */
  function ResolveSingleAppendix(c: string, ts: int): (p: Plan)
    requires SingleAppendix(c)
    ensures p.Search? && p.at == ts
    ensures p.beacon <==> c[|c| - 1] == 'B'
  {
    var x := c[|c| - 1];
    if x == 'B' then Search(RemoveAll(c, "/B"), ts, true)
    else if IsDigit(x) then
      var base := c[..|c| - 2];
      Search(if BackslashDCount(base) == 1 then ReplaceDigitRuns(base, x) else base, ts, false)
    else Search(c, ts, false)
  }

  /** Lines 212-223: `PFX/CALL` is resolved as `PFX`, without the timestamp, when the run
      after the first slash is a whole callsign; with no such run the call is refused at
      once. */
  function ResolvePrefixForm(exceptions: map<string, string>, entire: string, now: int): (p: Plan)
    requires PrefixForm(entire)
    ensures !p.Answer?
    ensures p.Search? ==> p.at == now && !p.beacon
  {
    match FirstSlashRun(entire, 0)
    case None => Refuse
    case Some(rest) =>
      if IsCallsign(rest) then Search(entire[..Run(entire, 0, Alnum)], now, false)
      else FromExceptions(exceptions, entire, now)
  }

  /** Lines 128-223, once the call has three call characters in a row. */
  function DismantleRules(exceptions: map<string, string>, callsign: string, ts: int, now: int): (p: Plan)
    ensures p.Answer? ==> p.rec == MaritimeMobile() || p.rec == AircraftMobile()
    ensures p.Search? && p.beacon ==> p.at == ts
  {
    var entire := Upper(callsign);
    var c := Cleaned(callsign);
    if MultiAppendix(c) then ResolveMultiAppendix(c, ts)
    else if SingleAppendix(c) then ResolveSingleAppendix(c, ts)
    else if IsCallsign(c) then Search(c, ts, false)
    else if PrefixForm(entire) then ResolvePrefixForm(exceptions, entire, now)
    else FromExceptions(exceptions, entire, now)
  }

  /** The plan of `_dismantle_callsign(callsign, timestamp)`; `now` is the clock reading the
      two timestamp-less searches use. */
  function DismantlePlan(exceptions: map<string, string>, callsign: string, ts: int, now: int): (p: Plan)
    ensures !HasCallRun(Upper(callsign)) ==> p == FromExceptions(exceptions, Upper(callsign), now)
  {
    if HasCallRun(Upper(callsign)) then DismantleRules(exceptions, callsign, ts, now)
    else FromExceptions(exceptions, Upper(callsign), now)
  }

  /** `_dismantle_callsign(callsign, timestamp)` */
  function Dismantle(lib: LookupLib, exceptions: map<string, string>, callsign: string, ts: int, now: int)
    : (r: Result<Record>)
    ensures r.Err? ==> r.error == KeyError
  {
    Execute(lib, DismantlePlan(exceptions, callsign, ts, now))
  }

  // ---------------------------------------------------------------------------------------
  // `_lookup_callsign`, `get_all`, `is_valid_callsign`

  /** `_lookup_callsign(callsign, timestamp)` */
  function LookupCallsignData(lib: LookupLib, exceptions: map<string, string>, callsign: string, ts: int, now: int)
    : (r: Result<Record>)
    ensures r.Err? ==> r.error == KeyError
  {
    if IsInvalidOperation(lib, callsign, ts) == Ok(true) then Err(KeyError)
    else if CheckIfMm(callsign) then Ok(MaritimeMobile())
    else if CheckIfAm(callsign) then Ok(AircraftMobile())
    else match LookupCallsign(lib, callsign, ts)
      case Ok(d) =>
        var data: Record := if CheckIfBeacon(callsign) then WithBeacon(d) else d;
        Ok(data)
      case Err(_) => Dismantle(lib, exceptions, callsign, ts, now)
  }

  /** `data[const.CQZ] = cqz` when a zone exception was found, the data unchanged otherwise. */
  function WithZone(d: Record, zone: Result<Value>): (r: Record)
    ensures zone.Err? ==> r == d
    ensures zone.Ok? ==> (r.Keys == d.Keys + {CQZ} && r[CQZ] == zone.value
      && forall k :: k in d && k != CQZ ==> r[k] == d[k])
  {
    match zone
    case Ok(cqz) => d[CQZ := cqz]
    case Err(_) => d
  }

  /** `get_all(callsign, timestamp)` */
  function GetAll(lib: LookupLib, exceptions: map<string, string>, callsign: string, ts: int, now: int)
    : (r: Result<Record>)
    ensures r.Err? ==> r == LookupCallsignData(lib, exceptions, Upper(callsign), ts, now)
    ensures r.Ok? <==> LookupCallsignData(lib, exceptions, Upper(callsign), ts, now).Ok?
  {
    var u := Upper(callsign);
    var found := LookupCallsignData(lib, exceptions, u, ts, now);
    if found.Err? then found else Ok(WithZone(found.value, LookupZoneException(lib, u, ts)))
  }

  /** `is_valid_callsign`: `True` for a non-empty answer, `False` on `KeyError`, and `None`
      (the function falls off its end) for an empty answer. */
  function IsValidCallsign(lib: LookupLib, exceptions: map<string, string>, callsign: string, ts: int, now: int)
    : (r: Option<bool>)
    ensures r == Some(false) <==> GetAll(lib, exceptions, callsign, ts, now).Err?
    ensures r == Some(true) <==> GetAll(lib, exceptions, callsign, ts, now).Ok? && |GetAll(lib, exceptions, callsign, ts, now).value| > 0
  {
    match GetAll(lib, exceptions, callsign, ts, now)
    case Ok(d) => if |d| > 0 then Some(true) else None
    case Err(_) => Some(false)
  }
}
