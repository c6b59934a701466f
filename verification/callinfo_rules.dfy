/** What `_dismantle_callsign`, `_lookup_callsign` and `get_all` do with the usual shapes of
    compound callsigns: `CALL-NN`, `CALL/X/Y`, `CALL/XXX`, `CALL/X` and `PFX/CALL`. */
module CallInfoRules {
  import opened Text
  import opened Records
  import opened Lookup
  import opened Grammar
  import opened CallInfo

  // ---------------------------------------------------------------------------------------
  // Shapes of calls.

  /** A string without a lower-case letter is its own upper-case form. */
  lemma UpperOfUpperCase(s: string)
    requires IsUpperCase(s)
    ensures Upper(s) == s
  {
    UpperIsUpperCase(s);
  }

  lemma AlnumUpperCase(s: string)
    requires AllIn(s, Alnum)
    ensures IsUpperCase(s) && forall i :: 0 <= i < |s| ==> s[i] != '-' && s[i] != '/'
  {
    assert forall i :: 0 <= i < |s| ==> InClass(s[i], Alnum);
  }

  /** Joining two upper-case strings with a separator that is no lower-case letter. */
  lemma JoinUpperCase(a: string, sep: string, b: string)
    requires IsUpperCase(a) && IsUpperCase(sep) && IsUpperCase(b)
    ensures IsUpperCase(a + sep + b) && Upper(a + sep + b) == a + sep + b
  {
    var s := a + sep + b;
    assert forall i :: 0 <= i < |a| ==> s[i] == a[i];
    assert forall i :: |a| <= i < |a| + |sep| ==> s[i] == sep[i - |a|];
    assert forall i :: |a| + |sep| <= i < |s| ==> s[i] == b[i - |a| - |sep|];
    UpperOfUpperCase(s);
  }

  /** Without a dash there is no session suffix. */
  lemma NoDashNoSuffix(s: string)
    requires forall i :: 0 <= i < |s| ==> s[i] != '-'
    ensures SessionSuffixLen(s) == 0
  {
  }

  /** A string without a dash keeps its case and its text through the suffix step. */
  lemma NoDashKept(s: string)
    requires forall i :: 0 <= i < |s| ==> s[i] != '-'
    ensures WithoutSessionSuffix(s) == s
  {
    var e := Upper(s);
    assert forall i :: 0 <= i < |e| ==> e[i] != '-' by {
      assert forall i :: 0 <= i < |e| ==> e[i] == UpperChar(s[i]);
    }
    NoDashNoSuffix(e);
  }

  /** A string of `[A-Z0-9]` is its own trailing run. */
  lemma TrailingRunOfAlnum(s: string)
    requires AllIn(s, Alnum)
    ensures TrailingRun(s, Alnum) == |s|
  {
  }

  /** A call that ends with `/` and a run of `[A-Z0-9]` has no session suffix, whatever
      precedes the slash. */
  lemma SlashTailKept(pre: string, y: string)
    requires |y| >= 1 && AllIn(y, Alnum)
    ensures WithoutSessionSuffix(pre + "/" + y) == pre + "/" + y
  {
    var s := pre + "/" + y;
    var e := Upper(s);
    var m := |e| - |y|;
    assert s[m - 1] == '/';
    assert e[m - 1] == '/';
    forall k | m <= k < |e|
      ensures e[k] == y[k - m] && InClass(e[k], Alnum)
    {
      assert s[k] == y[k - m];
    }
    assert SessionSuffixLen(e) == 0;
  }

  /** The pieces of `BASE/APP` when `APP` is a run of `[A-Z0-9]`. */
  lemma PlainParts(base: string, app: string)
    requires AllIn(app, Alnum)
    ensures var c := base + "/" + app;
      TrailingRun(c, Alnum) == |app| && Appendix(c) == app && BeforeAppendix(c) == base
  {
    var c := base + "/" + app;
    TrailingRunAfter(base + "/", app, Alnum);
    assert c == (base + "/") + app;
    assert c[..|c| - |app| - 1] == base;
    assert c[|c| - |app|..] == app;
  }

  /** A string with a slash is never a callsign. */
  lemma PlainNotCallsign(base: string, app: string)
    ensures !IsCallsign(base + "/" + app)
  {
    var c := base + "/" + app;
    CallsignChars(c);
    assert !InClass(c[|base|], Alnum);
  }

  /** `BASE/APP` with both parts of `[A-Z0-9]`: upper case, one appendix `APP` after `BASE`,
      three call characters in a row and no callsign as a whole. */
  lemma PlainAppendix(base: string, app: string)
    requires |base| >= 1 && AllIn(base, Alnum) && |app| >= 1 && AllIn(app, Alnum)
    ensures var c := base + "/" + app;
      Upper(c) == c && TrailingRun(c, Alnum) == |app| && Appendix(c) == app
      && BeforeAppendix(c) == base && HasCallRun(c) && !IsCallsign(c)
  {
    AlnumUpperCase(base);
    AlnumUpperCase(app);
    JoinUpperCase(base, "/", app);
    PlainParts(base, app);
    PlainNotCallsign(base, app);
    var c := base + "/" + app;
    assert c[|base| - 1] == base[|base| - 1] && c[|base|] == '/' && c[|base| + 1] == app[0];
    assert CallTripleAt(c, |base| - 1);
  }

  /** ... and nothing for the cleaning steps to remove. */
  lemma PlainAppendixClean(base: string, app: string)
    requires |base| >= 1 && AllIn(base, Alnum) && |app| >= 1 && AllIn(app, Alnum)
    ensures Cleaned(base + "/" + app) == base + "/" + app
  {
    SlashTailKept(base, app);
    PlainParts(base, app);
    TrailingRunOfAlnum(base);
    assert !EndsWithAppendix(base, 1, 4);
  }

  /** `Dismantle` on an upper-case call with three call characters in a row: the rules run
      on the cleaned call, the fallbacks on the call itself. */
  lemma DismantleOn(exceptions: map<string, string>, s: string, ts: int, now: int)
    requires Upper(s) == s && HasCallRun(s)
    ensures var c := Cleaned(s);
      DismantlePlan(exceptions, s, ts, now)
      == if MultiAppendix(c) then ResolveMultiAppendix(c, ts)
         else if SingleAppendix(c) then ResolveSingleAppendix(c, ts)
         else if IsCallsign(c) then Search(c, ts, false)
         else if PrefixForm(s) then ResolvePrefixForm(exceptions, s, now)
         else FromExceptions(exceptions, s, now)
  {
  }

  /** `Dismantle` on `BASE/APP`: the appendix rules, or else the prefix-form and table
      fallbacks on the same string. */
  lemma DismantlePlain(exceptions: map<string, string>, base: string, app: string, ts: int, now: int)
    requires |base| >= 1 && AllIn(base, Alnum) && |app| >= 1 && AllIn(app, Alnum)
    ensures var c := base + "/" + app;
      DismantlePlan(exceptions, c, ts, now)
      == if MultiAppendix(c) then ResolveMultiAppendix(c, ts)
         else if SingleAppendix(c) then ResolveSingleAppendix(c, ts)
         else if PrefixForm(c) then ResolvePrefixForm(exceptions, c, now)
         else FromExceptions(exceptions, c, now)
  {
    PlainAppendix(base, app);
    PlainAppendixClean(base, app);
    DismantleOn(exceptions, base + "/" + app, ts, now);
  }

  // ---------------------------------------------------------------------------------------
  // Session suffix and second appendix (lines 131-135).

  /** A trailing `-` and 1-3 digits is cut off before anything else is looked at. */
  lemma SessionSuffixDropped(c: string, n: string)
    requires IsUpperCase(c) && (forall i :: 0 <= i < |c| ==> c[i] != '-')
    requires 1 <= |n| <= 3 && AllIn(n, Digit)
    ensures WithoutSessionSuffix(c + "-" + n) == c == WithoutSessionSuffix(c)
    ensures Cleaned(c + "-" + n) == Cleaned(c)
  {
    var s := c + "-" + n;
    assert IsUpperCase(n) by {
      assert forall i :: 0 <= i < |n| ==> InClass(n[i], Digit);
    }
    JoinUpperCase(c, "-", n);
    TrailingRunAfter(c + "-", n, Digit);
    assert s == (c + "-") + n;
    assert s[|s| - |n| - 1] == '-';
    assert s[..|s| - (|n| + 1)] == c;
    NoDashKept(c);
  }

  /** A second appendix is dropped: `BASE/X/Y` is treated as `BASE/X`, whatever `BASE` is. */
  lemma SecondAppendixDropped(base: string, x: string, y: string)
    requires 1 <= |x| <= 4 && AllIn(x, Alnum) && 1 <= |y| <= 4 && AllIn(y, Alnum)
    ensures Cleaned(base + "/" + x + "/" + y) == base + "/" + x
  {
    var bx := base + "/" + x;
    SlashTailKept(bx, y);
    PlainParts(bx, y);
    PlainParts(base, x);
    assert EndsWithAppendix(bx + "/" + y, 1, 4);
    assert EndsWithAppendix(bx, 1, 4);
  }

  /** A call with a one-letter appendix and a second appendix resolves as the call with the
      first appendix only: "SV8GXQ/P/QRP" as "SV8GXQ/P". */
  lemma SecondAppendixResolves(exceptions: map<string, string>, base: string, x: char, y: string, ts: int, now: int)
    requires |base| >= 1 && AllIn(base, Alnum) && IsUpper(x) && x != 'B'
    requires 1 <= |y| <= 4 && AllIn(y, Alnum)
    ensures DismantlePlan(exceptions, base + "/" + [x] + "/" + y, ts, now)
      == Search(base + "/" + [x], ts, false)
  {
    var c := base + "/" + [x];
    assert AllIn([x], Alnum);
    SecondAppendixDropped(base, [x], y);
    PlainAppendix(base, [x]);
    UpperIsUpperCase(c);
    AlnumUpperCase(y);
    JoinUpperCase(c, "/", y);
    CallRunExtends(c, "/");
    CallRunExtends(c + "/", y);
    DismantleOn(exceptions, c + "/" + y, ts, now);
    SingleAppendixShape(base, x);
  }

  // ---------------------------------------------------------------------------------------
  // Regular calls (lines 207-209).

  /** A bare callsign goes straight to the prefix search at the given timestamp. */
  lemma RegularCallResolves(exceptions: map<string, string>, c: string, ts: int, now: int)
    requires IsCallsign(c)
    ensures DismantlePlan(exceptions, c, ts, now) == Search(c, ts, false)
  {
    RegularCallShape(c);
    DismantleOn(exceptions, c, ts, now);
  }

  lemma RegularCallShape(c: string)
    requires IsCallsign(c)
    ensures IsUpperCase(c) && Upper(c) == c && Cleaned(c) == c && HasCallRun(c)
    ensures forall i :: 0 <= i < |c| ==> c[i] != '-'
    ensures !MultiAppendix(c) && !SingleAppendix(c)
  {
    CallsignChars(c);
    AlnumUpperCase(c);
    UpperOfUpperCase(c);
    NoDashKept(c);
    TrailingRunOfAlnum(c);
    assert !EndsWithAppendix(c, 1, 4);
    assert InClass(c[0], Alnum) && InClass(c[1], Alnum) && InClass(c[2], Alnum);
    assert CallTripleAt(c, 0);
    assert InClass(c[|c| - 2], Alnum);
  }

  /** Three call characters in a row stay when something is appended. */
  lemma CallRunExtends(a: string, b: string)
    requires HasCallRun(a)
    ensures HasCallRun(a + b)
  {
    var i :| 0 <= i <= |a| - 3 && CallTripleAt(a, i);
    assert (a + b)[i] == a[i] && (a + b)[i + 1] == a[i + 1] && (a + b)[i + 2] == a[i + 2];
    assert CallTripleAt(a + b, i);
  }

  lemma DigitsUpperCase(n: string)
    requires AllIn(n, Digit)
    ensures IsUpperCase(n)
  {
    assert forall i :: 0 <= i < |n| ==> InClass(n[i], Digit);
  }

  /** The same with a session suffix `-N`, `-NN` or `-NNN`. */
  lemma SessionSuffixResolves(exceptions: map<string, string>, c: string, n: string, ts: int, now: int)
    requires IsCallsign(c) && 1 <= |n| <= 3 && AllIn(n, Digit)
    ensures DismantlePlan(exceptions, c + "-" + n, ts, now) == Search(c, ts, false)
  {
    RegularCallShape(c);
    SessionSuffixDropped(c, n);
    DigitsUpperCase(n);
    JoinUpperCase(c, "-", n);
    CallRunExtends(c, "-");
    CallRunExtends(c + "-", n);
    DismantleOn(exceptions, c + "-" + n, ts, now);
  }

  // ---------------------------------------------------------------------------------------
  // Appendices of 2-4 characters (lines 138-182).

  lemma MultiAppendixShape(base: string, app: string)
    requires |base| >= 4 && AllIn(base, Alnum) && 2 <= |app| <= 4 && AllIn(app, Alnum)
    ensures MultiAppendix(base + "/" + app) && Appendix(base + "/" + app) == app
  {
    PlainParts(base, app);
    TrailingRunOfAlnum(base);
  }

  /** Removing the marker `/APP` from `BASE/APP` gives `BASE` back. */
  lemma MarkerRemoved(base: string, app: string)
    requires AllIn(base, Alnum)
    ensures RemoveAll(base + "/" + app, "/" + app) == base
  {
    AlnumUpperCase(base);
    RemoveAllTrailing(base, "/" + app);
    assert base + "/" + app == base + ("/" + app);
  }

  /** The branches of lines 138-182, read off the appendix. */
  lemma MultiAppendixCases(c: string, ts: int)
    requires MultiAppendix(c)
    ensures var app := Appendix(c);
      var p := ResolveMultiAppendix(c, ts);
      (app == "MM" ==> p == Answer(MaritimeMobile()))
      && (app == "AM" ==> p == Answer(AircraftMobile()))
      && (app == "QRP" || app == "QRPP" || app == "LH" ==> p == Search(RemoveAll(c, "/" + app), ts, false))
      && (app == "BCN" ==> p == Search(RemoveAll(c, "/" + app), ts, true))
      && (app !in {"MM", "AM", "QRP", "QRPP", "BCN", "LH"} && HasLetterTriple(app)
          ==> p == Search(if EndsWithSlashLetters(c) then c[..|c| - 4] else c, ts, false))
      && (app !in {"MM", "AM", "QRP", "QRPP", "BCN", "LH"} && !HasLetterTriple(app)
          ==> p == Search(app, ts, false))
  {
  }

  /** Three letters in a row in a 2-4 character appendix are cut off when they are the whole
      appendix, and otherwise the call stays as it is. */
  lemma LetterTripleShape(base: string, app: string)
    requires |base| >= 1 && 2 <= |app| <= 4 && AllIn(app, Alnum) && HasLetterTriple(app)
    ensures var c := base + "/" + app;
      (if EndsWithSlashLetters(c) then c[..|c| - 4] else c) == if |app| == 3 then base else c
  {
    var c := base + "/" + app;
    var i :| 0 <= i <= |app| - 3 && LetterTripleAt(app, i);
    if |app| == 3 {
      assert c[|c| - 3] == app[0] && c[|c| - 2] == app[1] && c[|c| - 1] == app[2];
      assert c[..|c| - 4] == base;
    } else {
      assert c[|c| - 4] == app[0];
      assert InClass(app[0], Alnum);
    }
  }

  /** A `CALL/XXX` with a base of at least four characters and an appendix of two to four:
      `MM` and `AM` give the fixed mobile records; `QRP`, `QRPP` and `LH` resolve the base,
      `BCN` too with the beacon flag; three letters in a row are cut off; any other appendix
      is itself resolved as a prefix, so "HC2AO/DL" resolves as "DL". */
  lemma MultiAppendixRules(exceptions: map<string, string>, base: string, app: string, ts: int, now: int)
    requires |base| >= 4 && AllIn(base, Alnum) && 2 <= |app| <= 4 && AllIn(app, Alnum)
    ensures var p := DismantlePlan(exceptions, base + "/" + app, ts, now);
      (app == "MM" ==> p == Answer(MaritimeMobile()))
      && (app == "AM" ==> p == Answer(AircraftMobile()))
      && (app == "QRP" || app == "QRPP" || app == "LH" ==> p == Search(base, ts, false))
      && (app == "BCN" ==> p == Search(base, ts, true))
      && (app !in {"MM", "AM", "QRP", "QRPP", "BCN", "LH"} && HasLetterTriple(app)
          ==> p == Search(if |app| == 3 then base else base + "/" + app, ts, false))
      && (app !in {"MM", "AM", "QRP", "QRPP", "BCN", "LH"} && !HasLetterTriple(app)
          ==> p == Search(app, ts, false))
  {
    var c := base + "/" + app;
    DismantlePlain(exceptions, base, app, ts, now);
    MultiAppendixShape(base, app);
    MultiAppendixCases(c, ts);
    MarkerRemoved(base, app);
    if HasLetterTriple(app) {
      LetterTripleShape(base, app);
    }
  }

  // ---------------------------------------------------------------------------------------
  // One-character appendices (lines 185-205).

  lemma SingleAppendixShape(base: string, x: char)
    requires |base| >= 1 && AllIn(base, Alnum) && IsUpperAlnum(x)
    ensures var c := base + "/" + [x];
      !MultiAppendix(c) && SingleAppendix(c) && c[|c| - 1] == x && c[..|c| - 2] == base
  {
    assert AllIn([x], Alnum);
    PlainParts(base, [x]);
  }

  /** The branches of lines 185-205, read off the last character. */
  lemma SingleAppendixCases(c: string, ts: int)
    requires SingleAppendix(c)
    ensures var x := c[|c| - 1];
      var base := c[..|c| - 2];
      var p := ResolveSingleAppendix(c, ts);
      (x == 'B' ==> p == Search(RemoveAll(c, "/B"), ts, true))
      && (IsDigit(x) && BackslashDCount(base) != 1 ==> p == Search(base, ts, false))
      && (x != 'B' && !IsDigit(x) ==> p == Search(c, ts, false))
  {
  }

  lemma BeaconMarker(x: char)
    requires x == 'B'
    ensures "/" + [x] == "/B"
  {
  }

  /** A run of `[A-Z0-9]` has no `\d` in it. */
  lemma AlnumNoCount(s: string)
    requires AllIn(s, Alnum)
    ensures BackslashDCount(s) == 0
  {
    assert forall i :: 0 <= i < |s| ==> InClass(s[i], Alnum);
    NoBackslashNoCount(s);
  }

  /** A `CALL/X`: `B` marks a beacon, which is cut off and flagged; a digit is cut off and the
      call area is left as it is; any other character stays and the whole call is searched. */
  lemma SingleAppendixRules(exceptions: map<string, string>, base: string, x: char, ts: int, now: int)
    requires |base| >= 1 && AllIn(base, Alnum) && IsUpperAlnum(x)
    ensures var r := DismantlePlan(exceptions, base + "/" + [x], ts, now);
      (x == 'B' ==> r == Search(base, ts, true))
      && (IsDigit(x) ==> r == Search(base, ts, false))
      && (x != 'B' && !IsDigit(x) ==> r == Search(base + "/" + [x], ts, false))
  {
    var c := base + "/" + [x];
    assert AllIn([x], Alnum);
    DismantlePlain(exceptions, base, [x], ts, now);
    SingleAppendixShape(base, x);
    SingleAppendixCases(c, ts);
    if x == 'B' {
      MarkerRemoved(base, [x]);
      BeaconMarker(x);
    } else if IsDigit(x) {
      AlnumNoCount(base);
    }
  }

  // ---------------------------------------------------------------------------------------
  // Prefix overrides (lines 212-228).

  /** Before the first slash, `FirstSlashRun` finds the same run as from the slash on. */
  lemma {:induction false} FirstSlashRunSkip(e: string, i: nat, j: nat)
    requires i <= j <= |e|
    requires forall k :: i <= k < j ==> e[k] != '/'
    ensures FirstSlashRun(e, i) == FirstSlashRun(e, j)
    decreases j - i
  {
    if i < j {
      FirstSlashRunSkip(e, i + 1, j);
    }
  }

  /** In `PFX/REST` the run at the start is `PFX` and the slash follows it. */
  lemma PrefixRun(pfx: string, rest: string)
    requires 1 <= |pfx| <= 4 && AllIn(pfx, Alnum) && |rest| >= 1
    ensures var e := pfx + "/" + rest;
      PrefixForm(e) && Run(e, 0, Alnum) == |pfx| && e[..|pfx|] == pfx
  {
    var e := pfx + "/" + rest;
    assert forall k :: 0 <= k < |pfx| ==> e[k] == pfx[k] && InClass(e[k], Alnum);
    RunStops(e, 0, |pfx|, Alnum);
  }

  /** After the slash of `PRE/REST` the run is the whole of `REST`. */
  lemma RunAfterSlash(pre: string, rest: string)
    requires AllIn(rest, Alnum)
    ensures var e := pre + "/" + rest;
      e[|pre|] == '/' && Run(e, |pre| + 1, Alnum) == |rest| && e[|pre| + 1..] == rest
  {
    var e := pre + "/" + rest;
    var m := |pre| + 1;
    forall k | m <= k < |e|
      ensures e[k] == rest[k - m] && InClass(e[k], Alnum)
    {
      assert e == (pre + "/") + rest;
    }
    RunStops(e, m, |e|, Alnum);
    assert e[m..] == rest;
  }

  /** In `PFX/REST` the first run after a slash is `REST`. */
  lemma PrefixSlashRun(pfx: string, rest: string)
    requires AllIn(pfx, Alnum) && |rest| >= 1 && AllIn(rest, Alnum)
    ensures FirstSlashRun(pfx + "/" + rest, 0) == Some(rest)
  {
    var e := pfx + "/" + rest;
    AlnumUpperCase(pfx);
    forall k | 0 <= k < |pfx|
      ensures e[k] != '/'
    {
      assert e == pfx + ("/" + rest);
    }
    FirstSlashRunSkip(e, 0, |pfx|);
    RunAfterSlash(pfx, rest);
    assert e[|pfx| + 1..|pfx| + 1 + |rest|] == e[|pfx| + 1..];
    assert FirstSlashRun(e, |pfx|) == Some(e[|pfx| + 1..|pfx| + 1 + |rest|]);
  }

  /** `PFX/REST` with a prefix of 1-4 characters and a longer rest is no appendix form. */
  lemma PrefixNoAppendix(pfx: string, rest: string)
    requires 1 <= |pfx| <= 4 && AllIn(pfx, Alnum) && |rest| >= 2 && AllIn(rest, Alnum)
    requires |pfx| < 4 || |rest| > 4
    ensures var e := pfx + "/" + rest;
      !MultiAppendix(e) && !SingleAppendix(e)
  {
    var e := pfx + "/" + rest;
    PlainParts(pfx, rest);
    TrailingRunOfAlnum(pfx);
    assert e[|e| - 2] == rest[|rest| - 2];
    assert InClass(e[|e| - 2], Alnum);
  }

  /** `PFX/REST` with a prefix of 1-4 characters that the appendix rules leave alone: when
      `REST` is a whole callsign the prefix is searched, at "now" rather than at the
      timestamp, so "C6A/9H5A" resolves as "C6A"; otherwise ("OZ/JO85") only the exceptions
      table can answer. */
  lemma PrefixOverride(exceptions: map<string, string>, pfx: string, rest: string, ts: int, now: int)
    requires 1 <= |pfx| <= 4 && AllIn(pfx, Alnum) && |rest| >= 2 && AllIn(rest, Alnum)
    requires |pfx| < 4 || |rest| > 4
    ensures DismantlePlan(exceptions, pfx + "/" + rest, ts, now)
      == if IsCallsign(rest) then Search(pfx, now, false)
         else FromExceptions(exceptions, pfx + "/" + rest, now)
  {
    DismantlePlain(exceptions, pfx, rest, ts, now);
    PrefixNoAppendix(pfx, rest);
    PrefixRun(pfx, rest);
    PrefixSlashRun(pfx, rest);
  }

  // ---------------------------------------------------------------------------------------
  // `_lookup_callsign` and `get_all` (lines 230-325).

  /** An invalid operation is refused before any other rule, even for `/MM` and `/AM`. */
  lemma InvalidOperationFirst(lib: LookupLib, exceptions: map<string, string>, callsign: string, ts: int, now: int)
    requires IsInvalidOperation(lib, callsign, ts).Ok?
    ensures LookupCallsignData(lib, exceptions, callsign, ts, now) == Err(KeyError)
  {
  }

  /** Unless the operation is invalid, a call ending in `/MM` or `/AM`, in any case, gets the
      fixed mobile record whatever the tables say. */
  lemma MobileShortCircuit(lib: LookupLib, exceptions: map<string, string>, callsign: string, ts: int, now: int)
    requires IsInvalidOperation(lib, callsign, ts).Err? && |callsign| >= 3
    ensures Upper(callsign[|callsign| - 3..]) == "/MM"
      ==> LookupCallsignData(lib, exceptions, callsign, ts, now) == Ok(MaritimeMobile())
    ensures Upper(callsign[|callsign| - 3..]) == "/AM"
      ==> LookupCallsignData(lib, exceptions, callsign, ts, now) == Ok(AircraftMobile())
  {
  }

  /** An exact entry for the call is returned as stored, with `beacon` set when `/B` occurs in
      the last four characters; every other key keeps its value. */
  lemma ExactMatchWins(lib: LookupLib, exceptions: map<string, string>, callsign: string, ts: int, now: int)
    requires IsInvalidOperation(lib, callsign, ts).Err? && !CheckIfMm(callsign) && !CheckIfAm(callsign)
    requires LookupCallsign(lib, callsign, ts).Ok?
    ensures var d := LookupCallsign(lib, callsign, ts).value;
      var r := LookupCallsignData(lib, exceptions, callsign, ts, now);
      var beacon := Contains(Upper(Last(callsign, 4)), "/B");
      r.Ok? && (forall k :: k in d && k != BEACON ==> k in r.value && r.value[k] == d[k])
      && (beacon ==> r.value.Keys == d.Keys + {BEACON} && r.value[BEACON] == Bool(true))
      && (!beacon ==> r.value == d)
  {
  }

  /** A valid, non-mobile call with no exact entry is dismantled: the prefix rules decide. */
  lemma FallsBackToDismantle(lib: LookupLib, exceptions: map<string, string>, callsign: string, ts: int, now: int)
    requires IsInvalidOperation(lib, callsign, ts) != Ok(true) && !CheckIfMm(callsign) && !CheckIfAm(callsign)
    requires LookupCallsign(lib, callsign, ts).Err?
    ensures LookupCallsignData(lib, exceptions, callsign, ts, now) == Dismantle(lib, exceptions, callsign, ts, now)
  {
  }

  /** The zone exception overrides `cqz` and nothing else; without one the answer is the
      callsign lookup's, and `get_all` fails exactly when that lookup fails. */
  lemma GetAllZone(lib: LookupLib, exceptions: map<string, string>, callsign: string, ts: int, now: int)
    ensures var u := Upper(callsign);
      var d := LookupCallsignData(lib, exceptions, u, ts, now);
      var z := LookupZoneException(lib, u, ts);
      var r := GetAll(lib, exceptions, callsign, ts, now);
      (r.Ok? <==> d.Ok?) && (r.Err? ==> r == d)
      && (r.Ok? && z.Ok? ==>
            r.value.Keys == d.value.Keys + {CQZ} && r.value[CQZ] == z.value
            && (forall k :: k in d.value && k != CQZ ==> r.value[k] == d.value[k]))
      && (z.Err? ==> r == d)
  {
  }

  /** `get_all` uppercases first, so the case of the input does not matter. */
  lemma GetAllCaseInsensitive(lib: LookupLib, exceptions: map<string, string>, callsign: string, ts: int, now: int)
    ensures GetAll(lib, exceptions, callsign, ts, now) == GetAll(lib, exceptions, Upper(callsign), ts, now)
    ensures IsValidCallsign(lib, exceptions, callsign, ts, now) == IsValidCallsign(lib, exceptions, Upper(callsign), ts, now)
  {
    UpperIsUpperCase(callsign);
    UpperOfUpperCase(Upper(callsign));
  }
}
