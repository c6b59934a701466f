/** The bare-callsign pattern of `Callinfo`,
      [\d]{0,1}[A-Z]{1,2}\d([A-Z]{1,4}|\d{3,3}|\d{1,3}[A-Z])[A-Z]{0,5}
    as a whole-string test (`re.match` with `^...$`) and as Python's leftmost-first
    `re.search`, together with the character runs the other patterns are built from. */
module Grammar {
  import opened Text

  /** `[0-9]`, `[A-Z]` and `[A-Z0-9]`. */
  datatype CharClass = Digit | Letter | Alnum

  predicate InClass(c: char, cls: CharClass)
  {
    match cls
    case Digit => IsDigit(c)
    case Letter => IsUpper(c)
    case Alnum => IsUpperAlnum(c)
  }

  predicate AllIn(s: string, cls: CharClass)
  {
    forall k :: 0 <= k < |s| ==> InClass(s[k], cls)
  }

  function Min(a: int, b: int): int { if a <= b then a else b }

  /** The length of the longest run of `cls` characters starting at `i`. */
  function Run(s: string, i: nat, cls: CharClass): (n: nat)
    ensures i <= |s| ==> i + n <= |s|
    ensures i >= |s| ==> n == 0
    ensures i + n < |s| ==> !InClass(s[i + n], cls)
    decreases |s| - i
  {
    if i < |s| && InClass(s[i], cls) then 1 + Run(s, i + 1, cls) else 0
  }

  /** Every character of the run is in the class. */
  lemma {:induction false} RunAll(s: string, i: nat, cls: CharClass)
    ensures forall k :: i <= k < i + Run(s, i, cls) ==> InClass(s[k], cls)
    decreases |s| - i
  {
    if i < |s| && InClass(s[i], cls) {
      RunAll(s, i + 1, cls);
    }
  }

  /** The length of the longest run of `cls` characters ending the string. */
  function TrailingRun(s: string, cls: CharClass): (n: nat)
    ensures n <= |s|
    ensures forall k :: |s| - n <= k < |s| ==> InClass(s[k], cls)
    ensures n < |s| ==> !InClass(s[|s| - n - 1], cls)
  {
    if |s| > 0 && InClass(s[|s| - 1], cls) then 1 + TrailingRun(s[..|s| - 1], cls) else 0
  }

  // ---------------------------------------------------------------------------------------
  // The pattern read as a regular language.

  /** `([A-Z]{1,4}|\d{3,3}|\d{1,3}[A-Z])` */
  predicate Middle(t: string)
  {
    (1 <= |t| <= 4 && AllIn(t, Letter))
    || (|t| == 3 && AllIn(t, Digit))
    || (2 <= |t| <= 4 && AllIn(t[..|t| - 1], Digit) && IsUpper(t[|t| - 1]))
  }

  /** `s` splits as `s[..a]` (0-1 digits), `s[a..b]` (1-2 letters), the digit `s[b]`,
      `s[b + 1..c]` (the alternation) and `s[c..]` (0-5 letters). */
  ghost predicate Splits(s: string, a: int, b: int, c: int)
  {
    0 <= a <= 1 && a + 1 <= b <= a + 2 && b + 1 <= c <= |s|
    && AllIn(s[..a], Digit) && AllIn(s[a..b], Letter) && IsDigit(s[b])
    && Middle(s[b + 1..c]) && |s| - c <= 5 && AllIn(s[c..], Letter)
  }

  ghost predicate InCallsignLanguage(s: string)
  {
    exists a, b, c :: Splits(s, a, b, c)
  }

  // ---------------------------------------------------------------------------------------
  // The same language, decided by one left-to-right scan.

  /** Reads the optional leading digit, 1-2 letters and the area digit from `p` on; the
      position just past the area digit, if they are there. */
  function HeadEnd(s: string, p: nat): (r: Option<nat>)
    requires p <= |s|
    ensures r.Some? ==> p + 2 <= r.value <= |s| && IsDigit(s[r.value - 1])
  {
    var d := if p < |s| && IsDigit(s[p]) then 1 else 0;
    var l := Run(s, p + d, Letter);
    var q := p + d + l;
    if 1 <= l <= 2 && q < |s| && IsDigit(s[q]) then Some(q + 1) else None
  }

  /** After the area digit: `k` further digits, then `m` letters, as the alternation and the
      final `[A-Z]{0,5}` allow. */
  predicate RootTailOk(k: nat, m: nat)
  {
    (k == 0 && 1 <= m <= 9) || (1 <= k <= 2 && 1 <= m <= 6) || (k == 3 && m <= 6)
  }

  /** Everything from `r` to the end is an allowed tail. */
  predicate TailOk(t: string, r: nat)
    requires r <= |t|
  {
    var k := Run(t, r, Digit);
    k <= 3 && AllIn(t[r + k..], Letter) && RootTailOk(k, |t| - (r + k))
  }

  /** `re.match('^[\d]{0,1}[A-Z]{1,2}\d(...)[A-Z]{0,5}$', s)` */
  predicate IsCallsign(s: string)
  {
    var h := HeadEnd(s, 0);
    h.Some? && TailOk(s, h.value)
  }

  lemma SliceAllIn(s: string, x: nat, y: nat, cls: CharClass)
    requires x <= y <= |s|
    requires forall j :: x <= j < y ==> InClass(s[j], cls)
    ensures AllIn(s[x..y], cls)
  {
    assert forall j :: 0 <= j < y - x ==> s[x..y][j] == s[x + j];
  }

  lemma AllInSlice(s: string, x: nat, y: nat, cls: CharClass)
    requires x <= y <= |s|
    requires AllIn(s[x..y], cls)
    ensures forall j :: x <= j < y ==> InClass(s[j], cls)
  {
    forall j | x <= j < y
      ensures InClass(s[j], cls)
    {
      assert s[x..y][j - x] == s[j];
    }
  }

  /** A run that is followed by a character outside its class ends exactly there. */
  lemma {:induction false} RunStops(s: string, i: nat, e: nat, cls: CharClass)
    requires i <= e <= |s|
    requires forall j :: i <= j < e ==> InClass(s[j], cls)
    requires e == |s| || !InClass(s[e], cls)
    ensures Run(s, i, cls) == e - i
    decreases e - i
  {
    if i < e {
      RunStops(s, i + 1, e, cls);
    }
  }

  /** The scan decides the pattern: both directions. */
  lemma CallsignLanguage(s: string)
    ensures IsCallsign(s) <==> InCallsignLanguage(s)
  {
    if IsCallsign(s) {
      ScanGivesSplit(s);
    }
    if InCallsignLanguage(s) {
      var a, b, c :| Splits(s, a, b, c);
      SplitGivesScan(s, a, b, c);
    }
  }

  lemma ScanGivesSplit(s: string)
    requires IsCallsign(s)
    ensures InCallsignLanguage(s)
  {
    var r := HeadEnd(s, 0).value;
    var d := if IsDigit(s[0]) then 1 else 0;
    RunAll(s, d, Letter);
    SliceAllIn(s, 0, d, Digit);
    SliceAllIn(s, d, r - 1, Letter);
    var c := MiddleOfTail(s, r);
    assert Splits(s, d, r - 1, c);
  }

  /** Where the alternation ends inside an allowed tail. */
  lemma MiddleOfTail(s: string, r: nat) returns (c: nat)
    requires r <= |s| && TailOk(s, r)
    ensures r + 1 <= c <= |s| && Middle(s[r..c]) && |s| - c <= 5 && AllIn(s[c..], Letter)
  {
    var k := Run(s, r, Digit);
    var m := |s| - (r + k);
    RunAll(s, r, Digit);
    AllInSlice(s, r + k, |s|, Letter);
    if k == 0 {
      c := r + Min(m, 4);
      SliceAllIn(s, r, c, Letter);
    } else if k == 3 && m <= 5 {
      c := r + 3;
      SliceAllIn(s, r, c, Digit);
    } else {
      c := r + k + 1;
      SliceAllIn(s, r, r + k, Digit);
      assert s[r..c][..k] == s[r..r + k];
    }
    SliceAllIn(s, c, |s|, Letter);
  }

  lemma SplitGivesScan(s: string, a: int, b: int, c: int)
    requires Splits(s, a, b, c)
    ensures IsCallsign(s)
  {
    HeadOfSplit(s, a, b, c);
    AllInSlice(s, c, |s|, Letter);
    TailOfSplit(s, b, c);
  }

  lemma HeadOfSplit(s: string, a: int, b: int, c: int)
    requires Splits(s, a, b, c)
    ensures HeadEnd(s, 0) == Some(b + 1)
  {
    AllInSlice(s, a, b, Letter);
    if a == 1 {
      AllInSlice(s, 0, 1, Digit);
    }
    RunStops(s, a, b, Letter);
  }

  lemma TailOfSplit(s: string, b: nat, c: nat)
    requires b + 1 <= c <= |s| && Middle(s[b + 1..c]) && |s| - c <= 5
    requires forall j :: c <= j < |s| ==> InClass(s[j], Letter)
    ensures TailOk(s, b + 1)
  {
    var mid := s[b + 1..c];
    if 1 <= |mid| <= 4 && AllIn(mid, Letter) {
      TailOfLetters(s, b + 1, c);
    } else if |mid| == 3 && AllIn(mid, Digit) {
      TailOfDigits(s, b + 1, c);
    } else {
      TailOfDigitsLetter(s, b + 1, c);
    }
    assert TailOk(s, b + 1);
  }

  /** The alternation took letters: the whole tail is letters. */
  lemma TailOfLetters(s: string, r: nat, c: nat)
    requires r < c <= |s| && c - r <= 4 && AllIn(s[r..c], Letter) && |s| - c <= 5
    requires forall j :: c <= j < |s| ==> InClass(s[j], Letter)
    ensures TailOk(s, r)
  {
    AllInSlice(s, r, c, Letter);
    assert InClass(s[r], Letter);
    assert Run(s, r, Digit) == 0;
    SliceAllIn(s, r, |s|, Letter);
  }

  /** The alternation took three digits. */
  lemma TailOfDigits(s: string, r: nat, c: nat)
    requires c == r + 3 <= |s| && AllIn(s[r..c], Digit) && |s| - c <= 5
    requires forall j :: c <= j < |s| ==> InClass(s[j], Letter)
    ensures TailOk(s, r)
  {
    AllInSlice(s, r, c, Digit);
    RunStops(s, r, c, Digit);
    SliceAllIn(s, c, |s|, Letter);
  }

  /** The alternation took one to three digits and a letter. */
  lemma TailOfDigitsLetter(s: string, r: nat, c: nat)
    requires r + 2 <= c <= r + 4 && c <= |s| && |s| - c <= 5
    requires AllIn(s[r..c][..c - r - 1], Digit) && IsUpper(s[c - 1])
    requires forall j :: c <= j < |s| ==> InClass(s[j], Letter)
    ensures TailOk(s, r)
  {
    assert s[r..c - 1] == s[r..c][..c - r - 1];
    AllInSlice(s, r, c - 1, Digit);
    RunStops(s, r, c - 1, Digit);
    SliceAllIn(s, c - 1, |s|, Letter);
  }

  /** Inside a slice a run is cut off at the slice's end. */
  lemma {:induction false} RunInSlice(s: string, p: nat, e: nat, i: nat, cls: CharClass)
    requires p <= i <= e <= |s|
    ensures Run(s[p..e], i - p, cls) == Min(Run(s, i, cls), e - i)
    decreases e - i
  {
    if i < e {
      assert s[p..e][i - p] == s[i];
      if InClass(s[i], cls) {
        RunInSlice(s, p, e, i + 1, cls);
      }
    }
  }


  /** The head read inside `s[p..e]` is the head read in `s` from `p`, as long as it fits. */
  lemma HeadInSlice(s: string, p: nat, e: nat)
    requires p <= e <= |s|
    ensures HeadEnd(s[p..e], 0).Some? ==> HeadEnd(s, p) == Some(p + HeadEnd(s[p..e], 0).value)
    ensures (HeadEnd(s, p).Some? && HeadEnd(s, p).value <= e)
              ==> HeadEnd(s[p..e], 0) == Some(HeadEnd(s, p).value - p)
  {
    var t := s[p..e];
    if p < e {
      assert t[0] == s[p];
      var d := if IsDigit(s[p]) then 1 else 0;
      RunInSlice(s, p, e, p + d, Letter);
      var q := p + d + Run(s, p + d, Letter);
      if q < e {
        assert t[q - p] == s[q];
      }
    }
  }

  // ---------------------------------------------------------------------------------------
  // `re.search`: the leftmost position with a match, and there the match the backtracking
  // engine finds first (greedy repetitions, alternatives tried in order).

  /** The tail the engine takes from `r` on, if any. */
  function TailMatch(s: string, r: nat): (n: Option<nat>)
    requires r <= |s|
    ensures n.Some? ==> r + n.value <= |s|
  {
    var letters := Run(s, r, Letter);
    var k := Run(s, r, Digit);
    if letters >= 1 then Some(Min(letters, 9))
    else if k >= 3 then Some(3 + Min(Run(s, r + 3, Letter), 5))
    else if k >= 1 && Run(s, r + k, Letter) >= 1 then Some(k + Min(Run(s, r + k, Letter), 6))
    else None
  }

  /** The length of the match the engine reports when it starts at `p`, if any. */
  function MatchAt(s: string, p: nat): (r: Option<nat>)
    requires p <= |s|
    ensures r.Some? ==> p + r.value <= |s|
  {
    match HeadEnd(s, p)
    case None => None
    case Some(h) =>
      match TailMatch(s, h)
      case None => None
      case Some(n) => Some(h - p + n)
  }

  lemma TailSound(s: string, p: nat, r: nat, t: nat)
    requires p <= r && r + t <= |s| && TailMatch(s, r) == Some(t)
    ensures TailOk(s[p..r + t], r - p)
  {
    var k := Run(s, r, Digit);
    var e := r + t;
    if Run(s, r, Letter) >= 1 {
      TailSoundLetters(s, p, r, t, e);
    } else if k >= 3 {
      TailSoundThreeDigits(s, p, r, t - 3, e);
    } else {
      TailSoundDigitsLetter(s, p, r, k, t - k, e);
    }
    assert TailOk(s[p..e], r - p);
  }

  /** First alternative: the tail starts with letters. */
  lemma TailSoundLetters(s: string, p: nat, r: nat, m: nat, e: nat)
    requires p <= r && e == r + m <= |s| && Run(s, r, Letter) >= 1 && m == Min(Run(s, r, Letter), 9)
    ensures TailOk(s[p..e], r - p)
  {
    RunAll(s, r, Letter);
    assert InClass(s[r], Letter);
    RunInSliceIs(s, p, e, r, Digit, 0);
    TailOkOfSlice(s, p, r, e, 0);
  }

  /** Second alternative: three digits, then at most five letters. */
  lemma TailSoundThreeDigits(s: string, p: nat, r: nat, m: nat, e: nat)
    requires p <= r && e == r + 3 + m <= |s| && Run(s, r, Digit) >= 3
    requires m == Min(Run(s, r + 3, Letter), 5)
    ensures TailOk(s[p..e], r - p)
  {
    RunAll(s, r, Digit);
    if Run(s, r, Digit) > 3 {
      assert InClass(s[r + 3], Digit);
    }
    RunInSliceIs(s, p, e, r, Digit, 3);
    RunAll(s, r + 3, Letter);
    TailOkOfSlice(s, p, r, e, 3);
  }

  /** Third alternative: one or two digits, then one to six letters. */
  lemma TailSoundDigitsLetter(s: string, p: nat, r: nat, k: nat, m: nat, e: nat)
    requires p <= r && e == r + k + m <= |s| && k == Run(s, r, Digit) && 1 <= k < 3
    requires Run(s, r + k, Letter) >= 1 && m == Min(Run(s, r + k, Letter), 6)
    ensures TailOk(s[p..e], r - p)
  {
    RunInSliceIs(s, p, e, r, Digit, k);
    RunAll(s, r + k, Letter);
    assert RootTailOk(k, m);
    TailOkOfSlice(s, p, r, e, k);
  }

  lemma RunInSliceIs(s: string, p: nat, e: nat, i: nat, cls: CharClass, n: nat)
    requires p <= i <= e <= |s| && Min(Run(s, i, cls), e - i) == n
    ensures Run(s[p..e], i - p, cls) == n
  {
    RunInSlice(s, p, e, i, cls);
  }

  /** `k` digits from `r`, then letters up to `e`, in amounts the pattern allows. */
  lemma TailOkOfSlice(s: string, p: nat, r: nat, e: nat, k: nat)
    requires p <= r <= e <= |s| && r + k <= e
    requires Run(s[p..e], r - p, Digit) == k && k <= 3
    requires forall j :: r + k <= j < e ==> InClass(s[j], Letter)
    requires RootTailOk(k, e - (r + k))
    ensures TailOk(s[p..e], r - p)
  {
    LettersToEnd(s, p, r + k, e);
    assert s[p..e][r + k - p..] == s[p..e][r - p + k..];
  }

  lemma LettersToEnd(s: string, p: nat, x: nat, e: nat)
    requires p <= x <= e <= |s|
    requires forall j :: x <= j < e ==> InClass(s[j], Letter)
    ensures AllIn(s[p..e][x - p..], Letter)
  {
    assert s[p..e][x - p..] == s[x..e];
    SliceAllIn(s, x, e, Letter);
  }

  lemma TailComplete(s: string, p: nat, r: nat, e: nat)
    requires p <= r <= e <= |s| && TailOk(s[p..e], r - p)
    ensures TailMatch(s, r).Some?
  {
    var t := s[p..e];
    var i := r - p;
    RunInSlice(s, p, e, r, Digit);
    var k := Run(t, i, Digit);
    RunAll(s, r, Digit);
    if k < 3 {
      assert t[i + k..][0] == s[r + k];
      if k > 0 {
        assert IsDigit(s[r]);
      }
    }
  }

  /** What the engine reports at `p` is a callsign. */
  lemma MatchAtSound(s: string, p: nat, n: nat)
    requires p <= |s| && MatchAt(s, p) == Some(n)
    ensures p + n <= |s| && IsCallsign(s[p..p + n])
  {
    var h := HeadEnd(s, p).value;
    var t := TailMatch(s, h).value;
    assert p + n == h + t;
    HeadTailSound(s, p, h, t);
  }

  /** A head read from `p` to `h` followed by the tail the engine takes from `h`. */
  lemma HeadTailSound(s: string, p: nat, h: nat, t: nat)
    requires p <= h && h + t <= |s| && HeadEnd(s, p) == Some(h) && TailMatch(s, h) == Some(t)
    ensures IsCallsign(s[p..h + t])
  {
    HeadOfSlice(s, p, h, h + t);
    TailSound(s, p, h, t);
    CallsignOfParts(s[p..h + t], h - p);
  }

  lemma HeadOfSlice(s: string, p: nat, h: nat, e: nat)
    requires p <= h <= e <= |s| && HeadEnd(s, p) == Some(h)
    ensures HeadEnd(s[p..e], 0) == Some(h - p)
  {
    HeadInSlice(s, p, e);
  }

  lemma CallsignOfParts(t: string, r: nat)
    requires r <= |t| && HeadEnd(t, 0) == Some(r) && TailOk(t, r)
    ensures IsCallsign(t)
  {
  }

  /** The engine finds a match at `p` whenever some callsign starts there. */
  lemma MatchAtComplete(s: string, p: nat, n: nat)
    requires p + n <= |s| && IsCallsign(s[p..p + n])
    ensures MatchAt(s, p).Some?
  {
    HeadInSlice(s, p, p + n);
    var h := HeadEnd(s, p).value;
    TailComplete(s, p, h, p + n);
  }

  /** The engine's match at `p` is the longest callsign starting there, except that after
      exactly three digits it takes at most five letters where the pattern's third
      alternative would allow six. */
  lemma MatchAtLongest(s: string, p: nat, n: nat, m: nat)
    requires p <= |s| && MatchAt(s, p) == Some(n) && CallsignAt(s, p, m)
    ensures m <= n || (m == n + 1 && Run(s, HeadEnd(s, p).value, Digit) == 3)
  {
    var h, t := MatchAtParts(s, p, n);
    var h', k := CallsignShape(s, p, m);
    TailLongest(s, h, k, p + m, t);
  }

  /** The engine's match at `p`: the head to `h`, then a tail of length `t`. */
  lemma MatchAtParts(s: string, p: nat, n: nat) returns (h: nat, t: nat)
    requires p <= |s| && MatchAt(s, p) == Some(n)
    ensures HeadEnd(s, p) == Some(h) && TailMatch(s, h) == Some(t) && n == h - p + t
  {
    h := HeadEnd(s, p).value;
    t := TailMatch(s, h).value;
  }

  /** A callsign in `s[p..e]`: the head read in `s` from `p` ends at `h`, then come `k`
      digits and letters up to `e`, as a tail allows. */
  lemma CallsignShape(s: string, p: nat, m: nat) returns (h: nat, k: nat)
    requires CallsignAt(s, p, m)
    ensures HeadEnd(s, p) == Some(h) && h + k <= p + m && k <= 3
    ensures k == Min(Run(s, h, Digit), p + m - h) && RootTailOk(k, p + m - (h + k))
    ensures forall j :: h + k <= j < p + m ==> InClass(s[j], Letter)
  {
    h := CallsignSlice(s, p, m);
    k := SliceShape(s, p, h, p + m);
  }

  /** An allowed tail of `s[p..e]` from `h`: `k` digits, then letters up to `e`. */
  lemma SliceShape(s: string, p: nat, h: nat, e: nat) returns (k: nat)
    requires p <= h <= e <= |s| && TailOk(s[p..e], h - p)
    ensures h + k <= e && k <= 3
    ensures k == Min(Run(s, h, Digit), e - h) && RootTailOk(k, e - (h + k))
    ensures forall j :: h + k <= j < e ==> InClass(s[j], Letter)
  {
    k := TailParts(s[p..e], h - p);
    RunInSlice(s, p, e, h, Digit);
    LettersOfSlice(s, p, h + k, e);
  }

  /** An allowed tail from `r`: `k` digits, then letters to the end. */
  lemma TailParts(t: string, r: nat) returns (k: nat)
    requires r <= |t| && TailOk(t, r)
    ensures k == Run(t, r, Digit) && k <= 3 && r + k <= |t|
    ensures AllIn(t[r + k..], Letter) && RootTailOk(k, |t| - (r + k))
  {
    k := Run(t, r, Digit);
  }

  /** A callsign in `s[p..p + m]` has the head read in `s` from `p`, and an allowed tail. */
  lemma CallsignSlice(s: string, p: nat, m: nat) returns (h: nat)
    requires CallsignAt(s, p, m)
    ensures HeadEnd(s, p) == Some(h) && h <= p + m && TailOk(s[p..p + m], h - p)
  {
    HeadInSlice(s, p, p + m);
    h := HeadEnd(s, p).value;
  }

  /** The converse of `LettersToEnd`. */
  lemma LettersOfSlice(s: string, p: nat, x: nat, e: nat)
    requires p <= x <= e <= |s|
    requires AllIn(s[p..e][x - p..], Letter)
    ensures forall j :: x <= j < e ==> InClass(s[j], Letter)
  {
    assert s[p..e][x - p..] == s[x..e];
    AllInSlice(s, x, e, Letter);
  }

  /** The same for the tail: `k` digits from `r`, then letters up to `e`, as a callsign's
      tail allows. */
  lemma TailLongest(s: string, r: nat, k: nat, e: nat, t: nat)
    requires r + k <= e <= |s| && TailMatch(s, r) == Some(t) && k <= 3
    requires k == Min(Run(s, r, Digit), e - r) && RootTailOk(k, e - (r + k))
    requires forall j :: r + k <= j < e ==> InClass(s[j], Letter)
    ensures e - r <= t || (e - r == t + 1 && Run(s, r, Digit) == 3)
  {
    RunCovers(s, r + k, e, Letter);
    if r + k < e {
      assert InClass(s[r + k], Letter);
    }
    if Run(s, r, Letter) >= 1 {
      assert InClass(s[r], Letter);
    }
  }

  /** A stretch of `cls` characters from `i` to `e` is covered by the run from `i`. */
  lemma {:induction false} RunCovers(s: string, i: nat, e: nat, cls: CharClass)
    requires i <= e <= |s|
    requires forall j :: i <= j < e ==> InClass(s[j], cls)
    ensures Run(s, i, cls) >= e - i
    decreases e - i
  {
    if i < e {
      RunCovers(s, i + 1, e, cls);
    }
  }

  /** A callsign occupies `s[j..j + n]`. */
  predicate CallsignAt(s: string, j: nat, n: nat)
  {
    j + n <= |s| && IsCallsign(s[j..j + n])
  }

  /** Leftmost search from `p` on: the first position with a match, and its length. */
  function SearchFrom(s: string, p: nat): (r: Option<(nat, nat)>)
    requires p <= |s|
    ensures r.Some? ==> (p <= r.value.0 && r.value.0 + r.value.1 <= |s|
      && MatchAt(s, r.value.0) == Some(r.value.1)
      && forall j :: p <= j < r.value.0 ==> MatchAt(s, j).None?)
    ensures r.None? ==> forall j :: p <= j <= |s| ==> MatchAt(s, j).None?
    decreases |s| - p
  {
    match MatchAt(s, p)
    case Some(n) => Some((p, n))
    case None => if p == |s| then None else SearchFrom(s, p + 1)
  }

  /** `get_homecall`: the first substring of the uppercased call that matches the pattern,
      `ValueError` when none does. */
  function GetHomecall(callsign: string): (r: Result<string>)
    ensures r.Err? ==> r.error == ValueError
  {
    var u := Upper(callsign);
    match SearchFrom(u, 0)
    case Some((p, n)) => Ok(u[p..p + n])
    case None => Err(ValueError)
  }

  /** The home call is a callsign found in the uppercased input at a position before which
      no callsign starts; the search fails only when no substring at all is a callsign. */
  lemma GetHomecallSpec(callsign: string)
    ensures GetHomecall(callsign).Ok? ==> var h := GetHomecall(callsign).value;
      IsCallsign(h) && exists p :: FirstAt(Upper(callsign), h, p)
    ensures GetHomecall(callsign).Err? ==>
      forall j: nat, n: nat :: !CallsignAt(Upper(callsign), j, n)
  {
    var u := Upper(callsign);
    match SearchFrom(u, 0)
    case Some((p, n)) =>
      FirstCallsign(u, p, n);
      var h := u[p..p + n];
      HomecallFound(callsign, p, n);
      assert IsCallsign(h) && FirstAt(u, h, p);
    case None =>
      NoCallsign(u);
      assert GetHomecall(callsign).Err?;
  }

  /** Every callsign holds its area digit, so a call without a digit has no home call. */
  lemma HomecallNeedsDigit(callsign: string)
    requires forall k :: 0 <= k < |callsign| ==> !IsDigit(callsign[k])
    ensures GetHomecall(callsign) == Err(ValueError)
  {
    var u := Upper(callsign);
    if SearchFrom(u, 0).Some? {
      var (p, n) := SearchFrom(u, 0).value;
      FirstCallsign(u, p, n);
    }
  }

  /** The final `[A-Z]{0,5}` is greedy: a tail the engine stops before a letter ends in five
      letters, because only a full repetition leaves a letter unread. */
  lemma TailMatchGreedy(s: string, r: nat, n: nat)
    requires r <= |s| && TailMatch(s, r) == Some(n)
    requires r + n < |s| && IsUpper(s[r + n])
    ensures n >= 5 && forall k :: r + n - 5 <= k < r + n ==> IsUpper(s[k])
  {
    var letters := Run(s, r, Letter);
    var k := Run(s, r, Digit);
    if letters >= 1 {
      RunAll(s, r, Letter);
    } else if k >= 3 {
      RunAll(s, r + 3, Letter);
    } else {
      RunAll(s, r + k, Letter);
    }
  }

  /** The same for a whole match: the letter after it is one the pattern could not take. */
  lemma MatchAtGreedy(s: string, p: nat, n: nat)
    requires p <= |s| && MatchAt(s, p) == Some(n)
    requires p + n < |s| && IsUpper(s[p + n])
    ensures n >= 5 && forall k :: p + n - 5 <= k < p + n ==> IsUpper(s[k])
  {
    var h := HeadEnd(s, p).value;
    TailMatchGreedy(s, h, TailMatch(s, h).value);
  }

  /** A home call followed by a letter in the uppercased input ends in five letters: the
      engine takes as many letters as the pattern allows. */
  lemma HomecallGreedy(callsign: string, p: nat, n: nat)
    requires SearchFrom(Upper(callsign), 0) == Some((p, n))
    requires p + n < |Upper(callsign)| && IsUpper(Upper(callsign)[p + n])
    ensures GetHomecall(callsign) == Ok(Upper(callsign)[p..p + n])
    ensures var h := GetHomecall(callsign).value;
      |h| >= 5 && forall k :: |h| - 5 <= k < |h| ==> IsUpper(h[k])
  {
    var u := Upper(callsign);
    HomecallFound(callsign, p, n);
    MatchAtGreedy(u, p, n);
    var w := u[p..p + n];
    assert forall k :: 0 <= k < n ==> w[k] == u[p + k];
  }

  /** No callsign starting where the home call starts is longer than it, except by the one
      letter the engine leaves when the home call's tail holds exactly three digits. */
  lemma HomecallLongest(callsign: string, p: nat, n: nat, m: nat)
    requires SearchFrom(Upper(callsign), 0) == Some((p, n))
    requires CallsignAt(Upper(callsign), p, m)
    ensures GetHomecall(callsign) == Ok(Upper(callsign)[p..p + n])
    ensures m <= n || (m == n + 1 && Run(Upper(callsign), HeadEnd(Upper(callsign), p).value, Digit) == 3)
  {
    HomecallFound(callsign, p, n);
    MatchAtLongest(Upper(callsign), p, n, m);
  }

  lemma HomecallFound(callsign: string, p: nat, n: nat)
    requires SearchFrom(Upper(callsign), 0) == Some((p, n))
    ensures GetHomecall(callsign) == Ok(Upper(callsign)[p..p + n])
  {
  }

  /** `h` occurs in `u` at `p`, and no callsign starts before `p`. */
  ghost predicate FirstAt(u: string, h: string, p: nat)
  {
    OccursAt(u, h, p) && forall j: nat, n: nat :: j < p ==> !CallsignAt(u, j, n)
  }

  /** What the search reports is a callsign, and none starts further left. */
  lemma FirstCallsign(u: string, p: nat, n: nat)
    requires SearchFrom(u, 0) == Some((p, n))
    ensures p + n <= |u| && IsCallsign(u[p..p + n]) && FirstAt(u, u[p..p + n], p)
  {
    MatchAtSound(u, p, n);
    FirstAtSearch(u, p, n);
  }

  lemma FirstAtSearch(u: string, p: nat, n: nat)
    requires p + n <= |u| && forall j :: 0 <= j < p ==> MatchAt(u, j).None?
    ensures FirstAt(u, u[p..p + n], p)
  {
    NoneBefore(u, p);
    assert OccursAt(u, u[p..p + n], p);
  }

  /** No callsign starts where the engine finds no match. */
  lemma NoneBefore(u: string, p: nat)
    requires p <= |u| && forall j :: 0 <= j < p ==> MatchAt(u, j).None?
    ensures forall j: nat, m: nat :: j < p ==> !CallsignAt(u, j, m)
  {
    forall j: nat, m: nat | j < p
      ensures !CallsignAt(u, j, m)
    {
      if CallsignAt(u, j, m) {
        MatchAtComplete(u, j, m);
      }
    }
  }

  /** A failed search means no substring is a callsign. */
  lemma NoCallsign(u: string)
    requires SearchFrom(u, 0).None?
    ensures forall j: nat, m: nat :: !CallsignAt(u, j, m)
  {
    forall j: nat, m: nat
      ensures !CallsignAt(u, j, m)
    {
      if CallsignAt(u, j, m) {
        MatchAtComplete(u, j, m);
      }
    }
  }

  // ---------------------------------------------------------------------------------------
  // Facts the dismantling rules rely on.

  /** A callsign is made of at least three characters of `[A-Z0-9]`, so it holds no slash,
      dash or lower-case letter. */
  lemma CallsignChars(s: string)
    ensures IsCallsign(s) ==> |s| >= 3 && AllIn(s, Alnum)
  {
    if IsCallsign(s) {
      var h := HeadEnd(s, 0).value;
      var d := if 0 < |s| && IsDigit(s[0]) then 1 else 0;
      RunAll(s, d, Letter);
      var k := Run(s, h, Digit);
      RunAll(s, h, Digit);
      AllInSlice(s, h + k, |s|, Letter);
      forall j | 0 <= j < |s|
        ensures InClass(s[j], Alnum)
      {
        if j < d {
        } else if j < h - 1 {
        } else if j == h - 1 {
        } else if j < h + k {
        } else {
        }
      }
    }
  }

  /** The trailing run of `pre + y` is `y` when `y` is all in the class and `pre` ends with a
      character outside it. */
  lemma TrailingRunAfter(pre: string, y: string, cls: CharClass)
    requires |pre| > 0 && !InClass(pre[|pre| - 1], cls) && AllIn(y, cls)
    ensures TrailingRun(pre + y, cls) == |y|
  {
    var s := pre + y;
    assert s[|pre| - 1] == pre[|pre| - 1];
    assert forall k :: |pre| <= k < |s| ==> s[k] == y[k - |pre|];
  }
}

/** Worked `get_homecall` cases. */
module HomecallExamples {
  import opened Text
  import opened Grammar

  lemma HomecallOfPortableCall()
    ensures GetHomecall("SM3/DH1TW/P") == Ok("DH1TW")
  {
    PortableCallHomecall();
    PortableCallSlice();
  }

  lemma HomecallOfNoise()
    ensures GetHomecall("QRM") == Err(ValueError)
  {
    var s := "QRM";
    assert s[0] == 'Q' && s[1] == 'R' && s[2] == 'M';
    HomecallNeedsDigit(s);
  }

  /** After exactly three digits the engine stops one letter short of the longest callsign:
      the whole of "DH1000ABCDEF" is a callsign, yet the match from its start is eleven long. */
  lemma ThreeDigitsLeaveALetter()
    ensures MatchAt("DH1000ABCDEF", 0) == Some(11) && CallsignAt("DH1000ABCDEF", 0, 12)
  {
    ThreeDigitsMatch();
    ThreeDigitsWhole();
  }

  lemma ThreeDigitsMatch()
    ensures MatchAt("DH1000ABCDEF", 0) == Some(11)
  {
    var s := "DH1000ABCDEF";
    ThreeDigitsRuns();
    assert TailMatch(s, 3) == Some(8);
  }

  lemma ThreeDigitsWhole()
    ensures CallsignAt("DH1000ABCDEF", 0, 12)
  {
    var s := "DH1000ABCDEF";
    ThreeDigitsRuns();
    assert s[0..12] == s;
    assert s[6..] == "ABCDEF";
    assert AllIn(s[6..], Letter);
    assert TailOk(s, 3);
  }

  lemma ThreeDigitsRuns()
    ensures HeadEnd("DH1000ABCDEF", 0) == Some(3)
    ensures Run("DH1000ABCDEF", 3, Letter) == 0 && Run("DH1000ABCDEF", 3, Digit) == 3
    ensures Run("DH1000ABCDEF", 6, Letter) == 6
  {
    var s := "DH1000ABCDEF";
    assert s[0] == 'D' && s[1] == 'H' && s[2] == '1' && s[3] == '0' && s[4] == '0' && s[5] == '0';
    assert Run(s, 1, Letter) == 1;
    ThreeDigitsLetters();
  }

  lemma ThreeDigitsLetters()
    ensures Run("DH1000ABCDEF", 6, Letter) == 6
  {
    var s := "DH1000ABCDEF";
    assert s[6] == 'A' && s[7] == 'B' && s[8] == 'C' && s[9] == 'D' && s[10] == 'E' && s[11] == 'F';
  }

  lemma PortableCallSlice()
    ensures "SM3/DH1TW/P"[4..9] == "DH1TW"
  {
  }

  lemma PortableCallHomecall()
    ensures GetHomecall("SM3/DH1TW/P") == Ok("SM3/DH1TW/P"[4..9])
  {
    PortableCallIsUpper();
    PortableCallSearch();
  }

  lemma PortableCallIsUpper()
    ensures Upper("SM3/DH1TW/P") == "SM3/DH1TW/P"
  {
    UpperIsUpperCase("SM3/DH1TW/P");
  }

  lemma PortableCallSearch()
    ensures SearchFrom("SM3/DH1TW/P", 0) == Some((4, 5))
  {
    var u := "SM3/DH1TW/P";
    PortableCallMisses();
    PortableCallMatch();
    assert SearchFrom(u, 4) == Some((4, 5));
    assert SearchFrom(u, 2) == Some((4, 5));
  }

  /** "SM3" is a prefix with no suffix letters: no match starts in it. */
  lemma PortableCallMisses()
    ensures MatchAt("SM3/DH1TW/P", 0).None? && MatchAt("SM3/DH1TW/P", 1).None?
    ensures MatchAt("SM3/DH1TW/P", 2).None? && MatchAt("SM3/DH1TW/P", 3).None?
  {
    PortableCallMissesPrefix();
    PortableCallNoHead();
  }

  lemma PortableCallNoHead()
    ensures HeadEnd("SM3/DH1TW/P", 2).None? && HeadEnd("SM3/DH1TW/P", 3).None?
  {
    var u := "SM3/DH1TW/P";
    assert IsDigit(u[2]) && !IsUpper(u[3]);
    assert Run(u, 3, Letter) == 0;
  }

  lemma PortableCallMissesPrefix()
    ensures MatchAt("SM3/DH1TW/P", 0).None? && MatchAt("SM3/DH1TW/P", 1).None?
  {
    PortableCallHeads();
    PortableCallNoTail();
  }

  lemma PortableCallHeads()
    ensures HeadEnd("SM3/DH1TW/P", 0) == Some(3) && HeadEnd("SM3/DH1TW/P", 1) == Some(3)
  {
    var u := "SM3/DH1TW/P";
    assert !IsDigit(u[0]) && !IsDigit(u[1]) && !IsUpper(u[2]) && IsDigit(u[2]);
    assert Run(u, 1, Letter) == 1;
    assert Run(u, 0, Letter) == 2;
  }

  lemma PortableCallNoTail()
    ensures TailMatch("SM3/DH1TW/P", 3).None?
  {
    var u := "SM3/DH1TW/P";
    assert !IsUpper(u[3]) && !IsDigit(u[3]);
    assert Run(u, 3, Letter) == 0 && Run(u, 3, Digit) == 0;
  }

  lemma PortableCallMatch()
    ensures MatchAt("SM3/DH1TW/P", 4) == Some(5)
  {
    PortableCallHeadAt4();
    PortableCallTailAt7();
  }

  lemma PortableCallHeadAt4()
    ensures HeadEnd("SM3/DH1TW/P", 4) == Some(7)
  {
    var u := "SM3/DH1TW/P";
    assert !IsDigit(u[4]) && !IsUpper(u[6]) && IsDigit(u[6]);
    assert Run(u, 5, Letter) == 1;
    assert Run(u, 4, Letter) == 2;
  }

  lemma PortableCallTailAt7()
    ensures TailMatch("SM3/DH1TW/P", 7) == Some(2)
  {
    var u := "SM3/DH1TW/P";
    assert !IsUpper(u[9]);
    assert Run(u, 8, Letter) == 1;
    assert Run(u, 7, Letter) == 2;
  }

  /** The digit alternative comes first, so after three digits the tail stops at five letters
      even though a sixth would fit the third alternative. */
  lemma HomecallPrefersEarlierAlternative()
    ensures GetHomecall("DH1000ABCDEF") == Ok("DH1000ABCDE")
  {
    LongSuffixHomecall();
    LongSuffixSlice();
  }

  lemma LongSuffixSlice()
    ensures "DH1000ABCDEF"[0..11] == "DH1000ABCDE"
  {
  }

  lemma LongSuffixHomecall()
    ensures GetHomecall("DH1000ABCDEF") == Ok("DH1000ABCDEF"[0..11])
  {
    LongSuffixIsUpper();
    LongSuffixMatch();
  }

  lemma LongSuffixIsUpper()
    ensures Upper("DH1000ABCDEF") == "DH1000ABCDEF"
  {
    UpperIsUpperCase("DH1000ABCDEF");
  }

  lemma LongSuffixMatch()
    ensures MatchAt("DH1000ABCDEF", 0) == Some(11)
  {
    LongSuffixHead();
    LongSuffixTail();
  }

  lemma LongSuffixHead()
    ensures HeadEnd("DH1000ABCDEF", 0) == Some(3)
  {
    var u := "DH1000ABCDEF";
    assert !IsDigit(u[0]) && !IsUpper(u[2]) && IsDigit(u[2]);
    assert Run(u, 1, Letter) == 1;
    assert Run(u, 0, Letter) == 2;
  }

  lemma LongSuffixTail()
    ensures TailMatch("DH1000ABCDEF", 3) == Some(8)
  {
    LongSuffixNoLetter();
    LongSuffixDigits();
    LongSuffixLetters();
  }

  lemma LongSuffixNoLetter()
    ensures Run("DH1000ABCDEF", 3, Letter) == 0
  {
    var u := "DH1000ABCDEF";
    assert !IsUpper(u[3]);
  }

  lemma LongSuffixDigits()
    ensures Run("DH1000ABCDEF", 3, Digit) == 3
  {
    var u := "DH1000ABCDEF";
    assert !IsDigit(u[6]);
    assert Run(u, 5, Digit) == 1;
    assert Run(u, 4, Digit) == 2;
  }

  lemma LongSuffixLetters()
    ensures Run("DH1000ABCDEF", 6, Letter) == 6
  {
    var u := "DH1000ABCDEF";
    assert Run(u, 11, Letter) == 1;
    assert Run(u, 10, Letter) == 2;
    assert Run(u, 9, Letter) == 3;
    assert Run(u, 8, Letter) == 4;
    assert Run(u, 7, Letter) == 5;
  }
}
