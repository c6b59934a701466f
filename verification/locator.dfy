/** Maidenhead locators: `locator_to_latlong` and `latlong_to_locator`. Coordinates are exact
    reals; Python's `int()` of a float is truncation towards zero and `%` the floored
    remainder, both written out below. */
module Locator {
  import opened Text

  datatype LatLong = LatLong(latitude: real, longitude: real)

  /** `int(x)` of a Python float: truncation towards zero. */
  function Trunc(x: real): (n: int)
    ensures x >= 0.0 ==> n as real <= x < n as real + 1.0
    ensures x < 0.0 ==> n as real - 1.0 < x <= n as real
  {
    if x >= 0.0 then x.Floor else -((-x).Floor)
  }

  /** `x % m` of Python floats with `m > 0`: the floored remainder, with the sign of `m`. */
  function FMod(x: real, m: real): real
    requires m > 0.0
  {
    x - m * (x / m).Floor as real
  }

  predicate InRange(c: char, lo: char, hi: char)
  {
    lo <= c <= hi
  }

  /** The checks of lines 82-101 on an upper-cased locator. */
  predicate ValidLocator(loc: string)
  {
    |loc| != 5 && |loc| >= 4
    && InRange(loc[0], 'A', 'R') && InRange(loc[1], 'A', 'R')
    && InRange(loc[2], '0', '9') && InRange(loc[3], '0', '9')
    && (|loc| == 6 ==> InRange(loc[4], 'A', 'X') && InRange(loc[5], 'A', 'X'))
  }

  /** The place of `c` after `base`: `ord(c) - ord(base)`. */
  function Offset(c: char, base: char): int
  {
    c as int - base as int
  }

  /** `locator_to_latlong(locator)` (locator.py:80-121): the centre of the square, or of the
      subsquare for six characters. */
  function LocatorToLatLong(locator: string): (r: Result<LatLong>)
    ensures r.Err? <==> !ValidLocator(Upper(locator))
    ensures r.Err? ==> r.error == ValueError
    ensures r.Ok? ==> -180.0 < r.value.longitude < 180.0 && -90.0 < r.value.latitude < 90.0
  {
    var loc := Upper(locator);
    if |loc| == 5 || |loc| < 4 then Err(ValueError)
    else if !InRange(loc[0], 'A', 'R') then Err(ValueError)
    else if !InRange(loc[1], 'A', 'R') then Err(ValueError)
    else if !InRange(loc[2], '0', '9') then Err(ValueError)
    else if !InRange(loc[3], '0', '9') then Err(ValueError)
    else if |loc| == 6 && !InRange(loc[4], 'A', 'X') then Err(ValueError)
    else if |loc| == 6 && !InRange(loc[5], 'A', 'X') then Err(ValueError)
    else
      var lon := (Offset(loc[0], 'A') * 20 - 180) as real + (Offset(loc[2], '0') * 2) as real;
      var lat := (Offset(loc[1], 'A') * 10 - 90) as real + Offset(loc[3], '0') as real;
      if |loc| == 6 then
        Ok(LatLong(lat + Offset(loc[5], 'A') as real * (1.0 / 24.0) + 0.5 / 24.0,
                   lon + Offset(loc[4], 'A') as real * (2.0 / 24.0) + 1.0 / 24.0))
      else
        Ok(LatLong(lat + 0.5, lon + 1.0))
  }

  /** `chr(ord(base) + n)` */
  function Chr(base: char, n: int): char
    requires (0 <= n <= 25 && 'A' <= base <= 'Z') || (0 <= n <= 9 && base == '0')
  {
    (base as int + n) as char
  }

  /** Six characters in the ranges `A-R`, `A-R`, `0-9`, `0-9`, `A-X`, `A-X`. */
  predicate IsLocator6(loc: string)
  {
    |loc| == 6
    && InRange(loc[0], 'A', 'R') && InRange(loc[1], 'A', 'R')
    && InRange(loc[2], '0', '9') && InRange(loc[3], '0', '9')
    && InRange(loc[4], 'A', 'X') && InRange(loc[5], 'A', 'X')
  }

  /** `latlong_to_locator(latitude, longitude)` (locator.py:35-51). */
  function LatLongToLocator(latitude: real, longitude: real): (r: Result<string>)
    ensures r.Ok? <==> -180.0 < longitude < 180.0 && -90.0 < latitude < 90.0
    ensures r.Err? ==> r.error == ValueError
    ensures r.Ok? ==> IsLocator6(r.value)
  {
    if longitude >= 180.0 || longitude <= -180.0 then Err(ValueError)
    else if latitude >= 90.0 || latitude <= -90.0 then Err(ValueError)
    else
      var lon := longitude + 180.0;
      var lat := latitude + 90.0;
      Ok([Chr('A', Trunc(lon / 20.0)),
          Chr('A', Trunc(lat / 10.0)),
          Chr('0', Trunc(FMod(lon, 20.0) / 2.0)),
          Chr('0', Trunc(FMod(lat, 10.0))),
          Chr('A', Trunc((lon - Trunc(lon / 2.0) as real * 2.0) / (2.0 / 24.0))),
          Chr('A', Trunc((lat - Trunc(lat / 1.0) as real * 1.0) / (1.0 / 24.0)))])
  }

  // ---------------------------------------------------------------------------------------
  // Properties.

  /** The locator is upper-cased first, so its case does not matter. */
  lemma LocatorCaseInsensitive(locator: string)
    ensures LocatorToLatLong(locator) == LocatorToLatLong(Upper(locator))
  {
    UpperIsUpperCase(Upper(locator));
  }

  /** Only lengths 4 and 6 are read in full: a locator of seven or more characters is read
      as its first four, the square's centre, whatever follows. */
  lemma LongLocatorIsSquare(locator: string)
    requires |locator| >= 7
    ensures LocatorToLatLong(locator) == LocatorToLatLong(locator[..4])
  {
    assert Upper(locator[..4]) == Upper(locator)[..4];
  }

  /** A six-character locator in the valid ranges is upper case already. */
  lemma Locator6Upper(loc: string)
    requires IsLocator6(loc)
    ensures Upper(loc) == loc && ValidLocator(loc)
  {
    assert forall i :: 0 <= i < 6 ==> !IsLower(loc[i]);
    UpperIsUpperCase(loc);
  }

  /** Truncation of a non-negative real inside `[n, n + 1)`. */
  lemma TruncIs(x: real, n: int)
    requires 0 <= n && n as real <= x < n as real + 1.0
    ensures Trunc(x) == n
  {
  }

  /** `chr(ord(base) + ord(c) - ord(base))` is `c`. */
  lemma ChrOffset(base: char, c: char)
    requires (base == 'A' && 'A' <= c <= 'Z') || (base == '0' && '0' <= c <= '9')
    ensures Chr(base, Offset(c, base)) == c
  {
  }

  /** The longitude letters and digit of a column: whole 20-degree fields, 2-degree squares
      and 5-minute subsquares of `x = longitude + 180`. */
  lemma LongitudeDigits(a0: int, a2: int, a4: int)
    requires 0 <= a0 <= 17 && 0 <= a2 <= 9 && 0 <= a4 <= 23
    ensures var x := (a0 * 20) as real + (a2 * 2) as real + a4 as real * (2.0 / 24.0) + 1.0 / 24.0;
      Trunc(x / 20.0) == a0 && Trunc(FMod(x, 20.0) / 2.0) == a2
      && Trunc((x - Trunc(x / 2.0) as real * 2.0) / (2.0 / 24.0)) == a4
  {
    var x := (a0 * 20) as real + (a2 * 2) as real + a4 as real * (2.0 / 24.0) + 1.0 / 24.0;
    TruncIs(x / 20.0, a0);
    assert FMod(x, 20.0) == x - (a0 * 20) as real;
    TruncIs(FMod(x, 20.0) / 2.0, a2);
    TruncIs(x / 2.0, a0 * 10 + a2);
    TruncIs((x - (a0 * 10 + a2) as real * 2.0) / (2.0 / 24.0), a4);
  }

  /** The same for the latitude: 10-degree fields, 1-degree squares and 2.5-minute
      subsquares of `y = latitude + 90`. */
  lemma LatitudeDigits(a1: int, a3: int, a5: int)
    requires 0 <= a1 <= 17 && 0 <= a3 <= 9 && 0 <= a5 <= 23
    ensures var y := (a1 * 10) as real + a3 as real + a5 as real * (1.0 / 24.0) + 0.5 / 24.0;
      Trunc(y / 10.0) == a1 && Trunc(FMod(y, 10.0)) == a3
      && Trunc((y - Trunc(y / 1.0) as real * 1.0) / (1.0 / 24.0)) == a5
  {
    var y := (a1 * 10) as real + a3 as real + a5 as real * (1.0 / 24.0) + 0.5 / 24.0;
    TruncIs(y / 10.0, a1);
    assert FMod(y, 10.0) == y - (a1 * 10) as real;
    TruncIs(FMod(y, 10.0), a3);
    TruncIs(y / 1.0, a1 * 10 + a3);
    TruncIs((y - (a1 * 10 + a3) as real * 1.0) / (1.0 / 24.0), a5);
  }

  /** The centre of a six-character locator's subsquare, in field, square and subsquare
      steps. */
  lemma SubsquareCentre(loc: string)
    requires IsLocator6(loc)
    ensures LocatorToLatLong(loc).Ok?
    ensures var p := LocatorToLatLong(loc).value;
      p.longitude + 180.0 == (Offset(loc[0], 'A') * 20) as real + (Offset(loc[2], '0') * 2) as real
        + Offset(loc[4], 'A') as real * (2.0 / 24.0) + 1.0 / 24.0
      && p.latitude + 90.0 == (Offset(loc[1], 'A') * 10) as real + Offset(loc[3], '0') as real
        + Offset(loc[5], 'A') as real * (1.0 / 24.0) + 0.5 / 24.0
  {
    Locator6Upper(loc);
  }

  /** `latlong_to_locator` on the centre of the subsquare with the given offsets. */
  lemma LocatorOfCentre(a0: int, a1: int, a2: int, a3: int, a4: int, a5: int)
    requires 0 <= a0 <= 17 && 0 <= a2 <= 9 && 0 <= a4 <= 23
    requires 0 <= a1 <= 17 && 0 <= a3 <= 9 && 0 <= a5 <= 23
    ensures var x := (a0 * 20) as real + (a2 * 2) as real + a4 as real * (2.0 / 24.0) + 1.0 / 24.0;
      var y := (a1 * 10) as real + a3 as real + a5 as real * (1.0 / 24.0) + 0.5 / 24.0;
      LatLongToLocator(y - 90.0, x - 180.0)
      == Ok([Chr('A', a0), Chr('A', a1), Chr('0', a2), Chr('0', a3), Chr('A', a4), Chr('A', a5)])
  {
    LongitudeDigits(a0, a2, a4);
    LatitudeDigits(a1, a3, a5);
  }

  /** Round trip: the centre of a six-character locator's subsquare converts back to the same
      locator, as "JN48QM" and (48.5208333, 9.375) do. */
  lemma LocatorRoundTrip(loc: string)
    requires IsLocator6(loc)
    ensures LocatorToLatLong(loc).Ok?
    ensures var p := LocatorToLatLong(loc).value;
      LatLongToLocator(p.latitude, p.longitude) == Ok(loc)
  {
    SubsquareCentre(loc);
    LocatorOfCentre(Offset(loc[0], 'A'), Offset(loc[1], 'A'), Offset(loc[2], '0'),
      Offset(loc[3], '0'), Offset(loc[4], 'A'), Offset(loc[5], 'A'));
    ChrOffset('A', loc[0]);
    ChrOffset('A', loc[1]);
    ChrOffset('0', loc[2]);
    ChrOffset('0', loc[3]);
    ChrOffset('A', loc[4]);
    ChrOffset('A', loc[5]);
    assert [loc[0], loc[1], loc[2], loc[3], loc[4], loc[5]] == loc;
  }

  /** `ord(chr(ord(base) + n)) - ord(base)` is `n`. */
  lemma OffsetChr(base: char, n: int)
    requires (0 <= n <= 25 && 'A' <= base <= 'Z') || (0 <= n <= 9 && base == '0')
    ensures Offset(Chr(base, n), base) == n
  {
  }

  /** The column of `x = longitude + 180`, rebuilt from its letter, digit and subsquare
      letter, is the centre of a subsquare at most 1/24 degree away. */
  lemma LongitudeCell(x: real)
    requires 0.0 < x < 360.0
    ensures var a0 := Trunc(x / 20.0);
      var a2 := Trunc(FMod(x, 20.0) / 2.0);
      var a4 := Trunc((x - Trunc(x / 2.0) as real * 2.0) / (2.0 / 24.0));
      var c := (a0 * 20) as real + (a2 * 2) as real + a4 as real * (2.0 / 24.0) + 1.0 / 24.0;
      c - 1.0 / 24.0 <= x < c + 1.0 / 24.0
  {
    var a0 := Trunc(x / 20.0);
    var a2 := Trunc(FMod(x, 20.0) / 2.0);
    TruncIs(x / 2.0, a0 * 10 + a2);
  }

  /** The same for the row of `y = latitude + 90`, within 1/48 degree. */
  lemma LatitudeCell(y: real)
    requires 0.0 < y < 180.0
    ensures var a1 := Trunc(y / 10.0);
      var a3 := Trunc(FMod(y, 10.0));
      var a5 := Trunc((y - Trunc(y / 1.0) as real * 1.0) / (1.0 / 24.0));
      var c := (a1 * 10) as real + a3 as real + a5 as real * (1.0 / 24.0) + 0.5 / 24.0;
      c - 0.5 / 24.0 <= y < c + 0.5 / 24.0
  {
    var a1 := Trunc(y / 10.0);
    var a3 := Trunc(FMod(y, 10.0));
    TruncIs(y / 1.0, a1 * 10 + a3);
  }

  /** The letters and digits `latlong_to_locator` writes, read back as offsets. */
  lemma LocatorOffsets(latitude: real, longitude: real)
    requires -180.0 < longitude < 180.0 && -90.0 < latitude < 90.0
    ensures LatLongToLocator(latitude, longitude).Ok?
    ensures var loc := LatLongToLocator(latitude, longitude).value;
      var x := longitude + 180.0;
      var y := latitude + 90.0;
      Offset(loc[0], 'A') == Trunc(x / 20.0)
      && Offset(loc[1], 'A') == Trunc(y / 10.0)
      && Offset(loc[2], '0') == Trunc(FMod(x, 20.0) / 2.0)
      && Offset(loc[3], '0') == Trunc(FMod(y, 10.0))
      && Offset(loc[4], 'A') == Trunc((x - Trunc(x / 2.0) as real * 2.0) / (2.0 / 24.0))
      && Offset(loc[5], 'A') == Trunc((y - Trunc(y / 1.0) as real * 1.0) / (1.0 / 24.0))
  {
    var x := longitude + 180.0;
    var y := latitude + 90.0;
    OffsetChr('A', Trunc(x / 20.0));
    OffsetChr('A', Trunc(y / 10.0));
    OffsetChr('0', Trunc(FMod(x, 20.0) / 2.0));
    OffsetChr('0', Trunc(FMod(y, 10.0)));
    OffsetChr('A', Trunc((x - Trunc(x / 2.0) as real * 2.0) / (2.0 / 24.0)));
    OffsetChr('A', Trunc((y - Trunc(y / 1.0) as real * 1.0) / (1.0 / 24.0)));
  }

  /** The other way round: a point converts to the locator whose subsquare centre lies at
      most 1/24 degree of longitude and 1/48 degree of latitude away. */
  lemma PointInSubsquare(latitude: real, longitude: real)
    requires -180.0 < longitude < 180.0 && -90.0 < latitude < 90.0
    ensures LatLongToLocator(latitude, longitude).Ok?
    ensures var loc := LatLongToLocator(latitude, longitude).value;
      var p := LocatorToLatLong(loc);
      p.Ok?
      && p.value.longitude - 1.0 / 24.0 <= longitude < p.value.longitude + 1.0 / 24.0
      && p.value.latitude - 0.5 / 24.0 <= latitude < p.value.latitude + 0.5 / 24.0
  {
    LongitudeCell(longitude + 180.0);
    LatitudeCell(latitude + 90.0);
    LocatorOffsets(latitude, longitude);
    SubsquareCentre(LatLongToLocator(latitude, longitude).value);
  }

  /** `latlong_to_locator` on the centre of the square with the given offsets: the middle
      subsquare `MM`. */
  lemma LocatorOfSquareCentre(a0: int, a1: int, a2: int, a3: int)
    requires 0 <= a0 <= 17 && 0 <= a2 <= 9 && 0 <= a1 <= 17 && 0 <= a3 <= 9
    ensures var x := (a0 * 20) as real + (a2 * 2) as real + 1.0;
      var y := (a1 * 10) as real + a3 as real + 0.5;
      LatLongToLocator(y - 90.0, x - 180.0)
      == Ok([Chr('A', a0), Chr('A', a1), Chr('0', a2), Chr('0', a3), 'M', 'M'])
  {
    var x := (a0 * 20) as real + (a2 * 2) as real + 1.0;
    var y := (a1 * 10) as real + a3 as real + 0.5;
    TruncIs(x / 20.0, a0);
    assert FMod(x, 20.0) == x - (a0 * 20) as real;
    TruncIs(FMod(x, 20.0) / 2.0, a2);
    TruncIs(x / 2.0, a0 * 10 + a2);
    TruncIs(y / 10.0, a1);
    assert FMod(y, 10.0) == y - (a1 * 10) as real;
    TruncIs(FMod(y, 10.0), a3);
    TruncIs(y / 1.0, a1 * 10 + a3);
  }

  /** A four-character locator gives the centre of its square, which converts back to the
      same square and its middle subsquare: "JN48" to "JN48MM". */
  lemma SquareRoundTrip(loc: string)
    requires |loc| == 4 && ValidLocator(loc) && Upper(loc) == loc
    ensures LocatorToLatLong(loc) == Ok(LatLong(
      (Offset(loc[1], 'A') * 10 - 90) as real + Offset(loc[3], '0') as real + 0.5,
      (Offset(loc[0], 'A') * 20 - 180) as real + (Offset(loc[2], '0') * 2) as real + 1.0))
    ensures var p := LocatorToLatLong(loc).value;
      LatLongToLocator(p.latitude, p.longitude) == Ok(loc + "MM")
  {
    LocatorOfSquareCentre(Offset(loc[0], 'A'), Offset(loc[1], 'A'), Offset(loc[2], '0'),
      Offset(loc[3], '0'));
    ChrOffset('A', loc[0]);
    ChrOffset('A', loc[1]);
    ChrOffset('0', loc[2]);
    ChrOffset('0', loc[3]);
    assert [loc[0], loc[1], loc[2], loc[3], 'M', 'M'] == loc + "MM";
  }
}
