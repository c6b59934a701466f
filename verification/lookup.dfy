/** The in-memory part of `LookupLib`: tables of records addressed through an index of
    record numbers, the time-window selection over an index list, and the lookups the
    `clublogxml` and `countryfile` back ends answer from those tables. */
module Lookup {
  import opened Text
  import opened Records

  /** A data dictionary (record number to record) and its index (key to record numbers). */
  datatype Table = Table(data: map<int, Record>, index: map<string, seq<int>>)

  /** Every position before `k` names a present record whose window is closed at `ts`. */
  predicate PassesBefore(ids: seq<int>, data: map<int, Record>, ts: int, k: int)
  {
    0 <= k <= |ids| && forall j :: 0 <= j < k ==> ids[j] in data && !ActiveAt(data[ids[j]], ts)
  }

  /** Position `k` holds the first active record of the list. */
  predicate FirstActive(ids: seq<int>, data: map<int, Record>, ts: int, k: int)
  {
    PassesBefore(ids, data, ts, k) && k < |ids| && ids[k] in data && ActiveAt(data[ids[k]], ts)
  }

  /** The scan stops at `k` without an answer: the list is used up, or it names a record
      number that the data dictionary lacks (`data_dict[item]` raises `KeyError`). */
  predicate StopsAt(ids: seq<int>, data: map<int, Record>, ts: int, k: int)
  {
    PassesBefore(ids, data, ts, k) && (k == |ids| || ids[k] !in data)
  }

  function ScanFrom(ids: seq<int>, data: map<int, Record>, ts: int, i: nat): (r: Result<nat>)
    requires PassesBefore(ids, data, ts, i)
    ensures r.Ok? ==> FirstActive(ids, data, ts, r.value)
    ensures r.Err? ==> r.error == KeyError && exists k :: StopsAt(ids, data, ts, k)
    decreases |ids| - i
  {
    if i == |ids| then assert StopsAt(ids, data, ts, i); Err(KeyError)
    else if ids[i] !in data then assert StopsAt(ids, data, ts, i); Err(KeyError)
    else if ActiveAt(data[ids[i]], ts) then Ok(i)
    else ScanFrom(ids, data, ts, i + 1)
  }

  /** The position of the first record in `ids` whose window is open at `ts`. */
  function Scan(ids: seq<int>, data: map<int, Record>, ts: int): (r: Result<nat>)
    ensures r.Ok? ==> FirstActive(ids, data, ts, r.value)
    ensures r.Err? ==> r.error == KeyError && exists k :: StopsAt(ids, data, ts, k)
  {
    ScanFrom(ids, data, ts, 0)
  }

  /** When every listed record exists, the scan succeeds exactly when some listed record is
      active, and then it answers with the first one. */
  lemma {:induction false} ScanFindsActive(ids: seq<int>, data: map<int, Record>, ts: int)
    requires forall j :: 0 <= j < |ids| ==> ids[j] in data
    ensures Scan(ids, data, ts).Ok? <==> exists j :: 0 <= j < |ids| && ActiveAt(data[ids[j]], ts)
  {
    var r := Scan(ids, data, ts);
    if r.Err? {
      var k :| StopsAt(ids, data, ts, k);
      assert k == |ids|;
    } else {
      assert ActiveAt(data[ids[r.value]], ts);
    }
  }

  /** From any position before it, the scan reaches the first active position. */
  lemma {:induction false} ScanFromFirst(ids: seq<int>, data: map<int, Record>, ts: int, i: nat, k: int)
    requires i <= k && PassesBefore(ids, data, ts, i) && FirstActive(ids, data, ts, k)
    ensures ScanFrom(ids, data, ts, i) == Ok(k)
    decreases k - i
  {
    if i < k {
      ScanFromFirst(ids, data, ts, i + 1, k);
    }
  }

  /** The scan answers with the first active position whenever there is one. */
  lemma ScanFirst(ids: seq<int>, data: map<int, Record>, ts: int, k: int)
    requires FirstActive(ids, data, ts, k)
    ensures Scan(ids, data, ts) == Ok(k)
  {
    ScanFromFirst(ids, data, ts, 0, k);
  }

  /** Shared loop of `_check_data_for_date`, `_check_inv_operation_for_date` and
      `_check_zone_exception_for_date`: walk the index list, testing the four window cases in
      the order pyhamtools uses, and stop at the first open window. */
  method ScanWindows(ids: seq<int>, data: map<int, Record>, ts: int) returns (r: Result<nat>)
    ensures r == Scan(ids, data, ts)
  {
    for i := 0 to |ids|
      invariant PassesBefore(ids, data, ts, i)
      invariant ScanFrom(ids, data, ts, i) == Scan(ids, data, ts)
    {
      if ids[i] !in data {
        return Err(KeyError);
      }
      var rec := data[ids[i]];
      if START in rec && END !in rec {
        if rec[START].t < ts {
          return Ok(i);
        }
      } else if START !in rec && END in rec {
        if rec[END].t > ts {
          return Ok(i);
        }
      } else if START in rec && END in rec {
        if rec[START].t < ts && rec[END].t > ts {
          return Ok(i);
        }
      } else {
        return Ok(i);
      }
    }
    return Err(KeyError);
  }

  /** `_check_data_for_date`: the first active record for `item`, window keys removed. */
  function DataForDate(item: string, ts: int, t: Table): (r: Result<Record>)
    ensures item !in t.index ==> r == Err(KeyError)
    ensures r.Err? ==> r.error == KeyError
    ensures r.Ok? ==> (item in t.index &&
      exists k :: FirstActive(t.index[item], t.data, ts, k) && r.value == WithoutWindow(t.data[t.index[item][k]]))
  {
    if item !in t.index then Err(KeyError)
    else match Scan(t.index[item], t.data, ts)
      case Ok(k) => Ok(WithoutWindow(t.data[t.index[item][k]]))
      case Err(e) => Err(e)
  }

  /** `_check_inv_operation_for_date`: `True` when an active entry exists, never `False`. */
  function InvOperationForDate(item: string, ts: int, t: Table): (r: Result<bool>)
    ensures r.Ok? ==> r.value && item in t.index && exists k :: FirstActive(t.index[item], t.data, ts, k)
    ensures r.Err? ==> r.error == KeyError
    ensures r.Ok? <==> DataForDate(item, ts, t).Ok?
  {
    if item !in t.index then Err(KeyError)
    else match Scan(t.index[item], t.data, ts)
      case Ok(_) => Ok(true)
      case Err(e) => Err(e)
  }

  /** `_check_zone_exception_for_date`: the `cqz` of the first active entry. */
  function ZoneExceptionForDate(item: string, ts: int, t: Table): (r: Result<Value>)
    ensures r.Err? ==> r.error == KeyError
    ensures r.Ok? ==> (item in t.index && exists k :: (FirstActive(t.index[item], t.data, ts, k)
      && CQZ in t.data[t.index[item][k]] && r.value == t.data[t.index[item][k]][CQZ]))
    ensures r.Ok? ==> DataForDate(item, ts, t).Ok? && DataForDate(item, ts, t).value[CQZ] == r.value
  {
    if item !in t.index then Err(KeyError)
    else match Scan(t.index[item], t.data, ts)
      case Ok(k) =>
        var rec := t.data[t.index[item][k]];
        if CQZ in rec then Ok(rec[CQZ]) else Err(KeyError)
      case Err(e) => Err(e)
  }

  /** An indexed key whose list has an active record gets the first such record, window
      keys removed. */
  lemma DataForDateFound(item: string, ts: int, t: Table, k: int)
    requires item in t.index && FirstActive(t.index[item], t.data, ts, k)
    ensures DataForDate(item, ts, t) == Ok(WithoutWindow(t.data[t.index[item][k]]))
  {
    ScanFirst(t.index[item], t.data, ts, k);
  }

  /** Every listed record exists and none is active at `ts`. */
  predicate AllClosed(ids: seq<int>, data: map<int, Record>, ts: int)
  {
    forall j :: 0 <= j < |ids| ==> ids[j] in data && !ActiveAt(data[ids[j]], ts)
  }

  /** An indexed key whose listed records are all closed at `ts` raises `KeyError`. */
  lemma DataForDateClosed(item: string, ts: int, t: Table)
    requires item in t.index
    requires AllClosed(t.index[item], t.data, ts)
    ensures DataForDate(item, ts, t) == Err(KeyError)
  {
    ScanFindsActive(t.index[item], t.data, ts);
  }

  /** The zone of the first active record, and `KeyError` when that record lacks `cqz`. */
  lemma ZoneExceptionFound(item: string, ts: int, t: Table, k: int)
    requires item in t.index && FirstActive(t.index[item], t.data, ts, k)
    ensures var rec := t.data[t.index[item][k]];
      ZoneExceptionForDate(item, ts, t) == if CQZ in rec then Ok(rec[CQZ]) else Err(KeyError)
  {
    ScanFirst(t.index[item], t.data, ts, k);
  }

  /** A key whose listed records are all closed at `ts` has no zone exception. */
  lemma ZoneExceptionClosed(item: string, ts: int, t: Table)
    requires item in t.index
    requires AllClosed(t.index[item], t.data, ts)
    ensures ZoneExceptionForDate(item, ts, t) == Err(KeyError)
  {
    ScanFindsActive(t.index[item], t.data, ts);
  }

  method CheckDataForDate(item: string, ts: int, data: map<int, Record>, index: map<string, seq<int>>)
    returns (r: Result<Record>)
    ensures r == DataForDate(item, ts, Table(data, index))
  {
    if item !in index {
      return Err(KeyError);
    }
    var found := ScanWindows(index[item], data, ts);
    match found
    case Ok(k) =>
      var rec := data[index[item][k]];
      if START in rec {
        rec := rec - {START};
      }
      if END in rec {
        rec := rec - {END};
      }
      assert rec == WithoutWindow(data[index[item][k]]);
      return Ok(rec);
    case Err(e) =>
      return Err(e);
  }

  method CheckInvOperationForDate(item: string, ts: int, data: map<int, Record>, index: map<string, seq<int>>)
    returns (r: Result<bool>)
    ensures r == InvOperationForDate(item, ts, Table(data, index))
  {
    if item !in index {
      return Err(KeyError);
    }
    var found := ScanWindows(index[item], data, ts);
    if found.Ok? {
      return Ok(true);
    }
    return Err(KeyError);
  }

  method CheckZoneExceptionForDate(item: string, ts: int, data: map<int, Record>, index: map<string, seq<int>>)
    returns (r: Result<Value>)
    ensures r == ZoneExceptionForDate(item, ts, Table(data, index))
  {
    if item !in index {
      return Err(KeyError);
    }
    var found := ScanWindows(index[item], data, ts);
    if found.Err? {
      return Err(KeyError);
    }
    var rec := data[index[item][found.value]];
    if CQZ !in rec {
      return Err(KeyError);
    }
    return Ok(rec[CQZ]);
  }

  /** The two back ends whose tables live in memory. */
  datatype LookupType = ClublogXml | CountryFile

  datatype LookupLib = LookupLib(
    kind: LookupType,
    entities: map<int, Record>,
    callsignExceptions: Table,
    prefixes: Table,
    invalidOperations: Table,
    zoneExceptions: Table)

  /** `key.strip().upper()`, applied to every callsign or prefix before a lookup. */
  function Normalise(key: string): (r: string)
    ensures |r| <= |key| && IsUpperCase(r)
    ensures |r| > 0 ==> !IsSpace(r[0]) && !IsSpace(r[|r| - 1])
  {
    StripEnds(key);
    UpperIsUpperCase(Strip(key));
    UpperEnds(Strip(key));
    Upper(Strip(key))
  }

  lemma StripUnspaced(s: string)
    requires |s| > 0 ==> !IsSpace(s[0]) && !IsSpace(s[|s| - 1])
    ensures Strip(s) == s
  {
  }

  /** Normalising twice is normalising once, so a lookup never depends on leading or
      trailing whitespace or on letter case. */
  lemma NormaliseIdempotent(key: string)
    ensures Normalise(Normalise(key)) == Normalise(key)
  {
    var n := Normalise(key);
    StripUnspaced(n);
    UpperIsUpperCase(n);
  }

  /** `lookup_entity`: only the clublogxml back end holds the entity table. */
  function LookupEntity(lib: LookupLib, entity: int): (r: Result<Record>)
    ensures r.Ok? <==> lib.kind == ClublogXml && entity in lib.entities
    ensures r.Ok? ==> (r.value.Keys == lib.entities[entity].Keys - Metadata
      && forall k :: k in r.value ==> r.value[k] == lib.entities[entity][k])
    ensures r.Err? ==> r.error == KeyError
  {
    if lib.kind == ClublogXml && entity in lib.entities then Ok(StripMetadata(lib.entities[entity]))
    else Err(KeyError)
  }

  /** `lookup_callsign`: exact callsign entries, both back ends. */
  function LookupCallsign(lib: LookupLib, callsign: string, ts: int): (r: Result<Record>)
    ensures Normalise(callsign) !in lib.callsignExceptions.index ==> r == Err(KeyError)
    ensures r.Err? ==> r.error == KeyError
  {
    DataForDate(Normalise(callsign), ts, lib.callsignExceptions)
  }

  /** `lookup_prefix`: prefix entries, both back ends. */
  function LookupPrefix(lib: LookupLib, prefix: string, ts: int): (r: Result<Record>)
    ensures Normalise(prefix) !in lib.prefixes.index ==> r == Err(KeyError)
    ensures r.Err? ==> r.error == KeyError
  {
    DataForDate(Normalise(prefix), ts, lib.prefixes)
  }

  /** `is_invalid_operation`: clublogxml only; any other back end raises `KeyError`. */
  function IsInvalidOperation(lib: LookupLib, callsign: string, ts: int): (r: Result<bool>)
    ensures lib.kind != ClublogXml ==> r == Err(KeyError)
    ensures r.Ok? ==> r.value
    ensures r.Err? ==> r.error == KeyError
    ensures lib.kind == ClublogXml ==> (r.Ok? <==> DataForDate(Normalise(callsign), ts, lib.invalidOperations).Ok?)
  {
    if lib.kind == ClublogXml then InvOperationForDate(Normalise(callsign), ts, lib.invalidOperations)
    else Err(KeyError)
  }

  /** `lookup_zone_exception`: clublogxml only; any other back end raises `KeyError`. */
  function LookupZoneException(lib: LookupLib, callsign: string, ts: int): (r: Result<Value>)
    ensures lib.kind != ClublogXml ==> r == Err(KeyError)
    ensures r.Err? ==> r.error == KeyError
    ensures r.Ok? ==> (var d := DataForDate(Normalise(callsign), ts, lib.zoneExceptions);
      d.Ok? && CQZ in d.value && d.value[CQZ] == r.value)
  {
    if lib.kind == ClublogXml then ZoneExceptionForDate(Normalise(callsign), ts, lib.zoneExceptions)
    else Err(KeyError)
  }

  /** An exact callsign entry active at `ts` is found. */
  lemma LookupCallsignFound(lib: LookupLib, callsign: string, ts: int, k: int)
    requires Normalise(callsign) in lib.callsignExceptions.index
    requires FirstActive(lib.callsignExceptions.index[Normalise(callsign)], lib.callsignExceptions.data, ts, k)
    ensures LookupCallsign(lib, callsign, ts)
      == Ok(WithoutWindow(lib.callsignExceptions.data[lib.callsignExceptions.index[Normalise(callsign)][k]]))
  {
    DataForDateFound(Normalise(callsign), ts, lib.callsignExceptions, k);
  }

  /** A prefix entry active at `ts` is found. */
  lemma LookupPrefixFound(lib: LookupLib, prefix: string, ts: int, k: int)
    requires Normalise(prefix) in lib.prefixes.index
    requires FirstActive(lib.prefixes.index[Normalise(prefix)], lib.prefixes.data, ts, k)
    ensures LookupPrefix(lib, prefix, ts)
      == Ok(WithoutWindow(lib.prefixes.data[lib.prefixes.index[Normalise(prefix)][k]]))
  {
    DataForDateFound(Normalise(prefix), ts, lib.prefixes, k);
  }

  /** On clublogxml, an invalid-operation entry active at `ts` makes the callsign invalid. */
  lemma InvalidOperationFound(lib: LookupLib, callsign: string, ts: int, k: int)
    requires lib.kind == ClublogXml && Normalise(callsign) in lib.invalidOperations.index
    requires FirstActive(lib.invalidOperations.index[Normalise(callsign)], lib.invalidOperations.data, ts, k)
    ensures IsInvalidOperation(lib, callsign, ts) == Ok(true)
  {
    DataForDateFound(Normalise(callsign), ts, lib.invalidOperations, k);
  }

  /** On clublogxml, the first zone-exception entry active at `ts` gives its `cqz`. */
  lemma ZoneExceptionLookupFound(lib: LookupLib, callsign: string, ts: int, k: int)
    requires lib.kind == ClublogXml && Normalise(callsign) in lib.zoneExceptions.index
    requires FirstActive(lib.zoneExceptions.index[Normalise(callsign)], lib.zoneExceptions.data, ts, k)
    ensures var rec := lib.zoneExceptions.data[lib.zoneExceptions.index[Normalise(callsign)][k]];
      LookupZoneException(lib, callsign, ts) == if CQZ in rec then Ok(rec[CQZ]) else Err(KeyError)
  {
    ZoneExceptionFound(Normalise(callsign), ts, lib.zoneExceptions, k);
  }

  /** All lookups read their key through `Normalise`: a key and its normal form give the
      same answer. */
  lemma LookupsNormalise(lib: LookupLib, key: string, ts: int)
    ensures LookupCallsign(lib, Normalise(key), ts) == LookupCallsign(lib, key, ts)
    ensures LookupPrefix(lib, Normalise(key), ts) == LookupPrefix(lib, key, ts)
    ensures IsInvalidOperation(lib, Normalise(key), ts) == IsInvalidOperation(lib, key, ts)
    ensures LookupZoneException(lib, Normalise(key), ts) == LookupZoneException(lib, key, ts)
  {
    NormaliseIdempotent(key);
  }

  /** Python's `str(b)` for a boolean, as `_serialize_data` writes it. */
  function PyBoolStr(b: bool): string
  {
    if b then "True" else "False"
  }

  /** `_str_to_bool`: "true" or "false" in any letter case; anything else raises `KeyError`. */
  function StrToBool(s: string): (r: Result<bool>)
    ensures r.Ok? <==> Lower(s) == "true" || Lower(s) == "false"
    ensures r.Ok? ==> (r.value <==> Lower(s) == "true")
    ensures r.Err? ==> r.error == KeyError
  {
    if Lower(s) == "true" then Ok(true)
    else if Lower(s) == "false" then Ok(false)
    else Err(KeyError)
  }

  /** Booleans written out with `str()` read back unchanged. */
  lemma StrToBoolRoundTrip(b: bool)
    ensures StrToBool(PyBoolStr(b)) == Ok(b)
  {
    if b {
      assert Lower("True") == "true";
    } else {
      assert Lower("False") == "false";
    }
  }
}
