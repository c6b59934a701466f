/** Index building in `_parse_country_file`: each already-parsed country-file entry becomes a
    record in the exceptions table (exact callsigns) or the prefixes table, numbered
    consecutively per table, and its key's index list gets that number appended. */
module CountryFile {
  import opened Text
  import opened Records
  import opened Lookup

  /** One entry of the parsed property list, keyed by its callsign or prefix. */
  datatype CtyItem = CtyItem(
    call: string,
    country: string,
    cqZone: int,
    ituZone: int,
    continent: string,
    latitude: real,
    longitude: real,
    exactCallsign: bool)

  datatype CountryTables = CountryTables(exceptions: Table, prefixes: Table)

  /** `mapping[country]` is only read when a country mapping was given at all. */
  predicate Mapped(item: CtyItem, mapping: map<string, int>)
  {
    mapping == map[] || item.country in mapping
  }

  predicate AllMapped(items: seq<CtyItem>, mapping: map<string, int>)
  {
    forall i :: 0 <= i < |items| ==> Mapped(items[i], mapping)
  }

  /** The first `n` entries are all covered by the mapping. */
  predicate MappedUpTo(items: seq<CtyItem>, n: nat, mapping: map<string, int>)
    requires n <= |items|
  {
    n == 0 || (MappedUpTo(items, n - 1, mapping) && Mapped(items[n - 1], mapping))
  }

  lemma {:induction false} MappedUpToAll(items: seq<CtyItem>, n: nat, mapping: map<string, int>)
    requires n <= |items|
    ensures MappedUpTo(items, n, mapping) <==> forall k :: 0 <= k < n ==> Mapped(items[k], mapping)
  {
    if n > 0 {
      MappedUpToAll(items, n - 1, mapping);
    }
  }

  /** The record stored for one entry. The mapping is only consulted for entries it covers
      (`Mapped`); an uncovered country makes the whole parse fail instead. */
  function EntryOf(item: CtyItem, mapping: map<string, int>): (r: Record)
    ensures r.Keys == {COUNTRY, CQZ, ITUZ, CONTINENT, LATITUDE, LONGITUDE}
      + (if item.country in mapping then {ADIF} else {})
    ensures r[LONGITUDE] == Real(-item.longitude)
  {
    var e := map[COUNTRY := Str(item.country), CQZ := Int(item.cqZone), ITUZ := Int(item.ituZone),
                 CONTINENT := Str(item.continent), LATITUDE := Real(item.latitude),
                 LONGITUDE := Real(-item.longitude)];
    if item.country in mapping then e[ADIF := Int(mapping[item.country])] else e
  }

  /** The stored record copies the entry's fields, flips the sign of the longitude, and has
      an `adif` number exactly when a country mapping was given. */
  lemma EntryOfSpec(item: CtyItem, mapping: map<string, int>)
    requires Mapped(item, mapping)
    ensures EntryOf(item, mapping).Keys
      == {COUNTRY, CQZ, ITUZ, CONTINENT, LATITUDE, LONGITUDE} + (if mapping == map[] then {} else {ADIF})
    ensures EntryOf(item, mapping)[COUNTRY] == Str(item.country)
    ensures EntryOf(item, mapping)[CONTINENT] == Str(item.continent)
    ensures EntryOf(item, mapping)[CQZ] == Int(item.cqZone) && EntryOf(item, mapping)[ITUZ] == Int(item.ituZone)
    ensures EntryOf(item, mapping)[LATITUDE] == Real(item.latitude)
    ensures EntryOf(item, mapping)[LONGITUDE] == Real(-item.longitude)
    ensures mapping != map[] ==> EntryOf(item, mapping)[ADIF] == Int(mapping[item.country])
  {
  }

  /** The entries whose `ExactCallsign` flag equals `exact`, in order. */
  function Pick(items: seq<CtyItem>, exact: bool): (r: seq<CtyItem>)
    ensures |r| <= |items|
    ensures forall j :: 0 <= j < |r| ==> r[j].exactCallsign == exact
  {
    if |items| == 0 then []
    else
      var last := items[|items| - 1];
      Pick(items[..|items| - 1], exact) + (if last.exactCallsign == exact then [last] else [])
  }

  /** The positions in `xs` whose key is `call`, ascending. */
  function Positions(xs: seq<CtyItem>, call: string): seq<int>
  {
    if |xs| == 0 then []
    else Positions(xs[..|xs| - 1], call) + (if xs[|xs| - 1].call == call then [|xs| - 1] else [])
  }

  function Calls(xs: seq<CtyItem>): set<string>
  {
    set i | 0 <= i < |xs| :: xs[i].call
  }

  /** The table the loop has built after the entries `xs`: the next record number is the
      number of entries so far, and the key's list gets it appended. */
  function TableOf(xs: seq<CtyItem>, mapping: map<string, int>): Table
  {
    if |xs| == 0 then Table(map[], map[])
    else
      var t := TableOf(xs[..|xs| - 1], mapping);
      var x := xs[|xs| - 1];
      var n := |xs| - 1;
      Table(t.data[n := EntryOf(x, mapping)],
            t.index[x.call := (if x.call in t.index then t.index[x.call] else []) + [n]])
  }

  /** The outcome of `_parse_country_file` as a function of its entries. */
  function ParseCountryFileSpec(items: seq<CtyItem>, mapping: map<string, int>): (r: Result<CountryTables>)
    ensures r.Err? <==> exists i :: 0 <= i < |items| && !Mapped(items[i], mapping)
    ensures r.Err? ==> r.error == KeyError
  {
    if AllMapped(items, mapping) then
      Ok(CountryTables(TableOf(Pick(items, true), mapping), TableOf(Pick(items, false), mapping)))
    else Err(KeyError)
  }

  lemma PickMultiset(xs: seq<CtyItem>, x: CtyItem)
    ensures |xs + [x]| == |xs| + 1 && multiset(xs + [x]) == multiset(xs) + multiset{x}
  {
  }

  /** Every entry lands in exactly one of the two tables. */
  lemma {:induction false} PickPartition(items: seq<CtyItem>)
    ensures |Pick(items, true)| + |Pick(items, false)| == |items|
    ensures multiset(Pick(items, true)) + multiset(Pick(items, false)) == multiset(items)
  {
    if |items| > 0 {
      var init := items[..|items| - 1];
      var last := items[|items| - 1];
      PickPartition(init);
      assert items == init + [last];
      assert multiset(items) == multiset(init) + multiset{last};
      if last.exactCallsign {
        PickMultiset(Pick(init, true), last);
      } else {
        PickMultiset(Pick(init, false), last);
      }
    }
  }

  /** An index list holds exactly the numbers of the entries with that key, in insertion
      order. */
  lemma PositionsSpec(xs: seq<CtyItem>, call: string)
    ensures forall k :: k in Positions(xs, call) <==> 0 <= k < |xs| && xs[k].call == call
    ensures forall a, b :: 0 <= a < b < |Positions(xs, call)| ==> Positions(xs, call)[a] < Positions(xs, call)[b]
    ensures call !in Calls(xs) ==> Positions(xs, call) == []
  {
    PositionsMembers(xs, call);
    PositionsAscending(xs, call);
    if call !in Calls(xs) {
      PositionsAbsent(xs, call);
    }
  }

  lemma {:induction false} PositionsMembers(xs: seq<CtyItem>, call: string)
    ensures forall k :: k in Positions(xs, call) <==> 0 <= k < |xs| && xs[k].call == call
  {
    if |xs| > 0 {
      var init := xs[..|xs| - 1];
      PositionsMembers(init, call);
      assert forall k :: 0 <= k < |init| ==> init[k] == xs[k];
    }
  }

  lemma {:induction false} PositionsAscending(xs: seq<CtyItem>, call: string)
    ensures forall a, b :: 0 <= a < b < |Positions(xs, call)| ==> Positions(xs, call)[a] < Positions(xs, call)[b]
  {
    if |xs| > 0 {
      var init := xs[..|xs| - 1];
      PositionsAscending(init, call);
      PositionsMembers(init, call);
      var p := Positions(init, call);
      forall a | 0 <= a < |p|
        ensures p[a] < |init|
      {
        assert p[a] in p;
      }
    }
  }

  lemma {:induction false} PositionsAbsent(xs: seq<CtyItem>, call: string)
    requires call !in Calls(xs)
    ensures Positions(xs, call) == []
  {
    if |xs| > 0 {
      var init := xs[..|xs| - 1];
      forall c | c in Calls(init)
        ensures c in Calls(xs)
      {
        var k :| 0 <= k < |init| && init[k].call == c;
        assert xs[k].call == c;
      }
      PositionsAbsent(init, call);
      assert xs[|xs| - 1].call in Calls(xs);
    }
  }

  /** What the built table holds: record numbers run from 0 without gaps and record `k` is
      the entry of the `k`-th item. */
  lemma {:induction false} TableOfData(xs: seq<CtyItem>, mapping: map<string, int>)
    ensures forall k :: k in TableOf(xs, mapping).data <==> 0 <= k < |xs|
    ensures forall k :: 0 <= k < |xs| ==> TableOf(xs, mapping).data[k] == EntryOf(xs[k], mapping)
  {
    if |xs| > 0 {
      var init := xs[..|xs| - 1];
      TableOfData(init, mapping);
      assert forall k :: 0 <= k < |init| ==> init[k] == xs[k];
    }
  }

  /** Every key of an item is indexed, no other key is, and its list is exactly the
      positions of its items, in ascending order. */
  lemma {:induction false} TableOfIndex(xs: seq<CtyItem>, mapping: map<string, int>)
    ensures TableOf(xs, mapping).index.Keys == Calls(xs)
    ensures forall c :: c in Calls(xs) ==> TableOf(xs, mapping).index[c] == Positions(xs, c)
  {
    if |xs| > 0 {
      var init := xs[..|xs| - 1];
      var x := xs[|xs| - 1];
      TableOfIndex(init, mapping);
      assert Calls(xs) == Calls(init) + {x.call} by {
        assert xs == init + [x];
        assert forall k :: 0 <= k < |init| ==> init[k] == xs[k];
      }
      var t := TableOf(init, mapping);
      forall c | c in Calls(xs)
        ensures TableOf(xs, mapping).index[c] == Positions(xs, c)
      {
        if c == x.call && c !in t.index {
          assert c !in Calls(init);
          PositionsSpec(init, c);
        }
      }
    }
  }

  lemma PickStep(items: seq<CtyItem>, i: nat, exact: bool)
    requires i < |items|
    ensures Pick(items[..i + 1], exact)
      == Pick(items[..i], exact) + (if items[i].exactCallsign == exact then [items[i]] else [])
  {
    assert items[..i + 1][..i] == items[..i];
  }

  /** One turn of the loop for the table of `exact` entries: an entry with that flag is
      appended as record number `counter`; any other entry leaves the table alone. */
  lemma Turn(items: seq<CtyItem>, i: nat, exact: bool, mapping: map<string, int>,
             data: map<int, Record>, index: map<string, seq<int>>, counter: int)
    requires i < |items|
    requires Table(data, index) == TableOf(Pick(items[..i], exact), mapping)
    requires counter == |Pick(items[..i], exact)|
    ensures items[i].exactCallsign == exact ==>
      counter + 1 == |Pick(items[..i + 1], exact)| &&
      Table(data[counter := EntryOf(items[i], mapping)],
            index[items[i].call := (if items[i].call in index then index[items[i].call] else []) + [counter]])
      == TableOf(Pick(items[..i + 1], exact), mapping)
    ensures items[i].exactCallsign != exact ==> Pick(items[..i + 1], exact) == Pick(items[..i], exact)
  {
    PickStep(items, i, exact);
    var before := Pick(items[..i], exact);
    assert (before + [items[i]])[..|before|] == before;
  }

  /** `_parse_country_file` after the property list has been read: walk the entries and
      append each to the exceptions or the prefixes table. */
  method ParseCountryFile(items: seq<CtyItem>, mapping: map<string, int>) returns (r: Result<CountryTables>)
    ensures r == ParseCountryFileSpec(items, mapping)
  {
    var exceptions: map<int, Record> := map[];
    var exceptionsIndex: map<string, seq<int>> := map[];
    var exceptionsCounter := 0;
    var prefixes: map<int, Record> := map[];
    var prefixesIndex: map<string, seq<int>> := map[];
    var prefixesCounter := 0;
    for i := 0 to |items|
      invariant MappedUpTo(items, i, mapping)
      invariant exceptionsCounter == |Pick(items[..i], true)|
      invariant prefixesCounter == |Pick(items[..i], false)|
      invariant Table(exceptions, exceptionsIndex) == TableOf(Pick(items[..i], true), mapping)
      invariant Table(prefixes, prefixesIndex) == TableOf(Pick(items[..i], false), mapping)
    {
      var item := items[i];
      if !Mapped(item, mapping) {
        assert !AllMapped(items, mapping);
        return Err(KeyError);
      }
      var entry := EntryOf(item, mapping);
      Turn(items, i, true, mapping, exceptions, exceptionsIndex, exceptionsCounter);
      Turn(items, i, false, mapping, prefixes, prefixesIndex, prefixesCounter);
      if item.exactCallsign {
        var listed := if item.call in exceptionsIndex then exceptionsIndex[item.call] else [];
        exceptionsIndex := exceptionsIndex[item.call := listed + [exceptionsCounter]];
        exceptions := exceptions[exceptionsCounter := entry];
        exceptionsCounter := exceptionsCounter + 1;
      } else {
        var listed := if item.call in prefixesIndex then prefixesIndex[item.call] else [];
        prefixesIndex := prefixesIndex[item.call := listed + [prefixesCounter]];
        prefixes := prefixes[prefixesCounter := entry];
        prefixesCounter := prefixesCounter + 1;
      }
    }
    assert items[..|items|] == items;
    MappedUpToAll(items, |items|, mapping);
    assert AllMapped(items, mapping);
    return Ok(CountryTables(Table(exceptions, exceptionsIndex), Table(prefixes, prefixesIndex)));
  }
}
