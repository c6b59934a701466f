/** Entity records: the dictionaries the lookup library hands back, keyed by the
    `LookupConventions` strings, and the validity window some of them carry. */
module Records {

  /** A dictionary value. Timestamps (`start`, `end`) are whole seconds since the epoch, UTC. */
  datatype Value = Int(i: int) | Real(r: real) | Str(s: string) | Bool(b: bool) | Time(t: int)

  const COUNTRY := "country"
  const ADIF := "adif"
  const CQZ := "cqz"
  const ITUZ := "ituz"
  const CONTINENT := "continent"
  const LATITUDE := "latitude"
  const LONGITUDE := "longitude"
  const START := "start"
  const END := "end"
  const WHITELIST := "whitelist"
  const WHITELIST_START := "whitelist_start"
  const WHITELIST_END := "whitelist_end"
  const BEACON := "beacon"

  /** The keys `_strip_metadata` removes. */
  const Metadata: set<string> := {START, END, WHITELIST, WHITELIST_START, WHITELIST_END}

  /** The loaders only ever store datetimes under `start` and `end`. */
  predicate WindowTyped(m: map<string, Value>)
  {
    (START in m ==> m[START].Time?) && (END in m ==> m[END].Time?)
  }

  type Record = m: map<string, Value> | WindowTyped(m) witness map[]

  /** The record's optional window is open at `ts`; both comparisons are strict. */
  predicate ActiveAt(rec: Record, ts: int)
  {
    (START in rec ==> rec[START].t < ts) && (END in rec ==> rec[END].t > ts)
  }

  /** The copy handed out once a windowed record is selected: `start` and `end` deleted. */
  function WithoutWindow(rec: Record): (r: Record)
    ensures r.Keys == rec.Keys - {START, END}
    ensures forall k :: k in r ==> r[k] == rec[k]
  {
    rec - {START, END}
  }

  /** `_strip_metadata`: a copy without the window and whitelist keys, everything else kept. */
  function StripMetadata(rec: Record): (r: Record)
    ensures r.Keys == rec.Keys - Metadata
    ensures forall k :: k in r ==> r[k] == rec[k]
  {
    rec - Metadata
  }

  /** A stripped record has no window left, so it is active at every instant, and stripping
      twice, or after the window copy, changes nothing more. */
  lemma StripMetadataSpec(rec: Record, ts: int)
    ensures ActiveAt(StripMetadata(rec), ts)
    ensures StripMetadata(StripMetadata(rec)) == StripMetadata(rec)
    ensures StripMetadata(WithoutWindow(rec)) == StripMetadata(rec)
  {
  }

  /** The window copy keeps a record active exactly when the record is, at every instant
      after the selection: it has no window of its own any more. */
  lemma WithoutWindowAlwaysActive(rec: Record, ts: int)
    ensures ActiveAt(WithoutWindow(rec), ts)
    ensures rec.Keys * {START, END} == {} ==> WithoutWindow(rec) == rec
  {
  }

  /** The fixed answer for maritime-mobile stations (ADIF 999). */
  function MaritimeMobile(): (r: Record)
    ensures r.Keys == {ADIF, CONTINENT, COUNTRY, CQZ, LATITUDE, LONGITUDE}
    ensures r[ADIF] == Int(999) && r[COUNTRY] == Str("MARITIME MOBILE")
    ensures r[CQZ] == Int(0) && r[CONTINENT] == Str("")
    ensures r[LATITUDE] == Real(0.0) && r[LONGITUDE] == Real(0.0)
  {
    map[ADIF := Int(999), CONTINENT := Str(""), COUNTRY := Str("MARITIME MOBILE"), CQZ := Int(0),
        LATITUDE := Real(0.0), LONGITUDE := Real(0.0)]
  }

  /** The fixed answer for aircraft-mobile stations (ADIF 998); the country text is spelled
      "AIRCAFT MOBILE" in pyhamtools. */
  function AircraftMobile(): (r: Record)
    ensures r.Keys == {ADIF, CONTINENT, COUNTRY, CQZ, LATITUDE, LONGITUDE}
    ensures r[ADIF] == Int(998) && r[COUNTRY] == Str("AIRCAFT MOBILE")
    ensures r[CQZ] == Int(0) && r[CONTINENT] == Str("")
    ensures r[LATITUDE] == Real(0.0) && r[LONGITUDE] == Real(0.0)
  {
    map[ADIF := Int(998), CONTINENT := Str(""), COUNTRY := Str("AIRCAFT MOBILE"), CQZ := Int(0),
        LATITUDE := Real(0.0), LONGITUDE := Real(0.0)]
  }

  /** `data[const.BEACON] = True` on a copy. */
  function WithBeacon(rec: Record): (r: Record)
    ensures r.Keys == rec.Keys + {BEACON} && r[BEACON] == Bool(true)
    ensures forall k :: k in rec && k != BEACON ==> r[k] == rec[k]
  {
    rec[BEACON := Bool(true)]
  }
}
