# pyhamtools callsign resolution in Dafny

A Dafny model of the core of pyhamtools, a Python library for amateur-radio software. The
model covers:

- **Callsign resolution** (`pyhamtools/callinfo.py`). `Callinfo` turns a raw, possibly
  compound callsign and a timestamp into one entity record. It checks for an invalid
  operation first. It then short-circuits `/MM` and `/AM`, tries the exact callsign table
  (with the beacon flag), and finally dismantles the call:
  - session suffixes, second appendixes, multi- and single-character appendixes;
  - prefix overrides;
  - the static exceptions table.

  Every dismantled form ends in a longest-prefix search (`_iterate_prefix`). `get_all` puts
  the CQ-zone exception on top, and `get_homecall` extracts the bare callsign.
- **Record selection** (`pyhamtools/lookuplib.py`). The in-memory `clublogxml` and
  `countryfile` lookup tables pick the first record whose optional start/end window is
  active at a timestamp. The model also covers the index building of the country file and
  `_str_to_bool`.
- **The smaller pure pieces:**
  - the band plan `freq_to_band`;
  - the Maidenhead conversions `locator_to_latlong` and `latlong_to_locator`;
  - the DX-cluster spot decoders;
  - the Cabrillo QSO-line importer.

The modules follow the source files:

| module | file | models |
|---|---|---|
| `Text` | text.dfy | the Python string operations the source uses: `upper`, `strip`, slicing, `in`, `re.sub` of a literal |
| `Records` | records.dfy | records as dictionaries, the window test, `_strip_metadata`, the fixed mobile records |
| `Lookup` | lookup.dfy | the `_check_*_for_date` scans and the table lookups of `LookupLib` |
| `CountryFile` | countryfile.dfy | the index building of `_parse_country_file` |
| `Grammar` | grammar.dfy | the bare-callsign pattern and `get_homecall` |
| `HomecallExamples` | grammar.dfy | worked cases of `get_homecall` |
| `CallInfo` | callinfo.dfy | `_iterate_prefix`, the `check_if_*` tests, `_dismantle_callsign`, `_lookup_callsign`, `get_all`, `is_valid_callsign` |
| `CallInfoRules` | callinfo_rules.dfy | the resolution rules, stated on callsign shapes |
| `Frequency` | frequency.dfy | `freq_to_band` |
| `Locator` | locator.dfy | `locator_to_latlong` and `latlong_to_locator` |
| `DxCluster` | dxcluster.dfy | `decode_char_spot`, `decode_pc11_message`, `decode_pc61_message` |
| `LogParser` | logparser.dfy | `import_cabrillo` on the text of the file |

**How the model is built:**
- Timestamps are integers (seconds since the epoch, UTC). The VK9 cutoff of 2006-01-01 is
  1136073600.
- A record is a map from the constant key names to values.
- The lookup backend is a value, `LookupLib`, holding its kind and its tables. The
  `callsign_exceptions` table is a map parameter.
- The two `_iterate_prefix` calls that pass no timestamp use a `now` parameter. These are
  the prefix-form branch at `callinfo.py:222` and the exceptions-table branch at
  `callinfo.py:225`.
- Python's `float()`, `strptime` and `datetime.now` are parameters of the decoders.

**Regular expressions and the dismantling plan:**
- The regular expressions are hand-written scanners. Each pattern's anchors and
  repetition bounds are stated as predicates.
- The bare-callsign pattern also has a declarative reading (`Grammar.InCallsignLanguage`),
  and the scanner is proved equivalent to it.
- `_dismantle_callsign` is modelled as a plan (`CallInfo.DismantlePlan`). The plan is one of:
  - a fixed record;
  - one prefix search, on a given string at a given time, flagged as a beacon or not;
  - a refusal.

  `CallInfo.Execute` carries the plan out against the lookup tables. This lets the string
  rules be stated without the tables.

**Where the model follows the code rather than the documented intent:**
- The digit-appendix rule (`callinfo.py:198`) counts matches of the raw pattern `r'\\d+'`.
  That pattern is a literal backslash followed by `d`s, so for a callsign of letters,
  digits and slashes the count is never 1. The call area is therefore never rewritten:
  `DH1TW/4` is searched as `DH1TW`.
- A one-character appendix other than `B` or a digit (`/P`, `/M`) is not removed. The
  whole call, slash included, goes to the prefix search, which cuts it down from the end.
- The aircraft-mobile record's country text is `AIRCAFT MOBILE`, as spelled in the source.
- The invalid-operation check runs before the `/MM` and `/AM` checks.

## Model

| member | source | states |
|---|---|---|
| Records.WithoutWindow | pyhamtools/lookuplib.py:414-434 | the returned copy lacks exactly `start` and `end`; every other key keeps its value |
| Records.WithoutWindowAlwaysActive | pyhamtools/lookuplib.py:411-438 | a record without `start` and `end` is active at every timestamp and is returned as it is |
| Records.StripMetadata | pyhamtools/lookuplib.py:293-308 | the copy lacks exactly start, end, whitelist, whitelist_start and whitelist_end; every other key is unchanged |
| Records.StripMetadataSpec | pyhamtools/lookuplib.py:293-308 | a stripped record is active at every time; stripping is idempotent and also removes what a window cut would |
| Records.MaritimeMobile | pyhamtools/callinfo.py:244-251 | the `/MM` record: exactly six keys, adif 999, country MARITIME MOBILE, cqz 0, empty continent, latitude and longitude 0.0 |
| Records.AircraftMobile | pyhamtools/callinfo.py:253-260 | the `/AM` record: exactly six keys, adif 998, country AIRCAFT MOBILE, cqz 0, empty continent, latitude and longitude 0.0 |
| Records.WithBeacon | pyhamtools/callinfo.py:265-267 | adds `beacon = True` and leaves every other key as it was |
| Lookup.ScanFindsActive | pyhamtools/lookuplib.py:410-440 | the scan of an index list succeeds exactly when some listed record is active at the timestamp |
| Lookup.Scan | pyhamtools/lookuplib.py:410-440 | a found position is the first active record of the list; failure is `KeyError` |
| Lookup.ScanWindows | pyhamtools/lookuplib.py:411-438 | the loop over the index list returns what `Scan` specifies |
| Lookup.DataForDate | pyhamtools/lookuplib.py:403-440 | `KeyError` for a key absent from the index or with no active record; otherwise the first active record with its window keys removed |
| Lookup.CheckDataForDate | pyhamtools/lookuplib.py:403-440 | the method's loop returns what `DataForDate` specifies |
| Lookup.InvOperationForDate | pyhamtools/lookuplib.py:443-472 | returns `True` exactly when `_check_data_for_date` would find a record, and never `False` |
| Lookup.CheckInvOperationForDate | pyhamtools/lookuplib.py:443-472 | the method's loop returns what `InvOperationForDate` specifies |
| Lookup.ZoneExceptionForDate | pyhamtools/lookuplib.py:587-617 | returns the `cqz` of the first active record of the key, `KeyError` otherwise |
| Lookup.CheckZoneExceptionForDate | pyhamtools/lookuplib.py:587-617 | the method's loop returns what `ZoneExceptionForDate` specifies |
| Lookup.ScanFirst | pyhamtools/lookuplib.py:411-438 | the scan stops at the first active position of the list, whenever there is one |
| Lookup.DataForDateFound | pyhamtools/lookuplib.py:403-440 | an indexed key with an active record gets the first such record, its window keys removed |
| Lookup.DataForDateClosed | pyhamtools/lookuplib.py:403-440 | an indexed key whose records all exist and are all closed at the timestamp raises `KeyError` |
| Lookup.ZoneExceptionFound | pyhamtools/lookuplib.py:587-617 | the first active record gives its `cqz`; a first active record without `cqz` raises `KeyError` |
| Lookup.ZoneExceptionClosed | pyhamtools/lookuplib.py:587-617 | a key whose records are all closed at the timestamp has no zone exception |
| Lookup.Normalise | pyhamtools/lookuplib.py:354 | `strip().upper()` leaves an upper-case key with no whitespace at either end |
| Lookup.NormaliseIdempotent | pyhamtools/lookuplib.py:354 | normalising twice is normalising once |
| Lookup.LookupEntity | pyhamtools/lookuplib.py:232-291 | succeeds exactly for a clublogxml table holding the entity; the answer is the stored record without its metadata keys |
| Lookup.LookupCallsign | pyhamtools/lookuplib.py:311-378 | `KeyError` when the normalised call is not in the exceptions index |
| Lookup.LookupPrefix | pyhamtools/lookuplib.py:475-530 | `KeyError` when the normalised prefix is not in the prefix index |
| Lookup.IsInvalidOperation | pyhamtools/lookuplib.py:532-584 | only clublogxml answers; the answer is always `True`, given exactly when the invalid-operations table has an active record for the normalised call, and otherwise `KeyError` |
| Lookup.LookupZoneException | pyhamtools/lookuplib.py:620-668 | only clublogxml answers, every other kind raises `KeyError`; a zone found is the `cqz` of the active zone-exception record for the normalised call |
| Lookup.LookupsNormalise | pyhamtools/lookuplib.py:311-378 | each of the four lookups gives the same answer for a key and for its normalised form |
| Lookup.LookupCallsignFound | pyhamtools/lookuplib.py:311-378 | an exceptions entry for the normalised call that is active at the timestamp is returned, its window keys removed |
| Lookup.LookupPrefixFound | pyhamtools/lookuplib.py:475-530 | a prefix entry active at the timestamp is returned, its window keys removed |
| Lookup.InvalidOperationFound | pyhamtools/lookuplib.py:532-584 | on clublogxml an active invalid-operation entry for the normalised call gives `True` |
| Lookup.ZoneExceptionLookupFound | pyhamtools/lookuplib.py:620-668 | on clublogxml the first active zone-exception entry gives its `cqz`, or `KeyError` when it has none |
| Lookup.StrToBool | pyhamtools/lookuplib.py:1516-1522 | accepts exactly "true" and "false" in any case, with the matching value; anything else is `KeyError` |
| Lookup.StrToBoolRoundTrip | pyhamtools/lookuplib.py:1516-1522 | `str(b)` reads back as `b` |
| CountryFile.EntryOfSpec | pyhamtools/lookuplib.py:1402-1411 | with a country mapping covering the entry: it holds country, zones, continent, latitude and the negated longitude, each from the entry; adif is present exactly when a mapping is given |
| CountryFile.EntryOf | pyhamtools/lookuplib.py:1402-1411 | the record has the six fixed keys, plus `adif` exactly when the mapping covers the country, and the longitude with its sign flipped |
| CountryFile.ParseCountryFileSpec | pyhamtools/lookuplib.py:1402-1427 | building fails with `KeyError` exactly when a country is missing from the given mapping |
| CountryFile.PickPartition | pyhamtools/lookuplib.py:1413-1427 | every entry lands in exactly one table: exact callsigns and prefixes together are the input, as a multiset |
| CountryFile.PositionsSpec | pyhamtools/lookuplib.py:1414-1425 | an index list holds exactly the numbers of the entries with that key, ascending; an unknown key has none |
| CountryFile.TableOfData | pyhamtools/lookuplib.py:1419-1427 | record numbers run from 0 without gaps, and record `k` is the entry of the `k`-th item |
| CountryFile.TableOfIndex | pyhamtools/lookuplib.py:1414-1425 | exactly the keys of the items are indexed, each with the positions of its items |
| CountryFile.ParseCountryFile | pyhamtools/lookuplib.py:1402-1427 | the loop with its two counters builds what `ParseCountryFileSpec` specifies |
| Grammar.CallsignLanguage | pyhamtools/callinfo.py:208 | the scanner accepts exactly the strings of the pattern: 0-1 digit, 1-2 letters, a digit, 1-4 letters or 3 digits or 1-3 digits and a letter, then 0-5 letters |
| Grammar.CallsignChars | pyhamtools/callinfo.py:208 | a callsign has at least three characters, all upper-case letters or digits |
| Grammar.MatchAtSound | pyhamtools/callinfo.py:73 | a match reported at a position is a callsign there |
| Grammar.MatchAtComplete | pyhamtools/callinfo.py:73 | wherever a callsign starts, the matcher reports a match at that position |
| Grammar.GetHomecallSpec | pyhamtools/callinfo.py:72-78 | the home call is a callsign that occurs in the upper-cased input with no callsign starting further left; `ValueError` only when no substring is a callsign |
| Grammar.HomecallNeedsDigit | pyhamtools/callinfo.py:72-78 | a call without a digit has no home call and raises `ValueError` |
| Grammar.GetHomecall | pyhamtools/callinfo.py:72-78 | the only error is `ValueError` |
| Grammar.TailMatchGreedy | pyhamtools/callinfo.py:73 | a tail the engine stops before a letter ends in five letters: the final `[A-Z]{0,5}` is greedy |
| Grammar.MatchAtGreedy | pyhamtools/callinfo.py:73 | a match followed by a letter ends in five letters |
| Grammar.MatchAtLongest | pyhamtools/callinfo.py:73 | no callsign starting where the match starts is longer than the match, except by one letter when the match's tail holds exactly three digits (the `\d{3,3}` alternative is tried first and the final `[A-Z]{0,5}` takes at most five letters) |
| Grammar.HomecallGreedy | pyhamtools/callinfo.py:72-78 | a home call followed by a letter in the upper-cased input is at least five long and ends in five letters |
| Grammar.HomecallLongest | pyhamtools/callinfo.py:72-78 | the home call is the longest callsign starting at its position, up to that one-letter exception |
| HomecallExamples.HomecallOfPortableCall | pyhamtools/callinfo.py:72-78 | "SM3/DH1TW/P" gives "DH1TW" |
| HomecallExamples.HomecallOfNoise | pyhamtools/callinfo.py:72-78 | "QRM" raises `ValueError` |
| HomecallExamples.ThreeDigitsLeaveALetter | pyhamtools/callinfo.py:73 | the exception is real: "DH1000ABCDEF" is a callsign, yet the match from its start is eleven long |
| HomecallExamples.HomecallPrefersEarlierAlternative | pyhamtools/callinfo.py:73 | "DH1000ABCDEF" gives "DH1000ABCDE": three digits win over one to three digits and a letter |
| CallInfo.SearchStart | pyhamtools/callinfo.py:86-88 | the search starts from `callsign[0:3] + callsign[4:5]` for a VK9/AX9/VI9 call with three letters after the cutoff, otherwise from the whole call |
| CallInfo.Shorten | pyhamtools/callinfo.py:94 | a non-empty string gets shorter; a string without spaces loses exactly its last character |
| CallInfo.RemoveSpacesAppend | pyhamtools/callinfo.py:94 | removing spaces distributes over concatenation |
| CallInfo.RemoveSpacesChar | pyhamtools/callinfo.py:94 | a single space is dropped and any other character kept |
| CallInfo.ShortenLast | pyhamtools/callinfo.py:94 | for any string: a trailing space is ignored, otherwise the last character goes and every space before it is removed |
| CallInfo.ResolvePrefix | pyhamtools/callinfo.py:90-96 | a found record is the prefix table's answer for one of the candidates; failure is `KeyError` |
| CallInfo.IteratePrefixSpec | pyhamtools/callinfo.py:80-96 | a found record is the prefix table's answer for a candidate of the search start; failure is `KeyError` |
| CallInfo.CandidatesOfUnspaced | pyhamtools/callinfo.py:90-95 | the strings asked about are the call and ever shorter leading parts of it, `len(callsign)` of them |
| CallInfo.ResolvePrefixFound | pyhamtools/callinfo.py:90-95 | a successful search returns the answer for the first candidate the prefix table knows |
| CallInfo.ResolvePrefixMissed | pyhamtools/callinfo.py:90-96 | a failed search asked the table about every candidate in vain |
| CallInfo.ResolvePrefixFails | pyhamtools/callinfo.py:90-96 | the search raises `KeyError` exactly when no candidate is known |
| CallInfo.IteratePrefix | pyhamtools/callinfo.py:80-96 | the while loop returns what the longest-prefix search specifies |
| CallInfo.Vk9Rule | pyhamtools/callinfo.py:86-88 | after the cutoff a VK9 island call is searched from `callsign[0:3] + callsign[4:5]` |
| CallInfo.CheckIfMm | pyhamtools/callinfo.py:99-102 | holds exactly when the call ends in "/MM", in any case |
| CallInfo.CheckIfAm | pyhamtools/callinfo.py:104-107 | holds exactly when the call ends in "/AM", in any case |
| CallInfo.CheckIfBeacon | pyhamtools/callinfo.py:109-111 | holds exactly when "/B" occurs in the last four characters: the "/BCN" test adds nothing |
| CallInfo.BeaconSuffixes | pyhamtools/callinfo.py:109-111 | both `X/B` and `X/BCN` count as beacons |
| CallInfo.SessionSuffixLen | pyhamtools/callinfo.py:131 | a session suffix is a dash and one to three digits at the end |
| CallInfo.NoBackslashNoCount | pyhamtools/callinfo.py:198 | a call without a backslash has no match of `r'\\d+'`, so the call area is never rewritten |
| CallInfo.ReplaceDigitRuns | pyhamtools/callinfo.py:199 | a call without digits is unchanged |
| CallInfo.ReplaceDigitRunsSplit | pyhamtools/callinfo.py:199 | a maximal run of digits becomes the single area digit; the digit-free text before it is kept |
| CallInfo.ReplaceDigitRunsKeeps | pyhamtools/callinfo.py:199 | digit-free text is copied unchanged |
| CallInfo.ReplaceDigitRunsOther | pyhamtools/callinfo.py:199 | a character that is not a digit is kept |
| CallInfo.ReplaceDigitRunsHead | pyhamtools/callinfo.py:199 | a leading run of digits, however long, becomes the area digit |
| CallInfo.Beacon | pyhamtools/callinfo.py:170-171 | success is kept and flagged as a beacon; failure passes through |
| CallInfo.Execute | pyhamtools/callinfo.py:113-228 | a fixed answer is returned as it is, a refusal is `KeyError`, a search returns the prefix search's result, and with the beacon flag that result plus `beacon = True` |
| CallInfo.FromExceptions | pyhamtools/callinfo.py:224-228 | a call the exceptions table holds is searched as its entry, at "now" and without the beacon flag; otherwise the call is refused |
| CallInfo.ResolveMultiAppendix | pyhamtools/callinfo.py:138-182 | never refuses; MM and AM, and only they, give a fixed mobile record; a search is at the given timestamp and is flagged as a beacon exactly for BCN |
| CallInfo.ResolveSingleAppendix | pyhamtools/callinfo.py:185-205 | always a search at the given timestamp, flagged as a beacon exactly for `/B` |
| CallInfo.ResolvePrefixForm | pyhamtools/callinfo.py:212-223 | never a fixed answer; a search is at "now" without the beacon flag |
| CallInfo.DismantleRules | pyhamtools/callinfo.py:128-223 | a fixed answer is one of the two mobile records; a beacon search is at the given timestamp |
| CallInfo.DismantlePlan | pyhamtools/callinfo.py:128-129 | a call without three call characters in a row goes straight to the exceptions table |
| CallInfo.Dismantle | pyhamtools/callinfo.py:113-228 | failure is always `KeyError` |
| CallInfo.LookupCallsignData | pyhamtools/callinfo.py:230-273 | failure is always `KeyError` |
| CallInfo.WithZone | pyhamtools/callinfo.py:321-325 | a found zone replaces `cqz` and nothing else; without one the data is unchanged |
| CallInfo.GetAll | pyhamtools/callinfo.py:314-327 | fails exactly when `_lookup_callsign` on the upper-cased call fails, with its error |
| CallInfo.IsValidCallsign | pyhamtools/callinfo.py:329-356 | `False` exactly when `get_all` raises, `True` exactly when it returns a non-empty record |
| CallInfoRules.SessionSuffixDropped | pyhamtools/callinfo.py:131-132 | a trailing dash and one to three digits are removed before any other rule |
| CallInfoRules.SecondAppendixDropped | pyhamtools/callinfo.py:134-135 | `BASE/X/Y` is treated as `BASE/X` |
| CallInfoRules.SecondAppendixResolves | pyhamtools/callinfo.py:131-205 | "SV8GXQ/P/QRP" resolves as "SV8GXQ/P" |
| CallInfoRules.RegularCallResolves | pyhamtools/callinfo.py:208-209 | a bare callsign is searched as it is, at the given timestamp |
| CallInfoRules.SessionSuffixResolves | pyhamtools/callinfo.py:131-209 | a bare callsign with a session suffix is searched without the suffix |
| CallInfoRules.MultiAppendixRules | pyhamtools/callinfo.py:138-182 | MM and AM give the fixed records; QRP, QRPP and LH resolve the base; BCN resolves the base with the beacon flag; a three-letter appendix is cut off; any other appendix is searched as a prefix ("HC2AO/DL" as "DL") |
| CallInfoRules.SingleAppendixRules | pyhamtools/callinfo.py:185-205 | `/B` is cut off and flagged as a beacon; a digit appendix is cut off and the call area kept; any other character stays and the whole call is searched |
| CallInfoRules.PrefixOverride | pyhamtools/callinfo.py:212-228 | `PFX/REST` with REST a callsign is searched as PFX at "now" ("C6A/9H5A" as "C6A"); otherwise only the exceptions table can answer ("OZ/JO85") |
| CallInfoRules.InvalidOperationFirst | pyhamtools/callinfo.py:234-242 | an invalid operation is refused with `KeyError` before any other rule, even for `/MM` and `/AM` |
| CallInfoRules.MobileShortCircuit | pyhamtools/callinfo.py:244-261 | a valid call ending in "/MM" or "/AM" gets the fixed mobile record whatever the tables say |
| CallInfoRules.ExactMatchWins | pyhamtools/callinfo.py:263-270 | an exact entry is returned with every key kept, plus `beacon = True` when "/B" ends the call |
| CallInfoRules.FallsBackToDismantle | pyhamtools/callinfo.py:272-273 | a valid, non-mobile call with no exact entry gets exactly what `_dismantle_callsign` gives |
| CallInfoRules.GetAllZone | pyhamtools/callinfo.py:314-327 | the zone exception replaces `cqz` and nothing else; `get_all` fails exactly when the callsign lookup fails |
| CallInfoRules.GetAllCaseInsensitive | pyhamtools/callinfo.py:314 | `get_all` and `is_valid_callsign` do not depend on the case of the input |
| Frequency.FreqToBand | pyhamtools/frequency.py:37-206 | the only error is `KeyError` |
| Frequency.BandPlanOrdered | pyhamtools/frequency.py:37-202 | the band ranges are non-empty, ascending and disjoint |
| Frequency.BandByRange | pyhamtools/frequency.py:37-204 | a frequency inside a band's range gets that band, and every answer comes from the one range containing the frequency |
| Frequency.OutOfBand | pyhamtools/frequency.py:203-204 | a frequency outside every range raises `KeyError` |
| Frequency.Ft8Digital | pyhamtools/frequency.py:48-95 | the FT8 calling frequencies, and the 2 m FT8 segment, are `DIGITAL` |
| Frequency.ModeNoneExactly | pyhamtools/frequency.py:37-206 | inside a band the mode is `None` exactly in the listed gaps and in the bands without modes |
| Frequency.ModeBySegment | pyhamtools/frequency.py:37-202 | inside a listed sub-band, away from the FT8 calling frequencies and the gaps, the mode is that sub-band's CW, USB, LSB or DIGITAL |
| Frequency.SegmentsCover | pyhamtools/frequency.py:37-202 | the sub-bands leave no hole in a band with modes besides the gaps |
| Frequency.FreqToBandExamples | pyhamtools/frequency.py:37-206 | worked values, including 14099.5 giving band 20 with no mode and 16304 raising `KeyError` |
| Locator.Trunc | pyhamtools/locator.py:45-50 | Python's `int()` of a real truncates towards zero |
| Locator.LocatorToLatLong | pyhamtools/locator.py:80-121 | `ValueError` exactly for an invalid locator after upper-casing; the result lies strictly inside the globe |
| Locator.LatLongToLocator | pyhamtools/locator.py:35-51 | succeeds exactly for -180 < lon < 180 and -90 < lat < 90; the result has six characters in the ranges A-R, A-R, 0-9, 0-9, A-X, A-X |
| Locator.LocatorCaseInsensitive | pyhamtools/locator.py:80 | the case of the locator does not matter |
| Locator.LongLocatorIsSquare | pyhamtools/locator.py:80-121 | a locator of seven or more characters is read as its first four |
| Locator.SubsquareCentre | pyhamtools/locator.py:103-114 | a six-character locator maps to the centre of its subsquare, with field, square and subsquare offsets |
| Locator.LocatorRoundTrip | pyhamtools/locator.py:35-121 | the centre of a six-character locator converts back to the same locator |
| Locator.PointInSubsquare | pyhamtools/locator.py:35-51 | a point converts to the locator whose subsquare contains it, within half a subsquare of its centre |
| Locator.SquareRoundTrip | pyhamtools/locator.py:103-121 | a four-character locator maps to the centre of its square, latitude `10*(L2-A) - 90 + digit2 + 0.5` and longitude `20*(L1-A) - 180 + 2*digit1 + 1`, which converts back to the same locator followed by the middle subsquare MM |
| DxCluster.MatchSpotter | pyhamtools/dxcluster.py:15 | a match exists exactly when the field starts with call characters and `:` or `$`; the match is that prefix |
| DxCluster.SpotterText | pyhamtools/dxcluster.py:16 | removing ':' keeps the call characters and drops a colon terminator |
| DxCluster.SearchFreq | pyhamtools/dxcluster.py:20-21 | a match exists exactly when five digits or dots occur in a row; it has 5 to 12 such characters |
| DxCluster.SearchFreqLeftmost | pyhamtools/dxcluster.py:20-21 | the match is the leftmost run, greedy up to twelve characters |
| DxCluster.KeepCallChars | pyhamtools/dxcluster.py:25 | the DX field keeps only `[A-Za-z0-9/]` |
| DxCluster.KeepCallCharsAppend | pyhamtools/dxcluster.py:25 | the filter works character by character and leaves call characters untouched |
| DxCluster.KeepCallCharsDeletes | pyhamtools/dxcluster.py:25 | each character is judged alone: a call character stays in place, any other is deleted |
| DxCluster.CollapseOthers | pyhamtools/dxcluster.py:26 | the comment holds only allowed characters |
| DxCluster.CollapseKeeps | pyhamtools/dxcluster.py:26 | a comment of allowed characters is left as it is |
| DxCluster.CollapseKeepsChar | pyhamtools/dxcluster.py:26 | an allowed character is kept in place |
| DxCluster.CollapseRun | pyhamtools/dxcluster.py:26 | a maximal run of disallowed characters, however long, becomes exactly one space |
| DxCluster.DecodeCharSpot | pyhamtools/dxcluster.py:9-29 | the only error is `ValueError`; a spot's dx is the filtered field 26-38, its comment the collapsed and stripped field 39-69, and its time the clock reading |
| DxCluster.CharSpotErrors | pyhamtools/dxcluster.py:15-23 | a spot is refused exactly when the spotter field, the frequency field or the frequency text is malformed |
| DxCluster.CharSpotSpotter | pyhamtools/dxcluster.py:15-21 | the spotter is the matched call without its colon, and the frequency is `float()` of the matched text |
| DxCluster.CharSpotText | pyhamtools/dxcluster.py:25-26 | the DX call holds call characters only; the comment holds allowed characters only, with no whitespace at either end |
| DxCluster.SplitJoin | pyhamtools/dxcluster.py:34 | `split("^")` gives fields without a caret that join back to the message |
| DxCluster.JoinSplit | pyhamtools/dxcluster.py:34 | caret-free fields joined with `^` split back into the same fields |
| DxCluster.Split | pyhamtools/dxcluster.py:34 | at least one field; a message without a caret is one field |
| DxCluster.DecodePc11 | pyhamtools/dxcluster.py:31-43 | dx is field 2, comment 5, spotter 6, node 7, and the raw spot is the input unchanged |
| DxCluster.DecodePc61 | pyhamtools/dxcluster.py:46-59 | additionally, ip is field 8 |
| DxCluster.Pc11Accepts | pyhamtools/dxcluster.py:31-43 | a message is decoded exactly when it has eight fields and both parses succeed |
| DxCluster.Pc61Accepts | pyhamtools/dxcluster.py:46-59 | a PC61 message is decoded exactly when it has nine fields and both parses succeed |
| DxCluster.Pc11OfFields | pyhamtools/dxcluster.py:31-43 | fields joined with `^` come back out in their places |
| DxCluster.Pc61ExtendsPc11 | pyhamtools/dxcluster.py:46-59 | a decoded PC61 message decodes as PC11 to the same spot without the ip |
| LogParser.LinesJoin | pyhamtools/logparser.py:11 | `split("\r\n")` gives lines without the separator that join back to the text |
| LogParser.FirstLine | pyhamtools/logparser.py:11 | the first line ends at the first separator |
| LogParser.Lines | pyhamtools/logparser.py:11 | at least one line; a text without a separator is one line |
| LogParser.ParseShow | pyhamtools/logparser.py:16 | `int(str(n)) == n` |
| LogParser.ParsePadded | pyhamtools/logparser.py:16-23 | `int()` reads back a space-padded `str(n)` |
| LogParser.DigitColumn | pyhamtools/logparser.py:25 | `int(qso[80])` succeeds exactly for a digit, giving its value |
| LogParser.ParseInt | pyhamtools/logparser.py:16-25 | a blank column raises `ValueError`; a negative value needs a minus sign in the column |
| LogParser.StripPadded | pyhamtools/logparser.py:19-24 | `strip()` takes the padding off a trimmed value |
| LogParser.DecodeQso | pyhamtools/logparser.py:16-25 | errors are `ValueError` or `IndexError` (the latter only for a line of at most 80 characters); station is the digit at column 80 and mode has at most two characters |
| LogParser.DecodedTextTrimmed | pyhamtools/logparser.py:19-24 | the text fields carry no surrounding whitespace |
| LogParser.DecodeColumns | pyhamtools/logparser.py:16-25 | a line holding the padded fields of an entry in their columns decodes to that entry |
| LogParser.DecodeQsoAccepts | pyhamtools/logparser.py:16-25 | a line is decoded exactly when its three number columns and its time parse and column 80 holds a digit |
| LogParser.QsoLines | pyhamtools/logparser.py:13-15 | only lines starting with "QSO" are kept |
| LogParser.QsoLinesAppend | pyhamtools/logparser.py:13-15 | kept lines stay in the order of the text |
| LogParser.ImportLines | pyhamtools/logparser.py:13-37 | errors are `ValueError` or `IndexError`; a successful import has one entry per QSO line |
| LogParser.ImportOk | pyhamtools/logparser.py:13-37 | a successful import has one entry per QSO line, each the decoding of its line, in order |
| LogParser.ImportErr | pyhamtools/logparser.py:13-25 | a failed import reports the error of the first QSO line that does not decode |
| LogParser.ImportErrSticks | pyhamtools/logparser.py:13-25 | once a line has failed, the lines after it change nothing |
| LogParser.ImportCabrillo | pyhamtools/logparser.py:5-38 | the loop builds what the line-by-line import specifies |

## Left out

- Network lookups: the QRZ.com and Clublog APIs, file download and gzip, and
  `pyhamtools/qsl.py`. These are I/O.
- The Redis lookup kind and its (de)serialisation. This is a foreign store.
- XML and plist parsing of the downloaded files, and reading the files. The index building
  starts from already-parsed entries.
- Lookup kinds other than `clublogxml` and `countryfile`. Kinds that do not support an
  operation raise `KeyError` in the model, as in the source.
- Distance, heading and sunrise/sunset in `pyhamtools/locator.py`. These are trigonometry
  on floats and an external astronomy library.
- `decode_pc23_message`. It reads `const.expk`, which does not exist, so it always raises
  `AttributeError`.
- `datetime.now`, `strptime`, `mktime` and `float()`. They are parameters of the
  decoders, and the default "now" timestamps are an explicit parameter.
- Logging, `setup.py`, and the exception classes.
- `pyhamtools/callsign_exceptions.py` is not part of this model. Its table is a map
  parameter.
- Floating point. Reals are exact, so rounding in the locator and band computations is not
  modelled.
- Locator.FMod: Python's float `%`, written out as a helper without a contract of its own.
  Its use is covered by the locator lemmas.
- Case mapping and `\d` are modelled for ASCII only. Python's `upper()` and `re` also
  treat other Unicode letters and digits.
- Python `re`'s `$` also matches before a final newline. The model's end-of-string
  anchors match only at the end.
- Aliasing. `get_all` writes `cqz` into the dictionary `_lookup_callsign` returned, which
  for a record without a window is the table's own record. The model returns a new value
  and leaves the table unchanged.
- Python text-mode newline translation in `import_cabrillo`. The model takes the text as
  given and splits it on "\r\n", as the code does.
- Frequency.FreqToBand: its own contract only states the error kind. The band is stated
  by `BandByRange` and `OutOfBand`. The mode is stated by `ModeBySegment` and
  `SegmentsCover` for the sub-bands, by `Ft8Digital` for the FT8 calling frequencies, and
  by `ModeNoneExactly` where there is none.
- Grammar.GetHomecall: its own contract only states the error kind. The home call is
  stated by `GetHomecallSpec`, `HomecallGreedy` and `HomecallLongest`.
- CallInfo.Dismantle: its own contract only states the error kind. The rules are stated
  on `DismantlePlan` by the `CallInfoRules` lemmas, and `Execute` connects a plan to the
  lookups.
- CallInfo.LookupCallsignData: its own contract only states the error kind. The rule
  order is stated by `InvalidOperationFirst`, `MobileShortCircuit`, `ExactMatchWins` and
  `FallsBackToDismantle`.
- Lookup.LookupEntity: takes the entity as an integer. The `int(entity)` conversion at
  pyhamtools/lookuplib.py:271, and the `ValueError` or `TypeError` it raises on text that
  is not a number, are not modelled.
