# Network threat detection: a verified Dafny model

The system watches network traffic for attacks and shows what it found on a web
dashboard. This project models its decision logic and proves properties of it.

**Packet detectors.** There are three variants of the sliding-window detector:

- the configurable backend detector (`backend/detectors/detector.py`);
- the stand-alone script `network2.py`;
- the older script `network.py`.

What they share:

- Each keeps lists of the times it saw something:
  - requests to a port (DDoS);
  - port accesses (port scan);
  - SQL-injection and cross-site-scripting pattern hits.
- A list is pruned to its time window and compared to its threshold only on the packets that feed it:
  - the DDoS and port-scan lists on every IP packet with a destination port (`network.py` also counts port-less packets, under a key of their own);
  - the web-attack lists on packets with an HTTP request and a Raw layer;
  - the SYN and ACK lists of the two variants that keep them, on SYN or ACK segments respectively.
- When a list fires, the detector raises an alert, logs a threat row and clears the list.
- Alerts are mailed, with a throttle that suppresses repeats.
- A source address on a downloaded block list (OSINT feed) raises its own alert.

The variants differ in:

- thresholds and windows;
- what the throttle is keyed on;
- how OSINT feeds are parsed, and which lists are consulted:
  - the backend detector and `network2.py` also alert on a request whose `Host` is on the domain list;
  - `network.py` loads the domain list but never reads it, and checks the destination address against the address list as well;
- whether a port-less packet is counted;
- how many timestamps one packet can add;
- how port accesses are kept:
  - the backend detector and `network2.py` keep every access, duplicates included;
  - `network.py` keeps each port once, with the time it was first seen;
- SYN flood detection:
  - the backend detector and `network2.py` count SYN and ACK segments per source;
  - `network.py` has no SYN flood detector.

The backend detector also counts packets and flushes the count to its database
every 100 packets.

**Supporting backend services.**

- *Geolocation* (`backend/geolocation.py`):
  - normalises the address;
  - answers from its cache;
  - gives private ranges a fixed local answer;
  - otherwise asks the HTTP providers in a fallback order.
- *Configuration* (`backend/config.py`):
  - merges `config.json` into the defaults;
  - memoises the result;
  - reads the interface and mail settings from the environment.

**Dashboard** (`ThreatAnalytics.js`):

- holds the threat records;
- computes the summary counts and the 24-hour and 30-day timelines;
- filters, reverses, stably sorts and paginates the table;
- appends records arriving on a server-sent event stream;
- reconnects with a single pending timer.

**Per-address view** (`IPAnalytics.js`):

- restricts the records to one source address and a time range;
- builds type, port and hour histograms with JavaScript object semantics;
- ranks the top 20 sources;
- maps fetch failures to messages.

## Modules

**Shared helpers.**

- `Wrappers`: `Option` and `Result`.
- `Text`: substring, case, strip, split and join, decimal printing.
- `Seqs`: filter, reverse, map, sums.
- `Ordering`: the comparator and a stable insertion sort, with its specification.

**Dashboard.**

- `Events`: the threat record and the local-time arithmetic (a fixed UTC offset).
- `Aggregation`: statistics and timelines.
- `QueryView`: filter, sort, pagination and severity.
- `Dashboard`: the React state as a class.

**Per-address view.**

- `JsObject`: the properties of a JavaScript object, in insertion order, as `Object.entries` lists them.
- `IpAnalytics`: the per-address view.

**Services.**

- `Config`.
- `Geolocation`.

**Detectors.**

- `Detection`: the parts every detector shares, namely packets, flags, pattern counts, sliding windows, ratio tests, the throttle and feed parsing.
- `Detector`: the backend detector.
- `Network2` and `Network`: the two scripts. `Network2` reuses `Detector`'s effect functions.

**How state is modelled.**

- A detector is a class whose fields are its windows (maps from keys to sequences of times), its alert state and its logged rows.
- Every method is specified by a pure function of the old state, such as `DdosEffects` or `ThreatEffects`.
- Lemmas about those functions state the promises:
  - every alert has its row;
  - the lists stay bounded;
  - one packet cannot fire in `network.py`;
  - at most one mail goes out per packet.

## Model

| member | source | states |
|---|---|---|
| Events.Str | frontend/threat-analytics-ui/src/ThreatAnalytics.js:195-200 | `String(v ?? '')`: the field's own text when present, the empty text when missing |
| Events.PortsString | frontend/threat-analytics-ui/src/ThreatAnalytics.js:166 | `ports.toString()`: empty for no ports, the text itself for a text-valued `ports` |
| Events.StartOf | frontend/threat-analytics-ui/src/ThreatAnalytics.js:63-66 | the local start of the hour or day holding `t` is at most `t` and less than one unit before it |
| Events.LocalHour | frontend/threat-analytics-ui/src/ThreatAnalytics.js:60 | `getHours()` is an hour below 24 |
| Events.SameUnit | frontend/threat-analytics-ui/src/ThreatAnalytics.js:63-71 | an instant lies between a unit's start and its start plus 59:59.999 (or 23:59:59.999) exactly when it has the same local unit index |
| Aggregation.CalculateStats | frontend/threat-analytics-ui/src/ThreatAnalytics.js:36-47 | `total` is the number of records; each category count and the 24-hour count is at most `total` |
| Aggregation.StatsAppend | frontend/threat-analytics-ui/src/ThreatAnalytics.js:40-47 | each figure counts records one by one: appending a record adds 1 to exactly the figures whose test it passes. The categories are independent, and a record is recent only if its time parses and is after now − 24 h |
| Aggregation.StatsEmpty | frontend/threat-analytics-ui/src/ThreatAnalytics.js:7-14 | the initial statistics are those of an empty store |
| Aggregation.TimelineOf | frontend/threat-analytics-ui/src/ThreatAnalytics.js:51-103 | the hourly timeline always has 24 entries, even for an empty store |
| Aggregation.TimelineIndex | frontend/threat-analytics-ui/src/ThreatAnalytics.js:92-99 | entry `k` is the hour `23 − k` hours back, so the list runs oldest first and ends with the current hour |
| Aggregation.ProcessTimelineData | frontend/threat-analytics-ui/src/ThreatAnalytics.js:51-103 | the loop that prepends one bucket per hour returns exactly the 24-entry timeline |
| Aggregation.HourSlotStep | frontend/threat-analytics-ui/src/ThreatAnalytics.js:58-99 | the bucket built in iteration `i` is the one for the hour `i` hours back |
| Aggregation.SlotIndex | frontend/threat-analytics-ui/src/ThreatAnalytics.js:59-66 | an instant lies in slot `i` exactly when its local unit index is `i` below that of now |
| Aggregation.HourSlots | frontend/threat-analytics-ui/src/ThreatAnalytics.js:59-98 | the hourly slots are disjoint consecutive hours. An event at now lands in the last slot, labelled with the current hour and no leading zero |
| Aggregation.HourCoverage | frontend/threat-analytics-ui/src/ThreatAnalytics.js:53-90 | every recent event up to now whose hour is one of the last 24 local hours is in its slot `i < 24` |
| Aggregation.HourGap | frontend/threat-analytics-ui/src/ThreatAnalytics.js:53-71 | an event 23:59:59.999 old counts as recent but falls in no hourly bucket |
| Aggregation.BucketIgnores | frontend/threat-analytics-ui/src/ThreatAnalytics.js:68-98 | an event outside the four charted categories of an hour leaves that hour's bucket, including its `Total`, unchanged |
| Aggregation.TimelineIgnores | frontend/threat-analytics-ui/src/ThreatAnalytics.js:68-98 | an event of no charted category (XSS only, say), or one whose time does not parse, leaves the whole timeline unchanged |
| Aggregation.SlotIgnores | frontend/threat-analytics-ui/src/ThreatAnalytics.js:54-98 | the same, slot by slot |
| Aggregation.LifetimeOf | frontend/threat-analytics-ui/src/ThreatAnalytics.js:106-135 | the daily series always has 30 entries |
| Aggregation.LifetimeIndex | frontend/threat-analytics-ui/src/ThreatAnalytics.js:113-131 | entry `k` is the day `29 − k` days back, oldest first |
| Aggregation.ProcessLifetimeData | frontend/threat-analytics-ui/src/ThreatAnalytics.js:106-135 | the loop that prepends one bucket per day returns exactly the 30-entry series |
| Aggregation.DaySlotStep | frontend/threat-analytics-ui/src/ThreatAnalytics.js:113-131 | the bucket built in iteration `i` is the one for the day `i` days back |
| Aggregation.DaySlots | frontend/threat-analytics-ui/src/ThreatAnalytics.js:114-121 | consecutive day buckets start exactly one day apart, and the last day holds now |
| Aggregation.DayCount | frontend/threat-analytics-ui/src/ThreatAnalytics.js:109-126 | a record is in a day's count exactly when it is after now − 30 days and its local date is that day |
| Text.Utf16Units | frontend/threat-analytics-ui/src/ThreatAnalytics.js:199-202 | a character below U+10000 is one code unit; any other is a high and a low surrogate that encode it |
| Text.CodeUnits | frontend/threat-analytics-ui/src/ThreatAnalytics.js:199-202 | `<` on strings compares UTF-16 code units: between one and two units per character, each below 0x10000 |
| Text.CodeUnitsBmp | frontend/threat-analytics-ui/src/ThreatAnalytics.js:199-202 | a text without characters beyond U+FFFF is compared character by character |
| Text.SurrogatesSortLow | frontend/threat-analytics-ui/src/ThreatAnalytics.js:199-202 | code-unit order differs from code-point order: U+1F600 sorts before U+FFFF |
| Ordering.Compare | frontend/threat-analytics-ui/src/ThreatAnalytics.js:186-204 | the comparator's result is −1, 0 or 1 |
| Ordering.CompareZero | frontend/threat-analytics-ui/src/ThreatAnalytics.js:186-204 | two keys compare equal exactly when they are equal |
| Ordering.CompareAntisymmetric | frontend/threat-analytics-ui/src/ThreatAnalytics.js:186-204 | swapping the arguments flips the sign |
| Ordering.CompareTransitive | frontend/threat-analytics-ui/src/ThreatAnalytics.js:186-204 | "not after" is transitive |
| Ordering.PrecedesFacts | frontend/threat-analytics-ui/src/ThreatAnalytics.js:185-204 | the order for either direction is total and transitive, and its ties are equal keys |
| Ordering.StableSortSpec | frontend/threat-analytics-ui/src/ThreatAnalytics.js:186-204 | `Array.prototype.sort` with this comparator yields a sorted permutation of its input in which records with equal keys keep their order |
| Ordering.Take | frontend/threat-analytics-ui/src/IPAnalytics.js:65 | `slice(0, n)` is the first `min(n, length)` elements |
| QueryView.FilteredThreats | frontend/threat-analytics-ui/src/ThreatAnalytics.js:159-175 | every listed record passes the search and the type match, and the list is no longer than the store |
| QueryView.FilteredThreatsSpec | frontend/threat-analytics-ui/src/ThreatAnalytics.js:159-175 | a record is listed exactly when it is in the store and passes both tests. Filtering distributes over concatenation, so the result keeps store order |
| QueryView.EmptySearch | frontend/threat-analytics-ui/src/ThreatAnalytics.js:162-171 | with an empty search and "all" types, a record is shown exactly when one of its four searched fields is truthy |
| QueryView.PortsSearchCaseSensitive | frontend/threat-analytics-ui/src/ThreatAnalytics.js:163-166 | the text fields match regardless of case, but the ports text is compared as written with the lower-cased term |
| QueryView.SortedThreatsSpec | frontend/threat-analytics-ui/src/ThreatAnalytics.js:178-205 | the displayed order is a permutation of the filtered records, sorted on the chosen column. Ties come out in reverse store order |
| QueryView.NextSort | frontend/threat-analytics-ui/src/ThreatAnalytics.js:218-226 | the same column flips the direction; a new column starts ascending |
| QueryView.NextSortTwice | frontend/threat-analytics-ui/src/ThreatAnalytics.js:218-226 | clicking the same column twice restores the sort |
| QueryView.TotalPages | frontend/threat-analytics-ui/src/ThreatAnalytics.js:207 | at least one page, and enough pages, but no more than needed, for every row |
| QueryView.Paginate | frontend/threat-analytics-ui/src/ThreatAnalytics.js:208-211 | a page holds at most `pageSize` rows, the consecutive rows from `(page − 1) · pageSize`. It is empty exactly when that start is past the end, and so always when no rows exist |
| QueryView.PageWithin | frontend/threat-analytics-ui/src/ThreatAnalytics.js:207-211 | a page whose first row exists is within the page count |
| QueryView.PageOfRow | frontend/threat-analytics-ui/src/ThreatAnalytics.js:207-211 | every row appears on exactly one page, at a known position |
| QueryView.PrevPage | frontend/threat-analytics-ui/src/ThreatAnalytics.js:596 | Prev never goes below page 1 and otherwise goes back one page |
| QueryView.NextPage | frontend/threat-analytics-ui/src/ThreatAnalytics.js:602 | Next stays within `[1, totalPages]` and otherwise goes forward one page |
| QueryView.ThreatSeverity | frontend/threat-analytics-ui/src/ThreatAnalytics.js:138-146 | a missing type is low and a DDoS type is high |
| QueryView.IsLive | frontend/threat-analytics-ui/src/ThreatAnalytics.js:213-216 | the memo's body holds only for a non-zero stamp less than five seconds old, and holds for every such stamp not in the future |
| QueryView.IsLiveAtStamp | frontend/threat-analytics-ui/src/ThreatAnalytics.js:213-216 | evaluated at the instant of the stamp, the check passes exactly for a non-zero stamp |
| QueryView.IsLiveExpires | frontend/threat-analytics-ui/src/ThreatAnalytics.js:215 | evaluated five seconds or more after the stamp, the check fails; the memo never evaluates it then |
| QueryView.SeverityCases | frontend/threat-analytics-ui/src/ThreatAnalytics.js:138-146 | high means DDoS, Malicious or SQL Injection not preceded by a Port Scan match; medium means Port Scan or XSS; otherwise low |
| Dashboard.ThreatDashboard.constructor | frontend/threat-analytics-ui/src/ThreatAnalytics.js:6-24 | the initial React state: no records, zero statistics, loading, page 1 of 25 rows, sorted by time descending, no stream and no timer |
| Dashboard.ThreatDashboard.Install | frontend/threat-analytics-ui/src/ThreatAnalytics.js:271-274 | installing a record list recomputes the statistics and both timelines from that same list |
| Dashboard.ThreatDashboard.BeginFetch | frontend/threat-analytics-ui/src/ThreatAnalytics.js:259-261 | a fetch starts loading and clears the error, and changes nothing else |
| Dashboard.ThreatDashboard.FetchSettled | frontend/threat-analytics-ui/src/ThreatAnalytics.js:263-281 | success replaces the records and their summaries and ends loading. Failure keeps the records and shows the fixed message |
| Dashboard.ThreatDashboard.SetupSSE | frontend/threat-analytics-ui/src/ThreatAnalytics.js:292-297 | the previous event source is closed before a new one is opened and stored |
| Dashboard.ThreatDashboard.OnMessage | frontend/threat-analytics-ui/src/ThreatAnalytics.js:298-310 | a parsed message appends exactly one record at the end, stamps the update time, recomputes the summaries from the new list and recomputes the `isLive` memo, which turns the badge Live for a non-zero stamp. A malformed one changes nothing |
| Dashboard.ThreatDashboard.OnError | frontend/threat-analytics-ui/src/ThreatAnalytics.js:311-320 | the failed source is closed, and a timer is created only if none is pending, so repeated errors make one timer |
| Dashboard.ThreatDashboard.OnTimerFire | frontend/threat-analytics-ui/src/ThreatAnalytics.js:314-318 | the timer slot is cleared before the stream is set up again and a fetch begins |
| Dashboard.ThreatDashboard.Teardown | frontend/threat-analytics-ui/src/ThreatAnalytics.js:323-335 | unmounting closes the source and cancels any pending timer |
| Dashboard.ThreatDashboard.SetSearchTerm | frontend/threat-analytics-ui/src/ThreatAnalytics.js:440 | only the search term changes; the page is kept |
| Dashboard.ThreatDashboard.SetTypeFilter | frontend/threat-analytics-ui/src/ThreatAnalytics.js:445 | only the type selector changes; the page is kept |
| Dashboard.ThreatDashboard.HandleSort | frontend/threat-analytics-ui/src/ThreatAnalytics.js:218-226 | the sort moves to the next configuration and the page goes back to 1 |
| Dashboard.ThreatDashboard.SetPageSize | frontend/threat-analytics-ui/src/ThreatAnalytics.js:584 | the page size changes and the page goes back to 1 |
| Dashboard.ThreatDashboard.PageCount | frontend/threat-analytics-ui/src/ThreatAnalytics.js:207 | at least one page, with room for every filtered row |
| Dashboard.ThreatDashboard.DisplayedRows | frontend/threat-analytics-ui/src/ThreatAnalytics.js:208-211 | the table never shows more than `pageSize` rows |
| Dashboard.ThreatDashboard.PrevPageClicked | frontend/threat-analytics-ui/src/ThreatAnalytics.js:596 | the page moves back, never below 1 |
| Dashboard.ThreatDashboard.Live | frontend/threat-analytics-ui/src/ThreatAnalytics.js:213-216 | the badge shows Live exactly when a non-zero update time has been stamped, however long ago, because the memo depends on `lastUpdate` only |
| Dashboard.ThreatDashboard.NextPageClicked | frontend/threat-analytics-ui/src/ThreatAnalytics.js:599-603 | from the last page on (including a page left beyond the count by a search) the button is disabled and a click changes nothing; otherwise the page moves forward by exactly one and stays within the page count |
| JsObject.BumpLookup | frontend/threat-analytics-ui/src/IPAnalytics.js:47 | `obj[k] = (obj[k] \|\| 0) + 1` raises the count of `k` by one and no other |
| JsObject.BumpKeys | frontend/threat-analytics-ui/src/IPAnalytics.js:47 | an existing key keeps its place; a new key is added last |
| JsObject.BumpDistinct | frontend/threat-analytics-ui/src/IPAnalytics.js:47 | the keys stay distinct |
| JsObject.BumpTotal | frontend/threat-analytics-ui/src/IPAnalytics.js:47 | the counts grow by one in total |
| JsObject.TallyLookup | frontend/threat-analytics-ui/src/IPAnalytics.js:44-51 | after the loop each key's count is its number of occurrences |
| JsObject.TallyKeys | frontend/threat-analytics-ui/src/IPAnalytics.js:44-51 | the object's keys are distinct and are exactly the counted keys |
| JsObject.TallyTotal | frontend/threat-analytics-ui/src/IPAnalytics.js:44-51 | the counts sum to the number of records counted |
| JsObject.TallySize | frontend/threat-analytics-ui/src/IPAnalytics.js:44-51 | a counter object has one property per distinct key counted |
| JsObject.TallyOrder | frontend/threat-analytics-ui/src/IPAnalytics.js:44-51 | keys appear in the order of first occurrence |
| JsObject.LookupMember | frontend/threat-analytics-ui/src/IPAnalytics.js:47 | in an object with distinct keys, a lookup returns the stored value |
| JsObject.EntriesPermutation | frontend/threat-analytics-ui/src/IPAnalytics.js:64-65 | `Object.entries` lists every property once, so the values keep their sum |
| JsObject.EntriesOrder | frontend/threat-analytics-ui/src/IPAnalytics.js:64-66 | array-index keys come first in ascending numeric order, then the other keys in creation order |
| JsObject.EntriesNamed | frontend/threat-analytics-ui/src/IPAnalytics.js:66 | without array-index keys, `Object.entries` is creation order |
| JsObject.TallySnoc | frontend/threat-analytics-ui/src/IPAnalytics.js:44-51 | counting one more record is one more increment |
| IpAnalytics.IpThreats | frontend/threat-analytics-ui/src/IPAnalytics.js:19-22 | no address gives no records, and the result is no longer than the store |
| IpAnalytics.IpThreatsSpec | frontend/threat-analytics-ui/src/IPAnalytics.js:19-22 | a record is listed exactly when the store holds it with that source address, in store order |
| IpAnalytics.RangeMs | frontend/threat-analytics-ui/src/IPAnalytics.js:29-34 | '24h' is 24 h, '7d' is 7 days and '30d' is 30 days, and any other selector means 24 h |
| IpAnalytics.InRangeSpec | frontend/threat-analytics-ui/src/IPAnalytics.js:35-37 | a record is in range exactly when its time parses and is at or after the start, so the bound is inclusive |
| IpAnalytics.IpStatsOf | frontend/threat-analytics-ui/src/IPAnalytics.js:25-26 | the statistics are null exactly when the address has no records at all, not when the range is empty |
| IpAnalytics.ComputeIpStats | frontend/threat-analytics-ui/src/IPAnalytics.js:25-72 | the `forEach` filling the three counters in place returns exactly the specified statistics |
| IpAnalytics.CounterSpec | frontend/threat-analytics-ui/src/IPAnalytics.js:44-66 | each listed count is the number of records with that key, and the counts sum to the number counted |
| IpAnalytics.CounterCovers | frontend/threat-analytics-ui/src/IPAnalytics.js:44-66 | every counted key has an entry |
| IpAnalytics.IpTypeCounts | frontend/threat-analytics-ui/src/IPAnalytics.js:46-64 | the type histogram counts every in-range record once, a missing type as 'Unknown', and sums to `totalThreats` |
| IpAnalytics.IpPortCounts | frontend/threat-analytics-ui/src/IPAnalytics.js:50-65 | the port histogram is the first 10 entries in property order (numeric keys ascending, then the rest), or all of them when there are fewer, each with its exact count. These are not the 10 most frequent |
| IpAnalytics.HourKeyNamed | frontend/threat-analytics-ui/src/IPAnalytics.js:55 | an hour label contains ':' and so is never an array index |
| IpAnalytics.IpHourly | frontend/threat-analytics-ui/src/IPAnalytics.js:53-66 | hourly counts are keyed by unpadded "H:00" labels, sum to `totalThreats` and are sorted by string comparison |
| IpAnalytics.IpSeen | frontend/threat-analytics-ui/src/IPAnalytics.js:42-70 | the location is that of the first record overall, range ignored. First and last seen are the last and first in-range records by position. The destination count is the number of distinct `destinationIP` values in range: at most one per record, and at least one when any record is in range |
| IpAnalytics.TopIps | frontend/threat-analytics-ui/src/IPAnalytics.js:154-163 | the `reduce` that fills the counter one record at a time returns exactly the specified ranking |
| IpAnalytics.CountedSourcesValid | frontend/threat-analytics-ui/src/IPAnalytics.js:155-156 | an empty or 'N/A' source is never counted |
| IpAnalytics.RankedOrder | frontend/threat-analytics-ui/src/IPAnalytics.js:160-162 | the ranking is by count, descending |
| IpAnalytics.RankedCounts | frontend/threat-analytics-ui/src/IPAnalytics.js:154-162 | every ranked entry is a counted address with its number of records, and every counted address is ranked |
| IpAnalytics.TopOfRanking | frontend/threat-analytics-ui/src/IPAnalytics.js:162-163 | the first `n` of a ranking are still descending, and nothing left out counts more than any kept entry |
| IpAnalytics.TopIpsSpec | frontend/threat-analytics-ui/src/IPAnalytics.js:154-163 | 20 entries, or every counted address when there are fewer, by count descending. Each is a real address with its record count, and no omitted address outranks a listed one |
| IpAnalytics.RankedSize | frontend/threat-analytics-ui/src/IPAnalytics.js:154-162 | the ranking has one entry per distinct counted address |
| IpAnalytics.ErrorMessage | frontend/threat-analytics-ui/src/IPAnalytics.js:99-106 | every error message starts with "Failed to load threat data. " |
| IpAnalytics.FetchResult | frontend/threat-analytics-ui/src/IPAnalytics.js:84-106 | a failed fetch always shows a message with that prefix |
| IpAnalytics.HttpMessageLetters | frontend/threat-analytics-ui/src/IPAnalytics.js:89 | the HTTP error text never reads as a network failure |
| IpAnalytics.FetchResultSpec | frontend/threat-analytics-ui/src/IPAnalytics.js:84-106 | details below the table |
| Config.UpdateSection | backend/config.py:54-63 | updating a section keeps its key set, and a section the file lacks is left alone |
| Config.LoadConfig | backend/config.py:44-71 | defaults are saved exactly when the file is missing. Every default key is present, and a missing or unreadable file gives exactly the defaults |
| Config.UpdateSectionSelf | backend/config.py:51-63 | a section the file sets is already the file's own after line 52, so updating it with itself changes nothing. When it is not an object the update raises |
| Config.MergeShallow | backend/config.py:51-64 | the merge is shallow: it is the defaults overridden key by key at top level, or an error when a section is not an object |
| Config.LoadOverrides | backend/config.py:51-52 | a key in the file takes the file's value, and a default key the file lacks keeps the default |
| Config.NestedDefaultsLost | backend/config.py:53-55 | a `detection` section setting one threshold loses the other default thresholds, despite the "Deep merge" comment |
| Config.BadSectionFallsBack | backend/config.py:54-67 | a section that is not an object makes the whole load fall back to the defaults |
| Config.ConfigCache.constructor | backend/config.py:83 | nothing is cached before the first call |
| Config.ConfigCache.GetConfig | backend/config.py:81-85 | the first call loads and stores; every later call returns the stored value and saves nothing |
| Config.NetworkInterface | backend/config.py:88-89 | the variable when set and non-empty, else the configured interface. The reference definition; `Config.InterfaceDefault` proves the key is always present with the built-in default |
| Config.InterfaceDefault | backend/config.py:88-89 | the interface key is always present, and without the variable or a file it is the default adapter |
| Config.OrNone | backend/config.py:94-95 | an unset or empty value becomes `None`; any other is kept |
| Config.RecipientsClean | backend/config.py:96-99 | every recipient is non-empty and free of commas and surrounding white space |
| Config.RecipientsBlank | backend/config.py:96-99 | an unset or blank variable gives no recipients |
| Config.RecipientsRoundTrip | backend/config.py:96-99 | writing clean addresses comma-separated and reading them back gives the same list |
| Config.AlertEmailConfig | backend/config.py:91-100 | sender and password are present exactly when given non-empty, and the recipients are the parsed list |
| Geolocation.PrivateExamples | backend/geolocation.py:35-39 | the prefix test is textual: it covers 172.16–172.31 but not 172.32, and it accepts text that is no address |
| Geolocation.ProvidersToTry | backend/geolocation.py:57-63 | the list starts with the configured provider, has no duplicates, contains both fallbacks, and has 2 or 3 entries |
| Geolocation.Query | backend/geolocation.py:68-73 | only the three known provider names are ever asked |
| Geolocation.FirstFoundSpec | backend/geolocation.py:65-89 | the answer comes from the first provider that has one; none means no provider had one |
| Geolocation.LocateCacheGrows | backend/geolocation.py:21-89 | the cache only grows, by at most the normalised address, and no entry is overwritten |
| Geolocation.LocateRemembers | backend/geolocation.py:31-77 | an answer is remembered: asking again returns it without consulting a provider |
| Geolocation.LocateRetries | backend/geolocation.py:88-89 | no answer caches nothing, so the next call asks the providers again |
| Geolocation.FallbackOrder | backend/geolocation.py:55-86 | when the configured provider has nothing, the fallbacks are asked in order |
| Geolocation.PrivateIsLocal | backend/geolocation.py:31-50 | a private address always gets the fixed local answer, cached or not |
| Geolocation.GeolocationService.constructor | backend/geolocation.py:10-13 | `enabled` defaults to true, the provider to "ipapi", and the cache starts empty |
| Geolocation.GeolocationService.GetLocation | backend/geolocation.py:16-89 | the result and the new cache are those of the specification: disabled or skipped addresses give `None` and leave the cache alone |
| Geolocation.GeolocationService.Find | backend/geolocation.py:31-86 | cache first, then the private ranges, then the providers |
| Geolocation.GeolocationService.AskProviders | backend/geolocation.py:57-89 | the provider loop returns the first answer, caches only that answer, and stops there |
| Geolocation.ServiceRegistry.constructor | backend/geolocation.py:183 | no service exists before the first call |
| Geolocation.ServiceRegistry.GetService | backend/geolocation.py:185-189 | the first call creates a fresh service with an empty cache; later calls return the same instance |
| Detection.DestPort | backend/detectors/detector.py:334-338 | the port is TCP's destination port if there is a TCP layer, else UDP's, else none |
| Detection.FlagForms | backend/detectors/detector.py:354-361 | the text form never counts a segment as both SYN and ACK, while the numeric form does for SYN-ACK (0x12). Bits 0x02 and 0x10 are those of section 3.1 of RFC 9293 |
| Detection.Hits | backend/detectors/detector.py:288-294 | no more hits than patterns |
| Detection.HitsNone | backend/detectors/detector.py:288-294 | no timestamp is added exactly when no pattern matches |
| Detection.AppendMatches | backend/detectors/detector.py:288-294 | the pattern loop appends `now` once for every matching pattern |
| Detection.SlideCount | backend/detectors/detector.py:245-248 | the pruned list keeps every copy of a timestamp inside the window, old or new, and nothing else |
| Detection.SlideKeepsNow | backend/detectors/detector.py:245-248 | with a positive window the new timestamp is kept, last |
| Detection.WindowStep | backend/detectors/detector.py:245-256 | the key's list becomes the pruned list with the new times. It fires exactly when that passes the threshold (`>` or `>=`), and is then cleared; no other key changes. The reference definition the detector methods follow; `Detection.WindowStepBounded` proves every list stays within the threshold bound |
| Detection.WindowStepBounded | backend/detectors/detector.py:250-256 | every list stays within the threshold |
| Detection.PortsAtMost | backend/detectors/detector.py:268-270 | there are never more distinct ports than accesses |
| Detection.ScanFiresCross | backend/detectors/detector.py:271-272 | the ratio test `uniq / total > 0.7` is the integer test `10 · uniq > 7 · total` |
| Detection.ScanStep | backend/detectors/detector.py:262-278 | every access is appended, duplicates included, and the list pruned. It fires exactly when more than `T` distinct ports, more than `T` accesses and the ratio hold, and is then cleared. The reference definition; `Detection.ScanFiresCross` and `Detection.OnePortNoScan` prove what the test means |
| Detection.OnePortNoScan | backend/detectors/detector.py:268-272 | accesses to a single port never look like a scan |
| Detection.SynFloodCross | backend/detectors/detector.py:368-371 | the ratio test `ack / syn < R`, with ratio 1 when `syn` is 0, is `ack < R · syn` |
| Detection.SynFloodDefaults | backend/detectors/detector.py:371 | with the shipped settings a flood means more than 200 SYNs and `10 · ack < syn` |
| Detection.SynStep | backend/detectors/detector.py:362-377 | a SYN adds to the SYN list and an ACK to the ACK list, each pruned. On a flood both lists are cleared. The reference definition; `Detection.SynFloodCross` and `Detection.SynFloodDefaults` prove what the flood test means |
| Detection.AfterMail | backend/detectors/detector.py:173-181 | a send time is recorded only when a mail was delivered |
| Detection.ThrottleWindow | backend/detectors/detector.py:134-181 | a delivered alert throttles the same key for the throttle interval |
| Detection.Refresh | backend/detectors/detector.py:93-98 | a 200 reply replaces the set with the parsed text; anything else keeps the old set. The reference definition; `Detector.FeedsAfter` and `Network.FeedsAfter` state in their contracts how a whole refresh follows from the two replies |
| Detection.FeedsDiffer | backend/detectors/detector.py:94-109 | the domain feed is the address feed without the empty name, which a line of white space adds |
| Detection.FeedAddressClean | backend/detectors/detector.py:94-98 | a parsed address is one line with no line breaks and no surrounding white space |
| Detector.AlertStep | backend/detectors/detector.py:129-186 | a throttled (source, attack type) key changes nothing. Otherwise the alert enters the history, is mailed when mail is configured, and records its time only when delivered. The reference definition; `Detector.NoMailNoThrottle` and `Detection.ThrottleWindow` prove the throttle's consequences |
| Detector.AlertsForAppend | backend/detectors/detector.py:129-186 | alerting on two lists of attacks in turn is alerting on their concatenation |
| Detector.NoMailNoThrottle | backend/detectors/detector.py:151-181 | without mail configured no send time is recorded, so every alert enters the history |
| Detector.WebTimestamps | backend/detectors/detector.py:288-294 | one packet adds at most four SQL and five XSS timestamps, all `now`, and none when no pattern matches |
| Detector.ThenPaired | backend/detectors/detector.py:251-255 | running two detectors that pair each alert with its row keeps the pairing |
| Detector.WebPaired | backend/detectors/detector.py:299-325 | each web alert (SQL, XSS, listed domain) has one row of the same threat and source |
| Detector.PatternPaired | backend/detectors/detector.py:299-313 | the two pattern counters pair their alerts with rows |
| Detector.FiredPaired | backend/detectors/detector.py:250-256 | a detector that fired contributes one alert and one row |
| Detector.StagePaired | backend/detectors/detector.py:240-278 | the DDoS and port-scan detectors pair their alerts with rows and never raise the block-list alert |
| Detector.FlagsPaired | backend/detectors/detector.py:371-375 | the SYN flood alert has its row |
| Detector.JoinPaired | backend/detectors/detector.py:345-375 | joining paired detectors keeps every alert paired and the block-list alert absent |
| Detector.PortPaired | backend/detectors/detector.py:345-346 | DDoS then port scan pair their alerts |
| Detector.TcpPaired | backend/detectors/detector.py:348-377 | the web and SYN detectors pair their alerts |
| Detector.DetectorPaired | backend/detectors/detector.py:345-377 | every detector after the block-list check pairs its alerts and never raises the block-list alert |
| Detector.ThreatPaired | backend/detectors/detector.py:340-377 | one row per alert, in order. The block-list alert is raised exactly when the source is listed, and then comes first with the packet's destination |
| Detector.ThreatScope | backend/detectors/detector.py:334-377 | a packet without TCP leaves the web and SYN lists alone; one without a port leaves the DDoS and scan lists alone |
| Detector.DdosKeepsBounds | backend/detectors/detector.py:240-256 | a DDoS list never holds more than the threshold |
| Detector.PatternsKeepBounds | backend/detectors/detector.py:296-313 | a web-attack list always holds fewer than its threshold |
| Detector.ThreatKeepsBounds | backend/detectors/detector.py:327-377 | a whole packet keeps every list within its bound |
| Detector.FlushStep | backend/detectors/detector.py:388-397 | a successful flush adds the unflushed packets to the stored total and marks them flushed; a failed one changes nothing |
| Detector.CountStep | backend/detectors/detector.py:379-382 | each IP packet adds one. A flush is attempted once 100 packets are unflushed, and the stored total plus the unflushed count never changes |
| Detector.FeedsAfter | backend/detectors/detector.py:87-113 | a raised first request changes nothing and skips the domain list; each list is refreshed from its own reply |
| Detector.RecordThen | backend/detectors/detector.py:345-377 | recording two detector calls in turn is recording their joint effects |
| Detector.PacketDetector.constructor | backend/detectors/detector.py:54-66 | empty windows, history and feeds, a zero packet count, and the stored count as found |
| Detector.PacketDetector.SendAlert | backend/detectors/detector.py:129-186 | the alert state moves by one alert step and nothing else changes |
| Detector.PacketDetector.Emit | backend/detectors/detector.py:251-255 | the alerts and rows of one detector are recorded |
| Detector.PacketDetector.DetectDdos | backend/detectors/detector.py:240-256 | windows and log follow the DDoS specification |
| Detector.PacketDetector.DetectPortScan | backend/detectors/detector.py:258-278 | windows and log follow the port-scan specification |
| Detector.PacketDetector.DetectWebAttacks | backend/detectors/detector.py:280-285 | nothing happens without an HTTP request and a Raw layer; otherwise the payload is inspected |
| Detector.PacketDetector.InspectPayload | backend/detectors/detector.py:284-325 | windows and log follow the web-attack specification |
| Detector.PacketDetector.CountPatterns | backend/detectors/detector.py:296-313 | the two pattern counters follow their specification |
| Detector.PacketDetector.TrackSynAck | backend/detectors/detector.py:351-377 | the SYN/ACK block follows its specification |
| Detector.PacketDetector.FlushPacketCount | backend/detectors/detector.py:388-397 | the counter follows the flush step |
| Detector.PacketDetector.CountPacket | backend/detectors/detector.py:379-382 | the counter follows the count step |
| Detector.PacketDetector.DetectThreat | backend/detectors/detector.py:327-382 | a non-IP packet changes nothing, not even the counter. Otherwise windows and log follow the threat specification and the packet is counted |
| Detector.PacketDetector.RunDetectors | backend/detectors/detector.py:345-377 | the detectors after the block-list check follow their specification |
| Detector.PacketDetector.TrackPorts | backend/detectors/detector.py:345-346 | DDoS then port scan |
| Detector.PacketDetector.TrackTcp | backend/detectors/detector.py:348-377 | the web and SYN detectors |
| Detector.PacketDetector.FetchOsint | backend/detectors/detector.py:87-113 | the feeds follow `FeedsAfter` and nothing else changes |
| Network2.ScriptMailConfigured | network2.py:22-24 | mail goes out exactly when sender, password and at least one recipient are set |
| Network2.MailStep | network2.py:113-146 | only a delivered mail changes anything, recording its time under (source, attack type) |
| Network2.MailForAppend | network2.py:113-146 | mailing two lists of attacks in turn is mailing their concatenation |
| Network2.SameMailAsDetector | network2.py:113-146 | the script mails exactly what the backend detector mails and keeps the same send times |
| Network2.UnconfiguredSilent | network2.py:120-122 | without credentials or recipients alerting changes nothing at all |
| Network2.MailThrottles | network2.py:117-143 | after a delivered mail the same alert is suppressed for 300 seconds |
| Network2.ReportThen | network2.py:171-197 | reporting two detector calls in turn is reporting their joint effects |
| Network2.Sniffer.constructor | network2.py:22-62 | the script constants with the mail settings from the environment, and empty state |
| Network2.Sniffer.SendAlert | network2.py:113-146 | the mail state moves by one mail step |
| Network2.Sniffer.Emit | network2.py:171-175 | one detector's alerts and CSV rows |
| Network2.Sniffer.DetectDdos | network2.py:160-176 | no port is a no-op, the window is 10 s, and more than 300 fires and clears |
| Network2.Sniffer.DetectPortScan | network2.py:178-198 | duplicates kept, a 10 s window, and the ratio test over 10 |
| Network2.Sniffer.DetectWebAttacks | network2.py:200-205 | nothing without an HTTP request and a Raw layer |
| Network2.Sniffer.InspectPayload | network2.py:204-238 | one timestamp per matching pattern, a 60 s window, `>= 3` fires; the lower-cased, stripped Host is checked against the domains |
| Network2.Sniffer.CountPatterns | network2.py:216-227 | the two pattern counters |
| Network2.Sniffer.TrackSynAck | network2.py:263-287 | SYN flood at more than 200 SYNs with ratio below 0.1 |
| Network2.Sniffer.DetectThreat | network2.py:240-287 | a non-IP packet changes nothing. Otherwise only the source address is checked against the block list, then the detectors run |
| Network2.Sniffer.RunDetectors | network2.py:257-287 | the detectors in order |
| Network2.Sniffer.TrackPorts | network2.py:257-258 | DDoS then port scan |
| Network2.Sniffer.TrackTcp | network2.py:260-287 | web then SYN |
| Network2.Sniffer.FetchOsint | network2.py:83-107 | the feeds are refreshed as in the backend detector |
| Network.DistinctCount | network.py:169-170 | a list of distinct ports has as many ports as entries |
| Network.FilterDistinct | network.py:173 | pruning keeps a list distinct |
| Network.PrunedPorts | network.py:169-173 | a port is in the pruned list exactly when one of its sightings is recent. The sighting is the stored one, or `now` for a new port |
| Network.StaleSightingDropsPort | network.py:169-173 | a port first seen 10 or more seconds ago drops out, even while it is being accessed, because its time is never refreshed |
| Network.PrunedDistinct | network.py:169-173 | the pruned list has distinct ports, as many as its entries |
| Network.SightingStep | network.py:165-180 | other addresses are untouched. A fired list is reset; otherwise the list is the pruned distinct list, at most 10 long |
| Network.ScanFiresOnPorts | network.py:176 | the scan fires exactly when more than ten distinct ports remain |
| Network.SightingStepBounded | network.py:165-180 | every list keeps distinct ports, at most ten |
| Network.Stamp | network.py:95-104 | with the `break`, one timestamp when any pattern matches and none otherwise |
| Network.StampFirstMatch | network.py:95-104 | the loop with its early exit appends exactly that |
| Network.OnePacketCannotFire | network.py:95-119 | one packet adds at most one attempt per category, so an alert needs attempts from several packets |
| Network.DeferredOrder | network.py:131-146 | the block-list alert goes out first, and its row is written after the other detectors' rows |
| Network.PortPaired | network.py:136-139 | DDoS then port scan pair their alerts with rows |
| Network.WebPaired | network.py:84-119 | the web detector pairs its alerts with rows |
| Network.DetectorPaired | network.py:136-142 | each detector reports its own alert and row, in the same order |
| Network.ThreatOrder | network.py:122-146 | the block-list alert is raised exactly when the source or the destination is listed, and then comes first, with its row last |
| Network.WebStageScope | network.py:84-119 | the web counters leave the DDoS and scan lists alone |
| Network.ThreatScope | network.py:122-142 | every IP packet is counted by DDoS and port scan, a port-less packet under its own `None` key |
| Network.PortKeepsBounds | network.py:149-180 | DDoS lists stay within 100 and scan lists within ten distinct ports |
| Network.WebKeepsBounds | network.py:107-119 | web lists stay below 3 |
| Network.ThreatKeepsBounds | network.py:122-146 | a whole packet keeps every bound |
| Network.MailStep | network.py:188-221 | a source mailed less than 400 s ago gets no mail, whatever the attack; a delivered mail records the source's time |
| Network.SourceThrottled | network.py:193-219 | a delivered mail silences every attack type from that source for 400 s |
| Network.MailForAppend | network.py:188-221 | mailing two lists in turn is mailing their concatenation |
| Network.ThrottledSilent | network.py:193-195 | a throttled source stays silent |
| Network.OneMailPerPacket | network.py:188-221 | however many detectors fire on one packet, at most one mail goes out for it |
| Network.ReportThen | network.py:136-146 | reporting two detector calls in turn is reporting their joint effects |
| Network.ReportDeferred | network.py:131-146 | the report of a packet is the block-list mail first, then the detectors, then the block-list row |
| Network.AddressesSkipHeader | network.py:71 | the first nine lines of the address list are never read; every later line is kept as written, unstripped and unfiltered |
| Network.TrailingBreakListsEmpty | network.py:74 | a domain list ending in a line break lists the empty name |
| Network.FeedsAfter | network.py:66-77 | a raised first request changes nothing; each list is refreshed from its own reply |
| Network.Sniffer.constructor | network.py:38-43 | empty lists, no send times, empty feeds |
| Network.Sniffer.SendAlert | network.py:188-221 | the mail state moves by one mail step |
| Network.Sniffer.Emit | network.py:159-161 | one detector's alert and CSV row |
| Network.Sniffer.DetectDdos | network.py:149-162 | no `None` guard: port-less packets are counted under a key of their own, and more than 100 fires and resets |
| Network.Sniffer.DetectPortScan | network.py:165-180 | an unseen port is appended, the list pruned, and more than 10 entries fire and reset |
| Network.Sniffer.DetectWebAttacks | network.py:84-92 | counting needs the HTTP request and the Raw layer |
| Network.Sniffer.CountAttempts | network.py:107-119 | pruning to 60 s and the two `>= 3` tests |
| Network.Sniffer.DetectThreat | network.py:122-146 | a non-IP packet changes nothing. Otherwise the block-list alert is sent first, the detectors run, and the block-list row is written last |
| Network.Sniffer.RunDetectors | network.py:136-142 | DDoS, port scan and web, in that order |
| Network.Sniffer.TrackPorts | network.py:136-139 | DDoS then port scan |
| Network.Sniffer.FetchOsint | network.py:66-77 | the feeds follow `FeedsAfter` |

`IpAnalytics.FetchResultSpec` states three facts:

- A non-ok response always ends with the HTTP message, whatever its body.
- A network failure is replaced by the cannot-connect text.
- The fetch succeeds exactly when an ok response parses. The records are then the array, or its `threats` field, or none.

## Left out

**I/O and platform behaviour.**

- Packet capture with scapy, layer extraction and `extract_meta_from_packet`. A packet is a record of its layers.
- The packet metadata, message texts and port fields of alerts and rows. A row holds the threat, source and destination.
- Regular expressions. `re.search` is an oracle `search(pattern, text)`.
- `unquote` and the `Host:` header extraction, which are oracles.
- The SMTP exchange. Whether a mail is delivered is an input.
- `requests.get` for the feeds and providers. Replies are inputs.
- The clock. `time.time()` and `Date.now()` are the parameter `now`.
- The moment at which the `isLive` memo is recomputed. The code recomputes it in the render after the stream handler, a moment later; the model uses the handler's clock reading.
- The OSINT refresh thread and `time.sleep`, including the geolocation rate-limit pause.
- SQLite (`log_threat_to_db`, `set_stat`/`get_stat`), the alert history store and the CSV files. These are sequences of rows and a stored integer, and the flush succeeds or fails as an input.
- Geolocation inside the backend's `send_alert`, in three parts:
  - the city, country and ISP it writes into the history entry and the mail body;
  - the provider queries that lookup makes;
  - the cache entries it adds to the geolocation service.

  The lookup itself, its cache and its providers are modelled on their own in `Geolocation`.
- The provider parsers `_query_ipapi`, `_query_ipapi_com` and `_query_ipinfo`, including the float parsing of `loc` and the `api_key`. They form the oracle `lookup(provider, address)`.
- Non-string input to `get_location`. The address is already text.
- Float arithmetic. Ratios and times are exact reals.

**Configuration and excluded components.**

- How the backend maps `config.json` values to its thresholds. The detector takes `Settings` directly.
- A top-level JSON value in `config.json` that is not an object. It is treated as a read error.
- `backend/db.py`, `backend/alert_history.py`, both `server.py` files, `backend/llm/ollama.py`, `ChatPanel.jsx` and `App.js`. They are storage, HTTP serving, an LLM proxy and routing, and are not part of this model.

**Frontend rendering and locale.**

- React rendering, the chart components, CSV export and `getThreatClass` (styling only).
- Locale formatting, `toLocaleDateString` and `toLocaleString`. The day label is the bucket's start time.
- Local time is a fixed UTC offset, with no daylight-saving changes.
- `localeCompare` is an abstract collation-key function supplied by the caller.
- The threat-name texts of the rows `network.py` writes. A row holds the attack kind, which determines that text.
- PortsSearchCaseSensitive: the case-insensitivity it states for the text fields holds for ASCII letters only. `Text.Lower` folds `A`–`Z`, while `toLowerCase` folds all of Unicode.
- Text.Lower: case folding covers ASCII letters only, whereas `toLowerCase` and Python's `lower()` fold all of Unicode. A search for "É" finds "é" in the code but not in `QueryView.SearchMatch`. The same holds for the sort keys of `QueryView.SortKeyOf` and the `Host` comparison in `Detector.HostOf`. Unicode case tables are not part of this model.
- Counter objects in `IPAnalytics.js` are modelled as own properties only. A key that names an inherited property of `Object.prototype`, such as "toString", is truthy before its first count, so `(acc[k] || 0) + 1` would concatenate text. The model counts it from 0.

**Where code and documentation disagree** (the model follows the code):

- `load_config` says "Deep merge" but replaces whole sections. See `Config.MergeShallow` and `Config.NestedDefaultsLost`.
- Changing the search term or the type selector does not reset the page. Only sorting and the page-size selector do.
- The "live" badge is documented as an update within the last five seconds, but `isLive` is memoised on `lastUpdate` only (`ThreatAnalytics.js:213-216`). The clock check runs once, right after the stamp, and is never re-evaluated as time passes. From the first message on, the badge reads Live until the component is remounted. See `Dashboard.ThreatDashboard.Live` and `QueryView.IsLiveExpires`.
- The documentation allows a `{threats: [...]}` response body, but the dashboard's fetch (`ThreatAnalytics.js:270-275`) stores the body as the record list and summarises it directly, so only an array works there. The per-address view accepts both forms. The backend always sends an array. `Dashboard.FetchOutcome` carries the parsed array.
