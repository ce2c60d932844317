/**
 * The IPAnalytics page: the records of one source address, the summary of those in
 * the selected time range, the ranking of the most active addresses, and the mapping
 * of a `/api/threats` response to the record list or the message shown to the user.
 *
 * The three counters of the summary are JavaScript objects filled one record at a
 * time; they are modelled by `JsObject`. `now` is the clock reading, `off` the local
 * UTC offset and `collate` the collation key of `localeCompare`.
 */
module IpAnalytics {
  import opened Wrappers
  import opened Text
  import opened Seqs
  import opened Ordering
  import opened Events
  import opened JsObject

  // --------------------------------------------------------------- records of one IP

  function FromSource(ip: string): ThreatEvent -> bool {
    (e: ThreatEvent) => e.sourceIP == Some(ip)
  }

  /** `ipThreats`: no address (a missing or empty route parameter) gives no records. */
  function IpThreats(threats: seq<ThreatEvent>, ip: Option<string>): (r: seq<ThreatEvent>)
    ensures ip.None? || ip == Some("") ==> r == []
    ensures |r| <= |threats|
  {
    if ip.None? || ip.value == "" then [] else Filter(threats, FromSource(ip.value))
  }

  /** The records of an address are exactly the store's records with that source, in
      store order. */
  lemma IpThreatsSpec(threats: seq<ThreatEvent>, more: seq<ThreatEvent>, ip: string, e: ThreatEvent)
    requires ip != ""
    ensures e in IpThreats(threats, Some(ip)) <==> e in threats && e.sourceIP == Some(ip)
    ensures IpThreats(threats + more, Some(ip)) == IpThreats(threats, Some(ip)) + IpThreats(more, Some(ip))
  {
    FilterMembers(threats, FromSource(ip), e);
    FilterAppend(threats, more, FromSource(ip));
  }

  // ------------------------------------------------------------------- time window

  /** `timeRanges[timeRange] || timeRanges['24h']`. */
  function RangeMs(sel: string): (r: int)
    ensures r == DAY || r == 7 * DAY || r == 30 * DAY
    ensures sel == "7d" ==> r == 7 * DAY
    ensures sel == "30d" ==> r == 30 * DAY
    ensures sel != "7d" && sel != "30d" ==> r == DAY
  {
    if sel == "24h" then DAY else if sel == "7d" then 7 * DAY else if sel == "30d" then 30 * DAY else DAY
  }

  /** `filtered`: the records at or after the start of the range. */
  function InRange(ipThreats: seq<ThreatEvent>, sel: string, now: int): seq<ThreatEvent> {
    Filter(ipThreats, IsAtOrAfter(now - RangeMs(sel)))
  }

  /** The bound is inclusive and an unparsable timestamp is never in range. */
  lemma InRangeSpec(ipThreats: seq<ThreatEvent>, sel: string, now: int, e: ThreatEvent)
    ensures e in InRange(ipThreats, sel, now)
            <==> e in ipThreats && e.time.Some? && e.time.value >= now - RangeMs(sel)
  {
    FilterMembers(ipThreats, IsAtOrAfter(now - RangeMs(sel)), e);
  }

  // ----------------------------------------------------------------------- summary

  /** `threat.threatType || 'Unknown'`. */
  function TypeKey(e: ThreatEvent): string {
    if Truthy(e.threatType) then e.threatType.value else "Unknown"
  }

  /** `threat.ports || 'Unknown'`, as the property key it becomes. */
  function PortKey(e: ThreatEvent): string {
    if PortsTruthy(e.ports) then PortsString(e.ports) else "Unknown"
  }

  /** `` `${date.getHours()}:00` ``: an Invalid Date prints as NaN. */
  function HourKey(e: ThreatEvent, off: int): string {
    match e.time
    case None => "NaN:00"
    case Some(t) => NatToString(LocalHour(t, off)) + ":00"
  }

  function TypeKeyFn(): ThreatEvent -> string {
    e => TypeKey(e)
  }

  function PortKeyFn(): ThreatEvent -> string {
    e => PortKey(e)
  }

  function HourKeyFn(off: int): ThreatEvent -> string {
    e => HourKey(e, off)
  }

  /** The sort key of `a.hour.localeCompare(b.hour)`. */
  function HourOrder(collate: string -> seq<int>): Entry -> seq<int> {
    (e: Entry) => collate(e.0)
  }

  /** `new Set(filtered.map(t => t.destinationIP))`. */
  function Destinations(es: seq<ThreatEvent>): set<Option<string>> {
    set i | 0 <= i < |es| :: es[i].destinationIP
  }

  datatype IpSummary = IpSummary(
    totalThreats: nat,
    threatTypes: seq<Entry>,
    ports: seq<Entry>,
    hourlyData: seq<Entry>,
    geolocation: Option<Geo>,
    firstSeen: Option<int>,
    lastSeen: Option<int>,
    uniqueDestinations: nat)

  /** The object `ipStats` returns, from the range's records and the three filled
      counters. */
  function Summary(ipThreats: seq<ThreatEvent>, filtered: seq<ThreatEvent>,
                   types: seq<Entry>, ports: seq<Entry>, hours: seq<Entry>,
                   collate: string -> seq<int>): IpSummary
    requires |ipThreats| > 0
  {
    IpSummary(
      |filtered|,
      Entries(types),
      Take(Entries(ports), 10),
      StableSort(Entries(hours), HourOrder(collate), false),
      ipThreats[0].geolocation,
      if |filtered| > 0 then filtered[|filtered| - 1].time else None,
      if |filtered| > 0 then filtered[0].time else None,
      |Destinations(filtered)|)
  }

  /** `ipStats`: null exactly when the address has no records at all. */
  function IpStatsOf(ipThreats: seq<ThreatEvent>, sel: string, now: int, off: int,
                     collate: string -> seq<int>): (r: Option<IpSummary>)
    ensures r.None? <==> |ipThreats| == 0
  {
    if |ipThreats| == 0 then None
    else
      var filtered := InRange(ipThreats, sel, now);
      Some(Summary(ipThreats, filtered,
                   TallyOf(Map(filtered, TypeKeyFn())),
                   TallyOf(Map(filtered, PortKeyFn())),
                   TallyOf(Map(filtered, HourKeyFn(off))),
                   collate))
  }

  /** `ipStats` as written: one `forEach` pass fills the three counters. */
  method ComputeIpStats(ipThreats: seq<ThreatEvent>, sel: string, now: int, off: int,
                        collate: string -> seq<int>) returns (r: Option<IpSummary>)
    ensures r == IpStatsOf(ipThreats, sel, now, off, collate)
  {
    if |ipThreats| == 0 {
      return None;
    }
    var rangeStart := now - RangeMs(sel);
    var filtered := Filter(ipThreats, IsAtOrAfter(rangeStart));
    var types: seq<Entry> := [];
    var ports: seq<Entry> := [];
    var hours: seq<Entry> := [];
    var i := 0;
    while i < |filtered|
      invariant 0 <= i <= |filtered|
      invariant types == TallyOf(Map(filtered[..i], TypeKeyFn()))
      invariant ports == TallyOf(Map(filtered[..i], PortKeyFn()))
      invariant hours == TallyOf(Map(filtered[..i], HourKeyFn(off)))
    {
      var threat := filtered[i];
      MapPrefixStep(filtered, i, TypeKeyFn());
      MapPrefixStep(filtered, i, PortKeyFn());
      MapPrefixStep(filtered, i, HourKeyFn(off));
      TallySnoc(Map(filtered[..i], TypeKeyFn()), TypeKey(threat));
      TallySnoc(Map(filtered[..i], PortKeyFn()), PortKey(threat));
      TallySnoc(Map(filtered[..i], HourKeyFn(off)), HourKey(threat, off));
      types := Bump(types, TypeKey(threat));
      ports := Bump(ports, PortKey(threat));
      hours := Bump(hours, HourKey(threat, off));
      i := i + 1;
    }
    assert filtered[..|filtered|] == filtered;
    r := Some(Summary(ipThreats, filtered, types, ports, hours, collate));
  }

  /** The count listed for a key is the number of records with that key, and the
      listed counts add up to the records in range. */
  lemma CounterSpec(keys: seq<string>)
    ensures forall x :: x in Entries(TallyOf(keys)) ==> x.1 == multiset(keys)[x.0] && x.0 in keys
    ensures Total(Entries(TallyOf(keys))) == |keys|
  {
    var t := TallyOf(keys);
    TallyKeys(keys);
    TallyTotal(keys);
    EntriesPermutation(t);
    forall x | x in Entries(t) ensures x.1 == multiset(keys)[x.0] && x.0 in keys {
      assert x in multiset(t);
      LookupMember(t, x);
      TallyLookup(keys, x.0);
      assert x.0 in KeySeq(t);
    }
  }

  /** Every counted key has an entry. */
  lemma CounterCovers(keys: seq<string>)
    ensures forall k :: k in keys ==> exists x :: x in Entries(TallyOf(keys)) && x.0 == k
  {
    var t := TallyOf(keys);
    TallyKeys(keys);
    EntriesPermutation(t);
    forall k | k in keys ensures exists x :: x in Entries(t) && x.0 == k {
      assert k in KeySeq(t);
      var i :| 0 <= i < |t| && t[i].0 == k;
      assert t[i] in multiset(Entries(t));
    }
  }

  /** The type histogram: every record in range is counted once, a missing type as
      'Unknown', and each count is exact. */
  lemma IpTypeCounts(ipThreats: seq<ThreatEvent>, sel: string, now: int, off: int,
                     collate: string -> seq<int>)
    requires |ipThreats| > 0
    ensures var s := IpStatsOf(ipThreats, sel, now, off, collate).value;
            var keys := Map(InRange(ipThreats, sel, now), TypeKeyFn());
            s.totalThreats == |InRange(ipThreats, sel, now)|
            && Total(s.threatTypes) == s.totalThreats
            && forall x :: x in s.threatTypes ==> x.1 == multiset(keys)[x.0]
  {
    CounterSpec(Map(InRange(ipThreats, sel, now), TypeKeyFn()));
  }

  /** The port histogram keeps the first 10 entries in property order (array-index
      keys ascending, then first appearance), each with its exact count; they need
      not be the 10 most frequent ports. */
  lemma IpPortCounts(ipThreats: seq<ThreatEvent>, sel: string, now: int, off: int,
                     collate: string -> seq<int>)
    requires |ipThreats| > 0
    ensures var s := IpStatsOf(ipThreats, sel, now, off, collate).value;
            var keys := Map(InRange(ipThreats, sel, now), PortKeyFn());
            var all := Entries(TallyOf(keys));
            |s.ports| == (if |all| < 10 then |all| else 10) && s.ports == all[..|s.ports|]
            && (|all| <= 10 ==> s.ports == all)
            && forall x :: x in s.ports ==> x.1 == multiset(keys)[x.0]
  {
    var keys := Map(InRange(ipThreats, sel, now), PortKeyFn());
    CounterSpec(keys);
    var all := Entries(TallyOf(keys));
    var ports := Take(all, 10);
    forall x | x in ports ensures x in all {
      var i :| 0 <= i < |ports| && ports[i] == x;
      assert all[i] == x;
    }
  }

  /** An hour label is never an array index: it contains ':'. */
  lemma HourKeyNamed(e: ThreatEvent, off: int)
    ensures !IsArrayIndex(HourKey(e, off))
  {
    var k := HourKey(e, off);
    assert k[|k| - 3] == ':';
    assert !IsDigit(k[|k| - 3]);
  }

  /** The hourly histogram is in creation order before sorting, is sorted by the
      collation of its labels, counts every record in range once, and each count is
      exact. */
  lemma IpHourly(ipThreats: seq<ThreatEvent>, sel: string, now: int, off: int,
                 collate: string -> seq<int>)
    requires |ipThreats| > 0
    ensures var s := IpStatsOf(ipThreats, sel, now, off, collate).value;
            var keys := Map(InRange(ipThreats, sel, now), HourKeyFn(off));
            Sorted(s.hourlyData, HourOrder(collate), false)
            && Total(s.hourlyData) == s.totalThreats
            && forall x :: x in s.hourlyData ==> x.1 == multiset(keys)[x.0]
  {
    var filtered := InRange(ipThreats, sel, now);
    var keys := Map(filtered, HourKeyFn(off));
    var t := TallyOf(keys);
    TallyKeys(keys);
    forall i | 0 <= i < |t| ensures !IsArrayIndex(t[i].0) {
      assert t[i].0 in KeySeq(t);
      var j :| 0 <= j < |keys| && keys[j] == t[i].0;
      HourKeyNamed(filtered[j], off);
    }
    EntriesNamed(t);
    CounterSpec(keys);
    StableSortSpec(t, HourOrder(collate), false);
    TotalStableSort(t, HourOrder(collate), false);
    forall x | x in StableSort(t, HourOrder(collate), false) ensures x.1 == multiset(keys)[x.0] {
      assert x in multiset(t);
    }
  }

  /** At most one distinct destination per record. */
  lemma {:induction false} DestinationsBound(es: seq<ThreatEvent>)
    ensures |Destinations(es)| <= |es|
    decreases |es|
  {
    if |es| > 0 {
      var init := es[..|es| - 1];
      DestinationsBound(init);
      assert Destinations(es) == Destinations(init) + {es[|es| - 1].destinationIP};
    }
  }

  /** The destinations are the `destinationIP` values of the records, each once. */
  lemma DestinationsOfRecords(es: seq<ThreatEvent>)
    ensures Destinations(es) == set e | e in es :: e.destinationIP
    ensures |es| > 0 ==> es[0].destinationIP in Destinations(es)
  {
    forall d | d in (set e | e in es :: e.destinationIP) ensures d in Destinations(es) {
      var e :| e in es && e.destinationIP == d;
      var i :| 0 <= i < |es| && es[i] == e;
    }
  }

  /** Location, first and last sightings and distinct destinations, whatever the
      counters hold: the location is the first record's of the whole history; first
      and last sightings are the last and first records in range, both inside the
      range; the destination count is the number of distinct `destinationIP` values in
      range, at most one per record and at least one when any record is in range. */
  lemma IpSeen(ipThreats: seq<ThreatEvent>, sel: string, now: int,
               types: seq<Entry>, ports: seq<Entry>, hours: seq<Entry>, collate: string -> seq<int>)
    requires |ipThreats| > 0
    ensures var filtered := InRange(ipThreats, sel, now);
            var s := Summary(ipThreats, filtered, types, ports, hours, collate);
            s.geolocation == ipThreats[0].geolocation
            && (s.firstSeen.Some? <==> |filtered| > 0) && (s.lastSeen.Some? <==> |filtered| > 0)
            && (s.firstSeen.Some? ==> s.firstSeen.value >= now - RangeMs(sel)
                                      && s.firstSeen == filtered[|filtered| - 1].time)
            && (s.lastSeen.Some? ==> s.lastSeen.value >= now - RangeMs(sel) && s.lastSeen == filtered[0].time)
            && s.uniqueDestinations == |set e | e in filtered :: e.destinationIP|
            && s.uniqueDestinations <= s.totalThreats
            && (|filtered| > 0 ==> s.uniqueDestinations >= 1)
  {
    var filtered := InRange(ipThreats, sel, now);
    DestinationsBound(filtered);
    DestinationsOfRecords(filtered);
    if |filtered| > 0 {
      assert IsAtOrAfter(now - RangeMs(sel))(filtered[0]);
      assert IsAtOrAfter(now - RangeMs(sel))(filtered[|filtered| - 1]);
    }
  }

  // ----------------------------------------------------------------- top addresses

  /** `if (!sip || sip === 'N/A') return acc`. */
  predicate Countable(e: ThreatEvent) {
    Truthy(e.sourceIP) && e.sourceIP.value != "N/A"
  }

  function CountableFn(): ThreatEvent -> bool {
    e => Countable(e)
  }

  function SourceKeyFn(): ThreatEvent -> string {
    (e: ThreatEvent) => Str(e.sourceIP)
  }

  /** The addresses the reduction counts, one per counted record. */
  function CountedSources(threats: seq<ThreatEvent>): seq<string> {
    Map(Filter(threats, CountableFn()), SourceKeyFn())
  }

  /** `b.count - a.count`: descending by count. */
  function CountKey(): Entry -> seq<int> {
    (e: Entry) => [e.1]
  }

  /** `topIps`. */
  function TopIpsOf(threats: seq<ThreatEvent>): seq<Entry> {
    Take(Ranked(threats), 20)
  }

  /** `topIps` as written: the `reduce` fills the counter one record at a time. */
  method TopIps(threats: seq<ThreatEvent>) returns (r: seq<Entry>)
    ensures r == TopIpsOf(threats)
  {
    var acc: seq<Entry> := [];
    var i := 0;
    while i < |threats|
      invariant 0 <= i <= |threats|
      invariant acc == TallyOf(CountedSources(threats[..i]))
    {
      var t := threats[i];
      assert threats[..i + 1] == threats[..i] + [t];
      FilterAppend(threats[..i], [t], CountableFn());
      FilterSingle(t, CountableFn());
      MapAppend(Filter(threats[..i], CountableFn()), Filter([t], CountableFn()), SourceKeyFn());
      if Countable(t) {
        TallySnoc(CountedSources(threats[..i]), t.sourceIP.value);
        acc := Bump(acc, t.sourceIP.value);
      } else {
        assert CountedSources(threats[..i + 1]) == CountedSources(threats[..i]);
      }
      i := i + 1;
    }
    assert threats[..|threats|] == threats;
    r := Take(StableSort(Entries(acc), CountKey(), true), 20);
  }

  /** Every counted address is a real one. */
  lemma CountedSourcesValid(threats: seq<ThreatEvent>, k: string)
    requires k in CountedSources(threats)
    ensures k != "" && k != "N/A"
  {
    var f := Filter(threats, CountableFn());
    var i :| 0 <= i < |f| && CountedSources(threats)[i] == k;
    assert CountableFn()(f[i]);
  }

  /** The ranked list before the cut: every counted address once, by count
      descending. */
  function Ranked(threats: seq<ThreatEvent>): seq<Entry> {
    StableSort(Entries(TallyOf(CountedSources(threats))), CountKey(), true)
  }

  lemma RankedOrder(threats: seq<ThreatEvent>)
    ensures var r := Ranked(threats);
            forall i, j :: 0 <= i < j < |r| ==> r[i].1 >= r[j].1
  {
    var r := Ranked(threats);
    StableSortSortedOnly(Entries(TallyOf(CountedSources(threats))));
    forall i, j | 0 <= i < j < |r| ensures r[i].1 >= r[j].1 {
      assert Precedes(CountKey()(r[i]), CountKey()(r[j]), true);
      CompareSingle(r[j].1, r[i].1);
    }
  }

  lemma StableSortSortedOnly(all: seq<Entry>)
    ensures Sorted(StableSort(all, CountKey(), true), CountKey(), true)
  {
    StableSortSorted(all, CountKey(), true);
  }

  /** Every entry of the ranking is a counted address with its count, and every
      counted address is ranked. */
  lemma RankedCounts(threats: seq<ThreatEvent>)
    ensures var r := Ranked(threats);
            var keys := CountedSources(threats);
            (forall x :: x in r ==> x.1 == multiset(keys)[x.0] && x.0 in keys)
            && (forall k :: k in keys ==> exists i :: 0 <= i < |r| && r[i].0 == k)
  {
    var keys := CountedSources(threats);
    var all := Entries(TallyOf(keys));
    CounterSpec(keys);
    CounterCovers(keys);
    StableSortMultiset(all, CountKey(), true);
    PermutedCounts(Ranked(threats), all, keys);
  }

  lemma PermutedCounts(r: seq<Entry>, all: seq<Entry>, keys: seq<string>)
    requires multiset(r) == multiset(all)
    requires forall x :: x in all ==> x.1 == multiset(keys)[x.0] && x.0 in keys
    requires forall k :: k in keys ==> exists x :: x in all && x.0 == k
    ensures forall x :: x in r ==> x.1 == multiset(keys)[x.0] && x.0 in keys
    ensures forall k :: k in keys ==> exists i :: 0 <= i < |r| && r[i].0 == k
  {
    forall x | x in r ensures x.1 == multiset(keys)[x.0] && x.0 in keys {
      assert x in multiset(all);
    }
    forall k | k in keys ensures exists i :: 0 <= i < |r| && r[i].0 == k {
      var x :| x in all && x.0 == k;
      assert x in multiset(r);
      var i :| 0 <= i < |r| && r[i] == x;
    }
  }

  /** A ranking of `keys`: by count descending, each entry a key with its number of
      occurrences, every key present. */
  ghost predicate RankingOf(r: seq<Entry>, keys: seq<string>) {
    (forall i, j :: 0 <= i < j < |r| ==> r[i].1 >= r[j].1)
    && (forall x :: x in r ==> x.1 == multiset(keys)[x.0] && x.0 in keys)
    && (forall k :: k in keys ==> exists i :: 0 <= i < |r| && r[i].0 == k)
  }

  /** The first `n` entries of a ranking: still by count descending, and no key left
      out has a higher count than a key kept. */
  lemma TopOfRanking(r: seq<Entry>, keys: seq<string>, n: nat, ip: string)
    requires RankingOf(r, keys)
    ensures var top := Take(r, n);
            |top| <= n
            && (forall i, j :: 0 <= i < j < |top| ==> top[i].1 >= top[j].1)
            && (forall x :: x in top ==> x.1 == multiset(keys)[x.0] && x.0 in keys)
            && (ip in keys && (forall x :: x in top ==> x.0 != ip) ==>
                  forall x :: x in top ==> x.1 >= multiset(keys)[ip])
  {
    var top := Take(r, n);
    TakeMembers(r, n);
    if ip in keys && (forall x :: x in top ==> x.0 != ip) {
      var j :| 0 <= j < |r| && r[j].0 == ip;
      TakeLeftOut(r, n, j);
    }
  }

  lemma TakeMembers(r: seq<Entry>, n: nat)
    ensures forall x :: x in Take(r, n) ==> x in r
  {
    var top := Take(r, n);
    forall x | x in top ensures x in r {
      var i :| 0 <= i < |top| && top[i] == x;
      assert r[i] == x;
    }
  }

  /** An entry of a descending ranking that the first `n` miss counts no more than
      any of them. */
  lemma TakeLeftOut(r: seq<Entry>, n: nat, j: nat)
    requires forall i, j :: 0 <= i < j < |r| ==> r[i].1 >= r[j].1
    requires j < |r| && forall x :: x in Take(r, n) ==> x.0 != r[j].0
    ensures forall x :: x in Take(r, n) ==> x.1 >= r[j].1
  {
    var top := Take(r, n);
    assert j >= |top|;
    forall x | x in top ensures x.1 >= r[j].1 {
      var i :| 0 <= i < |top| && top[i] == x;
      assert r[i] == x;
    }
  }

  /** The ranking has one entry per distinct counted address. */
  lemma RankedSize(threats: seq<ThreatEvent>)
    ensures |Ranked(threats)| == |set k | k in CountedSources(threats)|
  {
    var keys := CountedSources(threats);
    var all := Entries(TallyOf(keys));
    TallySize(keys);
    EntriesPermutation(TallyOf(keys));
    StableSortMultiset(all, CountKey(), true);
    assert |multiset(Ranked(threats))| == |multiset(all)| == |multiset(TallyOf(keys))|;
  }

  /** 20 entries, or every counted address when there are fewer, by count
      descending, each an address other than 'N/A' with its exact number of records;
      and an address left out has no more records than any address shown. */
  lemma TopIpsSpec(threats: seq<ThreatEvent>, ip: string)
    ensures var r := TopIpsOf(threats);
            var keys := CountedSources(threats);
            var n := |set k | k in keys|;
            |r| == (if n < 20 then n else 20)
            && (forall i, j :: 0 <= i < j < |r| ==> r[i].1 >= r[j].1)
            && (forall x :: x in r ==> x.0 != "" && x.0 != "N/A" && x.1 == multiset(keys)[x.0])
            && (ip in keys && (forall x :: x in r ==> x.0 != ip) ==>
                  forall x :: x in r ==> x.1 >= multiset(keys)[ip])
  {
    RankedOrder(threats);
    RankedCounts(threats);
    TopOfRanking(Ranked(threats), CountedSources(threats), 20, ip);
    RankedSize(threats);
    forall x | x in TopIpsOf(threats) ensures x.0 != "" && x.0 != "N/A" {
      CountedSourcesValid(threats, x.0);
    }
  }

  // ------------------------------------------------------------ response handling

  /** What `response.json()` produced: a parse failure, an array, `null` (reading
      `.threats` of it throws), or any other value, whose `threats` property is an
      array or absent. */
  datatype Body =
    | Unparsable(message: string)
    | ArrayBody(items: seq<ThreatEvent>)
    | NullBody(message: string)
    | OtherBody(threats: Option<seq<ThreatEvent>>)

  /** A rejected `fetch` with its error message, or a response. */
  datatype Reply = NetworkFailure(message: string) | Response(ok: bool, status: nat, body: Body)

  const FAILED_PREFIX: string := "Failed to load threat data. "
  const CANNOT_CONNECT: string :=
    "Cannot connect to backend server. Please make sure the Flask server is running on http://localhost:5000"

  /** The error a non-ok response always ends with, whatever its body. */
  function HttpMessage(status: nat): string {
    "HTTP error! Status: " + NatToString(status) + ". Make sure the backend server is running."
  }

  /** The `.catch` of `fetchThreats`. */
  function ErrorMessage(err: string): (r: string)
    ensures StartsWith(r, FAILED_PREFIX)
  {
    FAILED_PREFIX
    + (if Contains(err, "Failed to fetch") || Contains(err, "NetworkError") then CANNOT_CONNECT
       else if err != "" then err
       else "Please try again later.")
  }

  /** `fetchThreats`: the new record list, or the message shown. */
  function FetchResult(reply: Reply): (r: Result<seq<ThreatEvent>, string>)
    ensures r.Err? ==> StartsWith(r.error, FAILED_PREFIX)
  {
    match reply
    case NetworkFailure(m) => Err(ErrorMessage(m))
    case Response(ok, status, body) =>
      if !ok then Err(ErrorMessage(HttpMessage(status)))
      else match body
        case Unparsable(m) => Err(ErrorMessage(m))
        case ArrayBody(items) => Ok(items)
        case NullBody(m) => Err(ErrorMessage(m))
        case OtherBody(t) => Ok(t.GetOr([]))
  }

  lemma HttpMessageLetters(status: nat)
    ensures 'F' !in HttpMessage(status) && 'N' !in HttpMessage(status)
  {
    var d := NatToString(status);
    assert forall i :: 0 <= i < |d| ==> IsDigit(d[i]);
    assert 'F' !in d && 'N' !in d;
    LacksFN("HTTP error! Status: ");
    LacksFN(". Make sure the backend server is running.");
  }

  /** Neither capital letter that starts a fetch failure's text is in `t`. */
  lemma LacksFN(t: string)
    requires forall i :: 0 <= i < |t| ==> t[i] != 'F' && t[i] != 'N'
    ensures 'F' !in t && 'N' !in t
  {
  }

  /** A non-ok response always shows the HTTP message, whatever its body; a network
      failure whose message names a failed fetch or a network error shows the
      cannot-connect text; an ok array or other value gives records. */
  lemma FetchResultSpec(reply: Reply)
    ensures reply.Response? && !reply.ok ==>
              FetchResult(reply) == Err(FAILED_PREFIX + HttpMessage(reply.status))
    ensures reply.NetworkFailure? && (Contains(reply.message, "Failed to fetch")
                                      || Contains(reply.message, "NetworkError")) ==>
              FetchResult(reply) == Err(FAILED_PREFIX + CANNOT_CONNECT)
    ensures FetchResult(reply).Ok? <==>
              reply.Response? && reply.ok && (reply.body.ArrayBody? || reply.body.OtherBody?)
  {
    if reply.Response? && !reply.ok {
      var m := HttpMessage(reply.status);
      HttpMessageLetters(reply.status);
      if Contains(m, "Failed to fetch") {
        ContainsFirstChar(m, "Failed to fetch");
      }
      if Contains(m, "NetworkError") {
        ContainsFirstChar(m, "NetworkError");
      }
    }
  }
}
