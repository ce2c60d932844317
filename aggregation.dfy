/**
 * The dashboard's summary figures (ThreatAnalytics.js): the statistics cards, the
 * hourly timeline of the last 24 hours and the daily timeline of the last 30 days.
 * `now` is the instant the computation reads the clock, `off` the local UTC offset.
 */
module Aggregation {
  import opened Wrappers
  import opened Text
  import opened Seqs
  import opened Events

  datatype Stats = Stats(
    total: nat,
    ddosCount: nat,
    portScanCount: nat,
    maliciousIpCount: nat,
    sqlInjectionCount: nat,
    recentThreats: nat)

  /** The statistics before any data has arrived. */
  const InitialStats := Stats(0, 0, 0, 0, 0, 0)

  /** `calculateStats`: four independent category counts and the 24-hour count. */
  function CalculateStats(es: seq<ThreatEvent>, now: int): (r: Stats)
    ensures r.total == |es|
    ensures r.ddosCount <= r.total && r.portScanCount <= r.total
    ensures r.maliciousIpCount <= r.total && r.sqlInjectionCount <= r.total
    ensures r.recentThreats <= r.total
  {
    Stats(
      |es|,
      |Filter(es, HasType("DDoS"))|,
      |Filter(es, HasType("Port Scan"))|,
      |Filter(es, HasType("Malicious"))|,
      |Filter(es, HasType("SQL Injection"))|,
      |Filter(es, IsAfter(now - DAY))|)
  }

  function Indicator(b: bool): nat {
    if b then 1 else 0
  }

  /** What one more event contributes to each figure, judged on that event alone. */
  function CountEvent(s: Stats, e: ThreatEvent, now: int): Stats {
    Stats(
      s.total + 1,
      s.ddosCount + Indicator(TypeIncludes(e, "DDoS")),
      s.portScanCount + Indicator(TypeIncludes(e, "Port Scan")),
      s.maliciousIpCount + Indicator(TypeIncludes(e, "Malicious")),
      s.sqlInjectionCount + Indicator(TypeIncludes(e, "SQL Injection")),
      s.recentThreats + Indicator(After(e, now - DAY)))
  }

  lemma FilterSnoc(es: seq<ThreatEvent>, e: ThreatEvent, p: ThreatEvent -> bool)
    ensures |Filter(es + [e], p)| == |Filter(es, p)| + Indicator(p(e))
  {
    FilterAppend(es, [e], p);
    FilterSingle(e, p);
  }

  /** The figures are per-event counts: appending an event adds exactly its own
      contributions, whatever the earlier events were. In particular an event may count
      toward several categories or none, and an unparseable timestamp is never recent. */
  lemma {:induction false} StatsAppend(es: seq<ThreatEvent>, e: ThreatEvent, now: int)
    ensures CalculateStats(es + [e], now) == CountEvent(CalculateStats(es, now), e, now)
  {
    FilterSnoc(es, e, HasType("DDoS"));
    FilterSnoc(es, e, HasType("Port Scan"));
    FilterSnoc(es, e, HasType("Malicious"));
    FilterSnoc(es, e, HasType("SQL Injection"));
    FilterSnoc(es, e, IsAfter(now - DAY));
  }

  /** The initial statistics are those of the empty store. */
  lemma StatsEmpty(now: int)
    ensures CalculateStats([], now) == InitialStats
  {
  }

  // ---------------------------------------------------------------- hourly timeline

  datatype HourBucket = HourBucket(
    hour: string,
    ddos: nat,
    portScan: nat,
    malicious: nat,
    sqlInjection: nat,
    total: nat)

  /** The bucket of the local hour containing `t`, counted over `recent`. */
  function HourBucketAt(recent: seq<ThreatEvent>, t: int, off: int): HourBucket {
    var lo := StartOf(t, off, HOUR);
    var hi := lo + HOUR - 1;
    var d := |Filter(recent, HasTypeWithin("DDoS", lo, hi))|;
    var p := |Filter(recent, HasTypeWithin("Port Scan", lo, hi))|;
    var m := |Filter(recent, HasTypeWithin("Malicious", lo, hi))|;
    var s := |Filter(recent, HasTypeWithin("SQL Injection", lo, hi))|;
    HourBucket(NatToString(LocalHour(t, off)) + ":00", d, p, m, s, d + p + m + s)
  }

  /** Bucket `i` hours back from `now`: over the events strictly after now - 24 h. */
  function HourSlot(es: seq<ThreatEvent>, now: int, off: int, i: nat): HourBucket {
    HourBucketAt(Filter(es, IsAfter(now - DAY)), Back(now, i, HOUR), off)
  }

  /** The timeline as displayed: oldest hour first, the current hour last. */
  function TimelineOf(es: seq<ThreatEvent>, now: int, off: int): (r: seq<HourBucket>)
    ensures |r| == 24
  {
    Countdown(24, HourSlotFn(es, now, off))
  }

  function HourSlotFn(es: seq<ThreatEvent>, now: int, off: int): nat -> HourBucket {
    (i: nat) => HourSlot(es, now, off, i)
  }

  /** Position `k` of the timeline is the hour `23 - k` hours back from `now`. */
  lemma TimelineIndex(es: seq<ThreatEvent>, now: int, off: int, k: nat)
    requires k < 24
    ensures TimelineOf(es, now, off)[k] == HourSlot(es, now, off, 23 - k)
  {
    CountdownIndex(24, HourSlotFn(es, now, off), k);
  }

  /** `processTimelineData`: 24 buckets, each prepended, so the list ends with the
      current hour. */
  method ProcessTimelineData(es: seq<ThreatEvent>, now: int, off: int) returns (r: seq<HourBucket>)
    ensures r == TimelineOf(es, now, off)
  {
    var recent := Filter(es, IsAfter(now - DAY));
    r := [];
    var i := 0;
    while i < 24
      invariant 0 <= i <= 24
      invariant r == Countdown(i, HourSlotFn(es, now, off))
    {
      var bucket := HourBucketAt(recent, now - i * HOUR, off);
      HourSlotStep(es, now, off, i);
      CountdownStep(i, HourSlotFn(es, now, off));
      r := [bucket] + r;
      i := i + 1;
    }
  }

  /** The bucket the loop builds at step `i` is slot `i`. */
  lemma HourSlotStep(es: seq<ThreatEvent>, now: int, off: int, i: nat)
    ensures HourBucketAt(Filter(es, IsAfter(now - DAY)), now - i * HOUR, off) == HourSlotFn(es, now, off)(i)
  {
    BackIsProduct(now, i, HOUR);
  }

  /** Which slot an instant falls in: slot `i` of a `unit`-sized timeline is the local
      unit whose index is `i` below that of `now`. */
  lemma SlotIndex(now: int, i: nat, t: int, off: int, unit: int)
    requires unit > 0
    ensures StartOf(Back(now, i, unit), off, unit) <= t <= StartOf(Back(now, i, unit), off, unit) + unit - 1
            <==> (t + off) / unit == (now + off) / unit - i
  {
    BackIsProduct(now, i, unit);
    SameUnit(now - i * unit, t, off, unit);
    StepBack(now, i, off, unit);
  }

  /** `Within` the bounds of hourly slot `i`. */
  predicate InHourSlot(e: ThreatEvent, now: int, off: int, i: nat) {
    var lo := StartOf(Back(now, i, HOUR), off, HOUR);
    Within(e, lo, lo + HOUR - 1)
  }

  /** The hourly slots are disjoint, consecutive local hours; the last one is the
      hour containing `now`, and its label is that hour with no leading zero. */
  lemma {:induction false} HourSlots(e: ThreatEvent, now: int, off: int, i: nat, j: nat)
    ensures InHourSlot(e, now, off, i) && InHourSlot(e, now, off, j) ==> i == j
    ensures e.time.Some? ==>
              (InHourSlot(e, now, off, i) <==> (e.time.value + off) / HOUR == (now + off) / HOUR - i)
    ensures e.time == Some(now) ==> InHourSlot(e, now, off, 0)
    ensures TimelineOf([], now, off)[23].hour == NatToString(LocalHour(now, off)) + ":00"
  {
    if e.time.Some? {
      SlotIndex(now, i, e.time.value, off, HOUR);
      SlotIndex(now, j, e.time.value, off, HOUR);
      SlotIndex(now, 0, e.time.value, off, HOUR);
    }
    TimelineIndex([], now, off, 23);
  }

  /** Every event of the last 24 hours up to `now` is in exactly one slot, except those
      in the part of the oldest hour that lies beyond the 24th bucket. */
  lemma HourCoverage(e: ThreatEvent, now: int, off: int)
    requires After(e, now - DAY) && e.time.value <= now
    requires (e.time.value + off) / HOUR > (now + off) / HOUR - 24
    ensures var i := (now + off) / HOUR - (e.time.value + off) / HOUR;
            0 <= i < 24 && InHourSlot(e, now, off, i)
  {
    var i := (now + off) / HOUR - (e.time.value + off) / HOUR;
    assert (e.time.value + off) / HOUR <= (now + off) / HOUR;
    SlotIndex(now, i, e.time.value, off, HOUR);
  }

  /** The oldest-hour gap is real: an event 23 h 59 min 59.999 s old is recent but
      counted in no hourly bucket. */
  lemma HourGap()
    ensures var e := ThreatEvent(Some(-DAY + 1), Some("DDoS"), None, None, NoPorts, None);
            After(e, 0 - DAY) && forall i: nat :: i < 24 ==> !InHourSlot(e, 0, 0, i)
  {
    var e := ThreatEvent(Some(-DAY + 1), Some("DDoS"), None, None, NoPorts, None);
    assert (-DAY + 1) / HOUR == -24;
    forall i: nat | i < 24 ensures !InHourSlot(e, 0, 0, i) {
      SlotIndex(0, i, -DAY + 1, 0, HOUR);
    }
  }

  /** An event in none of the four categories of the hour's bucket does not change it. */
  lemma BucketIgnores(recent: seq<ThreatEvent>, e: ThreatEvent, t: int, off: int)
    requires var lo := StartOf(t, off, HOUR);
             !HasTypeWithin("DDoS", lo, lo + HOUR - 1)(e) && !HasTypeWithin("Port Scan", lo, lo + HOUR - 1)(e)
             && !HasTypeWithin("Malicious", lo, lo + HOUR - 1)(e)
             && !HasTypeWithin("SQL Injection", lo, lo + HOUR - 1)(e)
    ensures HourBucketAt(recent + [e], t, off) == HourBucketAt(recent, t, off)
  {
    var lo := StartOf(t, off, HOUR);
    var hi := lo + HOUR - 1;
    FilterSnoc(recent, e, HasTypeWithin("DDoS", lo, hi));
    FilterSnoc(recent, e, HasTypeWithin("Port Scan", lo, hi));
    FilterSnoc(recent, e, HasTypeWithin("Malicious", lo, hi));
    FilterSnoc(recent, e, HasTypeWithin("SQL Injection", lo, hi));
  }

  /** Events outside the four charted categories, or without a valid timestamp, leave
      the hourly timeline unchanged: each bucket's total counts only the categories. */
  lemma {:induction false} TimelineIgnores(es: seq<ThreatEvent>, e: ThreatEvent, now: int, off: int)
    requires e.time.None? || !(TypeIncludes(e, "DDoS") || TypeIncludes(e, "Port Scan")
                               || TypeIncludes(e, "Malicious") || TypeIncludes(e, "SQL Injection"))
    ensures TimelineOf(es + [e], now, off) == TimelineOf(es, now, off)
  {
    forall i: nat | i < 24 ensures HourSlot(es + [e], now, off, i) == HourSlot(es, now, off, i) {
      SlotIgnores(es, e, now, off, i);
    }
    CountdownPointwise(24, HourSlotFn(es + [e], now, off), HourSlotFn(es, now, off));
  }

  lemma SlotIgnores(es: seq<ThreatEvent>, e: ThreatEvent, now: int, off: int, i: nat)
    requires e.time.None? || !(TypeIncludes(e, "DDoS") || TypeIncludes(e, "Port Scan")
                               || TypeIncludes(e, "Malicious") || TypeIncludes(e, "SQL Injection"))
    ensures HourSlot(es + [e], now, off, i) == HourSlot(es, now, off, i)
  {
    var p := IsAfter(now - DAY);
    var recent := Filter(es, p);
    FilterAppend(es, [e], p);
    FilterSingle(e, p);
    if p(e) {
      assert Filter(es + [e], p) == recent + [e];
      BucketIgnores(recent, e, Back(now, i, HOUR), off);
    } else {
      assert Filter(es + [e], p) == recent;
    }
  }

  // ----------------------------------------------------------------- daily timeline

  /** One day of the 30-day chart. The chart label is the locale's rendering of the
      day; the model keeps the local midnight it is computed from. */
  datatype DayBucket = DayBucket(dayStart: int, count: nat)

  function DayBucketAt(recent: seq<ThreatEvent>, t: int, off: int): DayBucket {
    var lo := StartOf(t, off, DAY);
    DayBucket(lo, |Filter(recent, IsWithin(lo, lo + DAY - 1))|)
  }

  /** Bucket `i` days back from `now`, over the events strictly after now - 30 days. */
  function DaySlot(es: seq<ThreatEvent>, now: int, off: int, i: nat): DayBucket {
    DayBucketAt(Filter(es, IsAfter(now - 30 * DAY)), Back(now, i, DAY), off)
  }

  function LifetimeOf(es: seq<ThreatEvent>, now: int, off: int): (r: seq<DayBucket>)
    ensures |r| == 30
  {
    Countdown(30, DaySlotFn(es, now, off))
  }

  function DaySlotFn(es: seq<ThreatEvent>, now: int, off: int): nat -> DayBucket {
    (i: nat) => DaySlot(es, now, off, i)
  }

  /** Position `k` of the daily series is the day `29 - k` days back from `now`. */
  lemma LifetimeIndex(es: seq<ThreatEvent>, now: int, off: int, k: nat)
    requires k < 30
    ensures LifetimeOf(es, now, off)[k] == DaySlot(es, now, off, 29 - k)
  {
    CountdownIndex(30, DaySlotFn(es, now, off), k);
  }

  /** `processLifetimeData`: 30 buckets, oldest day first. */
  method ProcessLifetimeData(es: seq<ThreatEvent>, now: int, off: int) returns (r: seq<DayBucket>)
    ensures r == LifetimeOf(es, now, off)
  {
    var recent := Filter(es, IsAfter(now - 30 * DAY));
    r := [];
    var i := 0;
    while i < 30
      invariant 0 <= i <= 30
      invariant r == Countdown(i, DaySlotFn(es, now, off))
    {
      var bucket := DayBucketAt(recent, now - i * DAY, off);
      DaySlotStep(es, now, off, i);
      CountdownStep(i, DaySlotFn(es, now, off));
      r := [bucket] + r;
      i := i + 1;
    }
  }

  /** The bucket the loop builds at step `i` is slot `i`. */
  lemma DaySlotStep(es: seq<ThreatEvent>, now: int, off: int, i: nat)
    ensures DayBucketAt(Filter(es, IsAfter(now - 30 * DAY)), now - i * DAY, off) == DaySlotFn(es, now, off)(i)
  {
    BackIsProduct(now, i, DAY);
  }

  /** The daily buckets are consecutive local days, newest last: each starts exactly one
      day after the one before it, and the last one contains `now`. */
  lemma {:induction false} DaySlots(es: seq<ThreatEvent>, now: int, off: int, k: nat)
    requires k < 29
    ensures LifetimeOf(es, now, off)[k + 1].dayStart == LifetimeOf(es, now, off)[k].dayStart + DAY
    ensures LifetimeOf(es, now, off)[29].dayStart <= now < LifetimeOf(es, now, off)[29].dayStart + DAY
  {
    var i := 29 - k;
    LifetimeIndex(es, now, off, k);
    LifetimeIndex(es, now, off, k + 1);
    LifetimeIndex(es, now, off, 29);
    var a := now - i * DAY;
    var b := now - (i - 1) * DAY;
    BackIsProduct(now, i, DAY);
    BackIsProduct(now, i - 1, DAY);
    BackIsProduct(now, 0, DAY);
    StepBack(now, i, off, DAY);
    StepBack(now, i - 1, off, DAY);
    var qa := (a + off) / DAY;
    var qb := (b + off) / DAY;
    assert StartOf(a, off, DAY) == qa * DAY - off;
    assert StartOf(b, off, DAY) == qb * DAY - off;
    assert qb == qa + 1;
  }

  /** A daily count covers exactly the events of the last 30 days whose local date is
      that bucket's day. */
  lemma {:induction false} DayCount(es: seq<ThreatEvent>, now: int, off: int, i: nat, e: ThreatEvent)
    requires e in es
    ensures e in Filter(Filter(es, IsAfter(now - 30 * DAY)), IsWithin(DaySlot(es, now, off, i).dayStart,
                                                                     DaySlot(es, now, off, i).dayStart + DAY - 1))
            <==> After(e, now - 30 * DAY) && (e.time.value + off) / DAY == (now + off) / DAY - i
  {
    var recent := Filter(es, IsAfter(now - 30 * DAY));
    var lo := DaySlot(es, now, off, i).dayStart;
    if e.time.Some? {
      SlotIndex(now, i, e.time.value, off, DAY);
    }
    FilterMembers(es, IsAfter(now - 30 * DAY), e);
    FilterMembers(recent, IsWithin(lo, lo + DAY - 1), e);
  }
}
