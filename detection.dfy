/**
 * What the three packet detectors have in common: a packet as the detectors see it,
 * per-key lists of timestamps pruned to a sliding window and compared with a
 * threshold, the port-scan and SYN/ACK ratio tests, alert throttling, and the
 * parsers of the downloaded block lists.
 *
 * Time is `time.time()` in seconds, as a `real`. A whole packet is handled at one
 * instant `now`. Regular-expression searches are an oracle `search(pattern, text)`,
 * one answer per pattern.
 */
module Detection {
  import opened Wrappers
  import opened Text
  import opened Seqs

  // ------------------------------------------------------------------ packets

  /** `packet[TCP].flags`: `int(flags)` succeeds and gives the flag bits, or it
      raises and the text form is used instead. */
  datatype Flags = FlagBits(bits: bv16) | FlagText(text: string)

  datatype Tcp = Tcp(dport: int, flags: Flags)

  datatype Addresses = Addresses(src: string, dst: string)

  /** A captured packet: the IP layer's addresses, the TCP or UDP layer, whether an
      HTTP request was dissected, and the Raw layer's load decoded as text. */
  datatype Packet = Packet(
    ip: Option<Addresses>,
    tcp: Option<Tcp>,
    udpPort: Option<int>,
    http: bool,
    raw: Option<string>)

  /** The destination port: TCP's if there is a TCP layer, else UDP's, else none. */
  function DestPort(p: Packet): (r: Option<int>)
    ensures r.Some? <==> p.tcp.Some? || p.udpPort.Some?
    ensures p.tcp.Some? ==> r == Some(p.tcp.value.dport)
    ensures p.tcp.None? ==> r == p.udpPort
  {
    if p.tcp.Some? then Some(p.tcp.value.dport) else p.udpPort
  }

  /** The SYN and ACK control bits of the TCP header (section 3.1 of RFC 9293). */
  const SYN: bv16 := 0x02
  const ACK: bv16 := 0x10

  predicate IsSyn(f: Flags) {
    match f
    case FlagBits(b) => b & SYN != 0
    case FlagText(s) => 'S' in s && 'A' !in s
  }

  predicate IsAck(f: Flags) {
    match f
    case FlagBits(b) => b & ACK != 0
    case FlagText(s) => 'A' in s
  }

  /** The text form never counts a segment as both SYN and ACK, while the numeric
      form counts a SYN-ACK (0x12) as both. */
  lemma FlagForms(s: string)
    ensures !(IsSyn(FlagText(s)) && IsAck(FlagText(s)))
    ensures IsSyn(FlagText(s)) <==> IsSyn(FlagBits(0x02)) && 'S' in s && !IsAck(FlagText(s))
    ensures IsSyn(FlagBits(0x12)) && IsAck(FlagBits(0x12))
  {
  }

  // ------------------------------------------------------------------ patterns

  /** `re.search(pattern, text, re.I)` finds a match. */
  type Search = (string, string) -> bool

  /** The text functions the detectors call but that are not modelled: the pattern
      search, `urllib.parse.unquote`, and the capture group of the `Host:` header
      pattern. */
  datatype Oracles = Oracles(search: Search, unquote: string -> string, hostHeader: string -> Option<string>)

  function MatchesIn(text: string, search: Search): string -> bool {
    pat => search(pat, text)
  }

  /** How many of the patterns match the text. */
  function Hits(patterns: seq<string>, text: string, search: Search): (n: nat)
    ensures n <= |patterns|
  {
    |Filter(patterns, MatchesIn(text, search))|
  }

  /** No timestamp is added exactly when no pattern matches. */
  lemma HitsNone(patterns: seq<string>, text: string, search: Search)
    ensures Hits(patterns, text, search) == 0 <==> forall pat :: pat in patterns ==> !search(pat, text)
  {
    var m := Filter(patterns, MatchesIn(text, search));
    forall pat ensures pat in m <==> pat in patterns && search(pat, text) {
      FilterMembers(patterns, MatchesIn(text, search), pat);
    }
    if |m| > 0 {
      assert m[0] in m;
    }
  }

  lemma HitsStep(patterns: seq<string>, i: nat, text: string, search: Search)
    requires i < |patterns|
    ensures Hits(patterns[..i + 1], text, search)
            == Hits(patterns[..i], text, search) + (if search(patterns[i], text) then 1 else 0)
  {
    assert patterns[..i + 1] == patterns[..i] + [patterns[i]];
    FilterAppend(patterns[..i], [patterns[i]], MatchesIn(text, search));
    FilterSingle(patterns[i], MatchesIn(text, search));
  }

  /** The pattern loop of `detect_web_attacks`: one `now` is appended for every
      pattern that matches. */
  method AppendMatches(ts: seq<real>, patterns: seq<string>, text: string, search: Search, now: real)
    returns (r: seq<real>)
    ensures r == ts + Repeat(now, Hits(patterns, text, search))
  {
    r := ts;
    var i := 0;
    while i < |patterns|
      invariant 0 <= i <= |patterns|
      invariant r == ts + Repeat(now, Hits(patterns[..i], text, search))
    {
      HitsStep(patterns, i, text, search);
      if search(patterns[i], text) {
        r := r + [now];
      }
      i := i + 1;
    }
    assert patterns[..i] == patterns;
  }

  // ------------------------------------------------------------------ windows

  /** `now - t < window`. */
  function Recent(now: real, window: real): real -> bool {
    t => now - t < window
  }

  /** `xs += added; xs = [t for t in xs if now - t < window]`. */
  function Slide(ts: seq<real>, added: seq<real>, now: real, window: real): seq<real> {
    Filter(ts + added, Recent(now, window))
  }

  /** The pruned list keeps every copy of a timestamp, old or new, that lies in the
      window, and nothing else. */
  lemma SlideCount(ts: seq<real>, added: seq<real>, now: real, window: real, t: real)
    ensures multiset(Slide(ts, added, now, window))[t]
            == if now - t < window then multiset(ts)[t] + multiset(added)[t] else 0
  {
    FilterMultiplicity(ts + added, Recent(now, window), t);
  }

  /** With a positive window the newest timestamp is kept and comes last. */
  lemma SlideKeepsNow(ts: seq<real>, now: real, window: real)
    requires window > 0.0
    ensures var w := Slide(ts, [now], now, window);
            |w| > 0 && w[|w| - 1] == now
  {
    assert ts + [now] == (ts + [now])[..|ts|] + [now];
  }

  /** `[now] * n`: one timestamp per matching pattern. */
  function Repeat(t: real, n: nat): (r: seq<real>)
    ensures |r| == n && forall i :: 0 <= i < n ==> r[i] == t
  {
    seq(n, _ => t)
  }

  /** `defaultdict(list)` lookup: a missing key reads as the empty list. */
  function Tracked<K, V>(m: map<K, seq<V>>, k: K): (r: seq<V>)
    ensures k in m ==> r == m[k]
    ensures k !in m ==> r == []
  {
    if k in m then m[k] else []
  }

  /** One counter of a window detector: add the new timestamps, prune, and clear the
      list when the count passes the threshold (`> threshold`, or `>= threshold`
      when `inclusive`). The contract spells the step out so that callers need not
      unfold it; the bound it keeps is the last clause, and `WindowStepBounded`
      extends it to every key. */
  function WindowStep<K(!new)>(m: map<K, seq<real>>, k: K, added: seq<real>, now: real,
                            window: real, threshold: int, inclusive: bool)
    : (r: (map<K, seq<real>>, bool))
    ensures var w := Slide(Tracked(m, k), added, now, window);
            && (r.1 <==> (if inclusive then |w| >= threshold else |w| > threshold))
            && r.0 == m[k := if r.1 then [] else w]
            && (if inclusive then |r.0[k]| < Max(threshold, 1) else |r.0[k]| <= Max(threshold, 0))
  {
    var w := Slide(Tracked(m, k), added, now, window);
    var fired := if inclusive then |w| >= threshold else |w| > threshold;
    (m[k := if fired then [] else w], fired)
  }

  function Max(a: int, b: int): int {
    if a < b then b else a
  }

  /** Every list of the map is shorter than the bound that `WindowStep` keeps. */
  ghost predicate Bounded<K>(m: map<K, seq<real>>, threshold: int, inclusive: bool) {
    forall k :: k in m ==> if inclusive then |m[k]| < Max(threshold, 1) else |m[k]| <= Max(threshold, 0)
  }

  /** `WindowStep` keeps every list within the bound. */
  lemma WindowStepBounded<K(!new)>(m: map<K, seq<real>>, k: K, added: seq<real>, now: real,
                             window: real, threshold: int, inclusive: bool)
    requires Bounded(m, threshold, inclusive)
    ensures Bounded(WindowStep(m, k, added, now, window, threshold, inclusive).0, threshold, inclusive)
  {
  }

  // ------------------------------------------------------------------ port scans

  /** The distinct ports of a list of `(port, time)` accesses. */
  function PortsOf<P>(entries: seq<(P, real)>): set<P> {
    set e | e in entries :: e.0
  }

  /** There are never more distinct ports than accesses. */
  lemma {:induction false} PortsAtMost<P>(entries: seq<(P, real)>)
    ensures |PortsOf(entries)| <= |entries|
    decreases |entries|
  {
    if |entries| > 0 {
      var init := entries[..|entries| - 1];
      var e := entries[|entries| - 1];
      PortsAtMost(init);
      assert entries == init + [e];
      assert PortsOf(entries) == PortsOf(init) + {e.0};
    } else {
      assert PortsOf(entries) == {};
    }
  }

  function RecentAccess<P>(now: real, window: real): ((P, real)) -> bool {
    (e: (P, real)) => now - e.1 < window
  }

  /** `uniq / total` as a real number, 0 for an empty list. */
  function ScanRatio(uniq: nat, total: nat): real {
    if total > 0 then (uniq as real) / (total as real) else 0.0
  }

  /** `uniq > T and total > T and ratio > 0.7`. */
  predicate ScanFires(uniq: nat, total: nat, threshold: int) {
    uniq > threshold && total > threshold && ScanRatio(uniq, total) > 0.7
  }

  /** The ratio test is the integer comparison `10 * uniq > 7 * total`. */
  lemma ScanFiresCross(uniq: nat, total: nat, threshold: int)
    requires uniq <= total
    ensures ScanFires(uniq, total, threshold)
            <==> uniq > threshold && total > threshold && 10 * uniq > 7 * total
  {
    if total > 0 {
      QuotientBelow(0.7, uniq as real, total as real);
    }
  }

  /** `c < a / b` exactly when `c * b < a`, for a positive `b`. */
  lemma QuotientBelow(c: real, a: real, b: real)
    requires b > 0.0
    ensures c < a / b <==> c * b < a
  {
    var q := a / b;
    assert q * b == a;
    if c < q {
      assert c * b < q * b;
    } else {
      assert q * b <= c * b;
    }
  }

  /** `detect_port_scan` of the configurable detectors: every access is appended,
      repeats included, the list is pruned, and it is cleared when the scan test
      passes. The result also gives the distinct ports the alert reports. The
      contract spells the step out for its callers; what the test means is stated
      by `ScanFiresCross` and `OnePortNoScan`. */
  function ScanStep(m: map<string, seq<(int, real)>>, ip: string, port: int, now: real,
                    window: real, threshold: int)
    : (r: (map<string, seq<(int, real)>>, bool))
    ensures var w := Filter(Tracked(m, ip) + [(port, now)], RecentAccess(now, window));
            && (r.1 <==> ScanFires(|PortsOf(w)|, |w|, threshold))
            && r.0 == m[ip := if r.1 then [] else w]
  {
    var w := Filter(Tracked(m, ip) + [(port, now)], RecentAccess(now, window));
    var fired := ScanFires(|PortsOf(w)|, |w|, threshold);
    (m[ip := if fired then [] else w], fired)
  }

  /** A list of accesses of one single port never looks like a scan once the
      threshold is at least 1. */
  lemma OnePortNoScan(entries: seq<(int, real)>, threshold: int)
    requires threshold >= 1 && |PortsOf(entries)| <= 1
    ensures !ScanFires(|PortsOf(entries)|, |entries|, threshold)
  {
  }

  // ------------------------------------------------------------------ SYN floods

  /** `ack / syn`, defined as 1 when no SYN was seen. */
  function SynAckRatio(syn: nat, ack: nat): real {
    if syn > 0 then (ack as real) / (syn as real) else 1.0
  }

  predicate SynFlood(syn: nat, ack: nat, threshold: int, maxRatio: real) {
    syn > threshold && SynAckRatio(syn, ack) < maxRatio
  }

  /** The ratio test is the cross-multiplied comparison `ack < maxRatio * syn`. */
  lemma SynFloodCross(syn: nat, ack: nat, threshold: int, maxRatio: real)
    requires syn > 0
    ensures SynFlood(syn, ack, threshold, maxRatio)
            <==> syn > threshold && (ack as real) < maxRatio * (syn as real)
  {
    QuotientAbove(maxRatio, ack as real, syn as real);
  }

  /** `a / b < c` exactly when `a < c * b`, for a positive `b`. */
  lemma QuotientAbove(c: real, a: real, b: real)
    requires b > 0.0
    ensures a / b < c <==> a < c * b
  {
    var q := a / b;
    assert q * b == a;
    if q < c {
      assert q * b < c * b;
    } else {
      assert c * b <= q * b;
    }
  }

  /** With the shipped settings (more than 200 SYNs, ratio below 0.1) a flood is
      fewer than one ACK for every ten SYNs. */
  lemma SynFloodDefaults(syn: nat, ack: nat)
    ensures SynFlood(syn, ack, 200, 0.1) <==> syn > 200 && 10 * ack < syn
  {
    if syn > 0 {
      SynFloodCross(syn, ack, 200, 0.1);
    }
  }

  /** The SYN/ACK block of `detect_threat`: a SYN or ACK segment adds `now` to its
      list and prunes it; the flood test reads both lists and clears both when it
      passes. The contract spells the step out for its callers; what the test means
      is stated by `SynFloodCross` and `SynFloodDefaults`. */
  function SynStep(syn: map<string, seq<real>>, ack: map<string, seq<real>>, src: string,
                   f: Flags, now: real, window: real, threshold: int, maxRatio: real)
    : (r: (map<string, seq<real>>, map<string, seq<real>>, bool))
    ensures var s := if IsSyn(f) then Slide(Tracked(syn, src), [now], now, window) else Tracked(syn, src);
            var a := if IsAck(f) then Slide(Tracked(ack, src), [now], now, window) else Tracked(ack, src);
            && (r.2 <==> SynFlood(|s|, |a|, threshold, maxRatio))
            && r.0 == syn[src := if r.2 then [] else s]
            && r.1 == ack[src := if r.2 then [] else a]
  {
    var s := if IsSyn(f) then Slide(Tracked(syn, src), [now], now, window) else Tracked(syn, src);
    var a := if IsAck(f) then Slide(Tracked(ack, src), [now], now, window) else Tracked(ack, src);
    var fired := SynFlood(|s|, |a|, threshold, maxRatio);
    (syn[src := if fired then [] else s], ack[src := if fired then [] else a], fired)
  }

  // ------------------------------------------------------------------ alerts

  /** The kinds of threat the detectors report. */
  datatype Attack = Osint | Ddos | PortScan | SqlInjection | Xss | OsintDomain | SynFlood

  /** The `attack_type` an alert is sent under. */
  function AttackType(a: Attack): string {
    match a
    case Osint => "OSINT"
    case Ddos => "DDoS"
    case PortScan => "Port Scan"
    case SqlInjection => "SQL Injection"
    case Xss => "XSS"
    case OsintDomain => "OSINT-Domain"
    case SynFlood => "SYN Flood"
  }

  /** The threat name a row is logged under by the configurable detectors. */
  function ThreatName(a: Attack): string {
    match a
    case Osint => "Malicious IP (OSINT)"
    case Ddos => "Possible DDoS"
    case PortScan => "Port Scanning"
    case SqlInjection => "SQL Injection"
    case Xss => "XSS Attack"
    case OsintDomain => "Malicious Domain (OSINT)"
    case SynFlood => "SYN Flood"
  }

  /** An alert as recorded or mailed: its attack type and source address. */
  datatype Alert = Alert(attack: Attack, src: string)

  /** A logged threat row: the threat, source and destination. */
  datatype Row = Row(threat: Attack, src: string, dst: string)

  /** Whether the SMTP exchange for an alert of this type and source succeeds. */
  type Mailer = (Attack, string) -> bool

  /** `key in last_alert_time and now - last_alert_time[key] < throttle`. */
  predicate Throttled<K>(last: map<K, real>, key: K, now: real, throttle: real) {
    key in last && now - last[key] < throttle
  }

  /** A send time is recorded only when a mail was actually delivered. */
  function AfterMail<K>(last: map<K, real>, key: K, now: real, delivered: bool): (r: map<K, real>)
    ensures delivered ==> r == last[key := now]
    ensures !delivered ==> r == last
  {
    if delivered then last[key := now] else last
  }

  /** A delivered alert throttles the same key for `throttle` seconds. */
  lemma ThrottleWindow<K>(last: map<K, real>, key: K, sent: real, later: real, throttle: real)
    ensures Throttled(AfterMail(last, key, sent, true), key, later, throttle)
            <==> later - sent < throttle
  {
  }

  // ------------------------------------------------------------------ block lists

  /** The answer to one `requests.get`: it raises, or it returns a status and text. */
  datatype Reply = Raised | Reply(status: int, text: string)

  /** The set kept after a download: a 200 reply replaces it with the parsed text,
      any other reply keeps the old set. */
  function Refresh(old_: set<string>, reply: Reply, parse: string -> set<string>): (r: set<string>)
    ensures reply.Reply? && reply.status == 200 ==> r == parse(reply.text)
    ensures !(reply.Reply? && reply.status == 200) ==> r == old_
  {
    if reply.Reply? && reply.status == 200 then parse(reply.text) else old_
  }

  predicate Comment(line: string) {
    StartsWith(line, "#")
  }

  /** `{line.strip() for line in text.splitlines() if line and not line.startswith("#")}`. */
  function FeedAddresses(text: string): set<string> {
    set line | line in SplitLines(text) && line != "" && !Comment(line) :: Strip(line)
  }

  /** The domain feed also drops lines that strip to nothing. */
  function FeedDomains(text: string): set<string> {
    set line | line in SplitLines(text) && line != "" && !Comment(line) && Strip(line) != "" :: Strip(line)
  }

  /** The two parsers differ only in the empty name, which a line of white space
      puts in the address set. */
  lemma FeedsDiffer(text: string)
    ensures FeedDomains(text) == FeedAddresses(text) - {""}
    ensures "" in FeedAddresses(text) <==>
              exists line :: line in SplitLines(text) && line != "" && !Comment(line) && Strip(line) == ""
  {
  }

  /** A parsed address is one line of the feed without its surrounding white space:
      it holds no line break and neither starts nor ends with white space. */
  lemma FeedAddressClean(text: string, x: string)
    requires x in FeedAddresses(text)
    ensures forall j :: 0 <= j < |x| ==> !IsLineBreak(x[j])
    ensures x == [] || (!IsSpace(x[0]) && !IsSpace(x[|x| - 1]))
  {
    var line :| line in SplitLines(text) && line != "" && !Comment(line) && Strip(line) == x;
    LineUnbroken(SplitLines(text), line);
    StrippedUnbroken(line);
  }

  /** Every line produced by the splitter is free of line breaks. */
  lemma LineUnbroken(lines: seq<string>, line: string)
    requires forall k, j :: 0 <= k < |lines| && 0 <= j < |lines[k]| ==> !IsLineBreak(lines[k][j])
    requires line in lines
    ensures forall j :: 0 <= j < |line| ==> !IsLineBreak(line[j])
  {
    var k :| 0 <= k < |lines| && lines[k] == line;
  }

  /** Stripping a line without line breaks leaves a clean piece of it. */
  lemma StrippedUnbroken(line: string)
    requires forall j :: 0 <= j < |line| ==> !IsLineBreak(line[j])
    ensures forall j :: 0 <= j < |Strip(line)| ==> !IsLineBreak(Strip(line)[j])
    ensures Strip(line) == [] || (!IsSpace(Strip(line)[0]) && !IsSpace(Strip(line)[|Strip(line)| - 1]))
  {
    StripSpec(line);
    var i :| OccursAt(line, Strip(line), i);
    UnbrokenWithin(line, Strip(line), i);
  }

  /** A piece of a line without line breaks has none either. */
  lemma UnbrokenWithin(line: string, x: string, i: int)
    requires forall j :: 0 <= j < |line| ==> !IsLineBreak(line[j])
    requires OccursAt(line, x, i)
    ensures forall j :: 0 <= j < |x| ==> !IsLineBreak(x[j])
  {
    forall j | 0 <= j < |x| ensures !IsLineBreak(x[j]) {
      assert x[j] == line[i + j];
    }
  }
}
