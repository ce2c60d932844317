/**
 * The first sniffer script, with fixed thresholds and hard-coded mail credentials.
 * Its detectors differ from the later ones: the DDoS window also counts packets
 * without a port, the port-scan list holds each port once with the time it was
 * first seen, a packet adds at most one SQL and one XSS timestamp, mail is throttled
 * per source address alone, and the block-list row comes after every other row of
 * the packet although its alert comes first.
 */
module Network {
  import opened Wrappers
  import opened Text
  import opened Seqs
  import opened Detection
  import Detector

  const DDOS_THRESHOLD := 100
  const PORT_SCAN_THRESHOLD := 10
  const SQL_THRESHOLD := 3
  const XSS_THRESHOLD := 3

  /** The DDoS and port-scan windows, in seconds. */
  const WINDOW: real := 10.0
  /** The web-attack windows, in seconds. */
  const WEB_WINDOW: real := 60.0
  /** `send_alert` suppresses mail from one source for 400 seconds. */
  const THROTTLE: real := 400.0

  const SQL_PATTERNS: seq<string> := [
    @"(\%27)|(\')|(\-\-)|(\%23)|(#)",
    @"((\%3D)|(=))[^\n]*((\%27)|(\')|(\-\-)|(\%3B)|(;))",
    @"((\%27)|(\'))((\%6F)|o|(\%4F))((\%72)|r|(\%52))",
    @"((\%27)|(\'))union",
    @"exec(\s|\+)+(s|x)p\w+",
    @"UNION(\s+)ALL(\s+)SELECT"
  ]

  const XSS_PATTERNS: seq<string> := [
    @"<script[^>]*>.*?</script>",
    @"javascript:",
    @"onload\s*=",
    @"onerror\s*=",
    @"onclick\s*=",
    @"eval\s*\(",
    @"alert\s*\("
  ]

  // ------------------------------------------------------------------ the windows

  /** `ip_request_count` keyed by (address, port or `None`), `ip_ports_accessed`,
      `sql_injection_attempts` and `xss_attempts`. */
  datatype Windows = Windows(
    requests: map<(string, Option<int>), seq<real>>,
    ports: map<string, seq<(Option<int>, real)>>,
    sql: map<string, seq<real>>,
    xss: map<string, seq<real>>)

  const NO_WINDOWS := Windows(map[], map[], map[], map[])

  /** Every port occurs at most once in a list of accesses. */
  predicate DistinctPorts<P(==)>(e: seq<(P, real)>) {
    forall i, j :: 0 <= i < j < |e| ==> e[i].0 != e[j].0
  }

  /** A list of distinct ports has as many ports as entries. */
  lemma {:induction false} DistinctCount<P>(e: seq<(P, real)>)
    requires DistinctPorts(e)
    ensures |PortsOf(e)| == |e|
    decreases |e|
  {
    if |e| > 0 {
      DistinctInit(e);
      DistinctCount(e[..|e| - 1]);
      PortsSnoc(e);
      LastPortNew(e);
    } else {
      assert PortsOf(e) == {};
    }
  }

  lemma DistinctInit<P>(e: seq<(P, real)>)
    requires |e| > 0 && DistinctPorts(e)
    ensures DistinctPorts(e[..|e| - 1])
  {
  }

  lemma PortsSnoc<P>(e: seq<(P, real)>)
    requires |e| > 0
    ensures PortsOf(e) == PortsOf(e[..|e| - 1]) + {e[|e| - 1].0}
  {
    assert e == e[..|e| - 1] + [e[|e| - 1]];
  }

  /** In a list of distinct ports the last port is not among the earlier ones. */
  lemma LastPortNew<P>(e: seq<(P, real)>)
    requires |e| > 0 && DistinctPorts(e)
    ensures e[|e| - 1].0 !in PortsOf(e[..|e| - 1])
  {
    var init := e[..|e| - 1];
    forall y | y in init ensures y.0 != e[|e| - 1].0 {
      var i :| 0 <= i < |init| && init[i] == y;
      assert e[i] == y;
    }
  }

  /** Pruning a list of distinct ports keeps it distinct. */
  lemma {:induction false} FilterDistinct<P>(e: seq<(P, real)>, keep: ((P, real)) -> bool)
    requires DistinctPorts(e)
    ensures DistinctPorts(Filter(e, keep))
    decreases |e|
  {
    if |e| > 0 {
      var init := e[..|e| - 1];
      var x := e[|e| - 1];
      FilterDistinct(init, keep);
      var f := Filter(init, keep);
      if keep(x) {
        forall i | 0 <= i < |f| ensures f[i].0 != x.0 {
          FilterMembers(init, keep, f[i]);
          var k :| 0 <= k < |init| && init[k] == f[i];
          assert e[k] == f[i];
        }
      }
    }
  }

  /** The list after `detect_port_scan` appends an unseen port and prunes entries
      first seen 10 or more seconds ago. A port already listed keeps its old time. */
  function Pruned(e: seq<(Option<int>, real)>, port: Option<int>, now: real): seq<(Option<int>, real)> {
    Filter(if port in PortsOf(e) then e else e + [(port, now)], RecentAccess(now, WINDOW))
  }

  /** A port is in the pruned list exactly when some listed sighting of it is recent,
      or it was not listed and is seen now. */
  lemma PrunedPorts(e: seq<(Option<int>, real)>, port: Option<int>, now: real, q: Option<int>)
    ensures q in PortsOf(Pruned(e, port, now))
            <==> (exists i :: 0 <= i < |e| && e[i].0 == q && now - e[i].1 < WINDOW)
                 || (q == port && port !in PortsOf(e))
  {
    var noted := if port in PortsOf(e) then e else e + [(port, now)];
    var keep := RecentAccess(now, WINDOW);
    if q in PortsOf(Pruned(e, port, now)) {
      var x :| x in Pruned(e, port, now) && x.0 == q;
      FilterMembers(noted, keep, x);
      if x in e {
        var i :| 0 <= i < |e| && e[i] == x;
      }
    } else {
      forall i | 0 <= i < |e| && e[i].0 == q
        ensures now - e[i].1 >= WINDOW
      {
        assert e[i] in noted;
        FilterMembers(noted, keep, e[i]);
      }
      if q == port && port !in PortsOf(e) {
        assert (port, now) in noted;
        FilterMembers(noted, keep, (port, now));
        assert false;
      }
    }
  }

  /** A port first seen 10 or more seconds ago drops out of the list, even when the
      packet just seen is addressed to it. */
  lemma StaleSightingDropsPort(e: seq<(Option<int>, real)>, port: Option<int>, now: real, first: nat)
    requires DistinctPorts(e)
    requires first < |e| && e[first].0 == port && now - e[first].1 >= WINDOW
    ensures port !in PortsOf(Pruned(e, port, now))
  {
    PrunedPorts(e, port, now, port);
    assert e[first] in e;
  }

  /** The pruned list of a list of distinct ports is again distinct. */
  lemma PrunedDistinct(e: seq<(Option<int>, real)>, port: Option<int>, now: real)
    requires DistinctPorts(e)
    ensures DistinctPorts(Pruned(e, port, now))
    ensures |PortsOf(Pruned(e, port, now))| == |Pruned(e, port, now)|
  {
    var noted := if port in PortsOf(e) then e else e + [(port, now)];
    if port !in PortsOf(e) {
      forall i | 0 <= i < |e| ensures e[i].0 != port {
        assert e[i] in e;
      }
    }
    FilterDistinct(noted, RecentAccess(now, WINDOW));
    DistinctCount(Pruned(e, port, now));
  }

  /** `detect_port_scan` on one address's list: other addresses keep their lists,
      and this one is cleared when it fired and pruned otherwise. */
  function SightingStep(m: map<string, seq<(Option<int>, real)>>, ip: string, port: Option<int>, now: real)
    : (r: (map<string, seq<(Option<int>, real)>>, bool))
    ensures r.0.Keys == m.Keys + {ip} && forall k :: k in m && k != ip ==> r.0[k] == m[k]
    ensures r.1 ==> r.0[ip] == []
    ensures !r.1 ==> r.0[ip] == Pruned(Tracked(m, ip), port, now) && |r.0[ip]| <= PORT_SCAN_THRESHOLD
  {
    var w := Pruned(Tracked(m, ip), port, now);
    var fired := |w| > PORT_SCAN_THRESHOLD;
    (m[ip := if fired then [] else w], fired)
  }

  /** The scan alert fires exactly when more than ten distinct ports remain in the
      window. */
  lemma ScanFiresOnPorts(m: map<string, seq<(Option<int>, real)>>, ip: string, port: Option<int>, now: real)
    requires DistinctPorts(Tracked(m, ip))
    ensures SightingStep(m, ip, port, now).1 <==> |PortsOf(Pruned(Tracked(m, ip), port, now))| > PORT_SCAN_THRESHOLD
  {
    PrunedDistinct(Tracked(m, ip), port, now);
  }

  /** Every list of the map holds distinct ports, at most ten of them. */
  ghost predicate ScanBounded(m: map<string, seq<(Option<int>, real)>>) {
    forall k :: k in m ==> DistinctPorts(m[k]) && |m[k]| <= PORT_SCAN_THRESHOLD
  }

  lemma SightingStepBounded(m: map<string, seq<(Option<int>, real)>>, ip: string, port: Option<int>, now: real)
    requires ScanBounded(m)
    ensures ScanBounded(SightingStep(m, ip, port, now).0)
  {
    PrunedDistinct(Tracked(m, ip), port, now);
  }

  /** `detect_ddos`: a packet without a port is counted under the key `(ip, None)`. */
  function DdosEffects(w: Windows, ip: string, port: Option<int>, now: real): (Windows, Detector.Effects) {
    var (m, fired) := WindowStep(w.requests, (ip, port), [now], now, WINDOW, DDOS_THRESHOLD, false);
    (w.(requests := m), Detector.Fired(fired, Ddos, ip, "N/A"))
  }

  function ScanEffects(w: Windows, ip: string, port: Option<int>, now: real): (Windows, Detector.Effects) {
    var (m, fired) := SightingStep(w.ports, ip, port, now);
    (w.(ports := m), Detector.Fired(fired, PortScan, ip, "N/A"))
  }

  // ------------------------------------------------------------------ web attacks

  /** The pattern loop with its `break`: one timestamp when any pattern matches,
      none otherwise. */
  function Stamp(patterns: seq<string>, text: string, search: Search, now: real): (r: seq<real>)
    ensures r == [] <==> forall pat :: pat in patterns ==> !search(pat, text)
    ensures r != [] ==> r == [now]
  {
    HitsNone(patterns, text, search);
    if Hits(patterns, text, search) > 0 then [now] else []
  }

  /** `for pattern in patterns: if re.search(...): attempts.append(now); break`. */
  method StampFirstMatch(ts: seq<real>, patterns: seq<string>, text: string, search: Search, now: real)
    returns (r: seq<real>)
    ensures r == ts + Stamp(patterns, text, search, now)
  {
    r := ts;
    var i := 0;
    while i < |patterns|
      invariant 0 <= i <= |patterns|
      invariant forall j :: 0 <= j < i ==> !search(patterns[j], text)
      invariant r == ts
    {
      if search(patterns[i], text) {
        assert patterns[i] in patterns;
        r := r + [now];
        return;
      }
      i := i + 1;
    }
    assert forall pat :: pat in patterns ==> !search(pat, text);
  }

  /** The counting part of `detect_web_attacks`, on the payload as decoded. */
  function WebEffects(w: Windows, ip: string, payload: string, now: real, search: Search)
    : (Windows, Detector.Effects)
  {
    var (sql, sqlFired) := WindowStep(w.sql, ip, Stamp(SQL_PATTERNS, payload, search, now), now,
                                      WEB_WINDOW, SQL_THRESHOLD, true);
    var (xss, xssFired) := WindowStep(w.xss, ip, Stamp(XSS_PATTERNS, payload, search, now), now,
                                      WEB_WINDOW, XSS_THRESHOLD, true);
    (w.(sql := sql, xss := xss),
     Detector.Then(Detector.Fired(sqlFired, SqlInjection, ip, "Web Server"),
                   Detector.Fired(xssFired, Xss, ip, "Web Server")))
  }

  /** One packet adds at most one attempt per category, so an alert needs attempts
      from three packets in the window: with fewer than two on record, no packet can
      fire, however many patterns it matches. */
  lemma OnePacketCannotFire(w: Windows, ip: string, payload: string, now: real, search: Search)
    requires |Tracked(w.sql, ip)| < SQL_THRESHOLD - 1 && |Tracked(w.xss, ip)| < XSS_THRESHOLD - 1
    ensures WebEffects(w, ip, payload, now, search).1 == Detector.NOTHING
  {
  }

  // ------------------------------------------------------------------ one packet

  /** The DDoS and port-scan detectors, which count every IP packet. */
  function PortEffects(w: Windows, src: string, port: Option<int>, now: real): (Windows, Detector.Effects) {
    var d := DdosEffects(w, src, port, now);
    var sc := ScanEffects(d.0, src, port, now);
    (sc.0, Detector.Then(d.1, sc.1))
  }

  /** `detect_web_attacks`: the counters change only for an HTTP request with a Raw
      layer. */
  function WebStage(w: Windows, p: Packet, now: real, search: Search): (Windows, Detector.Effects)
    requires p.ip.Some?
  {
    if p.http && p.raw.Some? then WebEffects(w, p.ip.value.src, p.raw.value, now, search) else (w, Detector.NOTHING)
  }

  /** The detectors that run on every IP packet, in order: DDoS, port scan, and the
      web counters. */
  function DetectorEffects(w: Windows, p: Packet, now: real, search: Search): (Windows, Detector.Effects)
    requires p.ip.Some?
  {
    var ports := PortEffects(w, p.ip.value.src, DestPort(p), now);
    var web := WebStage(ports.0, p, now, search);
    (web.0, Detector.Then(ports.1, web.1))
  }

  /** The block-list test looks at both addresses. */
  predicate Blocklisted(ips: set<string>, a: Addresses) {
    a.src in ips || a.dst in ips
  }

  /** `detect_threat` on an IP packet: the block-list alert is sent before the
      detectors run, and its row is written after theirs. */
  function ThreatEffects(w: Windows, ips: set<string>, p: Packet, now: real, search: Search)
    : (Windows, Detector.Effects)
    requires p.ip.Some?
  {
    var r := DetectorEffects(w, p, now, search);
    var a := p.ip.value;
    if Blocklisted(ips, a) then (r.0, Deferred(r.1, a.src, a.dst)) else r
  }

  /** The block-list alert ahead of the other alerts, and its row after theirs. */
  function Deferred(e: Detector.Effects, src: string, dst: string): Detector.Effects {
    Detector.Effects([Osint] + e.attacks, e.rows + [Row(Osint, src, dst)])
  }

  /** Deferring the row shifts every other row one place ahead of its alert. */
  lemma DeferredOrder(e: Detector.Effects, src: string, dst: string)
    requires Detector.Paired(e, src) && Osint !in e.attacks
    ensures var d := Deferred(e, src, dst);
            && |d.attacks| == |d.rows|
            && Osint in d.attacks
            && d.attacks[0] == Osint
            && d.rows[|d.rows| - 1] == Row(Osint, src, dst)
            && forall i :: 0 <= i < |d.rows| - 1 ==> d.rows[i].threat == d.attacks[i + 1] && d.rows[i].src == src
  {
    var d := Deferred(e, src, dst);
    forall i | 0 <= i < |d.rows| - 1
      ensures d.rows[i].threat == d.attacks[i + 1] && d.rows[i].src == src
    {
      assert d.rows[i] == e.rows[i] && d.attacks[i + 1] == e.attacks[i];
    }
  }

  lemma PortPaired(w: Windows, src: string, port: Option<int>, now: real)
    ensures var e := PortEffects(w, src, port, now).1;
            Detector.Paired(e, src) && Osint !in e.attacks
  {
    var d := DdosEffects(w, src, port, now);
    var sc := ScanEffects(d.0, src, port, now);
    Detector.FiredPaired(d.1 != Detector.NOTHING, Ddos, src, "N/A");
    Detector.FiredPaired(sc.1 != Detector.NOTHING, PortScan, src, "N/A");
    Detector.JoinPaired(d.1, sc.1, src);
  }

  lemma WebPaired(w: Windows, p: Packet, now: real, search: Search)
    requires p.ip.Some?
    ensures var e := WebStage(w, p, now, search).1;
            Detector.Paired(e, p.ip.value.src) && Osint !in e.attacks
  {
    if p.http && p.raw.Some? {
      var ip, payload := p.ip.value.src, p.raw.value;
      var sql := WindowStep(w.sql, ip, Stamp(SQL_PATTERNS, payload, search, now), now, WEB_WINDOW, SQL_THRESHOLD, true);
      var xss := WindowStep(w.xss, ip, Stamp(XSS_PATTERNS, payload, search, now), now, WEB_WINDOW, XSS_THRESHOLD, true);
      Detector.FiredPaired(sql.1, SqlInjection, ip, "Web Server");
      Detector.FiredPaired(xss.1, Xss, ip, "Web Server");
      Detector.JoinPaired(Detector.Fired(sql.1, SqlInjection, ip, "Web Server"),
                          Detector.Fired(xss.1, Xss, ip, "Web Server"), ip);
    }
  }

  /** Each detector reports its own alert and row, in the same order. */
  lemma DetectorPaired(w: Windows, p: Packet, now: real, search: Search)
    requires p.ip.Some?
    ensures var e := DetectorEffects(w, p, now, search).1;
            Detector.Paired(e, p.ip.value.src) && Osint !in e.attacks
  {
    var ports := PortEffects(w, p.ip.value.src, DestPort(p), now);
    PortPaired(w, p.ip.value.src, DestPort(p), now);
    WebPaired(ports.0, p, now, search);
    Detector.JoinPaired(ports.1, WebStage(ports.0, p, now, search).1, p.ip.value.src);
  }

  /** The rows and alerts of one packet: the block-list alert, when present, is the
      first alert and its row the last row, with every other row one place ahead of
      its alert; without it, each row follows its alert. */
  lemma ThreatOrder(w: Windows, ips: set<string>, p: Packet, now: real, search: Search)
    requires p.ip.Some?
    ensures var e := ThreatEffects(w, ips, p, now, search).1;
            var a := p.ip.value;
            && |e.attacks| == |e.rows|
            && (Osint in e.attacks <==> Blocklisted(ips, a))
            && (Blocklisted(ips, a) ==>
                  && e.attacks[0] == Osint
                  && e.rows[|e.rows| - 1] == Row(Osint, a.src, a.dst)
                  && forall i :: 0 <= i < |e.rows| - 1 ==> e.rows[i].threat == e.attacks[i + 1] && e.rows[i].src == a.src)
            && (!Blocklisted(ips, a) ==> Detector.Paired(e, a.src))
  {
    DetectorPaired(w, p, now, search);
    var a := p.ip.value;
    if Blocklisted(ips, a) {
      DeferredOrder(DetectorEffects(w, p, now, search).1, a.src, a.dst);
    }
  }

  /** The web counters leave the DDoS and port-scan lists alone. */
  lemma WebStageScope(w: Windows, p: Packet, now: real, search: Search)
    requires p.ip.Some?
    ensures var r := WebStage(w, p, now, search).0;
            && r.requests == w.requests && r.ports == w.ports
            && (!p.http || p.raw.None? ==> r == w)
  {
  }

  /** Every IP packet is counted by the DDoS and port-scan detectors, a packet
      without a port included; the web counters change only for an HTTP request
      with a Raw layer. */
  lemma ThreatScope(w: Windows, ips: set<string>, p: Packet, now: real, search: Search)
    requires p.ip.Some?
    ensures var r := ThreatEffects(w, ips, p, now, search).0;
            && (p.ip.value.src, DestPort(p)) in r.requests
            && p.ip.value.src in r.ports
            && (!p.http || p.raw.None? ==> r.sql == w.sql && r.xss == w.xss)
  {
    var src := p.ip.value.src;
    var d := DdosEffects(w, src, DestPort(p), now);
    assert (src, DestPort(p)) in d.0.requests;
    var ports := PortEffects(w, src, DestPort(p), now);
    assert ports.0.requests == d.0.requests && src in ports.0.ports;
    assert ports.0.sql == w.sql && ports.0.xss == w.xss;
    WebStageScope(ports.0, p, now, search);
    assert ThreatEffects(w, ips, p, now, search).0 == WebStage(ports.0, p, now, search).0;
  }

  /** The bounds every state of the script keeps. */
  ghost predicate WindowsBounded(w: Windows) {
    && Bounded(w.requests, DDOS_THRESHOLD, false)
    && ScanBounded(w.ports)
    && Bounded(w.sql, SQL_THRESHOLD, true)
    && Bounded(w.xss, XSS_THRESHOLD, true)
  }

  lemma PortKeepsBounds(w: Windows, src: string, port: Option<int>, now: real)
    requires WindowsBounded(w)
    ensures WindowsBounded(PortEffects(w, src, port, now).0)
  {
    var d := DdosEffects(w, src, port, now);
    WindowStepBounded(w.requests, (src, port), [now], now, WINDOW, DDOS_THRESHOLD, false);
    SightingStepBounded(d.0.ports, src, port, now);
  }

  lemma WebKeepsBounds(w: Windows, p: Packet, now: real, search: Search)
    requires p.ip.Some? && WindowsBounded(w)
    ensures WindowsBounded(WebStage(w, p, now, search).0)
  {
    if p.http && p.raw.Some? {
      var ip, payload := p.ip.value.src, p.raw.value;
      WindowStepBounded(w.sql, ip, Stamp(SQL_PATTERNS, payload, search, now), now, WEB_WINDOW, SQL_THRESHOLD, true);
      WindowStepBounded(w.xss, ip, Stamp(XSS_PATTERNS, payload, search, now), now, WEB_WINDOW, XSS_THRESHOLD, true);
    }
  }

  lemma ThreatKeepsBounds(w: Windows, ips: set<string>, p: Packet, now: real, search: Search)
    requires p.ip.Some? && WindowsBounded(w)
    ensures WindowsBounded(ThreatEffects(w, ips, p, now, search).0)
  {
    var ports := PortEffects(w, p.ip.value.src, DestPort(p), now);
    PortKeepsBounds(w, p.ip.value.src, DestPort(p), now);
    WebKeepsBounds(ports.0, p, now, search);
    assert ThreatEffects(w, ips, p, now, search).0 == WebStage(ports.0, p, now, search).0;
  }

  // ------------------------------------------------------------------ alerts

  /** `last_alert_time` keyed by source address, and the alerts whose mail was
      delivered. */
  datatype Mail = Mail(lastAlert: map<string, real>, mailed: seq<Alert>)

  /** `send_alert`: a source mailed less than 400 seconds ago gets no mail, whatever
      the attack; otherwise the mail is always attempted and its time recorded only
      when it was delivered. */
  function MailStep(m: Mail, src: string, attack: Attack, now: real, delivered: bool): (r: Mail)
    ensures Throttled(m.lastAlert, src, now, THROTTLE) || !delivered ==> r == m
    ensures !Throttled(m.lastAlert, src, now, THROTTLE) && delivered ==>
              r.lastAlert == m.lastAlert[src := now] && r.mailed == m.mailed + [Alert(attack, src)]
  {
    if Throttled(m.lastAlert, src, now, THROTTLE) then m
    else Mail(AfterMail(m.lastAlert, src, now, delivered), m.mailed + (if delivered then [Alert(attack, src)] else []))
  }

  /** A delivered mail silences every alert of the same source, of any type, for
      400 seconds. */
  lemma SourceThrottled(m: Mail, src: string, attack: Attack, other: Attack, now: real, later: real, again: bool)
    requires !Throttled(m.lastAlert, src, now, THROTTLE)
    requires later - now < THROTTLE
    ensures var r := MailStep(m, src, attack, now, true);
            MailStep(r, src, other, later, again) == r
  {
    ThrottleWindow(m.lastAlert, src, now, later, THROTTLE);
  }

  /** The alerts of one packet, all from its source address, in order. */
  function MailFor(m: Mail, src: string, attacks: seq<Attack>, now: real, mail: Mailer): Mail
    decreases |attacks|
  {
    if |attacks| == 0 then m
    else MailFor(MailStep(m, src, attacks[0], now, mail(attacks[0], src)), src, attacks[1..], now, mail)
  }

  lemma {:induction false} MailForAppend(m: Mail, src: string, x: seq<Attack>, y: seq<Attack>, now: real, mail: Mailer)
    ensures MailFor(m, src, x + y, now, mail) == MailFor(MailFor(m, src, x, now, mail), src, y, now, mail)
    decreases |x|
  {
    if |x| > 0 {
      assert (x + y)[0] == x[0] && (x + y)[1..] == x[1..] + y;
      MailForAppend(MailStep(m, src, x[0], now, mail(x[0], src)), src, x[1..], y, now, mail);
    } else {
      assert x + y == y;
    }
  }

  /** A throttled source stays silent. */
  lemma {:induction false} ThrottledSilent(m: Mail, src: string, attacks: seq<Attack>, now: real, mail: Mailer)
    requires Throttled(m.lastAlert, src, now, THROTTLE)
    ensures MailFor(m, src, attacks, now, mail) == m
    decreases |attacks|
  {
    if |attacks| > 0 {
      ThrottledSilent(m, src, attacks[1..], now, mail);
    }
  }

  /** However many detectors fire on one packet, at most one mail goes out for it. */
  lemma {:induction false} OneMailPerPacket(m: Mail, src: string, attacks: seq<Attack>, now: real, mail: Mailer)
    ensures var r := MailFor(m, src, attacks, now, mail);
            |m.mailed| <= |r.mailed| <= |m.mailed| + 1 && r.mailed[..|m.mailed|] == m.mailed
    decreases |attacks|
  {
    if |attacks| > 0 {
      var n := MailStep(m, src, attacks[0], now, mail(attacks[0], src));
      if n == m {
        OneMailPerPacket(n, src, attacks[1..], now, mail);
      } else {
        assert Throttled(n.lastAlert, src, now, THROTTLE);
        ThrottledSilent(n, src, attacks[1..], now, mail);
      }
    }
  }

  // ------------------------------------------------------------------ the output

  /** What the script has reported: its alert state and the rows of its CSV file. */
  datatype Output = Output(mail: Mail, rows: seq<Row>)

  function Report(out: Output, src: string, e: Detector.Effects, now: real, mail: Mailer): Output {
    Output(MailFor(out.mail, src, e.attacks, now, mail), out.rows + e.rows)
  }

  lemma ReportThen(out: Output, src: string, a: Detector.Effects, b: Detector.Effects, now: real, mail: Mailer)
    ensures Report(Report(out, src, a, now, mail), src, b, now, mail) == Report(out, src, Detector.Then(a, b), now, mail)
  {
    MailForAppend(out.mail, src, a.attacks, b.attacks, now, mail);
  }

  /** Reporting deferred effects is mailing the block-list alert first, then
      reporting the rest, then writing the block-list row. */
  lemma ReportDeferred(out: Output, src: string, dst: string, e: Detector.Effects, now: real, mail: Mailer)
    ensures var first := out.(mail := MailStep(out.mail, src, Osint, now, mail(Osint, src)));
            var r := Report(first, src, e, now, mail);
            Report(out, src, Deferred(e, src, dst), now, mail) == r.(rows := r.rows + [Row(Osint, src, dst)])
  {
    MailForAppend(out.mail, src, [Osint], e.attacks, now, mail);
  }

  // ------------------------------------------------------------------ block lists

  /** `set(text.split("\n")[9:])`: every line from the tenth on, as it is. */
  function BlocklistAddresses(text: string): set<string> {
    var lines := SplitOn(text, '\n');
    set k | 9 <= k < |lines| :: lines[k]
  }

  /** `{line.strip() for line in text.split("\n") if not line.startswith("#")}`. */
  function BlocklistDomains(text: string): set<string> {
    set line | line in SplitOn(text, '\n') && !Comment(line) :: Strip(line)
  }

  /** The first nine lines of the address list are never read, and every later line
      is taken whole: comments, carriage returns and white space included. */
  lemma AddressesSkipHeader(lines: seq<string>)
    requires |lines| >= 9
    requires forall k :: 0 <= k < |lines| ==> '\n' !in lines[k]
    ensures BlocklistAddresses(JoinOn(lines, '\n')) == set k | 9 <= k < |lines| :: lines[k]
  {
    JoinSplit(lines, '\n');
  }

  /** A domain list that ends with a line break lists the empty name. */
  lemma TrailingBreakListsEmpty(text: string)
    ensures "" in BlocklistDomains(text + "\n")
  {
    SplitOnTrailing(text, '\n');
    var lines := SplitOn(text + "\n", '\n');
    assert lines[|lines| - 1] == "";
    assert !Comment("");
    assert Strip("") == "";
  }

  /** `fetch_osint_data`: a failed first request changes nothing and skips the
      second; a non-200 address reply keeps the old addresses but the domains are
      still fetched. */
  function FeedsAfter(f: Detector.Feeds, ipReply: Reply, domainReply: Reply): (r: Detector.Feeds)
    ensures ipReply.Raised? ==> r == f
    ensures r.ips == Refresh(f.ips, ipReply, BlocklistAddresses)
    ensures r.domains == if ipReply.Raised? then f.domains else Refresh(f.domains, domainReply, BlocklistDomains)
  {
    if ipReply.Raised? then f
    else Detector.Feeds(Refresh(f.ips, ipReply, BlocklistAddresses), Refresh(f.domains, domainReply, BlocklistDomains))
  }

  // ------------------------------------------------------------------ the script

  /** The module-level state of the script. */
  class Sniffer {
    var windows: Windows
    var out: Output
    var feeds: Detector.Feeds

    ghost predicate Valid()
      reads this
    {
      WindowsBounded(windows)
    }

    constructor ()
      ensures Valid()
      ensures windows == NO_WINDOWS && out == Output(Mail(map[], []), []) && feeds == Detector.Feeds({}, {})
    {
      windows := NO_WINDOWS;
      out := Output(Mail(map[], []), []);
      feeds := Detector.Feeds({}, {});
    }

    method SendAlert(src: string, attack: Attack, now: real, mail: Mailer)
      requires Valid()
      modifies this
      ensures Valid()
      ensures out == old(out).(mail := MailStep(old(out).mail, src, attack, now, mail(attack, src)))
      ensures windows == old(windows) && feeds == old(feeds)
    {
      out := out.(mail := MailStep(out.mail, src, attack, now, mail(attack, src)));
    }

    /** `send_alert` and `log_to_csv` for one detector, if it fired. */
    method Emit(src: string, e: Detector.Effects, now: real, mail: Mailer)
      requires Valid() && |e.attacks| <= 1
      modifies this
      ensures Valid()
      ensures out == Report(old(out), src, e, now, mail)
      ensures windows == old(windows) && feeds == old(feeds)
    {
      ghost var mail0 := out.mail;
      if |e.attacks| == 1 {
        SendAlert(src, e.attacks[0], now, mail);
        assert MailFor(mail0, src, e.attacks, now, mail) == MailFor(out.mail, src, e.attacks[1..], now, mail);
      }
      out := out.(rows := out.rows + e.rows);
    }

    method DetectDdos(ip: string, port: Option<int>, now: real, mail: Mailer)
      requires Valid()
      modifies this
      ensures Valid()
      ensures var r := DdosEffects(old(windows), ip, port, now);
              windows == r.0 && out == Report(old(out), ip, r.1, now, mail)
      ensures feeds == old(feeds)
    {
      WindowStepBounded(windows.requests, (ip, port), [now], now, WINDOW, DDOS_THRESHOLD, false);
      var r := WindowStep(windows.requests, (ip, port), [now], now, WINDOW, DDOS_THRESHOLD, false);
      windows := windows.(requests := r.0);
      Emit(ip, Detector.Fired(r.1, Ddos, ip, "N/A"), now, mail);
    }

    method DetectPortScan(ip: string, port: Option<int>, now: real, mail: Mailer)
      requires Valid()
      modifies this
      ensures Valid()
      ensures var r := ScanEffects(old(windows), ip, port, now);
              windows == r.0 && out == Report(old(out), ip, r.1, now, mail)
      ensures feeds == old(feeds)
    {
      SightingStepBounded(windows.ports, ip, port, now);
      var r := SightingStep(windows.ports, ip, port, now);
      windows := windows.(ports := r.0);
      var fired := r.1;
      Emit(ip, Detector.Fired(fired, PortScan, ip, "N/A"), now, mail);
    }

    /** `detect_web_attacks`: nothing happens without an HTTP request and a Raw
        layer. */
    method DetectWebAttacks(p: Packet, now: real, search: Search, mail: Mailer)
      requires Valid() && p.ip.Some?
      modifies this
      ensures Valid()
      ensures var r := WebStage(old(windows), p, now, search);
              windows == r.0 && out == Report(old(out), p.ip.value.src, r.1, now, mail)
      ensures feeds == old(feeds)
    {
      if !p.http || p.raw.None? {
        return;
      }
      var ip, payload := p.ip.value.src, p.raw.value;
      var sqlAdded := StampFirstMatch([], SQL_PATTERNS, payload, search, now);
      var xssAdded := StampFirstMatch([], XSS_PATTERNS, payload, search, now);
      CountAttempts(p, sqlAdded, xssAdded, now, search, mail);
    }

    /** The pruning and the two threshold tests of `detect_web_attacks`. */
    method CountAttempts(p: Packet, sqlAdded: seq<real>, xssAdded: seq<real>, now: real, search: Search, mail: Mailer)
      requires Valid() && p.ip.Some? && p.http && p.raw.Some?
      requires sqlAdded == Stamp(SQL_PATTERNS, p.raw.value, search, now)
      requires xssAdded == Stamp(XSS_PATTERNS, p.raw.value, search, now)
      modifies this
      ensures Valid()
      ensures var r := WebStage(old(windows), p, now, search);
              windows == r.0 && out == Report(old(out), p.ip.value.src, r.1, now, mail)
      ensures feeds == old(feeds)
    {
      var ip := p.ip.value.src;
      ghost var out0 := out;
      WebKeepsBounds(windows, p, now, search);
      var sql := WindowStep(windows.sql, ip, sqlAdded, now, WEB_WINDOW, SQL_THRESHOLD, true);
      var xss := WindowStep(windows.xss, ip, xssAdded, now, WEB_WINDOW, XSS_THRESHOLD, true);
      windows := windows.(sql := sql.0, xss := xss.0);
      var e1 := Detector.Fired(sql.1, SqlInjection, ip, "Web Server");
      var e2 := Detector.Fired(xss.1, Xss, ip, "Web Server");
      Emit(ip, e1, now, mail);
      Emit(ip, e2, now, mail);
      ReportThen(out0, ip, e1, e2, now, mail);
    }

    /** `detect_threat`: a packet without an IP layer changes nothing. The block-list
        alert is sent first and its row written last. */
    method DetectThreat(p: Packet, now: real, search: Search, mail: Mailer)
      requires Valid()
      modifies this
      ensures Valid()
      ensures p.ip.None? ==> windows == old(windows) && out == old(out)
      ensures p.ip.Some? ==>
                var r := ThreatEffects(old(windows), old(feeds).ips, p, now, search);
                windows == r.0 && out == Report(old(out), p.ip.value.src, r.1, now, mail)
      ensures feeds == old(feeds)
    {
      if p.ip.None? {
        return;
      }
      var src, dst := p.ip.value.src, p.ip.value.dst;
      var listed := src in feeds.ips || dst in feeds.ips;
      ghost var out0 := out;
      ghost var e := DetectorEffects(windows, p, now, search).1;
      if listed {
        SendAlert(src, Osint, now, mail);
      }
      RunDetectors(p, now, search, mail);
      if listed {
        out := out.(rows := out.rows + [Row(Osint, src, dst)]);
        ReportDeferred(out0, src, dst, e, now, mail);
      }
    }

    /** The DDoS, port-scan and web detectors, in that order. */
    method RunDetectors(p: Packet, now: real, search: Search, mail: Mailer)
      requires Valid() && p.ip.Some?
      modifies this
      ensures Valid()
      ensures var r := DetectorEffects(old(windows), p, now, search);
              windows == r.0 && out == Report(old(out), p.ip.value.src, r.1, now, mail)
      ensures feeds == old(feeds)
    {
      ghost var out0, w0 := out, windows;
      var src := p.ip.value.src;
      ghost var ports := PortEffects(w0, src, DestPort(p), now);
      TrackPorts(src, DestPort(p), now, mail);
      DetectWebAttacks(p, now, search, mail);
      ReportThen(out0, src, ports.1, WebStage(ports.0, p, now, search).1, now, mail);
    }

    /** `detect_ddos` and then `detect_port_scan`. */
    method TrackPorts(src: string, port: Option<int>, now: real, mail: Mailer)
      requires Valid()
      modifies this
      ensures Valid()
      ensures var r := PortEffects(old(windows), src, port, now);
              windows == r.0 && out == Report(old(out), src, r.1, now, mail)
      ensures feeds == old(feeds)
    {
      ghost var out0, w0 := out, windows;
      ghost var d := DdosEffects(w0, src, port, now);
      DetectDdos(src, port, now, mail);
      DetectPortScan(src, port, now, mail);
      ReportThen(out0, src, d.1, ScanEffects(d.0, src, port, now).1, now, mail);
    }

    /** `fetch_osint_data`: the address list, then the domain list. */
    method FetchOsint(ipReply: Reply, domainReply: Reply)
      requires Valid()
      modifies this
      ensures Valid()
      ensures feeds == FeedsAfter(old(feeds), ipReply, domainReply)
      ensures windows == old(windows) && out == old(out)
    {
      if ipReply.Raised? {
        return;
      }
      if ipReply.status == 200 {
        feeds := feeds.(ips := BlocklistAddresses(ipReply.text));
      }
      if domainReply.Reply? && domainReply.status == 200 {
        feeds := feeds.(domains := BlocklistDomains(domainReply.text));
      }
    }
  }
}
