/**
 * The configurable packet detector of the backend: per-address windows for DDoS,
 * port scans, SQL injection, XSS and SYN floods, the block-list checks, alert
 * throttling with an alert history, and the batched packet counter.
 *
 * What one packet does to the windows, and which alerts and rows it produces, is
 * given by functions of the state before the packet (`ThreatEffects` and the
 * per-detector functions it is made of); the class `PacketDetector` holds the
 * module-level state of the detector and its methods are proved against them.
 */
module Detector {
  import opened Wrappers
  import opened Text
  import opened Seqs
  import opened Detection
  import Config

  const SQL_PATTERNS: seq<string> := [
    @"(\%27)|(\')|(\-\-)|(\%23)|(#)",
    @"union\s+select",
    @"or\s+1=1",
    @"exec(\s|\+)+(s|x)p\w+"]

  const XSS_PATTERNS: seq<string> := [
    @"<script[^>]*>.*?</script>",
    @"javascript:",
    @"onerror\s*=",
    @"onload\s*=",
    @"alert\s*\("]

  /** Web-attack timestamps are kept for 60 seconds. */
  const WEB_WINDOW: real := 60.0

  /** The packet counter is written to the database every 100 packets. */
  const FLUSH_INTERVAL: nat := 100

  /** The `detection` thresholds, the `alerts` settings and the mail credentials. */
  datatype Settings = Settings(
    ddos: int, portScan: int, sql: int, xss: int, synFlood: int,
    synAckRatio: real, window: real,
    throttle: real, alertsEnabled: bool,
    sender: Option<string>, password: Option<string>, recipients: seq<string>)

  /** Mail goes out only when alerts are enabled and sender, password and at least
      one recipient are set. */
  predicate EmailConfigured(s: Settings) {
    s.alertsEnabled && Config.Given(s.sender) && Config.Given(s.password) && |s.recipients| > 0
  }

  // ------------------------------------------------------------------ state

  /** The per-key lists of the detectors. */
  datatype Windows = Windows(
    requests: map<(string, int), seq<real>>,
    ports: map<string, seq<(int, real)>>,
    sql: map<string, seq<real>>,
    xss: map<string, seq<real>>,
    syn: map<string, seq<real>>,
    ack: map<string, seq<real>>)

  const NO_WINDOWS := Windows(map[], map[], map[], map[], map[], map[])

  /** `last_alert_time` keyed by (source, attack type), the alert history, and the
      alerts whose mail was delivered. */
  datatype Alerts = Alerts(lastAlert: map<(string, Attack), real>, history: seq<Alert>, mailed: seq<Alert>)

  /** `PACKET_COUNT`, `_last_flushed`, and the `packet_count` statistic stored in the
      database. */
  datatype Counter = Counter(packets: nat, lastFlushed: nat, stored: int)

  /** `MALICIOUS_IPS` and `MALICIOUS_DOMAINS`. */
  datatype Feeds = Feeds(ips: set<string>, domains: set<string>)

  // ------------------------------------------------------------------ alerts

  /** `send_alert`: a throttled key changes nothing; otherwise the alert enters the
      history, and the send time is recorded only when a mail was delivered. */
  function AlertStep(a: Alerts, src: string, attack: Attack, now: real, s: Settings, delivered: bool)
    : (r: Alerts)
    ensures Throttled(a.lastAlert, (src, attack), now, s.throttle) ==> r == a
    ensures !Throttled(a.lastAlert, (src, attack), now, s.throttle) ==>
              r.history == a.history + [Alert(attack, src)]
              && r.lastAlert == AfterMail(a.lastAlert, (src, attack), now, EmailConfigured(s) && delivered)
              && r.mailed == a.mailed + (if EmailConfigured(s) && delivered then [Alert(attack, src)] else [])
  {
    if Throttled(a.lastAlert, (src, attack), now, s.throttle) then a
    else
      var mailedNow := EmailConfigured(s) && delivered;
      Alerts(AfterMail(a.lastAlert, (src, attack), now, mailedNow),
             a.history + [Alert(attack, src)],
             a.mailed + (if mailedNow then [Alert(attack, src)] else []))
  }

  /** The alerts of one packet, all from its source address, in order. */
  function AlertsFor(a: Alerts, src: string, attacks: seq<Attack>, now: real, s: Settings, mail: Mailer)
    : Alerts
    decreases |attacks|
  {
    if |attacks| == 0 then a
    else AlertsFor(AlertStep(a, src, attacks[0], now, s, mail(attacks[0], src)), src, attacks[1..], now, s, mail)
  }

  lemma {:induction false} AlertsForAppend(a: Alerts, src: string, x: seq<Attack>, y: seq<Attack>,
                                           now: real, s: Settings, mail: Mailer)
    ensures AlertsFor(a, src, x + y, now, s, mail)
            == AlertsFor(AlertsFor(a, src, x, now, s, mail), src, y, now, s, mail)
    decreases |x|
  {
    if |x| > 0 {
      assert (x + y)[0] == x[0] && (x + y)[1..] == x[1..] + y;
      AlertsForAppend(AlertStep(a, src, x[0], now, s, mail(x[0], src)), src, x[1..], y, now, s, mail);
    } else {
      assert x + y == y;
    }
  }

  /** One alert without mail configured and without send times: it is recorded in
      the history only. */
  lemma UnmailedStep(a: Alerts, src: string, x: Attack, now: real, s: Settings, delivered: bool)
    requires !EmailConfigured(s) && a.lastAlert == map[]
    ensures AlertStep(a, src, x, now, s, delivered) == Alerts(map[], a.history + [Alert(x, src)], a.mailed)
  {
    assert (src, x) !in a.lastAlert;
  }

  /** Without mail configured no send time is ever recorded, so nothing is ever
      throttled: starting from no send times, every alert enters the history. */
  lemma {:induction false} NoMailNoThrottle(a: Alerts, src: string, attacks: seq<Attack>, now: real,
                                            s: Settings, mail: Mailer)
    requires !EmailConfigured(s) && a.lastAlert == map[]
    ensures var r := AlertsFor(a, src, attacks, now, s, mail);
            r.lastAlert == map[] && r.mailed == a.mailed
            && r.history == a.history + Map(attacks, AlertFrom(src))
    decreases |attacks|
  {
    if |attacks| > 0 {
      var b := AlertStep(a, src, attacks[0], now, s, mail(attacks[0], src));
      UnmailedStep(a, src, attacks[0], now, s, mail(attacks[0], src));
      NoMailNoThrottle(b, src, attacks[1..], now, s, mail);
      MapCons(attacks, AlertFrom(src));
      ConcatAssoc(a.history, [Alert(attacks[0], src)], Map(attacks[1..], AlertFrom(src)));
    } else {
      assert Map(attacks, AlertFrom(src)) == [];
    }
  }

  function AlertFrom(src: string): Attack -> Alert {
    attack => Alert(attack, src)
  }

  // ------------------------------------------------------------------ detectors

  /** What one detector call produces besides its windows: the attack types it
      alerts on, in order, and the rows it logs. */
  datatype Effects = Effects(attacks: seq<Attack>, rows: seq<Row>)

  const NOTHING := Effects([], [])

  /** One alert and its row when the detector fired; nothing otherwise. */
  function Fired(fired: bool, attack: Attack, src: string, dst: string): Effects {
    if fired then Effects([attack], [Row(attack, src, dst)]) else NOTHING
  }

  function Then(a: Effects, b: Effects): Effects {
    Effects(a.attacks + b.attacks, a.rows + b.rows)
  }

  /** `detect_ddos`: no port, no change; otherwise the (address, port) window. */
  function DdosEffects(w: Windows, ip: string, port: Option<int>, now: real, s: Settings)
    : (Windows, Effects)
  {
    if port.None? then (w, NOTHING)
    else
      var (m, fired) := WindowStep(w.requests, (ip, port.value), [now], now, s.window, s.ddos, false);
      (w.(requests := m), Fired(fired, Ddos, ip, "N/A"))
  }

  /** `detect_port_scan`: no port, no change; otherwise the address's access list. */
  function ScanEffects(w: Windows, ip: string, port: Option<int>, now: real, s: Settings)
    : (Windows, Effects)
  {
    if port.None? then (w, NOTHING)
    else
      var (m, fired) := ScanStep(w.ports, ip, port.value, now, s.window, s.portScan);
      (w.(ports := m), Fired(fired, PortScan, ip, "N/A"))
  }

  /** The `Host:` header, stripped and lower-cased; "" when there is none. */
  function HostOf(o: Oracles, payload: string): string {
    match o.hostHeader(payload)
    case None => ""
    case Some(h) => Lower(Strip(h))
  }

  /** The two pattern counters of `detect_web_attacks`, given the timestamps the
      pattern loops added: 60-second windows, alerts at the threshold. */
  function PatternEffects(w: Windows, ip: string, sqlAdded: seq<real>, xssAdded: seq<real>, now: real,
                          s: Settings)
    : (Windows, Effects)
  {
    var sql := WindowStep(w.sql, ip, sqlAdded, now, WEB_WINDOW, s.sql, true);
    var xss := WindowStep(w.xss, ip, xssAdded, now, WEB_WINDOW, s.xss, true);
    (w.(sql := sql.0, xss := xss.0),
     Then(Fired(sql.1, SqlInjection, ip, "Web Server"), Fired(xss.1, Xss, ip, "Web Server")))
  }

  /** The domain check at the end of `detect_web_attacks`. */
  function DomainEffects(ip: string, host: string, domains: set<string>): Effects {
    Fired(host != "" && host in domains, OsintDomain, ip, host)
  }

  /** `detect_web_attacks` on the unquoted payload: one timestamp per matching
      pattern, the two counters, then the domain check. */
  function WebEffects(w: Windows, ip: string, payload: string, now: real, s: Settings, o: Oracles,
                      domains: set<string>)
    : (Windows, Effects)
  {
    var pe := PatternEffects(w, ip, Repeat(now, Hits(SQL_PATTERNS, payload, o.search)),
                             Repeat(now, Hits(XSS_PATTERNS, payload, o.search)), now, s);
    (pe.0, Then(pe.1, DomainEffects(ip, HostOf(o, payload), domains)))
  }

  /** The SYN/ACK block of `detect_threat`. */
  function SynEffects(w: Windows, src: string, dst: string, f: Flags, now: real, s: Settings)
    : (Windows, Effects)
  {
    var (syn, ack, fired) := SynStep(w.syn, w.ack, src, f, now, s.window, s.synFlood, s.synAckRatio);
    (w.(syn := syn, ack := ack), Fired(fired, SynFlood, src, dst))
  }

  /** The web detector runs for TCP packets with an HTTP request and a Raw layer. */
  predicate WebPacket(p: Packet) {
    p.tcp.Some? && p.http && p.raw.Some?
  }

  /** The block-list check at the start of `detect_threat`. */
  function BlockListEffects(feeds: Feeds, src: string, dst: string): Effects {
    Fired(src in feeds.ips, Osint, src, dst)
  }

  /** The two detectors that look at the destination port: DDoS, then port scan. */
  function PortEffects(w: Windows, src: string, port: Option<int>, now: real, s: Settings)
    : (Windows, Effects)
  {
    var d := DdosEffects(w, src, port, now, s);
    var sc := ScanEffects(d.0, src, port, now, s);
    (sc.0, Then(d.1, sc.1))
  }

  /** The two detectors of TCP segments: web attacks, then SYN tracking. */
  function TcpEffects(w: Windows, feeds: Feeds, p: Packet, now: real, s: Settings, o: Oracles)
    : (Windows, Effects)
    requires p.ip.Some?
  {
    var src, dst := p.ip.value.src, p.ip.value.dst;
    var web := if WebPacket(p) then WebEffects(w, src, o.unquote(p.raw.value), now, s, o, feeds.domains)
               else (w, NOTHING);
    var syn := if p.tcp.Some? then SynEffects(web.0, src, dst, p.tcp.value.flags, now, s) else (web.0, NOTHING);
    (syn.0, Then(web.1, syn.1))
  }

  /** The detectors of `detect_threat` after the block-list check: DDoS, port scan,
      web attacks and SYN tracking, in that order, each on the lists the previous one
      left. */
  function DetectorEffects(w: Windows, feeds: Feeds, p: Packet, now: real, s: Settings, o: Oracles)
    : (Windows, Effects)
    requires p.ip.Some?
  {
    var ports := PortEffects(w, p.ip.value.src, DestPort(p), now, s);
    var tcp := TcpEffects(ports.0, feeds, p, now, s, o);
    (tcp.0, Then(ports.1, tcp.1))
  }

  /** `detect_threat` on an IP packet. */
  function ThreatEffects(w: Windows, feeds: Feeds, p: Packet, now: real, s: Settings, o: Oracles)
    : (Windows, Effects)
    requires p.ip.Some?
  {
    var r := DetectorEffects(w, feeds, p, now, s, o);
    (r.0, Then(BlockListEffects(feeds, p.ip.value.src, p.ip.value.dst), r.1))
  }

  /** One packet adds at most four SQL and five XSS timestamps, all equal to `now`,
      and a packet matching no pattern adds none. */
  lemma WebTimestamps(payload: string, now: real, o: Oracles)
    ensures var sql := Repeat(now, Hits(SQL_PATTERNS, payload, o.search));
            var xss := Repeat(now, Hits(XSS_PATTERNS, payload, o.search));
            |sql| <= 4 && |xss| <= 5
            && (forall t :: t in sql + xss ==> t == now)
            && ((forall pat :: pat in SQL_PATTERNS ==> !o.search(pat, payload)) ==> sql == [])
            && ((forall pat :: pat in XSS_PATTERNS ==> !o.search(pat, payload)) ==> xss == [])
  {
    HitsNone(SQL_PATTERNS, payload, o.search);
    HitsNone(XSS_PATTERNS, payload, o.search);
  }

  // ------------------------------------------------------------------ alerts and rows

  /** Every alert of a packet comes with one row, in the same order, for the same
      threat and with the packet's source address. */
  ghost predicate Paired(e: Effects, src: string) {
    |e.attacks| == |e.rows|
    && forall i :: 0 <= i < |e.rows| ==> e.rows[i].threat == e.attacks[i] && e.rows[i].src == src
  }

  lemma ThenPaired(a: Effects, b: Effects, src: string)
    requires Paired(a, src) && Paired(b, src)
    ensures Paired(Then(a, b), src)
  {
    var c := Then(a, b);
    forall i | 0 <= i < |c.rows|
      ensures c.rows[i].threat == c.attacks[i] && c.rows[i].src == src
    {
      if i >= |a.rows| {
        assert c.rows[i] == b.rows[i - |a.rows|] && c.attacks[i] == b.attacks[i - |a.rows|];
      } else {
        assert c.rows[i] == a.rows[i] && c.attacks[i] == a.attacks[i];
      }
    }
  }

  lemma WebPaired(w: Windows, ip: string, payload: string, now: real, s: Settings, o: Oracles,
                  domains: set<string>)
    ensures var e := WebEffects(w, ip, payload, now, s, o, domains).1;
            Paired(e, ip) && Osint !in e.attacks
  {
    var pe := PatternEffects(w, ip, Repeat(now, Hits(SQL_PATTERNS, payload, o.search)),
                             Repeat(now, Hits(XSS_PATTERNS, payload, o.search)), now, s);
    PatternPaired(w, ip, Repeat(now, Hits(SQL_PATTERNS, payload, o.search)),
                  Repeat(now, Hits(XSS_PATTERNS, payload, o.search)), now, s);
    ThenPaired(pe.1, DomainEffects(ip, HostOf(o, payload), domains), ip);
  }

  lemma PatternPaired(w: Windows, ip: string, sqlAdded: seq<real>, xssAdded: seq<real>, now: real,
                      s: Settings)
    ensures var e := PatternEffects(w, ip, sqlAdded, xssAdded, now, s).1;
            Paired(e, ip) && Osint !in e.attacks
  {
    var sql := WindowStep(w.sql, ip, sqlAdded, now, WEB_WINDOW, s.sql, true);
    var xss := WindowStep(w.xss, ip, xssAdded, now, WEB_WINDOW, s.xss, true);
    ThenPaired(Fired(sql.1, SqlInjection, ip, "Web Server"), Fired(xss.1, Xss, ip, "Web Server"), ip);
  }

  lemma FiredPaired(fired: bool, a: Attack, src: string, dst: string)
    ensures Paired(Fired(fired, a, src, dst), src)
    ensures a != Osint ==> Osint !in Fired(fired, a, src, dst).attacks
  {
  }

  /** The DDoS and port-scan detectors pair their alerts with rows. */
  lemma StagePaired(w: Windows, src: string, dst: string, port: Option<int>, now: real, s: Settings)
    ensures Paired(DdosEffects(w, src, port, now, s).1, src) && Osint !in DdosEffects(w, src, port, now, s).1.attacks
    ensures Paired(ScanEffects(w, src, port, now, s).1, src) && Osint !in ScanEffects(w, src, port, now, s).1.attacks
  {
    if port.Some? {
      var fired := WindowStep(w.requests, (src, port.value), [now], now, s.window, s.ddos, false).1;
      FiredPaired(fired, Ddos, src, "N/A");
      var scan := ScanStep(w.ports, src, port.value, now, s.window, s.portScan).1;
      FiredPaired(scan, PortScan, src, "N/A");
    }
  }

  lemma FlagsPaired(w: Windows, src: string, dst: string, f: Flags, now: real, s: Settings)
    ensures var e := SynEffects(w, src, dst, f, now, s).1;
            Paired(e, src) && Osint !in e.attacks
  {
  }

  /** Two detectors in a row that pair their alerts and never raise the block-list
      alert keep both properties together. */
  lemma JoinPaired(a: Effects, b: Effects, src: string)
    requires Paired(a, src) && Paired(b, src) && Osint !in a.attacks && Osint !in b.attacks
    ensures var e := Then(a, b);
            Paired(e, src) && Osint !in e.attacks
  {
    ThenPaired(a, b, src);
  }

  lemma PortPaired(w: Windows, src: string, port: Option<int>, now: real, s: Settings)
    ensures var e := PortEffects(w, src, port, now, s).1;
            Paired(e, src) && Osint !in e.attacks
  {
    var d := DdosEffects(w, src, port, now, s);
    StagePaired(w, src, "N/A", port, now, s);
    StagePaired(d.0, src, "N/A", port, now, s);
    JoinPaired(d.1, ScanEffects(d.0, src, port, now, s).1, src);
  }

  lemma TcpPaired(w: Windows, feeds: Feeds, p: Packet, now: real, s: Settings, o: Oracles)
    requires p.ip.Some?
    ensures var e := TcpEffects(w, feeds, p, now, s, o).1;
            Paired(e, p.ip.value.src) && Osint !in e.attacks
  {
    var src, dst := p.ip.value.src, p.ip.value.dst;
    var web := if WebPacket(p) then WebEffects(w, src, o.unquote(p.raw.value), now, s, o, feeds.domains)
               else (w, NOTHING);
    if WebPacket(p) {
      WebPaired(w, src, o.unquote(p.raw.value), now, s, o, feeds.domains);
    }
    var syn := if p.tcp.Some? then SynEffects(web.0, src, dst, p.tcp.value.flags, now, s) else (web.0, NOTHING);
    if p.tcp.Some? {
      FlagsPaired(web.0, src, dst, p.tcp.value.flags, now, s);
    }
    JoinPaired(web.1, syn.1, src);
  }

  /** Every detector after the block-list check pairs its alerts with rows, and none
      of them raises the block-list alert. */
  lemma DetectorPaired(w: Windows, feeds: Feeds, p: Packet, now: real, s: Settings, o: Oracles)
    requires p.ip.Some?
    ensures var e := DetectorEffects(w, feeds, p, now, s, o).1;
            Paired(e, p.ip.value.src) && Osint !in e.attacks
  {
    var ports := PortEffects(w, p.ip.value.src, DestPort(p), now, s);
    PortPaired(w, p.ip.value.src, DestPort(p), now, s);
    TcpPaired(ports.0, feeds, p, now, s, o);
    JoinPaired(ports.1, TcpEffects(ports.0, feeds, p, now, s, o).1, p.ip.value.src);
  }

  /** One row per alert, and the block-list alert comes first and exactly when the
      source address is listed. */
  lemma ThreatPaired(w: Windows, feeds: Feeds, p: Packet, now: real, s: Settings, o: Oracles)
    requires p.ip.Some?
    ensures var e := ThreatEffects(w, feeds, p, now, s, o).1;
            var src := p.ip.value.src;
            Paired(e, src)
            && (Osint in e.attacks <==> src in feeds.ips)
            && (src in feeds.ips ==> e.attacks[0] == Osint && e.rows[0].dst == p.ip.value.dst)
  {
    DetectorPaired(w, feeds, p, now, s, o);
    ThenPaired(BlockListEffects(feeds, p.ip.value.src, p.ip.value.dst), DetectorEffects(w, feeds, p, now, s, o).1,
               p.ip.value.src);
  }

  /** A packet without TCP leaves the web and SYN lists alone; a packet without a
      port leaves the DDoS and port-scan lists alone. */
  lemma ThreatScope(w: Windows, feeds: Feeds, p: Packet, now: real, s: Settings, o: Oracles)
    requires p.ip.Some?
    ensures var w' := ThreatEffects(w, feeds, p, now, s, o).0;
            (p.tcp.None? ==> w'.sql == w.sql && w'.xss == w.xss && w'.syn == w.syn && w'.ack == w.ack)
            && (DestPort(p).None? ==> w'.requests == w.requests && w'.ports == w.ports)
  {
  }

  /** The lists the detector keeps short: a DDoS list never holds more than the
      threshold, a web-attack list always fewer than its threshold. */
  ghost predicate WindowsBounded(w: Windows, s: Settings) {
    Bounded(w.requests, s.ddos, false) && Bounded(w.sql, s.sql, true) && Bounded(w.xss, s.xss, true)
  }

  lemma DdosKeepsBounds(w: Windows, ip: string, port: Option<int>, now: real, s: Settings)
    requires WindowsBounded(w, s)
    ensures WindowsBounded(DdosEffects(w, ip, port, now, s).0, s)
  {
    if port.Some? {
      WindowStepBounded(w.requests, (ip, port.value), [now], now, s.window, s.ddos, false);
    }
  }

  lemma PatternsKeepBounds(w: Windows, ip: string, sqlAdded: seq<real>, xssAdded: seq<real>, now: real,
                           s: Settings)
    requires WindowsBounded(w, s)
    ensures WindowsBounded(PatternEffects(w, ip, sqlAdded, xssAdded, now, s).0, s)
  {
    WindowStepBounded(w.sql, ip, sqlAdded, now, WEB_WINDOW, s.sql, true);
    WindowStepBounded(w.xss, ip, xssAdded, now, WEB_WINDOW, s.xss, true);
  }

  lemma ThreatKeepsBounds(w: Windows, feeds: Feeds, p: Packet, now: real, s: Settings, o: Oracles)
    requires p.ip.Some? && WindowsBounded(w, s)
    ensures WindowsBounded(ThreatEffects(w, feeds, p, now, s, o).0, s)
  {
    var src := p.ip.value.src;
    var port := DestPort(p);
    DdosKeepsBounds(w, src, port, now, s);
    var sc := PortEffects(w, src, port, now, s).0;
    if WebPacket(p) {
      var payload := o.unquote(p.raw.value);
      PatternsKeepBounds(sc, src, Repeat(now, Hits(SQL_PATTERNS, payload, o.search)),
                         Repeat(now, Hits(XSS_PATTERNS, payload, o.search)), now, s);
    }
  }

  // ------------------------------------------------------------------ counter

  /** `_flush_packet_count`: on success the stored total grows by the packets counted
      since the last flush; a failure changes nothing. */
  function FlushStep(c: Counter, ok: bool): (r: Counter)
    ensures r.packets == c.packets
    ensures r.stored - r.lastFlushed == c.stored - c.lastFlushed
    ensures ok ==> r.lastFlushed == c.packets
    ensures !ok ==> r == c
  {
    if ok then c.(stored := c.stored + (c.packets - c.lastFlushed), lastFlushed := c.packets) else c
  }

  /** One IP packet: the count grows by one and a flush is attempted once 100
      packets are pending. */
  function CountStep(c: Counter, flushOk: bool): (r: Counter)
    requires c.lastFlushed <= c.packets
    ensures r.packets == c.packets + 1
    ensures r.lastFlushed <= r.packets
    ensures r.stored - r.lastFlushed == c.stored - c.lastFlushed
    ensures flushOk ==> r.packets - r.lastFlushed < FLUSH_INTERVAL
    ensures c.packets + 1 - c.lastFlushed < FLUSH_INTERVAL ==> r.lastFlushed == c.lastFlushed
  {
    var d := c.(packets := c.packets + 1);
    if d.packets - d.lastFlushed >= FLUSH_INTERVAL then FlushStep(d, flushOk) else d
  }

  // ------------------------------------------------------------------ block lists

  /** The downloaded block lists after `fetch_osint_data`: a raised request stops
      the refresh, and only a 200 reply replaces a set. */
  function FeedsAfter(f: Feeds, ipReply: Reply, domainReply: Reply): (r: Feeds)
    ensures ipReply.Raised? ==> r == f
    ensures r.ips == Refresh(f.ips, ipReply, FeedAddresses)
    ensures r.domains == if ipReply.Raised? then f.domains else Refresh(f.domains, domainReply, FeedDomains)
  {
    if ipReply.Raised? then f
    else Feeds(Refresh(f.ips, ipReply, FeedAddresses), Refresh(f.domains, domainReply, FeedDomains))
  }

  // ------------------------------------------------------------------ the log

  /** What the detector has reported: the alert state and the logged rows. */
  datatype Log = Log(alerts: Alerts, rows: seq<Row>)

  /** Sends the alerts of one detector call, in order, and logs its rows. */
  function Record(log: Log, src: string, e: Effects, now: real, s: Settings, mail: Mailer): Log {
    Log(AlertsFor(log.alerts, src, e.attacks, now, s, mail), log.rows + e.rows)
  }

  /** Recording two detector calls one after the other is recording their joint
      effects. */
  lemma RecordThen(log: Log, src: string, a: Effects, b: Effects, now: real, s: Settings, mail: Mailer)
    ensures Record(Record(log, src, a, now, s, mail), src, b, now, s, mail) == Record(log, src, Then(a, b), now, s, mail)
  {
    AlertsForAppend(log.alerts, src, a.attacks, b.attacks, now, s, mail);
  }

  // ------------------------------------------------------------------ the detector

  class PacketDetector {
    const settings: Settings
    var windows: Windows
    var log: Log
    var counter: Counter
    var feeds: Feeds
    /** The stored packet count when the detector started. */
    ghost const storedAtStart: int

    /** Every flushed packet is accounted for in the database, and the short lists
        stay short. */
    ghost predicate Valid()
      reads this
    {
      counter.lastFlushed <= counter.packets
      && counter.stored == storedAtStart + counter.lastFlushed
      && WindowsBounded(windows, settings)
    }

    constructor (settings: Settings, stored: int)
      ensures Valid()
      ensures this.settings == settings && storedAtStart == stored
      ensures windows == NO_WINDOWS && log == Log(Alerts(map[], [], []), [])
      ensures counter == Counter(0, 0, stored) && feeds == Feeds({}, {})
    {
      this.settings := settings;
      storedAtStart := stored;
      windows := NO_WINDOWS;
      log := Log(Alerts(map[], [], []), []);
      counter := Counter(0, 0, stored);
      feeds := Feeds({}, {});
    }

    method SendAlert(src: string, attack: Attack, now: real, mail: Mailer)
      requires Valid()
      modifies this
      ensures Valid()
      ensures log == old(log).(alerts := AlertStep(old(log).alerts, src, attack, now, settings, mail(attack, src)))
      ensures windows == old(windows) && counter == old(counter) && feeds == old(feeds)
    {
      log := log.(alerts := AlertStep(log.alerts, src, attack, now, settings, mail(attack, src)));
    }

    /** Sends the alert and logs the row of one detector, if it fired. */
    method Emit(src: string, e: Effects, now: real, mail: Mailer)
      requires Valid() && |e.attacks| <= 1
      modifies this
      ensures Valid()
      ensures log == Record(old(log), src, e, now, settings, mail)
      ensures windows == old(windows) && counter == old(counter) && feeds == old(feeds)
    {
      ghost var alerts0 := log.alerts;
      if |e.attacks| == 1 {
        SendAlert(src, e.attacks[0], now, mail);
        assert AlertsFor(alerts0, src, e.attacks, now, settings, mail)
               == AlertsFor(log.alerts, src, e.attacks[1..], now, settings, mail);
      }
      log := log.(rows := log.rows + e.rows);
    }

    method DetectDdos(ip: string, port: Option<int>, now: real, mail: Mailer)
      requires Valid()
      modifies this
      ensures Valid()
      ensures var r := DdosEffects(old(windows), ip, port, now, settings);
              windows == r.0 && log == Record(old(log), ip, r.1, now, settings, mail)
      ensures counter == old(counter) && feeds == old(feeds)
    {
      if port.None? {
        return;
      }
      DdosKeepsBounds(windows, ip, port, now, settings);
      var r := WindowStep(windows.requests, (ip, port.value), [now], now, settings.window, settings.ddos, false);
      windows := windows.(requests := r.0);
      Emit(ip, Fired(r.1, Ddos, ip, "N/A"), now, mail);
    }

    method DetectPortScan(ip: string, port: Option<int>, now: real, mail: Mailer)
      requires Valid()
      modifies this
      ensures Valid()
      ensures var r := ScanEffects(old(windows), ip, port, now, settings);
              windows == r.0 && log == Record(old(log), ip, r.1, now, settings, mail)
      ensures counter == old(counter) && feeds == old(feeds)
    {
      if port.None? {
        return;
      }
      var r := ScanStep(windows.ports, ip, port.value, now, settings.window, settings.portScan);
      windows := windows.(ports := r.0);
      Emit(ip, Fired(r.1, PortScan, ip, "N/A"), now, mail);
    }

    /** `detect_web_attacks`: nothing happens without both an HTTP request and a Raw
        layer. */
    method DetectWebAttacks(p: Packet, now: real, o: Oracles, mail: Mailer)
      requires Valid() && p.ip.Some?
      modifies this
      ensures Valid()
      ensures !p.http || p.raw.None? ==> windows == old(windows) && log == old(log)
      ensures p.http && p.raw.Some? ==>
                var r := WebEffects(old(windows), p.ip.value.src, o.unquote(p.raw.value), now, settings, o, feeds.domains);
                windows == r.0 && log == Record(old(log), p.ip.value.src, r.1, now, settings, mail)
      ensures counter == old(counter) && feeds == old(feeds)
    {
      if !p.http || p.raw.None? {
        return;
      }
      InspectPayload(p.ip.value.src, o.unquote(p.raw.value), now, o, mail);
    }

    /** The body of `detect_web_attacks` on the unquoted payload. */
    method InspectPayload(ip: string, payload: string, now: real, o: Oracles, mail: Mailer)
      requires Valid()
      modifies this
      ensures Valid()
      ensures var r := WebEffects(old(windows), ip, payload, now, settings, o, feeds.domains);
              windows == r.0 && log == Record(old(log), ip, r.1, now, settings, mail)
      ensures counter == old(counter) && feeds == old(feeds)
    {
      ghost var log0 := log;
      var sqlAdded := AppendMatches([], SQL_PATTERNS, payload, o.search, now);
      var xssAdded := AppendMatches([], XSS_PATTERNS, payload, o.search, now);
      assert sqlAdded == Repeat(now, Hits(SQL_PATTERNS, payload, o.search));
      assert xssAdded == Repeat(now, Hits(XSS_PATTERNS, payload, o.search));
      ghost var pe := PatternEffects(windows, ip, sqlAdded, xssAdded, now, settings);
      CountPatterns(ip, sqlAdded, xssAdded, now, mail);
      var e := DomainEffects(ip, HostOf(o, payload), feeds.domains);
      Emit(ip, e, now, mail);
      RecordThen(log0, ip, pe.1, e, now, settings, mail);
    }

    /** The two pattern counters of `detect_web_attacks`. */
    method CountPatterns(ip: string, sqlAdded: seq<real>, xssAdded: seq<real>, now: real, mail: Mailer)
      requires Valid()
      modifies this
      ensures Valid()
      ensures var r := PatternEffects(old(windows), ip, sqlAdded, xssAdded, now, settings);
              windows == r.0 && log == Record(old(log), ip, r.1, now, settings, mail)
      ensures counter == old(counter) && feeds == old(feeds)
    {
      ghost var log0 := log;
      PatternsKeepBounds(windows, ip, sqlAdded, xssAdded, now, settings);
      var sql := WindowStep(windows.sql, ip, sqlAdded, now, WEB_WINDOW, settings.sql, true);
      var xss := WindowStep(windows.xss, ip, xssAdded, now, WEB_WINDOW, settings.xss, true);
      windows := windows.(sql := sql.0, xss := xss.0);
      var e1 := Fired(sql.1, SqlInjection, ip, "Web Server");
      var e2 := Fired(xss.1, Xss, ip, "Web Server");
      Emit(ip, e1, now, mail);
      Emit(ip, e2, now, mail);
      RecordThen(log0, ip, e1, e2, now, settings, mail);
    }

    /** The SYN/ACK block at the end of `detect_threat`. */
    method TrackSynAck(src: string, dst: string, f: Flags, now: real, mail: Mailer)
      requires Valid()
      modifies this
      ensures Valid()
      ensures var r := SynEffects(old(windows), src, dst, f, now, settings);
              windows == r.0 && log == Record(old(log), src, r.1, now, settings, mail)
      ensures counter == old(counter) && feeds == old(feeds)
    {
      var r := SynStep(windows.syn, windows.ack, src, f, now, settings.window,
                       settings.synFlood, settings.synAckRatio);
      windows := windows.(syn := r.0, ack := r.1);
      Emit(src, Fired(r.2, SynFlood, src, dst), now, mail);
    }

    method FlushPacketCount(ok: bool)
      requires Valid()
      modifies this
      ensures Valid()
      ensures counter == FlushStep(old(counter), ok)
      ensures windows == old(windows) && log == old(log) && feeds == old(feeds)
    {
      if ok {
        counter := counter.(stored := counter.stored + (counter.packets - counter.lastFlushed),
                            lastFlushed := counter.packets);
      }
    }

    method CountPacket(flushOk: bool)
      requires Valid()
      modifies this
      ensures Valid()
      ensures counter == CountStep(old(counter), flushOk)
      ensures windows == old(windows) && log == old(log) && feeds == old(feeds)
    {
      counter := counter.(packets := counter.packets + 1);
      if counter.packets - counter.lastFlushed >= FLUSH_INTERVAL {
        FlushPacketCount(flushOk);
      }
    }

    /** `detect_threat`: a packet without an IP layer changes nothing, not even the
        packet count. */
    method DetectThreat(p: Packet, now: real, o: Oracles, mail: Mailer, flushOk: bool)
      requires Valid()
      modifies this
      ensures Valid()
      ensures p.ip.None? ==> windows == old(windows) && log == old(log) && counter == old(counter)
      ensures p.ip.Some? ==>
                var r := ThreatEffects(old(windows), old(feeds), p, now, settings, o);
                windows == r.0 && log == Record(old(log), p.ip.value.src, r.1, now, settings, mail)
                && counter == CountStep(old(counter), flushOk)
      ensures feeds == old(feeds)
    {
      if p.ip.None? {
        return;
      }
      var src := p.ip.value.src;
      ghost var log0 := log;
      var e0 := BlockListEffects(feeds, src, p.ip.value.dst);
      Emit(src, e0, now, mail);
      RunDetectors(p, now, o, mail);
      RecordThen(log0, src, e0, DetectorEffects(old(windows), feeds, p, now, settings, o).1, now, settings, mail);
      CountPacket(flushOk);
    }

    /** The detectors of `detect_threat` after the block-list check. */
    method RunDetectors(p: Packet, now: real, o: Oracles, mail: Mailer)
      requires Valid() && p.ip.Some?
      modifies this
      ensures Valid()
      ensures var r := DetectorEffects(old(windows), feeds, p, now, settings, o);
              windows == r.0 && log == Record(old(log), p.ip.value.src, r.1, now, settings, mail)
      ensures counter == old(counter) && feeds == old(feeds)
    {
      ghost var log0, w0 := log, windows;
      var src := p.ip.value.src;
      ghost var ports := PortEffects(w0, src, DestPort(p), now, settings);
      TrackPorts(src, DestPort(p), now, mail);
      TrackTcp(p, now, o, mail);
      RecordThen(log0, src, ports.1, TcpEffects(ports.0, feeds, p, now, settings, o).1, now, settings, mail);
    }

    /** The DDoS and port-scan detectors. */
    method TrackPorts(src: string, port: Option<int>, now: real, mail: Mailer)
      requires Valid()
      modifies this
      ensures Valid()
      ensures var r := PortEffects(old(windows), src, port, now, settings);
              windows == r.0 && log == Record(old(log), src, r.1, now, settings, mail)
      ensures counter == old(counter) && feeds == old(feeds)
    {
      ghost var log0, w0 := log, windows;
      ghost var d := DdosEffects(w0, src, port, now, settings);
      DetectDdos(src, port, now, mail);
      DetectPortScan(src, port, now, mail);
      RecordThen(log0, src, d.1, ScanEffects(d.0, src, port, now, settings).1, now, settings, mail);
    }

    /** The web-attack and SYN detectors, which look only at TCP segments. */
    method TrackTcp(p: Packet, now: real, o: Oracles, mail: Mailer)
      requires Valid() && p.ip.Some?
      modifies this
      ensures Valid()
      ensures var r := TcpEffects(old(windows), feeds, p, now, settings, o);
              windows == r.0 && log == Record(old(log), p.ip.value.src, r.1, now, settings, mail)
      ensures counter == old(counter) && feeds == old(feeds)
    {
      var src, dst := p.ip.value.src, p.ip.value.dst;
      ghost var log0, w0 := log, windows;
      ghost var web := if WebPacket(p) then WebEffects(w0, src, o.unquote(p.raw.value), now, settings, o, feeds.domains)
                       else (w0, NOTHING);
      if p.tcp.Some? && p.http {
        DetectWebAttacks(p, now, o, mail);
      }
      ghost var syn := if p.tcp.Some? then SynEffects(web.0, src, dst, p.tcp.value.flags, now, settings)
                       else (web.0, NOTHING);
      if p.tcp.Some? {
        TrackSynAck(src, dst, p.tcp.value.flags, now, mail);
      }
      RecordThen(log0, src, web.1, syn.1, now, settings, mail);
    }

    /** `fetch_osint_data`: the address list, then the domain list. */
    method FetchOsint(ipReply: Reply, domainReply: Reply)
      requires Valid()
      modifies this
      ensures Valid()
      ensures feeds == FeedsAfter(old(feeds), ipReply, domainReply)
      ensures windows == old(windows) && log == old(log) && counter == old(counter)
    {
      if ipReply.Raised? {
        return;
      }
      if ipReply.status == 200 {
        feeds := feeds.(ips := FeedAddresses(ipReply.text));
      }
      if domainReply.Reply? && domainReply.status == 200 {
        feeds := feeds.(domains := FeedDomains(domainReply.text));
      }
    }
  }
}
