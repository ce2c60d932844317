/**
 * The stand-alone sniffer script with fixed thresholds. Its detectors are those of
 * the backend detector (DDoS and port-scan windows of 10 seconds, web-attack
 * windows of 60 seconds, the SYN/ACK ratio, the block lists), so one packet changes
 * its windows and produces its rows exactly as `ThreatEffects` says. What differs
 * is the alerting: there is no history, an alert without mail credentials or
 * recipients does nothing, and rows go to a CSV file. There is no packet counter.
 */
module Network2 {
  import opened Wrappers
  import opened Detection
  import opened Detector
  import Config

  /** `send_alert` throttles a (source, attack type) pair for 300 seconds. */
  const THROTTLE: real := 300.0

  /** The script's module constants, and its mail settings read from
      `ALERT_SENDER_EMAIL`, `ALERT_SENDER_PASSWORD` and `ALERT_RECIPIENT_EMAILS`. */
  function ScriptSettings(sender: Option<string>, password: Option<string>, recipientsEnv: Option<string>)
    : Settings
  {
    Settings(300, 10, 3, 3, 200, 0.1, 10.0, THROTTLE, true, sender, password, Config.Recipients(recipientsEnv))
  }

  /** Mail goes out exactly when sender, password and a recipient are all set. */
  lemma ScriptMailConfigured(sender: Option<string>, password: Option<string>, recipientsEnv: Option<string>)
    ensures EmailConfigured(ScriptSettings(sender, password, recipientsEnv))
            <==> Config.Given(sender) && Config.Given(password) && Config.Recipients(recipientsEnv) != []
  {
  }

  // ------------------------------------------------------------------ alerts

  /** `last_alert_time` and the alerts whose mail was delivered. */
  datatype Mail = Mail(lastAlert: map<(string, Attack), real>, mailed: seq<Alert>)

  /** An alert is mailed when its key is not throttled, mail is configured, and the
      SMTP exchange succeeds. */
  predicate Delivers(m: Mail, src: string, attack: Attack, now: real, s: Settings, delivered: bool) {
    !Throttled(m.lastAlert, (src, attack), now, s.throttle) && EmailConfigured(s) && delivered
  }

  /** `send_alert`: only a delivered mail changes anything, and it records its
      send time. */
  function MailStep(m: Mail, src: string, attack: Attack, now: real, s: Settings, delivered: bool): (r: Mail)
    ensures !Delivers(m, src, attack, now, s, delivered) ==> r == m
    ensures Delivers(m, src, attack, now, s, delivered) ==>
              r.lastAlert == m.lastAlert[(src, attack) := now] && r.mailed == m.mailed + [Alert(attack, src)]
  {
    if Throttled(m.lastAlert, (src, attack), now, s.throttle) then m
    else if !EmailConfigured(s) then m
    else if delivered then Mail(m.lastAlert[(src, attack) := now], m.mailed + [Alert(attack, src)])
    else m
  }

  /** The alerts of one packet, all from its source address, in order. */
  function MailFor(m: Mail, src: string, attacks: seq<Attack>, now: real, s: Settings, mail: Mailer): Mail
    decreases |attacks|
  {
    if |attacks| == 0 then m
    else MailFor(MailStep(m, src, attacks[0], now, s, mail(attacks[0], src)), src, attacks[1..], now, s, mail)
  }

  lemma {:induction false} MailForAppend(m: Mail, src: string, x: seq<Attack>, y: seq<Attack>,
                                         now: real, s: Settings, mail: Mailer)
    ensures MailFor(m, src, x + y, now, s, mail) == MailFor(MailFor(m, src, x, now, s, mail), src, y, now, s, mail)
    decreases |x|
  {
    if |x| > 0 {
      assert (x + y)[0] == x[0] && (x + y)[1..] == x[1..] + y;
      MailForAppend(MailStep(m, src, x[0], now, s, mail(x[0], src)), src, x[1..], y, now, s, mail);
    } else {
      assert x + y == y;
    }
  }

  /** The script mails exactly what the backend detector mails, and keeps the same
      send times; it only lacks the detector's alert history. */
  lemma {:induction false} SameMailAsDetector(a: Alerts, m: Mail, src: string, attacks: seq<Attack>, now: real,
                                              s: Settings, mail: Mailer)
    requires a.lastAlert == m.lastAlert && a.mailed == m.mailed
    ensures var r := AlertsFor(a, src, attacks, now, s, mail);
            var q := MailFor(m, src, attacks, now, s, mail);
            r.lastAlert == q.lastAlert && r.mailed == q.mailed
    decreases |attacks|
  {
    if |attacks| > 0 {
      var b := AlertStep(a, src, attacks[0], now, s, mail(attacks[0], src));
      var n := MailStep(m, src, attacks[0], now, s, mail(attacks[0], src));
      SameMailAsDetector(b, n, src, attacks[1..], now, s, mail);
    }
  }

  /** Without mail credentials or recipients, alerting changes nothing at all. */
  lemma {:induction false} UnconfiguredSilent(m: Mail, src: string, attacks: seq<Attack>, now: real,
                                              s: Settings, mail: Mailer)
    requires !EmailConfigured(s)
    ensures MailFor(m, src, attacks, now, s, mail) == m
    decreases |attacks|
  {
    if |attacks| > 0 {
      UnconfiguredSilent(m, src, attacks[1..], now, s, mail);
    }
  }

  /** After a delivered mail, the same alert is suppressed until 300 seconds have
      passed. */
  lemma MailThrottles(m: Mail, src: string, attack: Attack, now: real, later: real, s: Settings,
                      delivered: bool, again: bool)
    requires s.throttle == THROTTLE && Delivers(m, src, attack, now, s, delivered)
    requires later - now < THROTTLE
    ensures var r := MailStep(m, src, attack, now, s, delivered);
            MailStep(r, src, attack, later, s, again) == r
  {
    ThrottleWindow(m.lastAlert, (src, attack), now, later, s.throttle);
  }

  // ------------------------------------------------------------------ the output

  /** What the script has reported: its alert state and the rows of its CSV file. */
  datatype Output = Output(mail: Mail, rows: seq<Row>)

  /** Alerts on the attacks of one detector call and writes its rows. */
  function Report(out: Output, src: string, e: Effects, now: real, s: Settings, mail: Mailer): Output {
    Output(MailFor(out.mail, src, e.attacks, now, s, mail), out.rows + e.rows)
  }

  lemma ReportThen(out: Output, src: string, a: Effects, b: Effects, now: real, s: Settings, mail: Mailer)
    ensures Report(Report(out, src, a, now, s, mail), src, b, now, s, mail) == Report(out, src, Then(a, b), now, s, mail)
  {
    MailForAppend(out.mail, src, a.attacks, b.attacks, now, s, mail);
  }

  // ------------------------------------------------------------------ the script

  /** The module-level state of the script. */
  class Sniffer {
    const settings: Settings
    var windows: Windows
    var out: Output
    var feeds: Feeds

    ghost predicate Valid()
      reads this
    {
      WindowsBounded(windows, settings)
    }

    constructor (sender: Option<string>, password: Option<string>, recipientsEnv: Option<string>)
      ensures Valid()
      ensures settings == ScriptSettings(sender, password, recipientsEnv)
      ensures windows == NO_WINDOWS && out == Output(Mail(map[], []), []) && feeds == Feeds({}, {})
    {
      settings := ScriptSettings(sender, password, recipientsEnv);
      windows := NO_WINDOWS;
      out := Output(Mail(map[], []), []);
      feeds := Feeds({}, {});
    }

    method SendAlert(src: string, attack: Attack, now: real, mail: Mailer)
      requires Valid()
      modifies this
      ensures Valid()
      ensures out == old(out).(mail := MailStep(old(out).mail, src, attack, now, settings, mail(attack, src)))
      ensures windows == old(windows) && feeds == old(feeds)
    {
      out := out.(mail := MailStep(out.mail, src, attack, now, settings, mail(attack, src)));
    }

    /** `send_alert` and `log_to_csv` for one detector, if it fired. */
    method Emit(src: string, e: Effects, now: real, mail: Mailer)
      requires Valid() && |e.attacks| <= 1
      modifies this
      ensures Valid()
      ensures out == Report(old(out), src, e, now, settings, mail)
      ensures windows == old(windows) && feeds == old(feeds)
    {
      ghost var mail0 := out.mail;
      if |e.attacks| == 1 {
        SendAlert(src, e.attacks[0], now, mail);
        assert MailFor(mail0, src, e.attacks, now, settings, mail)
               == MailFor(out.mail, src, e.attacks[1..], now, settings, mail);
      }
      out := out.(rows := out.rows + e.rows);
    }

    method DetectDdos(ip: string, port: Option<int>, now: real, mail: Mailer)
      requires Valid()
      modifies this
      ensures Valid()
      ensures var r := DdosEffects(old(windows), ip, port, now, settings);
              windows == r.0 && out == Report(old(out), ip, r.1, now, settings, mail)
      ensures feeds == old(feeds)
    {
      if port.None? {
        return;
      }
      DdosKeepsBounds(windows, ip, port, now, settings);
      var r := WindowStep(windows.requests, (ip, port.value), [now], now, settings.window, settings.ddos, false);
      windows := windows.(requests := r.0);
      Emit(ip, Fired(r.1, Ddos, ip, "N/A"), now, mail);
    }

    method DetectPortScan(ip: string, port: Option<int>, now: real, mail: Mailer)
      requires Valid()
      modifies this
      ensures Valid()
      ensures var r := ScanEffects(old(windows), ip, port, now, settings);
              windows == r.0 && out == Report(old(out), ip, r.1, now, settings, mail)
      ensures feeds == old(feeds)
    {
      if port.None? {
        return;
      }
      var r := ScanStep(windows.ports, ip, port.value, now, settings.window, settings.portScan);
      windows := windows.(ports := r.0);
      Emit(ip, Fired(r.1, PortScan, ip, "N/A"), now, mail);
    }

    /** `detect_web_attacks`: nothing happens without both an HTTP request and a Raw
        layer. */
    method DetectWebAttacks(p: Packet, now: real, o: Oracles, mail: Mailer)
      requires Valid() && p.ip.Some?
      modifies this
      ensures Valid()
      ensures !p.http || p.raw.None? ==> windows == old(windows) && out == old(out)
      ensures p.http && p.raw.Some? ==>
                var r := WebEffects(old(windows), p.ip.value.src, o.unquote(p.raw.value), now, settings, o, feeds.domains);
                windows == r.0 && out == Report(old(out), p.ip.value.src, r.1, now, settings, mail)
      ensures feeds == old(feeds)
    {
      if !p.http || p.raw.None? {
        return;
      }
      InspectPayload(p.ip.value.src, o.unquote(p.raw.value), now, o, mail);
    }

    /** The body of `detect_web_attacks` on the unquoted payload. */
    method InspectPayload(ip: string, payload: string, now: real, o: Oracles, mail: Mailer)
      requires Valid()
      modifies this
      ensures Valid()
      ensures var r := WebEffects(old(windows), ip, payload, now, settings, o, feeds.domains);
              windows == r.0 && out == Report(old(out), ip, r.1, now, settings, mail)
      ensures feeds == old(feeds)
    {
      ghost var out0 := out;
      var sqlAdded := AppendMatches([], SQL_PATTERNS, payload, o.search, now);
      var xssAdded := AppendMatches([], XSS_PATTERNS, payload, o.search, now);
      assert sqlAdded == Repeat(now, Hits(SQL_PATTERNS, payload, o.search));
      assert xssAdded == Repeat(now, Hits(XSS_PATTERNS, payload, o.search));
      ghost var pe := PatternEffects(windows, ip, sqlAdded, xssAdded, now, settings);
      CountPatterns(ip, sqlAdded, xssAdded, now, mail);
      var e := DomainEffects(ip, HostOf(o, payload), feeds.domains);
      Emit(ip, e, now, mail);
      ReportThen(out0, ip, pe.1, e, now, settings, mail);
    }

    /** The two pattern counters of `detect_web_attacks`. */
    method CountPatterns(ip: string, sqlAdded: seq<real>, xssAdded: seq<real>, now: real, mail: Mailer)
      requires Valid()
      modifies this
      ensures Valid()
      ensures var r := PatternEffects(old(windows), ip, sqlAdded, xssAdded, now, settings);
              windows == r.0 && out == Report(old(out), ip, r.1, now, settings, mail)
      ensures feeds == old(feeds)
    {
      ghost var out0 := out;
      PatternsKeepBounds(windows, ip, sqlAdded, xssAdded, now, settings);
      var sql := WindowStep(windows.sql, ip, sqlAdded, now, WEB_WINDOW, settings.sql, true);
      var xss := WindowStep(windows.xss, ip, xssAdded, now, WEB_WINDOW, settings.xss, true);
      windows := windows.(sql := sql.0, xss := xss.0);
      var e1 := Fired(sql.1, SqlInjection, ip, "Web Server");
      var e2 := Fired(xss.1, Xss, ip, "Web Server");
      Emit(ip, e1, now, mail);
      Emit(ip, e2, now, mail);
      ReportThen(out0, ip, e1, e2, now, settings, mail);
    }

    /** The SYN/ACK block at the end of `detect_threat`. */
    method TrackSynAck(src: string, dst: string, f: Flags, now: real, mail: Mailer)
      requires Valid()
      modifies this
      ensures Valid()
      ensures var r := SynEffects(old(windows), src, dst, f, now, settings);
              windows == r.0 && out == Report(old(out), src, r.1, now, settings, mail)
      ensures feeds == old(feeds)
    {
      var r := SynStep(windows.syn, windows.ack, src, f, now, settings.window,
                       settings.synFlood, settings.synAckRatio);
      windows := windows.(syn := r.0, ack := r.1);
      Emit(src, Fired(r.2, SynFlood, src, dst), now, mail);
    }

    /** `detect_threat`: a packet without an IP layer changes nothing; the block-list
        check looks at the source address only. */
    method DetectThreat(p: Packet, now: real, o: Oracles, mail: Mailer)
      requires Valid()
      modifies this
      ensures Valid()
      ensures p.ip.None? ==> windows == old(windows) && out == old(out)
      ensures p.ip.Some? ==>
                var r := ThreatEffects(old(windows), old(feeds), p, now, settings, o);
                windows == r.0 && out == Report(old(out), p.ip.value.src, r.1, now, settings, mail)
      ensures feeds == old(feeds)
    {
      if p.ip.None? {
        return;
      }
      var src := p.ip.value.src;
      ghost var out0 := out;
      var e0 := BlockListEffects(feeds, src, p.ip.value.dst);
      Emit(src, e0, now, mail);
      RunDetectors(p, now, o, mail);
      ReportThen(out0, src, e0, DetectorEffects(old(windows), feeds, p, now, settings, o).1, now, settings, mail);
    }

    /** The detectors of `detect_threat` after the block-list check. */
    method RunDetectors(p: Packet, now: real, o: Oracles, mail: Mailer)
      requires Valid() && p.ip.Some?
      modifies this
      ensures Valid()
      ensures var r := DetectorEffects(old(windows), feeds, p, now, settings, o);
              windows == r.0 && out == Report(old(out), p.ip.value.src, r.1, now, settings, mail)
      ensures feeds == old(feeds)
    {
      ghost var out0, w0 := out, windows;
      var src := p.ip.value.src;
      ghost var ports := PortEffects(w0, src, DestPort(p), now, settings);
      TrackPorts(src, DestPort(p), now, mail);
      TrackTcp(p, now, o, mail);
      ReportThen(out0, src, ports.1, TcpEffects(ports.0, feeds, p, now, settings, o).1, now, settings, mail);
    }

    /** The DDoS and port-scan detectors. */
    method TrackPorts(src: string, port: Option<int>, now: real, mail: Mailer)
      requires Valid()
      modifies this
      ensures Valid()
      ensures var r := PortEffects(old(windows), src, port, now, settings);
              windows == r.0 && out == Report(old(out), src, r.1, now, settings, mail)
      ensures feeds == old(feeds)
    {
      ghost var out0, w0 := out, windows;
      ghost var d := DdosEffects(w0, src, port, now, settings);
      DetectDdos(src, port, now, mail);
      DetectPortScan(src, port, now, mail);
      ReportThen(out0, src, d.1, ScanEffects(d.0, src, port, now, settings).1, now, settings, mail);
    }

    /** The web-attack and SYN detectors, which look only at TCP segments. */
    method TrackTcp(p: Packet, now: real, o: Oracles, mail: Mailer)
      requires Valid() && p.ip.Some?
      modifies this
      ensures Valid()
      ensures var r := TcpEffects(old(windows), feeds, p, now, settings, o);
              windows == r.0 && out == Report(old(out), p.ip.value.src, r.1, now, settings, mail)
      ensures feeds == old(feeds)
    {
      var src, dst := p.ip.value.src, p.ip.value.dst;
      ghost var out0, w0 := out, windows;
      ghost var web := if WebPacket(p) then WebEffects(w0, src, o.unquote(p.raw.value), now, settings, o, feeds.domains)
                       else (w0, NOTHING);
      if p.tcp.Some? && p.http {
        DetectWebAttacks(p, now, o, mail);
      }
      ghost var syn := if p.tcp.Some? then SynEffects(web.0, src, dst, p.tcp.value.flags, now, settings)
                       else (web.0, NOTHING);
      if p.tcp.Some? {
        TrackSynAck(src, dst, p.tcp.value.flags, now, mail);
      }
      ReportThen(out0, src, web.1, syn.1, now, settings, mail);
    }

    /** `fetch_osint_data`: the address list, then the domain list. */
    method FetchOsint(ipReply: Reply, domainReply: Reply)
      requires Valid()
      modifies this
      ensures Valid()
      ensures feeds == FeedsAfter(old(feeds), ipReply, domainReply)
      ensures windows == old(windows) && out == old(out)
    {
      if ipReply.Raised? {
        return;
      }
      if ipReply.status == 200 {
        feeds := feeds.(ips := FeedAddresses(ipReply.text));
      }
      if domainReply.Reply? && domainReply.status == 200 {
        feeds := feeds.(domains := FeedDomains(domainReply.text));
      }
    }
  }
}
