/**
 * A threat record as the dashboard receives it from `/api/threats` and from the
 * event stream, and the JavaScript conversions the components apply to its fields.
 *
 * A field that is `null`, `undefined` or absent is `None`. The timestamp is kept as
 * the result of `new Date(timestamp).getTime()`: `None` is an Invalid Date (NaN),
 * which fails every comparison.
 */
module Events {
  import opened Wrappers
  import opened Text

  /** The `ports` field: absent, a JSON number, or a string. */
  datatype Ports = NoPorts | PortNumber(n: int) | PortText(s: string)

  /** The `geolocation` object attached to a record by the backend. */
  datatype Geo = Geo(country: string, city: string, countryCode: string, isp: string, org: string)

  datatype ThreatEvent = ThreatEvent(
    time: Option<int>,
    threatType: Option<string>,
    sourceIP: Option<string>,
    destinationIP: Option<string>,
    ports: Ports,
    geolocation: Option<Geo>)

  /** JavaScript truthiness of an optional string field. */
  predicate Truthy(f: Option<string>) {
    f.Some? && f.value != ""
  }

  /** `String(f ?? '')`. */
  function Str(f: Option<string>): (r: string)
    ensures f.Some? ==> r == f.value
    ensures f.None? ==> r == ""
  {
    f.GetOr("")
  }

  predicate PortsTruthy(p: Ports) {
    match p
    case NoPorts => false
    case PortNumber(n) => n != 0
    case PortText(s) => s != ""
  }

  /** `String(ports ?? '')`, which is also `ports.toString()` when `ports` is set. */
  function PortsString(p: Ports): (r: string)
    ensures p.NoPorts? ==> r == ""
    ensures p.PortText? ==> r == p.s
  {
    match p
    case NoPorts => ""
    case PortNumber(n) => IntToString(n)
    case PortText(s) => s
  }

  /** `t.threatType && t.threatType.includes(sub)`. */
  predicate TypeIncludes(e: ThreatEvent, sub: string) {
    Truthy(e.threatType) && Contains(e.threatType.value, sub)
  }

  /** `new Date(t.timestamp) > new Date(bound)`. */
  predicate After(e: ThreatEvent, bound: int) {
    e.time.Some? && e.time.value > bound
  }

  /** `new Date(t.timestamp) >= new Date(bound)`. */
  predicate AtOrAfter(e: ThreatEvent, bound: int) {
    e.time.Some? && e.time.value >= bound
  }

  /** `new Date(t.timestamp) >= lo && new Date(t.timestamp) <= hi`. */
  predicate Within(e: ThreatEvent, lo: int, hi: int) {
    e.time.Some? && lo <= e.time.value <= hi
  }

  /** The filter callbacks, as values that `Seqs.Filter` accepts. */
  function HasType(sub: string): ThreatEvent -> bool {
    e => TypeIncludes(e, sub)
  }

  function IsAfter(bound: int): ThreatEvent -> bool {
    e => After(e, bound)
  }

  function IsAtOrAfter(bound: int): ThreatEvent -> bool {
    e => AtOrAfter(e, bound)
  }

  function HasTypeWithin(sub: string, lo: int, hi: int): ThreatEvent -> bool {
    e => TypeIncludes(e, sub) && Within(e, lo, hi)
  }

  function IsWithin(lo: int, hi: int): ThreatEvent -> bool {
    e => Within(e, lo, hi)
  }

  /** Milliseconds per hour and per day. */
  const HOUR: int := 3600000
  const DAY: int := 86400000

  /**
   * Local wall-clock time is UTC plus a fixed offset `off` in milliseconds
   * (daylight-saving changes are not modelled). `setMinutes(0, 0, 0)` moves to the
   * start of the local hour, `setHours(0, 0, 0, 0)` to the start of the local day.
   */
  function StartOf(t: int, off: int, unit: int): (r: int)
    requires unit > 0
    ensures r <= t < r + unit
  {
    t - (t + off) % unit
  }

  /** The local hour of the day, `getHours()`. */
  function LocalHour(t: int, off: int): (h: nat)
    ensures h < 24
  {
    ((t + off) / HOUR) % 24
  }

  /** Two instants lie in the same local hour (or day) iff they have the same start. */
  lemma SameUnit(x: int, t: int, off: int, unit: int)
    requires unit > 0
    ensures StartOf(x, off, unit) <= t <= StartOf(x, off, unit) + unit - 1
            <==> (t + off) / unit == (x + off) / unit
  {
    var q := (x + off) / unit;
    assert StartOf(x, off, unit) == q * unit - off;
    if StartOf(x, off, unit) <= t <= StartOf(x, off, unit) + unit - 1 {
      DivUnique(t + off, unit, q);
    }
  }

  /** Floor division has one answer. */
  lemma DivUnique(u: int, unit: int, q: int)
    requires unit > 0 && q * unit <= u < q * unit + unit
    ensures u / unit == q
  {
    var d := u / unit;
    if d < q {
      assert d * unit + unit <= q * unit by {
        MulMono(d + 1, q, unit);
      }
    } else if d > q {
      assert (q + 1) * unit <= d * unit by {
        MulMono(q + 1, d, unit);
      }
    }
  }

  lemma MulMono(a: int, b: int, c: int)
    requires a <= b && c > 0
    ensures a * c <= b * c
  {
  }

  /** The instant `i` units before `now`, `now - i * unit`, written as repeated
      subtraction so that it stays linear for the solver. */
  function Back(now: int, i: nat, unit: int): int
    decreases i
  {
    if i == 0 then now else Back(now, i - 1, unit) - unit
  }

  lemma {:induction false} BackIsProduct(now: int, i: nat, unit: int)
    ensures Back(now, i, unit) == now - i * unit
    decreases i
  {
    if i > 0 {
      BackIsProduct(now, i - 1, unit);
      assert (i - 1) * unit == i * unit - unit;
    }
  }

  /** Stepping back `i` whole units moves the unit index back by `i`. */
  lemma StepBack(x: int, i: int, off: int, unit: int)
    requires unit > 0
    ensures (x - i * unit + off) / unit == (x + off) / unit - i
  {
    var q := (x + off) / unit;
    assert q * unit <= x + off < q * unit + unit;
    assert (q - i) * unit == q * unit - i * unit;
    DivUnique(x - i * unit + off, unit, q - i);
  }
}
