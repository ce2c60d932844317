/**
 * The dashboard's threat table (ThreatAnalytics.js): search and type filtering, the
 * reverse-then-stable-sort pipeline, pagination and the table's small helpers.
 */
module QueryView {
  import opened Wrappers
  import opened Text
  import opened Seqs
  import opened Ordering
  import opened Events

  // ------------------------------------------------------------------------ filter

  /** The search box: the lower-cased term must occur in the lower-cased source IP,
      destination IP or type, or in the ports text, which is not lower-cased. */
  predicate SearchMatch(e: ThreatEvent, term: string) {
    var t := Lower(term);
    (Truthy(e.sourceIP) && Contains(Lower(e.sourceIP.value), t))
    || (Truthy(e.destinationIP) && Contains(Lower(e.destinationIP.value), t))
    || (Truthy(e.threatType) && Contains(Lower(e.threatType.value), t))
    || (PortsTruthy(e.ports) && Contains(PortsString(e.ports), t))
  }

  /** The type selector: "all", or a text the type must contain (case-sensitive). */
  predicate TypeMatch(e: ThreatEvent, typeFilter: string) {
    typeFilter == "all" || TypeIncludes(e, typeFilter)
  }

  function Keep(term: string, typeFilter: string): ThreatEvent -> bool {
    e => SearchMatch(e, term) && TypeMatch(e, typeFilter)
  }

  /** `filteredThreats`. */
  function FilteredThreats(es: seq<ThreatEvent>, term: string, typeFilter: string): (r: seq<ThreatEvent>)
    ensures forall i :: 0 <= i < |r| ==> SearchMatch(r[i], term) && TypeMatch(r[i], typeFilter)
    ensures |r| <= |es|
  {
    Filter(es, Keep(term, typeFilter))
  }

  /** A record is listed iff it is in the store and passes both the search and the
      type selector; the listed records keep their store order. */
  lemma FilteredThreatsSpec(es: seq<ThreatEvent>, more: seq<ThreatEvent>, term: string, typeFilter: string, e: ThreatEvent)
    ensures e in FilteredThreats(es, term, typeFilter) <==> e in es && SearchMatch(e, term) && TypeMatch(e, typeFilter)
    ensures FilteredThreats(es + more, term, typeFilter)
            == FilteredThreats(es, term, typeFilter) + FilteredThreats(more, term, typeFilter)
  {
    FilterMembers(es, Keep(term, typeFilter), e);
    FilterAppend(es, more, Keep(term, typeFilter));
  }

  /** Every text contains the empty text. */
  lemma ContainsEmpty(s: string)
    ensures Contains(s, "")
  {
  }

  /** With an empty search and "all" types, a record is shown iff one of its four
      searched fields is set (truthy): a record with all four falsy is never shown. */
  lemma {:induction false} EmptySearch(e: ThreatEvent)
    ensures SearchMatch(e, "") && TypeMatch(e, "all")
            <==> Truthy(e.sourceIP) || Truthy(e.destinationIP) || Truthy(e.threatType) || PortsTruthy(e.ports)
  {
    assert Lower("") == "";
    ContainsEmpty(Lower(Str(e.sourceIP)));
    ContainsEmpty(Lower(Str(e.destinationIP)));
    ContainsEmpty(Lower(Str(e.threatType)));
    ContainsEmpty(PortsString(e.ports));
  }

  /** The search is case-insensitive on the text fields but not on the ports text:
      searching "A" finds type "a" but not ports "A". */
  lemma PortsSearchCaseSensitive()
    ensures SearchMatch(ThreatEvent(None, Some("a"), None, None, NoPorts, None), "A")
    ensures !SearchMatch(ThreatEvent(None, None, None, None, PortText("A"), None), "A")
  {
    assert Lower("A") == "a";
    assert Lower("a") == "a";
    assert StartsWith("a", "a");
    assert "A"[..1][0] != "a"[0];
    assert !Contains("A"[1..], "a");
  }

  // -------------------------------------------------------------------------- sort

  datatype SortKey = Timestamp | ThreatTypeKey | SourceIPKey | DestinationIPKey | PortsKey
  datatype Direction = Asc | Desc
  datatype SortConfig = SortConfig(key: SortKey, direction: Direction)

  /** The table starts sorted by time, newest first. */
  const DefaultSort := SortConfig(Timestamp, Desc)

  /** `new Date(timestamp).getTime() || 0`: an invalid date sorts as time 0. */
  function TimeOrZero(e: ThreatEvent): int {
    e.time.GetOr(0)
  }

  /** The comparator of each column as a sort key. `collate` is the key of
      `localeCompare`; the other text columns compare lower-cased with `<`. */
  function SortKeyOf(key: SortKey, collate: string -> seq<int>): ThreatEvent -> seq<int> {
    match key
    case Timestamp => (e: ThreatEvent) => [TimeOrZero(e)]
    case PortsKey => (e: ThreatEvent) => collate(PortsString(e.ports))
    case ThreatTypeKey => (e: ThreatEvent) => CodeUnits(Lower(Str(e.threatType)))
    case SourceIPKey => (e: ThreatEvent) => CodeUnits(Lower(Str(e.sourceIP)))
    case DestinationIPKey => (e: ThreatEvent) => CodeUnits(Lower(Str(e.destinationIP)))
  }

  /** `sortedThreats`: the filtered list reversed (newest first), then stably sorted. */
  function SortedThreats(filtered: seq<ThreatEvent>, config: SortConfig, collate: string -> seq<int>): seq<ThreatEvent> {
    StableSort(Reverse(filtered), SortKeyOf(config.key, collate), config.direction == Desc)
  }

  lemma {:induction false} KeyClassCons<T>(x: T, s: seq<T>, key: T -> seq<int>, k: seq<int>)
    ensures KeyClass([x] + s, key, k) == (if key(x) == k then [x] else []) + KeyClass(s, key, k)
    decreases |s|
  {
    if |s| == 0 {
      assert ([x] + s)[..0] == [];
      assert [x] + s == [x];
    } else {
      KeyClassCons(x, s[..|s| - 1], key, k);
      assert ([x] + s)[..|[x] + s| - 1] == [x] + s[..|s| - 1];
    }
  }

  lemma {:induction false} KeyClassReverse<T>(s: seq<T>, key: T -> seq<int>, k: seq<int>)
    ensures KeyClass(Reverse(s), key, k) == Reverse(KeyClass(s, key, k))
    decreases |s|
  {
    if |s| > 0 {
      var init := s[..|s| - 1];
      var last := s[|s| - 1];
      KeyClassReverse(init, key, k);
      KeyClassCons(last, Reverse(init), key, k);
      var c := KeyClass(init, key, k);
      if key(last) == k {
        assert Reverse(c + [last]) == [last] + Reverse(c) by {
          assert (c + [last])[..|c|] == c;
        }
      }
    }
  }

  /** The displayed order: a permutation of the filtered records, sorted by the chosen
      column and direction, in which records with equal keys appear newest first
      (the reverse of their order in the store). */
  lemma {:induction false} SortedThreatsSpec(filtered: seq<ThreatEvent>, config: SortConfig, collate: string -> seq<int>)
    ensures var r := SortedThreats(filtered, config, collate);
            multiset(r) == multiset(filtered)
            && Sorted(r, SortKeyOf(config.key, collate), config.direction == Desc)
            && forall k :: KeyClass(r, SortKeyOf(config.key, collate), k)
                           == Reverse(KeyClass(filtered, SortKeyOf(config.key, collate), k))
  {
    var key := SortKeyOf(config.key, collate);
    StableSortSpec(Reverse(filtered), key, config.direction == Desc);
    ReverseMultiset(filtered);
    forall k ensures KeyClass(SortedThreats(filtered, config, collate), key, k) == Reverse(KeyClass(filtered, key, k)) {
      KeyClassReverse(filtered, key, k);
    }
  }

  /** `handleSort`: the same column flips the direction, a new column starts ascending. */
  function NextSort(prev: SortConfig, key: SortKey): (r: SortConfig)
    ensures r.key == key
    ensures prev.key == key ==> r.direction != prev.direction
    ensures prev.key != key ==> r.direction == Asc
  {
    if prev.key == key then SortConfig(key, if prev.direction == Asc then Desc else Asc)
    else SortConfig(key, Asc)
  }

  /** Clicking the same column twice restores the order. */
  lemma NextSortTwice(prev: SortConfig)
    ensures NextSort(NextSort(prev, prev.key), prev.key) == prev
  {
  }

  // -------------------------------------------------------------------- pagination

  lemma CeilDiv(n: nat, ps: nat)
    requires ps > 0 && n > 0
    ensures var q := (n + ps - 1) / ps; q >= 1 && n <= q * ps && (q - 1) * ps < n
  {
    var q := (n + ps - 1) / ps;
    assert q * ps <= n + ps - 1 < q * ps + ps;
    assert (q - 1) * ps == q * ps - ps;
    if q < 1 {
      MulMono(q, 0, ps);
    }
  }

  /** `Math.max(1, Math.ceil(n / pageSize))`: the fewest pages holding `n` rows,
      and at least one. */
  function TotalPages(n: nat, pageSize: nat): (r: nat)
    requires pageSize > 0
    ensures r >= 1
    ensures n <= r * pageSize
    ensures r == 1 || (r - 1) * pageSize < n
  {
    if n == 0 then 1 else CeilDiv(n, pageSize); (n + pageSize - 1) / pageSize
  }

  /** `sorted.slice((page - 1) * pageSize, page * pageSize)`. */
  function Paginate<T>(rows: seq<T>, page: nat, pageSize: nat): (r: seq<T>)
    requires page >= 1 && pageSize > 0
    ensures |r| <= pageSize
    ensures r != [] ==> (page - 1) * pageSize + |r| <= |rows|
    ensures forall i :: 0 <= i < |r| ==> r[i] == rows[(page - 1) * pageSize + i]
    ensures |rows| == 0 ==> r == []
    ensures (page - 1) * pageSize < |rows| <==> r != []
  {
    var start := (page - 1) * pageSize;
    if start >= |rows| then []
    else if start + pageSize >= |rows| then rows[start..]
    else rows[start..start + pageSize]
  }

  /** A page whose first row exists is within the page count. */
  lemma PageWithin(n: nat, pageSize: nat, q: nat)
    requires pageSize > 0 && q * pageSize < n
    ensures q + 1 <= TotalPages(n, pageSize)
  {
    var total := TotalPages(n, pageSize);
    if q + 1 > total {
      MulMono(total, q, pageSize);
    }
  }

  /** Every row is on exactly one page, at position `j % pageSize` of page
      `j / pageSize + 1`, and that page is within the page count. */
  lemma {:induction false} PageOfRow<T>(rows: seq<T>, pageSize: nat, j: nat)
    requires pageSize > 0 && j < |rows|
    ensures var page := j / pageSize + 1;
            page <= TotalPages(|rows|, pageSize)
            && j % pageSize < |Paginate(rows, page, pageSize)|
            && Paginate(rows, page, pageSize)[j % pageSize] == rows[j]
  {
    var q := j / pageSize;
    var start := q * pageSize;
    assert start <= j < start + pageSize;
    assert j % pageSize == j - start;
    assert (q + 1 - 1) * pageSize == start;
    PageWithin(|rows|, pageSize, q);
    var r := Paginate(rows, q + 1, pageSize);
    assert r != [];
    if start + pageSize >= |rows| {
      assert r == rows[start..];
    } else {
      assert r == rows[start..start + pageSize];
    }
  }

  /** The Prev button: `Math.max(1, p - 1)`. */
  function PrevPage(p: int): (r: int)
    ensures r >= 1
    ensures p > 1 ==> r == p - 1
  {
    if p - 1 > 1 then p - 1 else 1
  }

  /** The Next button: `Math.min(totalPages, p + 1)`, which lands within the page
      count even when the current page lies beyond it. */
  function NextPage(p: int, totalPages: int): (r: int)
    requires totalPages >= 1 && p >= 1
    ensures 1 <= r <= totalPages
    ensures p < totalPages ==> r == p + 1
  {
    if totalPages < p + 1 then totalPages else p + 1
  }

  // ----------------------------------------------------------------------- helpers

  /** The body of the `isLive` memo: an update in the last five seconds (no update,
      or time 0, is not live). */
  predicate IsLive(lastUpdate: Option<int>, now: int): (r: bool)
    ensures r ==> lastUpdate.Some? && lastUpdate.value != 0 && lastUpdate.value > now - 5000
    ensures lastUpdate.Some? && lastUpdate.value != 0 && now - 5000 < lastUpdate.value <= now ==> r
  {
    lastUpdate.Some? && lastUpdate.value != 0 && now - lastUpdate.value < 5000
  }

  /** Evaluated at the moment of the stamp itself, the check always passes for a
      non-zero stamp. */
  lemma IsLiveAtStamp(t: int)
    ensures IsLive(Some(t), t) <==> t != 0
  {
  }

  /** Evaluated five seconds or more after the stamp, the same check fails. */
  lemma IsLiveExpires(t: int, now: int)
    requires now >= t + 5000
    ensures !IsLive(Some(t), now)
  {
  }

  datatype Severity = Low | Medium | High

  /** `getThreatSeverity`: the first matching rule decides. */
  function ThreatSeverity(threatType: Option<string>): (r: Severity)
    ensures !Truthy(threatType) ==> r == Low
    ensures Truthy(threatType) && Contains(threatType.value, "DDoS") ==> r == High
  {
    if !Truthy(threatType) then Low
    else
      var t := threatType.value;
      if Contains(t, "DDoS") then High
      else if Contains(t, "Port Scan") then Medium
      else if Contains(t, "Malicious") then High
      else if Contains(t, "SQL Injection") then High
      else if Contains(t, "XSS") then Medium
      else Low
  }

  /** The severity as a condition on the type's contents: high means DDoS, or a
      malicious-IP or SQL-injection mark not preceded in the rule list by Port Scan. */
  lemma SeverityCases(threatType: Option<string>)
    requires Truthy(threatType)
    ensures var t := threatType.value;
            (ThreatSeverity(threatType) == High <==>
               Contains(t, "DDoS")
               || (!Contains(t, "Port Scan") && (Contains(t, "Malicious") || Contains(t, "SQL Injection"))))
            && (ThreatSeverity(threatType) == Medium <==>
               !Contains(t, "DDoS")
               && (Contains(t, "Port Scan")
                   || (!Contains(t, "Malicious") && !Contains(t, "SQL Injection") && Contains(t, "XSS"))))
  {
  }
}
