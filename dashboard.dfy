/**
 * The state held by the ThreatAnalytics component and the callbacks that change it:
 * the initial fetch, the event-stream handlers with their reconnect timer, and the
 * table controls. The React state variables and refs are grouped into three records
 * (the records and their summaries, the table controls, the event-stream refs); each
 * callback is a method. `now` is the clock reading of the callback, `off` the local
 * UTC offset.
 *
 * Event sources are numbered in creation order; `open` holds the ones not yet
 * closed and `channel` is the one `sseRef` points to.
 */
module Dashboard {
  import opened Wrappers
  import opened Events
  import opened Aggregation
  import opened QueryView

  /** What `fetch('/api/threats')` and `response.json()` deliver: the parsed array,
      or a failure (network error, non-ok status, or unparsable body). */
  datatype FetchOutcome = Loaded(data: seq<ThreatEvent>) | Failed

  const FETCH_ERROR: string := "Failed to load threat data. Please try again later."

  /** Delay before reconnecting after a stream error, in milliseconds. */
  const RECONNECT_DELAY: int := 5000

  /** `threats`, `stats`, `timelineData`, `lifetimeData`, `lastUpdate`, `isLoading`,
      `error`, and the memoised `isLive`, which React recomputes only when
      `lastUpdate` changes. */
  datatype StoreState = StoreState(
    threats: seq<ThreatEvent>, stats: Stats, timeline: seq<HourBucket>, lifetime: seq<DayBucket>,
    lastUpdate: Option<int>, isLoading: bool, error: Option<string>, isLive: bool)

  /** `searchTerm`, `threatTypeFilter`, `sortConfig`, `page`, `pageSize`. */
  datatype TableState = TableState(
    searchTerm: string, typeFilter: string, sortConfig: SortConfig, page: int, pageSize: int)

  /** `sseRef` (as `channel`), the event sources still open, the number of event
      sources created so far, and whether `reconnectTimerRef` holds a timer. */
  datatype StreamState = StreamState(channel: Option<nat>, open: set<nat>, nextChannel: nat, timerPending: bool)

  const InitialStore := StoreState([], InitialStats, [], [], None, true, None, false)
  const InitialTable := TableState("", "all", DefaultSort, 1, 25)
  const InitialStream := StreamState(None, {}, 0, false)

  /** The three summaries of `es` computed at `now`. */
  function Summarize(s: StoreState, es: seq<ThreatEvent>, now: int, off: int): StoreState {
    s.(threats := es, stats := CalculateStats(es, now),
       timeline := TimelineOf(es, now, off), lifetime := LifetimeOf(es, now, off))
  }

  class ThreatDashboard {
    var store: StoreState
    var table: TableState
    var stream: StreamState

    const off: int

    /** How many reconnect timers have been created so far. */
    ghost var timersCreated: nat
    /** The instant at which the summaries were last computed, if ever. */
    ghost var summarizedAt: Option<int>

    /** The summaries were computed from the current records (or nothing has been
        loaded yet); at most one event source is open, and it is the one the ref
        holds; the page number is at least 1. */
    ghost predicate Valid()
      reads this
    {
      (summarizedAt.Some? ==> store == Summarize(store, store.threats, summarizedAt.value, off))
      && (summarizedAt.None? ==> store.threats == [] && store.stats == InitialStats
                                 && store.timeline == [] && store.lifetime == [])
      && (forall c :: c in stream.open ==> stream.channel == Some(c))
      && (stream.channel.Some? ==> stream.channel.value < stream.nextChannel)
      && table.page >= 1 && table.pageSize > 0
      && store.isLive == (store.lastUpdate.Some? && store.lastUpdate.value != 0)
    }

    /** The initial state of every `useState` and `useRef`. */
    constructor(off: int)
      ensures Valid() && this.off == off
      ensures store == InitialStore && table == InitialTable && stream == InitialStream
      ensures timersCreated == 0
    {
      store := InitialStore;
      table := InitialTable;
      stream := InitialStream;
      this.off := off;
      timersCreated := 0;
      summarizedAt := None;
    }

    /** Installs `data` and recomputes the three summaries from it, as both the fetch
        success path and the stream handler do. */
    method Install(data: seq<ThreatEvent>, now: int)
      requires Valid()
      modifies this
      ensures Valid()
      ensures store == Summarize(old(store), data, now, off) && summarizedAt == Some(now)
      ensures table == old(table) && stream == old(stream) && timersCreated == old(timersCreated)
    {
      var hourly := ProcessTimelineData(data, now, off);
      var daily := ProcessLifetimeData(data, now, off);
      store := store.(threats := data, stats := CalculateStats(data, now), timeline := hourly, lifetime := daily);
      summarizedAt := Some(now);
    }

    /** The start of `fetchThreats`. */
    method BeginFetch()
      requires Valid()
      modifies this
      ensures Valid()
      ensures store == old(store).(isLoading := true, error := None)
      ensures table == old(table) && stream == old(stream)
      ensures summarizedAt == old(summarizedAt) && timersCreated == old(timersCreated)
    {
      store := store.(isLoading := true, error := None);
    }

    /** The settlement of `fetchThreats`: success replaces the records; failure keeps
        them and shows the fixed message. Either way loading ends. */
    method FetchSettled(outcome: FetchOutcome, now: int)
      requires Valid()
      modifies this
      ensures Valid()
      ensures outcome.Loaded? ==>
                store == Summarize(old(store), outcome.data, now, off).(isLoading := false)
                && summarizedAt == Some(now)
      ensures outcome.Failed? ==>
                store == old(store).(isLoading := false, error := Some(FETCH_ERROR))
                && summarizedAt == old(summarizedAt)
      ensures table == old(table) && stream == old(stream) && timersCreated == old(timersCreated)
    {
      if outcome.Loaded? {
        Install(outcome.data, now);
      } else {
        store := store.(error := Some(FETCH_ERROR));
      }
      store := store.(isLoading := false);
    }

    /** `setupSSE`: closes the event source the ref holds, then opens a fresh one. */
    method SetupSSE()
      requires Valid()
      modifies this
      ensures Valid()
      ensures stream == old(stream).(channel := Some(old(stream.nextChannel)),
                                     open := {old(stream.nextChannel)},
                                     nextChannel := old(stream.nextChannel) + 1)
      ensures old(stream.channel).Some? ==> old(stream.channel).value !in stream.open
      ensures store == old(store) && table == old(table)
      ensures summarizedAt == old(summarizedAt) && timersCreated == old(timersCreated)
    {
      var s := stream;
      if s.channel.Some? {
        s := s.(open := s.open - {s.channel.value}, channel := None);
      }
      assert s.open == {};
      stream := s.(open := s.open + {s.nextChannel}, channel := Some(s.nextChannel),
                   nextChannel := s.nextChannel + 1);
    }

    /** `es.onmessage`: a message that parses appends one record, stamps the update
        time and recomputes the summaries from the new list; one that does not parse
        changes nothing. The new stamp makes the `isLive` memo recompute, at the same
        clock reading, so it turns true (unless the clock reads 0). */
    method OnMessage(parsed: Option<ThreatEvent>, now: int)
      requires Valid()
      modifies this
      ensures Valid()
      ensures parsed.None? ==> store == old(store) && summarizedAt == old(summarizedAt)
      ensures parsed.Some? ==>
                store == Summarize(old(store), old(store.threats) + [parsed.value], now, off)
                         .(lastUpdate := Some(now), isLive := IsLive(Some(now), now))
                && summarizedAt == Some(now)
      ensures parsed.Some? && now != 0 ==> Live()
      ensures table == old(table) && stream == old(stream) && timersCreated == old(timersCreated)
    {
      if parsed.Some? {
        IsLiveAtStamp(now);
        store := store.(lastUpdate := Some(now), isLive := IsLive(Some(now), now));
        Install(store.threats + [parsed.value], now);
      }
    }

    /** `es.onerror`: closes that event source and schedules one reconnection unless
        one is already pending, so a burst of errors creates a single timer. */
    method OnError(es: nat)
      requires Valid() && es < stream.nextChannel
      modifies this
      ensures Valid()
      ensures stream == old(stream).(open := old(stream.open) - {es}, timerPending := true)
      ensures timersCreated == old(timersCreated) + (if old(stream.timerPending) then 0 else 1)
      ensures store == old(store) && table == old(table) && summarizedAt == old(summarizedAt)
    {
      stream := stream.(open := stream.open - {es});
      if !stream.timerPending {
        stream := stream.(timerPending := true);
        timersCreated := timersCreated + 1;
      }
    }

    /** The reconnect timer fires: the slot is cleared first, then the stream is set up
        again and the records are fetched again. */
    method OnTimerFire()
      requires Valid() && stream.timerPending
      modifies this
      ensures Valid()
      ensures stream == StreamState(Some(old(stream.nextChannel)), {old(stream.nextChannel)},
                                    old(stream.nextChannel) + 1, false)
      ensures store == old(store).(isLoading := true, error := None)
      ensures table == old(table)
      ensures summarizedAt == old(summarizedAt) && timersCreated == old(timersCreated)
    {
      stream := stream.(timerPending := false);
      SetupSSE();
      BeginFetch();
    }

    /** The effect cleanup on unmount: nothing stays open and no timer stays pending. */
    method Teardown()
      requires Valid()
      modifies this
      ensures Valid()
      ensures stream == old(stream).(channel := None, open := {}, timerPending := false)
      ensures store == old(store) && table == old(table)
      ensures summarizedAt == old(summarizedAt) && timersCreated == old(timersCreated)
    {
      var s := stream;
      if s.channel.Some? {
        s := s.(open := s.open - {s.channel.value}, channel := None);
      }
      assert s.open == {};
      stream := s.(timerPending := false);
    }

    /** The search box. The page is not reset. */
    method SetSearchTerm(term: string)
      requires Valid()
      modifies this
      ensures Valid()
      ensures table == old(table).(searchTerm := term)
      ensures store == old(store) && stream == old(stream)
      ensures summarizedAt == old(summarizedAt) && timersCreated == old(timersCreated)
    {
      table := table.(searchTerm := term);
    }

    /** The type selector. The page is not reset. */
    method SetTypeFilter(f: string)
      requires Valid()
      modifies this
      ensures Valid()
      ensures table == old(table).(typeFilter := f)
      ensures store == old(store) && stream == old(stream)
      ensures summarizedAt == old(summarizedAt) && timersCreated == old(timersCreated)
    {
      table := table.(typeFilter := f);
    }

    /** `handleSort`: toggles or switches the column and goes back to page 1. */
    method HandleSort(key: SortKey)
      requires Valid()
      modifies this
      ensures Valid()
      ensures table == old(table).(sortConfig := NextSort(old(table.sortConfig), key), page := 1)
      ensures store == old(store) && stream == old(stream)
      ensures summarizedAt == old(summarizedAt) && timersCreated == old(timersCreated)
    {
      table := table.(sortConfig := NextSort(table.sortConfig, key), page := 1);
    }

    /** The rows-per-page selector (10, 25, 50 or 100): goes back to page 1. */
    method SetPageSize(n: int)
      requires Valid() && n > 0
      modifies this
      ensures Valid()
      ensures table == old(table).(pageSize := n, page := 1)
      ensures store == old(store) && stream == old(stream)
      ensures summarizedAt == old(summarizedAt) && timersCreated == old(timersCreated)
    {
      table := table.(pageSize := n, page := 1);
    }

    /** The rows matching the search and type selector, in store order. */
    function Filtered(): seq<ThreatEvent>
      reads this
    {
      FilteredThreats(store.threats, table.searchTerm, table.typeFilter)
    }

    /** `totalPages`: at least one page, and enough pages for every filtered row. */
    function PageCount(): (r: nat)
      reads this
      requires Valid()
      ensures r >= 1 && |Filtered()| <= r * table.pageSize
    {
      TotalPages(|Filtered()|, table.pageSize)
    }

    /** `paginatedThreats`: the rows the table shows. */
    function DisplayedRows(collate: string -> seq<int>): (r: seq<ThreatEvent>)
      reads this
      requires Valid()
      ensures |r| <= table.pageSize
    {
      Paginate(SortedThreats(Filtered(), table.sortConfig, collate), table.page, table.pageSize)
    }

    /** The Prev button. */
    method PrevPageClicked()
      requires Valid()
      modifies this
      ensures Valid()
      ensures table == old(table).(page := PrevPage(old(table.page)))
      ensures 1 <= table.page <= old(table.page)
      ensures store == old(store) && stream == old(stream)
      ensures summarizedAt == old(summarizedAt) && timersCreated == old(timersCreated)
    {
      table := table.(page := PrevPage(table.page));
    }

    /** The Next button. It is disabled from the last page on, including a page
        left beyond the count by a narrower search, and a click on it then does
        nothing; otherwise the page moves forward by one and stays within the count. */
    method NextPageClicked()
      requires Valid()
      modifies this
      ensures Valid()
      ensures old(table.page) >= old(PageCount()) ==> table == old(table)
      ensures old(table.page) < old(PageCount()) ==>
                table == old(table).(page := NextPage(old(table.page), old(PageCount())))
                && table.page == old(table.page) + 1 && table.page <= PageCount()
      ensures store == old(store) && stream == old(stream)
      ensures summarizedAt == old(summarizedAt) && timersCreated == old(timersCreated)
    {
      if table.page < PageCount() {
        table := table.(page := NextPage(table.page, PageCount()));
      }
    }

    /** The "live" badge: the memoised `isLive`. It holds exactly when a message has
        stamped a non-zero update time, however long ago. */
    predicate Live(): (r: bool)
      reads this
      requires Valid()
      ensures r <==> store.lastUpdate.Some? && store.lastUpdate.value != 0
    {
      store.isLive
    }
  }
}
