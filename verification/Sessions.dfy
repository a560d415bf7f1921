/**
 A provider session as the puller sees it: its history windows, its queue, its share of the live buffer, and
 an account of everything that happened to it.
 */
module Sessions {
  import opened Common
  import opened System
  import opened Adapter

  // ---- history windows

  datatype SyncConfig = SyncConfig(historyRetryDelayMs: nat, historyOverlapMs: nat, historyLookbackMs: nat,
      eventQueueSize: nat)

  datatype HistoryScan = HistoryScan(startMs: int, endMs: int, pageToken: Option<string>)

  /** `_new_history_scan`. */
  function NewHistoryScan(config: SyncConfig, confirmed: Option<int>, endMs: int): HistoryScan {
    var start := match confirmed
                 case None => Max(0, endMs - config.historyLookbackMs)
                 case Some(ms) => Max(0, Min(ms, endMs) - config.historyOverlapMs);
    HistoryScan(start, endMs, None)
  }

  /** The later of two optional times. */
  function Later(a: Option<int>, b: Option<int>): Option<int> {
    match (a, b)
    case (None, _) => b
    case (_, None) => a
    case (Some(x), Some(y)) => Some(Max(x, y))
  }

  /** The window that replaces a session's scan when the stream reconnects. */
  function Handoff(config: SyncConfig, st: SessionPullState, now: int): HistoryScan {
    var scan := NewHistoryScan(config, Later(st.confirmedEventMs, st.historyHighwaterMs), now);
    if st.historyScan.Some? then scan.(startMs := Min(scan.startMs, st.historyScan.value.startMs)) else scan
  }

  /** The time lies in the window. */
  predicate InWindow(w: HistoryScan, t: int) { w.startMs <= t <= w.endMs }

  /** The time is no further back than the overlap before the known time, or than the lookback if none is known. */
  predicate Wanted(config: SyncConfig, known: Option<int>, now: int, t: int) {
    match known
    case None => now - config.historyLookbackMs <= t
    case Some(k) => (if k < now then k else now) - config.historyOverlapMs <= t
  }

  /** Exactly the wanted times up to now lie in a new window, and none before the epoch. */
  lemma NewWindow(config: SyncConfig, known: Option<int>, now: int)
    requires 0 <= now
    ensures var w := NewHistoryScan(config, known, now);
            w.endMs == now && w.pageToken == None
            && forall t :: InWindow(w, t) <==> 0 <= t <= now && Wanted(config, known, now, t)
  {}

  predicate Window(scan: HistoryScan, now: int) { 0 <= scan.startMs <= scan.endMs <= now }

  /** The seconds `message.list` is asked for cover the window in milliseconds. */
  lemma SecondsCoverWindow(scan: HistoryScan, now: int)
    requires Window(scan, now)
    ensures (scan.startMs / 1000) * 1000 <= scan.startMs
    ensures scan.endMs <= Max((scan.endMs + 999) / 1000, scan.startMs / 1000 + 1) * 1000
    ensures scan.startMs / 1000 < Max((scan.endMs + 999) / 1000, scan.startMs / 1000 + 1)
  {}

  // ---- one session

  datatype SessionPullState = SessionPullState(
    confirmedEventMs: Option<int>,
    historyHighwaterMs: Option<int>,
    historyScan: Option<HistoryScan>,
    historyEvents: seq<ProviderEvent>,
    inFlight: Option<ProviderEvent>,
    nextHistoryAtMs: int)

  /**
   What has happened to a session since the puller was made: its recovered high-water mark, every query
   made for it, where among them the current scan begins, the windows opened, the history events delivered
   and the events acknowledged.
   */
  datatype Record = Record(mark: Option<int>, whole: seq<Query>, from: nat, windows: seq<HistoryScan>,
                           delivered: seq<ProviderEvent>, acked: seq<ProviderEvent>)
  {
    /** The queries of the current, or else the last, scan. */
    function Trail(): seq<Query> { if from <= |whole| then whole[from..] else [] }

    /** The window of that scan. */
    function Current(): HistoryScan { if windows == [] then HistoryScan(0, 0, None) else windows[|windows| - 1] }

    /** The latest event time that was recovered or acknowledged. */
    function Known(): Option<int> { Later(mark, LatestOf(acked)) }
  }

  /** The queries made for one session, in order. */
  function AskedFor(asked: seq<Query>, session: string): seq<Query> {
    if asked == [] then []
    else
      var rest := AskedFor(asked[..|asked| - 1], session);
      if asked[|asked| - 1].session == session then rest + [asked[|asked| - 1]] else rest
  }

  lemma AskedOnce(asked: seq<Query>, q: Query, session: string)
    ensures AskedFor(asked + [q], session)
            == if q.session == session then AskedFor(asked, session) + [q] else AskedFor(asked, session)
  {
    assert (asked + [q])[..|asked|] == asked;
  }

  /** The events of the pages that were answered, in order. */
  function Pages(trail: seq<Query>): seq<ProviderEvent> {
    if trail == [] then []
    else
      Pages(trail[..|trail| - 1]) + trail[|trail| - 1].Events()
  }

  /** The token of the last page that was answered. */
  function NextToken(trail: seq<Query>): Option<string> {
    if trail == [] then None
    else
      var last := trail[|trail| - 1];
      if last.answer.Some? then last.answer.value.nextPageToken else NextToken(trail[..|trail| - 1])
  }

  /** The latest end among the windows that were read to their last page. */
  function LastEnd(whole: seq<Query>): Option<int> {
    if whole == [] then None
    else
      var rest := LastEnd(whole[..|whole| - 1]);
      if whole[|whole| - 1].Final() then Later(rest, Some(whole[|whole| - 1].endMs)) else rest
  }

  /** The latest time among some events. */
  function LatestOf(events: seq<ProviderEvent>): Option<int> {
    if events == [] then None else Later(LatestOf(events[..|events| - 1]), Some(events[|events| - 1].eventMs))
  }

  predicate Asks(q: Query, session: string, w: HistoryScan) {
    q.session == session && q.startMs == w.startMs && q.endMs == w.endMs
  }

  /** The queries of one scan: its window, the token of the last page answered before, and nothing after the last page. */
  predicate Chain(trail: seq<Query>, session: string, w: HistoryScan) {
    forall i :: 0 <= i < |trail| ==>
      Asks(trail[i], session, w) && trail[i].token == NextToken(trail[..i]) && (i < |trail| - 1 ==> !trail[i].Final())
  }

  predicate Belongs(e: ProviderEvent, provider: string, session: string) {
    e.provider == provider && e.sessionId == session
  }

  /** Everything the session's queries returned was delivered or is queued, in order. */
  ghost predicate QueueOk(provider: string, session: string, st: SessionPullState, h: Record) {
    && (forall e :: e in st.historyEvents ==> Belongs(e, provider, session))
    && (st.inFlight.Some? ==> Belongs(st.inFlight.value, provider, session))
    && Pages(h.whole) == h.delivered + st.historyEvents
  }

  /** The open scan, if any, is the current window, at the token where its queries have got. */
  ghost predicate ScanOk(session: string, st: SessionPullState, h: Record, now: int) {
    && h.from <= |h.whole| && h.windows != [] && Window(h.Current(), now) && Chain(h.Trail(), session, h.Current())
    && match st.historyScan
       case None => h.Trail() != [] && h.Trail()[|h.Trail()| - 1].Final()
       case Some(scan) =>
         && scan == h.Current().(pageToken := NextToken(h.Trail()))
         && (h.Trail() != [] ==> !h.Trail()[|h.Trail()| - 1].Final())
  }

  /** The two times mean what they are called. */
  ghost predicate TimesOk(st: SessionPullState, h: Record) {
    st.historyHighwaterMs == Later(h.mark, LastEnd(h.whole)) && st.confirmedEventMs == h.Known()
  }

  /** The second window ends no earlier, and starts no later than the first ended or than a known event. */
  predicate Adjoins(a: HistoryScan, b: HistoryScan, known: Option<int>) {
    a.endMs <= b.endMs && (b.startMs <= a.endMs || (known.Some? && b.startMs <= known.value))
  }

  /** Each window adjoins the one before. */
  ghost predicate Gapless(windows: seq<HistoryScan>, known: Option<int>) {
    forall i :: 0 < i < |windows| ==> Adjoins(windows[i - 1], windows[i], known)
  }

  ghost predicate WindowsOk(h: Record) {
    Gapless(h.windows, h.Known()) && forall q :: q in h.whole ==> q.endMs <= h.Current().endMs
  }

  /** A time from which the session's history is known: recovered, the end of a window read to its last page, or
      acknowledged. */
  ghost predicate KnownTime(h: Record, t: int) {
    || h.mark == Some(t)
    || (exists q :: q in h.whole && q.endMs == t && q.answer.Some? && q.answer.value.nextPageToken.None?)
    || exists e :: e in h.acked && e.eventMs == t
  }

  /** The latest such time, or None if there is none. */
  ghost predicate LatestKnown(h: Record, known: Option<int>) {
    match known
    case None => forall t :: !KnownTime(h, t)
    case Some(k) => KnownTime(h, k) && forall t :: KnownTime(h, t) ==> t <= k
  }

  lemma {:induction false} LatestOfMeaning(events: seq<ProviderEvent>)
    ensures match LatestOf(events)
            case None => events == []
            case Some(k) => (exists e :: e in events && e.eventMs == k) && forall e :: e in events ==> e.eventMs <= k
  {
    if events != [] {
      var rest, last := events[..|events| - 1], events[|events| - 1];
      LatestOfMeaning(rest);
      assert events == rest + [last] && last in events;
      if LatestOf(rest).Some? && LatestOf(rest).value >= last.eventMs {
        var e :| e in rest && e.eventMs == LatestOf(rest).value;
        assert e in events;
      }
    }
  }

  lemma {:induction false} LastEndMeaning(whole: seq<Query>)
    ensures match LastEnd(whole)
            case None => forall q :: q in whole ==> !q.Final()
            case Some(k) => (exists q :: q in whole && q.Final() && q.endMs == k)
                            && forall q :: q in whole && q.Final() ==> q.endMs <= k
  {
    if whole != [] {
      var rest, last := whole[..|whole| - 1], whole[|whole| - 1];
      LastEndMeaning(rest);
      assert whole == rest + [last] && last in whole;
      if LastEnd(rest).Some? && !(last.Final() && LastEnd(rest).value < last.endMs) {
        var q :| q in rest && q.Final() && q.endMs == LastEnd(rest).value;
        assert q in whole;
      }
    }
  }

  /** What a session remembers of the times is the latest of them. */
  lemma LatestIsKept(st: SessionPullState, h: Record)
    requires TimesOk(st, h)
    ensures LatestKnown(h, Later(st.confirmedEventMs, st.historyHighwaterMs))
  {
    LatestOfMeaning(h.acked);
    LastEndMeaning(h.whole);
    hide LatestOf, LastEnd;
    var latest := Later(st.confirmedEventMs, st.historyHighwaterMs);
    forall t | KnownTime(h, t) ensures latest.Some? && t <= latest.value {}
  }

  /** A session's state accounts for everything that happened to it. */
  ghost predicate SessionOk(provider: string, session: string, st: SessionPullState, h: Record, now: int) {
    QueueOk(provider, session, st, h) && ScanOk(session, st, h, now) && TimesOk(st, h) && WindowsOk(h)
  }

  // ---- what changes it

  /** After an answered query. */
  function PageAdded(st: SessionPullState, page: HistoryPage): SessionPullState
    requires st.historyScan.Some?
  {
    var scan := st.historyScan.value;
    var queued := st.(historyEvents := st.historyEvents + page.events, nextHistoryAtMs := 0);
    if page.nextPageToken.None? then
      queued.(historyHighwaterMs := Some(Max(if st.historyHighwaterMs.Some? then st.historyHighwaterMs.value
          else 0, scan.endMs)),
              historyScan := None)
    else queued.(historyScan := Some(scan.(pageToken := page.nextPageToken)))
  }

  /** After a query, whatever became of it. */
  function Answered(st: SessionPullState, answer: Option<HistoryPage>, retryAt: int): SessionPullState
    requires st.historyScan.Some?
  {
    match answer
    case None => st.(nextHistoryAtMs := retryAt)
    case Some(page) => PageAdded(st, page)
  }

  function QueryOf(session: string, scan: HistoryScan, answer: Option<HistoryPage>): Query {
    Query(session, scan.startMs, scan.endMs, scan.pageToken, answer)
  }

  /** One more query of the same scan. */
  lemma ChainGrows(trail: seq<Query>, q: Query, session: string, w: HistoryScan)
    requires Chain(trail, session, w) && Asks(q, session, w) && q.token == NextToken(trail)
    requires trail != [] ==> !trail[|trail| - 1].Final()
    ensures Chain(trail + [q], session, w)
  {
    hide NextToken, Asks, Query.Final;
    var grown := trail + [q];
    assert grown[..|trail|] == trail;
    assert forall i :: 0 <= i < |trail| ==> grown[i] == trail[i] && grown[..i] == trail[..i];
  }

  lemma TokenGrows(trail: seq<Query>, q: Query)
    ensures NextToken(trail + [q]) == if q.answer.Some? then q.answer.value.nextPageToken else NextToken(trail)
  {
    assert (trail + [q])[..|trail|] == trail;
  }

  lemma WholeGrows(whole: seq<Query>, q: Query)
    ensures Pages(whole + [q]) == Pages(whole) + q.Events()
    ensures LastEnd(whole + [q]) == if q.Final() then Later(LastEnd(whole), Some(q.endMs)) else LastEnd(whole)
  {
    OneMorePage(whole, q);
    assert (whole + [q])[..|whole|] == whole;
  }

  /** A query, answered or not, keeps the account. */
  lemma QueryKeeps(provider: string, session: string, st: SessionPullState, h: Record, now: int,
                   answer: Option<HistoryPage>, retryAt: int)
    requires SessionOk(provider, session, st, h, now) && st.historyScan.Some?
    requires answer.Some? ==> forall e :: e in answer.value.events ==> Belongs(e, provider, session)
    ensures SessionOk(provider, session, Answered(st, answer, retryAt),
                      h.(whole := h.whole + [QueryOf(session, st.historyScan.value, answer)]), now)
  {
    hide QueueOk, TimesOk, WindowsOk;
    QueryKeepsQueue(provider, session, st, h, answer, retryAt);
    QueryKeepsScan(session, st, h, now, answer, retryAt);
    QueryKeepsTimes(session, st, h, answer, retryAt);
    QueryKeepsWindows(session, st, h, answer);
  }

  lemma QueryKeepsQueue(provider: string, session: string, st: SessionPullState, h: Record, answer: Option<HistoryPage>,
                        retryAt: int)
    requires QueueOk(provider, session, st, h) && st.historyScan.Some?
    requires answer.Some? ==> forall e :: e in answer.value.events ==> Belongs(e, provider, session)
    ensures QueueOk(provider, session, Answered(st, answer, retryAt),
                    h.(whole := h.whole + [QueryOf(session, st.historyScan.value, answer)]))
  {
    hide Pages, Belongs;
    WholeGrows(h.whole, QueryOf(session, st.historyScan.value, answer));
    if answer.Some? {
      assert Pages(h.whole) + answer.value.events == h.delivered + (st.historyEvents + answer.value.events);
    }
  }

  lemma QueryKeepsScan(session: string, st: SessionPullState, h: Record, now: int, answer: Option<HistoryPage>,
                       retryAt: int)
    requires ScanOk(session, st, h, now) && st.historyScan.Some?
    ensures ScanOk(session, Answered(st, answer, retryAt),
                   h.(whole := h.whole + [QueryOf(session, st.historyScan.value, answer)]), now)
  {
    hide Chain, NextToken, Window, Record.Trail, Record.Current;
    var q, next := QueryOf(session, st.historyScan.value, answer),
        h.(whole := h.whole + [QueryOf(session, st.historyScan.value, answer)]);
    TrailGrows(h, q);
    ChainGrows(h.Trail(), q, session, h.Current());
    TokenGrows(h.Trail(), q);
    assert next.Trail()[|next.Trail()| - 1] == q;
  }

  lemma TrailGrows(h: Record, q: Query)
    requires h.from <= |h.whole|
    ensures h.(whole := h.whole + [q]).Trail() == h.Trail() + [q] && h.(whole := h.whole + [q]).Current() == h.Current()
  {}

  lemma QueryKeepsTimes(session: string, st: SessionPullState, h: Record, answer: Option<HistoryPage>, retryAt: int)
    requires TimesOk(st, h) && st.historyScan.Some? && 0 <= st.historyScan.value.endMs
    ensures TimesOk(Answered(st, answer, retryAt), h.(whole := h.whole + [QueryOf(session, st.historyScan.value, answer)]))
  {
    hide LastEnd, Pages;
    WholeGrows(h.whole, QueryOf(session, st.historyScan.value, answer));
  }

  lemma QueryKeepsWindows(session: string, st: SessionPullState, h: Record, answer: Option<HistoryPage>)
    requires WindowsOk(h) && st.historyScan.Some? && st.historyScan.value.endMs == h.Current().endMs
    ensures WindowsOk(h.(whole := h.whole + [QueryOf(session, st.historyScan.value, answer)]))
  {
    hide Gapless, LatestOf, Later;
    assert h.(whole := h.whole + [QueryOf(session, st.historyScan.value, answer)]).Known() == h.Known();
  }

  /** A scan that has finished asked for one window, each time with the token of the last page answered, up to
      the last page; and exactly what the session's queries returned was delivered or is queued, in order. */
  lemma FinishedScan(provider: string, session: string, st: SessionPullState, h: Record, now: int)
    requires SessionOk(provider, session, st, h, now) && st.historyScan.None?
    ensures h.Trail() != [] && h.Trail()[0].token == None && h.Trail()[|h.Trail()| - 1].Final()
    ensures forall i :: 0 <= i < |h.Trail()| ==>
              Asks(h.Trail()[i], session, h.Current()) && h.Trail()[i].token == NextToken(h.Trail()[..i])
    ensures forall i :: 0 <= i < |h.Trail()| - 1 ==> !h.Trail()[i].Final()
    ensures Pages(h.whole[..h.from]) + Pages(h.Trail()) == h.delivered + st.historyEvents
  {
    assert h.Trail()[..0] == [];
    assert h.whole == h.whole[..h.from] + h.Trail();
    PagesConcat(h.whole[..h.from], h.Trail());
  }

  lemma OneMorePage(whole: seq<Query>, q: Query)
    ensures Pages(whole + [q]) == Pages(whole) + q.Events()
  {
    assert (whole + [q])[..|whole|] == whole;
  }

  lemma BeforeLast(a: seq<Query>, b: seq<Query>)
    requires b != []
    ensures (a + b)[..|a + b| - 1] == a + b[..|b| - 1] && (a + b)[|a + b| - 1] == b[|b| - 1]
  {}

  lemma Associates(a: seq<ProviderEvent>, b: seq<ProviderEvent>, c: seq<ProviderEvent>)
    ensures (a + b) + c == a + (b + c)
  {}

  lemma {:induction false} PagesConcat(a: seq<Query>, b: seq<Query>)
    ensures Pages(a + b) == Pages(a) + Pages(b)
  {
    if b == [] {
      assert a + b == a;
    } else {
      hide Query.Events;
      PagesConcat(a, b[..|b| - 1]);
      BeforeLast(a, b);
      Associates(Pages(a), Pages(b[..|b| - 1]), b[|b| - 1].Events());
    }
  }

  /**
   A replacement window ends now, contains the unfinished window it replaces, and starts no later than
   the later of the last finished window's end and the latest event recovered or acknowledged.
   */
  lemma HandoffCovers(config: SyncConfig, provider: string, session: string, st: SessionPullState, h: Record,
                      before: int, now: int)
    requires 0 <= before <= now && SessionOk(provider, session, st, h, before)
    ensures Window(Handoff(config, st, now), now) && Handoff(config, st, now).endMs == now
    ensures st.historyScan.Some? ==> Handoff(config, st, now).startMs <= st.historyScan.value.startMs
                                     && st.historyScan.value.endMs <= now
    ensures var known := Later(LastEnd(h.whole), h.Known());
            known.Some? && known.value >= 0 ==> Handoff(config, st, now).startMs <= known.value
    ensures Handoff(config, st, now).startMs <= h.Current().endMs
            || (h.Known().Some? && Handoff(config, st, now).startMs <= h.Known().value)
  {
    hide Pages, Chain, NextToken;
    LastEndBelow(h.whole, h.Current().endMs);
    if st.historyScan.None? {
      FinalCounts(h.whole);
    }
  }

  lemma {:induction false} LastEndBelow(whole: seq<Query>, bound: int)
    requires forall q :: q in whole ==> q.endMs <= bound
    ensures LastEnd(whole).Some? ==> LastEnd(whole).value <= bound
  {
    if whole != [] {
      LastEndBelow(whole[..|whole| - 1], bound);
    }
  }

  lemma FinalCounts(whole: seq<Query>)
    requires whole != [] && whole[|whole| - 1].Final()
    ensures LastEnd(whole).Some?
  {}

  /** The window replaces a session's scan: exactly the wanted times up to now lie in it, and those that an unfinished
      window still has to bring. */
  ghost predicate Replaces(config: SyncConfig, st: SessionPullState, h: Record, w: HistoryScan, now: int) {
    w.endMs == now && w.pageToken == None
    && exists known :: LatestKnown(h, known) && TimesOfReplacement(config, st, w, known, now)
  }

  ghost predicate TimesOfReplacement(config: SyncConfig, st: SessionPullState, w: HistoryScan, known: Option<int>, now: int)
  {
    forall t :: InWindow(w, t) <==>
                0 <= t <= now && (Wanted(config, known, now, t)
                                  || (st.historyScan.Some? && st.historyScan.value.startMs <= t))
  }

  lemma HandoffReplaces(config: SyncConfig, provider: string, session: string, st: SessionPullState, h: Record,
                        before: int, now: int)
    requires 0 <= before <= now && SessionOk(provider, session, st, h, before)
    ensures Replaces(config, st, h, Handoff(config, st, now), now)
  {
    hide Pages, Chain, NextToken, LatestOf, LastEnd, LatestKnown, Wanted, NewHistoryScan, Later, Gapless;
    var known := Later(st.confirmedEventMs, st.historyHighwaterMs);
    LatestIsKept(st, h);
    NewWindow(config, known, now);
    assert TimesOfReplacement(config, st, Handoff(config, st, now), known, now);
  }

  /** The record after a handoff: the replacement window is the current one, and nothing was asked of it yet. */
  function HandoffRecorded(config: SyncConfig, st: SessionPullState, h: Record, now: int): Record {
    h.(from := |h.whole|, windows := h.windows + [Handoff(config, st, now)])
  }

  lemma HandoffKeeps(config: SyncConfig, provider: string, session: string, st: SessionPullState, h: Record, now: int)
    requires 0 <= now && SessionOk(provider, session, st, h, now)
    ensures SessionOk(provider, session, Handed(config, st, now), HandoffRecorded(config, st, h, now), now)
  {
    hide Pages, LastEnd, Handoff, LatestOf, Later, WindowsOk, Chain, NextToken;
    HandoffCovers(config, provider, session, st, h, now, now);
    FreshWindow(config, st, now);
    assert HandoffRecorded(config, st, h, now).Trail() == [];
    NothingAsked(session, Handoff(config, st, now));
    HandoffKeepsWindows(st, h, Handoff(config, st, now));
  }

  lemma NothingAsked(session: string, w: HistoryScan)
    ensures Chain([], session, w) && NextToken([]) == None
  {}

  lemma HandoffKeepsWindows(st: SessionPullState, h: Record, w: HistoryScan)
    requires WindowsOk(h) && h.windows != [] && h.Current().endMs <= w.endMs
    requires w.startMs <= h.Current().endMs || (h.Known().Some? && w.startMs <= h.Known().value)
    ensures WindowsOk(h.(from := |h.whole|, windows := h.windows + [w]))
  {
    hide LatestOf, Later, Gapless;
    var next := h.(from := |h.whole|, windows := h.windows + [w]);
    assert next.Known() == h.Known() && next.Current() == w;
    OneMoreWindow(h.windows, w, h.Known());
  }

  lemma OneMoreWindow(windows: seq<HistoryScan>, w: HistoryScan, known: Option<int>)
    requires Gapless(windows, known) && windows != [] && Adjoins(windows[|windows| - 1], w, known)
    ensures Gapless(windows + [w], known)
  {
    hide Adjoins;
    var grown := windows + [w];
    forall i | 0 < i < |grown| ensures Adjoins(grown[i - 1], grown[i], known) {
      if i < |windows| {
        assert Adjoins(windows[i - 1], windows[i], known);
      }
    }
  }

  lemma FreshWindow(config: SyncConfig, st: SessionPullState, now: int)
    ensures Handoff(config, st, now).pageToken == None
  {}

  function Handed(config: SyncConfig, st: SessionPullState, now: int): SessionPullState {
    st.(historyScan := Some(Handoff(config, st, now)), nextHistoryAtMs := 0)
  }

  /** The state after an acknowledgement: nothing outstanding, and the confirmed time never goes back. */
  function Acknowledged(st: SessionPullState, e: ProviderEvent): SessionPullState {
    st.(confirmedEventMs := if st.confirmedEventMs.None? || e.eventMs > st.confirmedEventMs.value then Some(e.eventMs)
                            else st.confirmedEventMs,
        inFlight := None)
  }

  lemma AcknowledgedKeeps(provider: string, session: string, st: SessionPullState, h: Record, now: int, e: ProviderEvent)
    requires SessionOk(provider, session, st, h, now)
    ensures SessionOk(provider, session, Acknowledged(st, e), h.(acked := h.acked + [e]), now)
  {
    hide Pages, Chain, LastEnd, NextToken, Gapless, LatestOf, Record.Known;
    var next := h.(acked := h.acked + [e]);
    assert next.Trail() == h.Trail();
    AcknowledgedKnown(h, e);
    LaterKnown(h.windows, h.Known(), next.Known());
  }

  lemma AcknowledgedKnown(h: Record, e: ProviderEvent)
    ensures h.(acked := h.acked + [e]).Known() == Later(h.Known(), Some(e.eventMs))
  {
    assert (h.acked + [e])[..|h.acked|] == h.acked;
  }

  lemma LaterKnown(windows: seq<HistoryScan>, known: Option<int>, more: Option<int>)
    requires Gapless(windows, known) && (known.Some? ==> more.Some? && known.value <= more.value)
    ensures Gapless(windows, more)
  {}

  lemma DeliveryKeeps(provider: string, s: string, st: SessionPullState, h: Record, now: int)
    requires SessionOk(provider, s, st, h, now) && st.historyEvents != []
    ensures SessionOk(provider, s, st.(inFlight := Some(st.historyEvents[0]), historyEvents := st.historyEvents[1..]),
                      h.(delivered := h.delivered + [st.historyEvents[0]]), now)
  {
    hide Pages, Chain, LastEnd, NextToken;
    assert h.delivered + st.historyEvents == h.delivered + [st.historyEvents[0]] + st.historyEvents[1..];
    assert h.(delivered := h.delivered + [st.historyEvents[0]]).Trail() == h.Trail();
  }

  // ---- the live buffer

  /** The events of one session, in order. */
  function Of(events: seq<ProviderEvent>, session: string): seq<ProviderEvent> {
    if events == [] then []
    else
      var rest := Of(events[..|events| - 1], session);
      if events[|events| - 1].sessionId == session then rest + [events[|events| - 1]] else rest
  }

  lemma OfAppend(events: seq<ProviderEvent>, e: ProviderEvent, session: string)
    ensures Of(events + [e], session) == if e.sessionId == session then Of(events, session) + [e] else Of(events, session)
  {
    assert (events + [e])[..|events|] == events;
  }

  /** One more arrival, at the end of the buffer. */
  lemma BufferedGrows(arrived: seq<ProviderEvent>, out: seq<ProviderEvent>, live: seq<ProviderEvent>, e: ProviderEvent)
    requires forall s :: Of(arrived, s) == Of(out, s) + Of(live, s)
    ensures forall s :: Of(arrived + [e], s) == Of(out, s) + Of(live + [e], s)
  {
    hide Of;
    forall s ensures Of(arrived + [e], s) == Of(out, s) + Of(live + [e], s) {
      OfAppend(arrived, e, s);
      OfAppend(live, e, s);
      assert Of(arrived, s) == Of(out, s) + Of(live, s);
    }
  }

  lemma {:induction false} OfConcat(a: seq<ProviderEvent>, b: seq<ProviderEvent>, session: string)
    ensures Of(a + b, session) == Of(a, session) + Of(b, session)
  {
    if b == [] {
      assert a + b == a;
    } else {
      OfConcat(a, b[..|b| - 1], session);
      assert (a + b)[..|a + b| - 1] == a + b[..|b| - 1];
    }
  }

  lemma {:induction false} OfNone(events: seq<ProviderEvent>, session: string)
    requires forall e :: e in events ==> e.sessionId != session
    ensures Of(events, session) == []
  {
    if events != [] {
      OfNone(events[..|events| - 1], session);
    }
  }

  /** Taking out the first event of a session shortens that session's events from the front, and no other's. */
  lemma OfRemoved(events: seq<ProviderEvent>, i: nat, session: string)
    requires i < |events| && forall j :: 0 <= j < i ==> events[j].sessionId != events[i].sessionId
    ensures var rest := events[..i] + events[i + 1..];
            Of(events, session) == (if session == events[i].sessionId then [events[i]] else []) + Of(rest, session)
  {
    assert events == events[..i] + [events[i]] + events[i + 1..];
    OfConcat(events[..i] + [events[i]], events[i + 1..], session);
    OfAppend(events[..i], events[i], session);
    OfConcat(events[..i], events[i + 1..], session);
    if session == events[i].sessionId {
      OfNone(events[..i], session);
    }
  }

  /** A session's oldest buffered event, and the buffer without it. */
  function FirstOf(live: seq<ProviderEvent>, session: string): Option<ProviderEvent> {
    if live == [] then None else if live[0].sessionId == session then Some(live[0]) else FirstOf(live[1..], session)
  }

  function Without(live: seq<ProviderEvent>, session: string): seq<ProviderEvent> {
    if live == [] then [] else if live[0].sessionId == session then live[1..] else [live[0]] + Without(live[1..], session)
  }

  lemma PastFirst(live: seq<ProviderEvent>, session: string)
    requires live != [] && live[0].sessionId != session
    ensures FirstOf(live, session) == FirstOf(live[1..], session)
            && Without(live, session) == [live[0]] + Without(live[1..], session)
  {}

  lemma {:induction false} FirstAt(live: seq<ProviderEvent>, i: nat)
    requires i < |live| && forall j :: 0 <= j < i ==> live[j].sessionId != live[i].sessionId
    ensures FirstOf(live, live[i].sessionId) == Some(live[i])
    ensures Without(live, live[i].sessionId) == live[..i] + live[i + 1..]
    decreases i
  {
    if i == 0 {
      assert live[..0] + live[1..] == live[1..];
    } else {
      hide FirstOf, Without;
      PastFirst(live, live[i].sessionId);
      Tail(live, i);
      FirstAt(live[1..], i - 1);
    }
  }

  lemma Tail(live: seq<ProviderEvent>, i: nat)
    requires 0 < i < |live|
    ensures live[1..][i - 1] == live[i] && forall j :: 0 <= j < i - 1 ==> live[1..][j] == live[j + 1]
    ensures [live[0]] + (live[1..][..i - 1] + live[1..][i..]) == live[..i] + live[i + 1..]
  {
    assert live[1..][..i - 1] == live[1..i] && live[1..][i..] == live[i + 1..] && [live[0]] + live[1..i] == live[..i];
  }

  lemma {:induction false} NoneOf(live: seq<ProviderEvent>, session: string)
    requires forall j :: 0 <= j < |live| ==> live[j].sessionId != session
    ensures FirstOf(live, session) == None && Without(live, session) == live
  {
    if live != [] {
      NoneOf(live[1..], session);
    }
  }

  lemma {:induction false} FirstIsIn(live: seq<ProviderEvent>, session: string)
    ensures FirstOf(live, session).Some? ==> FirstOf(live, session).value in live
                                             && FirstOf(live, session).value.sessionId == session
    ensures FirstOf(live, session).Some? <==> exists e :: e in live && e.sessionId == session
    ensures Without(live, session) == live <==> FirstOf(live, session).None?
    ensures forall e :: e in Without(live, session) ==> e in live
  {
    if live != [] {
      FirstIsIn(live[1..], session);
      assert live == [live[0]] + live[1..];
      assert live[0].sessionId != session ==> |Without(live, session)| == 1 + |Without(live[1..], session)|;
      if FirstOf(live, session).Some? { ShorterWithout(live, session); }
    }
  }

  lemma {:induction false} ShorterWithout(live: seq<ProviderEvent>, session: string)
    requires FirstOf(live, session).Some?
    ensures |Without(live, session)| == |live| - 1
  {
    if live[0].sessionId != session {
      ShorterWithout(live[1..], session);
    }
  }

  // ---- all sessions together

  function Outstanding(sessions: map<string, SessionPullState>): map<string, ProviderEvent> {
    map s | s in sessions && sessions[s].inFlight.Some? :: sessions[s].inFlight.value
  }

  lemma OutstandingAcknowledged(sessions: map<string, SessionPullState>, s: string, e: ProviderEvent)
    requires s in sessions
    ensures Outstanding(sessions[s := Acknowledged(sessions[s], e)]) == Outstanding(sessions) - {s}
  {}

  /** The history events delivered, session by session. */
  function Deliveries(records: map<string, Record>): map<string, seq<ProviderEvent>> {
    map s | s in records :: records[s].delivered
  }

  /** The events acknowledged, session by session. */
  function Acks(records: map<string, Record>): map<string, seq<ProviderEvent>> {
    map s | s in records :: records[s].acked
  }

  predicate AllKnown(events: seq<ProviderEvent>, name: string, sessions: set<string>) {
    forall e :: e in events ==> e.provider == name && e.sessionId in sessions
  }

  ghost predicate AllOk(name: string, sessions: map<string, SessionPullState>, records: map<string, Record>, now: int) {
    records.Keys == sessions.Keys && forall s :: s in sessions ==> SessionOk(name, s, sessions[s], records[s], now)
  }

  ghost predicate AllReported(sessions: map<string, SessionPullState>, reported: set<ProviderEvent>) {
    forall s :: s in sessions ==> StateReported(sessions[s], reported)
  }

  ghost predicate StateReported(st: SessionPullState, reported: set<ProviderEvent>) {
    && (forall e :: e in st.historyEvents ==> e in reported)
    && (st.inFlight.Some? ==> st.inFlight.value in reported)
  }

  /** Every session's queries are those made for it, in order. */
  ghost predicate AllMatched(asked: seq<Query>, records: map<string, Record>) {
    forall s :: s in records ==> records[s].whole == AskedFor(asked, s)
  }

  lemma MatchGrows(asked: seq<Query>, records: map<string, Record>, q: Query)
    requires AllMatched(asked, records) && q.session in records
    ensures AllMatched(asked + [q], records[q.session := records[q.session].(whole := records[q.session].whole + [q])])
  {
    forall s | s in records
      ensures AskedFor(asked + [q], s) == if s == q.session then AskedFor(asked, s) + [q] else AskedFor(asked, s)
    {
      AskedOnce(asked, q, s);
    }
  }

  lemma SessionAt(name: string, sessions: map<string, SessionPullState>, records: map<string, Record>, now: int,
                  reported: set<ProviderEvent>, s: string)
    requires AllOk(name, sessions, records, now) && AllReported(sessions, reported) && s in sessions
    ensures s in records && SessionOk(name, s, sessions[s], records[s], now) && StateReported(sessions[s], reported)
    ensures forall e :: e in sessions[s].historyEvents ==> Belongs(e, name, s)
    ensures sessions[s].inFlight.Some? ==> Belongs(sessions[s].inFlight.value, name, s)
  {}

  /** Replacing one session's state and record. */
  lemma UpdateAll(name: string, sessions: map<string, SessionPullState>, records: map<string, Record>, now: int,
                  reported: set<ProviderEvent>, asked: seq<Query>, s: string, st: SessionPullState, h: Record)
    requires AllOk(name, sessions, records, now) && AllReported(sessions, reported) && AllMatched(asked, records)
             && s in sessions
    requires SessionOk(name, s, st, h, now) && StateReported(st, reported) && h.whole == records[s].whole
    ensures AllOk(name, sessions[s := st], records[s := h], now)
    ensures AllReported(sessions[s := st], reported) && AllMatched(asked, records[s := h])
    ensures sessions[s := st].Keys == sessions.Keys && Acks(records[s := h]) == Acks(records)[s := h.acked]
    ensures h.acked == records[s].acked ==> Acks(records[s := h]) == Acks(records)
  {
    hide SessionOk, StateReported, AskedFor;
  }

  lemma ReportedGrows(sessions: map<string, SessionPullState>, before: set<ProviderEvent>, after: set<ProviderEvent>)
    requires AllReported(sessions, before) && before <= after
    ensures AllReported(sessions, after)
  {}

  lemma AnsweredReported(sessions: map<string, SessionPullState>, s: string, answer: Option<HistoryPage>, retryAt: int,
                         before: set<ProviderEvent>, after: set<ProviderEvent>)
    requires AllReported(sessions, before) && before <= after && s in sessions && sessions[s].historyScan.Some?
    requires answer.Some? ==> forall e :: e in answer.value.events ==> e in after
    ensures AllReported(sessions[s := Answered(sessions[s], answer, retryAt)], after)
  {
    ReportedGrows(sessions, before, after);
  }

  lemma KnownGrows(events: seq<ProviderEvent>, name: string, sessions: set<string>, e: ProviderEvent)
    requires AllKnown(events, name, sessions) && e.provider == name && e.sessionId in sessions
    ensures AllKnown(events + [e], name, sessions)
  {}

  lemma KnownIn(events: seq<ProviderEvent>, name: string, sessions: set<string>, e: ProviderEvent)
    requires AllKnown(events, name, sessions) && e in events
    ensures e.provider == name && e.sessionId in sessions
  {}

  /** Every session's window is replaced by its handoff window, and nothing else changes. */
  ghost predicate HandedOver(config: SyncConfig, before: map<string, SessionPullState>, records: map<string, Record>,
                             after: map<string, SessionPullState>, now: int)
  {
    after.Keys == before.Keys && before.Keys <= records.Keys
    && forall s :: s in before ==> after[s].historyScan.Some?
                                   && after[s] == before[s].(historyScan := after[s].historyScan, nextHistoryAtMs := 0)
                                   && Replaces(config, before[s], records[s], after[s].historyScan.value, now)
  }

  function HandedAll(config: SyncConfig, sessions: map<string, SessionPullState>, now: int): map<string, SessionPullState> {
    map s | s in sessions :: Handed(config, sessions[s], now)
  }

  function HandoffsRecorded(config: SyncConfig, sessions: map<string, SessionPullState>, records: map<string, Record>,
                            now: int): map<string, Record>
  {
    map s | s in records && s in sessions :: HandoffRecorded(config, sessions[s], records[s], now)
  }

  lemma HandoverKeeps(name: string, config: SyncConfig, sessions: map<string, SessionPullState>,
                      records: map<string, Record>, asked: seq<Query>, now: int)
    requires AllOk(name, sessions, records, now) && AllMatched(asked, records) && 0 <= now
    ensures var after := HandoffsRecorded(config, sessions, records, now);
            && AllOk(name, HandedAll(config, sessions, now), after, now) && AllMatched(asked, after)
            && Deliveries(after) == Deliveries(records) && Acks(after) == Acks(records)
    ensures HandedOver(config, sessions, records, HandedAll(config, sessions, now), now)
  {
    hide SessionOk, Handed, AskedFor, Handoff, Replaces;
    forall s | s in sessions
      ensures SessionOk(name, s, Handed(config, sessions[s], now),
                        HandoffRecorded(config, sessions[s], records[s], now), now)
      ensures Handed(config, sessions[s], now).historyScan.Some?
      ensures Handed(config, sessions[s], now)
              == sessions[s].(historyScan := Handed(config, sessions[s], now).historyScan, nextHistoryAtMs := 0)
      ensures Replaces(config, sessions[s], records[s], Handed(config, sessions[s], now).historyScan.value, now)
    {
      HandoffReplaces(config, name, s, sessions[s], records[s], now, now);
      HandedIsHandoff(config, sessions[s], now);
      HandoffKeeps(config, name, s, sessions[s], records[s], now);
    }
  }

  lemma HandedIsHandoff(config: SyncConfig, st: SessionPullState, now: int)
    ensures Handed(config, st, now) == st.(historyScan := Some(Handoff(config, st, now)), nextHistoryAtMs := 0)
  {}

  lemma HandoverFrame(before: map<string, SessionPullState>, records: map<string, Record>,
                      after: map<string, SessionPullState>, config: SyncConfig, now: int, reported: set<ProviderEvent>)
    requires AllReported(before, reported)
    requires after == before || HandedOver(config, before, records, after, now)
    ensures AllReported(after, reported) && Outstanding(after) == Outstanding(before) && after.Keys == before.Keys
  {
    hide Replaces;
  }

  /** Every session has an open window. */
  ghost predicate AllOpen(sessions: map<string, SessionPullState>) {
    forall s :: s in sessions ==> sessions[s].historyScan.Some?
  }

  function Openings(config: SyncConfig, highwater: map<string, Option<int>>, now: int): map<string, SessionPullState> {
    map s | s in highwater :: SessionPullState(highwater[s], highwater[s],
        Some(NewHistoryScan(config, highwater[s], now)), [], None, 0)
  }

  function OpeningRecords(config: SyncConfig, highwater: map<string, Option<int>>, now: int): map<string, Record> {
    map s | s in highwater :: Record(highwater[s], [], 0, [NewHistoryScan(config, highwater[s], now)], [], [])
  }

  /** Every session starts from its own recovered high-water mark. */
  ghost predicate Opened(config: SyncConfig, highwater: map<string, Option<int>>, sessions: map<string,
                         SessionPullState>, now: int)
  {
    && sessions.Keys == highwater.Keys
    && forall s :: s in sessions ==>
         && sessions[s].confirmedEventMs == sessions[s].historyHighwaterMs == highwater[s]
         && sessions[s].historyScan.Some? && Window(sessions[s].historyScan.value, now)
         && sessions[s].historyScan.value.endMs == now
         && sessions[s].historyScan.value.pageToken == None && sessions[s].nextHistoryAtMs == 0
         && (forall t :: InWindow(sessions[s].historyScan.value, t) <==>
                         0 <= t <= now && Wanted(config, highwater[s], now, t))
         && sessions[s].historyEvents == [] && sessions[s].inFlight == None
  }

  ghost predicate AllEmpty(acks: map<string, seq<ProviderEvent>>) { forall s :: s in acks ==> acks[s] == [] }

  lemma OpenAll(name: string, config: SyncConfig, highwater: map<string, Option<int>>, now: int, reported: set<ProviderEvent>)
    requires 0 <= now
    ensures Opened(config, highwater, Openings(config, highwater, now), now)
    ensures AllOk(name, Openings(config, highwater, now), OpeningRecords(config, highwater, now), now)
    ensures AllMatched([], OpeningRecords(config, highwater, now)) && AllReported(Openings(config, highwater, now), reported)
    ensures AllEmpty(Acks(OpeningRecords(config, highwater, now))) && Outstanding(Openings(config, highwater, now)) == map[]
    ensures Openings(config, highwater, now).Keys == highwater.Keys
  {
    hide SessionOk, NewHistoryScan, Wanted, InWindow;
    forall s | s in highwater
      ensures Window(NewHistoryScan(config, highwater[s], now), now)
              && NewHistoryScan(config, highwater[s], now).endMs == now
              && NewHistoryScan(config, highwater[s], now).pageToken == None
              && forall t :: InWindow(NewHistoryScan(config, highwater[s], now), t) <==>
                             0 <= t <= now && Wanted(config, highwater[s], now, t)
      ensures SessionOk(name, s, Openings(config, highwater, now)[s], OpeningRecords(config, highwater, now)[s], now)
    {
      OpenOne(name, s, config, highwater[s], now);
      NewWindow(config, highwater[s], now);
    }
  }

  lemma OpenOne(name: string, s: string, config: SyncConfig, mark: Option<int>, now: int)
    requires 0 <= now
    ensures Window(NewHistoryScan(config, mark, now), now)
    ensures SessionOk(name, s, SessionPullState(mark, mark, Some(NewHistoryScan(config, mark, now)), [], None, 0),
                      Record(mark, [], 0, [NewHistoryScan(config, mark, now)], [], []), now)
  {}
}
