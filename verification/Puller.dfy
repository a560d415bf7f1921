/**
 The provider message puller: paged history and the live subscription, merged
 into one stream with at most one unacknowledged message per session.
 */
module Puller {
  import opened Common
  import opened Memory
  import opened System
  import opened Adapter
  import opened Sessions
  import opened Rounds

  datatype PullFault =
    | NotStarted | NoSessions | StreamFailed | GenerationBackwards | WrongProvider | UnknownSession
    | MisplacedHistory | HistoryFailed | NotInFlight

  /** `_event_key`. */
  function EventId(e: ProviderEvent): (string, string, string) { (e.provider, e.sessionId, e.messageId) }

  class ProviderMessagePuller {
    const adapter: Provider
    const config: SyncConfig
    var sessions: map<string, SessionPullState>
    var sessionOrder: seq<string>
    var sessionCursor: nat
    var liveEvents: seq<ProviderEvent>
    var streamGeneration: int
    var started: bool
    /** What the provider had been asked and had handed out when this puller was made. */
    ghost const askedBefore: nat
    ghost const givenBefore: nat
    /** The live events delivered. */
    ghost var liveOut: seq<ProviderEvent>
    ghost var records: map<string, Record>
    /** The events acknowledged, session by session. */
    ghost var acks: map<string, seq<ProviderEvent>>

    constructor (adapter: Provider, config: SyncConfig)
      requires adapter.Valid()
      ensures Valid() && this.adapter == adapter && this.config == config && !started && sessions == map[]
              && liveEvents == [] && acks == map[] && streamGeneration == 0
    {
      this.adapter, this.config := adapter, config;
      sessions, sessionOrder, sessionCursor, liveEvents := map[], [], 0, [];
      streamGeneration, started := 0, false;
      askedBefore, givenBefore := |adapter.asked|, |adapter.given|;
      liveOut, records, acks := [], map[], map[];
    }

    ghost predicate Valid()
      reads this, adapter`reports, adapter`sends, adapter`now, adapter`asked, adapter`given, adapter`polls, adapter`queries
    {
      adapter.Valid() && Ordered() && Buffered() && Accounted() && Matched() && LiveReported() && SessionsReported()
    }

    /** The provider's history queries and live events since this puller was made. */
    ghost function Asked(): seq<Query>
      reads adapter`asked
    {
      if askedBefore <= |adapter.asked| then adapter.asked[askedBefore..] else []
    }

    ghost function Arrived(): seq<ProviderEvent>
      reads adapter`given
    {
      if givenBefore <= |adapter.given| then adapter.given[givenBefore..] else []
    }

    /** Every query the provider received is in its session's account, and the other way round. */
    ghost predicate Matched()
      reads `records, `started, adapter`asked
    {
      askedBefore <= |adapter.asked| && (!started ==> Asked() == []) && AllMatched(Asked(), records)
    }

    /** What a round works on. */
    function View(): Pull
      reads `sessions, `sessionCursor, `liveEvents
    {
      Pull(sessions, sessionCursor, liveEvents)
    }

    /** The provider is to blame for this failure; `level` says that no reconnect had been overlooked before. */
    ghost predicate Blamed(fault: PullFault, level: bool)
      reads `sessions, adapter`given, adapter`asked
    {
      match fault
      case StreamFailed => Breaks(adapter.moves)
      case GenerationBackwards => level ==> CountsBack(adapter.moves)
      case WrongProvider => adapter.given != [] && adapter.given[|adapter.given| - 1].provider != adapter.name
      case UnknownSession => adapter.given != [] && adapter.given[|adapter.given| - 1].sessionId !in sessions
      case HistoryFailed => Failed(false) in adapter.history
      case MisplacedHistory =>
        && adapter.asked != []
        && var q := adapter.asked[|adapter.asked| - 1];
        exists e :: e in q.Events() && !Belongs(e, adapter.name, q.session)
      case _ => false
    }

    lemma LessBlame(fault: PullFault, level: bool)
      requires Blamed(fault, level)
      ensures Blamed(fault, false)
    {}

    /** The stream's generation changes only if it has reconnected, and goes back only if the provider says so. */
    twostate predicate Drifted()
      reads adapter`generation
    {
      && (adapter.generation == old(adapter.generation) || Reconnects(adapter.moves))
      && (old(adapter.generation) <= adapter.generation || CountsBack(adapter.moves))
    }

    /** Honesty once lost stays lost, and what was reported stays reported. */
    twostate predicate Heard()
      reads adapter`reports, adapter`sends
    {
      (adapter.Honest() ==> old(adapter.Honest())) && old(adapter.Reported()) <= adapter.Reported()
    }

    /** The order lists every session once. */
    ghost predicate Ordered()
      reads `sessions, `sessionOrder, `sessionCursor, `started
    {
      started ==> Listed(sessionOrder, sessions) && sessionCursor < |sessionOrder|
    }

    /** The live buffer is bounded, holds only known sessions, and is what arrived and was not delivered. */
    ghost predicate Buffered()
      reads `liveEvents, `sessions, `liveOut, adapter`given
    {
      && |liveEvents| <= config.eventQueueSize && givenBefore <= |adapter.given|
      && AllKnown(liveEvents, adapter.name, sessions.Keys)
      && (forall s :: Of(Arrived(), s) == Of(liveOut, s) + Of(liveEvents, s))
    }

    /** Every session accounts for its history and its acknowledgements. */
    ghost predicate Accounted()
      reads `sessions, `records, `acks, adapter`now
    {
      AllOk(adapter.name, sessions, records, adapter.now) && acks == Acks(records)
    }

    /** Everything held came from the provider. */
    ghost predicate LiveReported()
      reads `liveEvents, adapter`reports
    {
      forall e :: e in liveEvents ==> e in adapter.Reported()
    }

    ghost predicate SessionsReported()
      reads `sessions, adapter`reports
    {
      AllReported(sessions, adapter.Reported())
    }

    /** What the provider accepts for sending does not concern the puller. */
    twostate lemma SendFrame()
      requires old(Valid()) && unchanged(this) && adapter.Valid()
      requires unchanged(adapter`now, adapter`reports, adapter`asked, adapter`given, adapter`polls, adapter`queries)
      ensures Valid()
    {}

    /** `_raise_stream_error`. */
    method CheckStream() returns (r: Result<(), PullFault>)
      modifies adapter`step, adapter`generation, adapter`checks
      ensures adapter.checks == old(adapter.checks) + [r.Err?] && Drifted()
      ensures r.Err? ==> r.error == StreamFailed && Breaks(adapter.moves)
    {
      var broken := adapter.EventStreamError();
      return if broken then Err(StreamFailed) else Ok(());
    }

    /** `start`: every session begins with one open window and nothing delivered. */
    method Start(highwater: map<string, Option<int>>) returns (r: Result<(), PullFault>)
      requires Valid() && (started || (sessions == map[] && liveEvents == []))
      modifies `sessions, `records, `acks, `sessionOrder, `sessionCursor, `streamGeneration, `started
      modifies adapter`step, adapter`now, adapter`generation, adapter`checks
      ensures Valid() && (r.Ok? ==> started)
      ensures old(started) || r.Err? ==> sessions == old(sessions)
      ensures r.Ok? && !old(started) ==> highwater != map[] && InFlights() == map[]
                                         && Opened(config, highwater, sessions, adapter.now)
      ensures r.Err? ==> started == old(started) && acks == old(acks)
      ensures r.Ok? && !old(started) ==> AllEmpty(acks) && streamGeneration == adapter.generation && sessionCursor == 0
      ensures r.Ok? && !old(started) ==> InOrder(sessionOrder) && sessions == Openings(config, highwater, adapter.now)
      ensures r.Ok? && !old(started) ==> adapter.checks == old(adapter.checks) + [false]
      ensures r.Err? ==> if highwater == map[] then r.error == NoSessions
                         else Blamed(r.error, old(streamGeneration) <= old(adapter.generation))
    {
      hide Of, SessionOk, NewHistoryScan, AllOk, AllReported, AllMatched, AllKnown, Provider.Valid, Provider.Reported,
           Opened, Openings, Outstanding, AllEmpty, Acks, InOrder, Matched, Accounted, Ordered,
           ProviderMessagePuller.Buffered, ProviderMessagePuller.LiveReported, ProviderMessagePuller.SessionsReported,
           ProviderMessagePuller.InFlights;
      if started {
        return Ok(());
      }
      if highwater == map[] {
        return Err(NoSessions);
      }
      r := CheckStream();
      if r.Err? {
        return;
      }
      var now := ReadClock();
      var order := SortedKeys(highwater.Keys);
      assert order != [] by { var s :| s in highwater.Keys; assert s in order; }
      Install(highwater, now, order);
      streamGeneration := adapter.EventStreamGeneration();
      return Ok(());
    }

    method Install(highwater: map<string, Option<int>>, now: nat, order: seq<string>)
      requires adapter.Valid() && Buffered() && LiveReported() && liveEvents == [] && now == adapter.now
      requires Matched() && !started
      requires order != [] && (forall s :: s in order <==> s in highwater)
      requires forall i, j :: 0 <= i < j < |order| ==> order[i] != order[j]
      modifies `sessions, `records, `acks, `sessionOrder, `sessionCursor, `started
      ensures AllEmpty(acks) && sessionOrder == order && sessionCursor == 0 && sessions == Openings(config, highwater, now)
      ensures Valid() && started && InFlights() == map[] && Opened(config, highwater, sessions, now)
    {
      hide Of, AllOk, AllMatched, AllReported, Acks, Opened, Openings, OpeningRecords, Outstanding, AllEmpty, Provider.Valid,
           Provider.Reported;
      OpenAll(adapter.name, config, highwater, now, adapter.Reported());
      sessions := Openings(config, highwater, now);
      records := OpeningRecords(config, highwater, now);
      acks := Acks(records);
      sessionOrder, sessionCursor, started := order, 0, true;
    }

    /** `_collect_live_event`: at most one event, and only while there is room; what is handed out is buffered. */
    method CollectLiveEvent() returns (r: Result<(), PullFault>)
      requires Valid() && streamGeneration == adapter.generation
      modifies `liveEvents, adapter`step, adapter`generation, adapter`reports, adapter`given, adapter`polls
      ensures adapter.Valid() && Heard() && old(adapter.given) <= adapter.given && (r.Ok? ==> Valid())
      ensures old(liveEvents) <= liveEvents && |liveEvents| <= |old(liveEvents)| + 1
      ensures r.Ok? ==> liveEvents == old(liveEvents) + adapter.given[|old(adapter.given)|..]
      ensures r.Err? ==> Blamed(r.error, true)
      ensures Drifted()
      ensures adapter.polls == old(adapter.polls) + (if |old(liveEvents)| < config.eventQueueSize then 1 else 0)
    {
      hide Of, AllKnown, Provider.Reported, AllReported, ProviderMessagePuller.Accounted, ProviderMessagePuller.Matched,
           ProviderMessagePuller.Ordered, Provider.Valid;
      if |liveEvents| >= config.eventQueueSize {
        return Ok(());
      }
      ghost var before := Arrived();
      var event := adapter.TakeEvent();
      ReportedGrows(sessions, old(adapter.Reported()), adapter.Reported());
      if event.None? {
        assert adapter.given == old(adapter.given);
        return Ok(());
      }
      if event.value.provider != adapter.name {
        return Err(WrongProvider);
      }
      if event.value.sessionId !in sessions {
        return Err(UnknownSession);
      }
      assert Arrived() == before + [event.value];
      BufferOne(before, event.value);
      return Ok(());
    }

    method BufferOne(ghost before: seq<ProviderEvent>, event: ProviderEvent)
      requires givenBefore <= |adapter.given| && Arrived() == before + [event] && |liveEvents| < config.eventQueueSize
      requires AllKnown(liveEvents, adapter.name, sessions.Keys)
      requires forall s :: Of(before, s) == Of(liveOut, s) + Of(liveEvents, s)
      requires event.provider == adapter.name && event.sessionId in sessions
      modifies `liveEvents
      ensures Buffered() && liveEvents == old(liveEvents) + [event]
    {
      hide Of, AllKnown;
      BufferedGrows(before, liveOut, liveEvents, event);
      KnownGrows(liveEvents, adapter.name, sessions.Keys, event);
      liveEvents := liveEvents + [event];
    }

    /** `_take_live_event`: the oldest buffered event of a session. */
    method TakeLiveEvent(session: string) returns (r: Option<ProviderEvent>)
      requires Buffered()
      modifies `liveEvents, `liveOut
      ensures Buffered() && r == FirstOf(old(liveEvents), session) && liveEvents == Without(old(liveEvents), session)
      ensures liveOut == old(liveOut) + (if r.Some? then [r.value] else [])
    {
      for i := 0 to |liveEvents|
        invariant liveEvents == old(liveEvents) && liveOut == old(liveOut)
        invariant forall j :: 0 <= j < i ==> liveEvents[j].sessionId != session
      {
        var event := liveEvents[i];
        if event.sessionId == session {
          FirstAt(liveEvents, i);
          TakenOut(i);
          liveEvents := liveEvents[..i] + liveEvents[i + 1..];
          liveOut := liveOut + [event];
          return Some(event);
        }
      }
      NoneOf(liveEvents, session);
      return None;
    }

    /** Moving a session's oldest event from the buffer to the events delivered keeps the account. */
    lemma TakenOut(i: nat)
      requires Buffered() && i < |liveEvents|
      requires forall j :: 0 <= j < i ==> liveEvents[j].sessionId != liveEvents[i].sessionId
      ensures forall s :: Of(Arrived(), s)
               == Of(liveOut + [liveEvents[i]], s) + Of(liveEvents[..i] + liveEvents[i + 1..], s)
      ensures AllKnown(liveEvents[..i] + liveEvents[i + 1..], adapter.name, sessions.Keys)
    {
      hide Of;
      var e, rest := liveEvents[i], liveEvents[..i] + liveEvents[i + 1..];
      forall s ensures Of(Arrived(), s) == Of(liveOut + [e], s) + Of(rest, s) {
        OfRemoved(liveEvents, i, s);
        OfAppend(liveOut, e, s);
        assert Of(Arrived(), s) == Of(liveOut, s) + Of(liveEvents, s);
      }
    }

    /** The query of `_fetch_history_page`: the scan's window and token; None is a temporary failure. */
    method AskHistory(session: string, scan: HistoryScan) returns (r: Result<Option<HistoryPage>, PullFault>)
      requires adapter.Valid()
      modifies adapter`queries, adapter`reports, adapter`asked
      ensures adapter.Valid() && Heard() && |adapter.asked| == |old(adapter.asked)| + 1
              && old(adapter.asked) <= adapter.asked
      ensures r.Ok? ==> adapter.asked == old(adapter.asked) + [QueryOf(session, scan, r.value)]
      ensures r.Err? ==> Blamed(r.error, true)
      ensures r.Ok? && r.value.Some? ==>
                forall e :: e in r.value.value.events ==> e in adapter.Reported() && Belongs(e, adapter.name, session)
    {
      hide Provider.Reported;
      var page, transient := adapter.FetchHistoryPage(session, scan.startMs, scan.endMs, scan.pageToken);
      if page.None? {
        return if transient then Ok(None) else Err(HistoryFailed);
      }
      if exists e :: e in page.value.events && (e.provider != adapter.name || e.sessionId != session) {
        assert adapter.asked[|adapter.asked| - 1].Events() == page.value.events;
        return Err(MisplacedHistory);
      }
      return Ok(page);
    }

    /** `_fetch_history_page`: a temporary failure keeps window and token; a page is queued whole. */
    method FetchHistoryPage(session: string, now: nat) returns (r: Result<Option<HistoryPage>, PullFault>)
      requires adapter.Valid() && Accounted() && Matched() && started
      requires session in sessions && sessions[session].historyScan.Some?
      modifies `sessions, `records, adapter`queries, adapter`reports, adapter`asked
      ensures adapter.Valid() && Heard() && |adapter.asked| == |old(adapter.asked)| + 1
              && old(adapter.asked) <= adapter.asked
      ensures r.Err? ==> sessions == old(sessions) && records == old(records) && Blamed(r.error, true)
      ensures r.Ok? ==> Accounted() && Matched()
      ensures r.Ok? ==> sessions == old(sessions)[session := Answered(old(sessions)[session], r.value,
              now + config.historyRetryDelayMs)]
      ensures r.Ok? ==> adapter.asked == old(adapter.asked) + [QueryOf(session,
              old(sessions)[session].historyScan.value, r.value)]
      ensures r.Ok? ==> AskedAs(adapter.asked[|old(adapter.asked)|], session, old(sessions)[session].historyScan.value)
      ensures r == Ok(None) ==> session in sessions && RetriedLater(old(sessions)[session], sessions[session],
                                                                    now + config.historyRetryDelayMs)
      ensures r.Ok? && r.value.Some? ==> session in sessions
                                         && PageQueued(old(sessions)[session], sessions[session], r.value.value)
      ensures r.Ok? ==> Deliveries(records) == old(Deliveries(records))
      ensures r.Ok? && r.value.Some? ==>
                forall e :: e in r.value.value.events ==> e in adapter.Reported() && Belongs(e, adapter.name, session)
    {
      hide SessionOk, PageAdded, Provider.Reported, Provider.Valid, AskedFor, AllOk, AllMatched;
      ghost var before := Asked();
      ScanInPast(session);
      r := AskHistory(session, sessions[session].historyScan.value);
      if r.Ok? {
        assert Asked() == before + [QueryOf(session, sessions[session].historyScan.value, r.value)];
        FileAnswer(session, r.value, now, before);
        if r.value.Some? {
          PageIsQueued(old(sessions)[session], r.value.value);
        }
      }
    }

    lemma ScanInPast(session: string)
      requires Accounted() && session in sessions && sessions[session].historyScan.Some?
      ensures 0 <= sessions[session].historyScan.value.endMs
    {
      assert SessionOk(adapter.name, session, sessions[session], records[session], adapter.now);
    }

    /** The answer changes the session, and is noted in its account. */
    method FileAnswer(session: string, answer: Option<HistoryPage>, now: nat, ghost before: seq<Query>)
      requires Accounted() && started && session in sessions && sessions[session].historyScan.Some?
      requires askedBefore <= |adapter.asked| && AllMatched(before, records)
      requires Asked() == before + [QueryOf(session, sessions[session].historyScan.value, answer)]
      requires answer.Some? ==> forall e :: e in answer.value.events ==> Belongs(e, adapter.name, session)
      modifies `sessions, `records
      ensures Accounted() && Matched() && Deliveries(records) == old(Deliveries(records))
      ensures sessions == old(sessions)[session := Answered(old(sessions)[session], answer,
              now + config.historyRetryDelayMs)]
    {
      hide SessionOk, PageAdded, AskedFor, AllMatched;
      var state := sessions[session];
      ghost var q := QueryOf(session, state.historyScan.value, answer);
      QueryKeeps(adapter.name, session, state, records[session], adapter.now, answer, now + config.historyRetryDelayMs);
      MatchGrows(before, records, q);
      match answer {
        case None => sessions := sessions[session := state.(nextHistoryAtMs := now + config.historyRetryDelayMs)];
        case Some(page) => sessions := sessions[session := PageAdded(state, page)];
      }
      records := records[session := records[session].(whole := records[session].whole + [q])];
    }

    /** Reading the clock moves no window into the future. */
    method ReadClock() returns (now: nat)
      requires Accounted()
      modifies adapter`step, adapter`now
      ensures Accounted() && now == adapter.now && old(adapter.now) <= now && (old(Valid()) ==> Valid())
    {
      hide QueueOk, TimesOk, WindowsOk, Chain;
      ghost var before := adapter.now;
      now := adapter.Clock();
      forall s | s in sessions ensures SessionOk(adapter.name, s, sessions[s], records[s], now) {
        assert SessionOk(adapter.name, s, sessions[s], records[s], before);
      }
    }

    /** `_schedule_reconnect_handoff`: a new stream generation gives every session a replacement window. */
    method ScheduleReconnectHandoff() returns (r: Result<(), PullFault>)
      requires Accounted() && Matched()
      modifies `sessions, `records, `streamGeneration, adapter`step, adapter`generation, adapter`now
      ensures Accounted() && Matched() && Deliveries(records) == old(Deliveries(records))
      ensures r.Err? || streamGeneration == old(streamGeneration) ==> sessions == old(sessions)
      ensures r.Ok? && streamGeneration != old(streamGeneration) ==>
                streamGeneration > old(streamGeneration)
                && HandedOver(config, old(sessions), old(records), sessions, adapter.now)
      ensures r.Err? ==> Blamed(r.error, old(streamGeneration) <= old(adapter.generation))
      ensures Drifted()
      ensures old(streamGeneration) <= streamGeneration && (r.Ok? ==> streamGeneration == adapter.generation)
    {
      hide SessionOk, AskedFor;
      var generation := adapter.EventStreamGeneration();
      if generation < streamGeneration {
        return Err(GenerationBackwards);
      }
      if generation == streamGeneration {
        return Ok(());
      }
      streamGeneration := generation;
      var now := ReadClock();
      ReplaceWindows(now);
      return Ok(());
    }

    method ReplaceWindows(now: nat)
      requires Accounted() && Matched() && now == adapter.now
      modifies `sessions, `records
      ensures Accounted() && Matched() && HandedOver(config, old(sessions), old(records), sessions, now)
      ensures Deliveries(records) == old(Deliveries(records))
    {
      hide AllOk, AllMatched, Deliveries, Acks, HandedOver, HandedAll, HandoffsRecorded;
      HandoverKeeps(adapter.name, config, sessions, records, Asked(), now);
      records := HandoffsRecorded(config, sessions, records, now);
      sessions := HandedAll(config, sessions, now);
    }

    /** `_deliver`, from a session's history queue. */
    method HandHistory(index: nat) returns (e: ProviderEvent)
      requires Valid() && started && index < |sessionOrder|
      requires sessions[sessionOrder[index]].inFlight.None? && sessions[sessionOrder[index]].historyEvents != []
      modifies `sessions, `records, `sessionCursor
      ensures Valid() && e in adapter.Reported() && e.sessionId == sessionOrder[index]
      ensures FromHistory(sessionOrder, old(View()), index) == Turned(View(), Some(e), None)
      ensures Told(liveOut, liveOut, old(Deliveries(records)), Deliveries(records), Some(e))
    {
      hide Of, SessionOk, AllKnown, AllOk, AllReported, AllMatched, Provider.Valid, NextIndex, ProviderMessagePuller.Asked;
      var session := sessionOrder[index];
      var state := sessions[session];
      SessionAt(adapter.name, sessions, records, adapter.now, adapter.Reported(), session);
      ListedStays(sessionOrder, sessions, index,
          state.(inFlight := Some(state.historyEvents[0]), historyEvents := state.historyEvents[1..]));
      hide Listed;
      e := state.historyEvents[0];
      assert e in state.historyEvents && Belongs(e, adapter.name, session);
      DeliveryKeeps(adapter.name, session, state, records[session], adapter.now);
      var next := state.(inFlight := Some(e), historyEvents := state.historyEvents[1..]);
      ghost var h := records[session].(delivered := records[session].delivered + [e]);
      UpdateAll(adapter.name, sessions, records, adapter.now, adapter.Reported(), Asked(), session, next, h);
      sessions := sessions[session := next];
      records := records[session := h];
      sessionCursor := NextIndex(index, |sessionOrder|);
    }

    /** `_deliver`, from the live buffer, if it has an event of the session. */
    method HandLive(index: nat) returns (r: Option<ProviderEvent>)
      requires Valid() && started && index < |sessionOrder|
      requires sessions[sessionOrder[index]].inFlight.None?
      modifies `sessions, `records, `sessionCursor, `liveEvents, `liveOut
      ensures FromLive(sessionOrder, old(View()), index) == Turned(View(), r, None)
      ensures Told(old(liveOut), liveOut, old(Deliveries(records)), Deliveries(records), r)
      ensures liveOut == old(liveOut) + (if r.Some? then [r.value] else []) && (r.Some? ==> liveEvents != old(liveEvents))
      ensures Valid() && (r.Some? ==> r.value in adapter.Reported() && r.value.sessionId == sessionOrder[index])
    {
      hide Of, SessionOk, AllKnown, AllOk, AllReported, AllMatched, Provider.Valid, Provider.Reported,
           ProviderMessagePuller.Arrived, FirstOf, Without;
      ghost var buffered := liveEvents;
      r := TakeLiveEvent(sessionOrder[index]);
      FirstIsIn(buffered, sessionOrder[index]);
      if r.Some? {
        KnownIn(buffered, adapter.name, sessions.Keys, r.value);
        DeliverLive(index, r.value);
      }
    }

    method DeliverLive(index: nat, e: ProviderEvent)
      requires Valid() && started && index < |sessionOrder| && e in adapter.Reported()
      requires sessions[sessionOrder[index]].inFlight.None? && Belongs(e, adapter.name, sessionOrder[index])
      modifies `sessions, `records, `sessionCursor
      ensures View() == Issued(sessionOrder, old(View()), index, old(sessions)[sessionOrder[index]], e)
      ensures Valid() && Deliveries(records) == old(Deliveries(records))
    {
      hide Of, AllKnown, AllOk, AllReported, AllMatched, Provider.Valid, Provider.Reported, Deliveries,
           ProviderMessagePuller.LiveReported, ProviderMessagePuller.Arrived, NextIndex, ProviderMessagePuller.Asked;
      var session := sessionOrder[index];
      SessionAt(adapter.name, sessions, records, adapter.now, adapter.Reported(), session);
      var next := sessions[session].(inFlight := Some(e));
      ListedStays(sessionOrder, sessions, index, next);
      hide Listed;
      UpdateAll(adapter.name, sessions, records, adapter.now, adapter.Reported(), Asked(), session, next, records[session]);
      assert records[session := records[session]] == records;
      sessions := sessions[session := next];
      sessionCursor := NextIndex(index, |sessionOrder|);
    }

    /** Asking for a page moves the cursor on, whatever comes back. */
    method AskTurn(index: nat, now: nat) returns (r: Result<Option<HistoryPage>, PullFault>)
      requires Valid() && started && index < |sessionOrder| && sessions[sessionOrder[index]].historyScan.Some?
      modifies `sessions, `records, `sessionCursor
      modifies adapter`queries, adapter`reports, adapter`asked
      ensures adapter.Valid() && Heard() && |adapter.asked| == |old(adapter.asked)| + 1
              && old(adapter.asked) <= adapter.asked
      ensures r.Ok? ==> Valid() && Deliveries(records) == old(Deliveries(records))
      ensures r.Ok? ==> View() == AfterAsk(config, sessionOrder, old(View()), index, now, r.value)
      ensures r.Ok? ==> adapter.asked == old(adapter.asked)
                        + [QueryOf(sessionOrder[index], old(sessions)[sessionOrder[index]].historyScan.value, r.value)]
      ensures r.Err? ==> sessions == old(sessions) && records == old(records) && Blamed(r.error, true)
                         && sessionCursor == old(sessionCursor)
    {
      hide Of, SessionOk, AllReported, AllKnown, StateReported, Provider.Valid, Provider.Reported, AllOk, AllMatched,
           Deliveries, PageAdded, Answered, QueryOf, NextIndex, ProviderMessagePuller.Asked, ProviderMessagePuller.Arrived;
      var session := sessionOrder[index];
      assert session in sessions;
      ghost var before := sessions;
      r := FetchHistoryPage(session, now);
      if r.Ok? {
        ListedStays(sessionOrder, before, index, sessions[session]);
        hide Listed;
        AnsweredReported(old(sessions), session, r.value, now + config.historyRetryDelayMs, old(adapter.Reported()),
            adapter.Reported());
        sessionCursor := NextIndex(index, |sessionOrder|);
      }
    }

    /** What the puller is waiting to have acknowledged. */
    ghost function InFlights(): map<string, ProviderEvent>
      reads `sessions
    {
      Outstanding(sessions)
    }

    /** One turn of the loop in `take_message`. */
    method Visit(index: nat, now: nat) returns (r: Result<Option<ProviderEvent>, PullFault>, ghost turn: Turned)
      requires Valid() && started && index < |sessionOrder|
      modifies `sessions, `records, `sessionCursor, `liveEvents, `liveOut
      modifies adapter`queries, adapter`reports, adapter`asked
      ensures adapter.Valid() && Heard() && started && sessionOrder == old(sessionOrder)
      ensures r.Ok? ==> Valid() && turn == VisitOf(config, sessionOrder, old(View()), index, now, turn.Page())
      ensures r.Ok? ==> View() == turn.next && r.value == turn.event
                        && (r.value.Some? ==> r.value.value in adapter.Reported())
      ensures r.Ok? ==> Told(old(liveOut), liveOut, old(Deliveries(records)), Deliveries(records), r.value)
      ensures old(adapter.asked) <= adapter.asked
      ensures r.Ok? ==> adapter.asked == old(adapter.asked) + QueryAt(sessionOrder, old(View()), index, turn)
      ensures r.Ok? && r.value.Some? ==> r.value.value.sessionId == sessionOrder[index]
      ensures r.Ok? ==> (liveOut == old(liveOut) <==> liveEvents == old(liveEvents))
      ensures r.Err? ==> sessions == old(sessions) && liveOut == old(liveOut) && records == old(records)
                         && Blamed(r.error, true)
                         && sessionCursor == old(sessionCursor)
    {
      hide Of, Deliveries, Buffered, Accounted, LiveReported, SessionsReported, Matched, FirstOf, Without;
      hide Provider.Valid, Provider.Reported;
      var session := sessionOrder[index];
      ghost var before := View();
      turn := Turned(before, None, None);
      if sessions[session].inFlight.Some? {
        return Ok(None), turn;
      }
      if sessions[session].historyEvents != [] {
        var e := HandHistory(index);
        return Ok(Some(e)), Turned(View(), Some(e), None);
      }
      ghost var answer: Option<Option<HistoryPage>> := None;
      if sessions[session].historyScan.Some? && now >= sessions[session].nextHistoryAtMs {
        var fetched := AskTurn(index, now);
        if fetched.Err? {
          return Err(fetched.error), turn;
        }
        answer := Some(fetched.value);
        if sessions[session].historyEvents != [] {
          var e := HandHistory(index);
          return Ok(Some(e)), Turned(View(), Some(e), answer);
        }
      }
      if sessions[session].historyScan.None? {
        var live := HandLive(index);
        return Ok(live), Turned(View(), live, answer);
      }
      return Ok(None), Turned(View(), None, answer);
    }

    /** Before and after one live event: is the stream broken, and has it reconnected? */
    method Prepare() returns (r: Result<(), PullFault>)
      requires Valid() && started
      modifies `sessions, `records, `streamGeneration, `liveEvents
      modifies adapter`step, adapter`generation, adapter`checks, adapter`now, adapter`reports, adapter`given, adapter`polls
      ensures adapter.Valid() && Heard() && started && old(adapter.given) <= adapter.given
      ensures r.Ok? ==> Valid()
      ensures Ordered() && Drifted()
      ensures InFlights() == old(InFlights()) && Deliveries(records) == old(Deliveries(records))
      ensures r.Err? ==> Blamed(r.error, old(streamGeneration) <= old(adapter.generation))
      ensures r.Ok? ==> adapter.checks == old(adapter.checks) + [false, false]
      ensures old(streamGeneration) <= streamGeneration && (r.Ok? ==> streamGeneration == adapter.generation)
      ensures r.Ok? ==> if streamGeneration == old(streamGeneration) then sessions == old(sessions) else AllOpen(sessions)
      ensures r.Ok? ==> liveEvents == old(liveEvents) + adapter.given[|old(adapter.given)|..]
      ensures r.Ok? ==> adapter.polls == old(adapter.polls) + (if |old(liveEvents)| < config.eventQueueSize then 1 else 0)
    {
      hide ProviderMessagePuller.Valid, ProviderMessagePuller.InFlights, ProviderMessagePuller.Ordered, Deliveries,
           Provider.Valid, Provider.Reported, Provider.Honest, AllOpen, Breaks, Reconnects, CountsBack,
           ProviderMessagePuller.Accounted, Belongs;
      r := FollowStream();
      ValidParts();
      if r.Err? {
        return;
      }
      r := CollectLiveEvent();
      if r.Err? {
        return;
      }
      r := FollowStream();
      ValidParts();
    }

    lemma ValidParts()
      requires Valid()
      ensures adapter.Valid() && Ordered() && Accounted()
    {}

    /** A look at the stream: a handoff if it has reconnected. */
    method FollowStream() returns (r: Result<(), PullFault>)
      requires Valid() && started
      modifies `sessions, `records, `streamGeneration, adapter`step, adapter`generation, adapter`checks, adapter`now
      ensures Valid() && started && InFlights() == old(InFlights()) && Deliveries(records) == old(Deliveries(records))
      ensures r.Err? ==> Blamed(r.error, old(streamGeneration) <= old(adapter.generation))
      ensures Drifted() && (r.Ok? ==> adapter.checks == old(adapter.checks) + [false])
      ensures old(streamGeneration) <= streamGeneration && (r.Ok? ==> streamGeneration == adapter.generation)
      ensures if r.Err? || streamGeneration == old(streamGeneration) then sessions == old(sessions) else AllOpen(sessions)
    {
      hide Of, SessionOk, AllOk, AllMatched, Deliveries, Outstanding, Provider.Valid, Provider.Reported, Breaks, Reconnects,
           CountsBack;
      r := CheckStream();
      if r.Err? {
        return;
      }
      r := ScheduleReconnectHandoff();
      HandoverFrame(old(sessions), old(records), sessions, config, adapter.now, adapter.Reported());
    }

    /** The loop of `take_message`: the turns of a round, each as the sessions, the cursor and the answers decide. */
    method GoRound(now: nat) returns (r: Result<Option<ProviderEvent>, PullFault>, ghost turns: seq<Turned>)
      requires Valid() && started
      modifies `sessions, `records, `sessionCursor, `liveEvents, `liveOut
      modifies adapter`queries, adapter`reports, adapter`asked
      ensures adapter.Valid() && Heard() && started && sessionOrder == old(sessionOrder)
      ensures old(adapter.asked) <= adapter.asked
      ensures r.Ok? ==> Valid()
      ensures Ordered()
      ensures r.Err? ==> Blamed(r.error, true)
      ensures r.Ok? ==> RoundRan(config, sessionOrder, old(View()), turns, now, View(),
              adapter.asked[|old(adapter.asked)|..], r.value)
      ensures r.Ok? && r.value.Some? ==> r.value.value in adapter.Reported()
                                         && Past(sessionOrder, sessionCursor, r.value.value)
      ensures Taken(InFlights(), old(InFlights()), r)
      ensures Told(old(liveOut), liveOut, old(Deliveries(records)), Deliveries(records), if r.Ok? then r.value else None)
      ensures LiveLast(old(liveOut), liveOut, sessions, r)
      ensures r.Ok? && liveOut != old(liveOut) && adapter.asked == old(adapter.asked) ==> Quiescent(old(sessions), r)
      ensures r == Ok(None) ==> LookedOrDue(sessionOrder, old(View()), turns, now)
                                && LeavesFor(sessionOrder, old(View()), turns, now, View())
      ensures r == Ok(None) && adapter.asked == old(adapter.asked) ==> AllIdle(View(), now)
    {
      hide Of, Outstanding, Deliveries, Buffered, Accounted, Matched, LiveReported, SessionsReported, Provider.Valid,
           Provider.Reported;
      hide Provider.Honest, VisitOf, QueryAt, CanAct, TurnOk, QueriesOf, LookedOrDue, LeavesFor, AllIdle;
      var n := |sessionOrder|;
      NothingAskedYet(sessionOrder, View());
      ghost var p := View();
      turns := [];
      for offset := 0 to n
        invariant Valid() && Heard() && started && sessionOrder == old(sessionOrder) && n == |sessionOrder|
        invariant |turns| == offset && Trace(config, sessionOrder, p, turns, now) && View() == Before(p, turns, offset)
        invariant forall k :: 0 <= k < |turns| ==> turns[k].event.None?
        invariant adapter.asked == old(adapter.asked) + QueriesOf(sessionOrder, p, turns)
        invariant Outstanding(sessions) == Outstanding(p.sessions) && liveOut == old(liveOut)
                  && liveEvents == old(liveEvents)
        invariant Deliveries(records) == old(Deliveries(records))
        invariant adapter.asked == old(adapter.asked) ==> sessions == old(sessions)
      {
        ghost var b := View();
        var index := Turn(sessionCursor, offset, n);
        var visited;
        ghost var turn;
        visited, turn := Visit(index, now);
        if visited.Err? {
          return Err(visited.error), turns;
        }
        TraceGrows(config, sessionOrder, p, turns, now, turn);
        VisitTold(config, sessionOrder, b, index, now, turn, visited);
        turns := turns + [turn];
        if visited.value.Some? {
          ServedIsPast(config, sessionOrder, b, index, now, turn.Page());
          return Ok(visited.value), turns;
        }
      }
      NothingHandedOut(config, sessionOrder, p, turns, now, View(), adapter.asked[|old(adapter.asked)|..]);
      return Ok(None), turns;
    }

    /**
     `take_message`. An event is delivered only for a session with none outstanding, and becomes that
     session's outstanding event; it is the next one of its history queue or of the live buffer, and leaves
     it; a live one only after the session's history is done, a reconnect noticed in the same call
     included. What happens is the round that the sessions, the cursor and the provider's answers decide
     (`ready` is what it starts from, `turns` its turns). None means that no session had anything to do, if
     no history was asked for; it means that every session was looked at exactly if none but perhaps the
     last in line was due.
     */
    method TakeMessage() returns (r: Result<Option<ProviderEvent>, PullFault>, ghost ready: Pull, ghost turns: seq<Turned>)
      requires Valid()
      modifies `sessions, `records, `streamGeneration, `liveEvents, `sessionCursor, `liveOut
      modifies adapter`step, adapter`generation, adapter`checks, adapter`now, adapter`reports, adapter`given, adapter`asked
      modifies adapter`polls, adapter`queries
      ensures Ordered() && Drifted()
      ensures adapter.Valid() && Heard() && started == old(started) && (r.Ok? ==> Valid() && started)
      ensures Taken(InFlights(), old(InFlights()), r)
      ensures r.Ok? && r.value.Some? ==> r.value.value in adapter.Reported()
                                         && Past(sessionOrder, sessionCursor, r.value.value)
      ensures r.Err? ==> if old(started) then Blamed(r.error, old(streamGeneration) <= old(adapter.generation))
                         else r.error == NotStarted
      ensures LiveLast(old(liveOut), liveOut, sessions, r)
      ensures Told(old(liveOut), liveOut, old(Deliveries(records)), Deliveries(records), if r.Ok? then r.value else None)
      ensures r.Ok? ==> streamGeneration == adapter.generation && adapter.checks == old(adapter.checks) + [false, false]
      ensures r.Ok? && streamGeneration != old(streamGeneration) && liveOut != old(liveOut)
              ==> adapter.asked != old(adapter.asked)
      ensures old(adapter.given) <= adapter.given && old(adapter.asked) <= adapter.asked
      ensures r.Ok? ==> ready.cursor == old(sessionCursor)
                        && ready.live == old(liveEvents) + adapter.given[|old(adapter.given)|..]
      ensures r.Ok? && streamGeneration == old(streamGeneration) ==> ready.sessions == old(sessions)
      ensures r.Ok? ==> RoundRan(config, sessionOrder, ready, turns, adapter.now, View(),
              adapter.asked[|old(adapter.asked)|..], r.value)
      ensures r == Ok(None) ==> LookedOrDue(sessionOrder, ready, turns, adapter.now)
                                && LeavesFor(sessionOrder, ready, turns, adapter.now, View())
      ensures r == Ok(None) && adapter.asked == old(adapter.asked) ==> AllIdle(View(), adapter.now)
      ensures r.Ok? ==> adapter.polls == old(adapter.polls) + (if |old(liveEvents)| < config.eventQueueSize then 1 else 0)
    {
      hide ProviderMessagePuller.Valid, ProviderMessagePuller.InFlights, ProviderMessagePuller.Ordered, Deliveries,
           Provider.Valid, Provider.Reported, Provider.Honest, RoundRan, LookedOrDue, LeavesFor, AllIdle, Belongs,
           Breaks, Reconnects, CountsBack, ProviderMessagePuller.Accounted, Past;
      ValidParts();
      ready, turns := View(), [];
      if !started {
        return Err(NotStarted), ready, turns;
      }
      var prepared := Prepare();
      if prepared.Err? {
        return Err(prepared.error), ready, turns;
      }
      ValidParts();
      var now := ReadClock();
      ready := View();
      r, turns := GoRound(now);
    }

    /** `acknowledge`: succeeds exactly for the event outstanding in its session, which it clears. */
    method Acknowledge(e: ProviderEvent) returns (r: Result<(), PullFault>)
      requires Valid()
      modifies `sessions, `records, `acks
      ensures Valid()
      ensures r.Ok? <==> e.provider == adapter.name && e.sessionId in old(InFlights())
                         && old(InFlights())[e.sessionId].messageId == e.messageId
      ensures r.Ok? ==> InFlights() == old(InFlights()) - {e.sessionId}
      ensures r.Ok? ==> e.sessionId in old(sessions) && e.sessionId in old(records)
                        && sessions == old(sessions)[e.sessionId := Acknowledged(old(sessions)[e.sessionId], e)]
                        && records == old(records)[e.sessionId :=
                                        old(records)[e.sessionId].(acked := old(records)[e.sessionId].acked + [e])]
      ensures r.Ok? ==> e.sessionId in old(acks) && acks == old(acks)[e.sessionId := old(acks)[e.sessionId] + [e]]
      ensures r.Ok? ==> e.sessionId in sessions && e.sessionId in old(sessions)
                        && Freed(old(sessions)[e.sessionId], sessions[e.sessionId], e.eventMs)
      ensures r.Err? ==> sessions == old(sessions) && records == old(records) && acks == old(acks)
    {
      hide Of, AllKnown, AllOk, AllReported, AllMatched, SessionOk, Listed, Asked, Arrived, Freed, Acknowledged;
      if e.provider != adapter.name {
        return Err(WrongProvider);
      }
      if e.sessionId !in sessions {
        return Err(UnknownSession);
      }
      var state := sessions[e.sessionId];
      SessionAt(adapter.name, sessions, records, adapter.now, adapter.Reported(), e.sessionId);
      if state.inFlight.None? || EventId(state.inFlight.value) != EventId(e) {
        return Err(NotInFlight);
      }
      var next := Acknowledged(state, e);
      AcknowledgedIsFreed(state, e);
      AcknowledgedKeeps(adapter.name, e.sessionId, state, records[e.sessionId], adapter.now, e);
      ghost var h := records[e.sessionId].(acked := records[e.sessionId].acked + [e]);
      UpdateAll(adapter.name, sessions, records, adapter.now, adapter.Reported(), Asked(), e.sessionId, next, h);
      SameListed(sessionOrder, sessions, sessions[e.sessionId := next]);
      OutstandingAcknowledged(sessions, e.sessionId, e);
      sessions := sessions[e.sessionId := next];
      records := records[e.sessionId := h];
      acks := acks[e.sessionId := acks[e.sessionId] + [e]];
      return Ok(());
    }
  }

  ghost predicate InOrder(order: seq<string>) { forall i, j :: 0 <= i < j < |order| ==> TextLess(order[i], order[j]) }

  /** The cursor is one past the session of the event. */
  ghost predicate Past(order: seq<string>, cursor: nat, e: ProviderEvent) {
    exists i: nat :: i < |order| && order[i] == e.sessionId && cursor == if i + 1 == |order| then 0 else i + 1
  }

  /** After an acknowledgement nothing is outstanding, and the confirmed time is the later one. */
  ghost predicate Freed(before: SessionPullState, after: SessionPullState, ms: int) {
    && after.inFlight == None && after.confirmedEventMs.Some? && ms <= after.confirmedEventMs.value
    && (before.confirmedEventMs.Some? ==> before.confirmedEventMs.value <= after.confirmedEventMs.value)
    && (after.confirmedEventMs == Some(ms) || after.confirmedEventMs == before.confirmedEventMs)
    && after.historyScan == before.historyScan && after.historyEvents == before.historyEvents
    && after.historyHighwaterMs == before.historyHighwaterMs && after.nextHistoryAtMs == before.nextHistoryAtMs
  }

  /** The query asks for the window of the scan, and with its token. */
  ghost predicate AskedAs(q: Query, session: string, scan: HistoryScan) {
    q.session == session && q.startMs == scan.startMs && q.endMs == scan.endMs && q.token == scan.pageToken
  }

  /** After a temporary failure only the time of the next query has changed. */
  ghost predicate RetriedLater(before: SessionPullState, after: SessionPullState, at: int) {
    && after.nextHistoryAtMs == at && after.historyScan == before.historyScan
    && after.historyEvents == before.historyEvents && after.inFlight == before.inFlight
    && after.confirmedEventMs == before.confirmedEventMs && after.historyHighwaterMs == before.historyHighwaterMs
  }

  lemma AcknowledgedIsFreed(st: SessionPullState, e: ProviderEvent)
    ensures Freed(st, Acknowledged(st, e), e.eventMs)
  {}

  lemma PageIsQueued(st: SessionPullState, page: HistoryPage)
    requires st.historyScan.Some? && 0 <= st.historyScan.value.endMs
    ensures PageQueued(st, PageAdded(st, page), page)
  {}

  /** After a page its events are at the end of the queue, the scan is at the page's token or done, and the next query may
      follow at once. */
  ghost predicate PageQueued(before: SessionPullState, after: SessionPullState, page: HistoryPage) {
    && before.historyScan.Some? && after.historyEvents == before.historyEvents + page.events
    && after.nextHistoryAtMs == 0 && after.inFlight == before.inFlight && after.confirmedEventMs == before.confirmedEventMs
    && var w := before.historyScan.value;
    match page.nextPageToken
    case Some(token) =>
      && after.historyScan == Some(HistoryScan(w.startMs, w.endMs, Some(token)))
      && after.historyHighwaterMs == before.historyHighwaterMs
    case None =>
      && after.historyScan == None && after.historyHighwaterMs.Some? && w.endMs <= after.historyHighwaterMs.value
      && (before.historyHighwaterMs.Some? ==> before.historyHighwaterMs.value <= after.historyHighwaterMs.value)
  }

  /** A delivered event is the only new one outstanding, in a session that had none. */
  ghost predicate Taken(now: map<string, ProviderEvent>, before: map<string, ProviderEvent>,
                        r: Result<Option<ProviderEvent>, PullFault>)
  {
    match r
    case Ok(Some(e)) => e.sessionId !in before && now == before[e.sessionId := e]
    case _ => now == before
  }

  /** A live event is delivered only in a session with neither an open scan nor queued history. */
  ghost predicate LiveLast(before: seq<ProviderEvent>, after: seq<ProviderEvent>, sessions: map<string, SessionPullState>,
                           r: Result<Option<ProviderEvent>, PullFault>)
  {
    after == before
    || (r.Ok? && r.value.Some? && after == before + [r.value.value] && r.value.value.sessionId in sessions
        && sessions[r.value.value.sessionId].historyScan.None? && sessions[r.value.value.sessionId].historyEvents == [])
  }

  /** What is handed out is noted once: as a live event or as one of its session's history. */
  ghost predicate Told(live0: seq<ProviderEvent>, live1: seq<ProviderEvent>, history0: map<string, seq<ProviderEvent>>,
                       history1: map<string, seq<ProviderEvent>>, r: Option<ProviderEvent>)
  {
    match r
    case Some(e) =>
      || (live1 == live0 + [e] && history1 == history0)
      || (live1 == live0 && e.sessionId in history0 && history1 == history0[e.sessionId := history0[e.sessionId] + [e]])
    case None => live1 == live0 && history1 == history0
  }

  /** The session of the delivered event had no open window. */
  ghost predicate Quiescent(sessions: map<string, SessionPullState>, r: Result<Option<ProviderEvent>, PullFault>) {
    r.Ok? && r.value.Some? && r.value.value.sessionId in sessions && sessions[r.value.value.sessionId].historyScan.None?
  }

  /** What a turn tells about the events outstanding and the live buffer. */
  lemma VisitTold(config: SyncConfig, order: seq<string>, p: Pull, index: nat, now: int, t: Turned,
                  r: Result<Option<ProviderEvent>, PullFault>)
    requires index < |order| && order[index] in p.sessions && t == VisitOf(config, order, p, index, now, t.Page())
    requires r == Ok(t.event) && (t.event.Some? ==> t.event.value.sessionId == order[index])
    ensures Taken(Outstanding(t.next.sessions), Outstanding(p.sessions), r)
    ensures t.event.None? ==> t.next.live == p.live
    ensures t.next.live != p.live ==> t.event.Some? && t.next.sessions[order[index]].historyScan.None?
                                      && t.next.sessions[order[index]].historyEvents == []
    ensures QueryAt(order, p, index, t) == [] ==> t.answer.None?
    ensures t.answer.None? && t.event.None? ==> t.next == p
    ensures t.answer.None? && t.next.live != p.live ==> Quiescent(p.sessions, r)
  {
    hide VisitOf;
    VisitFacts(config, order, p, index, now, t.Page());
  }

  /** `sorted` on session ids. */
  method SortedKeys(keys: set<string>) returns (order: seq<string>)
    ensures forall s :: s in order <==> s in keys
    ensures InOrder(order) && forall i, j :: 0 <= i < j < |order| ==> order[i] != order[j]
  {
    order := [];
    var rest := keys;
    while rest != {}
      invariant rest <= keys && forall s :: s in order <==> s in keys && s !in rest
      invariant forall i, j :: 0 <= i < j < |order| ==> TextLess(order[i], order[j])
      invariant forall s, t :: s in order && t in rest ==> TextLess(s, t)
      decreases rest
    {
      var s := LeastKey(rest);
      order, rest := order + [s], rest - {s};
    }
    forall i, j | 0 <= i < j < |order| ensures order[i] != order[j] {
      TextTotal(order[i], order[i]);
    }
  }

  ghost predicate IsLeastKey(keys: set<string>, s: string) {
    s in keys && forall t :: t in keys ==> t == s || TextLess(s, t)
  }

  method LeastKey(keys: set<string>) returns (s: string)
    requires keys != {}
    ensures IsLeastKey(keys, s)
  {
    LeastKeyExists(keys);
    s :| s in keys && forall t | t in keys :: t == s || TextLess(s, t);
  }

  lemma {:induction false} LeastKeyExists(keys: set<string>)
    requires keys != {}
    ensures exists s :: IsLeastKey(keys, s)
    decreases keys
  {
    var s :| s in keys;
    var rest := keys - {s};
    if rest == {} {
      assert forall t :: t in keys ==> t == s || t in rest;
      assert IsLeastKey(keys, s);
    } else {
      LeastKeyExists(rest);
      var least :| IsLeastKey(rest, least);
      TextTotal(s, least);
      if TextLess(s, least) {
        forall t | t in keys ensures t == s || TextLess(s, t) {
          if t != s && t != least { TextTransitive(s, least, t); }
        }
        assert IsLeastKey(keys, s);
      } else {
        assert IsLeastKey(keys, least);
      }
    }
  }
}
