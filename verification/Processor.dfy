/**
 The single-threaded worker: one tick handles at most one request or one
 provider event, taking the two in turns. Every tick is a run of the
 transition system.
 */
module Processor {
  import opened Common
  import opened Wire
  import opened Mapping
  import opened Memory
  import opened Queue
  import opened Replay
  import opened System
  import opened Contents
  import opened Client
  import opened Adapter
  import opened Sessions
  import opened Rounds
  import opened Puller
  import opened Refine

  /** Why a tick ends the worker. */
  datatype Fatal =
    | PullFailed(fault: PullFault)
    | SessionNotMapped
    | SenderNotMapped
    | NoBotMapping
    | NoAdapter
    | SendRaised
    | SendFailed
    | TooLarge
    | PublishGaveUp
    | StoppedInRetry

  /** What a tick did; `tick` returns true for the last two. */
  datatype Work = Halted | Nothing | Outbound(task: Task) | Inbound(event: ProviderEvent)

  /** One tick: how many entries the log had and how many had been read, which calls it made to the server, how it
      ended, whose turn it was and is next, the memory before and after, and the queue of events once it had
      collected and at its end. */
  datatype TickRecord = TickRecord(logged: nat, read: nat, callsFrom: nat, callsTo: nat,
                                   outcome: Result<Work, Fatal>, turn: nat, nextTurn: nat,
                                   before: Mem, after: Mem, queue: seq<ProviderEvent>, rest: seq<ProviderEvent>)
  {
    /** It did what a tick that does not fail does. */
    ghost predicate Went(ix: Index) {
      outcome.Ok? && turn < 2 && Progress(ix, outcome.value, turn, nextTurn, before, after, queue, rest)
    }
  }

  /** The event's record is noted as written. */
  predicate SeenRecord(ix: Index, seen: set<InboundKey>, e: ProviderEvent) {
    var c := ix.ChannelFor(e.provider, e.sessionId);
    c.Some? && EventKey(e, c.value) in seen
  }

  /** Nothing has been acknowledged that was not recorded. */
  ghost predicate AllRecorded(ix: Index, seen: set<InboundKey>, acks: map<string, seq<ProviderEvent>>) {
    forall s, e :: s in acks && e in acks[s] ==> SeenRecord(ix, seen, e)
  }

  lemma RecordedStill(ix: Index, seen: set<InboundKey>, more: set<InboundKey>, acks: map<string, seq<ProviderEvent>>)
    requires AllRecorded(ix, seen, acks) && seen <= more
    ensures AllRecorded(ix, more, acks)
  {
    forall s, e | s in acks && e in acks[s] ensures SeenRecord(ix, more, e) {
      assert SeenRecord(ix, seen, e);
    }
  }

  lemma OneMoreRecorded(ix: Index, seen: set<InboundKey>, acks: map<string, seq<ProviderEvent>>, e: ProviderEvent)
    requires AllRecorded(ix, seen, acks) && e.sessionId in acks && SeenRecord(ix, seen, e)
    ensures AllRecorded(ix, seen, acks[e.sessionId := acks[e.sessionId] + [e]])
  {}

  /** The event's channel has a request waiting. */
  predicate Waits(ix: Index, m: Mem, e: ProviderEvent) {
    var c := ix.ChannelFor(e.provider, e.sessionId);
    c.Some? && m.ChannelHasPending(c.value)
  }

  /** The event's sender is nobody in its channel. */
  predicate NoSender(ix: Index, e: ProviderEvent) {
    var c := ix.ChannelFor(e.provider, e.sessionId);
    c.Some? && ix.PrincipalFor(c.value, e.provider, e.senderId, e.identityType).None?
  }

  /** The provider did not say under which id the message was sent. */
  predicate Unusable(a: SendAnswer) {
    a.Answer? && (!a.success || a.messageId.None? || a.messageId.value == "")
  }

  ghost predicate Untold(m: Move) { exists id :: Unusable(AnswerTo(m, id)) }

  /** What a failed retry loop is to the tick. */
  function FatalOf(e: RetryError): Fatal {
    match e
    case Exhausted => TooLarge
    case FatalPublish => PublishGaveUp
    case Stopped => StoppedInRetry
  }

  function BotOf(ix: Index, task: Task): Option<string> { ix.SenderExternalId(task.channelId, task.principal, "bot") }

  /** A retry loop ended without its draft being acknowledged or refused as too large. */
  ghost predicate GaveUp(calls: seq<Call>, maxAttempts: nat) {
    exists n: nat, d :: n <= |calls| && Retries(d, calls[..n], calls, maxAttempts, Err(FatalPublish))
  }

  class SingleThreadProcessor {
    const mapping: Index
    const adapter: Provider
    const puller: ProviderMessagePuller
    const publisher: Publisher
    const server: OpenEvent
    const workerPrincipal: nat
    const state: RuntimeState
    const pendingEventLimit: nat
    var pendingEvents: seq<ProviderEvent>
    var workTurn: nat
    /** Every tick so far. */
    ghost var ticks: seq<TickRecord>

    constructor (mapping: Index, puller: ProviderMessagePuller, publisher: Publisher, workerPrincipal: nat,
                 state: RuntimeState)
      requires puller.Valid() && publisher.client.server.Valid() && puller.InFlights() == map[]
      requires publisher.client.server.env == puller.adapter.env
               && puller.adapter.env.site == Site(mapping, workerPrincipal)
      requires state.View() == EMPTY_MEM && puller.acks == map[]
      ensures Valid() && pendingEvents == [] && ticks == [] && this.puller == puller && this.state == state
      ensures pendingEventLimit == puller.config.eventQueueSize
      ensures this.publisher == publisher && this.mapping == mapping && adapter == puller.adapter
              && server == publisher.client.server
    {
      this.mapping, this.adapter, this.puller, this.publisher := mapping, puller.adapter, puller, publisher;
      this.server, this.workerPrincipal, this.state := publisher.client.server, workerPrincipal, state;
      pendingEventLimit := puller.config.eventQueueSize;
      pendingEvents, workTurn, ticks := [], 0, [];
      new;
      EmptyPartition();
    }

    /** Every part refers to the same provider, server and site. */
    ghost predicate Linked() {
      && puller.adapter == adapter && publisher.client.server == server && server.env == adapter.env
      && adapter.env.site == Site(mapping, workerPrincipal)
    }

    ghost predicate Valid()
      reads `pendingEvents, `workTurn, puller, state, server`log, server`own, server`reported
      reads adapter`reports, adapter`sends, adapter`now, adapter`asked, adapter`given, adapter`polls, adapter`queries
    {
      && Linked() && puller.Valid() && server.Valid()
      && state.View().Partition() && state.View().blocked == map[]
      && Joint(pendingEvents, puller.InFlights())
      && workTurn < 2 && AllRecorded(mapping, state.View().inboundSeen, puller.acks)
    }

    /** The worker as the transition system sees it, having read `n` entries. */
    ghost function Abs(n: nat): State
      reads state, server`log, adapter`sends
    {
      State(server.log, adapter.sends, Up(state.View(), n, Idle))
    }

    /** The same once the worker is gone. */
    ghost function Dead(): State
      reads server`log, adapter`sends
    {
      State(server.log, adapter.sends, Down)
    }

    ghost predicate Honest()
      reads server`log, server`own, adapter`reports, adapter`sends
    {
      server.Honest() && adapter.Honest()
    }

    /** The log, the sends and what was answered only grow, and lost honesty stays lost. */
    twostate predicate Advanced()
      reads server`log, server`own, server`script, server`calls, adapter`reports, adapter`sends
    {
      server.Onward() && old(adapter.sends) <= adapter.sends && (adapter.Honest() ==> old(adapter.Honest()))
    }

    /** The outcome of part of a tick, as a run. */
    twostate predicate Ran(n: nat, fine: bool)
      reads state, server`log, server`own, adapter`reports, adapter`sends
    {
      Refines(adapter.env, Honest(), old(Abs(n)), if fine then Abs(n) else Dead())
    }

    /** Nothing has been pulled, sent or written. */
    twostate predicate Untouched()
      reads puller, state, adapter, server`log
    {
      server.log == old(server.log) && unchanged(puller, state, adapter)
    }

    /** What was acknowledged since: one event, or nothing. */
    twostate predicate Acked(new r: Option<ProviderEvent>)
      reads puller`acks
    {
      match r
      case None => puller.acks == old(puller.acks)
      case Some(e) =>
        && e.sessionId in old(puller.acks)
        && puller.acks == old(puller.acks)[e.sessionId := old(puller.acks)[e.sessionId] + [e]]
    }

    /** What a failure comes from: the provider, the mapping, the server's answers, or the stop flag. */
    ghost predicate From(f: Fatal, queue: seq<ProviderEvent>, requests: map<string, Task>)
      reads puller`started, puller`sessions, puller.adapter`given, puller.adapter`asked, adapter`step
      reads server`calls, server`stopSet
    {
      match f
      case PullFailed(fault) => if puller.started then puller.Blamed(fault, false) else fault == NotStarted
      case SessionNotMapped => exists e :: e in queue && mapping.ChannelFor(e.provider, e.sessionId).None?
      case SenderNotMapped => exists e :: e in queue && NoSender(mapping, e)
      case NoBotMapping => exists id :: id in requests && BotOf(mapping, requests[id]).None?
      case NoAdapter => exists id :: id in requests && mapping.Session(requests[id].channelId).0 != adapter.name
      case SendRaised => adapter.step > 0 && AnswerTo(MoveAt(adapter.moves, adapter.step - 1), "").Raised?
      case SendFailed => adapter.step > 0 && Untold(MoveAt(adapter.moves, adapter.step - 1))
      case TooLarge => server.calls != [] && server.calls[|server.calls| - 1].Failure() == Some(ResourceExhausted)
      case PublishGaveUp => GaveUp(server.calls, publisher.maxAttempts)
      case StoppedInRetry => server.stopSet
    }

    lemma FromPuller(fault: PullFault, level: bool)
      requires if puller.started then puller.Blamed(fault, level) else fault == NotStarted
      ensures From(PullFailed(fault), [], map[])
    {
      if puller.started {
        puller.LessBlame(fault, level);
      }
    }

    /** It comes from there all the more if there is more in the queue and in the memory. */
    lemma FromMore(f: Fatal, queue: seq<ProviderEvent>, all: seq<ProviderEvent>, requests: map<string, Task>)
      requires From(f, queue, map[]) && forall e :: e in queue ==> e in all
      ensures From(f, all, requests)
    {}

    /** A request whose bot has no id with the provider, or whose channel is another provider's. */
    lemma NotSendable(m: Mem, next: Mem, task: Task)
      requires NextPending(m, next, Some(task))
      ensures BotOf(mapping, task).None? ==> From(NoBotMapping, [], m.requests)
      ensures mapping.Session(task.channelId).0 != adapter.name ==> From(NoAdapter, [], m.requests)
    {
      assert m.requests[task.requestId] == task;
    }

    lemma AdapterValid()
      requires Linked() && puller.Valid()
      ensures adapter.Valid()
    {}

    lemma PartsValid()
      requires Valid()
      ensures Linked() && server.Valid() && adapter.Valid() && workTurn < 2
    {}

    /** `_publish_with_retry`. */
    method PublishWithRetry(d: Draft) returns (r: Result<nat, RetryError>)
      requires Linked() && server.Valid()
      modifies server
      ensures server.Valid() && server.Onward()
      ensures Grew(adapter.env, server.Honest(), old(server.log), old(server.own), server.log, server.own)
      ensures AtMostOneCopy(old(server.log), old(server.own), server.log, server.own, d)
      ensures r.Ok? ==> Acknowledges(server.log, old(server.own), server.own, d, r.value)
      ensures r.Ok? || server.own != old(server.own) ==> d.payload.Encodes()
      ensures r == Err(Exhausted) ==> server.own == old(server.own)
      ensures r == Err(Stopped) ==> server.stopSet
      ensures r.Ok? ==> MatchesAt(server.log, r.value, d)
      ensures Retries(d, old(server.calls), server.calls, publisher.maxAttempts, r)
      ensures r.Ok? ==> NoRefusal(|old(server.calls)|)
      ensures r.Err? ==> From(FatalOf(r.error), [], map[])
      ensures r == Err(Exhausted) ==> |old(server.calls)| < |server.calls| && Refuses(server.calls[|server.calls| - 1], d)
    {
      hide Attributed, AtMostOneCopy, OthersDiffer, MatchesAt, Retries;
      ghost var calls := server.calls;
      r := publisher.PublishWithRetry(d);
      match r {
        case Ok(sn) => NoneRefuses(d, calls, server.calls, publisher.maxAttempts, sn);
        case Err(Exhausted) => LastRefuses(d, calls, server.calls, publisher.maxAttempts);
        case Err(FatalPublish) => assert server.calls[..|calls|] == calls;
        case _ =>
      }
    }

    /** Since its `n`-th call the server has not answered RESOURCE_EXHAUSTED. */
    ghost predicate NoRefusal(n: nat)
      reads server`calls
    {
      forall i :: n <= i < |server.calls| ==> server.calls[i].Failure() != Some(ResourceExhausted)
    }

    /** The looks at the stream that a collection without failure takes, if there is room for one. */
    function Looks(pending: nat): seq<bool> { if pending < pendingEventLimit then [false, false] else [] }

    /** `_collect_provider_messages`: at most one event more, which becomes its session's only one. */
    method CollectProviderMessages() returns (r: Result<(), Fatal>)
      requires Valid()
      modifies `pendingEvents, puller
      modifies adapter`step, adapter`generation, adapter`checks, adapter`now, adapter`reports
      modifies adapter`given, adapter`asked, adapter`polls, adapter`queries
      ensures server.Valid() && (if r.Ok? then Valid() else adapter.Valid())
              && (adapter.Honest() ==> old(adapter.Honest()))
      ensures r.Err? ==> r.error.PullFailed? && From(r.error, [], map[])
      ensures old(pendingEvents) <= pendingEvents && |pendingEvents| <= |old(pendingEvents)| + 1
      ensures |old(pendingEvents)| >= pendingEventLimit || r.Ok?
              ==> adapter.checks == old(adapter.checks) + Looks(|old(pendingEvents)|)
      ensures puller.acks == old(puller.acks)
      ensures r.Ok? && pendingEvents == old(pendingEvents) && adapter.asked == old(adapter.asked) ==>
                |pendingEvents| >= pendingEventLimit || AllIdle(puller.View(), adapter.now)
    {
      hide ProviderMessagePuller.Valid, ProviderMessagePuller.InFlights, OpenEvent.Valid, Provider.Valid, Mem.Partition;
      hide LiveLast, AllIdle, RoundRan, LookedOrDue, LeavesFor, Told, ProviderMessagePuller.View,
           ProviderMessagePuller.Ordered, ProviderMessagePuller.Blamed, SingleThreadProcessor.From;
      if |pendingEvents| >= pendingEventLimit {
        return Ok(());
      }
      var taken;
      ghost var ready, turns;
      taken, ready, turns := puller.TakeMessage();
      if taken.Err? {
        FromPuller(taken.error, old(puller.streamGeneration) <= old(adapter.generation));
        return Err(PullFailed(taken.error));
      }
      if taken.value.Some? {
        JointTaken(pendingEvents, old(puller.InFlights()), taken.value.value);
        pendingEvents := pendingEvents + [taken.value.value];
      }
      return Ok(());
    }

    /** The clock, for a timestamp. */
    method Now() returns (ms: nat)
      requires Linked() && puller.Valid()
      modifies adapter`step, adapter`now
      ensures puller.Valid() && ms == adapter.now
    {
      hide Of, Pages, Chain, SessionOk, AllOk, AllReported, AllKnown, Outstanding;
      ms := puller.ReadClock();
    }

    /** What a pending event must meet to be published. */
    ghost predicate Publishable(c: nat, e: ProviderEvent, principal: nat)
      reads state, adapter`reports
    {
      && mapping.ChannelFor(e.provider, e.sessionId) == Some(c)
      && mapping.PrincipalFor(c, e.provider, e.senderId, e.identityType) == Some(principal)
      && e in adapter.Reported() && EventKey(e, c) !in state.View().inboundSeen && !state.View().ChannelHasPending(c)
    }

    /** The record the worker writes for an event, full or lightweight. */
    ghost function RecordFor(c: nat, e: ProviderEvent, principal: nat, ms: nat, omitted: bool): Draft
      reads state`sendResultByProviderMessage
    {
      RecordDraft(adapter.env, e, c, principal, Get(state.sendResultByProviderMessage, EventKey(e, c)), ms, omitted)
    }

    /** That record is in the log, with the time that was last read from the clock. */
    ghost predicate Wrote(c: nat, e: ProviderEvent, principal: nat, omitted: bool)
      reads state`sendResultByProviderMessage, server`log, adapter`now
    {
      exists i :: 0 <= i < |server.log| && RecordOn(Unstamped(server.log[i]), c, e, principal, omitted)
                  && server.log[i].payload.SyncRecord? && server.log[i].payload.ingestedMs == adapter.now
    }

    /** The draft is a record of the event that points at the result which named its message, if one did. */
    ghost predicate RecordOn(d: Draft, c: nat, e: ProviderEvent, principal: nat, omitted: bool)
      reads state`sendResultByProviderMessage
    {
      Carries(mapping, d, c, e, principal, Get(state.sendResultByProviderMessage, (e.provider, e.sessionId, c, e.messageId)),
              omitted)
    }

    /** The server's `i`-th answer was RESOURCE_EXHAUSTED: to the publish of that record, or to the status asked for
        before it. */
    ghost predicate Refused(i: nat, c: nat, e: ProviderEvent, principal: nat, omitted: bool)
      reads state`sendResultByProviderMessage, server`calls
    {
      i < |server.calls| && exists d :: Refuses(server.calls[i], d) && RecordOn(d, c, e, principal, omitted)
    }

    /** Since the server's `n`-th call the full record was written and nothing refused, or it was turned down and the
        lightweight one written. */
    ghost predicate FullOrDegraded(n: nat, c: nat, e: ProviderEvent, principal: nat)
      reads state`sendResultByProviderMessage, server`log, server`calls, adapter`now
    {
      || (NoRefusal(n) && Wrote(c, e, principal, false))
      || exists i :: n <= i && Degraded(i, c, e, principal)
    }

    /** The full record was turned down by the `i`-th answer and then the lightweight one was written. */
    ghost predicate Degraded(i: nat, c: nat, e: ProviderEvent, principal: nat)
      reads state`sendResultByProviderMessage, server`log, server`calls, adapter`now
    {
      Refused(i, c, e, principal, false) && NoRefusal(i + 1) && Wrote(c, e, principal, true)
    }

    /** An honest provider's event may be published. */
    lemma PublishableMay(n: nat, c: nat, e: ProviderEvent, principal: nat)
      requires Linked() && puller.Valid() && Publishable(c, e, principal)
      ensures Honest() ==> MayRecord(adapter.env, Abs(n), e, c, principal)
    {
      hide EventOk;
      if Honest() {
        adapter.ReportedOk(e);
      }
    }

    /** `_publish_sync_record`, of the full record or of the lightweight one. */
    method PublishSyncRecord(ghost n: nat, c: nat, e: ProviderEvent, principal: nat, omitted: bool)
      returns (r: Result<(), Fatal>)
      requires Valid() && Publishable(c, e, principal)
      modifies server, adapter`step, adapter`now
      ensures Valid() && Publishable(c, e, principal) && Advanced() && (r == Err(StoppedInRetry) ==> server.stopSet)
      ensures r.Err? ==> r.error in {TooLarge, PublishGaveUp, StoppedInRetry} && From(r.error, [], map[])
      ensures r.Ok? ==> NoRefusal(|old(server.calls)|) && Wrote(c, e, principal, omitted)
      ensures r == Err(TooLarge) ==> |old(server.calls)| < |server.calls|
                                     && Refused(|server.calls| - 1, c, e, principal, omitted)
      ensures Refines(adapter.env, Honest(), old(Abs(n)),
                      if r.Ok? then AfterRecord(old(Abs(n)), server.log, e, c) else if r == Err(TooLarge) then Abs(n)
                          else Dead())
    {
      hide ProviderMessagePuller.Valid, ProviderMessagePuller.InFlights, OpenEvent.Valid, Provider.Valid, Mem.Partition,
           Joint;
      hide Inv, Reaches, CallerOk, EventOk, AtMostOneCopy, Acknowledges, MayRecord, Grew, RecordDraft, Refines, AfterRecord,
           Retries, Attributed, RuntimeState.View, SingleThreadProcessor.From, SingleThreadProcessor.Wrote;
      PublishableMay(n, c, e, principal);
      ghost var s, own0 := Abs(n), server.own;
      var ms := Now();
      var prev := Get(state.sendResultByProviderMessage, EventKey(e, c));
      var d := Draft(c, principal, SortedUnique(mapping.PeerPrincipals(c, principal)), RecordPayload(e, prev, ms, omitted));
      assert d == RecordOf(adapter.env, s, e, c, principal, ms, omitted) == RecordFor(c, e, principal, ms, omitted) by {
        DraftIsRecord(n, c, e, principal, ms, omitted);
      }
      var published := PublishWithRetry(d);
      GrewLess(adapter.env, server.Honest(), Honest(), s.log, own0, server.log, server.own);
      match published {
        case Ok(sn) =>
          assert Wrote(c, e, principal, omitted) by { DraftWritten(sn, c, e, principal, ms, omitted); }
          RecordPublished(adapter.env, Honest(), s, e, c, principal, ms, omitted, own0, server.log, server.own, sn);
          return Ok(());
        case Err(Exhausted) =>
          CallersOnly(adapter.env, Honest(), s, own0, server.log);
          assert RecordOn(d, c, e, principal, omitted) by { DraftIsRecordOn(c, e, principal, ms, omitted); }
          return Err(TooLarge);
        case Err(failure) =>
          RecordUnpublished(adapter.env, Honest(), s, e, c, principal, ms, omitted, own0, server.log, server.own);
          return Err(FatalOf(failure));
      }
    }

    lemma DraftIsRecord(n: nat, c: nat, e: ProviderEvent, principal: nat, ms: nat, omitted: bool)
      requires Linked()
      ensures RecordOf(adapter.env, Abs(n), e, c, principal, ms, omitted) == RecordFor(c, e, principal, ms, omitted)
              == Draft(c, principal, SortedUnique(mapping.PeerPrincipals(c, principal)),
                       RecordPayload(e, Get(state.sendResultByProviderMessage, EventKey(e, c)), ms, omitted))
    {}

    lemma DraftIsRecordOn(c: nat, e: ProviderEvent, principal: nat, ms: nat, omitted: bool)
      requires Linked()
      ensures RecordOn(RecordFor(c, e, principal, ms, omitted), c, e, principal, omitted)
    {
      DraftCarries(adapter.env, e, c, principal, Get(state.sendResultByProviderMessage, EventKey(e, c)), ms, omitted);
    }

    lemma DraftWritten(sn: nat, c: nat, e: ProviderEvent, principal: nat, ms: nat, omitted: bool)
      requires Linked() && MatchesAt(server.log, sn, RecordFor(c, e, principal, ms, omitted)) && ms == adapter.now
      ensures Wrote(c, e, principal, omitted)
    {
      DraftIsRecordOn(c, e, principal, ms, omitted);
      var i :| 0 <= i < |server.log| && server.log[i].Matches(RecordFor(c, e, principal, ms, omitted));
      MatchesMeaning(server.log[i], RecordFor(c, e, principal, ms, omitted));
    }

    /** Publishing, and the lightweight record if the full one is too large. */
    method PublishOrDegrade(ghost n: nat, c: nat, e: ProviderEvent, principal: nat) returns (r: Result<(), Fatal>)
      requires Valid() && Publishable(c, e, principal)
      modifies server, adapter`step, adapter`now
      ensures Valid() && Advanced() && (r == Err(StoppedInRetry) ==> server.stopSet)
      ensures r.Err? ==> r.error in {TooLarge, PublishGaveUp, StoppedInRetry} && From(r.error, [], map[])
      ensures r.Ok? ==> FullOrDegraded(|old(server.calls)|, c, e, principal)
      ensures r == Err(TooLarge) ==> exists i ::
                |old(server.calls)| <= i < |server.calls| - 1 && Refused(i, c, e, principal, false)
                && Refused(|server.calls| - 1, c, e, principal, true)
      ensures Refines(adapter.env, Honest(), old(Abs(n)), if r.Ok? then AfterRecord(old(Abs(n)), server.log, e, c)
              else Dead())
    {
      hide ProviderMessagePuller.Valid, ProviderMessagePuller.InFlights, OpenEvent.Valid, Provider.Valid, Mem.Partition;
      hide Joint, Inv, Reaches, Refines, Refuses, NoRefusal, Wrote, Publishable, Carries, Provider.Honest, OpenEvent.Honest,
           Attributed, RuntimeState.View, SingleThreadProcessor.From;
      r := PublishSyncRecord(n, c, e, principal, false);
      if r != Err(TooLarge) {
        return;
      }
      ghost var honest, middle, i := Honest(), Abs(n), |server.calls| - 1;
      ghost var full :| Refuses(server.calls[i], full) && RecordOn(full, c, e, principal, false);
      ghost var refusal := server.calls[i];
      r := PublishSyncRecord(n, c, e, principal, true);
      assert Refused(i, c, e, principal, false) by {
        assert server.calls[i] == refusal && RecordOn(full, c, e, principal, false);
      }
      assert r.Ok? ==> Degraded(i, c, e, principal);
      if r == Err(TooLarge) {
        JustDied(adapter.env, Honest(), Abs(n));
        RefinesTrans(adapter.env, Honest(), Honest(), middle, Abs(n), Dead());
      }
      RefinesTrans(adapter.env, honest, Honest(), old(Abs(n)), middle,
                   if r.Ok? then AfterRecord(middle, server.log, e, c) else Dead());
    }

    /** `_publish_provider_event`: once it returns, the event has its record and is noted as seen. */
    method PublishProviderEvent(ghost n: nat, c: nat, e: ProviderEvent) returns (r: Result<(), Fatal>)
      requires Valid() && e in adapter.Reported()
      requires mapping.ChannelFor(e.provider, e.sessionId) == Some(c) && !state.View().ChannelHasPending(c)
      modifies state`inboundSeen, state`latestEventMsByChannel, server, adapter`step, adapter`now
      ensures Valid() && Advanced() && Ran(n, r.Ok?) && (r == Err(StoppedInRetry) ==> server.stopSet)
      ensures state.View().requests == old(state.View().requests)
      ensures r.Ok? ==> (e.provider, e.sessionId, c, e.messageId) in state.View().inboundSeen
      ensures r.Ok? ==> (e.provider, e.sessionId, c, e.messageId) in old(state.View().inboundSeen)
                        || exists principal ::
                             mapping.PrincipalFor(c, e.provider, e.senderId, e.identityType) == Some(principal)
                             && FullOrDegraded(|old(server.calls)|, c, e, principal)
      ensures r.Err? ==> From(r.error, [e], map[]) && state.View() == old(state.View())
      ensures r == Err(SenderNotMapped) ==> server.log == old(server.log)
    {
      hide Provider.Honest, OpenEvent.Honest;
      hide ProviderMessagePuller.Valid, ProviderMessagePuller.InFlights, OpenEvent.Valid, Provider.Valid, Mem.Partition;
      hide Joint, Inv, Reaches, Refines, SingleThreadProcessor.From;
      var key := EventKey(e, c);
      if key in state.inboundSeen {
        Stays(adapter.env, Honest(), Abs(n));
        return Ok(());
      }
      var principal := mapping.PrincipalFor(c, e.provider, e.senderId, e.identityType);
      if principal.None? {
        JustDied(adapter.env, Honest(), Abs(n));
        NotPublishable(e);
        return Err(SenderNotMapped);
      }
      r := PublishOrDegrade(n, c, e, principal.value);
      if r.Err? {
        FromMore(r.error, [], [e], map[]);
      }
      if r.Ok? {
        RecordKeeps(state.View(), key, c, e.eventMs);
        RecordedStill(mapping, state.View().inboundSeen, state.View().inboundSeen + {key}, puller.acks);
        state.MarkSyncRecord(key, c, e.eventMs);
      }
    }

    /** The log has a record of the event, full or lightweight, in its channel and from its mapped sender. */
    ghost predicate Recorded(e: ProviderEvent)
      reads state`sendResultByProviderMessage, server`log, adapter`now
    {
      exists c, principal, omitted :: mapping.ChannelFor(e.provider, e.sessionId) == Some(c)
                                      && mapping.PrincipalFor(c, e.provider, e.senderId, e.identityType) == Some(principal)
                                      && Wrote(c, e, principal, omitted)
    }

    /** The event is noted as seen, and has its record unless it had been noted in `before`; its session is free again. */
    ghost predicate Finished(e: ProviderEvent, before: set<InboundKey>)
      reads state, puller`sessions, server`log, adapter`now
    {
      var c := mapping.ChannelFor(e.provider, e.sessionId);
      c.Some? && (e.provider, e.sessionId, c.value, e.messageId) in state.inboundSeen && e.sessionId !in puller.InFlights()
      && ((e.provider, e.sessionId, c.value, e.messageId) in before || Recorded(e))
    }

    lemma WroteIsRecorded(n: nat, c: nat, e: ProviderEvent)
      requires mapping.ChannelFor(e.provider, e.sessionId) == Some(c)
      requires exists principal ::
                 mapping.PrincipalFor(c, e.provider, e.senderId, e.identityType) == Some(principal)
                 && FullOrDegraded(n, c, e, principal)
      ensures Recorded(e)
    {
      hide SingleThreadProcessor.Wrote;
      var principal :| mapping.PrincipalFor(c, e.provider, e.senderId, e.identityType) == Some(principal)
                       && FullOrDegraded(n, c, e, principal);
      assert Wrote(c, e, principal, false) || Wrote(c, e, principal, true);
    }

    /** The loop of `_process_next_provider_event`: the first event whose channel has nothing to send, and the channel. */
    method NextEvent() returns (r: Result<Option<(nat, nat)>, Fatal>)
      requires Valid()
      ensures r.Ok? && r.value.Some? ==>
                var (i, c) := r.value.value;
                i < |pendingEvents| && !state.View().ChannelHasPending(c)
                && mapping.ChannelFor(pendingEvents[i].provider, pendingEvents[i].sessionId) == Some(c)
                && !Waits(mapping, state.View(), pendingEvents[i])
                && forall j: nat :: j < i ==> Waits(mapping, state.View(), pendingEvents[j])
      ensures r == Ok(None) ==> forall e :: e in pendingEvents ==> Waits(mapping, state.View(), e)
      ensures r.Err? ==> r.error == SessionNotMapped && From(r.error, pendingEvents, map[])
    {
      hide SingleThreadProcessor.Valid, RuntimeState.View;
      for i := 0 to |pendingEvents|
        invariant forall j: nat :: j < i ==> Waits(mapping, state.View(), pendingEvents[j])
      {
        var e := pendingEvents[i];
        var channel := mapping.ChannelFor(e.provider, e.sessionId);
        if channel.None? {
          return Err(SessionNotMapped);
        }
        var pending := state.ChannelHasPending(channel.value);
        if !pending {
          return Ok(Some((i, channel.value)));
        }
      }
      return Ok(None);
    }

    /** `_process_next_provider_event`: the first event whose channel has nothing to send; it is acknowledged
        once it has its record. */
    method ProcessNextProviderEvent(ghost n: nat) returns (r: Result<Option<ProviderEvent>, Fatal>)
      requires Valid()
      modifies `pendingEvents, puller`sessions, puller`records, puller`acks, state, server, adapter`step, adapter`now
      ensures server.Valid() && (if r.Ok? then Valid() else adapter.Valid()) && Advanced() && Ran(n, r.Ok?)
              && (r == Err(StoppedInRetry) ==> server.stopSet)
      ensures r.Ok? ==> state.View().requests == old(state.View().requests)
      ensures Acked(if r.Ok? then r.value else None)
      ensures r.Err? ==> puller.sessions == old(puller.sessions) && puller.records == old(puller.records)
      ensures r.Err? ==> From(r.error, old(pendingEvents), map[])
      ensures r == Ok(None) ==> adapter.now == old(adapter.now)
      ensures r == Ok(None) ==> pendingEvents == old(pendingEvents) && state.View() == old(state.View())
                                && puller.sessions == old(puller.sessions) && puller.records == old(puller.records)
      ensures r == Ok(None) ==> forall e :: e in pendingEvents ==> Waits(mapping, state.View(), e)
      ensures r.Ok? && r.value.Some? ==> Finished(r.value.value, old(state.inboundSeen))
                                         && Handled(mapping, old(state.View()), old(pendingEvents), pendingEvents,
                                             r.value.value)
    {
      hide Provider.Honest, OpenEvent.Honest, Attributed, RuntimeState.View, Waits;
      hide ProviderMessagePuller.Valid, ProviderMessagePuller.InFlights, OpenEvent.Valid, Provider.Valid, Mem.Partition;
      hide Joint, Inv, Reaches, Refines, Linked, SingleThreadProcessor.From, SingleThreadProcessor.Finished;
      var found := NextEvent();
      if found.Err? {
        JustDied(adapter.env, Honest(), Abs(n));
        AdapterValid();
        return Err(found.error);
      }
      if found.value.None? {
        Stays(adapter.env, Honest(), Abs(n));
        return Ok(None);
      }
      var (i, c) := found.value.value;
      var e := pendingEvents[i];
      ghost var before := state.View();
      var done := PublishAt(n, i, c);
      if done.Err? {
        FromMore(done.error, [e], old(pendingEvents), map[]);
        return Err(done.error);
      }
      assert HandledAt(mapping, before, old(pendingEvents), pendingEvents, e, i);
      return Ok(Some(e));
    }

    /** An event of a session or a sender that is not mapped. */
    lemma NotPublishable(e: ProviderEvent)
      ensures mapping.ChannelFor(e.provider, e.sessionId).None? ==> From(SessionNotMapped, [e], map[])
      ensures NoSender(mapping, e) ==> From(SenderNotMapped, [e], map[])
    {
      assert e in [e];
    }

    /** Publish, acknowledge, remove. */
    method PublishAt(ghost n: nat, i: nat, c: nat) returns (r: Result<(), Fatal>)
      requires Valid() && i < |pendingEvents| && !state.View().ChannelHasPending(c)
      requires mapping.ChannelFor(pendingEvents[i].provider, pendingEvents[i].sessionId) == Some(c)
      modifies `pendingEvents, puller`sessions, puller`records, puller`acks, state, server, adapter`step, adapter`now
      ensures server.Valid() && (if r.Ok? then Valid() else adapter.Valid()) && Advanced() && Ran(n, r.Ok?)
              && (r == Err(StoppedInRetry) ==> server.stopSet)
      ensures state.View().requests == old(state.View().requests)
      ensures r.Ok? ==> pendingEvents == old(pendingEvents[..i] + pendingEvents[i + 1..])
      ensures Acked(if r.Ok? then Some(old(pendingEvents)[i]) else None)
      ensures r.Err? ==> puller.sessions == old(puller.sessions) && puller.records == old(puller.records)
      ensures r.Err? ==> From(r.error, [old(pendingEvents)[i]], map[])
      ensures r.Ok? ==> Finished(old(pendingEvents)[i], old(state.inboundSeen))
    {
      hide ProviderMessagePuller.Valid, ProviderMessagePuller.InFlights, OpenEvent.Valid, Provider.Valid, Mem.Partition;
      hide Joint, Inv, Reaches, Refines, SingleThreadProcessor.From;
      InFlightFacts(pendingEvents, i);
      AdapterValid();
      ghost var e, seen, calls := pendingEvents[i], state.inboundSeen, |server.calls|;
      r := PublishProviderEvent(n, c, pendingEvents[i]);
      if r.Ok? {
        if EventKey(e, c) !in seen {
          WroteIsRecorded(calls, c, e);
        }
        AcknowledgeAt(i);
      }
    }

    /** What is pending came from the provider, in its own sessions. */
    lemma InFlightFacts(pending: seq<ProviderEvent>, i: nat)
      requires puller.Valid() && puller.adapter == adapter && Joint(pending, puller.InFlights()) && i < |pending|
      ensures pending[i] in adapter.Reported() && pending[i].provider == adapter.name
    {
      hide Of, Pages, Chain;
      assert Get(puller.InFlights(), pending[i].sessionId) == Some(pending[i]);
      SessionAt(adapter.name, puller.sessions, puller.records, adapter.now, adapter.Reported(), pending[i].sessionId);
    }

    /** Acknowledging a pending event never fails; it leaves the queue. */
    method AcknowledgeAt(i: nat)
      requires Valid() && i < |pendingEvents| && SeenRecord(mapping, state.View().inboundSeen, pendingEvents[i])
      modifies `pendingEvents, puller`sessions, puller`records, puller`acks
      ensures Valid() && pendingEvents == old(pendingEvents[..i] + pendingEvents[i + 1..])
      ensures Acked(Some(old(pendingEvents)[i]))
      ensures old(pendingEvents)[i].sessionId !in puller.InFlights()
    {
      hide ProviderMessagePuller.Valid, ProviderMessagePuller.InFlights, OpenEvent.Valid, Provider.Valid, Mem.Partition;
      InFlightFacts(pendingEvents, i);
      assert Get(puller.InFlights(), pendingEvents[i].sessionId) == Some(pendingEvents[i]);
      JointAcknowledged(pendingEvents, puller.InFlights(), i);
      ghost var acks := puller.acks;
      var r := puller.Acknowledge(pendingEvents[i]);
      assert r.Ok?;
      OneMoreRecorded(mapping, state.View().inboundSeen, acks, pendingEvents[i]);
      pendingEvents := pendingEvents[..i] + pendingEvents[i + 1..];
    }

    /** The request was handed to the provider, once, under its bot's identity. */
    ghost predicate SentOnce(before: seq<Delivery>, task: Task)
      reads adapter`sends
    {
      && before <= adapter.sends && |adapter.sends| == |before| + 1
      && exists sender :: BotOf(mapping, task) == Some(sender)
                          && Hands(adapter.sends[|before|], task, mapping.Session(task.channelId), sender)
    }

    lemma HandsIsOnce(before: seq<Delivery>, task: Task, session: (string, string), sender: string)
      requires Linked() && BotOf(mapping, task) == Some(sender) && session == mapping.Session(task.channelId)
      requires adapter.sends == before + [DeliveryOf(adapter.env, task, sender)]
      ensures SentOnce(before, task)
    {
      assert Hands(adapter.sends[|before|], task, session, sender);
    }

    /** A result of the request is in the log, with the time that was last read from the clock. */
    ghost predicate ResultWritten(task: Task)
      reads server`log, adapter`now
    {
      exists i :: 0 <= i < |server.log|
                  && ResultOfTask(server.log[i], workerPrincipal, task, adapter.env.messageIdOf(task.requestId))
                  && server.log[i].payload.SendResult? && server.log[i].payload.eventMs == adapter.now
    }

    /** The first half of `_process_outbound_task`: the provider accepts the message under an id of its own,
        or the worker ends. */
    method SendTask(ghost s: State, task: Task, session: (string, string), sender: string)
      returns (r: Result<string, Fatal>)
      requires Linked() && puller.Valid() && s.log == server.log && s.sends == adapter.sends
      requires Chose(adapter.env, s, state.View(), task, sender) && session == mapping.Session(task.channelId)
      modifies adapter`step, adapter`sends
      ensures puller.Valid() && old(adapter.sends) <= adapter.sends && (adapter.Honest() <==> old(adapter.Honest()))
      ensures r.Ok? ==> r.value == adapter.env.messageIdOf(task.requestId)
                        && adapter.sends == s.sends + [DeliveryOf(adapter.env, task, sender)]
      ensures adapter.sends == s.sends || (s.sends <= adapter.sends && |adapter.sends| == |s.sends| + 1
                                           && Hands(adapter.sends[|s.sends|], task, session, sender))
      ensures match AnswerTo(MoveAt(adapter.moves, old(adapter.step)), adapter.env.messageIdOf(task.requestId))
              case Raised => r == Err(SendRaised)
              case Answer(success, None) => r == Err(SendFailed)
              case Answer(success, Some(id)) => r == if success && id != "" then Ok(id) else Err(SendFailed)
      ensures r.Err? ==> r.error in {SendRaised, SendFailed} && From(r.error, [], map[])
      ensures r.Err? ==> Refines(adapter.env, Honest(), s, Dead())
    {
      hide Of, Pages, Chain, SessionOk, AllOk, AllReported, AllKnown, Outstanding, Inv, Reaches, Refines, EventOk;
      ghost var next := state.View();
      var answer := adapter.SendMessage(Delivery(session, sender, task.msgType, task.content, task.requestId));
      puller.SendFrame();
      DiedSending(adapter.env, Honest(), s, next, task, sender, adapter.sends);
      if answer.Raised? {
        return Err(SendRaised);
      }
      if !answer.success || answer.messageId.None? || answer.messageId.value == "" {
        return Err(SendFailed);
      }
      return Ok(answer.messageId.value);
    }

    /** The second half: the result is published and marked, or the worker ends with the message sent. */
    method ReportSent(ghost s: State, task: Task, session: (string, string), ghost sender: string, messageId: string)
      returns (r: Result<(), Fatal>)
      requires Linked() && puller.Valid() && server.Valid() && s.log == server.log
      requires Chose(adapter.env, s, state.View(), task, sender) && session == mapping.Session(task.channelId)
      requires adapter.sends == s.sends + [DeliveryOf(adapter.env, task, sender)]
      requires messageId == adapter.env.messageIdOf(task.requestId)
      modifies state, server, adapter`step, adapter`now
      ensures puller.Valid() && server.Valid() && server.Onward()
      ensures Refines(adapter.env, Honest(), s, if r.Ok? then Abs(s.worker.n) else Dead())
      ensures r.Err? ==> r.error in {TooLarge, PublishGaveUp, StoppedInRetry} && From(r.error, [], map[])
      ensures r.Ok? ==> exists i ::
                0 <= i < |server.log| && ResultOfTask(server.log[i], workerPrincipal, task, messageId)
                && server.log[i].payload.SendResult? && server.log[i].payload.eventMs == adapter.now
                && state.View() == ResultMarked(old(state.View()), task, session, messageId, server.log[i].sn)
    {
      hide Provider.Honest, OpenEvent.Honest, Attributed, RuntimeState.View;
      hide ProviderMessagePuller.Valid, OpenEvent.Valid, Provider.Valid, Mem.Partition;
      hide Joint, Inv, Reaches, Refines, NextPending, SingleThreadProcessor.From, Retries;
      hide CallerOk, EventOk, AtMostOneCopy, Acknowledges, Grew, DeliveryOf, ResultMarked;
      ghost var next, own0 := state.View(), server.own;
      var ms := Now();
      var d := Draft(task.channelId, workerPrincipal, [task.principal],
                     SendResult(task.requestId, task.sn, Success, Some(messageId), ms));
      assert d == ResultDraft(adapter.env, task, ms);
      var published := PublishWithRetry(d);
      GrewLess(adapter.env, server.Honest(), Honest(), s.log, own0, server.log, server.own);
      if published.Err? {
        ResultUnpublished(adapter.env, Honest(), s, next, task, sender, own0, server.log, server.own, ms);
        return Err(FatalOf(published.error));
      }
      ghost var i :| 0 <= i < |server.log| && server.log[i].sn == published.value && server.log[i].Matches(d);
      DraftIsResult(adapter.env, task, ms, server.log[i]);
      ResultPublished(adapter.env, Honest(), s, next, task, sender, own0, server.log, server.own, ms, published.value);
      state.MarkSendResultSuccess(task, session.0, session.1, messageId, published.value);
      return Ok(());
    }

    /**
     `_process_outbound_task`: send, publish the result, mark. `s` is the worker before the task was
     chosen. The request leaves the queue and nothing stays blocked.
     */
    method ProcessOutboundTask(ghost s: State, task: Task) returns (r: Result<(), Fatal>)
      requires Linked() && puller.Valid() && server.Valid() && s.worker.Up? && s.worker.phase.Idle?
      requires NextPending(s.worker.m, state.View(), Some(task)) && s.log == server.log && s.sends == adapter.sends
      requires s.worker.m.Partition() && s.worker.m.blocked == map[]
      modifies state, server, adapter`step, adapter`now, adapter`sends
      ensures puller.Valid() && server.Valid() && Advanced() && (r == Err(StoppedInRetry) ==> server.stopSet)
      ensures Refines(adapter.env, Honest(), s, if r.Ok? then Abs(s.worker.n) else Dead())
      ensures r.Ok? ==> SentOnce(s.sends, task) && ResultWritten(task)
      ensures r.Err? ==> From(r.error, [], s.worker.m.requests)
      ensures r.Err? && r.error in {NoBotMapping, NoAdapter, SendRaised, SendFailed} ==> server.log == old(server.log)
      ensures r.Ok? ==> state.View().Partition() && state.View().blocked == map[]
                        && state.View().requests == s.worker.m.requests - {task.requestId}
                        && state.View().inboundSeen == s.worker.m.inboundSeen
    {
      hide Provider.Honest, OpenEvent.Honest, Attributed, RuntimeState.View;
      hide ProviderMessagePuller.Valid, ProviderMessagePuller.InFlights, OpenEvent.Valid, Provider.Valid, Mem.Partition;
      hide Joint, Inv, Reaches, Refines, NextPending, DeliveryOf, ResultMarked;
      var session := mapping.Session(task.channelId);
      var sender := mapping.SenderExternalId(task.channelId, task.principal, "bot");
      if sender.None? || session.0 != adapter.name {
        JustDied(adapter.env, Honest(), s);
        NotSendable(s.worker.m, state.View(), task);
        return Err(if sender.None? then NoBotMapping else NoAdapter);
      }
      ghost var next := state.View();
      var sent := SendTask(s, task, session, sender.value);
      if sent.Err? {
        FromMore(sent.error, [], [], s.worker.m.requests);
        return Err(sent.error);
      }
      r := ReportSent(s, task, session, sender.value, sent.value);
      if r.Err? {
        FromMore(r.error, [], [], s.worker.m.requests);
        return;
      }
      ghost var i :| 0 <= i < |server.log| && ResultOfTask(server.log[i], workerPrincipal, task, sent.value)
                     && server.log[i].payload.SendResult? && server.log[i].payload.eventMs == adapter.now
                     && state.View() == ResultMarked(next, task, session, sent.value, server.log[i].sn);
      Settles(s.worker.m, next, task, session, sent.value, server.log[i].sn);
      HandsIsOnce(s.sends, task, session, sender.value);
    }

    /** `_process_next_outbound_task`: the oldest live request, if there is any. */
    method ProcessNextOutboundTask(ghost n: nat) returns (r: Result<Option<Task>, Fatal>)
      requires Valid()
      modifies state, server, adapter`step, adapter`now, adapter`sends
      ensures server.Valid() && (if r.Ok? then Valid() else adapter.Valid()) && Advanced() && Ran(n, r.Ok?)
              && (r == Err(StoppedInRetry) ==> server.stopSet)
      ensures r == Ok(None) ==> adapter.sends == old(adapter.sends) && adapter.now == old(adapter.now)
      ensures r == Ok(None) ==> state.inboundSeen == old(state.inboundSeen)
      ensures r == Ok(None) ==> old(state.View().requests) == map[] && state.View().requests == map[]
      ensures r.Ok? && r.value.Some? ==> SentOnce(old(adapter.sends), r.value.value) && ResultWritten(r.value.value)
      ensures r.Ok? && r.value.Some? ==> AnsweredOldest(old(state.View()), state.View(), r.value.value)
      ensures r.Err? ==> From(r.error, [], old(state.View()).requests)
    {
      hide ProviderMessagePuller.Valid, ProviderMessagePuller.InFlights, OpenEvent.Valid, Provider.Valid, Mem.Partition;
      hide Joint, Inv, Reaches, Refines, NextPending;
      hide CallerOk, EventOk;
      ghost var s := Abs(n);
      KeyedHolds(state.View());
      var task := state.NextPendingTask();
      IdleChoosesOldest(s.worker.m, state.View(), task);
      if task.None? {
        NextKeeps(s.worker.m, state.View(), task);
        NothingToSend(adapter.env, Honest(), s, state.View());
        return Ok(None);
      }
      var done := ProcessOutboundTask(s, task.value);
      AdapterValid();
      if done.Err? {
        return Err(done.error);
      }
      return Ok(task);
    }

    /** The event of a tick that handled one. */
    static function HandledBy(r: Result<Work, Fatal>): Option<ProviderEvent> {
      if r.Ok? && r.value.Inbound? then Some(r.value.event) else None
    }

    /** One entry of the work table: requests first, events second. */
    method DoWork(ghost n: nat, index: nat) returns (r: Result<Work, Fatal>)
      requires Valid() && index < 2
      modifies `pendingEvents, puller`sessions, puller`records, puller`acks, state, server
      modifies adapter`step, adapter`now, adapter`sends
      ensures server.Valid() && (if r.Ok? then Valid() else adapter.Valid()) && Advanced() && Ran(n, r.Ok?)
              && (r == Err(StoppedInRetry) ==> server.stopSet)
      ensures r.Ok? ==> Did(mapping, r.value, index, old(state.View()), state.View(), old(pendingEvents), pendingEvents)
      ensures Acked(HandledBy(r))
      ensures r.Err? ==> puller.sessions == old(puller.sessions) && puller.records == old(puller.records)
      ensures r.Err? ==> From(r.error, old(pendingEvents), old(state.View()).requests)
      ensures r == Ok(Nothing) ==> adapter.sends == old(adapter.sends) && adapter.now == old(adapter.now)
      ensures r == Ok(Nothing) ==> state.inboundSeen == old(state.inboundSeen)
      ensures r == Ok(Nothing) ==> pendingEvents == old(pendingEvents) && puller.sessions == old(puller.sessions)
                                   && puller.records == old(puller.records)
      ensures r == Ok(Nothing) && index == 1 ==> forall e :: e in pendingEvents ==> Waits(mapping, state.View(), e)
      ensures r.Ok? && r.value.Inbound? ==> Finished(r.value.event, old(state.inboundSeen))
      ensures r.Ok? && r.value.Outbound? ==> SentOnce(old(adapter.sends), r.value.task) && ResultWritten(r.value.task)
    {
      hide ProviderMessagePuller.Valid, ProviderMessagePuller.InFlights, OpenEvent.Valid, Provider.Valid, Mem.Partition;
      hide Joint, Inv, Reaches, Refines, CallerOk, EventOk;
      if index == 0 {
        var task := ProcessNextOutboundTask(n);
        if task.Err? {
          return Err(task.error);
        }
        return Ok(if task.value.Some? then Outbound(task.value.value) else Nothing);
      }
      var event := ProcessNextProviderEvent(n);
      if event.Err? {
        return Err(event.error);
      }
      return Ok(if event.value.Some? then Inbound(event.value.value) else Nothing);
    }

    /** The work table, from the entry whose turn it is. */
    method TakeTurns(ghost n: nat) returns (r: Result<Work, Fatal>)
      requires Valid()
      modifies `pendingEvents, `workTurn, puller`sessions, puller`records, puller`acks, state, server
      modifies adapter`step, adapter`now, adapter`sends
      ensures server.Valid() && (if r.Ok? then Valid() else adapter.Valid()) && Advanced() && Ran(n, r.Ok?)
              && (r == Err(StoppedInRetry) ==> server.stopSet)
      ensures r != Ok(Halted) && Acked(HandledBy(r))
      ensures r.Err? ==> From(r.error, old(pendingEvents), old(state.View()).requests)
      ensures r.Err? ==> puller.sessions == old(puller.sessions) && puller.records == old(puller.records)
      ensures r.Ok? ==> Progress(mapping, r.value, old(workTurn), workTurn, old(state.View()), state.View(),
                                 old(pendingEvents), pendingEvents)
      ensures r == Ok(Nothing) ==> pendingEvents == old(pendingEvents) == [] && puller.sessions == old(puller.sessions)
      ensures r == Ok(Nothing) ==> adapter.now == old(adapter.now)
      ensures r.Ok? && r.value.Inbound? ==> Finished(r.value.event, old(state.inboundSeen))
      ensures r.Ok? && r.value.Outbound? ==> SentOnce(old(adapter.sends), r.value.task) && ResultWritten(r.value.task)
    {
      hide ProviderMessagePuller.Valid, ProviderMessagePuller.InFlights, OpenEvent.Valid, Provider.Valid, Mem.Partition;
      hide Joint, Inv, Reaches, Refines, CallerOk, EventOk, AnsweredOldest, Attributed, AllRecorded, Linked,
           SingleThreadProcessor.From;
      hide Provider.Honest, OpenEvent.Honest, RuntimeState.View, SingleThreadProcessor.Finished,
           SingleThreadProcessor.SentOnce, SingleThreadProcessor.ResultWritten;
      Stays(adapter.env, Honest(), Abs(n));
      for offset := 0 to 2
        invariant Valid() && workTurn == old(workTurn) && Advanced() && Ran(n, true)
        invariant pendingEvents == old(pendingEvents) && puller.sessions == old(puller.sessions)
        invariant puller.records == old(puller.records) && puller.acks == old(puller.acks)
        invariant adapter.sends == old(adapter.sends) && adapter.now == old(adapter.now)
        invariant state.inboundSeen == old(state.inboundSeen)
        invariant offset == 0 || (offset == 1 && workTurn == 1) ==> state.View() == old(state.View())
        invariant state.View().requests == old(state.View()).requests
        invariant (offset >= 1 && workTurn == 0) || offset == 2 ==> state.View().requests == map[]
        invariant (offset >= 1 && workTurn == 1) || offset == 2 ==>
                    forall e :: e in pendingEvents ==> Waits(mapping, state.View(), e)
      {
        ghost var before, honest := Abs(n), Honest();
        var index := (workTurn + offset) % 2;
        var work := DoWork(n, index);
        assert Ran(n, work.Ok?) by {
          RefinesTrans(adapter.env, honest, Honest(), old(Abs(n)), before, if work.Ok? then Abs(n) else Dead());
        }
        if work.Err? {
          return work;
        }
        OtherHeap(mapping, old(state.View()), before.worker.m, work.value, old(pendingEvents), pendingEvents);
        if work.value != Nothing {
          workTurn := (index + 1) % 2;
          return work;
        }
      }
      HasMember(pendingEvents);
      assert forall e :: !Waits(mapping, state.View(), e);
      return Ok(Nothing);
    }

    /** The tick is on record, truthfully, and did what a tick that does not fail does. */
    twostate predicate Noted(n: nat, r: Result<Work, Fatal>)
      reads `ticks, `workTurn, `pendingEvents, state, server`calls
    {
      && |ticks| == |old(ticks)| + 1 && old(ticks) <= ticks
      && var t := ticks[|old(ticks)|];
      && t.logged == |old(server.log)| && t.read == n
      && t.callsFrom == |old(server.calls)| && t.callsTo == |server.calls|
      && t.outcome == r && (r.Ok? ==> t.Went(mapping))
      && t.turn == old(workTurn) && t.nextTurn == workTurn && t.before == old(state.View()) && t.after == state.View()
      && old(pendingEvents) <= t.queue && t.rest == pendingEvents
    }

    /** A tick of a worker that has not been told to stop: collect, then work. */
    method Act(ghost n: nat) returns (r: Result<Work, Fatal>, ghost queue: seq<ProviderEvent>)
      requires Valid()
      modifies `pendingEvents, `workTurn, puller, state, server
      modifies adapter`step, adapter`generation, adapter`checks, adapter`now, adapter`reports
      modifies adapter`given, adapter`asked, adapter`polls, adapter`queries, adapter`sends
      ensures server.Valid() && (if r.Ok? then Valid() else adapter.Valid()) && Advanced() && Ran(n, r.Ok?)
              && (r == Err(StoppedInRetry) ==> server.stopSet)
      ensures r != Ok(Halted) && old(pendingEvents) <= queue
      ensures r.Ok? ==> Progress(mapping, r.value, old(workTurn), workTurn, old(state.View()), state.View(), queue,
                                 pendingEvents)
      ensures !(r.Err? && r.error.PullFailed?) ==> adapter.checks == old(adapter.checks) + Looks(|old(pendingEvents)|)
      ensures Acked(HandledBy(r))
      ensures r.Err? ==> From(r.error, queue, old(state.View()).requests)
      ensures r == Ok(Nothing) ==> pendingEvents == []
      ensures r == Ok(Nothing) && pendingEventLimit > 0 && adapter.asked == old(adapter.asked)
              ==> AllIdle(puller.View(), adapter.now)
      ensures r.Ok? && r.value.Inbound? ==> Finished(r.value.event, old(state.inboundSeen))
      ensures r.Ok? && r.value.Outbound? ==> SentOnce(old(adapter.sends), r.value.task) && ResultWritten(r.value.task)
    {
      hide SingleThreadProcessor.Valid, OpenEvent.Valid, OpenEvent.Honest, Provider.Valid, Provider.Honest, Inv,
           Reaches, Refines;
      hide Progress, AllIdle, Attributed, RuntimeState.View, SingleThreadProcessor.Honest, Joint,
           ProviderMessagePuller.Valid, ProviderMessagePuller.View, SingleThreadProcessor.From;
      hide SingleThreadProcessor.Finished, SingleThreadProcessor.SentOnce, SingleThreadProcessor.ResultWritten;
      PartsValid();
      var collected := CollectProviderMessages();
      queue := pendingEvents;
      if collected.Err? {
        JustDied(adapter.env, Honest(), Abs(n));
        FromMore(collected.error, [], queue, state.View().requests);
        return Err(collected.error), queue;
      }
      r := TakeTurns(n);
    }

    /**
     `tick`. A tick that does not fail is a run from what the worker was to what it is; one that fails
     is a run to its death. Requests are taken oldest first; an event only when its channel has no
     request waiting. A tick that finds nothing to do leaves nothing to do, neither here nor, unless it
     asked for history, with the puller.
     */
    method Tick(ghost n: nat) returns (r: Result<Work, Fatal>)
      requires Valid()
      modifies this, puller, state, server
      modifies adapter`step, adapter`generation, adapter`checks, adapter`now, adapter`reports
      modifies adapter`given, adapter`asked, adapter`polls, adapter`queries, adapter`sends
      ensures server.Valid() && (if r.Ok? then Valid() else adapter.Valid()) && Advanced() && Ran(n, r.Ok?)
              && (r == Err(StoppedInRetry) ==> server.stopSet)
      ensures Noted(n, r)
      ensures r != Ok(Halted) && !(r.Err? && r.error.PullFailed?)
              ==> adapter.checks == old(adapter.checks) + Looks(|old(pendingEvents)|)
      ensures Acked(HandledBy(r))
      ensures r.Err? ==> From(r.error, ticks[|old(ticks)|].queue, old(state.View()).requests)
      ensures r == Ok(Nothing) ==> pendingEvents == []
      ensures r == Ok(Nothing) && pendingEventLimit > 0 && adapter.asked == old(adapter.asked)
              ==> AllIdle(puller.View(), adapter.now)
      ensures r.Ok? && r.value.Inbound? ==> Finished(r.value.event, old(state.inboundSeen))
      ensures r.Ok? && r.value.Outbound? ==> SentOnce(old(adapter.sends), r.value.task) && ResultWritten(r.value.task)
      ensures r == Ok(Halted) <==> old(server.stopSet) || Head(old(server.script)).stop
      ensures r == Ok(Halted) ==> server.stopSet && Untouched()
    {
      hide SingleThreadProcessor.Valid, OpenEvent.Valid, OpenEvent.Honest, Provider.Valid, Provider.Honest, Inv,
           Reaches, Refines;
      hide Progress, AllIdle, Attributed, RuntimeState.View, SingleThreadProcessor.From, SingleThreadProcessor.Honest;
      hide SingleThreadProcessor.Finished, SingleThreadProcessor.SentOnce, SingleThreadProcessor.ResultWritten;
      PartsValid();
      var stopped, _ := server.Wait();
      if stopped {
        Stays(adapter.env, Honest(), Abs(n));
        Halting(mapping, workTurn, state.View(), pendingEvents);
        ticks := ticks + [TickRecord(|server.log|, n, |server.calls|, |server.calls|, Ok(Halted), workTurn, workTurn,
                                     state.View(), state.View(), pendingEvents, pendingEvents)];
        return Ok(Halted);
      }
      ghost var turn, before, logged, calls := workTurn, state.View(), |server.log|, |server.calls|;
      ghost var queue;
      r, queue := Act(n);
      ticks := ticks + [TickRecord(logged, n, calls, |server.calls|, r, turn, workTurn, before, state.View(), queue,
                                   pendingEvents)];
    }
  }

  lemma Halting(ix: Index, turn: nat, m: Mem, queue: seq<ProviderEvent>)
    ensures Progress(ix, Halted, turn, turn, m, m, queue, queue)
  {}

  /** What one entry of the work table did. */
  ghost predicate Did(ix: Index, w: Work, index: nat, before: Mem, after: Mem, queue: seq<ProviderEvent>,
                      rest: seq<ProviderEvent>)
  {
    match w
    case Halted => false
    case Nothing => after.requests == before.requests && (if index == 0 then before.requests == map[] else after == before)
    case Outbound(t) => index == 0 && AnsweredOldest(before, after, t) && rest == queue
    case Inbound(e) => index == 1 && after.requests == before.requests && Handled(ix, before, queue, rest, e)
  }

  /** What is handled or waits depends on the live requests alone. */
  lemma OtherHeap(ix: Index, m: Mem, other: Mem, w: Work, queue: seq<ProviderEvent>, rest: seq<ProviderEvent>)
    requires m.requests == other.requests
    ensures w.Inbound? ==> Handled(ix, m, queue, rest, w.event) == Handled(ix, other, queue, rest, w.event)
  {
    forall e ensures Waits(ix, m, e) == Waits(ix, other, e) {}
    if w.Inbound? {
      forall i: nat | i < |queue|
        ensures HandledAt(ix, m, queue, rest, w.event, i) == HandledAt(ix, other, queue, rest, w.event, i) {}
    }
  }

  /** This was the oldest live request and is now answered. */
  ghost predicate AnsweredOldest(before: Mem, after: Mem, t: Task) {
    && before.Live(t) && (forall u :: before.Live(u) ==> t.sn <= u.sn)
    && after.requests == before.requests - {t.requestId}
  }

  /** The event was the first in the queue whose channel had no request waiting, and was taken out. */
  ghost predicate Handled(ix: Index, m: Mem, queue: seq<ProviderEvent>, rest: seq<ProviderEvent>, e: ProviderEvent) {
    exists i :: 0 <= i < |queue| && HandledAt(ix, m, queue, rest, e, i)
  }

  ghost predicate HandledAt(ix: Index, m: Mem, queue: seq<ProviderEvent>, rest: seq<ProviderEvent>, e: ProviderEvent,
                            i: nat)
    requires i < |queue|
  {
    && queue[i] == e && !Waits(ix, m, e) && (forall j :: 0 <= j < i ==> Waits(ix, m, queue[j]))
    && rest == queue[..i] + queue[i + 1..]
  }

  /**
   What a tick that did not fail did, and whose turn it is next. The other kind of work goes first only when
   the kind whose turn it is has nothing that can be done.
   */
  ghost predicate Progress(ix: Index, w: Work, turn: nat, nextTurn: nat, before: Mem, after: Mem,
                           queue: seq<ProviderEvent>, rest: seq<ProviderEvent>)
  {
    match w
    case Halted => after == before && nextTurn == turn && rest == queue
    case Nothing => before.requests == map[] && after.requests == map[] && nextTurn == turn && queue == rest == []
    case Outbound(t) =>
      && AnsweredOldest(before, after, t) && nextTurn == 1 && rest == queue
      && (turn == 1 ==> forall e :: e in queue ==> Waits(ix, before, e))
    case Inbound(e) =>
      && after.requests == before.requests && nextTurn == 0 && Handled(ix, before, queue, rest, e)
      && (turn == 0 ==> before.requests == map[])
  }

  /** The worker's queue of events is what the puller waits for, one per session. */
  ghost predicate Joint(pending: seq<ProviderEvent>, inFlights: map<string, ProviderEvent>) {
    AllHeld(pending, inFlights) && OnePerSession(pending) && AllQueued(pending, inFlights)
  }

  ghost predicate AllHeld(pending: seq<ProviderEvent>, inFlights: map<string, ProviderEvent>) {
    forall i :: 0 <= i < |pending| ==> Get(inFlights, pending[i].sessionId) == Some(pending[i])
  }

  ghost predicate OnePerSession(pending: seq<ProviderEvent>) {
    forall i, j :: 0 <= i < j < |pending| ==> pending[i].sessionId != pending[j].sessionId
  }

  ghost predicate AllQueued(pending: seq<ProviderEvent>, inFlights: map<string, ProviderEvent>) {
    forall s :: s in inFlights ==> inFlights[s].sessionId == s && inFlights[s] in pending
  }

  lemma JointTaken(pending: seq<ProviderEvent>, before: map<string, ProviderEvent>, e: ProviderEvent)
    requires Joint(pending, before) && e.sessionId !in before
    ensures Joint(pending + [e], before[e.sessionId := e])
  {}

  lemma JointAcknowledged(pending: seq<ProviderEvent>, before: map<string, ProviderEvent>, i: nat)
    requires Joint(pending, before) && i < |pending|
    ensures Joint(pending[..i] + pending[i + 1..], before - {pending[i].sessionId})
  {
    var rest, after := pending[..i] + pending[i + 1..], before - {pending[i].sessionId};
    assert forall k :: 0 <= k < |rest| ==> rest[k] == pending[if k < i then k else k + 1];
    assert OnePerSession(rest);
    assert AllHeld(rest, after) by {
      forall k | 0 <= k < |rest| ensures Get(after, rest[k].sessionId) == Some(rest[k]) {
        assert Get(before, rest[k].sessionId) == Some(rest[k]);
      }
    }
    StillQueued(pending, before, i);
  }

  lemma StillQueued(pending: seq<ProviderEvent>, before: map<string, ProviderEvent>, i: nat)
    requires AllQueued(pending, before) && i < |pending|
    ensures AllQueued(pending[..i] + pending[i + 1..], before - {pending[i].sessionId})
  {
    var rest, after := pending[..i] + pending[i + 1..], before - {pending[i].sessionId};
    assert pending == pending[..i] + [pending[i]] + pending[i + 1..];
    forall s | s in after ensures before[s] in rest {
      assert before[s] in pending && before[s] != pending[i];
    }
  }

  lemma HasMember<T>(s: seq<T>)
    ensures s == [] || exists x :: x in s
  {
    if s != [] {
      assert s[0] in s;
    }
  }

  lemma EmptyPartition()
    ensures EMPTY_MEM.Partition()
  {
    assert forall id :: Get<string, Task>(map[], id) == None;
  }
}
