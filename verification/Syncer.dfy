/**
 The worker's life: recovery by scanning the log, then the live loop that
 drains one snapshot of the log before every tick.
 */
module Syncer {
  import opened Common
  import opened Wire
  import opened Mapping
  import opened Memory
  import opened Queue
  import opened Replay
  import opened System
  import opened Safety
  import opened Client
  import opened Adapter
  import opened Sessions
  import opened Puller
  import opened Refine
  import opened Reading
  import opened Processor
  import opened Snapshots
  import opened Waiting

  /** Why the worker's life ends, other than by being stopped. */
  datatype Ending =
    | ScanCall(code: Code)
    | ScanStuck
    | ScanStopped
    | BadEntry(fault: Fault)
    | PullerStart(cause: PullFault)
    | FetchFailed(code: Code)
    | FetchStuck
    | TickFailed(fatal: Fatal)
  {
    /** An ending of the live loop. */
    predicate OfLoop() { BadEntry? || FetchFailed? || FetchStuck? || TickFailed? }
  }

  predicate FailedFetch(c: Call, code: Code) { c.FetchCall? && c.page == Err(code) }

  /** A fetch that did not move on, before the last seq its page told. */
  predicate StuckFetch(c: Call) {
    c.FetchCall? && c.page.Ok? && c.page.value.nextSeq <= c.fromSeq
  }

  /** The variables of `_poll_events`. */
  datatype Cursor = Cursor(nextSeq: nat, snapshotLastSeq: Option<nat>, snapshotHadMessages: bool,
                           prefetchedMessages: Log, prefetchedLastSeq: Option<nat>)
  {
    /** Everything below this seq has been handled, once the turn has read what it reads. */
    function Mark(): nat { if snapshotLastSeq.None? then nextSeq else Min(nextSeq, snapshotLastSeq.value + 1) }
  }

  class P2PSyncer {
    const server: OpenEvent
    const adapter: Provider
    const mapping: Index
    const workerPrincipal: nat
    const state: RuntimeState
    const puller: ProviderMessagePuller
    const processor: SingleThreadProcessor
    /** How many calls the server had received before this life. */
    ghost const callsBefore: nat
    /** The system when this life began, the seq and the call where the live loop began, and every message it has
        handled. */
    ghost var origin: State
    ghost var start: nat
    ghost var liveFrom: nat
    ghost var handled: Log

    constructor (server: OpenEvent, adapter: Provider, mapping: Index, workerPrincipal: nat, config: SyncConfig,
                 maxAttempts: nat)
      requires server.Valid() && adapter.Valid() && server.env == adapter.env
               && adapter.env.site == Site(mapping, workerPrincipal)
      ensures this.server == server && this.adapter == adapter && this.mapping == mapping && Ready()
      ensures this.workerPrincipal == workerPrincipal && fresh(state) && fresh(puller) && fresh(processor)
    {
      hide Mem.Partition, ProviderMessagePuller.Valid, AllOk, AllMatched, AllKnown, AllReported, Attributed;
      var client := new ImProtocolClient(server);
      var publisher := new Publisher(client, maxAttempts);
      var memory := new RuntimeState();
      var messages := new ProviderMessagePuller(adapter, config);
      var loop := new SingleThreadProcessor(mapping, messages, publisher, workerPrincipal, memory);
      this.server, this.adapter, this.mapping, this.workerPrincipal := server, adapter, mapping, workerPrincipal;
      state, puller, processor := memory, messages, loop;
      callsBefore, liveFrom := |server.calls|, |server.calls|;
      handled, start, origin := [], 0, START;
    }

    ghost predicate Wired() {
      && processor.server == server && processor.adapter == adapter && processor.puller == puller
          && processor.state == state
      && processor.mapping == mapping && processor.workerPrincipal == workerPrincipal && processor.Linked()
    }

    /** Nothing has been read, pulled or done yet. */
    ghost predicate Ready()
      reads `handled, `liveFrom, processor, puller, state, server`log, server`own, server`reported, server`calls
      reads adapter`reports, adapter`sends, adapter`now, adapter`asked, adapter`given, adapter`polls, adapter`queries
    {
      && Wired() && processor.Valid() && state.View() == EMPTY_MEM && processor.pendingEvents == []
      && !puller.started && puller.sessions == map[] && puller.liveEvents == [] && handled == [] && processor.ticks == []
      && callsBefore == liveFrom == |server.calls|
    }

    /** What an ending comes from: the last call, the last tick, the start of the puller, or the stop flag. */
    ghost predicate Reason(e: Ending)
      reads processor`ticks, puller`started, puller`sessions, puller.adapter`given, puller.adapter`asked
      reads processor.puller`started, processor.puller`sessions, processor.puller.adapter`given,
            processor.puller.adapter`asked, processor.adapter`step
      reads server`calls, server`stopSet, processor.server`calls, processor.server`stopSet
    {
      match e
      case ScanStopped => server.stopSet
      case ScanCall(code) => server.calls != [] && server.calls[|server.calls| - 1].Failure() == Some(code)
      case ScanStuck => server.calls != [] && StuckFetch(server.calls[|server.calls| - 1])
      case BadEntry(_) => true
      case PullerStart(fault) => fault == NoSessions || puller.Blamed(fault, false)
      case FetchFailed(code) => server.calls != [] && FailedFetch(server.calls[|server.calls| - 1], code)
                                && code != Unavailable && code != DeadlineExceeded && !server.stopSet
      case FetchStuck => server.calls != [] && StuckFetch(server.calls[|server.calls| - 1])
      case TickFailed(fatal) =>
        && processor.ticks != []
        && var t := processor.ticks[|processor.ticks| - 1];
        t.outcome == Err(fatal) && processor.From(fatal, t.queue, t.before.requests)
    }

    function TheSite(): Site { Site(mapping, workerPrincipal) }

    /** `_process_history_message`. */
    method ProcessHistoryMessage(msg: Message) returns (r: Result<(), Fault>)
      modifies state
      ensures match Process(TheSite(), old(state.View()), msg)
              case Ok(m) => r.Ok? && state.View() == m
              case Err(e) => r == Err(e) && state.View() == old(state.View())
    {
      if !msg.payload.Parses() {
        return Err(ParseFault);
      }
      if !mapping.Owns(msg.channelId) {
        return Ok(());
      }
      if !RolesOk(TheSite(), msg) {
        return Err(RoleFault);
      }
      var session := mapping.Session(msg.channelId);
      var added;
      match msg.payload {
        case SendRequest(_, _, _, _, _) => added := state.AddSendRequest(msg);
        case SendResult(_, _, _, _, _) => added := state.AddSendResult(msg, session.0, session.1);
        case SyncRecord(_, _, _, _, _, _, _, _, _) => added := state.AddSyncRecord(msg, session.0, session.1);
      }
      return if added.Ok? then Ok(()) else Err(StateFault(added.error));
    }

    /** The messages of one page that the scan's end takes in. */
    method ProcessPage(messages: Log, scanEnd: nat) returns (r: Result<(), Fault>)
      modifies state
      ensures r.Ok? ==> ProcessAll(TheSite(), old(state.View()), Cut(messages, scanEnd, false)) == Ok(state.View())
      ensures r.Err? ==> ProcessAll(TheSite(), old(state.View()), Cut(messages, scanEnd, false)).Err?
    {
      hide Process, Cut;
      CutNone(scanEnd, false);
      assert messages[..0] == [];
      for i := 0 to |messages|
        invariant ProcessAll(TheSite(), old(state.View()), Cut(messages[..i], scanEnd, false)) == Ok(state.View())
      {
        CutNext(messages, i, scanEnd, false);
        if messages[i].sn <= scanEnd {
          var done := ProcessHistoryMessage(messages[i]);
          if done.Err? {
            FaultStays(TheSite(), old(state.View()), messages, i + 1, scanEnd);
            return Err(done.error);
          }
        }
      }
      assert messages[..|messages|] == messages;
      return Ok(());
    }

    /** One turn of the scan's loop: a page further. */
    method ScanPageFrom(fromSeq: nat, scanEnd: nat) returns (r: Result<nat, Ending>)
      requires server.Valid() && 1 <= fromSeq <= scanEnd && fromSeq <= LastSeq(server.log) + 1
      requires Recover(TheSite(), server.log[..Below(server.log, fromSeq)]) == Ok(state.View())
      modifies state, server`log, server`script, server`stopSet, server`calls
      ensures server.Valid() && server.Onward()
      ensures r.Ok? ==> fromSeq < r.value <= LastSeq(server.log) + 1 && !server.stopSet
      ensures r.Err? ==> Reason(r.error)
      ensures r.Ok? ==> Recover(TheSite(), server.log[..Below(server.log, Min(r.value, scanEnd + 1))]) == Ok(state.View())
      ensures r.Err? && r.error.BadEntry? ==> !Accepted(TheSite(), server.log)
      ensures r.Err? ==> !r.error.TickFailed?
    {
      hide Between, ProcessAll, Recover, Below, Cut, Attributed, Accepted;
      var stopped, _ := server.Wait();
      if stopped {
        return Err(ScanStopped);
      }
      ghost var before := server.log;
      var page := server.Fetch(fromSeq, mapping.Channels());
      if page.Err? {
        return Err(ScanCall(page.error));
      }
      PrefixStable(before, server.log, fromSeq);
      ScanPage(TheSite(), server.log, fromSeq, page.value.nextSeq, scanEnd, state.View());
      var done := ProcessPage(page.value.messages, scanEnd);
      if done.Err? {
        NotAccepted(TheSite(), server.log, Below(server.log, Min(page.value.nextSeq, scanEnd + 1)));
        return Err(BadEntry(done.error));
      }
      if page.value.nextSeq <= fromSeq {
        return Err(ScanStuck);
      }
      return Ok(page.value.nextSeq);
    }

    /** The server's `n`-th answer was the status that told where the scan ends. */
    ghost predicate ScanEndsAt(n: nat, scanEnd: nat, known: Log)
      reads server`calls
    {
      n < |server.calls| && server.calls[n] == StatusCall(Ok(scanEnd), LastSeq(known)) && scanEnd <= LastSeq(known)
    }

    /**
     `_scan_history`: the memory is what the log said up to the seq where the scan was told to end.
     `known` is the log at the moment it was told.
     */
    method ScanHistory() returns (r: Result<nat, Ending>, ghost known: Log)
      requires server.Valid() && state.View() == EMPTY_MEM
      modifies state, server`log, server`script, server`stopSet, server`reported, server`calls
      ensures server.Valid() && server.Onward() && old(server.log) <= known <= server.log
      ensures r.Ok? ==> ScanEndsAt(|old(server.calls)|, r.value, known)
      ensures |old(server.calls)| < |server.calls| && server.calls[|old(server.calls)|].StatusCall?
      ensures r.Err? ==> Reason(r.error)
      ensures r.Ok? ==> Recover(TheSite(), server.log[..Below(server.log, r.value + 1)]) == Ok(state.View())
      ensures r.Err? && r.error.BadEntry? ==> !Accepted(TheSite(), server.log)
      ensures r.Err? ==> !r.error.TickFailed?
    {
      hide Recover, Below, Attributed, Accepted;
      known := server.log;
      var status := server.GetStatus();
      known := server.log;
      if status.Err? {
        return Err(ScanCall(status.error)), known;
      }
      var scanEnd := status.value;
      if scanEnd == 0 {
        NothingBelow(TheSite(), server.log);
        return Ok(0), known;
      }
      var fromSeq := 1;
      NothingBelow(TheSite(), server.log);
      while fromSeq <= scanEnd
        invariant server.Valid() && server.Onward() && known <= server.log
        invariant ScanEndsAt(|old(server.calls)|, scanEnd, known)
        invariant 1 <= fromSeq <= LastSeq(server.log) + 1
        invariant Recover(TheSite(), server.log[..Below(server.log, Min(fromSeq, scanEnd + 1))]) == Ok(state.View())
        decreases scanEnd + 1 - fromSeq
      {
        var next := ScanPageFrom(fromSeq, scanEnd);
        if next.Err? {
          return Err(next.error), known;
        }
        fromSeq := next.value;
      }
      return Ok(scanEnd), known;
    }

    /** `_start_message_pullers`: every session starts from the latest event time of its channel. */
    method StartMessagePullers() returns (r: Result<(), Ending>)
      requires Wired() && processor.Valid() && processor.pendingEvents == [] && mapping.Sound()
      requires !puller.started && puller.sessions == map[] && puller.liveEvents == []
      modifies puller, adapter`step, adapter`now, adapter`generation, adapter`checks
      ensures r.Ok? ==> processor.Valid()
      ensures r.Err? ==> r.error.PullerStart? && Reason(r.error)
      ensures r.Ok? ==> forall c :: mapping.Owns(c) && mapping.Session(c).0 == adapter.name ==>
                mapping.Session(c).1 in puller.sessions
                && puller.sessions[mapping.Session(c).1].confirmedEventMs == Get(state.View().latest, c)
    {
      hide Mem.Partition, OpenEvent.Valid, ProviderMessagePuller.Buffered, ProviderMessagePuller.Accounted, Window,
           Index.Sound;
      hide ProviderMessagePuller.Ordered, ProviderMessagePuller.LiveReported, ProviderMessagePuller.SessionsReported,
           Provider.Valid, ProviderMessagePuller.Blamed;
      ghost var level := puller.streamGeneration <= adapter.generation;
      var highwater := Highwater();
      var started := puller.Start(highwater);
      if started.Err? && highwater != map[] {
        puller.LessBlame(started.error, level);
      }
      return if started.Ok? then Ok(()) else Err(PullerStart(started.error));
    }

    /** The latest event time of each session of the provider. */
    method Highwater() returns (marks: map<string, Option<int>>)
      requires mapping.Sound()
      ensures forall c :: mapping.Owns(c) && mapping.Session(c).0 == adapter.name ==>
                Get(marks, mapping.Session(c).1) == Some(Get(state.View().latest, c))
      ensures forall s :: s in marks ==> exists c :: mapping.Owns(c) && mapping.Session(c) == (adapter.name, s)
    {
      hide Index.Sound;
      marks := map[];
      var rest := mapping.Channels();
      while rest != {}
        invariant rest <= mapping.Channels()
        invariant forall c :: mapping.Owns(c) && c !in rest && mapping.Session(c).0 == adapter.name ==>
                    Get(marks, mapping.Session(c).1) == Some(Get(state.View().latest, c))
        invariant forall s :: s in marks ==> exists c :: mapping.Owns(c) && mapping.Session(c) == (adapter.name, s)
        decreases rest
      {
        var c :| c in rest;
        rest := rest - {c};
        if mapping.Session(c).0 == adapter.name {
          forall d | mapping.Owns(d) && d !in rest && d != c && mapping.Session(d).0 == adapter.name
            ensures mapping.Session(d).1 != mapping.Session(c).1
          {
            if mapping.Session(d).1 == mapping.Session(c).1 { OneChannel(mapping, c, d); }
          }
          assert mapping.Session(c) == (adapter.name, mapping.Session(c).1);
          marks := marks[mapping.Session(c).1 := Get(state.latestEventMsByChannel, c)];
        }
      }
    }

    /** The worker having handled everything below seq `mark`. */
    ghost function AbsAt(mark: nat): State
      reads state, server`log, adapter`sends
    {
      State(server.log, adapter.sends, Up(state.View(), Below(server.log, mark), Idle))
    }

    /** The live loop has handled exactly the owned entries from its start up to `mark`, once and in order. */
    ghost predicate Position(mark: nat)
      reads `handled, `start, server`log
    {
      && Increasing(server.log) && start <= mark <= LastSeq(server.log) + 1
      && handled == Between(server.log, start, mark, mapping.Channels())
    }

    /** Every contract of the environment has been kept, and the scan was given a current status. */
    ghost predicate Trusted()
      reads server`log, server`own, server`calls, adapter`reports, adapter`sends
    {
      && server.Honest() && adapter.Honest()
      && (callsBefore < |server.calls| ==> !server.calls[callsBefore].Stale())
    }

    /** And things were good when this life began. */
    ghost predicate Sane()
      reads `origin, server`log, server`own, server`calls, adapter`reports, adapter`sends
    {
      Trusted() && adapter.env.Sound() && Inv(adapter.env, origin)
    }

    /** The worker between two actions, having handled everything below `mark`: this life so far is a run, and
        its ticks follow one another. */
    ghost predicate AtRest(mark: nat)
      reads `handled, `start, `liveFrom, `origin, processor, puller, state
      reads server`log, server`own, server`reported, server`calls
      reads adapter`reports, adapter`sends, adapter`now, adapter`asked, adapter`given, adapter`polls, adapter`queries
    {
      && Wired() && processor.Valid() && Position(mark) && Refines(adapter.env, Trusted(), origin, AbsAt(mark))
      && AllBelow(state.View(), mark)
      && Rested(mapping, processor.ticks, state.View(), processor.workTurn, processor.pendingEvents)
      && AllAgree(adapter.env, Trusted(), origin, processor.ticks, server.log)
      && Within(processor.ticks, |server.calls|) && liveFrom <= |server.calls|
    }

    ghost function Gone(): State
      reads server`log, adapter`sends
    {
      State(server.log, adapter.sends, Down)
    }

    /** This life is over; it was a run, its ticks followed one another, and at each the memory agreed with the log. */
    ghost predicate Over()
      reads `origin, processor`ticks, server`log, server`own, server`reported, server`calls
      reads adapter`reports, adapter`sends, adapter`given, adapter`asked, adapter`polls, adapter`queries
    {
      && server.Valid() && adapter.Valid() && Refines(adapter.env, Trusted(), origin, Gone())
      && Ticking(mapping, processor.ticks) && AllAgree(adapter.env, Trusted(), origin, processor.ticks, server.log)
    }

    /** The live loop as the server's answers to its own calls decide it. */
    ghost function Followed(): Following
      reads `start, `liveFrom, processor`ticks, server`calls
    {
      Follow(start, Outside(server.calls, liveFrom, processor.ticks, |server.calls|))
    }

    /** The variables of the loop are where its calls have brought it, with a tick at every snapshot due so far. */
    ghost predicate InStep(c: Cursor, ticks: seq<Barrier>)
      reads `start, `liveFrom, processor`ticks, server`calls
    {
      Followed() == Expected(c.nextSeq, c.snapshotLastSeq, c.prefetchedLastSeq, SnapshotsOf(ticks))
    }

    /** `_process_live_message`. */
    method ProcessLiveMessage(msg: Message) returns (r: Result<(), Ending>)
      requires Wired() && processor.Valid()
      modifies `handled, state
      ensures processor.Valid() && handled == old(handled) + [msg]
      ensures match Live(TheSite(), old(state.View()), msg)
              case Ok(m) => r.Ok? && state.View() == m
              case Err(f) => r == Err(BadEntry(f)) && state.View() == old(state.View())
    {
      hide ProviderMessagePuller.Valid, OpenEvent.Valid, Joint, Mem.Partition;
      handled := handled + [msg];
      if !msg.payload.Parses() {
        return Err(BadEntry(ParseFault));
      }
      if !mapping.Owns(msg.channelId) {
        return Ok(());
      }
      if !RolesOk(TheSite(), msg) {
        return Err(BadEntry(RoleFault));
      }
      if !msg.payload.SendRequest? {
        return Ok(());
      }
      if RequestAdded(state.View(), msg).Ok? {
        RequestKeeps(state.View(), msg);
        SameOtherwise(state.View(), msg);
      }
      var added := state.AddSendRequest(msg);
      return if added.Ok? then Ok(()) else Err(BadEntry(StateFault(added.error)));
    }

    /** A batch of live messages: the window from `mark` to `upto`. */
    method HandleLive(messages: Log, ghost mark: nat, ghost upto: nat) returns (r: Result<(), Ending>)
      requires AtRest(mark) && mark <= upto <= LastSeq(server.log) + 1
      requires messages == Between(server.log, mark, upto, mapping.Channels())
      modifies `handled, state
      ensures r.Ok? ==> AtRest(upto)
      ensures r.Err? ==> Over() && r.error.BadEntry? && !Sane()
    {
      hide ProviderMessagePuller.Valid, OpenEvent.Honest, Provider.Honest, Joint, Mem.Partition, Live, Inv, Reaches,
           Refines, Between, Below, OpenEvent.Valid, LastSeq;
      hide Rested, AllBelow, Added, AllAgree, Within, AllRecorded, P2PSyncer.Trusted;
      ghost var s, trusted := AbsAt(mark), Trusted();
      assert forall m :: m in messages ==> mark <= m.sn < upto by {
        BetweenMembers(server.log, mark, upto, mapping.Channels());
      }
      AddedNone(state.View(), mark, upto);
      for i := 0 to |messages|
        invariant processor.Valid() && handled == old(handled) + messages[..i]
        invariant LiveAll(TheSite(), old(state.View()), messages[..i]) == Ok(state.View())
        invariant Added(old(state.View()), state.View(), mark, upto)
      {
        assert messages[..i + 1][..i] == messages[..i];
        ghost var before := state.View();
        var done := ProcessLiveMessage(messages[i]);
        if done.Err? {
          LiveFaultStays(TheSite(), old(state.View()), messages, i + 1);
          FaultMeansInsane(adapter.env, trusted, origin, s, mark, upto);
          AdapterValid();
          JustDied(adapter.env, trusted, s);
          RefinesTrans(adapter.env, trusted, trusted, origin, s, Gone());
          RestedTicks(mapping, processor.ticks, old(state.View()), processor.workTurn, processor.pendingEvents);
          return Err(done.error);
        }
        LiveAdds(TheSite(), before, messages[i], state.View(), mark, upto);
        AddedTwice(old(state.View()), before, state.View(), mark, upto);
      }
      assert messages[..|messages|] == messages;
      WindowRuns(adapter.env, trusted, server.log, adapter.sends, old(state.View()), state.View(), mark, upto);
      RefinesTrans(adapter.env, trusted, trusted, origin, s, AbsAt(upto));
      BetweenSplits(server.log, start, mark, upto, mapping.Channels());
      ReadOn(mapping, processor.ticks, old(state.View()), state.View(), processor.workTurn, processor.pendingEvents,
          mark, upto);
      return Ok(());
    }

    /** At the head of the live loop. */
    ghost predicate Resting(c: Cursor, mark: nat)
      reads server`log
    {
      && mark <= c.nextSeq <= LastSeq(server.log) + 1
      && c.prefetchedMessages == Between(server.log, mark, c.nextSeq, mapping.Channels())
      && (c.prefetchedLastSeq.None? ==> mark == c.nextSeq)
      && (c.prefetchedLastSeq.Some? ==> c.nextSeq <= c.prefetchedLastSeq.value + 1 <= LastSeq(server.log) + 1)
      && (c.snapshotLastSeq.Some? ==> c.prefetchedLastSeq.None?
                                      && c.nextSeq <= c.snapshotLastSeq.value <= LastSeq(server.log))
    }

    /** Once a turn has read what it reads: everything up to the snapshot or the read position is handled,
        and what lies past the snapshot is kept for the next round. */
    ghost predicate Drained(c: Cursor)
      reads server`log
    {
      && c.snapshotLastSeq.Some? && c.snapshotLastSeq.value <= LastSeq(server.log)
      && c.nextSeq <= LastSeq(server.log) + 1
      && c.prefetchedMessages == Between(server.log, c.Mark(), c.nextSeq, mapping.Channels())
      && (c.prefetchedLastSeq.None? ==> c.prefetchedMessages == [])
      && (c.prefetchedLastSeq.Some? ==> c.prefetchedMessages != []
                                        && c.nextSeq <= c.prefetchedLastSeq.value + 1 <= LastSeq(server.log) + 1)
    }

    /** A round that starts from what an earlier one fetched ahead. */
    method TakePrefetched(c: Cursor, ghost mark: nat, ghost ticks: seq<Barrier>) returns (r: Result<Cursor, Ending>)
      requires AtRest(mark) && Resting(c, mark) && c.snapshotLastSeq.None? && c.prefetchedLastSeq.Some?
      requires InStep(c, ticks)
      modifies `handled, state
      ensures Followed() == old(Followed()) && (r.Ok? ==> InStep(r.value, ticks))
      ensures r.Ok? ==> Drained(r.value) && r.value.Mark() == r.value.nextSeq == c.nextSeq && AtRest(r.value.Mark())
      ensures r.Err? ==> Over() && r.error.BadEntry? && !Sane()
    {
      hide P2PSyncer.Followed, P2PSyncer.AtRest, P2PSyncer.Over, P2PSyncer.Sane, Between;
      EmptyWindow(server.log, c.nextSeq, mapping.Channels());
      var done := HandleLive(c.prefetchedMessages, mark, c.nextSeq);
      if done.Err? {
        return Err(done.error);
      }
      return Ok(Cursor(c.nextSeq, c.prefetchedLastSeq, c.prefetchedMessages != [], [], None));
    }

    /** The two lists a page is sorted into. */
    method Sift(messages: Log, snapshot: nat) returns (current: Log, later: Log)
      ensures current == Cut(messages, snapshot, false) && later == Cut(messages, snapshot, true)
    {
      current, later := [], [];
      for i := 0 to |messages|
        invariant current == Cut(messages[..i], snapshot, false) && later == Cut(messages[..i], snapshot, true)
      {
        CutNext(messages, i, snapshot, false);
        CutNext(messages, i, snapshot, true);
        if messages[i].sn <= snapshot {
          current := current + [messages[i]];
        } else {
          later := later + [messages[i]];
        }
      }
      assert messages[..|messages|] == messages;
    }

    /** What a fetched page does: handle it up to the snapshot, keep the rest, move on. */
    method TakePage(c: Cursor, page: Page, ghost ticks: seq<Barrier>) returns (r: Result<Cursor, Ending>)
      requires AtRest(c.nextSeq) && Increasing(server.log) && Resting(c, c.nextSeq) && c.prefetchedLastSeq.None?
      requires page.lastSeq == LastSeq(server.log) && c.nextSeq <= page.nextSeq <= LastSeq(server.log) + 1
      requires forall m :: m in page.messages ==> m.sn < page.nextSeq
      requires Followed() == AfterPage(Expected(c.nextSeq, c.snapshotLastSeq, None, SnapshotsOf(ticks)), page)
      requires page.messages == Between(server.log, c.nextSeq, page.nextSeq, mapping.Channels())
      modifies `handled, state
      ensures Followed() == old(Followed()) && (r.Ok? ==> InStep(r.value, ticks))
      ensures r.Ok? ==> Drained(r.value) && AtRest(r.value.Mark())
      ensures r.Ok? ==> r.value.nextSeq == page.nextSeq
                        && (c.nextSeq < page.nextSeq || r.value.snapshotLastSeq.value < page.nextSeq)
      ensures r.Ok? && c.snapshotLastSeq.Some? ==> r.value.snapshotLastSeq == c.snapshotLastSeq
      ensures r == Err(FetchStuck) ==> page.nextSeq <= page.lastSeq && page.nextSeq <= c.nextSeq
      ensures r.Err? ==> Over() && (r.error == FetchStuck || (r.error.BadEntry? && !Sane()))
    {
      hide P2PSyncer.Followed, AfterPage, Expected, P2PSyncer.AtRest, P2PSyncer.Over, P2PSyncer.Sane, Below, Between, Cut;
      var snapshot := if c.snapshotLastSeq.None? then page.lastSeq else c.snapshotLastSeq.value;
      var current, later := Sift(page.messages, snapshot);
      PageCut(server.log, c.nextSeq, page.nextSeq, snapshot, mapping.Channels());
      PageFollows(c.nextSeq, c.snapshotLastSeq, SnapshotsOf(ticks), page, later);
      ghost var mark := Min(page.nextSeq, snapshot + 1);
      var lastSeq := if later != [] then Some(page.lastSeq) else None;
      var done := HandleLive(current, c.nextSeq, mark);
      if done.Err? {
        return Err(done.error);
      }
      if page.nextSeq <= page.lastSeq && page.nextSeq <= c.nextSeq {
        Ended(mark);
        return Err(FetchStuck);
      }
      return Ok(Cursor(page.nextSeq, Some(snapshot), c.snapshotHadMessages || current != [], later, lastSeq));
    }

    /** `fetch` in the live loop, while others write. */
    method FetchLive(c: Cursor) returns (page: Result<Page, Code>)
      requires AtRest(c.nextSeq) && Resting(c, c.nextSeq)
      modifies server`log, server`script, server`calls
      ensures AtRest(c.nextSeq) && Resting(c, c.nextSeq) && server.Onward() && Increasing(server.log)
      ensures server.calls == old(server.calls) + [FetchCall(c.nextSeq, page)]
      ensures Followed() == if page.Ok? then AfterPage(old(Followed()), page.value) else old(Followed())
      ensures page.Ok? ==> page.value.lastSeq == LastSeq(server.log)
                           && c.nextSeq <= page.value.nextSeq <= LastSeq(server.log) + 1
      ensures page.Ok? ==> page.value.messages == Between(server.log, c.nextSeq, page.value.nextSeq, mapping.Channels())
      ensures page.Ok? ==> forall m :: m in page.value.messages ==> m.sn < page.value.nextSeq
    {
      hide ProviderMessagePuller.Valid, Joint, Mem.Partition, Inv, Reaches, Refines, Below, Between, Attributed,
           Provider.Honest;
      hide Rested, AllBelow, AllAgree, Follow, Outside, AfterPage, AllRecorded;
      ghost var before, trusted, s, calls := server.log, Trusted(), AbsAt(c.nextSeq), server.calls;
      page := server.Fetch(c.nextSeq, mapping.Channels());
      LastGrows(before, server.log);
      BelowStable(before, server.log, c.nextSeq);
      BetweenStable(before, server.log, start, c.nextSeq, mapping.Channels());
      BetweenStable(before, server.log, c.nextSeq, c.nextSeq, mapping.Channels());
      GrewHere(before);
      CallersOnly(adapter.env, Trusted(), s, server.own, server.log);
      RefinesTrans(adapter.env, trusted, Trusted(), origin, s, AbsAt(c.nextSeq));
      AgreeStill(adapter.env, trusted, Trusted(), origin, processor.ticks, before, server.log);
      OutsideCall(calls, FetchCall(c.nextSeq, page), liveFrom, processor.ticks);
      FollowOne(start, Outside(calls, liveFrom, processor.ticks, |calls|), FetchCall(c.nextSeq, page));
      if page.Ok? {
        BetweenMembers(server.log, c.nextSeq, page.value.nextSeq, mapping.Channels());
      }
    }

    /** Others wrote since `before`. */
    lemma GrewHere(before: Log)
      requires Increasing(server.log) && before <= server.log && OwnBelow(before, server.own) && server.env == adapter.env
      ensures Grew(adapter.env, Trusted(), before, server.own, server.log, server.own)
    {
      hide Attributed;
    }

    /** One tick, with everything up to `mark` handled. */
    method TickAt(ghost mark: nat) returns (r: Result<(), Ending>)
      requires AtRest(mark)
      modifies processor, puller, state, server
      modifies adapter`step, adapter`generation, adapter`checks, adapter`now, adapter`reports
      modifies adapter`given, adapter`asked, adapter`polls, adapter`queries, adapter`sends
      ensures Increasing(server.log) && server.Onward() && (adapter.Honest() ==> old(adapter.Honest()))
      ensures |processor.ticks| == |old(processor.ticks)| + 1
              && processor.ticks == old(processor.ticks) + [processor.ticks[|old(processor.ticks)|]]
      ensures processor.ticks[|old(processor.ticks)|].read == Below(old(server.log), mark)
      ensures Followed() == old(Followed())
      ensures r.Ok? ==> AtRest(mark) || (server.stopSet && Over())
      ensures r.Err? ==> Reason(r.error)
      ensures r.Err? ==> Over() && r.error.TickFailed?
    {
      hide ProviderMessagePuller.Valid, Joint, Mem.Partition, Inv, Reaches, Refines, Below, Between, Attributed,
           Provider.Honest, Provider.Valid;
      hide Rested, AllBelow, Ticking, Progress, AllAgree, Follow, Outside, AllRecorded, SingleThreadProcessor.Untouched;
      ghost var calls := server.calls;
      ghost var before, trusted, n, s, m := server.log, Trusted(), Below(server.log, mark), AbsAt(mark), state.View();
      ghost var ticks, turn, pending := processor.ticks, processor.workTurn, processor.pendingEvents;
      var work := processor.Tick(n);
      ghost var t := processor.ticks[|ticks|];
      assert processor.ticks == ticks + [t];
      NextTick(mapping, ticks, m, turn, pending, t);
      AgreeOnce(adapter.env, trusted, origin, s, ticks, t);
      AgreeStill(adapter.env, trusted, Trusted(), origin, ticks + [t], before, server.log);
      OutsideTick(calls, server.calls, liveFrom, ticks, t);
      RefinesLess(adapter.env, processor.Honest(), Trusted(), s, if work.Ok? then processor.Abs(n) else Gone());
      RefinesTrans(adapter.env, trusted, Trusted(), origin, s, if work.Ok? then processor.Abs(n) else Gone());
      if work.Err? {
        return Err(TickFailed(work.error));
      }
      LastGrows(before, server.log);
      BelowStable(before, server.log, mark);
      BetweenStable(before, server.log, start, mark, mapping.Channels());
      if work.value == Halted {
        AdapterValid();
        JustDied(adapter.env, Trusted(), AbsAt(mark));
        RefinesTrans(adapter.env, Trusted(), Trusted(), origin, AbsAt(mark), Gone());
      } else {
        StillBelow(mapping, t, mark);
      }
      return Ok(());
    }

    /** Being stopped is a run to the worker's end. */
    lemma Ended(mark: nat)
      requires AtRest(mark)
      ensures Over()
    {
      hide ProviderMessagePuller.Valid, Joint, Mem.Partition, Inv, Reaches, Refines, Below, Between, Attributed,
           Provider.Honest, Provider.Valid;
      hide AllBelow, Ticking, AllAgree, P2PSyncer.Trusted;
      AdapterValid();
      JustDied(adapter.env, Trusted(), AbsAt(mark));
      RefinesTrans(adapter.env, Trusted(), Trusted(), origin, AbsAt(mark), Gone());
      RestedTicks(mapping, processor.ticks, state.View(), processor.workTurn, processor.pendingEvents);
    }

    lemma AdapterValid()
      requires Wired() && processor.Valid()
      ensures adapter.Valid()
    {}

    /** Where nothing is owned, being further on is the same. */
    lemma SkipEmpty(a: nat, b: nat)
      requires AtRest(a) && a <= b <= LastSeq(server.log) + 1 && Between(server.log, a, b, mapping.Channels()) == []
      ensures AtRest(b)
    {
      hide ProviderMessagePuller.Valid, Joint, Mem.Partition, Inv, Reaches, Refines, Below, Between, Attributed,
           Provider.Honest, Provider.Valid;
      hide Rested, AllBelow, Added, AllAgree, Within, P2PSyncer.Trusted;
      BetweenSplits(server.log, start, a, b, mapping.Channels());
      WindowRuns(adapter.env, Trusted(), server.log, adapter.sends, state.View(), state.View(), a, b);
      RefinesTrans(adapter.env, Trusted(), Trusted(), origin, AbsAt(a), AbsAt(b));
      AddedNone(state.View(), a, b);
      ReadOn(mapping, processor.ticks, state.View(), state.View(), processor.workTurn, processor.pendingEvents, a, b);
    }

    /** After a tick the next round starts from what was fetched ahead, if anything was. */
    lemma NextRound(before: Log, c: Cursor) returns (mark: nat)
      requires before <= server.log && Increasing(server.log) && AtRest(c.Mark())
      requires c.snapshotLastSeq.Some? && c.snapshotLastSeq.value < c.nextSeq <= LastSeq(before) + 1
      requires c.prefetchedMessages == Between(before, c.Mark(), c.nextSeq, mapping.Channels())
      requires c.prefetchedLastSeq.None? ==> c.prefetchedMessages == []
      requires c.prefetchedLastSeq.Some? ==> c.nextSeq <= c.prefetchedLastSeq.value + 1 <= LastSeq(before) + 1
      ensures AtRest(mark) && Resting(c.(snapshotLastSeq := None, snapshotHadMessages := false), mark)
    {
      hide P2PSyncer.AtRest, Below, Between;
      LastGrows(before, server.log);
      BetweenStable(before, server.log, c.Mark(), c.nextSeq, mapping.Channels());
      mark := c.Mark();
      if c.prefetchedLastSeq.None? {
        SkipEmpty(mark, c.nextSeq);
        EmptyWindow(server.log, c.nextSeq, mapping.Channels());
        mark := c.nextSeq;
      }
    }

    /** A turn that has not reached its snapshot goes on fetching. */
    lemma SameRound(c: Cursor)
      requires Drained(c) && c.nextSeq <= c.snapshotLastSeq.value
      ensures c.Mark() == c.nextSeq && Resting(c, c.nextSeq)
    {
      EmptyWindow(server.log, c.nextSeq, mapping.Channels());
    }

    /** One turn of the live loop up to the tick: a batch fetched ahead, or one fetch, which may fail for now
        or find that the worker has been told to stop. */
    method Turn(c: Cursor, ghost mark: nat, ghost ticks: seq<Barrier>) returns (r: Result<TurnEnd, Ending>)
      requires AtRest(mark) && Resting(c, mark) && InStep(c, ticks) && Increasing(server.log)
      modifies `handled, state, server`log, server`script, server`calls, server`stopSet
      ensures Increasing(server.log) && server.Onward()
      ensures r.Ok? ==> match r.value
                        case Read(next) => Drained(next) && AtRest(next.Mark()) && InStep(next, ticks)
                        case Again => AtRest(mark) && Resting(c, mark) && InStep(c, ticks) && server.calls != []
                                      && (FailedFetch(server.calls[|server.calls| - 1], Unavailable)
                                          || FailedFetch(server.calls[|server.calls| - 1], DeadlineExceeded))
                        case Left => AtRest(mark) && Resting(c, mark) && InStep(c, ticks) && server.stopSet
      ensures r.Err? ==> Reason(r.error)
      ensures r.Err? ==> Over() && r.error.OfLoop() && !r.error.TickFailed? && (r.error.BadEntry? ==> !Sane())
      ensures r.Err? ==> SnapshotsOf(ticks) <= Followed().due && (!r.error.BadEntry? ==> |Followed().due| <= |ticks| + 1)
    {
      hide P2PSyncer.AtRest, P2PSyncer.Over, P2PSyncer.Sane, P2PSyncer.Followed, Below, Between, Attributed, Increasing,
           AfterPage, Expected, SnapshotsOf, P2PSyncer.Drained;
      StepBound(c, mark, ticks);
      if c.snapshotLastSeq.None? && c.prefetchedLastSeq.Some? {
        var taken := TakePrefetched(c, mark, ticks);
        return if taken.Ok? then Ok(Read(taken.value)) else Err(taken.error);
      }
      var page := FetchLive(c);
      if page.Ok? {
        PageAdds(c.nextSeq, c.snapshotLastSeq, SnapshotsOf(ticks), page.value);
        var taken := TakePage(c, page.value, ticks);
        return if taken.Ok? then Ok(Read(taken.value)) else Err(taken.error);
      }
      var stopped, _ := server.Wait();
      if stopped {
        return Ok(Left);
      }
      if !Transient(page.error) {
        Ended(mark);
        return Err(FetchFailed(page.error));
      }
      var _, _ := server.Wait();
      return Ok(Again);
    }

    /** At the head of the loop at most one tick is due, for what was fetched ahead. */
    lemma StepBound(c: Cursor, mark: nat, ticks: seq<Barrier>)
      requires Resting(c, mark) && InStep(c, ticks)
      ensures SnapshotsOf(ticks) <= Followed().due && |Followed().due| <= |ticks| + 1
    {
      hide P2PSyncer.Followed, Between, LastSeq;
      ExpectedBound(c.nextSeq, c.snapshotLastSeq, c.prefetchedLastSeq, SnapshotsOf(ticks));
    }

    /** Each tick of this life has its barrier, and they are the snapshots due, in order. */
    ghost predicate Fair(ticks: seq<Barrier>)
      reads processor`ticks, `start, `liveFrom, server`log, server`calls
    {
      && Faithful(server.log, processor.ticks, ticks, start, mapping.Channels())
      && SnapshotsOf(ticks) <= Followed().due
    }

    /** No tick is overdue: at most the last snapshot due has not been ticked at. */
    ghost predicate Timely(ticks: seq<Barrier>)
      reads processor`ticks, `start, `liveFrom, server`calls
    {
      |Followed().due| <= |ticks| + 1
    }

    /** The worker can go on from here, or it has just been told to stop. */
    ghost predicate Alive(c: Cursor, mark: nat, ticks: seq<Barrier>)
      reads `handled, `start, `liveFrom, `origin, processor, puller, state
      reads server`log, server`own, server`reported, server`calls, server`stopSet
      reads adapter`reports, adapter`sends, adapter`now, adapter`asked, adapter`given, adapter`polls, adapter`queries
    {
      (AtRest(mark) && Resting(c, mark) && InStep(c, ticks)) || (server.stopSet && Over())
    }

    /** The end of a round: the snapshot has been handled, so it is time for a tick, and perhaps a rest. */
    method FinishRound(c: Cursor, ghost before: seq<Barrier>)
      returns (r: Result<Cursor, Ending>, ghost mark: nat, ghost ticks: seq<Barrier>)
      requires AtRest(c.Mark()) && Drained(c) && InStep(c, before) && c.snapshotLastSeq.value < c.nextSeq
      requires Increasing(server.log) && Faithful(server.log, processor.ticks, before, start, mapping.Channels())
      requires start <= c.Mark() && handled == Between(server.log, start, c.Mark(), mapping.Channels())
      modifies processor, puller, state, server
      modifies adapter`step, adapter`generation, adapter`checks, adapter`now, adapter`reports
      modifies adapter`given, adapter`asked, adapter`polls, adapter`queries, adapter`sends
      ensures Increasing(server.log) && server.Onward() && (adapter.Honest() ==> old(adapter.Honest()))
      ensures ticks == before + [Barrier(c.snapshotLastSeq.value, handled)]
      ensures Fair(ticks) && Timely(ticks)
      ensures r.Ok? ==> Alive(r.value, mark, ticks)
      ensures r.Err? ==> Reason(r.error)
      ensures r.Err? ==> Over() && r.error.TickFailed?
    {
      hide P2PSyncer.AtRest, P2PSyncer.Over, P2PSyncer.Followed, Below, Between, Faithful, SnapshotsOf,
           OpenEvent.Honest, Provider.Honest, P2PSyncer.Reason;
      mark := c.Mark();
      ghost var log, records := server.log, processor.ticks;
      ticks := before + [Barrier(c.snapshotLastSeq.value, handled)];
      var ticked := TickAt(mark);
      OneMoreTick(log, records, before, start, mapping.Channels(), processor.ticks[|records|], ticks[|before|]);
      TicksStay(log, server.log, processor.ticks, ticks, start, mapping.Channels());
      OneMoreSnapshot(before, ticks[|before|]);
      if ticked.Err? {
        return Err(ticked.error), mark, ticks;
      }
      var next := c.(snapshotLastSeq := None, snapshotHadMessages := false);
      if !(server.stopSet && Over()) {
        mark := NextRound(log, c);
      }
      if !c.snapshotHadMessages {
        var _, _ := server.Wait();
      }
      return Ok(next), mark, ticks;
    }

    /** A whole turn of the live loop, with its tick if the snapshot has been reached; None if the worker has
        been told to stop. */
    method LoopTurn(c: Cursor, ghost mark: nat, ghost before: seq<Barrier>)
      returns (r: Result<Option<Cursor>, Ending>, ghost next: nat, ghost ticks: seq<Barrier>)
      requires AtRest(mark) && Resting(c, mark) && InStep(c, before) && Fair(before)
      modifies `handled, processor, puller, state, server
      modifies adapter`step, adapter`generation, adapter`checks, adapter`now, adapter`reports
      modifies adapter`given, adapter`asked, adapter`polls, adapter`queries, adapter`sends
      ensures server.Onward() && (adapter.Honest() ==> old(adapter.Honest())) && Fair(ticks)
      ensures (r.Err? && r.error.BadEntry?) || Timely(ticks)
      ensures r.Ok? ==> if r.value.Some? then Alive(r.value.value, next, ticks) else server.stopSet && Over()
      ensures r.Err? ==> Over() && (r.error.BadEntry? ==> !Sane())
      ensures r.Err? ==> Reason(r.error) && r.error.OfLoop()
    {
      hide P2PSyncer.AtRest, P2PSyncer.Resting, P2PSyncer.Over, P2PSyncer.Sane, P2PSyncer.Followed, Below, Between, Faithful,
           SnapshotsOf, Expected, OpenEvent.Honest, Provider.Honest, P2PSyncer.Reason;
      next, ticks := mark, before;
      ghost var log := server.log;
      RestFacts(mark);
      var turn := Turn(c, mark, ticks);
      TicksStay(log, server.log, processor.ticks, ticks, start, mapping.Channels());
      if turn.Err? {
        return Err(turn.error), next, ticks;
      }
      match turn.value {
        case Left =>
          Ended(mark);
          StepBound(c, mark, ticks);
          return Ok(None), next, ticks;
        case Again =>
          StepBound(c, mark, ticks);
          return Ok(Some(c)), next, ticks;
        case Read(read) =>
          next := read.Mark();
          if read.nextSeq <= read.snapshotLastSeq.value {
            SameRound(read);
            StepBound(read, next, ticks);
            return Ok(Some(read)), next, ticks;
          }
          RestFacts(next);
          var rested;
          rested, next, ticks := FinishRound(read, ticks);
          return if rested.Ok? then Ok(Some(rested.value)) else Err(rested.error), next, ticks;
      }
    }

    /**
     `_poll_events`: the worker ticks at the snapshots that the server's answers make due, each time when exactly
     that snapshot has been handled, whatever was fetched ahead; no tick is left out but perhaps the last; the
     ticks follow one another; the whole loop is a run that ends with the worker gone, normally only when it has
     been told to stop, and not because of an entry if everybody kept to their contracts.
     */
    method PollEvents(startSeq: nat) returns (r: Result<(), Ending>, ghost ticks: seq<Barrier>)
      requires startSeq == start && AtRest(start) && liveFrom == |server.calls| && processor.ticks == []
      modifies `handled, processor, puller, state, server
      modifies adapter`step, adapter`generation, adapter`checks, adapter`now, adapter`reports
      modifies adapter`given, adapter`asked, adapter`polls, adapter`queries, adapter`sends
      ensures server.Onward() && (adapter.Honest() ==> old(adapter.Honest())) && Fair(ticks) && Over()
      ensures (r.Err? && r.error.BadEntry?) || Timely(ticks)
      ensures r.Ok? ==> server.stopSet
      ensures r.Err? ==> Reason(r.error) && r.error.OfLoop()
      ensures r.Err? && r.error.BadEntry? ==> !Sane()
    {
      hide P2PSyncer.AtRest, P2PSyncer.Over, P2PSyncer.Sane, P2PSyncer.Followed, Below, Between, Faithful, OpenEvent.Honest,
           Provider.Honest, P2PSyncer.Reason;
      var next := Some(Cursor(startSeq, None, false, [], None));
      EmptyWindow(server.log, start, mapping.Channels());
      RestFacts(start);
      ghost var mark := start;
      ticks := [];
      NothingYet();
      while true
        invariant next.Some? && Alive(next.value, mark, ticks)
        invariant server.Onward() && (adapter.Honest() ==> old(adapter.Honest())) && Fair(ticks) && Timely(ticks)
        decreases |server.script|
      {
        var stopped, _ := server.Wait();
        if stopped {
          if !Over() { Ended(mark); }
          return Ok(()), ticks;
        }
        var turn;
        turn, mark, ticks := LoopTurn(next.value, mark, ticks);
        if turn.Err? {
          return Err(turn.error), ticks;
        }
        if turn.value.None? {
          return Ok(()), ticks;
        }
        next := turn.value;
      }
    }

    /** Before its first call the loop has nothing to tick at. */
    lemma NothingYet()
      requires liveFrom == |server.calls| && processor.ticks == []
      ensures Followed() == Following([], None, start) && Fair([]) && Timely([])
    {
      assert server.calls[|server.calls|..] == [];
    }

    lemma RestFacts(mark: nat)
      requires AtRest(mark)
      ensures Increasing(server.log) && start <= mark <= LastSeq(server.log) + 1
      ensures handled == Between(server.log, start, mark, mapping.Channels())
    {}

    /**
     `start`: one life of the worker, from a log that any earlier lives may have left, is a run of the
     transition system from the worker being down to its being down again. The live loop takes over
     exactly where the scan was told to end.
     */
    method Start() returns (r: Result<(), Ending>, ghost ticks: seq<Barrier>)
      requires Ready() && mapping.Sound()
      modifies this, processor, puller, state, server
      modifies adapter`step, adapter`generation, adapter`checks, adapter`now, adapter`reports
      modifies adapter`given, adapter`asked, adapter`polls, adapter`queries, adapter`sends
      ensures server.Onward() && (adapter.Honest() ==> old(adapter.Honest()))
      ensures origin == old(Gone()) && Over()
      ensures r.Ok? ==> server.stopSet
      ensures r.Err? ==> Reason(r.error) && r.error !in {ScanStopped, TickFailed(StoppedInRetry)}
      ensures r.Err? && r.error.BadEntry? ==> !Sane()
      ensures Fair(ticks) && ((r.Err? && r.error.BadEntry?) || Timely(ticks))
      ensures callsBefore == |old(server.calls)| < |server.calls| && server.calls[callsBefore].StatusCall?
      ensures ticks != [] ==> start > 0 && server.calls[callsBefore].status == Ok(start - 1)
    {
      hide P2PSyncer.Ready, P2PSyncer.AtRest, P2PSyncer.Over, P2PSyncer.Sane, P2PSyncer.Followed, Below, Between, Faithful,
           P2PSyncer.Reason;
      ReadyFacts();
      origin := Gone();
      ticks := [];
      var scanned := Recovered();
      NothingYet();
      if scanned.Err? {
        if scanned.error == ScanStopped {
          ToldToStop(ScanStopped);
          return Ok(()), ticks;
        }
        return Err(scanned.error), ticks;
      }
      r, ticks := BeginLive(scanned.value + 1);
    }

    lemma ReadyFacts()
      requires Ready()
      ensures Wired() && processor.pendingEvents == [] && processor.ticks == []
      ensures !puller.started && puller.sessions == map[] && puller.liveEvents == []
      ensures callsBefore == liveFrom == |server.calls|
    {}

    /** From the end of the scan on. */
    method BeginLive(startSeq: nat) returns (r: Result<(), Ending>, ghost ticks: seq<Barrier>)
      requires startSeq == start && AtRest(start) && liveFrom == |server.calls| && processor.ticks == []
               && mapping.Sound()
      requires processor.pendingEvents == [] && !puller.started && puller.sessions == map[] && puller.liveEvents == []
      modifies `handled, processor, puller, state, server
      modifies adapter`step, adapter`generation, adapter`checks, adapter`now, adapter`reports
      modifies adapter`given, adapter`asked, adapter`polls, adapter`queries, adapter`sends
      ensures server.Onward() && (adapter.Honest() ==> old(adapter.Honest()))
      ensures Fair(ticks) && Over() && ((r.Err? && r.error.BadEntry?) || Timely(ticks))
      ensures r.Ok? ==> server.stopSet
      ensures r.Err? ==> Reason(r.error) && r.error !in {ScanStopped, TickFailed(StoppedInRetry)}
      ensures r.Err? && r.error.BadEntry? ==> !Sane()
    {
      hide P2PSyncer.Followed, AllAgree, P2PSyncer.Over, P2PSyncer.Sane, Below, Between, Faithful,
           SingleThreadProcessor.Valid, Refines, Rested, AllBelow, P2PSyncer.Reason;
      ticks := [];
      NothingYet();
      Ended(start);
      var started := StartMessagePullers();
      if started.Err? {
        return Err(started.error), ticks;
      }
      r, ticks := PollEvents(startSeq);
      if r == Err(TickFailed(StoppedInRetry)) {
        ToldToStop(r.error);
        r := Ok(());
      }
    }

    lemma ToldToStop(e: Ending)
      requires Wired() && Reason(e) && e in {ScanStopped, TickFailed(StoppedInRetry)}
      ensures server.stopSet
    {}

    /** The scan as a restart, unless the status it was given was older than the log. */
    method Recovered() returns (r: Result<nat, Ending>)
      requires Ready() && origin == Gone()
      modifies `start, `liveFrom, state, server`log, server`script, server`stopSet, server`reported, server`calls
      ensures liveFrom == |server.calls|
      ensures server.Onward()
      ensures callsBefore < |server.calls| && server.calls[callsBefore].StatusCall?
      ensures r.Ok? ==> server.calls[callsBefore].status == Ok(r.value)
      ensures r.Ok? ==> start == r.value + 1 && AtRest(start)
      ensures r.Err? ==> Reason(r.error)
      ensures r.Err? ==> Over() && !r.error.TickFailed? && (r.error.BadEntry? ==> !Sane())
    {
      hide ProviderMessagePuller.Valid, Joint, Mem.Partition, Inv, Reaches, Refines, Below, Recover, Attributed,
           Provider.Honest, Accepted, AllAgree, AllRecorded, P2PSyncer.Reason;
      AdapterValid();
      var scanned, known := ScanHistory();
      liveFrom := |server.calls|;
      if scanned.Err? {
        ScanOver();
        if scanned.error.BadEntry? {
          GrewHere(origin.log);
          ScanFaultMeansInsane(adapter.env, Trusted(), origin, server.log);
        }
        return Err(scanned.error);
      }
      NoneToAgree(adapter.env, Trusted(), origin, server.log);
      LastGrows(origin.log, known);
      LastGrows(known, server.log);
      Resume(known, scanned.value);
      start := scanned.value + 1;
      EmptyWindow(server.log, start, mapping.Channels());
      PrefixBelow(TheSite(), server.log, start, state.View());
      RecordedStill(mapping, {}, state.View().inboundSeen, puller.acks);
      return Ok(scanned.value);
    }

    /** Whatever a failed scan leaves, only others have written. */
    lemma ScanOver()
      requires Wired() && server.Valid() && adapter.Valid() && processor.ticks == [] && origin.worker.Down?
      requires origin.log <= server.log && OwnBelow(origin.log, server.own) && origin.sends == adapter.sends
      ensures Over()
    {
      hide ProviderMessagePuller.Valid, Joint, Mem.Partition, Inv, Reaches, Refines, Attributed, Provider.Honest,
           Provider.Valid;
      NoneToAgree(adapter.env, Trusted(), origin, server.log);
      GrewHere(origin.log);
      CallersOnly(adapter.env, Trusted(), origin, server.own, server.log);
    }

    /** After the scan the memory is sound and, if the status was current, the scan was a restart. */
    lemma Resume(known: Log, scanEnd: nat)
      requires Wired() && server.Valid() && origin.worker.Down? && origin.log <= known <= server.log
               && origin.sends == adapter.sends
      requires OwnBelow(origin.log, server.own)
      requires ScanEndsAt(callsBefore, scanEnd, known)
      requires Recover(TheSite(), server.log[..Below(server.log, scanEnd + 1)]) == Ok(state.View())
      ensures state.View().Partition() && state.View().blocked == map[]
      ensures Refines(adapter.env, Trusted(), origin, AbsAt(scanEnd + 1))
    {
      hide Inv, Reaches, Refines, Recover, Attributed, Mem.Partition, Provider.Honest;
      RecoveryMeansLog(TheSite(), server.log[..Below(server.log, scanEnd + 1)]);
      if Trusted() {
        PrefixStable(known, server.log, scanEnd + 1);
        BelowStable(known, server.log, scanEnd + 1);
        BelowAll(known, scanEnd + 1);
        assert known[..|known|] == known;
        GrewHere(origin.log);
        RestartRuns(adapter.env, true, origin.log, server.own, known, server.log, adapter.sends, state.View());
      } else {
        Untrusted(adapter.env, origin, AbsAt(scanEnd + 1));
      }
    }
  }

  /** How a turn of the live loop ended: a batch was read, the fetch failed for now, or the worker was told to stop. */
  datatype TurnEnd = Read(next: Cursor) | Again | Left

  function SnapshotsOf(ticks: seq<Barrier>): (r: seq<nat>)
    ensures |r| == |ticks| && forall k :: 0 <= k < |r| ==> r[k] == ticks[k].snapshot
  {
    if ticks == [] then [] else SnapshotsOf(ticks[..|ticks| - 1]) + [ticks[|ticks| - 1].snapshot]
  }

  lemma OneMoreSnapshot(ticks: seq<Barrier>, b: Barrier)
    ensures SnapshotsOf(ticks + [b]) == SnapshotsOf(ticks) + [b.snapshot]
  {}

  /** A page only adds to the snapshots due, and nothing if it does not move on. */
  lemma PageAdds(next: nat, snapshot: Option<nat>, ticked: seq<nat>, page: Page)
    requires snapshot.Some? ==> next <= snapshot.value
    ensures ticked <= AfterPage(Expected(next, snapshot, None, ticked), page).due
    ensures page.nextSeq <= page.lastSeq && page.nextSeq <= next ==>
              AfterPage(Expected(next, snapshot, None, ticked), page).due == ticked
  {}

  /** At every tick exactly the owned entries from `start` up to the snapshot had been handled, and everything up to
      the snapshot had been read. */
  ghost predicate Faithful(log: Log, records: seq<TickRecord>, ticks: seq<Barrier>, start: nat, channels: set<nat>) {
    && |records| == |ticks|
    && forall k :: 0 <= k < |ticks| ==>
         && start <= ticks[k].snapshot + 1 <= LastSeq(log) + 1
         && ticks[k].handled == Between(log, start, ticks[k].snapshot + 1, channels)
         && records[k].read == Below(log, ticks[k].snapshot + 1)
  }

  lemma OneMoreTick(log: Log, records: seq<TickRecord>, ticks: seq<Barrier>, start: nat, channels: set<nat>, t: TickRecord,
                    b: Barrier)
    requires Faithful(log, records, ticks, start, channels)
    requires start <= b.snapshot + 1 <= LastSeq(log) + 1 && b.handled == Between(log, start, b.snapshot + 1, channels)
    requires t.read == Below(log, b.snapshot + 1)
    ensures Faithful(log, records + [t], ticks + [b], start, channels)
  {
    hide Between, Below;
  }

  lemma TicksStay(before: Log, log: Log, records: seq<TickRecord>, ticks: seq<Barrier>, start: nat, channels: set<nat>)
    requires Faithful(before, records, ticks, start, channels) && before <= log && Increasing(log)
    ensures Faithful(log, records, ticks, start, channels)
  {
    hide Between, Below;
    LastGrows(before, log);
    forall k | 0 <= k < |ticks|
      ensures ticks[k].handled == Between(log, start, ticks[k].snapshot + 1, channels)
      ensures records[k].read == Below(log, ticks[k].snapshot + 1)
    {
      BetweenStable(before, log, start, ticks[k].snapshot + 1, channels);
      BelowStable(before, log, ticks[k].snapshot + 1);
    }
  }

  lemma RestedTicks(ix: Index, ticks: seq<TickRecord>, m: Mem, turn: nat, pending: seq<ProviderEvent>)
    requires Rested(ix, ticks, m, turn, pending)
    ensures Ticking(ix, ticks)
  {}

  lemma AddedNone(m: Mem, lo: nat, hi: nat)
    ensures Added(m, m, lo, hi)
  {}

  /** A tick that goes leaves no request that was not there. */
  lemma StillBelow(ix: Index, t: TickRecord, mark: nat)
    requires t.Went(ix) && AllBelow(t.before, mark)
    ensures AllBelow(t.after, mark)
  {}

  lemma LiveAdds(site: Site, m: Mem, msg: Message, next: Mem, lo: nat, hi: nat)
    requires m.Partition() && Live(site, m, msg) == Ok(next) && lo <= msg.sn < hi
    ensures Added(m, next, lo, hi)
  {
    hide Mem.Partition, Payload.Parses, RolesOk, RequestAdded, Added;
    AddedNone(m, lo, hi);
    if msg.payload.SendRequest? && RequestAdded(m, msg).Ok? {
      AddedIsNew(m, msg, lo, hi);
    }
  }

  lemma PrefixBelow(site: Site, log: Log, s: nat, m: Mem)
    requires Increasing(log) && Recover(site, log[..Below(log, s)]) == Ok(m)
    ensures AllBelow(m, s)
  {
    hide Recover;
    BelowSplits(log, s);
    RecoveredBelow(site, log[..Below(log, s)], m, s);
  }

  lemma OneChannel(ix: Index, c: nat, d: nat)
    requires ix.Sound() && ix.Owns(c) && ix.Owns(d) && ix.Session(c).0 == ix.Session(d).0
             && ix.Session(c).1 == ix.Session(d).1
    ensures c == d
  {
    SessionsInverse(ix, c, ix.Session(c));
    SessionsInverse(ix, d, ix.Session(c));
    assert ix.Session(c) == ix.Session(d);
  }

  /** Everybody has kept to their contract so far, and no life began with a status older than the log: `births` are
      the calls with which lives began. */
  ghost predicate LifeTrust(server: OpenEvent, adapter: Provider, births: seq<nat>)
    reads server`log, server`own, server`calls, adapter`reports, adapter`sends
  {
    server.Honest() && adapter.Honest() && forall b :: b in births && b < |server.calls| ==> !server.calls[b].Stale()
  }

  ghost function LastGone(server: OpenEvent, adapter: Provider): State
    reads server`log, adapter`sends
  {
    State(server.log, adapter.sends, Down)
  }

  /** One life of a new worker. */
  method Life(server: OpenEvent, adapter: Provider, mapping: Index, workerPrincipal: nat, config: SyncConfig,
              maxAttempts: nat)
    returns (r: Result<(), Ending>)
    requires server.Valid() && adapter.Valid() && mapping.Sound()
    requires server.env == adapter.env && adapter.env.site == Site(mapping, workerPrincipal)
    modifies server, adapter
    ensures server.Valid() && adapter.Valid() && server.Onward() && (adapter.Honest() ==> old(adapter.Honest()))
    ensures |old(server.calls)| < |server.calls| && server.calls[|old(server.calls)|].StatusCall?
    ensures Refines(adapter.env, LifeTrust(server, adapter, [|old(server.calls)|]), old(LastGone(server, adapter)),
                    LastGone(server, adapter))
    ensures r.Ok? ==> server.stopSet
    ensures r.Err? ==> r.error !in {ScanStopped, TickFailed(StoppedInRetry)}
    ensures r.Err? && r.error.BadEntry? ==>
              !(LifeTrust(server, adapter, [|old(server.calls)|]) && adapter.env.Sound()
                && Inv(adapter.env, old(LastGone(server, adapter))))
  {
    hide Inv, Refines, OpenEvent.Honest, Provider.Honest, OpenEvent.Valid, Provider.Valid, P2PSyncer.Ready, Ticking, AllAgree;
    hide P2PSyncer.Fair, P2PSyncer.Timely;
    server.NewWorker();
    var worker := new P2PSyncer(server, adapter, mapping, workerPrincipal, config, maxAttempts);
    ghost var s, birth := LastGone(server, adapter), |server.calls|;
    ghost var ticks;
    r, ticks := worker.Start();
    RefinesLess(adapter.env, worker.Trusted(), LifeTrust(server, adapter, [birth]), s, LastGone(server, adapter));
  }

  /**
   Any number of lives, one for each configuration, each of a new worker over what the ones before it and
   the other writers left. However each of them ended, if the other writers and the provider kept to their
   contracts and no life began with a stale status, the whole is one run of the transition system.
   */
  method Lives(server: OpenEvent, adapter: Provider, mapping: Index, workerPrincipal: nat, configs: seq<SyncConfig>,
               maxAttempts: nat)
    returns (ghost births: seq<nat>)
    requires server.Valid() && adapter.Valid() && server.own == {} && adapter.sends == [] && mapping.Sound()
    requires server.env == adapter.env && adapter.env.site == Site(mapping, workerPrincipal)
    modifies server, adapter
    ensures server.Valid() && adapter.Valid() && old(server.log) <= server.log && |births| == |configs|
    ensures forall b :: b in births ==> b < |server.calls| && server.calls[b].StatusCall?
    ensures adapter.env.Sound() && LifeTrust(server, adapter, births)
            ==> var env, s := adapter.env, LastGone(server, adapter);
                Reaches(env, START, s) && Inv(env, s) && Recover(env.site, s.log).Ok?
  {
    hide Inv, Reaches, Refines, OpenEvent.Valid, Provider.Valid, OpenEvent.Honest, Provider.Honest;
    births := [];
    BeforeAnyLife(server, adapter);
    for i := 0 to |configs|
      invariant server.Valid() && adapter.Valid() && old(server.log) <= server.log && |births| == i
      invariant forall b :: b in births ==> b < |server.calls| && server.calls[b].StatusCall?
      invariant Refines(adapter.env, LifeTrust(server, adapter, births), START, LastGone(server, adapter))
    {
      ghost var trusted, s, birth := LifeTrust(server, adapter, births), LastGone(server, adapter), |server.calls|;
      var _ := Life(server, adapter, mapping, workerPrincipal, configs[i], maxAttempts);
      ghost var more := births + [birth];
      RefinesLess(adapter.env, LifeTrust(server, adapter, [birth]), LifeTrust(server, adapter, more), s,
                  LastGone(server, adapter));
      RefinesTrans(adapter.env, trusted, LifeTrust(server, adapter, more), START, s, LastGone(server, adapter));
      births := more;
    }
    if adapter.env.Sound() && LifeTrust(server, adapter, births) {
      LifeAfterLife(adapter.env, LastGone(server, adapter));
    }
  }

  /** What other writers wrote before the first life. */
  lemma BeforeAnyLife(server: OpenEvent, adapter: Provider)
    requires server.Valid() && server.own == {} && adapter.sends == [] && server.env == adapter.env
    ensures Refines(adapter.env, LifeTrust(server, adapter, []), START, State(server.log, adapter.sends, Down))
  {
    hide Attributed, Reaches, Inv, Provider.Honest;
    CallersOnly(adapter.env, LifeTrust(server, adapter, []), START, {}, server.log);
  }

  /** So everything proved of reachable states holds of the real log after any number of lives. */
  lemma LifeAfterLife(env: Env, s: State)
    requires env.Sound() && Refines(env, true, START, s)
    ensures Reaches(env, START, s) && Inv(env, s) && Recover(env.site, s.log).Ok?
  {
    hide Inv, Reaches;
    ReachRefl(env, START);
    ReachableIsGood(env, START);
    ReachableIsGood(env, s);
    RecoveryNeverConflicts(env, s);
  }
}
