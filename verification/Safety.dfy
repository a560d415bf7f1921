/** The invariant of the transition system, step by step, and what it means for whole runs. */
module Safety {
  import opened Common
  import opened Wire
  import opened Mapping
  import opened Memory
  import opened Queue
  import opened Replay
  import opened System

  // ---- facts about requests in a good log

  /** A first request stays first as the log grows. */
  lemma {:induction false} TaskPersists(site: Site, log: Log, n: nat, id: string)
    requires n <= |log|
    ensures FirstTask(site, log[..n], id).Some? ==> FirstTask(site, log, id) == FirstTask(site, log[..n], id)
    decreases |log|
  {
    if n < |log| {
      TaskPersists(site, log[..|log| - 1], n, id);
      assert log[..|log| - 1][..n] == log[..n];
    } else {
      assert log[..n] == log;
    }
  }

  lemma ResultPersists(site: Site, log: Log, msg: Message, id: string)
    ensures FirstResult(site, log, id).Some? ==> FirstResult(site, log + [msg], id) == FirstResult(site, log, id)
  {
    GrowResult(site, log, msg, id);
  }

  lemma TaskFacts(env: Env, log: Log, id: string)
    requires LogGood(env, log) && FirstTask(env.site, log, id).Some?
    ensures var t := FirstTask(env.site, log, id).value;
            env.site.ix.Owns(t.channelId) && t.requestId == id && id != "" && t.sn <= LastSeq(log)
  {
    FirstTaskMeaning(env.site, log, id);
    var t := FirstTask(env.site, log, id).value;
    var i :| 0 <= i < |log| && IsRequest(env.site, log[i], id) && TaskOf(log[i]) == t;
    assert EntryGood(env, log[..i], log[i]);
  }

  /** A request older than one in a prefix is in that prefix too. */
  lemma OlderIsInPrefix(env: Env, log: Log, n: nat, a: string, b: string)
    requires LogGood(env, log) && n <= |log|
    requires Older(env.site, log, a, b) && FirstTask(env.site, log[..n], b).Some?
    ensures FirstTask(env.site, log[..n], a) == FirstTask(env.site, log, a)
  {
    var site := env.site;
    TaskPersists(site, log, n, a);
    TaskPersists(site, log, n, b);
    FirstTaskMeaning(site, log, a);
    FirstTaskMeaning(site, log[..n], b);
    var i :| 0 <= i < |log| && IsRequest(site, log[i], a) && TaskOf(log[i]) == FirstTask(site, log, a).value;
    var j :| 0 <= j < n && IsRequest(site, log[..n][j], b) && TaskOf(log[..n][j]) == FirstTask(site, log, b).value;
    assert log[..n][j] == log[j];
    assert i < j;
    FirstTaskMeaning(site, log[..n], a);
    assert IsRequest(site, log[..n][i], a);
  }

  // ---- growing the log

  lemma LogGrows(env: Env, log: Log, msg: Message)
    requires LogGood(env, log) && LastSeq(log) < msg.sn && EntryGood(env, log, msg)
    ensures LogGood(env, log + [msg])
  {
    var grown := log + [msg];
    forall i | 0 <= i < |grown| ensures EntryGood(env, grown[..i], grown[i]) {
      if i < |log| {
        assert grown[..i] == log[..i] && grown[i] == log[i];
      } else {
        assert grown[..i] == log;
      }
    }
  }

  lemma SendsKeep(env: Env, log: Log, sends: seq<Delivery>, msg: Message)
    requires LogGood(env, log) && SendsGood(env, log, sends) && LastSeq(log) < msg.sn
    ensures SendsGood(env, log + [msg], sends)
  {
    var site, grown := env.site, log + [msg];
    forall d | d in sends ensures Genuine(env, grown, d)
        && FirstTask(site, grown, d.requestId) == FirstTask(site, log, d.requestId) {
      assert Genuine(env, log, d);
      GrowTask(site, log, msg, d.requestId);
    }
    forall d, id | d in sends && Older(site, grown, id, d.requestId)
      ensures Older(site, log, id, d.requestId) && FirstResult(site, grown, id).Some?
    {
      assert Genuine(env, log, d);
      GrowTask(site, log, msg, id);
      TaskFacts(env, log, d.requestId);
      ResultPersists(site, log, msg, id);
    }
    forall i, j | 0 <= i < j < |sends| ensures !Older(site, grown, sends[j].requestId, sends[i].requestId) {
      assert sends[i] in sends && sends[j] in sends;
      assert !Older(site, log, sends[j].requestId, sends[i].requestId);
    }
  }

  lemma PrefixOfGrown(log: Log, n: nat, msg: Message)
    requires n <= |log|
    ensures (log + [msg])[..n] == log[..n]
  {}

  // ---- steps

  lemma CallerAppendKeeps(env: Env, s: State, msg: Message)
    requires env.Sound() && Inv(env, s) && LastSeq(s.log) < msg.sn && CallerOk(env, s.log, msg)
    ensures Inv(env, s.(log := s.log + [msg]))
  {
    LogGrows(env, s.log, msg);
    SendsKeep(env, s.log, s.sends, msg);
    if s.worker.Up? {
      AgreesQuiet(env.site, Settled(env, s.worker), s.log, s.worker.n, msg);
      PrefixOfGrown(s.log, s.worker.n, msg);
    }
  }

  /** Every good log recovers, to the memory it means. */
  lemma GoodRecovers(env: Env, log: Log)
    requires LogGood(env, log)
    ensures Recover(env.site, log).Ok? && Rebuilt(env.site, Recover(env.site, log).value, log)
  {
    forall i | 0 <= i < |log| ensures EntryOk(env.site, log[..i], log[i]) {
      assert EntryGood(env, log[..i], log[i]);
    }
    RecoveryMeansLog(env.site, log);
  }

  lemma RestartKeeps(env: Env, s: State, t: State)
    requires env.Sound() && Inv(env, s) && Step(env, s, Restart, t)
    ensures Inv(env, t)
  {
    GoodRecovers(env, s.log);
    assert s.log[..|s.log|] == s.log;
    forall d | d in s.sends ensures FirstTask(env.site, s.log[..|s.log|], d.requestId).Some? {
      assert Genuine(env, s.log, d);
    }
  }

  lemma FetchKeeps(env: Env, s: State, t: State)
    requires env.Sound() && Inv(env, s) && Step(env, s, Fetch, t)
    ensures Inv(env, t)
  {
    var site, m, n := env.site, s.worker.m, s.worker.n;
    assert Agrees(site, t.worker.m, s.log, n + 1) && t.worker.m.blocked == m.blocked by {
      if Owned(site, s.log[n]) && s.log[n].payload.SendRequest? {
        AgreesFetchRequest(site, m, t.worker.m, s.log, n);
        SameOtherwise(m, s.log[n]);
      } else {
        AgreesFetchOther(site, m, s.log, n);
      }
    }
    ReadMore(env, s, n + 1);
  }

  /** Reading further never forgets a request. */
  lemma ReadMore(env: Env, s: State, k: nat)
    requires s.worker.Up? && WorkerGood(env, s) && s.worker.n <= k <= |s.log|
    ensures forall d :: d in s.sends ==> FirstTask(env.site, s.log[..k], d.requestId).Some?
  {
    forall d | d in s.sends ensures FirstTask(env.site, s.log[..k], d.requestId).Some? {
      assert s.log[..k][..s.worker.n] == s.log[..s.worker.n];
      TaskPersists(env.site, s.log[..k], s.worker.n, d.requestId);
    }
  }

  /** Choosing changes only the heap and the blocker. */
  lemma AgreesNext(site: Site, m: Mem, next: Mem, log: Log, n: nat, r: Option<Task>)
    requires n <= |log| && Agrees(site, m, log, n) && NextPending(m, next, r)
    requires r.Some? ==> !m.Blocks(r.value.channelId, r.value.requestId)
    ensures Agrees(site, next, log, n)
  {
    assert next.Partition() by { NextKeeps(m, next, r); }
    AgreesTasks(site, m, next, log, n, n);
  }

  lemma NoTaskKeeps(env: Env, s: State, next: Mem, t: State)
    requires env.Sound() && Inv(env, s) && Step(env, s, NoTask(next), t)
    ensures Inv(env, t)
  {
    AgreesNext(env.site, s.worker.m, next, s.log, s.worker.n, None);
  }

  /** What is chosen at rest: the oldest unanswered request among those read. */
  lemma ChosenFacts(env: Env, s: State, next: Mem, task: Task)
    requires env.Sound() && Inv(env, s) && s.worker.Up? && s.worker.phase.Idle?
    requires NextPending(s.worker.m, next, Some(task))
    ensures FirstTask(env.site, s.log[..s.worker.n], task.requestId) == Some(task)
    ensures FirstTask(env.site, s.log, task.requestId) == Some(task)
    ensures FirstResult(env.site, s.log, task.requestId) == None
    ensures forall id :: Older(env.site, s.log, id, task.requestId) ==> FirstResult(env.site, s.log, id).Some?
    ensures Holding(env, next, task)
  {
    hide LogGood, SendsGood;
    var site, m, log, n := env.site, s.worker.m, s.log, s.worker.n;
    IdleChoosesOldest(m, next, Some(task));
    LiveIsCanonical(m, task);
    assert Get(m.canonical, task.requestId) == FirstTask(site, log[..n], task.requestId);
    TaskPersists(site, log, n, task.requestId);
    forall id | Older(site, log, id, task.requestId) ensures FirstResult(site, log, id).Some? {
      OlderIsAnswered(env, s, task, id);
    }
  }

  /** With the oldest live request known, everything older has a result. */
  lemma OlderIsAnswered(env: Env, s: State, task: Task, id: string)
    requires Inv(env, s) && s.worker.Up? && s.worker.phase.Idle?
    requires forall t :: s.worker.m.Live(t) ==> task.sn <= t.sn
    requires FirstTask(env.site, s.log[..s.worker.n], task.requestId) == FirstTask(env.site, s.log, task.requestId)
             == Some(task)
    requires Older(env.site, s.log, id, task.requestId)
    ensures FirstResult(env.site, s.log, id).Some?
  {
    hide LogGood, SendsGood;
    var site, m, log, n := env.site, s.worker.m, s.log, s.worker.n;
    OlderIsInPrefix(env, log, n, id, task.requestId);
    if id !in m.completed {
      assert Get(m.canonical, id) == FirstTask(site, log[..n], id);
      assert Get(m.requests, id) == Get(m.canonical, id);
      TaskFacts(env, log, id);
    }
  }

  lemma SendKeeps(env: Env, s: State, next: Mem, task: Task, sender: string, t: State)
    requires env.Sound() && Inv(env, s) && Step(env, s, Send(next, task, sender), t)
    ensures Inv(env, t)
  {
    hide LogGood, SendsGood, NextPending, Agrees, Holding;
    var site, log, n := env.site, s.log, s.worker.n;
    ChosenFacts(env, s, next, task);
    AgreesNext(site, s.worker.m, next, log, n, Some(task));
    SendExtends(env, s, task, sender);
    var d := DeliveryOf(env, task, sender);
    assert t.sends[|s.sends|] == d;
    assert d in t.sends && d.requestId == task.requestId;
  }

  lemma SendExtends(env: Env, s: State, task: Task, sender: string)
    requires SendsGood(env, s.log, s.sends)
    requires FirstTask(env.site, s.log, task.requestId) == Some(task)
    requires FirstResult(env.site, s.log, task.requestId) == None
    requires forall id :: Older(env.site, s.log, id, task.requestId) ==> FirstResult(env.site, s.log, id).Some?
    requires env.site.ix.SenderExternalId(task.channelId, task.principal, "bot") == Some(sender)
    ensures SendsGood(env, s.log, s.sends + [DeliveryOf(env, task, sender)])
  {
    var site, log, d := env.site, s.log, DeliveryOf(env, task, sender);
    var sends := s.sends + [d];
    forall e | e in sends ensures Genuine(env, log, e) {
      if e !in s.sends { assert e == d; }
    }
    forall i, j | 0 <= i < j < |sends| ensures !Older(site, log, sends[j].requestId, sends[i].requestId) {
      assert sends[i] in s.sends;
      if j == |s.sends| {
        assert sends[j] == d;
      }
    }
  }

  lemma MarkedIsAnswered(env: Env, m: Mem, t: Task, sn: nat)
    ensures var session := env.site.ix.Session(t.channelId);
            var id := env.messageIdOf(t.requestId);
            ResultMarked(m, t, session, id, sn) == Answered(m, t, Some((session.0, session.1, t.channelId, id)), sn)
  {}

  /** The result the worker publishes belongs at the end of the log. */
  lemma ResultFits(env: Env, s: State, sn: nat, ms: int)
    requires env.Sound() && Inv(env, s) && s.worker.Up? && s.worker.phase.Sent? && LastSeq(s.log) < sn && 0 <= ms
    ensures var task := s.worker.phase.task;
            && Get(s.worker.m.canonical, task.requestId) == Some(task)
            && FirstResult(env.site, s.log, task.requestId) == None
            && Owned(env.site, Stamp(ResultDraft(env, task, ms), sn))
            && EntryGood(env, s.log, Stamp(ResultDraft(env, task, ms), sn))
  {
    var site, m, n, task := env.site, s.worker.m, s.worker.n, s.worker.phase.task;
    LiveIsCanonical(m, task);
    assert Get(m.canonical, task.requestId) == FirstTask(site, s.log[..n], task.requestId);
    TaskPersists(site, s.log, n, task.requestId);
    TaskFacts(env, s.log, task.requestId);
    assert task.requestId !in m.completed;
  }

  lemma ResultSettles(env: Env, s: State, sn: nat, ms: int)
    requires env.Sound() && Inv(env, s) && s.worker.Up? && s.worker.phase.Sent? && LastSeq(s.log) < sn && 0 <= ms
    ensures var task := s.worker.phase.task;
            Agrees(env.site, ResultMarked(s.worker.m, task, env.site.ix.Session(task.channelId),
                                          env.messageIdOf(task.requestId), sn),
                   s.log + [Stamp(ResultDraft(env, task, ms), sn)], s.worker.n)
  {
    var task := s.worker.phase.task;
    ResultFits(env, s, sn, ms);
    AgreesResult(env.site, s.worker.m, s.log, s.worker.n, Stamp(ResultDraft(env, task, ms), sn), task);
    MarkedIsAnswered(env, s.worker.m, task, sn);
  }

  /** A commit adds one good entry and moves to a phase whose settled memory agrees. */
  lemma CommitKeeps(env: Env, s: State, msg: Message, phase: Phase, t: State)
    requires env.Sound() && Inv(env, s) && s.worker.Up? && LastSeq(s.log) < msg.sn && EntryGood(env, s.log, msg)
    requires t == s.(log := s.log + [msg], worker := Up(s.worker.m, s.worker.n, phase))
    requires PhaseGood(env, s.worker.m, phase) && !phase.Sent?
    requires Agrees(env.site, Settled(env, t.worker), t.log, s.worker.n)
    ensures Inv(env, t)
  {
    LogGrows(env, s.log, msg);
    SendsKeep(env, s.log, s.sends, msg);
    PrefixOfGrown(s.log, s.worker.n, msg);
  }

  lemma CommitResultKeeps(env: Env, s: State, sn: nat, ms: int, t: State)
    requires env.Sound() && Inv(env, s) && Step(env, s, CommitResult(sn, ms), t)
    ensures Inv(env, t)
  {
    var task := s.worker.phase.task;
    var msg := Stamp(ResultDraft(env, task, ms), sn);
    assert EntryGood(env, s.log, msg) by { ResultFits(env, s, sn, ms); }
    ResultSettles(env, s, sn, ms);
    CommitKeeps(env, s, msg, ResultOut(task, sn), t);
  }

  lemma MarkResultKeeps(env: Env, s: State, t: State)
    requires env.Sound() && Inv(env, s) && Step(env, s, MarkResult, t)
    ensures Inv(env, t)
  {
    var task := s.worker.phase.task;
    assert t.worker.m.blocked == map[];
  }

  /** Peers come out of the index already sorted and unique. */
  lemma RecordRoles(env: Env, c: nat, principal: nat)
    requires env.Sound() && env.site.ix.Owns(c) && principal in env.site.ix.Participants(c)
    ensures SortedUnique(env.site.ix.PeerPrincipals(c, principal)) == env.site.ix.PeerPrincipals(c, principal)
  {
    var q := PeersInvolution(env.site.ix, c, principal);
    assert [q][..0] == [];
    assert SortedUnique([]) == [] && Insert([], q) == [q];
  }

  /** When a channel has nothing pending, all its requests that were read have results. */
  lemma NothingPending(env: Env, s: State, c: nat, id: string)
    requires env.Sound() && Inv(env, s) && s.worker.Up? && s.worker.phase.Idle? && !s.worker.m.ChannelHasPending(c)
    requires FirstTask(env.site, s.log[..s.worker.n], id).Some?
    requires FirstTask(env.site, s.log[..s.worker.n], id).value.channelId == c
    ensures FirstResult(env.site, s.log, id).Some?
  {
    var m := s.worker.m;
    assert Get(m.canonical, id) == FirstTask(env.site, s.log[..s.worker.n], id);
    assert Get(m.requests, id) == if id in m.completed then None else Get(m.canonical, id);
  }

  lemma SessionOfChannel(env: Env, e: ProviderEvent, c: nat)
    requires env.Sound() && env.site.ix.ChannelFor(e.provider, e.sessionId) == Some(c)
    ensures env.site.ix.Owns(c) && env.site.ix.Session(c) == (e.provider, e.sessionId)
  {
    SessionsInverse(env.site.ix, c, (e.provider, e.sessionId));
  }

  /** A good log's results carry the ids their requests name, in their requests' channels. */
  lemma ResultFacts(env: Env, log: Log, r: string)
    requires LogGood(env, log) && FirstResult(env.site, log, r).Some?
    ensures var f := FirstResult(env.site, log, r).value;
            && f.messageId == Some(env.messageIdOf(r)) && f.status == Success
            && FirstTask(env.site, log, r).Some? && FirstTask(env.site, log, r).value.channelId == f.channelId
  {
    var site := env.site;
    FirstResultMeaning(site, log, r);
    var i :| 0 <= i < |log| && IsResult(site, log[i], r) && ResultOf(log[i]) == FirstResult(site, log, r).value;
    assert EntryGood(env, log[..i], log[i]);
    TaskPersists(site, log, i, r);
  }

  /** In a good log the link of a worker-sent message is its request's result. */
  lemma {:induction false} LinkIsResult(env: Env, log: Log, k: InboundKey, r: string)
    requires env.Sound() && LogGood(env, log) && k.3 == env.messageIdOf(r) && FirstResult(env.site, log, r).Some?
    requires var c := FirstResult(env.site, log, r).value.channelId;
             k == (env.site.ix.Session(c).0, env.site.ix.Session(c).1, c, k.3)
    ensures LinkAt(env.site, log, k) == Some(FirstResult(env.site, log, r).value.sn)
  {
    var site, before, msg := env.site, log[..|log| - 1], log[|log| - 1];
    assert log == before + [msg];
    GrowResult(site, before, msg, r);
    GrowLink(site, before, msg, k);
    assert log[..|log| - 1] == before && EntryGood(env, log[..|log| - 1], log[|log| - 1]);
    if FirstResult(site, before, r).Some? {
      forall i | 0 <= i < |before| ensures EntryGood(env, before[..i], before[i]) {
        assert before[..i] == log[..i] && EntryGood(env, log[..i], log[i]);
      }
      LinkIsResult(env, before, k, r);
    }
  }

  /** The record of a message the worker sent finds its result linked. */
  lemma RecordIsCaused(env: Env, s: State, e: ProviderEvent, c: nat, r: string)
    requires env.Sound() && Inv(env, s) && s.worker.Up? && s.worker.phase.Idle? && !s.worker.m.ChannelHasPending(c)
    requires env.site.ix.ChannelFor(e.provider, e.sessionId) == Some(c)
    requires EventOk(env, s.sends, e) && env.originOf(e.messageId) == Some(r)
    ensures FirstResult(env.site, s.log, r).Some? && FirstResult(env.site, s.log, r).value.channelId == c
    ensures LinkAt(env.site, s.log, EventKey(e, c)) == Some(FirstResult(env.site, s.log, r).value.sn)
  {
    var site, log, n := env.site, s.log, s.worker.n;
    SessionOfChannel(env, e, c);
    var d :| d in s.sends && d.requestId == r && d.session == (e.provider, e.sessionId);
    assert Genuine(env, log, d) && FirstTask(site, log[..n], r).Some?;
    TaskPersists(site, log, n, r);
    var t := FirstTask(site, log, r).value;
    TaskFacts(env, log, r);
    SessionsInverse(site.ix, t.channelId, d.session);
    NothingPending(env, s, c, r);
    ResultFacts(env, log, r);
    LinkIsResult(env, log, EventKey(e, c), r);
  }

  /** A record that encodes can be read back exactly when its content has no forbidden key; the lightweight
      content never has one. */
  lemma RecordReadable(e: ProviderEvent, prev: Option<nat>, ms: int, omitted: bool)
    requires RecordPayload(e, prev, ms, omitted).Encodes()
    ensures RecordPayload(e, prev, ms, omitted).Parses() <==> omitted || e.contentRaw.Clean()
  {
    if omitted {
      OmissionClean(e);
    }
  }

  lemma OmissionClean(e: ProviderEvent)
    ensures Omission(e).Clean()
  {
    var meta := Omission(e).fields["metadata"];
    assert forall k :: k in meta.fields ==> meta.fields[k].JsonString?;
    assert meta.Clean();
    assert forall k :: k in Omission(e).fields && k != "metadata" ==>
             !Omission(e).fields[k].JsonObject? && !Omission(e).fields[k].JsonArray?;
  }

  /** At rest the memory's links and seen keys are the log's. */
  lemma NotedAtRest(env: Env, s: State, k: InboundKey)
    requires Inv(env, s) && s.worker.Up? && s.worker.phase.Idle?
    ensures Get(s.worker.m.links, k) == LinkAt(env.site, s.log, k)
            && (k in s.worker.m.inboundSeen <==> SeenIn(env.site, s.log, k))
  {
    hide LogGood, SendsGood;
  }

  /** A record from a resolved sender to its sorted peers has the roles of one. */
  lemma RolesOfRecord(env: Env, e: ProviderEvent, c: nat, principal: nat, msg: Message)
    requires env.Sound() && env.site.ix.ChannelFor(e.provider, e.sessionId) == Some(c)
    requires env.site.ix.PrincipalFor(c, e.provider, e.senderId, e.identityType) == Some(principal)
    requires msg.payload.SyncRecord? && msg.channelId == c && msg.principal == principal
    requires msg.recipients == SortedUnique(env.site.ix.PeerPrincipals(c, principal))
    ensures RolesOk(env.site, msg)
  {
    SessionOfChannel(env, e, c);
    ResolvedParticipates(env.site.ix, c, e.provider, e.senderId, e.identityType);
    RecordRoles(env, c, principal);
  }

  /** So does the record. */
  lemma RecordFits(env: Env, s: State, e: ProviderEvent, c: nat, principal: nat, sn: nat, ms: int, omitted: bool, t: State)
    requires env.Sound() && Inv(env, s) && Step(env, s, CommitRecord(e, c, principal, sn, ms, omitted), t)
    ensures var msg := t.log[|s.log|];
            && t.log == s.log + [msg] && Owned(env.site, msg) && EntryGood(env, s.log, msg)
            && msg.payload.SyncRecord? && RecordKey(env.site, msg) == EventKey(e, c)
            && msg.channelId == c && msg.payload.eventMs == e.eventMs && msg.sn == sn
  {
    hide Inv, RolesOk, Json.Clean;
    var site, m := env.site, s.worker.m;
    var msg := t.log[|s.log|];
    SessionOfChannel(env, e, c);
    RecordReadable(e, Get(m.links, EventKey(e, c)), ms, omitted);
    NotedAtRest(env, s, EventKey(e, c));
    assert RolesOk(site, msg) by { RolesOfRecord(env, e, c, principal, msg); }
    if env.originOf(e.messageId).Some? {
      RecordIsCaused(env, s, e, c, env.originOf(e.messageId).value);
    }
  }

  lemma RecordSettles(env: Env, s: State, key: InboundKey, msg: Message)
    requires Inv(env, s) && s.worker.Up? && s.worker.phase.Idle?
    requires Owned(env.site, msg) && msg.payload.SyncRecord? && RecordKey(env.site, msg) == key
    ensures Agrees(env.site, RecordMarked(s.worker.m, key, msg.channelId, msg.payload.eventMs), s.log + [msg], s.worker.n)
  {
    AgreesRecord(env.site, s.worker.m, s.log, s.worker.n, msg);
  }

  lemma CommitRecordKeeps(env: Env, s: State, e: ProviderEvent, c: nat, principal: nat, sn: nat, ms: int, omitted: bool,
                          t: State)
    requires env.Sound() && Inv(env, s) && Step(env, s, CommitRecord(e, c, principal, sn, ms, omitted), t)
    ensures Inv(env, t)
  {
    var msg, key := t.log[|s.log|], EventKey(e, c);
    RecordFits(env, s, e, c, principal, sn, ms, omitted, t);
    RecordSettles(env, s, key, msg);
    RecordCommitted(env, s, msg, key, t);
  }

  lemma RecordCommitted(env: Env, s: State, msg: Message, key: InboundKey, t: State)
    requires env.Sound() && Inv(env, s) && s.worker.Up? && s.worker.phase.Idle?
    requires LastSeq(s.log) < msg.sn && EntryGood(env, s.log, msg) && msg.payload.SyncRecord?
    requires Agrees(env.site, RecordMarked(s.worker.m, key, msg.channelId, msg.payload.eventMs), s.log + [msg], s.worker.n)
    requires t == s.(log := s.log + [msg], worker := s.worker.(phase := RecordOut(key, msg.channelId, msg.payload.eventMs)))
    ensures Inv(env, t)
  {
    CommitKeeps(env, s, msg, RecordOut(key, msg.channelId, msg.payload.eventMs), t);
  }

  /** Every step keeps the invariant. */
  lemma StepKeeps(env: Env, s: State, l: Label, t: State)
    requires env.Sound() && Inv(env, s) && Step(env, s, l, t)
    ensures Inv(env, t)
  {
    match l {
      case CallerAppend(msg) => CallerAppendKeeps(env, s, msg);
      case Crash =>
      case Restart => RestartKeeps(env, s, t);
      case Fetch => FetchKeeps(env, s, t);
      case NoTask(m) => NoTaskKeeps(env, s, m, t);
      case Send(m, task, sender) => SendKeeps(env, s, m, task, sender, t);
      case CommitResult(sn, ms) => CommitResultKeeps(env, s, sn, ms, t);
      case MarkResult => MarkResultKeeps(env, s, t);
      case CommitRecord(e, c, principal, sn, ms, omitted) => CommitRecordKeeps(env, s, e, c, principal, sn, ms, omitted, t);
      case MarkRecord =>
    }
  }

  lemma NextStepKeeps(env: Env, s: State, t: State)
    requires env.Sound() && Inv(env, s) && Next(env, s, t)
    ensures Inv(env, t)
  {
    var l :| Step(env, s, l, t);
    StepKeeps(env, s, l, t);
  }

  lemma {:induction false} RunKeeps(env: Env, states: seq<State>, n: nat)
    requires env.Sound() && Run(env, states) && Inv(env, states[0]) && n < |states|
    ensures Inv(env, states[n])
  {
    if n > 0 {
      RunKeeps(env, states, n - 1);
      assert Next(env, states[n - 1], states[n - 1 + 1]);
      NextStepKeeps(env, states[n - 1], states[n]);
    }
  }

  lemma StartIsGood(env: Env)
    ensures Inv(env, START)
  {}

  /** The invariant holds in every state of every run from an empty log. */
  lemma ReachableIsGood(env: Env, s: State)
    requires env.Sound() && Reaches(env, START, s)
    ensures Inv(env, s)
  {
    var states :| Run(env, states) && states[0] == START && states[|states| - 1] == s;
    StartIsGood(env);
    RunKeeps(env, states, |states| - 1);
  }

  // ---- main results

  /** At most one record per provider message and one result per request, whatever crashed or was repeated. */
  lemma AtMostOnce(env: Env, s: State, i: nat, j: nat)
    requires env.Sound() && Reaches(env, START, s) && i < |s.log| && j < |s.log|
    requires Owned(env.site, s.log[i]) && Owned(env.site, s.log[j])
    ensures (s.log[i].payload.SyncRecord? && s.log[j].payload.SyncRecord?
             && s.log[i].channelId == s.log[j].channelId
             && s.log[i].payload.messageId == s.log[j].payload.messageId) ==> i == j
    ensures (s.log[i].payload.SendResult? && s.log[j].payload.SendResult?
             && s.log[i].payload.requestId == s.log[j].payload.requestId) ==> i == j
  {
    ReachableIsGood(env, s);
    var low, high := Min(i, j), Max(i, j);
    assert EntryGood(env, s.log[..high], s.log[high]);
    if low < high {
      assert s.log[..high][low] == s.log[low];
      if s.log[high].payload.SyncRecord? {
        SeenMeaning(env.site, s.log[..high], RecordKey(env.site, s.log[high]));
      }
      if s.log[high].payload.SendResult? {
        FirstResultMeaning(env.site, s.log[..high], s.log[high].payload.requestId);
      }
    }
  }

  /** A record of a message the worker sent for request `r` comes after the result of `r` and points at it. */
  lemma RecordsPointAtResults(env: Env, s: State, i: nat, r: string) returns (j: nat)
    requires env.Sound() && Reaches(env, START, s) && i < |s.log|
    requires Owned(env.site, s.log[i]) && s.log[i].payload.SyncRecord? && s.log[i].payload.messageId == env.messageIdOf(r)
    ensures j < i && IsResult(env.site, s.log[j], r) && s.log[j].channelId == s.log[i].channelId
    ensures s.log[i].payload.recordPrev == Some(s.log[j].sn)
  {
    ReachableIsGood(env, s);
    assert EntryGood(env, s.log[..i], s.log[i]);
    FirstResultMeaning(env.site, s.log[..i], r);
    j :| 0 <= j < i && IsResult(env.site, s.log[..i][j], r)
        && ResultOf(s.log[..i][j]) == FirstResult(env.site, s.log[..i], r).value;
  }

  /** Recovery never finds a conflict, at any moment of any run. */
  lemma RecoveryNeverConflicts(env: Env, s: State)
    requires env.Sound() && Reaches(env, START, s)
    ensures Recover(env.site, s.log).Ok?
    ensures s.worker.Down? ==> Step(env, s, Restart, s.(worker := Up(Recover(env.site, s.log).value, |s.log|, Idle)))
  {
    ReachableIsGood(env, s);
    GoodRecovers(env, s.log);
  }

  /**
   At rest the live memory is what a recovery from the present log would
   build, except that requests it has not read yet are missing.
   */
  lemma RecoveryAgreement(env: Env, s: State)
    requires env.Sound() && Reaches(env, START, s) && s.worker.Up? && s.worker.phase.Idle?
    ensures s.worker.n <= |s.log| && Recover(env.site, s.log).Ok? && Recover(env.site, s.log[..s.worker.n]).Ok?
    ensures var m, rebuilt := s.worker.m, Recover(env.site, s.log).value;
            && m.completed == rebuilt.completed && m.inboundSeen == rebuilt.inboundSeen
            && m.links == rebuilt.links && m.latest == rebuilt.latest && m.blocked == rebuilt.blocked
            && m.canonical == Recover(env.site, s.log[..s.worker.n]).value.canonical
            && (s.worker.n == |s.log| ==> m.canonical == rebuilt.canonical && m.requests == rebuilt.requests)
  {
    ReachableIsGood(env, s);
    GoodRecovers(env, s.log);
    PrefixGood(env, s.log, s.worker.n);
    GoodRecovers(env, s.log[..s.worker.n]);
    SameMeaning(env.site, s.worker.m, Recover(env.site, s.log).value, s.log, s.worker.n, |s.log|);
    assert s.log[..|s.log|] == s.log;
    var read := s.log[..s.worker.n];
    assert read[..|read|] == read;
    MapsEqual(s.worker.m.canonical, Recover(env.site, read).value.canonical, id => FirstTask(env.site, read, id));
  }

  lemma PrefixGood(env: Env, log: Log, n: nat)
    requires LogGood(env, log) && n <= |log|
    ensures LogGood(env, log[..n])
  {
    forall i | 0 <= i < n ensures EntryGood(env, log[..n][..i], log[..n][i]) {
      assert log[..n][..i] == log[..i] && EntryGood(env, log[..i], log[i]);
    }
  }

  lemma MapsEqual<K, V>(a: map<K, V>, b: map<K, V>, f: K -> Option<V>)
    requires forall k :: Get(a, k) == f(k)
    requires forall k :: Get(b, k) == f(k)
    ensures a == b
  {
    forall k ensures Get(a, k) == Get(b, k) {}
    assert forall k :: k in a <==> Get(a, k).Some?;
    assert forall k :: k in b <==> Get(b, k).Some?;
    forall k | k in a ensures k in b && a[k] == b[k] { assert Get(a, k) == Get(b, k); }
    forall k | k in b ensures k in a { assert Get(a, k) == Get(b, k); }
  }

  /** Two memories that say what the same log says are the same. */
  lemma SameMeaning(site: Site, m: Mem, other: Mem, log: Log, n: nat, k: nat)
    requires n <= |log| && k <= |log| && Agrees(site, m, log, n) && Agrees(site, other, log, k)
    ensures m.completed == other.completed && m.inboundSeen == other.inboundSeen
    ensures m.links == other.links && m.latest == other.latest
    ensures n == k ==> m.canonical == other.canonical && m.requests == other.requests
  {
    MapsEqual(m.links, other.links, key => LinkAt(site, log, key));
    MapsEqual(m.latest, other.latest, c => LatestIn(site, log, c));
    if n == k {
      MapsEqual(m.canonical, other.canonical, id => FirstTask(site, log[..n], id));
      MapsEqual(m.requests, other.requests, id => if id in m.completed then None else Get(m.canonical, id));
    }
  }

  /** Provider sends happen oldest request first, over the whole run. */
  lemma SendsInOrder(env: Env, s: State, i: nat, j: nat)
    requires env.Sound() && Reaches(env, START, s) && i < j < |s.sends|
    ensures FirstTask(env.site, s.log, s.sends[i].requestId).Some? && FirstTask(env.site, s.log, s.sends[j].requestId).Some?
    ensures FirstTask(env.site, s.log, s.sends[i].requestId).value.sn <= FirstTask(env.site, s.log,
            s.sends[j].requestId).value.sn
  {
    ReachableIsGood(env, s);
    assert Genuine(env, s.log, s.sends[i]) && Genuine(env, s.log, s.sends[j]);
  }

  /** Repeated sends of a request have no other request between them. */
  lemma RepeatsInPlace(env: Env, s: State, i: nat, k: nat, j: nat)
    requires env.Sound() && Reaches(env, START, s) && i < k < j < |s.sends|
    requires s.sends[i].requestId == s.sends[j].requestId
    ensures s.sends[k].requestId == s.sends[i].requestId
  {
    SendsInOrder(env, s, i, k);
    SendsInOrder(env, s, k, j);
    ReachableIsGood(env, s);
    SameSeqSameTask(env, s.log, s.sends[i].requestId, s.sends[k].requestId);
  }

  lemma SameSeqSameTask(env: Env, log: Log, a: string, b: string)
    requires LogGood(env, log) && FirstTask(env.site, log, a).Some? && FirstTask(env.site, log, b).Some?
    requires FirstTask(env.site, log, a).value.sn == FirstTask(env.site, log, b).value.sn
    ensures a == b
  {
    FirstTaskMeaning(env.site, log, a);
    FirstTaskMeaning(env.site, log, b);
  }

  /** What is sent is an unanswered request, as written, and everything older is answered. */
  lemma SendsOldestUnanswered(env: Env, s: State, m: Mem, task: Task, sender: string, t: State)
    requires env.Sound() && Reaches(env, START, s) && Step(env, s, Send(m, task, sender), t)
    ensures FirstTask(env.site, s.log, task.requestId) == Some(task) && FirstResult(env.site, s.log, task.requestId) == None
    ensures forall id :: Older(env.site, s.log, id, task.requestId) ==> FirstResult(env.site, s.log, id).Some?
  {
    ReachableIsGood(env, s);
    ChosenFacts(env, s, m, task);
  }

  lemma ReadIsKnown(env: Env, log: Log, n: nat, i: nat)
    requires LogGood(env, log) && i < n <= |log| && Owned(env.site, log[i]) && log[i].payload.SendRequest?
    ensures var t := FirstTask(env.site, log[..n], log[i].payload.requestId);
            t.Some? && t.value.channelId == log[i].channelId
  {
    var site, id := env.site, log[i].payload.requestId;
    assert EntryGood(env, log[..i], log[i]);
    assert log[..i + 1] == log[..i] + [log[i]];
    GrowTask(site, log[..i], log[i], id);
    assert log[..n][..i + 1] == log[..i + 1];
    TaskPersists(site, log[..n], i + 1, id);
  }

  /** When a record is committed, every request of its channel among those read has its result in the log. */
  lemma RecordsWaitForRequests(env: Env, s: State, e: ProviderEvent, c: nat, principal: nat, sn: nat, ms: int,
                               omitted: bool, t: State, i: nat)
    requires env.Sound() && Reaches(env, START, s) && Step(env, s, CommitRecord(e, c, principal, sn, ms, omitted), t)
    requires i < s.worker.n && i < |s.log|
    requires Owned(env.site, s.log[i]) && s.log[i].payload.SendRequest? && s.log[i].channelId == c
    ensures FirstResult(env.site, s.log, s.log[i].payload.requestId).Some?
  {
    ReachableIsGood(env, s);
    ReadIsKnown(env, s.log, s.worker.n, i);
    NothingPending(env, s, c, s.log[i].payload.requestId);
  }

  // ---- what the encoders let through and the parser does not

  /**
   The worker publishes whatever content the provider reports; the parser rejects some of it. A log that
   recovers still recovers after such a record exactly when the content was omitted or has no forbidden key.
   */
  lemma RecoverySurvivesRecord(env: Env, log: Log, e: ProviderEvent, c: nat, principal: nat, ms: int, omitted: bool,
                               sn: nat)
    requires env.Sound() && Recover(env.site, log).Ok?
    requires env.site.ix.ChannelFor(e.provider, e.sessionId) == Some(c)
    requires env.site.ix.PrincipalFor(c, e.provider, e.senderId, e.identityType) == Some(principal)
    requires RecordPayload(e, LinkAt(env.site, log, EventKey(e, c)), ms, omitted).Encodes()
    ensures var draft := RecordDraft(env, e, c, principal, LinkAt(env.site, log, EventKey(e, c)), ms, omitted);
            Recover(env.site, log + [Stamp(draft, sn)]).Ok? <==> omitted || e.contentRaw.Clean()
  {
    hide Recover, Accepted, Json.Clean, Payload.Parses, Payload.Encodes;
    var site, prev := env.site, LinkAt(env.site, log, EventKey(e, c));
    var msg := Stamp(RecordDraft(env, e, c, principal, prev, ms, omitted), sn);
    SessionOfChannel(env, e, c);
    RolesOfRecord(env, e, c, principal, msg);
    RecordReadable(e, prev, ms, omitted);
    RecoveryMeansLog(site, log);
    RecoveryMeansLog(site, log + [msg]);
    AcceptedGrows(site, log, msg);
    assert RolesOk(site, msg) && ContentOk(site, log, msg);
  }

  /** There are such events: this one is published in full and can never be read back. */
  lemma UnreadableEvent(provider: string, session: string, sender: string, prev: Option<nat>, ms: nat)
    returns (e: ProviderEvent)
    ensures e.provider == provider && e.sessionId == session && e.senderId == sender
    ensures RecordPayload(e, prev, ms, false).Encodes() && !RecordPayload(e, prev, ms, false).Parses()
  {
    e := ProviderEvent(provider, session, "m", sender, "text", JsonObject(map["source_principal" := JsonNull]), 0, None,
        "user");
  }

  /** And once such an entry is in the log every later recovery fails. */
  lemma UnreadableForGood(site: Site, log: Log, i: nat)
    requires i < |log| && Owned(site, log[i]) && !log[i].payload.Parses()
    ensures Recover(site, log).Err?
  {
    hide Recover;
    RecoveryMeansLog(site, log);
    assert !EntryOk(site, log[..i], log[i]);
  }
}
