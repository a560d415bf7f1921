/** What every operation keeps about the outbound queue. */
module Queue {
  import opened Common
  import opened Wire
  import opened Memory

  /** In a consistent queue a live task is the first request filed under its id. */
  lemma LiveIsCanonical(m: Mem, t: Task)
    requires m.Partition() && m.Live(t)
    ensures Get(m.canonical, t.requestId) == Some(t) && t.requestId !in m.completed
    ensures m.Keyed()
  {
    assert Get(m.requests, t.requestId) == Some(t);
    KeyedHolds(m);
  }

  lemma KeyedHolds(m: Mem)
    requires m.Partition()
    ensures m.Keyed()
  {
    forall id | id in m.requests ensures m.requests[id].requestId == id {
      assert Get(m.requests, id) == Some(m.requests[id]);
    }
  }

  lemma RequestKeeps(m: Mem, msg: Message)
    requires m.Partition() && msg.payload.SendRequest? && RequestAdded(m, msg).Ok?
    ensures RequestAdded(m, msg).value.Partition()
  {
    var t := TaskOf(msg);
    if t.requestId !in m.canonical {
      assert Get(m.requests, t.requestId) == None;
      if t.requestId in m.completed {
        KnownKeeps(m, t);
      } else {
        QueuedKeeps(m, t);
      }
    }
  }

  /** Filing a request whose result is already known. */
  lemma KnownKeeps(m: Mem, t: Task)
    requires m.Partition() && t.requestId !in m.canonical && t.requestId in m.completed
    ensures m.(canonical := m.canonical[t.requestId := t]).Partition()
  {
    var next := m.(canonical := m.canonical[t.requestId := t]);
    forall id ensures Get(next.requests, id) == if id in next.completed then None else Get(next.canonical, id) {
      assert Get(m.requests, id) == if id in m.completed then None else Get(m.canonical, id);
    }
    forall u | next.Live(u) ensures u.Item() in next.heap <==> !next.Blocks(u.channelId, u.requestId) {
      assert m.Live(u);
    }
  }

  function Queued(m: Mem, t: Task): Mem {
    m.(canonical := m.canonical[t.requestId := t], requests := m.requests[t.requestId := t],
       heap := m.heap + multiset{t.Item()})
  }

  /** Filing and queueing a new request. */
  lemma QueuedKeeps(m: Mem, t: Task)
    requires m.Partition() && t.requestId !in m.canonical && t.requestId !in m.completed
    ensures Queued(m, t).Partition()
  {
    var next := Queued(m, t);
    assert Get(m.requests, t.requestId) == None;
    forall id ensures Get(next.requests, id) == if id in next.completed then None else Get(next.canonical, id) {
      assert Get(m.requests, id) == if id in m.completed then None else Get(m.canonical, id);
    }
    forall u | next.Live(u) ensures u.Item() in next.heap <==> !next.Blocks(u.channelId, u.requestId) {
      QueuedLive(m, t, u);
    }
    forall x | x in next.heap ensures next.heap[x] == 1 && x.1 in next.canonical && next.canonical[x.1].sn == x.0 {
      assert t.Item() !in m.heap;
      assert x != t.Item() ==> x in m.heap;
    }
  }

  lemma QueuedLive(m: Mem, t: Task, u: Task)
    requires m.Partition() && t.requestId !in m.canonical && Queued(m, t).Live(u)
    ensures u.Item() in Queued(m, t).heap <==> !Queued(m, t).Blocks(u.channelId, u.requestId)
  {
    if u.requestId == t.requestId {
      assert Get(m.requests, t.requestId) == None;
    } else {
      assert m.Live(u);
      LiveIsCanonical(m, u);
    }
  }

  /** Completing one request takes it out of the queue and off its channel. */
  lemma CompleteKeeps(m: Mem, t: Task)
    requires m.Partition() && Get(m.canonical, t.requestId) == Some(t)
    ensures Unblock(Complete(m, t.requestId), t.channelId, t.requestId).Partition()
  {
    var id := t.requestId;
    var next := Unblock(Complete(m, id), t.channelId, id);
    forall k ensures Get(next.requests, k) == if k in next.completed then None else Get(next.canonical, k) {
      assert Get(m.requests, k) == if k in m.completed then None else Get(m.canonical, k);
    }
    forall u | next.Live(u) ensures u.Item() in next.heap <==> !next.Blocks(u.channelId, u.requestId) {
      CompletedLive(m, t, u);
    }
    forall c | c in next.blocked ensures next.blocked[c] in next.requests && next.requests[next.blocked[c]].channelId == c {
      CompletedBlocked(m, t, c);
    }
  }

  lemma CompletedLive(m: Mem, t: Task, u: Task)
    requires m.Partition() && Get(m.canonical, t.requestId) == Some(t)
    requires Unblock(Complete(m, t.requestId), t.channelId, t.requestId).Live(u)
    ensures var next := Unblock(Complete(m, t.requestId), t.channelId, t.requestId);
            u.Item() in next.heap <==> !next.Blocks(u.channelId, u.requestId)
  {
    assert m.Live(u);
    LiveIsCanonical(m, u);
  }

  lemma CompletedBlocked(m: Mem, t: Task, c: nat)
    requires m.Partition() && Get(m.canonical, t.requestId) == Some(t)
    requires c in Unblock(Complete(m, t.requestId), t.channelId, t.requestId).blocked
    ensures var next := Unblock(Complete(m, t.requestId), t.channelId, t.requestId);
            next.blocked[c] in next.requests && next.requests[next.blocked[c]].channelId == c
  {
    var k := m.blocked[c];
    assert Get(m.requests, k) == Some(m.requests[k]) && Get(m.canonical, k) == Some(m.requests[k]);
  }

  /** Partition does not look at links, results seen or event times. */
  lemma SameQueue(m: Mem, next: Mem)
    requires m.Partition()
    requires next == m.(inboundSeen := next.inboundSeen, terminal := next.terminal, links := next.links,
             latest := next.latest)
    ensures next.Partition()
  {
    forall t | next.Live(t) ensures t.Item() in next.heap <==> !next.Blocks(t.channelId, t.requestId) {
      assert m.Live(t);
    }
    forall id ensures Get(next.requests, id) == if id in next.completed then None else Get(next.canonical, id) {
      assert Get(m.requests, id) == if id in m.completed then None else Get(m.canonical, id);
    }
  }

  lemma ResultKeeps(m: Mem, msg: Message, session: (string, string))
    requires m.Partition() && msg.payload.SendResult? && ResultAdded(m, msg, session).Ok?
    ensures ResultAdded(m, msg, session).value.Partition()
  {
    var id := msg.payload.requestId;
    if id !in m.terminal {
      var t := m.canonical[id];
      CompleteKeeps(m, t);
      ResultParts(m, msg, session, t, ResultAdded(m, msg, session).value);
    }
  }

  lemma ResultParts(m: Mem, msg: Message, session: (string, string), t: Task, next: Mem)
    requires msg.payload.SendResult? && msg.payload.requestId !in m.terminal
    requires Get(m.canonical, msg.payload.requestId) == Some(t) && t.requestId == msg.payload.requestId
    requires ResultAdded(m, msg, session) == Ok(next)
    requires Unblock(Complete(m, t.requestId), t.channelId, t.requestId).Partition()
    ensures next.Partition()
  {
    hide Mem.Partition;
    SameQueue(Unblock(Complete(m, t.requestId), t.channelId, t.requestId), next);
  }

  lemma MarkKeeps(m: Mem, t: Task, session: (string, string), messageId: string, sn: nat)
    requires m.Partition() && Get(m.canonical, t.requestId) == Some(t)
    ensures ResultMarked(m, t, session, messageId, sn).Partition()
  {
    CompleteKeeps(m, t);
    SameQueue(Unblock(Complete(m, t.requestId), t.channelId, t.requestId), ResultMarked(m, t, session, messageId, sn));
  }

  lemma RecordKeeps(m: Mem, k: InboundKey, c: nat, ms: int)
    requires m.Partition()
    ensures RecordMarked(m, k, c, ms).Partition()
  {
    SameQueue(m, RecordMarked(m, k, c, ms));
  }

  /** Choosing a task moves it from the heap to its channel's blocker; dropping stale items moves nothing. */
  lemma NextKeeps(m: Mem, next: Mem, r: Option<Task>)
    requires m.Partition() && NextPending(m, next, r)
    requires r.Some? ==> !m.Blocks(r.value.channelId, r.value.requestId)
    ensures next.Partition()
  {
    forall id ensures Get(next.requests, id) == if id in next.completed then None else Get(next.canonical, id) {
      assert Get(m.requests, id) == if id in m.completed then None else Get(m.canonical, id);
    }
    forall x | x in next.heap ensures next.heap[x] == 1 && x.1 in next.canonical && next.canonical[x.1].sn == x.0 {
      assert x in m.heap;
    }
    forall u | next.Live(u) ensures u.Item() in next.heap <==> !next.Blocks(u.channelId, u.requestId) {
      assert m.Live(u);
      LiveIsCanonical(m, u);
      assert !m.Stale(u.Item());
      if r.Some? {
        LiveIsCanonical(m, r.value);
      }
    }
  }

  /** With nothing blocked, every live request is queued and may be sent. */
  lemma IdleAllReady(m: Mem, t: Task)
    requires m.Partition() && m.blocked == map[] && m.Live(t)
    ensures t.Item() in m.heap && m.Ready(t.Item())
  {
    LiveIsCanonical(m, t);
  }

  /** So with nothing blocked the choice is the oldest live request of all, and None means there is none. */
  lemma IdleChoosesOldest(m: Mem, next: Mem, r: Option<Task>)
    requires m.Partition() && m.blocked == map[] && NextPending(m, next, r)
    ensures r == None <==> m.requests == map[]
    ensures r.Some? ==> forall t :: m.Live(t) ==> r.value.sn <= t.sn
    ensures r.Some? ==> m.Live(r.value) && next.blocked == map[r.value.channelId := r.value.requestId]
  {
    KeyedHolds(m);
    forall t | m.Live(t) ensures r.Some? && r.value.sn <= t.sn {
      IdleAllReady(m, t);
    }
    if m.requests != map[] {
      var id :| id in m.requests;
      assert m.Live(m.requests[id]);
    }
  }

  /** A tick that sends and marks leaves nothing blocked. */
  lemma TickUnblocks(m: Mem, next: Mem, t: Task, session: (string, string), messageId: string, sn: nat)
    requires m.Partition() && m.blocked == map[] && NextPending(m, next, Some(t))
    ensures ResultMarked(next, t, session, messageId, sn).blocked == map[]
    ensures ResultMarked(next, t, session, messageId, sn).requests == m.requests - {t.requestId}
  {
    IdleChoosesOldest(m, next, Some(t));
  }
}
