/**
 The worker's memory: the outbound queue with its lazily cleaned heap, and the
 idempotency index. `Mem` is the memory as a value; `RuntimeState` is the
 object the worker updates in place.
 */
module Memory {
  import opened Common
  import opened Wire

  /** (provider, session id, channel id, provider message id) */
  type InboundKey = (string, string, nat, string)

  /** (seq, request id) */
  type HeapItem = (nat, string)

  datatype Task = OutboundTask(sn: nat, channelId: nat, principal: nat, requestId: string, msgType: string, content: Json)
  {
    function Item(): HeapItem { (sn, requestId) }
  }

  datatype TerminalResult = TerminalResult(sn: nat, channelId: nat, principal: nat, recipients: seq<nat>,
                                           requestId: string, prev: nat, status: Status, messageId: Option<string>)

  datatype Conflict =
    | RequestConflict | ResultConflict | ResultWithoutRequest | ResultPrev | ResultChannel | ResultRecipients
    | RecordPrev | RecordWithoutResult

  datatype Mem = Mem(
    inboundSeen: set<InboundKey>,
    completed: set<string>,
    canonical: map<string, Task>,
    terminal: map<string, TerminalResult>,
    requests: map<string, Task>,
    heap: multiset<HeapItem>,
    blocked: map<nat, string>,
    links: map<InboundKey, nat>,
    latest: map<nat, int>)
  {
    predicate Live(t: Task) { t.requestId in requests && requests[t.requestId] == t }

    predicate Blocks(c: nat, id: string) { c in blocked && blocked[c] == id }

    predicate ChannelHasPending(c: nat) { exists id :: id in requests && requests[id].channelId == c }

    /** Requests are filed under their own ids. */
    ghost predicate Keyed() { forall id :: id in requests ==> requests[id].requestId == id }

    /** A heap item whose request is gone. */
    predicate Stale(x: HeapItem) {
      x.1 !in requests || requests[x.1].sn != x.0 || x.1 in completed
    }

    /** A heap item whose request may be sent now. */
    predicate Ready(x: HeapItem) {
      !Stale(x) && (requests[x.1].channelId in blocked ==> blocked[requests[x.1].channelId] == x.1)
    }

    /**
     The queue's bookkeeping: the live requests are the first requests without
     a result, each is queued exactly once or is its own channel's blocker, never both.
     */
    ghost predicate Partition() {
      && (forall id :: Get(requests, id) == if id in completed then None else Get(canonical, id))
      && (forall id :: id in canonical ==> canonical[id].requestId == id)
      && (forall x :: x in heap ==> heap[x] == 1 && x.1 in canonical && canonical[x.1].sn == x.0)
      && (forall t {:trigger Live(t)} :: Live(t) ==> (t.Item() in heap <==> !Blocks(t.channelId, t.requestId)))
      && (forall c :: c in blocked ==> blocked[c] in requests && requests[blocked[c]].channelId == c)
    }
  }

  const EMPTY_MEM := Mem({}, {}, map[], map[], map[], multiset{}, map[], map[], map[])

  // ---- what each operation does to the memory

  function TaskOf(msg: Message): Task
    requires msg.payload.SendRequest?
  {
    OutboundTask(msg.sn, msg.channelId, msg.principal, msg.payload.requestId, msg.payload.msgType, msg.payload.content)
  }

  function ResultOf(msg: Message): TerminalResult
    requires msg.payload.SendResult?
  {
    TerminalResult(msg.sn, msg.channelId, msg.principal, msg.recipients, msg.payload.requestId,
                   msg.payload.resultPrev, msg.payload.status, msg.payload.sentId)
  }

  /** The task asks for what the message asks for. */
  ghost predicate AsksFor(t: Task, msg: Message)
    requires msg.payload.SendRequest?
  {
    && t.requestId == msg.payload.requestId && t.channelId == msg.channelId && t.principal == msg.principal
    && t.msgType == msg.payload.msgType && t.content == msg.payload.content
  }

  /** The result tells what the message tells. */
  ghost predicate Tells(r: TerminalResult, msg: Message)
    requires msg.payload.SendResult?
  {
    && r.requestId == msg.payload.requestId && r.channelId == msg.channelId && r.principal == msg.principal
    && r.recipients == msg.recipients && r.prev == msg.payload.resultPrev && r.status == msg.payload.status
    && r.messageId == msg.payload.sentId
  }

  /** `_same_send_request`: equal up to the seq. */
  predicate SameRequest(a: Task, b: Task) { a.(sn := b.sn) == b }

  /** `_same_send_result`: equal up to the seq. */
  predicate SameResult(a: TerminalResult, b: TerminalResult) { a.(sn := b.sn) == b }

  function RequestAdded(m: Mem, msg: Message): Result<Mem, Conflict>
    requires msg.payload.SendRequest?
  {
    var t := TaskOf(msg);
    if t.requestId in m.canonical then
      if SameRequest(m.canonical[t.requestId], t) then Ok(m) else Err(RequestConflict)
    else
      var known := m.(canonical := m.canonical[t.requestId := t]);
      if t.requestId in m.completed then Ok(known)
      else Ok(known.(requests := m.requests[t.requestId := t], heap := m.heap + multiset{t.Item()}))
  }

  function Unblock(m: Mem, c: nat, id: string): Mem {
    if m.Blocks(c, id) then m.(blocked := m.blocked - {c}) else m
  }

  function Complete(m: Mem, id: string): Mem {
    m.(completed := m.completed + {id}, requests := m.requests - {id})
  }

  /** The key under which a result's provider message is linked, if it is linked at all. */
  function LinkKey(msg: Message, session: (string, string)): Option<InboundKey>
    requires msg.payload.SendResult?
  {
    if msg.payload.status != Success then None
    else match msg.payload.sentId
      case Some(id) => if id != "" then Some((session.0, session.1, msg.channelId, id)) else None
      case None => None
  }

  function ResultAdded(m: Mem, msg: Message, session: (string, string)): Result<Mem, Conflict>
    requires msg.payload.SendResult?
  {
    var r := ResultOf(msg);
    if r.requestId in m.terminal then
      if SameResult(m.terminal[r.requestId], r) then Ok(m) else Err(ResultConflict)
    else if r.requestId !in m.canonical then Err(ResultWithoutRequest)
    else
      var t := m.canonical[r.requestId];
      if r.prev != t.sn then Err(ResultPrev)
      else if r.channelId != t.channelId then Err(ResultChannel)
      else if r.recipients != [t.principal] then Err(ResultRecipients)
      else
        var done := Unblock(Complete(m, r.requestId).(terminal := m.terminal[r.requestId := r]), t.channelId, t.requestId);
        match LinkKey(msg, session)
        case Some(k) => Ok(done.(links := done.links[k := msg.sn]))
        case None => Ok(done)
  }

  function Recorded(m: Mem, c: nat, ms: int): Mem {
    if c !in m.latest || ms > m.latest[c] then m.(latest := m.latest[c := ms]) else m
  }

  function RecordMarked(m: Mem, k: InboundKey, c: nat, ms: int): Mem {
    Recorded(m.(inboundSeen := m.inboundSeen + {k}), c, ms)
  }

  function RecordAdded(m: Mem, msg: Message, session: (string, string)): Result<Mem, Conflict>
    requires msg.payload.SyncRecord?
  {
    var k := (session.0, session.1, msg.channelId, msg.payload.messageId);
    if k in m.links && msg.payload.recordPrev != Some(m.links[k]) then Err(RecordPrev)
    else if k !in m.links && msg.payload.recordPrev != None then Err(RecordWithoutResult)
    else Ok(RecordMarked(m, k, msg.channelId, msg.payload.eventMs))
  }

  function ResultMarked(m: Mem, t: Task, session: (string, string), messageId: string, sn: nat): Mem {
    var done := Unblock(Complete(m, t.requestId), t.channelId, t.requestId);
    done.(links := done.links[(session.0, session.1, t.channelId, messageId) := sn])
  }

  /**
   `next_pending_task`, said without the heap loop: the least queued item that
   may be sent, or None when there is none. Only stale items leave the queue,
   and only those that come before the chosen one.
   */
  ghost predicate NextPending(m: Mem, next: Mem, r: Option<Task>) {
    match r
    case None =>
      && (forall x :: x in m.heap ==> !m.Ready(x))
      && next == m.(heap := next.heap)
      && (forall x :: next.heap[x] == if m.Stale(x) then 0 else m.heap[x])
    case Some(t) =>
      && m.Live(t) && t.Item() in m.heap && m.Ready(t.Item())
      && (forall x :: x in m.heap && m.Ready(x) ==> x == t.Item() || Less(t.Item(), x))
      && next == m.(heap := next.heap, blocked := m.blocked[t.channelId := t.requestId])
      && (forall x :: next.heap[x] == if x == t.Item() then m.heap[x] - 1
                                      else if m.Stale(x) && Less(x, t.Item()) then 0
                                      else m.heap[x])
  }

  // ---- the order of heap items

  predicate TextLess(a: string, b: string) {
    b != "" && (a == "" || a[0] < b[0] || (a[0] == b[0] && TextLess(a[1..], b[1..])))
  }

  /** Python's order on (int, str). */
  predicate Less(a: HeapItem, b: HeapItem) {
    a.0 < b.0 || (a.0 == b.0 && TextLess(a.1, b.1))
  }

  lemma {:induction false} TextTotal(a: string, b: string)
    ensures TextLess(a, b) || TextLess(b, a) || a == b
    ensures !(TextLess(a, b) && TextLess(b, a)) && !TextLess(a, a)
  {
    if a != "" {
      TextTotal(a[1..], a[1..]);
    }
    if a != "" && b != "" {
      TextTotal(a[1..], b[1..]);
      assert a == [a[0]] + a[1..] && b == [b[0]] + b[1..];
    }
  }

  lemma {:induction false} TextTransitive(a: string, b: string, c: string)
    requires TextLess(a, b) && TextLess(b, c)
    ensures TextLess(a, c)
  {
    if a != "" && a[0] == b[0] == c[0] {
      TextTransitive(a[1..], b[1..], c[1..]);
    }
  }

  lemma LessTotal(a: HeapItem, b: HeapItem)
    ensures Less(a, b) || Less(b, a) || a == b
    ensures !(Less(a, b) && Less(b, a)) && !Less(a, a)
  {
    TextTotal(a.1, b.1);
    TextTotal(a.1, a.1);
  }

  lemma LessTransitive(a: HeapItem, b: HeapItem, c: HeapItem)
    requires Less(a, b) && Less(b, c)
    ensures Less(a, c)
  {
    if a.0 == b.0 == c.0 {
      TextTransitive(a.1, b.1, c.1);
    }
  }

  ghost predicate IsLeast(h: multiset<HeapItem>, x: HeapItem) {
    x in h && forall y :: y in h ==> y == x || Less(x, y)
  }

  lemma {:induction false} LeastExists(h: multiset<HeapItem>)
    requires h != multiset{}
    ensures exists x :: IsLeast(h, x)
    decreases |h|
  {
    var x :| x in h;
    var rest := h - multiset{x};
    if rest == multiset{} {
      assert h == multiset{x};
      assert IsLeast(h, x);
    } else {
      LeastExists(rest);
      var y :| IsLeast(rest, y);
      LessTotal(x, y);
      if Less(x, y) {
        forall z | z in h ensures z == x || Less(x, z) {
          if z != x && z != y { assert z in rest; LessTransitive(x, y, z); }
        }
        assert IsLeast(h, x);
      } else {
        forall z | z in h ensures z == y || Less(y, z) {
          if z != x { assert z in rest; }
        }
        assert IsLeast(h, y);
      }
    }
  }

  /** `heapq.heappop`. */
  method HeapPop(h: multiset<HeapItem>) returns (x: HeapItem, rest: multiset<HeapItem>)
    requires h != multiset{}
    ensures IsLeast(h, x) && rest == h - multiset{x}
  {
    LeastExists(h);
    x :| x in h && forall y | y in h :: y == x || Less(x, y);
    rest := h - multiset{x};
  }

  class RuntimeState {
    var inboundSeen: set<InboundKey>
    var completedRequestIds: set<string>
    var canonicalRequestsById: map<string, Task>
    var terminalResultsById: map<string, TerminalResult>
    var requestsById: map<string, Task>
    var pendingHeap: multiset<HeapItem>
    var blockedByChannel: map<nat, string>
    var sendResultByProviderMessage: map<InboundKey, nat>
    var latestEventMsByChannel: map<nat, int>

    function View(): Mem reads this {
      Mem(inboundSeen, completedRequestIds, canonicalRequestsById, terminalResultsById, requestsById, pendingHeap,
          blockedByChannel, sendResultByProviderMessage, latestEventMsByChannel)
    }

    constructor ()
      ensures View() == EMPTY_MEM
    {
      inboundSeen, completedRequestIds, canonicalRequestsById, terminalResultsById := {}, {}, map[], map[];
      requestsById, pendingHeap, blockedByChannel := map[], multiset{}, map[];
      sendResultByProviderMessage, latestEventMsByChannel := map[], map[];
    }

    method AddSendRequest(msg: Message) returns (r: Result<(), Conflict>)
      requires msg.payload.SendRequest?
      modifies this
      ensures match RequestAdded(old(View()), msg)
              case Ok(m) => r.Ok? && View() == m
              case Err(e) => r == Err(e) && View() == old(View())
      ensures var id, known := msg.payload.requestId, old(canonicalRequestsById);
              && (r == Err(RequestConflict) <==> id in known && !AsksFor(known[id], msg))
              && (r.Ok? ==> id in canonicalRequestsById && AsksFor(canonicalRequestsById[id], msg)
                            && canonicalRequestsById[id].sn == (if id in known then known[id].sn else msg.sn)
                            && canonicalRequestsById == known[id := canonicalRequestsById[id]])
              && (r.Ok? && id !in known && id !in completedRequestIds ==>
                    requestsById == old(requestsById)[id := canonicalRequestsById[id]]
                    && pendingHeap == old(pendingHeap) + multiset{(msg.sn, id)})
    {
      var task := TaskOf(msg);
      if task.requestId in canonicalRequestsById {
        if !SameRequest(canonicalRequestsById[task.requestId], task) {
          return Err(RequestConflict);
        }
        return Ok(());
      }
      canonicalRequestsById := canonicalRequestsById[task.requestId := task];
      if task.requestId in completedRequestIds {
        return Ok(());
      }
      requestsById := requestsById[task.requestId := task];
      pendingHeap := pendingHeap + multiset{task.Item()};
      return Ok(());
    }

    method ChannelHasPending(c: nat) returns (r: bool)
      ensures r <==> View().ChannelHasPending(c)
    {
      r := exists id | id in requestsById :: requestsById[id].channelId == c;
    }

    method UnblockChannel(c: nat, id: string)
      modifies `blockedByChannel
      ensures View() == Unblock(old(View()), c, id)
      ensures c in old(blockedByChannel) && old(blockedByChannel)[c] == id ==> c !in blockedByChannel
      ensures forall d :: d in blockedByChannel ==> d in old(blockedByChannel)
                                                    && blockedByChannel[d] == old(blockedByChannel)[d]
      ensures forall d :: d in old(blockedByChannel) && (d != c || old(blockedByChannel)[d] != id) ==> d in blockedByChannel
    {
      if c in blockedByChannel && blockedByChannel[c] == id {
        blockedByChannel := blockedByChannel - {c};
      }
    }

    method RecordEventMs(c: nat, ms: int)
      modifies `latestEventMsByChannel
      ensures View() == Recorded(old(View()), c, ms)
      ensures c in latestEventMsByChannel && ms <= latestEventMsByChannel[c]
      ensures latestEventMsByChannel[c] == ms || Get(old(latestEventMsByChannel), c) == Some(latestEventMsByChannel[c])
      ensures forall d :: d in old(latestEventMsByChannel) ==>
                d in latestEventMsByChannel && old(latestEventMsByChannel)[d] <= latestEventMsByChannel[d]
    {
      if c !in latestEventMsByChannel || ms > latestEventMsByChannel[c] {
        latestEventMsByChannel := latestEventMsByChannel[c := ms];
      }
    }

    method MarkSendResultSuccess(task: Task, provider: string, session: string, messageId: string, sn: nat)
      modifies this
      ensures View() == ResultMarked(old(View()), task, (provider, session), messageId, sn)
      ensures completedRequestIds == old(completedRequestIds) + {task.requestId}
      ensures requestsById == old(requestsById) - {task.requestId}
      ensures sendResultByProviderMessage
              == old(sendResultByProviderMessage)[(provider, session, task.channelId, messageId) := sn]
    {
      completedRequestIds := completedRequestIds + {task.requestId};
      requestsById := requestsById - {task.requestId};
      UnblockChannel(task.channelId, task.requestId);
      sendResultByProviderMessage := sendResultByProviderMessage[(provider, session, task.channelId, messageId) := sn];
    }

    method AddSendResult(msg: Message, provider: string, session: string) returns (r: Result<(), Conflict>)
      requires msg.payload.SendResult?
      modifies this
      ensures match ResultAdded(old(View()), msg, (provider, session))
              case Ok(m) => r.Ok? && View() == m
              case Err(e) => r == Err(e) && View() == old(View())
      ensures r == (
                var id, known := msg.payload.requestId, old(canonicalRequestsById);
                if id in old(terminalResultsById) then
                  if Tells(old(terminalResultsById)[id], msg) then Ok(()) else Err(ResultConflict)
                else if id !in known then Err(ResultWithoutRequest)
                else if msg.payload.resultPrev != known[id].sn then Err(ResultPrev)
                else if msg.channelId != known[id].channelId then Err(ResultChannel)
                else if msg.recipients != [known[id].principal] then Err(ResultRecipients)
                else Ok(()))
      ensures r.Ok? && msg.payload.requestId !in old(terminalResultsById) ==>
                var id := msg.payload.requestId;
                && completedRequestIds == old(completedRequestIds) + {id} && requestsById == old(requestsById) - {id}
                && id in terminalResultsById && Tells(terminalResultsById[id], msg)
                && sendResultByProviderMessage ==
                   match (msg.payload.status, msg.payload.sentId)
                   case (Success, Some(sent)) =>
                     if sent == "" then old(sendResultByProviderMessage)
                     else old(sendResultByProviderMessage)[(provider, session, msg.channelId, sent) := msg.sn]
                   case _ => old(sendResultByProviderMessage)
    {
      var result := ResultOf(msg);
      if result.requestId in terminalResultsById {
        if !SameResult(terminalResultsById[result.requestId], result) {
          return Err(ResultConflict);
        }
        return Ok(());
      }
      if result.requestId !in canonicalRequestsById {
        return Err(ResultWithoutRequest);
      }
      var task := canonicalRequestsById[result.requestId];
      if result.prev != task.sn {
        return Err(ResultPrev);
      }
      if result.channelId != task.channelId {
        return Err(ResultChannel);
      }
      if result.recipients != [task.principal] {
        return Err(ResultRecipients);
      }
      completedRequestIds := completedRequestIds + {result.requestId};
      terminalResultsById := terminalResultsById[result.requestId := result];
      requestsById := requestsById - {result.requestId};
      UnblockChannel(task.channelId, task.requestId);
      if result.status != Success {
        return Ok(());
      }
      if result.messageId.Some? && result.messageId.value != "" {
        sendResultByProviderMessage :=
          sendResultByProviderMessage[(provider, session, result.channelId, result.messageId.value) := result.sn];
      }
      return Ok(());
    }

    method AddSyncRecord(msg: Message, provider: string, session: string) returns (r: Result<(), Conflict>)
      requires msg.payload.SyncRecord?
      modifies this
      ensures match RecordAdded(old(View()), msg, (provider, session))
              case Ok(m) => r.Ok? && View() == m
              case Err(e) => r == Err(e) && View() == old(View())
      ensures var key := (provider, session, msg.channelId, msg.payload.messageId);
              && r == (if key in old(sendResultByProviderMessage) then
                         if msg.payload.recordPrev == Some(old(sendResultByProviderMessage)[key]) then Ok(())
                         else Err(RecordPrev)
                       else if msg.payload.recordPrev == None then Ok(()) else Err(RecordWithoutResult))
              && (r.Ok? ==> inboundSeen == old(inboundSeen) + {key} && msg.channelId in latestEventMsByChannel
                            && msg.payload.eventMs <= latestEventMsByChannel[msg.channelId])
    {
      var key := (provider, session, msg.channelId, msg.payload.messageId);
      var expected := Get(sendResultByProviderMessage, key);
      if expected.Some? && msg.payload.recordPrev != expected {
        return Err(RecordPrev);
      }
      if expected.None? && msg.payload.recordPrev.Some? {
        return Err(RecordWithoutResult);
      }
      inboundSeen := inboundSeen + {key};
      RecordEventMs(msg.channelId, msg.payload.eventMs);
      return Ok(());
    }

    method MarkSyncRecord(key: InboundKey, c: nat, ms: int)
      modifies `inboundSeen, `latestEventMsByChannel
      ensures View() == RecordMarked(old(View()), key, c, ms)
      ensures inboundSeen == old(inboundSeen) + {key}
      ensures c in latestEventMsByChannel && ms <= latestEventMsByChannel[c]
    {
      inboundSeen := inboundSeen + {key};
      RecordEventMs(c, ms);
    }

    method NextPendingTask() returns (r: Option<Task>)
      requires View().Keyed()
      modifies `pendingHeap, `blockedByChannel
      ensures NextPending(old(View()), View(), r)
    {
      var heap, deferred;
      r, heap, deferred := PopReady(View());
      if r.Some? {
        blockedByChannel := blockedByChannel[r.value.channelId := r.value.requestId];
      }
      pendingHeap := heap + deferred;
    }
  }

  /** The loop of `next_pending_task`: pop until an item may be sent, setting blocked ones aside. */
  method PopReady(m: Mem) returns (r: Option<Task>, heap: multiset<HeapItem>, deferred: multiset<HeapItem>)
    requires m.Keyed()
    ensures NextPending(m, if r.None? then m.(heap := heap + deferred)
                           else m.(heap := heap + deferred, blocked := m.blocked[r.value.channelId := r.value.requestId]), r)
  {
    heap, deferred := m.heap, multiset{};
    while heap != multiset{}
      invariant Sifted(m, heap, deferred)
      decreases |heap|
    {
      var item, rest := HeapPop(heap);
      if item.1 !in m.requests || m.requests[item.1].sn != item.0 || item.1 in m.completed {
        SiftStale(m, heap, deferred, item);
        heap := rest;
        continue;
      }
      var task := m.requests[item.1];
      if task.channelId in m.blocked && m.blocked[task.channelId] != item.1 {
        SiftDeferred(m, heap, deferred, item);
        heap, deferred := rest, deferred + multiset{item};
        continue;
      }
      SiftFound(m, heap, deferred, item);
      return Some(task), rest, deferred;
    }
    SiftNone(m, deferred);
    assert heap + deferred == deferred;
    return None, heap, deferred;
  }

  /** Mid-loop: what was taken off the heap is stale or set aside, and nothing smaller is left. */
  ghost predicate Sifted(m: Mem, heap: multiset<HeapItem>, aside: multiset<HeapItem>) {
    && (forall x {:trigger Gone(m, heap, aside, x)} :: Gone(m, heap, aside, x) ==> m.Stale(x))
    && (forall x {:trigger heap[x]} {:trigger aside[x]} :: heap[x] + aside[x] <= m.heap[x])
    && (forall x :: x in aside ==> !m.Stale(x) && !m.Ready(x))
    && (forall x, y {:trigger Gone(m, heap, aside, x), heap[y]} ::
          Gone(m, heap, aside, x) && y in heap ==> x == y || Less(x, y))
  }

  ghost predicate Gone(m: Mem, heap: multiset<HeapItem>, aside: multiset<HeapItem>, x: HeapItem) {
    heap[x] + aside[x] < m.heap[x]
  }

  lemma SiftStale(m: Mem, heap: multiset<HeapItem>, aside: multiset<HeapItem>, x: HeapItem)
    requires Sifted(m, heap, aside) && IsLeast(heap, x) && m.Stale(x)
    ensures Sifted(m, heap - multiset{x}, aside)
  {
    forall y ensures Gone(m, heap - multiset{x}, aside, y) <==> Gone(m, heap, aside, y) || y == x {
      assert heap[y] + aside[y] <= m.heap[y];
    }
  }

  lemma SiftDeferred(m: Mem, heap: multiset<HeapItem>, aside: multiset<HeapItem>, x: HeapItem)
    requires Sifted(m, heap, aside) && IsLeast(heap, x) && !m.Stale(x) && !m.Ready(x)
    ensures Sifted(m, heap - multiset{x}, aside + multiset{x})
  {
    forall y ensures Gone(m, heap - multiset{x}, aside + multiset{x}, y) <==> Gone(m, heap, aside, y) {
      assert heap[y] + aside[y] <= m.heap[y];
    }
  }

  lemma SiftFound(m: Mem, heap: multiset<HeapItem>, aside: multiset<HeapItem>, x: HeapItem)
    requires Sifted(m, heap, aside) && IsLeast(heap, x) && m.Ready(x) && m.Keyed()
    ensures var t := m.requests[x.1];
            NextPending(m, m.(heap := heap - multiset{x} + aside, blocked := m.blocked[t.channelId := x.1]), Some(t))
  {
    assert m.requests[x.1].Item() == x;
    forall y | y in m.heap && m.Ready(y) ensures y == x || Less(x, y) {
      assert !Gone(m, heap, aside, y) && y !in aside;
    }
    forall y ensures (heap - multiset{x} + aside)[y]
                     == if y == x then m.heap[y] - 1 else if m.Stale(y) && Less(y, x) then 0 else m.heap[y]
    {
      LessTotal(x, y);
      assert heap[y] + aside[y] <= m.heap[y];
      assert Gone(m, heap, aside, y) || !Gone(m, heap, aside, y);
    }
  }

  lemma SiftNone(m: Mem, aside: multiset<HeapItem>)
    requires Sifted(m, multiset{}, aside)
    ensures NextPending(m, m.(heap := aside), None)
  {
    forall y ensures aside[y] == if m.Stale(y) then 0 else m.heap[y] {
      assert multiset{}[y] + aside[y] <= m.heap[y];
      assert Gone(m, multiset{}, aside, y) || !Gone(m, multiset{}, aside, y);
    }
  }
}
