/** How long requests and provider events can wait, over the ticks of the live loop. */
module Waiting {
  import opened Common
  import opened Wire
  import opened Mapping
  import opened Memory
  import opened Replay
  import opened System
  import opened Processor

  /** The live requests that are not younger than seq `q`. */
  function Ahead(m: Mem, q: nat): set<string> {
    set id | id in m.requests && m.requests[id].sn <= q
  }

  /** Requests were only added, all with seqs from `lo` up to `hi`. */
  ghost predicate Added(m: Mem, next: Mem, lo: nat, hi: nat) {
    && (forall id :: id in m.requests ==> Get(next.requests, id) == Some(m.requests[id]))
    && (forall id :: id in next.requests && id !in m.requests ==> lo <= next.requests[id].sn < hi)
  }

  ghost predicate AllBelow(m: Mem, mark: nat) { forall id :: id in m.requests ==> m.requests[id].sn < mark }

  /** Requests were only added, all of them younger than those that were live. */
  ghost predicate Arrived(m: Mem, next: Mem) {
    && (forall id :: id in m.requests ==> Get(next.requests, id) == Some(m.requests[id]))
    && (forall id, old_ :: id in next.requests && id !in m.requests && old_ in m.requests
                          ==> m.requests[old_].sn < next.requests[id].sn)
  }

  /** A tick that neither failed nor was stopped. */
  ghost predicate Going(ix: Index, t: TickRecord) { t.Went(ix) && t.outcome != Ok(Halted) }

  /** `u` is the tick after `t`: the turn goes on, requests that arrived are younger, and events were added at the end. */
  ghost predicate Follows(ix: Index, t: TickRecord, u: TickRecord) {
    Going(ix, t) && u.turn == t.nextTurn && Arrived(t.after, u.before) && t.rest <= u.queue
  }

  /** The ticks of one live loop: all go but perhaps the last, each following the one before. */
  ghost predicate Ticking(ix: Index, ticks: seq<TickRecord>) {
    forall i :: 0 <= i < |ticks| - 1 ==> Follows(ix, ticks[i], ticks[i + 1])
  }

  /** The worker between two ticks, as the last one left it but for younger requests. */
  ghost predicate Rested(ix: Index, ticks: seq<TickRecord>, m: Mem, turn: nat, pending: seq<ProviderEvent>) {
    Ticking(ix, ticks)
    && (ticks != [] ==>
          var t := ticks[|ticks| - 1];
          Going(ix, t) && t.nextTurn == turn && t.rest == pending && Arrived(t.after, m))
  }

  lemma NextTick(ix: Index, ticks: seq<TickRecord>, m: Mem, turn: nat, pending: seq<ProviderEvent>, t: TickRecord)
    requires Rested(ix, ticks, m, turn, pending) && t.turn == turn && t.before == m && pending <= t.queue
    ensures Ticking(ix, ticks + [t])
    ensures Going(ix, t) ==> Rested(ix, ticks + [t], t.after, t.nextTurn, t.rest)
  {
    hide Going, Arrived;
    SameArrived(t.after);
  }

  lemma SameArrived(m: Mem)
    ensures Arrived(m, m)
  {}

  /** Requests read from the log are younger than all that were read before. */
  lemma ReadOn(ix: Index, ticks: seq<TickRecord>, m: Mem, next: Mem, turn: nat, pending: seq<ProviderEvent>, lo: nat,
               hi: nat)
    requires Rested(ix, ticks, m, turn, pending) && AllBelow(m, lo) && Added(m, next, lo, hi) && lo <= hi
    ensures Rested(ix, ticks, next, turn, pending) && AllBelow(next, hi)
  {
    hide Ticking, Going;
    if ticks != [] {
      var a := ticks[|ticks| - 1].after;
      forall id, old_ | id in next.requests && id !in a.requests && old_ in a.requests
        ensures a.requests[old_].sn < next.requests[id].sn
      {
        assert Get(m.requests, old_) == Some(a.requests[old_]);
        if id in m.requests { assert Get(next.requests, id) == Some(m.requests[id]); }
      }
      forall id | id in a.requests ensures Get(next.requests, id) == Some(a.requests[id]) {
        assert Get(m.requests, id) == Some(a.requests[id]);
      }
    }
    forall id | id in next.requests ensures next.requests[id].sn < hi {
      if id in m.requests { assert Get(next.requests, id) == Some(m.requests[id]); }
    }
  }

  // ---- requests

  lemma AheadKeeps(m: Mem, next: Mem, t: Task)
    requires Arrived(m, next) && m.Live(t)
    ensures Ahead(next, t.sn) == Ahead(m, t.sn) && next.Live(t)
  {
    assert Get(next.requests, t.requestId) == Some(t);
    forall id ensures id in Ahead(next, t.sn) <==> id in Ahead(m, t.sn) {
      if id in m.requests { assert Get(next.requests, id) == Some(m.requests[id]); }
    }
  }

  /** Answering an older request brings `t` one place forward. */
  lemma AheadShrinks(m: Mem, next: Mem, u: Task, t: Task)
    requires AnsweredOldest(m, next, u) && m.Live(t) && u != t
    ensures next.Live(t) && |Ahead(next, t.sn)| == |Ahead(m, t.sn)| - 1
  {
    assert Ahead(m, t.sn) == Ahead(next, t.sn) + {u.requestId};
  }

  /** A tick that does not answer `t` answers something older, or was the provider events' turn. */
  lemma OneTick(ix: Index, tick: TickRecord, t: Task)
    requires Going(ix, tick) && tick.outcome != Ok(Outbound(t)) && tick.before.Live(t)
    ensures tick.after.Live(t) && |Ahead(tick.after, t.sn)| >= 1
    ensures if tick.outcome.value.Outbound? then tick.nextTurn == 1
            && |Ahead(tick.after, t.sn)| == |Ahead(tick.before, t.sn)| - 1
            else tick.turn == 1 && tick.nextTurn == 0 && |Ahead(tick.after, t.sn)| == |Ahead(tick.before, t.sn)|
  {
    hide Handled;
    assert t.requestId in tick.before.requests;
    if tick.outcome.value.Outbound? {
      AheadShrinks(tick.before, tick.after, tick.outcome.value.task, t);
    } else {
      assert Ahead(tick.after, t.sn) == Ahead(tick.before, t.sn);
    }
    assert t.requestId in Ahead(tick.after, t.sn);
  }

  /**
   The k-th oldest live request is answered within 2k ticks (2k - 1 when it is the requests' turn),
   whatever arrives meanwhile.
   */
  lemma {:induction false} BoundedWaiting(ix: Index, ticks: seq<TickRecord>, i: nat, t: Task) returns (j: nat)
    requires Ticking(ix, ticks) && i < |ticks| && Going(ix, ticks[|ticks| - 1]) && ticks[i].before.Live(t)
    requires i + 2 * |Ahead(ticks[i].before, t.sn)| - (if ticks[i].turn == 0 then 1 else 0) <= |ticks|
    ensures i <= j < i + 2 * |Ahead(ticks[i].before, t.sn)| - (if ticks[i].turn == 0 then 1 else 0)
    ensures j < |ticks| && ticks[j].outcome == Ok(Outbound(t))
    decreases |ticks| - i
  {
    hide TickRecord.Went, Arrived;
    j := i;
    assert t.requestId in Ahead(ticks[i].before, t.sn);
    assert i < |ticks| - 1 ==> Follows(ix, ticks[i], ticks[i + 1]);
    if ticks[i].outcome != Ok(Outbound(t)) {
      OneTick(ix, ticks[i], t);
      AheadKeeps(ticks[i].after, ticks[i + 1].before, t);
      j := BoundedWaiting(ix, ticks, i + 1, t);
    }
  }

  // ---- provider events

  /** A tick that does not handle a free event handles one ahead of it, or was the requests' turn. */
  lemma OneTickOfEvents(ix: Index, tick: TickRecord, e: ProviderEvent, p: nat)
    requires Going(ix, tick) && p < |tick.queue| && tick.queue[p] == e && !Waits(ix, tick.before, e)
    requires tick.outcome != Ok(Inbound(e))
    ensures if tick.outcome.value.Inbound? then tick.nextTurn == 0 && p > 0 && p - 1 < |tick.rest| && tick.rest[p - 1] == e
            else tick.turn == 0 && tick.nextTurn == 1 && tick.rest == tick.queue
  {
    hide Waits, AnsweredOldest;
    assert e in tick.queue;
    if tick.outcome.value.Inbound? {
      var i :| 0 <= i < |tick.queue| && HandledAt(ix, tick.before, tick.queue, tick.rest, tick.outcome.value.event, i);
      assert i < p && tick.rest[p - 1] == tick.queue[p];
    }
  }

  /**
   An event with `p` others ahead of it, whose channel has no request waiting, is handled within 2(p + 1)
   ticks (2p + 1 when it is the events' turn), whatever arrives meanwhile.
   */
  lemma {:induction false} BoundedEventWaiting(ix: Index, ticks: seq<TickRecord>, i: nat, e: ProviderEvent, p: nat)
    returns (j: nat)
    requires Ticking(ix, ticks) && i < |ticks| && Going(ix, ticks[|ticks| - 1])
    requires p < |ticks[i].queue| && ticks[i].queue[p] == e
    requires i + 2 * (p + 1) - (if ticks[i].turn == 1 then 1 else 0) <= |ticks|
    requires forall k :: i <= k < i + 2 * (p + 1) - (if ticks[i].turn == 1 then 1 else 0) ==> !Waits(ix, ticks[k].before, e)
    ensures i <= j < i + 2 * (p + 1) - (if ticks[i].turn == 1 then 1 else 0)
    ensures j < |ticks| && ticks[j].outcome == Ok(Inbound(e))
    decreases |ticks| - i
  {
    hide TickRecord.Went, Arrived, Waits;
    j := i;
    assert i < |ticks| - 1 ==> Follows(ix, ticks[i], ticks[i + 1]);
    if ticks[i].outcome != Ok(Inbound(e)) {
      OneTickOfEvents(ix, ticks[i], e, p);
      TurnIsSmall(ix, ticks[i]);
      j := BoundedEventWaiting(ix, ticks, i + 1, e, if ticks[i].outcome.value.Inbound? then p - 1 else p);
    }
  }

  lemma TurnIsSmall(ix: Index, t: TickRecord)
    requires Going(ix, t)
    ensures t.turn < 2 && t.outcome.Ok?
  {}

  // ---- what is read

  /** Adding a request leaves the others and adds at most the one with its seq. */
  lemma AddedIsNew(m: Mem, msg: Message, lo: nat, hi: nat)
    requires m.Partition() && msg.payload.SendRequest? && RequestAdded(m, msg).Ok? && lo <= msg.sn < hi
    ensures Added(m, RequestAdded(m, msg).value, lo, hi)
  {
    var id := msg.payload.requestId;
    assert Get(m.requests, id) == if id in m.completed then None else Get(m.canonical, id);
  }

  lemma AddedTwice(a: Mem, b: Mem, c: Mem, lo: nat, hi: nat)
    requires Added(a, b, lo, hi) && Added(b, c, lo, hi)
    ensures Added(a, c, lo, hi)
  {
    forall id | id in a.requests ensures Get(c.requests, id) == Some(a.requests[id]) {
      assert Get(b.requests, id) == Some(a.requests[id]);
    }
    forall id | id in c.requests && id !in a.requests ensures lo <= c.requests[id].sn < hi {
      if id in b.requests { assert Get(c.requests, id) == Some(b.requests[id]); }
    }
  }

  /** After a recovery every live request is in the log. */
  lemma RecoveredBelow(site: Site, log: Log, m: Mem, mark: nat)
    requires Recover(site, log) == Ok(m) && forall i :: 0 <= i < |log| ==> log[i].sn < mark
    ensures AllBelow(m, mark)
  {
    hide Recover;
    RecoveryMeansLog(site, log);
    assert log[..|log|] == log;
    forall id | id in m.requests ensures m.requests[id].sn < mark {
      assert Get(m.requests, id) == Get(m.canonical, id) == FirstTask(site, log, id);
      FirstTaskMeaning(site, log, id);
    }
  }
}
