/**
 The rounds of the live loop as the server's answers decide them: which snapshots there are to drain, and at which
 of them a tick is due.
 */
module Snapshots {
  import opened Common
  import opened Wire
  import opened Replay
  import opened System
  import opened Client
  import opened Refine
  import opened Reading
  import opened Processor

  /** At a tick: the snapshot, and every live message handled until then. */
  datatype Barrier = Barrier(snapshot: nat, handled: Log)

  /** The snapshots at which a tick is due, that of the round in progress, and the read position. */
  datatype Following = Following(due: seq<nat>, current: Option<nat>, next: nat)

  /** The loop by the calls it makes: pages move it on, anything else does not. */
  function Follow(start: nat, calls: seq<Call>): Following {
    if calls == [] then Following([], None, start)
    else
      var f := Follow(start, calls[..|calls| - 1]);
      var c := calls[|calls| - 1];
      if c.FetchCall? && c.page.Ok? then AfterPage(f, c.page.value) else f
  }

  /** The first page of a round sets its snapshot; the round ends with the page that passes it. What lies past it
      belongs to a round whose snapshot is the last seq of that page. */
  function AfterPage(f: Following, page: Page): Following {
    var snapshot := if f.current.Some? then f.current.value else page.lastSeq;
    if page.nextSeq <= snapshot then Following(f.due, Some(snapshot), page.nextSeq)
    else if forall m :: m in page.messages ==> m.sn <= snapshot then Following(f.due + [snapshot], None, page.nextSeq)
    else Ahead(f.due + [snapshot], page.lastSeq, page.nextSeq)
  }

  /** A round that starts from what was fetched ahead, up to `last`. */
  function Ahead(due: seq<nat>, last: nat, next: nat): Following {
    if next <= last then Following(due, Some(last), next) else Following(due + [last], None, next)
  }

  /** The same, told from the variables of the loop and the snapshots ticked at so far. */
  function Expected(next: nat, snapshot: Option<nat>, ahead: Option<nat>, ticked: seq<nat>): Following {
    var passed := snapshot.Some? && snapshot.value < next;
    var due := if passed then ticked + [snapshot.value] else ticked;
    if ahead.Some? then Ahead(due, ahead.value, next) else Following(due, if passed then None else snapshot, next)
  }

  /** Between two turns at most what was fetched ahead is due. */
  lemma ExpectedBound(next: nat, snapshot: Option<nat>, ahead: Option<nat>, ticked: seq<nat>)
    requires snapshot.Some? ==> next <= snapshot.value
    ensures ticked <= Expected(next, snapshot, ahead, ticked).due
    ensures |Expected(next, snapshot, ahead, ticked).due| <= |ticked| + 1
  {}

  /** Every snapshot is a last seq that the server reported with a page. */
  lemma {:induction false} SnapshotsReported(start: nat, calls: seq<Call>)
    ensures var f := Follow(start, calls);
            && (forall s :: s in f.due ==> ReportedLast(calls, s))
            && (f.current.Some? ==> ReportedLast(calls, f.current.value))
  {
    if calls != [] {
      var before, c := calls[..|calls| - 1], calls[|calls| - 1];
      SnapshotsReported(start, before);
      assert forall x :: x in before ==> x in calls;
      assert c in calls;
    }
  }

  ghost predicate ReportedLast(calls: seq<Call>, s: nat) {
    exists c :: c in calls && c.FetchCall? && c.page.Ok? && c.page.value.lastSeq == s
  }

  lemma FollowOne(start: nat, calls: seq<Call>, c: Call)
    ensures Follow(start, calls + [c])
            == if c.FetchCall? && c.page.Ok? then AfterPage(Follow(start, calls), c.page.value) else Follow(start, calls)
  {
    assert (calls + [c])[..|calls|] == calls;
  }

  /** One page, sorted at the snapshot, is what the loop's variables then say. */
  lemma PageFollows(next: nat, snapshot: Option<nat>, ticked: seq<nat>, page: Page, later: Log)
    requires snapshot.Some? ==> next <= snapshot.value
    requires later == Cut(page.messages, if snapshot.Some? then snapshot.value else page.lastSeq, true)
    requires forall m :: m in page.messages ==> m.sn < page.nextSeq
    ensures AfterPage(Expected(next, snapshot, None, ticked), page)
            == Expected(page.nextSeq, Some(if snapshot.Some? then snapshot.value else page.lastSeq),
                        if later != [] then Some(page.lastSeq) else None, ticked)
  {
    CutEmpty(page.messages, if snapshot.Some? then snapshot.value else page.lastSeq);
  }

  lemma {:induction false} CutEmpty(log: Log, s: nat)
    ensures Cut(log, s, true) == [] <==> forall m :: m in log ==> m.sn <= s
  {
    if log != [] {
      CutEmpty(log[..|log| - 1], s);
      assert log == log[..|log| - 1] + [log[|log| - 1]];
    }
  }

  // ---- the loop's own calls

  function Slice(calls: seq<Call>, a: nat, b: nat): seq<Call> { if a <= b <= |calls| then calls[a..b] else [] }

  /** The calls from the `from`-th up to the `upto`-th that were not made during a tick. */
  function Outside(calls: seq<Call>, from: nat, ticks: seq<TickRecord>, upto: nat): seq<Call> {
    if ticks == [] then Slice(calls, from, upto)
    else
      var t := ticks[|ticks| - 1];
      Outside(calls, from, ticks[..|ticks| - 1], t.callsFrom) + Slice(calls, t.callsTo, upto)
  }

  ghost predicate Within(ticks: seq<TickRecord>, n: nat) {
    forall k :: 0 <= k < |ticks| ==> ticks[k].callsFrom <= n && ticks[k].callsTo <= n
  }

  lemma {:induction false} OutsideStable(before: seq<Call>, calls: seq<Call>, from: nat, ticks: seq<TickRecord>, upto: nat)
    requires before <= calls && Within(ticks, |before|) && upto <= |before|
    ensures Outside(calls, from, ticks, upto) == Outside(before, from, ticks, upto)
  {
    if ticks != [] {
      OutsideStable(before, calls, from, ticks[..|ticks| - 1], ticks[|ticks| - 1].callsFrom);
    }
  }

  lemma {:induction false} OutsideCall(calls: seq<Call>, c: Call, from: nat, ticks: seq<TickRecord>)
    requires Within(ticks, |calls|) && from <= |calls|
    ensures Outside(calls + [c], from, ticks, |calls| + 1) == Outside(calls, from, ticks, |calls|) + [c]
  {
    if ticks == [] {
      assert (calls + [c])[from..|calls| + 1] == calls[from..] + [c];
    } else {
      var t := ticks[|ticks| - 1];
      OutsideStable(calls, calls + [c], from, ticks[..|ticks| - 1], t.callsFrom);
      assert (calls + [c])[t.callsTo..|calls| + 1] == calls[t.callsTo..] + [c];
    }
  }

  lemma {:induction false} OutsideTick(before: seq<Call>, calls: seq<Call>, from: nat, ticks: seq<TickRecord>, t: TickRecord)
    requires before <= calls && Within(ticks, |before|) && t.callsFrom == |before| && t.callsTo == |calls|
    ensures Outside(calls, from, ticks + [t], |calls|) == Outside(before, from, ticks, |before|)
    ensures Within(ticks + [t], |calls|)
  {
    assert (ticks + [t])[..|ticks|] == ticks;
    OutsideStable(before, calls, from, ticks, |before|);
  }

  // ---- the memory at the ticks

  /** The memory the tick began with said what the log said at that moment, as far as it had been read. */
  ghost predicate TickAgrees(site: Site, t: TickRecord, log: Log) {
    t.read <= t.logged <= |log| && Agrees(site, t.before, log[..t.logged], t.read)
  }

  ghost predicate AllAgree(env: Env, trusted: bool, origin: State, ticks: seq<TickRecord>, log: Log) {
    trusted && env.Sound() && Inv(env, origin) ==> forall k :: 0 <= k < |ticks| ==> TickAgrees(env.site, ticks[k], log)
  }

  lemma NoneToAgree(env: Env, trusted: bool, origin: State, log: Log)
    ensures AllAgree(env, trusted, origin, [], log)
  {}

  lemma AgreeStill(env: Env, earlier: bool, later: bool, origin: State, ticks: seq<TickRecord>, before: Log, log: Log)
    requires AllAgree(env, earlier, origin, ticks, before) && (later ==> earlier) && before <= log
    ensures AllAgree(env, later, origin, ticks, log)
  {
    hide Inv, Agrees;
    forall k | 0 <= k < |ticks| && TickAgrees(env.site, ticks[k], before) ensures TickAgrees(env.site, ticks[k], log) {
      assert log[..ticks[k].logged] == before[..ticks[k].logged];
    }
  }

  lemma AgreeOnce(env: Env, trusted: bool, origin: State, s: State, ticks: seq<TickRecord>, t: TickRecord)
    requires AllAgree(env, trusted, origin, ticks, s.log) && Refines(env, trusted, origin, s)
    requires s.worker == Up(t.before, t.read, Idle) && t.logged == |s.log|
    ensures AllAgree(env, trusted, origin, ticks + [t], s.log)
  {
    hide Reaches, Agrees;
    if trusted && env.Sound() && Inv(env, origin) {
      ReachKeeps(env, origin, s);
      assert s.log[..|s.log|] == s.log;
      assert TickAgrees(env.site, t, s.log);
    }
  }
}
