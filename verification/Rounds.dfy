/**
 One round of `take_message` over the sessions, as a function of what the provider answers; and which sessions
 a round looks at.
 */
module Rounds {
  import opened Common
  import opened System
  import opened Adapter
  import opened Sessions

  /** What a round works on. */
  datatype Pull = Pull(sessions: map<string, SessionPullState>, cursor: nat, live: seq<ProviderEvent>)

  /** One turn: what it left, the event it handed out, and the answer to its history query if it made one. */
  datatype Turned = Turned(next: Pull, event: Option<ProviderEvent>, answer: Option<Option<HistoryPage>>)
  {
    function Page(): Option<HistoryPage> { if answer.Some? then answer.value else None }
  }

  // ---- one turn

  /** A session that will ask for history when its turn comes. */
  predicate Wants(st: SessionPullState, now: int) {
    st.inFlight.None? && st.historyEvents == [] && st.historyScan.Some? && now >= st.nextHistoryAtMs
  }

  /** A session that has an event to hand out. */
  predicate HasEvent(st: SessionPullState, live: seq<ProviderEvent>, session: string) {
    && st.inFlight.None?
    && (st.historyEvents != [] || (st.historyScan.None? && exists e :: e in live && e.sessionId == session))
  }

  /** A session that has an event to hand out, or is due to ask for history. */
  predicate CanAct(st: SessionPullState, live: seq<ProviderEvent>, session: string, now: int) {
    HasEvent(st, live, session) || (st.inFlight.None? && st.historyScan.Some? && now >= st.nextHistoryAtMs)
  }

  /** The index after `i`, around `n`. */
  function NextIndex(i: nat, n: nat): (next: nat)
    requires n > 0
    ensures next < n
  {
    (i + 1) % n
  }

  /** `_deliver`: the event is outstanding and the cursor has passed its session. */
  function Issued(order: seq<string>, p: Pull, index: nat, st: SessionPullState, e: ProviderEvent): Pull
    requires index < |order|
  {
    p.(sessions := p.sessions[order[index] := st.(inFlight := Some(e))], cursor := NextIndex(index, |order|))
  }

  function FromHistory(order: seq<string>, p: Pull, index: nat): Turned
    requires index < |order| && order[index] in p.sessions && p.sessions[order[index]].historyEvents != []
  {
    var st := p.sessions[order[index]];
    var e := st.historyEvents[0];
    Turned(Issued(order, p, index, st.(historyEvents := st.historyEvents[1..]), e), Some(e), None)
  }

  function FromLive(order: seq<string>, p: Pull, index: nat): Turned
    requires index < |order| && order[index] in p.sessions
  {
    match FirstOf(p.live, order[index])
    case None => Turned(p, None, None)
    case Some(e) =>
      Turned(Issued(order, p, index, p.sessions[order[index]], e).(live := Without(p.live, order[index])), Some(e), None)
  }

  /** After a history query: the answer is filed and the cursor has passed the session. */
  function AfterAsk(config: SyncConfig, order: seq<string>, p: Pull, index: nat, now: int,
                    answer: Option<HistoryPage>): Pull
    requires index < |order| && order[index] in p.sessions && p.sessions[order[index]].historyScan.Some?
  {
    p.(sessions := p.sessions[order[index] := Answered(p.sessions[order[index]], answer, now + config.historyRetryDelayMs)],
       cursor := NextIndex(index, |order|))
  }

  /** What a session hands out without asking. */
  function HandOut(order: seq<string>, p: Pull, index: nat): Turned
    requires index < |order| && order[index] in p.sessions
  {
    var st := p.sessions[order[index]];
    if st.historyEvents != [] then FromHistory(order, p, index)
    else if st.historyScan.None? then FromLive(order, p, index)
    else Turned(p, None, None)
  }

  /** The body of the loop in `take_message`. */
  function VisitOf(config: SyncConfig, order: seq<string>, p: Pull, index: nat, now: int,
                   answer: Option<HistoryPage>): Turned
    requires index < |order| && order[index] in p.sessions
  {
    var st := p.sessions[order[index]];
    if st.inFlight.Some? then Turned(p, None, None)
    else if Wants(st, now) then HandOut(order, AfterAsk(config, order, p, index, now, answer),
        index).(answer := Some(answer))
    else HandOut(order, p, index)
  }

  /** The query a turn made. */
  function QueryAt(order: seq<string>, p: Pull, index: nat, turn: Turned): seq<Query>
    requires index < |order| && order[index] in p.sessions
  {
    if turn.answer.Some? && p.sessions[order[index]].historyScan.Some?
    then [QueryOf(order[index], p.sessions[order[index]].historyScan.value, turn.answer.value)]
    else []
  }

  /** A turn that hands out nothing leaves everything outstanding and buffered as it was; one that does hands it
      out for a session with nothing outstanding, from the live buffer only if that session's history is done. */
  lemma VisitFacts(config: SyncConfig, order: seq<string>, p: Pull, index: nat, now: int, answer: Option<HistoryPage>)
    requires index < |order| && order[index] in p.sessions
    ensures var s, t := order[index], VisitOf(config, order, p, index, now, answer);
            && t.next.sessions.Keys == p.sessions.Keys
            && (forall o :: o in p.sessions && o != s ==> t.next.sessions[o] == p.sessions[o])
            && (t.answer.Some? <==> Wants(p.sessions[s], now))
            && (t.event.None? ==> t.next.live == p.live
                                  && t.next.cursor == (if t.answer.Some? then NextIndex(index, |order|) else p.cursor))
            && (t.event.None? && t.answer.None? ==> t.next == p && !CanAct(p.sessions[s], p.live, s, now))
            && (t.event.Some? ==> p.sessions[s].inFlight.None? && t.next.sessions[s].inFlight == t.event)
            && (t.event.Some? ==> t.next.cursor == NextIndex(index, |order|))
            && (t.event.None? ==> t.next.sessions[s].inFlight == p.sessions[s].inFlight)
            && (t.next.live != p.live ==> t.next.sessions[s].historyScan.None? && t.next.sessions[s].historyEvents == [])
            && (t.next.live != p.live && t.answer.None? ==> p.sessions[s].historyScan.None?)
  {
    FirstIsIn(p.live, order[index]);
  }

  // ---- a whole round

  /** The index visited at the `k`-th turn from a cursor. */
  function Turn(cursor: nat, k: nat, n: nat): (i: nat)
    requires n > 0
    ensures i < n
  {
    (cursor + k) % n
  }

  function Before(p: Pull, turns: seq<Turned>, k: nat): Pull
    requires k <= |turns|
  {
    if k == 0 then p else turns[k - 1].next
  }

  /** The `k`-th turn counts from the cursor as the turns before it have left it. */
  function IndexAt(p: Pull, turns: seq<Turned>, k: nat, n: nat): nat
    requires n > 0 && k <= |turns|
  {
    Turn(Before(p, turns, k).cursor, k, n)
  }

  ghost predicate Listed(order: seq<string>, sessions: map<string, SessionPullState>) {
    && order != [] && (forall s :: s in order <==> s in sessions)
    && (forall i, j :: 0 <= i < j < |order| ==> order[i] != order[j])
  }

  lemma SameListed(order: seq<string>, a: map<string, SessionPullState>, b: map<string, SessionPullState>)
    requires a.Keys == b.Keys
    ensures Listed(order, a) <==> Listed(order, b)
  {}

  lemma ListedStays(order: seq<string>, sessions: map<string, SessionPullState>, index: nat, st: SessionPullState)
    requires Listed(order, sessions) && index < |order|
    ensures order[index] in sessions && Listed(order, sessions[order[index] := st])
    ensures sessions[order[index] := st].Keys == sessions.Keys
  {}

  ghost predicate TurnOk(config: SyncConfig, order: seq<string>, p: Pull, turns: seq<Turned>, now: int, k: nat)
    requires k < |turns|
  {
    && Listed(order, Before(p, turns, k).sessions)
    && turns[k] == VisitOf(config, order, Before(p, turns, k), IndexAt(p, turns, k, |order|), now, turns[k].Page())
  }

  /** These turns, one after the other, of which only the last may have handed something out. */
  ghost predicate Trace(config: SyncConfig, order: seq<string>, p: Pull, turns: seq<Turned>, now: int) {
    && Listed(order, p.sessions) && p.cursor < |order| && |turns| <= |order|
    && (forall k :: 0 <= k < |turns| ==> TurnOk(config, order, p, turns, now, k))
    && (forall k :: 0 <= k < |turns| - 1 ==> turns[k].event.None?)
  }

  /** A round that went all the way and handed out nothing: `take_message` returns None. */
  ghost predicate Fruitless(config: SyncConfig, order: seq<string>, p: Pull, turns: seq<Turned>, now: int) {
    Trace(config, order, p, turns, now) && |turns| == |order| && forall k :: 0 <= k < |turns| ==> turns[k].event.None?
  }

  function QueriesOf(order: seq<string>, p: Pull, turns: seq<Turned>): seq<Query>
    requires order != []
  {
    if turns == [] then []
    else
      var k := |turns| - 1;
      var i := IndexAt(p, turns, k, |order|);
      QueriesOf(order, p, turns[..k])
      + (if order[i] in Before(p, turns, k).sessions then QueryAt(order, Before(p, turns, k), i, turns[k]) else [])
  }

  lemma NothingAskedYet(order: seq<string>, p: Pull)
    requires order != []
    ensures QueriesOf(order, p, []) == []
  {}

  /** Adding a turn to a fruitless beginning. */
  lemma TraceGrows(config: SyncConfig, order: seq<string>, p: Pull, turns: seq<Turned>, now: int, t: Turned)
    requires Trace(config, order, p, turns, now) && |turns| < |order|
    requires forall k :: 0 <= k < |turns| ==> turns[k].event.None?
    requires var b := Before(p, turns, |turns|);
             Listed(order, b.sessions) && t == VisitOf(config, order, b, IndexAt(p, turns, |turns|, |order|), now, t.Page())
    ensures Trace(config, order, p, turns + [t], now)
    ensures QueriesOf(order, p, turns + [t])
            == QueriesOf(order, p, turns) + QueryAt(order, Before(p, turns, |turns|),
                IndexAt(p, turns, |turns|, |order|), t)
  {
    hide VisitOf, QueryAt;
    var more := turns + [t];
    assert more[..|turns|] == turns;
    forall k | 0 <= k < |more| ensures TurnOk(config, order, p, more, now, k) {
      assert Before(p, more, k) == Before(p, turns, k);
      if k < |turns| { assert TurnOk(config, order, p, turns, now, k); }
    }
    QueriesPrefix(order, p, turns, more);
  }

  lemma {:induction false} QueriesPrefix(order: seq<string>, p: Pull, turns: seq<Turned>, more: seq<Turned>)
    requires order != [] && turns <= more
    ensures QueriesOf(order, p, more[..|turns|]) == QueriesOf(order, p, turns)
  {
    assert more[..|turns|] == turns;
  }

  // ---- which sessions a round looks at

  /** Some turn of the round visits session `i`. */
  ghost predicate Visited(p: Pull, turns: seq<Turned>, n: nat, i: nat)
    requires n > 0
  {
    exists k: nat :: k < |turns| && IndexAt(p, turns, k, n) == i
  }

  /** The session has nothing outstanding and nothing queued, an open scan, and its time has come. */
  predicate DueAt(p: Pull, s: string, now: int) {
    s in p.sessions && p.sessions[s].inFlight.None? && p.sessions[s].historyEvents == []
    && p.sessions[s].historyScan.Some? && now >= p.sessions[s].nextHistoryAtMs
  }

  /** The session whose turn would be `k`-th if the cursor never moved is due to ask for history. */
  predicate WantsAt(order: seq<string>, p: Pull, now: int, k: nat)
    requires order != []
  {
    DueAt(p, order[Turn(p.cursor, k, |order|)], now)
  }

  lemma DueIsWanting(p: Pull, s: string, now: int)
    ensures DueAt(p, s, now) <==> s in p.sessions && Wants(p.sessions[s], now)
  {}

  lemma TurnFacts(config: SyncConfig, order: seq<string>, p: Pull, turns: seq<Turned>, now: int, k: nat)
    requires Trace(config, order, p, turns, now) && k < |turns| && turns[k].event.None?
    ensures var b, i := Before(p, turns, k), IndexAt(p, turns, k, |order|);
            && order[i] in b.sessions && (turns[k].answer.Some? <==> Wants(b.sessions[order[i]], now))
            && turns[k].next.cursor == (if turns[k].answer.Some? then NextIndex(i, |order|) else b.cursor)
            && turns[k].next.live == b.live
            && (turns[k].answer.None? ==> turns[k].next == b && !CanAct(b.sessions[order[i]], b.live, order[i], now))
            && (forall s :: s in b.sessions && s != order[i] ==> s in turns[k].next.sessions
                                                                 && turns[k].next.sessions[s] == b.sessions[s])
  {
    hide VisitOf, CanAct, Wants;
    assert TurnOk(config, order, p, turns, now, k);
    VisitFacts(config, order, Before(p, turns, k), IndexAt(p, turns, k, |order|), now, turns[k].Page());
  }

  /** Up to the first query nothing changes. */
  lemma {:induction false} UntilFirst(config: SyncConfig, order: seq<string>, p: Pull, turns: seq<Turned>, now: int, k: nat)
    requires Fruitless(config, order, p, turns, now) && k <= |turns|
    requires forall j :: 0 <= j < k ==> turns[j].answer.None?
    ensures Before(p, turns, k) == p
  {
    if k > 0 {
      UntilFirst(config, order, p, turns, now, k - 1);
      TurnFacts(config, order, p, turns, now, k - 1);
    }
  }

  /** Whether some turn before `m` asks is decided by the sessions as they were. */
  lemma {:induction false} FirstAsk(config: SyncConfig, order: seq<string>, p: Pull, turns: seq<Turned>, now: int, m: nat)
    requires Fruitless(config, order, p, turns, now) && m <= |turns|
    ensures (forall k :: 0 <= k < m ==> turns[k].answer.None?) <==> (forall k: nat :: k < m ==> !WantsAt(order, p, now, k))
  {
    hide Wants, VisitOf, TurnOk, DueAt, CanAct;
    if m > 0 {
      FirstAsk(config, order, p, turns, now, m - 1);
      if forall k :: 0 <= k < m - 1 ==> turns[k].answer.None? {
        UntilFirst(config, order, p, turns, now, m - 1);
        DueIsWanting(p, order[Turn(p.cursor, m - 1, |order|)], now);
        TurnFacts(config, order, p, turns, now, m - 1);
        assert turns[m - 1].answer.Some? <==> WantsAt(order, p, now, m - 1);
      }
    }
  }

  /** After its last query but before its last turn, a round goes straight back to the session it asked. */
  lemma {:induction false} GoesBack(config: SyncConfig, order: seq<string>, p: Pull, turns: seq<Turned>, now: int,
                                    j: nat, k: nat)
    requires Fruitless(config, order, p, turns, now) && j < k < |turns|
    requires turns[j].answer.Some? && forall i :: j < i < k ==> turns[i].answer.None?
    ensures Before(p, turns, k).cursor == NextIndex(IndexAt(p, turns, j, |order|), |order|)
  {
    hide Wants, VisitOf, TurnOk;
    if k == j + 1 {
      TurnFacts(config, order, p, turns, now, j);
    } else {
      GoesBack(config, order, p, turns, now, j, k - 1);
      TurnFacts(config, order, p, turns, now, k - 1);
    }
  }

  lemma Wraps(n: nat, i: nat)
    requires i < n
    ensures i % n == i && (n + i) % n == i
  {}

  /** One past a place, and then a whole round less one, is that place. */
  lemma BackAgain(n: nat, i: nat)
    requires i < n
    ensures Turn(NextIndex(i, n), n - 1, n) == i
  {
    if i + 1 < n {
      Wraps(n, i + 1);
      Wraps(n, i);
      assert (i + 1) + (n - 1) == n + i;
    } else {
      assert i + 1 == n && n % n == 0;
      Wraps(n, n - 1);
    }
  }

  /** The last of the turns before `m` that asks. */
  lemma {:induction false} LastAsk(turns: seq<Turned>, m: nat) returns (j: nat)
    requires m <= |turns| && exists k :: 0 <= k < m && turns[k].answer.Some?
    ensures j < m && turns[j].answer.Some? && forall i :: j < i < m ==> turns[i].answer.None?
  {
    j := m - 1;
    if turns[j].answer.None? {
      j := LastAsk(turns, m - 1);
    }
  }

  function Range(n: nat): (r: set<nat>)
    ensures |r| == n && forall i: nat :: i in r <==> i < n
  {
    if n == 0 then {} else Range(n - 1) + {n - 1}
  }

  function Members(xs: seq<nat>): (r: set<nat>)
    ensures |r| <= |xs| && forall x :: x in r <==> x in xs
  {
    if xs == [] then {}
    else
      assert xs == xs[..|xs| - 1] + [xs[|xs| - 1]];
      Members(xs[..|xs| - 1]) + {xs[|xs| - 1]}
  }

  lemma {:induction false} SetSizes(a: set<nat>, b: set<nat>)
    requires a <= b
    ensures |a| <= |b|
  {
    if a != {} {
      var x :| x in a;
      SetSizes(a - {x}, b - {x});
    }
  }

  /** A list of `n` places in which one comes twice leaves out a place below `n`. */
  lemma SomeMissing(xs: seq<nat>, n: nat, a: nat, b: nat) returns (i: nat)
    requires |xs| == n && a < b < n && xs[a] == xs[b]
    ensures i < n && i !in xs
  {
    var rest := xs[..b] + xs[b + 1..];
    assert |Members(rest)| < |Range(n)|;
    if Range(n) <= Members(rest) {
      SetSizes(Range(n), Members(rest));
    }
    i :| i in Range(n) && i !in Members(rest);
    forall k: nat | k < n ensures xs[k] in rest {
      assert rest[if k < b then k else if k == b then a else k - 1] == xs[k];
    }
  }

  /** A round that asks before its last turn ends at a session it has already visited. */
  lemma EarlyAskRepeats(config: SyncConfig, order: seq<string>, p: Pull, turns: seq<Turned>, now: int) returns (j: nat)
    requires Fruitless(config, order, p, turns, now) && exists k :: 0 <= k < |turns| - 1 && turns[k].answer.Some?
    ensures j < |turns| - 1 && IndexAt(p, turns, j, |order|) == IndexAt(p, turns, |turns| - 1, |order|)
  {
    hide VisitOf, TurnOk;
    j := LastAsk(turns, |turns| - 1);
    GoesBack(config, order, p, turns, now, j, |turns| - 1);
    BackAgain(|order|, IndexAt(p, turns, j, |order|));
  }

  /**
   A call that returns None has looked at every session exactly when no session but perhaps the last in
   line, counted from the cursor before the call, was due to ask for history.
   */
  lemma LooksAtAll(config: SyncConfig, order: seq<string>, p: Pull, turns: seq<Turned>, now: int)
    requires Fruitless(config, order, p, turns, now)
    ensures (forall i: nat :: i < |order| ==> Visited(p, turns, |order|, i))
            <==> (forall k: nat :: k < |order| - 1 ==> !WantsAt(order, p, now, k))
  {
    hide VisitOf, TurnOk, Wants;
    var n := |order|;
    FirstAsk(config, order, p, turns, now, n - 1);
    if forall k :: 0 <= k < n - 1 ==> turns[k].answer.None? {
      forall i: nat | i < n ensures Visited(p, turns, n, i) {
        VisitsInOrder(config, order, p, turns, now, i);
      }
    } else {
      var j := EarlyAskRepeats(config, order, p, turns, now);
      var i := RepeatsMiss(p, turns, n, j, n - 1);
    }
  }

  /** Without an early query the round goes once round. */
  lemma VisitsInOrder(config: SyncConfig, order: seq<string>, p: Pull, turns: seq<Turned>, now: int, i: nat)
    requires Fruitless(config, order, p, turns, now) && i < |order|
    requires forall k :: 0 <= k < |order| - 1 ==> turns[k].answer.None?
    ensures Visited(p, turns, |order|, i)
  {
    hide VisitOf, TurnOk, Wants;
    var n := |order|;
    var k := if i >= p.cursor then i - p.cursor else n - p.cursor + i;
    UntilFirst(config, order, p, turns, now, k);
    Wraps(n, i);
    assert IndexAt(p, turns, k, n) == i;
  }

  /** A round that visits one session twice leaves one out. */
  lemma RepeatsMiss(p: Pull, turns: seq<Turned>, n: nat, a: nat, b: nat) returns (i: nat)
    requires |turns| == n && a < b < n && IndexAt(p, turns, a, n) == IndexAt(p, turns, b, n)
    ensures i < n && !Visited(p, turns, n, i)
  {
    hide IndexAt;
    var xs := Places(p, turns, n, n);
    i := SomeMissing(xs, n, a, b);
    assert forall k: nat :: k < n ==> xs[k] in xs;
  }

  /** The first `m` sessions visited. */
  function Places(p: Pull, turns: seq<Turned>, n: nat, m: nat): (xs: seq<nat>)
    requires m <= |turns| && n > 0
    ensures |xs| == m && forall k: nat :: k < m ==> xs[k] == IndexAt(p, turns, k, n)
  {
    if m == 0 then [] else Places(p, turns, n, m - 1) + [IndexAt(p, turns, m - 1, n)]
  }

  /** A session that is not looked at stays as it was. */
  lemma {:induction false} UnseenStays(config: SyncConfig, order: seq<string>, p: Pull, turns: seq<Turned>, now: int,
                                       i: nat, k: nat)
    requires Fruitless(config, order, p, turns, now) && i < |order| && !Visited(p, turns, |order|, i) && k <= |turns|
    ensures order[i] in Before(p, turns, k).sessions && order[i] in p.sessions
    ensures Before(p, turns, k).sessions[order[i]] == p.sessions[order[i]] && Before(p, turns, k).live == p.live
  {
    hide VisitOf, TurnOk, Wants, CanAct;
    if k > 0 {
      UnseenStays(config, order, p, turns, now, i, k - 1);
      TurnFacts(config, order, p, turns, now, k - 1);
      assert IndexAt(p, turns, k - 1, |order|) != i;
      assert order[IndexAt(p, turns, k - 1, |order|)] != order[i];
    }
  }

  /** Without a query None means that no session had anything to do. */
  lemma QuietRound(config: SyncConfig, order: seq<string>, p: Pull, turns: seq<Turned>, now: int)
    requires Fruitless(config, order, p, turns, now) && QueriesOf(order, p, turns) == []
    ensures Before(p, turns, |turns|) == p && forall s :: s in p.sessions ==> !CanAct(p.sessions[s], p.live, s, now)
  {
    hide VisitOf, TurnOk, CanAct;
    var n := |order|;
    assert turns[..n] == turns;
    NoQueries(config, order, p, turns, now, n);
    UntilFirst(config, order, p, turns, now, n);
    forall s | s in p.sessions ensures !CanAct(p.sessions[s], p.live, s, now) {
      var i :| 0 <= i < n && order[i] == s;
      var k := if i >= p.cursor then i - p.cursor else n - p.cursor + i;
      UntilFirst(config, order, p, turns, now, k);
      Wraps(n, i);
      TurnFacts(config, order, p, turns, now, k);
    }
  }

  // ---- who asks, and who is served

  /** Whatever a round has done to a session that was not due is handing out an event for it. */
  lemma {:induction false} DueOrSame(config: SyncConfig, order: seq<string>, p: Pull, turns: seq<Turned>, now: int, k: nat,
                                     s: string)
    requires Trace(config, order, p, turns, now) && k <= |turns| && s in p.sessions
    requires forall j :: 0 <= j < k ==> turns[j].event.None?
    ensures s in Before(p, turns, k).sessions && (Before(p, turns, k).sessions[s] == p.sessions[s] || DueAt(p, s, now))
  {
    hide VisitOf, TurnOk, CanAct;
    if k > 0 {
      DueOrSame(config, order, p, turns, now, k - 1, s);
      TurnFacts(config, order, p, turns, now, k - 1);
      SameKeys(config, order, p, turns, now, k - 1);
    }
  }

  lemma SameKeys(config: SyncConfig, order: seq<string>, p: Pull, turns: seq<Turned>, now: int, k: nat)
    requires Trace(config, order, p, turns, now) && k < |turns|
    ensures turns[k].next.sessions.Keys == Before(p, turns, k).sessions.Keys
  {
    hide VisitOf;
    assert TurnOk(config, order, p, turns, now, k);
    VisitFacts(config, order, Before(p, turns, k), IndexAt(p, turns, k, |order|), now, turns[k].Page());
  }

  /** A query is made only for a session that was due when the round began. */
  lemma {:induction false} OnlyDueAsk(config: SyncConfig, order: seq<string>, p: Pull, turns: seq<Turned>, now: int, m: nat)
    requires Trace(config, order, p, turns, now) && m <= |turns|
    ensures forall q :: q in QueriesOf(order, p, turns[..m]) ==> DueAt(p, q.session, now)
  {
    if m > 0 {
      hide VisitOf, CanAct;
      OnlyDueAsk(config, order, p, turns, now, m - 1);
      var some, k := turns[..m], m - 1;
      assert some[..k] == turns[..k];
      assert Before(p, some, k) == Before(p, turns, k) && IndexAt(p, some, k, |order|) == IndexAt(p, turns, k, |order|);
      var b, s := Before(p, turns, k), order[IndexAt(p, turns, k, |order|)];
      assert TurnOk(config, order, p, turns, now, k);
      VisitFacts(config, order, b, IndexAt(p, turns, k, |order|), now, turns[k].Page());
      DueOrSame(config, order, p, turns, now, k, s);
    }
  }

  /** Without a query or an event nothing changes. */
  lemma {:induction false} Unmoved(config: SyncConfig, order: seq<string>, p: Pull, turns: seq<Turned>, now: int, k: nat)
    requires Trace(config, order, p, turns, now) && k <= |turns|
    requires forall j :: 0 <= j < k ==> turns[j].answer.None? && turns[j].event.None?
    ensures Before(p, turns, k) == p
  {
    if k > 0 {
      hide VisitOf, TurnOk, CanAct;
      Unmoved(config, order, p, turns, now, k - 1);
      TurnFacts(config, order, p, turns, now, k - 1);
    }
  }

  /** The sessions take turns: without a query an event is handed out for the first session, in line from the cursor, that
      can do anything, and the cursor is then one past it. */
  lemma FirstServed(config: SyncConfig, order: seq<string>, p: Pull, turns: seq<Turned>, now: int, k: nat)
    requires Trace(config, order, p, turns, now) && |turns| == k + 1 && turns[k].event.Some?
    requires forall j :: 0 <= j <= k ==> turns[j].answer.None?
    ensures var i := Turn(p.cursor, k, |order|);
            && order[i] in turns[k].next.sessions && turns[k].next.sessions[order[i]].inFlight == turns[k].event
            && turns[k].next.cursor == if i + 1 == |order| then 0 else i + 1
    ensures forall j: nat :: j < k ==>
              var s := order[Turn(p.cursor, j, |order|)];
              s in p.sessions && !CanAct(p.sessions[s], p.live, s, now)
  {
    hide VisitOf, CanAct;
    Unmoved(config, order, p, turns, now, k);
    assert TurnOk(config, order, p, turns, now, k);
    VisitFacts(config, order, p, Turn(p.cursor, k, |order|), now, turns[k].Page());
    Around(Turn(p.cursor, k, |order|), |order|);
    forall j: nat | j < k
      ensures var s := order[Turn(p.cursor, j, |order|)]; s in p.sessions && !CanAct(p.sessions[s], p.live, s, now)
    {
      Unmoved(config, order, p, turns, now, j);
      TurnFacts(config, order, p, turns, now, j);
    }
  }

  /** The session that was served is one behind the cursor. */
  lemma ServedIsPast(config: SyncConfig, order: seq<string>, p: Pull, index: nat, now: int, answer: Option<HistoryPage>)
    requires index < |order| && order[index] in p.sessions && VisitOf(config, order, p, index, now, answer).event.Some?
    ensures VisitOf(config, order, p, index, now, answer).next.cursor == if index + 1 == |order| then 0 else index + 1
  {
    hide VisitOf;
    VisitFacts(config, order, p, index, now, answer);
    Around(index, |order|);
  }

  lemma Around(i: nat, n: nat)
    requires i < n
    ensures NextIndex(i, n) == if i + 1 == n then 0 else i + 1
  {
    if i + 1 < n {
      Wraps(n, i + 1);
    } else {
      assert n % n == 0;
    }
  }

  // ---- what a round leaves

  /** No session has an event to hand out. */
  ghost predicate NoneHas(p: Pull) {
    forall s :: s in p.sessions ==> !HasEvent(p.sessions[s], p.live, s)
  }

  /** Every session the round passed over had nothing to hand out. */
  ghost predicate PassedHadNone(order: seq<string>, p: Pull, turns: seq<Turned>)
    requires order != []
  {
    forall i: nat :: i < |order| && !Visited(p, turns, |order|, i) ==>
      order[i] in p.sessions && !HasEvent(p.sessions[order[i]], p.live, order[i])
  }

  /** A turn that hands out nothing leaves its session with nothing to hand out. */
  lemma TurnLeavesNone(config: SyncConfig, order: seq<string>, p: Pull, index: nat, now: int, answer: Option<HistoryPage>)
    requires index < |order| && order[index] in p.sessions && VisitOf(config, order, p, index, now, answer).event.None?
    ensures var t := VisitOf(config, order, p, index, now, answer);
            order[index] in t.next.sessions && !HasEvent(t.next.sessions[order[index]], t.next.live, order[index])
  {
    FirstIsIn(p.live, order[index]);
  }

  /** Once a session has been looked at in vain it has nothing to hand out for the rest of the round. */
  lemma {:induction false} SeenHasNone(config: SyncConfig, order: seq<string>, p: Pull, turns: seq<Turned>, now: int,
                                       i: nat, k: nat, m: nat)
    requires Fruitless(config, order, p, turns, now) && i < |order| && k < m <= |turns| && IndexAt(p, turns, k, |order|) == i
    ensures order[i] in Before(p, turns, m).sessions
    ensures !HasEvent(Before(p, turns, m).sessions[order[i]], Before(p, turns, m).live, order[i])
    decreases m
  {
    hide VisitOf, Wants, CanAct, HasEvent;
    var b, j := Before(p, turns, m - 1), IndexAt(p, turns, m - 1, |order|);
    assert TurnOk(config, order, p, turns, now, m - 1);
    if j == i {
      TurnLeavesNone(config, order, b, i, now, turns[m - 1].Page());
    } else {
      SeenHasNone(config, order, p, turns, now, i, k, m - 1);
      TurnFacts(config, order, p, turns, now, m - 1);
      assert order[j] != order[i];
    }
  }

  /**
   What None means: after such a call no session has anything to hand out exactly when none that was passed over
   had anything before it.
   */
  lemma NothingLeft(config: SyncConfig, order: seq<string>, p: Pull, turns: seq<Turned>, now: int)
    requires Fruitless(config, order, p, turns, now)
    ensures NoneHas(Before(p, turns, |turns|)) <==> PassedHadNone(order, p, turns)
  {
    hide VisitOf, Wants, CanAct, HasEvent, TurnOk;
    var n, after := |order|, Before(p, turns, |turns|);
    forall i: nat | i < n
      ensures order[i] in after.sessions
      ensures Visited(p, turns, n, i) ==> !HasEvent(after.sessions[order[i]], after.live, order[i])
      ensures !Visited(p, turns, n, i) ==>
                order[i] in p.sessions
                && HasEvent(after.sessions[order[i]], after.live, order[i])
                   == HasEvent(p.sessions[order[i]], p.live, order[i])
    {
      if Visited(p, turns, n, i) {
        var k: nat :| k < |turns| && IndexAt(p, turns, k, n) == i;
        SeenHasNone(config, order, p, turns, now, i, k, |turns|);
      } else {
        UnseenStays(config, order, p, turns, now, i, |turns|);
      }
    }
    StillListed(config, order, p, turns, now);
    if NoneHas(after) {
      forall i: nat | i < n && !Visited(p, turns, n, i) ensures !HasEvent(p.sessions[order[i]], p.live, order[i]) {
        assert order[i] in after.sessions;
      }
    }
    if PassedHadNone(order, p, turns) {
      forall s | s in after.sessions ensures !HasEvent(after.sessions[s], after.live, s) {
        var i: nat :| i < n && order[i] == s;
      }
    }
  }

  /** The sessions stay those of the order. */
  lemma StillListed(config: SyncConfig, order: seq<string>, p: Pull, turns: seq<Turned>, now: int)
    requires Trace(config, order, p, turns, now)
    ensures Before(p, turns, |turns|).sessions.Keys == Before(p, turns, if turns == [] then 0 else |turns| - 1).sessions.Keys
    ensures Listed(order, Before(p, turns, |turns|).sessions)
  {
    hide VisitOf;
    if turns != [] {
      var k := |turns| - 1;
      assert TurnOk(config, order, p, turns, now, k);
      VisitFacts(config, order, Before(p, turns, k), IndexAt(p, turns, k, |order|), now, turns[k].Page());
    }
  }

  /** So None does mean that nothing is left to hand out if no session but perhaps the last in line was due. */
  lemma LooksAtAllLeavesNone(config: SyncConfig, order: seq<string>, p: Pull, turns: seq<Turned>, now: int)
    requires Fruitless(config, order, p, turns, now) && forall k: nat :: k < |order| - 1 ==> !WantsAt(order, p, now, k)
    ensures NoneHas(Before(p, turns, |turns|))
  {
    hide VisitOf, Wants, HasEvent, TurnOk, Fruitless;
    LooksAtAll(config, order, p, turns, now);
    NothingLeft(config, order, p, turns, now);
  }

  lemma {:induction false} NoQueries(config: SyncConfig, order: seq<string>, p: Pull, turns: seq<Turned>, now: int, m: nat)
    requires Fruitless(config, order, p, turns, now) && m <= |turns| && QueriesOf(order, p, turns[..m]) == []
    ensures forall k :: 0 <= k < m ==> turns[k].answer.None?
  {
    hide VisitOf;
    if m > 0 {
      var some := turns[..m];
      assert some[..m - 1] == turns[..m - 1];
      assert Before(p, some, m - 1) == Before(p, turns, m - 1)
          && IndexAt(p, some, m - 1, |order|) == IndexAt(p, turns, m - 1, |order|);
      NoQueries(config, order, p, turns, now, m - 1);
      TurnFacts(config, order, p, turns, now, m - 1);
      assert TurnOk(config, order, p, turns, now, m - 1);
    }
  }

  /** Every session was looked at exactly if none but perhaps the last in line was due. */
  ghost predicate LookedOrDue(order: seq<string>, p: Pull, turns: seq<Turned>, now: int) {
    order != []
    && ((forall i: nat :: i < |order| ==> Visited(p, turns, |order|, i))
        <==> (forall k: nat :: k < |order| - 1 ==> !WantsAt(order, p, now, k)))
  }

  /** No session had anything to do. */
  ghost predicate AllIdle(p: Pull, now: int) {
    forall s :: s in p.sessions ==> !CanAct(p.sessions[s], p.live, s, now)
  }

  /** The round that the sessions, the cursor and the answers decide: where it ends, what it asked and handed out. */
  ghost predicate RoundRan(config: SyncConfig, order: seq<string>, p: Pull, turns: seq<Turned>, now: int, after: Pull,
                           asked: seq<Query>, event: Option<ProviderEvent>)
  {
    && Trace(config, order, p, turns, now) && after == Before(p, turns, |turns|) && asked == QueriesOf(order, p, turns)
    && (event.Some? ==> turns != [] && event == turns[|turns| - 1].event)
    && (event.None? ==> Fruitless(config, order, p, turns, now))
  }

  /** What such a round leaves to hand out: nothing exactly if none that was passed over had anything, and so if no
      session but perhaps the last in line was due. */
  ghost predicate LeavesFor(order: seq<string>, p: Pull, turns: seq<Turned>, now: int, after: Pull) {
    && order != [] && (NoneHas(after) <==> PassedHadNone(order, p, turns))
    && ((forall k: nat :: k < |order| - 1 ==> !WantsAt(order, p, now, k)) ==> NoneHas(after))
  }

  /** What it means that such a round handed out nothing. */
  lemma NothingHandedOut(config: SyncConfig, order: seq<string>, p: Pull, turns: seq<Turned>, now: int, after: Pull,
                         asked: seq<Query>)
    requires RoundRan(config, order, p, turns, now, after, asked, None)
    ensures LookedOrDue(order, p, turns, now) && LeavesFor(order, p, turns, now, after)
    ensures asked == [] ==> AllIdle(after, now)
  {
    hide Fruitless, TurnOk, VisitOf, WantsAt, CanAct, HasEvent, NoneHas, PassedHadNone;
    LooksAtAll(config, order, p, turns, now);
    NothingLeft(config, order, p, turns, now);
    if forall k: nat :: k < |order| - 1 ==> !WantsAt(order, p, now, k) {
      LooksAtAllLeavesNone(config, order, p, turns, now);
    }
    if asked == [] {
      QuietRound(config, order, p, turns, now);
    }
  }

  /** A call asks only for sessions that were due when its round began. */
  lemma AskedWhenDue(config: SyncConfig, order: seq<string>, p: Pull, turns: seq<Turned>, now: int, after: Pull,
                     asked: seq<Query>, event: Option<ProviderEvent>)
    requires RoundRan(config, order, p, turns, now, after, asked, event)
    ensures forall q :: q in asked ==> DueAt(p, q.session, now)
  {
    hide DueAt;
    OnlyDueAsk(config, order, p, turns, now, |turns|);
    assert turns[..|turns|] == turns;
  }
}
