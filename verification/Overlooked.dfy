/** A puller whose call passes over a session that has an event to hand out, and returns None. */
module Overlooked {
  import opened Common
  import opened System
  import opened Adapter
  import opened Sessions
  import opened Rounds
  import opened Puller
  import opened Memory

  const NEXT_PAGE := HistoryPage([], Some("next"))

  const LAST_PAGE := HistoryPage([], None)

  /** A session that is due, and has got nothing so far. */
  predicate Due(st: SessionPullState) {
    st.inFlight.None? && st.historyEvents == [] && st.historyScan.Some? && st.nextHistoryAtMs == 0
  }

  /** Its state after an empty page that has a next one. */
  function AskedAgain(st: SessionPullState): SessionPullState
    requires st.historyScan.Some?
  {
    st.(historyScan := Some(st.historyScan.value.(pageToken := Some("next"))))
  }

  lemma EmptyPage(config: SyncConfig, order: seq<string>, p: Pull, index: nat, now: nat)
    requires |order| == 2 && index < 2 && order[index] in p.sessions && Due(p.sessions[order[index]])
    ensures var st := p.sessions[order[index]];
            VisitOf(config, order, p, index, now, Some(NEXT_PAGE))
            == Turned(Pull(p.sessions[order[index] := AskedAgain(st)], 1 - index, p.live), None, Some(Some(NEXT_PAGE)))
  {
    assert NextIndex(0, 2) == 1 && NextIndex(1, 2) == 0;
    assert p.sessions[order[index]].historyEvents + [] == [];
  }

  /** The first turn of a round that starts at a due session asks for its history. */
  lemma FirstAnswer(config: SyncConfig, order: seq<string>, p: Pull, turns: seq<Turned>, now: nat, asked: seq<Query>)
    requires |order| == 2 && Trace(config, order, p, turns, now) && turns != [] && asked == QueriesOf(order, p, turns)
    requires Due(p.sessions[order[p.cursor]])
    ensures asked != [] && turns[0] == VisitOf(config, order, p, p.cursor, now, asked[0].answer)
    ensures turns[0].answer == Some(asked[0].answer)
  {
    hide VisitOf, QueriesOf;
    assert TurnOk(config, order, p, turns, now, 0) && IndexAt(p, turns, 0, 2) == p.cursor;
    DueAsks(config, order, p, p.cursor, now, turns[0].Page());
    FirstQuery(order, p, turns);
  }

  lemma DueAsks(config: SyncConfig, order: seq<string>, p: Pull, index: nat, now: nat, answer: Option<HistoryPage>)
    requires index < |order| && order[index] in p.sessions && Due(p.sessions[order[index]])
    ensures VisitOf(config, order, p, index, now, answer).answer == Some(answer)
  {}

  lemma FirstQuery(order: seq<string>, p: Pull, turns: seq<Turned>)
    requires |order| == 2 && 1 <= |turns| <= 2 && p.cursor < 2 && order[p.cursor] in p.sessions
    requires turns[0].answer.Some? && p.sessions[order[p.cursor]].historyScan.Some?
    ensures QueriesOf(order, p, turns) != [] && QueriesOf(order, p, turns)[0].answer == turns[0].answer.value
    ensures |QueriesOf(order, p, turns[..1])| == 1
  {
    assert IndexAt(p, turns[..1], 0, 2) == p.cursor && turns[..1][..0] == [];
    if |turns| == 2 {
      assert QueriesOf(order, p, turns[..1]) <= QueriesOf(order, p, turns);
    } else {
      assert turns[..1] == turns;
    }
  }

  /** After an empty page that has a next one the cursor has moved on, and with it the loop comes back. */
  lemma TwiceTheSame(config: SyncConfig, order: seq<string>, p: Pull, turns: seq<Turned>, now: nat, after: Pull,
                     asked: seq<Query>, r: Option<ProviderEvent>)
    requires |order| == 2 && RoundRan(config, order, p, turns, now, after, asked, r) && p.cursor == 0
    requires Due(p.sessions[order[0]]) && forall k :: 0 <= k < |asked| && k < 2 ==> asked[k].answer == Some(NEXT_PAGE)
    ensures r == None && |asked| == 2
    ensures after == Pull(p.sessions[order[0] := AskedAgain(p.sessions[order[0]])], 1, p.live)
  {
    hide VisitOf, TurnOk;
    assert turns != [];
    var again := Pull(p.sessions[order[0] := AskedAgain(p.sessions[order[0]])], 1, p.live);
    FirstAnswer(config, order, p, turns, now, asked);
    EmptyPage(config, order, p, 0, now);
    assert |turns| == 2;
    SecondAnswer(config, order, p, turns, now, asked);
    EmptyPage(config, order, again, 0, now);
    assert again.sessions[order[0] := AskedAgain(again.sessions[order[0]])] == again.sessions;
  }

  /** So does its second turn, if it comes to a due session. */
  lemma SecondAnswer(config: SyncConfig, order: seq<string>, p: Pull, turns: seq<Turned>, now: nat, asked: seq<Query>)
    requires |order| == |turns| == 2 && Trace(config, order, p, turns, now) && asked == QueriesOf(order, p, turns)
    requires Due(p.sessions[order[p.cursor]])
    requires var b, i := turns[0].next, IndexAt(p, turns, 1, 2); order[i] in b.sessions && Due(b.sessions[order[i]])
    ensures |asked| == 2 && turns[1] == VisitOf(config, order, turns[0].next, IndexAt(p, turns, 1, 2), now, asked[1].answer)
  {
    assert TurnOk(config, order, p, turns, now, 0) && TurnOk(config, order, p, turns, now, 1);
    FirstOnly(config, order, p, turns, now);
  }

  lemma FirstOnly(config: SyncConfig, order: seq<string>, p: Pull, turns: seq<Turned>, now: nat)
    requires |order| == |turns| == 2 && Trace(config, order, p, turns, now) && Due(p.sessions[order[p.cursor]])
    ensures turns[0].answer.Some? && |QueriesOf(order, p, turns[..1])| == 1
  {
    hide VisitOf, QueriesOf;
    assert TurnOk(config, order, p, turns, now, 0) && IndexAt(p, turns, 0, 2) == p.cursor;
    DueAsks(config, order, p, p.cursor, now, turns[0].Page());
    FirstQuery(order, p, turns);
  }

  /** A session that finishes its history with an empty last page has nothing to hand out, and the cursor has moved on. */
  lemma FinishesEmpty(config: SyncConfig, order: seq<string>, p: Pull, turns: seq<Turned>, now: nat, after: Pull,
                      asked: seq<Query>, r: Option<ProviderEvent>)
    requires |order| == 2 && RoundRan(config, order, p, turns, now, after, asked, r) && p.cursor == 1 && p.live == []
    requires Due(p.sessions[order[1]]) && (asked != [] ==> asked[0].answer == Some(LAST_PAGE))
    ensures r == None && |asked| == 1 && after.cursor == 0 && after.live == [] && after.sessions.Keys == p.sessions.Keys
    ensures after.sessions[order[0]] == p.sessions[order[0]] && Finished(after.sessions[order[1]])
  {
    hide VisitOf, QueriesOf;
    var done := Pull(p.sessions[order[1] := PageAdded(p.sessions[order[1]], LAST_PAGE)], 0, []);
    FirstAnswer(config, order, p, turns, now, asked);
    EmptyLastPage(config, order, p, now);
    assert |turns| == 2 && TurnOk(config, order, p, turns, now, 1);
    NothingThere(config, order, done, now, turns[1].Page());
    FirstOnly(config, order, p, turns, now);
    AskedNoMore(order, p, turns);
  }

  predicate Finished(st: SessionPullState) { st.inFlight.None? && st.historyEvents == [] && st.historyScan.None? }

  lemma EmptyLastPage(config: SyncConfig, order: seq<string>, p: Pull, now: nat)
    requires |order| == 2 && order[1] in p.sessions && Due(p.sessions[order[1]]) && p.live == []
    ensures VisitOf(config, order, p, 1, now, Some(LAST_PAGE))
            == Turned(Pull(p.sessions[order[1] := PageAdded(p.sessions[order[1]], LAST_PAGE)], 0, []), None,
                      Some(Some(LAST_PAGE)))
  {
    assert NextIndex(1, 2) == 0;
  }

  lemma NothingThere(config: SyncConfig, order: seq<string>, p: Pull, now: nat, answer: Option<HistoryPage>)
    requires |order| == 2 && order[1] in p.sessions && Finished(p.sessions[order[1]]) && p.live == []
    ensures VisitOf(config, order, p, 1, now, answer) == Turned(p, None, None)
  {}

  lemma AskedNoMore(order: seq<string>, p: Pull, turns: seq<Turned>)
    requires |order| == |turns| == 2 && turns[1].answer.None?
    ensures QueriesOf(order, p, turns) == QueriesOf(order, p, turns[..1])
  {}

  /** What the three calls are answered. */
  function Script(e: ProviderEvent): (seq<Option<ProviderEvent>>, seq<HistoryAnswer>) {
    ([None, None, Some(e)], [Paged(NEXT_PAGE), Paged(NEXT_PAGE), Paged(LAST_PAGE), Paged(NEXT_PAGE), Paged(NEXT_PAGE)])
  }

  /** Such a provider is never to blame. */
  lemma NoBlame(puller: ProviderMessagePuller, e: ProviderEvent, fault: PullFault, level: bool)
    requires puller.adapter.moves == [] && puller.adapter.Valid() && puller.adapter.name == "p"
    requires puller.adapter.events == Script(e).0 && puller.adapter.history == Script(e).1
    requires e.provider == "p" && e.sessionId == "b" && level
    requires "b" in puller.sessions || puller.adapter.polls == 0
    ensures !puller.Blamed(fault, level)
  {
    var given, asked := puller.adapter.given, puller.adapter.asked;
    HandsOutOnly(Script(e).0, puller.adapter.polls, e);
    assert given != [] ==> given[|given| - 1] in given;
    if asked != [] {
      BringsNothing(e, |asked| - 1);
      assert asked[|asked| - 1].Events() == [];
    }
  }

  lemma BringsNothing(e: ProviderEvent, k: nat)
    ensures AnswerAt(Script(e).1, k).Page().Some? ==> AnswerAt(Script(e).1, k).Page().value.events == []
  {}

  lemma {:induction false} HandsOutOnly(events: seq<Option<ProviderEvent>>, k: nat, e: ProviderEvent)
    requires forall i :: 0 <= i < |events| ==> events[i] == None || events[i] == Some(e)
    ensures forall x :: x in HandedOut(events, k) ==> x == e
  {
    if k > 0 {
      HandsOutOnly(events, k - 1, e);
    }
  }

  /** The order of two sessions. */
  lemma TwoInOrder(order: seq<string>)
    requires InOrder(order) && (forall s :: s in order <==> s in {"a", "b"})
    requires forall i, j :: 0 <= i < j < |order| ==> order[i] != order[j]
    ensures order == ["a", "b"]
  {
    assert TextLess("a", "b") && !TextLess("b", "a");
    assert "a" in order && "b" in order;
    if |order| > 2 { ThreeOfTwo(order); }
  }

  lemma ThreeOfTwo(order: seq<string>)
    requires |order| > 2 && forall i, j :: 0 <= i < j < |order| ==> order[i] != order[j]
    ensures exists s :: s in order && s !in {"a", "b"}
  {
    assert order[0] in order && order[1] in order && order[2] in order;
  }

  /** The puller between two calls, having been asked `k` times, with its provider at the script. */
  ghost predicate Between(puller: ProviderMessagePuller, e: ProviderEvent, polls: nat, queries: nat)
    reads puller, puller.adapter
  {
    && puller.Valid() && puller.started && puller.sessionOrder == ["a", "b"] && puller.config.eventQueueSize == 1
    && puller.adapter.moves == [] && puller.adapter.name == "p" && puller.streamGeneration == puller.adapter.generation
    && puller.adapter.events == Script(e).0 && puller.adapter.history == Script(e).1
    && puller.adapter.polls == polls && |puller.adapter.asked| == queries
    && "a" in puller.sessions && "b" in puller.sessions
  }

  /** One call of such a puller, whose buffer has room. */
  method CallOnce(puller: ProviderMessagePuller, ghost e: ProviderEvent, ghost polls: nat, ghost queries: nat)
    returns (r: Result<Option<ProviderEvent>, PullFault>, ghost ready: Pull, ghost turns: seq<Turned>)
    requires Between(puller, e, polls, queries) && puller.liveEvents == [] && e.provider == "p" && e.sessionId == "b"
    modifies puller, puller.adapter
    ensures r.Ok? && queries <= |puller.adapter.asked| && Between(puller, e, polls + 1, |puller.adapter.asked|)
    ensures ready == Pull(old(puller.sessions), old(puller.sessionCursor),
                          if EventAt(Script(e).0, polls).Some? then [EventAt(Script(e).0, polls).value] else [])
    ensures RoundRan(puller.config, ["a", "b"], ready, turns, puller.adapter.now, puller.View(),
                     puller.adapter.asked[queries..], r.value)
    ensures forall k :: queries <= k < |puller.adapter.asked| ==>
              puller.adapter.asked[k].answer == AnswerAt(Script(e).1, k).Page()
  {
    hide ProviderMessagePuller.Blamed, RoundRan, Told, LiveLast, Taken, LeavesFor, LookedOrDue, AllIdle, Script, HandedOut;
    hide ProviderMessagePuller.Valid, ProviderMessagePuller.Ordered, Provider.Valid, Listed, Deliveries, Outstanding,
         Provider.Honest, Provider.Reported;
    ghost var adapter := puller.adapter;
    Recorded(puller);
    r, ready, turns := puller.TakeMessage();
    OrderKnown(puller);
    if r.Err? {
      NoBlame(puller, e, r.error, true);
    }
    Recorded(puller);
    NextHanded(adapter.events, polls);
  }

  /** What a valid puller and its provider agree on. */
  lemma Recorded(puller: ProviderMessagePuller)
    requires puller.Valid()
    ensures puller.adapter.Valid() && puller.adapter.given == HandedOut(puller.adapter.events, puller.adapter.polls)
    ensures puller.Ordered()
    ensures forall k :: 0 <= k < |puller.adapter.asked| ==>
              puller.adapter.asked[k].answer == AnswerAt(puller.adapter.history, k).Page()
  {}

  lemma OrderKnown(puller: ProviderMessagePuller)
    requires puller.Ordered() && puller.started && puller.sessionOrder == ["a", "b"]
    ensures "a" in puller.sessions && "b" in puller.sessions
  {
    assert "a" in puller.sessionOrder && "b" in puller.sessionOrder;
  }

  lemma NextHanded(events: seq<Option<ProviderEvent>>, k: nat)
    ensures HandedOut(events, k + 1)
            == HandedOut(events, k) + if EventAt(events, k).Some? then [EventAt(events, k).value] else []
  {}

  /** A puller of two sessions that has just been started. */
  method Begin(env: Env, ghost e: ProviderEvent, events: seq<Option<ProviderEvent>>, history: seq<HistoryAnswer>)
    returns (puller: ProviderMessagePuller)
    requires e.provider == "p" && e.sessionId == "b" && (events, history) == Script(e)
    ensures Between(puller, e, 0, 0) && puller.sessionCursor == 0 && puller.liveEvents == []
    ensures Due(puller.sessions["a"]) && Due(puller.sessions["b"]) && fresh(puller) && fresh(puller.adapter)
  {
    hide ProviderMessagePuller.Valid, ProviderMessagePuller.Ordered, Provider.Valid, ProviderMessagePuller.Blamed;
    hide Script, Opened, Listed, InOrder, AllEmpty, HandedOut;
    var adapter := new Provider("p", env, [], events, history);
    puller := new ProviderMessagePuller(adapter, SyncConfig(0, 0, 0, 1));
    var marks := map["a" := None, "b" := None];
    var started := puller.Start(marks);
    if started.Err? {
      Recorded(puller);
      NoBlame(puller, e, started.error, true);
    }
    Recorded(puller);
    assert puller.sessions.Keys == marks.Keys == {"a", "b"};
    OrderIs(puller);
  }

  /** The third call returns None although session "b" has an event waiting and has been asked for nothing. */
  method PassedOver(env: Env, e: ProviderEvent)
    returns (puller: ProviderMessagePuller, r: Result<Option<ProviderEvent>, PullFault>)
    requires e.provider == "p" && e.sessionId == "b"
    ensures r == Ok(None) && puller.Valid() && puller.started && "b" in puller.sessions
    ensures HasEvent(puller.sessions["b"], puller.liveEvents, "b")
  {
    hide ProviderMessagePuller.Valid, Provider.Valid, RoundRan, Script, AnswerAt, EventAt, PageAdded;
    puller := Begin(env, e, Script(e).0, Script(e).1);
    ghost var ready, turns;
    r, ready, turns := CallOnce(puller, e, 0, 0);
    ScriptSays(e);
    TwiceTheSame(puller.config, ["a", "b"], ready, turns, puller.adapter.now, puller.View(),
        puller.adapter.asked, r.value);
    r, ready, turns := CallOnce(puller, e, 1, 2);
    FinishesEmpty(puller.config, ["a", "b"], ready, turns, puller.adapter.now, puller.View(),
        puller.adapter.asked[2..], r.value);
    r, ready, turns := CallOnce(puller, e, 2, 3);
    TwiceTheSame(puller.config, ["a", "b"], ready, turns, puller.adapter.now, puller.View(),
        puller.adapter.asked[3..], r.value);
    assert e in puller.liveEvents;
  }

  lemma ScriptSays(e: ProviderEvent)
    ensures var events, history := Script(e).0, Script(e).1;
            && EventAt(events, 0) == EventAt(events, 1) == None && EventAt(events, 2) == Some(e)
            && AnswerAt(history, 0).Page() == AnswerAt(history, 1).Page() == Some(NEXT_PAGE)
            && AnswerAt(history, 2).Page() == Some(LAST_PAGE)
            && AnswerAt(history, 3).Page() == AnswerAt(history, 4).Page() == Some(NEXT_PAGE)
  {}

  lemma OrderIs(puller: ProviderMessagePuller)
    requires puller.Ordered() && puller.started && InOrder(puller.sessionOrder) && puller.sessions.Keys == {"a", "b"}
    ensures puller.sessionOrder == ["a", "b"]
  {
    hide InOrder;
    TwoInOrder(puller.sessionOrder);
  }
}
