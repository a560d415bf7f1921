/** The provider behind its adapter, as the worker meets it: choices at every call, and notes of what was asked and said. */
module Adapter {
  import opened Common
  import opened System

  datatype HistoryPage = HistoryPage(events: seq<ProviderEvent>, nextPageToken: Option<string>)

  /** What it says to a history query: a page, or a failure that may be temporary. */
  datatype HistoryAnswer = Paged(page: HistoryPage) | Failed(transient: bool)
  {
    function Page(): Option<HistoryPage> { if Paged? then Some(page) else None }
  }

  /** What the provider decides at any other call: whether the stream is broken, by how much its generation has
      moved, how much time has passed, and whether a send is accepted and answered, or what is said instead. */
  datatype Move = Move(broken: bool, generation: int, elapsed: nat, delivers: bool, answers: bool, instead: SendAnswer)

  const QUIET_MOVE := Move(false, 0, 0, false, false, Raised)

  function MoveAt(moves: seq<Move>, k: nat): Move { if k < |moves| then moves[k] else QUIET_MOVE }

  /** The stream breaks some time, reconnects some time, or tells a generation below an earlier one. */
  predicate Breaks(moves: seq<Move>) { exists m :: m in moves && m.broken }

  predicate Reconnects(moves: seq<Move>) { exists m :: m in moves && m.generation != 0 }

  predicate CountsBack(moves: seq<Move>) { exists m :: m in moves && m.generation < 0 }

  function EventAt(events: seq<Option<ProviderEvent>>, k: nat): Option<ProviderEvent> {
    if k < |events| then events[k] else None
  }

  function AnswerAt(history: seq<HistoryAnswer>, k: nat): HistoryAnswer { if k < |history| then history[k] else Failed(true) }

  /** The live events handed out at the first `k` polls. */
  function HandedOut(events: seq<Option<ProviderEvent>>, k: nat): seq<ProviderEvent> {
    if k == 0 then []
    else HandedOut(events, k - 1) + if EventAt(events, k - 1).Some? then [EventAt(events, k - 1).value] else []
  }

  datatype SendAnswer = Raised | Answer(success: bool, messageId: Option<string>)

  /** What it says to a send; one that is accepted may fail all the same. Success with an id is only said of a message
      that has this id. */
  function AnswerTo(m: Move, id: string): SendAnswer {
    if m.delivers && m.answers then Answer(true, Some(id))
    else if m.instead.Answer? && m.instead.success && m.instead.messageId.Some? && m.instead.messageId.value != "" then Raised
    else m.instead
  }

  /** An event the provider reported, and how many messages it had accepted by then. */
  datatype Report = Report(event: ProviderEvent, after: nat)

  /** One history query as the provider received it, with its page if it gave one. */
  datatype Query = Query(session: string, startMs: int, endMs: int, token: Option<string>, answer: Option<HistoryPage>)
  {
    /** It was answered with a last page. */
    predicate Final() { answer.Some? && answer.value.nextPageToken.None? }

    /** What it brought. */
    function Events(): seq<ProviderEvent> { if answer.Some? then answer.value.events else [] }
  }

  /** The provider behind its adapter: it accepts sends, reports events, pages history and keeps the clock. */
  class Provider {
    const name: string
    const env: Env
    /** What it will decide, what it will hand out poll by poll, and what it will answer query by query. */
    const moves: seq<Move>
    const events: seq<Option<ProviderEvent>>
    const history: seq<HistoryAnswer>
    var step: nat
    var polls: nat
    var queries: nat
    var generation: int
    var now: nat
    /** Every message it accepted from the worker. */
    ghost var sends: seq<Delivery>
    /** Every event it reported, every live event it handed out, and every history query it received. */
    ghost var reports: seq<Report>
    ghost var given: seq<ProviderEvent>
    ghost var asked: seq<Query>
    /** What it said each time it was asked whether the stream is broken. */
    ghost var checks: seq<bool>

    constructor (name: string, env: Env, moves: seq<Move>, events: seq<Option<ProviderEvent>>, history: seq<HistoryAnswer>)
      ensures Valid() && this.name == name && this.env == env && now == 0 && generation == 0
      ensures this.moves == moves && this.events == events && this.history == history
      ensures sends == [] && reports == [] && given == [] && asked == [] && polls == 0
    {
      this.name, this.env, this.moves, this.events, this.history := name, env, moves, events, history;
      step, polls, queries, generation, now := 0, 0, 0, 0, 0;
      sends, reports, given, asked, checks := [], [], [], [], [];
    }

    ghost predicate Valid()
      reads `reports, `sends, `given, `asked, `polls, `queries
    {
      && (forall r :: r in reports ==> r.after <= |sends|)
      && given == HandedOut(events, polls) && queries == |asked|
      && forall k :: 0 <= k < |asked| ==> asked[k].answer == AnswerAt(history, k).Page()
    }

    /** Its reports have kept to `EventOk` so far. */
    ghost predicate Honest()
      reads `reports, `sends
    {
      forall r :: r in reports ==> r.after <= |sends| && EventOk(env, sends[..r.after], r.event)
    }

    ghost function Reported(): set<ProviderEvent>
      reads `reports
    {
      set r | r in reports :: r.event
    }

    /** What an honest provider reported is accounted for by the messages it has accepted. */
    lemma ReportedOk(e: ProviderEvent)
      requires Honest() && e in Reported()
      ensures EventOk(env, sends, e)
    {
      var r :| r in reports && r.event == e;
      SendsGrow(env, sends[..r.after], sends, e);
    }

    /** Reports and sends only grow, so honesty once lost stays lost. */
    twostate lemma StillHonest()
      requires old(forall r :: r in reports ==> r.after <= |sends|) && old(reports) <= reports && old(sends) <= sends
      ensures Honest() ==> old(Honest())
      ensures old(Reported()) <= Reported()
    {
      assert forall r :: r in old(reports) ==> r in reports && sends[..r.after] == old(sends)[..r.after];
    }

    method Decide() returns (m: Move)
      modifies `step
      ensures m == MoveAt(moves, old(step)) && step == old(step) + 1
    {
      m := MoveAt(moves, step);
      step := step + 1;
    }

    /** Whether the stream is broken; it may have reconnected since the last look. */
    method EventStreamError() returns (broken: bool)
      modifies `step, `generation, `checks
      ensures broken == MoveAt(moves, old(step)).broken && checks == old(checks) + [broken]
      ensures generation == old(generation) + MoveAt(moves, old(step)).generation
    {
      var m := Decide();
      generation := generation + m.generation;
      checks := checks + [m.broken];
      return m.broken;
    }

    method EventStreamGeneration() returns (g: int)
      modifies `step, `generation
      ensures g == generation == old(generation) + MoveAt(moves, old(step)).generation
    {
      var m := Decide();
      generation := generation + m.generation;
      return generation;
    }

    method Clock() returns (t: nat)
      modifies `step, `now
      ensures t == now == old(now) + MoveAt(moves, old(step)).elapsed
    {
      var m := Decide();
      now := now + m.elapsed;
      return now;
    }

    /** The next live event, if there is one; the stream may reconnect meanwhile. */
    method TakeEvent() returns (e: Option<ProviderEvent>)
      requires Valid()
      modifies `step, `generation, `reports, `given, `polls
      ensures Valid() && (Honest() ==> old(Honest())) && polls == old(polls) + 1
      ensures e == EventAt(events, old(polls)) && generation == old(generation) + MoveAt(moves, old(step)).generation
      ensures given == old(given) + (if e.Some? then [e.value] else [])
      ensures reports == old(reports) + (if e.Some? then [Report(e.value, |sends|)] else [])
      ensures old(Reported()) <= Reported() && (e.Some? ==> e.value in Reported())
    {
      var m := Decide();
      generation := generation + m.generation;
      e := EventAt(events, polls);
      polls := polls + 1;
      if e.Some? {
        given := given + [e.value];
        reports := reports + [Report(e.value, |sends|)];
        assert Report(e.value, |sends|) in reports;
      }
      StillHonest();
    }

    /** A page, or None for a failure, which may be temporary. */
    method FetchHistoryPage(session: string, startMs: int, endMs: int, token: Option<string>)
      returns (page: Option<HistoryPage>, transient: bool)
      requires Valid()
      modifies `queries, `reports, `asked
      ensures Valid() && (Honest() ==> old(Honest()))
      ensures asked == old(asked) + [Query(session, startMs, endMs, token, page)]
      ensures page.None? ==> AnswerAt(history, |old(asked)|) == Failed(transient)
      ensures old(reports) <= reports && old(Reported()) <= Reported()
      ensures page.Some? ==> forall e :: e in page.value.events ==> e in Reported()
    {
      var answer := AnswerAt(history, queries);
      page, transient := answer.Page(), if answer.Failed? then answer.transient else false;
      queries := queries + 1;
      asked := asked + [Query(session, startMs, endMs, token, page)];
      if page.Some? {
        var events := page.value.events;
        ghost var after := |sends|;
        ghost var more := seq(|events|, i requires 0 <= i < |events| => Report(events[i], after));
        assert forall r :: r in more ==> r.after == after;
        reports := reports + more;
        forall e | e in events ensures e in Reported() {
          var i :| 0 <= i < |events| && events[i] == e;
          assert more[i] in reports;
        }
      }
      StillHonest();
    }

    /** A send may be accepted and still fail; a success names the id that belongs to the request. */
    method SendMessage(d: Delivery) returns (r: SendAnswer)
      requires Valid()
      modifies `step, `sends
      ensures Valid() && (Honest() <==> old(Honest())) && step == old(step) + 1
      ensures sends == old(sends) + (if MoveAt(moves, old(step)).delivers then [d] else [])
      ensures r == AnswerTo(MoveAt(moves, old(step)), env.messageIdOf(d.requestId))
    {
      var m := Decide();
      if m.delivers {
        sends := sends + [d];
        assert forall n: nat :: n <= |old(sends)| ==> sends[..n] == old(sends)[..n];
      }
      return AnswerTo(m, env.messageIdOf(d.requestId));
    }
  }

  /** An event stays accounted for as more messages are accepted. */
  lemma SendsGrow(env: Env, before: seq<Delivery>, after: seq<Delivery>, e: ProviderEvent)
    requires before <= after && EventOk(env, before, e)
    ensures EventOk(env, after, e)
  {
    if env.originOf(e.messageId).Some? {
      var r := env.originOf(e.messageId).value;
      var sent :| sent in before && sent.requestId == r && sent.session == (e.provider, e.sessionId);
      assert sent in after;
    }
  }
}
