/** How stretches of real execution, with other writers in between, are runs of the transition system. */
module Refine {
  import opened Common
  import opened Wire
  import opened Memory
  import opened Queue
  import opened Replay
  import opened System
  import opened Safety
  import opened Client

  lemma ReachRefl(env: Env, s: State)
    ensures Reaches(env, s, s)
  {
    assert Run(env, [s]);
  }

  lemma ReachStep(env: Env, s: State, l: Label, t: State)
    requires Step(env, s, l, t)
    ensures Reaches(env, s, t)
  {
    hide Step;
    var states := [s, t];
    assert Next(env, s, t);
    assert Run(env, states) && states[0] == s && states[|states| - 1] == t;
  }

  lemma ReachTrans(env: Env, a: State, b: State, c: State)
    requires Reaches(env, a, b) && Reaches(env, b, c)
    ensures Reaches(env, a, c)
  {
    hide Step, Next;
    var first :| Run(env, first) && first[0] == a && first[|first| - 1] == b;
    var second :| Run(env, second) && second[0] == b && second[|second| - 1] == c;
    var states := first + second[1..];
    forall i | 0 <= i < |states| - 1 ensures Next(env, states[i], states[i + 1]) {
      if i < |first| - 1 {
        assert states[i] == first[i] && states[i + 1] == first[i + 1];
      } else {
        var j := i - (|first| - 1);
        assert states[i] == second[j] && states[i + 1] == second[j + 1];
      }
    }
    assert Run(env, states) && states[0] == a && states[|states| - 1] == c;
  }

  /** A crash can follow at any time. */
  lemma ReachCrash(env: Env, s: State, t: State)
    requires Reaches(env, s, t)
    ensures Reaches(env, s, t.(worker := Down))
  {
    assert Step(env, t, Crash, t.(worker := Down));
    ReachStep(env, t, Crash, t.(worker := Down));
    ReachTrans(env, s, t, t.(worker := Down));
  }

  /** Runs keep the invariant. */
  lemma ReachKeeps(env: Env, s: State, t: State)
    requires env.Sound() && Inv(env, s) && Reaches(env, s, t)
    ensures Inv(env, t)
  {
    hide Inv, Step, Next;
    var states :| Run(env, states) && states[0] == s && states[|states| - 1] == t;
    RunKeeps(env, states, |states| - 1);
  }

  /** Entries `from`..`upto` were written by callers. */
  ghost predicate CallersWrote(env: Env, log: Log, from: nat, upto: nat)
    requires from <= upto <= |log|
  {
    forall i :: from <= i < upto ==> CallerOk(env, log[..i], log[i])
  }

  /** Callers writing is a run. */
  lemma {:induction false} ReachAppends(env: Env, s: State, log: Log, upto: nat)
    requires Increasing(log) && |s.log| <= upto <= |log| && s.log == log[..|s.log|] && CallersWrote(env, log, |s.log|, upto)
    ensures Reaches(env, s, s.(log := log[..upto]))
    decreases upto
  {
    hide CallerOk, Reaches;
    if upto == |s.log| {
      ReachRefl(env, s);
    } else {
      ReachAppends(env, s, log, upto - 1);
      var before, msg := s.(log := log[..upto - 1]), log[upto - 1];
      assert log[..upto] == log[..upto - 1] + [msg];
      var after := s.(log := log[..upto]);
      assert Step(env, before, CallerAppend(msg), after);
      ReachStep(env, before, CallerAppend(msg), after);
      ReachTrans(env, s, before, after);
    }
  }

  /** When nothing of this client's was added, callers wrote everything new. */
  lemma NewIsCallers(env: Env, log0: Log, log1: Log, own: set<nat>)
    requires Increasing(log1) && log0 <= log1 && OwnBelow(log0, own) && Attributed(env, log1, own)
    ensures CallersWrote(env, log1, |log0|, |log1|)
  {
    hide CallerOk;
    forall i | |log0| <= i < |log1| ensures CallerOk(env, log1[..i], log1[i]) {
      if log0 != [] { assert log1[|log0| - 1] == log0[|log0| - 1]; }
      assert log1[i].sn !in own;
    }
  }

  /** When one copy was added, callers wrote everything around it. */
  lemma AroundIsCallers(env: Env, log0: Log, own0: set<nat>, log1: Log, own1: set<nat>, d: Draft, i: nat)
    requires Increasing(log1) && log0 <= log1 && OwnBelow(log0, own0) && Attributed(env, log1, own1)
    requires CopyAt(log0, own0, log1, own1, d, i)
    ensures CallersWrote(env, log1, |log0|, i) && CallersWrote(env, log1, i + 1, |log1|)
  {
    hide CallerOk;
    forall k | |log0| <= k < |log1| && k != i ensures CallerOk(env, log1[..k], log1[k]) {
      if log0 != [] { assert log1[|log0| - 1] == log0[|log0| - 1]; }
      assert log1[k].sn !in own1;
    }
  }

  /** Callers write, the worker commits, callers write: a run, for any commit that may happen at any log. */
  lemma ReachCommit(env: Env, s: State, own0: set<nat>, log1: Log, own1: set<nat>, d: Draft, i: nat, l: Label, w: Worker)
    requires Increasing(log1) && s.log <= log1 && OwnBelow(s.log, own0) && Attributed(env, log1, own1)
    requires CopyAt(s.log, own0, log1, own1, d, i)
    requires Step(env, s.(log := log1[..i]), l, s.(log := log1[..i + 1], worker := w))
    ensures Reaches(env, s, s.(log := log1, worker := w))
  {
    hide Step, CallerOk;
    AroundIsCallers(env, s.log, own0, log1, own1, d, i);
    var a, b := s.(log := log1[..i]), s.(log := log1[..i + 1], worker := w);
    ReachAppends(env, s, log1, i);
    ReachStep(env, a, l, b);
    ReachTrans(env, s, a, b);
    ReachAppends(env, b, log1, |log1|);
    assert log1[..|log1|] == log1;
    ReachTrans(env, s, b, s.(log := log1, worker := w));
  }

  /** Only callers wrote: a run in which the worker did nothing. */
  lemma ReachQuiet(env: Env, s: State, log1: Log, own: set<nat>)
    requires Increasing(log1) && s.log <= log1 && OwnBelow(s.log, own) && Attributed(env, log1, own)
    ensures Reaches(env, s, s.(log := log1))
  {
    hide CallerOk;
    NewIsCallers(env, s.log, log1, own);
    ReachAppends(env, s, log1, |log1|);
    assert log1[..|log1|] == log1;
  }

  // ---- one outbound task

  /** The worker after handing `task` to the provider. */
  function AfterSend(env: Env, s: State, next: Mem, task: Task, sender: string): State
    requires s.worker.Up?
  {
    s.(sends := s.sends + [DeliveryOf(env, task, sender)], worker := Up(next, s.worker.n, Sent(task)))
  }

  lemma ReachSend(env: Env, s: State, next: Mem, task: Task, sender: string)
    requires s.worker.Up? && s.worker.phase.Idle? && NextPending(s.worker.m, next, Some(task))
    requires env.site.ix.SenderExternalId(task.channelId, task.principal, "bot") == Some(sender)
    ensures Reaches(env, s, AfterSend(env, s, next, task, sender))
  {
    hide NextPending;
    assert Step(env, s, Send(next, task, sender), AfterSend(env, s, next, task, sender));
    ReachStep(env, s, Send(next, task, sender), AfterSend(env, s, next, task, sender));
  }

  /** The result as entry `i`, seen from the transition system. */
  lemma ReachResult(env: Env, s: State, own0: set<nat>, log1: Log, own1: set<nat>, ms: nat, i: nat)
    requires s.worker.Up? && s.worker.phase.Sent?
    requires Increasing(log1) && s.log <= log1 && OwnBelow(s.log, own0) && Attributed(env, log1, own1)
    requires CopyAt(s.log, own0, log1, own1, ResultDraft(env, s.worker.phase.task, ms), i)
    ensures Reaches(env, s, s.(log := log1, worker := s.worker.(phase := ResultOut(s.worker.phase.task, log1[i].sn))))
  {
    hide CallerOk;
    var task := s.worker.phase.task;
    var l, w := CommitResult(log1[i].sn, ms), s.worker.(phase := ResultOut(task, log1[i].sn));
    LastOfPrefix(log1, i);
    assert log1[..i + 1] == log1[..i] + [log1[i]];
    assert log1[i] == Stamp(ResultDraft(env, task, ms), log1[i].sn);
    assert Step(env, s.(log := log1[..i]), l, s.(log := log1[..i + 1], worker := w));
    ReachCommit(env, s, own0, log1, own1, ResultDraft(env, task, ms), i, l, w);
  }

  lemma LastOfPrefix(log: Log, i: nat)
    requires Increasing(log) && i < |log|
    ensures LastSeq(log[..i]) < log[i].sn
  {}

  /** A task sent, published and marked is a run. */
  lemma OutboundDone(env: Env, s: State, next: Mem, task: Task, sender: string,
                     own0: set<nat>, log1: Log, own1: set<nat>, ms: nat, i: nat)
    requires s.worker.Up? && s.worker.phase.Idle? && NextPending(s.worker.m, next, Some(task))
    requires env.site.ix.SenderExternalId(task.channelId, task.principal, "bot") == Some(sender)
    requires Increasing(log1) && s.log <= log1 && OwnBelow(s.log, own0) && Attributed(env, log1, own1)
    requires CopyAt(s.log, own0, log1, own1, ResultDraft(env, task, ms), i)
    ensures Reaches(env, s, State(log1, s.sends + [DeliveryOf(env, task, sender)],
                                  Up(ResultMarked(next, task, env.site.ix.Session(task.channelId),
                                                  env.messageIdOf(task.requestId), log1[i].sn), s.worker.n, Idle)))
  {
    hide CallerOk, NextPending;
    var sent := AfterSend(env, s, next, task, sender);
    ReachSend(env, s, next, task, sender);
    ReachResult(env, sent, own0, log1, own1, ms, i);
    var out := sent.(log := log1, worker := sent.worker.(phase := ResultOut(task, log1[i].sn)));
    var done := out.(worker := Up(Settled(env, out.worker), s.worker.n, Idle));
    ReachTrans(env, s, sent, out);
    assert Step(env, out, MarkResult, done);
    ReachStep(env, out, MarkResult, done);
    ReachTrans(env, s, out, done);
  }

  /** A task that was sent, whose result may or may not have been committed, followed by the worker's end. */
  lemma OutboundLost(env: Env, s: State, next: Mem, task: Task, sender: string,
                     own0: set<nat>, log1: Log, own1: set<nat>, ms: nat)
    requires s.worker.Up? && s.worker.phase.Idle? && NextPending(s.worker.m, next, Some(task))
    requires env.site.ix.SenderExternalId(task.channelId, task.principal, "bot") == Some(sender)
    requires Increasing(log1) && s.log <= log1 && OwnBelow(s.log, own0) && Attributed(env, log1, own1)
    requires AtMostOneCopy(s.log, own0, log1, own1, ResultDraft(env, task, ms))
    ensures Reaches(env, s, State(log1, s.sends + [DeliveryOf(env, task, sender)], Down))
  {
    hide CallerOk, NextPending;
    var sent := AfterSend(env, s, next, task, sender);
    ReachSend(env, s, next, task, sender);
    if own1 == own0 {
      ReachQuiet(env, sent, log1, own0);
      ReachTrans(env, s, sent, sent.(log := log1));
      ReachCrash(env, s, sent.(log := log1));
    } else {
      var i :| CopyAt(s.log, own0, log1, own1, ResultDraft(env, task, ms), i);
      OutboundDone(env, s, next, task, sender, own0, log1, own1, ms, i);
      ReachCrash(env, s, State(log1, s.sends + [DeliveryOf(env, task, sender)],
                               Up(ResultMarked(next, task, env.site.ix.Session(task.channelId),
                                               env.messageIdOf(task.requestId), log1[i].sn), s.worker.n, Idle)));
    }
  }

  // ---- one provider event

  /** The worker may publish event `e` on channel `c` for `principal`. */
  ghost predicate MayRecord(env: Env, s: State, e: ProviderEvent, c: nat, principal: nat) {
    && s.worker.Up? && s.worker.phase.Idle?
    && env.site.ix.ChannelFor(e.provider, e.sessionId) == Some(c)
    && env.site.ix.PrincipalFor(c, e.provider, e.senderId, e.identityType) == Some(principal)
    && EventOk(env, s.sends, e)
    && EventKey(e, c) !in s.worker.m.inboundSeen && !s.worker.m.ChannelHasPending(c)
  }

  function RecordOf(env: Env, s: State, e: ProviderEvent, c: nat, principal: nat, ms: nat, omitted: bool): Draft
    requires s.worker.Up?
  {
    RecordDraft(env, e, c, principal, Get(s.worker.m.links, EventKey(e, c)), ms, omitted)
  }

  /** The record as entry `i`, seen from the transition system. */
  lemma ReachRecord(env: Env, s: State, e: ProviderEvent, c: nat, principal: nat, ms: nat, omitted: bool,
                    own0: set<nat>, log1: Log, own1: set<nat>, i: nat)
    requires MayRecord(env, s, e, c, principal) && RecordOf(env, s, e, c, principal, ms, omitted).payload.Encodes()
    requires Increasing(log1) && s.log <= log1 && OwnBelow(s.log, own0) && Attributed(env, log1, own1)
    requires CopyAt(s.log, own0, log1, own1, RecordOf(env, s, e, c, principal, ms, omitted), i)
    ensures Reaches(env, s, s.(log := log1, worker := s.worker.(phase := RecordOut(EventKey(e, c), c, e.eventMs))))
  {
    hide CallerOk, EventOk, Attributed, RecordDraft, Reaches;
    var d := RecordOf(env, s, e, c, principal, ms, omitted);
    var l := CommitRecord(e, c, principal, log1[i].sn, ms, omitted);
    var w := s.worker.(phase := RecordOut(EventKey(e, c), c, e.eventMs));
    LastOfPrefix(log1, i);
    assert log1[..i + 1] == log1[..i] + [log1[i]];
    assert log1[i] == Stamp(d, log1[i].sn);
    assert Step(env, s.(log := log1[..i]), l, s.(log := log1[..i + 1], worker := w));
    ReachCommit(env, s, own0, log1, own1, d, i, l, w);
  }

  /** An event published and marked is a run. */
  lemma InboundDone(env: Env, s: State, e: ProviderEvent, c: nat, principal: nat, ms: nat, omitted: bool,
                    own0: set<nat>, log1: Log, own1: set<nat>, i: nat)
    requires MayRecord(env, s, e, c, principal) && RecordOf(env, s, e, c, principal, ms, omitted).payload.Encodes()
    requires Increasing(log1) && s.log <= log1 && OwnBelow(s.log, own0) && Attributed(env, log1, own1)
    requires CopyAt(s.log, own0, log1, own1, RecordOf(env, s, e, c, principal, ms, omitted), i)
    ensures Reaches(env, s, s.(log := log1,
            worker := Up(RecordMarked(s.worker.m, EventKey(e, c), c, e.eventMs), s.worker.n, Idle)))
  {
    hide CallerOk, EventOk, Attributed, RecordDraft, CopyAt, Reaches;
    ReachRecord(env, s, e, c, principal, ms, omitted, own0, log1, own1, i);
    var out := s.(log := log1, worker := s.worker.(phase := RecordOut(EventKey(e, c), c, e.eventMs)));
    var done := out.(worker := Up(Settled(env, out.worker), s.worker.n, Idle));
    assert Step(env, out, MarkRecord, done);
    ReachStep(env, out, MarkRecord, done);
    ReachTrans(env, s, out, done);
  }

  /** An event whose record may or may not have been committed, followed by the worker's end. */
  lemma InboundLost(env: Env, s: State, e: ProviderEvent, c: nat, principal: nat, ms: nat, omitted: bool,
                    own0: set<nat>, log1: Log, own1: set<nat>)
    requires MayRecord(env, s, e, c, principal)
    requires own1 != own0 ==> RecordOf(env, s, e, c, principal, ms, omitted).payload.Encodes()
    requires Increasing(log1) && s.log <= log1 && OwnBelow(s.log, own0) && Attributed(env, log1, own1)
    requires AtMostOneCopy(s.log, own0, log1, own1, RecordOf(env, s, e, c, principal, ms, omitted))
    ensures Reaches(env, s, s.(log := log1, worker := Down))
  {
    hide CallerOk, RecordOf;
    if own1 == own0 {
      ReachQuiet(env, s, log1, own0);
      ReachCrash(env, s, s.(log := log1));
    } else {
      var i :| CopyAt(s.log, own0, log1, own1, RecordOf(env, s, e, c, principal, ms, omitted), i);
      InboundDone(env, s, e, c, principal, ms, omitted, own0, log1, own1, i);
      ReachCrash(env, s, s.(log := log1, worker := Up(RecordMarked(s.worker.m, EventKey(e, c), c, e.eventMs),
          s.worker.n, Idle)));
    }
  }

  // ---- nothing else in a good log looks like what the worker is about to write

  /** No caller writes it either. */
  lemma OnlyOwn(env: Env, log0: Log, own0: set<nat>, log1: Log, own1: set<nat>, d: Draft)
    requires Increasing(log1) && log0 <= log1 && OwnBelow(log0, own0) && Attributed(env, log1, own1)
    requires env.site.ix.Owns(d.channelId) && !d.payload.SendRequest?
    requires forall i :: 0 <= i < |log0| ==> !log0[i].Matches(d)
    ensures OthersDiffer(log1, own0, own1, d)
  {
    assert forall i :: 0 <= i < |log0| ==> log1[i] == log0[i];
    forall i | 0 <= i < |log1| && log1[i].Matches(d) ensures log1[i].sn in own1 && log1[i].sn !in own0 {
      assert !CallerOk(env, log1[..i], log1[i]);
      if log0 != [] { assert log1[|log0| - 1] == log0[|log0| - 1]; }
    }
  }

  /** The log does not hold a result of the chosen task. */
  lemma ResultIsNew(env: Env, s: State, next: Mem, task: Task, ms: nat, own0: set<nat>, log1: Log, own1: set<nat>)
    requires env.Sound() && Inv(env, s) && s.worker.Up? && s.worker.phase.Idle?
    requires NextPending(s.worker.m, next, Some(task))
    requires Increasing(log1) && s.log <= log1 && OwnBelow(s.log, own0) && Attributed(env, log1, own1)
    ensures OthersDiffer(log1, own0, own1, ResultDraft(env, task, ms))
  {
    hide Attributed, NextPending;
    var d := ResultDraft(env, task, ms);
    ChosenFacts(env, s, next, task);
    TaskFacts(env, s.log, task.requestId);
    FirstResultMeaning(env.site, s.log, task.requestId);
    forall i | 0 <= i < |s.log| ensures !s.log[i].Matches(d) {
      assert !IsResult(env.site, s.log[i], task.requestId);
    }
    OnlyOwn(env, s.log, own0, log1, own1, d);
  }

  /** Nor a record of an event that has not been seen. */
  lemma RecordIsNew(env: Env, s: State, e: ProviderEvent, c: nat, principal: nat, ms: nat, omitted: bool,
                    own0: set<nat>, log1: Log, own1: set<nat>)
    requires env.Sound() && Inv(env, s) && MayRecord(env, s, e, c, principal)
    requires Increasing(log1) && s.log <= log1 && OwnBelow(s.log, own0) && Attributed(env, log1, own1)
    ensures OthersDiffer(log1, own0, own1, RecordOf(env, s, e, c, principal, ms, omitted))
  {
    hide Attributed;
    var d := RecordOf(env, s, e, c, principal, ms, omitted);
    SessionOfChannel(env, e, c);
    SeenMeaning(env.site, s.log, EventKey(e, c));
    forall i | 0 <= i < |s.log| ensures !s.log[i].Matches(d) {
      assert !IsRecord(env.site, s.log[i], EventKey(e, c));
    }
    OnlyOwn(env, s.log, own0, log1, own1, d);
  }

  // ---- the same for an environment that may not keep its contract

  /** If the environment has been honest and things were good at `s`, then `t` was reached by a run. */
  ghost predicate Refines(env: Env, honest: bool, s: State, t: State) {
    honest && env.Sound() && Inv(env, s) ==> Reaches(env, s, t)
  }

  lemma RefinesTrans(env: Env, earlier: bool, later: bool, a: State, b: State, c: State)
    requires Refines(env, earlier, a, b) && Refines(env, later, b, c) && (later ==> earlier)
    ensures Refines(env, later, a, c)
  {
    hide Inv, Reaches;
    if later && env.Sound() && Inv(env, a) {
      ReachKeeps(env, a, b);
      ReachTrans(env, a, b, c);
    }
  }

  lemma RefinesLess(env: Env, more: bool, less: bool, s: State, t: State)
    requires Refines(env, more, s, t) && (less ==> more)
    ensures Refines(env, less, s, t)
  {}

  lemma Untrusted(env: Env, s: State, t: State)
    ensures Refines(env, false, s, t)
  {}

  /** What publishing keeps: the log grew, and what is not this client's is a caller's if all are honest. */
  ghost predicate Grew(env: Env, honest: bool, log0: Log, own0: set<nat>, log1: Log, own1: set<nat>) {
    Increasing(log1) && log0 <= log1 && OwnBelow(log0, own0) && (honest ==> Attributed(env, log1, own1))
  }

  /** What `Publish` promises about a seq it returns. */
  ghost predicate Acknowledges(log: Log, own0: set<nat>, own1: set<nat>, d: Draft, sn: nat) {
    OthersDiffer(log, own0, own1, d) ==> own1 == own0 + {sn} && sn !in own0
  }

  ghost predicate Chose(env: Env, s: State, next: Mem, task: Task, sender: string) {
    && s.worker.Up? && s.worker.phase.Idle? && NextPending(s.worker.m, next, Some(task))
    && env.site.ix.SenderExternalId(task.channelId, task.principal, "bot") == Some(sender)
  }

  /** The worker once the result `sn` of a task is marked. */
  function AfterResult(env: Env, s: State, log1: Log, next: Mem, task: Task, sender: string, sn: nat): State
    requires s.worker.Up?
  {
    State(log1, s.sends + [DeliveryOf(env, task, sender)],
          Up(ResultMarked(next, task, env.site.ix.Session(task.channelId), env.messageIdOf(task.requestId), sn),
              s.worker.n, Idle))
  }

  lemma ResultPublished(env: Env, honest: bool, s: State, next: Mem, task: Task, sender: string,
                        own0: set<nat>, log1: Log, own1: set<nat>, ms: nat, sn: nat)
    requires Chose(env, s, next, task, sender) && Grew(env, honest, s.log, own0, log1, own1)
    requires AtMostOneCopy(s.log, own0, log1, own1, ResultDraft(env, task, ms))
    requires Acknowledges(log1, own0, own1, ResultDraft(env, task, ms), sn)
    ensures Refines(env, honest, s, AfterResult(env, s, log1, next, task, sender, sn))
  {
    hide Inv, Reaches, Attributed, OthersDiffer, NextPending, ResultDraft, ResultMarked, DeliveryOf;
    if honest && env.Sound() && Inv(env, s) {
      var d := ResultDraft(env, task, ms);
      ResultIsNew(env, s, next, task, ms, own0, log1, own1);
      var i :| CopyAt(s.log, own0, log1, own1, d, i);
      assert log1[i].sn == sn;
      OutboundDone(env, s, next, task, sender, own0, log1, own1, ms, i);
    }
  }

  lemma ResultUnpublished(env: Env, honest: bool, s: State, next: Mem, task: Task, sender: string,
                          own0: set<nat>, log1: Log, own1: set<nat>, ms: nat)
    requires Chose(env, s, next, task, sender) && Grew(env, honest, s.log, own0, log1, own1)
    requires AtMostOneCopy(s.log, own0, log1, own1, ResultDraft(env, task, ms))
    ensures Refines(env, honest, s, State(log1, s.sends + [DeliveryOf(env, task, sender)], Down))
  {
    hide Inv, Reaches, Attributed, NextPending, ResultDraft, DeliveryOf;
    if honest {
      OutboundLost(env, s, next, task, sender, own0, log1, own1, ms);
    }
  }

  /** Handed to the provider, and then the worker died. */
  lemma OnlySent(env: Env, honest: bool, s: State, next: Mem, task: Task, sender: string)
    requires Chose(env, s, next, task, sender)
    ensures Refines(env, honest, s, State(s.log, s.sends + [DeliveryOf(env, task, sender)], Down))
  {
    ReachSend(env, s, next, task, sender);
    ReachCrash(env, s, AfterSend(env, s, next, task, sender));
  }

  /** The provider may or may not have taken the message, and then the worker died. */
  lemma DiedSending(env: Env, honest: bool, s: State, next: Mem, task: Task, sender: string, sends: seq<Delivery>)
    requires Chose(env, s, next, task, sender)
    requires sends == s.sends || sends == s.sends + [DeliveryOf(env, task, sender)]
    ensures Refines(env, honest, s, State(s.log, sends, Down))
  {
    hide Refines, Chose;
    OnlySent(env, honest, s, next, task, sender);
    JustDied(env, honest, s);
  }

  /** Sending and marking an outbound request leaves the queue consistent and nothing blocked. */
  lemma Settles(m: Mem, next: Mem, task: Task, session: (string, string), messageId: string, sn: nat)
    requires m.Partition() && m.blocked == map[] && NextPending(m, next, Some(task))
    ensures var marked := ResultMarked(next, task, session, messageId, sn);
            marked.Partition() && marked.blocked == map[] && marked.requests == m.requests - {task.requestId}
            && marked.inboundSeen == m.inboundSeen
  {
    IdleChoosesOldest(m, next, Some(task));
    LiveIsCanonical(m, task);
    NextKeeps(m, next, Some(task));
    MarkKeeps(next, task, session, messageId, sn);
    TickUnblocks(m, next, task, session, messageId, sn);
  }

  lemma Stays(env: Env, honest: bool, s: State)
    ensures Refines(env, honest, s, s)
  {
    ReachRefl(env, s);
  }

  lemma GrewLess(env: Env, more: bool, less: bool, log0: Log, own0: set<nat>, log1: Log, own1: set<nat>)
    requires Grew(env, more, log0, own0, log1, own1) && (less ==> more)
    ensures Grew(env, less, log0, own0, log1, own1)
  {}

  lemma JustDied(env: Env, honest: bool, s: State)
    ensures Refines(env, honest, s, s.(worker := Down))
  {
    ReachRefl(env, s);
    ReachCrash(env, s, s);
  }

  lemma NothingToSend(env: Env, honest: bool, s: State, next: Mem)
    requires s.worker.Up? && s.worker.phase.Idle? && NextPending(s.worker.m, next, None)
    ensures Refines(env, honest, s, s.(worker := Up(next, s.worker.n, Idle)))
  {
    hide NextPending;
    var t := s.(worker := Up(next, s.worker.n, Idle));
    assert Step(env, s, NoTask(next), t);
    ReachStep(env, s, NoTask(next), t);
  }

  lemma CallersOnly(env: Env, honest: bool, s: State, own0: set<nat>, log1: Log)
    requires Grew(env, honest, s.log, own0, log1, own0)
    ensures Refines(env, honest, s, s.(log := log1))
  {
    hide Attributed, Reaches;
    if honest {
      ReachQuiet(env, s, log1, own0);
    }
  }

  /** The worker once the record of an event is marked. */
  function AfterRecord(s: State, log1: Log, e: ProviderEvent, c: nat): State
    requires s.worker.Up?
  {
    s.(log := log1, worker := Up(RecordMarked(s.worker.m, EventKey(e, c), c, e.eventMs), s.worker.n, Idle))
  }

  lemma RecordPublished(env: Env, honest: bool, s: State, e: ProviderEvent, c: nat, principal: nat, ms: nat, omitted: bool,
                        own0: set<nat>, log1: Log, own1: set<nat>, sn: nat)
    requires honest ==> MayRecord(env, s, e, c, principal)
    requires s.worker.Up? && RecordOf(env, s, e, c, principal, ms, omitted).payload.Encodes()
    requires Grew(env, honest, s.log, own0, log1, own1)
    requires AtMostOneCopy(s.log, own0, log1, own1, RecordOf(env, s, e, c, principal, ms, omitted))
    requires Acknowledges(log1, own0, own1, RecordOf(env, s, e, c, principal, ms, omitted), sn)
    ensures Refines(env, honest, s, AfterRecord(s, log1, e, c))
  {
    hide Inv, Reaches, Attributed, OthersDiffer, MayRecord, RecordOf;
    if honest && env.Sound() && Inv(env, s) {
      RecordIsNew(env, s, e, c, principal, ms, omitted, own0, log1, own1);
      var i :| CopyAt(s.log, own0, log1, own1, RecordOf(env, s, e, c, principal, ms, omitted), i);
      InboundDone(env, s, e, c, principal, ms, omitted, own0, log1, own1, i);
    }
  }

  lemma RecordUnpublished(env: Env, honest: bool, s: State, e: ProviderEvent, c: nat, principal: nat, ms: nat,
                          omitted: bool,
                          own0: set<nat>, log1: Log, own1: set<nat>)
    requires s.worker.Up? && (honest ==> MayRecord(env, s, e, c, principal))
    requires own1 != own0 ==> RecordOf(env, s, e, c, principal, ms, omitted).payload.Encodes()
    requires Grew(env, honest, s.log, own0, log1, own1)
    requires AtMostOneCopy(s.log, own0, log1, own1, RecordOf(env, s, e, c, principal, ms, omitted))
    ensures Refines(env, honest, s, s.(log := log1, worker := Down))
  {
    hide Inv, Reaches, Attributed, MayRecord, RecordOf;
    if honest {
      InboundLost(env, s, e, c, principal, ms, omitted, own0, log1, own1);
    }
  }
}
