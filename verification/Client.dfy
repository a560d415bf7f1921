/**
 Publishing over an RPC whose outcome may be unknown: the log server as an
 adversary, `_publish` with its reconciliation, and the retry loop around it.
 */
module Client {
  import opened Common
  import opened Wire
  import opened System

  datatype Code =
    | Unauthenticated | PermissionDenied | NotFound | InvalidArgument | ResourceExhausted
    | Unavailable | DeadlineExceeded | OtherStatus | NotRpc

  /** `_GUARANTEED_NOT_COMMITTED`. */
  predicate NeverCommits(code: Code) {
    code in {Unauthenticated, PermissionDenied, NotFound, InvalidArgument, ResourceExhausted}
  }

  predicate Transient(code: Code) { code in {Unavailable, DeadlineExceeded} }

  /** The nine codes by name. */
  lemma CodesOf(code: Code)
    ensures NeverCommits(code)
            <==> code in {Unauthenticated, PermissionDenied, NotFound, InvalidArgument, ResourceExhausted}
    ensures !NeverCommits(code) <==> code in {Unavailable, DeadlineExceeded, OtherStatus, NotRpc}
    ensures Transient(code) <==> code in {Unavailable, DeadlineExceeded}
  {}

  /** Something another writer appends, `gap` seqs further than it had to be. */
  datatype Write = Write(gap: nat, draft: Draft)

  /** What the environment decides at one call: who writes before it takes effect, whether it fails and
      how, whether a failing publish was committed, how far a fetch gets, whether a status goes backwards,
      the clock, and whether the worker has been told to stop. */
  datatype Choice = Choice(writes: seq<Write>, fail: Option<Code>, commit: bool, advance: nat, stale: Option<nat>,
                           now: nat, stop: bool)

  /** Once the script is over everything fails and the worker is told to stop. */
  const THE_END := Choice([], Some(NotRpc), false, 0, None, 0, true)

  function Head(script: seq<Choice>): Choice { if script == [] then THE_END else script[0] }

  datatype Page = Page(messages: Log, nextSeq: nat, lastSeq: nat)

  /** One call as the server received and answered it; `lastSeq` is the greatest seq when a status was answered. */
  datatype Call =
    | StatusCall(status: Result<nat, Code>, lastSeq: nat)
    | FetchCall(fromSeq: nat, page: Result<Page, Code>)
    | PublishCall(draft: Draft, published: Result<nat, Code>)
  {
    function Failure(): Option<Code> {
      match this
      case StatusCall(Err(code), _) => Some(code)
      case FetchCall(_, Err(code)) => Some(code)
      case PublishCall(_, Err(code)) => Some(code)
      case _ => None
    }

    /** A status below what the log held. */
    predicate Stale() { StatusCall? && status.Ok? && status.value < lastSeq }
  }

  /** Everything in the log is one client's or keeps to the callers' contract. */
  ghost predicate Attributed(env: Env, log: Log, own: set<nat>) {
    forall i :: 0 <= i < |log| ==> log[i].sn in own || CallerOk(env, log[..i], log[i])
  }

  ghost predicate OwnBelow(log: Log, own: set<nat>) { forall x :: x in own ==> x <= LastSeq(log) }

  /** The client's entries among those added, all past the old end. */
  ghost predicate OwnAdded(log0: Log, own0: set<nat>, own1: set<nat>) {
    own0 <= own1 && forall x :: x in own1 && x !in own0 ==> LastSeq(log0) < x
  }

  /** If everything is attributed now, everything was before. */
  lemma AttributedBefore(env: Env, log0: Log, own0: set<nat>, log1: Log, own1: set<nat>)
    requires Increasing(log1) && log0 <= log1 && OwnAdded(log0, own0, own1) && Attributed(env, log1, own1)
    ensures Attributed(env, log0, own0)
  {
    hide CallerOk;
    forall i | 0 <= i < |log0| ensures log0[i].sn in own0 || CallerOk(env, log0[..i], log0[i]) {
      assert log1[i] == log0[i] && log1[..i] == log0[..i] && log1[|log0| - 1] == log0[|log0| - 1];
    }
  }

  /** The log server together with everybody else who writes to it. */
  class OpenEvent {
    ghost const env: Env
    var log: Log
    var script: seq<Choice>
    /** The last status reported. */
    var reported: nat
    /** The worker has been told to stop. */
    var stopSet: bool
    /** Seqs of the entries this client's calls committed. */
    ghost var own: set<nat>
    /** How many publishes this client issued. */
    ghost var issued: nat
    /** Every call it received, with the answer. */
    ghost var calls: seq<Call>

    constructor (ghost env: Env, script: seq<Choice>)
      ensures Valid() && this.env == env && log == [] && own == {} && issued == 0 && this.script == script && !stopSet
      ensures calls == []
    {
      this.env := env;
      log, this.script, reported, stopSet := [], script, 0, false;
      own, issued, calls := {}, 0, [];
    }

    ghost predicate Valid()
      reads `log, `own, `reported
    {
      Increasing(log) && OwnBelow(log, own) && reported <= LastSeq(log)
    }

    /** The other writers have kept to `CallerOk` so far. */
    ghost predicate Honest()
      reads `log, `own
    {
      Attributed(env, log, own)
    }

    /** The log and the calls only grow, the script only shrinks, and honesty once lost stays lost. */
    twostate predicate Onward()
      reads `log, `own, `script, `calls
    {
      old(log) <= log && |script| <= |old(script)| && (Honest() ==> old(Honest())) && old(calls) <= calls
    }

    method Decide() returns (c: Choice)
      modifies `script
      ensures |script| <= |old(script)| && (old(script) != [] ==> |script| < |old(script)|)
      ensures c == Head(old(script))
    {
      c := Head(script);
      if script != [] {
        script := script[1..];
      }
    }

    method Append(w: Write) returns (sn: nat)
      requires Valid()
      modifies `log
      ensures Valid() && sn > LastSeq(old(log)) && log == old(log) + [Stamp(w.draft, sn)]
    {
      sn := LastSeq(log) + 1 + w.gap;
      log := log + [Stamp(w.draft, sn)];
    }

    method Interfere(writes: seq<Write>)
      requires Valid()
      modifies `log
      ensures Valid() && old(log) <= log
    {
      for i := 0 to |writes|
        invariant Valid() && old(log) <= log
      {
        var _ := Append(writes[i]);
      }
    }

    /** What others wrote was a caller's only if everything before was. */
    twostate lemma StillHonest()
      requires Increasing(log) && old(log) <= log && OwnAdded(old(log), old(own), own)
      ensures Honest() ==> old(Honest())
    {
      hide Attributed;
      if Honest() {
        AttributedBefore(env, old(log), old(own), log, own);
      }
    }

    /** `get_status`: the greatest seq, or a failure, or a value below what it said before. */
    method GetStatus() returns (r: Result<nat, Code>)
      requires Valid()
      modifies `log, `script, `reported, `calls
      ensures Valid() && Onward() && calls == old(calls) + [StatusCall(r, LastSeq(log))]
      ensures r.Ok? ==> reported == r.value && (r.value == LastSeq(log) || r.value < old(reported))
      ensures r.Err? ==> Head(old(script)).fail == Some(r.error)
      ensures r.Ok? ==> Head(old(script)).fail == None
    {
      hide Attributed, Increasing;
      var c := Decide();
      Interfere(c.writes);
      StillHonest();
      if c.fail.Some? {
        r := Err(c.fail.value);
        calls := calls + [StatusCall(r, LastSeq(log))];
        return;
      }
      reported := if c.stale.Some? && c.stale.value < reported then c.stale.value else LastSeq(log);
      r := Ok(reported);
      calls := calls + [StatusCall(r, LastSeq(log))];
    }

    /** This client's entry goes to the end of the log. */
    method Commit(d: Draft) returns (sn: nat)
      requires Valid()
      modifies `log, `own
      ensures Valid() && sn == LastSeq(log) && sn > LastSeq(old(log)) && own == old(own) + {sn}
              && log == old(log) + [Stamp(d, sn)]
    {
      sn := LastSeq(log) + 1;
      own := own + {sn};
      log := log + [Stamp(d, sn)];
    }

    /** `publish_auto_seq`: it may commit and still fail, but not with a code that promises otherwise. */
    method PublishAutoSeq(d: Draft) returns (r: Result<nat, Code>)
      requires Valid()
      modifies `log, `script, `own, `issued, `calls
      ensures Valid() && Onward() && issued == old(issued) + 1 && calls == old(calls) + [PublishCall(d, r)]
      ensures own == old(own) || (LastSeq(log) !in old(own) && own == old(own) + {LastSeq(log)}
                                  && |old(log)| < |log| && log[|log| - 1].Matches(d))
      ensures r.Ok? ==> own != old(own) && r.value == LastSeq(log) && Head(old(script)).fail == None
      ensures r.Err? ==> Head(old(script)).fail == Some(r.error)
      ensures r.Err? ==> (own != old(own) <==> Head(old(script)).commit
                                               && r.error in {Unavailable, DeadlineExceeded, OtherStatus, NotRpc})
    {
      hide Attributed, Increasing;
      var c := Decide();
      issued := issued + 1;
      Interfere(c.writes);
      OwnBound();
      CodesOf(if c.fail.Some? then c.fail.value else NotRpc);
      if c.fail.None? || (c.commit && !NeverCommits(c.fail.value)) {
        ghost var before := log;
        var sn := Commit(d);
        LastGrows(old(log), before);
        StillHonest();
        if c.fail.None? {
          r := Ok(sn);
          calls := calls + [PublishCall(d, r)];
          return;
        }
      }
      StillHonest();
      r := Err(c.fail.value);
      calls := calls + [PublishCall(d, r)];
    }

    /** No seq of this client's lies past the end. */
    lemma OwnBound()
      requires Valid()
      ensures LastSeq(log) + 1 !in own
    {}

    /** `fetch`: the entries of the channels from `fromSeq` up to a next seq of the server's choosing. */
    method Fetch(fromSeq: nat, channels: set<nat>) returns (r: Result<Page, Code>)
      requires Valid()
      modifies `log, `script, `calls
      ensures Valid() && Onward() && (old(script) != [] ==> |script| < |old(script)|)
      ensures calls == old(calls) + [FetchCall(fromSeq, r)]
      ensures r.Err? ==> Head(old(script)).fail == Some(r.error)
      ensures r.Ok? ==> Head(old(script)).fail == None && r.value.lastSeq == LastSeq(log) && fromSeq <= r.value.nextSeq
      ensures r.Ok? ==> r.value.nextSeq <= LastSeq(log) + 1 || r.value.nextSeq == fromSeq
      ensures r.Ok? ==> r.value.messages == Between(log, fromSeq, r.value.nextSeq, channels)
    {
      hide Attributed, Between;
      var c := Decide();
      Interfere(c.writes);
      StillHonest();
      if c.fail.Some? {
        r := Err(c.fail.value);
      } else {
        var last := LastSeq(log);
        var next := if last < fromSeq then fromSeq else Min(fromSeq + c.advance, last + 1);
        r := Ok(Page(Between(log, fromSeq, next, channels), next, last));
      }
      calls := calls + [FetchCall(fromSeq, r)];
    }

    /** A new worker has not been told to stop. */
    method NewWorker()
      modifies `stopSet
      ensures !stopSet
    {
      stopSet := false;
    }

    /** The stop flag, which stays set, and the clock. */
    method Wait() returns (stopped: bool, now: nat)
      modifies `script, `stopSet
      ensures |script| <= |old(script)| && (old(script) != [] ==> |script| < |old(script)|)
      ensures stopped == stopSet == (old(stopSet) || Head(old(script)).stop)
    {
      var c := Decide();
      stopSet := stopSet || c.stop;
      return stopSet, c.now;
    }
  }

  lemma LastGrows(before: Log, log: Log)
    requires Increasing(log) && before <= log
    ensures LastSeq(before) <= LastSeq(log)
  {
    if before != [] {
      assert log[|before| - 1] == before[|before| - 1];
    }
  }

  /** The entries of some channels with `lo <= seq < hi`, in order. */
  function Between(log: Log, lo: nat, hi: nat, channels: set<nat>): Log {
    var i, j := Below(log, lo), Below(log, hi);
    if i <= j then Select(log[i..j], channels) else []
  }

  datatype PublishError =
    | PublishFailed(cause: Code, retrySafe: bool, outcomeUnknown: bool)
    | Malformed
  {
    /** `_rpc_status_code` over the chain of causes. */
    function Status(): Code { if PublishFailed? then cause else NotRpc }
  }

  /** Some entry with a seq above `after` matches. */
  ghost predicate Published(log: Log, after: nat, d: Draft) {
    exists i :: 0 <= i < |log| && after < log[i].sn && log[i].Matches(d)
  }

  /** The entry with seq `s` matches. */
  ghost predicate MatchesAt(log: Log, s: nat, d: Draft) {
    exists i :: 0 <= i < |log| && log[i].sn == s && log[i].Matches(d)
  }

  lemma BetweenMembers(log: Log, lo: nat, hi: nat, channels: set<nat>)
    requires Increasing(log)
    ensures forall m :: m in Between(log, lo, hi, channels)
                        <==> m in log && lo <= m.sn < hi && m.channelId in channels
  {
    BelowSplits(log, lo);
    BelowSplits(log, hi);
    var a, b := Below(log, lo), Below(log, hi);
    if a <= b {
      SelectMembers(log[a..b], channels);
      SliceMembers(log, a, b, lo, hi);
    } else {
      forall m | m in log
        ensures !(lo <= m.sn < hi)
      {
        var i :| 0 <= i < |log| && log[i] == m;
        assert i < a || b <= i;
      }
    }
  }

  lemma SliceMembers(log: Log, a: nat, b: nat, lo: nat, hi: nat)
    requires a <= b <= |log|
    requires forall i :: 0 <= i < |log| ==> (log[i].sn < lo <==> i < a) && (log[i].sn < hi <==> i < b)
    ensures forall m :: m in log[a..b] <==> m in log && lo <= m.sn < hi
  {
    forall m | m in log && lo <= m.sn < hi
      ensures m in log[a..b]
    {
      var i :| 0 <= i < |log| && log[i] == m;
      assert log[a..b][i - a] == m;
    }
  }

  /** The window is in order. */
  lemma BetweenIncreases(log: Log, lo: nat, hi: nat, channels: set<nat>)
    requires Increasing(log)
    ensures Increasing(Between(log, lo, hi, channels))
  {
    var a, b := Below(log, lo), Below(log, hi);
    if a <= b {
      var slice := log[a..b];
      assert forall i :: 0 <= i < |slice| ==> slice[i] == log[a + i];
      SelectIncreases(slice, channels);
    }
  }

  /** What one page of a reconciliation shows. */
  datatype PageOutcome = Unknown | FoundAt(sn: nat) | ReadUpTo(nextSeq: nat)

  class ImProtocolClient {
    const server: OpenEvent

    constructor (server: OpenEvent)
      ensures this.server == server
    {
      this.server := server;
    }

    /** One turn of the reconciliation loop: a page further, a match, or an unknown outcome. */
    method ReconcilePage(d: Draft, fromSeq: nat, reconcileMax: nat, ghost known: Log) returns (r: PageOutcome)
      requires server.Valid() && known <= server.log && reconcileMax == LastSeq(known)
      modifies server`log, server`script, server`calls
      ensures server.Valid() && server.Onward() && PageConcludes(old(server.calls), server.calls, fromSeq, r)
      ensures r.ReadUpTo? ==> fromSeq < r.nextSeq
                              && forall i :: 0 <= i < |known| && fromSeq <= known[i].sn < r.nextSeq ==> !known[i].Matches(d)
      ensures r.FoundAt? ==> fromSeq <= r.sn <= reconcileMax && MatchesAt(server.log, r.sn, d)
    {
      hide Between, Below, Select, Attributed;
      var page := server.Fetch(fromSeq, {d.channelId});
      if page.Err? {
        return Unknown;
      }
      var found := FirstMatch(page.value.messages, d, reconcileMax);
      BetweenMembers(server.log, fromSeq, page.value.nextSeq, {d.channelId});
      if found.Some? {
        assert page.value.messages[found.value] in server.log;
        return FoundAt(page.value.messages[found.value].sn);
      }
      if page.value.nextSeq <= fromSeq {
        return Unknown;
      }
      NoneUpTo(known, server.log, fromSeq, page.value.nextSeq, reconcileMax, d);
      return ReadUpTo(page.value.nextSeq);
    }

    /**
     `_reconcile_uncertain_publish`: the seq of a matching entry, or proof that there was none when it
     was called, or an unknown outcome, which only a failed, a stale or a stuck answer leads to.
     */
    method ReconcileUncertainPublish(d: Draft, pre: nat, cause: Code) returns (r: Result<nat, PublishError>)
      requires server.Valid() && server.reported == pre
      modifies server`log, server`script, server`reported, server`calls
      ensures server.Valid() && server.Onward()
      ensures Reconciles(pre, cause, server.calls[|old(server.calls)|..], r)
      ensures r.Err? ==> r.error.PublishFailed? && r.error.cause == cause && r.error.retrySafe == !r.error.outcomeUnknown
      ensures r.Ok? ==> pre < r.value && MatchesAt(server.log, r.value, d)
      ensures r.Err? && r.error.retrySafe ==> !Published(old(server.log), pre, d)
    {
      hide Between, Below, Select, Attributed, Reconciles, FetchesOn, ReadTo, Published;
      ghost var n := |server.calls|;
      var unknown := PublishFailed(cause, false, true);
      var status := server.GetStatus();
      AfterStatus(pre, cause, server.calls, n);
      if status.Err? {
        return Err(unknown);
      }
      var reconcileMax := status.value;
      if reconcileMax < pre {
        return Err(unknown);
      }
      ghost var known := server.log;
      assert reconcileMax == LastSeq(known);
      var fromSeq := pre + 1;
      while fromSeq <= reconcileMax
        invariant server.Valid() && known <= server.log && server.Onward() && n < |server.calls|
        invariant FetchesOn(pre, reconcileMax, server.calls[n..]) && fromSeq == ReadTo(pre, server.calls[n..])
        invariant pre < fromSeq
        invariant forall i :: 0 <= i < |known| && pre < known[i].sn < fromSeq ==> !known[i].Matches(d)
        decreases reconcileMax + 1 - fromSeq
      {
        ghost var before := server.calls;
        var step := ReconcilePage(d, fromSeq, reconcileMax, known);
        OnePageMore(pre, reconcileMax, cause, before, server.calls, n, step);
        match step {
          case Unknown => return Err(unknown);
          case FoundAt(sn) => return Ok(sn);
          case ReadUpTo(next) => fromSeq := next;
        }
      }
      AllRead(pre, reconcileMax, cause, server.calls[n..]);
      NotPublished(known, pre, d, old(server.log));
      return Err(PublishFailed(cause, true, false));
    }

    /**
     `_publish`, against any script: at most one copy is committed; a returned seq names a matching
     entry; an error that is safe to retry, or that promises so, means nothing was committed.
     */
    method Publish(d: Draft) returns (r: Result<nat, PublishError>)
      requires server.Valid()
      modifies server
      ensures server.Valid() && server.Onward() && server.issued <= old(server.issued) + 1
              && server.stopSet == old(server.stopSet)
      ensures AtMostOneCopy(old(server.log), old(server.own), server.log, server.own, d)
      ensures r.Ok? ==> MatchesAt(server.log, r.value, d)
      ensures r.Ok? && OthersDiffer(server.log, old(server.own), server.own, d)
              ==> server.own == old(server.own) + {r.value} && r.value !in old(server.own)
      ensures r.Err? && (r.error.Malformed? || !r.error.outcomeUnknown) ==> server.own == old(server.own)
      ensures r.Err? && r.error.PublishFailed? && r.error.outcomeUnknown ==>
                !r.error.retrySafe && r.error.cause in {Unavailable, DeadlineExceeded, OtherStatus, NotRpc}
      ensures r.Ok? || server.own != old(server.own) ==> d.payload.Encodes()
      ensures Concludes(d, server.calls[|old(server.calls)|..], r)
      ensures r.Err? && r.error.Status() == ResourceExhausted
              ==> server.issued == old(server.issued) + if Head(old(server.script)).fail.None? then 1 else 0
      ensures Encodable(d) && Head(old(server.script)).fail.Some?
              ==> r == Err(PublishFailed(Head(old(server.script)).fail.value, true, false))
                  && server.issued == old(server.issued) && |server.calls| == |old(server.calls)| + 1
    {
      hide Attributed, Message.Matches, Payload.Encodes, OthersDiffer, Published, NeverCommits, Concludes, Reconciles;
      ghost var n := |server.calls|;
      if !Encodable(d) {
        NothingAsked(d, server.calls, n);
        return Err(Malformed);
      }
      var status := server.GetStatus();
      if status.Err? {
        StatusFailed(d, server.calls, n);
        return Err(PublishFailed(status.error, true, false));
      }
      ghost var log0, own0 := old(server.log), server.own;
      var sent := server.PublishAutoSeq(d);
      ghost var middle := server.log;
      assert server.own != own0 ==> CopyAt(log0, own0, middle, server.own, d, |middle| - 1);
      if sent.Ok? {
        assert middle[|middle| - 1].sn == sent.value;
        Issued(d, server.calls, n, Ok(sent.value));
        return Ok(sent.value);
      }
      CodesOf(sent.error);
      if NeverCommits(sent.error) {
        Issued(d, server.calls, n, Err(PublishFailed(sent.error, false, false)));
        return Err(PublishFailed(sent.error, false, false));
      }
      r := ReconcileUncertainPublish(d, status.value, sent.error);
      Issued(d, server.calls, n, r);
      if server.own != own0 {
        CopyStays(log0, own0, middle, server.log, server.own, d, status.value);
      }
      if r.Ok? {
        FoundIsOurs(log0, own0, server.log, server.own, d, r.value);
      }
    }
  }

  /** The encoders and `_publish` accept the draft. */
  predicate Encodable(d: Draft) { d.payload.Encodes() && d.channelId != 0 && d.principal != 0 }

  // ---- what the answers decide

  /** A fetch, with what its page shows. */
  ghost predicate PageConcludes(before: seq<Call>, after: seq<Call>, fromSeq: nat, r: PageOutcome) {
    && |after| == |before| + 1 && before <= after && after[|before|].FetchCall? && after[|before|].fromSeq == fromSeq
    && match r
       case Unknown => Undecided(0, after[|before|])
       case FoundAt(_) => after[|before|].Failure() == None
       case ReadUpTo(next) => !Undecided(0, after[|before|]) && after[|before|].page.value.nextSeq == next
  }

  /** An answer that leaves the outcome of a publish open: a failure, a status below `pre`, or a fetch that does not
      move on. */
  predicate Undecided(pre: nat, c: Call) {
    match c
    case StatusCall(Ok(max), _) => max < pre
    case FetchCall(fromSeq, Ok(page)) => page.nextSeq <= fromSeq
    case _ => true
  }

  /** How far a reconciliation has read. */
  function ReadTo(pre: nat, a: seq<Call>): nat {
    if |a| > 1 && a[|a| - 1].FetchCall? && a[|a| - 1].page.Ok? then a[|a| - 1].page.value.nextSeq else pre + 1
  }

  /** A status and then fetches, each from where the one before ended and none past the status, all decided. */
  ghost predicate FetchesOn(pre: nat, max: nat, a: seq<Call>) {
    && a != [] && a[0].StatusCall? && a[0].status == Ok(max) && pre <= max
    && forall k :: 1 <= k < |a| ==> FetchedOn(pre, max, a, k) && !Undecided(pre, a[k])
  }

  ghost predicate FetchedOn(pre: nat, max: nat, a: seq<Call>, k: nat)
    requires k < |a|
  {
    a[k].FetchCall? && a[k].fromSeq == ReadTo(pre, a[..k]) <= max
  }

  /** A reconciliation by its answers: it is unknown exactly if the last of them decides nothing, a match comes with
      the last page, and there was none only if everything up to the status has been read. */
  ghost predicate Reconciles(pre: nat, cause: Code, a: seq<Call>, r: Result<nat, PublishError>) {
    && a != [] && a[0].StatusCall?
    && if Undecided(pre, a[0]) then |a| == 1 && r == Err(PublishFailed(cause, false, true))
       else ReadsOn(pre, a[0].status.value, a) && match r
         case Ok(_) => |a| > 1 && a[|a| - 1].Failure() == None
         case Err(e) =>
           && e == PublishFailed(cause, !Undecided(pre, a[|a| - 1]), Undecided(pre, a[|a| - 1]))
           && (e.retrySafe ==> a[0].status.value < ReadTo(pre, a))
  }

  /** All but the last answer were decided. */
  ghost predicate ReadsOn(pre: nat, max: nat, a: seq<Call>) {
    |a| == 1 || (|a| > 1 && FetchesOn(pre, max, a[..|a| - 1]) && FetchedOn(pre, max, a, |a| - 1))
  }

  lemma AfterStatus(pre: nat, cause: Code, calls: seq<Call>, n: nat)
    requires |calls| == n + 1 && calls[n].StatusCall?
    ensures Undecided(pre, calls[n]) ==> Reconciles(pre, cause, calls[n..], Err(PublishFailed(cause, false, true)))
    ensures calls[n].status.Ok? && pre <= calls[n].status.value ==> FetchesOn(pre, calls[n].status.value, calls[n..])
    ensures ReadTo(pre, calls[n..]) == pre + 1
  {}

  lemma OnePageMore(pre: nat, max: nat, cause: Code, before: seq<Call>, after: seq<Call>, n: nat, r: PageOutcome)
    requires n < |before| && FetchesOn(pre, max, before[n..]) && ReadTo(pre, before[n..]) <= max
    requires PageConcludes(before, after, ReadTo(pre, before[n..]), r)
    ensures n < |after|
    ensures r.Unknown? ==> Reconciles(pre, cause, after[n..], Err(PublishFailed(cause, false, true)))
    ensures r.FoundAt? ==> Reconciles(pre, cause, after[n..], Ok(r.sn))
    ensures r.ReadUpTo? ==> FetchesOn(pre, max, after[n..]) && ReadTo(pre, after[n..]) == r.nextSeq
  {
    var a, b := before[n..], after[n..];
    assert b[..|b| - 1] == a && b[|b| - 1] == after[|before|];
    assert forall k :: 0 <= k < |a| ==> b[k] == a[k] && b[..k] == a[..k];
  }

  lemma AllRead(pre: nat, max: nat, cause: Code, a: seq<Call>)
    requires FetchesOn(pre, max, a) && max < ReadTo(pre, a)
    ensures Reconciles(pre, cause, a, Err(PublishFailed(cause, true, false)))
  {
    var most := a[..|a| - 1];
    assert forall k :: 0 <= k < |most| ==> most[k] == a[k] && most[..k] == a[..k];
  }

  lemma NotPublished(known: Log, pre: nat, d: Draft, log: Log)
    requires log <= known && forall i :: 0 <= i < |known| && pre < known[i].sn <= LastSeq(known) ==> !known[i].Matches(d)
    requires Increasing(known)
    ensures !Published(log, pre, d)
  {}

  /** What `_publish` makes of the answers it gets: a status, the publish, and a reconciliation. */
  ghost predicate Concludes(d: Draft, a: seq<Call>, r: Result<nat, PublishError>) {
    if !Encodable(d) then a == [] && r == Err(Malformed)
    else
      && a != [] && a[0].StatusCall?
      && match a[0].status
         case Err(code) => |a| == 1 && r == Err(PublishFailed(code, true, false))
         case Ok(pre) => |a| > 1 && a[1].PublishCall? && a[1].draft == d && Resolves(pre, a[1].published, a[2..], r)
  }

  lemma NothingAsked(d: Draft, calls: seq<Call>, n: nat)
    requires !Encodable(d) && n == |calls|
    ensures Concludes(d, calls[n..], Err(Malformed))
  {}

  lemma StatusFailed(d: Draft, calls: seq<Call>, n: nat)
    requires Encodable(d) && |calls| == n + 1 && calls[n].StatusCall? && calls[n].status.Err?
    ensures Concludes(d, calls[n..], Err(PublishFailed(calls[n].status.error, true, false)))
  {}

  lemma Issued(d: Draft, calls: seq<Call>, n: nat, r: Result<nat, PublishError>)
    requires Encodable(d) && n + 2 <= |calls| && calls[n].StatusCall? && calls[n].status.Ok?
    requires calls[n + 1].PublishCall? && calls[n + 1].draft == d
    requires Resolves(calls[n].status.value, calls[n + 1].published, calls[n + 2..], r)
    ensures Concludes(d, calls[n..], r)
  {
    assert calls[n..][2..] == calls[n + 2..];
  }

  /** An acknowledged publish is returned; a failed one is final if its code promises so, and reconciled otherwise. */
  ghost predicate Resolves(pre: nat, published: Result<nat, Code>, a: seq<Call>, r: Result<nat, PublishError>) {
    match published
    case Ok(sn) => a == [] && r == Ok(sn)
    case Err(code) =>
      if code in {Unauthenticated, PermissionDenied, NotFound, InvalidArgument, ResourceExhausted}
      then a == [] && r == Err(PublishFailed(code, false, false))
      else Reconciles(pre, code, a, r)
  }

  /** The two logs differ by other writers' entries and at most one copy of the draft. */
  ghost predicate AtMostOneCopy(log0: Log, own0: set<nat>, log1: Log, own1: set<nat>, d: Draft) {
    own1 == own0 || exists i :: CopyAt(log0, own0, log1, own1, d, i)
  }

  /** The copy is entry `i`. */
  ghost predicate CopyAt(log0: Log, own0: set<nat>, log1: Log, own1: set<nat>, d: Draft, i: int) {
    |log0| <= i < |log1| && log1[i].Matches(d) && log1[i].sn !in own0 && own1 == own0 + {log1[i].sn}
  }

  /** The copy at the end of the log of that moment is there for good. */
  lemma CopyStays(log0: Log, own0: set<nat>, middle: Log, log1: Log, own1: set<nat>, d: Draft, after: nat)
    requires middle <= log1 && CopyAt(log0, own0, middle, own1, d, |middle| - 1)
    ensures AtMostOneCopy(log0, own0, log1, own1, d)
    ensures after < middle[|middle| - 1].sn ==> Published(middle, after, d)
  {
    assert CopyAt(log0, own0, log1, own1, d, |middle| - 1);
  }

  /** If no other entry looks like the draft, the one found is this call's. */
  lemma FoundIsOurs(log0: Log, own0: set<nat>, log1: Log, own1: set<nat>, d: Draft, sn: nat)
    requires AtMostOneCopy(log0, own0, log1, own1, d) && MatchesAt(log1, sn, d)
    ensures OthersDiffer(log1, own0, own1, d) ==> own1 == own0 + {sn} && sn !in own0
  {}

  /** No entry but this call's own copy looks like the draft. */
  ghost predicate OthersDiffer(log: Log, own0: set<nat>, own1: set<nat>, d: Draft) {
    forall i :: 0 <= i < |log| && log[i].Matches(d) ==> log[i].sn in own1 && log[i].sn !in own0
  }

  /** The loop over one page: the first matching message that is not too new. */
  method FirstMatch(messages: Log, d: Draft, limit: nat) returns (r: Option<nat>)
    ensures r.Some? ==> r.value < |messages| && messages[r.value].Matches(d) && messages[r.value].sn <= limit
    ensures r.None? ==> forall i :: 0 <= i < |messages| && messages[i].sn <= limit ==> !messages[i].Matches(d)
    ensures r.Some? ==> forall i :: 0 <= i < r.value && messages[i].sn <= limit ==> !messages[i].Matches(d)
  {
    for i := 0 to |messages|
      invariant forall j :: 0 <= j < i && messages[j].sn <= limit ==> !messages[j].Matches(d)
    {
      if messages[i].sn <= limit && messages[i].Matches(d) {
        return Some(i);
      }
    }
    return None;
  }

  /** A page without a match extends the part of the log known to hold none. */
  lemma NoneUpTo(known: Log, log: Log, lo: nat, hi: nat, limit: nat, d: Draft)
    requires Increasing(log) && known <= log && limit == LastSeq(known)
    requires forall i :: 0 <= i < |Between(log, lo, hi, {d.channelId})|
                         && Between(log, lo, hi, {d.channelId})[i].sn <= limit
                         ==> !Between(log, lo, hi, {d.channelId})[i].Matches(d)
    ensures forall i :: 0 <= i < |known| && lo <= known[i].sn < hi ==> !known[i].Matches(d)
  {
    var page := Between(log, lo, hi, {d.channelId});
    BelowSplits(log, lo);
    BelowSplits(log, hi);
    var a, b := Below(log, lo), Below(log, hi);
    forall i | 0 <= i < |known| && lo <= known[i].sn < hi ensures !known[i].Matches(d) {
      assert known[i] == log[i] && a <= i < b;
      if known[i].channelId == d.channelId {
        assert log[a..b][i - a] == log[i];
        SelectMembers(log[a..b], {d.channelId});
        var j :| 0 <= j < |page| && page[j] == log[i];
        assert known[|known| - 1] == log[|known| - 1];
      }
    }
  }

  datatype RetryError =
    | Exhausted       // the payload was refused as too large; nothing was committed
    | FatalPublish    // unknown outcome, not retryable, or out of attempts
    | Stopped

  class Publisher {
    const client: ImProtocolClient
    const maxAttempts: nat

    constructor (client: ImProtocolClient, maxAttempts: nat)
      ensures this.client == client && this.maxAttempts == maxAttempts
    {
      this.client, this.maxAttempts := client, maxAttempts;
    }

    /**
     `_publish_with_retry`: over all attempts at most one copy is committed, and what it comes to is what the
     attempts do. Exhausted means that nothing was committed, and that the server answered RESOURCE_EXHAUSTED
     last: to the publish of the draft, or to the status asked for before it, in which case that attempt
     issued nothing.
     */
    method PublishWithRetry(d: Draft) returns (r: Result<nat, RetryError>)
      requires client.server.Valid()
      modifies client.server
      ensures client.server.Valid() && client.server.Onward() && (old(client.server.stopSet) ==> client.server.stopSet)
      ensures client.server.issued <= old(client.server.issued) + maxAttempts
      ensures AtMostOneCopy(old(client.server.log), old(client.server.own), client.server.log, client.server.own, d)
      ensures r.Ok? ==> MatchesAt(client.server.log, r.value, d)
      ensures r.Ok? || client.server.own != old(client.server.own) ==> d.payload.Encodes()
      ensures r.Ok? && OthersDiffer(client.server.log, old(client.server.own), client.server.own, d)
              ==> client.server.own == old(client.server.own) + {r.value} && r.value !in old(client.server.own)
      ensures r == Err(Exhausted) ==> client.server.own == old(client.server.own)
      ensures r == Err(Stopped) ==> client.server.stopSet
      ensures Retries(d, old(client.server.calls), client.server.calls, maxAttempts, r)
      ensures maxAttempts > 0 && Encodable(d) && Head(old(client.server.script)).fail == Some(ResourceExhausted)
              ==> r == Err(Exhausted) && client.server.issued == old(client.server.issued)
                  && |client.server.calls| == |old(client.server.calls)| + 1
    {
      hide Attributed, Concludes, Tried, Retries, OthersDiffer, MatchesAt, CopyAt;
      var server := client.server;
      var attempt := 1;
      ghost var attempts: seq<Attempt> := [];
      NoAttempt(d, server.calls);
      while attempt <= maxAttempts
        invariant 1 <= attempt <= maxAttempts + 1
        invariant server.Valid() && server.Onward() && (old(server.stopSet) ==> server.stopSet)
        invariant server.issued <= old(server.issued) + attempt - 1
        invariant server.own == old(server.own)
        invariant |attempts| == attempt - 1 && Tried(d, old(server.calls), server.calls, attempts)
        invariant forall k :: 0 <= k < |attempts| ==> Retryable(attempts[k].outcome)
        invariant attempt == 1 ==> server.script == old(server.script) && server.issued == old(server.issued)
                                   && server.calls == old(server.calls)
        invariant attempt > 1 ==> !(Encodable(d) && Head(old(server.script)).fail == Some(ResourceExhausted))
      {
        ghost var before, calls := server.log, server.calls;
        var published := client.Publish(d);
        CopySince(old(server.log), before, server.own, server.log, d, old(server.own));
        ghost var last := Attempt(server.calls[|calls|..], published);
        OneMoreAttempt(d, old(server.calls), calls, server.calls, attempts, last);
        attempts := attempts + [last];
        match published {
          case Ok(sn) =>
            r := Ok(sn);
            TriedEnough(d, old(server.calls), server.calls, attempts, maxAttempts, r);
            return;
          case Err(e) =>
            if e.Status() == ResourceExhausted {
              r := Err(Exhausted);
              TriedEnough(d, old(server.calls), server.calls, attempts, maxAttempts, r);
              return;
            }
            if e.Malformed? || !e.retrySafe || !Transient(e.Status()) {
              r := Err(FatalPublish);
              TriedEnough(d, old(server.calls), server.calls, attempts, maxAttempts, r);
              return;
            }
        }
        if attempt == maxAttempts {
          break;
        }
        var stopped, _ := server.Wait();
        if stopped {
          r := Err(Stopped);
          TriedEnough(d, old(server.calls), server.calls, attempts, maxAttempts, r);
          return;
        }
        attempt := attempt + 1;
      }
      r := Err(FatalPublish);
      TriedEnough(d, old(server.calls), server.calls, attempts, maxAttempts, r);
    }
  }

  /** One attempt: the calls it made, and what it concluded from the answers. */
  datatype Attempt = Attempt(calls: seq<Call>, outcome: Result<nat, PublishError>)

  function AllCalls(attempts: seq<Attempt>): seq<Call> {
    if attempts == [] then [] else AllCalls(attempts[..|attempts| - 1]) + attempts[|attempts| - 1].calls
  }

  /** A failure that is tried again: safe, and temporary. */
  predicate Retryable(r: Result<nat, PublishError>) {
    r.Err? && r.error.PublishFailed? && r.error.retrySafe && r.error.cause in {Unavailable, DeadlineExceeded}
  }

  /** These are all the calls since then, attempt by attempt. */
  ghost predicate Tried(d: Draft, before: seq<Call>, after: seq<Call>, attempts: seq<Attempt>) {
    && after == before + AllCalls(attempts)
    && forall k :: 0 <= k < |attempts| ==> Concludes(d, attempts[k].calls, attempts[k].outcome)
  }

  /** Only a temporary failure that is safe to retry is retried, and it is, until the attempts are used up or the
      worker is told to stop; anything else ends it. */
  ghost predicate Retried(d: Draft, before: seq<Call>, after: seq<Call>, attempts: seq<Attempt>, maxAttempts: nat,
                          r: Result<nat, RetryError>)
  {
    && Tried(d, before, after, attempts) && |attempts| <= maxAttempts
    && (forall k :: 0 <= k < |attempts| - 1 ==> Retryable(attempts[k].outcome))
    && if attempts == [] then maxAttempts == 0 && r == Err(FatalPublish)
       else Decides(attempts[|attempts| - 1].outcome, |attempts| == maxAttempts, r)
  }

  /** What the last attempt comes to. */
  predicate Decides(outcome: Result<nat, PublishError>, usedUp: bool, r: Result<nat, RetryError>) {
    match outcome
    case Ok(sn) => r == Ok(sn)
    case Err(e) =>
      if e.Status() == ResourceExhausted then r == Err(Exhausted)
      else if Retryable(outcome) then r == Err(if usedUp then FatalPublish else Stopped)
      else r == Err(FatalPublish)
  }

  ghost predicate Retries(d: Draft, before: seq<Call>, after: seq<Call>, maxAttempts: nat, r: Result<nat, RetryError>) {
    exists attempts :: Retried(d, before, after, attempts, maxAttempts, r)
  }

  lemma NoAttempt(d: Draft, calls: seq<Call>)
    ensures Tried(d, calls, calls, [])
  {}

  lemma TriedEnough(d: Draft, before: seq<Call>, after: seq<Call>, attempts: seq<Attempt>, maxAttempts: nat,
                    r: Result<nat, RetryError>)
    requires Tried(d, before, after, attempts) && |attempts| <= maxAttempts
    requires forall k :: 0 <= k < |attempts| - 1 ==> Retryable(attempts[k].outcome)
    requires if attempts == [] then maxAttempts == 0 && r == Err(FatalPublish)
             else Decides(attempts[|attempts| - 1].outcome, |attempts| == maxAttempts, r)
    ensures Retries(d, before, after, maxAttempts, r)
  {
    assert Retried(d, before, after, attempts, maxAttempts, r);
  }

  lemma OneMoreAttempt(d: Draft, before: seq<Call>, calls: seq<Call>, after: seq<Call>, attempts: seq<Attempt>, last: Attempt)
    requires Tried(d, before, calls, attempts) && calls <= after && last.calls == after[|calls|..]
    requires Concludes(d, last.calls, last.outcome)
    ensures Tried(d, before, after, attempts + [last])
  {
    hide Concludes;
    var more := attempts + [last];
    assert more[..|attempts|] == attempts;
    assert after == (before + AllCalls(attempts)) + last.calls == before + (AllCalls(attempts) + last.calls);
  }

  /** This answer refuses the draft as too large, or the status asked for before it. */
  predicate Refuses(c: Call, d: Draft) {
    c.Failure() == Some(ResourceExhausted) && (c.StatusCall? || (c.PublishCall? && c.draft == d))
  }

  /** A draft reported as too large was refused by the last answer. */
  lemma LastRefuses(d: Draft, before: seq<Call>, after: seq<Call>, maxAttempts: nat)
    requires Retries(d, before, after, maxAttempts, Err(Exhausted))
    ensures |before| < |after| && before <= after && Refuses(after[|after| - 1], d)
  {
    hide Reconciles;
    var attempts: seq<Attempt> :| Retried(d, before, after, attempts, maxAttempts, Err(Exhausted));
    var last := attempts[|attempts| - 1];
    assert Concludes(d, last.calls, last.outcome);
    WhatWasRefused(d, last.calls, last.outcome);
    assert after[|after| - 1] == last.calls[|last.calls| - 1];
  }

  /** If an attempt ends with RESOURCE_EXHAUSTED, that was the last answer; it is about the draft exactly if the
      status asked for first did not fail. */
  lemma WhatWasRefused(d: Draft, a: seq<Call>, r: Result<nat, PublishError>)
    requires Concludes(d, a, r) && r.Err? && r.error.Status() == ResourceExhausted
    ensures a != [] && Refuses(a[|a| - 1], d)
    ensures a[|a| - 1] == PublishCall(d, Err(ResourceExhausted)) <==> a[0].Failure() == None
  {}

  /** A draft acknowledged in the end was never refused. */
  lemma NoneRefuses(d: Draft, before: seq<Call>, after: seq<Call>, maxAttempts: nat, sn: nat)
    requires Retries(d, before, after, maxAttempts, Ok(sn))
    ensures before <= after && forall i :: |before| <= i < |after| ==> after[i].Failure() != Some(ResourceExhausted)
  {
    hide Concludes;
    var attempts: seq<Attempt> :| Retried(d, before, after, attempts, maxAttempts, Ok(sn));
    forall k | 0 <= k < |attempts| ensures Unrefused(attempts[k].calls) {
      NotRefused(d, attempts[k].calls, attempts[k].outcome);
    }
    AllUnrefused(attempts);
  }

  ghost predicate Unrefused(a: seq<Call>) { forall i :: 0 <= i < |a| ==> a[i].Failure() != Some(ResourceExhausted) }

  lemma {:induction false} AllUnrefused(attempts: seq<Attempt>)
    requires forall k :: 0 <= k < |attempts| ==> Unrefused(attempts[k].calls)
    ensures Unrefused(AllCalls(attempts))
  {
    if attempts != [] {
      AllUnrefused(attempts[..|attempts| - 1]);
    }
  }

  lemma NotRefused(d: Draft, a: seq<Call>, r: Result<nat, PublishError>)
    requires Concludes(d, a, r) && (r.Ok? || Retryable(r))
    ensures Unrefused(a)
  {
    if a[0].status.Ok? && a[1].published.Err? {
      var code := a[1].published.error;
      assert Reconciles(a[0].status.value, code, a[2..], r);
      ReconciledUnrefused(a[0].status.value, code, a[2..], r);
      forall i | 0 <= i < |a| ensures a[i].Failure() != Some(ResourceExhausted) {
        if i >= 2 { assert a[2..][i - 2] == a[i]; }
      }
    }
  }

  lemma ReconciledUnrefused(pre: nat, cause: Code, a: seq<Call>, r: Result<nat, PublishError>)
    requires Reconciles(pre, cause, a, r) && (r.Ok? || r.error.retrySafe)
    ensures Unrefused(a)
  {
    forall i | 0 <= i < |a| ensures a[i].Failure() != Some(ResourceExhausted) {
      if 0 < i < |a| - 1 { assert a[..|a| - 1][i] == a[i] && !Undecided(pre, a[..|a| - 1][i]); }
    }
  }

  /**
   A draft can be reported as too large although it never was sent: here the status asked for before the
   publish is what the server refuses.
   */
  method RefusedUnsent(env: Env, d: Draft) returns (r: Result<nat, RetryError>, server: OpenEvent)
    requires Encodable(d)
    ensures r == Err(Exhausted) && server.issued == 0 && |server.calls| == 1
    ensures server.calls[0].StatusCall? && server.calls[0].Failure() == Some(ResourceExhausted)
  {
    server := new OpenEvent(env, [Choice([], Some(ResourceExhausted), false, 0, None, 0, false)]);
    var client := new ImProtocolClient(server);
    var publisher := new Publisher(client, 1);
    r := publisher.PublishWithRetry(d);
    LastRefuses(d, [], server.calls, 1);
    assert server.calls[0].StatusCall?;
  }

  /** Only a draft that cannot be encoded, or without channel or principal, is malformed, and nothing is asked about it. */
  lemma MalformedExactly(d: Draft, a: seq<Call>, r: Result<nat, PublishError>)
    requires Concludes(d, a, r)
    ensures r == Err(Malformed) <==> d.channelId == 0 || d.principal == 0 || !d.payload.Encodes()
    ensures r == Err(Malformed) ==> a == []
  {}

  /** What a failed publish comes to, code by code: five are final, any other is looked into. */
  lemma CodesOfPublish(d: Draft, a: seq<Call>, r: Result<nat, PublishError>, pre: nat, code: Code)
    requires Concludes(d, a, r) && |a| >= 2 && a[0].StatusCall? && a[0].status == Ok(pre)
    requires a[1] == PublishCall(d, Err(code))
    ensures match code
            case Unauthenticated => |a| == 2 && r == Err(PublishFailed(code, false, false))
            case PermissionDenied => |a| == 2 && r == Err(PublishFailed(code, false, false))
            case NotFound => |a| == 2 && r == Err(PublishFailed(code, false, false))
            case InvalidArgument => |a| == 2 && r == Err(PublishFailed(code, false, false))
            case ResourceExhausted => |a| == 2 && r == Err(PublishFailed(code, false, false))
            case Unavailable => |a| > 2 && a[2].StatusCall?
            case DeadlineExceeded => |a| > 2 && a[2].StatusCall?
            case OtherStatus => |a| > 2 && a[2].StatusCall?
            case NotRpc => |a| > 2 && a[2].StatusCall?
  {}

  /** What a retry loop comes to that ends with a safe failure of its first attempt, code by code: two are temporary, so
      that it was told to stop or had no attempt left. */
  function AfterSafe(code: Code, maxAttempts: nat): RetryError {
    match code
    case ResourceExhausted => Exhausted
    case Unavailable => if maxAttempts == 1 then FatalPublish else Stopped
    case DeadlineExceeded => if maxAttempts == 1 then FatalPublish else Stopped
    case Unauthenticated => FatalPublish
    case PermissionDenied => FatalPublish
    case NotFound => FatalPublish
    case InvalidArgument => FatalPublish
    case OtherStatus => FatalPublish
    case NotRpc => FatalPublish
  }

  /** While attempts are left and nobody told the worker to stop, a safe failure is followed by another attempt exactly
      if its cause is one of two codes. */
  lemma FollowedExactly(d: Draft, before: seq<Call>, after: seq<Call>, attempts: seq<Attempt>, maxAttempts: nat,
                        r: Result<nat, RetryError>, k: nat, code: Code)
    requires Retried(d, before, after, attempts, maxAttempts, r) && k < |attempts| && k + 1 < maxAttempts
    requires attempts[k].outcome == Err(PublishFailed(code, true, false)) && r != Err(Stopped)
    ensures k + 1 < |attempts| <==> code == Unavailable || code == DeadlineExceeded
  {}

  lemma LastAttempt(attempts: seq<Attempt>)
    ensures attempts == [] ==> AllCalls(attempts) == []
    ensures attempts != [] ==> AllCalls(attempts) == AllCalls(attempts[..|attempts| - 1]) + attempts[|attempts| - 1].calls
  {}

  lemma Regroup(a: seq<Call>, b: seq<Call>, c: seq<Call>)
    ensures (a + b) + c == a + (b + c)
  {}

  /** The first of the attempts that account for some calls, and the rest. */
  lemma {:induction false} FirstAttempt(attempts: seq<Attempt>)
    requires attempts != []
    ensures AllCalls(attempts) == attempts[0].calls + AllCalls(attempts[1..])
  {
    hide AllCalls;
    var before, rest := attempts[..|attempts| - 1], attempts[1..];
    LastAttempt(attempts);
    LastAttempt(before);
    LastAttempt(rest);
    if |attempts| == 1 {
      assert before == [] && rest == [];
    } else {
      FirstAttempt(before);
      assert before[0] == attempts[0] && before[1..] == rest[..|rest| - 1] && rest[|rest| - 1] == attempts[|attempts| - 1];
      Regroup(attempts[0].calls, AllCalls(before[1..]), attempts[|attempts| - 1].calls);
    }
  }

  /** Every attempt makes a call. */
  lemma {:induction false} AttemptsCall(d: Draft, attempts: seq<Attempt>)
    requires Encodable(d) && forall k :: 0 <= k < |attempts| ==> Concludes(d, attempts[k].calls, attempts[k].outcome)
    ensures |attempts| <= |AllCalls(attempts)|
  {
    if attempts != [] {
      AttemptsCall(d, attempts[..|attempts| - 1]);
      assert Concludes(d, attempts[|attempts| - 1].calls, attempts[|attempts| - 1].outcome);
    }
  }

  /** An attempt whose status failed. */
  lemma StatusFails(d: Draft, a: seq<Call>, outcome: Result<nat, PublishError>, code: Code, last: nat)
    requires Concludes(d, a, outcome) && Encodable(d) && a == [StatusCall(Err(code), last)]
    ensures outcome == Err(PublishFailed(code, true, false))
  {
    hide Reconciles;
  }

  /** A status that failed and was the only call. */
  lemma StatusOnly(d: Draft, before: seq<Call>, after: seq<Call>, maxAttempts: nat, r: Result<nat, RetryError>, code: Code,
                   last: nat)
    requires Retries(d, before, after, maxAttempts, r) && maxAttempts > 0 && Encodable(d)
    requires after == before + [StatusCall(Err(code), last)]
    ensures r == Err(AfterSafe(code, maxAttempts))
  {
    hide Concludes;
    var attempts: seq<Attempt> :| Retried(d, before, after, attempts, maxAttempts, r);
    AttemptsCall(d, attempts);
    assert after[|before|..] == AllCalls(attempts) == [StatusCall(Err(code), last)];
    FirstAttempt(attempts);
    assert attempts[1..] == [] && attempts[0].calls + [] == attempts[0].calls;
    StatusFails(d, attempts[0].calls, attempts[0].outcome, code, last);
  }

  /** An attempt whose publish failed, was looked into and had not been committed, by the calls it begins. */
  lemma LookedInto(d: Draft, a: seq<Call>, outcome: Result<nat, PublishError>, pre: nat, code: Code, all: seq<Call>)
    requires Concludes(d, a, outcome) && Encodable(d) && a <= all
    requires code in {Unavailable, DeadlineExceeded, OtherStatus, NotRpc}
    requires |all| >= 3 && all[0] == all[2] == StatusCall(Ok(pre), pre) && all[1] == PublishCall(d, Err(code))
    requires |all| > 3 ==> all[3].StatusCall?
    ensures |a| == 3 && outcome == Err(PublishFailed(code, true, false))
  {
    CodesOfPublish(d, a, outcome, pre, code);
    assert Reconciles(pre, code, a[2..], outcome);
    if |a| > 3 {
      assert a[2..][1] == a[3] == all[3];
      LooksOn(pre, code, a[2..], outcome);
    }
  }

  /** After its status a reconciliation only fetches. */
  lemma LooksOn(pre: nat, cause: Code, a: seq<Call>, r: Result<nat, PublishError>)
    requires Reconciles(pre, cause, a, r) && |a| > 1
    ensures a[1].FetchCall?
  {
    if |a| > 2 {
      assert FetchedOn(pre, a[0].status.value, a[..|a| - 1], 1);
    } else {
      assert FetchedOn(pre, a[0].status.value, a, 1);
    }
  }

  /** A publish that failed, was looked into and had not been committed: what comes next is decided by the code. */
  lemma NotCommitted(d: Draft, before: seq<Call>, after: seq<Call>, maxAttempts: nat, r: Result<nat, RetryError>,
                     pre: nat, code: Code, more: seq<Call>)
    returns (attempts: seq<Attempt>)
    requires Retries(d, before, after, maxAttempts, r) && maxAttempts > 0 && Encodable(d)
    requires code in {Unavailable, DeadlineExceeded, OtherStatus, NotRpc}
    requires more != [] ==> more[0].StatusCall?
    requires after == before + ([StatusCall(Ok(pre), pre), PublishCall(d, Err(code)), StatusCall(Ok(pre), pre)] + more)
    ensures Retried(d, before, after, attempts, maxAttempts, r) && attempts != [] && AllCalls(attempts[1..]) == more
    ensures attempts[0].outcome == Err(PublishFailed(code, true, false))
  {
    hide Concludes;
    attempts :| Retried(d, before, after, attempts, maxAttempts, r);
    FirstAttempt(attempts);
    var first := [StatusCall(Ok(pre), pre), PublishCall(d, Err(code)), StatusCall(Ok(pre), pre)];
    var all, a := first + more, attempts[0].calls;
    assert after[|before|..] == AllCalls(attempts) == all;
    assert a <= all;
    LookedInto(d, a, attempts[0].outcome, pre, code, all);
    assert all[3..] == more && all[3..] == AllCalls(attempts[1..]);
  }

  /** Without a second attempt it is given up, or, with UNAVAILABLE or DEADLINE_EXCEEDED, the worker was told to stop. */
  lemma GivenUp(d: Draft, before: seq<Call>, after: seq<Call>, maxAttempts: nat, r: Result<nat, RetryError>, pre: nat,
                code: Code)
    requires Retries(d, before, after, maxAttempts, r) && maxAttempts > 0 && Encodable(d)
    requires code in {Unavailable, DeadlineExceeded, OtherStatus, NotRpc}
    requires after == before + [StatusCall(Ok(pre), pre), PublishCall(d, Err(code)), StatusCall(Ok(pre), pre)]
    ensures r == Err(AfterSafe(code, maxAttempts))
  {
    hide Concludes;
    var calls := [StatusCall(Ok(pre), pre), PublishCall(d, Err(code)), StatusCall(Ok(pre), pre)];
    assert calls == calls + [];
    var attempts := NotCommitted(d, before, after, maxAttempts, r, pre, code, []);
    AttemptsCall(d, attempts[1..]);
  }

  /** With either code a second attempt that is acknowledged gives its seq; with no other code is there a second one. */
  lemma SecondAttempt(d: Draft, before: seq<Call>, after: seq<Call>, maxAttempts: nat, r: Result<nat, RetryError>,
                      pre: nat, code: Code, q: nat, last: nat, sn: nat)
    requires Retries(d, before, after, maxAttempts, r) && maxAttempts > 0 && Encodable(d)
    requires code in {Unavailable, DeadlineExceeded, OtherStatus, NotRpc}
    requires after == before + ([StatusCall(Ok(pre), pre), PublishCall(d, Err(code)), StatusCall(Ok(pre), pre)]
                                + [StatusCall(Ok(q), last), PublishCall(d, Ok(sn))])
    ensures r == Ok(sn) && maxAttempts > 1 && (code == Unavailable || code == DeadlineExceeded)
  {
    var more := [StatusCall(Ok(q), last), PublishCall(d, Ok(sn))];
    var attempts := NotCommitted(d, before, after, maxAttempts, r, pre, code, more);
    FirstAttempt(attempts[1..]);
    var a := attempts[1].calls;
    assert Concludes(d, a, attempts[1].outcome);
    assert forall i :: 0 <= i < |a| ==> a[i] == more[i];
    assert Retryable(attempts[0].outcome);
  }

  lemma CopySince(log0: Log, before: Log, own1: set<nat>, log1: Log, d: Draft, own0: set<nat>)
    requires log0 <= before && AtMostOneCopy(before, own0, log1, own1, d)
    ensures AtMostOneCopy(log0, own0, log1, own1, d)
  {
    if own1 != own0 {
      var i :| CopyAt(before, own0, log1, own1, d, i);
      assert CopyAt(log0, own0, log1, own1, d, i);
    }
  }
}
