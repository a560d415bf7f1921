/** What the worker reads of the log: windows, the scan, the live loop, and the runs they make. */
module Reading {
  import opened Common
  import opened Wire
  import opened Memory
  import opened Replay
  import opened Meaning
  import opened System
  import opened Safety
  import opened Client
  import opened Refine

  // ---- windows of the log

  /** The entries up to seq `s`, or those past it, in order. */
  function Cut(log: Log, s: nat, past: bool): Log {
    if log == [] then []
    else
      var rest := Cut(log[..|log| - 1], s, past);
      if (s < log[|log| - 1].sn) == past then rest + [log[|log| - 1]] else rest
  }

  lemma {:induction false} CutConcat(a: Log, b: Log, s: nat, past: bool)
    ensures Cut(a + b, s, past) == Cut(a, s, past) + Cut(b, s, past)
  {
    if b == [] {
      assert a + b == a;
    } else {
      CutConcat(a, b[..|b| - 1], s, past);
      assert (a + b)[..|a + b| - 1] == a + b[..|b| - 1];
    }
  }

  lemma {:induction false} CutUniform(log: Log, s: nat, past: bool)
    requires forall m :: m in log ==> (s < m.sn) == past
    ensures Cut(log, s, past) == log && Cut(log, s, !past) == []
  {
    if log != [] {
      CutUniform(log[..|log| - 1], s, past);
      assert log == log[..|log| - 1] + [log[|log| - 1]];
    }
  }

  lemma BetweenSplits(log: Log, a: nat, b: nat, c: nat, channels: set<nat>)
    requires Increasing(log) && a <= b <= c
    ensures Between(log, a, c, channels) == Between(log, a, b, channels) + Between(log, b, c, channels)
  {
    BelowMonotone(log, a, b);
    BelowMonotone(log, b, c);
    SelectSlices(log, Below(log, a), Below(log, b), Below(log, c), channels);
  }

  /** A window inside the old log never changes. */
  lemma BetweenStable(before: Log, log: Log, a: nat, b: nat, channels: set<nat>)
    requires Increasing(log) && before <= log && a <= b <= LastSeq(before) + 1
    ensures Between(log, a, b, channels) == Between(before, a, b, channels)
  {
    BelowStable(before, log, a);
    BelowStable(before, log, b);
    BelowMonotone(log, a, b);
    var i, j := Below(log, a), Below(log, b);
    assert log[i..j] == before[i..j];
  }

  /** A page cut at seq `s` falls into the two windows on either side of `s`. */
  lemma PageCut(log: Log, lo: nat, hi: nat, s: nat, channels: set<nat>)
    requires Increasing(log) && lo <= hi && lo <= s + 1
    ensures Cut(Between(log, lo, hi, channels), s, false) == Between(log, lo, Min(hi, s + 1), channels)
    ensures Cut(Between(log, lo, hi, channels), s, true) == Between(log, Min(hi, s + 1), hi, channels)
  {
    hide Between;
    var m := Min(hi, s + 1);
    var a, b := Between(log, lo, m, channels), Between(log, m, hi, channels);
    BetweenSplits(log, lo, m, hi, channels);
    BetweenMembers(log, lo, m, channels);
    BetweenMembers(log, m, hi, channels);
    CutConcat(a, b, s, false);
    CutConcat(a, b, s, true);
    CutUniform(a, s, false);
    CutUniform(b, s, true);
  }

  lemma CutNone(s: nat, past: bool)
    ensures Cut([], s, past) == []
  {}

  lemma CutNext(log: Log, i: nat, s: nat, past: bool)
    requires i < |log|
    ensures Cut(log[..i + 1], s, past)
            == if (s < log[i].sn) == past then Cut(log[..i], s, past) + [log[i]] else Cut(log[..i], s, past)
    ensures var c := Cut(log[..i], s, past); (c + [log[i]])[..|c|] == c
  {
    assert log[..i + 1][..i] == log[..i];
  }

  lemma EmptyWindow(log: Log, a: nat, channels: set<nat>)
    ensures Between(log, a, a, channels) == []
  {}

  lemma PrefixStable(before: Log, log: Log, s: nat)
    requires Increasing(log) && before <= log && s <= LastSeq(before) + 1
    ensures log[..Below(log, s)] == before[..Below(before, s)] && Below(log, s) == Below(before, s)
  {
    BelowStable(before, log, s);
  }

  /** What the scan takes in and what the live loop handles divide the owned entries between them. */
  lemma ScanAndLoopPartition(log: Log, scanEnd: nat, snapshot: nat, channels: set<nat>)
    requires Increasing(log) && scanEnd <= snapshot
    ensures Select(log[..Below(log, scanEnd + 1)], channels) + Between(log, scanEnd + 1, snapshot + 1, channels)
            == Select(log[..Below(log, snapshot + 1)], channels)
    ensures LastSeq(log) <= snapshot ==> Select(log[..Below(log, snapshot + 1)], channels) == Select(log, channels)
  {
    var i, j := Below(log, scanEnd + 1), Below(log, snapshot + 1);
    BelowMonotone(log, scanEnd + 1, snapshot + 1);
    assert log[..j][0..i] == log[..i] && log[..j][i..j] == log[i..j] && log[..j][0..j] == log[..j];
    SelectSlices(log[..j], 0, i, j, channels);
    if LastSeq(log) <= snapshot {
      BelowAll(log, snapshot + 1);
      assert log[..|log|] == log;
    }
  }

  // ---- folding over pages

  /** `_process_history_message` over a page. */
  function ProcessAll(site: Site, m: Mem, msgs: Log): Result<Mem, Fault> {
    if msgs == [] then Ok(m)
    else match ProcessAll(site, m, msgs[..|msgs| - 1])
      case Err(e) => Err(e)
      case Ok(next) => Process(site, next, msgs[|msgs| - 1])
  }

  /** Scanning the owned entries that follow `a` recovers the longer log. */
  lemma {:induction false} RecoverOn(site: Site, a: Log, b: Log, m: Mem)
    requires Recover(site, a) == Ok(m)
    ensures Recover(site, a + b) == ProcessAll(site, m, Select(b, site.ix.Channels()))
  {
    if b == [] {
      assert a + b == a;
    } else {
      var c, msg := b[..|b| - 1], b[|b| - 1];
      RecoverOn(site, a, c, m);
      assert (a + b)[..|a + b| - 1] == a + c;
      var rest := Select(c, site.ix.Channels());
      assert (rest + [msg])[..|rest|] == rest;
    }
  }

  /** One page of the scan, cut at the scan's end. */
  lemma ScanPage(site: Site, log: Log, lo: nat, hi: nat, s: nat, m: Mem)
    requires Increasing(log) && lo <= hi && lo <= s
    requires Recover(site, log[..Below(log, lo)]) == Ok(m)
    ensures Recover(site, log[..Below(log, Min(hi, s + 1))])
            == ProcessAll(site, m, Cut(Between(log, lo, hi, site.ix.Channels()), s, false))
  {
    PageCut(log, lo, hi, s, site.ix.Channels());
    var i, j := Below(log, lo), Below(log, Min(hi, s + 1));
    BelowMonotone(log, lo, Min(hi, s + 1));
    assert log[..j] == log[..i] + log[i..j];
    RecoverOn(site, log[..i], log[i..j], m);
  }

  /** `_process_live_message`: only requests matter. */
  function Live(site: Site, m: Mem, msg: Message): Result<Mem, Fault> {
    if !msg.payload.Parses() then Err(ParseFault)
    else if !Owned(site, msg) then Ok(m)
    else if !RolesOk(site, msg) then Err(RoleFault)
    else if !msg.payload.SendRequest? then Ok(m)
    else Lift(RequestAdded(m, msg))
  }

  /** What the live loop accepts and learns, in fields, where the memory knows the requests of `before`: an entry that is
      well formed and, on an owned channel, from the right writer and not at odds with the first request of its id. */
  lemma LiveMeaning(site: Site, m: Mem, before: Log, msg: Message)
    requires site.ix.Sound() && TasksAgree(site, m.canonical, before)
    ensures Live(site, m, msg).Ok?
            <==> WellFormed(msg.payload)
                 && (msg.channelId in site.ix.byChannel ==>
                       RightWriter(site, msg) && (msg.payload.SendRequest? ==> RequestFits(site, before, msg)))
    ensures Live(site, m, msg).Ok? ==>
              var next := Live(site, m, msg).value;
              if msg.channelId in site.ix.byChannel && msg.payload.SendRequest?
              then msg.payload.requestId in next.canonical && AsksFor(next.canonical[msg.payload.requestId], msg)
              else next == m
  {
    ParsesMeaning(msg.payload);
    hide Payload.Parses, WellFormed, RolesOk, RightWriter, RequestFits;
    if msg.channelId in site.ix.byChannel && WellFormed(msg.payload) {
      NoGarbage(msg.payload);
      WritersFit(site, msg);
      if msg.payload.SendRequest? {
        assert Get(m.canonical, msg.payload.requestId) == FirstTask(site, before, msg.payload.requestId);
        ContentFits(site, before, msg);
      }
    }
  }

  lemma NoGarbage(p: Payload)
    requires WellFormed(p)
    ensures !p.Garbage?
  {}

  function LiveAll(site: Site, m: Mem, msgs: Log): Result<Mem, Fault> {
    if msgs == [] then Ok(m)
    else match LiveAll(site, m, msgs[..|msgs| - 1])
      case Err(e) => Err(e)
      case Ok(next) => Live(site, next, msgs[|msgs| - 1])
  }

  /** Handling the owned entries of a slice is a run of fetches. */
  lemma {:induction false} ReachFetches(env: Env, log: Log, sends: seq<Delivery>, m: Mem, next: Mem, i: nat, j: nat)
    requires i <= j <= |log| && LiveAll(env.site, m, Select(log[i..j], env.site.ix.Channels())) == Ok(next)
    ensures Reaches(env, State(log, sends, Up(m, i, Idle)), State(log, sends, Up(next, j, Idle)))
    decreases j
  {
    hide Reaches, Live, Step;
    var start, end := State(log, sends, Up(m, i, Idle)), State(log, sends, Up(next, j, Idle));
    if i == j {
      assert log[i..j] == [];
      ReachRefl(env, start);
    } else {
      LiveLast(env.site, log, m, i, j);
      var before := LiveAll(env.site, m, Select(log[i..j - 1], env.site.ix.Channels())).value;
      var mid := State(log, sends, Up(before, j - 1, Idle));
      ReachFetches(env, log, sends, m, before, i, j - 1);
      FetchOne(env, log, sends, before, next, j - 1);
      ReachStep(env, mid, Fetch, end);
      ReachTrans(env, start, mid, end);
    }
  }

  /** The fold over a slice, by its last entry. */
  lemma LiveLast(site: Site, log: Log, m: Mem, i: nat, j: nat)
    requires i < j <= |log|
    ensures LiveAll(site, m, Select(log[i..j], site.ix.Channels()))
            == match LiveAll(site, m, Select(log[i..j - 1], site.ix.Channels()))
               case Err(e) => Err(e)
               case Ok(before) => if Owned(site, log[j - 1]) then Live(site, before, log[j - 1]) else Ok(before)
  {
    hide Live;
    assert log[i..j][..|log[i..j]| - 1] == log[i..j - 1];
    var rest := Select(log[i..j - 1], site.ix.Channels());
    assert (rest + [log[j - 1]])[..|rest|] == rest;
  }

  /** Handling one entry is a fetch step. */
  lemma FetchOne(env: Env, log: Log, sends: seq<Delivery>, m: Mem, next: Mem, n: nat)
    requires n < |log| && (if Owned(env.site, log[n]) then Live(env.site, m, log[n]) else Ok(m)) == Ok(next)
    ensures Step(env, State(log, sends, Up(m, n, Idle)), Fetch, State(log, sends, Up(next, n + 1, Idle)))
  {
    hide Payload.Parses, RolesOk, RequestAdded;
  }

  /** In a good state the next entry is always accepted by the live loop. */
  lemma LiveNeverFaults(env: Env, s: State)
    requires env.Sound() && Inv(env, s) && s.worker.Up? && s.worker.phase.Idle? && s.worker.n < |s.log|
    requires Owned(env.site, s.log[s.worker.n])
    ensures Live(env.site, s.worker.m, s.log[s.worker.n]).Ok?
  {
    var n := s.worker.n;
    var msg := s.log[n];
    assert EntryGood(env, s.log[..n], msg);
    if msg.payload.SendRequest? {
      assert Get(s.worker.m.canonical, msg.payload.requestId) == FirstTask(env.site, s.log[..n], msg.payload.requestId);
    }
  }

  /** Before the first seq there is nothing. */
  lemma NothingBelow(site: Site, log: Log)
    requires Increasing(log)
    ensures Recover(site, log[..Below(log, 1)]) == Ok(EMPTY_MEM)
  {
    BelowIs(log, 1, 0);
  }

  lemma NotAccepted(site: Site, log: Log, n: nat)
    requires n <= |log| && Recover(site, log[..n]).Err?
    ensures !Accepted(site, log)
  {
    hide Recover, Accepted;
    RecoveryMeansLog(site, log[..n]);
    if Accepted(site, log) {
      AcceptedPrefix(site, log, n);
    }
  }

  /** A fault early in a page is a fault of the page. */
  lemma {:induction false} FaultStays(site: Site, m: Mem, messages: Log, i: nat, s: nat)
    requires i <= |messages| && ProcessAll(site, m, Cut(messages[..i], s, false)).Err?
    ensures ProcessAll(site, m, Cut(messages, s, false)).Err?
    decreases |messages| - i
  {
    hide Process;
    if i == |messages| {
      assert messages[..i] == messages;
    } else {
      CutNext(messages, i, s, false);
      FaultStays(site, m, messages, i + 1, s);
    }
  }

  /** A fault early in a batch is a fault of the batch. */
  lemma {:induction false} LiveFaultStays(site: Site, m: Mem, messages: Log, i: nat)
    requires i <= |messages| && LiveAll(site, m, messages[..i]).Err?
    ensures LiveAll(site, m, messages).Err?
    decreases |messages| - i
  {
    hide Live;
    if i == |messages| {
      assert messages[..i] == messages;
    } else {
      assert messages[..i + 1][..i] == messages[..i];
      LiveFaultStays(site, m, messages, i + 1);
    }
  }

  // ---- the runs behind recovery and the live loop

  /** Recovering from what the log was at some moment, with callers writing before and after, is a restart. */
  lemma RestartRuns(env: Env, honest: bool, log0: Log, own: set<nat>, known: Log, log1: Log, sends: seq<Delivery>, m: Mem)
    requires log0 <= known <= log1 && Grew(env, honest, log0, own, log1, own) && Recover(env.site, known) == Ok(m)
    ensures Refines(env, honest, State(log0, sends, Down), State(log1, sends, Up(m, |known|, Idle)))
  {
    hide Attributed, Recover, CallerOk, Reaches;
    if honest {
      var a, b, c := State(log0, sends, Down), State(known, sends, Down), State(known, sends, Up(m, |known|, Idle));
      NewIsCallers(env, log0, log1, own);
      assert log1[..|known|] == known && log1[..|log0|] == log0 && log1[..|log1|] == log1;
      ReachAppends(env, a, log1, |known|);
      assert Step(env, b, Restart, c);
      ReachStep(env, b, Restart, c);
      ReachTrans(env, a, b, c);
      ReachAppends(env, c, log1, |log1|);
      ReachTrans(env, a, c, State(log1, sends, Up(m, |known|, Idle)));
    }
  }

  /** Handling a window of the log is a run. */
  lemma WindowRuns(env: Env, honest: bool, log: Log, sends: seq<Delivery>, m: Mem, next: Mem, a: nat, b: nat)
    requires Increasing(log) && a <= b
    requires LiveAll(env.site, m, Between(log, a, b, env.site.ix.Channels())) == Ok(next)
    ensures Refines(env, honest, State(log, sends, Up(m, Below(log, a), Idle)),
            State(log, sends, Up(next, Below(log, b), Idle)))
  {
    hide Reaches, Inv, LiveAll;
    BelowMonotone(log, a, b);
    ReachFetches(env, log, sends, m, next, Below(log, a), Below(log, b));
  }

  /** In a good state any number of the next entries is accepted by the live loop. */
  lemma {:induction false} LiveAllOk(env: Env, log: Log, sends: seq<Delivery>, m: Mem, i: nat, j: nat)
    requires env.Sound() && i <= j <= |log| && Inv(env, State(log, sends, Up(m, i, Idle)))
    ensures LiveAll(env.site, m, Select(log[i..j], env.site.ix.Channels())).Ok?
    decreases j
  {
    hide Inv, Live, Reaches;
    if i == j {
      assert log[i..j] == [];
    } else {
      LiveAllOk(env, log, sends, m, i, j - 1);
      var before := LiveAll(env.site, m, Select(log[i..j - 1], env.site.ix.Channels())).value;
      ReachFetches(env, log, sends, m, before, i, j - 1);
      ReachKeeps(env, State(log, sends, Up(m, i, Idle)), State(log, sends, Up(before, j - 1, Idle)));
      if Owned(env.site, log[j - 1]) {
        LiveNeverFaults(env, State(log, sends, Up(before, j - 1, Idle)));
      }
      LiveLast(env.site, log, m, i, j);
    }
  }

  /** So a fault in the live loop means that somebody did not keep to their contract. */
  lemma FaultMeansInsane(env: Env, trusted: bool, origin: State, s: State, mark: nat, upto: nat)
    requires s.worker.Up? && s.worker.phase.Idle? && s.worker.n == Below(s.log, mark) && mark <= upto
             && Refines(env, trusted, origin, s)
    requires LiveAll(env.site, s.worker.m, Between(s.log, mark, upto, env.site.ix.Channels())).Err?
    ensures !(trusted && env.Sound() && Inv(env, origin))
  {
    hide Inv, Reaches, LiveAll;
    if trusted && env.Sound() && Inv(env, origin) {
      ReachKeeps(env, origin, s);
      BelowMonotone(s.log, mark, upto);
      LiveAllOk(env, s.log, s.sends, s.worker.m, Below(s.log, mark), Below(s.log, upto));
    }
  }

  /** And so does a fault in the scan. */
  lemma ScanFaultMeansInsane(env: Env, trusted: bool, origin: State, log: Log)
    requires Refines(env, trusted, origin, origin.(log := log)) && !Accepted(env.site, log)
    ensures !(trusted && env.Sound() && Inv(env, origin))
  {
    hide Reaches, Recover, Accepted;
    if trusted && env.Sound() && Inv(env, origin) {
      ReachKeeps(env, origin, origin.(log := log));
      GoodRecovers(env, log);
      RecoveryMeansLog(env.site, log);
    }
  }
}
