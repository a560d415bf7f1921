/**
 A scan that was told to end too early: what the worker knows once its live
 loop has read the rest, and when that is as good as a recovery.
 */
module Stale {
  import opened Common
  import opened Wire
  import opened Memory
  import opened Queue
  import opened Replay
  import opened System
  import opened Safety
  import opened Refine
  import opened Reading

  /** The memory after a scan of the first `i` entries, with the rest read by the live loop. */
  function ReadLive(site: Site, log: Log, i: nat, j: nat): Result<Mem, Fault>
    requires i <= j <= |log|
  {
    match Recover(site, log[..i])
    case Err(e) => Err(e)
    case Ok(m) => LiveAll(site, m, Select(log[i..j], site.ix.Channels()))
  }

  /** Entry `i` says something that only a scan takes in: the first result of a request, or a record of a new
      message or with a later event time. */
  predicate News(site: Site, log: Log, i: nat)
    requires i < |log|
  {
    var before, msg := log[..i], log[i];
    Owned(site, msg)
    && match msg.payload
       case SendResult(id, _, _, _, _) => FirstResult(site, before, id) == None
       case SyncRecord(_, _, _, _, ms, _, _, _, _) =>
         !SeenIn(site, before, RecordKey(site, msg)) || Later(LatestIn(site, before, msg.channelId), ms)
       case _ => false
  }

  predicate Later(latest: Option<int>, ms: int) { latest.None? || latest.value < ms }

  // ---- the memory

  /** Only what is known about requests differs. */
  predicate OnlyTasks(m: Mem, next: Mem) {
    next == m.(canonical := next.canonical, requests := next.requests, heap := next.heap)
  }

  /** The live loop takes any acceptable log, and learns its requests and nothing else. */
  lemma {:induction false} LiveLearns(site: Site, log: Log, m: Mem, i: nat, j: nat)
    requires i <= j <= |log| && Accepted(site, log) && TasksAgree(site, m.canonical, log[..i]) && m.Partition()
    ensures var r := LiveAll(site, m, Select(log[i..j], site.ix.Channels()));
            r.Ok? && OnlyTasks(m, r.value) && TasksAgree(site, r.value.canonical, log[..j]) && r.value.Partition()
    decreases j
  {
    hide Mem.Partition, Live, Accepted, EntryOk, TasksAgree;
    if i == j {
      assert log[i..j] == [];
    } else {
      LiveLearns(site, log, m, i, j - 1);
      var before := LiveAll(site, m, Select(log[i..j - 1], site.ix.Channels())).value;
      LiveLast(site, log, m, i, j);
      EntryAt(site, log, j - 1);
      assert log[..j] == log[..j - 1] + [log[j - 1]];
      LearnsOne(site, before, log[..j - 1], log[j - 1]);
    }
  }

  lemma EntryAt(site: Site, log: Log, i: nat)
    requires i < |log| && Accepted(site, log)
    ensures EntryOk(site, log[..i], log[i])
  {}

  lemma LearnsOne(site: Site, m: Mem, log: Log, msg: Message)
    requires TasksAgree(site, m.canonical, log) && m.Partition() && EntryOk(site, log, msg)
    ensures var r := if Owned(site, msg) then Live(site, m, msg) else Ok(m);
            r.Ok? && OnlyTasks(m, r.value) && TasksAgree(site, r.value.canonical, log + [msg]) && r.value.Partition()
  {
    hide Mem.Partition;
    if Owned(site, msg) && msg.payload.SendRequest? {
      assert Get(m.canonical, msg.payload.requestId) == FirstTask(site, log, msg.payload.requestId);
      TasksAgreeRequest(site, m, log, msg);
      RequestKeeps(m, msg);
      SameOtherwise(m, msg);
    } else {
      forall id ensures Get(m.canonical, id) == FirstTask(site, log + [msg], id) {
        GrowTask(site, log, msg, id);
      }
    }
  }

  // ---- the log

  /** Both logs say the same about results and records. */
  ghost predicate SaySame(site: Site, a: Log, b: Log) {
    && (forall id :: FirstResult(site, a, id).Some? <==> FirstResult(site, b, id).Some?)
    && (forall k :: SeenIn(site, a, k) <==> SeenIn(site, b, k))
    && (forall k :: LinkAt(site, a, k) == LinkAt(site, b, k))
    && (forall c :: LatestIn(site, a, c) == LatestIn(site, b, c))
  }

  /** Without news a longer log says the same. */
  lemma {:induction false} NoNews(site: Site, log: Log, i: nat, j: nat)
    requires i <= j <= |log| && forall k :: i <= k < j ==> !News(site, log, k)
    ensures SaySame(site, log[..i], log[..j])
    decreases j
  {
    if i < j {
      NoNews(site, log, i, j - 1);
      assert log[..j] == log[..j - 1] + [log[j - 1]];
      NothingNew(site, log[..j - 1], log[j - 1], log, j - 1);
    }
  }

  lemma NothingNew(site: Site, before: Log, msg: Message, log: Log, i: nat)
    requires i < |log| && before == log[..i] && msg == log[i] && !News(site, log, i)
    ensures SaySame(site, before, before + [msg])
  {
    var grown := before + [msg];
    forall id ensures FirstResult(site, before, id).Some? <==> FirstResult(site, grown, id).Some? {
      GrowResult(site, before, msg, id);
    }
    forall k ensures SeenIn(site, before, k) <==> SeenIn(site, grown, k) { GrowSeen(site, before, msg, k); }
    forall k ensures LinkAt(site, before, k) == LinkAt(site, grown, k) { GrowLink(site, before, msg, k); }
    forall c ensures LatestIn(site, before, c) == LatestIn(site, grown, c) {
      GrowLatest(site, before, msg, c);
      if IsRecordOf(site, msg, c) { SeenHasLatest(site, before, RecordKey(site, msg)); }
    }
  }

  /** A channel with a record has a latest time. */
  lemma SeenHasLatest(site: Site, log: Log, k: InboundKey)
    requires SeenIn(site, log, k)
    ensures LatestIn(site, log, k.2).Some?
  {
    SeenMeaning(site, log, k);
    LatestMeaning(site, log, k.2);
    var i :| 0 <= i < |log| && IsRecord(site, log[i], k);
    assert IsRecordOf(site, log[i], k.2);
  }

  /** News makes a difference for good. */
  lemma NewsShows(site: Site, log: Log, i: nat, k: nat)
    requires i <= k < |log| && News(site, log, k)
    ensures !SaySame(site, log[..i], log)
  {
    var msg := log[k];
    if msg.payload.SendResult? {
      var id := msg.payload.requestId;
      FirstResultMeaning(site, log, id);
      FirstResultMeaning(site, log[..k], id);
      FirstResultMeaning(site, log[..i], id);
      assert IsResult(site, log[k], id);
      assert forall n :: 0 <= n < i ==> log[..i][n] == log[..k][n];
    } else {
      RecordShows(site, log, i, k);
    }
  }

  lemma RecordShows(site: Site, log: Log, i: nat, k: nat)
    requires i <= k < |log| && News(site, log, k) && log[k].payload.SyncRecord?
    ensures !SaySame(site, log[..i], log)
  {
    var msg, key := log[k], RecordKey(site, log[k]);
    SeenMeaning(site, log, key);
    SeenMeaning(site, log[..i], key);
    SeenMeaning(site, log[..k], key);
    assert IsRecord(site, log[k], key) && IsRecordOf(site, log[k], msg.channelId);
    assert forall n :: 0 <= n < i ==> log[..i][n] == log[n] == log[..k][n];
    if SeenIn(site, log[..i], key) {
      SeenHasLatest(site, log[..k], key);
      LatestMeaning(site, log, msg.channelId);
      LatestMeaning(site, log[..i], msg.channelId);
      LatestMeaning(site, log[..k], msg.channelId);
    }
  }

  // ---- the two together

  /**
   After a scan that ended at entry `i` and a live loop that read the rest, the memory agrees with the log
   exactly when nothing past `i` was news.
   */
  lemma StaleAgrees(site: Site, log: Log, i: nat)
    requires Accepted(site, log) && i <= |log|
    ensures var r := ReadLive(site, log, i, |log|);
            r.Ok? && (Agrees(site, r.value, log, |log|) <==> forall k :: i <= k < |log| ==> !News(site, log, k))
  {
    hide Recover, Accepted, LiveAll, News;
    AcceptedPrefix(site, log, i);
    RecoveryMeansLog(site, log[..i]);
    var m := Recover(site, log[..i]).value;
    assert log[..i][..i] == log[..i];
    LiveLearns(site, log, m, i, |log|);
    assert log[..|log|] == log;
    var next := ReadLive(site, log, i, |log|).value;
    AgreesMeans(site, m, next, log[..i], log);
    if forall k :: i <= k < |log| ==> !News(site, log, k) {
      NoNews(site, log, i, |log|);
    } else {
      var k :| i <= k < |log| && News(site, log, k);
      NewsShows(site, log, i, k);
    }
  }

  lemma AgreesMeans(site: Site, m: Mem, next: Mem, a: Log, b: Log)
    requires Agrees(site, m, a, |a|) && OnlyTasks(m, next) && TasksAgree(site, next.canonical, b) && next.Partition()
    ensures Agrees(site, next, b, |b|) <==> SaySame(site, a, b)
  {
    assert b[..|b|] == b;
    if Agrees(site, next, b, |b|) {
      forall c ensures LatestIn(site, a, c) == LatestIn(site, b, c) { assert Get(m.latest, c) == LatestIn(site, a, c); }
      forall k ensures LinkAt(site, a, k) == LinkAt(site, b, k) { assert Get(m.links, k) == LinkAt(site, a, k); }
    }
    if SaySame(site, a, b) {
      forall c ensures Get(next.latest, c) == LatestIn(site, b, c) { assert Get(m.latest, c) == LatestIn(site, a, c); }
      forall k ensures Get(next.links, k) == LinkAt(site, b, k) { assert Get(m.links, k) == LinkAt(site, a, k); }
    }
  }

  // ---- the run

  /** On requests the live loop does what the scan does. */
  lemma {:induction false} LiveIsScan(site: Site, m: Mem, msgs: Log)
    requires forall msg :: msg in msgs ==> msg.payload.SendRequest?
    ensures LiveAll(site, m, msgs) == ProcessAll(site, m, msgs)
  {
    if msgs != [] {
      LiveIsScan(site, m, msgs[..|msgs| - 1]);
      assert msgs[|msgs| - 1] in msgs;
    }
  }

  /**
   Once it has read everything, a worker whose scan was told to end at entry `i` of a good log is where some
   run of the system leads exactly when every owned entry past `i` is a request; then it is as if the scan had
   gone to the end.
   */
  lemma StaleScanRuns(env: Env, s: State, i: nat)
    requires env.Sound() && Inv(env, s) && s.worker.Down? && i <= |s.log|
    ensures var r := ReadLive(env.site, s.log, i, |s.log|);
            r.Ok? && (Reaches(env, s, s.(worker := Up(r.value, |s.log|, Idle))) <==> OnlyRequests(env.site, s.log, i))
    ensures OnlyRequests(env.site, s.log, i) ==> ReadLive(env.site, s.log, i, |s.log|) == Recover(env.site, s.log)
  {
    hide Recover, Accepted, LiveAll, News, Reaches, Agrees;
    GoodRecovers(env, s.log);
    RecoveryMeansLog(env.site, s.log);
    StaleAgrees(env.site, s.log, i);
    var t := s.(worker := Up(ReadLive(env.site, s.log, i, |s.log|).value, |s.log|, Idle));
    if OnlyRequests(env.site, s.log, i) {
      AsRecovered(env.site, s.log, i);
      assert Step(env, s, Restart, t);
      ReachStep(env, s, Restart, t);
    } else {
      var k :| i <= k < |s.log| && Owned(env.site, s.log[k]) && !s.log[k].payload.SendRequest?;
      assert EntryGood(env, s.log[..k], s.log[k]);
      assert News(env.site, s.log, k) by { IsNews(env, s.log, k); }
      if Reaches(env, s, t) {
        ReachKeeps(env, s, t);
      }
    }
  }

  predicate OnlyRequests(site: Site, log: Log, i: nat) {
    forall k :: i <= k < |log| && Owned(site, log[k]) ==> log[k].payload.SendRequest?
  }

  /** In a good log every result and every record is news. */
  lemma IsNews(env: Env, log: Log, k: nat)
    requires k < |log| && EntryGood(env, log[..k], log[k]) && Owned(env.site, log[k]) && !log[k].payload.SendRequest?
    ensures News(env.site, log, k)
  {}

  lemma AsRecovered(site: Site, log: Log, i: nat)
    requires i <= |log| && OnlyRequests(site, log, i) && Recover(site, log[..i]).Ok?
    ensures ReadLive(site, log, i, |log|) == Recover(site, log)
  {
    hide Recover;
    assert log == log[..i] + log[i..];
    RecoverOn(site, log[..i], log[i..], Recover(site, log[..i]).value);
    var rest := Select(log[i..], site.ix.Channels());
    SelectMembers(log[i..], site.ix.Channels());
    forall msg | msg in rest ensures msg.payload.SendRequest? {
      var k :| 0 <= k < |log[i..]| && log[i..][k] == msg;
      assert log[i + k] == msg;
    }
    LiveIsScan(site, Recover(site, log[..i]).value, rest);
    assert log[i..|log|] == log[i..];
  }

  /**
   Here it matters: a request and its result, with a scan told to end between them. The log is recovered with
   nothing left to send; the worker that was told less goes on to send the request again.
   */
  lemma AnsweredStaysLive(site: Site, c: nat, principal: nat) returns (log: Log, t: Task)
    requires site.ix.Owns(c)
    ensures |log| == 2 && Increasing(log) && log[0].payload.SendRequest? && TaskOf(log[0]) == t
    ensures FirstResult(site, log, t.requestId).Some?
    ensures Recover(site, log).Ok? && Recover(site, log).value.requests == map[]
    ensures ReadLive(site, log, 1, 2).Ok?
    ensures var m := ReadLive(site, log, 1, 2).value; NextPending(m, m.(heap := multiset{}, blocked := map[c := "r"]),
            Some(t))
  {
    var request := Message(1, c, principal, [], SendRequest("r", "text", JsonObject(map[]), 0, None));
    var result := Message(2, c, site.worker, [principal], SendResult("r", 1, Success, Some("m"), 0));
    log, t := [request, result], TaskOf(request);
    OneRequest(site, request);
    OneResult(site, request, result);
    RestIsResult(site, request, result);
  }

  lemma OneRequest(site: Site, request: Message)
    requires Owned(site, request) && request.payload.SendRequest? && request.payload.Parses()
    ensures Recover(site, [request])
            == Ok(EMPTY_MEM.(canonical := map[request.payload.requestId := TaskOf(request)],
                             requests := map[request.payload.requestId := TaskOf(request)],
                             heap := multiset{TaskOf(request).Item()}))
  {
    assert [request][..0] == [];
    assert EMPTY_MEM.heap + multiset{TaskOf(request).Item()} == multiset{TaskOf(request).Item()};
    assert EMPTY_MEM.requests[request.payload.requestId := TaskOf(request)]
        == map[request.payload.requestId := TaskOf(request)];
  }

  lemma OneResult(site: Site, request: Message, result: Message)
    requires Owned(site, request) && request.payload.SendRequest? && request.payload.Parses()
    requires Owned(site, result) && result.payload.SendResult? && result.payload.Parses() && RolesOk(site, result)
    requires result.payload.requestId == request.payload.requestId && Answers(TaskOf(request), result)
    ensures FirstResult(site, [request, result], result.payload.requestId).Some?
    ensures Recover(site, [request, result]).Ok? && Recover(site, [request, result]).value.requests == map[]
  {
    OneRequest(site, request);
    assert [request, result][..1] == [request];
  }

  /** The live loop passes over a result. */
  lemma RestIsResult(site: Site, request: Message, result: Message)
    requires Owned(site, result) && result.payload.SendResult? && result.payload.Parses() && RolesOk(site, result)
    ensures Recover(site, [request]).Ok? ==> ReadLive(site, [request, result], 1, 2) == Recover(site, [request])
  {
    assert [request, result][..1] == [request] && [request, result][1..2] == [result];
    assert Select([result], site.ix.Channels()) == [result] by {
      assert [result][..0] == [];
    }
    hide Recover, RequestAdded, Owned, RolesOk, Payload.Parses, Select;
    if Recover(site, [request]).Ok? {
      var m := Recover(site, [request]).value;
      assert LiveAll(site, m, []) == Ok(m);
      assert [result][..0] == [];
      assert LiveAll(site, m, [result]) == Live(site, m, result) == Ok(m);
    }
  }
}
