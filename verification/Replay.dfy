/**
 Recovery: the memory rebuilt by folding over the log, and what that memory
 means in terms of the log alone.
 */
module Replay {
  import opened Common
  import opened Wire
  import opened Mapping
  import opened Memory
  import opened Queue

  datatype Site = Site(ix: Index, worker: nat)

  datatype Fault = ParseFault | RoleFault | StateFault(conflict: Conflict)

  predicate Owned(site: Site, msg: Message) { site.ix.Owns(msg.channelId) }

  /** `_validate_message_roles`. */
  predicate RolesOk(site: Site, msg: Message) {
    match msg.payload
    case SyncRecord(_, _, _, _, _, _, _, _, _) =>
      && msg.principal in site.ix.Participants(msg.channelId)
      && msg.recipients == site.ix.PeerPrincipals(msg.channelId, msg.principal)
    case SendResult(_, _, _, _, _) => msg.principal == site.worker
    case _ => true
  }

  function Lift(r: Result<Mem, Conflict>): Result<Mem, Fault> {
    match r
    case Ok(m) => Ok(m)
    case Err(c) => Err(StateFault(c))
  }

  /** `_process_history_message`. */
  function Process(site: Site, m: Mem, msg: Message): Result<Mem, Fault> {
    if !msg.payload.Parses() then Err(ParseFault)
    else if !Owned(site, msg) then Ok(m)
    else if !RolesOk(site, msg) then Err(RoleFault)
    else match msg.payload
      case SendRequest(_, _, _, _, _) => Lift(RequestAdded(m, msg))
      case SendResult(_, _, _, _, _) => Lift(ResultAdded(m, msg, site.ix.Session(msg.channelId)))
      case SyncRecord(_, _, _, _, _, _, _, _, _) => Lift(RecordAdded(m, msg, site.ix.Session(msg.channelId)))
  }

  /** The history scan as a fold; entries of other channels are never fetched. */
  function Recover(site: Site, log: Log): Result<Mem, Fault> {
    if log == [] then Ok(EMPTY_MEM)
    else
      match Recover(site, log[..|log| - 1])
      case Err(e) => Err(e)
      case Ok(m) =>
        var msg := log[|log| - 1];
        if Owned(site, msg) then Process(site, m, msg) else Ok(m)
  }

  // ---- what a log says, without any memory

  predicate IsRequest(site: Site, msg: Message, id: string) {
    Owned(site, msg) && msg.payload.SendRequest? && msg.payload.requestId == id
  }

  predicate IsResult(site: Site, msg: Message, id: string) {
    Owned(site, msg) && msg.payload.SendResult? && msg.payload.requestId == id
  }

  function RecordKey(site: Site, msg: Message): InboundKey
    requires msg.payload.SyncRecord?
  {
    var s := site.ix.Session(msg.channelId);
    (s.0, s.1, msg.channelId, msg.payload.messageId)
  }

  predicate IsRecord(site: Site, msg: Message, k: InboundKey) {
    Owned(site, msg) && msg.payload.SyncRecord? && RecordKey(site, msg) == k
  }

  /** The message links a provider message to itself, when nothing in `before` answers the same request. */
  predicate Links(site: Site, before: Log, msg: Message, k: InboundKey) {
    && Owned(site, msg) && msg.payload.SendResult?
    && FirstResult(site, before, msg.payload.requestId) == None
    && LinkKey(msg, site.ix.Session(msg.channelId)) == Some(k)
  }

  function FirstTask(site: Site, log: Log, id: string): Option<Task> {
    if log == [] then None
    else
      var earlier := FirstTask(site, log[..|log| - 1], id);
      var msg := log[|log| - 1];
      if earlier.Some? then earlier else if IsRequest(site, msg, id) then Some(TaskOf(msg)) else None
  }

  function FirstResult(site: Site, log: Log, id: string): Option<TerminalResult> {
    if log == [] then None
    else
      var earlier := FirstResult(site, log[..|log| - 1], id);
      var msg := log[|log| - 1];
      if earlier.Some? then earlier else if IsResult(site, msg, id) then Some(ResultOf(msg)) else None
  }

  function LinkAt(site: Site, log: Log, k: InboundKey): Option<nat> {
    if log == [] then None
    else
      var before := log[..|log| - 1];
      var msg := log[|log| - 1];
      if Links(site, before, msg, k) then Some(msg.sn) else LinkAt(site, before, k)
  }

  predicate SeenIn(site: Site, log: Log, k: InboundKey) {
    log != [] && (IsRecord(site, log[|log| - 1], k) || SeenIn(site, log[..|log| - 1], k))
  }

  predicate IsRecordOf(site: Site, msg: Message, c: nat) {
    Owned(site, msg) && msg.payload.SyncRecord? && msg.channelId == c
  }

  function LatestIn(site: Site, log: Log, c: nat): Option<int> {
    if log == [] then None
    else
      var before := LatestIn(site, log[..|log| - 1], c);
      var msg := log[|log| - 1];
      if !IsRecordOf(site, msg, c) then before
      else if before.Some? then Some(Max(before.value, msg.payload.eventMs))
      else Some(msg.payload.eventMs)
  }

  // ---- the same, as statements about positions

  lemma {:induction false} FirstTaskMeaning(site: Site, log: Log, id: string)
    ensures match FirstTask(site, log, id)
            case None => forall i :: 0 <= i < |log| ==> !IsRequest(site, log[i], id)
            case Some(t) => exists i :: 0 <= i < |log| && IsRequest(site, log[i], id) && TaskOf(log[i]) == t
                                        && forall j :: 0 <= j < i ==> !IsRequest(site, log[j], id)
  {
    if log != [] {
      var before := log[..|log| - 1];
      FirstTaskMeaning(site, before, id);
      match FirstTask(site, before, id) {
        case None =>
          assert forall i :: 0 <= i < |before| ==> before[i] == log[i];
          assert IsRequest(site, log[|log| - 1], id) || !IsRequest(site, log[|log| - 1], id);
        case Some(t) =>
          var i :| 0 <= i < |before| && IsRequest(site, before[i], id) && TaskOf(before[i]) == t
                   && forall j :: 0 <= j < i ==> !IsRequest(site, before[j], id);
          assert log[i] == before[i] && forall j :: 0 <= j < i ==> log[j] == before[j];
      }
    }
  }

  lemma {:induction false} FirstResultMeaning(site: Site, log: Log, id: string)
    ensures match FirstResult(site, log, id)
            case None => forall i :: 0 <= i < |log| ==> !IsResult(site, log[i], id)
            case Some(r) => exists i :: 0 <= i < |log| && IsResult(site, log[i], id) && ResultOf(log[i]) == r
                                        && forall j :: 0 <= j < i ==> !IsResult(site, log[j], id)
  {
    if log != [] {
      var before := log[..|log| - 1];
      FirstResultMeaning(site, before, id);
      match FirstResult(site, before, id) {
        case None =>
          assert forall i :: 0 <= i < |before| ==> before[i] == log[i];
          assert IsResult(site, log[|log| - 1], id) || !IsResult(site, log[|log| - 1], id);
        case Some(r) =>
          var i :| 0 <= i < |before| && IsResult(site, before[i], id) && ResultOf(before[i]) == r
                   && forall j :: 0 <= j < i ==> !IsResult(site, before[j], id);
          assert log[i] == before[i] && forall j :: 0 <= j < i ==> log[j] == before[j];
      }
    }
  }

  /** Entry `i` links `k`, given the entries before it. */
  predicate LinksAt(site: Site, log: Log, i: nat, k: InboundKey)
    requires i < |log|
  {
    Links(site, log[..i], log[i], k)
  }

  /** Entry `i` is the last one that links `k`. */
  ghost predicate LastLink(site: Site, log: Log, i: nat, k: InboundKey)
    requires i < |log|
  {
    LinksAt(site, log, i, k) && forall j :: i < j < |log| ==> !LinksAt(site, log, j, k)
  }

  lemma LinksAtPrefix(site: Site, log: Log, n: nat, i: nat, k: InboundKey)
    requires i < n <= |log|
    ensures LinksAt(site, log[..n], i, k) == LinksAt(site, log, i, k)
  {
    assert log[..n][..i] == log[..i];
  }

  /** The link of a key is the last linking result. */
  lemma {:induction false} LinkMeaning(site: Site, log: Log, k: InboundKey)
    ensures LinkAt(site, log, k) == None ==> forall i :: 0 <= i < |log| ==> !LinksAt(site, log, i, k)
    ensures LinkAt(site, log, k).Some? ==>
              exists i :: 0 <= i < |log| && LastLink(site, log, i, k) && log[i].sn == LinkAt(site, log, k).value
  {
    if log != [] {
      var last := |log| - 1;
      LinkMeaning(site, log[..last], k);
      forall i | 0 <= i < last ensures LinksAt(site, log[..last], i, k) == LinksAt(site, log, i, k) {
        LinksAtPrefix(site, log, last, i, k);
      }
      if LinksAt(site, log, last, k) {
        assert LastLink(site, log, last, k);
      } else if LinkAt(site, log[..last], k).Some? {
        var i :| 0 <= i < last && LastLink(site, log[..last], i, k)
            && log[..last][i].sn == LinkAt(site, log[..last], k).value;
        assert LastLink(site, log, i, k);
      }
    }
  }

  lemma {:induction false} SeenMeaning(site: Site, log: Log, k: InboundKey)
    ensures SeenIn(site, log, k) <==> exists i :: 0 <= i < |log| && IsRecord(site, log[i], k)
  {
    if log != [] {
      var before := log[..|log| - 1];
      SeenMeaning(site, before, k);
      assert forall i :: 0 <= i < |before| ==> before[i] == log[i];
      if i :| 0 <= i < |before| && IsRecord(site, before[i], k) {
        assert IsRecord(site, log[i], k);
      }
    }
  }

  /** The greatest event time among a channel's records. */
  lemma {:induction false} LatestMeaning(site: Site, log: Log, c: nat)
    ensures match LatestIn(site, log, c)
            case None => forall i :: 0 <= i < |log| ==> !IsRecordOf(site, log[i], c)
            case Some(ms) =>
              && (forall i :: 0 <= i < |log| && IsRecordOf(site, log[i], c) ==> log[i].payload.eventMs <= ms)
              && exists i :: 0 <= i < |log| && IsRecordOf(site, log[i], c) && log[i].payload.eventMs == ms
  {
    if log != [] {
      var before, last := log[..|log| - 1], |log| - 1;
      LatestMeaning(site, before, c);
      assert forall i :: 0 <= i < last ==> before[i] == log[i];
      if LatestIn(site, before, c).Some? {
        var ms := LatestIn(site, before, c).value;
        var i :| 0 <= i < |before| && IsRecordOf(site, before[i], c) && before[i].payload.eventMs == ms;
        assert IsRecordOf(site, log[i], c) && log[i].payload.eventMs == ms;
      }
      assert IsRecordOf(site, log[last], c) || !IsRecordOf(site, log[last], c);
    }
  }

  // ---- how one more entry changes what the log says

  lemma GrowTask(site: Site, log: Log, msg: Message, id: string)
    ensures FirstTask(site, log + [msg], id)
            == if FirstTask(site, log, id).None?
                && IsRequest(site, msg, id) then Some(TaskOf(msg)) else FirstTask(site, log, id)
  {
    assert (log + [msg])[..|log|] == log;
  }

  lemma GrowResult(site: Site, log: Log, msg: Message, id: string)
    ensures FirstResult(site, log + [msg], id)
            == if FirstResult(site, log, id).None?
                && IsResult(site, msg, id) then Some(ResultOf(msg)) else FirstResult(site, log, id)
  {
    assert (log + [msg])[..|log|] == log;
  }

  lemma GrowLink(site: Site, log: Log, msg: Message, k: InboundKey)
    ensures LinkAt(site, log + [msg], k) == if Links(site, log, msg, k) then Some(msg.sn) else LinkAt(site, log, k)
  {
    assert (log + [msg])[..|log|] == log;
  }

  lemma GrowSeen(site: Site, log: Log, msg: Message, k: InboundKey)
    ensures SeenIn(site, log + [msg], k) <==> SeenIn(site, log, k) || IsRecord(site, msg, k)
  {
    assert (log + [msg])[..|log|] == log;
  }

  lemma GrowLatest(site: Site, log: Log, msg: Message, c: nat)
    ensures LatestIn(site, log + [msg], c)
            == if !IsRecordOf(site, msg, c) then LatestIn(site, log, c)
               else if LatestIn(site, log, c).Some? then Some(Max(LatestIn(site, log, c).value, msg.payload.eventMs))
               else Some(msg.payload.eventMs)
  {
    assert (log + [msg])[..|log|] == log;
  }

  // ---- the memory means the log

  ghost predicate TasksAgree(site: Site, canonical: map<string, Task>, log: Log) {
    forall id :: Get(canonical, id) == FirstTask(site, log, id)
  }

  ghost predicate DoneAgrees(site: Site, completed: set<string>, log: Log) {
    forall id :: id in completed <==> FirstResult(site, log, id).Some?
  }

  ghost predicate SeenAgrees(site: Site, seen: set<InboundKey>, log: Log) {
    forall k :: k in seen <==> SeenIn(site, log, k)
  }

  ghost predicate LinksAgree(site: Site, links: map<InboundKey, nat>, log: Log) {
    forall k :: Get(links, k) == LinkAt(site, log, k)
  }

  ghost predicate LatestAgrees(site: Site, latest: map<nat, int>, log: Log) {
    forall c :: Get(latest, c) == LatestIn(site, log, c)
  }

  /** The memory says what `log` says, where requests are known only from its first `n` entries. */
  ghost predicate Agrees(site: Site, m: Mem, log: Log, n: nat)
    requires n <= |log|
  {
    && TasksAgree(site, m.canonical, log[..n])
    && DoneAgrees(site, m.completed, log)
    && SeenAgrees(site, m.inboundSeen, log)
    && LinksAgree(site, m.links, log)
    && LatestAgrees(site, m.latest, log)
    && m.Partition()
  }

  /** The memory right after a recovery from `log`. */
  ghost predicate Rebuilt(site: Site, m: Mem, log: Log) {
    && Agrees(site, m, log, |log|)
    && (forall id :: Get(m.terminal, id) == FirstResult(site, log, id))
    && m.blocked == map[]
  }

  /** An entry that is neither a result nor a record of an owned channel. */
  predicate Quiet(site: Site, msg: Message) {
    Owned(site, msg) ==> msg.payload.SendRequest? || msg.payload.Garbage?
  }

  /** Such an entry changes nothing until it is fetched. */
  lemma AgreesQuiet(site: Site, m: Mem, log: Log, n: nat, msg: Message)
    requires n <= |log| && Agrees(site, m, log, n) && Quiet(site, msg)
    ensures Agrees(site, m, log + [msg], n)
  {
    assert (log + [msg])[..n] == log[..n];
    forall id ensures FirstResult(site, log + [msg], id) == FirstResult(site, log, id) { GrowResult(site, log, msg, id); }
    forall k ensures SeenIn(site, log + [msg], k) == SeenIn(site, log, k) { GrowSeen(site, log, msg, k); }
    forall k ensures LinkAt(site, log + [msg], k) == LinkAt(site, log, k) { GrowLink(site, log, msg, k); }
    forall c ensures LatestIn(site, log + [msg], c) == LatestIn(site, log, c) { GrowLatest(site, log, msg, c); }
  }

  lemma TasksAgreeRequest(site: Site, m: Mem, log: Log, msg: Message)
    requires TasksAgree(site, m.canonical, log)
    requires Owned(site, msg) && msg.payload.SendRequest? && RequestAdded(m, msg).Ok?
    ensures TasksAgree(site, RequestAdded(m, msg).value.canonical, log + [msg])
  {
    forall id ensures Get(RequestAdded(m, msg).value.canonical, id) == FirstTask(site, log + [msg], id) {
      assert Get(m.canonical, id) == FirstTask(site, log, id);
      GrowTask(site, log, msg, id);
    }
  }

  /** Only what is known about requests changes. */
  lemma AgreesTasks(site: Site, m: Mem, next: Mem, log: Log, n: nat, k: nat)
    requires n <= |log| && k <= |log| && Agrees(site, m, log, n)
    requires next.completed == m.completed && next.inboundSeen == m.inboundSeen
    requires next.links == m.links && next.latest == m.latest
    requires TasksAgree(site, next.canonical, log[..k]) && next.Partition()
    ensures Agrees(site, next, log, k)
  {}

  lemma SameOtherwise(m: Mem, msg: Message)
    requires msg.payload.SendRequest? && RequestAdded(m, msg).Ok?
    ensures var next := RequestAdded(m, msg).value;
            && next.completed == m.completed && next.inboundSeen == m.inboundSeen
            && next.links == m.links && next.latest == m.latest
            && next.terminal == m.terminal && next.blocked == m.blocked
  {
    hide SameRequest;
    var id := TaskOf(msg).requestId;
    if id in m.canonical {
      assert RequestAdded(m, msg).value == m;
    } else {
      assert RequestAdded(m, msg).value
          == m.(canonical := RequestAdded(m, msg).value.canonical, requests := RequestAdded(m, msg).value.requests,
                heap := RequestAdded(m, msg).value.heap);
    }
  }

  /** Fetching a request adds it. */
  lemma AgreesFetchRequest(site: Site, m: Mem, next: Mem, log: Log, n: nat)
    requires n < |log| && Agrees(site, m, log, n)
    requires Owned(site, log[n]) && log[n].payload.SendRequest? && RequestAdded(m, log[n]) == Ok(next)
    ensures Agrees(site, next, log, n + 1)
  {
    assert next.Partition() by { RequestKeeps(m, log[n]); }
    assert TasksAgree(site, next.canonical, log[..n + 1]) by {
      TasksAgreeRequest(site, m, log[..n], log[n]);
      assert log[..n + 1] == log[..n] + [log[n]];
    }
    SameOtherwise(m, log[n]);
    AgreesTasks(site, m, next, log, n, n + 1);
  }

  /** Fetching anything else changes nothing. */
  lemma AgreesFetchOther(site: Site, m: Mem, log: Log, n: nat)
    requires n < |log| && Agrees(site, m, log, n)
    requires !(Owned(site, log[n]) && log[n].payload.SendRequest?)
    ensures Agrees(site, m, log, n + 1)
  {
    assert log[..n + 1] == log[..n] + [log[n]];
    forall id ensures Get(m.canonical, id) == FirstTask(site, log[..n + 1], id) {
      assert Get(m.canonical, id) == FirstTask(site, log[..n], id);
      GrowTask(site, log[..n], log[n], id);
    }
  }

  /** The memory after the result `sn` of task `t`, linked under `k` if it names a provider message. */
  function Answered(m: Mem, t: Task, k: Option<InboundKey>, sn: nat): Mem {
    var done := Unblock(Complete(m, t.requestId), t.channelId, t.requestId);
    if k.Some? then done.(links := done.links[k.value := sn]) else done
  }

  /** Appending the first result of a known request. */
  lemma AgreesResult(site: Site, m: Mem, log: Log, n: nat, msg: Message, t: Task)
    requires n <= |log| && Agrees(site, m, log, n)
    requires Owned(site, msg) && msg.payload.SendResult? && FirstResult(site, log, msg.payload.requestId) == None
    requires Get(m.canonical, msg.payload.requestId) == Some(t) && t.requestId == msg.payload.requestId
    ensures Agrees(site, Answered(m, t, LinkKey(msg, site.ix.Session(msg.channelId)), msg.sn), log + [msg], n)
  {
    var grown, key := log + [msg], LinkKey(msg, site.ix.Session(msg.channelId));
    var next := Answered(m, t, key, msg.sn);
    assert grown[..n] == log[..n];
    forall id ensures id in next.completed <==> FirstResult(site, grown, id).Some? { GrowResult(site, log, msg, id); }
    forall k ensures SeenIn(site, grown, k) == SeenIn(site, log, k) { GrowSeen(site, log, msg, k); }
    forall k ensures Get(next.links, k) == LinkAt(site, grown, k) {
      GrowLink(site, log, msg, k);
      assert Get(m.links, k) == LinkAt(site, log, k);
    }
    forall c ensures LatestIn(site, grown, c) == LatestIn(site, log, c) { GrowLatest(site, log, msg, c); }
    CompleteKeeps(m, t);
    SameQueue(Unblock(Complete(m, t.requestId), t.channelId, t.requestId), next);
  }

  /** Appending a record. */
  lemma AgreesRecord(site: Site, m: Mem, log: Log, n: nat, msg: Message)
    requires n <= |log| && Agrees(site, m, log, n)
    requires Owned(site, msg) && msg.payload.SyncRecord?
    ensures Agrees(site, RecordMarked(m, RecordKey(site, msg), msg.channelId, msg.payload.eventMs), log + [msg], n)
  {
    var grown, key := log + [msg], RecordKey(site, msg);
    var next := RecordMarked(m, key, msg.channelId, msg.payload.eventMs);
    assert grown[..n] == log[..n];
    forall id ensures FirstResult(site, grown, id) == FirstResult(site, log, id) { GrowResult(site, log, msg, id); }
    forall k ensures k in next.inboundSeen <==> SeenIn(site, grown, k) { GrowSeen(site, log, msg, k); }
    forall k ensures LinkAt(site, grown, k) == LinkAt(site, log, k) { GrowLink(site, log, msg, k); }
    forall c ensures Get(next.latest, c) == LatestIn(site, grown, c) {
      GrowLatest(site, log, msg, c);
      assert Get(m.latest, c) == LatestIn(site, log, c);
    }
    RecordKeeps(m, key, msg.channelId, msg.payload.eventMs);
  }

  /** Appending a repeated result. */
  lemma AgreesRepeat(site: Site, m: Mem, log: Log, n: nat, msg: Message)
    requires n <= |log| && Agrees(site, m, log, n)
    requires msg.payload.SendResult? && FirstResult(site, log, msg.payload.requestId).Some?
    ensures Agrees(site, m, log + [msg], n)
  {
    assert (log + [msg])[..n] == log[..n];
    forall id ensures FirstResult(site, log + [msg], id) == FirstResult(site, log, id) { GrowResult(site, log, msg, id); }
    forall k ensures SeenIn(site, log + [msg], k) == SeenIn(site, log, k) { GrowSeen(site, log, msg, k); }
    forall k ensures LinkAt(site, log + [msg], k) == LinkAt(site, log, k) { GrowLink(site, log, msg, k); }
    forall c ensures LatestIn(site, log + [msg], c) == LatestIn(site, log, c) { GrowLatest(site, log, msg, c); }
  }

  // ---- which logs recover

  /** `msg` answers request `t`. */
  predicate Answers(t: Task, msg: Message)
    requires msg.payload.SendResult?
  {
    msg.payload.resultPrev == t.sn && msg.channelId == t.channelId && msg.recipients == [t.principal]
  }

  /** What a log entry must satisfy, given the entries before it. */
  predicate EntryOk(site: Site, before: Log, msg: Message) {
    Owned(site, msg) ==> msg.payload.Parses() && RolesOk(site, msg) && ContentOk(site, before, msg)
  }

  predicate ContentOk(site: Site, before: Log, msg: Message) {
    match msg.payload
    case SendRequest(id, _, _, _, _) =>
      var first := FirstTask(site, before, id);
      first.Some? ==> SameRequest(first.value, TaskOf(msg))
    case SendResult(id, _, _, _, _) =>
      var first := FirstResult(site, before, id);
      if first.Some? then SameResult(first.value, ResultOf(msg))
      else FirstTask(site, before, id).Some? && Answers(FirstTask(site, before, id).value, msg)
    case SyncRecord(_, _, _, _, _, _, prev, _, _) => prev == LinkAt(site, before, RecordKey(site, msg))
    case Garbage => false
  }

  ghost predicate Accepted(site: Site, log: Log) {
    forall i :: 0 <= i < |log| ==> EntryOk(site, log[..i], log[i])
  }

  lemma AcceptedPrefix(site: Site, log: Log, n: nat)
    requires Accepted(site, log) && n <= |log|
    ensures Accepted(site, log[..n])
  {
    assert forall i :: 0 <= i < n ==> log[..n][..i] == log[..i] && log[..n][i] == log[i];
  }

  lemma AcceptedGrows(site: Site, log: Log, msg: Message)
    ensures Accepted(site, log + [msg]) <==> Accepted(site, log) && EntryOk(site, log, msg)
  {
    var grown := log + [msg];
    assert forall i :: 0 <= i < |log| ==> grown[..i] == log[..i] && grown[i] == log[i];
    assert grown[..|log|] == log && grown[|log|] == msg;
    if Accepted(site, grown) {
      assert EntryOk(site, grown[..|log|], grown[|log|]);
      forall i | 0 <= i < |log| ensures EntryOk(site, log[..i], log[i]) {
        assert EntryOk(site, grown[..i], grown[i]);
      }
    }
  }

  lemma StepRequest(site: Site, m: Mem, log: Log, msg: Message)
    requires Rebuilt(site, m, log) && Owned(site, msg) && msg.payload.SendRequest?
    ensures RequestAdded(m, msg).Ok? <==> ContentOk(site, log, msg)
    ensures RequestAdded(m, msg).Ok? ==> Rebuilt(site, RequestAdded(m, msg).value, log + [msg])
  {
    var id := msg.payload.requestId;
    assert Get(m.canonical, id) == FirstTask(site, log, id) by { assert log[..|log|] == log; }
    if RequestAdded(m, msg).Ok? {
      StepRequestOk(site, m, RequestAdded(m, msg).value, log, msg);
    }
  }

  lemma StepRequestOk(site: Site, m: Mem, next: Mem, log: Log, msg: Message)
    requires Rebuilt(site, m, log) && Owned(site, msg) && msg.payload.SendRequest? && RequestAdded(m, msg) == Ok(next)
    ensures Rebuilt(site, next, log + [msg])
  {
    var grown := log + [msg];
    assert grown[|log|] == msg;
    AgreesQuiet(site, m, log, |log|, msg);
    assert Agrees(site, next, grown, |grown|) by { AgreesFetchRequest(site, m, next, grown, |log|); }
    SameOtherwise(m, msg);
    forall id ensures FirstResult(site, grown, id) == FirstResult(site, log, id) { GrowResult(site, log, msg, id); }
  }

  lemma StepResult(site: Site, m: Mem, log: Log, msg: Message)
    requires Rebuilt(site, m, log) && Owned(site, msg) && msg.payload.SendResult?
    ensures var r := ResultAdded(m, msg, site.ix.Session(msg.channelId));
            && (r.Ok? <==> ContentOk(site, log, msg))
            && (r.Ok? ==> Rebuilt(site, r.value, log + [msg]))
  {
    var id := msg.payload.requestId;
    assert log[..|log|] == log;
    assert Get(m.canonical, id) == FirstTask(site, log, id);
    assert Get(m.terminal, id) == FirstResult(site, log, id);
    var r := ResultAdded(m, msg, site.ix.Session(msg.channelId));
    if r.Ok? {
      StepResultOk(site, m, r.value, log, msg);
    }
  }

  lemma StepResultOk(site: Site, m: Mem, next: Mem, log: Log, msg: Message)
    requires Rebuilt(site, m, log) && Owned(site, msg) && msg.payload.SendResult?
    requires ResultAdded(m, msg, site.ix.Session(msg.channelId)) == Ok(next)
    ensures Rebuilt(site, next, log + [msg])
  {
    hide Mem.Partition;
    var grown, id := log + [msg], msg.payload.requestId;
    assert log[..|log|] == log && grown[..|grown|] == grown && grown[..|log|] == log;
    assert Get(m.canonical, id) == FirstTask(site, log, id);
    assert Get(m.terminal, id) == FirstResult(site, log, id);
    forall k ensures Get(next.terminal, k) == FirstResult(site, grown, k) {
      GrowResult(site, log, msg, k);
      assert Get(m.terminal, k) == FirstResult(site, log, k);
    }
    if id in m.terminal {
      AgreesRepeat(site, m, log, |log|, msg);
      assert next == m;
    } else {
      FirstResultAgrees(site, m, next, log, msg);
    }
    AgreesFetchOther(site, next, grown, |log|);
  }

  /** The first result of a known request. */
  lemma FirstResultAgrees(site: Site, m: Mem, next: Mem, log: Log, msg: Message)
    requires Agrees(site, m, log, |log|) && Owned(site, msg) && msg.payload.SendResult?
    requires ResultAdded(m, msg, site.ix.Session(msg.channelId)) == Ok(next)
    requires msg.payload.requestId !in m.terminal && FirstResult(site, log, msg.payload.requestId) == None
    ensures Agrees(site, next, log + [msg], |log|)
  {
    hide TasksAgree, DoneAgrees, SeenAgrees, LinksAgree, LatestAgrees, Mem.Partition, FirstResult;
    var t := m.canonical[msg.payload.requestId];
    FiledUnderId(m, msg.payload.requestId);
    var answered := Answered(m, t, LinkKey(msg, site.ix.Session(msg.channelId)), msg.sn);
    AgreesResult(site, m, log, |log|, msg, t);
    ResultIsAnswer(m, msg, site.ix.Session(msg.channelId), t, next);
    AgreesTerminal(site, answered, next, log + [msg], |log|);
  }

  /** Replaying a first result does what answering does, and files the result. */
  lemma ResultIsAnswer(m: Mem, msg: Message, session: (string, string), t: Task, next: Mem)
    requires msg.payload.SendResult? && ResultAdded(m, msg, session) == Ok(next) && msg.payload.requestId !in m.terminal
    requires Get(m.canonical, msg.payload.requestId) == Some(t) && t.requestId == msg.payload.requestId
    ensures next == Answered(m, t, LinkKey(msg, session), msg.sn).(terminal := next.terminal)
  {
    hide Unblock, Complete, LinkKey, SameResult;
    var id := msg.payload.requestId;
    FiledUnblock(Complete(m, id), m.terminal[id := ResultOf(msg)], t.channelId, id);
  }

  lemma FiledUnblock(m: Mem, terminal: map<string, TerminalResult>, c: nat, id: string)
    ensures Unblock(m.(terminal := terminal), c, id) == Unblock(m, c, id).(terminal := terminal)
    ensures Unblock(m.(terminal := terminal), c, id).terminal == terminal
    ensures Unblock(m.(terminal := terminal), c, id).links == Unblock(m, c, id).links
  {}

  /** What results are filed says nothing about the rest. */
  lemma AgreesTerminal(site: Site, m: Mem, next: Mem, log: Log, n: nat)
    requires n <= |log| && Agrees(site, m, log, n) && next == m.(terminal := next.terminal)
    ensures Agrees(site, next, log, n)
  {
    hide TasksAgree, DoneAgrees, SeenAgrees, LinksAgree, LatestAgrees, Mem.Partition;
    SameQueue(m, next);
  }

  lemma FiledUnderId(m: Mem, id: string)
    requires m.Partition() && id in m.canonical
    ensures m.canonical[id].requestId == id
  {}

  lemma StepRecord(site: Site, m: Mem, log: Log, msg: Message)
    requires Rebuilt(site, m, log) && Owned(site, msg) && msg.payload.SyncRecord?
    ensures var r := RecordAdded(m, msg, site.ix.Session(msg.channelId));
            && (r.Ok? <==> ContentOk(site, log, msg))
            && (r.Ok? ==> Rebuilt(site, r.value, log + [msg]))
  {
    var grown := log + [msg];
    assert grown[..|grown|] == grown && grown[..|log|] == log;
    var r := RecordAdded(m, msg, site.ix.Session(msg.channelId));
    assert Get(m.links, RecordKey(site, msg)) == LinkAt(site, log, RecordKey(site, msg));
    AgreesRecord(site, m, log, |log|, msg);
    forall id ensures FirstResult(site, grown, id) == FirstResult(site, log, id) { GrowResult(site, log, msg, id); }
    if r.Ok? {
      AgreesFetchOther(site, r.value, grown, |log|);
    }
  }

  /** One step of the scan succeeds exactly on an acceptable entry, and keeps the meaning. */
  lemma StepRecovers(site: Site, m: Mem, log: Log, msg: Message)
    requires Rebuilt(site, m, log) && Owned(site, msg)
    ensures Process(site, m, msg).Ok? <==> EntryOk(site, log, msg)
    ensures Process(site, m, msg).Ok? ==> Rebuilt(site, Process(site, m, msg).value, log + [msg])
  {
    match msg.payload {
      case SendRequest(_, _, _, _, _) => StepRequest(site, m, log, msg);
      case SendResult(_, _, _, _, _) => StepResult(site, m, log, msg);
      case SyncRecord(_, _, _, _, _, _, _, _, _) => StepRecord(site, m, log, msg);
      case Garbage =>
    }
  }

  /** An entry of another channel changes nothing. */
  lemma StepForeign(site: Site, m: Mem, log: Log, msg: Message)
    requires Rebuilt(site, m, log) && !Owned(site, msg)
    ensures Rebuilt(site, m, log + [msg]) && EntryOk(site, log, msg)
  {
    var grown := log + [msg];
    AgreesQuiet(site, m, log, |log|, msg);
    AgreesFetchOther(site, m, grown, |log|);
    forall id ensures FirstResult(site, grown, id) == FirstResult(site, log, id) { GrowResult(site, log, msg, id); }
  }

  lemma EmptyRebuilt(site: Site)
    ensures Rebuilt(site, EMPTY_MEM, []) && Accepted(site, [])
  {
    assert forall id :: Get<string, Task>(map[], id) == None;
  }

  /**
   Recovery accepts exactly the logs whose every entry is consistent with the
   entries before it, and the memory it builds says what the log says.
   */
  lemma {:induction false} RecoveryMeansLog(site: Site, log: Log)
    ensures Recover(site, log).Ok? <==> Accepted(site, log)
    ensures Recover(site, log).Ok? ==> Rebuilt(site, Recover(site, log).value, log)
  {
    hide Rebuilt, Accepted, Process, EntryOk;
    if log == [] {
      EmptyRebuilt(site);
    } else {
      var before, msg := log[..|log| - 1], log[|log| - 1];
      assert log == before + [msg];
      RecoveryMeansLog(site, before);
      AcceptedGrows(site, before, msg);
      if Recover(site, before).Ok? {
        var m := Recover(site, before).value;
        if Owned(site, msg) {
          StepRecovers(site, m, before, msg);
        } else {
          StepForeign(site, m, before, msg);
        }
      }
    }
  }

  /** The first task offered after a recovery is the oldest request of the log that has no result. */
  lemma RecoveryResumesOldest(site: Site, log: Log, m: Mem, next: Mem, r: Option<Task>)
    requires Recover(site, log) == Ok(m) && NextPending(m, next, r)
    ensures r == None <==> forall id :: FirstTask(site, log, id).Some? ==> FirstResult(site, log, id).Some?
    ensures r.Some? ==> FirstTask(site, log, r.value.requestId) == r && FirstResult(site, log, r.value.requestId) == None
    ensures r.Some? ==> forall id :: FirstTask(site, log, id).Some? && FirstResult(site, log, id) == None
                                     ==> r.value.sn <= FirstTask(site, log, id).value.sn
  {
    RecoveryMeansLog(site, log);
    assert log[..|log|] == log;
    IdleChoosesOldest(m, next, r);
    forall id ensures Get(m.requests, id) == if FirstResult(site, log, id).Some? then None else FirstTask(site, log, id) {
      assert Get(m.canonical, id) == FirstTask(site, log, id);
    }
    if r.Some? {
      assert Get(m.requests, r.value.requestId) == r;
      forall id | FirstTask(site, log, id).Some? && FirstResult(site, log, id) == None
        ensures r.value.sn <= FirstTask(site, log, id).value.sn
      {
        var t := m.requests[id];
        assert Get(m.requests, id) == Some(t) && Get(m.canonical, id) == Some(t);
        assert m.Live(t);
      }
    }
    if r.None? {
      forall id | FirstTask(site, log, id).Some? ensures FirstResult(site, log, id).Some? {
        assert Get(m.requests, id) == None;
      }
    } else {
      assert FirstTask(site, log, r.value.requestId).Some?;
    }
  }
}
