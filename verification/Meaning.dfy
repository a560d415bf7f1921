/**
 What recovery accepts and what the memory it builds holds, in the fields of the log's entries and of the
 configured mappings.
 */
module Meaning {
  import opened Common
  import opened Wire
  import opened Mapping
  import opened Memory
  import opened Replay

  // ---- a forbidden key, wherever it is

  datatype Hop = Field(name: string) | Item(index: nat)

  /** What one finds by following a path into a content. */
  function At(j: Json, path: seq<Hop>): Option<Json>
    decreases |path|
  {
    if path == [] then Some(j)
    else match (j, path[0])
      case (JsonObject(fields), Field(name)) => if name in fields then At(fields[name], path[1..]) else None
      case (JsonArray(items), Item(index)) => if index < |items| then At(items[index], path[1..]) else None
      case _ => None
  }

  /** The path leads to an object that has the key. */
  predicate Forbidden(j: Json, path: seq<Hop>) {
    match At(j, path)
    case Some(JsonObject(fields)) => "source_principal" in fields
    case _ => false
  }

  /** A content is clean exactly if no path leads to an object with the key. */
  lemma {:induction false} CleanMeaning(j: Json)
    ensures j.Clean() <==> forall path :: !Forbidden(j, path)
  {
    if path :| Forbidden(j, path) {
      ForbiddenIsUnclean(j, path);
    }
    if !j.Clean() {
      var path := UncleanPath(j);
      assert Forbidden(j, path);
    }
  }

  lemma {:induction false} ForbiddenIsUnclean(j: Json, path: seq<Hop>)
    requires Forbidden(j, path)
    ensures !j.Clean()
    decreases |path|
  {
    if path != [] {
      match (j, path[0]) {
        case (JsonObject(fields), Field(name)) => ForbiddenIsUnclean(fields[name], path[1..]);
        case (JsonArray(items), Item(index)) => ForbiddenIsUnclean(items[index], path[1..]);
        case _ =>
      }
    }
  }

  lemma {:induction false} UncleanPath(j: Json) returns (path: seq<Hop>)
    requires !j.Clean()
    ensures Forbidden(j, path)
  {
    path := [];
    match j {
      case JsonObject(fields) =>
        if "source_principal" !in fields {
          var k :| k in fields && !fields[k].Clean();
          var rest := UncleanPath(fields[k]);
          path := [Field(k)] + rest;
          assert path[1..] == rest;
        }
      case JsonArray(items) =>
        var i :| 0 <= i < |items| && !items[i].Clean();
        var rest := UncleanPath(items[i]);
        path := [Item(i)] + rest;
        assert path[1..] == rest;
      case _ =>
    }
  }

  // ---- positions in the log

  predicate RequestAt(site: Site, log: Log, i: int, id: string) {
    && 0 <= i < |log| && log[i].channelId in site.ix.byChannel
    && log[i].payload.SendRequest? && log[i].payload.requestId == id
  }

  predicate ResultAt(site: Site, log: Log, i: int, id: string) {
    && 0 <= i < |log| && log[i].channelId in site.ix.byChannel
    && log[i].payload.SendResult? && log[i].payload.requestId == id
  }

  predicate RecordAt(site: Site, log: Log, i: int, c: nat, messageId: string) {
    && 0 <= i < |log| && log[i].channelId in site.ix.byChannel && log[i].channelId == c
    && log[i].payload.SyncRecord? && log[i].payload.messageId == messageId
  }

  ghost predicate FirstRequestAt(site: Site, log: Log, i: int, id: string) {
    RequestAt(site, log, i, id) && forall j :: 0 <= j < i ==> !RequestAt(site, log, j, id)
  }

  ghost predicate FirstResultAt(site: Site, log: Log, i: int, id: string) {
    ResultAt(site, log, i, id) && forall j :: 0 <= j < i ==> !ResultAt(site, log, j, id)
  }

  /** Entry `i` is the first result of its request, a success that names the message in the channel. */
  ghost predicate NamedAt(site: Site, log: Log, i: int, c: nat, messageId: string) {
    && 0 <= i < |log| && log[i].payload.SendResult? && FirstResultAt(site, log, i, log[i].payload.requestId)
    && log[i].channelId == c && log[i].payload.status == Success
    && log[i].payload.sentId == Some(messageId) && messageId != ""
  }

  ghost predicate LastNamedAt(site: Site, log: Log, i: int, c: nat, messageId: string) {
    NamedAt(site, log, i, c, messageId) && forall j :: i < j < |log| ==> !NamedAt(site, log, j, c, messageId)
  }

  // ---- what an entry has to be

  /** What the codec asks of a payload. */
  predicate WellFormed(p: Payload) {
    match p
    case SendRequest(id, kind, content, ms, _) =>
      id != "" && kind != "" && content.JsonObject? && content.Clean() && ms >= 0
    case SendResult(id, _, _, _, ms) => id != "" && ms >= 0
    case SyncRecord(id, kind, raw, _, ms, ingested, _, _, _) =>
      id != "" && kind != "" && raw.JsonObject? && raw.Clean() && ms >= 0 && ingested >= 0
    case Garbage => false
  }

  lemma ParsesMeaning(p: Payload)
    ensures p.Parses() <==> WellFormed(p)
  {}

  /** A result is written by the worker, a record by one principal of the channel to the other. */
  predicate RightWriter(site: Site, msg: Message)
    requires msg.channelId in site.ix.byChannel
  {
    && (msg.payload.SendResult? ==> msg.principal == site.worker)
    && (msg.payload.SyncRecord? ==>
          exists e, f :: e in site.ix.byChannel[msg.channelId] && f in site.ix.byChannel[msg.channelId]
                         && e.principal == msg.principal && f.principal != e.principal && msg.recipients == [f.principal])
  }

  /** A request with a known id repeats the first one. */
  ghost predicate RequestFits(site: Site, before: Log, msg: Message)
    requires msg.payload.SendRequest?
  {
    forall k :: FirstRequestAt(site, before, k, msg.payload.requestId) ==>
      && before[k].channelId == msg.channelId && before[k].principal == msg.principal
      && before[k].payload.msgType == msg.payload.msgType && before[k].payload.content == msg.payload.content
  }

  /** A result repeats the first one of its request, or is the first and answers it. */
  ghost predicate ResultFits(site: Site, before: Log, msg: Message)
    requires msg.payload.SendResult?
  {
    if exists k :: FirstResultAt(site, before, k, msg.payload.requestId) then
      forall k :: FirstResultAt(site, before, k, msg.payload.requestId) ==>
        && before[k].channelId == msg.channelId && before[k].principal == msg.principal
        && before[k].recipients == msg.recipients && before[k].payload.resultPrev == msg.payload.resultPrev
        && before[k].payload.status == msg.payload.status && before[k].payload.sentId == msg.payload.sentId
    else
      exists k :: FirstRequestAt(site, before, k, msg.payload.requestId)
                  && msg.payload.resultPrev == before[k].sn && msg.channelId == before[k].channelId
                  && msg.recipients == [before[k].principal]
  }

  /** A record points at the last result that names its message, and at nothing if none does. */
  ghost predicate RecordFits(site: Site, before: Log, msg: Message)
    requires msg.payload.SyncRecord?
  {
    match msg.payload.recordPrev
    case None => forall k :: !NamedAt(site, before, k, msg.channelId, msg.payload.messageId)
    case Some(prev) => exists k :: LastNamedAt(site, before, k, msg.channelId, msg.payload.messageId) && before[k].sn == prev
  }

  /** What an entry must be, given those before it. */
  ghost predicate Fits(site: Site, before: Log, msg: Message) {
    msg.channelId in site.ix.byChannel ==>
      && WellFormed(msg.payload) && RightWriter(site, msg)
      && match msg.payload
         case SendRequest(_, _, _, _, _) => RequestFits(site, before, msg)
         case SendResult(_, _, _, _, _) => ResultFits(site, before, msg)
         case SyncRecord(_, _, _, _, _, _, _, _, _) => RecordFits(site, before, msg)
         case Garbage => false
  }

  // ---- from what the log says to positions

  /** The canonical request of an id is the first one written, field by field. */
  lemma TaskIsFirst(site: Site, log: Log, id: string)
    ensures FirstTask(site, log, id) == None <==> forall i :: !RequestAt(site, log, i, id)
    ensures FirstTask(site, log, id) == None <==> forall i :: !FirstRequestAt(site, log, i, id)
    ensures forall i :: FirstRequestAt(site, log, i, id) ==>
              var t := FirstTask(site, log, id);
              && t.Some? && t.value.requestId == id && t.value.sn == log[i].sn && t.value.channelId == log[i].channelId
              && t.value.principal == log[i].principal && t.value.msgType == log[i].payload.msgType
              && t.value.content == log[i].payload.content
  {
    FirstTaskMeaning(site, log, id);
    assert forall i :: 0 <= i < |log| ==> (RequestAt(site, log, i, id) <==> IsRequest(site, log[i], id));
    if FirstTask(site, log, id).Some? {
      var i :| 0 <= i < |log| && IsRequest(site, log[i], id) && TaskOf(log[i]) == FirstTask(site, log, id).value
               && forall j :: 0 <= j < i ==> !IsRequest(site, log[j], id);
      assert FirstRequestAt(site, log, i, id);
      assert forall k :: FirstRequestAt(site, log, k, id) ==> k == i;
    }
  }

  /** The terminal result of an id is the first one written, field by field. */
  lemma ResultIsFirst(site: Site, log: Log, id: string)
    ensures FirstResult(site, log, id) == None <==> forall i :: !ResultAt(site, log, i, id)
    ensures FirstResult(site, log, id) == None <==> forall i :: !FirstResultAt(site, log, i, id)
    ensures forall i :: FirstResultAt(site, log, i, id) ==>
              var r := FirstResult(site, log, id);
              && r.Some? && r.value.requestId == id && r.value.sn == log[i].sn && r.value.channelId == log[i].channelId
              && r.value.principal == log[i].principal && r.value.recipients == log[i].recipients
              && r.value.prev == log[i].payload.resultPrev && r.value.status == log[i].payload.status
              && r.value.messageId == log[i].payload.sentId
  {
    FirstResultMeaning(site, log, id);
    assert forall i :: 0 <= i < |log| ==> (ResultAt(site, log, i, id) <==> IsResult(site, log[i], id));
    if FirstResult(site, log, id).Some? {
      var i :| 0 <= i < |log| && IsResult(site, log[i], id) && ResultOf(log[i]) == FirstResult(site, log, id).value
               && forall j :: 0 <= j < i ==> !IsResult(site, log[j], id);
      assert FirstResultAt(site, log, i, id);
      assert forall k :: FirstResultAt(site, log, k, id) ==> k == i;
    }
  }

  /** An entry links a message to itself exactly if it is the first result of its request and names the message. */
  lemma LinksAreNames(site: Site, log: Log, i: nat, c: nat, messageId: string)
    requires i < |log| && c in site.ix.byChannel
    ensures var s := site.ix.Session(c);
            LinksAt(site, log, i, (s.0, s.1, c, messageId)) <==> NamedAt(site, log, i, c, messageId)
  {
    if log[i].payload.SendResult? {
      var id := log[i].payload.requestId;
      ResultIsFirst(site, log[..i], id);
      assert forall j :: 0 <= j < i ==> (ResultAt(site, log[..i], j, id) <==> ResultAt(site, log, j, id));
    }
  }

  /** The link of a message is the last result that names it. */
  lemma LinkIsLastName(site: Site, log: Log, c: nat, messageId: string)
    requires c in site.ix.byChannel
    ensures var s := site.ix.Session(c);
            var link := LinkAt(site, log, (s.0, s.1, c, messageId));
            && (link == None <==> forall i :: !NamedAt(site, log, i, c, messageId))
            && (link == None <==> forall i :: !LastNamedAt(site, log, i, c, messageId))
            && forall i :: LastNamedAt(site, log, i, c, messageId) ==> link == Some(log[i].sn)
  {
    hide LinksAt;
    var s := site.ix.Session(c);
    var k := (s.0, s.1, c, messageId);
    LinkMeaning(site, log, k);
    forall i | 0 <= i < |log| ensures LinksAt(site, log, i, k) <==> NamedAt(site, log, i, c, messageId) {
      LinksAreNames(site, log, i, c, messageId);
    }
    if LinkAt(site, log, k).Some? {
      var i :| 0 <= i < |log| && LastLink(site, log, i, k) && log[i].sn == LinkAt(site, log, k).value;
      assert LastNamedAt(site, log, i, c, messageId);
      assert forall j :: LastNamedAt(site, log, j, c, messageId) ==> j == i;
    }
  }

  /** A key is seen exactly if a record of its channel, in its session, names its message. */
  lemma SeenIsRecorded(site: Site, log: Log, k: InboundKey)
    ensures SeenIn(site, log, k) <==>
            k.2 in site.ix.byChannel && site.ix.Session(k.2) == (k.0, k.1) && exists i :: RecordAt(site, log, i, k.2, k.3)
  {
    SeenMeaning(site, log, k);
    forall i | 0 <= i < |log|
      ensures IsRecord(site, log[i], k) <==> RecordAt(site, log, i, k.2, k.3) && site.ix.Session(k.2) == (k.0, k.1)
    {}
  }

  // ---- recovery

  lemma WritersFit(site: Site, msg: Message)
    requires site.ix.Sound() && msg.channelId in site.ix.byChannel && !msg.payload.Garbage?
    ensures RolesOk(site, msg) <==> RightWriter(site, msg)
  {
    if msg.payload.SyncRecord? {
      var c := msg.channelId;
      TwoEntries(site.ix, c);
      var es := site.ix.byChannel[c];
      assert es[0] in es && es[1] in es;
      if msg.principal in site.ix.Participants(c) {
        var q := PeersInvolution(site.ix, c, msg.principal);
        if RolesOk(site, msg) {
          assert msg.recipients == [q];
        }
      }
    }
  }

  /** An entry is accepted exactly if it fits. */
  lemma EntryFits(site: Site, before: Log, msg: Message)
    requires site.ix.Sound()
    ensures EntryOk(site, before, msg) <==> Fits(site, before, msg)
  {
    if msg.channelId in site.ix.byChannel && !msg.payload.Garbage? {
      WritersFit(site, msg);
      hide RolesOk, RightWriter;
      ContentFits(site, before, msg);
    }
  }

  lemma ContentFits(site: Site, before: Log, msg: Message)
    requires msg.channelId in site.ix.byChannel && !msg.payload.Garbage?
    ensures ContentOk(site, before, msg)
            <==> match msg.payload
                 case SendRequest(_, _, _, _, _) => RequestFits(site, before, msg)
                 case SendResult(_, _, _, _, _) => ResultFits(site, before, msg)
                 case SyncRecord(_, _, _, _, _, _, _, _, _) => RecordFits(site, before, msg)
                 case Garbage => false
  {
    match msg.payload {
      case SendRequest(id, _, _, _, _) => TaskIsFirst(site, before, id);
      case SendResult(id, _, _, _, _) =>
        ResultIsFirst(site, before, id);
        TaskIsFirst(site, before, id);
      case SyncRecord(id, _, _, _, _, _, _, _, _) => LinkIsLastName(site, before, msg.channelId, id);
      case Garbage =>
    }
  }

  /** Recovery succeeds exactly on the logs whose every entry fits those before it. */
  lemma RecoveryAccepts(site: Site, log: Log)
    requires site.ix.Sound()
    ensures Recover(site, log).Ok? <==> forall i :: 0 <= i < |log| ==> Fits(site, log[..i], log[i])
  {
    hide Recover, EntryOk, Fits;
    RecoveryMeansLog(site, log);
    forall i | 0 <= i < |log| ensures EntryOk(site, log[..i], log[i]) <==> Fits(site, log[..i], log[i]) {
      EntryFits(site, log[..i], log[i]);
    }
  }

  /** In particular any two requests with one id agree in all that is sent, and any two results of one request in
      all that is told. */
  lemma SameIdSameContent(site: Site, log: Log, i: nat, j: nat, id: string)
    requires site.ix.Sound() && Recover(site, log).Ok?
    ensures RequestAt(site, log, i, id) && RequestAt(site, log, j, id) ==>
              && log[i].channelId == log[j].channelId && log[i].principal == log[j].principal
              && log[i].payload.msgType == log[j].payload.msgType && log[i].payload.content == log[j].payload.content
    ensures ResultAt(site, log, i, id) && ResultAt(site, log, j, id) ==>
              && log[i].channelId == log[j].channelId && log[i].principal == log[j].principal
              && log[i].recipients == log[j].recipients && log[i].payload.resultPrev == log[j].payload.resultPrev
              && log[i].payload.status == log[j].payload.status && log[i].payload.sentId == log[j].payload.sentId
  {
    RecoveryAccepts(site, log);
    if RequestAt(site, log, i, id) && RequestAt(site, log, j, id) {
      var k := FirstRequest(site, log, i, id);
      RepeatsRequest(site, log, k, i, id);
      RepeatsRequest(site, log, k, j, id);
    }
    if ResultAt(site, log, i, id) && ResultAt(site, log, j, id) {
      var k := FirstResultIndex(site, log, i, id);
      RepeatsResult(site, log, k, i, id);
      RepeatsResult(site, log, k, j, id);
    }
  }

  lemma {:induction false} FirstRequest(site: Site, log: Log, i: nat, id: string) returns (k: nat)
    requires RequestAt(site, log, i, id)
    ensures k <= i && FirstRequestAt(site, log, k, id)
  {
    k := i;
    if j :| 0 <= j < i && RequestAt(site, log, j, id) {
      k := FirstRequest(site, log, j, id);
    }
  }

  lemma {:induction false} FirstResultIndex(site: Site, log: Log, i: nat, id: string) returns (k: nat)
    requires ResultAt(site, log, i, id)
    ensures k <= i && FirstResultAt(site, log, k, id)
  {
    k := i;
    if j :| 0 <= j < i && ResultAt(site, log, j, id) {
      k := FirstResultIndex(site, log, j, id);
    }
  }

  lemma RepeatsRequest(site: Site, log: Log, k: nat, i: nat, id: string)
    requires FirstRequestAt(site, log, k, id) && RequestAt(site, log, i, id) && k <= i && Fits(site, log[..i], log[i])
    ensures log[k].channelId == log[i].channelId && log[k].principal == log[i].principal
            && log[k].payload.msgType == log[i].payload.msgType && log[k].payload.content == log[i].payload.content
  {
    if k < i {
      assert forall j :: 0 <= j < i ==> (RequestAt(site, log[..i], j, id) <==> RequestAt(site, log, j, id));
      assert FirstRequestAt(site, log[..i], k, id);
    }
  }

  lemma RepeatsResult(site: Site, log: Log, k: nat, i: nat, id: string)
    requires FirstResultAt(site, log, k, id) && ResultAt(site, log, i, id) && k <= i && Fits(site, log[..i], log[i])
    ensures log[k].channelId == log[i].channelId && log[k].principal == log[i].principal
            && log[k].recipients == log[i].recipients && log[k].payload.resultPrev == log[i].payload.resultPrev
            && log[k].payload.status == log[i].payload.status && log[k].payload.sentId == log[i].payload.sentId
  {
    if k < i {
      assert forall j :: 0 <= j < i ==> (ResultAt(site, log[..i], j, id) <==> ResultAt(site, log, j, id));
      assert FirstResultAt(site, log[..i], k, id);
    }
  }

  // ---- the memory

  /** The first request of every id, field by field, live exactly if it has no result. */
  ghost predicate HoldsRequests(site: Site, log: Log, m: Mem) { forall id :: HoldsRequest(site, log, m, id) }

  ghost predicate HoldsRequest(site: Site, log: Log, m: Mem, id: string) {
    && (id in m.canonical <==> exists i :: RequestAt(site, log, i, id))
    && (forall i :: FirstRequestAt(site, log, i, id) ==>
          && id in m.canonical && m.canonical[id].requestId == id && m.canonical[id].sn == log[i].sn
          && m.canonical[id].channelId == log[i].channelId && m.canonical[id].principal == log[i].principal
          && m.canonical[id].msgType == log[i].payload.msgType && m.canonical[id].content == log[i].payload.content)
    && (id in m.requests <==> id in m.canonical && forall i :: !ResultAt(site, log, i, id))
    && (id in m.requests ==> m.requests[id] == m.canonical[id])
  }

  /** The messages with a record, by session, channel and id. */
  ghost predicate HoldsRecords(site: Site, log: Log, m: Mem) {
    forall k :: k in m.inboundSeen <==>
      k.2 in site.ix.byChannel && site.ix.Session(k.2) == (k.0, k.1) && exists i :: RecordAt(site, log, i, k.2, k.3)
  }

  /** For each message the last result that names it. */
  ghost predicate HoldsLinks(site: Site, log: Log, m: Mem) {
    forall c, id :: c in site.ix.byChannel ==>
      match Get(m.links, (site.ix.Session(c).0, site.ix.Session(c).1, c, id))
      case None => forall i :: !NamedAt(site, log, i, c, id)
      case Some(sn) => exists i :: LastNamedAt(site, log, i, c, id) && log[i].sn == sn
  }

  /** Each channel's latest event time. */
  ghost predicate HoldsTimes(site: Site, log: Log, m: Mem) {
    forall c ::
      match Get(m.latest, c)
      case None => forall i, id :: !RecordAt(site, log, i, c, id)
      case Some(ms) =>
        && (forall i, id :: RecordAt(site, log, i, c, id) ==> log[i].payload.eventMs <= ms)
        && exists i, id :: RecordAt(site, log, i, c, id) && log[i].payload.eventMs == ms
  }

  lemma RequestsHeld(site: Site, log: Log, m: Mem)
    requires Rebuilt(site, m, log)
    ensures HoldsRequests(site, log, m)
  {
    hide HoldsRequest, Rebuilt;
    forall id ensures HoldsRequest(site, log, m, id) {
      RequestHeld(site, log, m, id);
    }
  }

  lemma RequestHeld(site: Site, log: Log, m: Mem, id: string)
    requires Rebuilt(site, m, log)
    ensures HoldsRequest(site, log, m, id)
  {
    assert log[..|log|] == log;
    assert Get(m.canonical, id) == FirstTask(site, log, id);
    assert id in m.completed <==> FirstResult(site, log, id).Some?;
    assert Get(m.requests, id) == if id in m.completed then None else Get(m.canonical, id);
    hide Rebuilt, Agrees, Mem.Partition, FirstTask, FirstResult;
    TaskIsFirst(site, log, id);
    ResultIsFirst(site, log, id);
  }

  lemma RecordsHeld(site: Site, log: Log, m: Mem)
    requires Rebuilt(site, m, log)
    ensures HoldsRecords(site, log, m)
  {
    hide Mem.Partition;
    forall k
      ensures k in m.inboundSeen <==> k.2 in site.ix.byChannel && site.ix.Session(k.2) == (k.0, k.1)
                                      && exists i :: RecordAt(site, log, i, k.2, k.3)
    {
      SeenIsRecorded(site, log, k);
    }
  }

  lemma LinksHeld(site: Site, log: Log, m: Mem)
    requires Rebuilt(site, m, log)
    ensures HoldsLinks(site, log, m)
  {
    hide Mem.Partition, FirstResultAt;
    forall c, id | c in site.ix.byChannel
      ensures match Get(m.links, (site.ix.Session(c).0, site.ix.Session(c).1, c, id))
              case None => forall i :: !NamedAt(site, log, i, c, id)
              case Some(sn) => exists i :: LastNamedAt(site, log, i, c, id) && log[i].sn == sn
    {
      LinkIsLastName(site, log, c, id);
    }
  }

  lemma TimesHeld(site: Site, log: Log, m: Mem)
    requires Rebuilt(site, m, log)
    ensures HoldsTimes(site, log, m)
  {
    hide Mem.Partition;
    forall c
      ensures match Get(m.latest, c)
              case None => forall i, id :: !RecordAt(site, log, i, c, id)
              case Some(ms) =>
                && (forall i, id :: RecordAt(site, log, i, c, id) ==> log[i].payload.eventMs <= ms)
                && exists i, id :: RecordAt(site, log, i, c, id) && log[i].payload.eventMs == ms
    {
      LatestMeaning(site, log, c);
      assert Get(m.latest, c) == LatestIn(site, log, c);
      if LatestIn(site, log, c).Some? {
        var i :| 0 <= i < |log| && IsRecordOf(site, log[i], c) && log[i].payload.eventMs == LatestIn(site, log, c).value;
        assert RecordAt(site, log, i, c, log[i].payload.messageId);
      }
    }
  }

  /** The memory that recovery builds, from the log's fields. */
  lemma RecoveredMemory(site: Site, log: Log)
    requires Recover(site, log).Ok?
    ensures var m := Recover(site, log).value;
            HoldsRequests(site, log, m) && HoldsRecords(site, log, m) && HoldsLinks(site, log, m) && HoldsTimes(site, log, m)
  {
    hide Rebuilt, HoldsRequests, HoldsRecords, HoldsLinks, HoldsTimes;
    RecoveryMeansLog(site, log);
    var m := Recover(site, log).value;
    RequestsHeld(site, log, m);
    RecordsHeld(site, log, m);
    LinksHeld(site, log, m);
    TimesHeld(site, log, m);
  }
}
