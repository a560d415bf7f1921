/** What is handed to the provider and what is written to the log, in the fields of requests, events and mappings. */
module Contents {
  import opened Common
  import opened Wire
  import opened Mapping
  import opened Memory
  import opened Replay
  import opened Meaning
  import opened System
  import opened Safety

  // ---- sends

  /** The delivery is what the task asks for, in this session and under this name. */
  ghost predicate Hands(d: Delivery, task: Task, session: (string, string), sender: string) {
    && d.requestId == task.requestId && d.msgType == task.msgType && d.content == task.content
    && d.session == session && d.sender == sender
  }

  /** The delivery is what the request asks for, from the bot whose principal wrote it and in the session of its channel. */
  ghost predicate HandsOver(ix: Index, request: Message, d: Delivery) {
    && request.payload.SendRequest? && request.channelId in ix.byChannel && d.requestId == request.payload.requestId
    && d.msgType == request.payload.msgType && d.content == request.payload.content
    && exists e :: e in ix.byChannel[request.channelId] && e.identityType == "bot" && e.principal == request.principal
                   && d.sender == e.externalUserId && d.session == (e.provider, e.sessionId)
  }

  /** Whatever was handed to the provider is what the first request of that id asks for. */
  lemma SendsAsAsked(env: Env, s: State, d: Delivery) returns (i: nat)
    requires env.Sound() && Reaches(env, START, s) && d in s.sends
    ensures FirstRequestAt(env.site, s.log, i, d.requestId) && HandsOver(env.site.ix, s.log[i], d)
  {
    ReachableIsGood(env, s);
    i := GenuineIsAsked(env, s.log, d);
  }

  lemma GenuineIsAsked(env: Env, log: Log, d: Delivery) returns (i: nat)
    requires env.Sound() && Genuine(env, log, d)
    ensures FirstRequestAt(env.site, log, i, d.requestId) && HandsOver(env.site.ix, log[i], d)
  {
    var t := FirstTask(env.site, log, d.requestId).value;
    TaskIsFirst(env.site, log, d.requestId);
    i :| FirstRequestAt(env.site, log, i, d.requestId);
    LookupsAreEntries(env.site.ix, t.channelId);
    assert Configured(env.site.ix, t.channelId, t.principal, "bot", d.sender);
  }

  // ---- results

  /** The result tells the caller that its request was sent, and under which id. */
  ghost predicate Reports(env: Env, result: Message, request: Message) {
    && request.payload.SendRequest? && result.payload.SendResult?
    && result.payload.requestId == request.payload.requestId && result.payload.resultPrev == request.sn
    && result.channelId == request.channelId && result.principal == env.site.worker
    && result.recipients == [request.principal] && result.payload.status == Success
    && result.payload.sentId == Some(env.messageIdOf(request.payload.requestId))
  }

  /** A result of a task, with the id under which the message was sent. */
  ghost predicate ResultOfTask(msg: Message, worker: nat, task: Task, messageId: string) {
    && msg.payload.SendResult? && msg.payload.requestId == task.requestId && msg.payload.resultPrev == task.sn
    && msg.channelId == task.channelId && msg.principal == worker && msg.recipients == [task.principal]
    && msg.payload.status == Success && msg.payload.sentId == Some(messageId)
  }

  lemma DraftIsResult(env: Env, task: Task, ms: int, msg: Message)
    requires msg.Matches(ResultDraft(env, task, ms))
    ensures ResultOfTask(msg, env.site.worker, task, env.messageIdOf(task.requestId))
  {}

  /** For every result there was a send. */
  ghost predicate AllSent(site: Site, s: State) {
    forall j, id :: ResultAt(site, s.log, j, id) ==> SentFor(s.sends, id)
  }

  ghost predicate SentFor(sends: seq<Delivery>, id: string) { exists d :: d in sends && d.requestId == id }

  lemma StepSends(env: Env, s: State, l: Label, t: State)
    requires Inv(env, s) && Step(env, s, l, t) && AllSent(env.site, s)
    ensures AllSent(env.site, t)
  {
    hide EntryOk, Omission, EventOk, LogGood, SendsGood, Agrees, NextPending, Recover, RequestAdded;
    assert s.log <= t.log && s.sends <= t.sends;
    forall j, id | ResultAt(env.site, t.log, j, id) ensures SentFor(t.sends, id) {
      if j < |s.log| {
        assert ResultAt(env.site, s.log, j, id);
        assert SentFor(s.sends, id);
        var d :| d in s.sends && d.requestId == id;
        assert d in t.sends;
      } else {
        NewResultSent(env, s, l, t, id);
      }
    }
  }

  /** Only the worker writes a result, after its send. */
  lemma NewResultSent(env: Env, s: State, l: Label, t: State, id: string)
    requires Inv(env, s) && Step(env, s, l, t) && |s.log| < |t.log| && ResultAt(env.site, t.log, |s.log|, id)
    ensures SentFor(t.sends, id)
  {
    hide EntryOk, Omission, EventOk, LogGood, SendsGood, Agrees, NextPending, Recover, RequestAdded;
    assert l.CommitResult?;
    var d :| d in s.sends && d.requestId == s.worker.phase.task.requestId;
    assert d in t.sends;
  }

  lemma {:induction false} RunSends(env: Env, states: seq<State>, n: nat)
    requires env.Sound() && Run(env, states) && states[0] == START && n < |states|
    ensures AllSent(env.site, states[n])
  {
    if n > 0 {
      hide Inv, AllSent, Step;
      RunSends(env, states, n - 1);
      StartIsGood(env);
      RunKeeps(env, states, n - 1);
      assert Next(env, states[n - 1], states[n - 1 + 1]);
      var l :| Step(env, states[n - 1], l, states[n]);
      StepSends(env, states[n - 1], l, states[n]);
    }
  }

  /** Every result in a reachable log answers the first request of its id, which has been handed to the provider. */
  lemma ResultsAsSent(env: Env, s: State, j: nat, id: string) returns (i: nat)
    requires env.Sound() && Reaches(env, START, s) && ResultAt(env.site, s.log, j, id)
    ensures i < j && FirstRequestAt(env.site, s.log, i, id) && Reports(env, s.log[j], s.log[i])
    ensures exists d :: d in s.sends && HandsOver(env.site.ix, s.log[i], d)
  {
    ReachableIsGood(env, s);
    var states :| Run(env, states) && states[0] == START && states[|states| - 1] == s;
    RunSends(env, states, |states| - 1);
    assert SentFor(s.sends, id);
    var d :| d in s.sends && d.requestId == id;
    i := GenuineIsAsked(env, s.log, d);
    ResultReports(env, s.log, j, id, i);
  }

  lemma ResultReports(env: Env, log: Log, j: nat, id: string, i: nat)
    requires env.Sound() && LogGood(env, log) && ResultAt(env.site, log, j, id) && FirstRequestAt(env.site, log, i, id)
    ensures i < j && Reports(env, log[j], log[i])
  {
    hide LogGood;
    assert EntryGood(env, log[..j], log[j]) by { assert LogGood(env, log); GoodAt(env, log, j); }
    EntryFits(env.site, log[..j], log[j]);
    ResultIsFirst(env.site, log[..j], id);
    var k :| FirstRequestAt(env.site, log[..j], k, id)
             && log[j].payload.resultPrev == log[..j][k].sn && log[j].channelId == log[..j][k].channelId
             && log[j].recipients == [log[..j][k].principal];
    assert forall x :: 0 <= x < j ==> (RequestAt(env.site, log[..j], x, id) <==> RequestAt(env.site, log, x, id));
    assert FirstRequestAt(env.site, log, k, id);
    assert k == i;
  }

  lemma GoodAt(env: Env, log: Log, j: nat)
    requires LogGood(env, log) && j < |log|
    ensures EntryGood(env, log[..j], log[j])
  {}

  // ---- records

  function Member(j: Json, name: string): Option<Json> {
    if j.JsonObject? && name in j.fields then Some(j.fields[name]) else None
  }

  /** The record holds the event's content and text. */
  ghost predicate Whole(p: Payload, e: ProviderEvent) {
    p.SyncRecord? && !p.omitted && p.omitReason == None && p.contentRaw == e.contentRaw && p.text == e.text
  }

  /** The record says that the content was omitted, why, and whose it was. */
  ghost predicate Lightweight(p: Payload, e: ProviderEvent) {
    && p.SyncRecord? && p.omitted && p.omitReason == Some("message_too_large") && p.text == None
    && Member(p.contentRaw, "omitted") == Some(JsonBool(true))
    && Member(p.contentRaw, "reason") == Some(JsonString("message_too_large"))
    && Member(p.contentRaw, "metadata").Some?
    && var about := Member(p.contentRaw, "metadata").value;
    && Member(about, "provider") == Some(JsonString(e.provider))
    && Member(about, "session_id") == Some(JsonString(e.sessionId))
    && Member(about, "sender_identity_type") == Some(JsonString(e.identityType))
    && Member(about, "sender_external_user_id") == Some(JsonString(e.senderId))
    && Member(about, "msg_type") == Some(JsonString(e.msgType))
  }

  /** The other principals of the channel, in ascending order. */
  ghost predicate Peers(ix: Index, c: nat, principal: nat, recipients: seq<nat>) {
    && (forall p :: p in recipients <==>
          c in ix.byChannel && exists e :: e in ix.byChannel[c] && e.principal == p && p != principal)
    && forall i, j :: 0 <= i < j < |recipients| ==> recipients[i] < recipients[j]
  }

  /** A record of the event in the channel, from this principal and pointing at `prev`, full or lightweight. */
  ghost predicate Carries(ix: Index, d: Draft, c: nat, e: ProviderEvent, principal: nat, prev: Option<nat>, omitted: bool) {
    && d.channelId == c && d.principal == principal && Peers(ix, c, principal, d.recipients)
    && d.payload.SyncRecord? && d.payload.messageId == e.messageId && d.payload.msgType == e.msgType
    && d.payload.eventMs == e.eventMs && d.payload.recordPrev == prev
    && (if omitted then Lightweight(d.payload, e) else Whole(d.payload, e))
  }

  lemma {:induction false} InsertAscends(xs: seq<nat>, x: nat)
    requires (forall i, j :: 0 <= i < j < |xs| ==> xs[i] < xs[j]) && x !in xs
    ensures var r := Insert(xs, x);
            (forall i, j :: 0 <= i < j < |r| ==> r[i] < r[j]) && forall p :: p in r <==> p in xs || p == x
  {
    if xs != [] {
      assert xs[0] in xs;
      assert xs == [xs[0]] + xs[1..];
      if x > xs[0] {
        InsertAscends(xs[1..], x);
        assert forall p :: p in xs <==> p == xs[0] || p in xs[1..];
        assert forall i :: 0 <= i < |Insert(xs[1..], x)| ==> Insert(xs[1..], x)[i] in Insert(xs[1..], x);
      } else {
        assert Insert(xs, x) == [x] + xs;
      }
    }
  }

  lemma {:induction false} UniqueAscends(xs: seq<nat>)
    ensures var r := SortedUnique(xs);
            (forall i, j :: 0 <= i < j < |r| ==> r[i] < r[j]) && forall p :: p in r <==> p in xs
  {
    if xs != [] {
      var rest, x := xs[..|xs| - 1], xs[|xs| - 1];
      assert xs == rest + [x];
      UniqueAscends(rest);
      if x !in rest {
        InsertAscends(SortedUnique(rest), x);
      }
    }
  }

  lemma {:induction false} OthersMembers(es: seq<Entry>, principal: nat)
    ensures forall p :: p in Others(es, principal) <==> exists e :: e in es && e.principal == p && p != principal
  {
    if es != [] {
      var rest, last := es[..|es| - 1], es[|es| - 1];
      assert es == rest + [last];
      OthersMembers(rest, principal);
    }
  }

  lemma RecipientsArePeers(ix: Index, c: nat, principal: nat)
    ensures Peers(ix, c, principal, SortedUnique(ix.PeerPrincipals(c, principal)))
  {
    UniqueAscends(ix.PeerPrincipals(c, principal));
    if c in ix.byChannel {
      OthersMembers(ix.byChannel[c], principal);
      var others := Others(ix.byChannel[c], principal);
      assert forall p :: p in Sorted(others) <==> p in multiset(Sorted(others));
      assert forall p :: p in others <==> p in multiset(others);
    }
  }

  /** What the worker drafts for an event is such a record. */
  lemma DraftCarries(env: Env, e: ProviderEvent, c: nat, principal: nat, prev: Option<nat>, ms: int, omitted: bool)
    ensures Carries(env.site.ix, RecordDraft(env, e, c, principal, prev, ms, omitted), c, e, principal, prev, omitted)
  {
    RecipientsArePeers(env.site.ix, c, principal);
  }

  /** The message is from the event's sender, in the event's session, to the other principal of the channel. */
  ghost predicate FromSender(ix: Index, msg: Message, e: ProviderEvent) {
    msg.channelId in ix.byChannel
    && (exists u :: u in ix.byChannel[msg.channelId] && u.provider == e.provider && u.sessionId == e.sessionId
                    && u.identityType == e.identityType && u.externalUserId == e.senderId && u.principal == msg.principal)
    && exists v :: v in ix.byChannel[msg.channelId] && v.principal != msg.principal && msg.recipients == [v.principal]
  }

  /** The message is a record of the event. */
  ghost predicate Describes(ix: Index, msg: Message, e: ProviderEvent) {
    && FromSender(ix, msg, e) && msg.payload.SyncRecord? && msg.payload.messageId == e.messageId
    && msg.payload.msgType == e.msgType && msg.payload.eventMs == e.eventMs
    && (Whole(msg.payload, e) || Lightweight(msg.payload, e))
  }

  lemma SenderResolved(env: Env, e: ProviderEvent, c: nat, principal: nat, msg: Message)
    requires env.Sound() && env.site.ix.ChannelFor(e.provider, e.sessionId) == Some(c)
    requires env.site.ix.PrincipalFor(c, e.provider, e.senderId, e.identityType) == Some(principal)
    requires msg.payload.SyncRecord? && msg.channelId == c && msg.principal == principal
    requires msg.recipients == SortedUnique(env.site.ix.PeerPrincipals(c, principal))
    ensures FromSender(env.site.ix, msg, e)
  {
    hide RolesOk, RightWriter, Index.Sound;
    SessionsAreEntries(env.site.ix, e.provider, e.sessionId, c);
    LookupsAreEntries(env.site.ix, c);
    RolesOfRecord(env, e, c, principal, msg);
    WritersFit(env.site, msg);
    PeerOfSender(env.site, msg);
    assert Configured(env.site.ix, c, principal, e.identityType, e.senderId);
  }

  lemma PeerOfSender(site: Site, msg: Message)
    requires msg.channelId in site.ix.byChannel && msg.payload.SyncRecord? && RightWriter(site, msg)
    ensures exists v :: v in site.ix.byChannel[msg.channelId] && v.principal != msg.principal
                        && msg.recipients == [v.principal]
  {}

  /** Whichever event a record is committed for, the record describes it. */
  lemma CommitDescribes(env: Env, s: State, e: ProviderEvent, c: nat, principal: nat, sn: nat, ms: int, omitted: bool,
                        t: State)
    requires env.Sound() && Step(env, s, CommitRecord(e, c, principal, sn, ms, omitted), t)
    ensures |t.log| == |s.log| + 1 && s.log <= t.log && Describes(env.site.ix, t.log[|s.log|], e)
    ensures Lightweight(t.log[|s.log|].payload, e) <==> omitted
  {
    hide EventOk, FromSender, Env.Sound, Index.Sound;
    var msg, prev := t.log[|s.log|], Get(s.worker.m.links, EventKey(e, c));
    DraftCarries(env, e, c, principal, prev, ms, omitted);
    SenderResolved(env, e, c, principal, msg);
  }

  /** The `k`-th step of the run committed entry `j` for event `e`. */
  ghost predicate CommittedFor(env: Env, states: seq<State>, k: nat, j: nat, e: ProviderEvent) {
    && k + 1 < |states| && |states[k].log| == j
    && exists c, principal, sn, ms, omitted ::
         Step(env, states[k], CommitRecord(e, c, principal, sn, ms, omitted), states[k + 1])
  }

  lemma StepWrites(env: Env, s: State, l: Label, t: State)
    requires Step(env, s, l, t)
    ensures s.log <= t.log && |t.log| <= |s.log| + 1
    ensures |t.log| == |s.log| + 1 && t.log[|s.log|].payload.SyncRecord? && t.log[|s.log|].channelId in env.site.ix.byChannel
            ==> l.CommitRecord?
  {
    hide EntryOk, RecordPayload, EventOk, NextPending, Recover, RequestAdded;
  }

  /** Every record of a reachable log was committed for an event that the provider had reported, and describes it. */
  lemma {:induction false} RecordsAsReported(env: Env, states: seq<State>, n: nat, j: nat)
    returns (k: nat, e: ProviderEvent)
    requires env.Sound() && Run(env, states) && states[0] == START && n < |states| && j < |states[n].log|
    requires states[n].log[j].payload.SyncRecord? && states[n].log[j].channelId in env.site.ix.byChannel
    ensures k < n && CommittedFor(env, states, k, j, e) && Describes(env.site.ix, states[n].log[j], e)
    ensures EventOk(env, states[k].sends, e)
  {
    hide Inv, Step, EventOk, Describes;
    var s := states[n - 1];
    assert Next(env, states[n - 1], states[n - 1 + 1]);
    var l :| Step(env, s, l, states[n]);
    StepWrites(env, s, l, states[n]);
    if j < |s.log| {
      k, e := RecordsAsReported(env, states, n - 1, j);
    } else {
      StartIsGood(env);
      RunKeeps(env, states, n - 1);
      k, e := n - 1, l.event;
      CommitDescribes(env, s, e, l.channelId, l.principal, l.sn, l.ms, l.omitted, states[n]);
      CommitReported(env, s, l, states[n]);
    }
  }

  lemma CommitReported(env: Env, s: State, l: Label, t: State)
    requires Step(env, s, l, t) && l.CommitRecord?
    ensures EventOk(env, s.sends, l.event)
  {}
}
