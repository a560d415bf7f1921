/**
 The worker, its callers and the provider as one transition system over the
 log, with crashes and restarts at any point.
 */
module System {
  import opened Common
  import opened Wire
  import opened Memory
  import opened Replay

  datatype ProviderEvent = ProviderEvent(provider: string, sessionId: string, messageId: string, senderId: string,
                                         msgType: string, contentRaw: Json, eventMs: int, text: Option<string>,
                                         identityType: string)

  /** One message the provider accepted from the worker. */
  datatype Delivery = Delivery(session: (string, string), sender: string, msgType: string, content: Json, requestId: string)

  /**
   The configured site and the provider's naming of messages: `messageIdOf`
   is the id it gives the message sent for a request, whatever the attempt;
   `originOf` tells such ids from all others.
   */
  datatype Env = Env(site: Site, messageIdOf: string -> string, originOf: string -> Option<string>)
  {
    ghost predicate Sound() {
      && site.ix.Sound()
      && (forall r :: originOf(messageIdOf(r)) == Some(r) && messageIdOf(r) != "")
      && (forall id :: originOf(id).Some? ==> messageIdOf(originOf(id).value) == id)
    }
  }

  datatype Phase =
    | Idle
    | Sent(task: Task)
    | ResultOut(task: Task, sn: nat)
    | RecordOut(key: InboundKey, channelId: nat, eventMs: int)

  /** `n` is how many log entries the worker has read. */
  datatype Worker = Down | Up(m: Mem, n: nat, phase: Phase)

  datatype State = State(log: Log, sends: seq<Delivery>, worker: Worker)

  const START := State([], [], Down)

  datatype Label =
    | CallerAppend(msg: Message)
    | Crash
    | Restart
    | Fetch
    | NoTask(m: Mem)
    | Send(m: Mem, task: Task, sender: string)
    | CommitResult(sn: nat, ms: int)
    | MarkResult
    | CommitRecord(event: ProviderEvent, channelId: nat, principal: nat, sn: nat, ms: int, omitted: bool)
    | MarkRecord

  // ---- what the worker writes

  function DeliveryOf(env: Env, t: Task, sender: string): Delivery {
    Delivery(env.site.ix.Session(t.channelId), sender, t.msgType, t.content, t.requestId)
  }

  function ResultDraft(env: Env, t: Task, ms: int): Draft {
    Draft(t.channelId, env.site.worker, [t.principal],
          SendResult(t.requestId, t.sn, Success, Some(env.messageIdOf(t.requestId)), ms))
  }

  function EventKey(e: ProviderEvent, c: nat): InboundKey {
    (e.provider, e.sessionId, c, e.messageId)
  }

  /** The lightweight content of a degraded record. */
  function Omission(e: ProviderEvent): Json {
    JsonObject(map["omitted" := JsonBool(true),
                   "reason" := JsonString("message_too_large"),
                   "metadata" := JsonObject(map["provider" := JsonString(e.provider),
                                                "session_id" := JsonString(e.sessionId),
                                                "sender_identity_type" := JsonString(e.identityType),
                                                "sender_external_user_id" := JsonString(e.senderId),
                                                "msg_type" := JsonString(e.msgType)])])
  }

  function RecordPayload(e: ProviderEvent, prev: Option<nat>, ms: int, omitted: bool): Payload {
    if omitted then SyncRecord(e.messageId, e.msgType, Omission(e), None, e.eventMs, ms, prev, true,
        Some("message_too_large"))
    else SyncRecord(e.messageId, e.msgType, e.contentRaw, e.text, e.eventMs, ms, prev, false, None)
  }

  function RecordDraft(env: Env, e: ProviderEvent, c: nat, principal: nat, prev: Option<nat>, ms: int, omitted: bool): Draft
  {
    Draft(c, principal, SortedUnique(env.site.ix.PeerPrincipals(c, principal)), RecordPayload(e, prev, ms, omitted))
  }

  // ---- the environment's side

  /** On an owned channel callers write well-formed requests only, never two different ones with one id. */
  predicate CallerOk(env: Env, log: Log, msg: Message) {
    Owned(env.site, msg) ==> msg.payload.SendRequest? && EntryOk(env.site, log, msg)
  }

  /** A message the worker sent is reported only after the send, and in the session it was sent to; no
      content has the key the parser rejects. */
  predicate EventOk(env: Env, sends: seq<Delivery>, e: ProviderEvent) {
    e.contentRaw.Clean()
    && match env.originOf(e.messageId)
       case None => true
       case Some(r) => exists d :: d in sends && d.requestId == r && d.session == (e.provider, e.sessionId)
  }

  // ---- steps

  ghost predicate Step(env: Env, s: State, l: Label, t: State) {
    match l
    case CallerAppend(msg) =>
      LastSeq(s.log) < msg.sn && CallerOk(env, s.log, msg) && t == s.(log := s.log + [msg])
    case Crash => t == s.(worker := Down)
    case Restart =>
      && s.worker.Down? && Recover(env.site, s.log).Ok?
      && t == s.(worker := Up(Recover(env.site, s.log).value, |s.log|, Idle))
    case Fetch =>
      && s.worker.Up? && s.worker.phase.Idle? && s.worker.n < |s.log|
      && var m, msg := s.worker.m, s.log[s.worker.n];
      if Owned(env.site, msg) && msg.payload.SendRequest?
      then RequestAdded(m, msg).Ok? && t == s.(worker := Up(RequestAdded(m, msg).value, s.worker.n + 1, Idle))
      else t == s.(worker := Up(m, s.worker.n + 1, Idle))
    case NoTask(m) =>
      && s.worker.Up? && s.worker.phase.Idle? && NextPending(s.worker.m, m, None)
      && t == s.(worker := Up(m, s.worker.n, Idle))
    case Send(m, task, sender) =>
      && s.worker.Up? && s.worker.phase.Idle? && NextPending(s.worker.m, m, Some(task))
      && env.site.ix.SenderExternalId(task.channelId, task.principal, "bot") == Some(sender)
      && t == s.(sends := s.sends + [DeliveryOf(env, task, sender)], worker := Up(m, s.worker.n, Sent(task)))
    case CommitResult(sn, ms) =>
      && s.worker.Up? && s.worker.phase.Sent? && LastSeq(s.log) < sn && 0 <= ms
      && t == s.(log := s.log + [Stamp(ResultDraft(env, s.worker.phase.task, ms), sn)],
                 worker := s.worker.(phase := ResultOut(s.worker.phase.task, sn)))
    case MarkResult =>
      && s.worker.Up? && s.worker.phase.ResultOut?
      && t == s.(worker := Up(Settled(env, s.worker), s.worker.n, Idle))
    case CommitRecord(e, c, principal, sn, ms, omitted) =>
      && s.worker.Up? && s.worker.phase.Idle? && LastSeq(s.log) < sn
      && env.site.ix.ChannelFor(e.provider, e.sessionId) == Some(c)
      && env.site.ix.PrincipalFor(c, e.provider, e.senderId, e.identityType) == Some(principal)
      && EventOk(env, s.sends, e)
      && EventKey(e, c) !in s.worker.m.inboundSeen && !s.worker.m.ChannelHasPending(c)
      && var draft := RecordDraft(env, e, c, principal, Get(s.worker.m.links, EventKey(e, c)), ms, omitted);
      && draft.payload.Encodes()
      && t == s.(log := s.log + [Stamp(draft, sn)], worker := s.worker.(phase := RecordOut(EventKey(e, c), c, e.eventMs)))
    case MarkRecord =>
      && s.worker.Up? && s.worker.phase.RecordOut?
      && t == s.(worker := Up(Settled(env, s.worker), s.worker.n, Idle))
  }

  /** The memory once the worker has noted its last commit. */
  function Settled(env: Env, w: Worker): Mem
    requires w.Up?
  {
    match w.phase
    case ResultOut(t, sn) => ResultMarked(w.m, t, env.site.ix.Session(t.channelId), env.messageIdOf(t.requestId), sn)
    case RecordOut(k, c, ms) => RecordMarked(w.m, k, c, ms)
    case _ => w.m
  }

  ghost predicate Next(env: Env, s: State, t: State) { exists l :: Step(env, s, l, t) }

  ghost predicate Run(env: Env, states: seq<State>) {
    |states| > 0 && forall i :: 0 <= i < |states| - 1 ==> Next(env, states[i], states[i + 1])
  }

  ghost predicate Reaches(env: Env, s: State, t: State) {
    exists states :: Run(env, states) && states[0] == s && states[|states| - 1] == t
  }

  // ---- the invariant

  /** What every entry keeps to besides being acceptable: one result per request, one record per provider
      message, and records of the worker's own messages point at the result. */
  predicate EntryGood(env: Env, before: Log, msg: Message) {
    EntryOk(env.site, before, msg) && (Owned(env.site, msg) ==> ResultGood(env, before, msg)
                                                                && RecordGood(env, before, msg))
  }

  predicate ResultGood(env: Env, before: Log, msg: Message) {
    msg.payload.SendResult? ==>
      && FirstResult(env.site, before, msg.payload.requestId) == None
      && msg.payload.status == Success
      && msg.payload.sentId == Some(env.messageIdOf(msg.payload.requestId))
  }

  predicate RecordGood(env: Env, before: Log, msg: Message) {
    msg.payload.SyncRecord? ==>
      && !SeenIn(env.site, before, RecordKey(env.site, msg))
      && (env.originOf(msg.payload.messageId).Some? ==>
            Caused(env.site, before, msg, env.originOf(msg.payload.messageId).value))
  }

  /** The record answers to the result of request `r`, which is already in the log. */
  predicate Caused(site: Site, before: Log, msg: Message, r: string)
    requires msg.payload.SyncRecord?
  {
    var result := FirstResult(site, before, r);
    result.Some? && result.value.channelId == msg.channelId && msg.payload.recordPrev == Some(result.value.sn)
  }

  ghost predicate LogGood(env: Env, log: Log) {
    Increasing(log) && forall i :: 0 <= i < |log| ==> EntryGood(env, log[..i], log[i])
  }

  /** Delivered messages are exactly what their requests asked for, oldest first, and all older requests are answered. */
  ghost predicate SendsGood(env: Env, log: Log, sends: seq<Delivery>) {
    && (forall d :: d in sends ==> Genuine(env, log, d))
    && (forall d, id :: d in sends && Older(env.site, log, id, d.requestId) ==> FirstResult(env.site, log, id).Some?)
    && (forall i, j :: 0 <= i < j < |sends| ==> !Older(env.site, log, sends[j].requestId, sends[i].requestId))
  }

  predicate Genuine(env: Env, log: Log, d: Delivery) {
    var t := FirstTask(env.site, log, d.requestId);
    && t.Some? && d == DeliveryOf(env, t.value, d.sender)
    && env.site.ix.SenderExternalId(t.value.channelId, t.value.principal, "bot") == Some(d.sender)
  }

  /** Request `a` was written before request `b`. */
  predicate Older(site: Site, log: Log, a: string, b: string) {
    && FirstTask(site, log, a).Some? && FirstTask(site, log, b).Some?
    && FirstTask(site, log, a).value.sn < FirstTask(site, log, b).value.sn
  }

  ghost predicate WorkerGood(env: Env, s: State) {
    match s.worker
    case Down => true
    case Up(m, n, phase) =>
      && n <= |s.log| && Agrees(env.site, Settled(env, s.worker), s.log, n)
      && (forall d :: d in s.sends ==> FirstTask(env.site, s.log[..n], d.requestId).Some?)
      && PhaseGood(env, m, phase)
      && (phase.Sent? ==> exists d :: d in s.sends && d.requestId == phase.task.requestId)
  }

  ghost predicate PhaseGood(env: Env, m: Mem, phase: Phase) {
    match phase
    case Idle => m.blocked == map[]
    case RecordOut(_, _, _) => m.blocked == map[]
    case Sent(t) => Holding(env, m, t)
    case ResultOut(t, _) => Holding(env, m, t)
  }

  /** The worker is busy with `t`, a request of an owned channel. */
  ghost predicate Holding(env: Env, m: Mem, t: Task) {
    m.Live(t) && m.blocked == map[t.channelId := t.requestId]
  }

  ghost predicate Inv(env: Env, s: State) {
    LogGood(env, s.log) && SendsGood(env, s.log, s.sends) && WorkerGood(env, s)
  }
}
