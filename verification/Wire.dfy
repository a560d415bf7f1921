/**
 OpenEvent messages as the `im.v1` codec reads them, and the append-only log
 that holds them.
 */
module Wire {
  import opened Common

  datatype Json =
    | JsonNull
    | JsonBool(b: bool)
    | JsonNumber(n: int)
    | JsonString(s: string)
    | JsonArray(items: seq<Json>)
    | JsonObject(fields: map<string, Json>)
  {
    /** `reject_source_principal` has nothing to reject: no object inside has that key. */
    predicate Clean() {
      match this
      case JsonObject(fields) => "source_principal" !in fields && forall k :: k in fields ==> fields[k].Clean()
      case JsonArray(items) => forall i :: 0 <= i < |items| ==> items[i].Clean()
      case _ => true
    }
  }

  datatype Status = Success | Failed

  datatype Payload =
    | SendRequest(requestId: string, msgType: string, content: Json, eventMs: int, requestPrev: Option<nat>)
    | SendResult(requestId: string, resultPrev: nat, status: Status, sentId: Option<string>, eventMs: int)
    | SyncRecord(messageId: string, msgType: string, contentRaw: Json, text: Option<string>, eventMs: int,
                 ingestedMs: int, recordPrev: Option<nat>, omitted: bool, omitReason: Option<string>)
    | Garbage
  {
    /** The encoders accept this payload. */
    predicate Encodes() {
      match this
      case SendRequest(id, kind, content, ms, _) => id != "" && kind != "" && content.JsonObject? && 0 <= ms
      case SendResult(id, _, _, _, ms) => id != "" && 0 <= ms
      case SyncRecord(id, kind, raw, _, ms, ingested, _, _, _) =>
        id != "" && kind != "" && raw.JsonObject? && 0 <= ms && 0 <= ingested
      case Garbage => false
    }

    /** Only message contents can hold a forbidden key. */
    predicate Clean() {
      match this
      case SendRequest(_, _, content, _, _) => content.Clean()
      case SyncRecord(_, _, raw, _, _, _, _, _, _) => raw.Clean()
      case _ => true
    }

    /** `decode_payload` accepts this payload: what the encoders ask, and no forbidden key. */
    predicate Parses() { Encodes() && Clean() }
  }

  /** What a writer hands to the log; the log adds the seq. */
  datatype Draft = Draft(channelId: nat, principal: nat, recipients: seq<nat>, payload: Payload)

  /** `sn` is the seq the log gave the message. */
  datatype Message = Message(sn: nat, channelId: nat, principal: nat, recipients: seq<nat>, payload: Payload) {
    /** `_matches_publish`. */
    predicate Matches(d: Draft) {
      principal == d.principal && channelId == d.channelId && recipients == d.recipients && payload == d.payload
    }
  }

  /** The message without its seq. */
  function Unstamped(m: Message): Draft { Draft(m.channelId, m.principal, m.recipients, m.payload) }

  function Stamp(d: Draft, s: nat): (m: Message)
    ensures m.Matches(d) && m.sn == s
  {
    Message(s, d.channelId, d.principal, d.recipients, d.payload)
  }

  /** A message matches a draft exactly if it is the draft with a seq. */
  lemma MatchesMeaning(m: Message, d: Draft)
    ensures m.Matches(d) <==> m == Message(m.sn, d.channelId, d.principal, d.recipients, d.payload)
    ensures Stamp(d, m.sn) == Message(m.sn, d.channelId, d.principal, d.recipients, d.payload)
  {}

  type Log = seq<Message>

  /** The largest seq in the log, 0 when it is empty. */
  function LastSeq(log: Log): nat {
    if log == [] then 0 else log[|log| - 1].sn
  }

  /** Seqs are positive and strictly increasing. */
  ghost predicate Increasing(log: Log) {
    && (forall i :: 0 <= i < |log| ==> 0 < log[i].sn)
    && (forall i, j :: 0 <= i < j < |log| ==> log[i].sn < log[j].sn)
  }

  /** How many entries have a seq below `s`. */
  function Below(log: Log, s: nat): (n: nat)
    ensures n <= |log|
  {
    if log == [] then 0
    else if log[|log| - 1].sn < s then |log|
    else Below(log[..|log| - 1], s)
  }

  lemma {:induction false} BelowSplits(log: Log, s: nat)
    requires Increasing(log)
    ensures forall i :: 0 <= i < |log| ==> (i < Below(log, s) <==> log[i].sn < s)
  {
    if log != [] && log[|log| - 1].sn >= s {
      BelowSplits(log[..|log| - 1], s);
      forall i | 0 <= i < |log| ensures i < Below(log, s) <==> log[i].sn < s {
        if i < |log| - 1 { assert log[..|log| - 1][i] == log[i]; }
      }
    }
  }

  /** The split point is the only one. */
  lemma {:induction false} BelowIs(log: Log, s: nat, n: nat)
    requires Increasing(log) && n <= |log|
    requires forall i :: 0 <= i < n ==> log[i].sn < s
    requires forall i :: n <= i < |log| ==> s <= log[i].sn
    ensures Below(log, s) == n
  {
    if n < |log| {
      BelowIs(log[..|log| - 1], s, n);
    }
  }

  lemma {:induction false} BelowMonotone(log: Log, s: nat, t: nat)
    requires s <= t
    ensures Below(log, s) <= Below(log, t)
  {
    if log != [] {
      BelowMonotone(log[..|log| - 1], s, t);
    }
  }

  /** Appending never moves a split point that lies inside the old log. */
  lemma BelowStable(old_: Log, log: Log, s: nat)
    requires Increasing(log) && old_ <= log && s <= LastSeq(old_) + 1
    ensures Increasing(old_) && Below(log, s) == Below(old_, s)
  {
    assert forall i :: 0 <= i < |old_| ==> old_[i] == log[i];
    BelowSplits(old_, s);
    var b := Below(old_, s);
    forall i | b <= i < |log| ensures s <= log[i].sn {
      if i >= |old_| && |old_| > 0 { assert log[|old_| - 1].sn < log[i].sn; }
    }
    BelowIs(log, s, b);
  }

  lemma BelowAll(log: Log, s: nat)
    requires Increasing(log) && LastSeq(log) < s
    ensures Below(log, s) == |log|
  {}

  /** The entries on the given channels, in order. */
  function Select(log: Log, channels: set<nat>): Log {
    if log == [] then []
    else
      var rest := Select(log[..|log| - 1], channels);
      if log[|log| - 1].channelId in channels then rest + [log[|log| - 1]] else rest
  }

  lemma {:induction false} SelectConcat(a: Log, b: Log, channels: set<nat>)
    ensures Select(a + b, channels) == Select(a, channels) + Select(b, channels)
  {
    if b == [] {
      assert a + b == a;
    } else {
      SelectConcat(a, b[..|b| - 1], channels);
      assert (a + b)[..|a + b| - 1] == a + b[..|b| - 1];
    }
  }

  /** A slice cut at a middle index. */
  lemma SelectSlices(log: Log, i: nat, j: nat, k: nat, channels: set<nat>)
    requires i <= j <= k <= |log|
    ensures Select(log[i..k], channels) == Select(log[i..j], channels) + Select(log[j..k], channels)
  {
    assert log[i..k] == log[i..j] + log[j..k];
    SelectConcat(log[i..j], log[j..k], channels);
  }

  lemma {:induction false} SelectIncreases(log: Log, channels: set<nat>)
    requires Increasing(log)
    ensures Increasing(Select(log, channels))
  {
    if log != [] {
      var rest, last := log[..|log| - 1], log[|log| - 1];
      assert forall i :: 0 <= i < |rest| ==> rest[i] == log[i];
      SelectIncreases(rest, channels);
      SelectMembers(rest, channels);
      assert forall i :: 0 <= i < |Select(rest, channels)| ==> Select(rest, channels)[i] in rest;
    }
  }

  lemma {:induction false} SelectMembers(log: Log, channels: set<nat>)
    ensures forall m :: m in Select(log, channels) <==> m in log && m.channelId in channels
  {
    if log != [] {
      SelectMembers(log[..|log| - 1], channels);
      assert log == log[..|log| - 1] + [log[|log| - 1]];
    }
  }
}
