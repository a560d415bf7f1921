/** The P2P mapping index: which channel is which provider session, and who is who in it. */
module Mapping {
  import opened Common

  datatype Entry = MappingEntry(provider: string, identityType: string, externalUserId: string,
                                principal: nat, sessionId: string, channelId: nat)
  {
    function Session(): (string, string) { (provider, sessionId) }
    function ExternalKey(): (nat, string, string, string) { (channelId, provider, identityType, externalUserId) }
    function PrincipalKey(): (nat, nat) { (channelId, principal) }
  }

  /** The five dictionaries, as a value. */
  datatype Index = Index(
    byChannel: map<nat, seq<Entry>>,
    channelSession: map<nat, (string, string)>,
    sessionChannel: map<(string, string), nat>,
    externalByChannel: map<(nat, string, string, string), Entry>,
    principalByChannel: map<(nat, nat), Entry>)
  {
    predicate Owns(c: nat) { c in byChannel }

    function Channels(): set<nat> { byChannel.Keys }

    /** `provider_session`; only asked of owned channels. */
    function Session(c: nat): (string, string) {
      if c in channelSession then channelSession[c] else ("", "")
    }

    function ChannelFor(provider: string, session: string): Option<nat> {
      Get(sessionChannel, (provider, session))
    }

    /** `sender_external_user_id`; None is its KeyError. */
    function SenderExternalId(c: nat, principal: nat, identityType: string): Option<string> {
      if (c, principal) !in principalByChannel then None
      else if principalByChannel[(c, principal)].identityType != identityType then None
      else Some(principalByChannel[(c, principal)].externalUserId)
    }

    /** `principal_for_external_user`; None is its KeyError. */
    function PrincipalFor(c: nat, provider: string, externalId: string, identityType: string): Option<nat> {
      if (c, provider, identityType, externalId) !in externalByChannel then None
      else Some(externalByChannel[(c, provider, identityType, externalId)].principal)
    }

    function Participants(c: nat): set<nat> {
      if c in byChannel then set e | e in byChannel[c] :: e.principal else {}
    }

    function PeerPrincipals(c: nat, principal: nat): seq<nat> {
      if c in byChannel then Sorted(Others(byChannel[c], principal)) else []
    }

    /** Two entries per channel, one user and one bot, in one session that no other channel has. */
    ghost predicate Sound() {
      && Bound(byChannel.Keys)
      && Filed(byChannel.Keys, [])
    }

    /** The channels in `done`, and no others, are paired up and tied to a session of their own. */
    ghost predicate Bound(done: set<nat>) {
      && channelSession.Keys == done
      && (forall c :: c in done ==>
            c in byChannel && PairedEntries(c, byChannel[c]) && channelSession[c] == byChannel[c][0].Session())
      && (forall c :: c in done ==>
            channelSession[c] in sessionChannel && sessionChannel[channelSession[c]] == c)
      && (forall s :: s in sessionChannel ==> sessionChannel[s] in done && channelSession[sessionChannel[s]] == s)
    }

    /** The entry dictionaries hold exactly the entries of the channels in `done`, and those in `es`. */
    ghost predicate Filed(done: set<nat>, es: seq<Entry>) {
      && (forall k, e {:trigger HasExternal(k, e)} :: HasExternal(k, e) ==> Among(done, es, e) && k == e.ExternalKey())
      && (forall k, e {:trigger HasPrincipal(k, e)} :: HasPrincipal(k, e) ==> Among(done, es, e) && k == e.PrincipalKey())
      && (forall e {:trigger Among(done, es, e)} :: Among(done, es, e) ==>
            HasExternal(e.ExternalKey(), e) && HasPrincipal(e.PrincipalKey(), e))
    }

    predicate HasExternal(k: (nat, string, string, string), e: Entry) {
      k in externalByChannel && externalByChannel[k] == e
    }

    predicate HasPrincipal(k: (nat, nat), e: Entry) { k in principalByChannel && principalByChannel[k] == e }

    ghost predicate Among(done: set<nat>, es: seq<Entry>, e: Entry) {
      e in es || (e.channelId in done && e.channelId in byChannel && e in byChannel[e.channelId])
    }
  }

  function Others(entries: seq<Entry>, principal: nat): seq<nat> {
    if entries == [] then []
    else
      var rest := Others(entries[..|entries| - 1], principal);
      var e := entries[|entries| - 1];
      if e.principal != principal then rest + [e.principal] else rest
  }

  function ChannelsOf(mappings: seq<Entry>): set<nat> { set e | e in mappings :: e.channelId }

  /** The entries of one channel, in configuration order. */
  function EntriesOf(mappings: seq<Entry>, c: nat): seq<Entry> {
    if mappings == [] then []
    else
      var rest := EntriesOf(mappings[..|mappings| - 1], c);
      var e := mappings[|mappings| - 1];
      if e.channelId == c then rest + [e] else rest
  }

  lemma {:induction false} EntriesOfMembers(mappings: seq<Entry>, c: nat)
    ensures forall e :: e in EntriesOf(mappings, c) <==> e in mappings && e.channelId == c
  {
    if mappings != [] {
      EntriesOfMembers(mappings[..|mappings| - 1], c);
      assert mappings == mappings[..|mappings| - 1] + [mappings[|mappings| - 1]];
    }
  }

  ghost predicate PairedEntries(c: nat, es: seq<Entry>) {
    && |es| == 2
    && es[0].channelId == es[1].channelId == c
    && es[0].principal != es[1].principal
    && UserAndBot(es[0], es[1])
    && es[0].Session() == es[1].Session()
  }

  predicate UserAndBot(e: Entry, f: Entry) {
    || (e.identityType == "user" && f.identityType == "bot")
    || (e.identityType == "bot" && f.identityType == "user")
  }

  /** What a configuration must satisfy, said without the index. */
  ghost predicate ValidMappings(mappings: seq<Entry>, tokens: map<nat, string>) {
    && (forall e :: e in mappings ==> PairedEntries(e.channelId, EntriesOf(mappings, e.channelId)))
    && (forall e :: e in mappings ==> e.principal in tokens)
    && (forall e, f :: e in mappings && f in mappings && e.Session() == f.Session() ==> e.channelId == f.channelId)
  }

  datatype ConfigError =
    | NotTwoPrincipals | NotUserAndBot | MissingToken | DuplicateExternal | DuplicatePrincipal
    | ManySessions | SharedSession

  class P2PMappingIndex {
    const mappings: seq<Entry>
    const principalTokens: map<nat, string>
    var byChannel: map<nat, seq<Entry>>
    var channelSession: map<nat, (string, string)>
    var sessionChannel: map<(string, string), nat>
    var externalByChannel: map<(nat, string, string, string), Entry>
    var principalByChannel: map<(nat, nat), Entry>

    function View(): Index reads this {
      Index(byChannel, channelSession, sessionChannel, externalByChannel, principalByChannel)
    }

    constructor (mappings: seq<Entry>, principalTokens: map<nat, string>)
      ensures this.mappings == mappings && this.principalTokens == principalTokens
      ensures View() == Index(map[], map[], map[], map[], map[])
    {
      this.mappings, this.principalTokens := mappings, principalTokens;
      byChannel, channelSession := map[], map[];
      sessionChannel, externalByChannel, principalByChannel := map[], map[], map[];
    }

    ghost predicate Grouped()
      reads this
    {
      byChannel == GroupOf(mappings)
    }

    ghost predicate Tokened(done: set<nat>)
      reads this
    {
      forall c, e :: c in done && c in byChannel && e in byChannel[c] ==> e.principal in principalTokens
    }

    method Group()
      requires byChannel == map[]
      modifies `byChannel
      ensures Grouped()
    {
      for i := 0 to |mappings|
        invariant byChannel == GroupOf(mappings[..i])
      {
        var item := mappings[i];
        assert mappings[..i + 1] == mappings[..i] + [item];
        GroupMore(mappings[..i], item);
        if item.channelId !in byChannel {
          byChannel := byChannel[item.channelId := []];
        }
        byChannel := byChannel[item.channelId := byChannel[item.channelId] + [item]];
      }
      assert mappings[..|mappings|] == mappings;
    }

    /** The per-entry checks of one channel that has a user and a bot. */
    method FileEntries(ghost done: set<nat>, c: nat) returns (r: Result<(), ConfigError>)
      requires c in byChannel && c !in done && |byChannel[c]| == 2
      requires byChannel[c][0].channelId == byChannel[c][1].channelId == c
      requires UserAndBot(byChannel[c][0], byChannel[c][1])
      requires byChannel[c][0].principal != byChannel[c][1].principal
      requires View().Filed(done, [])
      modifies `externalByChannel, `principalByChannel
      ensures r.Ok? <==> forall e :: e in byChannel[c] ==> e.principal in principalTokens
      ensures r.Ok? ==> View().Filed(done + {c}, [])
    {
      var entries := byChannel[c];
      TwoTypes(entries);
      for k := 0 to |entries|
        invariant View().Filed(done, entries[..k])
        invariant forall j :: 0 <= j < k ==> entries[j].principal in principalTokens
      {
        assert entries[..k + 1] == entries[..k] + [entries[k]];
        r := FileEntry(done, entries[..k], entries[k]);
        if r.Err? {
          return;
        }
      }
      assert entries[..|entries|] == entries;
      FileAll(View(), done, c);
      r := Ok(());
    }

    /** The body of the loop over a channel's entries; the two duplicate checks never fire. */
    method FileEntry(ghost done: set<nat>, ghost es: seq<Entry>, item: Entry) returns (r: Result<(), ConfigError>)
      requires View().Filed(done, es) && item.channelId !in done
      requires forall e :: e in es ==> e.ExternalKey() != item.ExternalKey() && e.PrincipalKey() != item.PrincipalKey()
      modifies `externalByChannel, `principalByChannel
      ensures r.Ok? <==> item.principal in principalTokens
      ensures r.Ok? ==> View().Filed(done, es + [item])
    {
      if item.principal !in principalTokens {
        return Err(MissingToken);
      }
      FileFresh(View(), done, es, item);
      FileOne(View(), done, es, item);
      if item.ExternalKey() in externalByChannel {
        assert false;
        return Err(DuplicateExternal);
      }
      externalByChannel := externalByChannel[item.ExternalKey() := item];
      if item.PrincipalKey() in principalByChannel {
        assert false;
        return Err(DuplicatePrincipal);
      }
      principalByChannel := principalByChannel[item.PrincipalKey() := item];
      r := Ok(());
    }

    /** The session checks of one channel: they fail exactly when it has not one session of its own. */
    method BindSession(ghost done: set<nat>, c: nat) returns (r: Result<(), ConfigError>)
      requires c in byChannel && c !in done && |byChannel[c]| == 2
      requires byChannel[c][0].channelId == byChannel[c][1].channelId == c
      requires UserAndBot(byChannel[c][0], byChannel[c][1])
      requires byChannel[c][0].principal != byChannel[c][1].principal
      requires View().Bound(done)
      modifies `channelSession, `sessionChannel
      ensures r.Ok? ==> View().Bound(done + {c})
      ensures r.Err? ==> !PairedEntries(c, byChannel[c])
                         || exists d :: d in done && byChannel[d][0].Session() == byChannel[c][0].Session()
    {
      var entries := byChannel[c];
      Distincts(entries);
      if |Sessions(entries)| != 1 {
        return Err(ManySessions);
      }
      var session := entries[0].Session();
      if session in sessionChannel && sessionChannel[session] != c {
        assert sessionChannel[session] in done;
        return Err(SharedSession);
      }
      sessionChannel := sessionChannel[session := c];
      channelSession := channelSession[c := session];
      r := Ok(());
    }

    /** `_build`: succeeds exactly on valid mappings, and then the index is sound. */
    method Build() returns (r: Result<(), ConfigError>)
      requires View() == Index(map[], map[], map[], map[], map[])
      modifies this
      ensures r.Ok? <==> WellConfigured(mappings, principalTokens)
      ensures r.Ok? ==> View().Sound()
      ensures r.Ok? ==> forall c, e :: c in byChannel && e in byChannel[c] <==> e in mappings && e.channelId == c
    {
      hide ValidMappings, WellConfigured, Index.Bound, Index.Filed, GroupOf;
      Group();
      r := BuildChannels();
      ValidIsWellConfigured(mappings, principalTokens);
      GroupMembers(mappings);
    }

    /** The loop over channels, in any order. */
    method BuildChannels() returns (r: Result<(), ConfigError>)
      requires Grouped()
      requires View() == Index(byChannel, map[], map[], map[], map[])
      modifies `externalByChannel, `principalByChannel, `channelSession, `sessionChannel
      ensures r.Ok? ==> ValidMappings(mappings, principalTokens) && View().Sound()
      ensures r.Err? ==> !ValidMappings(mappings, principalTokens)
    {
      var done: set<nat> := {};
      while done < byChannel.Keys
        invariant done <= byChannel.Keys && Progress(done)
        decreases byChannel.Keys - done
      {
        var c :| c in byChannel && c !in done;
        r := AddChannel(done, c);
        if r.Err? {
          return;
        }
        done := done + {c};
      }
      AllDone(done);
      return Ok(());
    }

    ghost predicate Progress(done: set<nat>)
      reads this
    {
      View().Bound(done) && View().Filed(done, []) && Tokened(done)
    }

    /** The body of the loop over channels. */
    method AddChannel(ghost done: set<nat>, c: nat) returns (r: Result<(), ConfigError>)
      requires Grouped() && c in byChannel && c !in done && done <= byChannel.Keys
      requires Progress(done)
      modifies `externalByChannel, `principalByChannel, `channelSession, `sessionChannel
      ensures r.Ok? ==> Progress(done + {c})
      ensures r.Err? ==> !ValidMappings(mappings, principalTokens)
    {
      var entries := byChannel[c];
      ValidChannel(mappings, principalTokens, c);
      Distincts(entries);
      if |Principals(entries)| != 2 || |entries| != 2 {
        return Err(NotTwoPrincipals);
      }
      TwoTypes(entries);
      if IdentityTypes(entries) != {"user", "bot"} {
        return Err(NotUserAndBot);
      }
      r := FinishChannel(done, c);
    }

    /** The rest of the body, for a channel with one user and one bot. */
    method FinishChannel(ghost done: set<nat>, c: nat) returns (r: Result<(), ConfigError>)
      requires Grouped() && c in byChannel && c !in done && done <= byChannel.Keys && Progress(done)
      requires |byChannel[c]| == 2 && UserAndBot(byChannel[c][0], byChannel[c][1])
      requires byChannel[c][0].principal != byChannel[c][1].principal
      modifies `externalByChannel, `principalByChannel, `channelSession, `sessionChannel
      ensures r.Ok? ==> Progress(done + {c})
      ensures r.Err? ==> !ValidMappings(mappings, principalTokens)
    {
      hide ValidMappings, Index.Filed;
      ValidChannel(mappings, principalTokens, c);
      EntriesOfMembers(mappings, c);
      assert byChannel[c][0] in byChannel[c] && byChannel[c][1] in byChannel[c];
      r := FileEntries(done, c);
      if r.Err? {
        return;
      }
      ghost var filed := View();
      r := BindSession(done, c);
      FiledFrame(filed, View(), done + {c});
      if r.Err? {
        if d :| d in done && byChannel[d][0].Session() == byChannel[c][0].Session() {
          ValidSessions(mappings, principalTokens, c, d);
        }
      }
    }

    /** Once every channel is bound, an entry's channel has that entry's session. */
    lemma Belongs(e: Entry)
      requires Grouped()
      requires View().Bound(byChannel.Keys)
      requires e in mappings
      ensures e.channelId in byChannel && PairedEntries(e.channelId, EntriesOf(mappings, e.channelId))
      ensures Get(channelSession, e.channelId) == Some(e.Session())
      ensures e in byChannel[e.channelId]
    {
      assert e.channelId in byChannel;
      EntriesOfMembers(mappings, e.channelId);
    }

    lemma AllDone(done: set<nat>)
      requires Grouped() && Progress(done) && done == byChannel.Keys
      ensures ValidMappings(mappings, principalTokens) && View().Sound()
    {
      forall e | e in mappings
        ensures PairedEntries(e.channelId, EntriesOf(mappings, e.channelId)) && e.principal in principalTokens
      {
        Belongs(e);
      }
      forall e, f | e in mappings && f in mappings && e.Session() == f.Session() ensures e.channelId == f.channelId {
        Belongs(e);
        Belongs(f);
      }
    }
  }

  function Principals(es: seq<Entry>): set<nat> { set e | e in es :: e.principal }

  function IdentityTypes(es: seq<Entry>): set<string> { set e | e in es :: e.identityType }

  function Sessions(es: seq<Entry>): set<(string, string)> { set e | e in es :: e.Session() }

  /** On two entries the set sizes tell equal from different. */
  lemma Distincts(es: seq<Entry>)
    ensures |es| == 2 ==> (|Principals(es)| == 2 <==> es[0].principal != es[1].principal)
    ensures |es| == 2 ==> IdentityTypes(es) == {es[0].identityType, es[1].identityType}
    ensures |es| == 2 ==> (|Sessions(es)| == 1 <==> es[0].Session() == es[1].Session())
  {
    if |es| == 2 {
      assert es == [es[0], es[1]];
      assert Principals(es) == {es[0].principal, es[1].principal};
      assert Sessions(es) == {es[0].Session(), es[1].Session()};
    }
  }

  lemma TwoTypes(es: seq<Entry>)
    requires |es| == 2
    ensures IdentityTypes(es) == {"user", "bot"} <==> UserAndBot(es[0], es[1])
    ensures UserAndBot(es[0], es[1]) ==> es[0].identityType != es[1].identityType
  {
    Distincts(es);
    assert |"user"| != |"bot"|;
    if IdentityTypes(es) == {"user", "bot"} {
      assert "user" in IdentityTypes(es) && "bot" in IdentityTypes(es);
    }
  }

  function GroupOf(ms: seq<Entry>): map<nat, seq<Entry>> {
    map c | c in ChannelsOf(ms) :: EntriesOf(ms, c)
  }

  lemma GroupMembers(ms: seq<Entry>)
    ensures forall c, e :: c in GroupOf(ms) && e in GroupOf(ms)[c] <==> e in ms && e.channelId == c
  {
    forall c, e ensures c in GroupOf(ms) && e in GroupOf(ms)[c] <==> e in ms && e.channelId == c {
      EntriesOfMembers(ms, c);
    }
  }

  lemma GroupMore(ms: seq<Entry>, item: Entry)
    ensures GroupOf(ms + [item])
            == GroupOf(ms)[item.channelId :=
                 (if item.channelId in GroupOf(ms) then GroupOf(ms)[item.channelId] else []) + [item]]
  {
    assert (ms + [item])[..|ms|] == ms;
    assert ChannelsOf(ms + [item]) == ChannelsOf(ms) + {item.channelId};
    NoEntries(ms, item.channelId);
  }

  lemma {:induction false} NoEntries(ms: seq<Entry>, c: nat)
    ensures c in ChannelsOf(ms) <==> EntriesOf(ms, c) != []
  {
    if ms != [] {
      assert ms == ms[..|ms| - 1] + [ms[|ms| - 1]];
      NoEntries(ms[..|ms| - 1], c);
    }
  }

  lemma ValidChannel(mappings: seq<Entry>, tokens: map<nat, string>, c: nat)
    requires c in ChannelsOf(mappings)
    ensures ValidMappings(mappings, tokens) ==> PairedEntries(c, EntriesOf(mappings, c))
    ensures ValidMappings(mappings, tokens) ==> forall e :: e in EntriesOf(mappings, c) ==> e.principal in tokens
  {
    EntriesOfMembers(mappings, c);
  }

  lemma ValidSessions(mappings: seq<Entry>, tokens: map<nat, string>, c: nat, d: nat)
    requires c in ChannelsOf(mappings) && d in ChannelsOf(mappings) && c != d
    requires |EntriesOf(mappings, c)| == |EntriesOf(mappings, d)| == 2
    ensures ValidMappings(mappings, tokens)
            ==> EntriesOf(mappings, c)[0].Session() != EntriesOf(mappings, d)[0].Session()
  {
    EntriesOfMembers(mappings, c);
    EntriesOfMembers(mappings, d);
    assert EntriesOf(mappings, c)[0] in EntriesOf(mappings, c);
    assert EntriesOf(mappings, d)[0] in EntriesOf(mappings, d);
  }

  /** No entry of a fresh channel is filed under the keys of a new one. */
  lemma FileFresh(ix: Index, done: set<nat>, es: seq<Entry>, item: Entry)
    requires ix.Filed(done, es) && item.channelId !in done
    requires forall e :: e in es ==> e.ExternalKey() != item.ExternalKey() && e.PrincipalKey() != item.PrincipalKey()
    ensures item.ExternalKey() !in ix.externalByChannel && item.PrincipalKey() !in ix.principalByChannel
  {
    var k, p := item.ExternalKey(), item.PrincipalKey();
    assert k in ix.externalByChannel ==> ix.HasExternal(k, ix.externalByChannel[k]);
    assert p in ix.principalByChannel ==> ix.HasPrincipal(p, ix.principalByChannel[p]);
  }

  function File(ix: Index, item: Entry): Index {
    ix.(externalByChannel := ix.externalByChannel[item.ExternalKey() := item],
        principalByChannel := ix.principalByChannel[item.PrincipalKey() := item])
  }

  /** Filing one more entry of a channel that is not finished. */
  lemma FileOne(ix: Index, done: set<nat>, es: seq<Entry>, item: Entry)
    requires ix.Filed(done, es)
    requires item.ExternalKey() !in ix.externalByChannel && item.PrincipalKey() !in ix.principalByChannel
    ensures File(ix, item).Filed(done, es + [item])
  {
    var next := File(ix, item);
    forall e ensures next.Among(done, es + [item], e) <==> ix.Among(done, es, e) || e == item {}
    forall k, e ensures next.HasExternal(k, e) <==> ix.HasExternal(k, e) || (k == item.ExternalKey() && e == item) {}
    forall k, e ensures next.HasPrincipal(k, e) <==> ix.HasPrincipal(k, e) || (k == item.PrincipalKey() && e == item) {}
  }

  lemma FiledFrame(ix: Index, other: Index, done: set<nat>)
    requires ix.Filed(done, [])
    requires other == ix.(channelSession := other.channelSession, sessionChannel := other.sessionChannel)
    ensures other.Filed(done, [])
  {
    forall e ensures other.Among(done, [], e) <==> ix.Among(done, [], e) {}
    forall k, e ensures other.HasExternal(k, e) <==> ix.HasExternal(k, e) {}
    forall k, e ensures other.HasPrincipal(k, e) <==> ix.HasPrincipal(k, e) {}
  }

  /** When both entries are filed the channel is finished. */
  lemma FileAll(ix: Index, done: set<nat>, c: nat)
    requires c in ix.byChannel && ix.Filed(done, ix.byChannel[c])
    requires forall e :: e in ix.byChannel[c] ==> e.channelId == c
    ensures ix.Filed(done + {c}, [])
  {
    forall e ensures ix.Among(done, ix.byChannel[c], e) <==> ix.Among(done + {c}, [], e) {}
  }

  // ---- what the lookups of a sound index promise

  lemma SessionsInverse(ix: Index, c: nat, s: (string, string))
    requires ix.Sound()
    ensures Get(ix.channelSession, c) == Some(s) <==> ix.ChannelFor(s.0, s.1) == Some(c)
  {
    assert (s.0, s.1) == s;
  }

  /** The two entries of a channel are the only ones. */
  lemma TwoEntries(ix: Index, c: nat)
    requires ix.Sound() && ix.Owns(c)
    ensures PairedEntries(c, ix.byChannel[c])
    ensures forall e :: e in ix.byChannel[c] <==> e == ix.byChannel[c][0] || e == ix.byChannel[c][1]
    ensures ix.Participants(c) == {ix.byChannel[c][0].principal, ix.byChannel[c][1].principal}
  {
    assert ix.byChannel[c] == [ix.byChannel[c][0], ix.byChannel[c][1]];
  }

  lemma OthersOfTwo(e: Entry, f: Entry, p: nat)
    ensures Others([e, f], p)
            == (if e.principal != p then [e.principal] else []) + (if f.principal != p then [f.principal] else [])
  {
    assert [e, f][..1] == [e] && [e][..0] == [];
    assert Others([e], p) == if e.principal != p then [e.principal] else [];
  }

  lemma PeersOfPair(ix: Index, c: nat, p: nat) returns (q: nat)
    requires c in ix.byChannel && PairedEntries(c, ix.byChannel[c]) && p in ix.Participants(c)
    ensures ix.Participants(c) == {p, q} && p != q
    ensures ix.PeerPrincipals(c, p) == [q] && ix.PeerPrincipals(c, q) == [p]
  {
    var es := ix.byChannel[c];
    assert es == [es[0], es[1]];
    q := if p == es[0].principal then es[1].principal else es[0].principal;
    OthersOfTwo(es[0], es[1], p);
    OthersOfTwo(es[0], es[1], q);
    assert [q][..0] == [] && [p][..0] == [];
  }

  /** A participant has one peer, and is that peer's peer. */
  lemma PeersInvolution(ix: Index, c: nat, p: nat) returns (q: nat)
    requires ix.Sound() && ix.Owns(c) && p in ix.Participants(c)
    ensures ix.Participants(c) == {p, q} && p != q
    ensures ix.PeerPrincipals(c, p) == [q] && ix.PeerPrincipals(c, q) == [p]
  {
    q := PeersOfPair(ix, c, p);
  }

  /** For one identity type the principal and external-id lookups undo each other. */
  lemma IdentitiesInverse(ix: Index, c: nat, principal: nat, external: string, identityType: string)
    requires ix.Sound() && ix.Owns(c)
    ensures ix.SenderExternalId(c, principal, identityType) == Some(external)
            <==> ix.PrincipalFor(c, ix.channelSession[c].0, external, identityType) == Some(principal)
  {
    TwoEntries(ix, c);
    var es := ix.byChannel[c];
    var provider := ix.channelSession[c].0;
    var k, p := (c, provider, identityType, external), (c, principal);
    assert k in ix.externalByChannel ==> ix.HasExternal(k, ix.externalByChannel[k]);
    assert p in ix.principalByChannel ==> ix.HasPrincipal(p, ix.principalByChannel[p]);
    assert ix.Among(ix.byChannel.Keys, [], es[0]) && ix.Among(ix.byChannel.Keys, [], es[1]);
  }

  /** A resolved sender is a participant of the channel. */
  lemma ResolvedParticipates(ix: Index, c: nat, provider: string, external: string, identityType: string)
    requires ix.Sound()
    ensures var p := ix.PrincipalFor(c, provider, external, identityType);
            p.Some? ==> ix.Owns(c) && p.value in ix.Participants(c)
  {
    var k := (c, provider, identityType, external);
    assert k in ix.externalByChannel ==> ix.HasExternal(k, ix.externalByChannel[k]);
  }

  // ---- the same, in the fields of the entries

  /** Of two entries one is the user and one the bot, with principals of their own, in one session. */
  predicate Pair(e: Entry, f: Entry) {
    && ((e.identityType == "user" && f.identityType == "bot") || (e.identityType == "bot" && f.identityType == "user"))
    && e.principal != f.principal && e.provider == f.provider && e.sessionId == f.sessionId
  }

  /** Positions `i` and `j`, and no others, configure the channel. */
  predicate OnlyAt(ms: seq<Entry>, i: nat, j: nat, c: nat) {
    && i < j < |ms| && ms[i].channelId == ms[j].channelId == c
    && forall k :: 0 <= k < |ms| && ms[k].channelId == c ==> k == i || k == j
  }

  predicate PairAt(ms: seq<Entry>, i: nat, j: nat, c: nat) { OnlyAt(ms, i, j, c) && Pair(ms[i], ms[j]) }

  ghost predicate HasPair(ms: seq<Entry>, c: nat) { exists i: nat, j: nat :: PairAt(ms, i, j, c) }

  /** What the index is built from: every principal has a token, every channel one pair of entries, and no two channels
      one session. */
  ghost predicate WellConfigured(ms: seq<Entry>, tokens: map<nat, string>) {
    && (forall k :: 0 <= k < |ms| ==> ms[k].principal in tokens)
    && (forall k :: 0 <= k < |ms| ==> HasPair(ms, ms[k].channelId))
    && (forall i, j :: 0 <= i < |ms| && 0 <= j < |ms| ==>
          ms[i].provider == ms[j].provider && ms[i].sessionId == ms[j].sessionId ==> ms[i].channelId == ms[j].channelId)
  }

  lemma {:induction false} NoneAt(ms: seq<Entry>, c: nat)
    requires forall k :: 0 <= k < |ms| ==> ms[k].channelId != c
    ensures EntriesOf(ms, c) == []
  {
    if ms != [] {
      NoneAt(ms[..|ms| - 1], c);
    }
  }

  lemma {:induction false} OneAt(ms: seq<Entry>, i: nat, c: nat)
    requires i < |ms| && ms[i].channelId == c && forall k :: 0 <= k < |ms| && k != i ==> ms[k].channelId != c
    ensures EntriesOf(ms, c) == [ms[i]]
  {
    if i == |ms| - 1 {
      NoneAt(ms[..|ms| - 1], c);
    } else {
      OneAt(ms[..|ms| - 1], i, c);
    }
  }

  lemma {:induction false} TwoAt(ms: seq<Entry>, i: nat, j: nat, c: nat)
    requires OnlyAt(ms, i, j, c)
    ensures EntriesOf(ms, c) == [ms[i], ms[j]]
  {
    if j == |ms| - 1 {
      OneAt(ms[..|ms| - 1], i, c);
    } else {
      TwoAt(ms[..|ms| - 1], i, j, c);
    }
  }

  /** Where an entry comes from. */
  lemma {:induction false} Position(ms: seq<Entry>, c: nat) returns (i: nat)
    requires |EntriesOf(ms, c)| == 1
    ensures i < |ms| && ms[i].channelId == c && forall k :: 0 <= k < |ms| && k != i ==> ms[k].channelId != c
  {
    var before := ms[..|ms| - 1];
    if ms[|ms| - 1].channelId == c {
      i := |ms| - 1;
      NoEntries(before, c);
      assert forall k :: 0 <= k < i ==> before[k] in before;
    } else {
      i := Position(before, c);
      assert forall k :: 0 <= k < |before| ==> ms[k] == before[k];
    }
  }

  lemma {:induction false} Positions(ms: seq<Entry>, c: nat) returns (i: nat, j: nat)
    requires |EntriesOf(ms, c)| == 2
    ensures OnlyAt(ms, i, j, c)
  {
    var before := ms[..|ms| - 1];
    assert forall k :: 0 <= k < |before| ==> ms[k] == before[k];
    if ms[|ms| - 1].channelId == c {
      i := Position(before, c);
      j := |ms| - 1;
    } else {
      i, j := Positions(before, c);
    }
  }

  lemma PositionsPair(ms: seq<Entry>, i: nat, j: nat, c: nat)
    requires OnlyAt(ms, i, j, c)
    ensures PairedEntries(c, EntriesOf(ms, c)) <==> PairAt(ms, i, j, c)
  {
    TwoAt(ms, i, j, c);
  }

  lemma FromPositions(ms: seq<Entry>, i: nat, j: nat, c: nat)
    requires PairAt(ms, i, j, c)
    ensures PairedEntries(c, EntriesOf(ms, c))
  {
    PositionsPair(ms, i, j, c);
  }

  lemma ValidIsConfigured(ms: seq<Entry>, tokens: map<nat, string>)
    requires ValidMappings(ms, tokens)
    ensures WellConfigured(ms, tokens)
  {
    hide OnlyAt, PairedEntries, PairAt;
    assert forall k :: 0 <= k < |ms| ==> ms[k] in ms;
    forall i, j | 0 <= i < |ms| && 0 <= j < |ms| && ms[i].provider == ms[j].provider && ms[i].sessionId == ms[j].sessionId
      ensures ms[i].channelId == ms[j].channelId
    {
      assert ms[i].Session() == ms[j].Session();
    }
    forall k | 0 <= k < |ms| ensures HasPair(ms, ms[k].channelId) {
      assert PairedEntries(ms[k].channelId, EntriesOf(ms, ms[k].channelId));
      assert |EntriesOf(ms, ms[k].channelId)| == 2 by { TwoOf(ms[k].channelId, EntriesOf(ms, ms[k].channelId)); }
      var i, j := Positions(ms, ms[k].channelId);
      PositionsPair(ms, i, j, ms[k].channelId);
    }
  }

  lemma TwoOf(c: nat, es: seq<Entry>)
    requires PairedEntries(c, es)
    ensures |es| == 2
  {}

  lemma ConfiguredIsValid(ms: seq<Entry>, tokens: map<nat, string>)
    requires WellConfigured(ms, tokens)
    ensures ValidMappings(ms, tokens)
  {
    hide PairedEntries, PairAt;
    forall e | e in ms ensures PairedEntries(e.channelId, EntriesOf(ms, e.channelId)) {
      var k :| 0 <= k < |ms| && ms[k] == e;
      var i: nat, j: nat :| PairAt(ms, i, j, ms[k].channelId);
      FromPositions(ms, i, j, e.channelId);
    }
    forall e, f | e in ms && f in ms && e.Session() == f.Session() ensures e.channelId == f.channelId {
      var i :| 0 <= i < |ms| && ms[i] == e;
      var j :| 0 <= j < |ms| && ms[j] == f;
    }
  }

  /** The mappings that can be built, in the fields of their entries. */
  lemma ValidIsWellConfigured(ms: seq<Entry>, tokens: map<nat, string>)
    ensures ValidMappings(ms, tokens) <==> WellConfigured(ms, tokens)
  {
    hide ValidMappings, WellConfigured;
    if ValidMappings(ms, tokens) {
      ValidIsConfigured(ms, tokens);
    }
    if WellConfigured(ms, tokens) {
      ConfiguredIsValid(ms, tokens);
    }
  }

  /** The channel has such an entry. */
  predicate Configured(ix: Index, c: nat, principal: nat, identityType: string, externalId: string) {
    c in ix.byChannel
    && exists e :: e in ix.byChannel[c] && e.principal == principal && e.identityType == identityType
                   && e.externalUserId == externalId
  }

  /** Every lookup of a sound index, in the fields of the two entries of a channel. */
  lemma LookupsAreEntries(ix: Index, c: nat)
    requires ix.Sound() && ix.Owns(c)
    ensures |ix.byChannel[c]| == 2 && Pair(ix.byChannel[c][0], ix.byChannel[c][1])
    ensures forall e :: e in ix.byChannel[c] ==> e.channelId == c && ix.Session(c) == (e.provider, e.sessionId)
    ensures forall p: nat, t, x :: ix.SenderExternalId(c, p, t) == Some(x) <==> Configured(ix, c, p, t, x)
    ensures forall provider, p: nat, t, x :: ix.PrincipalFor(c, provider, x, t) == Some(p)
                                        <==> Configured(ix, c, p, t, x) && provider == ix.byChannel[c][0].provider
  {
    TwoEntries(ix, c);
    var es := ix.byChannel[c];
    assert ix.Among(ix.byChannel.Keys, [], es[0]) && ix.Among(ix.byChannel.Keys, [], es[1]);
    forall p: nat, t, x ensures ix.SenderExternalId(c, p, t) == Some(x) <==> Configured(ix, c, p, t, x) {
      assert (c, p) in ix.principalByChannel ==> ix.HasPrincipal((c, p), ix.principalByChannel[(c, p)]);
    }
    forall provider, p: nat, t, x
      ensures ix.PrincipalFor(c, provider, x, t) == Some(p) <==> Configured(ix, c, p, t, x) && provider == es[0].provider
    {
      var k := (c, provider, t, x);
      assert k in ix.externalByChannel ==> ix.HasExternal(k, ix.externalByChannel[k]);
    }
  }

  /** A session's channel is the one whose entries are in it. */
  lemma SessionsAreEntries(ix: Index, provider: string, session: string, c: nat)
    requires ix.Sound()
    ensures ix.ChannelFor(provider, session) == Some(c)
            <==> c in ix.byChannel && exists e :: e in ix.byChannel[c] && e.provider == provider && e.sessionId == session
  {
    if ix.Owns(c) {
      LookupsAreEntries(ix, c);
      assert ix.byChannel[c][0] in ix.byChannel[c];
    }
    SessionsInverse(ix, c, (provider, session));
  }
}
