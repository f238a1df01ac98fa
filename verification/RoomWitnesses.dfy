/** Runs of a room in which the less expected things do happen, one for every known room version. */
module RoomWitnesses {
  import opened Options
  import opened Ids
  import opened RoomVersions
  import opened AuthEvents
  import opened AuthRules
  import opened AuthSelection
  import opened AuthChecks
  import opened RoomHistory

  const ALICE := "@a:h"
  const BOB := "@b:h"
  const CAROL := "@c:h"

  lemma UsersDiffer()
    ensures ALICE != BOB && ALICE != CAROL && BOB != CAROL
    ensures Domain(ALICE) == Domain(BOB) == Domain(CAROL) == Domain("!r:h") == Some("h")
  {
    assert ALICE[1] == 'a' && BOB[1] == 'b' && CAROL[1] == 'c';
    DomainAfterColon("@a", ALICE);
    DomainAfterColon("@b", BOB);
    DomainAfterColon("@c", CAROL);
    DomainAfterColon("!r", "!r:h");
  }

  lemma DomainAfterColon(local: string, id: string)
    requires id == local + ":h" && forall c <- local :: c != ':'
    ensures Domain(id) == Some("h")
  {
    var i := Find(id, ':', 0);
    assert id[|local|] == ':';
    assert forall j | 0 <= j < |local| :: id[j] == local[j] && local[j] in local;
    assert i == |local|;
    assert id[i + 1..] == "h";
  }

  // ---- Building runs ----

  function Id(n: nat): string {
    seq(n + 1, _ => '$')
  }

  /** Alice creates the room. */
  function Founding(v: RoomVersion): Event {
    Event(Id(0), "!r:h", !v.roomIdsAsHashes, Create, Some(""), ALICE, v, [], [], false,
          BLANK.(creator := Some(ALICE), roomVersion := Some(v.identifier)))
  }

  /** The event at place `n` of a history, with its list still to be filled in. */
  function Next(v: RoomVersion, n: nat, etype: EventType, key: Option<string>, sender: string, content: Content): Event
    requires n > 0
  {
    Event(Id(n), "!r:h", true, etype, key, sender, v, [Id(n - 1)], [], false, content)
  }

  function Change(v: RoomVersion, n: nat, sender: string, target: string, m: Membership): Event
    requires n > 0
  {
    Next(v, n, Member, Some(target), sender, BLANK.(membership := Some(m)))
  }

  /** A run in the making. */
  ghost predicate Prepared(v: RoomVersion, h: seq<Event>) {
    && Run(v, h) && |h| > 0 && h[0] == Founding(v)
    && (forall i: nat | i < |h| :: h[i].id == Id(i) && h[i].roomId == "!r:h" && !h[i].rejected)
    && ListsPass(h)
  }

  /** The first `n` events by ID. */
  function Known(h: seq<Event>, n: nat): map<string, Event>
    requires n <= |h|
  {
    if n == 0 then map[] else Known(h, n - 1)[h[n - 1].id := h[n - 1]]
  }

  /** The list of every event after the first passes its check against the events before it. */
  ghost predicate ListsPass(h: seq<Event>) {
    forall i: nat | 0 < i < |h| :: AuthListOk(h[i], Known(h, i))
  }

  ghost predicate Usable(v: RoomVersion) {
    Coherent(v) && IsKnownIdentifier(v.identifier)
  }

  lemma {:induction false} Founded(v: RoomVersion) returns (h: seq<Event>)
    requires Usable(v)
    ensures Prepared(v, h) && |h| == 1 && StateAt(h, 1) == map[CREATE_KEY := Founding(v)]
  {
    hide IsKnownIdentifier;
    h := [Founding(v)];
    UsersDiffer();
    assert StateAt(h, 0) == map[];
    assert StepOk(v, h, 0);
  }

  lemma {:induction false} StateAtPrefix(h: seq<Event>, e: Event, i: nat)
    requires i <= |h|
    ensures StateAt(h + [e], i) == StateAt(h, i) && Known(h + [e], i) == Known(h, i)
  {
    if i > 0 {
      StateAtPrefix(h, e, i - 1);
    }
  }

  lemma {:induction false} KnownAt(h: seq<Event>, n: nat, j: nat)
    requires j < n <= |h| && forall i: nat | i < |h| :: h[i].id == Id(i)
    ensures h[j].id in Known(h, n) && Known(h, n)[h[j].id] == h[j]
  {
    if j < n - 1 {
      KnownAt(h, n - 1, j);
      assert |h[j].id| == j + 1 && |h[n - 1].id| == n;
    }
  }

  /** The state of a run in the making is keyed by its events, which are known, and all different. */
  lemma {:induction false} StateIsKnown(v: RoomVersion, h: seq<Event>)
    requires Prepared(v, h)
    ensures var s := StateAt(h, |h|);
      && Keyed(s)
      && (forall keys :: EntriesKnown(s, keys, "!r:h", Known(h, |h|)))
      && DistinctIds(s)
  {
    hide Run, ListsPass;
    var s := StateAt(h, |h|);
    forall k <- s
      ensures s[k].etype == k.0 && s[k].stateKey == Some(k.1) && s[k].roomId == "!r:h" && !s[k].rejected
      ensures s[k].id in Known(h, |h|) && Known(h, |h|)[s[k].id] == s[k]
    {
      StateIsLastEvent(h, |h|, k);
      var j: nat :| IsLastAt(h, |h|, k, j) && s[k] == h[j];
      KnownAt(h, |h|, j);
    }
    forall k <- s, l <- s | s[k].id == s[l].id ensures k == l {
      assert s[k] == Known(h, |h|)[s[k].id] == s[l];
    }
  }

  ghost predicate DistinctIds(s: State) {
    forall k <- s, l <- s :: s[k].id == s[l].id ==> k == l
  }

  lemma ListsOneMore(auth: seq<string>, s: State, keys: set<Key>, k: Key)
    requires k in s && k !in keys && DistinctIds(s) && ListsEntries(auth, s, keys)
    ensures ListsEntries([s[k].id] + auth, s, keys + {k})
  {
    var all := [s[k].id] + auth;
    assert s[k].id !in auth;
    forall id <- all ensures exists l <- keys + {k} :: l in s && s[l].id == id {
      if id == s[k].id {
        assert k in keys + {k};
      } else {
        assert id in auth;
        var l :| l in keys && l in s && s[l].id == id;
        assert l in keys + {k};
      }
    }
    forall i, j | 0 <= i < j < |all| ensures all[i] != all[j] {
      assert all[j] == auth[j - 1] && auth[j - 1] in auth;
    }
  }

  lemma {:induction false} ListExists(keys: set<Key>, s: State) returns (auth: seq<string>)
    requires keys <= s.Keys && DistinctIds(s)
    ensures ListsEntries(auth, s, keys)
    decreases |keys|
  {
    if keys == {} {
      auth := [];
    } else {
      hide DistinctIds, ListsEntries;
      var k := Element(keys);
      var rest := ListExists(keys - {k}, s);
      ListsOneMore(rest, s, keys - {k}, k);
      assert keys - {k} + {k} == keys;
      auth := [s[k].id] + rest;
    }
  }

  /** Keys that the state lacks make no difference. */
  lemma ListsMore(auth: seq<string>, s: State, keys: set<Key>)
    requires ListsEntries(auth, s, keys * s.Keys)
    ensures ListsEntries(auth, s, keys)
  {
  }

  /** No rule on the state reads the list. */
  lemma RulesIgnoreList(e: Event, auth: seq<string>, s: State)
    ensures Selection(e.(auth := auth)) == Selection(e)
    ensures Allowed(e.(auth := auth), s) == Allowed(e, s)
  {
    var e' := e.(auth := auth);
    assert CREATE_KEY in s && e.etype.Member? ==> MembershipAllowed(e', s) == MembershipAllowed(e, s);
    assert SendAllowed(e', s) == SendAllowed(e, s) by {
      hide UserLevel, HasLevel, Find, IsChannel;
    }
    assert PowerLevelsAllowed(e', s) == PowerLevelsAllowed(e, s) && RedactionAllowed(e', s) == RedactionAllowed(e, s);
    hide MembershipAllowed, SendAllowed, PowerLevelsAllowed, RedactionAllowed, UserLevel, HasLevel, Domain;
  }

  lemma DecisionsIgnoreList(e: Event, auth: seq<string>, s: State)
    ensures DecidedByTopic(e.(auth := auth), s) == DecidedByTopic(e, s)
    ensures DecidedByOtherPowerKey(e.(auth := auth), s) == DecidedByOtherPowerKey(e, s)
  {
    hide UserLevel, HasLevel, Find, IsChannel, Domain;
  }

  lemma AllowedIsSelected(e: Event, s: State)
    requires Allowed(e, s) && !e.etype.Create?
    ensures Selection(e).Some? && CREATE_KEY in s
  {
  }

  /** A list for an allowed event with which it passes. */
  lemma {:induction false} PassingList(v: RoomVersion, h: seq<Event>, e: Event) returns (auth: seq<string>)
    requires Prepared(v, h) && Allowed(e, StateAt(h, |h|)) && !e.etype.Create? && e.roomId == "!r:h"
    ensures AuthListOk(e.(auth := auth), Known(h, |h|))
  {
    var s := StateAt(h, |h|);
    AllowedIsSelected(e, s);
    StateIsKnown(v, h);
    hide Allowed, Selection, SelectedKeys, StateAt, Known, Prepared, AuthListOk;
    hide DistinctIds, ListsEntries, EntriesKnown, Keyed;
    auth := ListExists(SelectedKeys(e) * s.Keys, s);
    ListsMore(auth, s, SelectedKeys(e));
    RulesIgnoreList(e, auth, s);
    SelectedListPasses(e.(auth := auth), s, Known(h, |h|));
  }

  lemma {:induction false} PrefixStays(h: seq<Event>, e: Event)
    ensures forall i: nat | i <= |h| :: StateAt(h + [e], i) == StateAt(h, i)
    ensures forall i: nat | i <= |h| :: Known(h + [e], i) == Known(h, i)
  {
    hide StateAt, Known;
    forall i: nat | i <= |h| ensures StateAt(h + [e], i) == StateAt(h, i) && Known(h + [e], i) == Known(h, i) {
      StateAtPrefix(h, e, i);
    }
  }

  lemma {:induction false} StepStays(v: RoomVersion, h: seq<Event>, e: Event, i: nat)
    requires i < |h| && StepOk(v, h, i)
    ensures StepOk(v, h + [e], i)
  {
    hide Accepted, StateAt;
    StateAtPrefix(h, e, i);
  }

  lemma {:induction false} StepAdded(v: RoomVersion, h: seq<Event>, e: Event)
    requires |h| > 0 && e.version == v && e.prev == [h[|h| - 1].id] && Accepted(e, StateAt(h, |h|))
    ensures StepOk(v, h + [e], |h|)
  {
    hide Accepted, StateAt;
    StateAtPrefix(h, e, |h|);
  }

  lemma {:induction false} RunExtends(v: RoomVersion, h: seq<Event>, e: Event)
    requires Run(v, h) && |h| > 0 && (forall i: nat | i < |h| :: h[i].id == Id(i)) && e.id == Id(|h|)
    requires e.version == v && e.prev == [h[|h| - 1].id] && Accepted(e, StateAt(h, |h|))
    ensures Run(v, h + [e])
  {
    hide StepOk, StateAt;
    var g := h + [e];
    StepAdded(v, h, e);
    forall i: nat | i < |g| ensures StepOk(v, g, i) {
      if i < |h| {
        assert StepOk(v, h, i);
        StepStays(v, h, e, i);
      }
    }
    forall i, j | 0 <= i < j < |g| ensures g[i].id != g[j].id {
      assert |Id(i)| == i + 1 && |Id(j)| == j + 1;
    }
  }

  /** Append an allowed event, with a list with which it passes. */
  lemma {:induction false} Extend(v: RoomVersion, h: seq<Event>, e: Event) returns (g: seq<Event>, last: Event)
    requires Prepared(v, h) && e == Next(v, |h|, e.etype, e.stateKey, e.sender, e.content)
    requires Allowed(e, StateAt(h, |h|)) && !e.etype.Create?
    requires e.content.power.users == map[] && UsersDefault !in e.content.power.named
    ensures last == e.(auth := last.auth) && Allowed(last, StateAt(h, |h|))
    ensures g == h + [last] && Prepared(v, g) && StateAt(g, |g|) == Apply(StateAt(h, |h|), last)
    ensures forall i | 0 <= i <= |h| :: StateAt(g, i) == StateAt(h, i)
  {
    hide Allowed, Apply, CreateAllowed, AuthListOk, Id, Known;
    var auth := PassingList(v, h, e);
    last := e.(auth := auth);
    RulesIgnoreList(e, auth, StateAt(h, |h|));
    g := h + [last];
    RunExtends(v, h, last);
    hide Run;
    PrefixStays(h, last);
    forall i: nat | 0 < i < |g| ensures AuthListOk(g[i], Known(g, i)) {
    }
  }

  /** A finished one is a run, and the lists of its events pass. */
  lemma {:induction false} PreparedRuns(v: RoomVersion, h: seq<Event>)
    requires Prepared(v, h)
    ensures Run(v, h) && ListsPass(h)
  {
  }

  // ---- What is allowed where ----

  /** The room as Alice founded it, before there are power levels. */
  ghost predicate Early(v: RoomVersion, s: State) {
    && CREATE_KEY in s && s[CREATE_KEY] == Founding(v)
    && POWER_KEY !in s
    && forall u :: Readable(s, u)
  }

  /** ... and before there are join rules. */
  ghost predicate Fresh(v: RoomVersion, s: State) {
    Early(v, s) && JOIN_RULES_KEY !in s
  }

  /** A member event changes its target's membership and nothing else. */
  lemma OnlyTargetChanges(v: RoomVersion, s: State, e: Event, target: string)
    requires Fresh(v, s) && e.etype.Member? && e.stateKey == Some(target) && e.content.membership.Some?
    ensures Fresh(v, Apply(s, e))
    ensures forall u :: MembershipIn(Apply(s, e), u) == if u == target then e.content.membership else MembershipIn(s, u)
    ensures forall u :: Offered(s, u) ==> Offered(Apply(s, e), u)
  {
    forall u ensures Readable(Apply(s, e), u) {
      assert u == target || Get(Apply(s, e), (Member, u)) == Get(s, (Member, u));
      assert Readable(s, u);
    }
  }

  /** Any other state event changes no membership. */
  lemma NoMemberChanges(v: RoomVersion, s: State, e: Event)
    requires Early(v, s) && !e.etype.Member? && !e.etype.Create? && e.stateKey.Some?
    ensures forall u :: MembershipIn(Apply(s, e), u) == MembershipIn(s, u)
    ensures Get(Apply(s, e), CREATE_KEY) == Some(Founding(v)) && forall u :: Readable(Apply(s, e), u)
    ensures POWER_KEY in Apply(s, e) ==> e.etype.PowerLevels?
    ensures JOIN_RULES_KEY in Apply(s, e) ==> e.etype.JoinRules? || JOIN_RULES_KEY in s
  {
    var t := Apply(s, e);
    forall u ensures MembershipIn(t, u) == MembershipIn(s, u) && Readable(t, u) {
      assert Get(t, (Member, u)) == Get(s, (Member, u));
      assert Readable(s, u);
    }
  }

  lemma LevelsWhenFresh(v: RoomVersion, s: State, user: string)
    requires CREATE_KEY in s && s[CREATE_KEY] == Founding(v) && user in {ALICE, BOB, CAROL}
    ensures MayFederate(s, user) && HasLevel(s, user)
    ensures POWER_KEY !in s ==> if user == ALICE then UserLevel(s, user) >= 100 else UserLevel(s, user) == 0
  {
    UsersDiffer();
  }

  lemma CreatorMayJoin(v: RoomVersion, s: State, sender: string)
    requires CREATE_KEY in s && s[CREATE_KEY] == Founding(v) && sender in {ALICE, BOB}
    ensures Allowed(Change(v, 1, sender, ALICE, Join), s)
  {
    LevelsWhenFresh(v, s, sender);
  }

  lemma AliceMayInvite(v: RoomVersion, s: State, n: nat)
    requires Fresh(v, s) && n > 1 && Joined(s, ALICE) && MembershipIn(s, BOB) == None
    ensures Allowed(Change(v, n, ALICE, BOB, Invite), s)
  {
    LevelsWhenFresh(v, s, ALICE);
    LevelsWhenFresh(v, s, BOB);
  }

  lemma BobMayJoin(v: RoomVersion, s: State, n: nat)
    requires CREATE_KEY in s && s[CREATE_KEY] == Founding(v) && Readable(s, BOB) && n > 1 && !Banned(s, BOB)
    requires (MembershipIn(s, BOB) == Some(Invite) && JOIN_RULES_KEY !in s) || JoinRuleIn(s).PublicRule?
    ensures Allowed(Change(v, n, BOB, BOB, Join), s)
  {
    LevelsWhenFresh(v, s, BOB);
    assert |Id(n - 1)| != |Id(0)|;
  }

  lemma AliceMayBan(v: RoomVersion, s: State, n: nat)
    requires Fresh(v, s) && n > 1 && Joined(s, ALICE)
    ensures Allowed(Change(v, n, ALICE, BOB, Ban), s)
  {
    LevelsWhenFresh(v, s, ALICE);
    LevelsWhenFresh(v, s, BOB);
  }

  function Offer(v: RoomVersion, n: nat, sender: string): Event
    requires n > 0
  {
    Next(v, n, ThirdPartyInvite, Some("t"), sender, BLANK.(publicKeys := {"k"}))
  }

  function Answer(v: RoomVersion, n: nat, sender: string, target: string): Event
    requires n > 0
  {
    var signed := Signed(Some(target), Some("t"), Some({"k"}));
    Next(v, n, Member, Some(target), sender, BLANK.(membership := Some(Invite), thirdParty := Some(WithSigned(signed))))
  }

  lemma MembersMayOffer(v: RoomVersion, s: State, n: nat, sender: string)
    requires Fresh(v, s) && n > 0 && sender in {ALICE, BOB} && Joined(s, sender)
    ensures Allowed(Offer(v, n, sender), s)
  {
    LevelsWhenFresh(v, s, sender);
  }

  /** The state has a third-party offer with that sender. */
  ghost predicate Offered(s: State, sender: string) {
    && (ThirdPartyInvite, "t") in s
    && s[(ThirdPartyInvite, "t")].sender == sender && s[(ThirdPartyInvite, "t")].content.publicKeys == {"k"}
  }

  lemma OffersMayBeAnswered(v: RoomVersion, s: State, n: nat, sender: string, target: string)
    requires Fresh(v, s) && n > 0 && sender in {ALICE, BOB} && target in {BOB, CAROL} && !Banned(s, target)
    requires Offered(s, sender)
    ensures Allowed(Answer(v, n, sender, target), s)
  {
    LevelsWhenFresh(v, s, sender);
    LevelsWhenFresh(v, s, target);
    assert "k" in s[(ThirdPartyInvite, "t")].content.publicKeys * {"k"};
    assert ThirdPartyVerified(Answer(v, n, sender, target), target, s);
  }

  /** Alice has joined the room that she founded. */
  lemma {:induction false} AliceIn(v: RoomVersion) returns (h: seq<Event>)
    requires Usable(v)
    ensures Prepared(v, h) && |h| == 2
    ensures var s := StateAt(h, 2);
      && Fresh(v, s) && Joined(s, ALICE) && MembershipIn(s, BOB) == MembershipIn(s, CAROL) == None
      && s.Keys == {CREATE_KEY, (Member, ALICE)}
  {
    UsersDiffer();
    h := Founded(v);
    FoundedIsFresh(v, StateAt(h, 1));
    CreatorMayJoin(v, StateAt(h, 1), ALICE);
    hide Prepared, Allowed, Founding, Id, Fresh;
    var last: Event;
    h, last := Extend(v, h, Change(v, 1, ALICE, ALICE, Join));
    OnlyTargetChanges(v, StateAt(h, 1), last, ALICE);
  }

  // ---- Third-party invites ----

  /** ... and Bob has, at her invitation. */
  lemma {:induction false} BobIn(v: RoomVersion) returns (h: seq<Event>)
    requires Usable(v)
    ensures Prepared(v, h) && |h| == 4
    ensures var s := StateAt(h, 4); Fresh(v, s) && Joined(s, ALICE) && Joined(s, BOB) && MembershipIn(s, CAROL) == None
  {
    UsersDiffer();
    h := AliceIn(v);
    AliceMayInvite(v, StateAt(h, 2), 2);
    hide Prepared, Allowed, Founding, Id, Fresh, Apply, StateAt;
    var last: Event;
    h, last := Extend(v, h, Change(v, 2, ALICE, BOB, Invite));
    OnlyTargetChanges(v, StateAt(h, 2), last, BOB);
    FreshOpens(v, StateAt(h, 3));
    BobMayJoin(v, StateAt(h, 3), 3);
    h, last := Extend(v, h, Change(v, 3, BOB, BOB, Join));
    OnlyTargetChanges(v, StateAt(h, 3), last, BOB);
  }

  lemma FreshOpens(v: RoomVersion, s: State)
    requires Fresh(v, s)
    ensures CREATE_KEY in s && s[CREATE_KEY] == Founding(v) && Readable(s, BOB) && JOIN_RULES_KEY !in s
  {
  }

  lemma OfferStands(v: RoomVersion, s: State, e: Event, offerer: string)
    requires Fresh(v, s) && e == Offer(v, 4, offerer).(auth := e.auth)
    ensures Fresh(v, Apply(s, e)) && Offered(Apply(s, e), offerer)
    ensures forall u :: MembershipIn(Apply(s, e), u) == MembershipIn(s, u)
  {
    NoMemberChanges(v, s, e);
  }

  /** One of them makes a third-party offer. */
  lemma {:induction false} OfferMade(v: RoomVersion, offerer: string) returns (h: seq<Event>)
    requires Usable(v) && offerer in {ALICE, BOB}
    ensures Prepared(v, h) && |h| == 5
    ensures var s := StateAt(h, 5);
      && Fresh(v, s) && Joined(s, ALICE) && Joined(s, BOB) && MembershipIn(s, CAROL) == None
      && Offered(s, offerer)
  {
    h := BobIn(v);
    MembersMayOffer(v, StateAt(h, 4), 4, offerer);
    hide Allowed, Founding, Id, StateAt, Apply, Fresh, Offered, Prepared, Offer, MembershipIn;
    var e := Offer(v, 4, offerer);
    var last: Event;
    OfferIsNext(v, 4, offerer);
    h, last := Extend(v, h, e);
    OfferStands(v, StateAt(h, 4), last, offerer);
  }

  lemma OfferIsNext(v: RoomVersion, n: nat, offerer: string)
    requires n > 0
    ensures var e := Offer(v, n, offerer);
      && e == Next(v, n, e.etype, e.stateKey, e.sender, e.content) && !e.etype.Create?
      && e.content.power.users == map[] && UsersDefault !in e.content.power.named
  {
  }

  lemma FoundedIsFresh(v: RoomVersion, s: State)
    requires s == map[CREATE_KEY := Founding(v)]
    ensures Fresh(v, s)
  {
  }

  /** A joined user can be turned into an invited one: the answer to a third-party invite does not
      ask that its target be outside the room. */
  lemma {:induction false} JoinedUserInvited(v: RoomVersion) returns (h: seq<Event>)
    requires Usable(v)
    ensures Run(v, h) && ListsPass(h) && |h| == 6 && Sets(h, 5, BOB, Invite)
    ensures Joined(StateAt(h, 5), BOB) && MembershipIn(StateAt(h, 6), BOB) == Some(Invite)
  {
    h := OfferMade(v, ALICE);
    UsersDiffer();
    hide Prepared, Allowed, Founding, Id;
    OffersMayBeAnswered(v, StateAt(h, 5), 5, ALICE, BOB);
    var last: Event;
    h, last := Extend(v, h, Answer(v, 5, ALICE, BOB));
    PreparedRuns(v, h);
  }

  lemma {:induction false} BobBanned(v: RoomVersion) returns (h: seq<Event>)
    requires Usable(v)
    ensures Prepared(v, h) && |h| == 6
    ensures var s := StateAt(h, 6);
      Fresh(v, s) && Offered(s, BOB) && MembershipIn(s, BOB) == Some(Ban) && MembershipIn(s, CAROL) == None
  {
    h := OfferMade(v, BOB);
    UsersDiffer();
    AliceMayBan(v, StateAt(h, 5), 5);
    hide Prepared, Allowed, Founding, Id, Apply, StateAt, Fresh, Offered, MembershipIn;
    var last: Event;
    h, last := Extend(v, h, Change(v, 5, ALICE, BOB, Ban));
    OnlyTargetChanges(v, StateAt(h, 5), last, BOB);
  }

  /** A user who was banned after making a third-party offer can still complete it. */
  lemma {:induction false} BannedUserInvites(v: RoomVersion) returns (h: seq<Event>)
    requires Usable(v)
    ensures Run(v, h) && ListsPass(h) && |h| == 7 && h[6].sender == BOB && Banned(StateAt(h, 6), BOB)
    ensures Sets(h, 6, CAROL, Invite) && MembershipIn(StateAt(h, 7), CAROL) == Some(Invite)
  {
    h := BobBanned(v);
    UsersDiffer();
    OffersMayBeAnswered(v, StateAt(h, 6), 6, BOB, CAROL);
    hide Prepared, Allowed, Founding, Id, Apply, StateAt, Fresh, Offered, MembershipIn;
    var last: Event;
    h, last := Extend(v, h, Answer(v, 6, BOB, CAROL));
    OnlyTargetChanges(v, StateAt(h, 6), last, CAROL);
    PreparedRuns(v, h);
  }

  // ---- The creator's first join ----

  /** Somebody who is not in the room can join its creator to it. */
  lemma {:induction false} CreatorJoinedByOther(v: RoomVersion) returns (h: seq<Event>)
    requires Usable(v)
    ensures Run(v, h) && ListsPass(h) && |h| == 2 && Sets(h, 1, ALICE, Join) && h[1].sender == BOB
    ensures RoomCreator(h[0]) == Some(ALICE) && Joined(StateAt(h, 2), ALICE)
    ensures MembershipIn(StateAt(h, 2), BOB) == None
  {
    h := Founded(v);
    UsersDiffer();
    hide Prepared, Allowed, Id;
    CreatorMayJoin(v, StateAt(h, 1), BOB);
    var last: Event;
    h, last := Extend(v, h, Change(v, 1, BOB, ALICE, Join));
    PreparedRuns(v, h);
  }

  // ---- Verdicts outside the selection ----

  lemma AliceMaySetState(v: RoomVersion, s: State, n: nat, etype: EventType, key: string, content: Content)
    requires Early(v, s) && n > 0 && Joined(s, ALICE) && etype in {JoinRules, Topic, PowerLevels}
    requires key == "" || key == "x"
    requires content.power.users == map[] && (PowerLevels, key) !in s
    ensures var e := Next(v, n, etype, Some(key), ALICE, content);
      SharedChecks(e, s) && SendAllowed(e, s) && UsersNamed(e, s) && Allowed(e, s)
  {
    LevelsWhenFresh(v, s, ALICE);
  }

  /** Power levels under a key of their own are decided by an entry that is not selected. */
  lemma {:induction false} OtherPowerKeyHappens(v: RoomVersion) returns (h: seq<Event>)
    requires Usable(v)
    ensures Run(v, h) && ListsPass(h) && |h| == 3 && DecidedByOtherPowerKey(h[2], StateAt(h, 2))
  {
    h := AliceIn(v);
    hide Prepared, Founding, Id, StateAt;
    AliceMaySetState(v, StateAt(h, 2), 2, PowerLevels, "x", BLANK);
    hide Prepared, Allowed;
    var last: Event;
    h, last := Extend(v, h, Next(v, 2, PowerLevels, Some("x"), ALICE, BLANK));
    PreparedRuns(v, h);
  }

  /** The levels of a broadcast channel: only moderators may send. */
  const CHANNEL_LEVELS := NO_POWER.(named := map[EventsDefault := 50])

  /** The room after Alice has made it a public channel. */
  ghost predicate IsOpenChannel(v: RoomVersion, s: State) {
    && CREATE_KEY in s && s[CREATE_KEY] == Founding(v)
    && POWER_KEY in s && s[POWER_KEY].content.power == CHANNEL_LEVELS
    && JoinRuleIn(s).PublicRule? && IsChannel(s)
    && Readable(s, BOB)
  }

  lemma {:induction false} TopicSet(v: RoomVersion) returns (h: seq<Event>)
    requires Usable(v)
    ensures Prepared(v, h) && |h| == 3
    ensures var s := StateAt(h, 3);
      Early(v, s) && Joined(s, ALICE) && MembershipIn(s, BOB) == None && IsChannel(s) && JOIN_RULES_KEY !in s
  {
    h := AliceIn(v);
    ChannelTopicExists();
    hide Prepared, Founding, Id, StateAt, Allowed, IsChannelTopic, SendAllowed, SharedChecks, UsersNamed;
    var topic := BLANK.(topic := CHANNEL_PREFIX);
    AliceMaySetState(v, StateAt(h, 2), 2, Topic, "", topic);
    var last: Event;
    h, last := Extend(v, h, Next(v, 2, Topic, Some(""), ALICE, topic));
    NoMemberChanges(v, StateAt(h, 2), last);
  }

  lemma {:induction false} RulesSet(v: RoomVersion) returns (h: seq<Event>)
    requires Usable(v)
    ensures Prepared(v, h) && |h| == 4
    ensures var s := StateAt(h, 4);
      Early(v, s) && Joined(s, ALICE) && MembershipIn(s, BOB) == None && IsChannel(s) && JoinRuleIn(s).PublicRule?
  {
    h := TopicSet(v);
    hide Prepared, Founding, Id, StateAt, Allowed, IsChannelTopic;
    hide SendAllowed, SharedChecks, UsersNamed, MembershipIn, Readable;
    var rules := BLANK.(joinRule := Some(PublicRule));
    AliceMaySetState(v, StateAt(h, 3), 3, JoinRules, "", rules);
    var last: Event;
    h, last := Extend(v, h, Next(v, 3, JoinRules, Some(""), ALICE, rules));
    NoMemberChanges(v, StateAt(h, 3), last);
  }

  /** Power levels complete the channel. */
  lemma LevelsComplete(v: RoomVersion, s: State, e: Event)
    requires Early(v, s) && IsChannel(s) && JoinRuleIn(s).PublicRule?
    requires e.etype.PowerLevels? && e.stateKey == Some("") && e.content.power == CHANNEL_LEVELS
    ensures IsOpenChannel(v, Apply(s, e)) && MembershipIn(Apply(s, e), BOB) == MembershipIn(s, BOB)
  {
    hide IsChannelTopic;
    NoMemberChanges(v, s, e);
  }

  lemma {:induction false} ChannelOpened(v: RoomVersion) returns (h: seq<Event>)
    requires Usable(v)
    ensures Prepared(v, h) && |h| == 5 && IsOpenChannel(v, StateAt(h, 5)) && MembershipIn(StateAt(h, 5), BOB) == None
  {
    h := RulesSet(v);
    NoPowerYet(v, StateAt(h, 4));
    hide Prepared, Founding, Id, StateAt, Allowed, IsChannel, SendAllowed, SharedChecks, UsersNamed, MembershipIn;
    hide Early, IsOpenChannel, Apply, JoinRuleIn;
    var power := BLANK.(power := CHANNEL_LEVELS);
    AliceMaySetState(v, StateAt(h, 4), 4, PowerLevels, "", power);
    var last: Event;
    h, last := Extend(v, h, Next(v, 4, PowerLevels, Some(""), ALICE, power));
    LevelsComplete(v, StateAt(h, 4), last);
  }

  lemma NoPowerYet(v: RoomVersion, s: State)
    requires Early(v, s)
    ensures POWER_KEY !in s
  {
  }

  lemma ChannelStaysOpen(v: RoomVersion, s: State, e: Event)
    requires IsOpenChannel(v, s) && e.etype.Member? && e.stateKey == Some(BOB) && e.content.membership == Some(Join)
    ensures IsOpenChannel(v, Apply(s, e)) && Joined(Apply(s, e), BOB)
  {
    hide IsChannelTopic;
  }

  lemma ChannelWelcomes(v: RoomVersion, s: State)
    requires IsOpenChannel(v, s)
    ensures CREATE_KEY in s && s[CREATE_KEY] == Founding(v) && Readable(s, BOB) && JoinRuleIn(s).PublicRule?
  {
  }

  lemma {:induction false} BobOnChannel(v: RoomVersion) returns (h: seq<Event>)
    requires Usable(v)
    ensures Prepared(v, h) && |h| == 6 && IsOpenChannel(v, StateAt(h, 6)) && Joined(StateAt(h, 6), BOB)
  {
    h := ChannelOpened(v);
    hide Prepared, Founding, Id, StateAt, Allowed, IsOpenChannel, Apply, JoinRuleIn, Readable;
    ChannelWelcomes(v, StateAt(h, 5));
    BobMayJoin(v, StateAt(h, 5), 5);
    var last: Event;
    h, last := Extend(v, h, Change(v, 5, BOB, BOB, Join));
    ChannelStaysOpen(v, StateAt(h, 5), last);
  }

  lemma CommentIsDecidedByTopic(v: RoomVersion, s: State, n: nat)
    requires IsOpenChannel(v, s) && Joined(s, BOB) && n > 0
    ensures var e := Next(v, n, Message, None, BOB, BLANK); DecidedByTopic(e, s) && Allowed(e, s)
  {
    LevelsWhenFresh(v, s, BOB);
    UsersDiffer();
    hide Prepared, IsChannelTopic;
    assert UserLevel(s, BOB) == 0;
  }

  /** A comment on a channel is decided by its topic, which is not selected: checked against the
      selected part of the state alone, the same event is rejected. */
  lemma {:induction false} TopicDecisionHappens(v: RoomVersion) returns (h: seq<Event>)
    requires Usable(v)
    ensures Run(v, h) && ListsPass(h) && |h| == 7 && DecidedByTopic(h[6], StateAt(h, 6))
    ensures Allowed(h[6], StateAt(h, 6)) && !Allowed(h[6], Restrict(StateAt(h, 6), SelectedKeys(h[6])))
  {
    h := BobOnChannel(v);
    hide Prepared, Founding, Id, StateAt, Allowed, IsChannel;
    hide DecidedByTopic, IsOpenChannel, Apply, Restrict, MembershipIn;
    CommentIsDecidedByTopic(v, StateAt(h, 6), 6);
    var e := Next(v, 6, Message, None, BOB, BLANK);
    var last: Event;
    h, last := Extend(v, h, e);
    DecisionsIgnoreList(e, last.auth, StateAt(h, 6));
    TopicSplitsVerdicts(last, StateAt(h, 6));
    PreparedRuns(v, h);
  }

  lemma TopicSplitsVerdicts(e: Event, s: State)
    requires DecidedByTopic(e, s) && Allowed(e, s) && !e.etype.PowerLevels? && Coherent(e.version)
    ensures !Allowed(e, Restrict(s, SelectedKeys(e)))
  {
    hide Allowed, IsChannel, DecidedByTopic;
    SelectedStateIsStricter(e, s);
    TopicDecides(e, s);
  }
}
