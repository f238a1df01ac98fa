/** Runs of a room: who may send what, and under whose name. */
module RoomConduct {
  import opened Options
  import opened Ids
  import opened RoomVersions
  import opened AuthEvents
  import opened AuthRules
  import opened AuthSelection
  import opened RoomHistory

  /** What the rules ask of anything but a create, member or aliases event. */
  predicate IsOrdinary(e: Event) {
    !e.etype.Create? && !e.etype.Member? && !(e.etype.Aliases? && e.version.specialCaseAliases)
  }

  /** The selection keeps the entries that name the sender and decide levels. */
  lemma RestrictKeeps(e: Event, s: State, user: string)
    requires !e.etype.Create? && !e.etype.Member?
    ensures var t := Restrict(s, SelectedKeys(e));
      && Joined(t, e.sender) == Joined(s, e.sender)
      && HasLevel(t, user) == HasLevel(s, user) && (HasLevel(s, user) ==> UserLevel(t, user) == UserLevel(s, user))
  {
    var t := Restrict(s, SelectedKeys(e));
    RestrictAgrees(s, SelectedKeys(e));
    assert CREATE_KEY in SelectedKeys(e) && POWER_KEY in SelectedKeys(e) && (Member, e.sender) in SelectedKeys(e);
    assert forall k <- SelectedKeys(e) :: Get(s, k) == Get(t, k);
    MembersAgree(s, t, e.sender);
    LevelsAgree(s, t, user);
  }

  /** Whoever sends an ordinary event is in the room. */
  lemma {:induction false} SendersAreJoined(v: RoomVersion, h: seq<Event>, i: nat)
    requires Run(v, h) && i < |h| && IsOrdinary(h[i])
    ensures Joined(StateAt(h, i), h[i].sender)
  {
    hide SendAllowed;
    assert StepOk(v, h, i);
    RestrictKeeps(h[i], StateAt(h, i), h[i].sender);
  }

  /** The only events accepted from a banned user are, besides aliases of old versions, answers to
      third-party invites that they had sent themselves. */
  lemma {:induction false} BannedSendersAreMute(v: RoomVersion, h: seq<Event>, i: nat)
    requires Run(v, h) && i < |h| && Banned(StateAt(h, i), h[i].sender)
    ensures || (h[i].etype.Aliases? && v.specialCaseAliases && h[i].stateKey == Domain(h[i].sender))
            || (&& h[i].etype.Member? && h[i].stateKey.Some? && h[i].content.membership == Some(Invite)
                && h[i].content.thirdParty.Some?
                && ThirdPartyVerified(h[i], h[i].stateKey.value, StateAt(h, i)))
  {
    EmptyStart(v, h, h[i].sender);
    assert StepOk(v, h, i);
    CreateIsFirst(v, h, |h|);
    if h[i].etype.Member? {
      MemberChange(v, h, i);
      SentByBanned(h[i], h[i].content.membership.value, h[i].stateKey.value, StateAt(h, i));
    } else if IsOrdinary(h[i]) {
      SendersAreJoined(v, h, i);
    }
  }

  lemma SentByBanned(e: Event, m: Membership, target: string, s: State)
    requires CREATE_KEY in s && ChangeAllowed(e, m, target, s) && Banned(s, e.sender)
    ensures m.Invite? && e.content.thirdParty.Some? && ThirdPartyVerified(e, target, s)
  {
  }

  /** State entries whose key is a user ID, apart from members and the types with rules of their own. */
  predicate IsOwnable(v: RoomVersion, k: Key) {
    && k.1 != "" && k.1[0] == '@'
    && !k.0.Create? && !k.0.Member? && !k.0.ThirdPartyInvite? && !(k.0.Aliases? && v.specialCaseAliases)
  }

  /** The sender was at the time above the user whom the key names up to an underscore. */
  ghost predicate SetByHigher(h: seq<Event>, j: nat, key: string)
    requires j < |h|
  {
    var s := StateAt(h, j);
    && Find(key, ':', 1) >= 0 && IsUserId(StateKeyOwner(key))
    && (StateKeyOwner(key) == h[j].sender
        || (HasLevel(s, StateKeyOwner(key)) && HasLevel(s, h[j].sender)
            && UserLevel(s, h[j].sender) > UserLevel(s, StateKeyOwner(key))))
  }

  /** In every reachable state, an entry kept under a user's ID was set by that user; only with owned
      state (MSC3757) may it extend the sender's ID, or that of someone the sender stood above. */
  lemma {:induction false} OwnedState(v: RoomVersion, h: seq<Event>, n: nat, k: Key)
    requires Run(v, h) && n <= |h| && k in StateAt(h, n) && IsOwnable(v, k)
    ensures exists j: nat | j < n ::
      StateAt(h, n)[k] == h[j] && (h[j].sender == k.1 || (v.ownedState && SetByHigher(h, j, k.1)))
  {
    StateIsLastEvent(h, n, k);
    var j: nat :| IsLastAt(h, n, k, j) && StateAt(h, n)[k] == h[j];
    assert StepOk(v, h, j);
    var s, t := StateAt(h, j), Restrict(StateAt(h, j), SelectedKeys(h[j]));
    var u := if Allowed(h[j], s) then s else t;
    RestrictKeeps(h[j], s, h[j].sender);
    assert StateKeyAllowed(h[j], u) && HasLevel(u, h[j].sender);
    if h[j].sender != k.1 && Find(k.1, ':', 1) >= 0 {
      RestrictKeeps(h[j], s, StateKeyOwner(k.1));
    }
  }

  // ---- Before there are power levels ----

  /** Until power levels are set, ordinary state is set by creators alone, third-party invites aside
      and the message types that a channel opens to all. */
  lemma {:induction false} CreatorsSetFirstState(v: RoomVersion, h: seq<Event>, i: nat)
    requires Run(v, h) && 0 < i < |h| && POWER_KEY !in StateAt(h, i)
    requires IsOrdinary(h[i]) && h[i].stateKey.Some? && !h[i].etype.ThirdPartyInvite? && !IsFeedMessage(h[i])
    ensures RoomCreator(h[0]) == Some(h[i].sender) || (v.creatorPower && IsCreator(h[0], h[i].sender))
  {
    assert StepOk(v, h, i) && StepOk(v, h, 0);
    StateHasCreate(v, h, i);
    var s := StateAt(h, i);
    var t := if Allowed(h[i], s) then s else Restrict(s, SelectedKeys(h[i]));
    RestrictAgrees(s, SelectedKeys(h[i]));
    assert Get(t, CREATE_KEY) == Get(s, CREATE_KEY) && POWER_KEY !in t;
    assert SendAllowed(h[i], t);
  }

  // ---- Third-party invites ----

  /** The third-party invite that step `i` answers: sent by the same user, then joined and at the
      invite level, with a key under which the answer's bundle for its target verifies. */
  ghost predicate Answers(h: seq<Event>, i: nat, j: nat)
    requires j < i < |h|
    requires h[i].stateKey.Some? && h[i].content.thirdParty.Some? && h[i].content.thirdParty.value.WithSigned?
  {
    var signed := h[i].content.thirdParty.value.signed;
    var s := StateAt(h, j);
    && h[j].etype.ThirdPartyInvite? && h[j].stateKey == signed.token
    && signed.mxid == h[i].stateKey
    && h[j].sender == h[i].sender && Joined(s, h[j].sender)
    && HasLevel(s, h[j].sender) && UserLevel(s, h[j].sender) >= NamedLevel(s, InviteLevel, 0)
    && signed.signatures.Some? && exists key <- signed.signatures.value :: key in h[j].content.publicKeys
  }

  lemma LevelsKept(e: Event, s: State)
    requires !e.etype.Create? && !e.etype.Member?
    ensures NamedLevel(Restrict(s, SelectedKeys(e)), InviteLevel, 0) == NamedLevel(s, InviteLevel, 0)
  {
    assert POWER_KEY in SelectedKeys(e);
  }

  /** A third-party invite is accepted from joined users at the invite level only. */
  lemma {:induction false} OfferersMayInvite(v: RoomVersion, h: seq<Event>, j: nat)
    requires Run(v, h) && j < |h| && h[j].etype.ThirdPartyInvite?
    ensures var s := StateAt(h, j);
      Joined(s, h[j].sender) && HasLevel(s, h[j].sender) && UserLevel(s, h[j].sender) >= NamedLevel(s, InviteLevel, 0)
  {
    SendersAreJoined(v, h, j);
    assert StepOk(v, h, j);
    RestrictKeeps(h[j], StateAt(h, j), h[j].sender);
    LevelsKept(h[j], StateAt(h, j));
  }

  /** Every accepted invite that carries a third-party bundle answers an earlier third-party invite. */
  lemma {:induction false} ThirdPartyProvenance(v: RoomVersion, h: seq<Event>, i: nat)
    requires Run(v, h) && 0 < i < |h| && h[i].etype.Member?
    requires h[i].content.membership == Some(Invite) && h[i].content.thirdParty.Some?
    ensures h[i].stateKey.Some? && h[i].content.thirdParty.value.WithSigned?
    ensures exists j: nat | j < i :: Answers(h, i, j)
  {
    MemberChange(v, h, i);
    var s := StateAt(h, i);
    assert ThirdPartyVerified(h[i], h[i].stateKey.value, s);
    var signed := h[i].content.thirdParty.value.signed;
    var k := (ThirdPartyInvite, signed.token.value);
    StateIsLastEvent(h, i, k);
    var j: nat :| IsLastAt(h, i, k, j) && s[k] == h[j];
    OfferersMayInvite(v, h, j);
    var key :| key in h[j].content.publicKeys * signed.signatures.value;
    assert Answers(h, i, j);
  }

  // ---- Rooms that do not federate ----

  /** In a room that does not federate, every event comes from the creating server. */
  lemma {:induction false} UnfederatedSendersAreLocal(v: RoomVersion, h: seq<Event>, i: nat)
    requires Run(v, h) && 0 < i < |h| && !h[0].content.federate
    ensures Domain(h[i].sender).Some? && Domain(h[i].sender) == Domain(h[0].sender)
  {
    assert StepOk(v, h, i);
    StateHasCreate(v, h, i);
    CreateIsFirst(v, h, |h|);
    RestrictAgrees(StateAt(h, i), SelectedKeys(h[i]));
    var s := StateAt(h, i);
    var t := if Allowed(h[i], s) then s else Restrict(s, SelectedKeys(h[i]));
    assert CREATE_KEY in t && t[CREATE_KEY] == h[0];
  }

  /** ... and so does everyone who has a membership, apart from the user that the create event of an
      old version names as creator, whose first join is not checked. */
  lemma {:induction false} UnfederatedMembersAreLocal(v: RoomVersion, h: seq<Event>, n: nat, user: string)
    requires Run(v, h) && n <= |h| && |h| > 0 && !h[0].content.federate && (Member, user) in StateAt(h, n)
    ensures Domain(user) == Domain(h[0].sender) || RoomCreator(h[0]) == Some(user)
  {
    StateIsLastEvent(h, n, (Member, user));
    var j: nat :| IsLastAt(h, n, (Member, user), j) && StateAt(h, n)[(Member, user)] == h[j];
    CreateIsFirst(v, h, |h|);
    MemberChange(v, h, j);
  }
}
