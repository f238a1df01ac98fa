/** Runs of a room: linear histories in which every event was accepted against the state before it,
    and what they say about membership. */
module RoomHistory {
  import opened Options
  import opened Ids
  import opened RoomVersions
  import opened AuthEvents
  import opened AuthRules
  import opened AuthSelection

  /** The state after an event: a state event replaces the entry at its key. */
  function Apply(s: State, e: Event): State {
    if e.stateKey.Some? then s[(e.etype, e.stateKey.value) := e] else s
  }

  /** The state after the first `n` events. */
  function StateAt(h: seq<Event>, n: nat): State
    requires n <= |h|
  {
    if n == 0 then map[] else Apply(StateAt(h, n - 1), h[n - 1])
  }

  /** Integers stay within canonical JSON, which versions that ask for it check on receipt. */
  ghost predicate CanonicalInts(e: Event) {
    forall k <- e.content.power.users ::
      -CANONICALJSON_MAX_INT <= e.content.power.users[k] <= CANONICALJSON_MAX_INT
  }

  ghost predicate CanonicalDefault(e: Event) {
    -CANONICALJSON_MAX_INT <= Get(e.content.power.named, UsersDefault).GetOr(0) <= CANONICALJSON_MAX_INT
  }

  /** An event is accepted on a state when it passes the rules against the whole state, or against
      the part of it that auth event selection keeps. */
  ghost predicate Accepted(e: Event, s: State) {
    && (e.etype.Create? ==> CreateAllowed(e))
    && (Allowed(e, s) || Allowed(e, Restrict(s, SelectedKeys(e))))
    && (e.version.strictCanonicalJson ==> CanonicalInts(e) && CanonicalDefault(e))
  }

  /** The `i`th event of a history builds on the one before and is accepted on the state there. */
  ghost predicate StepOk(v: RoomVersion, h: seq<Event>, i: nat)
    requires i < |h|
  {
    && h[i].version == v
    && h[i].prev == (if i == 0 then [] else [h[i - 1].id])
    && Accepted(h[i], StateAt(h, i))
  }

  /** A run: a linear history of one room, with no event ID used twice. Every known version is
      coherent. */
  ghost predicate Run(v: RoomVersion, h: seq<Event>) {
    && Coherent(v)
    && (forall i: nat | i < |h| :: StepOk(v, h, i))
    && (forall i, j | 0 <= i < j < |h| :: h[i].id != h[j].id)
  }

  // ---- State as history ----

  /** The last event before `n` with a key. */
  ghost predicate IsLastAt(h: seq<Event>, n: nat, k: Key, j: nat) {
    && j < n <= |h|
    && h[j].etype == k.0 && h[j].stateKey == Some(k.1)
    && forall i | j < i < n :: !(h[i].etype == k.0 && h[i].stateKey == Some(k.1))
  }

  /** Every entry of the state is the last event with its key, and every key with an event has an
      entry. */
  lemma {:induction false} StateIsLastEvent(h: seq<Event>, n: nat, k: Key)
    requires n <= |h|
    ensures k in StateAt(h, n) ==> exists j: nat :: IsLastAt(h, n, k, j) && StateAt(h, n)[k] == h[j]
    ensures k !in StateAt(h, n) ==> forall i | 0 <= i < n :: !(h[i].etype == k.0 && h[i].stateKey == Some(k.1))
  {
    if n > 0 {
      StateIsLastEvent(h, n - 1, k);
      var e := h[n - 1];
      if e.etype == k.0 && e.stateKey == Some(k.1) {
        assert IsLastAt(h, n, k, n - 1);
      } else if k in StateAt(h, n) {
        var j: nat :| IsLastAt(h, n - 1, k, j) && StateAt(h, n - 1)[k] == h[j];
        assert IsLastAt(h, n, k, j);
      }
    }
  }

  /** The first event creates the room, and nothing later replaces the create event. */
  lemma {:induction false} CreateIsFirst(v: RoomVersion, h: seq<Event>, n: nat)
    requires Run(v, h) && n <= |h|
    ensures n > 0 ==> h[0].etype.Create? && CreateAllowed(h[0])
    ensures forall i | 0 < i < n :: !h[i].etype.Create?
    ensures CREATE_KEY in StateAt(h, n) ==> StateAt(h, n)[CREATE_KEY] == h[0]
  {
    if n > 0 {
      assert StepOk(v, h, 0);
      assert StateAt(h, 0) == map[];
      assert Restrict(map[], SelectedKeys(h[0])) == map[];
      forall i | 0 < i < n ensures !h[i].etype.Create? {
        assert StepOk(v, h, i);
      }
      StateIsLastEvent(h, n, CREATE_KEY);
    }
  }

  /** After the first event every acceptance implies a create event in the state. */
  lemma {:induction false} StateHasCreate(v: RoomVersion, h: seq<Event>, i: nat)
    requires Run(v, h) && 0 < i < |h|
    ensures CREATE_KEY in StateAt(h, i) && StateAt(h, i)[CREATE_KEY] == h[0]
  {
    hide TypeChecks, CreateAllowed, MayFederate;
    CreateIsFirst(v, h, |h|);
    CreateIsFirst(v, h, i);
    assert StepOk(v, h, i);
  }

  /** For members and for the room's power levels it makes no difference which of the two states an
      event was checked against. */
  lemma {:induction false} AcceptedOnWholeState(v: RoomVersion, h: seq<Event>, i: nat)
    requires Run(v, h) && 0 < i < |h|
    requires h[i].etype.Member? || (h[i].etype.PowerLevels? && h[i].stateKey == Some(""))
    ensures CREATE_KEY in StateAt(h, i) && StateAt(h, i)[CREATE_KEY] == h[0]
    ensures Allowed(h[i], StateAt(h, i))
  {
    StateHasCreate(v, h, i);
    assert StepOk(v, h, i);
    RestrictAgrees(StateAt(h, i), SelectedKeys(h[i]));
    SelectionSuffices(h[i], StateAt(h, i), Restrict(StateAt(h, i), SelectedKeys(h[i])));
  }

  /** The membership changes of a run, the creator's first join set apart. */
  lemma {:induction false} MemberChange(v: RoomVersion, h: seq<Event>, i: nat)
    requires Run(v, h) && 0 < i < |h| && h[i].etype.Member?
    ensures h[i].stateKey.Some? && h[i].content.membership.Some?
    ensures CREATE_KEY in StateAt(h, i) && StateAt(h, i)[CREATE_KEY] == h[0]
    ensures || (i == 1 && RoomCreator(h[0]) == h[i].stateKey && h[i].content.membership == Some(Join))
            || ChangeAllowed(h[i], h[i].content.membership.value, h[i].stateKey.value, StateAt(h, i))
  {
    AcceptedOnWholeState(v, h, i);
    assert StepOk(v, h, i) && StepOk(v, h, 0);
    assert i > 1 ==> h[i - 1].id != h[0].id;
  }

  /** `h[i]` changes the membership of `user` to `membership`. */
  predicate Sets(h: seq<Event>, i: nat, user: string, membership: Membership) {
    i < |h| && h[i].etype.Member? && h[i].stateKey == Some(user) && h[i].content.membership == Some(membership)
  }

  predicate IsMemberEventOf(e: Event, user: string) {
    e.etype.Member? && e.stateKey == Some(user)
  }

  lemma {:induction false} MembershipStep(h: seq<Event>, i: nat, user: string)
    requires i < |h|
    ensures MembershipIn(StateAt(h, i + 1), user) ==
            if IsMemberEventOf(h[i], user) then h[i].content.membership else MembershipIn(StateAt(h, i), user)
  {
  }

  // ---- Bans ----

  /** An unban: a leave for the target, sent by another, joined user who stands above the target
      and at both the ban and the kick level. */
  ghost predicate Unbans(h: seq<Event>, i: nat, user: string) {
    && Sets(h, i, user, Leave)
    && var s := StateAt(h, i);
       && Banned(s, user)
       && h[i].sender != user
       && Joined(s, h[i].sender)
       && HasLevel(s, h[i].sender) && HasLevel(s, user)
       && UserLevel(s, h[i].sender) >= NamedLevel(s, BanLevel, 50)
       && UserLevel(s, h[i].sender) >= NamedLevel(s, KickLevel, 50)
       && UserLevel(s, h[i].sender) > UserLevel(s, user)
  }

  /** What the rules let happen to a banned user. */
  lemma ChangeOfBanned(e: Event, m: Membership, user: string, s: State)
    requires CREATE_KEY in s && ChangeAllowed(e, m, user, s) && Banned(s, user)
    ensures HasLevel(s, e.sender) && HasLevel(s, user)
    ensures m.Ban? || (m.Leave? && e.sender != user && Joined(s, e.sender) && LeaveAllowed(e, user, s))
  {
  }

  /** A banned user's next membership is ban, or leave by an unban. */
  lemma {:induction false} BannedUntilUnbanned(v: RoomVersion, h: seq<Event>, i: nat, user: string)
    requires Run(v, h) && i < |h| && Banned(StateAt(h, i), user) && IsMemberEventOf(h[i], user)
    ensures Sets(h, i, user, Ban) || Unbans(h, i, user)
  {
    EmptyStart(v, h, user);
    assert i > 1;
    MemberChange(v, h, i);
    ChangeOfBanned(h[i], h[i].content.membership.value, user, StateAt(h, i));
  }

  /** Nobody is a member until a member event follows the create event. */
  lemma {:induction false} EmptyStart(v: RoomVersion, h: seq<Event>, user: string)
    requires Run(v, h) && |h| > 0
    ensures MembershipIn(StateAt(h, 0), user) == None && MembershipIn(StateAt(h, 1), user) == None
  {
    CreateIsFirst(v, h, 1);
    MembershipStep(h, 0, user);
  }

  /** Between a ban and a later join there is an unban. */
  lemma {:induction false} NoJoinWithoutUnban(v: RoomVersion, h: seq<Event>, i: nat, j: nat, user: string)
    requires Run(v, h) && i <= j <= |h|
    requires Banned(StateAt(h, i), user) && !Banned(StateAt(h, j), user)
    ensures exists k | i <= k < j :: Unbans(h, k, user)
    decreases j - i
  {
    MembershipStep(h, i, user);
    if IsMemberEventOf(h[i], user) {
      BannedUntilUnbanned(v, h, i, user);
    }
    if !Unbans(h, i, user) {
      NoJoinWithoutUnban(v, h, i + 1, j, user);
    }
  }

  // ---- How users come to be joined ----

  /** The authority for a join by a user who was not joined before. */
  ghost predicate JoinJustified(h: seq<Event>, i: nat, user: string)
    requires i < |h|
  {
    var s := StateAt(h, i);
    || (i == 1 && RoomCreator(h[0]) == Some(user))
    || (MembershipIn(s, user) == Some(Invite) && exists k: nat | k < i :: Sets(h, k, user, Invite))
    || JoinRuleIn(s).PublicRule?
    || (&& ((h[i].version.restricted && JoinRuleIn(s).RestrictedRule?)
            || (h[i].version.knockRestricted && JoinRuleIn(s).KnockRestrictedRule?))
        && exists a: string | h[i].content.authoriser == Some(a) ::
             && MembershipIn(s, a) == Some(Join) && HasLevel(s, a)
             && UserLevel(s, a) >= NamedLevel(s, InviteLevel, 0))
  }

  /** `user` joined at `i` and has been joined ever since. */
  ghost predicate JoinedSince(h: seq<Event>, i: nat, n: nat, user: string)
    requires i < n <= |h|
  {
    && Sets(h, i, user, Join)
    && !Joined(StateAt(h, i), user)
    && (h[i].sender == user || (i == 1 && RoomCreator(h[0]) == Some(user)))
    && forall k | i < k <= n :: Joined(StateAt(h, k), user)
  }

  /** What the rules ask of a join. */
  lemma ChangeToJoin(e: Event, user: string, s: State)
    requires CREATE_KEY in s && ChangeAllowed(e, Join, user, s)
    ensures e.sender == user && JoinAllowed(e, user, s)
  {
  }

  lemma {:induction false} InviteIsInHistory(h: seq<Event>, n: nat, user: string)
    requires n <= |h| && MembershipIn(StateAt(h, n), user) == Some(Invite)
    ensures exists k: nat | k < n :: Sets(h, k, user, Invite)
  {
    StateIsLastEvent(h, n, (Member, user));
    var k: nat :| IsLastAt(h, n, (Member, user), k) && StateAt(h, n)[(Member, user)] == h[k];
    assert Sets(h, k, user, Invite);
  }

  /** A join by a user who was not joined has its authority. */
  lemma {:induction false} NewJoinJustified(v: RoomVersion, h: seq<Event>, i: nat, user: string)
    requires Run(v, h) && 0 < i < |h| && Sets(h, i, user, Join) && !Joined(StateAt(h, i), user)
    ensures JoinJustified(h, i, user)
    ensures h[i].sender == user || (i == 1 && RoomCreator(h[0]) == Some(user))
  {
    MemberChange(v, h, i);
    if !(i == 1 && RoomCreator(h[0]) == Some(user)) {
      ChangeToJoin(h[i], user, StateAt(h, i));
      if MembershipIn(StateAt(h, i), user) == Some(Invite) {
        InviteIsInHistory(h, i, user);
      }
    }
  }

  /** Every joined user of every reachable state got there by a join of their own that was
      justified when it was accepted: the creator's first join, an earlier invite in force, a public
      room, or a restricted room and a joined authoriser who could invite. */
  lemma {:induction false} JoinProvenance(v: RoomVersion, h: seq<Event>, n: nat, user: string)
    requires Run(v, h) && n <= |h| && Joined(StateAt(h, n), user)
    ensures exists i: nat | i < n :: JoinedSince(h, i, n, user) && JoinJustified(h, i, user)
  {
    hide Run, JoinJustified;
    var i: nat := n - 1;
    MembershipStep(h, i, user);
    if Joined(StateAt(h, i), user) {
      JoinProvenance(v, h, i, user);
      var k: nat :| k < i && JoinedSince(h, k, i, user) && JoinJustified(h, k, user);
      assert JoinedSince(h, k, n, user);
    } else {
      EmptyStart(v, h, user);
      NewJoinJustified(v, h, i, user);
      assert JoinedSince(h, i, n, user);
    }
  }

  /** While the join rule is invite only, a joined user is the creator or was invited in the run. */
  lemma {:induction false} InviteOnlyProvenance(v: RoomVersion, h: seq<Event>, n: nat, user: string)
    requires Run(v, h) && n <= |h| && Joined(StateAt(h, n), user)
    requires forall i | 0 <= i < n :: IsInviteRule(v, JoinRuleIn(StateAt(h, i)))
    ensures RoomCreator(h[0]) == Some(user) || exists k: nat | k < n :: Sets(h, k, user, Invite)
  {
    JoinProvenance(v, h, n, user);
    var i: nat :| i < n && JoinedSince(h, i, n, user) && JoinJustified(h, i, user);
    assert h[i].version == v by {
      assert StepOk(v, h, i);
    }
    assert IsInviteRule(v, JoinRuleIn(StateAt(h, i)));
  }

  /** While the room is restricted, the third possibility is a join that names an authoriser who was
      joined and could invite at that moment. */
  lemma {:induction false} RestrictedProvenance(v: RoomVersion, h: seq<Event>, n: nat, user: string)
    requires Run(v, h) && n <= |h| && Joined(StateAt(h, n), user)
    requires forall i | 0 <= i < n ::
               IsInviteRule(v, JoinRuleIn(StateAt(h, i))) || IsRestrictedRule(v, JoinRuleIn(StateAt(h, i)))
    ensures || RoomCreator(h[0]) == Some(user)
            || (exists k: nat | k < n :: Sets(h, k, user, Invite))
            || (exists k: nat, a: string | k < n && Sets(h, k, user, Join) && h[k].content.authoriser == Some(a) ::
                  var s := StateAt(h, k);
                  && MembershipIn(s, a) == Some(Join) && HasLevel(s, a)
                  && UserLevel(s, a) >= NamedLevel(s, InviteLevel, 0))
  {
    hide Run, UserLevel, HasLevel, NamedLevel, MembershipIn, RoomCreator;
    JoinProvenance(v, h, n, user);
    var i: nat :| i < n && JoinedSince(h, i, n, user) && JoinJustified(h, i, user);
    assert IsInviteRule(v, JoinRuleIn(StateAt(h, i))) || IsRestrictedRule(v, JoinRuleIn(StateAt(h, i)));
  }

  /** Memberships in a run can be read, and so can levels once somebody's level can. */
  lemma {:induction false} ReadableInRuns(v: RoomVersion, h: seq<Event>, n: nat, user: string)
    requires Run(v, h) && n <= |h|
    ensures Readable(StateAt(h, n), user)
  {
    StateIsLastEvent(h, n, (Member, user));
    if (Member, user) in StateAt(h, n) {
      var j: nat :| IsLastAt(h, n, (Member, user), j) && StateAt(h, n)[(Member, user)] == h[j];
      EmptyStart(v, h, user);
      CreateIsFirst(v, h, n);
      MemberChange(v, h, j);
    }
  }

  lemma {:induction false} LevelsInRuns(v: RoomVersion, h: seq<Event>, n: nat, user: string, other: string)
    requires Run(v, h) && n <= |h| && HasLevel(StateAt(h, n), user)
    ensures HasLevel(StateAt(h, n), other)
  {
    CreateIsFirst(v, h, n);
    assert n > 0;
    assert StepOk(v, h, 0);
  }

  /** Such a join is accepted in every run: it is enough that the user is not banned, may take part,
      and names a joined authoriser at the invite level. */
  lemma {:induction false} VouchedJoinIsAccepted(v: RoomVersion, h: seq<Event>, e: Event, a: string)
    requires Run(v, h) && |h| > 0
    requires e.version == v && e.etype.Member? && e.stateKey == Some(e.sender) && e.prev == [h[|h| - 1].id]
    requires e.content.membership == Some(Join) && e.content.authoriser == Some(a)
    requires Domain(e.sender).Some? && (h[0].content.federate || Domain(e.sender) == Domain(h[0].sender))
    requires var s := StateAt(h, |h|);
      && MembershipIn(s, e.sender) != Some(Ban)
      && ((v.restricted && JoinRuleIn(s).RestrictedRule?) || (v.knockRestricted && JoinRuleIn(s).KnockRestrictedRule?))
      && MembershipIn(s, a) == Some(Join) && HasLevel(s, a)
      && UserLevel(s, a) >= NamedLevel(s, InviteLevel, 0)
    ensures Allowed(e, StateAt(h, |h|))
  {
    hide Run, HasLevel, UserLevel, NamedLevel, Readable;
    OthersFollow(v, h, a);
    CreatorHasDomain(v, h);
    ReadableInRuns(v, h, |h|, e.sender);
    LevelsInRuns(v, h, |h|, a, e.sender);
    VouchedJoinPasses(e, StateAt(h, |h|), a);
  }

  /** Somebody is in the room only after the create event, which the next event does not follow. */
  lemma {:induction false} OthersFollow(v: RoomVersion, h: seq<Event>, user: string)
    requires Run(v, h) && |h| > 0 && Joined(StateAt(h, |h|), user)
    ensures |h| > 1 && h[|h| - 1].id != h[0].id
    ensures CREATE_KEY in StateAt(h, |h|) && StateAt(h, |h|)[CREATE_KEY] == h[0]
  {
    EmptyStart(v, h, user);
    StateHasCreate(v, h, |h| - 1);
    CreateIsFirst(v, h, |h|);
  }

  lemma {:induction false} CreatorHasDomain(v: RoomVersion, h: seq<Event>)
    requires Run(v, h) && |h| > 1
    ensures Domain(h[0].sender).Some?
  {
    hide Domain, TypeChecks;
    StateHasCreate(v, h, 1);
    CreateIsFirst(v, h, |h|);
    assert StepOk(v, h, 1);
  }

  lemma VouchedJoinPasses(e: Event, s: State, a: string)
    requires e.etype.Member? && e.stateKey == Some(e.sender) && CREATE_KEY in s && e.prev != [s[CREATE_KEY].id]
    requires e.content.membership == Some(Join) && e.content.authoriser == Some(a)
    requires MayFederate(s, e.sender) && Readable(s, e.sender) && HasLevel(s, e.sender) && !Banned(s, e.sender)
    requires IsRestrictedRule(e.version, JoinRuleIn(s))
    requires Joined(s, a) && HasLevel(s, a) && UserLevel(s, a) >= NamedLevel(s, InviteLevel, 0)
    ensures Allowed(e, s)
  {
    hide HasLevel, UserLevel, NamedLevel, Domain, Readable, MayFederate;
    assert AuthorisedJoin(e, s);
    assert ChangeAllowed(e, Join, e.sender, s);
  }
}
