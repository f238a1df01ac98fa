/** Which events clients may see: one filter for one user and many events, one for one event and many
    users, and how far the two agree. */
module Visibility {
  import opened Options
  import Auth = AuthEvents

  type Membership = Auth.Membership

  datatype HistoryVisibility = WorldReadable | Shared | Invited | JoinedOnly | OtherVisibility(name: string)

  datatype Kind = Member | HistoryVisibilityType | JoinRulesType | CallInvite | Dummy | Aliases
      | OtherKind(name: string)

  /** An event, with the earlier content that the server noted on it. */
  datatype Event = Event(
    id: string,
    sender: string,
    roomId: string,
    kind: Kind,
    stateKey: Option<string>,
    ts: int,
    membership: Membership,
    prevMembership: Option<Membership>,
    visibility: Option<HistoryVisibility>,
    prevVisibility: Option<HistoryVisibility>,
    joinRule: Option<Auth.JoinRule>,
    softFailed: bool,
    spammy: bool,
    outlier: bool
  )

  type Key = (Kind, string)
  type State = map<Key, Event>

  const VISIBILITY_KEY: Key := (HistoryVisibilityType, "")
  const JOIN_RULES_KEY: Key := (JoinRulesType, "")

  /** The stores that both filters consult. */
  datatype World = World(
    states: map<string, State>, // the state after an event
    ignores: set<(string, string)>, // who ignores whom
    erased: set<string>,
    lifetimes: map<string, int>, // retention, by room
    now: int,
    wantsSoftFailed: set<string>, // admins who asked for soft-failed events
    wantsSpammy: set<string> // admins who asked for those a policy server marked
  )

  /** Reading the state key of a member event raises if it has none. */
  predicate WellFormed(e: Event) {
    e.kind.Member? ==> e.stateKey.Some?
  }

  // ---- The decisions ----

  function VisibilityRank(v: HistoryVisibility): nat {
    match v
    case WorldReadable => 0
    case Shared => 1
    case Invited => 2
    case JoinedOnly => 3
    case OtherVisibility(_) => 4
  }

  function MembershipRank(m: Membership): nat {
    match m
    case Join => 0
    case Invite => 1
    case Knock => 2
    case Leave => 3
    case Ban => 4
    case OtherMembership(_) => 5
  }

  /** A value that is missing or unknown counts as shared. */
  function KnownVisibility(v: Option<HistoryVisibility>): (r: HistoryVisibility)
    ensures !r.OtherVisibility?
  {
    if v.None? || v.value.OtherVisibility? then Shared else v.value
  }

  function KnownMembership(m: Option<Membership>): Membership {
    if m.None? || m.value.OtherMembership? then Auth.Leave else m.value
  }

  function EffectiveVisibility(s: State): (r: HistoryVisibility)
    ensures !r.OtherVisibility?
  {
    if VISIBILITY_KEY in s then KnownVisibility(s[VISIBILITY_KEY].visibility) else Shared
  }

  /** The visibility is lax enough to skip the membership check. At a change of visibility the laxer
      of old and new counts. */
  predicate IsLax(e: Event, visibility: HistoryVisibility, peeking: bool) {
    var old_ := KnownVisibility(e.prevVisibility);
    var v := if e.kind.HistoryVisibilityType? && VisibilityRank(old_) < VisibilityRank(visibility) then old_
             else visibility;
    (v.Shared? && !peeking) || v.WorldReadable?
  }

  datatype MembershipCheck = MembershipCheck(allowed: bool, joined: bool)

  predicate IsOwn(e: Event, user: string) {
    e.kind.Member? && e.stateKey == Some(user)
  }

  function MembershipIn(s: State, user: string): Option<Membership> {
    if (Member, user) in s then Some(s[(Member, user)].membership) else None
  }

  /** The user's own leave, or refusal of an invite. */
  predicate IsDeparture(e: Event, user: string) {
    && IsOwn(e, user)
    && KnownMembership(Some(e.membership)).Leave?
    && (KnownMembership(e.prevMembership).Join? || KnownMembership(e.prevMembership).Invite?)
  }

  /** The membership that counts: for the user's own membership event, the most joined of old and new. */
  function MembershipAt(user: string, e: Event, s: State): Option<Membership> {
    if IsOwn(e, user) then
      var new_, old_ := KnownMembership(Some(e.membership)), KnownMembership(e.prevMembership);
      Some(if MembershipRank(old_) < MembershipRank(new_) then old_ else new_)
    else MembershipIn(s, user)
  }

  /** Whether a user's membership lets them see an event. */
  function CheckMembership(user: string, e: Event, visibility: HistoryVisibility, s: State,
      peeking: bool): MembershipCheck {
    if IsDeparture(e, user) then MembershipCheck(true, false)
    else
      var membership := MembershipAt(user, e, s);
      if membership == Some(Auth.Join) then MembershipCheck(true, true)
      else if visibility.JoinedOnly? then MembershipCheck(false, false)
      else if visibility.Invited? then MembershipCheck(membership == Some(Auth.Invite), false)
      else if visibility.Shared? && peeking then MembershipCheck(false, false)
      else MembershipCheck(true, false)
  }

  // ---- What the decisions mean ----

  /** The visibility alone opens an event to a user, member or not. */
  predicate OpenToAll(v: HistoryVisibility, peeking: bool) {
    v.WorldReadable? || (v.Shared? && !peeking)
  }

  /** The visibility opens an event to users with a membership. */
  predicate OpenToMember(v: HistoryVisibility, m: Option<Membership>, peeking: bool) {
    OpenToAll(v, peeking) || m == Some(Auth.Join) || (v.Invited? && m == Some(Auth.Invite))
  }

  /** An event that changes the visibility is open if it would be under the old or under the new one. */
  lemma LaxUnderOldOrNew(e: Event, v: HistoryVisibility, peeking: bool)
    ensures IsLax(e, v, peeking)
       <==> || OpenToAll(v, peeking)
            || (e.kind.HistoryVisibilityType? && OpenToAll(KnownVisibility(e.prevVisibility), peeking))
  {
  }

  /** A user sees their own membership event if they would with the old or with the new membership,
      or are leaving by it; any other event by their membership after it. */
  lemma AllowedByOldOrNew(user: string, e: Event, v: HistoryVisibility, s: State, peeking: bool)
    requires !v.OtherVisibility?
    ensures CheckMembership(user, e, v, s, peeking).allowed
       <==> if IsOwn(e, user) then
              || IsDeparture(e, user)
              || OpenToMember(v, Some(KnownMembership(Some(e.membership))), peeking)
              || OpenToMember(v, Some(KnownMembership(e.prevMembership)), peeking)
            else OpenToMember(v, MembershipIn(s, user), peeking)
  {
    match v
    case WorldReadable =>
    case Shared =>
    case Invited =>
    case JoinedOnly =>
  }

  /** The event may go to clients at all: not a dummy or alias event, and, if not state, neither from
      an ignored sender nor past the room's retention. */
  predicate MayBeSent(w: World, user: string, e: Event) {
    && !e.kind.Dummy?
    && !(e.stateKey.None? && (user, e.sender) in w.ignores)
    && !e.kind.Aliases?
    && !(e.stateKey.None? && e.roomId in w.lifetimes && e.ts < w.now - w.lifetimes[e.roomId])
  }

  datatype Verdict = Raised | Hidden | Seen(pruned: bool)

  function CheckClientAllowed(w: World, user: string, e: Event, always: set<string>, state: Option<State>,
      peeking: bool): Verdict {
    if !MayBeSent(w, user, e) then Hidden
    else if e.id in always then Seen(false)
    else if e.outlier then (if IsOwn(e, user) then Seen(false) else Hidden)
    else if state.None? then Raised
    else
      var erased := e.sender in w.erased;
      var visibility := EffectiveVisibility(state.value);
      if !erased && IsLax(e, visibility, peeking) then Seen(false)
      else
        var check := CheckMembership(user, e, visibility, state.value, peeking);
        if check.allowed then Seen(erased && !check.joined) else Hidden
  }

  // ---- One user, many events ----

  predicate IsCallInvite(e: Event) {
    e.kind.CallInvite? && e.stateKey.None?
  }

  /** A call invite that would ring everyone in a public room. */
  predicate RingsPublicRoom(e: Event, s: State) {
    IsCallInvite(e) && JOIN_RULES_KEY in s && s[JOIN_RULES_KEY].joinRule == Some(Auth.PublicRule)
  }

  /** An event as shown to a client, annotated with the user's membership after it. */
  datatype ClientEvent = ClientEvent(e: Event, pruned: bool, membership: Membership)

  datatype Reply = Failed | Nothing | Show(shown: ClientEvent)

  /** The decision on one event, given the part of the state after it that was fetched. */
  function Decide(w: World, user: string, e: Event, always: set<string>, state: Option<State>, peeking: bool): Reply {
    var verdict := CheckClientAllowed(w, user, e, always, state, peeking);
    if verdict.Raised? then Failed
    else if verdict.Hidden? then Nothing
    else if IsCallInvite(e) && state.None? then Failed
    else if state.Some? && RingsPublicRoom(e, state.value) then Nothing
    else if IsOwn(e, user) then Show(ClientEvent(e, verdict.pruned, e.membership))
    else if state.None? then Failed
    else Show(ClientEvent(e, verdict.pruned,
           if (Member, user) in state.value then state.value[(Member, user)].membership else Auth.Leave))
  }

  /** The store has no state for outliers. */
  function StateOf(w: World, e: Event): Option<State> {
    if e.outlier then None else Get(w.states, e.id)
  }

  /** The event stays in the list: it was not soft-failed, or the user asked for such events. */
  predicate Keeps(e: Event, all: bool, spammy: bool) {
    !e.softFailed || all || (spammy && e.spammy)
  }

  function Kept(events: seq<Event>, all: bool, spammy: bool): seq<Event> {
    if events == [] then []
    else
      var last := events[|events| - 1];
      Kept(events[..|events| - 1], all, spammy) + if Keeps(last, all, spammy) then [last] else []
  }

  lemma {:induction false} AllAreKept(events: seq<Event>, spammy: bool)
    ensures Kept(events, true, spammy) == events
  {
    if events != [] {
      AllAreKept(events[..|events| - 1], spammy);
    }
  }

  /** The list holds a call invite that was not soft-failed. */
  predicate HasCallInvite(events: seq<Event>) {
    exists e <- events :: IsCallInvite(e) && !e.softFailed
  }

  /** The part of a state that is fetched: join rules only for a list with call invites. */
  function FetchedKeys(user: string, calls: bool): set<Key> {
    {VISIBILITY_KEY, (Member, user)} + if calls then {JOIN_RULES_KEY} else {}
  }

  function Only(s: State, keys: set<Key>): State {
    map k | k in s && k in keys :: s[k]
  }

  /** What the user gets for an event in the list, from the whole state after it. The rule on call
      invites is in force only when `calls`. */
  function ReplyFor(w: World, user: string, e: Event, always: set<string>, peeking: bool, calls: bool): Reply {
    var state := StateOf(w, e);
    Decide(w, user, e, always, if state.None? || calls then state else Some(state.value - {JOIN_RULES_KEY}), peeking)
  }

  /** The replies in order, if none failed. */
  function Replies(w: World, user: string, events: seq<Event>, always: set<string>, peeking: bool,
      calls: bool): Option<seq<ClientEvent>> {
    if events == [] then Some([])
    else
      var before := Replies(w, user, events[..|events| - 1], always, peeking, calls);
      var last := ReplyFor(w, user, events[|events| - 1], always, peeking, calls);
      if before.None? || last.Failed? then None
      else Some(before.value + if last.Show? then [last.shown] else [])
  }

  /** The fetched part of a state decides as the whole state would. */
  lemma FetchedStateSuffices(w: World, user: string, e: Event, always: set<string>, s: State, peeking: bool,
      calls: bool)
    ensures Decide(w, user, e, always, Some(Only(s, FetchedKeys(user, calls))), peeking)
         == Decide(w, user, e, always, Some(if calls then s else s - {JOIN_RULES_KEY}), peeking)
  {
    hide MayBeSent, IsLax;
    var f, g := Only(s, FetchedKeys(user, calls)), if calls then s else s - {JOIN_RULES_KEY};
    assert VISIBILITY_KEY in f <==> VISIBILITY_KEY in g;
    assert (Member, user) in f <==> (Member, user) in g;
    assert JOIN_RULES_KEY in f <==> JOIN_RULES_KEY in g;
    assert EffectiveVisibility(f) == EffectiveVisibility(g);
    assert CheckMembership(user, e, EffectiveVisibility(f), f, peeking)
        == CheckMembership(user, e, EffectiveVisibility(g), g, peeking);
  }

  lemma RepliesStep(w: World, user: string, events: seq<Event>, i: nat, always: set<string>, peeking: bool, calls: bool)
    requires i < |events|
    ensures var before := Replies(w, user, events[..i], always, peeking, calls);
      var last := ReplyFor(w, user, events[i], always, peeking, calls);
      Replies(w, user, events[..i + 1], always, peeking, calls)
      == if before.None? || last.Failed? then None else Some(before.value + if last.Show? then [last.shown] else [])
  {
    hide ReplyFor;
    assert events[..i + 1] == events[..i] + [events[i]];
    assert events[..i + 1][..i] == events[..i];
  }

  /** Drop soft-failed events, unless the user asked for them, and look for call invites. */
  method DropSoftFailed(w: World, user: string, events: seq<Event>) returns (kept: seq<Event>, calls: bool)
    ensures kept == Kept(events, user in w.wantsSoftFailed, user in w.wantsSpammy)
    ensures calls == HasCallInvite(events)
  {
    kept, calls := [], false;
    for i := 0 to |events|
      invariant kept == Kept(events[..i], false, false)
      invariant calls == HasCallInvite(events[..i])
    {
      assert events[..i + 1] == events[..i] + [events[i]];
      if !events[i].softFailed {
        if IsCallInvite(events[i]) {
          calls := true;
        }
        kept := kept + [events[i]];
      }
    }
    assert events[..|events|] == events;
    if user in w.wantsSoftFailed {
      AllAreKept(events, user in w.wantsSpammy);
      kept := events;
    } else if user in w.wantsSpammy {
      kept := [];
      for i := 0 to |events|
        invariant kept == Kept(events[..i], false, true)
      {
        assert events[..i + 1] == events[..i] + [events[i]];
        if !events[i].softFailed || events[i].spammy {
          kept := kept + [events[i]];
        }
      }
    }
  }

  /** Filter events for one user, fetching only those parts of the states that the checks read. */
  method FilterEventsForClient(w: World, user: string, events: seq<Event>, always: set<string>, peeking: bool)
    returns (shown: Option<seq<ClientEvent>>)
    requires forall e <- events :: WellFormed(e)
    ensures var kept := Kept(events, user in w.wantsSoftFailed, user in w.wantsSpammy);
      shown == Replies(w, user, kept, always, peeking, HasCallInvite(events))
  {
    hide Decide, HasCallInvite, Kept;
    var kept, calls := DropSoftFailed(w, user, events);
    shown := Some([]);
    for i := 0 to |kept|
      invariant shown == Replies(w, user, kept[..i], always, peeking, calls)
    {
      RepliesStep(w, user, kept, i, always, peeking, calls);
      var state := StateOf(w, kept[i]);
      if state.Some? {
        FetchedStateSuffices(w, user, kept[i], always, state.value, peeking, calls);
        state := Some(Only(state.value, FetchedKeys(user, calls)));
      }
      var reply := Decide(w, user, kept[i], always, state, peeking);
      shown := if shown.None? || reply.Failed? then None
               else Some(shown.value + if reply.Show? then [reply.shown] else []);
    }
    assert kept[..|kept|] == kept;
  }

  /** An event is shown exactly when its own reply says so. */
  lemma {:induction false} ShownExactly(w: World, user: string, events: seq<Event>, always: set<string>,
      peeking: bool, calls: bool, c: ClientEvent)
    requires Replies(w, user, events, always, peeking, calls).Some?
    ensures c in Replies(w, user, events, always, peeking, calls).value
       <==> exists e <- events :: ReplyFor(w, user, e, always, peeking, calls) == Show(c)
  {
    hide ReplyFor;
    if events != [] {
      var before, last := events[..|events| - 1], events[|events| - 1];
      assert events == before + [last];
      ShownExactly(w, user, before, always, peeking, calls, c);
    }
  }

  /** The other events of the list matter to the reply for one event only when that is a soft-failed
      call invite, shown at an admin's wish, and no other call invite made the server fetch join rules. */
  lemma OthersMatterOnlyToSoftFailedCalls(w: World, user: string, events: seq<Event>, e: Event, always: set<string>,
      peeking: bool)
    requires e in events && StateOf(w, e).Some?
    ensures ReplyFor(w, user, e, always, peeking, HasCallInvite(events)) != ReplyFor(w, user, e, always, peeking, true)
       <==> && e.softFailed && !HasCallInvite(events)
            && RingsPublicRoom(e, StateOf(w, e).value)
            && CheckClientAllowed(w, user, e, always, StateOf(w, e), peeking).Seen?
  {
    hide MayBeSent, IsLax;
    var s := StateOf(w, e).value;
    var f := s - {JOIN_RULES_KEY};
    assert EffectiveVisibility(f) == EffectiveVisibility(s);
    assert CheckMembership(user, e, EffectiveVisibility(f), f, peeking)
        == CheckMembership(user, e, EffectiveVisibility(s), s, peeking);
  }

  // ---- One event, many users ----

  /** The state after an event, from the state before it. */
  function StateAfter(prev: State, e: Event): State {
    if e.stateKey.Some? then prev[(e.kind, e.stateKey.value) := e] else prev
  }

  /** The checks on one user, from the whole state after the event. `sending` is off when the caller
      only asks what users could see at that point of the room. */
  predicate InBulk(w: World, user: string, e: Event, prev: State, peeking: bool, sending: bool) {
    && !e.softFailed
    && (sending ==> MayBeSent(w, user, e))
    && if e.outlier then IsOwn(e, user)
       else
         var s := StateAfter(prev, e);
         var visibility := EffectiveVisibility(s);
         IsLax(e, visibility, peeking) || CheckMembership(user, e, visibility, s, peeking).allowed
  }

  /** Reading the visibility, and later the memberships, through two filters on the previous state
      comes to the same as reading the state after the event. */
  lemma TwoReadsSuffice(users: set<string>, user: string, e: Event, prev: State, peeking: bool)
    requires user in users
    ensures var s, first := StateAfter(prev, e), StateAfter(Only(prev, {VISIBILITY_KEY}), e);
      var second := StateAfter(Only(prev, (set u | u in users :: (Member, u)) + {VISIBILITY_KEY}), e);
      && EffectiveVisibility(first) == EffectiveVisibility(s)
      && CheckMembership(user, e, EffectiveVisibility(first), second, peeking)
          == CheckMembership(user, e, EffectiveVisibility(s), s, peeking)
  {
    var keys := (set u | u in users :: (Member, u)) + {VISIBILITY_KEY};
    var s, second := StateAfter(prev, e), StateAfter(Only(prev, keys), e);
    assert (Member, user) in s <==> (Member, user) in second;
  }

  /** Filter users for one event. Visibility is read first, memberships only when it is not lax. */
  method FilterEventForClients(w: World, users: seq<string>, e: Event, prev: State, peeking: bool, sending: bool)
    returns (allowed: set<string>)
    requires WellFormed(e)
    ensures forall u :: u in allowed <==> u in users && InBulk(w, u, e, prev, peeking, sending)
  {
    hide MayBeSent, IsLax, CheckMembership, EffectiveVisibility;
    if e.softFailed || users == [] {
      return {};
    }
    allowed := set u | u in users;
    if sending {
      for i := 0 to |users|
        invariant forall u :: u in allowed <==> u in users && (u in users[..i] ==> MayBeSent(w, u, e))
      {
        assert users[..i + 1] == users[..i] + [users[i]];
        if !MayBeSent(w, users[i], e) {
          allowed := allowed - {users[i]};
        }
      }
      assert users[..|users|] == users;
    }
    if e.outlier {
      return if e.kind.Member? && e.stateKey.value in allowed then {e.stateKey.value} else {};
    }
    var visibility := EffectiveVisibility(StateAfter(Only(prev, {VISIBILITY_KEY}), e));
    var keys := (set u | u in allowed :: (Member, u)) + {VISIBILITY_KEY};
    forall u | u in allowed
      ensures EffectiveVisibility(StateAfter(prev, e)) == visibility
      ensures CheckMembership(u, e, visibility, StateAfter(Only(prev, keys), e), peeking)
           == CheckMembership(u, e, visibility, StateAfter(prev, e), peeking)
    {
      TwoReadsSuffice(allowed, u, e, prev, peeking);
    }
    if !IsLax(e, visibility, peeking) {
      var s := StateAfter(Only(prev, keys), e);
      allowed := set u | u in allowed && CheckMembership(u, e, visibility, s, peeking).allowed;
    }
  }

  // ---- Agreement ----

  /** An erased sender tightened the visibility: the earlier one was open to the user, the new one is not.
      The bulk filter goes by the earlier one, the other filter does not. */
  predicate ErasedBoundary(w: World, user: string, e: Event, s: State, peeking: bool) {
    && !e.outlier && e.sender in w.erased && e.kind.HistoryVisibilityType?
    && OpenToAll(KnownVisibility(e.prevVisibility), peeking)
    && !OpenToMember(EffectiveVisibility(s), MembershipIn(s, user), peeking)
  }

  /** These are exactly the events of erased senders whose visibility is lax while the user's membership
      would not let them see it. */
  lemma ErasureMattersOnlyAtBoundaries(w: World, user: string, e: Event, s: State, peeking: bool)
    ensures ErasedBoundary(w, user, e, s, peeking)
       <==> && !e.outlier && e.sender in w.erased
            && IsLax(e, EffectiveVisibility(s), peeking)
            && !CheckMembership(user, e, EffectiveVisibility(s), s, peeking).allowed
  {
    LaxUnderOldOrNew(e, EffectiveVisibility(s), peeking);
    AllowedByOldOrNew(user, e, EffectiveVisibility(s), s, peeking);
    hide IsLax, CheckMembership, EffectiveVisibility;
  }

  /** The two filters agree on one event and one user, except where one drops a call invite that
      would ring a public room, or withholds an erased sender's tightening of the visibility. */
  lemma FiltersAgree(w: World, user: string, e: Event, always: set<string>, prev: State, peeking: bool)
    requires WellFormed(e) && e.id !in always && !e.softFailed
    requires !e.outlier ==> StateOf(w, e) == Some(StateAfter(prev, e))
    ensures ReplyFor(w, user, e, always, peeking, true).Show?
       <==> && InBulk(w, user, e, prev, peeking, true)
            && (!e.outlier ==> !RingsPublicRoom(e, StateAfter(prev, e)))
            && !ErasedBoundary(w, user, e, StateAfter(prev, e), peeking)
    ensures !ReplyFor(w, user, e, always, peeking, true).Failed?
  {
    ErasureMattersOnlyAtBoundaries(w, user, e, StateAfter(prev, e), peeking);
    hide MayBeSent, EffectiveVisibility, IsLax, CheckMembership, ErasedBoundary;
  }

  /** Such an event exists: a user who was never in the room is in the bulk result for it, but does
      not get it from the other filter. */
  lemma ErasureSeparatesTheFilters() returns (w: World, user: string, e: Event, prev: State)
    ensures WellFormed(e) && StateOf(w, e) == Some(StateAfter(prev, e))
    ensures InBulk(w, user, e, prev, false, true)
    ensures ReplyFor(w, user, e, {}, false, true) == Nothing
  {
    user, prev := "@u:a", map[];
    e := Event("$e", "@s:a", "!r", HistoryVisibilityType, Some(""), 0, Auth.Leave, None,
               Some(JoinedOnly), Some(Shared), None, false, false, false);
    w := World(map["$e" := StateAfter(prev, e)], {}, {"@s:a"}, map[], 0, {}, {});
    assert EffectiveVisibility(StateAfter(prev, e)) == JoinedOnly;
  }

  /** A shown event is pruned exactly when its sender is erased and the user was not joined at it or is
      just leaving; events included by request, and outliers, never are. */
  lemma PrunedExactly(w: World, user: string, e: Event, always: set<string>, peeking: bool, calls: bool)
    requires ReplyFor(w, user, e, always, peeking, calls).Show?
    ensures var c := ReplyFor(w, user, e, always, peeking, calls).shown;
      && c.e == e
      && (c.pruned <==> && e.id !in always && StateOf(w, e).Some? && e.sender in w.erased
                        && (MembershipAt(user, e, StateOf(w, e).value) != Some(Auth.Join) || IsDeparture(e, user)))
  {
    hide MayBeSent, IsLax;
    var state := StateOf(w, e);
    if state.Some? {
      var f := if calls then state.value else state.value - {JOIN_RULES_KEY};
      assert MembershipAt(user, e, f) == MembershipAt(user, e, state.value);
    }
  }

  /** A shown event is annotated with the membership that the state after it gives the user. */
  lemma AnnotatedWithMembershipAfter(w: World, user: string, e: Event, always: set<string>, prev: State,
      peeking: bool, calls: bool)
    requires WellFormed(e) && StateOf(w, e) == Some(StateAfter(prev, e))
    requires ReplyFor(w, user, e, always, peeking, calls).Show?
    ensures var s := StateAfter(prev, e);
      ReplyFor(w, user, e, always, peeking, calls).shown.membership
      == if (Member, user) in s then s[(Member, user)].membership else Auth.Leave
  {
    hide CheckClientAllowed;
  }

  /** End to end: for an ordinary event in a list, being shown to a user and the user being in the
      result for the event come to the same, those two exceptions aside. */
  lemma ListAgreesWithBulk(w: World, user: string, events: seq<Event>, e: Event, always: set<string>, prev: State,
      peeking: bool)
    requires e in events && WellFormed(e) && e.id !in always && !e.softFailed
    requires !e.outlier ==> StateOf(w, e) == Some(StateAfter(prev, e))
    requires var kept := Kept(events, user in w.wantsSoftFailed, user in w.wantsSpammy);
      Replies(w, user, kept, always, peeking, HasCallInvite(events)).Some?
    ensures var kept := Kept(events, user in w.wantsSoftFailed, user in w.wantsSpammy);
      (exists c <- Replies(w, user, kept, always, peeking, HasCallInvite(events)).value :: c.e == e)
      <==> && InBulk(w, user, e, prev, peeking, true)
           && (!e.outlier ==> !RingsPublicRoom(e, StateAfter(prev, e)))
           && !ErasedBoundary(w, user, e, StateAfter(prev, e), peeking)
  {
    hide ReplyFor, InBulk, ErasedBoundary, RingsPublicRoom, CheckClientAllowed;
    var all, spammy, calls := user in w.wantsSoftFailed, user in w.wantsSpammy, HasCallInvite(events);
    var kept := Kept(events, all, spammy);
    InKept(events, all, spammy, e);
    FiltersAgree(w, user, e, always, prev, peeking);
    CallsFlagIsIrrelevant(w, user, events, e, always, peeking);
    forall c: ClientEvent
      ensures c in Replies(w, user, kept, always, peeking, calls).value
         <==> exists x <- kept :: ReplyFor(w, user, x, always, peeking, calls) == Show(c)
    {
      ShownExactly(w, user, kept, always, peeking, calls, c);
    }
    forall x | x in kept && ReplyFor(w, user, x, always, peeking, calls).Show?
      ensures ReplyFor(w, user, x, always, peeking, calls).shown.e == x
    {
      PrunedExactly(w, user, x, always, peeking, calls);
    }
    if ReplyFor(w, user, e, always, peeking, calls).Show? {
      var c := ReplyFor(w, user, e, always, peeking, calls).shown;
      assert ReplyFor(w, user, e, always, peeking, calls) == Show(c);
    }
  }

  lemma {:induction false} InKept(events: seq<Event>, all: bool, spammy: bool, e: Event)
    ensures e in Kept(events, all, spammy) <==> e in events && Keeps(e, all, spammy)
  {
    if events != [] {
      var before, last := events[..|events| - 1], events[|events| - 1];
      assert events == before + [last];
      InKept(before, all, spammy, e);
    }
  }

  lemma CallsFlagIsIrrelevant(w: World, user: string, events: seq<Event>, e: Event, always: set<string>, peeking: bool)
    requires e in events && !e.softFailed
    ensures ReplyFor(w, user, e, always, peeking, HasCallInvite(events)) == ReplyFor(w, user, e, always, peeking, true)
  {
    if StateOf(w, e).Some? {
      OthersMatterOnlyToSoftFailedCalls(w, user, events, e, always, peeking);
    }
  }
}
