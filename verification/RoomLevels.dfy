/** Runs of a room: the levels and rules in force are what the last event to set them says, and levels are
    changed by those entitled to. */
module RoomLevels {
  import opened Options
  import opened Ids
  import opened RoomVersions
  import opened AuthEvents
  import opened AuthRules
  import opened AuthSelection
  import opened AuthSending
  import opened PowerChanges
  import opened RoomHistory
  import opened RoomPower

  // ---- In force ----

  /** No event before `n` has the key. */
  ghost predicate NeverSet(h: seq<Event>, n: nat, k: Key)
    requires n <= |h|
  {
    forall i | 0 <= i < n :: !(h[i].etype == k.0 && h[i].stateKey == Some(k.1))
  }

  lemma {:induction false} LastSet(h: seq<Event>, n: nat, k: Key, j: nat)
    requires n <= |h| && IsLastAt(h, n, k, j)
    ensures k in StateAt(h, n) && StateAt(h, n)[k] == h[j]
  {
    StateIsLastEvent(h, n, k);
    if k in StateAt(h, n) {
      var i: nat :| IsLastAt(h, n, k, i) && StateAt(h, n)[k] == h[i];
      assert i == j;
    }
  }

  lemma {:induction false} NotSet(h: seq<Event>, n: nat, k: Key)
    requires n <= |h| && NeverSet(h, n, k)
    ensures k !in StateAt(h, n)
  {
    StateIsLastEvent(h, n, k);
  }

  /** A creator of a room with creator power is at 2^53. Everyone else's level is their entry in the last
      power levels, or the default there, or 0. Before any power levels the creator is at 100. */
  lemma {:induction false} LevelIsAsLastSet(v: RoomVersion, h: seq<Event>, n: nat, user: string)
    requires Run(v, h) && 0 < n <= |h| && CREATE_KEY in StateAt(h, n)
    ensures v.creatorPower && NamesAsCreator(h[0], user) ==>
      HasLevel(StateAt(h, n), user) && UserLevel(StateAt(h, n), user) == 9007199254740992
    ensures !(v.creatorPower && NamesAsCreator(h[0], user)) ==>
      forall j: nat | IsLastAt(h, n, POWER_KEY, j) :: var p := h[j].content.power;
        HasLevel(StateAt(h, n), user) && UserLevel(StateAt(h, n), user)
        == if user in p.users then p.users[user] else if UsersDefault in p.named then p.named[UsersDefault] else 0
    ensures !(v.creatorPower && NamesAsCreator(h[0], user)) && NeverSet(h, n, POWER_KEY) ==>
      var creator := if v.implicitCreator then Some(h[0].sender) else h[0].content.creator;
      && (HasLevel(StateAt(h, n), user) <==> creator.Some?)
      && (creator.Some? ==> UserLevel(StateAt(h, n), user) == if user == creator.value then 100 else 0)
  {
    CreateIsFirst(v, h, n);
    VersionOf(v, h, 0);
    forall j: nat | IsLastAt(h, n, POWER_KEY, j)
      ensures POWER_KEY in StateAt(h, n) && StateAt(h, n)[POWER_KEY] == h[j]
    {
      LastSet(h, n, POWER_KEY, j);
    }
    if NeverSet(h, n, POWER_KEY) {
      NotSet(h, n, POWER_KEY);
    }
    LevelIsRead(StateAt(h, n), user);
    hide Run, NeverSet, NamesAsCreator, HasLevel, UserLevel, IsLastAt, StateAt;
  }

  lemma LevelIsRead(s: State, user: string)
    requires CREATE_KEY in s && (s[CREATE_KEY].version.creatorPower ==> s[CREATE_KEY].version.implicitCreator)
    ensures var create := s[CREATE_KEY];
      var named := if create.version.implicitCreator then Some(create.sender) else create.content.creator;
      if create.version.creatorPower && NamesAsCreator(create, user) then
        HasLevel(s, user) && UserLevel(s, user) == 9007199254740992
      else if POWER_KEY in s then
        var p := s[POWER_KEY].content.power;
        HasLevel(s, user) && UserLevel(s, user)
        == if user in p.users then p.users[user] else if UsersDefault in p.named then p.named[UsersDefault] else 0
      else
        && (HasLevel(s, user) <==> named.Some?)
        && (named.Some? ==> UserLevel(s, user) == if user == named.value then 100 else 0)
  {
  }

  /** The level for an action, and for sending a type of event, is what the last power levels say, the
      entry for the type first. */
  lemma {:induction false} ThresholdIsAsLastSet(h: seq<Event>, n: nat, name: LevelName, default: int, etype: EventType,
      j: nat)
    requires n <= |h| && IsLastAt(h, n, POWER_KEY, j)
    ensures var p := h[j].content.power;
      && NamedLevel(StateAt(h, n), name, default) == (if name in p.named then p.named[name] else default)
      && SendLevel(StateAt(h, n), etype, true)
         == (if etype in p.events then p.events[etype]
             else if StateDefault in p.named then p.named[StateDefault] else 50)
      && SendLevel(StateAt(h, n), etype, false)
         == if etype in p.events then p.events[etype]
             else if EventsDefault in p.named then p.named[EventsDefault] else 0
  {
    LastSet(h, n, POWER_KEY, j);
  }

  lemma {:induction false} ThresholdUntilSet(h: seq<Event>, n: nat, name: LevelName, default: int, etype: EventType)
    requires n <= |h| && NeverSet(h, n, POWER_KEY)
    ensures NamedLevel(StateAt(h, n), name, default) == default
    ensures SendLevel(StateAt(h, n), etype, true) == 50 && SendLevel(StateAt(h, n), etype, false) == 0
  {
    NotSet(h, n, POWER_KEY);
  }

  /** The join rule is that of the last join rules event; one that says nothing, or none, means invite. */
  lemma {:induction false} JoinRuleIsAsLastSet(h: seq<Event>, n: nat)
    requires n <= |h|
    ensures forall j: nat | IsLastAt(h, n, JOIN_RULES_KEY, j) ::
      JoinRuleIn(StateAt(h, n)) == if h[j].content.joinRule.Some? then h[j].content.joinRule.value else InviteRule
    ensures NeverSet(h, n, JOIN_RULES_KEY) ==> JoinRuleIn(StateAt(h, n)) == InviteRule
  {
    forall j: nat | IsLastAt(h, n, JOIN_RULES_KEY, j)
      ensures JOIN_RULES_KEY in StateAt(h, n) && StateAt(h, n)[JOIN_RULES_KEY] == h[j]
    {
      LastSet(h, n, JOIN_RULES_KEY, j);
    }
    if NeverSet(h, n, JOIN_RULES_KEY) {
      NotSet(h, n, JOIN_RULES_KEY);
    }
  }

  // ---- Changes of the levels ----

  /** Where a run replaces power levels, its sender was entitled to every difference: no scalar, and no
      entry for a type of event, a user or (from the version that says so) a notification was or becomes
      higher than the sender's level, and no entry of another user was as high. */
  lemma {:induction false} PowerChangesAreEntitled(v: RoomVersion, h: seq<Event>, i: nat)
    requires Run(v, h) && 0 < i < |h| && h[i].etype.PowerLevels? && h[i].stateKey == Some("")
    requires POWER_KEY in StateAt(h, i)
    ensures var s := StateAt(h, i); var was, is_ := s[POWER_KEY].content.power, h[i].content.power;
      && HasLevel(s, h[i].sender)
      && var level := UserLevel(s, h[i].sender);
         && (forall x <- was.named | x !in is_.named || is_.named[x] != was.named[x] :: was.named[x] <= level)
         && (forall x <- is_.named | x !in was.named || is_.named[x] != was.named[x] :: is_.named[x] <= level)
         && (forall x <- was.events | x !in is_.events || is_.events[x] != was.events[x] :: was.events[x] <= level)
         && (forall x <- is_.events | x !in was.events || is_.events[x] != was.events[x] :: is_.events[x] <= level)
         && (forall x <- was.users | x !in is_.users || is_.users[x] != was.users[x] ::
               was.users[x] <= level && (x != h[i].sender ==> was.users[x] < level))
         && (forall x <- is_.users | x !in was.users || is_.users[x] != was.users[x] :: is_.users[x] <= level)
         && (v.limitNotifications ==>
               var old_, new_ := was.notifications, is_.notifications;
               && (forall x <- old_ | x !in new_ || new_[x] != old_[x] :: old_[x] <= level)
               && (forall x <- new_ | x !in old_ || new_[x] != old_[x] :: new_[x] <= level))
  {
    AcceptedOnWholeState(v, h, i);
    VersionOf(v, h, i);
    RulesFollowRows(h[i], StateAt(h, i));
    hide Run, MaySend, UserLevel, HasLevel, TakesPart;
    assert MaySetLevels(h[i], StateAt(h, i));
  }

  /** The converse: in any run, a joined sender at the level for power levels, whose server may take part,
      may replace them with any others, for user IDs other than creators, that differ only so. */
  lemma {:induction false} EntitledChangesAreAccepted(v: RoomVersion, h: seq<Event>, e: Event)
    requires Run(v, h) && e.version == v && e.etype.PowerLevels? && e.stateKey == Some("")
    requires var s := StateAt(h, |h|);
      && CREATE_KEY in s && POWER_KEY in s && TakesPart(s, e.sender)
      && MembershipIn(s, e.sender) == Some(Join) && HasLevel(s, e.sender)
      && var level, was, is_ := UserLevel(s, e.sender), s[POWER_KEY].content.power, e.content.power;
         && level >= SendLevel(s, PowerLevels, true)
         && (forall u <- is_.users :: LooksLikeUser(u) && (v.creatorPower ==> !NamesAsCreator(h[0], u)))
         && (forall x <- was.named | x !in is_.named || is_.named[x] != was.named[x] :: was.named[x] <= level)
         && (forall x <- is_.named | x !in was.named || is_.named[x] != was.named[x] :: is_.named[x] <= level)
         && (forall x <- was.events | x !in is_.events || is_.events[x] != was.events[x] :: was.events[x] <= level)
         && (forall x <- is_.events | x !in was.events || is_.events[x] != was.events[x] :: is_.events[x] <= level)
         && (forall x <- was.users | x !in is_.users || is_.users[x] != was.users[x] ::
               was.users[x] <= level && (x != e.sender ==> was.users[x] < level))
         && (forall x <- is_.users | x !in was.users || is_.users[x] != was.users[x] :: is_.users[x] <= level)
         && (v.limitNotifications ==>
               var old_, new_ := was.notifications, is_.notifications;
               && (forall x <- old_ | x !in new_ || new_[x] != old_[x] :: old_[x] <= level)
               && (forall x <- new_ | x !in old_ || new_[x] != old_[x] :: new_[x] <= level))
    ensures Allowed(e, StateAt(h, |h|))
  {
    var s := StateAt(h, |h|);
    CreateIsFirst(v, h, |h|);
    hide Run, UserLevel, HasLevel, TakesPart, LooksLikeUser, NamesAsCreator, SendLevel, StateAt, Allowed;
    var level, was, is_ := UserLevel(s, e.sender), s[POWER_KEY].content.power, e.content.power;
    assert DiffersUpTo(level, was.named, is_.named) && DiffersUpTo(level, was.events, is_.events);
    assert DiffersUpTo(level, was.users, is_.users) && TakesFromBelow(level, was.users, is_.users, e.sender);
    assert v.limitNotifications ==> DiffersUpTo(level, was.notifications, is_.notifications);
    hide DiffersUpTo, TakesFromBelow;
    EntitledChangesPass(e, s);
  }

  lemma EntitledChangesPass(e: Event, s: State)
    requires e.etype.PowerLevels? && e.stateKey == Some("") && CREATE_KEY in s && POWER_KEY in s
    requires TakesPart(s, e.sender) && Joined(s, e.sender)
    requires HasLevel(s, e.sender) && UserLevel(s, e.sender) >= SendLevel(s, PowerLevels, true)
    requires forall u <- e.content.power.users ::
      LooksLikeUser(u) && (e.version.creatorPower ==> !NamesAsCreator(s[CREATE_KEY], u))
    requires var level, was, is_ := UserLevel(s, e.sender), s[POWER_KEY].content.power, e.content.power;
      && DiffersUpTo(level, was.named, is_.named) && DiffersUpTo(level, was.events, is_.events)
      && DiffersUpTo(level, was.users, is_.users) && TakesFromBelow(level, was.users, is_.users, e.sender)
      && (e.version.limitNotifications ==> DiffersUpTo(level, was.notifications, is_.notifications))
    ensures Allowed(e, s)
  {
    RulesFollowRows(e, s);
    hide Allowed, UserLevel, HasLevel, TakesPart, LooksLikeUser, NamesAsCreator, SendLevel;
    hide DiffersUpTo, TakesFromBelow;
    assert MaySend(e, s) && MaySetLevels(e, s);
  }

  // ---- How a room starts ----

  /** A first event starts a run exactly when it creates the room: nothing before it, a room ID of its
      sender's server or none, a known version, a creator where the version wants one named, and well-formed
      user IDs for the others. */
  lemma {:induction false} StartsExactly(v: RoomVersion, e: Event)
    ensures Run(v, [e])
       <==> && Coherent(v) && e.version == v && e.etype.Create? && e.prev == []
            && (if v.roomIdsAsHashes then !e.hasRoomId
                else Domain(e.sender).Some? && Domain(e.roomId) == Domain(e.sender))
            && (e.content.roomVersion.Some? ==>
                  exists w <- KNOWN_ROOM_VERSIONS :: w.identifier == e.content.roomVersion.value)
            && (v.implicitCreator || e.content.creator.Some?)
            && (v.creatorPower && e.content.additionalCreators.Some? ==>
                  forall c <- e.content.additionalCreators.value :: IsUserId(c) && |c| <= 255 && Utf8Length(c) <= 255)
            && (v.strictCanonicalJson ==> CanonicalInts(e) && CanonicalDefault(e))
  {
    hide IsUserId, Utf8Length, Domain, IsKnownIdentifier, TypeChecks, CanonicalInts, CanonicalDefault;
    assert StateAt([e], 0) == map[] && Restrict(map[], SelectedKeys(e)) == map[];
    assert Run(v, [e]) <==> Coherent(v) && StepOk(v, [e], 0);
    KnownIdentifiers(e.content.roomVersion);
  }

  lemma {:induction false} KnownIdentifiers(id: Option<string>)
    ensures IsKnownIdentifier(id.GetOr("1"))
       <==> (id.Some? ==> exists w <- KNOWN_ROOM_VERSIONS :: w.identifier == id.value)
  {
    assert KNOWN_ROOM_VERSIONS[0].identifier == "1";
  }
}
