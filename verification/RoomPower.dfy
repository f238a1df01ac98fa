/** Runs of a room: who can rise above whom. */
module RoomPower {
  import opened Options
  import opened RoomVersions
  import opened AuthEvents
  import opened AuthRules
  import opened RoomHistory

  // ---- Creators ----

  lemma {:induction false} VersionOf(v: RoomVersion, h: seq<Event>, i: nat)
    requires Run(v, h) && i < |h|
    ensures h[i].version == v && Coherent(v)
    ensures v.strictCanonicalJson ==> CanonicalInts(h[i]) && CanonicalDefault(h[i])
  {
    assert StepOk(v, h, i);
  }

  lemma AcceptedLevels(e: Event, s: State, c: string)
    requires Allowed(e, s) && e.etype.PowerLevels? && e.version.creatorPower
    requires CREATE_KEY in s && IsCreator(s[CREATE_KEY], c)
    ensures c !in e.content.power.users
  {
    assert UsersNamed(e, s);
  }

  /** The power levels in force were accepted: no creator in them, integers canonical. */
  lemma {:induction false} LevelsInForce(v: RoomVersion, h: seq<Event>, n: nat, c: string)
    requires Run(v, h) && v.creatorPower && n <= |h| && POWER_KEY in StateAt(h, n)
    requires IsCreator(h[0], c)
    ensures c !in PowerIn(StateAt(h, n)).users
    ensures CanonicalInts(StateAt(h, n)[POWER_KEY]) && CanonicalDefault(StateAt(h, n)[POWER_KEY])
  {
    StateIsLastEvent(h, n, POWER_KEY);
    var j: nat :| IsLastAt(h, n, POWER_KEY, j) && StateAt(h, n)[POWER_KEY] == h[j];
    CreateIsFirst(v, h, n);
    AcceptedOnWholeState(v, h, j);
    VersionOf(v, h, j);
    AcceptedLevels(h[j], StateAt(h, j), c);
  }

  lemma LevelsOfState(s: State, c: string, user: string)
    requires CREATE_KEY in s && s[CREATE_KEY].version.creatorPower && s[CREATE_KEY].version.implicitCreator
    requires IsCreator(s[CREATE_KEY], c) && !IsCreator(s[CREATE_KEY], user)
    requires POWER_KEY in s ==> CanonicalInts(s[POWER_KEY]) && CanonicalDefault(s[POWER_KEY])
    ensures HasLevel(s, c) && HasLevel(s, user)
    ensures UserLevel(s, c) > UserLevel(s, user)
  {
  }

  /** With creator power, every reachable state has every creator strictly above everyone else, and
      no creator in the users map. */
  lemma {:induction false} CreatorsAreSupreme(v: RoomVersion, h: seq<Event>, n: nat, c: string, user: string)
    requires Run(v, h) && v.creatorPower && n <= |h| && CREATE_KEY in StateAt(h, n)
    requires IsCreator(h[0], c) && !IsCreator(h[0], user)
    ensures HasLevel(StateAt(h, n), c) && HasLevel(StateAt(h, n), user)
    ensures c !in PowerIn(StateAt(h, n)).users
    ensures UserLevel(StateAt(h, n), c) > UserLevel(StateAt(h, n), user)
  {
    CreateIsFirst(v, h, n);
    VersionOf(v, h, 0);
    if POWER_KEY in StateAt(h, n) {
      LevelsInForce(v, h, n, c);
    }
    LevelsOfState(StateAt(h, n), c, user);
  }

  /** No level is above a creator's. */
  lemma {:induction false} NobodyAboveCreators(v: RoomVersion, h: seq<Event>, n: nat, c: string, user: string)
    requires Run(v, h) && v.creatorPower && n <= |h| && CREATE_KEY in StateAt(h, n)
    requires IsCreator(h[0], c)
    ensures HasLevel(StateAt(h, n), c) && HasLevel(StateAt(h, n), user)
    ensures UserLevel(StateAt(h, n), c) >= UserLevel(StateAt(h, n), user)
  {
    CreateIsFirst(v, h, n);
    VersionOf(v, h, 0);
    if !IsCreator(h[0], user) {
      CreatorsAreSupreme(v, h, n, c, user);
    }
  }

  /** What the rules let a sender do to a target that the sender does not stand above. */
  lemma ChangeOfNoLesser(e: Event, m: Membership, target: string, s: State)
    requires CREATE_KEY in s && ChangeAllowed(e, m, target, s)
    requires e.sender != target && HasLevel(s, e.sender) && HasLevel(s, target)
    requires UserLevel(s, e.sender) <= UserLevel(s, target)
    ensures m.Invite?
  {
  }

  lemma BanOfNoLesser(e: Event, target: string, s: State)
    requires CREATE_KEY in s && ChangeAllowed(e, Ban, target, s)
    ensures HasLevel(s, e.sender) && HasLevel(s, target)
    ensures UserLevel(s, e.sender) > UserLevel(s, target)
  {
  }

  /** No run contains a ban of a creator, even by another creator or themselves, nor a kick: all that
      others can do is invite them, the creator's first join set apart. */
  lemma {:induction false} CreatorsAreUntouchable(v: RoomVersion, h: seq<Event>, i: nat, c: string)
    requires Run(v, h) && v.creatorPower && i < |h|
    requires IsCreator(h[0], c) && IsMemberEventOf(h[i], c)
    ensures h[i].content.membership != Some(Ban)
    ensures h[i].sender != c ==>
      h[i].content.membership == Some(Invite) || (i == 1 && h[i].content.membership == Some(Join))
  {
    CreateIsFirst(v, h, 1);
    MemberChange(v, h, i);
    if !(i == 1 && h[i].content.membership == Some(Join)) {
      NobodyAboveCreators(v, h, i, c, h[i].sender);
      var m := h[i].content.membership.value;
      if m.Ban? {
        BanOfNoLesser(h[i], c, StateAt(h, i));
      } else if h[i].sender != c {
        ChangeOfNoLesser(h[i], m, c, StateAt(h, i));
      }
    }
  }

  // ---- The ceiling ----

  /** No level the content gives to a user is above `top`. */
  ghost predicate BoundedBy(p: PowerContent, top: int) {
    && 0 <= top
    && Get(p.named, UsersDefault).GetOr(0) <= top
    && forall u <- p.users :: p.users[u] <= top
  }

  /** An allowed change keeps the bound, and keeps the entry of anyone at the bound but the sender. */
  lemma ChangeKeepsBound(old_: PowerContent, new_: PowerContent, sender: string, notifications: bool, top: int)
    requires BoundedBy(old_, top)
    requires LevelChangesAllowed(old_, new_, sender, ContentLevel(old_, sender), notifications)
    ensures BoundedBy(new_, top)
    ensures forall u <- old_.users :: old_.users[u] == top && u != sender ==> Get(new_.users, u) == Some(top)
  {
    var level := ContentLevel(old_, sender);
    assert ChangeOk(Get(old_.named, UsersDefault), Get(new_.named, UsersDefault), level, false);
    forall u <- new_.users ensures new_.users[u] <= top {
      assert u in old_.users.Keys + new_.users.Keys;
      assert ChangeOk(Get(old_.users, u), Get(new_.users, u), level, u != sender);
    }
    forall u <- old_.users | old_.users[u] == top && u != sender
      ensures Get(new_.users, u) == Some(top)
    {
      assert u in old_.users.Keys + new_.users.Keys;
      assert ChangeOk(Get(old_.users, u), Get(new_.users, u), level, true);
    }
  }

  /** The room's power levels change only by an accepted event that compared itself with them. */
  lemma {:induction false} PowerStep(v: RoomVersion, h: seq<Event>, i: nat)
    requires Run(v, h) && !v.creatorPower && i < |h| && POWER_KEY in StateAt(h, i)
    ensures POWER_KEY in StateAt(h, i + 1) && CREATE_KEY in StateAt(h, i)
    ensures || PowerIn(StateAt(h, i + 1)) == PowerIn(StateAt(h, i))
            || (&& h[i].etype.PowerLevels?
                && PowerIn(StateAt(h, i + 1)) == h[i].content.power
                && LevelChangesAllowed(PowerIn(StateAt(h, i)), h[i].content.power, h[i].sender,
                     ContentLevel(PowerIn(StateAt(h, i)), h[i].sender), h[i].version.limitNotifications))
  {
    assert i > 0;
    StateHasCreate(v, h, i);
    VersionOf(v, h, 0);
    if h[i].etype.PowerLevels? && h[i].stateKey == Some("") {
      AcceptedOnWholeState(v, h, i);
      assert PowerLevelsAllowed(h[i], StateAt(h, i));
    }
  }

  lemma {:induction false} LevelIsContentLevel(v: RoomVersion, h: seq<Event>, n: nat, user: string)
    requires Run(v, h) && !v.creatorPower && 0 < n <= |h|
    requires POWER_KEY in StateAt(h, n) && CREATE_KEY in StateAt(h, n)
    ensures HasLevel(StateAt(h, n), user)
    ensures UserLevel(StateAt(h, n), user) == ContentLevel(PowerIn(StateAt(h, n)), user)
  {
    CreateIsFirst(v, h, n);
    VersionOf(v, h, 0);
  }

  /** Without creator power, a bound on the levels of all users holds for the rest of the run. */
  lemma {:induction false} PowerCeiling(v: RoomVersion, h: seq<Event>, m: nat, n: nat, top: int)
    requires Run(v, h) && !v.creatorPower && m <= n <= |h|
    requires POWER_KEY in StateAt(h, m) && CREATE_KEY in StateAt(h, m)
    requires BoundedBy(PowerIn(StateAt(h, m)), top)
    ensures POWER_KEY in StateAt(h, n) && CREATE_KEY in StateAt(h, n)
    ensures BoundedBy(PowerIn(StateAt(h, n)), top)
    ensures forall user :: HasLevel(StateAt(h, n), user) && UserLevel(StateAt(h, n), user) <= top
  {
    if m < n {
      PowerCeiling(v, h, m, n - 1, top);
      PowerStep(v, h, n - 1);
      if PowerIn(StateAt(h, n)) != PowerIn(StateAt(h, n - 1)) {
        ChangeKeepsBound(PowerIn(StateAt(h, n - 1)), h[n - 1].content.power, h[n - 1].sender,
                         h[n - 1].version.limitNotifications, top);
      }
    }
    forall user
      ensures HasLevel(StateAt(h, n), user) && UserLevel(StateAt(h, n), user) <= top
    {
      LevelIsContentLevel(v, h, n, user);
    }
  }

  /** A user listed at the ceiling stays there until they send power levels themselves. */
  lemma {:induction false} CeilingHolderStays(v: RoomVersion, h: seq<Event>, m: nat, n: nat, top: int, user: string)
    requires Run(v, h) && !v.creatorPower && m <= n <= |h|
    requires POWER_KEY in StateAt(h, m) && CREATE_KEY in StateAt(h, m)
    requires BoundedBy(PowerIn(StateAt(h, m)), top) && Get(PowerIn(StateAt(h, m)).users, user) == Some(top)
    requires forall i | m <= i < n :: !(h[i].etype.PowerLevels? && h[i].sender == user)
    ensures Get(PowerIn(StateAt(h, n)).users, user) == Some(top)
  {
    if m < n {
      CeilingHolderStays(v, h, m, n - 1, top, user);
      PowerCeiling(v, h, m, n - 1, top);
      PowerStep(v, h, n - 1);
      if PowerIn(StateAt(h, n)) != PowerIn(StateAt(h, n - 1)) {
        ChangeKeepsBound(PowerIn(StateAt(h, n - 1)), h[n - 1].content.power, h[n - 1].sender,
                         h[n - 1].version.limitNotifications, top);
      }
    }
  }

  /** ... and in the meantime nobody kicks or bans them: all that others can do is invite them. */
  lemma {:induction false} CeilingHolderIsUntouchable(v: RoomVersion, h: seq<Event>, m: nat, i: nat, top: int,
      user: string)
    requires Run(v, h) && !v.creatorPower && m <= i < |h|
    requires POWER_KEY in StateAt(h, m) && CREATE_KEY in StateAt(h, m)
    requires BoundedBy(PowerIn(StateAt(h, m)), top) && Get(PowerIn(StateAt(h, m)).users, user) == Some(top)
    requires forall k | m <= k < i :: !(h[k].etype.PowerLevels? && h[k].sender == user)
    requires IsMemberEventOf(h[i], user) && h[i].sender != user
    ensures h[i].content.membership == Some(Invite)
  {
    CeilingHolderStays(v, h, m, i, top, user);
    PowerCeiling(v, h, m, i, top);
    assert i > 1 by {
      CreateIsFirst(v, h, 1);
      assert POWER_KEY !in StateAt(h, 0) && POWER_KEY !in StateAt(h, 1);
    }
    MemberChange(v, h, i);
    LevelIsContentLevel(v, h, i, user);
    ChangeOfNoLesser(h[i], h[i].content.membership.value, user, StateAt(h, i));
  }
}
