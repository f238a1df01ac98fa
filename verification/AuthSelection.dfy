/** Auth event selection: which parts of the state an event is checked against, and exactly when
    that selection decides the verdict. */
module AuthSelection {
  import opened Options
  import opened Ids
  import opened RoomVersions
  import opened AuthEvents
  import opened AuthRules

  /** The keys selected for an event; `None` when the selection itself raises. */
  function Selection(e: Event): Option<set<Key>> {
    if e.etype.Create? then Some({})
    else if !e.etype.Member? then Some({POWER_KEY, (Member, e.sender), CREATE_KEY})
    else if e.content.membership.None? || e.stateKey.None? then None
    else if NeedsToken(e) && TokenOf(e).None? then None
    else Some(
      {POWER_KEY, (Member, e.sender), CREATE_KEY, (Member, e.stateKey.value)}
      + (if e.content.membership.value in {Join, Invite, Knock} then {JOIN_RULES_KEY} else {})
      + (if NeedsToken(e) then {(ThirdPartyInvite, TokenOf(e).value)} else {})
      + (if NeedsAuthoriser(e) then {(Member, e.content.authoriser.value)} else {}))
  }

  predicate NeedsToken(e: Event) {
    e.content.membership == Some(Invite) && e.content.thirdParty.Some?
  }

  function TokenOf(e: Event): Option<string>
    requires e.content.thirdParty.Some?
  {
    match e.content.thirdParty.value
    case Malformed => None
    case WithSigned(signed) => signed.token
  }

  predicate NeedsAuthoriser(e: Event) {
    e.version.restricted && e.content.membership == Some(Join) && e.content.authoriser.Some?
  }

  function SelectedKeys(e: Event): set<Key> {
    Selection(e).GetOr({})
  }

  /** The selection as it is built: a base set to which each case adds a key. */
  method AuthTypesForEvent(e: Event) returns (types: Option<set<Key>>)
    ensures types == Selection(e)
  {
    if e.etype.Create? {
      return Some({});
    }
    var keys: set<Key> := {POWER_KEY, (Member, e.sender), CREATE_KEY};
    if e.etype.Member? {
      if e.content.membership.None? || e.stateKey.None? {
        return None;
      }
      var membership := e.content.membership.value;
      if membership in {Join, Invite, Knock} {
        keys := keys + {JOIN_RULES_KEY};
      }
      keys := keys + {(Member, e.stateKey.value)};
      if membership.Invite? && e.content.thirdParty.Some? {
        if TokenOf(e).None? {
          return None;
        }
        keys := keys + {(ThirdPartyInvite, TokenOf(e).value)};
      }
      if e.version.restricted && membership.Join? && e.content.authoriser.Some? {
        keys := keys + {(Member, e.content.authoriser.value)};
      }
    }
    assert keys == Selection(e).value;
    types := Some(keys);
  }

  /** Two states give the same event, or none, at every key of `keys`. */
  ghost predicate Agree(s: State, t: State, keys: set<Key>) {
    forall k <- keys :: Get(s, k) == Get(t, k)
  }

  /** The part of a state that the selection keeps. */
  function Restrict(s: State, keys: set<Key>): State {
    map k | k in s && k in keys :: s[k]
  }

  lemma RestrictAgrees(s: State, keys: set<Key>)
    ensures Agree(s, Restrict(s, keys), keys)
  {
  }

  // ---- Where the selection is enough ----

  /** The lookups shared by all rules agree. */
  lemma LevelsAgree(s: State, t: State, user: string)
    requires Get(s, CREATE_KEY) == Get(t, CREATE_KEY)
    requires Get(s, POWER_KEY) == Get(t, POWER_KEY)
    ensures HasLevel(s, user) == HasLevel(t, user)
    ensures HasLevel(s, user) ==> UserLevel(s, user) == UserLevel(t, user)
    ensures PowerIn(s) == PowerIn(t)
  {
  }

  lemma MembersAgree(s: State, t: State, user: string)
    requires Get(s, (Member, user)) == Get(t, (Member, user))
    ensures MembershipIn(s, user) == MembershipIn(t, user)
    ensures Readable(s, user) == Readable(t, user)
  {
  }

  /** What a membership change reads beside the two users: third-party invites, join rules, and the
      authoriser of a restricted join. */
  lemma DetailsAgree(e: Event, s: State, t: State)
    requires e.etype.Member? && Agree(s, t, SelectedKeys(e)) && Selection(e).Some?
    requires Get(s, CREATE_KEY) == Get(t, CREATE_KEY) && Get(s, POWER_KEY) == Get(t, POWER_KEY)
    ensures NeedsToken(e) ==> ThirdPartyVerified(e, e.stateKey.value, s) == ThirdPartyVerified(e, e.stateKey.value, t)
    ensures e.content.membership.value in {Join, Invite, Knock} ==> JoinRuleIn(s) == JoinRuleIn(t)
    ensures e.version.restricted && e.content.membership == Some(Join) ==> AuthorisedJoin(e, s) == AuthorisedJoin(e, t)
  {
    var keys := SelectedKeys(e);
    if NeedsToken(e) {
      assert (ThirdPartyInvite, TokenOf(e).value) in keys;
    }
    if e.content.membership.value in {Join, Invite, Knock} {
      assert JOIN_RULES_KEY in keys;
    }
    if NeedsAuthoriser(e) {
      assert (Member, e.content.authoriser.value) in keys;
      MembersAgree(s, t, e.content.authoriser.value);
      LevelsAgree(s, t, e.content.authoriser.value);
    }
  }

  /** The rules for a change ask for nothing else. */
  lemma ChangeChecksAgree(e: Event, m: Membership, target: string, s: State, t: State)
    requires e.version.knockRestricted ==> e.version.restricted
    requires CREATE_KEY in s && CREATE_KEY in t && s[CREATE_KEY] == t[CREATE_KEY] && PowerIn(s) == PowerIn(t)
    requires forall u <- {e.sender, target} ::
      && HasLevel(s, u) == HasLevel(t, u) && (HasLevel(s, u) ==> UserLevel(s, u) == UserLevel(t, u))
      && MembershipIn(s, u) == MembershipIn(t, u) && Readable(s, u) == Readable(t, u)
    requires m.Invite? && e.content.thirdParty.Some? ==>
      ThirdPartyVerified(e, target, s) == ThirdPartyVerified(e, target, t)
    requires m in {Join, Invite, Knock} ==> JoinRuleIn(s) == JoinRuleIn(t)
    requires e.version.restricted && m.Join? ==> AuthorisedJoin(e, s) == AuthorisedJoin(e, t)
    ensures ChangeAllowed(e, m, target, s) == ChangeAllowed(e, m, target, t)
  {
    hide UserLevel, HasLevel, MembershipIn, Readable, Domain, ThirdPartyVerified, AuthorisedJoin, JoinRuleIn, PowerIn;
    assert e.sender in {e.sender, target} && target in {e.sender, target};
    assert forall name: LevelName, d: int :: NamedLevel(s, name, d) == NamedLevel(t, name, d);
  }

  lemma MembershipChecksAgree(e: Event, s: State, t: State)
    requires e.etype.Member? && Agree(s, t, SelectedKeys(e)) && Selection(e).Some?
    requires e.version.knockRestricted ==> e.version.restricted
    requires CREATE_KEY in s && CREATE_KEY in t
    ensures MembershipAllowed(e, s) == MembershipAllowed(e, t)
  {
    var target := e.stateKey.value;
    assert forall k <- {CREATE_KEY, POWER_KEY, (Member, e.sender), (Member, target)} :: k in SelectedKeys(e);
    DetailsAgree(e, s, t);
    hide ChangeAllowed, ThirdPartyVerified, AuthorisedJoin, JoinRuleIn, Selection, SelectedKeys;
    forall u <- {e.sender, target}
      ensures HasLevel(s, u) == HasLevel(t, u) && (HasLevel(s, u) ==> UserLevel(s, u) == UserLevel(t, u))
      ensures MembershipIn(s, u) == MembershipIn(t, u) && Readable(s, u) == Readable(t, u)
    {
      LevelsAgree(s, t, u);
      MembersAgree(s, t, u);
    }
    LevelsAgree(s, t, target);
    ChangeChecksAgree(e, e.content.membership.value, target, s, t);
  }

  /** Checks of a state event or message agree up to what the channel override reads. */
  lemma SendChecksAgree(e: Event, s: State, t: State)
    requires Get(s, CREATE_KEY) == Get(t, CREATE_KEY) && Get(s, POWER_KEY) == Get(t, POWER_KEY)
    requires IsFeedMessage(e) ==> IsChannel(s) == IsChannel(t)
    ensures SendAllowed(e, s) == SendAllowed(e, t)
    ensures RedactionAllowed(e, s) == RedactionAllowed(e, t)
    ensures UsersNamed(e, s) == UsersNamed(e, t)
  {
    LevelsAgree(s, t, e.sender);
    if e.stateKey.Some? && Find(e.stateKey.value, ':', 1) >= 0 {
      LevelsAgree(s, t, StateKeyOwner(e.stateKey.value));
    }
  }

  /** Reads outside the selection: the room topic, and the power levels under another state key. */
  ghost predicate ReadsBeyondSelection(e: Event) {
    IsFeedMessage(e) || (e.etype.PowerLevels? && e.stateKey.Some? && e.stateKey.value != "")
  }

  /** Every event other than those two kinds gets one verdict from all states that agree on the
      selected keys. */
  lemma SelectionSuffices(e: Event, s: State, t: State)
    requires e.version.knockRestricted ==> e.version.restricted
    requires Agree(s, t, SelectedKeys(e))
    requires !ReadsBeyondSelection(e)
    ensures Allowed(e, s) == Allowed(e, t)
  {
    if Selection(e).None? {
      assert !Allowed(e, s) && !Allowed(e, t);
    } else if !e.etype.Create? {
      SelectedBase(e, s, t);
      if CREATE_KEY in s {
        MembersAgree(s, t, e.sender);
        LevelsAgree(s, t, e.sender);
        if e.etype.Member? {
          MembershipChecksAgree(e, s, t);
        } else {
          SendChecksAgree(e, s, t);
        }
      }
    }
  }

  lemma SelectedBase(e: Event, s: State, t: State)
    requires !e.etype.Create? && Selection(e).Some? && Agree(s, t, SelectedKeys(e))
    ensures forall k <- {CREATE_KEY, POWER_KEY, (Member, e.sender)} :: Get(s, k) == Get(t, k)
    ensures SharedChecks(e, s) == SharedChecks(e, t)
  {
    assert forall k <- {CREATE_KEY, POWER_KEY, (Member, e.sender)} :: k in SelectedKeys(e);
  }

  // ---- Exactly where it is not ----

  /** Only the topic stands between a feed message and acceptance. */
  ghost predicate DecidedByTopic(e: Event, s: State) {
    && IsFeedMessage(e)
    && SharedChecks(e, s) && Joined(s, e.sender) && HasLevel(s, e.sender) && StateKeyAllowed(e, s)
    && UserLevel(s, e.sender) < SendLevel(s, e.etype, e.stateKey.Some?)
    && UserLevel(s, e.sender) >= Get(PowerIn(s).named, UsersDefault).GetOr(0)
  }

  /** Only the unselected power levels under the event's own non-empty key stand in its way. */
  ghost predicate DecidedByOtherPowerKey(e: Event, s: State) {
    && e.etype.PowerLevels? && e.stateKey.Some? && e.stateKey.value != ""
    && SharedChecks(e, s) && Joined(s, e.sender) && SendAllowed(e, s) && UsersNamed(e, s)
  }

  /** Some state that agrees on the selected keys gets the other verdict. */
  ghost predicate VerdictVaries(e: Event, s: State) {
    exists t: State :: Keyed(t) && Agree(s, t, SelectedKeys(e)) && Allowed(e, t) != Allowed(e, s)
  }

  function Blank(e: Event, etype: EventType, key: string, content: Content): Event {
    Event("", e.roomId, true, etype, Some(key), e.sender, e.version, [], [], false, content)
  }

  /** The selection decides the verdict except in exactly two situations. */
  lemma SelectionIsExact(e: Event, s: State)
    requires Keyed(s)
    requires e.version.knockRestricted ==> e.version.restricted
    ensures VerdictVaries(e, s) <==> DecidedByTopic(e, s) || DecidedByOtherPowerKey(e, s)
  {
    if DecidedByTopic(e, s) {
      TopicFlipsVerdict(e, s);
    } else if DecidedByOtherPowerKey(e, s) {
      OtherPowerKeyFlipsVerdict(e, s);
    } else {
      forall t: State | Agree(s, t, SelectedKeys(e))
        ensures Allowed(e, t) == Allowed(e, s)
      {
        NothingElseVaries(e, s, t);
      }
    }
  }

  lemma NothingElseVaries(e: Event, s: State, t: State)
    requires e.version.knockRestricted ==> e.version.restricted
    requires Agree(s, t, SelectedKeys(e))
    requires !DecidedByTopic(e, s) && !DecidedByOtherPowerKey(e, s)
    ensures Allowed(e, t) == Allowed(e, s)
  {
    if !ReadsBeyondSelection(e) {
      SelectionSuffices(e, s, t);
    } else {
      SelectedBase(e, s, t);
      MembersAgree(s, t, e.sender);
      LevelsAgree(s, t, e.sender);
      if e.etype.PowerLevels? {
        SendChecksAgree(e, s, t);
      } else {
        SendLevelsAgree(e, s, t);
      }
    }
  }

  /** The parts of the send check that do not read the topic. */
  lemma SendLevelsAgree(e: Event, s: State, t: State)
    requires Get(s, CREATE_KEY) == Get(t, CREATE_KEY) && Get(s, POWER_KEY) == Get(t, POWER_KEY)
    ensures HasLevel(s, e.sender) == HasLevel(t, e.sender)
    ensures HasLevel(s, e.sender) ==> StateKeyAllowed(e, s) == StateKeyAllowed(e, t)
    ensures SendLevel(s, e.etype, e.stateKey.Some?) == SendLevel(t, e.etype, e.stateKey.Some?)
  {
    LevelsAgree(s, t, e.sender);
    if e.stateKey.Some? && Find(e.stateKey.value, ':', 1) >= 0 {
      LevelsAgree(s, t, StateKeyOwner(e.stateKey.value));
    }
  }

  /** Both situations are described by selected keys only. */
  lemma SituationsAgree(e: Event, s: State, t: State)
    requires Agree(s, t, SelectedKeys(e)) && ReadsBeyondSelection(e)
    ensures DecidedByTopic(e, s) == DecidedByTopic(e, t)
    ensures DecidedByOtherPowerKey(e, s) == DecidedByOtherPowerKey(e, t)
    ensures DecidedByOtherPowerKey(e, s) ==> UserLevel(s, e.sender) == UserLevel(t, e.sender)
  {
    SelectedBase(e, s, t);
    MembersAgree(s, t, e.sender);
    LevelsAgree(s, t, e.sender);
    SendLevelsAgree(e, s, t);
    if !IsFeedMessage(e) {
      SendChecksAgree(e, s, t);
    }
  }

  lemma TopicDecides(e: Event, s: State)
    requires DecidedByTopic(e, s)
    ensures Allowed(e, s) == IsChannel(s)
  {
  }

  lemma ChannelTopicExists()
    ensures IsChannelTopic(CHANNEL_PREFIX) && !IsChannelTopic("")
  {
    assert CHANNEL_PREFIX[0] == 's';
    assert StripLeft(CHANNEL_PREFIX) == CHANNEL_PREFIX;
  }

  lemma TopicIsNotSelected(e: Event)
    requires IsFeedMessage(e)
    ensures TOPIC_KEY !in SelectedKeys(e)
  {
  }

  function WithTopic(e: Event, s: State, topic: string): State {
    s[TOPIC_KEY := Blank(e, Topic, "", BLANK.(topic := topic))]
  }

  /** Changing the topic, which is not selected, is enough for either verdict: the event is accepted
      exactly when the topic marks a channel. */
  lemma TopicIsFree(e: Event, s: State, topic: string)
    requires Keyed(s) && DecidedByTopic(e, s)
    ensures var t := WithTopic(e, s, topic);
      Keyed(t) && Agree(s, t, SelectedKeys(e)) && Allowed(e, t) == IsChannelTopic(topic)
  {
    var t := WithTopic(e, s, topic);
    assert IsFeedMessage(e);
    TopicIsNotSelected(e);
    hide Allowed, DecidedByTopic, SelectedKeys, IsChannelTopic;
    assert Agree(s, t, SelectedKeys(e));
    SituationsAgree(e, s, t);
    TopicDecides(e, t);
  }

  lemma TopicFlipsVerdict(e: Event, s: State)
    requires Keyed(s) && DecidedByTopic(e, s)
    ensures VerdictVaries(e, s)
  {
    hide Allowed, DecidedByTopic, SelectedKeys, Keyed, Agree, WithTopic;
    ChannelTopicExists();
    TopicIsFree(e, s, CHANNEL_PREFIX);
    TopicIsFree(e, s, "");
  }

  lemma OtherPowerKeyDecides(e: Event, s: State)
    requires DecidedByOtherPowerKey(e, s)
    ensures Allowed(e, s) <==>
      ((PowerLevels, e.stateKey.value) in s ==>
         LevelChangesAllowed(s[(PowerLevels, e.stateKey.value)].content.power, e.content.power,
                             e.sender, UserLevel(s, e.sender), e.version.limitNotifications))
  {
  }

  /** Some power levels cannot be replaced by `p` at a level. */
  lemma UnreachableLevels(p: PowerContent, sender: string, level: int, notifications: bool) returns (old_: PowerContent)
    ensures !LevelChangesAllowed(old_, p, sender, level, notifications)
  {
    var top := Get(p.named, BanLevel).GetOr(0);
    var above := if top > level then top + 1 else level + 1;
    old_ := NO_POWER.(named := map[BanLevel := above]);
    assert !ChangeOk(Get(old_.named, BanLevel), Get(p.named, BanLevel), level, false);
  }

  /** The state with these power levels, or none, under the event's own key. */
  function WithOtherPower(e: Event, s: State, p: Option<PowerContent>): State
    requires e.stateKey.Some?
  {
    var key := (PowerLevels, e.stateKey.value);
    if p.Some? then s[key := Blank(e, PowerLevels, key.1, BLANK.(power := p.value))] else s - {key}
  }

  /** Changing that one entry, which is not selected, is enough for either verdict: without levels
      the event is accepted, and with levels it is accepted exactly when it may change them. */
  lemma OtherPowerKeyIsFree(e: Event, s: State, p: Option<PowerContent>)
    requires Keyed(s) && DecidedByOtherPowerKey(e, s)
    ensures var t := WithOtherPower(e, s, p);
      && Keyed(t) && Agree(s, t, SelectedKeys(e))
      && (Allowed(e, t) <==> p.Some? ==>
            LevelChangesAllowed(p.value, e.content.power, e.sender, UserLevel(s, e.sender),
                e.version.limitNotifications))
  {
    var t := WithOtherPower(e, s, p);
    var key := (PowerLevels, e.stateKey.value);
    assert key !in SelectedKeys(e);
    hide Allowed, LevelChangesAllowed, UserLevel, SelectedKeys, DecidedByOtherPowerKey;
    assert Agree(s, t, SelectedKeys(e));
    SituationsAgree(e, s, t);
    OtherPowerKeyDecides(e, t);
  }

  lemma OtherPowerKeyFlipsVerdict(e: Event, s: State)
    requires Keyed(s) && DecidedByOtherPowerKey(e, s)
    ensures VerdictVaries(e, s)
  {
    var level := UserLevel(s, e.sender);
    var old_ := UnreachableLevels(e.content.power, e.sender, level, e.version.limitNotifications);
    hide Allowed, LevelChangesAllowed, UserLevel, SelectedKeys, DecidedByOtherPowerKey, Keyed, Agree, WithOtherPower;
    OtherPowerKeyIsFree(e, s, None);
    OtherPowerKeyIsFree(e, s, Some(old_));
  }

  /** Checking against the selection of a state never accepts more than checking against the whole
      state, other levels under a non-empty key aside; it accepts less only for channel comments. */
  lemma SelectedStateIsStricter(e: Event, s: State)
    requires e.version.knockRestricted ==> e.version.restricted
    requires !(e.etype.PowerLevels? && e.stateKey.Some? && e.stateKey.value != "")
    ensures Allowed(e, Restrict(s, SelectedKeys(e))) <==> Allowed(e, s) && !(DecidedByTopic(e, s) && IsChannel(s))
  {
    var t := Restrict(s, SelectedKeys(e));
    RestrictAgrees(s, SelectedKeys(e));
    if IsFeedMessage(e) {
      SelectedBase(e, s, t);
      MembersAgree(s, t, e.sender);
      LevelsAgree(s, t, e.sender);
      SendLevelsAgree(e, s, t);
      assert TOPIC_KEY !in SelectedKeys(e);
      assert !IsChannel(t);
    } else {
      SelectionSuffices(e, s, t);
    }
  }

  /** The selection key by key: the room's create event and power levels, and the sender's membership; for
      a membership change also the target's, the join rules unless it is a leave or ban, and the third-party
      invite or the authoriser that it names. */
  lemma SelectionByKey(e: Event, k: Key)
    requires !e.etype.Create?
    ensures Selection(e).None?
       <==> e.etype.Member?
            && (|| e.stateKey.None? || e.content.membership.None?
                || (e.content.membership.value.Invite? && e.content.thirdParty.Some?
                    && match e.content.thirdParty.value { case WithSigned(b) => b.token.None? case Malformed => true }))
    ensures Selection(e).Some? ==>
      (k in SelectedKeys(e)
       <==> || k in {(Create, ""), (PowerLevels, ""), (Member, e.sender)}
            || (&& e.etype.Member?
                && (|| k == (Member, e.stateKey.value)
                    || (k == (JoinRules, "") && e.content.membership.value in {Join, Invite, Knock})
                    || (k.0.Member? && e.version.restricted && e.content.membership.value.Join?
                        && e.content.authoriser == Some(k.1))
                    || (k.0.ThirdPartyInvite? && e.content.membership.value.Invite?
                        && match e.content.thirdParty {
                             case Some(WithSigned(b)) => b.token == Some(k.1)
                             case _ => false
                           }))))
  {
  }
}
