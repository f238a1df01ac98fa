/** The authorisation rules: whether an event may enter a room, given room state. A rule that
    raises, for whatever reason, rejects. */
module AuthRules {
  import opened Options
  import opened Ids
  import opened RoomVersions
  import opened AuthEvents

  /** The state-dependent rules. */
  predicate Allowed(e: Event, s: State) {
    e.etype.Create? || (SharedChecks(e, s) && TypeChecks(e, s))
  }

  /** The checks made before the rules for each type: a create event, and federation. */
  predicate SharedChecks(e: Event, s: State) {
    CREATE_KEY in s && MayFederate(s, e.sender)
  }

  /** `user` is on the creating server, or the room may federate. */
  predicate MayFederate(s: State, user: string)
    requires CREATE_KEY in s
  {
    var create := s[CREATE_KEY];
    && Domain(create.sender).Some?
    && Domain(user).Some?
    && (Domain(create.sender) == Domain(user) || create.content.federate)
  }

  predicate TypeChecks(e: Event, s: State)
    requires CREATE_KEY in s
  {
    if e.etype.Aliases? && e.version.specialCaseAliases then
      e.stateKey.Some? && e.stateKey.value != "" && Domain(e.sender) == e.stateKey
    else if e.etype.Member? then MembershipAllowed(e, s)
    else
      && Joined(s, e.sender)
      && if e.etype.ThirdPartyInvite? then
           HasLevel(s, e.sender) && UserLevel(s, e.sender) >= NamedLevel(s, InviteLevel, 0)
         else
           && SendAllowed(e, s)
           && (e.etype.PowerLevels? ==> PowerLevelsAllowed(e, s))
           && (e.etype.Redaction? ==> RedactionAllowed(e, s))
  }

  // ---- Membership ----

  /** The event is a join directly after the create event, for which the creator is looked up. */
  predicate FollowsCreate(e: Event, s: State)
    requires CREATE_KEY in s
  {
    |e.prev| == 1 && e.content.membership == Some(Join) && e.prev[0] == s[CREATE_KEY].id
  }

  predicate MembershipAllowed(e: Event, s: State)
    requires CREATE_KEY in s
  {
    && e.content.membership.Some?
    && e.stateKey.Some?
    && (FollowsCreate(e, s) ==> NamedCreator(e.version, s[CREATE_KEY]).Some?)
    && (|| (FollowsCreate(e, s) && NamedCreator(e.version, s[CREATE_KEY]) == e.stateKey)
        || ChangeAllowed(e, e.content.membership.value, e.stateKey.value, s))
  }

  /** The rules for a membership change once the creator's first join is out of the way. */
  predicate ChangeAllowed(e: Event, membership: Membership, target: string, s: State)
    requires CREATE_KEY in s
  {
    && MayFederate(s, target)
    && Readable(s, e.sender) && Readable(s, target)
    && HasLevel(s, e.sender) && HasLevel(s, target)
    && if membership.Invite? && e.content.thirdParty.Some? then
         ThirdPartyVerified(e, target, s) && !Banned(s, target)
       else if LeavesFreely(e, membership, target, s) then true
       else
         && (membership.Join? || membership.Knock? || Joined(s, e.sender))
         && match membership
            case Invite => InviteAllowed(e, target, s)
            case Join => JoinAllowed(e, target, s)
            case Leave => LeaveAllowed(e, target, s)
            case Ban => BanAllowed(e, target, s)
            case Knock => KnockAllowed(e, target, s)
            case OtherMembership(_) => false
  }

  /** An invited or knocking user may always leave. */
  predicate LeavesFreely(e: Event, membership: Membership, target: string, s: State) {
    && membership.Leave?
    && target == e.sender
    && (|| MembershipIn(s, e.sender) == Some(Invite)
        || (e.version.knock && MembershipIn(s, e.sender) == Some(Knock)))
  }

  predicate InviteAllowed(e: Event, target: string, s: State)
    requires HasLevel(s, e.sender)
  {
    && !Banned(s, target)
    && !Joined(s, target)
    && UserLevel(s, e.sender) >= NamedLevel(s, InviteLevel, 0)
  }

  predicate IsRestrictedRule(v: RoomVersion, rule: JoinRule) {
    (v.restricted && rule.RestrictedRule?) || (v.knockRestricted && rule.KnockRestrictedRule?)
  }

  predicate IsInviteRule(v: RoomVersion, rule: JoinRule) {
    rule.InviteRule? || (v.knock && rule.KnockRule?)
  }

  predicate JoinAllowed(e: Event, target: string, s: State) {
    && e.sender == target
    && !Banned(s, target)
    && var member := Joined(s, e.sender) || MembershipIn(s, e.sender) == Some(Invite);
       if JoinRuleIn(s).PublicRule? then true
       else if IsRestrictedRule(e.version, JoinRuleIn(s)) then member || AuthorisedJoin(e, s)
       else IsInviteRule(e.version, JoinRuleIn(s)) && member
  }

  /** A restricted join names a joined user who may invite. */
  predicate AuthorisedJoin(e: Event, s: State) {
    && e.content.authoriser.Some?
    && Joined(s, e.content.authoriser.value)
    && HasLevel(s, e.content.authoriser.value)
    && UserLevel(s, e.content.authoriser.value) >= NamedLevel(s, InviteLevel, 0)
  }

  predicate LeaveAllowed(e: Event, target: string, s: State)
    requires HasLevel(s, e.sender) && HasLevel(s, target)
  {
    && (Banned(s, target) ==> UserLevel(s, e.sender) >= NamedLevel(s, BanLevel, 50))
    && (target != e.sender ==>
          && UserLevel(s, e.sender) >= NamedLevel(s, KickLevel, 50)
          && UserLevel(s, e.sender) > UserLevel(s, target))
  }

  predicate BanAllowed(e: Event, target: string, s: State)
    requires HasLevel(s, e.sender) && HasLevel(s, target)
  {
    && UserLevel(s, e.sender) >= NamedLevel(s, BanLevel, 50)
    && UserLevel(s, e.sender) > UserLevel(s, target)
  }

  predicate KnockAllowed(e: Event, target: string, s: State) {
    && e.version.knock
    && (JoinRuleIn(s).KnockRule? || (e.version.knockRestricted && JoinRuleIn(s).KnockRestrictedRule?))
    && target == e.sender
    && !Joined(s, target)
    && MembershipIn(s, e.sender) != Some(Invite)
    && !Banned(s, target)
  }

  /** The invite answers an earlier third-party invite by the same sender, and its bundle verifies
      under one of the keys that invite published. */
  predicate ThirdPartyVerified(e: Event, target: string, s: State)
    requires e.content.thirdParty.Some?
  {
    match e.content.thirdParty.value
    case Malformed => false
    case WithSigned(signed) =>
      && signed.mxid.Some? && signed.token.Some? && signed.signatures.Some?
      && (ThirdPartyInvite, signed.token.value) in s
      && var invite := s[(ThirdPartyInvite, signed.token.value)];
         && invite.sender == e.sender
         && signed.mxid.value == target
         && invite.content.publicKeys * signed.signatures.value != {}
  }

  // ---- Sending ----

  /** Broadcast channels let ordinary users comment: the send level drops to the users' default
      for messages outside a thread while the topic marks the room as a channel. */
  function ChannelOverride(e: Event, s: State): Option<int> {
    if IsFeedMessage(e) && IsChannel(s) then Some(Get(PowerIn(s).named, UsersDefault).GetOr(0)) else None
  }

  predicate IsFeedMessage(e: Event) {
    (e.etype.Message? || e.etype.Sticker?) && !e.content.threaded
  }

  predicate IsChannel(s: State) {
    TOPIC_KEY in s && IsChannelTopic(s[TOPIC_KEY].content.topic)
  }

  const CHANNEL_PREFIX := "setka:channel"

  predicate IsChannelTopic(topic: string) {
    StartsWithIgnoringCase(StripLeft(topic), CHANNEL_PREFIX)
  }

  predicate SendAllowed(e: Event, s: State) {
    && HasLevel(s, e.sender)
    && (|| UserLevel(s, e.sender) >= SendLevel(s, e.etype, e.stateKey.Some?)
        || (ChannelOverride(e, s).Some? && UserLevel(s, e.sender) >= ChannelOverride(e, s).value))
    && StateKeyAllowed(e, s)
  }

  /** State keyed by another user's ID may only be set where the version allows it, by a user
      above that one. */
  predicate StateKeyAllowed(e: Event, s: State)
    requires HasLevel(s, e.sender)
  {
    if e.stateKey.None? || e.stateKey.value == "" || e.stateKey.value[0] != '@' || e.stateKey.value == e.sender
    then true
    else
      && e.version.ownedState
      && Find(e.stateKey.value, ':', 1) >= 0
      && var owner := StateKeyOwner(e.stateKey.value);
         && IsUserId(owner)
         && (owner == e.sender || (HasLevel(s, owner) && UserLevel(s, e.sender) > UserLevel(s, owner)))
  }

  /** The part of a state key up to the first underscore after the colon. */
  function StateKeyOwner(key: string): string
    requires Find(key, ':', 1) >= 0
  {
    var end := Find(key, '_', Find(key, ':', 1) + 1);
    if end >= 0 then key[..end] else key
  }

  predicate RedactionAllowed(e: Event, s: State) {
    && HasLevel(s, e.sender)
    && (|| UserLevel(s, e.sender) >= NamedLevel(s, RedactLevel, 50)
        || !e.version.format.V1V2?
        || (&& Domain(e.id).Some?
            && (e.content.redacts.None?
                || (Domain(e.content.redacts.value).Some? && Domain(e.content.redacts.value) == Domain(e.id)))))
  }

  // ---- Power levels ----

  predicate PowerLevelsAllowed(e: Event, s: State) {
    && UsersNamed(e, s)
    && e.stateKey.Some?
    && ((PowerLevels, e.stateKey.value) in s ==>
          && HasLevel(s, e.sender)
          && LevelChangesAllowed(s[(PowerLevels, e.stateKey.value)].content.power, e.content.power,
                                 e.sender, UserLevel(s, e.sender), e.version.limitNotifications))
  }

  /** The users map holds user IDs only, and no creator whose power cannot be changed. */
  predicate UsersNamed(e: Event, s: State) {
    && (forall u <- e.content.power.users :: ParsesAsUserId(u))
    && (e.version.creatorPower ==>
          && CREATE_KEY in s
          && s[CREATE_KEY].sender !in e.content.power.users
          && forall c <- s[CREATE_KEY].content.additionalCreators.GetOr([]) :: c !in e.content.power.users)
  }

  /** One level may go from `old` to `new`: it is unchanged, or neither value is above the sender's
      level and it does not take an equal level from another user. */
  predicate ChangeOk(old_: Option<int>, new_: Option<int>, level: int, ofOtherUser: bool) {
    || (old_.Some? && old_ == new_)
    || (&& !(ofOtherUser && old_ == Some(level))
        && (old_.Some? ==> old_.value <= level)
        && (new_.Some? ==> new_.value <= level))
  }

  predicate LevelChangesAllowed(old_: PowerContent, new_: PowerContent, sender: string, level: int,
      notifications: bool) {
    && (forall n: LevelName :: ChangeOk(Get(old_.named, n), Get(new_.named, n), level, false))
    && (forall u <- old_.users.Keys + new_.users.Keys ::
          ChangeOk(Get(old_.users, u), Get(new_.users, u), level, u != sender))
    && (forall t <- old_.events.Keys + new_.events.Keys ::
          ChangeOk(Get(old_.events, t), Get(new_.events, t), level, false))
    && (notifications ==>
          forall t <- old_.notifications.Keys + new_.notifications.Keys ::
            ChangeOk(Get(old_.notifications, t), Get(new_.notifications, t), level, false))
  }

  // ---- Create ----

  predicate CreateAllowed(e: Event) {
    && e.prev == []
    && (if e.version.roomIdsAsHashes then !e.hasRoomId
        else Domain(e.sender).Some? && Domain(e.sender) == Domain(e.roomId))
    && IsKnownIdentifier(e.content.roomVersion.GetOr("1"))
    && (!e.version.implicitCreator ==> e.content.creator.Some?)
    && (e.version.creatorPower ==>
          forall c <- e.content.additionalCreators.GetOr([]) ::
            IsUserId(c) && |c| <= 255 && Utf8Length(c) <= 255)
  }
}
