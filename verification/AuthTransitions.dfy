/** The membership rules as a table: what each new membership asks, given the target's present one.
    The rules themselves are written as a sequence of checks; here each row stands alone. */
module AuthTransitions {
  import opened Options
  import opened Ids
  import opened RoomVersions
  import opened AuthEvents
  import opened AuthRules

  /** The rules can be evaluated at all: the target's server may take part, and neither a membership
      nor a level is missing. */
  predicate Evaluable(e: Event, target: string, s: State)
    requires CREATE_KEY in s
  {
    && Domain(target).Some? && Domain(s[CREATE_KEY].sender).Some?
    && (s[CREATE_KEY].content.federate || Domain(target) == Domain(s[CREATE_KEY].sender))
    && (forall u <- {e.sender, target} :: (Member, u) in s ==> s[(Member, u)].content.membership.Some?)
    && HasLevel(s, e.sender) && HasLevel(s, target)
  }

  /** The event carries a bundle for its target, under the token of a third-party invite by the same
      sender and with a signature by one of that invite's keys. */
  predicate AnswersOffer(e: Event, target: string, s: State) {
    match e.content.thirdParty
    case Some(WithSigned(Signed(Some(mxid), Some(token), Some(signatures)))) =>
      && mxid == target && (ThirdPartyInvite, token) in s && s[(ThirdPartyInvite, token)].sender == e.sender
      && exists key <- signatures :: key in s[(ThirdPartyInvite, token)].content.publicKeys
    case _ => false
  }

  /** The event names a user of the room who may invite. */
  predicate IsVouchedFor(e: Event, s: State) {
    match e.content.authoriser
    case Some(a) =>
      && StandingOf(s, a).Inside? && HasLevel(s, a)
      && UserLevel(s, a) >= NamedLevel(s, InviteLevel, 0)
    case None => false
  }

  predicate AtLeast(e: Event, s: State, name: LevelName, default: int)
    requires HasLevel(s, e.sender)
  {
    UserLevel(s, e.sender) >= NamedLevel(s, name, default)
  }

  /** The target stands in the room, is asked in, is out, asks in, or is shut out. */
  datatype Standing = Inside | AskedIn | Asking | Outside | ShutOut

  function StandingOf(s: State, user: string): Standing {
    match MembershipIn(s, user)
    case Some(Join) => Inside
    case Some(Invite) => AskedIn
    case Some(Knock) => Asking
    case Some(Ban) => ShutOut
    case _ => Outside
  }

  /** The table. A row for the target's own events, and one for events by others. */
  predicate Permitted(e: Event, to: Membership, target: string, s: State)
    requires HasLevel(s, e.sender) && HasLevel(s, target)
  {
    var from := StandingOf(s, target);
    if e.sender == target then
      match to
      case Join => from in {Inside, AskedIn, Asking, Outside} && OpenTo(e, from, s)
      case Leave => from in {Inside, AskedIn} || (from.Asking? && e.version.knock)
      case Knock => from in {Asking, Outside} && TakesKnocks(e.version, JoinRuleIn(s))
      case Invite => !from.ShutOut? && AnswersOffer(e, target, s)
      case _ => false
    else
      match to
      case Invite =>
        if e.content.thirdParty.Some? then !from.ShutOut? && AnswersOffer(e, target, s)
        else StandingOf(s, e.sender).Inside? && from in {AskedIn, Asking, Outside} && AtLeast(e, s, InviteLevel, 0)
      case Leave =>
        && StandingOf(s, e.sender).Inside?
        && AtLeast(e, s, KickLevel, 50) && (from.ShutOut? ==> AtLeast(e, s, BanLevel, 50))
        && UserLevel(s, e.sender) > UserLevel(s, target)
      case Ban =>
        StandingOf(s, e.sender).Inside? && AtLeast(e, s, BanLevel, 50) && UserLevel(s, e.sender) > UserLevel(s, target)
      case _ => false
  }

  /** Who may join, by their standing. */
  predicate OpenTo(e: Event, from: Standing, s: State) {
    match JoinRuleIn(s)
    case PublicRule => true
    case InviteRule => from in {Inside, AskedIn}
    case KnockRule => from in {Inside, AskedIn} && e.version.knock
    case RestrictedRule => e.version.restricted && (from in {Inside, AskedIn} || IsVouchedFor(e, s))
    case KnockRestrictedRule => e.version.knockRestricted && (from in {Inside, AskedIn} || IsVouchedFor(e, s))
    case OtherRule(_) => false
  }

  predicate TakesKnocks(v: RoomVersion, rule: JoinRule) {
    (v.knock && rule.KnockRule?) || (v.knock && v.knockRestricted && rule.KnockRestrictedRule?)
  }

  lemma OfferIsVerified(e: Event, target: string, s: State)
    ensures AnswersOffer(e, target, s) <==> e.content.thirdParty.Some? && ThirdPartyVerified(e, target, s)
  {
    match e.content.thirdParty
    case Some(WithSigned(Signed(Some(mxid), Some(token), Some(signatures)))) =>
      if (ThirdPartyInvite, token) in s {
        KeysInCommon(signatures, s[(ThirdPartyInvite, token)].content.publicKeys);
      }
    case _ =>
  }

  lemma KeysInCommon(signatures: set<string>, keys: set<string>)
    ensures (exists key <- signatures :: key in keys) <==> keys * signatures != {}
  {
    if key :| key in signatures && key in keys {
      assert key in keys * signatures;
    } else {
      assert keys * signatures == {};
    }
  }

  lemma VouchedIsAuthorised(e: Event, s: State)
    ensures IsVouchedFor(e, s) <==> AuthorisedJoin(e, s)
  {
    hide HasLevel, UserLevel, NamedLevel;
  }

  lemma EvaluableExactly(e: Event, target: string, s: State)
    requires CREATE_KEY in s
    ensures Evaluable(e, target, s)
       <==> && MayFederate(s, target) && Readable(s, e.sender) && Readable(s, target)
            && HasLevel(s, e.sender) && HasLevel(s, target)
  {
    hide HasLevel;
    assert e.sender in {e.sender, target} && target in {e.sender, target};
  }

  /** The sequence of checks accepts exactly what the table permits. */
  lemma ChecksFollowTable(e: Event, to: Membership, target: string, s: State)
    requires CREATE_KEY in s
    ensures ChangeAllowed(e, to, target, s) <==> Evaluable(e, target, s) && Permitted(e, to, target, s)
  {
    OfferIsVerified(e, target, s);
    VouchedIsAuthorised(e, s);
    EvaluableExactly(e, target, s);
    hide Evaluable, MayFederate, Readable, HasLevel, UserLevel;
    hide ThirdPartyVerified, AnswersOffer, AuthorisedJoin, IsVouchedFor;
    match to
    case Join =>
    case Leave =>
    case Knock =>
    case Invite =>
    case Ban =>
    case OtherMembership(_) =>
  }

  /** A member event is accepted exactly when it is the join, right after the create event, of the creator
      whom that event names to the new event's version, or the table permits the change. Looking up a
      creator who is not named raises. */
  lemma MembersFollowTable(e: Event, s: State)
    requires CREATE_KEY in s
    ensures MembershipAllowed(e, s)
       <==> && e.stateKey.Some? && e.content.membership.Some?
            && var create, to, target := s[CREATE_KEY], e.content.membership.value, e.stateKey.value;
               var permitted := Evaluable(e, target, s) && Permitted(e, to, target, s);
               if to.Join? && e.prev == [create.id] then
                 if e.version.implicitCreator then target == create.sender || permitted
                 else create.content.creator.Some? && (target == create.content.creator.value || permitted)
               else permitted
  {
    hide ChangeAllowed, Evaluable, Permitted;
    if e.stateKey.Some? && e.content.membership.Some? {
      ChecksFollowTable(e, e.content.membership.value, e.stateKey.value, s);
    }
  }
}
