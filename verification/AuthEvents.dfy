/** Events, room state and the power levels that state gives to users and actions. */
module AuthEvents {
  import opened Options
  import opened Ids
  import opened RoomVersions

  datatype EventType =
    | Create | Member | PowerLevels | JoinRules | ThirdPartyInvite | Aliases | Redaction
    | Topic | Message | Sticker | OtherType(name: string)

  datatype Membership = Invite | Join | Knock | Leave | Ban | OtherMembership(name: string)

  datatype JoinRule =
    | PublicRule | KnockRule | InviteRule | RestrictedRule | KnockRestrictedRule | OtherRule(name: string)

  /** The scalar levels of a power-levels event. */
  datatype LevelName =
    | UsersDefault | EventsDefault | StateDefault | BanLevel | RedactLevel | KickLevel | InviteLevel

  datatype PowerContent = PowerContent(
    named: map<LevelName, int>,
    users: map<string, int>,
    events: map<EventType, int>,
    notifications: map<string, int>
  )

  const NO_POWER := PowerContent(map[], map[], map[], map[])

  /** The signed bundle of a third-party invite. `signatures` lists the public keys under which
      the bundle's signatures verify. */
  datatype Signed = Signed(mxid: Option<string>, token: Option<string>, signatures: Option<set<string>>)

  datatype ThirdParty = Malformed | WithSigned(signed: Signed)

  /** The content fields that some rule reads, each with "absent" where JSON allows it. */
  datatype Content = Content(
    membership: Option<Membership>,
    thirdParty: Option<ThirdParty>,
    authoriser: Option<string>,
    joinRule: Option<JoinRule>,
    power: PowerContent,
    creator: Option<string>,
    additionalCreators: Option<seq<string>>,
    federate: bool,
    roomVersion: Option<string>,
    publicKeys: set<string>,
    topic: string,
    threaded: bool,
    redacts: Option<string>
  )

  /** No field at all; a room federates unless it says otherwise. */
  const BLANK := Content(None, None, None, None, NO_POWER, None, None, true, None, {}, "", false, None)

  datatype Event = Event(
    id: string,
    roomId: string,
    hasRoomId: bool,
    etype: EventType,
    stateKey: Option<string>,
    sender: string,
    version: RoomVersion,
    prev: seq<string>,
    auth: seq<string>,
    rejected: bool,
    content: Content
  )

  type Key = (EventType, string)
  type State = map<Key, Event>

  const CREATE_KEY: Key := (Create, "")
  const POWER_KEY: Key := (PowerLevels, "")
  const JOIN_RULES_KEY: Key := (JoinRules, "")
  const TOPIC_KEY: Key := (Topic, "")

  const CANONICALJSON_MAX_INT := 0x1F_FFFF_FFFF_FFFF
  const CREATOR_POWER_LEVEL := 0x20_0000_0000_0000

  /** State is keyed by each event's own type and state key. */
  ghost predicate Keyed(s: State) {
    forall k <- s :: s[k].etype == k.0 && s[k].stateKey == Some(k.1)
  }

  /** The membership a member event records for `user`, if the state has one. */
  function MembershipIn(s: State, user: string): Option<Membership> {
    if (Member, user) in s then s[(Member, user)].content.membership else None
  }

  /** Reading `membership` of a member event that lacks it raises. */
  predicate Readable(s: State, user: string) {
    (Member, user) in s ==> s[(Member, user)].content.membership.Some?
  }

  predicate Joined(s: State, user: string) {
    MembershipIn(s, user) == Some(Join)
  }

  predicate Banned(s: State, user: string) {
    MembershipIn(s, user) == Some(Ban)
  }

  function JoinRuleIn(s: State): JoinRule {
    if JOIN_RULES_KEY in s then s[JOIN_RULES_KEY].content.joinRule.GetOr(InviteRule) else InviteRule
  }

  predicate IsCreator(create: Event, user: string) {
    create.sender == user
    || (create.version.creatorPower && user in create.content.additionalCreators.GetOr([]))
  }

  /** The creator that a create event names to a room version: its sender, or a content field that
      may be missing. */
  function NamedCreator(v: RoomVersion, create: Event): Option<string> {
    if v.implicitCreator then Some(create.sender) else create.content.creator
  }

  function RoomCreator(create: Event): Option<string> {
    NamedCreator(create.version, create)
  }

  /** Computing a user's level does not raise. */
  predicate HasLevel(s: State, user: string) {
    && CREATE_KEY in s
    && var create := s[CREATE_KEY];
      (create.version.creatorPower && IsCreator(create, user)) || POWER_KEY in s || RoomCreator(create).Some?
  }

  function UserLevel(s: State, user: string): int
    requires HasLevel(s, user)
  {
    var create := s[CREATE_KEY];
    if create.version.creatorPower && IsCreator(create, user) then CREATOR_POWER_LEVEL
    else if POWER_KEY in s then ContentLevel(s[POWER_KEY].content.power, user)
    else if RoomCreator(create) == Some(user) then 100
    else 0
  }

  /** The level a power-levels event gives to a user. */
  function ContentLevel(p: PowerContent, user: string): int {
    if user in p.users then p.users[user]
    else Get(p.named, UsersDefault).GetOr(0)
  }

  function PowerIn(s: State): PowerContent {
    if POWER_KEY in s then s[POWER_KEY].content.power else NO_POWER
  }

  function NamedLevel(s: State, name: LevelName, default: int): int {
    Get(PowerIn(s).named, name).GetOr(default)
  }

  /** The level needed to send an event of a type. */
  function SendLevel(s: State, etype: EventType, isState: bool): int {
    var p := PowerIn(s);
    if etype in p.events then p.events[etype]
    else if isState then Get(p.named, StateDefault).GetOr(50)
    else Get(p.named, EventsDefault).GetOr(0)
  }
}
