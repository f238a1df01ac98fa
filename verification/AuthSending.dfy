/** What events other than members ask of their sender, type by type. The rules are written as a sequence
    of checks through shared helpers; here every row says by itself what must hold of the room's state. */
module AuthSending {
  import opened Options
  import opened Ids
  import opened RoomVersions
  import opened AuthEvents
  import opened AuthRules
  import opened PowerChanges

  /** The room lets the sender's server take part. */
  predicate TakesPart(s: State, user: string)
    requires CREATE_KEY in s
  {
    && Domain(user).Some? && Domain(s[CREATE_KEY].sender).Some?
    && (s[CREATE_KEY].content.federate || Domain(user) == Domain(s[CREATE_KEY].sender))
  }

  /** What the events of each type ask. */
  ghost predicate Row(e: Event, s: State)
    requires CREATE_KEY in s
  {
    match e.etype
    case Create => true
    case Member => MembershipAllowed(e, s)
    case Aliases =>
      if e.version.specialCaseAliases then Domain(e.sender).Some? && e.stateKey == Domain(e.sender) != Some("")
      else MaySend(e, s)
    case ThirdPartyInvite => IsInside(s, e.sender) && MayDo(s, e.sender, InviteLevel, 0)
    case PowerLevels => MaySend(e, s) && MaySetLevels(e, s)
    case Redaction => MaySend(e, s) && (MayDo(s, e.sender, RedactLevel, 50) || MayBeOwn(e))
    case _ => MaySend(e, s)
  }

  predicate IsInside(s: State, user: string) {
    (Member, user) in s && s[(Member, user)].content.membership == Some(Join)
  }

  predicate MayDo(s: State, user: string, name: LevelName, default: int) {
    HasLevel(s, user) && UserLevel(s, user) >= NamedLevel(s, name, default)
  }

  /** The sender is joined, high enough for the type, and the owner of the state key. */
  ghost predicate MaySend(e: Event, s: State) {
    && IsInside(s, e.sender) && HasLevel(s, e.sender)
    && (UserLevel(s, e.sender) >= SendLevel(s, e.etype, e.stateKey.Some?) || IsOpenComment(e, s))
    && (e.stateKey.Some? ==> MayUseKey(e.sender, e.stateKey.value, e.version, s))
  }

  /** A message or sticker outside threads, in a room whose topic marks it as a channel, by a sender at
      the users' default level. */
  ghost predicate IsOpenComment(e: Event, s: State)
    requires HasLevel(s, e.sender)
  {
    && e.etype in {Message, Sticker} && !e.content.threaded
    && TOPIC_KEY in s && MarksChannel(s[TOPIC_KEY].content.topic)
    && UserLevel(s, e.sender) >= NamedLevel(s, UsersDefault, 0)
  }

  /** After white space, the topic starts with the marker in any mix of cases. */
  ghost predicate MarksChannel(topic: string) {
    exists n: nat :: MarkedFrom(topic, n)
  }

  predicate MarkedFrom(topic: string, n: nat) {
    && n + |CHANNEL_PREFIX| <= |topic|
    && (forall i | 0 <= i < n :: IsSpace(topic[i]))
    && forall i | 0 <= i < |CHANNEL_PREFIX| :: var c := CHANNEL_PREFIX[i];
         topic[n + i] == c || ('a' <= c <= 'z' && topic[n + i] as int == c as int - 32)
  }

  /** Keys that are not user IDs, and the user's own, are free. Others belong to the user whose ID they
      are, or extend by an underscore, and take a version with owned state and a sender who is that
      user or above them. */
  ghost predicate MayUseKey(sender: string, key: string, v: RoomVersion, s: State)
    requires HasLevel(s, sender)
  {
    || key == "" || key[0] != '@' || key == sender
    || (&& v.ownedState
        && exists owner: string | Owns(owner, key) ::
             owner == sender || (HasLevel(s, owner) && UserLevel(s, sender) > UserLevel(s, owner)))
  }

  ghost predicate Owns(owner: string, key: string) {
    IsUserId(owner) && (key == owner || exists rest: string :: key == owner + "_" + rest)
  }

  /** Whether the redacted event is the sender's is left to a later check, or to the server names in
      IDs that have them. */
  predicate MayBeOwn(e: Event) {
    || !e.version.format.V1V2?
    || (Domain(e.id).Some? && (e.content.redacts.None? || Domain(e.content.redacts.value) == Domain(e.id)))
  }

  /** The users are user IDs and no creators; and if there are levels under the event's key, they change
      only as far as the sender's level goes. */
  ghost predicate MaySetLevels(e: Event, s: State)
    requires CREATE_KEY in s
  {
    && e.stateKey.Some?
    && (forall u <- e.content.power.users :: LooksLikeUser(u))
    && (e.version.creatorPower ==> forall u <- e.content.power.users :: !NamesAsCreator(s[CREATE_KEY], u))
    && ((PowerLevels, e.stateKey.value) in s ==>
          && HasLevel(s, e.sender)
          && var level, was := UserLevel(s, e.sender), s[(PowerLevels, e.stateKey.value)].content.power;
             var is_ := e.content.power;
             && DiffersUpTo(level, was.named, is_.named) && DiffersUpTo(level, was.events, is_.events)
             && DiffersUpTo(level, was.users, is_.users) && TakesFromBelow(level, was.users, is_.users, e.sender)
             && (e.version.limitNotifications ==> DiffersUpTo(level, was.notifications, is_.notifications)))
  }

  predicate LooksLikeUser(u: string) {
    u != "" && u[0] == '@' && ':' in u
  }

  predicate NamesAsCreator(create: Event, u: string) {
    u == create.sender || (create.content.additionalCreators.Some? && u in create.content.additionalCreators.value)
  }

  // ---- The rows are the rules ----

  lemma StripsSpaces(topic: string, n: nat)
    requires n <= |topic| && forall i | 0 <= i < n :: IsSpace(topic[i])
    requires n < |topic| ==> !IsSpace(topic[n])
    ensures StripLeft(topic) == topic[n..]
  {
    if n > 0 {
      StripsSpaces(topic[1..], n - 1);
    }
  }

  lemma {:induction false} LeadingSpaces(topic: string) returns (n: nat)
    ensures n <= |topic| && forall i | 0 <= i < n :: IsSpace(topic[i])
    ensures n < |topic| ==> !IsSpace(topic[n])
  {
    n := 0;
    if topic != "" && IsSpace(topic[0]) {
      var m := LeadingSpaces(topic[1..]);
      n := m + 1;
    }
  }

  lemma MarkerMatches(topic: string, n: nat)
    requires n <= |topic| && forall i | 0 <= i < n :: IsSpace(topic[i])
    ensures MarkedFrom(topic, n) <==> StartsWithIgnoringCase(topic[n..], CHANNEL_PREFIX)
  {
    assert forall i | 0 <= i < |CHANNEL_PREFIX| ::
      'a' <= CHANNEL_PREFIX[i] <= 'z' || CHANNEL_PREFIX[i] == ':';
    if n + |CHANNEL_PREFIX| <= |topic| {
      assert forall i | 0 <= i < |CHANNEL_PREFIX| :: topic[n..][i] == topic[n + i];
    }
  }

  lemma MarkerIsNoSpace(topic: string, n: nat)
    requires MarkedFrom(topic, n)
    ensures n < |topic| && !IsSpace(topic[n])
  {
    assert CHANNEL_PREFIX[0] == 's';
    assert topic[n + 0] == topic[n];
  }

  lemma ChannelsAreMarked(topic: string)
    ensures IsChannelTopic(topic) <==> MarksChannel(topic)
  {
    var n := LeadingSpaces(topic);
    StripsSpaces(topic, n);
    MarkerMatches(topic, n);
    hide StartsWithIgnoringCase;
    if m: nat :| MarkedFrom(topic, m) {
      MarkerIsNoSpace(topic, m);
      assert m == n;
    }
  }

  lemma HostHasNoUnderscore(host: string)
    requires IsHost(host)
    ensures forall i | 0 <= i < |host| :: host[i] != '_'
  {
    assert forall i | 0 <= i < |host| :: host[i] in host;
  }

  lemma NoUnderscore(name: string)
    requires IsServerName(name)
    ensures forall i | 0 <= i < |name| :: name[i] != '_'
  {
    var colon := Find(name, ':', 0);
    var host := if colon < 0 then name else name[..colon];
    HostHasNoUnderscore(host);
    hide IsHost;
    forall i | 0 <= i < |name| ensures name[i] != '_' {
      assert i < |host| ==> name[i] == host[i];
    }
  }

  /** The first occurrence is where it is. */
  lemma FindsAt(s: string, c: char, from: nat, i: nat)
    requires from <= i < |s| && s[i] == c && forall j | from <= j < i :: s[j] != c
    ensures Find(s, c, from) == i
  {
  }

  /** The owner of a key is found by cutting it at the first underscore after the colon. */
  lemma {:induction false} OwnerIsCut(owner: string, key: string)
    requires Owns(owner, key)
    ensures Find(key, ':', 1) >= 0 && StateKeyOwner(key) == owner
  {
    var colon := Find(owner, ':', 1);
    var server := owner[colon + 1..];
    NoUnderscore(server);
    hide IsUserId, IsServerName;
    assert forall i | colon + 1 <= i < |owner| :: owner[i] == server[i - colon - 1];
    assert |owner| <= |key| && key[..|owner|] == owner;
    assert forall i | 0 <= i < |owner| :: key[i] == owner[i];
    FindsAt(key, ':', 1, colon);
    if key != owner {
      assert key[|owner|] == '_';
      FindsAt(key, '_', colon + 1, |owner|);
    }
  }

  lemma CutIsOwner(key: string)
    requires Find(key, ':', 1) >= 0 && IsUserId(StateKeyOwner(key))
    ensures Owns(StateKeyOwner(key), key)
  {
    hide IsUserId;
    var end := Find(key, '_', Find(key, ':', 1) + 1);
    if end >= 0 {
      assert key == StateKeyOwner(key) + "_" + key[end + 1..];
    }
  }

  lemma KeysFollow(e: Event, s: State)
    requires HasLevel(s, e.sender)
    ensures StateKeyAllowed(e, s) <==> (e.stateKey.Some? ==> MayUseKey(e.sender, e.stateKey.value, e.version, s))
  {
    hide UserLevel, HasLevel, IsUserId;
    if e.stateKey.Some? {
      var key := e.stateKey.value;
      forall owner: string | Owns(owner, key)
        ensures Find(key, ':', 1) >= 0 && StateKeyOwner(key) == owner
      {
        OwnerIsCut(owner, key);
      }
      if Find(key, ':', 1) >= 0 && IsUserId(StateKeyOwner(key)) {
        CutIsOwner(key);
      }
    }
  }

  lemma SendingFollows(e: Event, s: State)
    ensures MaySend(e, s) <==> Joined(s, e.sender) && SendAllowed(e, s)
  {
    if HasLevel(s, e.sender) {
      KeysFollow(e, s);
      if TOPIC_KEY in s {
        ChannelsAreMarked(s[TOPIC_KEY].content.topic);
      }
    }
    hide UserLevel, HasLevel, MayUseKey, StateKeyAllowed, IsChannelTopic, MarksChannel, SendLevel;
  }

  lemma LooksParse(u: string)
    ensures LooksLikeUser(u) <==> ParsesAsUserId(u)
  {
    if LooksLikeUser(u) {
      var i :| 0 <= i < |u| && u[i] == ':';
    }
  }

  lemma LevelsFollow(e: Event, s: State)
    requires CREATE_KEY in s
    ensures MaySetLevels(e, s) <==> PowerLevelsAllowed(e, s)
  {
    forall u: string ensures LooksLikeUser(u) <==> ParsesAsUserId(u) {
      LooksParse(u);
    }
    UsersFollow(e, s);
    hide LooksLikeUser, ParsesAsUserId, NamesAsCreator, UserLevel, HasLevel, UsersNamed, DiffersUpTo, TakesFromBelow;
    if e.stateKey.Some? && (PowerLevels, e.stateKey.value) in s && HasLevel(s, e.sender) {
      ChangesExactly(s[(PowerLevels, e.stateKey.value)].content.power, e.content.power, e.sender,
                     UserLevel(s, e.sender), e.version.limitNotifications);
    }
  }

  lemma UsersFollow(e: Event, s: State)
    requires CREATE_KEY in s
    ensures UsersNamed(e, s)
       <==> && (forall u <- e.content.power.users :: ParsesAsUserId(u))
            && (e.version.creatorPower ==> forall u <- e.content.power.users :: !NamesAsCreator(s[CREATE_KEY], u))
  {
    hide ParsesAsUserId;
    if e.version.creatorPower && forall u <- e.content.power.users :: !NamesAsCreator(s[CREATE_KEY], u) {
      assert NamesAsCreator(s[CREATE_KEY], s[CREATE_KEY].sender);
      forall c <- s[CREATE_KEY].content.additionalCreators.GetOr([]) ensures c !in e.content.power.users {
        assert NamesAsCreator(s[CREATE_KEY], c);
      }
    }
  }

  /** The rules accept an event exactly when the room has a create event, lets the sender take part, and
      the event's row holds; create events pass without looking at the state. */
  lemma RulesFollowRows(e: Event, s: State)
    ensures Allowed(e, s) <==> e.etype.Create? || (CREATE_KEY in s && TakesPart(s, e.sender) && Row(e, s))
  {
    SendingFollows(e, s);
    if CREATE_KEY in s {
      LevelsFollow(e, s);
    }
    hide MaySend, SendAllowed, MaySetLevels, PowerLevelsAllowed, UserLevel, HasLevel, MembershipAllowed;
  }
}
