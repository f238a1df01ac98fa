/** The rules that loop: the check of a power-levels event, which collects the levels to compare and
    walks them, and the check of an event's auth list. */
module AuthChecks {
  import opened Options
  import opened Ids
  import opened RoomVersions
  import opened AuthEvents
  import opened AuthRules
  import opened AuthSelection

  // ---- Power levels ----

  /** One entry of the list of levels to check: a scalar, or an entry of one of the maps. */
  datatype LevelRef = Scalar(name: LevelName) | User(id: string) | EventLevel(etype: EventType)
      | Notification(id: string)

  function LevelAt(p: PowerContent, ref: LevelRef): Option<int> {
    match ref
    case Scalar(name) => Get(p.named, name)
    case User(id) => Get(p.users, id)
    case EventLevel(etype) => Get(p.events, etype)
    case Notification(id) => Get(p.notifications, id)
  }

  const SCALARS: seq<LevelRef> := [
    Scalar(UsersDefault), Scalar(EventsDefault), Scalar(StateDefault),
    Scalar(BanLevel), Scalar(RedactLevel), Scalar(KickLevel), Scalar(InviteLevel)
  ]

  ghost predicate RefOk(old_: PowerContent, new_: PowerContent, sender: string, level: int, ref: LevelRef) {
    ChangeOk(LevelAt(old_, ref), LevelAt(new_, ref), level, ref.User? && ref.id != sender)
  }

  /** The references to compare: every scalar, and every key that either event lists. */
  ghost predicate IsChecked(old_: PowerContent, new_: PowerContent, notifications: bool, ref: LevelRef) {
    match ref
    case Scalar(_) => true
    case User(id) => id in old_.users.Keys + new_.users.Keys
    case EventLevel(etype) => etype in old_.events.Keys + new_.events.Keys
    case Notification(id) => notifications && id in old_.notifications.Keys + new_.notifications.Keys
  }

  lemma RefsCoverLevels(old_: PowerContent, new_: PowerContent, sender: string, level: int, notifications: bool)
    ensures LevelChangesAllowed(old_, new_, sender, level, notifications)
       <==> forall ref: LevelRef :: IsChecked(old_, new_, notifications, ref) ==> RefOk(old_, new_, sender, level, ref)
  {
    if forall ref: LevelRef :: IsChecked(old_, new_, notifications, ref) ==> RefOk(old_, new_, sender, level, ref) {
      forall n: LevelName ensures ChangeOk(Get(old_.named, n), Get(new_.named, n), level, false) {
        assert RefOk(old_, new_, sender, level, Scalar(n));
      }
      forall u <- old_.users.Keys + new_.users.Keys
        ensures ChangeOk(Get(old_.users, u), Get(new_.users, u), level, u != sender)
      {
        assert RefOk(old_, new_, sender, level, User(u));
      }
      forall t <- old_.events.Keys + new_.events.Keys
        ensures ChangeOk(Get(old_.events, t), Get(new_.events, t), level, false)
      {
        assert RefOk(old_, new_, sender, level, EventLevel(t));
      }
      if notifications {
        forall t <- old_.notifications.Keys + new_.notifications.Keys
          ensures ChangeOk(Get(old_.notifications, t), Get(new_.notifications, t), level, false)
        {
          assert RefOk(old_, new_, sender, level, Notification(t));
        }
      }
    }
  }

  /** Append a reference for each key, in whatever order the set yields them. */
  method AppendRefs<K(==)>(refs: seq<LevelRef>, keys: set<K>, make: K -> LevelRef) returns (out: seq<LevelRef>)
    ensures forall ref :: ref in out <==> ref in refs || exists k <- keys :: make(k) == ref
  {
    out := refs;
    var left := keys;
    while left != {}
      invariant left <= keys
      invariant forall ref :: ref in out <==> ref in refs || exists k <- keys - left :: make(k) == ref
    {
      var k :| k in left;
      left := left - {k};
      out := out + [make(k)];
      assert keys - left == (keys - left - {k}) + {k};
    }
    assert keys - left == keys;
  }

  lemma ScalarIsListed(n: LevelName)
    ensures Scalar(n) in SCALARS
  {
    match n
    case UsersDefault => assert SCALARS[0] == Scalar(n);
    case EventsDefault => assert SCALARS[1] == Scalar(n);
    case StateDefault => assert SCALARS[2] == Scalar(n);
    case BanLevel => assert SCALARS[3] == Scalar(n);
    case RedactLevel => assert SCALARS[4] == Scalar(n);
    case KickLevel => assert SCALARS[5] == Scalar(n);
    case InviteLevel => assert SCALARS[6] == Scalar(n);
  }

  method LevelsToCheck(old_: PowerContent, new_: PowerContent, notifications: bool) returns (refs: seq<LevelRef>)
    ensures forall ref :: ref in refs <==> IsChecked(old_, new_, notifications, ref)
  {
    refs := SCALARS;
    forall n: LevelName ensures Scalar(n) in SCALARS {
      ScalarIsListed(n);
    }
    refs := AppendRefs(refs, old_.users.Keys + new_.users.Keys, (id: string) => User(id));
    refs := AppendRefs(refs, old_.events.Keys + new_.events.Keys, (t: EventType) => EventLevel(t));
    if notifications {
      refs := AppendRefs(refs, old_.notifications.Keys + new_.notifications.Keys, (id: string) => Notification(id));
    }
  }

  /** The check of a power-levels event: collect the levels, compare each, stop at the first that
      may not change. */
  method CheckPowerLevels(e: Event, s: State) returns (ok: bool)
    ensures ok <==> PowerLevelsAllowed(e, s)
  {
    if !UsersNamed(e, s) || e.stateKey.None? {
      return false;
    }
    var key := (PowerLevels, e.stateKey.value);
    if key !in s {
      return true;
    }
    if !HasLevel(s, e.sender) {
      return false;
    }
    var level := UserLevel(s, e.sender);
    var old_, new_ := s[key].content.power, e.content.power;
    var refs := LevelsToCheck(old_, new_, e.version.limitNotifications);
    RefsCoverLevels(old_, new_, e.sender, level, e.version.limitNotifications);
    for i := 0 to |refs|
      invariant forall j :: 0 <= j < i ==> RefOk(old_, new_, e.sender, level, refs[j])
    {
      var oldLevel, newLevel := LevelAt(old_, refs[i]), LevelAt(new_, refs[i]);
      if newLevel.Some? && oldLevel.Some? && newLevel == oldLevel {
        assert RefOk(old_, new_, e.sender, level, refs[i]);
      } else {
        if refs[i].User? && refs[i].id != e.sender && oldLevel == Some(level) {
          assert !RefOk(old_, new_, e.sender, level, refs[i]);
          return false;
        }
        if (oldLevel.Some? && oldLevel.value > level) || (newLevel.Some? && newLevel.value > level) {
          assert !RefOk(old_, new_, e.sender, level, refs[i]);
          return false;
        }
      }
    }
    ok := true;
  }

  // ---- Redactions ----

  /** The check of a redaction: whether it passes, and if so whether the target's sender still has to
      be compared once the target is known. `recheck` is what newer versions note on the event. */
  method CheckRedaction(e: Event, s: State) returns (onOwnOnly: Option<bool>, recheck: bool)
    ensures onOwnOnly.Some? <==> RedactionAllowed(e, s)
    ensures onOwnOnly == Some(false) <==>
      && RedactionAllowed(e, s)
      && (UserLevel(s, e.sender) >= NamedLevel(s, RedactLevel, 50) || (e.version.format.V1V2?
          && e.content.redacts.None?))
    ensures recheck <==> onOwnOnly == Some(true) && !e.version.format.V1V2?
  {
    recheck := false;
    if !HasLevel(s, e.sender) {
      return None, false;
    }
    if UserLevel(s, e.sender) >= NamedLevel(s, RedactLevel, 50) {
      return Some(false), false;
    }
    if e.version.format.V1V2? {
      var redacter := Domain(e.id);
      if redacter.None? {
        return None, false;
      }
      if e.content.redacts.None? {
        return Some(false), false;
      }
      var redactee := Domain(e.content.redacts.value);
      if redactee.Some? && redacter == redactee {
        return Some(true), false;
      }
      return None, false;
    }
    return Some(true), true;
  }

  // ---- The auth list ----

  /** The auth event with this ID is known and may stand in the list. */
  ghost predicate EntryOk(e: Event, lookup: map<string, Event>, id: string) {
    && id in lookup
    && lookup[id].roomId == e.roomId
    && lookup[id].stateKey.Some?
    && (lookup[id].etype, lookup[id].stateKey.value) in SelectedKeys(e)
    && !lookup[id].rejected
  }

  /** The state key pair of the event with this ID. */
  function KeyFor(lookup: map<string, Event>, id: string): Option<Key> {
    if id in lookup && lookup[id].stateKey.Some? then Some((lookup[id].etype, lookup[id].stateKey.value)) else None
  }

  ghost predicate DistinctKeys(auth: seq<string>, lookup: map<string, Event>) {
    forall i, j | 0 <= i < j < |auth| :: KeyFor(lookup, auth[i]) != KeyFor(lookup, auth[j])
  }

  /** What the list must satisfy, with no reference to the order in which it is walked. */
  ghost predicate AuthListOk(e: Event, lookup: map<string, Event>) {
    && Selection(e).Some?
    && (forall id <- e.auth :: EntryOk(e, lookup, id))
    && DistinctKeys(e.auth, lookup)
    && (exists id <- e.auth :: KeyFor(lookup, id) == Some(CREATE_KEY))
  }

  /** The state-independent check. Lookups go to the events of the same batch, and to the store for
      the IDs that are not among them. */
  method CheckStateIndependentRules(e: Event, batch: map<string, Event>, store: map<string, Event>) returns (ok: bool)
    ensures e.etype.Create? ==> (ok <==> CreateAllowed(e))
    ensures !e.etype.Create? ==> (ok <==> AuthListOk(e, store + batch))
  {
    if e.etype.Create? {
      return CreateAllowed(e);
    }
    var needed := set id | id in e.auth && id !in batch;
    var fetched := map id | id in needed && id in store :: store[id];
    var authEvents := batch + fetched;
    ok := CheckAuthList(e, authEvents);
    AuthListIgnoresSplit(e, authEvents, batch, store);
  }

  /** Spelled out: every listed event is known, in the room, accepted, and state of a selected kind; no two
      have the same type and key; and one is the create event. */
  lemma AuthListExactly(e: Event, lookup: map<string, Event>)
    ensures AuthListOk(e, lookup)
       <==> && Selection(e).Some?
            && (forall id <- e.auth :: id in lookup && var a := lookup[id];
                  && a.roomId == e.roomId && !a.rejected && a.stateKey.Some?
                  && (a.etype, a.stateKey.value) in SelectedKeys(e))
            && (forall i, j | 0 <= i < j < |e.auth| :: var a, b := lookup[e.auth[i]], lookup[e.auth[j]];
                  a.etype != b.etype || a.stateKey != b.stateKey)
            && exists id <- e.auth :: lookup[id].etype.Create? && lookup[id].stateKey == Some("")
  {
    hide Selection, SelectedKeys;
    if forall id <- e.auth :: EntryOk(e, lookup, id) {
      assert forall id <- e.auth :: KeyFor(lookup, id) == Some((lookup[id].etype, lookup[id].stateKey.value));
    }
  }

  lemma BadEntryRejects(e: Event, lookup: map<string, Event>, id: string)
    requires id in e.auth && !EntryOk(e, lookup, id)
    ensures !AuthListOk(e, lookup)
  {
  }

  lemma RepeatRejects(dict: map<Key, string>, e: Event, lookup: map<string, Event>, i: nat)
    requires i < |e.auth| && SeenBy(dict, e.auth, lookup, i)
    requires KeyFor(lookup, e.auth[i]).Some? && KeyFor(lookup, e.auth[i]).value in dict
    ensures !AuthListOk(e, lookup)
  {
    var j :| 0 <= j < i && e.auth[..i][j] == dict[KeyFor(lookup, e.auth[i]).value];
    assert KeyFor(lookup, e.auth[j]) == KeyFor(lookup, e.auth[i]);
  }

  /** After the whole walk only the create event is left to ask for. */
  lemma WalkDecides(dict: map<Key, string>, e: Event, lookup: map<string, Event>)
    requires Selection(e).Some? && SeenBy(dict, e.auth, lookup, |e.auth|) && DistinctKeys(e.auth, lookup)
    requires forall j | 0 <= j < |e.auth| :: EntryOk(e, lookup, e.auth[j])
    ensures AuthListOk(e, lookup) <==> CREATE_KEY in dict
  {
    hide Selection, EntryOk, KeyFor;
    assert e.auth[..|e.auth|] == e.auth;
    if CREATE_KEY in dict {
      assert KeyFor(lookup, dict[CREATE_KEY]) == Some(CREATE_KEY);
    }
  }

  /** The walk along the list; `authDict` collects the keys seen. */
  method CheckAuthList(e: Event, lookup: map<string, Event>) returns (ok: bool)
    ensures ok <==> AuthListOk(e, lookup)
  {
    hide Selection, SelectedKeys, SeenBy, DistinctKeys, AuthListOk;
    var authDict: map<Key, string> := map[];
    var expected := AuthTypesForEvent(e);
    if expected.None? {
      NoSelectionRejects(e, lookup);
      return false;
    }
    SelectionIsKeys(e);
    NothingSeen(e.auth, lookup);
    for i := 0 to |e.auth|
      invariant forall j | 0 <= j < i :: EntryOk(e, lookup, e.auth[j])
      invariant SeenBy(authDict, e.auth, lookup, i)
      invariant DistinctKeys(e.auth[..i], lookup)
    {
      var id := e.auth[i];
      if id !in lookup || lookup[id].roomId != e.roomId || lookup[id].stateKey.None? {
        BadEntryRejects(e, lookup, id);
        return false;
      }
      var a := lookup[id];
      var k := (a.etype, a.stateKey.value);
      assert KeyFor(lookup, id) == Some(k);
      if k in authDict {
        RepeatRejects(authDict, e, lookup, i);
        return false;
      }
      if k !in expected.value || a.rejected {
        BadEntryRejects(e, lookup, id);
        return false;
      }
      SeenExtends(authDict, e.auth, lookup, i, k);
      authDict := authDict[k := id];
    }
    assert e.auth[..|e.auth|] == e.auth;
    WalkDecides(authDict, e, lookup);
    ok := CREATE_KEY in authDict;
  }

  lemma NoSelectionRejects(e: Event, lookup: map<string, Event>)
    requires Selection(e).None?
    ensures !AuthListOk(e, lookup)
  {
  }

  lemma SelectionIsKeys(e: Event)
    requires Selection(e).Some?
    ensures Selection(e) == Some(SelectedKeys(e))
  {
  }

  lemma NothingSeen(auth: seq<string>, lookup: map<string, Event>)
    ensures SeenBy(map[], auth, lookup, 0) && DistinctKeys(auth[..0], lookup)
  {
  }

  /** `dict` maps each key among the first `i` entries to an entry that has it, and nothing else. */
  ghost predicate SeenBy(dict: map<Key, string>, auth: seq<string>, lookup: map<string, Event>, i: nat)
    requires i <= |auth|
  {
    && (forall j | 0 <= j < i :: KeyFor(lookup, auth[j]).Some? && KeyFor(lookup, auth[j]).value in dict)
    && (forall k <- dict :: dict[k] in auth[..i] && KeyFor(lookup, dict[k]) == Some(k))
  }

  lemma SeenExtends(dict: map<Key, string>, auth: seq<string>, lookup: map<string, Event>, i: nat, k: Key)
    requires i < |auth| && SeenBy(dict, auth, lookup, i) && DistinctKeys(auth[..i], lookup)
    requires KeyFor(lookup, auth[i]) == Some(k) && k !in dict
    ensures SeenBy(dict[k := auth[i]], auth, lookup, i + 1) && DistinctKeys(auth[..i + 1], lookup)
  {
    assert auth[..i + 1] == auth[..i] + [auth[i]];
    forall j | 0 <= j < i ensures KeyFor(lookup, auth[j]) != Some(k) {
    }
  }

  /** The verdict does not depend on the order of the list. */
  lemma AuthListIsOrderFree(e: Event, auth: seq<string>, lookup: map<string, Event>)
    requires multiset(auth) == multiset(e.auth)
    ensures AuthListOk(e, lookup) <==> AuthListOk(e.(auth := auth), lookup)
  {
    assert forall id :: id in auth <==> id in multiset(auth);
    assert forall id :: id in e.auth <==> id in multiset(e.auth);
    if DistinctKeys(e.auth, lookup) {
      PermutedKeysDistinct(e.auth, auth, lookup);
    }
    if DistinctKeys(auth, lookup) {
      PermutedKeysDistinct(auth, e.auth, lookup);
    }
  }

  lemma PermutedKeysDistinct(a: seq<string>, b: seq<string>, lookup: map<string, Event>)
    requires multiset(a) == multiset(b)
    requires DistinctKeys(a, lookup)
    ensures DistinctKeys(b, lookup)
  {
    forall i, j | 0 <= i < j < |b|
      ensures KeyFor(lookup, b[i]) != KeyFor(lookup, b[j])
    {
      assert b[i] in multiset(a) && b[j] in multiset(a);
      var k :| 0 <= k < |a| && a[k] == b[i];
      var l :| 0 <= l < |a| && a[l] == b[j];
      if k == l {
        RepeatCounts(b, i, j);
        CountAtMostOne(a, b[i], lookup);
      }
    }
  }

  lemma RepeatCounts(s: seq<string>, i: nat, j: nat)
    requires i < j < |s| && s[i] == s[j]
    ensures multiset(s)[s[i]] >= 2
  {
    assert s == s[..j] + [s[j]] + s[j + 1..];
    assert s[..j][i] in multiset(s[..j]);
  }

  lemma {:induction false} CountAtMostOne(s: seq<string>, x: string, lookup: map<string, Event>)
    requires DistinctKeys(s, lookup)
    ensures multiset(s)[x] <= 1
  {
    if s != [] {
      var n := |s| - 1;
      assert s == s[..n] + [s[n]];
      CountAtMostOne(s[..n], x, lookup);
      assert s[n] !in s[..n];
    }
  }

  /** The verdict does not depend on which lookups the batch answers. */
  lemma AuthListIgnoresSplit(e: Event, all: map<string, Event>, batch: map<string, Event>, store: map<string, Event>)
    requires forall id <- e.auth :: Get(store + batch, id) == Get(all, id)
    ensures AuthListOk(e, store + batch) <==> AuthListOk(e, all)
  {
    var lookup := store + batch;
    forall id <- e.auth
      ensures EntryOk(e, lookup, id) == EntryOk(e, all, id) && KeyFor(lookup, id) == KeyFor(all, id)
    {
      assert Get(lookup, id) == Get(all, id);
    }
  }

  /** The list has the ID of every entry of a state at some keys, once, and no other, in any order. */
  ghost predicate ListsEntries(auth: seq<string>, s: State, keys: set<Key>) {
    && (forall id <- auth :: exists k <- keys :: k in s && s[k].id == id)
    && (forall k <- keys | k in s :: s[k].id in auth)
    && (forall i, j | 0 <= i < j < |auth| :: auth[i] != auth[j])
  }

  /** The entries of a state at some keys can be looked up, belong to the room and were not rejected. */
  ghost predicate EntriesKnown(s: State, keys: set<Key>, roomId: string, lookup: map<string, Event>) {
    forall k <- keys | k in s ::
      s[k].id in lookup && lookup[s[k].id] == s[k] && s[k].roomId == roomId && !s[k].rejected
  }

  /** An event that lists what the selection takes from a state passes the check of its list, given a
      create event in the state. */
  lemma SelectedListPasses(e: Event, s: State, lookup: map<string, Event>)
    requires !e.etype.Create? && Selection(e).Some? && Keyed(s) && CREATE_KEY in s
    requires EntriesKnown(s, SelectedKeys(e), e.roomId, lookup)
    requires ListsEntries(e.auth, s, SelectedKeys(e))
    ensures AuthListOk(e, lookup)
  {
    CreateIsSelected(e);
    var keys := SelectedKeys(e);
    hide Selection, SelectedKeys;
    forall id <- e.auth
      ensures EntryOk(e, lookup, id) && exists k <- keys :: k in s && s[k].id == id && KeyFor(lookup, id) == Some(k)
    {
      var k :| k in keys && k in s && s[k].id == id;
      assert s[k].etype == k.0 && s[k].stateKey == Some(k.1);
    }
    forall i, j | 0 <= i < j < |e.auth| ensures KeyFor(lookup, e.auth[i]) != KeyFor(lookup, e.auth[j]) {
      assert e.auth[i] in e.auth && e.auth[j] in e.auth;
    }
    assert KeyFor(lookup, s[CREATE_KEY].id) == Some(CREATE_KEY);
  }

  lemma CreateIsSelected(e: Event)
    requires !e.etype.Create? && Selection(e).Some?
    ensures CREATE_KEY in SelectedKeys(e)
  {
  }

  /** No list of more than six entries passes. */
  lemma AuthListIsShort(e: Event, lookup: map<string, Event>)
    requires AuthListOk(e, lookup)
    ensures |e.auth| <= |SelectedKeys(e)| <= 6
  {
    var keys := KeysUpTo(e, lookup, |e.auth|);
    SubsetSize(keys, SelectedKeys(e));
    SelectionIsSmall(e);
  }

  ghost function KeysUpTo(e: Event, lookup: map<string, Event>, n: nat): (keys: set<Key>)
    requires n <= |e.auth| && AuthListOk(e, lookup)
    ensures |keys| == n && keys <= SelectedKeys(e)
    ensures forall k <- keys :: exists i | 0 <= i < n :: KeyFor(lookup, e.auth[i]) == Some(k)
  {
    if n == 0 then {}
    else
      assert EntryOk(e, lookup, e.auth[n - 1]);
      KeysUpTo(e, lookup, n - 1) + {KeyFor(lookup, e.auth[n - 1]).value}
  }

  lemma SubsetSize<T>(a: set<T>, b: set<T>)
    requires a <= b
    ensures |a| <= |b|
  {
    assert b == a + (b - a);
  }

  lemma SelectionIsSmall(e: Event)
    requires Selection(e).Some?
    ensures |SelectedKeys(e)| <= 6
  {
    if !e.etype.Create? && e.etype.Member? {
      var base: set<Key> := {POWER_KEY, (Member, e.sender), CREATE_KEY, (Member, e.stateKey.value)};
      var extra := if NeedsToken(e) then (ThirdPartyInvite, TokenOf(e).value)
                   else if NeedsAuthoriser(e) then (Member, e.content.authoriser.value) else CREATE_KEY;
      assert SelectedKeys(e) <= base + {JOIN_RULES_KEY} + {extra};
      hide Selection, SelectedKeys;
      SubsetSize(SelectedKeys(e), base + {JOIN_RULES_KEY} + {extra});
      UnionSize(base, {JOIN_RULES_KEY});
      UnionSize(base + {JOIN_RULES_KEY}, {extra});
    }
  }

  lemma UnionSize<T>(a: set<T>, b: set<T>)
    ensures |a + b| <= |a| + |b|
  {
    assert a + b == a + (b - a);
    SubsetSize(b - a, b);
  }
}
