/** The notifier: user streams, indexed by user and by room, and the listeners waiting on them. */
module Notifier {
  import opened Options
  import opened PendingEvents
  import Tokens = StreamTokens

  /** The positions of all streams together. Only equality matters here. */
  datatype StreamToken = StreamToken(room: Tokens.Token, others: seq<int>)

  const UNUSED_STREAM_EXPIRY_MS := 600_000

  /** A listener that wants to hear of anything after its token. It can be called back only once. */
  class Listener {
    const token: StreamToken
    var result: Option<StreamToken>

    constructor (token: StreamToken, result: Option<StreamToken>)
      ensures this.token == token && this.result == result
    {
      this.token := token;
      this.result := result;
    }

    method Callback(t: StreamToken)
      requires result.None?
      modifies this
      ensures result == Some(t)
    {
      result := Some(t);
    }
  }

  class UserStream {
    const userId: string
    var rooms: set<string>
    var currentToken: StreamToken
    var lastNotified: int
    var listeners: set<Listener>

    /** Whoever waits has seen everything up to the current token. */
    ghost predicate Valid()
      reads this, listeners
    {
      forall l <- listeners :: l.token == currentToken && l.result.None?
    }

    constructor (userId: string, rooms: set<string>, currentToken: StreamToken, now: int)
      ensures this.userId == userId && this.rooms == rooms && this.currentToken == currentToken
      ensures lastNotified == now && listeners == {}
    {
      this.userId, this.rooms, this.currentToken := userId, rooms, currentToken;
      lastNotified, listeners := now, {};
    }

    method UpdateAndFetch(token: StreamToken, now: int) returns (fetched: set<Listener>)
      modifies this`currentToken, this`lastNotified, this`listeners
      ensures fetched == old(listeners) && listeners == {}
      ensures currentToken == token && lastNotified == now
    {
      currentToken, lastNotified := token, now;
      fetched := listeners;
      listeners := {};
    }

    /** A listener that is called back at once if anything has happened since its token. */
    method NewListener(token: StreamToken) returns (l: Listener)
      requires Valid()
      modifies this`listeners
      ensures Valid() && fresh(l) && l.token == token
      ensures if token != currentToken then l.result == Some(currentToken) && listeners == old(listeners)
              else l.result.None? && listeners == old(listeners) + {l}
    {
      if token != currentToken {
        l := new Listener(token, Some(currentToken));
      } else {
        l := new Listener(token, None);
        listeners := listeners + {l};
      }
    }

    method Cancel(l: Listener)
      requires Valid()
      modifies this`listeners
      ensures Valid() && listeners == old(listeners) - {l}
    {
      listeners := listeners - {l};
    }
  }

  ghost function ListenersOf(streams: set<UserStream>): set<Listener>
    reads streams
  {
    set s, l | s in streams && l in s.listeners :: l
  }

  /** The room index: no room is without streams. */
  type RoomIndex = map<string, set<UserStream>>

  function StreamsIn(index: RoomIndex, room: string): set<UserStream> {
    if room in index then index[room] else {}
  }

  ghost predicate NoEmptyRooms(index: RoomIndex) {
    forall r <- index :: index[r] != {}
  }

  ghost function AllOf(waiting: map<string, set<Listener>>): set<Listener> {
    set u, l | u in waiting && l in waiting[u] :: l
  }

  /** Displacing a user's stream by one that nobody waits on loses exactly the listeners of the old one. */
  lemma DisplacementLoses(before: map<string, set<Listener>>, u: string)
    requires forall v <- before, x <- before :: v != x ==> before[v] !! before[x]
    ensures AllOf(before) <= AllOf(before[u := {}]) <==> (u in before ==> before[u] == {})
  {
    var after := before[u := {}];
    if u in before && before[u] != {} {
      var l :| l in before[u];
      assert l in AllOf(before);
      assert forall v <- after :: l !in after[v];
    } else {
      forall l | l in AllOf(before) ensures l in AllOf(after) {
        var v :| v in before && l in before[v];
        assert after[v] == before[v];
      }
    }
  }

  type Users = map<string, UserStream>

  /** Two-way agreement, given the rooms that each user's stream listens to: a stream is indexed
      under a room exactly when it is registered and listens to the room. */
  ghost predicate Agree(users: Users, rooms: map<string, set<string>>, index: RoomIndex) {
    && rooms.Keys == users.Keys
    && (forall u <- users :: users[u].userId == u)
    && NoEmptyRooms(index)
    && (forall r <- index, s <- index[r] :: s.userId in users && users[s.userId] == s && r in rooms[s.userId])
    && (forall u <- users, r <- rooms[u] :: users[u] in StreamsIn(index, r))
  }

  /** The streams that news for some users and rooms is for. */
  ghost function Targets(streams: Users, index: RoomIndex, users: set<string>, rooms: set<string>): set<UserStream> {
    (set u | u in users && u in streams :: streams[u]) + (set r, s | r in rooms && s in StreamsIn(index, r) :: s)
  }

  /** Those are the streams of users who are named, or who listen to a room that is named. */
  ghost predicate Concerns(u: string, listens: set<string>, users: set<string>, rooms: set<string>) {
    u in users || exists r <- listens :: r in rooms
  }

  lemma NamedOrListening(u: string, listens: set<string>, users: set<string>, rooms: set<string>)
    ensures Concerns(u, listens, users, rooms) <==> u in users || listens * rooms != {}
  {
    if r :| r in listens && r in rooms {
      assert r in listens * rooms;
    }
    if listens * rooms != {} {
      var r :| r in listens * rooms;
    }
  }

  lemma TargetsAreConcerned(streams: Users, listens: map<string, set<string>>, index: RoomIndex, users: set<string>,
      rooms: set<string>)
    requires Agree(streams, listens, index)
    ensures Targets(streams, index, users, rooms) <= streams.Values
    ensures forall u <- streams ::
      streams[u] in Targets(streams, index, users, rooms) <==> Concerns(u, listens[u], users, rooms)
  {
    forall s | s in Targets(streams, index, users, rooms)
      ensures s.userId in streams && streams[s.userId] == s && Concerns(s.userId, listens[s.userId], users, rooms)
    {
      if s.userId !in users || s.userId !in streams || streams[s.userId] != s {
        var r :| r in rooms && s in StreamsIn(index, r);
        assert r in index && s in index[r];
      }
    }
    forall u | u in streams && Concerns(u, listens[u], users, rooms)
      ensures streams[u] in Targets(streams, index, users, rooms)
    {
      if u !in users {
        var r :| r in listens[u] && r in rooms;
        assert streams[u] in StreamsIn(index, r);
      }
    }
  }

  lemma Basics(users: Users, rooms: map<string, set<string>>, index: RoomIndex)
    requires Agree(users, rooms, index)
    ensures NoEmptyRooms(index) && rooms.Keys == users.Keys && forall u <- users :: users[u].userId == u
  {
  }

  /** The index gains (or loses) one stream under some rooms. */
  ghost predicate Gains(before: RoomIndex, after: RoomIndex, s: UserStream, rooms: set<string>) {
    NoEmptyRooms(after) && forall r :: StreamsIn(after, r) == StreamsIn(before, r) + if r in rooms then {s} else {}
  }

  ghost predicate Loses(before: RoomIndex, after: RoomIndex, s: UserStream, rooms: set<string>) {
    NoEmptyRooms(after) && forall r :: StreamsIn(after, r) == StreamsIn(before, r) - if r in rooms then {s} else {}
  }

  /** Registering a new stream keeps the agreement exactly when that displaces no stream that
      listens to a room. */
  lemma RegistrationAgrees(users: Users, rooms: map<string, set<string>>, before: RoomIndex, after: RoomIndex,
      s: UserStream, added: set<string>)
    requires Agree(users, rooms, before) && Gains(before, after, s, added)
    requires s !in users.Values
    ensures Agree(users[s.userId := s], rooms[s.userId := added], after)
       <==> (s.userId in users ==> rooms[s.userId] == {})
  {
    var u := s.userId;
    if u in users && rooms[u] != {} {
      var r :| r in rooms[u];
      assert users[u] in StreamsIn(before, r) && users[u] in StreamsIn(after, r);
      assert r in after && users[u] in after[r];
    } else {
      forall r, t | r in after && t in after[r]
        ensures t.userId in users[u := s] && users[u := s][t.userId] == t && r in rooms[u := added][t.userId]
      {
        assert t in StreamsIn(after, r);
        assert t in StreamsIn(before, r) || t == s;
      }
    }
  }

  lemma JoinAgrees(users: Users, rooms: map<string, set<string>>, before: RoomIndex, after: RoomIndex, u: string,
      room: string)
    requires Agree(users, rooms, before) && u in users && Gains(before, after, users[u], {room})
    ensures Agree(users, rooms[u := rooms[u] + {room}], after)
  {
    forall r, t | r in after && t in after[r]
      ensures t.userId in users && users[t.userId] == t && r in rooms[u := rooms[u] + {room}][t.userId]
    {
      assert t in StreamsIn(after, r);
      assert t in StreamsIn(before, r) || t == users[u];
    }
  }

  lemma RemovalAgrees(users: Users, rooms: map<string, set<string>>, before: RoomIndex, after: RoomIndex, s: UserStream)
    requires Agree(users, rooms, before) && s.userId in users && users[s.userId] == s
    requires Loses(before, after, s, rooms[s.userId])
    ensures Agree(users - {s.userId}, rooms - {s.userId}, after)
  {
    forall r, t | r in after && t in after[r]
      ensures t.userId in users && t != s && users[t.userId] == t && r in rooms[t.userId]
    {
      assert t in StreamsIn(after, r);
      assert t in StreamsIn(before, r);
    }
  }

  // ---- What a batch of entries is about ----

  ghost function UsersOf(batch: seq<Entry>): set<string> {
    set e, u | e in batch && u in e.extraUsers :: u
  }

  ghost function RoomsOf(batch: seq<Entry>): set<string> {
    set e | e in batch :: e.roomId
  }

  predicate Joins(e: Entry) {
    e.etype == "m.room.member" && e.membership == Some("join") && e.stateKey.Some? && e.stateKey.value != ""
  }

  ghost function JoinedRooms(batch: seq<Entry>, user: string): set<string> {
    set e | e in batch && Joins(e) && e.stateKey.value == user :: e.roomId
  }

  lemma NothingCovered(token: Tokens.Token)
    ensures Uncovered([], token) == [] && Covered([], token) == []
    ensures UsersOf([]) == {} && RoomsOf([]) == {} && forall u :: JoinedRooms([], u) == {}
  {
  }

  lemma CoveredStep(all: seq<Entry>, i: nat, token: Tokens.Token)
    requires i < |all|
    ensures var next := all[i]; var after := Tokens.PersistedAfter(next.pos, token);
      var before, now := Covered(all[..i], token), Covered(all[..i + 1], token);
      && Uncovered(all[..i + 1], token) == Uncovered(all[..i], token) + (if after then [next] else [])
      && UsersOf(now) == UsersOf(before) + (if after then {} else next.extraUsers)
      && RoomsOf(now) == RoomsOf(before) + (if after then {} else {next.roomId})
      && forall u :: JoinedRooms(now, u) == JoinedRooms(before, u)
                     + if !after && Joins(next) && next.stateKey.value == u then {next.roomId} else {}
  {
    assert all[..i + 1][..i] == all[..i];
    var before, now := Covered(all[..i], token), Covered(all[..i + 1], token);
    assert now == before + if Tokens.PersistedAfter(all[i].pos, token) then [] else [all[i]];
  }

  /** A user with a stream whose join is notified listens to the room when listeners are called back,
      and so hears of it. */
  lemma JoinersAreConcerned(batch: seq<Entry>, e: Entry, listens: set<string>)
    requires e in batch && Joins(e)
    ensures Concerns(e.stateKey.value, listens + JoinedRooms(batch, e.stateKey.value), UsersOf(batch), RoomsOf(batch))
  {
    assert e.roomId in JoinedRooms(batch, e.stateKey.value) && e.roomId in RoomsOf(batch);
  }

  /** Told entry by entry: a batch is news to a user exactly if some entry names them, or is for a room
      that they listen to or that they join by an entry of the batch. */
  lemma ConcernedExactly(batch: seq<Entry>, u: string, listens: set<string>)
    ensures Concerns(u, listens + JoinedRooms(batch, u), UsersOf(batch), RoomsOf(batch))
       <==> exists e <- batch ::
              || u in e.extraUsers || e.roomId in listens
              || exists d <- batch ::
                   && d.roomId == e.roomId && d.etype == "m.room.member" && d.membership == Some("join")
                   && d.stateKey == Some(u) != Some("")
  {
    if Concerns(u, listens + JoinedRooms(batch, u), UsersOf(batch), RoomsOf(batch)) {
      if u in UsersOf(batch) {
        var e :| e in batch && u in e.extraUsers;
      } else {
        var r :| r in listens + JoinedRooms(batch, u) && r in RoomsOf(batch);
        var e :| e in batch && e.roomId == r;
      }
    }
  }

  /** A user's stream gains the rooms of the join events of theirs in the batch, and no others. */
  lemma JoinedExactly(batch: seq<Entry>, u: string, r: string)
    ensures r in JoinedRooms(batch, u)
       <==> exists e <- batch ::
              && e.roomId == r && e.etype == "m.room.member" && e.membership == Some("join")
              && e.stateKey == Some(u) != Some("")
  {
  }

  // ---- The notifier ----

  class Notifier {
    var userStreams: map<string, UserStream>
    var roomStreams: RoomIndex
    var pending: seq<Entry>

    ghost function Streams(): set<UserStream>
      reads this
    {
      userStreams.Values
    }

    ghost function Listeners(): set<Listener>
      reads this, Streams()
    {
      ListenersOf(Streams())
    }

    /** The rooms that each stream listens to. */
    ghost function Rooms(): map<string, set<string>>
      reads this, Streams()
    {
      map u | u in userStreams :: userStreams[u].rooms
    }

    ghost function Waiting(): map<string, set<Listener>>
      reads this, Streams()
    {
      map u | u in userStreams :: userStreams[u].listeners
    }

    lemma ListenersAreWaiting()
      ensures Listeners() == AllOf(Waiting())
    {
      forall l | l in Listeners() ensures l in AllOf(Waiting()) {
        var s :| s in Streams() && l in s.listeners;
        var u :| u in userStreams && userStreams[u] == s;
        assert l in Waiting()[u];
      }
      forall l | l in AllOf(Waiting()) ensures l in Listeners() {
        var u :| u in Waiting() && l in Waiting()[u];
        assert userStreams[u] in Streams();
      }
    }

    /** Nobody waits on two streams, or for something that has happened. */
    ghost predicate Quiet()
      reads this, Streams(), Listeners()
    {
      && (forall u <- userStreams :: userStreams[u].Valid())
      && (forall u <- userStreams, v <- userStreams :: u != v ==> userStreams[u].listeners !! userStreams[v].listeners)
    }

    ghost predicate Valid()
      reads this, Streams(), Listeners()
    {
      Agree(userStreams, Rooms(), roomStreams) && Quiet()
    }

    constructor ()
      ensures Valid() && userStreams == map[] && pending == []
    {
      userStreams, roomStreams, pending := map[], map[], [];
    }

    method AddToRoom(r: string, s: UserStream)
      requires NoEmptyRooms(roomStreams)
      modifies this`roomStreams
      ensures Gains(old(roomStreams), roomStreams, s, {r})
    {
      roomStreams := roomStreams[r := StreamsIn(roomStreams, r) + {s}];
    }

    method AddToRooms(rooms: set<string>, s: UserStream)
      requires NoEmptyRooms(roomStreams)
      modifies this`roomStreams
      ensures Gains(old(roomStreams), roomStreams, s, rooms)
    {
      var todo := rooms;
      while todo != {}
        invariant todo <= rooms
        invariant Gains(old(roomStreams), roomStreams, s, rooms - todo)
        decreases todo
      {
        var r :| r in todo;
        todo := todo - {r};
        AddToRoom(r, s);
      }
    }

    lemma LossByDisplacement(userId: string)
      requires Quiet()
      ensures Listeners() == AllOf(Waiting())
      ensures AllOf(Waiting()) <= AllOf(Waiting()[userId := {}])
         <==> (userId in userStreams ==> userStreams[userId].listeners == {})
    {
      ListenersAreWaiting();
      DisplacementLoses(Waiting(), userId);
    }

    twostate lemma WaitingAfter(new s: UserStream)
      requires s.listeners == {} && userStreams == old(userStreams)[s.userId := s]
      requires forall u <- old(userStreams) :: old(userStreams)[u].listeners == old(userStreams[u].listeners)
      ensures Waiting() == old(Waiting())[s.userId := {}]
    {
    }

    /** Register a new stream. The indexes agree afterwards exactly when the user had no stream, or
        one that listens to no room: between looking for a stream and registering one, the caller
        waits for the user's rooms, and the user may get a stream meanwhile. No listener is lost exactly
        when nobody waited on such a stream. */
    method Register(userId: string, rooms: set<string>, currentToken: StreamToken, now: int) returns (s: UserStream)
      requires Valid()
      modifies this`userStreams, this`roomStreams
      ensures fresh(s) && s.userId == userId && s.rooms == rooms && s.listeners == {} && s.currentToken == currentToken
      ensures userStreams == old(userStreams)[userId := s] && Gains(old(roomStreams), roomStreams, s, rooms)
      ensures Valid() <==> old(userId in userStreams ==> userStreams[userId].rooms == {})
      ensures old(Listeners()) <= Listeners() <==> old(userId in userStreams ==> userStreams[userId].listeners == {})
    {
      hide Agree, Gains, Listeners, Waiting, NoEmptyRooms, StreamsIn, AllOf, ListenersOf;
      Basics(userStreams, Rooms(), roomStreams);
      LossByDisplacement(userId);
      s := new UserStream(userId, rooms, currentToken, now);
      userStreams := userStreams[userId := s];
      AddToRooms(rooms, s);
      RegistrationAgrees(old(userStreams), old(Rooms()), old(roomStreams), roomStreams, s, rooms);
      assert Rooms() == old(Rooms())[userId := rooms];
      assert Quiet();
      ListenersAreWaiting();
      WaitingAfter(s);
    }

    /** A user's stream starts to listen to a room. */
    method UserJoinedRoom(userId: string, roomId: string)
      requires Valid()
      modifies this`roomStreams, if userId in userStreams then {userStreams[userId]} else {}
      ensures Valid()
      ensures userId in userStreams ==> var s := userStreams[userId];
        && s.rooms == old(s.rooms) + {roomId} && s.listeners == old(s.listeners)
        && s.currentToken == old(s.currentToken) && s.lastNotified == old(s.lastNotified)
    {
      hide Agree, Gains, Quiet;
      if userId in userStreams {
        var s := userStreams[userId];
        Basics(userStreams, Rooms(), roomStreams);
        AddToRoom(roomId, s);
        s.rooms := s.rooms + {roomId};
        JoinAgrees(userStreams, old(Rooms()), old(roomStreams), roomStreams, userId, roomId);
        assert Rooms() == old(Rooms())[userId := s.rooms];
        StaysQuiet({});
      }
    }

    method RemoveFromRooms(rooms: set<string>, s: UserStream)
      requires NoEmptyRooms(roomStreams)
      modifies this`roomStreams
      ensures Loses(old(roomStreams), roomStreams, s, rooms)
    {
      var todo := rooms;
      while todo != {}
        invariant todo <= rooms
        invariant Loses(old(roomStreams), roomStreams, s, rooms - todo)
        decreases todo
      {
        var r :| r in todo;
        todo := todo - {r};
        var left := StreamsIn(roomStreams, r) - {s};
        roomStreams := if left == {} then roomStreams - {r} else roomStreams[r := left];
      }
    }

    /** Remove a stream from the indexes. */
    method Remove(s: UserStream)
      requires Valid() && s.userId in userStreams && userStreams[s.userId] == s
      modifies this`userStreams, this`roomStreams
      ensures Valid() && userStreams == old(userStreams) - {s.userId}
      ensures Loses(old(roomStreams), roomStreams, s, s.rooms)
    {
      hide Agree, Loses;
      Basics(userStreams, Rooms(), roomStreams);
      RemoveFromRooms(s.rooms, s);
      userStreams := userStreams - {s.userId};
      RemovalAgrees(old(userStreams), old(Rooms()), old(roomStreams), roomStreams, s);
      assert Rooms() == old(Rooms()) - {s.userId};
    }

    predicate Expired(s: UserStream, now: int)
      reads s
    {
      s.listeners == {} && s.lastNotified < now - UNUSED_STREAM_EXPIRY_MS
    }

    /** Remove the streams that nobody listens to and that have been quiet for long. */
    method RemoveExpiredStreams(now: int)
      requires Valid()
      modifies this`userStreams, this`roomStreams
      ensures Valid()
      ensures userStreams.Keys <= old(userStreams.Keys)
      ensures forall u <- old(userStreams) ::
        u in userStreams <==> old(userStreams[u].listeners) != {} || now - old(userStreams[u].lastNotified) <= 600_000
      ensures forall u <- userStreams :: userStreams[u] == old(userStreams)[u]
      ensures Listeners() == old(Listeners())
    {
      hide Quiet, StreamsIn;
      var expired := set u | u in userStreams && Expired(userStreams[u], now);
      var todo := expired;
      while todo != {}
        invariant Valid() && todo <= expired
        invariant userStreams == old(userStreams) - (expired - todo)
        decreases todo
      {
        var u :| u in todo;
        todo := todo - {u};
        Basics(userStreams, Rooms(), roomStreams);
        Remove(userStreams[u]);
      }
      NobodyLost();
    }

    /** Whoever waits waits on a stream that is kept. */
    twostate lemma NobodyLost()
      requires forall u <- old(userStreams) :: u in userStreams || old(userStreams[u].listeners) == {}
      requires forall u <- userStreams :: u in old(userStreams) && userStreams[u] == old(userStreams[u])
      requires forall u <- userStreams :: userStreams[u].listeners == old(userStreams[u].listeners)
      ensures Listeners() == old(Listeners())
    {
      forall l | l in old(Listeners()) ensures l in Listeners() {
        var s :| s in old(Streams()) && l in old(s.listeners);
        var u :| u in old(userStreams) && old(userStreams)[u] == s;
        assert userStreams[u] in Streams() && l in userStreams[u].listeners;
      }
      forall l | l in Listeners() ensures l in old(Listeners()) {
        var s :| s in Streams() && l in s.listeners;
        var u :| u in userStreams && userStreams[u] == s;
        assert s in old(Streams());
      }
    }

    method CollectTargets(users: set<string>, rooms: set<string>) returns (targets: set<UserStream>)
      ensures targets == Targets(userStreams, roomStreams, users, rooms)
    {
      targets := {};
      var todo := users;
      while todo != {}
        invariant todo <= users
        invariant targets == set u | u in users - todo && u in userStreams :: userStreams[u]
        decreases todo
      {
        var u :| u in todo;
        todo := todo - {u};
        if u in userStreams {
          targets := targets + {userStreams[u]};
        }
      }
      ghost var named := targets;
      todo := rooms;
      while todo != {}
        invariant todo <= rooms
        invariant targets == named + set r, s | r in rooms - todo && s in StreamsIn(roomStreams, r) :: s
        decreases todo
      {
        var r :| r in todo;
        todo := todo - {r};
        targets := targets + StreamsIn(roomStreams, r);
      }
    }

    /** Move streams on to a new token, and gather everyone waiting on them. */
    static method FetchAll(targets: set<UserStream>, token: StreamToken, now: int) returns (fetched: set<Listener>)
      modifies targets
      ensures fetched == old(ListenersOf(targets))
      ensures forall s <- targets ::
        s.listeners == {} && s.currentToken == token && s.lastNotified == now && s.rooms == old(s.rooms)
    {
      fetched := {};
      var todo := targets;
      while todo != {}
        invariant todo <= targets
        invariant fetched == old(ListenersOf(targets - todo))
        invariant forall s <- todo :: s.listeners == old(s.listeners)
        invariant forall s <- targets :: s.rooms == old(s.rooms)
        invariant forall s <- targets - todo :: s.listeners == {} && s.currentToken == token && s.lastNotified == now
        decreases todo
      {
        var s :| s in todo;
        todo := todo - {s};
        var more := s.UpdateAndFetch(token, now);
        fetched := fetched + more;
      }
    }

    static method ResolveAll(listeners: set<Listener>, token: StreamToken)
      requires forall l <- listeners :: l.result.None?
      modifies listeners
      ensures forall l <- listeners :: l.result == Some(token)
    {
      var todo := listeners;
      while todo != {}
        invariant todo <= listeners
        invariant forall l <- todo :: l.result.None?
        invariant forall l <- listeners - todo :: l.result == Some(token)
        decreases todo
      {
        var l :| l in todo;
        todo := todo - {l};
        l.Callback(token);
      }
    }

    /** Quiet stays if some streams lose all their listeners and the others keep theirs. */
    twostate lemma StaysQuiet(emptied: set<string>)
      requires old(Quiet()) && userStreams == old(userStreams)
      requires forall u <- userStreams | u in emptied :: userStreams[u].listeners == {}
      requires forall u <- userStreams | u !in emptied :: var s := userStreams[u];
        && s.listeners == old(s.listeners) && s.currentToken == old(s.currentToken)
        && forall l <- s.listeners :: l.result == old(l.result)
      ensures Quiet()
    {
    }

    /** Nobody else waits on a stream that is not among the targets. */
    lemma OthersAreApart(targets: set<UserStream>)
      requires Valid() && targets <= Streams()
      ensures forall u <- userStreams | userStreams[u] !in targets :: userStreams[u].listeners !! ListenersOf(targets)
      ensures forall l <- ListenersOf(targets) :: l.result.None?
    {
      hide Agree;
      Basics(userStreams, Rooms(), roomStreams);
      forall l | l in ListenersOf(targets)
        ensures exists v <- userStreams :: userStreams[v] in targets && l in userStreams[v].listeners
      {
        var s :| s in targets && l in s.listeners;
        assert s in Streams();
      }
    }

    /** Tell users of news: exactly those waiting on a stream that the news concerns are called back. */
    method OnNewEvent(users: set<string>, rooms: set<string>, currentToken: StreamToken, now: int)
      requires Valid()
      modifies Targets(userStreams, roomStreams, users, rooms)
      modifies ListenersOf(Targets(userStreams, roomStreams, users, rooms))
      ensures Valid()
      ensures forall u <- userStreams :: userStreams[u].rooms == old(userStreams[u].rooms)
      ensures forall u <- userStreams | Concerns(u, userStreams[u].rooms, users, rooms) :: var s := userStreams[u];
        && s.listeners == {} && s.currentToken == currentToken && s.lastNotified == now
        && forall l <- old(s.listeners) :: l.result == Some(currentToken)
      ensures forall u <- userStreams | !Concerns(u, userStreams[u].rooms, users, rooms) :: var s := userStreams[u];
        && s.listeners == old(s.listeners) && s.currentToken == old(s.currentToken)
        && s.lastNotified == old(s.lastNotified)
    {
      hide Agree, Quiet, Concerns, Targets;
      TargetsAreConcerned(userStreams, Rooms(), roomStreams, users, rooms);
      OthersAreApart(Targets(userStreams, roomStreams, users, rooms));
      var targets := CollectTargets(users, rooms);
      ghost var hit := set u | u in userStreams && userStreams[u] in targets;
      var fetched := FetchAll(targets, currentToken, now);
      ResolveAll(fetched, currentToken);
      assert Rooms() == old(Rooms());
      StaysQuiet(hit);
    }

    /** A user starts to wait for anything after a token. */
    method Listen(userId: string, token: StreamToken) returns (l: Listener)
      requires Valid() && userId in userStreams
      modifies userStreams[userId]
      ensures userStreams[userId].rooms == old(userStreams[userId].rooms)
      ensures userStreams[userId].currentToken == old(userStreams[userId].currentToken)
      ensures Valid() && fresh(l) && l.token == token
      ensures var s := userStreams[userId];
        if token != s.currentToken then l.result == Some(s.currentToken) && s.listeners == old(s.listeners)
        else l.result.None? && s.listeners == old(s.listeners) + {l}
    {
      hide Agree;
      Basics(userStreams, Rooms(), roomStreams);
      l := userStreams[userId].NewListener(token);
      assert Rooms() == old(Rooms());
    }

    /** A listener times out or is cancelled. */
    method StopListening(userId: string, l: Listener)
      requires Valid() && userId in userStreams
      modifies userStreams[userId]
      ensures userStreams[userId].rooms == old(userStreams[userId].rooms)
      ensures userStreams[userId].currentToken == old(userStreams[userId].currentToken)
      ensures Valid() && userStreams[userId].listeners == old(userStreams[userId].listeners) - {l}
    {
      hide Agree;
      Basics(userStreams, Rooms(), roomStreams);
      userStreams[userId].Cancel(l);
      assert Rooms() == old(Rooms());
    }

    /** Notify for the pending events that a token covers. Users who join are indexed under their
        room first, so they hear of their own join; the other events keep waiting, in order. */
    method NotifyPending(token: Tokens.Token, currentToken: StreamToken, now: int)
      requires Valid()
      modifies this`pending, this`roomStreams, Streams(), Listeners()
      ensures Valid() && userStreams == old(userStreams)
      ensures pending == Uncovered(old(pending), token)
      ensures var batch := Covered(old(pending), token);
        && (forall u <- userStreams :: userStreams[u].rooms == old(userStreams[u].rooms) + JoinedRooms(batch, u))
        && (forall u <- userStreams | Concerns(u, userStreams[u].rooms, UsersOf(batch), RoomsOf(batch)) ::
            var s := userStreams[u];
             && s.listeners == {} && s.currentToken == currentToken && s.lastNotified == now
             && forall l <- old(s.listeners) :: l.result == Some(currentToken))
        && (forall u <- userStreams | !Concerns(u, userStreams[u].rooms, UsersOf(batch), RoomsOf(batch)) ::
            var s := userStreams[u];
             && s.listeners == old(s.listeners) && s.currentToken == old(s.currentToken)
             && s.lastNotified == old(s.lastNotified))
    {
      ghost var batch := Covered(pending, token);
      hide Agree, Quiet, Targets, Uncovered, Covered, UsersOf, RoomsOf, JoinedRooms;
      var users, rooms := TakeCovered(token);
      assert Listeners() == old(Listeners());
      TargetsAreConcerned(userStreams, Rooms(), roomStreams, users, rooms);
      if users != {} || rooms != {} {
        OnNewEvent(users, rooms, currentToken, now);
      }
    }

    method SetPending(entries: seq<Entry>)
      requires Valid()
      modifies this`pending
      ensures Valid() && pending == entries
    {
      hide Agree, Quiet;
      pending := entries;
      assert Rooms() == old(Rooms());
      StaysQuiet({});
    }

    method NoteJoin(e: Entry)
      requires Valid()
      modifies this`roomStreams, Streams()
      ensures Valid()
      ensures forall u <- userStreams :: var s := userStreams[u];
        && s.rooms == old(s.rooms) + (if Joins(e) && e.stateKey.value == u then {e.roomId} else {})
        && s.listeners == old(s.listeners) && s.currentToken == old(s.currentToken)
        && s.lastNotified == old(s.lastNotified)
    {
      hide Agree, Quiet;
      Basics(userStreams, Rooms(), roomStreams);
      if Joins(e) {
        UserJoinedRoom(e.stateKey.value, e.roomId);
      }
    }

    /** The first half of that: sort the pending events out and index the users who join. */
    method TakeCovered(token: Tokens.Token) returns (users: set<string>, rooms: set<string>)
      requires Valid()
      modifies this`pending, this`roomStreams, Streams()
      ensures Valid() && userStreams == old(userStreams)
      ensures pending == Uncovered(old(pending), token)
      ensures users == UsersOf(Covered(old(pending), token)) && rooms == RoomsOf(Covered(old(pending), token))
      ensures forall u <- userStreams :: var s := userStreams[u];
        && s.rooms == old(s.rooms) + JoinedRooms(Covered(old(pending), token), u)
        && s.listeners == old(s.listeners) && s.currentToken == old(s.currentToken)
        && s.lastNotified == old(s.lastNotified)
    {
      hide Valid, Uncovered, Covered, UsersOf, RoomsOf, JoinedRooms, Joins;
      var all := pending;
      NothingCovered(token);
      SetPending([]);
      users, rooms := {}, {};
      for i := 0 to |all|
        invariant Valid() && userStreams == old(userStreams)
        invariant pending == Uncovered(all[..i], token)
        invariant users == UsersOf(Covered(all[..i], token)) && rooms == RoomsOf(Covered(all[..i], token))
        invariant forall u <- userStreams :: var s := userStreams[u];
          && s.rooms == old(s.rooms) + JoinedRooms(Covered(all[..i], token), u)
          && s.listeners == old(s.listeners) && s.currentToken == old(s.currentToken)
          && s.lastNotified == old(s.lastNotified)
      {
        CoveredStep(all, i, token);
        if Tokens.PersistedAfter(all[i].pos, token) {
          SetPending(pending + [all[i]]);
        } else {
          NoteJoin(all[i]);
          users := users + all[i].extraUsers;
          rooms := rooms + {all[i].roomId};
        }
      }
      assert all[..|all|] == all;
    }
  }
}
