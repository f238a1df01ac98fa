/** Whether those who wait hear of everything: the streams of one user, step by step between two pauses,
    with the registrations that are under way. */
module NotifierRuns {
  import opened Options

  /** A stream, how many wait on it, all with its token, and whether it is in the room index. */
  datatype Stream = Stream(rooms: set<string>, token: nat, waiting: nat, indexed: bool)

  /** A registration under way: the token taken when no stream was found, and the user's rooms once read. */
  datatype Lookup = Lookup(token: nat, rooms: Option<set<string>>)

  datatype State = State(
    now: nat, // the position of the latest news
    joined: set<string>, // the user's rooms
    lastNews: nat, // history: the position of the latest news that concerned the user
    current: Option<Stream>, // the user's registered stream
    detached: seq<Stream>, // streams displaced or expired, which somebody may still hold
    lookups: seq<Lookup>
  )

  const START := State(0, {}, 0, None, [], [])

  datatype Step =
    | News(named: bool, rooms: set<string>) // whether it names the user, and the rooms it is for
    | Join(room: string)
    | Leave(room: string)
    | LookUp
    | ReadRooms(i: nat)
    | Register(i: nat)
    | RegisterGiven(rooms: set<string>)
    | Listen(t: nat)
    | ListenDetached(j: nat, t: nat)
    | GiveUp
    | GiveUpDetached(j: nat)
    | Expire

  /** A stream that is hit moves on to the present, and everyone waiting on it is called back. */
  function Hit(x: Stream, named: bool, rooms: set<string>, now: nat): Stream {
    if named || (x.indexed && x.rooms * rooms != {}) then x.(token := now, waiting := 0) else x
  }

  /** News reaches the registered stream by name or room, and any other by room only. */
  function Told(s: State, named: bool, rooms: set<string>): State {
    var now := s.now + 1;
    s.(now := now,
       lastNews := if named || rooms * s.joined != {} then now else s.lastNews,
       current := if s.current.Some? then Some(Hit(s.current.value, named, rooms, now)) else None,
       detached := seq(|s.detached|, j requires 0 <= j < |s.detached| => Hit(s.detached[j], false, rooms, now)))
  }

  predicate Enabled(s: State, a: Step) {
    match a
    case LookUp => s.current.None?
    case ReadRooms(i) => i < |s.lookups|
    case Register(i) => i < |s.lookups| && s.lookups[i].rooms.Some?
    case RegisterGiven(_) => s.current.None?
    case Listen(_) => s.current.Some?
    case ListenDetached(j, _) => j < |s.detached|
    case GiveUp => s.current.Some? && s.current.value.waiting > 0
    case GiveUpDetached(j) => j < |s.detached| && s.detached[j].waiting > 0
    case Expire => s.current.Some? && s.current.value.waiting == 0
    case _ => true
  }

  /** Whoever listens with the stream's own token waits; anyone else is answered at once. */
  function Listening(x: Stream, t: nat): Stream {
    if t == x.token then x.(waiting := x.waiting + 1) else x
  }

  function Without<T>(s: seq<T>, i: nat): seq<T>
    requires i < |s|
  {
    s[..i] + s[i + 1..]
  }

  function Next(s: State, a: Step): State
    requires Enabled(s, a)
  {
    match a
    case News(named, rooms) => Told(s, named, rooms)
    case Join(r) =>
      var current := if s.current.Some? then Some(s.current.value.(rooms := s.current.value.rooms + {r})) else None;
      Told(s.(joined := s.joined + {r}, current := current), false, {r})
    case Leave(r) => Told(s, true, {r}).(joined := s.joined - {r})
    case LookUp => s.(lookups := s.lookups + [Lookup(s.now, None)])
    case ReadRooms(i) => s.(lookups := s.lookups[i := s.lookups[i].(rooms := Some(s.joined))])
    case Register(i) =>
      var l := s.lookups[i];
      s.(lookups := Without(s.lookups, i), current := Some(Stream(l.rooms.value, l.token, 0, true)),
         detached := s.detached + if s.current.Some? then [s.current.value] else [])
    case RegisterGiven(rooms) => s.(current := Some(Stream(rooms, s.now, 0, true)))
    case Listen(t) => s.(current := Some(Listening(s.current.value, t)))
    case ListenDetached(j, t) => s.(detached := s.detached[j := Listening(s.detached[j], t)])
    case GiveUp => s.(current := Some(s.current.value.(waiting := s.current.value.waiting - 1)))
    case GiveUpDetached(j) =>
      s.(detached := s.detached[j := s.detached[j].(waiting := s.detached[j].waiting - 1)])
    case Expire => s.(current := None, detached := s.detached + [s.current.value.(indexed := false)])
  }

  /** Somebody waits on the stream although news has concerned them since its token. */
  predicate MissesNews(x: Stream, lastNews: nat) {
    x.waiting > 0 && x.token < lastNews
  }

  ghost predicate SomebodyMisses(s: State) {
    || (s.current.Some? && MissesNews(s.current.value, s.lastNews))
    || exists j | 0 <= j < |s.detached| :: MissesNews(s.detached[j], s.lastNews)
  }

  /** The registered stream is up to date and listens to all the user's rooms, and nobody waits on any
      other. */
  ghost predicate Attentive(s: State) {
    && (s.current.Some? ==>
          && s.lastNews <= s.current.value.token && s.joined <= s.current.value.rooms && s.current.value.indexed)
    && forall j | 0 <= j < |s.detached| :: s.detached[j].waiting == 0
  }

  /** No position is in the future. */
  ghost predicate Timely(s: State) {
    && s.lastNews <= s.now
    && (s.current.Some? ==> s.current.value.token <= s.now && s.current.value.indexed)
    && (forall j | 0 <= j < |s.detached| :: s.detached[j].token <= s.now)
    && (forall i | 0 <= i < |s.lookups| :: s.lookups[i].token <= s.now)
  }

  /** A registration is careful if nothing has concerned the user since its token was taken, it has all the
      rooms they are in, and nobody waits on a stream that it displaces. Listening is careful unless on a
      detached stream, to wait there. */
  predicate Careful(s: State, a: Step)
    requires Enabled(s, a)
  {
    match a
    case Register(i) =>
      && s.lastNews <= s.lookups[i].token
      && s.joined <= s.lookups[i].rooms.value
      && (s.current.Some? ==> s.current.value.waiting == 0)
    case RegisterGiven(rooms) => s.joined <= rooms
    case ListenDetached(j, t) => t != s.detached[j].token
    case _ => true
  }

  lemma AttentiveMissNothing(s: State)
    requires Attentive(s)
    ensures !SomebodyMisses(s)
  {
  }

  lemma StepIsTimely(s: State, a: Step)
    requires Timely(s) && Enabled(s, a)
    ensures Timely(Next(s, a))
  {
  }

  lemma ToldKeeps(s: State, named: bool, rooms: set<string>)
    requires Attentive(s) && s.lastNews <= s.now
    ensures Attentive(Told(s, named, rooms))
  {
    var t := Told(s, named, rooms);
    if s.current.Some? && rooms * s.joined != {} {
      var r :| r in rooms * s.joined;
      assert r in s.current.value.rooms * rooms;
    }
    forall j | 0 <= j < |t.detached| ensures t.detached[j].waiting == 0 {
      assert s.detached[j].waiting == 0;
    }
  }

  /** Careful steps keep those who wait attentive, and careless ones do not. */
  lemma CarefulExactly(s: State, a: Step)
    requires Timely(s) && Attentive(s) && Enabled(s, a)
    ensures Attentive(Next(s, a)) <==> Careful(s, a)
  {
    match a
    case News(named, rooms) => ToldKeeps(s, named, rooms);
    case Join(r) =>
      hide Told;
      var current := if s.current.Some? then Some(s.current.value.(rooms := s.current.value.rooms + {r})) else None;
      ToldKeeps(s.(joined := s.joined + {r}, current := current), false, {r});
    case Leave(r) => ToldKeeps(s, true, {r});
    case Register(i) => RegisterExactly(s, i);
    case ListenDetached(j, t) =>
      assert Next(s, a).detached[j] == Listening(s.detached[j], t);
    case Expire =>
      var x := s.current.value.(indexed := false);
      assert x.waiting == 0 && Next(s, a).detached == s.detached + [x];
    case _ =>
  }

  lemma RegisterExactly(s: State, i: nat)
    requires Attentive(s) && Timely(s) && Enabled(s, Register(i))
    ensures Attentive(Next(s, Register(i))) <==> Careful(s, Register(i))
  {
    var t := Next(s, Register(i));
    if s.current.Some? {
      assert t.detached[|s.detached|] == s.current.value;
    }
  }

  // ---- Runs ----

  function Perform(s: State, steps: seq<Step>): Option<State>
    decreases |steps|
  {
    if steps == [] then Some(s)
    else if !Enabled(s, steps[0]) then None
    else Perform(Next(s, steps[0]), steps[1..])
  }

  /** Every step of a run, from a state on, is careful. */
  predicate AllCareful(s: State, steps: seq<Step>)
    requires Perform(s, steps).Some?
    decreases |steps|
  {
    steps != [] ==> Careful(s, steps[0]) && AllCareful(Next(s, steps[0]), steps[1..])
  }

  ghost predicate AlwaysAttentive(s: State, steps: seq<Step>)
    requires Perform(s, steps).Some?
    decreases |steps|
  {
    Attentive(s) && (steps != [] ==> AlwaysAttentive(Next(s, steps[0]), steps[1..]))
  }

  lemma {:induction false} AttentiveFrom(s: State, steps: seq<Step>)
    requires Timely(s) && Attentive(s) && Perform(s, steps).Some?
    ensures AlwaysAttentive(s, steps) <==> AllCareful(s, steps)
    decreases |steps|
  {
    hide Next, Careful, Attentive, Timely, Enabled;
    if steps != [] {
      StepIsTimely(s, steps[0]);
      CarefulExactly(s, steps[0]);
      var t, rest := Next(s, steps[0]), steps[1..];
      if Attentive(t) {
        AttentiveFrom(t, rest);
      }
    }
  }

  /** In a run from the start those who wait are attentive throughout, and so miss nothing, if and only if
      every registration and every listener in it is careful. */
  lemma AttentiveExactly(steps: seq<Step>)
    requires Perform(START, steps).Some?
    ensures AlwaysAttentive(START, steps) <==> AllCareful(START, steps)
  {
    AttentiveFrom(START, steps);
  }

  lemma {:induction false} CarefulRunsMissNothing(s: State, steps: seq<Step>)
    requires Timely(s) && Attentive(s) && Perform(s, steps).Some? && AllCareful(s, steps)
    ensures !SomebodyMisses(Perform(s, steps).value)
    decreases |steps|
  {
    hide Next, Careful, Attentive, Timely, Enabled, SomebodyMisses;
    if steps == [] {
      AttentiveMissNothing(s);
    } else {
      StepIsTimely(s, steps[0]);
      CarefulExactly(s, steps[0]);
      CarefulRunsMissNothing(Next(s, steps[0]), steps[1..]);
    }
  }

  // ---- What carelessness costs ----

  lemma One(s: State, a: Step)
    requires Enabled(s, a)
    ensures Perform(s, [a]) == Some(Next(s, a))
  {
    hide Next;
    assert [a][1..] == [];
  }

  lemma Two(s: State, a: Step, b: Step)
    requires Enabled(s, a) && Enabled(Next(s, a), b)
    ensures Perform(s, [a, b]) == Some(Next(Next(s, a), b))
  {
    hide Next, Enabled;
    assert [a, b][1..] == [b];
    One(Next(s, a), b);
  }

  /** A stream that is behind, or lacks a room, misses news as soon as somebody waits on it. */
  lemma BehindMisses(s: State) returns (more: seq<Step>)
    requires Timely(s) && s.current.Some? && s.current.value.indexed
    requires s.current.value.token < s.lastNews || !(s.joined <= s.current.value.rooms)
    ensures Perform(s, more).Some? && SomebodyMisses(Perform(s, more).value)
  {
    var listen := Listen(s.current.value.token);
    if s.current.value.token < s.lastNews {
      more := [listen];
      One(s, listen);
    } else {
      var r :| r in s.joined && r !in s.current.value.rooms;
      assert r in {r} * s.joined;
      assert s.current.value.rooms * {r} == {};
      more := [listen, News(false, {r})];
      Two(s, listen, News(false, {r}));
    }
  }

  /** Somebody waiting on a detached stream misses news that names the user. */
  lemma DetachedMisses(s: State, j: nat) returns (more: seq<Step>)
    requires Timely(s) && j < |s.detached| && s.detached[j].waiting > 0
    ensures Perform(s, more).Some? && SomebodyMisses(Perform(s, more).value)
  {
    more := [News(true, {})];
    One(s, News(true, {}));
    var t := Next(s, News(true, {}));
    assert s.detached[j].rooms * {} == {};
    assert t.detached[j] == s.detached[j];
    assert MissesNews(t.detached[j], t.lastNews);
  }

  /** After any careless step, two further steps are enough for somebody to miss news. */
  lemma CarelessStepsMiss(s: State, a: Step) returns (more: seq<Step>)
    requires Timely(s) && Attentive(s) && Enabled(s, a) && !Careful(s, a)
    ensures Perform(Next(s, a), more).Some? && SomebodyMisses(Perform(Next(s, a), more).value)
  {
    StepIsTimely(s, a);
    var t := Next(s, a);
    if a.Register? && s.current.Some? && s.current.value.waiting > 0 {
      assert t.detached[|s.detached|] == s.current.value;
      more := DetachedMisses(t, |s.detached|);
    } else if a.ListenDetached? {
      more := DetachedMisses(t, a.j);
    } else {
      more := BehindMisses(t);
    }
  }

  /** It does happen: news arrives between taking the token and registering. */
  lemma RegistrationMissesNews() returns (steps: seq<Step>)
    ensures Perform(START, steps).Some? && SomebodyMisses(Perform(START, steps).value)
  {
    var s1 := START.(lookups := [Lookup(0, None)]);
    var s2 := s1.(lookups := [Lookup(0, Some({}))]);
    var s3 := s2.(now := 1, lastNews := 1);
    var s4 := s3.(lookups := [], current := Some(Stream({}, 0, 0, true)));
    var s5 := s4.(current := Some(Stream({}, 0, 1, true)));
    steps := [LookUp, ReadRooms(0), News(true, {}), Register(0), Listen(0)];
    assert Next(START, LookUp) == s1;
    assert Next(s1, ReadRooms(0)) == s2;
    assert Next(s2, News(true, {})) == s3;
    assert Next(s3, Register(0)) == s4;
    assert Next(s4, Listen(0)) == s5;
    hide Next;
    One(s4, steps[4]);
    assert steps[4..] == [steps[4]] && steps[3..][1..] == steps[4..] && steps[2..][1..] == steps[3..];
    assert steps[1..][1..] == steps[2..] && steps[0..] == steps;
    assert Perform(s3, steps[3..]) == Some(s5);
    assert Perform(s2, steps[2..]) == Some(s5);
    assert Perform(s1, steps[1..]) == Some(s5);
  }
}
