/** Runs of the delivery machine in which the less expected things do happen. */
module SchedulerTraces {
  import opened Options
  import opened ServiceQueue
  import opened Scheduler
  import opened SchedulerOrder
  import opened SchedulerStranding

  // ---- Single steps with at most one event queued ----

  /** One event per transaction. */
  function Single(event: Item): Payload {
    Payload([event], [], [], NO_DEVICES)
  }

  lemma OneEvent(event: Item)
    ensures NextBatch(Enqueued(NOTHING, Single(event))) == Single(event)
    ensures AfterBatch(Enqueued(NOTHING, Single(event))) == NOTHING
    ensures NextBatch(NOTHING).Empty() && AfterBatch(NOTHING) == NOTHING
  {
  }

  lemma Starts(s: State, event: Item)
    requires s.senders == [] && !s.inFlight && s.pending == NOTHING
    ensures Next(s, Enqueue(Single(event)))
         == Some(s.(inFlight := true, enqueued := s.enqueued + [Single(event)],
                    senders := [if s.counts then Counting(Single(event)) else Checking(Single(event))]))
  {
    OneEvent(event);
    hide NextBatch, AfterBatch, Enqueued;
    var sender := if s.counts then Counting(Single(event)) else Checking(Single(event));
    assert s.senders + [Checking(Single(event))] == [Checking(Single(event))];
    assert [Checking(Single(event))][0 := sender] == [sender];
  }

  lemma FailsAndTakes(s: State, id: nat, event: Item)
    requires s.senders == [Sending(id)] && s.pending == Enqueued(NOTHING, Single(event)) && !s.counts
    ensures Next(s, OfSender(0, SendFailed))
         == Some(s.(pending := NOTHING, senders := [Checking(Single(event))], failing := s.failing + 1))
  {
    OneEvent(event);
    hide NextBatch, AfterBatch, Enqueued;
    assert s.senders[0 := Checking(Single(event))] == [Checking(Single(event))];
  }

  lemma Delivers(s: State, id: nat)
    requires s.senders == [Sending(id)] && s.pending == NOTHING && id in s.unsent
    ensures Next(s, OfSender(0, Sent)) == Some(s.(senders := [Completing(id)]))
    ensures Next(s.(senders := [Completing(id)]), OfSender(0, Completed))
         == Some(s.(inFlight := false, senders := [], unsent := s.unsent - {id}, completed := s.completed + [id]))
  {
    OneEvent("");
    hide NextBatch, AfterBatch;
    assert s.senders[0 := Completing(id)] == [Completing(id)];
    assert [Completing(id)][..0] + [Completing(id)][1..] == [];
  }

  lemma Waits(s: State, event: Item)
    requires s.inFlight && s.pending == NOTHING
    ensures Next(s, Enqueue(Single(event)))
         == Some(s.(pending := Enqueued(NOTHING, Single(event)), enqueued := s.enqueued + [Single(event)]))
  {
    hide Enqueued;
  }

  /** The delivery fails with nothing queued, and the sender stops. */
  lemma FailsAndStops(s: State, id: nat)
    requires s.senders == [Sending(id)] && s.pending == NOTHING
    ensures Next(s, OfSender(0, SendFailed)) == Some(s.(inFlight := false, senders := [], failing := s.failing + 1))
  {
    OneEvent("");
    hide NextBatch, AfterBatch;
    assert [Sending(id)][..0] + [Sending(id)][1..] == [];
  }

  lemma LooksDown(s: State, batch: Payload)
    requires s.senders == [Checking(batch)] && s.mark == Down && batch.events != []
    ensures Next(s, OfSender(0, UpKnown)) == Some(s.(senders := [Creating(batch, false)]))
  {
    hide LoopTurn;
    assert s.senders[0 := Creating(batch, false)] == [Creating(batch, false)];
  }

  /** The batch is stored for later, and the sender stops. */
  lemma StoresAndStops(s: State, batch: Payload)
    requires s.senders == [Creating(batch, false)] && s.pending == NOTHING
    ensures Next(s, OfSender(0, TxnCreated))
         == Some(s.(inFlight := false, senders := [], created := s.created + [batch],
                    unsent := s.unsent + {|s.created|}, outcomes := s.outcomes + [Stored(batch)]))
  {
    OneEvent("");
    hide NextBatch, AfterBatch;
    assert s.senders[..0] + s.senders[1..] == [];
  }

  // ---- Overtaking ----

  /** A first transaction fails; before the service is marked down the sender looks again, sees it
      up, and delivers a second one. */
  const OVERTAKING: seq<Step> := [
    Enqueue(Single("first")),
    OfSender(0, UpKnown),
    OfSender(0, TxnCreated),
    Enqueue(Single("second")),
    OfSender(0, SendFailed),
    OfSender(0, UpKnown),
    OfSender(0, TxnCreated),
    OfSender(0, Sent),
    OfSender(0, Completed)
  ]

  /** There is a run in which the second transaction is completed while the first is still unsent:
      what is completed is no prefix of what was created. */
  lemma TransactionsCanOvertake()
    ensures After(false, OVERTAKING).Some?
    ensures var s := After(false, OVERTAKING).value;
      s.created == [Single("first"), Single("second")] && s.completed == [1] && s.unsent == {0} && s.mark != Down
  {
    hide Next, Enqueued;
    var first, second := Single("first"), Single("second");
    var s0 := Init(false);
    var s1 := s0.(inFlight := true, senders := [Checking(first)], enqueued := s0.enqueued + [Single("first")]);
    var s2 := s1.(senders := [Creating(first, true)]);
    var s3 := s1.(senders := [Sending(0)], created := s1.created + [Single("first")], unsent := s1.unsent + {0},
                  outcomes := s1.outcomes + [Stored(Single("first"))]);
    var s4 := s3.(pending := Enqueued(NOTHING, second), enqueued := s3.enqueued + [Single("second")]);
    var s5 := s4.(pending := NOTHING, senders := [Checking(second)], failing := s4.failing + 1);
    var s6 := s5.(senders := [Creating(second, true)]);
    var s7 := s5.(senders := [Sending(1)], created := s5.created + [Single("second")], unsent := s5.unsent + {1},
                  outcomes := s5.outcomes + [Stored(Single("second"))]);
    var s8 := s7.(senders := [Completing(1)]);
    var s9 := s7.(inFlight := false, senders := [], unsent := s7.unsent - {1}, completed := s7.completed + [1]);
    Starts(s0, "first");
    Creates(s1, first);
    Waits(s3, "second");
    FailsAndTakes(s4, 0, "second");
    Creates(s5, second);
    Delivers(s7, 1);
    Chain(s0, OVERTAKING[..5], [s0, s1, s2, s3, s4, s5]);
    Chain(s5, OVERTAKING[5..], [s5, s6, s7, s8, s9]);
    hide Perform;
    PerformExtends(false, [], OVERTAKING[..5]);
    assert [] + OVERTAKING[..5] == OVERTAKING[..5];
    PerformExtends(false, OVERTAKING[..5], OVERTAKING[5..]);
    assert OVERTAKING[..5] + OVERTAKING[5..] == OVERTAKING;
    assert s9.created == [Single("first"), Single("second")] && s9.completed == [1] && s9.unsent == {0};
  }

  // ---- Stranded transactions ----

  /** A first transaction fails, and the recoverer delivers it. A second one finds the service down;
      the recoverer then finds nothing left, and only afterwards is the second transaction stored. */
  const STRANDING: seq<Step> := [
    Enqueue(Single("first")),
    OfSender(0, UpKnown),
    OfSender(0, TxnCreated),
    OfSender(0, SendFailed),
    DownWritten,
    OfRecoverer(TimerFires),
    OfRecoverer(OldestFetched),
    OfRecoverer(RetrySent),
    OfRecoverer(RetryCompleted),
    Enqueue(Single("second")),
    OfSender(0, UpKnown),
    OfRecoverer(OldestFetched),
    OfSender(0, TxnCreated),
    UpWritten
  ]

  const RECOVERY: seq<Step> := [
    DownWritten,
    OfRecoverer(TimerFires),
    OfRecoverer(OldestFetched),
    OfRecoverer(RetrySent),
    OfRecoverer(RetryCompleted)
  ]

  /** The recoverer delivers the only transaction and looks for the next. */
  lemma RecoversOne(s: State)
    requires s.failing == 1 && s.recoverer == None && s.unsent == {0}
    ensures Perform(s, RECOVERY)
         == Some(s.(failing := 0, mark := Down, recoverer := Some(Recoverer(1, Fetching)), unsent := {},
                    completed := s.completed + [0]))
  {
    hide Send, LoopTurn;
    var down := s.(failing := 0, mark := Down);
    var s1 := down.(recoverer := Some(Recoverer(1, Waiting)));
    var s2 := down.(recoverer := Some(Recoverer(1, Fetching)));
    var s3 := down.(recoverer := Some(Recoverer(1, Retrying(0))));
    var s4 := down.(recoverer := Some(Recoverer(1, Finishing(0))));
    var s5 := s2.(unsent := {}, completed := s.completed + [0]);
    var id := Oldest(s.unsent);
    assert id == 0;
    assert s.unsent - {0} == {};
    assert Next(s, DownWritten) == Some(s1) && Next(s1, OfRecoverer(TimerFires)) == Some(s2);
    assert Next(s2, OfRecoverer(OldestFetched)) == Some(s3) && Next(s3, OfRecoverer(RetrySent)) == Some(s4);
    assert Next(s4, OfRecoverer(RetryCompleted)) == Some(s5);
    hide Next, Oldest;
    Chain(s, RECOVERY, [s, s1, s2, s3, s4, s5]);
  }

  lemma FirstFails() returns (s: State)
    ensures After(false, STRANDING[..4]) == Some(s)
    ensures s == Init(false).(created := [Single("first")], unsent := {0}, failing := 1, enqueued := [Single("first")],
                              outcomes := [Stored(Single("first"))])
  {
    hide Next, Enqueued;
    var first := Single("first");
    var s0 := Init(false);
    var s1 := s0.(inFlight := true, senders := [Checking(first)], enqueued := s0.enqueued + [Single("first")]);
    var s2 := s1.(senders := [Creating(first, true)]);
    var s3 := s1.(senders := [Sending(0)], created := s1.created + [Single("first")], unsent := s1.unsent + {0},
                  outcomes := s1.outcomes + [Stored(Single("first"))]);
    s := s3.(inFlight := false, senders := [], failing := s3.failing + 1);
    Starts(s0, "first");
    Creates(s1, first);
    FailsAndStops(s3, 0);
    Chain(s0, STRANDING[..4], [s0, s1, s2, s3, s]);
    PerformExtends(false, [], STRANDING[..4]);
    assert [] + STRANDING[..4] == STRANDING[..4];
  }

  /** From the moment the recoverer has delivered the first transaction. */
  lemma SecondIsStranded(s: State)
    requires s.senders == [] && !s.inFlight && !s.counts && s.pending == NOTHING && s.mark == Down
    requires s.recoverer == Some(Recoverer(1, Fetching)) && s.unsent == {} && s.recovered == 0
    ensures Perform(s, STRANDING[9..])
         == Some(s.(created := s.created + [Single("second")], unsent := {|s.created|}, recoverer := None, mark := Up,
                    enqueued := s.enqueued + [Single("second")], outcomes := s.outcomes + [Stored(Single("second"))]))
  {
    hide Next, Enqueued;
    var second := Single("second");
    var s1 := s.(inFlight := true, senders := [Checking(second)], enqueued := s.enqueued + [Single("second")]);
    var s2 := s1.(senders := [Creating(second, false)]);
    var s3 := s2.(recoverer := None, recovered := s2.recovered + 1);
    var s4 := s3.(inFlight := false, senders := [], created := s3.created + [Single("second")],
                  unsent := s3.unsent + {|s3.created|}, outcomes := s3.outcomes + [Stored(Single("second"))]);
    var s5 := s4.(recovered := 0, mark := Up);
    Starts(s, "second");
    LooksDown(s1, second);
    RecovererLeaves(s2);
    StoresAndStops(s3, second);
    MarkedUp(s4);
    Chain(s, STRANDING[9..], [s, s1, s2, s3, s4, s5]);
    assert s3.unsent + {|s3.created|} == {|s.created|};
  }

  /** There is a run that ends with a stored transaction, the service marked up, and nothing going on
      that would ever deliver it. */
  lemma TransactionsCanBeStranded()
    ensures After(false, STRANDING).Some?
    ensures var s := After(false, STRANDING).value;
      && s.unsent == {1} && s.created == [Single("first"), Single("second")]
      && s.mark == Up && s.recoverer == None && s.senders == [] && s.failing == 0 && s.recovered == 0
      && s.pending == NOTHING && !Attended(s)
  {
    hide After, Perform;
    var s4 := FirstFails();
    RecoversOne(s4);
    PerformExtends(false, STRANDING[..4], RECOVERY);
    assert STRANDING[..4] + RECOVERY == STRANDING[..9];
    var s9 := After(false, STRANDING[..9]).value;
    SecondIsStranded(s9);
    PerformExtends(false, STRANDING[..9], STRANDING[9..]);
    assert STRANDING[..9] + STRANDING[9..] == STRANDING;
  }

  lemma RecovererLeaves(s: State)
    requires s.recoverer == Some(Recoverer(1, Fetching)) && s.unsent == {}
    ensures Next(s, OfRecoverer(OldestFetched)) == Some(s.(recoverer := None, recovered := s.recovered + 1))
  {
  }

  lemma MarkedUp(s: State)
    requires s.recovered == 1
    ensures Next(s, UpWritten) == Some(s.(recovered := 0, mark := Up))
  {
  }

  // ---- Queues without a sender ----

  const ABANDONING: seq<Step> := [Enqueue(Single("first")), Enqueue(Single("second")), OfSender(0, CountsRaise)]

  /** There is a run in which computing the key counts raises, and which ends with one event lost,
      another queued, and no sender. */
  lemma QueuesCanBeAbandoned()
    ensures After(true, ABANDONING).Some?
    ensures var s := After(true, ABANDONING).value;
      && s.outcomes == [Dropped(Single("first"))] && s.pending.events == ["second"]
      && s.senders == [] && !s.inFlight && !NotStranded(s)
  {
    hide Next, Enqueued;
    var first, second := Single("first"), Single("second");
    var s0 := Init(true);
    var s1 := s0.(inFlight := true, senders := [Counting(first)], enqueued := s0.enqueued + [Single("first")]);
    var s2 := s1.(pending := Enqueued(NOTHING, second), enqueued := s1.enqueued + [Single("second")]);
    var s3 := s2.(inFlight := false, senders := [], outcomes := s2.outcomes + [Dropped(Single("first"))]);
    Starts(s0, "first");
    Waits(s1, "second");
    CountsRaised(s2, first);
    Chain(s0, ABANDONING, [s0, s1, s2, s3]);
    PerformExtends(true, [], ABANDONING);
    assert [] + ABANDONING == ABANDONING;
    SecondQueued(second);
  }

  lemma SecondQueued(x: Payload)
    ensures Enqueued(NOTHING, x).events == x.events
  {
  }

  lemma CountsRaised(s: State, batch: Payload)
    requires s.senders == [Counting(batch)]
    ensures Next(s, OfSender(0, CountsRaise))
         == Some(s.(inFlight := false, senders := [], outcomes := s.outcomes + [Dropped(batch)]))
  {
    hide LoopTurn;
    assert s.senders[..0] + s.senders[1..] == [];
  }
}
