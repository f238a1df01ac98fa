/** Delivery when three groups of steps each happen without a pause: then no sender looks early, and no
    transaction is left unattended. */
module SchedulerRecovery {
  import opened Options
  import opened ServiceQueue
  import opened Scheduler
  import opened SchedulerOrder
  import opened SchedulerStranding

  // ---- Coarse steps ----

  /** The same machine with three groups of steps made atomic: looking whether the service is up and
      creating the transaction; failing, marking down and starting a recoverer; finding nothing left,
      dropping the recoverer and marking up. */
  datatype Coarse =
    | CEnqueue(x: Payload)
    | COtherServiceTakes
    | CCounted | CCountRaise
    | CCreate | CCheckRaise | CCreateRaise
    | CSent | CSendFailed
    | CCompleted | CCompleteRaise
    | CTimer | CFetch | CRetrySent | CRetryFailed | CRetryRaises | CRetryCompleted

  /** A batch is about to be stored: the service looks up, or there are events to keep for later. */
  predicate WillCreate(s: State) {
    |s.senders| > 0 && s.senders[0].Checking? && (s.mark != Down || s.senders[0].batch.events != [])
  }

  function Block(s: State, c: Coarse): seq<Step> {
    match c
    case CEnqueue(x) => [Enqueue(x)]
    case COtherServiceTakes => [OtherServiceTakes]
    case CCounted => [OfSender(0, CountsDone)]
    case CCountRaise => [OfSender(0, CountsRaise)]
    case CCreate => [OfSender(0, UpKnown)] + if WillCreate(s) then [OfSender(0, TxnCreated)] else []
    case CCheckRaise => [OfSender(0, UpRaise), DownWritten]
    case CCreateRaise => [OfSender(0, UpKnown), OfSender(0, CreateRaise), DownWritten]
    case CSent => [OfSender(0, Sent)]
    case CSendFailed => [OfSender(0, SendFailed), DownWritten]
    case CCompleted => [OfSender(0, Completed)]
    case CCompleteRaise => [OfSender(0, CompleteRaise), DownWritten]
    case CTimer => [OfRecoverer(TimerFires)]
    case CFetch => [OfRecoverer(OldestFetched)] + if s.unsent == {} then [UpWritten] else []
    case CRetrySent => [OfRecoverer(RetrySent)]
    case CRetryFailed => [OfRecoverer(RetryFailed)]
    case CRetryRaises => [OfRecoverer(RetryRaises)]
    case CRetryCompleted => [OfRecoverer(RetryCompleted)]
  }

  function CoarseAfter(counts: bool, cs: seq<Coarse>): Option<State> {
    if cs == [] then Some(Init(counts))
    else
      var before := CoarseAfter(counts, cs[..|cs| - 1]);
      if before.None? then None else Perform(before.value, Block(before.value, cs[|cs| - 1]))
  }

  // ---- What atomicity gives ----

  /** Between blocks the service is marked down exactly while it has a recoverer, nobody is about to
      mark it, and whatever is stored waits for the recoverer or is being delivered, alone. */
  ghost predicate Settled(s: State) {
    && s.failing == 0 && s.recovered == 0
    && |s.senders| == (if s.inFlight then 1 else 0)
    && (s.mark == Down <==> s.recoverer.Some?)
    && (|s.senders| > 0 ==> !s.senders[0].Creating?)
    && (s.mark != Down ==> s.unsent <= if Direct(s) then {s.senders[0].txn} else {})
    && (Direct(s) ==> s.mark != Down && s.senders[0].txn in s.unsent)
  }

  /** A turn of the loop ends a direct delivery and touches nothing else. */
  lemma TurnEnds(s: State)
    requires |s.senders| == 1 && s.inFlight
    ensures var t := LoopTurn(s, 0);
      && t == s.(pending := t.pending, inFlight := t.inFlight, senders := t.senders)
      && |t.senders| == (if t.inFlight then 1 else 0)
      && !Direct(t) && (|t.senders| > 0 ==> !t.senders[0].Creating?)
  {
    hide NextBatch, AfterBatch;
  }

  lemma OneStep(s: State, a: Step)
    ensures Perform(s, [a]) == Next(s, a)
  {
    hide Next;
    if Next(s, a).Some? {
      assert Perform(Next(s, a).value, [a][1..]) == Next(s, a);
    }
  }

  lemma TwoSteps(s: State, a: Step, b: Step)
    ensures Perform(s, [a, b]) == if Next(s, a).None? then None else Next(Next(s, a).value, b)
  {
    hide Next;
    assert [a, b][1..] == [b];
    if Next(s, a).Some? {
      OneStep(Next(s, a).value, b);
    }
  }

  lemma ThreeSteps(s: State, a: Step, b: Step, c: Step)
    ensures Perform(s, [a, b, c]) ==
      if Next(s, a).None? then None
      else if Next(Next(s, a).value, b).None? then None
      else Next(Next(Next(s, a).value, b).value, c)
  {
    hide Next;
    assert [a, b, c][1..] == [b, c];
    if Next(s, a).Some? {
      TwoSteps(Next(s, a).value, b, c);
    }
  }

  /** After a failure the service is down, with its recoverer, in one go. */
  lemma FailureSettles(s: State, t: State)
    requires Settled(s) && s.inFlight
    requires t == LoopTurn(Fail(s), 0) || exists batch :: t == LoopTurn(Fail(Drop(s, batch)), 0)
    ensures MarkDown(t).Some? && Settled(MarkDown(t).value)
  {
    hide LoopTurn;
    if t == LoopTurn(Fail(s), 0) {
      TurnEnds(Fail(s));
    } else {
      var batch :| t == LoopTurn(Fail(Drop(s, batch)), 0);
      TurnEnds(Fail(Drop(s, batch)));
    }
  }

  lemma FailureIsTurn(s: State, a: Step)
    requires Settled(s) && Next(s, a).Some?
    requires a == OfSender(0, UpRaise) || a == OfSender(0, SendFailed) || a == OfSender(0, CompleteRaise)
    ensures s.inFlight
    ensures Next(s, a).value == LoopTurn(Fail(s), 0)
         || exists batch :: Next(s, a).value == LoopTurn(Fail(Drop(s, batch)), 0)
  {
    hide LoopTurn;
    if a == OfSender(0, UpRaise) {
      assert Next(s, a).value == LoopTurn(Fail(Drop(s, s.senders[0].batch)), 0);
    }
  }

  lemma CreateRaiseSettles(s: State)
    requires Settled(s)
    requires Next(s, OfSender(0, UpKnown)).Some?
    requires Next(Next(s, OfSender(0, UpKnown)).value, OfSender(0, CreateRaise)).Some?
    ensures var t := Next(Next(s, OfSender(0, UpKnown)).value, OfSender(0, CreateRaise)).value;
      MarkDown(t).Some? && Settled(MarkDown(t).value)
  {
    hide LoopTurn;
    var b := s.senders[0].batch;
    if !WillCreate(s) {
      TurnEnds(Withhold(s, b));
    } else {
      TurnEnds(Fail(Drop(s.(senders := s.senders[0 := Creating(b, s.mark != Down)]), b)));
    }
  }

  lemma FailuresSettle(s: State, c: Coarse)
    requires Settled(s) && (c.CCheckRaise? || c.CCreateRaise? || c.CSendFailed? || c.CCompleteRaise?)
    requires Perform(s, Block(s, c)).Some?
    ensures Settled(Perform(s, Block(s, c)).value)
  {
    hide Perform, LoopTurn, MarkDown, Settled;
    var block := Block(s, c);
    if c.CCreateRaise? {
      ThreeSteps(s, block[0], block[1], block[2]);
      CreateRaiseSettles(s);
    } else {
      TwoSteps(s, block[0], block[1]);
      FailureIsTurn(s, block[0]);
      FailureSettles(s, Next(s, block[0]).value);
    }
  }

  lemma SenderSettles(s: State, c: Coarse)
    requires Settled(s) && (c.CCounted? || c.CCountRaise? || c.CSent? || c.CCompleted?)
    requires Perform(s, Block(s, c)).Some?
    ensures Settled(Perform(s, Block(s, c)).value)
  {
    hide Perform, LoopTurn;
    OneStep(s, Block(s, c)[0]);
    if c.CCompleted? {
      TurnEnds(Complete(s, s.senders[0].txn));
    }
  }

  lemma RecoverySettles(s: State, c: Coarse)
    requires Settled(s)
    requires c.CTimer? || c.CFetch? || c.CRetrySent? || c.CRetryFailed? || c.CRetryRaises? || c.CRetryCompleted?
    requires Perform(s, Block(s, c)).Some?
    ensures Settled(Perform(s, Block(s, c)).value)
  {
    hide Perform, LoopTurn, Send, Oldest;
    if c.CFetch? && s.unsent == {} {
      assert Block(s, c) == [OfRecoverer(OldestFetched), UpWritten];
      TwoSteps(s, OfRecoverer(OldestFetched), UpWritten);
    } else {
      assert Block(s, c) == [Block(s, c)[0]];
      OneStep(s, Block(s, c)[0]);
    }
  }

  lemma CreateSettles(s: State)
    requires Settled(s) && WillCreate(s)
    ensures Settled(Create(s.(senders := s.senders[0 := Creating(s.senders[0].batch, s.mark != Down)]), 0))
  {
    hide LoopTurn;
    var t := s.(senders := s.senders[0 := Creating(s.senders[0].batch, s.mark != Down)]);
    TurnEnds(t.(created := t.created + [s.senders[0].batch], unsent := t.unsent + {|t.created|},
                outcomes := t.outcomes + [Stored(s.senders[0].batch)]));
  }

  lemma OthersSettle(s: State, c: Coarse)
    requires Settled(s) && (c.CEnqueue? || c.COtherServiceTakes? || c.CCreate?)
    requires Perform(s, Block(s, c)).Some?
    ensures Settled(Perform(s, Block(s, c)).value)
  {
    hide Perform, LoopTurn, Create;
    if c.CCreate? && WillCreate(s) {
      assert Block(s, c) == [OfSender(0, UpKnown), OfSender(0, TxnCreated)];
      TwoSteps(s, OfSender(0, UpKnown), OfSender(0, TxnCreated));
      CreateSettles(s);
    } else {
      assert Block(s, c) == [Block(s, c)[0]];
      OneStep(s, Block(s, c)[0]);
      if c.CCreate? {
        TurnEnds(Withhold(s, s.senders[0].batch));
      } else if c.CEnqueue? && !s.inFlight {
        TurnEnds(s.(pending := Enqueued(s.pending, c.x), enqueued := s.enqueued + [c.x],
                    inFlight := true, senders := s.senders + [Checking(c.x)]));
      }
    }
  }

  lemma BlockSettles(s: State, c: Coarse)
    requires Settled(s) && Perform(s, Block(s, c)).Some?
    ensures Settled(Perform(s, Block(s, c)).value)
  {
    hide Settled, Perform, Block;
    if c.CCounted? || c.CCountRaise? || c.CSent? || c.CCompleted? {
      SenderSettles(s, c);
    } else if c.CCheckRaise? || c.CCreateRaise? || c.CSendFailed? || c.CCompleteRaise? {
      FailuresSettle(s, c);
    } else if c.CEnqueue? || c.COtherServiceTakes? || c.CCreate? {
      OthersSettle(s, c);
    } else {
      RecoverySettles(s, c);
    }
  }

  lemma {:induction false} CoarseSettles(counts: bool, cs: seq<Coarse>)
    requires CoarseAfter(counts, cs).Some?
    ensures Settled(CoarseAfter(counts, cs).value)
  {
    hide Perform, Block;
    if cs != [] {
      CoarseSettles(counts, cs[..|cs| - 1]);
      hide Settled;
      BlockSettles(CoarseAfter(counts, cs[..|cs| - 1]).value, cs[|cs| - 1]);
    }
  }

  // ---- As runs of the machine ----

  /** None of these steps looks early or stores a batch for nobody. */
  predicate Careful(s: State, steps: seq<Step>)
    decreases |steps|
  {
    steps != [] ==>
      && !LooksEarly(s, steps[0]) && !StoresForNobody(s, steps[0])
      && (Next(s, steps[0]).Some? ==> Careful(Next(s, steps[0]).value, steps[1..]))
  }

  lemma OneCareful(s: State, a: Step)
    requires !LooksEarly(s, a) && !StoresForNobody(s, a)
    ensures Careful(s, [a])
  {
    hide Next;
    assert [a][1..] == [];
  }

  lemma ConsCareful(s: State, a: Step, rest: seq<Step>)
    requires !LooksEarly(s, a) && !StoresForNobody(s, a)
    requires Next(s, a).Some? ==> Careful(Next(s, a).value, rest)
    ensures Careful(s, [a] + rest)
  {
    hide Next;
    assert ([a] + rest)[1..] == rest;
  }

  /** Steps other than these two are harmless wherever they are. */
  lemma {:induction false} HarmlessCareful(s: State, steps: seq<Step>)
    requires OfSender(0, UpKnown) !in steps && OfSender(0, TxnCreated) !in steps
    ensures Careful(s, steps)
    decreases |steps|
  {
    hide Next;
    if steps != [] && Next(s, steps[0]).Some? {
      HarmlessCareful(Next(s, steps[0]).value, steps[1..]);
    }
  }

  lemma BlockIsCareful(s: State, c: Coarse)
    requires Settled(s)
    ensures Careful(s, Block(s, c))
  {
    hide Next, Perform;
    if c.CCreate? || c.CCreateRaise? {
      LookIsSafe(s);
      var rest := Block(s, c)[1..];
      assert Block(s, c) == [OfSender(0, UpKnown)] + rest;
      if Next(s, OfSender(0, UpKnown)).Some? {
        var t := Next(s, OfSender(0, UpKnown)).value;
        if c.CCreate? && WillCreate(s) {
          StoringIsSafe(s);
          OneCareful(t, OfSender(0, TxnCreated));
        } else {
          HarmlessCareful(t, rest);
        }
      }
      ConsCareful(s, OfSender(0, UpKnown), rest);
    } else {
      HarmlessCareful(s, Block(s, c));
    }
  }

  lemma LookIsSafe(s: State)
    requires Settled(s)
    ensures !LooksEarly(s, OfSender(0, UpKnown)) && !StoresForNobody(s, OfSender(0, UpKnown))
  {
  }

  lemma StoringIsSafe(s: State)
    requires Settled(s) && WillCreate(s)
    ensures Next(s, OfSender(0, UpKnown)).Some?
    ensures !StoresForNobody(Next(s, OfSender(0, UpKnown)).value, OfSender(0, TxnCreated))
  {
  }

  lemma StepKeepsNoEarlyLook(counts: bool, before: seq<Step>, a: Step)
    requires After(counts, before).Some? && NoEarlyLook(counts, before, 0)
        && !LooksEarly(After(counts, before).value, a)
    ensures NoEarlyLook(counts, before + [a], 0)
  {
    hide LooksEarly, After;
    var all := before + [a];
    forall i: nat | i < |all| && After(counts, all[..i]).Some?
        ensures !LooksEarly(After(counts, all[..i]).value, all[i]) {
      if i < |before| {
        assert all[..i] == before[..i];
      } else {
        assert all[..i] == before;
      }
    }
  }

  lemma {:induction false} CarefulExtends(counts: bool, before: seq<Step>, steps: seq<Step>)
    requires After(counts, before).Some? && Perform(After(counts, before).value, steps).Some?
    requires NoEarlyLook(counts, before, 0) && NeverStoresForNobody(counts, before)
    requires Careful(After(counts, before).value, steps)
    ensures After(counts, before + steps) == Perform(After(counts, before).value, steps)
    ensures NoEarlyLook(counts, before + steps, 0) && NeverStoresForNobody(counts, before + steps)
    decreases |steps|
  {
    hide Next, NoEarlyLook, LooksEarly, StoresForNobody;
    if steps == [] {
      assert before + steps == before;
    } else {
      assert (before + [steps[0]])[..|before|] == before;
      StepKeepsNoEarlyLook(counts, before, steps[0]);
      CarefulExtends(counts, before + [steps[0]], steps[1..]);
      assert before + [steps[0]] + steps[1..] == before + steps;
    }
  }

  /** Every coarse run is a run of the machine in which no sender looks early and no batch is stored for
      a recoverer that has gone. */
  lemma {:induction false} CoarseRunsAreRuns(counts: bool, cs: seq<Coarse>) returns (steps: seq<Step>)
    requires CoarseAfter(counts, cs).Some?
    ensures After(counts, steps) == CoarseAfter(counts, cs)
    ensures NoEarlyLook(counts, steps, 0) && NeverStoresForNobody(counts, steps)
  {
    hide Next, Block, Perform, NoEarlyLook, Settled;
    if cs == [] {
      steps := [];
      NothingLooked(counts);
    } else {
      var before := CoarseRunsAreRuns(counts, cs[..|cs| - 1]);
      var s := After(counts, before).value;
      var block := Block(s, cs[|cs| - 1]);
      CoarseSettles(counts, cs[..|cs| - 1]);
      BlockIsCareful(s, cs[|cs| - 1]);
      CarefulExtends(counts, before, block);
      steps := before + block;
    }
  }

  lemma NothingLooked(counts: bool)
    ensures NoEarlyLook(counts, [], 0)
  {
  }

  /** So in every coarse run transactions are completed in order, a service is down exactly while it has
      a recoverer, whatever is stored has a recoverer or is the one direct delivery, and a direct
      delivery is of the only stored transaction. */
  lemma RecoveryIsInOrder(counts: bool, cs: seq<Coarse>)
    requires CoarseAfter(counts, cs).Some?
    ensures var s := CoarseAfter(counts, cs).value;
      && InSequence(s)
      && (s.mark == Down <==> s.recoverer.Some?)
      && (s.unsent != {} ==> s.recoverer.Some? || Direct(s))
      && (Direct(s) ==> s.unsent == {s.senders[0].txn})
  {
    hide Block, Perform, NoEarlyLook;
    CoarseSettles(counts, cs);
    var steps := CoarseRunsAreRuns(counts, cs);
    OrderWithoutEarlyLooks(counts, steps);
  }

  /** ... and the events that the service has confirmed are a prefix of those enqueued, while no batch is
      dropped, as is all other data while none is withheld. */
  lemma {:induction false} CoarseConfirmsPrefix(counts: bool, cs: seq<Coarse>, kind: Kind)
    requires CoarseAfter(counts, cs).Some?
    requires forall o <- CoarseAfter(counts, cs).value.outcomes :: o.Stored? || (o.Withheld? && kind.Events?)
    ensures var s := CoarseAfter(counts, cs).value;
      && (forall i | 0 <= i < |s.completed| :: s.completed[i] < |s.created|)
      && Items(kind, Delivered(s)) <= Items(kind, s.enqueued)
  {
    var steps := CoarseRunsAreRuns(counts, cs);
    ConfirmedIsPrefixOfEnqueued(counts, steps, kind);
  }
}
