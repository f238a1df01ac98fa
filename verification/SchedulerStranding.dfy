/** Whether somebody is there for every stored transaction. */
module SchedulerStranding {
  import opened Options
  import opened ServiceQueue
  import opened Scheduler

  /** The sender is delivering a transaction directly. */
  predicate Direct(s: State) {
    |s.senders| > 0 && (s.senders[0].Sending? || s.senders[0].Completing?)
  }

  /** Every stored transaction has a recoverer, now or as soon as a failure is marked, or is the one
      that the sender is delivering. */
  ghost predicate Attended(s: State) {
    || s.unsent == {}
    || s.recoverer.Some?
    || s.failing > 0
    || (Direct(s) && s.unsent <= {s.senders[0].txn})
  }

  /** A batch is stored for a recoverer that has gone meanwhile: the sender found the service down,
      and before it stored the batch the recoverer found nothing left to do. */
  predicate StoresForNobody(s: State, a: Step) {
    && a == OfSender(0, TxnCreated)
    && |s.senders| > 0 && s.senders[0].Creating? && !s.senders[0].up
    && s.recoverer.None? && s.failing == 0
  }

  lemma TurnAttends(s: State)
    requires |s.senders| == 1 && s.inFlight
    ensures Attended(LoopTurn(s, 0)) <==> s.unsent == {} || s.recoverer.Some? || s.failing > 0
  {
    hide NextBatch, AfterBatch;
  }

  lemma SendAttends(s: State, what: SenderStep)
    requires OneSender(s) && s.inFlight && Attended(s) && Send(s, what, 0).Some?
    ensures Attended(Send(s, what, 0).value) <==> !StoresForNobody(s, OfSender(0, what))
  {
    hide LoopTurn;
    var sender := s.senders[0];
    match what
    case TxnCreated =>
      TurnAttends(s.(created := s.created + [sender.batch], unsent := s.unsent + {|s.created|},
                     outcomes := s.outcomes + [Stored(sender.batch)]));
      assert |s.created| in s.unsent + {|s.created|};
    case Completed => TurnAttends(Complete(s, sender.txn));
    case UpRaise => TurnAttends(Fail(Drop(s, sender.batch)));
    case CreateRaise => TurnAttends(Fail(Drop(s, sender.batch)));
    case SendFailed => TurnAttends(Fail(s));
    case CompleteRaise => TurnAttends(Fail(s));
    case UpKnown =>
      if sender.Checking? {
        TurnAttends(Withhold(s, sender.batch));
      }
    case _ =>
  }

  /** Such a step, and no other, leaves a stored transaction unattended. */
  lemma StepAttends(s: State, a: Step)
    requires OneSender(s) && Attended(s) && Next(s, a).Some?
    ensures Attended(Next(s, a).value) <==> !StoresForNobody(s, a)
  {
    hide Send, LoopTurn;
    match a
    case Enqueue(x) =>
      if !x.Empty() && !s.inFlight {
        TurnAttends(s.(pending := Enqueued(s.pending, x), enqueued := s.enqueued + [x],
                       inFlight := true, senders := s.senders + [Checking(x)]));
      }
    case OfSender(i, what) => SendAttends(s, what);
    case _ =>
  }

  /** ... at every pause of a run. */
  ghost predicate AlwaysAttended(counts: bool, steps: seq<Step>)
    requires After(counts, steps).Some?
  {
    Attended(After(counts, steps).value) && (steps == [] || AlwaysAttended(counts, steps[..|steps| - 1]))
  }

  predicate NeverStoresForNobody(counts: bool, steps: seq<Step>)
    requires After(counts, steps).Some?
  {
    steps == []
    || (&& NeverStoresForNobody(counts, steps[..|steps| - 1])
        && !StoresForNobody(After(counts, steps[..|steps| - 1]).value, steps[|steps| - 1]))
  }

  /** A run has somebody there for every stored transaction at every pause if and only if no batch was
      stored for a recoverer that had gone. */
  lemma {:induction false} AttendedExactly(counts: bool, steps: seq<Step>)
    requires After(counts, steps).Some?
    ensures AlwaysAttended(counts, steps) <==> NeverStoresForNobody(counts, steps)
  {
    hide Next, Attended, StoresForNobody;
    if steps == [] {
      StartsAttended(counts);
    } else {
      var before := steps[..|steps| - 1];
      AttendedExactly(counts, before);
      QueueConserved(counts, before);
      if AlwaysAttended(counts, before) {
        StepAttends(After(counts, before).value, steps[|steps| - 1]);
      }
    }
  }

  lemma StartsAttended(counts: bool)
    ensures Attended(Init(counts))
  {
  }
}
