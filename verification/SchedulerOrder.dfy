/** Delivery order at the granularity of single pauses: transactions can overtake each other, and do
    so only after a sender finds the service up while an earlier transaction is still stored. */
module SchedulerOrder {
  import opened Options
  import opened ServiceQueue
  import opened Scheduler

  /** The IDs 0 to n - 1 in order. */
  function Ids(n: nat): (ids: seq<nat>)
    ensures |ids| == n && forall i | 0 <= i < n :: ids[i] == i
  {
    if n == 0 then [] else Ids(n - 1) + [n - 1]
  }

  // ---- Sequences of steps ----

  /** The effect of steps from a state, first to last. */
  function Perform(s: State, steps: seq<Step>): Option<State>
    decreases |steps|
  {
    if steps == [] then Some(s)
    else
      var t := Next(s, steps[0]);
      if t.None? then None else Perform(t.value, steps[1..])
  }

  lemma {:induction false} PerformExtends(counts: bool, before: seq<Step>, steps: seq<Step>)
    requires After(counts, before).Some? && Perform(After(counts, before).value, steps).Some?
    ensures After(counts, before + steps) == Perform(After(counts, before).value, steps)
    decreases |steps|
  {
    hide Next;
    if steps == [] {
      assert before + steps == before;
    } else {
      assert (before + [steps[0]])[..|before|] == before;
      PerformExtends(counts, before + [steps[0]], steps[1..]);
      assert before + [steps[0]] + steps[1..] == before + steps;
    }
  }

  lemma {:induction false} Chain(s: State, steps: seq<Step>, states: seq<State>)
    requires |states| == |steps| + 1 && states[0] == s
    requires forall i | 0 <= i < |steps| :: Next(states[i], steps[i]) == Some(states[i + 1])
    ensures Perform(s, steps) == Some(states[|steps|])
    decreases |steps|
  {
    hide Next;
    if steps != [] {
      assert Next(states[0], steps[0]) == Some(states[1]);
      Chain(states[1], steps[1..], states[1..]);
    }
  }

  // ---- In order ----

  /** The unsent transactions are those created after the completed ones. */
  ghost predicate UnsentIsRest(s: State) {
    forall id :: id in s.unsent <==> |s.completed| <= id < |s.created|
  }

  /** Transactions have been completed in the order of their creation, none left out. */
  ghost predicate InSequence(s: State) {
    s.completed == Ids(|s.completed|) && |s.completed| <= |s.created| && UnsentIsRest(s)
  }

  /** A sender looks, and finds the service up, while a transaction is still stored. */
  predicate LooksEarly(s: State, a: Step) {
    && a == OfSender(0, UpKnown)
    && |s.senders| > 0 && s.senders[0].Checking?
    && s.mark != Down && s.unsent != {}
  }

  /** What a sender and the recoverer are working on is the next transaction to complete, or one that
      the other has completed meanwhile. */
  ghost predicate Ordered(s: State) {
    && |s.senders| == (if s.inFlight then 1 else 0)
    && InSequence(s)
    && (|s.senders| > 0 ==>
          match s.senders[0]
          case Creating(_, up) => up ==> s.unsent == {}
          case Sending(id) => id == |s.created| - 1 <= |s.completed|
          case Completing(id) => id == |s.created| - 1 <= |s.completed|
          case _ => true)
    && (s.recoverer.Some? ==>
          match s.recoverer.value.phase
          case Retrying(id) => id <= |s.completed| && id < |s.created|
          case Finishing(id) => id <= |s.completed| && id < |s.created|
          case _ => true)
  }

  /** A turn of the loop leaves the sender with nothing created. */
  lemma TurnKeepsOrder(s: State)
    requires |s.senders| == 1 && s.inFlight && InSequence(s)
    requires s.recoverer.Some? ==>
      match s.recoverer.value.phase
      case Retrying(id) => id <= |s.completed| && id < |s.created|
      case Finishing(id) => id <= |s.completed| && id < |s.created|
      case _ => true
    ensures Ordered(LoopTurn(s, 0))
    ensures var t := LoopTurn(s, 0); t.completed == s.completed && t.created == s.created && t.unsent == s.unsent
  {
    hide NextBatch, AfterBatch, Ids;
  }

  /** Completing the next transaction advances the sequence; completing an earlier one again does
      nothing. */
  lemma CompleteInSequence(s: State, id: nat)
    requires InSequence(s) && id <= |s.completed| && id < |s.created|
    ensures var t := Complete(s, id);
      && t == s.(unsent := t.unsent, completed := t.completed)
      && InSequence(t) && |s.completed| <= |t.completed| && t.unsent <= s.unsent && id < |t.completed|
  {
  }

  lemma OldestIsNext(s: State)
    requires UnsentIsRest(s) && s.unsent != {}
    ensures Oldest(s.unsent) == |s.completed| < |s.created|
  {
    var i :| i in s.unsent;
    assert |s.completed| in s.unsent;
  }

  lemma CreateKeepsOrder(s: State)
    requires Ordered(s) && s.inFlight && s.senders[0].Creating?
    ensures Ordered(Create(s, 0))
  {
    hide LoopTurn, Ids;
    var Creating(batch, up) := s.senders[0];
    var t := s.(created := s.created + [batch], unsent := s.unsent + {|s.created|},
                outcomes := s.outcomes + [Stored(batch)]);
    assert UnsentIsRest(t);
    TurnKeepsOrder(t);
    assert up ==> |s.completed| in s.unsent || |s.completed| == |s.created|;
  }

  lemma SendKeepsOrder(s: State, what: SenderStep)
    requires Ordered(s) && s.inFlight && Send(s, what, 0).Some? && !LooksEarly(s, OfSender(0, what))
    ensures Ordered(Send(s, what, 0).value)
  {
    hide LoopTurn, Create, Complete, Ids;
    match what
    case TxnCreated => CreateKeepsOrder(s);
    case Completed =>
      CompleteInSequence(s, s.senders[0].txn);
      TurnKeepsOrder(Complete(s, s.senders[0].txn));
    case UpRaise => TurnKeepsOrder(Fail(Drop(s, s.senders[0].batch)));
    case CreateRaise => TurnKeepsOrder(Fail(Drop(s, s.senders[0].batch)));
    case SendFailed => TurnKeepsOrder(Fail(s));
    case CompleteRaise => TurnKeepsOrder(Fail(s));
    case UpKnown =>
      if s.senders[0].Checking? {
        TurnKeepsOrder(Withhold(s, s.senders[0].batch));
      }
    case _ =>
  }

  lemma RecoverKeepsOrder(s: State, did: RecovererStep)
    requires Ordered(s) && Recover(s, did).Some?
    ensures Ordered(Recover(s, did).value)
  {
    hide Complete, Ids, Oldest;
    if did.OldestFetched? && s.unsent != {} {
      OldestIsNext(s);
    }
    if did.RetryCompleted? {
      CompleteInSequence(s, s.recoverer.value.phase.txn);
    }
  }

  lemma StepKeepsOrder(s: State, a: Step)
    requires Ordered(s) && Next(s, a).Some? && !LooksEarly(s, a)
    ensures Ordered(Next(s, a).value)
  {
    hide Send, Recover, LoopTurn, Ids;
    match a
    case Enqueue(x) =>
      if !x.Empty() && !s.inFlight {
        TurnKeepsOrder(s.(pending := Enqueued(s.pending, x), enqueued := s.enqueued + [x],
                          inFlight := true, senders := s.senders + [Checking(x)]));
      }
    case OfSender(i, what) => SendKeepsOrder(s, what);
    case OfRecoverer(did) => RecoverKeepsOrder(s, did);
    case _ =>
  }

  /** No sender looks early in the steps from `from` on. */
  ghost predicate NoEarlyLook(counts: bool, steps: seq<Step>, from: nat) {
    forall i: nat | from <= i < |steps| && After(counts, steps[..i]).Some? ::
      !LooksEarly(After(counts, steps[..i]).value, steps[i])
  }

  /** At every pause of every run in which no sender looks early, transactions are completed in the
      order of their creation, none left out. */
  lemma {:induction false} OrderWithoutEarlyLooks(counts: bool, steps: seq<Step>)
    requires After(counts, steps).Some? && NoEarlyLook(counts, steps, 0)
    ensures Ordered(After(counts, steps).value)
  {
    hide Next, Ordered, LooksEarly;
    if steps == [] {
      StartsOrdered(counts);
    } else {
      var n := |steps| - 1;
      forall i: nat | i < n ensures steps[..n][..i] == steps[..i] && steps[..n][i] == steps[i] {
      }
      OrderWithoutEarlyLooks(counts, steps[..n]);
      StepKeepsOrder(After(counts, steps[..n]).value, steps[n]);
    }
  }

  lemma StartsOrdered(counts: bool)
    ensures Ordered(Init(counts))
  {
  }

  /** The four steps of an undisturbed direct delivery. */
  const DELIVERY: seq<Step> :=
    [OfSender(0, UpKnown), OfSender(0, TxnCreated), OfSender(0, Sent), OfSender(0, Completed)]

  lemma Creates(s: State, batch: Payload)
    requires s.senders == [Checking(batch)] && s.mark != Down
    ensures Next(s, OfSender(0, UpKnown)) == Some(s.(senders := [Creating(batch, true)]))
    ensures Next(s.(senders := [Creating(batch, true)]), OfSender(0, TxnCreated))
         == Some(s.(senders := [Sending(|s.created|)], created := s.created + [batch],
                    unsent := s.unsent + {|s.created|}, outcomes := s.outcomes + [Stored(batch)]))
  {
    hide LoopTurn;
    assert s.senders[0 := Creating(batch, true)] == [Creating(batch, true)];
    assert [Creating(batch, true)][0 := Sending(|s.created|)] == [Sending(|s.created|)];
  }

  lemma Finishes(s: State, id: nat)
    requires s.senders == [Sending(id)]
    ensures Next(s, OfSender(0, Sent)) == Some(s.(senders := [Completing(id)]))
    ensures var t := s.(senders := [Completing(id)]);
      |Complete(t, id).senders| == 1 && Next(t, OfSender(0, Completed)) == Some(LoopTurn(Complete(t, id), 0))
  {
    hide LoopTurn;
    assert s.senders[0 := Completing(id)] == [Completing(id)];
  }

  /** ... of which the last ends in a turn of the loop. */
  lemma DeliveryPerformed(s: State, batch: Payload)
    requires s.senders == [Checking(batch)] && s.inFlight && s.mark != Down
    ensures var t := s.(senders := [Completing(|s.created|)], created := s.created + [batch],
                        unsent := s.unsent + {|s.created|}, outcomes := s.outcomes + [Stored(batch)]);
      Perform(s, DELIVERY) == Some(LoopTurn(Complete(t, |s.created|), 0))
  {
    hide LoopTurn, Complete, Next;
    var id := |s.created|;
    var s1 := s.(senders := [Creating(batch, true)]);
    var s2 := s.(senders := [Sending(id)], created := s.created + [batch],
                 unsent := s.unsent + {id}, outcomes := s.outcomes + [Stored(batch)]);
    var s3 := s2.(senders := [Completing(id)]);
    Creates(s, batch);
    Finishes(s2, id);
    Chain(s, DELIVERY, [s, s1, s2, s3, LoopTurn(Complete(s3, id), 0)]);
  }

  /** Where the sender has just been told that the service is up, an undisturbed delivery keeps the
      order exactly when nothing is stored. */
  lemma DeliveryKeepsOrderExactly(s: State)
    requires Ordered(s) && s.inFlight && s.senders[0].Checking? && s.mark != Down
    ensures Perform(s, DELIVERY).Some?
    ensures InSequence(Perform(s, DELIVERY).value) <==> s.unsent == {}
  {
    hide LoopTurn, Perform;
    var batch, id := s.senders[0].batch, |s.created|;
    DeliveryPerformed(s, batch);
    var t := s.(senders := [Completing(id)], created := s.created + [batch],
                unsent := s.unsent + {id}, outcomes := s.outcomes + [Stored(batch)]);
    var u := Complete(t, id);
    TurnEffect(u);
    assert u.completed == s.completed + [id] && u.unsent == s.unsent;
    if s.unsent == {} {
      assert |s.completed| < id ==> |s.completed| in s.unsent;
      assert Ids(id + 1) == s.completed + [id];
    } else {
      var other :| other in s.unsent;
      assert u.completed[|s.completed|] == id != |s.completed|;
    }
  }

  lemma TurnEffect(s: State)
    requires |s.senders| == 1 && s.inFlight
    ensures var t := LoopTurn(s, 0); t.completed == s.completed && t.created == s.created && t.unsent == s.unsent
  {
    hide NextBatch, AfterBatch;
  }

  /** A single look at the service can lead to disorder, with no early look after it. */
  ghost predicate LookLeadsAstray(counts: bool, steps: seq<Step>) {
    exists more: seq<Step> :: var all := steps + [OfSender(0, UpKnown)] + more;
      After(counts, all).Some? && NoEarlyLook(counts, all, |steps| + 1) && !InSequence(After(counts, all).value)
  }

  lemma LaterLooksOnly(counts: bool, steps: seq<Step>, more: seq<Step>)
    requires NoEarlyLook(counts, steps, 0) && After(counts, steps).Some?
    requires !LooksEarly(After(counts, steps).value, OfSender(0, UpKnown))
    requires NoEarlyLook(counts, steps + [OfSender(0, UpKnown)] + more, |steps| + 1)
    ensures NoEarlyLook(counts, steps + [OfSender(0, UpKnown)] + more, 0)
  {
    hide LooksEarly, After;
    var all := steps + [OfSender(0, UpKnown)] + more;
    forall i: nat | i < |all| && After(counts, all[..i]).Some?
        ensures !LooksEarly(After(counts, all[..i]).value, all[i]) {
      if i <= |steps| {
        assert all[..i] == steps[..i];
        assert steps[..|steps|] == steps;
      }
    }
  }

  lemma DeliveryHasOneLook(counts: bool, steps: seq<Step>)
    ensures NoEarlyLook(counts, steps + DELIVERY, |steps| + 1)
  {
    hide After;
  }

  /** A sender that looks can bring transactions out of order if and only if it finds the service up
      while a transaction is stored. */
  lemma EarlyLooksLeadAstray(counts: bool, steps: seq<Step>)
    requires After(counts, steps).Some? && NoEarlyLook(counts, steps, 0)
    requires Next(After(counts, steps).value, OfSender(0, UpKnown)).Some?
    ensures LookLeadsAstray(counts, steps) <==> LooksEarly(After(counts, steps).value, OfSender(0, UpKnown))
  {
    var s, look := After(counts, steps).value, OfSender(0, UpKnown);
    OrderWithoutEarlyLooks(counts, steps);
    if LooksEarly(s, look) {
      DeliveryKeepsOrderExactly(s);
      hide After, Next, Perform, NoEarlyLook, InSequence;
      PerformExtends(counts, steps, DELIVERY);
      DeliveryHasOneLook(counts, steps);
      assert steps + [look] + DELIVERY[1..] == steps + DELIVERY;
    } else {
      hide After, Next, NoEarlyLook, InSequence;
      forall more: seq<Step>
        | After(counts, steps + [look] + more).Some? && NoEarlyLook(counts, steps + [look] + more, |steps| + 1)
        ensures InSequence(After(counts, steps + [look] + more).value)
      {
        LaterLooksOnly(counts, steps, more);
        OrderWithoutEarlyLooks(counts, steps + [look] + more);
      }
    }
  }

  /** The completed transactions, in the order of completion. */
  function Delivered(s: State): seq<Payload>
    requires forall i | 0 <= i < |s.completed| :: s.completed[i] < |s.created|
  {
    seq(|s.completed|, i requires 0 <= i < |s.completed| => s.created[s.completed[i]])
  }

  lemma {:induction false} ItemsOfPrefix(kind: Kind, parts: seq<Payload>, n: nat)
    requires n <= |parts|
    ensures Items(kind, parts[..n]) <= Items(kind, parts)
  {
    assert parts == parts[..n] + parts[n..];
    ItemsJoin(kind, parts[..n], parts[n..]);
  }

  lemma DeliveredInSequence(s: State)
    requires InSequence(s)
    ensures |s.completed| <= |s.created| && forall i | 0 <= i < |s.completed| :: s.completed[i] < |s.created|
    ensures Delivered(s) == s.created[..|s.completed|]
  {
  }

  /** What is stored is a prefix of what was enqueued. */
  lemma StoredIsPrefix(s: State, kind: Kind)
    requires Conserved(s) && forall o <- s.outcomes :: o.Stored? || Of(kind, o.batch) == []
    ensures Items(kind, s.created) <= Items(kind, s.enqueued)
  {
    hide Of, QueueOf;
    StoredHoldsAll(kind, s.outcomes);
    hide Items, Batches, StoredOf;
    ItemsJoin(kind, Batches(s.outcomes), InHand(s));
  }

  /** End to end: while no sender looks early and no batch is dropped, the events that the service has
      confirmed are a prefix of those enqueued for it, each once and in order; and so is all other data
      while no batch is withheld either. */
  lemma {:induction false} ConfirmedIsPrefixOfEnqueued(counts: bool, steps: seq<Step>, kind: Kind)
    requires After(counts, steps).Some? && NoEarlyLook(counts, steps, 0)
    requires forall o <- After(counts, steps).value.outcomes :: o.Stored? || (o.Withheld? && kind.Events?)
    ensures var s := After(counts, steps).value;
      && (forall i | 0 <= i < |s.completed| :: s.completed[i] < |s.created|)
      && Items(kind, Delivered(s)) <= Items(kind, s.enqueued)
  {
    var s := After(counts, steps).value;
    OrderWithoutEarlyLooks(counts, steps);
    QueueConserved(counts, steps);
    OutcomesHaveCauses(counts, steps);
    hide After, NoEarlyLook, Items, InSequence;
    DeliveredInSequence(s);
    hide Conserved, Delivered;
    StoredIsPrefix(s, kind);
    ItemsOfPrefix(kind, s.created, |s.completed|);
  }
}
