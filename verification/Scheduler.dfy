/** Delivery to one application service, as a machine whose steps are the stretches of code between
    two pauses: the senders, the writes that mark the service up or down, and the recoverer. */
module Scheduler {
  import opened Options
  import opened ServiceQueue

  /** Where a sender is paused. */
  datatype Sender =
    | Counting(batch: Payload)
    | Checking(batch: Payload)
    | Creating(batch: Payload, up: bool)
    | Sending(txn: nat)
    | Completing(txn: nat)

  datatype Phase = Waiting | Fetching | Retrying(txn: nat) | Finishing(txn: nat)

  datatype Recoverer = Recoverer(backoff: nat, phase: Phase)

  datatype Mark = Unknown | Up | Down

  /** What became of a batch: a stored transaction; or nothing, because a call raised or because it has
      no events and the service is down. */
  datatype Outcome = Stored(batch: Payload) | Dropped(batch: Payload) | Withheld(batch: Payload)

  datatype State = State(
    counts: bool, // whether key counts are computed for each batch
    pending: Pending,
    inFlight: bool,
    senders: seq<Sender>,
    created: seq<Payload>, // transactions by ID
    unsent: set<nat>, // the IDs still stored
    completed: seq<nat>,
    mark: Mark,
    failing: nat, // tasks about to mark the service down
    recoverer: Option<Recoverer>,
    recovered: nat, // recoverers that are done and about to mark the service up
    enqueued: seq<Payload>, // history
    outcomes: seq<Outcome> // history
  )

  function Init(counts: bool): State {
    State(counts, NOTHING, false, [], [], {}, [], Unknown, 0, None, 0, [], [])
  }

  datatype SenderStep =
    | CountsDone | CountsRaise
    | UpKnown | UpRaise
    | TxnCreated | CreateRaise
    | Sent | SendFailed
    | Completed | CompleteRaise

  datatype RecovererStep = TimerFires | OldestFetched | RetrySent | RetryFailed | RetryRaises | RetryCompleted

  datatype Step =
    | Enqueue(x: Payload)
    | OtherServiceTakes
    | OfSender(i: nat, what: SenderStep)
    | OfRecoverer(did: RecovererStep)
    | DownWritten
    | UpWritten

  /** A sender at the top of its loop takes a batch, or stops when there is nothing. */
  function LoopTurn(s: State, i: nat): State
    requires i < |s.senders|
  {
    var batch := NextBatch(s.pending);
    var rest := s.(pending := AfterBatch(s.pending));
    if batch.Empty() then Vanish(rest, i)
    else rest.(senders := s.senders[i := if s.counts then Counting(batch) else Checking(batch)])
  }

  /** Enqueueing starts a sender if none is in flight; it runs at once until its first pause. */
  function DoEnqueue(s: State, x: Payload): State {
    if x.Empty() then s
    else
      var t := s.(pending := Enqueued(s.pending, x), enqueued := s.enqueued + [x]);
      if s.inFlight then t
      else LoopTurn(t.(inFlight := true, senders := s.senders + [Checking(x)]), |s.senders|)
  }

  function Drop(s: State, batch: Payload): State {
    s.(outcomes := s.outcomes + [Dropped(batch)])
  }

  function Withhold(s: State, batch: Payload): State {
    s.(outcomes := s.outcomes + [Withheld(batch)])
  }

  function Fail(s: State): State {
    s.(failing := s.failing + 1)
  }

  /** The transaction is stored; it is sent directly if the service looked up. */
  function Create(s: State, i: nat): State
    requires i < |s.senders| && s.senders[i].Creating?
  {
    var Creating(batch, up) := s.senders[i];
    var id := |s.created|;
    var t := s.(created := s.created + [batch], unsent := s.unsent + {id},
                outcomes := s.outcomes + [Stored(batch)]);
    if up then t.(senders := t.senders[i := Sending(id)]) else LoopTurn(t, i)
  }

  /** The row goes, if it is still there. */
  function Complete(s: State, id: nat): State {
    if id in s.unsent then s.(unsent := s.unsent - {id}, completed := s.completed + [id]) else s
  }

  predicate IsOldest(unsent: set<nat>, id: nat) {
    id in unsent && forall other <- unsent :: id <= other
  }

  function Oldest(unsent: set<nat>): (id: nat)
    requires unsent != {}
    ensures IsOldest(unsent, id)
  {
    Least(unsent)
  }

  /** The effect of one step, if it can happen. */
  function Next(s: State, a: Step): Option<State> {
    match a
    case Enqueue(x) => Some(DoEnqueue(s, x))
    case OtherServiceTakes => Some(s.(pending := s.pending.(summaries := [])))
    case OfSender(i, what) => if i < |s.senders| then Send(s, what, i) else None
    case OfRecoverer(did) => Recover(s, did)
    case DownWritten => MarkDown(s)
    case UpWritten =>
      if s.recovered == 0 then None else Some(s.(recovered := s.recovered - 1, mark := Up))
  }

  /** The service is marked down, and gets a recoverer unless it has one. */
  function MarkDown(s: State): Option<State> {
    if s.failing == 0 then None
    else
      var t := s.(failing := s.failing - 1, mark := Down);
      Some(if s.recoverer.Some? then t else t.(recoverer := Some(Recoverer(1, Waiting))))
  }

  /** The steps of a sender. */
  function Send(s: State, what: SenderStep, i: nat): Option<State>
    requires i < |s.senders|
  {
    match (what, s.senders[i])
    case (CountsDone, Counting(batch)) => Some(s.(senders := s.senders[i := Checking(batch)]))
    case (CountsRaise, Counting(batch)) => Some(Vanish(Drop(s, batch), i))
    case (UpKnown, Checking(batch)) =>
      var up := s.mark != Down;
      if !up && batch.events == [] then Some(LoopTurn(Withhold(s, batch), i))
      else Some(s.(senders := s.senders[i := Creating(batch, up)]))
    case (UpRaise, Checking(batch)) => Some(LoopTurn(Fail(Drop(s, batch)), i))
    case (TxnCreated, Creating(_, _)) => Some(Create(s, i))
    case (CreateRaise, Creating(batch, _)) => Some(LoopTurn(Fail(Drop(s, batch)), i))
    case (Sent, Sending(id)) => Some(s.(senders := s.senders[i := Completing(id)]))
    case (SendFailed, Sending(_)) => Some(LoopTurn(Fail(s), i))
    case (Completed, Completing(id)) => Some(LoopTurn(Complete(s, id), i))
    case (CompleteRaise, Completing(_)) => Some(LoopTurn(Fail(s), i))
    case _ => None
  }

  function Vanish(s: State, i: nat): State
    requires i < |s.senders|
  {
    s.(inFlight := false, senders := s.senders[..i] + s.senders[i + 1..])
  }

  /** The steps of the recoverer. */
  function Recover(s: State, did: RecovererStep): Option<State> {
    if s.recoverer.None? then None
    else
      var Recoverer(backoff, phase) := s.recoverer.value;
      match (did, phase)
      case (TimerFires, Waiting) => Some(s.(recoverer := Some(Recoverer(backoff, Fetching))))
      case (OldestFetched, Fetching) =>
        if s.unsent == {} then Some(s.(recoverer := None, recovered := s.recovered + 1))
        else Some(s.(recoverer := Some(Recoverer(backoff, Retrying(Oldest(s.unsent))))))
      case (RetrySent, Retrying(id)) => Some(s.(recoverer := Some(Recoverer(backoff, Finishing(id)))))
      case (RetryFailed, Retrying(_)) => Some(s.(recoverer := Some(Recoverer(Slower(backoff), Waiting))))
      case (RetryRaises, _) =>
        if phase.Waiting? then None else Some(s.(recoverer := Some(Recoverer(Slower(backoff), Waiting))))
      case (RetryCompleted, Finishing(id)) => Some(Complete(s, id).(recoverer := Some(Recoverer(1, Fetching))))
      case _ => None
  }

  function Slower(backoff: nat): nat {
    if backoff < 9 then backoff + 1 else backoff
  }

  /** The state after a sequence of steps, if each could happen in turn. */
  function After(counts: bool, steps: seq<Step>): Option<State> {
    if steps == [] then Some(Init(counts))
    else
      var before := After(counts, steps[..|steps| - 1]);
      if before.None? then None else Next(before.value, steps[|steps| - 1])
  }

  predicate Raises(a: Step) {
    a.OfSender? && (a.what.CountsRaise? || a.what.UpRaise? || a.what.CreateRaise?)
  }

  /** A delivery has failed: the service did not take it, or a call raised after the batch was complete. */
  predicate Fails(what: SenderStep) {
    what.UpRaise? || what.CreateRaise? || what.SendFailed? || what.CompleteRaise?
  }

  // ---- Queue conservation ----

  /** The items of one kind in payloads, in order. */
  function Items(kind: Kind, parts: seq<Payload>): seq<Item> {
    if parts == [] then [] else Items(kind, parts[..|parts| - 1]) + Of(kind, parts[|parts| - 1])
  }

  function Batches(outcomes: seq<Outcome>): seq<Payload> {
    seq(|outcomes|, i requires 0 <= i < |outcomes| => outcomes[i].batch)
  }

  function StoredOf(outcomes: seq<Outcome>): seq<Payload> {
    if outcomes == [] then []
    else StoredOf(outcomes[..|outcomes| - 1])
         + if outcomes[|outcomes| - 1].Stored? then [outcomes[|outcomes| - 1].batch] else []
  }

  /** What a sender has in its hands. */
  function Held(sender: Sender): seq<Payload> {
    if sender.Sending? || sender.Completing? then [] else [sender.batch]
  }

  function InHand(s: State): seq<Payload> {
    if s.senders == [] then [] else Held(s.senders[0])
  }

  ghost predicate OneSender(s: State) {
    |s.senders| == if s.inFlight then 1 else 0
  }

  /** Batches disposed of, the batch in hand and the queue are what was enqueued, in order, for each kind
      of data; and exactly the batches that were stored are transactions. */
  ghost predicate Conserved(s: State) {
    && StoredOf(s.outcomes) == s.created
    && forall kind :: Items(kind, Batches(s.outcomes) + InHand(s)) + QueueOf(kind, s.pending) == Items(kind, s.enqueued)
  }

  ghost predicate Small(batch: Payload) {
    forall kind :: |Of(kind, batch)| <= 100
  }

  ghost predicate SmallBatches(s: State) {
    && (forall batch <- InHand(s) :: Small(batch))
    && (forall batch <- s.created :: Small(batch))
  }

  /** Nothing waits without a sender to take it. */
  ghost predicate NotStranded(s: State) {
    !s.inFlight ==> s.pending == NOTHING
  }

  /** What the loop relies on when it takes a batch: its hands are empty. */
  ghost predicate ReadyToTake(s: State) {
    && OneSender(s) && s.inFlight
    && StoredOf(s.outcomes) == s.created
    && (forall kind :: Items(kind, Batches(s.outcomes)) + QueueOf(kind, s.pending) == Items(kind, s.enqueued))
    && forall batch <- s.created :: Small(batch)
  }

  ghost predicate Sound(s: State) {
    OneSender(s) && Conserved(s) && SmallBatches(s)
  }

  lemma ItemsAppend(kind: Kind, parts: seq<Payload>, x: Payload)
    ensures Items(kind, parts + [x]) == Items(kind, parts) + Of(kind, x)
  {
    assert (parts + [x])[..|parts|] == parts;
  }

  lemma TurnKeeps(s: State)
    requires ReadyToTake(s)
    ensures Sound(LoopTurn(s, 0)) && NotStranded(LoopTurn(s, 0))
  {
    BatchSplits(s.pending);
    hide Items, Batches, StoredOf, NextBatch, AfterBatch, Of, QueueOf;
    var t := LoopTurn(s, 0);
    var batch := NextBatch(s.pending);
    if batch.Empty() {
      assert t.senders == [];
      assert Batches(t.outcomes) + [] == Batches(s.outcomes);
    } else {
      assert InHand(t) == [batch];
    }
    forall kind
      ensures Items(kind, Batches(t.outcomes) + InHand(t)) + QueueOf(kind, t.pending) == Items(kind, t.enqueued)
    {
      ItemsAppend(kind, Batches(s.outcomes), batch);
    }
  }

  lemma BatchesAppend(outcomes: seq<Outcome>, o: Outcome)
    ensures Batches(outcomes + [o]) == Batches(outcomes) + [o.batch]
    ensures StoredOf(outcomes + [o]) == StoredOf(outcomes) + if o.Stored? then [o.batch] else []
  {
    assert (outcomes + [o])[..|outcomes|] == outcomes;
  }

  /** A batch leaves the sender's hands for the list of outcomes. */
  lemma DisposedInOrder(s: State, o: Outcome)
    requires Sound(s) && s.inFlight && InHand(s) == [o.batch]
    ensures forall kind ::
      Items(kind, Batches(s.outcomes + [o])) + QueueOf(kind, s.pending) == Items(kind, s.enqueued)
    ensures StoredOf(s.outcomes + [o]) == s.created + if o.Stored? then [o.batch] else []
  {
    BatchesAppend(s.outcomes, o);
  }

  lemma EnqueueKeeps(s: State, x: Payload)
    requires Sound(s)
    ensures Sound(DoEnqueue(s, x))
    ensures NotStranded(s) || !x.Empty() ==> NotStranded(DoEnqueue(s, x))
  {
    if !x.Empty() {
      EnqueueAppends(s.pending, x);
      hide LoopTurn, Items, Batches, StoredOf, Of, QueueOf, Enqueued, SmallBatches;
      forall kind
        ensures Items(kind, Batches(s.outcomes) + InHand(s)) + QueueOf(kind, Enqueued(s.pending, x))
             == Items(kind, s.enqueued + [x])
      {
        ItemsAppend(kind, s.enqueued, x);
        var before, queue := Items(kind, Batches(s.outcomes) + InHand(s)), QueueOf(kind, s.pending);
        assert before + queue + Of(kind, x) == before + (queue + Of(kind, x));
      }
      if !s.inFlight {
        assert InHand(s) == [] && Batches(s.outcomes) + [] == Batches(s.outcomes);
        EnqueueTurns(s, x);
      }
    }
  }

  lemma EnqueueTurns(s: State, x: Payload)
    requires Sound(s) && !s.inFlight
    requires forall kind ::
      Items(kind, Batches(s.outcomes)) + QueueOf(kind, Enqueued(s.pending, x)) == Items(kind, s.enqueued + [x])
    ensures var t := s.(pending := Enqueued(s.pending, x), enqueued := s.enqueued + [x],
                        inFlight := true, senders := s.senders + [Checking(x)]);
      |t.senders| == 1 && Sound(LoopTurn(t, 0)) && NotStranded(LoopTurn(t, 0))
  {
    hide LoopTurn, Items, Batches, StoredOf, Of, QueueOf, Enqueued;
    TurnKeeps(s.(pending := Enqueued(s.pending, x), enqueued := s.enqueued + [x],
                 inFlight := true, senders := s.senders + [Checking(x)]));
  }

  lemma DropKeeps(s: State)
    requires Sound(s) && s.inFlight && !s.senders[0].Sending? && !s.senders[0].Completing?
    ensures ReadyToTake(Fail(Drop(s, s.senders[0].batch))) && ReadyToTake(Withhold(s, s.senders[0].batch))
  {
    hide Items, Batches, StoredOf, QueueOf, Conserved, Small;
    var batch := s.senders[0].batch;
    assert InHand(s) == [batch];
    DisposedInOrder(s, Dropped(batch));
    DisposedInOrder(s, Withheld(batch));
  }

  lemma CreateKeeps(s: State)
    requires Sound(s) && s.inFlight && s.senders[0].Creating?
    ensures Sound(Create(s, 0)) && (NotStranded(s) ==> NotStranded(Create(s, 0)))
  {
    hide LoopTurn, Items, Batches, StoredOf, QueueOf, Small;
    var Creating(batch, up) := s.senders[0];
    DisposedInOrder(s, Stored(batch));
    var t := s.(created := s.created + [batch], unsent := s.unsent + {|s.created|},
                outcomes := s.outcomes + [Stored(batch)]);
    assert batch in InHand(s);
    assert ReadyToTake(t);
    TurnKeeps(t);
    if up {
      var u := t.(senders := t.senders[0 := Sending(|s.created|)]);
      assert InHand(u) == [] && Batches(u.outcomes) + InHand(u) == Batches(t.outcomes);
    }
  }

  lemma SendKeeps(s: State, what: SenderStep)
    requires Sound(s) && s.inFlight && Send(s, what, 0).Some?
    ensures Sound(Send(s, what, 0).value)
    ensures !what.CountsRaise? && NotStranded(s) ==> NotStranded(Send(s, what, 0).value)
  {
    hide LoopTurn, Create, Items, Batches, StoredOf, Conserved, SmallBatches, Vanish;
    var sender := s.senders[0];
    match what
    case CountsDone => HandoverKeeps(s, Checking(sender.batch));
    case CountsRaise => VanishKeeps(s);
    case UpKnown =>
      if s.mark == Down && sender.batch.events == [] {
        DropKeeps(s);
        TurnKeeps(Withhold(s, sender.batch));
      } else {
        HandoverKeeps(s, Creating(sender.batch, s.mark != Down));
      }
    case UpRaise =>
      DropKeeps(s);
      TurnKeeps(Fail(Drop(s, sender.batch)));
    case CreateRaise =>
      DropKeeps(s);
      TurnKeeps(Fail(Drop(s, sender.batch)));
    case TxnCreated => CreateKeeps(s);
    case Sent => HandoverKeeps(s, Completing(sender.txn));
    case SendFailed =>
      EmptyHands(s);
      TurnKeeps(Fail(s));
    case Completed =>
      EmptyHands(s);
      TurnKeeps(Complete(s, sender.txn));
    case CompleteRaise =>
      EmptyHands(s);
      TurnKeeps(Fail(s));
  }

  /** A sender that holds nothing may take the next batch, whatever else has changed. */
  lemma EmptyHands(s: State)
    requires Sound(s) && s.inFlight && InHand(s) == []
    ensures ReadyToTake(s) && ReadyToTake(Fail(s))
    ensures forall id :: ReadyToTake(Complete(s, id))
  {
    hide Items, Batches, StoredOf, QueueOf, Small;
    assert Batches(s.outcomes) + InHand(s) == Batches(s.outcomes);
  }

  lemma HandoverKeeps(s: State, to: Sender)
    requires Sound(s) && s.inFlight && Held(to) == Held(s.senders[0])
    ensures Sound(s.(senders := s.senders[0 := to]))
  {
    hide Items, Batches, StoredOf, QueueOf, Small;
    assert InHand(s.(senders := s.senders[0 := to])) == InHand(s);
  }

  lemma VanishKeeps(s: State)
    requires Sound(s) && s.inFlight && s.senders[0].Counting?
    ensures Sound(Vanish(Drop(s, s.senders[0].batch), 0))
  {
    var o := Dropped(s.senders[0].batch);
    DisposedInOrder(s, o);
    hide Items, Batches, StoredOf, QueueOf, Small;
    assert s.senders[..0] + s.senders[1..] == [];
    assert Batches(s.outcomes + [o]) + [] == Batches(s.outcomes + [o]);
  }

  /** The part of the state that the queue's invariants speak of. */
  ghost predicate SameQueue(s: State, t: State) {
    && t.pending == s.pending && t.inFlight == s.inFlight && t.senders == s.senders
    && t.created == s.created && t.enqueued == s.enqueued && t.outcomes == s.outcomes
  }

  lemma RecoverLeavesQueue(s: State, did: RecovererStep)
    ensures var t := Recover(s, did);
      t.Some? ==> SameQueue(s, t.value) && t.value.mark == s.mark && t.value.failing == s.failing
  {
  }

  lemma SameQueueSound(s: State, t: State)
    requires Sound(s) && SameQueue(s, t)
    ensures Sound(t) && (NotStranded(s) ==> NotStranded(t))
  {
  }

  lemma StepKeeps(s: State, a: Step)
    requires Sound(s) && Next(s, a).Some?
    ensures Sound(Next(s, a).value)
    ensures a != OfSender(0, CountsRaise) && (NotStranded(s) || (a.Enqueue? && !a.x.Empty())) ==>
      NotStranded(Next(s, a).value)
  {
    hide DoEnqueue, Send, Recover, Conserved, SmallBatches;
    match a
    case Enqueue(x) => EnqueueKeeps(s, x);
    case OtherServiceTakes => OtherTakeKeeps(s);
    case OfSender(i, what) => SendKeeps(s, what);
    case OfRecoverer(did) =>
      RecoverLeavesQueue(s, did);
      SameQueueSound(s, Recover(s, did).value);
    case DownWritten => SameQueueSound(s, Next(s, a).value);
    case UpWritten => SameQueueSound(s, Next(s, a).value);
  }

  lemma OtherTakeKeeps(s: State)
    requires Sound(s)
    ensures Sound(s.(pending := s.pending.(summaries := [])))
    ensures NotStranded(s) ==> NotStranded(s.(pending := s.pending.(summaries := [])))
  {
  }

  /** In every reachable state there is at most one sender, and the outcomes of all batches in order,
      the batch in hand and the queue are exactly what was enqueued. */
  lemma {:induction false} QueueConserved(counts: bool, steps: seq<Step>)
    requires After(counts, steps).Some?
    ensures Sound(After(counts, steps).value)
  {
    hide Next;
    if steps != [] {
      QueueConserved(counts, steps[..|steps| - 1]);
      StepKeeps(After(counts, steps[..|steps| - 1]).value, steps[|steps| - 1]);
    }
  }

  // ---- What becomes of batches ----

  /** What a step of a sender adds to the outcomes. */
  function Disposed(s: State, what: SenderStep, i: nat): seq<Outcome>
    requires i < |s.senders|
  {
    match (what, s.senders[i])
    case (TxnCreated, Creating(batch, _)) => [Stored(batch)]
    case (UpKnown, Checking(batch)) => if s.mark == Down && batch.events == [] then [Withheld(batch)] else []
    case (CountsRaise, Counting(batch)) => [Dropped(batch)]
    case (UpRaise, Checking(batch)) => [Dropped(batch)]
    case (CreateRaise, Creating(batch, _)) => [Dropped(batch)]
    case _ => []
  }

  lemma TurnLeaves(s: State, i: nat)
    requires i < |s.senders|
    ensures var t := LoopTurn(s, i);
      && t.outcomes == s.outcomes && t.recoverer == s.recoverer && t.mark == s.mark
      && t.failing == s.failing && t.recovered == s.recovered
  {
    hide NextBatch, AfterBatch;
  }

  lemma {:induction false} SendDisposes(s: State, what: SenderStep, i: nat)
    requires i < |s.senders| && Send(s, what, i).Some?
    ensures Send(s, what, i).value.recoverer == s.recoverer && Send(s, what, i).value.mark == s.mark
    ensures Send(s, what, i).value.outcomes == s.outcomes + Disposed(s, what, i)
    ensures Send(s, what, i).value.failing == s.failing + if Fails(what) then 1 else 0
    ensures Send(s, what, i).value.recovered == s.recovered
  {
    hide LoopTurn;
    var sender := s.senders[i];
    if sender.Creating? {
      TurnLeaves(s.(created := s.created + [sender.batch], unsent := s.unsent + {|s.created|},
                    outcomes := s.outcomes + [Stored(sender.batch)]), i);
    }
    if !sender.Sending? && !sender.Completing? {
      TurnLeaves(Fail(Drop(s, sender.batch)), i);
      TurnLeaves(Withhold(s, sender.batch), i);
    } else {
      TurnLeaves(Fail(s), i);
      TurnLeaves(Complete(s, sender.txn), i);
    }
  }

  /** What a step of the whole machine adds to the outcomes. */
  function DisposedBy(s: State, a: Step): seq<Outcome> {
    if a.OfSender? && a.i < |s.senders| then Disposed(s, a.what, a.i) else []
  }

  lemma StepDisposes(s: State, a: Step)
    requires Next(s, a).Some?
    ensures Next(s, a).value.outcomes == s.outcomes + DisposedBy(s, a)
    ensures a.DownWritten? || a.UpWritten? || Next(s, a).value.mark == s.mark
  {
    hide Send, Recover, LoopTurn, Disposed;
    match a
    case Enqueue(x) =>
      TurnLeaves(s.(pending := Enqueued(s.pending, x), enqueued := s.enqueued + [x],
                    inFlight := true, senders := s.senders + [Checking(x)]), |s.senders|);
    case OfSender(i, what) => SendDisposes(s, what, i);
    case OfRecoverer(did) => RecoverLeavesQueue(s, did);
    case _ =>
  }

  /** Batches are withheld only without events and after the service was marked down, and dropped only
      when a call raises. */
  lemma {:induction false} OutcomesHaveCauses(counts: bool, steps: seq<Step>)
    requires After(counts, steps).Some?
    ensures var s := After(counts, steps).value;
      && (forall o <- s.outcomes | o.Withheld? :: o.batch.events == [] && DownWritten in steps)
      && (forall o <- s.outcomes | o.Dropped? :: exists a <- steps :: Raises(a))
      && (s.mark == Down ==> DownWritten in steps)
  {
    hide Next;
    if steps != [] {
      var before, a := steps[..|steps| - 1], steps[|steps| - 1];
      OutcomesHaveCauses(counts, before);
      StepDisposes(After(counts, before).value, a);
      if After(counts, steps).value.mark == Down {
        DownIsMarked(After(counts, before).value, a);
      }
      assert steps == before + [a];
      assert a in steps && forall b <- before :: b in steps;
      if Raises(a) {
        assert exists b <- steps :: Raises(b);
      } else {
        assert forall o <- DisposedBy(After(counts, before).value, a) :: !o.Dropped?;
      }
    }
  }

  lemma DownIsMarked(s: State, a: Step)
    requires Next(s, a).Some? && Next(s, a).value.mark == Down
    ensures s.mark == Down || a.DownWritten?
  {
    StepDisposes(s, a);
    hide Send, Recover, DoEnqueue;
  }

  /** Whoever stores a batch for a service that it found down has events to keep for later. */
  ghost predicate KeepsForLater(s: State) {
    forall sender <- s.senders | sender.Creating? && !sender.up :: sender.batch.events != []
  }

  lemma TurnCreatesNothing(s: State, i: nat)
    requires i < |s.senders| && KeepsForLater(s)
    ensures KeepsForLater(LoopTurn(s, i))
  {
    hide NextBatch, AfterBatch;
  }

  lemma SendKeepsForLater(s: State, what: SenderStep, i: nat)
    requires i < |s.senders| && Send(s, what, i).Some? && KeepsForLater(s)
    ensures KeepsForLater(Send(s, what, i).value)
  {
    hide LoopTurn;
    var sender := s.senders[i];
    if sender.Creating? {
      TurnCreatesNothing(s.(created := s.created + [sender.batch], unsent := s.unsent + {|s.created|},
                            outcomes := s.outcomes + [Stored(sender.batch)]), i);
    }
    if !sender.Sending? && !sender.Completing? {
      TurnCreatesNothing(Fail(Drop(s, sender.batch)), i);
      TurnCreatesNothing(Withhold(s, sender.batch), i);
    } else {
      TurnCreatesNothing(Fail(s), i);
      TurnCreatesNothing(Complete(s, sender.txn), i);
    }
  }

  /** So no transaction without events is ever stored for a service that was found down. */
  lemma {:induction false} OnlyEventsAreKept(counts: bool, steps: seq<Step>)
    requires After(counts, steps).Some?
    ensures KeepsForLater(After(counts, steps).value)
  {
    hide Send, Recover, LoopTurn;
    if steps != [] {
      var s, a := After(counts, steps[..|steps| - 1]).value, steps[|steps| - 1];
      OnlyEventsAreKept(counts, steps[..|steps| - 1]);
      hide After;
      match a
      case Enqueue(x) =>
        TurnCreatesNothing(s.(pending := Enqueued(s.pending, x), enqueued := s.enqueued + [x],
                              inFlight := true, senders := s.senders + [Checking(x)]), |s.senders|);
      case OfSender(i, what) => SendKeepsForLater(s, what, i);
      case OfRecoverer(did) => RecoverLeavesQueue(s, did);
      case _ =>
    }
  }

  /** While no call raises, no event is lost: the transactions, the batch in hand and the queue hold
      everything enqueued. While the service is not marked down either, the same is true of ephemeral data
      and to-device messages. */
  lemma NothingDropped(counts: bool, steps: seq<Step>)
    requires After(counts, steps).Some?
    requires forall a <- steps :: !Raises(a)
    ensures var s := After(counts, steps).value;
      && (forall o <- s.outcomes :: !o.Dropped?)
      && Items(Events, s.created + InHand(s)) + s.pending.events == Items(Events, s.enqueued)
      && (DownWritten !in steps ==>
            forall kind :: Items(kind, s.created + InHand(s)) + QueueOf(kind, s.pending) == Items(kind, s.enqueued))
  {
    OutcomesHaveCauses(counts, steps);
    QueueConserved(counts, steps);
    var s := After(counts, steps).value;
    hide After;
    forall kind: Kind | kind == Events || DownWritten !in steps
      ensures Items(kind, s.created + InHand(s)) + QueueOf(kind, s.pending) == Items(kind, s.enqueued)
    {
      StoredHoldsAll(kind, s.outcomes);
      ItemsJoin(kind, s.created, InHand(s));
      ItemsJoin(kind, Batches(s.outcomes), InHand(s));
    }
    assert QueueOf(Events, s.pending) == s.pending.events;
  }

  lemma {:induction false} ItemsJoin(kind: Kind, front: seq<Payload>, back: seq<Payload>)
    ensures Items(kind, front + back) == Items(kind, front) + Items(kind, back)
  {
    if back == [] {
      assert front + back == front;
    } else {
      hide Items, Of;
      var init, last := back[..|back| - 1], back[|back| - 1];
      ItemsJoin(kind, front, init);
      assert back == init + [last] && front + back == front + init + [last];
      ItemsAppend(kind, front + init, last);
      ItemsAppend(kind, init, last);
    }
  }

  /** What is not stored has nothing of a kind. */
  lemma {:induction false} StoredHoldsAll(kind: Kind, outcomes: seq<Outcome>)
    requires forall o <- outcomes :: o.Stored? || Of(kind, o.batch) == []
    ensures Items(kind, StoredOf(outcomes)) == Items(kind, Batches(outcomes))
  {
    hide Of;
    if outcomes != [] {
      var n := |outcomes| - 1;
      StoredHoldsAll(kind, outcomes[..n]);
      assert outcomes[n] in outcomes && outcomes == outcomes[..n] + [outcomes[n]];
      BatchesAppend(outcomes[..n], outcomes[n]);
      ItemsAppend(kind, Batches(outcomes[..n]), outcomes[n].batch);
      if outcomes[n].Stored? {
        ItemsAppend(kind, StoredOf(outcomes[..n]), outcomes[n].batch);
      } else {
        assert StoredOf(outcomes) == StoredOf(outcomes[..n]);
      }
    }
  }

  /** The key counts raised, and nothing has been enqueued since. */
  predicate RaisedSinceEnqueue(steps: seq<Step>) {
    steps != []
    && var last := steps[|steps| - 1];
       if last.Enqueue? && !last.x.Empty() then false
       else last == OfSender(0, CountsRaise) || RaisedSinceEnqueue(steps[..|steps| - 1])
  }

  /** While nothing has been enqueued since, there is no sender. */
  lemma {:induction false} NoSenderAfterRaise(counts: bool, steps: seq<Step>)
    requires After(counts, steps).Some? && RaisedSinceEnqueue(steps)
    ensures !After(counts, steps).value.inFlight
  {
    var before, last := steps[..|steps| - 1], steps[|steps| - 1];
    var s := After(counts, before).value;
    QueueConserved(counts, before);
    hide Sound, Conserved, SmallBatches;
    if last != OfSender(0, CountsRaise) {
      NoSenderAfterRaise(counts, before);
      hide Recover;
      if last.OfRecoverer? {
        RecoverLeavesQueue(s, last.did);
      }
    }
  }

  /** A queue with anything in it has no sender if and only if the key counts raised and nothing has
      been enqueued since. */
  lemma {:induction false} StrandedExactly(counts: bool, steps: seq<Step>)
    requires After(counts, steps).Some?
    ensures var s := After(counts, steps).value;
      !NotStranded(s) <==> s.pending != NOTHING && RaisedSinceEnqueue(steps)
  {
    hide Next;
    if RaisedSinceEnqueue(steps) {
      NoSenderAfterRaise(counts, steps);
    } else if steps != [] {
      var before, last := steps[..|steps| - 1], steps[|steps| - 1];
      StrandedExactly(counts, before);
      QueueConserved(counts, before);
      StepKeeps(After(counts, before).value, last);
    }
  }

  // ---- Marking ----

  /** Steps in which a delivery failed, and steps that marked the service down. */
  function Failures(steps: seq<Step>): nat {
    if steps == [] then 0
    else
      var a := steps[|steps| - 1];
      Failures(steps[..|steps| - 1]) + if a.OfSender? && Fails(a.what) then 1 else 0
  }

  function Downs(steps: seq<Step>): nat {
    if steps == [] then 0 else Downs(steps[..|steps| - 1]) + if steps[|steps| - 1] == DownWritten then 1 else 0
  }

  function Ups(steps: seq<Step>): nat {
    if steps == [] then 0 else Ups(steps[..|steps| - 1]) + if steps[|steps| - 1] == UpWritten then 1 else 0
  }

  /** Recoverers that found nothing left to send. */
  function Recoveries(counts: bool, steps: seq<Step>): nat
    requires After(counts, steps).Some?
  {
    if steps == [] then 0
    else
      var before := steps[..|steps| - 1];
      Recoveries(counts, before)
      + if steps[|steps| - 1] == OfRecoverer(OldestFetched) && After(counts, before).value.unsent == {} then 1 else 0
  }

  /** Each failed delivery marks the service down once, and each recoverer that is done marks it up once:
      what has not happened yet is about to. */
  lemma {:induction false} MarksAreCounted(counts: bool, steps: seq<Step>)
    requires After(counts, steps).Some?
    ensures var s := After(counts, steps).value;
      s.failing + Downs(steps) == Failures(steps) && s.recovered + Ups(steps) == Recoveries(counts, steps)
  {
    hide Next;
    if steps != [] {
      var before := steps[..|steps| - 1];
      MarksAreCounted(counts, before);
      MarkStep(After(counts, before).value, steps[|steps| - 1]);
    }
  }

  lemma MarkStep(s: State, a: Step)
    requires Next(s, a).Some?
    ensures var t := Next(s, a).value;
      && t.failing + (if a.DownWritten? then 1 else 0) == s.failing + (if a.OfSender? && Fails(a.what) then 1 else 0)
      && t.recovered + (if a.UpWritten? then 1 else 0)
          == s.recovered + if a == OfRecoverer(OldestFetched) && s.unsent == {} then 1 else 0
  {
    hide Send, LoopTurn;
    match a
    case Enqueue(x) =>
      TurnLeaves(s.(pending := Enqueued(s.pending, x), enqueued := s.enqueued + [x],
                    inFlight := true, senders := s.senders + [Checking(x)]), |s.senders|);
    case OfSender(i, what) => SendDisposes(s, what, i);
    case _ =>
  }

  // ---- Backoff ----

  /** A retry round ends in failure: the service did not take the transaction, or a call raised. */
  predicate EndsRound(a: Step) {
    a == OfRecoverer(RetryFailed) || a == OfRecoverer(RetryRaises)
  }

  /** Retry rounds that failed since the recoverer started or last completed a transaction. */
  function FailedRounds(counts: bool, steps: seq<Step>): nat
    requires After(counts, steps).Some?
  {
    if steps == [] then 0
    else
      var n := |steps| - 1;
      if EndsRound(steps[n]) then FailedRounds(counts, steps[..n]) + 1
      else if steps[n] == OfRecoverer(RetryCompleted) then 0
      else if After(counts, steps[..n]).value.recoverer.None? then 0
      else FailedRounds(counts, steps[..n])
  }

  function Power2(n: nat): nat {
    if n == 0 then 1 else 2 * Power2(n - 1)
  }

  /** Seconds until the recoverer's next round. */
  function Delay(s: State): nat
    requires s.recoverer.Some?
  {
    Power2(s.recoverer.value.backoff)
  }

  lemma {:induction false} BackoffCountsFailures(counts: bool, steps: seq<Step>)
    requires After(counts, steps).Some? && After(counts, steps).value.recoverer.Some?
    ensures After(counts, steps).value.recoverer.value.backoff == Min(9, 1 + FailedRounds(counts, steps))
  {
    hide Next;
    if steps != [] {
      var n := |steps| - 1;
      var s := After(counts, steps[..n]).value;
      if s.recoverer.Some? {
        BackoffCountsFailures(counts, steps[..n]);
      }
      CounterStep(s, steps[n]);
    }
  }

  /** The delay doubles with each failed round and is capped at 512 seconds. */
  lemma DelayDoubles(counts: bool, steps: seq<Step>)
    requires After(counts, steps).Some? && After(counts, steps).value.recoverer.Some?
    ensures Delay(After(counts, steps).value) == Power2(Min(9, 1 + FailedRounds(counts, steps))) <= 512
  {
    hide After, FailedRounds;
    BackoffCountsFailures(counts, steps);
    DelayCap(Min(9, 1 + FailedRounds(counts, steps)));
  }

  /** What one step does to the recoverer's counter. */
  lemma CounterStep(s: State, a: Step)
    requires Next(s, a).Some? && Next(s, a).value.recoverer.Some?
    ensures var backoff := Next(s, a).value.recoverer.value.backoff;
      if a == OfRecoverer(RetryCompleted) then backoff == 1
      else if s.recoverer.None? then backoff == 1 && !EndsRound(a)
      else if EndsRound(a) then backoff == Slower(s.recoverer.value.backoff)
      else backoff == s.recoverer.value.backoff
  {
    hide Send, LoopTurn;
    match a
    case Enqueue(x) =>
      TurnLeaves(s.(pending := Enqueued(s.pending, x), enqueued := s.enqueued + [x],
                    inFlight := true, senders := s.senders + [Checking(x)]), |s.senders|);
    case OfSender(i, what) => SendDisposes(s, what, i);
    case _ =>
  }

  lemma DelayCap(n: nat)
    requires n <= 9
    ensures Power2(n) <= 512
  {
    assert Power2(9) == 512;
    PowerGrows(n, 9);
  }

  lemma {:induction false} PowerGrows(m: nat, n: nat)
    requires m <= n
    ensures Power2(m) <= Power2(n)
  {
    if m < n {
      PowerGrows(m, n - 1);
    }
  }
}
