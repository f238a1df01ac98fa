/** The queues of data waiting to be sent to application services. */
module ServiceQueue {
  import opened Options

  type Item = string

  /** Users whose device lists changed, and users no longer to be tracked. */
  datatype DeviceLists = DeviceLists(changed: set<string>, left: set<string>) {
    predicate Empty() {
      changed == {} && left == {}
    }
  }

  const NO_DEVICES := DeviceLists({}, {})

  /** What one call enqueues, and what one transaction carries. */
  datatype Payload = Payload(events: seq<Item>, ephemeral: seq<Item>, toDevice: seq<Item>, devices: DeviceLists) {
    predicate Empty() {
      events == [] && ephemeral == [] && toDevice == [] && devices.Empty()
    }
  }

  /** The four queues of one service. */
  datatype Pending = Pending(events: seq<Item>, ephemeral: seq<Item>, toDevice: seq<Item>, summaries: seq<DeviceLists>)

  const NOTHING := Pending([], [], [], [])

  /** The kinds of data that are sent item by item. */
  datatype Kind = Events | Ephemeral | ToDevice

  function Of(kind: Kind, x: Payload): seq<Item> {
    match kind
    case Events => x.events
    case Ephemeral => x.ephemeral
    case ToDevice => x.toDevice
  }

  function QueueOf(kind: Kind, p: Pending): seq<Item> {
    match kind
    case Events => p.events
    case Ephemeral => p.ephemeral
    case ToDevice => p.toDevice
  }

  const MAX_EVENTS := 100
  const MAX_EPHEMERAL := 100
  const MAX_TO_DEVICE := 100

  function First(s: seq<Item>, n: nat): (r: seq<Item>)
    ensures |r| == Min(n, |s|) && r + Beyond(s, n) == s
  {
    if |s| <= n then s else s[..n]
  }

  function Beyond(s: seq<Item>, n: nat): seq<Item> {
    if |s| <= n then [] else s[n..]
  }

  function Enqueued(p: Pending, x: Payload): Pending {
    Pending(p.events + x.events, p.ephemeral + x.ephemeral, p.toDevice + x.toDevice,
            if x.devices.Empty() then p.summaries else p.summaries + [x.devices])
  }

  function NextBatch(p: Pending): Payload {
    Payload(First(p.events, MAX_EVENTS), First(p.ephemeral, MAX_EPHEMERAL), First(p.toDevice, MAX_TO_DEVICE),
            Consolidated(p.summaries))
  }

  function AfterBatch(p: Pending): Pending {
    Pending(Beyond(p.events, MAX_EVENTS), Beyond(p.ephemeral, MAX_EPHEMERAL), Beyond(p.toDevice, MAX_TO_DEVICE), [])
  }

  // ---- Device list summaries ----

  datatype Mention = Unmentioned | Changed | Left

  /** What the latest summary to mention a user says; one that lists them twice says they left. */
  function LastMention(summaries: seq<DeviceLists>, user: string): Mention {
    if summaries == [] then Unmentioned
    else
      var last := summaries[|summaries| - 1];
      if user in last.left then Left
      else if user in last.changed then Changed
      else LastMention(summaries[..|summaries| - 1], user)
  }

  function Consolidated(summaries: seq<DeviceLists>): DeviceLists {
    if summaries == [] then NO_DEVICES
    else
      var before := Consolidated(summaries[..|summaries| - 1]);
      var last := summaries[|summaries| - 1];
      DeviceLists((before.changed + last.changed) - last.left, (before.left - last.changed) + last.left)
  }

  /** The consolidated summary gives each user their latest mention. */
  lemma {:induction false} ConsolidatedIsLatest(summaries: seq<DeviceLists>, user: string)
    ensures user in Consolidated(summaries).changed <==> LastMention(summaries, user) == Changed
    ensures user in Consolidated(summaries).left <==> LastMention(summaries, user) == Left
  {
    if summaries != [] {
      ConsolidatedIsLatest(summaries[..|summaries| - 1], user);
    }
  }

  method Consolidate(summaries: seq<DeviceLists>) returns (r: DeviceLists)
    ensures r == Consolidated(summaries)
  {
    var changed, left := {}, {};
    for i := 0 to |summaries|
      invariant DeviceLists(changed, left) == Consolidated(summaries[..i])
    {
      var summary := summaries[i];
      assert summaries[..i + 1][..i] == summaries[..i];
      left := left - summary.changed;
      changed := changed + summary.changed;
      changed := changed - summary.left;
      left := left + summary.left;
    }
    assert summaries[..|summaries|] == summaries;
    r := DeviceLists(changed, left);
  }

  /** A batch takes the first hundred of each kind, or all, and leaves the rest; an empty batch leaves
      nothing. */
  lemma BatchSplits(p: Pending)
    ensures forall kind :: Of(kind, NextBatch(p)) + QueueOf(kind, AfterBatch(p)) == QueueOf(kind, p)
    ensures forall kind :: |Of(kind, NextBatch(p))| == Min(100, |QueueOf(kind, p)|)
    ensures NextBatch(p).Empty() ==> AfterBatch(p) == NOTHING && forall kind :: Of(kind, NextBatch(p)) == []
  {
    hide Consolidated;
  }

  lemma BatchSplitsEach(p: Pending)
    ensures NextBatch(p).Empty() ==> AfterBatch(p) == NOTHING
    ensures var batch, rest := NextBatch(p), AfterBatch(p);
      && |batch.events| == Min(100, |p.events|) && |batch.ephemeral| == Min(100, |p.ephemeral|)
      && |batch.toDevice| == Min(100, |p.toDevice|)
      && batch.events + rest.events == p.events && batch.ephemeral + rest.ephemeral == p.ephemeral
      && batch.toDevice + rest.toDevice == p.toDevice
  {
    hide Consolidated;
  }

  lemma NothingQueued()
    ensures forall kind :: QueueOf(kind, NOTHING) == []
  {
  }

  lemma ClearingKeepsItems(p: Pending)
    ensures forall kind :: QueueOf(kind, p.(summaries := [])) == QueueOf(kind, p)
  {
  }

  lemma EnqueueAppends(p: Pending, x: Payload)
    ensures forall kind :: QueueOf(kind, Enqueued(p, x)) == QueueOf(kind, p) + Of(kind, x)
  {
  }

  /** The device lists of a batch name each user as the latest queued summary to mention them does. */
  lemma BatchConsolidates(p: Pending)
    ensures AfterBatch(p).summaries == []
    ensures forall user ::
      && (user in NextBatch(p).devices.changed <==> LastMention(p.summaries, user) == Changed)
      && (user in NextBatch(p).devices.left <==> LastMention(p.summaries, user) == Left)
  {
    hide Consolidated, First;
    forall user
      ensures user in Consolidated(p.summaries).changed <==> LastMention(p.summaries, user) == Changed
      ensures user in Consolidated(p.summaries).left <==> LastMention(p.summaries, user) == Left
    {
      ConsolidatedIsLatest(p.summaries, user);
    }
  }

  // ---- The queuer ----

  function Queue<T>(queues: map<string, seq<T>>, service: string): seq<T> {
    Get(queues, service).GetOr([])
  }

  /** `setdefault(service, []).extend(xs)`, for a list that is not empty. */
  function Appended<T>(queues: map<string, seq<T>>, service: string, xs: seq<T>): (r: map<string, seq<T>>)
    ensures forall other ::
      Queue(r, other) == if other == service then Queue(queues, service) + xs else Queue(queues, other)
  {
    if xs == [] then queues else queues[service := Queue(queues, service) + xs]
  }

  /** `del queue[:n]` on a service's list, if it has one. */
  function Trimmed(queues: map<string, seq<Item>>, service: string, n: nat): (r: map<string, seq<Item>>)
    ensures forall other ::
      Queue(r, other) == if other == service then Beyond(Queue(queues, service), n) else Queue(queues, other)
  {
    if service in queues then queues[service := Beyond(queues[service], n)] else queues
  }

  class ServiceQueuer {
    var queuedEvents: map<string, seq<Item>>
    var queuedEphemeral: map<string, seq<Item>>
    var queuedToDevice: map<string, seq<Item>>
    var queuedSummaries: map<string, seq<DeviceLists>>
    var requestsInFlight: set<string>

    constructor ()
      ensures forall service :: PendingFor(service) == NOTHING
      ensures requestsInFlight == {}
    {
      queuedEvents, queuedEphemeral, queuedToDevice, queuedSummaries := map[], map[], map[], map[];
      requestsInFlight := {};
    }

    ghost function PendingFor(service: string): Pending
      reads this
    {
      Pending(Queue(queuedEvents, service), Queue(queuedEphemeral, service), Queue(queuedToDevice, service),
              Queue(queuedSummaries, service))
    }

    /** Add data to a service's queues; says whether a sender must be started. */
    method Enqueue(service: string, x: Payload) returns (start: bool)
      modifies this`queuedEvents, this`queuedEphemeral, this`queuedToDevice, this`queuedSummaries
      ensures PendingFor(service) == Enqueued(old(PendingFor(service)), x)
      ensures forall other | other != service :: PendingFor(other) == old(PendingFor(other))
      ensures start <==> !x.Empty() && service !in requestsInFlight
    {
      hide Appended, Queue;
      if x.Empty() {
        return false;
      }
      queuedEvents := Appended(queuedEvents, service, x.events);
      queuedEphemeral := Appended(queuedEphemeral, service, x.ephemeral);
      queuedToDevice := Appended(queuedToDevice, service, x.toDevice);
      queuedSummaries := Appended(queuedSummaries, service, if x.devices.Empty() then [] else [x.devices]);
      start := service !in requestsInFlight;
    }

    /** One turn of the sender's loop up to its first pause. It takes a batch off the service's own
        queues, and clears the device list summaries of every service; with nothing to send the
        sender stops. */
    method TakeBatch(service: string) returns (batch: Payload)
      modifies this
      ensures batch == NextBatch(old(PendingFor(service)))
      ensures PendingFor(service) == AfterBatch(old(PendingFor(service)))
      ensures forall other | other != service :: PendingFor(other) == old(PendingFor(other)).(summaries := [])
      ensures requestsInFlight == if batch.Empty() then old(requestsInFlight) - {service} else old(requestsInFlight)
      ensures batch.events + PendingFor(service).events == old(PendingFor(service).events)
      ensures batch.ephemeral + PendingFor(service).ephemeral == old(PendingFor(service).ephemeral)
      ensures batch.toDevice + PendingFor(service).toDevice == old(PendingFor(service).toDevice)
      ensures |batch.events| == Min(100, |old(PendingFor(service).events)|)
      ensures |batch.ephemeral| == Min(100, |old(PendingFor(service).ephemeral)|)
      ensures |batch.toDevice| == Min(100, |old(PendingFor(service).toDevice)|)
      ensures forall user :: var said := LastMention(old(PendingFor(service).summaries), user);
        (user in batch.devices.changed <==> said == Changed) && (user in batch.devices.left <==> said == Left)
      ensures old(service in requestsInFlight && ServedBut(service)) ==> Served()
    {
      BatchSplitsEach(PendingFor(service));
      BatchConsolidates(PendingFor(service));
      hide Beyond, First, LastMention;
      batch := TakeItems(service);
      var devices := Consolidate(Queue(queuedSummaries, service));
      queuedSummaries := map[];
      batch := batch.(devices := devices);
      assert batch == NextBatch(old(PendingFor(service)));
      hide NextBatch, AfterBatch, Consolidated, Queue;
      if batch.Empty() {
        requestsInFlight := requestsInFlight - {service};
      }
    }

    /** The first items of each kind come off the service's queues. */
    method TakeItems(service: string) returns (items: Payload)
      modifies this`queuedEvents, this`queuedEphemeral, this`queuedToDevice
      ensures items.devices == NO_DEVICES
      ensures items == NextBatch(old(PendingFor(service))).(devices := NO_DEVICES)
      ensures PendingFor(service)
           == AfterBatch(old(PendingFor(service))).(summaries := old(PendingFor(service)).summaries)
      ensures forall other | other != service :: PendingFor(other) == old(PendingFor(other))
    {
      hide Trimmed, Beyond, First, Queue, Consolidated;
      var events := First(Queue(queuedEvents, service), MAX_EVENTS);
      queuedEvents := Trimmed(queuedEvents, service, MAX_EVENTS);
      var ephemeral := First(Queue(queuedEphemeral, service), MAX_EPHEMERAL);
      queuedEphemeral := Trimmed(queuedEphemeral, service, MAX_EPHEMERAL);
      var toDevice := First(Queue(queuedToDevice, service), MAX_TO_DEVICE);
      queuedToDevice := Trimmed(queuedToDevice, service, MAX_TO_DEVICE);
      items := Payload(events, ephemeral, toDevice, NO_DEVICES);
    }

    /** Nothing waits for a service that has no sender, one service set apart. */
    ghost predicate ServedBut(service: string)
      reads this
    {
      forall other | other != service && other !in requestsInFlight :: PendingFor(other) == NOTHING
    }

    ghost predicate Served()
      reads this
    {
      forall service | service !in requestsInFlight :: PendingFor(service) == NOTHING
    }

    /** Enqueue data and, if the service has no sender, start one, which at once takes the first batch.
        At every such pause there is a sender for whatever waits. */
    method Submit(service: string, x: Payload) returns (first: Option<Payload>)
      requires Served()
      modifies this
      ensures Served()
      ensures first.Some? <==> !x.Empty() && old(service !in requestsInFlight)
      ensures first.Some? ==> first.value == NextBatch(Enqueued(NOTHING, x)) && !first.value.Empty()
      ensures first.Some? ==>
        var batch, left := first.value, PendingFor(service);
        && batch.events + left.events == x.events && batch.ephemeral + left.ephemeral == x.ephemeral
        && batch.toDevice + left.toDevice == x.toDevice
        && batch.devices == DeviceLists(x.devices.changed - x.devices.left, x.devices.left)
      ensures requestsInFlight == old(requestsInFlight) + if first.Some? then {service} else {}
      ensures PendingFor(service)
           == if first.Some? then AfterBatch(Enqueued(NOTHING, x)) else Enqueued(old(PendingFor(service)), x)
      ensures forall other | other != service ::
        PendingFor(other)
        == if first.Some? then old(PendingFor(other)).(summaries := []) else old(PendingFor(other))
    {
      hide NextBatch, AfterBatch, Consolidated, Queue;
      var start := Enqueue(service, x);
      first := None;
      if start {
        requestsInFlight := requestsInFlight + {service};
        var batch := TakeBatch(service);
        first := Some(batch);
        SomethingToSend(x);
        OneSummary(x);
        BatchSplitsEach(Enqueued(NOTHING, x));
      }
    }
  }

  /** What was just enqueued on empty queues makes a batch that is not empty. */
  lemma SomethingToSend(x: Payload)
    requires !x.Empty()
    ensures !NextBatch(Enqueued(NOTHING, x)).Empty()
  {
    if !x.devices.Empty() {
      var summaries := [x.devices];
      assert Enqueued(NOTHING, x).summaries == summaries;
      assert summaries[..0] == [];
      if user :| user in x.devices.left {
        ConsolidatedIsLatest(summaries, user);
      } else {
        var changed :| changed in x.devices.changed;
        ConsolidatedIsLatest(summaries, changed);
      }
    }
  }

  lemma OneSummary(x: Payload)
    ensures NextBatch(Enqueued(NOTHING, x)).devices
         == DeviceLists(x.devices.changed - x.devices.left, x.devices.left)
  {
    hide First;
    if !x.devices.Empty() {
      OneConsolidated(x.devices);
      assert Enqueued(NOTHING, x).summaries == [x.devices];
    }
  }

  lemma OneConsolidated(lists: DeviceLists)
    ensures Consolidated([lists]) == DeviceLists(lists.changed - lists.left, lists.left)
  {
    assert [lists][..0] == [];
    assert Consolidated([]) == NO_DEVICES;
  }

  // ---- Runs over many services ----

  datatype QueueOp = Put(service: string, x: Payload) | Take(service: string)

  /** The queues of one service after the first `i` operations on all of them. */
  function PendingAt(ops: seq<QueueOp>, i: nat, service: string): Pending
    requires i <= |ops|
  {
    if i == 0 then NOTHING
    else
      var before := PendingAt(ops, i - 1, service);
      match ops[i - 1]
      case Put(other, x) => if other == service then Enqueued(before, x) else before
      case Take(other) => if other == service then AfterBatch(before) else before.(summaries := [])
  }

  /** The items of one kind that were put for a service, in order. */
  function ItemsPut(kind: Kind, ops: seq<QueueOp>, i: nat, service: string): seq<Item>
    requires i <= |ops|
  {
    if i == 0 then []
    else ItemsPut(kind, ops, i - 1, service)
         + if ops[i - 1].Put? && ops[i - 1].service == service then Of(kind, ops[i - 1].x) else []
  }

  function ItemsTaken(kind: Kind, ops: seq<QueueOp>, i: nat, service: string): seq<Item>
    requires i <= |ops|
  {
    if i == 0 then []
    else ItemsTaken(kind, ops, i - 1, service)
         + if ops[i - 1] == Take(service) then Of(kind, NextBatch(PendingAt(ops, i - 1, service))) else []
  }

  /** No event, ephemeral item or to-device message is lost, duplicated, reordered or taken for another
      kind by the queues, whatever other services do. */
  lemma {:induction false} ItemsConserved(kind: Kind, ops: seq<QueueOp>, i: nat, service: string)
    requires i <= |ops|
    ensures ItemsTaken(kind, ops, i, service) + QueueOf(kind, PendingAt(ops, i, service))
         == ItemsPut(kind, ops, i, service)
  {
    hide NextBatch, AfterBatch, Enqueued, Of, QueueOf;
    if i == 0 {
      NothingQueued();
    } else {
      ItemsConserved(kind, ops, i - 1, service);
      var before, taken := PendingAt(ops, i - 1, service), ItemsTaken(kind, ops, i - 1, service);
      ClearingKeepsItems(before);
      if ops[i - 1] == Take(service) {
        BatchSplits(before);
        assert taken + Of(kind, NextBatch(before)) + QueueOf(kind, AfterBatch(before))
            == taken + (Of(kind, NextBatch(before)) + QueueOf(kind, AfterBatch(before)));
      } else if ops[i - 1].Put? && ops[i - 1].service == service {
        var x := ops[i - 1].x;
        EnqueueAppends(before, x);
        assert taken + (QueueOf(kind, before) + Of(kind, x)) == taken + QueueOf(kind, before) + Of(kind, x);
      }
    }
  }

  /** The summaries put for a service among operations `m` to `i`. */
  function SummariesPut(ops: seq<QueueOp>, m: nat, i: nat, service: string): seq<DeviceLists>
    requires m <= i <= |ops|
  {
    if m == i then []
    else SummariesPut(ops, m, i - 1, service)
         + if ops[i - 1].Put? && ops[i - 1].service == service && ops[i - 1].x.devices != NO_DEVICES
           then [ops[i - 1].x.devices] else []
  }

  /** One past the last take by any service. */
  function LastTake(ops: seq<QueueOp>, i: nat): (m: nat)
    requires i <= |ops|
    ensures m <= i
  {
    if i == 0 then 0 else if ops[i - 1].Take? then i else LastTake(ops, i - 1)
  }

  /** A service has exactly the summaries put since the last take by any service: whatever came
      before a take by another service is gone unsent. */
  lemma {:induction false} SummariesSinceAnyTake(ops: seq<QueueOp>, i: nat, service: string)
    requires i <= |ops|
    ensures PendingAt(ops, i, service).summaries == SummariesPut(ops, LastTake(ops, i), i, service)
  {
    if i > 0 && ops[i - 1].Put? {
      SummariesSinceAnyTake(ops, i - 1, service);
    }
  }

  /** What a service is told by a take: each user as the last of those summaries to mention them says. */
  lemma TakenSummaryIsLatest(ops: seq<QueueOp>, t: nat, service: string, user: string)
    requires t < |ops| && ops[t] == Take(service)
    ensures var devices := NextBatch(PendingAt(ops, t, service)).devices;
      var said := LastMention(SummariesPut(ops, LastTake(ops, t), t, service), user);
      (user in devices.changed <==> said == Changed) && (user in devices.left <==> said == Left)
  {
    SummariesSinceAnyTake(ops, t, service);
    BatchConsolidates(PendingAt(ops, t, service));
    hide NextBatch, PendingAt, LastMention, SummariesPut;
  }

  /** So a summary reaches its service exactly when that service is the next one to take: it is
      queued until then, and gone afterwards. */
  lemma NextTakeDecides(ops: seq<QueueOp>, j: nat, t: nat, service: string)
    requires j < t < |ops| && ops[t].Take?
    requires ops[j].Put? && ops[j].service == service && !ops[j].x.devices.Empty()
    requires forall k | j < k < t :: ops[k].Put?
    ensures ops[j].x.devices in PendingAt(ops, t, service).summaries
    ensures PendingAt(ops, t + 1, service).summaries == []
  {
    SummaryStays(ops, j, t, service);
  }

  lemma {:induction false} SummaryStays(ops: seq<QueueOp>, j: nat, t: nat, service: string)
    requires j < t <= |ops|
    requires ops[j].Put? && ops[j].service == service && !ops[j].x.devices.Empty()
    requires forall k | j < k < t :: ops[k].Put?
    ensures ops[j].x.devices in PendingAt(ops, t, service).summaries
  {
    if j + 1 < t {
      SummaryStays(ops, j, t - 1, service);
    }
  }
}
