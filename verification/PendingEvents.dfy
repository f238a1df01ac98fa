/** Room events that wait until everything before them has been persisted. */
module PendingEvents {
  import opened Options
  import opened StreamTokens

  datatype Entry = Entry(
    pos: Position,
    extraUsers: set<string>,
    roomId: string,
    etype: string,
    stateKey: Option<string>,
    membership: Option<string>
  )

  /** Entries beyond a token, which keep waiting, in order. */
  function Uncovered(entries: seq<Entry>, t: Token): seq<Entry> {
    if entries == [] then []
    else
      var last := entries[|entries| - 1];
      Uncovered(entries[..|entries| - 1], t) + if PersistedAfter(last.pos, t) then [last] else []
  }

  /** Entries up to a token, which are notified, in order. */
  function Covered(entries: seq<Entry>, t: Token): seq<Entry> {
    if entries == [] then []
    else
      var last := entries[|entries| - 1];
      Covered(entries[..|entries| - 1], t) + if PersistedAfter(last.pos, t) then [] else [last]
  }

  datatype Op = Append(entry: Entry) | Notify(token: Token)

  /** The list after the first `n` steps of a run. */
  function Pending(ops: seq<Op>, n: nat): seq<Entry>
    requires n <= |ops|
  {
    if n == 0 then []
    else
      match ops[n - 1]
      case Append(e) => Pending(ops, n - 1) + [e]
      case Notify(t) => Uncovered(Pending(ops, n - 1), t)
  }

  /** The entry appended by step `k` has not been covered by any notification before step `n`. */
  ghost predicate Waiting(ops: seq<Op>, n: nat, k: nat)
    requires k < n <= |ops|
  {
    && ops[k].Append?
    && forall j | k < j < n && ops[j].Notify? :: PersistedAfter(ops[k].entry.pos, ops[j].token)
  }

  /** Step `j` is the first notification to cover the entry appended by step `k`. */
  ghost predicate FirstToCover(ops: seq<Op>, j: nat, k: nat)
    requires k < j < |ops|
  {
    ops[j].Notify? && Waiting(ops, j, k) && !PersistedAfter(ops[k].entry.pos, ops[j].token)
  }

  /** The entries appended by the first `m` steps that still wait after `n`, in order. */
  ghost function WaitingList(ops: seq<Op>, n: nat, m: nat): seq<Entry>
    requires m <= n <= |ops|
  {
    if m == 0 then []
    else WaitingList(ops, n, m - 1) + if Waiting(ops, n, m - 1) then [ops[m - 1].entry] else []
  }

  /** The entries appended by the first `m` steps that step `j` is the first to cover, in order. */
  ghost function FirstCovered(ops: seq<Op>, j: nat, m: nat): seq<Entry>
    requires m <= j < |ops|
  {
    if m == 0 then []
    else FirstCovered(ops, j, m - 1) + if FirstToCover(ops, j, m - 1) then [ops[m - 1].entry] else []
  }

  lemma {:induction false} AppendKeepsWaiting(ops: seq<Op>, n: nat, m: nat)
    requires m <= n < |ops| && ops[n].Append?
    ensures WaitingList(ops, n + 1, m) == WaitingList(ops, n, m)
  {
    if m > 0 {
      AppendKeepsWaiting(ops, n, m - 1);
      assert Waiting(ops, n + 1, m - 1) <==> Waiting(ops, n, m - 1);
    }
  }

  lemma {:induction false} NotifySplitsWaiting(ops: seq<Op>, n: nat, m: nat)
    requires m <= n < |ops| && ops[n].Notify?
    ensures Uncovered(WaitingList(ops, n, m), ops[n].token) == WaitingList(ops, n + 1, m)
    ensures Covered(WaitingList(ops, n, m), ops[n].token) == FirstCovered(ops, n, m)
  {
    if m > 0 {
      NotifySplitsWaiting(ops, n, m - 1);
      assert Waiting(ops, n + 1, m - 1)
        <==> Waiting(ops, n, m - 1) && PersistedAfter(ops[m - 1].entry.pos, ops[n].token);
      var w := WaitingList(ops, n, m);
      if Waiting(ops, n, m - 1) {
        assert w[..|w| - 1] == WaitingList(ops, n, m - 1);
      } else {
        assert w == WaitingList(ops, n, m - 1);
      }
    }
  }

  /** The list holds exactly the entries that no notification has covered since they were appended,
      in the order of appending. */
  lemma {:induction false} PendingIsWaiting(ops: seq<Op>, n: nat)
    requires n <= |ops|
    ensures Pending(ops, n) == WaitingList(ops, n, n)
  {
    if n > 0 {
      PendingIsWaiting(ops, n - 1);
      if ops[n - 1].Append? {
        AppendKeepsWaiting(ops, n - 1, n - 1);
        assert Waiting(ops, n, n - 1);
      } else {
        NotifySplitsWaiting(ops, n - 1, n - 1);
      }
    }
  }

  /** A notification notifies exactly the entries that it is the first to cover. */
  lemma NotifiedWhenFirstCovered(ops: seq<Op>, j: nat)
    requires j < |ops| && ops[j].Notify?
    ensures Covered(Pending(ops, j), ops[j].token) == FirstCovered(ops, j, j)
  {
    PendingIsWaiting(ops, j);
    NotifySplitsWaiting(ops, j, j);
  }

  /** That happens once, as soon as some notification covers the entry. */
  lemma {:induction false} NotifiedExactlyOnce(ops: seq<Op>, k: nat)
    requires k < |ops| && ops[k].Append?
    ensures (exists j | k < j < |ops| :: FirstToCover(ops, j, k))
       <==> exists j | k < j < |ops| && ops[j].Notify? :: !PersistedAfter(ops[k].entry.pos, ops[j].token)
    ensures forall i, j | k < i < |ops| && k < j < |ops| && FirstToCover(ops, i, k) && FirstToCover(ops, j, k) :: i == j
  {
    if j :| k < j < |ops| && ops[j].Notify? && !PersistedAfter(ops[k].entry.pos, ops[j].token) {
      var first := LeastCover(ops, k, j);
      assert FirstToCover(ops, first, k);
    }
  }

  lemma {:induction false} LeastCover(ops: seq<Op>, k: nat, j: nat) returns (first: nat)
    requires k < j < |ops| && ops[k].Append? && ops[j].Notify? && !PersistedAfter(ops[k].entry.pos, ops[j].token)
    ensures k < first <= j && FirstToCover(ops, first, k)
    decreases j
  {
    if i :| k < i < j && ops[i].Notify? && !PersistedAfter(ops[k].entry.pos, ops[i].token) {
      first := LeastCover(ops, k, i);
    } else {
      first := j;
    }
  }

  /** Tokens never go back. */
  ghost predicate Growing(ops: seq<Op>) {
    && (forall i | 0 <= i < |ops| && ops[i].Notify? :: Valid(ops[i].token))
    && forall i, j | 0 <= i < j < |ops| && ops[i].Notify? && ops[j].Notify? :: IsBeforeOrEq(ops[i].token, ops[j].token)
  }

  /** With growing tokens, what waits after a notification depends on its token alone: every entry
      ever appended beyond it waits, and no other. */
  lemma LatestTokenDecides(ops: seq<Op>, n: nat, k: nat)
    requires k < n < |ops| && ops[n].Notify? && ops[k].Append? && Growing(ops)
    ensures Waiting(ops, n + 1, k) <==> PersistedAfter(ops[k].entry.pos, ops[n].token)
  {
    forall j | k < j < n && ops[j].Notify?
      ensures PersistedAfter(ops[k].entry.pos, ops[n].token) ==> PersistedAfter(ops[k].entry.pos, ops[j].token)
    {
      OrderIsCoverage(ops[j].token, ops[n].token);
    }
  }
}
