/** Whole porting sessions over all tables, transaction by transaction: set-up and copying interleave as
    they may, and a crash can come between any two transactions. */
module PortSession {
  import opened Options
  import opened PortCopy
  import opened PortWaves
  import opened PortSetup

  datatype Plan = Plan(
    sources: map<string, Table>,
    boolCols: map<string, set<nat>>,
    appendOnly: set<string>,
    constraints: Constraints,
    batchSize: nat
  )

  ghost predicate PlanOk(plan: Plan) {
    && plan.batchSize >= 1
    && plan.boolCols.Keys == plan.sources.Keys
    && AppendOnlyClosed(plan.constraints, plan.appendOnly)
  }

  /** The destination, and how far the present session has come with each table. */
  datatype Session = Session(db: Database, truncated: set<string>, ready: set<string>, ported: set<string>)

  datatype Act =
    | Truncate(t: string)
    | Begin(t: string)
    | Resume(t: string)
    | CopyBatch(t: string)
    | Finish(t: string)
    | Crash

  function Fresh(plan: Plan): Session {
    Session(map t | t in plan.sources :: Stored(None, multiset{}), {}, {}, {})
  }

  /** Copying starts when all tables are set up, with tables that depend only on finished ones. */
  predicate MayCopy(plan: Plan, s: Session, t: string) {
    && t in plan.sources && t in s.db && s.db[t].progress.Some?
    && s.ready == plan.sources.Keys && t !in s.ported && Deps(plan.constraints, t) <= s.ported
  }

  predicate Enabled(plan: Plan, s: Session, a: Act) {
    match a
    case Truncate(t) => t in plan.sources && t in s.db && t !in plan.appendOnly && t !in s.truncated
    case Begin(t) =>
      && t in plan.sources && t in s.db && s.db[t].progress.None? && t !in s.ready
      && (t in plan.appendOnly || t in s.truncated)
    case Resume(t) => t in plan.sources && t in s.db && t in plan.appendOnly && s.db[t].progress.Some? && t !in s.ready
    case CopyBatch(t) => MayCopy(plan, s, t) && BatchIds(plan.sources[t], plan.batchSize, s.db[t].progress.value) != []
    case Finish(t) => MayCopy(plan, s, t) && BatchIds(plan.sources[t], plan.batchSize, s.db[t].progress.value) == []
    case Crash => true
  }

  lemma BatchIdsAreThere(src: Table, batchSize: nat, p: Progress)
    ensures forall i | 0 <= i < |BatchIds(src, batchSize, p)| :: BatchIds(src, batchSize, p)[i] in src
  {
    var f, b := ForwardIds(src, batchSize, p), BackwardIds(src, batchSize, p);
    forall i | 0 <= i < |f + b| ensures (f + b)[i] in src {
      assert if i < |f| then f[i] in f else b[i - |f|] in b;
    }
  }

  /** Forget a table's progress and truncate it, with all that reference it. */
  ghost function Truncated(plan: Plan, s: Session, t: string): Session
    requires t in s.db
  {
    var emptied := TruncateCascade(plan.constraints, s.db, t);
    s.(db := emptied[t := emptied[t].(progress := None)], truncated := s.truncated + {t})
  }

  ghost function Begun(s: Session, t: string): Session
    requires t in s.db
  {
    s.(db := s.db[t := s.db[t].(progress := START)], ready := s.ready + {t})
  }

  ghost function BatchCopied(plan: Plan, s: Session, t: string): Session
    requires MayCopy(plan, s, t) && t in plan.boolCols
  {
    var src, p := plan.sources[t], s.db[t].progress.value;
    BatchIdsAreThere(src, plan.batchSize, p);
    var rows := ConvertAll(plan.boolCols[t], RowsOf(src, BatchIds(src, plan.batchSize, p)));
    s.(db := s.db[t := Stored(Some(Advanced(src, plan.batchSize, p)), s.db[t].rows + multiset(rows))])
  }

  ghost function After(plan: Plan, s: Session, a: Act): Session
    requires Enabled(plan, s, a) && PlanOk(plan)
  {
    match a
    case Truncate(t) => Truncated(plan, s, t)
    case Begin(t) => Begun(s, t)
    case Resume(t) => s.(ready := s.ready + {t})
    case CopyBatch(t) => BatchCopied(plan, s, t)
    case Finish(t) => s.(ported := s.ported + {t})
    case Crash => Session(s.db, {}, {}, {})
  }

  // ---- Invariants ----

  ghost predicate Holds(plan: Plan, s: Session, t: string)
    requires PlanOk(plan) && t in plan.sources && t in s.db
  {
    HoldsRange(plan.sources[t], plan.boolCols[t], s.db[t].progress, s.db[t].rows)
  }

  /** Every row of the table has been copied. */
  ghost predicate Copied(plan: Plan, s: Session, t: string)
    requires PlanOk(plan)
  {
    && t in plan.sources && t in s.db
    && Holds(plan, s, t) && s.db[t].progress.Some? && AllCovered(plan.sources[t], s.db[t].progress.value)
  }

  /** A table has rows only if every table it references has been copied. */
  ghost predicate ReferencesResolve(plan: Plan, s: Session)
    requires PlanOk(plan)
  {
    forall t <- s.db | s.db[t].rows != multiset{} :: forall d <- Deps(plan.constraints, t) :: Copied(plan, s, d)
  }

  /** How far the session says it has come. */
  ghost predicate WellPhased(plan: Plan, s: Session) {
    && s.db.Keys == plan.sources.Keys
    && s.truncated <= plan.sources.Keys && s.ready <= plan.sources.Keys && s.ported <= plan.sources.Keys
    && s.truncated !! plan.appendOnly
    && (s.ported != {} ==> s.ready == plan.sources.Keys)
    && (forall t <- s.ready :: s.db[t].progress.Some? && (t in plan.appendOnly || t in s.truncated))
    && (forall t <- s.truncated :: t in s.ready || s.db[t].progress.None?)
  }

  ghost predicate AllHold(plan: Plan, s: Session)
    requires PlanOk(plan) && s.db.Keys == plan.sources.Keys
  {
    forall t <- plan.sources | t in plan.appendOnly || t in s.truncated :: Holds(plan, s, t)
  }

  /** Until all tables are set up, those that were truncated stay empty. */
  ghost predicate EmptyUntilReady(plan: Plan, s: Session)
    requires s.truncated <= s.db.Keys
  {
    s.ready != plan.sources.Keys ==>
      forall t <- s.truncated :: s.db[t].rows == multiset{} && (s.db[t].progress.None? || s.db[t].progress == START)
  }

  ghost predicate PortedCopied(plan: Plan, s: Session)
    requires PlanOk(plan)
  {
    forall t <- s.ported :: Copied(plan, s, t)
  }

  ghost predicate Consistent(plan: Plan, s: Session)
    requires PlanOk(plan)
  {
    && WellPhased(plan, s) && AllHold(plan, s) && EmptyUntilReady(plan, s)
    && PortedCopied(plan, s) && ReferencesResolve(plan, s)
  }

  lemma FreshIsConsistent(plan: Plan)
    requires PlanOk(plan)
    ensures Consistent(plan, Fresh(plan))
  {
  }

  // ---- Truncating ----

  lemma ReferenceExtends(constraints: Constraints, t: string, d: string, u: string)
    requires d in Deps(constraints, t) && References(constraints, d, u)
    ensures References(constraints, t, u)
  {
    var p: seq<string> :| p != [] && IsPath(constraints, p) && p[0] == d && p[|p| - 1] == u;
    PathPrepends(constraints, t, p);
    var q := [t] + p;
    assert q[0] == t && q[|q| - 1] == u;
  }

  lemma SelfReference(constraints: Constraints, t: string)
    ensures References(constraints, t, t)
  {
    assert [t] != [] && IsPath(constraints, [t]) && [t][0] == t && [t][|[t]| - 1] == t;
  }

  /** Truncating a table empties whatever references it, so that nothing is left that misses a row. */
  lemma TruncateKeepsReferences(plan: Plan, s: Session, u: string)
    requires PlanOk(plan) && u in s.db && ReferencesResolve(plan, s)
    ensures ReferencesResolve(plan, Truncated(plan, s, u))
  {
    hide HoldsRange, References, AllCovered;
    var s' := Truncated(plan, s, u);
    SelfReference(plan.constraints, u);
    forall t <- s'.db | s'.db[t].rows != multiset{}
      ensures forall d <- Deps(plan.constraints, t) :: Copied(plan, s', d)
    {
      forall d <- Deps(plan.constraints, t) ensures Copied(plan, s', d) {
        assert Copied(plan, s, d);
        if References(plan.constraints, d, u) {
          ReferenceExtends(plan.constraints, t, d, u);
        }
      }
    }
  }

  lemma TruncateKeepsRanges(plan: Plan, s: Session, u: string)
    requires PlanOk(plan) && WellPhased(plan, s) && AllHold(plan, s) && EmptyUntilReady(plan, s)
    requires Enabled(plan, s, Truncate(u))
    ensures WellPhased(plan, Truncated(plan, s, u)) && EmptyUntilReady(plan, Truncated(plan, s, u))
    ensures AllHold(plan, Truncated(plan, s, u))
  {
    hide References, AppendOnlyClosed, HoldsRange;
    var s' := Truncated(plan, s, u);
    SelfReference(plan.constraints, u);
    EmptyHolds(plan);
    assert u !in s.ready;
    forall t <- plan.sources | t in plan.appendOnly || t in s'.truncated
      ensures Holds(plan, s', t)
    {
      if t in plan.appendOnly {
        NotReferenced(plan.constraints, plan.appendOnly, t, u);
        assert s'.db[t] == s.db[t] && Holds(plan, s, t);
      } else if t != u {
        assert s'.db[t].rows == multiset{};
      }
    }
  }

  lemma EmptyHolds(plan: Plan)
    requires PlanOk(plan)
    ensures forall t <- plan.sources :: HoldsRange(plan.sources[t], plan.boolCols[t], None, multiset{})
    ensures forall t <- plan.sources :: HoldsRange(plan.sources[t], plan.boolCols[t], START, multiset{})
  {
    forall t <- plan.sources ensures HoldsRange(plan.sources[t], plan.boolCols[t], START, multiset{}) {
      EmptyStart(plan.sources[t], plan.boolCols[t]);
    }
  }

  lemma TruncateKeeps(plan: Plan, s: Session, u: string)
    requires PlanOk(plan) && Consistent(plan, s) && Enabled(plan, s, Truncate(u))
    ensures Consistent(plan, Truncated(plan, s, u))
  {
    NonePorted(plan, s, u);
    hide Truncated, WellPhased, AllHold, EmptyUntilReady, ReferencesResolve;
    TruncateKeepsRanges(plan, s, u);
    TruncateKeepsReferences(plan, s, u);
  }

  lemma NonePorted(plan: Plan, s: Session, u: string)
    requires PlanOk(plan) && WellPhased(plan, s) && Enabled(plan, s, Truncate(u))
    ensures Truncated(plan, s, u).ported == {}
  {
    assert u !in s.ready;
  }

  // ---- Acts on one table ----

  /** What one table may do without disturbing the others: nothing, or gain rows while not yet copied. */
  lemma OthersUndisturbed(plan: Plan, s: Session, s': Session, t: string)
    requires PlanOk(plan) && PortedCopied(plan, s) && ReferencesResolve(plan, s) && t in plan.sources && t in s.db
    requires s'.db.Keys == s.db.Keys && forall u <- s.db | u != t :: s'.db[u] == s.db[u]
    requires Copied(plan, s, t) ==> s'.db[t] == s.db[t]
    requires s'.db[t].rows != multiset{} ==>
      s.db[t].rows != multiset{} || forall d <- Deps(plan.constraints, t) :: Copied(plan, s, d)
    ensures ReferencesResolve(plan, s')
    ensures forall u <- s.ported :: Copied(plan, s', u)
  {
    hide HoldsRange, AllCovered, AppendOnlyClosed;
    forall d | Copied(plan, s, d) ensures Copied(plan, s', d) {
    }
  }

  /** Only `t` has changed, to a state in which it may be ready. */
  ghost predicate OnlyReadied(plan: Plan, s: Session, s': Session, t: string) {
    && t in plan.sources
    && s'.db.Keys == s.db.Keys == plan.sources.Keys && (forall u <- s.db | u != t :: s'.db[u] == s.db[u])
    && s'.truncated == s.truncated && s'.ported == s.ported
    && s'.ready == s.ready + {t} && (t in plan.appendOnly || t in s.truncated)
    && s'.db[t].progress.Some?
  }

  lemma OneReadied(plan: Plan, s: Session, s': Session, t: string)
    requires WellPhased(plan, s) && OnlyReadied(plan, s, s', t)
    ensures WellPhased(plan, s')
  {
    assert s.ported != {} ==> s'.ready == plan.sources.Keys;
  }

  lemma OneEmpty(plan: Plan, s: Session, s': Session, t: string)
    requires WellPhased(plan, s) && EmptyUntilReady(plan, s) && OnlyReadied(plan, s, s', t)
    requires s.ready == plan.sources.Keys || s'.db[t] == s.db[t]
          || (s'.db[t].rows == multiset{} && s'.db[t].progress == START)
    ensures EmptyUntilReady(plan, s')
  {
    if s.ready == plan.sources.Keys {
      assert s'.ready == plan.sources.Keys;
    }
  }

  lemma OneHolds(plan: Plan, s: Session, s': Session, t: string)
    requires PlanOk(plan) && OnlyReadied(plan, s, s', t) && AllHold(plan, s) && Holds(plan, s', t)
    ensures AllHold(plan, s')
  {
    hide HoldsRange, AppendOnlyClosed;
    forall u <- plan.sources | u in plan.appendOnly || u in s'.truncated ensures Holds(plan, s', u) {
      if u != t {
        assert Holds(plan, s, u);
      }
    }
  }

  /** The same for the rest of the invariants. */
  lemma OneTableKeeps(plan: Plan, s: Session, s': Session, t: string)
    requires PlanOk(plan) && WellPhased(plan, s) && AllHold(plan, s) && EmptyUntilReady(plan, s)
    requires OnlyReadied(plan, s, s', t) && Holds(plan, s', t)
    requires s.ready == plan.sources.Keys || s'.db[t] == s.db[t]
          || (s'.db[t].rows == multiset{} && s'.db[t].progress == START)
    ensures WellPhased(plan, s') && AllHold(plan, s') && EmptyUntilReady(plan, s')
  {
    OneReadied(plan, s, s', t);
    OneEmpty(plan, s, s', t);
    hide WellPhased, AllHold, EmptyUntilReady, PlanOk;
    OneHolds(plan, s, s', t);
  }

  lemma BeginKeeps(plan: Plan, s: Session, t: string)
    requires PlanOk(plan) && Consistent(plan, s) && Enabled(plan, s, Begin(t))
    ensures Consistent(plan, Begun(s, t))
  {
    var s' := Begun(s, t);
    assert Holds(plan, s, t) && s.db[t].rows == multiset{};
    EmptyHolds(plan);
    OthersUndisturbed(plan, s, s', t);
    OneTableKeeps(plan, s, s', t);
    hide ReferencesResolve, WellPhased, AllHold, EmptyUntilReady;
  }

  lemma ResumeKeeps(plan: Plan, s: Session, t: string)
    requires PlanOk(plan) && Consistent(plan, s) && Enabled(plan, s, Resume(t))
    ensures Consistent(plan, s.(ready := s.ready + {t}))
  {
    hide HoldsRange, AllCovered, AppendOnlyClosed;
    var s' := s.(ready := s.ready + {t});
    assert Holds(plan, s, t);
    OthersUndisturbed(plan, s, s', t);
    OneTableKeeps(plan, s, s', t);
    hide ReferencesResolve, WellPhased, AllHold, EmptyUntilReady;
  }

  lemma BatchHolds(plan: Plan, s: Session, t: string)
    requires PlanOk(plan) && Enabled(plan, s, CopyBatch(t)) && Holds(plan, s, t)
    ensures Holds(plan, BatchCopied(plan, s, t), t) && BatchCopied(plan, s, t).db[t].progress.Some?
    ensures !Copied(plan, s, t)
  {
    hide AppendOnlyClosed, BatchIds, Advanced, ConvertAll, Image, Between;
    var src, p := plan.sources[t], s.db[t].progress.value;
    EmptyBatchMeansDone(src, plan.batchSize, p);
    BatchAdvances(src, plan.boolCols[t], plan.batchSize, p, s.db[t].rows);
  }

  lemma CopyReadies(plan: Plan, s: Session, t: string)
    requires PlanOk(plan) && WellPhased(plan, s) && Enabled(plan, s, CopyBatch(t))
    requires BatchCopied(plan, s, t).db[t].progress.Some?
    ensures OnlyReadied(plan, s, BatchCopied(plan, s, t), t) && s.ready == plan.sources.Keys
    ensures t in plan.appendOnly || t in s.truncated
  {
    hide BatchIds, Advanced, ConvertAll, AppendOnlyClosed;
    assert t in s.ready;
    assert s.ready + {t} == s.ready;
  }

  lemma CopyKeeps(plan: Plan, s: Session, t: string)
    requires PlanOk(plan) && Consistent(plan, s) && Enabled(plan, s, CopyBatch(t))
    ensures Consistent(plan, BatchCopied(plan, s, t))
  {
    var s' := BatchCopied(plan, s, t);
    assert Deps(plan.constraints, t) <= s.ported && t in s.ready;
    assert t in plan.appendOnly || t in s.truncated;
    assert Holds(plan, s, t);
    hide BatchCopied, PlanOk, HoldsRange, AllCovered, WellPhased, AllHold, EmptyUntilReady, ReferencesResolve, BatchIds;
    BatchHolds(plan, s, t);
    CopyReadies(plan, s, t);
    forall d <- Deps(plan.constraints, t) ensures Copied(plan, s, d) {
      assert d in s.ported;
    }
    hide Copied;
    OthersUndisturbed(plan, s, s', t);
    hide OnlyReadied;
    OneTableKeeps(plan, s, s', t);
  }

  lemma FinishKeeps(plan: Plan, s: Session, t: string)
    requires PlanOk(plan) && Consistent(plan, s) && Enabled(plan, s, Finish(t))
    ensures Consistent(plan, s.(ported := s.ported + {t}))
  {
    hide AppendOnlyClosed, BatchIds, Image, Between;
    var s' := s.(ported := s.ported + {t});
    assert t in s.ready && Holds(plan, s, t);
    EmptyBatchMeansDone(plan.sources[t], plan.batchSize, s.db[t].progress.value);
    hide HoldsRange, AllCovered;
    OthersUndisturbed(plan, s, s', t);
    hide ReferencesResolve;
    assert WellPhased(plan, s');
    forall u <- plan.sources | u in plan.appendOnly || u in s'.truncated ensures Holds(plan, s', u) {
      assert Holds(plan, s, u);
    }
  }

  lemma CrashKeeps(plan: Plan, s: Session)
    requires PlanOk(plan) && Consistent(plan, s)
    ensures Consistent(plan, Session(s.db, {}, {}, {}))
  {
    hide HoldsRange, AllCovered, AppendOnlyClosed;
    var s' := Session(s.db, {}, {}, {});
    forall u <- plan.sources | u in plan.appendOnly ensures Holds(plan, s', u) {
      assert Holds(plan, s, u);
    }
    forall d | Copied(plan, s, d) ensures Copied(plan, s', d) {
    }
  }

  lemma ActKeeps(plan: Plan, s: Session, a: Act)
    requires PlanOk(plan) && Consistent(plan, s) && Enabled(plan, s, a)
    ensures Consistent(plan, After(plan, s, a))
  {
    hide Consistent, Truncated, Begun, BatchCopied;
    match a
    case Truncate(t) => TruncateKeeps(plan, s, t);
    case Begin(t) => BeginKeeps(plan, s, t);
    case Resume(t) => ResumeKeeps(plan, s, t);
    case CopyBatch(t) => CopyKeeps(plan, s, t);
    case Finish(t) => FinishKeeps(plan, s, t);
    case Crash => CrashKeeps(plan, s);
  }

  // ---- Runs ----

  /** The state after a sequence of transactions and crashes, if each could happen in turn. */
  ghost function Reached(plan: Plan, acts: seq<Act>): Option<Session>
    requires PlanOk(plan)
  {
    if acts == [] then Some(Fresh(plan))
    else
      var before := Reached(plan, acts[..|acts| - 1]);
      if before.None? || !Enabled(plan, before.value, acts[|acts| - 1]) then None
      else Some(After(plan, before.value, acts[|acts| - 1]))
  }

  lemma {:induction false} SessionsAreConsistent(plan: Plan, acts: seq<Act>)
    requires PlanOk(plan) && Reached(plan, acts).Some?
    ensures Consistent(plan, Reached(plan, acts).value)
  {
    hide Enabled, After, Consistent;
    if acts == [] {
      FreshIsConsistent(plan);
    } else {
      SessionsAreConsistent(plan, acts[..|acts| - 1]);
      ActKeeps(plan, Reached(plan, acts[..|acts| - 1]).value, acts[|acts| - 1]);
    }
  }

  /** At every moment of every session, however often the porter has crashed: an append-only table holds
      each storable row between its saved IDs exactly once and nothing else; a table has rows only if
      every table it references is complete; and a finished table is complete. */
  lemma SessionsAreSafe(plan: Plan, acts: seq<Act>)
    requires PlanOk(plan) && Reached(plan, acts).Some?
    ensures var db := Reached(plan, acts).value.db;
      && db.Keys == plan.sources.Keys
      && (forall t <- plan.appendOnly :: t in db ==>
            HoldsRange(plan.sources[t], plan.boolCols[t], db[t].progress, db[t].rows))
      && (forall t <- db | db[t].rows != multiset{} && t in plan.constraints :: forall d <- plan.constraints[t] ::
            d in db && db[d].rows == Image(plan.sources[d], plan.boolCols[d], plan.sources[d].Keys))
      && (forall t <- Reached(plan, acts).value.ported ::
            t in db && db[t].rows == Image(plan.sources[t], plan.boolCols[t], plan.sources[t].Keys))
  {
    hide Enabled, After;
    SessionsAreConsistent(plan, acts);
    var s := Reached(plan, acts).value;
    hide Reached;
    forall t | Copied(plan, s, t)
      ensures s.db[t].rows == Image(plan.sources[t], plan.boolCols[t], plan.sources[t].Keys)
    {
      CoveredIsComplete(plan.sources[t], plan.boolCols[t], s.db[t].progress.value, s.db[t].rows);
    }
  }

  lemma SomeMayCopy(plan: Plan, s: Session) returns (t: string)
    requires WellPhased(plan, s) && s.ready == plan.sources.Keys && s.ported != plan.sources.Keys
    requires Acyclic(plan.constraints, plan.sources.Keys) && Closed(plan.constraints, plan.sources.Keys)
    ensures MayCopy(plan, s, t)
  {
    hide Acyclic;
    var rest := plan.sources.Keys - s.ported;
    assert forall u <- plan.sources.Keys :: u in rest || u in s.ported;
    assert rest == {} ==> plan.sources.Keys == s.ported;
    t := MinimalExists(plan.constraints, plan.sources.Keys, rest);
    assert t in s.ready;
    assert forall d <- Deps(plan.constraints, t) :: d in plan.sources.Keys && d !in rest;
  }

  /** While tables are missing, and the constraints have no cycle among the tables and lead to no other,
      some table can be copied on or finished. */
  lemma CopyingGoesOn(plan: Plan, acts: seq<Act>) returns (a: Act)
    requires PlanOk(plan) && Reached(plan, acts).Some?
    requires Acyclic(plan.constraints, plan.sources.Keys) && Closed(plan.constraints, plan.sources.Keys)
    requires var s := Reached(plan, acts).value; s.ready == plan.sources.Keys && s.ported != plan.sources.Keys
    ensures (a.CopyBatch? || a.Finish?) && Enabled(plan, Reached(plan, acts).value, a)
  {
    SessionsAreConsistent(plan, acts);
    hide Reached, Acyclic, Closed, WellPhased, BatchIds, MayCopy, PlanOk;
    var s := Reached(plan, acts).value;
    var t := SomeMayCopy(plan, s);
    a := NextAct(plan, s, t);
  }

  function NextAct(plan: Plan, s: Session, t: string): (a: Act)
    requires MayCopy(plan, s, t)
    ensures (a.CopyBatch? || a.Finish?) && Enabled(plan, s, a)
  {
    if BatchIds(plan.sources[t], plan.batchSize, s.db[t].progress.value) == [] then Finish(t) else CopyBatch(t)
  }

  /** While some table is not set up, some step of the set-up can be taken. */
  lemma SetupGoesOn(plan: Plan, s: Session) returns (a: Act)
    requires WellPhased(plan, s) && s.ready != plan.sources.Keys
    ensures Enabled(plan, s, a) && (a.Truncate? || a.Begin? || a.Resume?)
  {
    assert exists t :: t in plan.sources.Keys - s.ready by {
      assert forall t <- plan.sources.Keys :: t in s.ready || t in plan.sources.Keys - s.ready;
      assert plan.sources.Keys - s.ready == {} ==> plan.sources.Keys == s.ready;
    }
    var t :| t in plan.sources.Keys - s.ready;
    a := if t !in plan.appendOnly && t !in s.truncated then Truncate(t)
         else if s.db[t].progress.None? then Begin(t)
         else Resume(t);
  }

  // ---- Sessions end ----

  ghost function Sum(m: map<string, nat>): nat
    decreases |m.Keys|
  {
    if m.Keys == {} then 0
    else
      var k :| k in m.Keys;
      assert (m - {k}).Keys == m.Keys - {k};
      m[k] + Sum(m - {k})
  }

  lemma {:induction false} SumTakesOut(m: map<string, nat>, k: string)
    requires k in m
    ensures Sum(m) == m[k] + Sum(m - {k})
    decreases |m.Keys|
  {
    var j :| j in m.Keys && Sum(m) == m[j] + Sum(m - {j});
    if j != k {
      assert (m - {j}).Keys == m.Keys - {j} && (m - {k}).Keys == m.Keys - {k};
      SumTakesOut(m - {j}, k);
      SumTakesOut(m - {k}, j);
      assert m - {j} - {k} == m - {k} - {j};
    }
  }

  lemma SumChanges(m: map<string, nat>, n: map<string, nat>, k: string)
    requires k in m && n.Keys == m.Keys && forall j <- m | j != k :: n[j] == m[j]
    ensures Sum(n) + m[k] == Sum(m) + n[k]
  {
    SumTakesOut(m, k);
    SumTakesOut(n, k);
    assert m - {k} == n - {k};
  }

  /** The rows of a table that the session still has to look at. */
  ghost function Left(plan: Plan, s: Session, t: string): nat
    requires t in plan.sources && t in s.db
  {
    if t in s.ready && s.db[t].progress.Some? then |Outside(plan.sources[t], s.db[t].progress.value)|
    else |plan.sources[t]|
  }

  ghost function RowsLeft(plan: Plan, s: Session): map<string, nat>
    requires s.db.Keys == plan.sources.Keys
  {
    map t | t in plan.sources :: Left(plan, s, t)
  }

  /** Rows to look at, and tables to truncate, to set up and to finish. */
  ghost function Work(plan: Plan, s: Session): nat
    requires s.db.Keys == plan.sources.Keys
  {
    Sum(RowsLeft(plan, s)) + |plan.sources.Keys - plan.appendOnly - s.truncated|
    + |plan.sources.Keys - s.ready| + |plan.sources.Keys - s.ported|
  }

  lemma OneFewer<T>(all: set<T>, done: set<T>, t: T)
    requires t in all && t !in done
    ensures |all - (done + {t})| == |all - done| - 1
  {
    assert all - (done + {t}) == all - done - {t};
  }

  lemma TruncateLowers(plan: Plan, s: Session, t: string)
    requires PlanOk(plan) && WellPhased(plan, s) && Enabled(plan, s, Truncate(t))
    ensures Truncated(plan, s, t).db.Keys == plan.sources.Keys && Work(plan, Truncated(plan, s, t)) < Work(plan, s)
  {
    hide References, Sum;
    var s' := Truncated(plan, s, t);
    assert t !in s.ready;
    assert RowsLeft(plan, s') == RowsLeft(plan, s);
    OneFewer(plan.sources.Keys - plan.appendOnly, s.truncated, t);
  }

  lemma ReadyLowers(plan: Plan, s: Session, s': Session, t: string)
    requires WellPhased(plan, s) && OnlyReadied(plan, s, s', t) && t !in s.ready
    ensures Work(plan, s') < Work(plan, s)
  {
    hide Sum, Outside;
    OutsideBound(plan.sources[t], s'.db[t].progress.value);
    SumChanges(RowsLeft(plan, s), RowsLeft(plan, s'), t);
    OneFewer(plan.sources.Keys, s.ready, t);
  }

  lemma CopyLowers(plan: Plan, s: Session, t: string)
    requires PlanOk(plan) && WellPhased(plan, s) && Enabled(plan, s, CopyBatch(t)) && Holds(plan, s, t)
    ensures BatchCopied(plan, s, t).db.Keys == plan.sources.Keys && Work(plan, BatchCopied(plan, s, t)) < Work(plan, s)
  {
    var src, p := plan.sources[t], s.db[t].progress.value;
    hide Sum, Outside, BatchIds, Advanced, ConvertAll, HoldsRange, AppendOnlyClosed;
    BatchAdvances(src, plan.boolCols[t], plan.batchSize, p, s.db[t].rows);
    var s' := BatchCopied(plan, s, t);
    assert t in s.ready;
    SumChanges(RowsLeft(plan, s), RowsLeft(plan, s'), t);
  }

  lemma FinishLowers(plan: Plan, s: Session, t: string)
    requires WellPhased(plan, s) && Enabled(plan, s, Finish(t))
    ensures Work(plan, s.(ported := s.ported + {t})) < Work(plan, s)
  {
    hide Sum;
    assert RowsLeft(plan, s.(ported := s.ported + {t})) == RowsLeft(plan, s);
    OneFewer(plan.sources.Keys, s.ported, t);
  }

  /** Every act but a crash lowers the work left. */
  lemma ActLowers(plan: Plan, s: Session, a: Act)
    requires PlanOk(plan) && Consistent(plan, s) && Enabled(plan, s, a) && !a.Crash?
    ensures After(plan, s, a).db.Keys == plan.sources.Keys && Work(plan, After(plan, s, a)) < Work(plan, s)
  {
    hide Work, HoldsRange, ReferencesResolve, PortedCopied, EmptyUntilReady, BatchIds;
    match a
    case Truncate(t) => TruncateLowers(plan, s, t);
    case Begin(t) => ReadyLowers(plan, s, Begun(s, t), t);
    case Resume(t) => ReadyLowers(plan, s, s.(ready := s.ready + {t}), t);
    case CopyBatch(t) =>
      assert t in s.ready && Holds(plan, s, t);
      CopyLowers(plan, s, t);
    case Finish(t) => FinishLowers(plan, s, t);
  }

  lemma ReachedTables(plan: Plan, acts: seq<Act>)
    requires PlanOk(plan) && Reached(plan, acts).Some?
    ensures Reached(plan, acts).value.db.Keys == plan.sources.Keys
  {
    SessionsAreConsistent(plan, acts);
  }

  /** From any moment on, a session that does not crash takes no more acts than there is work left. */
  lemma {:induction false} UndisturbedSessionsEnd(plan: Plan, acts: seq<Act>, more: seq<Act>)
    requires PlanOk(plan) && Reached(plan, acts).Some? && Reached(plan, acts + more).Some?
    requires Crash !in more
    ensures Reached(plan, acts).value.db.Keys == Reached(plan, acts + more).value.db.Keys == plan.sources.Keys
    ensures |more| + Work(plan, Reached(plan, acts + more).value) <= Work(plan, Reached(plan, acts).value)
  {
    hide Enabled, After, Work, Consistent, PlanOk;
    ReachedTables(plan, acts);
    ReachedTables(plan, acts + more);
    if more == [] {
      assert acts + more == acts;
    } else {
      var n := |more| - 1;
      assert (acts + more)[..|acts + more| - 1] == acts + more[..n];
      UndisturbedSessionsEnd(plan, acts, more[..n]);
      SessionsAreConsistent(plan, acts + more[..n]);
      ActLowers(plan, Reached(plan, acts + more[..n]).value, more[n]);
    }
  }

  /** And where it can go no further, every table is complete. */
  lemma SessionsEndComplete(plan: Plan, acts: seq<Act>)
    requires PlanOk(plan) && Reached(plan, acts).Some?
    requires Acyclic(plan.constraints, plan.sources.Keys) && Closed(plan.constraints, plan.sources.Keys)
    requires forall a: Act | !a.Crash? :: !Enabled(plan, Reached(plan, acts).value, a)
    ensures var db := Reached(plan, acts).value.db;
      && db.Keys == plan.sources.Keys
      && forall t <- plan.sources ::
           t in db && t in plan.boolCols && db[t].rows == Image(plan.sources[t], plan.boolCols[t], plan.sources[t].Keys)
  {
    hide Enabled, After, Acyclic, Closed, Image;
    SessionsAreConsistent(plan, acts);
    SessionsAreSafe(plan, acts);
    var s := Reached(plan, acts).value;
    if s.ready != plan.sources.Keys {
      var a := SetupGoesOn(plan, s);
      assert false;
    }
    if s.ported != plan.sources.Keys {
      var a := CopyingGoesOn(plan, acts);
      assert false;
    }
  }
}
