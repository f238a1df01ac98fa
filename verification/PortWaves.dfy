/** The order in which tables are ported: in waves, each of the tables that depend only on tables
    already ported. */
module PortWaves {
  import opened Options

  type Constraints = map<string, set<string>>

  function Deps(constraints: Constraints, t: string): set<string> {
    Get(constraints, t).GetOr({})
  }

  /** Tables linked by "depends on", one after the other. */
  predicate IsPath(constraints: Constraints, p: seq<string>) {
    forall i | 0 <= i < |p| - 1 :: p[i + 1] in Deps(constraints, p[i])
  }

  ghost predicate IsCycle(constraints: Constraints, p: seq<string>) {
    |p| >= 2 && IsPath(constraints, p) && p[0] == p[|p| - 1]
  }

  ghost predicate Acyclic(constraints: Constraints, tables: set<string>) {
    forall p: seq<string> | IsCycle(constraints, p) :: exists t <- p :: t !in tables
  }

  /** Every dependency of a table to port is itself to be ported. */
  ghost predicate Closed(constraints: Constraints, tables: set<string>) {
    forall t <- tables :: Deps(constraints, t) <= tables
  }

  // ---- A table without dependencies among the rest ----

  ghost predicate IsMinimal(constraints: Constraints, rest: set<string>, t: string) {
    t in rest && forall d <- Deps(constraints, t) :: d !in rest
  }

  lemma NextOnPath(constraints: Constraints, rest: set<string>, t: string) returns (next: string)
    requires t in rest && !IsMinimal(constraints, rest, t)
    ensures next in Deps(constraints, t) && next in rest
  {
    next :| next in Deps(constraints, t) && next in rest;
  }

  /** Following dependencies inside `rest` for `n` steps. */
  lemma {:induction false} Walk(constraints: Constraints, rest: set<string>, start: string,
      n: nat) returns (p: seq<string>)
    requires start in rest
    requires forall t <- rest :: !IsMinimal(constraints, rest, t)
    ensures |p| == n + 1 && p[0] == start && IsPath(constraints, p) && forall t <- p :: t in rest
    decreases n
  {
    if n == 0 {
      p := [start];
    } else {
      hide IsMinimal, Deps, IsPath;
      var next := NextOnPath(constraints, rest, start);
      var q := Walk(constraints, rest, next, n - 1);
      p := [start] + q;
      PathPrepends(constraints, start, q);
    }
  }

  lemma PathPrepends(constraints: Constraints, start: string, q: seq<string>)
    requires q != [] && IsPath(constraints, q) && q[0] in Deps(constraints, start)
    ensures IsPath(constraints, [start] + q)
  {
    hide Deps;
    var p := [start] + q;
    forall i | 0 <= i < |p| - 1 ensures p[i + 1] in Deps(constraints, p[i]) {
      if i > 0 {
        assert q[i - 1 + 1] in Deps(constraints, q[i - 1]);
      }
    }
  }

  /** A sequence longer than the set it draws from repeats an element. */
  lemma {:induction false} Pigeonhole(p: seq<string>, rest: set<string>) returns (i: nat, j: nat)
    requires |p| > |rest| && forall t <- p :: t in rest
    ensures i < j < |p| && p[i] == p[j]
    decreases |p|
  {
    var n := |p| - 1;
    if k :| 0 <= k < n && p[k] == p[n] {
      i, j := k, n;
    } else {
      assert p[n] in rest;
      forall t <- p[..n] ensures t in rest - {p[n]} {
      }
      i, j := Pigeonhole(p[..n], rest - {p[n]});
    }
  }

  /** Without cycles, some table of any group depends on no other of the group. */
  lemma {:induction false} MinimalExists(constraints: Constraints, tables: set<string>, rest: set<string>)
    returns (t: string)
    requires Acyclic(constraints, tables) && rest <= tables && rest != {}
    ensures IsMinimal(constraints, rest, t)
  {
    if x :| x in rest && IsMinimal(constraints, rest, x) {
      t := x;
    } else {
      t := Element(rest);
      var p := Walk(constraints, rest, t, |rest|);
      var i, j := Pigeonhole(p, rest);
      RepeatIsCycle(constraints, p, i, j);
      forall u <- p[i..j + 1] ensures u in tables {
        assert u in p;
      }
      assert false;
    }
  }

  lemma {:induction false} RepeatIsCycle(constraints: Constraints, p: seq<string>, i: nat, j: nat)
    requires IsPath(constraints, p) && i < j < |p| && p[i] == p[j]
    ensures IsCycle(constraints, p[i..j + 1])
  {
    hide Deps;
    var cycle := p[i..j + 1];
    forall k | 0 <= k < |cycle| - 1 ensures cycle[k + 1] in Deps(constraints, cycle[k]) {
      assert p[i + k + 1] in Deps(constraints, p[i + k]);
    }
  }

  // ---- The loop ----

  function Wave(constraints: Constraints, remaining: set<string>, ported: set<string>): set<string> {
    set t | t in remaining && Deps(constraints, t) <= ported
  }

  function Union(waves: seq<set<string>>): set<string> {
    if waves == [] then {} else Union(waves[..|waves| - 1]) + waves[|waves| - 1]
  }

  /** Each wave is new, and depends only on the waves before it. */
  ghost predicate InDependencyOrder(constraints: Constraints, waves: seq<set<string>>) {
    waves == []
    || (var before, last := waves[..|waves| - 1], waves[|waves| - 1];
        && InDependencyOrder(constraints, before)
        && last != {}
        && last !! Union(before)
        && forall t <- last :: Deps(constraints, t) <= Union(before))
  }

  /** No table waits longer than it must: whatever comes after the first wave depends on a table of the
      wave just before. */
  ghost predicate NoLaterThanNeeded(constraints: Constraints, waves: seq<set<string>>) {
    forall i, t | 0 < i < |waves| && t in waves[i] :: t in constraints && constraints[t] * waves[i - 1] != {}
  }

  /** Every remaining table still lacked something before the last wave. */
  ghost predicate NotReadyBefore(constraints: Constraints, waves: seq<set<string>>, remaining: set<string>) {
    waves != [] ==> forall t <- remaining :: !(Deps(constraints, t) <= Union(waves[..|waves| - 1]))
  }

  /** Port all tables, wave by wave. */
  method RunWaves(constraints: Constraints, tables: set<string>) returns (waves: seq<set<string>>)
    requires Acyclic(constraints, tables) && Closed(constraints, tables)
    ensures Union(waves) == tables && InDependencyOrder(constraints, waves)
    ensures NoLaterThanNeeded(constraints, waves)
    ensures |waves| <= |tables|
  {
    hide Acyclic, Closed, Wave, NoLaterThanNeeded, NotReadyBefore, InDependencyOrder, Union, Deps;
    NothingPorted(constraints, tables);
    var remaining, ported := tables, {};
    waves := [];
    while remaining != {}
      invariant remaining !! ported && remaining + ported == tables
      invariant Union(waves) == ported && InDependencyOrder(constraints, waves)
      invariant NoLaterThanNeeded(constraints, waves) && NotReadyBefore(constraints, waves, remaining)
      invariant |waves| + |remaining| <= |tables|
      decreases |remaining|
    {
      var wave := Wave(constraints, remaining, ported);
      WaveAdvances(constraints, tables, remaining, ported, wave);
      WaveExtends(constraints, waves, wave);
      WaveIsNotLate(constraints, waves, remaining, wave);
      remaining := remaining - wave;
      ported := ported + wave;
      waves := waves + [wave];
    }
  }

  lemma WaveAdvances(constraints: Constraints, tables: set<string>, remaining: set<string>, ported: set<string>,
      wave: set<string>)
    requires Acyclic(constraints, tables) && Closed(constraints, tables)
    requires remaining !! ported && remaining + ported == tables && remaining != {}
    requires wave == Wave(constraints, remaining, ported)
    ensures wave != {} && wave <= remaining && wave !! ported && |remaining - wave| < |remaining|
    ensures forall t <- wave :: Deps(constraints, t) <= ported
  {
    var t := MinimalExists(constraints, tables, remaining);
    hide Acyclic;
    assert Deps(constraints, t) <= tables;
    assert t in wave;
    WaveShrinks(remaining, wave);
  }

  lemma WaveExtends(constraints: Constraints, waves: seq<set<string>>, wave: set<string>)
    requires InDependencyOrder(constraints, waves) && wave != {} && wave !! Union(waves)
    requires forall t <- wave :: Deps(constraints, t) <= Union(waves)
    ensures Union(waves + [wave]) == Union(waves) + wave
    ensures InDependencyOrder(constraints, waves + [wave])
  {
    assert (waves + [wave])[..|waves|] == waves;
  }

  lemma NothingPorted(constraints: Constraints, tables: set<string>)
    ensures Union([]) == {} && InDependencyOrder(constraints, [])
    ensures NoLaterThanNeeded(constraints, []) && NotReadyBefore(constraints, [], tables)
  {
  }

  lemma WaveIsNotLate(constraints: Constraints, waves: seq<set<string>>, remaining: set<string>, wave: set<string>)
    requires wave == Wave(constraints, remaining, Union(waves))
    requires NoLaterThanNeeded(constraints, waves) && NotReadyBefore(constraints, waves, remaining)
    ensures NoLaterThanNeeded(constraints, waves + [wave])
    ensures NotReadyBefore(constraints, waves + [wave], remaining - wave)
  {
    var all := waves + [wave];
    assert all[..|all| - 1] == waves;
    forall i, t | 0 < i < |all| && t in all[i] ensures t in constraints && constraints[t] * all[i - 1] != {} {
      if i < |waves| {
        assert t in waves[i];
      } else {
        var d :| d in Deps(constraints, t) && d !in Union(waves[..|waves| - 1]);
        assert d in Union(waves);
        assert d in constraints[t] * all[i - 1];
      }
    }
  }

  lemma {:induction false} InUnion(waves: seq<set<string>>, t: string)
    ensures t in Union(waves) <==> exists i | 0 <= i < |waves| :: t in waves[i]
  {
    if waves != [] {
      InUnion(waves[..|waves| - 1], t);
    }
  }

  /** Read table by table: no table is in two waves, and each table's dependencies are in waves
      strictly before its own. */
  lemma {:induction false} DependenciesComeFirst(constraints: Constraints, waves: seq<set<string>>, i: nat, t: string)
    requires InDependencyOrder(constraints, waves) && i < |waves| && t in waves[i]
    ensures forall j | 0 <= j < |waves| && j != i :: t !in waves[j]
    ensures t in constraints ==> forall d <- constraints[t] :: exists k | 0 <= k < i :: d in waves[k]
  {
    var before := waves[..|waves| - 1];
    if i < |waves| - 1 {
      DependenciesComeFirst(constraints, before, i, t);
      InUnion(before, t);
      assert t in before[i];
    } else {
      InUnion(before, t);
      forall d <- Deps(constraints, t) ensures exists k | 0 <= k < i :: d in waves[k] {
        InUnion(before, d);
        var k :| 0 <= k < |before| && d in before[k];
        assert d in waves[k];
      }
    }
  }

  lemma WaveShrinks(remaining: set<string>, wave: set<string>)
    requires wave <= remaining && wave != {}
    ensures |remaining - wave| < |remaining|
  {
    assert remaining == (remaining - wave) + wave;
  }

  // ---- Exactly when it ends ----

  /** The tables still to port after `n` turns of the loop. */
  function Remaining(constraints: Constraints, tables: set<string>, n: nat): (r: set<string>)
    ensures r <= tables
  {
    if n == 0 then tables
    else
      var before := Remaining(constraints, tables, n - 1);
      before - Wave(constraints, before, tables - before)
  }

  ghost predicate Ends(constraints: Constraints, tables: set<string>) {
    exists n :: Remaining(constraints, tables, n) == {}
  }

  /** The loop comes to an end if and only if there is no cycle among the tables and none of them
      depends on a table that is not to be ported. */
  lemma WavesEndExactly(constraints: Constraints, tables: set<string>)
    ensures Ends(constraints, tables) <==> Acyclic(constraints, tables) && Closed(constraints, tables)
  {
    if Acyclic(constraints, tables) && Closed(constraints, tables) {
      RemainingShrinks(constraints, tables, |tables|);
      assert Remaining(constraints, tables, |tables|) == {};
    } else if !Closed(constraints, tables) {
      var t :| t in tables && !(Deps(constraints, t) <= tables);
      forall n ensures Remaining(constraints, tables, n) != {} {
        StuckGroup(constraints, tables, {t}, n);
      }
    } else {
      var p :| IsCycle(constraints, p) && forall t <- p :: t in tables;
      var group := set t | t in p;
      forall t <- group ensures !(Deps(constraints, t) <= tables - group) {
        var i :| 0 <= i < |p| && p[i] == t;
        var next := if i < |p| - 1 then p[i + 1] else p[1];
        assert next in p && next in Deps(constraints, t);
      }
      assert p[0] in group;
      forall n ensures Remaining(constraints, tables, n) != {} {
        StuckGroup(constraints, tables, group, n);
      }
    }
  }

  lemma OneWaveShrinks(constraints: Constraints, tables: set<string>, before: set<string>)
    requires Acyclic(constraints, tables) && Closed(constraints, tables) && before <= tables && before != {}
    ensures |before - Wave(constraints, before, tables - before)| < |before|
  {
    hide Acyclic, Closed, Wave;
    WaveAdvances(constraints, tables, before, tables - before, Wave(constraints, before, tables - before));
  }

  lemma {:induction false} RemainingShrinks(constraints: Constraints, tables: set<string>, n: nat)
    requires Acyclic(constraints, tables) && Closed(constraints, tables) && n <= |tables|
    ensures |Remaining(constraints, tables, n)| <= |tables| - n
  {
    hide Acyclic, Closed, Wave;
    if n > 0 {
      var before := Remaining(constraints, tables, n - 1);
      RemainingShrinks(constraints, tables, n - 1);
      assert Remaining(constraints, tables, n) == before - Wave(constraints, before, tables - before);
      hide Remaining;
      if before != {} {
        OneWaveShrinks(constraints, tables, before);
      } else {
        assert before - Wave(constraints, before, tables - before) == {};
      }
    }
  }

  /** Tables none of which can ever be ported before another of them stay forever. */
  lemma {:induction false} StuckGroup(constraints: Constraints, tables: set<string>, group: set<string>, n: nat)
    requires group <= tables && group != {}
    requires forall t <- group :: !(Deps(constraints, t) <= tables - group)
    ensures group <= Remaining(constraints, tables, n)
    ensures Remaining(constraints, tables, n) != {}
  {
    if n > 0 {
      StuckGroup(constraints, tables, group, n - 1);
      var before := Remaining(constraints, tables, n - 1);
      forall t <- group ensures t in Remaining(constraints, tables, n) {
        assert tables - before <= tables - group;
      }
    }
    var t := Element(group);
  }
}
