/** Setting up all tables at the start of a session: tables that are not append-only are truncated,
    which also empties every table with a chain of foreign keys to them. */
module PortSetup {
  import opened Options
  import opened PortCopy
  import opened PortWaves

  datatype Stored = Stored(progress: Option<Progress>, rows: multiset<Row>)

  type Database = map<string, Stored>

  /** `from` references `to`, directly or through other tables, or is the same table. */
  ghost predicate References(constraints: Constraints, from: string, to: string) {
    exists p: seq<string> :: p != [] && IsPath(constraints, p) && p[0] == from && p[|p| - 1] == to
  }

  ghost function TruncateCascade(constraints: Constraints, db: Database, t: string): Database {
    map u | u in db :: if References(constraints, u, t) then db[u].(rows := multiset{}) else db[u]
  }

  const START := Some(Progress(1, 0))

  ghost function SetupOne(constraints: Constraints, appendOnly: set<string>, db: Database, t: string): Database
    requires t in db
  {
    if t in appendOnly then
      if db[t].progress.None? then db[t := db[t].(progress := START)] else db
    else
      var emptied := TruncateCascade(constraints, db, t);
      emptied[t := emptied[t].(progress := START)]
  }

  /** All tables, in any order. */
  ghost function SetupAll(constraints: Constraints, appendOnly: set<string>, db: Database,
      order: seq<string>): (r: Database)
    requires forall t <- order :: t in db
    ensures r.Keys == db.Keys
  {
    if order == [] then db
    else
      var before := SetupAll(constraints, appendOnly, db, order[..|order| - 1]);
      SetupOne(constraints, appendOnly, before, order[|order| - 1])
  }

  /** Some table that is set up from scratch is one that `t` references. */
  ghost predicate Exposed(constraints: Constraints, appendOnly: set<string>, order: seq<string>, t: string) {
    exists u <- order :: u !in appendOnly && References(constraints, t, u)
  }

  /** An append-only table that was being copied keeps its rows through set-up exactly when it is
      empty or references no table that is truncated; its saved progress stays either way. */
  lemma {:induction false} SetupKeepsAppendOnly(
      constraints: Constraints, appendOnly: set<string>, db: Database, order: seq<string>, t: string)
    requires forall u <- order :: u in db
    requires t in db && t in appendOnly && db[t].progress.Some?
    ensures SetupAll(constraints, appendOnly, db, order)[t].progress == db[t].progress
    ensures SetupAll(constraints, appendOnly, db, order)[t].rows
         == if Exposed(constraints, appendOnly, order, t) then multiset{} else db[t].rows
  {
    if order != [] {
      var n := |order| - 1;
      SetupKeepsAppendOnly(constraints, appendOnly, db, order[..n], t);
      assert order == order[..n] + [order[n]];
      var u := order[n];
      if Exposed(constraints, appendOnly, order[..n], t) {
        var w :| w in order[..n] && w !in appendOnly && References(constraints, t, w);
        assert w in order;
      } else if u !in appendOnly && References(constraints, t, u) {
        assert Exposed(constraints, appendOnly, order, t);
      } else {
        assert !Exposed(constraints, appendOnly, order, t);
      }
    }
  }

  /** Every table that is not append-only starts from scratch, without rows. */
  lemma {:induction false} SetupEmptiesTheRest(
      constraints: Constraints, appendOnly: set<string>, db: Database, order: seq<string>, t: string)
    requires forall u <- order :: u in db
    requires t in order && t !in appendOnly
    ensures SetupAll(constraints, appendOnly, db, order)[t] == Stored(Some(Progress(1, 0)), multiset{})
  {
    var n := |order| - 1;
    assert order == order[..n] + [order[n]];
    if order[n] == t {
      assert References(constraints, t, t) by {
        assert [t] != [] && IsPath(constraints, [t]) && [t][0] == t && [t][|[t]| - 1] == t;
      }
    } else {
      SetupEmptiesTheRest(constraints, appendOnly, db, order[..n], t);
    }
  }

  /** Append-only tables reference only append-only tables. */
  ghost predicate AppendOnlyClosed(constraints: Constraints, appendOnly: set<string>) {
    forall t <- appendOnly :: Deps(constraints, t) <= appendOnly
  }

  lemma {:induction false} PathStaysAppendOnly(constraints: Constraints, appendOnly: set<string>, p: seq<string>)
    requires AppendOnlyClosed(constraints, appendOnly) && p != [] && IsPath(constraints, p) && p[0] in appendOnly
    ensures p[|p| - 1] in appendOnly
  {
    if |p| > 1 {
      assert p[0 + 1] in Deps(constraints, p[0]);
      forall i | 0 <= i < |p[1..]| - 1 ensures p[1..][i + 1] in Deps(constraints, p[1..][i]) {
        assert p[i + 1 + 1] in Deps(constraints, p[i + 1]);
      }
      PathStaysAppendOnly(constraints, appendOnly, p[1..]);
    }
  }

  lemma NotReferenced(constraints: Constraints, appendOnly: set<string>, t: string, u: string)
    requires AppendOnlyClosed(constraints, appendOnly) && t in appendOnly && u !in appendOnly
    ensures !References(constraints, t, u)
  {
    if p: seq<string> :| p != [] && IsPath(constraints, p) && p[0] == t && p[|p| - 1] == u {
      PathStaysAppendOnly(constraints, appendOnly, p);
    }
  }

  /** Then set-up keeps every row and the progress of every append-only table that was being copied. */
  lemma SetupKeepsAllAppendOnly(
      constraints: Constraints, appendOnly: set<string>, db: Database, order: seq<string>, t: string)
    requires AppendOnlyClosed(constraints, appendOnly) && forall u <- order :: u in db
    requires t in db && t in appendOnly && db[t].progress.Some?
    ensures SetupAll(constraints, appendOnly, db, order)[t] == db[t]
  {
    SetupKeepsAppendOnly(constraints, appendOnly, db, order, t);
    forall u <- order | u !in appendOnly ensures !References(constraints, t, u) {
      NotReferenced(constraints, appendOnly, t, u);
    }
  }
}
