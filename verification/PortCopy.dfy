/** Copying one table from SQLite to PostgreSQL: outwards from row 0 in both directions, a batch at a
    time, with progress saved in the same transaction as the rows. */
module PortCopy {
  import opened Options

  datatype Cell = Null | Int(n: int) | Text(s: string) | Blob(bytes: seq<nat>) | Bool(b: bool)

  type Row = seq<Cell>

  /** A SQLite table: rows by row ID. */
  type Table = map<int, Row>

  /** The saved progress: everything strictly between the two row IDs has been copied. */
  datatype Progress = Progress(forward: int, backward: int)

  // ---- Converting rows ----

  /** Python's truth of a value. */
  predicate Truthy(c: Cell) {
    match c
    case Null => false
    case Int(n) => n != 0
    case Text(s) => s != ""
    case Blob(bytes) => bytes != []
    case Bool(b) => b
  }

  /** A text with a NUL character cannot be stored. */
  function ConvertCell(isBool: bool, c: Cell): Option<Cell> {
    if isBool then Some(Bool(Truthy(c)))
    else if c.Text? && '\0' in c.s then None
    else Some(c)
  }

  /** The stored form of a row; a row with an unstorable cell is dropped. */
  function ConvertRow(boolCols: set<nat>, row: Row): Option<Row> {
    if row == [] then Some([])
    else
      var n := |row| - 1;
      var init := ConvertRow(boolCols, row[..n]);
      var last := ConvertCell(n in boolCols, row[n]);
      if init.None? || last.None? then None else Some(init.value + [last.value])
  }

  /** A cell that cannot be stored: text with a NUL character, outside the boolean columns. */
  predicate Unstorable(boolCols: set<nat>, row: Row, j: nat)
    requires j < |row|
  {
    j !in boolCols && row[j].Text? && '\0' in row[j].s
  }

  /** A row is dropped exactly for such a cell; otherwise it is stored cell by cell, booleans by their
      truth and the rest as it is. */
  lemma {:induction false} RowIsStoredCellByCell(boolCols: set<nat>, row: Row)
    ensures ConvertRow(boolCols, row).None? <==> exists j: nat | j < |row| :: Unstorable(boolCols, row, j)
    ensures ConvertRow(boolCols, row).Some? ==>
      var r := ConvertRow(boolCols, row).value;
      && |r| == |row|
      && forall j | 0 <= j < |row| :: r[j] ==
           if j !in boolCols then row[j] else Bool(row[j] !in {Null, Int(0), Text(""), Blob([]), Bool(false)})
  {
    if row != [] {
      var n := |row| - 1;
      RowIsStoredCellByCell(boolCols, row[..n]);
      assert forall j: nat | j < n :: Unstorable(boolCols, row, j) <==> Unstorable(boolCols, row[..n], j);
      assert ConvertCell(n in boolCols, row[n]).None? <==> Unstorable(boolCols, row, n);
      if j: nat :| j < |row| && Unstorable(boolCols, row, j) {
        assert j == n || Unstorable(boolCols, row[..n], j);
      }
    }
  }

  function Kept(boolCols: set<nat>, row: Row): seq<Row> {
    var r := ConvertRow(boolCols, row);
    if r.Some? then [r.value] else []
  }

  function ConvertAll(boolCols: set<nat>, rows: seq<Row>): seq<Row> {
    if rows == [] then [] else ConvertAll(boolCols, rows[..|rows| - 1]) + Kept(boolCols, rows[|rows| - 1])
  }

  method ConvertRows(boolCols: set<nat>, rows: seq<Row>) returns (out: seq<Row>)
    ensures out == ConvertAll(boolCols, rows)
  {
    out := [];
    for i := 0 to |rows|
      invariant out == ConvertAll(boolCols, rows[..i])
    {
      assert rows[..i + 1][..i] == rows[..i];
      var converted: Row := [];
      var bad := false;
      var j := 0;
      while j < |rows[i]| && !bad
        invariant 0 <= j <= |rows[i]|
        invariant ConvertRow(boolCols, rows[i][..j]) == if bad then None else Some(converted)
      {
        assert rows[i][..j + 1][..j] == rows[i][..j];
        var cell := ConvertCell(j in boolCols, rows[i][j]);
        if cell.None? {
          bad := true;
        } else {
          converted := converted + [cell.value];
        }
        j := j + 1;
      }
      if bad {
        DroppedPrefix(boolCols, rows[i], j);
      } else {
        assert rows[i][..j] == rows[i];
        out := out + [converted];
      }
    }
    assert rows[..|rows|] == rows;
  }

  lemma {:induction false} DroppedPrefix(boolCols: set<nat>, row: Row, j: nat)
    requires j <= |row| && ConvertRow(boolCols, row[..j]).None?
    ensures ConvertRow(boolCols, row).None?
  {
    if j == |row| {
      assert row[..j] == row;
    } else {
      assert row[..|row| - 1][..j] == row[..j];
      DroppedPrefix(boolCols, row[..|row| - 1], j);
    }
  }

  // ---- What belongs in the destination ----

  /** The greatest element of a set of row IDs. */
  function Greatest(keys: set<int>): (k: int)
    requires keys != {}
    ensures k in keys && forall x <- keys :: x <= k
  {
    HasGreatest(keys);
    var k :| k in keys && forall x <- keys :: x <= k;
    k
  }

  lemma HasGreatest(keys: set<int>)
    requires keys != {}
    ensures exists k :: k in keys && forall x <- keys :: x <= k
  {
    var x := Element(keys);
    var mirrored := set z | z in keys :: -z;
    assert -x in mirrored;
    var k := -Least(mirrored);
    forall z <- keys ensures z <= k {
      assert -z in mirrored;
    }
  }

  /** The converted rows with the given IDs, each once. */
  ghost function Image(src: Table, boolCols: set<nat>, keys: set<int>): multiset<Row>
    requires keys <= src.Keys
  {
    if keys == {} then multiset{}
    else
      var k := Least(keys);
      multiset(Kept(boolCols, src[k])) + Image(src, boolCols, keys - {k})
  }

  lemma {:induction false} ImageAdds(src: Table, boolCols: set<nat>, keys: set<int>, k: int)
    requires keys <= src.Keys && k in src && k !in keys
    ensures Image(src, boolCols, keys + {k}) == Image(src, boolCols, keys) + multiset(Kept(boolCols, src[k]))
    decreases |keys|
  {
    var m := Least(keys + {k});
    if m == k {
      assert keys + {k} - {k} == keys;
    } else {
      assert m == Least(keys);
      assert keys + {k} - {m} == (keys - {m}) + {k};
      ImageAdds(src, boolCols, keys - {m}, k);
    }
  }

  /** The source rows that are stored as a row. */
  function StoredAs(src: Table, boolCols: set<nat>, keys: set<int>, r: Row): set<int>
    requires keys <= src.Keys
  {
    set k | k in keys && ConvertRow(boolCols, src[k]) == Some(r)
  }

  lemma KeptCounts(boolCols: set<nat>, row: Row, r: Row)
    ensures multiset(Kept(boolCols, row))[r] == if ConvertRow(boolCols, row) == Some(r) then 1 else 0
  {
    hide ConvertRow;
  }

  /** The image has a row as often as there are source rows that are stored as it. */
  lemma {:induction false} ImageCounts(src: Table, boolCols: set<nat>, keys: set<int>, r: Row)
    requires keys <= src.Keys
    ensures Image(src, boolCols, keys)[r] == |StoredAs(src, boolCols, keys, r)|
    decreases |keys|
  {
    if keys != {} {
      var k := Least(keys);
      ImageCounts(src, boolCols, keys - {k}, r);
      KeptCounts(boolCols, src[k], r);
      hide ConvertRow, Kept;
      var others := StoredAs(src, boolCols, keys - {k}, r);
      assert StoredAs(src, boolCols, keys, r)
          == others + if ConvertRow(boolCols, src[k]) == Some(r) then {k} else {};
    }
  }

  ghost function Between(src: Table, backward: int, forward: int): set<int> {
    set k | k in src && backward < k < forward
  }

  predicate Distinct(keys: seq<int>) {
    forall i, j | 0 <= i < j < |keys| :: keys[i] != keys[j]
  }

  function RowsOf(src: Table, keys: seq<int>): (rows: seq<Row>)
    requires forall i | 0 <= i < |keys| :: keys[i] in src
    ensures |rows| == |keys|
  {
    seq(|keys|, i requires 0 <= i < |keys| => src[keys[i]])
  }

  function IdSet(keys: seq<int>): set<int> {
    set k | k in keys
  }

  /** A row is stored exactly if some source row is stored as it. */
  lemma {:induction false} StoredExactly(boolCols: set<nat>, rows: seq<Row>, r: Row)
    ensures r in ConvertAll(boolCols, rows) <==> exists i | 0 <= i < |rows| :: ConvertRow(boolCols, rows[i]) == Some(r)
  {
    hide ConvertRow;
    if rows != [] {
      StoredExactly(boolCols, rows[..|rows| - 1], r);
    }
  }

  lemma ConvertsLast(src: Table, boolCols: set<nat>, keys: seq<int>)
    requires keys != [] && forall i | 0 <= i < |keys| :: keys[i] in src
    ensures var init, k := keys[..|keys| - 1], keys[|keys| - 1];
      multiset(ConvertAll(boolCols, RowsOf(src, keys)))
      == multiset(ConvertAll(boolCols, RowsOf(src, init))) + multiset(Kept(boolCols, src[k]))
  {
    hide Kept;
    var n := |keys| - 1;
    assert RowsOf(src, keys)[..n] == RowsOf(src, keys[..n]);
    assert RowsOf(src, keys)[n] == src[keys[n]];
  }

  /** Inserting a batch of new rows extends the image by their IDs. */
  lemma {:induction false} BatchExtendsImage(src: Table, boolCols: set<nat>, done: set<int>, keys: seq<int>)
    requires done <= src.Keys && Distinct(keys)
    requires forall i | 0 <= i < |keys| :: keys[i] in src && keys[i] !in done
    ensures done + IdSet(keys) <= src.Keys
    ensures Image(src, boolCols, done + IdSet(keys))
         == Image(src, boolCols, done) + multiset(ConvertAll(boolCols, RowsOf(src, keys)))
  {
    hide Image, Kept, RowsOf;
    if keys == [] {
      assert done + IdSet(keys) == done;
      assert RowsOf(src, keys) == [];
    } else {
      hide ConvertAll;
      var n := |keys| - 1;
      var init := keys[..n];
      BatchExtendsImage(src, boolCols, done, init);
      assert keys == init + [keys[n]];
      assert done + IdSet(keys) == (done + IdSet(init)) + {keys[n]};
      ImageAdds(src, boolCols, done + IdSet(init), keys[n]);
      ConvertsLast(src, boolCols, keys);
    }
  }

  // ---- Selecting batches ----

  /** The least IDs from `from` on, ascending, at most `limit` of them; none before the last is left out. */
  ghost predicate IsForwardBatch(keys: set<int>, from: int, limit: nat, out: seq<int>) {
    && |out| <= limit && (forall k <- out :: k in keys && k >= from)
    && (forall i, j | 0 <= i < j < |out| :: out[i] < out[j])
    && forall k <- keys | k >= from :: k in out || (out != [] && k > out[|out| - 1]) || limit == 0
  }

  lemma ForwardBatchGrows(keys: set<int>, from: int, limit: nat, k: int, tail: seq<int>)
    requires limit > 0 && k in keys && k >= from && forall x <- keys | x >= from :: k <= x
    requires IsForwardBatch(keys, k + 1, limit - 1, tail)
    ensures IsForwardBatch(keys, from, limit, [k] + tail)
  {
    var out := [k] + tail;
    forall j | 0 <= j < |tail| ensures tail[j] > k {
      assert tail[j] in tail;
    }
    forall x <- keys | x >= from
      ensures x in out || x > out[|out| - 1]
    {
      if x != k && x !in tail && tail != [] {
        assert x > tail[|tail| - 1];
      }
    }
  }

  /** `rowid >= from ORDER BY rowid LIMIT limit` */
  function SelectForward(keys: set<int>, from: int, limit: nat): (out: seq<int>)
    ensures IsForwardBatch(keys, from, limit, out)
    decreases limit
  {
    var rest := set k | k in keys && k >= from;
    assert forall k <- keys | k >= from :: k in rest;
    if limit == 0 || rest == {} then []
    else
      var k := Least(rest);
      var tail := SelectForward(keys, k + 1, limit - 1);
      ForwardBatchGrows(keys, from, limit, k, tail);
      [k] + tail
  }

  /** The same downwards. */
  ghost predicate IsBackwardBatch(keys: set<int>, from: int, limit: nat, out: seq<int>) {
    && |out| <= limit && (forall k <- out :: k in keys && k <= from)
    && (forall i, j | 0 <= i < j < |out| :: out[i] > out[j])
    && forall k <- keys | k <= from :: k in out || (out != [] && k < out[|out| - 1]) || limit == 0
  }

  lemma BackwardBatchGrows(keys: set<int>, from: int, limit: nat, k: int, tail: seq<int>)
    requires limit > 0 && k in keys && k <= from && forall x <- keys | x <= from :: x <= k
    requires IsBackwardBatch(keys, k - 1, limit - 1, tail)
    ensures IsBackwardBatch(keys, from, limit, [k] + tail)
  {
    var out := [k] + tail;
    forall j | 0 <= j < |tail| ensures tail[j] < k {
      assert tail[j] in tail;
    }
    forall x <- keys | x <= from
      ensures x in out || x < out[|out| - 1]
    {
      if x != k && x !in tail && tail != [] {
        assert x < tail[|tail| - 1];
      }
    }
  }

  /** `rowid <= from ORDER BY rowid DESC LIMIT limit` */
  function SelectBackward(keys: set<int>, from: int, limit: nat): (out: seq<int>)
    ensures IsBackwardBatch(keys, from, limit, out)
    decreases limit
  {
    var rest := set k | k in keys && k <= from;
    assert forall k <- keys | k <= from :: k in rest;
    if limit == 0 || rest == {} then []
    else
      var k := Greatest(rest);
      var tail := SelectBackward(keys, k - 1, limit - 1);
      BackwardBatchGrows(keys, from, limit, k, tail);
      [k] + tail
  }

  // ---- One batch ----

  /** The destination holds each storable source row between the saved row IDs exactly once, and nothing
      else. */
  ghost predicate HoldsRange(src: Table, boolCols: set<nat>, progress: Option<Progress>, rows: multiset<Row>) {
    && (progress.None? ==> rows == multiset{})
    && (progress.Some? ==>
          && progress.value.backward < progress.value.forward
          && rows == Image(src, boolCols, Between(src, progress.value.backward, progress.value.forward)))
  }

  lemma EmptyStart(src: Table, boolCols: set<nat>)
    ensures HoldsRange(src, boolCols, Some(Progress(1, 0)), multiset{})
  {
    assert Between(src, 0, 1) == {};
  }

  ghost function Outside(src: Table, p: Progress): set<int> {
    set k | k in src && (k >= p.forward || k <= p.backward)
  }

  lemma OutsideBound(src: Table, p: Progress)
    ensures |Outside(src, p)| <= |src|
  {
    assert src.Keys == Outside(src, p) + (src.Keys - Outside(src, p));
  }

  /** No row is left to copy. */
  predicate AllCovered(src: Table, p: Progress) {
    forall k <- src :: p.backward < k < p.forward
  }

  lemma AllBetween(src: Table, boolCols: set<nat>, p: Progress)
    requires AllCovered(src, p)
    ensures Image(src, boolCols, Between(src, p.backward, p.forward)) == Image(src, boolCols, src.Keys)
  {
    assert Between(src, p.backward, p.forward) == src.Keys;
  }

  /** The IDs of the next batch: forwards, then backwards. */
  function ForwardIds(src: Table, batchSize: nat, p: Progress): seq<int> {
    SelectForward(src.Keys, p.forward, batchSize)
  }

  function BackwardIds(src: Table, batchSize: nat, p: Progress): seq<int> {
    SelectBackward(src.Keys, p.backward, batchSize)
  }

  function BatchIds(src: Table, batchSize: nat, p: Progress): seq<int> {
    ForwardIds(src, batchSize, p) + BackwardIds(src, batchSize, p)
  }

  function Advanced(src: Table, batchSize: nat, p: Progress): Progress {
    var fkeys, bkeys := ForwardIds(src, batchSize, p), BackwardIds(src, batchSize, p);
    Progress(if fkeys != [] then fkeys[|fkeys| - 1] + 1 else p.forward,
             if bkeys != [] then bkeys[|bkeys| - 1] - 1 else p.backward)
  }

  lemma ForwardCovers(src: Table, batchSize: nat, p: Progress)
    requires batchSize >= 1
    ensures var keys, end := ForwardIds(src, batchSize, p), Advanced(src, batchSize, p).forward;
      && p.forward <= end && Distinct(keys)
      && (forall k :: k in keys <==> k in src && p.forward <= k < end)
      && (keys == [] <==> forall k <- src :: k < p.forward)
  {
    var keys, end := ForwardIds(src, batchSize, p), Advanced(src, batchSize, p).forward;
    assert IsForwardBatch(src.Keys, p.forward, batchSize, keys);
    hide SelectForward, SelectBackward;
    forall i | 0 <= i < |keys| ensures p.forward <= keys[i] < end && keys[i] in src {
      assert keys[i] in keys;
    }
  }

  lemma BackwardCovers(src: Table, batchSize: nat, p: Progress)
    requires batchSize >= 1
    ensures var keys, end := BackwardIds(src, batchSize, p), Advanced(src, batchSize, p).backward;
      && end <= p.backward && Distinct(keys)
      && (forall k :: k in keys <==> k in src && end < k <= p.backward)
      && (keys == [] <==> forall k <- src :: k > p.backward)
  {
    var keys, end := BackwardIds(src, batchSize, p), Advanced(src, batchSize, p).backward;
    assert IsBackwardBatch(src.Keys, p.backward, batchSize, keys);
    hide SelectForward, SelectBackward;
    forall i | 0 <= i < |keys| ensures end < keys[i] <= p.backward && keys[i] in src {
      assert keys[i] in keys;
    }
  }

  /** The batch is empty exactly when everything is covered. */
  lemma EmptyBatchMeansDone(src: Table, batchSize: nat, p: Progress)
    requires batchSize >= 1 && p.backward < p.forward
    ensures BatchIds(src, batchSize, p) == [] <==> AllCovered(src, p)
  {
    hide ForwardIds, BackwardIds;
    ForwardCovers(src, batchSize, p);
    BackwardCovers(src, batchSize, p);
  }

  lemma BatchIsNew(src: Table, batchSize: nat, p: Progress)
    requires batchSize >= 1 && p.backward < p.forward
    ensures var keys, q := BatchIds(src, batchSize, p), Advanced(src, batchSize, p);
      && q.backward <= p.backward < p.forward <= q.forward && Distinct(keys)
      && (forall k <- keys :: k in src && k !in Between(src, p.backward, p.forward))
      && Between(src, q.backward, q.forward) == Between(src, p.backward, p.forward) + IdSet(keys)
  {
    ForwardCovers(src, batchSize, p);
    BackwardCovers(src, batchSize, p);
    hide ForwardIds, BackwardIds, Advanced;
    var fkeys, bkeys := ForwardIds(src, batchSize, p), BackwardIds(src, batchSize, p);
    var keys := fkeys + bkeys;
    forall i, j | 0 <= i < j < |keys| ensures keys[i] != keys[j] {
      if i < |fkeys| <= j {
        assert fkeys[i] in fkeys && bkeys[j - |fkeys|] in bkeys;
      } else if |fkeys| <= i {
        assert bkeys[i - |fkeys|] != bkeys[j - |fkeys|];
      }
    }
  }

  /** One batch moves the two ends outwards over exactly the rows it carries, and gains some. */
  lemma BatchAdvances(src: Table, boolCols: set<nat>, batchSize: nat, p: Progress, rows: multiset<Row>)
    requires batchSize >= 1 && HoldsRange(src, boolCols, Some(p), rows) && BatchIds(src, batchSize, p) != []
    ensures var keys, q := BatchIds(src, batchSize, p), Advanced(src, batchSize, p);
      && (forall i | 0 <= i < |keys| :: keys[i] in src)
      && HoldsRange(src, boolCols, Some(q), rows + multiset(ConvertAll(boolCols, RowsOf(src, keys))))
      && |Outside(src, q)| < |Outside(src, p)|
  {
    hide Image, ConvertAll, BatchIds, Advanced;
    var keys, q := BatchIds(src, batchSize, p), Advanced(src, batchSize, p);
    BatchIsNew(src, batchSize, p);
    forall i | 0 <= i < |keys| ensures keys[i] in src && keys[i] !in Between(src, p.backward, p.forward) {
      assert keys[i] in keys;
    }
    BatchExtendsImage(src, boolCols, Between(src, p.backward, p.forward), keys);
    var k := keys[0];
    assert k in IdSet(keys) && k in Between(src, q.backward, q.forward);
    assert k in Outside(src, p) && k !in Outside(src, q);
    SmallerSet(Outside(src, q), Outside(src, p), k);
  }

  lemma SmallerSet(a: set<int>, b: set<int>, k: int)
    requires a <= b && k in b && k !in a
    ensures |a| < |b|
  {
    assert b == a + (b - a);
    assert k in b - a;
  }

  // ---- The copy ----

  class TablePort {
    const src: Table
    const boolCols: set<nat>
    const appendOnly: bool
    const batchSize: nat
    var progress: Option<Progress> // the row in the progress table
    var rows: multiset<Row> // the destination table

    constructor (src: Table, boolCols: set<nat>, appendOnly: bool, batchSize: nat)
      requires batchSize >= 1
      ensures Valid() && this.src == src && this.boolCols == boolCols && this.appendOnly == appendOnly
      ensures this.batchSize == batchSize && progress.None?
    {
      this.src := src;
      this.boolCols := boolCols;
      this.appendOnly := appendOnly;
      this.batchSize := batchSize;
      progress := None;
      rows := multiset{};
    }

    ghost predicate Valid()
      reads this
    {
      batchSize >= 1 && HoldsRange(src, boolCols, progress, rows)
    }

    ghost predicate Complete()
      reads this
    {
      rows == Image(src, boolCols, src.Keys)
    }

    /** Where to start: the saved progress of an append-only table, or a clean slate. `budget` is the
        number of transactions before a crash. */
    method SetupTable(budget: nat) returns (start: Option<Progress>, left: nat)
      requires Valid()
      modifies this
      ensures Valid()
      ensures start.Some? ==> progress == start
      ensures start.Some? && !(appendOnly && old(progress).Some?) ==>
          start == Some(Progress(1, 0)) && rows == multiset{}
      ensures budget >= 2 ==> start.Some?
      ensures appendOnly && old(progress).Some? ==> progress == old(progress) && rows == old(rows)
      ensures left <= budget <= left + 2
    {
      start, left := None, budget;
      EmptyStart(src, boolCols);
      if appendOnly {
        if progress.None? {
          if left == 0 {
            return;
          }
          progress, left := Some(Progress(1, 0)), left - 1;
        }
      } else {
        if left == 0 {
          return;
        }
        progress, rows, left := None, multiset{}, left - 1;
        if left == 0 {
          return;
        }
        progress, left := Some(Progress(1, 0)), left - 1;
      }
      start := progress;
    }

    /** One transaction on the source, which asks only in the directions that still had rows. */
    method SelectBatch(p: Progress, doForward: bool, doBackward: bool)
      returns (fkeys: seq<int>, bkeys: seq<int>, stillForward: bool, stillBackward: bool)
      requires batchSize >= 1
      requires !doForward ==> forall k <- src :: k < p.forward
      requires !doBackward ==> forall k <- src :: k > p.backward
      ensures fkeys == ForwardIds(src, batchSize, p) && bkeys == BackwardIds(src, batchSize, p)
      ensures stillForward == (fkeys != []) && stillBackward == (bkeys != [])
      ensures !stillForward ==> forall k <- src :: k < p.forward
      ensures !stillBackward ==> forall k <- src :: k > p.backward
    {
      hide SelectForward, SelectBackward, Advanced;
      ForwardCovers(src, batchSize, p);
      BackwardCovers(src, batchSize, p);
      fkeys, bkeys, stillForward, stillBackward := [], [], doForward, doBackward;
      if doForward {
        fkeys := SelectForward(src.Keys, p.forward, batchSize);
        stillForward := fkeys != [];
      }
      if doBackward {
        bkeys := SelectBackward(src.Keys, p.backward, batchSize);
        stillBackward := bkeys != [];
      }
    }

    /** Copy batches until none is left, or a crash. */
    method HandleTable(start: Progress, budget: nat) returns (done: bool)
      requires Valid() && progress == Some(start)
      modifies this
      ensures Valid() && progress.Some?
      ensures done ==> Complete()
      ensures budget > |src| ==> done
    {
      hide Image, ConvertAll, HoldsRange, Outside, ForwardIds, BackwardIds;
      var forward, backward, left := start.forward, start.backward, budget;
      var remaining := |set k | k in src && k >= forward| + |set k | k in src && k <= backward|;
      if remaining + |rows| == 0 {
        NothingLeft(src, start);
        CoveredIsComplete(src, boolCols, start, rows);
        return true;
      }
      OutsideBound(src, start);
      var doForward, doBackward := true, true;
      while true
        invariant Valid() && progress == Some(Progress(forward, backward))
        invariant !doForward ==> forall k <- src :: k < forward
        invariant !doBackward ==> forall k <- src :: k > backward
        invariant |Outside(src, Progress(forward, backward))| <= |src|
        invariant budget > |src| ==> left > |Outside(src, Progress(forward, backward))|
        decreases |Outside(src, Progress(forward, backward))|
      {
        ghost var p := Progress(forward, backward);
        var fkeys, bkeys;
        fkeys, bkeys, doForward, doBackward := SelectBatch(Progress(forward, backward), doForward, doBackward);
        if fkeys == [] && bkeys == [] {
          CoveredIsComplete(src, boolCols, p, rows);
          return true;
        }
        if left == 0 {
          return false;
        }
        BatchAdvances(src, boolCols, batchSize, p, rows);
        if fkeys != [] {
          forward := fkeys[|fkeys| - 1] + 1;
        }
        if bkeys != [] {
          backward := bkeys[|bkeys| - 1] - 1;
        }
        assert Progress(forward, backward) == Advanced(src, batchSize, p);
        assert fkeys + bkeys == BatchIds(src, batchSize, p);
        AdvancedKeepsEnds(src, batchSize, p);
        var out := ConvertRows(boolCols, RowsOf(src, fkeys + bkeys));
        rows, progress, left := rows + multiset(out), Some(Progress(forward, backward)), left - 1;
      }
    }

    /** A whole porting session, started over after each crash. `crashes` gives, run by run, how many
        transactions happen before the next crash. */
    method Port(crashes: seq<nat>)
      requires Valid()
      modifies this
      ensures Valid() && Complete()
    {
      for i := 0 to |crashes|
        invariant Valid()
      {
        var start, left := SetupTable(crashes[i]);
        if start.Some? {
          var _ := HandleTable(start.value, left);
        }
      }
      var start, left := SetupTable(|src| + 3);
      var done := HandleTable(start.value, left);
    }
  }

  lemma CoveredIsComplete(src: Table, boolCols: set<nat>, p: Progress, rows: multiset<Row>)
    requires HoldsRange(src, boolCols, Some(p), rows) && AllCovered(src, p)
    ensures rows == Image(src, boolCols, src.Keys)
  {
    AllBetween(src, boolCols, p);
  }

  lemma AdvancedKeepsEnds(src: Table, batchSize: nat, p: Progress)
    requires batchSize >= 1
    ensures ForwardIds(src, batchSize, p) == [] ==> forall k <- src :: k < Advanced(src, batchSize, p).forward
    ensures BackwardIds(src, batchSize, p) == [] ==> forall k <- src :: k > Advanced(src, batchSize, p).backward
  {
    ForwardCovers(src, batchSize, p);
    BackwardCovers(src, batchSize, p);
  }

  lemma NothingLeft(src: Table, p: Progress)
    requires |set k | k in src && k >= p.forward| + |set k | k in src && k <= p.backward| == 0
    ensures AllCovered(src, p)
  {
    var above, below := set k | k in src && k >= p.forward, set k | k in src && k <= p.backward;
    assert above == {} && below == {};
    assert forall k <- src :: k !in above && k !in below;
  }
}
