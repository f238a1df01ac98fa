/** Positions in streams with several writers, and tokens that say how far each writer got. */
module StreamTokens {
  import opened Options

  /** Every writer is at `stream` unless `instances` has it further ahead. */
  datatype Token = Token(stream: int, instances: map<string, int>)

  /** Where a row was persisted, and by which writer. */
  datatype Position = Position(instance: string, stream: int)

  /** Constructing a token checks this. */
  predicate Valid(t: Token) {
    forall i <- t.instances :: t.instances[i] > t.stream
  }

  function PositionOf(t: Token, instance: string): int {
    Get(t.instances, instance).GetOr(t.stream)
  }

  predicate PersistedAfter(p: Position, t: Token) {
    PositionOf(t, p.instance) < p.stream
  }

  /** A token covers what a writer persisted up to its position there, that position included, and nothing
      later; a writer without a position of its own is at the common one. */
  lemma CoversUpToPosition(t: Token, writer: string, row: int)
    ensures !PersistedAfter(Position(writer, row), t)
       <==> row <= if writer in t.instances then t.instances[writer] else t.stream
  {
  }

  predicate IsBeforeOrEq(t: Token, u: Token) {
    && t.stream <= u.stream
    && forall i :: i in t.instances.Keys + u.instances.Keys ==> PositionOf(t, i) <= PositionOf(u, i)
  }

  /** The least token after both, with redundant entries dropped. */
  function CopyAndAdvance(t: Token, u: Token): Token {
    var stream := Max(t.stream, u.stream);
    Token(stream, map i | i in t.instances.Keys + u.instances.Keys
        && Max(PositionOf(t, i), PositionOf(u, i)) > stream ::
                    Max(PositionOf(t, i), PositionOf(u, i)))
  }

  function BoundStreamToken(t: Token, maxStream: int): Token {
    var stream := Min(t.stream, maxStream);
    Token(stream, map i | i in t.instances && Min(t.instances[i], maxStream) > stream :: Min(t.instances[i], maxStream))
  }

  function Name(n: nat): string {
    if n == 0 then "" else Name(n - 1) + "a"
  }

  lemma {:induction false} NameLength(n: nat)
    ensures |Name(n)| == n
  {
    if n > 0 {
      NameLength(n - 1);
    }
  }

  /** No finite set has every name. */
  lemma {:induction false} NewName(names: set<string>) returns (n: nat)
    ensures forall s <- names :: |s| < n
    decreases names
  {
    n := 0;
    if names != {} {
      var s :| s in names;
      var m := NewName(names - {s});
      n := m + |s| + 1;
      assert forall x <- names :: x == s || x in names - {s};
    }
  }

  /** The order of tokens is inclusion of what they cover, over all writers there could be. */
  lemma OrderIsCoverage(t: Token, u: Token)
    requires Valid(t) && Valid(u)
    ensures IsBeforeOrEq(t, u) <==> forall p: Position :: PersistedAfter(p, u) ==> PersistedAfter(p, t)
  {
    if forall p: Position :: PersistedAfter(p, u) ==> PersistedAfter(p, t) {
      var n := NewName(t.instances.Keys + u.instances.Keys);
      NameLength(n);
      forall i: string
        ensures PositionOf(t, i) <= PositionOf(u, i)
      {
        var p := Position(i, PositionOf(u, i) + 1);
        assert PersistedAfter(p, u);
        assert PersistedAfter(p, t);
      }
      assert PositionOf(t, Name(n)) <= PositionOf(u, Name(n));
    }
  }

  /** A row is after the combined token exactly when it is after both tokens. */
  lemma AdvanceCoversBoth(t: Token, u: Token, p: Position)
    requires Valid(t) && Valid(u)
    ensures Valid(CopyAndAdvance(t, u))
    ensures PersistedAfter(p, CopyAndAdvance(t, u)) <==> PersistedAfter(p, t) && PersistedAfter(p, u)
  {
    assert PositionOf(CopyAndAdvance(t, u), p.instance) == Max(PositionOf(t, p.instance), PositionOf(u, p.instance));
  }

  /** The combined token is the least that both tokens are before. */
  lemma AdvanceIsLeastUpperBound(t: Token, u: Token, v: Token)
    requires Valid(t) && Valid(u) && Valid(v)
    ensures IsBeforeOrEq(CopyAndAdvance(t, u), v) <==> IsBeforeOrEq(t, v) && IsBeforeOrEq(u, v)
  {
    hide IsBeforeOrEq, PersistedAfter, CopyAndAdvance;
    forall p: Position
      ensures Valid(CopyAndAdvance(t, u))
      ensures PersistedAfter(p, CopyAndAdvance(t, u)) <==> PersistedAfter(p, t) && PersistedAfter(p, u)
    {
      AdvanceCoversBoth(t, u, p);
    }
    AdvanceCoversBoth(t, u, Position("", 0));
    OrderIsCoverage(CopyAndAdvance(t, u), v);
    OrderIsCoverage(t, v);
    OrderIsCoverage(u, v);
  }

  /** Bounding cuts every writer's position off at the bound. */
  lemma BoundCutsEveryWriter(t: Token, maxStream: int, i: string)
    requires Valid(t)
    ensures Valid(BoundStreamToken(t, maxStream))
    ensures PositionOf(BoundStreamToken(t, maxStream), i) == Min(PositionOf(t, i), maxStream)
  {
  }
}
