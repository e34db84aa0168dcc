/** The handler's `finally` block: the list comprehension that drops every
    waiting record owned by the closing connection. */
module Cleanup {
  import opened Protocol

  /** `[p for p in q if p.conn != conn]`: exactly the records of other
      connections remain. */
  function Without(q: seq<Player>, conn: ConnId): (r: seq<Player>)
    ensures forall p :: p in r <==> p in q && p.conn != conn
    ensures |r| <= |q|
  {
    if q == [] then []
    else (if q[0].conn == conn then [] else [q[0]]) + Without(q[1..], conn)
  }

  /** The filter works element by element: the kept records stay in their
      original order. */
  lemma {:induction false} WithoutAppend(a: seq<Player>, b: seq<Player>, conn: ConnId)
    ensures Without(a + b, conn) == Without(a, conn) + Without(b, conn)
    decreases |a|
  {
    if a != [] {
      assert (a + b)[0] == a[0] && (a + b)[1..] == a[1..] + b;
      WithoutAppend(a[1..], b, conn);
    } else {
      assert a + b == b;
    }
  }

  /** Each record of another connection keeps its multiplicity; none of the
      closing connection's remains. */
  lemma {:induction false} WithoutCount(q: seq<Player>, conn: ConnId, p: Player)
    ensures multiset(Without(q, conn))[p] == if p.conn == conn then 0 else multiset(q)[p]
    decreases |q|
  {
    if q != [] {
      WithoutCount(q[1..], conn, p);
      assert q == [q[0]] + q[1..];
    }
  }

  /** Nothing of `conn` waiting: the cleanup is a no-op. */
  lemma {:induction false} WithoutAbsent(q: seq<Player>, conn: ConnId)
    requires forall p | p in q :: p.conn != conn
    ensures Without(q, conn) == q
    decreases |q|
  {
    if q != [] {
      WithoutAbsent(q[1..], conn);
      assert q == [q[0]] + q[1..];
    }
  }

  /** Only records of `conn`: the cleanup removes them all. */
  lemma {:induction false} WithoutOnlyOwn(q: seq<Player>, conn: ConnId)
    requires forall p | p in q :: p.conn == conn
    ensures Without(q, conn) == []
    decreases |q|
  {
    if q != [] {
      WithoutOnlyOwn(q[1..], conn);
    }
  }

  /** Cleaning up twice is the same as cleaning up once. */
  lemma WithoutIdempotent(q: seq<Player>, conn: ConnId)
    ensures Without(Without(q, conn), conn) == Without(q, conn)
  {
    WithoutAbsent(Without(q, conn), conn);
  }

  /** Cleaning up a suffix of a list leaves a suffix of the cleaned list. */
  lemma WithoutSuffix(q: seq<Player>, j: nat, conn: ConnId)
    requires j <= |q|
    ensures IsSuffix(Without(q[j..], conn), Without(q, conn))
  {
    assert q[..j] + q[j..] == q;
    WithoutAppend(q[..j], q[j..], conn);
    var front, back := Without(q[..j], conn), Without(q[j..], conn);
    assert (front + back)[|front|..] == back;
  }

  /** A connection that appended `own` to the list, of which a trailing part
      remains, leaves after cleanup a trailing part of the other records that
      waited before it. */
  lemma SessionCleanup(before: seq<Player>, own: seq<Player>, j: nat, conn: ConnId)
    requires j <= |before + own|
    requires forall p | p in own :: p.conn == conn
    ensures IsSuffix(Without((before + own)[j..], conn), Without(before, conn))
  {
    WithoutSuffix(before + own, j, conn);
    WithoutAppend(before, own, conn);
    WithoutOnlyOwn(own, conn);
    assert Without(before, conn) + [] == Without(before, conn);
  }

  /** `a` is a trailing part of `b`. */
  predicate IsSuffix(a: seq<Player>, b: seq<Player>) {
    |a| <= |b| && a == b[|b| - |a|..]
  }
}
