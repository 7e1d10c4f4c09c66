/**
 The vector idioms the message code is written in: erase the first match, push back when absent.
 */
module Sequences {

  ghost predicate Distinct<T(!new)>(q: seq<T>) {
    forall i, j :: 0 <= i < j < |q| ==> q[i] != q[j]
  }

  /** Some occurrence of `x` stands before some occurrence of `y`. */
  ghost predicate Precedes<T(!new)>(q: seq<T>, x: T, y: T) {
    exists i, j :: 0 <= i < j < |q| && q[i] == x && q[j] == y
  }

  /** `q` with its first `x` erased. */
  function Without<T(==, !new)>(q: seq<T>, x: T): (r: seq<T>)
    ensures x !in q ==> r == q
    ensures |r| == if x in q then |q| - 1 else |q|
    ensures forall y :: y in r ==> y in q
    ensures forall y :: y in q && y != x ==> y in r
  {
    if q == [] then []
    else if q[0] == x then q[1..]
    else [q[0]] + Without(q[1..], x)
  }

  /** `q` with `x` pushed back unless already present. */
  function With<T(==, !new)>(q: seq<T>, x: T): (r: seq<T>)
    ensures q <= r && x in r
    ensures forall y :: y in r <==> y in q || y == x
  {
    if x in q then q else q + [x]
  }

  lemma {:induction false} WithoutSplits<T(!new)>(q: seq<T>, x: T, k: nat)
    requires k < |q| && q[k] == x && x !in q[..k]
    ensures Without(q, x) == q[..k] + q[k + 1..]
  {
    if k > 0 {
      assert q[1..][..k - 1] == q[..k][1..];
      WithoutSplits(q[1..], x, k - 1);
      assert [q[0]] + (q[1..][..k - 1] + q[1..][k..]) == q[..k] + q[k + 1..];
    }
  }

  lemma FirstIndex<T(!new)>(q: seq<T>, x: T) returns (k: nat)
    requires x in q
    ensures k < |q| && q[k] == x && x !in q[..k]
  {
    k := 0;
    while q[k] != x
      invariant k < |q| && x !in q[..k]
      decreases |q| - k
    {
      assert x in q[..k + 1] + q[k + 1..];
      k := k + 1;
    }
  }

  lemma WithoutDistinct<T(!new)>(q: seq<T>, x: T)
    requires Distinct(q)
    ensures Distinct(Without(q, x)) && x !in Without(q, x)
  {
    if x in q {
      var k := FirstIndex(q, x);
      WithoutSplits(q, x, k);
    }
  }

  lemma WithDistinct<T(!new)>(q: seq<T>, x: T)
    requires Distinct(q)
    ensures Distinct(With(q, x))
  {
  }

  lemma WithoutKeepsOrder<T(!new)>(q: seq<T>, x: T, y: T, z: T)
    requires Distinct(q) && Precedes(q, y, z) && x != y && x != z
    ensures Precedes(Without(q, x), y, z)
  {
    var i, j :| 0 <= i < j < |q| && q[i] == y && q[j] == z;
    if x in q {
      var k := FirstIndex(q, x);
      WithoutSplits(q, x, k);
      var i', j' := if i < k then i else i - 1, if j < k then j else j - 1;
      assert Without(q, x)[i'] == y && Without(q, x)[j'] == z;
    }
  }

  lemma ExtendKeepsOrder<T(!new)>(q: seq<T>, q': seq<T>, y: T, z: T)
    requires q <= q' && Precedes(q, y, z)
    ensures Precedes(q', y, z)
  {
    var i, j :| 0 <= i < j < |q| && q[i] == y && q[j] == z;
    assert q'[i] == y && q'[j] == z;
  }

  lemma TailKeepsOrder<T(!new)>(q: seq<T>, x: T, y: T)
    requires Precedes(q, x, y)
    ensures q != [] && y in q[1..] && (q[0] != x ==> Precedes(q[1..], x, y))
  {
    var i, j :| 0 <= i < j < |q| && q[i] == x && q[j] == y;
    assert q[1..][j - 1] == y;
    if i > 0 {
      assert q[1..][i - 1] == x;
    }
  }

  lemma {:induction false} SubsetSize<T>(a: set<T>, b: set<T>)
    requires a <= b
    ensures |a| <= |b|
    decreases b
  {
    if a != {} {
      var x :| x in a;
      SubsetSize(a - {x}, b - {x});
    }
  }

  function Elements<T(!new)>(q: seq<T>): set<T> {
    set x | x in q
  }

  lemma {:induction false} DistinctSize<T(!new)>(q: seq<T>)
    requires Distinct(q)
    ensures |Elements(q)| == |q|
  {
    if q != [] {
      DistinctSize(q[1..]);
      assert Elements(q) == Elements(q[1..]) + {q[0]};
    }
  }
}
