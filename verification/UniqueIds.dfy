/**
 The bucketed allocator of unique ids: only one counter per range of ids, yet no id is handed out twice
 while it lives, across any number of wrap-arounds.
 */
module UniqueIds {
  import opened Arithmetic

  // ------------------------------------------------------------------ the arithmetic of the constructor

  /** How wide a bucket is, for ids 0..max and `count` buckets. */
  function Divisor(max: nat, count: nat): (r: nat)
    requires count > 0
    ensures r > 0
  {
    max / count + 1
  }

  // The id type wraps around after every operation.

  function Wrapped(x: int, max: nat): (r: nat)
    ensures r <= max
  {
    x % (max + 1)
  }

  /** f -= m_bucket_count * r */
  function Overflown(max: nat, count: nat, r: nat): nat {
    Wrapped(max - Wrapped(count * r, max), max)
  }

  /** f += r * (m_bucket_count - l) */
  function LastBucketSize(max: nat, count: nat, r: nat, l: nat): (size: nat)
    ensures size <= max
  {
    Wrapped(Overflown(max, count, r) + Wrapped(r * Wrapped(count - l, max), max), max)
  }

  lemma WrapsBy(x: int, max: nat) returns (k: int)
    ensures Wrapped(x, max) == x + k * (max + 1)
  {
    k := -(x / (max + 1));
    assert x == x / (max + 1) * (max + 1) + x % (max + 1);
    assert k * (max + 1) == -(x / (max + 1) * (max + 1));
  }

  /** However often it wraps on the way, the computation ends at the size of the last bucket. */
  lemma OverflowCancels(max: nat, count: nat, r: nat, l: nat)
    requires r > 0 && l == max / r
    ensures LastBucketSize(max, count, r, l) == max % r
  {
    var w := max + 1;
    assert max == r * l + max % r;
    RemainderFits(max, r);
    var product1, left := Wrapped(count * r, max), Wrapped(count - l, max);
    var product2, first := Wrapped(r * left, max), Wrapped(max - product1, max);
    var size := Wrapped(first + product2, max);
    assert LastBucketSize(max, count, r, l) == size;
    var k1 := WrapsBy(count * r, max);
    var k2 := WrapsBy(max - product1, max);
    var k3 := WrapsBy(count - l, max);
    var k4 := WrapsBy(r * left, max);
    var k5 := WrapsBy(first + product2, max);
    hide Wrapped, Overflown, LastBucketSize;
    WrapsCancel(max, w, count, r, l, max % r, product1, left, product2, first, size, k1, k2, k3, k4, k5);
  }

  lemma Factored(k1: int, k2: int, k3: int, k4: int, k5: int, w: int)
    ensures (k2 - k1 + k3 + k4 + k5) * w == k2 * w - k1 * w + k3 * w + k4 * w + k5 * w
  {
  }

  lemma WrapsCancel(max: nat, w: nat, count: nat, r: nat, l: nat, rest: nat,
                    product1: nat, left: nat, product2: nat, first: nat, size: nat,
                    k1: int, k2: int, k3: int, k4: int, k5: int)
    requires w == max + 1 && max == r * l + rest && rest < w && size < w
    requires product1 == count * r + k1 * w && first == max - product1 + k2 * w
    requires left == count - l + k3 * w && product2 == r * left + k4 * w
    requires size == first + product2 + k5 * w
    ensures size == rest
  {
    var rk3 := r * k3;
    assert size == rest + k2 * w - k1 * w + rk3 * w + k4 * w + k5 * w by {
      Distributes(r, count, l, k3, w);
    }
    Factored(k1, k2, rk3, k4, k5, w);
    Congruent(size, rest, k2 - k1 + rk3 + k4 + k5, w);
  }

  lemma Distributes(r: int, count: int, l: int, k: int, w: int)
    ensures r * (count - l + k * w) == count * r - r * l + r * k * w
  {
    assert r * (count - l + k * w) == r * (count - l) + r * (k * w);
    assert r * (k * w) == r * k * w;
  }

  lemma RemainderFits(max: nat, r: nat)
    requires r > 0
    ensures max % r <= max
  {
    assert max == max / r * r + max % r;
    assert max / r * r >= 0;
  }

  /** Every id has a bucket. */
  lemma BucketExists(max: nat, count: nat, id: nat)
    requires count > 0 && id <= max
    ensures id / Divisor(max, count) < count
  {
    var r := Divisor(max, count);
    assert r * count == max / count * count + count;
    assert max < r * count by { assert max == max / count * count + max % count; }
    QuotientBelow(id, r, count);
  }

  /** The index the constructor calls the last bucket's. */
  function LastIndex(max: nat, r: nat): int
    requires r > 0
  {
    var l := max / r;
    if max % r == 0 then l - 1 else l
  }

  /** The wrap index is that of the last bucket with more than one id, zero counting as an id. */
  lemma LastIndexIs(max: nat, r: nat)
    requires r > 0 && max > 0
    ensures LastIndex(max, r) * r < max <= (LastIndex(max, r) + 1) * r
  {
    var l := max / r;
    assert max == l * r + max % r;
    assert (l - 1) * r == l * r - r && (l + 1) * r == l * r + r;
  }

  lemma LastIndexInRange(max: nat, count: nat)
    requires max >= 255 && count >= 16
    ensures 1 <= LastIndex(max, Divisor(max, count)) <= max / Divisor(max, count)
  {
    var k := max / count;
    assert max == k * count + max % count;
    Larger(k, 16, count);
    assert Divisor(max, count) == k + 1 && 2 * (k + 1) <= max;
    hide Divisor;
    LastIndexBelow(max, k + 1);
  }

  lemma LastIndexBelow(max: nat, r: nat)
    requires r > 0 && 2 * r <= max
    ensures 1 <= LastIndex(max, r) <= max / r
  {
    QuotientAtLeast(max, r, 2);
  }

  // ------------------------------------------------------------------ live ids by bucket

  function BucketOf(r: nat, id: nat): nat
    requires r > 0
  {
    id / r
  }

  function InBucket(live: set<nat>, r: nat, b: nat): set<nat>
    requires r > 0
  {
    set id | id in live && BucketOf(r, id) == b
  }

  lemma Joining(live: set<nat>, r: nat, id: nat, b: nat)
    requires r > 0 && id !in live
    ensures |InBucket(live + {id}, r, b)| == |InBucket(live, r, b)| + if BucketOf(r, id) == b then 1 else 0
  {
    if BucketOf(r, id) == b {
      assert InBucket(live + {id}, r, b) == InBucket(live, r, b) + {id};
    } else {
      assert InBucket(live + {id}, r, b) == InBucket(live, r, b);
    }
  }

  /** An empty counter means what it says. */
  lemma EmptyBucket(live: set<nat>, r: nat, b: nat, id: nat)
    requires r > 0 && |InBucket(live, r, b)| == 0 && BucketOf(r, id) == b
    ensures id !in live
  {
    assert id !in InBucket(live, r, b);
  }

  lemma FirstOfBucket(r: nat, b: nat, max: nat)
    requires r > 0 && b <= max / r
    ensures BucketOf(r, b * r) == b && b * r <= max
  {
    assert b * r == b * r + 0;
    Quotient(b * r, b, 0, r);
    assert max == max / r * r + max % r;
    assert (max / r - b) * r >= 0;
  }

  /** Each counter is the number of live ids in its range. */
  ghost predicate Counted(live: set<nat>, r: nat, counters: seq<nat>) {
    r > 0 && forall b :: 0 <= b < |counters| ==> counters[b] == |InBucket(live, r, b)|
  }

  /** No live id is zero, and in the present bucket none is ahead of the last one issued. */
  ghost predicate Behind(live: set<nat>, max: nat, r: nat, last: nat) {
    && r > 0 && last <= max && (forall id :: id in live ==> 0 < id <= max)
    && (forall id :: id in live && BucketOf(r, id) == BucketOf(r, last) ==> id <= last)
  }

  /** In the same bucket, the successor is new; in another one, it is if that one is empty. */
  lemma SuccessorIsNew(live: set<nat>, max: nat, r: nat, last: nat, counters: seq<nat>, id: nat)
    requires Behind(live, max, r, last) && Counted(live, r, counters) && 0 < id <= max && BucketOf(r, id) < |counters|
    requires (id == last + 1 && BucketOf(r, id) == BucketOf(r, last)) || counters[BucketOf(r, id)] == 0
    ensures id !in live && Behind(live + {id}, max, r, id)
    ensures Counted(live + {id}, r, counters[BucketOf(r, id) := counters[BucketOf(r, id)] + 1])
  {
    var b := BucketOf(r, id);
    if counters[b] == 0 {
      forall other | BucketOf(r, other) == b ensures other !in live {
        EmptyBucket(live, r, b, other);
      }
    }
    hide BucketOf, InBucket;
    forall c | 0 <= c < |counters| ensures counters[b := counters[b] + 1][c] == |InBucket(live + {id}, r, c)| {
      Joining(live, r, id, c);
    }
  }

  lemma ReleaseCounts(live: set<nat>, max: nat, r: nat, last: nat, counters: seq<nat>, id: nat)
    requires Behind(live, max, r, last) && Counted(live, r, counters) && BucketOf(r, id) < |counters|
    requires counters[BucketOf(r, id)] > 0
    ensures Behind(live - {id}, max, r, last)
    ensures Counted(live - {id}, r, counters[BucketOf(r, id) := counters[BucketOf(r, id)] - 1]) <==> id in live
  {
    var b := BucketOf(r, id);
    var after := counters[b := counters[b] - 1];
    hide BucketOf, InBucket;
    if id in live {
      forall c | 0 <= c < |counters| ensures after[c] == |InBucket(live - {id}, r, c)| {
        Joining(live - {id}, r, id, c);
        assert live - {id} + {id} == live;
      }
    } else {
      assert live - {id} == live;
      assert after[b] != |InBucket(live, r, b)|;
    }
  }

  lemma InUse(live: set<nat>, r: nat, counters: seq<nat>, b: nat)
    requires Counted(live, r, counters) && b < |counters|
    ensures counters[b] != 0 <==> exists other :: other in live && BucketOf(r, other) == b
  {
    if counters[b] != 0 {
      var other :| other in InBucket(live, r, b);
    } else {
      forall other | BucketOf(r, other) == b ensures other !in live {
        EmptyBucket(live, r, b, other);
      }
    }
  }

  // ------------------------------------------------------------------ the search for an empty bucket

  function Following(b: nat, n: nat): (r: nat)
    requires n > 0
    ensures r < n
    ensures b + 1 < n ==> r == b + 1
    ensures b + 1 == n ==> r == 0
  {
    (b + 1) % n
  }

  /** The k-th bucket looked at, starting from `start` and wrapping at `n`. */
  function Probe(start: nat, n: nat, k: nat): nat
    requires n > 0
  {
    if k == 0 then start else Following(Probe(start, n, k - 1), n)
  }

  /** Where the k-th look falls. */
  lemma {:induction false} ProbeAt(start: nat, n: nat, k: nat)
    requires n > 0
    ensures Probe(start, n, k) == LookAt(start, n, k)
  {
    if k > 1 {
      ProbeAt(start, n, k - 1);
      NextRemainder(start + k - 1, n);
    }
  }

  lemma NextRemainder(a: nat, n: nat)
    requires n > 0
    ensures (a % n + 1) % n == (a + 1) % n
  {
    var q := a / n;
    assert a == q * n + a % n;
    if a % n + 1 < n {
      Quotient(a + 1, q, a % n + 1, n);
    } else {
      assert a + 1 == (q + 1) * n;
      Quotient(a + 1, q + 1, 0, n);
    }
  }

  /** Which bucket the k-th look falls on, counting on from `start` modulo `n`. */
  function LookAt(start: nat, n: nat, k: nat): nat
    requires n > 0
  {
    if k == 0 then start else (start + k) % n
  }

  predicate InUseAt(counters: seq<nat>, start: nat, n: nat, k: nat)
    requires n > 0
  {
    LookAt(start, n, k) < |counters| && counters[LookAt(start, n, k)] != 0
  }

  ghost predicate EmptyAfter(counters: seq<nat>, start: nat, n: nat, b: nat, k: nat)
    requires n > 0
  {
    && b < |counters| && counters[b] == 0 && b == LookAt(start, n, k)
    && forall j: nat :: j < k ==> InUseAt(counters, start, n, j)
  }

  /** All buckets looked at before `b` are in use. */
  ghost predicate FirstEmpty(counters: seq<nat>, start: nat, n: nat, b: nat)
    requires n > 0
  {
    exists k: nat :: EmptyAfter(counters, start, n, b, k)
  }

  lemma FoundFirst(counters: seq<nat>, start: nat, n: nat, k: nat)
    requires 0 < n <= |counters| && start < |counters| && Probe(start, n, k) < |counters|
    requires counters[Probe(start, n, k)] == 0 && forall j :: 0 <= j < k ==> !Stops(counters, start, n, j)
    ensures FirstEmpty(counters, start, n, Probe(start, n, k))
  {
    forall j: nat | j < k ensures InUseAt(counters, start, n, j) {
      ProbeAt(start, n, j);
      ProbeBelow(start, n, j);
      assert !Stops(counters, start, n, j);
    }
    ProbeAt(start, n, k);
    assert EmptyAfter(counters, start, n, Probe(start, n, k), k);
  }

  lemma ProbeBelow(start: nat, n: nat, k: nat)
    requires n > 0
    ensures k > 0 ==> Probe(start, n, k) < n
  {
  }

  predicate Stops(counters: seq<nat>, start: nat, n: nat, k: nat)
    requires 0 < n <= |counters| && start < |counters|
  {
    var b := Probe(start, n, k);
    b < |counters| && (counters[b] == 0 || (k > 0 && b == start))
  }

  /** The way round never leads back to `start`, and there is no empty bucket on it. */
  predicate Spins(counters: seq<nat>, start: nat, n: nat)
    requires n <= |counters| && start < |counters|
  {
    n <= start && counters[start] != 0 && forall b :: 0 <= b < n ==> counters[b] != 0
  }

  /** From `b` on, every bucket below `n` is probed before `b` comes round again. */
  lemma {:induction false} ProbeReaches(start: nat, n: nat, k: nat, d: nat)
    requires n > 0 && k > 0 && Probe(start, n, k) + d < n
    ensures Probe(start, n, k + d) == Probe(start, n, k) + d
  {
    if d > 0 {
      ProbeReaches(start, n, k, d - 1);
    }
  }

  lemma ProbeFinds(start: nat, n: nat, b: nat) returns (k: nat)
    requires b < n
    ensures k > 0 && Probe(start, n, k) == b
  {
    hide Following;
    var p := Probe(start, n, 1);
    if p <= b {
      ProbeReaches(start, n, 1, b - p);
      k := 1 + (b - p);
    } else {
      ProbeReaches(start, n, 1, n - 1 - p);
      var k0 := 1 + (n - 1 - p);
      assert Probe(start, n, k0 + 1) == 0;
      ProbeReaches(start, n, k0 + 1, b);
      k := k0 + 1 + b;
    }
  }

  /** The search ends unless it spins: exactly then no probe ever stops it. */
  lemma SearchEnds(counters: seq<nat>, start: nat, n: nat)
    requires 0 < n <= |counters| && start < |counters|
    ensures (exists k :: Stops(counters, start, n, k)) <==> !Spins(counters, start, n)
  {
    if Spins(counters, start, n) {
      forall k ensures !Stops(counters, start, n, k) {
        assert k > 0 ==> Probe(start, n, k) < n;
      }
    } else if counters[start] == 0 {
      assert Stops(counters, start, n, 0);
    } else {
      var b := start;
      if n <= start {
        b :| 0 <= b < n && counters[b] == 0;
      }
      var k := ProbeFinds(start, n, b);
      assert Stops(counters, start, n, k);
    }
  }

  // ------------------------------------------------------------------ the allocator

  /** The largest value of an unsigned type of so many bytes. */
  function MaxOf(bytes: nat): (r: nat)
    requires bytes > 0
    ensures r >= 255
  {
    if bytes == 1 then 255 else MaxOf(bytes - 1) * 256 + 255
  }

  /** Back at the start, the search has seen every bucket there is. */
  lemma Surrounded(counters: seq<nat>, start: nat, n: nat, k: nat)
    requires 0 < n <= |counters| && start < |counters| && k > 0 && Probe(start, n, k) == start
    requires forall j :: 0 <= j < k ==> !Stops(counters, start, n, j)
    ensures start < n && forall b :: 0 <= b < n ==> counters[b] != 0
  {
    assert k >= n by {
      if k < n {
        ProbeIs(start, n, k);
      }
    }
    forall b | 0 <= b < n ensures counters[b] != 0 {
      var j := if b < start then b + n - start else b - start;
      ProbeIs(start, n, j);
      assert !Stops(counters, start, n, j);
    }
  }

  lemma {:induction false} ProbeIs(start: nat, n: nat, k: nat)
    requires start < n && k <= n
    ensures Probe(start, n, k) == if start + k < n then start + k else start + k - n
  {
    if k > 0 {
      ProbeIs(start, n, k - 1);
    }
  }

  datatype Outcome = Issued(id: nat) | Exhausted

  /** Every id has a bucket, and the search wraps within those below the last. */
  predicate LaidOut(max: nat, divisor: nat, lastIndex: nat, buckets: nat) {
    divisor > 0 && 1 <= lastIndex <= BucketOf(divisor, max) < buckets && max >= 255
  }

  lemma BucketWithin(id: nat, max: nat, divisor: nat)
    requires divisor > 0 && id <= max
    ensures BucketOf(divisor, id) <= BucketOf(divisor, max)
  {
    QuotientAtLeast(max, divisor, id / divisor) by {
      assert id == id / divisor * divisor + id % divisor;
    }
  }

  method Layout(max: nat, buckets: nat) returns (divisor: nat, lastIndex: nat)
    requires max >= 255 && buckets >= 16
    ensures LaidOut(max, divisor, lastIndex, buckets)
    ensures divisor == Divisor(max, buckets) && lastIndex == LastIndex(max, divisor)
  {
    divisor := max / buckets + 1;
    BucketExists(max, buckets, max);
    LastIndexInRange(max, buckets);
    OverflowCancels(max, buckets, divisor, BucketOf(divisor, max));
    hide Divisor;
    lastIndex := BucketOf(divisor, max);
    var full := Wrapped(max - Wrapped(buckets * divisor, max), max);
    full := Wrapped(full + Wrapped(divisor * Wrapped(buckets - lastIndex, max), max), max);
    if full == 0 {
      lastIndex := lastIndex - 1;
    }
  }

  /** The first id of a bucket; zero is none. */
  function FirstId(b: nat, r: nat): nat {
    if b == 0 then 1 else b * r
  }

  /**
   The id with which a bucket is entered: the first of the first empty bucket found. Where the only id of that is zero,
   the search starts again upwards from bucket one.
   */
  ghost predicate Entered(counters: seq<nat>, start: nat, n: nat, divisor: nat, id: nat)
    requires n > 0
  {
    exists b: nat :: FirstEmpty(counters, start, n, b) && EntersBy(counters, b, divisor, id)
  }

  predicate EntersBy(counters: seq<nat>, b: nat, divisor: nat, id: nat) {
    if b == 0 && divisor == 1 then
      0 < id < |counters| && counters[id] == 0 && forall c :: 1 <= c < id ==> counters[c] != 0
    else id == FirstId(b, divisor)
  }

  class UniqueIdManager {
    const max: nat                // the largest value of the id type
    const divisor: nat
    const lastIndex: nat
    const counters: array<nat>    // live ids per bucket
    var lastId: nat
    ghost var live: set<nat>

    ghost predicate Valid()
      reads this, counters
    {
      && LaidOut(max, divisor, lastIndex, counters.Length)
      && Behind(live, max, divisor, lastId) && Counted(live, divisor, counters[..])
    }

    constructor (bytes: nat, suggested: nat)
      requires bytes > 0
      ensures Valid() && fresh(counters) && live == {} && lastId == 0
      ensures max == MaxOf(bytes) && counters.Length == if suggested < 16 then 256 * bytes else suggested
      ensures divisor == Divisor(max, counters.Length) && lastIndex == LastIndex(max, divisor)
    {
      var top := MaxOf(bytes);
      var buckets := if suggested < 16 then 256 * bytes else suggested;
      var r, l := Layout(top, buckets);
      max, divisor, lastIndex := top, r, l;
      counters := new nat[buckets](i => 0);
      lastId := 0;
      live := {};
    }

    function Successor(): nat
      reads this
    {
      if lastId == max then 0 else lastId + 1
    }

    /** No empty bucket is found from `start`, or only the one for zero. */
    ghost predicate Full(start: nat)
      reads this, counters
      requires 0 < divisor && lastIndex < counters.Length && start < counters.Length
    {
      if divisor == 1 && counters[0] == 0 then
        (start == 0 || counters[start] != 0) && forall b :: 1 <= b <= lastIndex ==> counters[b] != 0
      else
        start < lastIndex && forall b :: 0 <= b < lastIndex ==> counters[b] != 0
    }

    /** The next id begins another bucket, and none is found for it. */
    ghost predicate NoRoom()
      reads this, counters
      requires 0 < divisor && lastIndex < counters.Length
    {
      var start := BucketOf(divisor, Successor());
      start != BucketOf(divisor, lastId) && start < counters.Length && Full(start)
    }

    /** The next id begins another bucket, which is empty and has more in it than zero. */
    predicate EntersEmpty()
      reads this, counters
      requires 0 < divisor
    {
      var start := BucketOf(divisor, Successor());
      && start != BucketOf(divisor, lastId) && start < counters.Length && counters[start] == 0
      && (start > 0 || divisor > 1)
    }

    /** The search for an empty bucket would never end. */
    ghost predicate Endless()
      reads this, counters
      requires 0 < divisor && lastIndex < counters.Length
    {
      var start := BucketOf(divisor, Successor());
      start != BucketOf(divisor, lastId) && start < counters.Length && Spins(counters[..], start, lastIndex)
    }

    lemma SuccessorFits()
      requires Valid()
      ensures BucketOf(divisor, Successor()) <= BucketOf(divisor, max)
      ensures BucketOf(divisor, Successor()) == BucketOf(divisor, lastId) ==> Successor() == lastId + 1
    {
      if lastId == max {
        Quotient(0, 0, 0, divisor);
      } else {
        QuotientAtLeast(max, divisor, BucketOf(divisor, lastId + 1)) by {
          assert lastId + 1 == (lastId + 1) / divisor * divisor + (lastId + 1) % divisor;
        }
      }
    }

    lemma SameBuckets(id: nat)
      requires Valid() && id <= max
      ensures BucketOf(divisor, id) < counters.Length
    {
      hide Behind, Counted;
      BucketWithin(id, max, divisor);
    }

    /** The way round from `start`, until an empty bucket or `start` itself. */
    method FindEmpty(start: nat) returns (found: Outcome)
      requires 0 < lastIndex < counters.Length && start < counters.Length && !Spins(counters[..], start, lastIndex)
      ensures found.Issued? ==>
        found.id < counters.Length && counters[found.id] == 0 && (found.id == start || found.id < lastIndex)
      ensures found.Issued? && found.id != start ==> counters[start] != 0
      ensures found.Exhausted? <==> start < lastIndex && forall b :: 0 <= b < lastIndex ==> counters[b] != 0
      ensures found.Issued? ==> FirstEmpty(counters[..], start, lastIndex, found.id)
    {
      ghost var k0: nat :| Stops(counters[..], start, lastIndex, k0) by {
        SearchEnds(counters[..], start, lastIndex);
      }
      var b := start;
      ghost var k := 0;
      while counters[b] != 0
        invariant b < counters.Length && b == Probe(start, lastIndex, k) && k <= k0
        invariant k > 0 ==> b < lastIndex && b != start && counters[start] != 0
        invariant forall j :: 0 <= j < k ==> !Stops(counters[..], start, lastIndex, j)
        decreases k0 - k
      {
        assert !Stops(counters[..], start, lastIndex, k);
        b := Following(b, lastIndex);
        k := k + 1;
        if b == start {
          found := Exhausted;
          Surrounded(counters[..], start, lastIndex, k);
          return;
        }
      }
      found := Issued(b);
      FoundFirst(counters[..], start, lastIndex, k);
    }

    /** The first id of the next empty bucket, zero being no id. */
    method Enter(start: nat) returns (outcome: Outcome)
      requires LaidOut(max, divisor, lastIndex, counters.Length) && start <= BucketOf(divisor, max)
      requires !Spins(counters[..], start, lastIndex)
      ensures outcome.Issued? ==>
        && 0 < outcome.id <= max && BucketOf(divisor, outcome.id) < counters.Length
        && counters[BucketOf(divisor, outcome.id)] == 0
      ensures outcome.Exhausted? <==> Full(start)
      ensures counters[start] == 0 && (start > 0 || divisor > 1) ==> outcome == Issued(FirstId(start, divisor))
      ensures outcome.Issued? ==> Entered(counters[..], start, lastIndex, divisor, outcome.id)
    {
      hide FirstEmpty;
      var found := FindEmpty(start);
      if found.Exhausted? {
        return Exhausted;
      }
      var b := found.id;
      if b * divisor == 0 {
        if divisor == 1 {
          b := 1;
          while counters[b] != 0
            invariant 1 <= b <= lastIndex
            invariant forall c :: 1 <= c < b ==> counters[c] != 0
            decreases lastIndex - b
          {
            b := b + 1;
            if b > lastIndex {
              return Exhausted;
            }
          }
          FirstOfBucket(divisor, b, max);
          outcome := Issued(b * divisor);
        } else {
          Quotient(1, 0, 1, divisor);
          outcome := Issued(1);
        }
      } else {
        FirstOfBucket(divisor, b, max);
        outcome := Issued(b * divisor);
      }
      assert EntersBy(counters[..], found.id, divisor, outcome.id);
    }

    /** The next id: not zero, not live; or the run is over. */
    method Obtain() returns (outcome: Outcome)
      requires Valid() && !Endless()
      modifies this, counters
      ensures outcome.Exhausted? <==> old(NoRoom())
      ensures outcome.Issued? ==>
        && Valid() && outcome.id == lastId && 0 < outcome.id <= max
        && outcome.id !in old(live) && live == old(live) + {outcome.id}
      ensures BucketOf(divisor, old(Successor())) == BucketOf(divisor, old(lastId)) ==>
        outcome == Issued(old(lastId) + 1)
      ensures old(EntersEmpty()) ==> outcome == Issued(FirstId(BucketOf(divisor, old(Successor())), divisor))
      ensures outcome.Issued? && BucketOf(divisor, old(Successor())) != BucketOf(divisor, old(lastId)) ==>
        Entered(old(counters[..]), BucketOf(divisor, old(Successor())), lastIndex, divisor, outcome.id)
    {
      var b1 := BucketOf(divisor, lastId);
      ghost var last := lastId;
      SuccessorFits();
      hide BucketOf, Spins, Full, Entered;
      lastId := Successor();
      var b2 := BucketOf(divisor, lastId);
      if b2 != b1 {
        outcome := Enter(b2);
        if outcome.Exhausted? {
          return;
        }
        lastId := outcome.id;
        b2 := BucketOf(divisor, lastId);
      } else {
        outcome := Issued(lastId);
      }
      SuccessorIsNew(live, max, divisor, last, counters[..], lastId);
      hide InBucket, Behind, Counted;
      counters[b2] := counters[b2] + 1;
      live := live + {lastId};
    }

    /** A live id comes back; an id of a bucket in use passes for one. */
    method Release(id: nat) returns (accepted: bool)
      requires Valid() && id <= max
      modifies this, counters
      ensures accepted <==> exists other :: other in old(live) && BucketOf(divisor, other) == BucketOf(divisor, id)
      ensures accepted ==> live == old(live) - {id} && (Valid() <==> id in old(live))
      ensures !accepted ==> Valid() && live == old(live)
      ensures lastId == old(lastId)
    {
      var pos := BucketOf(divisor, id);
      SameBuckets(id);
      hide BucketOf, InBucket, Behind, Counted;
      InUse(live, divisor, counters[..], pos);
      if counters[pos] == 0 {
        return false;
      }
      ReleaseCounts(live, max, divisor, lastId, counters[..], id);
      hide LaidOut;
      counters[pos] := counters[pos] - 1;
      live := live - {id};
      accepted := true;
    }
  }

  // ------------------------------------------------------------------ a search without end

  /** With one id to a bucket the bucket of zero is always empty, so that the search ends. */
  lemma NarrowNeverSpins(live: set<nat>, max: nat, last: nat, counters: seq<nat>, start: nat, n: nat)
    requires Behind(live, max, 1, last) && Counted(live, 1, counters) && 0 < n <= |counters| && start < |counters|
    ensures !Spins(counters, start, n)
  {
    InUse(live, 1, counters, 0);
  }

  ghost predicate OneByte(m: UniqueIdManager)
    reads m, m.counters
  {
    m.Valid() && m.max == 255 && m.divisor == 16 && m.lastIndex == 15 && m.counters.Length == 16
  }

  /** The next id is taken, and given back at once unless it is to be kept. */
  method TakeNext(m: UniqueIdManager, keep: bool)
    requires OneByte(m)
    requires m.lastId % 16 == 15 ==> forall id :: id in m.live ==> id / 16 != m.Successor() / 16
    modifies m, m.counters
    ensures OneByte(m) && m.lastId == if old(m.lastId) == 255 then 1 else old(m.lastId) + 1
    ensures m.live == if keep then old(m.live) + {m.lastId} else old(m.live)
  {
    ghost var start := m.Successor() / 16;
    if m.lastId % 16 == 15 {
      InUse(m.live, 16, m.counters[..], start);
      assert m.counters[start] == 0 && m.EntersEmpty();
    }
    assert !m.Endless();
    var outcome := m.Obtain();
    assert outcome == Issued(m.lastId);
    if !keep {
      var accepted := m.Release(m.lastId);
    }
  }

  /** One id of each of the first buckets, up to `last`. */
  function OnePerBucket(last: nat): set<nat> {
    set b | 0 <= b < 15 && FirstId(b, 16) <= last :: FirstId(b, 16)
  }

  /** One-byte ids in sixteen buckets: with one long-lived id in each, the second round gets stuck. */
  method FirstLap() returns (m: UniqueIdManager)
    ensures fresh(m) && fresh(m.counters) && OneByte(m) && m.lastId == 255 && m.live == {240}
  {
    m := new UniqueIdManager(1, 16);
    assert m.max == 255 && m.divisor == 16 && m.lastIndex == 15;
    for i := 0 to 255
      invariant fresh(m) && fresh(m.counters) && OneByte(m) && m.lastId == i && m.live == if i < 240 then {} else {240}
    {
      TakeNext(m, i + 1 == 240);
    }
  }

  method GetStuck() returns (m: UniqueIdManager)
    ensures m.Valid() && m.Endless() && m.lastId == 239 && m.live == {240} + OnePerBucket(239)
  {
    m := FirstLap();
    TakeNext(m, true);
    assert OnePerBucket(1) == {1} by {
      assert FirstId(0, 16) == 1;
    }
    for i := 1 to 239
      invariant fresh(m) && fresh(m.counters) && OneByte(m) && m.lastId == i && m.live == {240} + OnePerBucket(i)
    {
      var keep := (i + 1) % 16 == 0;
      assert OnePerBucket(i + 1) == if keep then OnePerBucket(i) + {i + 1} else OnePerBucket(i) by {
        OneMoreBucket(i);
      }
      TakeNext(m, keep);
    }
    AllInUse(m.live, m.counters[..]);
  }

  lemma OneMoreBucket(i: nat)
    requires 1 <= i < 239
    ensures OnePerBucket(i + 1) == if (i + 1) % 16 == 0 then OnePerBucket(i) + {i + 1} else OnePerBucket(i)
  {
    if (i + 1) % 16 == 0 {
      assert FirstId((i + 1) / 16, 16) == i + 1;
    }
  }

  lemma AllInUse(live: set<nat>, counters: seq<nat>)
    requires |counters| == 16 && Counted(live, 16, counters) && live == {240} + OnePerBucket(239)
    ensures Spins(counters, 15, 15)
  {
    forall b | 0 <= b < 16 ensures counters[b] != 0 {
      InUse(live, 16, counters, b);
      assert FirstId(b, 16) in live && BucketOf(16, FirstId(b, 16)) == b;
    }
  }
}
