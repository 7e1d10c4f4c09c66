/**
 The queue of scheduled messages: one round over all slots picks the most important item that is due, the last
 one scanned among equals, and reschedules it.
 */
module MessageQueue {
  import opened MessageStates

  datatype Item = Item(priority: int, activation: int, runs: int, interval: nat)

  /** Due, as the program defines it: an activation time still ahead counts, one that has passed does not. */
  predicate Eligible(item: Item, timestamp: int) {
    item.runs > 0 && (item.activation == 0 || item.activation >= timestamp)
  }

  function Rescheduled(item: Item, timestamp: int): Item {
    var next := item.activation + item.interval;
    if item.runs <= 1 then item.(runs := item.runs - 1)
    else item.(runs := item.runs - 1, activation := if next < timestamp then timestamp + item.interval else next)
  }

  /** An item that is to run again is not activated before the time of the fetch. */
  lemma NotBeforeFetch(item: Item, timestamp: int)
    requires Rescheduled(item, timestamp).runs > 0
    ensures Rescheduled(item, timestamp).activation >= timestamp
  {
  }

  /** It is activated one interval after the last time, or, if that has passed, one interval after the fetch. */
  lemma OneIntervalLater(item: Item, timestamp: int)
    ensures Rescheduled(item, timestamp).runs <= 0 ==> Rescheduled(item, timestamp).activation == item.activation
    ensures Rescheduled(item, timestamp).runs > 0 ==>
      var next := Rescheduled(item, timestamp).activation;
      && next >= item.activation + item.interval && next <= item.interval + Later(item.activation, timestamp)
      && next - item.interval in {item.activation, timestamp}
  {
  }

  function Later(a: int, b: int): (r: int)
    ensures r >= a && r >= b && r in {a, b}
  {
    if a < b then b else a
  }

  // ------------------------------------------------------------------ the round

  function After(i: nat, n: nat): (r: nat)
    requires i < n
    ensures r < n
    ensures r == if i + 1 == n then 0 else i + 1
  {
    (i + 1) % n
  }

  /** The slot scanned in turn k, starting behind the pop position. */
  function Slot(poppos: nat, n: nat, k: nat): (r: nat)
    requires n > 0
    ensures r < n
  {
    if k == 0 then (poppos + 1) % n else After(Slot(poppos, n, k - 1), n)
  }

  /** In which turn a slot is scanned. */
  function TurnOf(poppos: nat, n: nat, i: nat): (k: nat)
    requires poppos < n && i < n
    ensures k < n
  {
    if i > poppos then i - poppos - 1 else i + n - poppos - 1
  }

  lemma {:induction false} SlotTurn(poppos: nat, n: nat, k: nat)
    requires poppos < n && k < n
    ensures TurnOf(poppos, n, Slot(poppos, n, k)) == k
  {
    if k > 0 {
      SlotTurn(poppos, n, k - 1);
    } else {
      assert (poppos + 1) % n == After(poppos, n);
    }
  }

  /** The round visits every slot, the pop position last, and none twice. */
  lemma RoundVisitsAll(poppos: nat, n: nat, i: nat)
    requires poppos < n && i < n
    ensures Slot(poppos, n, TurnOf(poppos, n, i)) == i
    ensures forall k :: 0 <= k < n && Slot(poppos, n, k) == i ==> k == TurnOf(poppos, n, i)
    ensures Slot(poppos, n, n - 1) == poppos
  {
    SlotTurn(poppos, n, TurnOf(poppos, n, i));
    SlotTurn(poppos, n, n - 1);
    forall k | 0 <= k < n && Slot(poppos, n, k) == i ensures k == TurnOf(poppos, n, i) {
      SlotTurn(poppos, n, k);
    }
  }

  lemma EndOfRound(poppos: nat, n: nat, k: nat)
    requires poppos < n && k < n
    ensures Slot(poppos, n, k) == poppos <==> k + 1 == n
  {
    SlotTurn(poppos, n, k);
    RoundVisitsAll(poppos, n, poppos);
  }

  /** What is_eligible_for_exec keeps: the slot chosen so far, or this one. */
  function Better(items: seq<Item>, chosen: Option<nat>, i: nat, timestamp: int): Option<nat>
    requires i < |items| && (chosen.Some? ==> chosen.value < |items|)
  {
    if Eligible(items[i], timestamp) && (chosen.None? || items[i].priority >= items[chosen.value].priority) then Some(i)
    else chosen
  }

  /** The slot chosen after the first `k` turns. */
  function Chosen(items: seq<Item>, poppos: nat, timestamp: int, k: nat): (r: Option<nat>)
    requires poppos < |items|
    ensures r.Some? ==> r.value < |items|
  {
    if k == 0 then None
    else Better(items, Chosen(items, poppos, timestamp, k - 1), Slot(poppos, |items|, k - 1), timestamp)
  }

  lemma NextTurn(items: seq<Item>, poppos: nat, timestamp: int, k: nat)
    requires poppos < |items|
    ensures var n := |items|;
      && Slot(poppos, n, 0) == (poppos + 1) % n && Slot(poppos, n, k + 1) == After(Slot(poppos, n, k), n)
      && Chosen(items, poppos, timestamp, 0) == None
      && Chosen(items, poppos, timestamp, k + 1) ==
           Better(items, Chosen(items, poppos, timestamp, k), Slot(poppos, n, k), timestamp)
  {
  }

  /** `j` is due, nothing due is more important, and nothing as important is scanned after it. */
  ghost predicate Best(items: seq<Item>, poppos: nat, timestamp: int, j: nat) {
    && poppos < |items| && j < |items| && Eligible(items[j], timestamp)
    && forall i :: 0 <= i < |items| && i != j && Eligible(items[i], timestamp) ==> Yields(items, poppos, i, j)
  }

  predicate Yields(items: seq<Item>, poppos: nat, i: nat, j: nat)
    requires poppos < |items| && i < |items| && j < |items|
  {
    || items[i].priority < items[j].priority
    || (items[i].priority == items[j].priority && TurnOf(poppos, |items|, i) < TurnOf(poppos, |items|, j))
  }

  lemma {:induction false} ChosenSoFar(items: seq<Item>, poppos: nat, timestamp: int, k: nat)
    requires poppos < |items| && k <= |items|
    ensures var r := Chosen(items, poppos, timestamp, k);
      && (r.None? ==> forall i :: 0 <= i < |items| && TurnOf(poppos, |items|, i) < k ==> !Eligible(items[i], timestamp))
      && (r.Some? ==> Eligible(items[r.value], timestamp) && TurnOf(poppos, |items|, r.value) < k)
      && (r.Some? ==> forall i :: 0 <= i < |items| && i != r.value ==>
            TurnOf(poppos, |items|, i) < k && Eligible(items[i], timestamp) ==> Yields(items, poppos, i, r.value))
  {
    if k > 0 {
      ChosenSoFar(items, poppos, timestamp, k - 1);
      var n, s := |items|, Slot(poppos, |items|, k - 1);
      SlotTurn(poppos, n, k - 1);
      forall i | 0 <= i < n && TurnOf(poppos, n, i) == k - 1 ensures i == s {
        RoundVisitsAll(poppos, n, i);
      }
    }
  }

  /** The whole round chooses the best, and nothing exactly when nothing is due. */
  lemma RoundChoosesBest(items: seq<Item>, poppos: nat, timestamp: int)
    requires poppos < |items|
    ensures var r := Chosen(items, poppos, timestamp, |items|);
      && (r.None? <==> forall i :: 0 <= i < |items| ==> !Eligible(items[i], timestamp))
      && (r.Some? ==> Best(items, poppos, timestamp, r.value))
      && forall j: nat :: Best(items, poppos, timestamp, j) ==> r == Some(j)
  {
    ChosenSoFar(items, poppos, timestamp, |items|);
  }

  /** A pop position beyond the queue is never met again: the round ends exactly when it lies within. */
  lemma RoundEnds(poppos: nat, n: nat)
    requires n > 0
    ensures (exists k: nat :: Slot(poppos, n, k) == poppos) <==> poppos < n
  {
    if poppos < n {
      RoundVisitsAll(poppos, n, poppos);
    }
  }

  // ------------------------------------------------------------------ runs

  /** A fetch touches the item it returns alone, and moves to it; or to the beginning, when there is none. */
  lemma FetchTouchesOne(q: Queue, timestamp: int)
    requires q.Valid() && q.items != []
    ensures var (t, r) := Fetched(q, timestamp);
      && (r.None? ==> t == Queue(q.items, 0))
      && (r.Some? ==>
            && t.poppos == r.value && |t.items| == |q.items|
            && t.items[r.value].runs == q.items[r.value].runs - 1
            && forall j :: 0 <= j < |q.items| && j != r.value ==> t.items[j] == q.items[j])
  {
  }

  /** The item returned last is scanned last: while it is due, and nothing due is more important, it comes again. */
  lemma SameItemAgain(q: Queue, first: int, second: int)
    requires q.Valid() && q.items != [] && Fetched(q, first).1.Some?
    ensures var (t, r) := Fetched(q, first);
      && t.poppos == r.value
      && (Eligible(t.items[r.value], second) && MostImportant(t.items, second, r.value) ==> Fetched(t, second).1 == r)
  {
    var (t, r) := Fetched(q, first);
    RoundChoosesBest(t.items, t.poppos, second);
    if Eligible(t.items[r.value], second) && MostImportant(t.items, second, r.value) {
      assert Best(t.items, t.poppos, second, r.value);
    }
  }

  predicate MostImportant(items: seq<Item>, timestamp: int, j: nat)
    requires j < |items|
  {
    forall i :: 0 <= i < |items| && Eligible(items[i], timestamp) ==> items[i].priority <= items[j].priority
  }

  datatype Queue = Queue(items: seq<Item>, poppos: nat) {
    predicate Valid() {
      poppos < |items| || (items == [] && poppos == 0)
    }
  }

  datatype Op = Add(item: Item) | Fetch(timestamp: int) | Erase(at: nat)

  /** An item is destroyed: the pop position stays where it is. */
  function Dropped(q: Queue, at: nat): Queue
    requires at < |q.items|
  {
    q.(items := q.items[..at] + q.items[at + 1..])
  }

  /** An erasure of what is there, that keeps the pop position within the queue. */
  predicate Fits(q: Queue, op: Op) {
    op.Erase? ==> op.at < |q.items| && Dropped(q, op.at).Valid()
  }

  function Fetched(q: Queue, timestamp: int): (r: (Queue, Option<nat>))
    requires q.Valid() && q.items != []
    ensures r.0.Valid() && |r.0.items| == |q.items|
  {
    var r := Chosen(q.items, q.poppos, timestamp, |q.items|);
    if r.None? then (q.(poppos := 0), r)
    else (Queue(q.items[r.value := Rescheduled(q.items[r.value], timestamp)], r.value), r)
  }

  function Apply(q: Queue, op: Op): (r: Queue)
    requires q.Valid() && Fits(q, op)
    ensures r.Valid()
  {
    match op
    case Add(item) => q.(items := q.items + [item])
    case Fetch(timestamp) => if q.items == [] then q else Fetched(q, timestamp).0
    case Erase(at) => Dropped(q, at)
  }

  predicate AllFit(q: Queue, ops: seq<Op>)
    requires q.Valid()
    decreases |ops|
  {
    ops == [] || (Fits(q, ops[0]) && AllFit(Apply(q, ops[0]), ops[1..]))
  }

  function Run(q: Queue, ops: seq<Op>): (r: Queue)
    requires q.Valid() && AllFit(q, ops)
    ensures r.Valid()
    decreases |ops|
  {
    if ops == [] then q else Run(Apply(q, ops[0]), ops[1..])
  }

  /** Where the item at `i` is after the operation, if it is still there. */
  function Moved(op: Op, i: nat): Option<nat> {
    if !op.Erase? || i < op.at then Some(i) else if i == op.at then None else Some(i - 1)
  }

  /** Where it is after the run. */
  function Place(ops: seq<Op>, i: nat): Option<nat> {
    if ops == [] then Some(i)
    else
      match Moved(ops[0], i)
      case None => None
      case Some(j) => Place(ops[1..], j)
  }

  /** How often the run returns item i. */
  function Returned(q: Queue, ops: seq<Op>, i: nat): nat
    requires q.Valid() && AllFit(q, ops)
    decreases |ops|
  {
    if ops == [] then 0
    else
      (if ops[0].Fetch? && q.items != [] && Fetched(q, ops[0].timestamp).1 == Some(i) then 1 else 0)
      + match Moved(ops[0], i)
        case None => 0
        case Some(j) => Returned(Apply(q, ops[0]), ops[1..], j)
  }

  /**
   Over any run, erasures included, an item is returned at most its run count times, each return using up one as long
   as it is there.
   */
  lemma {:induction false} ReturnedAtMostRuns(q: Queue, ops: seq<Op>, i: nat)
    requires q.Valid() && AllFit(q, ops) && i < |q.items| && q.items[i].runs >= 0
    ensures Returned(q, ops, i) <= q.items[i].runs
    ensures var k := Place(ops, i);
      k.Some? ==>
        && k.value < |Run(q, ops).items|
        && Returned(q, ops, i) == q.items[i].runs - Run(q, ops).items[k.value].runs
    decreases |ops|
  {
    if ops != [] {
      var t := Apply(q, ops[0]);
      if ops[0].Fetch? {
        ChosenSoFar(q.items, q.poppos, ops[0].timestamp, |q.items|);
      }
      if Moved(ops[0], i).Some? {
        ReturnedAtMostRuns(t, ops[1..], Moved(ops[0], i).value);
      }
    }
  }

  // ------------------------------------------------------------------ the queue as the program has it

  class QueueItem {
    const priority: int
    var activation: int
    var runs: int
    const interval: nat

    ghost function Now(): Item
      reads this
    {
      Item(priority, activation, runs, interval)
    }

    /** Every item is to run at least once. */
    constructor (activate: int, runCount: int, interval: nat, priority: int)
      ensures Now() == Item(priority, activate, if runCount <= 0 then 1 else runCount, interval)
    {
      this.priority := priority;
      this.interval := interval;
      activation := activate;
      runs := if runCount <= 0 then 1 else runCount;
    }

    method IsEligible(chosen: QueueItem?, timestamp: int) returns (taken: bool)
      ensures taken <==> Eligible(Now(), timestamp) && (chosen == null || priority >= chosen.priority)
    {
      taken := runs > 0 && (activation == 0 || activation >= timestamp)
        && (chosen == null || priority >= chosen.priority);
    }

    method CalcNextInvocation(timestamp: int)
      modifies this
      ensures Now() == Rescheduled(old(Now()), timestamp)
    {
      runs := runs - 1;
      if runs > 0 {
        activation := activation + interval;
        if activation < timestamp {
          activation := timestamp + interval;
        }
      }
    }
  }

  function Picked(item: QueueItem?, at: nat): Option<nat> {
    if item == null then None else Some(at)
  }

  class WorkQueue {
    var items: seq<QueueItem>
    var poppos: nat

    ghost function View(): Queue
      reads this, set i | i in items
    {
      Queue(seq(|items|, k requires 0 <= k < |items| reads this, set i | i in items => items[k].Now()), poppos)
    }

    ghost predicate Valid()
      reads this
    {
      && (forall i, j :: 0 <= i < j < |items| ==> items[i] != items[j])
      && (poppos < |items| || (items == [] && poppos == 0))
    }

    constructor ()
      ensures Valid() && items == []
    {
      items, poppos := [], 0;
    }

    method PushItem(item: QueueItem)
      requires Valid() && item !in items
      modifies this
      ensures Valid() && items == old(items) + [item]
      ensures View() == Apply(old(View()), Add(item.Now()))
    {
      items := items + [item];
    }

    method Consider(i: nat, chosen: QueueItem?, at: nat, timestamp: int) returns (result: QueueItem?, candidate: nat)
      requires i < |items| && (chosen != null ==> at < |items| && chosen == items[at])
      ensures Picked(result, candidate) == Better(View().items, Picked(chosen, at), i, timestamp)
      ensures result != null ==> candidate < |items| && result == items[candidate]
      ensures result == null ==> chosen == null && candidate == at
    {
      result, candidate := chosen, at;
      assert View().items[i] == items[i].Now();
      var taken := items[i].IsEligible(chosen, timestamp);
      if taken {
        result, candidate := items[i], i;
      }
    }

    /** The round: every slot once, from behind the pop position up to it. */
    method Round(timestamp: int) returns (result: QueueItem?, candidate: nat)
      requires Valid() && items != []
      ensures Picked(result, candidate) == Chosen(View().items, poppos, timestamp, |items|)
      ensures result != null ==> candidate < |items| && result == items[candidate]
      ensures result == null ==> candidate == 0
    {
      hide Better, Eligible, TurnOf, After, Slot, Chosen;
      result, candidate := null, 0;
      var n := |items|;
      ghost var q := View().items;
      NextTurn(q, poppos, timestamp, 0);
      var i := (poppos + 1) % n;
      ghost var k := 0;
      while true
        invariant k < n && i == Slot(poppos, n, k)
        invariant Picked(result, candidate) == Chosen(q, poppos, timestamp, k)
        invariant result != null ==> candidate < n && result == items[candidate]
        invariant result == null ==> candidate == 0
        decreases n - k
      {
        result, candidate := Consider(i, result, candidate, timestamp);
        NextTurn(q, poppos, timestamp, k);
        EndOfRound(poppos, n, k);
        if i == poppos {
          break;
        }
        i := After(i, n);
        k := k + 1;
      }
    }

    /** An empty queue is the caller's mistake, as the round divides by its size. */
    method FetchItem(timestamp: int) returns (result: QueueItem?)
      requires Valid() && items != []
      modifies this, set i | i in items
      ensures Valid() && items == old(items)
      ensures var r := Fetched(old(View()), timestamp);
        View() == r.0 && (if r.1.None? then result == null else r.1.value < |items| && result == items[r.1.value])
    {
      var candidate: nat;
      ghost var q := View();
      result, candidate := Round(timestamp);
      poppos := candidate;
      if result != null {
        result.CalcNextInvocation(timestamp);
        assert forall k :: 0 <= k < |items| && k != candidate ==> items[k] != result;
        assert View().items == q.items[candidate := Rescheduled(q.items[candidate], timestamp)];
      }
    }

    /** on_item_destroy: the item is erased, the pop position stays where it is. */
    method OnItemDestroy(item: QueueItem)
      requires Valid()
      modifies this`items
      ensures item !in old(items) ==> items == old(items)
      ensures item in old(items) ==>
        exists k :: Erased(old(items), item, k, items) && View() == Dropped(old(View()), k)
      ensures item in old(items) && |old(items)| > 1 ==> (Valid() <==> poppos < |old(items)| - 1)
    {
      var i := 0;
      ghost var k := 0;
      while i < |items|
        invariant items == old(items) ==> i <= |items| && item !in items[..i]
        invariant items != old(items) ==> 0 <= k < |old(items)| && Erased(old(items), item, k, items) && item !in items
        decreases |items| - i
      {
        if items[i] == item {
          k := i;
          items := items[..i] + items[i + 1..];
          assert |items| != |old(items)|;
        }
        i := i + 1;
      }
      if items != old(items) {
        assert View().items == Dropped(old(View()), k).items;
      }
    }
  }

  predicate Erased(before: seq<QueueItem>, item: QueueItem, k: int, items: seq<QueueItem>) {
    0 <= k < |before| && before[k] == item && items == before[..k] + before[k + 1..]
  }

  /**
    Erasing an item in front of the pop position can leave that beyond the queue, and the next round without an end.
   */
  method EraseBehind() returns (queue: WorkQueue)
    ensures |queue.items| == 1 && queue.poppos == 1 && !queue.Valid()
    ensures forall k: nat :: Slot(queue.poppos, 1, k) != queue.poppos
  {
    queue := new WorkQueue();
    var first := new QueueItem(0, 1, 3600, 0);
    var second := new QueueItem(0, 1, 3600, 1);
    queue.PushItem(first);
    queue.PushItem(second);
    assert Best(queue.View().items, 0, 7, 1);
    RoundChoosesBest(queue.View().items, 0, 7);
    var fetched := queue.FetchItem(7);
    queue.OnItemDestroy(first);
    RoundEnds(1, 1);
  }
}
