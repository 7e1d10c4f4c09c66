/**
 The loop over the messages marked for pulsing: it ends, in how many turns, what it sends and what it leaves.
 */
module Tier2Drain {
  import opened Sequences
  import opened MessageStates
  import opened Tier2Protocol
  import opened Tier2Invariants
  import opened Tier2Runs

  /** pulse_marked_messages, the socket writes answering as listed and succeeding after that; with its turn count. */
  ghost function Drain(s: Sys, p: Proc, writes: seq<Write>): (r: (Sys, nat))
    requires p in s.procs
    ensures r.0.procs.Keys == s.procs.Keys && r.0.procs[p].marked == []
    decreases |writes|, |s.procs[p].marked|
  {
    if s.procs[p].marked == [] then (s, 0)
    else
      SentShrinks(s, p);
      var (write, rest) := if writes == [] then (Sent, []) else (writes[0], writes[1..]);
      var (t, n) := Drain(PulseNext(s, p, write), p, rest);
      (t, n + 1)
  }

  lemma DrainTurn(s: Sys, p: Proc, writes: seq<Write>)
    requires p in s.procs
    ensures s.procs[p].marked == [] ==> Drain(s, p, writes) == (s, 0)
    ensures s.procs[p].marked != [] ==>
      var (write, rest) := if writes == [] then (Sent, []) else (writes[0], writes[1..]);
      var d := Drain(PulseNext(s, p, write), p, rest);
      Drain(s, p, writes) == (d.0, d.1 + 1)
  {
    hide PulseNext;
    if s.procs[p].marked != [] {
      var (write, rest) := if writes == [] then (Sent, []) else (writes[0], writes[1..]);
      var t := PulseNext(s, p, write);
      assert Drain(s, p, writes).1 == Drain(t, p, rest).1 + 1;
      assert Drain(s, p, writes).0 == Drain(t, p, rest).0;
    }
  }

  /** The head is bound elsewhere, and its write refused. */
  ghost predicate TurnFails(s: Sys, p: Proc, write: Write)
    requires p in s.procs && s.procs[p].marked != []
  {
    var m := s.procs[p].marked[0];
    s.OwnedBy(m, p) && p != s.msgs[m].Home() && write.Refused?
  }

  /** What pulse_marked_messages answers: whether a turn has failed. */
  ghost predicate DrainFails(s: Sys, p: Proc, writes: seq<Write>)
    requires p in s.procs
    decreases |writes|, |s.procs[p].marked|
  {
    s.procs[p].marked != [] &&
    (SentShrinks(s, p);
     var (write, rest) := if writes == [] then (Sent, []) else (writes[0], writes[1..]);
     TurnFails(s, p, write) || DrainFails(PulseNext(s, p, write), p, rest))
  }

  lemma DrainFailsTurn(s: Sys, p: Proc, writes: seq<Write>)
    requires p in s.procs
    ensures s.procs[p].marked == [] ==> !DrainFails(s, p, writes)
    ensures s.procs[p].marked != [] ==>
      var (write, rest) := if writes == [] then (Sent, []) else (writes[0], writes[1..]);
      DrainFails(s, p, writes) <==> TurnFails(s, p, write) || DrainFails(PulseNext(s, p, write), p, rest)
  {
    hide PulseNext, TurnFails;
  }

  /** The state after the first `k` turns. */
  ghost function AfterTurns(s: Sys, p: Proc, writes: seq<Write>, k: nat): (t: Sys)
    requires p in s.procs
    ensures p in t.procs
    decreases k
  {
    if k == 0 || s.procs[p].marked == [] then s
    else
      var (write, rest) := if writes == [] then (Sent, []) else (writes[0], writes[1..]);
      AfterTurns(PulseNext(s, p, write), p, rest, k - 1)
  }

  function WriteAt(writes: seq<Write>, k: nat): Write {
    if k < |writes| then writes[k] else Sent
  }

  ghost predicate FailsAt(s: Sys, p: Proc, writes: seq<Write>, k: nat)
    requires p in s.procs
  {
    var t := AfterTurns(s, p, writes, k);
    t.procs[p].marked != [] && TurnFails(t, p, WriteAt(writes, k))
  }

  lemma FailsLater(s: Sys, p: Proc, writes: seq<Write>, k: nat)
    requires p in s.procs && s.procs[p].marked != []
    ensures FailsAt(s, p, writes, 0) <==> TurnFails(s, p, WriteAt(writes, 0))
    ensures var (write, rest) := if writes == [] then (Sent, []) else (writes[0], writes[1..]);
      FailsAt(s, p, writes, k + 1) <==> FailsAt(PulseNext(s, p, write), p, rest, k)
  {
    hide PulseNext, TurnFails;
  }

  /** The answer of the drain is a failure exactly if the write of some turn was refused to a head bound elsewhere. */
  lemma {:induction false} DrainFailsIff(s: Sys, p: Proc, writes: seq<Write>)
    requires p in s.procs
    ensures DrainFails(s, p, writes) <==> exists k: nat :: k < Drain(s, p, writes).1 && FailsAt(s, p, writes, k)
    decreases |writes|, |s.procs[p].marked|
  {
    hide PulseNext, TurnFails, Drain, DrainFails, FailsAt;
    DrainTurn(s, p, writes);
    DrainFailsTurn(s, p, writes);
    if s.procs[p].marked != [] {
      var (write, rest) := if writes == [] then (Sent, []) else (writes[0], writes[1..]);
      var t, n := PulseNext(s, p, write), Drain(s, p, writes).1;
      SentShrinks(s, p);
      DrainFailsIff(t, p, rest);
      FailsLater(s, p, writes, 0);
      if exists k: nat :: k < Drain(t, p, rest).1 && FailsAt(t, p, rest, k) {
        var k: nat :| k < Drain(t, p, rest).1 && FailsAt(t, p, rest, k);
        FailsLater(s, p, writes, k);
        assert FailsAt(s, p, writes, k + 1);
      }
      forall k: nat | k < n && FailsAt(s, p, writes, k) ensures DrainFails(s, p, writes) {
        if k > 0 {
          FailsLater(s, p, writes, k - 1);
        }
      }
    }
  }

  lemma SentShrinks(s: Sys, p: Proc)
    requires p in s.procs && s.procs[p].marked != []
    ensures |PulseNext(s, p, Sent).procs[p].marked| < |s.procs[p].marked|
  {
  }

  /** Whatever failed on the way, the drain leaves nothing owned that belongs elsewhere or to destruction. */
  lemma {:induction false} DrainSettles(s: Sys, p: Proc, writes: seq<Write>)
    requires Good(s, {}) && p in s.procs
    requires forall w :: w in writes ==> AssentingWrite(w)
    ensures var t := Drain(s, p, writes).0;
      && Good(t, {})
      && forall m :: t.OwnedBy(m, p) ==> t.msgs[m].Home() == p && t.msgs[m].now != Destruction
    decreases |writes|, |s.procs[p].marked|
  {
    if s.procs[p].marked != [] {
      if writes == [] {
        SentShrinks(s, p);
        PulseNextGood(s, p, Sent, {});
        DrainSettles(PulseNext(s, p, Sent), p, []);
      } else {
        PulseNextGood(s, p, writes[0], {});
        DrainSettles(PulseNext(s, p, writes[0]), p, writes[1..]);
      }
    }
  }

  // ------------------------------------------------------------------ how many turns

  lemma HeadMarked(s: Sys, p: Proc)
    requires Placed(s) && p in s.procs && s.procs[p].marked != []
    ensures var m := s.procs[p].marked[0];
      && s.OwnedBy(m, p) && m in s.procs[p].owned
      && m !in s.procs[p].marked[1..] && m !in Without(s.procs[p].owned, m)
  {
    assert ListsKept(s, p);
    WithoutDistinct(s.procs[p].owned, s.procs[p].marked[0]);
  }

  predicate Inert(glances: Glances) {
    match glances
    case NoMore => true
    case Glance(script, _, rest) => script.End? && Inert(rest)
  }

  lemma {:induction false} InertObserve(s: Sys, p: Proc, busy: set<MsgId>, hs: seq<HandlerId>, glances: Glances)
    requires Running(s, p, busy) && Inert(glances)
    ensures Observe(s, p, busy, hs, glances).0 == s
    ensures Observe(s, p, busy, hs, glances).1 == Answer(hs, glances)
    decreases glances
  {
    if hs != [] && glances.Glance? && glances.verdict == Proceed {
      InertObserve(s, p, busy, hs[1..], glances.rest);
    }
  }

  /** The first answer that is not Proceed, among as many observers as are registered. */
  function Answer(hs: seq<HandlerId>, glances: Glances): Verdict
    decreases glances
  {
    if hs == [] || glances.NoMore? then Proceed
    else if glances.verdict == Proceed then Answer(hs[1..], glances.rest)
    else glances.verdict
  }

  /** Whoever looks on while a refused message is taken back answers, and does nothing else. */
  predicate Quiet(w: Write) {
    w.Refused? ==> Inert(w.runs.first.glances) && w.runs.first.handler.End?
  }

  function Refusals(writes: seq<Write>): nat {
    if writes == [] then 0 else Refusals(writes[1..]) + if writes[0].Refused? then 1 else 0
  }

  /** A refused message is marked again unless its observers object, or fail it where FAILED is handled. */
  predicate GoesBack(msg: Msg, p: Proc, runs: Runs) {
    match Answer(msg.handlers, runs.first.glances)
    case Proceed => true
    case DontChange => false
    case ErrorOccurred => p != msg.requester
  }

  predicate SameBearings(a: Msg, b: Msg) {
    a.Home() == b.Home() && a.requester == b.requester && a.receiver == b.receiver && a.handlers == b.handlers
  }

  lemma QuietTakeOver(s: Sys, p: Proc, m: MsgId, runs: Runs)
    requires p in s.procs && m in s.msgs && p != s.msgs[m].Home() && Quiet(Refused(runs))
    requires p == s.msgs[m].requester || p == s.msgs[m].receiver
    ensures var t, u := Adopt(s, p, m), TakeOver(s, p, m, runs);
      && u.wires == s.wires && u.procs == (if GoesBack(s.msgs[m], p, runs) then Mark(t, p, m) else t).procs
      && m in u.msgs && u.msgs == s.msgs[m := u.msgs[m]]
      && (GoesBack(s.msgs[m], p, runs) ==> SameBearings(s.msgs[m], u.msgs[m]))
      && (Answer(s.msgs[m].handlers, runs.first.glances) == Proceed ==>
            u == Mark(Enter(t, m, s.msgs[m].now), p, m))
  {
    hide Observe, RunHandler, Perform, Mark, Inert;
    var t := Adopt(s, p, m);
    InertObserve(t, p, {} + {m}, t.msgs[m].handlers, runs.first.glances);
    if Answer(s.msgs[m].handlers, runs.first.glances) == DontChange {
      assert TakeOver(s, p, m, runs) == t;
    } else {
      var st := if Answer(s.msgs[m].handlers, runs.first.glances) == ErrorOccurred then Failed else s.msgs[m].now;
      QuietHandle(t, p, m, st, runs.first);
      assert TakeOver(s, p, m, runs) == Handle(Enter(t, m, st), p, {}, m, st, runs.first);
    }
  }

  lemma QuietHandle(t: Sys, p: Proc, m: MsgId, st: State, run: Run)
    requires p in t.procs && t.OwnedBy(m, p) && run.handler.End?
    requires st == Failed || p != if ReceiverSide(st) then t.msgs[m].receiver else t.msgs[m].requester
    ensures var u, v := Enter(t, m, st), Handle(Enter(t, m, st), p, {}, m, st, run);
      && v.wires == t.wires && v.msgs == u.msgs
      && v.procs == (if RunsHere(u.msgs[m], p, st) then t else Mark(t, p, m)).procs
      && (!RunsHere(u.msgs[m], p, st) ==> v == Mark(u, p, m))
  {
    var u := Enter(t, m, st);
    if RunsHere(u.msgs[m], p, st) {
      var began := Note(u, Began(m, st, u.msgs[m].owner, u.msgs[m].requester, u.msgs[m].receiver));
      assert Play(began, p, {} + {m}, run.handler) == began;
    }
  }

  lemma RotatedRecords(s: Sys, p: Proc, m: MsgId)
    requires p in s.procs && m in s.msgs && s.msgs[m].owner == Some(p)
    requires s.procs[p].marked != [] && s.procs[p].marked[0] == m && m !in s.procs[p].marked[1..]
    requires m !in Without(s.procs[p].owned, m)
    ensures var s1 := Unmark(s, p);
      Mark(Enter(Adopt(Limbo(s1, p, m), p, m), m, s.msgs[m].now), p, m) == s.(
        procs := s.procs[p := Processor(Without(s.procs[p].owned, m) + [m], s.procs[p].marked[1..] + [m])],
        msgs := s.msgs[m := s.msgs[m].(prev := Some(s.msgs[m].now))])
  {
    var s1 := Unmark(s, p);
    var t := Mark(Enter(Adopt(Limbo(s1, p, m), p, m), m, s.msgs[m].now), p, m);
    assert t.procs == s.procs[p := t.procs[p]];
    assert t.msgs == s.msgs[m := t.msgs[m]];
  }

  /** A refused message that nobody objects to goes to the back of the owner's lists, and nothing else happens. */
  lemma RefusalRotates(s: Sys, p: Proc, w: Write)
    requires Orderly(s) && p in s.procs && s.procs[p].marked != [] && w.Refused? && Quiet(w)
    requires s.procs[p].marked[0] in s.msgs && p != s.msgs[s.procs[p].marked[0]].Home()
    requires Answer(s.msgs[s.procs[p].marked[0]].handlers, w.runs.first.glances) == Proceed
    ensures var m := s.procs[p].marked[0];
      PulseNext(s, p, w) == s.(
        procs := s.procs[p := Processor(Without(s.procs[p].owned, m) + [m], s.procs[p].marked[1..] + [m])],
        msgs := s.msgs[m := s.msgs[m].(prev := Some(s.msgs[m].now))])
  {
    hide TakeOver, PlacedBut, PulseNext, Orderly;
    var m := s.procs[p].marked[0];
    RefusedHead(s, p, w.runs);
    QuietTakeOver(HeadLimbo(s, p), p, m, w.runs);
    RotatedRecords(s, p, m);
  }

  /** The head of the queue once it is in limbo. */
  ghost function HeadLimbo(s: Sys, p: Proc): Sys
    requires p in s.procs && s.procs[p].marked != [] && s.procs[p].marked[0] in s.msgs
  {
    Limbo(Unmark(s, p), p, s.procs[p].marked[0])
  }

  lemma RefusedHead(s: Sys, p: Proc, runs: Runs)
    requires Orderly(s) && p in s.procs && s.procs[p].marked != []
    requires s.procs[p].marked[0] in s.msgs && p != s.msgs[s.procs[p].marked[0]].Home()
    ensures var m := s.procs[p].marked[0];
      && s.OwnedBy(m, p) && (p == s.msgs[m].requester || p == s.msgs[m].receiver)
      && m !in s.procs[p].marked[1..] && m !in Without(s.procs[p].owned, m)
      && PulseNext(s, p, Refused(runs)) == TakeOver(HeadLimbo(s, p), p, m, runs)
      && HeadLimbo(s, p).wires == s.wires && HeadLimbo(s, p).msgs == s.msgs[m := s.msgs[m].(owner := None)]
      && HeadLimbo(s, p).procs.Keys == s.procs.Keys
      && HeadLimbo(s, p).procs[p].marked == s.procs[p].marked[1..]
  {
    HeadMarked(s, p);
    HeadPlaced(s, s.procs[p].marked[0]);
    hide Orderly;
    RefusedIsTakeOver(s, p, runs);
  }

  lemma HeadPlaced(s: Sys, m: MsgId)
    requires Orderly(s) && m in s.msgs
    ensures s.msgs[m].owner.Some? ==> s.msgs[m].owner.value in {s.msgs[m].requester, s.msgs[m].receiver}
  {
    assert MessagePlaced(s, m);
  }

  lemma RefusedIsTakeOver(s: Sys, p: Proc, runs: Runs)
    requires p in s.procs && s.procs[p].marked != []
    requires s.OwnedBy(s.procs[p].marked[0], p) && p != s.msgs[s.procs[p].marked[0]].Home()
    ensures PulseNext(s, p, Refused(runs)) == TakeOver(HeadLimbo(s, p), p, s.procs[p].marked[0], runs)
  {
  }

  /** A refused message is back in the queue, bound where it was, or off it. */
  function Requeued(s: Sys, p: Proc, m: MsgId, w: Write): seq<MsgId>
    requires m in s.msgs && w.Refused?
  {
    if GoesBack(s.msgs[m], p, w.runs) then [m] else []
  }

  /** In neither case is anybody else touched, or anything sent. */
  lemma RefusedTurn(s: Sys, p: Proc, w: Write)
    requires Orderly(s) && p in s.procs && s.procs[p].marked != [] && w.Refused? && Quiet(w)
    requires s.procs[p].marked[0] in s.msgs && p != s.msgs[s.procs[p].marked[0]].Home()
    ensures var m := s.procs[p].marked[0]; var t := PulseNext(s, p, w);
      && t.wires == s.wires && t.procs[p].marked == s.procs[p].marked[1..] + Requeued(s, p, m, w)
      && m in t.msgs && (forall k :: k in s.msgs && k != m ==> k in t.msgs && t.msgs[k] == s.msgs[k])
      && (GoesBack(s.msgs[m], p, w.runs) ==> SameBearings(s.msgs[m], t.msgs[m]))
  {
    hide TakeOver, PlacedBut, PulseNext, Orderly, HeadLimbo, Quiet, Answer;
    RefusedHead(s, p, w.runs);
    QuietTakeOver(HeadLimbo(s, p), p, s.procs[p].marked[0], w.runs);
  }

  /** How many messages a turn marks that were not marked before. */
  ghost function NewlyMarked(s: Sys, t: Sys, p: Proc): nat
    requires p in s.procs && p in t.procs
  {
    |Elements(t.procs[p].marked) - Elements(s.procs[p].marked)|
  }

  /** How many messages observers mark in the course of a drain, each time a refused message is taken back. */
  ghost function Bystanders(s: Sys, p: Proc, writes: seq<Write>): nat
    requires p in s.procs
    decreases |writes|
  {
    if s.procs[p].marked == [] || writes == [] then 0
    else
      var t := PulseNext(s, p, writes[0]);
      (if writes[0].Refused? then NewlyMarked(s, t, p) else 0) + Bystanders(t, p, writes[1..])
  }

  lemma MarkedGrowth(s: Sys, t: Sys, p: Proc)
    requires p in s.procs && p in t.procs && Distinct(s.procs[p].marked) && Distinct(t.procs[p].marked)
    ensures |t.procs[p].marked| <= |s.procs[p].marked| + NewlyMarked(s, t, p)
  {
    var before, after := Elements(s.procs[p].marked), Elements(t.procs[p].marked);
    DistinctSize(s.procs[p].marked);
    DistinctSize(t.procs[p].marked);
    SubsetSize(after, before + (after - before));
  }

  lemma TurnOrderly(s: Sys, p: Proc, w: Write)
    requires Orderly(s) && p in s.procs && s.procs[p].marked != []
    ensures Orderly(PulseNext(s, p, w))
    ensures Distinct(s.procs[p].marked) && Distinct(PulseNext(s, p, w).procs[p].marked)
  {
    NextOrderly(s, PulseTurn(p, w));
    assert ListsKept(s, p) && ListsKept(PulseNext(s, p, w), p);
  }

  /**
   With k failed writes the loop takes at most |marked| + k turns, and one more for every message that observers
   mark meanwhile; with none, exactly |marked|.
   */
  lemma {:induction false} DrainTurns(s: Sys, p: Proc, writes: seq<Write>)
    requires Orderly(s) && p in s.procs
    ensures Drain(s, p, writes).1 <= |s.procs[p].marked| + Refusals(writes) + Bystanders(s, p, writes)
    ensures Refusals(writes) == 0 ==> Drain(s, p, writes).1 == |s.procs[p].marked|
    decreases |writes|, |s.procs[p].marked|
  {
    hide Orderly;
    if s.procs[p].marked != [] {
      var w := if writes == [] then Sent else writes[0];
      var t := PulseNext(s, p, w);
      TurnOrderly(s, p, w);
      DrainTurn(s, p, writes);
      if w.Sent? {
        SentTakesHead(s, p);
      } else {
        MarkedGrowth(s, t, p);
      }
      hide PulseNext, NewlyMarked, Distinct;
      DrainTurns(t, p, if writes == [] then [] else writes[1..]);
    }
  }

  /** Observers that do nothing mark nothing. */
  lemma {:induction false} QuietBystanders(s: Sys, p: Proc, writes: seq<Write>)
    requires Orderly(s) && p in s.procs && forall w :: w in writes ==> Quiet(w)
    ensures Bystanders(s, p, writes) == 0
    decreases |writes|
  {
    hide Orderly;
    if s.procs[p].marked != [] && writes != [] {
      var t := PulseNext(s, p, writes[0]);
      TurnOrderly(s, p, writes[0]);
      QuietMarks(s, p, writes[0]);
      assert Elements(t.procs[p].marked) - Elements(s.procs[p].marked) == {};
      QuietBystanders(t, p, writes[1..]);
    }
  }

  lemma QuietMarks(s: Sys, p: Proc, w: Write)
    requires Orderly(s) && p in s.procs && s.procs[p].marked != [] && Quiet(w)
    ensures forall m :: m in PulseNext(s, p, w).procs[p].marked ==> m in s.procs[p].marked
  {
    HeadMarked(s, p);
    if w.Refused? && p != s.msgs[s.procs[p].marked[0]].Home() {
      RefusedTurn(s, p, w);
    } else {
      StaysOrGoes(s, p, w);
    }
  }

  /** A head that is at home, or whose write succeeds, just comes off the queue. */
  lemma StaysOrGoes(s: Sys, p: Proc, w: Write)
    requires Orderly(s) && p in s.procs && s.procs[p].marked != []
    requires s.procs[p].marked[0] in s.msgs && (w.Sent? || p == s.msgs[s.procs[p].marked[0]].Home())
    ensures PulseNext(s, p, w) == PulseNext(s, p, Sent)
    ensures PulseNext(s, p, w).procs[p].marked == s.procs[p].marked[1..]
  {
    SentTakesHead(s, p);
  }

  // ------------------------------------------------------------------ what is sent, in what order

  predicate Departs(msg: Msg, p: Proc, q: Proc) {
    p != msg.Home() && q == msg.Home()
  }

  /** The marked messages bound for `q`, in queue order. */
  function Departures(s: Sys, p: Proc, q: Proc, marked: seq<MsgId>): seq<MsgId> {
    if marked == [] then []
    else
      var rest := Departures(s, p, q, marked[1..]);
      if marked[0] in s.msgs && Departs(s.msgs[marked[0]], p, q) then [marked[0]] + rest else rest
  }

  lemma SentPulse(s: Sys, p: Proc, m: MsgId)
    requires p in s.procs && m in s.msgs && m !in s.procs[p].marked
    ensures var t := PulseMessage(s, p, m, Sent);
      && t.procs[p].marked == s.procs[p].marked
      && (forall k :: k != m ==> (k in t.msgs <==> k in s.msgs) && (k in s.msgs ==> t.msgs[k] == s.msgs[k]))
      && (forall q: Proc :: t.Wire(p, q) == s.Wire(p, q) + if Departs(s.msgs[m], p, q) then [m] else [])
  {
  }

  /** A turn whose write succeeds takes the head off the queue, touches no other message and sends at most the head. */
  lemma SentTakesHead(s: Sys, p: Proc)
    requires Orderly(s) && p in s.procs && s.procs[p].marked != []
    ensures var m := s.procs[p].marked[0]; var t := PulseNext(s, p, Sent);
      && m in s.msgs
      && t.procs[p].marked == s.procs[p].marked[1..]
      && (forall k :: k != m ==> (k in t.msgs <==> k in s.msgs) && (k in s.msgs ==> t.msgs[k] == s.msgs[k]))
      && (forall q: Proc :: t.Wire(p, q) == s.Wire(p, q) + if Departs(s.msgs[m], p, q) then [m] else [])
  {
    HeadMarked(s, p);
    hide Orderly, PulseMessage;
    SentPulse(Unmark(s, p), p, s.procs[p].marked[0]);
    assert forall q: Proc :: Unmark(s, p).Wire(p, q) == s.Wire(p, q);
  }

  lemma HeadThenRest<T>(w: seq<T>, x: T, rest: seq<T>)
    ensures w + [x] + rest == w + ([x] + rest) && w + [] + rest == w + rest
  {
  }

  /** A write that keeps a message bound elsewhere from leaving. */
  predicate Refuses(s: Sys, p: Proc, m: MsgId, w: Write) {
    w.Refused? && m in s.msgs && p != s.msgs[m].Home()
  }

  /**
   What a drain sends to `q`: a refused message goes to the back of the queue unless its observers keep it from that,
   any other one leaves it from the front.
   */
  function Sending(s: Sys, p: Proc, q: Proc, marked: seq<MsgId>, writes: seq<Write>): seq<MsgId>
    decreases |writes|, |marked|
  {
    if marked == [] then []
    else
      var m, rest := marked[0], if writes == [] then [] else writes[1..];
      if writes != [] && Refuses(s, p, m, writes[0]) then
        Sending(s, p, q, marked[1..] + Requeued(s, p, m, writes[0]), rest)
      else
        (if m in s.msgs && Departs(s.msgs[m], p, q) then [m] else []) + Sending(s, p, q, marked[1..], rest)
  }

  /** The messages bound for `q` that their observers keep from going there. */
  function Held(s: Sys, p: Proc, q: Proc, marked: seq<MsgId>, writes: seq<Write>): seq<MsgId>
    decreases |writes|, |marked|
  {
    if marked == [] || writes == [] then []
    else if Refuses(s, p, marked[0], writes[0]) then
      var back := Requeued(s, p, marked[0], writes[0]);
      (if back == [] && Departs(s.msgs[marked[0]], p, q) then [marked[0]] else [])
      + Held(s, p, q, marked[1..] + back, writes[1..])
    else Held(s, p, q, marked[1..], writes[1..])
  }

  lemma NothingToSend(s: Sys, p: Proc, q: Proc, writes: seq<Write>)
    ensures Sending(s, p, q, [], writes) == []
  {
  }

  lemma SendingTurn(s: Sys, p: Proc, q: Proc, marked: seq<MsgId>, writes: seq<Write>)
    requires marked != []
    ensures var m := marked[0];
      var (write, rest) := if writes == [] then (Sent, []) else (writes[0], writes[1..]);
      Sending(s, p, q, marked, writes) ==
        if Refuses(s, p, m, write) then Sending(s, p, q, marked[1..] + Requeued(s, p, m, write), rest)
        else (if m in s.msgs && Departs(s.msgs[m], p, q) then [m] else []) + Sending(s, p, q, marked[1..], rest)
  {
  }

  /** Where the queued messages are bound, and who observes them, is all that matters. */
  lemma {:induction false} SendingFrame(s: Sys, t: Sys, p: Proc, q: Proc, marked: seq<MsgId>, writes: seq<Write>)
    requires forall k :: k in marked ==> k in t.msgs && k in s.msgs && SameBearings(s.msgs[k], t.msgs[k])
    ensures Sending(t, p, q, marked, writes) == Sending(s, p, q, marked, writes)
    decreases |writes|, |marked|
  {
    if marked != [] {
      var m, rest := marked[0], if writes == [] then [] else writes[1..];
      if writes != [] && Refuses(s, p, m, writes[0]) {
        SendingFrame(s, t, p, q, marked[1..] + Requeued(s, p, m, writes[0]), rest);
      } else {
        SendingFrame(s, t, p, q, marked[1..], rest);
      }
    }
  }

  /**
   A turn takes the head off the queue, or to its back, and sends what it should; the others are bound where they were.
   */
  lemma TurnSends(s: Sys, p: Proc, q: Proc, w: Write)
    requires Orderly(s) && p in s.procs && s.procs[p].marked != [] && Quiet(w)
    ensures var m := s.procs[p].marked[0]; var t := PulseNext(s, p, w);
      && m in s.msgs
      && (forall k :: k in t.procs[p].marked ==>
            k in s.msgs && k in t.msgs && SameBearings(s.msgs[k], t.msgs[k]))
      && if Refuses(s, p, m, w) then
           && t.procs[p].marked == s.procs[p].marked[1..] + Requeued(s, p, m, w)
           && t.Wire(p, q) == s.Wire(p, q)
         else
           && t.procs[p].marked == s.procs[p].marked[1..]
           && t.Wire(p, q) == s.Wire(p, q) + if Departs(s.msgs[m], p, q) then [m] else []
  {
    hide Orderly, PulseNext, PulseMessage, Departs, Quiet, GoesBack;
    var m := s.procs[p].marked[0];
    MarkedExist(s, p);
    SentTakesHead(s, p);
    if w.Refused? && p != s.msgs[m].Home() {
      RefusedTurn(s, p, w);
    } else {
      StaysOrGoes(s, p, w);
    }
  }

  lemma MarkedExist(s: Sys, p: Proc)
    requires Orderly(s) && p in s.procs
    ensures forall k :: k in s.procs[p].marked ==> k in s.msgs
    ensures s.procs[p].marked != [] ==> s.procs[p].marked[0] !in s.procs[p].marked[1..]
  {
    assert ListsKept(s, p);
  }

  /** Whatever writes fail, the drain appends to every wire exactly what its queue discipline sends there. */
  lemma {:induction false} DrainSends(s: Sys, p: Proc, q: Proc, writes: seq<Write>)
    requires Orderly(s) && p in s.procs && forall w :: w in writes ==> Quiet(w)
    ensures Drain(s, p, writes).0.Wire(p, q) == s.Wire(p, q) + Sending(s, p, q, s.procs[p].marked, writes)
    decreases |writes|, |s.procs[p].marked|
  {
    hide Orderly, Departs, Sending, Drain;
    if s.procs[p].marked == [] {
      DrainTurn(s, p, writes);
      NothingToSend(s, p, q, writes);
    } else {
      var w, rest := if writes == [] then Sent else writes[0], if writes == [] then [] else writes[1..];
      var t := PulseNext(s, p, w);
      TurnOrderly(s, p, w);
      TurnSends(s, p, q, w);
      DrainTurn(s, p, writes);
      hide PulseNext;
      if writes == [] {
        SentTakesHead(s, p);
      }
      DrainSends(t, p, q, rest);
      SendingFrame(s, t, p, q, t.procs[p].marked, rest);
      SendingTurn(s, p, q, s.procs[p].marked, writes);
      HeadThenRest(s.Wire(p, q), s.procs[p].marked[0], Sending(s, p, q, t.procs[p].marked, rest));
    }
  }

  // ---------------------------------------------- everything is sent, in queue order but for the refused

  lemma {:induction false} DeparturesJoin(s: Sys, p: Proc, q: Proc, front: seq<MsgId>, back: seq<MsgId>)
    ensures Departures(s, p, q, front + back) == Departures(s, p, q, front) + Departures(s, p, q, back)
  {
    if front == [] {
      assert front + back == back;
    } else {
      assert (front + back)[1..] == front[1..] + back;
      DeparturesJoin(s, p, q, front[1..], back);
    }
  }

  ghost predicate Permuted(s: Sys, p: Proc, q: Proc, marked: seq<MsgId>, writes: seq<Write>) {
    multiset(Sending(s, p, q, marked, writes)) + multiset(Held(s, p, q, marked, writes))
      == multiset(Departures(s, p, q, marked))
  }

  /** However often writes fail, each message bound for `q` is sent there once or held, and nothing else is. */
  lemma {:induction false} SendingIsPermutation(s: Sys, p: Proc, q: Proc, marked: seq<MsgId>, writes: seq<Write>)
    ensures Permuted(s, p, q, marked, writes)
    decreases |writes|, |marked|
  {
    if marked == [] {
      NothingToSend(s, p, q, writes);
      NothingHeld(s, p, q, writes);
    } else {
      var m, rest := marked[0], if writes == [] then [] else writes[1..];
      hide Permuted;
      if writes != [] && Refuses(s, p, m, writes[0]) {
        SendingIsPermutation(s, p, q, marked[1..] + Requeued(s, p, m, writes[0]), rest);
        if Requeued(s, p, m, writes[0]) == [] {
          assert marked[1..] + [] == marked[1..];
          HeldPermutes(s, p, q, marked, writes);
        } else {
          BackPermutes(s, p, q, marked, writes);
        }
      } else {
        SendingIsPermutation(s, p, q, marked[1..], rest);
        SentPermutes(s, p, q, marked, writes);
      }
    }
  }

  lemma SentPermutes(s: Sys, p: Proc, q: Proc, marked: seq<MsgId>, writes: seq<Write>)
    requires marked != [] && (writes == [] || !Refuses(s, p, marked[0], writes[0]))
    requires Permuted(s, p, q, marked[1..], if writes == [] then [] else writes[1..])
    ensures Permuted(s, p, q, marked, writes)
  {
    hide Sending, Held, Departures, Departs, GoesBack;
    var m, tail, rest := marked[0], marked[1..], if writes == [] then [] else writes[1..];
    DeparturesTurn(s, p, q, marked);
    SendingTurn(s, p, q, marked, writes);
    HeldTurn(s, p, q, marked, writes);
    OneMore(Sending(s, p, q, tail, rest), Held(s, p, q, tail, rest),
      if m in s.msgs && Departs(s.msgs[m], p, q) then [m] else [], Departures(s, p, q, tail));
  }

  lemma HeldPermutes(s: Sys, p: Proc, q: Proc, marked: seq<MsgId>, writes: seq<Write>)
    requires marked != [] && writes != [] && Refuses(s, p, marked[0], writes[0])
    requires Requeued(s, p, marked[0], writes[0]) == [] && Permuted(s, p, q, marked[1..], writes[1..])
    ensures Permuted(s, p, q, marked, writes)
  {
    hide Sending, Held, Departures, Departs, GoesBack, Requeued;
    var m, tail, rest := marked[0], marked[1..], writes[1..];
    DeparturesTurn(s, p, q, marked);
    SendingTurn(s, p, q, marked, writes);
    HeldTurn(s, p, q, marked, writes);
    assert tail + [] == tail;
    OneMore(Sending(s, p, q, tail, rest), Held(s, p, q, tail, rest),
      if m in s.msgs && Departs(s.msgs[m], p, q) then [m] else [], Departures(s, p, q, tail));
  }

  lemma BackPermutes(s: Sys, p: Proc, q: Proc, marked: seq<MsgId>, writes: seq<Write>)
    requires marked != [] && writes != [] && Refuses(s, p, marked[0], writes[0])
    requires Requeued(s, p, marked[0], writes[0]) == [marked[0]]
    requires Permuted(s, p, q, marked[1..] + [marked[0]], writes[1..])
    ensures Permuted(s, p, q, marked, writes)
  {
    hide Sending, Held, Departures, Departs, GoesBack, Requeued, Refuses;
    var m, tail := marked[0], marked[1..];
    DeparturesOne(s, p, q, m);
    DeparturesTurn(s, p, q, marked);
    DeparturesJoin(s, p, q, tail, [m]);
    OneMore([], Departures(s, p, q, tail), Departures(s, p, q, [m]), Departures(s, p, q, tail));
    assert Sending(s, p, q, marked, writes) == Sending(s, p, q, tail + [m], writes[1..]) by {
      SendingTurn(s, p, q, marked, writes);
    }
    assert Held(s, p, q, marked, writes) == Held(s, p, q, tail + [m], writes[1..]) by {
      HeldTurn(s, p, q, marked, writes);
    }
  }

  lemma OneMore(a: seq<MsgId>, b: seq<MsgId>, one: seq<MsgId>, all: seq<MsgId>)
    requires multiset(a) + multiset(b) == multiset(all)
    ensures multiset(one + a) + multiset(b) == multiset(one + all) == multiset(a) + multiset(one + b)
    ensures multiset(all + one) == multiset(one + all)
  {
  }

  lemma NothingHeld(s: Sys, p: Proc, q: Proc, writes: seq<Write>)
    ensures Held(s, p, q, [], writes) == [] == Departures(s, p, q, [])
  {
  }

  lemma HeldTurn(s: Sys, p: Proc, q: Proc, marked: seq<MsgId>, writes: seq<Write>)
    requires marked != []
    ensures var m := marked[0];
      Held(s, p, q, marked, writes) ==
        if writes == [] then []
        else if Refuses(s, p, m, writes[0]) then
          var back := Requeued(s, p, m, writes[0]);
          (if back == [] && Departs(s.msgs[m], p, q) then [m] else []) + Held(s, p, q, marked[1..] + back, writes[1..])
        else Held(s, p, q, marked[1..], writes[1..])
    ensures writes == [] ==> Held(s, p, q, marked[1..], []) == []
  {
  }

  lemma DeparturesTurn(s: Sys, p: Proc, q: Proc, marked: seq<MsgId>)
    requires marked != []
    ensures Departures(s, p, q, marked) ==
      (if marked[0] in s.msgs && Departs(s.msgs[marked[0]], p, q) then [marked[0]] else [])
      + Departures(s, p, q, marked[1..])
  {
  }

  lemma DeparturesOne(s: Sys, p: Proc, q: Proc, m: MsgId)
    ensures Departures(s, p, q, [m]) == if m in s.msgs && Departs(s.msgs[m], p, q) then [m] else []
    ensures Departures(s, p, q, []) == []
  {
  }

  /** The messages refused at least once in the course of the drain. */
  function EverRefused(s: Sys, p: Proc, marked: seq<MsgId>, writes: seq<Write>): set<MsgId>
    decreases |writes|, |marked|
  {
    if marked == [] || writes == [] then {}
    else if Refuses(s, p, marked[0], writes[0]) then
      {marked[0]} + EverRefused(s, p, marked[1..] + Requeued(s, p, marked[0], writes[0]), writes[1..])
    else EverRefused(s, p, marked[1..], writes[1..])
  }

  lemma {:induction false} NeverRefusedIsSent(
    s: Sys, p: Proc, q: Proc, marked: seq<MsgId>, writes: seq<Write>, m: MsgId)
    requires m in marked && m in s.msgs && Departs(s.msgs[m], p, q) && m !in EverRefused(s, p, marked, writes)
    ensures m in Sending(s, p, q, marked, writes)
    decreases |writes|, |marked|
  {
    hide Departs;
    var rest := if writes == [] then [] else writes[1..];
    if writes != [] && Refuses(s, p, marked[0], writes[0]) {
      NeverRefusedIsSent(s, p, q, marked[1..] + Requeued(s, p, marked[0], writes[0]), rest, m);
    } else if marked[0] != m {
      NeverRefusedIsSent(s, p, q, marked[1..], rest, m);
    }
  }

  /** While observers do nothing but answer, a drain fails exactly if a message was refused. */
  lemma {:induction false} DrainFailsIffRefused(s: Sys, p: Proc, writes: seq<Write>)
    requires Orderly(s) && p in s.procs && forall w :: w in writes ==> Quiet(w)
    ensures DrainFails(s, p, writes) <==> EverRefused(s, p, s.procs[p].marked, writes) != {}
    decreases |writes|, |s.procs[p].marked|
  {
    hide Orderly, DrainFails, GoesBack, PulseNext;
    DrainFailsTurn(s, p, writes);
    if s.procs[p].marked != [] {
      var w, rest := if writes == [] then Sent else writes[0], if writes == [] then [] else writes[1..];
      var t := PulseNext(s, p, w);
      TurnOrderly(s, p, w);
      TurnSends(s, p, p, w);
      HeadOwned(s, p);
      if writes == [] {
        SentTakesHead(s, p);
      }
      DrainFailsIffRefused(t, p, rest);
      RefusedFrame(s, t, p, t.procs[p].marked, rest);
    }
  }

  lemma HeadOwned(s: Sys, p: Proc)
    requires Orderly(s) && p in s.procs && s.procs[p].marked != []
    ensures s.OwnedBy(s.procs[p].marked[0], p)
  {
    HeadMarked(s, p);
  }

  lemma {:induction false} RefusedFrame(s: Sys, t: Sys, p: Proc, marked: seq<MsgId>, writes: seq<Write>)
    requires forall k :: k in marked ==> k in t.msgs && k in s.msgs && SameBearings(s.msgs[k], t.msgs[k])
    ensures EverRefused(t, p, marked, writes) == EverRefused(s, p, marked, writes)
    decreases |writes|, |marked|
  {
    if marked != [] && writes != [] {
      if Refuses(s, p, marked[0], writes[0]) {
        RefusedFrame(s, t, p, marked[1..] + Requeued(s, p, marked[0], writes[0]), writes[1..]);
      } else {
        RefusedFrame(s, t, p, marked[1..], writes[1..]);
      }
    }
  }

  /** Two messages bound for `q` that are never refused leave in the order in which they were queued. */
  lemma {:induction false} SendingKeepsOrder(
    s: Sys, p: Proc, q: Proc, marked: seq<MsgId>, writes: seq<Write>, x: MsgId, y: MsgId)
    requires Precedes(marked, x, y)
    requires x in s.msgs && Departs(s.msgs[x], p, q) && y in s.msgs && Departs(s.msgs[y], p, q)
    requires x !in EverRefused(s, p, marked, writes) && y !in EverRefused(s, p, marked, writes)
    ensures Precedes(Sending(s, p, q, marked, writes), x, y)
    decreases |writes|, |marked|
  {
    hide Departs, Departures, Precedes, Sending;
    TailKeepsOrder(marked, x, y);
    var m, rest := marked[0], if writes == [] then [] else writes[1..];
    SendingTurn(s, p, q, marked, writes);
    if writes != [] && Refuses(s, p, m, writes[0]) {
      var back := Requeued(s, p, m, writes[0]);
      ExtendKeepsOrder(marked[1..], marked[1..] + back, x, y);
      SendingKeepsOrder(s, p, q, marked[1..] + back, rest, x, y);
    } else if m == x {
      NeverRefusedIsSent(s, p, q, marked[1..], rest, y);
      HeadThenOrder(x, Sending(s, p, q, marked[1..], rest), y);
    } else {
      SendingKeepsOrder(s, p, q, marked[1..], rest, x, y);
      PrefixKeepsOrder(if m in s.msgs && Departs(s.msgs[m], p, q) then [m] else [],
        Sending(s, p, q, marked[1..], rest), x, y);
    }
  }

  lemma HeadThenOrder(x: MsgId, more: seq<MsgId>, y: MsgId)
    requires y in more
    ensures Precedes([x] + more, x, y)
  {
    var k :| 0 <= k < |more| && more[k] == y;
    assert ([x] + more)[0] == x && ([x] + more)[k + 1] == y;
  }

  lemma PrefixKeepsOrder(front: seq<MsgId>, q: seq<MsgId>, x: MsgId, y: MsgId)
    requires Precedes(q, x, y)
    ensures Precedes(front + q, x, y)
  {
    var i, j :| 0 <= i < j < |q| && q[i] == x && q[j] == y;
    assert (front + q)[|front| + i] == x && (front + q)[|front| + j] == y;
  }

  /** Bound for `q` and not held up. */
  predicate Punctual(s: Sys, p: Proc, q: Proc, m: MsgId, late: set<MsgId>) {
    m in s.msgs && Departs(s.msgs[m], p, q) && m !in late
  }

  /**
   With any number of failed writes, a drain appends to each wire all the messages bound there, each once, but for
   those refused that their observers hold back, and those never refused in queue order.
   */
  lemma DrainSendsInOrder(s: Sys, p: Proc, q: Proc, writes: seq<Write>)
    requires Orderly(s) && p in s.procs && forall w :: w in writes ==> Quiet(w)
    ensures var marked, late := s.procs[p].marked, EverRefused(s, p, s.procs[p].marked, writes);
      var sent := Sending(s, p, q, marked, writes);
      && Drain(s, p, writes).0.Wire(p, q) == s.Wire(p, q) + sent
      && multiset(sent) + multiset(Held(s, p, q, marked, writes)) == multiset(Departures(s, p, q, marked))
      && (forall x, y :: Precedes(marked, x, y) && Punctual(s, p, q, x, late) && Punctual(s, p, q, y, late) ==>
            Precedes(sent, x, y))
      && (late == {} ==> sent == Departures(s, p, q, marked))
  {
    var marked, late := s.procs[p].marked, EverRefused(s, p, s.procs[p].marked, writes);
    DrainSends(s, p, q, writes);
    SendingIsPermutation(s, p, q, marked, writes);
    hide Orderly, Precedes, Departs;
    forall x, y | Precedes(marked, x, y) && Punctual(s, p, q, x, late) && Punctual(s, p, q, y, late)
      ensures Precedes(Sending(s, p, q, marked, writes), x, y)
    {
      SendingKeepsOrder(s, p, q, marked, writes, x, y);
    }
    if late == {} {
      NoneRefused(s, p, q, marked, writes);
    }
  }

  lemma {:induction false} NoneRefused(s: Sys, p: Proc, q: Proc, marked: seq<MsgId>, writes: seq<Write>)
    requires EverRefused(s, p, marked, writes) == {}
    ensures Sending(s, p, q, marked, writes) == Departures(s, p, q, marked)
    decreases |marked|
  {
    if marked != [] {
      NoneRefused(s, p, q, marked[1..], if writes == [] then [] else writes[1..]);
    }
  }

  // ------------------------------------------------------------------ when a message can be stranded

  predicate Stranded(s: Sys, p: Proc, m: MsgId)
    requires p in s.procs
  {
    s.OwnedBy(m, p) && Restless(s.msgs[m], p) && m !in s.procs[p].marked
  }

  lemma GoodNotStranded(s: Sys, p: Proc, m: MsgId)
    requires Good(s, {}) && p in s.procs
    ensures !Stranded(s, p, m)
  {
  }

  lemma HeadLimboPlaced(s: Sys, p: Proc)
    requires Good(s, {}) && p in s.procs && s.procs[p].marked != []
    ensures var m := s.procs[p].marked[0];
      && m in s.msgs && (p == s.msgs[m].requester || p == s.msgs[m].receiver)
      && PlacedBut(HeadLimbo(s, p), m) && Fed(HeadLimbo(s, p), {}) && SidesKept(HeadLimbo(s, p))
  {
    var m := s.procs[p].marked[0];
    HeadMarked(s, p);
    assert MessagePlaced(s, m);
    UnmarkGood(s, p, {});
    LimboPlacedBut(Unmark(s, p), p, m, {});
  }

  lemma HeadLimboRecord(s: Sys, p: Proc)
    requires Placed(s) && p in s.procs && s.procs[p].marked != [] && s.procs[p].marked[0] in s.msgs
    ensures var m := s.procs[p].marked[0];
      && HeadLimbo(s, p).msgs == s.msgs[m := s.msgs[m].(owner := None)]
      && HeadLimbo(s, p).procs.Keys == s.procs.Keys
      && HeadLimbo(s, p).procs[p].marked == s.procs[p].marked[1..]
  {
    HeadMarked(s, p);
  }

  lemma VetoStrands(s: Sys, p: Proc, m: MsgId, runs: Runs)
    requires p in s.procs && m in s.msgs && s.msgs[m].owner == None && m !in s.procs[p].marked
    requires p != s.msgs[m].Home() && Inert(runs.first.glances)
    requires Answer(s.msgs[m].handlers, runs.first.glances) == DontChange
    ensures Stranded(TakeOver(s, p, m, runs), p, m)
  {
    var t := Adopt(s, p, m);
    InertObserve(t, p, {} + {m}, s.msgs[m].handlers, runs.first.glances);
    assert TakeOver(s, p, m, runs) == t;
  }

  lemma AssentFeeds(s: Sys, p: Proc, m: MsgId, runs: Runs)
    requires PlacedBut(s, m) && Fed(s, {}) && SidesKept(s)
    requires p in s.procs && (p == s.msgs[m].requester || p == s.msgs[m].receiver) && Inert(runs.first.glances)
    requires Answer(s.msgs[m].handlers, runs.first.glances) != DontChange
    ensures !Stranded(TakeOver(s, p, m, runs), p, m)
  {
    assert m in s.msgs;
    hide Good, PlacedBut, Fed, SidesKept, Evolves, TakeOver, Stranded;
    InertObserve(Adopt(s, p, m), p, {} + {m}, s.msgs[m].handlers, runs.first.glances);
    TakeOverGood(s, p, m, runs, {});
    GoodNotStranded(TakeOver(s, p, m, runs), p, m);
  }

  /** A message taken back after a failed write is stranded exactly when an observer answers DontChange. */
  lemma RefusalStrandsIffVetoed(s: Sys, p: Proc, runs: Runs)
    requires Good(s, {}) && p in s.procs && s.procs[p].marked != [] && Inert(runs.first.glances)
    requires s.procs[p].marked[0] in s.msgs && p != s.msgs[s.procs[p].marked[0]].Home()
    ensures var m := s.procs[p].marked[0];
      Stranded(PulseNext(s, p, Refused(runs)), p, m) <==>
        Answer(s.msgs[m].handlers, runs.first.glances) == DontChange
  {
    var m := s.procs[p].marked[0];
    HeadMarked(s, p);
    HeadLimboPlaced(s, p);
    HeadLimboRecord(s, p);
    RefusedIsTakeOver(s, p, runs);
    hide Good, PlacedBut, Fed, SidesKept, TakeOver, PulseNext, Stranded, HeadLimbo;
    if Answer(s.msgs[m].handlers, runs.first.glances) != DontChange {
      AssentFeeds(HeadLimbo(s, p), p, m, runs);
    } else {
      VetoStrands(HeadLimbo(s, p), p, m, runs);
    }
  }

  lemma HomeComingGood(s: Sys, a: Proc, b: Proc, runs: Runs)
    requires Good(s, {}) && Arrives(s, a, b) && s.msgs[s.Wire(a, b)[0]].now != Destruction
    ensures Good(Pop(s, a, b, runs), {})
  {
    PopGood(s, a, b, runs, {});
  }

  lemma DestructionVetoed(s: Sys, p: Proc, m: MsgId, runs: Runs)
    requires p in s.procs && m in s.msgs && s.msgs[m].owner == None && m !in s.procs[p].marked
    requires s.msgs[m].now == Destruction && Inert(runs.first.glances)
    requires Answer(s.msgs[m].handlers, runs.first.glances) == DontChange
    ensures Stranded(TakeOver(s, p, m, runs), p, m)
  {
    var t := Adopt(s, p, m);
    InertObserve(t, p, {} + {m}, s.msgs[m].handlers, runs.first.glances);
    assert TakeOver(s, p, m, runs) == t;
  }

  /** A message delivered is stranded exactly when it comes to be destroyed and an observer answers DontChange. */
  lemma DeliveryStrandsIffVetoed(s: Sys, a: Proc, b: Proc, runs: Runs)
    requires Good(s, {}) && Arrives(s, a, b) && Inert(runs.first.glances)
    ensures var m := s.Wire(a, b)[0];
      Stranded(Pop(s, a, b, runs), b, m) <==>
        s.msgs[m].now == Destruction && Answer(s.msgs[m].handlers, runs.first.glances) == DontChange
  {
    var m := s.Wire(a, b)[0];
    var t := s.(wires := s.wires[(a, b) := s.Wire(a, b)[1..]]);
    DequeuePlacedBut(s, a, b, {});
    assert m !in s.procs[b].marked by {
      assert ListsKept(s, b) && WireKept(s, a, b);
    }
    hide Good, PlacedBut, Fed, SidesKept, TakeOver, Stranded;
    if s.msgs[m].now != Destruction {
      HomeComingGood(s, a, b, runs);
      GoodNotStranded(Pop(s, a, b, runs), b, m);
    } else if Answer(s.msgs[m].handlers, runs.first.glances) != DontChange {
      AssentFeeds(t, b, m, runs);
    } else {
      DestructionVetoed(t, b, m, runs);
    }
  }
}
