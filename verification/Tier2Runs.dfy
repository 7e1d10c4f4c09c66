/**
 Whole runs: threads, pulses and deliveries in any interleaving, with writes that may fail.
 */
module Tier2Runs {
  import opened Sequences
  import opened MessageStates
  import opened Tier2Protocol
  import opened Tier2Invariants

  datatype Step =
    | Thread(p: Proc, script: Script)                // code of thread p runs
    | PulseTurn(p: Proc, write: Write)               // one turn of the loop over the marked messages
    | PulseDirect(p: Proc, m: MsgId, write: Write)   // pulse() called on an owned message
    | Deliver(a: Proc, b: Proc, runs: Runs)          // thread b pops the wire from a

  ghost function Next(s: Sys, step: Step): (t: Sys)
    ensures t.procs.Keys == s.procs.Keys
  {
    match step
    case Thread(p, script) => if p in s.procs then Play(s, p, {}, script) else s
    case PulseTurn(p, write) => if p in s.procs && s.procs[p].marked != [] then PulseNext(s, p, write) else s
    case PulseDirect(p, m, write) => if p in s.procs && s.OwnedBy(m, p) then PulseMessage(s, p, m, write) else s
    case Deliver(a, b, runs) =>
      if Arrives(s, a, b) then Pop(s, a, b, runs) else s
  }

  ghost function After(s: Sys, steps: seq<Step>): Sys
    decreases |steps|
  {
    if steps == [] then s else After(Next(s, steps[0]), steps[1..])
  }

  function Start(procs: set<Proc>): Sys {
    Sys(map[], map p | p in procs :: Processor([], []), map[], [])
  }

  /** Observers that do not object when a message re-enters the state it is in. */
  predicate Assenting(glances: Glances) {
    match glances
    case NoMore => true
    case Glance(_, verdict, rest) => verdict != DontChange && Assenting(rest)
  }

  predicate AssentingWrite(write: Write) {
    write.Refused? ==> Assenting(write.runs.first.glances)
  }

  /** The head of a wire, if it is there to be delivered. */
  predicate Arrives(s: Sys, a: Proc, b: Proc) {
    b in s.procs && s.Wire(a, b) != [] && s.Wire(a, b)[0] in s.msgs
  }

  /**
    Only a message that re-enters a state to be handled elsewhere, or that is about to be destroyed, depends on its
    observers.
   */
  predicate AssentingStep(s: Sys, step: Step) {
    match step
    case Thread(_, _) => true
    case PulseTurn(_, write) => AssentingWrite(write)
    case PulseDirect(_, _, write) => AssentingWrite(write)
    case Deliver(a, b, runs) =>
      Arrives(s, a, b) && s.msgs[s.Wire(a, b)[0]].now == Destruction ==> Assenting(runs.first.glances)
  }

  ghost predicate AssentingRun(s: Sys, steps: seq<Step>)
    decreases |steps|
  {
    steps == [] || (AssentingStep(s, steps[0]) && AssentingRun(Next(s, steps[0]), steps[1..]))
  }

  // ------------------------------------------------------------------ crossing threads keeps the invariant

  lemma {:induction false} AssentingNeverVetoes(s: Sys, p: Proc, busy: set<MsgId>, hs: seq<HandlerId>, glances: Glances)
    requires Running(s, p, busy) && Assenting(glances)
    ensures Observe(s, p, busy, hs, glances).1 != DontChange
    decreases glances
  {
    if hs != [] && glances.Glance? && glances.verdict == Proceed {
      AssentingNeverVetoes(Play(s, p, busy, glances.script), p, busy, hs[1..], glances.rest);
    }
  }

  /** Everything is placed but `m`, which is in nobody's list and on no wire. */
  ghost predicate PlacedBut(s: Sys, m: MsgId) {
    && m in s.msgs && s.msgs[m].owner == None
    && s.msgs[m].requester in s.procs && s.msgs[m].receiver in s.procs
    && (forall k :: k in s.msgs && k != m ==> MessagePlaced(s, k))
    && (forall p :: p in s.procs ==> ListsKept(s, p))
    && (forall a: Proc, b: Proc :: WireKept(s, a, b) && m !in s.Wire(a, b))
  }

  function Adopt(s: Sys, p: Proc, m: MsgId): Sys
    requires p in s.procs && m in s.msgs
  {
    Put(Own(s, p, m), m, s.msgs[m].(owner := Some(p)))
  }

  /** What the observers answer when a message re-enters its state with its new owner. */
  ghost function Reconsider(s: Sys, p: Proc, m: MsgId, runs: Runs): Verdict
    requires p in s.procs && m in s.msgs
  {
    Observe(Adopt(s, p, m), p, {} + {m}, s.msgs[m].handlers, runs.first.glances).1
  }

  lemma AdoptGood(s: Sys, p: Proc, m: MsgId, except: set<MsgId>)
    requires PlacedBut(s, m) && Fed(s, except) && SidesKept(s)
    requires p in s.procs && (p == s.msgs[m].requester || p == s.msgs[m].receiver)
    ensures Good(Adopt(s, p, m), except + {m})
  {
    var t := Adopt(s, p, m);
    assert ListsKept(s, p);
    WithDistinct(s.procs[p].owned, m);
    forall k | k in t.msgs ensures MessagePlaced(t, k) {
      if k != m {
        assert MessagePlaced(s, k);
      }
    }
    forall q | q in t.procs ensures ListsKept(t, q) {
      assert ListsKept(s, q);
    }
    forall a: Proc, b: Proc ensures WireKept(t, a, b) {
      assert WireKept(s, a, b);
    }
    forall q, k | q in t.procs && k !in except + {m} && t.OwnedBy(k, q) && Restless(t.msgs[k], q)
      ensures k in t.procs[q].marked
    {
      assert s.OwnedBy(k, q);
    }
  }

  lemma ExecSettles(s: Sys, p: Proc, m: MsgId, to: State, run: Run, except: set<MsgId>)
    requires Running(s, p, {}) && s.OwnedBy(m, p) && Good(s, except + {m})
    requires Observe(s, p, {} + {m}, s.msgs[m].handlers, run.glances).1 != DontChange
    ensures Good(Exec(s, p, {}, m, to, run).0, except)
  {
    hide Good, Evolves;
    var hs := s.msgs[m].handlers;
    var (s1, verdict) := Observe(s, p, {} + {m}, hs, run.glances);
    ObserveGood(s, p, {} + {m}, hs, run.glances, except + {m});
    EnterAndHandleGood(s1, p, {}, m, if verdict == ErrorOccurred then Failed else to, run, except);
  }

  lemma TakeOverGood(s: Sys, p: Proc, m: MsgId, runs: Runs, except: set<MsgId>)
    requires PlacedBut(s, m) && Fed(s, except) && SidesKept(s)
    requires p in s.procs && (p == s.msgs[m].requester || p == s.msgs[m].receiver)
    ensures Good(TakeOver(s, p, m, runs), except + {m})
    ensures Reconsider(s, p, m, runs) != DontChange ==> Good(TakeOver(s, p, m, runs), except)
    ensures Assenting(runs.first.glances) ==> Good(TakeOver(s, p, m, runs), except)
    ensures p == s.msgs[m].Home() && s.msgs[m].now != Destruction ==> Good(TakeOver(s, p, m, runs), except)
    ensures Evolves(Adopt(s, p, m), TakeOver(s, p, m, runs), p)
  {
    AdoptGood(s, p, m, except);
    hide Good, Evolves, Fed, PlacedBut, SidesKept;
    var s1 := Adopt(s, p, m);
    var (s2, to) := Exec(s1, p, {}, m, s1.msgs[m].now, runs.first);
    ExecGood(s1, p, {}, m, s1.msgs[m].now, runs.first, except + {m});
    if to != s2.msgs[m].now {
      ExecGood(s2, p, {}, m, to, runs.second, except + {m});
      EvolvesTransitive(s1, s2, Exec(s2, p, {}, m, to, runs.second).0, p);
    }
    if Assenting(runs.first.glances) {
      AssentingNeverVetoes(s1, p, {} + {m}, s1.msgs[m].handlers, runs.first.glances);
    }
    if Reconsider(s, p, m, runs) != DontChange {
      ExecSettles(s1, p, m, s1.msgs[m].now, runs.first, except);
      if to != s2.msgs[m].now {
        ExecGood(s2, p, {}, m, to, runs.second, except);
      }
    }
    if p == s.msgs[m].Home() && s.msgs[m].now != Destruction {
      FedSettled(s1, p, except, m);
      ExecGood(s1, p, {}, m, s1.msgs[m].now, runs.first, except);
      if to != s2.msgs[m].now {
        ExecGood(s2, p, {}, m, to, runs.second, except);
      }
    }
  }

  function Limbo(s: Sys, p: Proc, m: MsgId): Sys
    requires p in s.procs && m in s.msgs
  {
    Put(Release(s, p, m), m, s.msgs[m].(owner := None))
  }

  lemma LimboPlacedBut(s: Sys, p: Proc, m: MsgId, except: set<MsgId>)
    requires Good(s, except + {m}) && p in s.procs && s.OwnedBy(m, p)
    ensures PlacedBut(Limbo(s, p, m), m) && Fed(Limbo(s, p, m), except) && SidesKept(Limbo(s, p, m))
  {
    hide Fed, ListsKept, SideKept;
    var t := Limbo(s, p, m);
    assert MessagePlaced(s, m);
    LimboLists(s, p, m);
    forall a: Proc, b: Proc ensures WireKept(t, a, b) && m !in t.Wire(a, b) {
      assert WireKept(s, a, b);
    }
    LimboFed(s, p, m, except);
  }

  lemma LimboLists(s: Sys, p: Proc, m: MsgId)
    requires Placed(s) && p in s.procs && s.OwnedBy(m, p)
    ensures var t := Limbo(s, p, m);
      && (forall q :: q in t.procs ==> ListsKept(t, q))
      && (forall k :: k in t.msgs && k != m ==> MessagePlaced(t, k))
  {
    hide WireKept;
    var t := Limbo(s, p, m);
    assert ListsKept(s, p);
    WithoutDistinct(s.procs[p].owned, m);
    WithoutDistinct(s.procs[p].marked, m);
    forall k | k in t.msgs && k != m ensures MessagePlaced(t, k) {
      assert MessagePlaced(s, k);
    }
    forall q | q in t.procs ensures ListsKept(t, q) {
      assert ListsKept(s, q);
    }
  }

  lemma LimboFed(s: Sys, p: Proc, m: MsgId, except: set<MsgId>)
    requires Fed(s, except + {m}) && p in s.procs && s.OwnedBy(m, p)
    ensures Fed(Limbo(s, p, m), except)
  {
    var t := Limbo(s, p, m);
    forall q, k | q in t.procs && k !in except && t.OwnedBy(k, q) && Restless(t.msgs[k], q)
      ensures k in t.procs[q].marked
    {
      assert s.OwnedBy(k, q);
    }
  }

  lemma WiresWithOneMore(s: Sys, p: Proc, q: Proc, m: MsgId)
    requires PlacedBut(s, m) && p == s.msgs[m].Away() && q == s.msgs[m].Home() && p != q
    ensures var t := s.(wires := s.wires[(p, q) := s.Wire(p, q) + [m]]);
      forall a: Proc, b: Proc :: WireKept(t, a, b)
  {
    hide MessagePlaced, ListsKept;
    var t := s.(wires := s.wires[(p, q) := s.Wire(p, q) + [m]]);
    forall a: Proc, b: Proc ensures WireKept(t, a, b) {
      assert WireKept(s, a, b) && m !in s.Wire(a, b);
    }
  }

  lemma SendGood(s: Sys, p: Proc, q: Proc, m: MsgId, except: set<MsgId>)
    requires PlacedBut(s, m) && Fed(s, except) && SidesKept(s)
    requires p == s.msgs[m].Away() && q == s.msgs[m].Home() && p != q
    ensures Good(s.(wires := s.wires[(p, q) := s.Wire(p, q) + [m]]), except)
  {
    hide ReceiverSide, SideKept, Fed, ListsKept, WireKept;
    var t := s.(wires := s.wires[(p, q) := s.Wire(p, q) + [m]]);
    forall k | k in t.msgs ensures MessagePlaced(t, k) {
      assert k != m ==> MessagePlaced(s, k);
    }
    SameLists(s, t);
    WiresWithOneMore(s, p, q, m);
    FedElsewhere(s, t, except);
  }

  /** What is on the wires does not matter to the lists, nor to who is marked. */
  lemma SameLists(s: Sys, t: Sys)
    requires t.msgs == s.msgs && t.procs == s.procs && forall r :: r in s.procs ==> ListsKept(s, r)
    ensures forall r :: r in t.procs ==> ListsKept(t, r)
  {
    forall r | r in t.procs ensures ListsKept(t, r) {
      assert ListsKept(s, r);
    }
  }

  lemma FedElsewhere(s: Sys, t: Sys, except: set<MsgId>)
    requires Fed(s, except) && t.msgs == s.msgs && t.procs == s.procs
    ensures Fed(t, except)
  {
    forall r, k | r in t.procs && k !in except && t.OwnedBy(k, r) && Restless(t.msgs[k], r)
      ensures k in t.procs[r].marked
    {
      assert s.OwnedBy(k, r);
    }
  }

  lemma PulseMessageGood(s: Sys, p: Proc, m: MsgId, write: Write, except: set<MsgId>)
    requires Good(s, except + {m}) && p in s.procs && s.OwnedBy(m, p)
    ensures Good(PulseMessage(s, p, m, write), except + {m})
    ensures AssentingWrite(write) ==> Good(PulseMessage(s, p, m, write), except)
  {
    hide ListsKept, Release;
    assert MessagePlaced(s, m);
    var msg := s.msgs[m];
    var t := PulseMessage(s, p, m, write);
    if msg.now == Destruction && p == msg.requester {
      DeleteGood(s, p, m, except);
      assert except + {m} + {m} == except + {m};
      DeleteGood(s, p, m, except + {m});
    } else if p != msg.Home() {
      LimboPlacedBut(s, p, m, except);
      if write.Sent? {
        SendGood(Limbo(s, p, m), p, msg.Home(), m, except);
        FedMore(t, except, m);
      } else {
        TakeOverGood(Limbo(s, p, m), p, m, write.runs, except);
      }
    } else {
      FedSettled(s, p, except, m);
    }
  }

  lemma UnmarkGood(s: Sys, p: Proc, except: set<MsgId>)
    requires Good(s, except) && p in s.procs && s.procs[p].marked != []
    ensures var m := s.procs[p].marked[0];
      && s.OwnedBy(m, p)
      && Good(Unmark(s, p), except + {m})
  {
    hide Restless, SideKept, ReceiverSide, WireKept;
    var m := s.procs[p].marked[0];
    var t := Unmark(s, p);
    assert ListsKept(s, p);
    assert ListsKept(t, p);
    forall k | t.OwnedBy(k, p) ensures MessagePlaced(t, k) {
      assert MessagePlaced(s, k);
    }
    hide ListsKept, MessagePlaced;
    ConfinedPlaced(s, t, p);
    ConfinedFed(s, t, p, except, except + {m});
  }

  lemma PulseNextGood(s: Sys, p: Proc, write: Write, except: set<MsgId>)
    requires Good(s, except) && p in s.procs && s.procs[p].marked != []
    ensures Good(PulseNext(s, p, write), except + {s.procs[p].marked[0]})
    ensures AssentingWrite(write) ==> Good(PulseNext(s, p, write), except)
  {
    UnmarkGood(s, p, except);
    hide Good;
    var m := s.procs[p].marked[0];
    PulseMessageGood(Unmark(s, p), p, m, write, except);
  }

  lemma DequeuePlacedBut(s: Sys, a: Proc, b: Proc, except: set<MsgId>)
    requires Good(s, except) && s.Wire(a, b) != []
    ensures var m := s.Wire(a, b)[0]; var t := s.(wires := s.wires[(a, b) := s.Wire(a, b)[1..]]);
      PlacedBut(t, m) && Fed(t, except) && SidesKept(t) && b == t.msgs[m].Home() && b in t.procs
  {
    hide Fed, ListsKept, SideKept;
    var m := s.Wire(a, b)[0];
    var t := s.(wires := s.wires[(a, b) := s.Wire(a, b)[1..]]);
    assert WireKept(s, a, b);
    assert MessagePlaced(s, m);
    forall k | k in t.msgs && k != m ensures MessagePlaced(t, k) {
      assert MessagePlaced(s, k);
      if k in s.Wire(a, b) {
        assert k in s.Wire(a, b)[1..];
      }
    }
    SameLists(s, t);
    forall c, d ensures WireKept(t, c, d) && m !in t.Wire(c, d) {
      assert WireKept(s, c, d);
    }
    FedElsewhere(s, t, except);
  }

  lemma PopGood(s: Sys, a: Proc, b: Proc, runs: Runs, except: set<MsgId>)
    requires Good(s, except) && Arrives(s, a, b)
    ensures Good(Pop(s, a, b, runs), except + {s.Wire(a, b)[0]})
    ensures AssentingStep(s, Deliver(a, b, runs)) ==> Good(Pop(s, a, b, runs), except)
  {
    hide Good, PlacedBut, Fed, SidesKept, Evolves, TakeOver, Reconsider;
    DequeuePlacedBut(s, a, b, except);
    var m := s.Wire(a, b)[0];
    TakeOverGood(s.(wires := s.wires[(a, b) := s.Wire(a, b)[1..]]), b, m, runs, except);
  }

  // ------------------------------------------------------------------ every step, every run

  lemma NextGood(s: Sys, step: Step)
    requires Good(s, {}) && AssentingStep(s, step)
    ensures Good(Next(s, step), {})
  {
    hide Good, Evolves;
    match step
    case Thread(p, script) =>
      if p in s.procs {
        PlayGood(s, p, {}, script, {});
      }
    case PulseTurn(p, write) =>
      if p in s.procs && s.procs[p].marked != [] {
        PulseNextGood(s, p, write, {});
      }
    case PulseDirect(p, m, write) =>
      if p in s.procs && s.OwnedBy(m, p) {
        FedMore(s, {}, m);
        PulseMessageGood(s, p, m, write, {});
      }
    case Deliver(a, b, runs) =>
      if Arrives(s, a, b) {
        PopGood(s, a, b, runs, {});
      }
  }

  /** Placement and side discipline need no assumption on observers at all. */
  ghost predicate Orderly(s: Sys) {
    Placed(s) && SidesKept(s)
  }

  lemma OrderlyIsGood(s: Sys)
    requires Orderly(s)
    ensures Good(s, s.msgs.Keys)
  {
  }

  lemma NextOrderly(s: Sys, step: Step)
    requires Orderly(s)
    ensures Orderly(Next(s, step))
  {
    hide Good, Evolves, Orderly, TakeOver, PulseMessage;
    OrderlyIsGood(s);
    var x, t := s.msgs.Keys, Next(s, step);
    match step
    case Thread(p, script) =>
      if p in s.procs {
        PlayGood(s, p, {}, script, x);
        GoodIsOrderly(t, x);
      }
    case PulseTurn(p, write) =>
      if p in s.procs && s.procs[p].marked != [] {
        PulseNextGood(s, p, write, x);
        GoodIsOrderly(t, x + {s.procs[p].marked[0]});
      }
    case PulseDirect(p, m, write) =>
      if p in s.procs && s.OwnedBy(m, p) {
        FedMore(s, x, m);
        PulseMessageGood(s, p, m, write, x);
        GoodIsOrderly(t, x + {m});
      }
    case Deliver(a, b, runs) =>
      if Arrives(s, a, b) {
        PopGood(s, a, b, runs, x);
        GoodIsOrderly(t, x + {s.Wire(a, b)[0]});
      }
  }

  lemma GoodIsOrderly(s: Sys, except: set<MsgId>)
    requires Good(s, except)
    ensures Orderly(s)
  {
  }

  lemma {:induction false} AfterOrderly(s: Sys, steps: seq<Step>)
    requires Orderly(s)
    ensures Orderly(After(s, steps))
    decreases |steps|
  {
    if steps != [] {
      NextOrderly(s, steps[0]);
      AfterOrderly(Next(s, steps[0]), steps[1..]);
    }
  }

  lemma {:induction false} AfterGood(s: Sys, steps: seq<Step>)
    requires Good(s, {}) && AssentingRun(s, steps)
    ensures Good(After(s, steps), {})
    decreases |steps|
  {
    if steps != [] {
      NextGood(s, steps[0]);
      AfterGood(Next(s, steps[0]), steps[1..]);
    }
  }

  lemma StartGood(procs: set<Proc>)
    ensures Good(Start(procs), {})
  {
    var s := Start(procs);
    forall p | p in s.procs ensures ListsKept(s, p) {
    }
  }

  // ------------------------------------------------------------------ main results

  ghost predicate OwnedOnce(s: Sys, m: MsgId, p: Proc) {
    && p in s.procs
    && multiset(s.procs[p].owned)[m] == 1
    && (forall q :: q in s.procs && q != p ==> m !in s.procs[q].owned && m !in s.procs[q].marked)
    && (forall a: Proc, b: Proc :: m !in s.Wire(a, b))
  }

  ghost predicate TravelsOnce(s: Sys, m: MsgId, a: Proc, b: Proc) {
    && a != b
    && multiset(s.Wire(a, b))[m] == 1
    && (forall c: Proc, d: Proc :: m in s.Wire(c, d) ==> (c, d) == (a, b))
    && (forall q :: q in s.procs ==> m !in s.procs[q].owned && m !in s.procs[q].marked)
  }

  lemma {:induction false} DistinctOnce<T(!new)>(q: seq<T>, x: T)
    requires Distinct(q) && x in q
    ensures multiset(q)[x] == 1
  {
    var k := FirstIndex(q, x);
    assert q == q[..k] + [q[k]] + q[k + 1..];
    assert x !in q[k + 1..];
  }

  /** At every moment of every run a live message is in one place: with its owner, or on the wire home. */
  lemma OnePlace(procs: set<Proc>, steps: seq<Step>, m: MsgId)
    requires m in After(Start(procs), steps).msgs
    ensures var s := After(Start(procs), steps);
      match s.msgs[m].owner
      case Some(p) => OwnedOnce(s, m, p) && p in {s.msgs[m].requester, s.msgs[m].receiver}
      case None =>
        && TravelsOnce(s, m, s.msgs[m].Away(), s.msgs[m].Home())
        && {s.msgs[m].Away(), s.msgs[m].Home()} == {s.msgs[m].requester, s.msgs[m].receiver}
  {
    var s := After(Start(procs), steps);
    StartGood(procs);
    AfterOrderly(Start(procs), steps);
    assert MessagePlaced(s, m);
    assert forall q :: q in s.procs ==> ListsKept(s, q);
    forall c: Proc, d: Proc | m in s.Wire(c, d)
      ensures s.msgs[m].owner == None && (c, d) == (s.msgs[m].Away(), s.msgs[m].Home())
    {
      assert WireKept(s, c, d);
    }
    if s.msgs[m].owner.Some? {
      DistinctOnce(s.procs[s.msgs[m].owner.value].owned, m);
    } else {
      assert WireKept(s, s.msgs[m].Away(), s.msgs[m].Home());
      DistinctOnce(s.Wire(s.msgs[m].Away(), s.msgs[m].Home()), m);
    }
  }

  /** Nothing keeps the address of a message that has been destroyed. */
  lemma NothingDangles(procs: set<Proc>, steps: seq<Step>, m: MsgId)
    requires m !in After(Start(procs), steps).msgs
    ensures var s := After(Start(procs), steps);
      && (forall q :: q in s.procs ==> m !in s.procs[q].owned && m !in s.procs[q].marked)
      && (forall a: Proc, b: Proc :: m !in s.Wire(a, b))
  {
    var s := After(Start(procs), steps);
    StartGood(procs);
    AfterOrderly(Start(procs), steps);
    assert forall q :: q in s.procs ==> ListsKept(s, q);
    forall a: Proc, b: Proc ensures m !in s.Wire(a, b) {
      assert WireKept(s, a, b);
    }
  }

  /** Handlers run and messages are destroyed on the proper side only, in every run. */
  lemma SidesDisciplined(procs: set<Proc>, steps: seq<Step>, e: Event)
    requires e in After(Start(procs), steps).log
    ensures SideKept(e)
  {
    StartGood(procs);
    AfterOrderly(Start(procs), steps);
  }

  /** A message that belongs elsewhere, or to destruction, is always marked for pulsing. */
  lemma NothingStranded(procs: set<Proc>, steps: seq<Step>, p: Proc, m: MsgId)
    requires AssentingRun(Start(procs), steps)
    requires p in After(Start(procs), steps).procs && After(Start(procs), steps).OwnedBy(m, p)
    requires Restless(After(Start(procs), steps).msgs[m], p)
    ensures m in After(Start(procs), steps).procs[p].marked
  {
    StartGood(procs);
    AfterGood(Start(procs), steps);
  }
}
