/**
 The race between a request and its cancel, both sent from `a` to `b`: the cancel never overtakes.
 */
module Tier2CancelRace {
  import opened Sequences
  import opened MessageStates
  import opened Tier2Protocol
  import opened Tier2Invariants
  import opened Tier2Runs

  datatype Race = Race(a: Proc, b: Proc, target: MsgId, cancel: MsgId)

  /** Still at the requester's, on its way to the receiver. */
  predicate Outbound(s: Sys, r: Race, m: MsgId) {
    && s.OwnedBy(m, r.a) && ReceiverSide(s.msgs[m].now) && r.a in s.procs
    && s.msgs[m].requester == r.a && s.msgs[m].receiver == r.b
  }

  /** As long as it lives, the message goes between the two. */
  predicate Between(s: Sys, r: Race, m: MsgId) {
    m in s.msgs ==> s.msgs[m].requester == r.a && s.msgs[m].receiver == r.b
  }

  /** Called back before it was sent: it stays with its requester for good. */
  predicate Recalled(s: Sys, r: Race) {
    r.cancel in s.msgs ==> s.OwnedBy(r.cancel, r.a) && !Outbound(s, r, r.cancel)
  }

  /**
    The target is ahead of the cancel on the way to `b`, or has already arrived there, or the cancel was called back.
   */
  ghost predicate Ahead(s: Sys, r: Race) {
    && r.target != r.cancel && r.a != r.b && Between(s, r, r.target) && Between(s, r, r.cancel)
    && if Outbound(s, r, r.cancel) then
         Outbound(s, r, r.target) ==> Precedes(s.procs[r.a].marked, r.target, r.cancel)
       else
         || Recalled(s, r)
         || (&& !Outbound(s, r, r.target)
             && (r.target in s.Wire(r.a, r.b) ==> Precedes(s.Wire(r.a, r.b), r.target, r.cancel)))
  }

  /** Neither message is sent a second time, nor its address reused. */
  predicate Undisturbed(s: Sys, t: Sys, r: Race) {
    forall m :: m in {r.target, r.cancel} ==>
      && (Outbound(t, r, m) ==> Outbound(s, r, m))
      && (m in t.msgs ==> m in s.msgs)
  }

  /** The cancel is not to be sent while the target is still waiting. */
  predicate InTurn(s: Sys, r: Race, m: MsgId) {
    m == r.cancel && Outbound(s, r, r.cancel) ==> !Outbound(s, r, r.target)
  }

  /** The requester's writes of the two succeed, and it does not pulse the cancel out of turn. */
  predicate Reliable(s: Sys, step: Step, r: Race) {
    match step
    case Thread(_, _) => true
    case PulseTurn(p, write) =>
      p == r.a && p in s.procs && s.procs[p].marked != [] && s.procs[p].marked[0] in {r.target, r.cancel} ==>
         write.Sent?
    case PulseDirect(p, m, write) =>
      p == r.a && m in {r.target, r.cancel} ==> write.Sent? && InTurn(s, r, m)
    case Deliver(_, _, _) => true
  }

  // ------------------------------------------------------------------ one step

  /** As `Evolves`, but for `m`, and saying nothing of the wires. */
  ghost predicate EvolvesBut(s: Sys, t: Sys, p: Proc, m: MsgId) {
    && p in s.procs && t.procs.Keys == s.procs.Keys
    && (forall q :: q in s.procs && q != p ==> t.procs[q] == s.procs[q])
    && (forall k :: k != m && k in s.msgs && s.msgs[k].owner != Some(p) ==> k in t.msgs && t.msgs[k] == s.msgs[k])
    && (forall k :: k != m && Bound(s, p, k) ==>
          Bound(t, p, k) && t.msgs[k].requester == s.msgs[k].requester && t.msgs[k].receiver == s.msgs[k].receiver)
    && (forall x, y :: x != m && y != m && Bound(s, p, x) && Bound(s, p, y) && Precedes(s.procs[p].marked, x, y) ==>
          Precedes(t.procs[p].marked, x, y))
  }

  lemma EvolvesIsEvolvesBut(s: Sys, t: Sys, p: Proc, m: MsgId)
    requires Evolves(s, t, p)
    ensures EvolvesBut(s, t, p, m)
  {
    hide Precedes;
  }

  lemma EvolvesButThenEvolves(s: Sys, t: Sys, u: Sys, p: Proc, m: MsgId)
    requires EvolvesBut(s, t, p, m) && Evolves(t, u, p)
    ensures EvolvesBut(s, u, p, m)
  {
    hide Precedes;
  }

  lemma AdoptEvolvesBut(s: Sys, p: Proc, m: MsgId)
    requires p in s.procs && m in s.msgs && s.msgs[m].owner == None
    ensures EvolvesBut(s, Adopt(s, p, m), p, m)
  {
    hide Precedes;
  }

  lemma LimboEvolvesBut(s: Sys, p: Proc, m: MsgId)
    requires p in s.procs && s.OwnedBy(m, p) && Distinct(s.procs[p].marked)
    ensures EvolvesBut(s, Limbo(s, p, m), p, m)
  {
    hide Precedes, Distinct;
    forall x, y | x != m && y != m && Precedes(s.procs[p].marked, x, y)
      ensures Precedes(Limbo(s, p, m).procs[p].marked, x, y)
    {
      WithoutKeepsOrder(s.procs[p].marked, m, x, y);
    }
  }

  lemma DeleteEvolvesBut(s: Sys, p: Proc, m: MsgId)
    requires p in s.procs && s.OwnedBy(m, p) && Distinct(s.procs[p].marked)
    ensures EvolvesBut(s, Delete(s, p, m), p, m)
  {
    hide Precedes, Distinct;
    forall x, y | x != m && y != m && Precedes(s.procs[p].marked, x, y)
      ensures Precedes(Delete(s, p, m).procs[p].marked, x, y)
    {
      WithoutKeepsOrder(s.procs[p].marked, m, x, y);
    }
  }

  /** What a pulse of `m` by its owner does to everything else, and to `m` itself when the write succeeds. */
  ghost predicate PulseEffect(s: Sys, t: Sys, p: Proc, m: MsgId, write: Write)
    requires m in s.msgs
  {
    var msg := s.msgs[m];
    && EvolvesBut(s, t, p, m)
    && (forall a: Proc, b: Proc :: t.Wire(a, b) ==
          s.Wire(a, b) + if write.Sent? && p != msg.Home() && (a, b) == (p, msg.Home()) then [m] else [])
    && (m in t.msgs ==> t.msgs[m].requester == msg.requester && t.msgs[m].receiver == msg.receiver)
    && (write.Sent? && m in t.msgs ==> t.msgs[m] == if p != msg.Home() then msg.(owner := None) else msg)
  }

  lemma EvolvesButCompose(s: Sys, t: Sys, u: Sys, p: Proc, m: MsgId)
    requires EvolvesBut(s, t, p, m) && EvolvesBut(t, u, p, m)
    ensures EvolvesBut(s, u, p, m)
  {
    hide Precedes;
  }

  lemma EvolvesEndpoints(s: Sys, t: Sys, p: Proc, m: MsgId)
    requires Evolves(s, t, p) && Bound(s, p, m)
    ensures m in t.msgs && t.msgs[m].requester == s.msgs[m].requester && t.msgs[m].receiver == s.msgs[m].receiver
    ensures forall a: Proc, b: Proc :: t.Wire(a, b) == s.Wire(a, b)
  {
  }

  lemma RefusedEffect(s: Sys, p: Proc, m: MsgId, runs: Runs, except: set<MsgId>)
    requires PlacedBut(s, m) && Fed(s, except) && SidesKept(s)
    requires p in s.procs && p == s.msgs[m].Away() && p != s.msgs[m].Home()
    ensures var t := TakeOver(s, p, m, runs);
      && EvolvesBut(s, t, p, m)
      && (m in t.msgs ==> t.msgs[m].requester == s.msgs[m].requester && t.msgs[m].receiver == s.msgs[m].receiver)
      && (forall a: Proc, b: Proc :: t.Wire(a, b) == s.Wire(a, b))
  {
    hide Evolves, Good, Fed, SidesKept, EvolvesBut, TakeOver;
    var t := TakeOver(s, p, m, runs);
    var u := Adopt(s, p, m);
    AdoptEvolvesBut(s, p, m);
    TakeOverGood(s, p, m, runs, except);
    EvolvesButThenEvolves(s, u, t, p, m);
    EvolvesEndpoints(u, t, p, m);
  }

  lemma SentEffect(s: Sys, p: Proc, m: MsgId)
    requires p in s.procs && s.OwnedBy(m, p) && Distinct(s.procs[p].marked) && p != s.msgs[m].Home()
    ensures PulseEffect(s, PulseMessage(s, p, m, Sent), p, m, Sent)
  {
    LimboEvolvesBut(s, p, m);
    hide Precedes, Distinct;
    var limbo := Limbo(s, p, m);
    assert PulseMessage(s, p, m, Sent) ==
      limbo.(wires := limbo.wires[(p, s.msgs[m].Home()) := limbo.Wire(p, s.msgs[m].Home()) + [m]]);
  }

  lemma StayEffect(s: Sys, p: Proc, m: MsgId, write: Write)
    requires p in s.procs && s.OwnedBy(m, p) && Distinct(s.procs[p].marked) && p == s.msgs[m].Home()
    ensures PulseEffect(s, PulseMessage(s, p, m, write), p, m, write)
  {
    EvolvesRefl(s, p);
    EvolvesIsEvolvesBut(s, s, p, m);
    DeleteEvolvesBut(s, p, m);
    hide Precedes, Distinct, Evolves;
  }

  lemma RefusedPulse(s: Sys, p: Proc, m: MsgId, runs: Runs)
    requires p in s.procs && s.OwnedBy(m, p) && p != s.msgs[m].Home()
    ensures PulseMessage(s, p, m, Refused(runs)) == TakeOver(Limbo(s, p, m), p, m, runs)
  {
  }

  lemma InLimbo(s: Sys, p: Proc, m: MsgId)
    requires p in s.procs && m in s.msgs
    ensures var t := Limbo(s, p, m); m in t.msgs && t.msgs[m] == s.msgs[m].(owner := None) && t.wires == s.wires
  {
  }

  lemma RefusedPulseEffect(s: Sys, p: Proc, m: MsgId, runs: Runs, except: set<MsgId>)
    requires p in s.procs && s.OwnedBy(m, p) && Distinct(s.procs[p].marked)
    requires p == s.msgs[m].Away() && p != s.msgs[m].Home()
    requires PlacedBut(Limbo(s, p, m), m) && Fed(Limbo(s, p, m), except) && SidesKept(Limbo(s, p, m))
    ensures PulseEffect(s, PulseMessage(s, p, m, Refused(runs)), p, m, Refused(runs))
  {
    hide EvolvesBut, PlacedBut, Fed, SidesKept, TakeOver, Distinct, PulseMessage, Limbo;
    LimboEvolvesBut(s, p, m);
    RefusedPulse(s, p, m, runs);
    var limbo := Limbo(s, p, m);
    assert limbo.msgs[m] == s.msgs[m].(owner := None) && limbo.wires == s.wires by { InLimbo(s, p, m); }
    RefusedEffect(limbo, p, m, runs, except);
    EvolvesButCompose(s, limbo, TakeOver(limbo, p, m, runs), p, m);
  }

  lemma PulseMessageEffect(s: Sys, p: Proc, m: MsgId, write: Write, except: set<MsgId>)
    requires Good(s, except + {m}) && p in s.procs && s.OwnedBy(m, p)
    ensures PulseEffect(s, PulseMessage(s, p, m, write), p, m, write)
  {
    assert ListsKept(s, p) && MessagePlaced(s, m);
    assert p == s.msgs[m].Home() || p == s.msgs[m].Away();
    LimboPlacedBut(s, p, m, except);
    hide PulseEffect, Good, PlacedBut, Fed, SidesKept, MessagePlaced;
    match write
    case Sent =>
      if p == s.msgs[m].Home() {
        StayEffect(s, p, m, write);
      } else {
        SentEffect(s, p, m);
      }
    case Refused(runs) =>
      if p == s.msgs[m].Home() {
        StayEffect(s, p, m, write);
      } else {
        RefusedPulseEffect(s, p, m, runs, except);
      }
  }

  /** What popping the head `m` of the wire from `x` to `y` does. */
  ghost predicate PopEffect(s: Sys, t: Sys, x: Proc, y: Proc, m: MsgId)
    requires m in s.msgs && s.Wire(x, y) != []
  {
    && EvolvesBut(s, t, y, m)
    && (forall a: Proc, b: Proc :: t.Wire(a, b) == if (a, b) == (x, y) then s.Wire(x, y)[1..] else s.Wire(a, b))
    && (m in t.msgs ==> t.msgs[m].requester == s.msgs[m].requester && t.msgs[m].receiver == s.msgs[m].receiver)
  }

  lemma TakeOverEffect(s: Sys, p: Proc, m: MsgId, runs: Runs, except: set<MsgId>)
    requires PlacedBut(s, m) && Fed(s, except) && SidesKept(s)
    requires p in s.procs && p == s.msgs[m].Home() && s.msgs[m].requester != s.msgs[m].receiver
    ensures var t := TakeOver(s, p, m, runs);
      && Evolves(Adopt(s, p, m), t, p)
      && m in t.msgs && t.msgs[m].requester == s.msgs[m].requester && t.msgs[m].receiver == s.msgs[m].receiver
      && (forall a: Proc, b: Proc :: t.Wire(a, b) == s.Wire(a, b))
  {
    hide Evolves, Good, Fed, SidesKept, TakeOver;
    TakeOverGood(s, p, m, runs, except);
    EvolvesEndpoints(Adopt(s, p, m), TakeOver(s, p, m, runs), p, m);
  }

  lemma HeadInFlight(s: Sys, x: Proc, y: Proc, except: set<MsgId>)
    requires Good(s, except) && s.Wire(x, y) != []
    ensures var m := s.Wire(x, y)[0];
      m in s.msgs && s.msgs[m].owner == None && y == s.msgs[m].Home() && s.msgs[m].requester != s.msgs[m].receiver
  {
    assert WireKept(s, x, y);
  }

  lemma DeliverEffect(s: Sys, x: Proc, y: Proc, runs: Runs, except: set<MsgId>)
    requires Good(s, except) && s.Wire(x, y) != [] && y in s.procs && s.Wire(x, y)[0] in s.msgs
    ensures PopEffect(s, Pop(s, x, y, runs), x, y, s.Wire(x, y)[0])
  {
    hide Evolves, Good, Fed, SidesKept, TakeOver, PlacedBut, EvolvesBut;
    var m := s.Wire(x, y)[0];
    HeadInFlight(s, x, y, except);
    DequeuePlacedBut(s, x, y, except);
    var s1 := s.(wires := s.wires[(x, y) := s.Wire(x, y)[1..]]);
    TakeOverEffect(s1, y, m, runs, except);
    PopEvolvesBut(s, s1, TakeOver(s1, y, m, runs), y, m);
  }

  lemma PopEvolvesBut(s: Sys, s1: Sys, t: Sys, p: Proc, m: MsgId)
    requires p in s.procs && m in s.msgs && s.msgs[m].owner == None
    requires s1.msgs == s.msgs && s1.procs == s.procs && Evolves(Adopt(s1, p, m), t, p)
    ensures EvolvesBut(s, t, p, m)
  {
    AdoptEvolvesBut(s, p, m);
    assert EvolvesBut(s, Adopt(s1, p, m), p, m) by {
      hide Precedes;
      assert Adopt(s1, p, m).procs == Adopt(s, p, m).procs && Adopt(s1, p, m).msgs == Adopt(s, p, m).msgs;
    }
    hide EvolvesBut, Evolves;
    EvolvesButThenEvolves(s, Adopt(s1, p, m), t, p, m);
  }

  // ------------------------------------------------------------------ the cancel stays behind

  /** A step that leaves the requester's list, what it owns of the two, and the wire alone. */
  lemma ElsewhereKeepsAhead(s: Sys, t: Sys, r: Race)
    requires Ahead(s, r) && Undisturbed(s, t, r)
    requires r.a in s.procs && r.a in t.procs && t.procs[r.a] == s.procs[r.a] && t.Wire(r.a, r.b) == s.Wire(r.a, r.b)
    requires forall m :: m in {r.target, r.cancel} && s.OwnedBy(m, r.a) ==> m in t.msgs && t.msgs[m] == s.msgs[m]
    requires Between(t, r, r.target) && Between(t, r, r.cancel)
    ensures Ahead(t, r)
  {
    hide Precedes;
  }

  lemma ThreadKeepsAhead(s: Sys, t: Sys, p: Proc, r: Race)
    requires Evolves(s, t, p) && Ahead(s, r) && Undisturbed(s, t, r) && r.a in s.procs
    ensures Ahead(t, r)
  {
    hide Precedes;
    assert Recalled(s, r) ==> Recalled(t, r) by {
      assert r.cancel in s.msgs && p == r.a ==> Bound(s, p, r.cancel) || s.msgs[r.cancel].owner != Some(p);
    }
    forall m | m in {r.target, r.cancel} && m in t.msgs ensures Between(t, r, m) {
      if s.msgs[m].owner == Some(p) {
        assert Bound(s, p, m);
      }
    }
    assert t.Wire(r.a, r.b) == s.Wire(r.a, r.b);
    if p != r.a {
      ElsewhereKeepsAhead(s, t, r);
    } else {
      assert Outbound(s, r, r.cancel) ==> Bound(s, p, r.cancel) && Bound(t, p, r.cancel);
      assert Outbound(s, r, r.target) ==> Bound(s, p, r.target);
    }
  }

  /** Another message moves: it leaves the requester's list or reaches it, is appended to the wire, or is its head. */
  lemma OtherKeepsAhead(s: Sys, t: Sys, p: Proc, m: MsgId, r: Race)
    requires EvolvesBut(s, t, p, m) && Ahead(s, r) && Undisturbed(s, t, r) && r.a in s.procs
    requires m != r.target && m != r.cancel
    requires var w := s.Wire(r.a, r.b); var w' := t.Wire(r.a, r.b);
      w' == w || w' == w + [m] || (w != [] && w[0] == m && w' == w[1..])
    ensures Ahead(t, r)
  {
    forall k | k in {r.target, r.cancel} && k in t.msgs ensures Between(t, r, k) {
      if s.msgs[k].owner == Some(p) {
        assert Bound(s, p, k);
      }
    }
    assert Outbound(s, r, r.cancel) && p == r.a ==> Bound(s, p, r.cancel) && Bound(t, p, r.cancel);
    assert Outbound(s, r, r.target) && p == r.a ==> Bound(s, p, r.target);
    var w, w' := s.Wire(r.a, r.b), t.Wire(r.a, r.b);
    if Precedes(w, r.target, r.cancel) {
      assert Precedes(w', r.target, r.cancel) by {
        if w' == w + [m] {
          ExtendKeepsOrder(w, w', r.target, r.cancel);
        } else if w' != w {
          TailKeepsOrder(w, r.target, r.cancel);
        }
      }
    }
    hide Precedes;
    assert r.target in w' ==> r.target in w;
  }

  /** A pulse of one of the two, at the requester's, with a write that succeeds. */
  lemma OwnPulseKeepsAhead(s: Sys, t: Sys, m: MsgId, r: Race)
    requires s.OwnedBy(m, r.a) && r.a in s.procs && PulseEffect(s, t, r.a, m, Sent)
    requires Ahead(s, r) && Undisturbed(s, t, r) && m in {r.target, r.cancel}
    requires InTurn(s, r, m)
    ensures Ahead(t, r)
  {
    var w, w' := s.Wire(r.a, r.b), t.Wire(r.a, r.b);
    forall k | k in {r.target, r.cancel} && k in t.msgs ensures Between(t, r, k) {
      if k != m && s.msgs[k].owner == Some(r.a) {
        assert Bound(s, r.a, k);
      }
    }
    var other := if m == r.cancel then r.target else r.cancel;
    assert Outbound(s, r, other) ==> Bound(s, r.a, other) && Bound(t, r.a, other);
    if m == r.cancel && Recalled(s, r) {
      assert Recalled(t, r) && !Outbound(t, r, r.cancel);
      return;
    }
    assert m == r.target && Recalled(s, r) ==> Recalled(t, r);
    assert !Outbound(t, r, r.target);
    assert Outbound(s, r, m) ==> w' == w + [m] && !t.OwnedBy(m, r.a);
    assert !Outbound(s, r, m) ==> w' == w;
    if m == r.cancel && Outbound(s, r, m) && r.target in w {
      var i :| 0 <= i < |w| && w[i] == r.target;
      assert w'[i] == r.target && w'[|w|] == r.cancel;
      assert Precedes(w', r.target, r.cancel);
    }
  }

  /** Delivery of one of the two. */
  lemma OwnDeliveryKeepsAhead(s: Sys, t: Sys, x: Proc, y: Proc, m: MsgId, r: Race)
    requires Ahead(s, r) && Undisturbed(s, t, r) && m in {r.target, r.cancel} && r.a in s.procs
    requires WireKept(s, x, y) && s.Wire(x, y) != [] && s.Wire(x, y)[0] == m && m in s.msgs
    requires PopEffect(s, t, x, y, m)
    ensures Ahead(t, r)
  {
    var w, w' := s.Wire(r.a, r.b), t.Wire(r.a, r.b);
    forall k | k in {r.target, r.cancel} && k in t.msgs ensures Between(t, r, k) {
      if k != m && s.msgs[k].owner == Some(y) {
        assert Bound(s, y, k);
      }
    }
    assert !Outbound(s, r, m) && !Outbound(t, r, m);
    assert Outbound(s, r, r.cancel) && y == r.a ==> Bound(s, y, r.cancel) && Bound(t, y, r.cancel);
    assert !Outbound(t, r, r.target);
    if (x, y) == (r.a, r.b) {
      if r.target in w' {
        assert r.target in w;
        HeadIsFirst(w, r.target, r.cancel);
        TailKeepsOrder(w, r.target, r.cancel);
      }
    }
  }

  lemma HeadIsFirst<T(!new)>(q: seq<T>, x: T, y: T)
    requires Distinct(q) && q != [] && x in q[1..]
    ensures q[0] != x && (Precedes(q, x, y) ==> q[0] != y)
  {
    var k :| 0 <= k < |q[1..]| && q[1..][k] == x;
    assert q[k + 1] == x;
  }

  lemma PulseKeepsAhead(s1: Sys, p: Proc, m: MsgId, write: Write, r: Race, except: set<MsgId>)
    requires p in s1.procs && s1.OwnedBy(m, p) && Good(s1, except + {m}) && Ahead(s1, r) && r.a in s1.procs
    requires Undisturbed(s1, PulseMessage(s1, p, m, write), r)
    requires p == r.a && m in {r.target, r.cancel} ==> write.Sent? && InTurn(s1, r, m)
    ensures Ahead(PulseMessage(s1, p, m, write), r)
  {
    hide Good, PulseMessage, Precedes;
    var t := PulseMessage(s1, p, m, write);
    PulseMessageEffect(s1, p, m, write, except);
    if m !in {r.target, r.cancel} {
      OtherKeepsAhead(s1, t, p, m, r);
    } else if p == r.a {
      OwnPulseKeepsAhead(s1, t, m, r);
    } else {
      forall k | k in {r.target, r.cancel} && k in t.msgs ensures Between(t, r, k) {
        if k != m && s1.msgs[k].owner == Some(p) {
          assert Bound(s1, p, k);
        }
      }
      ElsewhereKeepsAhead(s1, t, r);
    }
  }

  /**
    Taking the head off the marked list before it is pulsed: unless it is the target, it is not ahead of the cancel.
   */
  lemma UnmarkKeepsAhead(s: Sys, s1: Sys, p: Proc, r: Race)
    requires p in s.procs && s.procs[p].marked != []
    requires s1 == Unmark(s, p)
    requires Ahead(s, r) && (p == r.a && s.procs[p].marked[0] == r.target ==> !Outbound(s, r, r.target))
    ensures Ahead(s1, r)
  {
    if p == r.a && Precedes(s.procs[p].marked, r.target, r.cancel) && s.procs[p].marked[0] != r.target {
      TailKeepsOrder(s.procs[p].marked, r.target, r.cancel);
    }
    assert s1.Wire(r.a, r.b) == s.Wire(r.a, r.b);
    hide Precedes;
  }

  /** The target itself is at the head and sent: it reaches the wire, or stays home, ahead of the cancel. */
  lemma TargetLeavesFirst(s: Sys, s1: Sys, r: Race, except: set<MsgId>)
    requires r.a in s.procs && s.procs[r.a].marked != [] && s.procs[r.a].marked[0] == r.target
    requires s1 == Unmark(s, r.a)
    requires Ahead(s, r) && s1.OwnedBy(r.target, r.a) && Good(s1, except + {r.target}) && Outbound(s, r, r.target)
    requires Undisturbed(s1, PulseMessage(s1, r.a, r.target, Sent), r)
    ensures Ahead(PulseMessage(s1, r.a, r.target, Sent), r)
  {
    var t := PulseMessage(s1, r.a, r.target, Sent);
    PulseMessageEffect(s1, r.a, r.target, Sent, except);
    hide Good, PulseMessage, Precedes;
    TargetSent(s1, t, r);
  }

  lemma TargetSent(s: Sys, t: Sys, r: Race)
    requires r.a in s.procs && s.OwnedBy(r.target, r.a) && PulseEffect(s, t, r.a, r.target, Sent)
    requires r.target != r.cancel && r.a != r.b && Between(s, r, r.target) && Between(s, r, r.cancel)
    requires Outbound(s, r, r.target) && (Outbound(s, r, r.cancel) || Recalled(s, r)) && Undisturbed(s, t, r)
    ensures Ahead(t, r)
  {
    hide Precedes;
    forall k | k in {r.target, r.cancel} && k in t.msgs ensures Between(t, r, k) {
      if k == r.cancel && s.msgs[k].owner == Some(r.a) {
        assert Bound(s, r.a, k);
      }
    }
    assert !t.OwnedBy(r.target, r.a);
    assert Outbound(s, r, r.cancel) ==> Bound(s, r.a, r.cancel) && Bound(t, r.a, r.cancel);
    assert Recalled(s, r) && r.cancel in s.msgs ==> Bound(s, r.a, r.cancel);
  }

  lemma NoneBeforeHead<T(!new)>(q: seq<T>, x: T, y: T)
    requires Distinct(q) && q != [] && q[0] == y
    ensures !Precedes(q, x, y)
  {
  }

  lemma TurnIsPulse(s: Sys, p: Proc, write: Write, except: set<MsgId>)
    requires Good(s, except) && p in s.procs && s.procs[p].marked != []
    ensures var m := s.procs[p].marked[0];
      && Unmark(s, p).OwnedBy(m, p) && Good(Unmark(s, p), except + {m})
      && PulseNext(s, p, write) == PulseMessage(Unmark(s, p), p, m, write)
  {
    UnmarkGood(s, p, except);
    hide Good, PulseMessage;
  }

  lemma UnmarkInTurn(s: Sys, p: Proc, r: Race, m: MsgId)
    requires p in s.procs && s.procs[p].marked != [] && InTurn(s, r, m)
    ensures InTurn(Unmark(s, p), r, m)
  {
  }

  lemma UnmarkUndisturbed(s: Sys, p: Proc, t: Sys, r: Race)
    requires p in s.procs && s.procs[p].marked != [] && Undisturbed(s, t, r)
    ensures Undisturbed(Unmark(s, p), t, r)
    ensures forall k :: Outbound(Unmark(s, p), r, k) == Outbound(s, r, k)
  {
  }

  /** The cancel is never at the head of the queue while the target is still to be sent. */
  lemma CancelAtHead(s: Sys, r: Race)
    requires r.a in s.procs && ListsKept(s, r.a) && Ahead(s, r)
    requires s.procs[r.a].marked != [] && s.procs[r.a].marked[0] == r.cancel
    ensures InTurn(s, r, r.cancel)
  {
    NoneBeforeHead(s.procs[r.a].marked, r.target, r.cancel);
    hide Precedes;
  }

  lemma TurnKeepsAhead(s: Sys, p: Proc, write: Write, r: Race, except: set<MsgId>)
    requires Good(s, except) && Ahead(s, r) && r.a in s.procs && p in s.procs && s.procs[p].marked != []
    requires Reliable(s, PulseTurn(p, write), r) && Undisturbed(s, PulseNext(s, p, write), r)
    ensures Ahead(PulseNext(s, p, write), r)
  {
    var m := s.procs[p].marked[0];
    TurnIsPulse(s, p, write, except);
    UnmarkUndisturbed(s, p, PulseNext(s, p, write), r);
    assert ListsKept(s, p);
    hide Good, Ahead, Outbound, PulseMessage, PulseNext, ListsKept, Undisturbed, Unmark, InTurn;
    if p == r.a && m == r.cancel {
      CancelAtHead(s, r);
      UnmarkInTurn(s, p, r, m);
    }
    if p == r.a && m == r.target && Outbound(s, r, r.target) {
      TargetLeavesFirst(s, Unmark(s, p), r, except);
    } else {
      UnmarkKeepsAhead(s, Unmark(s, p), p, r);
      PulseKeepsAhead(Unmark(s, p), p, m, write, r, except);
    }
  }

  lemma GoodWire(s: Sys, x: Proc, y: Proc, except: set<MsgId>)
    requires Good(s, except)
    ensures WireKept(s, x, y)
  {
  }

  lemma DeliveryKeepsAhead(s: Sys, x: Proc, y: Proc, runs: Runs, r: Race, except: set<MsgId>)
    requires Good(s, except) && Ahead(s, r) && r.a in s.procs
    requires Arrives(s, x, y)
    requires Undisturbed(s, Pop(s, x, y, runs), r)
    ensures Ahead(Pop(s, x, y, runs), r)
  {
    hide Good, Pop, Ahead, WireKept, EvolvesBut, Undisturbed;
    var m := s.Wire(x, y)[0];
    var t := Pop(s, x, y, runs);
    DeliverEffect(s, x, y, runs, except);
    assert WireKept(s, x, y) by { GoodWire(s, x, y, except); }
    assert t.Wire(r.a, r.b) == if (r.a, r.b) == (x, y) then s.Wire(x, y)[1..] else s.Wire(r.a, r.b);
    if m in {r.target, r.cancel} {
      OwnDeliveryKeepsAhead(s, t, x, y, m, r);
    } else {
      hide PopEffect;
      OtherKeepsAhead(s, t, y, m, r);
    }
  }

  lemma NextKeepsAhead(s: Sys, step: Step, r: Race)
    requires Orderly(s) && Ahead(s, r) && r.a in s.procs
    requires Reliable(s, step, r) && Undisturbed(s, Next(s, step), r)
    ensures Ahead(Next(s, step), r)
  {
    OrderlyIsGood(s);
    var x := s.msgs.Keys;
    match step
    case Thread(p, script) =>
      if p in s.procs {
        PlayGood(s, p, {}, script, x);
        hide Good, Evolves, Orderly;
        ThreadKeepsAhead(s, Play(s, p, {}, script), p, r);
      }
    case PulseTurn(p, write) =>
      if p in s.procs && s.procs[p].marked != [] {
        TurnKeepsAhead(s, p, write, r, x);
      }
    case PulseDirect(p, m, write) =>
      if p in s.procs && s.OwnedBy(m, p) {
        FedMore(s, x, m);
        PulseKeepsAhead(s, p, m, write, r, x);
      }
    case Deliver(a, b, runs) =>
      if Arrives(s, a, b) {
        DeliveryKeepsAhead(s, a, b, runs, r, x);
      }
  }

  // ------------------------------------------------------------------ main result

  /** Every step of the run is reliable and leaves the two undisturbed. */
  ghost predicate FairRun(s: Sys, steps: seq<Step>, r: Race)
    decreases |steps|
  {
    steps == [] ||
    (&& Reliable(s, steps[0], r) && Undisturbed(s, Next(s, steps[0]), r)
     && FairRun(Next(s, steps[0]), steps[1..], r))
  }

  lemma {:induction false} FairRunKeepsAhead(s: Sys, steps: seq<Step>, r: Race)
    requires Orderly(s) && Ahead(s, r) && r.a in s.procs && FairRun(s, steps, r)
    ensures Ahead(After(s, steps), r)
    decreases |steps|
  {
    hide Orderly, Ahead;
    if steps != [] {
      NextOrderly(s, steps[0]);
      NextKeepsAhead(s, steps[0], r);
      FairRunKeepsAhead(Next(s, steps[0]), steps[1..], r);
    }
  }

  /**
   The target is queued before the cancel; any fair run follows, whatever observers and handlers do. Whenever the
   receiver owns the cancel, the target is neither waiting to be sent nor in flight towards the receiver: if the
   receiver does not own it, it has already been there.
   */
  lemma OrderlyWire(s: Sys, x: Proc, y: Proc)
    requires Orderly(s)
    ensures WireKept(s, x, y)
  {
  }

  lemma CancelNeverOvertakes(s: Sys, steps: seq<Step>, r: Race)
    requires Orderly(s) && r.target != r.cancel && r.a != r.b && r.a in s.procs
    requires Outbound(s, r, r.target) && Outbound(s, r, r.cancel)
    requires Precedes(s.procs[r.a].marked, r.target, r.cancel)
    requires FairRun(s, steps, r) && After(s, steps).OwnedBy(r.cancel, r.b)
    ensures var t := After(s, steps);
      && !Outbound(t, r, r.target)
      && r.target !in t.Wire(r.a, r.b)
  {
    hide Orderly, FairRun;
    FairRunKeepsAhead(s, steps, r);
    var t := After(s, steps);
    AfterOrderly(s, steps);
    assert WireKept(t, r.a, r.b) by { OrderlyWire(t, r.a, r.b); }
  }
}
