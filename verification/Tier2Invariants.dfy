/**
 What every piece of code that runs in one thread keeps, whatever the handlers and observers do.
 */
module Tier2Invariants {
  import opened Sequences
  import opened MessageStates
  import opened Tier2Protocol

  // ------------------------------------------------------------------ the invariant

  /** Each message in the list keeping of its owner alone, or ownerless on the one wire it travels. */
  ghost predicate MessagePlaced(s: Sys, m: MsgId)
    requires m in s.msgs
  {
    var msg := s.msgs[m];
    && msg.requester in s.procs && msg.receiver in s.procs
    && match msg.owner
       case Some(p) => (p == msg.requester || p == msg.receiver) && m in s.procs[p].owned
       case None => msg.Away() != msg.Home() && m in s.Wire(msg.Away(), msg.Home())
  }

  ghost predicate ListsKept(s: Sys, p: Proc)
    requires p in s.procs
  {
    && Distinct(s.procs[p].owned)
    && Distinct(s.procs[p].marked)
    && (forall m :: m in s.procs[p].owned ==> s.OwnedBy(m, p))
    && (forall m :: m in s.procs[p].marked ==> m in s.procs[p].owned)
  }

  ghost predicate WireKept(s: Sys, a: Proc, b: Proc) {
    && Distinct(s.Wire(a, b))
    && (forall m :: m in s.Wire(a, b) ==>
          m in s.msgs && s.msgs[m].owner == None && a != b && a == s.msgs[m].Away() && b == s.msgs[m].Home())
  }

  ghost predicate Placed(s: Sys) {
    && (forall m :: m in s.msgs ==> MessagePlaced(s, m))
    && (forall p :: p in s.procs ==> ListsKept(s, p))
    && (forall a: Proc, b: Proc :: WireKept(s, a, b))
  }

  /** `m` has business elsewhere: its state calls for the other side, or for its destruction. */
  predicate Restless(msg: Msg, p: Proc) {
    msg.now == Destruction || msg.Home() != p
  }

  /** No owned message outside `except` is stranded. */
  ghost predicate Fed(s: Sys, except: set<MsgId>) {
    forall p, m :: p in s.procs && m !in except && s.OwnedBy(m, p) && Restless(s.msgs[m], p) ==> m in s.procs[p].marked
  }

  /** A handler starts and returns with its message owned on the side its state calls for; only requesters delete. */
  predicate SideKept(e: Event) {
    match e
    case Began(_, st, owner, requester, receiver) => owner == Some(if ReceiverSide(st) then receiver else requester)
    case Returned(_, st, owner, requester, receiver) => owner == Some(if ReceiverSide(st) then receiver else requester)
    case Deleted(_, owner, requester) => owner == Some(requester)
  }

  ghost predicate SidesKept(s: Sys) {
    forall e :: e in s.log ==> SideKept(e)
  }

  ghost predicate Good(s: Sys, except: set<MsgId>) {
    Placed(s) && Fed(s, except) && SidesKept(s)
  }

  // ------------------------------------------------------------------ what a running thread leaves alone

  /** Owned by `p` and travelling between two processors: never destroyed from inside a handler. */
  predicate Bound(s: Sys, p: Proc, m: MsgId) {
    s.OwnedBy(m, p) && s.msgs[m].requester != s.msgs[m].receiver
  }

  ghost predicate Evolves(s: Sys, t: Sys, p: Proc) {
    && p in s.procs && t.procs.Keys == s.procs.Keys
    && t.wires == s.wires && s.log <= t.log
    && (forall q :: q in s.procs && q != p ==> t.procs[q] == s.procs[q])
    && (forall m :: m in s.msgs && s.msgs[m].owner != Some(p) ==> m in t.msgs && t.msgs[m] == s.msgs[m])
    && (forall m :: Bound(s, p, m) ==>
          && Bound(t, p, m) && t.msgs[m].requester == s.msgs[m].requester && t.msgs[m].receiver == s.msgs[m].receiver
          && (m in s.procs[p].marked ==> m in t.procs[p].marked))
    && (forall x, y :: Bound(s, p, x) && Bound(s, p, y) && Precedes(s.procs[p].marked, x, y) ==>
          Precedes(t.procs[p].marked, x, y))
    && (forall m :: t.OwnedBy(m, p) ==> s.OwnedBy(m, p) || m !in s.msgs)
  }

  lemma EvolvesRefl(s: Sys, p: Proc)
    requires p in s.procs
    ensures Evolves(s, s, p)
  {
  }

  lemma EvolvesTransitive(s: Sys, t: Sys, u: Sys, p: Proc)
    requires Evolves(s, t, p) && Evolves(t, u, p)
    ensures Evolves(s, u, p)
  {
    forall x, y | Bound(s, p, x) && Bound(s, p, y) && Precedes(s.procs[p].marked, x, y)
      ensures Precedes(u.procs[p].marked, x, y)
    {
      assert Bound(t, p, x) && Bound(t, p, y) && Precedes(t.procs[p].marked, x, y);
    }
  }

  // ------------------------------------------------------------------ single list operations

  /** A change confined to what `p` owns, before and after. */
  ghost predicate Confined(s: Sys, t: Sys, p: Proc) {
    && p in s.procs && t.procs.Keys == s.procs.Keys && t.wires == s.wires
    && (forall q :: q in s.procs && q != p ==> t.procs[q] == s.procs[q])
    && (forall m :: m in s.msgs && s.msgs[m].owner != Some(p) ==> m in t.msgs && t.msgs[m] == s.msgs[m])
    && (forall m :: m in t.msgs && t.msgs[m].owner != Some(p) ==> m in s.msgs && t.msgs[m] == s.msgs[m])
  }

  lemma ConfinedPlaced(s: Sys, t: Sys, p: Proc)
    requires Placed(s) && Confined(s, t, p) && ListsKept(t, p)
    requires forall m :: t.OwnedBy(m, p) ==> MessagePlaced(t, m)
    ensures Placed(t)
  {
    forall m | m in t.msgs ensures MessagePlaced(t, m) {
      if !t.OwnedBy(m, p) {
        assert MessagePlaced(s, m);
      }
    }
    forall q | q in t.procs ensures ListsKept(t, q) {
      if q != p {
        assert ListsKept(s, q);
      }
    }
    hide MessagePlaced, ListsKept;
    forall a: Proc, b: Proc ensures WireKept(t, a, b) {
      ConfinedWire(s, t, p, a, b);
    }
  }

  lemma ConfinedWire(s: Sys, t: Sys, p: Proc, a: Proc, b: Proc)
    requires WireKept(s, a, b) && Confined(s, t, p)
    ensures WireKept(t, a, b)
  {
  }

  lemma ConfinedFed(s: Sys, t: Sys, p: Proc, excepted: set<MsgId>, except: set<MsgId>)
    requires Fed(s, excepted) && Confined(s, t, p)
    requires forall m :: m in excepted && m !in except ==> s.OwnedBy(m, p)
    requires forall m :: m !in except && t.OwnedBy(m, p) && Restless(t.msgs[m], p) ==> m in t.procs[p].marked
    ensures Fed(t, except)
  {
    forall q, m | q in t.procs && m !in except && t.OwnedBy(m, q) && Restless(t.msgs[m], q)
      ensures m in t.procs[q].marked
    {
      if q != p {
        assert s.OwnedBy(m, q) && t.msgs[m] == s.msgs[m];
      }
    }
  }

  lemma MarkEvolves(s: Sys, p: Proc, m: MsgId)
    requires p in s.procs
    ensures Evolves(s, Mark(s, p, m), p)
  {
    hide Precedes;
    forall x, y | Precedes(s.procs[p].marked, x, y) ensures Precedes(Mark(s, p, m).procs[p].marked, x, y) {
      ExtendKeepsOrder(s.procs[p].marked, Mark(s, p, m).procs[p].marked, x, y);
    }
  }

  lemma MarkGood(s: Sys, p: Proc, m: MsgId, except: set<MsgId>)
    requires p in s.procs && s.OwnedBy(m, p) && Good(s, except + {m})
    ensures Good(Mark(s, p, m), except) && Evolves(s, Mark(s, p, m), p)
  {
    hide Evolves;
    var t := Mark(s, p, m);
    MarkEvolves(s, p, m);
    assert ListsKept(s, p) && MessagePlaced(s, m);
    WithDistinct(s.procs[p].marked, m);
    assert ListsKept(t, p);
    forall k | t.OwnedBy(k, p) ensures MessagePlaced(t, k) {
      assert MessagePlaced(s, k);
    }
    hide ListsKept, MessagePlaced;
    ConfinedPlaced(s, t, p);
    ConfinedFed(s, t, p, except + {m}, except);
  }

  lemma PutEvolves(s: Sys, p: Proc, m: MsgId, msg: Msg)
    requires p in s.procs && s.OwnedBy(m, p)
    requires msg.requester == s.msgs[m].requester && msg.receiver == s.msgs[m].receiver && msg.owner == Some(p)
    ensures Evolves(s, Put(s, m, msg), p)
  {
    hide Precedes;
  }

  lemma PutLists(s: Sys, p: Proc, m: MsgId, msg: Msg)
    requires p in s.procs && s.OwnedBy(m, p) && Placed(s)
    requires msg.requester == s.msgs[m].requester && msg.receiver == s.msgs[m].receiver && msg.owner == Some(p)
    ensures ListsKept(s, p) && ListsKept(Put(s, m, msg), p)
    ensures forall k :: Put(s, m, msg).OwnedBy(k, p) ==> MessagePlaced(Put(s, m, msg), k)
  {
    var t := Put(s, m, msg);
    assert ListsKept(s, p);
    forall k | t.OwnedBy(k, p) ensures MessagePlaced(t, k) {
      assert MessagePlaced(s, k);
    }
  }

  lemma PutGood(s: Sys, p: Proc, m: MsgId, msg: Msg, except: set<MsgId>)
    requires p in s.procs && s.OwnedBy(m, p) && Good(s, except)
    requires msg.requester == s.msgs[m].requester && msg.receiver == s.msgs[m].receiver && msg.owner == Some(p)
    ensures Good(Put(s, m, msg), except + {m}) && Evolves(s, Put(s, m, msg), p)
    ensures msg.now == s.msgs[m].now ==> Good(Put(s, m, msg), except)
  {
    hide Evolves, ListsKept, MessagePlaced;
    var t := Put(s, m, msg);
    PutEvolves(s, p, m, msg);
    PutLists(s, p, m, msg);
    ConfinedPlaced(s, t, p);
    ConfinedFed(s, t, p, except, except + {m});
    if msg.now == s.msgs[m].now {
      ConfinedFed(s, t, p, except, except);
    }
  }

  lemma NoteGood(s: Sys, p: Proc, e: Event, except: set<MsgId>)
    requires p in s.procs && Good(s, except) && SideKept(e)
    ensures Good(Note(s, e), except) && Evolves(s, Note(s, e), p)
  {
    var t := Note(s, e);
    assert ListsKept(s, p);
    assert ListsKept(t, p);
    forall k | t.OwnedBy(k, p) ensures MessagePlaced(t, k) {
      assert MessagePlaced(s, k);
    }
    ConfinedPlaced(s, t, p);
    ConfinedFed(s, t, p, except, except);
  }

  lemma CreateEvolves(s: Sys, p: Proc, id: MsgId, receiver: Proc)
    requires p in s.procs && id !in s.msgs
    ensures Evolves(s, Create(s, p, id, receiver), p)
  {
    hide Precedes;
  }

  lemma CreateLists(s: Sys, p: Proc, id: MsgId, receiver: Proc)
    requires p in s.procs && receiver in s.procs && id !in s.msgs && Placed(s)
    ensures var t := Create(s, p, id, receiver);
      ListsKept(t, p) && forall k :: t.OwnedBy(k, p) ==> MessagePlaced(t, k)
  {
    var t := Create(s, p, id, receiver);
    assert ListsKept(s, p);
    assert id !in s.procs[p].owned;
    WithDistinct(s.procs[p].owned, id);
    forall k | t.OwnedBy(k, p) ensures MessagePlaced(t, k) {
      if k != id {
        assert MessagePlaced(s, k);
      }
    }
  }

  lemma CreateGood(s: Sys, p: Proc, id: MsgId, receiver: Proc, except: set<MsgId>)
    requires p in s.procs && receiver in s.procs && id !in s.msgs && Good(s, except)
    ensures Good(Create(s, p, id, receiver), except) && Evolves(s, Create(s, p, id, receiver), p)
  {
    hide Evolves, ListsKept, MessagePlaced;
    var t := Create(s, p, id, receiver);
    CreateEvolves(s, p, id, receiver);
    CreateLists(s, p, id, receiver);
    ConfinedPlaced(s, t, p);
    ConfinedFed(s, t, p, except, except);
  }

  lemma DeleteEvolves(s: Sys, p: Proc, m: MsgId)
    requires p in s.procs && s.OwnedBy(m, p) && Distinct(s.procs[p].marked) && !Bound(s, p, m)
    ensures Evolves(s, Delete(s, p, m), p)
  {
    hide Precedes, Distinct;
    forall x, y | x != m && y != m && Precedes(s.procs[p].marked, x, y)
      ensures Precedes(Delete(s, p, m).procs[p].marked, x, y)
    {
      WithoutKeepsOrder(s.procs[p].marked, m, x, y);
    }
  }

  lemma DeleteLists(s: Sys, p: Proc, m: MsgId)
    requires p in s.procs && s.OwnedBy(m, p) && Placed(s)
    ensures var t := Delete(s, p, m);
      ListsKept(t, p) && forall k :: t.OwnedBy(k, p) ==> MessagePlaced(t, k)
  {
    var t := Delete(s, p, m);
    assert ListsKept(s, p);
    WithoutDistinct(s.procs[p].owned, m);
    WithoutDistinct(s.procs[p].marked, m);
    forall k | t.OwnedBy(k, p) ensures MessagePlaced(t, k) {
      assert MessagePlaced(s, k);
    }
  }

  lemma DeleteGood(s: Sys, p: Proc, m: MsgId, except: set<MsgId>)
    requires p in s.procs && s.OwnedBy(m, p) && s.msgs[m].requester == p && Good(s, except + {m})
    ensures Good(Delete(s, p, m), except)
    ensures !Bound(s, p, m) ==> Evolves(s, Delete(s, p, m), p)
  {
    hide Restless, WireKept, Distinct, Bound, Without, ReceiverSide, Precedes;
    hide Evolves;
    var t := Delete(s, p, m);
    if !Bound(s, p, m) {
      assert ListsKept(s, p);
      DeleteEvolves(s, p, m);
    }
    DeleteLists(s, p, m);
    hide ListsKept, MessagePlaced;
    ConfinedPlaced(s, t, p);
    ConfinedFed(s, t, p, except + {m}, except);
  }

  // ------------------------------------------------------------------ every terminating call tree

  lemma {:induction false} PlayGood(s: Sys, p: Proc, busy: set<MsgId>, script: Script, except: set<MsgId>)
    requires Running(s, p, busy) && Good(s, except)
    ensures Good(Play(s, p, busy, script), except) && Evolves(s, Play(s, p, busy, script), p)
    decreases script
  {
    hide Good, Evolves;
    EvolvesRefl(s, p);
    match script
    case End =>
    case Do(act, next) =>
      var t := Perform(s, p, busy, act);
      PerformGood(s, p, busy, act, except);
      PlayGood(t, p, busy, next, except);
      EvolvesTransitive(s, t, Play(t, p, busy, next), p);
  }

  lemma {:induction false} PerformGood(s: Sys, p: Proc, busy: set<MsgId>, act: Act, except: set<MsgId>)
    requires Running(s, p, busy) && Good(s, except)
    ensures Good(Perform(s, p, busy, act), except) && Evolves(s, Perform(s, p, busy, act), p)
    decreases act
  {
    hide Good, Evolves;
    EvolvesRefl(s, p);
    match act
    case Call(target, to, runs) =>
      if s.OwnedBy(target, p) {
        SetStateGood(s, p, busy, target, to, runs, except);
      }
    case New(id, receiver) =>
      if id !in s.msgs && receiver in s.procs {
        CreateGood(s, p, id, receiver, except);
      }
    case Pulse(target) =>
      if s.OwnedBy(target, p) && s.msgs[target].requester == s.msgs[target].receiver {
        PulseSelfGood(s, p, target, except);
      }
    case Register(target, h) =>
      if s.OwnedBy(target, p) {
        PutGood(s, p, target, s.msgs[target].(handlers := With(s.msgs[target].handlers, h)), except);
      }
    case Unregister(target, h) =>
      if s.OwnedBy(target, p) {
        PutGood(s, p, target, s.msgs[target].(handlers := Without(s.msgs[target].handlers, h)), except);
      }
  }

  lemma FedMore(s: Sys, except: set<MsgId>, m: MsgId)
    requires Good(s, except)
    ensures Good(s, except + {m})
  {
  }

  lemma FedSettled(s: Sys, p: Proc, except: set<MsgId>, m: MsgId)
    requires Good(s, except + {m}) && s.OwnedBy(m, p) && !Restless(s.msgs[m], p)
    ensures Good(s, except)
  {
  }

  lemma PulseSelfGood(s: Sys, p: Proc, m: MsgId, except: set<MsgId>)
    requires p in s.procs && s.OwnedBy(m, p) && s.msgs[m].requester == s.msgs[m].receiver && Good(s, except)
    ensures Good(PulseSelf(s, p, m), except) && Evolves(s, PulseSelf(s, p, m), p)
  {
    assert MessagePlaced(s, m);
    hide Good, Evolves;
    EvolvesRefl(s, p);
    if s.msgs[m].now == Destruction {
      FedMore(s, except, m);
      DeleteGood(s, p, m, except);
    }
  }

  lemma {:induction false} SetStateGood(
      s: Sys, p: Proc, busy: set<MsgId>, m: MsgId, to: State, runs: Runs, except: set<MsgId>)
    requires Running(s, p, busy) && s.OwnedBy(m, p) && Good(s, except)
    ensures Good(SetState(s, p, busy, m, to, runs).0, except) && Evolves(s, SetState(s, p, busy, m, to, runs).0, p)
    decreases runs
  {
    hide Good, Evolves;
    EvolvesRefl(s, p);
    if to != s.msgs[m].now {
      var (s1, to1) := Exec(s, p, busy, m, to, runs.first);
      ExecGood(s, p, busy, m, to, runs.first, except);
      if to1 != s1.msgs[m].now {
        ExecGood(s1, p, busy, m, to1, runs.second, except);
        EvolvesTransitive(s, s1, Exec(s1, p, busy, m, to1, runs.second).0, p);
      }
    }
  }

  lemma {:induction false} ExecGood(
      s: Sys, p: Proc, busy: set<MsgId>, m: MsgId, to: State, run: Run, except: set<MsgId>)
    requires Running(s, p, busy) && s.OwnedBy(m, p) && Good(s, except)
    ensures Good(Exec(s, p, busy, m, to, run).0, except) && Evolves(s, Exec(s, p, busy, m, to, run).0, p)
    decreases run
  {
    hide Good, Evolves;
    var (s1, verdict) := Observe(s, p, busy + {m}, s.msgs[m].handlers, run.glances);
    ObserveGood(s, p, busy + {m}, s.msgs[m].handlers, run.glances, except);
    if verdict != DontChange {
      FedMore(s1, except, m);
      EnterAndHandleGood(s1, p, busy, m, if verdict == ErrorOccurred then Failed else to, run, except);
      EvolvesTransitive(s, s1, Exec(s, p, busy, m, to, run).0, p);
    }
  }

  lemma {:induction false} EnterAndHandleGood(
      s: Sys, p: Proc, busy: set<MsgId>, m: MsgId, st: State, run: Run, except: set<MsgId>)
    requires Running(s, p, busy) && s.OwnedBy(m, p) && Good(s, except + {m})
    ensures Good(Handle(Enter(s, m, st), p, busy, m, st, run), except)
    ensures Evolves(s, Handle(Enter(s, m, st), p, busy, m, st, run), p)
    decreases run, 2
  {
    hide Good, Evolves;
    var s2 := Enter(s, m, st);
    PutGood(s, p, m, s2.msgs[m], except + {m});
    assert except + {m} + {m} == except + {m};
    HandleGood(s2, p, busy, m, st, run, except);
    EvolvesTransitive(s, s2, Handle(s2, p, busy, m, st, run), p);
  }

  lemma {:induction false} ObserveGood(
      s: Sys, p: Proc, busy: set<MsgId>, hs: seq<HandlerId>, glances: Glances, except: set<MsgId>)
    requires Running(s, p, busy) && Good(s, except)
    ensures Good(Observe(s, p, busy, hs, glances).0, except) && Evolves(s, Observe(s, p, busy, hs, glances).0, p)
    decreases glances
  {
    hide Good, Evolves;
    EvolvesRefl(s, p);
    if hs != [] && glances.Glance? {
      var s1 := Play(s, p, busy, glances.script);
      PlayGood(s, p, busy, glances.script, except);
      if glances.verdict == Proceed {
        ObserveGood(s1, p, busy, hs[1..], glances.rest, except);
        EvolvesTransitive(s, s1, Observe(s1, p, busy, hs[1..], glances.rest).0, p);
      }
    }
  }

  lemma {:induction false} HandleGood(
      s: Sys, p: Proc, busy: set<MsgId>, m: MsgId, st: State, run: Run, except: set<MsgId>)
    requires Running(s, p, busy) && s.OwnedBy(m, p) && s.msgs[m].now == st && Good(s, except + {m})
    ensures Good(Handle(s, p, busy, m, st, run), except) && Evolves(s, Handle(s, p, busy, m, st, run), p)
    decreases run, 1
  {
    hide Good, Evolves;
    EvolvesRefl(s, p);
    var msg := s.msgs[m];
    if RunsHere(msg, p, st) {
      var left := if st == Destruction then except + {m} else except;
      if st != Destruction {
        FedSettled(s, p, except, m);
      }
      RunHandlerGood(s, p, busy, m, st, run, left);
      if st == Destruction {
        var s1 := RunHandler(s, p, busy, m, st, run);
        MarkGood(s1, p, m, except);
        EvolvesTransitive(s, s1, Mark(s1, p, m), p);
      }
    } else if st == Initialized && p == msg.requester {
      FedSettled(s, p, except, m);
    } else {
      MarkGood(s, p, m, except);
    }
  }

  /** The message is still owned here when its handler returns. */
  lemma {:induction false} RunHandlerGood(
    s: Sys, p: Proc, busy: set<MsgId>, m: MsgId, st: State, run: Run, except: set<MsgId>)
    requires Running(s, p, busy) && s.OwnedBy(m, p) && RunsHere(s.msgs[m], p, st) && Good(s, except)
    ensures Good(RunHandler(s, p, busy, m, st, run), except) && Evolves(s, RunHandler(s, p, busy, m, st, run), p)
    decreases run, 0
  {
    hide Good, Evolves;
    var msg := s.msgs[m];
    var began := Began(m, st, msg.owner, msg.requester, msg.receiver);
    var s0 := Note(s, began);
    NoteGood(s, p, began, except);
    PlayGood(s0, p, busy + {m}, run.handler, except);
    var s1 := Play(s0, p, busy + {m}, run.handler);
    var returned := Returned(m, st, s1.msgs[m].owner, msg.requester, msg.receiver);
    NoteGood(s1, p, returned, except);
    EvolvesTransitive(s, s0, s1, p);
    EvolvesTransitive(s, s1, Note(s1, returned), p);
  }
}
