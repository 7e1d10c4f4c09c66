/**
 The back-end's requests, the limiter of scanner subscriptions and the dispatcher that drives them:
 state changes re-enter one another, and giving up a slot builds and runs a cancel in their midst.
 */
module ScannerBackend {
  import opened Sequences
  import opened MessageStates
  import opened ScannerSlots
  import opened ScannerContracts
  import opened ScannerHistory

  datatype Command =
    | HandOver(order: Order)      // a client's request arrives
    | Issue(order: Order)         // the back-end's own
    | Recall(target: Id)          // a client's cancel message that names a request
    | Turn(written: bool)         // one turn of pulse_marked_messages, with the outcome of the socket write
    | Tickle                      // pulse_pending_issues
    | Respond(response: Response)

  class BackEnd {
    var msgs: map<Id, Req>
    var owned: seq<Id>
    var marked: seq<Id>
    var active: seq<Id>
    var wire: seq<Sent>
    var nextId: Id
    var nextTicker: int           // the application's ticker ids, drawn one after the other
    ghost var past: Past          // what has become of tickers that a cancel named too early
    var tickled: nat              // m_last_tickled_queue_position
    const fails: nat -> bool      // whether TWS rejects the n-th transmission

    ghost function Snap(): Store
      reads this
    {
      Store(msgs, owned, marked, active, wire)
    }

    ghost predicate Fresh()
      reads this
    {
      forall k :: k in msgs ==> k < nextId
    }

    /** What no state change does. */
    twostate predicate Steady()
      reads this
    {
      Fresh() && nextId >= old(nextId) && nextTicker == old(nextTicker) && tickled == old(tickled)
      && past == old(past)
    }

    ghost function Measure(m: Id, to: State): nat
      reads this
      requires m in msgs
    {
      if Admitting(msgs[m].kind, to) then 0 else |active|
    }

    // ---------------------------------------------------------------- state() and exec_state()

    method SetState(m: Id, to: State, ghost except: set<Id>, ghost hole: set<int>) returns (st: State)
      requires Fresh() && Pre(Snap(), m, to, except, hole)
      requires to == msgs[m].now ==> Concluded(to) && Fine(Snap(), m) && m !in active && !msgs[m].kind.ScanCancel?
      modifies this
      ensures Steady() && m in msgs
      ensures StatePost(old(Snap()), Snap(), m, to, except, hole, st) && Resolved(old(Snap()), Snap(), m, to, fails)
      decreases Admitting(msgs[m].kind, to), Measure(m, to), Depth(to), 4
    {
      hide Pre, StatePost, ExecPost, Inv;
      ghost var s := Snap();
      assert m in msgs by { InDomain(s, m, to, except, hole); }
      st := to;
      if st == msgs[m].now {
        NothingToDo(s, m, to, except, hole);
      } else {
        st := ExecState(m, to, except, hole);
        ghost var t := Snap();
        if st == msgs[m].now {
          Succeeds(s, t, m, to, except, hole);
          SuccessResolves(s, t, m, to, except, hole, fails);
        } else {
          FailureFollows(s, t, m, to, except, hole, st);
          ghost var st1 := st;
          FailureShrinks(s, t, m, to, except, hole, st1);
          st := ExecState(m, st, except, Owed(s.msgs[m].kind, to, hole));
          FailureConcludes(s, t, Snap(), m, to, except, hole, st1, st);
          FailureResolves(s, t, Snap(), m, to, except, hole, st1, st, fails);
        }
      }
    }

    method ExecState(m: Id, to: State, ghost except: set<Id>, ghost hole: set<int>) returns (st: State)
      requires Fresh() && Pre(Snap(), m, to, except, hole)
      modifies this
      ensures Steady() && m in msgs
      ensures ExecPost(old(Snap()), Snap(), m, to, except, hole, st) && Decided(old(Snap()), Snap(), m, to, st, fails)
      decreases Admitting(msgs[m].kind, to), Measure(m, to), Depth(to), 3
    {
      hide Inv, Pre, ExecPost, EnterPre, EnterPost, LimiterPost, Decided;
      ghost var s := Snap();
      InDomain(s, m, to, except, hole);
      var verdict := Proceed;
      if msgs[m].limited {
        verdict := ProcessChange(m, to, except, hole);
      }
      ghost var t := Snap();
      if verdict == DontChange {
        VetoKeeps(s, t, m, to, except, hole, fails);
        Vetoed(s, m, to, except, hole);
        st := msgs[m].now;
      } else {
        if s.msgs[m].limited {
          LimiterLeaves(s, t, m, to, except, hole);
          ObservedEnters(s, t, m, to, except, hole);
        } else {
          UnobservedEnters(s, m, to, except, hole);
        }
        st := EnterState(m, to, except, hole);
        if s.msgs[m].limited {
          ObservedEntered(s, t, Snap(), m, to, except, hole, st);
          DecidedThrough(s, t, Snap(), m, to, except, hole, st, fails);
        } else {
          UnobservedEntered(s, Snap(), m, to, except, hole, st);
        }
      }
    }

    // ---------------------------------------------------------------- the limiter

    /** The limiter's answer to a state change of a request it observes. */
    method ProcessChange(m: Id, to: State, ghost except: set<Id>, ghost hole: set<int>) returns (verdict: Verdict)
      requires Fresh() && Pre(Snap(), m, to, except, hole) && msgs[m].limited
      modifies this
      ensures Steady()
      ensures LimiterPost(old(Snap()), Snap(), m, to, except, hole, verdict)
      ensures verdict in {Proceed, DontChange}
      decreases Admitting(msgs[m].kind, to), Measure(m, to), Depth(to), 2
    {
      hide Inv, Pre, LimiterPost;
      ghost var s := Snap();
      InDomain(s, m, to, except, hole);
      Observable(s, m, to, except, hole);
      LimiterAnswers(s, m, to, except, hole);
      verdict := Proceed;
      if to == CommenceTransmit {
        if msgs[m].kind.ScanRequest? {
          if |active| < MAX_SUBSCRIPTIONS {
            active := active + [m];
          } else {
            verdict := DontChange;
          }
        }
      } else if Concluded(to) {
        var i := 0;
        assert forall j :: 0 <= j < |active| ==> s.IsScan(s.active[j]);
        while i < |active| && msgs[active[i]].kind.ticker != msgs[m].kind.ticker
          invariant i <= |active|
          invariant forall j :: 0 <= j < i ==> msgs[active[j]].kind.ticker != msgs[m].kind.ticker
        {
          i := i + 1;
        }
        if i < |active| {
          assert s.IsScan(s.active[i]);
          GiveUpSlot(m, i, to, except, hole);
        } else {
          assert forall k :: k in s.active ==> exists j :: 0 <= j < |active| && s.active[j] == k;
          NoSlot(s, m, to, except, hole);
        }
      }
    }

    /** A slot is free again: TWS is told at once, by a cancel that is built and run in the midst of the change. */
    method GiveUpSlot(m: Id, i: nat, to: State, ghost except: set<Id>, ghost hole: set<int>)
      requires Fresh() && Pre(Snap(), m, to, except, hole) && Concluded(to) && msgs[m].limited
      requires i < |active| && active[i] in msgs && msgs[active[i]].kind.ScanRequest?
      requires msgs[m].kind.ScanRequest? || msgs[m].kind.ScanCancel?
      requires msgs[active[i]].kind.ticker == msgs[m].kind.ticker
      modifies this
      ensures Steady()
      ensures LimiterPost(old(Snap()), Snap(), m, to, except, hole, Proceed)
      decreases false, |active|, Depth(to), 1
    {
      hide Inv, Pre, StatePost, LimiterPost, Matched, Releasing, Pending;
      ghost var s := Snap();
      InDomain(s, m, to, except, hole);
      SlotOf(s, m, i, to, except, hole);
      Releases(s, m, i, to, except, hole);
      var holder := active[i];
      active := active[..i] + active[i + 1..];
      msgs := msgs[m := msgs[m].(limited := false)];
      if msgs[holder].prev in {Some(CommenceTransmit), Some(ReadyToReceiveResponse), Some(ResponsePending)} {
        var c := Construct(OwnCancel(msgs[holder].kind.ticker));
        assert Snap() == Relinquished(s, m, holder, c);
        Relinquishes(s, m, holder, to, c, except, hole);
        var st := SetState(c, ExecCommand, Pending(s, m, except), hole + {s.msgs[holder].kind.ticker});
        Relinquishment(s, m, holder, to, c, Snap(), except, hole, st);
        PulseOwn(c);
      }
    }

    /** The constructor: a message the back-end requests of itself, owned at once. */
    method Construct(r: Req) returns (c: Id)
      requires Fresh()
      modifies this
      ensures Steady() && c !in old(msgs)
      ensures Snap() == Join(old(Snap()), c, r)
    {
      c := nextId;
      nextId := nextId + 1;
      msgs := msgs[c := r];
      owned := owned + [c];
    }

    /** pulse() on a message that never crosses threads. */
    method PulseOwn(m: Id)
      requires Fresh() && m in msgs && msgs[m].mine
      modifies this
      ensures Steady()
      ensures Snap() == if old(msgs[m]).now == Destruction then Leave(old(Snap()), m) else old(Snap())
    {
      if msgs[m].now == Destruction {
        owned := Without(owned, m);
        marked := Without(marked, m);
        msgs := msgs - {m};
      }
    }

    // ---------------------------------------------------------------- the state handlers

    /** The change is made and its handler runs: all requests live on this side, those of its own on both. */
    method EnterState(m: Id, to: State, ghost except: set<Id>, ghost hole: set<int>) returns (st: State)
      requires Fresh() && EnterPre(Snap(), m, to, except, hole)
      modifies this
      ensures Steady() && m in msgs
      ensures EnterPost(old(Snap()), Snap(), m, to, except, hole, st) && Decided(old(Snap()), Snap(), m, to, st, fails)
      decreases Admitting(msgs[m].kind, to), Measure(m, to), Depth(to), 2
    {
      hide Inv, EnterPre, EnterPost;
      ghost var s := Snap();
      EntersKnown(s, m, to, except, hole);
      msgs := msgs[m := msgs[m].(prev := Some(msgs[m].now), now := to)];
      var err := false;
      if to == ExecCommand {
        err := ExecCommandHandler(m, s, except, hole);
      } else if to == WaitForTransmit {
        WaitForTransmitHandler(m, s, except, hole);
      } else if to == CommenceTransmit {
        err := CommenceTransmitHandler(m, s, except, hole);
      } else if Concluded(to) {
        ConclusionHandler(m, s, to, except, hole);
      } else {
        Settles(s, m, to, except, hole);
      }
      st := if err then Failed else msgs[m].now;
    }

    /** f_exec_command of the kinds that have one. */
    method ExecCommandHandler(m: Id, ghost s: Store, ghost except: set<Id>, ghost hole: set<int>) returns (err: bool)
      requires Fresh() && EnterPre(s, m, ExecCommand, except, hole) && Snap() == Enter(s, m, ExecCommand)
      modifies this
      ensures Steady() && m in msgs
      ensures EnterPost(s, Snap(), m, ExecCommand, except, hole, if err then Failed else msgs[m].now)
      ensures Decided(s, Snap(), m, ExecCommand, if err then Failed else msgs[m].now, fails)
      decreases Admitting(msgs[m].kind, ExecCommand), Measure(m, ExecCommand), Depth(ExecCommand), 1
    {
      hide Inv, Pre, EnterPre, EnterPost, StatePost, Plain, Cancelled, HoldsTicker, Matched, AllAborted, Others, Freed;
      hide Resolved, Decided;
      EntersKnown(s, m, ExecCommand, except, hole);
      err := false;
      if msgs[m].kind.ScanRequest? {
        msgs := msgs[m := msgs[m].(limited := true)];
        assert Snap() == Registered(s, m, ExecCommand);
        ExecWaits(s, m, msgs[m], except, hole);
        var st := SetState(m, WaitForTransmit, except, hole);
        ScanExecuted(s, Snap(), m, except, hole, st);
        NotMatched(s, m);
        ExecDecided(s, Registered(s, m, ExecCommand), Snap(), m, fails);
      } else if msgs[m].kind.ScanCancel? {
        msgs := msgs[m := msgs[m].(limited := true)];
        assert Snap() == Registered(s, m, ExecCommand);
        CancelRegistered(s, m, except, hole);
        err := CancelAllMatching(m, except, hole);
        ghost var t := Snap();
        CancelWaits(s, t, m, except, hole);
        var st := SetState(m, WaitForTransmit, except, hole);
        CancelExecuted(s, t, Snap(), m, except, hole, err, st);
        CancelDecided(s, t, Snap(), m, fails);
      } else {
        ExecWaits(s, m, msgs[m], except, hole);
        var st := SetState(m, WaitForTransmit, except, hole);
        PlainExecuted(s, Snap(), m, except, hole, st);
        NotMatched(s, m);
        ExecDecided(s, Enter(s, m, ExecCommand), Snap(), m, fails);
      }
    }

    method WaitForTransmitHandler(m: Id, ghost s: Store, ghost except: set<Id>, ghost hole: set<int>)
      requires Fresh() && EnterPre(s, m, WaitForTransmit, except, hole) && Snap() == Enter(s, m, WaitForTransmit)
      modifies this
      ensures Steady() && m in msgs
      ensures EnterPost(s, Snap(), m, WaitForTransmit, except, hole, msgs[m].now)
      ensures Resolved(s, Snap(), m, WaitForTransmit, fails)
      decreases Admitting(msgs[m].kind, WaitForTransmit), Measure(m, WaitForTransmit), Depth(WaitForTransmit), 1
    {
      hide Inv, Pre, EnterPre, EnterPost, StatePost;
      ReadyToCommence(s, m, except, hole);
      var st := SetState(m, CommenceTransmit, except, hole);
      Waited(s, Snap(), m, except, hole, st);
    }

    /** f_commence_transmit and tx: on the wire first, then ready for the answer, whatever TWS said. */
    method CommenceTransmitHandler(
        m: Id, ghost s: Store, ghost except: set<Id>, ghost hole: set<int>) returns (err: bool)
      requires Fresh() && EnterPre(s, m, CommenceTransmit, except, hole) && Snap() == Enter(s, m, CommenceTransmit)
      modifies this
      ensures Steady() && m in msgs
      ensures EnterPost(s, Snap(), m, CommenceTransmit, except, hole, if err then Failed else msgs[m].now)
      ensures msgs[m].now == ReadyToReceiveResponse && (err <==> fails(|s.wire|))
      decreases Admitting(msgs[m].kind, CommenceTransmit), Measure(m, CommenceTransmit), Depth(CommenceTransmit), 1
    {
      hide Inv, Pre, EnterPre, EnterPost, StatePost;
      Announces(s, m, except, hole);
      EntersKnown(s, m, CommenceTransmit, except, hole);
      err := fails(|wire|);
      wire := wire + [Announced(msgs[m].kind)];
      var st := SetState(m, ReadyToReceiveResponse, except, Owed(msgs[m].kind, CommenceTransmit, hole));
      Commenced(s, Snap(), m, except, hole, st, err);
    }

    method ConclusionHandler(m: Id, ghost s: Store, to: State, ghost except: set<Id>, ghost hole: set<int>)
      requires Fresh() && EnterPre(s, m, to, except, hole) && Snap() == Enter(s, m, to) && Concluded(to)
      modifies this
      ensures Steady() && m in msgs
      ensures EnterPost(s, Snap(), m, to, except, hole, msgs[m].now)
      decreases Admitting(msgs[m].kind, to), Measure(m, to), Depth(to), 1
    {
      hide Inv, Pre, StatePost;
      if msgs[m].mine && to in {TaskCompleted, Failed, Aborted} {
        Destroys(s, m, to, except, hole);
        var st := SetState(m, Destruction, except, hole);
        Destroyed(s, Snap(), m, to, except, hole, st);
      } else if msgs[m].mine && to == ResponseComplete {
        Settles(s, m, to, except, hole);
      } else {
        marked := With(marked, m);
        Marks(s, m, to, except, hole);
      }
    }

    /** The owned requests a cancel is meant for. */
    method MeantFor(ticker: int) returns (q: seq<Id>)
      requires forall k :: k in owned ==> k in msgs
      ensures forall k :: k in q <==> k in owned && msgs[k].kind == ScanRequest(ticker)
    {
      q := [];
      for i := 0 to |owned|
        invariant forall k :: k in q <==> k in owned[..i] && msgs[k].kind == ScanRequest(ticker)
      {
        if msgs[owned[i]].kind == ScanRequest(ticker) {
          q := q + [owned[i]];
        }
      }
      assert owned[..|owned|] == owned;
    }

    method CancelAllMatching(c: Id, ghost except: set<Id>, ghost hole: set<int>) returns (found: bool)
      requires Fresh() && c in msgs && c !in except && Plain(Snap(), except) && Inv(Snap(), except + {c}, hole)
      requires msgs[c].kind.ScanCancel? && msgs[c].now == ExecCommand && msgs[c].limited
      modifies this
      ensures Steady() && c in msgs
      ensures Cancelled(old(Snap()), Snap(), c, old(msgs[c].kind.ticker)) && Inv(Snap(), except + {c}, hole)
      ensures !HoldsTicker(Snap(), old(msgs[c].kind.ticker)) && Plain(Snap(), except)
      ensures AllAborted(Snap(), old(msgs[c].kind.ticker)) && Freed(old(Snap()), Snap(), old(msgs[c].kind.ticker))
      ensures found == Matched(old(Snap()), c) && msgs[c].now == Destruction && msgs[c].limited
      decreases false, |active|, Depth(ExecCommand), 0
    {
      ghost var s := Snap();
      assert forall k :: k in owned <==> k in msgs;
      var q := MeantFor(msgs[c].kind.ticker);
      found := q != [];
      assert found == Matched(s, c) by {
        assert found ==> q[0] in q;
      }
      hide Inv, Pre, StatePost, Matched, Cancelled, Plain, HoldsTicker, Fine, Freed;
      AbortAll(c, q, except, hole);
      ghost var t := Snap();
      EveryoneAborted(s, t, c, q, except, hole);
      var st := SetState(c, Destruction, except, hole);
      CancelMarked(s, t, Snap(), c, except, hole, st);
    }

    method AbortAll(c: Id, q: seq<Id>, ghost except: set<Id>, ghost hole: set<int>)
      requires Fresh() && c in msgs && c !in except && Plain(Snap(), except) && Inv(Snap(), except + {c}, hole)
      requires msgs[c].kind.ScanCancel?
      requires forall k :: k in q ==> k in msgs && msgs[k].kind == ScanRequest(msgs[c].kind.ticker)
      modifies this
      ensures Steady() && c in msgs && msgs[c] == old(msgs[c])
      ensures Plain(Snap(), except) && Inv(Snap(), except + {c}, hole)
      ensures Cancelled(old(Snap()), Snap(), c, msgs[c].kind.ticker)
      ensures forall j :: 0 <= j < |q| ==> Gone(Snap(), q[j])
      ensures Freed(old(Snap()), Snap(), msgs[c].kind.ticker)
      decreases false, |active|, Depth(Aborted), 5
    {
      hide Inv, Pre, StatePost, Cancelled, Plain, HoldsTicker, Fine, AbortedOr, Gone, Freed;
      ghost var s := Snap();
      NothingCancelled(s, c, msgs[c].kind.ticker);
      NothingFreed(s, msgs[c].kind.ticker);
      for i := 0 to |q|
        invariant Steady() && Plain(Snap(), except) && c in msgs && msgs[c] == s.msgs[c]
        invariant Cancelled(s, Snap(), c, s.msgs[c].kind.ticker) && Inv(Snap(), except + {c}, hole)
        invariant forall j :: 0 <= j < i ==> Gone(Snap(), q[j])
        invariant Freed(s, Snap(), s.msgs[c].kind.ticker)
        invariant |active| <= |s.active|
      {
        ghost var t := Snap();
        assert q[i] in q;
        Aborts(s, t, c, q[i], except, hole);
        var st := SetState(q[i], Aborted, except + {c}, hole);
        AbortedToo(s, t, Snap(), c, q[i], except, hole, st);
      }
    }

    // ---------------------------------------------------------------- the back-end at work

    /** Between two state changes; the messages in `except` are under construction. */
    ghost predicate Serving(except: set<Id>)
      reads this
    {
      && Fresh() && Inv(Snap(), except, {}) && Plain(Snap(), except)
      && Traced(Snap(), past, nextTicker, {})
    }

    ghost predicate Valid()
      reads this
    {
      Serving({})
    }

    constructor (fails: nat -> bool)
      ensures Valid() && Snap() == Store(map[], [], [], [], []) && this.fails == fails && nextTicker == 1
    {
      hide Inv, Traced, Plain;
      StartsValid();
      msgs, owned, marked, active, wire := map[], [], [], [], [];
      nextId, nextTicker, tickled, past := 0, 1, 0, Past({}, {});
      this.fails := fails;
    }

    /** current_owner() on an arriving message: its state is executed once more on this side. */
    method TakeOver(m: Id, ghost except: set<Id>)
      requires Fresh() && m in msgs && Pre(Snap(), m, msgs[m].now, except, {})
      modifies this
      ensures Steady() && m in msgs
      ensures StatePost(old(Snap()), Snap(), m, old(msgs[m].now), except, {}, msgs[m].now)
      ensures Resolved(old(Snap()), Snap(), m, old(msgs[m].now), fails)
    {
      hide Pre, StatePost, ExecPost, Inv;
      ghost var s := Snap();
      ghost var to := msgs[m].now;
      var st := ExecState(m, msgs[m].now, except, {});
      ghost var t := Snap();
      if st == msgs[m].now {
        Succeeds(s, t, m, to, except, {});
        SuccessResolves(s, t, m, to, except, {}, fails);
      } else {
        FailureFollows(s, t, m, to, except, {}, st);
        ghost var st1 := st;
        st := ExecState(m, st, except, Owed(s.msgs[m].kind, to, {}));
        FailureConcludes(s, t, Snap(), m, to, except, {}, st1, st);
        FailureResolves(s, t, Snap(), m, to, except, {}, st1, st, fails);
        Answers(s, Snap(), m, to, except, {}, st);
      }
    }

    method Draw(order: Order) returns (kind: Kind)
      modifies this
      ensures Snap() == old(Snap()) && nextId == old(nextId) && tickled == old(tickled)
      ensures nextTicker == old(nextTicker) + 1
      ensures kind == KindOf(order, old(nextTicker)) && past == Early(order, old(past), old(nextTicker))
    {
      kind := KindOf(order, nextTicker);
      past := Early(order, past, nextTicker);
      nextTicker := nextTicker + 1;
    }

    /** A client's request reaches the back-end, its command yet to be executed. */
    method Arrive(order: Order) returns (m: Id)
      requires Valid()
      modifies this
      ensures Valid() && tickled == old(tickled) && m !in old(msgs) && m in msgs
      ensures var r := Req(KindOf(order, old(nextTicker)), ExecCommand, Some(Initialized), false, false);
        && StatePost(Join(old(Snap()), m, r), Snap(), m, ExecCommand, {}, {}, msgs[m].now)
        && Resolved(Join(old(Snap()), m, r), Snap(), m, ExecCommand, fails)
      ensures Taken(old(Snap()), Snap(), m, order, fails)
      ensures past == Early(order, old(past), old(nextTicker)) && nextTicker == old(nextTicker) + 1
    {
      hide Inv, Plain, Pre, StatePost, Traced;
      ghost var s, seen, next := Snap(), past, nextTicker;
      TracedTickers(s, seen, next);
      var kind := Draw(order);
      m := Construct(Req(kind, ExecCommand, Some(Initialized), false, false));
      ghost var s1, r := Snap(), msgs[m];
      Joined(s, m, r, {});
      TakeOver(m, {});
      SameKinds(s1, Snap(), m, ExecCommand, {}, {}, msgs[m].now);
      TracedArrival(s, m, order, r, Snap(), {}, msgs[m].now, seen, next);
      NewIsTaken(s, m, r, Snap(), order, {}, msgs[m].now, fails);
    }

    /** The back-end's own request, executed at once. */
    method Submit(order: Order, ghost except: set<Id>) returns (m: Id)
      requires Serving(except)
      modifies this
      ensures Serving(except) && tickled == old(tickled) && m !in old(msgs) && m in msgs && owned == old(owned) + [m]
      ensures var r := Req(KindOf(order, old(nextTicker)), Initialized, Some(Initialized), true, false);
        StatePost(Join(old(Snap()), m, r), Snap(), m, ExecCommand, except, {}, msgs[m].now)
      ensures Taken(old(Snap()), Snap(), m, order, fails)
    {
      hide Inv, Plain, Pre, StatePost, Traced;
      ghost var s, seen, next := Snap(), past, nextTicker;
      TracedTickers(s, seen, next);
      InMessages(s, except);
      var kind := Draw(order);
      m := Construct(Req(kind, Initialized, Some(Initialized), true, false));
      ghost var s1, r := Snap(), msgs[m];
      Joined(s, m, r, except);
      var st := SetState(m, ExecCommand, except, {});
      Answers(s1, Snap(), m, ExecCommand, except, {}, st);
      SameKinds(s1, Snap(), m, ExecCommand, except, {}, msgs[m].now);
      TracedArrival(s, m, order, r, Snap(), except, msgs[m].now, seen, next);
      NewIsTaken(s, m, r, Snap(), order, except, msgs[m].now, fails);
    }

    /** A client cancels its subscription before that has got a slot. */
    method CancelWaiting(k: Id) returns (c: Id)
      requires Valid() && Snap().IsScan(k) && !msgs[k].mine && msgs[k].now == WaitForTransmit
      modifies this
      ensures Valid() && k in msgs && msgs[k].now == Aborted && !msgs[k].mine && k in marked
      ensures msgs[k].limited && msgs[k].kind == old(msgs[k]).kind
    {
      ghost var s := Snap();
      hide Inv, Traced, StatePost;
      c := Arrive(Unsubscribe(msgs[k].kind.ticker));
      ghost var r := Req(ScanCancel(s.msgs[k].kind.ticker), ExecCommand, Some(Initialized), false, false);
      WaitingGoesHome(s, c, r, Snap(), k, msgs[c].now);
    }

    /** The f_exec_command of a client's cancel message: it aborts the request it names, if that is here. */
    method RecallTarget(k: Id) returns (err: bool)
      requires Valid() && (k in msgs ==> !msgs[k].kind.Answer?)
      modifies this
      ensures Valid() && tickled == old(tickled) && old(wire) <= wire
      ensures k !in old(msgs) ==> err && Snap() == old(Snap())
      ensures k in old(msgs) ==> k in msgs && (err <==> msgs[k].now == Aborted)
      ensures k in old(msgs) && old(msgs[k]).now == Aborted ==> Snap() == old(Snap())
      ensures k in old(msgs) && old(msgs[k]).now != Aborted ==>
        StatePost(old(Snap()), Snap(), k, Aborted, {}, {}, msgs[k].now)
        && past == Robbing(old(past), Loot(old(Snap()), k))
    {
      hide Inv, Traced, StatePost, Pre, Plain;
      err := true;
      if k in msgs && msgs[k].now != Aborted {
        ghost var s := Snap();
        Recallable(s, k);
        var st := SetState(k, Aborted, {}, {});
        Answers(s, Snap(), k, Aborted, {}, {}, st);
        SameKinds(s, Snap(), k, Aborted, {}, {}, st);
        TracedRecall(s, Snap(), k, st, past, nextTicker);
        past := Robbing(past, Loot(s, k));
        err := st == Aborted;
      }
    }

    /** Once home-bound, a message is on its way, or the socket refuses it and it is owned and executed again. */
    ghost predicate SentOrBack(s: Store, m: Id, written: bool)
      reads this
      requires m in s.msgs
    {
      if written then Snap() == Leave(s, m)
      else
        && m in msgs && m in marked && Departing(msgs[m])
        && StatePost(Join(Leave(s, m), m, s.msgs[m]), Snap(), m, s.msgs[m].now, {}, {}, msgs[m].now)
    }

    /** One turn of pulse_marked_messages: destroyed, sent home, or taken back. */
    method PulseTurn(written: bool)
      requires Valid() && marked != []
      modifies this
      ensures Valid() && tickled == old(tickled) && old(wire) <= wire && old(marked[0]) in old(msgs)
      ensures Turned(old(Snap()), old(marked[0]), written)
      ensures past == if written || old(msgs[marked[0]]).mine || !Departing(old(msgs[marked[0]])) then old(past)
                      else Robbing(old(past), Loot(old(Snap()), old(marked[0])))
    {
      ghost var s := Snap();
      var m := marked[0];
      Marked(s);
      marked := marked[1..];
      hide Inv, HoldsTicker, Fine, Departing, Turned, Traced;
      Pulse(m, s, written);
    }

    ghost predicate Turned(s: Store, m: Id, written: bool)
      reads this
      requires m in s.msgs && s.marked != []
    {
      if !Departing(s.msgs[m]) then Snap() == s.(marked := s.marked[1..])
      else SentOrBack(s, m, written || s.msgs[m].mine)
    }

    /** pulse() on a message just taken off the list of `s`. */
    method Pulse(m: Id, ghost s: Store, written: bool)
      requires Fresh() && Inv(s, {}, {}) && m in s.msgs && s.marked != []
      requires Departing(s.msgs[m]) ==> m !in s.active
      requires !Departing(s.msgs[m]) ==> Inv(Snap(), {}, {})
      requires Traced(s, past, nextTicker, {})
      requires m !in marked && s == Snap().(marked := s.marked) && Without(s.marked, m) == marked == s.marked[1..]
      modifies this
      ensures Valid() && tickled == old(tickled) && s.wire <= wire && Turned(s, m, written)
      ensures past == if written || s.msgs[m].mine || !Departing(s.msgs[m]) then old(past)
                      else Robbing(old(past), Loot(s, m))
    {
      hide Inv, HoldsTicker, Fine, Traced;
      if msgs[m].now == Destruction && msgs[m].mine {
        PulseOwn(m);
        assert Snap() == Leave(s, m);
        Departed(s, m);
        TracedLeave(s, m, past, nextTicker);
      } else if Departing(msgs[m]) {
        SendHome(m, s, written);
      } else {
        TracedSame(s, Snap(), past, nextTicker);
      }
    }

    /** post_message to the requester's thread. */
    method SendHome(m: Id, ghost s: Store, written: bool)
      requires Fresh() && Inv(s, {}, {}) && m in s.msgs && m !in s.active && Departing(s.msgs[m]) && !s.msgs[m].mine
      requires Traced(s, past, nextTicker, {})
      requires m !in marked && s == Snap().(marked := s.marked) && Without(s.marked, m) == marked
      modifies this
      ensures Valid() && tickled == old(tickled) && s.wire <= wire && SentOrBack(s, m, written)
      ensures past == if written then old(past) else Robbing(old(past), Loot(s, m))
    {
      hide Inv, Traced, StatePost, Fine, HoldsTicker, Robbing, Loot, Pre;
      var r := msgs[m];
      owned := Without(owned, m);
      msgs := msgs - {m};
      assert Snap() == Leave(s, m);
      Departed(s, m);
      TracedLeave(s, m, past, nextTicker);
      if !written {
        msgs := msgs[m := r];
        owned := owned + [m];
        assert Snap() == Join(Leave(s, m), m, s.msgs[m]);
        Rejoined(s, m);
        TakeOver(m, {});
        Returned(s, Snap(), m);
        TracedRefused(s, Snap(), m, past, nextTicker);
      past := Robbing(past, Loot(s, m));
      }
    }

    /** pulse_marked_messages when every write succeeds: everybody who is to leave has left. */
    method DrainMarked()
      requires Valid()
      modifies this
      ensures Valid() && tickled == old(tickled) && wire == old(wire) && active == old(active) && marked == []
      ensures forall k :: k in msgs <==> k in old(msgs) && !Departing(old(msgs[k]))
      ensures forall k :: k in msgs ==> msgs[k] == old(msgs[k]) && Settled(msgs[k])
      ensures owned == Staying(old(Snap()), old(owned))
    {
      hide Inv, Plain, Departing, Settled, Staying, Traced;
      ghost var s := Snap();
      while marked != []
        invariant Valid() && tickled == old(tickled) && wire == old(wire) && active == old(active)
        invariant forall k :: k in msgs ==> k in old(msgs) && msgs[k] == old(msgs[k])
        invariant forall k :: k in old(msgs) && k !in msgs ==> Departing(old(msgs[k]))
        invariant Staying(s, owned) == Staying(s, s.owned)
        decreases |marked|
      {
        ghost var t := Snap();
        PulseTurn(true);
        StayingOn(s, t.owned, t.marked[0]);
      }
      NothingMarked(Snap());
      OwnedMessages(Snap());
      AllStaying(s, owned);
    }

    /** One visit; `next` is where the next round starts, moved past a request found in COMMENCE_TRANSMIT. */
    method Tickle(idx: nat, start: int, ghost s: Store, ghost visited: seq<Id>) returns (next: int)
      requires Valid() && idx < |owned|
      requires owned[idx] in msgs && owned[idx] in s.msgs && msgs[owned[idx]] == s.msgs[owned[idx]]
      requires Settled(msgs[owned[idx]]) && Swept(s, Snap(), visited)
      modifies this
      ensures Valid() && tickled == old(tickled) && owned == old(owned) && msgs.Keys == old(msgs).Keys
      ensures old(wire) <= wire && Swept(s, Snap(), visited + [owned[idx]]) && next == start
    {
      hide Inv, Traced;
      ghost var t := Snap();
      var m := owned[idx];
      next := start;
      match msgs[m].now {
        case WaitForTransmit =>
          Transmittable(t, m);
          hide Swept, StatePost;
          var st := SetState(m, CommenceTransmit, {}, {});
          if st == CommenceTransmit {
            next := idx + 1;
          }
          SameKinds(t, Snap(), m, CommenceTransmit, {}, {}, st);
          SweptOn(s, t, Snap(), visited, m, st);
          TracedTransmits(t, Snap(), m, st, past, nextTicker);
        case CommenceTransmit | ReadyToReceiveResponse | ResponsePending =>
        case ResponseComplete =>
          assert msgs[m].mine;
        case _ =>
          assert false;
      }
    }

    /**
      pulse_pending_issues: after the drain every owned request gets one visit, the waiting ones a chance to transmit.
     */
    method PulsePendingIssues() returns (ghost visited: seq<Id>)
      requires Valid()
      modifies this
      ensures Valid() && old(wire) <= wire && tickled == old(tickled)
      ensures visited == Rotated(owned, tickled)
      ensures forall k :: k in msgs <==> k in old(msgs) && !Departing(old(msgs[k]))
      ensures forall k :: k in msgs && old(msgs[k]).now != WaitForTransmit ==> msgs[k] == old(msgs[k])
      ensures forall k :: k in msgs && old(Snap()).IsScan(k) && old(msgs[k]).now == WaitForTransmit ==>
        Attempted(old(Snap()), Snap(), k)
      ensures forall k :: k in msgs && msgs[k].now == WaitForTransmit ==> |active| == MAX_SUBSCRIPTIONS
    {
      hide Inv, Traced, Plain, Departing, Settled, Staying;
      DrainMarked();
      visited := TickleAll();
    }

    method TickleAll() returns (ghost visited: seq<Id>)
      requires Valid() && Quiescent(Snap())
      modifies this
      ensures Valid() && old(wire) <= wire && tickled == old(tickled) && msgs.Keys == old(msgs).Keys
      ensures visited == Rotated(owned, tickled)
      ensures forall k :: k in msgs && old(msgs)[k].now != WaitForTransmit ==> msgs[k] == old(msgs)[k]
      ensures forall k :: old(Snap()).IsScan(k) && old(msgs)[k].now == WaitForTransmit ==>
        Attempted(old(Snap()), Snap(), k)
      ensures forall k :: k in msgs && msgs[k].now == WaitForTransmit ==> |active| == MAX_SUBSCRIPTIONS
    {
      visited := [];
      var start: int := tickled;
      ghost var s := Snap();
      assert Swept(s, s, []);
      hide Inv, Swept, HoldsTicker, Plain, Rotated, RotatedIndex, Quiescent, Settled, Traced;
      for i := 0 to |owned|
        invariant Valid() && tickled == old(tickled) && s.wire <= wire && owned == s.owned && msgs.Keys == s.msgs.Keys
        invariant start == tickled
        invariant visited == Rotated(owned, tickled)[..i]
        invariant Swept(s, Snap(), visited)
      {
        var idx := RotatedIndex(i, tickled, |owned|);
        Unvisited(s, Snap(), tickled, i);
        start := Tickle(idx, start, s, visited);
        visited := visited + [owned[idx]];
      }
      assert Rotated(owned, tickled)[..|owned|] == Rotated(owned, tickled);
      tickled := start;
      EveryoneVisited(s, Snap(), tickled);
    }

    // ---------------------------------------------------------------- responses from TWS

    /** A scanner subscription for every market scan of interest. */
    method SubscribeTo(scans: nat, ghost k: Id, ghost except: set<Id>)
      requires Serving(except) && k in msgs
      modifies this
      ensures Serving(except) && tickled == old(tickled) && k in msgs && msgs[k] == old(msgs[k])
      ensures Extends(old(Snap()), Snap(), k) && |owned| == |old(owned)| + scans
    {
      ghost var s := Snap();
      assert Extends(s, s, k);
      hide Inv, Plain, StatePost, Extends, Traced;
      for i := 0 to scans
        invariant Serving(except) && tickled == old(tickled) && k in msgs && msgs[k] == s.msgs[k]
        invariant Extends(s, Snap(), k) && |owned| == |s.owned| + i
      {
        ghost var t := Snap();
        var m := Submit(Subscribe, except);
        Submitted(s, t, Snap(), m, k, except);
      }
    }

    /** process_response_message of a request the response is meant for. */
    method ProcessResponse(k: Id, response: Response, ghost except: set<Id>)
      requires Serving(except) && k in msgs && k !in except && IsMeantFor(msgs[k], response)
      modifies this
      ensures Serving(except) && tickled == old(tickled)
      ensures Processed(old(Snap()), Snap(), k, response) && |owned| == |old(owned)| + Wanted(response)
    {
      hide Inv, Plain, StatePost, Extends, IsMeantFor, Pre, Traced;
      ghost var s := Snap();
      NothingNew(s, k);
      if response.ParametersXml? {
        SubscribeTo(response.scans, k, except);
      }
      var answer := Answered(msgs[k].kind, response);
      if answer.Some? {
        ghost var t := Snap();
        Concludes(t, k, response, except);
        var st := SetState(k, answer.value, except, {});
        SameKinds(t, Snap(), k, answer.value, except, {}, st);
        Concludeds(s, t, Snap(), k, response, except, st);
        TracedAnswer(t, Snap(), k, response, except, st, past, nextTicker);
      } else {
        Unanswered(s, Snap(), k, response);
      }
    }

    /** The snapshot: whoever says the response is meant for it. */
    method MeantByResponse(response: Response) returns (q: seq<Id>)
      requires Listed(Snap())
      ensures Snapshot(Snap(), q, response)
    {
      q := [];
      for i := 0 to |owned|
        invariant Distinct(q) && forall k :: k in q <==> k in owned[..i] && IsMeantFor(msgs[k], response)
      {
        assert owned[..i + 1] == owned[..i] + [owned[i]];
        assert owned[i] !in owned[..i];
        if IsMeantFor(msgs[owned[i]], response) {
          q := q + [owned[i]];
        }
      }
      assert owned[..|owned|] == owned;
    }

    /**
      scan_queue_and_process: the requests owned now, and meant, are processed one by one; then the response is done
      with.
     */
    method ScanQueueAndProcess(response: Response) returns (r: Id, ghost processed: seq<Id>)
      requires Valid()
      modifies this
      ensures Valid() && tickled == old(tickled) && old(wire) <= wire
      ensures Distinct(processed)
      ensures forall k :: k in processed <==> k in old(msgs) && IsMeantFor(old(msgs[k]), response)
      ensures forall k :: k in old(msgs) ==> k in msgs && OneProcessed(old(Snap()), Snap(), k, response)
      ensures r !in old(msgs) && r in msgs && msgs[r].now == Destruction && r in marked
      ensures |owned| == |old(owned)| + 1 + |processed| * if response.ParametersXml? then response.scans else 0
      ensures forall k :: k in msgs && k !in old(msgs) && k != r ==> msgs[k].kind.ScanRequest? && msgs[k].mine
    {
      hide Inv, Plain, StatePost, IsMeantFor, Answering, Fine, WellFormed, Pre, Snapshot, Distinct, Traced;
      ghost var s := Snap();
      r := Construct(REPLY);
      Received(s, r);
      TracedReply(s, r, past, nextTicker);
      ghost var s1 := Snap();
      var q := MeantByResponse(response);
      processed := AnswerAll(q, response, r);
      ghost var t := Snap();
      Concluding(s1, t, q, response, r);
      var st := SetState(r, Destruction, {}, {});
      SameKinds(t, Snap(), r, Destruction, {}, {}, st);
      AllAnswered(s, t, Snap(), q, response, r, st);
      TracedDone(t, Snap(), r, st, past, nextTicker);
    }

    method AnswerAll(q: seq<Id>, response: Response, ghost r: Id) returns (ghost processed: seq<Id>)
      requires Serving({r}) && r in msgs && msgs[r] == REPLY && Snapshot(Snap(), q, response)
      modifies this
      ensures Serving({r}) && tickled == old(tickled) && old(wire) <= wire
      ensures processed == q && Answering(old(Snap()), Snap(), q, |q|, response)
      ensures |owned| == |old(owned)| + |q| * Wanted(response)
    {
      hide Inv, Plain, Distinct, IsMeantFor, Answering, Snapshot, Processed, Wanted, Traced;
      ghost var wanted := Wanted(response);
      ghost var s := Snap();
      processed := [];
      NothingAnswered(s, q, response);
      for i := 0 to |q|
        invariant Serving({r}) && tickled == old(tickled) && s.wire <= wire
        invariant processed == q[..i] && Answering(s, Snap(), q, i, response)
        invariant |owned| == |s.owned| + i * wanted
      {
        assert (i + 1) * wanted == i * wanted + wanted;
        ghost var t := Snap();
        NextAnswered(s, t, q, i, response, r);
        ProcessResponse(q[i], response, {r});
        AnsweredOne(s, t, Snap(), q, i, response);
        processed := processed + [q[i]];
      }
      assert processed == q;
    }

    // ---------------------------------------------------------------- any run

    /** Whatever is asked, answered, refused and tickled, in any order: TWS never sees more than its limit. */
    method Serve(commands: seq<Command>)
      requires Valid()
      modifies this
      ensures Valid() && WithinLimit(wire) && old(wire) <= wire
      ensures forall k :: Snap().IsScan(k) && Departing(msgs[k]) ==>
        (msgs[k].limited <==> !Requested(Snap(), k) || msgs[k].kind.ticker in past.robbed)
      ensures past.robbed <= past.early
    {
      ghost var w := wire;
      hide Inv, Traced;
      for i := 0 to |commands|
        invariant Valid() && w <= wire
      {
        match commands[i]
        case HandOver(order) =>
          var m := Arrive(order);
        case Issue(order) =>
          var m := Submit(order, {});
        case Recall(target) =>
          if target in msgs && !msgs[target].kind.Answer? {
            var err := RecallTarget(target);
          }
        case Turn(written) =>
          if marked != [] {
            PulseTurn(written);
          }
        case Tickle =>
          var visited := PulsePendingIssues();
        case Respond(response) =>
          var r, processed := ScanQueueAndProcess(response);
      }
      assert WithinLimit(wire) by {
        SlotsAreLive(Snap());
      }
      forall k | Snap().IsScan(k) && Departing(msgs[k])
        ensures msgs[k].limited <==> !Requested(Snap(), k) || msgs[k].kind.ticker in past.robbed
      {
        LimiterGoesAlong(Snap(), k, past, nextTicker);
      }
      RobbedEarly(Snap(), past, nextTicker);
    }
  }

  /**
    An example: the eleventh subscription is cancelled while it waits, and leaves with the limiter still observing it.
   */
  method ElevenSubscriptions() returns (b: BackEnd, k: Id, ghost before: Store)
    ensures b.Valid() && k !in b.msgs
    ensures before.IsScan(k) && !before.msgs[k].mine && before.msgs[k].now == Aborted && before.msgs[k].limited
  {
    var accepted := n => false;
    b := new BackEnd(accepted);
    hide Inv, Traced, StatePost;
    for i := 0 to MAX_SUBSCRIPTIONS
      invariant fresh(b) && b.Valid() && |b.active| == i && b.fails == accepted
    {
      ghost var s, next := b.Snap(), b.nextTicker;
      var m := b.Arrive(Subscribe);
      ghost var r := Req(ScanRequest(next), ExecCommand, Some(Initialized), false, false);
      StrangersHoldNothing(s, m, {}, {});
      SlotTaken(Join(s, m, r), b.Snap(), m, b.msgs[m].now, b.fails);
    }
    ghost var s, next := b.Snap(), b.nextTicker;
    k := b.Arrive(Subscribe);
    ghost var r := Req(ScanRequest(next), ExecCommand, Some(Initialized), false, false);
    NoSlotLeft(Join(s, k, r), b.Snap(), k, b.msgs[k].now);
    var c := b.CancelWaiting(k);
    before := b.Snap();
    b.DrainMarked();
  }

  /**
    An example: a cancel arrives before the subscription it names, and is itself recalled once that is running; the
    subscription is aborted, and leaves with the limiter still observing it although it was requested of TWS.
   */
  method RobbedOfItsSlot() returns (b: BackEnd, k: Id, ghost before: Store)
    ensures b.Valid() && k !in b.msgs && before.IsScan(k) && !before.msgs[k].mine
    ensures before.msgs[k].now == Aborted && before.msgs[k].limited && Requested(before, k)
  {
    var accepted := n => false;
    b := new BackEnd(accepted);
    hide Inv, Traced, StatePost;
    var c := b.Arrive(Unsubscribe(2));
    ghost var s0 := b.Snap();
    ghost var q := Req(ScanCancel(2), ExecCommand, Some(Initialized), false, false);
    CancelArrived(Join(Store(map[], [], [], [], []), c, q), s0, c, b.msgs[c].now);
    k := b.Arrive(Subscribe);
    ghost var r := Req(ScanRequest(2), ExecCommand, Some(Initialized), false, false);
    SlotTaken(Join(s0, k, r), b.Snap(), k, b.msgs[k].now, b.fails);
    ghost var s := b.Snap();
    var err := b.RecallTarget(c);
    HolderAborted(s, b.Snap(), c, k, b.msgs[c].now);
    before := b.Snap();
    b.DrainMarked();
  }
}
