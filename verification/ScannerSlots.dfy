/**
 What the back-end knows about its requests, and the invariant that keeps TWS's limit of ten scanner
 subscriptions, also in the middle of a state change.
 */
module ScannerSlots {
  import opened Sequences
  import opened MessageStates

  type Id = nat

  /** The limit imposed by TWS. */
  const MAX_SUBSCRIPTIONS: nat := 10

  datatype Kind =
    | ScanRequest(ticker: int)
    | ScanCancel(ticker: int)
    | ScanParameters
    | CurrentTime
    | Answer

  /** A request the back-end owns; it is the receiver of them all, and the requester of those that are `mine`. */
  datatype Req = Req(
    kind: Kind,
    now: State,
    prev: Option<State>,
    mine: bool,
    limited: bool  // the limiter is registered as an observer
  )

  datatype Sent = ReqSent(ticker: int) | CancelSent(ticker: int) | OtherSent

  datatype Store = Store(
    msgs: map<Id, Req>,
    owned: seq<Id>,
    marked: seq<Id>,
    active: seq<Id>,   // the limiter's list of active subscriptions
    wire: seq<Sent>    // everything transmitted to TWS so far
  ) {
    predicate IsScan(m: Id) {
      m in msgs && msgs[m].kind.ScanRequest?
    }
  }

  // ------------------------------------------------------------------ the wire

  function Effect(open: set<int>, e: Sent): set<int> {
    if e.ReqSent? then open + {e.ticker} else if e.CancelSent? then open - {e.ticker} else open
  }

  /** The subscriptions requested and not cancelled since. */
  function Open(wire: seq<Sent>): set<int> {
    if wire == [] then {} else Effect(Open(wire[..|wire| - 1]), wire[|wire| - 1])
  }

  /** At no request did TWS see more than its limit. */
  ghost predicate WithinLimit(wire: seq<Sent>) {
    forall i :: 0 <= i < |wire| && wire[i].ReqSent? ==> |Open(wire[..i + 1])| <= MAX_SUBSCRIPTIONS
  }

  /** The tickers of the requests listed, at most one each. */
  function TickersOf(s: Store, ids: seq<Id>): (r: set<int>)
    ensures |r| <= |ids|
    ensures forall k :: k in ids && s.IsScan(k) ==> s.msgs[k].kind.ticker in r
  {
    if ids == [] then {}
    else TickersOf(s, ids[1..]) + if s.IsScan(ids[0]) then {s.msgs[ids[0]].kind.ticker} else {}
  }

  lemma WithinLimitMore(wire: seq<Sent>, e: Sent)
    requires WithinLimit(wire)
    requires e.ReqSent? ==> |Open(wire + [e])| <= MAX_SUBSCRIPTIONS
    ensures WithinLimit(wire + [e])
  {
    var w := wire + [e];
    forall i | 0 <= i < |w| && w[i].ReqSent? ensures |Open(w[..i + 1])| <= MAX_SUBSCRIPTIONS {
      if i < |wire| {
        assert w[..i + 1] == wire[..i + 1];
      } else {
        assert w[..i + 1] == w;
      }
    }
  }

  lemma OpenMore(wire: seq<Sent>, e: Sent)
    ensures Open(wire + [e]) == Effect(Open(wire), e)
  {
    assert (wire + [e])[..|wire|] == wire;
  }

  // ------------------------------------------------------------------ the invariant

  /** Subscribed, as the limiter's release path requires it: it cancels on TWS after these states only. */
  predicate Subscribed(r: Req) {
    && (r.now == ReadyToReceiveResponse || r.now == ResponsePending)
    && (r.prev == Some(CommenceTransmit) || r.prev == Some(ReadyToReceiveResponse) || r.prev == Some(ResponsePending))
  }

  predicate Concluded(st: State) {
    st in {ResponseComplete, TaskCompleted, Failed, Aborted, Destruction}
  }

  /** Nothing is left to do about the request before something else happens. */
  predicate Settled(r: Req) {
    || (r.now == WaitForTransmit && r.kind.ScanRequest?)
    || r.now == ReadyToReceiveResponse || r.now == ResponsePending
    || (r.now == ResponseComplete && r.mine)
  }

  ghost predicate Listed(s: Store) {
    && Distinct(s.owned) && Distinct(s.marked)
    && (forall k :: k in s.owned <==> k in s.msgs)
    && (forall k :: k in s.marked ==> k in s.msgs)
  }

  ghost predicate SlotsKept(s: Store, except: set<Id>) {
    && |s.active| <= MAX_SUBSCRIPTIONS && Distinct(s.active)
    && (forall k :: k in s.active ==> s.IsScan(k) && s.msgs[k].limited)
    && (forall k :: k in s.active && k !in except ==> Subscribed(s.msgs[k]))
  }

  ghost predicate TickersDistinct(s: Store) {
    forall j, k :: s.IsScan(j) && s.IsScan(k) && j != k ==> s.msgs[j].kind.ticker != s.msgs[k].kind.ticker
  }

  ghost predicate HoldsTicker(s: Store, t: int) {
    exists k :: k in s.active && s.IsScan(k) && s.msgs[k].kind.ticker == t
  }

  /** Every open subscription has its slot; those in `hole` have given theirs up and are about to be cancelled. */
  ghost predicate WireKept(s: Store, hole: set<int>) {
    && WithinLimit(s.wire)
    && (forall t :: t in Open(s.wire) && t !in hole ==> HoldsTicker(s, t))
  }

  /** pulse() destroys it, or sends it back to who requested it. */
  predicate Departing(r: Req) {
    r.now == Destruction || (Concluded(r.now) && !r.mine)
  }

  predicate Fine(s: Store, k: Id)
    requires k in s.msgs
  {
    && (Settled(s.msgs[k]) || (k in s.marked && Departing(s.msgs[k])))
    && (s.msgs[k].now == WaitForTransmit && s.msgs[k].kind.ScanRequest? ==> s.msgs[k].limited)
  }

  /** Only subscriptions and their cancels are observed; responses are the back-end's own. */
  predicate WellFormed(r: Req) {
    && (r.limited ==> r.kind.ScanRequest? || r.kind.ScanCancel?)
    && (r.kind.Answer? ==> r.mine)
  }

  /** `except`: requests in the middle of a state change. `hole`: subscriptions about to be cancelled on TWS. */
  ghost predicate Inv(s: Store, except: set<Id>, hole: set<int>) {
    && Listed(s) && SlotsKept(s, except) && TickersDistinct(s) && WireKept(s, hole)
    && (forall k :: k in s.msgs ==> WellFormed(s.msgs[k]))
    && (forall k :: k in s.msgs && k !in except ==> Fine(s, k))
  }

  // ------------------------------------------------------------------ single updates

  function Put(s: Store, m: Id, r: Req): Store {
    s.(msgs := s.msgs[m := r])
  }

  function Enter(s: Store, m: Id, st: State): Store
    requires m in s.msgs
  {
    Put(s, m, s.msgs[m].(prev := Some(s.msgs[m].now), now := st))
  }

  function Mark(s: Store, m: Id): Store {
    s.(marked := With(s.marked, m))
  }

  function Transmit(s: Store, e: Sent): Store {
    s.(wire := s.wire + [e])
  }

  /** A request in the middle of a change may be rewritten freely. */
  lemma PutInv(s: Store, m: Id, r: Req, except: set<Id>, hole: set<int>)
    requires Inv(s, except + {m}, hole) && m in s.msgs
    requires r.kind == s.msgs[m].kind && WellFormed(r) && (m in s.active ==> r.limited)
    ensures Inv(Put(s, m, r), except + {m}, hole)
  {
    hide Departing, Concluded, WellFormed, Settled, Distinct;
    var t := Put(s, m, r);
    assert forall k :: s.IsScan(k) == t.IsScan(k);
    assert forall x :: HoldsTicker(s, x) ==> HoldsTicker(t, x);
  }

  lemma MarkInv(s: Store, m: Id, except: set<Id>, hole: set<int>)
    requires Inv(s, except, hole) && m in s.msgs
    ensures Inv(Mark(s, m), except, hole)
  {
    WithDistinct(s.marked, m);
    assert forall x :: HoldsTicker(s, x) ==> HoldsTicker(Mark(s, m), x);
  }

  lemma SettleInv(s: Store, m: Id, except: set<Id>, hole: set<int>)
    requires Inv(s, except + {m}, hole) && m in s.msgs && Fine(s, m)
    requires m in s.active ==> Subscribed(s.msgs[m])
    ensures Inv(s, except, hole)
  {
  }

  lemma ExceptInv(s: Store, m: Id, except: set<Id>, hole: set<int>)
    requires Inv(s, except, hole)
    ensures Inv(s, except + {m}, hole)
  {
  }

  /** The limiter takes `h` off its list and stops observing `m`, on whose account it does so. */
  function Vacate(s: Store, m: Id, h: Id): Store
    requires m in s.msgs
  {
    Put(s, m, s.msgs[m].(limited := false)).(active := Without(s.active, h))
  }

  lemma VacateHolders(s: Store, m: Id, h: Id)
    requires m in s.msgs && s.IsScan(h)
    ensures forall x :: HoldsTicker(s, x) && x != s.msgs[h].kind.ticker ==> HoldsTicker(Vacate(s, m, h), x)
  {
    var t := Vacate(s, m, h);
    forall x | HoldsTicker(s, x) && x != s.msgs[h].kind.ticker ensures HoldsTicker(t, x) {
      var k :| k in s.active && s.IsScan(k) && s.msgs[k].kind.ticker == x;
      assert k in t.active && t.IsScan(k);
    }
  }

  lemma VacateInv(s: Store, m: Id, h: Id, except: set<Id>, hole: set<int>)
    requires Inv(s, except, hole) && h in s.active && h !in except
    requires m in s.msgs && (m == h || m !in s.active) && (s.IsScan(m) ==> m == h)
    ensures Inv(Vacate(s, m, h), except, hole + {s.msgs[h].kind.ticker})
    ensures h !in Vacate(s, m, h).active
  {
    hide HoldsTicker, Open, WithinLimit, Listed, TickersDistinct, SlotsKept, Fine;
    VacateSlots(s, m, h, except);
    VacateHolders(s, m, h);
    VacateRecords(s, m, h, except);
  }

  lemma VacateSlots(s: Store, m: Id, h: Id, except: set<Id>)
    requires SlotsKept(s, except) && h in s.active && h !in except
    requires m in s.msgs && (m == h || m !in s.active) && (s.IsScan(m) ==> m == h)
    ensures s.IsScan(h) && SlotsKept(Vacate(s, m, h), except) && h !in Vacate(s, m, h).active
  {
    WithoutDistinct(s.active, h);
  }

  /** The messages and their kinds are the same; `m` is at most less observed. */
  lemma VacateRecords(s: Store, m: Id, h: Id, except: set<Id>)
    requires Listed(s) && TickersDistinct(s) && m in s.msgs && h in s.active && (s.IsScan(m) ==> m == h)
    requires SlotsKept(s, except) && h !in except
    requires forall k :: k in s.msgs && k !in except ==> Fine(s, k)
    ensures Listed(Vacate(s, m, h)) && TickersDistinct(Vacate(s, m, h))
    ensures forall k :: k in s.msgs && k !in except ==> Fine(Vacate(s, m, h), k)
  {
    hide Distinct;
    var t := Vacate(s, m, h);
    forall k | k in t.msgs && k !in except ensures Fine(t, k) {
      assert Fine(s, k);
    }
  }

  function Admit(s: Store, m: Id): Store {
    s.(active := s.active + [m])
  }

  lemma AdmitInv(s: Store, m: Id, except: set<Id>, hole: set<int>)
    requires Inv(s, except + {m}, hole) && s.IsScan(m) && s.msgs[m].limited
    requires m !in s.active && |s.active| < MAX_SUBSCRIPTIONS
    ensures Inv(Admit(s, m), except + {m}, hole)
  {
    var t := Admit(s, m);
    forall x | HoldsTicker(s, x) ensures HoldsTicker(t, x) {
      var k :| k in s.active && s.IsScan(k) && s.msgs[k].kind.ticker == x;
      assert k in t.active;
    }
  }

  lemma HeldTickers(s: Store, open: set<int>)
    requires forall x :: x in open ==> HoldsTicker(s, x)
    ensures |open| <= |s.active|
  {
    var held := TickersOf(s, s.active);
    forall x | x in open ensures x in held {
      assert HoldsTicker(s, x);
    }
    SubsetSize(open, held);
  }

  lemma RequestHeld(s: Store, m: Id)
    requires forall x :: x in Open(s.wire) ==> HoldsTicker(s, x)
    requires m in s.active && s.IsScan(m)
    ensures var t := Transmit(s, ReqSent(s.msgs[m].kind.ticker));
      forall x :: x in Open(t.wire) ==> HoldsTicker(t, x)
  {
    var t := Transmit(s, ReqSent(s.msgs[m].kind.ticker));
    OpenMore(s.wire, ReqSent(s.msgs[m].kind.ticker));
    forall x | x in Open(t.wire) ensures HoldsTicker(t, x) {
      if x in Open(s.wire) {
        assert HoldsTicker(s, x);
        var k :| k in s.active && s.IsScan(k) && s.msgs[k].kind.ticker == x;
        assert k in t.active && t.IsScan(k);
      } else {
        assert m in t.active && t.IsScan(m);
      }
    }
  }

  /** A subscription is requested of TWS by a holder of a slot, and never while a cancel is owed. */
  lemma RequestInv(s: Store, m: Id, except: set<Id>)
    requires Inv(s, except, {}) && m in s.active
    ensures Inv(Transmit(s, ReqSent(s.msgs[m].kind.ticker)), except, {})
  {
    var e := ReqSent(s.msgs[m].kind.ticker);
    var t := Transmit(s, e);
    RequestHeld(s, m);
    HeldTickers(t, Open(t.wire));
    WithinLimitMore(s.wire, e);
    hide HoldsTicker;
  }

  /** The cancel settles what is owed for its ticker. */
  lemma CancelInv(s: Store, ticker: int, except: set<Id>, hole: set<int>)
    requires Inv(s, except, hole)
    ensures Inv(Transmit(s, CancelSent(ticker)), except, hole - {ticker})
  {
    var t := Transmit(s, CancelSent(ticker));
    OpenMore(s.wire, CancelSent(ticker));
    WithinLimitMore(s.wire, CancelSent(ticker));
    assert forall x :: HoldsTicker(s, x) ==> HoldsTicker(t, x);
  }

  lemma OtherInv(s: Store, except: set<Id>, hole: set<int>)
    requires Inv(s, except, hole)
    ensures Inv(Transmit(s, OtherSent), except, hole)
  {
    var t := Transmit(s, OtherSent);
    OpenMore(s.wire, OtherSent);
    WithinLimitMore(s.wire, OtherSent);
    assert forall x :: HoldsTicker(s, x) ==> HoldsTicker(t, x);
  }

  function Join(s: Store, m: Id, r: Req): Store {
    s.(msgs := s.msgs[m := r], owned := s.owned + [m])
  }

  lemma JoinInv(s: Store, m: Id, r: Req, except: set<Id>, hole: set<int>)
    requires Inv(s, except, hole) && m !in s.msgs && WellFormed(r)
    requires r.kind.ScanRequest? ==> forall k :: s.IsScan(k) ==> s.msgs[k].kind.ticker != r.kind.ticker
    ensures Inv(Join(s, m, r), except + {m}, hole)
  {
    hide HoldsTicker, Open, WithinLimit;
    var t := Join(s, m, r);
    assert m !in s.owned;
    forall k | k in t.msgs && k !in except + {m} ensures Fine(t, k) {
      assert Fine(s, k);
    }
    JoinHolders(s, m, r);
  }

  lemma JoinHolders(s: Store, m: Id, r: Req)
    requires m !in s.msgs
    ensures forall x :: HoldsTicker(s, x) ==> HoldsTicker(Join(s, m, r), x)
  {
    var t := Join(s, m, r);
    forall x | HoldsTicker(s, x) ensures HoldsTicker(t, x) {
      var k :| k in s.active && s.IsScan(k) && s.msgs[k].kind.ticker == x;
      assert k in t.active && t.IsScan(k);
    }
  }

  function Leave(s: Store, m: Id): Store {
    s.(msgs := s.msgs - {m}, owned := Without(s.owned, m), marked := Without(s.marked, m))
  }

  lemma LeaveInv(s: Store, m: Id, except: set<Id>, hole: set<int>)
    requires Inv(s, except + {m}, hole) && m in s.msgs && m !in s.active
    ensures Inv(Leave(s, m), except, hole)
  {
    var t := Leave(s, m);
    WithoutDistinct(s.owned, m);
    WithoutDistinct(s.marked, m);
    forall k | k in t.msgs && k !in except ensures Fine(t, k) {
      assert Fine(s, k);
    }
    forall x | HoldsTicker(s, x) ensures HoldsTicker(t, x) {
      var k :| k in s.active && s.IsScan(k) && s.msgs[k].kind.ticker == x;
      assert k in t.active && t.IsScan(k);
    }
  }

  lemma HoleInv(s: Store, except: set<Id>, hole: set<int>, more: set<int>)
    requires Inv(s, except, hole) && hole <= more
    ensures Inv(s, except, more)
  {
  }

  // ------------------------------------------------------------------ what one state change may touch

  /** Only `m` changes; the lists grow or stay, and what was sent stays sent. */
  ghost predicate Others(s: Store, t: Store, m: Id) {
    && t.msgs.Keys == s.msgs.Keys && t.owned == s.owned && s.wire <= t.wire
    && (forall k :: k in s.marked ==> k in t.marked)
    && (forall k :: k in s.msgs && k != m ==> t.msgs[k] == s.msgs[k])
    && (m in s.msgs ==> t.msgs[m].kind == s.msgs[m].kind && t.msgs[m].mine == s.msgs[m].mine)
  }

  lemma OthersThen(s: Store, t: Store, u: Store, m: Id)
    requires Others(s, t, m) && Others(t, u, m)
    ensures Others(s, u, m)
  {
  }

  /** A request meant to be cancelled is left alone or aborted for good. */
  predicate AbortedOr(r: Req, now: Req) {
    now == r || now.now == Aborted || (now.now == Destruction && r.mine)
  }

  /** A cancel for `ticker` touches the requests it is meant for, and leaves the slots to all others. */
  ghost predicate Cancelled(s: Store, t: Store, c: Id, ticker: int) {
    && SameLists(s, t) && OnlyMeant(s, t, c, ticker)
    && |t.active| <= |s.active| && (forall k :: k in t.active ==> k in s.active)
    && (forall k :: k in s.active && k in s.msgs && s.msgs[k].kind != ScanRequest(ticker) ==> k in t.active)
    && (!HoldsTicker(s, ticker) ==> t.active == s.active)
  }

  /** The same messages; marks and what was sent stay. */
  ghost predicate SameLists(s: Store, t: Store) {
    && t.msgs.Keys == s.msgs.Keys && t.owned == s.owned && s.wire <= t.wire
    && (forall k :: k in s.marked ==> k in t.marked)
  }

  /** Nobody but the holder of a slot loses the limiter as its observer. */
  predicate ObserverKept(s: Store, t: Store, k: Id)
    requires k in s.msgs && k in t.msgs
  {
    && (t.msgs[k].limited ==> s.msgs[k].limited)
    && (k !in s.active ==> t.msgs[k].limited == s.msgs[k].limited)
  }

  ghost predicate OnlyMeant(s: Store, t: Store, c: Id, ticker: int) {
    forall k :: k in s.msgs ==>
      && k in t.msgs && t.msgs[k].kind == s.msgs[k].kind && t.msgs[k].mine == s.msgs[k].mine
      && (k != c ==>
            && AbortedOr(s.msgs[k], t.msgs[k]) && ObserverKept(s, t, k)
            && (s.msgs[k].kind != ScanRequest(ticker) ==> t.msgs[k] == s.msgs[k]))
  }

  lemma CancelledThen(s: Store, t: Store, u: Store, c: Id, ticker: int)
    requires Cancelled(s, t, c, ticker) && Cancelled(t, u, c, ticker)
    ensures Cancelled(s, u, c, ticker)
  {
    assert !HoldsTicker(s, ticker) ==> !HoldsTicker(t, ticker);
  }

  lemma OthersCancelled(s: Store, t: Store, c: Id, m: Id, ticker: int)
    requires Others(s, t, m) && m in s.msgs && (m == c || s.msgs[m].kind == ScanRequest(ticker))
    requires |t.active| <= |s.active| && (forall k :: k in t.active ==> k in s.active)
    requires t.active == s.active || HoldsTicker(s, ticker)
    requires forall k :: k in s.active && k != m ==> k in t.active
    requires m == c ==> t.active == s.active
    requires m == c || (AbortedOr(s.msgs[m], t.msgs[m]) && ObserverKept(s, t, m))
    ensures Cancelled(s, t, c, ticker)
  {
  }
}
