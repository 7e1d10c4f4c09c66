/**
 What the traffic with TWS tells about the requests at hand: who has held a slot, and who is still observed.
 */
module ScannerHistory {
  import opened Sequences
  import opened MessageStates
  import opened ScannerSlots
  import opened ScannerContracts

  /** A slot is held no earlier and no later than the request is sent. */
  predicate Requested(s: Store, k: Id)
    requires s.IsScan(k)
  {
    ReqSent(s.msgs[k].kind.ticker) in s.wire
  }

  predicate IsCancel(s: Store, c: Id) {
    c in s.msgs && s.msgs[c].kind.ScanCancel?
  }

  predicate Matching(s: Store, c: Id, k: Id) {
    IsCancel(s, c) && s.IsScan(k) && s.msgs[c].kind.ticker == s.msgs[k].kind.ticker
  }

  /**
   What has become of tickers: `early`, those that a cancel named before they were drawn; `robbed`, those whose
   subscription lost its slot when such a cancel concluded.
   */
  datatype Past = Past(early: set<int>, robbed: set<int>)

  /** The limiter observes exactly those that never held a slot, those that hold one and those robbed of theirs. */
  predicate Observed(s: Store, k: Id, past: Past)
    requires s.IsScan(k)
  {
    s.msgs[k].limited <==> !Requested(s, k) || k in s.active || s.msgs[k].kind.ticker in past.robbed
  }

  ghost predicate Traced(s: Store, past: Past, next: int, except: set<Id>) {
    && (forall ticker :: ReqSent(ticker) in s.wire ==> ticker < next)
    && (forall k :: s.IsScan(k) ==> s.msgs[k].kind.ticker < next)
    && (forall c :: IsCancel(s, c) ==> s.msgs[c].kind.ticker < next || s.msgs[c].kind.ticker in past.early)
    && past.robbed <= past.early && (forall ticker :: ticker in past.robbed ==> ReqSent(ticker) in s.wire)
    && (forall k :: s.IsScan(k) && k in s.active ==> Requested(s, k) && s.msgs[k].kind.ticker !in past.robbed)
    && (forall k :: s.IsScan(k) && s.msgs[k].kind.ticker in past.robbed ==> Concluded(s.msgs[k].now))
    && (forall k :: s.IsScan(k) && k !in except ==> Observed(s, k, past))
    && (forall c, k :: Matching(s, c, k) && c !in except && k !in except && s.msgs[k].kind.ticker !in past.early ==>
          Concluded(s.msgs[k].now))
  }

  // ------------------------------------------------------------------ every change keeps it

  /** The traffic since is about `ticker` alone. */
  ghost predicate NewsAbout(s: Store, t: Store, ticker: int) {
    s.wire <= t.wire && forall x :: ReqSent(x) in News(s, t) ==> x == ticker
  }

  lemma SameRequests(s: Store, t: Store, ticker: int)
    requires NewsAbout(s, t, ticker)
    ensures forall x :: x != ticker ==> (ReqSent(x) in t.wire <==> ReqSent(x) in s.wire)
    ensures ReqSent(ticker) in t.wire <==> ReqSent(ticker) in s.wire || ReqSent(ticker) in News(s, t)
  {
    assert t.wire == s.wire + News(s, t);
  }

  lemma TracedMore(s: Store, past: Past, next: int, past': Past, next': int, except: set<Id>)
    requires Traced(s, past, next, except) && next <= next'
    requires past.early <= past'.early && past'.robbed == past.robbed
    ensures Traced(s, past', next', except)
  {
  }

  lemma TracedJoin(s: Store, m: Id, r: Req, past: Past, next: int)
    requires Traced(s, past, next, {}) && m !in s.msgs && m !in s.active
    requires r.kind.ScanRequest? ==> r.kind.ticker < next && ReqSent(r.kind.ticker) !in s.wire
    requires r.kind.ScanCancel? ==> r.kind.ticker < next || r.kind.ticker in past.early
    ensures Traced(Join(s, m, r), past, next, {m})
    ensures !r.kind.ScanRequest? && !r.kind.ScanCancel? ==> Traced(Join(s, m, r), past, next, {})
  {
    var t := Join(s, m, r);
    forall k | t.IsScan(k) && k != m ensures Observed(t, k, past) {
      assert Observed(s, k, past);
    }
    forall c, k | Matching(t, c, k) && c != m && k != m && t.msgs[k].kind.ticker !in past.early
      ensures Concluded(t.msgs[k].now)
    {
      assert Matching(s, c, k);
    }
  }

  lemma TracedLeave(s: Store, m: Id, past: Past, next: int)
    requires Traced(s, past, next, {}) && m !in s.active
    ensures Traced(Leave(s, m), past, next, {})
  {
    var t := Leave(s, m);
    forall k | t.IsScan(k) ensures Observed(t, k, past) {
      assert Observed(s, k, past);
    }
    forall c, k | Matching(t, c, k) && t.msgs[k].kind.ticker !in past.early ensures Concluded(t.msgs[k].now) {
      assert Matching(s, c, k);
    }
  }

  lemma TracedSame(s: Store, t: Store, past: Past, next: int)
    requires Traced(s, past, next, {}) && t.msgs == s.msgs && t.active == s.active && t.wire == s.wire
    ensures Traced(t, past, next, {})
  {
    forall k | t.IsScan(k) ensures Observed(t, k, past) {
      assert Observed(s, k, past);
    }
    forall c, k | Matching(t, c, k) && t.msgs[k].kind.ticker !in past.early ensures Concluded(t.msgs[k].now) {
      assert Matching(s, c, k);
    }
  }

  lemma OthersRequested(s: Store, t: Store, m: Id)
    requires Others(s, t, m) && TickersDistinct(s) && m in s.msgs
    requires if s.IsScan(m) then NewsAbout(s, t, s.msgs[m].kind.ticker)
             else s.wire <= t.wire && forall x :: ReqSent(x) !in News(s, t)
    ensures forall x :: ReqSent(x) in t.wire ==> ReqSent(x) in s.wire || (s.IsScan(m) && x == s.msgs[m].kind.ticker)
    ensures forall x :: ReqSent(x) in s.wire ==> ReqSent(x) in t.wire
    ensures forall k :: s.IsScan(k) && k != m ==> t.IsScan(k) && (Requested(t, k) <==> Requested(s, k))
  {
    assert t.wire == s.wire + News(s, t);
  }

  /** Only `m` has changed, and the traffic is about it: what is left to show is about `m`. */
  lemma TracedOthers(s: Store, t: Store, m: Id, past: Past, next: int)
    requires Traced(s, past, next, {m}) && Others(s, t, m) && TickersDistinct(s) && m in s.msgs && m in t.msgs
    requires forall k :: k != m ==> (k in t.active <==> k in s.active)
    requires if s.IsScan(m) then NewsAbout(s, t, s.msgs[m].kind.ticker)
             else s.wire <= t.wire && forall x :: ReqSent(x) !in News(s, t)
    requires t.IsScan(m) && m in t.active ==> Requested(t, m) && t.msgs[m].kind.ticker !in past.robbed
    requires t.IsScan(m) ==> Observed(t, m, past) && (t.msgs[m].kind.ticker in past.robbed ==> Concluded(t.msgs[m].now))
    requires forall c, k :: Matching(t, c, k) && (c == m || k == m) && t.msgs[k].kind.ticker !in past.early ==>
      Concluded(t.msgs[k].now)
    ensures Traced(t, past, next, {})
  {
    hide News;
    OthersRequested(s, t, m);
    forall k | t.IsScan(k) ensures Observed(t, k, past) {
      if k != m {
        assert Observed(s, k, past);
      }
    }
    forall c, k | Matching(t, c, k) && t.msgs[k].kind.ticker !in past.early ensures Concluded(t.msgs[k].now) {
      if c != m && k != m {
        assert Matching(s, c, k);
      }
    }
  }

  /** The admission of a subscription that has not been requested yet. */
  lemma TracedAdmits(
    s: Store, t: Store, m: Id, to: State, except: set<Id>, hole: set<int>, st: State, past: Past, next: int)
    requires Traced(s, past, next, {m}) && s.IsScan(m) && m !in s.active && TickersDistinct(s)
    requires !Requested(s, m) && forall c :: Matching(s, c, m) ==> s.msgs[m].kind.ticker in past.early
    requires Admitting(s.msgs[m].kind, to) && StatePost(s, t, m, to, except, hole, st) && m !in except
    ensures Traced(t, past, next, {})
  {
    WaitingIsLimited(t, m, except, Owed(s.msgs[m].kind, to, hole));
    HolderIsLimited(t, m, except, Owed(s.msgs[m].kind, to, hole));
    AdmissionFacts(s, t, m, to, except, hole, st);
    hide Inv, StatePost, Others, TickersDistinct;
    SameRequests(s, t, s.msgs[m].kind.ticker);
    SameMatches(s, t, m);
    TracedOthers(s, t, m, past, next);
  }

  lemma SameMatches(s: Store, t: Store, m: Id)
    requires Others(s, t, m) && s.IsScan(m)
    ensures forall c :: Matching(t, c, m) ==> Matching(s, c, m)
  {
  }

  lemma AdmissionFacts(s: Store, t: Store, m: Id, to: State, except: set<Id>, hole: set<int>, st: State)
    requires s.IsScan(m) && m !in s.active && Admitting(s.msgs[m].kind, to) && StatePost(s, t, m, to, except, hole, st)
    ensures Others(s, t, m) && t.IsScan(m) && t.msgs[m].kind == s.msgs[m].kind
    ensures NewsAbout(s, t, s.msgs[m].kind.ticker) && (forall k :: k != m ==> (k in t.active <==> k in s.active))
    ensures m in t.active <==> t.msgs[m].now == ReadyToReceiveResponse
    ensures t.msgs[m].now in {WaitForTransmit, ReadyToReceiveResponse, Failed, Destruction}
    ensures t.msgs[m].now in {Failed, Destruction} ==> !t.msgs[m].limited
    ensures ReqSent(s.msgs[m].kind.ticker) in News(s, t) <==> t.msgs[m].now != WaitForTransmit
  {
    hide Inv;
  }

  lemma WaitingIsLimited(t: Store, m: Id, except: set<Id>, hole: set<int>)
    requires Inv(t, except, hole) && t.IsScan(m) && m !in except
    ensures t.msgs[m].now == WaitForTransmit ==> t.msgs[m].limited
  {
    assert Fine(t, m);
  }

  lemma HolderIsLimited(t: Store, m: Id, except: set<Id>, hole: set<int>)
    requires Inv(t, except, hole) && t.IsScan(m)
    ensures m in t.active ==> t.msgs[m].limited
  {
  }

  /** A subscription that concludes loses the limiter with its slot, or keeps it for want of one. */
  lemma TracedConcludes(
    s: Store, t: Store, m: Id, to: State, except: set<Id>, hole: set<int>, st: State, past: Past, next: int)
    requires Traced(s, past, next, {}) && s.IsScan(m) && TickersDistinct(s) && Distinct(s.active)
    requires Concluded(to) && StatePost(s, t, m, to, except, hole, st)
    ensures Traced(t, past, next, {})
  {
    hide Inv, Distinct;
    WithoutDistinct(s.active, m);
    assert Observed(s, m, past);
    assert t.wire == s.wire + News(s, t);
    assert Requested(t, m) <==> Requested(s, m);
    TracedOthers(s, t, m, past, next);
  }

  lemma TracedPlain(
    s: Store, t: Store, m: Id, to: State, except: set<Id>, hole: set<int>, st: State, past: Past, next: int)
    requires Traced(s, past, next, {}) && m in s.msgs && TickersDistinct(s)
    requires !s.msgs[m].kind.ScanRequest? && !s.msgs[m].kind.ScanCancel?
    requires StatePost(s, t, m, to, except, hole, st)
    ensures Traced(t, past, next, {})
  {
    hide Inv;
    TracedOthers(s, t, m, past, next);
  }

  // ------------------------------------------------------------------ cancels

  lemma SameRequested(s: Store, t: Store)
    requires s.wire <= t.wire && forall x :: ReqSent(x) !in News(s, t)
    ensures forall x :: ReqSent(x) in t.wire <==> ReqSent(x) in s.wire
  {
    assert t.wire == s.wire + News(s, t);
  }

  lemma AbortsObserved(
      s: Store, t: Store, c: Id, ticker: int, past: Past, past': Past, next: int, except: set<Id>)
    requires Traced(s, past, next, except) && Cancelled(s, t, c, ticker)
    requires c in s.msgs && s.msgs[c].kind == ScanCancel(ticker) && except <= {c}
    requires forall x :: ReqSent(x) in t.wire <==> ReqSent(x) in s.wire
    requires past.robbed <= past'.robbed <= past.robbed + {ticker}
    requires forall k :: Holding(s, k, ticker) ==>
      k in t.msgs && (t.msgs[k].limited <==> k in t.active || ticker in past'.robbed)
    requires forall k :: s.IsScan(k) && s.msgs[k].kind.ticker == ticker && ticker in past'.robbed ==>
      k in s.active || ticker in past.robbed
    ensures forall k :: t.IsScan(k) ==> Observed(t, k, past')
  {
    hide HoldsTicker;
    forall k | t.IsScan(k) ensures Observed(t, k, past') {
      assert Observed(s, k, past);
      if s.msgs[k].kind.ticker == ticker && k in s.active {
        assert Holding(s, k, ticker) && Requested(s, k);
      }
    }
  }

  /** A cancel touches the requests with its ticker alone, and TWS is told of cancels alone. */
  lemma TracedAborts(
      s: Store, t: Store, c: Id, ticker: int, past: Past, past': Past, next: int, except: set<Id>)
    requires Traced(s, past, next, except) && Cancelled(s, t, c, ticker) && s.wire <= t.wire
    requires c in s.msgs && s.msgs[c].kind == ScanCancel(ticker) && except <= {c}
    requires forall x :: ReqSent(x) !in News(s, t)
    requires past'.early == past.early && past.robbed <= past'.robbed <= past.robbed + {ticker}
    requires past'.robbed <= past.early
    requires ticker in past'.robbed && ticker !in past.robbed ==> ReqSent(ticker) in s.wire && AllAborted(t, ticker)
    requires forall k :: Holding(s, k, ticker) ==>
      && k in t.msgs && (k in t.active ==> ticker !in past'.robbed)
      && (t.msgs[k].limited <==> k in t.active || ticker in past'.robbed)
    requires forall k :: s.IsScan(k) && s.msgs[k].kind.ticker == ticker && ticker in past'.robbed ==>
      k in s.active || ticker in past.robbed
    requires forall k :: s.IsScan(k) && s.msgs[k].kind.ticker == ticker && ticker !in past.early ==>
      Concluded(t.msgs[k].now)
    ensures Traced(t, past', next, {})
  {
    hide HoldsTicker, News, Observed;
    SameRequested(s, t);
    AbortsObserved(s, t, c, ticker, past, past', next, except);
    forall k | t.IsScan(k) && k in t.active ensures Requested(t, k) && t.msgs[k].kind.ticker !in past'.robbed {
      assert t.msgs[k].kind.ticker == ticker ==> Holding(s, k, ticker);
    }
    forall d, k | Matching(t, d, k) && t.msgs[k].kind.ticker !in past.early ensures Concluded(t.msgs[k].now) {
      if t.msgs[k].kind.ticker != ticker {
        assert Matching(s, d, k) && t.msgs[k] == s.msgs[k];
      }
    }
  }

  predicate Holding(s: Store, k: Id, ticker: int) {
    s.IsScan(k) && k in s.active && s.msgs[k].kind.ticker == ticker
  }

  /** A cancel is executed. */
  lemma TracedCancels(s: Store, t: Store, c: Id, except: set<Id>, hole: set<int>, st: State, past: Past, next: int)
    requires Traced(s, past, next, {c}) && IsCancel(s, c) && StatePost(s, t, c, ExecCommand, except, hole, st)
    ensures Traced(t, past, next, {})
  {
    hide Inv;
    TracedAborts(s, t, c, s.msgs[c].kind.ticker, past, past, next, {c});
  }

  /** The ticker whose subscription loses its slot when the cancel concludes, if there is one. */
  ghost function Loot(s: Store, c: Id): set<int> {
    if IsCancel(s, c) && s.msgs[c].limited && HoldsTicker(s, s.msgs[c].kind.ticker) then {s.msgs[c].kind.ticker} else {}
  }

  function Robbing(past: Past, loot: set<int>): Past {
    past.(robbed := past.robbed + loot)
  }

  lemma NoLoot(s: Store, m: Id, past: Past)
    requires !IsCancel(s, m)
    ensures Robbing(past, Loot(s, m)) == past
  {
    assert past.robbed + {} == past.robbed;
  }

  lemma SameLoot(s: Store, t: Store, m: Id)
    requires t.msgs == s.msgs && t.active == s.active
    ensures Loot(t, m) == Loot(s, m)
  {
  }

  /** A cancel that is concluded once more: recalled, failed by TWS, or back from a write that failed. */
  lemma TracedCancelEnds(
      s: Store, t: Store, c: Id, to: State, except: set<Id>, hole: set<int>, st: State, past: Past, next: int)
    requires Traced(s, past, next, {}) && IsCancel(s, c) && Concluded(to) && StatePost(s, t, c, to, except, hole, st)
    requires TickersDistinct(s) && forall k :: k in s.active && k in s.msgs ==> !Concluded(s.msgs[k].now)
    ensures Traced(t, Robbing(past, Loot(s, c)), next, {})
  {
    hide Inv, SameLists, Admission;
    HoldersScan(t, except, Owed(s.msgs[c].kind, to, hole));
    var ticker := s.msgs[c].kind.ticker;
    assert forall k :: Matching(s, c, k) && ticker !in past.early ==> Concluded(s.msgs[k].now);
    TracedAborts(s, t, c, ticker, past, Robbing(past, Loot(s, c)), next, {});
  }

  // ------------------------------------------------------------------ the back-end's steps

  /** An order names a ticker before it is drawn, or does not. */
  function Early(order: Order, past: Past, next: int): Past {
    if order.Unsubscribe? && order.ticker >= next then past.(early := past.early + {order.ticker}) else past
  }

  lemma TracedArrival(
      s: Store, m: Id, order: Order, r: Req, t: Store, except: set<Id>, st: State, past: Past, next: int)
    requires Traced(s, past, next, {}) && Inv(s, except, {}) && m !in s.msgs && m !in except
    requires Inv(Join(s, m, r), except + {m}, {}) && r.kind == KindOf(order, next)
    requires StatePost(Join(s, m, r), t, m, ExecCommand, except, {}, st)
    ensures Traced(t, Early(order, past, next), next + 1, {})
  {
    var past' := Early(order, past, next);
    var s1 := Join(s, m, r);
    ArrivalFacts(s, m, order, r, except, past, next);
    hide Inv, StatePost, TickersDistinct, Traced, Requested;
    match order
    case Subscribe =>
      TracedAdmits(s1, t, m, ExecCommand, except, {}, st, past', next + 1);
    case Unsubscribe(_) =>
      TracedCancels(s1, t, m, except, {}, st, past', next + 1);
    case _ =>
      TracedPlain(s1, t, m, ExecCommand, except, {}, st, past', next + 1);
  }

  /** A subscription just drawn has not been requested, and no cancel knows its ticker, unless by chance. */
  lemma ArrivalFacts(s: Store, m: Id, order: Order, r: Req, except: set<Id>, past: Past, next: int)
    requires Traced(s, past, next, {}) && Inv(s, except, {}) && m !in s.msgs
    requires Inv(Join(s, m, r), except + {m}, {}) && r.kind == KindOf(order, next)
    ensures var t, past' := Join(s, m, r), Early(order, past, next);
      && Traced(t, past', next + 1, {m}) && m !in t.active && TickersDistinct(t)
      && (!order.Subscribe? && !order.Unsubscribe? ==> Traced(t, past', next + 1, {}))
      && (order.Subscribe? ==> !Requested(t, m) && forall c :: Matching(t, c, m) ==> next in past'.early)
  {
    hide Inv, TickersDistinct, Observed;
    var t, past' := Join(s, m, r), Early(order, past, next);
    TickersApart(t, except + {m}, {});
    StrangersHoldNothing(s, m, except, {});
    if order.Subscribe? {
      forall c | Matching(t, c, m) ensures next in past'.early {
        assert IsCancel(s, c);
      }
    }
    TracedMore(s, past, next, past', next + 1, {});
    TracedJoin(s, m, r, past', next + 1);
  }

  lemma TracedTickers(s: Store, past: Past, next: int)
    requires Traced(s, past, next, {})
    ensures forall k :: s.IsScan(k) ==> s.msgs[k].kind.ticker < next
  {
  }

  lemma InMessages(s: Store, except: set<Id>)
    requires Plain(s, except)
    ensures except <= s.msgs.Keys
  {
  }

  lemma TracedLess(s: Store, past: Past, next: int, except: set<Id>)
    requires Traced(s, past, next, {})
    ensures Traced(s, past, next, except)
  {
  }

  lemma TracedTransmits(s: Store, t: Store, m: Id, st: State, past: Past, next: int)
    requires Traced(s, past, next, {}) && Inv(s, {}, {}) && s.IsScan(m) && s.msgs[m].now == WaitForTransmit
    requires StatePost(s, t, m, CommenceTransmit, {}, {}, st)
    ensures Traced(t, past, next, {})
  {
    hide Inv, StatePost, TickersDistinct;
    WaitingIsLimited(s, m, {}, {});
    WaitingHoldsNothing(s, m);
    HoldersRun(s);
    TracedLess(s, past, next, {m});
    TracedAdmits(s, t, m, CommenceTransmit, {}, {}, st, past, next);
  }

  lemma TickersApart(s: Store, except: set<Id>, hole: set<int>)
    requires Inv(s, except, hole)
    ensures TickersDistinct(s) && Distinct(s.active)
  {
  }

  lemma StrangersHoldNothing(s: Store, m: Id, except: set<Id>, hole: set<int>)
    requires Inv(s, except, hole) && m !in s.msgs
    ensures m !in s.active
  {
  }

  lemma TracedAnswer(
      s: Store, t: Store, k: Id, response: Response, except: set<Id>, st: State, past: Past, next: int)
    requires Traced(s, past, next, {}) && Inv(s, except, {}) && k in s.msgs
    requires IsMeantFor(s.msgs[k], response) && Answered(s.msgs[k].kind, response).Some?
    requires StatePost(s, t, k, Answered(s.msgs[k].kind, response).value, except, {}, st)
    ensures Traced(t, past, next, {})
  {
    hide Inv, StatePost, Traced, TickersDistinct, Distinct;
    var to := Answered(s.msgs[k].kind, response).value;
    TickersApart(s, except, {});
    if s.IsScan(k) {
      TracedConcludes(s, t, k, to, except, {}, st, past, next);
    } else {
      TracedPlain(s, t, k, to, except, {}, st, past, next);
    }
  }

  lemma TracedReply(s: Store, r: Id, past: Past, next: int)
    requires Traced(s, past, next, {}) && Inv(s, {}, {}) && r !in s.msgs
    ensures Traced(Join(s, r, REPLY), past, next, {})
  {
    assert r !in s.active;
    hide Inv;
    TracedJoin(s, r, REPLY, past, next);
  }

  lemma TracedDone(s: Store, t: Store, r: Id, st: State, past: Past, next: int)
    requires Traced(s, past, next, {}) && r in s.msgs && s.msgs[r] == REPLY && Inv(s, {r}, {})
    requires StatePost(s, t, r, Destruction, {}, {}, st)
    ensures Traced(t, past, next, {})
  {
    assert TickersDistinct(s);
    hide Inv, StatePost, Traced, TickersDistinct;
    TracedPlain(s, t, r, Destruction, {}, {}, st, past, next);
  }

  lemma RefusedFacts(s: Store, m: Id, past: Past, next: int)
    requires Traced(s, past, next, {}) && Inv(s, {}, {}) && m in s.msgs && Departing(s.msgs[m])
    ensures var t := Join(Leave(s, m), m, s.msgs[m]);
      && Traced(t, past, next, {}) && TickersDistinct(t) && Distinct(t.active)
      && t.msgs == s.msgs && t.active == s.active
      && forall k :: k in t.active && k in t.msgs ==> !Concluded(t.msgs[k].now)
  {
    var t := Join(Leave(s, m), m, s.msgs[m]);
    assert t.msgs == s.msgs && t.active == s.active && t.wire == s.wire;
    hide Join, Leave, Traced;
    TracedSame(s, t, past, next);
    HoldersRun(s);
    hide Inv;
    assert TickersDistinct(t) by {
      assert forall k :: t.IsScan(k) == s.IsScan(k);
    }
  }

  lemma HoldersRun(s: Store)
    requires Inv(s, {}, {})
    ensures TickersDistinct(s) && Distinct(s.active)
    ensures forall k :: k in s.active && k in s.msgs ==> !Concluded(s.msgs[k].now)
  {
  }

  /** A message whose write failed is owned again and executed once more. */
  lemma TracedRefused(s: Store, t: Store, m: Id, past: Past, next: int)
    requires Traced(s, past, next, {}) && Inv(s, {}, {}) && m in s.msgs && m in t.msgs
    requires m !in s.active && Departing(s.msgs[m]) && !s.msgs[m].mine
    requires StatePost(Join(Leave(s, m), m, s.msgs[m]), t, m, s.msgs[m].now, {}, {}, t.msgs[m].now)
    ensures Traced(t, Robbing(past, Loot(s, m)), next, {})
  {
    var s1, to := Join(Leave(s, m), m, s.msgs[m]), s.msgs[m].now;
    hide StatePost, Traced, Inv, TickersDistinct, Distinct, Loot, Robbing, Join, Leave;
    RefusedFacts(s, m, past, next);
    SameLoot(s, s1, m);
    if s.IsScan(m) {
      NoLoot(s, m, past);
      TracedConcludes(s1, t, m, to, {}, {}, t.msgs[m].now, past, next);
    } else if IsCancel(s, m) {
      TracedCancelEnds(s1, t, m, to, {}, {}, t.msgs[m].now, past, next);
    } else {
      NoLoot(s, m, past);
      TracedPlain(s1, t, m, to, {}, {}, t.msgs[m].now, past, next);
    }
  }

  /** A request that somebody else's cancel message names. */
  lemma Recallable(s: Store, k: Id)
    requires Inv(s, {}, {}) && k in s.msgs && !s.msgs[k].kind.Answer?
    ensures Pre(s, k, Aborted, {}, {})
  {
    ExceptInv(s, k, {}, {});
    assert WellFormed(s.msgs[k]) && (k in s.active ==> Subscribed(s.msgs[k]));
    hide Inv;
  }

  lemma TracedRecall(s: Store, t: Store, k: Id, st: State, past: Past, next: int)
    requires Traced(s, past, next, {}) && Inv(s, {}, {}) && k in s.msgs && StatePost(s, t, k, Aborted, {}, {}, st)
    ensures Traced(t, Robbing(past, Loot(s, k)), next, {})
  {
    hide Inv, StatePost, Traced, TickersDistinct, Distinct, Loot, Robbing;
    HoldersRun(s);
    if s.IsScan(k) {
      NoLoot(s, k, past);
      TracedConcludes(s, t, k, Aborted, {}, {}, st, past, next);
    } else if IsCancel(s, k) {
      TracedCancelEnds(s, t, k, Aborted, {}, {}, st, past, next);
    } else {
      NoLoot(s, k, past);
      TracedPlain(s, t, k, Aborted, {}, {}, st, past, next);
    }
  }

  // ------------------------------------------------------------------ what the limiter goes along with

  /**
   A subscription on its way home is still observed by the limiter exactly if it was never requested of TWS, or was
   robbed of its slot; that takes a cancel that had named its ticker before it was drawn.
   */
  lemma LimiterGoesAlong(s: Store, m: Id, past: Past, next: int)
    requires Inv(s, {}, {}) && Traced(s, past, next, {}) && s.IsScan(m) && Departing(s.msgs[m])
    ensures s.msgs[m].limited <==> !Requested(s, m) || s.msgs[m].kind.ticker in past.robbed
  {
    assert m !in s.active;
    assert Observed(s, m, past);
  }

  lemma RobbedEarly(s: Store, past: Past, next: int)
    requires Traced(s, past, next, {})
    ensures past.robbed <= past.early
  {
  }

  /** A client's subscription that a cancel finds waiting for a slot goes home aborted, with the limiter. */
  lemma WaitingGoesHome(s: Store, c: Id, r: Req, t: Store, k: Id, st: State)
    requires Inv(s, {}, {}) && s.IsScan(k) && !s.msgs[k].mine && s.msgs[k].now == WaitForTransmit
    requires c !in s.msgs && r.kind == ScanCancel(s.msgs[k].kind.ticker)
    requires StatePost(Join(s, c, r), t, c, ExecCommand, {}, {}, st)
    ensures k in t.msgs && t.msgs[k].now == Aborted && !t.msgs[k].mine && t.msgs[k].limited && k in t.marked
    ensures t.msgs[k].kind == s.msgs[k].kind
  {
    var s1 := Join(s, c, r);
    WaitingIsLimited(s, k, {}, {});
    assert s1.msgs[k] == s.msgs[k];
    assert k !in s.active by { WaitingHoldsNothing(s, k); }
    hide Inv, HoldsTicker;
    assert AllAborted(t, s.msgs[k].kind.ticker) && OnlyMeant(s1, t, c, s.msgs[k].kind.ticker) && t.IsScan(k);
    hide StatePost;
    assert t.msgs[k].now == Aborted;
    UnsettledIsMarked(t, k, {}, {}) by {
      assert Inv(t, {}, {}) by { CancelKeepsInv(s1, t, c, st); }
    }
  }

  lemma WaitingHoldsNothing(s: Store, k: Id)
    requires Inv(s, {}, {}) && s.IsScan(k) && s.msgs[k].now == WaitForTransmit
    ensures k !in s.active
  {
  }

  lemma CancelKeepsInv(s: Store, t: Store, c: Id, st: State)
    requires c in s.msgs && StatePost(s, t, c, ExecCommand, {}, {}, st)
    ensures Inv(t, {}, {})
  {
    hide Inv;
  }

  lemma SlotTaken(s: Store, t: Store, m: Id, st: State, fails: nat -> bool)
    requires s.IsScan(m) && m !in s.active && StatePost(s, t, m, ExecCommand, {}, {}, st) && m in t.msgs
    requires Resolved(s, t, m, ExecCommand, fails) && !fails(|s.wire|) && |s.active| < MAX_SUBSCRIPTIONS
    ensures t.msgs[m].now == ReadyToReceiveResponse && t.active == s.active + [m] && Others(s, t, m)
    ensures t.IsScan(m) && Requested(t, m)
  {
    hide Inv;
    assert ReqSent(s.msgs[m].kind.ticker) in News(s, t);
  }

  /** A client's cancel that has arrived is observed by the limiter, whether it has found something or not. */
  lemma CancelArrived(s: Store, t: Store, c: Id, st: State)
    requires IsCancel(s, c) && !s.msgs[c].mine && StatePost(s, t, c, ExecCommand, {}, {}, st)
    ensures IsCancel(t, c) && t.msgs[c].kind == s.msgs[c].kind && t.msgs[c].limited
    ensures t.msgs[c].now in {ReadyToReceiveResponse, Failed} && |t.active| <= |s.active|
  {
    hide Inv, HoldsTicker, Told, AllAborted, Unobserved, Robbed, Cancelled;
    CancelledSlots(s, t, c, s.msgs[c].kind.ticker);
    KeepsMine(s, t, c, s.msgs[c].kind.ticker);
  }

  lemma CancelledSlots(s: Store, t: Store, c: Id, ticker: int)
    requires Cancelled(s, t, c, ticker)
    ensures |t.active| <= |s.active|
  {
    hide HoldsTicker, OnlyMeant, SameLists;
  }

  /** Aborting a cancel that is observed aborts a client's subscription that holds the slot for its ticker. */
  lemma HolderAborted(s: Store, t: Store, c: Id, k: Id, st: State)
    requires IsCancel(s, c) && s.msgs[c].limited && Holding(s, k, s.msgs[c].kind.ticker) && k != c
    requires !s.msgs[k].mine && s.msgs[k].now == ReadyToReceiveResponse && Requested(s, k)
    requires StatePost(s, t, c, Aborted, {}, {}, st)
    ensures t.IsScan(k) && !t.msgs[k].mine && t.msgs[k].now == Aborted && t.msgs[k].limited && Requested(t, k)
  {
    assert HoldsTicker(s, s.msgs[c].kind.ticker);
    hide Inv, HoldsTicker;
    assert AbortedOr(s.msgs[k], t.msgs[k]);
  }

  lemma NoSlotLeft(s: Store, t: Store, m: Id, st: State)
    requires s.IsScan(m) && StatePost(s, t, m, ExecCommand, {}, {}, st) && |s.active| == MAX_SUBSCRIPTIONS
    ensures m in t.msgs && t.msgs[m].now == WaitForTransmit && t.IsScan(m) && t.msgs[m].mine == s.msgs[m].mine
  {
    assert |t.active| <= MAX_SUBSCRIPTIONS by {
      assert Inv(t, {}, {});
    }
    hide Inv;
  }

  lemma StartsValid()
    ensures var s := Store(map[], [], [], [], []); Inv(s, {}, {}) && Plain(s, {}) && Traced(s, Past({}, {}), 1, {})
  {
    hide Inv, Traced;
    StartsInv();
    StartsTraced();
  }

  lemma StartsInv()
    ensures Inv(Store(map[], [], [], [], []), {}, {})
  {
    assert Open([]) == {};
  }

  lemma StartsTraced()
    ensures Traced(Store(map[], [], [], [], []), Past({}, {}), 1, {})
  {
  }
}
