/**
 What each re-entrant step of the back-end promises, as predicates over its state before and after,
 and the lemmas that fit these promises together.
 */
module ScannerContracts {
  import opened Arithmetic
  import opened Sequences
  import opened MessageStates
  import opened ScannerSlots

  // ------------------------------------------------------------------ contracts of a state change

  predicate Handled(kind: Kind, to: State) {
    || (to == Destruction)
    || (kind != Answer
         && (Concluded(to) || to in {ExecCommand, WaitForTransmit, CommenceTransmit, ReadyToReceiveResponse}))
  }

  predicate Admitting(kind: Kind, to: State) {
    kind.ScanRequest? && to in {ExecCommand, WaitForTransmit, CommenceTransmit}
  }

  /** No subscription is in the middle of a change. */
  ghost predicate Plain(s: Store, except: set<Id>) {
    forall k :: k in except ==> k in s.msgs && !s.IsScan(k)
  }

  ghost predicate Pre(s: Store, m: Id, to: State, except: set<Id>, hole: set<int>) {
    && m in s.msgs && m !in except && Plain(s, except) && Inv(s, except + {m}, hole) && Handled(s.msgs[m].kind, to)
    && match s.msgs[m].kind
       case ScanRequest(_) =>
         if Concluded(to) then
           m in s.active ==> Subscribed(s.msgs[m])
         else if to == ReadyToReceiveResponse then
           m in s.active && s.msgs[m].now == CommenceTransmit
         else
           && hole == {} && m !in s.active
           && (to != ExecCommand ==> s.msgs[m].limited)
           && (to == CommenceTransmit ==> s.msgs[m].now == WaitForTransmit)
       case ScanCancel(_) => true
       case _ => !s.msgs[m].limited
  }

  lemma InDomain(s: Store, m: Id, to: State, except: set<Id>, hole: set<int>)
    requires Pre(s, m, to, except, hole)
    ensures m in s.msgs
  {
  }

  /**
    How the admission of a subscription can end: no slot was free, it is running, or it failed and gave its slot back.
   */
  ghost predicate Admission(s: Store, t: Store, m: Id)
    requires m in t.msgs
  {
    || (t.msgs[m].now == WaitForTransmit && t.active == s.active && |t.active| == MAX_SUBSCRIPTIONS)
    || (t.msgs[m].now == ReadyToReceiveResponse && t.active == s.active + [m])
    || (&& t.msgs[m].now in {Failed, Destruction} && m in t.marked && !t.msgs[m].limited
        && t.active == s.active && |s.active| < MAX_SUBSCRIPTIONS)
  }

  /** A cancel that gets as far as TWS settles what is owed for its ticker. */
  function Owed(kind: Kind, to: State, hole: set<int>): (r: set<int>)
    ensures hole == {} ==> r == {}
  {
    if kind.ScanCancel? && to in {ExecCommand, WaitForTransmit, CommenceTransmit} then hole - {kind.ticker} else hole
  }

  ghost predicate AllAborted(t: Store, ticker: int) {
    forall k :: k in t.msgs && t.msgs[k].kind == ScanRequest(ticker) ==> t.msgs[k].now in {Aborted, Destruction}
  }

  /** Whoever held the slot has lost the limiter with it. */
  ghost predicate Unobserved(s: Store, t: Store, ticker: int) {
    forall k :: k in s.active && k in s.msgs && s.msgs[k].kind == ScanRequest(ticker) ==>
      k in t.msgs && !t.msgs[k].limited
  }

  /**
   A cancel that concludes while the limiter observes it gives up the slot for its ticker, if there is one, as if it
   were its own: the holder is aborted, and goes on being observed.
   */
  ghost predicate Robbed(s: Store, t: Store, ticker: int) {
    && !HoldsTicker(t, ticker) && (HoldsTicker(s, ticker) ==> AllAborted(t, ticker))
    && (forall k :: k in s.active && k in s.msgs && s.msgs[k].kind == ScanRequest(ticker) ==>
          k in t.msgs && t.msgs[k].limited)
  }

  /** Who else is touched. */
  ghost predicate Changed(s: Store, t: Store, m: Id, to: State)
    requires m in s.msgs && m in t.msgs
  {
    match s.msgs[m].kind
    case ScanRequest(_) => Others(s, t, m) && (to == ReadyToReceiveResponse ==> t.active == s.active)
    case ScanCancel(ticker) => Cancelled(s, t, m, ticker)
      && (to == ExecCommand ==> !HoldsTicker(t, ticker) && AllAborted(t, ticker) && Unobserved(s, t, ticker))
      && (Concluded(to) ==> if s.msgs[m].limited then Robbed(s, t, ticker) else t.active == s.active)
      && (to == ExecCommand || (s.msgs[m].limited && !HoldsTicker(s, ticker)) ==> t.msgs[m].limited)
    case _ => Others(s, t, m) && t.active == s.active && s.msgs[m].limited == t.msgs[m].limited
  }

  /** What has been transmitted to TWS since. */
  function News(s: Store, t: Store): seq<Sent> {
    if s.wire <= t.wire then t.wire[|s.wire|..] else []
  }

  /** Exactly what a change has TWS told. */
  ghost predicate Told(s: Store, t: Store, m: Id, to: State)
    requires m in s.msgs && m in t.msgs
  {
    && s.wire <= t.wire
    && match s.msgs[m].kind
       case ScanRequest(ticker) =>
         News(s, t) ==
           if Concluded(to) then (if m in s.active then [CancelSent(ticker)] else [])
           else if to == ReadyToReceiveResponse || t.msgs[m].now == WaitForTransmit then []
           else if t.msgs[m].now == ReadyToReceiveResponse then [ReqSent(ticker)]
           else [ReqSent(ticker), CancelSent(ticker)]
       case ScanCancel(ticker) =>
         if Concluded(to) then
           News(s, t) == if s.msgs[m].limited && HoldsTicker(s, ticker) then [CancelSent(ticker)] else []
         else if to == ReadyToReceiveResponse then News(s, t) == []
         else if to == ExecCommand then
           News(s, t) == (if HoldsTicker(s, ticker) then [CancelSent(ticker)] else []) + [CancelSent(ticker)]
         else !HoldsTicker(s, ticker) ==> News(s, t) == [CancelSent(ticker)]
       case _ =>
         News(s, t) == if to in {ExecCommand, WaitForTransmit, CommenceTransmit} then [OtherSent] else []
  }

  lemma NoNews(s: Store, t: Store)
    requires t.wire == s.wire
    ensures s.wire <= t.wire && News(s, t) == []
  {
  }

  /** Once the limiter has told TWS, entering the concluding state has nothing to add. */
  lemma ToldByLimiter(s: Store, t: Store, u: Store, m: Id, to: State)
    requires m in s.msgs && m in t.msgs && m in u.msgs && Concluded(to) && t.msgs[m].kind == s.msgs[m].kind
    requires Told(s, t, m, to) && Told(t, u, m, to)
    requires s.msgs[m].kind.ScanRequest? || s.msgs[m].kind.ScanCancel?
    requires s.msgs[m].kind.ScanRequest? ==> m !in t.active
    requires s.msgs[m].kind.ScanCancel? ==> !HoldsTicker(t, s.msgs[m].kind.ticker)
    ensures Told(s, u, m, to)
  {
    hide HoldsTicker;
    NewsJoins(s, t, u);
  }

  /** A failure that follows gives the slot back, and has TWS told so. */
  lemma ToldThenFailed(s: Store, t: Store, u: Store, m: Id, to: State)
    requires m in s.msgs && m in t.msgs && m in u.msgs && t.msgs[m].kind == s.msgs[m].kind
    requires Told(s, t, m, to) && Told(t, u, m, Failed) && to in {ExecCommand, WaitForTransmit, CommenceTransmit}
    requires s.msgs[m].kind.ScanRequest? ==>
      t.msgs[m].now == ReadyToReceiveResponse && m in t.active && u.msgs[m].now in {Failed, Destruction}
    requires s.msgs[m].kind.ScanCancel? && (to == ExecCommand || !HoldsTicker(s, s.msgs[m].kind.ticker)) ==>
      !HoldsTicker(t, s.msgs[m].kind.ticker)
    ensures Told(s, u, m, to)
  {
    hide HoldsTicker;
    NewsJoins(s, t, u);
  }

  /** Making the change itself tells TWS nothing. */
  lemma ToldThrough(s: Store, s1: Store, t: Store, m: Id, to: State, next: State)
    requires m in s.msgs && Others(s, s1, m) && s1.active == s.active && s1.wire == s.wire
    requires m in t.msgs && Told(s1, t, m, next)
    requires Concluded(to) ==> Concluded(next) && s1.msgs[m].limited == s.msgs[m].limited
    requires to == ExecCommand ==> next == WaitForTransmit && !s.msgs[m].kind.ScanCancel?
    requires to == WaitForTransmit ==> next == CommenceTransmit
    requires Concluded(to) || to in {ExecCommand, WaitForTransmit}
    ensures Told(s, t, m, to)
  {
    Idle(s, s1, m);
    assert News(s, t) == News(s1, t);
    hide HoldsTicker, Others;
  }

  lemma NewsJoins(s: Store, t: Store, u: Store)
    requires s.wire <= t.wire <= u.wire
    ensures s.wire <= u.wire && News(s, u) == News(s, t) + News(t, u)
  {
  }

  ghost predicate Post(s: Store, t: Store, m: Id, to: State, except: set<Id>, hole: set<int>)
    requires m in s.msgs
  {
    && m in t.msgs && t.msgs[m].kind == s.msgs[m].kind
    && Inv(t, except, Owed(s.msgs[m].kind, to, hole))
    && Changed(s, t, m, to) && Told(s, t, m, to)
    && (s.msgs[m].kind.ScanRequest? && Concluded(to) ==> t.active == Without(s.active, m))
  }

  /** A cancel that finds something to cancel. */
  ghost predicate Matched(s: Store, m: Id)
    requires m in s.msgs
  {
    s.msgs[m].kind.ScanCancel? && exists k :: k in s.msgs && s.msgs[k].kind == ScanRequest(s.msgs[m].kind.ticker)
  }

  /**
    Who requested a message of the back-end's own learns of its end at once, and a cancel of its own never lingers in
    failure.
   */
  predicate Ended(r: Req, to: State) {
    && (!r.mine && Concluded(to) ==> r.now == to)
    && (r.mine && to in {TaskCompleted, Failed, Aborted} ==> r.now == Destruction)
    && (r.mine && to == ResponseComplete ==> r.now == to)
    && (r.kind.ScanCancel? && to in {ExecCommand, WaitForTransmit, CommenceTransmit} ==>
          r.now in {ReadyToReceiveResponse, if r.mine then Destruction else Failed})
  }

  /** What state() leaves behind, and what it answers for a concluding state. */
  ghost predicate StatePost(s: Store, t: Store, m: Id, to: State, except: set<Id>, hole: set<int>, st: State)
    requires m in s.msgs
  {
    && Post(s, t, m, to, except, hole)
    && (s.msgs[m].kind.ScanRequest? && Concluded(to) ==> (t.msgs[m].limited <==> s.msgs[m].limited && m !in s.active))
    && st == t.msgs[m].now && (Concluded(to) ==> st in {to, Destruction} && (!t.msgs[m].mine ==> st == to))
    && (Admitting(s.msgs[m].kind, to) ==> Admission(s, t, m))
    && (to == ReadyToReceiveResponse ==> t.msgs[m].now == to && t.msgs[m].prev == Some(s.msgs[m].now))
    && (to != s.msgs[m].now || !Concluded(to) ==> Ended(t.msgs[m], to))
    && (to == ExecCommand && s.msgs[m].mine && Matched(s, m) ==> t.msgs[m].now == Destruction)
  }

  /** What exec_state leaves behind: it answers the state there is, or Failed when the handler reported an error. */
  ghost predicate ExecPost(s: Store, t: Store, m: Id, to: State, except: set<Id>, hole: set<int>, st: State)
    requires m in s.msgs
  {
    && Post(s, t, m, to, except, hole)
    && (s.msgs[m].kind.ScanRequest? && Concluded(to) ==> (t.msgs[m].limited <==> s.msgs[m].limited && m !in s.active))
    && (st == Failed || st == t.msgs[m].now)
    && (Concluded(to) ==> t.msgs[m].now in {to, Destruction} && st == t.msgs[m].now)
    && (s.msgs[m].kind.ScanRequest? && to == CommenceTransmit ==>
          || (t.msgs[m].now == WaitForTransmit == st && t.active == s.active && |t.active| == MAX_SUBSCRIPTIONS)
          || (t.msgs[m].now == ReadyToReceiveResponse && t.active == s.active + [m]))
    && (s.msgs[m].kind.ScanRequest? && to in {ExecCommand, WaitForTransmit} ==>
           st == t.msgs[m].now && Admission(s, t, m))
    && (to == ReadyToReceiveResponse ==> t.msgs[m].now == st == to && t.msgs[m].prev == Some(s.msgs[m].now))
    && Ended(t.msgs[m], to)
    && (to == ExecCommand && Matched(s, m) ==> st == Failed)
  }

  predicate Transmitting(to: State) {
    to in {ExecCommand, WaitForTransmit, CommenceTransmit}
  }

  /** How a message ends that has failed: its requester has it destroyed, if that is here. */
  function Lost(r: Req): State {
    if r.mine then Destruction else Failed
  }

  /** A cancel that is executed, and finds something to cancel, reports an error. */
  ghost predicate Futile(s: Store, m: Id, to: State)
    requires m in s.msgs
  {
    to == ExecCommand && Matched(s, m)
  }

  /**
   A request that is transmitted gets as far as waiting for its response exactly if TWS accepts it, the next thing that
   it is told; a cancel, moreover, only if it finds nothing. A subscription may have to wait for a slot.
   */
  ghost predicate Resolved(s: Store, t: Store, m: Id, to: State, fails: nat -> bool)
    requires m in s.msgs && m in t.msgs
  {
    Transmitting(to) && !(s.msgs[m].kind.ScanRequest? && t.msgs[m].now == WaitForTransmit) ==>
      && (t.msgs[m].now == ReadyToReceiveResponse <==> !Futile(s, m, to) && !fails(|s.wire|))
      && (t.msgs[m].now != ReadyToReceiveResponse ==> t.msgs[m].now == Lost(t.msgs[m]))
  }

  /** The same of exec_state(), which reports what it has commenced, or executed, in vain itself. */
  ghost predicate Decided(s: Store, t: Store, m: Id, to: State, st: State, fails: nat -> bool)
    requires m in s.msgs && m in t.msgs
  {
    if to == CommenceTransmit then
      && (!s.msgs[m].kind.ScanRequest? ==> t.msgs[m].now == ReadyToReceiveResponse)
      && (t.msgs[m].now == ReadyToReceiveResponse ==> (st == Failed <==> fails(|s.wire|)))
      && (t.msgs[m].now != ReadyToReceiveResponse ==> t.msgs[m].now == WaitForTransmit)
    else if Futile(s, m, to) then
      st == Failed && t.msgs[m].now in {ReadyToReceiveResponse, Lost(t.msgs[m])}
    else Resolved(s, t, m, to, fails) && (Transmitting(to) ==> st == t.msgs[m].now)
  }

  /** What the limiter leaves behind: it admits or refuses a transmission, and takes back the slot of what concludes. */
  ghost predicate LimiterPost(s: Store, t: Store, m: Id, to: State, except: set<Id>, hole: set<int>, verdict: Verdict)
    requires m in s.msgs
  {
    if s.msgs[m].kind.ScanRequest? && to == CommenceTransmit then
      if |s.active| < MAX_SUBSCRIPTIONS then verdict == Proceed && t == Admit(s, m)
      else verdict == DontChange && t == s
    else
      && verdict == Proceed
      && if s.msgs[m].kind.ScanRequest? && Concluded(to) then
           && m in t.msgs && Inv(t, except + {m}, hole) && Others(s, t, m) && t.active == Without(s.active, m)
           && (t.msgs[m].limited <==> m !in s.active) && Told(s, t, m, to)
         else if s.msgs[m].kind.ScanCancel? && Concluded(to) then
           && m in t.msgs && Inv(t, except + {m}, hole) && Cancelled(s, t, m, s.msgs[m].kind.ticker)
           && !HoldsTicker(t, s.msgs[m].kind.ticker) && t.msgs[m] == s.msgs[m].(limited := t.msgs[m].limited)
           && Robbed(s, t, s.msgs[m].kind.ticker) && (!HoldsTicker(s, s.msgs[m].kind.ticker) ==> t.msgs[m].limited)
           && Told(s, t, m, to)
         else t == s
  }

  /** A change the limiter lets pass. */
  ghost predicate EnterPre(s: Store, m: Id, to: State, except: set<Id>, hole: set<int>) {
    && m in s.msgs && m !in except && Plain(s, except) && Inv(s, except + {m}, hole) && Handled(s.msgs[m].kind, to)
    && match s.msgs[m].kind
       case ScanRequest(_) =>
         if Concluded(to) then m !in s.active
         else if to == ReadyToReceiveResponse then m in s.active && s.msgs[m].now == CommenceTransmit
         else
           && hole == {}
           && (to == CommenceTransmit <==> m in s.active)
           && (to != ExecCommand ==> s.msgs[m].limited)
       case ScanCancel(ticker) => Concluded(to) && s.msgs[m].limited ==> !HoldsTicker(s, ticker)
       case _ => !s.msgs[m].limited
  }

  ghost predicate EnterPost(s: Store, t: Store, m: Id, to: State, except: set<Id>, hole: set<int>, st: State)
    requires m in s.msgs
  {
    && m in t.msgs && t.msgs[m].kind == s.msgs[m].kind
    && Inv(t, except, Owed(s.msgs[m].kind, to, hole))
    && Changed(s, t, m, to) && Told(s, t, m, to)
    && (s.msgs[m].kind.ScanRequest? && Concluded(to) ==> t.active == s.active && t.msgs[m].limited == s.msgs[m].limited)
    && (st == Failed || st == t.msgs[m].now)
    && (Concluded(to) ==> t.msgs[m].now in {to, Destruction} && st == t.msgs[m].now)
    && (s.msgs[m].kind.ScanRequest? && to == CommenceTransmit ==>
          t.msgs[m].now == ReadyToReceiveResponse && t.active == s.active)
    && (s.msgs[m].kind.ScanRequest? && to in {ExecCommand, WaitForTransmit} ==>
           st == t.msgs[m].now && Admission(s, t, m))
    && (to == ReadyToReceiveResponse ==> t.msgs[m].now == st == to && t.msgs[m].prev == Some(s.msgs[m].now))
    && Ended(t.msgs[m], to)
    && (to == ExecCommand && Matched(s, m) ==> st == Failed)
  }

  // ------------------------------------------------------------------ the contracts fit together

  lemma UnobservedEnters(s: Store, m: Id, to: State, except: set<Id>, hole: set<int>)
    requires Pre(s, m, to, except, hole) && !s.msgs[m].limited
    ensures EnterPre(s, m, to, except, hole)
  {
  }

  lemma ObservedEnters(s: Store, t: Store, m: Id, to: State, except: set<Id>, hole: set<int>)
    requires Pre(s, m, to, except, hole) && LimiterPost(s, t, m, to, except, hole, Proceed)
    ensures EnterPre(t, m, to, except, hole)
  {
    hide Inv, Told, HoldsTicker;
    if s.msgs[m].kind.ScanRequest? && to == CommenceTransmit {
      AdmitInv(s, m, except, hole);
    } else if s.msgs[m].kind.ScanRequest? && Concluded(to) {
      SlotGone(s, m, except + {m}, hole);
    } else if s.msgs[m].kind.ScanCancel? && Concluded(to) {
      KeepsPlain(s, t, m, except);
      KeepsMine(s, t, m, s.msgs[m].kind.ticker);
      hide Cancelled, Plain;
    }
  }

  lemma KeepsPlain(s: Store, t: Store, m: Id, except: set<Id>)
    requires m in s.msgs && s.msgs[m].kind.ScanCancel? && Cancelled(s, t, m, s.msgs[m].kind.ticker) && Plain(s, except)
    ensures Plain(t, except)
  {
    hide HoldsTicker;
  }

  lemma UnobservedEntered(s: Store, u: Store, m: Id, to: State, except: set<Id>, hole: set<int>, st: State)
    requires Pre(s, m, to, except, hole) && !s.msgs[m].limited && EnterPost(s, u, m, to, except, hole, st)
    ensures ExecPost(s, u, m, to, except, hole, st)
  {
    assert m !in s.active;
    hide Inv;
  }

  lemma CancelObservedEntered(
      s: Store, t: Store, u: Store, m: Id, to: State, except: set<Id>, hole: set<int>, st: State)
    requires Pre(s, m, to, except, hole) && s.msgs[m].limited && LimiterPost(s, t, m, to, except, hole, Proceed)
    requires m in t.msgs && EnterPost(t, u, m, to, except, hole, st)
    requires s.msgs[m].kind.ScanCancel? && Concluded(to)
    ensures ExecPost(s, u, m, to, except, hole, st)
  {
    hide Inv, Cancelled, HoldsTicker, Matched, AllAborted, Told, Robbed;
    CancelledThen(s, t, u, m, s.msgs[m].kind.ticker);
    ToldByLimiter(s, t, u, m, to);
    KeepsMine(s, t, m, s.msgs[m].kind.ticker);
    RobbedStill(s, t, u, m, s.msgs[m].kind.ticker);
  }

  lemma RobbedStill(s: Store, t: Store, u: Store, c: Id, ticker: int)
    requires c in s.msgs && c in t.msgs && s.msgs[c].kind == t.msgs[c].kind == ScanCancel(ticker)
    requires Robbed(s, t, ticker) && Cancelled(s, t, c, ticker) && Cancelled(t, u, c, ticker)
    ensures Robbed(s, u, ticker)
  {
    hide HoldsTicker, AllAborted;
    NoMoreHolders(t, u, c, ticker);
    if HoldsTicker(s, ticker) {
      StillAborted(t, u, c, ticker);
    }
    NotHolding(t, ticker);
    SameKindsCancelled(s, t, c, ticker);
  }

  lemma NotHolding(t: Store, ticker: int)
    requires !HoldsTicker(t, ticker)
    ensures forall k :: k in t.msgs && t.msgs[k].kind == ScanRequest(ticker) ==> k !in t.active
  {
  }

  lemma ScanObservedEntered(
      s: Store, t: Store, u: Store, m: Id, to: State, except: set<Id>, hole: set<int>, st: State)
    requires Pre(s, m, to, except, hole) && s.msgs[m].limited && LimiterPost(s, t, m, to, except, hole, Proceed)
    requires m in t.msgs && EnterPost(t, u, m, to, except, hole, st)
    requires s.msgs[m].kind.ScanRequest? && Concluded(to)
    ensures ExecPost(s, u, m, to, except, hole, st)
  {
    hide Inv, HoldsTicker, Matched, Told, Others, Cancelled;
    StillMine(s, t, m);
    assert m !in t.active by { SlotGone(s, m, except + {m}, hole); }
    ToldByLimiter(s, t, u, m, to);
    OthersThen(s, t, u, m);
  }

  lemma ObservedEntered(s: Store, t: Store, u: Store, m: Id, to: State, except: set<Id>, hole: set<int>, st: State)
    requires Pre(s, m, to, except, hole) && s.msgs[m].limited && LimiterPost(s, t, m, to, except, hole, Proceed)
    requires m in t.msgs && EnterPost(t, u, m, to, except, hole, st)
    ensures ExecPost(s, u, m, to, except, hole, st)
  {
    hide Inv, HoldsTicker, Matched, AllAborted, Cancelled;
    if s.msgs[m].kind.ScanCancel? && Concluded(to) {
      CancelObservedEntered(s, t, u, m, to, except, hole, st);
    } else if s.msgs[m].kind.ScanRequest? && Concluded(to) {
      ScanObservedEntered(s, t, u, m, to, except, hole, st);
    }
  }

  lemma SlotGone(s: Store, m: Id, except: set<Id>, hole: set<int>)
    requires Inv(s, except, hole)
    ensures m !in Without(s.active, m)
  {
    WithoutDistinct(s.active, m);
  }

  lemma Vetoed(s: Store, m: Id, to: State, except: set<Id>, hole: set<int>)
    requires Pre(s, m, to, except, hole) && LimiterPost(s, s, m, to, except, hole, DontChange)
    ensures ExecPost(s, s, m, to, except, hole, s.msgs[m].now)
  {
    SettleInv(s, m, except, hole);
  }

  lemma FailureFollows(s: Store, t: Store, m: Id, to: State, except: set<Id>, hole: set<int>, st: State)
    requires Pre(s, m, to, except, hole) && ExecPost(s, t, m, to, except, hole, st) && st != t.msgs[m].now
    ensures st == Failed && !Concluded(to) && Pre(t, m, Failed, except, Owed(s.msgs[m].kind, to, hole))
  {
    ExceptInv(t, m, except, Owed(s.msgs[m].kind, to, hole));
  }

  lemma WithoutLast(q: seq<Id>, m: Id)
    requires Distinct(q + [m])
    ensures Without(q + [m], m) == q
  {
    assert forall i :: 0 <= i < |q| ==> (q + [m])[i] == q[i] && (q + [m])[|q|] == m;
    WithoutSplits(q + [m], m, |q|);
  }

  lemma ScanFailureConcludes(
      s: Store, t: Store, u: Store, m: Id, to: State, except: set<Id>, hole: set<int>, st: State, st': State)
    requires Pre(s, m, to, except, hole) && ExecPost(s, t, m, to, except, hole, st) && st != t.msgs[m].now
    requires m in t.msgs && ExecPost(t, u, m, Failed, except, hole, st')
    requires s.msgs[m].kind.ScanRequest?
    ensures StatePost(s, u, m, to, except, hole, st')
  {
    hide Inv, Others, Distinct, Without, Fine;
    assert to == CommenceTransmit && t.active == s.active + [m];
    DistinctLists(t, except, hole);
    WithoutLast(s.active, m);
    OthersThen(s, t, u, m);
    StillMine(s, t, m);
    UnsettledIsMarked(u, m, except, hole);
    ToldThenFailed(s, t, u, m, to);
    hide Told;
  }

  lemma DistinctLists(s: Store, except: set<Id>, hole: set<int>)
    requires Inv(s, except, hole)
    ensures Distinct(s.active) && Distinct(s.owned) && Distinct(s.marked) && |s.active| <= MAX_SUBSCRIPTIONS
    ensures forall k :: k in s.owned <==> k in s.msgs
  {
  }

  lemma StillMine(s: Store, t: Store, m: Id)
    requires Others(s, t, m) && m in s.msgs
    ensures m in t.msgs && t.msgs[m].mine == s.msgs[m].mine && t.msgs[m].kind == s.msgs[m].kind
    ensures t.msgs.Keys == s.msgs.Keys && t.owned == s.owned && s.wire <= t.wire
  {
  }

  lemma UnsettledIsMarked(s: Store, m: Id, except: set<Id>, hole: set<int>)
    requires Inv(s, except, hole) && m in s.msgs && m !in except
    requires s.msgs[m].now in {Failed, Aborted, TaskCompleted, Destruction}
    ensures m in s.marked && Departing(s.msgs[m])
  {
    assert Fine(s, m);
  }

  lemma CancelFailureConcludes(
      s: Store, t: Store, u: Store, m: Id, to: State, except: set<Id>, hole: set<int>, st: State, st': State)
    requires Pre(s, m, to, except, hole) && ExecPost(s, t, m, to, except, hole, st) && st != t.msgs[m].now
    requires m in t.msgs && ExecPost(t, u, m, Failed, except, Owed(s.msgs[m].kind, to, hole), st')
    requires s.msgs[m].kind.ScanCancel?
    ensures StatePost(s, u, m, to, except, hole, st')
  {
    hide Inv, Others, Cancelled, Distinct, Without, HoldsTicker, Matched;
    CancelledThen(s, t, u, m, s.msgs[m].kind.ticker);
    KeepsMine(s, t, m, s.msgs[m].kind.ticker);
    KeepsMine(t, u, m, s.msgs[m].kind.ticker);
    if to == ExecCommand {
      StillAborted(t, u, m, s.msgs[m].kind.ticker);
      NoMoreHolders(t, u, m, s.msgs[m].kind.ticker);
      StillUnobserved(s, t, u, m, s.msgs[m].kind.ticker);
    } else if !HoldsTicker(s, s.msgs[m].kind.ticker) {
      NoMoreHolders(s, t, m, s.msgs[m].kind.ticker);
    }
    ToldThenFailed(s, t, u, m, to);
    hide AllAborted, Told;
  }

  lemma StillAborted(s: Store, t: Store, c: Id, ticker: int)
    requires c in s.msgs && s.msgs[c].kind.ScanCancel? && Cancelled(s, t, c, ticker) && AllAborted(s, ticker)
    ensures AllAborted(t, ticker)
  {
    hide HoldsTicker;
    forall k | k in t.msgs && t.msgs[k].kind == ScanRequest(ticker) ensures t.msgs[k].now in {Aborted, Destruction} {
      assert k in s.msgs && s.msgs[k].kind == t.msgs[k].kind && AbortedOr(s.msgs[k], t.msgs[k]);
    }
  }

  lemma KeepsMine(s: Store, t: Store, m: Id, ticker: int)
    requires m in s.msgs && Cancelled(s, t, m, ticker)
    ensures m in t.msgs && t.msgs[m].mine == s.msgs[m].mine && t.msgs[m].kind == s.msgs[m].kind
  {
  }

  lemma FailureConcludes(
      s: Store, t: Store, u: Store, m: Id, to: State, except: set<Id>, hole: set<int>, st: State, st': State)
    requires m in s.msgs && Pre(s, m, to, except, hole) && ExecPost(s, t, m, to, except, hole, st)
    requires st != t.msgs[m].now
    requires m in t.msgs && ExecPost(t, u, m, Failed, except, Owed(s.msgs[m].kind, to, hole), st')
    ensures StatePost(s, u, m, to, except, hole, st')
  {
    hide Pre, ExecPost, StatePost;
    if s.msgs[m].kind.ScanRequest? {
      ScanFailureConcludes(s, t, u, m, to, except, hole, st, st');
    } else if s.msgs[m].kind.ScanCancel? {
      CancelFailureConcludes(s, t, u, m, to, except, hole, st, st');
    } else {
      OtherFailureConcludes(s, t, u, m, to, except, hole, st, st');
    }
  }

  lemma OtherFailureConcludes(
      s: Store, t: Store, u: Store, m: Id, to: State, except: set<Id>, hole: set<int>, st: State, st': State)
    requires Pre(s, m, to, except, hole) && ExecPost(s, t, m, to, except, hole, st) && st != t.msgs[m].now
    requires m in t.msgs && ExecPost(t, u, m, Failed, except, hole, st')
    requires !s.msgs[m].kind.ScanRequest? && !s.msgs[m].kind.ScanCancel?
    ensures StatePost(s, u, m, to, except, hole, st')
  {
    hide Inv, Distinct, Without, HoldsTicker, Matched;
    OthersThen(s, t, u, m);
    ToldThenFailed(s, t, u, m, to);
    hide Others, Told;
  }

  lemma Succeeds(s: Store, t: Store, m: Id, to: State, except: set<Id>, hole: set<int>)
    requires Pre(s, m, to, except, hole) && m in t.msgs && ExecPost(s, t, m, to, except, hole, t.msgs[m].now)
    ensures StatePost(s, t, m, to, except, hole, t.msgs[m].now)
  {
    assert t.msgs[m].mine == s.msgs[m].mine;
    hide Inv, HoldsTicker, Without, Others, Cancelled;
  }

  lemma SuccessResolves(s: Store, t: Store, m: Id, to: State, except: set<Id>, hole: set<int>, fails: nat -> bool)
    requires m in s.msgs && m in t.msgs && ExecPost(s, t, m, to, except, hole, t.msgs[m].now)
    requires Decided(s, t, m, to, t.msgs[m].now, fails)
    ensures Resolved(s, t, m, to, fails)
  {
    hide Inv, Changed, Told, Matched;
  }

  lemma FailureResolves(s: Store, t: Store, u: Store, m: Id, to: State, except: set<Id>, hole: set<int>,
                        st: State, st': State, fails: nat -> bool)
    requires m in s.msgs && m in t.msgs && ExecPost(s, t, m, to, except, hole, st) && st != t.msgs[m].now
    requires Decided(s, t, m, to, st, fails)
    requires m in u.msgs && ExecPost(t, u, m, Failed, except, Owed(s.msgs[m].kind, to, hole), st')
    ensures Resolved(s, u, m, to, fails)
  {
    hide Inv, Changed, Told, Matched;
  }

  lemma NothingToDo(s: Store, m: Id, to: State, except: set<Id>, hole: set<int>)
    requires Pre(s, m, to, except, hole) && to == s.msgs[m].now && Concluded(to) && Fine(s, m) && m !in s.active
    requires !s.msgs[m].kind.ScanCancel?
    ensures StatePost(s, s, m, to, except, hole, to)
  {
    SettleInv(s, m, except, hole);
  }

  /** The limiter changes neither the message's kind nor, but for the slot it hands out, the number of slots taken. */
  lemma LimiterLeaves(s: Store, t: Store, m: Id, to: State, except: set<Id>, hole: set<int>)
    requires m in s.msgs && Pre(s, m, to, except, hole) && LimiterPost(s, t, m, to, except, hole, Proceed)
    ensures m in t.msgs && t.msgs[m].kind == s.msgs[m].kind
    ensures !Admitting(s.msgs[m].kind, to) ==> |t.active| <= |s.active|
  {
    hide Inv, HoldsTicker, Told, Robbed, OnlyMeant, SameLists;
  }

  lemma VetoKeeps(s: Store, t: Store, m: Id, to: State, except: set<Id>, hole: set<int>, fails: nat -> bool)
    requires m in s.msgs && Pre(s, m, to, except, hole) && LimiterPost(s, t, m, to, except, hole, DontChange)
    ensures t == s && Decided(s, s, m, to, s.msgs[m].now, fails)
  {
    hide Inv;
  }

  lemma DecidedThrough(
      s: Store, t: Store, u: Store, m: Id, to: State, except: set<Id>, hole: set<int>, st: State, fails: nat -> bool)
    requires m in s.msgs && LimiterPost(s, t, m, to, except, hole, Proceed)
    requires m in t.msgs && t.msgs[m].kind == s.msgs[m].kind && m in u.msgs && Decided(t, u, m, to, st, fails)
    ensures Decided(s, u, m, to, st, fails)
  {
    hide Inv, HoldsTicker, Told, Robbed, OnlyMeant, SameLists, Others;
  }

  /** What the limiter answers at once: it admits while there are slots left, and lets what does not concern it pass. */
  lemma LimiterAnswers(s: Store, m: Id, to: State, except: set<Id>, hole: set<int>)
    requires m in s.msgs
    ensures s.msgs[m].kind.ScanRequest? && to == CommenceTransmit ==>
      if |s.active| < MAX_SUBSCRIPTIONS then LimiterPost(s, Admit(s, m), m, to, except, hole, Proceed)
      else LimiterPost(s, s, m, to, except, hole, DontChange)
    ensures !(s.msgs[m].kind.ScanRequest? && to == CommenceTransmit) && !Concluded(to) ==>
      LimiterPost(s, s, m, to, except, hole, Proceed)
  {
    hide Inv, HoldsTicker;
  }

  lemma Releases(s: Store, m: Id, i: nat, to: State, except: set<Id>, hole: set<int>)
    requires Pre(s, m, to, except, hole) && i < |s.active| && s.IsScan(s.active[i]) && Concluded(to)
    requires s.msgs[m].kind.ScanRequest? || s.msgs[m].kind.ScanCancel?
    requires s.msgs[s.active[i]].kind.ticker == s.msgs[m].kind.ticker
    ensures Releasing(s, m, s.active[i], to, except, hole) && Subscribed(s.msgs[s.active[i]])
  {
    SlotOf(s, m, i, to, except, hole);
  }

  lemma ReadyToCommence(s: Store, m: Id, except: set<Id>, hole: set<int>)
    requires EnterPre(s, m, WaitForTransmit, except, hole)
    ensures m in s.msgs && Pre(Enter(s, m, WaitForTransmit), m, CommenceTransmit, except, hole)
  {
    Rewritten(s, m, Enter(s, m, WaitForTransmit).msgs[m], except, hole);
    hide Inv;
  }

  lemma EntersKnown(s: Store, m: Id, to: State, except: set<Id>, hole: set<int>)
    requires EnterPre(s, m, to, except, hole)
    ensures m in s.msgs && Handled(s.msgs[m].kind, to)
    ensures s.msgs[m].limited ==> s.msgs[m].kind.ScanRequest? || s.msgs[m].kind.ScanCancel?
  {
  }

  lemma CancelRegistered(s: Store, m: Id, except: set<Id>, hole: set<int>)
    requires EnterPre(s, m, ExecCommand, except, hole) && m in s.msgs && s.msgs[m].kind.ScanCancel?
    ensures var t := Registered(s, m, ExecCommand);
      Inv(t, except + {m}, hole) && Plain(t, except) && m !in except && Matched(t, m) == Matched(s, m)
  {
    hide Matched, HoldsTicker;
    Rewritten(s, m, Registered(s, m, ExecCommand).msgs[m], except, hole);
    MatchedStill(s, m, Registered(s, m, ExecCommand).msgs[m]);
    hide Inv;
  }

  // ------------------------------------------------------------------ what the handlers add up to

  /** A message in the middle of a change is rewritten, its kind apart. */
  lemma Rewritten(s: Store, m: Id, r: Req, except: set<Id>, hole: set<int>)
    requires Inv(s, except + {m}, hole) && Plain(s, except) && m in s.msgs
    requires r.kind == s.msgs[m].kind && r.mine == s.msgs[m].mine && (m in s.active ==> r.limited)
    requires r.limited ==> s.msgs[m].limited || r.kind.ScanRequest? || r.kind.ScanCancel?
    ensures var t := Put(s, m, r);
      && Inv(t, except + {m}, hole) && Plain(t, except) && Others(s, t, m)
      && (forall x :: HoldsTicker(t, x) <==> HoldsTicker(s, x))
  {
    PutInv(s, m, r, except, hole);
  }

  /** The scan's f_exec_command: observed by the limiter from here on. */
  function Registered(s: Store, m: Id, to: State): Store
    requires m in s.msgs
  {
    Put(s, m, s.msgs[m].(prev := Some(s.msgs[m].now), now := to, limited := true))
  }

  lemma ScanExecuted(s: Store, t: Store, m: Id, except: set<Id>, hole: set<int>, st: State)
    requires EnterPre(s, m, ExecCommand, except, hole) && s.msgs[m].kind.ScanRequest?
    requires StatePost(Registered(s, m, ExecCommand), t, m, WaitForTransmit, except, hole, st)
    ensures EnterPost(s, t, m, ExecCommand, except, hole, t.msgs[m].now)
  {
    hide Inv, Distinct, HoldsTicker;
    OthersThen(s, Registered(s, m, ExecCommand), t, m);
    assert News(s, t) == News(Registered(s, m, ExecCommand), t);
  }

  lemma CancelExecuted(s: Store, t: Store, u: Store, m: Id, except: set<Id>, hole: set<int>, found: bool, st: State)
    requires EnterPre(s, m, ExecCommand, except, hole) && s.msgs[m].kind.ScanCancel?
    requires m in t.msgs && t.msgs[m].now == Destruction && t.msgs[m].limited && found == Matched(s, m)
    requires Cancelled(Registered(s, m, ExecCommand), t, m, s.msgs[m].kind.ticker)
    requires AllAborted(t, s.msgs[m].kind.ticker) && !HoldsTicker(t, s.msgs[m].kind.ticker)
    requires Freed(Registered(s, m, ExecCommand), t, s.msgs[m].kind.ticker)
    requires StatePost(t, u, m, WaitForTransmit, except, hole, st)
    ensures EnterPost(s, u, m, ExecCommand, except, hole, if found then Failed else u.msgs[m].now)
  {
    hide Inv, Distinct, HoldsTicker, Matched, Others, AllAborted, AbortedOr;
    KeepsMine(Registered(s, m, ExecCommand), t, m, s.msgs[m].kind.ticker);
    CancelExecutedChange(s, t, u, m);
    ToldExecuted(s, t, u, m);
    hide Told, Freed;
    hide Cancelled;
  }

  /** Nothing has been transmitted before the request itself is. */
  lemma ExecDecided(s: Store, s1: Store, t: Store, m: Id, fails: nat -> bool)
    requires m in s.msgs && m in s1.msgs && m in t.msgs && s1.wire == s.wire && s1.msgs[m].kind == s.msgs[m].kind
    requires !Matched(s, m) && Resolved(s1, t, m, WaitForTransmit, fails)
    ensures Decided(s, t, m, ExecCommand, t.msgs[m].now, fails)
  {
    hide Matched;
  }

  lemma CancelDecided(s: Store, t: Store, u: Store, m: Id, fails: nat -> bool)
    requires m in s.msgs && s.msgs[m].kind.ScanCancel? && m in t.msgs && t.msgs[m].kind == s.msgs[m].kind && m in u.msgs
    requires Freed(Registered(s, m, ExecCommand), t, s.msgs[m].kind.ticker) && Resolved(t, u, m, WaitForTransmit, fails)
    ensures Decided(s, u, m, ExecCommand, if Matched(s, m) then Failed else u.msgs[m].now, fails)
  {
    if !Matched(s, m) {
      NothingFreedUnmatched(s, t, m);
      hide Matched;
      ExecDecided(s, t, u, m, fails);
    }
  }

  lemma NothingFreedUnmatched(s: Store, t: Store, m: Id)
    requires m in s.msgs && s.msgs[m].kind.ScanCancel? && !Matched(s, m)
    requires Freed(Registered(s, m, ExecCommand), t, s.msgs[m].kind.ticker)
    ensures t.wire == s.wire
  {
    var s1 := Registered(s, m, ExecCommand);
    assert !HoldsTicker(s1, s.msgs[m].kind.ticker) by {
      forall k | k in s1.active && s1.IsScan(k) ensures s1.msgs[k].kind.ticker != s.msgs[m].kind.ticker {
        assert s.msgs[k].kind == s1.msgs[k].kind;
      }
    }
    assert t.wire == s1.wire + News(s1, t);
  }

  /** TWS has been told of the slot that was freed, if any. */
  ghost predicate Freed(s: Store, t: Store, ticker: int) {
    && s.wire <= t.wire
    && News(s, t) == (if HoldsTicker(s, ticker) && !HoldsTicker(t, ticker) then [CancelSent(ticker)] else [])
    && Released(s, t, ticker)
  }

  /** With the slot given up, its holder is not observed any more; nor will it be. */
  lemma FreedIsUnobserved(s: Store, t: Store, ticker: int)
    requires Freed(s, t, ticker) && !HoldsTicker(t, ticker)
    requires forall k :: k in s.msgs ==> k in t.msgs && t.msgs[k].kind == s.msgs[k].kind
    ensures Unobserved(s, t, ticker)
  {
  }

  lemma StillUnobserved(s: Store, t: Store, u: Store, c: Id, ticker: int)
    requires Unobserved(s, t, ticker) && Cancelled(t, u, c, ticker)
    requires c in s.msgs && c in t.msgs && s.msgs[c].kind.ScanCancel?
    ensures Unobserved(s, u, ticker)
  {
    hide HoldsTicker;
  }

  lemma ToldExecuted(s: Store, t: Store, u: Store, m: Id)
    requires m in s.msgs && s.msgs[m].kind.ScanCancel? && m in t.msgs && t.msgs[m].kind == s.msgs[m].kind && m in u.msgs
    requires Freed(Registered(s, m, ExecCommand), t, s.msgs[m].kind.ticker)
    requires !HoldsTicker(t, s.msgs[m].kind.ticker) && Told(t, u, m, WaitForTransmit)
    ensures Told(s, u, m, ExecCommand)
  {
    var s1 := Registered(s, m, ExecCommand);
    Idle(s, s1, m);
    hide HoldsTicker;
    NewsJoins(s1, t, u);
    assert News(s, u) == News(s1, u);
  }

  lemma CancelExecutedChange(s: Store, t: Store, u: Store, m: Id)
    requires m in s.msgs && s.msgs[m].kind.ScanCancel?
    requires m in t.msgs && Cancelled(Registered(s, m, ExecCommand), t, m, s.msgs[m].kind.ticker)
    requires AllAborted(t, s.msgs[m].kind.ticker) && t.msgs[m].kind == s.msgs[m].kind && t.msgs[m].limited
    requires !HoldsTicker(t, s.msgs[m].kind.ticker) && Freed(Registered(s, m, ExecCommand), t, s.msgs[m].kind.ticker)
    requires m in u.msgs && Changed(t, u, m, WaitForTransmit)
    ensures Changed(s, u, m, ExecCommand)
  {
    hide Others, HoldsTicker, Cancelled;
    var ticker := s.msgs[m].kind.ticker;
    var s1 := Registered(s, m, ExecCommand);
    Idle(s, s1, m);
    CancelledThen(s, s1, t, m, ticker);
    CancelledThen(s, t, u, m, ticker);
    StillAborted(t, u, m, ticker);
    NoMoreHolders(t, u, m, ticker);
    SameKindsCancelled(s1, t, m, ticker);
    FreedIsUnobserved(s1, t, ticker);
    StillUnobserved(s1, t, u, m, ticker);
    assert Unobserved(s, u, ticker) by {
      assert forall k :: k in s.msgs ==> s1.msgs[k].kind == s.msgs[k].kind;
    }
  }

  lemma SameKindsCancelled(s: Store, t: Store, c: Id, ticker: int)
    requires Cancelled(s, t, c, ticker)
    ensures forall k :: k in s.msgs ==> k in t.msgs && t.msgs[k].kind == s.msgs[k].kind
  {
    hide HoldsTicker;
  }

  /** Making the change itself touches nobody else, so what its handler does is all there is. */
  lemma ChangedThrough(s: Store, s1: Store, t: Store, m: Id, to: State, next: State)
    requires m in s.msgs && Others(s, s1, m) && s1.active == s.active
    requires s1.msgs[m].limited == s.msgs[m].limited || s.msgs[m].kind.ScanRequest?
    requires m in s1.msgs && m in t.msgs && Changed(s1, t, m, next)
    requires to != ReadyToReceiveResponse && (to == ExecCommand ==> !s.msgs[m].kind.ScanCancel?)
    requires Concluded(to) ==> Concluded(next) && s1.msgs[m].limited == s.msgs[m].limited
    ensures Changed(s, t, m, to) && t.msgs[m].mine == s.msgs[m].mine
  {
    if s.msgs[m].kind.ScanCancel? {
      Idle(s, s1, m);
      hide HoldsTicker, Cancelled, Robbed;
      CancelledThen(s, s1, t, m, s.msgs[m].kind.ticker);
      KeepsMine(s, t, m, s.msgs[m].kind.ticker);
      if Robbed(s1, t, s.msgs[m].kind.ticker) {
        RobbedThrough(s, s1, t, m, s.msgs[m].kind.ticker);
      }
    } else {
      OthersThen(s, s1, t, m);
      StillMine(s, t, m);
      hide Others;
    }
  }

  lemma RobbedThrough(s: Store, s1: Store, t: Store, m: Id, ticker: int)
    requires Others(s, s1, m) && m in s.msgs && s1.active == s.active && Robbed(s1, t, ticker)
    requires forall x :: HoldsTicker(s1, x) == HoldsTicker(s, x)
    ensures Robbed(s, t, ticker)
  {
    hide HoldsTicker;
  }

  lemma PlainExecuted(s: Store, t: Store, m: Id, except: set<Id>, hole: set<int>, st: State)
    requires EnterPre(s, m, ExecCommand, except, hole) && !s.msgs[m].kind.ScanRequest? && !s.msgs[m].kind.ScanCancel?
    requires StatePost(Enter(s, m, ExecCommand), t, m, WaitForTransmit, except, hole, st)
    ensures EnterPost(s, t, m, ExecCommand, except, hole, t.msgs[m].now)
  {
    hide Inv, Changed, Matched, Told;
    ChangedThrough(s, Enter(s, m, ExecCommand), t, m, ExecCommand, WaitForTransmit);
    ToldThrough(s, Enter(s, m, ExecCommand), t, m, ExecCommand, WaitForTransmit);
    NotMatched(s, m);
    hide Others, Plain;
  }

  lemma NotMatched(s: Store, m: Id)
    requires m in s.msgs && !s.msgs[m].kind.ScanCancel?
    ensures !Matched(s, m)
  {
  }

  lemma Waited(s: Store, t: Store, m: Id, except: set<Id>, hole: set<int>, st: State)
    requires EnterPre(s, m, WaitForTransmit, except, hole)
    requires StatePost(Enter(s, m, WaitForTransmit), t, m, CommenceTransmit, except, hole, st)
    ensures EnterPost(s, t, m, WaitForTransmit, except, hole, t.msgs[m].now)
  {
    hide Inv, Changed, Matched, Told;
    ChangedThrough(s, Enter(s, m, WaitForTransmit), t, m, WaitForTransmit, CommenceTransmit);
    ToldThrough(s, Enter(s, m, WaitForTransmit), t, m, WaitForTransmit, CommenceTransmit);
    hide Others, Plain;
  }

  function Announced(kind: Kind): Sent {
    if kind.ScanRequest? then ReqSent(kind.ticker) else if kind.ScanCancel? then CancelSent(kind.ticker) else OtherSent
  }

  /** What f_commence_transmit puts on the wire to TWS keeps the invariant. */
  lemma Announces(s: Store, m: Id, except: set<Id>, hole: set<int>)
    requires EnterPre(s, m, CommenceTransmit, except, hole)
    ensures Pre(Transmit(Enter(s, m, CommenceTransmit), Announced(s.msgs[m].kind)), m, ReadyToReceiveResponse,
                except, Owed(s.msgs[m].kind, CommenceTransmit, hole))
  {
    hide Listed, Subscribed, WellFormed, WireKept, Open, HoldsTicker, TickersDistinct;
    var s1 := Enter(s, m, CommenceTransmit);
    Rewritten(s, m, s1.msgs[m], except, hole);
    var kind := s.msgs[m].kind;
    hide Distinct, WithinLimit, Fine;
    if kind.ScanRequest? {
      RequestInv(s1, m, except + {m});
    } else if kind.ScanCancel? {
      CancelInv(s1, kind.ticker, except + {m}, hole);
    } else {
      OtherInv(s1, except + {m}, hole);
    }
    hide Inv;
  }

  lemma Commenced(s: Store, t: Store, m: Id, except: set<Id>, hole: set<int>, st: State, err: bool)
    requires EnterPre(s, m, CommenceTransmit, except, hole)
    requires StatePost(Transmit(Enter(s, m, CommenceTransmit), Announced(s.msgs[m].kind)), t, m, ReadyToReceiveResponse,
                       except, Owed(s.msgs[m].kind, CommenceTransmit, hole), st)
    ensures m in t.msgs && EnterPost(s, t, m, CommenceTransmit, except, hole, if err then Failed else t.msgs[m].now)
    ensures t.msgs[m].now == ReadyToReceiveResponse
  {
    hide Inv, Changed, Matched;
    var s1 := Transmit(Enter(s, m, CommenceTransmit), Announced(s.msgs[m].kind));
    ChangedThrough(s, s1, t, m, CommenceTransmit, ReadyToReceiveResponse);
    CommencedSlots(s1, t, m);
    ToldCommenced(s, t, m);
    hide Others, Plain, Told;
  }

  lemma ToldCommenced(s: Store, t: Store, m: Id)
    requires m in s.msgs && m in t.msgs
    requires Told(Transmit(Enter(s, m, CommenceTransmit), Announced(s.msgs[m].kind)), t, m, ReadyToReceiveResponse)
    requires t.msgs[m].now == ReadyToReceiveResponse
    ensures Told(s, t, m, CommenceTransmit)
  {
    var s1 := Transmit(Enter(s, m, CommenceTransmit), Announced(s.msgs[m].kind));
    hide HoldsTicker;
    NewsJoins(s, s1, t);
    assert News(s, s1) == [Announced(s.msgs[m].kind)];
  }

  lemma CommencedSlots(s: Store, t: Store, m: Id)
    requires m in s.msgs && m in t.msgs && Changed(s, t, m, ReadyToReceiveResponse)
    ensures s.msgs[m].kind.ScanRequest? ==> t.active == s.active
  {
    hide Others;
  }

  lemma NoMoreHolders(s: Store, t: Store, m: Id, ticker: int)
    requires Cancelled(s, t, m, ticker) && !HoldsTicker(s, ticker)
    ensures !HoldsTicker(t, ticker)
  {
  }

  /** Before the handler of EXEC_COMMAND goes on to WAIT_FOR_TRANSMIT. */
  lemma ExecWaits(s: Store, m: Id, r: Req, except: set<Id>, hole: set<int>)
    requires EnterPre(s, m, ExecCommand, except, hole) && !r.kind.ScanCancel?
    requires r == Enter(s, m, ExecCommand).msgs[m].(limited := r.limited) && r.limited == r.kind.ScanRequest?
    ensures Pre(Put(s, m, r), m, WaitForTransmit, except, hole)
  {
    Rewritten(s, m, r, except, hole);
    hide Inv;
  }

  lemma MatchedStill(s: Store, m: Id, r: Req)
    requires m in s.msgs && r.kind == s.msgs[m].kind
    ensures Matched(s, m) == Matched(Put(s, m, r), m)
  {
    var t := Put(s, m, r);
    assert forall k :: k in s.msgs ==> t.msgs[k].kind == s.msgs[k].kind;
  }

  lemma CancelWaits(s: Store, t: Store, m: Id, except: set<Id>, hole: set<int>)
    requires EnterPre(s, m, ExecCommand, except, hole) && s.msgs[m].kind.ScanCancel?
    requires Cancelled(Registered(s, m, ExecCommand), t, m, s.msgs[m].kind.ticker) && Inv(t, except + {m}, hole)
    requires Plain(t, except)
    ensures Pre(t, m, WaitForTransmit, except, hole) && |t.active| <= |s.active|
    ensures t.msgs[m].kind == s.msgs[m].kind
  {
    hide Inv;
  }

  lemma ConclusionEntered(s: Store, t: Store, m: Id, to: State, except: set<Id>, hole: set<int>)
    requires m in s.msgs && m in t.msgs && t.msgs[m].kind == s.msgs[m].kind && Concluded(to)
    requires Inv(t, except, hole) && Changed(s, t, m, to) && Told(s, t, m, to)
    requires s.msgs[m].kind.ScanRequest? ==> t.active == s.active && t.msgs[m].limited == s.msgs[m].limited
    requires t.msgs[m].now in {to, Destruction} && Ended(t.msgs[m], to)
    ensures EnterPost(s, t, m, to, except, hole, t.msgs[m].now)
  {
    hide Inv, Changed, Matched, Told;
  }

  /** The requester's handler of a task's end drives the back-end's own requests to destruction. */
  lemma Destroyed(s: Store, t: Store, m: Id, to: State, except: set<Id>, hole: set<int>, st: State)
    requires EnterPre(s, m, to, except, hole) && to in {TaskCompleted, Failed, Aborted} && s.msgs[m].mine
    requires StatePost(Enter(s, m, to), t, m, Destruction, except, hole, st)
    ensures EnterPost(s, t, m, to, except, hole, t.msgs[m].now)
  {
    hide Inv, Distinct, HoldsTicker, Matched, Changed, Plain, EnterPost, Told;
    ChangedThrough(s, Enter(s, m, to), t, m, to, Destruction);
    ToldThrough(s, Enter(s, m, to), t, m, to, Destruction);
    ConclusionEntered(s, t, m, to, except, hole);
  }

  lemma Destroys(s: Store, m: Id, to: State, except: set<Id>, hole: set<int>)
    requires EnterPre(s, m, to, except, hole) && to in {TaskCompleted, Failed, Aborted} && s.msgs[m].mine
    ensures Pre(Enter(s, m, to), m, Destruction, except, hole)
  {
    Rewritten(s, m, Enter(s, m, to).msgs[m], except, hole);
    hide Inv;
  }

  /** A conclusion whose handler runs elsewhere, or that ends the message, marks it. */
  lemma Marks(s: Store, m: Id, to: State, except: set<Id>, hole: set<int>)
    requires EnterPre(s, m, to, except, hole) && Concluded(to)
    requires to == Destruction || !s.msgs[m].mine
    ensures EnterPost(s, Mark(Enter(s, m, to), m), m, to, except, hole, to)
  {
    hide Inv, Others, Cancelled, HoldsTicker, Matched, Plain, EnterPost, Fine, Changed, Told;
    var s1 := Enter(s, m, to);
    var t := Mark(s1, m);
    MarkedFine(s, m, to, except, hole);
    Rewritten(s, m, s1.msgs[m], except, hole);
    MarkInv(s1, m, except + {m}, hole);
    SettleInv(t, m, except, hole);
    MarkedTale(s, m, to);
    ConclusionEntered(s, t, m, to, except, hole);
  }

  /** Entering and marking touches nobody else and tells TWS nothing. */
  lemma MarkedTale(s: Store, m: Id, to: State)
    requires m in s.msgs && Concluded(to)
    requires s.msgs[m].kind.ScanRequest? ==> m !in s.active
    requires s.msgs[m].kind.ScanCancel? && s.msgs[m].limited ==> !HoldsTicker(s, s.msgs[m].kind.ticker)
    ensures var t := Mark(Enter(s, m, to), m); Changed(s, t, m, to) && Told(s, t, m, to)
  {
    var t := Mark(Enter(s, m, to), m);
    assert Others(s, t, m);
    Idle(s, t, m);
    NoNews(s, t);
    hide HoldsTicker;
  }

  lemma MarkedFine(s: Store, m: Id, to: State, except: set<Id>, hole: set<int>)
    requires EnterPre(s, m, to, except, hole) && Concluded(to)
    requires to == Destruction || !s.msgs[m].mine
    ensures var t := Mark(Enter(s, m, to), m); Fine(t, m) && m !in t.active
  {
  }

  lemma Idle(s: Store, t: Store, m: Id)
    requires Others(s, t, m) && t.active == s.active && m in s.msgs
    ensures forall x :: HoldsTicker(t, x) == HoldsTicker(s, x)
    ensures s.msgs[m].kind.ScanCancel? ==> Cancelled(s, t, m, s.msgs[m].kind.ticker)
  {
  }

  /** Nothing happens on entering READY_TO_RECEIVE_RESPONSE, nor when the back-end's own request has its response. */
  lemma Settles(s: Store, m: Id, to: State, except: set<Id>, hole: set<int>)
    requires EnterPre(s, m, to, except, hole)
    requires to == ReadyToReceiveResponse || (to == ResponseComplete && s.msgs[m].mine)
    ensures EnterPost(s, Enter(s, m, to), m, to, except, hole, to)
  {
    hide Inv;
    HoldersScan(s, except + {m}, hole);
    var s1 := Enter(s, m, to);
    Rewritten(s, m, s1.msgs[m], except, hole);
    SettleInv(s1, m, except, hole);
    Idle(s, s1, m);
    NoNews(s, s1);
  }

  lemma HoldersScan(s: Store, except: set<Id>, hole: set<int>)
    requires Inv(s, except, hole)
    ensures forall k :: k in s.active ==> s.IsScan(k) && s.msgs[k].limited
  {
  }

  // ------------------------------------------------------------------ giving up a slot

  function OwnCancel(ticker: int): Req {
    Req(ScanCancel(ticker), Initialized, Some(Initialized), true, false)
  }

  /** The slot of `h` is given up, and a cancel built that TWS is owed. */
  function Relinquished(s: Store, m: Id, h: Id, c: Id): Store
    requires m in s.msgs && s.IsScan(h)
  {
    Join(Vacate(s, m, h), c, OwnCancel(s.msgs[h].kind.ticker))
  }

  /** The limiter, told that `m` concludes, has found `h` on its list. */
  ghost predicate Releasing(s: Store, m: Id, h: Id, to: State, except: set<Id>, hole: set<int>) {
    && Pre(s, m, to, except, hole) && Concluded(to) && h in s.active && s.IsScan(h)
    && (s.msgs[m].kind.ScanRequest? || s.msgs[m].kind.ScanCancel?)
    && s.msgs[h].kind.ticker == s.msgs[m].kind.ticker
  }

  /** A subscription is settled until the change is made; a cancel is not. */
  ghost function Pending(s: Store, m: Id, except: set<Id>): set<Id> {
    if s.IsScan(m) then except else except + {m}
  }

  lemma Relinquishes(s: Store, m: Id, h: Id, to: State, c: Id, except: set<Id>, hole: set<int>)
    requires Releasing(s, m, h, to, except, hole) && c !in s.msgs
    ensures Pre(Relinquished(s, m, h, c), c, ExecCommand, Pending(s, m, except), hole + {s.msgs[h].kind.ticker})
    ensures Matched(Relinquished(s, m, h, c), c)
  {
    hide Pre, Inv, HoldsTicker;
    ReleasingInv(s, m, h, to, except, hole);
    var ticker := s.msgs[h].kind.ticker;
    var t := Relinquished(s, m, h, c);
    var pending := Pending(s, m, except);
    VacateInv(s, m, h, pending, hole);
    JoinInv(Vacate(s, m, h), c, OwnCancel(ticker), pending, hole + {ticker});
    RelinquishedPlain(s, m, h, c, pending);
    CancelReady(t, h, c, ticker, pending, hole + {ticker});
  }

  lemma CancelReady(t: Store, h: Id, c: Id, ticker: int, except: set<Id>, hole: set<int>)
    requires h in t.msgs && t.msgs[h].kind == ScanRequest(ticker) && c in t.msgs && t.msgs[c] == OwnCancel(ticker)
    requires Plain(t, except) && c !in except && Inv(t, except + {c}, hole)
    ensures Pre(t, c, ExecCommand, except, hole) && Matched(t, c)
  {
    hide Inv;
  }

  lemma RelinquishedPlain(s: Store, m: Id, h: Id, c: Id, pending: set<Id>)
    requires m in s.msgs && s.IsScan(h) && c !in s.msgs && Plain(s, pending)
    ensures Plain(Relinquished(s, m, h, c), pending) && c !in pending
  {
  }

  lemma ReleasingInv(s: Store, m: Id, h: Id, to: State, except: set<Id>, hole: set<int>)
    requires Releasing(s, m, h, to, except, hole)
    ensures m in s.msgs && Inv(s, Pending(s, m, except), hole) && Plain(s, Pending(s, m, except))
    ensures h !in Pending(s, m, except) && (m == h || m !in s.active) && (s.IsScan(m) ==> m == h)
  {
    if s.IsScan(m) {
      SettleInv(s, m, except, hole) by { assert Fine(s, m); }
    }
  }

  lemma Relinquishment(s: Store, m: Id, h: Id, to: State, c: Id, u: Store, except: set<Id>, hole: set<int>, st: State)
    requires Releasing(s, m, h, to, except, hole) && s.msgs[m].limited && c !in s.msgs
    requires Pre(Relinquished(s, m, h, c), c, ExecCommand, Pending(s, m, except), hole + {s.msgs[h].kind.ticker})
    requires Matched(Relinquished(s, m, h, c), c)
    requires StatePost(Relinquished(s, m, h, c), u, c, ExecCommand,
       Pending(s, m, except), hole + {s.msgs[h].kind.ticker}, st)
    ensures c in u.msgs && u.msgs[c].now == Destruction && u.msgs[c].mine
    ensures LimiterPost(s, Leave(u, c), m, to, except, hole, Proceed)
  {
    hide Matched, Pre, StatePost, Distinct, Told, HoldsTicker, Inv, Cancelled, TickersDistinct, Listed, Others, Robbed;
    hide AllAborted, Relinquished, Without;
    var ticker := s.msgs[h].kind.ticker;
    var pending := Pending(s, m, except);
    ReleasingFacts(s, m, h, to, c, except, hole);
    CancelDone(Relinquished(s, m, h, c), u, c, pending, hole + {ticker}, st);
    RelinquishedInv(u, c, m, pending, hole, ticker);
    assert pending + {m} == except + {m};
    RelinquishedSlot(s, m, h, c, u);
    RelinquishedTold(s, m, h, to, c, u);
    if s.IsScan(m) {
      OthersRestored(s, m, c, u);
    } else {
      CancelledRestored(s, m, h, c, u);
      HolderRobbed(s, m, h, c, u);
    }
  }

  lemma ReleasingFacts(s: Store, m: Id, h: Id, to: State, c: Id, except: set<Id>, hole: set<int>)
    requires Releasing(s, m, h, to, except, hole) && c !in s.msgs
    ensures Listed(s) && TickersDistinct(s) && Distinct(s.active) && m !in except && m in s.msgs
    ensures s.msgs[h].limited && h !in Without(s.active, h) && HoldsTicker(s, s.msgs[h].kind.ticker)
    ensures c !in Pending(s, m, except)
    ensures var t := Relinquished(s, m, h, c); c in t.msgs && t.msgs[c] == OwnCancel(s.msgs[h].kind.ticker)
  {
    WithoutDistinct(s.active, h);
    assert c !in Pending(s, m, except) by { NotPending(s, m, h, c, to, except, hole); }
  }

  /** The holder is aborted by the cancel built in its stead, which does not find the slot it has lost. */
  lemma HolderRobbed(s: Store, m: Id, h: Id, c: Id, u: Store)
    requires TickersDistinct(s) && s.IsScan(h) && h in s.active && s.msgs[h].limited && c !in s.msgs
    requires m in s.msgs && !s.IsScan(m) && h !in Without(s.active, h)
    requires Cancelled(Relinquished(s, m, h, c), u, c, s.msgs[h].kind.ticker) && AllAborted(u, s.msgs[h].kind.ticker)
    requires !HoldsTicker(Leave(u, c), s.msgs[h].kind.ticker)
    ensures Robbed(s, Leave(u, c), s.msgs[h].kind.ticker)
  {
    var t := Relinquished(s, m, h, c);
    hide HoldsTicker;
    assert t.msgs[h] == s.msgs[h] && ObserverKept(t, u, h);
  }

  lemma NotPending(s: Store, m: Id, h: Id, c: Id, to: State, except: set<Id>, hole: set<int>)
    requires Releasing(s, m, h, to, except, hole) && c !in s.msgs
    ensures c !in Pending(s, m, except)
  {
    hide Inv;
  }

  lemma RelinquishedTold(s: Store, m: Id, h: Id, to: State, c: Id, u: Store)
    requires TickersDistinct(s) && Distinct(s.active) && s.IsScan(h) && h in s.active && m in s.msgs && c !in s.msgs
    requires if s.IsScan(m) then m == h else s.msgs[m].kind.ScanCancel?
    requires Concluded(to) && s.msgs[m].limited && s.msgs[h].kind.ticker == s.msgs[m].kind.ticker
    requires c in u.msgs && Told(Relinquished(s, m, h, c), u, c, ExecCommand)
    requires m in u.msgs
    ensures m in Leave(u, c).msgs && Told(s, Leave(u, c), m, to)
  {
    LastHolder(s, m, h, c);
    assert HoldsTicker(s, s.msgs[h].kind.ticker);
    hide HoldsTicker, TickersDistinct, Distinct;
    assert News(s, Leave(u, c)) == News(Relinquished(s, m, h, c), u);
  }

  lemma CancelDone(s: Store, u: Store, c: Id, except: set<Id>, hole: set<int>, st: State)
    requires c in s.msgs && s.msgs[c].kind.ScanCancel? && s.msgs[c].mine && Matched(s, c)
    requires StatePost(s, u, c, ExecCommand, except, hole, st)
    ensures Cancelled(s, u, c, s.msgs[c].kind.ticker)
    ensures c in u.msgs && Told(s, u, c, ExecCommand)
    ensures c in u.msgs && u.msgs[c].now == Destruction && u.msgs[c].kind == s.msgs[c].kind
    ensures Inv(u, except, hole - {s.msgs[c].kind.ticker}) && AllAborted(u, s.msgs[c].kind.ticker)
  {
    hide Inv, Cancelled, Matched, Told, AllAborted;
  }

  lemma RelinquishedInv(u: Store, c: Id, m: Id, except: set<Id>, hole: set<int>, ticker: int)
    requires c in u.msgs && u.msgs[c].kind.ScanCancel? && Inv(u, except, hole + {ticker} - {ticker})
    ensures Inv(Leave(u, c), except + {m}, hole)
  {
    HoleInv(u, except, hole + {ticker} - {ticker}, hole);
    assert c !in u.active by { assert SlotsKept(u, except); }
    ExceptInv(u, c, except, hole);
    LeaveInv(u, c, except, hole);
    ExceptInv(Leave(u, c), m, except, hole);
  }

  lemma RelinquishedSlot(s: Store, m: Id, h: Id, c: Id, u: Store)
    requires TickersDistinct(s) && Distinct(s.active) && s.IsScan(h) && m in s.msgs && c !in s.msgs
    requires Cancelled(Relinquished(s, m, h, c), u, c, s.msgs[h].kind.ticker)
    ensures u.active == Without(s.active, h) && m in u.msgs && !u.msgs[m].limited
    ensures !HoldsTicker(Leave(u, c), s.msgs[h].kind.ticker)
    ensures c in u.msgs && u.msgs[c].mine
  {
    LastHolder(s, m, h, c);
    NoMoreHolders(Relinquished(s, m, h, c), u, c, s.msgs[h].kind.ticker);
  }

  lemma LastHolder(s: Store, m: Id, h: Id, c: Id)
    requires TickersDistinct(s) && Distinct(s.active) && s.IsScan(h) && m in s.msgs && c !in s.msgs
    ensures !HoldsTicker(Relinquished(s, m, h, c), s.msgs[h].kind.ticker)
  {
    var t := Relinquished(s, m, h, c);
    WithoutDistinct(s.active, h);
    forall k | k in t.active && t.IsScan(k) ensures t.msgs[k].kind.ticker != s.msgs[h].kind.ticker {
      assert k != h && (k != c ==> s.IsScan(k));
    }
  }

  /** The cancel has come and gone; what it does to the lists is undone with it. */
  lemma ListsRestored(s: Store, m: Id, h: Id, c: Id, u: Store)
    requires Listed(s) && s.IsScan(h) && m in s.msgs && c !in s.msgs
    requires Cancelled(Relinquished(s, m, h, c), u, c, s.msgs[h].kind.ticker)
    ensures SameLists(s, Leave(u, c))
  {
    RelinquishedLists(s, m, h, c);
    hide HoldsTicker, Relinquished, Listed;
  }

  lemma RelinquishedLists(s: Store, m: Id, h: Id, c: Id)
    requires Listed(s) && s.IsScan(h) && m in s.msgs && c !in s.msgs
    ensures var t := Relinquished(s, m, h, c);
      && t.msgs.Keys == s.msgs.Keys + {c} && t.wire == s.wire && t.marked == s.marked
      && t.owned == s.owned + [c] && Without(t.owned, c) == s.owned && c !in s.marked
  {
    assert c !in s.owned && c !in s.marked;
    WithoutLast(s.owned, c);
  }

  lemma OthersRestored(s: Store, m: Id, c: Id, u: Store)
    requires Listed(s) && TickersDistinct(s) && s.IsScan(m) && c !in s.msgs
    requires Cancelled(Relinquished(s, m, m, c), u, c, s.msgs[m].kind.ticker)
    ensures Others(s, Leave(u, c), m)
  {
    ListsRestored(s, m, m, c, u);
    OthersUntouched(s, m, c, u);
    hide Distinct, HoldsTicker, Vacate, Cancelled;
  }

  lemma OthersUntouched(s: Store, m: Id, c: Id, u: Store)
    requires TickersDistinct(s) && s.IsScan(m) && c !in s.msgs
    requires Cancelled(Relinquished(s, m, m, c), u, c, s.msgs[m].kind.ticker)
    ensures forall k :: k in s.msgs && k != m ==> k in u.msgs && u.msgs[k] == s.msgs[k]
    ensures m in u.msgs && u.msgs[m].kind == s.msgs[m].kind && u.msgs[m].mine == s.msgs[m].mine
  {
    hide HoldsTicker;
    var t := Relinquished(s, m, m, c);
    forall k | k in s.msgs && k != m ensures k in u.msgs && u.msgs[k] == s.msgs[k] {
      assert t.msgs[k] == s.msgs[k];
      assert s.IsScan(k) ==> s.msgs[k].kind.ticker != s.msgs[m].kind.ticker;
    }
  }

  lemma CancelledRestored(s: Store, m: Id, h: Id, c: Id, u: Store)
    requires Listed(s) && s.IsScan(h) && h in s.active && c !in s.msgs
    requires m in s.msgs && s.msgs[m].kind == ScanCancel(s.msgs[h].kind.ticker)
    requires Cancelled(Relinquished(s, m, h, c), u, c, s.msgs[h].kind.ticker) && u.active == Without(s.active, h)
    ensures Cancelled(s, Leave(u, c), m, s.msgs[h].kind.ticker)
    ensures m in u.msgs && u.msgs[m] == s.msgs[m].(limited := false)
  {
    assert HoldsTicker(s, s.msgs[h].kind.ticker);
    hide HoldsTicker, Listed, Relinquished, SameLists, OnlyMeant;
    ListsRestored(s, m, h, c, u);
    CancelledElsewhere(s, m, h, c, u);
  }

  lemma CancelledElsewhere(s: Store, m: Id, h: Id, c: Id, u: Store)
    requires s.IsScan(h) && c !in s.msgs
    requires m in s.msgs && s.msgs[m].kind == ScanCancel(s.msgs[h].kind.ticker)
    requires OnlyMeant(Relinquished(s, m, h, c), u, c, s.msgs[h].kind.ticker)
    ensures m in u.msgs && u.msgs[m] == s.msgs[m].(limited := false)
    ensures OnlyMeant(s, Leave(u, c), m, s.msgs[h].kind.ticker)
  {
    hide AbortedOr;
    var t := Relinquished(s, m, h, c);
    assert t.msgs[m] == s.msgs[m].(limited := false);
    forall k | k in s.msgs && k != m
      ensures k in u.msgs && AbortedOr(s.msgs[k], u.msgs[k]) && (!s.msgs[k].limited ==> !u.msgs[k].limited)
      ensures s.msgs[k].kind != ScanRequest(s.msgs[h].kind.ticker) ==> u.msgs[k] == s.msgs[k]
    {
      assert k in t.msgs && t.msgs[k] == s.msgs[k];
    }
  }

  // ------------------------------------------------------------------ the limiter's search

  lemma SlotOf(s: Store, m: Id, i: nat, to: State, except: set<Id>, hole: set<int>)
    requires Pre(s, m, to, except, hole) && i < |s.active| && s.IsScan(s.active[i])
    requires s.msgs[m].kind.ScanRequest? || s.msgs[m].kind.ScanCancel?
    requires s.msgs[s.active[i]].kind.ticker == s.msgs[m].kind.ticker
    ensures s.msgs[m].kind.ScanRequest? ==> s.active[i] == m
    ensures Concluded(to) ==> Subscribed(s.msgs[s.active[i]])
    ensures s.active[..i] + s.active[i + 1..] == Without(s.active, s.active[i])
  {
    WithoutSplits(s.active, s.active[i], i);
  }

  lemma NoSlot(s: Store, m: Id, to: State, except: set<Id>, hole: set<int>)
    requires Pre(s, m, to, except, hole) && s.msgs[m].limited && Concluded(to)
    requires s.msgs[m].kind.ScanRequest? || s.msgs[m].kind.ScanCancel?
    requires forall k :: k in s.active && s.IsScan(k) ==> s.msgs[k].kind.ticker != s.msgs[m].kind.ticker
    ensures LimiterPost(s, s, m, to, except, hole, Proceed)
  {
  }

  lemma Observable(s: Store, m: Id, to: State, except: set<Id>, hole: set<int>)
    requires Pre(s, m, to, except, hole) && s.msgs[m].limited
    ensures s.msgs[m].kind.ScanRequest? || s.msgs[m].kind.ScanCancel?
    ensures forall k :: k in s.active ==> s.IsScan(k)
  {
  }

  // ------------------------------------------------------------------ a cancel and the requests it is meant for

  lemma Aborts(s: Store, t: Store, c: Id, k: Id, except: set<Id>, hole: set<int>)
    requires c in s.msgs && s.msgs[c].kind.ScanCancel? && Cancelled(s, t, c, s.msgs[c].kind.ticker)
    requires Plain(t, except) && Inv(t, except + {c}, hole)
    requires k in s.msgs && s.msgs[k].kind == ScanRequest(s.msgs[c].kind.ticker)
    ensures Pre(t, k, Aborted, except + {c}, hole)
    ensures k in t.msgs && t.msgs[k].kind.ScanRequest?
    ensures t.msgs[k].now == Aborted ==> Fine(t, k) && k !in t.active && !t.msgs[k].kind.ScanCancel?
  {
    ExceptInv(t, k, except + {c}, hole);
  }

  predicate Gone(s: Store, k: Id) {
    k in s.msgs && k !in s.active && s.msgs[k].now in {Aborted, Destruction}
  }

  /** `k` is gone now, and so are those that were. */
  ghost predicate Keeping(t: Store, u: Store, k: Id) {
    Gone(u, k) && forall j :: Gone(t, j) ==> Gone(u, j)
  }

  lemma AbortedToo(s: Store, t: Store, u: Store, c: Id, k: Id, except: set<Id>, hole: set<int>, st: State)
    requires c in s.msgs && s.msgs[c].kind.ScanCancel? && Cancelled(s, t, c, s.msgs[c].kind.ticker)
    requires Plain(t, except) && Inv(t, except + {c}, hole)
    requires k in s.msgs && s.msgs[k].kind == ScanRequest(s.msgs[c].kind.ticker)
    requires k in t.msgs && StatePost(t, u, k, Aborted, except + {c}, hole, st)
    requires Freed(s, t, s.msgs[c].kind.ticker)
    ensures Plain(u, except) && Inv(u, except + {c}, hole) && Cancelled(s, u, c, s.msgs[c].kind.ticker)
    ensures c in u.msgs && c in t.msgs && u.msgs[c] == t.msgs[c] && |u.active| <= |t.active|
    ensures Keeping(t, u, k) && Freed(s, u, s.msgs[c].kind.ticker)
  {
    hide Inv, HoldsTicker, Matched, SameLists;
    var ticker := s.msgs[c].kind.ticker;
    DistinctLists(t, except + {c}, hole);
    WithoutDistinct(t.active, k);
    hide Distinct;
    assert Others(t, u, k);
    SlotHeld(t, k, except + {c}, hole);
    hide StatePost;
    OthersCancelled(t, u, c, k, ticker);
    assert u.msgs[c] == t.msgs[c];
    FreedToo(s, t, u, c, k, except, hole);
    CancelledThen(s, t, u, c, ticker);
    hide Cancelled, Freed, Told;
  }

  lemma FreedToo(s: Store, t: Store, u: Store, c: Id, k: Id, except: set<Id>, hole: set<int>)
    requires c in s.msgs && s.msgs[c].kind.ScanCancel? && Cancelled(s, t, c, s.msgs[c].kind.ticker)
    requires Inv(t, except + {c}, hole) && Freed(s, t, s.msgs[c].kind.ticker)
    requires k in t.msgs && t.msgs[k].kind == ScanRequest(s.msgs[c].kind.ticker) && k in u.msgs
    requires Told(t, u, k, Aborted) && Others(t, u, k) && u.active == Without(t.active, k) && k !in u.active
    requires u.msgs[k].limited <==> t.msgs[k].limited && k !in t.active
    ensures Freed(s, u, s.msgs[c].kind.ticker)
  {
    var ticker := s.msgs[c].kind.ticker;
    if !HoldsTicker(s, ticker) {
      NoMoreHolders(s, t, c, ticker);
    }
    TheOneHolder(t, u, k, except + {c}, hole);
    ReleasedToo(s, t, u, c, k, ticker);
    hide HoldsTicker, Inv, Cancelled, Others, Unobserved;
    NewsJoins(s, t, u);
  }

  ghost predicate Released(s: Store, t: Store, ticker: int) {
    forall k :: k in s.active && k in s.msgs && s.msgs[k].kind == ScanRequest(ticker) ==>
      k in t.active || (k in t.msgs && !t.msgs[k].limited)
  }

  lemma ReleasedToo(s: Store, t: Store, u: Store, c: Id, k: Id, ticker: int)
    requires Cancelled(s, t, c, ticker) && Released(s, t, ticker) && Others(t, u, k) && k in t.msgs
    requires u.active == Without(t.active, k) && (u.msgs[k].limited <==> t.msgs[k].limited && k !in t.active)
    ensures Released(s, u, ticker)
  {
    hide HoldsTicker;
  }

  /** Tickers differ, so the request aborted was the only one that could hold the slot. */
  lemma TheOneHolder(t: Store, u: Store, k: Id, except: set<Id>, hole: set<int>)
    requires Inv(t, except, hole) && k in t.msgs && t.msgs[k].kind.ScanRequest?
    requires Others(t, u, k) && u.active == Without(t.active, k) && k !in u.active
    ensures HoldsTicker(t, t.msgs[k].kind.ticker) <==> k in t.active
    ensures !HoldsTicker(u, t.msgs[k].kind.ticker)
  {
  }

  lemma SlotHeld(t: Store, k: Id, except: set<Id>, hole: set<int>)
    requires k in t.msgs && t.msgs[k].kind.ScanRequest?
    ensures k in t.active ==> HoldsTicker(t, t.msgs[k].kind.ticker)
    ensures k !in t.active ==> Without(t.active, k) == t.active
  {
  }

  lemma EveryoneAborted(s: Store, t: Store, c: Id, q: seq<Id>, except: set<Id>, hole: set<int>)
    requires c in s.msgs && s.msgs[c].kind.ScanCancel? && Cancelled(s, t, c, s.msgs[c].kind.ticker)
    requires c !in except && Plain(t, except) && Inv(t, except + {c}, hole)
    requires forall k :: k in q <==> k in s.msgs && s.msgs[k].kind == ScanRequest(s.msgs[c].kind.ticker)
    requires forall j :: 0 <= j < |q| ==> Gone(t, q[j])
    ensures AllAborted(t, s.msgs[c].kind.ticker)
    ensures !HoldsTicker(t, s.msgs[c].kind.ticker) && Pre(t, c, Destruction, except, hole)
  {
    forall k | k in t.active && t.IsScan(k) ensures t.msgs[k].kind.ticker != s.msgs[c].kind.ticker {
      assert k in s.msgs && s.msgs[k].kind == t.msgs[k].kind && k !in q;
    }
  }

  lemma FreedAll(s: Store, t: Store, u: Store, c: Id)
    requires c in s.msgs && s.msgs[c].kind.ScanCancel? && Cancelled(s, t, c, s.msgs[c].kind.ticker)
    requires c in t.msgs && c in u.msgs && Told(t, u, c, Destruction) && t.msgs[c].kind == s.msgs[c].kind
    requires Freed(s, t, s.msgs[c].kind.ticker)
    requires !HoldsTicker(t, s.msgs[c].kind.ticker) && !HoldsTicker(u, s.msgs[c].kind.ticker)
    requires Cancelled(t, u, c, s.msgs[c].kind.ticker)
    ensures Freed(s, u, s.msgs[c].kind.ticker)
  {
    var ticker := s.msgs[c].kind.ticker;
    SameKindsCancelled(s, t, c, ticker);
    FreedIsUnobserved(s, t, ticker);
    StillUnobserved(s, t, u, c, ticker);
    assert Released(s, u, ticker);
    hide HoldsTicker, Cancelled, Released;
    NewsJoins(s, t, u);
  }

  lemma CancelMarked(s: Store, t: Store, u: Store, c: Id, except: set<Id>, hole: set<int>, st: State)
    requires c in s.msgs && s.msgs[c].kind.ScanCancel? && Cancelled(s, t, c, s.msgs[c].kind.ticker)
    requires c in t.msgs && StatePost(t, u, c, Destruction, except, hole, st)
    requires Plain(t, except) && AllAborted(t, s.msgs[c].kind.ticker) && !HoldsTicker(t, s.msgs[c].kind.ticker)
    requires Freed(s, t, s.msgs[c].kind.ticker)
    ensures Freed(s, u, s.msgs[c].kind.ticker)
    ensures AllAborted(u, s.msgs[c].kind.ticker)
    ensures Cancelled(s, u, c, s.msgs[c].kind.ticker) && Inv(u, except + {c}, hole) && Plain(u, except)
    ensures c in u.msgs && u.msgs[c].now == Destruction && !HoldsTicker(u, s.msgs[c].kind.ticker)
  {
    hide Inv, HoldsTicker, Matched, AllAborted, Freed, Told;
    KeepsMine(s, t, c, s.msgs[c].kind.ticker);
    CancelledThen(s, t, u, c, s.msgs[c].kind.ticker);
    StillAborted(t, u, c, s.msgs[c].kind.ticker);
    NoMoreHolders(t, u, c, s.msgs[c].kind.ticker);
    FreedAll(s, t, u, c);
    ExceptInv(u, c, except, hole);
  }

  // ------------------------------------------------------------------ the re-entry ends

  /** Nesting depth of what a state change may still start. */
  function Depth(to: State): nat {
    match to
    case ExecCommand => 9
    case WaitForTransmit => 7
    case CommenceTransmit => 5
    case Destruction => 1
    case ReadyToReceiveResponse => 2
    case _ => 3
  }

  lemma FailureShrinks(s: Store, t: Store, m: Id, to: State, except: set<Id>, hole: set<int>, st: State)
    requires m in s.msgs && Pre(s, m, to, except, hole) && ExecPost(s, t, m, to, except, hole, st)
    requires st != t.msgs[m].now
    ensures Admitting(s.msgs[m].kind, to) || (|t.active| <= |s.active| && Depth(to) > Depth(Failed))
  {
    hide Inv, Distinct, HoldsTicker;
  }

  // ------------------------------------------------------------------ between state changes

  lemma Answers(s: Store, t: Store, m: Id, to: State, except: set<Id>, hole: set<int>, st: State)
    requires m in s.msgs && StatePost(s, t, m, to, except, hole, st)
    ensures m in t.msgs && st == t.msgs[m].now
  {
    hide Inv;
  }

  /** A new request may be executed, whatever it is. */
  lemma Joined(s: Store, m: Id, r: Req, except: set<Id>)
    requires Inv(s, except, {}) && Plain(s, except) && m !in s.msgs && r.kind != Answer && !r.limited
    requires r.kind.ScanRequest? ==> forall k :: s.IsScan(k) ==> s.msgs[k].kind.ticker < r.kind.ticker
    ensures Pre(Join(s, m, r), m, ExecCommand, except, {}) && Plain(Join(s, m, r), except)
    ensures Inv(Join(s, m, r), except + {m}, {})
  {
    JoinInv(s, m, r, except, {});
    var t := Join(s, m, r);
    assert m !in s.active;
    hide Inv;
  }

  lemma SameKinds(s: Store, t: Store, m: Id, to: State, except: set<Id>, hole: set<int>, st: State)
    requires m in s.msgs && StatePost(s, t, m, to, except, hole, st)
    ensures t.msgs.Keys == s.msgs.Keys && t.owned == s.owned && s.wire <= t.wire
    ensures forall k :: k in s.msgs ==> t.msgs[k].kind == s.msgs[k].kind && t.msgs[k].mine == s.msgs[k].mine
    ensures Inv(t, except, Owed(s.msgs[m].kind, to, hole)) && (Plain(s, except) ==> Plain(t, except))
  {
    hide Inv, HoldsTicker;
  }

  lemma Marked(s: Store)
    requires Inv(s, {}, {}) && s.marked != []
    ensures var m := s.marked[0];
      && m in s.msgs && Without(s.marked, m) == s.marked[1..] && m !in s.marked[1..]
      && (Departing(s.msgs[m]) ==> m !in s.active)
      && (!Departing(s.msgs[m]) ==> Inv(s.(marked := s.marked[1..]), {}, {}))
  {
    var t := s.(marked := s.marked[1..]);
    WithoutDistinct(s.marked, s.marked[0]);
    assert Fine(s, s.marked[0]);
    if !Departing(s.msgs[s.marked[0]]) {
      forall k | k in t.msgs ensures Fine(t, k) {
        assert Fine(s, k);
      }
      assert forall x :: HoldsTicker(s, x) ==> HoldsTicker(t, x);
    }
  }

  lemma Departed(s: Store, m: Id)
    requires Inv(s, {}, {}) && m in s.msgs && m !in s.active
    ensures Inv(Leave(s, m), {}, {})
  {
    ExceptInv(s, m, {}, {});
    LeaveInv(s, m, {}, {});
  }

  /** A message whose write failed is owned again, at the end of the list, and ready to be executed again. */
  lemma Rejoined(s: Store, m: Id)
    requires Inv(s, {}, {}) && m in s.msgs && m !in s.active && Departing(s.msgs[m]) && !s.msgs[m].mine
    ensures var t := Join(Leave(s, m), m, s.msgs[m]);
      Pre(t, m, s.msgs[m].now, {}, {}) && t.active == s.active
  {
    var t := Leave(s, m);
    RejoinReady(s, m);
    hide Inv;
    Departed(s, m);
    JoinInv(t, m, s.msgs[m], {}, {});
    hide Plain;
    assert Plain(Join(t, m, s.msgs[m]), {}) by { NoneMissing(Join(t, m, s.msgs[m])); }
  }

  lemma NoneMissing(s: Store)
    ensures Plain(s, {})
  {
  }

  lemma RejoinReady(s: Store, m: Id)
    requires Inv(s, {}, {}) && m in s.msgs
    ensures WellFormed(s.msgs[m])
    ensures s.msgs[m].kind.ScanRequest? ==>
      forall k :: Leave(s, m).IsScan(k) ==> Leave(s, m).msgs[k].kind.ticker != s.msgs[m].kind.ticker
  {
  }

  lemma Returned(s: Store, u: Store, m: Id)
    requires m in s.msgs && m !in s.active && Departing(s.msgs[m]) && !s.msgs[m].mine && m in u.msgs
    requires StatePost(Join(Leave(s, m), m, s.msgs[m]), u, m, s.msgs[m].now, {}, {}, u.msgs[m].now)
    ensures m in u.msgs && u.msgs[m].now in {s.msgs[m].now, Destruction} && Departing(u.msgs[m]) && m in u.marked
    ensures (!s.msgs[m].kind.ScanCancel? ==> u.active == s.active) && s.wire <= u.wire && Inv(u, {}, {})
    ensures u.msgs.Keys == s.msgs.Keys
    ensures forall k :: k in s.msgs ==> u.msgs[k].kind == s.msgs[k].kind
  {
    hide Join, Leave, StatePost, Inv, Fine;
    var t := Join(Leave(s, m), m, s.msgs[m]);
    OutAndIn(s, m);
    SameKinds(t, u, m, s.msgs[m].now, {}, {}, u.msgs[m].now);
    ConcludedAgain(t, u, m);
    DepartsAgain(s, u, m);
  }

  /** Back from the wire nothing but the place in the lists has changed. */
  lemma OutAndIn(s: Store, m: Id)
    requires m in s.msgs
    ensures var t := Join(Leave(s, m), m, s.msgs[m]); t.msgs == s.msgs && t.active == s.active && t.wire == s.wire
  {
  }

  lemma DepartsAgain(s: Store, u: Store, m: Id)
    requires m in s.msgs && Departing(s.msgs[m]) && !s.msgs[m].mine && m in u.msgs && !u.msgs[m].mine
    requires u.msgs[m].now in {s.msgs[m].now, Destruction} && Inv(u, {}, {})
    ensures Departing(u.msgs[m]) && m in u.marked
  {
    assert Fine(u, m);
  }

  lemma ConcludedAgain(t: Store, u: Store, m: Id)
    requires m in t.msgs && m !in t.active && Concluded(t.msgs[m].now) && m in u.msgs
    requires StatePost(t, u, m, t.msgs[m].now, {}, {}, u.msgs[m].now)
    ensures u.msgs[m].now in {t.msgs[m].now, Destruction}
    ensures !t.msgs[m].kind.ScanCancel? ==> u.active == t.active
  {
    hide Inv, Others, Cancelled, HoldsTicker, Matched, AllAborted, Distinct;
  }

  // ------------------------------------------------------------------ the round of the waiting requests

  /** The rotated order in which a list is visited. */
  function Rotated(q: seq<Id>, start: nat): (r: seq<Id>)
    ensures |r| == |q|
  {
    if q == [] then [] else q[start % |q|..] + q[..start % |q|]
  }

  function RotatedIndex(i: nat, start: nat, n: nat): (r: nat)
    requires n > 0
    ensures r < n
  {
    (i + start) % n
  }

  lemma RotatedAt(q: seq<Id>, start: nat, i: nat)
    requires i < |q|
    ensures Rotated(q, start)[i] == q[(i + start) % |q|]
  {
    var n, k, r := |q|, start / |q|, start % |q|;
    if i + r < n {
      Quotient(i + start, k, i + r, n);
    } else {
      assert (k + 1) * n == k * n + n;
      Quotient(i + start, k + 1, i + r - n, n);
    }
  }

  /** The round visits every entry exactly once. */
  lemma RotatedOnce(q: seq<Id>, start: nat)
    ensures multiset(Rotated(q, start)) == multiset(q)
    ensures Distinct(q) ==> Distinct(Rotated(q, start))
  {
    if q != [] {
      var r := start % |q|;
      assert q == q[..r] + q[r..];
    }
  }

  /** The requests not visited yet are as they were; a visited one still waits only for want of a slot. */
  ghost predicate Swept(s: Store, t: Store, visited: seq<Id>) {
    && (forall k :: k in s.msgs && k !in visited ==> k in t.msgs && t.msgs[k] == s.msgs[k])
    && (forall k :: k in s.msgs && s.msgs[k].now != WaitForTransmit ==> k in t.msgs && t.msgs[k] == s.msgs[k])
    && (forall k :: k in visited && k in t.msgs && t.msgs[k].now == WaitForTransmit ==> |t.active| == MAX_SUBSCRIPTIONS)
    && s.wire <= t.wire && AllAttempted(s, t, visited)
  }

  predicate AllAttempted(s: Store, t: Store, visited: seq<Id>) {
    forall k :: k in visited && s.IsScan(k) && s.msgs[k].now == WaitForTransmit ==> k in t.msgs && Attempted(s, t, k)
  }

  /** A waiting subscription still waits, or has been requested of TWS and now runs or has failed. */
  predicate Attempted(s: Store, t: Store, k: Id)
    requires s.IsScan(k) && k in t.msgs
  {
    || t.msgs[k].now == WaitForTransmit
    || (t.msgs[k].now == ReadyToReceiveResponse && k in t.active && ReqSent(s.msgs[k].kind.ticker) in News(s, t))
    || (t.msgs[k].now in {Failed, Destruction} && k in t.marked && ReqSent(s.msgs[k].kind.ticker) in News(s, t))
  }

  predicate Quiescent(s: Store) {
    forall k :: k in s.msgs ==> Settled(s.msgs[k])
  }

  lemma Unvisited(s: Store, t: Store, start: nat, i: nat)
    requires Inv(t, {}, {}) && t.owned == s.owned && t.msgs.Keys == s.msgs.Keys && i < |s.owned|
    requires Swept(s, t, Rotated(s.owned, start)[..i])
    requires Quiescent(s)
    ensures var m := s.owned[RotatedIndex(i, start, |s.owned|)];
      && m in t.msgs && m in s.msgs && t.msgs[m] == s.msgs[m] && Settled(t.msgs[m])
      && Rotated(s.owned, start)[..i] + [m] == Rotated(s.owned, start)[..i + 1]
  {
    hide Inv, Swept, Rotated, Settled, Distinct;
    var q := Rotated(s.owned, start);
    var m := q[i];
    DistinctLists(t, {}, {});
    RotatedOnce(s.owned, start);
    RotatedAt(s.owned, start, i);
    assert m in s.owned;
    NotBefore(q, i);
    SweptSame(s, t, q[..i], m);
  }

  lemma NotBefore(q: seq<Id>, i: nat)
    requires Distinct(q) && i < |q|
    ensures q[i] !in q[..i] && q[..i] + [q[i]] == q[..i + 1]
  {
  }

  lemma SweptSame(s: Store, t: Store, visited: seq<Id>, m: Id)
    requires Swept(s, t, visited) && m in s.msgs && m !in visited
    ensures m in t.msgs && t.msgs[m] == s.msgs[m]
  {
  }

  lemma Transmittable(t: Store, m: Id)
    requires Inv(t, {}, {}) && m in t.msgs && t.msgs[m].now == WaitForTransmit && Settled(t.msgs[m])
    ensures Pre(t, m, CommenceTransmit, {}, {})
  {
    assert Fine(t, m);
    ExceptInv(t, m, {}, {});
  }

  /** Slots taken stay taken for the round, and what has been sent stays sent. */
  ghost predicate Onward(t: Store, u: Store, m: Id) {
    && Others(t, u, m) && |t.active| <= |u.active| && (forall k :: k in t.active ==> k in u.active)
  }

  lemma AttemptedNow(s: Store, t: Store, u: Store, m: Id, st: State)
    requires m in t.msgs && t.msgs[m].kind.ScanRequest? && t.msgs[m].now == WaitForTransmit
    requires s.IsScan(m) && t.msgs[m] == s.msgs[m] && s.wire <= t.wire
    requires StatePost(t, u, m, CommenceTransmit, {}, {}, st)
    ensures Onward(t, u, m) && m in u.msgs && Attempted(s, u, m) && st == u.msgs[m].now != CommenceTransmit
    ensures u.msgs[m].now == WaitForTransmit ==> |u.active| == MAX_SUBSCRIPTIONS
  {
    hide Inv, Others;
    StillMine(t, u, m);
    NewsJoins(s, t, u);
  }

  lemma AttemptedStill(s: Store, t: Store, u: Store, m: Id, k: Id)
    requires s.IsScan(k) && k in t.msgs && Attempted(s, t, k) && Onward(t, u, m) && k != m && s.wire <= t.wire
    ensures k in u.msgs && Attempted(s, u, k)
  {
    NewsJoins(s, t, u);
  }

  lemma SweptOn(s: Store, t: Store, u: Store, visited: seq<Id>, m: Id, st: State)
    requires Swept(s, t, visited) && m in t.msgs && t.msgs[m].kind.ScanRequest? && Inv(u, {}, {})
    requires m in s.msgs && s.msgs[m].now == WaitForTransmit && t.msgs[m] == s.msgs[m]
    requires StatePost(t, u, m, CommenceTransmit, {}, {}, st)
    ensures Swept(s, u, visited + [m]) && st != CommenceTransmit
  {
    hide StatePost, Attempted, Inv;
    SlotsAreLive(u);
    hide HoldsTicker;
    AttemptedNow(s, t, u, m, st);
    AttemptedMore(s, t, u, visited, m);
    hide AllAttempted;
  }

  lemma AttemptedMore(s: Store, t: Store, u: Store, visited: seq<Id>, m: Id)
    requires AllAttempted(s, t, visited) && Onward(t, u, m) && s.wire <= t.wire && s.IsScan(m) && m in u.msgs
    requires Attempted(s, u, m)
    ensures AllAttempted(s, u, visited + [m])
  {
    hide Attempted;
    forall k | k in visited + [m] && s.IsScan(k) && s.msgs[k].now == WaitForTransmit
      ensures k in u.msgs && Attempted(s, u, k)
    {
      if k != m {
        AttemptedStill(s, t, u, m, k);
      }
    }
  }

  lemma EveryoneVisited(s: Store, t: Store, start: nat)
    requires Inv(t, {}, {}) && Swept(s, t, Rotated(t.owned, start)) && t.msgs.Keys == s.msgs.Keys
    ensures forall k :: k in s.msgs && s.msgs[k].now != WaitForTransmit ==> t.msgs[k] == s.msgs[k]
    ensures forall k :: s.IsScan(k) && s.msgs[k].now == WaitForTransmit ==> Attempted(s, t, k)
    ensures forall k :: k in t.msgs && t.msgs[k].now == WaitForTransmit ==> |t.active| == MAX_SUBSCRIPTIONS
  {
    RotatedOnce(t.owned, start);
    forall k | k in t.msgs ensures k in Rotated(t.owned, start) {
      assert k in multiset(t.owned);
    }
  }

  // ------------------------------------------------------------------ orders and responses

  /** What clients and the back-end itself ask for. */
  datatype Order = Subscribe | Unsubscribe(ticker: int) | AskParameters | AskTime

  function KindOf(order: Order, ticker: int): Kind {
    match order
    case Subscribe => ScanRequest(ticker)
    case Unsubscribe(t) => ScanCancel(t)
    case AskParameters => ScanParameters
    case AskTime => CurrentTime
  }

  /** Some request subscribes to `ticker`. */
  ghost predicate Requesting(s: Store, ticker: int) {
    exists k :: k in s.msgs && s.msgs[k].kind == ScanRequest(ticker)
  }

  /**
   What becomes of a new order at once: it waits for its response if TWS accepts it, and if it is not a cancel that has
   found its subscription; otherwise it has failed, and is marked. A subscription may also have to wait for a slot.
   */
  ghost predicate Taken(s: Store, t: Store, m: Id, order: Order, fails: nat -> bool)
    requires m in t.msgs
  {
    var r := t.msgs[m];
    if order.Subscribe? && r.now == WaitForTransmit then |t.active| == MAX_SUBSCRIPTIONS
    else if fails(|s.wire|) || (order.Unsubscribe? && Requesting(s, order.ticker)) then
      r.now == (if r.mine then Destruction else Failed) && m in t.marked
    else r.now == ReadyToReceiveResponse
  }

  lemma NewIsTaken(s: Store, m: Id, r: Req, t: Store, order: Order, except: set<Id>, st: State, fails: nat -> bool)
    requires m !in s.msgs && m !in except && (exists ticker :: r.kind == KindOf(order, ticker))
    requires StatePost(Join(s, m, r), t, m, ExecCommand, except, {}, st)
    requires m in t.msgs && Resolved(Join(s, m, r), t, m, ExecCommand, fails)
    ensures Taken(s, t, m, order, fails)
  {
    var s1 := Join(s, m, r);
    assert s1.msgs[m] == r && s1.wire == s.wire;
    NewMatches(s, m, r);
    hide Inv, Changed, Told, Matched, Join, Requesting;
    assert t.msgs[m].now in {Failed, Destruction} ==> m in t.marked by {
      if t.msgs[m].now in {Failed, Destruction} {
        UnsettledIsMarked(t, m, except, {});
      }
    }
  }

  lemma NewMatches(s: Store, m: Id, r: Req)
    requires m !in s.msgs
    ensures Matched(Join(s, m, r), m) <==> r.kind.ScanCancel? && Requesting(s, r.kind.ticker)
  {
    var t := Join(s, m, r);
    assert forall k :: k in s.msgs ==> t.msgs[k] == s.msgs[k];
  }

  datatype Response =
    | ScanData
    | ScanStart(ticker: int, rows: int)
    | ScanEnd(ticker: int)
    | ScanError(ticker: int, fatal: bool)  // fatal: the service failed, or retrieved no items
    | ParametersXml(scans: nat)            // names this many market scans of interest
    | TimeIs

  /** response_is_meant_for_us: the ticker does not matter. */
  predicate IsMeantFor(r: Req, response: Response) {
    r.now == ReadyToReceiveResponse &&
    match response
    case ParametersXml(_) => r.kind.ScanParameters?
    case TimeIs => r.kind.CurrentTime?
    case _ => r.kind.ScanRequest?
  }

  /** How many requests of its own the back-end makes on account of a response. */
  function Wanted(response: Response): nat {
    if response.ParametersXml? then response.scans else 0
  }

  /** The state a request goes to in answer, if any. */
  function Answered(kind: Kind, response: Response): Option<State> {
    if kind.ScanRequest? then
      if response == ScanEnd(kind.ticker) then Some(TaskCompleted)
      else if response.ScanStart? && response.ticker == kind.ticker && response.rows <= 0 then Some(TaskCompleted)
      else if response == ScanError(kind.ticker, true) then Some(Aborted)
      else None
    else if kind.ScanParameters? && response.ParametersXml? then Some(TaskCompleted)
    else if kind.CurrentTime? && response.TimeIs? then Some(ResponseComplete)
    else None
  }

  /** All but `k` is as it was; what has come is new. */
  ghost predicate Extends(s: Store, t: Store, k: Id) {
    && s.wire <= t.wire && s.owned <= t.owned && (forall j :: j in s.marked ==> j in t.marked)
    && (forall j :: j in s.msgs ==> j in t.msgs)
    && (forall j :: j in s.msgs && j != k ==> t.msgs[j] == s.msgs[j])
    && (forall j :: j in s.active && (j != k || SameRequest(s, t, k)) ==> j in t.active)
    && (forall j :: j in t.msgs && j !in s.msgs ==> OwnSubscription(t.msgs[j]))
  }

  predicate OwnSubscription(r: Req) {
    r.kind.ScanRequest? && r.mine
  }

  predicate SameRequest(s: Store, t: Store, k: Id) {
    k in s.msgs && k in t.msgs && t.msgs[k] == s.msgs[k]
  }

  /** The request has gone to `to`; who has requested its end itself has it destroyed. */
  predicate Closed(before: Req, now: Req, to: State) {
    && now.kind == before.kind && now.mine == before.mine
    && now.now == if before.mine && to != ResponseComplete then Destruction else to
  }

  /** What a response makes of a request, whoever holds that. */
  predicate Reaction(before: Req, now: Req, response: Response) {
    if before.now != ReadyToReceiveResponse then now == before
    else
      match response
      case ScanData => now == before
      case ScanStart(ticker, rows) =>
        if before.kind == ScanRequest(ticker) && rows <= 0 then Closed(before, now, TaskCompleted) else now == before
      case ScanEnd(ticker) =>
        if before.kind == ScanRequest(ticker) then Closed(before, now, TaskCompleted) else now == before
      case ScanError(ticker, fatal) =>
        if before.kind == ScanRequest(ticker) && fatal then Closed(before, now, Aborted) else now == before
      case ParametersXml(_) =>
        if before.kind.ScanParameters? then Closed(before, now, TaskCompleted) else now == before
      case TimeIs =>
        if before.kind.CurrentTime? then Closed(before, now, ResponseComplete) else now == before
  }

  /** A request that the response leaves alone keeps its slot, too. */
  ghost predicate OneProcessed(s: Store, t: Store, k: Id, response: Response)
    requires k in s.msgs && k in t.msgs
  {
    && Reaction(s.msgs[k], t.msgs[k], response)
    && (k in s.active && SameRequest(s, t, k) ==> k in t.active)
  }

  lemma AnsweredReacts(before: Req, now: Req, response: Response)
    requires var answer := Answered(before.kind, response);
      if IsMeantFor(before, response) && answer.Some? then Closed(before, now, answer.value) else now == before
    ensures Reaction(before, now, response)
  {
  }

  ghost predicate Processed(s: Store, t: Store, k: Id, response: Response)
    requires k in s.msgs
  {
    Extends(s, t, k) && OneProcessed(s, t, k, response)
  }

  lemma Submitted(s: Store, t: Store, u: Store, m: Id, k: Id, except: set<Id>)
    requires k in s.msgs && Extends(s, t, k) && m !in t.msgs && m in u.msgs && k in t.msgs && t.msgs[k] == s.msgs[k]
    requires exists ticker ::
       StatePost(Join(t, m, Req(ScanRequest(ticker), Initialized, Some(Initialized), true, false)), u, m,
                                        ExecCommand, except, {}, u.msgs[m].now)
    ensures Extends(s, u, k) && k in u.msgs && u.msgs[k] == s.msgs[k]
  {
    hide Inv;
    var ticker :| StatePost(Join(t, m, Req(ScanRequest(ticker), Initialized, Some(Initialized), true, false)), u, m,
                            ExecCommand, except, {}, u.msgs[m].now);
    var t1 := Join(t, m, Req(ScanRequest(ticker), Initialized, Some(Initialized), true, false));
    assert Others(t1, u, m);
    hide StatePost;
    assert forall j :: j in t.msgs ==> t1.msgs[j] == t.msgs[j];
  }

  lemma Concludes(t: Store, k: Id, response: Response, except: set<Id>)
    requires Inv(t, except, {}) && Plain(t, except) && k in t.msgs && k !in except
    requires IsMeantFor(t.msgs[k], response) && Answered(t.msgs[k].kind, response).Some?
    ensures Pre(t, k, Answered(t.msgs[k].kind, response).value, except, {})
    ensures t.msgs[k].now == ReadyToReceiveResponse && !t.msgs[k].kind.ScanCancel?
  {
    ExceptInv(t, k, except, {});
    assert WellFormed(t.msgs[k]);
    assert k in t.active ==> Subscribed(t.msgs[k]);
    hide Inv;
  }

  lemma Concludeds(s: Store, t: Store, u: Store, k: Id, response: Response, except: set<Id>, st: State)
    requires k in s.msgs && Extends(s, t, k) && k in t.msgs && t.msgs[k] == s.msgs[k] && k in u.msgs
    requires IsMeantFor(t.msgs[k], response) && Answered(t.msgs[k].kind, response).Some?
    requires StatePost(t, u, k, Answered(t.msgs[k].kind, response).value, except, {}, st)
    ensures Processed(s, u, k, response)
  {
    hide Inv, HoldsTicker, Reaction, Answered;
    assert !t.msgs[k].kind.ScanCancel?;
    AnswersConclude(s.msgs[k].kind, response);
    AnsweredReacts(s.msgs[k], u.msgs[k], response);
    ConcludedSlots(t, u, k, Answered(t.msgs[k].kind, response).value, except, st);
  }

  /** Nobody but the message that concludes gives up a slot. */
  lemma ConcludedSlots(t: Store, u: Store, k: Id, to: State, except: set<Id>, st: State)
    requires k in t.msgs && !t.msgs[k].kind.ScanCancel? && StatePost(t, u, k, to, except, {}, st)
    requires t.msgs[k].now == ReadyToReceiveResponse && to in {TaskCompleted, Aborted, ResponseComplete}
    ensures u.msgs[k] != t.msgs[k] && forall j :: j in t.active && j != k ==> j in u.active
  {
    hide Inv;
  }

  lemma AnswersConclude(kind: Kind, response: Response)
    ensures Answered(kind, response).Some? ==>
      Answered(kind, response).value in {TaskCompleted, Aborted, ResponseComplete}
  {
  }

  const REPLY: Req := Req(Answer, Initialized, Some(Initialized), true, false)

  lemma Received(s: Store, r: Id)
    requires Inv(s, {}, {}) && r !in s.msgs
    ensures Inv(Join(s, r, REPLY), {r}, {}) && Plain(Join(s, r, REPLY), {r}) && Listed(Join(s, r, REPLY))
  {
    JoinInv(s, r, REPLY, {}, {});
    assert {} + {r} == {r};
  }

  /** The first `i` of the snapshot have been processed, and nobody else is touched. */
  ghost predicate Answering(s: Store, t: Store, q: seq<Id>, i: nat, response: Response)
    requires i <= |q|
  {
    && (forall k :: k in s.msgs ==> k in t.msgs)
    && (forall k :: k in s.msgs && k in q[..i] ==> OneProcessed(s, t, k, response))
    && (forall k :: k in s.msgs && k !in q[..i] ==> t.msgs[k] == s.msgs[k])
    && (forall k :: k in s.active && k !in q[..i] ==> k in t.active)
    && (forall k :: k in t.msgs && k !in s.msgs ==> OwnSubscription(t.msgs[k]))
  }

  ghost predicate Snapshot(s: Store, q: seq<Id>, response: Response) {
    Distinct(q) && forall k :: k in q <==> k in s.msgs && IsMeantFor(s.msgs[k], response)
  }

  lemma NextAnswered(s: Store, t: Store, q: seq<Id>, i: nat, response: Response, r: Id)
    requires Snapshot(s, q, response) && i < |q| && Answering(s, t, q, i, response)
    requires r in s.msgs && s.msgs[r] == REPLY
    ensures q[i] in t.msgs && q[i] != r && IsMeantFor(t.msgs[q[i]], response)
  {
    assert q[i] in q && q[i] !in q[..i];
  }

  lemma AnsweredOne(s: Store, t: Store, u: Store, q: seq<Id>, i: nat, response: Response)
    requires Snapshot(s, q, response) && i < |q| && Answering(s, t, q, i, response)
    requires q[i] in t.msgs && Processed(t, u, q[i], response)
    ensures Answering(s, u, q, i + 1, response) && t.wire <= u.wire
  {
    assert q[i] in q && q[i] !in q[..i];
    assert q[..i + 1] == q[..i] + [q[i]];
    hide Distinct, IsMeantFor;
  }

  lemma Concluding(s: Store, t: Store, q: seq<Id>, response: Response, r: Id)
    requires Snapshot(s, q, response) && Answering(s, t, q, |q|, response) && Inv(t, {r}, {})
    requires r in s.msgs && s.msgs[r] == REPLY
    ensures r in t.msgs && t.msgs[r] == REPLY && Pre(t, r, Destruction, {}, {}) && Plain(t, {})
  {
    assert q[..|q|] == q && r !in q;
    assert {} + {r} == {r};
    hide Inv;
  }

  lemma AnswerDone(t: Store, u: Store, r: Id, st: State)
    requires r in t.msgs && StatePost(t, u, r, Destruction, {}, {}, st)
    ensures r in u.msgs && u.msgs[r].now == Destruction
  {
    hide Inv;
  }

  lemma AllAnswered(s: Store, t: Store, u: Store, q: seq<Id>, response: Response, r: Id, st: State)
    requires r !in s.msgs && Snapshot(Join(s, r, REPLY), q, response)
    requires Answering(Join(s, r, REPLY), t, q, |q|, response)
    requires r in t.msgs && t.msgs[r] == REPLY && StatePost(t, u, r, Destruction, {}, {}, st)
    ensures Distinct(q)
    ensures r in u.msgs && u.msgs[r].now == Destruction && r in u.marked
    ensures forall k :: k in s.msgs ==> k in u.msgs && OneProcessed(s, u, k, response)
    ensures forall k :: k in u.msgs && k !in s.msgs && k != r ==> OwnSubscription(u.msgs[k])
    ensures forall k :: k in q <==> k in s.msgs && IsMeantFor(s.msgs[k], response)
  {
    var s1 := Join(s, r, REPLY);
    hide Inv, Distinct, Fine;
    assert Others(t, u, r) && Inv(u, {}, {});
    hide StatePost;
    UnsettledIsMarked(u, r, {}, {}) by {
      assert u.msgs[r].now == Destruction by { AnswerDone(t, u, r, st); }
    }
    assert q[..|q|] == q && r !in q;
    hide IsMeantFor, Answered;
    forall k | k in s.msgs ensures k in u.msgs && OneProcessed(s, u, k, response) {
      assert s1.msgs[k] == s.msgs[k] && u.msgs[k] == t.msgs[k];
      if k in q {
        assert OneProcessed(s1, t, k, response);
      }
    }
  }

  /** No slot outlives its request: each is held, once, by a subscription that is owned, admitted and not concluded. */
  lemma SlotsAreLive(s: Store)
    requires Inv(s, {}, {})
    ensures WithinLimit(s.wire) && |s.active| <= MAX_SUBSCRIPTIONS && Distinct(s.active)
    ensures forall k :: k in s.active ==>
      k in s.owned && s.IsScan(k) && s.msgs[k].limited && Subscribed(s.msgs[k]) && !Concluded(s.msgs[k].now)
    ensures forall ticker :: ticker in Open(s.wire) ==> HoldsTicker(s, ticker)
  {
  }

  lemma Unanswered(s: Store, t: Store, k: Id, response: Response)
    requires k in s.msgs && Extends(s, t, k) && k in t.msgs && t.msgs[k] == s.msgs[k]
    requires Answered(s.msgs[k].kind, response).None?
    ensures Processed(s, t, k, response)
  {
  }

  // ------------------------------------------------------------------ where nothing has happened yet

  lemma NothingCancelled(s: Store, c: Id, ticker: int)
    ensures Cancelled(s, s, c, ticker)
  {
    hide HoldsTicker;
  }

  lemma NothingFreed(s: Store, ticker: int)
    ensures Freed(s, s, ticker)
  {
    hide HoldsTicker;
  }

  lemma NothingNew(s: Store, k: Id)
    ensures Extends(s, s, k)
  {
  }

  lemma NothingAnswered(s: Store, q: seq<Id>, response: Response)
    ensures q[..0] == [] && Answering(s, s, q, 0, response)
  {
    assert q[..0] == [];
  }

  lemma NothingMarked(s: Store)
    requires Inv(s, {}, {}) && s.marked == []
    ensures Quiescent(s) && forall k :: k in s.msgs ==> !Departing(s.msgs[k])
  {
    assert forall k :: k in s.msgs ==> Fine(s, k);
  }

  // ------------------------------------------------------------------ who stays

  /** The messages of a list that a drain leaves there. */
  function Staying(s: Store, q: seq<Id>): seq<Id> {
    if q == [] then []
    else if q[0] in s.msgs && Departing(s.msgs[q[0]]) then Staying(s, q[1..])
    else [q[0]] + Staying(s, q[1..])
  }

  lemma {:induction false} StayingOn(s: Store, q: seq<Id>, m: Id)
    ensures m in s.msgs && Departing(s.msgs[m]) ==> Staying(s, Without(q, m)) == Staying(s, q)
  {
    if q != [] && q[0] != m {
      StayingOn(s, q[1..], m);
      assert Without(q, m)[1..] == Without(q[1..], m);
    }
  }

  lemma {:induction false} AllStaying(s: Store, q: seq<Id>)
    requires forall k :: k in q ==> k in s.msgs && !Departing(s.msgs[k])
    ensures Staying(s, q) == q
  {
    if q != [] {
      AllStaying(s, q[1..]);
    }
  }

  lemma OwnedMessages(s: Store)
    requires Inv(s, {}, {})
    ensures forall k :: k in s.owned <==> k in s.msgs
  {
  }
}
