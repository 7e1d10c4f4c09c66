/**
 The registry of communicators: socket pairs are made optimistically outside the lock, and one counter tells
 the threads whether somebody has connected to them.

 A communicator is known by its address. Every step is one critical section, or what a thread does between two.
 */
module Communicators {
  import opened Sequences

  type Proc = nat
  type Comm = nat
  type Socket = nat

  datatype Link = Link(sender: Proc, recipient: Proc, receiving: Socket, sending: Socket, reverse: Comm) {
    predicate Matches(from: Proc, to: Proc) {
      sender == from && recipient == to
    }
  }

  /** How far a thread has come with a communicator it needs. */
  datatype Progress =
    | Idle
    | Missed(from: Proc, to: Proc)     // neither its own list nor the registry has one
    | Made(c: Comm, d: Comm)           // a socket pair of its own, not registered yet
    | Losing(winner: Comm, c: Comm, d: Comm)
    | Found(c: Comm)                   // registered; not in its own list yet

  datatype Sys = Sys(
    links: map<Comm, Link>,
    registry: seq<Comm>,
    count: int,                        // new communicators not fetched yet
    senders: map<Proc, seq<Comm>>,     // each thread's own list
    at: map<Proc, Progress>,
    closed: seq<Socket>,
    sockets: nat,                      // sockets made so far
    creator: map<Comm, Proc>           // who registered it
  )

  // ------------------------------------------------------------------ the steps

  /** The first of a list that matches. */
  function Search(s: Sys, list: seq<Comm>, from: Proc, to: Proc): (r: seq<Comm>)
    requires forall c :: c in list ==> c in s.links
    ensures |r| <= 1
    ensures forall c :: c in r ==> c in list && s.links[c].Matches(from, to)
    ensures r == [] ==> forall c :: c in list ==> !s.links[c].Matches(from, to)
  {
    if list == [] then []
    else if s.links[list[0]].Matches(from, to) then [list[0]]
    else Search(s, list[1..], from, to)
  }

  function Move(s: Sys, p: Proc, progress: Progress): Sys {
    s.(at := s.at[p := progress])
  }

  ghost predicate WellTyped(s: Sys) {
    && s.senders.Keys == s.at.Keys
    && (forall c :: c in s.registry ==> c in s.links && c in s.creator)
    && (forall p, c :: p in s.senders && c in s.senders[p] ==> c in s.links)
  }

  /** get_interthread_communicator: its own list first, then the registry under the lock. */
  function Ask(s: Sys, p: Proc, from: Proc, to: Proc): Sys
    requires WellTyped(s) && p in s.at
  {
    if Search(s, s.senders[p], from, to) != [] then s
    else
      var found := Search(s, s.registry, from, to);
      Move(s, p, if found != [] then Found(found[0]) else Missed(from, to))
  }

  /** A socket pair and the communicators at its two ends, each the reverse of the other. */
  function Make(s: Sys, p: Proc, from: Proc, to: Proc, c: Comm, d: Comm): Sys {
    var a, b := s.sockets, s.sockets + 1;
    Move(s, p, Made(c, d)).(
      sockets := s.sockets + 2,
      links := s.links[c := Link(from, to, a, b, d)][d := Link(to, from, b, a, c)])
  }

  /** Under the lock: unless somebody was earlier, both are registered. */
  function Publish(s: Sys, p: Proc, c: Comm, d: Comm): Sys
    requires WellTyped(s) && c in s.links
  {
    var earlier := Search(s, s.registry, s.links[c].sender, s.links[c].recipient);
    if earlier != [] then Move(s, p, Losing(earlier[0], c, d))
    else
      Move(s, p, Found(c)).(
        count := s.count + 1, registry := s.registry + [c, d], creator := s.creator[c := p][d := p])
  }

  /** The loser deletes its communicators; each closes the socket it receives on. */
  function Discard(s: Sys, p: Proc, winner: Comm, c: Comm, d: Comm): Sys
    requires c in s.links && d in s.links
  {
    Move(s, p, Found(winner)).(
      closed := s.closed + [s.links[c].receiving, s.links[d].receiving],
      links := s.links - {c, d})
  }

  /** register_interthread_connection */
  function Register(s: Sys, p: Proc, c: Comm): Sys
    requires p in s.senders && c in s.links
  {
    if c in s.senders[p] then s
    else s.(senders := s.senders[p := s.senders[p] + [c, s.links[c].reverse]])
  }

  /** A new communicator that delivers to `p` is taken up, and counted down. */
  function Fetched(s: Sys, p: Proc, c: Comm): (r: Sys)
    requires p in s.senders && c in s.links
    ensures r == s.(senders := r.senders, count := r.count) && p in r.senders
  {
    if s.links[c].recipient == p && c !in s.senders[p] then Register(s, p, c).(count := s.count - 1) else s
  }

  /** fetch_new_interthread_communicators, from the end of the first `i` registered: stops when the counter is down. */
  function FetchFrom(s: Sys, p: Proc, i: nat): (r: Sys)
    requires p in s.senders && i <= |s.registry| && forall c :: c in s.registry ==> c in s.links
    ensures r == s.(senders := r.senders, count := r.count)
    decreases i
  {
    if i == 0 || s.count <= 0 then s else FetchFrom(Fetched(s, p, s.registry[i - 1]), p, i - 1)
  }

  datatype Step =
    | AskFor(p: Proc, from: Proc, to: Proc)
    | MakePair(p: Proc, c: Comm, d: Comm)
    | PublishPair(p: Proc)
    | DiscardPair(p: Proc)
    | Settle(p: Proc)
    | Fetch(p: Proc)

  // ------------------------------------------------------------------ the invariant

  /** Two communicators of one socket pair. */
  ghost predicate Paired(s: Sys, c: Comm, d: Comm) {
    && c in s.links && d in s.links && c != d
    && s.links[c].reverse == d && s.links[d].reverse == c
    && s.links[c].sender == s.links[d].recipient && s.links[c].recipient == s.links[d].sender
    && s.links[c].sender != s.links[c].recipient
    && s.links[c].receiving == s.links[d].sending && s.links[c].sending == s.links[d].receiving
  }

  predicate EndOf(s: Sys, p: Proc, c: Comm) {
    c in s.links && (s.links[c].sender == p || s.links[c].recipient == p)
  }

  /** The pair a thread has made and not registered. */
  function Private(progress: Progress): set<Comm> {
    match progress
    case Made(c, d) => {c, d}
    case Losing(_, c, d) => {c, d}
    case _ => {}
  }

  /** A registered communicator has its reverse registered with it, by one of its two ends. */
  ghost predicate Registered(s: Sys, c: Comm)
    requires c in s.links
  {
    var d := s.links[c].reverse;
    && Paired(s, c, d) && c in s.registry && d in s.registry
    && s.links[c].sender in s.at && s.links[c].recipient in s.at
    && c in s.creator && d in s.creator && s.creator[c] == s.creator[d] && EndOf(s, s.creator[c], c)
  }

  ghost predicate RegistryKept(s: Sys) {
    && Distinct(s.registry)
    && (forall c :: c in s.registry ==> c in s.links && Registered(s, c))
    && (forall c, d :: c in s.registry && d in s.registry && Alike(s, c, d) ==> c == d)
  }

  predicate Alike(s: Sys, c: Comm, d: Comm) {
    c in s.links && d in s.links && s.links[c].Matches(s.links[d].sender, s.links[d].recipient)
  }

  ghost predicate ProgressKept(s: Sys, p: Proc)
    requires p in s.at
  {
    match s.at[p]
    case Idle => true
    case Missed(from, to) => from != to && p in {from, to} && from in s.at && to in s.at
    case Made(c, d) => Paired(s, c, d) && EndOf(s, p, c) && s.links[c].sender in s.at && s.links[c].recipient in s.at
    case Losing(winner, c, d) => Paired(s, c, d) && EndOf(s, p, c) && winner in s.registry && Alike(s, winner, c)
    case Found(c) => c in s.registry && EndOf(s, p, c)
  }

  /** A thread knows registered communicators of its own only, and both directions or neither. */
  ghost predicate SendersKept(s: Sys, p: Proc)
    requires p in s.senders
  {
    && Distinct(s.senders[p])
    && (forall c :: c in s.senders[p] ==>
          c in s.registry && EndOf(s, p, c) && s.links[c].reverse in s.senders[p])
  }

  /** What it has registered itself it knows, or is about to. */
  ghost predicate OwnKnown(s: Sys, p: Proc)
    requires p in s.senders && p in s.at
  {
    forall c :: c in s.registry && c in s.creator && s.creator[c] == p ==>
      c in s.senders[p] || (s.at[p].Found? && c in s.links && (s.at[p].c == c || s.at[p].c == s.links[c].reverse))
  }

  /** Communicators that deliver to the end that did not make them, and that it does not know yet. */
  ghost function Pending(s: Sys): set<Comm> {
    set c | c in s.registry && c in s.links && c in s.creator
      && s.links[c].recipient != s.creator[c]
      && (s.links[c].recipient in s.senders ==> c !in s.senders[s.links[c].recipient])
  }

  ghost predicate SocketsKept(s: Sys) {
    && Distinct(s.closed) && (forall x :: x in s.closed ==> x < s.sockets)
    && (forall c :: c in s.links ==> s.links[c].receiving < s.sockets && s.links[c].receiving !in s.closed)
    && (forall c, d :: c in s.links && d in s.links && s.links[c].receiving == s.links[d].receiving ==> c == d)
  }

  ghost predicate ThreadKept(s: Sys, p: Proc) {
    p in s.at && p in s.senders && ProgressKept(s, p) && SendersKept(s, p) && OwnKnown(s, p)
  }

  /** What a thread has made is its own and not registered. */
  ghost predicate PrivateKept(s: Sys) {
    && (forall p, c :: p in s.at && c in Private(s.at[p]) ==> c !in s.registry)
    && (forall p, q, c :: p in s.at && q in s.at && c in Private(s.at[p]) && c in Private(s.at[q]) ==> p == q)
  }

  ghost predicate Good(s: Sys) {
    && WellTyped(s) && RegistryKept(s) && SocketsKept(s) && PrivateKept(s)
    && (forall p :: p in s.at ==> ThreadKept(s, p))
    && s.count >= |Pending(s)|
  }

  // ------------------------------------------------------------------ every step keeps it

  /** The registry is as it was; unregistered communicators may have come or gone. */
  ghost predicate SameRegistry(s: Sys, t: Sys) {
    && t.registry == s.registry && t.creator == s.creator && t.at.Keys == s.at.Keys && t.senders.Keys == s.senders.Keys
    && (forall c :: c in s.registry ==> c in s.links && c in t.links && t.links[c] == s.links[c])
  }

  lemma RegistrySame(s: Sys, t: Sys)
    requires RegistryKept(s) && SameRegistry(s, t)
    ensures RegistryKept(t)
  {
    forall c | c in t.registry ensures c in t.links && Registered(t, c) {
      assert Registered(s, c);
    }
    forall c, d | c in t.registry && d in t.registry && Alike(t, c, d) ensures c == d {
      assert Alike(s, c, d);
    }
  }

  lemma ThreadSame(s: Sys, t: Sys, p: Proc)
    requires ThreadKept(s, p) && SameRegistry(s, t) && t.at[p] == s.at[p] && t.senders[p] == s.senders[p]
    requires forall c :: c in Private(s.at[p]) ==> c in s.links && c in t.links && t.links[c] == s.links[c]
    ensures ThreadKept(t, p)
  {
  }

  lemma PendingSame(s: Sys, t: Sys)
    requires SameRegistry(s, t) && t.senders == s.senders
    ensures Pending(t) == Pending(s)
  {
  }

  lemma PrivateLinked(s: Sys, p: Proc)
    requires ThreadKept(s, p)
    ensures forall c :: c in Private(s.at[p]) ==> c in s.links
  {
  }

  /** Nobody but `p` notices. */
  ghost predicate OthersSame(s: Sys, t: Sys, p: Proc) {
    && SameRegistry(s, t)
    && (forall q :: q in s.at && q in s.senders && q != p ==> t.at[q] == s.at[q] && t.senders[q] == s.senders[q])
    && (forall q, c :: q in s.at && q != p && c in Private(s.at[q]) ==>
           c in s.links && c in t.links && t.links[c] == s.links[c])
  }

  lemma ThreadsSame(s: Sys, t: Sys, p: Proc)
    requires (forall q :: q in s.at ==> ThreadKept(s, q)) && OthersSame(s, t, p) && ThreadKept(t, p)
    ensures forall q :: q in t.at ==> ThreadKept(t, q)
  {
    hide SendersKept, Private, ProgressKept, OwnKnown;
    forall q | q in t.at ensures ThreadKept(t, q) {
      assert ThreadKept(s, q);
      if q != p {
        ThreadSame(s, t, q);
      }
    }
  }

  lemma SocketsSame(s: Sys, t: Sys)
    requires SocketsKept(s) && t.links == s.links && t.closed == s.closed && t.sockets == s.sockets
    ensures SocketsKept(t)
  {
  }

  lemma ThreadMoved(s: Sys, t: Sys, p: Proc)
    requires p in s.at && ThreadKept(s, p) && OthersSame(s, t, p) && t.senders == s.senders && !s.at[p].Found?
    requires ProgressKept(t, p)
    ensures ThreadKept(t, p)
  {
    hide ProgressKept;
    assert SendersKept(t, p);
    hide Distinct;
  }

  lemma PrivatesLinked(s: Sys, p: Proc)
    requires forall q :: q in s.at ==> ThreadKept(s, q)
    ensures PrivatesKnown(s)
  {
    forall q, c | q in s.at && c in Private(s.at[q]) ensures c in s.links {
      assert ThreadKept(s, q);
      PrivateLinked(s, q);
    }
  }

  /** What `p` does leaves the rest of the invariant alone, provided its own thread and what it holds are right. */
  lemma ThreadStepGood(s: Sys, t: Sys, p: Proc)
    requires Good(s) && p in s.at && OthersSame(s, t, p) && t.senders == s.senders && t.count == s.count
    requires SocketsKept(t) && ThreadKept(t, p)
    requires forall c :: c in Private(t.at[p]) ==>
       c !in s.registry && forall q :: q in s.at && q != p ==> c !in Private(s.at[q])
    ensures Good(t)
  {
    hide RegistryKept, Pending, ThreadKept, ProgressKept, SocketsKept;
    RegistrySame(s, t);
    PendingSame(s, t);
    ThreadsSame(s, t, p);
    assert WellTyped(t) by { TypedSame(s, t); }
    hide WellTyped;
  }

  lemma TypedSame(s: Sys, t: Sys)
    requires WellTyped(s) && SameRegistry(s, t) && t.senders == s.senders && forall q :: q in s.at ==> ThreadKept(s, q)
    ensures WellTyped(t)
  {
    forall q, c | q in t.senders && c in t.senders[q] ensures c in t.links {
      assert ThreadKept(s, q);
    }
  }

  ghost predicate PrivatesKnown(s: Sys) {
    forall q, c :: q in s.at && c in Private(s.at[q]) ==> c in s.links
  }

  lemma MoveOthers(s: Sys, p: Proc, progress: Progress)
    requires WellTyped(s) && PrivatesKnown(s) && p in s.at
    ensures OthersSame(s, Move(s, p, progress), p)
  {
    hide Private;
  }

  /** Only the progress of `p` differs, and it holds nothing private. */
  lemma MoveGood(s: Sys, p: Proc, progress: Progress)
    requires Good(s) && p in s.at && ProgressKept(Move(s, p, progress), p) && Private(progress) == {}
    requires !s.at[p].Found?
    ensures Good(Move(s, p, progress))
  {
    var t := Move(s, p, progress);
    PrivatesLinked(s, p);
    hide Pending, ThreadKept, ProgressKept, RegistryKept, PrivateKept, SocketsKept, OthersSame;
    MoveOthers(s, p, progress);
    SocketsSame(s, t);
    ThreadMoved(s, t, p);
    ThreadStepGood(s, t, p);
  }

  lemma AskGood(s: Sys, p: Proc, from: Proc, to: Proc)
    requires Good(s) && p in s.at && s.at[p] == Idle && from != to && p in {from, to} && from in s.at && to in s.at
    ensures Good(Ask(s, p, from, to))
  {
    hide Pending, RegistryKept, SocketsKept, PrivateKept, ThreadKept;
    assert WellTyped(s);
    var found := Search(s, s.registry, from, to);
    if Search(s, s.senders[p], from, to) == [] {
      MoveGood(s, p, if found != [] then Found(found[0]) else Missed(from, to));
    }
  }

  lemma MakeSockets(s: Sys, p: Proc, from: Proc, to: Proc, c: Comm, d: Comm)
    requires SocketsKept(s) && c != d && c !in s.links && d !in s.links
    ensures SocketsKept(Make(s, p, from, to, c, d))
  {
  }

  lemma MakeOthers(s: Sys, p: Proc, from: Proc, to: Proc, c: Comm, d: Comm)
    requires WellTyped(s) && PrivatesKnown(s) && p in s.at && c !in s.links && d !in s.links
    ensures OthersSame(s, Make(s, p, from, to, c, d), p)
    ensures forall q :: q in s.at ==> c !in Private(s.at[q]) && d !in Private(s.at[q])
  {
    hide Private;
  }

  lemma MadeProgress(s: Sys, p: Proc, from: Proc, to: Proc, c: Comm, d: Comm)
    requires p in s.at && s.at[p] == Missed(from, to) && ProgressKept(s, p) && c != d
    ensures ProgressKept(Make(s, p, from, to, c, d), p)
  {
  }

  lemma MakeGood(s: Sys, p: Proc, from: Proc, to: Proc, c: Comm, d: Comm)
    requires Good(s) && p in s.at && s.at[p] == Missed(from, to)
    requires c != d && c !in s.links && d !in s.links
    ensures Good(Make(s, p, from, to, c, d))
  {
    hide SendersKept, WellTyped, OwnKnown, Registered;
    var t := Make(s, p, from, to, c, d);
    PrivatesLinked(s, p);
    MakeOthers(s, p, from, to, c, d);
    MakeSockets(s, p, from, to, c, d);
    hide RegistryKept, Pending, SocketsKept, PrivateKept, OthersSame, Paired;
    assert ThreadKept(s, p);
    MadeProgress(s, p, from, to, c, d);
    hide ProgressKept, ThreadKept;
    ThreadMoved(s, t, p);
    ThreadStepGood(s, t, p);
  }

  lemma DiscardSockets(s: Sys, p: Proc, winner: Comm, c: Comm, d: Comm)
    requires SocketsKept(s) && c != d && c in s.links && d in s.links
    ensures SocketsKept(Discard(s, p, winner, c, d))
  {
  }

  lemma DiscardOthers(s: Sys, p: Proc, winner: Comm, c: Comm, d: Comm)
    requires WellTyped(s) && PrivatesKnown(s) && PrivateKept(s)
    requires p in s.at && s.at[p] == Losing(winner, c, d) && c in s.links && d in s.links
    ensures OthersSame(s, Discard(s, p, winner, c, d), p)
  {
    assert c in Private(s.at[p]) && d in Private(s.at[p]);
    hide Private;
  }

  lemma DiscardGood(s: Sys, p: Proc, winner: Comm, c: Comm, d: Comm)
    requires Good(s) && p in s.at && s.at[p] == Losing(winner, c, d)
    ensures c in s.links && d in s.links && Good(Discard(s, p, winner, c, d))
  {
    hide SendersKept, WellTyped, Registered, OwnKnown;
    assert ThreadKept(s, p);
    var t := Discard(s, p, winner, c, d);
    PrivatesLinked(s, p);
    DiscardOthers(s, p, winner, c, d);
    DiscardSockets(s, p, winner, c, d);
    hide Pending, SocketsKept, PrivateKept;
    assert ProgressKept(t, p);
    hide ProgressKept, RegistryKept;
    ThreadMoved(s, t, p);
    hide ThreadKept;
    ThreadStepGood(s, t, p);
  }

  // ------------------------------------------------------------------ registering a new pair

  /** Nobody was earlier: neither direction is registered yet. */
  lemma NobodyEarlier(s: Sys, c: Comm, d: Comm)
    requires RegistryKept(s) && Paired(s, c, d) && WellTyped(s)
    requires Search(s, s.registry, s.links[c].sender, s.links[c].recipient) == []
    ensures forall k :: k in s.registry ==> !Alike(s, k, c) && !Alike(s, k, d) && !Alike(s, c, k) && !Alike(s, d, k)
  {
    forall k | k in s.registry ensures !Alike(s, k, c) && !Alike(s, k, d) {
      assert Registered(s, k);
      var r := s.links[k].reverse;
      assert r in s.registry && !s.links[r].Matches(s.links[c].sender, s.links[c].recipient);
    }
  }

  lemma PublishRegistry(s: Sys, p: Proc, c: Comm, d: Comm)
    requires RegistryKept(s) && WellTyped(s) && p in s.at && ProgressKept(s, p) && s.at[p] == Made(c, d)
    requires c !in s.registry && d !in s.registry
    requires Search(s, s.registry, s.links[c].sender, s.links[c].recipient) == []
    ensures RegistryKept(Publish(s, p, c, d))
  {
    hide Search;
    var t := Publish(s, p, c, d);
    NobodyEarlier(s, c, d);
    forall k | k in t.registry ensures k in t.links && Registered(t, k) {
      if k in s.registry {
        assert Registered(s, k);
      }
    }
    PublishedApart(s, p, c, d);
  }

  lemma PublishedApart(s: Sys, p: Proc, c: Comm, d: Comm)
    requires RegistryKept(s) && WellTyped(s) && p in s.at && ProgressKept(s, p) && s.at[p] == Made(c, d)
    requires c !in s.registry && d !in s.registry
    requires Search(s, s.registry, s.links[c].sender, s.links[c].recipient) == []
    ensures var t := Publish(s, p, c, d);
      forall x, y :: x in t.registry && y in t.registry && Alike(t, x, y) ==> x == y
  {
    hide Search, Registered;
    NobodyEarlier(s, c, d);
    var t := Publish(s, p, c, d);
    forall x, y | x in t.registry && y in t.registry && Alike(t, x, y) ensures x == y {
      assert Alike(s, x, y);
    }
  }

  lemma PublishThread(s: Sys, p: Proc, c: Comm, d: Comm, q: Proc)
    requires WellTyped(s) && p in s.at && ProgressKept(s, p) && s.at[p] == Made(c, d) && ThreadKept(s, q)
    requires c !in s.registry && d !in s.registry
    requires Search(s, s.registry, s.links[c].sender, s.links[c].recipient) == []
    ensures ThreadKept(Publish(s, p, c, d), q)
  {
    hide Distinct, SendersKept, OwnKnown;
    PublishSenders(s, p, c, d, q);
    PublishOwn(s, p, c, d, q);
    PublishProgress(s, p, c, d, q);
    hide ProgressKept, Search, WellTyped;
  }

  lemma PublishProgress(s: Sys, p: Proc, c: Comm, d: Comm, q: Proc)
    requires WellTyped(s) && p in s.at && ProgressKept(s, p) && s.at[p] == Made(c, d) && q in s.at && ProgressKept(s, q)
    requires Search(s, s.registry, s.links[c].sender, s.links[c].recipient) == []
    ensures ProgressKept(Publish(s, p, c, d), q)
  {
    hide WellTyped, Search;
  }

  lemma PublishOwn(s: Sys, p: Proc, c: Comm, d: Comm, q: Proc)
    requires WellTyped(s) && p in s.at && ProgressKept(s, p) && s.at[p] == Made(c, d)
    requires q in s.at && q in s.senders && OwnKnown(s, q)
    requires Search(s, s.registry, s.links[c].sender, s.links[c].recipient) == []
    ensures OwnKnown(Publish(s, p, c, d), q)
  {
    hide WellTyped, Search;
  }

  lemma PublishSenders(s: Sys, p: Proc, c: Comm, d: Comm, q: Proc)
    requires WellTyped(s) && c in s.links && q in s.senders && SendersKept(s, q)
    ensures SendersKept(Publish(s, p, c, d), q)
  {
    hide Distinct, Search;
  }

  lemma PublishPending(s: Sys, p: Proc, c: Comm, d: Comm)
    requires WellTyped(s) && p in s.at && ProgressKept(s, p) && s.at[p] == Made(c, d)
    requires Search(s, s.registry, s.links[c].sender, s.links[c].recipient) == []
    requires c !in s.registry && d !in s.registry
    ensures |Pending(Publish(s, p, c, d))| <= |Pending(s)| + 1
  {
    var t := Publish(s, p, c, d);
    var x := if s.links[c].recipient == p then d else c;
    hide Distinct;
    assert Pending(t) <= Pending(s) + {x};
    SubsetSize(Pending(t), Pending(s) + {x});
  }

  lemma PublishGood(s: Sys, p: Proc, c: Comm, d: Comm)
    requires Good(s) && p in s.at && s.at[p] == Made(c, d)
    ensures c in s.links && Good(Publish(s, p, c, d))
  {
    hide Pending, SocketsKept, RegistryKept, ThreadKept;
    MadeProperly(s, p, c, d);
    if Search(s, s.registry, s.links[c].sender, s.links[c].recipient) == [] {
      WinningGood(s, p, c, d);
    } else {
      LosingGood(s, p, c, d);
    }
  }

  lemma MadeProperly(s: Sys, p: Proc, c: Comm, d: Comm)
    requires Good(s) && p in s.at && s.at[p] == Made(c, d)
    ensures ProgressKept(s, p) && c in s.links && d in s.links && c !in s.registry && d !in s.registry
  {
    assert ThreadKept(s, p);
    assert c in Private(s.at[p]) && d in Private(s.at[p]);
  }

  lemma WinningGood(s: Sys, p: Proc, c: Comm, d: Comm)
    requires Good(s) && p in s.at && s.at[p] == Made(c, d) && ProgressKept(s, p) && c in s.links && d in s.links
    requires c !in s.registry && d !in s.registry
    requires Search(s, s.registry, s.links[c].sender, s.links[c].recipient) == []
    ensures Good(Publish(s, p, c, d))
  {
    hide Pending, SocketsKept, RegistryKept, ThreadKept, PrivateKept, ProgressKept, WellTyped;
    var t := Publish(s, p, c, d);
    PublishRegistry(s, p, c, d);
    forall q | q in t.at ensures ThreadKept(t, q) {
      PublishThread(s, p, c, d, q);
    }
    PublishPending(s, p, c, d);
    PublishApart(s, p, c, d);
    PublishTyped(s, p, c, d);
    SocketsSame(s, t);
  }

  lemma PublishApart(s: Sys, p: Proc, c: Comm, d: Comm)
    requires WellTyped(s) && PrivateKept(s) && p in s.at && s.at[p] == Made(c, d) && c in s.links && d in s.links
    requires Search(s, s.registry, s.links[c].sender, s.links[c].recipient) == []
    ensures PrivateKept(Publish(s, p, c, d))
  {
    hide Search, WellTyped;
    assert c in Private(s.at[p]) && d in Private(s.at[p]);
  }

  lemma PublishTyped(s: Sys, p: Proc, c: Comm, d: Comm)
    requires WellTyped(s) && p in s.at && c in s.links && d in s.links
    requires Search(s, s.registry, s.links[c].sender, s.links[c].recipient) == []
    ensures WellTyped(Publish(s, p, c, d))
  {
    hide Search;
  }

  lemma LosingGood(s: Sys, p: Proc, c: Comm, d: Comm)
    requires Good(s) && p in s.at && s.at[p] == Made(c, d) && ProgressKept(s, p) && c in s.links
    requires Search(s, s.registry, s.links[c].sender, s.links[c].recipient) != []
    ensures Good(Publish(s, p, c, d))
  {
    hide Pending, RegistryKept, SocketsKept, OthersSame, ThreadKept, PrivateKept;
    var t := Publish(s, p, c, d);
    assert WellTyped(s) && ThreadKept(s, p);
    LosingProgress(s, p, c, d);
    hide ProgressKept, WellTyped, Search;
    PrivatesLinked(s, p);
    MoveOthers(s, p, t.at[p]);
    SocketsSame(s, t);
    ThreadMoved(s, t, p);
    LosingApart(s, p, c, d);
    ThreadStepGood(s, t, p);
  }

  lemma LosingProgress(s: Sys, p: Proc, c: Comm, d: Comm)
    requires WellTyped(s) && p in s.at && s.at[p] == Made(c, d) && ProgressKept(s, p) && c in s.links
    requires Search(s, s.registry, s.links[c].sender, s.links[c].recipient) != []
    ensures ProgressKept(Publish(s, p, c, d), p)
  {
  }

  lemma LosingApart(s: Sys, p: Proc, c: Comm, d: Comm)
    requires PrivateKept(s) && p in s.at && s.at[p] == Made(c, d)
    ensures forall k :: k in {c, d} ==> k !in s.registry && forall q :: q in s.at && q != p ==> k !in Private(s.at[q])
  {
    assert c in Private(s.at[p]) && d in Private(s.at[p]);
  }

  // ------------------------------------------------------------------ a thread's own list

  lemma RegisterSenders(s: Sys, p: Proc, c: Comm)
    requires RegistryKept(s) && p in s.senders && SendersKept(s, p) && c in s.registry && EndOf(s, p, c)
    ensures SendersKept(Register(s, p, c), p)
  {
    assert Registered(s, c);
    var d := s.links[c].reverse;
    if c !in s.senders[p] {
      assert d !in s.senders[p];
    }
  }

  lemma RegisterPending(s: Sys, p: Proc, c: Comm)
    requires p in s.senders && c in s.links
    ensures Pending(Register(s, p, c)) <= Pending(s)
    ensures c in s.registry && s.links[c].recipient == p ==> c !in Pending(Register(s, p, c))
  {
  }

  lemma SettleGood(s: Sys, p: Proc, c: Comm)
    requires Good(s) && p in s.at && s.at[p] == Found(c)
    ensures p in s.senders && c in s.links && Good(Move(Register(s, p, c), p, Idle))
  {
    assert ThreadKept(s, p);
    var t := Move(Register(s, p, c), p, Idle);
    RegisterSenders(s, p, c);
    RegisterPending(s, p, c);
    assert Pending(t) == Pending(Register(s, p, c));
    SubsetSize(Pending(t), Pending(s));
    RegisteredGood(s, t, p, c);
  }

  /** However its progress is set afterwards, a thread that registers what it has found is in order. */
  lemma RegisteredGood(s: Sys, t: Sys, p: Proc, c: Comm)
    requires Good(s) && p in s.at && p in s.senders && c in s.registry && c in s.links && EndOf(s, p, c)
    requires t == Move(Register(s, p, c), p, Idle).(count := t.count)
    requires s.at[p] == Idle || s.at[p] == Found(c)
    requires SendersKept(Register(s, p, c), p) && t.count >= |Pending(t)|
    ensures Good(t)
  {
    RegisteredThread(s, t, p, c);
    PrivatesLinked(s, p);
    hide Pending, ProgressKept, RegistryKept, SocketsKept, ThreadKept, SendersKept, OthersSame, SameRegistry;
    RegisteredOthers(s, t, p, c);
    RegistrySame(s, t);
    SocketsSame(s, t);
    ThreadsSame(s, t, p);
    RegisteredTyped(s, t, p);
    RegisteredApart(s, t, p);
    hide WellTyped, PrivateKept;
  }

  lemma RegisteredOthers(s: Sys, t: Sys, p: Proc, c: Comm)
    requires WellTyped(s) && PrivatesKnown(s) && p in s.at && p in s.senders && c in s.links
    requires t == Move(Register(s, p, c), p, Idle).(count := t.count)
    ensures OthersSame(s, t, p) && SameRegistry(s, t)
  {
    hide Private;
  }

  lemma RegisteredApart(s: Sys, t: Sys, p: Proc)
    requires PrivateKept(s) && p in s.at && t.registry == s.registry && t.at == s.at[p := Idle]
    ensures PrivateKept(t)
  {
  }

  lemma RegisteredTyped(s: Sys, t: Sys, p: Proc)
    requires WellTyped(s) && SameRegistry(s, t) && t.links == s.links && forall q :: q in t.at ==> ThreadKept(t, q)
    ensures WellTyped(t)
  {
    forall q, c | q in t.senders && c in t.senders[q] ensures c in t.links {
      assert ThreadKept(t, q);
    }
  }

  lemma RegisteredThread(s: Sys, t: Sys, p: Proc, c: Comm)
    requires RegistryKept(s) && ThreadKept(s, p) && c in s.registry && c in s.links && EndOf(s, p, c)
    requires t == Move(Register(s, p, c), p, Idle).(count := t.count)
    requires s.at[p] == Idle || s.at[p] == Found(c)
    requires SendersKept(Register(s, p, c), p)
    ensures ThreadKept(t, p)
  {
    assert Registered(s, c);
    hide RegistryKept;
    assert SendersKept(t, p);
    hide Distinct;
  }

  // ------------------------------------------------------------------ fetching

  ghost predicate KnowsFrom(s: Sys, p: Proc, i: nat)
    requires p in s.senders && i <= |s.registry|
  {
    forall j :: i <= j < |s.registry| && s.registry[j] in s.links && s.links[s.registry[j]].recipient == p ==>
      s.registry[j] in s.senders[p]
  }

  /** An idle thread is short of a communicator delivering to it only while that one is counted. */
  lemma UnknownIsPending(s: Sys, p: Proc, c: Comm)
    requires Good(s) && p in s.at && s.at[p] == Idle && p in s.senders
    requires c in s.registry && c in s.links && s.links[c].recipient == p && c !in s.senders[p]
    ensures c in Pending(s) && s.count > 0
  {
    assert ThreadKept(s, p);
    assert c in Pending(s);
  }

  lemma FetchOneGood(s: Sys, p: Proc, c: Comm)
    requires Good(s) && p in s.at && s.at[p] == Idle && p in s.senders
    requires c in s.registry && c in s.links && s.links[c].recipient == p && c !in s.senders[p]
    ensures Good(Register(s, p, c).(count := s.count - 1))
  {
    var t := Register(s, p, c).(count := s.count - 1);
    hide Good, Pending, RegistryKept, SendersKept;
    GoodThread(s, p);
    UnknownIsPending(s, p, c);
    FetchOnePending(s, p, c);
    RegisterSenders(s, p, c);
    StaysIdle(s, t, p, c);
    hide Register, Move;
    RegisteredGood(s, t, p, c);
  }

  lemma StaysIdle(s: Sys, t: Sys, p: Proc, c: Comm)
    requires p in s.at && s.at[p] == Idle && p in s.senders && c in s.links
    requires t == Register(s, p, c).(count := t.count)
    ensures t == Move(Register(s, p, c), p, Idle).(count := t.count)
  {
    assert s.at[p := Idle] == s.at;
  }

  lemma GoodThread(s: Sys, p: Proc)
    requires Good(s) && p in s.at
    ensures p in s.senders && SendersKept(s, p) && RegistryKept(s) && s.count >= |Pending(s)|
  {
    assert ThreadKept(s, p);
  }

  lemma FetchOnePending(s: Sys, p: Proc, c: Comm)
    requires p in s.senders && c in s.links && c in s.registry && s.links[c].recipient == p && c in Pending(s)
    ensures |Pending(Register(s, p, c).(count := s.count - 1))| <= |Pending(s)| - 1
  {
    var t := Register(s, p, c).(count := s.count - 1);
    RegisterPending(s, p, c);
    assert Pending(t) == Pending(Register(s, p, c));
    SubsetSize(Pending(t), Pending(s) - {c});
  }

  lemma {:induction false} FetchGood(s: Sys, p: Proc, i: nat)
    requires Good(s) && p in s.at && s.at[p] == Idle && p in s.senders && i <= |s.registry|
    requires KnowsFrom(s, p, i) && forall c :: c in s.registry ==> c in s.links
    ensures Good(FetchFrom(s, p, i)) && KnowsFrom(FetchFrom(s, p, i), p, 0)
    decreases i
  {
    hide Good;
    if i > 0 && s.count > 0 {
      var c := s.registry[i - 1];
      if s.links[c].recipient == p && c !in s.senders[p] {
        FetchOneGood(s, p, c);
        FetchGood(Register(s, p, c).(count := s.count - 1), p, i - 1);
      } else {
        FetchGood(s, p, i - 1);
      }
    } else if i > 0 {
      NothingPending(s, p);
    }
  }

  lemma NothingPending(s: Sys, p: Proc)
    requires Good(s) && p in s.at && s.at[p] == Idle && p in s.senders && s.count <= 0
    ensures KnowsFrom(s, p, 0)
  {
    forall j | 0 <= j < |s.registry| && s.registry[j] in s.links && s.links[s.registry[j]].recipient == p
      ensures s.registry[j] in s.senders[p]
    {
      if s.registry[j] !in s.senders[p] {
        UnknownIsPending(s, p, s.registry[j]);
      }
    }
  }

  /** The communicators that deliver to `p` and that it has got to know between the two states. */
  ghost function TakenUp(s: Sys, t: Sys, p: Proc): set<Comm> {
    set c | c in s.registry && c in s.links && s.links[c].recipient == p
      && p in s.senders && c !in s.senders[p] && p in t.senders && c in t.senders[p]
  }

  lemma ReverseElsewhere(s: Sys, p: Proc, c: Comm)
    requires Good(s) && c in s.registry && c in s.links && s.links[c].recipient == p
    ensures s.links[c].reverse in s.links && s.links[s.links[c].reverse].recipient != p
  {
    assert Registered(s, c);
  }

  /** A fetch counts down by exactly as many as it takes up. */
  lemma {:induction false} FetchCountsDown(s: Sys, p: Proc, i: nat)
    requires Good(s) && p in s.at && s.at[p] == Idle && p in s.senders && i <= |s.registry|
    requires forall c :: c in s.registry ==> c in s.links
    ensures var t := FetchFrom(s, p, i);
      && s.count - t.count == |TakenUp(s, t, p)|
      && p in t.senders && forall c :: c in s.senders[p] ==> c in t.senders[p]
    decreases i
  {
    hide Good;
    if i > 0 && s.count > 0 {
      var c := s.registry[i - 1];
      if s.links[c].recipient == p && c !in s.senders[p] {
        var s1, t := Register(s, p, c).(count := s.count - 1), FetchFrom(s, p, i);
        FetchOneGood(s, p, c);
        FetchCountsDown(s1, p, i - 1);
        assert t == FetchFrom(s1, p, i - 1);
        ReverseElsewhere(s, p, c);
        OneTakenUp(s, s1, t, p, c);
      } else {
        FetchCountsDown(s, p, i - 1);
      }
    } else {
      assert TakenUp(s, s, p) == {};
    }
  }

  lemma OneTakenUp(s: Sys, s1: Sys, t: Sys, p: Proc, c: Comm)
    requires p in s.senders && c in s.links && c in s.registry && s.links[c].recipient == p && c !in s.senders[p]
    requires s1 == Register(s, p, c).(count := s1.count)
    requires s.links[c].reverse in s.links && s.links[s.links[c].reverse].recipient != p
    requires p in t.senders && forall d :: d in s1.senders[p] ==> d in t.senders[p]
    ensures |TakenUp(s, t, p)| == |TakenUp(s1, t, p)| + 1
  {
    assert TakenUp(s, t, p) == TakenUp(s1, t, p) + {c};
    assert c !in TakenUp(s1, t, p);
  }

  // ------------------------------------------------------------------ whole runs

  predicate Enabled(s: Sys, step: Step) {
    step.p in s.at &&
    match step
    case AskFor(p, from, to) => s.at[p] == Idle && from != to && p in {from, to} && from in s.at && to in s.at
    case MakePair(p, c, d) => s.at[p].Missed? && c != d && c !in s.links && d !in s.links
    case PublishPair(p) => s.at[p].Made?
    case DiscardPair(p) => s.at[p].Losing?
    case Settle(p) => s.at[p].Found?
    case Fetch(p) => s.at[p] == Idle
  }

  /** One step of one thread. A step that is not enabled does nothing; new addresses are new. */
  ghost function Next(s: Sys, step: Step): (t: Sys)
    requires Good(s)
    ensures Good(t)
  {
    if !Enabled(s, step) then s
    else
      var p := step.p;
      assert ThreadKept(s, p);
      match step
      case AskFor(_, from, to) =>
        AskGood(s, p, from, to);
        Ask(s, p, from, to)
      case MakePair(_, c, d) =>
        MakeGood(s, p, s.at[p].from, s.at[p].to, c, d);
        Make(s, p, s.at[p].from, s.at[p].to, c, d)
      case PublishPair(_) =>
        PublishGood(s, p, s.at[p].c, s.at[p].d);
        Publish(s, p, s.at[p].c, s.at[p].d)
      case DiscardPair(_) =>
        DiscardGood(s, p, s.at[p].winner, s.at[p].c, s.at[p].d);
        Discard(s, p, s.at[p].winner, s.at[p].c, s.at[p].d)
      case Settle(_) =>
        SettleGood(s, p, s.at[p].c);
        Move(Register(s, p, s.at[p].c), p, Idle)
      case Fetch(_) =>
        FetchGood(s, p, |s.registry|);
        FetchFrom(s, p, |s.registry|)
  }

  function Start(procs: set<Proc>): Sys {
    Sys(map[], [], 0, map p | p in procs :: [], map p | p in procs :: Idle, [], 0, map[])
  }

  lemma StartGood(procs: set<Proc>)
    ensures Good(Start(procs))
  {
    assert Pending(Start(procs)) == {};
  }

  /** Any number of threads, asking, creating and fetching in any interleaving. */
  ghost function After(procs: set<Proc>, steps: seq<Step>): (s: Sys)
    ensures Good(s)
  {
    if steps == [] then
      StartGood(procs);
      Start(procs)
    else Next(After(procs, steps[..|steps| - 1]), steps[|steps| - 1])
  }

  /** At most one communicator is ever registered for an ordered pair, and its reverse with it. */
  lemma OnePerPair(procs: set<Proc>, steps: seq<Step>, c: Comm)
    requires c in After(procs, steps).registry
    ensures var s := After(procs, steps);
      && c in s.links && Paired(s, c, s.links[c].reverse) && s.links[c].reverse in s.registry
      && forall d :: d in s.registry && Alike(s, d, c) ==> d == c
  {
    assert Registered(After(procs, steps), c);
  }

  lemma {:induction false} FetchKeepsRegistry(s: Sys, p: Proc, i: nat)
    requires p in s.senders && i <= |s.registry| && forall c :: c in s.registry ==> c in s.links
    ensures FetchFrom(s, p, i).registry == s.registry
  {
  }

  lemma RegistryGrows(s: Sys, step: Step)
    requires Good(s)
    ensures s.registry <= Next(s, step).registry
  {
    hide ThreadKept;
    assert WellTyped(s) && (Enabled(s, step) ==> ThreadKept(s, step.p));
    hide Good, Pending, SocketsKept, RegistryKept, Search;
    if Enabled(s, step) && step.Fetch? {
      FetchKeepsRegistry(s, step.p, |s.registry|);
    }
  }

  /** What a thread has been answered: from its own list, or by the registry. */
  predicate Holds(s: Sys, p: Proc, c: Comm) {
    (p in s.senders && c in s.senders[p]) || (p in s.at && s.at[p] == Found(c))
  }

  lemma HeldIsRegistered(s: Sys, p: Proc, c: Comm)
    requires Good(s) && Holds(s, p, c)
    ensures c in s.registry
  {
    assert p in s.at ==> ThreadKept(s, p);
  }

  /** Whoever asks for a pair, whenever, gets the same communicator. */
  lemma SameForAll(procs: set<Proc>, steps: seq<Step>, more: seq<Step>, p: Proc, q: Proc, c: Comm, d: Comm)
    requires Holds(After(procs, steps), p, c) && Holds(After(procs, steps + more), q, d)
    requires Alike(After(procs, steps + more), c, d)
    ensures c == d
  {
    var s, t := After(procs, steps), After(procs, steps + more);
    HeldIsRegistered(s, p, c);
    HeldIsRegistered(t, q, d);
    RegistryLasts(procs, steps, more);
  }

  lemma {:induction false} RegistryLasts(procs: set<Proc>, steps: seq<Step>, more: seq<Step>)
    ensures After(procs, steps).registry <= After(procs, steps + more).registry
    decreases |more|
  {
    hide Good, Next;
    if more == [] {
      assert steps + more == steps;
    } else {
      var k := |more| - 1;
      RegistryLasts(procs, steps, more[..k]);
      AfterOneMore(procs, steps, more);
      RegistryGrows(After(procs, steps + more[..k]), more[k]);
      hide After;
    }
  }

  lemma AfterOneMore(procs: set<Proc>, steps: seq<Step>, more: seq<Step>)
    requires more != []
    ensures var k := |more| - 1;
      After(procs, steps + more) == Next(After(procs, steps + more[..k]), more[k])
  {
    hide Good, Next;
    var k := |more| - 1;
    assert (steps + more)[..|steps| + k] == steps + more[..k];
  }

  /** The counter never falls short of the threads that do not know yet who has connected to them. */
  lemma CounterNeverUnder(procs: set<Proc>, steps: seq<Step>)
    ensures 0 <= |Pending(After(procs, steps))| <= After(procs, steps).count
  {
  }

  /** What a step takes up by way of a fetch. */
  ghost function FetchedBy(s: Sys, step: Step): nat
    requires Good(s)
  {
    if Enabled(s, step) && step.Fetch? then |TakenUp(s, Next(s, step), step.p)| else 0
  }

  ghost function FetchedSoFar(procs: set<Proc>, steps: seq<Step>): nat {
    if steps == [] then 0
    else
      var k := |steps| - 1;
      FetchedSoFar(procs, steps[..k]) + FetchedBy(After(procs, steps[..k]), steps[k])
  }

  lemma StepCounts(s: Sys, step: Step)
    requires Good(s)
    ensures var t := Next(s, step);
      |t.registry| - |s.registry| == 2 * (t.count - s.count + FetchedBy(s, step))
  {
    hide ThreadKept;
    assert WellTyped(s) && (Enabled(s, step) ==> ThreadKept(s, step.p));
    hide Good, Pending, SocketsKept, RegistryKept, Search, TakenUp;
    if Enabled(s, step) && step.Fetch? {
      FetchKeepsRegistry(s, step.p, |s.registry|);
      FetchCountsDown(s, step.p, |s.registry|);
    }
  }

  /** In every run the counter is the number of pairs registered less the number taken up by fetches. */
  lemma {:induction false} CounterExact(procs: set<Proc>, steps: seq<Step>)
    ensures var s := After(procs, steps);
      |s.registry| == 2 * (s.count + FetchedSoFar(procs, steps))
    decreases |steps|
  {
    hide Good, Next, FetchedBy;
    if steps != [] {
      var k := |steps| - 1;
      CounterExact(procs, steps[..k]);
      StepCounts(After(procs, steps[..k]), steps[k]);
    }
  }

  /** After a fetch a thread knows every registered communicator that delivers to it. */
  lemma FetchKnowsAll(procs: set<Proc>, steps: seq<Step>, p: Proc, c: Comm)
    requires var s := After(procs, steps); Enabled(s, Fetch(p))
    requires c in Next(After(procs, steps), Fetch(p)).registry
    ensures var t := Next(After(procs, steps), Fetch(p));
      && p in t.senders && c in t.links && (t.links[c].recipient == p ==> c in t.senders[p])
  {
    var s := After(procs, steps);
    var t := Next(s, Fetch(p));
    assert ThreadKept(s, p) && ThreadKept(t, p);
    FetchGood(s, p, |s.registry|);
    assert KnowsFrom(t, p, 0);
    hide Next, FetchFrom;
  }

  /** A creator that was too late closes each of its two sockets once, and nobody closes one twice. */
  lemma LoserClosesBoth(procs: set<Proc>, steps: seq<Step>, p: Proc)
    requires var s := After(procs, steps); Enabled(s, DiscardPair(p))
    ensures var s := After(procs, steps);
      var t := Next(s, DiscardPair(p));
      var c, d := s.at[p].c, s.at[p].d;
      && c in s.links && d in s.links
      && t.closed == s.closed + [s.links[c].receiving, s.links[c].sending]
      && s.links[c].receiving != s.links[c].sending
       && s.links[c].receiving !in s.closed && s.links[c].sending !in s.closed
      && Distinct(t.closed) && t.at[p] == Found(s.at[p].winner)
  {
    var s := After(procs, steps);
    assert ThreadKept(s, p);
    assert s.links[s.at[p].c].sending == s.links[s.at[p].d].receiving;
  }
}
