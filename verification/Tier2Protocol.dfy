/**
 The tier-2 message protocol as a transition function.

 A message is known by its address (`MsgId`), a thread by its processor (`Proc`). What virtual
 handlers and registered observers do is not fixed here: one terminating call of them is a finite
 tree, and every theorem quantifies over all such trees.
 */
module Tier2Protocol {
  import opened Sequences
  import opened MessageStates

  type MsgId = nat
  type Proc = nat
  type HandlerId = nat

  datatype Msg = Msg(
    now: State,
    prev: Option<State>,  // None until the first change
    requester: Proc,
    receiver: Proc,
    owner: Option<Proc>,  // None while in limbo
    handlers: seq<HandlerId>
  ) {
    /** The side the present state calls for. */
    function Home(): Proc {
      if ReceiverSide(now) then receiver else requester
    }

    function Away(): Proc {
      if ReceiverSide(now) then requester else receiver
    }
  }

  datatype Processor = Processor(owned: seq<MsgId>, marked: seq<MsgId>)

  /** What an onlooker would see: who owns a message as its handler starts and returns, and as it is destroyed. */
  datatype Event =
    | Began(m: MsgId, st: State, owner: Option<Proc>, requester: Proc, receiver: Proc)
    | Returned(m: MsgId, st: State, owner: Option<Proc>, requester: Proc, receiver: Proc)
    | Deleted(m: MsgId, owner: Option<Proc>, requester: Proc)

  datatype Sys = Sys(
    msgs: map<MsgId, Msg>,
    procs: map<Proc, Processor>,
    wires: map<(Proc, Proc), seq<MsgId>>,  // one FIFO per ordered pair of processors
    log: seq<Event>
  ) {
    function Wire(a: Proc, b: Proc): seq<MsgId> {
      if (a, b) in wires then wires[(a, b)] else []
    }

    predicate OwnedBy(m: MsgId, p: Proc) {
      m in msgs && msgs[m].owner == Some(p)
    }
  }

  /** What running code does to messages. */
  datatype Act =
    | Call(target: MsgId, to: State, runs: Runs)       // target->state(to)
    | New(id: MsgId, receiver: Proc)                   // a message requested by this thread
    | Pulse(target: MsgId)                             // target->pulse(), fire and forget
    | Register(target: MsgId, h: HandlerId)
    | Unregister(target: MsgId, h: HandlerId)

  datatype Script = End | Do(act: Act, next: Script)

  /** One observer's turn: what it does and what it answers. */
  datatype Glances = NoMore | Glance(script: Script, verdict: Verdict, rest: Glances)

  /** One call of exec_state: the observers' turns, then the state handler and whether it reports an error. */
  datatype Run = Run(glances: Glances, handler: Script, err: bool)

  datatype Runs = Runs(first: Run, second: Run)

  /** A socket write takes the whole pointer, or fails and the message is taken back. */
  datatype Write = Sent | Refused(runs: Runs)

  // ------------------------------------------------------------------ list keeping

  function Own(s: Sys, p: Proc, m: MsgId): Sys
    requires p in s.procs
  {
    s.(procs := s.procs[p := s.procs[p].(owned := With(s.procs[p].owned, m))])
  }

  function Release(s: Sys, p: Proc, m: MsgId): Sys
    requires p in s.procs
  {
    s.(procs := s.procs[p := Processor(Without(s.procs[p].owned, m), Without(s.procs[p].marked, m))])
  }

  function Mark(s: Sys, p: Proc, m: MsgId): Sys
    requires p in s.procs
  {
    s.(procs := s.procs[p := s.procs[p].(marked := With(s.procs[p].marked, m))])
  }

  function Unmark(s: Sys, p: Proc): Sys
    requires p in s.procs && s.procs[p].marked != []
  {
    s.(procs := s.procs[p := s.procs[p].(marked := s.procs[p].marked[1..])])
  }

  function Put(s: Sys, m: MsgId, msg: Msg): Sys {
    s.(msgs := s.msgs[m := msg])
  }

  function Note(s: Sys, e: Event): Sys {
    s.(log := s.log + [e])
  }

  // ------------------------------------------------------------------ the state machine

  /** The running thread `p` owns every message that has a frame on its stack. */
  ghost predicate Running(s: Sys, p: Proc, busy: set<MsgId>) {
    && p in s.procs
    && forall b :: b in busy ==> s.OwnedBy(b, p)
  }

  ghost function Play(s: Sys, p: Proc, busy: set<MsgId>, script: Script): (r: Sys)
    requires Running(s, p, busy)
    ensures Running(r, p, busy) && r.procs.Keys == s.procs.Keys
    decreases script
  {
    match script
    case End => s
    case Do(act, next) => Play(Perform(s, p, busy, act), p, busy, next)
  }

  /** A thread touches only messages it owns, and never destroys one that has a frame on its stack. */
  ghost function Perform(s: Sys, p: Proc, busy: set<MsgId>, act: Act): (r: Sys)
    requires Running(s, p, busy)
    ensures Running(r, p, busy) && r.procs.Keys == s.procs.Keys
    decreases act
  {
    match act
    case Call(target, to, runs) =>
      if s.OwnedBy(target, p) then SetState(s, p, busy, target, to, runs).0 else s
    case New(id, receiver) =>
      if id !in s.msgs && receiver in s.procs then Create(s, p, id, receiver) else s
    case Pulse(target) =>
      if s.OwnedBy(target, p) && s.msgs[target].requester == s.msgs[target].receiver && target !in busy then
        PulseSelf(s, p, target)
      else s
    case Register(target, h) =>
      if s.OwnedBy(target, p) then
        Put(s, target, s.msgs[target].(handlers := With(s.msgs[target].handlers, h)))
      else s
    case Unregister(target, h) =>
      if s.OwnedBy(target, p) then
        Put(s, target, s.msgs[target].(handlers := Without(s.msgs[target].handlers, h)))
      else s
  }

  /** The constructor: owned by its requester at once, and its start state executed without effect. */
  function Create(s: Sys, p: Proc, id: MsgId, receiver: Proc): Sys
    requires p in s.procs
  {
    Put(Own(s, p, id), id, Msg(Initialized, Some(Initialized), p, receiver, Some(p), []))
  }

  /** pulse() on a message that never crosses threads: destroyed when its state says so. */
  function PulseSelf(s: Sys, p: Proc, m: MsgId): Sys
    requires p in s.procs && m in s.msgs
  {
    if s.msgs[m].now == Destruction then Delete(s, p, m) else s
  }

  function Delete(s: Sys, p: Proc, m: MsgId): Sys
    requires p in s.procs && m in s.msgs
  {
    var r := Release(s, p, m);
    Note(r.(msgs := r.msgs - {m}), Deleted(m, s.msgs[m].owner, s.msgs[m].requester))
  }

  /** state(): exec_state at most twice, until the state asked for is the state there is. */
  ghost function SetState(s: Sys, p: Proc, busy: set<MsgId>, m: MsgId, to: State, runs: Runs): (r: (Sys, State))
    requires Running(s, p, busy) && s.OwnedBy(m, p)
    ensures Running(r.0, p, busy + {m}) && r.0.procs.Keys == s.procs.Keys
    decreases runs
  {
    if to == s.msgs[m].now then (s, to)
    else
      var (s1, to1) := Exec(s, p, busy, m, to, runs.first);
      if to1 == s1.msgs[m].now then (s1, to1) else Exec(s1, p, busy, m, to1, runs.second)
  }

  ghost function Exec(s: Sys, p: Proc, busy: set<MsgId>, m: MsgId, to: State, run: Run): (r: (Sys, State))
    requires Running(s, p, busy) && s.OwnedBy(m, p)
    ensures Running(r.0, p, busy + {m}) && r.0.procs.Keys == s.procs.Keys
    decreases run
  {
    var (s1, verdict) := Observe(s, p, busy + {m}, s.msgs[m].handlers, run.glances);
    if verdict == DontChange then (s1, s1.msgs[m].now)
    else
      var st := if verdict == ErrorOccurred then Failed else to;
      var s2 := Enter(s1, m, st);
      var s3 := Handle(s2, p, busy, m, st, run);
      (s3, if Reports(s2.msgs[m], p, st, run) then Failed else s3.msgs[m].now)
  }

  /** The observers registered when the change begins, asked in order until one objects. */
  ghost function Observe(s: Sys, p: Proc, busy: set<MsgId>, hs: seq<HandlerId>, glances: Glances): (r: (Sys, Verdict))
    requires Running(s, p, busy)
    ensures Running(r.0, p, busy) && r.0.procs.Keys == s.procs.Keys
    decreases glances
  {
    if hs == [] || glances.NoMore? then (s, Proceed)
    else
      var s1 := Play(s, p, busy, glances.script);
      if glances.verdict == Proceed then Observe(s1, p, busy, hs[1..], glances.rest) else (s1, glances.verdict)
  }

  function Enter(s: Sys, m: MsgId, st: State): Sys
    requires m in s.msgs
  {
    Put(s, m, s.msgs[m].(prev := Some(s.msgs[m].now), now := st))
  }

  /** The handler of `st` runs here: the owner is on the side `st` calls for. */
  predicate RunsHere(msg: Msg, p: Proc, st: State) {
    st != Initialized && p == if ReceiverSide(st) then msg.receiver else msg.requester
  }

  predicate Reports(msg: Msg, p: Proc, st: State, run: Run) {
    RunsHere(msg, p, st) && run.err
  }

  ghost function Handle(s: Sys, p: Proc, busy: set<MsgId>, m: MsgId, st: State, run: Run): (r: Sys)
    requires Running(s, p, busy) && s.OwnedBy(m, p)
    ensures Running(r, p, busy + {m}) && r.procs.Keys == s.procs.Keys
    decreases run, 1
  {
    var msg := s.msgs[m];
    if st == Initialized then
      if p != msg.requester then Mark(s, p, m) else s
    else if RunsHere(msg, p, st) then
      var s1 := RunHandler(s, p, busy, m, st, run);
      if st == Destruction then Mark(s1, p, m) else s1
    else
      Mark(s, p, m)
  }

  ghost function RunHandler(s: Sys, p: Proc, busy: set<MsgId>, m: MsgId, st: State, run: Run): (r: Sys)
    requires Running(s, p, busy) && s.OwnedBy(m, p)
    ensures Running(r, p, busy + {m}) && r.procs.Keys == s.procs.Keys
    decreases run, 0
  {
    var msg := s.msgs[m];
    var s1 := Play(Note(s, Began(m, st, msg.owner, msg.requester, msg.receiver)), p, busy + {m}, run.handler);
    Note(s1, Returned(m, st, s1.msgs[m].owner, msg.requester, msg.receiver))
  }

  // ------------------------------------------------------------------ crossing threads

  /** current_owner(p) on a message in limbo: owned again, and its state executed once more on this side. */
  ghost function TakeOver(s: Sys, p: Proc, m: MsgId, runs: Runs): (r: Sys)
    requires p in s.procs && m in s.msgs
    ensures r.procs.Keys == s.procs.Keys
  {
    var s1 := Put(Own(s, p, m), m, s.msgs[m].(owner := Some(p)));
    var (s2, to) := Exec(s1, p, {}, m, s1.msgs[m].now, runs.first);
    if to == s2.msgs[m].now then s2 else Exec(s2, p, {}, m, to, runs.second).0
  }

  /** post_message: into limbo first, then onto the wire or back. */
  ghost function Post(s: Sys, p: Proc, q: Proc, m: MsgId, write: Write): (r: Sys)
    requires p in s.procs && m in s.msgs
    ensures r.procs.Keys == s.procs.Keys
  {
    var limbo := Put(Release(s, p, m), m, s.msgs[m].(owner := None));
    match write
    case Sent => limbo.(wires := limbo.wires[(p, q) := limbo.Wire(p, q) + [m]])
    case Refused(runs) => TakeOver(limbo, p, m, runs)
  }

  /** pulse(): destroyed by its requester, or sent to the side its state calls for. */
  ghost function PulseMessage(s: Sys, p: Proc, m: MsgId, write: Write): (r: Sys)
    requires p in s.procs && m in s.msgs
    ensures r.procs.Keys == s.procs.Keys
  {
    var msg := s.msgs[m];
    if msg.now == Destruction && p == msg.requester then Delete(s, p, m)
    else if p != msg.Home() then Post(s, p, msg.Home(), m, write)
    else s
  }

  /** One turn of the pulse_marked_messages loop. */
  ghost function PulseNext(s: Sys, p: Proc, write: Write): (r: Sys)
    requires p in s.procs && s.procs[p].marked != []
    ensures r.procs.Keys == s.procs.Keys
  {
    var m := s.procs[p].marked[0];
    var s1 := Unmark(s, p);
    if s1.OwnedBy(m, p) then PulseMessage(s1, p, m, write) else s1
  }

  /** pop_one_message on the wire from `a` to `b`. */
  ghost function Pop(s: Sys, a: Proc, b: Proc, runs: Runs): (r: Sys)
    requires b in s.procs && s.Wire(a, b) != [] && s.Wire(a, b)[0] in s.msgs
    ensures r.procs.Keys == s.procs.Keys
  {
    var m := s.Wire(a, b)[0];
    TakeOver(s.(wires := s.wires[(a, b) := s.Wire(a, b)[1..]]), b, m, runs)
  }
}
