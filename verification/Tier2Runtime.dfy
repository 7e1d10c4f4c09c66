/**
 The tier-2 objects as the program has them: messages and processors whose fields change in place,
 and methods that re-enter one another. Each is proved to do what the transition function says.
 */
module Tier2Runtime {
  import opened Sequences
  import opened MessageStates
  import opened Tier2Protocol
  import opened Tier2Invariants
  import opened Tier2Runs
  import opened Tier2Drain

  class Message {
    const requester: Proc
    const receiver: Proc
    var now: State
    var prev: Option<State>
    var owner: Option<Proc>
    var handlers: seq<HandlerId>

    constructor (requester: Proc, receiver: Proc)
      ensures Record() == Msg(Initialized, None, requester, receiver, None, [])
    {
      this.requester, this.receiver := requester, receiver;
      now, prev, owner, handlers := Initialized, None, None, [];
    }

    ghost function Record(): Msg
      reads this
    {
      Msg(now, prev, requester, receiver, owner, handlers)
    }

    method RegisterHandler(h: HandlerId)
      modifies this`handlers
      ensures handlers == With(old(handlers), h)
    {
      for i := 0 to |handlers|
        invariant handlers == old(handlers) && h !in handlers[..i]
      {
        if handlers[i] == h {
          return;
        }
      }
      handlers := handlers + [h];
    }

    method UnregisterHandler(h: HandlerId)
      modifies this`handlers
      ensures handlers == Without(old(handlers), h)
    {
      for i := 0 to |handlers|
        invariant handlers == old(handlers) && h !in handlers[..i]
      {
        if handlers[i] == h {
          WithoutSplits(handlers, h, i);
          handlers := handlers[..i] + handlers[i + 1..];
          return;
        }
      }
    }
  }

  class Processor {
    var owned: seq<MsgId>
    var marked: seq<MsgId>

    constructor ()
      ensures owned == [] && marked == []
    {
      owned, marked := [], [];
    }

    ghost function Lists(): Tier2Protocol.Processor
      reads this
    {
      Tier2Protocol.Processor(owned, marked)
    }

    method DoesOwn(m: MsgId) returns (found: bool)
      ensures found <==> m in owned
    {
      for i := 0 to |owned|
        invariant m !in owned[..i]
      {
        if owned[i] == m {
          return true;
        }
      }
      return false;
    }

    method Own(m: MsgId)
      modifies this`owned
      ensures owned == With(old(owned), m)
    {
      var found := DoesOwn(m);
      if !found {
        owned := owned + [m];
      }
    }

    method Release(m: MsgId)
      modifies this
      ensures owned == Without(old(owned), m) && marked == Without(old(marked), m)
    {
      marked := Erase(marked, m);
      owned := Erase(owned, m);
    }

    static method Erase(q: seq<MsgId>, m: MsgId) returns (r: seq<MsgId>)
      ensures r == Without(q, m)
    {
      for i := 0 to |q|
        invariant m !in q[..i]
      {
        if q[i] == m {
          WithoutSplits(q, m, i);
          return q[..i] + q[i + 1..];
        }
      }
      return q;
    }

    method QueueForPulsing(m: MsgId)
      modifies this`marked
      ensures marked == With(old(marked), m)
    {
      for i := 0 to |marked|
        invariant marked == old(marked) && m !in marked[..i]
      {
        if marked[i] == m {
          return;
        }
      }
      marked := marked + [m];
    }
  }

  class Runtime {
    var messages: map<MsgId, Message>
    const processors: map<Proc, Processor>
    var wires: map<(Proc, Proc), seq<MsgId>>
    ghost var log: seq<Event>
    ghost var heap: set<object>  // the message and processor objects, those of destroyed messages included

    constructor (processors: map<Proc, Processor>)
      requires forall p :: p in processors ==> processors[p].owned == [] && processors[p].marked == []
      requires forall p, q :: p in processors && q in processors && p != q ==> processors[p] != processors[q]
      ensures Valid() && View() == Start(processors.Keys)
    {
      this.messages, this.processors, this.wires := map[], processors, map[];
      log, heap := [], set p | p in processors :: processors[p] as object;
    }

    ghost predicate Valid()
      reads this
    {
      && this !in heap
      && (forall m :: m in messages ==> messages[m] in heap)
      && (forall p :: p in processors ==> processors[p] in heap)
      && (forall i, j :: i in messages && j in messages && i != j ==> messages[i] != messages[j])
      && (forall p, q :: p in processors && q in processors && p != q ==> processors[p] != processors[q])
    }

    ghost function View(): Sys
      reads this, heap
      requires Valid()
    {
      Sys(map m | m in messages :: messages[m].Record(), map p | p in processors :: processors[p].Lists(), wires, log)
    }

    lemma ViewHolds()
      requires Valid()
      ensures View().msgs.Keys == messages.Keys && View().procs.Keys == processors.Keys
      ensures forall m :: m in messages ==> View().msgs[m] == messages[m].Record()
      ensures forall p :: p in processors ==> View().procs[p] == processors[p].Lists()
      ensures View().wires == wires && View().log == log
      ensures forall m :: m in messages ==> messages[m] in heap
      ensures forall p :: p in processors ==> processors[p] in heap
    {
    }

    // ---------------------------------------------------------------- single updates

    method OwnMessage(p: Proc, m: MsgId)
      requires Valid() && p in processors
      modifies processors[p]
      ensures Valid()
      ensures View() == Tier2Protocol.Own(old(View()), p, m)
    {
      processors[p].Own(m);
      assert View().procs == Tier2Protocol.Own(old(View()), p, m).procs;
    }

    method ReleaseMessage(p: Proc, m: MsgId)
      requires Valid() && p in processors
      modifies processors[p]
      ensures Valid()
      ensures View() == Tier2Protocol.Release(old(View()), p, m)
    {
      processors[p].Release(m);
      assert View().procs == Tier2Protocol.Release(old(View()), p, m).procs;
    }

    method QueueMessage(p: Proc, m: MsgId)
      requires Valid() && p in processors
      modifies processors[p]
      ensures Valid()
      ensures View() == Mark(old(View()), p, m)
    {
      processors[p].QueueForPulsing(m);
      assert View().procs == Mark(old(View()), p, m).procs;
    }

    method ChangeState(m: MsgId, st: State)
      requires Valid() && m in messages
      modifies messages[m]
      ensures Valid()
      ensures View() == Enter(old(View()), m, st)
    {
      messages[m].prev := Some(messages[m].now);
      messages[m].now := st;
      assert View().msgs == Enter(old(View()), m, st).msgs;
    }

    method ChangeOwner(m: MsgId, owner: Option<Proc>)
      requires Valid() && m in messages
      modifies messages[m]
      ensures Valid()
      ensures View() == Put(old(View()), m, old(View()).msgs[m].(owner := owner))
    {
      messages[m].owner := owner;
      assert View().msgs == Put(old(View()), m, old(View()).msgs[m].(owner := owner)).msgs;
    }

    ghost method Record(e: Event)
      requires Valid()
      modifies this`log
      ensures Valid() && View() == Note(old(View()), e)
    {
      log := log + [e];
    }

    method Subscribe(m: MsgId, h: HandlerId)
      requires Valid() && m in messages
      modifies messages[m]
      ensures Valid()
      ensures var msg := old(View()).msgs[m];
        View() == Put(old(View()), m, msg.(handlers := With(msg.handlers, h)))
    {
      messages[m].RegisterHandler(h);
      assert View().msgs == Put(old(View()), m, messages[m].Record()).msgs;
    }

    method Unsubscribe(m: MsgId, h: HandlerId)
      requires Valid() && m in messages
      modifies messages[m]
      ensures Valid()
      ensures var msg := old(View()).msgs[m];
        View() == Put(old(View()), m, msg.(handlers := Without(msg.handlers, h)))
    {
      messages[m].UnregisterHandler(h);
      assert View().msgs == Put(old(View()), m, messages[m].Record()).msgs;
    }

    // ---------------------------------------------------------------- the state machine

    method Enlist(id: MsgId, msg: Message)
      requires Valid() && id !in messages && msg !in heap
      modifies this`messages, this`heap
      ensures Valid() && heap == old(heap) + {msg}
      ensures View() == Put(old(View()), id, msg.Record())
    {
      ghost var procs := View().procs;
      messages, heap := messages[id := msg], heap + {msg};
      assert View().procs == procs;
      assert View().msgs == old(View()).msgs[id := msg.Record()];
    }

    static method NewMessage(p: Proc, receiver: Proc) returns (msg: Message)
      ensures fresh(msg) && msg.Record() == Msg(Initialized, Some(Initialized), p, receiver, Some(p), [])
    {
      msg := new Message(p, receiver);
      msg.owner, msg.prev := Some(p), Some(msg.now);
    }

    method Construct(p: Proc, id: MsgId, receiver: Proc)
      requires Valid() && p in processors && id !in messages
      modifies this`messages, this`heap, processors[p]
      ensures Valid() && forall o :: o in heap ==> o in old(heap) || fresh(o)
      ensures View() == Create(old(View()), p, id, receiver)
    {
      hide View;
      ViewHolds();
      var msg := NewMessage(p, receiver);
      Enlist(id, msg);
      ViewHolds();
      OwnMessage(p, id);
    }

    method Delist(m: MsgId)
      requires Valid() && m in messages
      modifies this`messages
      ensures Valid() && View() == old(View()).(msgs := old(View()).msgs - {m})
    {
      ghost var s := View();
      messages := messages - {m};
      assert View().procs == s.procs && View().msgs == s.msgs - {m};
    }

    method Destroy(p: Proc, m: MsgId)
      requires Valid() && p in processors && m in messages
      modifies this`messages, this`log, processors[p]
      ensures Valid()
      ensures View() == Delete(old(View()), p, m)
    {
      hide View;
      ViewHolds();
      ghost var owner, requester := messages[m].owner, messages[m].requester;
      ReleaseMessage(p, m);
      Record(Deleted(m, owner, requester));
      Delist(m);
    }

    method Play(p: Proc, busy: set<MsgId>, script: Script)
      requires Valid() && Running(View(), p, busy)
      modifies this, heap
      ensures Valid() && forall o :: o in heap ==> o in old(heap) || fresh(o)
      ensures View() == Tier2Protocol.Play(old(View()), p, busy, script)
      decreases script
    {
      hide View, Valid, Tier2Protocol.Perform;
      match script
      case End =>
      case Do(act, next) =>
        Perform(p, busy, act);
        Play(p, busy, next);
    }

    method Perform(p: Proc, busy: set<MsgId>, act: Act)
      requires Valid() && Running(View(), p, busy)
      modifies this, heap
      ensures Valid() && forall o :: o in heap ==> o in old(heap) || fresh(o)
      ensures View() == Tier2Protocol.Perform(old(View()), p, busy, act)
      decreases act
    {
      hide View, Valid, Tier2Protocol.SetState, Create, Delete, With, Without;
      ViewHolds();
      match act
      case Call(target, to, runs) =>
        if target in messages && messages[target].owner == Some(p) {
          var _ := SetState(p, busy, target, to, runs);
        }
      case New(id, receiver) =>
        if id !in messages && receiver in processors {
          Construct(p, id, receiver);
        }
      case Pulse(target) =>
        if target in messages && messages[target].owner == Some(p) {
          var msg := messages[target];
          if msg.requester == msg.receiver && target !in busy && msg.now == Destruction {
            Destroy(p, target);
          }
        }
      case Register(target, h) =>
        if target in messages && messages[target].owner == Some(p) {
          Subscribe(target, h);
        }
      case Unregister(target, h) =>
        if target in messages && messages[target].owner == Some(p) {
          Unsubscribe(target, h);
        }
    }

    method SetState(p: Proc, busy: set<MsgId>, m: MsgId, to: State, runs: Runs) returns (st: State)
      requires Valid() && Running(View(), p, busy) && View().OwnedBy(m, p)
      modifies this, heap
      ensures Valid() && forall o :: o in heap ==> o in old(heap) || fresh(o)
      ensures (View(), st) == Tier2Protocol.SetState(old(View()), p, busy, m, to, runs)
      decreases runs
    {
      ViewHolds();
      hide View, Valid, Exec;
      st := to;
      if st != messages[m].now {
        st := ExecState(p, busy, m, st, runs.first);
        ViewHolds();
        if st != messages[m].now {
          st := ExecState(p, busy, m, st, runs.second);
        }
      }
    }

    method ExecState(p: Proc, busy: set<MsgId>, m: MsgId, to: State, run: Run) returns (st: State)
      requires Valid() && Running(View(), p, busy) && View().OwnedBy(m, p)
      modifies this, heap
      ensures Valid() && forall o :: o in heap ==> o in old(heap) || fresh(o)
      ensures (View(), st) == Exec(old(View()), p, busy, m, to, run)
      decreases run
    {
      hide View, Valid, Observe, Handle, Enter, Reports;
      ViewHolds();
      var verdict := HandleStateChange(p, busy + {m}, messages[m].handlers, run.glances);
      if verdict == DontChange {
        ViewHolds();
        st := messages[m].now;
      } else {
        st := EnterState(p, busy, m, if verdict == ErrorOccurred then Failed else to, run);
      }
    }

    method EnterState(p: Proc, busy: set<MsgId>, m: MsgId, to: State, run: Run) returns (st: State)
      requires Valid() && Running(View(), p, busy) && View().OwnedBy(m, p)
      modifies this, heap
      ensures Valid() && forall o :: o in heap ==> o in old(heap) || fresh(o)
      ensures var s := Enter(old(View()), m, to);
        && View() == Handle(s, p, busy, m, to, run)
        && st == if Reports(s.msgs[m], p, to, run) then Failed else View().msgs[m].now
      decreases run, 1
    {
      ViewHolds();
      hide View, Valid, Handle;
      ChangeState(m, to);
      var err := RunStateHandler(p, busy, m, to, run);
      ViewHolds();
      st := if err then Failed else messages[m].now;
    }

    /** Walks a copy of the observer list; `glances` says what each observer on it does. */
    method HandleStateChange(p: Proc, busy: set<MsgId>, hs: seq<HandlerId>, glances: Glances) returns (verdict: Verdict)
      requires Valid() && Running(View(), p, busy)
      modifies this, heap
      ensures Valid() && forall o :: o in heap ==> o in old(heap) || fresh(o)
      ensures (View(), verdict) == Observe(old(View()), p, busy, hs, glances)
      decreases glances
    {
      var i, g := 0, glances;
      while i < |hs| && g.Glance?
        invariant i <= |hs|
        invariant (glances nonincreases to g)
        invariant Valid() && Running(View(), p, busy)
        invariant forall o :: o in heap ==> o in old(heap) || fresh(o)
        invariant Observe(View(), p, busy, hs[i..], g) == Observe(old(View()), p, busy, hs, glances)
      {
        Play(p, busy, g.script);
        if g.verdict != Proceed {
          return g.verdict;
        }
        assert hs[i..][1..] == hs[i + 1..];
        i, g := i + 1, g.rest;
      }
      return Proceed;
    }

    /** The switch of exec_state: each state's handler has its side. */
    method RunStateHandler(p: Proc, busy: set<MsgId>, m: MsgId, st: State, run: Run) returns (err: bool)
      requires Valid() && Running(View(), p, busy) && View().OwnedBy(m, p)
      modifies this, heap
      ensures Valid() && forall o :: o in heap ==> o in old(heap) || fresh(o)
      ensures View() == Handle(old(View()), p, busy, m, st, run)
      ensures err == Reports(old(View()).msgs[m], p, st, run)
      decreases run, 0, 2
    {
      hide View, Valid, Tier2Protocol.Play, Tier2Protocol.RunHandler, With, Without;
      ViewHolds();
      if ReceiverSide(st) {
        err := RunOrQueue(p, messages[m].receiver, busy, m, st, run);
      } else if st == Destruction {
        err := RunDestruction(p, busy, m, run);
      } else if st == Initialized {
        err := false;
        if p != messages[m].requester {
          QueueMessage(p, m);
        }
      } else {
        err := RunOrQueue(p, messages[m].requester, busy, m, st, run);
      }
    }

    /** Destruction is itself pulsed: the message is queued on whichever side it is. */
    method RunDestruction(p: Proc, busy: set<MsgId>, m: MsgId, run: Run) returns (err: bool)
      requires Valid() && Running(View(), p, busy) && View().OwnedBy(m, p)
      modifies this, heap
      ensures Valid() && forall o :: o in heap ==> o in old(heap) || fresh(o)
      ensures View() == Handle(old(View()), p, busy, m, Destruction, run)
      ensures err == Reports(old(View()).msgs[m], p, Destruction, run)
      decreases run, 0, 1
    {
      hide View, Valid, Tier2Protocol.Play, Tier2Protocol.RunHandler, With, Without;
      ViewHolds();
      err := false;
      if p == messages[m].requester {
        err := RunOrQueue(p, p, busy, m, Destruction, run);
        ViewHolds();
      }
      QueueMessage(p, m);
    }

    /** The handler runs when the owner is on its side; otherwise the message is queued for the crossing. */
    method RunOrQueue(p: Proc, side: Proc, busy: set<MsgId>, m: MsgId, st: State, run: Run) returns (err: bool)
      requires Valid() && Running(View(), p, busy) && View().OwnedBy(m, p)
      modifies this, heap
      ensures Valid() && forall o :: o in heap ==> o in old(heap) || fresh(o)
      ensures Running(View(), p, busy + {m}) && View().procs.Keys == old(View()).procs.Keys
      ensures View() == if p == side then RunHandler(old(View()), p, busy, m, st, run) else Mark(old(View()), p, m)
      ensures err == (p == side && run.err)
      decreases run, 0, 0
    {
      hide View, Valid, Tier2Protocol.Play, With, Without;
      ViewHolds();
      err := false;
      if p == side {
        ghost var requester, receiver := messages[m].requester, messages[m].receiver;
        Record(Began(m, st, messages[m].owner, requester, receiver));
        Play(p, busy + {m}, run.handler);
        ViewHolds();
        Record(Returned(m, st, messages[m].owner, requester, receiver));
        err := run.err;
      } else {
        QueueMessage(p, m);
      }
    }

    // ---------------------------------------------------------------- crossing threads

    /** current_owner(p), for a message in limbo. */
    method TakeOwnership(p: Proc, m: MsgId, runs: Runs)
      requires Valid() && p in processors && m in messages
      modifies this, heap
      ensures Valid() && forall o :: o in heap ==> o in old(heap) || fresh(o)
      ensures View() == TakeOver(old(View()), p, m, runs)
    {
      ViewHolds();
      hide View, Valid;
      OwnMessage(p, m);
      ViewHolds();
      ChangeOwner(m, Some(p));
      ViewHolds();
      hide Exec;
      ReExecute(p, m, runs);
    }

    /** The state is executed again, so that its task can be performed by the new owner. */
    method ReExecute(p: Proc, m: MsgId, runs: Runs)
      requires Valid() && p in processors && View().OwnedBy(m, p)
      modifies this, heap
      ensures Valid() && forall o :: o in heap ==> o in old(heap) || fresh(o)
      ensures var (s, to) := Exec(old(View()), p, {}, m, old(View()).msgs[m].now, runs.first);
        View() == if to == s.msgs[m].now then s else Exec(s, p, {}, m, to, runs.second).0
    {
      ViewHolds();
      hide View, Valid, Exec;
      var to := ExecState(p, {}, m, messages[m].now, runs.first);
      ViewHolds();
      if to != messages[m].now {
        var _ := ExecState(p, {}, m, to, runs.second);
      }
    }

    /** Release with the owner cleared: the message is in limbo. */
    method EnterLimbo(p: Proc, m: MsgId)
      requires Valid() && p in processors && m in messages
      modifies processors[p], messages[m]
      ensures Valid()
      ensures View() == Put(Tier2Protocol.Release(old(View()), p, m), m, old(View()).msgs[m].(owner := None))
    {
      ViewHolds();
      hide View;
      ReleaseMessage(p, m);
      ViewHolds();
      ChangeOwner(m, None);
    }

    method Transmit(p: Proc, q: Proc, m: MsgId)
      requires Valid()
      modifies this`wires
      ensures Valid() && View() == old(View()).(wires := old(View()).wires[(p, q) := old(View()).Wire(p, q) + [m]])
    {
      wires := wires[(p, q) := (if (p, q) in wires then wires[(p, q)] else []) + [m]];
    }

    /** post_message, with the outcome of the socket write. */
    method PostMessage(p: Proc, q: Proc, m: MsgId, write: Write) returns (failed: bool)
      requires Valid() && p in processors && m in messages
      modifies this, heap
      ensures Valid() && forall o :: o in heap ==> o in old(heap) || fresh(o)
      ensures View() == Post(old(View()), p, q, m, write) && failed == write.Refused?
    {
      ViewHolds();
      hide View, Valid, TakeOver;
      EnterLimbo(p, m);
      ViewHolds();
      match write
      case Sent =>
        Transmit(p, q, m);
        failed := false;
      case Refused(runs) =>
        TakeOwnership(p, m, runs);
        failed := true;
    }

    method PulseMessage(p: Proc, m: MsgId, write: Write) returns (failed: bool)
      requires Valid() && p in processors && m in messages
      modifies this, heap
      ensures Valid() && forall o :: o in heap ==> o in old(heap) || fresh(o)
      ensures View() == Tier2Protocol.PulseMessage(old(View()), p, m, write)
      ensures failed == (p != old(View()).msgs[m].Home() && write.Refused?)
    {
      hide View, Valid, Post;
      ViewHolds();
      failed := false;
      var msg := messages[m];
      if msg.now == Destruction {
        if p != msg.requester {
          failed := PostMessage(p, msg.requester, m, write);
        } else {
          Destroy(p, m);
        }
      } else if ReceiverSide(msg.now) {
        if p != msg.receiver {
          failed := PostMessage(p, msg.receiver, m, write);
        }
      } else if p != msg.requester {
        failed := PostMessage(p, msg.requester, m, write);
      }
    }

    method UnmarkHead(p: Proc) returns (m: MsgId)
      requires Valid() && p in processors && processors[p].marked != []
      modifies processors[p]
      ensures Valid() && m == old(processors[p].marked[0]) && View() == Unmark(old(View()), p)
    {
      m := processors[p].marked[0];
      processors[p].marked := processors[p].marked[1..];
      assert View().procs == Unmark(old(View()), p).procs;
    }

    method PulseNextMessage(p: Proc, write: Write) returns (failed: bool)
      requires Valid() && p in processors && processors[p].marked != []
      modifies this, heap
      ensures Valid() && forall o :: o in heap ==> o in old(heap) || fresh(o)
      ensures View() == PulseNext(old(View()), p, write)
      ensures failed <==> TurnFails(old(View()), p, write)
    {
      ViewHolds();
      hide View, Valid, Tier2Protocol.PulseMessage;
      failed := false;
      var m := UnmarkHead(p);
      ViewHolds();
      if m in messages && messages[m].owner == Some(p) {
        failed := PulseMessage(p, m, write);
      }
    }

    /** One turn of the loop below; the writes still to come are handed on. */
    method PulseTurn(p: Proc, writes: seq<Write>) returns (failed: bool, rest: seq<Write>)
      requires Valid() && p in processors && processors[p].marked != []
      modifies this, heap
      ensures Valid() && forall o :: o in heap ==> o in old(heap) || fresh(o)
      ensures View().procs.Keys == old(View()).procs.Keys
      ensures var d := Drain(View(), p, rest); Drain(old(View()), p, writes) == (d.0, d.1 + 1)
      ensures |rest| < |writes| || (rest == writes == [] && |processors[p].marked| < old(|processors[p].marked|))
      ensures DrainFails(old(View()), p, writes) <==> failed || DrainFails(View(), p, rest)
      ensures failed <==> TurnFails(old(View()), p, WriteAt(writes, 0))
    {
      hide View, Valid, PulseNext, Drain, DrainFails, TurnFails;
      ViewHolds();
      DrainTurn(View(), p, writes);
      DrainFailsTurn(View(), p, writes);
      if writes == [] {
        SentShrinks(View(), p);
      }
      failed := PulseNextMessage(p, if writes == [] then Sent else writes[0]);
      ViewHolds();
      rest := if writes == [] then [] else writes[1..];
    }

    /** Always from position 0 again: the set may change while it is worked on. */
    method PulseMarkedMessages(p: Proc, writes: seq<Write>) returns (failed: bool, ghost turns: nat)
      requires Valid() && p in processors
      modifies this, heap
      ensures Valid() && forall o :: o in heap ==> o in old(heap) || fresh(o)
      ensures (View(), turns) == Drain(old(View()), p, writes) && (failed <==> DrainFails(old(View()), p, writes))
    {
      hide View, Valid, PulseNext, Drain, DrainFails, TurnFails;
      ViewHolds();
      failed, turns := false, 0;
      var rest := writes;
      while processors[p].marked != []
        invariant Valid() && View().procs.Keys == old(View()).procs.Keys
        invariant forall o :: o in heap ==> o in old(heap) || fresh(o)
        invariant Drain(old(View()), p, writes).0 == Drain(View(), p, rest).0
        invariant Drain(old(View()), p, writes).1 == turns + Drain(View(), p, rest).1
        invariant DrainFails(old(View()), p, writes) <==> failed || DrainFails(View(), p, rest)
        decreases |rest|, |processors[p].marked|
      {
        var err;
        err, rest := PulseTurn(p, rest);
        failed, turns := failed || err, turns + 1;
        ViewHolds();
      }
      ViewHolds();
      DrainTurn(View(), p, rest);
      DrainFailsTurn(View(), p, rest);
    }

    method Dequeue(a: Proc, b: Proc) returns (m: MsgId)
      requires Valid() && View().Wire(a, b) != []
      modifies this`wires
      ensures Valid() && m == old(View().Wire(a, b)[0])
      ensures View() == old(View()).(wires := old(View()).wires[(a, b) := old(View()).Wire(a, b)[1..]])
    {
      m := wires[(a, b)][0];
      wires := wires[(a, b) := wires[(a, b)][1..]];
    }

    /** The receiving end attaches the message that comes out of the socket to its new owner. */
    method PopOneMessage(a: Proc, b: Proc, runs: Runs) returns (m: MsgId)
      requires Valid() && b in processors && View().Wire(a, b) != [] && View().Wire(a, b)[0] in messages
      modifies this, heap
      ensures Valid() && forall o :: o in heap ==> o in old(heap) || fresh(o)
      ensures View() == Pop(old(View()), a, b, runs) && m == old(View()).Wire(a, b)[0]
    {
      ViewHolds();
      hide View, Valid, TakeOver;
      m := Dequeue(a, b);
      ViewHolds();
      TakeOwnership(b, m, runs);
    }

    // ---------------------------------------------------------------- the cancel message

    /**
      The cancel's f_exec_command: it aborts its target where it finds it, and reports an error unless that was in vain.
     */
    method CancelCommand(p: Proc, busy: set<MsgId>, target: MsgId, runs: Runs) returns (err: bool)
      requires Valid() && p in processors && Running(View(), p, busy) && Placed(View())
      modifies this, heap
      ensures Valid() && forall o :: o in heap ==> o in old(heap) || fresh(o)
      ensures var s := old(View());
        if s.OwnedBy(target, p) then
          var aborted := Tier2Protocol.SetState(s, p, busy, target, Aborted, runs);
          View() == aborted.0 && err == (aborted.1 == Aborted)
        else View() == s && err
    {
      ViewHolds();
      OwnedIsListed(View(), p, target);
      hide View, Valid, Placed;
      var found := processors[p].DoesOwn(target);
      err := true;
      if found {
        var st := SetState(p, busy, target, Aborted, runs);
        err := st == Aborted;
      }
    }

    lemma OwnedIsListed(s: Sys, p: Proc, m: MsgId)
      requires Placed(s) && p in s.procs
      ensures m in s.procs[p].owned <==> s.OwnedBy(m, p)
    {
      assert ListsKept(s, p);
      if m in s.msgs {
        assert MessagePlaced(s, m);
      }
    }
  }
}
