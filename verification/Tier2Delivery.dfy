/**
 What a delivery does: the observers of the message are asked, its handler runs with the new owner, and an error that
 either reports ends in FAILED.
 */
module Tier2Delivery {
  import opened Sequences
  import opened MessageStates
  import opened Tier2Protocol
  import opened Tier2Invariants
  import opened Tier2Runs
  import opened Tier2Drain
  import opened Tier2StateChange

  // ------------------------------------------------------------------ whom the observers are

  /** What the observers asked do, one after the other, down to the first that objects. */
  function Heard(hs: seq<HandlerId>, glances: Glances): Script
    decreases glances
  {
    if hs == [] || glances.NoMore? then End
    else if glances.verdict == Proceed then Then(glances.script, Heard(hs[1..], glances.rest))
    else glances.script
  }

  /** The observers registered are asked in order until one objects, each doing what it does; its answer counts. */
  lemma {:induction false} ObservedInOrder(s: Sys, p: Proc, busy: set<MsgId>, hs: seq<HandlerId>, glances: Glances)
    requires Running(s, p, busy)
    ensures Observe(s, p, busy, hs, glances) == (Play(s, p, busy, Heard(hs, glances)), Answer(hs, glances))
    decreases glances
  {
    if hs != [] && glances.Glance? && glances.verdict == Proceed {
      PlayThen(s, p, busy, glances.script, Heard(hs[1..], glances.rest));
      ObservedInOrder(Play(s, p, busy, glances.script), p, busy, hs[1..], glances.rest);
    }
  }

  // ------------------------------------------------------------------ what the new owner does

  /** The message at the head of the wire is off it, and owned by the reader. */
  function Landed(s: Sys, a: Proc, b: Proc): (t: Sys)
    requires Arrives(s, a, b)
    ensures t.OwnedBy(s.Wire(a, b)[0], b) && b in t.procs
  {
    Adopt(s.(wires := s.wires[(a, b) := s.Wire(a, b)[1..]]), b, s.Wire(a, b)[0])
  }

  /** The new owner's observers have had their say. */
  ghost function Regarded(s: Sys, a: Proc, b: Proc, runs: Runs): (t: Sys)
    requires Arrives(s, a, b)
    ensures Running(t, b, {s.Wire(a, b)[0]})
  {
    var m := s.Wire(a, b)[0];
    Play(Landed(s, a, b), b, {m}, Heard(s.msgs[m].handlers, runs.first.glances))
  }

  /** The handler of the state with which the message arrived has been run to its end. */
  ghost function Performed(s: Sys, a: Proc, b: Proc, runs: Runs): (t: Sys)
    requires Arrives(s, a, b)
    ensures Running(t, b, {s.Wire(a, b)[0]})
  {
    var m := s.Wire(a, b)[0];
    var st := s.msgs[m].now;
    Play(Starts(Enter(Regarded(s, a, b, runs), m, st), m, st), b, {m}, runs.first.handler)
  }

  /** What the observers answer: the first answer that objects, if there is one. */
  function Judgement(s: Sys, a: Proc, b: Proc, runs: Runs): Verdict
    requires Arrives(s, a, b)
  {
    Answer(s.msgs[s.Wire(a, b)[0]].handlers, runs.first.glances)
  }

  /** The handler is back, and a message that has come to be destroyed is marked for that. */
  function HandlerBack(s: Sys, p: Proc, m: MsgId, st: State, msg: Msg): Sys
    requires p in s.procs
  {
    var t := Note(s, Returned(m, st, Some(p), msg.requester, msg.receiver));
    if st == Destruction then Mark(t, p, m) else t
  }

  /** The observers change neither whose the message is nor who owns it. */
  lemma RegardedBearings(s: Sys, a: Proc, b: Proc, runs: Runs)
    requires Orderly(s) && Arrives(s, a, b)
    ensures var m, t := s.Wire(a, b)[0], Regarded(s, a, b, runs);
      && s.log <= t.log && b == s.msgs[m].Home()
      && t.msgs[m].requester == s.msgs[m].requester && t.msgs[m].receiver == s.msgs[m].receiver
      && t.msgs[m].owner == Some(b)
  {
    var m, landed := s.Wire(a, b)[0], Landed(s, a, b);
    LandedGood(s, a, b);
    LandedBound(s, a, b);
    hide Good, Orderly;
    PlayGood(landed, b, {m}, Heard(s.msgs[m].handlers, runs.first.glances), s.msgs.Keys);
    hide Play;
  }

  lemma LandedGood(s: Sys, a: Proc, b: Proc)
    requires Orderly(s) && Arrives(s, a, b)
    ensures Good(Landed(s, a, b), s.msgs.Keys)
  {
    hide Good, Orderly, Fed, SidesKept, PlacedBut;
    var m, except := s.Wire(a, b)[0], s.msgs.Keys;
    OrderlyIsGood(s);
    DequeuePlacedBut(s, a, b, except);
    AdoptGood(s.(wires := s.wires[(a, b) := s.Wire(a, b)[1..]]), b, m, except);
    assert except + {m} == except;
  }

  lemma LandedBound(s: Sys, a: Proc, b: Proc)
    requires Orderly(s) && Arrives(s, a, b)
    ensures var m := s.Wire(a, b)[0];
      && Bound(Landed(s, a, b), b, m) && b == s.msgs[m].Home() && Landed(s, a, b).log == s.log
      && Landed(s, a, b).msgs[m] == s.msgs[m].(owner := Some(b))
  {
    assert WireKept(s, a, b);
  }

  /** One execution of the state a message is in already, its handler running here. */
  lemma ExecPerforms(s: Sys, p: Proc, m: MsgId, run: Run)
    requires p in s.procs && s.OwnedBy(m, p) && Answer(s.msgs[m].handlers, run.glances) == Proceed
    requires RunsHere(Play(s, p, {m}, Heard(s.msgs[m].handlers, run.glances)).msgs[m], p, s.msgs[m].now)
    ensures var st := s.msgs[m].now;
      var seen := Play(s, p, {m}, Heard(s.msgs[m].handlers, run.glances));
      var done := Play(Starts(Enter(seen, m, st), m, st), p, {m}, run.handler);
      var r := Exec(s, p, {}, m, st, run);
      && r.0 == HandlerBack(done, p, m, st, seen.msgs[m])
      && r.1 == if run.err then Failed else done.msgs[m].now
  {
    var st := s.msgs[m].now;
    assert {} + {m} == {m};
    ObservedInOrder(s, p, {m}, s.msgs[m].handlers, run.glances);
    var seen := Play(s, p, {m}, Heard(s.msgs[m].handlers, run.glances));
    var entered := Enter(seen, m, st);
    hide Observe, Play;
    assert RunHandler(entered, p, {}, m, st, run) == Note(Play(Starts(entered, m, st), p, {m}, run.handler),
        Returned(m, st, Some(p), seen.msgs[m].requester, seen.msgs[m].receiver));
  }

  lemma PopIsTakeOver(s: Sys, a: Proc, b: Proc, runs: Runs)
    requires Arrives(s, a, b)
    ensures var m, landed := s.Wire(a, b)[0], Landed(s, a, b);
      var (left, to) := Exec(landed, b, {}, m, s.msgs[m].now, runs.first);
      Pop(s, a, b, runs) == if to == left.msgs[m].now then left else Exec(left, b, {}, m, to, runs.second).0
  {
  }

  /**
   Unless an observer objects, the handler of the state with which a message arrives is run with the new owner, to its
   end; if it reports no error, what it leaves is all that is left.
   */
  lemma DeliveryRunsHandler(s: Sys, a: Proc, b: Proc, runs: Runs)
    requires Orderly(s) && Arrives(s, a, b) && Judgement(s, a, b, runs) == Proceed
    requires s.msgs[s.Wire(a, b)[0]].now != Initialized
    ensures var m := s.Wire(a, b)[0]; var msg := s.msgs[m];
      var seen, done, t := Regarded(s, a, b, runs), Performed(s, a, b, runs), Pop(s, a, b, runs);
      && s.log <= seen.log
      && seen.log + [Began(m, msg.now, Some(b), msg.requester, msg.receiver)] <= done.log
      && done.log + [Returned(m, msg.now, Some(b), msg.requester, msg.receiver)] <= t.log
      && (!runs.first.err ==> t == HandlerBack(done, b, m, msg.now, msg))
  {
    hide Orderly, Exec, Pop, Landed, Regarded, Performed, Starts, Judgement;
    PopIsTakeOver(s, a, b, runs);
    RegardedBearings(s, a, b, runs);
    ArrivalPerformed(s, a, b, runs);
    PerformedLogs(s, a, b, runs);
    SecondLogs(s, a, b, runs);
    BackLogs(Performed(s, a, b, runs), b, s.Wire(a, b)[0], s.msgs[s.Wire(a, b)[0]]);
  }

  lemma BackLogs(s: Sys, p: Proc, m: MsgId, msg: Msg)
    requires p in s.procs
    ensures HandlerBack(s, p, m, msg.now, msg).log ==
      s.log + [Returned(m, msg.now, Some(p), msg.requester, msg.receiver)]
    ensures HandlerBack(s, p, m, msg.now, msg).msgs == s.msgs
  {
  }

  /** The first execution after a delivery. */
  lemma ArrivalPerformed(s: Sys, a: Proc, b: Proc, runs: Runs)
    requires Orderly(s) && Arrives(s, a, b) && Judgement(s, a, b, runs) == Proceed
    requires s.msgs[s.Wire(a, b)[0]].now != Initialized
    ensures var m := s.Wire(a, b)[0]; var msg := s.msgs[m];
      var r := Exec(Landed(s, a, b), b, {}, m, msg.now, runs.first);
      && r.0 == HandlerBack(Performed(s, a, b, runs), b, m, msg.now, msg)
      && r.1 == if runs.first.err then Failed else Performed(s, a, b, runs).msgs[m].now
  {
    hide Orderly, Play, Exec, Landed, Starts, Enter, Answer, Heard;
    RegardedBearings(s, a, b, runs);
    LandedRecord(s, a, b);
    ExecPerforms(Landed(s, a, b), b, s.Wire(a, b)[0], runs.first);
  }

  lemma LandedRecord(s: Sys, a: Proc, b: Proc)
    requires Arrives(s, a, b)
    ensures var m := s.Wire(a, b)[0]; Landed(s, a, b).msgs[m] == s.msgs[m].(owner := Some(b))
  {
  }

  /** Whatever a second execution adds, the log only grows. */
  lemma SecondLogs(s: Sys, a: Proc, b: Proc, runs: Runs)
    requires Orderly(s) && Arrives(s, a, b)
    ensures var m := s.Wire(a, b)[0];
      Exec(Landed(s, a, b), b, {}, m, s.msgs[m].now, runs.first).0.log <= Pop(s, a, b, runs).log
  {
    var m, landed := s.Wire(a, b)[0], Landed(s, a, b);
    hide Orderly, Good, Exec, Pop;
    PopIsTakeOver(s, a, b, runs);
    LandedGood(s, a, b);
    var (left, to) := Exec(landed, b, {}, m, s.msgs[m].now, runs.first);
    ExecGood(landed, b, {}, m, s.msgs[m].now, runs.first, s.msgs.Keys);
    if to != left.msgs[m].now {
      ExecGood(left, b, {}, m, to, runs.second, s.msgs.Keys);
    }
  }

  lemma PerformedLogs(s: Sys, a: Proc, b: Proc, runs: Runs)
    requires Orderly(s) && Arrives(s, a, b) && s.msgs[s.Wire(a, b)[0]].now != Initialized
    ensures var m := s.Wire(a, b)[0]; var msg := s.msgs[m];
      Regarded(s, a, b, runs).log + [Began(m, msg.now, Some(b), msg.requester, msg.receiver)]
        <= Performed(s, a, b, runs).log
  {
    hide Orderly, Good, Evolves, Play, Regarded;
    var m := s.Wire(a, b)[0];
    var begun := Starts(Enter(Regarded(s, a, b, runs), m, s.msgs[m].now), m, s.msgs[m].now);
    RegardedBearings(s, a, b, runs);
    BegunGood(s, a, b, runs);
    PlayGood(begun, b, {m}, runs.first.handler, s.msgs.Keys);
    EvolvesLog(begun, Performed(s, a, b, runs), b);
  }

  lemma RegardedGood(s: Sys, a: Proc, b: Proc, runs: Runs)
    requires Orderly(s) && Arrives(s, a, b)
    ensures Good(Regarded(s, a, b, runs), s.msgs.Keys)
  {
    hide Orderly, Good, Evolves, Play;
    var m := s.Wire(a, b)[0];
    LandedGood(s, a, b);
    PlayGood(Landed(s, a, b), b, {m}, Heard(s.msgs[m].handlers, runs.first.glances), s.msgs.Keys);
  }

  lemma BegunGood(s: Sys, a: Proc, b: Proc, runs: Runs)
    requires Orderly(s) && Arrives(s, a, b)
    ensures var m := s.Wire(a, b)[0];
      Good(Starts(Enter(Regarded(s, a, b, runs), m, s.msgs[m].now), m, s.msgs[m].now), s.msgs.Keys)
  {
    hide Orderly, Good, Evolves, Regarded;
    var m, seen, except := s.Wire(a, b)[0], Regarded(s, a, b, runs), s.msgs.Keys;
    var st := s.msgs[m].now;
    var entered := Enter(seen, m, st);
    RegardedBearings(s, a, b, runs);
    RegardedGood(s, a, b, runs);
    PutGood(seen, b, m, entered.msgs[m], except);
    assert except + {m} == except;
    NoteGood(entered, b, Began(m, st, Some(b), s.msgs[m].requester, s.msgs[m].receiver), except);
  }

  lemma EvolvesLog(s: Sys, t: Sys, p: Proc)
    requires Evolves(s, t, p)
    ensures s.log <= t.log
  {
  }

  lemma FailedGoesHome(s: Sys, a: Proc, b: Proc, runs: Runs)
    requires Good(s, {}) && Arrives(s, a, b)
    requires var m, t := s.Wire(a, b)[0], Pop(s, a, b, runs); m in t.msgs && t.msgs[m].now == Failed
    ensures var m, t := s.Wire(a, b)[0], Pop(s, a, b, runs);
      b != s.msgs[m].requester ==> b in t.procs && m in t.procs[b].marked
  {
    hide Good, Pop;
    var m, t := s.Wire(a, b)[0], Pop(s, a, b, runs);
    if b != s.msgs[m].requester {
      StillBound(s, a, b, runs);
      HomeComingGood(s, a, b, runs);
      RestlessIsMarked(t, b, m);
    }
  }

  /** Whatever happens on arrival, the message stays with the reader, and with its requester and receiver. */
  lemma StillBound(s: Sys, a: Proc, b: Proc, runs: Runs)
    requires Good(s, {}) && Arrives(s, a, b)
    ensures var m, t := s.Wire(a, b)[0], Pop(s, a, b, runs);
      && b == s.msgs[m].Home() && b in t.procs && t.OwnedBy(m, b)
      && t.msgs[m].requester == s.msgs[m].requester && t.msgs[m].receiver == s.msgs[m].receiver
  {
    hide Good, Orderly, Fed, SidesKept, PlacedBut, TakeOver;
    var m := s.Wire(a, b)[0];
    GoodIsOrderly(s, {});
    LandedBound(s, a, b);
    DequeuePlacedBut(s, a, b, {});
    TakeOverGood(s.(wires := s.wires[(a, b) := s.Wire(a, b)[1..]]), b, m, runs, {});
    BoundStays(Landed(s, a, b), Pop(s, a, b, runs), b, m);
  }

  lemma BoundStays(s: Sys, t: Sys, p: Proc, m: MsgId)
    requires Evolves(s, t, p) && Bound(s, p, m)
    ensures p in t.procs && t.OwnedBy(m, p)
    ensures t.msgs[m].requester == s.msgs[m].requester && t.msgs[m].receiver == s.msgs[m].receiver
  {
  }

  lemma RestlessIsMarked(s: Sys, p: Proc, m: MsgId)
    requires Good(s, {}) && p in s.procs && s.OwnedBy(m, p) && Restless(s.msgs[m], p)
    ensures m in s.procs[p].marked
  {
  }

  /** An error that the handler reports ends in FAILED, and takes a message that has crossed home again. */
  lemma DeliveredErrorFails(s: Sys, a: Proc, b: Proc, runs: Runs)
    requires Good(s, {}) && Arrives(s, a, b) && Judgement(s, a, b, runs) == Proceed
    requires s.msgs[s.Wire(a, b)[0]].now != Initialized && runs.first.err
    requires Spares(runs.second.handler, s.Wire(a, b)[0])
    requires var m := s.Wire(a, b)[0];
      Answer(Performed(s, a, b, runs).msgs[m].handlers, runs.second.glances) != DontChange
    ensures var m, t := s.Wire(a, b)[0], Pop(s, a, b, runs);
      && m in t.msgs && t.msgs[m].now == Failed
      && (b != s.msgs[m].requester ==> b in t.procs && m in t.procs[b].marked)
  {
    hide Good, Orderly, Exec, Pop, Observe, Landed, Performed, HandlerBack, Spares, Judgement;
    var m := s.Wire(a, b)[0];
    GoodIsOrderly(s, {});
    PopIsTakeOver(s, a, b, runs);
    ArrivalPerformed(s, a, b, runs);
    BackLogs(Performed(s, a, b, runs), b, m, s.msgs[m]);
    var left := Exec(Landed(s, a, b), b, {}, m, s.msgs[m].now, runs.first).0;
    if left.msgs[m].now != Failed {
      assert {} + {m} == {m};
      ObservedInOrder(left, b, {m}, left.msgs[m].handlers, runs.second.glances);
      FailedExec(left, b, {}, m, Failed, runs.second);
    }
    FailedGoesHome(s, a, b, runs);
  }

  /** An observer's error keeps the handler from running, and ends in FAILED as well. */
  lemma DeliveryFailedByObserver(s: Sys, a: Proc, b: Proc, runs: Runs)
    requires Good(s, {}) && Arrives(s, a, b) && Judgement(s, a, b, runs) == ErrorOccurred
    requires Spares(runs.first.handler, s.Wire(a, b)[0])
    ensures var m, t := s.Wire(a, b)[0], Pop(s, a, b, runs);
      && m in t.msgs && t.msgs[m].now == Failed
      && (b != s.msgs[m].requester ==> b in t.procs && m in t.procs[b].marked)
  {
    hide Good, Play, Exec, Pop, Observe, Landed, Spares;
    var m := s.Wire(a, b)[0];
    PopIsTakeOver(s, a, b, runs);
    LandedRecord(s, a, b);
    assert {} + {m} == {m};
    ObservedInOrder(Landed(s, a, b), b, {m}, s.msgs[m].handlers, runs.first.glances);
    FailedExec(Landed(s, a, b), b, {}, m, s.msgs[m].now, runs.first);
    FailedGoesHome(s, a, b, runs);
  }

  /** A veto leaves what the observers leave. */
  lemma DeliveryVetoed(s: Sys, a: Proc, b: Proc, runs: Runs)
    requires Arrives(s, a, b) && Judgement(s, a, b, runs) == DontChange
    ensures Pop(s, a, b, runs) == Regarded(s, a, b, runs)
  {
    var m := s.Wire(a, b)[0];
    LandedRecord(s, a, b);
    assert {} + {m} == {m};
    ObservedInOrder(Landed(s, a, b), b, {m}, s.msgs[m].handlers, runs.first.glances);
    hide Play, Observe;
  }
}
