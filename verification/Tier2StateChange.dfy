/**
 What `state()` answers, and which of the states a handler goes through is the one that stays.
 */
module Tier2StateChange {
  import opened MessageStates
  import opened Tier2Protocol

  // ------------------------------------------------------------------ code that leaves a message's state alone

  /** No `state()` call on `m`, at any depth of re-entry. */
  predicate Spares(script: Script, m: MsgId) {
    script.End? || (SparesAct(script.act, m) && Spares(script.next, m))
  }

  predicate SparesAct(act: Act, m: MsgId) {
    act.Call? ==> act.target != m && SparesRun(act.runs.first, m) && SparesRun(act.runs.second, m)
  }

  predicate SparesRun(run: Run, m: MsgId) {
    SparesGlances(run.glances, m) && Spares(run.handler, m)
  }

  predicate SparesGlances(glances: Glances, m: MsgId) {
    glances.NoMore? || (Spares(glances.script, m) && SparesGlances(glances.rest, m))
  }

  ghost predicate SameState(s: Sys, t: Sys, m: MsgId) {
    m in s.msgs && m in t.msgs && t.msgs[m].now == s.msgs[m].now && t.msgs[m].prev == s.msgs[m].prev
  }

  /** The state in which the handler of `st` starts. */
  function Starts(s: Sys, m: MsgId, st: State): Sys
    requires m in s.msgs
  {
    Note(s, Began(m, st, s.msgs[m].owner, s.msgs[m].requester, s.msgs[m].receiver))
  }

  lemma {:induction false} PlaySpares(s: Sys, p: Proc, busy: set<MsgId>, script: Script, m: MsgId)
    requires Running(s, p, busy) && m in busy && Spares(script, m)
    ensures SameState(s, Play(s, p, busy, script), m)
    decreases script
  {
    match script
    case End =>
    case Do(act, next) =>
      PerformSpares(s, p, busy, act, m);
      PlaySpares(Perform(s, p, busy, act), p, busy, next, m);
  }

  lemma {:induction false} PerformSpares(s: Sys, p: Proc, busy: set<MsgId>, act: Act, m: MsgId)
    requires Running(s, p, busy) && m in busy && SparesAct(act, m)
    ensures SameState(s, Perform(s, p, busy, act), m)
    decreases act
  {
    assert s.OwnedBy(m, p);
    if act.Call? && s.OwnedBy(act.target, p) {
      SetStateSpares(s, p, busy, act.target, act.to, act.runs, m);
    }
  }

  lemma {:induction false} SetStateSpares(s: Sys, p: Proc, busy: set<MsgId>, k: MsgId, to: State, runs: Runs, m: MsgId)
    requires Running(s, p, busy) && s.OwnedBy(k, p) && m in busy && k != m
    requires SparesRun(runs.first, m) && SparesRun(runs.second, m)
    ensures SameState(s, SetState(s, p, busy, k, to, runs).0, m)
    decreases runs
  {
    assert s.OwnedBy(m, p);
    if to != s.msgs[k].now {
      var first := Exec(s, p, busy, k, to, runs.first);
      ExecSpares(s, p, busy, k, to, runs.first, m);
      if first.1 != first.0.msgs[k].now {
        ExecSpares(first.0, p, busy, k, first.1, runs.second, m);
      }
    }
  }

  lemma {:induction false} ExecSpares(s: Sys, p: Proc, busy: set<MsgId>, k: MsgId, to: State, run: Run, m: MsgId)
    requires Running(s, p, busy) && s.OwnedBy(k, p) && m in busy && k != m && SparesRun(run, m)
    ensures SameState(s, Exec(s, p, busy, k, to, run).0, m)
    decreases run, 1
  {
    hide Observe, Handle, Spares;
    var seen := Observe(s, p, busy + {k}, s.msgs[k].handlers, run.glances);
    ObserveSpares(s, p, busy + {k}, s.msgs[k].handlers, run.glances, m);
    if seen.1 != DontChange {
      var st := if seen.1 == ErrorOccurred then Failed else to;
      var entered := Enter(seen.0, k, st);
      HandleSpares(entered, p, busy, k, st, run, m);
    }
  }

  lemma {:induction false} HandleSpares(s: Sys, p: Proc, busy: set<MsgId>, k: MsgId, st: State, run: Run, m: MsgId)
    requires Running(s, p, busy) && s.OwnedBy(k, p) && m in busy && k != m && SparesRun(run, m)
    ensures SameState(s, Handle(s, p, busy, k, st, run), m)
    decreases run, 0
  {
    assert s.OwnedBy(m, p);
    if RunsHere(s.msgs[k], p, st) {
      PlaySpares(Starts(s, k, st), p, busy + {k}, run.handler, m);
      assert SameState(s, RunHandler(s, p, busy, k, st, run), m);
    }
  }

  lemma {:induction false} ObserveSpares(
    s: Sys, p: Proc, busy: set<MsgId>, hs: seq<HandlerId>, glances: Glances, m: MsgId)
    requires Running(s, p, busy) && m in busy && SparesGlances(glances, m)
    ensures SameState(s, Observe(s, p, busy, hs, glances).0, m)
    decreases glances
  {
    assert s.OwnedBy(m, p);
    if hs != [] && glances.Glance? {
      PlaySpares(s, p, busy, glances.script, m);
      if glances.verdict == Proceed {
        ObserveSpares(Play(s, p, busy, glances.script), p, busy, hs[1..], glances.rest, m);
      }
    }
  }

  // ------------------------------------------------------------------ the last call stands

  function Then(script: Script, next: Script): Script {
    if script.End? then next else Do(script.act, Then(script.next, next))
  }

  lemma {:induction false} PlayThen(s: Sys, p: Proc, busy: set<MsgId>, script: Script, next: Script)
    requires Running(s, p, busy)
    ensures Play(s, p, busy, Then(script, next)) == Play(Play(s, p, busy, script), p, busy, next)
    decreases script
  {
    if script.Do? {
      PlayThen(Perform(s, p, busy, script.act), p, busy, script.next, next);
    }
  }

  /** The change is let through, and its handler runs on this side. */
  ghost predicate Handled(s: Sys, p: Proc, busy: set<MsgId>, m: MsgId, to: State, run: Run)
    requires Running(s, p, busy) && s.OwnedBy(m, p)
  {
    var seen := Observe(s, p, busy + {m}, s.msgs[m].handlers, run.glances);
    seen.1 == Proceed && RunsHere(seen.0.msgs[m], p, to)
  }

  /** Where its handler starts. */
  ghost function HandlerStart(s: Sys, p: Proc, busy: set<MsgId>, m: MsgId, to: State, run: Run): (r: Sys)
    requires Running(s, p, busy) && s.OwnedBy(m, p)
    ensures Running(r, p, busy + {m})
  {
    Starts(Enter(Observe(s, p, busy + {m}, s.msgs[m].handlers, run.glances).0, m, to), m, to)
  }

  lemma HandledExec(s: Sys, p: Proc, busy: set<MsgId>, m: MsgId, to: State, run: Run)
    requires Running(s, p, busy) && s.OwnedBy(m, p) && Handled(s, p, busy, m, to, run) && !run.err
    ensures var left := Play(HandlerStart(s, p, busy, m, to, run), p, busy + {m}, run.handler);
      var r := Exec(s, p, busy, m, to, run);
      r.0.msgs[m] == left.msgs[m] && r.1 == left.msgs[m].now
  {
    var entered := Enter(Observe(s, p, busy + {m}, s.msgs[m].handlers, run.glances).0, m, to);
    assert Exec(s, p, busy, m, to, run).0 == Handle(entered, p, busy, m, to, run);
    assert RunHandler(entered, p, busy, m, to, run).msgs
        == Play(Starts(entered, m, to), p, busy + {m}, run.handler).msgs;
  }

  /**
    Whatever the handler does first, the state reached by its last `state()` call on the message is the one that stays.
   */
  lemma LastCallStands(s: Sys, p: Proc, busy: set<MsgId>, m: MsgId, to: State, runs: Runs,
                       before: Script, last: State, inner: Runs, afterwards: Script)
    requires Running(s, p, busy) && s.OwnedBy(m, p) && to != s.msgs[m].now
    requires Handled(s, p, busy, m, to, runs.first) && !runs.first.err
    requires runs.first.handler == Then(before, Do(Call(m, last, inner), afterwards)) && Spares(afterwards, m)
    ensures var done := Play(HandlerStart(s, p, busy, m, to, runs.first), p, busy + {m}, before);
      var reached := SetState(done, p, busy + {m}, m, last, inner).0;
      var r := SetState(s, p, busy, m, to, runs);
      r.0.msgs[m].now == r.1 == reached.msgs[m].now
  {
    var start := HandlerStart(s, p, busy, m, to, runs.first);
    var done := Play(start, p, busy + {m}, before);
    assert done.OwnedBy(m, p);
    HandledExec(s, p, busy, m, to, runs.first);
    PlayThen(start, p, busy + {m}, before, Do(Call(m, last, inner), afterwards));
    var reached := SetState(done, p, busy + {m}, m, last, inner).0;
    assert Perform(done, p, busy + {m}, Call(m, last, inner)) == reached;
    PlaySpares(reached, p, busy + {m}, afterwards, m);
  }

  /**
   A handler that leaves the message's state alone leaves the state asked for; and where that is the state there is,
   nobody is asked and nothing changes.
   */
  lemma StateAskedForStands(s: Sys, p: Proc, busy: set<MsgId>, m: MsgId, to: State, runs: Runs)
    requires Running(s, p, busy) && s.OwnedBy(m, p)
    requires to != s.msgs[m].now ==>
      Handled(s, p, busy, m, to, runs.first) && !runs.first.err && Spares(runs.first.handler, m)
    ensures var r := SetState(s, p, busy, m, to, runs);
      r.0.msgs[m].now == r.1 == to && (to == s.msgs[m].now ==> r.0 == s)
  {
    if to != s.msgs[m].now {
      HandledExec(s, p, busy, m, to, runs.first);
      PlaySpares(HandlerStart(s, p, busy, m, to, runs.first), p, busy + {m}, runs.first.handler, m);
    }
  }

  /** A handler that reports an error, like one that does not, leaves what its nested calls have left. */
  lemma ErringExec(s: Sys, p: Proc, busy: set<MsgId>, m: MsgId, to: State, run: Run)
    requires Running(s, p, busy) && s.OwnedBy(m, p) && Handled(s, p, busy, m, to, run) && run.err
    ensures Exec(s, p, busy, m, to, run).1 == Failed
  {
  }

  /** Executing FAILED, or any state that an observer fails, ends in FAILED: whatever its handler reports. */
  lemma FailedExec(s: Sys, p: Proc, busy: set<MsgId>, m: MsgId, to: State, run: Run)
    requires Running(s, p, busy) && s.OwnedBy(m, p) && Spares(run.handler, m)
    requires var verdict := Observe(s, p, busy + {m}, s.msgs[m].handlers, run.glances).1;
      verdict == ErrorOccurred || (to == Failed && verdict == Proceed)
    ensures var r := Exec(s, p, busy, m, to, run); r.0.msgs[m].now == r.1 == Failed
  {
    var entered := Enter(Observe(s, p, busy + {m}, s.msgs[m].handlers, run.glances).0, m, Failed);
    if RunsHere(entered.msgs[m], p, Failed) {
      PlaySpares(Starts(entered, m, Failed), p, busy + {m}, run.handler, m);
      assert SameState(entered, RunHandler(entered, p, busy, m, Failed, run), m);
    }
  }

  /**
   An error that a handler reports ends in FAILED, whatever state its nested calls had reached, if no observer vetoes
   that and the handler of FAILED leaves it at that; an error that this one reports changes nothing.
   */
  lemma ErrorEndsInFailure(s: Sys, p: Proc, busy: set<MsgId>, m: MsgId, to: State, runs: Runs)
    requires Running(s, p, busy) && s.OwnedBy(m, p) && to != s.msgs[m].now
    requires Handled(s, p, busy, m, to, runs.first) && runs.first.err && Spares(runs.second.handler, m)
    requires var left := Exec(s, p, busy, m, to, runs.first).0;
      Observe(left, p, busy + {m}, left.msgs[m].handlers, runs.second.glances).1 != DontChange
    ensures var r := SetState(s, p, busy, m, to, runs); r.0.msgs[m].now == r.1 == Failed
  {
    ErringExec(s, p, busy, m, to, runs.first);
    var left := Exec(s, p, busy, m, to, runs.first).0;
    if left.msgs[m].now != Failed {
      FailedExec(left, p, busy, m, Failed, runs.second);
    }
  }
}
