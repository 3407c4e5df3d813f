// What must have happened before, and what must be possible after, in terms of the
// steps of a run alone: a check has a tick of its own behind it, a call that gives up
// has been cancelled, a worker that takes CmdStop does nothing more.
module Causes {
  import opened Wrappers
  import opened Session
  import opened Safety

  // How often a step occurs in a run.
  function Times(ls: seq<Label>, l: Label): nat {
    if ls == [] then 0 else (if ls[0] == l then 1 else 0) + Times(ls[1..], l)
  }

  // ---- Ticks -----------------------------------------------------------------

  function Pending(s: State, w: nat): nat
    requires w < |s.workers|
  {
    if s.workers[w].tick then 1 else 0
  }

  lemma StepUsesTick(s: State, l: Label, w: nat)
    requires Enabled(s, l) && w < |s.workers|
    ensures Pending(Apply(s, l), w) + (if l == Work(w, StartCheck) then 1 else 0)
              <= Pending(s, w) + (if l == Work(w, Tick) then 1 else 0)
  {
    hide PhaseAfter;
    if l.Call? {
      CallFrameWorkers(s, l.c, l.call);
    } else if l.Work? {
      WorkFrame(s, l.w, l.act);
    }
  }

  lemma {:induction false} RunUsesTicks(s: State, ls: seq<Label>, w: nat)
    requires CanRun(s, ls) && w < |s.workers|
    ensures Times(ls, Work(w, StartCheck)) + Pending(Exec(s, ls), w) <= Times(ls, Work(w, Tick)) + Pending(s, w)
    decreases |ls|
  {
    if ls != [] {
      StepUsesTick(s, ls[0], w);
      RunUsesTicks(Apply(s, ls[0]), ls[1..], w);
    }
  }

  // A worker, light or exclusive, never starts more periodic checks than its ticker
  // has ticked.
  lemma ChecksNeedTicks(s: State, ls: seq<Label>, w: nat)
    requires Restarted(s) && CanRun(s, ls) && w < |s.workers|
    ensures Times(ls, Work(w, StartCheck)) <= Times(ls, Work(w, Tick))
  {
    assert StartWorker(s.workers[w], s.probes[w].exclusive);
    RunUsesTicks(s, ls, w);
  }

  lemma {:induction false} Occurs(ls: seq<Label>, l: Label)
    ensures Times(ls, l) > 0 <==> l in ls
  {
    if ls != [] {
      Occurs(ls[1..], l);
    }
  }

  lemma {:induction false} TimesSnoc(ls: seq<Label>, k: Label, l: Label)
    ensures Times(ls + [k], l) == Times(ls, l) + if k == l then 1 else 0
  {
    if ls == [] {
      assert ls + [k] == [k] && [k][1..] == [];
    } else {
      assert (ls + [k])[1..] == ls[1..] + [k];
      TimesSnoc(ls[1..], k, l);
    }
  }

  // In every run there is a tick of its own between any two periodic checks of a worker.
  lemma TickBetweenChecks(s: State, before: seq<Label>, between: seq<Label>, w: nat)
    requires w < |s.workers|
    requires CanRun(s, before + ([Work(w, StartCheck)] + (between + [Work(w, StartCheck)])))
    ensures Work(w, Tick) in between
  {
    var start := Work(w, StartCheck);
    RunSplit(s, before, [start] + (between + [start]));
    var t := Exec(s, before);
    var rest := between + [start];
    assert ([start] + rest)[1..] == rest;
    var u := Apply(t, start);
    assert Pending(u, w) == 0 by {
      StepUsesTick(t, start, w);
    }
    RunUsesTicks(u, rest, w);
    TimesSnoc(between, start, start);
    TimesSnoc(between, start, Work(w, Tick));
    Occurs(between, Work(w, Tick));
  }

  // The goroutine of the worker has started and a tick is pending.
  predicate TickWaits(s: State, w: nat) {
    w < |s.workers| && s.workers[w].tick && s.workers[w].phase != NotStarted
  }

  lemma StepKeepsTick(s: State, l: Label, w: nat)
    requires TickWaits(s, w) && Enabled(s, l) && l != Work(w, StartCheck)
    ensures TickWaits(Apply(s, l), w)
  {
    hide PhaseAfter;
    if l.Call? {
      CallFrameWorkers(s, l.c, l.call);
    } else if l.Work? {
      WorkFrame(s, l.w, l.act);
    }
  }

  lemma {:induction false} RunKeepsTick(s: State, ls: seq<Label>, w: nat)
    requires TickWaits(s, w) && CanRun(s, ls) && Work(w, StartCheck) !in ls
    ensures TickWaits(Exec(s, ls), w)
    decreases |ls|
  {
    if ls != [] {
      assert ls[0] in ls;
      StepKeepsTick(s, ls[0], w);
      RunKeepsTick(Apply(s, ls[0]), ls[1..], w);
    }
  }

  // No tick is forgotten: until it is used, a check can be started whenever the worker
  // is in its select loop.
  lemma TickIsKept(s: State, ls: seq<Label>, w: nat)
    requires w < |s.workers| && CanRun(s, [Work(w, Tick)] + ls) && Work(w, StartCheck) !in ls
    ensures var t := Exec(s, [Work(w, Tick)] + ls);
            t.workers[w].phase == Selecting && t.callers[w].phase == Idle ==> Enabled(t, Work(w, StartCheck))
  {
    assert ([Work(w, Tick)] + ls)[1..] == ls;
    RunKeepsTick(Apply(s, Work(w, Tick)), ls, w);
  }

  // ---- Cancellation ------------------------------------------------------------

  // The context an outside caller has passed has not been cancelled.
  predicate Uncancelled(s: State, c: nat) {
    |s.workers| <= c < |s.callers| && !s.callers[c].ctxDone
  }

  lemma StepKeepsContext(s: State, l: Label, c: nat)
    requires |s.workers| <= c < |s.callers| && Enabled(s, l)
    ensures l == Call(c, Request) ==> Uncancelled(Apply(s, l), c)
    ensures l == CancelCall(c) ==> !Uncancelled(Apply(s, l), c)
    ensures l != Call(c, Request) && l != CancelCall(c) ==> (Uncancelled(Apply(s, l), c) <==> Uncancelled(s, c))
  {
    hide PhaseAfter, TargetAfter, WorkerAfter;
  }

  lemma {:induction false} RunKeepsContext(s: State, ls: seq<Label>, c: nat)
    requires |s.workers| <= c < |s.callers| && CanRun(s, ls) && Call(c, Request) !in ls
    ensures Uncancelled(Exec(s, ls), c) <==> Uncancelled(s, c) && CancelCall(c) !in ls
    decreases |ls|
  {
    if ls != [] {
      assert ls[0] in ls;
      StepKeepsContext(s, ls[0], c);
      RunKeepsContext(Apply(s, ls[0]), ls[1..], c);
      assert CancelCall(c) in ls <==> ls[0] == CancelCall(c) || CancelCall(c) in ls[1..];
    }
  }

  // Each call of an outside caller has a context of its own: the call gives up only
  // if that has been cancelled since the call began.
  lemma GiveUpNeedsCancel(s: State, before: seq<Label>, ls: seq<Label>, c: nat)
    requires |s.workers| <= c < |s.callers| && Call(c, Request) !in ls
    requires CanRun(s, before + ([Call(c, Request)] + (ls + [Call(c, AbortPause)])))
    ensures CancelCall(c) in ls
  {
    var request, abort := Call(c, Request), Call(c, AbortPause);
    RunSplit(s, before, [request] + (ls + [abort]));
    var t := Exec(s, before);
    assert ([request] + (ls + [abort]))[1..] == ls + [abort];
    var u := Apply(t, request);
    StepKeepsContext(t, request, c);
    RunSplit(u, ls, [abort]);
    RunKeepsContext(u, ls, c);
    assert Enabled(Exec(u, ls), abort);
  }

  // And once it has been cancelled, the call can give up at any handle of a pause.
  lemma CancelIsHeard(s: State, ls: seq<Label>, c: nat)
    requires |s.workers| <= c < |s.callers| && CanRun(s, [CancelCall(c)] + ls) && Call(c, Request) !in ls
    ensures var t := Exec(s, [CancelCall(c)] + ls);
            InLoop(t, c) && !t.callers[c].phase.Resuming? ==> CallEnabled(t, c, AbortPause)
  {
    assert ([CancelCall(c)] + ls)[1..] == ls;
    RunKeepsContext(Apply(s, CancelCall(c)), ls, c);
  }

  // ---- Commands ----------------------------------------------------------------

  lemma StepKeepsExited(s: State, l: Label, w: nat)
    requires Base(s) && w < |s.workers| && s.workers[w].phase == Exited && Enabled(s, l)
    ensures Apply(s, l).workers[w].phase == Exited && !(l.Work? && l.w == w)
  {
    hide PhaseAfter;
    assert s.callers[w].phase == Idle;
    if l.Call? {
      CallFrameWorkers(s, l.c, l.call);
    } else if l.Work? {
      WorkFrame(s, l.w, l.act);
    }
  }

  lemma {:induction false} ExitedTakesNoStep(s: State, ls: seq<Label>, w: nat)
    requires Base(s) && w < |s.workers| && s.workers[w].phase == Exited && CanRun(s, ls)
    ensures forall l :: l in ls ==> !(l.Work? && l.w == w)
    decreases |ls|
  {
    if ls != [] {
      StepKeepsExited(s, ls[0], w);
      StepKeepsWf(s, ls[0]);
      ExitedTakesNoStep(Apply(s, ls[0]), ls[1..], w);
    }
  }

  // CmdStop, which the scheduler never sends, ends a worker wherever it takes it, in
  // its main loop or in its pause loop, light or exclusive.
  lemma StopEndsWorker(s: State, ls: seq<Label>, w: nat)
    requires Base(s) && w < |s.workers| && Stop in s.workers[w].cmd
    requires CanRun(s, [Work(w, TakeCommand)] + ls)
    ensures forall l :: l in ls ==> !(l.Work? && l.w == w)
  {
    assert FitsCapacity(s.workers[w]) && s.workers[w].cmd[0] == Stop;
    assert ([Work(w, TakeCommand)] + ls)[1..] == ls;
    StepKeepsWf(s, Work(w, TakeCommand));
    ExitedTakesNoStep(Apply(s, Work(w, TakeCommand)), ls, w);
  }

  // An exclusive worker stays in its select loop on any other command, and
  // acknowledges nothing.
  lemma ExclusiveIgnoresCommands(s: State, w: nat)
    requires WorkEnabled(s, w, TakeCommand) && s.probes[w].exclusive && s.workers[w].phase == Selecting
    requires s.workers[w].cmd == [Pause] || s.workers[w].cmd == [Resume]
    ensures var x := WorkApply(s, w, TakeCommand).workers[w];
            && x.phase == Selecting && x.ack == s.workers[w].ack && x.cmd == []
            && !WorkEnabled(WorkApply(s, w, TakeCommand), w, PushAck)
  {
  }

  // ---- Flags and the lock --------------------------------------------------------

  // `paused` after a run: what its last completed pause, completed resume or stop made it.
  function LastPause(ls: seq<Label>, paused: bool): bool {
    if ls == [] then paused
    else
      LastPause(ls[1..],
        match ls[0]
        case Call(_, CommitPause) => true
        case Call(_, CommitResume) => false
        case StopRun => false
        case _ => paused)
  }

  // The holder of exclusiveMu after a run.
  function LastLock(ls: seq<Label>, owner: Option<nat>): Option<nat> {
    if ls == [] then owner
    else
      LastLock(ls[1..],
        match ls[0]
        case Call(c, Lock) => Some(c)
        case Call(_, Unlock) => None
        case _ => owner)
  }

  // Only Stop ends a session, only Stop and the run context's own cancellation cancel
  // it, and a cancelled session that has not been stopped keeps its flags.
  lemma {:induction false} FlagsExact(s: State, ls: seq<Label>)
    requires CanRun(s, ls)
    ensures Exec(s, ls).running <==> s.running && StopRun !in ls
    ensures Exec(s, ls).cancelled <==> s.cancelled || CancelRun in ls || StopRun in ls
    ensures Exec(s, ls).paused <==> LastPause(ls, s.paused)
    ensures Exec(s, ls).owner == LastLock(ls, s.owner)
    decreases |ls|
  {
    if ls != [] {
      FlagsStep(s, ls[0]);
      FlagsExact(Apply(s, ls[0]), ls[1..]);
      assert ls == [ls[0]] + ls[1..];
    }
  }

  lemma FlagsStep(s: State, l: Label)
    requires Enabled(s, l)
    ensures Apply(s, l).running <==> s.running && l != StopRun
    ensures Apply(s, l).cancelled <==> s.cancelled || l == CancelRun || l == StopRun
    ensures Apply(s, l).paused <==> LastPause([l], s.paused)
    ensures Apply(s, l).owner == LastLock([l], s.owner)
  {
    hide PhaseAfter, TargetAfter, WorkerAfter;
    assert [l][1..] == [];
    match l
    case Call(c, a) => CallFrameFlags(s, c, a);
    case Work(w, a) => WorkFrame(s, w, a);
    case _ =>
  }
}
