// Stop: once the run context is cancelled, every worker goroutine can come to
// its exit within a bounded number of steps, so wg.Wait returns.
module Drain {
  import opened Wrappers
  import opened Session
  import opened Safety
  import opened Progress

  predicate Drained(s: State) {
    forall w :: 0 <= w < |s.workers| ==> s.workers[w].phase == Exited
  }

  // ---- The measure ---------------------------------------------------------

  function CallersLeft(cs: seq<Caller>, n: nat): int {
    if cs == [] then 0 else CallersLeft(cs[..|cs| - 1], n) + CallLeft(cs[|cs| - 1].phase, n)
  }

  lemma {:induction false} CallersLeftUpdate(cs: seq<Caller>, n: nat, c: nat, x: Caller)
    requires c < |cs|
    ensures CallersLeft(cs[c := x], n) == CallersLeft(cs, n) - CallLeft(cs[c].phase, n) + CallLeft(x.phase, n)
  {
    var k := |cs| - 1;
    if c == k {
      assert cs[c := x][..k] == cs[..k];
    } else {
      assert cs[c := x][..k] == cs[..k][c := x];
      CallersLeftUpdate(cs[..k], n, c, x);
    }
  }

  lemma OneMore(k: nat, cost: nat)
    ensures k * cost + cost == (k + 1) * cost
  {
  }

  lemma {:induction false} CallersLeftBounds(cs: seq<Caller>, n: nat, cost: nat)
    requires forall c :: 0 <= c < |cs| ==> LoopIndex(cs[c].phase) <= n
    requires 6 * n + 8 <= cost
    ensures 0 <= CallersLeft(cs, n) <= |cs| * cost
  {
    if cs != [] {
      CallersLeftBounds(cs[..|cs| - 1], n, cost);
      OneMore(|cs| - 1, cost);
      assert 0 <= CallLeft(cs[|cs| - 1].phase, n) <= cost;
    }
  }

  // An exclusive worker that has not started yet will call ExecuteExclusive once.
  function FirstCalls(ps: seq<Probe>, ws: seq<Worker>, n: nat): nat
    requires |ps| == |ws|
  {
    if ws == [] then 0
    else FirstCalls(ps[..|ws| - 1], ws[..|ws| - 1], n) + FirstCall(ps[|ws| - 1], ws[|ws| - 1], n)
  }

  function FirstCall(p: Probe, x: Worker, n: nat): nat {
    if p.exclusive && x.phase == NotStarted then 6 * n + 9 else 0
  }

  lemma {:induction false} FirstCallsUpdate(ps: seq<Probe>, ws: seq<Worker>, n: nat, w: nat, x: Worker)
    requires |ps| == |ws| && w < |ws|
    ensures FirstCalls(ps, ws[w := x], n) == FirstCalls(ps, ws, n) - FirstCall(ps[w], ws[w], n) + FirstCall(ps[w], x, n)
  {
    var k := |ws| - 1;
    if w == k {
      assert ws[w := x][..k] == ws[..k];
    } else {
      assert ws[w := x][..k] == ws[..k][w := x];
      FirstCallsUpdate(ps[..k], ws[..k], n, w, x);
    }
  }

  lemma {:induction false} FirstCallsBound(ps: seq<Probe>, ws: seq<Worker>, n: nat, cost: nat)
    requires |ps| == |ws| && 6 * n + 9 <= cost
    ensures FirstCalls(ps, ws, n) <= |ws| * cost
  {
    if ws != [] {
      FirstCallsBound(ps[..|ws| - 1], ws[..|ws| - 1], n, cost);
      OneMore(|ws| - 1, cost);
    }
  }

  // What one call of ExecuteExclusive can cost at most.
  function CallCost(s: State): nat {
    6 * |Lights(s.probes)| + 9
  }

  function Left(s: State): int {
    var n := |Lights(s.probes)|;
    CallersLeft(s.callers, n) + Load(s.workers) + FirstCalls(s.probes, s.workers, n)
  }

  lemma LeftBounds(s: State)
    requires Base(s)
    ensures 0 <= Left(s) <= |s.callers| * CallCost(s) + |s.workers| * CallCost(s) + 5 * |s.workers|
  {
    var n := |Lights(s.probes)|;
    forall c | 0 <= c < |s.callers|
      ensures LoopIndex(s.callers[c].phase) <= n
    {
      if Inside(s.callers[c].phase) {
        assert s.owner == Some(c);
      }
    }
    CallersLeftBounds(s.callers, n, CallCost(s));
    LoadBound(s.workers);
    FirstCallsBound(s.probes, s.workers, n, CallCost(s));
  }

  // ---- What a step does to it ----------------------------------------------------

  // The steps that start new work or come from outside.
  predicate Renews(l: Label) {
    StartsCheck(l) || (l.Call? && l.call.Request?)
  }

  predicate Neutral(l: Label) {
    l.CancelCall? || l.CancelRun? || l.StopRun? || (l.Work? && l.act == Tick)
  }

  lemma FirstCallStep(p: Probe, x: Worker, a: WorkAct, n: nat)
    requires LocallyEnabled(x, a)
    ensures FirstCall(p, x, n) == if p.exclusive && a == Launch then 6 * n + 9 else 0
    ensures FirstCall(p, WorkerAfter(x, p.exclusive, a), n) == 0
  {
  }

  // The workers' share and the callers' share of a worker step.
  lemma WorkLeft(s: State, w: nat, a: WorkAct)
    requires Base(s) && WorkEnabled(s, w, a)
    ensures var d := Left(WorkApply(s, w, a)) - Left(s);
            if a == StartCheck then d <= CallCost(s) else if a == Tick then d == 0 else d < 0
  {
    hide WorkApply, WorkerAfter, FirstCall, FirstCalls, WorkerLeft, Load, CallersLeft;
    var n := |Lights(s.probes)|;
    var x := s.workers[w];
    var y := WorkerAfter(x, s.probes[w].exclusive, a);
    WorkerStepLeft(x, s.probes[w].exclusive, a);
    LoadUpdate(s.workers, w, y);
    FirstCallsUpdate(s.probes, s.workers, n, w, y);
    FirstCallStep(s.probes[w], x, a, n);
    WorkCallersLeft(s, w, a);
    WorkFrame(s, w, a);
    assert WorkApply(s, w, a).workers == s.workers[w := y];
  }

  lemma WorkCallersLeft(s: State, w: nat, a: WorkAct)
    requires WorkEnabled(s, w, a)
    ensures var n := |Lights(s.probes)|;
            CallersLeft(WorkApply(s, w, a).callers, n) == CallersLeft(s.callers, n) +
              if s.probes[w].exclusive && (a == Launch || a == StartCheck) then 6 * n + 8 else 0
  {
    if s.probes[w].exclusive && (a == Launch || a == StartCheck) {
      CallersLeftUpdate(s.callers, |Lights(s.probes)|, w, s.callers[w].(phase := Waiting));
    } else {
      assert WorkApply(s, w, a).callers == s.callers;
    }
  }

  lemma CallLeftStep(s: State, c: nat, a: CallAct)
    requires Base(s) && CallEnabled(s, c, a)
    ensures var d := Left(CallApply(s, c, a)) - Left(s);
            if a.Request? then d <= CallCost(s) else d < 0
  {
    var n := |Lights(s.probes)|;
    var t := CallApply(s, c, a);
    CallFrame(s, c, a);
    CallersLeftUpdate(s.callers, n, c, t.callers[c]);
    if Inside(s.callers[c].phase) {
      assert s.owner == Some(c);
    }
    if TouchesTarget(a) {
      var v := Target(s, c);
      TargetStepLeft(s.workers[v], a);
      LoadUpdate(s.workers, v, TargetAfter(s.workers[v], a));
      FirstCallsUpdate(s.probes, s.workers, n, v, TargetAfter(s.workers[v], a));
    } else if !a.Request? {
      assert t.workers == s.workers;
      PhaseLeft(s, c, a);
    }
  }

  lemma {:induction false} OutsideLeft(cs: seq<Caller>, n: nat, c: nat)
    requires c < |cs|
    ensures CallersLeft(cs[c := cs[c].(ctxDone := true)], n) == CallersLeft(cs, n)
  {
    CallersLeftUpdate(cs, n, c, cs[c].(ctxDone := true));
  }

  lemma StepLeft(s: State, l: Label)
    requires Base(s) && Enabled(s, l)
    ensures var d := Left(Apply(s, l)) - Left(s);
            if Renews(l) then d <= CallCost(s) else if Neutral(l) then d == 0 else d < 0
  {
    match l
    case Work(w, a) => WorkLeft(s, w, a);
    case Call(c, a) => CallLeftStep(s, c, a);
    case CancelCall(c) => OutsideLeft(s.callers, |Lights(s.probes)|, c);
    case _ =>
  }

  function CountWork(ls: seq<Label>): nat {
    if ls == [] then 0 else (if Renews(ls[0]) || Neutral(ls[0]) then 0 else 1) + CountWork(ls[1..])
  }

  function CountRenewals(ls: seq<Label>): nat {
    if ls == [] then 0 else (if Renews(ls[0]) then 1 else 0) + CountRenewals(ls[1..])
  }

  // In every run, live or not, all the steps taken are paid for by what was left
  // at the start and by the checks and calls begun since.
  lemma {:induction false} RunLeft(s: State, ls: seq<Label>)
    requires Base(s) && CanRun(s, ls)
    ensures CountWork(ls) + Left(Exec(s, ls)) <= Left(s) + CountRenewals(ls) * CallCost(s)
    decreases |ls|
  {
    hide Base, Renews, Neutral, Enabled, Apply;
    if ls != [] {
      StepKeepsWf(s, ls[0]);
      StepLeft(s, ls[0]);
      RunLeft(Apply(s, ls[0]), ls[1..]);
      OneMore(CountRenewals(ls[1..]), CallCost(s));
    }
  }

  // ---- Draining ------------------------------------------------------------------

  // A caller with its context done backs out of every wait: it aborts a pause,
  // and a resume it cannot send ends at the 5s deadline.
  function BackOut(s: State, c: nat): CallAct
    requires c < |s.callers|
  {
    match s.callers[c].phase
    case PauseEntry => EnterPause
    case Broadcasting(_) => if InLoop(s, c) then AbortPause else EndBroadcast
    case Collecting(_) => if InLoop(s, c) then AbortPause else CommitPause
    case InFn => FnReturn(Failure)
    case ResumeEntry(_) => EnterResume
    case Resuming(_, _) =>
      if InLoop(s, c) then if s.workers[Target(s, c)].cmd == [] then SendResume else ResumeDeadline else CommitResume
    case _ => Unlock
  }

  // The step that brings worker w nearer to its exit.
  function DrainStep(s: State, w: nat): Label
    requires w < |s.workers| && (s.owner.Some? ==> s.owner.value < |s.callers|)
  {
    match s.workers[w].phase
    case NotStarted => Work(w, Launch)
    case Checking =>
      if s.callers[w].phase == Idle then Work(w, FinishCheck)
      else if s.owner == None then Call(w, Lock)
      else Call(s.owner.value, BackOut(s, s.owner.value))
    case _ => Work(w, Exit)
  }

  // The context of whoever holds exclusiveMu is done. For an exclusive worker,
  // the only caller in the program, that is the run context.
  predicate OwnerCancelled(s: State) {
    s.cancelled && (s.owner.Some? ==> s.owner.value < |s.callers| && CtxDone(s, s.owner.value))
  }

  lemma DrainStepWorks(s: State, w: nat)
    requires Base(s) && OwnerCancelled(s) && w < |s.workers| && s.workers[w].phase != Exited
    ensures var l := DrainStep(s, w);
            && Enabled(s, l) && !Renews(l) && !Neutral(l)
            && OwnerCancelled(Apply(s, l))
  {
    hide Coherent, FitsCapacity;
    var l := DrainStep(s, w);
    if l.Call? {
      if l.call != Lock {
        assert OwnerOk(s, OwnerPhase(s)) && Inside(s.callers[l.c].phase);
      }
      assert Enabled(s, l);
      CallFrame(s, l.c, l.call);
    }
  }

  // After cancellation, from any state whatever (mid-check, about to ack, paused,
  // mid-broadcast, waiting for exclusiveMu, inside fn), a run of at most Left(s)
  // steps takes every worker goroutine to its exit.
  lemma StopDrains(s: State) returns (ls: seq<Label>)
    requires Base(s) && OwnerCancelled(s)
    ensures CanRun(s, ls) && |ls| <= Left(s) && Drained(Exec(s, ls))
    decreases Left(s)
  {
    LeftBounds(s);
    if Drained(s) {
      ls := [];
    } else {
      var w: nat :| w < |s.workers| && s.workers[w].phase != Exited;
      DrainStepWorks(s, w);
      var l := DrainStep(s, w);
      StepKeepsWf(s, l);
      StepLeft(s, l);
      LeftBounds(Apply(s, l));
      var rest := StopDrains(Apply(s, l));
      ls := [l] + rest;
      assert ls[1..] == rest;
    }
  }

  // Not just some run: in every session, a run after cancellation can come to rest
  // (no step left but noticing ticks, cancelling, and starting further checks and
  // calls) only when every worker goroutine has exited.
  lemma RestIsDrained(s: State, ls: seq<Label>)
    requires Base(s) && CanRun(s, ls) && OwnerCancelled(Exec(s, ls))
    requires forall l :: Enabled(Exec(s, ls), l) ==> Renews(l) || Neutral(l)
    ensures Drained(Exec(s, ls))
  {
    RunKeepsWf(s, ls);
    var t := Exec(s, ls);
    forall w | 0 <= w < |t.workers|
      ensures t.workers[w].phase == Exited
    {
      if t.workers[w].phase != Exited {
        DrainStepWorks(t, w);
      }
    }
  }

  // With exclusive workers as the only callers the hypothesis on the owner is
  // met as soon as the run context is cancelled, and stays met.
  lemma CancelledForGood(s: State)
    requires Base(s) && s.cancelled && |s.callers| == |s.workers|
    ensures OwnerCancelled(s)
  {
  }

  // The program's own use: every caller is an exclusive worker. Whatever run came
  // before, as soon as the run context is cancelled the session can drain.
  lemma SessionDrains(s: State, ls: seq<Label>) returns (ms: seq<Label>)
    requires SessionStart(s) && CanRun(s, ls) && Exec(s, ls).cancelled && |s.callers| == |s.workers|
    ensures CanRun(Exec(s, ls), ms) && Drained(Exec(Exec(s, ls), ms))
    ensures |ms| <= |s.workers| * CallCost(s) + |s.workers| * CallCost(s) + 5 * |s.workers|
  {
    StartIsWf(s);
    RunKeepsWf(s, ls);
    var t := Exec(s, ls);
    assert CallCost(t) == CallCost(s);
    LeftBounds(t);
    ms := StopDrains(t);
  }

  // ---- Where the hypothesis is needed ----------------------------------------------

  // An outside caller with a live context waits for the ack of a worker that has
  // exited, and exclusive worker v waits for exclusiveMu.
  predicate Wedged(s: State, c: nat, v: nat) {
    && v < |s.workers| <= c < |s.callers|
    && s.owner == Some(c) && !s.callers[c].ctxDone
    && s.callers[c].phase.Collecting? && InLoop(s, c)
    && s.workers[Target(s, c)].phase == Exited && s.workers[Target(s, c)].ack == 0
    && s.callers[v].phase == Waiting && s.workers[v].phase == Checking
  }

  lemma StepStaysWedged(s: State, l: Label, c: nat, v: nat)
    requires Base(s) && Wedged(s, c, v) && Enabled(s, l) && l != CancelCall(c)
    ensures Wedged(Apply(s, l), c, v)
  {
    hide TargetAfter;
    assert Inside(s.callers[c].phase);
    if l.Call? {
      assert l.c != c && !Inside(s.callers[l.c].phase);
      assert l.call == Request;
    }
  }

  // Then Stop never returns, unless that outside context is cancelled as well.
  lemma {:induction false} OutsideCallerCanBlockStop(s: State, ls: seq<Label>, c: nat, v: nat)
    requires Base(s) && Wedged(s, c, v) && CanRun(s, ls) && CancelCall(c) !in ls
    ensures Wedged(Exec(s, ls), c, v) && !Drained(Exec(s, ls))
    decreases |ls|
  {
    if ls != [] {
      assert ls[0] in ls;
      StepKeepsWf(s, ls[0]);
      StepStaysWedged(s, ls[0], c, v);
      OutsideCallerCanBlockStop(Apply(s, ls[0]), ls[1..], c, v);
    }
  }
}
