// What a session inherits through the channels. Start reuses those made at
// registration, so an ack nobody collected before a Stop is still there.
module Restart {
  import opened Wrappers
  import opened Session
  import opened Safety
  import opened Recovery
  import opened Progress
  import opened Deadline

  // A goroutine that can ask for an exclusive task: an outside caller, or the
  // goroutine of an exclusive worker that has not exited.
  predicate Available(s: State, c: nat) {
    c < |s.callers| && (c < |s.workers| ==> s.probes[c].exclusive && IsUp(s.workers[c]))
  }

  predicate IsUp(x: Worker) {
    x.cmd == [] && (x.phase == NotStarted || x.phase == Checking || x.phase == Selecting)
  }

  // Between two calls: exclusiveMu is free, nobody is paused, c can ask for it or is
  // doing so.
  predicate BetweenCalls(s: State, c: nat) {
    && Wf(s) && s.running && !s.paused && s.owner == None && AllResponsive(s)
    && Available(s, c) && (HasPhase(s, c, Idle) || HasPhase(s, c, Waiting))
  }

  // Only Exit takes an exclusive worker out of its loop.
  lemma StepKeepsAvailable(s: State, l: Label, c: nat)
    requires Available(s, c) && Enabled(s, l) && l != Work(c, Exit)
    ensures Available(Apply(s, l), c)
  {
    hide TargetAfter, PhaseAfter;
    if l.Call? {
      CallFrameWorkers(s, l.c, l.call);
    } else if l.Work? {
      WorkFrame(s, l.w, l.act);
    }
  }

  lemma {:induction false} ForwardKeepsAvailable(s: State, ls: seq<Label>, c: nat)
    requires Available(s, c) && CanRun(s, ls) && forall l :: l in ls ==> IsForward(l, c)
    ensures Available(Exec(s, ls), c)
    decreases |ls|
  {
    if ls != [] {
      assert ls[0] in ls;
      StepKeepsAvailable(s, ls[0], c);
      ForwardKeepsAvailable(Apply(s, ls[0]), ls[1..], c);
    }
  }

  lemma WorkKeepsResponsive(s: State, c: nat, w: nat, a: WorkAct)
    requires BetweenCalls(s, c) && WorkEnabled(s, w, a) && IsLight(s, w)
    requires a == AdvanceAct(s.workers[w]) || a == Tick || a == StartCheck
    ensures BetweenCalls(WorkApply(s, w, a), c)
  {
    WorkKeepsWf(s, w, a);
    StepKeepsAvailable(s, Work(w, a), c);
    var t := WorkApply(s, w, a);
    forall j | 0 <= j < |Lights(s.probes)|
      ensures Responsive(t, j)
    {
      assert Responsive(s, j) && Nth(t, j) == Nth(s, j) && FitsCapacity(s.workers[Nth(s, j)]);
      if Nth(s, j) == w && a == AdvanceAct(s.workers[w]) {
        TurnWorkKeepsPrompt(s.workers[w], false, false);
      }
    }
  }

  // The light workers are as they were.
  predicate SameLights(s: State, t: State) {
    && t.probes == s.probes && |t.workers| == |s.workers|
    && forall w :: 0 <= w < |s.workers| && IsLight(s, w) ==> t.workers[w] == s.workers[w]
  }

  // What an idle goroutine does on its way to exclusiveMu. A worker first ends its
  // check, then waits for a tick.
  function WakeStep(s: State, c: nat): Label
    requires Available(s, c)
  {
    if |s.workers| <= c then Call(c, Request)
    else match s.workers[c].phase
         case NotStarted => Work(c, Launch)
         case Checking => Work(c, FinishCheck)
         case _ => Work(c, if s.workers[c].tick then StartCheck else Tick)
  }

  function WakeLeft(s: State, c: nat): nat
    requires Available(s, c)
  {
    if s.callers[c].phase == Waiting then 0
    else if |s.workers| <= c then 1
    else match s.workers[c].phase
         case Checking => 3
         case Selecting => if s.workers[c].tick then 1 else 2
         case _ => 1
  }

  lemma WakeOnce(s: State, c: nat)
    requires BetweenCalls(s, c) && HasPhase(s, c, Idle)
    ensures var l := WakeStep(s, c);
            && Enabled(s, l) && !IsPartialCut(s, l) && SameLights(s, Apply(s, l))
            && BetweenCalls(Apply(s, l), c) && WakeLeft(Apply(s, l), c) < WakeLeft(s, c)
  {
    var l := WakeStep(s, c);
    var t := Apply(s, l);
    StepKeepsWf(s, l);
    StepKeepsAvailable(s, l, c);
    assert OwnerPhase(t) == Idle && OwnerPhase(s) == Idle;
    AllStayResponsive(s, t);
  }

  // The caller gets exclusiveMu.
  lemma Acquire(s: State, c: nat) returns (t: State, ls: seq<Label>)
    requires BetweenCalls(s, c)
    ensures UncutRun(s, ls) && CanRun(s, ls) && t == Exec(s, ls)
    ensures Wf(t) && t.owner == Some(c) && HasPhase(t, c, PauseEntry) && AllResponsive(t)
    ensures SameLights(s, t) && Available(t, c) && t.running && !t.paused
    decreases WakeLeft(s, c)
  {
    hide AllResponsive, Available, Base, Coherent, WakeStep;
    if HasPhase(s, c, Waiting) {
      t := AcquireWaiting(s, c);
      UncutCons(s, Call(c, Lock), []);
      ls := [Call(c, Lock)] + [];
    } else {
      WakeOnce(s, c);
      var rest;
      t, rest := Acquire(Apply(s, WakeStep(s, c)), c);
      UncutCons(s, WakeStep(s, c), rest);
      ls := [WakeStep(s, c)] + rest;
    }
  }

  lemma AcquireWaiting(s: State, c: nat) returns (t: State)
    requires BetweenCalls(s, c) && HasPhase(s, c, Waiting)
    ensures CallEnabled(s, c, Lock) && t == CallApply(s, c, Lock)
    ensures Wf(t) && t.owner == Some(c) && HasPhase(t, c, PauseEntry) && AllResponsive(t)
    ensures SameLights(s, t) && Available(t, c) && t.running && !t.paused
  {
    CallKeepsWf(s, c, Lock);
    StepKeepsAvailable(s, Call(c, Lock), c);
    t := CallApply(s, c, Lock);
    assert OwnerPhase(t) == PauseEntry && OwnerPhase(s) == Idle;
    AllStayResponsive(s, t);
  }

  // While nobody is held or commanded, being responsive depends on the workers alone.
  lemma AllStayResponsive(s: State, t: State)
    requires SameLights(s, t) && !s.paused && !t.paused && AllResponsive(s)
    requires OwnerPhase(s) == Idle && (OwnerPhase(t) == Idle || OwnerPhase(t) == PauseEntry)
    ensures AllResponsive(t)
  {
    forall j | 0 <= j < |Lights(s.probes)|
      ensures Responsive(t, j)
    {
      assert Responsive(s, j) && Nth(t, j) == Nth(s, j);
    }
  }

  // A worker measures while its stale ack is still queued: the next exclusive
  // call collects that ack and runs fn beside the check.
  lemma StaleAckEntersFn(s: State, c: nat, w: nat) returns (ls: seq<Label>)
    requires BetweenCalls(s, c) && IsLight(s, w)
    requires s.workers[w].phase == Checking && s.workers[w].ack == 1 && s.workers[w].cmd == []
    ensures LeadsToOverlap(s, ls)
  {
    hide Base, Coherent, Target;
    var u, path := Acquire(s, c);
    var j := Position(u, w);
    assert Frozen(u, j);
    ls := ReachFn(u, c);
    assert Exec(u, ls).callers[c].phase == InFn && Exec(u, ls).workers[w].phase == Checking;
    PrependRun(s, path, ls);
    ls := path + ls;
  }

  // Up to fn, the call that collects the stale ack sends its worker one more CmdPause.
  lemma StaleAckIntoFn(u: State, c: nat, j: nat) returns (ls: seq<Label>)
    requires Wf(u) && u.owner == Some(c) && u.callers[c].phase == PauseEntry && u.running && !u.paused
    requires AllResponsive(u) && j < |Lights(u.probes)|
    requires var x := u.workers[Nth(u, j)]; x.phase == AckPending && x.ack == 1 && x.cmd == []
    ensures Driven(u, ls, c) && HasPhase(Exec(u, ls), c, InFn) && Exec(u, ls).owner == Some(c)
    ensures StaleAgain(Exec(u, ls), j)
  {
    assert Frozen(u, j);
    ls := ReachFn(u, c);
    var v := Exec(u, ls);
    assert Inside(v.callers[c].phase) && v.owner == Some(c);
    assert IsHeld(v, j);
  }

  lemma StaleAckOutOfFn(v: State, c: nat, j: nat) returns (ls: seq<Label>)
    requires Wf(v) && HasPhase(v, c, InFn) && v.owner == Some(c) && v.running && Available(v, c)
    requires AllResponsive(v) && j < |Lights(v.probes)| && StaleAgain(v, j)
    ensures UncutRun(v, ls) && CanRun(v, ls) && BetweenCalls(Exec(v, ls), c)
    ensures var x := Exec(v, ls).workers[Nth(v, j)]; x.phase == Paused && x.ack == 1 && x.cmd == [Resume]
  {
    assert OwnerOk(v, OwnerPhase(v));
    ls := FinishCall(v, c);
    ForwardKeepsAvailable(v, ls, c);
    assert !IsHeld(Exec(v, ls), j) && StaleAgain(Exec(v, ls), j);
  }

  // A stale ack outlives a whole exclusive call when its worker is about to
  // acknowledge a stale CmdPause as well.
  lemma StaleAckSurvives(s: State, c: nat, w: nat) returns (ls: seq<Label>)
    requires BetweenCalls(s, c) && IsLight(s, w)
    requires s.workers[w].phase == AckPending && s.workers[w].ack == 1 && s.workers[w].cmd == []
    ensures UncutRun(s, ls) && CanRun(s, ls) && BetweenCalls(Exec(s, ls), c)
    ensures var x := Exec(s, ls).workers[w];
            x.phase == Paused && x.ack == 1 && x.cmd == [Resume]
  {
    hide Base, Coherent, AllResponsive, StaleAgain;
    var u, path := Acquire(s, c);
    var j := Position(u, w);
    var ls1 := StaleAckIntoFn(u, c, j);
    ForwardKeepsAvailable(u, ls1, c);
    var ls2 := StaleAckOutOfFn(Exec(u, ls1), c, j);
    UncutConcat(u, ls1, ls2);
    UncutConcat(s, path, ls1 + ls2);
    ls := path + (ls1 + ls2);
  }

  // How far a worker with a stale ack is from measuring with an empty cmdChan.
  function Distance(x: Worker): nat {
    match x.phase
    case Checking => if x.cmd == [] then 0 else 5
    case Selecting => if x.cmd == [] then 1 else 4
    case Paused => 2
    case AckPending => 3
    case _ => 6
  }

  lemma StaleAckOverlaps(s: State, c: nat, w: nat) returns (ls: seq<Label>)
    requires BetweenCalls(s, c) && IsLight(s, w) && s.workers[w].ack == 1
    requires var x := s.workers[w];
             match x.phase
             case Exited => false
             case Paused => x.cmd == [Resume]
             case AckPending => x.cmd == []
             case _ => x.cmd == [] || x.cmd == [Pause] || x.cmd == [Resume]
    ensures LeadsToOverlap(s, ls)
    decreases Distance(s.workers[w])
  {
    var x := s.workers[w];
    assert s.callers[w].phase == Idle;
    if x.phase == Checking && x.cmd == [] {
      ls := StaleAckEntersFn(s, c, w);
    } else if x.phase == AckPending {
      var ms := StaleAckSurvives(s, c, w);
      ls := StaleAckOverlaps(Exec(s, ms), c, w);
      PrependRun(s, ms, ls);
      ls := ms + ls;
    } else if x.phase == Selecting && x.cmd == [] {
      WorkKeepsResponsive(s, c, w, Tick);
      var t := WorkApply(s, w, Tick);
      WorkKeepsResponsive(t, c, w, StartCheck);
      ls := StaleAckOverlaps(WorkApply(t, w, StartCheck), c, w);
      Prepend(t, Work(w, StartCheck), ls);
      Prepend(s, Work(w, Tick), [Work(w, StartCheck)] + ls);
      ls := [Work(w, Tick)] + ([Work(w, StartCheck)] + ls);
    } else {
      WorkKeepsResponsive(s, c, w, AdvanceAct(x));
      ls := StaleAckOverlaps(WorkApply(s, w, AdvanceAct(x)), c, w);
      Prepend(s, Work(w, AdvanceAct(x)), ls);
      ls := [Work(w, AdvanceAct(x))] + ls;
    }
  }
}
