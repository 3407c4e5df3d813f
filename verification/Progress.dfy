// Progress of ExecuteExclusive. The steps of the caller and of the workers that
// serve it are counted by a measure; starting a further check is the only step
// that can put work back, and it puts back one unit.
module Progress {
  import opened Wrappers
  import opened Session
  import opened Safety
  import opened Recovery

  // ---- The measure ---------------------------------------------------------

  // How much is left of a call, n being the number of light workers.
  function CallLeft(p: CallPhase, n: nat): int {
    match p
    case Idle => 0
    case Waiting => 6 * n + 8
    case PauseEntry => 6 * n + 7
    case Broadcasting(i) => 3 * (n - i) + 3 * n + 6
    case Collecting(i) => (n - i) + 2 * n + 5
    case InFn => 2 * n + 4
    case ResumeEntry(_) => 2 * n + 3
    case Resuming(i, _) => 2 * (n - i) + 2
    case Unlocking => 1
  }

  // How much a worker still has to do about the check it is in, the command it has
  // been sent, and its exit.
  function WorkerLeft(x: Worker): nat {
    (match x.phase
     case NotStarted => 3
     case Checking => 2
     case AckPending => 2
     case Exited => 0
     case _ => 1)
    + if x.cmd == [] then 0 else if x.cmd[0] == Pause then 2 else 1
  }

  function Load(ws: seq<Worker>): nat {
    if ws == [] then 0 else Load(ws[..|ws| - 1]) + WorkerLeft(ws[|ws| - 1])
  }

  lemma {:induction false} LoadUpdate(ws: seq<Worker>, w: nat, x: Worker)
    requires w < |ws|
    ensures Load(ws[w := x]) == Load(ws) - WorkerLeft(ws[w]) + WorkerLeft(x)
  {
    var k := |ws| - 1;
    if w == k {
      assert ws[w := x][..k] == ws[..k];
    } else {
      assert ws[w := x][..k] == ws[..k][w := x];
      LoadUpdate(ws[..k], w, x);
    }
  }

  lemma {:induction false} LoadBound(ws: seq<Worker>)
    ensures Load(ws) <= 5 * |ws|
  {
    if ws != [] {
      LoadBound(ws[..|ws| - 1]);
    }
  }

  function Remaining(s: State, c: nat): int
    requires c < |s.callers|
  {
    CallLeft(s.callers[c].phase, |Lights(s.probes)|) + Load(s.workers)
  }

  // The steps that serve the call of c: everything its goroutine does, and
  // everything the workers do except noticing a tick and starting a check for it.
  predicate Serves(l: Label, c: nat) {
    match l
    case Work(_, a) => a != Tick && a != StartCheck
    case Call(d, a) => d == c
    case _ => false
  }

  predicate StartsCheck(l: Label) {
    l.Work? && l.act == StartCheck
  }

  lemma WorkerStepLeft(x: Worker, exclusive: bool, a: WorkAct)
    requires LocallyEnabled(x, a) && FitsCapacity(x)
    ensures var left := WorkerLeft(WorkerAfter(x, exclusive, a));
            if a == StartCheck then left == WorkerLeft(x) + 1
            else if a == Tick then left == WorkerLeft(x)
            else left < WorkerLeft(x)
  {
  }

  lemma TargetStepLeft(x: Worker, a: CallAct)
    requires TouchesTarget(a)
    requires if a.CollectAck? then x.ack > 0 else x.cmd == []
    ensures WorkerLeft(TargetAfter(x, a)) ==
              WorkerLeft(x) + if a.SendPause? then 2 else if a.SendResume? then 1 else 0
  {
    if !a.CollectAck? {
      assert TargetAfter(x, a).cmd == [if a.SendPause? then Pause else Resume];
    }
  }

  // Every step that serves the owner's call leaves less to do; starting a check
  // leaves one unit more; no other step changes what is left.
  lemma StepRemaining(s: State, l: Label, c: nat)
    requires Base(s) && Enabled(s, l) && s.owner == Some(c)
    ensures Remaining(Apply(s, l), c) + (if Serves(l, c) then 1 else 0)
              <= Remaining(s, c) + (if StartsCheck(l) then 1 else 0)
  {
    assert Inside(s.callers[c].phase);
    match l
    case Work(w, a) => WorkRemaining(s, w, a, c);
    case Call(d, a) => CallRemaining(s, d, a, c);
    case _ =>
  }

  lemma WorkRemaining(s: State, w: nat, a: WorkAct, c: nat)
    requires Base(s) && WorkEnabled(s, w, a) && c < |s.callers| && Inside(s.callers[c].phase)
    ensures Remaining(WorkApply(s, w, a), c) + (if Serves(Work(w, a), c) then 1 else 0)
              <= Remaining(s, c) + (if a == StartCheck then 1 else 0)
  {
    var x := s.workers[w];
    WorkerStepLeft(x, s.probes[w].exclusive, a);
    LoadUpdate(s.workers, w, WorkerAfter(x, s.probes[w].exclusive, a));
  }

  lemma CallRemaining(s: State, d: nat, a: CallAct, c: nat)
    requires Base(s) && CallEnabled(s, d, a) && s.owner == Some(c)
    ensures Remaining(CallApply(s, d, a), c) + (if d == c then 1 else 0) <= Remaining(s, c)
  {
    assert Inside(s.callers[c].phase);
    if TouchesTarget(a) {
      assert d == c;
      ChannelRemaining(s, c, a);
    } else {
      CallFrame(s, d, a);
      assert CallApply(s, d, a).workers == s.workers;
      if d == c {
        PhaseLeft(s, c, a);
      }
    }
  }

  lemma PhaseLeft(s: State, c: nat, a: CallAct)
    requires CallEnabled(s, c, a) && !a.Request? && LoopIndex(s.callers[c].phase) <= |Lights(s.probes)|
    requires !TouchesTarget(a)
    ensures CallLeft(PhaseAfter(s, c, a), |Lights(s.probes)|) < CallLeft(s.callers[c].phase, |Lights(s.probes)|)
  {
  }

  lemma ChannelRemaining(s: State, c: nat, a: CallAct)
    requires CallEnabled(s, c, a) && TouchesTarget(a)
    ensures Remaining(CallApply(s, c, a), c) < Remaining(s, c)
  {
    var x := s.workers[Target(s, c)];
    TargetStepLeft(x, a);
    LoadUpdate(s.workers, Target(s, c), TargetAfter(x, a));
  }

  // ---- The cost of a call ------------------------------------------------------

  // c holds exclusiveMu at every step of the run.
  predicate OwnsThroughout(s: State, ls: seq<Label>, c: nat)
    requires CanRun(s, ls)
    decreases |ls|
  {
    ls == [] || (s.owner == Some(c) && OwnsThroughout(Apply(s, ls[0]), ls[1..], c))
  }

  function CountServing(ls: seq<Label>, c: nat): nat {
    if ls == [] then 0 else (if Serves(ls[0], c) then 1 else 0) + CountServing(ls[1..], c)
  }

  function CountChecks(ls: seq<Label>): nat {
    if ls == [] then 0 else (if StartsCheck(ls[0]) then 1 else 0) + CountChecks(ls[1..])
  }

  lemma {:induction false} RunRemaining(s: State, ls: seq<Label>, c: nat)
    requires Base(s) && CanRun(s, ls) && c < |s.callers| && OwnsThroughout(s, ls, c)
    ensures CountServing(ls, c) + Remaining(Exec(s, ls), c) <= Remaining(s, c) + CountChecks(ls)
    decreases |ls|
  {
    if ls != [] {
      StepKeepsWf(s, ls[0]);
      StepRemaining(s, ls[0], c);
      RunRemaining(Apply(s, ls[0]), ls[1..], c);
    }
  }

  // From the moment it has exclusiveMu, a call is over within 6 steps for every
  // light worker and 5 for every worker, plus one for every check that is
  // started meanwhile: in every run, aborted and cancelled ones included.
  lemma CallIsLinear(s: State, ls: seq<Label>, c: nat)
    requires Base(s) && CanRun(s, ls) && HasPhase(s, c, PauseEntry) && OwnsThroughout(s, ls, c)
    ensures CountServing(ls, c) <= 6 * |Lights(s.probes)| + 5 * |s.workers| + 7 + CountChecks(ls)
  {
    RunRemaining(s, ls, c);
    LoadBound(s.workers);
    RunKeepsWf(s, ls);
    CallLeftNonNegative(Exec(s, ls), c);
  }

  lemma CallLeftNonNegative(s: State, c: nat)
    requires Base(s) && c < |s.callers|
    ensures Remaining(s, c) >= 0
  {
    if Inside(s.callers[c].phase) {
      assert s.owner == Some(c);
    }
  }

  // ---- The next step ---------------------------------------------------------

  // The step by which a worker comes closer to serving the command in its channel.
  function AdvanceAct(x: Worker): WorkAct {
    match x.phase
    case NotStarted => Launch
    case Checking => FinishCheck
    case AckPending => PushAck
    case _ => TakeCommand
  }

  // A step that serves the call of c and gives nothing up.
  predicate IsForward(l: Label, c: nat) {
    && Serves(l, c)
    && l != Call(c, AbortPause) && l != Call(c, ResumeDeadline) && !(l.Work? && l.act == Exit)
  }

  // The step that brings the owner's call forward.
  function NextStep(s: State, c: nat): Label
    requires c < |s.callers| && Inside(s.callers[c].phase)
    requires LoopIndex(s.callers[c].phase) <= s.handles
  {
    match s.callers[c].phase
    case PauseEntry => Call(c, EnterPause)
    case Broadcasting(_) =>
      if LoopDone(s, c) then Call(c, EndBroadcast)
      else if s.workers[Target(s, c)].cmd == [] then Call(c, SendPause)
      else Work(Target(s, c), AdvanceAct(s.workers[Target(s, c)]))
    case Collecting(_) =>
      if LoopDone(s, c) then Call(c, CommitPause)
      else if s.workers[Target(s, c)].ack > 0 then Call(c, CollectAck)
      else Work(Target(s, c), AdvanceAct(s.workers[Target(s, c)]))
    case InFn => Call(c, FnReturn(Success))
    case ResumeEntry(_) => Call(c, EnterResume)
    case Resuming(_, _) =>
      if LoopDone(s, c) then Call(c, CommitResume)
      else if s.workers[Target(s, c)].cmd == [] then Call(c, SendResume)
      else Work(Target(s, c), AdvanceAct(s.workers[Target(s, c)]))
    case _ => Call(c, Unlock)
  }

  // The worker at position j will not keep a loop waiting for ever. This asks
  // less than Inv does: it also holds of sessions that inherit stale acks.
  predicate Responsive(s: State, j: nat)
    requires j < |Lights(s.probes)|
  {
    Prompt(s.workers[Nth(s, j)], IsHeld(s, j), IsCommanded(s, j))
  }

  predicate Prompt(x: Worker, held: bool, commanded: bool) {
    && x.phase != Exited && Stop !in x.cmd
    && (held && (x.phase != Paused || x.cmd == [Resume]) ==> x.ack == 0)
    && (held && x.phase == AckPending ==> x.cmd != [Resume])
    && (commanded ==> x.cmd != [Resume] && Owes(x))
    && (!held ==> x.phase == Paused ==> x.ack == 1 || x.cmd == [Resume])
    && (!held && !commanded ==> x.phase == AckPending ==> x.ack == 0 || x.cmd == [])
  }

  predicate AllResponsive(s: State) {
    forall j :: 0 <= j < |Lights(s.probes)| ==> Responsive(s, j)
  }

  lemma NextStepEnabled(s: State, c: nat)
    requires Base(s) && s.owner == Some(c)
    requires InLoop(s, c) ==> Responsive(s, LoopIndex(s.callers[c].phase))
    ensures Enabled(s, NextStep(s, c)) && IsForward(NextStep(s, c), c)
  {
  }

  // In a reachable state of a live session with nobody lost, every light worker
  // is responsive.
  lemma ReachableIsResponsive(s: State)
    requires Sane(s) && LostOk(s) && !s.cancelled && s.lost == {}
    ensures AllResponsive(s)
  {
    forall j | 0 <= j < |Lights(s.probes)|
      ensures Responsive(s, j)
    {
      assert Accounted(s, j) && WorkerOk(s.workers[Nth(s, j)]);
      if IsHeld(s, j) {
        assert if PastPause(s) then Undemanding(s.workers[Nth(s, j)]) else Held(s.workers[Nth(s, j)]);
      }
    }
  }

  // No deadlock: while a call holds exclusiveMu in a live session in which no
  // worker has been lost, a step that serves the call is enabled, and it leaves
  // strictly less to do.
  lemma CallNeverStuck(s: State, ls: seq<Label>, c: nat)
    requires SessionStart(s) && NoStaleAck(s) && CanRun(s, ls) && Live(ls) && c < |s.callers|
    requires Exec(s, ls).lost == {} && Exec(s, ls).owner == Some(c)
    ensures exists l :: Enabled(Exec(s, ls), l) && IsForward(l, c)
                     && Remaining(Apply(Exec(s, ls), l), c) < Remaining(Exec(s, ls), c)
  {
    StartIsSane(s);
    StartIsLostOk(s);
    RunKeepsLostOk(s, ls);
    var t := Exec(s, ls);
    ReachableIsResponsive(t);
    NextStepEnabled(t, c);
    StepRemaining(t, NextStep(t, c), c);
  }

  // ---- A run that reaches fn ---------------------------------------------------

  // A light worker that nobody has to wait for on the way into fn, because an
  // ack of an earlier session is still in its channel.
  predicate Frozen(s: State, j: nat)
    requires j < |Lights(s.probes)|
  {
    var x := s.workers[Nth(s, j)];
    if IsHeld(s, j) then x.ack == 0 && x.cmd == [Pause]
    else x.ack == 1 && x.cmd == if IsCommanded(s, j) then [Pause] else []
  }

  // The same worker on the way out of fn: it acknowledges once more.
  predicate StaleAgain(s: State, j: nat)
    requires j < |Lights(s.probes)|
  {
    var x := s.workers[Nth(s, j)];
    if IsHeld(s, j) then
      || (x.phase == AckPending && x.ack == 0 && x.cmd == [Pause])
      || (x.phase == Paused && x.ack == 1 && (x.cmd == [Pause] || x.cmd == []))
    else x.phase == Paused && x.ack == 1 && x.cmd == [Resume]
  }

  // The phases of a call that is not about to fail or to be skipped.
  predicate OnCourse(s: State, p: CallPhase) {
    && s.running && p != ResumeEntry(false)
    && (p.PauseEntry? || p.Unlocking? ==> !s.paused)
  }

  predicate BeforeFn(p: CallPhase) {
    p.PauseEntry? || p.Broadcasting? || p.Collecting?
  }

  // What one step does to the worker at position j.
  lemma NextStepWorker(s: State, c: nat, j: nat)
    requires Base(s) && s.owner == Some(c)
    requires j < |Lights(s.probes)| && Enabled(s, NextStep(s, c))
    ensures var t := Apply(s, NextStep(s, c));
            var l := NextStep(s, c);
            && Nth(t, j) == Nth(s, j)
            && t.workers[Nth(s, j)] ==
                 if InLoop(s, c) && j == LoopIndex(s.callers[c].phase) then
                   if l.Work? then WorkerAfter(s.workers[Nth(s, j)], false, l.act)
                   else TargetAfter(s.workers[Nth(s, j)], l.call)
                 else s.workers[Nth(s, j)]
  {
    hide Prompt;
    if InLoop(s, c) {
      NthInjective(s, LoopIndex(s.callers[c].phase), j);
    }
  }

  lemma NextStepOwner(s: State, c: nat)
    requires Base(s) && s.owner == Some(c) && OnCourse(s, s.callers[c].phase) && Enabled(s, NextStep(s, c))
    ensures var t := Apply(s, NextStep(s, c));
            var l := NextStep(s, c);
            && OwnerPhase(s) == s.callers[c].phase && OwnerPhase(t) == t.callers[c].phase
            && t.callers[c].phase == (if l.Work? then s.callers[c].phase else PhaseAfter(s, c, l.call))
            && t.owner == (if l == Call(c, Unlock) then None else Some(c))
            && t.running && OnCourse(t, t.callers[c].phase)
            && (t.owner == None ==> !t.paused)
            && (BeforeFn(s.callers[c].phase) ==> BeforeFn(t.callers[c].phase) || t.callers[c].phase == InFn)
            && (!BeforeFn(s.callers[c].phase) ==> !BeforeFn(t.callers[c].phase))
  {
    hide CallApply, WorkApply, WorkEnabled, Coherent, InMeasurement, FitsCapacity;
    var l := NextStep(s, c);
    assert OwnerOk(s, OwnerPhase(s));
    if l.Work? {
      WorkKeepsWf(s, l.w, l.act);
      WorkFrame(s, l.w, l.act);
    } else {
      CallFrame(s, c, l.call);
      CallMovesOwner(s, c, l.call);
    }
  }

  predicate IsTurn(s: State, c: nat, j: nat)
    requires c < |s.callers|
  {
    InLoop(s, c) && j == LoopIndex(s.callers[c].phase)
  }

  // Short of the end of PauseAll, this much does not need what Wf asks of a session.
  predicate InSession(s: State, c: nat)
    requires c < |s.callers|
  {
    var p := s.callers[c].phase;
    Coherent(s, p) || (BeforeFn(p) && !(p.Collecting? && LoopDone(s, c)))
  }

  // Who is held and who is commanded changes for the worker whose turn it is only.
  lemma NextStepRoles(s: State, c: nat, j: nat)
    requires Base(s) && s.owner == Some(c) && InSession(s, c) && OnCourse(s, s.callers[c].phase)
    requires Enabled(s, NextStep(s, c))
    requires j < |Lights(s.probes)|
    ensures var t := Apply(s, NextStep(s, c));
            var l := NextStep(s, c);
            && (IsHeld(t, j) <==>
                  if IsTurn(s, c, j) && l.Call? then l.call == CollectAck else IsHeld(s, j))
            && (IsCommanded(t, j) <==>
                  if IsTurn(s, c, j) && l.Call? then l.call == SendPause else IsCommanded(s, j))
    ensures IsTurn(s, c, j) ==>
              && IsHeld(s, j) == s.callers[c].phase.Resuming? && IsCommanded(s, j) == s.callers[c].phase.Collecting?
  {
    hide WorkApply, CallApply, WorkEnabled;
    NextStepOwner(s, c);
    var l := NextStep(s, c);
    if l.Work? {
      WorkFrame(s, l.w, l.act);
    } else {
      CallFrame(s, c, l.call);
    }
  }

  // The worker whose turn it is, looked at alone.
  lemma TurnWorkKeepsPrompt(x: Worker, held: bool, commanded: bool)
    requires FitsCapacity(x) && Prompt(x, held, commanded) && LocallyEnabled(x, AdvanceAct(x))
    ensures Prompt(WorkerAfter(x, false, AdvanceAct(x)), held, commanded)
  {
  }

  lemma TurnCallKeepsPrompt(x: Worker, a: CallAct)
    requires FitsCapacity(x) && TouchesTarget(a)
    requires Prompt(x, a.SendResume?, a.CollectAck?)
    requires if a.CollectAck? then x.ack > 0 else x.cmd == []
    ensures Prompt(TargetAfter(x, a), a.CollectAck?, a.SendPause?)
  {
    if !a.CollectAck? {
      assert TargetAfter(x, a).cmd == [if a.SendPause? then Pause else Resume];
      assert TargetAfter(x, a).cmd[0] == if a.SendPause? then Pause else Resume;
    }
  }

  lemma NextStepKeepsResponsive(s: State, c: nat, j: nat)
    requires Base(s) && s.owner == Some(c) && InSession(s, c) && OnCourse(s, s.callers[c].phase)
    requires j < |Lights(s.probes)| && Enabled(s, NextStep(s, c)) && Responsive(s, j)
    ensures Responsive(Apply(s, NextStep(s, c)), j)
  {
    NextStepWorker(s, c, j);
    NextStepRoles(s, c, j);
    assert FitsCapacity(s.workers[Nth(s, j)]);
    var l := NextStep(s, c);
    if IsTurn(s, c, j) {
      if l.Work? {
        TurnWorkKeepsPrompt(s.workers[Nth(s, j)], IsHeld(s, j), IsCommanded(s, j));
      } else {
        TurnCallKeepsPrompt(s.workers[Nth(s, j)], l.call);
      }
    }
  }

  lemma NextStepKeepsFrozen(s: State, c: nat, j: nat)
    requires Wf(s) && s.owner == Some(c) && OnCourse(s, s.callers[c].phase) && AllResponsive(s)
    requires BeforeFn(s.callers[c].phase) && j < |Lights(s.probes)| && Enabled(s, NextStep(s, c)) && Frozen(s, j)
    ensures var t := Apply(s, NextStep(s, c));
            Frozen(t, j) && t.workers[Nth(s, j)].phase == s.workers[Nth(s, j)].phase
  {
    NextStepWorker(s, c, j);
    NextStepRoles(s, c, j);
    if IsTurn(s, c, j) && s.callers[c].phase.Broadcasting? {
      assert TargetAfter(s.workers[Nth(s, j)], SendPause).cmd == [Pause];
    }
  }

  lemma NextStepKeepsStale(s: State, c: nat, j: nat)
    requires Wf(s) && s.owner == Some(c) && OnCourse(s, s.callers[c].phase) && AllResponsive(s)
    requires !BeforeFn(s.callers[c].phase) && j < |Lights(s.probes)| && Enabled(s, NextStep(s, c)) && StaleAgain(s, j)
    ensures StaleAgain(Apply(s, NextStep(s, c)), j)
  {
    NextStepWorker(s, c, j);
    NextStepRoles(s, c, j);
    if IsTurn(s, c, j) && NextStep(s, c).Call? {
      assert TargetAfter(s.workers[Nth(s, j)], SendResume).cmd == [Resume];
    }
  }

  // One step of a call that is on course.
  lemma Drive(s: State, c: nat)
    requires Wf(s) && s.owner == Some(c) && OnCourse(s, s.callers[c].phase) && AllResponsive(s)
    ensures var l := NextStep(s, c);
            && Enabled(s, l) && IsForward(l, c) && !IsPartialCut(s, l)
            && Wf(Apply(s, l)) && AllResponsive(Apply(s, l))
            && 0 <= Remaining(Apply(s, l), c) < Remaining(s, c)
  {
    assert InLoop(s, c) ==> Responsive(s, LoopIndex(s.callers[c].phase));
    NextStepEnabled(s, c);
    var l := NextStep(s, c);
    StepRemaining(s, l, c);
    StepKeepsWf(s, l);
    CallLeftNonNegative(Apply(s, l), c);
    forall j | 0 <= j < |Lights(s.probes)|
      ensures Responsive(Apply(s, l), j)
    {
      NextStepKeepsResponsive(s, c, j);
    }
  }

  // A finished run driven by NextStep.
  predicate Driven(s: State, ls: seq<Label>, c: nat)
    requires c < |s.callers|
  {
    && UncutRun(s, ls) && CanRun(s, ls) && |ls| <= Remaining(s, c)
    && (forall l :: l in ls ==> IsForward(l, c))
    && Wf(Exec(s, ls)) && AllResponsive(Exec(s, ls)) && Exec(s, ls).running
  }

  // Once exclusiveMu is held and the workers are responsive, a run of at most
  // Remaining(s, c) steps, none of which gives up, brings the call into fn. It
  // leaves frozen workers where they are.
  lemma ReachFn(s: State, c: nat) returns (ls: seq<Label>)
    requires Wf(s) && s.owner == Some(c) && OnCourse(s, s.callers[c].phase) && AllResponsive(s)
    requires BeforeFn(s.callers[c].phase)
    ensures Driven(s, ls, c) && HasPhase(Exec(s, ls), c, InFn)
    ensures forall j :: 0 <= j < |Lights(s.probes)| && Frozen(s, j) ==>
              Frozen(Exec(s, ls), j) && Exec(s, ls).workers[Nth(s, j)].phase == s.workers[Nth(s, j)].phase
    decreases Remaining(s, c)
  {
    Drive(s, c);
    NextStepOwner(s, c);
    var l := NextStep(s, c);
    var t := Apply(s, l);
    forall j | 0 <= j < |Lights(s.probes)| && Frozen(s, j)
      ensures Frozen(t, j) && t.workers[Nth(s, j)].phase == s.workers[Nth(s, j)].phase && Nth(t, j) == Nth(s, j)
    {
      NextStepKeepsFrozen(s, c, j);
    }
    var rest := [];
    if t.callers[c].phase != InFn {
      rest := ReachFn(t, c);
    }
    ls := [l] + rest;
    assert ls[1..] == rest;
  }

  // The workers a PauseAll still has to wait for are responsive.
  predicate AwaitedResponsive(s: State) {
    forall j :: 0 <= j < |Lights(s.probes)| && !IsHeld(s, j) ==> Responsive(s, j)
  }

  // No loop of the call has to serve the worker at position j any more.
  predicate Skipped(s: State, c: nat, j: nat)
    requires c < |s.callers|
  {
    !s.callers[c].phase.PauseEntry? && (IsHeld(s, j) || s.handles <= j)
  }

  lemma CommitStep(s: State, c: nat, j: nat)
    requires Base(s) && s.owner == Some(c) && InSession(s, c) && OnCourse(s, s.callers[c].phase)
    requires BeforeFn(s.callers[c].phase) && !(s.callers[c].phase.Collecting? && LoopDone(s, c))
    requires j < |Lights(s.probes)| && Enabled(s, NextStep(s, c)) && (!IsHeld(s, j) ==> Responsive(s, j))
    ensures var t := Apply(s, NextStep(s, c));
            && Nth(t, j) == Nth(s, j)
            && (!IsHeld(t, j) ==> Responsive(t, j))
            && (Skipped(s, c, j) ==> Skipped(t, c, j) && t.workers[Nth(s, j)] == s.workers[Nth(s, j)])
  {
    hide Prompt, Base, Coherent, WorkerAfter, TargetAfter;
    NextStepOwner(s, c);
    NextStepRoles(s, c, j);
    NextStepWorker(s, c, j);
    if !IsHeld(s, j) {
      NextStepKeepsResponsive(s, c, j);
    }
  }

  // One step of a PauseAll that is not at its end yet.
  lemma CommitDrive(s: State, c: nat)
    requires Base(s) && s.owner == Some(c) && OnCourse(s, s.callers[c].phase) && AwaitedResponsive(s)
    requires BeforeFn(s.callers[c].phase) && !CallEnabled(s, c, CommitPause)
    ensures var l := NextStep(s, c);
            && Enabled(s, l) && !IsPartialCut(s, l) && Base(Apply(s, l)) && Apply(s, l).owner == Some(c)
            && OnCourse(Apply(s, l), Apply(s, l).callers[c].phase) && BeforeFn(Apply(s, l).callers[c].phase)
            && AwaitedResponsive(Apply(s, l)) && 0 <= Remaining(Apply(s, l), c) < Remaining(s, c)
            && forall j :: 0 <= j < |Lights(s.probes)| && Skipped(s, c, j) ==>
                 Skipped(Apply(s, l), c, j) && Apply(s, l).workers[Nth(s, j)] == s.workers[Nth(s, j)]
  {
    hide Prompt, Skipped, Responsive;
    NextStepEnabled(s, c);
    NextStepOwner(s, c);
    var l := NextStep(s, c);
    var t := Apply(s, l);
    StepRemaining(s, l, c);
    StepKeepsWf(s, l);
    CallLeftNonNegative(t, c);
    forall j | 0 <= j < |Lights(s.probes)|
      ensures !IsHeld(t, j) ==> Responsive(t, j)
      ensures Skipped(s, c, j) ==> Skipped(t, c, j) && t.workers[Nth(s, j)] == s.workers[Nth(s, j)]
    {
      CommitStep(s, c, j);
    }
  }

  // Such a run through the two loops of a PauseAll alone, whatever its handles are
  // and whatever workers it wrongly takes for held: those it leaves as they are.
  lemma ReachCommit(s: State, c: nat) returns (ls: seq<Label>)
    requires Base(s) && s.owner == Some(c) && OnCourse(s, s.callers[c].phase) && AwaitedResponsive(s)
    requires BeforeFn(s.callers[c].phase)
    ensures UncutRun(s, ls) && CanRun(s, ls) && Base(Exec(s, ls))
    ensures CallEnabled(Exec(s, ls), c, CommitPause) && Exec(s, ls).running && Exec(s, ls).owner == Some(c)
    ensures forall j :: 0 <= j < |Lights(s.probes)| && Skipped(s, c, j) ==>
              Exec(s, ls).workers[Nth(s, j)] == s.workers[Nth(s, j)]
    decreases Remaining(s, c)
  {
    hide Skipped, AwaitedResponsive, Coherent;
    if CallEnabled(s, c, CommitPause) {
      ls := [];
    } else {
      CommitDrive(s, c);
      var t := Apply(s, NextStep(s, c));
      assert forall j :: 0 <= j < |Lights(s.probes)| ==> Nth(t, j) == Nth(s, j);
      var rest := ReachCommit(t, c);
      ls := [NextStep(s, c)] + rest;
      assert ls[1..] == rest;
    }
  }

  // From fn, or from any later point of the call, such a run brings the call to
  // its end: exclusiveMu is free again and nobody is paused.
  lemma FinishCall(s: State, c: nat) returns (ls: seq<Label>)
    requires Wf(s) && s.owner == Some(c) && OnCourse(s, s.callers[c].phase) && AllResponsive(s)
    requires !BeforeFn(s.callers[c].phase)
    ensures Driven(s, ls, c) && HasPhase(Exec(s, ls), c, Idle) && Exec(s, ls).owner == None && !Exec(s, ls).paused
    ensures forall j :: 0 <= j < |Lights(s.probes)| && StaleAgain(s, j) ==> StaleAgain(Exec(s, ls), j)
    decreases Remaining(s, c)
  {
    Drive(s, c);
    NextStepOwner(s, c);
    var l := NextStep(s, c);
    var t := Apply(s, l);
    forall j | 0 <= j < |Lights(s.probes)| && StaleAgain(s, j)
      ensures StaleAgain(t, j)
    {
      NextStepKeepsStale(s, c, j);
    }
    var rest := [];
    if t.owner == Some(c) {
      rest := FinishCall(t, c);
    }
    ls := [l] + rest;
    assert ls[1..] == rest;
  }
}
