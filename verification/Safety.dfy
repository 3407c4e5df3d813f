// FR4: no light probe is measuring while an exclusive task runs.
//
// Inv is kept by every step except a ResumeAll cut part-way by its deadline.
// From it: the channel protocol refines a readers-writer machine.
module Safety {
  import opened Wrappers
  import opened Session

  // ---- The invariant ---------------------------------------------------------

  // What holds of a light worker and its channels at all times: a queued ack
  // tells the truth about the worker, and the worker's own ack send never finds
  // the channel full.
  predicate WorkerOk(x: Worker) {
    && (x.cmd == [] || x.cmd == [Pause] || x.cmd == [Resume])
    && x.ack <= 1
    && (x.ack == 1 ==> Stopped(x))
    && (x.cmd == [Resume] ==> x.ack == 0 && x.phase != AckPending)
  }

  // The worker will not measure unless it takes a CmdResume.
  predicate Stopped(x: Worker) {
    x.phase == Paused || x.phase == Exited
  }

  // The worker is stopped for good as far as it knows: its ack has been collected,
  // and it has exited or no CmdResume is queued.
  predicate Held(x: Worker) {
    x.ack == 0 && (x.phase == Exited || (x.phase == Paused && x.cmd != [Resume]))
  }

  // The worker has no ack queued and is not about to send one, now or on account of
  // a CmdPause in its channel.
  predicate Undemanding(x: Worker) {
    x.ack == 0 && x.phase != AckPending && (x.cmd == [Pause] ==> Stopped(x))
  }

  // A worker that was held and has since been sent its CmdResume.
  predicate Released(x: Worker) {
    && x.ack == 0
    && (x.phase == Exited || (x.phase == Paused && x.cmd == [Resume])
        || ((x.phase == Selecting || x.phase == Checking) && x.cmd == []))
  }

  // A goroutine holding exclusiveMu.
  predicate Inside(p: CallPhase) {
    !p.Idle? && !p.Waiting?
  }

  function OwnerPhase(s: State): CallPhase {
    if s.owner.Some? && s.owner.value < |s.callers| then s.callers[s.owner.value].phase else Idle
  }

  // The positions [HeldFrom, HeldTo) of nonExclusiveHandles whose workers are held.
  function HeldFrom(s: State): nat {
    if OwnerPhase(s).Resuming? then LoopIndex(OwnerPhase(s)) else 0
  }

  function HeldTo(s: State): nat {
    var n := |Lights(s.probes)|;
    match OwnerPhase(s)
    case Broadcasting(_) => 0
    case Collecting(i) => i
    case InFn => n
    case ResumeEntry(bounded) => if bounded || s.paused then n else 0
    case Resuming(_, _) => n
    case _ => if s.paused then n else 0
  }

  // exclusiveMu works, the loops stay inside their handles, worker goroutines call
  // ExecuteExclusive from their checks only. Every step keeps this, part-way cuts
  // included; so do Start and RegisterWorker, whoever is inside ExecuteExclusive
  // when they are called.
  predicate Base(s: State) {
    && (forall c :: 0 <= c < |s.callers| ==> (Inside(s.callers[c].phase) <==> s.owner == Some(c)))
    && (s.owner.Some? ==> s.owner.value < |s.callers|)
    && OwnerOk(s, OwnerPhase(s))
    && (forall w :: 0 <= w < |s.workers| && s.callers[w].phase != Idle ==> InMeasurement(s, w))
    && (!s.running ==> s.cancelled)
    && (forall w :: 0 <= w < |s.workers| ==> FitsCapacity(s.workers[w]))
  }

  // Within one session, moreover, the flags say where the owner is, and its loops
  // serve every light worker there is.
  predicate Wf(s: State) {
    Base(s) && Coherent(s, OwnerPhase(s))
  }

  predicate Coherent(s: State, p: CallPhase) {
    && (p.InFn? || p.Resuming? || p == ResumeEntry(true) ==> s.paused || !s.running)
    && (p.Broadcasting? || p.Collecting? || p.Resuming? ==> s.handles == |Lights(s.probes)|)
  }

  predicate FitsCapacity(x: Worker) {
    |x.cmd| <= 1 && x.ack <= 1
  }

  predicate InMeasurement(s: State, w: nat)
    requires w < |s.workers|
  {
    s.probes[w].exclusive && s.workers[w].phase == Checking
  }

  predicate OwnerOk(s: State, p: CallPhase) {
    && LoopIndex(p) <= s.handles
    && (p.Broadcasting? || p.Collecting? ==> !s.paused)
    && (p == ResumeEntry(false) ==> !s.paused || !s.running)
    && (p.Resuming? ==> p.bounded && (s.paused ==> s.running))
  }

  predicate Inv(s: State) {
    && Wf(s)
    && (forall j :: 0 <= j < |Lights(s.probes)| ==> WorkerOk(s.workers[Nth(s, j)]))
    && (forall j :: HeldFrom(s) <= j < HeldTo(s) && j < |Lights(s.probes)| ==> Held(s.workers[Nth(s, j)]))
    && (OwnerPhase(s).Resuming? ==>
          forall j :: 0 <= j < LoopIndex(OwnerPhase(s)) && j < |Lights(s.probes)| ==> Released(s.workers[Nth(s, j)]))
  }

  lemma StartIsWf(s: State)
    requires SessionStart(s)
    ensures Wf(s)
  {
  }

  // What Start makes of a stopped scheduler whose worker goroutines have exited. It
  // leaves the channels as they are, and whoever is inside ExecuteExclusive.
  function AfterStart(s: State): (t: State)
    ensures t.probes == s.probes && |t.workers| == |s.workers|
  {
    s.(running := true, paused := false, cancelled := false, lost := {},
       workers := seq(|s.workers|, w requires 0 <= w < |s.workers| =>
                                     s.workers[w].(phase := NotStarted, tick := false)))
  }

  // A session at its start. The callers are those of an outside program: they
  // stand wherever the session before has left them.
  predicate Restarted(s: State) {
    && Base(s) && s.running && !s.paused && !s.cancelled && s.lost == {}
    && (forall w :: 0 <= w < |s.workers| ==> s.callers[w].phase == Idle)
    && (forall w :: 0 <= w < |s.workers| ==> StartWorker(s.workers[w], s.probes[w].exclusive))
  }

  // ---- Every step keeps Wf ---------------------------------------------------

  // A work step changes one worker; an exclusive worker entering a check starts
  // its call of ExecuteExclusive.
  lemma WorkFrame(s: State, w: nat, a: WorkAct)
    requires WorkEnabled(s, w, a)
    ensures var t := WorkApply(s, w, a);
            && t.workers == s.workers[w := WorkerAfter(s.workers[w], s.probes[w].exclusive, a)]
            && t.probes == s.probes && t.owner == s.owner && t.running == s.running && t.paused == s.paused
            && t.cancelled == s.cancelled && t.lost == s.lost && t.handles == s.handles
            && |t.callers| == |s.callers|
            && var enters := (a == Launch || a == StartCheck) && s.probes[w].exclusive;
               forall c :: 0 <= c < |s.callers| ==>
                 t.callers[c].phase == if c == w && enters then Waiting else s.callers[c].phase
  {
  }

  lemma WorkKeepsWf(s: State, w: nat, a: WorkAct)
    requires Base(s) && WorkEnabled(s, w, a)
    ensures Base(WorkApply(s, w, a)) && (Wf(s) ==> Wf(WorkApply(s, w, a)))
    ensures OwnerPhase(WorkApply(s, w, a)) == OwnerPhase(s)
  {
    hide WorkApply;
    WorkFrame(s, w, a);
  }

  predicate EntersLoop(s: State, a: CallAct) {
    s.running && if s.paused then a.EnterResume? else a.EnterPause?
  }

  // A call step changes one caller; only Lock and Unlock move exclusiveMu.
  lemma CallFrame(s: State, c: nat, a: CallAct)
    requires CallEnabled(s, c, a)
    ensures var t := CallApply(s, c, a);
            && t.callers == s.callers[c := t.callers[c]] && t.callers[c].phase == PhaseAfter(s, c, a)
            && t.owner == (if a.Lock? then Some(c) else if a.Unlock? then None else s.owner)
            && t.handles == (if EntersLoop(s, a) then |Lights(s.probes)| else s.handles)
            && t.running == s.running && t.cancelled == s.cancelled && t.probes == s.probes
            && t.paused == (if a.CommitPause? then true else if a.CommitResume? then false else s.paused)
            && |t.workers| == |s.workers| && forall w :: 0 <= w < |s.workers| ==>
                 t.workers[w].phase == s.workers[w].phase && (FitsCapacity(s.workers[w]) ==> FitsCapacity(t.workers[w]))
  {
    hide CallApply, PhaseAfter;
    CallFrameCaller(s, c, a);
    CallFrameFlags(s, c, a);
    CallFrameWorkers(s, c, a);
  }

  lemma CallFrameCaller(s: State, c: nat, a: CallAct)
    requires CallEnabled(s, c, a)
    ensures var t := CallApply(s, c, a);
            t.callers == s.callers[c := t.callers[c]] && t.callers[c].phase == PhaseAfter(s, c, a)
  {
    hide TargetAfter;
  }

  lemma CallFrameFlags(s: State, c: nat, a: CallAct)
    requires CallEnabled(s, c, a)
    ensures var t := CallApply(s, c, a);
            && t.owner == (if a.Lock? then Some(c) else if a.Unlock? then None else s.owner)
            && t.handles == (if EntersLoop(s, a) then |Lights(s.probes)| else s.handles)
            && t.running == s.running && t.cancelled == s.cancelled && t.probes == s.probes
            && t.paused == (if a.CommitPause? then true else if a.CommitResume? then false else s.paused)
  {
    hide TargetAfter, PhaseAfter;
  }

  // Of the workers it changes at most the one whose turn it is, and not its phase.
  lemma CallFrameWorkers(s: State, c: nat, a: CallAct)
    requires CallEnabled(s, c, a)
    ensures var t := CallApply(s, c, a);
            && t.workers == (if TouchesTarget(a) then
                               s.workers[Target(s, c) := TargetAfter(s.workers[Target(s, c)], a)] else s.workers)
            && forall w :: 0 <= w < |s.workers| ==>
                 t.workers[w].phase == s.workers[w].phase && (FitsCapacity(s.workers[w]) ==> FitsCapacity(t.workers[w]))
  {
    hide PhaseAfter;
  }

  // The owner's phase after a step: it follows the code of ExecuteExclusive.
  lemma CallMovesOwner(s: State, c: nat, a: CallAct)
    requires Base(s) && CallEnabled(s, c, a)
    ensures OwnerPhase(CallApply(s, c, a)) ==
              if a.Request? then OwnerPhase(s) else if a.Unlock? then Idle else PhaseAfter(s, c, a)
    ensures !a.Request? && !a.Lock? ==> OwnerPhase(s) == s.callers[c].phase
  {
    CallFrame(s, c, a);
    if Inside(s.callers[c].phase) {
      assert s.owner == Some(c);
    }
  }

  lemma CallKeepsWf(s: State, c: nat, a: CallAct)
    requires Base(s) && CallEnabled(s, c, a)
    ensures Base(CallApply(s, c, a)) && (Wf(s) ==> Wf(CallApply(s, c, a)))
  {
    hide CallApply;
    var t := CallApply(s, c, a);
    CallFrame(s, c, a);
    CallMovesOwner(s, c, a);
    if Inside(s.callers[c].phase) {
      assert s.owner == Some(c);
    }
    assert OwnerOk(t, OwnerPhase(t)) by {
      assert OwnerOk(s, OwnerPhase(s));
    }
  }

  lemma StepKeepsWf(s: State, l: Label)
    requires Base(s) && Enabled(s, l)
    ensures Base(Apply(s, l)) && (Wf(s) ==> Wf(Apply(s, l)))
  {
    match l
    case Work(w, a) => WorkKeepsWf(s, w, a);
    case Call(c, a) => CallKeepsWf(s, c, a);
    case CancelCall(c) =>
      var t := Apply(s, l);
      assert forall d :: 0 <= d < |s.callers| ==> t.callers[d].phase == s.callers[d].phase;
      assert OwnerPhase(t) == OwnerPhase(s);
    case _ =>
      assert OwnerPhase(Apply(s, l)) == OwnerPhase(s);
  }

  // ---- Every step but a part-way cut keeps Inv ---------------------------------

  // What a light worker's own steps keep, looking at that worker alone. The
  // guards are those of WorkEnabled.
  predicate LocallyEnabled(x: Worker, a: WorkAct) {
    match a
    case Launch => x.phase == NotStarted
    case FinishCheck => x.phase == Checking
    case Tick => x.phase != NotStarted && x.phase != Exited
    case StartCheck => x.phase == Selecting
    case TakeCommand => x.cmd != [] && (x.phase == Selecting || x.phase == Paused)
    case PushAck => x.phase == AckPending && x.ack == 0
    case Exit => x.phase == Selecting || x.phase == AckPending || x.phase == Paused
  }

  lemma LightStepKeeps(x: Worker, a: WorkAct)
    requires WorkerOk(x) && LocallyEnabled(x, a)
    ensures WorkerOk(WorkerAfter(x, false, a))
    ensures Held(x) ==> Held(WorkerAfter(x, false, a))
    ensures Released(x) ==> Released(WorkerAfter(x, false, a))
    ensures Undemanding(x) ==> Undemanding(WorkerAfter(x, false, a))
  {
  }

  lemma WorkKeepsInv(s: State, w: nat, a: WorkAct)
    requires Inv(s) && WorkEnabled(s, w, a)
    ensures Inv(WorkApply(s, w, a))
  {
    hide WorkApply, WorkerAfter, Base, Coherent;
    WorkKeepsWf(s, w, a);
    WorkFrame(s, w, a);
    var t := WorkApply(s, w, a);
    forall j | 0 <= j < |Lights(s.probes)|
      ensures WorkerOk(t.workers[Nth(t, j)])
      ensures Held(s.workers[Nth(s, j)]) ==> Held(t.workers[Nth(t, j)])
      ensures Released(s.workers[Nth(s, j)]) ==> Released(t.workers[Nth(t, j)])
    {
      assert Nth(t, j) == Nth(s, j);
      if Nth(s, j) == w {
        LightStepKeeps(s.workers[w], a);
      }
    }
  }

  lemma HeldIsUndemanding(x: Worker)
    ensures Held(x) ==> Undemanding(x)
  {
  }

  // What a caller's channel operations do to the worker at the other end.
  lemma TargetStepKeeps(x: Worker, a: CallAct)
    requires WorkerOk(x) && TouchesTarget(a)
    requires if a.CollectAck? then x.ack > 0 else x.cmd == []
    requires a.SendResume? ==> Undemanding(x)
    ensures WorkerOk(TargetAfter(x, a))
    ensures a.CollectAck? ==> Held(TargetAfter(x, a))
    ensures a.SendResume? ==> Undemanding(TargetAfter(x, a)) && (Held(x) ==> Released(TargetAfter(x, a)))
  {
    if !a.CollectAck? {
      assert TargetAfter(x, a).cmd == [if a.SendPause? then Pause else Resume];
      assert TargetAfter(x, a).cmd[0] == if a.SendPause? then Pause else Resume;
    }
  }

  // The three steps that touch a channel.
  lemma ChannelStepKeepsInv(s: State, c: nat, a: CallAct)
    requires Inv(s) && CallEnabled(s, c, a) && TouchesTarget(a)
    ensures Inv(CallApply(s, c, a))
  {
    hide Base, Coherent, WorkerOk, Held, Released, Undemanding, TargetAfter;
    CallKeepsWf(s, c, a);
    CallMovesOwner(s, c, a);
    var t := CallApply(s, c, a);
    var i := LoopIndex(s.callers[c].phase);
    assert WorkerOk(s.workers[Nth(s, i)]);
    HeldIsUndemanding(s.workers[Nth(s, i)]);
    TargetStepKeeps(s.workers[Nth(s, i)], a);
    forall j | 0 <= j < |Lights(s.probes)|
      ensures Nth(t, j) == Nth(s, j)
      ensures j != i ==> t.workers[Nth(t, j)] == s.workers[Nth(s, j)]
      ensures j == i ==> t.workers[Nth(t, j)] == TargetAfter(s.workers[Nth(s, i)], a)
    {
      NthInjective(s, i, j);
    }
  }

  // A step that touches no channel claims no worker that was not held before.
  lemma HeldRangeShrinks(s: State, c: nat, a: CallAct)
    requires Wf(s) && CallEnabled(s, c, a) && !TouchesTarget(a) && !IsPartialCut(s, Call(c, a))
    ensures var t := CallApply(s, c, a);
            HeldTo(t) == 0 || HeldFrom(t) == HeldTo(t) || (HeldFrom(s) <= HeldFrom(t) && HeldTo(t) <= HeldTo(s))
    ensures OwnerPhase(CallApply(s, c, a)).Resuming? ==> LoopIndex(OwnerPhase(CallApply(s, c, a))) == 0 || a.Request?
  {
    CallFrame(s, c, a);
    CallMovesOwner(s, c, a);
  }

  lemma CallKeepsInv(s: State, c: nat, a: CallAct)
    requires Inv(s) && CallEnabled(s, c, a) && !IsPartialCut(s, Call(c, a))
    ensures Inv(CallApply(s, c, a))
  {
    if TouchesTarget(a) {
      ChannelStepKeepsInv(s, c, a);
    } else {
      CallKeepsWf(s, c, a);
      CallFrame(s, c, a);
      CallMovesOwner(s, c, a);
      var t := CallApply(s, c, a);
      assert forall j :: 0 <= j < |Lights(s.probes)| ==> Nth(t, j) == Nth(s, j);
      assert t.workers == s.workers;
      HeldRangeShrinks(s, c, a);
    }
  }

  lemma StepKeepsInv(s: State, l: Label)
    requires Inv(s) && Enabled(s, l) && !IsPartialCut(s, l)
    ensures Inv(Apply(s, l))
  {
    hide Base, Coherent, WorkerOk, Held, Released, WorkApply, CallApply;
    match l
    case Work(w, a) => WorkKeepsInv(s, w, a);
    case Call(c, a) => CallKeepsInv(s, c, a);
    case _ =>
      StepKeepsWf(s, l);
      var t := Apply(s, l);
      assert OwnerPhase(t) == OwnerPhase(s);
      assert forall j :: 0 <= j < |Lights(s.probes)| ==> Nth(t, j) == Nth(s, j);
  }

  lemma {:induction false} RunKeepsInv(s: State, ls: seq<Label>)
    requires Inv(s) && UncutRun(s, ls)
    ensures CanRun(s, ls) && Inv(Exec(s, ls))
    decreases |ls|
  {
    if ls != [] {
      StepKeepsInv(s, ls[0]);
      RunKeepsInv(Apply(s, ls[0]), ls[1..]);
    }
  }

  // ---- What holds on every run, part-way cuts included ---------------------------

  // A pause has been completed, or is taken for completed, and not been undone.
  predicate PastPause(s: State) {
    s.paused || OwnerPhase(s).InFn? || OwnerPhase(s) == ResumeEntry(true) || OwnerPhase(s).Resuming?
  }

  predicate Sane(s: State) {
    && Wf(s)
    && (forall j :: 0 <= j < |Lights(s.probes)| ==> WorkerOk(s.workers[Nth(s, j)]))
    && (OwnerPhase(s).Collecting? ==>
          forall j :: 0 <= j < LoopIndex(OwnerPhase(s)) && j < |Lights(s.probes)| ==> Held(s.workers[Nth(s, j)]))
    && (PastPause(s) ==> forall j :: 0 <= j < |Lights(s.probes)| ==> Undemanding(s.workers[Nth(s, j)]))
  }

  lemma InvIsSane(s: State)
    requires Inv(s)
    ensures Sane(s)
  {
    if PastPause(s) {
      assert HeldTo(s) == |Lights(s.probes)|;
      forall j | 0 <= j < |Lights(s.probes)|
        ensures Undemanding(s.workers[Nth(s, j)])
      {
        assert WorkerOk(s.workers[Nth(s, j)]);
        assert HeldFrom(s) <= j ==> Held(s.workers[Nth(s, j)]);
        assert j < HeldFrom(s) ==> Released(s.workers[Nth(s, j)]);
      }
    }
  }

  lemma WorkKeepsSane(s: State, w: nat, a: WorkAct)
    requires Sane(s) && WorkEnabled(s, w, a)
    ensures Sane(WorkApply(s, w, a))
  {
    hide WorkApply, WorkerAfter, Base, Coherent, WorkerOk, Held, Undemanding;
    WorkFrame(s, w, a);
    WorkKeepsWf(s, w, a);
    var t := WorkApply(s, w, a);
    forall j | 0 <= j < |Lights(s.probes)|
      ensures WorkerOk(t.workers[Nth(t, j)])
      ensures Held(s.workers[Nth(s, j)]) ==> Held(t.workers[Nth(t, j)])
      ensures Undemanding(s.workers[Nth(s, j)]) ==> Undemanding(t.workers[Nth(t, j)])
    {
      assert Nth(t, j) == Nth(s, j);
      if Nth(s, j) == w {
        LightStepKeeps(s.workers[w], a);
      }
    }
  }

  lemma ChannelStepKeepsSane(s: State, c: nat, a: CallAct)
    requires Sane(s) && CallEnabled(s, c, a) && TouchesTarget(a)
    ensures Sane(CallApply(s, c, a))
  {
    hide Base, Coherent, WorkerOk, Held, Undemanding, TargetAfter;
    CallKeepsWf(s, c, a);
    CallMovesOwner(s, c, a);
    CallFrame(s, c, a);
    CallFrameWorkers(s, c, a);
    var t := CallApply(s, c, a);
    var i := LoopIndex(s.callers[c].phase);
    TargetStepKeeps(s.workers[Nth(s, i)], a);
    PausingIsNotPast(s);
    forall j | 0 <= j < |Lights(s.probes)|
      ensures Nth(t, j) == Nth(s, j)
      ensures j != i ==> t.workers[Nth(t, j)] == s.workers[Nth(s, j)]
      ensures j == i ==> t.workers[Nth(t, j)] == TargetAfter(s.workers[Nth(s, i)], a)
    {
      NthInjective(s, i, j);
    }
  }

  // The flag is not set while a pause is under way.
  lemma PausingIsNotPast(s: State)
    requires Base(s)
    ensures OwnerPhase(s).Broadcasting? || OwnerPhase(s).Collecting? ==> !PastPause(s)
  {
  }

  // A completed pause holds everybody.
  lemma CommitIsEarned(s: State, c: nat)
    requires Sane(s) && CallEnabled(s, c, CommitPause)
    ensures forall j :: 0 <= j < |Lights(s.probes)| ==> Held(s.workers[Nth(s, j)]) && Undemanding(s.workers[Nth(s, j)])
  {
    CallMovesOwner(s, c, CommitPause);
    assert forall j :: 0 <= j < |Lights(s.probes)| ==> Held(s.workers[Nth(s, j)]) && WorkerOk(s.workers[Nth(s, j)]);
  }

  lemma QuietStepKeepsSane(s: State, c: nat, a: CallAct)
    requires Sane(s) && CallEnabled(s, c, a) && !TouchesTarget(a)
    ensures Sane(CallApply(s, c, a))
  {
    hide CallApply, WorkerOk, Held, Undemanding;
    CallKeepsWf(s, c, a);
    CallMovesOwner(s, c, a);
    CallFrame(s, c, a);
    CallFrameWorkers(s, c, a);
    if a.CommitPause? {
      CommitIsEarned(s, c);
    }
    assert forall j :: 0 <= j < |Lights(s.probes)| ==> Nth(CallApply(s, c, a), j) == Nth(s, j);
  }

  lemma StepKeepsSane(s: State, l: Label)
    requires Sane(s) && Enabled(s, l)
    ensures Sane(Apply(s, l))
  {
    hide Base, Coherent, WorkerOk, Held, Undemanding, WorkApply, CallApply;
    match l
    case Work(w, a) => WorkKeepsSane(s, w, a);
    case Call(c, a) =>
      if TouchesTarget(a) {
        ChannelStepKeepsSane(s, c, a);
      } else {
        QuietStepKeepsSane(s, c, a);
      }
    case _ =>
      StepKeepsWf(s, l);
      var t := Apply(s, l);
      assert OwnerPhase(t) == OwnerPhase(s);
      assert forall j :: 0 <= j < |Lights(s.probes)| ==> Nth(t, j) == Nth(s, j);
  }

  lemma {:induction false} RunKeepsSane(s: State, ls: seq<Label>)
    requires Sane(s) && CanRun(s, ls)
    ensures Sane(Exec(s, ls))
    decreases |ls|
  {
    if ls != [] {
      StepKeepsSane(s, ls[0]);
      RunKeepsSane(Apply(s, ls[0]), ls[1..]);
    }
  }

  // ---- FR4 -----------------------------------------------------------------

  predicate NoStaleAck(s: State) {
    forall w :: 0 <= w < |s.workers| && IsLight(s, w) ==> s.workers[w].ack == 0
  }

  // Whatever an earlier session left in the command channels, a session that
  // starts without a queued ack satisfies the invariant.
  lemma StartIsInv(s: State)
    requires SessionStart(s)
    requires NoStaleAck(s)
    ensures Inv(s)
  {
    StartIsWf(s);
    forall j | 0 <= j < |Lights(s.probes)|
      ensures WorkerOk(s.workers[Nth(s, j)])
    {
      assert StartWorker(s.workers[Nth(s, j)], false);
    }
  }

  // While fn runs, every light worker is in its pause loop or has exited, its
  // ack has been collected and no CmdResume is on its way.
  lemma FnRunsAlone(s: State, c: nat, w: nat)
    requires Inv(s) && HasPhase(s, c, InFn) && IsLight(s, w)
    ensures Held(s.workers[w])
  {
    var j := Position(s, w);
    assert s.owner == Some(c) && OwnerPhase(s) == InFn;
    assert HeldFrom(s) <= j < HeldTo(s);
  }

  lemma InvNoOverlap(s: State)
    requires Inv(s)
    ensures !Overlap(s)
  {
    if Overlap(s) {
      var c, w :| 0 <= c < |s.callers| && 0 <= w < |s.workers|
        && s.callers[c].phase == InFn && IsLight(s, w) && s.workers[w].phase == Checking;
      FnRunsAlone(s, c, w);
    }
  }

  // FR4 over whole runs: any number of workers and callers, any interleaving,
  // any number of pauses aborted by cancellation, a Stop at any moment.
  lemma NoOverlap(s: State, ls: seq<Label>)
    requires SessionStart(s) && UncutRun(s, ls)
    requires NoStaleAck(s)
    ensures CanRun(s, ls) && !Overlap(Exec(s, ls))
  {
    StartIsInv(s);
    RunKeepsInv(s, ls);
    InvNoOverlap(Exec(s, ls));
  }

  // Acks never lie, and a worker about to acknowledge finds room for its ack: on
  // every run, whatever is cut.
  lemma AcksNeverLie(s: State, ls: seq<Label>, w: nat)
    requires SessionStart(s) && NoStaleAck(s) && CanRun(s, ls) && IsLight(s, w)
    ensures var x := Exec(s, ls).workers[w];
            && (x.ack != 0 ==> (x.phase == Paused || x.phase == Exited) && Resume !in x.cmd)
            && (x.phase == AckPending ==> WorkEnabled(Exec(s, ls), w, PushAck))
  {
    StartIsSane(s);
    RunKeepsSane(s, ls);
    var t := Exec(s, ls);
    var j := Position(t, w);
    assert WorkerOk(t.workers[Nth(t, j)]);
  }

  lemma StartIsSane(s: State)
    requires SessionStart(s) && NoStaleAck(s)
    ensures Sane(s)
  {
    StartIsInv(s);
    InvIsSane(s);
  }

  // At most one fn runs, and a worker that calls ExecuteExclusive is not among
  // those whose ack it awaits.
  lemma OneExclusiveTask(s: State, ls: seq<Label>, c: nat, d: nat)
    requires SessionStart(s) && CanRun(s, ls) && c < |s.callers| && d < |s.callers|
    ensures var t := Exec(s, ls);
            && (Inside(t.callers[c].phase) && Inside(t.callers[d].phase) ==> c == d)
            && (t.callers[c].phase != Idle && InLoop(t, d) ==> Target(t, d) != c)
  {
    StartIsWf(s);
    RunKeepsWf(s, ls);
  }

  lemma {:induction false} RunKeepsWf(s: State, ls: seq<Label>)
    requires Base(s) && CanRun(s, ls)
    ensures Base(Exec(s, ls)) && (Wf(s) ==> Wf(Exec(s, ls)))
    decreases |ls|
  {
    if ls != [] {
      StepKeepsWf(s, ls[0]);
      RunKeepsWf(Apply(s, ls[0]), ls[1..]);
    }
  }

  // ---- Refinement of a readers-writer machine ------------------------------------

  // Checks of light probes are reads, exclusive tasks are writes.
  datatype RW = RW(readers: set<nat>, writer: Option<nat>)

  // The specification: a read starts only while nobody writes, a write only
  // while nobody reads or writes.
  datatype RWStep = StartRead(r: nat) | EndRead(r: nat) | StartWrite(c: nat) | EndWrite | Stutter

  predicate RWEnabled(a: RW, step: RWStep) {
    match step
    case StartRead(r) => a.writer == None && r !in a.readers
    case EndRead(r) => r in a.readers
    case StartWrite(_) => a.writer == None && a.readers == {}
    case EndWrite => a.writer.Some?
    case Stutter => true
  }

  function RWApply(a: RW, step: RWStep): RW
    requires RWEnabled(a, step)
  {
    match step
    case StartRead(r) => a.(readers := a.readers + {r})
    case EndRead(r) => a.(readers := a.readers - {r})
    case StartWrite(c) => a.(writer := Some(c))
    case EndWrite => a.(writer := None)
    case Stutter => a
  }

  function Abstract(s: State): RW {
    RW(set w | 0 <= w < |s.workers| && IsLight(s, w) && s.workers[w].phase == Checking,
       if OwnerPhase(s) == InFn then s.owner else None)
  }

  // The abstract step a protocol step stands for.
  function Meaning(s: State, l: Label): RWStep
    requires Enabled(s, l)
  {
    match l
    case Work(w, Launch) => if IsLight(s, w) then StartRead(w) else Stutter
    case Work(w, StartCheck) => if IsLight(s, w) then StartRead(w) else Stutter
    case Work(w, FinishCheck) => if IsLight(s, w) then EndRead(w) else Stutter
    case Call(c, CommitPause) => StartWrite(c)
    case Call(c, EnterPause) => if s.running && s.paused then StartWrite(c) else Stutter
    case Call(c, FnReturn(_)) => EndWrite
    case _ => Stutter
  }

  lemma WorkReads(s: State, w: nat, a: WorkAct)
    requires Inv(s) && WorkEnabled(s, w, a)
    ensures var rs := Abstract(s).readers;
            Abstract(WorkApply(s, w, a)).readers ==
              if !IsLight(s, w) then rs
              else if a.Launch? || a.StartCheck? then rs + {w}
              else if a.FinishCheck? then rs - {w} else rs
    ensures IsLight(s, w) ==> (w in Abstract(s).readers <==> s.workers[w].phase == Checking)
  {
    hide Base, Coherent, WorkerOk;
    var t := WorkApply(s, w, a);
    if IsLight(s, w) {
      var j := Position(s, w);
      assert WorkerOk(s.workers[Nth(s, j)]);
    }
    assert forall v :: 0 <= v < |s.workers| && v != w ==> t.workers[v] == s.workers[v];
  }

  lemma WorkRefines(s: State, w: nat, a: WorkAct)
    requires Inv(s) && WorkEnabled(s, w, a)
    ensures var step := Meaning(s, Work(w, a));
            RWEnabled(Abstract(s), step) && Abstract(WorkApply(s, w, a)) == RWApply(Abstract(s), step)
  {
    WorkKeepsWf(s, w, a);
    WorkReads(s, w, a);
    if IsLight(s, w) && (a.Launch? || a.StartCheck?) && OwnerPhase(s) == InFn {
      FnRunsAlone(s, s.owner.value, w);
    }
  }

  lemma CallRefines(s: State, c: nat, a: CallAct)
    requires Inv(s) && CallEnabled(s, c, a) && Inv(CallApply(s, c, a))
    ensures var step := Meaning(s, Call(c, a));
            RWEnabled(Abstract(s), step) && Abstract(CallApply(s, c, a)) == RWApply(Abstract(s), step)
  {
    var t := CallApply(s, c, a);
    var step := Meaning(s, Call(c, a));
    CallFrame(s, c, a);
    CallMovesOwner(s, c, a);
    assert Abstract(t).readers == Abstract(s).readers;
    if step.StartWrite? {
      forall v | v in Abstract(s).readers
        ensures false
      {
        FnRunsAlone(t, c, v);
      }
    }
  }

  // Every step of the protocol is a step of the readers-writer machine.
  lemma StepRefines(s: State, l: Label)
    requires Inv(s) && Enabled(s, l) && !IsPartialCut(s, l)
    ensures var step := Meaning(s, l);
            RWEnabled(Abstract(s), step) && Abstract(Apply(s, l)) == RWApply(Abstract(s), step)
  {
    match l
    case Work(w, a) => WorkRefines(s, w, a);
    case Call(c, a) =>
      CallKeepsInv(s, c, a);
      CallRefines(s, c, a);
    case _ =>
      assert Abstract(Apply(s, l)).readers == Abstract(s).readers;
  }

  predicate RWRun(a: RW, steps: seq<RWStep>, b: RW)
    decreases |steps|
  {
    if steps == [] then a == b
    else RWEnabled(a, steps[0]) && RWRun(RWApply(a, steps[0]), steps[1..], b)
  }

  // Every run of the protocol is, step by step, a run of the readers-writer machine.
  lemma {:induction false} RunRefines(s: State, ls: seq<Label>) returns (steps: seq<RWStep>)
    requires Inv(s) && UncutRun(s, ls)
    ensures CanRun(s, ls) && |steps| == |ls| && RWRun(Abstract(s), steps, Abstract(Exec(s, ls)))
    decreases |ls|
  {
    if ls == [] {
      steps := [];
    } else {
      StepKeepsInv(s, ls[0]);
      StepRefines(s, ls[0]);
      var rest := RunRefines(Apply(s, ls[0]), ls[1..]);
      steps := [Meaning(s, ls[0])] + rest;
    }
  }
}
