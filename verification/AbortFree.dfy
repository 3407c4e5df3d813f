// Sessions in which no PauseAll gives up: the channels are empty while fn runs,
// and the CmdResume of the deferred ResumeAll never have to wait.
module AbortFree {
  import opened Wrappers
  import opened Session
  import opened Safety
  import opened Recovery

  predicate NoAbort(ls: seq<Label>) {
    forall l :: l in ls ==> !(l.Call? && l.call.AbortPause?)
  }

  predicate Alternating(q: seq<Command>) {
    forall k :: 0 <= k < |q| ==> q[k] == if k % 2 == 0 then Pause else Resume
  }

  predicate Active(x: Worker) {
    x.phase == NotStarted || x.phase == Checking || x.phase == Selecting
  }

  // Not part of the current round: as many resumes sent as pauses.
  predicate Fresh(x: Worker) {
    && |x.log.sent| % 2 == 0 && x.ack == 0
    && ((x.cmd == [] && (Active(x) || x.phase == Exited)) || (x.cmd == [Resume] && Stopped(x)))
  }

  // Sent this round's CmdPause, ack not collected yet.
  predicate Summoned(x: Worker) {
    && |x.log.sent| % 2 == 1
    && (|| (x.cmd == [Pause] && x.ack == 0 && (Active(x) || x.phase == Exited))
        || (x.cmd == [] && x.ack == 0 && (x.phase == AckPending || x.phase == Exited))
        || (x.cmd == [] && x.ack == 1 && Stopped(x)))
  }

  // Ack collected, CmdResume not sent yet.
  predicate Quiet(x: Worker) {
    |x.log.sent| % 2 == 1 && x.cmd == [] && x.ack == 0 && Stopped(x)
  }

  predicate InOrder(s: State, j: nat)
    requires j < |Lights(s.probes)|
  {
    var x := s.workers[Nth(s, j)];
    && Alternating(x.log.sent)
    && (if IsHeld(s, j) then Quiet(x)
        else if IsCommanded(s, j) then Summoned(x)
        else s.running || OwnerPhase(s).Broadcasting? ==> Fresh(x))
  }

  predicate AllInOrder(s: State) {
    forall j :: 0 <= j < |Lights(s.probes)| ==> InOrder(s, j)
  }

  lemma WorkKeepsStage(x: Worker, a: WorkAct)
    requires LocallyEnabled(x, a)
    ensures WorkerAfter(x, false, a).log.sent == x.log.sent
    ensures Quiet(x) ==> Quiet(WorkerAfter(x, false, a))
    ensures Summoned(x) ==> Summoned(WorkerAfter(x, false, a))
    ensures Fresh(x) ==> Fresh(WorkerAfter(x, false, a))
  {
  }

  lemma WorkKeepsOrder(s: State, w: nat, a: WorkAct)
    requires Wf(s) && AllInOrder(s) && WorkEnabled(s, w, a)
    ensures AllInOrder(WorkApply(s, w, a))
  {
    hide Quiet, Summoned, Fresh, Alternating, WorkApply, WorkerAfter, Base, Coherent;
    WorkFrame(s, w, a);
    WorkKeepsWf(s, w, a);
    var t := WorkApply(s, w, a);
    forall j | 0 <= j < |Lights(s.probes)|
      ensures InOrder(t, j)
    {
      assert InOrder(s, j) && Nth(t, j) == Nth(s, j);
      if Nth(s, j) == w {
        WorkKeepsStage(s.workers[w], a);
      }
    }
  }

  lemma TargetChangesStage(x: Worker, a: CallAct)
    requires TouchesTarget(a) && Alternating(x.log.sent)
    requires if a.SendPause? then Fresh(x) && x.cmd == []
             else if a.CollectAck? then Summoned(x) && x.ack > 0 else Quiet(x)
    ensures var y := TargetAfter(x, a);
            && Alternating(y.log.sent)
            && if a.SendPause? then Summoned(y) else if a.CollectAck? then Quiet(y) else Fresh(y)
  {
    if !a.CollectAck? {
      assert TargetAfter(x, a).cmd == [if a.SendPause? then Pause else Resume];
    }
  }

  lemma ChannelStepKeepsOrder(s: State, c: nat, a: CallAct)
    requires Wf(s) && AllInOrder(s) && CallEnabled(s, c, a) && TouchesTarget(a)
    ensures AllInOrder(CallApply(s, c, a))
  {
    hide Quiet, Summoned, Fresh, Alternating, TargetAfter, CallApply;
    CallFrame(s, c, a);
    CallFrameWorkers(s, c, a);
    CallMovesOwner(s, c, a);
    var t := CallApply(s, c, a);
    var i := LoopIndex(s.callers[c].phase);
    assert InOrder(s, i);
    TargetChangesStage(s.workers[Nth(s, i)], a);
    forall j | 0 <= j < |Lights(s.probes)|
      ensures InOrder(t, j)
    {
      NthInjective(s, i, j);
      assert Nth(t, j) == Nth(s, j) && InOrder(s, j);
      assert t.workers[Nth(t, j)] == if j == i then TargetAfter(s.workers[Nth(s, i)], a) else s.workers[Nth(s, j)];
    }
  }

  lemma QuietStepKeepsOrder(s: State, c: nat, a: CallAct)
    requires Wf(s) && AllInOrder(s) && CallEnabled(s, c, a)
    requires !TouchesTarget(a) && !a.AbortPause? && !IsPartialCut(s, Call(c, a))
    ensures AllInOrder(CallApply(s, c, a))
  {
    hide Quiet, Summoned, Fresh, Alternating, CallApply;
    CallFrame(s, c, a);
    CallFrameWorkers(s, c, a);
    CallMovesOwner(s, c, a);
    var t := CallApply(s, c, a);
    assert t.workers == s.workers;
    forall j | 0 <= j < |Lights(s.probes)|
      ensures InOrder(t, j)
    {
      assert InOrder(s, j) && Nth(t, j) == Nth(s, j);
      assert IsHeld(t, j) ==> IsHeld(s, j);
      assert IsCommanded(t, j) <==> IsCommanded(s, j);
      assert s.running ==> (IsHeld(t, j) <==> IsHeld(s, j));
    }
  }

  lemma StepKeepsOrder(s: State, l: Label)
    requires Wf(s) && AllInOrder(s) && Enabled(s, l)
    requires !IsPartialCut(s, l) && !(l.Call? && l.call.AbortPause?)
    ensures AllInOrder(Apply(s, l))
  {
    hide Quiet, Summoned, Fresh, Alternating;
    match l
    case Work(w, a) => WorkKeepsOrder(s, w, a);
    case Call(c, a) =>
      if TouchesTarget(a) {
        ChannelStepKeepsOrder(s, c, a);
      } else {
        QuietStepKeepsOrder(s, c, a);
      }
    case _ =>
      var t := Apply(s, l);
      assert OwnerPhase(t) == OwnerPhase(s);
      forall j | 0 <= j < |Lights(s.probes)|
        ensures InOrder(t, j)
      {
        assert InOrder(s, j) && Nth(t, j) == Nth(s, j);
      }
  }

  lemma {:induction false} RunKeepsOrder(s: State, ls: seq<Label>)
    requires Wf(s) && AllInOrder(s) && UncutRun(s, ls) && NoAbort(ls)
    ensures CanRun(s, ls) && Wf(Exec(s, ls)) && AllInOrder(Exec(s, ls))
    decreases |ls|
  {
    if ls != [] {
      assert ls[0] in ls;
      StepKeepsWf(s, ls[0]);
      StepKeepsOrder(s, ls[0]);
      RunKeepsOrder(Apply(s, ls[0]), ls[1..]);
    }
  }

  lemma CleanStartInOrder(s: State)
    requires CleanStart(s)
    ensures Wf(s) && AllInOrder(s)
  {
    StartIsWf(s);
    forall j | 0 <= j < |Lights(s.probes)|
      ensures InOrder(s, j)
    {
      assert StartWorker(s.workers[Nth(s, j)], false);
    }
  }

  // While fn runs all channels are empty and stay so, and in the deferred
  // ResumeAll every send is enabled the moment its turn comes, so that the 5s
  // deadline is never what decides the outcome. The commands a light worker is
  // sent alternate, starting with CmdPause.
  lemma ResumeNeverBlocks(s: State, ls: seq<Label>, c: nat, w: nat)
    requires CleanStart(s) && UncutRun(s, ls) && NoAbort(ls)
    requires c < |s.callers| && IsLight(s, w)
    ensures CanRun(s, ls)
    ensures var t := Exec(s, ls);
            var x := t.workers[w];
            && Alternating(x.log.sent)
            && (t.callers[c].phase == InFn ==> x.cmd == [] && x.ack == 0)
            && (t.callers[c].phase.Resuming? && InLoop(t, c) ==> CallEnabled(t, c, SendResume))
  {
    CleanStartInOrder(s);
    RunKeepsOrder(s, ls);
    var t := Exec(s, ls);
    var j := Position(t, w);
    assert InOrder(t, j);
    if Inside(t.callers[c].phase) {
      assert t.owner == Some(c);
      if t.callers[c].phase.Resuming? && InLoop(t, c) {
        assert InOrder(t, LoopIndex(t.callers[c].phase));
      }
    }
  }
}
