// What a PauseAll that gives up leaves behind. The failure path of
// ExecuteExclusive calls ResumeAll, but `paused` is still false then, so nothing
// is sent: a worker whose ack the aborted loop had already collected stays in
// its pause loop, and swallows every later CmdPause there without acknowledging.
module Recovery {
  import opened Session
  import opened Safety

  // In the pause loop, with no ack left to collect and no CmdResume coming.
  predicate Stranded(x: Worker) {
    x.phase == Paused && x.ack == 0 && x.cmd != [Resume]
  }

  // The worker has an ack queued, or will queue one by its own steps alone.
  predicate Owes(x: Worker) {
    || x.ack == 1
    || x.phase == AckPending
    || ((x.phase == NotStarted || x.phase == Checking || x.phase == Selecting) && x.cmd == [Pause])
  }

  // The positions [CommandedFrom, CommandedTo) whose workers have been sent this
  // round's CmdPause and whose ack has not been collected yet.
  function CommandedFrom(s: State): nat {
    if OwnerPhase(s).Collecting? then LoopIndex(OwnerPhase(s)) else 0
  }

  function CommandedTo(s: State): nat {
    if OwnerPhase(s).Collecting? then s.handles
    else if OwnerPhase(s).Broadcasting? then LoopIndex(OwnerPhase(s)) else 0
  }

  predicate IsHeld(s: State, j: nat) {
    HeldFrom(s) <= j < HeldTo(s)
  }

  predicate IsCommanded(s: State, j: nat) {
    CommandedFrom(s) <= j < CommandedTo(s)
  }

  // While the run context is alive, `lost` is exactly the set of stranded workers,
  // and nobody is lost once a pause has been completed.
  predicate Accounted(s: State, j: nat)
    requires j < |Lights(s.probes)|
  {
    var x := s.workers[Nth(s, j)];
    && x.phase != Exited
    && (if IsHeld(s, j) then Nth(s, j) !in s.lost else (Stranded(x) <==> Nth(s, j) in s.lost))
    && (IsCommanded(s, j) && Nth(s, j) !in s.lost ==> Owes(x))
  }

  predicate LostOk(s: State) {
    && (forall w :: w in s.lost ==> IsLight(s, w))
    && (!s.cancelled ==> forall j :: 0 <= j < |Lights(s.probes)| ==> Accounted(s, j))
    && (!s.cancelled && PastPause(s) ==> s.lost == {})
  }

  lemma StartIsLostOk(s: State)
    requires SessionStart(s)
    ensures LostOk(s)
  {
    forall j | 0 <= j < |Lights(s.probes)|
      ensures Accounted(s, j)
    {
      assert StartWorker(s.workers[Nth(s, j)], false);
    }
  }

  // ---- Every step keeps it -----------------------------------------------------

  lemma LightStepKeepsDebt(x: Worker, a: WorkAct)
    requires WorkerOk(x) && LocallyEnabled(x, a) && a != Exit
    ensures var y := WorkerAfter(x, false, a);
            && (x.phase != Exited ==> y.phase != Exited)
            && (Owes(x) ==> Owes(y))
            && (Stranded(x) <==> Stranded(y))
  {
  }

  lemma WorkKeepsLostOk(s: State, w: nat, a: WorkAct)
    requires Sane(s) && LostOk(s) && WorkEnabled(s, w, a)
    ensures LostOk(WorkApply(s, w, a))
  {
    hide WorkApply, WorkerAfter;
    WorkFrame(s, w, a);
    WorkKeepsWf(s, w, a);
    var t := WorkApply(s, w, a);
    if !s.cancelled {
      forall j | 0 <= j < |Lights(s.probes)|
        ensures Accounted(t, j)
      {
        assert Nth(t, j) == Nth(s, j) && Accounted(s, j);
        if Nth(s, j) == w {
          LightStepKeepsDebt(s.workers[w], a);
        }
      }
    }
  }

  // Sending to, or collecting from, the worker whose turn it is.
  lemma TargetStepKeepsDebt(x: Worker, a: CallAct)
    requires WorkerOk(x) && TouchesTarget(a) && x.phase != Exited
    requires if a.CollectAck? then x.ack > 0 else x.cmd == []
    ensures TargetAfter(x, a).phase != Exited
    ensures a.SendPause? ==> (Stranded(x) <==> Stranded(TargetAfter(x, a))) && (Stranded(x) || Owes(TargetAfter(x, a)))
    ensures a.CollectAck? ==> !Stranded(x)
    ensures a.SendResume? ==> !Stranded(TargetAfter(x, a))
  {
    if !a.CollectAck? {
      assert TargetAfter(x, a).cmd == [if a.SendPause? then Pause else Resume];
      assert TargetAfter(x, a).cmd[0] == if a.SendPause? then Pause else Resume;
    }
  }

  lemma ChannelStepKeepsLostOk(s: State, c: nat, a: CallAct)
    requires Sane(s) && LostOk(s) && CallEnabled(s, c, a) && TouchesTarget(a)
    ensures LostOk(CallApply(s, c, a))
  {
    hide TargetAfter, WorkerOk, Released, Owes;
    CallMovesOwner(s, c, a);
    var t := CallApply(s, c, a);
    var i := LoopIndex(s.callers[c].phase);
    var x := s.workers[Nth(s, i)];
    if !s.cancelled {
      assert Accounted(s, i) && WorkerOk(x);
      TargetStepKeepsDebt(x, a);
      forall j | 0 <= j < |Lights(s.probes)|
        ensures Accounted(t, j)
      {
        NthInjective(s, i, j);
        assert Nth(t, j) == Nth(s, j) && Accounted(s, j);
        assert t.workers[Nth(t, j)] == if j == i then TargetAfter(x, a) else s.workers[Nth(s, j)];
      }
    }
  }

  lemma AbortKeepsLostOk(s: State, c: nat)
    requires Sane(s) && LostOk(s) && CallEnabled(s, c, AbortPause)
    ensures LostOk(CallApply(s, c, AbortPause))
  {
    CallMovesOwner(s, c, AbortPause);
    var t := CallApply(s, c, AbortPause);
    var p := s.callers[c].phase;
    if !s.cancelled {
      forall j | 0 <= j < |Lights(s.probes)|
        ensures Accounted(t, j)
      {
        assert Nth(t, j) == Nth(s, j) && Accounted(s, j);
        assert !IsHeld(t, j) && !IsCommanded(t, j);
        if IsHeld(s, j) {
          assert Held(s.workers[Nth(s, j)]);
          assert Nth(s, j) in Collected(s, p.i);
        } else {
          forall k | p.Collecting? && 0 <= k < p.i
            ensures Nth(s, k) != Nth(s, j)
          {
            NthInjective(s, j, k);
          }
          assert Nth(s, j) in t.lost <==> Nth(s, j) in s.lost;
        }
      }
    }
  }

  // A pause can be completed only if nobody is lost.
  lemma CommitLosesNobody(s: State, c: nat)
    requires Sane(s) && LostOk(s) && !s.cancelled && CallEnabled(s, c, CommitPause)
    ensures s.lost == {}
  {
    CallMovesOwner(s, c, CommitPause);
    forall w | w in s.lost
      ensures exists j: nat :: j < |Lights(s.probes)| && Nth(s, j) == w && !IsHeld(s, j)
    {
      var j := Position(s, w);
      assert Accounted(s, j);
    }
  }

  // Who is held and who is commanded changes only where nobody is lost.
  lemma QuietRoles(s: State, c: nat, a: CallAct, j: nat)
    requires Base(s) && Coherent(s, OwnerPhase(s)) && !s.cancelled && CallEnabled(s, c, a)
    requires !TouchesTarget(a) && !a.AbortPause? && j < |Lights(s.probes)|
    ensures var t := CallApply(s, c, a);
            && (IsCommanded(t, j) <==> IsCommanded(s, j))
            && (IsHeld(t, j) <==> IsHeld(s, j) || IsPartialCut(s, Call(c, a)))
  {
    hide CallApply;
    CallFrame(s, c, a);
    CallMovesOwner(s, c, a);
  }

  lemma QuietStepKeepsLostOk(s: State, c: nat, a: CallAct)
    requires Sane(s) && LostOk(s) && CallEnabled(s, c, a) && !TouchesTarget(a) && !a.AbortPause?
    ensures LostOk(CallApply(s, c, a))
  {
    hide WorkerOk, Held, Undemanding, Stranded, Owes, IsHeld, IsCommanded;
    CallFrame(s, c, a);
    CallMovesOwner(s, c, a);
    var t := CallApply(s, c, a);
    assert t.workers == s.workers && t.lost == s.lost;
    if !s.cancelled {
      if a.CommitPause? {
        CommitLosesNobody(s, c);
      }
      forall j | 0 <= j < |Lights(s.probes)|
        ensures Accounted(t, j)
      {
        QuietRoles(s, c, a, j);
        assert Nth(t, j) == Nth(s, j) && Accounted(s, j);
      }
    }
  }

  lemma StepKeepsLostOk(s: State, l: Label)
    requires Sane(s) && LostOk(s) && Enabled(s, l)
    ensures LostOk(Apply(s, l))
  {
    hide Sane, Stranded, Owes, WorkApply, CallApply;
    match l
    case Work(w, a) => WorkKeepsLostOk(s, w, a);
    case Call(c, a) =>
      if TouchesTarget(a) {
        ChannelStepKeepsLostOk(s, c, a);
      } else if a.AbortPause? {
        AbortKeepsLostOk(s, c);
      } else {
        QuietStepKeepsLostOk(s, c, a);
      }
    case CancelCall(_) =>
      var t := Apply(s, l);
      assert OwnerPhase(t) == OwnerPhase(s);
      assert forall j :: 0 <= j < |Lights(s.probes)| && Accounted(s, j) ==> Accounted(t, j);
    case _ =>
  }

  lemma {:induction false} RunKeepsLostOk(s: State, ls: seq<Label>)
    requires Sane(s) && LostOk(s) && CanRun(s, ls)
    ensures Sane(Exec(s, ls)) && LostOk(Exec(s, ls))
    ensures s.lost <= Exec(s, ls).lost
    ensures Live(ls) ==> Exec(s, ls).cancelled == s.cancelled && Exec(s, ls).running == s.running
    decreases |ls|
  {
    if ls != [] {
      StepKeepsSane(s, ls[0]);
      StepKeepsLostOk(s, ls[0]);
      StepLoses(s, ls[0]);
      RunKeepsLostOk(Apply(s, ls[0]), ls[1..]);
    }
  }

  // `lost` only grows, and a step other than a cancellation of the run leaves the
  // run context and `running` as they are.
  lemma StepLoses(s: State, l: Label)
    requires Enabled(s, l)
    ensures s.lost <= Apply(s, l).lost
    ensures !l.CancelRun? && !l.StopRun? ==> Apply(s, l).cancelled == s.cancelled && Apply(s, l).running == s.running
  {
  }
}
