// Exactly when exclusive execution is still possible after a PauseAll has given
// up in a session that is still alive.
module AbortedPauses {
  import opened Wrappers
  import opened Session
  import opened Safety
  import opened Recovery
  import opened Progress

  // A PauseAll gives up after it has collected at least one ack.
  predicate IsAbortWithAcks(s: State, l: Label) {
    && l.Call? && l.call.AbortPause? && l.c < |s.callers|
    && s.callers[l.c].phase.Collecting? && s.callers[l.c].phase.i > 0
  }

  predicate AbortsWithAcks(s: State, ls: seq<Label>)
    requires CanRun(s, ls)
    decreases |ls|
  {
    ls != [] && (IsAbortWithAcks(s, ls[0]) || AbortsWithAcks(Apply(s, ls[0]), ls[1..]))
  }

  lemma StepLosesByAbort(s: State, l: Label)
    requires Wf(s) && Enabled(s, l)
    ensures IsAbortWithAcks(s, l) ==> Apply(s, l).lost != {}
    ensures !IsAbortWithAcks(s, l) ==> Apply(s, l).lost == s.lost
  {
    hide Base, Coherent, TargetAfter, WorkerAfter;
    if l.Call? && l.call.AbortPause? && s.callers[l.c].phase.Collecting? {
      var i := s.callers[l.c].phase.i;
      if i > 0 {
        assert Nth(s, 0) in Collected(s, i);
      } else {
        assert Collected(s, i) == {};
      }
    }
  }

  lemma {:induction false} LostExactlyByAborts(s: State, ls: seq<Label>)
    requires Wf(s) && CanRun(s, ls)
    ensures s.lost <= Exec(s, ls).lost
    ensures s.lost == {} ==> (Exec(s, ls).lost != {} <==> AbortsWithAcks(s, ls))
    decreases |ls|
  {
    if ls != [] {
      StepKeepsWf(s, ls[0]);
      StepLoses(s, ls[0]);
      StepLosesByAbort(s, ls[0]);
      LostExactlyByAborts(Apply(s, ls[0]), ls[1..]);
    }
  }

  // The ResumeAll of the failure path never sends anything, whatever happened.
  lemma FailedPauseResumesNobody(s: State, ls: seq<Label>, c: nat)
    requires SessionStart(s) && CanRun(s, ls) && HasPhase(Exec(s, ls), c, ResumeEntry(false))
    ensures var t := Exec(s, ls);
            && CallApply(t, c, EnterResume).workers == t.workers
            && HasPhase(CallApply(t, c, EnterResume), c, Unlocking)
  {
    StartIsWf(s);
    RunKeepsWf(s, ls);
    var t := Exec(s, ls);
    assert Inside(t.callers[c].phase) && t.owner == Some(c);
    assert OwnerOk(t, OwnerPhase(t));
  }

  // A worker whose ack was collected by a call that aborted stays in its pause
  // loop as long as the run context is alive, whatever is tried afterwards.
  lemma StrandedUntilCancelled(s: State, ls: seq<Label>, ms: seq<Label>, w: nat)
    requires SessionStart(s) && NoStaleAck(s) && CanRun(s, ls) && Live(ls) && w in Exec(s, ls).lost
    requires CanRun(Exec(s, ls), ms) && Live(ms)
    ensures w < |s.workers| && Stranded(Exec(Exec(s, ls), ms).workers[w])
  {
    StartIsSane(s);
    StartIsLostOk(s);
    RunKeepsLostOk(s, ls);
    RunKeepsLostOk(Exec(s, ls), ms);
    var t := Exec(Exec(s, ls), ms);
    var j := Position(t, w);
    assert Accounted(t, j);
  }

  lemma LostBlocksFn(s: State, c: nat)
    requires Sane(s) && LostOk(s) && !s.cancelled && HasPhase(s, c, InFn)
    ensures s.lost == {}
  {
    assert Inside(s.callers[c].phase) && s.owner == Some(c);
  }

  // From a state in which exclusiveMu is free and nobody has been lost, a caller
  // that waits for it can be brought into fn.
  lemma CanEnterFn(s: State, c: nat) returns (ls: seq<Label>)
    requires Sane(s) && LostOk(s) && !s.cancelled && s.lost == {} && s.owner == None && HasPhase(s, c, Waiting)
    ensures UncutRun(s, ls) && Live(ls) && CanRun(s, ls) && HasPhase(Exec(s, ls), c, InFn)
  {
    var lock := Call(c, Lock);
    StepKeepsSane(s, lock);
    StepKeepsLostOk(s, lock);
    var t := Apply(s, lock);
    CallMovesOwner(s, c, Lock);
    if t.paused {
      var enter := Call(c, EnterPause);
      ls := [lock, enter];
      assert ls[1..] == [enter] && [enter][1..] == [];
      assert Wf(t) && t.running;
      assert Exec(t, [enter]) == Apply(t, enter);
    } else {
      ReachableIsResponsive(t);
      var rest := ReachFn(t, c);
      ls := [lock] + rest;
      assert ls[1..] == rest;
    }
  }

  lemma ForwardStepWaits(s: State, l: Label, d: nat, c: nat)
    requires Wf(s) && Enabled(s, l) && IsForward(l, d) && c != d && HasPhase(s, c, Waiting)
    ensures HasPhase(Apply(s, l), c, Waiting) && Apply(s, l).lost == s.lost
  {
    StepLosesByAbort(s, l);
    if l.Work? {
      WorkFrame(s, l.w, l.act);
    } else {
      CallFrame(s, l.c, l.call);
    }
  }

  // A caller waiting for exclusiveMu goes on waiting while steps that serve the
  // holder's call are taken, and those lose nobody.
  lemma {:induction false} WaitsMeanwhile(s: State, ls: seq<Label>, d: nat, c: nat)
    requires Wf(s) && CanRun(s, ls) && c != d && HasPhase(s, c, Waiting)
    requires forall l :: l in ls ==> IsForward(l, d)
    ensures HasPhase(Exec(s, ls), c, Waiting) && Exec(s, ls).lost == s.lost
    ensures Live(ls)
    decreases |ls|
  {
    if ls != [] {
      assert ls[0] in ls && IsForward(ls[0], d);
      StepKeepsWf(s, ls[0]);
      ForwardStepWaits(s, ls[0], d, c);
      WaitsMeanwhile(Apply(s, ls[0]), ls[1..], d, c);
    }
  }

  // Whoever holds exclusiveMu can be brought to release it, nobody giving up.
  lemma DriveOut(s: State, d: nat) returns (ls: seq<Label>)
    requires Sane(s) && LostOk(s) && !s.cancelled && s.lost == {} && s.owner == Some(d)
    ensures UncutRun(s, ls) && CanRun(s, ls) && Exec(s, ls).owner == None
    ensures forall l :: l in ls ==> IsForward(l, d)
  {
    ReachableIsResponsive(s);
    var p := s.callers[d].phase;
    if p == ResumeEntry(false) || (p.Unlocking? && s.paused) {
      ls := FailOut(s, d);
    } else if p.PauseEntry? && s.paused {
      ls := EnterPaused(s, d);
      var t := Exec(s, ls);
      ReachableIsResponsive(t);
      var rest := FinishCall(t, d);
      UncutConcat(s, ls, rest);
      ls := ls + rest;
    } else if BeforeFn(p) {
      ls := ReachFn(s, d);
      var t := Exec(s, ls);
      assert Inside(t.callers[d].phase);
      var rest := FinishCall(t, d);
      UncutConcat(s, ls, rest);
      ls := ls + rest;
    } else {
      ls := FinishCall(s, d);
    }
  }

  // The end of a call whose pause failed, or whose resume met its deadline.
  lemma FailOut(s: State, d: nat) returns (ls: seq<Label>)
    requires Sane(s) && s.owner == Some(d)
    requires s.callers[d].phase == ResumeEntry(false) || s.callers[d].phase == Unlocking
    ensures UncutRun(s, ls) && CanRun(s, ls) && Exec(s, ls).owner == None
    ensures forall l :: l in ls ==> IsForward(l, d)
    decreases s.callers[d].phase.ResumeEntry?
  {
    assert OwnerOk(s, OwnerPhase(s));
    if s.callers[d].phase == Unlocking {
      ls := [Call(d, Unlock)];
      assert ls[1..] == [];
      assert Exec(s, ls) == Apply(s, ls[0]);
    } else {
      var t := CallApply(s, d, EnterResume);
      StepKeepsSane(s, Call(d, EnterResume));
      var rest := FailOut(t, d);
      ls := [Call(d, EnterResume)] + rest;
      assert ls[1..] == rest;
    }
  }

  // `paused` can still be set from a call whose resume met its deadline before
  // anything was sent: the next call is in fn at once.
  lemma EnterPaused(s: State, d: nat) returns (ls: seq<Label>)
    requires Sane(s) && LostOk(s) && !s.cancelled && s.lost == {} && s.owner == Some(d)
    requires s.callers[d].phase == PauseEntry && s.paused
    ensures UncutRun(s, ls) && CanRun(s, ls) && (forall l :: l in ls ==> IsForward(l, d))
    ensures var t := Exec(s, ls);
            && Sane(t) && LostOk(t) && !t.cancelled && t.running && t.lost == {}
            && t.owner == Some(d) && HasPhase(t, d, InFn)
  {
    StepKeepsSane(s, Call(d, EnterPause));
    StepKeepsLostOk(s, Call(d, EnterPause));
    ls := [Call(d, EnterPause)];
    assert ls[1..] == [];
    assert Exec(s, ls) == Apply(s, ls[0]);
  }

  // After any live run, a call waiting for exclusiveMu, whoever holds it, can
  // still reach fn if and only if no PauseAll so far gave up after collecting an ack.
  lemma ExactRecovery(s: State, ls: seq<Label>, c: nat)
    requires SessionStart(s) && NoStaleAck(s) && CanRun(s, ls) && Live(ls)
    requires HasPhase(Exec(s, ls), c, Waiting)
    ensures (exists ms :: CanReachFn(Exec(s, ls), ms, c)) <==> !AbortsWithAcks(s, ls)
  {
    StartIsSane(s);
    StartIsLostOk(s);
    RunKeepsLostOk(s, ls);
    LostExactlyByAborts(s, ls);
    var t := Exec(s, ls);
    if t.lost == {} {
      var ms := WaitAndEnterFn(t, c);
      assert CanReachFn(t, ms, c);
    } else {
      forall ms | CanReachFn(t, ms, c)
        ensures false
      {
        RunKeepsLostOk(t, ms);
        LostBlocksFn(Exec(t, ms), c);
      }
    }
  }

  lemma WaitAndEnterFn(t: State, c: nat) returns (ms: seq<Label>)
    requires Sane(t) && LostOk(t) && !t.cancelled && t.lost == {} && HasPhase(t, c, Waiting)
    ensures CanReachFn(t, ms, c)
  {
    if t.owner == None {
      ms := CanEnterFn(t, c);
    } else {
      var d := t.owner.value;
      var out := DriveOut(t, d);
      WaitsMeanwhile(t, out, d, c);
      RunKeepsLostOk(t, out);
      var rest := CanEnterFn(Exec(t, out), c);
      UncutConcat(t, out, rest);
      ms := out + rest;
    }
  }

  predicate CanReachFn(s: State, ms: seq<Label>, c: nat) {
    CanRun(s, ms) && Live(ms) && HasPhase(Exec(s, ms), c, InFn)
  }
}
