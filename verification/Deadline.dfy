// The 5s deadline of the deferred ResumeAll. When it fires part-way, `paused`
// stays true and the next PauseAll returns at once (its early return), although
// the workers already resumed are measuring again.
module Deadline {
  import opened Wrappers
  import opened Session
  import opened Safety
  import opened Recovery

  // Some continuation, without a further part-way cut, breaks FR4.
  predicate LeadsToOverlap(s: State, ls: seq<Label>) {
    UncutRun(s, ls) && CanRun(s, ls) && Overlap(Exec(s, ls))
  }

  // One more step in front of a continuation.
  lemma Prepend(s: State, l: Label, ls: seq<Label>)
    requires Enabled(s, l) && !l.Call? && LeadsToOverlap(Apply(s, l), ls)
    ensures LeadsToOverlap(s, [l] + ls)
  {
    assert ([l] + ls)[1..] == ls;
  }

  lemma PrependCall(s: State, c: nat, a: CallAct, ls: seq<Label>)
    requires CallEnabled(s, c, a) && !IsPartialCut(s, Call(c, a)) && LeadsToOverlap(CallApply(s, c, a), ls)
    ensures LeadsToOverlap(s, [Call(c, a)] + ls)
  {
    assert ([Call(c, a)] + ls)[1..] == ls;
  }

  lemma PrependRun(s: State, ls: seq<Label>, ms: seq<Label>)
    requires UncutRun(s, ls) && CanRun(s, ls) && LeadsToOverlap(Exec(s, ls), ms)
    ensures LeadsToOverlap(s, ls + ms)
  {
    UncutConcat(s, ls, ms);
  }

  // `paused` is set, nobody holds exclusiveMu and a light worker is measuring:
  // a waiting caller enters fn at once.
  lemma StalePauseEntersFn(s: State, c: nat, w: nat) returns (ls: seq<Label>)
    requires s.running && s.paused && s.owner == None && HasPhase(s, c, Waiting)
    requires IsLight(s, w) && s.workers[w].phase == Checking
    ensures LeadsToOverlap(s, ls)
  {
    var t := CallApply(s, c, Lock);
    var u := CallApply(t, c, EnterPause);
    assert u.callers[c].phase == InFn && u.workers[w].phase == Checking;
    assert Overlap(u) && Exec(u, []) == u;
    PrependCall(t, c, EnterPause, []);
    PrependCall(s, c, Lock, [Call(c, EnterPause)] + []);
    ls := [Call(c, Lock)] + ([Call(c, EnterPause)] + []);
  }

  // The same once the caller has unlocked: it comes back for another call.
  lemma StalePauseReentered(s: State, c: nat, w: nat) returns (ls: seq<Label>)
    requires s.running && s.paused && HasPhase(s, c, Unlocking)
    requires c < |s.workers| ==> s.probes[c].exclusive && s.workers[c].phase == Checking
    requires IsLight(s, w) && s.workers[w].phase == Checking
    ensures LeadsToOverlap(s, ls)
  {
    var t := CallApply(s, c, Unlock);
    if c >= |s.workers| {
      var rest := StalePauseEntersFn(CallApply(t, c, Request), c, w);
      PrependCall(t, c, Request, rest);
      ls := [Call(c, Request)] + rest;
    } else {
      var t1 := WorkApply(t, c, FinishCheck);
      var t2 := WorkApply(t1, c, Tick);
      var rest := StalePauseEntersFn(WorkApply(t2, c, StartCheck), c, w);
      Prepend(t2, Work(c, StartCheck), rest);
      Prepend(t1, Work(c, Tick), [Work(c, StartCheck)] + rest);
      Prepend(t, Work(c, FinishCheck), [Work(c, Tick)] + ([Work(c, StartCheck)] + rest));
      ls := [Work(c, FinishCheck)] + ([Work(c, Tick)] + ([Work(c, StartCheck)] + rest));
    }
    PrependCall(s, c, Unlock, ls);
    ls := [Call(c, Unlock)] + ls;
  }

  // A light worker that has been sent its CmdResume measures again.
  lemma ReleasedMeasures(s: State, c: nat, w: nat) returns (ls: seq<Label>)
    requires s.running && s.paused && HasPhase(s, c, Unlocking)
    requires c < |s.workers| ==> s.probes[c].exclusive && s.workers[c].phase == Checking
    requires IsLight(s, w) && s.callers[w].phase == Idle
    requires Released(s.workers[w]) && s.workers[w].phase != Exited
    ensures LeadsToOverlap(s, ls)
    decreases if s.workers[w].phase == Checking then 0 else if s.workers[w].phase == Selecting then 1 else 2
  {
    if s.workers[w].phase == Checking {
      ls := StalePauseReentered(s, c, w);
    } else if s.workers[w].phase == Selecting {
      var t := WorkApply(s, w, Tick);
      ls := ReleasedMeasures(WorkApply(t, w, StartCheck), c, w);
      Prepend(t, Work(w, StartCheck), ls);
      Prepend(s, Work(w, Tick), [Work(w, StartCheck)] + ls);
      ls := [Work(w, Tick)] + ([Work(w, StartCheck)] + ls);
    } else {
      ls := ReleasedMeasures(WorkApply(s, w, TakeCommand), c, w);
      Prepend(s, Work(w, TakeCommand), ls);
      ls := [Work(w, TakeCommand)] + ls;
    }
  }

  // The cut is one that nobody will notice: `paused` is not set any more, or the
  // workers that have been sent their CmdResume have all exited.
  predicate CutUnnoticed(s: State, c: nat)
    requires CallEnabled(s, c, ResumeDeadline)
  {
    s.paused ==> forall j :: 0 <= j < LoopIndex(s.callers[c].phase) ==> s.workers[Nth(s, j)].phase == Exited
  }

  lemma UnnoticedCutKeepsInv(s: State, c: nat)
    requires Inv(s) && CallEnabled(s, c, ResumeDeadline) && CutUnnoticed(s, c)
    ensures Inv(CallApply(s, c, ResumeDeadline))
  {
    var t := CallApply(s, c, ResumeDeadline);
    assert Inside(s.callers[c].phase) && s.owner == Some(c);
    if IsPartialCut(s, Call(c, ResumeDeadline)) {
      CallKeepsWf(s, c, ResumeDeadline);
      CallMovesOwner(s, c, ResumeDeadline);
      forall j | 0 <= j < |Lights(s.probes)|
        ensures Held(t.workers[Nth(t, j)]) && WorkerOk(t.workers[Nth(t, j)])
      {
        assert Nth(t, j) == Nth(s, j) && WorkerOk(s.workers[Nth(s, j)]);
        if j < LoopIndex(s.callers[c].phase) {
          assert Released(s.workers[Nth(s, j)]);
        } else {
          assert Held(s.workers[Nth(s, j)]);
        }
      }
    } else {
      CallKeepsInv(s, c, ResumeDeadline);
    }
  }

  // Whatever run came before, live, cancelled or stopped: the deadline of a
  // ResumeAll does harm exactly if it leaves `paused` set after a CmdResume to a
  // worker that has not exited.
  lemma DeadlineHarmlessExactly(s0: State, ms: seq<Label>, c: nat)
    requires SessionStart(s0) && UncutRun(s0, ms)
    requires NoStaleAck(s0)
    requires CanRun(s0, ms) && CallEnabled(Exec(s0, ms), c, ResumeDeadline)
    ensures var s := Exec(s0, ms);
            (forall ls :: !LeadsToOverlap(CallApply(s, c, ResumeDeadline), ls)) <==> CutUnnoticed(s, c)
  {
    StartIsInv(s0);
    RunKeepsInv(s0, ms);
    var s := Exec(s0, ms);
    var t := CallApply(s, c, ResumeDeadline);
    assert Inside(s.callers[c].phase) && s.owner == Some(c);
    if CutUnnoticed(s, c) {
      UnnoticedCutKeepsInv(s, c);
      forall ls | LeadsToOverlap(t, ls)
        ensures false
      {
        RunKeepsInv(t, ls);
        InvNoOverlap(Exec(t, ls));
      }
    } else {
      var j :| 0 <= j < LoopIndex(s.callers[c].phase) && s.workers[Nth(s, j)].phase != Exited;
      var ls := NoticedCutOverlaps(s, c, j);
    }
  }

  lemma NoticedCutOverlaps(s: State, c: nat, j: nat) returns (ls: seq<Label>)
    requires Inv(s) && CallEnabled(s, c, ResumeDeadline) && s.paused
    requires j < LoopIndex(s.callers[c].phase) && s.workers[Nth(s, j)].phase != Exited
    ensures LeadsToOverlap(CallApply(s, c, ResumeDeadline), ls)
  {
    assert Inside(s.callers[c].phase) && s.owner == Some(c);
    assert OwnerOk(s, OwnerPhase(s));
    assert Released(s.workers[Nth(s, j)]);
    assert s.callers[Nth(s, j)].phase == Idle;
    ls := ReleasedMeasures(CallApply(s, c, ResumeDeadline), c, Nth(s, j));
  }

  // In a live session that is: exactly if it fires after the first CmdResume.
  lemma LiveDeadlineHarmlessExactlyAtStart(s0: State, ms: seq<Label>, c: nat)
    requires SessionStart(s0) && NoStaleAck(s0) && CanRun(s0, ms) && Live(ms)
    requires CallEnabled(Exec(s0, ms), c, ResumeDeadline)
    ensures CutUnnoticed(Exec(s0, ms), c) <==> LoopIndex(Exec(s0, ms).callers[c].phase) == 0
  {
    StartIsSane(s0);
    StartIsLostOk(s0);
    RunKeepsLostOk(s0, ms);
    var s := Exec(s0, ms);
    assert Inside(s.callers[c].phase) && s.owner == Some(c);
    if LoopIndex(s.callers[c].phase) > 0 {
      assert Accounted(s, 0);
    }
  }
}
