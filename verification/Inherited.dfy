// What a session inherits in full: the channels, and outside callers that were
// inside ExecuteExclusive when the session before was stopped. Stop waits for the
// worker goroutines only, and Start looks at nothing but `running`.
module Inherited {
  import opened Wrappers
  import opened Session
  import opened Safety
  import opened Recovery
  import opened Progress
  import opened Deadline
  import opened Restart

  // The CmdPause for position j has been sent, and nobody has taken it.
  predicate PauseQueued(s: State, j: nat)
    requires j < |Lights(s.probes)|
  {
    s.workers[Nth(s, j)].cmd == [Pause]
  }

  predicate PausesQueued(s: State, from: nat, to: nat)
    requires to <= |Lights(s.probes)|
  {
    forall j :: from <= j < to ==> PauseQueued(s, j)
  }

  // Where a caller of the session before does harm in the new one: inside fn; in a
  // PauseAll that counts acks of the old session, or does not know all workers,
  // and can be completed by the commands it has left behind; in a ResumeAll that
  // finds a CmdPause it will follow with a CmdResume.
  predicate Compromised(s: State) {
    var n := |Lights(s.probes)|;
    match OwnerPhase(s)
    case InFn => n > 0
    case Broadcasting(i) => s.handles < n && i <= s.handles && PausesQueued(s, 0, i)
    case Collecting(i) => (i > 0 || s.handles < n) && PausesQueued(s, i, s.handles)
    case Resuming(i, _) => exists j :: i <= j < s.handles && PauseQueued(s, j)
    case _ => false
  }

  // ---- Harmless remains --------------------------------------------------------

  // A worker that will acknowledge nothing unless it is sent a CmdPause.
  predicate Mute(x: Worker) {
    x.ack == 0 && x.cmd != [Pause] && x.phase != AckPending && x.phase != Paused
  }

  predicate AllOk(s: State) {
    forall j :: 0 <= j < |Lights(s.probes)| ==> WorkerOk(s.workers[Nth(s, j)])
  }

  predicate IsMute(s: State, j: nat) {
    j < |Lights(s.probes)| && Mute(s.workers[Nth(s, j)])
  }

  // The inherited call cannot enter fn: it waits for an ack that will not come, or
  // is on its way out. On its way out it does not mislead any worker.
  predicate Harmless(s: State) {
    && Base(s) && AllOk(s) && !s.paused
    && match OwnerPhase(s)
       case Broadcasting(i) => exists j: nat :: j < i && IsMute(s, j)
       case Collecting(i) => exists j: nat :: i <= j < s.handles && IsMute(s, j)
       case ResumeEntry(_) => true
       case Resuming(i, _) => forall j: nat :: i <= j < s.handles ==> IsMute(s, j)
       case _ => false
  }

  lemma MuteStays(x: Worker, a: WorkAct)
    requires Mute(x) && WorkerOk(x) && LocallyEnabled(x, a)
    ensures Mute(WorkerAfter(x, false, a))
  {
  }

  lemma WorkKeepsHarmless(s: State, w: nat, a: WorkAct)
    requires Harmless(s) && WorkEnabled(s, w, a)
    ensures Harmless(WorkApply(s, w, a))
  {
    hide WorkApply, WorkerAfter, WorkerOk, Mute, Base;
    WorkFrame(s, w, a);
    WorkKeepsWf(s, w, a);
    var t := WorkApply(s, w, a);
    forall j | 0 <= j < |Lights(s.probes)|
      ensures WorkerOk(t.workers[Nth(t, j)])
      ensures IsMute(s, j) ==> IsMute(t, j)
    {
      assert Nth(t, j) == Nth(s, j) && WorkerOk(s.workers[Nth(s, j)]);
      if Nth(s, j) == w {
        LightStepKeeps(s.workers[w], a);
        if IsMute(s, j) {
          MuteStays(s.workers[w], a);
        }
      }
    }
  }

  // The three steps that touch a channel.
  lemma ChannelStepKeepsHarmless(s: State, c: nat, a: CallAct)
    requires Harmless(s) && CallEnabled(s, c, a) && TouchesTarget(a)
    ensures Harmless(CallApply(s, c, a))
  {
    hide Base, WorkerOk, TargetAfter;
    CallKeepsWf(s, c, a);
    CallMovesOwner(s, c, a);
    CallFrame(s, c, a);
    var t := CallApply(s, c, a);
    var i := LoopIndex(s.callers[c].phase);
    var x := s.workers[Nth(s, i)];
    HarmlessTarget(s, c, a, x);
    forall j | 0 <= j < |Lights(s.probes)|
      ensures WorkerOk(t.workers[Nth(t, j)])
      ensures j != i && IsMute(s, j) ==> IsMute(t, j)
    {
      NthInjective(s, i, j);
      assert Nth(t, j) == Nth(s, j) && WorkerOk(s.workers[Nth(s, j)]);
      assert t.workers[Nth(t, j)] == if j == i then TargetAfter(x, a) else s.workers[Nth(s, j)];
    }
    if a.CollectAck? {
      assert !IsMute(s, i);
    }
  }

  lemma HarmlessTarget(s: State, c: nat, a: CallAct, x: Worker)
    requires Harmless(s) && CallEnabled(s, c, a) && TouchesTarget(a) && x == s.workers[Target(s, c)]
    ensures WorkerOk(TargetAfter(x, a))
  {
    CallMovesOwner(s, c, a);
    var i := LoopIndex(s.callers[c].phase);
    assert WorkerOk(s.workers[Nth(s, i)]);
    if a.SendResume? {
      assert IsMute(s, i);
      assert TargetAfter(x, a).cmd == [Resume];
    } else {
      TargetStepKeeps(x, a);
    }
  }

  lemma QuietStepFromHarmless(s: State, c: nat, a: CallAct)
    requires Harmless(s) && CallEnabled(s, c, a) && !TouchesTarget(a)
    ensures Harmless(CallApply(s, c, a)) || Inv(CallApply(s, c, a))
  {
    hide WorkerOk, Mute;
    CallKeepsWf(s, c, a);
    CallMovesOwner(s, c, a);
    CallFrame(s, c, a);
    var t := CallApply(s, c, a);
    assert t.workers == s.workers;
    assert forall j :: 0 <= j < |Lights(s.probes)| ==> Nth(t, j) == Nth(s, j);
    assert forall j: nat :: IsMute(s, j) ==> IsMute(t, j);
    assert OwnerOk(s, OwnerPhase(s));
  }

  lemma StepFromHarmless(s: State, l: Label)
    requires Harmless(s) && Enabled(s, l)
    ensures Harmless(Apply(s, l)) || Inv(Apply(s, l))
  {
    hide WorkerOk, Mute, WorkApply, CallApply;
    match l
    case Work(w, a) => WorkKeepsHarmless(s, w, a);
    case Call(c, a) =>
      if TouchesTarget(a) {
        ChannelStepKeepsHarmless(s, c, a);
      } else {
        QuietStepFromHarmless(s, c, a);
      }
    case _ =>
      StepKeepsWf(s, l);
      var t := Apply(s, l);
      assert OwnerPhase(t) == OwnerPhase(s);
      assert forall j :: 0 <= j < |Lights(s.probes)| ==> Nth(t, j) == Nth(s, j);
      assert forall j: nat :: IsMute(s, j) ==> IsMute(t, j);
  }

  lemma {:induction false} RunFromHarmless(s: State, ls: seq<Label>)
    requires (Harmless(s) || Inv(s)) && UncutRun(s, ls)
    ensures CanRun(s, ls) && (Harmless(Exec(s, ls)) || Inv(Exec(s, ls)))
    decreases |ls|
  {
    if ls != [] {
      if Harmless(s) {
        StepFromHarmless(s, ls[0]);
      } else {
        StepKeepsInv(s, ls[0]);
      }
      RunFromHarmless(Apply(s, ls[0]), ls[1..]);
    }
  }

  lemma HarmlessNoOverlap(s: State)
    requires Harmless(s)
    ensures !Overlap(s)
  {
    forall c | 0 <= c < |s.callers|
      ensures s.callers[c].phase != InFn
    {
      assert Inside(s.callers[c].phase) <==> s.owner == Some(c);
    }
  }

  lemma NoLightsNoOverlap(s: State)
    requires Lights(s.probes) == []
    ensures !Overlap(s)
  {
    LightsExact(s.probes);
  }

  // The safe half.
  lemma UncompromisedIsSafe(s: State)
    requires Restarted(s) && NoStaleAck(s) && !Compromised(s) && Lights(s.probes) != []
    ensures Inv(s) || Harmless(s)
  {
    forall j | 0 <= j < |Lights(s.probes)|
      ensures WorkerOk(s.workers[Nth(s, j)]) && (PauseQueued(s, j) || IsMute(s, j))
    {
      assert StartWorker(s.workers[Nth(s, j)], false);
    }
  }

  // ---- Harm: fn beside a check ---------------------------------------------------

  lemma FnBesideLaunch(s: State, c: nat, j: nat) returns (ls: seq<Label>)
    requires HasPhase(s, c, InFn) && j < |Lights(s.probes)|
    requires s.workers[Nth(s, j)].phase == NotStarted && s.callers[Nth(s, j)].phase == Idle
    ensures LeadsToOverlap(s, ls)
  {
    var w := Nth(s, j);
    var t := WorkApply(s, w, Launch);
    assert t.callers[c].phase == InFn && IsLight(t, w) && t.workers[w].phase == Checking;
    assert LeadsToOverlap(t, []);
    Prepend(s, Work(w, Launch), []);
    ls := [Work(w, Launch)] + [];
  }

  lemma CommitBesideLaunch(s: State, c: nat, j: nat) returns (ls: seq<Label>)
    requires CallEnabled(s, c, CommitPause) && j < |Lights(s.probes)|
    requires s.workers[Nth(s, j)].phase == NotStarted && s.callers[Nth(s, j)].phase == Idle
    ensures LeadsToOverlap(s, ls)
  {
    var t := CallApply(s, c, CommitPause);
    assert Nth(t, j) == Nth(s, j);
    ls := FnBesideLaunch(t, c, j);
    PrependCall(s, c, CommitPause, ls);
    ls := [Call(c, CommitPause)] + ls;
  }

  // An inherited PauseAll that is completed by the commands it has left behind.
  lemma InheritedPauseOverlaps(s: State, c: nat) returns (ls: seq<Label>)
    requires Restarted(s) && NoStaleAck(s) && Compromised(s) && s.owner == Some(c)
    requires s.callers[c].phase.Broadcasting? || s.callers[c].phase.Collecting?
    ensures LeadsToOverlap(s, ls)
  {
    forall j | 0 <= j < |Lights(s.probes)| && !IsHeld(s, j)
      ensures Responsive(s, j)
    {
      assert StartWorker(s.workers[Nth(s, j)], false);
      assert IsCommanded(s, j) ==> PauseQueued(s, j);
    }
    var path := ReachCommit(s, c);
    var t := Exec(s, path);
    var j := if s.callers[c].phase.Collecting? && LoopIndex(s.callers[c].phase) > 0 then 0 else s.handles;
    assert OwnerOk(s, OwnerPhase(s));
    assert j < |Lights(s.probes)| && Skipped(s, c, j);
    assert StartWorker(s.workers[Nth(s, j)], false);
    assert Nth(t, j) == Nth(s, j) && t.workers[Nth(t, j)].phase == NotStarted;
    ls := CommitBesideLaunch(t, c, j);
    PrependRun(s, path, ls);
    ls := path + ls;
  }

  // ---- Harm: a ResumeAll that makes an ack stale -----------------------------------

  predicate Calm(x: Worker) {
    && (x.phase == NotStarted || x.phase == Checking || x.phase == Selecting)
    && (x.cmd == [] || x.cmd == [Pause] || x.cmd == [Resume])
  }

  // About to acknowledge a CmdPause that nobody waits for.
  predicate Pausing(x: Worker) {
    x.ack == 0 && ((Calm(x) && x.cmd == [Pause]) || (x.phase == AckPending && x.cmd == []))
  }

  // The loop of the inherited ResumeAll has reached position i and will come to
  // position j.
  predicate Approaching(s: State, c: nat, i: nat, j: nat) {
    && Base(s) && s.running && !s.paused && |s.workers| <= c && HasPhase(s, c, Resuming(i, true))
    && i <= j < s.handles && Pausing(s.workers[Nth(s, j)])
    && (forall k :: 0 <= k < |Lights(s.probes)| && k != j ==> CalmAt(s, k))
    && (forall k :: i <= k < j ==> !PauseQueued(s, k))
  }

  predicate CalmAt(s: State, k: nat)
    requires k < |Lights(s.probes)|
  {
    Calm(s.workers[Nth(s, k)])
  }

  function ToGo(x: Worker): nat {
    if x.cmd == [] then 0
    else match x.phase
         case NotStarted => 3
         case Checking => 2
         case _ => 1
  }

  // One worker step that empties the command channel the loop waits for.
  lemma ApproachByWork(s: State, c: nat, i: nat, j: nat)
    requires Approaching(s, c, i, j) && s.workers[Nth(s, i)].cmd != []
    ensures var a := AdvanceAct(s.workers[Nth(s, i)]);
            && WorkEnabled(s, Nth(s, i), a) && Approaching(WorkApply(s, Nth(s, i), a), c, i, j)
            && ToGo(WorkApply(s, Nth(s, i), a).workers[Nth(s, i)]) < ToGo(s.workers[Nth(s, i)])
  {
    hide WorkApply;
    var w := Nth(s, i);
    assert i != j ==> CalmAt(s, i);
    assert s.callers[w].phase == Idle;
    var a := AdvanceAct(s.workers[w]);
    WorkFrame(s, w, a);
    WorkKeepsWf(s, w, a);
    var t := WorkApply(s, w, a);
    forall k | 0 <= k < |Lights(s.probes)|
      ensures Nth(t, k) == Nth(s, k) && (k != j ==> CalmAt(t, k)) && (i <= k < j ==> !PauseQueued(t, k))
    {
      NthInjective(s, i, k);
      assert k != j ==> CalmAt(s, k);
      assert i <= k < j ==> !PauseQueued(s, k);
    }
    NthInjective(s, i, j);
  }

  lemma ApproachBySend(s: State, c: nat, i: nat, j: nat)
    requires Approaching(s, c, i, j) && s.workers[Nth(s, i)].cmd == [] && i < j
    ensures CallEnabled(s, c, SendResume) && Approaching(CallApply(s, c, SendResume), c, i + 1, j)
  {
    CallFrame(s, c, SendResume);
    CallKeepsWf(s, c, SendResume);
    var t := CallApply(s, c, SendResume);
    forall k | 0 <= k < |Lights(s.probes)|
      ensures Nth(t, k) == Nth(s, k) && (k != j ==> CalmAt(t, k)) && (i < k < j ==> !PauseQueued(t, k))
    {
      NthInjective(s, i, k);
      assert k != j ==> CalmAt(s, k);
      assert i <= k < j ==> !PauseQueued(s, k);
      assert k == i ==> TargetAfter(s.workers[Nth(s, i)], SendResume).cmd == [Resume];
    }
    NthInjective(s, i, j);
  }

  // A worker that finds CmdResume in its channel when it acknowledges goes back to
  // its select loop with the ack still queued.
  lemma AckThenResume(s: State, w: nat) returns (t: State, ls: seq<Label>)
    requires Base(s) && IsLight(s, w)
    requires s.workers[w].phase == AckPending && s.workers[w].ack == 0 && s.workers[w].cmd == [Resume]
    ensures UncutRun(s, ls) && CanRun(s, ls) && t == Exec(s, ls)
    ensures Base(t) && t.probes == s.probes && t.handles == s.handles && t.running == s.running && t.paused == s.paused
    ensures t.callers == s.callers && t.workers == s.workers[w := t.workers[w]]
    ensures var x := t.workers[w]; x.phase == Selecting && x.ack == 1 && x.cmd == []
  {
    var u := WorkApply(s, w, PushAck);
    WorkKeepsWf(s, w, PushAck);
    WorkKeepsWf(u, w, TakeCommand);
    t := WorkApply(u, w, TakeCommand);
    UncutCons(u, Work(w, TakeCommand), []);
    UncutCons(s, Work(w, PushAck), [Work(w, TakeCommand)] + []);
    ls := [Work(w, PushAck)] + ([Work(w, TakeCommand)] + []);
  }

  // CmdResume overtakes the ack.
  lemma AckMadeStale(s: State, c: nat, j: nat) returns (t: State, ls: seq<Label>)
    requires Approaching(s, c, j, j) && s.workers[Nth(s, j)].cmd == []
    ensures UncutRun(s, ls) && CanRun(s, ls) && t == Exec(s, ls)
    ensures Base(t) && t.running && !t.paused && HasPhase(t, c, Resuming(j + 1, true)) && AllCalm(t)
    ensures t.probes == s.probes && |t.workers| == |s.workers| && |t.callers| == |s.callers|
    ensures var x := t.workers[Nth(s, j)]; x.phase == Selecting && x.ack == 1 && x.cmd == []
  {
    hide Base;
    var w := Nth(s, j);
    CallKeepsWf(s, c, SendResume);
    var u := CallApply(s, c, SendResume);
    assert u.workers[w].cmd == [Resume] && u.workers == s.workers[w := u.workers[w]];
    var rest;
    t, rest := AckThenResume(u, w);
    UncutCons(s, Call(c, SendResume), rest);
    ls := [Call(c, SendResume)] + rest;
    forall k | 0 <= k < |Lights(s.probes)|
      ensures CalmAt(t, k)
    {
      NthInjective(s, j, k);
      assert Nth(t, k) == Nth(s, k) && (k != j ==> CalmAt(s, k));
    }
  }

  predicate AllCalm(s: State) {
    forall k :: 0 <= k < |Lights(s.probes)| ==> CalmAt(s, k)
  }

  lemma UnlockCalm(s: State, c: nat) returns (t: State)
    requires Base(s) && s.running && !s.paused && |s.workers| <= c && HasPhase(s, c, Unlocking) && AllCalm(s)
    ensures t == CallApply(s, c, Unlock) && BetweenCalls(t, c) && t.workers == s.workers
  {
    CallKeepsWf(s, c, Unlock);
    CallMovesOwner(s, c, Unlock);
    CallFrame(s, c, Unlock);
    t := CallApply(s, c, Unlock);
    CalmIsResponsive(s, t);
  }

  lemma CalmIsResponsive(s: State, t: State)
    requires AllCalm(s) && t.workers == s.workers && t.probes == s.probes && !t.paused && OwnerPhase(t) == Idle
    ensures AllResponsive(t)
  {
    forall k | 0 <= k < |Lights(t.probes)|
      ensures Responsive(t, k)
    {
      assert Nth(t, k) == Nth(s, k) && CalmAt(s, k);
    }
  }

  // The way out of ResumeAll, here without harm: `paused` is not set.
  lemma LeaveResume(s: State, c: nat) returns (t: State, ls: seq<Label>)
    requires Base(s) && s.running && !s.paused && |s.workers| <= c && AllCalm(s)
    requires c < |s.callers| && s.callers[c].phase.Resuming?
    ensures UncutRun(s, ls) && CanRun(s, ls) && t == Exec(s, ls)
    ensures BetweenCalls(t, c) && t.workers == s.workers
  {
    hide Calm, BetweenCalls;
    assert OwnerOk(s, OwnerPhase(s)) && s.owner == Some(c);
    var a := if InLoop(s, c) then ResumeDeadline else CommitResume;
    CallKeepsWf(s, c, a);
    CallFrame(s, c, a);
    var u := CallApply(s, c, a);
    assert u.workers == s.workers;
    assert forall k :: 0 <= k < |Lights(s.probes)| && CalmAt(s, k) ==> CalmAt(u, k);
    t := UnlockCalm(u, c);
    UncutCons(u, Call(c, Unlock), []);
    UncutCons(s, Call(c, a), [Call(c, Unlock)] + []);
    ls := [Call(c, a)] + ([Call(c, Unlock)] + []);
  }

  lemma InheritedResumeOverlaps(s: State, c: nat, i: nat, j: nat) returns (ls: seq<Label>)
    requires Approaching(s, c, i, j)
    ensures LeadsToOverlap(s, ls)
    decreases j - i, ToGo(s.workers[Nth(s, i)])
  {
    hide Base, Coherent, Calm;
    if s.workers[Nth(s, i)].cmd != [] {
      ApproachByWork(s, c, i, j);
      var l := Work(Nth(s, i), AdvanceAct(s.workers[Nth(s, i)]));
      ls := InheritedResumeOverlaps(Apply(s, l), c, i, j);
      Prepend(s, l, ls);
      ls := [l] + ls;
    } else if i < j {
      ApproachBySend(s, c, i, j);
      ls := InheritedResumeOverlaps(CallApply(s, c, SendResume), c, i + 1, j);
      PrependCall(s, c, SendResume, ls);
      ls := [Call(c, SendResume)] + ls;
    } else {
      var t, path := AckMadeStale(s, c, j);
      var u, out := LeaveResume(t, c);
      ls := StaleAckOverlaps(u, c, Nth(s, j));
      PrependRun(t, out, ls);
      PrependRun(s, path, out + ls);
      ls := path + (out + ls);
    }
  }

  // ---- Harm: a stale ack, wherever the inherited call stands -----------------------

  // Nothing has happened yet but steps of the inherited call.
  predicate Unstarted(s: State, c: nat) {
    && Base(s) && s.running && !s.paused && |s.workers| <= c < |s.callers| && s.owner == Some(c)
    && (forall w :: 0 <= w < |s.workers| ==>
          s.callers[w].phase == Idle && StartWorker(s.workers[w], s.probes[w].exclusive))
  }

  function Stages(p: CallPhase): nat {
    match p
    case PauseEntry => 6
    case Broadcasting(_) => 5
    case Collecting(_) => 4
    case ResumeEntry(_) => 2
    case Resuming(_, _) => 1
    case _ => 0
  }

  // The step by which an inherited call whose context is done moves on without
  // touching a channel.
  function WayOut(s: State, c: nat): CallAct
    requires c < |s.callers|
  {
    match s.callers[c].phase
    case PauseEntry => EnterPause
    case Broadcasting(_) => if InLoop(s, c) then AbortPause else EndBroadcast
    case Collecting(_) => AbortPause
    case ResumeEntry(_) => EnterResume
    case _ => if InLoop(s, c) then ResumeDeadline else CommitResume
  }

  lemma TakeWayOut(s: State, c: nat)
    requires Unstarted(s, c) && s.callers[c].ctxDone && Stages(s.callers[c].phase) > 0
    requires s.callers[c].phase.Collecting? ==> InLoop(s, c)
    ensures var a := WayOut(s, c);
            && CallEnabled(s, c, a) && !IsPartialCut(s, Call(c, a))
            && Unstarted(CallApply(s, c, a), c) && CallApply(s, c, a).workers == s.workers
            && CallApply(s, c, a).callers[c].ctxDone
            && Stages(CallApply(s, c, a).callers[c].phase) < Stages(s.callers[c].phase)
            && !CallApply(s, c, a).callers[c].phase.InFn?
  {
    assert Inside(s.callers[c].phase);
    assert OwnerOk(s, OwnerPhase(s));
    CallKeepsWf(s, c, WayOut(s, c));
    CallFrame(s, c, WayOut(s, c));
  }

  lemma StaleAckWithOwner(s: State, c: nat, w: nat) returns (ls: seq<Label>)
    requires Unstarted(s, c) && s.callers[c].ctxDone && IsLight(s, w) && s.workers[w].ack == 1
    ensures LeadsToOverlap(s, ls)
    decreases Stages(s.callers[c].phase)
  {
    var p := s.callers[c].phase;
    var j := Position(s, w);
    assert StartWorker(s.workers[w], false) && Inside(p);
    assert OwnerOk(s, OwnerPhase(s));
    if p.InFn? {
      ls := FnBesideLaunch(s, c, j);
    } else if p.Collecting? && LoopDone(s, c) {
      ls := CommitBesideLaunch(s, c, j);
    } else if p.Unlocking? {
      var t := UnlockUnstarted(s, c);
      ls := StaleAckOverlaps(t, c, w);
      PrependCall(s, c, Unlock, ls);
      ls := [Call(c, Unlock)] + ls;
    } else {
      TakeWayOut(s, c);
      var a := WayOut(s, c);
      ls := StaleAckWithOwner(CallApply(s, c, a), c, w);
      PrependCall(s, c, a, ls);
      ls := [Call(c, a)] + ls;
    }
  }

  lemma UnlockUnstarted(s: State, c: nat) returns (t: State)
    requires Unstarted(s, c) && s.callers[c].phase == Unlocking
    ensures t == CallApply(s, c, Unlock) && BetweenCalls(t, c) && t.workers == s.workers
  {
    UnstartedIsCalm(s);
    t := UnlockCalm(s, c);
  }

  lemma UnstartedIsCalm(s: State)
    requires forall w :: 0 <= w < |s.workers| ==> StartWorker(s.workers[w], s.probes[w].exclusive)
    ensures AllCalm(s)
  {
    forall k | 0 <= k < |Lights(s.probes)|
      ensures CalmAt(s, k)
    {
      assert StartWorker(s.workers[Nth(s, k)], false);
    }
  }

  // A goroutine that calls ExecuteExclusive: an outside one, or an exclusive worker's.
  predicate IsCaller(s: State, c: nat) {
    c < |s.callers| && (c < |s.workers| ==> s.probes[c].exclusive)
  }

  predicate HasCaller(s: State) {
    exists c :: 0 <= c < |s.callers| && IsCaller(s, c)
  }

  lemma NoCallerNoOverlap(s: State)
    requires Base(s) && !HasCaller(s)
    ensures !Overlap(s)
  {
    forall c | 0 <= c < |s.callers|
      ensures s.callers[c].phase != InFn
    {
      assert !IsCaller(s, c);
    }
  }

  lemma StaleAckHarms(s: State, c: nat, w: nat) returns (ls: seq<Label>)
    requires Restarted(s) && IsCaller(s, c) && IsLight(s, w) && s.workers[w].ack != 0
    ensures LeadsToOverlap(s, ls)
  {
    assert StartWorker(s.workers[w], false);
    assert c < |s.workers| ==> StartWorker(s.workers[c], true);
    if s.owner == None {
      UnstartedIsCalm(s);
      CalmIsResponsive(s, s);
      ls := StaleAckOverlaps(s, c, w);
    } else {
      var d := s.owner.value;
      var t := Apply(s, CancelCall(d));
      StepKeepsWf(s, CancelCall(d));
      ls := StaleAckWithOwner(t, d, w);
      Prepend(s, CancelCall(d), ls);
      ls := [CancelCall(d)] + ls;
    }
  }

  lemma CompromisedHarms(s: State) returns (ls: seq<Label>)
    requires Restarted(s) && NoStaleAck(s) && Compromised(s)
    ensures LeadsToOverlap(s, ls)
  {
    var c := s.owner.value;
    assert OwnerOk(s, OwnerPhase(s));
    match s.callers[c].phase
    case InFn =>
      assert StartWorker(s.workers[Nth(s, 0)], false);
      ls := FnBesideLaunch(s, c, 0);
    case Resuming(i, _) =>
      var j := FirstQueued(s, i);
      forall k | 0 <= k < |Lights(s.probes)|
        ensures CalmAt(s, k) && s.workers[Nth(s, k)].ack == 0
      {
        assert StartWorker(s.workers[Nth(s, k)], false);
      }
      ls := InheritedResumeOverlaps(s, c, i, j);
    case _ =>
      ls := InheritedPauseOverlaps(s, c);
  }

  lemma FirstQueued(s: State, i: nat) returns (j: nat)
    requires exists j :: i <= j < s.handles && PauseQueued(s, j)
    ensures i <= j < s.handles && PauseQueued(s, j) && forall k :: i <= k < j ==> !PauseQueued(s, k)
    decreases s.handles - i
  {
    if PauseQueued(s, i) {
      j := i;
    } else {
      j := FirstQueued(s, i + 1);
    }
  }

  // The exact condition, for every session whatever it inherits and whoever its
  // callers are: FR4 holds on all its runs without a part-way cut if and only if
  // nobody can call ExecuteExclusive at all, or the session inherits neither a queued
  // ack nor a call of ExecuteExclusive at a harmful place. Queued commands by
  // themselves, and calls anywhere else, do no harm.
  lemma SafeExactlyAfterStart(s: State)
    requires Restarted(s)
    ensures (forall ls :: !LeadsToOverlap(s, ls)) <==> !HasCaller(s) || (NoStaleAck(s) && !Compromised(s))
  {
    if !HasCaller(s) {
      forall ls | LeadsToOverlap(s, ls)
        ensures false
      {
        RunKeepsWf(s, ls);
        assert forall c: nat :: IsCaller(Exec(s, ls), c) ==> IsCaller(s, c);
        NoCallerNoOverlap(Exec(s, ls));
      }
    } else if !NoStaleAck(s) {
      var c: nat :| c < |s.callers| && IsCaller(s, c);
      var w :| 0 <= w < |s.workers| && IsLight(s, w) && s.workers[w].ack != 0;
      var ls := StaleAckHarms(s, c, w);
    } else if Compromised(s) {
      var ls := CompromisedHarms(s);
    } else {
      UncompromisedStaysSafe(s);
    }
  }

  lemma UncompromisedStaysSafe(s: State)
    requires Restarted(s) && NoStaleAck(s) && !Compromised(s)
    ensures forall ls :: !LeadsToOverlap(s, ls)
  {
    forall ls | LeadsToOverlap(s, ls)
      ensures false
    {
      if Lights(s.probes) == [] {
        NoLightsNoOverlap(Exec(s, ls));
      } else {
        UncompromisedIsSafe(s);
        RunFromHarmless(s, ls);
        if Harmless(Exec(s, ls)) {
          HarmlessNoOverlap(Exec(s, ls));
        } else {
          InvNoOverlap(Exec(s, ls));
        }
      }
    }
  }

  // The program's own case: its only callers are Speedtest workers, at least one.
  lemma OwnSessionSafeExactly(s: State, e: nat)
    requires SessionStart(s) && |s.callers| == |s.workers| && e < |s.workers| && s.probes[e].exclusive
    ensures (forall ls :: !LeadsToOverlap(s, ls)) <==> NoStaleAck(s)
  {
    StartIsWf(s);
    assert Restarted(s) && OwnerPhase(s) == Idle && IsCaller(s, e);
    SafeExactlyAfterStart(s);
  }
}
