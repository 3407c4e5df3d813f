// The cost of a call when queued commands are served before ticks: then it does not
// depend on how many checks the workers start that have not been commanded.
module Pace {
  import opened Wrappers
  import opened Session
  import opened Safety
  import opened Recovery
  import opened Progress

  // The worker has been sent this round's CmdPause, and its ack is not collected yet.
  predicate IsSummoned(s: State, w: nat) {
    exists j :: 0 <= j < |Lights(s.probes)| && Nth(s, j) == w && IsCommanded(s, j)
  }

  // No worker starts a check while a command waits in its channel.
  predicate ServedFirst(s: State, ls: seq<Label>)
    requires CanRun(s, ls)
    decreases |ls|
  {
    ls == [] ||
    ((ls[0].Work? && ls[0].act == StartCheck ==> s.workers[ls[0].w].cmd == []) && ServedFirst(Apply(s, ls[0]), ls[1..]))
  }

  // A step of the caller, or of a worker it waits for. A tick is not a step the
  // worker takes.
  predicate Spends(s: State, l: Label, c: nat) {
    match l
    case Call(d, _) => d == c
    case Work(w, a) => a != Tick && IsSummoned(s, w)
    case _ => false
  }

  function CountSpent(s: State, ls: seq<Label>, c: nat): nat
    requires CanRun(s, ls)
    decreases |ls|
  {
    if ls == [] then 0
    else (if Spends(s, ls[0], c) then 1 else 0) + CountSpent(Apply(s, ls[0]), ls[1..], c)
  }

  // ---- What a summoned worker is doing ---------------------------------------------

  // It has yet to take its CmdPause, or has taken it. No CmdResume is on its way.
  predicate Heeds(x: Worker) {
    x.cmd != [Resume] && (x.phase == NotStarted || x.phase == Checking || x.phase == Selecting ==> x.cmd == [Pause])
  }

  predicate AllHeed(s: State) {
    forall j :: 0 <= j < |Lights(s.probes)| && IsCommanded(s, j) ==> Heeds(s.workers[Nth(s, j)])
  }

  lemma WorkKeepsHeeding(x: Worker, a: WorkAct)
    requires Heeds(x) && FitsCapacity(x) && LocallyEnabled(x, a)
    ensures Heeds(WorkerAfter(x, false, a))
  {
  }

  // ---- The measure ---------------------------------------------------------------

  function CallShare(p: CallPhase, n: nat): int {
    match p
    case Idle => 0
    case Waiting => 8 * n + 8
    case PauseEntry => 8 * n + 7
    case Broadcasting(i) => 6 * (n - i) + 2 * n + 6
    case Collecting(i) => (n - i) + n + 5
    case InFn => n + 4
    case ResumeEntry(_) => n + 3
    case Resuming(i, _) => (n - i) + 2
    case Unlocking => 1
  }

  // What the workers at positions [from, to) have left to do.
  function Burden(s: State, from: nat, upto: nat): nat
    requires upto <= |Lights(s.probes)|
    decreases upto
  {
    if upto <= from then 0 else Burden(s, from, upto - 1) + WorkerLeft(s.workers[Nth(s, upto - 1)])
  }

  // What the owner's call can still cost.
  function Budget(s: State, c: nat): int
    requires Base(s) && c < |s.callers|
  {
    CallShare(s.callers[c].phase, |Lights(s.probes)|) + Burden(s, CommandedFrom(s), CommandedTo(s))
  }

  lemma {:induction false} BurdenSame(s: State, t: State, from: nat, upto: nat)
    requires t.probes == s.probes && upto <= |Lights(s.probes)|
    requires forall j :: from <= j < upto ==> t.workers[Nth(s, j)] == s.workers[Nth(s, j)]
    ensures Burden(t, from, upto) == Burden(s, from, upto)
    decreases upto
  {
    if from < upto {
      assert Nth(t, upto - 1) == Nth(s, upto - 1);
      BurdenSame(s, t, from, upto - 1);
    }
  }

  lemma {:induction false} BurdenOne(s: State, t: State, from: nat, upto: nat, i: nat)
    requires t.probes == s.probes && from <= i < upto <= |Lights(s.probes)|
    requires forall j :: from <= j < upto && j != i ==> t.workers[Nth(s, j)] == s.workers[Nth(s, j)]
    ensures Burden(t, from, upto) - Burden(s, from, upto) ==
              WorkerLeft(t.workers[Nth(s, i)]) - WorkerLeft(s.workers[Nth(s, i)])
    decreases upto
  {
    assert Nth(t, upto - 1) == Nth(s, upto - 1) && Nth(t, i) == Nth(s, i);
    if i == upto - 1 {
      BurdenSame(s, t, from, upto - 1);
    } else {
      BurdenOne(s, t, from, upto - 1, i);
    }
  }

  lemma {:induction false} BurdenFirst(s: State, from: nat, upto: nat)
    requires from < upto <= |Lights(s.probes)|
    ensures Burden(s, from, upto) == WorkerLeft(s.workers[Nth(s, from)]) + Burden(s, from + 1, upto)
    decreases upto
  {
    if from < upto - 1 {
      BurdenFirst(s, from, upto - 1);
    }
  }

  // ---- What a step does to it ----------------------------------------------------

  lemma WorkSpends(s: State, c: nat, w: nat, a: WorkAct)
    requires Base(s) && s.owner == Some(c) && AllHeed(s) && WorkEnabled(s, w, a)
    requires a == StartCheck ==> s.workers[w].cmd == []
    ensures var t := WorkApply(s, w, a);
            Base(t) && AllHeed(t) && t.owner == Some(c)
            && Budget(t, c) + (if Spends(s, Work(w, a), c) then 1 else 0) <= Budget(s, c)
  {
    hide WorkApply, WorkerAfter, Heeds;
    WorkFrame(s, w, a);
    WorkKeepsWf(s, w, a);
    var t := WorkApply(s, w, a);
    assert Inside(s.callers[c].phase);
    var from, upto := CommandedFrom(s), CommandedTo(s);
    forall j | 0 <= j < |Lights(s.probes)| && IsCommanded(t, j)
      ensures Heeds(t.workers[Nth(t, j)])
    {
      assert Nth(t, j) == Nth(s, j) && IsCommanded(s, j);
      if Nth(s, j) == w {
        WorkKeepsHeeding(s.workers[w], a);
      }
    }
    if IsSummoned(s, w) {
      var i :| 0 <= i < |Lights(s.probes)| && Nth(s, i) == w && IsCommanded(s, i);
      OthersElsewhere(s, i);
      SummonedStepLeft(s.workers[w], a);
      BurdenOne(s, t, from, upto, i);
    } else {
      assert forall j :: from <= j < upto ==> Nth(s, j) != w || IsCommanded(s, j);
      BurdenSame(s, t, from, upto);
    }
  }

  lemma OthersElsewhere(s: State, i: nat)
    requires i < |Lights(s.probes)|
    ensures forall j :: 0 <= j < |Lights(s.probes)| && j != i ==> Nth(s, j) != Nth(s, i)
  {
    forall j | 0 <= j < |Lights(s.probes)| && j != i
      ensures Nth(s, j) != Nth(s, i)
    {
      NthInjective(s, j, i);
    }
  }

  lemma SummonedStepLeft(x: Worker, a: WorkAct)
    requires Heeds(x) && FitsCapacity(x) && LocallyEnabled(x, a) && (a == StartCheck ==> x.cmd == [])
    ensures WorkerLeft(WorkerAfter(x, false, a)) + (if a == Tick then 0 else 1) <= WorkerLeft(x)
  {
    WorkerStepLeft(x, false, a);
  }

  // The caller's steps: sending CmdPause takes on what the worker has left to do,
  // which is 5 at most; collecting its ack gives that back.
  lemma CallSpends(s: State, c: nat, a: CallAct)
    requires Base(s) && s.owner == Some(c) && AllHeed(s) && CallEnabled(s, c, a)
    ensures var t := CallApply(s, c, a);
            Base(t) && AllHeed(t) && Budget(t, c) + 1 <= Budget(s, c)
  {
    CallKeepsWf(s, c, a);
    if TouchesTarget(a) {
      ChannelSpends(s, c, a);
    } else {
      QuietSpends(s, c, a);
    }
  }

  lemma ChannelSpends(s: State, c: nat, a: CallAct)
    requires Base(s) && s.owner == Some(c) && AllHeed(s) && CallEnabled(s, c, a) && TouchesTarget(a)
    requires Base(CallApply(s, c, a))
    ensures AllHeed(CallApply(s, c, a)) && Budget(CallApply(s, c, a), c) + 1 <= Budget(s, c)
  {
    hide Base, CallApply, Heeds, TargetAfter;
    CallFrame(s, c, a);
    CallFrameWorkers(s, c, a);
    CallMovesOwner(s, c, a);
    var t := CallApply(s, c, a);
    var i := LoopIndex(s.callers[c].phase);
    OthersElsewhere(s, i);
    TargetHeeds(s.workers[Nth(s, i)], a);
    forall j | 0 <= j < |Lights(s.probes)|
      ensures Nth(t, j) == Nth(s, j) && (IsCommanded(t, j) ==> Heeds(t.workers[Nth(t, j)]))
      ensures j != i ==> t.workers[Nth(s, j)] == s.workers[Nth(s, j)]
    {
      assert IsCommanded(t, j) && j != i ==> IsCommanded(s, j);
    }
    match a
    case SendPause => BurdenSame(s, t, 0, i);
    case CollectAck =>
      BurdenFirst(s, i, s.handles);
      BurdenSame(s, t, i + 1, s.handles);
    case _ =>
  }

  lemma TargetHeeds(x: Worker, a: CallAct)
    requires TouchesTarget(a) && if a.CollectAck? then x.ack > 0 else x.cmd == []
    ensures a.SendPause? ==> Heeds(TargetAfter(x, a)) && WorkerLeft(TargetAfter(x, a)) <= 5
  {
    if a.SendPause? {
      assert TargetAfter(x, a).cmd == [Pause];
    }
  }

  lemma QuietSpends(s: State, c: nat, a: CallAct)
    requires Base(s) && s.owner == Some(c) && AllHeed(s) && CallEnabled(s, c, a) && !TouchesTarget(a)
    requires Base(CallApply(s, c, a))
    ensures AllHeed(CallApply(s, c, a)) && Budget(CallApply(s, c, a), c) + 1 <= Budget(s, c)
  {
    hide Base, CallApply, Heeds;
    CallFrame(s, c, a);
    CallFrameWorkers(s, c, a);
    CallMovesOwner(s, c, a);
    var t := CallApply(s, c, a);
    assert Inside(s.callers[c].phase);
    forall j | 0 <= j < |Lights(s.probes)|
      ensures Nth(t, j) == Nth(s, j) && (IsCommanded(t, j) ==> IsCommanded(s, j))
    {
    }
    BurdenSame(s, t, CommandedFrom(t), CommandedTo(t));
    PhaseShare(s, c, a);
  }

  lemma PhaseShare(s: State, c: nat, a: CallAct)
    requires CallEnabled(s, c, a) && !a.Request? && !TouchesTarget(a) && LoopIndex(s.callers[c].phase) <= s.handles
    ensures CallShare(PhaseAfter(s, c, a), |Lights(s.probes)|) < CallShare(s.callers[c].phase, |Lights(s.probes)|)
  {
  }

  // ---- The bound -----------------------------------------------------------------

  lemma StepSpends(s: State, l: Label, c: nat)
    requires Base(s) && s.owner == Some(c) && AllHeed(s) && Enabled(s, l)
    requires l.Work? && l.act == StartCheck ==> s.workers[l.w].cmd == []
    ensures var t := Apply(s, l);
            Base(t) && AllHeed(t) && Budget(t, c) + (if Spends(s, l, c) then 1 else 0) <= Budget(s, c)
  {
    assert Inside(s.callers[c].phase);
    match l
    case Work(w, a) => WorkSpends(s, c, w, a);
    case Call(d, a) =>
      if d == c {
        CallSpends(s, c, a);
      } else {
        BystanderSpends(s, l, c);
      }
    case _ => BystanderSpends(s, l, c);
  }

  lemma BystanderSpends(s: State, l: Label, c: nat)
    requires Base(s) && s.owner == Some(c) && AllHeed(s) && Enabled(s, l) && !l.Work? && !(l.Call? && l.c == c)
    ensures var t := Apply(s, l); Base(t) && AllHeed(t) && Budget(t, c) == Budget(s, c)
  {
    StepKeepsWf(s, l);
    var t := Apply(s, l);
    assert Inside(s.callers[c].phase);
    if l.Call? {
      assert !Inside(s.callers[l.c].phase);
      CallFrame(s, l.c, l.call);
    }
    assert t.workers == s.workers && t.callers[c].phase == s.callers[c].phase && OwnerPhase(t) == OwnerPhase(s);
    assert forall j :: 0 <= j < |Lights(s.probes)| ==> Nth(t, j) == Nth(s, j);
    BurdenSame(s, t, CommandedFrom(s), CommandedTo(s));
  }

  lemma {:induction false} RunSpends(s: State, ls: seq<Label>, c: nat)
    requires Base(s) && c < |s.callers| && AllHeed(s) && CanRun(s, ls) && OwnsThroughout(s, ls, c) && ServedFirst(s, ls)
    ensures Base(Exec(s, ls)) && CountSpent(s, ls, c) + Budget(Exec(s, ls), c) <= Budget(s, c)
    decreases |ls|
  {
    if ls != [] {
      StepSpends(s, ls[0], c);
      RunSpends(Apply(s, ls[0]), ls[1..], c);
    }
  }

  // From the moment it has exclusiveMu, a call takes at most 8 steps for every light
  // worker and 7 more, its own and those of the workers it has commanded, in every run
  // in which commands are served before ticks: cut, aborted and cancelled ones included.
  lemma CallIsLinearWhenServedFirst(s: State, ls: seq<Label>, c: nat)
    requires Base(s) && CanRun(s, ls) && HasPhase(s, c, PauseEntry) && OwnsThroughout(s, ls, c) && ServedFirst(s, ls)
    ensures CountSpent(s, ls, c) <= 8 * |Lights(s.probes)| + 7
  {
    assert Inside(s.callers[c].phase) && OwnerPhase(s) == PauseEntry;
    RunSpends(s, ls, c);
    var t := Exec(s, ls);
    assert 0 <= CallShare(t.callers[c].phase, |Lights(s.probes)|) by {
      ShareNonNegative(t, c);
    }
  }

  lemma ShareNonNegative(t: State, c: nat)
    requires Base(t) && c < |t.callers|
    ensures CallShare(t.callers[c].phase, |Lights(t.probes)|) >= 0
  {
    if Inside(t.callers[c].phase) {
      assert t.owner == Some(c);
    }
  }
}
