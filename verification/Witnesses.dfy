// The failing inputs of the exact conditions are inputs the code can receive: for
// each, a run from the clean start of a first session that leads there.
module Witnesses {
  import opened Wrappers
  import opened Session
  import opened Safety
  import opened AbortedPauses
  import opened Deadline
  import opened Drain
  import opened Inherited
  import opened Registration

  const LIGHT_A := Probe("a", false)
  const LIGHT_B := Probe("b", false)
  const SPEEDTEST := Probe("c", true)

  const READY := Worker(NotStarted, false, [], 0, EMPTY_LOG)

  // The first start of a program with two probes, of which the first is light, and
  // one outside goroutine, caller 2.
  function FirstStart(second: Probe): State {
    RawState([LIGHT_A, second], [READY, READY], [IDLE, IDLE, IDLE], None, true, false, false, {}, 0)
  }

  lemma ListOfTwo(second: Probe)
    ensures Lights([LIGHT_A, second]) == if second.exclusive then [0] else [0, 1]
  {
    var ps := [LIGHT_A, second];
    assert ps[..|ps| - 1] == [LIGHT_A] && [LIGHT_A][..0] == [];
    assert Lights([LIGHT_A][..0]) == [] && Lights([LIGHT_A]) == [0];
  }

  lemma FirstStartIsClean(second: Probe)
    ensures CleanStart(FirstStart(second)) && NoStaleAck(FirstStart(second))
  {
  }

  // ls is a run from s0 to s, without a part-way cut.
  predicate Leads(s0: State, ls: seq<Label>, s: State) {
    UncutRun(s0, ls) && CanRun(s0, ls) && Exec(s0, ls) == s
  }

  predicate LeadsLive(s0: State, ls: seq<Label>, s: State) {
    Leads(s0, ls, s) && Live(ls)
  }

  lemma Then(s0: State, ls: seq<Label>, s: State, l: Label) returns (ms: seq<Label>, t: State)
    requires Leads(s0, ls, s) && Enabled(s, l) && !IsPartialCut(s, l)
    ensures t == Apply(s, l) && Leads(s0, ms, t)
    ensures Live(ls) && !l.CancelRun? && !l.StopRun? ==> Live(ms)
  {
    t := Apply(s, l);
    UncutCons(s, l, []);
    UncutConcat(s0, ls, [l] + []);
    ms := ls + ([l] + []);
  }

  predicate Is(x: Worker, phase: Phase, cmd: seq<Command>, ack: nat) {
    x.phase == phase && x.cmd == cmd && x.ack == ack && !x.tick
  }

  // A live session with two light workers, and caller 2 at some place inside
  // ExecuteExclusive.
  predicate Stands(s: State, p: CallPhase) {
    && s.probes == [LIGHT_A, LIGHT_B] && |s.workers| == 2 && |s.callers| == 3 && s.owner == Some(2)
    && s.callers[0] == IDLE && s.callers[1] == IDLE && s.callers[2].phase == p
    && s.running && !s.cancelled && s.lost == {} && Lights(s.probes) == [0, 1]
    && (s.handles == 2 || p == PauseEntry) && (s.paused <==> p == InFn || p == ResumeEntry(true) || p.Resuming?)
  }

  // A step of caller 2 that touches no channel.
  lemma Moves(s0: State, ls: seq<Label>, s: State, p: CallPhase, a: CallAct, q: CallPhase)
    returns (ms: seq<Label>, t: State)
    requires LeadsLive(s0, ls, s) && Stands(s, p)
    requires match a
             case EnterPause => p == PauseEntry && q == Broadcasting(0)
             case EndBroadcast => p == Broadcasting(2) && q == Collecting(0)
             case CommitPause => p == Collecting(2) && q == InFn
             case FnReturn(_) => p == InFn && q == ResumeEntry(true)
             case EnterResume => p == ResumeEntry(true) && q == Resuming(0, true)
             case _ => false
    ensures LeadsLive(s0, ms, t) && Stands(t, q) && t.workers == s.workers
  {
    hide Leads, Live;
    ms, t := Then(s0, ls, s, Call(2, a));
  }

  // A step of caller 2 on a channel of worker w.
  lemma Operates(s0: State, ls: seq<Label>, s: State, p: CallPhase, a: CallAct, q: CallPhase, w: nat)
    returns (ms: seq<Label>, t: State)
    requires LeadsLive(s0, ls, s) && Stands(s, p) && w < 2 && |s.workers| == 2
    requires match a
             case SendPause => p == Broadcasting(w) && q == Broadcasting(w + 1) && s.workers[w].cmd == []
             case CollectAck => p == Collecting(w) && q == Collecting(w + 1) && s.workers[w].ack == 1
             case SendResume => p == Resuming(w, true) && q == Resuming(w + 1, true) && s.workers[w].cmd == []
             case _ => false
    ensures LeadsLive(s0, ms, t) && Stands(t, q) && |t.workers| == 2
    ensures var x := s.workers[w];
            Is(x, x.phase, x.cmd, x.ack) ==>
              Is(t.workers[w], x.phase,
                 match a { case SendPause => [Pause] case CollectAck => x.cmd case _ => [Resume] },
                 if a == CollectAck then 0 else x.ack)
    ensures t.workers[1 - w] == s.workers[1 - w]
  {
    hide Leads, Live;
    assert Target(s, 2) == w;
    assert [] + [Pause] == [Pause] && [] + [Resume] == [Resume];
    ms, t := Then(s0, ls, s, Call(2, a));
    assert t.workers[w] == TargetAfter(s.workers[w], a);
  }

  // A step of worker w.
  lemma Works(s0: State, ls: seq<Label>, s: State, p: CallPhase, w: nat, a: WorkAct) returns (ms: seq<Label>, t: State)
    requires LeadsLive(s0, ls, s) && Stands(s, p) && w < 2 && WorkEnabled(s, w, a)
    ensures LeadsLive(s0, ms, t) && Stands(t, p)
    ensures t.workers == s.workers[w := WorkerAfter(s.workers[w], false, a)]
  {
    hide Leads, Live, WorkerAfter;
    ms, t := Then(s0, ls, s, Work(w, a));
  }

  // Worker w starts, takes its CmdPause and acknowledges.
  lemma Acknowledges(s0: State, ls: seq<Label>, s: State, p: CallPhase, w: nat) returns (ms: seq<Label>, t: State)
    requires LeadsLive(s0, ls, s) && Stands(s, p) && w < 2 && |s.workers| == 2
    requires Is(s.workers[w], NotStarted, [Pause], 0) && s.callers[w] == IDLE
    ensures LeadsLive(s0, ms, t) && Stands(t, p) && |t.workers| == 2
    ensures Is(t.workers[w], Paused, [], 1) && t.workers[1 - w] == s.workers[1 - w]
  {
    hide LeadsLive;
    ms, t := Works(s0, ls, s, p, w, Launch);
    assert t.callers[w] == IDLE;
    ms, t := Works(s0, ms, t, p, w, FinishCheck);
    ms, t := Works(s0, ms, t, p, w, TakeCommand);
    ms, t := Works(s0, ms, t, p, w, PushAck);
  }

  lemma Locked() returns (ls: seq<Label>, s: State)
    ensures LeadsLive(FirstStart(LIGHT_B), ls, s) && Stands(s, PauseEntry) && s.workers == [READY, READY]
  {
    var s0 := FirstStart(LIGHT_B);
    ListOfTwo(LIGHT_B);
    ls, s := Then(s0, [], s0, Call(2, Request));
    ls, s := Then(s0, ls, s, Call(2, Lock));
  }

  // The first loop of a PauseAll that finds both command channels empty.
  lemma SendsBoth(s0: State, ls: seq<Label>, s: State, x: Worker, y: Worker) returns (ms: seq<Label>, t: State)
    requires LeadsLive(s0, ls, s) && Stands(s, PauseEntry) && s.workers == [x, y]
    requires Is(x, x.phase, [], x.ack) && Is(y, y.phase, [], y.ack)
    ensures LeadsLive(s0, ms, t) && Stands(t, Broadcasting(2)) && |t.workers| == 2
    ensures Is(t.workers[0], x.phase, [Pause], x.ack) && Is(t.workers[1], y.phase, [Pause], y.ack)
  {
    hide LeadsLive;
    ms, t := Moves(s0, ls, s, PauseEntry, EnterPause, Broadcasting(0));
    ms, t := Operates(s0, ms, t, Broadcasting(0), SendPause, Broadcasting(1), 0);
    ms, t := Operates(s0, ms, t, Broadcasting(1), SendPause, Broadcasting(2), 1);
  }

  lemma BothSent() returns (ls: seq<Label>, s: State)
    ensures LeadsLive(FirstStart(LIGHT_B), ls, s) && Stands(s, Broadcasting(2)) && |s.workers| == 2
    ensures Is(s.workers[0], NotStarted, [Pause], 0) && Is(s.workers[1], NotStarted, [Pause], 0)
  {
    hide LeadsLive, Stands;
    ls, s := Locked();
    ls, s := SendsBoth(FirstStart(LIGHT_B), ls, s, READY, READY);
  }

  // Both have been sent CmdPause; the first worker has acknowledged.
  lemma FirstAck() returns (ls: seq<Label>, s: State)
    ensures LeadsLive(FirstStart(LIGHT_B), ls, s) && Stands(s, Collecting(0)) && |s.workers| == 2
    ensures Is(s.workers[0], Paused, [], 1) && Is(s.workers[1], NotStarted, [Pause], 0)
  {
    hide LeadsLive;
    var s0 := FirstStart(LIGHT_B);
    ls, s := BothSent();
    ls, s := Moves(s0, ls, s, Broadcasting(2), EndBroadcast, Collecting(0));
    ls, s := Acknowledges(s0, ls, s, Collecting(0), 0);
  }

  lemma FirstCollected() returns (ls: seq<Label>, s: State)
    ensures LeadsLive(FirstStart(LIGHT_B), ls, s) && Stands(s, Collecting(1)) && |s.workers| == 2
    ensures Is(s.workers[0], Paused, [], 0) && Is(s.workers[1], NotStarted, [Pause], 0)
  {
    hide LeadsLive;
    ls, s := FirstAck();
    ls, s := Operates(FirstStart(LIGHT_B), ls, s, Collecting(0), CollectAck, Collecting(1), 0);
  }

  lemma InsideFn() returns (ls: seq<Label>, s: State)
    ensures LeadsLive(FirstStart(LIGHT_B), ls, s) && Stands(s, InFn) && |s.workers| == 2
    ensures Is(s.workers[0], Paused, [], 0) && Is(s.workers[1], Paused, [], 0)
  {
    hide LeadsLive;
    var s0 := FirstStart(LIGHT_B);
    ls, s := FirstCollected();
    ls, s := Acknowledges(s0, ls, s, Collecting(1), 1);
    ls, s := Operates(s0, ls, s, Collecting(1), CollectAck, Collecting(2), 1);
    ls, s := Moves(s0, ls, s, Collecting(2), CommitPause, InFn);
  }

  // Caller 2 is cancelled and leaves.
  lemma GivesUp(s0: State, ls: seq<Label>, s: State, p: CallPhase) returns (ms: seq<Label>, t: State)
    requires LeadsLive(s0, ls, s) && Stands(s, p) && (p == Collecting(0) || p == Collecting(1))
    ensures LeadsLive(s0, ms, t) && t.workers == s.workers && t.probes == s.probes
    ensures t.callers == [IDLE, IDLE, Caller(Idle, true)] && t.owner == None && t.running && !t.paused && !t.cancelled
    ensures if p == Collecting(1) then t.lost != {} else t.lost == {}
  {
    hide Leads, Live;
    ms, t := Then(s0, ls, s, CancelCall(2));
    assert Collected(t, 0) == {};
    if p == Collecting(1) {
      assert Nth(t, 0) in Collected(t, 1);
    }
    ms, t := Then(s0, ms, t, Call(2, AbortPause));
    assert if p == Collecting(1) then t.lost != {} else t.lost == {};
    ms, t := Leaves(s0, ms, t);
  }

  lemma Leaves(s0: State, ls: seq<Label>, s: State) returns (ms: seq<Label>, t: State)
    requires LeadsLive(s0, ls, s) && s.callers == [IDLE, IDLE, Caller(ResumeEntry(false), true)] && !s.paused
    ensures LeadsLive(s0, ms, t) && t == s.(callers := [IDLE, IDLE, Caller(Idle, true)], owner := None)
  {
    hide Leads, Live;
    ms, t := Then(s0, ls, s, Call(2, EnterResume));
    assert t.callers == [IDLE, IDLE, Caller(Unlocking, true)];
    ms, t := Then(s0, ms, t, Call(2, Unlock));
    assert t.callers == [IDLE, IDLE, Caller(Idle, true)];
  }

  // ---- A PauseAll that gives up after collecting an ack --------------------------

  // ExactRecovery: a live run after which a waiting call cannot reach fn.
  lemma AbortWithAcksReachable() returns (ls: seq<Label>)
    ensures var s0 := FirstStart(LIGHT_B);
            && CleanStart(s0) && NoStaleAck(s0) && UncutRun(s0, ls) && Live(ls) && CanRun(s0, ls)
            && AbortsWithAcks(s0, ls) && HasPhase(Exec(s0, ls), 2, Waiting)
  {
    hide Stands, Is, UncutRun, CanRun, Exec, Live;
    var s0 := FirstStart(LIGHT_B);
    var s;
    ls, s := FirstCollected();
    ls, s := GivesUp(s0, ls, s, Collecting(1));
    ls, s := Then(s0, ls, s, Call(2, Request));
    FirstStartIsClean(LIGHT_B);
    StartIsWf(s0);
    LostExactlyByAborts(s0, ls);
  }

  // ---- A deadline that cuts a ResumeAll part-way ----------------------------------

  // DeadlineHarmlessExactly: a live run after which the deadline does harm.
  lemma PartialCutReachable() returns (ls: seq<Label>)
    ensures var s0 := FirstStart(LIGHT_B);
            && CleanStart(s0) && NoStaleAck(s0) && UncutRun(s0, ls) && Live(ls) && CanRun(s0, ls)
            && CallEnabled(Exec(s0, ls), 2, ResumeDeadline) && !CutUnnoticed(Exec(s0, ls), 2)
  {
    hide UncutRun, CanRun, Exec, Live;
    var s0 := FirstStart(LIGHT_B);
    var s;
    ls, s := InsideFn();
    ls, s := Moves(s0, ls, s, InFn, FnReturn(Success), ResumeEntry(true));
    ls, s := Moves(s0, ls, s, ResumeEntry(true), EnterResume, Resuming(0, true));
    ls, s := Operates(s0, ls, s, Resuming(0, true), SendResume, Resuming(1, true), 0);
    FirstStartIsClean(LIGHT_B);
    CutIsNoticed(s);
  }

  lemma CutIsNoticed(s: State)
    requires Stands(s, Resuming(1, true)) && s.workers[0].phase == Paused
    ensures CallEnabled(s, 2, ResumeDeadline) && !CutUnnoticed(s, 2)
  {
    assert Nth(s, 0) == 0;
  }

  // ---- What a second session can inherit ------------------------------------------

  // The session has been stopped, and Stop has returned.
  predicate IsStopped(s: State) {
    !s.running && Drained(s)
  }

  // Of two light workers, none is in a check.
  predicate CanLeave(s: State) {
    && s.probes == [LIGHT_A, LIGHT_B] && |s.workers| == 2 && |s.callers| == 3
    && s.callers[0] == IDLE && s.callers[1] == IDLE
    && forall w :: 0 <= w < 2 ==>
         !s.workers[w].tick && (s.workers[w].phase == Paused || s.workers[w].phase == NotStarted)
  }

  lemma Exits(s0: State, ls: seq<Label>, s: State, w: nat) returns (ms: seq<Label>, t: State)
    requires Leads(s0, ls, s) && w < |s.workers| && s.cancelled && !s.probes[w].exclusive && s.callers[w] == IDLE
    requires !s.workers[w].tick && (s.workers[w].phase == Paused || s.workers[w].phase == NotStarted)
    ensures Leads(s0, ms, t) && t == s.(workers := s.workers[w := s.workers[w].(phase := Exited)])
  {
    hide Leads;
    ms, t := ls, s;
    if s.workers[w].phase == NotStarted {
      ms, t := Then(s0, ms, t, Work(w, Launch));
      ms, t := Then(s0, ms, t, Work(w, FinishCheck));
    }
    ms, t := Then(s0, ms, t, Work(w, Exit));
    assert t.workers == s.workers[w := s.workers[w].(phase := Exited)];
  }

  lemma Stops(s0: State, ls: seq<Label>, s: State) returns (ms: seq<Label>, t: State)
    requires Leads(s0, ls, s) && CanLeave(s) && s.running
    ensures Leads(s0, ms, t) && IsStopped(t)
    ensures t == s.(cancelled := true, running := false, paused := false,
                    workers := [s.workers[0].(phase := Exited), s.workers[1].(phase := Exited)])
  {
    hide Leads;
    ms, t := Then(s0, ls, s, StopRun);
    ms, t := Exits(s0, ms, t, 0);
    ms, t := Exits(s0, ms, t, 1);
    assert t.workers == [s.workers[0].(phase := Exited), s.workers[1].(phase := Exited)];
  }

  // SafeExactlyAfterStart: a queued ack.
  lemma StaleAckReachable() returns (ls: seq<Label>)
    ensures var s0 := FirstStart(LIGHT_B);
            && CleanStart(s0) && UncutRun(s0, ls) && CanRun(s0, ls) && IsStopped(Exec(s0, ls))
            && Restarted(AfterStart(Exec(s0, ls))) && !NoStaleAck(AfterStart(Exec(s0, ls)))
            && AfterStart(Exec(s0, ls)).owner == None
  {
    hide UncutRun, CanRun, Exec, Live;
    var s0 := FirstStart(LIGHT_B);
    var s;
    ls, s := FirstAck();
    ls, s := GivesUp(s0, ls, s, Collecting(0));
    ls, s := Stops(s0, ls, s);
    FirstStartIsClean(LIGHT_B);
    assert IsLight(AfterStart(s), 0) && OwnerPhase(AfterStart(s)) == Idle;
  }

  // SafeExactlyAfterStart: a call inside fn, with every channel empty.
  lemma InheritedFnReachable() returns (ls: seq<Label>)
    ensures var s0 := FirstStart(LIGHT_B);
            && CleanStart(s0) && UncutRun(s0, ls) && CanRun(s0, ls) && IsStopped(Exec(s0, ls))
            && var t := AfterStart(Exec(s0, ls));
               && Restarted(t) && NoStaleAck(t) && Compromised(t) && HasPhase(t, 2, InFn)
               && forall w :: 0 <= w < |t.workers| ==> t.workers[w].cmd == [] && t.workers[w].ack == 0
  {
    hide UncutRun, CanRun, Exec, Live;
    var s0 := FirstStart(LIGHT_B);
    var s;
    ls, s := InsideFn();
    ls, s := Stops(s0, ls, s);
    FirstStartIsClean(LIGHT_B);
    assert OwnerPhase(AfterStart(s)) == InFn;
  }

  // SafeExactlyAfterStart: a call that has collected an ack of the old session and
  // waits for another, whose CmdPause is still queued.
  lemma InheritedCollectingReachable() returns (ls: seq<Label>)
    ensures var s0 := FirstStart(LIGHT_B);
            && CleanStart(s0) && UncutRun(s0, ls) && CanRun(s0, ls) && IsStopped(Exec(s0, ls))
            && var t := AfterStart(Exec(s0, ls));
               Restarted(t) && NoStaleAck(t) && Compromised(t) && HasPhase(t, 2, Collecting(1))
  {
    hide UncutRun, CanRun, Exec, Live;
    var s0 := FirstStart(LIGHT_B);
    var s;
    ls, s := FirstCollected();
    ls, s := Stops(s0, ls, s);
    FirstStartIsClean(LIGHT_B);
    var t := AfterStart(s);
    assert OwnerPhase(t) == Collecting(1) && Nth(t, 1) == 1 && PauseQueued(t, 1);
  }

  // Caller 2 comes back.
  lemma ComesBack(s0: State, ls: seq<Label>, s: State) returns (ms: seq<Label>, t: State)
    requires LeadsLive(s0, ls, s) && s.probes == [LIGHT_A, LIGHT_B] && s.callers == [IDLE, IDLE, Caller(Idle, true)]
    requires s.owner == None && s.running && !s.paused && !s.cancelled && s.lost == {}
    ensures LeadsLive(s0, ms, t) && Stands(t, PauseEntry) && t.workers == s.workers
  {
    hide Leads, Live;
    ListOfTwo(LIGHT_B);
    ms, t := Then(s0, ls, s, Call(2, Request));
    ms, t := Then(s0, ms, t, Call(2, Lock));
  }

  // Both workers are in their pause loop with an ack queued, since the call that
  // paused them gave up, and caller 2 is back.
  lemma BothAckedForNobody() returns (ls: seq<Label>, s: State)
    ensures LeadsLive(FirstStart(LIGHT_B), ls, s) && Stands(s, PauseEntry) && |s.workers| == 2
    ensures Is(s.workers[0], Paused, [], 1) && Is(s.workers[1], Paused, [], 1)
  {
    hide LeadsLive;
    var s0 := FirstStart(LIGHT_B);
    ls, s := FirstAck();
    ls, s := Acknowledges(s0, ls, s, Collecting(0), 1);
    ls, s := GivesUp(s0, ls, s, Collecting(0));
    ls, s := ComesBack(s0, ls, s);
  }

  // A second loop that finds both acks queued.
  lemma CollectsBoth(s0: State, ls: seq<Label>, s: State) returns (ms: seq<Label>, t: State)
    requires LeadsLive(s0, ls, s) && Stands(s, Broadcasting(2)) && |s.workers| == 2
    requires Is(s.workers[0], Paused, [Pause], 1) && Is(s.workers[1], Paused, [Pause], 1)
    ensures LeadsLive(s0, ms, t) && Stands(t, Collecting(2)) && |t.workers| == 2
    ensures Is(t.workers[0], Paused, [Pause], 0) && Is(t.workers[1], Paused, [Pause], 0)
  {
    hide LeadsLive;
    ms, t := Moves(s0, ls, s, Broadcasting(2), EndBroadcast, Collecting(0));
    ms, t := Operates(s0, ms, t, Collecting(0), CollectAck, Collecting(1), 0);
    ms, t := Operates(s0, ms, t, Collecting(1), CollectAck, Collecting(2), 1);
  }

  // Its second CmdPause to each is still queued when the acks have been collected.
  lemma ResumingWithPauseQueued() returns (ls: seq<Label>, s: State)
    ensures LeadsLive(FirstStart(LIGHT_B), ls, s) && Stands(s, Resuming(0, true)) && |s.workers| == 2
    ensures Is(s.workers[0], Paused, [Pause], 0) && Is(s.workers[1], Paused, [Pause], 0)
  {
    hide LeadsLive, Stands;
    var s0 := FirstStart(LIGHT_B);
    ls, s := BothAckedForNobody();
    ls, s := SendsBoth(s0, ls, s, s.workers[0], s.workers[1]);
    ls, s := CollectsBoth(s0, ls, s);
    ls, s := Moves(s0, ls, s, Collecting(2), CommitPause, InFn);
    ls, s := Moves(s0, ls, s, InFn, FnReturn(Success), ResumeEntry(true));
    ls, s := Moves(s0, ls, s, ResumeEntry(true), EnterResume, Resuming(0, true));
  }

  // SafeExactlyAfterStart: a call in ResumeAll with a CmdPause queued ahead of it.
  lemma InheritedResumingReachable() returns (ls: seq<Label>)
    ensures var s0 := FirstStart(LIGHT_B);
            && CleanStart(s0) && UncutRun(s0, ls) && CanRun(s0, ls) && IsStopped(Exec(s0, ls))
            && var t := AfterStart(Exec(s0, ls));
               Restarted(t) && NoStaleAck(t) && Compromised(t) && HasPhase(t, 2, Resuming(0, true))
  {
    hide UncutRun, CanRun, Exec, Live;
    var s0 := FirstStart(LIGHT_B);
    var s;
    ls, s := ResumingWithPauseQueued();
    ls, s := Stops(s0, ls, s);
    FirstStartIsClean(LIGHT_B);
    var t := AfterStart(s);
    assert OwnerPhase(t) == Resuming(0, true) && Nth(t, 0) == 0 && PauseQueued(t, 0);
  }

  const LIGHT_D := Probe("d", false)

  // SafeExactlyAfterStart: a PauseAll that does not know a worker registered since,
  // and has its CmdPause queued for those it knows.
  lemma InheritedBroadcastReachable() returns (ls: seq<Label>)
    ensures var s0 := FirstStart(LIGHT_B);
            && CleanStart(s0) && UncutRun(s0, ls) && CanRun(s0, ls) && IsStopped(Exec(s0, ls))
            && var t := AfterStart(WithWorker(Exec(s0, ls), LIGHT_D));
               && Restarted(t) && NoStaleAck(t) && Compromised(t)
               && HasPhase(t, 3, Broadcasting(2)) && t.handles < |Lights(t.probes)|
  {
    hide UncutRun, CanRun, Exec, Live;
    var s0 := FirstStart(LIGHT_B);
    var s;
    ls, s := BothSent();
    ls, s := Stops(s0, ls, s);
    FirstStartIsClean(LIGHT_B);
    NewcomerIsMissed(s);
  }

  lemma NewcomerIsMissed(s: State)
    requires s.probes == [LIGHT_A, LIGHT_B] && |s.workers| == 2 && |s.callers| == 3 && s.owner == Some(2)
    requires s.callers[0] == IDLE && s.callers[1] == IDLE && s.callers[2].phase == Broadcasting(2)
    requires Is(s.workers[0], Exited, [Pause], 0) && Is(s.workers[1], Exited, [Pause], 0)
    requires s.handles == 2 && Lights(s.probes) == [0, 1]
    ensures var t := AfterStart(WithWorker(s, LIGHT_D));
            && Restarted(t) && NoStaleAck(t) && Compromised(t)
            && HasPhase(t, 3, Broadcasting(2)) && t.handles < |Lights(t.probes)|
  {
    var u := WithWorker(s, LIGHT_D);
    ListsGrow(s.probes, LIGHT_D);
    assert u.callers == [IDLE, IDLE, IDLE, s.callers[2]] && u.owner == Some(3);
    var t := AfterStart(u);
    assert t.workers == [s.workers[0].(phase := NotStarted), s.workers[1].(phase := NotStarted),
                         NewWorker().(phase := NotStarted)];
    assert OwnerPhase(t) == Broadcasting(2) && Nth(t, 0) == 0 && Nth(t, 1) == 1;
  }

  // ---- The same in the program's own use -------------------------------------------

  // Worker 0 is light, worker 1 is a Speedtest; there are no outside callers.
  function OwnStart(): State {
    RawState([LIGHT_A, SPEEDTEST], [READY, READY], [IDLE, IDLE], None, true, false, false, {}, 0)
  }

  // The Speedtest is in its call, at phase p.
  predicate OwnStands(s: State, p: CallPhase) {
    && s.probes == [LIGHT_A, SPEEDTEST] && Lights(s.probes) == [0] && |s.workers| == 2
    && s.callers == [IDLE, Caller(p, false)] && s.owner == Some(1) && s.handles == 1
    && Is(s.workers[1], Checking, [], 0) && !s.paused && s.lost == {}
  }

  lemma OwnInside() returns (ls: seq<Label>, s: State)
    ensures Leads(OwnStart(), ls, s) && OwnStands(s, Broadcasting(0)) && s.workers[0] == READY && s.running
  {
    var s0 := OwnStart();
    ListOfTwo(SPEEDTEST);
    ls, s := Then(s0, [], s0, Work(1, Launch));
    assert s.callers == [IDLE, Caller(Waiting, false)];
    ls, s := Then(s0, ls, s, Call(1, Lock));
    assert s.callers == [IDLE, Caller(PauseEntry, false)];
    ls, s := Then(s0, ls, s, Call(1, EnterPause));
    assert s.callers == [IDLE, Caller(Broadcasting(0), false)];
  }

  lemma OwnCollecting() returns (ls: seq<Label>, s: State)
    ensures Leads(OwnStart(), ls, s) && OwnStands(s, Collecting(0)) && s.running
    ensures Is(s.workers[0], NotStarted, [Pause], 0)
  {
    hide Leads;
    ls, s := OwnInside();
    assert Target(s, 1) == 0 && [] + [Pause] == [Pause];
    ls, s := Then(OwnStart(), ls, s, Call(1, SendPause));
    assert s.callers == [IDLE, Caller(Broadcasting(1), false)];
    ls, s := Then(OwnStart(), ls, s, Call(1, EndBroadcast));
    assert s.callers == [IDLE, Caller(Collecting(0), false)];
  }

  lemma OwnAcked() returns (ls: seq<Label>, s: State)
    ensures Leads(OwnStart(), ls, s) && OwnStands(s, Collecting(0)) && s.running && Is(s.workers[0], Paused, [], 1)
  {
    hide Leads;
    ls, s := OwnCollecting();
    ls, s := Then(OwnStart(), ls, s, Work(0, Launch));
    ls, s := Then(OwnStart(), ls, s, Work(0, FinishCheck));
    ls, s := Then(OwnStart(), ls, s, Work(0, TakeCommand));
    ls, s := Then(OwnStart(), ls, s, Work(0, PushAck));
  }

  // Stop cancels the Speedtest's context along with the run's, so its call gives up.
  lemma OwnGaveUp() returns (ls: seq<Label>, s: State)
    ensures Leads(OwnStart(), ls, s) && s.probes == [LIGHT_A, SPEEDTEST] && |s.workers| == 2
    ensures s.callers == [IDLE, IDLE] && s.owner == None && !s.running && s.cancelled
    ensures Is(s.workers[0], Paused, [], 1) && Is(s.workers[1], Checking, [], 0)
  {
    hide Leads;
    ls, s := OwnAcked();
    ls, s := Then(OwnStart(), ls, s, StopRun);
    ls, s := Then(OwnStart(), ls, s, Call(1, AbortPause));
    assert s.callers == [IDLE, Caller(ResumeEntry(false), false)];
    ls, s := Then(OwnStart(), ls, s, Call(1, EnterResume));
    assert s.callers == [IDLE, Caller(Unlocking, false)];
    ls, s := Then(OwnStart(), ls, s, Call(1, Unlock));
    assert s.callers == [IDLE, IDLE];
  }

  // OwnSessionSafeExactly: an ack queued at the Stop is inherited.
  lemma OwnStaleAckReachable() returns (ls: seq<Label>)
    ensures CleanStart(OwnStart()) && CanRun(OwnStart(), ls) && IsStopped(Exec(OwnStart(), ls))
    ensures var t := AfterStart(Exec(OwnStart(), ls));
            SessionStart(t) && !NoStaleAck(t) && |t.callers| == |t.workers|
  {
    var s;
    ls, s := OwnStopped();
    hide Leads, CanRun, Exec;
    LeadsMeans(OwnStart(), ls, s);
    assert IsLight(AfterStart(s), 0);
  }

  lemma OwnStopped() returns (ls: seq<Label>, s: State)
    ensures Leads(OwnStart(), ls, s) && s.probes == [LIGHT_A, SPEEDTEST] && |s.workers| == 2 && !s.running
    ensures s.callers == [IDLE, IDLE] && s.owner == None
    ensures Is(s.workers[0], Exited, [], 1) && Is(s.workers[1], Exited, [], 0)
  {
    hide Leads;
    ls, s := OwnGaveUp();
    ls, s := Then(OwnStart(), ls, s, Work(1, FinishCheck));
    ls, s := Then(OwnStart(), ls, s, Work(1, Exit));
    ls, s := Then(OwnStart(), ls, s, Work(0, Exit));
  }

  // ---- A Stop that never returns ---------------------------------------------------

  // OutsideCallerCanBlockStop: the light worker has exited with its CmdPause queued,
  // caller 2 waits for its ack, the exclusive worker waits for caller 2.
  lemma WedgedReachable() returns (ls: seq<Label>)
    ensures var s0 := FirstStart(SPEEDTEST);
            CleanStart(s0) && UncutRun(s0, ls) && CanRun(s0, ls) && Wedged(Exec(s0, ls), 2, 1)
  {
    var s0 := FirstStart(SPEEDTEST);
    FirstStartIsClean(SPEEDTEST);
    var s;
    hide Leads;
    ls, s := AloneInCollecting();
    ls, s := Then(s0, ls, s, CancelRun);
    ls, s := Exits(s0, ls, s, 0);
    ls, s := Then(s0, ls, s, Work(1, Launch));
    assert Target(s, 2) == 0;
    assert Exec(s0, ls) == s && UncutRun(s0, ls) by {
      LeadsMeans(s0, ls, s);
    }
  }

  lemma LeadsMeans(s0: State, ls: seq<Label>, s: State)
    requires Leads(s0, ls, s)
    ensures UncutRun(s0, ls) && CanRun(s0, ls) && Exec(s0, ls) == s
  {
  }

  lemma AloneInCollecting() returns (ls: seq<Label>, s: State)
    ensures Leads(FirstStart(SPEEDTEST), ls, s)
    ensures s.probes == [LIGHT_A, SPEEDTEST] && Lights(s.probes) == [0] && s.handles == 1
    ensures s.callers == [IDLE, IDLE, Caller(Collecting(0), false)] && s.owner == Some(2)
    ensures |s.workers| == 2 && Is(s.workers[0], NotStarted, [Pause], 0) && s.workers[1] == READY
  {
    hide Leads;
    ls, s := AloneInside();
    assert Target(s, 2) == 0 && [] + [Pause] == [Pause];
    ls, s := Then(FirstStart(SPEEDTEST), ls, s, Call(2, SendPause));
    ls, s := Then(FirstStart(SPEEDTEST), ls, s, Call(2, EndBroadcast));
    assert s.callers == [IDLE, IDLE, Caller(Collecting(0), false)];
  }

  lemma AloneInside() returns (ls: seq<Label>, s: State)
    ensures Leads(FirstStart(SPEEDTEST), ls, s)
    ensures s.probes == [LIGHT_A, SPEEDTEST] && Lights(s.probes) == [0] && s.handles == 1
    ensures s.callers == [IDLE, IDLE, Caller(Broadcasting(0), false)] && s.owner == Some(2)
    ensures s.workers == [READY, READY]
  {
    var s0 := FirstStart(SPEEDTEST);
    ListOfTwo(SPEEDTEST);
    ls, s := Then(s0, [], s0, Call(2, Request));
    ls, s := Then(s0, ls, s, Call(2, Lock));
    assert s.callers == [IDLE, IDLE, Caller(PauseEntry, false)];
    ls, s := Then(s0, ls, s, Call(2, EnterPause));
    assert s.callers == [IDLE, IDLE, Caller(Broadcasting(0), false)];
  }
}
