// One session of the scheduler, from Start until every worker goroutine has
// exited, as a machine whose steps are the atomic actions of the goroutines:
// a channel send or receive, a critical section of `mu`, a lock or unlock of
// `exclusiveMu`, the start or the end of a check, a cancellation.
//
// A step is named by a Label. Several labels can be enabled at once; Go's
// `select` and its goroutine scheduler are the choice among them, so a run is
// any sequence of labels each of which is enabled when its turn comes.
module Session {
  import opened Wrappers

  datatype Command = Pause | Resume | Stop

  // Where the goroutine of a worker stands in its Start loop. A light worker
  // goes through all of them. An exclusive worker is `Checking` while it is
  // inside triggerMeasurement; where it stands there is its Caller's phase.
  datatype Phase = NotStarted | Checking | Selecting | AckPending | Paused | Exited

  // What is fixed at registration.
  datatype Probe = Probe(name: string, exclusive: bool)

  // What has gone through the two channels of a worker.
  datatype Log = Log(
    sent: seq<Command>,      // every command put into cmdChan, in order
    received: seq<Command>,  // every command taken out of cmdChan, in order
    pauses: nat,             // pauses taken by the main loop
    swallowed: nat,          // pauses taken (and ignored) by the pause loop
    acksSent: nat,
    acksTaken: nat)

  // cmdChan and ackChan have capacity 1; `ack` counts the tokens in ackChan.
  datatype Worker = Worker(phase: Phase, tick: bool, cmd: seq<Command>, ack: nat, log: Log)

  // Where a goroutine stands inside ExecuteExclusive. The argument of
  // Broadcasting, Collecting and Resuming is the position the loop has reached
  // in its nonExclusiveHandles; `bounded` tells the deferred ResumeAll (5s deadline)
  // from the one that follows a failed PauseAll (no deadline).
  datatype CallPhase =
    | Idle
    | Waiting
    | PauseEntry
    | Broadcasting(i: nat)
    | Collecting(i: nat)
    | InFn
    | ResumeEntry(bounded: bool)
    | Resuming(i: nat, bounded: bool)
    | Unlocking

  datatype Caller = Caller(phase: CallPhase, ctxDone: bool)

  // Caller c is the goroutine of worker c when c < |workers|; the remaining
  // callers are goroutines outside the scheduler that use its API.
  datatype RawState = RawState(
    probes: seq<Probe>,
    workers: seq<Worker>,
    callers: seq<Caller>,
    owner: Option<nat>,   // the holder of exclusiveMu
    running: bool,
    paused: bool,
    cancelled: bool,      // the run context
    lost: set<nat>,       // workers whose ack was collected by a PauseAll that then aborted
    handles: nat)         // length of the last nonExclusiveHandles listed by a goroutine inside

  predicate Shape(s: RawState) {
    |s.workers| == |s.probes| <= |s.callers| && s.handles <= |Lights(s.probes)|
  }

  type State = s: RawState | Shape(s)
    witness RawState([], [], [], None, false, false, false, {}, 0)

  datatype Outcome = Success | Failure | Panic

  // A step of a worker goroutine.
  datatype WorkAct = Launch | FinishCheck | Tick | StartCheck | TakeCommand | PushAck | Exit

  // A step of a goroutine inside ExecuteExclusive.
  datatype CallAct =
    | Request
    | Lock
    | EnterPause
    | SendPause
    | EndBroadcast
    | CollectAck
    | AbortPause
    | CommitPause
    | FnReturn(outcome: Outcome)
    | EnterResume
    | SendResume
    | ResumeDeadline
    | CommitResume
    | Unlock

  datatype Label =
    | Work(w: nat, act: WorkAct)
    | Call(c: nat, call: CallAct)
    | CancelCall(k: nat)   // the context a caller passed is cancelled
    | CancelRun            // the context passed to Start is cancelled
    | StopRun              // the critical section of Stop

  // ---- nonExclusiveHandles -------------------------------------------------

  // The positions of the non-exclusive probes, in registration order.
  function Lights(ps: seq<Probe>): seq<nat> {
    if ps == [] then []
    else Lights(ps[..|ps| - 1]) + if ps[|ps| - 1].exclusive then [] else [|ps| - 1]
  }

  predicate IsLight(s: State, w: nat) {
    w < |s.probes| && !s.probes[w].exclusive
  }

  lemma {:induction false} LightsExact(ps: seq<Probe>)
    ensures forall j :: 0 <= j < |Lights(ps)| ==> Lights(ps)[j] < |ps| && !ps[Lights(ps)[j]].exclusive
    ensures forall j, k :: 0 <= j < k < |Lights(ps)| ==> Lights(ps)[j] < Lights(ps)[k]
    ensures forall w :: 0 <= w < |ps| && !ps[w].exclusive ==> w in Lights(ps)
  {
    if ps != [] {
      var rest := ps[..|ps| - 1];
      LightsExact(rest);
      forall w | 0 <= w < |ps| && !ps[w].exclusive
        ensures w in Lights(ps)
      {
        if w < |rest| {
          assert rest[w] == ps[w] && w in Lights(rest);
        }
      }
    }
  }

  // The worker at position j of nonExclusiveHandles.
  function Nth(s: State, j: nat): (w: nat)
    requires j < |Lights(s.probes)|
    ensures w < |s.workers| && IsLight(s, w)
  {
    LightsExact(s.probes);
    Lights(s.probes)[j]
  }

  lemma NthInjective(s: State, j: nat, k: nat)
    requires j < |Lights(s.probes)| && k < |Lights(s.probes)|
    ensures Nth(s, j) == Nth(s, k) <==> j == k
  {
    LightsExact(s.probes);
  }

  // Where a light worker stands in nonExclusiveHandles.
  lemma Position(s: State, w: nat) returns (j: nat)
    requires IsLight(s, w)
    ensures j < |Lights(s.probes)| && Nth(s, j) == w
  {
    LightsExact(s.probes);
    j :| 0 <= j < |Lights(s.probes)| && Lights(s.probes)[j] == w;
  }

  // ---- One step ------------------------------------------------------------

  predicate HasPhase(s: State, c: nat, p: CallPhase) {
    c < |s.callers| && s.callers[c].phase == p
  }

  // ctx.Done() of the context a caller passed to ExecuteExclusive: a worker
  // passes the run context.
  predicate CtxDone(s: State, c: nat)
    requires c < |s.callers|
  {
    if c < |s.workers| then s.cancelled else s.callers[c].ctxDone
  }

  // The loop position of a phase that has one.
  function LoopIndex(p: CallPhase): nat {
    match p
    case Broadcasting(i) => i
    case Collecting(i) => i
    case Resuming(i, _) => i
    case _ => 0
  }

  // The caller is inside one of the three loops over nonExclusiveHandles, with
  // a handle still to serve. The list was made when the loop was entered: probes
  // registered since, which come after those, are not in it.
  predicate InLoop(s: State, c: nat) {
    && c < |s.callers|
    && var p := s.callers[c].phase;
       (p.Broadcasting? || p.Collecting? || p.Resuming?) && LoopIndex(p) < s.handles
  }

  // The worker whose turn it is in that loop.
  function Target(s: State, c: nat): (w: nat)
    requires InLoop(s, c)
    ensures w < |s.workers| && IsLight(s, w)
  {
    Nth(s, LoopIndex(s.callers[c].phase))
  }

  predicate LoopDone(s: State, c: nat) {
    c < |s.callers| && LoopIndex(s.callers[c].phase) == s.handles
  }

  predicate WorkEnabled(s: State, w: nat, a: WorkAct) {
    && w < |s.workers|
    && var x := s.workers[w];
       match a
       case Launch => x.phase == NotStarted && s.callers[w].phase == Idle
       case FinishCheck => x.phase == Checking && s.callers[w].phase == Idle
       case Tick => x.phase != NotStarted && x.phase != Exited
       case StartCheck => x.phase == Selecting && x.tick && s.callers[w].phase == Idle
       case TakeCommand => x.cmd != [] && (x.phase == Selecting || x.phase == Paused)
       case PushAck => x.phase == AckPending && x.ack == 0
       case Exit => s.cancelled && (x.phase == Selecting || x.phase == AckPending || x.phase == Paused)
  }

  predicate CallEnabled(s: State, c: nat, a: CallAct) {
    && c < |s.callers|
    && var p := s.callers[c].phase;
       match a
       case Request => p == Idle && |s.workers| <= c
       case Lock => p == Waiting && s.owner == None
       case EnterPause => p == PauseEntry
       case SendPause => p.Broadcasting? && InLoop(s, c) && s.workers[Target(s, c)].cmd == []
       case EndBroadcast => p.Broadcasting? && LoopDone(s, c)
       case CollectAck => p.Collecting? && InLoop(s, c) && s.workers[Target(s, c)].ack > 0
       case AbortPause => (p.Broadcasting? || p.Collecting?) && InLoop(s, c) && CtxDone(s, c)
       case CommitPause => p.Collecting? && LoopDone(s, c)
       case FnReturn(_) => p == InFn
       case EnterResume => p.ResumeEntry?
       case SendResume => p.Resuming? && InLoop(s, c) && s.workers[Target(s, c)].cmd == []
       case ResumeDeadline => p.Resuming? && p.bounded && InLoop(s, c)
       case CommitResume => p.Resuming? && LoopDone(s, c)
       case Unlock => p == Unlocking
  }

  predicate Enabled(s: State, l: Label) {
    match l
    case Work(w, a) => WorkEnabled(s, w, a)
    case Call(c, a) => CallEnabled(s, c, a)
    case CancelCall(c) => |s.workers| <= c < |s.callers|
    case CancelRun => true
    case StopRun => s.running
  }

  function SetWorker(s: State, w: nat, x: Worker): State
    requires w < |s.workers|
  {
    s.(workers := s.workers[w := x])
  }

  function SetPhase(s: State, c: nat, p: CallPhase): State
    requires c < |s.callers|
  {
    s.(callers := s.callers[c := s.callers[c].(phase := p)])
  }

  // One receive from cmdChan, in the main loop or in the pause loop.
  function Receive(x: Worker, exclusive: bool): Worker
    requires x.cmd != []
  {
    var m := x.cmd[0];
    var y := x.(cmd := x.cmd[1..], log := x.log.(received := x.log.received + [m]));
    if m == Stop then y.(phase := Exited)
    else if x.phase == Paused then
      if m == Resume then y.(phase := Selecting)
      else y.(log := y.log.(swallowed := y.log.swallowed + 1))
    else if m == Pause && !exclusive then y.(phase := AckPending, log := y.log.(pauses := y.log.pauses + 1))
    else y
  }

  function Deliver(x: Worker, m: Command): Worker {
    x.(cmd := x.cmd + [m], log := x.log.(sent := x.log.sent + [m]))
  }

  function WorkerAfter(x: Worker, exclusive: bool, a: WorkAct): Worker
    requires a.TakeCommand? ==> x.cmd != []
  {
    match a
    case Launch => x.(phase := Checking, tick := false)
    case FinishCheck => x.(phase := Selecting)
    case Tick => x.(tick := true)
    case StartCheck => x.(phase := Checking, tick := false)
    case TakeCommand => Receive(x, exclusive)
    case PushAck => x.(phase := Paused, ack := x.ack + 1, log := x.log.(acksSent := x.log.acksSent + 1))
    case Exit => x.(phase := Exited)
  }

  // A worker step changes that worker only; but entering a check, an exclusive
  // worker calls ExecuteExclusive, which starts by waiting for exclusiveMu.
  function WorkApply(s: State, w: nat, a: WorkAct): (t: State)
    requires WorkEnabled(s, w, a)
  {
    var t := SetWorker(s, w, WorkerAfter(s.workers[w], s.probes[w].exclusive, a));
    if (a.Launch? || a.StartCheck?) && s.probes[w].exclusive then SetPhase(t, w, Waiting) else t
  }

  function PhaseAfter(s: State, c: nat, a: CallAct): CallPhase
    requires CallEnabled(s, c, a)
  {
    var p := s.callers[c].phase;
    match a
    case Request => Waiting
    case Lock => PauseEntry
    case EnterPause => if !s.running then ResumeEntry(false) else if s.paused then InFn else Broadcasting(0)
    case SendPause => Broadcasting(p.i + 1)
    case EndBroadcast => Collecting(0)
    case CollectAck => Collecting(p.i + 1)
    case AbortPause => ResumeEntry(false)
    case CommitPause => InFn
    case FnReturn(_) => ResumeEntry(true)
    case EnterResume => if !s.running || !s.paused then Unlocking else Resuming(0, p.bounded)
    case SendResume => Resuming(p.i + 1, p.bounded)
    case ResumeDeadline => Unlocking
    case CommitResume => Unlocking
    case Unlock => Idle
  }

  // What a caller does to the worker whose turn it is.
  function TargetAfter(x: Worker, a: CallAct): Worker
    requires a.CollectAck? ==> x.ack > 0
  {
    match a
    case SendPause => Deliver(x, Pause)
    case CollectAck => x.(ack := x.ack - 1, log := x.log.(acksTaken := x.log.acksTaken + 1))
    case SendResume => Deliver(x, Resume)
    case _ => x
  }

  predicate TouchesTarget(a: CallAct) {
    a.SendPause? || a.CollectAck? || a.SendResume?
  }

  function CallApply(s: State, c: nat, a: CallAct): (t: State)
    requires CallEnabled(s, c, a)
  {
    var p := s.callers[c].phase;
    var t := SetPhase(s, c, PhaseAfter(s, c, a));
    if TouchesTarget(a) then SetWorker(t, Target(s, c), TargetAfter(s.workers[Target(s, c)], a))
    else match a
    case Request => t.(callers := t.callers[c := Caller(Waiting, false)])
    case Lock => t.(owner := Some(c))
    case EnterPause => if s.running && !s.paused then t.(handles := |Lights(s.probes)|) else t
    case EnterResume => if s.running && s.paused then t.(handles := |Lights(s.probes)|) else t
    case AbortPause => if p.Collecting? then t.(lost := s.lost + Collected(s, p.i)) else t
    case CommitPause => t.(paused := true)
    case CommitResume => t.(paused := false)
    case Unlock => t.(owner := None)
    case _ => t
  }

  function Apply(s: State, l: Label): (t: State)
    requires Enabled(s, l)
    ensures t.probes == s.probes && |t.workers| == |s.workers| && |t.callers| == |s.callers|
  {
    match l
    case Work(w, a) => WorkApply(s, w, a)
    case Call(c, a) => CallApply(s, c, a)
    case CancelCall(c) => s.(callers := s.callers[c := s.callers[c].(ctxDone := true)])
    case CancelRun => s.(cancelled := true)
    case StopRun => s.(cancelled := true, running := false, paused := false)
  }

  // The workers whose acks a collecting loop has received by position i.
  function Collected(s: State, i: nat): set<nat>
    requires i <= |Lights(s.probes)|
  {
    set j | 0 <= j < i :: Nth(s, j)
  }

  // ---- Runs ----------------------------------------------------------------

  predicate CanRun(s: State, ls: seq<Label>)
    decreases |ls|
  {
    ls == [] || (Enabled(s, ls[0]) && CanRun(Apply(s, ls[0]), ls[1..]))
  }

  function Exec(s: State, ls: seq<Label>): (t: State)
    requires CanRun(s, ls)
    ensures t.probes == s.probes && |t.workers| == |s.workers| && |t.callers| == |s.callers|
    decreases |ls|
  {
    if ls == [] then s else Exec(Apply(s, ls[0]), ls[1..])
  }

  lemma {:induction false} RunConcat(s: State, ls: seq<Label>, ms: seq<Label>)
    requires CanRun(s, ls) && CanRun(Exec(s, ls), ms)
    ensures CanRun(s, ls + ms) && Exec(s, ls + ms) == Exec(Exec(s, ls), ms)
    decreases |ls|
  {
    if ls == [] {
      assert ls + ms == ms;
    } else {
      assert (ls + ms)[1..] == ls[1..] + ms;
      RunConcat(Apply(s, ls[0]), ls[1..], ms);
    }
  }

  lemma {:induction false} RunSplit(s: State, ls: seq<Label>, ms: seq<Label>)
    requires CanRun(s, ls + ms)
    ensures CanRun(s, ls) && CanRun(Exec(s, ls), ms) && Exec(s, ls + ms) == Exec(Exec(s, ls), ms)
    decreases |ls|
  {
    if ls == [] {
      assert ls + ms == ms;
    } else {
      assert (ls + ms)[1..] == ls[1..] + ms;
      RunSplit(Apply(s, ls[0]), ls[1..], ms);
    }
  }

  // The deadline of a deferred ResumeAll fires after some, but not all, of its
  // CmdResume have been sent, and leaves `paused` set.
  predicate IsPartialCut(s: State, l: Label) {
    l.Call? && l.call.ResumeDeadline? && l.c < |s.callers| && LoopIndex(s.callers[l.c].phase) > 0 && s.paused
  }

  // A run in which no ResumeAll is cut part-way.
  predicate UncutRun(s: State, ls: seq<Label>)
    decreases |ls|
  {
    ls == [] || (Enabled(s, ls[0]) && !IsPartialCut(s, ls[0]) && UncutRun(Apply(s, ls[0]), ls[1..]))
  }

  lemma {:induction false} UncutRunRuns(s: State, ls: seq<Label>)
    requires UncutRun(s, ls)
    ensures CanRun(s, ls)
    decreases |ls|
  {
    if ls != [] {
      UncutRunRuns(Apply(s, ls[0]), ls[1..]);
    }
  }

  lemma {:induction false} UncutConcat(s: State, ls: seq<Label>, ms: seq<Label>)
    requires UncutRun(s, ls) && CanRun(s, ls) && UncutRun(Exec(s, ls), ms)
    ensures UncutRun(s, ls + ms) && CanRun(s, ls + ms)
    ensures CanRun(Exec(s, ls), ms) && Exec(s, ls + ms) == Exec(Exec(s, ls), ms)
    decreases |ls|
  {
    UncutRunRuns(Exec(s, ls), ms);
    RunConcat(s, ls, ms);
    if ls == [] {
      assert ls + ms == ms;
    } else {
      assert (ls + ms)[1..] == ls[1..] + ms;
      UncutConcat(Apply(s, ls[0]), ls[1..], ms);
    }
  }

  // One step more in front of a run.
  lemma UncutCons(s: State, l: Label, ls: seq<Label>)
    requires Enabled(s, l) && !IsPartialCut(s, l) && UncutRun(Apply(s, l), ls)
    ensures CanRun(Apply(s, l), ls) && UncutRun(s, [l] + ls) && CanRun(s, [l] + ls)
    ensures Exec(s, [l] + ls) == Exec(Apply(s, l), ls)
  {
    UncutRunRuns(Apply(s, l), ls);
    assert ([l] + ls)[1..] == ls;
  }

  // A run in which the run context stays alive.
  predicate Live(ls: seq<Label>) {
    forall l :: l in ls ==> !l.CancelRun? && !l.StopRun?
  }

  // ---- The start of a session ------------------------------------------------

  // What Start leaves behind. Start does not renew the channels, which are made
  // at registration, so what an earlier session left in them is still there.
  predicate SessionStart(s: State) {
    && s.running && !s.paused && !s.cancelled && s.owner == None && s.lost == {}
    && (forall c :: 0 <= c < |s.callers| ==> s.callers[c].phase == Idle)
    && (forall w :: 0 <= w < |s.workers| ==> StartWorker(s.workers[w], s.probes[w].exclusive))
  }

  predicate StartWorker(x: Worker, exclusive: bool) {
    && x.phase == NotStarted && !x.tick
    && (x.cmd == [] || x.cmd == [Pause] || x.cmd == [Resume]) && x.ack <= 1
    && (exclusive ==> x.cmd == [] && x.ack == 0)
  }

  const EMPTY_LOG := Log([], [], 0, 0, 0, 0)

  // The first session: nothing in any channel.
  predicate CleanStart(s: State) {
    && SessionStart(s)
    && forall w :: 0 <= w < |s.workers| ==>
         s.workers[w].cmd == [] && s.workers[w].ack == 0 && s.workers[w].log == EMPTY_LOG
  }

  // FR4 broken: a light probe is measuring while an exclusive task runs.
  predicate Overlap(s: State) {
    exists c, w :: 0 <= c < |s.callers| && 0 <= w < |s.workers|
      && s.callers[c].phase == InFn && IsLight(s, w) && s.workers[w].phase == Checking
  }
}
