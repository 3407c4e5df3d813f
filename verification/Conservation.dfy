// Nothing is lost or invented in the channels, in any run at all: pauses aborted,
// resumes cut short and stops included.
module Conservation {
  import opened Session
  import opened Safety

  predicate Conserved(x: Worker) {
    // cmdChan is a FIFO: what has been sent is what has been received, then what is queued.
    && x.log.sent == x.log.received + x.cmd
    && x.log.acksSent == x.log.acksTaken + x.ack
    && multiset(x.log.received)[Pause] == x.log.pauses + x.log.swallowed
    // A pause taken by the main loop is acknowledged once, unless the worker
    // exits just before it does.
    && x.log.acksSent <= x.log.pauses <= x.log.acksSent + 1
    && (x.phase == AckPending ==> x.log.pauses == x.log.acksSent + 1)
    && (x.phase != AckPending && x.phase != Exited ==> x.log.pauses == x.log.acksSent)
  }

  // Nothing ever goes through the channels of an exclusive worker.
  predicate Untouched(x: Worker) {
    x.log == EMPTY_LOG && x.cmd == [] && x.ack == 0 && x.phase != AckPending && x.phase != Paused
  }

  predicate ConservedAll(s: State) {
    forall w :: 0 <= w < |s.workers| ==>
      if s.probes[w].exclusive then Untouched(s.workers[w]) else Conserved(s.workers[w])
  }

  lemma WorkConserves(x: Worker, a: WorkAct)
    requires LocallyEnabled(x, a) && Conserved(x)
    ensures Conserved(WorkerAfter(x, false, a))
  {
    if a == TakeCommand {
      var m := x.cmd[0];
      assert x.cmd == [m] + x.cmd[1..];
      assert x.log.sent == (x.log.received + [m]) + x.cmd[1..];
      assert multiset(x.log.received + [m]) == multiset(x.log.received) + multiset{m};
    }
  }

  lemma TargetConserves(x: Worker, a: CallAct)
    requires Conserved(x) && (a.CollectAck? ==> x.ack > 0)
    ensures Conserved(TargetAfter(x, a))
  {
    if a.SendPause? || a.SendResume? {
      var m := if a.SendPause? then Pause else Resume;
      assert x.log.received + (x.cmd + [m]) == (x.log.received + x.cmd) + [m];
    }
  }

  lemma WorkLeavesUntouched(x: Worker, a: WorkAct)
    requires LocallyEnabled(x, a) && Untouched(x)
    ensures Untouched(WorkerAfter(x, true, a))
  {
  }

  lemma StepConservesWork(s: State, w: nat, a: WorkAct)
    requires ConservedAll(s) && WorkEnabled(s, w, a)
    ensures ConservedAll(WorkApply(s, w, a))
  {
    hide WorkApply, WorkerAfter, Conserved, Untouched;
    WorkFrame(s, w, a);
    if s.probes[w].exclusive {
      WorkLeavesUntouched(s.workers[w], a);
    } else {
      WorkConserves(s.workers[w], a);
    }
  }

  lemma StepConservesCall(s: State, c: nat, a: CallAct)
    requires ConservedAll(s) && CallEnabled(s, c, a)
    ensures ConservedAll(CallApply(s, c, a))
  {
    if TouchesTarget(a) {
      TargetConserves(s.workers[Target(s, c)], a);
    } else {
      assert CallApply(s, c, a).workers == s.workers;
    }
  }

  lemma StepConserves(s: State, l: Label)
    requires ConservedAll(s) && Enabled(s, l)
    ensures ConservedAll(Apply(s, l))
  {
    match l
    case Work(w, a) => StepConservesWork(s, w, a);
    case Call(c, a) => StepConservesCall(s, c, a);
    case _ =>
  }

  lemma {:induction false} RunConserves(s: State, ls: seq<Label>)
    requires ConservedAll(s) && CanRun(s, ls)
    ensures ConservedAll(Exec(s, ls))
    decreases |ls|
  {
    if ls != [] {
      StepConserves(s, ls[0]);
      RunConserves(Apply(s, ls[0]), ls[1..]);
    }
  }

  // Conservation over every run from a clean start.
  lemma MessagesConserved(s: State, ls: seq<Label>, w: nat)
    requires CleanStart(s) && CanRun(s, ls) && w < |s.workers|
    ensures var x := Exec(s, ls).workers[w];
            && x.log.sent == x.log.received + x.cmd
            && multiset(x.log.sent)[Pause] == x.log.pauses + x.log.swallowed + multiset(x.cmd)[Pause]
            && x.log.acksSent == x.log.acksTaken + x.ack
            && x.log.acksSent <= x.log.pauses <= x.log.acksSent + 1
            && (x.phase != AckPending && x.phase != Exited ==> x.log.acksSent == x.log.pauses)
            && (s.probes[w].exclusive ==> x.log.sent == [])
  {
    assert forall v :: 0 <= v < |s.workers| ==> StartWorker(s.workers[v], s.probes[v].exclusive);
    RunConserves(s, ls);
    var x := Exec(s, ls).workers[w];
    assert multiset(x.log.received + x.cmd) == multiset(x.log.received) + multiset(x.cmd);
  }
}
