// The program's own use of the protocol: nobody calls ExecuteExclusive but its
// Speedtest workers, who pass the run context. While that is alive no call gives up,
// so that what outside callers can do to each other does not arise.
module OwnUse {
  import opened Wrappers
  import opened Session
  import opened Safety
  import opened Recovery
  import opened Progress
  import opened AbortedPauses
  import opened AbortFree

  predicate OwnCallersOnly(s: State) {
    |s.callers| == |s.workers|
  }

  lemma {:induction false} LiveNeverAborts(s: State, ls: seq<Label>)
    requires OwnCallersOnly(s) && !s.cancelled && Wf(s) && CanRun(s, ls) && Live(ls)
    ensures NoAbort(ls) && Exec(s, ls).lost == s.lost
    decreases |ls|
  {
    if ls != [] {
      assert ls[0] in ls;
      StepKeepsWf(s, ls[0]);
      StepLoses(s, ls[0]);
      StepLosesByAbort(s, ls[0]);
      LiveNeverAborts(Apply(s, ls[0]), ls[1..]);
    }
  }

  // Every Speedtest that waits for its turn can have it.
  lemma EverySpeedtestCanRun(s: State, ls: seq<Label>, c: nat) returns (ms: seq<Label>)
    requires SessionStart(s) && NoStaleAck(s) && OwnCallersOnly(s) && CanRun(s, ls) && Live(ls)
    requires HasPhase(Exec(s, ls), c, Waiting)
    ensures CanReachFn(Exec(s, ls), ms, c)
  {
    StartIsSane(s);
    StartIsLostOk(s);
    LiveNeverAborts(s, ls);
    RunKeepsLostOk(s, ls);
    ms := WaitAndEnterFn(Exec(s, ls), c);
  }

  // Whoever holds exclusiveMu, wherever it stands, can be brought to release it by
  // steps that give nothing up.
  lemma EverySpeedtestCanEnd(s: State, ls: seq<Label>, d: nat) returns (ms: seq<Label>)
    requires SessionStart(s) && NoStaleAck(s) && OwnCallersOnly(s) && CanRun(s, ls) && Live(ls)
    requires Exec(s, ls).owner == Some(d)
    ensures CanRun(Exec(s, ls), ms) && Exec(Exec(s, ls), ms).owner == None
    ensures forall l :: l in ms ==> IsForward(l, d)
  {
    StartIsSane(s);
    StartIsLostOk(s);
    LiveNeverAborts(s, ls);
    RunKeepsLostOk(s, ls);
    ms := DriveOut(Exec(s, ls), d);
  }

  // From a clean start no CmdResume has to wait for room, so that no deadline fires
  // for that reason.
  lemma ResumesNeverWait(s: State, ls: seq<Label>, c: nat)
    requires CleanStart(s) && OwnCallersOnly(s) && UncutRun(s, ls) && Live(ls) && CanRun(s, ls)
    requires InLoop(Exec(s, ls), c) && Exec(s, ls).callers[c].phase.Resuming?
    ensures CallEnabled(Exec(s, ls), c, SendResume)
  {
    StartIsWf(s);
    LiveNeverAborts(s, ls);
    ResumeNeverBlocks(s, ls, c, Target(Exec(s, ls), c));
  }
}
