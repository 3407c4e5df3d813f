// FR4, second half: the probes come back. However fn ends, the deferred
// ResumeAll sends every light worker exactly one CmdResume.
module Resumption {
  import opened Wrappers
  import opened Session
  import opened Safety
  import opened Recovery
  import opened Progress

  predicate NoDeadline(ls: seq<Label>) {
    forall l :: l in ls ==> !(l.Call? && l.call.ResumeDeadline?)
  }

  // What has been sent to the worker at position j since `base`, a state in which
  // fn was running.
  predicate SentSince(base: State, s: State, j: nat, resumed: bool)
    requires s.probes == base.probes && j < |Lights(base.probes)|
  {
    var before := base.workers[Nth(base, j)].log.sent;
    s.workers[Nth(base, j)].log.sent == if resumed then before + [Resume] else before
  }

  // The worker at position j has been resumed if it is its turn already.
  predicate DeliveredTo(base: State, s: State, p: CallPhase, j: nat)
    requires s.probes == base.probes && j < |Lights(base.probes)|
  {
    && SentSince(base, s, j, p == Unlocking || (p.Resuming? && j < LoopIndex(p)))
    && (p == Unlocking ==> Released(s.workers[Nth(base, j)]))
  }

  // The call is on its way from fn to the unlock, and so far has resumed the
  // workers it should have.
  predicate Delivering(base: State, s: State, c: nat)
    requires s.probes == base.probes
  {
    && c < |s.callers|
    && var p := s.callers[c].phase;
       && (p == InFn || p == ResumeEntry(true) || p.Resuming? || p == Unlocking)
       && (p == Unlocking ==> !s.paused)
       && forall j :: 0 <= j < |Lights(base.probes)| ==> DeliveredTo(base, s, p, j)
  }

  lemma WorkDelivers(base: State, s: State, c: nat, w: nat, a: WorkAct)
    requires Inv(s) && WorkEnabled(s, w, a) && s.owner == Some(c)
    requires s.probes == base.probes && Delivering(base, s, c)
    ensures Delivering(base, WorkApply(s, w, a), c)
  {
    hide WorkApply, Base, Coherent;
    WorkFrame(s, w, a);
    WorkKeepsWf(s, w, a);
    var t := WorkApply(s, w, a);
    var p := s.callers[c].phase;
    assert Inside(p) && t.callers[c].phase == p;
    forall j | 0 <= j < |Lights(base.probes)|
      ensures DeliveredTo(base, t, p, j)
    {
      assert DeliveredTo(base, s, p, j) && Nth(base, j) == Nth(s, j) && WorkerOk(s.workers[Nth(s, j)]);
      if Nth(s, j) == w {
        LightStepKeeps(s.workers[w], a);
      }
    }
  }

  lemma CallDelivers(base: State, s: State, c: nat, a: CallAct)
    requires Inv(s) && CallEnabled(s, c, a) && s.owner == Some(c) && s.running
    requires !a.ResumeDeadline? && !a.Unlock?
    requires s.probes == base.probes && Delivering(base, s, c)
    ensures Delivering(base, CallApply(s, c, a), c)
  {
    var t := CallApply(s, c, a);
    var p := s.callers[c].phase;
    CallFrame(s, c, a);
    assert OwnerPhase(s) == p && OwnerOk(s, p);
    forall j | 0 <= j < |Lights(base.probes)|
      ensures DeliveredTo(base, t, t.callers[c].phase, j)
    {
      assert DeliveredTo(base, s, p, j) && Nth(base, j) == Nth(s, j);
      if a.SendResume? {
        NthInjective(s, LoopIndex(p), j);
      }
    }
  }

  lemma StepDelivers(base: State, s: State, c: nat, l: Label)
    requires Inv(s) && Enabled(s, l) && s.owner == Some(c) && s.running
    requires l != Call(c, ResumeDeadline) && l != Call(c, Unlock) && !l.StopRun?
    requires s.probes == base.probes && Delivering(base, s, c)
    ensures Delivering(base, Apply(s, l), c)
  {
    var t := Apply(s, l);
    match l
    case Work(w, a) => WorkDelivers(base, s, c, w, a);
    case Call(d, a) =>
      if d == c {
        CallDelivers(base, s, c, a);
      } else {
        assert Inside(s.callers[c].phase) && !Inside(s.callers[d].phase);
        Bystander(base, s, t, c);
      }
    case _ =>
      Bystander(base, s, t, c);
  }

  lemma Bystander(base: State, s: State, t: State, c: nat)
    requires s.probes == base.probes && t.probes == s.probes && Delivering(base, s, c)
    requires t.workers == s.workers && t.paused == s.paused
    requires c < |t.callers| && t.callers[c].phase == s.callers[c].phase
    ensures Delivering(base, t, c)
  {
    forall j | 0 <= j < |Lights(base.probes)|
      ensures DeliveredTo(base, t, t.callers[c].phase, j)
    {
      assert DeliveredTo(base, s, s.callers[c].phase, j);
    }
  }

  lemma {:induction false} RunDelivers(base: State, s: State, ls: seq<Label>, c: nat)
    requires Inv(s) && UncutRun(s, ls) && CanRun(s, ls) && Live(ls) && NoDeadline(ls) && s.running
    requires OwnsThroughout(s, ls, c) && Exec(s, ls).owner == Some(c)
    requires s.probes == base.probes && Delivering(base, s, c)
    ensures Delivering(base, Exec(s, ls), c)
    decreases |ls|
  {
    if ls != [] {
      StepKeepsInv(s, ls[0]);
      StepLoses(s, ls[0]);
      var t := Apply(s, ls[0]);
      if ls[0] == Call(c, Unlock) {
        assert false;
      }
      assert ls[0] in ls;
      StepDelivers(base, s, c, ls[0]);
      RunDelivers(base, t, ls[1..], c);
    }
  }

  lemma SegmentDelivers(s: State, ls: seq<Label>, c: nat, w: nat)
    requires Inv(s) && LostOk(s) && s.running && !s.cancelled && HasPhase(s, c, InFn) && IsLight(s, w)
    requires UncutRun(s, ls) && Live(ls) && NoDeadline(ls)
    requires CanRun(s, ls) && OwnsThroughout(s, ls, c) && HasPhase(Exec(s, ls), c, Unlocking)
    ensures var t := Exec(s, ls);
            && !t.paused
            && t.workers[w].log.sent == s.workers[w].log.sent + [Resume]
            && Released(t.workers[w]) && t.workers[w].phase != Exited
  {
    assert s.owner == Some(c);
    InvIsSane(s);
    RunKeepsLostOk(s, ls);
    var t := Exec(s, ls);
    assert t.owner == Some(c);
    assert forall j :: 0 <= j < |Lights(s.probes)| ==> DeliveredTo(s, s, InFn, j);
    RunDelivers(s, s, ls, c);
    var j := Position(s, w);
    assert Nth(t, j) == Nth(s, j) && Accounted(t, j);
    assert DeliveredTo(s, t, Unlocking, j);
  }

  // In a running, uncancelled session: whatever happens between the moment fn is
  // running and the moment the call is about to unlock (fn succeeds, fails or
  // panics; checks, ticks and other callers interleave), `paused` is false
  // again, every light worker has been sent one CmdResume and nothing else, and
  // has either taken it or has it queued.
  lemma EveryOutcomeResumes(s0: State, ms: seq<Label>, ls: seq<Label>, c: nat, w: nat)
    requires SessionStart(s0) && UncutRun(s0, ms) && Live(ms)
    requires NoStaleAck(s0)
    requires CanRun(s0, ms) && HasPhase(Exec(s0, ms), c, InFn) && IsLight(s0, w)
    requires UncutRun(Exec(s0, ms), ls) && Live(ls) && NoDeadline(ls)
    requires CanRun(Exec(s0, ms), ls) && OwnsThroughout(Exec(s0, ms), ls, c)
    requires HasPhase(Exec(Exec(s0, ms), ls), c, Unlocking)
    ensures var s := Exec(s0, ms);
            var t := Exec(s, ls);
            && !t.paused
            && t.workers[w].log.sent == s.workers[w].log.sent + [Resume]
            && Released(t.workers[w]) && t.workers[w].phase != Exited
  {
    StartIsInv(s0);
    RunKeepsInv(s0, ms);
    StartIsSane(s0);
    StartIsLostOk(s0);
    RunKeepsLostOk(s0, ms);
    SegmentDelivers(Exec(s0, ms), ls, c, w);
  }

  // A worker in that position is back in its select loop, with an empty command
  // channel, after at most one step of its own; a pending tick changes nothing.
  lemma ReleasedSelects(s: State, w: nat) returns (ls: seq<Label>)
    requires IsLight(s, w) && s.callers[w].phase == Idle
    requires Released(s.workers[w]) && s.workers[w].phase != Exited
    ensures CanRun(s, ls) && |ls| <= 1
    ensures forall l :: l in ls ==> l == Work(w, TakeCommand) || l == Work(w, FinishCheck)
    ensures var x := Exec(s, ls).workers[w];
            x.phase == Selecting && x.cmd == [] && x.ack == 0 && x.tick == s.workers[w].tick
  {
    var x := s.workers[w];
    ls := if x.phase == Selecting then [] else [Work(w, if x.phase == Paused then TakeCommand else FinishCheck)];
    if ls != [] {
      assert ls[1..] == [];
      assert Exec(s, ls) == Apply(s, ls[0]);
    }
  }

  // A call that holds exclusiveMu in a live session with nobody lost, wherever
  // it stands, can be brought to its end by steps that give nothing up, and
  // leaves exclusiveMu free and nobody paused.
  lemma CallCompletes(s0: State, ms: seq<Label>, c: nat) returns (ls: seq<Label>)
    requires SessionStart(s0) && NoStaleAck(s0) && CanRun(s0, ms) && Live(ms)
    requires Exec(s0, ms).owner == Some(c) && Exec(s0, ms).lost == {}
    requires OnCourse(Exec(s0, ms), OwnerPhase(Exec(s0, ms)))
    ensures c < |s0.callers| && CanRun(Exec(s0, ms), ls)
    ensures forall l :: l in ls ==> IsForward(l, c)
    ensures var t := Exec(Exec(s0, ms), ls);
            t.owner == None && !t.paused && HasPhase(t, c, Idle)
  {
    StartIsSane(s0);
    StartIsLostOk(s0);
    RunKeepsLostOk(s0, ms);
    var s := Exec(s0, ms);
    ReachableIsResponsive(s);
    if BeforeFn(s.callers[c].phase) {
      var into := ReachFn(s, c);
      var u := Exec(s, into);
      assert Inside(u.callers[c].phase);
      assert OwnerOk(u, OwnerPhase(u));
      var out := FinishCall(u, c);
      RunConcat(s, into, out);
      ls := into + out;
    } else {
      ls := FinishCall(s, c);
    }
  }
}
