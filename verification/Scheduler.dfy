// The Scheduler as an object whose methods update its fields, and the Start loops
// of the worker goroutines. Other goroutines run before every step of a method:
// what they do there is an argument, a sequence of Turns. A method ends when its
// code does, or when the turns have run out; its contract says that it has played
// its part exactly as Goroutine.Play defines it, so that by Goroutine.PlaysAreRuns
// and Goroutine.RunsArePlays its executions are the runs of the machine of Session.
module SchedulerObject {
  import opened Wrappers
  import opened Session
  import opened Safety
  import opened Goroutine
  import opened Registration

  // How a blocking call ended. Blocked: it was still waiting when the turns ran out.
  datatype Ending = Done | NotRunning | Aborted | Blocked

  // What the steps of other goroutines leave alone: where this one stands in
  // ExecuteExclusive, its hold on exclusiveMu and the handles it has listed, where
  // it stands in its Start loop.
  predicate Undisturbed(me: Self, s: State, t: State) {
    && t.probes == s.probes && |t.callers| == |s.callers|
    && (var c := CallerIndex(me);
        c < |s.callers| && s.callers[c].phase != Idle ==>
          && t.callers[c].phase == s.callers[c].phase
          && (s.owner == Some(c) ==> t.owner == Some(c) && t.handles == s.handles))
    && (me.Loop? && me.w < |s.workers| ==>
          && t.workers[me.w].phase == s.workers[me.w].phase
          && (s.callers[me.w].phase == Idle ==> t.callers[me.w].phase == Idle))
  }

  lemma OthersStep(me: Self, s: State, l: Label)
    requires Base(s) && Enabled(s, l) && !Mine(l, me)
    ensures Undisturbed(me, s, Apply(s, l))
  {
    hide WorkApply, CallApply, TargetAfter;
    match l
    case Work(w, a) => WorkFrame(s, w, a);
    case Call(c, a) => CallFrame(s, c, a);
    case _ =>
  }

  // The first of the steps the others try to take.
  lemma AfterOthersUnfold(me: Self, s: State, others: seq<Label>)
    requires others != []
    ensures var l := others[0];
            AfterOthers(me, s, others) ==
              AfterOthers(me, if !Mine(l, me) && Enabled(s, l) then Apply(s, l) else s, others[1..])
  {
    if !Mine(others[0], me) && Enabled(s, others[0]) {
      assert others == [others[0]] + others[1..];
      GreedyCons(me, s, others[0], others[1..]);
    }
  }

  lemma OwnStepKeeps(me: Self, s: State, turn: Turn)
    requires Base(s) && ChannelsOk(s) && IsGoroutine(s, me)
    ensures var t := Act(s, Next(me, s, turn)); Base(t) && ChannelsOk(t)
  {
    var l := Next(me, s, turn);
    if l.Some? {
      StepKeepsWf(s, l.value);
      StepKeepsChannels(s, l.value);
    }
  }

  // What Base says of a goroutine that is inside ExecuteExclusive ...
  lemma OwnerIsCaller(s: State, c: nat)
    requires Base(s) && c < |s.callers| && Inside(s.callers[c].phase)
    ensures s.owner == Some(c) && OwnerOk(s, s.callers[c].phase)
  {
    assert OwnerOk(s, OwnerPhase(s));
  }

  // ... and of one that is not measuring.
  lemma NotMeasuringIsIdle(s: State, w: nat)
    requires Base(s) && w < |s.workers|
    ensures s.workers[w].phase != Checking || IsLight(s, w) ==> s.callers[w].phase == Idle
  {
  }

  lemma StillChecking(s: State, w: nat)
    requires Base(s) && w < |s.workers| && s.callers[w].phase != Idle
    ensures s.workers[w].phase == Checking
  {
  }

  // A step of a caller that touches no channel and gives nothing up.
  lemma QuietEffect(s: State, c: nat, a: CallAct)
    requires CallEnabled(s, c, a) && !TouchesTarget(a) && !a.AbortPause? && !a.Request?
    ensures CallApply(s, c, a) ==
              s.(callers := s.callers[c := s.callers[c].(phase := PhaseAfter(s, c, a))],
                 owner := if a.Lock? then Some(c) else if a.Unlock? then None else s.owner,
                 paused := if a.CommitPause? then true else if a.CommitResume? then false else s.paused,
                 handles := if EntersLoop(s, a) then |Lights(s.probes)| else s.handles)
  {
  }

  // A step of a caller on the worker whose turn it is.
  lemma TargetEffect(s: State, c: nat, a: CallAct, w: nat)
    requires CallEnabled(s, c, a) && TouchesTarget(a) && w == Target(s, c)
    ensures CallApply(s, c, a) ==
              s.(callers := s.callers[c := s.callers[c].(phase := PhaseAfter(s, c, a))],
                 workers := s.workers[w := TargetAfter(s.workers[w], a)])
  {
  }

  lemma SendIsDeliver(x: Worker)
    ensures TargetAfter(x, SendPause) == Deliver(x, Pause) && TargetAfter(x, SendResume) == Deliver(x, Resume)
  {
  }

  // What is ready at a handle of one of the loops of PauseAll.
  predicate Ready(s: State, w: nat, operation: CallAct)
    requires w < |s.workers|
  {
    if operation == SendPause then s.workers[w].cmd == [] else s.workers[w].ack > 0
  }

  // What a goroutine does next there.
  lemma NextAtHandle(me: Self, s: State, turn: Turn, operation: CallAct, w: nat)
    requires IsGoroutine(s, me) && InLoop(s, CallerIndex(me)) && w == Target(s, CallerIndex(me))
    requires var p := s.callers[CallerIndex(me)].phase;
             (p.Broadcasting? && operation == SendPause) || (p.Collecting? && operation == CollectAck)
    ensures var c := CallerIndex(me);
            && (Ready(s, w, operation) ==> CallEnabled(s, c, operation))
            && (CtxDone(s, c) ==> CallEnabled(s, c, AbortPause))
            && Next(me, s, turn) ==
                 if Ready(s, w, operation) && !(CtxDone(s, c) && turn.preferDone) then Some(Call(c, operation))
                 else if CtxDone(s, c) then Some(Call(c, AbortPause)) else None
  {
  }

  lemma StepAtHandle(me: Self, s: State, turn: Turn, operation: CallAct, w: nat)
    requires IsGoroutine(s, me) && InLoop(s, CallerIndex(me)) && w == Target(s, CallerIndex(me))
    requires var p := s.callers[CallerIndex(me)].phase;
             (p.Broadcasting? && operation == SendPause) || (p.Collecting? && operation == CollectAck)
    ensures var c := CallerIndex(me);
            if Ready(s, w, operation) && !(CtxDone(s, c) && turn.preferDone) then
              && CallEnabled(s, c, operation)
              && Act(s, Next(me, s, turn)) ==
                   SetPhase(SetWorker(s, w, TargetAfter(s.workers[w], operation)), c, PhaseAfter(s, c, operation))
            else if CtxDone(s, c) then
              CallEnabled(s, c, AbortPause) && Act(s, Next(me, s, turn)) == CallApply(s, c, AbortPause)
            else Act(s, Next(me, s, turn)) == s
  {
    hide Next, CallEnabled, CallApply, TargetAfter, PhaseAfter;
    NextAtHandle(me, s, turn, operation, w);
    if Ready(s, w, operation) {
      TargetEffect(s, CallerIndex(me), operation, w);
    }
  }

  // What a goroutine does next at a handle of the loop of ResumeAll.
  lemma StepInResume(me: Self, s: State, turn: Turn, w: nat)
    requires IsGoroutine(s, me) && InLoop(s, CallerIndex(me)) && w == Target(s, CallerIndex(me))
    requires s.callers[CallerIndex(me)].phase.Resuming? && s.callers[CallerIndex(me)].phase.bounded
    ensures var c := CallerIndex(me);
            Act(s, Next(me, s, turn)) ==
              if turn.preferDone then SetPhase(s, c, Unlocking)
              else if s.workers[w].cmd == [] then
                SetPhase(SetWorker(s, w, TargetAfter(s.workers[w], SendResume)), c,
                         Resuming(LoopIndex(s.callers[c].phase) + 1, true))
              else s
  {
  }

  // What the goroutine of a worker does next in its Start loop.
  lemma StepInStart(s: State, w: nat, turn: Turn)
    requires w < |s.workers| && s.callers[w].phase == Idle
    ensures Act(s, Next(Loop(w), s, turn)) ==
              match NextWork(s, w, turn) { case Some(a) => WorkApply(s, w, a) case None => s }
  {
  }

  lemma WorkEffect(s: State, w: nat, a: WorkAct)
    requires WorkEnabled(s, w, a)
    ensures var t := SetWorker(s, w, WorkerAfter(s.workers[w], s.probes[w].exclusive, a));
            WorkApply(s, w, a) ==
              if (a.Launch? || a.StartCheck?) && s.probes[w].exclusive then SetPhase(t, w, Waiting) else t
  {
  }

  // A step that is the only one its place in the code allows.
  lemma QuietStep(me: Self, s: State, turn: Turn, a: CallAct)
    requires IsGoroutine(s, me) && NextCall(s, CallerIndex(me), turn) == Some(a)
    requires CallEnabled(s, CallerIndex(me), a) && !TouchesTarget(a) && !a.AbortPause? && !a.Request?
    ensures var c := CallerIndex(me);
            && Act(s, Next(me, s, turn)) == CallApply(s, c, a)
            && CallApply(s, c, a) ==
                 s.(callers := s.callers[c := s.callers[c].(phase := PhaseAfter(s, c, a))],
                    owner := if a.Lock? then Some(c) else if a.Unlock? then None else s.owner,
                    paused := if a.CommitPause? then true else if a.CommitResume? then false else s.paused,
                    handles := if EntersLoop(s, a) then |Lights(s.probes)| else s.handles)
  {
    QuietEffect(s, CallerIndex(me), a);
  }

  class Scheduler {
    var probes: seq<Probe>
    var workers: seq<Worker>
    var callers: seq<Caller>
    var owner: Option<nat>
    var running: bool
    var paused: bool
    var cancelled: bool
    var lost: set<nat>
    var handles: nat

    predicate Sized()
      reads this
    {
      |workers| == |probes| <= |callers| && handles <= |Lights(probes)|
    }

    function View(): State
      requires Sized()
      reads this
    {
      RawState(probes, workers, callers, owner, running, paused, cancelled, lost, handles)
    }

    ghost predicate Valid()
      reads this
    {
      Sized() && Base(View()) && ChannelsOk(View()) && DistinctNames(probes)
    }

    // NewScheduler, for a program with `outside` goroutines that use the API.
    constructor (outside: nat)
      ensures Valid() && probes == [] && !running && !paused && Resting()
      ensures |callers| == outside && forall c :: 0 <= c < outside ==> callers[c] == IDLE
    {
      probes, workers, callers, owner := [], [], seq(outside, _ => IDLE), None;
      running, paused, cancelled, lost, handles := false, false, true, {}, 0;
    }

    // No worker goroutine runs.
    ghost predicate Resting()
      reads this
    {
      forall w :: 0 <= w < |workers| ==> workers[w].phase == Exited
    }

    // ---- Registration ------------------------------------------------------

    // `p` is None for a nil worker.
    method RegisterWorker(p: Option<Probe>) returns (r: Result<RegisterError>)
      requires Valid()
      modifies this
      ensures Valid() && running == old(running) && (old(Resting()) ==> Resting())
      ensures r == Verdict(old(probes), running, p)
      ensures p == None ==> r == Err(NilWorker)
      ensures p.Some? && old(running) ==> r == Err(AlreadyRunning)
      ensures p.Some? && !old(running) ==>
                r == if exists i :: 0 <= i < |old(probes)| && old(probes)[i].name == p.value.name
                     then Err(DuplicateName) else Ok
      ensures if r.Ok? then View() == WithWorker(old(View()), p.value) else View() == old(View())
      ensures r.Ok? ==> probes == old(probes) + [p.value]
    {
      hide Base, ChannelsOk;
      if p == None {
        return Err(NilWorker);
      }
      if running {
        return Err(AlreadyRunning);
      }
      for i := 0 to |probes|
        invariant forall k :: 0 <= k < i ==> probes[k].name != p.value.name
      {
        if probes[i].name == p.value.name {
          assert Names(probes)[i] == p.value.name;
          return Err(DuplicateName);
        }
      }
      assert p.value.name !in Names(probes);
      Registered(View(), p.value);
      ListsGrow(probes, p.value);
      owner := if owner.Some? then Some(Renumbered(View(), owner.value)) else None;
      callers := callers[..|workers|] + [IDLE] + callers[|workers|..];
      probes := probes + [p.value];
      workers := workers + [NewWorker()];
      return Ok;
    }

    // RegisterWorkers stops at the first worker that is rejected. It keeps exactly
    // the prefix before that one, and reports that one's error.
    method RegisterWorkers(ps: seq<Option<Probe>>) returns (r: Result<RegisterError>, accepted: nat)
      requires Valid()
      modifies this
      ensures Valid() && running == old(running) && (old(Resting()) ==> Resting())
      ensures Accepted(old(probes), running, ps, accepted)
      ensures View() == WithWorkers(old(View()), Given(ps, accepted)) && probes == old(probes) + Given(ps, accepted)
      ensures if accepted == |ps| then r == Ok
              else r == Verdict(probes, running, ps[accepted]) && r.Err?
      ensures old(running) ==> accepted == 0 && View() == old(View()) && (ps != [] ==> r.Err?)
      ensures forall i :: 0 <= i < accepted ==> ps[i].Some?
      ensures accepted < |ps| && !old(running) ==>
                r == if ps[accepted] == None then Err(NilWorker) else Err(DuplicateName)
    {
      hide Base, ChannelsOk, DistinctNames, Verdict, WithWorkers, WithWorker, Accepted;
      accepted := 0;
      NoneAccepted(View(), running, ps);
      assert old(probes) + Given(ps, 0) == old(probes);
      while accepted < |ps|
        invariant Valid() && running == old(running) && (old(Resting()) ==> Resting())
        invariant Accepted(old(probes), running, ps, accepted) && probes == old(probes) + Given(ps, accepted)
        invariant View() == WithWorkers(old(View()), Given(ps, accepted))
        invariant old(running) ==> accepted == 0
      {
        r := RegisterWorker(ps[accepted]);
        if r.Err? {
          return;
        }
        AcceptOneMore(old(probes), running, ps, accepted);
        WithOneMore(old(View()), Given(ps, accepted), ps[accepted].value);
        accepted := accepted + 1;
      }
      r := Ok;
    }

    // ---- Start -----------------------------------------------------------------

    // Start is not called while a Stop is still waiting, hence the precondition. It
    // renews neither the channels nor what an earlier session left in them, and
    // does not look whether a caller is inside ExecuteExclusive.
    method Start() returns (ok: bool)
      requires Valid() && (!running ==> Resting())
      modifies this
      ensures Valid() && ok == !old(running)
      ensures View() == if ok then AfterStart(old(View())) else old(View())
      ensures ok ==> Restarted(View())
    {
      hide Base, ChannelsOk, DistinctNames, Restarted;
      if running {
        return false;
      }
      ghost var s := View();
      ghost var before := workers;
      Started(s);
      running, paused, cancelled, lost := true, false, false, {};
      var w := 0;
      while w < |workers|
        modifies this`workers
        invariant 0 <= w <= |workers| == |before|
        invariant forall k :: 0 <= k < w ==> workers[k] == before[k].(phase := NotStarted, tick := false)
        invariant forall k :: w <= k < |workers| ==> workers[k] == before[k]
      {
        workers := workers[w := workers[w].(phase := NotStarted, tick := false)];
        w := w + 1;
      }
      assert workers == AfterStart(s).workers;
      return true;
    }

    // ---- Interleaving --------------------------------------------------------------

    // The steps of other goroutines: those of `others` that are enabled.
    method Interleave(me: Self, others: seq<Label>)
      requires Valid()
      modifies this
      ensures Valid() && View() == AfterOthers(me, old(View()), others) && Undisturbed(me, old(View()), View())
      decreases |others|
    {
      hide Base, ChannelsOk, DistinctNames, Mine, Enabled, Apply, AfterOthers;
      if others != [] {
        AfterOthersUnfold(me, View(), others);
        if !Mine(others[0], me) && Enabled(View(), others[0]) {
          OthersStep(me, View(), others[0]);
          Perform(others[0]);
        }
        Interleave(me, others[1..]);
      } else {
        assert AfterOthers(me, View(), others) == View() by {
          NobodyElse(me, View());
        }
      }
    }

    // One step of another goroutine.
    method Perform(l: Label)
      requires Valid() && Enabled(View(), l)
      modifies this
      ensures Valid() && View() == Apply(old(View()), l)
    {
      hide Base, ChannelsOk, DistinctNames, Enabled, Apply;
      StepKeepsWf(View(), l);
      StepKeepsChannels(View(), l);
      var t := Apply(View(), l);
      workers, callers, owner, handles := t.workers, t.callers, t.owner, t.handles;
      running, paused, cancelled, lost := t.running, t.paused, t.cancelled, t.lost;
    }

    predicate IsSelf(me: Self)
      reads this
    {
      Sized() && IsGoroutine(View(), me)
    }

    predicate At(me: Self, p: CallPhase)
      reads this
    {
      CallerIndex(me) < |callers| && callers[CallerIndex(me)].phase == p
    }

    // ---- PauseAll --------------------------------------------------------------

    // nonExclusiveHandles, as positions.
    method NonExclusiveHandles() returns (list: seq<nat>)
      ensures list == Lights(probes)
    {
      list := [];
      for i := 0 to |probes|
        invariant list == Lights(probes[..i])
      {
        assert probes[..i + 1][..i] == probes[..i];
        if !probes[i].exclusive {
          list := list + [i];
        }
      }
      assert probes[..|probes|] == probes;
    }

    // `list` is what nonExclusiveHandles was when the loop was entered.
    predicate Listed(list: seq<nat>)
      reads this
    {
      handles <= |Lights(probes)| && list == Lights(probes)[..handles]
    }

    method MoveTo(me: Self, p: CallPhase)
      requires Sized() && CallerIndex(me) < |callers|
      modifies this`callers
      ensures Sized() && View() == SetPhase(old(View()), CallerIndex(me), p)
    {
      callers := callers[CallerIndex(me) := callers[CallerIndex(me)].(phase := p)];
    }

    // h.cmdChan <- m, where there is room for it.
    method Send(me: Self, h: nat, m: Command, p: CallPhase)
      requires Sized() && CallerIndex(me) < |callers| && h < |workers|
      modifies this`callers, this`workers
      ensures Sized() && At(me, p)
      ensures View() == SetPhase(SetWorker(old(View()), h, Deliver(old(workers)[h], m)), CallerIndex(me), p)
    {
      var x := workers[h];
      workers := workers[h := x.(cmd := x.cmd + [m], log := x.log.(sent := x.log.sent + [m]))];
      MoveTo(me, p);
    }

    // <-h.ackChan, where there is something in it.
    method ReceiveAck(me: Self, h: nat, p: CallPhase)
      requires Sized() && CallerIndex(me) < |callers| && h < |workers| && workers[h].ack > 0
      modifies this`callers, this`workers
      ensures Sized() && At(me, p)
      ensures var s := SetWorker(old(View()), h, TargetAfter(old(workers)[h], CollectAck));
              View() == SetPhase(s, CallerIndex(me), p)
    {
      var x := workers[h];
      workers := workers[h := x.(ack := x.ack - 1, log := x.log.(acksTaken := x.log.acksTaken + 1))];
      MoveTo(me, p);
    }

    // The select of the first loop. Which branch is taken is determined by what is
    // ready, and by `turn` if both are.
    method SelectSend(me: Self, list: seq<nat>, i: nat, turn: Turn) returns (ending: Ending)
      requires Valid() && IsSelf(me) && Listed(list) && i < |list| && At(me, Broadcasting(i))
      modifies this
      ensures Valid() && IsSelf(me) && Listed(list)
      ensures View() == Act(old(View()), Next(me, old(View()), turn))
      ensures var done := CtxDone(old(View()), CallerIndex(me));
              ending == if old(workers)[list[i]].cmd == [] && !(done && turn.preferDone) then Done
                        else if done then Aborted else Blocked
      ensures ending == Aborted ==> CtxDone(View(), CallerIndex(me))
      ensures At(me, if ending == Done then Broadcasting(i + 1)
                     else if ending == Aborted then ResumeEntry(false) else Broadcasting(i))
    {
      hide Base, ChannelsOk, DistinctNames, CallApply, TargetAfter, Act, Next, CallEnabled;
      OwnStepKeeps(me, View(), turn);
      var c := CallerIndex(me);
      var h := list[i];
      StepAtHandle(me, View(), turn, SendPause, h);
      var done := CtxDone(View(), c);
      if workers[h].cmd == [] && !(done && turn.preferDone) {
        SendIsDeliver(workers[h]);
        Send(me, h, Pause, Broadcasting(i + 1));
        ending := Done;
      } else if done {
        GiveUp(me, list);
        ending := Aborted;
      } else {
        ending := Blocked;
      }
    }

    // The select of the second loop.
    method SelectAck(me: Self, list: seq<nat>, i: nat, turn: Turn) returns (ending: Ending)
      requires Valid() && IsSelf(me) && Listed(list) && i < |list| && At(me, Collecting(i))
      modifies this
      ensures Valid() && IsSelf(me) && Listed(list)
      ensures View() == Act(old(View()), Next(me, old(View()), turn))
      ensures var done := CtxDone(old(View()), CallerIndex(me));
              ending == if old(workers)[list[i]].ack > 0 && !(done && turn.preferDone) then Done
                        else if done then Aborted else Blocked
      ensures ending == Aborted ==> CtxDone(View(), CallerIndex(me))
      ensures At(me, if ending == Done then Collecting(i + 1)
                     else if ending == Aborted then ResumeEntry(false) else Collecting(i))
    {
      hide Base, ChannelsOk, DistinctNames, CallApply, TargetAfter, Act, Next, CallEnabled;
      OwnStepKeeps(me, View(), turn);
      var c := CallerIndex(me);
      var h := list[i];
      StepAtHandle(me, View(), turn, CollectAck, h);
      var done := CtxDone(View(), c);
      if workers[h].ack > 0 && !(done && turn.preferDone) {
        ReceiveAck(me, h, Collecting(i + 1));
        ending := Done;
      } else if done {
        GiveUp(me, list);
        ending := Aborted;
      } else {
        ending := Blocked;
      }
    }

    // PauseAll returns an error. The acks collected so far are gone.
    method GiveUp(me: Self, list: seq<nat>)
      requires Sized() && Listed(list) && CallEnabled(View(), CallerIndex(me), AbortPause)
      modifies this`callers, this`lost
      ensures Sized() && View() == CallApply(old(View()), CallerIndex(me), AbortPause) && At(me, ResumeEntry(false))
      ensures CtxDone(View(), CallerIndex(me))
    {
      var p := callers[CallerIndex(me)].phase;
      if p.Collecting? {
        assert forall j :: 0 <= j < p.i ==> list[j] == Nth(View(), j);
        assert (set j | 0 <= j < p.i :: list[j]) == Collected(View(), p.i);
        lost := lost + set j | 0 <= j < p.i :: list[j];
      }
      MoveTo(me, ResumeEntry(false));
    }

    // One turn at a handle. Blocked: the loop stays where it is.
    method SendPass(me: Self, list: seq<nat>, i: nat, turn: Turn) returns (ending: Ending)
      requires Valid() && IsSelf(me) && Listed(list) && i < |list| && At(me, Broadcasting(i))
      modifies this
      ensures Valid() && IsSelf(me) && Listed(list) && View() == OneTurn(me, old(View()), turn)
      ensures ending != NotRunning
      ensures ending == Aborted ==> CtxDone(View(), CallerIndex(me))
      ensures At(me, if ending == Done then Broadcasting(i + 1)
                     else if ending == Aborted then ResumeEntry(false) else Broadcasting(i))
    {
      hide Base, ChannelsOk, DistinctNames, Next, Act, AfterOthers;
      InterleaveInside(me, turn.others);
      ending := SelectSend(me, list, i, turn);
    }

    // The first loop of PauseAll.
    method BroadcastPause(me: Self, list: seq<nat>, turns: seq<Turn>) returns (ending: Ending, rest: seq<Turn>)
      requires Valid() && IsSelf(me) && Listed(list) && At(me, Broadcasting(0))
      modifies this
      ensures Valid() && IsSelf(me)
      ensures Play(Routine.BroadcastPause, me, old(View()), turns) == Played(View(), rest)
      ensures match ending
              case Done => At(me, Broadcasting(|list|)) && Listed(list)
              case NotRunning => false
              case Aborted => At(me, ResumeEntry(false)) && CtxDone(View(), CallerIndex(me))
              case Blocked => rest == [] && callers[CallerIndex(me)].phase.Broadcasting?
    {
      hide Base, ChannelsOk, DistinctNames, OneTurn, Play;
      ghost var start := View();
      rest := turns;
      ending := Done;
      var i := 0;
      while i < |list|
        invariant Valid() && IsSelf(me) && Listed(list) && i <= |list| && At(me, Broadcasting(i)) && ending == Done
        invariant Play(Routine.BroadcastPause, me, start, turns) == Play(Routine.BroadcastPause, me, View(), rest)
        decreases |rest|
      {
        if rest == [] {
          ending := Blocked;
          break;
        }
        PlayTurn(Routine.BroadcastPause, me, View(), rest);
        var pass := SendPass(me, list, i, rest[0]);
        rest := rest[1..];
        if pass == Aborted {
          ending := Aborted;
          break;
        }
        i := if pass == Done then i + 1 else i;
      }
      PlayOver(Routine.BroadcastPause, me, View(), rest);
    }

    method AckPass(me: Self, list: seq<nat>, i: nat, turn: Turn) returns (ending: Ending)
      requires Valid() && IsSelf(me) && Listed(list) && i < |list| && At(me, Collecting(i))
      modifies this
      ensures Valid() && IsSelf(me) && Listed(list) && View() == OneTurn(me, old(View()), turn)
      ensures ending != NotRunning
      ensures ending == Aborted ==> CtxDone(View(), CallerIndex(me))
      ensures At(me, if ending == Done then Collecting(i + 1)
                     else if ending == Aborted then ResumeEntry(false) else Collecting(i))
    {
      hide Base, ChannelsOk, DistinctNames, Next, Act, AfterOthers;
      InterleaveInside(me, turn.others);
      ending := SelectAck(me, list, i, turn);
    }

    // The second loop of PauseAll.
    method CollectAcks(me: Self, list: seq<nat>, turns: seq<Turn>) returns (ending: Ending, rest: seq<Turn>)
      requires Valid() && IsSelf(me) && Listed(list) && At(me, Collecting(0))
      modifies this
      ensures Valid() && IsSelf(me)
      ensures Play(Routine.CollectAcks, me, old(View()), turns) == Played(View(), rest)
      ensures match ending
              case Done => At(me, Collecting(|list|)) && Listed(list)
              case NotRunning => false
              case Aborted => At(me, ResumeEntry(false)) && CtxDone(View(), CallerIndex(me))
              case Blocked => rest == [] && callers[CallerIndex(me)].phase.Collecting?
    {
      hide Base, ChannelsOk, DistinctNames, OneTurn, Play;
      ghost var start := View();
      rest := turns;
      ending := Done;
      var i := 0;
      while i < |list|
        invariant Valid() && IsSelf(me) && Listed(list) && i <= |list| && At(me, Collecting(i)) && ending == Done
        invariant Play(Routine.CollectAcks, me, start, turns) == Play(Routine.CollectAcks, me, View(), rest)
        decreases |rest|
      {
        if rest == [] {
          ending := Blocked;
          break;
        }
        PlayTurn(Routine.CollectAcks, me, View(), rest);
        var pass := AckPass(me, list, i, rest[0]);
        rest := rest[1..];
        if pass == Aborted {
          ending := Aborted;
          break;
        }
        i := if pass == Done then i + 1 else i;
      }
      PlayOver(Routine.CollectAcks, me, View(), rest);
    }

    // Interleave, as a goroutine sees it that is past the lock of exclusiveMu.
    method InterleaveInside(me: Self, others: seq<Label>)
      requires Valid() && IsSelf(me) && Inside(callers[CallerIndex(me)].phase)
      modifies this
      ensures Valid() && IsSelf(me) && View() == AfterOthers(me, old(View()), others)
      ensures probes == old(probes) && handles == old(handles)
      ensures callers[CallerIndex(me)].phase == old(callers)[CallerIndex(me)].phase
    {
      hide Base, ChannelsOk, DistinctNames, AfterOthers;
      OwnerIsCaller(View(), CallerIndex(me));
      Interleave(me, others);
    }

    // The first critical section: the two early returns, the list of handles.
    // `ending` is Blocked if PauseAll goes on.
    method EnterPause(me: Self, turn: Turn) returns (ending: Ending, list: seq<nat>)
      requires Valid() && IsSelf(me) && At(me, PauseEntry)
      modifies this
      ensures Valid() && IsSelf(me) && View() == OneTurn(me, old(View()), turn)
      ensures var s := AfterOthers(me, old(View()), turn.others);
              ending == if !s.running then NotRunning else if s.paused then Done else Blocked
      ensures At(me, match ending case NotRunning => ResumeEntry(false) case Done => InFn case _ => Broadcasting(0))
      ensures ending == Blocked ==> Listed(list) && |list| == |Lights(probes)|
    {
      hide Base, ChannelsOk, DistinctNames, CallApply, Act, Next, AfterOthers;
      InterleaveInside(me, turn.others);
      OwnStepKeeps(me, View(), turn);
      QuietStep(me, View(), turn, CallAct.EnterPause);
      list := [];
      if !running {
        MoveTo(me, ResumeEntry(false));
        return NotRunning, list;
      }
      if paused {
        MoveTo(me, InFn);
        return Done, list;
      }
      list := NonExclusiveHandles();
      handles := |list|;
      MoveTo(me, Broadcasting(0));
      ending := Blocked;
    }

    // From one loop to the next.
    method EndBroadcast(me: Self, list: seq<nat>, turn: Turn)
      requires Valid() && IsSelf(me) && Listed(list) && At(me, Broadcasting(|list|))
      modifies this
      ensures Valid() && IsSelf(me) && View() == OneTurn(me, old(View()), turn)
      ensures Listed(list) && At(me, Collecting(0))
    {
      hide Base, ChannelsOk, DistinctNames, CallApply, Act, Next, AfterOthers;
      InterleaveInside(me, turn.others);
      OwnStepKeeps(me, View(), turn);
      QuietStep(me, View(), turn, CallAct.EndBroadcast);
      MoveTo(me, Collecting(0));
    }

    // The last critical section. It does not look at `running` again.
    method CommitPause(me: Self, list: seq<nat>, turn: Turn)
      requires Valid() && IsSelf(me) && Listed(list) && At(me, Collecting(|list|))
      modifies this
      ensures Valid() && IsSelf(me) && View() == OneTurn(me, old(View()), turn)
      ensures paused && At(me, InFn)
    {
      hide Base, ChannelsOk, DistinctNames, CallApply, Act, Next, AfterOthers;
      InterleaveInside(me, turn.others);
      OwnStepKeeps(me, View(), turn);
      QuietStep(me, View(), turn, CallAct.CommitPause);
      paused := true;
      MoveTo(me, InFn);
    }

    // PauseAll, called with exclusiveMu held. It ends in fn, or on the failure path
    // of ExecuteExclusive, or is still waiting when the turns have run out.
    method PauseAll(me: Self, turns: seq<Turn>) returns (ending: Ending, rest: seq<Turn>)
      requires Valid() && IsSelf(me) && At(me, PauseEntry)
      modifies this
      ensures Valid() && IsSelf(me)
      ensures Play(PausingAll, me, old(View()), turns) == Played(View(), rest)
      ensures match ending
              case Done => At(me, InFn)
              case NotRunning => At(me, ResumeEntry(false))
              case Aborted => At(me, ResumeEntry(false)) && CtxDone(View(), CallerIndex(me))
              case Blocked => rest == [] && !Over(PausingAll, me, View())
      ensures ending == NotRunning <==>
                turns != [] && !AfterOthers(me, old(View()), turns[0].others).running
    {
      hide Base, ChannelsOk, DistinctNames, OneTurn, AfterOthers;
      if turns == [] {
        return Blocked, turns;
      }
      var list;
      ending, list := EnterPause(me, turns[0]);
      rest := turns[1..];
      if ending != Blocked {
        return;
      }
      ending, rest := PauseLoops(me, list, rest);
    }

    // The loops of PauseAll and what follows them.
    method PauseLoops(me: Self, list: seq<nat>, turns: seq<Turn>) returns (ending: Ending, rest: seq<Turn>)
      requires Valid() && IsSelf(me) && Listed(list) && At(me, Broadcasting(0))
      modifies this
      ensures Valid() && IsSelf(me)
      ensures Play(PausingAll, me, old(View()), turns) == Played(View(), rest)
      ensures match ending
              case Done => At(me, InFn)
              case NotRunning => false
              case Aborted => At(me, ResumeEntry(false)) && CtxDone(View(), CallerIndex(me))
              case Blocked => rest == [] && !Over(PausingAll, me, View())
    {
      hide Base, ChannelsOk, DistinctNames, OneTurn, Play;
      PlayPart(Routine.BroadcastPause, PausingAll, me, View(), turns);
      ending, rest := BroadcastPause(me, list, turns);
      if ending == Done && rest != [] {
        PlayTurn(PausingAll, me, View(), rest);
        EndBroadcast(me, list, rest[0]);
        ending, rest := SecondLoop(me, list, rest[1..]);
        return;
      }
      PlayOver(PausingAll, me, View(), rest);
      ending := if ending == Done then Blocked else ending;
    }

    method SecondLoop(me: Self, list: seq<nat>, turns: seq<Turn>) returns (ending: Ending, rest: seq<Turn>)
      requires Valid() && IsSelf(me) && Listed(list) && At(me, Collecting(0))
      modifies this
      ensures Valid() && IsSelf(me)
      ensures Play(PausingAll, me, old(View()), turns) == Played(View(), rest)
      ensures match ending
              case Done => At(me, InFn)
              case NotRunning => false
              case Aborted => At(me, ResumeEntry(false)) && CtxDone(View(), CallerIndex(me))
              case Blocked => rest == [] && !Over(PausingAll, me, View())
    {
      hide Base, ChannelsOk, DistinctNames, OneTurn, Play;
      PlayPart(Routine.CollectAcks, PausingAll, me, View(), turns);
      ending, rest := CollectAcks(me, list, turns);
      if ending == Done && rest != [] {
        PlayTurn(PausingAll, me, View(), rest);
        CommitPause(me, list, rest[0]);
        rest := rest[1..];
        PlayOver(PausingAll, me, View(), rest);
        return;
      }
      PlayOver(PausingAll, me, View(), rest);
      ending := if ending == Done then Blocked else ending;
    }

    // ---- ResumeAll -------------------------------------------------------------

    // The select of ResumeAll's loop: the 5s deadline may have fired.
    method SelectResume(me: Self, list: seq<nat>, i: nat, turn: Turn) returns (ending: Ending)
      requires Valid() && IsSelf(me) && Listed(list) && i < |list| && At(me, Resuming(i, true))
      modifies this
      ensures Valid() && IsSelf(me) && Listed(list)
      ensures View() == Act(old(View()), Next(me, old(View()), turn))
      ensures ending == if turn.preferDone then Aborted
                        else if old(workers)[list[i]].cmd == [] then Done else Blocked
      ensures At(me, if ending == Done then Resuming(i + 1, true)
                     else if ending == Aborted then Unlocking else Resuming(i, true))
    {
      hide Base, ChannelsOk, DistinctNames, CallApply, TargetAfter, Act, Next, CallEnabled;
      OwnStepKeeps(me, View(), turn);
      var h := list[i];
      StepInResume(me, View(), turn, h);
      if turn.preferDone {
        MoveTo(me, Unlocking);
        ending := Aborted;
      } else if workers[h].cmd == [] {
        SendIsDeliver(workers[h]);
        Send(me, h, Resume, Resuming(i + 1, true));
        ending := Done;
      } else {
        ending := Blocked;
      }
    }

    method ResumePass(me: Self, list: seq<nat>, i: nat, turn: Turn) returns (ending: Ending)
      requires Valid() && IsSelf(me) && Listed(list) && i < |list| && At(me, Resuming(i, true))
      modifies this
      ensures Valid() && IsSelf(me) && Listed(list) && View() == OneTurn(me, old(View()), turn)
      ensures ending != NotRunning
      ensures At(me, if ending == Done then Resuming(i + 1, true)
                     else if ending == Aborted then Unlocking else Resuming(i, true))
    {
      hide Base, ChannelsOk, DistinctNames, Next, Act, AfterOthers;
      InterleaveInside(me, turn.others);
      ending := SelectResume(me, list, i, turn);
    }

    method BroadcastResume(me: Self, list: seq<nat>, turns: seq<Turn>) returns (ending: Ending, rest: seq<Turn>)
      requires Valid() && IsSelf(me) && Listed(list) && At(me, Resuming(0, true))
      modifies this
      ensures Valid() && IsSelf(me)
      ensures Play(Routine.BroadcastResume, me, old(View()), turns) == Played(View(), rest)
      ensures match ending
              case Done => At(me, Resuming(|list|, true)) && Listed(list)
              case NotRunning => false
              case Aborted => At(me, Unlocking)
              case Blocked => rest == [] && callers[CallerIndex(me)].phase.Resuming?
    {
      hide Base, ChannelsOk, DistinctNames, OneTurn, Play;
      ghost var start := View();
      rest := turns;
      ending := Done;
      var i := 0;
      while i < |list|
        invariant Valid() && IsSelf(me) && Listed(list) && i <= |list| && At(me, Resuming(i, true)) && ending == Done
        invariant Play(Routine.BroadcastResume, me, start, turns) == Play(Routine.BroadcastResume, me, View(), rest)
        decreases |rest|
      {
        if rest == [] {
          ending := Blocked;
          break;
        }
        PlayTurn(Routine.BroadcastResume, me, View(), rest);
        var pass := ResumePass(me, list, i, rest[0]);
        rest := rest[1..];
        if pass == Aborted {
          ending := Aborted;
          break;
        }
        i := if pass == Done then i + 1 else i;
      }
      PlayOver(Routine.BroadcastResume, me, View(), rest);
    }

    // The first critical section: the two early returns, the list of handles.
    // `ending` is Blocked if ResumeAll goes on.
    method EnterResume(me: Self, turn: Turn) returns (ending: Ending, list: seq<nat>)
      requires Valid() && IsSelf(me) && callers[CallerIndex(me)].phase.ResumeEntry?
      modifies this
      ensures Valid() && IsSelf(me) && View() == OneTurn(me, old(View()), turn)
      ensures var s := AfterOthers(me, old(View()), turn.others);
              ending == if !s.running then NotRunning else if !s.paused then Done else Blocked
      ensures if ending == Blocked then Listed(list) && At(me, Resuming(0, true)) else At(me, Unlocking)
      ensures old(callers)[CallerIndex(me)].phase == ResumeEntry(false) ==> ending != Blocked
      ensures workers == AfterOthers(me, old(View()), turn.others).workers
    {
      hide Base, ChannelsOk, DistinctNames, CallApply, Act, Next, AfterOthers;
      InterleaveInside(me, turn.others);
      OwnStepKeeps(me, View(), turn);
      OwnerIsCaller(View(), CallerIndex(me));
      QuietStep(me, View(), turn, CallAct.EnterResume);
      list := [];
      if !running {
        MoveTo(me, Unlocking);
        return NotRunning, list;
      }
      if !paused {
        MoveTo(me, Unlocking);
        return Done, list;
      }
      list := NonExclusiveHandles();
      handles := |list|;
      MoveTo(me, Resuming(0, callers[CallerIndex(me)].phase.bounded));
      ending := Blocked;
    }

    // The last critical section.
    method CommitResume(me: Self, list: seq<nat>, turn: Turn)
      requires Valid() && IsSelf(me) && Listed(list) && At(me, Resuming(|list|, true))
      modifies this
      ensures Valid() && IsSelf(me) && View() == OneTurn(me, old(View()), turn)
      ensures !paused && At(me, Unlocking)
    {
      hide Base, ChannelsOk, DistinctNames, CallApply, Act, Next, AfterOthers;
      InterleaveInside(me, turn.others);
      OwnStepKeeps(me, View(), turn);
      QuietStep(me, View(), turn, CallAct.CommitResume);
      paused := false;
      MoveTo(me, Unlocking);
    }

    // ResumeAll. Unless it is still waiting, it returns to ExecuteExclusive, which
    // unlocks. On the failure path (`bounded` false) its first step is its last: it
    // sends nothing.
    method ResumeAll(me: Self, turns: seq<Turn>) returns (ending: Ending, rest: seq<Turn>)
      requires Valid() && IsSelf(me) && callers[CallerIndex(me)].phase.ResumeEntry?
      modifies this
      ensures Valid() && IsSelf(me)
      ensures Play(ResumingAll, me, old(View()), turns) == Played(View(), rest)
      ensures if ending == Blocked then rest == [] && !Over(ResumingAll, me, View()) else At(me, Unlocking)
      ensures turns != [] && old(callers)[CallerIndex(me)].phase == ResumeEntry(false) ==>
                && ending != Blocked && rest == turns[1..]
                && workers == AfterOthers(me, old(View()), turns[0].others).workers
    {
      hide Base, ChannelsOk, DistinctNames, OneTurn, AfterOthers, Play;
      PlayOver(ResumingAll, me, View(), []);
      if turns == [] {
        return Blocked, turns;
      }
      PlayTurn(ResumingAll, me, View(), turns);
      var list;
      ending, list := EnterResume(me, turns[0]);
      rest := turns[1..];
      if ending == Blocked {
        ending, rest := ResumeLoop(me, list, rest);
      } else {
        PlayOver(ResumingAll, me, View(), rest);
      }
    }

    method ResumeLoop(me: Self, list: seq<nat>, turns: seq<Turn>) returns (ending: Ending, rest: seq<Turn>)
      requires Valid() && IsSelf(me) && Listed(list) && At(me, Resuming(0, true))
      modifies this
      ensures Valid() && IsSelf(me)
      ensures Play(ResumingAll, me, old(View()), turns) == Played(View(), rest)
      ensures if ending == Blocked then rest == [] && !Over(ResumingAll, me, View()) else At(me, Unlocking)
      ensures ending == Done ==> !paused
    {
      hide Base, ChannelsOk, DistinctNames, OneTurn, Play;
      PlayPart(Routine.BroadcastResume, ResumingAll, me, View(), turns);
      ending, rest := BroadcastResume(me, list, turns);
      if ending == Done && rest != [] {
        PlayTurn(ResumingAll, me, View(), rest);
        CommitResume(me, list, rest[0]);
        rest := rest[1..];
        PlayOver(ResumingAll, me, View(), rest);
        return;
      }
      PlayOver(ResumingAll, me, View(), rest);
      ending := if ending == Done then Blocked else ending;
    }

    // ---- ExecuteExclusive ----------------------------------------------------

    // exclusiveMu.Lock(): waits while another caller holds it.
    method LockExclusive(me: Self, turns: seq<Turn>) returns (locked: bool, rest: seq<Turn>)
      requires Valid() && IsSelf(me) && At(me, Waiting)
      modifies this
      ensures Valid() && IsSelf(me)
      ensures Play(Locking, me, old(View()), turns) == Played(View(), rest)
      ensures if locked then At(me, PauseEntry) else rest == [] && At(me, Waiting)
    {
      hide Base, ChannelsOk, DistinctNames, OneTurn, Play;
      ghost var start := View();
      locked, rest := false, turns;
      while !locked && rest != []
        invariant Valid() && IsSelf(me) && At(me, if locked then PauseEntry else Waiting)
        invariant Play(Locking, me, start, turns) == Play(Locking, me, View(), rest)
        decreases |rest|
      {
        PlayTurn(Locking, me, View(), rest);
        locked := TryLock(me, rest[0]);
        rest := rest[1..];
      }
      PlayOver(Locking, me, View(), rest);
    }

    method TryLock(me: Self, turn: Turn) returns (locked: bool)
      requires Valid() && IsSelf(me) && At(me, Waiting)
      modifies this
      ensures Valid() && IsSelf(me) && View() == OneTurn(me, old(View()), turn)
      ensures locked == (AfterOthers(me, old(View()), turn.others).owner == None)
      ensures At(me, if locked then PauseEntry else Waiting)
    {
      hide Base, ChannelsOk, DistinctNames, CallApply, AfterOthers;
      Interleave(me, turn.others);
      OwnStepKeeps(me, View(), turn);
      locked := owner == None;
      if locked {
        QuietStep(me, View(), turn, Lock);
        owner := Some(CallerIndex(me));
        MoveTo(me, PauseEntry);
      }
    }

    // fn itself: the others run beside it.
    method RunFn(me: Self, turn: Turn)
      requires Valid() && IsSelf(me) && At(me, InFn)
      modifies this
      ensures Valid() && IsSelf(me) && View() == OneTurn(me, old(View()), turn)
      ensures At(me, ResumeEntry(true))
    {
      hide Base, ChannelsOk, DistinctNames, CallApply, Act, Next, AfterOthers;
      InterleaveInside(me, turn.others);
      OwnStepKeeps(me, View(), turn);
      QuietStep(me, View(), turn, FnReturn(turn.outcome));
      MoveTo(me, ResumeEntry(true));
    }

    method Unlock(me: Self, turn: Turn)
      requires Valid() && IsSelf(me) && At(me, Unlocking)
      modifies this
      ensures Valid() && IsSelf(me) && View() == OneTurn(me, old(View()), turn)
      ensures At(me, Idle) && owner == None && (me.Loop? ==> InStart(me.w, Checking))
    {
      hide Base, ChannelsOk, DistinctNames, CallApply, Act, Next, AfterOthers;
      InterleaveInside(me, turn.others);
      if me.Loop? {
        StillChecking(View(), me.w);
      }
      OwnStepKeeps(me, View(), turn);
      QuietStep(me, View(), turn, CallAct.Unlock);
      owner := None;
      MoveTo(me, Idle);
    }

    // ExecuteExclusive, from the moment its goroutine asks for exclusiveMu. The
    // deferred calls run in every case. `ran` tells whether fn has run.
    method ExecuteExclusive(me: Self, turns: seq<Turn>) returns (ending: Ending, ran: bool, rest: seq<Turn>)
      requires Valid() && IsSelf(me) && At(me, Waiting)
      modifies this
      ensures Valid() && IsSelf(me)
      ensures Play(Exclusive, me, old(View()), turns) == Played(View(), rest)
      ensures if ending == Blocked then rest == [] && !At(me, Idle)
              else At(me, Idle) && (me.Loop? ==> InStart(me.w, Checking))
      ensures ending != Blocked ==> (ran <==> ending == Done)
    {
      hide Base, ChannelsOk, DistinctNames, OneTurn, Play;
      ran := false;
      PlayPart(Locking, Exclusive, me, View(), turns);
      var locked;
      locked, rest := LockExclusive(me, turns);
      PlayOver(Exclusive, me, View(), []);
      if !locked {
        return Blocked, ran, rest;
      }
      PlayPart(PausingAll, Exclusive, me, View(), rest);
      ending, rest := PauseAll(me, rest);
      PlayOver(Exclusive, me, View(), []);
      if ending == Blocked || (ending == Done && rest == []) {
        return Blocked, ran, rest;
      }
      if ending == Done {
        PlayTurn(Exclusive, me, View(), rest);
        RunFn(me, rest[0]);
        ran, rest := true, rest[1..];
      }
      var returned;
      returned, rest := ResumeAndUnlock(me, rest);
      ending := if returned then ending else Blocked;
    }

    // The deferred ResumeAll, or that of the failure path, and the deferred Unlock.
    method ResumeAndUnlock(me: Self, turns: seq<Turn>) returns (returned: bool, rest: seq<Turn>)
      requires Valid() && IsSelf(me) && callers[CallerIndex(me)].phase.ResumeEntry?
      modifies this
      ensures Valid() && IsSelf(me)
      ensures Play(Exclusive, me, old(View()), turns) == Played(View(), rest)
      ensures if returned then At(me, Idle) && (me.Loop? ==> InStart(me.w, Checking)) else rest == [] && !At(me, Idle)
    {
      hide Base, ChannelsOk, DistinctNames, OneTurn, Play;
      PlayPart(ResumingAll, Exclusive, me, View(), turns);
      var ending;
      ending, rest := ResumeAll(me, turns);
      if ending != Blocked && rest != [] {
        PlayTurn(Exclusive, me, View(), rest);
        Unlock(me, rest[0]);
        rest := rest[1..];
        PlayOver(Exclusive, me, View(), rest);
        return true, rest;
      }
      PlayOver(Exclusive, me, View(), rest);
      returned := false;
    }

    // ---- Stop --------------------------------------------------------------------

    // Stop returns when every worker goroutine has exited; `returned` is false if
    // it was still in wg.Wait when the turns ran out. It takes no step of a
    // goroutine of the machine but its critical section.
    method Stop(turns: seq<Turn>) returns (returned: bool, rest: seq<Turn>)
      requires Valid()
      modifies this
      ensures Valid()
      ensures !old(running) ==> returned && View() == old(View()) && rest == turns
      ensures old(running) ==>
                && (returned <==> Resting())
                && Wait(Api(|callers|), Apply(old(View()), StopRun), turns) == Played(View(), rest)
    {
      hide Base, ChannelsOk, DistinctNames, AfterOthers;
      rest := turns;
      if !running {
        return true, rest;
      }
      StepKeepsWf(View(), StopRun);
      StepKeepsChannels(View(), StopRun);
      cancelled, running, paused := true, false, false;
      ghost var start := View();
      returned := forall w :: 0 <= w < |workers| ==> workers[w].phase == Exited;
      while !returned && rest != []
        invariant Valid() && |callers| == |start.callers|
        invariant returned <==> Resting()
        invariant Wait(Api(|callers|), start, turns) == Wait(Api(|callers|), View(), rest)
        decreases |rest|
      {
        Interleave(Api(|callers|), rest[0].others);
        rest := rest[1..];
        returned := forall w :: 0 <= w < |workers| ==> workers[w].phase == Exited;
      }
    }

    // ---- The goroutine of a light worker -------------------------------------------

    predicate InStart(w: nat, p: Phase)
      reads this
    {
      Sized() && w < |workers| && workers[w].phase == p
    }

    predicate Light(w: nat)
      reads this
    {
      w < |probes| && !probes[w].exclusive
    }

    // `x` with another phase.
    method Enter(w: nat, p: Phase)
      requires Sized() && w < |workers|
      modifies this`workers
      ensures Sized() && View() == SetWorker(old(View()), w, old(workers)[w].(phase := p))
    {
      workers := workers[w := workers[w].(phase := p)];
    }

    // Start of executeCheck: a pending tick is used up. An exclusive worker calls
    // ExecuteExclusive, whose first step is to wait for exclusiveMu.
    method BeginCheck(w: nat, ghost a: WorkAct)
      requires Sized() && WorkEnabled(View(), w, a) && (a == Launch || a == StartCheck)
      modifies this`workers, this`callers
      ensures Sized() && View() == WorkApply(old(View()), w, a) && InStart(w, Checking)
    {
      workers := workers[w := workers[w].(phase := Checking, tick := false)];
      if probes[w].exclusive {
        MoveTo(Loop(w), Waiting);
      }
    }

    // case cmd := <-cmdChan of the outer select, with the switch.
    method TakeCommand(w: nat)
      requires Light(w) && InStart(w, Selecting) && workers[w].cmd != []
      modifies this`workers
      ensures Sized() && View() == WorkApply(old(View()), w, WorkAct.TakeCommand)
      ensures InStart(w, Selecting) || InStart(w, AckPending) || InStart(w, Exited)
    {
      var x := workers[w];
      var cmd := x.cmd[0];
      x := x.(cmd := x.cmd[1..], log := x.log.(received := x.log.received + [cmd]));
      match cmd {
        case Pause =>
          x := x.(phase := AckPending, log := x.log.(pauses := x.log.pauses + 1));
        case Stop =>
          x := x.(phase := Exited);
        case Resume =>
          // Already active.
      }
      workers := workers[w := x];
    }

    // case resumeCmd := <-cmdChan of the pause loop.
    method TakeResumeCommand(w: nat)
      requires Light(w) && InStart(w, Paused) && workers[w].cmd != []
      modifies this`workers
      ensures Sized() && View() == WorkApply(old(View()), w, WorkAct.TakeCommand)
      ensures InStart(w, Paused) || InStart(w, Selecting) || InStart(w, Exited)
    {
      var x := workers[w];
      var resumeCmd := x.cmd[0];
      x := x.(cmd := x.cmd[1..], log := x.log.(received := x.log.received + [resumeCmd]));
      if resumeCmd == Resume {
        x := x.(phase := Selecting);
      } else if resumeCmd == Command.Stop {
        x := x.(phase := Exited);
      } else {
        // A CmdPause is swallowed: it is not acknowledged.
        x := x.(log := x.log.(swallowed := x.log.swallowed + 1));
      }
      workers := workers[w := x];
    }

    // One turn of the outer select.
    method SelectWork(w: nat, turn: Turn)
      requires Valid() && Light(w) && InStart(w, Selecting)
      modifies this
      ensures Valid() && Light(w) && View() == OneTurn(Loop(w), old(View()), turn)
      ensures InStart(w, Selecting) || InStart(w, Checking) || InStart(w, AckPending) || InStart(w, Exited)
    {
      hide Base, ChannelsOk, DistinctNames, AfterOthers, Act, Next, WorkApply;
      NotMeasuringIsIdle(View(), w);
      Interleave(Loop(w), turn.others);
      OwnStepKeeps(Loop(w), View(), turn);
      StepInStart(View(), w, turn);
      if cancelled && (turn.preferDone || (workers[w].cmd == [] && !workers[w].tick)) {
        WorkEffect(View(), w, Exit);
        Enter(w, Exited);
      } else if workers[w].tick && (turn.preferTick || workers[w].cmd == []) {
        BeginCheck(w, StartCheck);
      } else if workers[w].cmd != [] {
        TakeCommand(w);
      }
    }

    // executeCheck of a light probe, seen from outside: other goroutines run while
    // it measures; it ends when it ends, success or not.
    method Check(w: nat, turns: seq<Turn>) returns (rest: seq<Turn>)
      requires Valid() && Light(w) && InStart(w, Checking)
      modifies this
      ensures Valid() && Light(w) && Play(Routine.Check, Loop(w), old(View()), turns) == Played(View(), rest)
      ensures workers[w].phase == if turns == [] then Checking else Selecting
    {
      hide Base, ChannelsOk, DistinctNames, Play, OneTurn;
      rest := turns;
      if rest != [] {
        PlayTurn(Routine.Check, Loop(w), View(), rest);
        NotMeasuringIsIdle(View(), w);
        EndCheck(w, rest[0]);
        rest := rest[1..];
      }
      PlayOver(Routine.Check, Loop(w), View(), rest);
    }

    method EndCheck(w: nat, turn: Turn)
      requires Valid() && InStart(w, Checking) && callers[w].phase == Idle
      modifies this
      ensures Valid() && View() == OneTurn(Loop(w), old(View()), turn) && InStart(w, Selecting) && probes == old(probes)
    {
      hide Base, ChannelsOk, DistinctNames, AfterOthers, Act, Next, WorkApply;
      Interleave(Loop(w), turn.others);
      OwnStepKeeps(Loop(w), View(), turn);
      StepInStart(View(), w, turn);
      WorkEffect(View(), w, FinishCheck);
      Enter(w, Selecting);
    }

    // One turn of the ack select: the ack is queued, or the run context is done.
    method SelectPushAck(w: nat, turn: Turn)
      requires Valid() && Light(w) && InStart(w, AckPending)
      modifies this
      ensures Valid() && Light(w) && View() == OneTurn(Loop(w), old(View()), turn)
      ensures InStart(w, AckPending) || InStart(w, Paused) || InStart(w, Exited)
    {
      hide Base, ChannelsOk, DistinctNames, AfterOthers, Act, Next, WorkApply;
      NotMeasuringIsIdle(View(), w);
      Interleave(Loop(w), turn.others);
      OwnStepKeeps(Loop(w), View(), turn);
      StepInStart(View(), w, turn);
      var x := workers[w];
      if x.ack == 0 && !(cancelled && turn.preferDone) {
        WorkEffect(View(), w, PushAck);
        workers := workers[w := x.(phase := Paused, ack := x.ack + 1, log := x.log.(acksSent := x.log.acksSent + 1))];
      } else if cancelled {
        WorkEffect(View(), w, Exit);
        Enter(w, Exited);
      }
    }

    method Acknowledge(w: nat, turns: seq<Turn>) returns (rest: seq<Turn>)
      requires Valid() && Light(w) && InStart(w, AckPending)
      modifies this
      ensures Valid() && Light(w) && Play(Routine.Acknowledge, Loop(w), old(View()), turns) == Played(View(), rest)
      ensures InStart(w, Paused) || InStart(w, Exited) || (InStart(w, AckPending) && rest == [])
    {
      hide Base, ChannelsOk, DistinctNames, Play, OneTurn;
      ghost var start := View();
      rest := turns;
      while workers[w].phase == AckPending && rest != []
        invariant Valid() && Light(w)
        invariant InStart(w, AckPending) || InStart(w, Paused) || InStart(w, Exited)
        invariant Play(Routine.Acknowledge, Loop(w), start, turns) == Play(Routine.Acknowledge, Loop(w), View(), rest)
        decreases |rest|
      {
        PlayTurn(Routine.Acknowledge, Loop(w), View(), rest);
        SelectPushAck(w, rest[0]);
        rest := rest[1..];
      }
      PlayOver(Routine.Acknowledge, Loop(w), View(), rest);
    }

    // One turn of the select in the pause loop.
    method SelectResumed(w: nat, turn: Turn)
      requires Valid() && Light(w) && InStart(w, Paused)
      modifies this
      ensures Valid() && Light(w) && View() == OneTurn(Loop(w), old(View()), turn)
      ensures InStart(w, Paused) || InStart(w, Selecting) || InStart(w, Exited)
    {
      hide Base, ChannelsOk, DistinctNames, AfterOthers, Act, Next, WorkApply;
      NotMeasuringIsIdle(View(), w);
      Interleave(Loop(w), turn.others);
      OwnStepKeeps(Loop(w), View(), turn);
      StepInStart(View(), w, turn);
      if workers[w].cmd != [] && !(cancelled && turn.preferDone) {
        TakeResumeCommand(w);
      } else if cancelled {
        WorkEffect(View(), w, Exit);
        Enter(w, Exited);
      }
    }

    // The pause loop: only CmdResume, CmdStop or the end of the run context leave it.
    method PauseLoop(w: nat, turns: seq<Turn>) returns (rest: seq<Turn>)
      requires Valid() && Light(w) && InStart(w, Paused)
      modifies this
      ensures Valid() && Light(w) && Play(Routine.PauseLoop, Loop(w), old(View()), turns) == Played(View(), rest)
      ensures InStart(w, Selecting) || InStart(w, Exited) || (InStart(w, Paused) && rest == [])
    {
      hide Base, ChannelsOk, DistinctNames, Play, OneTurn;
      ghost var start := View();
      rest := turns;
      while workers[w].phase == Paused && rest != []
        invariant Valid() && Light(w)
        invariant InStart(w, Paused) || InStart(w, Selecting) || InStart(w, Exited)
        invariant Play(Routine.PauseLoop, Loop(w), start, turns) == Play(Routine.PauseLoop, Loop(w), View(), rest)
        decreases |rest|
      {
        PlayTurn(Routine.PauseLoop, Loop(w), View(), rest);
        SelectResumed(w, rest[0]);
        rest := rest[1..];
      }
      PlayOver(Routine.PauseLoop, Loop(w), View(), rest);
    }

    // One pass through the outer select of the Start loop, with what follows it.
    method WorkerPass(w: nat, turns: seq<Turn>) returns (rest: seq<Turn>)
      requires Valid() && Light(w) && InStart(w, Selecting) && turns != []
      modifies this
      ensures Valid() && Light(w) && (InStart(w, Selecting) || InStart(w, Exited) || rest == [])
      ensures Play(Pass, Loop(w), OneTurn(Loop(w), old(View()), turns[0]), turns[1..]) == Played(View(), rest)
    {
      hide Base, ChannelsOk, DistinctNames, Play, OneTurn;
      SelectWork(w, turns[0]);
      rest := turns[1..];
      if workers[w].phase == Checking {
        PlayPart(Routine.Check, Pass, Loop(w), View(), rest);
        rest := Check(w, rest);
      }
      if workers[w].phase == AckPending {
        PlayPart(Routine.Acknowledge, Pass, Loop(w), View(), rest);
        rest := Acknowledge(w, rest);
      }
      if workers[w].phase == Paused {
        PlayPart(Routine.PauseLoop, Pass, Loop(w), View(), rest);
        rest := PauseLoop(w, rest);
      }
      PlayOver(Pass, Loop(w), View(), rest);
    }

    method FirstCheck(w: nat, turn: Turn)
      requires Valid() && InStart(w, NotStarted)
      modifies this
      ensures Valid() && View() == OneTurn(Loop(w), old(View()), turn) && InStart(w, Checking) && probes == old(probes)
      ensures callers[w].phase == if probes[w].exclusive then Waiting else Idle
    {
      hide Base, ChannelsOk, DistinctNames, AfterOthers, Act, Next;
      NotMeasuringIsIdle(View(), w);
      Interleave(Loop(w), turn.others);
      OwnStepKeeps(Loop(w), View(), turn);
      StepInStart(View(), w, turn);
      BeginCheck(w, Launch);
    }

    // Start of a light probe: an immediate check, then the select loop. It has
    // returned when the phase is Exited; otherwise the turns have run out.
    method WorkerStart(w: nat, turns: seq<Turn>) returns (returned: bool, rest: seq<Turn>)
      requires Valid() && Light(w) && InStart(w, NotStarted)
      modifies this
      ensures Valid() && Play(Life, Loop(w), old(View()), turns) == Played(View(), rest)
      ensures returned <==> InStart(w, Exited)
    {
      hide Base, ChannelsOk, DistinctNames, Play, OneTurn;
      ghost var start := View();
      rest := turns;
      if rest != [] {
        PlayTurn(Life, Loop(w), View(), rest);
        FirstCheck(w, rest[0]);
        PlayPart(Routine.Check, Life, Loop(w), View(), rest[1..]);
        rest := Check(w, rest[1..]);
      }
      while workers[w].phase == Selecting && rest != []
        invariant Valid() && Light(w) && (rest == [] || InStart(w, Selecting) || InStart(w, Exited))
        invariant Play(Life, Loop(w), start, turns) == Play(Life, Loop(w), View(), rest)
        decreases |rest|
      {
        PlayPass(Loop(w), View(), rest);
        rest := WorkerPass(w, rest);
      }
      PlayOver(Life, Loop(w), View(), rest);
      returned := workers[w].phase == Exited;
    }

    // ---- The goroutine of an exclusive worker --------------------------------------

    predicate ExclusiveWorker(w: nat)
      reads this
    {
      w < |probes| && probes[w].exclusive
    }

    // triggerMeasurement: one call of ExecuteExclusive.
    method Trigger(w: nat, turns: seq<Turn>) returns (rest: seq<Turn>)
      requires Valid() && ExclusiveWorker(w) && InStart(w, Checking) && callers[w].phase == Waiting
      modifies this
      ensures Valid() && ExclusiveWorker(w)
      ensures Play(Routine.Check, Loop(w), old(View()), turns) == Played(View(), rest)
      ensures InStart(w, Selecting) || rest == []
    {
      hide Base, ChannelsOk, DistinctNames, Play, OneTurn;
      PlayPart(Exclusive, Routine.Check, Loop(w), View(), turns);
      var ending, ran;
      ending, ran, rest := ExecuteExclusive(Loop(w), turns);
      if ending != Blocked && rest != [] {
        PlayTurn(Routine.Check, Loop(w), View(), rest);
        EndCheck(w, rest[0]);
        rest := rest[1..];
      }
      PlayOver(Routine.Check, Loop(w), View(), rest);
    }

    // One turn of the select. Nothing is ever sent on the cmdChan of an exclusive
    // worker, so its branch, which knows CmdStop only, is never ready.
    method SelectMeasurement(w: nat, turn: Turn)
      requires Valid() && ExclusiveWorker(w) && InStart(w, Selecting)
      modifies this
      ensures Valid() && ExclusiveWorker(w) && View() == OneTurn(Loop(w), old(View()), turn)
      ensures InStart(w, Selecting) || InStart(w, Exited) || (InStart(w, Checking) && callers[w].phase == Waiting)
    {
      hide Base, ChannelsOk, DistinctNames, AfterOthers, Act, Next, WorkApply;
      NotMeasuringIsIdle(View(), w);
      Interleave(Loop(w), turn.others);
      OwnStepKeeps(Loop(w), View(), turn);
      StepInStart(View(), w, turn);
      NothingForExclusive(View(), w);
      if cancelled && (turn.preferDone || !workers[w].tick) {
        WorkEffect(View(), w, Exit);
        Enter(w, Exited);
      } else if workers[w].tick {
        WorkEffect(View(), w, StartCheck);
        BeginCheck(w, StartCheck);
      }
    }

    // Start of an exclusive probe: a first measurement, then the select loop.
    method SpeedtestStart(w: nat, turns: seq<Turn>) returns (returned: bool, rest: seq<Turn>)
      requires Valid() && ExclusiveWorker(w) && InStart(w, NotStarted)
      modifies this
      ensures Valid() && Play(Life, Loop(w), old(View()), turns) == Played(View(), rest)
      ensures returned <==> InStart(w, Exited)
    {
      hide Base, ChannelsOk, DistinctNames, Play, OneTurn;
      ghost var start := View();
      rest := turns;
      if rest != [] {
        PlayTurn(Life, Loop(w), View(), rest);
        FirstCheck(w, rest[0]);
        PlayPart(Routine.Check, Life, Loop(w), View(), rest[1..]);
        rest := Trigger(w, rest[1..]);
      }
      while workers[w].phase == Selecting && rest != []
        invariant Valid() && ExclusiveWorker(w)
        invariant rest == [] || InStart(w, Selecting) || InStart(w, Exited)
        invariant Play(Life, Loop(w), start, turns) == Play(Life, Loop(w), View(), rest)
        decreases |rest|
      {
        PlayTurn(Life, Loop(w), View(), rest);
        SelectMeasurement(w, rest[0]);
        rest := rest[1..];
        if workers[w].phase == Checking {
          PlayPart(Routine.Check, Life, Loop(w), View(), rest);
          rest := Trigger(w, rest);
        }
      }
      PlayOver(Life, Loop(w), View(), rest);
      returned := workers[w].phase == Exited;
    }
  }

  // ---- What the methods achieve --------------------------------------------------

  // While a goroutine is past the lock nobody else can cut a ResumeAll.
  lemma {:induction false} OthersCutNothing(me: Self, s: State, others: seq<Label>)
    requires Base(s) && IsGoroutine(s, me) && s.owner == Some(CallerIndex(me))
    ensures UncutRun(s, Greedy(me, s, others))
    decreases |others|
  {
    if others != [] {
      var l := others[0];
      if !Mine(l, me) && Enabled(s, l) {
        OthersStep(me, s, l);
        StepKeepsWf(s, l);
        assert !IsPartialCut(s, l);
        OthersCutNothing(me, Apply(s, l), others[1..]);
        assert others == [l] + others[1..];
        GreedyCons(me, s, l, others[1..]);
        UncutCons(s, l, Greedy(me, Apply(s, l), others[1..]));
      } else {
        OthersCutNothing(me, s, others[1..]);
      }
    }
  }

  lemma PauseStepKeepsOwner(me: Self, s: State, turn: Turn)
    requires IsGoroutine(s, me) && s.owner == Some(CallerIndex(me)) && !Over(PausingAll, me, s)
    ensures Act(s, Next(me, s, turn)).owner == s.owner
  {
    hide CallEnabled, WorkEnabled, TargetAfter, WorkerAfter;
  }

  lemma PauseTurnKeepsInv(me: Self, s: State, turn: Turn)
    requires Inv(s) && IsGoroutine(s, me) && s.owner == Some(CallerIndex(me)) && !Over(PausingAll, me, s)
    ensures Inv(OneTurn(me, s, turn)) && OneTurn(me, s, turn).owner == Some(CallerIndex(me))
  {
    hide Apply, Enabled, NextCall, NextWork, WorkerOk, Held, Released, Base, Coherent;
    OthersCutNothing(me, s, turn.others);
    RunKeepsInv(s, Greedy(me, s, turn.others));
    var t := AfterOthers(me, s, turn.others);
    OthersUndisturbed(me, s, turn.others);
    PauseStepKeepsOwner(me, t, turn);
    var l := Next(me, t, turn);
    if l.Some? {
      StepKeepsInv(t, l.value);
    }
  }

  lemma {:induction false} OthersUndisturbed(me: Self, s: State, others: seq<Label>)
    requires Base(s) && IsGoroutine(s, me)
    ensures Undisturbed(me, s, AfterOthers(me, s, others))
    decreases |others|
  {
    if others == [] {
      NobodyElse(me, s);
    } else {
      AfterOthersUnfold(me, s, others);
      if !Mine(others[0], me) && Enabled(s, others[0]) {
        OthersStep(me, s, others[0]);
        StepKeepsWf(s, others[0]);
        OthersUndisturbed(me, Apply(s, others[0]), others[1..]);
      } else {
        OthersUndisturbed(me, s, others[1..]);
      }
    }
  }

  lemma {:induction false} PausePlayKeepsInv(me: Self, s: State, turns: seq<Turn>)
    requires Inv(s) && IsGoroutine(s, me) && s.owner == Some(CallerIndex(me))
    ensures Inv(Play(PausingAll, me, s, turns).end)
    decreases |turns|
  {
    if !Over(PausingAll, me, s) && turns != [] {
      PauseTurnKeepsInv(me, s, turns[0]);
      PausePlayKeepsInv(me, OneTurn(me, s, turns[0]), turns[1..]);
    }
  }

  // What a PauseAll that ends in fn has achieved, whatever the turns: every light
  // worker is stopped and acknowledged.
  lemma CompletedPauseHoldsAll(me: Self, s: State, turns: seq<Turn>, w: nat)
    requires Inv(s) && IsGoroutine(s, me) && HasPhase(s, CallerIndex(me), PauseEntry) && IsLight(s, w)
    requires HasPhase(Play(PausingAll, me, s, turns).end, CallerIndex(me), InFn)
    ensures w < |s.workers| && IsLight(Play(PausingAll, me, s, turns).end, w)
    ensures Held(Play(PausingAll, me, s, turns).end.workers[w])
  {
    assert Inside(s.callers[CallerIndex(me)].phase);
    PausePlayKeepsInv(me, s, turns);
    PlaysAreRuns(PausingAll, me, s, turns);
    FnRunsAlone(Play(PausingAll, me, s, turns).end, CallerIndex(me), w);
  }
}
