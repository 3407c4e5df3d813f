// One goroutine among the others: what it does when it is its turn, as a function
// of the state and of the choices that Go leaves open. A play of a goroutine is a
// run of the machine of Session, and every run is a play of any of its goroutines.
module Goroutine {
  import opened Wrappers
  import opened Session
  import opened Safety

  // What happens until a goroutine has had its chance to take one step: the steps
  // the others try to take first, then which branch wins when several are ready. In
  // a bounded ResumeAll `preferDone` says that the deadline has fired. `outcome` is
  // how fn ends, if it ends then.
  datatype Turn = Turn(others: seq<Label>, preferDone: bool, preferTick: bool, outcome: Outcome)

  // An outside goroutine inside ExecuteExclusive, or the goroutine of a worker.
  datatype Self = Api(c: nat) | Loop(w: nat)

  predicate Mine(l: Label, me: Self) {
    match me
    case Api(c) => l.Call? && l.c == c
    case Loop(w) => (l.Call? && l.c == w) || (l.Work? && l.w == w && l.act != Tick)
  }

  function CallerIndex(me: Self): nat {
    match me
    case Api(c) => c
    case Loop(w) => w
  }

  predicate IsGoroutine(s: State, me: Self) {
    match me
    case Api(c) => |s.workers| <= c < |s.callers|
    case Loop(w) => w < |s.workers|
  }

  // ---- The next step ---------------------------------------------------------

  // Inside ExecuteExclusive.
  function NextCall(s: State, c: nat, turn: Turn): (a: Option<CallAct>)
    requires c < |s.callers|
    ensures a.Some? ==> CallEnabled(s, c, a.value) || a.value == Request
  {
    match s.callers[c].phase
    case Idle => Some(Request)
    case Waiting => if s.owner == None then Some(Lock) else None
    case PauseEntry => Some(EnterPause)
    case Broadcasting(_) =>
      if InLoop(s, c) then NextInPause(s, c, turn, SendPause, s.workers[Target(s, c)].cmd == [])
      else if LoopDone(s, c) then Some(EndBroadcast) else None
    case Collecting(_) =>
      if InLoop(s, c) then NextInPause(s, c, turn, CollectAck, s.workers[Target(s, c)].ack > 0)
      else if LoopDone(s, c) then Some(CommitPause) else None
    case InFn => Some(FnReturn(turn.outcome))
    case ResumeEntry(_) => Some(EnterResume)
    case Resuming(_, bounded) =>
      if InLoop(s, c) then
        if bounded && turn.preferDone then Some(ResumeDeadline)
        else if s.workers[Target(s, c)].cmd == [] then Some(SendResume)
        else None
      else if LoopDone(s, c) then Some(CommitResume) else None
    case Unlocking => Some(Unlock)
  }

  // The selects of PauseAll: the channel operation if it is ready, the error return
  // if ctx.Done() is, either if both are, neither if none is.
  function NextInPause(s: State, c: nat, turn: Turn, operation: CallAct, ready: bool): Option<CallAct>
    requires c < |s.callers|
  {
    if ready && !(CtxDone(s, c) && turn.preferDone) then Some(operation)
    else if CtxDone(s, c) then Some(AbortPause)
    else None
  }

  // In the Start loop.
  function NextWork(s: State, w: nat, turn: Turn): (a: Option<WorkAct>)
    requires w < |s.workers| && s.callers[w].phase == Idle
    ensures a.Some? ==> WorkEnabled(s, w, a.value)
  {
    var x := s.workers[w];
    match x.phase
    case NotStarted => Some(Launch)
    case Checking => Some(FinishCheck)
    case Selecting =>
      if s.cancelled && (turn.preferDone || (x.cmd == [] && !x.tick)) then Some(Exit)
      else if x.tick && (turn.preferTick || x.cmd == []) then Some(StartCheck)
      else if x.cmd != [] then Some(TakeCommand)
      else None
    case AckPending => NextWaiting(s, turn, PushAck, x.ack == 0)
    case Paused => NextWaiting(s, turn, TakeCommand, x.cmd != [])
    case Exited => None
  }

  function NextWaiting(s: State, turn: Turn, operation: WorkAct, ready: bool): Option<WorkAct> {
    if ready && !(s.cancelled && turn.preferDone) then Some(operation)
    else if s.cancelled then Some(Exit)
    else None
  }

  // None: the goroutine is blocked, or has come to its end.
  function Next(me: Self, s: State, turn: Turn): (l: Option<Label>)
    requires IsGoroutine(s, me)
    ensures l.Some? ==> Enabled(s, l.value) && Mine(l.value, me)
  {
    var c := CallerIndex(me);
    if me.Api? || s.callers[c].phase != Idle then
      match NextCall(s, c, turn)
      case Some(a) => if CallEnabled(s, c, a) then Some(Call(c, a)) else None
      case None => None
    else
      match NextWork(s, c, turn)
      case Some(a) => Some(Work(c, a))
      case None => None
  }

  // Nothing the code can do is left out: whatever step a goroutine can take in the
  // machine is its next step for some outcome of the choices.
  lemma NextIsComplete(me: Self, s: State, l: Label) returns (turn: Turn)
    requires Base(s) && IsGoroutine(s, me) && Mine(l, me) && Enabled(s, l)
    ensures turn.others == [] && Next(me, s, turn) == Some(l)
  {
    var done := l.Call? && (l.call.AbortPause? || l.call.ResumeDeadline?);
    turn := Turn([], done || (l.Work? && l.act == Exit), l.Work? && l.act == StartCheck,
                 if l.Call? && l.call.FnReturn? then l.call.outcome else Success);
    match l
    case Call(c, a) => assert NextCall(s, c, turn) == Some(a);
    case Work(w, a) =>
      assert s.callers[w].phase == Idle;
      assert NextWork(s, w, turn) == Some(a);
    case _ =>
  }

  // ---- One turn --------------------------------------------------------------

  // Of the steps the others try to take, those that are theirs and enabled.
  function Greedy(me: Self, s: State, others: seq<Label>): (ls: seq<Label>)
    ensures CanRun(s, ls)
    decreases |others|
  {
    if others == [] then []
    else if !Mine(others[0], me) && Enabled(s, others[0]) then
      var rest := Greedy(me, Apply(s, others[0]), others[1..]);
      assert ([others[0]] + rest)[1..] == rest;
      [others[0]] + rest
    else Greedy(me, s, others[1..])
  }

  function AfterOthers(me: Self, s: State, others: seq<Label>): State {
    Exec(s, Greedy(me, s, others))
  }

  lemma NobodyElse(me: Self, s: State)
    ensures AfterOthers(me, s, []) == s
  {
  }

  function Act(s: State, l: Option<Label>): (t: State)
    requires l.Some? ==> Enabled(s, l.value)
    ensures t.probes == s.probes && |t.workers| == |s.workers| && |t.callers| == |s.callers|
  {
    match l
    case Some(a) => Apply(s, a)
    case None => s
  }

  function OneTurn(me: Self, s: State, turn: Turn): (t: State)
    requires IsGoroutine(s, me)
    ensures IsGoroutine(t, me) && t.probes == s.probes
  {
    var t := AfterOthers(me, s, turn.others);
    Act(t, Next(me, t, turn))
  }

  function TurnTrace(me: Self, s: State, turn: Turn): seq<Label>
    requires IsGoroutine(s, me)
  {
    var ls := Greedy(me, s, turn.others);
    match Next(me, Exec(s, ls), turn)
    case Some(l) => ls + [l]
    case None => ls
  }

  lemma TurnRuns(me: Self, s: State, turn: Turn)
    requires IsGoroutine(s, me)
    ensures CanRun(s, TurnTrace(me, s, turn)) && Exec(s, TurnTrace(me, s, turn)) == OneTurn(me, s, turn)
  {
    var ls := Greedy(me, s, turn.others);
    var l := Next(me, Exec(s, ls), turn);
    if l.Some? {
      assert [l.value][1..] == [];
      RunConcat(s, ls, [l.value]);
    }
  }

  // ---- Plays -----------------------------------------------------------------

  // The pieces of code a goroutine can be in, from the lock of exclusiveMu to the
  // whole Start loop.
  datatype Routine =
    | Locking | BroadcastPause | CollectAcks | PausingAll | BroadcastResume | ResumingAll | Exclusive
    | Check | Acknowledge | PauseLoop | Pass | Life

  // The goroutine has left that piece of code.
  predicate Over(r: Routine, me: Self, s: State)
    requires IsGoroutine(s, me)
  {
    var p := s.callers[CallerIndex(me)].phase;
    match r
    case Locking => !p.Waiting?
    case BroadcastPause => !p.Broadcasting? || !InLoop(s, CallerIndex(me))
    case CollectAcks => !p.Collecting? || !InLoop(s, CallerIndex(me))
    case PausingAll => !p.PauseEntry? && !p.Broadcasting? && !p.Collecting?
    case BroadcastResume => !p.Resuming? || !InLoop(s, CallerIndex(me))
    case ResumingAll => !p.ResumeEntry? && !p.Resuming?
    case Exclusive => p.Idle?
    case Check => me.Api? || s.workers[me.w].phase != Checking
    case Acknowledge => me.Api? || s.workers[me.w].phase != AckPending
    case PauseLoop => me.Api? || s.workers[me.w].phase != Paused
    case Pass => me.Api? || s.workers[me.w].phase == Selecting || s.workers[me.w].phase == Exited
    case Life => me.Api? || s.workers[me.w].phase == Exited
  }

  datatype Played = Played(end: State, rest: seq<Turn>)

  // The goroutine goes on until it has left r, or the turns have run out.
  function Play(r: Routine, me: Self, s: State, turns: seq<Turn>): (p: Played)
    requires IsGoroutine(s, me)
    ensures IsGoroutine(p.end, me) && p.end.probes == s.probes && |p.rest| <= |turns|
    ensures Over(r, me, p.end) || p.rest == []
    decreases |turns|
  {
    if Over(r, me, s) || turns == [] then Played(s, turns)
    else Play(r, me, OneTurn(me, s, turns[0]), turns[1..])
  }

  lemma PlayTurn(r: Routine, me: Self, s: State, turns: seq<Turn>)
    requires IsGoroutine(s, me) && turns != [] && !Over(r, me, s)
    ensures Play(r, me, s, turns) == Play(r, me, OneTurn(me, s, turns[0]), turns[1..])
  {
  }

  lemma PlayOver(r: Routine, me: Self, s: State, turns: seq<Turn>)
    requires IsGoroutine(s, me) && (turns == [] || Over(r, me, s))
    ensures Play(r, me, s, turns) == Played(s, turns)
  {
  }

  function PlayTrace(r: Routine, me: Self, s: State, turns: seq<Turn>): seq<Label>
    requires IsGoroutine(s, me)
    decreases |turns|
  {
    if Over(r, me, s) || turns == [] then []
    else TurnTrace(me, s, turns[0]) + PlayTrace(r, me, OneTurn(me, s, turns[0]), turns[1..])
  }

  predicate AllExited(s: State) {
    forall w :: 0 <= w < |s.workers| ==> s.workers[w].phase == Exited
  }

  // wg.Wait: the others go on until every worker goroutine has exited, or the
  // turns have run out.
  function Wait(me: Self, s: State, turns: seq<Turn>): (p: Played)
    ensures AllExited(p.end) || p.rest == []
    decreases |turns|
  {
    if AllExited(s) || turns == [] then Played(s, turns)
    else Wait(me, AfterOthers(me, s, turns[0].others), turns[1..])
  }

  // Waiting is a run of the others ...
  lemma {:induction false} WaitsAreRuns(me: Self, s: State, turns: seq<Turn>) returns (ls: seq<Label>)
    ensures CanRun(s, ls) && Exec(s, ls) == Wait(me, s, turns).end
    decreases |turns|
  {
    ls := [];
    if !AllExited(s) && turns != [] {
      var first := Greedy(me, s, turns[0].others);
      var rest := WaitsAreRuns(me, Exec(s, first), turns[1..]);
      RunConcat(s, first, rest);
      ls := first + rest;
    }
  }

  // ... and every run of the others is one, on one long turn.
  lemma RunsAreWaits(me: Self, s: State, turn: Turn)
    requires CanRun(s, turn.others) && !AllExited(s) && forall l :: l in turn.others ==> !Mine(l, me)
    ensures Wait(me, s, [turn]) == Played(Exec(s, turn.others), [])
  {
    AllTaken(me, s, turn.others);
    assert [turn][1..] == [];
  }

  lemma {:induction false} AllTaken(me: Self, s: State, ls: seq<Label>)
    requires CanRun(s, ls) && forall l :: l in ls ==> !Mine(l, me)
    ensures Greedy(me, s, ls) == ls
    decreases |ls|
  {
    if ls != [] {
      hide Mine, Enabled, Apply;
      assert ls[0] in ls && ls == [ls[0]] + ls[1..];
      AllTaken(me, Apply(s, ls[0]), ls[1..]);
    }
  }

  // r2 is a part of r1: whoever has left r1 has left r2.
  predicate PartOf(r2: Routine, r1: Routine, me: Self) {
    match r1
    case PausingAll => r2 == BroadcastPause || r2 == CollectAcks
    case ResumingAll => r2 == BroadcastResume
    case Exclusive => r2 == Locking || r2 == PausingAll || r2 == ResumingAll
    case Check => r2 == Exclusive && me.Loop?
    case Pass => r2 == Check || r2 == Acknowledge || r2 == PauseLoop
    case Life => r2 == Pass || r2 == Check
    case _ => false
  }

  // Where routines nest: the goroutine of a worker is inside ExecuteExclusive only
  // while it is in a check.
  predicate Nested(me: Self, s: State) {
    me.Loop? && me.w < |s.workers| && s.callers[me.w].phase != Idle ==> s.workers[me.w].phase == Checking
  }

  lemma PartEndsFirst(r2: Routine, r1: Routine, me: Self, s: State)
    requires IsGoroutine(s, me) && PartOf(r2, r1, me) && Over(r1, me, s) && Nested(me, s)
    ensures Over(r2, me, s)
  {
  }

  lemma TurnKeepsBase(me: Self, s: State, turn: Turn)
    requires Base(s) && IsGoroutine(s, me)
    ensures Base(OneTurn(me, s, turn)) && Nested(me, OneTurn(me, s, turn))
  {
    var ls := Greedy(me, s, turn.others);
    RunKeepsWf(s, ls);
    var t := Exec(s, ls);
    var l := Next(me, t, turn);
    if l.Some? {
      StepKeepsWf(t, l.value);
    }
    BaseNests(me, OneTurn(me, s, turn));
  }

  lemma BaseNests(me: Self, s: State)
    requires Base(s)
    ensures Nested(me, s)
  {
  }

  // To play r1 is to play a part of it first.
  lemma {:induction false} PlayPart(r2: Routine, r1: Routine, me: Self, s: State, turns: seq<Turn>)
    requires Base(s) && IsGoroutine(s, me) && PartOf(r2, r1, me)
    ensures var p := Play(r2, me, s, turns);
            Play(r1, me, s, turns) == Play(r1, me, p.end, p.rest)
    decreases |turns|
  {
    if !Over(r2, me, s) && turns != [] {
      BaseNests(me, s);
      if Over(r1, me, s) {
        PartEndsFirst(r2, r1, me, s);
      }
      TurnKeepsBase(me, s, turns[0]);
      PlayPart(r2, r1, me, OneTurn(me, s, turns[0]), turns[1..]);
    }
  }

  // A pass of the Start loop, which begins with one turn in its select.
  lemma PlayPass(me: Self, s: State, turns: seq<Turn>)
    requires Base(s) && IsGoroutine(s, me) && turns != [] && !Over(Life, me, s)
    ensures var p := Play(Pass, me, OneTurn(me, s, turns[0]), turns[1..]);
            Play(Life, me, s, turns) == Play(Life, me, p.end, p.rest)
  {
    TurnKeepsBase(me, s, turns[0]);
    PlayPart(Pass, Life, me, OneTurn(me, s, turns[0]), turns[1..]);
  }

  // Every play is a run.
  lemma {:induction false} PlaysAreRuns(r: Routine, me: Self, s: State, turns: seq<Turn>)
    requires IsGoroutine(s, me)
    ensures var ls := PlayTrace(r, me, s, turns);
            CanRun(s, ls) && Exec(s, ls) == Play(r, me, s, turns).end
    decreases |turns|
  {
    if !Over(r, me, s) && turns != [] {
      TurnRuns(me, s, turns[0]);
      PlaysAreRuns(r, me, OneTurn(me, s, turns[0]), turns[1..]);
      RunConcat(s, TurnTrace(me, s, turns[0]), PlayTrace(r, me, OneTurn(me, s, turns[0]), turns[1..]));
    }
  }

  // The goroutine stays in r up to the last step of the run, which is its own.
  predicate Stays(r: Routine, me: Self, s: State, ls: seq<Label>)
    requires IsGoroutine(s, me) && CanRun(s, ls)
    decreases |ls|
  {
    ls == [] || (!Over(r, me, s) && Mine(ls[|ls| - 1], me) && Stays(r, me, Apply(s, ls[0]), ls[1..]))
  }

  lemma TurnOfOwnStep(me: Self, s: State, turn: Turn, l: Label)
    requires IsGoroutine(s, me) && turn.others == [] && Next(me, s, turn) == Some(l)
    ensures TurnTrace(me, s, turn) == [l] && OneTurn(me, s, turn) == Apply(s, l)
  {
  }

  lemma GreedyCons(me: Self, s: State, l: Label, others: seq<Label>)
    requires !Mine(l, me) && Enabled(s, l)
    ensures Greedy(me, s, [l] + others) == [l] + Greedy(me, Apply(s, l), others)
    ensures AfterOthers(me, s, [l] + others) == AfterOthers(me, Apply(s, l), others)
  {
    hide Mine, Enabled, Apply;
    assert ([l] + others)[0] == l && ([l] + others)[1..] == others;
    var rest := Greedy(me, Apply(s, l), others);
    assert ([l] + rest)[0] == l && ([l] + rest)[1..] == rest;
  }

  lemma NextIgnoresOthers(me: Self, s: State, turn: Turn, others: seq<Label>)
    requires IsGoroutine(s, me)
    ensures Next(me, s, turn.(others := others)) == Next(me, s, turn)
  {
  }

  lemma TurnOfOthersStep(me: Self, s: State, turn: Turn, l: Label) returns (longer: Turn)
    requires IsGoroutine(s, me) && !Mine(l, me) && Enabled(s, l)
    ensures TurnTrace(me, s, longer) == [l] + TurnTrace(me, Apply(s, l), turn)
    ensures OneTurn(me, s, longer) == OneTurn(me, Apply(s, l), turn)
  {
    hide Mine, Enabled, Apply, NextCall, NextWork, Greedy;
    longer := turn.(others := [l] + turn.others);
    GreedyCons(me, s, l, turn.others);
    NextIgnoresOthers(me, AfterOthers(me, s, longer.others), turn, longer.others);
  }

  lemma PlayCons(r: Routine, me: Self, s: State, turn: Turn, turns: seq<Turn>)
    requires IsGoroutine(s, me) && !Over(r, me, s)
    ensures Play(r, me, s, [turn] + turns) == Play(r, me, OneTurn(me, s, turn), turns)
    ensures PlayTrace(r, me, s, [turn] + turns)
         == TurnTrace(me, s, turn) + PlayTrace(r, me, OneTurn(me, s, turn), turns)
  {
    hide Over, OneTurn, TurnTrace;
    assert ([turn] + turns)[0] == turn && ([turn] + turns)[1..] == turns;
  }

  lemma PlayOwnStep(r: Routine, me: Self, s: State, l: Label, rest: seq<Turn>) returns (turns: seq<Turn>)
    requires Base(s) && IsGoroutine(s, me) && Mine(l, me) && Enabled(s, l) && !Over(r, me, s)
    ensures turns != [] && Play(r, me, s, turns) == Play(r, me, Apply(s, l), rest)
    ensures PlayTrace(r, me, s, turns) == [l] + PlayTrace(r, me, Apply(s, l), rest)
  {
    hide Mine, Enabled, Apply, Next, Over, Play, PlayTrace;
    var turn := NextIsComplete(me, s, l);
    TurnOfOwnStep(me, s, turn, l);
    PlayCons(r, me, s, turn, rest);
    turns := [turn] + rest;
  }

  lemma PlayOthersStep(r: Routine, me: Self, s: State, l: Label, rest: seq<Turn>) returns (turns: seq<Turn>)
    requires IsGoroutine(s, me) && !Mine(l, me) && Enabled(s, l) && rest != []
    requires !Over(r, me, s) && !Over(r, me, Apply(s, l))
    ensures turns != [] && Play(r, me, s, turns) == Play(r, me, Apply(s, l), rest)
    ensures PlayTrace(r, me, s, turns) == [l] + PlayTrace(r, me, Apply(s, l), rest)
  {
    hide Mine, Enabled, Apply, Next, Over, Play, PlayTrace, OneTurn, TurnTrace;
    assert rest == [rest[0]] + rest[1..];
    var turn := TurnOfOthersStep(me, s, rest[0], l);
    PlayCons(r, me, Apply(s, l), rest[0], rest[1..]);
    PlayCons(r, me, s, turn, rest[1..]);
    turns := [turn] + rest[1..];
  }

  lemma StaysTail(r: Routine, me: Self, s: State, ls: seq<Label>)
    requires IsGoroutine(s, me) && CanRun(s, ls) && Stays(r, me, s, ls) && ls != []
    ensures !Over(r, me, s) && Enabled(s, ls[0]) && IsGoroutine(Apply(s, ls[0]), me)
    ensures CanRun(Apply(s, ls[0]), ls[1..]) && Stays(r, me, Apply(s, ls[0]), ls[1..])
    ensures Exec(s, ls) == Exec(Apply(s, ls[0]), ls[1..])
    ensures !Mine(ls[0], me) ==> ls[1..] != [] && !Over(r, me, Apply(s, ls[0]))
  {
    hide Enabled, Apply, Over, Mine;
  }

  // And every run is a play, up to the last step a goroutine takes in it: no
  // interleaving of the machine is out of reach of the turns.
  lemma {:induction false} RunsArePlays(r: Routine, me: Self, s: State, ls: seq<Label>) returns (turns: seq<Turn>)
    requires Base(s) && IsGoroutine(s, me) && CanRun(s, ls) && Stays(r, me, s, ls)
    ensures PlayTrace(r, me, s, turns) == ls && Play(r, me, s, turns) == Played(Exec(s, ls), [])
    ensures (turns == []) == (ls == [])
    decreases |ls|
  {
    if ls == [] {
      turns := [];
    } else {
      hide Mine, Enabled, Apply, Over, Base, Play, PlayTrace, Stays, CanRun, Exec;
      StaysTail(r, me, s, ls);
      StepKeepsWf(s, ls[0]);
      var rest := RunsArePlays(r, me, Apply(s, ls[0]), ls[1..]);
      assert ls == [ls[0]] + ls[1..];
      if Mine(ls[0], me) {
        turns := PlayOwnStep(r, me, s, ls[0], rest);
      } else {
        turns := PlayOthersStep(r, me, s, ls[0], rest);
      }
    }
  }
}
