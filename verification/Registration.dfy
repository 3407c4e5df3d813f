// What RegisterWorker, RegisterWorkers and Start make of a scheduler, whoever is
// inside ExecuteExclusive when they are called.
module Registration {
  import opened Wrappers
  import opened Session
  import opened Safety

  datatype RegisterError = NilWorker | AlreadyRunning | DuplicateName

  const IDLE := Caller(Idle, false)

  // A worker whose goroutine has not been started yet has none, as one that has exited.
  function NewWorker(): Worker {
    Worker(Exited, false, [], 0, EMPTY_LOG)
  }

  function Names(ps: seq<Probe>): seq<string> {
    seq(|ps|, i requires 0 <= i < |ps| => ps[i].name)
  }

  // What RegisterWorker answers, in the order in which it looks.
  function Verdict(registered: seq<Probe>, running: bool, p: Option<Probe>): Result<RegisterError> {
    if p == None then Err(NilWorker)
    else if running then Err(AlreadyRunning)
    else if p.value.name in Names(registered) then Err(DuplicateName)
    else Ok
  }

  // The probes behind the first k workers of a list that contains no nil there.
  predicate NoNil(ps: seq<Option<Probe>>, k: nat)
    requires k <= |ps|
  {
    forall i :: 0 <= i < k ==> ps[i].Some?
  }

  function Given(ps: seq<Option<Probe>>, k: nat): (qs: seq<Probe>)
    requires k <= |ps| && NoNil(ps, k)
    ensures |qs| == k && forall i :: 0 <= i < k ==> qs[i] == ps[i].value
  {
    seq(k, i requires 0 <= i < k => ps[i].value)
  }

  // The first k of `ps` are accepted one after the other.
  predicate Accepted(registered: seq<Probe>, running: bool, ps: seq<Option<Probe>>, k: nat) {
    && k <= |ps| && NoNil(ps, k)
    && forall j :: 0 <= j < k ==> Verdict(registered + Given(ps, j), running, ps[j]) == Ok
  }

  lemma AcceptOneMore(registered: seq<Probe>, running: bool, ps: seq<Option<Probe>>, k: nat)
    requires k < |ps| && Accepted(registered, running, ps, k)
    requires Verdict(registered + Given(ps, k), running, ps[k]) == Ok
    ensures Accepted(registered, running, ps, k + 1)
    ensures Given(ps, k) + [ps[k].value] == Given(ps, k + 1)
    ensures registered + Given(ps, k) + [ps[k].value] == registered + Given(ps, k + 1)
  {
  }

  predicate DistinctNames(ps: seq<Probe>) {
    forall i, j :: 0 <= i < j < |ps| ==> ps[i].name != ps[j].name
  }

  // ---- Channels over all sessions ------------------------------------------------

  // Channels hold what the protocol puts into them, whatever session it was.
  predicate ChannelsOk(s: State) {
    forall w :: 0 <= w < |s.workers| ==> ChannelOk(s.workers[w], s.probes[w].exclusive)
  }

  predicate ChannelOk(x: Worker, exclusive: bool) {
    && (x.cmd == [] || x.cmd == [Pause] || x.cmd == [Resume])
    && (exclusive ==> x.cmd == [] && x.ack == 0 && x.phase != AckPending)
  }

  lemma NothingForExclusive(s: State, w: nat)
    requires ChannelsOk(s) && w < |s.workers| && s.probes[w].exclusive
    ensures s.workers[w].cmd == [] && s.workers[w].ack == 0
  {
    assert ChannelOk(s.workers[w], true);
  }

  lemma StepKeepsChannels(s: State, l: Label)
    requires ChannelsOk(s) && Enabled(s, l)
    ensures ChannelsOk(Apply(s, l))
  {
    match l
    case Work(w, a) => assert ChannelOk(WorkerAfter(s.workers[w], s.probes[w].exclusive, a), s.probes[w].exclusive);
    case Call(c, a) => CallKeepsChannels(s, c, a);
    case _ =>
  }

  lemma CallKeepsChannels(s: State, c: nat, a: CallAct)
    requires ChannelsOk(s) && CallEnabled(s, c, a)
    ensures ChannelsOk(CallApply(s, c, a))
  {
    if TouchesTarget(a) {
      var x := s.workers[Target(s, c)];
      assert ChannelOk(x, false);
      if !a.CollectAck? {
        assert TargetAfter(x, a).cmd == [if a.SendPause? then Pause else Resume];
      }
    } else {
      assert CallApply(s, c, a).workers == s.workers;
    }
  }

  // ---- Registration and Start --------------------------------------------------

  // A caller's number after one more worker has been registered: the place of the
  // new worker's own calls comes in between those of the workers and the others.
  function Renumbered(s: State, c: nat): nat {
    if c < |s.workers| then c else c + 1
  }

  // Handles listed before do not include the new worker.
  function WithWorker(s: State, p: Probe): State {
    ListsGrow(s.probes, p);
    s.(probes := s.probes + [p], workers := s.workers + [NewWorker()],
       callers := s.callers[..|s.workers|] + [IDLE] + s.callers[|s.workers|..],
       owner := if s.owner.Some? then Some(Renumbered(s, s.owner.value)) else None)
  }

  lemma ListsGrow(ps: seq<Probe>, p: Probe)
    ensures Lights(ps + [p]) == Lights(ps) + if p.exclusive then [] else [|ps|]
  {
    assert (ps + [p])[..|ps|] == ps;
  }

  lemma CallerRenumbered(s: State, p: Probe, c: nat)
    requires c < |s.callers|
    ensures var t := WithWorker(s, p);
            |t.callers| == |s.callers| + 1 && t.callers[Renumbered(s, c)] == s.callers[c]
  {
  }

  // Registration leaves every caller and every worker where it is.
  lemma Registered(s: State, p: Probe)
    requires Base(s) && ChannelsOk(s)
    ensures Base(WithWorker(s, p)) && ChannelsOk(WithWorker(s, p))
    ensures OwnerPhase(WithWorker(s, p)) == OwnerPhase(s)
  {
    var t := WithWorker(s, p);
    var n := |s.workers|;
    if s.owner.Some? {
      CallerRenumbered(s, p, s.owner.value);
    }
    assert ChannelOk(NewWorker(), p.exclusive);
    forall c | 0 <= c < |t.callers|
      ensures Inside(t.callers[c].phase) <==> t.owner == Some(c)
      ensures c < |t.workers| && t.callers[c].phase != Idle ==> InMeasurement(t, c)
    {
      if c != n {
        var d := if c < n then c else c - 1;
        CallerRenumbered(s, p, d);
        assert Renumbered(s, d) == c && (Inside(s.callers[d].phase) <==> s.owner == Some(d));
      }
    }
  }

  function WithWorkers(s: State, qs: seq<Probe>): State
    decreases |qs|
  {
    if qs == [] then s else WithWorker(WithWorkers(s, qs[..|qs| - 1]), qs[|qs| - 1])
  }

  lemma NoneAccepted(s: State, running: bool, ps: seq<Option<Probe>>)
    ensures Accepted(s.probes, running, ps, 0) && Given(ps, 0) == [] && WithWorkers(s, Given(ps, 0)) == s
    ensures forall k: nat :: Accepted(s.probes, running, ps, k) ==> k <= |ps| && NoNil(ps, k)
  {
  }

  lemma WithOneMore(s: State, qs: seq<Probe>, q: Probe)
    ensures WithWorkers(s, qs + [q]) == WithWorker(WithWorkers(s, qs), q)
  {
    assert (qs + [q])[..|qs|] == qs;
  }

  // Where a caller's record comes from when k workers have been registered.
  function CallerAfter(s: State, k: nat, c: nat): Caller
    requires c < |s.callers| + k
  {
    if c < |s.workers| then s.callers[c] else if c < |s.workers| + k then IDLE else s.callers[c - k]
  }

  // Registering one.
  lemma WithWorkerExact(s: State, p: Probe)
    ensures var t := WithWorker(s, p);
            && t.probes == s.probes + [p] && t.workers == s.workers + [NewWorker()]
            && |t.callers| == |s.callers| + 1
            && (forall c :: 0 <= c < |t.callers| ==> t.callers[c] == CallerAfter(s, 1, c))
            && t.running == s.running && t.paused == s.paused && t.cancelled == s.cancelled && t.handles == s.handles
            && t.owner == if s.owner.Some? then Some(Renumbered(s, s.owner.value)) else None
  {
  }

  // Registering several workers: those that were there stay as they are, the new ones
  // have empty channels, and every caller stays where it is.
  lemma {:induction false} WithWorkersExact(s: State, qs: seq<Probe>)
    ensures var t := WithWorkers(s, qs);
            && t.probes == s.probes + qs && |t.workers| == |s.workers| + |qs|
            && (forall w :: 0 <= w < |t.workers| ==>
                  if w < |s.workers| then t.workers[w] == s.workers[w]
                  else t.workers[w].cmd == [] && t.workers[w].ack == 0 && t.workers[w].phase == Exited)
            && |t.callers| == |s.callers| + |qs|
            && (forall c :: 0 <= c < |t.callers| ==> t.callers[c] == CallerAfter(s, |qs|, c))
    ensures var t := WithWorkers(s, qs);
            && t.running == s.running && t.paused == s.paused && t.cancelled == s.cancelled && t.handles == s.handles
            && (t.owner.Some? <==> s.owner.Some?)
            && (t.owner.Some? ==> t.owner.value == s.owner.value + if s.owner.value < |s.workers| then 0 else |qs|)
    decreases |qs|
  {
    hide WithWorker;
    if qs != [] {
      var n := |qs| - 1;
      WithWorkersExact(s, qs[..n]);
      WithWorkerExact(WithWorkers(s, qs[..n]), qs[n]);
      assert qs == qs[..n] + [qs[n]];
    }
  }

  // Start, once the worker goroutines of the session before have exited.
  lemma Started(s: State)
    requires Base(s) && ChannelsOk(s) && forall w :: 0 <= w < |s.workers| ==> s.workers[w].phase == Exited
    ensures Restarted(AfterStart(s)) && ChannelsOk(AfterStart(s))
  {
    var t := AfterStart(s);
    assert OwnerPhase(t) == OwnerPhase(s);
    forall w | 0 <= w < |s.workers|
      ensures StartWorker(t.workers[w], t.probes[w].exclusive) && FitsCapacity(t.workers[w])
      ensures ChannelOk(t.workers[w], t.probes[w].exclusive) && s.callers[w].phase == Idle
    {
      assert ChannelOk(s.workers[w], s.probes[w].exclusive) && FitsCapacity(s.workers[w]);
    }
  }
}
