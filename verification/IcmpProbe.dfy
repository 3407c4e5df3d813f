// Jitter (FR5) and the bookkeeping of the ICMP probe over a history of checks.
module IcmpProbe {
  import opened Wrappers

  function Abs(x: real): real {
    if x < 0.0 then -x else x
  }

  class JitterCalculator {
    var lastRTT: real
    var hasRTT: bool

    constructor ()
      ensures !hasRTT
    {
      lastRTT, hasRTT := 0.0, false;
    }

    method Compute(rtt: real) returns (jitter: real, ok: bool)
      modifies this
      ensures hasRTT && lastRTT == rtt
      ensures ok == old(hasRTT)
      ensures jitter == if !ok then 0.0 else if rtt < old(lastRTT) then old(lastRTT) - rtt else rtt - old(lastRTT)
    {
      if !hasRTT {
        lastRTT, hasRTT := rtt, true;
        return 0.0, false;
      }
      jitter := Abs(rtt - lastRTT);
      lastRTT := rtt;
      ok := true;
    }

    method Reset()
      modifies this
      ensures !hasRTT && lastRTT == 0.0
    {
      lastRTT, hasRTT := 0.0, false;
    }
  }

  // A check ends with a round-trip time or without one.
  type Outcome = Option<real>

  // ---- What a history of checks amounts to --------------------------------------

  function Successes(h: seq<Outcome>): seq<real> {
    if h == [] then []
    else Successes(h[..|h| - 1]) + if h[|h| - 1].Some? then [h[|h| - 1].value] else []
  }

  function Losses(h: seq<Outcome>): (ls: seq<real>)
    ensures |ls| == |h| && forall i :: 0 <= i < |h| ==> ls[i] == if h[i].Some? then 0.0 else 1.0
  {
    seq(|h|, i requires 0 <= i < |h| => if h[i].Some? then 0.0 else 1.0)
  }

  // The absolute differences of neighbours, without smoothing.
  function Differences(xs: seq<real>): (ds: seq<real>)
    ensures |ds| == if |xs| == 0 then 0 else |xs| - 1
  {
    var n := |xs|;
    if n < 2 then [] else Differences(xs[..n - 1]) + [Abs(xs[n - 1] - xs[n - 2])]
  }

  lemma {:induction false} DifferenceAt(xs: seq<real>, i: nat)
    requires i + 1 < |xs|
    ensures Differences(xs)[i] == Abs(xs[i + 1] - xs[i])
  {
    if i + 2 < |xs| {
      DifferenceAt(xs[..|xs| - 1], i);
    }
  }

  function Sum(xs: seq<real>): real {
    if xs == [] then 0.0 else Sum(xs[..|xs| - 1]) + xs[|xs| - 1]
  }

  lemma {:induction false} OneMoreCheck(h: seq<Outcome>, x: Outcome)
    ensures Successes(h + [x]) == if x.Some? then Successes(h) + [x.value] else Successes(h)
    ensures Losses(h + [x]) == Losses(h) + [if x.Some? then 0.0 else 1.0]
  {
    assert (h + [x])[..|h|] == h;
  }

  lemma {:induction false} OneMoreDifference(xs: seq<real>, x: real)
    ensures Differences(xs + [x]) == if |xs| > 0 then Differences(xs) + [Abs(x - xs[|xs| - 1])] else []
  {
    assert (xs + [x])[..|xs|] == xs;
  }

  lemma PrefixSnoc(h: seq<Outcome>, pings: seq<Outcome>, i: nat)
    requires i < |pings|
    ensures (h + pings[..i]) + [pings[i]] == h + pings[..i + 1]
  {
  }

  // ---- The probe ---------------------------------------------------------------

  // The records are the values handed to the metrics instruments, in order.
  class ICMPProbe {
    const metrics: bool
    const jitterCalc: JitterCalculator
    var losses: seq<real>
    var rtts: seq<real>
    var jitters: seq<real>
    ghost var history: seq<Outcome>

    // The probe has accounted for its whole history of checks.
    ghost predicate Valid()
      reads this, jitterCalc
    {
      var xs := Successes(history);
      && jitterCalc.hasRTT == (|xs| > 0)
      && (|xs| > 0 ==> jitterCalc.lastRTT == xs[|xs| - 1])
      && losses == (if metrics then Losses(history) else [])
      && rtts == (if metrics then xs else [])
      && jitters == (if metrics then Differences(xs) else [])
    }

    constructor (metrics: bool)
      ensures Valid() && history == [] && this.metrics == metrics && fresh(jitterCalc)
    {
      this.metrics := metrics;
      jitterCalc := new JitterCalculator();
      losses, rtts, jitters, history := [], [], [], [];
    }

    method ExecuteCheck(ping: Outcome)
      requires Valid()
      modifies this, jitterCalc
      ensures Valid() && history == old(history) + [ping]
    {
      hide Successes, Losses, Differences;
      OneMoreCheck(history, ping);
      ghost var xs := Successes(history);
      history := history + [ping];
      if ping == None {
        if metrics {
          losses := losses + [1.0];
        }
        return;
      }
      OneMoreDifference(xs, ping.value);
      var jitter, ok := jitterCalc.Compute(ping.value);
      if ok && metrics {
        jitters := jitters + [jitter];
      }
      if metrics {
        rtts := rtts + [ping.value];
        losses := losses + [0.0];
      }
    }

    // Any sequence of checks.
    method ExecuteChecks(pings: seq<Outcome>)
      requires Valid()
      modifies this, jitterCalc
      ensures Valid() && history == old(history) + pings
    {
      hide Successes, Losses, Differences;
      for i := 0 to |pings|
        invariant Valid() && history == old(history) + pings[..i]
      {
        ghost var before := history;
        ExecuteCheck(pings[i]);
        PrefixSnoc(old(history), pings, i);
        assert history == before + [pings[i]];
      }
      assert pings[..|pings|] == pings;
    }
  }

  // ---- Properties of the accounting ----------------------------------------------

  function CountSome(h: seq<Outcome>): nat {
    if h == [] then 0 else CountSome(h[..|h| - 1]) + if h[|h| - 1].Some? then 1 else 0
  }

  // `at` tells where in the history the values xs stand, in order.
  predicate Locates(h: seq<Outcome>, xs: seq<real>, at: seq<nat>) {
    && |at| == |xs| <= |h|
    && (forall k :: 0 <= k < |at| ==> at[k] < |h| && h[at[k]] == Some(xs[k]))
    && (forall k, l :: 0 <= k < l < |at| ==> at[k] < at[l])
  }

  // No successful check is missing.
  predicate Covers(h: seq<Outcome>, at: seq<nat>) {
    forall i :: 0 <= i < |h| && h[i].Some? ==> i in at
  }

  lemma LocatesSnoc(h: seq<Outcome>, xs: seq<real>, at: seq<nat>, x: Outcome)
    requires Locates(h, xs, at)
    ensures Locates(h + [x], if x.Some? then xs + [x.value] else xs, if x.Some? then at + [|h|] else at)
  {
  }

  lemma CoversSnoc(h: seq<Outcome>, at: seq<nat>, x: Outcome)
    requires Covers(h, at)
    ensures Covers(h + [x], if x.Some? then at + [|h|] else at)
  {
    assert (at + [|h|])[|at|] == |h|;
  }

  lemma NothingToLocate()
    ensures Locates([], [], []) && Covers([], [])
  {
  }

  // The successes are the round-trip times of the history, each once and in order.
  lemma {:induction false} SuccessesExact(h: seq<Outcome>) returns (at: seq<nat>)
    ensures Locates(h, Successes(h), at) && Covers(h, at) && |at| == CountSome(h)
  {
    hide Locates, Covers;
    if h == [] {
      at := [];
      NothingToLocate();
    } else {
      var n := |h| - 1;
      at := SuccessesExact(h[..n]);
      LocatesSnoc(h[..n], Successes(h[..n]), at, h[n]);
      CoversSnoc(h[..n], at, h[n]);
      assert h == h[..n] + [h[n]];
      OneMoreCheck(h[..n], h[n]);
      at := if h[n].Some? then at + [n] else at;
    }
  }

  // One loss record per check, one RTT record per success, and a jitter record
  // for every success but the first.
  lemma RecordCounts(p: ICMPProbe)
    requires p.Valid() && p.metrics
    ensures |p.losses| == |p.history|
    ensures |p.rtts| == CountSome(p.history)
    ensures |p.jitters| == if CountSome(p.history) == 0 then 0 else CountSome(p.history) - 1
  {
    var at := SuccessesExact(p.history);
  }

  // Each check is recorded as lost or not lost, in order.
  lemma LossRecordsExact(p: ICMPProbe, i: nat)
    requires p.Valid() && p.metrics && i < |p.history|
    ensures i < |p.losses| && p.losses[i] == match p.history[i] { case Some(_) => 0.0 case None => 1.0 }
  {
  }

  // Jitter is how far each recorded round-trip time is from the one before it,
  // whether it rises or falls.
  lemma JitterRecordsExact(p: ICMPProbe, i: nat)
    requires p.Valid() && p.metrics && i + 1 < |p.rtts|
    ensures i < |p.jitters|
    ensures p.jitters[i] == if p.rtts[i] <= p.rtts[i + 1] then p.rtts[i + 1] - p.rtts[i] else p.rtts[i] - p.rtts[i + 1]
  {
    DifferenceAt(p.rtts, i);
  }

  // The jitters recorded between measurement i and measurement j.
  function Accumulated(xs: seq<real>, i: nat, j: nat): real
    requires i <= j && (i < j ==> j < |xs|)
  {
    if i == j then 0.0 else Accumulated(xs, i, j - 1) + Abs(xs[j] - xs[j - 1])
  }

  lemma {:induction false} AccumulatedSum(xs: seq<real>, j: nat)
    requires j < |xs|
    ensures Accumulated(xs, 0, j) == Sum(Differences(xs[..j + 1]))
  {
    if j > 0 {
      AccumulatedSum(xs, j - 1);
      assert xs[..j + 1] == xs[..j] + [xs[j]];
      OneMoreDifference(xs[..j], xs[j]);
      SumSnoc(Differences(xs[..j]), Abs(xs[j] - xs[j - 1]));
    }
  }

  lemma {:induction false} SumSnoc(xs: seq<real>, x: real)
    ensures Sum(xs + [x]) == Sum(xs) + x
  {
    assert (xs + [x])[..|xs|] == xs;
  }

  lemma Triangle(a: real, b: real, c: real)
    ensures Abs(c - a) <= Abs(b - a) + Abs(c - b)
  {
  }

  // Accumulated jitter over a stretch of measurements bounds the distance between
  // its ends.
  lemma {:induction false} JitterSpans(xs: seq<real>, i: nat, j: nat)
    requires i <= j < |xs|
    ensures Abs(xs[j] - xs[i]) <= Accumulated(xs, i, j)
    decreases j - i
  {
    if i < j {
      JitterSpans(xs, i, j - 1);
      Triangle(xs[i], xs[j - 1], xs[j]);
    }
  }

  lemma {:induction false} AccumulatedSplit(xs: seq<real>, i: nat, k: nat, j: nat)
    requires i <= k <= j < |xs|
    ensures Accumulated(xs, i, j) == Accumulated(xs, i, k) + Accumulated(xs, k, j)
    ensures Accumulated(xs, k, j) >= 0.0
    decreases j - k
  {
    if k < j {
      AccumulatedSplit(xs, i, k, j - 1);
    }
  }

  // The jitters a probe has recorded add up to at least the distance between any
  // two round-trip times it has recorded.
  lemma TotalJitterBoundsSpread(p: ICMPProbe, i: nat, j: nat)
    requires p.Valid() && p.metrics && i <= j < |p.rtts|
    ensures p.rtts[j] - p.rtts[i] <= Sum(p.jitters) && p.rtts[i] - p.rtts[j] <= Sum(p.jitters)
  {
    var xs := p.rtts;
    JitterSpans(xs, i, j);
    AccumulatedSplit(xs, 0, i, j);
    AccumulatedSplit(xs, 0, 0, i);
    AccumulatedSplit(xs, 0, j, |xs| - 1);
    AccumulatedSum(xs, |xs| - 1);
    assert xs[..|xs|] == xs;
  }
}
