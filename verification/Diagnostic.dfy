// The diagnosis: which hop of a traceroute a degradation is blamed on.
module Diagnostic {
  import opened Wrappers
  import opened Mtr

  datatype Diagnosis = OK | LocalNetwork | ISPGateway | TransitLoss | TargetUnreachable | HighLatency

  // FaultyHop is 0 when no hop is blamed.
  datatype Report = Report(
    target: string, diagnosis: Diagnosis, lossRatio: real, rtt: int, faultyHop: int, faultyHopIP: string)

  const MILLISECOND: int := 1_000_000

  // Too slow or silent.
  predicate IsFaulty(h: Hop, latencyThreshold: int) {
    !h.success || (h.rtt > latencyThreshold && h.rtt > 0)
  }

  predicate IsFirstFaulty(hops: seq<Hop>, latencyThreshold: int, k: nat) {
    k < |hops| && IsFaulty(hops[k], latencyThreshold) && forall i :: 0 <= i < k ==> !IsFaulty(hops[i], latencyThreshold)
  }

  predicate NoneFaulty(hops: seq<Hop>, latencyThreshold: int) {
    forall i :: 0 <= i < |hops| ==> !IsFaulty(hops[i], latencyThreshold)
  }

  function Blame(hop: int): Diagnosis {
    if hop == 1 then LocalNetwork else if hop <= 3 then ISPGateway else TransitLoss
  }

  // What Analyze reports. For a traceroute with hops, the first faulty one is
  // blamed. Since a FaultyHop of 0 stands for none, a faulty hop numbered 0 would
  // count as none if the target was not reached: see the last clause.
  ghost predicate Explains(e: Engine, lossRatio: real, rtt: int, mtr: Option<MTRResult>, r: Report) {
    var L := e.latencyThreshold;
    && (r.diagnosis == OK <==> !e.Anomalous(lossRatio, rtt))
    && (r.diagnosis == OK ==> r.faultyHop == 0 && r.faultyHopIP == "")
    && (e.Anomalous(lossRatio, rtt) && (mtr.None? || mtr.value.hops == []) ==>
          && r.faultyHop == 0 && r.faultyHopIP == ""
          && r.diagnosis == if lossRatio >= e.lossThreshold && lossRatio >= 1.0 then TargetUnreachable
                            else if rtt >= e.latencyThreshold then HighLatency else TransitLoss)
    && (e.Anomalous(lossRatio, rtt) && mtr.Some? && mtr.value.hops != [] && NoneFaulty(mtr.value.hops, L) ==>
          && r.faultyHop == 0 && r.faultyHopIP == ""
          && r.diagnosis == if mtr.value.reachedTarget then TransitLoss else TargetUnreachable)
    && (e.Anomalous(lossRatio, rtt) && mtr.Some? && !NoneFaulty(mtr.value.hops, L) ==>
          exists k: nat :: IsFirstFaulty(mtr.value.hops, L, k)
                        && r.faultyHop == mtr.value.hops[k].hop && r.faultyHopIP == mtr.value.hops[k].ip
                        && r.diagnosis == if r.faultyHop == 0 && !mtr.value.reachedTarget then TargetUnreachable
                                          else Blame(r.faultyHop))
  }

  class Engine {
    const lossThreshold: real
    const latencyThreshold: int

    // Thresholds that are not positive are replaced, so that there are none.
    constructor (lossThreshold: real, latencyThreshold: int)
      ensures Valid()
      ensures this.lossThreshold == if lossThreshold <= 0.0 then 0.05 else lossThreshold
      ensures this.latencyThreshold == if latencyThreshold <= 0 then 250 * MILLISECOND else latencyThreshold
    {
      this.lossThreshold := if lossThreshold <= 0.0 then 0.05 else lossThreshold;
      this.latencyThreshold := if latencyThreshold <= 0 then 250 * MILLISECOND else latencyThreshold;
    }

    predicate Valid() {
      lossThreshold > 0.0 && latencyThreshold > 0
    }

    predicate Anomalous(lossRatio: real, rtt: int) {
      lossRatio >= lossThreshold || rtt >= latencyThreshold
    }

    method Analyze(target: string, lossRatio: real, rtt: int, mtr: Option<MTRResult>) returns (r: Report)
      ensures r.target == target && r.lossRatio == lossRatio && r.rtt == rtt
      ensures Explains(this, lossRatio, rtt, mtr, r)
      ensures r.diagnosis == OK <==> lossRatio < lossThreshold && rtt < latencyThreshold
      ensures mtr.None? || mtr.value.hops == [] ==>
                && r.faultyHop == 0 && r.faultyHopIP == ""
                && (r.diagnosis == TargetUnreachable <==> lossRatio >= 1.0 && lossRatio >= lossThreshold)
                && (r.diagnosis == HighLatency <==>
                      rtt >= latencyThreshold && (lossRatio < 1.0 || lossRatio < lossThreshold))
    {
      var hasLossAnomaly := lossRatio >= lossThreshold;
      var hasLatencyAnomaly := rtt >= latencyThreshold;
      if !hasLossAnomaly && !hasLatencyAnomaly {
        return Report(target, OK, lossRatio, rtt, 0, "");
      }
      var diagnosis, faultyHop, faultyHopIP := TransitLoss, 0, "";
      if mtr.Some? && |mtr.value.hops| > 0 {
        diagnosis, faultyHop, faultyHopIP := FindFaulty(mtr.value.hops);
        if faultyHop == 0 && !mtr.value.reachedTarget {
          diagnosis := TargetUnreachable;
        }
      } else if hasLossAnomaly && lossRatio >= 1.0 {
        diagnosis := TargetUnreachable;
      } else if hasLatencyAnomaly {
        diagnosis := HighLatency;
      }
      r := Report(target, diagnosis, lossRatio, rtt, faultyHop, faultyHopIP);
    }

    // The loop of Analyze.
    method FindFaulty(hops: seq<Hop>) returns (diagnosis: Diagnosis, faultyHop: int, faultyHopIP: string)
      ensures if NoneFaulty(hops, latencyThreshold)
              then diagnosis == TransitLoss && faultyHop == 0 && faultyHopIP == ""
              else exists k: nat :: IsFirstFaulty(hops, latencyThreshold, k)
                            && faultyHop == hops[k].hop && faultyHopIP == hops[k].ip && diagnosis == Blame(faultyHop)
    {
      diagnosis, faultyHop, faultyHopIP := TransitLoss, 0, "";
      for i := 0 to |hops|
        invariant forall k :: 0 <= k < i ==> !IsFaulty(hops[k], latencyThreshold)
        invariant diagnosis == TransitLoss && faultyHop == 0 && faultyHopIP == ""
      {
        var hop := hops[i];
        if !hop.success || (hop.rtt > latencyThreshold && hop.rtt > 0) {
          faultyHop, faultyHopIP := hop.hop, hop.ip;
          if hop.hop == 1 {
            diagnosis := LocalNetwork;
          } else if hop.hop <= 3 {
            diagnosis := ISPGateway;
          } else {
            diagnosis := TransitLoss;
          }
          assert IsFirstFaulty(hops, latencyThreshold, i);
          return;
        }
      }
    }
  }

  // Whatever thresholds an engine was made with, an analysis that reports neither
  // loss nor latency is normal and blames nobody, whatever the traceroute shows. The
  // program makes no other.
  lemma NothingMeasuredIsNormal(e: Engine, lossRatio: real, rtt: int, mtr: Option<MTRResult>, r: Report)
    requires e.Valid() && Explains(e, lossRatio, rtt, mtr, r) && lossRatio <= 0.0 && rtt <= 0
    ensures r.diagnosis == OK && r.faultyHop == 0 && r.faultyHopIP == ""
  {
  }

  // The first packet that counts for this TTL came in time.
  predicate IsPrompt(net: Network, ttl: int, latencyThreshold: int) {
    exists k :: 0 <= k < |net.stream(ttl)| && FirstCounts(net, ttl, k)
      && (net.stream(ttl)[k].rtt <= latencyThreshold || net.stream(ttl)[k].rtt <= 0)
  }

  lemma HopFaultyExactly(net: Network, ttl: int, latencyThreshold: int)
    ensures IsFaulty(HopAt(net, ttl), latencyThreshold) <==> !IsPrompt(net, ttl, latencyThreshold)
  {
    HopTellsOf(net, ttl);
    forall k, l | FirstCounts(net, ttl, k) && FirstCounts(net, ttl, l)
      ensures k == l
    {
      FirstCountsUnique(net, ttl, k, l);
    }
  }

  // Hop k of an error-free trace is what the network answered for TTL k.
  lemma TraceFaults(net: Network, maxHops: int, latencyThreshold: int)
    ensures var hs := Hops(net, maxHops);
            forall ttl :: 1 <= ttl <= |hs| ==>
              && hs[ttl - 1] == HopAt(net, ttl) && hs[ttl - 1].hop == ttl
              && (IsFaulty(hs[ttl - 1], latencyThreshold) <==> !IsPrompt(net, ttl, latencyThreshold))
  {
    TraceShape(net, maxHops);
    var hs := Hops(net, maxHops);
    forall ttl | 1 <= ttl <= |hs|
      ensures hs[ttl - 1] == HopAt(net, ttl) && hs[ttl - 1].hop == ttl
      ensures IsFaulty(hs[ttl - 1], latencyThreshold) <==> !IsPrompt(net, ttl, latencyThreshold)
    {
      HopFaultyExactly(net, ttl, latencyThreshold);
    }
  }

  // What Trace returns when it is not cancelled.
  ghost predicate IsRoute(net: Network, maxHops: int, route: MTRResult) {
    && route.hops == Hops(net, maxHops)
    && (route.reachedTarget <==> exists ttl :: 1 <= ttl <= maxHops && AnsweredByTarget(net, ttl))
  }

  // Tracing and diagnosis composed: no hop is blamed exactly when every hop of the
  // path answered in time, and otherwise the blamed hop is the first that did not.
  lemma BlamedHopExact(e: Engine, net: Network, maxHops: int, route: MTRResult, lossRatio: real, rtt: int, r: Report)
    requires maxHops > 0 && (lossRatio >= e.lossThreshold || rtt >= e.latencyThreshold)
    requires IsRoute(net, maxHops, route) && Explains(e, lossRatio, rtt, Some(route), r)
    ensures var n := |Hops(net, maxHops)|;
            var L := e.latencyThreshold;
            && 0 <= r.faultyHop <= n
            && (r.faultyHop == 0 <==> forall ttl :: 1 <= ttl <= n ==> IsPrompt(net, ttl, L))
            && (r.faultyHop > 0 ==>
                  && !IsPrompt(net, r.faultyHop, L) && (forall ttl :: 1 <= ttl < r.faultyHop ==> IsPrompt(net, ttl, L))
                  && TellsOf(net, r.faultyHop, HopAt(net, r.faultyHop))
                  && r.faultyHopIP == HopAt(net, r.faultyHop).ip && r.diagnosis == Blame(r.faultyHop))
            && (r.faultyHop == 0 ==> r.diagnosis == if route.reachedTarget then TransitLoss else TargetUnreachable)
  {
    hide IsPrompt, TellsOf, HopAt, Reaches, AnsweredByTarget;
    TraceShape(net, maxHops);
    HopsArePath(net, maxHops);
    TraceFaults(net, maxHops, e.latencyThreshold);
    var hs, L := Hops(net, maxHops), e.latencyThreshold;
    if NoneFaulty(hs, L) {
      forall ttl | 1 <= ttl <= |hs|
        ensures IsPrompt(net, ttl, L)
      {
        assert !IsFaulty(hs[ttl - 1], L);
      }
    } else {
      var k: nat :| IsFirstFaulty(hs, L, k) && r.faultyHop == hs[k].hop && r.faultyHopIP == hs[k].ip
        && r.diagnosis == if r.faultyHop == 0 && !route.reachedTarget then TargetUnreachable else Blame(r.faultyHop);
      assert hs[k] == hs[(k + 1) - 1] && r.faultyHop == k + 1;
      forall ttl | 1 <= ttl <= k
        ensures IsPrompt(net, ttl, L)
      {
        assert !IsFaulty(hs[ttl - 1], L);
      }
    }
  }

  // In terms of the network alone, the diagnosis is: local network exactly for a
  // blamed TTL of 1, ISP for 2 and 3; target unreachable exactly when all maxHops
  // hops answered in time and none was the target; transit otherwise.
  lemma DiagnosisExact(e: Engine, net: Network, maxHops: int, route: MTRResult, lossRatio: real, rtt: int, r: Report)
    requires maxHops > 0 && (lossRatio >= e.lossThreshold || rtt >= e.latencyThreshold)
    requires IsRoute(net, maxHops, route) && Explains(e, lossRatio, rtt, Some(route), r)
    ensures r.diagnosis == LocalNetwork <==> r.faultyHop == 1
    ensures r.diagnosis == ISPGateway <==> 2 <= r.faultyHop <= 3
    ensures r.diagnosis == TargetUnreachable <==>
              forall ttl :: 1 <= ttl <= maxHops ==>
                IsPrompt(net, ttl, e.latencyThreshold) && !AnsweredByTarget(net, ttl)
    ensures r.diagnosis == TransitLoss <==> r.faultyHop > 3 || (r.faultyHop == 0 && route.reachedTarget)
  {
    hide IsPrompt, TellsOf, HopAt, Reaches, AnsweredByTarget;
    HopsArePath(net, maxHops);
    BlamedHopExact(e, net, maxHops, route, lossRatio, rtt, r);
  }
}
