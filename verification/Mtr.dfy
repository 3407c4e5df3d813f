// The traceroute: the receive loop of one hop, the TTL loop, the probe that keeps
// the last result.
module Mtr {
  import opened Wrappers
  import opened QuotedHeader

  datatype Hop = Hop(hop: int, ip: string, rtt: int, success: bool)

  // ---- One hop -----------------------------------------------------------------

  // What icmp.ParseMessage makes of a received packet.
  datatype Message =
    | Unparsable
    | Exceeded(body: Body)
    | EchoReply(id: Word, num: Word)
    | Other

  // A received packet: its sender without the port, and the time since the send.
  datatype Arrival = Arrival(msg: Message, peer: string, rtt: int)

  // How the wait ends when nothing matches: the read deadline, or the context.
  datatype Ending = Deadline | Cancelled

  // The echo request sent for one hop. `udp` says that the socket is unprivileged.
  datatype Request = Request(ttl: int, id: Word, num: Word, isIPv6: bool, udp: bool, target: string)

  datatype Reply = Answered(hop: Hop, reachedTarget: bool) | Silent(why: Ending)

  predicate IsExceeded(q: Request, a: Arrival) {
    a.msg.Exceeded? && Match(a.msg.body, q.id, q.num, q.isIPv6)
  }

  predicate IsEchoReply(q: Request, a: Arrival) {
    && a.msg.EchoReply?
    && ((a.msg.id == q.id && a.msg.num == q.num) || (q.udp && a.msg.num == q.num))
    && a.peer == q.target
  }

  predicate Matches(q: Request, a: Arrival) {
    IsExceeded(q, a) || IsEchoReply(q, a)
  }

  function HopOf(q: Request, a: Arrival): Hop {
    Hop(q.ttl, a.peer, a.rtt, true)
  }

  // The specification: the first matching packet decides.
  function FirstReply(q: Request, stream: seq<Arrival>, end: Ending): Reply {
    if stream == [] then Silent(end)
    else if Matches(q, stream[0]) then Answered(HopOf(q, stream[0]), IsEchoReply(q, stream[0]))
    else FirstReply(q, stream[1..], end)
  }

  method PingHop(q: Request, stream: seq<Arrival>, end: Ending) returns (r: Reply)
    ensures r == FirstReply(q, stream, end)
  {
    var i := 0;
    while true
      invariant i <= |stream| && FirstReply(q, stream, end) == FirstReply(q, stream[i..], end)
      decreases |stream| - i
    {
      if i == |stream| {
        return Silent(end);
      }
      var a := stream[i];
      match a.msg {
        case Exceeded(body) =>
          if Match(body, q.id, q.num, q.isIPv6) {
            return Answered(Hop(q.ttl, a.peer, a.rtt, true), false);
          }
        case EchoReply(id, num) =>
          if ((id == q.id && num == q.num) || (q.udp && num == q.num)) && a.peer == q.target {
            return Answered(Hop(q.ttl, a.peer, a.rtt, true), true);
          }
        case _ =>
      }
      i := i + 1;
    }
  }

  // The answer is that of the least matching position, and there is none exactly
  // when nothing matches.
  lemma {:induction false} FirstReplyExact(q: Request, stream: seq<Arrival>, end: Ending) returns (k: nat)
    ensures k <= |stream| && forall i :: 0 <= i < k ==> !Matches(q, stream[i])
    ensures FirstReply(q, stream, end) ==
              if k == |stream| then Silent(end) else Answered(HopOf(q, stream[k]), IsEchoReply(q, stream[k]))
    ensures k < |stream| ==> Matches(q, stream[k])
  {
    if stream == [] || Matches(q, stream[0]) {
      k := 0;
    } else {
      k := FirstReplyExact(q, stream[1..], end);
      k := k + 1;
    }
  }

  // Packets that do not match, wherever they are inserted or deleted, change nothing.
  lemma {:induction false} NoiseIrrelevant(
      q: Request, before: seq<Arrival>, noise: seq<Arrival>, after: seq<Arrival>, end: Ending)
    requires forall i :: 0 <= i < |noise| ==> !Matches(q, noise[i])
    ensures FirstReply(q, before + noise + after, end) == FirstReply(q, before + after, end)
    decreases |before| + |noise|
  {
    if before != [] {
      assert (before + noise + after)[1..] == before[1..] + noise + after;
      assert (before + after)[1..] == before[1..] + after;
      NoiseIrrelevant(q, before[1..], noise, after, end);
    } else if noise != [] {
      assert (before + noise + after)[1..] == before + noise[1..] + after;
      NoiseIrrelevant(q, before, noise[1..], after, end);
    } else {
      assert before + noise + after == before + after;
    }
  }

  // ---- The TTL loop ----------------------------------------------------------------

  // Everything a trace meets: the requests it draws, what comes back for each TTL,
  // and whether the context is found cancelled before a TTL is tried.
  datatype Network = Network(
    id: int -> Word,
    num: int -> Word,
    stream: int -> seq<Arrival>,
    end: int -> Ending,
    cancelled: int -> bool,
    isIPv6: bool,
    udp: bool,
    target: string)

  function RequestAt(net: Network, ttl: int): Request {
    Request(ttl, net.id(ttl), net.num(ttl), net.isIPv6, net.udp, net.target)
  }

  function ReplyAt(net: Network, ttl: int): Reply {
    FirstReply(RequestAt(net, ttl), net.stream(ttl), net.end(ttl))
  }

  predicate Reaches(net: Network, ttl: int) {
    ReplyAt(net, ttl).Answered? && ReplyAt(net, ttl).reachedTarget
  }

  function HopAt(net: Network, ttl: int): Hop {
    match ReplyAt(net, ttl)
    case Answered(h, _) => h
    case Silent(_) => Hop(ttl, "*", 0, false)
  }

  // The hops of an uncancelled trace from `ttl` on.
  function HopsFrom(net: Network, ttl: int, maxHops: int): seq<Hop>
    decreases maxHops - ttl
  {
    if ttl > maxHops then []
    else [HopAt(net, ttl)] + if Reaches(net, ttl) then [] else HopsFrom(net, ttl + 1, maxHops)
  }

  function Hops(net: Network, maxHops: int): seq<Hop> {
    HopsFrom(net, 1, maxHops)
  }

  // ---- What a trace means, packet by packet ------------------------------------------

  // An echo reply of the target to the request with this TTL. Unprivileged sockets
  // have their identifier replaced, so there the sequence number is enough.
  predicate FromTarget(net: Network, ttl: int, a: Arrival) {
    && a.msg.EchoReply? && a.peer == net.target
    && a.msg.num == net.num(ttl) && (net.udp || a.msg.id == net.id(ttl))
  }

  // A router on the way reports that the request's time was exceeded.
  predicate FromRouter(net: Network, ttl: int, a: Arrival) {
    a.msg.Exceeded? && Match(a.msg.body, net.id(ttl), net.num(ttl), net.isIPv6)
  }

  // Packet k is the first that counts among those received for this TTL.
  predicate FirstCounts(net: Network, ttl: int, k: nat) {
    && k < |net.stream(ttl)|
    && (FromTarget(net, ttl, net.stream(ttl)[k]) || FromRouter(net, ttl, net.stream(ttl)[k]))
    && forall i :: 0 <= i < k ==>
         !FromTarget(net, ttl, net.stream(ttl)[i]) && !FromRouter(net, ttl, net.stream(ttl)[i])
  }

  predicate AnsweredByTarget(net: Network, ttl: int) {
    exists k :: 0 <= k < |net.stream(ttl)| && FirstCounts(net, ttl, k) && FromTarget(net, ttl, net.stream(ttl)[k])
  }

  // The hop reports the sender and the round-trip time of that packet, or "*".
  predicate TellsOf(net: Network, ttl: int, hop: Hop) {
    && hop.hop == ttl
    && if hop.success then
         exists k :: 0 <= k < |net.stream(ttl)| && FirstCounts(net, ttl, k)
           && hop.ip == net.stream(ttl)[k].peer && hop.rtt == net.stream(ttl)[k].rtt
       else
         && (forall k :: 0 <= k < |net.stream(ttl)| ==> !FirstCounts(net, ttl, k))
         && hop.ip == "*" && hop.rtt == 0
  }

  // The hops of a trace that is not cancelled: hop i tells of TTL i + 1, and the trace
  // ends with the first hop the target has answered, or after maxHops.
  predicate IsPath(net: Network, maxHops: int, hops: seq<Hop>) {
    && |hops| <= (if maxHops < 0 then 0 else maxHops)
    && (forall i :: 0 <= i < |hops| ==> TellsOf(net, i + 1, hops[i]))
    && (forall ttl :: 1 <= ttl < |hops| ==> !AnsweredByTarget(net, ttl))
    && (|hops| < maxHops ==> |hops| > 0 && AnsweredByTarget(net, |hops|))
  }

  lemma CountsExactly(net: Network, ttl: int, a: Arrival)
    ensures FromTarget(net, ttl, a) <==> IsEchoReply(RequestAt(net, ttl), a)
    ensures FromRouter(net, ttl, a) <==> IsExceeded(RequestAt(net, ttl), a)
  {
  }

  lemma FirstCountsUnique(net: Network, ttl: int, k: nat, l: nat)
    requires FirstCounts(net, ttl, k) && FirstCounts(net, ttl, l)
    ensures k == l
  {
  }

  // The receive loop and the recording of its answer, packet by packet.
  lemma HopTellsOf(net: Network, ttl: int)
    ensures TellsOf(net, ttl, HopAt(net, ttl)) && (Reaches(net, ttl) <==> AnsweredByTarget(net, ttl))
  {
    var q, stream := RequestAt(net, ttl), net.stream(ttl);
    var k := FirstReplyExact(q, stream, net.end(ttl));
    forall i | 0 <= i < |stream|
      ensures FromTarget(net, ttl, stream[i]) <==> IsEchoReply(q, stream[i])
      ensures FromRouter(net, ttl, stream[i]) <==> IsExceeded(q, stream[i])
    {
      CountsExactly(net, ttl, stream[i]);
    }
    if k < |stream| {
      assert FirstCounts(net, ttl, k);
      forall l | 0 <= l < |stream| && FirstCounts(net, ttl, l)
        ensures l == k
      {
        FirstCountsUnique(net, ttl, k, l);
      }
    }
  }

  // What Trace computes is such a path.
  lemma HopsArePath(net: Network, maxHops: int)
    ensures IsPath(net, maxHops, Hops(net, maxHops))
    ensures (exists ttl :: 1 <= ttl <= maxHops && Reaches(net, ttl))
       <==> (exists ttl :: 1 <= ttl <= maxHops && AnsweredByTarget(net, ttl))
  {
    hide HopAt, Reaches, TellsOf, AnsweredByTarget;
    TraceShape(net, maxHops);
    forall ttl: int
      ensures TellsOf(net, ttl, HopAt(net, ttl)) && (Reaches(net, ttl) <==> AnsweredByTarget(net, ttl))
    {
      HopTellsOf(net, ttl);
    }
  }

  // The hops found, whether the target is among them, and whether the context was
  // found cancelled.
  datatype MTRResult = MTRResult(target: string, hops: seq<Hop>, reachedTarget: bool)

  // A trace is cut short exactly when the context is found cancelled at a TTL it
  // gets to; it then returns a prefix of the hops it would have found.
  method Trace(net: Network, maxHops: int) returns (r: MTRResult, err: bool)
    ensures r.target == net.target
    ensures !err ==> r.hops == Hops(net, maxHops) && IsPath(net, maxHops, r.hops)
    ensures !err ==> (r.reachedTarget <==> exists ttl :: 1 <= ttl <= maxHops && Reaches(net, ttl))
    ensures !err ==> (r.reachedTarget <==> exists ttl :: 1 <= ttl <= maxHops && AnsweredByTarget(net, ttl))
    ensures err ==> r.hops <= Hops(net, maxHops) && !r.reachedTarget && net.cancelled(|r.hops| + 1)
    ensures err <==> exists ttl :: 1 <= ttl <= |Hops(net, maxHops)| && net.cancelled(ttl)
  {
    var hops, reached;
    hide Reaches, AnsweredByTarget, TellsOf;
    hops, reached, err := TraceLoop(net, maxHops);
    HopsArePath(net, maxHops);
    r := MTRResult(net.target, hops, reached);
    if err {
      assert HopsFrom(net, |hops| + 1, maxHops) != [];
      assert 1 <= |hops| + 1 <= |Hops(net, maxHops)|;
    }
  }

  // One round of the loop: a hop that fails is recorded as "*".
  method TryHop(net: Network, ttl: int) returns (hop: Hop, reached: bool)
    ensures hop == HopAt(net, ttl) && reached == Reaches(net, ttl)
  {
    var reply := PingHop(RequestAt(net, ttl), net.stream(ttl), net.end(ttl));
    match reply {
      case Silent(_) =>
        return Hop(ttl, "*", 0, false), false;
      case Answered(h, reachedTarget) =>
        return h, reachedTarget;
    }
  }

  // One hop more: the last one if it reaches the target.
  lemma HopsFromStep(net: Network, found: seq<Hop>, ttl: int, maxHops: int)
    requires ttl <= maxHops
    ensures found + HopsFrom(net, ttl, maxHops) ==
              (found + [HopAt(net, ttl)]) + if Reaches(net, ttl) then [] else HopsFrom(net, ttl + 1, maxHops)
  {
    hide HopAt, Reaches;
  }

  lemma NoHopsBeyond(net: Network, ttl: int, maxHops: int)
    requires ttl > maxHops
    ensures HopsFrom(net, ttl, maxHops) == []
  {
  }

  method TraceLoop(net: Network, maxHops: int) returns (hops: seq<Hop>, reached: bool, err: bool)
    ensures forall t :: 1 <= t <= |hops| ==> !net.cancelled(t)
    ensures if err then
              && |hops| < maxHops && net.cancelled(|hops| + 1) && !reached
              && Hops(net, maxHops) == hops + HopsFrom(net, |hops| + 1, maxHops)
            else
              Hops(net, maxHops) == hops
    ensures reached ==> 1 <= |hops| <= maxHops && Reaches(net, |hops|)
    ensures !err && !reached ==> forall t :: 1 <= t <= maxHops ==> !Reaches(net, t)
  {
    hide HopAt, Reaches, HopsFrom;
    hops, reached, err := [], false, false;
    var ttl := 1;
    while ttl <= maxHops
      invariant 1 <= ttl && (ttl <= maxHops + 1 || ttl == 1) && |hops| == ttl - 1
      invariant Hops(net, maxHops) == hops + HopsFrom(net, ttl, maxHops)
      invariant forall t :: 1 <= t < ttl ==> !Reaches(net, t) && !net.cancelled(t)
    {
      if net.cancelled(ttl) {
        return hops, false, true;
      }
      ghost var found := hops;
      var hop;
      hop, reached := TryHop(net, ttl);
      hops := hops + [hop];
      HopsFromStep(net, found, ttl, maxHops);
      if reached {
        return;
      }
      ttl := ttl + 1;
    }
    NoHopsBeyond(net, ttl, maxHops);
  }

  lemma FirstReplyHop(q: Request, stream: seq<Arrival>, end: Ending)
    ensures var r := FirstReply(q, stream, end);
            r.Answered? ==> r.hop.hop == q.ttl && r.hop.success
  {
    var k := FirstReplyExact(q, stream, end);
  }

  lemma {:induction false} HopsFromShape(net: Network, ttl: int, maxHops: int)
    ensures var hs := HopsFrom(net, ttl, maxHops);
            && (forall i :: 0 <= i < |hs| ==> hs[i] == HopAt(net, ttl + i) && hs[i].hop == ttl + i)
            && (forall t :: ttl <= t < ttl + |hs| - 1 ==> !Reaches(net, t))
            && |hs| <= (if ttl <= maxHops then maxHops - ttl + 1 else 0)
            && (ttl + |hs| <= maxHops ==> |hs| > 0 && Reaches(net, ttl + |hs| - 1))
    decreases maxHops - ttl
  {
    if ttl <= maxHops {
      FirstReplyHop(RequestAt(net, ttl), net.stream(ttl), net.end(ttl));
      if !Reaches(net, ttl) {
        HopsFromShape(net, ttl + 1, maxHops);
      }
    }
  }

  // The shape of an error-free trace: hops are numbered from 1 without gaps; their
  // number is the least TTL within maxHops that reaches the target, or maxHops if
  // none does; only the last hop can be the target.
  lemma TraceShape(net: Network, maxHops: int)
    ensures var hs := Hops(net, maxHops);
            && (forall i :: 0 <= i < |hs| ==> hs[i] == HopAt(net, i + 1) && hs[i].hop == i + 1)
            && (forall ttl :: 1 <= ttl < |hs| ==> !Reaches(net, ttl))
            && (if exists ttl :: 1 <= ttl <= maxHops && Reaches(net, ttl)
                then 1 <= |hs| <= maxHops && Reaches(net, |hs|)
                else |hs| == if maxHops < 0 then 0 else maxHops)
  {
    HopsFromShape(net, 1, maxHops);
  }

  // ---- The probe -----------------------------------------------------------------

  // One sample handed to the metrics instruments.
  datatype Sample = RTT(hop: int, ip: string, value: int) | Loss(hop: int, ip: string, value: int)

  // The samples of a list of hops: a loss for each, and an RTT for the answered ones.
  function Samples(hops: seq<Hop>): seq<Sample> {
    if hops == [] then []
    else
      var h := hops[|hops| - 1];
      Samples(hops[..|hops| - 1]) +
        if h.success then [RTT(h.hop, h.ip, h.rtt), Loss(h.hop, h.ip, 0)] else [Loss(h.hop, h.ip, 1)]
  }

  function CountAnswered(hops: seq<Hop>): nat {
    if hops == [] then 0 else CountAnswered(hops[..|hops| - 1]) + if hops[|hops| - 1].success then 1 else 0
  }

  // What is recorded for one hop: its round-trip time and no loss if it answered,
  // otherwise a loss.
  predicate IsRecord(x: Sample, h: Hop) {
    if h.success then x == RTT(h.hop, h.ip, h.rtt) || x == Loss(h.hop, h.ip, 0) else x == Loss(h.hop, h.ip, 1)
  }

  // One sample for each silent hop, two for each that answered, and no others.
  lemma {:induction false} SamplesExact(hops: seq<Hop>)
    ensures |Samples(hops)| == |hops| + CountAnswered(hops)
    ensures forall x :: x in Samples(hops) ==> exists h :: h in hops && IsRecord(x, h)
    ensures forall h :: h in hops && h.success ==>
              RTT(h.hop, h.ip, h.rtt) in Samples(hops) && Loss(h.hop, h.ip, 0) in Samples(hops)
    ensures forall h :: h in hops && !h.success ==> Loss(h.hop, h.ip, 1) in Samples(hops)
  {
    if hops != [] {
      var n := |hops| - 1;
      SamplesExact(hops[..n]);
      assert hops == hops[..n] + [hops[n]];
      forall x | x in Samples(hops)
        ensures exists h :: h in hops && IsRecord(x, h)
      {
        if x in Samples(hops[..n]) {
          var h :| h in hops[..n] && IsRecord(x, h);
          assert h in hops;
        } else {
          assert hops[n] in hops && IsRecord(x, hops[n]);
        }
      }
    }
  }

  class MTRProbe {
    const targetName: string
    const maxHops: int
    var lastResult: Option<MTRResult>
    var samples: seq<Sample>

    constructor (targetName: string, maxHops: int)
      ensures this.targetName == targetName && this.maxHops == maxHops && lastResult == None && samples == []
    {
      this.targetName, this.maxHops, lastResult, samples := targetName, maxHops, None, [];
    }

    // executeTrace with metrics: a trace cut short by cancellation leaves the last
    // result as it was; `reported` is what is passed on to the diagnosis.
    method ExecuteTrace(net: Network) returns (reported: Option<MTRResult>)
      modifies this
      ensures reported.None? <==> exists ttl :: 1 <= ttl <= |Hops(net, maxHops)| && net.cancelled(ttl)
      ensures reported.None? ==> lastResult == old(lastResult) && samples == old(samples)
      ensures reported.Some? ==>
                && lastResult == reported && reported.value.target == targetName
                && reported.value.hops == Hops(net, maxHops)
                && IsPath(net, maxHops, reported.value.hops)
                && (reported.value.reachedTarget <==> exists ttl :: 1 <= ttl <= maxHops && AnsweredByTarget(net, ttl))
                && samples == old(samples) + Samples(Hops(net, maxHops))
    {
      hide Reaches, Hops, IsPath, AnsweredByTarget;
      var r, err := Trace(net, maxHops);
      if err {
        return None;
      }
      r := r.(target := targetName);
      lastResult := Some(r);
      ghost var before := samples;
      for i := 0 to |r.hops|
        invariant samples == before + Samples(r.hops[..i])
        invariant lastResult == Some(r)
      {
        var hop := r.hops[i];
        assert r.hops[..i + 1][..i] == r.hops[..i];
        if hop.success {
          samples := samples + [RTT(hop.hop, hop.ip, hop.rtt), Loss(hop.hop, hop.ip, 0)];
        } else {
          samples := samples + [Loss(hop.hop, hop.ip, 1)];
        }
      }
      assert r.hops[..|r.hops|] == r.hops;
      reported := Some(r);
    }
  }
}
