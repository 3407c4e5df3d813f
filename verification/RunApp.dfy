// The registration loop of RunApp: which probes a configuration leads to.
module RunApp {
  import opened Wrappers
  import opened Session
  import Safety
  import opened Registration
  import opened SchedulerObject
  import Mtr
  import Diagnostic

  datatype Kind = ICMP | DNS | HTTP | TCP | MTR | Speedtest

  // A configured target: its label and the probe sections that are present.
  datatype Target = Target(name: string, sections: set<Kind>)

  type Section = (string, Kind)

  function KindName(k: Kind): string {
    match k
    case ICMP => "icmp"
    case DNS => "dns"
    case HTTP => "http"
    case TCP => "tcp"
    case MTR => "mtr"
    case Speedtest => "speedtest"
  }

  // The order in which RunApp looks at the sections of a target.
  const KINDS := [ICMP, DNS, HTTP, TCP, MTR, Speedtest]

  function ProbeOf(target: string, k: Kind): Probe {
    Probe(target + "/" + KindName(k), k == Speedtest)
  }

  lemma KindNamesSlashFree(k: Kind)
    ensures '/' !in KindName(k)
  {
  }

  // The label ends at the last slash of the name.
  lemma LastSlash(a: string, k: Kind)
    ensures var x := ProbeOf(a, k).name;
            |a| < |x| && x[|a|] == '/' && forall i :: |a| < i < |x| ==> x[i] != '/'
  {
    var x := ProbeOf(a, k).name;
    KindNamesSlashFree(k);
    assert forall i :: |a| < i < |x| ==> x[i] == KindName(k)[i - |a| - 1];
  }

  // Probe names tell targets and probe types apart, slashes in labels or not.
  lemma ProbeNamesInjective(a: string, k: Kind, b: string, l: Kind)
    requires ProbeOf(a, k).name == ProbeOf(b, l).name
    ensures a == b && k == l
  {
    var x, y := ProbeOf(a, k).name, ProbeOf(b, l).name;
    LastSlash(a, k);
    LastSlash(b, l);
    assert |a| == |b|;
    assert a == x[..|a|] && b == y[..|b|];
    assert KindName(k) == x[|a| + 1..] && KindName(l) == y[|b| + 1..];
  }

  // The (target, type) pairs of a configuration, in the order RunApp meets them.
  function SectionsOf(t: Target, k: nat): (ps: seq<Section>)
    requires k <= |KINDS|
  {
    if k == 0 then []
    else SectionsOf(t, k - 1) + if KINDS[k - 1] in t.sections then [(t.name, KINDS[k - 1])] else []
  }

  function Configured(ts: seq<Target>): seq<Section> {
    if ts == [] then [] else Configured(ts[..|ts| - 1]) + SectionsOf(ts[|ts| - 1], |KINDS|)
  }

  // Each element at the place of its first occurrence.
  function FirstOccurrences(q: seq<Section>): seq<Section> {
    if q == [] then []
    else
      var r := FirstOccurrences(q[..|q| - 1]);
      if q[|q| - 1] in q[..|q| - 1] then r else r + [q[|q| - 1]]
  }

  function IndexOf(q: seq<Section>, x: Section): (i: nat)
    requires x in q
    ensures i < |q| && q[i] == x && x !in q[..i]
  {
    if q[0] == x then 0 else 1 + IndexOf(q[1..], x)
  }

  lemma {:induction false} IndexOfPrefix(q: seq<Section>, n: nat, x: Section)
    requires n <= |q| && x in q[..n]
    ensures x in q && IndexOf(q, x) == IndexOf(q[..n], x)
  {
    if q[0] != x {
      assert q[..n][1..] == q[1..][..n - 1];
      IndexOfPrefix(q[1..], n - 1, x);
    }
  }

  // x occurs in q, and y does so for the first time only later.
  predicate Precedes(q: seq<Section>, x: Section, y: Section) {
    x in q && y in q && IndexOf(q, x) < IndexOf(q, y)
  }

  predicate InOrder(q: seq<Section>, r: seq<Section>) {
    forall i, j :: 0 <= i < j < |r| ==> Precedes(q, r[i], r[j])
  }

  // The dedup has the same elements, each once, ordered by first occurrence.
  lemma {:induction false} FirstOccurrencesExact(q: seq<Section>)
    ensures forall x :: x in FirstOccurrences(q) <==> x in q
    ensures InOrder(q, FirstOccurrences(q))
  {
    if q != [] {
      var n := |q| - 1;
      var p := q[..n];
      var r, s := FirstOccurrences(q), FirstOccurrences(p);
      FirstOccurrencesExact(p);
      assert q == p + [q[n]];
      forall i, j | 0 <= i < j < |r|
        ensures Precedes(q, r[i], r[j])
      {
        assert r[i] == s[i] && s[i] in s;
        IndexOfPrefix(q, n, r[i]);
        if j < |s| {
          assert r[j] == s[j] && s[j] in s;
          IndexOfPrefix(q, n, r[j]);
          assert Precedes(p, s[i], s[j]);
        } else {
          assert r[j] == q[n] && r[j] !in p;
          forall k | 0 <= k < n
            ensures q[k] != q[n]
          {
            assert p[k] == q[k] && p[k] in p;
          }
        }
      }
    }
  }

  // What has been registered after the pairs q.
  predicate Registered(ps: seq<Probe>, q: seq<Section>) {
    var r := FirstOccurrences(q);
    |ps| == |r| && forall i :: 0 <= i < |r| ==> ps[i] == ProbeOf(r[i].0, r[i].1)
  }

  // Registering one more pair is rejected exactly when it has occurred before.
  lemma RegisterPair(ps: seq<Probe>, q: seq<Section>, target: string, k: Kind)
    requires Registered(ps, q)
    ensures (target, k) in q <==> ProbeOf(target, k).name in Names(ps)
    ensures Registered(if (target, k) in q then ps else ps + [ProbeOf(target, k)], q + [(target, k)])
  {
    FirstOccurrencesExact(q);
    var r := FirstOccurrences(q);
    if (target, k) in q {
      var i :| 0 <= i < |r| && r[i] == (target, k);
      assert Names(ps)[i] == ProbeOf(target, k).name;
    } else if ProbeOf(target, k).name in Names(ps) {
      var i :| 0 <= i < |ps| && Names(ps)[i] == ProbeOf(target, k).name;
      ProbeNamesInjective(target, k, r[i].0, r[i].1);
      assert false;
    }
    assert (q + [(target, k)])[..|q|] == q;
  }

  // ---- What a configuration asks for, spelled out --------------------------------

  // The sections of a target in the order of the program, with the probe each asks for.
  predicate Asks(t: Target, k: nat, p: Probe) {
    match k
    case 0 => ICMP in t.sections && p == Probe(t.name + "/icmp", false)
    case 1 => DNS in t.sections && p == Probe(t.name + "/dns", false)
    case 2 => HTTP in t.sections && p == Probe(t.name + "/http", false)
    case 3 => TCP in t.sections && p == Probe(t.name + "/tcp", false)
    case 4 => MTR in t.sections && p == Probe(t.name + "/mtr", false)
    case 5 => Speedtest in t.sections && p == Probe(t.name + "/speedtest", true)
    case _ => false
  }

  // Every probe the target asks for is there; the Speedtest is exclusive, nothing else is.
  predicate IsServed(t: Target, ps: seq<Probe>) {
    && (ICMP in t.sections ==> Probe(t.name + "/icmp", false) in ps)
    && (DNS in t.sections ==> Probe(t.name + "/dns", false) in ps)
    && (HTTP in t.sections ==> Probe(t.name + "/http", false) in ps)
    && (TCP in t.sections ==> Probe(t.name + "/tcp", false) in ps)
    && (MTR in t.sections ==> Probe(t.name + "/mtr", false) in ps)
    && (Speedtest in t.sections ==> Probe(t.name + "/speedtest", true) in ps)
  }

  datatype Place = Place(target: nat, section: nat)

  predicate Before(a: Place, b: Place) {
    a.target < b.target || (a.target == b.target && a.section < b.section)
  }

  // Every probe is one that is asked for, and they stand in the order of the
  // configuration: `at` tells by which section of which target each was asked for.
  predicate IsPlaced(ts: seq<Target>, ps: seq<Probe>, at: seq<Place>) {
    && |at| == |ps|
    && (forall j :: 0 <= j < |at| ==> at[j].target < |ts| && Asks(ts[at[j].target], at[j].section, ps[j]))
    && (forall i, j :: 0 <= i < j < |at| ==> Before(at[i], at[j]))
  }

  // All places come before target i, section k.
  predicate EndsBefore(at: seq<Place>, i: nat, k: nat) {
    forall j :: 0 <= j < |at| ==> Before(at[j], Place(i, k))
  }

  // The code's own tables say the same.
  lemma TablesAgree(t: Target, k: nat)
    requires k < |KINDS|
    ensures KINDS[k] in t.sections <==> Asks(t, k, ProbeOf(t.name, KINDS[k]))
    ensures forall p :: Asks(t, k, p) ==> p == ProbeOf(t.name, KINDS[k])
  {
  }

  lemma ServedBySections(t: Target, ps: seq<Probe>)
    requires forall k: nat, p :: Asks(t, k, p) ==> p in ps
    ensures IsServed(t, ps)
  {
    var name := t.name;
    assert ICMP in t.sections ==> Asks(t, 0, Probe(name + "/icmp", false));
    assert DNS in t.sections ==> Asks(t, 1, Probe(name + "/dns", false));
    assert HTTP in t.sections ==> Asks(t, 2, Probe(name + "/http", false));
    assert TCP in t.sections ==> Asks(t, 3, Probe(name + "/tcp", false));
    assert MTR in t.sections ==> Asks(t, 4, Probe(name + "/mtr", false));
    assert Speedtest in t.sections ==> Asks(t, 5, Probe(name + "/speedtest", true));
  }

  // ---- The loops -----------------------------------------------------------------

  // The sections of one target. A rejected probe is logged and skipped.
  method RegisterTarget(s: Scheduler, ts: seq<Target>, i: nat, ghost before: seq<Place>) returns (ghost at: seq<Place>)
    requires i < |ts| && IsPlaced(ts, s.probes, before) && EndsBefore(before, i, 0)
    requires s.Valid() && !s.running && Registered(s.probes, Configured(ts[..i]))
    modifies s
    ensures s.Valid() && !s.running && old(s.probes) <= s.probes
    ensures Registered(s.probes, Configured(ts[..i + 1]))
    ensures IsServed(ts[i], s.probes) && IsPlaced(ts, s.probes, at) && EndsBefore(at, i + 1, 0)
  {
    hide Safety.Base, ChannelsOk, Asks, IsPlaced, EndsBefore, Registered, IsServed;
    at := before;
    ghost var q := Configured(ts[..i]);
    assert q + SectionsOf(ts[i], 0) == q;
    for k := 0 to |KINDS|
      invariant s.Valid() && !s.running && old(s.probes) <= s.probes
      invariant Registered(s.probes, q + SectionsOf(ts[i], k))
      invariant IsPlaced(ts, s.probes, at) && EndsBefore(at, i, k)
      invariant forall l: nat, p :: l < k && Asks(ts[i], l, p) ==> p in s.probes
    {
      at := RegisterSection(s, ts, i, k, q + SectionsOf(ts[i], k), at);
      assert q + SectionsOf(ts[i], k + 1) ==
        (q + SectionsOf(ts[i], k)) + if KINDS[k] in ts[i].sections then [(ts[i].name, KINDS[k])] else [];
    }
    SixSections(ts[i]);
    ServedBySections(ts[i], s.probes);
    NextTarget(at, i);
    assert ts[..i + 1][..i] == ts[..i];
  }

  lemma SixSections(t: Target)
    ensures forall k: nat, p :: Asks(t, k, p) ==> k < |KINDS|
  {
  }

  lemma NextTarget(at: seq<Place>, i: nat)
    requires EndsBefore(at, i, |KINDS|)
    ensures EndsBefore(at, i + 1, 0)
  {
  }

  method RegisterSection(s: Scheduler, ts: seq<Target>, i: nat, k: nat, ghost q: seq<Section>, ghost before: seq<Place>)
    returns (ghost at: seq<Place>)
    requires i < |ts| && k < |KINDS| && IsPlaced(ts, s.probes, before) && EndsBefore(before, i, k)
    requires s.Valid() && !s.running && Registered(s.probes, q)
    modifies s
    ensures s.Valid() && !s.running && old(s.probes) <= s.probes
    ensures Registered(s.probes, q + if KINDS[k] in ts[i].sections then [(ts[i].name, KINDS[k])] else [])
    ensures IsPlaced(ts, s.probes, at) && EndsBefore(at, i, k + 1)
    ensures forall p :: Asks(ts[i], k, p) ==> p in s.probes
  {
    hide Safety.Base, ChannelsOk, Asks, IsPlaced, EndsBefore, Registered;
    var t := ts[i];
    TablesAgree(t, k);
    at := before;
    if KINDS[k] in t.sections {
      RegisterPair(s.probes, q, t.name, KINDS[k]);
      AlreadyThere(s.probes, q, t.name, KINDS[k]);
      PlaceOneMore(ts, s.probes, before, i, k, ProbeOf(t.name, KINDS[k]));
      var r := s.RegisterWorker(Some(ProbeOf(t.name, KINDS[k])));
      at := if r.Ok? then before + [Place(i, k)] else before;
    } else {
      assert q + [] == q;
    }
    SectionDone(before, i, k);
  }

  // A pair that has occurred before is registered, with the kind it names.
  lemma AlreadyThere(ps: seq<Probe>, q: seq<Section>, target: string, k: Kind)
    requires Registered(ps, q)
    ensures (target, k) in q ==> ProbeOf(target, k) in ps
  {
    FirstOccurrencesExact(q);
    var r := FirstOccurrences(q);
    if (target, k) in q {
      var i :| 0 <= i < |r| && r[i] == (target, k);
      assert ps[i] == ProbeOf(target, k);
    }
  }

  lemma PlaceOneMore(ts: seq<Target>, ps: seq<Probe>, at: seq<Place>, i: nat, k: nat, p: Probe)
    requires i < |ts| && IsPlaced(ts, ps, at) && EndsBefore(at, i, k) && Asks(ts[i], k, p)
    ensures IsPlaced(ts, ps + [p], at + [Place(i, k)]) && EndsBefore(at + [Place(i, k)], i, k + 1)
  {
  }

  lemma SectionDone(at: seq<Place>, i: nat, k: nat)
    requires EndsBefore(at, i, k)
    ensures EndsBefore(at, i, k + 1)
  {
  }

  // The loop of RunApp over the configured targets. What ends up registered is what
  // the targets ask for, each probe once, in the order of the configuration.
  method RegisterTargets(s: Scheduler, ts: seq<Target>) returns (ghost at: seq<Place>)
    requires s.Valid() && !s.running && s.probes == []
    modifies s
    ensures s.Valid() && !s.running && DistinctNames(s.probes)
    ensures forall i :: 0 <= i < |ts| ==> IsServed(ts[i], s.probes)
    ensures IsPlaced(ts, s.probes, at)
    ensures Registered(s.probes, Configured(ts))
  {
    hide Safety.Base, ChannelsOk, Asks, IsPlaced, EndsBefore, Registered;
    at := [];
    NothingPlaced(ts);
    for i := 0 to |ts|
      invariant s.Valid() && !s.running
      invariant Registered(s.probes, Configured(ts[..i]))
      invariant IsPlaced(ts, s.probes, at) && EndsBefore(at, i, 0)
      invariant forall l :: 0 <= l < i ==> IsServed(ts[l], s.probes)
    {
      ghost var earlier := s.probes;
      at := RegisterTarget(s, ts, i, at);
      assert forall p :: p in earlier ==> p in s.probes;
    }
    assert ts[..|ts|] == ts;
  }

  lemma NothingPlaced(ts: seq<Target>)
    ensures IsPlaced(ts, [], []) && EndsBefore([], 0, 0) && Registered([], Configured(ts[..0]))
  {
  }

  // The engine RunApp makes, and what the onResult callback of an MTR probe does
  // with it: a finished trace is analysed, but the report is always the normal one.
  method OnResult(targetName: string, res: Option<Mtr.MTRResult>) returns (r: Diagnostic.Report)
    ensures r.target == targetName && r.diagnosis == Diagnostic.OK && r.faultyHop == 0 && r.faultyHopIP == ""
  {
    var diagEngine := new Diagnostic.Engine(0.05, 250 * Diagnostic.MILLISECOND);
    r := diagEngine.Analyze(targetName, 0.0, 0, res);
    Diagnostic.NothingMeasuredIsNormal(diagEngine, 0.0, 0, res, r);
  }
}
