/** Direct attention scores and the one graph hop on top of them. */
module RouterScoring {
  import opened GenerationWork
  import opened RouterTypes

  function Max(a: real, b: real): real {
    if a < b then b else a
  }

  function Min(a: real, b: real): real {
    if b < a then b else a
  }

  function ViewportScore(n: Npc): real {
    if !n.insideViewport || !n.lineOfSight then 0.0 else Max(0.0, 1.0 - n.viewportCenterDistance)
  }

  function ProximityScore(n: Npc, maxDistance: real): real
    requires maxDistance > 0.0
  {
    Max(0.0, 1.0 - n.worldDistance / maxDistance)
  }

  function Weighted(weight: real, signal: real): real {
    weight * signal
  }

  function DirectScore(config: Config, target: Option<string>, n: Npc): real
    requires config.Valid()
  {
    Weighted(config.viewportWeight, ViewportScore(n))
    + Weighted(config.proximityWeight, ProximityScore(n, config.maxRelevantDistance))
    + Weighted(config.eventRelevanceWeight, n.eventRelevance)
    + Weighted(config.interactionRecencyWeight, n.interactionRecency)
    + (if target == Some(n.npcId) then config.activeConversationBonus else 0.0)
  }

  /** `b` draws at least as much attention as `a` in every signal. */
  predicate Dominates(b: Npc, a: Npc) {
    && (a.insideViewport && a.lineOfSight ==>
          b.insideViewport && b.lineOfSight && b.viewportCenterDistance <= a.viewportCenterDistance)
    && b.worldDistance <= a.worldDistance
    && b.eventRelevance >= a.eventRelevance && b.interactionRecency >= a.interactionRecency
  }

  lemma WeighsMore(w: real, a: real, b: real)
    requires w >= 0.0 && a <= b
    ensures Weighted(w, a) <= Weighted(w, b)
    ensures Weighted(w, 0.0) == 0.0 && Weighted(w, 1.0) == w
  {
    assert w * b - w * a == w * (b - a);
    assert w * (b - a) >= 0.0;
  }

  lemma WeighsUnit(w: real, a: real)
    requires w >= 0.0 && 0.0 <= a <= 1.0
    ensures 0.0 <= Weighted(w, a) <= w && Weighted(w, 0.0) == 0.0
  {
    WeighsMore(w, 0.0, a);
    WeighsMore(w, a, 1.0);
  }

  lemma Ratios(d: real, e: real, m: real)
    requires m > 0.0 && d <= e
    ensures d / m <= e / m
  {
    assert e / m - d / m == (e - d) / m;
    assert (e - d) / m >= 0.0;
  }

  lemma ProximityIsUnit(n: Npc, maxDistance: real)
    requires maxDistance > 0.0 && n.worldDistance >= 0.0
    ensures 0.0 <= ProximityScore(n, maxDistance) <= 1.0
    ensures n.worldDistance >= maxDistance ==> ProximityScore(n, maxDistance) == 0.0
  {
    Ratios(0.0, n.worldDistance, maxDistance);
    assert maxDistance / maxDistance == 1.0;
    if n.worldDistance >= maxDistance {
      Ratios(maxDistance, n.worldDistance, maxDistance);
    }
  }

  /** More of any signal never lowers the score, and the target only gains on the others. */
  lemma AttentionIsMonotone(config: Config, target: Option<string>, a: Npc, b: Npc)
    requires config.Valid() && ValidNpc(a) && ValidNpc(b) && Dominates(b, a)
    requires target == Some(a.npcId) ==> target == Some(b.npcId)
    ensures DirectScore(config, target, a) <= DirectScore(config, target, b)
  {
    var m := config.maxRelevantDistance;
    Ratios(b.worldDistance, a.worldDistance, m);
    WeighsMore(config.viewportWeight, ViewportScore(a), ViewportScore(b));
    WeighsMore(config.proximityWeight, ProximityScore(a, m), ProximityScore(b, m));
    WeighsMore(config.eventRelevanceWeight, a.eventRelevance, b.eventRelevance);
    WeighsMore(config.interactionRecencyWeight, a.interactionRecency, b.interactionRecency);
    hide Weighted, ViewportScore, ProximityScore;
  }

  /** A score lies between zero and the sum of the weights, plus exactly the bonus for the target;
      an NPC out of sight, out of range and out of every event and exchange scores zero. */
  lemma ScoreIsBounded(config: Config, target: Option<string>, n: Npc)
    requires config.Valid() && ValidNpc(n)
    ensures var bonus := if target == Some(n.npcId) then config.activeConversationBonus else 0.0;
            var most := config.viewportWeight + config.proximityWeight + config.eventRelevanceWeight + config.interactionRecencyWeight;
            bonus <= DirectScore(config, target, n) <= most + bonus
    ensures Unnoticed(config, target, n) ==> DirectScore(config, target, n) == 0.0
  {
    ProximityIsUnit(n, config.maxRelevantDistance);
    WeighsUnit(config.viewportWeight, ViewportScore(n));
    WeighsUnit(config.proximityWeight, ProximityScore(n, config.maxRelevantDistance));
    WeighsUnit(config.eventRelevanceWeight, n.eventRelevance);
    WeighsUnit(config.interactionRecencyWeight, n.interactionRecency);
    assert !(n.insideViewport && n.lineOfSight) ==> ViewportScore(n) == 0.0;
    hide Weighted, ViewportScore, ProximityScore;
  }

  predicate Unnoticed(config: Config, target: Option<string>, n: Npc) {
    && !(n.insideViewport && n.lineOfSight) && n.worldDistance >= config.maxRelevantDistance
    && n.eventRelevance == 0.0 && n.interactionRecency == 0.0 && target != Some(n.npcId)
  }

  /** A signal at full strength with every other at zero is worth exactly its own weight. */
  lemma EachSignalPaysItsWeight(config: Config, n: Npc)
    requires config.Valid() && ValidNpc(n)
    requires Full(ViewportScore(n)) && Full(ProximityScore(n, config.maxRelevantDistance))
    requires Full(n.eventRelevance) && Full(n.interactionRecency)
    ensures DirectScore(config, None, n) ==
              (if ViewportScore(n) == 1.0 then config.viewportWeight else 0.0)
              + (if ProximityScore(n, config.maxRelevantDistance) == 1.0 then config.proximityWeight else 0.0)
              + (if n.eventRelevance == 1.0 then config.eventRelevanceWeight else 0.0)
              + (if n.interactionRecency == 1.0 then config.interactionRecencyWeight else 0.0)
    ensures ViewportScore(n) == 1.0 <==> n.insideViewport && n.lineOfSight && n.viewportCenterDistance == 0.0
    ensures ProximityScore(n, config.maxRelevantDistance) == 0.0 <==> n.worldDistance >= config.maxRelevantDistance
  {
    WeighsMore(config.viewportWeight, 0.0, ViewportScore(n));
    WeighsMore(config.proximityWeight, 0.0, ProximityScore(n, config.maxRelevantDistance));
    WeighsMore(config.eventRelevanceWeight, 0.0, n.eventRelevance);
    WeighsMore(config.interactionRecencyWeight, 0.0, n.interactionRecency);
    OutOfRangeIff(n, config.maxRelevantDistance);
    hide Weighted;
  }

  lemma WeighsApart(w: real, a: real, b: real)
    ensures Weighted(w, b) - Weighted(w, a) == w * (b - a)
  {
    assert w * b - w * a == w * (b - a);
  }

  lemma AboveOne(q: real, m: real)
    requires m > 0.0
    ensures q > 1.0 ==> q * m > m
  {
    if q > 1.0 {
      assert (q - 1.0) * m > 0.0;
      assert q * m - m == (q - 1.0) * m;
    }
  }

  /** Between its ends a signal is a straight line: closeness to the centre of the view, and closeness
      as a part of the greatest relevant distance. */
  lemma SignalsInBetween(n: Npc, maxDistance: real)
    requires maxDistance > 0.0 && ValidNpc(n)
    ensures n.insideViewport && n.lineOfSight ==> ViewportScore(n) == 1.0 - n.viewportCenterDistance
    ensures n.worldDistance <= maxDistance ==> ProximityScore(n, maxDistance) * maxDistance == maxDistance - n.worldDistance
  {
    var q := n.worldDistance / maxDistance;
    assert q * maxDistance == n.worldDistance;
    AboveOne(q, maxDistance);
    assert (1.0 - q) * maxDistance == maxDistance - q * maxDistance;
  }

  /** Changing one signal alone moves the score by that signal's own weight for each unit. */
  lemma EachSignalCountsForItself(config: Config, target: Option<string>, n: Npc, x: real)
    requires config.Valid()
    ensures var base := DirectScore(config, target, n);
      && DirectScore(config, target, n.(eventRelevance := x)) - base == config.eventRelevanceWeight * (x - n.eventRelevance)
      && DirectScore(config, target, n.(interactionRecency := x)) - base
           == config.interactionRecencyWeight * (x - n.interactionRecency)
  {
    WeighsApart(config.eventRelevanceWeight, n.eventRelevance, x);
    WeighsApart(config.interactionRecencyWeight, n.interactionRecency, x);
    SameSignals(config, n, n.(eventRelevance := x));
    SameSignals(config, n, n.(interactionRecency := x));
    hide Weighted, ViewportScore, ProximityScore;
  }

  lemma SameSignals(config: Config, a: Npc, b: Npc)
    requires config.Valid()
    ensures a.worldDistance == b.worldDistance ==>
              ProximityScore(a, config.maxRelevantDistance) == ProximityScore(b, config.maxRelevantDistance)
    ensures SameView(a, b) ==> ViewportScore(a) == ViewportScore(b)
  {
  }

  /** So does nearness to the centre of the view; being the conversation target is worth the bonus. */
  lemma ViewCountsForItself(config: Config, target: Option<string>, n: Npc, x: real)
    requires config.Valid() && ValidNpc(n) && 0.0 <= x <= 1.0 && n.insideViewport && n.lineOfSight
    ensures DirectScore(config, target, n.(viewportCenterDistance := x)) - DirectScore(config, target, n)
         == config.viewportWeight * (n.viewportCenterDistance - x)
    ensures DirectScore(config, Some(n.npcId), n) - DirectScore(config, None, n) == config.activeConversationBonus
  {
    var nearer := n.(viewportCenterDistance := x);
    SignalsInBetween(n, config.maxRelevantDistance);
    SignalsInBetween(nearer, config.maxRelevantDistance);
    WeighsApart(config.viewportWeight, ViewportScore(n), ViewportScore(nearer));
    SameSignals(config, n, nearer);
    hide Weighted, ViewportScore, ProximityScore;
  }

  predicate SameView(a: Npc, b: Npc) {
    a.insideViewport == b.insideViewport && a.lineOfSight == b.lineOfSight && a.viewportCenterDistance == b.viewportCenterDistance
  }

  /** So does distance, measured against the greatest relevant one. */
  lemma DistanceCountsForItself(config: Config, target: Option<string>, n: Npc, x: real)
    requires config.Valid() && ValidNpc(n)
    requires 0.0 <= x <= config.maxRelevantDistance && n.worldDistance <= config.maxRelevantDistance
    ensures (DirectScore(config, target, n.(worldDistance := x)) - DirectScore(config, target, n)) * config.maxRelevantDistance
         == config.proximityWeight * (n.worldDistance - x)
  {
    var m, w := config.maxRelevantDistance, config.proximityWeight;
    var p, q := ProximityScore(n, m), ProximityScore(n.(worldDistance := x), m);
    SignalsInBetween(n, m);
    SignalsInBetween(n.(worldDistance := x), m);
    WeighsApart(w, p, q);
    assert SameView(n.(worldDistance := x), n);
    assert ViewportScore(n.(worldDistance := x)) == ViewportScore(n);
    ScaledApart(w, p, q, m);
    hide Weighted, ViewportScore, ProximityScore;
  }

  lemma ScaledApart(w: real, p: real, q: real, m: real)
    ensures (w * (q - p)) * m == w * (q * m - p * m)
  {
  }

  predicate Full(signal: real) {
    signal == 0.0 || signal == 1.0
  }

  lemma OutOfRangeIff(n: Npc, maxDistance: real)
    requires maxDistance > 0.0
    ensures ProximityScore(n, maxDistance) == 0.0 <==> n.worldDistance >= maxDistance
  {
    var q := n.worldDistance / maxDistance;
    assert q * maxDistance == n.worldDistance;
    if q >= 1.0 {
      assert q * maxDistance - maxDistance == (q - 1.0) * maxDistance;
      assert (q - 1.0) * maxDistance >= 0.0;
    } else {
      assert maxDistance - q * maxDistance == (1.0 - q) * maxDistance;
      assert (1.0 - q) * maxDistance > 0.0;
    }
  }

  // ---- one hop --------------------------------------------------------------------

  /** Direct scores by NPC identity. */
  type Scores = map<string, real>

  predicate Carries(config: Config, direct: Scores, e: Edge) {
    && config.graphDecay > 0.0 && e.active && e.source != e.target
    && e.source in direct && e.target in direct
    && e.kind in config.edgeWeights && config.edgeWeights[e.kind] > 0.0
    && Contribution(config, direct, e) > 0.0
  }

  /** Always from the source's direct score, so a signal never travels a second hop. */
  function Contribution(config: Config, direct: Scores, e: Edge): real
    requires e.source in direct && e.kind in config.edgeWeights
  {
    Min(1.0, direct[e.source]) * config.edgeWeights[e.kind] * config.graphDecay
  }

  datatype Signal = Signal(strength: real, source: string)

  /** Stronger, or as strong from the source that comes first. */
  predicate Beats(a: Signal, b: Signal) {
    a.strength > b.strength || (a.strength == b.strength && TextLess(a.source, b.source))
  }

  function SignalOf(config: Config, direct: Scores, e: Edge): Signal
    requires Carries(config, direct, e)
  {
    Signal(Contribution(config, direct, e), e.source)
  }

  /** The strongest signal any edge carries to `target`, with the tie broken by source. */
  ghost predicate Strongest(config: Config, direct: Scores, edges: set<Edge>, target: string, s: Option<Signal>) {
    match s
    case None => forall e :: e in edges && e.target == target ==> !Carries(config, direct, e)
    case Some(best) =>
      && (exists e :: e in edges && e.target == target && Carries(config, direct, e) && SignalOf(config, direct, e) == best)
      && (forall e :: e in edges && e.target == target && Carries(config, direct, e) ==>
            SignalOf(config, direct, e) == best || Beats(best, SignalOf(config, direct, e)))
  }

  lemma StrongestUnique(config: Config, direct: Scores, edges: set<Edge>, target: string, s: Option<Signal>, r: Option<Signal>)
    requires Strongest(config, direct, edges, target, s) && Strongest(config, direct, edges, target, r)
    ensures s == r
  {
    if s.Some? && r.Some? {
      TextTrichotomy(s.value.source, r.value.source);
    }
  }

  /** The strongest signal is some edge's own; no edge into the target carries a stronger one, nor as
      strong a one from a source whose name comes first. */
  lemma StrongestIsGreatest(config: Config, direct: Scores, edges: set<Edge>, target: string, best: Signal, e: Edge)
    requires Strongest(config, direct, edges, target, Some(best))
    requires e in edges && e.target == target && Carries(config, direct, e)
    ensures Contribution(config, direct, e) <= best.strength
    ensures Contribution(config, direct, e) == best.strength ==> e.source == best.source || TextLess(best.source, e.source)
  {
    hide Contribution;
  }

  function Look(best: map<string, Signal>, target: string): Option<Signal> {
    if target in best then Some(best[target]) else None
  }

  /** The edge loop finds the declarative maximum for every target. */
  method StrongestSignals(config: Config, direct: Scores, edges: seq<Edge>) returns (best: map<string, Signal>)
    ensures forall target :: Strongest(config, direct, EdgesOf(edges), target, Look(best, target))
  {
    best := map[];
    if config.graphDecay > 0.0 {
      for i := 0 to |edges|
        invariant forall target :: Strongest(config, direct, EdgesOf(edges[..i]), target, Look(best, target))
      {
        var edge := edges[i];
        ghost var before := best;
        if edge.active && edge.source != edge.target && edge.source in direct && edge.target in direct
           && edge.kind in config.edgeWeights && config.edgeWeights[edge.kind] > 0.0 {
          var contribution := Contribution(config, direct, edge);
          if contribution > 0.0 {
            if edge.target !in best
               || contribution > best[edge.target].strength
               || (contribution == best[edge.target].strength && TextLess(edge.source, best[edge.target].source)) {
              best := best[edge.target := Signal(contribution, edge.source)];
            }
          }
        }
        forall target ensures Strongest(config, direct, EdgesOf(edges[..i + 1]), target, Look(best, target)) {
          OneMoreEdge(config, direct, EdgesOf(edges[..i]), edge, target, Look(before, target), Look(best, target));
          assert EdgesOf(edges[..i + 1]) == EdgesOf(edges[..i]) + {edge};
        }
      }
      assert edges[..|edges|] == edges;
    }
  }

  lemma OneMoreEdge(
      config: Config, direct: Scores, edges: set<Edge>, edge: Edge, target: string, s: Option<Signal>, r: Option<Signal>)
    requires Strongest(config, direct, edges, target, s)
    requires if edge.target == target && Carries(config, direct, edge) && (s.None? || Beats(SignalOf(config, direct, edge), s.value))
             then r == Some(SignalOf(config, direct, edge)) else r == s
    ensures Strongest(config, direct, edges + {edge}, target, r)
  {
    if s.Some? && edge.target == target && Carries(config, direct, edge) {
      var added := SignalOf(config, direct, edge);
      TextTrichotomy(added.source, s.value.source);
      forall e | e in edges && e.target == target && Carries(config, direct, e) && Beats(added, s.value)
        ensures SignalOf(config, direct, e) == added || Beats(added, SignalOf(config, direct, e))
      {
        BeatsTransitive(added, s.value, SignalOf(config, direct, e));
      }
    }
  }

  lemma BeatsTransitive(a: Signal, b: Signal, c: Signal)
    requires Beats(a, b) && (c == b || Beats(b, c))
    ensures Beats(a, c)
  {
    if a.strength == b.strength == c.strength && c != b {
      TextTransitive(a.source, b.source, c.source);
    }
  }

  function Propagated(s: Option<Signal>): real {
    if s.Some? then s.value.strength else 0.0
  }

  function Final(direct: real, s: Option<Signal>): real {
    Max(direct, Propagated(s))
  }

  function HeardFrom(direct: real, s: Option<Signal>): Option<string> {
    if s.Some? && s.value.strength > direct then Some(s.value.source) else None
  }

  lemma {:induction false} StrongestExists(config: Config, direct: Scores, edges: set<Edge>, target: string)
    returns (s: Option<Signal>)
    ensures Strongest(config, direct, edges, target, s)
    decreases |edges|
  {
    if edges == {} {
      s := None;
    } else {
      var edge :| edge in edges;
      var rest := edges - {edge};
      var before := StrongestExists(config, direct, rest, target);
      s := if edge.target == target && Carries(config, direct, edge) && (before.None? || Beats(SignalOf(config, direct, edge), before.value))
           then Some(SignalOf(config, direct, edge)) else before;
      OneMoreEdge(config, direct, rest, edge, target, before, s);
      assert rest + {edge} == edges;
    }
  }

  lemma SomeStrongest(config: Config, direct: Scores, edges: set<Edge>, target: string)
    ensures exists s :: Strongest(config, direct, edges, target, s)
  {
    var s := StrongestExists(config, direct, edges, target);
  }

  /** The strongest signal to `target`, as a function of the set of edges alone. */
  ghost function StrongestTo(config: Config, direct: Scores, edges: set<Edge>, target: string): (s: Option<Signal>)
    ensures Strongest(config, direct, edges, target, s)
  {
    SomeStrongest(config, direct, edges, target);
    var s :| Strongest(config, direct, edges, target, s);
    s
  }

  /** Exactly one hop: only edges into a target, and the direct scores at their sources, reach it. */
  lemma OneHopOnly(config: Config, direct: Scores, direct': Scores, edges: set<Edge>, edges': set<Edge>, target: string)
    requires forall e: Edge :: e.target == target ==> (e in edges <==> e in edges')
    requires direct.Keys == direct'.Keys
    requires forall e :: e in edges && e.target == target && e.source in direct ==> direct[e.source] == direct'[e.source]
    ensures StrongestTo(config, direct, edges, target) == StrongestTo(config, direct', edges', target)
  {
    forall e: Edge | e.target == target
      ensures e in edges ==> (Carries(config, direct, e) <==> Carries(config, direct', e))
      ensures e in edges && Carries(config, direct, e) ==> SignalOf(config, direct, e) == SignalOf(config, direct', e)
    {
    }
    var s := StrongestTo(config, direct', edges', target);
    hide Carries, Contribution, SignalOf;
    assert Strongest(config, direct, edges, target, s);
    StrongestUnique(config, direct, edges, target, StrongestTo(config, direct, edges, target), s);
  }

  /** A signal never exceeds the edge's weight after decay, and reaches it from any source whose
      direct score is at least one. */
  lemma SignalIsBounded(config: Config, direct: Scores, e: Edge)
    requires config.Valid() && Carries(config, direct, e)
    ensures 0.0 < SignalOf(config, direct, e).strength <= config.edgeWeights[e.kind] * config.graphDecay
    ensures direct[e.source] >= 1.0 ==> SignalOf(config, direct, e).strength == config.edgeWeights[e.kind] * config.graphDecay
    ensures direct[e.source] <= 1.0 ==>
              SignalOf(config, direct, e).strength == direct[e.source] * (config.edgeWeights[e.kind] * config.graphDecay)
    ensures SignalOf(config, direct, e).source == e.source
  {
    var w, d, m := config.edgeWeights[e.kind], config.graphDecay, Min(1.0, direct[e.source]);
    assert w * d - m * w * d == (1.0 - m) * (w * d) && m * w * d == m * (w * d);
    assert w * d > 0.0;
    assert (1.0 - m) * (w * d) >= 0.0;
  }

  /** An edge carries a signal exactly when it is active, joins two different candidates, its kind has
      a weight, decay lets something through and its source draws any attention. */
  lemma CarriesIff(config: Config, direct: Scores, e: Edge)
    requires config.Valid()
    ensures Carries(config, direct, e) <==>
              && e.active && e.source != e.target && e.source in direct && e.target in direct
              && e.kind in config.edgeWeights && config.edgeWeights[e.kind] > 0.0
              && config.graphDecay > 0.0 && direct[e.source] > 0.0
  {
    if e.source in direct && e.kind in config.edgeWeights && config.edgeWeights[e.kind] > 0.0 && config.graphDecay > 0.0 {
      var w, d, m := config.edgeWeights[e.kind], config.graphDecay, Min(1.0, direct[e.source]);
      assert w * d > 0.0 && m * w * d == m * (w * d);
      if m > 0.0 {
        assert m * (w * d) > 0.0;
      } else {
        assert (0.0 - m) * (w * d) >= 0.0;
        assert m * (w * d) == -((0.0 - m) * (w * d));
      }
    }
  }

  /** The final score is never below either part, and a source is named exactly when its signal
      raised the score. */
  lemma NamedIffRaised(direct: real, s: Option<Signal>)
    requires direct >= 0.0
    ensures Final(direct, s) >= direct && Final(direct, s) >= Propagated(s)
    ensures HeardFrom(direct, s).Some? <==> Final(direct, s) > direct
    ensures Final(direct, s) > direct ==>
              s.Some? && Final(direct, s) == s.value.strength && HeardFrom(direct, s) == Some(s.value.source)
    ensures Final(direct, s) == direct || Final(direct, s) == Propagated(s)
  {
  }
}
