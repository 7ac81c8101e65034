/** Score, propagate one hop, hold, rank, select, record. */
module Routers {
  import opened GenerationWork
  import opened Numbers
  import opened RouterTypes
  import opened RouterScoring
  import opened RouterAssignment
  import opened RouterStates

  // ---- hysteresis -----------------------------------------------------------------

  datatype Adjustment = Adjustment(effective: real, bonus: real, withinHold: bool)

  predicate WithinHold(previous: NpcState, timestamp: nat, config: Config) {
    var elapsed := if timestamp < previous.enteredAt then 0 else timestamp - previous.enteredAt;
    || (previous.tier == Focused && elapsed < config.focusedHoldMs)
    || (previous.tier == Reactive && elapsed < config.reactiveHoldMs)
  }

  function ApplyHysteresis(final: real, previous: Option<NpcState>, timestamp: nat, config: Config): Adjustment {
    if previous.None? || !WithinHold(previous.value, timestamp, config) then Adjustment(final, 0.0, false)
    else
      var bonus := if previous.value.tier == Focused then config.focusedStickyBonus else config.reactiveStickyBonus;
      Adjustment(final + bonus, bonus, true)
  }

  /** A hold lasts exactly its length from the time the tier was entered, even if the clock steps
      back, and while it lasts it adds exactly its tier's bonus. */
  lemma HoldLastsExactly(final: real, previous: NpcState, timestamp: nat, config: Config)
    ensures var a := ApplyHysteresis(final, Some(previous), timestamp, config);
            var (hold, bonus) := match previous.tier
              case Focused => (config.focusedHoldMs, config.focusedStickyBonus)
              case Reactive => (config.reactiveHoldMs, config.reactiveStickyBonus)
              case Ambient => (0, 0.0);
            && (a.withinHold <==> hold > 0 && timestamp < previous.enteredAt + hold)
            && a.bonus == (if a.withinHold then bonus else 0.0) && a.effective == final + a.bonus
    ensures ApplyHysteresis(final, None, timestamp, config) == Adjustment(final, 0.0, false)
  {
  }

  // ---- the decision as a function of sets and remembered state ----------------------

  /** A snapshot without the order of its lists. */
  datatype Input = Input(target: Option<string>, timestamp: nat, npcs: set<Npc>, edges: set<Edge>)

  ghost function InputOf(s: Snapshot): Input {
    Input(s.conversationTarget, s.timestampMs, s.NpcSet(), s.EdgeSet())
  }

  ghost function IdsOf(npcs: set<Npc>): set<string> {
    set n | n in npcs :: n.npcId
  }

  ghost function NpcNamed(npcs: set<Npc>, id: string): (n: Npc)
    requires id in IdsOf(npcs)
    ensures n in npcs && n.npcId == id
  {
    var n :| n in npcs && n.npcId == id;
    n
  }

  ghost function Directs(config: Config, input: Input): Scores
    requires config.Valid()
  {
    map id | id in IdsOf(input.npcs) :: DirectScore(config, input.target, NpcNamed(input.npcs, id))
  }

  ghost function SignalTo(config: Config, input: Input, id: string): Option<Signal>
    requires config.Valid()
  {
    StrongestTo(config, Directs(config, input), input.edges, id)
  }

  ghost function FinalOf(config: Config, input: Input, id: string): real
    requires config.Valid() && id in IdsOf(input.npcs)
  {
    Final(Directs(config, input)[id], SignalTo(config, input, id))
  }

  ghost function EffectiveOf(config: Config, input: Input, states: States, id: string): real
    requires config.Valid() && id in IdsOf(input.npcs)
  {
    ApplyHysteresis(FinalOf(config, input, id), StateOf(states, id), input.timestamp, config).effective
  }

  function PreviousTiers(states: States): map<string, Tier> {
    map id | id in states :: states[id].tier
  }

  ghost function RankingFor(config: Config, input: Input, states: States): Ranking
    requires config.Valid()
  {
    Ranking(
      input.target, PreviousTiers(states),
      map id | id in IdsOf(input.npcs) :: EffectiveOf(config, input, states, id),
      config.minimumTierScore)
  }

  function ScoredNpc(config: Config, target: Option<string>, n: Npc): Scored
    requires config.Valid()
  {
    Scored(n, DirectScore(config, target, n))
  }

  ghost function ScoredSet(config: Config, input: Input): set<Scored>
    requires config.Valid()
  {
    set n | n in input.npcs :: ScoredNpc(config, input.target, n)
  }

  /** What the Router assigns to one candidate. Nothing in it depends on an order. */
  ghost function Decision(config: Config, input: Input, states: States, n: Npc): Assignment
    requires config.Valid()
  {
    Decide(
      RankingFor(config, input, states), config, ScoredSet(config, input),
      SignalTo(config, input, n.npcId), ScoredNpc(config, input.target, n))
  }

  ghost predicate DecidedBy(config: Config, snapshot: Snapshot, states: States, assignments: seq<Assignment>)
    requires config.Valid()
  {
    && |assignments| == |snapshot.npcs|
    && forall i :: 0 <= i < |snapshot.npcs| ==>
         assignments[i] == Decision(config, InputOf(snapshot), states, snapshot.npcs[i])
  }

  // ---- stages ---------------------------------------------------------------------

  method ScoreSnapshot(config: Config, snapshot: Snapshot) returns (scored: seq<Scored>)
    requires config.Valid() && snapshot.Valid()
    ensures |scored| == |snapshot.npcs| && DistinctIds(scored)
    ensures forall i :: 0 <= i < |scored| ==>
              scored[i] == ScoredNpc(config, snapshot.conversationTarget, snapshot.npcs[i])
    ensures Members(scored) == ScoredSet(config, InputOf(snapshot))
  {
    scored := [];
    for i := 0 to |snapshot.npcs|
      invariant |scored| == i
      invariant forall j :: 0 <= j < i ==> scored[j] == ScoredNpc(config, snapshot.conversationTarget, snapshot.npcs[j])
    {
      scored := scored + [ScoredNpc(config, snapshot.conversationTarget, snapshot.npcs[i])];
    }
    hide DirectScore;
    SameMembers(config, snapshot, scored);
  }

  lemma SameMembers(config: Config, snapshot: Snapshot, scored: seq<Scored>)
    requires config.Valid() && snapshot.Valid() && |scored| == |snapshot.npcs|
    requires forall i :: 0 <= i < |scored| ==>
              scored[i] == ScoredNpc(config, snapshot.conversationTarget, snapshot.npcs[i])
    ensures Members(scored) == ScoredSet(config, InputOf(snapshot))
  {
    hide DirectScore;
    forall c | c in ScoredSet(config, InputOf(snapshot)) ensures c in scored {
      var n :| n in snapshot.npcs && c == ScoredNpc(config, snapshot.conversationTarget, n);
      var i :| 0 <= i < |snapshot.npcs| && snapshot.npcs[i] == n;
      assert scored[i] == c;
    }
  }

  /** The dictionary of direct scores by identity. */
  method DirectScores(scored: seq<Scored>) returns (direct: Scores)
    requires DistinctIds(scored)
    ensures direct.Keys == Ids(scored)
    ensures forall c :: c in scored ==> direct[c.Id()] == c.direct
  {
    direct := map[];
    for i := 0 to |scored|
      invariant direct.Keys == Ids(scored[..i])
      invariant forall j :: 0 <= j < i ==> scored[j].Id() in direct && direct[scored[j].Id()] == scored[j].direct
    {
      direct := direct[scored[i].Id() := scored[i].direct];
      assert scored[..i + 1] == scored[..i] + [scored[i]];
    }
    assert scored[..|scored|] == scored;
  }

  lemma DirectScoresAre(config: Config, snapshot: Snapshot, scored: seq<Scored>, direct: Scores)
    requires config.Valid() && snapshot.Valid() && |scored| == |snapshot.npcs|
    requires forall i :: 0 <= i < |scored| ==>
              scored[i] == ScoredNpc(config, snapshot.conversationTarget, snapshot.npcs[i])
    requires direct.Keys == Ids(scored) && forall c :: c in scored ==> direct[c.Id()] == c.direct
    ensures direct == Directs(config, InputOf(snapshot)) && direct.Keys == IdsOf(snapshot.NpcSet())
  {
    hide DirectScore;
    var npcs := snapshot.NpcSet();
    forall id ensures id in Ids(scored) <==> id in IdsOf(npcs) {
      if id in IdsOf(npcs) {
        var i :| 0 <= i < |snapshot.npcs| && snapshot.npcs[i].npcId == id;
        assert scored[i] in scored;
      }
    }
    forall id | id in direct ensures direct[id] == Directs(config, InputOf(snapshot))[id] {
      var i :| 0 <= i < |scored| && scored[i].Id() == id;
      assert snapshot.npcs[i] in npcs && NpcNamed(npcs, id) in snapshot.npcs;
      assert direct[id] == scored[i].direct;
    }
  }

  lemma SignalsAre(config: Config, direct: Scores, edges: seq<Edge>, best: map<string, Signal>, id: string)
    requires Strongest(config, direct, EdgesOf(edges), id, Look(best, id))
    ensures Look(best, id) == StrongestTo(config, direct, EdgesOf(edges), id)
  {
    StrongestUnique(config, direct, EdgesOf(edges), id, Look(best, id), StrongestTo(config, direct, EdgesOf(edges), id));
  }

  /** The ranking score: the final score plus whatever the hold adds. */
  function Held(config: Config, signals: map<string, Signal>, states: States, timestamp: nat, c: Scored): real {
    ApplyHysteresis(Final(c.direct, Look(signals, c.Id())), StateOf(states, c.Id()), timestamp, config).effective
  }

  /** Ranking scores in candidate order, each the final score plus whatever the hold adds. */
  method RankingScores(config: Config, scored: seq<Scored>, signals: map<string, Signal>, states: States, timestamp: nat)
    returns (scores: Scores)
    requires DistinctIds(scored)
    ensures scores.Keys == Ids(scored)
    ensures forall c :: c in scored ==> scores[c.Id()] == Held(config, signals, states, timestamp, c)
  {
    hide Held;
    scores := map[];
    for i := 0 to |scored|
      invariant scores.Keys == Ids(scored[..i])
      invariant forall j :: 0 <= j < i ==>
                  scored[j].Id() in scores && scores[scored[j].Id()] == Held(config, signals, states, timestamp, scored[j])
    {
      scores := scores[scored[i].Id() := Held(config, signals, states, timestamp, scored[i])];
      assert scored[..i + 1] == scored[..i] + [scored[i]];
    }
    assert scored[..|scored|] == scored;
  }

  lemma RankingIs(
      config: Config, snapshot: Snapshot, states: States, scored: seq<Scored>, signals: map<string, Signal>, scores: Scores)
    requires config.Valid() && snapshot.Valid()
    requires var input := InputOf(snapshot);
             && (forall c :: c in scored ==> c.Id() in Directs(config, input) && c.direct == Directs(config, input)[c.Id()])
             && (forall id :: Look(signals, id) == SignalTo(config, input, id))
             && scores.Keys == Ids(scored) == IdsOf(input.npcs)
    requires forall c :: c in scored ==> scores[c.Id()] == Held(config, signals, states, snapshot.timestampMs, c)
    ensures Ranking(snapshot.conversationTarget, PreviousTiers(states), scores, config.minimumTierScore)
         == RankingFor(config, InputOf(snapshot), states)
  {
    hide DirectScore, ApplyHysteresis, Final, StateOf, Look, StrongestTo;
    var expected := RankingFor(config, InputOf(snapshot), states).scores;
    forall id | id in scores ensures scores[id] == expected[id] {
      var c :| c in scored && c.Id() == id;
    }
    assert scores == expected;
  }

  // ---- counts ---------------------------------------------------------------------

  function Tally(assignments: seq<Assignment>, tier: Tier): nat {
    if assignments == [] then 0
    else Tally(assignments[..|assignments| - 1], tier) + if assignments[|assignments| - 1].tier == tier then 1 else 0
  }

  lemma {:induction false} TallyAll(assignments: seq<Assignment>)
    ensures Tally(assignments, Focused) + Tally(assignments, Reactive) + Tally(assignments, Ambient) == |assignments|
  {
    if assignments != [] {
      TallyAll(assignments[..|assignments| - 1]);
    }
  }

  lemma {:induction false} TallyIsSize(scored: seq<Scored>, assignments: seq<Assignment>, tier: Tier, chosen: set<Scored>)
    requires |assignments| == |scored| && DistinctIds(scored) && chosen <= Members(scored)
    requires forall i :: 0 <= i < |scored| ==> (assignments[i].tier == tier <==> scored[i] in chosen)
    ensures Tally(assignments, tier) == |chosen|
  {
    if scored != [] {
      var n := |scored| - 1;
      var rest := chosen - {scored[n]};
      forall c | c in rest ensures c in scored[..n] {
        assert c in Members(scored);
      }
      TallyIsSize(scored[..n], assignments[..n], tier, rest);
      assert scored[n] in chosen ==> chosen == rest + {scored[n]};
    } else {
      assert chosen == {};
    }
  }

  // ---- what a hold promises ----------------------------------------------------------

  /** What an assignment was ranked by: its final score and whatever its NPC's hold added. */
  function RankedBy(config: Config, states: States, timestamp: nat, a: Assignment): real {
    ApplyHysteresis(a.finalScore, StateOf(states, a.npcId), timestamp, config).effective
  }

  /** Candidate `i` is worth a tier, has been Focused without a break since the route at `at`, and
      that route is less than a hold ago. */
  ghost predicate Holding(config: Config, snapshot: Snapshot, h: seq<Routed>, assignments: seq<Assignment>, i: nat, at: nat)
    requires i < |snapshot.npcs| == |assignments|
  {
    && RunBegan(h, snapshot.npcs[i].npcId, Focused, at)
    && 0 < config.focusedHoldMs && snapshot.timestampMs < at + config.focusedHoldMs
    && (snapshot.conversationTarget == Some(snapshot.npcs[i].npcId)
        || assignments[i].finalScore + config.focusedStickyBonus > config.minimumTierScore)
  }

  /** Candidate `j` is the conversation target, is ranked above what the sticky bonus lifts `i` to,
      or equals that and was Focused too. */
  ghost predicate Withstands(
      config: Config, snapshot: Snapshot, states: States, assignments: seq<Assignment>, i: nat, j: nat)
    requires i < |assignments| == |snapshot.npcs| && j < |assignments|
  {
    var lifted := assignments[i].finalScore + config.focusedStickyBonus;
    var score := RankedBy(config, states, snapshot.timestampMs, assignments[j]);
    || snapshot.conversationTarget == Some(snapshot.npcs[j].npcId)
    || score > lifted
    || (score == lifted && assignments[j].previousTier == Some(Focused))
  }

  /** At least a full Focused tier of other candidates withstands the bonus of candidate `i`. */
  ghost predicate FullTierAhead(config: Config, snapshot: Snapshot, states: States, assignments: seq<Assignment>, i: nat)
    requires i < |assignments| == |snapshot.npcs|
  {
    exists ahead: set<nat> :: |ahead| >= config.focusedCapacity
      && forall j :: j in ahead ==> j < |assignments| && j != i && Withstands(config, snapshot, states, assignments, i, j)
  }

  /** Whoever loses Focused inside its hold loses it to such a tier. */
  ghost predicate HoldsHonoured(
      config: Config, snapshot: Snapshot, h: seq<Routed>, states: States, assignments: seq<Assignment>)
  {
    |assignments| == |snapshot.npcs| &&
    forall i: nat, at: nat ::
      i < |assignments| && Holding(config, snapshot, h, assignments, i, at) && assignments[i].tier != Focused ==>
        FullTierAhead(config, snapshot, states, assignments, i)
  }

  lemma DirectIs(config: Config, snapshot: Snapshot, i: nat)
    requires config.Valid() && snapshot.Valid() && i < |snapshot.npcs|
    ensures var id := snapshot.npcs[i].npcId; var input := InputOf(snapshot);
            id in IdsOf(input.npcs) && Directs(config, input)[id] == DirectScore(config, input.target, snapshot.npcs[i])
  {
    var id, npcs := snapshot.npcs[i].npcId, snapshot.NpcSet();
    assert snapshot.npcs[i] in npcs && id in IdsOf(npcs);
    assert NpcNamed(npcs, id) in snapshot.npcs;
    hide DirectScore;
  }

  /** What a result says of one candidate is what it was ranked by. */
  lemma RankedAs(config: Config, snapshot: Snapshot, states: States, assignments: seq<Assignment>, i: nat)
    requires config.Valid() && snapshot.Valid() && DecidedBy(config, snapshot, states, assignments) && i < |assignments|
    ensures var r := RankingFor(config, InputOf(snapshot), states);
            var c := ScoredNpc(config, snapshot.conversationTarget, snapshot.npcs[i]);
            && r.Score(c) == RankedBy(config, states, snapshot.timestampMs, assignments[i])
            && assignments[i].previousTier == r.Previous(c) && assignments[i].npcId == c.Id() == snapshot.npcs[i].npcId
            && assignments[i].tier == TierOf(r, config, ScoredSet(config, InputOf(snapshot)), c)
  {
    DirectIs(config, snapshot, i);
    assert assignments[i] == Decision(config, InputOf(snapshot), states, snapshot.npcs[i]);
    hide DirectScore, ApplyHysteresis, SignalTo, Directs, TierOf, ScoredSet, DecidedBy;
  }

  /** What every assignment of a result reports of its candidate and of the state it was read from. */
  lemma ResultsReport(config: Config, snapshot: Snapshot, states: States, assignments: seq<Assignment>, i: nat)
    requires config.Valid() && snapshot.Valid() && DecidedBy(config, snapshot, states, assignments) && i < |assignments|
    ensures var (a, n) := (assignments[i], snapshot.npcs[i]);
      && a.npcId == n.npcId && HonestChange(a)
      && a.previousTier == (if n.npcId in states then Some(states[n.npcId].tier) else None)
      && a.directScore == DirectScore(config, snapshot.conversationTarget, n)
      && a.finalScore == (if a.propagatedScore > a.directScore then a.propagatedScore else a.directScore)
      && (a.heardFrom.Some? <==> a.propagatedScore > a.directScore)
  {
    assert assignments[i] == Decision(config, InputOf(snapshot), states, snapshot.npcs[i]);
    SignalsArePositive(config, snapshot, snapshot.npcs[i].npcId);
    ScoreIsBounded(config, snapshot.conversationTarget, snapshot.npcs[i]);
    DirectIs(config, snapshot, i);
    hide DirectScore, SignalTo, TierOf, ScoredSet, DecidedBy;
  }

  lemma SignalsArePositive(config: Config, snapshot: Snapshot, id: string)
    requires config.Valid()
    ensures var signal := SignalTo(config, InputOf(snapshot), id); signal.Some? ==> signal.value.strength > 0.0
  {
    var input := InputOf(snapshot);
    var direct, signal := Directs(config, input), SignalTo(config, input, id);
    hide Contribution;
    if signal.Some? {
      assert Strongest(config, direct, input.edges, id, signal);
    }
  }

  /** What two candidates of one result are compared by: being the conversation target, the score with
      what a hold added, the tier before, the distance, the name. */
  ghost predicate Leads(
      config: Config, snapshot: Snapshot, states: States, assignments: seq<Assignment>, i: nat, j: nat)
    requires i < |assignments| == |snapshot.npcs| && j < |assignments|
  {
    var (a, b) := (assignments[i], assignments[j]);
    var (m, n) := (snapshot.npcs[i], snapshot.npcs[j]);
    var (x, y) := (RankedBy(config, states, snapshot.timestampMs, a), RankedBy(config, states, snapshot.timestampMs, b));
    if snapshot.conversationTarget == Some(m.npcId) || snapshot.conversationTarget == Some(n.npcId)
    then snapshot.conversationTarget == Some(m.npcId) && m.npcId != n.npcId
    else if x != y then x > y
    else if a.previousTier != b.previousTier then Above(a.previousTier, b.previousTier)
    else if m.worldDistance != n.worldDistance then m.worldDistance < n.worldDistance
    else TextLess(m.npcId, n.npcId)
  }

  /** In every result, whoever leads is not placed lower. */
  lemma LeadersAreNotLower(
      config: Config, snapshot: Snapshot, states: States, assignments: seq<Assignment>, i: nat, j: nat)
    requires config.Valid() && snapshot.Valid() && DecidedBy(config, snapshot, states, assignments)
    requires i < |assignments| == |snapshot.npcs| && j < |assignments|
    requires Leads(config, snapshot, states, assignments, i, j)
    ensures assignments[j].tier == Focused ==> assignments[i].tier == Focused
    ensures assignments[j].tier == Reactive ==> assignments[i].tier != Ambient
  {
    var r := RankingFor(config, InputOf(snapshot), states);
    var c := ScoredNpc(config, snapshot.conversationTarget, snapshot.npcs[i]);
    var d := ScoredNpc(config, snapshot.conversationTarget, snapshot.npcs[j]);
    RankedAs(config, snapshot, states, assignments, i);
    RankedAs(config, snapshot, states, assignments, j);
    RankingReads(config, InputOf(snapshot), states);
    assert snapshot.npcs[i] in snapshot.NpcSet() && snapshot.npcs[j] in snapshot.NpcSet();
    hide DirectScore, RankingFor, RankedBy, TierOf, DecidedBy, SignalTo, Snapshot.Valid, Config.Valid;
    assert Better(r, c, d);
    BetterIsNotLower(r, config, ScoredSet(config, InputOf(snapshot)), c, d);
  }

  /** The positions of the candidates worth a tier: ranked above the minimum, or the target. */
  ghost function Worthy(config: Config, snapshot: Snapshot, states: States, assignments: seq<Assignment>): set<nat>
    requires |assignments| == |snapshot.npcs|
  {
    set i: nat | i < |assignments| &&
      (RankedBy(config, states, snapshot.timestampMs, assignments[i]) > config.minimumTierScore
       || snapshot.conversationTarget == Some(snapshot.npcs[i].npcId))
  }

  /** As many positions hold the chosen candidates as there are chosen. */
  lemma {:induction false} Positions(scored: seq<Scored>, chosen: set<Scored>) returns (at: set<nat>)
    requires chosen <= Members(scored)
    ensures |at| == |chosen| && forall j :: j in at ==> j < |scored| && scored[j] in chosen
    decreases |chosen|
  {
    if chosen == {} {
      at := {};
    } else {
      var c :| c in chosen;
      var rest := Positions(scored, chosen - {c});
      assert c in Members(scored);
      var j: nat :| j < |scored| && scored[j] == c;
      assert j !in rest;
      at := rest + {j};
    }
  }

  /** The run the history shows is the one the remembered state dates, so the hold still lasts. */
  lemma StillHeld(config: Config, h: seq<Routed>, states: States, id: string, at: nat, timestamp: nat)
    requires RemembersAll(h, states) && RunBegan(h, id, Focused, at)
    requires 0 < config.focusedHoldMs && timestamp < at + config.focusedHoldMs
    ensures id in states && states[id].tier == Focused && states[id].enteredAt == at
    ensures WithinHold(states[id], timestamp, config)
  {
    var k :| 0 <= k < |h| && h[k].timestamp == at && RunStart(h, id, Focused, k);
    assert InTierAt(h, |h| - 1, id, Focused);
    assert Remembers(h, id, states[id]);
    RunBeganOnce(h, id, Focused, at, states[id].enteredAt);
  }

  /** Over the history of one session and world: an eligible NPC that has been Focused for less than
      its hold loses Focused only to a full tier of others that its sticky bonus could not beat. */
  lemma HoldKeepsFocus(
      config: Config, snapshot: Snapshot, h: seq<Routed>, states: States, assignments: seq<Assignment>, i: nat, at: nat)
    requires config.Valid() && snapshot.Valid() && DecidedBy(config, snapshot, states, assignments)
    requires RemembersAll(h, states)
    requires i < |assignments| && Holding(config, snapshot, h, assignments, i, at) && assignments[i].tier != Focused
    ensures FullTierAhead(config, snapshot, states, assignments, i)
  {
    var input := InputOf(snapshot);
    var r := RankingFor(config, input, states);
    var scored := seq(|snapshot.npcs|, k requires 0 <= k < |snapshot.npcs| => ScoredNpc(config, input.target, snapshot.npcs[k]));
    SameMembers(config, snapshot, scored);
    StillHeld(config, h, states, snapshot.npcs[i].npcId, at, snapshot.timestampMs);
    EnoughAhead(config, snapshot, states, assignments, i);
    var ahead := Ahead(r, Members(scored), scored[i]);
    var positions := Positions(scored, ahead);
    hide *;
    forall j | j in positions ensures j < |assignments| && j != i && Withstands(config, snapshot, states, assignments, i, j) {
      IsAhead(r, Members(scored), scored[i], scored[j]);
      AheadWithstands(config, snapshot, states, assignments, i, j);
    }
    IsFull(config, snapshot, states, assignments, i, positions);
  }

  lemma IsFull(
      config: Config, snapshot: Snapshot, states: States, assignments: seq<Assignment>, i: nat, ahead: set<nat>)
    requires i < |assignments| == |snapshot.npcs| && |ahead| >= config.focusedCapacity
    requires forall j :: j in ahead ==> j < |assignments| && j != i && Withstands(config, snapshot, states, assignments, i, j)
    ensures FullTierAhead(config, snapshot, states, assignments, i)
  {
    hide Withstands;
  }

  lemma IsAhead(r: Ranking, all: set<Scored>, c: Scored, d: Scored)
    ensures d in Ahead(r, all, c) ==> r.Outranks(d, c)
  {
  }

  /** An eligible candidate that is not Focused has a full tier ahead of it. */
  lemma EnoughAhead(config: Config, snapshot: Snapshot, states: States, assignments: seq<Assignment>, i: nat)
    requires config.Valid() && snapshot.Valid() && DecidedBy(config, snapshot, states, assignments) && i < |assignments|
    requires assignments[i].tier != Focused
    requires snapshot.npcs[i].npcId in states && states[snapshot.npcs[i].npcId].tier == Focused
    requires WithinHold(states[snapshot.npcs[i].npcId], snapshot.timestampMs, config)
    requires || snapshot.conversationTarget == Some(snapshot.npcs[i].npcId)
             || assignments[i].finalScore + config.focusedStickyBonus > config.minimumTierScore
    ensures var r := RankingFor(config, InputOf(snapshot), states);
            |Ahead(r, ScoredSet(config, InputOf(snapshot)), ScoredNpc(config, snapshot.conversationTarget, snapshot.npcs[i]))|
              >= config.focusedCapacity
  {
    RankedAs(config, snapshot, states, assignments, i);
    RankingReads(config, InputOf(snapshot), states);
    hide DirectScore, RankingFor, ScoredSet, DecidedBy, InputOf, Ahead, Snapshot.Valid, Config.Valid, WithinHold;
  }

  lemma RankingReads(config: Config, input: Input, states: States)
    requires config.Valid()
    ensures RankingFor(config, input, states).target == input.target
    ensures RankingFor(config, input, states).minimum == config.minimumTierScore
  {
  }

  /** What outranks a held candidate withstands its bonus. */
  lemma AheadWithstands(
      config: Config, snapshot: Snapshot, states: States, assignments: seq<Assignment>, i: nat, j: nat)
    requires config.Valid() && snapshot.Valid() && DecidedBy(config, snapshot, states, assignments)
    requires i < |assignments| == |snapshot.npcs| && j < |assignments|
    requires snapshot.npcs[i].npcId in states && states[snapshot.npcs[i].npcId].tier == Focused
    requires WithinHold(states[snapshot.npcs[i].npcId], snapshot.timestampMs, config)
    requires RankingFor(config, InputOf(snapshot), states).Outranks(
               ScoredNpc(config, snapshot.conversationTarget, snapshot.npcs[j]),
               ScoredNpc(config, snapshot.conversationTarget, snapshot.npcs[i]))
    ensures j != i && Withstands(config, snapshot, states, assignments, i, j)
  {
    var r := RankingFor(config, InputOf(snapshot), states);
    RankedAs(config, snapshot, states, assignments, i);
    RankedAs(config, snapshot, states, assignments, j);
    RankingReads(config, InputOf(snapshot), states);
    PreviousIs(config, InputOf(snapshot), states, ScoredNpc(config, snapshot.conversationTarget, snapshot.npcs[i]));
    var (c, d) := (
      ScoredNpc(config, snapshot.conversationTarget, snapshot.npcs[i]),
      ScoredNpc(config, snapshot.conversationTarget, snapshot.npcs[j]));
    OutranksStrict(r, d, c);
    OutranksByScore(r, d, c);
    HoldsItsBonus(config, states, snapshot.timestampMs, assignments[i]);
    hide DirectScore, RankingFor, ScoredSet, TierOf, DecidedBy, InputOf, Snapshot.Valid, Config.Valid, WithinHold,
         Ranking.Outranks, RankedBy, ScoredNpc;
  }

  lemma HoldsItsBonus(config: Config, states: States, timestamp: nat, a: Assignment)
    ensures a.npcId in states && states[a.npcId].tier == Focused && WithinHold(states[a.npcId], timestamp, config) ==>
              RankedBy(config, states, timestamp, a) == a.finalScore + config.focusedStickyBonus
  {
  }

  lemma OutranksByScore(r: Ranking, d: Scored, c: Scored)
    requires r.Outranks(d, c)
    ensures r.IsTarget(d) || (!r.IsTarget(c) && r.Score(d) >= r.Score(c))
    ensures r.Score(d) == r.Score(c) && r.IsTarget(d) == r.IsTarget(c) ==>
              PreviousPriority(r.Previous(d)) >= PreviousPriority(r.Previous(c))
  {
  }

  lemma PreviousIs(config: Config, input: Input, states: States, c: Scored)
    requires config.Valid() && c.Id() in states
    ensures RankingFor(config, input, states).Previous(c) == Some(states[c.Id()].tier)
  {
  }

  lemma HoldsAreHonoured(
      config: Config, snapshot: Snapshot, h: seq<Routed>, states: States, assignments: seq<Assignment>)
    requires config.Valid() && snapshot.Valid() && DecidedBy(config, snapshot, states, assignments)
    requires if h == [] then states == map[] else RemembersAll(h, states)
    ensures HoldsHonoured(config, snapshot, h, states, assignments)
  {
    assert |assignments| == |snapshot.npcs|;
    forall i: nat, at: nat |
      i < |assignments| && Holding(config, snapshot, h, assignments, i, at) && assignments[i].tier != Focused
      ensures FullTierAhead(config, snapshot, states, assignments, i)
    {
      assert RunBegan(h, snapshot.npcs[i].npcId, Focused, at);
      HoldKeepsFocus(config, snapshot, h, states, assignments, i, at);
    }
  }

  // ---- the Router ------------------------------------------------------------------

  const RESULT_SCHEMA_VERSION := "1.0"
  const RESULT_TYPE := "routing_result"

  function ResultFor(config: Config, snapshot: Snapshot, assignments: seq<Assignment>): Result {
    Result(
      RESULT_SCHEMA_VERSION, RESULT_TYPE,
      snapshot.sessionId, snapshot.worldId, snapshot.sequence, snapshot.timestampMs, assignments,
      Some(TierCounts(Tally(assignments, Focused), Tally(assignments, Reactive), Tally(assignments, Ambient))),
      Some(Diagnostics(config.focusedCapacity, config.reactiveCapacity, snapshot.candidateCount)))
  }

  /** The stages from scoring to selection compute the order-free decision. */
  method AssignmentsFor(config: Config, snapshot: Snapshot, states: States) returns (assignments: seq<Assignment>)
    requires config.Valid() && snapshot.Valid()
    ensures DecidedBy(config, snapshot, states, assignments)
  {
    var scored := ScoreSnapshot(config, snapshot);
    var direct := DirectScores(scored);
    DirectScoresAre(config, snapshot, scored, direct);
    var signals := StrongestSignals(config, direct, snapshot.edges);
    forall id ensures Look(signals, id) == SignalTo(config, InputOf(snapshot), id) {
      SignalsAre(config, direct, snapshot.edges, signals, id);
    }
    var scores := RankingScores(config, scored, signals, states, snapshot.timestampMs);
    RankingIs(config, snapshot, states, scored, signals, scores);
    var ranking := Ranking(snapshot.conversationTarget, PreviousTiers(states), scores, config.minimumTierScore);
    assignments := AssignTiers(scored, ranking, config, signals);
  }

  lemma {:induction false} EveryoneHasATier(assignments: seq<Assignment>, i: nat)
    requires i < |assignments|
    ensures assignments[i].npcId in TiersBy(assignments)
  {
    var n := |assignments| - 1;
    if i < n {
      EveryoneHasATier(assignments[..n], i);
    }
  }

  /** The recorded route has every assigned NPC in its assigned tier. */
  ghost predicate RecordsTiers(latest: Routed, assignments: seq<Assignment>) {
    forall i :: 0 <= i < |assignments| ==> RecordsTier(latest, assignments[i])
  }

  ghost predicate RecordsTier(latest: Routed, a: Assignment) {
    a.npcId in latest.tiers && latest.tiers[a.npcId] == a.tier
  }

  lemma {:induction false} TiersAreRecorded(snapshot: Snapshot, assignments: seq<Assignment>)
    requires snapshot.Valid() && |assignments| == |snapshot.npcs|
    requires forall i :: 0 <= i < |assignments| ==> assignments[i].npcId == snapshot.npcs[i].npcId
    requires forall n :: n in snapshot.npcs ==> n.npcId in TiersBy(assignments)
    ensures RecordsTiers(RoutedBy(snapshot, assignments), assignments)
  {
    LatestIs(snapshot, assignments);
    hide RoutedBy, TiersBy, NpcIds;
    forall i: nat | i < |assignments| ensures RecordsTier(RoutedBy(snapshot, assignments), assignments[i]) {
      IsRecorded(snapshot, assignments, i);
    }
  }

  lemma {:induction false} IsRecorded(snapshot: Snapshot, assignments: seq<Assignment>, i: nat)
    requires snapshot.Valid() && |assignments| == |snapshot.npcs| && i < |assignments|
    requires forall j :: 0 <= j < |assignments| ==> assignments[j].npcId == snapshot.npcs[j].npcId
    requires forall n :: n in snapshot.npcs ==> n.npcId in TiersBy(assignments)
    ensures RecordsTier(RoutedBy(snapshot, assignments), assignments[i])
  {
    LatestIs(snapshot, assignments);
    assert snapshot.npcs[i].npcId in NpcIds(snapshot.npcs);
    TiersByIs(assignments, i);
    hide RoutedBy, TiersBy, NpcIds;
  }

  class Router {
    const config: Config
    const state: RouterState

    ghost predicate Valid()
      reads this, state
    {
      config.Valid() && state.Valid()
    }

    constructor (config: Config)
      requires config.Valid()
      ensures Valid() && this.config == config && fresh(state) && state.lastSequences == map[] && state.history == map[]
    {
      this.config := config;
      state := new RouterState();
    }

    ghost predicate IsStale(snapshot: Snapshot)
      reads state
    {
      snapshot.Key() in state.lastSequences && snapshot.sequence < state.lastSequences[snapshot.Key()]
    }

    /** Refuses a stale snapshot; otherwise decides from the sets it was given and records the decision. */
    method Route(snapshot: Snapshot) returns (r: Option<Result>)
      requires Valid() && snapshot.Valid()
      modifies state
      ensures Valid()
      ensures r.None? <==> old(IsStale(snapshot))
      ensures r.None? ==> state.lastSequences == old(state.lastSequences) && state.history == old(state.history)
      ensures r.Some? ==> r.value == ResultFor(config, snapshot, r.value.assignments)
      ensures r.Some? ==>
                && r.value.schemaVersion == "1.0" && r.value.resultType == "routing_result"
                && r.value.sessionId == snapshot.sessionId && r.value.worldId == snapshot.worldId
                && r.value.sequence == snapshot.sequence && r.value.timestampMs == snapshot.timestampMs
      ensures r.Some? ==> DecidedBy(config, snapshot, old(state.NpcStates(snapshot.Key())), r.value.assignments)
      ensures r.Some? ==>
                HoldsHonoured(
                  config, snapshot, HistoryOf(old(state.history), snapshot.Key()),
                  old(state.NpcStates(snapshot.Key())), r.value.assignments)
      ensures r.Some? ==> forall i :: 0 <= i < |r.value.assignments| ==>
                var a := r.value.assignments[i]; a.changed <==> a.previousTier.Some? && a.previousTier != Some(a.tier)
      ensures r.Some? ==> state.lastSequences == old(state.lastSequences)[snapshot.Key() := snapshot.sequence]
      ensures r.Some? ==>
                && (forall n :: n in snapshot.npcs ==> n.npcId in TiersBy(r.value.assignments))
                && state.history == old(state.history)[snapshot.Key() :=
                     HistoryOf(old(state.history), snapshot.Key()) + [RoutedBy(snapshot, r.value.assignments)]]
      ensures r.Some? ==>
                var h := HistoryOf(state.history, snapshot.Key());
                h != [] && RecordsTiers(h[|h| - 1], r.value.assignments)
    {
      var last := state.LastSequence(snapshot.Key());
      if last.Some? && snapshot.sequence < last.value {
        return None;
      }
      assert !IsStale(snapshot);
      Recalled(state.lastSequences, state.npcStates, state.history, snapshot.Key());
      StateIs(snapshot.Key());
      hide *;
      var assignments := AssignmentsFor(config, snapshot, state.NpcStates(snapshot.Key()));
      DecisionHolds(
        config, snapshot, HistoryOf(state.history, snapshot.Key()), state.NpcStates(snapshot.Key()), assignments);
      ResultHolds(config, snapshot, assignments);
      r := Some(ResultFor(config, snapshot, assignments));
      assert state.Valid() by { StateIsValid(); }
      ghost var was := state.history;
      state.Record(snapshot, assignments);
      LastRecorded(was, state.history, snapshot.Key(), RoutedBy(snapshot, assignments));
      assert Valid() by { RouterIsValid(); }
    }

    lemma StateIs(key: Key)
      ensures state.NpcStates(key) == if key in state.npcStates then state.npcStates[key] else map[]
    {
    }

    lemma StateIsValid()
      requires Valid()
      ensures state.Valid()
    {
    }

    lemma RouterIsValid()
      requires config.Valid() && state.Valid()
      ensures Valid()
    {
    }

    /** Forgets one session. */
    method ResetSession(sessionId: string)
      requires Valid()
      modifies state
      ensures Valid()
      ensures state.history == map key | key in old(state.history) && key.0 != sessionId :: old(state.history)[key]
      ensures state.lastSequences == map key | key in old(state.lastSequences) && key.0 != sessionId :: old(state.lastSequences)[key]
    {
      state.ResetSession(sessionId);
    }
  }

  lemma LastRecorded(was: map<Key, seq<Routed>>, now: map<Key, seq<Routed>>, key: Key, latest: Routed)
    requires now == was[key := HistoryOf(was, key) + [latest]]
    ensures var h := HistoryOf(now, key); h != [] && h[|h| - 1] == latest
  {
  }

  /** What every decision on remembered states comes to, as far as recording and reporting it goes. */
  lemma DecisionHolds(config: Config, snapshot: Snapshot, h: seq<Routed>, states: States, assignments: seq<Assignment>)
    requires config.Valid() && snapshot.Valid() && DecidedBy(config, snapshot, states, assignments)
    requires if h == [] then states == map[] else RemembersAll(h, states)
    ensures forall n :: n in snapshot.npcs ==> n.npcId in TiersBy(assignments)
    ensures RecordsTiers(RoutedBy(snapshot, assignments), assignments)
    ensures HoldsHonoured(config, snapshot, h, states, assignments)
    ensures forall i :: 0 <= i < |assignments| ==>
              var a := assignments[i]; a.changed <==> a.previousTier.Some? && a.previousTier != Some(a.tier)
  {
    hide DecidedBy, RemembersAll, HoldsHonoured, TiersBy, RecordsTiers, RoutedBy, Config.Valid;
    NamesFollow(config, snapshot, states, assignments);
    forall n | n in snapshot.npcs ensures n.npcId in TiersBy(assignments) {
      var i :| 0 <= i < |snapshot.npcs| && snapshot.npcs[i] == n;
      EveryoneHasATier(assignments, i);
    }
    TiersAreRecorded(snapshot, assignments);
    ChangesAreHonest(config, snapshot, states, assignments);
    HoldsAreHonoured(config, snapshot, h, states, assignments);
  }

  lemma ResultHolds(config: Config, snapshot: Snapshot, assignments: seq<Assignment>)
    ensures var r := ResultFor(config, snapshot, assignments);
      && r.assignments == assignments && r.schemaVersion == "1.0" && r.resultType == "routing_result"
      && r.sessionId == snapshot.sessionId && r.worldId == snapshot.worldId
      && r.sequence == snapshot.sequence && r.timestampMs == snapshot.timestampMs
  {
  }

  lemma ChangesAreHonest(config: Config, snapshot: Snapshot, states: States, assignments: seq<Assignment>)
    requires config.Valid() && snapshot.Valid() && DecidedBy(config, snapshot, states, assignments)
    ensures forall i :: 0 <= i < |assignments| ==>
              var a := assignments[i]; a.changed <==> a.previousTier.Some? && a.previousTier != Some(a.tier)
  {
    hide DecidedBy;
    forall i | 0 <= i < |assignments| ensures HonestChange(assignments[i]) {
      ResultsReport(config, snapshot, states, assignments, i);
    }
  }

  lemma NamesFollow(config: Config, snapshot: Snapshot, states: States, assignments: seq<Assignment>)
    requires config.Valid() && DecidedBy(config, snapshot, states, assignments)
    ensures |assignments| == |snapshot.npcs|
    ensures forall i :: 0 <= i < |assignments| ==> assignments[i].npcId == snapshot.npcs[i].npcId
  {
    hide DirectScore, SignalTo, RankingFor, ScoredSet, TierOf;
    forall i | 0 <= i < |assignments| ensures assignments[i].npcId == snapshot.npcs[i].npcId {
      assert assignments[i] == Decision(config, InputOf(snapshot), states, snapshot.npcs[i]);
    }
  }

  // ---- what a decision promises ----------------------------------------------------

  /** Permuting candidates or edges permutes the assignments and changes none of them. */
  lemma OrderDoesNotMatter(
      config: Config, a: Snapshot, b: Snapshot, states: States, ra: seq<Assignment>, rb: seq<Assignment>)
    requires config.Valid() && DecidedBy(config, a, states, ra) && DecidedBy(config, b, states, rb)
    requires a.NpcSet() == b.NpcSet() && a.EdgeSet() == b.EdgeSet()
    requires a.conversationTarget == b.conversationTarget && a.timestampMs == b.timestampMs
    ensures forall i, j :: 0 <= i < |a.npcs| && 0 <= j < |b.npcs| && a.npcs[i] == b.npcs[j] ==> ra[i] == rb[j]
    ensures (set x | x in ra) == (set x | x in rb)
  {
    assert InputOf(a) == InputOf(b);
    hide Decision;
    forall i | 0 <= i < |a.npcs| ensures ra[i] in rb {
      assert a.npcs[i] in b.NpcSet();
      var j :| 0 <= j < |b.npcs| && b.npcs[j] == a.npcs[i];
      assert rb[j] == ra[i];
    }
    forall j | 0 <= j < |b.npcs| ensures rb[j] in ra {
      assert b.npcs[j] in a.NpcSet();
      var i :| 0 <= i < |a.npcs| && a.npcs[i] == b.npcs[j];
      assert ra[i] == rb[j];
    }
  }

  /** The reported counts: Focused holds as many of the candidates worth a tier as it has room for,
      Reactive as many of the rest, and the three sum to the candidates. */
  lemma CountsAreTrue(config: Config, snapshot: Snapshot, states: States, assignments: seq<Assignment>)
    requires config.Valid() && snapshot.Valid() && DecidedBy(config, snapshot, states, assignments)
    ensures var e := |Worthy(config, snapshot, states, assignments)|;
            var f := Smaller(config.focusedCapacity, e);
            && Tally(assignments, Focused) == f
            && Tally(assignments, Reactive) == Smaller(config.reactiveCapacity, e - f)
            && Tally(assignments, Focused) + Tally(assignments, Reactive) + Tally(assignments, Ambient) == snapshot.candidateCount
    ensures forall i :: 0 <= i < |assignments| && assignments[i].tier != Ambient ==>
              i in Worthy(config, snapshot, states, assignments)
  {
    EligibleCounts(config, snapshot, states, assignments);
    WorthyIsEligible(config, snapshot, states, assignments);
    hide Worthy, EligibleIn, RankingFor, ScoredSet;
  }

  lemma WorthyIs(config: Config, snapshot: Snapshot, states: States, assignments: seq<Assignment>, i: nat)
    requires config.Valid() && snapshot.Valid() && DecidedBy(config, snapshot, states, assignments)
    requires i < |assignments| == |snapshot.npcs|
    ensures var r := RankingFor(config, InputOf(snapshot), states);
            var c := ScoredNpc(config, snapshot.conversationTarget, snapshot.npcs[i]);
            && (i in Worthy(config, snapshot, states, assignments) <==> r.Eligible(c))
            && (assignments[i].tier != Ambient ==> r.Eligible(c))
            && c in ScoredSet(config, InputOf(snapshot))
  {
    RankedAs(config, snapshot, states, assignments, i);
    RankingReads(config, InputOf(snapshot), states);
    assert snapshot.npcs[i] in snapshot.NpcSet();
    hide DirectScore, RankingFor, RankedBy, DecidedBy, Snapshot.Valid, Config.Valid, Ahead;
  }

  lemma WorthyIsEligible(config: Config, snapshot: Snapshot, states: States, assignments: seq<Assignment>)
    requires config.Valid() && snapshot.Valid() && DecidedBy(config, snapshot, states, assignments)
    ensures |assignments| == |snapshot.npcs|
    ensures |Worthy(config, snapshot, states, assignments)| ==
              |EligibleIn(RankingFor(config, InputOf(snapshot), states), ScoredSet(config, InputOf(snapshot)))|
    ensures forall i :: 0 <= i < |assignments| && assignments[i].tier != Ambient ==>
              i in Worthy(config, snapshot, states, assignments)
  {
    var r := RankingFor(config, InputOf(snapshot), states);
    var all := ScoredSet(config, InputOf(snapshot));
    var scored := seq(|snapshot.npcs|, i requires 0 <= i < |snapshot.npcs| =>
      ScoredNpc(config, snapshot.conversationTarget, snapshot.npcs[i]));
    SameMembers(config, snapshot, scored);
    var worthy := Worthy(config, snapshot, states, assignments);
    forall i: nat | i < |assignments|
      ensures i in worthy <==> r.Eligible(scored[i])
      ensures assignments[i].tier != Ambient ==> i in worthy
    {
      WorthyIs(config, snapshot, states, assignments, i);
    }
    assert forall i, j :: 0 <= i < j < |scored| ==> scored[i] != scored[j];
    hide DirectScore, RankingFor, DecidedBy, Worthy;
    assert forall i :: i in worthy ==> i < |scored|;
    PositionsCount(scored, worthy, EligibleIn(r, all));
  }

  lemma {:induction false} PositionsCount(scored: seq<Scored>, at: set<nat>, chosen: set<Scored>)
    requires forall i, j :: 0 <= i < j < |scored| ==> scored[i] != scored[j]
    requires forall i: nat :: i in at <==> i < |scored| && scored[i] in chosen
    requires chosen <= Members(scored)
    ensures |at| == |chosen|
    decreases |chosen|
  {
    if chosen == {} {
      assert at == {};
    } else {
      var c :| c in chosen;
      assert c in Members(scored);
      var j: nat :| j < |scored| && scored[j] == c;
      forall i: nat ensures i in at - {j} <==> i < |scored| && scored[i] in chosen - {c} {
        if i < |scored| && i != j {
          assert scored[i] != c;
        }
      }
      PositionsCount(scored, at - {j}, chosen - {c});
    }
  }

  lemma EligibleCounts(config: Config, snapshot: Snapshot, states: States, assignments: seq<Assignment>)
    requires config.Valid() && snapshot.Valid() && DecidedBy(config, snapshot, states, assignments)
    ensures var r := RankingFor(config, InputOf(snapshot), states);
            var e := |EligibleIn(r, ScoredSet(config, InputOf(snapshot)))|;
            var f := Smaller(config.focusedCapacity, e);
            && Tally(assignments, Focused) == f
            && Tally(assignments, Reactive) == Smaller(config.reactiveCapacity, e - f)
            && Tally(assignments, Focused) + Tally(assignments, Reactive) + Tally(assignments, Ambient) == snapshot.candidateCount
  {
    var input := InputOf(snapshot);
    var r := RankingFor(config, input, states);
    var scored := seq(|snapshot.npcs|, i requires 0 <= i < |snapshot.npcs| => ScoredNpc(config, input.target, snapshot.npcs[i]));
    SameMembers(config, snapshot, scored);
    TallyAll(assignments);
    hide DirectScore, RankingFor, SignalTo, Tally;
    forall i | 0 <= i < |scored| ensures assignments[i].tier == TierOf(r, config, Members(scored), scored[i]) {
      assert assignments[i] == Decision(config, input, states, snapshot.npcs[i]);
    }
    TiersAreFull(r, config, scored);
    hide TierOf;
    TallyIsSize(scored, assignments, Focused, InTier(r, config, Members(scored), Focused));
    TallyIsSize(scored, assignments, Reactive, InTier(r, config, Members(scored), Reactive));
  }
}
