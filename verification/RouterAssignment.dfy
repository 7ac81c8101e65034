/** Ranking and selection under hard capacity limits. */
module RouterAssignment {
  import opened GenerationWork
  import opened Numbers
  import opened RouterTypes
  import opened RouterScoring

  datatype Scored = Scored(npc: Npc, direct: real) {
    function Id(): string { npc.npcId }
  }

  function PreviousPriority(tier: Option<Tier>): int {
    match tier
    case None => -1
    case Some(Ambient) => 0
    case Some(Reactive) => 1
    case Some(Focused) => 2
  }

  /** What the rank key reads besides the candidate itself. */
  datatype Ranking = Ranking(
    target: Option<string>, previousTiers: map<string, Tier>, scores: Scores, minimum: real)
  {
    function Score(c: Scored): real {
      if c.Id() in scores then scores[c.Id()] else c.direct
    }

    function Previous(c: Scored): Option<Tier> {
      if c.Id() in previousTiers then Some(previousTiers[c.Id()]) else None
    }

    predicate IsTarget(c: Scored) {
      target == Some(c.Id())
    }

    predicate Eligible(c: Scored) {
      Score(c) > minimum || IsTarget(c)
    }

    /** The rank key of `a` comes strictly before the one of `b`. */
    predicate Outranks(a: Scored, b: Scored) {
      var pa, pb := PreviousPriority(Previous(a)), PreviousPriority(Previous(b));
      if IsTarget(a) != IsTarget(b) then IsTarget(a)
      else if Score(a) != Score(b) then Score(a) > Score(b)
      else if pa != pb then pa > pb
      else if a.npc.worldDistance != b.npc.worldDistance then a.npc.worldDistance < b.npc.worldDistance
      else TextLess(a.Id(), b.Id())
    }
  }

  lemma OutranksStrict(r: Ranking, a: Scored, b: Scored)
    ensures !(r.Outranks(a, b) && r.Outranks(b, a))
    ensures !r.Outranks(a, a)
    ensures a.Id() != b.Id() ==> r.Outranks(a, b) || r.Outranks(b, a)
  {
    TextTrichotomy(a.Id(), b.Id());
  }

  lemma OutranksTransitive(r: Ranking, a: Scored, b: Scored, c: Scored)
    requires r.Outranks(a, b) && r.Outranks(b, c)
    ensures r.Outranks(a, c)
  {
    if TextLess(a.Id(), b.Id()) && TextLess(b.Id(), c.Id()) {
      TextTransitive(a.Id(), b.Id(), c.Id());
    }
  }

  ghost predicate DistinctIds(s: seq<Scored>) {
    forall i, j :: 0 <= i < j < |s| ==> s[i].Id() != s[j].Id()
  }

  ghost function Members(s: seq<Scored>): set<Scored> {
    set c | c in s
  }

  // ---- the decision, as a function of the set of candidates ------------------------

  ghost function Ahead(r: Ranking, all: set<Scored>, c: Scored): set<Scored> {
    set d | d in all && r.Eligible(d) && r.Outranks(d, c)
  }

  /** The greedy optimum: how many eligible candidates outrank `c` decides its tier. */
  ghost function TierOf(r: Ranking, config: Config, all: set<Scored>, c: Scored): Tier {
    if !r.Eligible(c) then Ambient
    else if |Ahead(r, all, c)| < config.focusedCapacity then Focused
    else if |Ahead(r, all, c)| < config.focusedCapacity + config.reactiveCapacity then Reactive
    else Ambient
  }

  // ---- sorting --------------------------------------------------------------------

  ghost predicate InOrder(r: Ranking, s: seq<Scored>) {
    forall i, j :: 0 <= i < j < |s| ==> r.Outranks(s[i], s[j])
  }

  function Insert(r: Ranking, c: Scored, s: seq<Scored>): seq<Scored> {
    if s == [] then [c]
    else if r.Outranks(s[0], c) then [s[0]] + Insert(r, c, s[1..])
    else [c] + s
  }

  function Ranked(r: Ranking, s: seq<Scored>): seq<Scored> {
    if s == [] then [] else Insert(r, s[0], Ranked(r, s[1..]))
  }

  lemma {:induction false} InsertMembers(r: Ranking, c: Scored, s: seq<Scored>)
    ensures Members(Insert(r, c, s)) == Members(s) + {c}
  {
    if s != [] && r.Outranks(s[0], c) {
      InsertMembers(r, c, s[1..]);
      assert Members(s) == Members(s[1..]) + {s[0]};
      var rest := Insert(r, c, s[1..]);
      assert Members([s[0]] + rest) == {s[0]} + Members(rest);
    }
  }

  lemma {:induction false} InsertInOrder(r: Ranking, c: Scored, s: seq<Scored>)
    requires InOrder(r, s) && forall d :: d in s ==> d.Id() != c.Id()
    ensures InOrder(r, Insert(r, c, s))
  {
    if s != [] {
      OutranksStrict(r, c, s[0]);
      if r.Outranks(s[0], c) {
        InsertInOrder(r, c, s[1..]);
        InsertMembers(r, c, s[1..]);
        var rest := Insert(r, c, s[1..]);
        forall j | 0 <= j < |rest| ensures r.Outranks(s[0], rest[j]) {
          assert rest[j] in Members(rest);
        }
      } else {
        forall j | 1 <= j < |s| ensures r.Outranks(c, s[j]) {
          OutranksTransitive(r, c, s[0], s[j]);
        }
      }
    }
  }

  lemma {:induction false} RankedIsRanking(r: Ranking, s: seq<Scored>)
    requires DistinctIds(s)
    ensures Members(Ranked(r, s)) == Members(s) && InOrder(r, Ranked(r, s))
  {
    if s != [] {
      RankedIsRanking(r, s[1..]);
      var rest := Ranked(r, s[1..]);
      forall d | d in rest ensures d.Id() != s[0].Id() {
        assert d in Members(rest);
      }
      InsertMembers(r, s[0], rest);
      InsertInOrder(r, s[0], rest);
      assert Members(s) == Members(s[1..]) + {s[0]};
    }
  }

  function EligibleOnly(r: Ranking, s: seq<Scored>): seq<Scored> {
    if s == [] then []
    else (if r.Eligible(s[0]) then [s[0]] else []) + EligibleOnly(r, s[1..])
  }

  lemma {:induction false} EligibleMembers(r: Ranking, s: seq<Scored>)
    ensures Members(EligibleOnly(r, s)) == set c | c in s && r.Eligible(c)
  {
    if s != [] {
      EligibleMembers(r, s[1..]);
      var rest := EligibleOnly(r, s[1..]);
      forall c ensures c in EligibleOnly(r, s) <==> c in s && r.Eligible(c) {
        assert c in rest <==> c in Members(rest);
      }
    }
  }

  lemma {:induction false} EligibleInOrder(r: Ranking, s: seq<Scored>)
    requires InOrder(r, s)
    ensures InOrder(r, EligibleOnly(r, s))
  {
    if s != [] {
      EligibleInOrder(r, s[1..]);
      EligibleMembers(r, s[1..]);
      var rest := EligibleOnly(r, s[1..]);
      forall j | 0 <= j < |rest| ensures r.Outranks(s[0], rest[j]) {
        assert rest[j] in Members(rest);
      }
    }
  }

  ghost function Between(s: seq<Scored>, lo: nat, hi: nat): set<Scored>
    requires lo <= hi <= |s|
  {
    set i | lo <= i < hi :: s[i]
  }

  /** A position in the ranked eligible list is the number of eligible candidates ahead. */
  lemma PositionCountsAhead(r: Ranking, all: set<Scored>, eligible: seq<Scored>, i: nat)
    requires i < |eligible| && InOrder(r, eligible)
    requires Members(eligible) == set c | c in all && r.Eligible(c)
    ensures |Ahead(r, all, eligible[i])| == i
  {
    var c := eligible[i];
    forall d ensures d in Ahead(r, all, c) <==> d in Between(eligible, 0, i) {
      if d in Ahead(r, all, c) {
        assert d in Members(eligible);
        OutranksStrict(r, c, d);
      }
      if d in Between(eligible, 0, i) {
        assert d in Members(eligible);
      }
    }
    assert Ahead(r, all, c) == Between(eligible, 0, i);
    BlockSize(r, eligible, 0, i);
  }

  lemma {:induction false} BlockSize(r: Ranking, s: seq<Scored>, lo: nat, hi: nat)
    requires lo <= hi <= |s| && InOrder(r, s)
    ensures |Between(s, lo, hi)| == hi - lo
    decreases hi - lo
  {
    if lo < hi {
      BlockSize(r, s, lo, hi - 1);
      forall j | lo <= j < hi - 1 ensures s[j] != s[hi - 1] {
        OutranksStrict(r, s[j], s[hi - 1]);
      }
      assert Between(s, lo, hi) == Between(s, lo, hi - 1) + {s[hi - 1]};
    }
  }

  // ---- selection ------------------------------------------------------------------

  function Ids(s: seq<Scored>): set<string> {
    set c | c in s :: c.Id()
  }

  /** The eligible candidates, best first. */
  ghost predicate IsEligibleRanking(r: Ranking, all: seq<Scored>, eligible: seq<Scored>) {
    && InOrder(r, eligible) && DistinctIds(eligible)
    && Members(eligible) == set c | c in all && r.Eligible(c)
  }

  lemma EligibleRanking(r: Ranking, all: seq<Scored>)
    requires DistinctIds(all)
    ensures IsEligibleRanking(r, all, EligibleOnly(r, Ranked(r, all)))
  {
    RankedIsRanking(r, all);
    EligibleInOrder(r, Ranked(r, all));
    EligibleMembers(r, Ranked(r, all));
    var eligible := EligibleOnly(r, Ranked(r, all));
    forall c ensures c in Members(eligible) <==> c in all && r.Eligible(c) {
      assert c in Ranked(r, all) <==> c in Members(Ranked(r, all));
      assert c in Members(all) <==> c in all;
    }
    forall i, j | 0 <= i < j < |eligible| ensures eligible[i].Id() != eligible[j].Id() {
      assert eligible[i] in Members(eligible) && eligible[j] in Members(eligible);
      OutranksStrict(r, eligible[i], eligible[j]);
    }
  }

  lemma TargetLeads(r: Ranking, all: seq<Scored>, eligible: seq<Scored>)
    requires IsEligibleRanking(r, all, eligible) && r.target.Some? && r.target.value in Ids(all)
    ensures eligible != [] && r.IsTarget(eligible[0])
  {
    var c :| c in all && c.Id() == r.target.value;
    assert c in Members(eligible);
    var i :| 0 <= i < |eligible| && eligible[i] == c;
    if i > 0 {
      assert r.Outranks(eligible[0], c);
    }
  }

  ghost function IdsBetween(s: seq<Scored>, lo: nat, hi: nat): set<string>
    requires lo <= hi <= |s|
  {
    set i | lo <= i < hi :: s[i].Id()
  }

  lemma OneMoreId(s: seq<Scored>, lo: nat, i: nat)
    requires lo <= i < |s| && DistinctIds(s)
    ensures IdsBetween(s, lo, i + 1) == IdsBetween(s, lo, i) + {s[i].Id()}
    ensures s[i].Id() !in IdsBetween(s, lo, i)
  {
  }

  lemma NoIds(s: seq<Scored>, m: nat)
    requires m <= |s|
    ensures IdsBetween(s, m, m) == {}
  {
  }

  lemma InBlock(s: seq<Scored>, lo: nat, hi: nat, i: nat)
    requires lo <= hi <= |s| && i < |s| && DistinctIds(s)
    ensures s[i].Id() in IdsBetween(s, lo, hi) <==> lo <= i < hi
  {
  }

  lemma SmallerIs(a: nat, b: nat, n: nat)
    requires n <= a && n <= b && (n == a || n == b)
    ensures Smaller(a, b) == n
  {
  }

  /** Fills Focused from the front of the ranking, the conversation target already in place. */
  method FillFocused(candidates: seq<Scored>, eligible: seq<Scored>, r: Ranking, capacity: nat)
    returns (focused: set<string>)
    requires IsEligibleRanking(r, candidates, eligible)
    ensures focused == IdsBetween(eligible, 0, Smaller(capacity, |eligible|))
    ensures |focused| == Smaller(capacity, |eligible|)
  {
    focused := {};
    ghost var first := 0;
    NoIds(eligible, 0);
    if capacity > 0 && r.target.Some? && r.target.value in Ids(candidates) {
      focused := {r.target.value};
      TargetLeads(r, candidates, eligible);
      OneMoreId(eligible, 0, 0);
      first := 1;
    }
    assert DistinctIds(eligible);
    hide *;
    var i := 0;
    ghost var n := first;
    while i < |eligible| && |focused| < capacity
      invariant 0 <= i <= n <= |eligible| && n <= capacity && first <= 1
      invariant n == if i < first then first else i
      invariant first == 1 ==> n > 0 && eligible[0].Id() in focused
      invariant focused == IdsBetween(eligible, 0, n) && |focused| == n
    {
      if i == n {
        OneMoreId(eligible, 0, i);
        n := n + 1;
      } else {
        assert focused + {eligible[i].Id()} == focused;
      }
      focused := focused + {eligible[i].Id()};
      i := i + 1;
    }
    assert n == Smaller(capacity, |eligible|) by { SmallerIs(capacity, |eligible|, n); }
  }

  method FillReactive(eligible: seq<Scored>, focused: set<string>, taken: nat, capacity: nat)
    returns (reactive: set<string>)
    requires taken <= |eligible| && DistinctIds(eligible) && focused == IdsBetween(eligible, 0, taken)
    ensures reactive == IdsBetween(eligible, taken, Smaller(taken + capacity, |eligible|))
  {
    reactive := {};
    NoIds(eligible, taken);
    hide IdsBetween, DistinctIds;
    for i := 0 to |eligible|
      invariant reactive == IdsBetween(eligible, taken, Larger(i, taken))
      invariant |reactive| == Larger(i, taken) - taken <= capacity
    {
      if i >= taken {
        OneMoreId(eligible, taken, i);
      }
      InBlock(eligible, 0, taken, i);
      if eligible[i].Id() !in focused {
        if |reactive| >= capacity {
          break;
        }
        reactive := reactive + {eligible[i].Id()};
      }
    }
  }

  lemma SelectedByPosition(
      r: Ranking, config: Config, all: seq<Scored>, eligible: seq<Scored>, focused: set<string>, reactive: set<string>, c: Scored)
    requires DistinctIds(all) && IsEligibleRanking(r, all, eligible) && c in all
    requires var m := Smaller(config.focusedCapacity, |eligible|);
             && focused == IdsBetween(eligible, 0, m)
             && reactive == IdsBetween(eligible, m, Smaller(m + config.reactiveCapacity, |eligible|))
    ensures c.Id() in focused <==> TierOf(r, config, Members(all), c) == Focused
    ensures c.Id() in reactive <==> TierOf(r, config, Members(all), c) == Reactive
  {
    assert forall d :: d in Members(eligible) <==> d in all && r.Eligible(d);
    assert (set d | d in Members(all) && r.Eligible(d)) == Members(eligible);
    if r.Eligible(c) {
      assert c in Members(eligible);
      var i :| 0 <= i < |eligible| && eligible[i] == c;
      PositionCountsAhead(r, Members(all), eligible, i);
      InBlock(eligible, 0, Smaller(config.focusedCapacity, |eligible|), i);
      var m := Smaller(config.focusedCapacity, |eligible|);
      InBlock(eligible, m, Smaller(m + config.reactiveCapacity, |eligible|), i);
    } else {
      forall d | d in eligible ensures d.Id() != c.Id() {
        assert d in Members(eligible);
      }
    }
  }

  // ---- assignments ----------------------------------------------------------------

  /** The whole decision for one candidate, read off the set of candidates. */
  ghost function Decide(r: Ranking, config: Config, all: set<Scored>, signal: Option<Signal>, c: Scored): Assignment {
    Stated(r, signal, c, TierOf(r, config, all, c))
  }

  function Stated(r: Ranking, signal: Option<Signal>, c: Scored, tier: Tier): Assignment {
    Assignment(
      c.Id(), tier, r.Previous(c), r.Previous(c).Some? && r.Previous(c) != Some(tier),
      c.direct, Propagated(signal), Final(c.direct, signal), HeardFrom(c.direct, signal))
  }

  /** The change flag is set exactly when the candidate is known to have had another tier. */
  predicate HonestChange(a: Assignment) {
    a.changed <==> a.previousTier.Some? && a.previousTier != Some(a.tier)
  }

  lemma StatedReports(r: Ranking, signals: map<string, Signal>, c: Scored, tier: Tier)
    ensures var a := Stated(r, Look(signals, c.Id()), c, tier); Reports(r, signals, c, a) && HonestChange(a)
  {
  }

  /** What an assignment says of its candidate besides that: who it is, the tier it had before, and
      what its score is made of. */
  ghost predicate Reports(r: Ranking, signals: map<string, Signal>, c: Scored, a: Assignment) {
    && a.npcId == c.npc.npcId && a.directScore == c.direct
    && (a.previousTier.Some? <==> a.npcId in r.previousTiers)
    && (a.previousTier.Some? ==> a.previousTier.value == r.previousTiers[a.npcId])
    && (a.propagatedScore == if a.npcId in signals then signals[a.npcId].strength else 0.0)
    && a.finalScore >= a.directScore && a.finalScore >= a.propagatedScore
    && (a.finalScore == a.directScore || a.finalScore == a.propagatedScore)
    && (a.heardFrom.Some? <==> a.npcId in signals && a.propagatedScore > a.directScore)
    && (a.heardFrom.Some? ==> a.heardFrom.value == signals[a.npcId].source)
  }

  /** Sorting and two greedy loops give every candidate the tier its rank earns, in source order. */
  method AssignTiers(candidates: seq<Scored>, r: Ranking, config: Config, signals: map<string, Signal>)
    returns (assignments: seq<Assignment>)
    requires DistinctIds(candidates)
    ensures |assignments| == |candidates|
    ensures forall i :: 0 <= i < |candidates| ==>
              assignments[i] == Decide(r, config, Members(candidates), Look(signals, candidates[i].Id()), candidates[i])
    ensures forall i :: 0 <= i < |candidates| ==>
              Reports(r, signals, candidates[i], assignments[i]) && HonestChange(assignments[i])
  {
    var eligible := EligibleOnly(r, Ranked(r, candidates));
    EligibleRanking(r, candidates);
    var focused := FillFocused(candidates, eligible, r, config.focusedCapacity);
    var reactive := FillReactive(eligible, focused, |focused|, config.reactiveCapacity);
    assignments := [];
    for k := 0 to |candidates|
      invariant |assignments| == k
      invariant forall i :: 0 <= i < k ==>
                  assignments[i] == Decide(r, config, Members(candidates), Look(signals, candidates[i].Id()), candidates[i])
      invariant forall i :: 0 <= i < k ==> Reports(r, signals, candidates[i], assignments[i]) && HonestChange(assignments[i])
    {
      var candidate := candidates[k];
      var tier := if candidate.Id() in focused then Focused else if candidate.Id() in reactive then Reactive else Ambient;
      SelectedByPosition(r, config, candidates, eligible, focused, reactive, candidate);
      StatedReports(r, signals, candidate, tier);
      hide Reports, HonestChange, Stated, TierOf, IsEligibleRanking;
      assignments := assignments + [Stated(r, Look(signals, candidate.Id()), candidate, tier)];
    }
  }

  // ---- what the selection promises -------------------------------------------------

  ghost function EligibleIn(r: Ranking, all: set<Scored>): set<Scored> {
    set c | c in all && r.Eligible(c)
  }

  ghost function InTier(r: Ranking, config: Config, all: set<Scored>, tier: Tier): set<Scored> {
    set c | c in all && TierOf(r, config, all, c) == tier
  }

  /** Both tiers are filled exactly as far as capacity and eligibility allow. */
  lemma TiersAreFull(r: Ranking, config: Config, all: seq<Scored>)
    requires DistinctIds(all)
    ensures var e := |EligibleIn(r, Members(all))|; var f := Smaller(config.focusedCapacity, e);
            && |InTier(r, config, Members(all), Focused)| == f
            && |InTier(r, config, Members(all), Reactive)| == Smaller(config.reactiveCapacity, e - f)
  {
    var eligible := EligibleOnly(r, Ranked(r, all));
    EligibleRanking(r, all);
    BlockSize(r, eligible, 0, |eligible|);
    assert Between(eligible, 0, |eligible|) == Members(eligible) == EligibleIn(r, Members(all));
    var m := Smaller(config.focusedCapacity, |eligible|);
    var n := Smaller(m + config.reactiveCapacity, |eligible|);
    forall c | c in eligible ensures c in all {
      assert c in Members(eligible);
    }
    forall c | c in all
      ensures TierOf(r, config, Members(all), c) == Focused <==> c in Between(eligible, 0, m)
      ensures TierOf(r, config, Members(all), c) == Reactive <==> c in Between(eligible, m, n)
    {
      SelectedByPosition(r, config, all, eligible, IdsBetween(eligible, 0, m), IdsBetween(eligible, m, n), c);
      IdDecides(all, eligible, 0, m, c);
      IdDecides(all, eligible, m, n, c);
    }
    assert InTier(r, config, Members(all), Focused) == Between(eligible, 0, m);
    assert InTier(r, config, Members(all), Reactive) == Between(eligible, m, n);
    BlockSize(r, eligible, 0, m);
    BlockSize(r, eligible, m, n);
  }

  lemma IdDecides(all: seq<Scored>, eligible: seq<Scored>, lo: nat, hi: nat, c: Scored)
    requires DistinctIds(all) && c in all && lo <= hi <= |eligible|
    requires forall d :: d in eligible ==> d in all
    ensures c.Id() in IdsBetween(eligible, lo, hi) <==> c in Between(eligible, lo, hi)
  {
    if c.Id() in IdsBetween(eligible, lo, hi) {
      var i :| lo <= i < hi && eligible[i].Id() == c.Id();
      assert eligible[i] in all;
    }
  }

  function TierRank(t: Tier): nat {
    match t case Ambient => 0 case Reactive => 1 case Focused => 2
  }

  /** No candidate is placed below one it outranks. */
  lemma NoInversion(r: Ranking, config: Config, all: set<Scored>, c: Scored, d: Scored)
    requires c in all && d in all && r.Outranks(c, d)
    ensures TierRank(TierOf(r, config, all, c)) >= TierRank(TierOf(r, config, all, d))
  {
    forall e | e in Ahead(r, all, c) ensures e in Ahead(r, all, d) {
      OutranksTransitive(r, e, c, d);
    }
    Fewer(Ahead(r, all, c), Ahead(r, all, d));
  }

  /** What comes first in the ranking: the conversation target, the greater score, the higher tier
      before, the smaller distance, the name that comes first. */
  ghost predicate Better(r: Ranking, c: Scored, d: Scored) {
    if r.target == Some(c.npc.npcId) || r.target == Some(d.npc.npcId) then r.target == Some(c.npc.npcId) && c.npc.npcId != d.npc.npcId
    else if r.Score(c) != r.Score(d) then r.Score(c) > r.Score(d)
    else if r.Previous(c) != r.Previous(d) then Above(r.Previous(c), r.Previous(d))
    else if c.npc.worldDistance != d.npc.worldDistance then c.npc.worldDistance < d.npc.worldDistance
    else TextLess(c.npc.npcId, d.npc.npcId)
  }

  ghost predicate Above(a: Option<Tier>, b: Option<Tier>) {
    || (a == Some(Focused) && b != Some(Focused))
    || (a == Some(Reactive) && (b == Some(Ambient) || b == None))
    || (a == Some(Ambient) && b == None)
  }

  /** Whoever comes first is not placed lower. */
  lemma BetterIsNotLower(r: Ranking, config: Config, all: set<Scored>, c: Scored, d: Scored)
    requires c in all && d in all && Better(r, c, d)
    ensures TierOf(r, config, all, d) == Focused ==> TierOf(r, config, all, c) == Focused
    ensures TierOf(r, config, all, d) == Reactive ==> TierOf(r, config, all, c) != Ambient
  {
    NoInversion(r, config, all, c, d);
    hide TierOf;
  }

  lemma Fewer<T>(a: set<T>, b: set<T>)
    requires a <= b
    ensures |a| <= |b|
  {
    assert b == a + (b - a);
  }

  /** A candidate that is the conversation target is Focused whenever Focused has any room. */
  lemma TargetIsFocused(r: Ranking, config: Config, all: set<Scored>, c: Scored)
    requires c in all && r.IsTarget(c) && config.focusedCapacity > 0
    requires forall d :: d in all && d.Id() == c.Id() ==> d == c
    ensures TierOf(r, config, all, c) == Focused
  {
    OutranksStrict(r, c, c);
    assert Ahead(r, all, c) == {};
  }

  /** Raising one candidate's ranking score, and nothing else, never lowers its tier. */
  lemma RaisingNeverLowers(r: Ranking, config: Config, all: set<Scored>, c: Scored, score: real)
    requires c in all && score >= r.Score(c)
    requires forall d :: d in all && d.Id() == c.Id() ==> d == c
    ensures var raised := r.(scores := r.scores[c.Id() := score]);
            TierRank(TierOf(raised, config, all, c)) >= TierRank(TierOf(r, config, all, c))
  {
    var raised := r.(scores := r.scores[c.Id() := score]);
    OutranksStrict(r, c, c);
    OutranksStrict(raised, c, c);
    forall d | d in Ahead(raised, all, c) ensures d in Ahead(r, all, c) {
      assert d.Id() != c.Id();
      assert raised.Score(d) == r.Score(d);
    }
    Fewer(Ahead(raised, all, c), Ahead(r, all, c));
  }
}
