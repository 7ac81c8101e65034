/** The handoff: one Router call at a time, newest snapshot per session and world, results checked. */
module RouterHandoffs {
  import opened GenerationWork
  import opened RouterTypes
  import opened RouterScoring
  import opened RouterAssignment
  import opened RouterStates
  import opened Routers

  // ---- judging a result ------------------------------------------------------------

  datatype Rejection =
    | SchemaVersion | ResultType | OtherSessionOrWorld | OtherTimestamp
    | NotACandidate(id: string) | AssignedTwice(id: string) | Omitted(ids: set<string>)
    | CountsDiffer(tier: Tier) | CountsSum | OverCapacity(tier: Tier)

  function CountOf(counts: TierCounts, tier: Tier): nat {
    match tier case Focused => counts.focused case Reactive => counts.reactive case Ambient => counts.ambient
  }

  function Total(counts: TierCounts): nat {
    counts.focused + counts.reactive + counts.ambient
  }

  ghost predicate CountsHold(result: Result) {
    result.counts.Some? ==>
      var counts := result.counts.value;
      && counts.focused == Tally(result.assignments, Focused) && counts.reactive == Tally(result.assignments, Reactive)
      && counts.ambient == Tally(result.assignments, Ambient)
      && (result.diagnostics.Some? ==>
            counts.focused + counts.reactive + counts.ambient == result.diagnostics.value.candidateCount)
  }

  ghost predicate CapacitiesHold(result: Result) {
    result.diagnostics.Some? ==>
      && Tally(result.assignments, Focused) <= result.diagnostics.value.focusedCapacity
      && Tally(result.assignments, Reactive) <= result.diagnostics.value.reactiveCapacity
  }

  ghost predicate OncePerCandidate(assignments: seq<Assignment>, npcs: seq<Npc>) {
    && (forall i, j :: 0 <= i < j < |assignments| ==> assignments[i].npcId != assignments[j].npcId)
    && (set a | a in assignments :: a.npcId) == NpcIds(npcs)
  }

  /** A result that answers this snapshot and agrees with itself. */
  ghost predicate Acceptable(result: Result, snapshot: Snapshot) {
    && result.schemaVersion == RESULT_SCHEMA_VERSION && result.resultType == RESULT_TYPE
    && (result.sessionId, result.worldId) == snapshot.Key()
    && result.timestampMs == snapshot.timestampMs
    && OncePerCandidate(result.assignments, snapshot.npcs)
    && CountsHold(result) && CapacitiesHold(result)
  }

  ghost predicate Truthful(r: Rejection, result: Result, snapshot: Snapshot) {
    match r
    case SchemaVersion => result.schemaVersion != RESULT_SCHEMA_VERSION
    case ResultType => result.resultType != RESULT_TYPE
    case OtherSessionOrWorld => (result.sessionId, result.worldId) != snapshot.Key()
    case OtherTimestamp => result.timestampMs != snapshot.timestampMs
    case NotACandidate(id) => id !in NpcIds(snapshot.npcs) && exists a :: a in result.assignments && a.npcId == id
    case AssignedTwice(id) =>
      exists i, j :: 0 <= i < j < |result.assignments| && result.assignments[i].npcId == result.assignments[j].npcId == id
    case Omitted(ids) => ids != {} && ids <= NpcIds(snapshot.npcs) && forall a :: a in result.assignments ==> a.npcId !in ids
    case CountsDiffer(tier) => result.counts.Some? && CountOf(result.counts.value, tier) != Tally(result.assignments, tier)
    case CountsSum =>
      result.counts.Some? && result.diagnostics.Some? && Total(result.counts.value) != result.diagnostics.value.candidateCount
    case OverCapacity(tier) =>
      && result.diagnostics.Some? && tier != Ambient
      && Tally(result.assignments, tier) >
         if tier == Focused then result.diagnostics.value.focusedCapacity else result.diagnostics.value.reactiveCapacity
  }

  /** One pass over the assignments; every refusal names something that is really wrong. */
  method RejectAssignments(assignments: seq<Assignment>, candidateIds: set<string>) returns (r: Option<Rejection>)
    ensures r.None? <==>
            && (forall i, j :: 0 <= i < j < |assignments| ==> assignments[i].npcId != assignments[j].npcId)
            && (set a | a in assignments :: a.npcId) == candidateIds
    ensures r.Some? ==> (
              match r.value
              case NotACandidate(id) => id !in candidateIds && exists a :: a in assignments && a.npcId == id
              case AssignedTwice(id) =>
                exists i, j :: 0 <= i < j < |assignments| && assignments[i].npcId == assignments[j].npcId == id
              case Omitted(ids) => ids != {} && ids <= candidateIds && forall a :: a in assignments ==> a.npcId !in ids
              case _ => false)
  {
    var taken: set<string> := {};
    for i := 0 to |assignments|
      invariant taken == (set k | 0 <= k < i :: assignments[k].npcId)
      invariant taken <= candidateIds
      invariant forall k, l :: 0 <= k < l < i ==> assignments[k].npcId != assignments[l].npcId
    {
      var id := assignments[i].npcId;
      if id !in candidateIds {
        assert assignments[i] in assignments;
        return Some(NotACandidate(id));
      }
      if id in taken {
        return Some(AssignedTwice(id));
      }
      taken := taken + {id};
    }
    assert taken == (set a | a in assignments :: a.npcId);
    if candidateIds - taken != {} {
      return Some(Omitted(candidateIds - taken));
    }
    return None;
  }

  method RejectReportedTotals(result: Result) returns (r: Option<Rejection>)
    ensures r.None? <==> CountsHold(result) && CapacitiesHold(result)
    ensures r.Some? ==> (
              match r.value
              case CountsDiffer(tier) => result.counts.Some? && CountOf(result.counts.value, tier) != Tally(result.assignments, tier)
              case CountsSum =>
                && result.counts.Some? && result.diagnostics.Some?
                && Total(result.counts.value) != result.diagnostics.value.candidateCount
              case OverCapacity(tier) =>
                && result.diagnostics.Some? && tier != Ambient
                && Tally(result.assignments, tier) >
                   if tier == Focused then result.diagnostics.value.focusedCapacity else result.diagnostics.value.reactiveCapacity
              case _ => false)
  {
    if result.counts.Some? {
      var tiers := [Focused, Reactive, Ambient];
      for i := 0 to 3
        invariant forall k :: 0 <= k < i ==> CountOf(result.counts.value, tiers[k]) == Tally(result.assignments, tiers[k])
      {
        if CountOf(result.counts.value, tiers[i]) != Tally(result.assignments, tiers[i]) {
          return Some(CountsDiffer(tiers[i]));
        }
      }
      assert tiers[0] == Focused && tiers[1] == Reactive && tiers[2] == Ambient;
      if result.diagnostics.Some? && Total(result.counts.value) != result.diagnostics.value.candidateCount {
        return Some(CountsSum);
      }
    }
    if result.diagnostics.Some? {
      if Tally(result.assignments, Focused) > result.diagnostics.value.focusedCapacity {
        return Some(OverCapacity(Focused));
      }
      if Tally(result.assignments, Reactive) > result.diagnostics.value.reactiveCapacity {
        return Some(OverCapacity(Reactive));
      }
    }
    return None;
  }

  /** Nothing is refused exactly when the result is acceptable, and every refusal is true. */
  method RejectReason(result: Result, snapshot: Snapshot) returns (r: Option<Rejection>)
    ensures r.None? <==> Acceptable(result, snapshot)
    ensures r.Some? ==> Truthful(r.value, result, snapshot)
  {
    if result.schemaVersion != RESULT_SCHEMA_VERSION {
      return Some(SchemaVersion);
    }
    if result.resultType != RESULT_TYPE {
      return Some(ResultType);
    }
    if (result.sessionId, result.worldId) != snapshot.Key() {
      return Some(OtherSessionOrWorld);
    }
    if result.timestampMs != snapshot.timestampMs {
      return Some(OtherTimestamp);
    }
    r := RejectAssignments(result.assignments, set n | n in snapshot.npcs :: n.npcId);
    if r.None? {
      r := RejectReportedTotals(result);
    }
  }

  lemma NamesOncePerCandidate(snapshot: Snapshot, assignments: seq<Assignment>)
    requires snapshot.Valid() && |assignments| == |snapshot.npcs|
    requires forall i :: 0 <= i < |assignments| ==> assignments[i].npcId == snapshot.npcs[i].npcId
    ensures OncePerCandidate(assignments, snapshot.npcs)
  {
    forall id ensures id in (set a | a in assignments :: a.npcId) <==> id in NpcIds(snapshot.npcs) {
      if id in NpcIds(snapshot.npcs) {
        var i :| 0 <= i < |snapshot.npcs| && snapshot.npcs[i].npcId == id;
        assert assignments[i] in assignments;
      }
    }
  }

  lemma TotalsFollow(config: Config, snapshot: Snapshot, assignments: seq<Assignment>)
    requires Tally(assignments, Focused) <= config.focusedCapacity
    requires Tally(assignments, Reactive) <= config.reactiveCapacity
    requires Tally(assignments, Focused) + Tally(assignments, Reactive) + Tally(assignments, Ambient) == snapshot.candidateCount
    ensures CountsHold(ResultFor(config, snapshot, assignments)) && CapacitiesHold(ResultFor(config, snapshot, assignments))
  {
    hide Tally;
  }

  /** The real Router always answers acceptably. */
  lemma RouterIsAcceptable(config: Config, snapshot: Snapshot, states: States, assignments: seq<Assignment>)
    requires config.Valid() && snapshot.Valid() && DecidedBy(config, snapshot, states, assignments)
    ensures Acceptable(ResultFor(config, snapshot, assignments), snapshot)
  {
    hide DecidedBy, Tally, RankingFor, ScoredSet, InputOf, EligibleIn, CountsHold, CapacitiesHold, OncePerCandidate;
    CountsAreTrue(config, snapshot, states, assignments);
    NamesFollow(config, snapshot, states, assignments);
    NamesOncePerCandidate(snapshot, assignments);
    TotalsFollow(config, snapshot, assignments);
  }

  // ---- the handoff -----------------------------------------------------------------

  datatype Status = ROUTED | ROUTER_FAILED | INVALID_RESULT | STALE_RESULT

  datatype Outcome = Outcome(
    sessionId: string, worldId: string, sequence: nat, status: Status,
    assignments: seq<Assignment>, counts: Option<TierCounts>, diagnostics: Option<Diagnostics>)

  function Failed(snapshot: Snapshot, status: Status): Outcome {
    Outcome(snapshot.sessionId, snapshot.worldId, snapshot.sequence, status, [], None, None)
  }

  function Good(snapshot: Snapshot, result: Result): Outcome {
    Outcome(
      snapshot.sessionId, snapshot.worldId, snapshot.sequence, ROUTED,
      result.assignments, result.counts, result.diagnostics)
  }

  type Waiting = map<Key, Snapshot>
  type Sequences = map<Key, nat>

  function AtLeast(m: Sequences, key: Key, sequence: nat): bool {
    key in m && m[key] >= sequence
  }

  ghost predicate PendingOk(pending: Waiting) {
    forall key :: key in pending ==> pending[key].Valid() && pending[key].Key() == key
  }

  /** Every outcome is a successful one for the sequence last routed. */
  ghost predicate OutcomesOk(outcomes: map<Key, Outcome>, routed: Sequences) {
    && outcomes.Keys == routed.Keys
    && forall key :: key in outcomes ==>
         outcomes[key].status == ROUTED && outcomes[key].sequence == routed[key]
         && (outcomes[key].sessionId, outcomes[key].worldId) == key
  }

  /** Each submitted sequence was routed, overtaken by a newer one, or is covered by what waits. */
  ghost predicate NothingForgotten(asked: Sequences, routed: Sequences, pending: Waiting) {
    forall key :: key in asked ==>
      AtLeast(routed, key, asked[key]) || (key in pending && pending[key].sequence >= asked[key])
  }

  ghost predicate FlagsOk(idle: bool, submitted: bool, draining: bool, pending: Waiting) {
    && (idle ==> pending == map[] && !draining)
    && (!submitted && !draining ==> idle)
  }

  /** No key's routed sequence goes back, and no key is lost. */
  ghost predicate Advances(before: Sequences, after: Sequences) {
    forall key :: key in before ==> AtLeast(after, key, before[key])
  }

  /** The sequence was routed under its key, or found overtaken and left alone; no other key moved. */
  ghost predicate TookUp(
      routed: Sequences, outcomes: map<Key, Outcome>, routed': Sequences, outcomes': map<Key, Outcome>, key: Key, sequence: nat)
  {
    if key in routed && sequence < routed[key] then routed' == routed && outcomes' == outcomes
    else
      && routed' == routed[key := sequence]
      && key in outcomes' && outcomes' == outcomes[key := outcomes'[key]] && outcomes'[key].sequence == sequence
  }

  /** Once a sequence is routed, what waits under its key is newer; nothing else that waited is gone. */
  ghost predicate KeepsOnlyNewer(before: Waiting, after: Waiting, key: Key, sequence: nat) {
    && (key in after ==> after[key].sequence > sequence)
    && (forall k :: k in after ==> k in before && after[k] == before[k])
    && (forall k :: k in before && (k == key ==> before[k].sequence > sequence) ==> k in after)
  }

  function Raise(asked: Sequences, key: Key, sequence: nat): Sequences {
    if AtLeast(asked, key, sequence) then asked else asked[key := sequence]
  }

  class RouterHandoff {
    const router: Router
    var pending: Waiting
    var outcomes: map<Key, Outcome>
    var routedSequences: Sequences
    var submitted: bool
    var idle: bool
    /** The worker is past its wait, possibly suspended in a notification. */
    var draining: bool
    /** The highest sequence submitted for each key since its session was last reset. */
    ghost var asked: Sequences

    ghost predicate Valid()
      reads this, router, router.state
    {
      && router.Valid()
      && routedSequences == router.state.lastSequences
      && PendingOk(pending) && OutcomesOk(outcomes, routedSequences)
      && NothingForgotten(asked, routedSequences, pending)
      && FlagsOk(idle, submitted, draining, pending)
    }

    constructor (router: Router)
      requires router.Valid() && router.state.lastSequences == map[]
      ensures Valid() && this.router == router && idle && asked == map[]
    {
      this.router := router;
      pending, outcomes, routedSequences := map[], map[], map[];
      submitted, idle, draining, asked := false, true, false, map[];
    }

    /** Queues the snapshot unless one at least as new already waits. */
    method Submit(snapshot: Snapshot)
      requires Valid() && snapshot.Valid()
      modifies this
      ensures Valid()
      ensures outcomes == old(outcomes) && routedSequences == old(routedSequences)
      ensures asked == Raise(old(asked), snapshot.Key(), snapshot.sequence)
      ensures pending == var key := snapshot.Key();
                if key in old(pending) && old(pending)[key].sequence >= snapshot.sequence then old(pending)
                else old(pending)[key := snapshot]
      ensures !idle && submitted && draining == old(draining)
    {
      hide *;
      Unpack();
      SubmitKeeps(asked, routedSequences, pending, snapshot);
      var key := snapshot.Key();
      if key !in pending || pending[key].sequence < snapshot.sequence {
        pending := pending[key := snapshot];
      }
      idle := false;
      submitted := true;
      asked := Raise(asked, key, snapshot.sequence);
      assert FlagsOk(idle, submitted, draining, pending) by { AwakeIsOk(draining, pending); }
      Pack();
    }

    /** Calls the Router and checks its answer. Every failure branch is there; none is reachable. */
    method RouteSnapshot(snapshot: Snapshot) returns (outcome: Outcome)
      requires router.Valid() && snapshot.Valid() && !router.IsStale(snapshot)
      modifies router.state
      ensures router.Valid()
      ensures router.state.lastSequences == old(router.state.lastSequences)[snapshot.Key() := snapshot.sequence]
      ensures outcome.status == ROUTED && outcome.sequence == snapshot.sequence
      ensures (outcome.sessionId, outcome.worldId) == snapshot.Key()
      ensures DecidedBy(router.config, snapshot, old(router.state.NpcStates(snapshot.Key())), outcome.assignments)
      ensures outcome.counts == Some(TierCounts(
        Tally(outcome.assignments, Focused), Tally(outcome.assignments, Reactive), Tally(outcome.assignments, Ambient)))
      ensures outcome.diagnostics == Some(Diagnostics(
        router.config.focusedCapacity, router.config.reactiveCapacity, snapshot.candidateCount))
    {
      hide Faithful, Config.Valid, Snapshot.Valid, DecidedBy, Acceptable, Truthful;
      var result := router.Route(snapshot);
      if result.None? {
        outcome := Failed(snapshot, ROUTER_FAILED);
      } else if result.value.sequence != snapshot.sequence {
        outcome := Failed(snapshot, STALE_RESULT);
      } else {
        var rejection := RejectReason(result.value, snapshot);
        RouterIsAcceptable(router.config, snapshot, old(router.state.NpcStates(snapshot.Key())), result.value.assignments);
        if rejection.Some? {
          outcome := Failed(snapshot, INVALID_RESULT);
        } else {
          outcome := Good(snapshot, result.value);
        }
      }
    }

    /** Routes one snapshot unless a newer one already won, up to the point of notifying. */
    method RouteOne(key: Key, snapshot: Snapshot) returns (outcome: Option<Outcome>)
      requires router.Valid() && snapshot.Valid() && key == snapshot.Key()
      requires routedSequences == router.state.lastSequences
      requires PendingOk(pending) && OutcomesOk(outcomes, routedSequences)
      modifies this, router.state
      ensures router.Valid() && routedSequences == router.state.lastSequences
      ensures PendingOk(pending) && OutcomesOk(outcomes, routedSequences)
      ensures outcome.None? <==> old(key in routedSequences && snapshot.sequence < routedSequences[key])
      ensures outcome.None? ==> routedSequences == old(routedSequences) && outcomes == old(outcomes) && pending == old(pending)
      ensures outcome.Some? ==>
                && routedSequences == old(routedSequences)[key := snapshot.sequence]
                && outcomes == old(outcomes)[key := outcome.value]
                && outcome.value.sequence == snapshot.sequence && outcome.value.status == ROUTED
                && DecidedBy(router.config, snapshot, old(router.state.NpcStates(key)), outcome.value.assignments)
                && pending == Discarded(old(pending), key, snapshot.sequence)
                && KeepsOnlyNewer(old(pending), pending, key, snapshot.sequence)
      ensures draining == old(draining) && asked == old(asked) && idle == old(idle) && submitted == old(submitted)
    {
      hide Faithful, Config.Valid, Snapshot.Valid, Snapshot.Key, DecidedBy, PendingOk, OutcomesOk, Discarded;
      if key in routedSequences && snapshot.sequence < routedSequences[key] {
        return None;
      }
      ghost var routedBefore, outcomesBefore, pendingBefore := routedSequences, outcomes, pending;
      routedSequences := routedSequences[key := snapshot.sequence];
      var routed := RouteSnapshot(snapshot);
      outcomes := outcomes[key := routed];
      DiscardKeepsOnlyNewer(pending, key, snapshot.sequence);
      pending := Discarded(pending, key, snapshot.sequence);
      outcome := Some(routed);
      OneMoreOutcome(outcomesBefore, routedBefore, pendingBefore, key, routed);
    }

    /** Answers with an outcome at least as new as the request. */
    method RouteNow(snapshot: Snapshot) returns (outcome: Outcome)
      requires Valid() && snapshot.Valid()
      modifies this, router.state
      ensures Valid()
      ensures outcome.status == ROUTED && outcome.sequence >= snapshot.sequence
      ensures (outcome.sessionId, outcome.worldId) == snapshot.Key()
      ensures snapshot.Key() in outcomes && outcome == outcomes[snapshot.Key()]
      ensures Advances(old(routedSequences), routedSequences)
      ensures AtLeast(routedSequences, snapshot.Key(), snapshot.sequence)
      ensures !old(snapshot.Key() in routedSequences && snapshot.sequence < routedSequences[snapshot.Key()]) ==>
                && KeepsOnlyNewer(old(pending), pending, snapshot.Key(), snapshot.sequence)
                && DecidedBy(router.config, snapshot, old(router.state.NpcStates(snapshot.Key())), outcome.assignments)
      ensures TookUp(old(routedSequences), old(outcomes), routedSequences, outcomes, snapshot.Key(), snapshot.sequence)
      ensures asked == old(asked) && draining == old(draining)
    {
      hide Faithful, Config.Valid, Snapshot.Valid, DecidedBy, PendingOk;
      var key := snapshot.Key();
      ghost var before := pending;
      ghost var routedBefore := routedSequences;
      var answer := RouteOne(key, snapshot);
      StillCovered(asked, routedBefore, before, key, snapshot.sequence, answer.Some?);
      hide NothingForgotten;
      assert (outcomes[key].sessionId, outcomes[key].worldId) == key;
      outcome := if answer.Some? then answer.value else outcomes[key];
    }

    /** The worker from one suspension to the next: it wakes if it was waiting, then routes one
        waiting snapshot or, finding none, goes idle. */
    method RunWorker()
      requires Valid() && (draining || submitted)
      modifies this, router.state
      ensures Valid() && asked == old(asked)
      ensures Advances(old(routedSequences), routedSequences)
      ensures submitted == old(draining && submitted)
      ensures old(pending) == map[] ==> idle && !draining
      ensures old(pending) != map[] ==> draining && |pending| < |old(pending)|
      ensures old(pending) != map[] ==> exists key ::
                && key in old(pending) && pending == old(pending) - {key}
                && TookUp(old(routedSequences), old(outcomes), routedSequences, outcomes, key, old(pending)[key].sequence)
      ensures old(pending) == map[] ==> routedSequences == old(routedSequences) && outcomes == old(outcomes)
    {
      hide Faithful, Config.Valid, Snapshot.Valid, DecidedBy, PendingOk, OutcomesOk, NothingForgotten, Discarded;
      if !draining {
        submitted := false;
      }
      if pending == map[] {
        idle := true;
        draining := false;
      } else {
        draining := true;
        SomeKey(pending);
        var key :| key in pending;
        var snapshot := pending[key];
        ghost var before := pending;
        Popped(before, key);
        pending := pending - {key};
        ghost var rest := pending;
        var outcome := RouteOne(key, snapshot);
        DiscardedSize(rest, key, snapshot.sequence);
        NothingToDiscard(before, key, snapshot.sequence);
        StillRemembered(asked, old(routedSequences), before, key, outcome.Some?, routedSequences, pending);
      }
    }

    /** Forgets one session here and in the Router. */
    method ResetSession(sessionId: string)
      requires Valid()
      modifies this, router.state
      ensures Valid()
      ensures pending == map key | key in old(pending) && key.0 != sessionId :: old(pending)[key]
      ensures outcomes == map key | key in old(outcomes) && key.0 != sessionId :: old(outcomes)[key]
      ensures routedSequences == map key | key in old(routedSequences) && key.0 != sessionId :: old(routedSequences)[key]
      ensures asked == map key | key in old(asked) && key.0 != sessionId :: old(asked)[key]
      ensures idle == old(idle) && submitted == old(submitted) && draining == old(draining)
    {
      hide *;
      Unpack();
      AllWithout(pending, outcomes, routedSequences, asked, sessionId);
      FlagsWithout(idle, submitted, draining, pending, sessionId);
      WithoutIs(pending, sessionId);
      WithoutIs(outcomes, sessionId);
      WithoutIs(routedSequences, sessionId);
      WithoutIs(asked, sessionId);
      pending := Without(pending, sessionId);
      outcomes := Without(outcomes, sessionId);
      routedSequences := Without(routedSequences, sessionId);
      asked := Without(asked, sessionId);
      router.ResetSession(sessionId);
      Pack();
    }

    /** When the worker is blocked at its wait, or says it is idle, everything submitted has been
        routed or overtaken: no wakeup was lost. */
    lemma IdleMeansRouted()
      requires Valid() && (idle || (!submitted && !draining))
      ensures idle && pending == map[]
      ensures forall key :: key in asked ==> AtLeast(routedSequences, key, asked[key])
      ensures forall key :: key in asked ==>
                key in outcomes && outcomes[key].status == ROUTED && outcomes[key].sequence >= asked[key]
    {
      hide Faithful, Config.Valid, Snapshot.Valid;
    }

    lemma Unpack()
      requires Valid()
      ensures router.Valid() && routedSequences == router.state.lastSequences
      ensures PendingOk(pending) && OutcomesOk(outcomes, routedSequences)
      ensures NothingForgotten(asked, routedSequences, pending)
      ensures FlagsOk(idle, submitted, draining, pending)
    {
    }

    lemma Pack()
      requires router.Valid() && routedSequences == router.state.lastSequences
      requires PendingOk(pending) && OutcomesOk(outcomes, routedSequences)
      requires NothingForgotten(asked, routedSequences, pending)
      requires FlagsOk(idle, submitted, draining, pending)
      ensures Valid()
    {
    }
  }

  lemma DiscardKeepsOnlyNewer(pending: Waiting, key: Key, sequence: nat)
    ensures KeepsOnlyNewer(pending, Discarded(pending, key, sequence), key, sequence)
  {
  }

  lemma OneMoreOutcome(
      outcomes: map<Key, Outcome>, routed: Sequences, pending: Waiting, key: Key, outcome: Outcome)
    requires OutcomesOk(outcomes, routed) && PendingOk(pending)
    requires outcome.status == ROUTED && (outcome.sessionId, outcome.worldId) == key
    ensures OutcomesOk(outcomes[key := outcome], routed[key := outcome.sequence])
    ensures PendingOk(Discarded(pending, key, outcome.sequence))
  {
  }

  lemma AwakeIsOk(draining: bool, pending: Waiting)
    ensures FlagsOk(false, true, draining, pending)
  {
  }

  lemma SubmitKeeps(asked: Sequences, routed: Sequences, pending: Waiting, snapshot: Snapshot)
    requires PendingOk(pending) && NothingForgotten(asked, routed, pending) && snapshot.Valid()
    ensures var key := snapshot.Key();
            var after := if key !in pending || pending[key].sequence < snapshot.sequence then pending[key := snapshot] else pending;
            && PendingOk(after) && NothingForgotten(Raise(asked, key, snapshot.sequence), routed, after)
            && forall k :: k in pending ==> k in after && after[k].sequence >= pending[k].sequence
  {
    hide Snapshot.Valid;
  }

  lemma AllWithout(
      pending: Waiting, outcomes: map<Key, Outcome>, routed: Sequences, asked: Sequences, sessionId: string)
    requires PendingOk(pending) && OutcomesOk(outcomes, routed) && NothingForgotten(asked, routed, pending)
    ensures PendingOk(Without(pending, sessionId))
    ensures OutcomesOk(Without(outcomes, sessionId), Without(routed, sessionId))
    ensures NothingForgotten(Without(asked, sessionId), Without(routed, sessionId), Without(pending, sessionId))
  {
    hide Snapshot.Valid;
  }

  lemma WithoutIs<V>(m: map<Key, V>, sessionId: string)
    ensures Without(m, sessionId) == map key | key in m && key.0 != sessionId :: m[key]
  {
  }

  lemma FlagsWithout(idle: bool, submitted: bool, draining: bool, pending: Waiting, sessionId: string)
    requires FlagsOk(idle, submitted, draining, pending)
    ensures FlagsOk(idle, submitted, draining, Without(pending, sessionId))
  {
  }

  lemma SomeKey(pending: Waiting)
    requires pending != map[]
    ensures exists key :: key in pending
  {
    assert pending.Keys == {} ==> pending == map[];
  }

  lemma Popped(pending: Waiting, key: Key)
    requires key in pending
    ensures |pending - {key}| < |pending|
    ensures PendingOk(pending) ==> pending[key].Valid() && pending[key].Key() == key && PendingOk(pending - {key})
  {
    hide Snapshot.Valid;
    assert (pending - {key}).Keys == pending.Keys - {key};
  }

  lemma StillCovered(asked: Sequences, routed: Sequences, pending: Waiting, key: Key, sequence: nat, took: bool)
    requires NothingForgotten(asked, routed, pending) && (took ==> key in routed ==> routed[key] <= sequence)
    ensures took ==>
              && NothingForgotten(asked, routed[key := sequence], Discarded(pending, key, sequence))
              && Advances(routed, routed[key := sequence])
  {
  }

  lemma NothingToDiscard(pending: Waiting, key: Key, sequence: nat)
    ensures Discarded(pending - {key}, key, sequence) == pending - {key}
  {
  }

  lemma DiscardedSize(pending: Waiting, key: Key, sequence: nat)
    ensures |Discarded(pending, key, sequence)| <= |pending|
  {
    if key in pending && pending[key].sequence <= sequence {
      Popped(pending, key);
    }
  }

  /** Routing the popped snapshot, or finding it overtaken, covers whatever its key had asked for. */
  lemma StillRemembered(
      asked: Sequences, routed: Sequences, pending: Waiting, key: Key, took: bool, routed': Sequences, pending': Waiting)
    requires NothingForgotten(asked, routed, pending) && key in pending
    requires took <==> !(key in routed && pending[key].sequence < routed[key])
    requires routed' == if took then routed[key := pending[key].sequence] else routed
    requires pending' == if took then Discarded(pending - {key}, key, pending[key].sequence) else pending - {key}
    ensures NothingForgotten(asked, routed', pending') && Advances(routed, routed')
  {
  }

  /** What `_discard_pending_through` leaves waiting. */
  function Discarded(pending: Waiting, key: Key, sequence: nat): Waiting {
    if key in pending && pending[key].sequence <= sequence then pending - {key} else pending
  }
}
