/** What the Router remembers between snapshots: last sequences and tier runs. */
module RouterStates {
  import opened GenerationWork
  import opened RouterTypes

  datatype NpcState = NpcState(
    tier: Tier, enteredAt: nat, lastSeen: nat, lastFocused: Option<nat>, lastReactive: Option<nat>)

  type Key = (string, string)
  type States = map<string, NpcState>

  /** One recorded decision of one session and world. */
  datatype Routed = Routed(sequence: nat, timestamp: nat, tiers: map<string, Tier>)

  /** What a later assignment for the same NPC overwrites, as in a dictionary built in order. */
  function TiersBy(assignments: seq<Assignment>): map<string, Tier> {
    if assignments == [] then map[]
    else TiersBy(assignments[..|assignments| - 1])[assignments[|assignments| - 1].npcId := assignments[|assignments| - 1].tier]
  }

  /** With one assignment for each NPC, what is recorded of it is its own tier. */
  lemma {:induction false} TiersByIs(assignments: seq<Assignment>, i: nat)
    requires i < |assignments| && forall j, k :: 0 <= j < k < |assignments| ==> assignments[j].npcId != assignments[k].npcId
    ensures assignments[i].npcId in TiersBy(assignments) && TiersBy(assignments)[assignments[i].npcId] == assignments[i].tier
  {
    var n := |assignments| - 1;
    if i < n {
      assert assignments[..n][i] == assignments[i];
      TiersByIs(assignments[..n], i);
      assert assignments[i].npcId != assignments[n].npcId;
    }
  }

  ghost function NpcIds(npcs: seq<Npc>): set<string> {
    set n | n in npcs :: n.npcId
  }

  ghost function RoutedBy(snapshot: Snapshot, assignments: seq<Assignment>): Routed
    requires forall n :: n in snapshot.npcs ==> n.npcId in TiersBy(assignments)
  {
    Routed(
      snapshot.sequence, snapshot.timestampMs,
      map id | id in NpcIds(snapshot.npcs) :: TiersBy(assignments)[id])
  }

  // ---- what the state means for the history it came from ----------------------------

  ghost predicate InTierAt(h: seq<Routed>, k: nat, id: string, tier: Tier)
    requires k < |h|
  {
    id in h[k].tiers && h[k].tiers[id] == tier
  }

  /** Route `k` began the unbroken run of routes in `tier` that lasts up to now. */
  ghost predicate RunStart(h: seq<Routed>, id: string, tier: Tier, k: nat)
    requires k < |h|
  {
    && (forall j :: k <= j < |h| ==> InTierAt(h, j, id, tier))
    && (k > 0 ==> !InTierAt(h, k - 1, id, tier))
  }

  ghost predicate RunBegan(h: seq<Routed>, id: string, tier: Tier, at: nat) {
    exists k :: 0 <= k < |h| && h[k].timestamp == at && RunStart(h, id, tier, k)
  }

  /** The last time the NPC was in `tier` while it has been continuously present. */
  ghost function LastIn(h: seq<Routed>, id: string, tier: Tier): Option<nat> {
    if h == [] || id !in h[|h| - 1].tiers then None
    else if h[|h| - 1].tiers[id] == tier then Some(h[|h| - 1].timestamp)
    else LastIn(h[..|h| - 1], id, tier)
  }

  ghost predicate Remembers(h: seq<Routed>, id: string, s: NpcState)
    requires h != []
  {
    && InTierAt(h, |h| - 1, id, s.tier)
    && RunBegan(h, id, s.tier, s.enteredAt)
    && s.lastSeen == h[|h| - 1].timestamp
    && s.lastFocused == LastIn(h, id, Focused)
    && s.lastReactive == LastIn(h, id, Reactive)
  }

  ghost predicate RemembersAll(h: seq<Routed>, states: States) {
    && h != []
    && states.Keys == h[|h| - 1].tiers.Keys
    && forall id :: id in states ==> Remembers(h, id, states[id])
  }

  function Next(previous: Option<NpcState>, tier: Tier, timestamp: nat): NpcState {
    NpcState(
      tier,
      if previous.Some? && previous.value.tier == tier then previous.value.enteredAt else timestamp,
      timestamp,
      if tier == Focused then Some(timestamp) else if previous.Some? then previous.value.lastFocused else None,
      if tier == Reactive then Some(timestamp) else if previous.Some? then previous.value.lastReactive else None)
  }

  function StateOf(states: States, id: string): Option<NpcState> {
    if id in states then Some(states[id]) else None
  }

  lemma RunGoesOn(h: seq<Routed>, latest: Routed, id: string, tier: Tier, at: nat)
    requires RunBegan(h, id, tier, at) && id in latest.tiers && latest.tiers[id] == tier
    ensures RunBegan(h + [latest], id, tier, at)
  {
    var k :| 0 <= k < |h| && h[k].timestamp == at && RunStart(h, id, tier, k);
    var g := h + [latest];
    forall j | k <= j < |g| ensures InTierAt(g, j, id, tier) {
      assert j < |h| ==> g[j] == h[j] && InTierAt(h, j, id, tier);
    }
    assert g[k].timestamp == at && RunStart(g, id, tier, k);
  }

  lemma RunStarts(h: seq<Routed>, latest: Routed, id: string, tier: Tier)
    requires h != [] ==> !InTierAt(h, |h| - 1, id, tier)
    requires id in latest.tiers && latest.tiers[id] == tier
    ensures RunBegan(h + [latest], id, tier, latest.timestamp)
  {
    var g := h + [latest];
    assert InTierAt(g, |h|, id, tier) && (h != [] ==> !InTierAt(g, |h| - 1, id, tier));
    assert g[|h|].timestamp == latest.timestamp && RunStart(g, id, tier, |h|);
  }

  lemma NoEarlierStart(h: seq<Routed>, id: string, tier: Tier, j: nat, k: nat)
    requires j < |h| && k < |h| && RunStart(h, id, tier, j) && RunStart(h, id, tier, k)
    ensures j <= k
  {
  }

  /** A history fixes when the current run began. */
  lemma RunBeganOnce(h: seq<Routed>, id: string, tier: Tier, a: nat, b: nat)
    requires RunBegan(h, id, tier, a) && RunBegan(h, id, tier, b)
    ensures a == b
  {
    hide RunStart;
    var j :| 0 <= j < |h| && h[j].timestamp == a && RunStart(h, id, tier, j);
    var k :| 0 <= k < |h| && h[k].timestamp == b && RunStart(h, id, tier, k);
    NoEarlierStart(h, id, tier, j, k);
    NoEarlierStart(h, id, tier, k, j);
  }

  lemma LastAfter(h: seq<Routed>, latest: Routed, id: string, tier: Tier)
    requires id in latest.tiers
    ensures LastIn(h + [latest], id, tier) == if latest.tiers[id] == tier then Some(latest.timestamp) else LastIn(h, id, tier)
  {
    assert (h + [latest])[..|h|] == h;
  }

  /** One more route extends the run of an NPC that kept its tier and starts one otherwise. */
  lemma NextRemembers(h: seq<Routed>, states: States, latest: Routed, id: string)
    requires if h == [] then states == map[] else RemembersAll(h, states)
    requires id in latest.tiers
    ensures Remembers(h + [latest], id, Next(StateOf(states, id), latest.tiers[id], latest.timestamp))
  {
    var tier := latest.tiers[id];
    LastAfter(h, latest, id, Focused);
    LastAfter(h, latest, id, Reactive);
    assert id in states ==> Remembers(h, id, states[id]);
    hide RunBegan, LastIn;
    if id in states && states[id].tier == tier {
      RunGoesOn(h, latest, id, tier, states[id].enteredAt);
    } else {
      RunStarts(h, latest, id, tier);
    }
    assert id !in states ==> (forall t :: LastIn(h, id, t) == None) by {
      AbsentLasts(h, states, id);
    }
  }

  lemma AbsentLasts(h: seq<Routed>, states: States, id: string)
    requires if h == [] then states == map[] else RemembersAll(h, states)
    ensures id !in states ==> (forall t :: LastIn(h, id, t) == None)
  {
  }

  /** The three tables agree with the history of every session and world. */
  ghost predicate Faithful(
      sequences: map<Key, nat>, states: map<Key, States>, history: map<Key, seq<Routed>>)
  {
    && sequences.Keys == states.Keys == history.Keys
    && forall key :: key in history ==> FaithfulAt(sequences[key], states[key], history[key])
  }

  ghost predicate FaithfulAt(sequence: nat, states: States, h: seq<Routed>) {
    RemembersAll(h, states) && sequence == h[|h| - 1].sequence
  }

  lemma AllRemembered(h: seq<Routed>, states: States, latest: Routed, current: States)
    requires if h == [] then states == map[] else RemembersAll(h, states)
    requires current.Keys == latest.tiers.Keys
    requires forall id :: id in current ==> current[id] == Next(StateOf(states, id), latest.tiers[id], latest.timestamp)
    ensures RemembersAll(h + [latest], current)
  {
    hide Remembers, Next, StateOf;
    forall id | id in current ensures Remembers(h + [latest], id, current[id]) {
      NextRemembers(h, states, latest, id);
    }
  }

  ghost function HistoryOf(history: map<Key, seq<Routed>>, key: Key): seq<Routed> {
    if key in history then history[key] else []
  }

  lemma LatestIs(snapshot: Snapshot, assignments: seq<Assignment>)
    requires forall n :: n in snapshot.npcs ==> n.npcId in TiersBy(assignments)
    ensures var latest := RoutedBy(snapshot, assignments);
            && latest.sequence == snapshot.sequence && latest.timestamp == snapshot.timestampMs
            && latest.tiers.Keys == NpcIds(snapshot.npcs)
            && forall id :: id in latest.tiers ==> id in TiersBy(assignments) && latest.tiers[id] == TiersBy(assignments)[id]
  {
  }

  lemma Recalled(sequences: map<Key, nat>, states: map<Key, States>, history: map<Key, seq<Routed>>, key: Key)
    requires Faithful(sequences, states, history)
    ensures var h, previous := HistoryOf(history, key), if key in states then states[key] else map[];
            if h == [] then previous == map[] else RemembersAll(h, previous)
  {
  }

  lemma StaysFaithful(
      sequences: map<Key, nat>, states: map<Key, States>, history: map<Key, seq<Routed>>,
      key: Key, current: States, h: seq<Routed>, latest: Routed)
    requires Faithful(sequences, states, history) && RemembersAll(h + [latest], current)
    ensures Faithful(sequences[key := latest.sequence], states[key := current], history[key := h + [latest]])
  {
    hide RemembersAll;
  }

  method CurrentStates(npcs: seq<Npc>, tiers: map<string, Tier>, timestamp: nat, previousStates: States)
    returns (current: States)
    requires forall n :: n in npcs ==> n.npcId in tiers
    ensures current.Keys == NpcIds(npcs)
    ensures forall id :: id in current ==>
              id in tiers && current[id] == Next(StateOf(previousStates, id), tiers[id], timestamp)
  {
    hide Next, StateOf;
    current := map[];
    for i := 0 to |npcs|
      invariant current.Keys == NpcIds(npcs[..i])
      invariant forall id :: id in current ==>
                  id in tiers && current[id] == Next(StateOf(previousStates, id), tiers[id], timestamp)
    {
      var id := npcs[i].npcId;
      current := current[id := Next(StateOf(previousStates, id), tiers[id], timestamp)];
      assert NpcIds(npcs[..i + 1]) == NpcIds(npcs[..i]) + {id};
    }
    assert npcs[..|npcs|] == npcs;
  }

  /** What popping every key of one session leaves. */
  function Without<V>(m: map<Key, V>, sessionId: string): map<Key, V> {
    map key | key in m && key.0 != sessionId :: m[key]
  }

  class RouterState {
    var lastSequences: map<Key, nat>
    var npcStates: map<Key, States>
    ghost var history: map<Key, seq<Routed>>

    ghost predicate Valid()
      reads this
    {
      Faithful(lastSequences, npcStates, history)
    }

    constructor ()
      ensures Valid() && history == map[] && lastSequences == map[]
    {
      lastSequences, npcStates, history := map[], map[], map[];
    }

    function LastSequence(key: Key): Option<nat>
      reads this
    {
      if key in lastSequences then Some(lastSequences[key]) else None
    }

    function NpcStates(key: Key): States
      reads this
    {
      if key in npcStates then npcStates[key] else map[]
    }

    /** Appends one decision to the history; every remembered run stays exact. */
    method Record(snapshot: Snapshot, assignments: seq<Assignment>)
      requires Valid() && forall n :: n in snapshot.npcs ==> n.npcId in TiersBy(assignments)
      modifies this
      ensures Valid()
      ensures lastSequences == old(lastSequences)[snapshot.Key() := snapshot.sequence]
      ensures history == old(history)[snapshot.Key() :=
                HistoryOf(old(history), snapshot.Key()) + [RoutedBy(snapshot, assignments)]]
    {
      hide *;
      var key := snapshot.Key();
      var previousStates := NpcStates(key);
      ghost var h := HistoryOf(history, key);
      ghost var latest := RoutedBy(snapshot, assignments);
      assert Faithful(lastSequences, npcStates, history) && previousStates == (if key in npcStates then npcStates[key] else map[]) by {
        Unfold(key);
      }
      Recalled(lastSequences, npcStates, history, key);
      var tiers := TiersBy(assignments);
      LatestIs(snapshot, assignments);
      var current := CurrentStates(snapshot.npcs, tiers, snapshot.timestampMs, previousStates);
      AllRemembered(h, previousStates, latest, current);
      StaysFaithful(lastSequences, npcStates, history, key, current, h, latest);
      lastSequences := lastSequences[key := snapshot.sequence];
      npcStates := npcStates[key := current];
      history := history[key := h + [latest]];
      assert Valid() by { IsValid(); }
    }

    lemma Unfold(key: Key)
      requires Valid()
      ensures Faithful(lastSequences, npcStates, history)
      ensures NpcStates(key) == if key in npcStates then npcStates[key] else map[]
    {
    }

    lemma IsValid()
      requires Faithful(lastSequences, npcStates, history)
      ensures Valid()
    {
    }

    /** Forgets every world of one session and nothing else. */
    method ResetSession(sessionId: string)
      requires Valid()
      modifies this
      ensures Valid()
      ensures history == map key | key in old(history) && key.0 != sessionId :: old(history)[key]
      ensures lastSequences == map key | key in old(lastSequences) && key.0 != sessionId :: old(lastSequences)[key]
    {
      hide FaithfulAt;
      var keys := set key | key in lastSequences && key.0 == sessionId;
      lastSequences := lastSequences - keys;
      npcStates := npcStates - keys;
      history := history - keys;
    }
  }
}
