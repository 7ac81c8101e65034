/** What the Attention Router takes and returns. Scores and distances are reals. */
module RouterTypes {
  import opened GenerationWork

  datatype Npc = Npc(
    npcId: string,
    worldDistance: real,
    viewportCenterDistance: real,
    insideViewport: bool,
    lineOfSight: bool,
    eventRelevance: real,
    interactionRecency: real)

  datatype Edge = Edge(source: string, target: string, kind: string, active: bool)

  datatype Snapshot = Snapshot(
    sessionId: string,
    worldId: string,
    sequence: nat,
    timestampMs: nat,
    conversationTarget: Option<string>,
    candidateCount: nat,
    npcs: seq<Npc>,
    edges: seq<Edge>)
  {
    /** What the input model validates before the Router sees a snapshot. */
    ghost predicate Valid() {
      && candidateCount == |npcs|
      && UniqueIds(npcs)
      && forall n :: n in npcs ==> ValidNpc(n)
    }

    function Key(): (string, string) {
      (sessionId, worldId)
    }

    ghost function NpcSet(): set<Npc> {
      set n | n in npcs
    }

    ghost function EdgeSet(): set<Edge> {
      EdgesOf(edges)
    }
  }

  ghost function EdgesOf(edges: seq<Edge>): set<Edge> {
    set e | e in edges
  }

  predicate ValidNpc(n: Npc) {
    && n.worldDistance >= 0.0 && 0.0 <= n.viewportCenterDistance <= 1.0
    && 0.0 <= n.eventRelevance <= 1.0 && 0.0 <= n.interactionRecency <= 1.0
  }

  ghost predicate UniqueIds(npcs: seq<Npc>) {
    forall i, j :: 0 <= i < j < |npcs| ==> npcs[i].npcId != npcs[j].npcId
  }

  datatype Config = Config(
    focusedCapacity: nat,
    reactiveCapacity: nat,
    maxRelevantDistance: real,
    viewportWeight: real,
    proximityWeight: real,
    eventRelevanceWeight: real,
    interactionRecencyWeight: real,
    activeConversationBonus: real,
    graphDecay: real,
    edgeWeights: map<string, real>,
    minimumTierScore: real,
    focusedHoldMs: nat,
    reactiveHoldMs: nat,
    focusedStickyBonus: real,
    reactiveStickyBonus: real)
  {
    predicate Valid() {
      && maxRelevantDistance > 0.0
      && viewportWeight >= 0.0 && proximityWeight >= 0.0 && eventRelevanceWeight >= 0.0
      && interactionRecencyWeight >= 0.0 && activeConversationBonus >= 0.0 && graphDecay >= 0.0
      && minimumTierScore >= 0.0 && focusedStickyBonus >= 0.0 && reactiveStickyBonus >= 0.0
      && forall kind :: kind in edgeWeights ==> edgeWeights[kind] >= 0.0
    }
  }

  /** `heardFrom` is the source named in the reasons when a propagated score won. */
  datatype Assignment = Assignment(
    npcId: string, tier: Tier, previousTier: Option<Tier>, changed: bool,
    directScore: real, propagatedScore: real, finalScore: real, heardFrom: Option<string>)

  datatype TierCounts = TierCounts(focused: nat, reactive: nat, ambient: nat)

  datatype Diagnostics = Diagnostics(focusedCapacity: nat, reactiveCapacity: nat, candidateCount: nat)

  datatype Result = Result(
    schemaVersion: string, resultType: string, sessionId: string, worldId: string, sequence: nat, timestampMs: nat,
    assignments: seq<Assignment>, counts: Option<TierCounts>, diagnostics: Option<Diagnostics>)

  // ---- text order -----------------------------------------------------------------

  /** Text compares character by character, and a prefix comes first. */
  predicate TextLess(a: string, b: string) {
    b != [] && (a == [] || a[0] < b[0] || (a[0] == b[0] && TextLess(a[1..], b[1..])))
  }

  /** One text comes before another exactly when it is a proper prefix of it or has the smaller
      character where they first differ. */
  lemma {:induction false} TextLessIff(a: string, b: string)
    ensures TextLess(a, b) <==> (a <= b && a != b) || exists k :: FirstDifference(a, b, k) && a[k] < b[k]
  {
    if a != [] && b != [] && a[0] == b[0] {
      TextLessIff(a[1..], b[1..]);
      assert a == [a[0]] + a[1..] && b == [b[0]] + b[1..];
      assert a <= b && a != b <==> a[1..] <= b[1..] && a[1..] != b[1..];
      TailsDiffer(a, b);
      hide FirstDifference, TextLess;
    } else if a != [] && b != [] {
      assert FirstDifference(a, b, 0);
      assert forall k :: FirstDifference(a, b, k) ==> k == 0;
    }
  }

  lemma TailsDiffer(a: string, b: string)
    requires a != [] && b != [] && a[0] == b[0]
    ensures (exists k :: FirstDifference(a, b, k) && a[k] < b[k])
       <==> (exists k :: FirstDifference(a[1..], b[1..], k) && a[1..][k] < b[1..][k])
  {
    if k :| FirstDifference(a[1..], b[1..], k) && a[1..][k] < b[1..][k] {
      assert FirstDifference(a, b, k + 1) && a[k + 1] < b[k + 1];
    }
    if k :| FirstDifference(a, b, k) && a[k] < b[k] {
      assert FirstDifference(a[1..], b[1..], k - 1) && a[1..][k - 1] < b[1..][k - 1];
    }
  }

  ghost predicate FirstDifference(a: string, b: string, k: int) {
    0 <= k < |a| && k < |b| && a[k] != b[k] && forall j :: 0 <= j < k ==> a[j] == b[j]
  }

  lemma {:induction false} TextTrichotomy(a: string, b: string)
    ensures a == b || TextLess(a, b) || TextLess(b, a)
    ensures !(TextLess(a, b) && TextLess(b, a))
    ensures !TextLess(a, a)
  {
    if a != [] && b != [] {
      TextTrichotomy(a[1..], b[1..]);
      assert a == [a[0]] + a[1..] && b == [b[0]] + b[1..];
    }
    if a != [] {
      TextTrichotomy(a[1..], a[1..]);
    }
  }

  lemma {:induction false} TextTransitive(a: string, b: string, c: string)
    requires TextLess(a, b) && TextLess(b, c)
    ensures TextLess(a, c)
  {
    if a != [] && a[0] == b[0] && b[0] == c[0] {
      TextTransitive(a[1..], b[1..], c[1..]);
    }
  }
}
