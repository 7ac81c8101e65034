/** The all-strong baseline projected from a run's own telemetry records. */
module UsageProjection {
  import opened GenerationWork
  import opened Numbers

  /** A missing or ill-typed string is empty here, and a missing or ill-typed number negative. */
  datatype Record =
    | RoutingResult(sessionId: string, worldId: string, sequence: int, candidateCount: Option<int>)
    | ModelCall(
        sessionId: string, eventId: Option<string>, turnId: Option<string>, requestId: string,
        sourceSequence: int, inputTokens: int, outputTokens: int)
    | OtherRecord

  type Scope = (string, int)

  datatype Key =
    | EventKey(sessionId: string, id: string, sequence: int)
    | TurnKey(sessionId: string, id: string, sequence: int)
    | RequestKey(sessionId: string, id: string, sequence: int)

  datatype Totals = Totals(calls: nat, input: nat, output: nat)

  // ---- what the records must satisfy ---------------------------------------------------

  predicate GoodRouting(r: Record) {
    r.RoutingResult? ==>
      r.sessionId != "" && r.worldId != "" && r.sequence >= 0 && (r.candidateCount.Some? ==> r.candidateCount.value >= 0)
  }

  predicate GoodCall(r: Record) {
    r.ModelCall? ==>
      && r.sessionId != "" && r.sourceSequence >= 0 && r.inputTokens >= 0 && r.outputTokens >= 0
      && (if r.eventId.Some? then r.eventId.value != ""
          else if r.turnId.Some? then r.turnId.value != ""
          else r.requestId != "")
  }

  ghost predicate RoutingOk(records: seq<Record>) {
    && (forall r :: r in records && r.RoutingResult? ==>
          && r.sessionId != "" && r.worldId != "" && r.sequence >= 0
          && (r.candidateCount.Some? ==> r.candidateCount.value >= 0))
    && forall a, b ::
         (a in records && b in records && a.RoutingResult? && b.RoutingResult?
          && a.sessionId == b.sessionId && a.sequence == b.sequence) ==> a.worldId == b.worldId
  }

  ghost predicate CallsOk(records: seq<Record>) {
    forall r :: r in records && r.ModelCall? ==>
      && r.sessionId != "" && r.sourceSequence >= 0 && r.inputTokens >= 0 && r.outputTokens >= 0
      && (r.eventId.Some? ==> r.eventId.value != "")
      && (r.eventId.None? && r.turnId.Some? ==> r.turnId.value != "")
      && (r.eventId.None? && r.turnId.None? ==> r.requestId != "")
  }

  // ---- candidates per scope --------------------------------------------------------------

  /** The largest candidate count any routing result of the scope reported. */
  function CandidatesIn(records: seq<Record>, scope: Scope): Option<nat> {
    if records == [] then None
    else
      var before := CandidatesIn(records[..|records| - 1], scope);
      var r := records[|records| - 1];
      if r.RoutingResult? && (r.sessionId, r.sequence) == scope && r.candidateCount.Some? && r.candidateCount.value >= 0 then
        Some(if before.Some? then Larger(r.candidateCount.value, before.value) else r.candidateCount.value)
      else before
  }

  function At<K, V>(m: map<K, V>, k: K): Option<V> {
    if k in m then Some(m[k]) else None
  }

  ghost predicate WorldsSeen(worlds: map<Scope, string>, records: seq<Record>) {
    && (forall r :: r in records && r.RoutingResult? ==>
          (r.sessionId, r.sequence) in worlds && worlds[(r.sessionId, r.sequence)] == r.worldId)
    && (forall s :: s in worlds ==> exists r :: r in records && r.RoutingResult? && (r.sessionId, r.sequence) == s)
  }

  lemma BadRouting(records: seq<Record>, i: nat)
    requires i < |records| && !GoodRouting(records[i])
    ensures !RoutingOk(records)
  {
    assert records[i] in records;
  }

  /** A second world for a session and sequence seen before. */
  lemma WorldConflict(worlds: map<Scope, string>, records: seq<Record>, i: nat)
    requires i < |records| && WorldsSeen(worlds, records[..i]) && records[i].RoutingResult?
    ensures var s := (records[i].sessionId, records[i].sequence);
            s in worlds && worlds[s] != records[i].worldId ==> !RoutingOk(records)
  {
    var r := records[i];
    var s := (r.sessionId, r.sequence);
    if s in worlds && worlds[s] != r.worldId {
      var a :| a in records[..i] && a.RoutingResult? && (a.sessionId, a.sequence) == s;
      assert a in records && r in records;
      assert !(a.worldId == r.worldId);
    }
  }

  lemma WorldsGrow(worlds: map<Scope, string>, records: seq<Record>, r: Record)
    requires WorldsSeen(worlds, records) && RoutingOk(records) && GoodRouting(r)
    requires r.RoutingResult? ==> At(worlds, (r.sessionId, r.sequence)) in {None, Some(r.worldId)}
    ensures RoutingOk(records + [r])
    ensures WorldsSeen(if r.RoutingResult? then worlds[(r.sessionId, r.sequence) := r.worldId] else worlds, records + [r])
  {
    forall a | a in records && a.RoutingResult? && r.RoutingResult? && a.sessionId == r.sessionId && a.sequence == r.sequence
      ensures a.worldId == r.worldId
    {
      assert worlds[(a.sessionId, a.sequence)] == a.worldId;
    }
    var after := if r.RoutingResult? then worlds[(r.sessionId, r.sequence) := r.worldId] else worlds;
    forall s | s in after ensures exists a :: a in records + [r] && a.RoutingResult? && (a.sessionId, a.sequence) == s {
      if s in worlds {
        var a :| a in records && a.RoutingResult? && (a.sessionId, a.sequence) == s;
        assert a in records + [r];
      } else {
        assert r in records + [r];
      }
    }
  }

  lemma NothingSeen()
    ensures RoutingOk([]) && WorldsSeen(map[], [])
  {
  }

  method CandidatesByScope(records: seq<Record>) returns (r: Option<map<Scope, nat>>)
    ensures r.Some? <==> RoutingOk(records)
    ensures r.Some? ==> forall s :: At(r.value, s) == CandidatesIn(records, s)
  {
    var candidates: map<Scope, nat> := map[];
    var worlds: map<Scope, string> := map[];
    hide RoutingOk, WorldsSeen;
    NothingSeen();
    for i := 0 to |records|
      invariant RoutingOk(records[..i]) && WorldsSeen(worlds, records[..i])
      invariant forall s :: At(candidates, s) == CandidatesIn(records[..i], s)
    {
      var x := records[i];
      Snoc(records, i);
      ghost var seen := records[..i];
      if x.RoutingResult? {
        if !GoodRouting(x) {
          BadRouting(records, i);
          return None;
        }
        var scope := (x.sessionId, x.sequence);
        if scope in worlds && worlds[scope] != x.worldId {
          WorldConflict(worlds, records, i);
          return None;
        }
        WorldsGrow(worlds, seen, x);
        worlds := worlds[scope := x.worldId];
        if x.candidateCount.Some? {
          var count := x.candidateCount.value;
          candidates := candidates[scope := Larger(count, if scope in candidates then candidates[scope] else 0)];
        }
      } else {
        WorldsGrow(worlds, seen, x);
      }
    }
    assert records[..|records|] == records;
    r := Some(candidates);
  }

  lemma Snoc(records: seq<Record>, i: nat)
    requires i < |records|
    ensures records[..i + 1] == records[..i] + [records[i]]
    ensures records[..i + 1][..|records[..i + 1]| - 1] == records[..i]
  {
  }

  // ---- grouping ---------------------------------------------------------------------------

  function KeyOf(call: Record): Key
    requires call.ModelCall?
  {
    if call.eventId.Some? then EventKey(call.sessionId, call.eventId.value, call.sourceSequence)
    else if call.turnId.Some? then TurnKey(call.sessionId, call.turnId.value, call.sourceSequence)
    else RequestKey(call.sessionId, call.requestId, call.sourceSequence)
  }

  function IsCall(r: Record, key: Key): bool {
    r.ModelCall? && KeyOf(r) == key
  }

  /** The calls of one trigger, in record order. */
  function Group(records: seq<Record>, key: Key): seq<Record> {
    if records == [] then []
    else Group(records[..|records| - 1], key) + if IsCall(records[|records| - 1], key) then [records[|records| - 1]] else []
  }

  /** The triggers in order of their first call. */
  function Keys(records: seq<Record>): seq<Key> {
    if records == [] then []
    else
      var before := Keys(records[..|records| - 1]);
      var r := records[|records| - 1];
      if r.ModelCall? && KeyOf(r) !in before then before + [KeyOf(r)] else before
  }

  ghost predicate Distinct(keys: seq<Key>) {
    forall i, j :: 0 <= i < j < |keys| ==> keys[i] != keys[j]
  }

  lemma {:induction false} KeysCover(records: seq<Record>)
    ensures Distinct(Keys(records))
    ensures forall r :: r in records && r.ModelCall? ==> KeyOf(r) in Keys(records)
  {
    if records != [] {
      var n := |records| - 1;
      KeysCover(records[..n]);
      assert records == records[..n] + [records[n]];
    }
  }

  /** A key is listed exactly when its group has a call. */
  lemma {:induction false} ListedIff(records: seq<Record>, key: Key)
    ensures key in Keys(records) <==> Group(records, key) != []
  {
    if records != [] {
      ListedIff(records[..|records| - 1], key);
    }
  }

  lemma {:induction false} GroupFrom(records: seq<Record>, key: Key)
    ensures forall r :: r in Group(records, key) ==> r in records && r.ModelCall?
  {
    if records != [] {
      GroupFrom(records[..|records| - 1], key);
    }
  }

  method GroupCalls(records: seq<Record>) returns (order: seq<Key>, grouped: map<Key, seq<Record>>)
    ensures order == Keys(records)
    ensures grouped.Keys == set k | k in order
    ensures forall k :: k in grouped ==> grouped[k] == Group(records, k)
  {
    order, grouped := [], map[];
    for i := 0 to |records|
      invariant order == Keys(records[..i])
      invariant grouped.Keys == set k | k in order
      invariant forall k :: k in grouped ==> grouped[k] == Group(records[..i], k)
    {
      Snoc(records, i);
      var r := records[i];
      if r.ModelCall? {
        var key := KeyOf(r);
        ListedIff(records[..i], key);
        if key in grouped {
          grouped := grouped[key := grouped[key] + [r]];
        } else {
          grouped := grouped[key := [r]];
          order := order + [key];
        }
      }
    }
    assert records[..|records|] == records;
  }

  // ---- measures ---------------------------------------------------------------------------

  datatype Measure = CALLS | INPUT | OUTPUT

  function Weight(r: Record, w: Measure): nat {
    if !r.ModelCall? then 0
    else match w
      case CALLS => 1
      case INPUT => if r.inputTokens < 0 then 0 else r.inputTokens
      case OUTPUT => if r.outputTokens < 0 then 0 else r.outputTokens
  }

  /** What the run itself measured. */
  function Observed(records: seq<Record>, w: Measure): nat {
    if records == [] then 0 else Observed(records[..|records| - 1], w) + Weight(records[|records| - 1], w)
  }

  /** Each call counts once, with the tokens it reports. */
  lemma EachCallCounts(records: seq<Record>, call: Record)
    requires call.ModelCall? && call.inputTokens >= 0 && call.outputTokens >= 0
    ensures Observed(records + [call], CALLS) == Observed(records, CALLS) + 1
    ensures Observed(records + [call], INPUT) == Observed(records, INPUT) + call.inputTokens
    ensures Observed(records + [call], OUTPUT) == Observed(records, OUTPUT) + call.outputTokens
    ensures forall w: Measure :: Observed([], w) == 0
  {
    ObservedSnoc(records, call, CALLS);
    ObservedSnoc(records, call, INPUT);
    ObservedSnoc(records, call, OUTPUT);
  }

  lemma OtherRecordsDoNot(records: seq<Record>, r: Record)
    requires !r.ModelCall?
    ensures forall w: Measure :: Observed(records + [r], w) == Observed(records, w)
  {
    forall w: Measure ensures Observed(records + [r], w) == Observed(records, w) {
      ObservedSnoc(records, r, w);
    }
  }

  lemma ObservedSnoc(records: seq<Record>, r: Record, w: Measure)
    ensures Observed(records + [r], w) == Observed(records, w) + Weight(r, w)
  {
    assert (records + [r])[..|records|] == records;
  }

  lemma GroupSnoc(records: seq<Record>, r: Record, key: Key)
    ensures Group(records + [r], key) == if IsCall(r, key) then Group(records, key) + [r] else Group(records, key)
  {
    assert (records + [r])[..|records|] == records;
    assert Group(records, key) + [] == Group(records, key);
  }

  lemma {:induction false} GroupSize(records: seq<Record>, key: Key)
    ensures Observed(Group(records, key), CALLS) == |Group(records, key)|
  {
    if records != [] {
      var n := |records| - 1;
      GroupSize(records[..n], key);
      GroupSnoc(records[..n], records[n], key);
      assert records == records[..n] + [records[n]];
      if IsCall(records[n], key) {
        ObservedSnoc(Group(records[..n], key), records[n], CALLS);
      }
    }
  }

  function SumGroups(keys: seq<Key>, records: seq<Record>, w: Measure): nat {
    if keys == [] then 0 else SumGroups(keys[..|keys| - 1], records, w) + Observed(Group(records, keys[|keys| - 1]), w)
  }

  /** One more record adds its weight to exactly the group of its key. */
  lemma {:induction false} OneMoreRecord(keys: seq<Key>, records: seq<Record>, r: Record, w: Measure)
    requires Distinct(keys)
    ensures SumGroups(keys, records + [r], w) == SumGroups(keys, records, w)
              + if r.ModelCall? && KeyOf(r) in keys then Weight(r, w) else 0
  {
    if keys != [] {
      var n := |keys| - 1;
      OneMoreRecord(keys[..n], records, r, w);
      InLast(keys, r);
      GroupSnoc(records, r, keys[n]);
      ObservedSnoc(Group(records, keys[n]), r, w);
      hide Observed, Group, Weight, KeyOf;
    }
  }

  lemma InLast(keys: seq<Key>, r: Record)
    requires keys != [] && Distinct(keys)
    ensures Distinct(keys[..|keys| - 1])
    ensures r.ModelCall? ==>
              var n := |keys| - 1;
              && (KeyOf(r) in keys <==> KeyOf(r) in keys[..n] || IsCall(r, keys[n]))
              && !(KeyOf(r) in keys[..n] && IsCall(r, keys[n]))
  {
    var n := |keys| - 1;
    assert keys == keys[..n] + [keys[n]];
    assert keys[n] !in keys[..n];
  }

  lemma {:induction false} NothingGrouped(keys: seq<Key>, w: Measure)
    ensures SumGroups(keys, [], w) == 0
  {
    if keys != [] {
      NothingGrouped(keys[..|keys| - 1], w);
    }
  }

  /** The groups partition the model calls: over any distinct keys that cover them, the sums agree. */
  lemma {:induction false} GroupsPartition(keys: seq<Key>, records: seq<Record>, w: Measure)
    requires Distinct(keys) && forall r :: r in records && r.ModelCall? ==> KeyOf(r) in keys
    ensures SumGroups(keys, records, w) == Observed(records, w)
  {
    if records == [] {
      NothingGrouped(keys, w);
    } else {
      var n := |records| - 1;
      assert records == records[..n] + [records[n]];
      GroupsPartition(keys, records[..n], w);
      OneMoreRecord(keys, records[..n], records[n], w);
    }
  }

  // ---- the projection ----------------------------------------------------------------------

  function ScaleTokens(observed: nat, observedCalls: nat, baselineCalls: nat): nat {
    if observedCalls == 0 then 0 else (observed * baselineCalls + observedCalls - 1) / observedCalls
  }

  /** The least whole number of tokens not below the observed average times the baseline. */
  lemma ScaleIsCeiling(observed: nat, n: nat, m: nat)
    requires n > 0
    ensures ScaleTokens(observed, n, m) * n >= observed * m
    ensures ScaleTokens(observed, n, m) > 0 ==> (ScaleTokens(observed, n, m) - 1) * n < observed * m
  {
    var a := observed * m + n - 1;
    var q, r := a / n, a % n;
    assert a == q * n + r;
    assert (q - 1) * n == q * n - n;
  }

  lemma ScaleNeverBelow(observed: nat, n: nat, m: nat)
    requires 0 < n <= m
    ensures ScaleTokens(observed, n, m) >= observed
    ensures m == n ==> ScaleTokens(observed, n, m) == observed
  {
    ScaleIsCeiling(observed, n, m);
    var s := ScaleTokens(observed, n, m);
    hide ScaleTokens;
    if s < observed {
      Scaled(s, observed - s, n);
    } else {
      Scaled(observed, s - observed, n);
    }
    Scaled(n, m - n, observed);
    MulCommutes(observed, n);
    MulCommutes(observed, m);
    if m == n && s > observed {
      Scaled(observed, s - 1 - observed, n);
    }
  }

  lemma MulCommutes(a: nat, b: nat)
    ensures a * b == b * a
  {
  }

  lemma Scaled(a: nat, d: nat, n: nat)
    ensures (a + d) * n == a * n + d * n
    ensures d > 0 ==> d * n >= n
  {
    if d > 0 {
      assert d * n == (d - 1) * n + n;
    }
  }

  /** Only an event expands, and only to more calls than were observed. */
  function Baseline(key: Key, observedCalls: nat, candidates: Option<nat>): nat {
    if key.EventKey? && candidates.Some? then Larger(observedCalls, candidates.value) else observedCalls
  }

  function BaselineOf(records: seq<Record>, key: Key): nat {
    Baseline(key, |Group(records, key)|, CandidatesIn(records, (key.sessionId, key.sequence)))
  }

  function Projected(records: seq<Record>, key: Key, w: Measure): nat {
    var g := Group(records, key);
    if w == CALLS then BaselineOf(records, key) else ScaleTokens(Observed(g, w), |g|, BaselineOf(records, key))
  }

  function SumProjected(keys: seq<Key>, records: seq<Record>, w: Measure): nat {
    if keys == [] then 0 else SumProjected(keys[..|keys| - 1], records, w) + Projected(records, keys[|keys| - 1], w)
  }

  /** Raises exactly on malformed records, and otherwise sums the projection over the triggers. */
  method ProjectedAllStrongUsage(records: seq<Record>) returns (r: Option<Totals>)
    ensures r.Some? <==> RoutingOk(records) && CallsOk(records)
    ensures r.Some? ==>
              && r.value.calls == SumProjected(Keys(records), records, CALLS)
              && r.value.input == SumProjected(Keys(records), records, INPUT)
              && r.value.output == SumProjected(Keys(records), records, OUTPUT)
  {
    var candidates := CandidatesByScope(records);
    if candidates.None? {
      return None;
    }
    for i := 0 to |records|
      invariant forall j :: 0 <= j < i ==> GoodCall(records[j])
    {
      if !GoodCall(records[i]) {
        assert records[i] in records;
        return None;
      }
    }
    var order, grouped := GroupCalls(records);
    hide RoutingOk, CallsOk, CandidatesIn, Group, Keys, SumProjected;
    var totals := AddUp(records, order, grouped, candidates.value);
    r := Some(totals);
  }

  ghost function Sums(keys: seq<Key>, records: seq<Record>): Totals {
    Totals(SumProjected(keys, records, CALLS), SumProjected(keys, records, INPUT), SumProjected(keys, records, OUTPUT))
  }

  lemma NoSums(records: seq<Record>)
    ensures Sums([], records) == Totals(0, 0, 0)
  {
  }

  /** What one more trigger adds to the totals. */
  lemma OneMoreTrigger(keys: seq<Key>, i: nat, records: seq<Record>, candidates: Option<nat>)
    requires i < |keys| && candidates == CandidatesIn(records, (keys[i].sessionId, keys[i].sequence))
    ensures var before := Sums(keys[..i], records); var g := Group(records, keys[i]);
            var baseline := Baseline(keys[i], |g|, candidates);
            Sums(keys[..i + 1], records) == Totals(
              before.calls + baseline,
              before.input + ScaleTokens(Observed(g, INPUT), |g|, baseline),
              before.output + ScaleTokens(Observed(g, OUTPUT), |g|, baseline))
  {
    assert keys[..i + 1][..i] == keys[..i];
    hide Group, Observed, ScaleTokens, CandidatesIn, Baseline;
  }

  method AddUp(records: seq<Record>, order: seq<Key>, grouped: map<Key, seq<Record>>, candidates: map<Scope, nat>)
    returns (totals: Totals)
    requires forall k :: k in order ==> k in grouped && grouped[k] == Group(records, k)
    requires forall s :: At(candidates, s) == CandidatesIn(records, s)
    ensures totals == Sums(order, records)
  {
    totals := Totals(0, 0, 0);
    NoSums(records);
    assert order[..|order|] == order && order[..0] == [];
    hide *;
    for i := 0 to |order|
      invariant totals == Sums(order[..i], records)
    {
      var key := order[i];
      var calls := grouped[key];
      var scope := (key.sessionId, key.sequence);
      assert At(candidates, scope) == CandidatesIn(records, scope);
      OneMoreTrigger(order, i, records, At(candidates, scope));
      var baseline := Baseline(key, |calls|, At(candidates, scope));
      var input := SumTokens(calls, INPUT);
      var output := SumTokens(calls, OUTPUT);
      totals := Totals(
        totals.calls + baseline,
        totals.input + ScaleTokens(input, |calls|, baseline),
        totals.output + ScaleTokens(output, |calls|, baseline));
    }
  }

  method SumTokens(calls: seq<Record>, w: Measure) returns (total: nat)
    ensures total == Observed(calls, w)
  {
    total := 0;
    for i := 0 to |calls|
      invariant total == Observed(calls[..i], w)
    {
      assert calls[..i + 1][..i] == calls[..i];
      total := total + Weight(calls[i], w);
    }
    assert calls[..|calls|] == calls;
  }

  /** Some event of the run expands beyond its observed calls. */
  ghost predicate Expands(keys: seq<Key>, records: seq<Record>) {
    exists k :: k in keys && BaselineOf(records, k) > |Group(records, k)|
  }

  lemma {:induction false} ProjectionAgainstGroups(keys: seq<Key>, records: seq<Record>, w: Measure)
    requires forall k :: k in keys ==> k in Keys(records)
    ensures SumProjected(keys, records, w) >= SumGroups(keys, records, w)
    ensures !Expands(keys, records) ==> SumProjected(keys, records, w) == SumGroups(keys, records, w)
    ensures Expands(keys, records) && w == CALLS ==> SumProjected(keys, records, w) > SumGroups(keys, records, w)
  {
    if keys != [] {
      var n := |keys| - 1;
      var key := keys[n];
      ProjectionAgainstGroups(keys[..n], records, w);
      assert keys == keys[..n] + [key];
      ListedIff(records, key);
      GroupSize(records, key);
      var g := Group(records, key);
      ScaleNeverBelow(Observed(g, w), |g|, BaselineOf(records, key));
      hide Group, Observed, ScaleTokens, Keys, CandidatesIn;
    }
  }

  // ---- one trigger at a time ---------------------------------------------------------------

  /** Two calls answer the same trigger exactly when they are of one session and source sequence and
      name the same event, or no event and the same turn, or neither and the same request. */
  lemma SameTriggerIff(a: Record, b: Record)
    requires a.ModelCall? && b.ModelCall?
    ensures KeyOf(a) == KeyOf(b) <==>
      && a.sessionId == b.sessionId && a.sourceSequence == b.sourceSequence && a.eventId == b.eventId
      && (a.eventId.None? ==> a.turnId == b.turnId && (a.turnId.None? ==> a.requestId == b.requestId))
    ensures KeyOf(a).EventKey? <==> a.eventId.Some?
    ensures KeyOf(a).sessionId == a.sessionId && KeyOf(a).sequence == a.sourceSequence
  {
  }

  lemma {:induction false} GroupMembers(records: seq<Record>, key: Key)
    ensures forall r :: r in Group(records, key) <==> r in records && r.ModelCall? && KeyOf(r) == key
  {
    if records != [] {
      var n := |records| - 1;
      GroupMembers(records[..n], key);
      assert records == records[..n] + [records[n]];
      hide KeyOf;
    }
  }

  /** Some routing result of this session and sequence reported this many candidates. */
  ghost predicate Reported(records: seq<Record>, sessionId: string, sequence: int, count: nat) {
    exists r :: r in records && r.RoutingResult? && r.sessionId == sessionId && r.sequence == sequence
             && r.candidateCount == Some(count)
  }

  lemma ReportedSnoc(front: seq<Record>, last: Record, sessionId: string, sequence: int, m: nat)
    ensures Reported(front + [last], sessionId, sequence, m) <==>
              || Reported(front, sessionId, sequence, m)
              || (last.RoutingResult? && last.sessionId == sessionId && last.sequence == sequence && last.candidateCount == Some(m))
  {
    assert forall r :: r in front + [last] <==> r in front || r == last;
  }

  lemma {:induction false} CandidatesAre(records: seq<Record>, sessionId: string, sequence: int)
    ensures var found := CandidatesIn(records, (sessionId, sequence));
      && (found.Some? ==> Reported(records, sessionId, sequence, found.value))
      && (forall m: nat :: Reported(records, sessionId, sequence, m) ==> found.Some? && m <= found.value)
  {
    if records != [] {
      var n := |records| - 1;
      var (front, last) := (records[..n], records[n]);
      assert records == front + [last];
      CandidatesAre(front, sessionId, sequence);
      forall m: nat ensures Reported(records, sessionId, sequence, m) <==>
        || Reported(front, sessionId, sequence, m)
        || (last.RoutingResult? && last.sessionId == sessionId && last.sequence == sequence && last.candidateCount == Some(m))
      {
        ReportedSnoc(front, last, sessionId, sequence, m);
      }
      hide Reported;
    }
  }

  /** An event that was answered at all is projected at the greatest number of candidates reported for
      its session and sequence, or at its own calls if those are more; a turn or a request at its own
      calls. Tokens are scaled from the calls observed, rounded up. */
  lemma TriggerProjection(records: seq<Record>, key: Key)
    requires key in Keys(records)
    ensures var calls := |Group(records, key)|; var projected := Projected(records, key, CALLS);
      && 0 < calls <= projected
      && (!key.EventKey? ==> projected == calls)
      && (projected != calls ==> Reported(records, key.sessionId, key.sequence, projected))
      && (key.EventKey? ==> forall m: nat :: Reported(records, key.sessionId, key.sequence, m) ==> m <= projected)
    ensures forall w: Measure :: w != CALLS ==>
      var calls := |Group(records, key)|; var observed := Observed(Group(records, key), w);
      && Projected(records, key, w) * calls >= observed * Projected(records, key, CALLS)
      && (Projected(records, key, w) > 0 ==>
           (Projected(records, key, w) - 1) * calls < observed * Projected(records, key, CALLS))
  {
    ListedIff(records, key);
    CandidatesAre(records, key.sessionId, key.sequence);
    var g := Group(records, key);
    forall w: Measure | w != CALLS
      ensures Projected(records, key, w) == ScaleTokens(Observed(g, w), |g|, Projected(records, key, CALLS))
      ensures Projected(records, key, w) * |g| >= Observed(g, w) * Projected(records, key, CALLS)
      ensures Projected(records, key, w) > 0 ==>
                (Projected(records, key, w) - 1) * |g| < Observed(g, w) * Projected(records, key, CALLS)
    {
      ScaleIsCeiling(Observed(g, w), |g|, Projected(records, key, CALLS));
      hide ScaleTokens, Observed, Group;
    }
    hide ScaleTokens, Observed, Group, Keys, CandidatesIn, Reported;
  }

  /** The projection is never below what was observed, costs the same when no event expands, and
      has exactly as many calls only then. */
  lemma ProjectionIsConservative(records: seq<Record>)
    ensures var keys := Keys(records);
            && (forall w: Measure :: SumProjected(keys, records, w) >= Observed(records, w))
            && (!Expands(keys, records) ==> forall w: Measure :: SumProjected(keys, records, w) == Observed(records, w))
            && (SumProjected(keys, records, CALLS) == Observed(records, CALLS) <==> !Expands(keys, records))
  {
    KeysCover(records);
    forall w: Measure
      ensures SumProjected(Keys(records), records, w) >= Observed(records, w)
      ensures !Expands(Keys(records), records) ==> SumProjected(Keys(records), records, w) == Observed(records, w)
      ensures Expands(Keys(records), records) && w == CALLS ==> SumProjected(Keys(records), records, w) > Observed(records, w)
    {
      GroupsPartition(Keys(records), records, w);
      ProjectionAgainstGroups(Keys(records), records, w);
    }
  }
}
