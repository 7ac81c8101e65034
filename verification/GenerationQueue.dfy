/** The queue as a value: what each operation does to it, stated without loops. */
module QueueSpec {
  import opened GenerationWork

  datatype Waiting = Waiting(generation: Generation, ordinal: nat)

  datatype Limits = Limits(focused: int, reactive: int, total: int) {
    function For(tier: Tier): int
      requires tier != Ambient
    {
      if tier == Focused then focused else reactive
    }

    predicate Positive() {
      focused > 0 && reactive > 0 && total > 0
    }
  }

  datatype Queue = Queue(
    waiting: seq<Waiting>,
    inFlight: map<Slot, Generation>,
    tiers: map<Tier, int>,
    claimed: set<ClaimKey>,
    arrivals: nat)

  const Empty := Queue([], map[], map[], {}, 0)

  datatype Enqueued = Enqueued(queued: bool, superseded: Option<Generation>)

  function Counter(tiers: map<Tier, int>, tier: Tier): int {
    if tier in tiers then tiers[tier] else 0
  }

  // ---- lists of waiting work ------------------------------------------------------

  function Filter(ws: seq<Waiting>, keep: Generation -> bool): seq<Waiting> {
    if ws == [] then []
    else if keep(ws[0].generation) then [ws[0]] + Filter(ws[1..], keep)
    else Filter(ws[1..], keep)
  }

  lemma {:induction false} FilterMembers(ws: seq<Waiting>, keep: Generation -> bool)
    ensures forall w :: w in Filter(ws, keep) <==> w in ws && keep(w.generation)
  {
    if ws != [] {
      FilterMembers(ws[1..], keep);
      assert forall w :: w in ws <==> w == ws[0] || w in ws[1..];
    }
  }

  function Works(ws: seq<Waiting>): (r: seq<Generation>)
    ensures |r| == |ws| && forall i :: 0 <= i < |ws| ==> r[i] == ws[i].generation
  {
    seq(|ws|, i requires 0 <= i < |ws| => ws[i].generation)
  }

  function Keys(gs: seq<Generation>): set<ClaimKey> {
    set g | g in gs :: g.claimKey
  }

  function Not(p: Generation -> bool): Generation -> bool {
    (g: Generation) => !p(g)
  }

  // ---- operations -----------------------------------------------------------------

  /** Drop every waiting item `doomed` accepts, freeing its claim key. */
  function Evict(q: Queue, doomed: Generation -> bool): (r: (Queue, seq<Generation>)) {
    var out := Works(Filter(q.waiting, doomed));
    (q.(waiting := Filter(q.waiting, Not(doomed)), claimed := q.claimed - Keys(out)), out)
  }

  function Restatement(newer: Generation): Generation -> bool {
    (g: Generation) => g.Slot() == newer.Slot() && g.Coalesced()
  }

  /** Queue one item under the next arrival number. */
  function Append(q: Queue, g: Generation): Queue {
    q.(waiting := q.waiting + [Waiting(g, q.arrivals + 1)], claimed := q.claimed + {g.claimKey}, arrivals := q.arrivals + 1)
  }

  /** A key already claimed changes nothing. Otherwise the new item joins the end, and whatever it
      restates for its NPC leaves; only the first to leave is reported. */
  function Enqueue(q: Queue, g: Generation): (Queue, Enqueued) {
    if g.claimKey in q.claimed then (q, Enqueued(false, None))
    else
      var (rest, out) := Evict(q, Restatement(g));
      (Append(rest, g), Enqueued(true, if out == [] then None else Some(out[0])))
  }

  predicate HasRoom(q: Queue, limits: Limits, tier: Tier) {
    tier != Ambient && Counter(q.tiers, tier) < limits.For(tier)
  }

  /** Neither its NPC nor its tier limit stands in the way. */
  predicate Startable(q: Queue, limits: Limits, g: Generation) {
    g.Slot() !in q.inFlight && HasRoom(q, limits, g.tier)
  }

  /** Focused before Reactive, then the one that arrived first. */
  predicate Before(a: Waiting, b: Waiting) {
    || (a.generation.tier == Focused && b.generation.tier != Focused)
    || (a.generation.tier == b.generation.tier && a.ordinal < b.ordinal)
  }

  function First(ws: seq<Waiting>): (w: Waiting)
    requires ws != []
    ensures w in ws
  {
    if |ws| == 1 then ws[0]
    else var rest := First(ws[1..]); if Before(rest, ws[0]) then rest else ws[0]
  }

  function Start(q: Queue, w: Waiting): Queue {
    var g := w.generation;
    q.(waiting := Without(q.waiting, w),
       inFlight := q.inFlight[g.Slot() := g],
       tiers := q.tiers[g.tier := Counter(q.tiers, g.tier) + 1])
  }

  function StartableWork(q: Queue, limits: Limits): seq<Waiting> {
    Filter(q.waiting, g => Startable(q, limits, g))
  }

  function ClaimNext(q: Queue, limits: Limits): (Queue, Option<Generation>) {
    if |q.inFlight| >= limits.total || StartableWork(q, limits) == [] then (q, None)
    else var w := First(StartableWork(q, limits)); (Start(q, w), Some(w.generation))
  }

  /** The list less its first item equal to `w`. */
  function Without(ws: seq<Waiting>, w: Waiting): seq<Waiting> {
    if ws == [] then []
    else if ws[0] == w then ws[1..]
    else [ws[0]] + Without(ws[1..], w)
  }

  function Release(q: Queue, g: Generation): Queue {
    q.(inFlight := q.inFlight - {g.Slot()},
       tiers := q.tiers[g.tier := Counter(q.tiers, g.tier) - 1],
       claimed := q.claimed - {g.claimKey})
  }

  // ---- the representation invariant -----------------------------------------------

  function InTier(inFlight: map<Slot, Generation>, tier: Tier): set<Slot> {
    set s | s in inFlight && inFlight[s].tier == tier
  }

  /** How an earlier waiting item stands to a later one. The last clause makes a waiting restatable
      item its NPC's newest arrival, so each NPC has at most one. */
  predicate Apart(a: Waiting, b: Waiting) {
    && a.generation.claimKey != b.generation.claimKey
    && a.ordinal < b.ordinal
    && (a.generation.Coalesced() ==> a.generation.Slot() != b.generation.Slot())
  }

  ghost predicate WellOrdered(ws: seq<Waiting>) {
    forall i, j :: 0 <= i < j < |ws| ==> Apart(ws[i], ws[j])
  }

  function InFlightKeys(q: Queue): set<ClaimKey> {
    set s | s in q.inFlight :: q.inFlight[s].claimKey
  }

  ghost predicate KeysExact(q: Queue) {
    && q.claimed == Keys(Works(q.waiting)) + InFlightKeys(q)
    && Keys(Works(q.waiting)) !! InFlightKeys(q)
    && (forall s, t :: s in q.inFlight && t in q.inFlight && s != t ==> q.inFlight[s].claimKey != q.inFlight[t].claimKey)
  }

  /** The counter of one tier is the true count, within the tier's limit; Ambient never runs. */
  ghost predicate TierExact(inFlight: map<Slot, Generation>, tiers: map<Tier, int>, limits: Limits, tier: Tier) {
    && Counter(tiers, tier) == |InTier(inFlight, tier)|
    && (InTier(inFlight, tier) == {} || (tier != Ambient && |InTier(inFlight, tier)| <= limits.For(tier)))
  }

  ghost predicate SlotsExact(q: Queue) {
    forall s :: s in q.inFlight ==> q.inFlight[s].Slot() == s
  }

  ghost predicate CountersExact(q: Queue, limits: Limits) {
    && (q.inFlight == map[] || |q.inFlight| <= limits.total)
    && forall tier :: TierExact(q.inFlight, q.tiers, limits, tier)
  }

  ghost predicate Valid(q: Queue, limits: Limits) {
    && KeysExact(q) && SlotsExact(q) && CountersExact(q, limits)
    && WellOrdered(q.waiting)
    && forall w :: w in q.waiting ==> w.ordinal <= q.arrivals
  }

  // ---- every operation keeps it ---------------------------------------------------

  lemma {:induction false} FilterWellOrdered(ws: seq<Waiting>, keep: Generation -> bool)
    requires WellOrdered(ws)
    ensures WellOrdered(Filter(ws, keep))
  {
    if ws != [] {
      FilterWellOrdered(ws[1..], keep);
      FilterMembers(ws[1..], keep);
      var rest := Filter(ws[1..], keep);
      forall j | 0 <= j < |rest| ensures Apart(ws[0], rest[j]) {
        assert rest[j] in ws[1..];
      }
    }
  }

  lemma {:induction false} WithoutWellOrdered(ws: seq<Waiting>, w: Waiting)
    requires WellOrdered(ws)
    ensures WellOrdered(Without(ws, w))
    ensures forall v :: v in Without(ws, w) <==> v in ws && v != w
  {
    if ws != [] {
      WithoutWellOrdered(ws[1..], w);
      var rest := Without(ws[1..], w);
      forall j | 0 <= j < |rest| ensures Apart(ws[0], rest[j]) {
        assert rest[j] in ws[1..];
      }
    }
  }

  lemma EvictValid(q: Queue, limits: Limits, doomed: Generation -> bool)
    requires Valid(q, limits)
    ensures Valid(Evict(q, doomed).0, limits)
  {
    var (r, out) := Evict(q, doomed);
    FilterWellOrdered(q.waiting, Not(doomed));
    FilterMembers(q.waiting, Not(doomed));
    assert Keys(Works(r.waiting)) == Keys(Works(q.waiting)) - Keys(out) by {
      KeysOfFilter(q.waiting, doomed);
    }
    KeysOfFilter(q.waiting, doomed);
    assert InFlightKeys(r) == InFlightKeys(q);
    assert r.claimed == Keys(Works(r.waiting)) + InFlightKeys(r);
  }

  lemma KeysOfFilter(ws: seq<Waiting>, doomed: Generation -> bool)
    requires WellOrdered(ws)
    ensures Keys(Works(Filter(ws, Not(doomed)))) == Keys(Works(ws)) - Keys(Works(Filter(ws, doomed)))
    ensures Keys(Works(Filter(ws, doomed))) <= Keys(Works(ws))
  {
    FilterMembers(ws, doomed);
    FilterMembers(ws, Not(doomed));
    WorksMembers(ws);
    WorksMembers(Filter(ws, doomed));
    WorksMembers(Filter(ws, Not(doomed)));
  }

  lemma WorksMembers(ws: seq<Waiting>)
    ensures forall k :: k in Keys(Works(ws)) <==> exists w :: w in ws && w.generation.claimKey == k
    ensures WellOrdered(ws) ==> forall v, w :: v in ws && w in ws && v.generation.claimKey == w.generation.claimKey ==> v == w
  {
    forall w | w in ws ensures w.generation in Works(ws) {
      var i :| 0 <= i < |ws| && ws[i] == w;
      assert Works(ws)[i] == w.generation;
    }
  }

  /** Taking `g` in at the end, once everything it restates is gone and its key is free. */
  lemma AppendValid(q: Queue, limits: Limits, g: Generation)
    requires Valid(q, limits) && g.claimKey !in q.claimed
    requires forall w :: w in q.waiting ==> !Restatement(g)(w.generation)
    ensures Valid(Append(q, g), limits)
  {
    var last := Waiting(g, q.arrivals + 1);
    AppendKeys(q.waiting, last);
    AppendWellOrdered(q, last);
    AppendStanding(q, limits, g);
    hide Works, Keys, WellOrdered, SlotsExact, CountersExact, Restatement;
  }

  lemma AppendStanding(q: Queue, limits: Limits, g: Generation)
    ensures SlotsExact(q) ==> SlotsExact(Append(q, g))
    ensures CountersExact(q, limits) ==> CountersExact(Append(q, g), limits)
  {
  }

  lemma AppendKeys(ws: seq<Waiting>, last: Waiting)
    ensures Keys(Works(ws + [last])) == Keys(Works(ws)) + {last.generation.claimKey}
  {
    WorksMembers(ws);
    WorksMembers(ws + [last]);
    assert last in ws + [last];
    assert forall w :: w in ws + [last] <==> w in ws || w == last;
    hide Works;
  }

  lemma AppendWellOrdered(q: Queue, last: Waiting)
    requires KeysExact(q) && WellOrdered(q.waiting) && last.generation.claimKey !in q.claimed
    requires forall w :: w in q.waiting ==> w.ordinal < last.ordinal && !Restatement(last.generation)(w.generation)
    ensures WellOrdered(q.waiting + [last])
  {
    WorksMembers(q.waiting);
    forall i | 0 <= i < |q.waiting| ensures Apart(q.waiting[i], last) {
      assert q.waiting[i] in q.waiting;
      assert q.waiting[i].generation.claimKey in Keys(Works(q.waiting));
    }
  }

  lemma EnqueueValid(q: Queue, limits: Limits, g: Generation)
    requires Valid(q, limits)
    ensures Valid(Enqueue(q, g).0, limits)
  {
    if g.claimKey !in q.claimed {
      EvictValid(q, limits, Restatement(g));
      FilterMembers(q.waiting, Not(Restatement(g)));
      AppendValid(Evict(q, Restatement(g)).0, limits, g);
    }
  }

  lemma StartKeys(q: Queue, w: Waiting)
    requires WellOrdered(q.waiting) && KeysExact(q) && w in q.waiting && w.generation.Slot() !in q.inFlight
    ensures KeysExact(Start(q, w))
  {
    var g, r := w.generation, Start(q, w);
    WithoutWellOrdered(q.waiting, w);
    WorksMembers(q.waiting);
    WorksMembers(r.waiting);
    assert Keys(Works(r.waiting)) == Keys(Works(q.waiting)) - {g.claimKey};
    assert InFlightKeys(r) == InFlightKeys(q) + {g.claimKey} by {
      assert forall s :: s in q.inFlight ==> r.inFlight[s] == q.inFlight[s];
      assert r.inFlight[g.Slot()] == g;
    }
    assert g.claimKey in Keys(Works(q.waiting));
  }

  lemma StartTier(inFlight: map<Slot, Generation>, tiers: map<Tier, int>, limits: Limits, g: Generation, tier: Tier)
    requires TierExact(inFlight, tiers, limits, tier) && g.Slot() !in inFlight
    requires g.tier != Ambient && Counter(tiers, g.tier) < limits.For(g.tier)
    ensures TierExact(inFlight[g.Slot() := g], tiers[g.tier := Counter(tiers, g.tier) + 1], limits, tier)
  {
    var s, r := g.Slot(), inFlight[g.Slot() := g];
    if tier == g.tier {
      assert InTier(r, tier) == InTier(inFlight, tier) + {s};
    } else {
      assert InTier(r, tier) == InTier(inFlight, tier);
    }
  }

  lemma StartValid(q: Queue, limits: Limits, w: Waiting)
    requires Valid(q, limits) && w in q.waiting
    requires Startable(q, limits, w.generation) && |q.inFlight| < limits.total
    ensures Valid(Start(q, w), limits)
  {
    StartKeys(q, w);
    WithoutWellOrdered(q.waiting, w);
    forall tier ensures TierExact(Start(q, w).inFlight, Start(q, w).tiers, limits, tier) {
      StartTier(q.inFlight, q.tiers, limits, w.generation, tier);
    }
    assert Start(q, w).inFlight.Keys == q.inFlight.Keys + {w.generation.Slot()};
  }

  predicate HeldAs(q: Queue, g: Generation) {
    && g.Slot() in q.inFlight
    && q.inFlight[g.Slot()].claimKey == g.claimKey
    && q.inFlight[g.Slot()].tier == g.tier
  }

  lemma ReleaseTier(inFlight: map<Slot, Generation>, tiers: map<Tier, int>, limits: Limits, g: Generation, tier: Tier)
    requires TierExact(inFlight, tiers, limits, tier)
    requires g.Slot() in inFlight ==> inFlight[g.Slot()].tier == g.tier
    ensures TierExact(inFlight - {g.Slot()}, tiers[g.tier := Counter(tiers, g.tier) - 1], limits, tier)
       <==> g.Slot() in inFlight || tier != g.tier
  {
    var s, r := g.Slot(), inFlight - {g.Slot()};
    if s in InTier(inFlight, tier) {
      assert InTier(r, tier) == InTier(inFlight, tier) - {s};
    } else {
      assert InTier(r, tier) == InTier(inFlight, tier);
    }
  }

  /** A release under the wrong tier leaves that tier's counter one short. */
  lemma ReleaseWrongTier(inFlight: map<Slot, Generation>, tiers: map<Tier, int>, limits: Limits, g: Generation)
    requires TierExact(inFlight, tiers, limits, g.tier)
    requires g.Slot() in inFlight && inFlight[g.Slot()].tier != g.tier
    ensures !TierExact(inFlight - {g.Slot()}, tiers[g.tier := Counter(tiers, g.tier) - 1], limits, g.tier)
  {
    assert InTier(inFlight - {g.Slot()}, g.tier) == InTier(inFlight, g.tier);
  }

  lemma ReleaseKeys(q: Queue, g: Generation)
    requires KeysExact(q) && g.Slot() in q.inFlight
    ensures KeysExact(Release(q, g)) <==> q.inFlight[g.Slot()].claimKey == g.claimKey
  {
    var s, r := g.Slot(), Release(q, g);
    var k := q.inFlight[s].claimKey;
    assert forall t :: t in r.inFlight <==> t in q.inFlight && t != s;
    assert InFlightKeys(r) == InFlightKeys(q) - {k};
    if k != g.claimKey {
      assert k in InFlightKeys(q);
      assert k in r.claimed;
    }
  }

  /** Releasing is unguarded: it keeps the queue's books exactly when the slot holds that work. */
  lemma ReleaseValid(q: Queue, limits: Limits, g: Generation)
    requires Valid(q, limits)
    ensures Valid(Release(q, g), limits) <==> HeldAs(q, g)
  {
    var r := Release(q, g);
    if g.Slot() !in q.inFlight {
      ReleaseTier(q.inFlight, q.tiers, limits, g, g.tier);
    } else if q.inFlight[g.Slot()].tier != g.tier {
      ReleaseWrongTier(q.inFlight, q.tiers, limits, g);
    } else {
      ReleaseKeys(q, g);
      forall tier ensures TierExact(r.inFlight, r.tiers, limits, tier) {
        ReleaseTier(q.inFlight, q.tiers, limits, g, tier);
      }
      assert r.inFlight.Keys == q.inFlight.Keys - {g.Slot()};
    }
  }

  /** One delivery restates at most one pending item, so reporting only the first loses nothing. */
  lemma AtMostOneSuperseded(q: Queue, g: Generation)
    requires WellOrdered(q.waiting)
    ensures |Evict(q, Restatement(g)).1| <= 1
    ensures forall prior :: prior in Evict(q, Restatement(g)).1 ==> prior.trigger != Turn && prior.Slot() == g.Slot()
  {
    var out := Filter(q.waiting, Restatement(g));
    FilterWellOrdered(q.waiting, Restatement(g));
    FilterMembers(q.waiting, Restatement(g));
    forall i | 0 <= i < |out| ensures Restatement(g)(out[i].generation) {
      assert out[i] in out;
    }
    assert |out| >= 2 ==> Apart(out[0], out[1]);
  }

  /** New work is taken in exactly when its key is not claimed. Then it waits last, and of what waited
      only the other-than-turn work of the same NPC of the same session is gone. */
  lemma TakesIn(q: Queue, limits: Limits, g: Generation)
    requires Valid(q, limits)
    ensures var (r, e) := Enqueue(q, g);
      && (e.queued <==> g.claimKey !in q.claimed)
      && (!e.queued ==> r == q && e.superseded == None)
      && (e.queued ==>
           && r.waiting != [] && r.waiting[|r.waiting| - 1].generation == g
           && r.inFlight == q.inFlight && r.tiers == q.tiers
           && forall w :: w in q.waiting ==> (w in r.waiting <==>
                !(w.generation.sessionId == g.sessionId && w.generation.npcId == g.npcId && w.generation.trigger != Turn)))
  {
    if g.claimKey !in q.claimed {
      FilterMembers(q.waiting, Not(Restatement(g)));
      var last := Waiting(g, q.arrivals + 1);
      assert forall w :: w in q.waiting ==> w != last;
    }
  }

  // ---- dispatch order and work conservation ---------------------------------------

  lemma {:induction false} FirstIsLeast(ws: seq<Waiting>)
    requires ws != [] && WellOrdered(ws)
    requires forall w :: w in ws ==> w.generation.tier != Ambient
    ensures forall v :: v in ws && v.generation.tier == Focused ==> First(ws).generation.tier == Focused
    ensures forall v :: v in ws && v.generation.tier == First(ws).generation.tier ==> First(ws).ordinal <= v.ordinal
  {
    if |ws| > 1 {
      FirstIsLeast(ws[1..]);
      assert forall v :: v in ws <==> v == ws[0] || v in ws[1..];
      var rest := First(ws[1..]);
      assert rest in ws[1..];
      assert ws[0].ordinal < rest.ordinal by {
        var i :| 0 <= i < |ws| - 1 && ws[1..][i] == rest;
        assert Apart(ws[0], ws[i + 1]);
      }
    }
  }

  lemma StartableMembers(q: Queue, limits: Limits)
    ensures forall w :: w in StartableWork(q, limits) <==> w in q.waiting && Startable(q, limits, w.generation)
  {
    FilterMembers(q.waiting, g => Startable(q, limits, g));
  }

  /** Something runs for its NPC, or its tier is full, or its tier never runs. */
  ghost predicate Blocked(q: Queue, limits: Limits, g: Generation) {
    || (exists h :: h in q.inFlight.Values && h.sessionId == g.sessionId && h.npcId == g.npcId)
    || g.tier == Ambient
    || (g.tier == Focused && |InTier(q.inFlight, Focused)| >= limits.focused)
    || (g.tier == Reactive && |InTier(q.inFlight, Reactive)| >= limits.reactive)
  }

  lemma StartableIff(q: Queue, limits: Limits, g: Generation)
    requires Valid(q, limits)
    ensures Startable(q, limits, g) <==> !Blocked(q, limits, g)
  {
    assert TierExact(q.inFlight, q.tiers, limits, g.tier);
    if g.Slot() in q.inFlight {
      assert q.inFlight[g.Slot()] in q.inFlight.Values;
    }
    if h :| h in q.inFlight.Values && h.sessionId == g.sessionId && h.npcId == g.npcId {
      var s :| s in q.inFlight && q.inFlight[s] == h;
      assert g.Slot() == s;
    }
  }

  /** What `claim_next` hands out is not blocked; no unblocked item is Focused unless it is too, and
      none of its tier arrived before it. It hands out nothing only when the total binds or
      everything is blocked. */
  lemma ClaimsLeast(q: Queue, limits: Limits)
    requires Valid(q, limits)
    ensures match ClaimNext(q, limits)
      case (r, None) => r == q &&
        (|q.inFlight| >= limits.total || forall w :: w in q.waiting ==> Blocked(q, limits, w.generation))
      case (r, Some(g)) => |q.inFlight| < limits.total && exists w ::
        && w in q.waiting && w.generation == g && r == Start(q, w) && !Blocked(q, limits, g)
        && forall v :: v in q.waiting && !Blocked(q, limits, v.generation) ==>
             && (v.generation.tier == Focused ==> g.tier == Focused)
             && (v.generation.tier == g.tier ==> w.ordinal <= v.ordinal)
  {
    var ready := StartableWork(q, limits);
    StartableMembers(q, limits);
    forall w | w in q.waiting ensures w in ready <==> !Blocked(q, limits, w.generation) {
      StartableIff(q, limits, w.generation);
    }
    if ready == [] {
      forall w | w in q.waiting ensures Blocked(q, limits, w.generation) {
        assert w !in ready;
      }
    } else {
      FilterWellOrdered(q.waiting, g => Startable(q, limits, g));
      hide Blocked;
      FirstIsLeast(ready);
    }
  }

  lemma ClaimNextValid(q: Queue, limits: Limits)
    requires Valid(q, limits)
    ensures Valid(ClaimNext(q, limits).0, limits)
  {
    ClaimsLeast(q, limits);
    StartableMembers(q, limits);
    if ClaimNext(q, limits).1.Some? {
      StartValid(q, limits, First(StartableWork(q, limits)));
    }
  }

  lemma InFlightByTier(q: Queue, limits: Limits)
    requires Valid(q, limits)
    ensures |q.inFlight| == |InTier(q.inFlight, Focused)| + |InTier(q.inFlight, Reactive)|
  {
    var f, r, a := InTier(q.inFlight, Focused), InTier(q.inFlight, Reactive), InTier(q.inFlight, Ambient);
    assert TierExact(q.inFlight, q.tiers, limits, Ambient);
    assert q.inFlight.Keys == f + r + a;
  }

  /** When the total covers both tier limits it never binds: work stays waiting only behind its own
      NPC or its own tier, so Focused load cannot hold back Reactive work. */
  lemma WorkConserving(q: Queue, limits: Limits)
    requires Valid(q, limits) && limits.Positive() && limits.total >= limits.focused + limits.reactive
    ensures ClaimNext(q, limits).1 == None <==> forall w :: w in q.waiting ==> Blocked(q, limits, w.generation)
  {
    ClaimsLeast(q, limits);
    InFlightByTier(q, limits);
    assert TierExact(q.inFlight, q.tiers, limits, Focused);
    assert TierExact(q.inFlight, q.tiers, limits, Reactive);
  }

  /** With nothing running, anything waiting that policy may queue can start. */
  lemma NothingRunningStarts(q: Queue, limits: Limits)
    requires Valid(q, limits) && limits.Positive() && q.inFlight == map[]
    requires forall w :: w in q.waiting ==> w.generation.Generates()
    ensures ClaimNext(q, limits).1 == None <==> q.waiting == []
  {
    ClaimsLeast(q, limits);
    assert TierExact(q.inFlight, q.tiers, limits, Focused) && InTier(q.inFlight, Focused) == {};
    assert TierExact(q.inFlight, q.tiers, limits, Reactive) && InTier(q.inFlight, Reactive) == {};
    if q.waiting != [] {
      assert q.waiting[0] in q.waiting;
      assert !Blocked(q, limits, q.waiting[0].generation);
    }
  }

  // ---- nothing is lost ------------------------------------------------------------

  ghost function Held(q: Queue): multiset<Generation> {
    multiset(Works(q.waiting)) + multiset(q.inFlight.Values)
  }

  lemma {:induction false} FilterSplits(ws: seq<Waiting>, p: Generation -> bool)
    ensures multiset(Works(ws)) == multiset(Works(Filter(ws, p))) + multiset(Works(Filter(ws, Not(p))))
  {
    if ws != [] {
      FilterSplits(ws[1..], p);
      WorksHead(ws);
      if p(ws[0].generation) {
        WorksHead(Filter(ws, p));
        assert Filter(ws, Not(p)) == Filter(ws[1..], Not(p));
      } else {
        WorksHead(Filter(ws, Not(p)));
        assert Filter(ws, p) == Filter(ws[1..], p);
      }
    }
  }

  lemma WorksHead(ws: seq<Waiting>)
    requires ws != []
    ensures multiset(Works(ws)) == multiset{ws[0].generation} + multiset(Works(ws[1..]))
  {
    assert Works(ws) == [ws[0].generation] + Works(ws[1..]);
  }

  lemma {:induction false} WithoutWorks(ws: seq<Waiting>, w: Waiting)
    requires w in ws
    ensures multiset(Works(ws)) == multiset(Works(Without(ws, w))) + multiset{w.generation}
  {
    WorksHead(ws);
    if ws[0] != w {
      WithoutWorks(ws[1..], w);
      WorksHead(Without(ws, w));
      assert Without(ws, w)[1..] == Without(ws[1..], w);
    }
  }

  datatype Operation =
    | Offer(work: Generation)
    | Claim
    | Finish(work: Generation)
    | Drop(doomed: Generation -> bool)

  /** The queue together with every piece of work its callers were told about. */
  datatype Ledger = Ledger(
    queue: Queue, accepted: multiset<Generation>, released: multiset<Generation>, reported: multiset<Generation>)

  function Taken(e: Enqueued, g: Generation): multiset<Generation> {
    if e.queued then multiset{g} else multiset{}
  }

  function Displaced(e: Enqueued): multiset<Generation> {
    if e.superseded.Some? then multiset{e.superseded.value} else multiset{}
  }

  function After(l: Ledger, limits: Limits, op: Operation): Ledger {
    match op
    case Offer(g) =>
      var (q, e) := Enqueue(l.queue, g);
      l.(queue := q, accepted := l.accepted + Taken(e, g), reported := l.reported + Displaced(e))
    case Claim =>
      l.(queue := ClaimNext(l.queue, limits).0)
    case Finish(g) =>
      l.(queue := Release(l.queue, g), released := l.released + multiset{g})
    case Drop(doomed) =>
      var (q, out) := Evict(l.queue, doomed);
      l.(queue := q, reported := l.reported + multiset(out))
  }

  function Run(l: Ledger, limits: Limits, ops: seq<Operation>): Ledger
    decreases |ops|
  {
    if ops == [] then l else Run(After(l, limits, ops[0]), limits, ops[1..])
  }

  /** The scheduler finishes only work it is running. */
  ghost predicate Permitted(l: Ledger, limits: Limits, ops: seq<Operation>)
    decreases |ops|
  {
    ops == [] ||
    ((ops[0].Finish? ==> Runs(l.queue, ops[0].work))
      && Permitted(After(l, limits, ops[0]), limits, ops[1..]))
  }

  ghost predicate Booked(l: Ledger) {
    l.accepted == Held(l.queue) + (l.released + l.reported)
  }

  ghost predicate Balanced(l: Ledger, limits: Limits) {
    Valid(l.queue, limits) && Booked(l)
  }

  /** Whole-run bookkeeping moves by what one step took in and let go. */
  lemma Rebalance(
      accepted: multiset<Generation>, held: multiset<Generation>, out: multiset<Generation>,
      taken: multiset<Generation>, after: multiset<Generation>, gone: multiset<Generation>)
    requires accepted == held + out && held + taken == after + gone
    ensures accepted + taken == after + (out + gone)
  {
    assert accepted + taken == (held + taken) + out;
    assert after + (out + gone) == (after + gone) + out;
  }

  lemma Swap(a: multiset<Generation>, b: multiset<Generation>, c: multiset<Generation>)
    ensures a + b + c == a + c + b
  {
  }

  lemma ValuesPut(m: map<Slot, Generation>, g: Generation)
    requires g.Slot() !in m && forall s :: s in m ==> m[s].Slot() == s
    ensures multiset(m[g.Slot() := g].Values) == multiset(m.Values) + multiset{g}
  {
    var r := m[g.Slot() := g];
    assert r[g.Slot()] == g && g !in m.Values;
    assert r.Values == m.Values + {g} by {
      forall x | x in m.Values ensures x in r.Values {
        var s :| s in m && m[s] == x;
        assert r[s] == x;
      }
    }
  }

  lemma StartHeld(q: Queue, w: Waiting)
    requires w in q.waiting && SlotsExact(q) && w.generation.Slot() !in q.inFlight
    ensures Held(Start(q, w)) == Held(q)
  {
    WithoutWorks(q.waiting, w);
    ValuesPut(q.inFlight, w.generation);
  }

  lemma ReleaseHeld(q: Queue, g: Generation)
    requires SlotsExact(q) && Runs(q, g)
    ensures Held(Release(q, g)) + multiset{g} == Held(q)
  {
    var rest := q.inFlight - {g.Slot()};
    ValuesPut(rest, g);
    assert rest[g.Slot() := g] == q.inFlight;
  }

  lemma EvictHeld(q: Queue, doomed: Generation -> bool)
    ensures Held(q) == Held(Evict(q, doomed).0) + multiset(Evict(q, doomed).1)
  {
    FilterSplits(q.waiting, doomed);
  }

  lemma AppendHeld(q: Queue, g: Generation)
    ensures Held(Append(q, g)) == Held(q) + multiset{g}
  {
    assert Works(q.waiting + [Waiting(g, q.arrivals + 1)]) == Works(q.waiting) + [g];
  }

  lemma EnqueueHeld(q: Queue, g: Generation)
    requires |Evict(q, Restatement(g)).1| <= 1
    ensures var (r, e) := Enqueue(q, g); Held(q) + Taken(e, g) == Held(r) + Displaced(e)
  {
    if g.claimKey !in q.claimed {
      var (rest, out) := Evict(q, Restatement(g));
      EvictHeld(q, Restatement(g));
      AppendHeld(rest, g);
      var e := Enqueue(q, g).1;
      FirstIsAll(out);
      hide Evict, Held, Append;
      Swap(Held(rest), Displaced(e), Taken(e, g));
    }
  }

  lemma FirstIsAll(out: seq<Generation>)
    requires |out| <= 1
    ensures multiset(out) == if out == [] then multiset{} else multiset{out[0]}
  {
    assert out == [] || out == [out[0]];
  }

  lemma OfferBalanced(l: Ledger, limits: Limits, g: Generation)
    requires Balanced(l, limits)
    ensures Balanced(After(l, limits, Offer(g)), limits)
  {
    var (q, e) := Enqueue(l.queue, g);
    EnqueueValid(l.queue, limits, g);
    AtMostOneSuperseded(l.queue, g);
    EnqueueHeld(l.queue, g);
    BooksMove(l, After(l, limits, Offer(g)), Taken(e, g), Displaced(e), multiset{});
  }

  lemma BooksMove(l: Ledger, r: Ledger, taken: multiset<Generation>, reported: multiset<Generation>, released: multiset<Generation>)
    requires Booked(l) && Held(l.queue) + taken == Held(r.queue) + (reported + released)
    requires r.accepted == l.accepted + taken && r.reported == l.reported + reported && r.released == l.released + released
    ensures Booked(r)
  {
    Rebalance(l.accepted, Held(l.queue), l.released + l.reported, taken, Held(r.queue), reported + released);
    assert l.released + l.reported + (reported + released) == r.released + r.reported;
  }

  lemma ClaimBalanced(l: Ledger, limits: Limits)
    requires Balanced(l, limits)
    ensures Balanced(After(l, limits, Claim), limits)
  {
    ClaimNextValid(l.queue, limits);
    ClaimsLeast(l.queue, limits);
    StartableMembers(l.queue, limits);
    if ClaimNext(l.queue, limits).1.Some? {
      StartHeld(l.queue, First(StartableWork(l.queue, limits)));
    }
  }

  predicate Runs(q: Queue, g: Generation) {
    g.Slot() in q.inFlight && q.inFlight[g.Slot()] == g
  }

  lemma FinishBalanced(l: Ledger, limits: Limits, g: Generation)
    requires Balanced(l, limits) && Runs(l.queue, g)
    ensures Balanced(After(l, limits, Finish(g)), limits)
  {
    ReleaseValid(l.queue, limits, g);
    ReleaseHeld(l.queue, g);
    BooksMove(l, After(l, limits, Finish(g)), multiset{}, multiset{}, multiset{g});
  }

  lemma DropBalanced(l: Ledger, limits: Limits, doomed: Generation -> bool)
    requires Balanced(l, limits)
    ensures Balanced(After(l, limits, Drop(doomed)), limits)
  {
    EvictValid(l.queue, limits, doomed);
    EvictHeld(l.queue, doomed);
    BooksMove(l, After(l, limits, Drop(doomed)), multiset{}, multiset(Evict(l.queue, doomed).1), multiset{});
  }

  /** Over every run the accepted work is exactly what waits, runs, was released or was reported. */
  lemma {:induction false} NothingIsLost(l: Ledger, limits: Limits, ops: seq<Operation>)
    requires Balanced(l, limits) && Permitted(l, limits, ops)
    decreases |ops|
    ensures Balanced(Run(l, limits, ops), limits)
  {
    if ops != [] {
      match ops[0] {
        case Offer(g) => OfferBalanced(l, limits, g);
        case Claim => ClaimBalanced(l, limits);
        case Finish(g) => FinishBalanced(l, limits, g);
        case Drop(doomed) => DropBalanced(l, limits, doomed);
      }
      NothingIsLost(After(l, limits, ops[0]), limits, ops[1..]);
    }
  }

  lemma EmptyBalanced(limits: Limits)
    ensures Balanced(Ledger(Empty, multiset{}, multiset{}, multiset{}), limits)
  {
    forall tier ensures TierExact(Empty.inFlight, Empty.tiers, limits, tier) {
      assert InTier(Empty.inFlight, tier) == {};
    }
  }
}

/** The queue as the object the scheduler holds, changed in place. */
module GenerationQueues {
  import opened GenerationWork
  import opened QueueSpec

  class GenerationQueue {
    const limits: Limits
    var waiting: seq<Waiting>
    var inFlight: map<Slot, Generation>
    var inFlightTiers: map<Tier, int>
    var claimed: set<ClaimKey>
    var arrivals: nat

    ghost function Contents(): Queue
      reads this
    {
      Queue(waiting, inFlight, inFlightTiers, claimed, arrivals)
    }

    ghost predicate Valid()
      reads this
    {
      QueueSpec.Valid(Contents(), limits)
    }

    constructor (limits: Limits)
      ensures this.limits == limits && Contents() == Empty && Valid()
    {
      this.limits := limits;
      waiting, inFlight, inFlightTiers, claimed, arrivals := [], map[], map[], {}, 0;
      new;
      EmptyBalanced(limits);
    }

    method Offer(generation: Generation) returns (outcome: Enqueued)
      requires Valid()
      modifies this
      ensures Valid()
      ensures (Contents(), outcome) == QueueSpec.Enqueue(old(Contents()), generation)
    {
      EnqueueValid(Contents(), limits, generation);
      WaitsOnce(Contents(), limits);
      hide QueueSpec.Valid, Evict, Restatement, Distinct;
      if generation.claimKey in claimed {
        return Enqueued(false, None);
      }
      var superseded := EvictMatching(Restatement(generation));
      arrivals := arrivals + 1;
      waiting := waiting + [Waiting(generation, arrivals)];
      claimed := claimed + {generation.claimKey};
      outcome := Enqueued(true, if superseded == [] then None else Some(superseded[0]));
    }

    method ClaimNext() returns (work: Option<Generation>)
      requires Valid()
      modifies this
      ensures Valid()
      ensures (Contents(), work) == QueueSpec.ClaimNext(old(Contents()), limits)
    {
      ClaimNextValid(Contents(), limits);
      if |inFlight| >= limits.total {
        return None;
      }
      var startable := StartableWork(Queue(waiting, inFlight, inFlightTiers, claimed, arrivals), limits);
      if startable == [] {
        return None;
      }
      var chosen := First(startable);
      var generation := chosen.generation;
      waiting := Without(waiting, chosen);
      inFlight := inFlight[generation.Slot() := generation];
      inFlightTiers := inFlightTiers[generation.tier := Counter(inFlightTiers, generation.tier) + 1];
      work := Some(generation);
    }

    method Release(generation: Generation)
      requires Valid()
      modifies this
      ensures Contents() == QueueSpec.Release(old(Contents()), generation)
      ensures Valid() <==> HeldAs(old(Contents()), generation)
    {
      ReleaseValid(Contents(), limits, generation);
      inFlight := inFlight - {generation.Slot()};
      inFlightTiers := inFlightTiers[generation.tier := Counter(inFlightTiers, generation.tier) - 1];
      claimed := claimed - {generation.claimKey};
    }

    method Cancel(matches: Generation -> bool) returns (dropped: seq<Generation>)
      requires Valid()
      modifies this
      ensures Valid()
      ensures (Contents(), dropped) == Evict(old(Contents()), matches)
    {
      EvictValid(Contents(), limits, matches);
      dropped := EvictMatching(matches);
    }

    method EvictMatching(matches: Generation -> bool) returns (dropped: seq<Generation>)
      requires Distinct(waiting)
      modifies this`waiting, this`claimed
      ensures (Contents(), dropped) == Evict(old(Contents()), matches)
    {
      var doomed := Filter(waiting, matches);
      var i := 0;
      while i < |doomed|
        invariant 0 <= i <= |doomed|
        invariant Minus(waiting, doomed[i..]) == Minus(old(waiting), doomed)
        invariant claimed == old(claimed) - Keys(Works(doomed[..i]))
      {
        assert doomed[i..][1..] == doomed[i + 1..];
        KeysPush(doomed, i);
        waiting := Without(waiting, doomed[i]);
        claimed := claimed - {doomed[i].generation.claimKey};
        i := i + 1;
      }
      assert doomed[..i] == doomed && Minus(waiting, []) == waiting;
      MinusFilter(old(waiting), matches);
      dropped := Works(doomed);
    }
  }

  lemma WaitsOnce(q: Queue, limits: Limits)
    requires QueueSpec.Valid(q, limits)
    ensures Distinct(q.waiting)
  {
  }

  lemma KeysPush(ws: seq<Waiting>, i: nat)
    requires i < |ws|
    ensures Keys(Works(ws[..i + 1])) == Keys(Works(ws[..i])) + {ws[i].generation.claimKey}
  {
    assert Works(ws[..i + 1]) == Works(ws[..i]) + [ws[i].generation];
  }

  ghost predicate Distinct(ws: seq<Waiting>) {
    forall i, j :: 0 <= i < j < |ws| ==> ws[i] != ws[j]
  }

  function Minus(ws: seq<Waiting>, out: seq<Waiting>): seq<Waiting>
    decreases |out|
  {
    if out == [] then ws else Minus(Without(ws, out[0]), out[1..])
  }

  lemma {:induction false} MinusHead(w: Waiting, ws: seq<Waiting>, out: seq<Waiting>)
    requires w !in out
    decreases |out|
    ensures Minus([w] + ws, out) == [w] + Minus(ws, out)
  {
    if out != [] {
      assert Without([w] + ws, out[0]) == [w] + Without(ws, out[0]);
      MinusHead(w, Without(ws, out[0]), out[1..]);
    }
  }

  /** Taking the doomed items out one by one leaves exactly the others, in order. */
  lemma {:induction false} MinusFilter(ws: seq<Waiting>, doomed: Generation -> bool)
    requires Distinct(ws)
    ensures Minus(ws, Filter(ws, doomed)) == Filter(ws, Not(doomed))
  {
    if ws != [] {
      var w, rest := ws[0], ws[1..];
      assert ws == [w] + rest;
      assert w !in rest && Distinct(rest);
      MinusFilter(rest, doomed);
      if doomed(w.generation) {
        assert Filter(ws, doomed) == [w] + Filter(rest, doomed);
        assert Without(ws, w) == rest;
        assert ([w] + Filter(rest, doomed))[1..] == Filter(rest, doomed);
      } else {
        assert Filter(ws, doomed) == Filter(rest, doomed);
        FilterMembers(rest, doomed);
        MinusHead(w, rest, Filter(rest, doomed));
      }
    }
  }
}
