/** Delivering one stored command: a repeating retry cadence inside the command's lifetime.

    This is where the loop itself and its clock are modelled; `DurableStores.Publisher` carries what
    the same delivery does to the rows. */
module BehaviourPublishers {

  datatype Status = PENDING | PUBLISHED | EXPIRED

  datatype StoredCommand = StoredCommand(commandId: string, expiresAtMs: int, serialized: string)

  /** One send: when it started, the bytes it carried, and whether it got through. */
  datatype Send = Send(atMs: int, bytes: string, delivered: bool)

  // ---- the cadence -----------------------------------------------------------------

  function Sum(delays: seq<nat>): nat {
    if delays == [] then 0 else Sum(delays[..|delays| - 1]) + delays[|delays| - 1]
  }

  /** The least time between the first attempt and attempt `n`, the cadence repeating unchanged. */
  function Elapsed(delays: seq<nat>, n: nat): nat {
    if delays == [] then 0
    else if n < |delays| then Sum(delays[..n])
    else Sum(delays) + Elapsed(delays, n - |delays|)
  }

  /** Where in the cadence the delay after attempt `n` stands. */
  function Turn(delays: seq<nat>, n: nat): (i: nat)
    requires delays != []
    ensures i < |delays|
  {
    if n < |delays| then n else Turn(delays, n - |delays|)
  }

  lemma {:induction false} TurnNext(delays: seq<nat>, n: nat)
    requires delays != []
    ensures Turn(delays, n + 1) == if Turn(delays, n) + 1 == |delays| then 0 else Turn(delays, n) + 1
  {
    if n >= |delays| {
      TurnNext(delays, n - |delays|);
    }
  }

  /** Each attempt comes its own delay after the one before, across the ends of rounds. */
  lemma {:induction false} ElapsedNext(delays: seq<nat>, n: nat)
    requires delays != []
    ensures Elapsed(delays, n + 1) == Elapsed(delays, n) + delays[Turn(delays, n)]
  {
    var k := |delays|;
    if n >= k {
      ElapsedNext(delays, n - k);
    } else {
      assert delays[..n + 1][..n] == delays[..n];
      if n + 1 == k {
        assert delays[..k] == delays && delays[..0] == [];
        assert Elapsed(delays, 0) == 0;
      }
    }
  }

  function CeilDiv(a: int, b: nat): nat
    requires b > 0
  {
    if a <= 0 then 0 else 1 + CeilDiv(a - b, b)
  }

  /** The least number of steps of length `b` that cover `a`. */
  lemma {:induction false} CeilDivIsCeiling(a: int, b: nat)
    requires b > 0
    ensures CeilDiv(a, b) * b >= a
    ensures CeilDiv(a, b) > 0 ==> (CeilDiv(a, b) - 1) * b < a
    decreases if a < 0 then 0 else a
  {
    if a > 0 {
      CeilDivIsCeiling(a - b, b);
      var q := CeilDiv(a - b, b);
      assert (1 + q) * b == b + q * b;
      assert q > 0 ==> q * b == b + (q - 1) * b;
    }
  }

  lemma OneMoreTime(a: nat, b: nat)
    ensures (a + 1) * b == a * b + b && b * (a + 1) == b * a + b && b * a >= 0
  {
  }

  /** The cadence takes at least its sum for every full round. */
  lemma {:induction false} ElapsedCovers(delays: seq<nat>, n: nat, rounds: nat)
    requires delays != [] && n >= |delays| * rounds
    ensures Elapsed(delays, n) >= rounds * Sum(delays)
  {
    if rounds > 0 {
      OneMoreTime(rounds - 1, |delays|);
      OneMoreTime(rounds - 1, Sum(delays));
      ElapsedCovers(delays, n - |delays|, rounds - 1);
    }
  }

  /** By attempt k * ceil(life / D) the cadence alone has used the whole remaining life. */
  lemma LifeRunsOut(delays: seq<nat>, life: int, n: nat)
    requires Sum(delays) > 0 && n >= MostSends(delays, life)
    ensures Elapsed(delays, n) >= life
  {
    ElapsedCovers(delays, n, CeilDiv(life, Sum(delays)));
    CeilDivIsCeiling(life, Sum(delays));
  }

  /** k * ceil(life / D): the most sends a lifetime has room for. */
  function MostSends(delays: seq<nat>, life: int): nat
    requires Sum(delays) > 0
  {
    |delays| * CeilDiv(life, Sum(delays))
  }

  lemma {:induction false} SumIsZero(delays: seq<nat>)
    ensures Sum(delays) == 0 <==> forall i :: 0 <= i < |delays| ==> delays[i] == 0
  {
    if delays != [] {
      var n := |delays| - 1;
      SumIsZero(delays[..n]);
      assert forall i :: 0 <= i < n ==> delays[..n][i] == delays[i];
    }
  }

  // ---- a delivery as a function of what the world does -------------------------------

  /** What the world does with one attempt: how late its sleep ends, how long its send takes, and
      whether the send gets through. */
  datatype Choice = Choice(late: nat, took: nat, delivered: bool)

  type Fate = nat -> Choice

  datatype Verdict = Trying | Delivered | Expired

  /** The clock, this delivery's own sends, and whether it has ended. */
  datatype Progress = Progress(nowMs: int, sends: seq<Send>, verdict: Verdict)

  function TryOnce(stored: StoredCommand, p: Progress, delayMs: nat, c: Choice): Progress {
    var nowMs := if delayMs == 0 then p.nowMs else p.nowMs + delayMs + c.late;
    if nowMs >= stored.expiresAtMs then Progress(nowMs, p.sends, Expired)
    else Progress(
      nowMs + c.took, p.sends + [Send(nowMs, stored.serialized, c.delivered)], if c.delivered then Delivered else Trying)
  }

  /** One pass over a list of delays, cut short when the delivery ends. */
  function Pass(stored: StoredCommand, p: Progress, delays: seq<nat>, fate: Fate): Progress
    decreases |delays|
  {
    if delays == [] || !p.verdict.Trying? then p
    else Pass(stored, TryOnce(stored, p, delays[0], fate(|p.sends|)), delays[1..], fate)
  }

  /** The first pass starts with an attempt that waits for nothing. */
  function DelaysOf(retryDelaysMs: seq<nat>, pass: nat): seq<nat> {
    if pass == 0 then [0] + retryDelaysMs else retryDelaysMs
  }

  function Passes(stored: StoredCommand, startMs: int, retryDelaysMs: seq<nat>, n: nat, fate: Fate): Progress {
    if n == 0 then Progress(startMs, [], Trying)
    else Pass(stored, Passes(stored, startMs, retryDelaysMs, n - 1, fate), DelaysOf(retryDelaysMs, n - 1), fate)
  }

  // ---- what every pass keeps ----------------------------------------------------------

  ghost predicate SendsOk(sends: seq<Send>, stored: StoredCommand, startMs: int, delays: seq<nat>) {
    forall i :: 0 <= i < |sends| ==>
      && sends[i].bytes == stored.serialized
      && startMs + Elapsed(delays, i) <= sends[i].atMs < stored.expiresAtMs
  }

  ghost predicate AllFailed(sends: seq<Send>) {
    forall i :: 0 <= i < |sends| ==> !sends[i].delivered
  }

  /** Only the last send of a delivered command got through. */
  ghost predicate EndedBy(delivered: bool, sends: seq<Send>) {
    if delivered then sends != [] && sends[|sends| - 1].delivered && AllFailed(sends[..|sends| - 1]) else AllFailed(sends)
  }

  ghost predicate Good(stored: StoredCommand, startMs: int, delays: seq<nat>, p: Progress) {
    && SendsOk(p.sends, stored, startMs, delays) && EndedBy(p.verdict.Delivered?, p.sends)
    && (p.verdict.Expired? ==> p.nowMs >= stored.expiresAtMs)
    && p.nowMs >= startMs + if p.sends == [] then 0 else Elapsed(delays, |p.sends| - 1)
  }

  /** The delay slept before attempt `n` is the next one of the cadence. */
  predicate Next(delays: seq<nat>, n: nat, delayMs: nat) {
    if n == 0 then delayMs == 0 else delays != [] && delayMs == delays[Turn(delays, n - 1)]
  }

  lemma OneMoreSend(sends: seq<Send>, stored: StoredCommand, startMs: int, delays: seq<nat>, atMs: int, delivered: bool)
    requires SendsOk(sends, stored, startMs, delays) && EndedBy(false, sends)
    requires startMs + Elapsed(delays, |sends|) <= atMs < stored.expiresAtMs
    ensures SendsOk(sends + [Send(atMs, stored.serialized, delivered)], stored, startMs, delays)
    ensures EndedBy(delivered, sends + [Send(atMs, stored.serialized, delivered)])
  {
    var after := sends + [Send(atMs, stored.serialized, delivered)];
    hide Elapsed;
    assert after[..|after| - 1] == sends;
  }

  lemma TryKeeps(stored: StoredCommand, startMs: int, delays: seq<nat>, p: Progress, delayMs: nat, c: Choice)
    requires Good(stored, startMs, delays, p) && p.verdict.Trying? && Next(delays, |p.sends|, delayMs)
    ensures Good(stored, startMs, delays, TryOnce(stored, p, delayMs, c))
  {
    var nowMs := if delayMs == 0 then p.nowMs else p.nowMs + delayMs + c.late;
    WaitedEnough(startMs, delays, |p.sends|, p.nowMs, delayMs, nowMs);
    hide Elapsed, Next, SendsOk, EndedBy;
    if nowMs < stored.expiresAtMs {
      OneMoreSend(p.sends, stored, startMs, delays, nowMs, c.delivered);
    }
  }

  lemma WaitedEnough(startMs: int, delays: seq<nat>, n: nat, wasMs: int, delayMs: nat, nowMs: int)
    requires Next(delays, n, delayMs) && wasMs >= startMs + (if n == 0 then 0 else Elapsed(delays, n - 1))
    requires nowMs >= wasMs + delayMs
    ensures nowMs >= startMs + Elapsed(delays, n)
  {
    if n == 0 {
      NothingElapsed(delays);
    } else {
      ElapsedNext(delays, n - 1);
    }
    hide Elapsed, Turn;
  }

  lemma NothingElapsed(delays: seq<nat>)
    ensures Elapsed(delays, 0) == 0
  {
    assert delays[..0] == [];
  }

  /** The rest of a pass is in turn: what follows `n` attempts begins at the right delay. */
  ghost predicate InTurn(delays: seq<nat>, n: nat, rest: seq<nat>)
    decreases |rest|
  {
    rest != [] ==> Next(delays, n, rest[0]) && InTurn(delays, n + 1, rest[1..])
  }

  lemma {:induction false} SuffixInTurn(delays: seq<nat>, n: nat, i: nat)
    requires n > 0 && i <= |delays| && (i < |delays| ==> Turn(delays, n - 1) == i)
    ensures InTurn(delays, n, delays[i..])
    decreases |delays| - i
  {
    if i < |delays| {
      TurnNext(delays, n - 1);
      SuffixInTurn(delays, n + 1, i + 1);
      assert delays[i..][1..] == delays[i + 1..];
    }
  }

  lemma PassInTurn(delays: seq<nat>, pass: nat, n: nat)
    requires if pass == 0 then n == 0 else n > 0 && (delays != [] ==> Turn(delays, n - 1) == 0)
    ensures InTurn(delays, n, DelaysOf(delays, pass))
  {
    assert delays[0..] == delays && ([0] + delays)[1..] == delays;
    SuffixInTurn(delays, if pass == 0 then 1 else n, 0);
  }

  lemma {:induction false} PassKeeps(
      stored: StoredCommand, startMs: int, delays: seq<nat>, p: Progress, rest: seq<nat>, fate: Fate)
    requires Good(stored, startMs, delays, p) && InTurn(delays, |p.sends|, rest)
    ensures var q := Pass(stored, p, rest, fate);
            && Good(stored, startMs, delays, q)
            && (q.verdict.Trying? ==> p.verdict.Trying? && |q.sends| == |p.sends| + |rest|)
    decreases |rest|
  {
    hide Good, Next;
    if rest != [] && p.verdict.Trying? {
      TryKeeps(stored, startMs, delays, p, rest[0], fate(|p.sends|));
      var q := TryOnce(stored, p, rest[0], fate(|p.sends|));
      if q.verdict.Trying? {
        PassKeeps(stored, startMs, delays, q, rest[1..], fate);
      }
    }
  }

  lemma {:induction false} TurnRound(delays: seq<nat>, n: nat)
    requires delays != []
    ensures Turn(delays, n + |delays|) == Turn(delays, n)
  {
  }

  lemma StartIsGood(stored: StoredCommand, startMs: int, delays: seq<nat>)
    ensures Good(stored, startMs, delays, Progress(startMs, [], Trying))
  {
  }

  /** A pass that did not end the delivery made all its attempts and left the cadence at its start. */
  lemma {:induction false} PassesKeep(stored: StoredCommand, startMs: int, delays: seq<nat>, n: nat, fate: Fate)
    ensures var p := Passes(stored, startMs, delays, n, fate);
            && Good(stored, startMs, delays, p)
            && (p.verdict.Trying? && n > 0 ==> |p.sends| > 0 && (delays != [] ==> Turn(delays, |p.sends| - 1) == 0 && |p.sends| >= n))
            && (n == 0 ==> p.sends == [])
  {
    if n == 0 {
      StartIsGood(stored, startMs, delays);
    } else {
      var before := Passes(stored, startMs, delays, n - 1, fate);
      PassesKeep(stored, startMs, delays, n - 1, fate);
      if before.verdict.Trying? {
        PassInTurn(delays, n - 1, |before.sends|);
        PassKeeps(stored, startMs, delays, before, DelaysOf(delays, n - 1), fate);
        if delays != [] {
          TurnRound(delays, if n == 1 then 0 else |before.sends| - 1);
        }
      }
      hide Good, InTurn, Pass;
    }
  }

  // ---- what a delivery promises -------------------------------------------------------

  /** After any number of passes in any world: every send carried the stored bytes, started before
      expiry and no earlier than the cadence allows; only the last can have got through, exactly when
      the verdict says so; and an expired command's time is really over. */
  lemma DeliveryKeepsItsPromises(stored: StoredCommand, startMs: int, delays: seq<nat>, n: nat, fate: Fate)
    ensures var p := Passes(stored, startMs, delays, n, fate);
            && SendsOk(p.sends, stored, startMs, delays)
            && EndedBy(p.verdict.Delivered?, p.sends)
            && (p.verdict.Expired? ==> p.nowMs >= stored.expiresAtMs)
            && (Sum(delays) > 0 ==> |p.sends| <= MostSends(delays, stored.expiresAtMs - startMs))
  {
    PassesKeep(stored, startMs, delays, n, fate);
    var p := Passes(stored, startMs, delays, n, fate);
    if Sum(delays) > 0 && p.sends != [] {
      var last := |p.sends| - 1;
      assert startMs + Elapsed(delays, last) <= p.sends[last].atMs < stored.expiresAtMs;
      InTime(delays, stored.expiresAtMs - startMs, last);
    }
  }

  lemma InTime(delays: seq<nat>, life: int, attempt: nat)
    requires Sum(delays) > 0 && Elapsed(delays, attempt) < life
    ensures attempt < MostSends(delays, life)
  {
    if attempt >= MostSends(delays, life) {
      LifeRunsOut(delays, life, attempt);
    }
  }

  /** With a positive sum of delays, no world keeps a delivery going past that many passes. */
  lemma DeliveryEnds(stored: StoredCommand, startMs: int, delays: seq<nat>, n: nat, fate: Fate)
    requires Sum(delays) > 0 && n > MostSends(delays, stored.expiresAtMs - startMs)
    ensures !Passes(stored, startMs, delays, n, fate).verdict.Trying?
  {
    PassesKeep(stored, startMs, delays, n, fate);
    DeliveryKeepsItsPromises(stored, startMs, delays, n, fate);
    assert delays != [];
    hide *;
  }

  ghost predicate Ends(stored: StoredCommand, startMs: int, delays: seq<nat>, fate: Fate) {
    exists n: nat :: !Passes(stored, startMs, delays, n, fate).verdict.Trying?
  }

  /** Sends that fail at once, sleeps that end on time. */
  function Refusing(took: nat): Fate {
    (i: nat) => Choice(0, took, false)
  }

  /** With no delay to sleep and sends that take no time, the clock stands still for ever. */
  lemma {:induction false} StandsStill(stored: StoredCommand, p: Progress, rest: seq<nat>)
    requires p.verdict.Trying? && p.nowMs < stored.expiresAtMs && forall i :: 0 <= i < |rest| ==> rest[i] == 0
    ensures var q := Pass(stored, p, rest, Refusing(0));
            q.verdict.Trying? && q.nowMs == p.nowMs && |q.sends| == |p.sends| + |rest|
    decreases |rest|
  {
    if rest != [] {
      StandsStill(stored, TryOnce(stored, p, rest[0], Refusing(0)(|p.sends|)), rest[1..]);
    }
  }

  lemma {:induction false} NeverEnds(stored: StoredCommand, startMs: int, delays: seq<nat>, n: nat)
    requires startMs < stored.expiresAtMs && Sum(delays) == 0
    ensures var p := Passes(stored, startMs, delays, n, Refusing(0));
            && p.verdict.Trying? && p.nowMs == startMs
            && |p.sends| == if n == 0 then 0 else 1 + n * |delays|
  {
    if n > 0 {
      NeverEnds(stored, startMs, delays, n - 1);
      SumIsZero(delays);
      OneMoreTime(n - 1, |delays|);
      StandsStill(stored, Passes(stored, startMs, delays, n - 1, Refusing(0)), DelaysOf(delays, n - 1));
    }
  }

  /** A current command's delivery ends in every world if and only if the delays are not all zero. */
  lemma DeliveryEndsIff(stored: StoredCommand, startMs: int, delays: seq<nat>)
    requires startMs < stored.expiresAtMs
    ensures (forall fate: Fate :: Ends(stored, startMs, delays, fate)) <==> Sum(delays) > 0
  {
    if Sum(delays) > 0 {
      var n := MostSends(delays, stored.expiresAtMs - startMs) + 1;
      forall fate: Fate ensures Ends(stored, startMs, delays, fate) {
        DeliveryEnds(stored, startMs, delays, n, fate);
      }
    } else {
      forall n: nat ensures Passes(stored, startMs, delays, n, Refusing(0)).verdict.Trying? {
        NeverEnds(stored, startMs, delays, n);
      }
      assert !Ends(stored, startMs, delays, Refusing(0));
    }
  }

  /** With no delays at all, nothing happens after the first pass: neither clock, sends nor verdict
      ever change again. */
  lemma {:induction false} EmptyCadenceSpins(stored: StoredCommand, startMs: int, n: nat, fate: Fate)
    requires n > 0
    ensures Passes(stored, startMs, [], n, fate) == Passes(stored, startMs, [], 1, fate)
    ensures Passes(stored, startMs, [], n, fate) == TryOnce(stored, Progress(startMs, [], Trying), 0, fate(0))
  {
    if n > 1 {
      EmptyCadenceSpins(stored, startMs, n - 1, fate);
    } else {
      var start := Progress(startMs, [], Trying);
      assert DelaysOf([], 0) == [0] && DelaysOf([], 0)[1..] == [];
      assert Passes(stored, startMs, [], 0, fate) == start;
      assert Pass(stored, start, [0], fate) == Pass(stored, TryOnce(stored, start, 0, fate(0)), [], fate);
    }
  }

  /** So it ends exactly when its one attempt finds the command expired or gets through. */
  lemma EmptyCadenceEndsIff(stored: StoredCommand, startMs: int, fate: Fate)
    ensures Ends(stored, startMs, [], fate) <==> startMs >= stored.expiresAtMs || fate(0).delivered
  {
    EmptyCadenceSpins(stored, startMs, 1, fate);
    forall n: nat | n > 0 ensures Passes(stored, startMs, [], n, fate) == Passes(stored, startMs, [], 1, fate) {
      EmptyCadenceSpins(stored, startMs, n, fate);
    }
    assert Passes(stored, startMs, [], 0, fate).verdict.Trying?;
  }

  ghost predicate SendsTakeTime(fate: Fate) {
    forall i: nat :: fate(i).took > 0
  }

  /** Where every send takes time, so many sends have taken at least as many milliseconds. */
  lemma {:induction false} TimePasses(stored: StoredCommand, startMs: int, p: Progress, rest: seq<nat>, fate: Fate)
    requires SendsTakeTime(fate) && p.nowMs >= startMs + |p.sends|
    requires p.sends != [] ==> startMs + |p.sends| - 1 < stored.expiresAtMs
    ensures var q := Pass(stored, p, rest, fate);
            q.nowMs >= startMs + |q.sends| && (q.sends != [] ==> startMs + |q.sends| - 1 < stored.expiresAtMs)
    decreases |rest|
  {
    if rest != [] && p.verdict.Trying? {
      assert fate(|p.sends|).took > 0;
      TimePasses(stored, startMs, TryOnce(stored, p, rest[0], fate(|p.sends|)), rest[1..], fate);
    }
  }

  lemma {:induction false} TimeRunsOut(stored: StoredCommand, startMs: int, delays: seq<nat>, n: nat, fate: Fate)
    requires SendsTakeTime(fate)
    ensures var p := Passes(stored, startMs, delays, n, fate);
            p.nowMs >= startMs + |p.sends| && (p.sends != [] ==> startMs + |p.sends| - 1 < stored.expiresAtMs)
  {
    if n > 0 {
      TimeRunsOut(stored, startMs, delays, n - 1, fate);
      TimePasses(stored, startMs, Passes(stored, startMs, delays, n - 1, fate), DelaysOf(delays, n - 1), fate);
    }
  }

  /** All-zero delays differ from none: where sends take time, a current command's delivery ends in
      every world if and only if there is any delay at all. */
  lemma SlowSendsEndIff(stored: StoredCommand, startMs: int, delays: seq<nat>)
    requires startMs < stored.expiresAtMs
    ensures (forall fate: Fate :: SendsTakeTime(fate) ==> Ends(stored, startMs, delays, fate)) <==> delays != []
  {
    if delays == [] {
      EmptyCadenceEndsIff(stored, startMs, Refusing(1));
      assert SendsTakeTime(Refusing(1)) && !Ends(stored, startMs, delays, Refusing(1));
    } else {
      var n: nat := stored.expiresAtMs - startMs + 1;
      forall fate: Fate | SendsTakeTime(fate) ensures Ends(stored, startMs, delays, fate) {
        TimeRunsOut(stored, startMs, delays, n, fate);
        PassesKeep(stored, startMs, delays, n, fate);
      }
    }
  }

  // ---- exactly on time ----------------------------------------------------------------

  /** Every send started exactly when the cadence says, and so did the attempt that found it expired. */
  ghost predicate OnTime(stored: StoredCommand, startMs: int, delays: seq<nat>, p: Progress) {
    && (forall i :: 0 <= i < |p.sends| ==> p.sends[i].atMs == startMs + Elapsed(delays, i))
    && !p.verdict.Delivered?
    && p.nowMs == startMs + (if p.verdict.Expired? then Elapsed(delays, |p.sends|)
                             else if p.sends == [] then 0 else Elapsed(delays, |p.sends| - 1))
  }

  lemma TryOnTime(stored: StoredCommand, startMs: int, delays: seq<nat>, p: Progress, delayMs: nat)
    requires OnTime(stored, startMs, delays, p) && p.verdict.Trying? && Next(delays, |p.sends|, delayMs)
    ensures OnTime(stored, startMs, delays, TryOnce(stored, p, delayMs, Refusing(0)(|p.sends|)))
  {
    if p.sends == [] {
      NothingElapsed(delays);
    } else {
      ElapsedNext(delays, |p.sends| - 1);
    }
    hide Elapsed, Turn;
  }

  lemma {:induction false} PassOnTime(stored: StoredCommand, startMs: int, delays: seq<nat>, p: Progress, rest: seq<nat>)
    requires OnTime(stored, startMs, delays, p) && InTurn(delays, |p.sends|, rest)
    ensures OnTime(stored, startMs, delays, Pass(stored, p, rest, Refusing(0)))
    decreases |rest|
  {
    hide OnTime, Next, Refusing;
    if rest != [] && p.verdict.Trying? {
      TryOnTime(stored, startMs, delays, p, rest[0]);
      var q := TryOnce(stored, p, rest[0], Refusing(0)(|p.sends|));
      if q.verdict.Trying? {
        PassOnTime(stored, startMs, delays, q, rest[1..]);
      }
    }
  }

  /** Where sleeps end on time and sends fail at once, delivery keeps exactly to the cadence: attempt
      `n` starts `Elapsed(n)` after the first, until one starts too late. */
  lemma {:induction false} KeepsToTheCadence(stored: StoredCommand, startMs: int, delays: seq<nat>, n: nat)
    ensures OnTime(stored, startMs, delays, Passes(stored, startMs, delays, n, Refusing(0)))
  {
    if n == 0 {
      NothingElapsed(delays);
    } else {
      var before := Passes(stored, startMs, delays, n - 1, Refusing(0));
      KeepsToTheCadence(stored, startMs, delays, n - 1);
      if before.verdict.Trying? {
        PassesKeep(stored, startMs, delays, n - 1, Refusing(0));
        PassInTurn(delays, n - 1, |before.sends|);
        PassOnTime(stored, startMs, delays, before, DelaysOf(delays, n - 1));
      }
      hide OnTime, InTurn, Good;
    }
  }

  // ---- the publisher ------------------------------------------------------------------

  /** What delivery touches: the wall clock, the wire, and the status column. `fate` is what the
      world will do with each send it ever sees. */
  class World {
    const fate: Fate
    var nowMs: int
    var sends: seq<Send>
    var statuses: map<string, Status>

    constructor (fate: Fate, nowMs: int)
      ensures this.fate == fate && this.nowMs == nowMs && sends == [] && statuses == map[]
    {
      this.fate, this.nowMs, sends, statuses := fate, nowMs, [], map[];
    }

    /** A sleep takes at least as long as it was asked to. */
    method Sleep(milliseconds: nat)
      modifies this`nowMs
      ensures nowMs == old(nowMs) + milliseconds + fate(|sends|).late
    {
      nowMs := nowMs + milliseconds + fate(|sends|).late;
    }

    /** A send takes its time and gets through or does not. */
    method Publish(bytes: string) returns (delivered: bool)
      modifies this`nowMs, this`sends
      ensures delivered == fate(|old(sends)|).delivered
      ensures nowMs == old(nowMs) + fate(|old(sends)|).took
      ensures sends == old(sends) + [Send(old(nowMs), bytes, delivered)]
    {
      var choice := fate(|sends|);
      delivered := choice.delivered;
      sends := sends + [Send(nowMs, bytes, delivered)];
      nowMs := nowMs + choice.took;
    }

    method SetStatus(commandId: string, status: Status)
      modifies this`statuses
      ensures statuses == old(statuses)[commandId := status]
    {
      statuses := statuses[commandId := status];
    }
  }

  function Shifted(fate: Fate, n: nat): Fate {
    (i: nat) => fate(n + i)
  }

  /** The world stands where `p` says, on top of what was sent before. */
  ghost predicate Shows(nowMs: int, sends: seq<Send>, before: seq<Send>, p: Progress) {
    nowMs == p.nowMs && sends == before + p.sends
  }

  class BehaviourPublisher {
    const world: World
    const retryDelaysMs: seq<nat>

    constructor (world: World, retryDelaysMs: seq<nat>)
      ensures this.world == world && this.retryDelaysMs == retryDelaysMs
    {
      this.world := world;
      this.retryDelaysMs := retryDelaysMs;
    }

    /** Sleeps, gives up if the command has expired, and otherwise sends it once. */
    method Attempt(stored: StoredCommand, delayMs: nat, ghost before: seq<Send>, ghost p: Progress) returns (verdict: Verdict)
      requires p.verdict.Trying? && Shows(world.nowMs, world.sends, before, p)
      modifies world
      ensures var q := TryOnce(stored, p, delayMs, Shifted(world.fate, |before|)(|p.sends|));
              && Shows(world.nowMs, world.sends, before, q) && verdict == q.verdict
      ensures verdict == Delivered ==> world.statuses == old(world.statuses)[stored.commandId := PUBLISHED]
      ensures verdict == Expired ==> world.statuses == old(world.statuses)[stored.commandId := EXPIRED]
      ensures verdict == Trying ==> world.statuses == old(world.statuses)
    {
      if delayMs != 0 {
        world.Sleep(delayMs);
      }
      if world.nowMs >= stored.expiresAtMs {
        world.SetStatus(stored.commandId, EXPIRED);
        return Expired;
      }
      ghost var sent := world.sends;
      var delivered := world.Publish(stored.serialized);
      assert world.sends == before + (p.sends + [world.sends[|sent|]]);
      if delivered {
        world.SetStatus(stored.commandId, PUBLISHED);
        return Delivered;
      }
      return Trying;
    }

    /** One `for` over a list of delays. */
    method PassOver(stored: StoredCommand, delaysMs: seq<nat>, ghost before: seq<Send>, ghost start: Progress)
      returns (verdict: Verdict)
      requires start.verdict.Trying? && Shows(world.nowMs, world.sends, before, start)
      modifies world
      ensures var q := Pass(stored, start, delaysMs, Shifted(world.fate, |before|));
              && Shows(world.nowMs, world.sends, before, q) && verdict == q.verdict
      ensures verdict == Delivered ==> world.statuses == old(world.statuses)[stored.commandId := PUBLISHED]
      ensures verdict == Expired ==> world.statuses == old(world.statuses)[stored.commandId := EXPIRED]
      ensures verdict == Trying ==> world.statuses == old(world.statuses)
    {
      verdict := Trying;
      ghost var fate, p := Shifted(world.fate, |before|), start;
      ghost var statuses := world.statuses;
      assert delaysMs[0..] == delaysMs;
      hide TryOnce, Shows, Shifted;
      for i := 0 to |delaysMs|
        invariant verdict == p.verdict == Trying && world.statuses == statuses
        invariant Shows(world.nowMs, world.sends, before, p)
        invariant Pass(stored, start, delaysMs, fate) == Pass(stored, p, delaysMs[i..], fate)
      {
        assert delaysMs[i..][0] == delaysMs[i] && delaysMs[i..][1..] == delaysMs[i + 1..];
        ghost var next := TryOnce(stored, p, delaysMs[i], fate(|p.sends|));
        verdict := Attempt(stored, delaysMs[i], before, p);
        p := next;
        if verdict != Trying {
          return;
        }
      }
    }

    /** The delivery loop, for as many passes as it is given: exactly what the cadence and the world
        make of it. `Trying` means the loop is still going. */
    method Deliver(stored: StoredCommand, passes: nat) returns (verdict: Verdict)
      modifies world
      ensures var p := Passes(
                stored, old(world.nowMs), retryDelaysMs, passes, Shifted(world.fate, |old(world.sends)|));
              && Shows(world.nowMs, world.sends, old(world.sends), p) && verdict == p.verdict
      ensures verdict == Delivered ==> world.statuses == old(world.statuses)[stored.commandId := PUBLISHED]
      ensures verdict == Expired ==> world.statuses == old(world.statuses)[stored.commandId := EXPIRED]
      ensures verdict == Trying ==> world.statuses == old(world.statuses)
    {
      verdict := Trying;
      ghost var startMs, before, statuses := world.nowMs, world.sends, world.statuses;
      ghost var fate := Shifted(world.fate, |before|);
      var delaysMs := [0] + retryDelaysMs;
      assert before + [] == before;
      hide Shifted, Pass;
      for pass := 0 to passes
        invariant verdict == Trying && world.statuses == statuses
        invariant delaysMs == DelaysOf(retryDelaysMs, pass)
        invariant Passes(stored, startMs, retryDelaysMs, pass, fate).verdict == Trying
        invariant Shows(world.nowMs, world.sends, before, Passes(stored, startMs, retryDelaysMs, pass, fate))
      {
        verdict := PassOver(stored, delaysMs, before, Passes(stored, startMs, retryDelaysMs, pass, fate));
        if verdict != Trying {
          EndedStays(stored, startMs, retryDelaysMs, pass + 1, passes, fate);
          return;
        }
        delaysMs := retryDelaysMs;
      }
    }
  }

  /** Passes after the end change nothing. */
  lemma {:induction false} EndedStays(stored: StoredCommand, startMs: int, delays: seq<nat>, m: nat, n: nat, fate: Fate)
    requires m <= n && !Passes(stored, startMs, delays, m, fate).verdict.Trying?
    ensures Passes(stored, startMs, delays, n, fate) == Passes(stored, startMs, delays, m, fate)
    decreases n - m
  {
    if m < n {
      EndedStays(stored, startMs, delays, m, n - 1, fate);
    }
  }
}
