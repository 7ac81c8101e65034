/** The durable tables behind claims, attempts and commands, and the two procedures that write them:
    carrying one piece of work out, and recovering what an earlier process left. Each is proved to be
    a walk of the protocol of `Pipeline`, move by move. */
module DurableStores {
  import opened GenerationWork
  import opened Numbers
  import opened PipelineRuns
  import B = BehaviourPublishers
  import P = Pipeline

  /** One database; `log` is what the outside world has seen. */
  class DurableStore {
    var claims: set<ClaimKey>
    var attempts: map<ClaimKey, P.Attempt>
    var commands: map<ClaimKey, P.Command>
    ghost var log: P.Log

    ghost function Contents(): P.Tables
      reads this
    {
      P.Tables(claims, attempts, commands)
    }

    ghost function At(pc: P.Pc): Spot
      reads this
    {
      Spot(Contents(), log, pc)
    }

    constructor ()
      ensures Contents() == P.Tables({}, map[], map[]) && log == P.Log([], [], [], 0)
    {
      claims, attempts, commands, log := {}, map[], map[], P.Log([], [], [], 0);
    }
  }

  class GenerationClaims {
    const store: DurableStore

    constructor (store: DurableStore)
      ensures this.store == store
    {
      this.store := store;
    }

    /** Insert or ignore: only the first to ask for a key wins it. */
    method Claim(key: ClaimKey) returns (won: bool)
      modifies store`claims
      ensures won <==> key !in old(store.claims)
      ensures store.claims == old(store.claims) + {key}
    {
      won := key !in store.claims;
      store.claims := store.claims + {key};
    }
  }

  class ProviderAttempts {
    const store: DurableStore

    constructor (store: DurableStore)
      ensures this.store == store
    {
      this.store := store;
    }

    /** A row that already exists is left alone. */
    method Open(key: ClaimKey, slot: Slot)
      modifies store`attempts
      ensures store.Contents() == P.OpenAttempt(old(store.Contents()), key, slot)
    {
      if key !in store.attempts {
        store.attempts := store.attempts[key := P.Attempt(slot, P.Attempted)];
      }
    }

    method Close(key: ClaimKey, outcome: P.Outcome)
      modifies store`attempts
      ensures store.Contents() == P.Close(old(store.Contents()), key, outcome)
    {
      if key in store.attempts {
        store.attempts := store.attempts[key := store.attempts[key].(outcome := outcome)];
      }
    }

    /** Every attempt that was opened and never closed, each once. */
    method Unresolved() returns (found: seq<ClaimKey>)
      ensures P.NoDuplicates(found)
      ensures forall k :: k in found <==> P.IsAttempted(store.Contents(), k)
    {
      found := [];
      var rest := store.attempts.Keys;
      while rest != {}
        invariant rest <= store.attempts.Keys && P.NoDuplicates(found)
        invariant forall k :: k in found <==> k !in rest && P.IsAttempted(store.Contents(), k)
      {
        var key :| key in rest;
        if store.attempts[key].outcome == P.Attempted {
          found := found + [key];
        }
        rest := rest - {key};
      }
    }
  }

  class CommandStore {
    const store: DurableStore

    constructor (store: DurableStore)
      ensures this.store == store
    {
      this.store := store;
    }

    /** One more than the greatest sequence the NPC's rows hold, 1 when it has none. */
    method NextSequence(slot: Slot) returns (n: nat)
      ensures n == P.NextSequence(store.commands, slot)
    {
      var greatest := 0;
      ghost var seen: set<nat> := {};
      var rest := store.commands.Keys;
      while rest != {}
        invariant rest <= store.commands.Keys
        invariant seen == (set k | k in store.commands && k !in rest && store.commands[k].slot == slot :: store.commands[k].sequence)
        invariant greatest == Greatest(seen)
      {
        var key :| key in rest;
        rest := rest - {key};
        if store.commands[key].slot == slot {
          GreatestOfMore(seen, store.commands[key].sequence);
          seen := seen + {store.commands[key].sequence};
          greatest := Larger(greatest, store.commands[key].sequence);
        }
      }
      assert seen == P.Sequences(store.commands, slot);
      n := greatest + 1;
    }

    /** A clash of identity or of sequence raises and stores nothing. */
    method Store(key: ClaimKey, slot: Slot, sequence: nat, bytes: string) returns (stored: bool)
      modifies store`commands
      ensures stored <==> !old(P.Clash(store.Contents(), key, slot, sequence))
      ensures store.commands == if stored then old(store.commands)[key := P.Command(slot, sequence, bytes, P.Pending)] else old(store.commands)
    {
      if key in store.commands || (exists k :: k in store.commands && store.commands[k].slot == slot && store.commands[k].sequence == sequence) {
        return false;
      }
      store.commands := store.commands[key := P.Command(slot, sequence, bytes, P.Pending)];
      return true;
    }

    method SetStatus(key: ClaimKey, status: P.Status)
      modifies store`commands
      ensures store.Contents() == P.Mark(old(store.Contents()), key, status)
    {
      if key in store.commands {
        store.commands := store.commands[key := store.commands[key].(status := status)];
      }
    }

    /** Every command stored and never settled, each once. */
    method Unpublished() returns (found: seq<ClaimKey>)
      ensures P.NoDuplicates(found)
      ensures forall k :: k in found <==> P.IsPending(store.Contents(), k)
    {
      found := [];
      var rest := store.commands.Keys;
      while rest != {}
        invariant rest <= store.commands.Keys && P.NoDuplicates(found)
        invariant forall k :: k in found <==> k !in rest && P.IsPending(store.Contents(), k)
      {
        var key :| key in rest;
        if store.commands[key].status == P.Pending {
          found := found + [key];
        }
        rest := rest - {key};
      }
    }
  }

  lemma GreatestOfMore(ns: set<nat>, n: nat)
    ensures Greatest(ns + {n}) == Larger(Greatest(ns), n)
  {
    if ns == {} {
      assert ns + {n} == {n};
    }
    P.GreatestIs(ns + {n}, Larger(Greatest(ns), n));
  }

  // ---- one step of the protocol, and what does it ---------------------------------------

  ghost predicate Does(a: Spot, slot: Slot, key: ClaimKey, m: P.Move, b: Spot) {
    P.CanMove(a.pc, m) && b == After(a, slot, key, m)
  }

  /** A walk that is sound at both ends. */
  ghost predicate Carries(a: Spot, slot: Slot, key: ClaimKey, moves: seq<P.Move>, b: Spot) {
    Sound(a, slot, key) && Walks(a, slot, key, moves, b) && Sound(b, slot, key)
  }

  lemma Begin(a: Spot, slot: Slot, key: ClaimKey)
    requires Sound(a, slot, key)
    ensures Carries(a, slot, key, [], a)
  {
    hide Sound;
  }

  lemma Continue(a: Spot, slot: Slot, key: ClaimKey, moves: seq<P.Move>, b: Spot, m: P.Move, c: Spot)
    requires Carries(a, slot, key, moves, b) && Does(b, slot, key, m, c)
    ensures Carries(a, slot, key, moves + [m], c)
  {
    MoveSound(b, slot, key, m);
    WalkOne(b, slot, key, m);
    WalkOn(a, slot, key, moves, b, [m], c);
    hide Sound, After;
  }

  lemma Join(a: Spot, slot: Slot, key: ClaimKey, first: seq<P.Move>, b: Spot, second: seq<P.Move>, c: Spot)
    requires Carries(a, slot, key, first, b) && Carries(b, slot, key, second, c)
    ensures Carries(a, slot, key, first + second, c)
  {
    WalkOn(a, slot, key, first, b, second, c);
    hide Sound;
  }

  ghost function Sent(t: P.Tables, log: P.Log, slot: Slot, key: ClaimKey, lands: bool): P.Log {
    if key in t.commands then
      log.(sends := log.sends + [P.Send(key, slot, t.commands[key].sequence, t.commands[key].bytes, lands)])
    else log
  }

  ghost function Called(log: P.Log, key: ClaimKey): P.Log {
    log.(calls := log.calls + [key])
  }

  ghost function Tried(log: P.Log, key: ClaimKey): P.Log {
    log.(stores := log.stores + [key])
  }

  lemma SendDoes(t: P.Tables, log: P.Log, slot: Slot, key: ClaimKey, lands: bool)
    ensures Does(
      Spot(t, log, P.Delivering), slot, key, P.TrySend(lands),
      Spot(t, Sent(t, log, slot, key, lands), if lands then P.Sent else P.Delivering))
  {
  }

  lemma SettleDoes(t: P.Tables, log: P.Log, slot: Slot, key: ClaimKey, published: bool)
    ensures Does(
      Spot(t, log, if published then P.Sent else P.Delivering), slot, key, if published then P.MarkPublished else P.Expire,
      Spot(P.Mark(t, key, if published then P.Published else P.Expired), log, P.Ending))
  {
  }

  lemma CheckDoes(t: P.Tables, log: P.Log, slot: Slot, key: ClaimKey)
    ensures Does(Spot(t, log, P.Checking), slot, key, P.Abandon, Spot(t, log, P.Ending))
    ensures Does(Spot(t, log, P.Checking), slot, key, P.Proceed, Spot(t, log, P.Claiming))
  {
  }

  lemma ClaimDoes(t: P.Tables, log: P.Log, slot: Slot, key: ClaimKey)
    ensures key in t.claims ==> Does(Spot(t, log, P.Claiming), slot, key, P.TakeClaim, Spot(t, log, P.Ending))
    ensures key !in t.claims ==>
              Does(Spot(t, log, P.Claiming), slot, key, P.TakeClaim, Spot(t.(claims := t.claims + {key}), log, P.Claimed))
  {
  }

  lemma OpenDoes(t: P.Tables, log: P.Log, slot: Slot, key: ClaimKey)
    ensures Does(Spot(t, log, P.Claimed), slot, key, P.Abandon, Spot(t, log, P.Ending))
    ensures Does(Spot(t, log, P.Claimed), slot, key, P.OpenRow, Spot(P.OpenAttempt(t, key, slot), log, P.Opened))
  {
  }

  lemma CallDoes(t: P.Tables, log: P.Log, slot: Slot, key: ClaimKey, ok: bool)
    ensures Does(Spot(t, log, P.Opened), slot, key, P.NoProvider, Spot(P.Close(t, key, P.Failed), log, P.Ending))
    ensures Does(Spot(t, log, P.Opened), slot, key, P.Call, Spot(t, Called(log, key), P.Calling))
    ensures Does(
      Spot(t, log, P.Calling), slot, key, P.Answer(ok),
      Spot(P.Close(t, key, if ok then P.Succeeded else P.Failed), log, P.Closed))
  {
  }

  lemma BuildDoes(t: P.Tables, log: P.Log, slot: Slot, key: ClaimKey, bytes: string)
    ensures Does(
      Spot(t, log, P.Closed), slot, key, P.Build(bytes), Spot(t, log, P.Built(P.NextSequence(t.commands, slot), bytes)))
  {
  }

  lemma PublishDoes(t: P.Tables, log: P.Log, slot: Slot, key: ClaimKey, sequence: nat, bytes: string)
    ensures var a := Spot(t, log, P.Built(sequence, bytes));
            && Does(a, slot, key, P.Abandon, Spot(t, log, P.Ending))
            && Does(a, slot, key, P.TooLarge, Spot(t, Tried(log, key), P.Ending))
            && (!P.Clash(t, key, slot, sequence) ==>
                  Does(a, slot, key, P.Store, Spot(P.Insert(t, key, slot, sequence, bytes), Tried(log, key), P.Delivering)))
  {
    hide P.Clash;
  }

  /** Work that has just numbered its command meets neither uniqueness constraint. */
  lemma NeverClashes(t: P.Tables, log: P.Log, slot: Slot, key: ClaimKey, sequence: nat, bytes: string)
    requires Sound(Spot(t, log, P.Built(sequence, bytes)), slot, key)
    ensures !P.Clash(t, key, slot, sequence) && key !in t.commands && sequence == P.NextSequence(t.commands, slot)
  {
    assert key !in log.stores && key !in t.commands;
    assert sequence == Greatest(P.Sequences(t.commands, slot)) + 1;
    assert sequence !in P.Sequences(t.commands, slot);
  }

  // ---- delivery -------------------------------------------------------------------------

  /** How one delivery goes: how many sends fail, and whether one then lands before expiry. */
  datatype Course = Course(failures: nat, lands: bool)

  /** A number of sends that fail. */
  function Failures(n: nat): seq<P.Move> {
    if n == 0 then [] else Failures(n - 1) + [P.TrySend(false)]
  }

  /** What a delivery does: sends that fail, then one that lands and is marked, or expiry. */
  function DeliveryMoves(c: Course): seq<P.Move> {
    Failures(c.failures) + if c.lands then [P.TrySend(true), P.MarkPublished] else [P.Expire]
  }

  /** The course a delivery of the retry loop took. */
  function CourseOf(p: B.Progress): (c: Course)
    requires B.EndedBy(p.verdict.Delivered?, p.sends)
    ensures c.lands <==> p.verdict.Delivered?
  {
    Course(|p.sends| - (if p.verdict.Delivered? then 1 else 0), p.verdict.Delivered?)
  }

  /** The same, read off a delivery of the retry loop. */
  function MovesOf(p: B.Progress): seq<P.Move>
    requires !p.verdict.Trying?
  {
    seq(|p.sends|, i requires 0 <= i < |p.sends| => P.TrySend(p.sends[i].delivered))
    + if p.verdict.Delivered? then [P.MarkPublished] else [P.Expire]
  }

  lemma {:induction false} FailuresAre(n: nat)
    ensures |Failures(n)| == n && forall i :: 0 <= i < n ==> Failures(n)[i] == P.TrySend(false)
  {
    if n > 0 {
      FailuresAre(n - 1);
    }
  }

  /** However the retry loop ends, what it did is one of these deliveries. */
  lemma LoopIsDelivery(stored: B.StoredCommand, startMs: int, delays: seq<nat>, n: nat, fate: B.Fate)
    ensures var p := B.Passes(stored, startMs, delays, n, fate);
            !p.verdict.Trying? ==> B.EndedBy(p.verdict.Delivered?, p.sends) && MovesOf(p) == DeliveryMoves(CourseOf(p))
  {
    B.DeliveryKeepsItsPromises(stored, startMs, delays, n, fate);
    var p := B.Passes(stored, startMs, delays, n, fate);
    if !p.verdict.Trying? {
      SendsAre(p);
    }
  }

  lemma SendsAre(p: B.Progress)
    requires !p.verdict.Trying? && B.EndedBy(p.verdict.Delivered?, p.sends)
    ensures MovesOf(p) == DeliveryMoves(CourseOf(p))
  {
    var failures := |p.sends| - if p.verdict.Delivered? then 1 else 0;
    FailuresAre(failures);
    assert forall i :: 0 <= i < failures ==> !p.sends[i].delivered by {
      assert p.verdict.Delivered? ==> forall i :: 0 <= i < failures ==> p.sends[..|p.sends| - 1][i] == p.sends[i];
    }
  }

  class Publisher {
    const commands: CommandStore

    constructor (commands: CommandStore)
      ensures this.commands == commands
    {
      this.commands := commands;
    }

    /** Sends the stored bytes as often as they fail, and once more if they land, then settles the
        row. `BehaviourPublishers` says how often that is, and when. */
    method Deliver(key: ClaimKey, slot: Slot, course: Course) returns (published: bool)
      requires Sound(commands.store.At(P.Delivering), slot, key)
      modifies commands.store
      ensures published == course.lands
      ensures Carries(
        old(commands.store.At(P.Delivering)), slot, key, DeliveryMoves(course), commands.store.At(P.Ending))
      ensures commands.store.Contents() == P.Mark(old(commands.store.Contents()), key, if published then P.Published else P.Expired)
      ensures commands.store.log.calls == old(commands.store.log.calls) && commands.store.log.stores == old(commands.store.log.stores)
    {
      var store := commands.store;
      ghost var start, t := store.At(P.Delivering), store.Contents();
      Parts(store, P.Delivering);
      hide *;
      Begin(start, slot, key);
      NoFailures();
      for i := 0 to course.failures
        invariant store.Contents() == t && store.At(P.Delivering) == Spot(t, store.log, P.Delivering)
        invariant Carries(start, slot, key, Failures(i), store.At(P.Delivering))
        invariant store.log.calls == old(store.log.calls) && store.log.stores == old(store.log.stores)
      {
        FailedOnce(start, t, store.log, slot, key, i);
        store.log := Sent(t, store.log, slot, key, false);
        Rebuilt(store, t, P.Delivering);
      }
      published := course.lands;
      DeliveredOnce(start, t, store.log, slot, key, course);
      if published {
        store.log := Sent(t, store.log, slot, key, true);
        commands.SetStatus(key, P.Published);
      } else {
        commands.SetStatus(key, P.Expired);
      }
      Parts(store, P.Ending);
    }

    /** Stores and delivers one built command; a payload too large for the consumer is neither
        stored nor sent. The insert never clashes. */
    method Publish(key: ClaimKey, slot: Slot, sequence: nat, bytes: string, tooLarge: bool, course: Course)
      returns (delivered: bool)
      requires Sound(commands.store.At(P.Built(sequence, bytes)), slot, key)
      modifies commands.store
      ensures Carries(
        old(commands.store.At(P.Built(sequence, bytes))), slot, key, PublishMoves(tooLarge, course),
        commands.store.At(P.Ending))
      ensures delivered == (!tooLarge && course.lands)
      ensures Published(old(commands.store.Contents()), commands.store.Contents(), key, slot, bytes, tooLarge, delivered)
      ensures commands.store.log.calls == old(commands.store.log.calls)
      ensures commands.store.log.stores == old(commands.store.log.stores) + [key]
    {
      var store := commands.store;
      ghost var start, t, log := store.At(P.Built(sequence, bytes)), store.Contents(), store.log;
      Parts(store, P.Built(sequence, bytes));
      NeverClashes(t, log, slot, key, sequence, bytes);
      hide *;
      PublishDoes(t, log, slot, key, sequence, bytes);
      Begin(start, slot, key);
      store.log := Tried(log, key);
      TriedIs(log, key);
      if tooLarge {
        Continue(start, slot, key, [], start, P.TooLarge, Spot(t, Tried(log, key), P.Ending));
        Rebuilt(store, t, P.Ending);
        NothingPublished(t, key, slot, bytes);
        PublishMovesAre(course);
        return false;
      }
      var stored := commands.Store(key, slot, sequence, bytes);
      ghost var inserted := P.Insert(t, key, slot, sequence, bytes);
      InsertedContents(store, t, key, slot, sequence, bytes);
      Rebuilt(store, inserted, P.Delivering);
      ghost var between := Spot(inserted, Tried(log, key), P.Delivering);
      Continue(start, slot, key, [], start, P.Store, between);
      CarriesEnds(start, slot, key, [] + [P.Store], between);
      delivered := Deliver(key, slot, course);
      Join(start, slot, key, [] + [P.Store], between, DeliveryMoves(course), store.At(P.Ending));
      PublishMovesAre(course);
      PublishedIs(t, key, slot, sequence, bytes, delivered);
    }
  }

  function PublishMoves(tooLarge: bool, course: Course): seq<P.Move> {
    if tooLarge then [P.TooLarge] else [P.Store] + DeliveryMoves(course)
  }

  lemma PublishMovesAre(course: Course)
    ensures PublishMoves(true, course) == [] + [P.TooLarge]
    ensures PublishMoves(false, course) == [] + [P.Store] + DeliveryMoves(course)
  {
    hide DeliveryMoves;
  }

  lemma CarriesEnds(a: Spot, slot: Slot, key: ClaimKey, moves: seq<P.Move>, b: Spot)
    requires Carries(a, slot, key, moves, b)
    ensures Sound(b, slot, key)
  {
    hide Sound;
  }

  lemma NoFailures()
    ensures Failures(0) == []
  {
  }

  lemma TriedIs(log: P.Log, key: ClaimKey)
    ensures Tried(log, key).calls == log.calls && Tried(log, key).stores == log.stores + [key]
    ensures Called(log, key).calls == log.calls + [key] && Called(log, key).stores == log.stores
  {
  }

  lemma SentKeeps(t: P.Tables, log: P.Log, slot: Slot, key: ClaimKey, lands: bool)
    ensures Sent(t, log, slot, key, lands).calls == log.calls && Sent(t, log, slot, key, lands).stores == log.stores
  {
  }

  lemma FailedOnce(start: Spot, t: P.Tables, log: P.Log, slot: Slot, key: ClaimKey, n: nat)
    requires Carries(start, slot, key, Failures(n), Spot(t, log, P.Delivering))
    ensures Carries(start, slot, key, Failures(n + 1), Spot(t, Sent(t, log, slot, key, false), P.Delivering))
    ensures Sent(t, log, slot, key, false).calls == log.calls && Sent(t, log, slot, key, false).stores == log.stores
  {
    SendDoes(t, log, slot, key, false);
    SentKeeps(t, log, slot, key, false);
    hide Carries, Does, Sent;
    Continue(
      start, slot, key, Failures(n), Spot(t, log, P.Delivering), P.TrySend(false), Spot(t, Sent(t, log, slot, key, false), P.Delivering));
  }

  lemma DeliveredOnce(start: Spot, t: P.Tables, log: P.Log, slot: Slot, key: ClaimKey, course: Course)
    requires Carries(start, slot, key, Failures(course.failures), Spot(t, log, P.Delivering))
    ensures Carries(
      start, slot, key, DeliveryMoves(course),
      Spot(P.Mark(t, key, if course.lands then P.Published else P.Expired), if course.lands then Sent(t, log, slot, key, true) else log, P.Ending))
    ensures Sent(t, log, slot, key, true).calls == log.calls && Sent(t, log, slot, key, true).stores == log.stores
  {
    var fails, here := Failures(course.failures), Spot(t, log, P.Delivering);
    SentKeeps(t, log, slot, key, true);
    SendDoes(t, log, slot, key, true);
    var sent := Sent(t, log, slot, key, true);
    SettleDoes(t, if course.lands then sent else log, slot, key, course.lands);
    hide Carries, Does, Sent, Failures, P.Mark;
    if course.lands {
      Continue(start, slot, key, fails, here, P.TrySend(true), Spot(t, sent, P.Sent));
      Continue(
        start, slot, key, fails + [P.TrySend(true)], Spot(t, sent, P.Sent), P.MarkPublished,
        Spot(P.Mark(t, key, P.Published), sent, P.Ending));
      assert fails + [P.TrySend(true)] + [P.MarkPublished] == DeliveryMoves(course);
    } else {
      Continue(start, slot, key, fails, here, P.Expire, Spot(P.Mark(t, key, P.Expired), log, P.Ending));
    }
  }

  lemma Parts(store: DurableStore, pc: P.Pc)
    ensures store.Contents().claims == store.claims && store.Contents().attempts == store.attempts
    ensures store.Contents().commands == store.commands
    ensures store.At(pc) == Spot(store.Contents(), store.log, pc)
  {
  }

  lemma Rebuilt(store: DurableStore, t: P.Tables, pc: P.Pc)
    requires P.Tables(store.claims, store.attempts, store.commands) == t
    ensures store.Contents() == t && store.At(pc) == Spot(t, store.log, pc)
  {
  }

  lemma InsertedContents(store: DurableStore, t: P.Tables, key: ClaimKey, slot: Slot, sequence: nat, bytes: string)
    requires store.claims == t.claims && store.attempts == t.attempts
    requires store.commands == t.commands[key := P.Command(slot, sequence, bytes, P.Pending)]
    ensures P.Tables(store.claims, store.attempts, store.commands) == P.Insert(t, key, slot, sequence, bytes)
  {
  }

  /** Everything one publication changes: one row, with the next number and a settled status. */
  ghost predicate Published(
      t: P.Tables, t': P.Tables, key: ClaimKey, slot: Slot, bytes: string, tooLarge: bool, delivered: bool)
  {
    if tooLarge then t' == t && !delivered
    else
      key !in t.commands && t' == t.(commands := t.commands[key :=
        P.Command(slot, P.NextSequence(t.commands, slot), bytes, if delivered then P.Published else P.Expired)])
  }

  lemma NothingPublished(t: P.Tables, key: ClaimKey, slot: Slot, bytes: string)
    ensures Published(t, t, key, slot, bytes, true, false)
  {
  }

  lemma PublishedIs(t: P.Tables, key: ClaimKey, slot: Slot, sequence: nat, bytes: string, delivered: bool)
    requires key !in t.commands && sequence == P.NextSequence(t.commands, slot)
    ensures Published(
      t, P.Mark(P.Insert(t, key, slot, sequence, bytes), key, if delivered then P.Published else P.Expired),
      key, slot, bytes, false, delivered)
  {
  }

  // ---- the coordinator --------------------------------------------------------------------

  /** What one piece of work meets: what its two checks and the world state say, how the provider
      answers, and how publication goes. */
  datatype Circumstances = Circumstances(
    stale: bool, worldKnown: bool, misrouted: bool, ok: bool, bytes: string, late: bool, tooLarge: bool, course: Course)

  /** The moves work makes under its circumstances, depending on whether its key was claimed before. */
  function ExecuteMoves(claimed: bool, c: Circumstances): seq<P.Move> {
    if c.stale then [P.Abandon]
    else if claimed then [P.Proceed, P.TakeClaim]
    else if !c.worldKnown then [P.Proceed, P.TakeClaim, P.Abandon]
    else if c.misrouted then [P.Proceed, P.TakeClaim, P.OpenRow, P.NoProvider]
    else [P.Proceed, P.TakeClaim, P.OpenRow, P.Call] + CallMoves(c)
  }

  function CallMoves(c: Circumstances): seq<P.Move> {
    [P.Answer(c.ok), P.Build(c.bytes)] + if c.late then [P.Abandon] else PublishMoves(c.tooLarge, c.course)
  }

  /** The rows a call leaves: its attempt closed by how it went, and one settled command under its
      NPC's next number unless it came too late or was too large. */
  ghost predicate CallLeaves(t: P.Tables, t': P.Tables, key: ClaimKey, slot: Slot, c: Circumstances) {
    && t'.claims == t.claims
    && t'.attempts == t.attempts[key := P.Attempt(slot, if c.ok then P.Succeeded else P.Failed)]
    && t'.commands ==
         if c.late || c.tooLarge then t.commands
         else t.commands[key := P.Command(
           slot, P.NextSequence(t.commands, slot), c.bytes, if c.course.lands then P.Published else P.Expired)]
  }

  /** The rows one piece of work leaves: none where it is stale or claimed before; its claim alone where
      the world is unknown; a failed attempt where it is not routed here; otherwise what its call leaves. */
  ghost predicate WorkLeaves(t: P.Tables, t': P.Tables, key: ClaimKey, slot: Slot, c: Circumstances) {
    if c.stale || key in t.claims then t' == t
    else
      var claimed := t.(claims := t.claims + {key});
      if !c.worldKnown then t' == claimed
      else if c.misrouted then t' == claimed.(attempts := t.attempts[key := P.Attempt(slot, P.Failed)])
      else CallLeaves(claimed, t', key, slot, c)
  }

  class GenerationCoordinator {
    const claims: GenerationClaims
    const attempts: ProviderAttempts
    const publisher: Publisher

    ghost predicate Valid() {
      claims.store == attempts.store == publisher.commands.store
    }

    constructor (store: DurableStore)
      ensures Valid() && claims.store == store && fresh(claims) && fresh(attempts) && fresh(publisher)
    {
      claims := new GenerationClaims(store);
      attempts := new ProviderAttempts(store);
      var commands := new CommandStore(store);
      publisher := new Publisher(commands);
    }

    /** Builds the command that answers a closed attempt, under its NPC's next number. */
    method Command(key: ClaimKey, slot: Slot, bytes: string) returns (sequence: nat)
      requires Valid() && Sound(claims.store.At(P.Closed), slot, key)
      ensures Carries(claims.store.At(P.Closed), slot, key, [P.Build(bytes)], claims.store.At(P.Built(sequence, bytes)))
    {
      var store := claims.store;
      sequence := publisher.commands.NextSequence(slot);
      Parts(store, P.Closed);
      Parts(store, P.Built(sequence, bytes));
      BuildDoes(store.Contents(), store.log, slot, key, bytes);
      hide *;
      Begin(store.At(P.Closed), slot, key);
      Continue(store.At(P.Closed), slot, key, [], store.At(P.Closed), P.Build(bytes), store.At(P.Built(sequence, bytes)));
      assert [] + [P.Build(bytes)] == [P.Build(bytes)];
    }

    /** One piece of work from the scheduler's first check to its end, with what was called checked
        again before it is published: the walk its circumstances dictate. A claim already taken calls
        nobody and changes nothing; a claim that is won calls the provider at most once. */
    method Execute(key: ClaimKey, slot: Slot, c: Circumstances) returns (called: bool)
      requires Valid() && Sound(claims.store.At(P.Checking), slot, key)
      modifies claims.store
      ensures Carries(
        old(claims.store.At(P.Checking)), slot, key, ExecuteMoves(key in old(claims.store.claims), c),
        claims.store.At(P.Ending))
      ensures P.Confined(
        old(claims.store.Contents()), old(claims.store.log), claims.store.Contents(), claims.store.log, slot, key)
      ensures old(claims.store.log.sends) <= claims.store.log.sends
      ensures claims.store.log.calls == old(claims.store.log.calls) + if called then [key] else []
      ensures called <==> !c.stale && key !in old(claims.store.claims) && c.worldKnown && !c.misrouted
      ensures WorkLeaves(old(claims.store.Contents()), claims.store.Contents(), key, slot, c)
    {
      var store := claims.store;
      ghost var a := store.At(P.Checking);
      Parts(store, P.Checking);
      hide *;
      called := ExecuteSteps(key, slot, c);
      Parts(store, P.Ending);
      Walked(a, slot, key, ExecuteMoves(key in old(store.claims), c), store.At(P.Ending));
    }

    method ExecuteSteps(key: ClaimKey, slot: Slot, c: Circumstances) returns (called: bool)
      requires Valid() && Sound(claims.store.At(P.Checking), slot, key)
      modifies claims.store
      ensures Carries(
        old(claims.store.At(P.Checking)), slot, key, ExecuteMoves(key in old(claims.store.claims), c),
        claims.store.At(P.Ending))
      ensures claims.store.log.calls == old(claims.store.log.calls) + if called then [key] else []
      ensures called <==> !c.stale && key !in old(claims.store.claims) && c.worldKnown && !c.misrouted
      ensures WorkLeaves(old(claims.store.Contents()), claims.store.Contents(), key, slot, c)
    {
      var store := claims.store;
      ghost var a, t, log := store.At(P.Checking), store.Contents(), store.log;
      Parts(store, P.Checking);
      NotAttempted(t, log, slot, key);
      ExecuteMovesAre(key in t.claims, c);
      hide *;
      called := false;
      ghost var moves: seq<P.Move> := [];
      Begin(a, slot, key);
      CheckDoes(t, log, slot, key);
      ClaimDoes(t, log, slot, key);
      assert log.calls == log.calls + [];
      if c.stale {
        Continue(a, slot, key, [], a, P.Abandon, Spot(t, log, P.Ending));
        Rebuilt(store, t, P.Ending);
        LeavesNothing(t, key, slot, c);
        return;
      }
      Continue(a, slot, key, [], a, P.Proceed, Spot(t, log, P.Claiming));
      moves := [] + [P.Proceed];
      var won := claims.Claim(key);
      if !won {
        Continue(a, slot, key, moves, Spot(t, log, P.Claiming), P.TakeClaim, Spot(t, log, P.Ending));
        AlreadyClaimed(t, key);
        Rebuilt(store, t, P.Ending);
        LeavesNothing(t, key, slot, c);
        return;
      }
      ghost var claimed := t.(claims := t.claims + {key});
      Continue(a, slot, key, moves, Spot(t, log, P.Claiming), P.TakeClaim, Spot(claimed, log, P.Claimed));
      moves := moves + [P.TakeClaim];
      Rebuilt(store, claimed, P.Claimed);
      OpenDoes(claimed, log, slot, key);
      if !c.worldKnown {
        Continue(a, slot, key, moves, Spot(claimed, log, P.Claimed), P.Abandon, Spot(claimed, log, P.Ending));
        Rebuilt(store, claimed, P.Ending);
        LeavesItsClaim(t, key, slot, c);
        return;
      }
      attempts.Open(key, slot);
      ghost var started := store.Contents();
      Parts(store, P.Opened);
      Continue(a, slot, key, moves, Spot(claimed, log, P.Claimed), P.OpenRow, Spot(started, log, P.Opened));
      moves := moves + [P.OpenRow];
      CallDoes(started, log, slot, key, true);
      if c.misrouted {
        attempts.Close(key, P.Failed);
        Parts(store, P.Ending);
        Continue(a, slot, key, moves, Spot(started, log, P.Opened), P.NoProvider, store.At(P.Ending));
        LeavesAFailure(t, key, slot, c);
        return;
      }
      store.log := Called(log, key);
      called := true;
      TriedIs(log, key);
      Rebuilt(store, started, P.Calling);
      Continue(a, slot, key, moves, Spot(started, log, P.Opened), P.Call, store.At(P.Calling));
      moves := moves + [P.Call];
      CarriesEnds(a, slot, key, moves, store.At(P.Calling));
      ghost var calling := store.At(P.Calling);
      AfterCall(key, slot, c);
      Join(a, slot, key, moves, calling, CallMoves(c), store.At(P.Ending));
      LeavesItsCall(t, store.Contents(), key, slot, c);
    }

    /** What follows a call: the attempt is closed, a command is built, and it is published unless a
        last check finds it too late. */
    method AfterCall(key: ClaimKey, slot: Slot, c: Circumstances)
      requires Valid() && Sound(claims.store.At(P.Calling), slot, key)
      modifies claims.store
      ensures Carries(old(claims.store.At(P.Calling)), slot, key, CallMoves(c), claims.store.At(P.Ending))
      ensures claims.store.log.calls == old(claims.store.log.calls)
      ensures CallLeaves(old(claims.store.Contents()), claims.store.Contents(), key, slot, c)
    {
      var store := claims.store;
      ghost var a, t, log := store.At(P.Calling), store.Contents(), store.log;
      Parts(store, P.Calling);
      CallMovesAre(c);
      CallingIsOpen(t, log, slot, key);
      hide *;
      Begin(a, slot, key);
      CallDoes(t, log, slot, key, c.ok);
      attempts.Close(key, if c.ok then P.Succeeded else P.Failed);
      Parts(store, P.Closed);
      Continue(a, slot, key, [], a, P.Answer(c.ok), store.At(P.Closed));
      ghost var moves := [] + [P.Answer(c.ok)];
      CarriesEnds(a, slot, key, moves, store.At(P.Closed));
      var sequence := Command(key, slot, c.bytes);
      ghost var built := store.At(P.Built(sequence, c.bytes));
      Join(a, slot, key, moves, store.At(P.Closed), [P.Build(c.bytes)], built);
      moves := moves + [P.Build(c.bytes)];
      CarriesEnds(a, slot, key, moves, built);
      Parts(store, P.Built(sequence, c.bytes));
      PublishDoes(store.Contents(), store.log, slot, key, sequence, c.bytes);
      if c.late {
        Parts(store, P.Ending);
        Continue(a, slot, key, moves, built, P.Abandon, store.At(P.Ending));
        CallLeft(t, store.Contents(), store.Contents(), key, slot, c, false);
      } else {
        ghost var closed := store.Contents();
        var delivered := publisher.Publish(key, slot, sequence, c.bytes, c.tooLarge, c.course);
        Join(a, slot, key, moves, built, PublishMoves(c.tooLarge, c.course), store.At(P.Ending));
        Parts(store, P.Ending);
        CallLeft(t, closed, store.Contents(), key, slot, c, delivered);
      }
    }
  }

  lemma ExecuteMovesAre(claimed: bool, c: Circumstances)
    ensures var first, second := [] + [P.Proceed], [] + [P.Proceed] + [P.TakeClaim]; var third := second + [P.OpenRow];
            ExecuteMoves(claimed, c) ==
              if c.stale then [] + [P.Abandon]
              else if claimed then first + [P.TakeClaim]
              else if !c.worldKnown then second + [P.Abandon]
              else if c.misrouted then third + [P.NoProvider]
              else third + [P.Call] + CallMoves(c)
  {
    hide CallMoves;
  }

  lemma CallMovesAre(c: Circumstances)
    ensures CallMoves(c) ==
              [] + [P.Answer(c.ok)] + [P.Build(c.bytes)] + if c.late then [P.Abandon] else PublishMoves(c.tooLarge, c.course)
  {
    hide PublishMoves;
  }

  lemma AlreadyClaimed(t: P.Tables, key: ClaimKey)
    ensures key in t.claims ==> t.(claims := t.claims + {key}) == t
  {
    assert key in t.claims ==> t.claims + {key} == t.claims;
  }

  lemma NotAttempted(t: P.Tables, log: P.Log, slot: Slot, key: ClaimKey)
    requires Sound(Spot(t, log, P.Checking), slot, key)
    ensures key !in t.claims ==> key !in t.attempts
  {
  }

  lemma CallingIsOpen(t: P.Tables, log: P.Log, slot: Slot, key: ClaimKey)
    requires Sound(Spot(t, log, P.Calling), slot, key)
    ensures key in t.attempts && t.attempts[key].slot == slot
  {
  }

  lemma LeavesNothing(t: P.Tables, key: ClaimKey, slot: Slot, c: Circumstances)
    ensures c.stale || key in t.claims ==> WorkLeaves(t, t, key, slot, c)
  {
  }

  lemma LeavesItsClaim(t: P.Tables, key: ClaimKey, slot: Slot, c: Circumstances)
    requires !c.stale && key !in t.claims && !c.worldKnown
    ensures WorkLeaves(t, t.(claims := t.claims + {key}), key, slot, c)
  {
  }

  lemma LeavesAFailure(t: P.Tables, key: ClaimKey, slot: Slot, c: Circumstances)
    requires !c.stale && key !in t.claims && c.worldKnown && c.misrouted && key !in t.attempts
    ensures WorkLeaves(t, P.Close(P.OpenAttempt(t.(claims := t.claims + {key}), key, slot), key, P.Failed), key, slot, c)
  {
  }

  lemma LeavesItsCall(t: P.Tables, t': P.Tables, key: ClaimKey, slot: Slot, c: Circumstances)
    requires !c.stale && key !in t.claims && c.worldKnown && !c.misrouted && key !in t.attempts
    requires CallLeaves(P.OpenAttempt(t.(claims := t.claims + {key}), key, slot), t', key, slot, c)
    ensures WorkLeaves(t, t', key, slot, c)
  {
    assert t.attempts[key := P.Attempt(slot, P.Attempted)][key := P.Attempt(slot, if c.ok then P.Succeeded else P.Failed)]
        == t.attempts[key := P.Attempt(slot, if c.ok then P.Succeeded else P.Failed)];
  }

  lemma CallLeft(
      t: P.Tables, closed: P.Tables, t': P.Tables, key: ClaimKey, slot: Slot, c: Circumstances, delivered: bool)
    requires key in t.attempts && t.attempts[key].slot == slot
    requires closed == P.Close(t, key, if c.ok then P.Succeeded else P.Failed)
    requires if c.late then t' == closed
             else Published(closed, t', key, slot, c.bytes, c.tooLarge, delivered) && delivered == (!c.tooLarge && c.course.lands)
    ensures CallLeaves(t, t', key, slot, c)
  {
  }

  lemma Walked(a: Spot, slot: Slot, key: ClaimKey, moves: seq<P.Move>, b: Spot)
    requires Carries(a, slot, key, moves, b)
    ensures P.Confined(a.tables, a.log, b.tables, b.log, slot, key) && a.log.sends <= b.log.sends
  {
    WalkKeeps(a, slot, key, moves, b);
    hide Sound, Walks, P.Confined;
  }

  // ---- recovery --------------------------------------------------------------------------

  /** Earlier commands keep their NPC, number and bytes, those already settled keep their status too,
      and no attempt appears. */
  ghost predicate Kept(t: P.Tables, t': P.Tables) {
    && t'.claims == t.claims && t'.attempts.Keys == t.attempts.Keys
    && forall k :: k in t.commands ==> k in t'.commands && KeptCommand(t.commands[k], t'.commands[k])
  }

  predicate KeptCommand(c: P.Command, d: P.Command) {
    c.slot == d.slot && c.sequence == d.sequence && c.bytes == d.bytes && (c.status != P.Pending ==> d.status == c.status)
  }

  lemma KeptTrans(a: P.Tables, b: P.Tables, c: P.Tables)
    requires Kept(a, b) && Kept(b, c)
    ensures Kept(a, c)
  {
  }

  lemma KeptRefl(t: P.Tables)
    ensures Kept(t, t)
  {
  }

  /** Every attempt open at the start is failed now, and answered by its own fallback. */
  ghost predicate AllAnswered(t: P.Tables, t': P.Tables, fallbacks: ClaimKey -> Fallback) {
    forall k :: P.IsAttempted(t, k) ==> IsAnswered(t', k, fallbacks(k))
  }

  /** The attempt failed, and the fallback is stored and settled unless it was too large. */
  predicate IsAnswered(t: P.Tables, k: ClaimKey, f: Fallback) {
    && k in t.attempts && t.attempts[k].outcome == P.Failed
    && (f.tooLarge ==> k !in t.commands)
    && (!f.tooLarge ==>
         && k in t.commands && t.commands[k].slot == t.attempts[k].slot && t.commands[k].bytes == f.bytes
         && t.commands[k].status == if f.course.lands then P.Published else P.Expired)
  }

  /** Commands stored before are as they were. */
  ghost predicate CommandsStay(t: P.Tables, t': P.Tables) {
    forall k :: k in t.commands ==> k in t'.commands && t'.commands[k] == t.commands[k]
  }

  /** Every pending command is settled by how its delivery went, and nothing else about any changed. */
  ghost predicate AllRepublished(t: P.Tables, t': P.Tables, courses: ClaimKey -> Course) {
    && t'.commands.Keys == t.commands.Keys
    && forall k :: k in t.commands ==>
         t'.commands[k] == (if !P.IsPending(t, k) then t.commands[k]
                            else t.commands[k].(status := if courses(k).lands then P.Published else P.Expired))
  }

  /** What is still unanswered is what the loop has yet to reach. */
  ghost predicate AttemptedFrom(t: P.Tables, found: seq<ClaimKey>, i: nat)
    requires i <= |found|
  {
    forall k :: P.IsAttempted(t, k) <==> k in found[i..]
  }

  ghost predicate PendingFrom(t: P.Tables, found: seq<ClaimKey>, i: nat)
    requires i <= |found|
  {
    forall k :: P.IsPending(t, k) <==> k in found[i..]
  }

  /** What the loop has reached is answered. */
  ghost predicate AnsweredTo(t: P.Tables, found: seq<ClaimKey>, i: nat, fallbacks: ClaimKey -> Fallback)
    requires i <= |found|
  {
    forall j :: 0 <= j < i ==> IsAnswered(t, found[j], fallbacks(found[j]))
  }

  /** The loop has settled what it has reached and touched nothing else. */
  ghost predicate RepublishedTo(start: P.Tables, t: P.Tables, found: seq<ClaimKey>, i: nat, courses: ClaimKey -> Course)
    requires i <= |found|
  {
    && t.commands.Keys == start.commands.Keys
    && forall k :: k in start.commands ==>
         t.commands[k] == (if k !in found[..i] then start.commands[k]
                           else start.commands[k].(status := if courses(k).lands then P.Published else P.Expired))
  }

  lemma RestOf(found: seq<ClaimKey>, i: nat)
    requires i < |found| && P.NoDuplicates(found)
    ensures forall k :: k in found[i + 1..] <==> k in found[i..] && k != found[i]
    ensures found[i] in found[i..]
  {
    assert found[i..] == [found[i]] + found[i + 1..];
  }

  lemma AnsweredNext(t: P.Tables, t': P.Tables, found: seq<ClaimKey>, i: nat)
    requires i < |found| && P.NoDuplicates(found) && AttemptedFrom(t, found, i)
    requires t'.attempts == P.Close(t, found[i], P.Failed).attempts
    ensures AttemptedFrom(t', found, i + 1)
  {
    RestOf(found, i);
    assert P.IsAttempted(t, found[i]);
    forall k ensures P.IsAttempted(t', k) <==> P.IsAttempted(t, k) && k != found[i] {
    }
  }

  /** One answer: its attempt closed as failed, its fallback stored and settled unless too large. */
  ghost predicate AnswerLeaves(t: P.Tables, t': P.Tables, key: ClaimKey, f: Fallback) {
    && key in t.attempts && key !in t.commands && t'.claims == t.claims
    && var slot := t.attempts[key].slot;
    && t'.attempts == t.attempts[key := P.Attempt(slot, P.Failed)]
    && t'.commands ==
         if f.tooLarge then t.commands
         else t.commands[key := P.Command(
           slot, P.NextSequence(t.commands, slot), f.bytes, if f.course.lands then P.Published else P.Expired)]
  }

  lemma AnswerLeft(t: P.Tables, closed: P.Tables, t': P.Tables, key: ClaimKey, slot: Slot, f: Fallback, delivered: bool)
    requires key in t.attempts && t.attempts[key].slot == slot && key !in t.commands
    requires closed == P.Close(t, key, P.Failed)
    requires Published(closed, t', key, slot, f.bytes, f.tooLarge, delivered) && delivered == (!f.tooLarge && f.course.lands)
    ensures AnswerLeaves(t, t', key, f) && t'.attempts == P.Close(t, key, P.Failed).attempts
    ensures Kept(t, t') && CommandsStay(t, t')
  {
  }

  lemma OneMoreTask(tasks: seq<Task>, k: Task, found: seq<ClaimKey>, i: nat)
    requires i < |found| && Keys(tasks) == found[..i] && k.key == found[i]
    ensures Keys(tasks + [k]) == found[..i + 1]
  {
  }

  lemma AnsweredOneMore(t: P.Tables, t': P.Tables, found: seq<ClaimKey>, i: nat, fallbacks: ClaimKey -> Fallback)
    requires i < |found| && P.NoDuplicates(found) && AnsweredTo(t, found, i, fallbacks)
    requires AnswerLeaves(t, t', found[i], fallbacks(found[i]))
    ensures AnsweredTo(t', found, i + 1, fallbacks)
  {
    forall j | 0 <= j < i ensures IsAnswered(t', found[j], fallbacks(found[j])) {
      assert IsAnswered(t, found[j], fallbacks(found[j]));
    }
  }

  lemma AllAnsweredNow(start: P.Tables, t: P.Tables, found: seq<ClaimKey>, fallbacks: ClaimKey -> Fallback)
    requires AttemptedFrom(start, found, 0) && AnsweredTo(t, found, |found|, fallbacks)
    ensures AllAnswered(start, t, fallbacks)
  {
    hide IsAnswered;
    forall k | P.IsAttempted(start, k) ensures IsAnswered(t, k, fallbacks(k)) {
      assert k in found[0..];
    }
  }

  lemma StillAnswered(
      start: P.Tables, mid: P.Tables, t: P.Tables, fallbacks: ClaimKey -> Fallback, courses: ClaimKey -> Course)
    requires AllAnswered(start, mid, fallbacks) && AllRepublished(mid, t, courses) && t.attempts == mid.attempts
    ensures AllAnswered(start, t, fallbacks)
  {
    forall k | P.IsAttempted(start, k) ensures IsAnswered(t, k, fallbacks(k)) {
      assert IsAnswered(mid, k, fallbacks(k));
    }
  }

  /** Pending commands of the start wait until they are delivered. */
  lemma RepublishedFromStart(start: P.Tables, mid: P.Tables, t: P.Tables, courses: ClaimKey -> Course)
    requires CommandsStay(start, mid) && AllRepublished(mid, t, courses)
    ensures forall k :: P.IsPending(start, k) ==>
              k in t.commands
              && t.commands[k] == start.commands[k].(status := if courses(k).lands then P.Published else P.Expired)
  {
  }

  lemma RepublishedOneMore(start: P.Tables, t: P.Tables, found: seq<ClaimKey>, i: nat, courses: ClaimKey -> Course)
    requires i < |found| && P.NoDuplicates(found) && RepublishedTo(start, t, found, i, courses) && found[i] in start.commands
    ensures RepublishedTo(
      start, P.Mark(t, found[i], if courses(found[i]).lands then P.Published else P.Expired), found, i + 1, courses)
  {
    assert found[..i + 1] == found[..i] + [found[i]];
    assert found[i] !in found[..i];
  }

  lemma AllRepublishedNow(start: P.Tables, t: P.Tables, found: seq<ClaimKey>, courses: ClaimKey -> Course)
    requires PendingFrom(start, found, 0) && RepublishedTo(start, t, found, |found|, courses)
    ensures AllRepublished(start, t, courses)
  {
    assert found[..|found|] == found && found[0..] == found;
  }

  lemma SettledNext(t: P.Tables, found: seq<ClaimKey>, i: nat, status: P.Status)
    requires i < |found| && P.NoDuplicates(found) && PendingFrom(t, found, i) && status != P.Pending
    ensures PendingFrom(P.Mark(t, found[i], status), found, i + 1)
    ensures Kept(t, P.Mark(t, found[i], status)) && P.Mark(t, found[i], status).attempts == t.attempts
  {
    RestOf(found, i);
    assert P.IsPending(t, found[i]);
    forall k ensures P.IsPending(P.Mark(t, found[i], status), k) <==> P.IsPending(t, k) && k != found[i] {
    }
  }

  /** How the answer to one spent attempt goes: what the fallback library says, and its publication. */
  datatype Fallback = Fallback(bytes: string, tooLarge: bool, course: Course)

  function AnswerMoves(f: Fallback): seq<P.Move> {
    [P.Answer(false), P.Build(f.bytes)] + PublishMoves(f.tooLarge, f.course)
  }

  /** Each task made the moves its row's answer calls for. */
  ghost predicate AnsweredBy(tasks: seq<Task>, fallbacks: ClaimKey -> Fallback) {
    forall i :: 0 <= i < |tasks| ==> tasks[i].moves == AnswerMoves(fallbacks(tasks[i].key))
  }

  ghost predicate DeliveredBy(tasks: seq<Task>, courses: ClaimKey -> Course) {
    forall i :: 0 <= i < |tasks| ==> tasks[i].moves == DeliveryMoves(courses(tasks[i].key))
  }

  class Recovery {
    const generation: GenerationCoordinator
    const attempts: ProviderAttempts
    const publisher: Publisher

    ghost predicate Valid() {
      generation.Valid() && attempts == generation.attempts && publisher == generation.publisher
    }

    constructor (generation: GenerationCoordinator)
      requires generation.Valid()
      ensures Valid() && this.generation == generation
    {
      this.generation := generation;
      attempts := generation.attempts;
      publisher := generation.publisher;
    }

    /** Answers every open attempt without a provider, then delivers every stored command: a recovery
        the protocol allows. Nothing is left unfinished, nobody is called, every answer is stored or
        was too large, and no command settled before is touched. */
    method Run(fallbacks: ClaimKey -> Fallback, courses: ClaimKey -> Course) returns (
        answered: nat, republished: nat, ghost answers: seq<Task>, ghost mid: P.Tables, ghost midLog: P.Log, ghost deliveries: seq<Task>)
      requires Valid() && P.Core(attempts.store.Contents(), attempts.store.log)
      modifies attempts.store
      ensures Recovers(
        old(attempts.store.Contents()), old(attempts.store.log), answers, mid, midLog, deliveries,
        attempts.store.Contents(), attempts.store.log)
      ensures AnsweredBy(answers, fallbacks) && DeliveredBy(deliveries, courses)
      ensures answered == |answers| && republished == |deliveries|
      ensures P.Core(attempts.store.Contents(), attempts.store.log)
      ensures P.NothingUnfinished(attempts.store.Contents())
      ensures AllAnswered(old(attempts.store.Contents()), attempts.store.Contents(), fallbacks)
      ensures forall k :: P.IsPending(old(attempts.store.Contents()), k) ==>
                && k in attempts.store.commands
                && attempts.store.commands[k] ==
                     old(attempts.store.Contents()).commands[k].(status := if courses(k).lands then P.Published else P.Expired)
      ensures attempts.store.log.calls == old(attempts.store.log.calls)
      ensures old(attempts.store.log.sends) <= attempts.store.log.sends
      ensures Kept(old(attempts.store.Contents()), attempts.store.Contents())
    {
      hide *;
      ghost var before, beforeLog := attempts.store.Contents(), attempts.store.log;
      answered, answers := AnswerUnresolvedAttempts(fallbacks);
      mid, midLog := attempts.store.Contents(), attempts.store.log;
      republished, deliveries := RepublishStoredCommands(courses);
      ghost var after, afterLog := attempts.store.Contents(), attempts.store.log;
      KeptTrans(before, mid, after);
      StillAnswered(before, mid, after, fallbacks, courses);
      RepublishedFromStart(before, mid, after, courses);
      Parts(attempts.store, P.Ending);
      RecoversBy(before, beforeLog, answers, mid, midLog, deliveries, after, afterLog);
    }

    method AnswerUnresolvedAttempts(fallbacks: ClaimKey -> Fallback) returns (answered: nat, ghost tasks: seq<Task>)
      requires Valid() && P.Core(attempts.store.Contents(), attempts.store.log)
      modifies attempts.store
      ensures P.Core(attempts.store.Contents(), attempts.store.log)
      ensures P.NoDuplicates(Keys(tasks)) && answered == |tasks|
      ensures forall k :: k in Keys(tasks) <==> P.IsAttempted(old(attempts.store.Contents()), k)
      ensures Answers(
        old(attempts.store.Contents()), old(attempts.store.log), tasks, attempts.store.Contents(), attempts.store.log)
      ensures AnsweredBy(tasks, fallbacks)
      ensures forall k :: !P.IsAttempted(attempts.store.Contents(), k)
      ensures AllAnswered(old(attempts.store.Contents()), attempts.store.Contents(), fallbacks)
      ensures CommandsStay(old(attempts.store.Contents()), attempts.store.Contents())
      ensures attempts.store.log.calls == old(attempts.store.log.calls)
      ensures old(attempts.store.log.sends) <= attempts.store.log.sends
      ensures Kept(old(attempts.store.Contents()), attempts.store.Contents())
    {
      var store := attempts.store;
      ghost var start, startLog := store.Contents(), store.log;
      var found := attempts.Unresolved();
      tasks := [];
      KeptRefl(start);
      assert AttemptedFrom(start, found, 0) && AnsweredTo(start, found, 0, fallbacks) && CommandsStay(start, start);
      assert Answers(start, startLog, tasks, start, startLog) && AnsweredBy(tasks, fallbacks);
      hide *;
      for i := 0 to |found|
        invariant P.Core(store.Contents(), store.log) && Kept(start, store.Contents())
        invariant Answers(start, startLog, tasks, store.Contents(), store.log)
        invariant AttemptedFrom(store.Contents(), found, i) && AnsweredTo(store.Contents(), found, i, fallbacks)
        invariant CommandsStay(start, store.Contents()) && Keys(tasks) == found[..i]
        invariant store.log.calls == startLog.calls && startLog.sends <= store.log.sends && |tasks| == i
        invariant AnsweredBy(tasks, fallbacks)
      {
        ghost var t, log := store.Contents(), store.log;
        StillThere(t, found, i);
        ghost var task := Answer(found[i], fallbacks(found[i]));
        OneMoreAnswered(tasks, task, fallbacks);
        AnsweredNext(t, store.Contents(), found, i);
        AnsweredOneMore(t, store.Contents(), found, i, fallbacks);
        OneMoreTask(tasks, task, found, i);
        StayTrans(start, t, store.Contents());
        OneMoreAnswer(start, startLog, tasks, t, log, task);
        tasks := tasks + [task];
        KeptTrans(start, t, store.Contents());
      }
      answered := |found|;
      NoneLeft(store.Contents(), found);
      AllAnsweredNow(start, store.Contents(), found, fallbacks);
      AttemptedAre(start, found);
      assert found[..|found|] == found;
    }

    /** Closes one attempt as failed and publishes the fallback for it. */
    method Answer(key: ClaimKey, fallback: Fallback) returns (ghost task: Task)
      requires Valid() && P.Core(attempts.store.Contents(), attempts.store.log)
      requires P.IsAttempted(attempts.store.Contents(), key)
      modifies attempts.store
      ensures task.key == key && key in old(attempts.store.attempts) && task.slot == old(attempts.store.attempts)[key].slot
      ensures key in old(attempts.store.Contents()).attempts && old(attempts.store.Contents()).attempts[key].slot == task.slot
      ensures task.tables == attempts.store.Contents() && task.log == attempts.store.log
      ensures task.moves == AnswerMoves(fallback)
      ensures task.moves != [] && task.moves[0] == P.Answer(false) && NoAbandon(task.moves)
      ensures Walks(
        old(attempts.store.At(P.Calling)), task.slot, key, task.moves, attempts.store.At(P.Ending))
      ensures Walks(
        Spot(old(attempts.store.Contents()), old(attempts.store.log), P.Calling), task.slot, key, task.moves,
        Spot(task.tables, task.log, P.Ending))
      ensures P.Core(attempts.store.Contents(), attempts.store.log)
      ensures attempts.store.Contents().attempts == P.Close(old(attempts.store.Contents()), key, P.Failed).attempts
      ensures AnswerLeaves(old(attempts.store.Contents()), attempts.store.Contents(), key, fallback)
      ensures CommandsStay(old(attempts.store.Contents()), attempts.store.Contents())
      ensures Kept(old(attempts.store.Contents()), attempts.store.Contents())
      ensures attempts.store.log.calls == old(attempts.store.log.calls)
      ensures old(attempts.store.log.sends) <= attempts.store.log.sends
    {
      var store := attempts.store;
      ghost var a, t, log := store.At(P.Calling), store.Contents(), store.log;
      assert key in store.attempts;
      var slot := store.attempts[key].slot;
      OpenIsCalling(t, log, slot, key);
      Parts(store, P.Calling);
      SharedStore();
      hide *;
      Begin(a, slot, key);
      CallDoes(t, log, slot, key, false);
      attempts.Close(key, P.Failed);
      ghost var closed := store.Contents();
      Parts(store, P.Closed);
      Continue(a, slot, key, [], a, P.Answer(false), store.At(P.Closed));
      CarriesEnds(a, slot, key, [] + [P.Answer(false)], store.At(P.Closed));
      var sequence := generation.Command(key, slot, fallback.bytes);
      ghost var built := store.At(P.Built(sequence, fallback.bytes));
      ghost var first := [] + [P.Answer(false)] + [P.Build(fallback.bytes)];
      Join(a, slot, key, [] + [P.Answer(false)], store.At(P.Closed), [P.Build(fallback.bytes)], built);
      CarriesEnds(a, slot, key, first, built);
      var delivered := publisher.Publish(key, slot, sequence, fallback.bytes, fallback.tooLarge, fallback.course);
      Parts(store, P.Ending);
      Join(a, slot, key, first, built, PublishMoves(fallback.tooLarge, fallback.course), store.At(P.Ending));
      AnswerMovesAre(fallback);
      task := Task(key, slot, AnswerMoves(fallback), store.Contents(), store.log);
      AnswerLeft(t, closed, store.Contents(), key, slot, fallback, delivered);
      CarriedOn(a, slot, key, AnswerMoves(fallback), store.At(P.Ending));
    }

    lemma SharedStore()
      requires Valid()
      ensures generation.Valid() && attempts.store == publisher.commands.store == generation.claims.store
    {
    }

    method RepublishStoredCommands(courses: ClaimKey -> Course) returns (republished: nat, ghost tasks: seq<Task>)
      requires Valid() && P.Core(attempts.store.Contents(), attempts.store.log)
      requires forall k :: !P.IsAttempted(attempts.store.Contents(), k)
      modifies attempts.store
      ensures P.Core(attempts.store.Contents(), attempts.store.log)
      ensures P.NoDuplicates(Keys(tasks)) && republished == |tasks|
      ensures forall k :: k in Keys(tasks) <==> P.IsPending(old(attempts.store.Contents()), k)
      ensures Deliveries(
        old(attempts.store.Contents()), old(attempts.store.log), tasks, attempts.store.Contents(), attempts.store.log)
      ensures DeliveredBy(tasks, courses)
      ensures P.NothingUnfinished(attempts.store.Contents())
      ensures AllRepublished(old(attempts.store.Contents()), attempts.store.Contents(), courses)
      ensures attempts.store.Contents().attempts == old(attempts.store.Contents()).attempts
      ensures attempts.store.log.calls == old(attempts.store.log.calls)
      ensures old(attempts.store.log.sends) <= attempts.store.log.sends
      ensures Kept(old(attempts.store.Contents()), attempts.store.Contents())
    {
      var store := attempts.store;
      ghost var start, startLog := store.Contents(), store.log;
      var found := publisher.commands.Unpublished();
      tasks := [];
      KeptRefl(start);
      assert PendingFrom(start, found, 0) && Keys(tasks) == found[..0] && RepublishedTo(start, start, found, 0, courses);
      assert Deliveries(start, startLog, tasks, start, startLog) && DeliveredBy(tasks, courses);
      SharedStore();
      hide *;
      for i := 0 to |found|
        invariant P.Core(store.Contents(), store.log) && Kept(start, store.Contents())
        invariant Deliveries(start, startLog, tasks, store.Contents(), store.log)
        invariant PendingFrom(store.Contents(), found, i) && Keys(tasks) == found[..i] && |tasks| == i
        invariant store.log.calls == startLog.calls && startLog.sends <= store.log.sends
        invariant store.Contents().attempts == start.attempts && DeliveredBy(tasks, courses)
        invariant RepublishedTo(start, store.Contents(), found, i, courses)
      {
        ghost var t, log := store.Contents(), store.log;
        PendingIsDelivering(t, log, found, i);
        Parts(store, P.Delivering);
        var slot := store.commands[found[i]].slot;
        var course := courses(found[i]);
        var published := publisher.Deliver(found[i], slot, course);
        Parts(store, P.Ending);
        CarriedOn(Spot(t, log, P.Delivering), slot, found[i], DeliveryMoves(course), store.At(P.Ending));
        SettledNext(t, found, i, if published then P.Published else P.Expired);
        PendingAtStart(start, found, i);
        RepublishedOneMore(start, t, found, i, courses);
        KeptTrans(start, t, store.Contents());
        ghost var task := Task(found[i], slot, DeliveryMoves(course), store.Contents(), store.log);
        NeverAbandons(course);
        OneMoreDelivered(tasks, task, courses);
        OneMoreDelivery(start, startLog, tasks, t, log, task);
        OneMoreTask(tasks, task, found, i);
        tasks := tasks + [task];
      }
      republished := |found|;
      assert found[..|found|] == found;
      AllRepublishedNow(start, store.Contents(), found, courses);
      NothingLeft(start, store.Contents(), found);
      PendingAre(start, found);
    }
  }

  lemma RecoversBy(
      t: P.Tables, log: P.Log, answers: seq<Task>, mid: P.Tables, midLog: P.Log, deliveries: seq<Task>,
      t': P.Tables, log': P.Log)
    requires P.NoDuplicates(Keys(answers)) && (forall k :: k in Keys(answers) <==> P.IsAttempted(t, k))
    requires Answers(t, log, answers, mid, midLog)
    requires P.NoDuplicates(Keys(deliveries)) && (forall k :: k in Keys(deliveries) <==> P.IsPending(mid, k))
    requires Deliveries(mid, midLog, deliveries, t', log')
    ensures Recovers(t, log, answers, mid, midLog, deliveries, t', log')
  {
    hide Answers, Deliveries, Keys, P.NoDuplicates, P.IsAttempted, P.IsPending;
  }

  lemma StayTrans(a: P.Tables, b: P.Tables, c: P.Tables)
    requires CommandsStay(a, b) && CommandsStay(b, c)
    ensures CommandsStay(a, c)
  {
  }

  lemma AttemptedAre(t: P.Tables, found: seq<ClaimKey>)
    requires AttemptedFrom(t, found, 0)
    ensures forall k :: k in found <==> P.IsAttempted(t, k)
  {
    assert found[0..] == found;
  }

  lemma PendingAtStart(t: P.Tables, found: seq<ClaimKey>, i: nat)
    requires PendingFrom(t, found, 0) && i < |found|
    ensures found[i] in t.commands
  {
    assert found[0..] == found && found[i] in found;
  }

  lemma PendingAre(t: P.Tables, found: seq<ClaimKey>)
    requires PendingFrom(t, found, 0)
    ensures forall k :: k in found <==> P.IsPending(t, k)
  {
    assert found[0..] == found;
  }

  lemma NeverAbandons(course: Course)
    ensures NoAbandon(DeliveryMoves(course))
  {
    FailuresAre(course.failures);
  }

  lemma OneMoreAnswered(tasks: seq<Task>, k: Task, fallbacks: ClaimKey -> Fallback)
    requires AnsweredBy(tasks, fallbacks) && k.moves == AnswerMoves(fallbacks(k.key))
    ensures AnsweredBy(tasks + [k], fallbacks)
  {
    hide AnswerMoves;
  }

  lemma OneMoreDelivered(tasks: seq<Task>, k: Task, courses: ClaimKey -> Course)
    requires DeliveredBy(tasks, courses) && k.moves == DeliveryMoves(courses(k.key))
    ensures DeliveredBy(tasks + [k], courses)
  {
    hide DeliveryMoves;
  }

  lemma AnswerMovesAre(f: Fallback)
    ensures var moves := AnswerMoves(f);
            && moves == [] + [P.Answer(false)] + [P.Build(f.bytes)] + PublishMoves(f.tooLarge, f.course)
            && moves != [] && moves[0] == P.Answer(false) && NoAbandon(moves)
  {
    NeverAbandons(f.course);
    hide DeliveryMoves;
    if f.tooLarge {
      assert AnswerMoves(f)[2] == P.TooLarge;
    }
  }

  lemma CarriedOn(a: Spot, slot: Slot, key: ClaimKey, moves: seq<P.Move>, b: Spot)
    requires Carries(a, slot, key, moves, b)
    ensures Walks(a, slot, key, moves, b) && P.Core(b.tables, b.log) && a.log.sends <= b.log.sends
  {
    WalkKeeps(a, slot, key, moves, b);
    hide P.Core, Walks;
  }

  lemma StillThere(t: P.Tables, found: seq<ClaimKey>, i: nat)
    requires i < |found| && AttemptedFrom(t, found, i)
    ensures P.IsAttempted(t, found[i])
  {
    assert found[i] in found[i..];
  }

  lemma NoneLeft(t: P.Tables, found: seq<ClaimKey>)
    requires AttemptedFrom(t, found, |found|)
    ensures forall k :: !P.IsAttempted(t, k)
  {
  }

  lemma NothingLeft(start: P.Tables, t: P.Tables, found: seq<ClaimKey>)
    requires PendingFrom(t, found, |found|) && t.attempts == start.attempts && forall k :: !P.IsAttempted(start, k)
    ensures P.NothingUnfinished(t)
  {
    forall k ensures !P.IsAttempted(t, k) {
      assert !P.IsAttempted(start, k);
    }
  }

  lemma OpenIsCalling(t: P.Tables, log: P.Log, slot: Slot, key: ClaimKey)
    requires P.Core(t, log) && P.IsAttempted(t, key) && t.attempts[key].slot == slot
    ensures Sound(Spot(t, log, P.Calling), slot, key)
  {
  }

  lemma PendingIsDelivering(t: P.Tables, log: P.Log, found: seq<ClaimKey>, i: nat)
    requires i < |found| && PendingFrom(t, found, i) && P.Core(t, log)
    ensures found[i] in t.commands && Sound(Spot(t, log, P.Delivering), t.commands[found[i]].slot, found[i])
  {
    assert found[i] in found[i..];
    assert P.IsPending(t, found[i]);
    hide P.Core, PendingFrom;
  }

}
