/** The mod's memory of applied commands: a bounded list of identities and a last sequence per NPC. */
module CommandTracker {
  const MAX_TRACKED_COMMAND_IDS := 4096

  datatype Command = Command(commandId: string, sessionId: string, npcId: string, sequence: int)

  datatype Decision = Accept | DuplicateCommandId | StaleCommandSequence

  function SequenceKey(c: Command): string {
    c.sessionId + "\0" + c.npcId
  }

  predicate SameNpc(c: Command, d: Command) {
    c.sessionId == d.sessionId && c.npcId == d.npcId
  }

  // ---- what an applied history means ----------------------------------------------

  function Ids(applied: seq<Command>): seq<string> {
    seq(|applied|, i requires 0 <= i < |applied| => applied[i].commandId)
  }

  function Newest(ids: seq<string>): seq<string> {
    if |ids| <= MAX_TRACKED_COMMAND_IDS then ids else ids[|ids| - MAX_TRACKED_COMMAND_IDS..]
  }

  /** Re-inserting a present key leaves its place in the order alone. */
  function Put(ids: seq<string>, id: string): seq<string> {
    if id in ids then ids else ids + [id]
  }

  lemma NewestGrows(ids: seq<string>, id: string)
    ensures Newest(Newest(ids) + [id]) == Newest(ids + [id])
  {
  }

  ghost predicate Increasing(applied: seq<Command>) {
    forall i, j :: 0 <= i < j < |applied| && SequenceKey(applied[i]) == SequenceKey(applied[j]) ==>
      applied[i].sequence < applied[j].sequence
  }

  /** The last sequence applied under a key, 0 before any. */
  function LastSequence(applied: seq<Command>, key: string): int {
    if applied == [] then 0
    else
      var c := applied[|applied| - 1];
      if SequenceKey(c) == key then c.sequence else LastSequence(applied[..|applied| - 1], key)
  }

  /** Whether the tracker accepts a command, as its history of applied commands decides it. */
  predicate Accepts(applied: seq<Command>, c: Command) {
    c.commandId !in Newest(Ids(applied)) && c.sequence > LastSequence(applied, SequenceKey(c))
  }

  /** A command as it arrives; the handler may refuse an accepted one for reasons of its own. */
  datatype Delivery = Delivery(command: Command, executable: bool)

  function Take(applied: seq<Command>, d: Delivery): seq<Command> {
    if d.executable && Accepts(applied, d.command) then applied + [d.command] else applied
  }

  function History(deliveries: seq<Delivery>): seq<Command> {
    if deliveries == [] then []
    else Take(History(deliveries[..|deliveries| - 1]), deliveries[|deliveries| - 1])
  }

  class Tracker {
    var appliedIds: seq<string>          // insertion order, as in a LinkedHashMap
    var lastSequences: map<string, int>
    ghost var applied: seq<Command>

    /** The books agree with the history of applied commands. */
    ghost predicate Valid()
      reads this
    {
      && appliedIds == Newest(Ids(applied))
      && (forall key :: (if key in lastSequences then lastSequences[key] else 0) == LastSequence(applied, key))
      && (forall c :: c in applied ==> c.sequence > 0)
      && Increasing(applied)
    }

    constructor ()
      ensures Valid() && applied == []
    {
      appliedIds, lastSequences, applied := [], map[], [];
    }

    /** Judges a command by what was applied: one of the newest identities is a duplicate, and any
        other command is stale unless it is above everything applied for its NPC. */
    method Evaluate(c: Command) returns (decision: Decision)
      requires Valid()
      ensures decision == Accept <==> Accepts(applied, c)
      ensures decision == DuplicateCommandId <==> c.commandId in Newest(Ids(applied))
      ensures decision == Accept ==>
                forall d :: d in applied && SequenceKey(d) == SequenceKey(c) ==> d.sequence < c.sequence
    {
      LastIsGreatest(applied, SequenceKey(c));
      if c.commandId in appliedIds {
        return DuplicateCommandId;
      }
      var key := SequenceKey(c);
      var last := if key in lastSequences then lastSequences[key] else 0;
      if c.sequence <= last {
        return StaleCommandSequence;
      }
      return Accept;
    }

    /** Called for a command `Evaluate` has just accepted. */
    method MarkApplied(c: Command)
      requires Valid() && Accepts(applied, c)
      modifies this
      ensures Valid() && applied == old(applied) + [c]
      ensures |appliedIds| <= MAX_TRACKED_COMMAND_IDS
    {
      NewestGrows(Ids(applied), c.commandId);
      AppliedGrows(applied, c);
      appliedIds := Put(appliedIds, c.commandId);
      lastSequences := lastSequences[SequenceKey(c) := c.sequence];
      EvictOldest();
      applied := applied + [c];
    }

    /** Drop the oldest identities until the rest fit. */
    method EvictOldest()
      modifies this`appliedIds
      ensures appliedIds == Newest(old(appliedIds))
    {
      while |appliedIds| > MAX_TRACKED_COMMAND_IDS
        invariant Newest(appliedIds) == Newest(old(appliedIds))
      {
        appliedIds := appliedIds[1..];
      }
    }

    method Deliver(d: Delivery) returns (took: bool)
      requires Valid()
      modifies this
      ensures Valid()
      ensures applied == Take(old(applied), d)
      ensures took <==> applied != old(applied)
    {
      var decision := Evaluate(d.command);
      took := decision == Accept && d.executable;
      if took {
        MarkApplied(d.command);
      }
    }
  }

  lemma AppliedGrows(applied: seq<Command>, c: Command)
    requires Increasing(applied) && c.sequence > LastSequence(applied, SequenceKey(c))
    requires forall d :: d in applied ==> d.sequence > 0
    ensures Increasing(applied + [c])
    ensures Ids(applied + [c]) == Ids(applied) + [c.commandId]
    ensures forall key :: LastSequence(applied + [c], key) == if key == SequenceKey(c) then c.sequence else LastSequence(applied, key)
    ensures c.sequence > 0
  {
    assert (applied + [c])[..|applied|] == applied;
    LastIsGreatest(applied, SequenceKey(c));
  }

  lemma {:induction false} LastIsGreatest(applied: seq<Command>, key: string)
    requires Increasing(applied) && forall d :: d in applied ==> d.sequence > 0
    ensures LastSequence(applied, key) >= 0
    ensures forall i :: 0 <= i < |applied| && SequenceKey(applied[i]) == key ==> applied[i].sequence <= LastSequence(applied, key)
  {
    if applied != [] {
      var rest := applied[..|applied| - 1];
      assert forall i :: 0 <= i < |rest| ==> rest[i] == applied[i];
      LastIsGreatest(rest, key);
      assert applied[|applied| - 1] in applied;
    }
  }

  lemma {:induction false} HistoryIncreasing(deliveries: seq<Delivery>)
    ensures Increasing(History(deliveries))
    ensures forall c :: c in History(deliveries) ==> c.sequence > 0
    ensures forall c :: c in History(deliveries) ==> exists d :: d in deliveries && d.command == c
  {
    if deliveries != [] {
      var rest, d := deliveries[..|deliveries| - 1], deliveries[|deliveries| - 1];
      HistoryIncreasing(rest);
      assert d in deliveries && forall e :: e in rest ==> e in deliveries;
      if d.executable && Accepts(History(rest), d.command) {
        AppliedGrows(History(rest), d.command);
      }
    }
  }

  /** However deliveries are lost, repeated or reordered, and long after an identity has been evicted:
      each NPC's applied sequences strictly increase, and no command is applied twice. */
  lemma AppliedAtMostOnce(deliveries: seq<Delivery>)
    requires forall d, e :: d in deliveries && e in deliveries && d.command.commandId == e.command.commandId ==> d.command == e.command
    ensures var applied := History(deliveries);
      && (forall i, j :: 0 <= i < j < |applied| ==> applied[i].commandId != applied[j].commandId)
      && (forall i, j :: 0 <= i < j < |applied| && SameNpc(applied[i], applied[j]) ==> applied[i].sequence < applied[j].sequence)
  {
    HistoryIncreasing(deliveries);
    var applied := History(deliveries);
    forall i, j | 0 <= i < j < |applied| ensures applied[i].commandId != applied[j].commandId {
      assert applied[i] in applied && applied[j] in applied;
      var d :| d in deliveries && d.command == applied[i];
      var e :| e in deliveries && e.command == applied[j];
      assert d.command.commandId == e.command.commandId ==> d.command == e.command;
    }
  }

  // ---- one sequence for each NPC ---------------------------------------------------------

  /** No command of another NPC is counted under this command's key. */
  ghost predicate OwnSequence(c: Command) {
    forall d: Command :: SequenceKey(d) == SequenceKey(c) ==> SameNpc(d, c)
  }

  lemma NulInside(a: string, b: string, c: string, d: string)
    requires a + "\0" + b == c + "\0" + d
    ensures |c| < |a| ==> '\0' in a
    ensures |a| < |c| ==> '\0' in b
  {
    var s := a + "\0" + b;
    assert s[|c|] == '\0';
    assert |c| < |a| ==> s[|c|] == a[|c|];
    assert |a| < |c| ==> s[|c|] == b[|c| - |a| - 1];
  }

  lemma NulSplits(a: string, b: string, c: string, d: string)
    requires a + "\0" + b == c + "\0" + d && '\0' !in a && '\0' !in b
    ensures a == c && b == d
  {
    NulInside(a, b, c, d);
    var s := a + "\0" + b;
    assert s[..|a|] == a && s[..|c|] == c && s[|a| + 1..] == b && s[|c| + 1..] == d;
  }

  lemma NulMoves(x: string, y: string, b: string)
    ensures (x + "\0" + y) + "\0" + b == x + "\0" + (y + "\0" + b)
  {
  }

  lemma NulAt(s: string) returns (i: nat)
    requires '\0' in s
    ensures i < |s| && s == s[..i] + "\0" + s[i + 1..]
  {
    i :| 0 <= i < |s| && s[i] == '\0';
  }

  /** An NPC has its sequence to itself exactly when neither of its identifiers contains the separator
      of the key. */
  lemma OwnSequenceIff(c: Command)
    ensures OwnSequence(c) <==> '\0' !in c.sessionId && '\0' !in c.npcId
  {
    if '\0' in c.sessionId {
      var i := NulAt(c.sessionId);
      var (x, y) := (c.sessionId[..i], c.sessionId[i + 1..]);
      var d := c.(sessionId := x, npcId := y + "\0" + c.npcId);
      NulMoves(x, y, c.npcId);
      assert SequenceKey(d) == SequenceKey(c) && !SameNpc(d, c);
    } else if '\0' in c.npcId {
      var i := NulAt(c.npcId);
      var (x, y) := (c.npcId[..i], c.npcId[i + 1..]);
      var d := c.(sessionId := c.sessionId + "\0" + x, npcId := y);
      NulMoves(c.sessionId, x, y);
      assert SequenceKey(d) == SequenceKey(c) && !SameNpc(d, c);
    } else {
      forall d: Command | SequenceKey(d) == SequenceKey(c) ensures SameNpc(d, c) {
        NulSplits(c.sessionId, c.npcId, d.sessionId, d.npcId);
      }
    }
  }

  /** After any deliveries, an executable command of an NPC without separators is applied exactly when
      none of the last 4096 applied commands has its identity, and its sequence is positive and above
      every one applied for the same NPC; other NPCs have no say. Otherwise nothing changes, and
      nothing ever does for a command the handler refuses. */
  lemma AppliedIff(deliveries: seq<Delivery>, c: Command)
    requires '\0' !in c.sessionId && '\0' !in c.npcId
    ensures var applied := History(deliveries);
      && History(deliveries + [Delivery(c, true)]) == (
           if Fresh(applied, c.commandId) && c.sequence > 0
              && forall d :: d in applied && SameNpc(d, c) ==> d.sequence < c.sequence
           then applied + [c] else applied)
      && History(deliveries + [Delivery(c, false)]) == applied
  {
    var applied := History(deliveries);
    HistoryIncreasing(deliveries);
    OwnSequenceIff(c);
    LastIsGreatest(applied, SequenceKey(c));
    LastIsApplied(applied, SequenceKey(c));
    NewestAre(applied, c.commandId);
    OneMoreDelivery(deliveries, Delivery(c, true));
    OneMoreDelivery(deliveries, Delivery(c, false));
    hide Newest, Ids, LastSequence, History, Fresh;
    assert forall d: Command :: SameNpc(d, c) ==> SequenceKey(d) == SequenceKey(c);
  }

  lemma OneMoreDelivery(deliveries: seq<Delivery>, d: Delivery)
    ensures History(deliveries + [d]) == Take(History(deliveries), d)
  {
    assert (deliveries + [d])[..|deliveries|] == deliveries;
  }

  /** None of the last 4096 applied commands has this identity. */
  ghost predicate Fresh(applied: seq<Command>, id: string) {
    forall i :: 0 <= i < |applied| && |applied| - 4096 <= i ==> applied[i].commandId != id
  }

  lemma {:induction false} LastIsApplied(applied: seq<Command>, key: string)
    ensures LastSequence(applied, key) == 0 || exists d :: d in applied && SequenceKey(d) == key && d.sequence == LastSequence(applied, key)
  {
    if applied != [] {
      LastIsApplied(applied[..|applied| - 1], key);
    }
  }

  lemma NewestAre(applied: seq<Command>, id: string)
    ensures Fresh(applied, id) <==> id !in Newest(Ids(applied))
  {
    var ids := Ids(applied);
    var from := if |ids| <= MAX_TRACKED_COMMAND_IDS then 0 else |ids| - MAX_TRACKED_COMMAND_IDS;
    if i :| 0 <= i < |applied| && |applied| - 4096 <= i && applied[i].commandId == id {
      assert Newest(ids)[i - from] == id;
    }
    if id in Newest(ids) {
      var k :| 0 <= k < |Newest(ids)| && Newest(ids)[k] == id;
      assert applied[k + from].commandId == id;
    }
  }
}
