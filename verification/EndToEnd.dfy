/** From provider to game: what the backend's durable protocol and the mod's tracker give together. */
module EndToEnd {
  import opened GenerationWork
  import Q = QueueSpec
  import Pipeline
  import CommandTracker

  /** The command a publication attempt puts on the wire, identified by what it was generated for. */
  function Wire(sent: Pipeline.Send): CommandTracker.Command {
    CommandTracker.Command(sent.key, sent.slot.0, sent.slot.1, sent.sequence)
  }

  /** The backend published this command, for this NPC, under this number. */
  ghost predicate WasSent(sends: seq<Pipeline.Send>, c: CommandTracker.Command) {
    exists k ::
      && 0 <= k < |sends| && sends[k].key == c.commandId && sends[k].sequence == c.sequence
      && sends[k].slot == (c.sessionId, c.npcId)
  }

  /** Whatever the backend crashes, retries and recovers, and whatever the transport loses, repeats or
      reorders, the mod applies each command at most once and each NPC's in rising sequence. */
  lemma AppliedAtMostOnce(
      states: seq<Pipeline.State>, limits: Q.Limits, i: nat, deliveries: seq<CommandTracker.Delivery>)
    requires Pipeline.Execution(states, limits) && i < |states|
    requires forall d :: d in deliveries ==>
      exists k :: 0 <= k < |states[i].log.sends| && d.command == Wire(states[i].log.sends[k])
    ensures var applied := CommandTracker.History(deliveries);
      && (forall a, b :: 0 <= a < b < |applied| ==> applied[a].commandId != applied[b].commandId)
      && (forall a, b :: 0 <= a < b < |applied| && CommandTracker.SameNpc(applied[a], applied[b]) ==>
            applied[a].sequence < applied[b].sequence)
      && (forall c :: c in applied ==> WasSent(states[i].log.sends, c))
  {
    var sends := states[i].log.sends;
    Pipeline.Guarantees(states, limits, i);
    forall d, e | d in deliveries && e in deliveries && d.command.commandId == e.command.commandId
      ensures d.command == e.command
    {
      var a :| 0 <= a < |sends| && d.command == Wire(sends[a]);
      var b :| 0 <= b < |sends| && e.command == Wire(sends[b]);
      assert a == b || sends[a] == sends[b].(landed := sends[a].landed);
    }
    CommandTracker.AppliedAtMostOnce(deliveries);
    CommandTracker.HistoryIncreasing(deliveries);
    forall c | c in CommandTracker.History(deliveries)
      ensures WasSent(sends, c)
    {
      var d :| d in deliveries && d.command == c;
      var k :| 0 <= k < |sends| && d.command == Wire(sends[k]);
      assert sends[k].slot == (c.sessionId, c.npcId);
    }
  }
}
