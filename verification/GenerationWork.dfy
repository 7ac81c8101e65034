/** Pending generation work, as far as queueing, scheduling and durable bookkeeping look at it. */
module GenerationWork {
  datatype Option<+T> = None | Some(value: T)

  datatype Tier = Focused | Reactive | Ambient

  datatype Trigger = Turn | Event | Promotion | Expiry

  /** One NPC of one session: at most one piece of work runs for it at a time. */
  type Slot = (string, string)

  type ClaimKey = string

  datatype Generation = Generation(
    trigger: Trigger, sessionId: string, npcId: string, tier: Tier, claimKey: ClaimKey)
  {
    function Slot(): Slot {
      (sessionId, npcId)
    }

    /** Work a later delivery restates; a player turn never is. */
    predicate Coalesced() {
      trigger != Turn
    }

    predicate Generates() {
      tier != Ambient
    }
  }
}
