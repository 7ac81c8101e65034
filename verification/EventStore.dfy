/** Event revision chains under interleaved writers.

    A writer reads three times and then inserts, suspending before each; between its reads and its
    insert any number of other writers may commit. Rows are never changed or removed. */
module EventStore {
  import opened GenerationWork
  import opened Numbers

  datatype Status = Started | Updated | Ended | Cancelled

  /** One validated message: a revision of one event of one session. */
  datatype GameEvent = GameEvent(
    sessionId: string, eventId: string, revision: nat, messageId: string, timestampMs: nat, status: Status, body: string)
  {
    predicate IsTerminal() {
      status == Ended || status == Cancelled
    }

    function Key(): RowKey {
      (sessionId, eventId, revision)
    }
  }

  type RowKey = (string, string, nat)

  datatype Row = Row(event: GameEvent, witnesses: set<string>)

  type Table = map<RowKey, Row>

  const FIRST_EVENT_REVISION := 1

  // ---- reads ----------------------------------------------------------------------

  /** The row at `k` was delivered by the same message as `event`. */
  predicate Carries(t: Table, k: RowKey, event: GameEvent) {
    k in t && t[k].event.sessionId == event.sessionId && t[k].event.messageId == event.messageId
  }

  ghost predicate MessageStored(t: Table, event: GameEvent) {
    exists k :: Carries(t, k, event)
  }

  ghost function DeliveredRow(t: Table, event: GameEvent): Row
    requires MessageStored(t, event)
  {
    t[DeliveredKey(t, event)]
  }

  ghost function DeliveredKey(t: Table, event: GameEvent): (k: RowKey)
    requires MessageStored(t, event)
    ensures Carries(t, k, event)
  {
    var k :| Carries(t, k, event); k
  }

  function Revisions(t: Table, sessionId: string, eventId: string): set<nat> {
    set k | k in t && k.0 == sessionId && k.1 == eventId :: k.2
  }

  /** The newest stored revision of an event, 0 when there is none. */
  ghost function Top(t: Table, sessionId: string, eventId: string): nat {
    Greatest(Revisions(t, sessionId, eventId))
  }

  ghost function Latest(t: Table, sessionId: string, eventId: string): (r: Option<Row>)
    ensures r.None? <==> Revisions(t, sessionId, eventId) == {}
    ensures r.Some? ==> (sessionId, eventId, Top(t, sessionId, eventId)) in t && r.value == t[(sessionId, eventId, Top(t, sessionId, eventId))]
  {
    if Revisions(t, sessionId, eventId) == {} then None
    else
      var n := Top(t, sessionId, eventId);
      assert n in Revisions(t, sessionId, eventId);
      Some(t[(sessionId, eventId, n)])
  }

  /** Why this revision cannot extend the chain, if it cannot. */
  predicate Rejected(event: GameEvent, latest: Option<Row>) {
    match latest
    case None => event.revision != FIRST_EVENT_REVISION
    case Some(row) =>
      || row.event.IsTerminal()
      || event.revision != row.event.revision + 1
      || event.timestampMs < row.event.timestampMs
  }

  function Frozen(latest: Option<Row>, witnesses: set<string>): set<string> {
    match latest
    case None => witnesses
    case Some(row) => row.witnesses
  }

  // ---- interleaved writers --------------------------------------------------------

  /** How a `record` call ended: its result, or the constraint violation its insert raised. */
  datatype Outcome = Applied | Duplicate | Refused | Clashed

  datatype Pc =
    | CheckingDelivery
    | CheckingRevision
    | ReadingLatest
    | Inserting(frozen: set<string>)
    | Finished(outcome: Outcome)

  datatype Writer = Writer(event: GameEvent, witnesses: set<string>, pc: Pc)

  datatype State = State(table: Table, writers: seq<Writer>, committed: seq<(GameEvent, set<string>)>)

  datatype Step = Begin(event: GameEvent, witnesses: set<string>) | Advance(writer: nat)

  predicate Enabled(s: State, step: Step) {
    step.Advance? ==> step.writer < |s.writers| && !s.writers[step.writer].pc.Finished?
  }

  ghost function Next(t: Table, w: Writer): Pc
    requires !w.pc.Finished?
  {
    var e := w.event;
    match w.pc
    case CheckingDelivery =>
      if MessageStored(t, e) then Finished(if DeliveredRow(t, e).event == e then Duplicate else Refused)
      else CheckingRevision
    case CheckingRevision => if e.Key() in t then Finished(Refused) else ReadingLatest
    case ReadingLatest =>
      var latest := Latest(t, e.sessionId, e.eventId);
      if Rejected(e, latest) then Finished(Refused) else Inserting(Frozen(latest, w.witnesses))
    case Inserting(_) => Finished(if e.Key() in t || MessageStored(t, e) then Clashed else Applied)
  }

  ghost function Apply(s: State, step: Step): State
    requires Enabled(s, step)
  {
    match step
    case Begin(event, witnesses) => s.(writers := s.writers + [Writer(event, witnesses, CheckingDelivery)])
    case Advance(i) =>
      var w := s.writers[i];
      var pc := Next(s.table, w);
      var moved := s.(writers := s.writers[i := w.(pc := pc)]);
      if pc == Finished(Applied) then
        moved.(table := s.table[w.event.Key() := Row(w.event, w.pc.frozen)],
               committed := s.committed + [(w.event, w.witnesses)])
      else moved
  }

  const Initial := State(map[], [], [])

  // ---- one writer alone -----------------------------------------------------------

  /** The same call with nobody in between. */
  ghost function Record(t: Table, event: GameEvent, witnesses: set<string>): (Table, Outcome) {
    var latest := Latest(t, event.sessionId, event.eventId);
    if MessageStored(t, event) then (t, if DeliveredRow(t, event).event == event then Duplicate else Refused)
    else if event.Key() in t || Rejected(event, latest) then (t, Refused)
    else (t[event.Key() := Row(event, Frozen(latest, witnesses))], Applied)
  }

  ghost function RecordAll(messages: seq<(GameEvent, set<string>)>): Table {
    if messages == [] then map[]
    else
      var last := messages[|messages| - 1];
      Record(RecordAll(messages[..|messages| - 1]), last.0, last.1).0
  }

  // ---- the invariant --------------------------------------------------------------

  /** A row stands on the one before it; the first stands on nothing. */
  predicate Follows(t: Table, k: RowKey)
    requires k in t
  {
    var e := t[k].event;
    && e.Key() == k && e.revision >= FIRST_EVENT_REVISION
    && (e.revision > FIRST_EVENT_REVISION ==> Continues(t, e, t[k].witnesses))
  }

  /** The previous revision is stored, not terminal, not later, and has this witness set. */
  predicate Continues(t: Table, e: GameEvent, witnesses: set<string>)
    requires e.revision > 0
  {
    var before := (e.sessionId, e.eventId, e.revision - 1);
    && before in t && !t[before].event.IsTerminal()
    && t[before].event.timestampMs <= e.timestampMs && t[before].witnesses == witnesses
  }

  ghost predicate Chained(t: Table) {
    forall k :: k in t ==> Follows(t, k)
  }

  ghost predicate MessagesUnique(t: Table) {
    forall k, l :: k in t && l in t && Carries(t, k, t[l].event) ==> k == l
  }

  /** What a writer about to insert has read stays true, because rows only appear. */
  ghost predicate ReadsHold(t: Table, w: Writer) {
    w.pc.Inserting? ==>
      && w.event.revision >= FIRST_EVENT_REVISION
      && (w.event.revision == FIRST_EVENT_REVISION ==> w.pc.frozen == w.witnesses)
      && (w.event.revision > FIRST_EVENT_REVISION ==> Continues(t, w.event, w.pc.frozen))
  }

  ghost predicate Inv(s: State) {
    && Chained(s.table) && MessagesUnique(s.table)
    && (forall i :: 0 <= i < |s.writers| ==> ReadsHold(s.table, s.writers[i]))
    && s.table == RecordAll(s.committed)
  }

  // ---- every step keeps it --------------------------------------------------------

  lemma {:induction false} Contiguous(t: Table, sessionId: string, eventId: string, n: nat, r: nat)
    requires Chained(t) && (sessionId, eventId, n) in t && 1 <= r <= n
    ensures (sessionId, eventId, r) in t
    decreases n - r
  {
    if r < n {
      Contiguous(t, sessionId, eventId, n, r + 1);
      assert Follows(t, (sessionId, eventId, r + 1));
    }
  }

  lemma TopStored(t: Table, sessionId: string, eventId: string, n: nat)
    requires Chained(t)
    ensures (sessionId, eventId, n) in t ==> n <= Top(t, sessionId, eventId)
    ensures Top(t, sessionId, eventId) > 0 <==> Latest(t, sessionId, eventId).Some?
  {
    var ns := Revisions(t, sessionId, eventId);
    assert (sessionId, eventId, n) in t ==> n in ns;
    if ns != {} {
      assert Follows(t, (sessionId, eventId, Greatest(ns)));
    }
  }

  /** Reading the newest row leaves a writer knowing its own predecessor. */
  lemma LatestRead(t: Table, w: Writer)
    requires Chained(t) && w.pc.ReadingLatest?
    ensures ReadsHold(t, w.(pc := Next(t, w)))
  {
    var e := w.event;
    var latest := Latest(t, e.sessionId, e.eventId);
    if latest.Some? {
      assert Follows(t, (e.sessionId, e.eventId, Top(t, e.sessionId, e.eventId)));
    }
  }

  lemma InsertChained(t: Table, e: GameEvent, witnesses: set<string>)
    requires Chained(t) && e.Key() !in t && e.revision >= FIRST_EVENT_REVISION
    requires e.revision > FIRST_EVENT_REVISION ==> Continues(t, e, witnesses)
    ensures Chained(t[e.Key() := Row(e, witnesses)])
  {
    var t' := t[e.Key() := Row(e, witnesses)];
    forall k | k in t' ensures Follows(t', k) {
      if k != e.Key() {
        assert Follows(t, k);
      }
    }
  }

  lemma InsertUnique(t: Table, e: GameEvent, witnesses: set<string>)
    requires MessagesUnique(t) && e.Key() !in t && !MessageStored(t, e)
    ensures MessagesUnique(t[e.Key() := Row(e, witnesses)])
  {
    var t' := t[e.Key() := Row(e, witnesses)];
    assert forall l :: l in t && t[l].event.sessionId == e.sessionId && t[l].event.messageId == e.messageId ==> Carries(t, l, e);
    forall k, l | k in t' && l in t' && Carries(t', k, t'[l].event) ensures k == l {
      if k != e.Key() && l != e.Key() {
        assert Carries(t, k, t[l].event);
      }
    }
  }

  /** A writer that still finds its own revision missing would have read the same newest row now: its
      suspended call commits exactly what an undisturbed call would. */
  lemma InsertIsRecord(t: Table, w: Writer)
    requires Chained(t) && w.pc.Inserting? && ReadsHold(t, w)
    requires Next(t, w) == Finished(Applied)
    ensures Record(t, w.event, w.witnesses) == (t[w.event.Key() := Row(w.event, w.pc.frozen)], Applied)
  {
    ChainAccepts(t, w);
    hide Chained, Top, Revisions, Latest, Rejected, Frozen, ReadsHold;
  }

  lemma ChainAccepts(t: Table, w: Writer)
    requires Chained(t) && w.pc.Inserting? && ReadsHold(t, w) && w.event.Key() !in t
    ensures var latest := Latest(t, w.event.sessionId, w.event.eventId);
      !Rejected(w.event, latest) && Frozen(latest, w.witnesses) == w.pc.frozen
  {
    TopIsPrevious(t, w.event, w.pc.frozen);
    assert w.event.revision > FIRST_EVENT_REVISION ==>
      Follows(t, (w.event.sessionId, w.event.eventId, w.event.revision - 1));
    hide Chained, Top, Revisions, Latest;
  }

  lemma TopIsPrevious(t: Table, e: GameEvent, witnesses: set<string>)
    requires Chained(t) && e.Key() !in t && e.revision >= FIRST_EVENT_REVISION
    requires e.revision > FIRST_EVENT_REVISION ==> Continues(t, e, witnesses)
    ensures Top(t, e.sessionId, e.eventId) == e.revision - 1
    ensures Latest(t, e.sessionId, e.eventId)
         == if e.revision > FIRST_EVENT_REVISION then Some(t[(e.sessionId, e.eventId, e.revision - 1)]) else None
  {
    var top := Top(t, e.sessionId, e.eventId);
    TopStored(t, e.sessionId, e.eventId, e.revision - 1);
    if top >= e.revision {
      assert (e.sessionId, e.eventId, top) in t;
      Contiguous(t, e.sessionId, e.eventId, top, e.revision);
    }
  }

  /** Rows appear; none is changed or removed. */
  ghost predicate Grows(t: Table, t': Table) {
    forall k :: k in t ==> k in t' && t'[k] == t[k]
  }

  lemma ReadsStillHold(t: Table, t': Table, w: Writer)
    requires Grows(t, t') && ReadsHold(t, w)
    ensures ReadsHold(t', w)
  {
  }

  lemma RecordAllPush(messages: seq<(GameEvent, set<string>)>, last: (GameEvent, set<string>))
    ensures RecordAll(messages + [last]) == Record(RecordAll(messages), last.0, last.1).0
  {
    assert (messages + [last])[..|messages|] == messages;
  }

  lemma CommitOk(t: Table, w: Writer, committed: seq<(GameEvent, set<string>)>)
    requires Chained(t) && MessagesUnique(t) && ReadsHold(t, w) && t == RecordAll(committed)
    requires w.pc.Inserting? && Next(t, w) == Finished(Applied)
    ensures var t' := t[w.event.Key() := Row(w.event, w.pc.frozen)];
      && Grows(t, t') && Chained(t') && MessagesUnique(t') && t' == RecordAll(committed + [(w.event, w.witnesses)])
  {
    InsertIsRecord(t, w);
    RecordAllPush(committed, (w.event, w.witnesses));
    hide Record, RecordAll, Latest, Chained, MessagesUnique;
    InsertChained(t, w.event, w.pc.frozen);
    InsertUnique(t, w.event, w.pc.frozen);
  }

  lemma OwnReads(s: State, i: nat)
    requires Inv(s) && Enabled(s, Advance(i))
    ensures var s' := Apply(s, Advance(i)); ReadsHold(s.table, s'.writers[i])
  {
    if s.writers[i].pc.ReadingLatest? {
      LatestRead(s.table, s.writers[i]);
    }
  }

  lemma AdvanceOk(s: State, i: nat)
    requires Inv(s) && Enabled(s, Advance(i))
    ensures Inv(Apply(s, Advance(i))) && Grows(s.table, Apply(s, Advance(i)).table)
  {
    var s' := Apply(s, Advance(i));
    if Next(s.table, s.writers[i]) == Finished(Applied) {
      assert ReadsHold(s.table, s.writers[i]);
      CommitOk(s.table, s.writers[i], s.committed);
    }
    OwnReads(s, i);
    forall j | 0 <= j < |s'.writers| ensures ReadsHold(s'.table, s'.writers[j]) {
      hide Next, Continues, ReadsHold, Chained, MessagesUnique, RecordAll;
      ReadsStillHold(s.table, s'.table, s'.writers[j]);
    }
  }

  ghost predicate Runs(s: State, steps: seq<Step>, last: State)
    decreases |steps|
  {
    if steps == [] then last == s
    else Enabled(s, steps[0]) && Runs(Apply(s, steps[0]), steps[1..], last)
  }

  lemma {:induction false} Always(s: State, steps: seq<Step>, last: State)
    requires Inv(s) && Runs(s, steps, last)
    ensures Inv(last) && Grows(s.table, last.table)
    decreases |steps|
  {
    if steps != [] {
      if steps[0].Advance? {
        AdvanceOk(s, steps[0].writer);
      }
      Always(Apply(s, steps[0]), steps[1..], last);
    }
  }

  // ---- what it gives --------------------------------------------------------------

  /** Interleaved writers commit only what the same calls would have committed one after another. */
  lemma SameAsOneAtATime(steps: seq<Step>, s: State)
    requires Runs(Initial, steps, s)
    ensures s.table == RecordAll(s.committed)
  {
    Always(Initial, steps, s);
  }

  /** Revision `r` of a chain against any later revision `n` of it. */
  lemma {:induction false} Precedes(t: Table, sessionId: string, eventId: string, r: nat, n: nat)
    requires Chained(t) && (sessionId, eventId, n) in t && 1 <= r <= n
    ensures (sessionId, eventId, r) in t
    ensures var a, b := t[(sessionId, eventId, r)], t[(sessionId, eventId, n)];
      && a.event.timestampMs <= b.event.timestampMs && a.witnesses == b.witnesses
      && (a.event.IsTerminal() ==> r == n)
    decreases n - r
  {
    Contiguous(t, sessionId, eventId, n, r);
    if r < n {
      Precedes(t, sessionId, eventId, r + 1, n);
      assert Follows(t, (sessionId, eventId, r + 1));
    }
  }

  /** Every stored chain: revisions exactly 1..n, time never running back, one witness set, a terminal
      status only at the end; and no message stored twice. */
  lemma ChainsCoherent(steps: seq<Step>, s: State, sessionId: string, eventId: string)
    requires Runs(Initial, steps, s)
    ensures var t := s.table; var n := Top(t, sessionId, eventId);
      && (forall r: nat :: (sessionId, eventId, r) in t <==> 1 <= r <= n)
      && (forall a: nat, b: nat :: 1 <= a <= b <= n ==>
            var x, y := t[(sessionId, eventId, a)], t[(sessionId, eventId, b)];
            x.event.timestampMs <= y.event.timestampMs && x.witnesses == y.witnesses && (x.event.IsTerminal() ==> a == b))
      && (forall k, l :: k in t && l in t && k != l && t[k].event.sessionId == t[l].event.sessionId ==>
            t[k].event.messageId != t[l].event.messageId)
  {
    Always(Initial, steps, s);
    var t := s.table;
    var n := Top(t, sessionId, eventId);
    forall r: nat ensures (sessionId, eventId, r) in t <==> 1 <= r <= n {
      TopStored(t, sessionId, eventId, r);
      if (sessionId, eventId, r) in t {
        assert Follows(t, (sessionId, eventId, r));
      }
      if 1 <= r <= n {
        Contiguous(t, sessionId, eventId, n, r);
      }
    }
    forall a: nat, b: nat | 1 <= a <= b <= n
      ensures var x, y := t[(sessionId, eventId, a)], t[(sessionId, eventId, b)];
        x.event.timestampMs <= y.event.timestampMs && x.witnesses == y.witnesses && (x.event.IsTerminal() ==> a == b)
    {
      Precedes(t, sessionId, eventId, a, b);
    }
    forall k, l | k in t && l in t && k != l && t[k].event.sessionId == t[l].event.sessionId
      ensures t[k].event.messageId != t[l].event.messageId
    {
      assert !Carries(t, k, t[l].event);
    }
  }

  /** What a message already stored as `row` is answered. */
  function AnswerTo(row: Row, event: GameEvent): Pc {
    Finished(if row.event == event then Duplicate else Refused)
  }

  /** Writer `i` redelivers the message stored at `k`, and has at most been answered. */
  ghost predicate Redelivers(s: State, i: nat, k: RowKey) {
    && i < |s.writers| && Carries(s.table, k, s.writers[i].event)
    && (s.writers[i].pc == CheckingDelivery || s.writers[i].pc == AnswerTo(s.table[k], s.writers[i].event))
  }

  lemma OwnAnswer(s: State, i: nat, k: RowKey)
    requires Inv(s) && Redelivers(s, i, k) && Enabled(s, Advance(i))
    ensures Next(s.table, s.writers[i]) == Finished(if s.table[k].event == s.writers[i].event then Duplicate else Refused)
  {
    SameRow(s.table, s.writers[i].event, k);
    hide Inv, DeliveredRow, MessageStored, Latest;
  }

  lemma RedeliveryStep(s: State, step: Step, i: nat, k: RowKey)
    requires Inv(s) && Redelivers(s, i, k) && Enabled(s, step)
    ensures var next := Apply(s, step);
            && Inv(next) && Redelivers(next, i, k) && Grows(s.table, next.table)
            && next.writers[i].event == s.writers[i].event && next.table[k] == s.table[k]
            && (step == Advance(i) ==> next.table == s.table)
  {
    if step.Advance? {
      AdvanceOk(s, step.writer);
      if step.writer == i {
        OwnAnswer(s, i, k);
      }
    }
    hide Inv, Next;
  }

  /** Redelivering a stored message never writes, whoever else is writing: it is a duplicate exactly
      when the stored row (at `k`) holds the same content. */
  lemma {:induction false} RedeliveryChangesNothing(s: State, steps: seq<Step>, last: State, i: nat, k: RowKey)
    requires Inv(s) && Runs(s, steps, last) && i < |s.writers| && Carries(s.table, k, s.writers[i].event)
    requires s.writers[i].pc == CheckingDelivery || s.writers[i].pc == AnswerTo(s.table[k], s.writers[i].event)
    ensures i < |last.writers| && last.writers[i].event == s.writers[i].event
    ensures last.writers[i].pc == CheckingDelivery || last.writers[i].pc == AnswerTo(s.table[k], s.writers[i].event)
    decreases |steps|
  {
    if steps != [] {
      RedeliveryStep(s, steps[0], i, k);
      hide Inv, Apply, Enabled;
      RedeliveryChangesNothing(Apply(s, steps[0]), steps[1..], last, i, k);
    }
  }

  // ---- a writer nobody interrupts --------------------------------------------------------

  function StepsLeft(pc: Pc): nat {
    match pc
    case CheckingDelivery => 4
    case CheckingRevision => 3
    case ReadingLatest => 2
    case Inserting(_) => 1
    case Finished(_) => 0
  }

  lemma StepsGoDown(t: Table, w: Writer)
    requires !w.pc.Finished?
    ensures StepsLeft(Next(t, w)) < StepsLeft(w.pc)
  {
  }

  /** Writer `i` alone takes every step it has left. */
  ghost function Undisturbed(s: State, i: nat): State
    requires i < |s.writers|
    decreases StepsLeft(s.writers[i].pc)
  {
    if s.writers[i].pc.Finished? then s
    else
      StepsGoDown(s.table, s.writers[i]);
      Undisturbed(Apply(s, Advance(i)), i)
  }

  lemma Unroll(s: State, i: nat)
    requires i < |s.writers| && !s.writers[i].pc.Finished?
    ensures Undisturbed(s, i) == Undisturbed(Apply(s, Advance(i)), i)
  {
    hide Next, Apply;
  }

  lemma Rest(s: State, i: nat)
    requires i < |s.writers| && s.writers[i].pc.Finished?
    ensures Undisturbed(s, i) == s
  {
  }

  /** A call nobody interrupts ends with the table and the answer of one call alone. */
  lemma UndisturbedIsRecord(s: State, event: GameEvent, witnesses: set<string>)
    ensures var i := |s.writers|;
            var last := Undisturbed(Apply(s, Begin(event, witnesses)), i);
            var (t, outcome) := Record(s.table, event, witnesses);
            last.table == t && |last.writers| == i + 1 && last.writers[i].pc == Finished(outcome)
  {
    var i := |s.writers|;
    var s0 := Apply(s, Begin(event, witnesses));
    var s1 := Apply(s0, Advance(i));
    Unroll(s0, i);
    if s1.writers[i].pc.Finished? {
      Rest(s1, i);
    } else {
      var s2 := Apply(s1, Advance(i));
      Unroll(s1, i);
      if s2.writers[i].pc.Finished? {
        Rest(s2, i);
      } else {
        var s3 := Apply(s2, Advance(i));
        Unroll(s2, i);
        if s3.writers[i].pc.Finished? {
          Rest(s3, i);
        } else {
          Unroll(s3, i);
          Rest(Apply(s3, Advance(i)), i);
        }
      }
    }
    hide Latest, Rejected, Frozen, MessageStored, DeliveredRow, Undisturbed;
  }

  /** No stored row of the session came from this message. */
  ghost predicate IsNew(t: Table, event: GameEvent) {
    forall k :: k in t && t[k].event.sessionId == event.sessionId ==> t[k].event.messageId != event.messageId
  }

  ghost predicate IsStored(t: Table, event: GameEvent) {
    exists k :: k in t && t[k].event == event
  }

  /** It starts its event, or its predecessor is stored, not over and not later. */
  ghost predicate Extends(t: Table, event: GameEvent) {
    event.revision == 1 || (event.revision > 1 &&
      var before := (event.sessionId, event.eventId, event.revision - 1);
      && before in t && t[before].event.status != Ended && t[before].event.status != Cancelled
      && t[before].event.timestampMs <= event.timestampMs)
  }

  ghost function Inherited(t: Table, event: GameEvent, witnesses: set<string>): set<string>
    requires Extends(t, event)
  {
    if event.revision == 1 then witnesses else t[(event.sessionId, event.eventId, event.revision - 1)].witnesses
  }

  /** In a table of coherent chains, a message is taken in exactly when it is new and extends a chain
      at a revision not stored; it is a duplicate exactly when the very same event is stored. A first
      revision keeps the witnesses it came with; a later one has its predecessor's. */
  lemma AppliedIff(t: Table, event: GameEvent, witnesses: set<string>)
    requires Chained(t) && MessagesUnique(t)
    ensures var (t', outcome) := Record(t, event, witnesses); var key := (event.sessionId, event.eventId, event.revision);
      && (outcome == Applied <==> IsNew(t, event) && key !in t && Extends(t, event))
      && (outcome == Duplicate <==> IsStored(t, event))
      && (outcome == Applied ==> t' == t[key := Row(event, Inherited(t, event, witnesses))])
      && (outcome != Applied ==> t' == t && (outcome == Duplicate || outcome == Refused))
  {
    DeliveredIff(t, event);
    if event.Key() !in t {
      if event.revision >= FIRST_EVENT_REVISION {
        AcceptedIff(t, event, witnesses);
      } else {
        NoRevisionZero(t, event);
      }
    }
    hide Chained, MessagesUnique, Latest, Rejected, Frozen, MessageStored, DeliveredRow, IsNew, IsStored, Inherited;
  }

  lemma DeliveredIff(t: Table, event: GameEvent)
    requires MessagesUnique(t)
    ensures MessageStored(t, event) <==> !IsNew(t, event)
    ensures MessageStored(t, event) && DeliveredRow(t, event).event == event <==> IsStored(t, event)
  {
    if k :| k in t && t[k].event.sessionId == event.sessionId && t[k].event.messageId == event.messageId {
      assert Carries(t, k, event);
    }
    if k :| k in t && t[k].event == event {
      assert Carries(t, k, event);
      SameRow(t, event, k);
    }
  }

  /** An insert that comes too late clashes: exactly when its revision or its message has been stored
      since the writer looked. */
  lemma LateInsertClashes(t: Table, w: Writer)
    requires MessagesUnique(t) && w.pc.Inserting?
    ensures Next(t, w) == Finished(Clashed) <==>
              (w.event.sessionId, w.event.eventId, w.event.revision) in t || !IsNew(t, w.event)
    ensures Next(t, w) == Finished(Clashed) || Next(t, w) == Finished(Applied)
  {
    DeliveredIff(t, w.event);
    hide MessagesUnique, IsNew, IsStored, MessageStored;
  }

  lemma NoRevisionZero(t: Table, event: GameEvent)
    requires Chained(t) && event.revision == 0
    ensures Rejected(event, Latest(t, event.sessionId, event.eventId))
  {
    var latest := Latest(t, event.sessionId, event.eventId);
    if latest.Some? {
      assert Follows(t, (event.sessionId, event.eventId, Top(t, event.sessionId, event.eventId)));
    }
  }

  lemma AcceptedIff(t: Table, event: GameEvent, witnesses: set<string>)
    requires Chained(t) && event.Key() !in t && event.revision >= FIRST_EVENT_REVISION
    ensures var latest := Latest(t, event.sessionId, event.eventId);
      && (!Rejected(event, latest) <==> Extends(t, event))
      && (Extends(t, event) ==> Frozen(latest, witnesses) == Inherited(t, event, witnesses))
  {
    var latest, top := Latest(t, event.sessionId, event.eventId), Top(t, event.sessionId, event.eventId);
    TopStored(t, event.sessionId, event.eventId, event.revision - 1);
    if latest.Some? {
      assert Follows(t, (event.sessionId, event.eventId, top));
      if event.revision <= top {
        Contiguous(t, event.sessionId, event.eventId, top, event.revision);
      }
    } else {
      NoneStored(t, event);
    }
    hide Chained, Revisions, Top;
  }

  lemma NoneStored(t: Table, event: GameEvent)
    requires Latest(t, event.sessionId, event.eventId).None?
    ensures forall n: nat :: (event.sessionId, event.eventId, n) !in t
  {
    forall n: nat ensures (event.sessionId, event.eventId, n) !in t {
      assert (event.sessionId, event.eventId, n) in t ==> n in Revisions(t, event.sessionId, event.eventId);
    }
  }

  lemma SameRow(t: Table, e: GameEvent, k: RowKey)
    requires MessagesUnique(t) && Carries(t, k, e)
    ensures MessageStored(t, e) && DeliveredRow(t, e) == t[k]
  {
    var l := DeliveredKey(t, e);
    assert Carries(t, k, t[l].event);
  }
}

/** The store as the object intake holds, with one call at a time. */
module EventStores {
  import opened GenerationWork
  import opened Numbers
  import opened EventStore

  class Events {
    var rows: Table

    ghost predicate Valid()
      reads this
    {
      Chained(rows) && MessagesUnique(rows)
    }

    constructor ()
      ensures Valid() && rows == map[]
    {
      rows := map[];
    }

    /** The row one message was delivered as, if it was. */
    method Delivered(event: GameEvent) returns (found: Option<RowKey>)
      ensures found.Some? ==> Carries(rows, found.value, event)
      ensures found.None? ==> !MessageStored(rows, event)
    {
      var rest := rows.Keys;
      while rest != {}
        invariant rest <= rows.Keys
        invariant forall k :: k in rows && k !in rest ==> !Carries(rows, k, event)
      {
        var k :| k in rest;
        if Carries(rows, k, event) {
          return Some(k);
        }
        rest := rest - {k};
      }
      return None;
    }

    /** The newest revision of one event. */
    method LatestOf(sessionId: string, eventId: string) returns (latest: Option<Row>)
      ensures latest == Latest(rows, sessionId, eventId)
    {
      latest := None;
      var best := 0;
      ghost var seen: set<nat> := {};
      var rest := rows.Keys;
      while rest != {}
        invariant rest <= rows.Keys
        invariant seen == (set k | k in rows && k !in rest && k.0 == sessionId && k.1 == eventId :: k.2)
        invariant if seen == {} then latest == None && best == 0
                  else best in seen && (sessionId, eventId, best) in rows && latest == Some(rows[(sessionId, eventId, best)])
        invariant forall n :: n in seen ==> n <= best
      {
        var k :| k in rest;
        rest := rest - {k};
        if k.0 == sessionId && k.1 == eventId {
          seen := seen + {k.2};
          if latest.None? || k.2 >= best {
            best := k.2;
            latest := Some(rows[k]);
          }
        }
      }
      assert seen == Revisions(rows, sessionId, eventId);
    }

    /** Applies, finds a duplicate of, or refuses one revision, and keeps every chain coherent. */
    method Record(event: GameEvent, witnesses: set<string>) returns (outcome: Outcome)
      requires Valid()
      modifies this
      ensures Valid() && Grows(old(rows), rows)
      ensures (rows, outcome) == EventStore.Record(old(rows), event, witnesses)
    {
      RecordKeeps(rows, event, witnesses);
      var delivered := Delivered(event);
      if delivered.Some? {
        SameRow(rows, event, delivered.value);
        return if rows[delivered.value].event == event then Duplicate else Refused;
      }
      if event.Key() in rows {
        return Refused;
      }
      var latest := LatestOf(event.sessionId, event.eventId);
      if Rejected(event, latest) {
        return Refused;
      }
      var frozen := Frozen(latest, witnesses);
      rows := rows[event.Key() := Row(event, frozen)];
      return Applied;
    }
  }

  /** Extending the newest revision keeps the chain: what it follows is what it read. */
  lemma RecordKeeps(t: Table, event: GameEvent, witnesses: set<string>)
    requires Chained(t) && MessagesUnique(t)
    ensures var (t', outcome) := EventStore.Record(t, event, witnesses);
            && Chained(t') && MessagesUnique(t') && Grows(t, t')
            && (outcome == Applied <==> t' != t)
  {
    var latest := Latest(t, event.sessionId, event.eventId);
    if !MessageStored(t, event) && event.Key() !in t && !Rejected(event, latest) {
      LatestRead(t, Writer(event, witnesses, ReadingLatest));
      var frozen := Frozen(latest, witnesses);
      InsertChained(t, event, frozen);
      InsertUnique(t, event, frozen);
    }
  }
}
