/** Generation from claim to published command, interleaved at every await and cut short by crashes.

    Durable tables survive a crash; the queue and the running work do not. The log records what the
    outside world saw: provider calls, command stores, publication attempts. */
module Pipeline {
  import opened GenerationWork
  import opened Numbers
  import Q = QueueSpec

  // ---- durable rows ---------------------------------------------------------------

  datatype Outcome = Attempted | Succeeded | Failed

  datatype Attempt = Attempt(slot: Slot, outcome: Outcome)

  datatype Status = Pending | Published | Expired

  /** A stored command. Its identity is derived from the claim key it is filed under. */
  datatype Command = Command(slot: Slot, sequence: nat, bytes: string, status: Status)

  datatype Tables = Tables(
    claims: set<ClaimKey>, attempts: map<ClaimKey, Attempt>, commands: map<ClaimKey, Command>)

  function Close(t: Tables, key: ClaimKey, outcome: Outcome): Tables {
    if key in t.attempts then t.(attempts := t.attempts[key := t.attempts[key].(outcome := outcome)]) else t
  }

  function OpenAttempt(t: Tables, key: ClaimKey, slot: Slot): Tables {
    if key in t.attempts then t else t.(attempts := t.attempts[key := Attempt(slot, Attempted)])
  }

  function Mark(t: Tables, key: ClaimKey, status: Status): Tables {
    if key in t.commands then t.(commands := t.commands[key := t.commands[key].(status := status)]) else t
  }

  function Sequences(commands: map<ClaimKey, Command>, slot: Slot): set<nat> {
    set k | k in commands && commands[k].slot == slot :: commands[k].sequence
  }

  /** One more than the greatest sequence issued to the NPC so far. */
  ghost function NextSequence(commands: map<ClaimKey, Command>, slot: Slot): nat {
    Greatest(Sequences(commands, slot)) + 1
  }

  /** The primary key or the per-NPC uniqueness constraint would refuse this row. */
  predicate Clash(t: Tables, key: ClaimKey, slot: Slot, sequence: nat) {
    key in t.commands || sequence in Sequences(t.commands, slot)
  }

  // ---- what the outside world saw -------------------------------------------------

  /** One publication attempt, and whether it got through. */
  datatype Send = Send(key: ClaimKey, slot: Slot, sequence: nat, bytes: string, landed: bool)

  datatype Log = Log(calls: seq<ClaimKey>, stores: seq<ClaimKey>, sends: seq<Send>, clashes: nat)

  // ---- one piece of running work --------------------------------------------------

  datatype Pc =
    | Checking
    | Claiming
    | Claimed
    | Opened
    | Calling
    | Closed
    | Built(sequence: nat, bytes: string)
    | Delivering
    | Sent
    | Ending

  datatype Run = Run(key: ClaimKey, pc: Pc)

  datatype Move =
    | Abandon
    | Proceed
    | TakeClaim
    | OpenRow
    | NoProvider
    | Call
    | Answer(ok: bool)
    | Build(bytes: string)
    | TooLarge
    | Store
    | TrySend(lands: bool)
    | MarkPublished
    | Expire

  /** Which moves a piece of work can make next. Abandoning covers a stale revalidation, a missing
      world state and an exception before the next durable step. */
  predicate CanMove(pc: Pc, m: Move) {
    match m
    case Abandon => pc.Checking? || pc.Claimed? || pc.Closed? || pc.Built?
    case Proceed => pc.Checking?
    case TakeClaim => pc.Claiming?
    case OpenRow => pc.Claimed?
    case NoProvider => pc.Opened?
    case Call => pc.Opened?
    case Answer(_) => pc.Calling?
    case Build(_) => pc.Closed?
    case TooLarge => pc.Built?
    case Store => pc.Built?
    case TrySend(_) => pc.Delivering?
    case MarkPublished => pc.Sent?
    case Expire => pc.Delivering?
  }

  /** One atomic step: the tables and the log it leaves, and where the work stands then. */
  ghost function MoveTo(t: Tables, log: Log, slot: Slot, run: Run, m: Move): (r: (Tables, Log, Pc))
    requires CanMove(run.pc, m)
  {
    var key := run.key;
    match m
    case Abandon => (t, log, Ending)
    case Proceed => (t, log, Claiming)
    case TakeClaim => if key in t.claims then (t, log, Ending) else (t.(claims := t.claims + {key}), log, Claimed)
    case OpenRow => (OpenAttempt(t, key, slot), log, Opened)
    case NoProvider => (Close(t, key, Failed), log, Ending)
    case Call => (t, log.(calls := log.calls + [key]), Calling)
    case Answer(ok) => (Close(t, key, if ok then Succeeded else Failed), log, Closed)
    case Build(bytes) => (t, log, Built(NextSequence(t.commands, slot), bytes))
    case TooLarge => (t, log.(stores := log.stores + [key]), Ending)
    case Store =>
      var stored := log.(stores := log.stores + [key]);
      if Clash(t, key, slot, run.pc.sequence) then (t, stored.(clashes := log.clashes + 1), Ending)
      else
        (t.(commands := t.commands[key := Command(slot, run.pc.sequence, run.pc.bytes, Pending)]), stored, Delivering)
    case TrySend(lands) =>
      var sent := if key in t.commands
        then log.(sends := log.sends + [Send(key, slot, t.commands[key].sequence, t.commands[key].bytes, lands)])
        else log;
      (t, sent, if lands then Sent else Delivering)
    case MarkPublished => (Mark(t, key, Published), log, Ending)
    case Expire => (Mark(t, key, Expired), log, Ending)
  }

  // ---- the whole process ----------------------------------------------------------

  datatype Mode =
    | Starting
    | Answering(todo: seq<ClaimKey>)
    | Republishing(todo: seq<ClaimKey>)
    | Serving

  datatype State = State(tables: Tables, log: Log, queue: Q.Queue, runs: map<Slot, Run>, mode: Mode)

  datatype Action =
    | Submit(work: Generation)
    | Cancel(doomed: Generation -> bool)
    | Dispatch
    | Advance(slot: Slot, move: Move)
    | Finish(slot: Slot)
    | Crash
    | ReadAttempts(found: seq<ClaimKey>)
    | AnswerNext
    | ReadCommands(found: seq<ClaimKey>)
    | RepublishNext
    | OpenIntake

  predicate NoDuplicates<T(==)>(s: seq<T>) {
    forall i, j :: 0 <= i < j < |s| ==> s[i] != s[j]
  }

  predicate IsAttempted(t: Tables, key: ClaimKey) {
    key in t.attempts && t.attempts[key].outcome == Attempted
  }

  predicate IsPending(t: Tables, key: ClaimKey) {
    key in t.commands && t.commands[key].status == Pending
  }

  /** Recovery handles its rows one at a time, and intake opens only once it has finished. */
  ghost predicate Enabled(s: State, limits: Q.Limits, a: Action) {
    match a
    case Submit(_) => s.mode.Serving?
    case Cancel(_) => s.mode.Serving?
    case Dispatch => s.mode.Serving? && Q.ClaimNext(s.queue, limits).1.Some?
    case Advance(slot, m) =>
      slot in s.runs && CanMove(s.runs[slot].pc, m) && (m.Abandon? ==> s.mode.Serving?)
    case Finish(slot) => slot in s.runs && s.runs[slot].pc.Ending?
    case Crash => true
    case ReadAttempts(found) =>
      s.mode.Starting? && NoDuplicates(found) && forall k :: k in found <==> IsAttempted(s.tables, k)
    case AnswerNext => s.mode.Answering? && s.mode.todo != [] && s.runs == map[] && s.mode.todo[0] in s.tables.attempts
    case ReadCommands(found) =>
      s.mode == Answering([]) && s.runs == map[] && NoDuplicates(found) && forall k :: k in found <==> IsPending(s.tables, k)
    case RepublishNext => s.mode.Republishing? && s.mode.todo != [] && s.runs == map[] && s.mode.todo[0] in s.tables.commands
    case OpenIntake => s.mode == Republishing([]) && s.runs == map[]
  }

  ghost function Apply(s: State, limits: Q.Limits, a: Action): State
    requires Enabled(s, limits, a)
  {
    match a
    case Submit(work) => s.(queue := Q.Enqueue(s.queue, work).0)
    case Cancel(doomed) => s.(queue := Q.Evict(s.queue, doomed).0)
    case Dispatch =>
      var (q, g) := Q.ClaimNext(s.queue, limits);
      s.(queue := q, runs := s.runs[g.value.Slot() := Run(g.value.claimKey, Checking)])
    case Advance(slot, m) =>
      var (t, log, pc) := MoveTo(s.tables, s.log, slot, s.runs[slot], m);
      s.(tables := t, log := log, runs := s.runs[slot := Run(s.runs[slot].key, pc)])
    case Finish(slot) =>
      s.(runs := s.runs - {slot},
         queue := if slot in s.queue.inFlight then Q.Release(s.queue, s.queue.inFlight[slot]) else s.queue)
    case Crash => State(s.tables, s.log, Q.Empty, map[], Starting)
    case ReadAttempts(found) => s.(mode := Answering(found))
    case AnswerNext =>
      var key := s.mode.todo[0];
      s.(tables := Close(s.tables, key, Failed),
         runs := map[s.tables.attempts[key].slot := Run(key, Closed)],
         mode := Answering(s.mode.todo[1..]))
    case ReadCommands(found) => s.(mode := Republishing(found))
    case RepublishNext =>
      var key := s.mode.todo[0];
      s.(runs := map[s.tables.commands[key].slot := Run(key, Delivering)], mode := Republishing(s.mode.todo[1..]))
    case OpenIntake => s.(mode := Serving)
  }

  ghost predicate Init(s: State) {
    s == State(Tables({}, map[], map[]), Log([], [], [], 0), Q.Empty, map[], Starting)
  }

  ghost predicate Step(s: State, limits: Q.Limits, s': State) {
    exists a :: Enabled(s, limits, a) && s' == Apply(s, limits, a)
  }

  /** A run of the service over any number of processes. */
  ghost predicate Execution(states: seq<State>, limits: Q.Limits) {
    && states != [] && Init(states[0])
    && forall i :: 0 <= i < |states| - 1 ==> Step(states[i], limits, states[i + 1])
  }

  // ---- the invariant --------------------------------------------------------------

  /** Unfinished durable business of one NPC: a call nobody closed, or a command nobody settled. */
  predicate Open(t: Tables, key: ClaimKey, slot: Slot) {
    || (IsAttempted(t, key) && t.attempts[key].slot == slot)
    || (IsPending(t, key) && t.commands[key].slot == slot)
  }

  ghost predicate Quiet(t: Tables, slot: Slot) {
    forall k :: !Open(t, k, slot)
  }

  ghost predicate OneOpenRow(t: Tables) {
    forall k, l, slot :: Open(t, k, slot) && Open(t, l, slot) ==> k == l
  }

  /** Every command answers a closed attempt of a won claim. */
  ghost predicate Linked(t: Tables) {
    && t.attempts.Keys <= t.claims
    && forall k :: k in t.commands ==>
      k in t.attempts && t.attempts[k].slot == t.commands[k].slot && t.attempts[k].outcome != Attempted
  }

  function UpTo(n: nat): (ms: set<nat>)
    ensures forall m :: m in ms <==> 1 <= m <= n
  {
    if n == 0 then {} else UpTo(n - 1) + {n}
  }

  /** Each NPC's commands are numbered 1, 2, .., n with no gap and no repeat. */
  ghost predicate Numbered(t: Tables) {
    && (forall slot :: Sequences(t.commands, slot) == UpTo(Greatest(Sequences(t.commands, slot))))
    && (forall k, l :: k in t.commands && l in t.commands && k != l && t.commands[k].slot == t.commands[l].slot
         ==> t.commands[k].sequence != t.commands[l].sequence)
  }

  /** Whatever is still pending is its NPC's newest command. */
  ghost predicate PendingIsNewest(t: Tables) {
    forall k :: IsPending(t, k) ==> t.commands[k].sequence == Greatest(Sequences(t.commands, t.commands[k].slot))
  }

  ghost predicate OncePerKey(t: Tables, log: Log) {
    && NoDuplicates(log.calls) && NoDuplicates(log.stores) && log.clashes == 0
    && (forall k :: k in log.calls ==> k in t.attempts)
    && (forall k :: k in log.stores ==> k in t.attempts && t.attempts[k].outcome != Attempted)
    && (forall k :: k in t.commands ==> k in log.stores)
  }

  /** Every send carried a stored row's own bytes, and no NPC's sends ever went back in sequence. */
  ghost predicate SendsOrdered(t: Tables, log: Log) {
    && (forall i :: 0 <= i < |log.sends| ==> SendOfRow(t, log.sends[i]))
    && (forall i, j :: 0 <= i < j < |log.sends| && log.sends[i].slot == log.sends[j].slot ==>
          log.sends[i].sequence <= log.sends[j].sequence)
  }

  ghost predicate SendOfRow(t: Tables, sent: Send) {
    && sent.key in t.commands
    && var c := t.commands[sent.key]; sent.slot == c.slot && sent.sequence == c.sequence && sent.bytes == c.bytes
  }

  ghost predicate Core(t: Tables, log: Log) {
    OneOpenRow(t) && Linked(t) && Numbered(t) && PendingIsNewest(t) && OncePerKey(t, log) && SendsOrdered(t, log)
  }

  /** What the rows say about one running piece of work, by how far it has got. */
  ghost predicate RunOk(t: Tables, log: Log, slot: Slot, run: Run) {
    var k := run.key;
    match run.pc
    case Checking => Quiet(t, slot)
    case Claiming => Quiet(t, slot)
    case Claimed => Quiet(t, slot) && k in t.claims && k !in t.attempts
    case Opened => IsAttempted(t, k) && t.attempts[k].slot == slot && k !in log.calls
    case Calling => IsAttempted(t, k) && t.attempts[k].slot == slot
    case Closed => Quiet(t, slot) && Answered(t, log, slot, k)
    case Built(n, _) => Quiet(t, slot) && Answered(t, log, slot, k) && n == NextSequence(t.commands, slot)
    case Delivering => IsPending(t, k) && t.commands[k].slot == slot
    case Sent => IsPending(t, k) && t.commands[k].slot == slot
    case Ending => Quiet(t, slot)
  }

  ghost predicate Answered(t: Tables, log: Log, slot: Slot, k: ClaimKey) {
    k in t.attempts && t.attempts[k].slot == slot && t.attempts[k].outcome != Attempted && k !in log.stores
  }

  ghost predicate RunsOk(s: State) {
    && (forall slot :: slot in s.runs ==> RunOk(s.tables, s.log, slot, s.runs[slot]))
    && (forall a, b :: a in s.runs && b in s.runs && a != b ==> s.runs[a].key != s.runs[b].key)
  }

  /** While serving, every open row belongs to the work running for its NPC. */
  ghost predicate Covered(s: State) {
    forall k, slot :: Open(s.tables, k, slot) ==> slot in s.runs && s.runs[slot].key == k
  }

  ghost predicate QueueAgrees(s: State, limits: Q.Limits) {
    && Q.Valid(s.queue, limits)
    && s.runs.Keys == s.queue.inFlight.Keys
    && forall slot :: slot in s.runs ==> s.runs[slot].key == s.queue.inFlight[slot].claimKey
  }

  ghost predicate ModeOk(s: State, limits: Q.Limits) {
    match s.mode
    case Starting => s.queue == Q.Empty && s.runs == map[]
    case Answering(todo) =>
      && s.queue == Q.Empty && Single(s.runs) && NoDuplicates(todo)
      && (forall slot :: slot in s.runs ==> AfterClose(s.runs[slot].pc))
      && forall k :: k in todo <==> IsAttempted(s.tables, k)
    case Republishing(todo) =>
      && s.queue == Q.Empty && Single(s.runs) && NoDuplicates(todo)
      && (forall slot :: slot in s.runs ==> AfterStore(s.runs[slot].pc))
      && (forall k :: !IsAttempted(s.tables, k))
      && (forall k :: k in todo ==> IsPending(s.tables, k))
      && (forall k :: IsPending(s.tables, k) ==> k in todo || exists slot :: slot in s.runs && s.runs[slot].key == k && !s.runs[slot].pc.Ending?)
      && (forall slot :: slot in s.runs ==> s.runs[slot].key !in todo)
    case Serving => QueueAgrees(s, limits) && Covered(s)
  }

  predicate Single(runs: map<Slot, Run>) {
    forall a, b :: a in runs && b in runs ==> a == b
  }

  predicate AfterClose(pc: Pc) {
    pc.Closed? || pc.Built? || AfterStore(pc)
  }

  predicate AfterStore(pc: Pc) {
    pc.Delivering? || pc.Sent? || pc.Ending?
  }

  ghost predicate Inv(s: State, limits: Q.Limits) {
    Core(s.tables, s.log) && RunsOk(s) && ModeOk(s, limits)
  }

  // ---- one move keeps it ----------------------------------------------------------

  /** A move of work `k` at `slot` leaves every other NPC and every other key as they were. */
  ghost predicate Confined(t: Tables, log: Log, t': Tables, log': Log, slot: Slot, k: ClaimKey) {
    && (forall l, other :: other != slot ==> (Open(t', l, other) <==> Open(t, l, other)))
    && (forall other :: other != slot ==> Sequences(t'.commands, other) == Sequences(t.commands, other))
    && t.claims <= t'.claims
    && (forall l :: l != k ==> (l in t'.attempts <==> l in t.attempts) && (l in t'.commands <==> l in t.commands))
    && (forall l :: l != k && l in t.attempts ==> t'.attempts[l] == t.attempts[l])
    && (forall l :: l != k && l in t.commands ==> t'.commands[l] == t.commands[l])
    && (forall l :: l != k ==> (l in log'.calls <==> l in log.calls) && (l in log'.stores <==> l in log.stores))
  }

  lemma OthersKeep(t: Tables, log: Log, t': Tables, log': Log, slot: Slot, k: ClaimKey, other: Slot, run: Run)
    requires Confined(t, log, t', log', slot, k)
    requires other != slot && run.key != k && RunOk(t, log, other, run)
    ensures RunOk(t', log', other, run)
  {
    assert Quiet(t, other) ==> Quiet(t', other);
    if IsAttempted(t, run.key) && t.attempts[run.key].slot == other {
      assert Open(t, run.key, other);
    }
    if IsPending(t, run.key) && t.commands[run.key].slot == other {
      assert Open(t, run.key, other);
    }
  }

  ghost predicate MoveOk(t: Tables, log: Log, slot: Slot, run: Run, m: Move)
    requires CanMove(run.pc, m)
  {
    var (t', log', pc) := MoveTo(t, log, slot, run, m);
    Core(t', log') && RunOk(t', log', slot, Run(run.key, pc)) && Confined(t, log, t', log', slot, run.key)
  }

  lemma CallOk(t: Tables, log: Log, slot: Slot, run: Run)
    requires Core(t, log) && RunOk(t, log, slot, run) && run.pc.Opened?
    ensures MoveOk(t, log, slot, run, Call)
  {
  }

  lemma ClaimOk(t: Tables, log: Log, slot: Slot, run: Run)
    requires Core(t, log) && RunOk(t, log, slot, run) && run.pc.Claiming?
    ensures MoveOk(t, log, slot, run, TakeClaim)
  {
    var t' := MoveTo(t, log, slot, run, TakeClaim).0;
    assert forall l, s :: Open(t', l, s) <==> Open(t, l, s);
  }

  lemma OpenRowOk(t: Tables, log: Log, slot: Slot, run: Run)
    requires Core(t, log) && RunOk(t, log, slot, run) && run.pc.Claimed?
    ensures MoveOk(t, log, slot, run, OpenRow)
  {
    var t' := OpenAttempt(t, run.key, slot);
    assert run.key !in t.commands;
    assert forall l, s :: Open(t', l, s) <==> Open(t, l, s) || (l == run.key && s == slot);
  }

  lemma CloseOk(t: Tables, log: Log, slot: Slot, run: Run, m: Move)
    requires Core(t, log) && RunOk(t, log, slot, run)
    requires CanMove(run.pc, m) && (m.NoProvider? || m.Answer?)
    ensures MoveOk(t, log, slot, run, m)
  {
    var k := run.key;
    var t' := MoveTo(t, log, slot, run, m).0;
    assert Open(t, k, slot) && k !in t.commands;
    assert forall l, s :: Open(t', l, s) <==> Open(t, l, s) && l != k;
    forall l ensures !Open(t', l, slot) {
    }
  }

  lemma BuildOk(t: Tables, log: Log, slot: Slot, run: Run, bytes: string)
    requires Core(t, log) && RunOk(t, log, slot, run) && run.pc.Closed?
    ensures MoveOk(t, log, slot, run, Build(bytes))
  {
  }

  lemma TooLargeOk(t: Tables, log: Log, slot: Slot, run: Run)
    requires Core(t, log) && RunOk(t, log, slot, run) && run.pc.Built?
    ensures MoveOk(t, log, slot, run, TooLarge)
  {
  }

  lemma GreatestIs(ns: set<nat>, n: nat)
    requires n in ns && forall m :: m in ns ==> m <= n
    ensures Greatest(ns) == n
  {
  }

  function Insert(t: Tables, k: ClaimKey, slot: Slot, n: nat, bytes: string): Tables {
    t.(commands := t.commands[k := Command(slot, n, bytes, Pending)])
  }

  lemma InsertSequences(t: Tables, k: ClaimKey, slot: Slot, n: nat, bytes: string)
    requires k !in t.commands
    ensures Sequences(Insert(t, k, slot, n, bytes).commands, slot) == Sequences(t.commands, slot) + {n}
  {
    var t' := Insert(t, k, slot, n, bytes);
    assert t'.commands[k].slot == slot && t'.commands[k].sequence == n;
    forall m | m in Sequences(t.commands, slot) ensures m in Sequences(t'.commands, slot) {
      var l :| l in t.commands && t.commands[l].slot == slot && t.commands[l].sequence == m;
      assert t'.commands[l] == t.commands[l];
    }
  }

  /** A new row whose number is its NPC's next one. */
  ghost predicate Follows(t: Tables, t': Tables, slot: Slot) {
    && Greatest(Sequences(t'.commands, slot)) == NextSequence(t.commands, slot)
    && forall other :: other != slot ==> Sequences(t'.commands, other) == Sequences(t.commands, other)
  }

  lemma InsertFollows(t: Tables, k: ClaimKey, slot: Slot, bytes: string)
    requires k !in t.commands
    ensures Follows(t, Insert(t, k, slot, NextSequence(t.commands, slot), bytes), slot)
    ensures NextSequence(t.commands, slot) !in Sequences(t.commands, slot)
  {
    var n := NextSequence(t.commands, slot);
    var t' := Insert(t, k, slot, n, bytes);
    InsertSequences(t, k, slot, n, bytes);
    GreatestIs(Sequences(t'.commands, slot), n);
    forall other | other != slot ensures Sequences(t'.commands, other) == Sequences(t.commands, other) {
      SequencesElsewhere(t, k, slot, n, bytes, other);
    }
  }

  /** It extends that NPC's numbering and no other's. */
  lemma InsertNumbers(t: Tables, k: ClaimKey, slot: Slot, bytes: string)
    requires Numbered(t) && k !in t.commands
    ensures Numbered(Insert(t, k, slot, NextSequence(t.commands, slot), bytes))
  {
    var n := NextSequence(t.commands, slot);
    var t' := Insert(t, k, slot, n, bytes);
    InsertFollows(t, k, slot, bytes);
    InsertSequences(t, k, slot, n, bytes);
    assert UpTo(n) == UpTo(n - 1) + {n};
    forall l | l in t.commands && t.commands[l].slot == slot ensures t.commands[l].sequence != n {
      assert t.commands[l].sequence in Sequences(t.commands, slot);
    }
  }

  lemma SequencesElsewhere(t: Tables, k: ClaimKey, slot: Slot, n: nat, bytes: string, other: Slot)
    requires k !in t.commands && other != slot
    ensures Sequences(Insert(t, k, slot, n, bytes).commands, other) == Sequences(t.commands, other)
  {
    var t' := Insert(t, k, slot, n, bytes);
    assert forall l :: l in t'.commands && t'.commands[l].slot == other <==> l in t.commands && t.commands[l].slot == other;
    forall m | m in Sequences(t.commands, other) ensures m in Sequences(t'.commands, other) {
      var l :| l in t.commands && t.commands[l].slot == other && t.commands[l].sequence == m;
      assert t'.commands[l].sequence == m;
    }
  }

  lemma InsertOpens(t: Tables, t': Tables, k: ClaimKey, slot: Slot, n: nat, bytes: string)
    requires PendingIsNewest(t) && OneOpenRow(t) && Quiet(t, slot)
    requires k !in t.commands && !IsAttempted(t, k)
    requires t' == Insert(t, k, slot, n, bytes) && n == NextSequence(t.commands, slot) && Follows(t, t', slot)
    ensures OneOpenRow(t') && PendingIsNewest(t')
  {
    assert forall l, s :: Open(t', l, s) <==> Open(t, l, s) || (l == k && s == slot);
    forall l | IsPending(t', l) ensures t'.commands[l].sequence == Greatest(Sequences(t'.commands, t'.commands[l].slot)) {
      if l != k {
        assert Open(t, l, t.commands[l].slot);
      }
    }
  }

  lemma InsertCore(t: Tables, log: Log, k: ClaimKey, slot: Slot, n: nat, bytes: string)
    requires Core(t, log) && Quiet(t, slot) && Answered(t, log, slot, k) && n == NextSequence(t.commands, slot)
    ensures Core(Insert(t, k, slot, n, bytes), log.(stores := log.stores + [k]))
  {
    var t' := Insert(t, k, slot, n, bytes);
    InsertFollows(t, k, slot, bytes);
    InsertNumbers(t, k, slot, bytes);
    InsertOpens(t, t', k, slot, n, bytes);
    assert forall sent :: SendOfRow(t, sent) ==> SendOfRow(t', sent);
  }

  lemma InsertConfined(t: Tables, t': Tables, log: Log, k: ClaimKey, slot: Slot, n: nat, bytes: string)
    requires k !in t.commands && t' == Insert(t, k, slot, n, bytes) && Follows(t, t', slot)
    ensures Confined(t, log, t', log.(stores := log.stores + [k]), slot, k)
  {
    assert forall l, s :: Open(t', l, s) <==> Open(t, l, s) || (l == k && s == slot);
  }

  lemma StoreOk(t: Tables, log: Log, slot: Slot, run: Run)
    requires Core(t, log) && RunOk(t, log, slot, run) && run.pc.Built?
    ensures MoveOk(t, log, slot, run, Store)
  {
    var k, n, bytes := run.key, run.pc.sequence, run.pc.bytes;
    InsertCore(t, log, k, slot, n, bytes);
    InsertFollows(t, k, slot, bytes);
    InsertConfined(t, Insert(t, k, slot, n, bytes), log, k, slot, n, bytes);
    assert n !in Sequences(t.commands, slot);
    assert MoveTo(t, log, slot, run, Store)
        == (Insert(t, k, slot, n, bytes), log.(stores := log.stores + [k]), Delivering);
  }

  /** A pending command sent last is still in order: no earlier row of its NPC has a greater number. */
  lemma SendKeepsCore(t: Tables, log: Log, k: ClaimKey, lands: bool)
    requires Core(t, log) && IsPending(t, k)
    ensures var c := t.commands[k];
            Core(t, log.(sends := log.sends + [Send(k, c.slot, c.sequence, c.bytes, lands)]))
  {
    var c := t.commands[k];
    forall i | 0 <= i < |log.sends| && log.sends[i].slot == c.slot ensures log.sends[i].sequence <= c.sequence {
      var sent := log.sends[i];
      assert SendOfRow(t, sent);
      assert t.commands[sent.key].sequence in Sequences(t.commands, c.slot);
    }
    hide OneOpenRow, Linked, Numbered, PendingIsNewest, Sequences;
  }

  lemma SendOk(t: Tables, log: Log, slot: Slot, run: Run, lands: bool)
    requires run.pc.Delivering? && Core(t, log) && RunOk(t, log, slot, run)
    ensures MoveOk(t, log, slot, run, TrySend(lands))
  {
    DeliversPending(t, log, slot, run);
    SendKeepsCore(t, log, run.key, lands);
    SendIs(t, log, slot, run, lands);
    var c := t.commands[run.key];
    StillDelivers(t, log.(sends := log.sends + [Send(run.key, slot, c.sequence, c.bytes, lands)]), slot, run, lands);
    hide Core, RunOk, MoveTo, CanMove, Open, Sequences, IsPending;
  }

  lemma DeliversPending(t: Tables, log: Log, slot: Slot, run: Run)
    requires RunOk(t, log, slot, run) && (run.pc.Delivering? || run.pc.Sent?)
    ensures IsPending(t, run.key) && t.commands[run.key].slot == slot
  {
  }

  lemma SendIs(t: Tables, log: Log, slot: Slot, run: Run, lands: bool)
    requires run.pc.Delivering? && run.key in t.commands
    ensures var c := t.commands[run.key];
            MoveTo(t, log, slot, run, TrySend(lands)) ==
              (t, log.(sends := log.sends + [Send(run.key, slot, c.sequence, c.bytes, lands)]), if lands then Sent else Delivering)
  {
  }

  lemma StillDelivers(t: Tables, log: Log, slot: Slot, run: Run, lands: bool)
    requires IsPending(t, run.key) && t.commands[run.key].slot == slot
    ensures RunOk(t, log, slot, Run(run.key, if lands then Sent else Delivering))
  {
  }

  /** Settling a pending command closes that row and changes nothing else. */
  lemma MarkOpens(t: Tables, k: ClaimKey, status: Status)
    requires IsPending(t, k) && !IsAttempted(t, k) && status != Pending
    ensures forall l, s :: Open(Mark(t, k, status), l, s) <==> Open(t, l, s) && l != k
    ensures forall s :: Sequences(Mark(t, k, status).commands, s) == Sequences(t.commands, s)
  {
    forall s ensures Sequences(Mark(t, k, status).commands, s) == Sequences(t.commands, s) {
      MarkSequences(t, k, status, s);
    }
  }

  lemma MarkNumbers(t: Tables, k: ClaimKey, status: Status)
    requires Numbered(t) && PendingIsNewest(t) && IsPending(t, k) && !IsAttempted(t, k) && status != Pending
    ensures Numbered(Mark(t, k, status)) && PendingIsNewest(Mark(t, k, status))
  {
    MarkOpens(t, k, status);
    var t' := Mark(t, k, status);
    forall l | IsPending(t', l) ensures t'.commands[l].sequence == Greatest(Sequences(t'.commands, t'.commands[l].slot)) {
      assert IsPending(t, l) && t'.commands[l] == t.commands[l];
    }
  }

  lemma MarkSends(t: Tables, log: Log, k: ClaimKey, status: Status)
    requires SendsOrdered(t, log)
    ensures SendsOrdered(Mark(t, k, status), log)
  {
    var t' := Mark(t, k, status);
    forall i | 0 <= i < |log.sends| ensures SendOfRow(t', log.sends[i]) {
      assert SendOfRow(t, log.sends[i]);
    }
  }

  lemma MarkCore(t: Tables, log: Log, k: ClaimKey, status: Status)
    requires Core(t, log) && IsPending(t, k) && status != Pending
    ensures Core(Mark(t, k, status), log)
  {
    MarkNumbers(t, k, status);
    MarkSends(t, log, k, status);
    var t' := Mark(t, k, status);
    assert OneOpenRow(t') by {
      MarkOpens(t, k, status);
    }
    assert Linked(t') && OncePerKey(t', log);
  }

  lemma MarkConfined(t: Tables, log: Log, k: ClaimKey, status: Status)
    requires IsPending(t, k) && !IsAttempted(t, k) && status != Pending
    ensures Confined(t, log, Mark(t, k, status), log, t.commands[k].slot, k)
  {
    MarkOpens(t, k, status);
    assert forall other :: Open(t, k, other) ==> other == t.commands[k].slot;
    hide Open;
  }

  lemma MarkQuiets(t: Tables, k: ClaimKey, status: Status)
    requires OneOpenRow(t) && IsPending(t, k) && !IsAttempted(t, k) && status != Pending
    ensures Quiet(Mark(t, k, status), t.commands[k].slot)
  {
    MarkOpens(t, k, status);
    assert Open(t, k, t.commands[k].slot);
    hide Open;
  }

  lemma MarkOk(t: Tables, log: Log, slot: Slot, run: Run, m: Move)
    requires Core(t, log) && RunOk(t, log, slot, run)
    requires CanMove(run.pc, m) && (m.MarkPublished? || m.Expire?)
    ensures MoveOk(t, log, slot, run, m)
  {
    var k, status := run.key, if m.Expire? then Expired else Published;
    DeliversPending(t, log, slot, run);
    MarkIs(t, log, slot, run, m);
    PendingAlone(t, log, k);
    hide Core, RunOk, Confined, MoveTo, CanMove, Mark, OneOpenRow, Quiet;
    MarkCore(t, log, k, status);
    MarkConfined(t, log, k, status);
    MarkQuiets(t, k, status);
    EndsQuiet(Mark(t, k, status), log, slot, k);
  }

  lemma MarkIs(t: Tables, log: Log, slot: Slot, run: Run, m: Move)
    requires CanMove(run.pc, m) && (m.MarkPublished? || m.Expire?)
    ensures MoveTo(t, log, slot, run, m) == (Mark(t, run.key, if m.Expire? then Expired else Published), log, Ending)
  {
  }

  lemma EndsQuiet(t: Tables, log: Log, slot: Slot, k: ClaimKey)
    requires Quiet(t, slot)
    ensures RunOk(t, log, slot, Run(k, Ending))
  {
  }

  lemma PendingAlone(t: Tables, log: Log, k: ClaimKey)
    requires Core(t, log) && IsPending(t, k)
    ensures OneOpenRow(t) && !IsAttempted(t, k)
  {
  }

  lemma MarkSequences(t: Tables, k: ClaimKey, status: Status, slot: Slot)
    ensures Sequences(Mark(t, k, status).commands, slot) == Sequences(t.commands, slot)
  {
    var t' := Mark(t, k, status);
    assert t'.commands.Keys == t.commands.Keys;
    forall m | m in Sequences(t.commands, slot) ensures m in Sequences(t'.commands, slot) {
      var l :| l in t.commands && t.commands[l].slot == slot && t.commands[l].sequence == m;
      assert t'.commands[l].slot == slot && t'.commands[l].sequence == m;
    }
    forall m | m in Sequences(t'.commands, slot) ensures m in Sequences(t.commands, slot) {
      var l :| l in t'.commands && t'.commands[l].slot == slot && t'.commands[l].sequence == m;
      assert t.commands[l].slot == slot && t.commands[l].sequence == m;
    }
  }

  lemma MovesOk(t: Tables, log: Log, slot: Slot, run: Run, m: Move)
    requires Core(t, log) && RunOk(t, log, slot, run) && CanMove(run.pc, m)
    ensures MoveOk(t, log, slot, run, m)
  {
    match m
    case Abandon =>
    case Proceed =>
    case TakeClaim => ClaimOk(t, log, slot, run);
    case OpenRow => OpenRowOk(t, log, slot, run);
    case NoProvider => CloseOk(t, log, slot, run, m);
    case Call => CallOk(t, log, slot, run);
    case Answer(_) => CloseOk(t, log, slot, run, m);
    case Build(bytes) => BuildOk(t, log, slot, run, bytes);
    case TooLarge => TooLargeOk(t, log, slot, run);
    case Store => StoreOk(t, log, slot, run);
    case TrySend(lands) => SendOk(t, log, slot, run, lands);
    case MarkPublished => MarkOk(t, log, slot, run, m);
    case Expire => MarkOk(t, log, slot, run, m);
  }

  // ---- every action keeps it ------------------------------------------------------

  lemma AdvanceRuns(s: State, limits: Q.Limits, slot: Slot, m: Move)
    requires Inv(s, limits) && Enabled(s, limits, Advance(slot, m))
    ensures var s' := Apply(s, limits, Advance(slot, m));
      Core(s'.tables, s'.log) && RunsOk(s')
  {
    var s' := Apply(s, limits, Advance(slot, m));
    MovesOk(s.tables, s.log, slot, s.runs[slot], m);
    forall other | other in s'.runs ensures RunOk(s'.tables, s'.log, other, s'.runs[other]) {
      if other != slot {
        OthersKeep(s.tables, s.log, s'.tables, s'.log, slot, s.runs[slot].key, other, s.runs[other]);
      }
    }
  }

  lemma AdvanceServing(s: State, limits: Q.Limits, slot: Slot, m: Move)
    requires Core(s.tables, s.log) && RunsOk(s) && Covered(s)
    requires Enabled(s, limits, Advance(slot, m))
    ensures Covered(Apply(s, limits, Advance(slot, m)))
  {
    var s' := Apply(s, limits, Advance(slot, m));
    MovesOk(s.tables, s.log, slot, s.runs[slot], m);
    forall k, other | Open(s'.tables, k, other) ensures other in s'.runs && s'.runs[other].key == k {
      if other == slot {
        OpenAtSlot(s'.tables, s'.log, slot, s'.runs[slot], k);
      } else {
        assert Open(s.tables, k, other);
      }
    }
  }

  /** In recovery nothing is opened: a move can only store or settle the row in hand. */
  lemma AdvanceRecovering(s: State, limits: Q.Limits, slot: Slot, m: Move)
    requires Enabled(s, limits, Advance(slot, m)) && AfterClose(s.runs[slot].pc) && !m.Abandon?
    ensures var s' := Apply(s, limits, Advance(slot, m));
      && AfterClose(s'.runs[slot].pc)
      && (AfterStore(s.runs[slot].pc) ==> AfterStore(s'.runs[slot].pc))
      && (forall k :: IsAttempted(s'.tables, k) <==> IsAttempted(s.tables, k))
      && (AfterStore(s.runs[slot].pc) ==>
            forall k :: k != s.runs[slot].key ==> (IsPending(s'.tables, k) <==> IsPending(s.tables, k)))
      && (AfterStore(s.runs[slot].pc) && s'.runs[slot].pc.Ending? ==> !IsPending(s'.tables, s.runs[slot].key))
  {
  }

  lemma AdvanceMode(s: State, limits: Q.Limits, slot: Slot, m: Move)
    requires Inv(s, limits) && Enabled(s, limits, Advance(slot, m))
    ensures ModeOk(Apply(s, limits, Advance(slot, m)), limits)
  {
    var s' := Apply(s, limits, Advance(slot, m));
    assert s'.runs.Keys == s.runs.Keys;
    if s.mode.Serving? {
      AdvanceServing(s, limits, slot, m);
    } else {
      AdvanceRecovering(s, limits, slot, m);
    }
  }

  /** At the slot of running work, only that work can have an open row. */
  lemma OpenAtSlot(t: Tables, log: Log, slot: Slot, run: Run, k: ClaimKey)
    requires OneOpenRow(t) && RunOk(t, log, slot, run) && Open(t, k, slot)
    ensures run.key == k
  {
    assert run.pc.Opened? || run.pc.Calling? || run.pc.Delivering? || run.pc.Sent?;
    assert Open(t, run.key, slot);
  }

  lemma QueueActionsOk(s: State, limits: Q.Limits, a: Action)
    requires Inv(s, limits) && Enabled(s, limits, a) && (a.Submit? || a.Cancel?)
    ensures Inv(Apply(s, limits, a), limits)
  {
    if a.Submit? {
      Q.EnqueueValid(s.queue, limits, a.work);
    } else {
      Q.EvictValid(s.queue, limits, a.doomed);
    }
    var s' := Apply(s, limits, a);
    assert s'.queue.inFlight == s.queue.inFlight;
  }

  lemma DispatchOk(s: State, limits: Q.Limits)
    requires Inv(s, limits) && Enabled(s, limits, Dispatch)
    ensures Inv(Apply(s, limits, Dispatch), limits)
  {
    var (q, work) := Q.ClaimNext(s.queue, limits);
    var g := work.value;
    var s' := s.(queue := q, runs := s.runs[g.Slot() := Run(g.claimKey, Checking)]);
    Q.ClaimNextValid(s.queue, limits);
    ClaimTakesSlot(s.queue, limits);
    DispatchedKeys(s.queue, q, limits, g);
    QuietElsewhere(s, g.Slot());
    DispatchedAgrees(s, limits, q, g);
    assert Apply(s, limits, Dispatch) == s';
    hide Core, Q.Valid, Q.ClaimNext, Open, Quiet, Covered, RunsOk, Enabled, Apply;
    DispatchedRuns(s, q, g);
  }

  lemma QuietElsewhere(s: State, slot: Slot)
    requires Covered(s) && slot !in s.runs
    ensures Quiet(s.tables, slot)
  {
    hide Open;
  }

  lemma DispatchedAgrees(s: State, limits: Q.Limits, q: Q.Queue, g: Generation)
    requires QueueAgrees(s, limits) && Covered(s) && Q.Valid(q, limits)
    requires g.Slot() !in s.queue.inFlight && q.inFlight == s.queue.inFlight[g.Slot() := g]
    ensures var s' := s.(queue := q, runs := s.runs[g.Slot() := Run(g.claimKey, Checking)]);
            QueueAgrees(s', limits) && Covered(s')
  {
    hide Q.Valid, Open;
  }

  lemma ClaimTakesSlot(q: Q.Queue, limits: Q.Limits)
    requires Q.Valid(q, limits) && Q.ClaimNext(q, limits).1.Some?
    ensures var (r, g) := Q.ClaimNext(q, limits);
            g.value.Slot() !in q.inFlight && r.inFlight == q.inFlight[g.value.Slot() := g.value]
  {
    Q.ClaimsLeast(q, limits);
    Q.StartableMembers(q, limits);
    hide Q.Valid;
  }

  lemma DispatchedRuns(s: State, q: Q.Queue, g: Generation)
    requires RunsOk(s) && Quiet(s.tables, g.Slot()) && g.Slot() !in s.runs
    requires forall slot :: slot in s.runs ==> s.runs[slot].key != g.claimKey
    ensures RunsOk(s.(queue := q, runs := s.runs[g.Slot() := Run(g.claimKey, Checking)]))
  {
    hide Quiet;
  }

  /** Starting work adds one in-flight entry whose key no other in-flight entry has. */
  lemma DispatchedKeys(q: Q.Queue, q': Q.Queue, limits: Q.Limits, g: Generation)
    requires Q.Valid(q', limits) && q'.inFlight == q.inFlight[g.Slot() := g] && g.Slot() !in q.inFlight
    ensures forall s :: s in q.inFlight ==> q.inFlight[s].claimKey != g.claimKey
  {
    forall s | s in q.inFlight ensures q.inFlight[s].claimKey != g.claimKey {
      assert q'.inFlight[s] == q.inFlight[s] && q'.inFlight[g.Slot()] == g;
    }
  }

  lemma FinishOk(s: State, limits: Q.Limits, slot: Slot)
    requires Inv(s, limits) && Enabled(s, limits, Finish(slot))
    ensures Inv(Apply(s, limits, Finish(slot)), limits)
  {
    var s' := Apply(s, limits, Finish(slot));
    assert forall other :: other in s'.runs <==> other in s.runs && other != slot;
    assert Quiet(s.tables, slot);
    if s.mode.Serving? {
      Q.ReleaseValid(s.queue, limits, s.queue.inFlight[slot]);
      assert s.queue.inFlight[slot].Slot() == slot;
    }
  }

  lemma CrashOk(s: State, limits: Q.Limits)
    requires Inv(s, limits)
    ensures Inv(Apply(s, limits, Crash), limits)
  {
  }

  /** Closing the recovered row first makes room for the command that answers it. */
  lemma AnswerNextOk(s: State, limits: Q.Limits)
    requires Inv(s, limits) && Enabled(s, limits, AnswerNext)
    ensures Inv(Apply(s, limits, AnswerNext), limits)
  {
    var k := s.mode.todo[0];
    var slot := s.tables.attempts[k].slot;
    assert k in s.mode.todo;
    assert k !in s.log.stores;
    var s' := Apply(s, limits, AnswerNext);
    CloseOk(s.tables, s.log, slot, Run(k, Calling), Answer(false));
    assert s'.tables == MoveTo(s.tables, s.log, slot, Run(k, Calling), Answer(false)).0;
    assert s.mode.todo == [k] + s'.mode.todo;
    assert forall l :: l in s'.mode.todo <==> l in s.mode.todo && l != k;
    assert forall l :: IsAttempted(s'.tables, l) <==> IsAttempted(s.tables, l) && l != k;
  }

  lemma RepublishNextOk(s: State, limits: Q.Limits)
    requires Inv(s, limits) && Enabled(s, limits, RepublishNext)
    ensures Inv(Apply(s, limits, RepublishNext), limits)
  {
    var k := s.mode.todo[0];
    var s' := Apply(s, limits, RepublishNext);
    assert k in s.mode.todo;
    assert s.mode.todo == [k] + s'.mode.todo;
    assert k !in s'.mode.todo;
    assert s'.runs[s.tables.commands[k].slot] == Run(k, Delivering);
    StillDelivers(s.tables, s.log, s.tables.commands[k].slot, Run(k, Delivering), false);
    hide Core, RunOk, Quiet, IsAttempted;
  }

  /** What recovery leaves when it finishes: no unanswered attempt and no undelivered command. */
  lemma RecoveryCompletes(s: State, limits: Q.Limits)
    requires Inv(s, limits) && Enabled(s, limits, OpenIntake)
    ensures NothingUnfinished(s.tables)
    ensures Inv(Apply(s, limits, OpenIntake), limits)
  {
    Q.EmptyBalanced(limits);
    assert forall k, slot :: !Open(s.tables, k, slot);
  }

  lemma ActionOk(s: State, limits: Q.Limits, a: Action)
    requires Inv(s, limits) && Enabled(s, limits, a)
    ensures Inv(Apply(s, limits, a), limits)
  {
    match a
    case Submit(_) => QueueActionsOk(s, limits, a);
    case Cancel(_) => QueueActionsOk(s, limits, a);
    case Dispatch => DispatchOk(s, limits);
    case Advance(slot, m) => AdvanceRuns(s, limits, slot, m); AdvanceMode(s, limits, slot, m);
    case Finish(slot) => FinishOk(s, limits, slot);
    case Crash => CrashOk(s, limits);
    case ReadAttempts(_) =>
    case AnswerNext => AnswerNextOk(s, limits);
    case ReadCommands(_) =>
    case RepublishNext => RepublishNextOk(s, limits);
    case OpenIntake => RecoveryCompletes(s, limits);
  }

  // ---- whole executions -----------------------------------------------------------

  lemma InitOk(s: State, limits: Q.Limits)
    requires Init(s)
    ensures Inv(s, limits)
  {
    forall slot ensures Sequences(s.tables.commands, slot) == UpTo(Greatest(Sequences(s.tables.commands, slot))) {
      assert Sequences(s.tables.commands, slot) == {};
    }
  }

  lemma {:induction false} Always(states: seq<State>, limits: Q.Limits, i: nat)
    requires Execution(states, limits) && i < |states|
    ensures Inv(states[i], limits)
  {
    if i == 0 {
      InitOk(states[0], limits);
    } else {
      Always(states, limits, i - 1);
      assert Step(states[i - 1], limits, states[i - 1 + 1]);
      var a :| Enabled(states[i - 1], limits, a) && states[i] == Apply(states[i - 1], limits, a);
      ActionOk(states[i - 1], limits, a);
    }
  }

  /** The stored sequences of one NPC are exactly 1..n for some n. */
  ghost predicate Contiguous(t: Tables, slot: Slot) {
    exists n: nat :: Sequences(t.commands, slot) == UpTo(n)
  }

  ghost predicate NothingUnfinished(t: Tables) {
    (forall k :: !IsAttempted(t, k)) && (forall k :: !IsPending(t, k))
  }

  /** The guarantees at every moment of every execution, however often it crashed. */
  lemma Guarantees(states: seq<State>, limits: Q.Limits, i: nat)
    requires Execution(states, limits) && i < |states|
    ensures var t, log := states[i].tables, states[i].log;
      // one unfinished row per NPC
      && (forall k, l, slot :: Open(t, k, slot) && Open(t, l, slot) ==> k == l)
      && (forall k :: !(IsAttempted(t, k) && IsPending(t, k)))
      // commands numbered exactly 1..n per NPC, and the uniqueness constraints never fired
      && (forall slot :: Contiguous(t, slot))
      && (forall k, l :: k in t.commands && l in t.commands && k != l && t.commands[k].slot == t.commands[l].slot
            ==> t.commands[k].sequence != t.commands[l].sequence)
      && log.clashes == 0
      // the provider is called, and a store attempted, at most once per claim key
      && NoDuplicates(log.calls) && NoDuplicates(log.stores)
      // publication never goes back, and every attempt carries the stored bytes
      && (forall a, b :: 0 <= a < b < |log.sends| && log.sends[a].slot == log.sends[b].slot ==>
            log.sends[a].sequence <= log.sends[b].sequence)
      && (forall a, b :: 0 <= a < b < |log.sends| && log.sends[a].key == log.sends[b].key ==>
            log.sends[a] == log.sends[b].(landed := log.sends[a].landed))
  {
    Always(states, limits, i);
    var t, log := states[i].tables, states[i].log;
    forall slot ensures Contiguous(t, slot) {
      assert Sequences(t.commands, slot) == UpTo(Greatest(Sequences(t.commands, slot)));
    }
    forall a, b | 0 <= a < b < |log.sends| && log.sends[a].key == log.sends[b].key
      ensures log.sends[a] == log.sends[b].(landed := log.sends[a].landed)
    {
      assert SendOfRow(t, log.sends[a]) && SendOfRow(t, log.sends[b]);
    }
  }

  lemma RecoveringCalls(s: State, limits: Q.Limits, a: Action)
    requires ModeOk(s, limits) && !s.mode.Serving? && Enabled(s, limits, a)
    ensures Apply(s, limits, a).log.calls == s.log.calls
  {
    if a.Advance? {
      assert AfterClose(s.runs[a.slot].pc);
    }
  }

  /** Recovery never calls a provider: only work that intake queued does. */
  lemma RecoveryCallsNobody(states: seq<State>, limits: Q.Limits, i: nat)
    requires Execution(states, limits) && i < |states| - 1 && !states[i].mode.Serving?
    ensures states[i + 1].log.calls == states[i].log.calls
  {
    Always(states, limits, i);
    assert Step(states[i], limits, states[i + 1]);
    var a :| Enabled(states[i], limits, a) && states[i + 1] == Apply(states[i], limits, a);
    RecoveringCalls(states[i], limits, a);
  }

  /** Intake never opens on unfinished business of an earlier process. */
  lemma IntakeOpensClean(states: seq<State>, limits: Q.Limits, i: nat)
    requires Execution(states, limits) && i < |states| - 1
    requires !states[i].mode.Serving? && states[i + 1].mode.Serving?
    ensures NothingUnfinished(states[i + 1].tables)
  {
    Always(states, limits, i);
    assert Step(states[i], limits, states[i + 1]);
    var a :| Enabled(states[i], limits, a) && states[i + 1] == Apply(states[i], limits, a);
    RecoveryCompletes(states[i], limits);
  }
}
