/** What one moment of an execution owes to every earlier one, and that a restart always succeeds. */
module PipelineHistory {
  import opened GenerationWork
  import opened PipelineRuns
  import P = Pipeline
  import Q = QueueSpec

  // ---- nothing durable is forgotten ------------------------------------------------------

  predicate SameCommand(c: P.Command, d: P.Command) {
    d.slot == c.slot && d.sequence == c.sequence && d.bytes == c.bytes && (c.status != P.Pending ==> d.status == c.status)
  }

  predicate SameAttempt(a: P.Attempt, b: P.Attempt) {
    b.slot == a.slot && (a.outcome != P.Attempted ==> b.outcome == a.outcome)
  }

  /** Whatever the outside world saw it has still seen; claims and rows stay; a closed attempt keeps
      its outcome, a command its NPC, number and bytes, and a settled one its status. */
  ghost predicate Remembered(t: P.Tables, log: P.Log, t': P.Tables, log': P.Log) {
    && log.calls <= log'.calls && log.stores <= log'.stores && log.sends <= log'.sends
    && t.claims <= t'.claims
    && (forall k :: k in t.attempts ==> k in t'.attempts && SameAttempt(t.attempts[k], t'.attempts[k]))
    && (forall k :: k in t.commands ==> k in t'.commands && SameCommand(t.commands[k], t'.commands[k]))
  }

  lemma RememberedOn(t: P.Tables, log: P.Log, t': P.Tables, log': P.Log, t'': P.Tables, log'': P.Log)
    requires Remembered(t, log, t', log') && Remembered(t', log', t'', log'')
    ensures Remembered(t, log, t'', log'')
  {
  }

  lemma MoveRemembers(t: P.Tables, log: P.Log, slot: Slot, run: P.Run, m: P.Move)
    requires P.RunOk(t, log, slot, run) && P.CanMove(run.pc, m)
    ensures var (t', log', _) := P.MoveTo(t, log, slot, run, m); Remembered(t, log, t', log')
  {
    hide P.Quiet, P.Answered, P.NextSequence, P.Sequences;
  }

  lemma AnswerRemembers(t: P.Tables, log: P.Log, k: ClaimKey)
    requires P.IsAttempted(t, k)
    ensures Remembered(t, log, P.Close(t, k, P.Failed), log)
  {
  }

  lemma NothingNew(t: P.Tables, log: P.Log)
    ensures Remembered(t, log, t, log)
  {
  }

  lemma NextIsAttempted(s: P.State, limits: Q.Limits)
    requires P.ModeOk(s, limits) && s.mode.Answering? && s.mode.todo != []
    ensures P.IsAttempted(s.tables, s.mode.todo[0])
  {
    assert s.mode.todo[0] in s.mode.todo;
  }

  lemma ActionRemembers(s: P.State, limits: Q.Limits, a: P.Action)
    requires P.Inv(s, limits) && P.Enabled(s, limits, a)
    ensures var s' := P.Apply(s, limits, a); Remembered(s.tables, s.log, s'.tables, s'.log)
  {
    if a.Advance? {
      assert P.RunOk(s.tables, s.log, a.slot, s.runs[a.slot]);
      MoveRemembers(s.tables, s.log, a.slot, s.runs[a.slot], a.move);
    } else if a.AnswerNext? {
      NextIsAttempted(s, limits);
      AnswerRemembers(s.tables, s.log, s.mode.todo[0]);
    } else {
      NothingNew(s.tables, s.log);
    }
    hide P.Core, P.ModeOk, P.RunsOk, P.RunOk, P.MoveTo, P.Close, Remembered;
  }

  lemma StepRemembers(s: P.State, limits: Q.Limits, s': P.State)
    requires P.Inv(s, limits) && P.Step(s, limits, s')
    ensures Remembered(s.tables, s.log, s'.tables, s'.log)
  {
    hide P.Inv, P.Enabled, P.Apply, Remembered;
    var a :| P.Enabled(s, limits, a) && s' == P.Apply(s, limits, a);
    ActionRemembers(s, limits, a);
  }

  /** Between any two moments of an execution, however often the process died in between, nothing
      durable is lost, undone or rewritten, and no call is taken back or made again. */
  lemma {:induction false} NothingIsForgotten(states: seq<P.State>, limits: Q.Limits, i: nat, j: nat)
    requires P.Execution(states, limits) && i <= j < |states|
    ensures Remembered(states[i].tables, states[i].log, states[j].tables, states[j].log)
    decreases j - i
  {
    hide P.Inv, P.Step, P.Init, Remembered;
    if i < j {
      assert P.Step(states[j - 1], limits, states[j - 1 + 1]);
      NothingIsForgotten(states, limits, i, j - 1);
      P.Always(states, limits, j - 1);
      StepRemembers(states[j - 1], limits, states[j]);
      RememberedOn(
        states[i].tables, states[i].log, states[j - 1].tables, states[j - 1].log, states[j].tables, states[j].log);
    } else {
      NothingNew(states[i].tables, states[i].log);
    }
  }

  /** So what was called once is never called again, what was stored once is never stored again, and
      a claimed key stays claimed. */
  lemma OnceIsForEver(states: seq<P.State>, limits: Q.Limits, i: nat, j: nat, k: ClaimKey)
    requires P.Execution(states, limits) && i <= j < |states|
    ensures k in states[i].log.calls ==> Before(states[i].log.calls, states[j].log.calls, k)
    ensures k in states[i].log.stores ==> Before(states[i].log.stores, states[j].log.stores, k)
    ensures k in states[i].tables.claims ==> k in states[j].tables.claims
  {
    NothingIsForgotten(states, limits, i, j);
    P.Guarantees(states, limits, j);
    OnlyBefore(states[i].log.calls, states[j].log.calls, k);
    OnlyBefore(states[i].log.stores, states[j].log.stores, k);
  }

  /** The longer log does not hold `k` past the end of the shorter one. */
  ghost predicate Before(a: seq<ClaimKey>, b: seq<ClaimKey>, k: ClaimKey) {
    forall x :: |a| <= x < |b| ==> b[x] != k
  }

  lemma OnlyBefore(a: seq<ClaimKey>, b: seq<ClaimKey>, k: ClaimKey)
    requires a <= b && P.NoDuplicates(b)
    ensures k in a ==> Before(a, b, k)
  {
    if k in a {
      var x :| 0 <= x < |a| && a[x] == k;
      assert b[x] == k;
    }
  }

  /** Whenever work is about to store its command, no row has its identity, nor its number for its NPC:
      the database never refuses one. */
  lemma NoStoreClashes(states: seq<P.State>, limits: Q.Limits, i: nat, slot: Slot)
    requires P.Execution(states, limits) && i < |states|
    requires slot in states[i].runs && states[i].runs[slot].pc.Built?
    ensures var (run, commands) := (states[i].runs[slot], states[i].tables.commands);
      && run.key !in commands
      && forall k :: k in commands && commands[k].slot == slot ==> commands[k].sequence < run.pc.sequence
  {
    P.Always(states, limits, i);
    var (run, t, log) := (states[i].runs[slot], states[i].tables, states[i].log);
    assert P.RunOk(t, log, slot, run);
    forall k | k in t.commands && t.commands[k].slot == slot ensures t.commands[k].sequence < run.pc.sequence {
      assert t.commands[k].sequence in P.Sequences(t.commands, slot);
    }
  }

  // ---- what is recorded really happened --------------------------------------------------

  ghost predicate Landed(log: P.Log, k: ClaimKey) {
    exists i :: 0 <= i < |log.sends| && log.sends[i].key == k && log.sends[i].landed
  }

  /** A published command got through; an attempt that succeeded was a call to the provider. */
  ghost predicate Truthful(t: P.Tables, log: P.Log) {
    && (forall k :: k in t.commands && t.commands[k].status == P.Published ==> Landed(log, k))
    && (forall k :: k in t.attempts && t.attempts[k].outcome == P.Succeeded ==> k in log.calls)
  }

  ghost predicate RunTruthful(log: P.Log, run: P.Run) {
    (run.pc.Sent? ==> Landed(log, run.key)) && (run.pc.Calling? ==> run.key in log.calls)
  }

  lemma LandedStays(log: P.Log, log': P.Log)
    requires log.sends <= log'.sends
    ensures forall k :: Landed(log, k) ==> Landed(log', k)
  {
    forall k | Landed(log, k) ensures Landed(log', k) {
      var i :| 0 <= i < |log.sends| && log.sends[i].key == k && log.sends[i].landed;
      assert log'.sends[i] == log.sends[i];
    }
  }

  /** Only marking publishes, only an answer succeeds, only a send that lands is sent, only a call calls. */
  lemma MoveRecords(t: P.Tables, log: P.Log, slot: Slot, run: P.Run, m: P.Move)
    requires P.RunOk(t, log, slot, run) && P.CanMove(run.pc, m)
    ensures var (t', log', pc) := P.MoveTo(t, log, slot, run, m);
      && (forall k :: k in t'.commands && t'.commands[k].status == P.Published ==>
            (k in t.commands && t.commands[k].status == P.Published) || (k == run.key && run.pc.Sent?))
      && (forall k :: k in t'.attempts && t'.attempts[k].outcome == P.Succeeded ==>
            (k in t.attempts && t.attempts[k].outcome == P.Succeeded) || (k == run.key && run.pc.Calling?))
      && (pc.Sent? ==> log'.sends != [] && var last := log'.sends[|log'.sends| - 1]; last.key == run.key && last.landed)
      && (pc.Calling? ==> run.key in log'.calls)
  {
    hide P.Quiet;
  }

  lemma MoveTruthful(t: P.Tables, log: P.Log, slot: Slot, run: P.Run, m: P.Move)
    requires P.RunOk(t, log, slot, run) && P.CanMove(run.pc, m)
    requires Truthful(t, log) && RunTruthful(log, run)
    ensures var (t', log', pc) := P.MoveTo(t, log, slot, run, m);
            Truthful(t', log') && RunTruthful(log', P.Run(run.key, pc))
  {
    MoveGrows(t, log, slot, run, m);
    MoveRecords(t, log, slot, run, m);
    var (t', log', pc) := P.MoveTo(t, log, slot, run, m);
    hide P.MoveTo, P.RunOk, P.CanMove;
    LandedStays(log, log');
    LastLanded(log', run.key);
    hide Landed;
  }

  lemma MoveGrows(t: P.Tables, log: P.Log, slot: Slot, run: P.Run, m: P.Move)
    requires P.CanMove(run.pc, m)
    ensures var (_, log', _) := P.MoveTo(t, log, slot, run, m); log.sends <= log'.sends && log.calls <= log'.calls
  {
    hide P.NextSequence, P.Sequences, P.Clash;
  }

  lemma LastLanded(log: P.Log, k: ClaimKey)
    ensures log.sends != [] && log.sends[|log.sends| - 1].key == k && log.sends[|log.sends| - 1].landed ==> Landed(log, k)
  {
  }

  ghost predicate AllTruthful(s: P.State) {
    Truthful(s.tables, s.log) && forall slot :: slot in s.runs ==> RunTruthful(s.log, s.runs[slot])
  }

  lemma ActionTruthful(s: P.State, limits: Q.Limits, a: P.Action)
    requires P.Inv(s, limits) && P.Enabled(s, limits, a) && AllTruthful(s)
    ensures AllTruthful(P.Apply(s, limits, a))
  {
    if a.Advance? {
      assert P.RunOk(s.tables, s.log, a.slot, s.runs[a.slot]);
      MoveTruthful(s.tables, s.log, a.slot, s.runs[a.slot], a.move);
      MoveGrows(s.tables, s.log, a.slot, s.runs[a.slot], a.move);
      LandedStays(s.log, P.Apply(s, limits, a).log);
    }
    hide Landed, P.Core, P.MoveTo, P.RunOk, P.ModeOk, P.RunsOk;
  }

  /** At every moment of every execution. */
  lemma {:induction false} AlwaysTruthful(states: seq<P.State>, limits: Q.Limits, i: nat)
    requires P.Execution(states, limits) && i < |states|
    ensures AllTruthful(states[i])
  {
    if i > 0 {
      AlwaysTruthful(states, limits, i - 1);
      P.Always(states, limits, i - 1);
      assert P.Step(states[i - 1], limits, states[i - 1 + 1]);
      var a :| P.Enabled(states[i - 1], limits, a) && states[i] == P.Apply(states[i - 1], limits, a);
      ActionTruthful(states[i - 1], limits, a);
    }
  }

  // ---- a restart always reaches open intake ----------------------------------------------

  lemma Listing(s: set<ClaimKey>) returns (keys: seq<ClaimKey>)
    ensures P.NoDuplicates(keys) && forall k :: k in keys <==> k in s
  {
    if s == {} {
      keys := [];
    } else {
      var k :| k in s;
      var rest := Listing(s - {k});
      keys := [k] + rest;
    }
  }

  /** Any sound tables have a recovery: fail each open attempt, expire each pending command. */
  lemma {:induction false} AnswersExist(t: P.Tables, log: P.Log, found: seq<ClaimKey>)
    returns (tasks: seq<Task>, t': P.Tables, log': P.Log)
    requires P.Core(t, log) && P.NoDuplicates(found) && forall k :: k in found <==> P.IsAttempted(t, k)
    ensures Answers(t, log, tasks, t', log') && Keys(tasks) == found
    ensures P.Core(t', log') && forall k :: !P.IsAttempted(t', k)
    decreases |found|
  {
    if found == [] {
      tasks, t', log' := [], t, log;
    } else {
      var k := found[0];
      assert k in found;
      var task := FailsIt(t, log, k);
      assert found == [k] + found[1..];
      forall l ensures l in found[1..] <==> P.IsAttempted(task.tables, l) {
        assert l in found[1..] <==> l in found && l != k;
      }
      var rest;
      rest, t', log' := AnswersExist(task.tables, task.log, found[1..]);
      tasks := [task] + rest;
      hide P.Core, P.IsAttempted, Walks, Answers;
      KeysCons(task, rest);
      ConsAnswers(t, log, task, rest, t', log');
    }
  }

  lemma KeysCons(task: Task, rest: seq<Task>)
    ensures Keys([task] + rest) == [task.key] + Keys(rest)
  {
    assert forall i :: 0 < i <= |rest| ==> ([task] + rest)[i] == rest[i - 1];
  }

  ghost predicate FirstAnswer(t: P.Tables, log: P.Log, k: Task) {
    && k.key in t.attempts && t.attempts[k.key].slot == k.slot
    && k.moves != [] && k.moves[0] == P.Answer(false) && NoAbandon(k.moves)
    && Walks(Spot(t, log, P.Calling), k.slot, k.key, k.moves, Spot(k.tables, k.log, P.Ending))
  }

  lemma ConsAnswers(t: P.Tables, log: P.Log, task: Task, rest: seq<Task>, t': P.Tables, log': P.Log)
    requires FirstAnswer(t, log, task) && Answers(task.tables, task.log, rest, t', log')
    ensures Answers(t, log, [task] + rest, t', log')
  {
    hide Walks;
    assert ([task] + rest)[1..] == rest;
  }

  lemma FailsIt(t: P.Tables, log: P.Log, k: ClaimKey) returns (task: Task)
    requires P.Core(t, log) && P.IsAttempted(t, k)
    ensures task.key == k && FirstAnswer(t, log, task)
    ensures P.Core(task.tables, task.log)
    ensures forall l :: P.IsAttempted(task.tables, l) <==> P.IsAttempted(t, l) && l != k
  {
    var slot := t.attempts[k].slot;
    var a := Spot(t, log, P.Calling);
    var b := After(a, slot, k, P.Answer(false));
    var c := After(b, slot, k, P.Build(""));
    var d := After(c, slot, k, P.TooLarge);
    var moves := [P.Answer(false), P.Build(""), P.TooLarge];
    assert moves[1..] == [P.Build(""), P.TooLarge] && moves[1..][1..] == [P.TooLarge] && moves[1..][1..][1..] == [];
    assert Walks(a, slot, k, moves, d);
    WalkKeeps(a, slot, k, moves, d);
    task := Task(k, slot, moves, d.tables, d.log);
  }

  lemma {:induction false} DeliveriesExist(t: P.Tables, log: P.Log, found: seq<ClaimKey>)
    returns (tasks: seq<Task>, t': P.Tables, log': P.Log)
    requires P.Core(t, log) && P.NoDuplicates(found) && forall k :: k in found <==> P.IsPending(t, k)
    ensures Deliveries(t, log, tasks, t', log') && Keys(tasks) == found
    ensures P.Core(t', log') && t'.attempts == t.attempts && forall k :: !P.IsPending(t', k)
    decreases |found|
  {
    if found == [] {
      tasks, t', log' := [], t, log;
    } else {
      var k := found[0];
      assert k in found;
      var task := ExpiresIt(t, log, k);
      assert found == [k] + found[1..];
      forall l ensures l in found[1..] <==> P.IsPending(task.tables, l) {
        assert l in found[1..] <==> l in found && l != k;
      }
      var rest;
      rest, t', log' := DeliveriesExist(task.tables, task.log, found[1..]);
      tasks := [task] + rest;
      hide P.Core, P.IsPending, Walks, Deliveries;
      KeysCons(task, rest);
      ConsDeliveries(t, log, task, rest, t', log');
    }
  }

  ghost predicate FirstDelivery(t: P.Tables, log: P.Log, k: Task) {
    && k.key in t.commands && t.commands[k.key].slot == k.slot && NoAbandon(k.moves)
    && Walks(Spot(t, log, P.Delivering), k.slot, k.key, k.moves, Spot(k.tables, k.log, P.Ending))
  }

  lemma ConsDeliveries(t: P.Tables, log: P.Log, task: Task, rest: seq<Task>, t': P.Tables, log': P.Log)
    requires FirstDelivery(t, log, task) && Deliveries(task.tables, task.log, rest, t', log')
    ensures Deliveries(t, log, [task] + rest, t', log')
  {
    hide Walks;
    assert ([task] + rest)[1..] == rest;
  }

  lemma ExpiresIt(t: P.Tables, log: P.Log, k: ClaimKey) returns (task: Task)
    requires P.Core(t, log) && P.IsPending(t, k)
    ensures task.key == k && FirstDelivery(t, log, task)
    ensures P.Core(task.tables, task.log) && task.tables.attempts == t.attempts
    ensures forall l :: P.IsPending(task.tables, l) <==> P.IsPending(t, l) && l != k
  {
    var slot := t.commands[k].slot;
    var a := Spot(t, log, P.Delivering);
    WalkOne(a, slot, k, P.Expire);
    var b := After(a, slot, k, P.Expire);
    WalkKeeps(a, slot, k, [P.Expire], b);
    task := Task(k, slot, [P.Expire], b.tables, b.log);
  }

  lemma RecoveryExists(t: P.Tables, log: P.Log) returns (
      answers: seq<Task>, mid: P.Tables, midLog: P.Log, deliveries: seq<Task>, t': P.Tables, log': P.Log)
    requires P.Core(t, log)
    ensures Recovers(t, log, answers, mid, midLog, deliveries, t', log') && P.NothingUnfinished(t')
  {
    hide P.Core, Answers, Deliveries;
    var open := AttemptedKeys(t);
    answers, mid, midLog := AnswersExist(t, log, open);
    var pending := PendingKeys(mid);
    deliveries, t', log' := DeliveriesExist(mid, midLog, pending);
    NoneAttempted(mid, t');
    hide P.IsAttempted, P.IsPending;
  }

  lemma AttemptedKeys(t: P.Tables) returns (keys: seq<ClaimKey>)
    ensures P.NoDuplicates(keys) && forall k :: k in keys <==> P.IsAttempted(t, k)
  {
    keys := Listing(set k | k in t.attempts && P.IsAttempted(t, k));
  }

  lemma PendingKeys(t: P.Tables) returns (keys: seq<ClaimKey>)
    ensures P.NoDuplicates(keys) && forall k :: k in keys <==> P.IsPending(t, k)
  {
    keys := Listing(set k | k in t.commands && P.IsPending(t, k));
  }

  lemma NoneAttempted(t: P.Tables, t': P.Tables)
    requires t'.attempts == t.attempts
    ensures forall k :: P.IsAttempted(t', k) <==> P.IsAttempted(t, k)
  {
  }

  lemma CrashGoesDown(s: P.State, limits: Q.Limits)
    ensures P.Enabled(s, limits, P.Crash) && P.Apply(s, limits, P.Crash) == Between(s.tables, s.log, P.Starting)
  {
  }

  /** From every moment of every execution, a crash can be followed by a recovery that opens intake
      again with nothing unfinished, and that keeps everything durable. */
  lemma RestartReachesIntake(s: P.State, limits: Q.Limits)
    returns (actions: seq<P.Action>, t: P.Tables, log: P.Log)
    requires P.Inv(s, limits)
    ensures Chain(s, limits, [P.Crash] + actions, Between(t, log, P.Serving)) && OnlyRecovery(actions)
    ensures P.NothingUnfinished(t) && Remembered(s.tables, s.log, t, log)
  {
    CrashGoesDown(s, limits);
    assert P.Core(s.tables, s.log);
    hide P.Core, P.Enabled, P.Apply, P.Inv, Chain, Recovers, Remembered, P.NothingUnfinished, OnlyRecovery;
    var answers, mid, midLog, deliveries;
    answers, mid, midLog, deliveries, t, log := RecoveryExists(s.tables, s.log);
    actions := RecoveryIsChain(s.tables, s.log, answers, mid, midLog, deliveries, t, log, limits);
    var down, up := Between(s.tables, s.log, P.Starting), Between(t, log, P.Serving);
    ChainOne(s, limits, P.Crash);
    ChainOn(s, limits, [P.Crash], down, actions, up);
    ChainRemembers(s, limits, [P.Crash] + actions, up);
  }

  lemma {:induction false} ChainRemembers(s: P.State, limits: Q.Limits, actions: seq<P.Action>, last: P.State)
    requires P.Inv(s, limits) && Chain(s, limits, actions, last)
    ensures P.Inv(last, limits) && Remembered(s.tables, s.log, last.tables, last.log)
    decreases |actions|
  {
    if actions != [] {
      var s' := P.Apply(s, limits, actions[0]);
      P.ActionOk(s, limits, actions[0]);
      ActionRemembers(s, limits, actions[0]);
      hide P.Apply, P.Enabled, P.Inv, Remembered;
      ChainRemembers(s', limits, actions[1..], last);
      RememberedOn(s.tables, s.log, s'.tables, s'.log, last.tables, last.log);
    }
  }

  /** While serving with nothing else to do, work that may start is taken up. */
  lemma SubmittedIsTakenUp(s: P.State, limits: Q.Limits, g: Generation) returns (s': P.State)
    requires P.Inv(s, limits) && s.mode.Serving? && s.queue.waiting == [] && s.queue.inFlight == map[]
    requires limits.Positive() && g.tier != Ambient
    ensures Chain(s, limits, [P.Submit(g), P.Dispatch], s') && s'.mode.Serving?
    ensures s'.tables == s.tables && s'.log == s.log && s'.runs == map[g.Slot() := P.Run(g.claimKey, P.Checking)]
  {
    var mid := P.Apply(s, limits, P.Submit(g));
    AloneInLine(s.queue, limits, g);
    P.ActionOk(s, limits, P.Submit(g));
    AloneIsDispatched(mid, limits, g);
    s' := P.Apply(mid, limits, P.Dispatch);
    ChainOne(s, limits, P.Submit(g));
    ChainOne(mid, limits, P.Dispatch);
    hide P.Inv, Q.Enqueue, Q.ClaimNext, Chain;
    ChainOn(s, limits, [P.Submit(g)], mid, [P.Dispatch], s');
  }

  lemma AloneIsDispatched(s: P.State, limits: Q.Limits, g: Generation)
    requires Q.Valid(s.queue, limits) && s.mode.Serving? && s.runs == map[]
    requires |s.queue.waiting| == 1 && s.queue.waiting[0].generation == g && s.queue.inFlight == map[]
    requires limits.Positive() && g.tier != Ambient
    ensures P.Enabled(s, limits, P.Dispatch)
    ensures var s' := P.Apply(s, limits, P.Dispatch);
            s'.runs == map[g.Slot() := P.Run(g.claimKey, P.Checking)] && s'.mode.Serving?
            && s'.tables == s.tables && s'.log == s.log
  {
    Q.NothingRunningStarts(s.queue, limits);
    Q.ClaimsLeast(s.queue, limits);
    hide Q.Valid, Q.ClaimNext;
  }

  lemma AloneInLine(q: Q.Queue, limits: Q.Limits, g: Generation)
    requires Q.Valid(q, limits) && q.waiting == [] && q.inFlight == map[]
    ensures Q.Enqueue(q, g).0.waiting == [Q.Waiting(g, q.arrivals + 1)] && Q.Enqueue(q, g).0.inFlight == map[]
  {
    assert g.claimKey !in Q.Keys(Q.Works([])) && Q.InFlightKeys(q) == {};
  }
}
