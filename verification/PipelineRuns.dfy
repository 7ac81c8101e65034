/** Runs of the protocol: the moves one piece of work makes, one after another, and the actions of the
    whole process they are part of. */
module PipelineRuns {
  import opened GenerationWork
  import P = Pipeline
  import Q = QueueSpec

  // ---- one piece of work, move after move --------------------------------------------

  /** The tables, the log, and how far one piece of work has got. */
  datatype Spot = Spot(tables: P.Tables, log: P.Log, pc: P.Pc)

  ghost function After(a: Spot, slot: Slot, key: ClaimKey, m: P.Move): Spot
    requires P.CanMove(a.pc, m)
  {
    var (t, log, pc) := P.MoveTo(a.tables, a.log, slot, P.Run(key, a.pc), m);
    Spot(t, log, pc)
  }

  /** Each of the moves can be made in turn, and together they lead from `a` to `b`. */
  ghost predicate Walks(a: Spot, slot: Slot, key: ClaimKey, moves: seq<P.Move>, b: Spot)
    decreases |moves|
  {
    if moves == [] then a == b
    else P.CanMove(a.pc, moves[0]) && Walks(After(a, slot, key, moves[0]), slot, key, moves[1..], b)
  }

  lemma {:induction false} WalkOn(
      a: Spot, slot: Slot, key: ClaimKey, first: seq<P.Move>, b: Spot, second: seq<P.Move>, c: Spot)
    requires Walks(a, slot, key, first, b) && Walks(b, slot, key, second, c)
    ensures Walks(a, slot, key, first + second, c)
    decreases |first|
  {
    hide After;
    if first == [] {
      assert first + second == second;
    } else {
      WalkOn(After(a, slot, key, first[0]), slot, key, first[1..], b, second, c);
      assert (first + second)[1..] == first[1..] + second;
    }
  }

  lemma WalkOne(a: Spot, slot: Slot, key: ClaimKey, m: P.Move)
    requires P.CanMove(a.pc, m)
    ensures Walks(a, slot, key, [m], After(a, slot, key, m))
  {
    hide After;
    assert [m][1..] == [];
  }

  /** What the rows and the log say of work that has got as far as `a.pc`. */
  ghost predicate Sound(a: Spot, slot: Slot, key: ClaimKey) {
    P.Core(a.tables, a.log) && P.RunOk(a.tables, a.log, slot, P.Run(key, a.pc))
  }

  lemma MoveSound(a: Spot, slot: Slot, key: ClaimKey, m: P.Move)
    requires Sound(a, slot, key) && P.CanMove(a.pc, m)
    ensures var b := After(a, slot, key, m);
            Sound(b, slot, key) && P.Confined(a.tables, a.log, b.tables, b.log, slot, key)
  {
    P.MovesOk(a.tables, a.log, slot, P.Run(key, a.pc), m);
    hide P.Core, P.RunOk, P.Confined, P.MoveTo;
  }

  lemma LogGrows(a: Spot, slot: Slot, key: ClaimKey, m: P.Move)
    requires P.CanMove(a.pc, m)
    ensures var b := After(a, slot, key, m);
            a.log.sends <= b.log.sends && a.log.calls <= b.log.calls && a.log.stores <= b.log.stores
  {
  }

  lemma ConfinedOn(
      t: P.Tables, log: P.Log, t': P.Tables, log': P.Log, t'': P.Tables, log'': P.Log, slot: Slot, key: ClaimKey)
    requires P.Confined(t, log, t', log', slot, key) && P.Confined(t', log', t'', log'', slot, key)
    ensures P.Confined(t, log, t'', log'', slot, key)
  {
    hide P.Open, P.Sequences;
  }

  /** However far it walks, work keeps the durable invariant, leaves every other NPC and key as they
      were, and takes nothing back that the outside world has seen. */
  lemma {:induction false} WalkKeeps(a: Spot, slot: Slot, key: ClaimKey, moves: seq<P.Move>, b: Spot)
    requires Sound(a, slot, key) && Walks(a, slot, key, moves, b)
    ensures Sound(b, slot, key) && P.Confined(a.tables, a.log, b.tables, b.log, slot, key)
    ensures a.log.sends <= b.log.sends && a.log.calls <= b.log.calls && a.log.stores <= b.log.stores
    decreases |moves|
  {
    if moves != [] {
      var c := After(a, slot, key, moves[0]);
      MoveSound(a, slot, key, moves[0]);
      LogGrows(a, slot, key, moves[0]);
      hide Sound, After, P.Confined;
      WalkKeeps(c, slot, key, moves[1..], b);
      ConfinedOn(a.tables, a.log, c.tables, c.log, b.tables, b.log, slot, key);
    }
  }

  // ---- the whole process, action after action ------------------------------------------

  ghost predicate Chain(s: P.State, limits: Q.Limits, actions: seq<P.Action>, last: P.State)
    decreases |actions|
  {
    if actions == [] then s == last
    else P.Enabled(s, limits, actions[0]) && Chain(P.Apply(s, limits, actions[0]), limits, actions[1..], last)
  }

  lemma {:induction false} ChainOn(
      s: P.State, limits: Q.Limits, first: seq<P.Action>, mid: P.State, second: seq<P.Action>, last: P.State)
    requires Chain(s, limits, first, mid) && Chain(mid, limits, second, last)
    ensures Chain(s, limits, first + second, last)
    decreases |first|
  {
    hide P.Enabled, P.Apply;
    if first == [] {
      assert first + second == second;
    } else {
      ChainOn(P.Apply(s, limits, first[0]), limits, first[1..], mid, second, last);
      assert (first + second)[1..] == first[1..] + second;
    }
  }

  lemma ChainOne(s: P.State, limits: Q.Limits, a: P.Action)
    requires P.Enabled(s, limits, a)
    ensures Chain(s, limits, [a], P.Apply(s, limits, a))
  {
    hide P.Enabled, P.Apply;
    assert [a][1..] == [];
  }

  function Advances(slot: Slot, moves: seq<P.Move>): seq<P.Action> {
    seq(|moves|, i requires 0 <= i < |moves| => P.Advance(slot, moves[i]))
  }

  predicate NoAbandon(moves: seq<P.Move>) {
    forall i :: 0 <= i < |moves| ==> !moves[i].Abandon?
  }

  /** The state with one piece of work at another spot. */
  function Moved(s: P.State, slot: Slot, key: ClaimKey, b: Spot): P.State {
    s.(tables := b.tables, log := b.log, runs := s.runs[slot := P.Run(key, b.pc)])
  }

  lemma AdvanceOnce(s: P.State, limits: Q.Limits, slot: Slot, key: ClaimKey, m: P.Move)
    requires slot in s.runs && s.runs[slot].key == key && P.CanMove(s.runs[slot].pc, m)
    requires s.mode.Serving? || !m.Abandon?
    ensures P.Enabled(s, limits, P.Advance(slot, m))
    ensures P.Apply(s, limits, P.Advance(slot, m)) == Moved(s, slot, key, After(Spot(s.tables, s.log, s.runs[slot].pc), slot, key, m))
  {
    hide P.MoveTo;
  }

  /** A walk of running work is a chain of the process's own actions. */
  lemma {:induction false} WalkIsChain(
      s: P.State, limits: Q.Limits, slot: Slot, key: ClaimKey, moves: seq<P.Move>, b: Spot)
    requires slot in s.runs && s.runs[slot].key == key
    requires Walks(Spot(s.tables, s.log, s.runs[slot].pc), slot, key, moves, b)
    requires s.mode.Serving? || NoAbandon(moves)
    ensures Chain(s, limits, Advances(slot, moves), Moved(s, slot, key, b))
    decreases |moves|
  {
    var a := Spot(s.tables, s.log, s.runs[slot].pc);
    if moves == [] {
      assert s.runs[slot := s.runs[slot]] == s.runs;
    } else {
      AdvanceOnce(s, limits, slot, key, moves[0]);
      hide P.Enabled, P.Apply, After;
      var next := Moved(s, slot, key, After(a, slot, key, moves[0]));
      WalkIsChain(next, limits, slot, key, moves[1..], b);
      assert Advances(slot, moves)[1..] == Advances(slot, moves[1..]);
      assert Moved(next, slot, key, b) == Moved(s, slot, key, b);
    }
  }

  /** Served from its first check to its end, work is an execution fragment of the process. */
  lemma ServedIsChain(s: P.State, limits: Q.Limits, slot: Slot, key: ClaimKey, moves: seq<P.Move>, b: Spot)
    requires s.mode.Serving? && slot in s.runs && s.runs[slot] == P.Run(key, P.Checking)
    requires Walks(Spot(s.tables, s.log, P.Checking), slot, key, moves, b) && b.pc == P.Ending
    ensures var ended := Moved(s, slot, key, b);
            Chain(s, limits, Advances(slot, moves) + [P.Finish(slot)], P.Apply(ended, limits, P.Finish(slot)))
  {
    WalkIsChain(s, limits, slot, key, moves, b);
    var ended := Moved(s, slot, key, b);
    ChainOne(ended, limits, P.Finish(slot));
    ChainOn(s, limits, Advances(slot, moves), ended, [P.Finish(slot)], P.Apply(ended, limits, P.Finish(slot)));
  }

  // ---- recovery, task after task -------------------------------------------------------

  /** One row recovery dealt with: the moves it made, and the tables and the log it left. */
  datatype Task = Task(key: ClaimKey, slot: Slot, moves: seq<P.Move>, tables: P.Tables, log: P.Log)

  function Keys(tasks: seq<Task>): seq<ClaimKey> {
    seq(|tasks|, i requires 0 <= i < |tasks| => tasks[i].key)
  }

  /** Each task closes one open attempt as failed and carries its answer to the end. */
  ghost predicate Answers(t: P.Tables, log: P.Log, tasks: seq<Task>, t': P.Tables, log': P.Log)
    decreases |tasks|
  {
    if tasks == [] then t == t' && log == log'
    else
      var k := tasks[0];
      && k.key in t.attempts && t.attempts[k.key].slot == k.slot
      && k.moves != [] && k.moves[0] == P.Answer(false) && NoAbandon(k.moves)
      && Walks(Spot(t, log, P.Calling), k.slot, k.key, k.moves, Spot(k.tables, k.log, P.Ending))
      && Answers(k.tables, k.log, tasks[1..], t', log')
  }

  /** Each task delivers one stored command and settles it. */
  ghost predicate Deliveries(t: P.Tables, log: P.Log, tasks: seq<Task>, t': P.Tables, log': P.Log)
    decreases |tasks|
  {
    if tasks == [] then t == t' && log == log'
    else
      var k := tasks[0];
      && k.key in t.commands && t.commands[k.key].slot == k.slot && NoAbandon(k.moves)
      && Walks(Spot(t, log, P.Delivering), k.slot, k.key, k.moves, Spot(k.tables, k.log, P.Ending))
      && Deliveries(k.tables, k.log, tasks[1..], t', log')
  }

  lemma {:induction false} OneMoreAnswer(
      t: P.Tables, log: P.Log, tasks: seq<Task>, t': P.Tables, log': P.Log, k: Task)
    requires Answers(t, log, tasks, t', log')
    requires k.key in t'.attempts && t'.attempts[k.key].slot == k.slot
    requires k.moves != [] && k.moves[0] == P.Answer(false) && NoAbandon(k.moves)
    requires Walks(Spot(t', log', P.Calling), k.slot, k.key, k.moves, Spot(k.tables, k.log, P.Ending))
    ensures Answers(t, log, tasks + [k], k.tables, k.log)
    decreases |tasks|
  {
    hide Walks, NoAbandon;
    if tasks == [] {
      assert (tasks + [k])[1..] == [];
    } else {
      OneMoreAnswer(tasks[0].tables, tasks[0].log, tasks[1..], t', log', k);
      assert (tasks + [k])[1..] == tasks[1..] + [k];
    }
  }

  lemma {:induction false} OneMoreDelivery(
      t: P.Tables, log: P.Log, tasks: seq<Task>, t': P.Tables, log': P.Log, k: Task)
    requires Deliveries(t, log, tasks, t', log')
    requires k.key in t'.commands && t'.commands[k.key].slot == k.slot && NoAbandon(k.moves)
    requires Walks(Spot(t', log', P.Delivering), k.slot, k.key, k.moves, Spot(k.tables, k.log, P.Ending))
    ensures Deliveries(t, log, tasks + [k], k.tables, k.log)
    decreases |tasks|
  {
    hide Walks, NoAbandon;
    if tasks == [] {
      assert (tasks + [k])[1..] == [];
    } else {
      OneMoreDelivery(tasks[0].tables, tasks[0].log, tasks[1..], t', log', k);
      assert (tasks + [k])[1..] == tasks[1..] + [k];
    }
  }

  /** Nothing runs and nothing is queued: the process between two of recovery's tasks. */
  function Between(t: P.Tables, log: P.Log, mode: P.Mode): P.State {
    P.State(t, log, Q.Empty, map[], mode)
  }

  lemma FinishesQuietly(t: P.Tables, log: P.Log, mode: P.Mode, slot: Slot, key: ClaimKey, limits: Q.Limits)
    ensures var s := Between(t, log, mode).(runs := map[slot := P.Run(key, P.Ending)]);
            P.Enabled(s, limits, P.Finish(slot)) && P.Apply(s, limits, P.Finish(slot)) == Between(t, log, mode)
  {
    assert map[slot := P.Run(key, P.Ending)] - {slot} == map[];
  }

  function TaskActions(k: Task, head: P.Action, moves: seq<P.Move>): seq<P.Action> {
    [head] + Advances(k.slot, moves) + [P.Finish(k.slot)]
  }

  /** Taking a row up, walking it to the end and finishing brings the process back to quiet. */
  lemma TaskIsChain(
      s: P.State, head: P.Action, k: Task, moves: seq<P.Move>, from: Spot, mode: P.Mode, limits: Q.Limits)
    requires P.Enabled(s, limits, head) && !mode.Serving? && NoAbandon(moves)
    requires P.Apply(s, limits, head) == Between(from.tables, from.log, mode).(runs := map[k.slot := P.Run(k.key, from.pc)])
    requires Walks(from, k.slot, k.key, moves, Spot(k.tables, k.log, P.Ending))
    ensures Chain(s, limits, TaskActions(k, head, moves), Between(k.tables, k.log, mode))
  {
    var taken := Between(from.tables, from.log, mode).(runs := map[k.slot := P.Run(k.key, from.pc)]);
    var ended := Moved(taken, k.slot, k.key, Spot(k.tables, k.log, P.Ending));
    assert ended == Between(k.tables, k.log, mode).(runs := map[k.slot := P.Run(k.key, P.Ending)]);
    ChainOne(s, limits, head);
    WalkIsChain(taken, limits, k.slot, k.key, moves, Spot(k.tables, k.log, P.Ending));
    FinishesQuietly(k.tables, k.log, mode, k.slot, k.key, limits);
    ChainOne(ended, limits, P.Finish(k.slot));
    hide P.Enabled, P.Apply, Walks, Chain;
    ChainOn(s, limits, [head], taken, Advances(k.slot, moves), ended);
    ChainOn(s, limits, [head] + Advances(k.slot, moves), ended, [P.Finish(k.slot)], Between(k.tables, k.log, mode));
  }

  lemma AnswerTakenUp(t: P.Tables, log: P.Log, k: Task, todo: seq<ClaimKey>, limits: Q.Limits)
    requires k.key in t.attempts && t.attempts[k.key].slot == k.slot
    ensures var s := Between(t, log, P.Answering([k.key] + todo));
            var from := After(Spot(t, log, P.Calling), k.slot, k.key, P.Answer(false));
            && P.Enabled(s, limits, P.AnswerNext)
            && P.Apply(s, limits, P.AnswerNext)
               == Between(from.tables, from.log, P.Answering(todo)).(runs := map[k.slot := P.Run(k.key, from.pc)])
  {
    assert ([k.key] + todo)[1..] == todo;
  }

  lemma {:induction false} AnswersAreChain(
      t: P.Tables, log: P.Log, tasks: seq<Task>, t': P.Tables, log': P.Log, limits: Q.Limits) returns (actions: seq<P.Action>)
    requires Answers(t, log, tasks, t', log')
    ensures Chain(Between(t, log, P.Answering(Keys(tasks))), limits, actions, Between(t', log', P.Answering([])))
    ensures OnlyRecovery(actions)
    decreases |tasks|
  {
    if tasks == [] {
      assert Keys(tasks) == [];
      actions := [];
    } else {
      var k, rest := tasks[0], Keys(tasks[1..]);
      var s, from := Between(t, log, P.Answering(Keys(tasks))), After(Spot(t, log, P.Calling), k.slot, k.key, P.Answer(false));
      assert Keys(tasks) == [k.key] + rest;
      AnswerTakenUp(t, log, k, rest, limits);
      assert NoAbandon(k.moves[1..]);
      TaskIsChain(s, P.AnswerNext, k, k.moves[1..], from, P.Answering(rest), limits);
      hide P.Enabled, P.Apply, After, Walks;
      var more := AnswersAreChain(k.tables, k.log, tasks[1..], t', log', limits);
      ChainOn(
        s, limits, TaskActions(k, P.AnswerNext, k.moves[1..]), Between(k.tables, k.log, P.Answering(rest)), more,
        Between(t', log', P.Answering([])));
      actions := TaskActions(k, P.AnswerNext, k.moves[1..]) + more;
    }
  }

  lemma DeliveryTakenUp(t: P.Tables, log: P.Log, k: Task, todo: seq<ClaimKey>, limits: Q.Limits)
    requires k.key in t.commands && t.commands[k.key].slot == k.slot
    ensures var s := Between(t, log, P.Republishing([k.key] + todo));
            && P.Enabled(s, limits, P.RepublishNext)
            && P.Apply(s, limits, P.RepublishNext)
               == Between(t, log, P.Republishing(todo)).(runs := map[k.slot := P.Run(k.key, P.Delivering)])
  {
    assert ([k.key] + todo)[1..] == todo;
  }

  lemma {:induction false} DeliveriesAreChain(
      t: P.Tables, log: P.Log, tasks: seq<Task>, t': P.Tables, log': P.Log, limits: Q.Limits) returns (actions: seq<P.Action>)
    requires Deliveries(t, log, tasks, t', log')
    ensures Chain(Between(t, log, P.Republishing(Keys(tasks))), limits, actions, Between(t', log', P.Republishing([])))
    ensures OnlyRecovery(actions)
    decreases |tasks|
  {
    if tasks == [] {
      assert Keys(tasks) == [];
      actions := [];
    } else {
      var k, rest := tasks[0], Keys(tasks[1..]);
      var s := Between(t, log, P.Republishing(Keys(tasks)));
      assert Keys(tasks) == [k.key] + rest;
      DeliveryTakenUp(t, log, k, rest, limits);
      TaskIsChain(s, P.RepublishNext, k, k.moves, Spot(t, log, P.Delivering), P.Republishing(rest), limits);
      hide P.Enabled, P.Apply, After, Walks;
      var more := DeliveriesAreChain(k.tables, k.log, tasks[1..], t', log', limits);
      ChainOn(
        s, limits, TaskActions(k, P.RepublishNext, k.moves), Between(k.tables, k.log, P.Republishing(rest)), more,
        Between(t', log', P.Republishing([])));
      actions := TaskActions(k, P.RepublishNext, k.moves) + more;
    }
  }

  /** No crash, and nothing that intake or the dispatcher does. */
  predicate OnlyRecovery(actions: seq<P.Action>) {
    forall i :: 0 <= i < |actions| ==>
      var a := actions[i]; !a.Submit? && !a.Cancel? && !a.Dispatch? && !a.Crash?
  }

  lemma OnlyBoth(a: seq<P.Action>, b: seq<P.Action>)
    requires OnlyRecovery(a) && OnlyRecovery(b)
    ensures OnlyRecovery(a + b)
  {
  }

  /** A recovery: every open attempt answered once, then every pending command delivered once. */
  ghost predicate Recovers(
      t: P.Tables, log: P.Log, answers: seq<Task>, mid: P.Tables, midLog: P.Log, deliveries: seq<Task>,
      t': P.Tables, log': P.Log)
  {
    && P.NoDuplicates(Keys(answers)) && (forall k :: k in Keys(answers) <==> P.IsAttempted(t, k))
    && Answers(t, log, answers, mid, midLog)
    && P.NoDuplicates(Keys(deliveries)) && (forall k :: k in Keys(deliveries) <==> P.IsPending(mid, k))
    && Deliveries(mid, midLog, deliveries, t', log')
  }

  /** Such a recovery is an execution of the process from its start to open intake. */
  lemma RecoveryIsChain(
      t: P.Tables, log: P.Log, answers: seq<Task>, mid: P.Tables, midLog: P.Log, deliveries: seq<Task>,
      t': P.Tables, log': P.Log, limits: Q.Limits) returns (actions: seq<P.Action>)
    requires Recovers(t, log, answers, mid, midLog, deliveries, t', log')
    ensures Chain(Between(t, log, P.Starting), limits, actions, Between(t', log', P.Serving))
    ensures OnlyRecovery(actions)
  {
    var first := AnswersAreChain(t, log, answers, mid, midLog, limits);
    var second := DeliveriesAreChain(mid, midLog, deliveries, t', log', limits);
    var read, reread := P.ReadAttempts(Keys(answers)), P.ReadCommands(Keys(deliveries));
    var starting, answering, answered := Between(t, log, P.Starting), Between(t, log, P.Answering(Keys(answers))), Between(mid, midLog, P.Answering([]));
    var sending, sent, serving := Between(mid, midLog, P.Republishing(Keys(deliveries))), Between(t', log', P.Republishing([])), Between(t', log', P.Serving);
    ChainOne(starting, limits, read);
    ChainOne(answered, limits, reread);
    ChainOne(sent, limits, P.OpenIntake);
    assert P.Apply(starting, limits, read) == answering && P.Apply(answered, limits, reread) == sending;
    assert P.Apply(sent, limits, P.OpenIntake) == serving;
    assert OnlyRecovery([read]) && OnlyRecovery([reread]) && OnlyRecovery([P.OpenIntake]);
    hide *;
    OnlyBoth([read], first);
    OnlyBoth([read] + first, [reread]);
    OnlyBoth([read] + first + [reread], second);
    OnlyBoth([read] + first + [reread] + second, [P.OpenIntake]);
    ChainOn(starting, limits, [read], answering, first, answered);
    ChainOn(starting, limits, [read] + first, answered, [reread], sending);
    ChainOn(starting, limits, [read] + first + [reread], sending, second, sent);
    ChainOn(starting, limits, [read] + first + [reread] + second, sent, [P.OpenIntake], serving);
    actions := [read] + first + [reread] + second + [P.OpenIntake];
  }
}
