/** When work runs: the dispatcher's wake-up flag, the drain flag and the tasks in between.

    Code between two awaits is one step. Submitting is one step because whatever it displaces is
    restatable work (`QueueSpec.AtMostOneSuperseded`), and abandoning that never suspends; cancelling
    may suspend between dropping the work and settling, so it is two. */
module SchedulerSpec {
  import opened GenerationWork
  import Q = QueueSpec

  /** `running` counts the tasks not yet taken off the running set; one that has released its slot
      stays there until its completion callback runs. */
  datatype State = State(queue: Q.Queue, runnable: bool, idle: bool, running: nat, cancels: nat)

  const Initial := State(Q.Empty, false, true, 0, 0)

  datatype Step =
    | Submit(work: Generation)
    | BeginCancel(doomed: Generation -> bool)
    | EndCancel
    | Dispatch
    | Release(slot: Slot)
    | Finished

  /** Start work until the queue hands out nothing more; also says what was started, in order. */
  function StartAll(q: Q.Queue, limits: Q.Limits): (Q.Queue, seq<Generation>)
    decreases |q.waiting|
  {
    var (r, g) := Q.ClaimNext(q, limits);
    if g.None? then (q, [])
    else
      ClaimShrinks(q, limits);
      var (last, rest) := StartAll(r, limits);
      (last, [g.value] + rest)
  }

  lemma ClaimShrinks(q: Q.Queue, limits: Q.Limits)
    ensures var (r, g) := Q.ClaimNext(q, limits);
      |r.waiting| == if g.Some? then |q.waiting| - 1 else |q.waiting|
  {
    Q.StartableMembers(q, limits);
    if Q.ClaimNext(q, limits).1.Some? {
      WithoutShrinks(q.waiting, Q.First(Q.StartableWork(q, limits)));
    }
  }

  lemma {:induction false} WithoutShrinks(ws: seq<Q.Waiting>, w: Q.Waiting)
    requires w in ws
    ensures |Q.Without(ws, w)| == |ws| - 1
  {
    if ws[0] != w {
      WithoutShrinks(ws[1..], w);
    }
  }

  function Settle(s: State): State {
    if s.queue.waiting == [] && s.queue.inFlight == map[] && s.running == 0 then s.(idle := true) else s
  }

  predicate Enabled(s: State, step: Step) {
    match step
    case Submit(work) => work.Generates()
    case BeginCancel(_) => true
    case EndCancel => s.cancels > 0
    case Dispatch => s.runnable
    case Release(slot) => slot in s.queue.inFlight
    case Finished => s.running > |s.queue.inFlight|
  }

  function Apply(s: State, limits: Q.Limits, step: Step): State
    requires Enabled(s, step)
  {
    match step
    case Submit(work) =>
      var (q, e) := Q.Enqueue(s.queue, work);
      if e.queued then s.(queue := q, idle := false, runnable := true) else s
    case BeginCancel(doomed) => s.(queue := Q.Evict(s.queue, doomed).0, cancels := s.cancels + 1)
    case EndCancel => Settle(s.(cancels := s.cancels - 1))
    case Dispatch =>
      var (q, started) := StartAll(s.queue, limits);
      Settle(s.(queue := q, runnable := false, running := s.running + |started|))
    case Release(slot) => s.(queue := Q.Release(s.queue, s.queue.inFlight[slot]))
    case Finished => s.(running := s.running - 1, runnable := true)
  }

  // ---- the invariant --------------------------------------------------------------

  ghost predicate Inv(s: State, limits: Q.Limits) {
    && Q.Valid(s.queue, limits)
    && (forall w :: w in s.queue.waiting ==> w.generation.Generates())
    && s.running >= |s.queue.inFlight|
    // the drain flag never comes early
    && (s.idle ==> s.queue.waiting == [] && s.queue.inFlight == map[] && s.running == 0)
    // startable work is never left without a wake-up that is set or on its way
    && (!s.runnable ==> Q.ClaimNext(s.queue, limits).1.None? || s.running > |s.queue.inFlight|)
    // and neither is the drain flag
    && (!s.idle && !s.runnable && s.running == 0 && s.queue.waiting == [] ==> s.cancels > 0)
  }

  lemma {:induction false} StartAllOk(q: Q.Queue, limits: Q.Limits)
    requires Q.Valid(q, limits)
    ensures var (r, started) := StartAll(q, limits);
      && Q.Valid(r, limits)
      && Q.ClaimNext(r, limits).1.None?
      && |r.inFlight| == |q.inFlight| + |started| && |r.waiting| + |started| == |q.waiting|
      && forall w :: w in r.waiting ==> w in q.waiting
    decreases |q.waiting|
  {
    var (r, g) := Q.ClaimNext(q, limits);
    if g.Some? {
      ClaimShrinks(q, limits);
      Q.ClaimNextValid(q, limits);
      ClaimStarts(q, limits);
      StartAllOk(r, limits);
    }
  }

  lemma ClaimStarts(q: Q.Queue, limits: Q.Limits)
    requires Q.Valid(q, limits) && Q.ClaimNext(q, limits).1.Some?
    ensures var r := Q.ClaimNext(q, limits).0;
      |r.inFlight| == |q.inFlight| + 1 && forall w :: w in r.waiting ==> w in q.waiting
  {
    Q.StartableMembers(q, limits);
    var w := Q.First(Q.StartableWork(q, limits));
    Q.WithoutWellOrdered(q.waiting, w);
    assert Q.Start(q, w).inFlight.Keys == q.inFlight.Keys + {w.generation.Slot()};
  }

  lemma ClaimMoves(q: Q.Queue, limits: Q.Limits)
    requires Q.ClaimNext(q, limits).1.Some?
    ensures var (r, g) := Q.ClaimNext(q, limits);
      && multiset(Q.Works(q.waiting)) == multiset{g.value} + multiset(Q.Works(r.waiting))
      && g.value.Slot() !in q.inFlight && r.inFlight == q.inFlight[g.value.Slot() := g.value]
  {
    Q.StartableMembers(q, limits);
    var w := Q.First(Q.StartableWork(q, limits));
    Q.WithoutWorks(q.waiting, w);
    hide Q.Without, Q.Works, Q.Filter;
  }

  lemma OneMoreStarted(
      before: multiset<Generation>, g: Generation, rest: seq<Generation>, between: multiset<Generation>, after: multiset<Generation>)
    requires before == multiset{g} + between && between == multiset(rest) + after
    ensures before == multiset([g] + rest) + after
  {
  }

  /** What a wake-up starts is exactly what leaves the waiting list, and it is then in flight. */
  lemma {:induction false} StartedMoves(q: Q.Queue, limits: Q.Limits)
    ensures var (r, started) := StartAll(q, limits);
      && multiset(Q.Works(q.waiting)) == multiset(started) + multiset(Q.Works(r.waiting))
      && (forall g :: g in started ==> g.Slot() in r.inFlight && r.inFlight[g.Slot()] == g)
      && (forall slot :: slot in q.inFlight ==> slot in r.inFlight && r.inFlight[slot] == q.inFlight[slot])
    decreases |q.waiting|
  {
    var (r, g) := Q.ClaimNext(q, limits);
    hide Q.ClaimNext, Q.Works;
    if g.Some? {
      ClaimShrinks(q, limits);
      ClaimMoves(q, limits);
      StartedMoves(r, limits);
      var (last, rest) := StartAll(r, limits);
      OneMoreStarted(
        multiset(Q.Works(q.waiting)), g.value, rest, multiset(Q.Works(r.waiting)), multiset(Q.Works(last.waiting)));
    } else {
      NothingClaimed(q, limits);
    }
  }

  lemma NothingClaimed(q: Q.Queue, limits: Q.Limits)
    ensures Q.ClaimNext(q, limits).1.None? ==> Q.ClaimNext(q, limits).0 == q
  {
  }

  /** Dropping waiting work makes nothing startable that was not. */
  lemma EvictStartsNothing(q: Q.Queue, limits: Q.Limits, doomed: Generation -> bool)
    requires Q.ClaimNext(q, limits).1.None?
    ensures Q.ClaimNext(Q.Evict(q, doomed).0, limits).1.None?
  {
    var r := Q.Evict(q, doomed).0;
    Q.FilterMembers(q.waiting, Q.Not(doomed));
    Q.StartableMembers(q, limits);
    Q.StartableMembers(r, limits);
    var ready := Q.StartableWork(r, limits);
    assert ready != [] ==> ready[0] in ready;
  }

  lemma SubmitOk(s: State, limits: Q.Limits, work: Generation)
    requires Inv(s, limits) && work.Generates()
    ensures Inv(Apply(s, limits, Submit(work)), limits)
  {
    Q.EnqueueValid(s.queue, limits, work);
    Q.FilterMembers(s.queue.waiting, Q.Not(Q.Restatement(work)));
  }

  /** Submitted work whose key is not claimed waits last, the wake-up is set and the drain flag is not;
      work already claimed changes nothing. */
  lemma SubmitTakesIn(s: State, limits: Q.Limits, work: Generation)
    requires Inv(s, limits) && work.Generates()
    ensures var s' := Apply(s, limits, Submit(work));
      if work.claimKey in s.queue.claimed then s' == s
      else
        && s'.queue.waiting != [] && s'.queue.waiting[|s'.queue.waiting| - 1].generation == work
        && s'.runnable && !s'.idle && s'.running == s.running && s'.cancels == s.cancels
  {
    Q.TakesIn(s.queue, limits, work);
  }

  /** Cancelling drops exactly the matching work that waits, and frees its keys. */
  lemma CancelDropsMatching(s: State, limits: Q.Limits, doomed: Generation -> bool)
    requires Inv(s, limits)
    ensures var s' := Apply(s, limits, BeginCancel(doomed));
      && (forall w :: w in s'.queue.waiting <==> w in s.queue.waiting && !doomed(w.generation))
      && (forall w :: w in s.queue.waiting && doomed(w.generation) ==> w.generation.claimKey !in s'.queue.claimed)
      && s'.queue.inFlight == s.queue.inFlight && s'.running == s.running && s'.cancels == s.cancels + 1
  {
    Q.FilterMembers(s.queue.waiting, Q.Not(doomed));
    Q.FilterMembers(s.queue.waiting, doomed);
    Q.WorksMembers(Q.Filter(s.queue.waiting, doomed));
  }

  lemma CancelOk(s: State, limits: Q.Limits, doomed: Generation -> bool)
    requires Inv(s, limits)
    ensures Inv(Apply(s, limits, BeginCancel(doomed)), limits)
  {
    Q.EvictValid(s.queue, limits, doomed);
    Q.FilterMembers(s.queue.waiting, Q.Not(doomed));
    if Q.ClaimNext(s.queue, limits).1.None? {
      EvictStartsNothing(s.queue, limits, doomed);
    }
  }

  lemma DispatchOk(s: State, limits: Q.Limits)
    requires Inv(s, limits) && s.runnable
    ensures Inv(Apply(s, limits, Dispatch), limits)
  {
    StartAllOk(s.queue, limits);
  }

  lemma ReleaseOk(s: State, limits: Q.Limits, slot: Slot)
    requires Inv(s, limits) && slot in s.queue.inFlight
    ensures Inv(Apply(s, limits, Release(slot)), limits)
    ensures |Apply(s, limits, Release(slot)).queue.inFlight| == |s.queue.inFlight| - 1
  {
    var g := s.queue.inFlight[slot];
    Q.ReleaseValid(s.queue, limits, g);
    assert (s.queue.inFlight - {slot}).Keys == s.queue.inFlight.Keys - {slot};
  }

  lemma StepOk(s: State, limits: Q.Limits, step: Step)
    requires Inv(s, limits) && Enabled(s, step)
    ensures Inv(Apply(s, limits, step), limits)
  {
    match step
    case Submit(work) => SubmitOk(s, limits, work);
    case BeginCancel(doomed) => CancelOk(s, limits, doomed);
    case EndCancel =>
    case Dispatch => DispatchOk(s, limits);
    case Release(slot) => ReleaseOk(s, limits, slot);
    case Finished =>
  }

  // ---- whole runs -----------------------------------------------------------------

  /** The states a list of steps goes through, if each is enabled in turn. */
  ghost predicate Runs(s: State, limits: Q.Limits, steps: seq<Step>, last: State)
    decreases |steps|
  {
    if steps == [] then last == s
    else Enabled(s, steps[0]) && Runs(Apply(s, limits, steps[0]), limits, steps[1..], last)
  }

  lemma {:induction false} Always(s: State, limits: Q.Limits, steps: seq<Step>, last: State)
    requires Inv(s, limits) && Runs(s, limits, steps, last)
    ensures Inv(last, limits)
    decreases |steps|
  {
    if steps != [] {
      StepOk(s, limits, steps[0]);
      Always(Apply(s, limits, steps[0]), limits, steps[1..], last);
    }
  }

  lemma InitialOk(limits: Q.Limits)
    ensures Inv(Initial, limits)
  {
    Q.EmptyBalanced(limits);
  }

  /** No lost wake-up: with the dispatcher blocked, no task left and no cancellation under way, there
      is no work, and whoever waits for the drain has been let go. */
  lemma BlockedMeansDrained(limits: Q.Limits, steps: seq<Step>, s: State)
    requires limits.Positive() && Runs(Initial, limits, steps, s)
    requires !s.runnable && s.running == 0 && s.cancels == 0
    ensures s.queue.waiting == [] && s.queue.inFlight == map[] && s.idle
  {
    InitialOk(limits);
    Always(Initial, limits, steps, s);
    Q.NothingRunningStarts(s.queue, limits);
  }

  /** `drain` returns only when nothing waits, nothing is in flight and no task is left. */
  lemma DrainIsNeverEarly(limits: Q.Limits, steps: seq<Step>, s: State)
    requires Runs(Initial, limits, steps, s) && s.idle
    ensures s.queue.waiting == [] && s.queue.inFlight == map[] && s.running == 0
  {
    InitialOk(limits);
    Always(Initial, limits, steps, s);
  }

  // ---- and it returns -------------------------------------------------------------

  /** Steps the scheduler takes by itself, as against new deliveries from outside. */
  predicate Internal(step: Step) {
    !step.Submit? && !step.BeginCancel?
  }

  function Remaining(s: State): int {
    4 * |s.queue.waiting| + |s.queue.inFlight| + 2 * s.running + (if s.runnable then 1 else 0) + s.cancels
  }

  lemma InternalProgress(s: State, limits: Q.Limits, step: Step)
    requires Inv(s, limits) && Enabled(s, step) && Internal(step)
    ensures Remaining(Apply(s, limits, step)) < Remaining(s)
  {
    match step
    case Dispatch => StartAllOk(s.queue, limits);
    case Release(slot) => ReleaseOk(s, limits, slot);
    case EndCancel =>
    case Finished =>
  }

  /** Left to itself, the scheduler takes only so many more steps ... */
  lemma {:induction false} InternalRunsEnd(s: State, limits: Q.Limits, steps: seq<Step>, last: State)
    requires Inv(s, limits) && Runs(s, limits, steps, last) && forall step :: step in steps ==> Internal(step)
    ensures |steps| <= Remaining(s) - Remaining(last)
    decreases |steps|
  {
    if steps != [] {
      assert steps[0] in steps;
      StepOk(s, limits, steps[0]);
      InternalProgress(s, limits, steps[0]);
      InternalRunsEnd(Apply(s, limits, steps[0]), limits, steps[1..], last);
    }
  }

  /** ... and where it can take none, it is drained. */
  lemma StuckMeansDrained(s: State, limits: Q.Limits)
    requires Inv(s, limits) && limits.Positive()
    requires forall step :: Internal(step) ==> !Enabled(s, step)
    ensures s.idle && s.queue.waiting == [] && s.queue.inFlight == map[] && s.running == 0
  {
    assert !Enabled(s, Dispatch) && !Enabled(s, EndCancel) && !Enabled(s, Finished);
    forall slot ensures slot !in s.queue.inFlight {
      assert !Enabled(s, Release(slot));
    }
    assert s.queue.inFlight == map[];
    Q.NothingRunningStarts(s.queue, limits);
  }
}

/** The scheduler as the object whose methods run between awaits. */
module GenerationSchedulers {
  import opened GenerationWork
  import Q = QueueSpec
  import opened GenerationQueues
  import opened SchedulerSpec

  lemma StartAllUnfolds(q: Q.Queue, limits: Q.Limits)
    ensures var (r, g) := Q.ClaimNext(q, limits);
      if g.Some? then StartAll(q, limits) == (StartAll(r, limits).0, [g.value] + StartAll(r, limits).1) && |r.waiting| < |q.waiting|
      else StartAll(q, limits) == (q, []) && r == q
  {
    ClaimShrinks(q, limits);
    NothingClaimed(q, limits);
    hide Q.ClaimNext;
  }

  /** Having started `started`, the rest of the loop starts what is left to start. */
  ghost predicate StartedSoFar(q: Q.Queue, limits: Q.Limits, now: Q.Queue, started: seq<Generation>) {
    var rest := StartAll(now, limits);
    StartAll(q, limits) == (rest.0, started + rest.1)
  }

  lemma NoneStarted(q: Q.Queue, limits: Q.Limits)
    ensures StartedSoFar(q, limits, q, [])
  {
    assert [] + StartAll(q, limits).1 == StartAll(q, limits).1;
  }

  lemma OneStarted(q: Q.Queue, limits: Q.Limits, now: Q.Queue, started: seq<Generation>)
    requires StartedSoFar(q, limits, now, started)
    ensures var (r, g) := Q.ClaimNext(now, limits);
      if g.Some? then StartedSoFar(q, limits, r, started + [g.value]) && |r.waiting| < |now.waiting|
      else r == now && StartAll(q, limits) == (now, started)
  {
    StartAllUnfolds(now, limits);
    hide Q.ClaimNext, StartAll;
    var (r, g) := Q.ClaimNext(now, limits);
    assert started + [] == started;
    assert g.Some? ==> started + ([g.value] + StartAll(r, limits).1) == started + [g.value] + StartAll(r, limits).1;
  }

  /** The inner loop of the dispatcher. */
  method StartReady(queue: GenerationQueue) returns (started: seq<Generation>)
    requires queue.Valid()
    modifies queue
    ensures queue.Valid()
    ensures (queue.Contents(), started) == StartAll(old(queue.Contents()), queue.limits)
  {
    hide *;
    started := [];
    ghost var q := queue.Contents();
    NoneStarted(q, queue.limits);
    while true
      invariant queue.Valid() && StartedSoFar(q, queue.limits, queue.Contents(), started)
      decreases |queue.Contents().waiting|
    {
      OneStarted(q, queue.limits, queue.Contents(), started);
      var work := queue.ClaimNext();
      if work.None? {
        return;
      }
      started := started + [work.value];
    }
  }

  class GenerationScheduler {
    const queue: GenerationQueue
    var runnable: bool
    var idle: bool
    var running: nat
    ghost var cancels: nat

    ghost predicate Valid()
      reads this, queue
    {
      queue.Valid()
    }

    ghost function Contents(): State
      reads this, queue
    {
      State(queue.Contents(), runnable, idle, running, cancels)
    }

    constructor (limits: Q.Limits)
      ensures Valid() && fresh(queue) && queue.limits == limits && Contents() == Initial
    {
      queue := new GenerationQueue(limits);
      runnable, idle, running, cancels := false, true, 0, 0;
    }

    method Submit(work: Generation) returns (accepted: Q.Enqueued)
      requires Valid() && work.Generates()
      modifies this, queue
      ensures Valid() && Contents() == Apply(old(Contents()), queue.limits, SchedulerSpec.Submit(work))
      ensures accepted == Q.Enqueue(old(queue.Contents()), work).1
    {
      accepted := queue.Offer(work);
      if accepted.queued {
        idle := false;
        runnable := true;
      }
    }

    method BeginCancel(matches: Generation -> bool) returns (dropped: seq<Generation>)
      requires Valid()
      modifies this, queue
      ensures Valid() && Contents() == Apply(old(Contents()), queue.limits, SchedulerSpec.BeginCancel(matches))
      ensures dropped == Q.Evict(old(queue.Contents()), matches).1
    {
      dropped := queue.Cancel(matches);
      cancels := cancels + 1;
    }

    method EndCancel()
      requires Valid() && cancels > 0
      modifies this
      ensures Valid() && Contents() == Apply(old(Contents()), queue.limits, SchedulerSpec.EndCancel)
    {
      cancels := cancels - 1;
      SettleFlag();
    }

    /** One wake-up of the dispatcher; the work it returns is what it created tasks for. */
    method DispatchReadyWork() returns (started: seq<Generation>)
      requires Valid() && runnable
      modifies this, queue
      ensures Valid() && Contents() == Apply(old(Contents()), queue.limits, Dispatch)
      ensures started == StartAll(old(queue.Contents()), queue.limits).1
    {
      runnable := false;
      started := StartReady(queue);
      running := running + |started|;
      SettleFlag();
    }

    /** A task's last action, in the `finally` of its body. */
    method ReleaseWork(generation: Generation)
      requires Valid() && Q.Runs(queue.Contents(), generation)
      modifies queue
      ensures Valid() && Contents() == Apply(old(Contents()), queue.limits, SchedulerSpec.Release(generation.Slot()))
    {
      queue.Release(generation);
    }

    /** The completion callback: only now is the task off the running set. */
    method FinishTask()
      requires Valid() && Enabled(Contents(), Finished)
      modifies this
      ensures Valid() && Contents() == Apply(old(Contents()), queue.limits, Finished)
    {
      running := running - 1;
      runnable := true;
    }

    method SettleFlag()
      requires Valid()
      modifies this`idle
      ensures Contents() == Settle(old(Contents()))
    {
      if queue.waiting == [] && queue.inFlight == map[] && running == 0 {
        idle := true;
      }
    }
  }
}
