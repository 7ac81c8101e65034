/** The mod's latest-wins snapshot sender, one atomic operation at a time.

    Any number of threads publish; a request's completion carries on as the thread that sent it. The
    published snapshots are numbered in the order they are stored, 0, 1, 2, .. */
module SnapshotSender {
  import opened GenerationWork
  import opened Numbers

  /** The atomic operation a thread does next. */
  datatype Pc =
    | Storing            // pendingSnapshot.set
    | Acquiring          // snapshotInFlight.compareAndSet(false, true)
    | Taking             // pendingSnapshot.getAndSet(null)
    | Sending(snapshot: nat)
    | Awaiting           // the request is in flight
    | Clearing           // snapshotInFlight.set(false)
    | Rechecking         // pendingSnapshot.get() after clearing
    | Done

  datatype Sent = Sent(snapshot: nat, sequence: nat)

  /** `others` are the sequence numbers that events and turns took. */
  datatype State = State(
    pending: Option<nat>, inFlight: bool, counter: nat, published: nat, sent: seq<Sent>, others: seq<nat>,
    threads: seq<Pc>)

  const Initial := State(None, false, 0, 0, [], [], [])

  datatype Step =
    | Publish            // a snapshot producer enters
    | SendOther          // an event or a turn takes the next sequence number
    | Move(thread: nat)

  predicate Enabled(s: State, step: Step) {
    step.Move? ==> step.thread < |s.threads| && !s.threads[step.thread].Done?
  }

  function Apply(s: State, step: Step): State
    requires Enabled(s, step)
  {
    match step
    case Publish => s.(threads := s.threads + [Storing])
    case SendOther => s.(counter := s.counter + 1, others := s.others + [s.counter + 1])
    case Move(i) =>
      match s.threads[i]
      case Storing => Goto(s.(pending := Some(s.published), published := s.published + 1), i, Acquiring)
      case Acquiring => if s.inFlight then Goto(s, i, Done) else Goto(s.(inFlight := true), i, Taking)
      case Taking =>
        if s.pending.None? then Goto(s, i, Clearing) else Goto(s.(pending := None), i, Sending(s.pending.value))
      case Sending(n) =>
        Goto(s.(counter := s.counter + 1, sent := s.sent + [Sent(n, s.counter + 1)]), i, Awaiting)
      case Awaiting => Goto(s, i, Taking)
      case Clearing => Goto(s.(inFlight := false), i, Rechecking)
      case Rechecking => Goto(s, i, if s.pending.Some? then Acquiring else Done)
      case Done => s
  }

  function Goto(s: State, i: nat, pc: Pc): State
    requires i < |s.threads|
  {
    s.(threads := s.threads[i := pc])
  }

  // ---- the invariant --------------------------------------------------------------

  /** Between winning the flag and clearing it. */
  predicate Owns(pc: Pc) {
    pc.Taking? || pc.Sending? || pc.Awaiting? || pc.Clearing?
  }

  ghost predicate OneOwner(s: State) {
    && (forall i, j :: 0 <= i < |s.threads| && 0 <= j < |s.threads| && Owns(s.threads[i]) && Owns(s.threads[j]) ==> i == j)
    && (s.inFlight <==> exists i :: 0 <= i < |s.threads| && Owns(s.threads[i]))
  }

  /** Sends follow publication order, and their sequence numbers rise. */
  ghost predicate SentInOrder(s: State) {
    && (forall i, j :: 0 <= i < j < |s.sent| ==>
         s.sent[i].snapshot < s.sent[j].snapshot && s.sent[i].sequence < s.sent[j].sequence)
    && (forall i :: 0 <= i < |s.sent| ==> s.sent[i].snapshot < s.published && s.sent[i].sequence <= s.counter)
  }

  /** What waits or is about to be sent is newer than everything sent. */
  ghost predicate UnsentIsNewer(s: State) {
    && (s.pending.Some? ==> s.pending.value == s.published - 1)
    && (s.pending.Some? ==> forall k :: 0 <= k < |s.sent| ==> s.sent[k].snapshot < s.pending.value)
    && (forall i :: 0 <= i < |s.threads| && s.threads[i].Sending? ==>
         && s.threads[i].snapshot < s.published
         && (s.pending.Some? ==> s.threads[i].snapshot < s.pending.value)
         && forall k :: 0 <= k < |s.sent| ==> s.sent[k].snapshot < s.threads[i].snapshot)
  }

  /** The newest snapshot is waiting, about to be sent, or sent. */
  ghost predicate NewestKept(s: State) {
    s.published > 0 ==>
      || s.pending.Some?
      || (exists i :: 0 <= i < |s.threads| && s.threads[i] == Sending(s.published - 1))
      || (s.sent != [] && s.sent[|s.sent| - 1].snapshot == s.published - 1)
  }

  /** A waiting snapshot nobody is sending has a thread still to try for the flag. */
  ghost predicate NotStranded(s: State) {
    s.pending.Some? && !s.inFlight ==>
      exists i :: 0 <= i < |s.threads| && Tries(s.threads[i])
  }

  ghost predicate Inv(s: State) {
    OneOwner(s) && SentInOrder(s) && UnsentIsNewer(s) && NewestKept(s) && NotStranded(s)
  }

  // ---- each operation keeps it ----------------------------------------------------

  predicate Tries(pc: Pc) {
    pc.Acquiring? || pc.Rechecking?
  }

  /** A move of thread `i` that neither gains nor loses the flag. */
  lemma SameOwner(s: State, s': State, i: nat)
    requires OneOwner(s) && i < |s.threads| && |s'.threads| == |s.threads|
    requires forall j :: 0 <= j < |s.threads| && j != i ==> s'.threads[j] == s.threads[j]
    requires s'.inFlight == s.inFlight && (Owns(s'.threads[i]) <==> Owns(s.threads[i]))
    ensures OneOwner(s')
  {
    if s.inFlight {
      var o :| 0 <= o < |s.threads| && Owns(s.threads[o]);
      assert Owns(s'.threads[o]);
    }
  }

  lemma StoringOk(s: State, i: nat)
    requires Inv(s) && i < |s.threads| && s.threads[i].Storing?
    ensures Inv(Apply(s, Move(i)))
  {
    var s' := Apply(s, Move(i));
    SameOwner(s, s', i);
    assert Tries(s'.threads[i]);
  }

  lemma AcquiringOk(s: State, i: nat)
    requires Inv(s) && i < |s.threads| && s.threads[i].Acquiring?
    ensures Inv(Apply(s, Move(i)))
  {
    var s' := Apply(s, Move(i));
    if s.inFlight {
      SameOwner(s, s', i);
    } else {
      assert Owns(s'.threads[i]);
    }
    SendingKept(s, s', i);
  }

  /** Whoever was about to send still is. */
  lemma SendingKept(s: State, s': State, i: nat)
    requires NewestKept(s) && i < |s.threads| && |s'.threads| == |s.threads|
    requires forall j :: 0 <= j < |s.threads| && j != i ==> s'.threads[j] == s.threads[j]
    requires s'.published == s.published && s'.pending == s.pending && s'.sent == s.sent && !s.threads[i].Sending?
    ensures NewestKept(s')
  {
    if s.published > 0 && s.pending.None? && !(s.sent != [] && s.sent[|s.sent| - 1].snapshot == s.published - 1) {
      var j :| 0 <= j < |s.threads| && s.threads[j] == Sending(s.published - 1);
      assert s'.threads[j] == Sending(s.published - 1);
    }
  }

  lemma TakingOk(s: State, i: nat)
    requires Inv(s) && i < |s.threads| && s.threads[i].Taking?
    ensures Inv(Apply(s, Move(i)))
  {
    var s' := Apply(s, Move(i));
    assert Owns(s.threads[i]);
    SameOwner(s, s', i);
    if s.pending.None? {
      SendingKept(s, s', i);
    } else {
      assert s'.threads[i] == Sending(s.published - 1);
    }
  }

  lemma SendingOk(s: State, i: nat)
    requires Inv(s) && i < |s.threads| && s.threads[i].Sending?
    ensures Inv(Apply(s, Move(i)))
  {
    var s' := Apply(s, Move(i));
    assert Owns(s.threads[i]);
    SameOwner(s, s', i);
    assert s'.sent[|s.sent|] == Sent(s.threads[i].snapshot, s.counter + 1);
    assert SentInOrder(s');
    assert forall j :: 0 <= j < |s.threads| && Owns(s.threads[j]) ==> j == i;
    assert forall j :: 0 <= j < |s.threads| && s.threads[j].Sending? ==> Owns(s.threads[j]);
  }

  lemma ClearingOk(s: State, i: nat)
    requires Inv(s) && i < |s.threads| && s.threads[i].Clearing?
    ensures Inv(Apply(s, Move(i)))
  {
    var s' := Apply(s, Move(i));
    assert Owns(s.threads[i]);
    forall j | 0 <= j < |s'.threads| ensures !Owns(s'.threads[j]) {
    }
    SendingKept(s, s', i);
    assert Tries(s'.threads[i]);
  }

  /** A completed request, or a second look at the slot. */
  lemma ContinuesOk(s: State, i: nat)
    requires Inv(s) && i < |s.threads| && (s.threads[i].Awaiting? || s.threads[i].Rechecking?)
    ensures Inv(Apply(s, Move(i)))
  {
    var s' := Apply(s, Move(i));
    SameOwner(s, s', i);
    SendingKept(s, s', i);
    if s'.pending.Some? && !s'.inFlight {
      var j :| 0 <= j < |s.threads| && Tries(s.threads[j]);
      assert Tries(s'.threads[j]);
    }
  }

  lemma PublishOk(s: State)
    requires Inv(s)
    ensures Inv(Apply(s, Publish))
  {
    var s' := Apply(s, Publish);
    assert forall j :: 0 <= j < |s.threads| ==> s'.threads[j] == s.threads[j];
    if s.inFlight {
      var o :| 0 <= o < |s.threads| && Owns(s.threads[o]);
      assert Owns(s'.threads[o]);
    } else if s.pending.Some? {
      var j :| 0 <= j < |s.threads| && Tries(s.threads[j]);
      assert Tries(s'.threads[j]);
    }
    if j :| s.published > 0 && 0 <= j < |s.threads| && s.threads[j] == Sending(s.published - 1) {
      assert s'.threads[j] == Sending(s.published - 1);
    }
  }

  lemma StepOk(s: State, step: Step)
    requires Inv(s) && Enabled(s, step)
    ensures Inv(Apply(s, step))
  {
    match step
    case Publish => PublishOk(s);
    case SendOther =>
    case Move(i) =>
      match s.threads[i]
      case Storing => StoringOk(s, i);
      case Acquiring => AcquiringOk(s, i);
      case Taking => TakingOk(s, i);
      case Sending(_) => SendingOk(s, i);
      case Awaiting => ContinuesOk(s, i);
      case Clearing => ClearingOk(s, i);
      case Rechecking => ContinuesOk(s, i);
      case Done =>
  }

  // ---- whole runs -----------------------------------------------------------------

  ghost predicate Runs(s: State, steps: seq<Step>, last: State)
    decreases |steps|
  {
    if steps == [] then last == s
    else Enabled(s, steps[0]) && Runs(Apply(s, steps[0]), steps[1..], last)
  }

  lemma {:induction false} Always(s: State, steps: seq<Step>, last: State)
    requires Inv(s) && Runs(s, steps, last)
    ensures Inv(last)
    decreases |steps|
  {
    if steps != [] {
      StepOk(s, steps[0]);
      Always(Apply(s, steps[0]), steps[1..], last);
    }
  }

  /** For any number of producers and completions, interleaved anyhow: one snapshot request at a time,
      no snapshot twice, publication order kept, sequence numbers rising. */
  lemma SendsAreOrdered(steps: seq<Step>, s: State)
    requires Runs(Initial, steps, s)
    ensures forall i, j :: 0 <= i < j < |s.sent| ==>
      s.sent[i].snapshot < s.sent[j].snapshot && s.sent[i].sequence < s.sent[j].sequence
    ensures forall i :: 0 <= i < |s.sent| ==> s.sent[i].snapshot < s.published
    ensures forall i, j :: 0 <= i < j < |s.threads| && s.threads[i].Awaiting? ==> !s.threads[j].Awaiting?
  {
    Always(Initial, steps, s);
    assert forall i :: 0 <= i < |s.threads| && s.threads[i].Awaiting? ==> Owns(s.threads[i]);
  }

  /** Every number from 1 to the counter was taken, by one snapshot or by one other message. */
  ghost predicate EachNumberOnce(sent: seq<Sent>, others: seq<nat>, counter: nat) {
    && (forall i, j :: 0 <= i < j < |sent| ==> sent[i].sequence != sent[j].sequence)
    && (forall i, j :: 0 <= i < j < |others| ==> others[i] != others[j])
    && (forall i, j :: 0 <= i < |sent| && 0 <= j < |others| ==> sent[i].sequence != others[j])
    && (forall i :: 0 <= i < |sent| ==> 1 <= sent[i].sequence <= counter)
    && (forall j :: 0 <= j < |others| ==> 1 <= others[j] <= counter)
    && forall n :: 1 <= n <= counter ==> n in others || SentUnder(sent, n)
  }

  ghost predicate SentUnder(sent: seq<Sent>, n: int) {
    exists i :: 0 <= i < |sent| && sent[i].sequence == n
  }

  lemma OtherTakesNext(sent: seq<Sent>, others: seq<nat>, counter: nat)
    requires EachNumberOnce(sent, others, counter)
    ensures EachNumberOnce(sent, others + [counter + 1], counter + 1)
  {
    hide SentUnder;
    assert forall n :: n in others + [counter + 1] <==> n in others || n == counter + 1;
  }

  lemma SnapshotTakesNext(sent: seq<Sent>, others: seq<nat>, counter: nat, snapshot: nat)
    requires EachNumberOnce(sent, others, counter)
    ensures EachNumberOnce(sent + [Sent(snapshot, counter + 1)], others, counter + 1)
  {
    var after := sent + [Sent(snapshot, counter + 1)];
    assert after[|sent|].sequence == counter + 1;
    forall n | SentUnder(sent, n) ensures SentUnder(after, n) {
      var i :| 0 <= i < |sent| && sent[i].sequence == n;
      assert after[i] == sent[i];
    }
    assert SentUnder(after, counter + 1);
    hide SentUnder;
  }

  lemma NumbersGoOn(s: State, step: Step)
    requires EachNumberOnce(s.sent, s.others, s.counter) && Enabled(s, step)
    ensures var r := Apply(s, step); EachNumberOnce(r.sent, r.others, r.counter)
  {
    if step.SendOther? {
      OtherTakesNext(s.sent, s.others, s.counter);
    } else if step.Move? && s.threads[step.thread].Sending? {
      SnapshotTakesNext(s.sent, s.others, s.counter, s.threads[step.thread].snapshot);
    }
    hide EachNumberOnce;
  }

  lemma {:induction false} NumbersStayTaken(s: State, steps: seq<Step>, last: State)
    requires EachNumberOnce(s.sent, s.others, s.counter) && Runs(s, steps, last)
    ensures EachNumberOnce(last.sent, last.others, last.counter)
    decreases |steps|
  {
    hide EachNumberOnce;
    if steps != [] {
      NumbersGoOn(s, steps[0]);
      hide Apply, Enabled;
      NumbersStayTaken(Apply(s, steps[0]), steps[1..], last);
    }
  }

  /** Snapshots, events and turns share one count: no number is taken twice and none is skipped. */
  lemma NumbersUsedOnce(steps: seq<Step>, s: State)
    requires Runs(Initial, steps, s)
    ensures EachNumberOnce(s.sent, s.others, s.counter)
  {
    NumbersStayTaken(Initial, steps, s);
  }

  /** Once every thread is done, the newest published snapshot has been sent, last of all. */
  lemma NothingIsStranded(steps: seq<Step>, s: State)
    requires Runs(Initial, steps, s) && s.published > 0
    requires forall i :: 0 <= i < |s.threads| ==> s.threads[i].Done?
    ensures s.sent != [] && s.sent[|s.sent| - 1].snapshot == s.published - 1
    ensures s.pending.None? && !s.inFlight
  {
    Always(Initial, steps, s);
  }

  // ---- and every thread gets done -------------------------------------------------

  /** How far a thread is from its end or from taking the waiting snapshot. */
  function Distance(pc: Pc, waiting: bool): nat {
    match pc
    case Storing => 7
    case Sending(_) => 6
    case Awaiting => 5
    case Clearing => if waiting then 4 else 2
    case Rechecking => if waiting then 3 else 1
    case Acquiring => if waiting then 2 else 4
    case Taking => if waiting then 1 else 3
    case Done => 0
  }

  function Total(threads: seq<Pc>, waiting: bool): nat {
    if threads == [] then 0 else Distance(threads[0], waiting) + Total(threads[1..], waiting)
  }

  function StoresLeft(threads: seq<Pc>): nat {
    if threads == [] then 0 else (if threads[0].Storing? then 1 else 0) + StoresLeft(threads[1..])
  }

  /** Snapshots still to be stored or taken weigh more than everything every thread can do meanwhile. */
  function Remaining(s: State): nat {
    (2 * StoresLeft(s.threads) + if s.pending.Some? then 1 else 0) * (7 * |s.threads| + 1) + Total(s.threads, s.pending.Some?)
  }

  lemma {:induction false} TotalUpdate(threads: seq<Pc>, i: nat, pc: Pc, waiting: bool)
    requires i < |threads|
    ensures Total(threads[i := pc], waiting) == Total(threads, waiting) - Distance(threads[i], waiting) + Distance(pc, waiting)
    ensures StoresLeft(threads[i := pc])
         == StoresLeft(threads) - (if threads[i].Storing? then 1 else 0) + (if pc.Storing? then 1 else 0)
  {
    if i == 0 {
      assert threads[0 := pc][1..] == threads[1..];
    } else {
      TotalUpdate(threads[1..], i - 1, pc, waiting);
      assert threads[i := pc][1..] == threads[1..][i - 1 := pc];
    }
  }

  lemma {:induction false} TotalBound(threads: seq<Pc>, waiting: bool)
    ensures Total(threads, waiting) <= 7 * |threads|
  {
    if threads != [] {
      TotalBound(threads[1..], waiting);
    }
  }

  lemma MoveProgress(s: State, i: nat)
    requires Inv(s) && Enabled(s, Move(i))
    ensures Remaining(Apply(s, Move(i))) < Remaining(s)
  {
    var s' := Apply(s, Move(i));
    TotalUpdate(s.threads, i, s'.threads[i], s.pending.Some?);
    TotalBound(s'.threads, s'.pending.Some?);
    assert s'.threads == s.threads[i := s'.threads[i]];
    var before := 2 * StoresLeft(s.threads) + if s.pending.Some? then 1 else 0;
    var after := 2 * StoresLeft(s'.threads) + if s'.pending.Some? then 1 else 0;
    if s.threads[i].Storing? || (s.threads[i].Taking? && s.pending.Some?) {
      assert after <= before - 1;
      var n := 7 * |s.threads| + 1;
      TimesAtMost(after, before - 1, n);
      assert before * n == (before - 1) * n + n;
    } else {
      assert after == before && s'.pending.Some? == s.pending.Some?;
    }
  }

  /** With no new producer, only so many moves are left, whichever thread makes them. */
  lemma {:induction false} MovesEnd(s: State, steps: seq<Step>, last: State)
    requires Inv(s) && Runs(s, steps, last) && forall step :: step in steps ==> step.Move?
    ensures |steps| <= Remaining(s) - Remaining(last)
    decreases |steps|
  {
    if steps != [] {
      assert steps[0] in steps;
      StepOk(s, steps[0]);
      MoveProgress(s, steps[0].thread);
      MovesEnd(Apply(s, steps[0]), steps[1..], last);
    }
  }
}
