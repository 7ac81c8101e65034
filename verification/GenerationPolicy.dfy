/** What warrants a provider call, what makes work distinct, and when it is still worth doing. */
module GenerationPolicy {
  import opened GenerationWork
  import opened RouterTypes
  import E = EventStore
  import C = Conversations
  import H = RouterHandoffs
  import R = RouterAssignment
  import S = RouterStates
  import Routers

  const PROMPT_VERSION := "1"

  datatype Behaviour = Behaviour(commandId: string, expiresAtMs: int)

  /** One decided piece of work with what it is about. */
  datatype Work = Work(
    generation: Generation, worldId: string, sourceSequence: nat,
    turn: Option<C.Turn>, event: Option<E.GameEvent>, roles: seq<string>, expiredCommandId: Option<string>)

  /** What still requires foreground behaviour from one NPC. */
  datatype Focus = Focus(turn: Option<C.Turn>, event: Option<E.GameEvent>, roles: seq<string>) {
    predicate Exists() {
      turn.Some? || event.Some?
    }
  }

  datatype Reason =
    | RoutingWas(status: H.Status) | NotACandidate | TierIs(tier: Tier) | EventIs(event: E.Status)
    | AlreadyBehaving | NothingToSpeakAbout

  datatype Decision = Nothing | Suppressed(reason: Reason) | Generate(work: Work)

  // ---- claim keys -------------------------------------------------------------------

  function TriggerName(trigger: Trigger): string {
    match trigger case Turn => "turn" case Event => "event" case Promotion => "promotion" case Expiry => "expiry"
  }

  function Join(parts: seq<string>): string {
    if parts == [] then ""
    else if |parts| == 1 then parts[0]
    else parts[0] + "|" + Join(parts[1..])
  }

  function Parts(trigger: Trigger, sessionId: string, npcId: string, parts: seq<string>): seq<string> {
    [TriggerName(trigger), sessionId, npcId] + parts + [PROMPT_VERSION]
  }

  function ClaimKeyOf(trigger: Trigger, sessionId: string, npcId: string, parts: seq<string>): string {
    Join(Parts(trigger, sessionId, npcId, parts))
  }

  function Bars(s: string): nat {
    if s == [] then 0 else (if s[0] == '|' then 1 else 0) + Bars(s[1..])
  }

  function AllBars(parts: seq<string>): nat {
    if parts == [] then 0 else Bars(parts[0]) + AllBars(parts[1..])
  }

  lemma {:induction false} BarsConcat(a: string, b: string)
    ensures Bars(a + b) == Bars(a) + Bars(b)
  {
    if a == [] {
      assert a + b == b;
    } else {
      BarsConcat(a[1..], b);
      assert (a + b)[1..] == a[1..] + b;
    }
  }

  lemma {:induction false} BarsOfJoin(parts: seq<string>)
    requires parts != []
    ensures Bars(Join(parts)) == AllBars(parts) + |parts| - 1
  {
    if |parts| > 1 {
      BarsOfJoin(parts[1..]);
      var rest := Join(parts[1..]);
      BarsConcat(parts[0] + "|", rest);
      BarsConcat(parts[0], "|");
      assert Bars("|") == 1;
    } else {
      assert parts[1..] == [];
    }
  }

  lemma {:induction false} BarAt(s: string, i: nat)
    requires i < |s| && s[i] == '|'
    ensures Bars(s) > 0
  {
    if i > 0 {
      BarAt(s[1..], i - 1);
    }
  }

  /** Two joins that agree agree part by part, up to the first part with a bar. */
  lemma HeadsAgree(p: string, x: string, q: string, y: string)
    requires Bars(p) == 0 && Bars(q) == 0 && p + "|" + x == q + "|" + y
    ensures p == q && x == y
  {
    var s := p + "|" + x;
    if |p| < |q| {
      assert s[|p|] == '|' && s[|p|] == q[|p|];
      BarAt(q, |p|);
    } else if |q| < |p| {
      assert s[|q|] == '|' && s[|q|] == p[|q|];
      BarAt(p, |q|);
    }
    assert s[..|p|] == p && s[..|q|] == q && s[|p| + 1..] == x && s[|q| + 1..] == y;
  }

  lemma {:induction false} JoinInjective(a: seq<string>, b: seq<string>)
    requires a != [] && |a| == |b| && AllBars(a) == 0 && AllBars(b) == 0 && Join(a) == Join(b)
    ensures a == b
  {
    if |a| > 1 {
      HeadsAgree(a[0], Join(a[1..]), b[0], Join(b[1..]));
      JoinInjective(a[1..], b[1..]);
      assert a == [a[0]] + a[1..] && b == [b[0]] + b[1..];
    }
  }

  lemma {:induction false} JoinConcat(a: seq<string>, b: seq<string>)
    requires a != [] && b != []
    ensures Join(a + b) == Join(a) + "|" + Join(b)
  {
    if |a| == 1 {
      assert (a + b)[1..] == b;
    } else {
      JoinConcat(a[1..], b);
      assert (a + b)[1..] == a[1..] + b;
    }
  }

  lemma {:induction false} AllBarsConcat(a: seq<string>, b: seq<string>)
    ensures AllBars(a + b) == AllBars(a) + AllBars(b)
  {
    if a == [] {
      assert a + b == b;
    } else {
      AllBarsConcat(a[1..], b);
      assert (a + b)[1..] == a[1..] + b;
    }
  }

  /** The identifiers of one trigger, session and NPC included. */
  function Ids(sessionId: string, npcId: string, parts: seq<string>): seq<string> {
    [sessionId, npcId] + parts
  }

  lemma KeySplits(trigger: Trigger, sessionId: string, npcId: string, parts: seq<string>)
    ensures ClaimKeyOf(trigger, sessionId, npcId, parts)
         == TriggerName(trigger) + "|" + (Join(Ids(sessionId, npcId, parts)) + "|" + PROMPT_VERSION)
    ensures Bars(TriggerName(trigger)) == 0
  {
    var ids := Ids(sessionId, npcId, parts);
    assert Parts(trigger, sessionId, npcId, parts) == [TriggerName(trigger)] + (ids + [PROMPT_VERSION]);
    JoinConcat([TriggerName(trigger)], ids + [PROMPT_VERSION]);
    JoinConcat(ids, [PROMPT_VERSION]);
    NoBarInNames(trigger);
  }

  lemma NoBarInNames(trigger: Trigger)
    ensures Bars(TriggerName(trigger)) == 0
  {
    assert Bars("turn"[1..]) == 0 && Bars("event"[1..]) == 0;
    var name := TriggerName(trigger);
    NoBars(name);
  }

  lemma {:induction false} NoBars(s: string)
    requires forall i :: 0 <= i < |s| ==> s[i] != '|'
    ensures Bars(s) == 0
  {
    if s != [] {
      NoBars(s[1..]);
    }
  }

  /** Whatever its identifiers, a key says which trigger made it. */
  lemma KeyNamesTrigger(
      t: Trigger, s: string, n: string, p: seq<string>, t': Trigger, s': string, n': string, p': seq<string>)
    requires ClaimKeyOf(t, s, n, p) == ClaimKeyOf(t', s', n', p')
    ensures t == t' && Join(Ids(s, n, p)) == Join(Ids(s', n', p'))
  {
    KeySplits(t, s, n, p);
    KeySplits(t', s', n', p');
    var x, y := Join(Ids(s, n, p)), Join(Ids(s', n', p'));
    HeadsAgree(TriggerName(t), x + "|" + PROMPT_VERSION, TriggerName(t'), y + "|" + PROMPT_VERSION);
    assert (x + ("|" + PROMPT_VERSION))[..|x|] == x && (y + ("|" + PROMPT_VERSION))[..|y|] == y;
    assert x + "|" + PROMPT_VERSION == x + ("|" + PROMPT_VERSION) && y + "|" + PROMPT_VERSION == y + ("|" + PROMPT_VERSION);
  }

  /** No other identifiers of as many parts make this key. */
  ghost predicate Identifies(trigger: Trigger, sessionId: string, npcId: string, parts: seq<string>) {
    forall s: string, n: string, p: seq<string> ::
      |p| == |parts| && ClaimKeyOf(trigger, s, n, p) == ClaimKeyOf(trigger, sessionId, npcId, parts) ==>
        s == sessionId && n == npcId && p == parts
  }

  /** Some other identifiers make the same join: a bar can be read as a separator. */
  lemma {:induction false} BarsCanMove(ids: seq<string>) returns (other: seq<string>)
    requires |ids| >= 2 && AllBars(ids) > 0
    ensures |other| == |ids| && other != ids && Join(other) == Join(ids)
  {
    if Bars(ids[0]) > 0 {
      var i := FirstBar(ids[0]);
      var x, y := ids[0][..i], ids[0][i + 1..];
      other := [x, y + "|" + ids[1]] + ids[2..];
      MoveBar(x, y, ids[1], ids[2..]);
      assert ids[0] == x + "|" + y && ids == [ids[0], ids[1]] + ids[2..];
      assert |x| < |ids[0]|;
    } else if |ids| == 2 {
      assert ids[1..] == [ids[1]] && AllBars(ids[1..]) == Bars(ids[1]);
      var i := FirstBar(ids[1]);
      var x, y := ids[1][..i], ids[1][i + 1..];
      other := [ids[0] + "|" + x, y];
      MoveBar(ids[0], x, y, []);
      assert ids[1] == x + "|" + y && ids == [ids[0], ids[1]] + [] && other == [ids[0] + "|" + x, y] + [];
      Associate(ids[0], x, y);
    } else {
      var rest := BarsCanMove(ids[1..]);
      other := [ids[0]] + rest;
      assert other[1..] == rest;
    }
  }

  lemma Associate(a: string, b: string, c: string)
    ensures a + "|" + b + "|" + c == a + "|" + (b + "|" + c)
  {
  }

  lemma MoveBar(x: string, y: string, next: string, rest: seq<string>)
    ensures Join([x + "|" + y, next] + rest) == Join([x, y + "|" + next] + rest)
    ensures Join([x, y + "|" + next] + rest) == Join([x, y, next] + rest)
  {
    Associate(x, y, next);
    if rest == [] {
      assert [x + "|" + y, next] + rest == [x + "|" + y, next] && [x, y + "|" + next] + rest == [x, y + "|" + next];
      assert [x + "|" + y, next][1..] == [next] && [x, y + "|" + next][1..] == [y + "|" + next];
      assert ([x, y, next] + rest)[1..] == [y, next] && [y, next][1..] == [next];
    } else {
      JoinConcat([x + "|" + y, next], rest);
      JoinConcat([x, y + "|" + next], rest);
      JoinConcat([x, y, next], rest);
      assert [x + "|" + y, next][1..] == [next] && [x, y + "|" + next][1..] == [y + "|" + next];
      assert [x, y, next][1..] == [y, next] && [y, next][1..] == [next];
    }
  }

  lemma {:induction false} FirstBar(s: string) returns (i: nat)
    requires Bars(s) > 0
    ensures i < |s| && s[i] == '|' && s == s[..i] + "|" + s[i + 1..]
  {
    if s[0] == '|' {
      i := 0;
    } else {
      var j := FirstBar(s[1..]);
      i := j + 1;
    }
  }

  /** A claim key identifies its work exactly when no identifier in it contains the separator. */
  lemma KeyIdentifiesIff(trigger: Trigger, sessionId: string, npcId: string, parts: seq<string>)
    ensures Identifies(trigger, sessionId, npcId, parts) <==> AllBars(Ids(sessionId, npcId, parts)) == 0
  {
    var ids := Ids(sessionId, npcId, parts);
    if AllBars(ids) == 0 {
      forall s: string, n: string, p: seq<string> |
        |p| == |parts| && ClaimKeyOf(trigger, s, n, p) == ClaimKeyOf(trigger, sessionId, npcId, parts)
        ensures s == sessionId && n == npcId && p == parts
      {
        KeyNamesTrigger(trigger, s, n, p, trigger, sessionId, npcId, parts);
        var other := Ids(s, n, p);
        BarsOfJoin(ids);
        BarsOfJoin(other);
        JoinInjective(other, ids);
        assert other[0] == ids[0] && other[1] == ids[1] && other[2..] == p && ids[2..] == parts;
      }
    } else {
      var other := BarsCanMove(ids);
      var s, n, p := other[0], other[1], other[2..];
      assert Ids(s, n, p) == other;
      KeySplits(trigger, s, n, p);
      KeySplits(trigger, sessionId, npcId, parts);
      assert ClaimKeyOf(trigger, s, n, p) == ClaimKeyOf(trigger, sessionId, npcId, parts);
    }
  }

  /** The failing family has members: two different turns, one key. */
  lemma BarsCollide()
    ensures ClaimKeyOf(Turn, "s", "n", ["a|b", "c"]) == ClaimKeyOf(Turn, "s", "n", ["a", "b|c"])
  {
    KeySplits(Turn, "s", "n", ["a|b", "c"]);
    KeySplits(Turn, "s", "n", ["a", "b|c"]);
    JoinConcat(["s", "n"], ["a|b", "c"]);
    JoinConcat(["s", "n"], ["a", "b|c"]);
    MoveBar("a", "b", "c", []);
    assert "a" + "|" + "b" == "a|b" && "b" + "|" + "c" == "b|c";
    assert ["a|b", "c"] + [] == ["a|b", "c"] && ["a", "b|c"] + [] == ["a", "b|c"];
  }

  // ---- the identifiers work really has ------------------------------------------------

  /** Different identifiers of as many parts, ending in the same text, make this key. */
  ghost predicate Collides(trigger: Trigger, sessionId: string, npcId: string, front: seq<string>, last: string) {
    exists s: string, n: string, f: seq<string> ::
      && |f| == |front| && (s, n, f) != (sessionId, npcId, front)
      && ClaimKeyOf(trigger, s, n, f + [last]) == ClaimKeyOf(trigger, sessionId, npcId, front + [last])
  }

  lemma KeyEnds(trigger: Trigger, sessionId: string, npcId: string, front: seq<string>, last: string)
    ensures Join(Ids(sessionId, npcId, front + [last])) == Join(Ids(sessionId, npcId, front)) + "|" + last
    ensures AllBars(Ids(sessionId, npcId, front + [last])) == AllBars(Ids(sessionId, npcId, front)) + Bars(last)
  {
    var ids := Ids(sessionId, npcId, front);
    assert Ids(sessionId, npcId, front + [last]) == ids + [last];
    JoinConcat(ids, [last]);
    AllBarsConcat(ids, [last]);
    assert AllBars([last]) == Bars(last) + AllBars([last][1..]);
  }

  /** A bar before the last identifier always makes a collision that keeps that last identifier. */
  lemma BarsCollideBefore(trigger: Trigger, sessionId: string, npcId: string, front: seq<string>, last: string)
    requires AllBars(Ids(sessionId, npcId, front)) > 0
    ensures Collides(trigger, sessionId, npcId, front, last)
  {
    var ids := Ids(sessionId, npcId, front);
    var other := BarsCanMove(ids);
    var s, n, f := other[0], other[1], other[2..];
    assert Ids(s, n, f) == other && ids[0] == sessionId && ids[1] == npcId && ids[2..] == front;
    KeyEnds(trigger, s, n, f, last);
    KeyEnds(trigger, sessionId, npcId, front, last);
    KeySplits(trigger, s, n, f + [last]);
    KeySplits(trigger, sessionId, npcId, front + [last]);
    hide Join, ClaimKeyOf, AllBars;
    assert ClaimKeyOf(trigger, s, n, f + [last]) == ClaimKeyOf(trigger, sessionId, npcId, front + [last]);
  }

  /** Without bars, whatever makes the same key has the same identifiers. */
  lemma KeyTells(
      trigger: Trigger, s: string, n: string, f: seq<string>, l: string,
      sessionId: string, npcId: string, front: seq<string>, last: string)
    requires |f| == |front| && AllBars(Ids(sessionId, npcId, front)) == 0 && Bars(last) == 0
    requires ClaimKeyOf(trigger, s, n, f + [l]) == ClaimKeyOf(trigger, sessionId, npcId, front + [last])
    ensures s == sessionId && n == npcId && f == front && l == last
  {
    KeyEnds(trigger, sessionId, npcId, front, last);
    KeyIdentifiesIff(trigger, sessionId, npcId, front + [last]);
    hide ClaimKeyOf, AllBars, Bars;
    assert f == (f + [l])[..|f|] && front == (front + [last])[..|f|];
    assert l == (f + [l])[|f|] && last == (front + [last])[|f|];
  }

  ghost predicate EventKeyIdentifies(sessionId: string, npcId: string, eventId: string, revision: nat) {
    forall s: string, n: string, e: string, r: nat ::
      ClaimKeyOf(Event, s, n, [e, Decimal(r)]) == ClaimKeyOf(Event, sessionId, npcId, [eventId, Decimal(revision)]) ==>
        s == sessionId && n == npcId && e == eventId && r == revision
  }

  /** Among all real event reactions, a key identifies one exactly when its session, NPC and event
      identifiers have no bar. */
  lemma EventKeyIdentifiesIff(sessionId: string, npcId: string, eventId: string, revision: nat)
    ensures EventKeyIdentifies(sessionId, npcId, eventId, revision) <==> AllBars(Ids(sessionId, npcId, [eventId])) == 0
  {
    var last := Decimal(revision);
    DecimalSize(revision);
    assert [eventId] + [last] == [eventId, last];
    if AllBars(Ids(sessionId, npcId, [eventId])) == 0 {
      hide ClaimKeyOf, AllBars, Bars, Decimal;
      forall s: string, n: string, e: string, r: nat |
        ClaimKeyOf(Event, s, n, [e, Decimal(r)]) == ClaimKeyOf(Event, sessionId, npcId, [eventId, last])
        ensures s == sessionId && n == npcId && e == eventId && r == revision
      {
        assert [e] + [Decimal(r)] == [e, Decimal(r)];
        KeyTells(Event, s, n, [e], Decimal(r), sessionId, npcId, [eventId], last);
        DecimalInjective(r, revision);
      }
    } else {
      BarsCollideBefore(Event, sessionId, npcId, [eventId], last);
      hide ClaimKeyOf, AllBars, Bars, Decimal;
      var s, n, f :| |f| == |[eventId]| && (s, n, f) != (sessionId, npcId, [eventId])
        && ClaimKeyOf(Event, s, n, f + [last]) == ClaimKeyOf(Event, sessionId, npcId, [eventId] + [last]);
      assert f == [f[0]] && f + [last] == [f[0], last];
      assert ClaimKeyOf(Event, s, n, [f[0], Decimal(revision)]) == ClaimKeyOf(Event, sessionId, npcId, [eventId, Decimal(revision)]);
    }
  }

  ghost predicate PromotionKeyIdentifies(sessionId: string, npcId: string, sequence: nat) {
    forall s: string, n: string, q: nat ::
      ClaimKeyOf(Promotion, s, n, [Decimal(q)]) == ClaimKeyOf(Promotion, sessionId, npcId, [Decimal(sequence)]) ==>
        s == sessionId && n == npcId && q == sequence
  }

  /** The same for promotions, noticed by a numbered snapshot. */
  lemma PromotionKeyIdentifiesIff(sessionId: string, npcId: string, sequence: nat)
    ensures PromotionKeyIdentifies(sessionId, npcId, sequence) <==> AllBars(Ids(sessionId, npcId, [])) == 0
  {
    var last := Decimal(sequence);
    DecimalSize(sequence);
    assert forall l: string :: [] + [l] == [l];
    if AllBars(Ids(sessionId, npcId, [])) == 0 {
      hide ClaimKeyOf, AllBars, Bars, Decimal;
      forall s: string, n: string, q: nat |
        ClaimKeyOf(Promotion, s, n, [Decimal(q)]) == ClaimKeyOf(Promotion, sessionId, npcId, [last])
        ensures s == sessionId && n == npcId && q == sequence
      {
        KeyTells(Promotion, s, n, [], Decimal(q), sessionId, npcId, [], last);
        DecimalInjective(q, sequence);
      }
    } else {
      BarsCollideBefore(Promotion, sessionId, npcId, [], last);
      hide ClaimKeyOf, AllBars, Bars, Decimal;
      var s, n, f: seq<string> :| |f| == 0 && (s, n, f) != (sessionId, npcId, [])
        && ClaimKeyOf(Promotion, s, n, f + [last]) == ClaimKeyOf(Promotion, sessionId, npcId, [] + [last]);
      assert f == [] && ClaimKeyOf(Promotion, s, n, [Decimal(sequence)]) == ClaimKeyOf(Promotion, sessionId, npcId, [Decimal(sequence)]);
    }
  }

  ghost predicate ExpiryKeyIdentifies(sessionId: string, npcId: string, commandId: string) {
    forall s: string, n: string, c: string ::
      Bars(c) == 0 && ClaimKeyOf(Expiry, s, n, [c]) == ClaimKeyOf(Expiry, sessionId, npcId, [commandId]) ==>
        s == sessionId && n == npcId && c == commandId
  }

  /** The same for expiries: a command's identity is a digest, which never has a bar. */
  lemma ExpiryKeyIdentifiesIff(sessionId: string, npcId: string, commandId: string)
    requires Bars(commandId) == 0
    ensures ExpiryKeyIdentifies(sessionId, npcId, commandId) <==> AllBars(Ids(sessionId, npcId, [])) == 0
  {
    assert forall l: string :: [] + [l] == [l];
    if AllBars(Ids(sessionId, npcId, [])) == 0 {
      hide ClaimKeyOf, AllBars, Bars;
      forall s: string, n: string, c: string |
        Bars(c) == 0 && ClaimKeyOf(Expiry, s, n, [c]) == ClaimKeyOf(Expiry, sessionId, npcId, [commandId])
        ensures s == sessionId && n == npcId && c == commandId
      {
        KeyTells(Expiry, s, n, [], c, sessionId, npcId, [], commandId);
      }
    } else {
      BarsCollideBefore(Expiry, sessionId, npcId, [], commandId);
      hide ClaimKeyOf, AllBars, Bars;
      var s, n, f: seq<string> :| |f| == 0 && (s, n, f) != (sessionId, npcId, [])
        && ClaimKeyOf(Expiry, s, n, f + [commandId]) == ClaimKeyOf(Expiry, sessionId, npcId, [] + [commandId]);
      assert f == [] && ClaimKeyOf(Expiry, s, n, [commandId]) == ClaimKeyOf(Expiry, sessionId, npcId, [commandId]);
    }
  }

  // ---- numbers in keys ----------------------------------------------------------------

  function Digit(n: nat): char
    requires n < 10
  {
    "0123456789"[n]
  }

  /** A number as text. */
  function Decimal(n: nat): string {
    if n < 10 then [Digit(n)] else Decimal(n / 10) + [Digit(n % 10)]
  }

  lemma {:induction false} DecimalInjective(m: nat, n: nat)
    requires Decimal(m) == Decimal(n)
    ensures m == n
  {
    DecimalSize(m);
    DecimalSize(n);
    var s, t := Decimal(m), Decimal(n);
    assert s[|s| - 1] == Digit(m % 10) && t[|t| - 1] == Digit(n % 10);
    if m >= 10 && n >= 10 {
      assert s[..|s| - 1] == Decimal(m / 10) && t[..|t| - 1] == Decimal(n / 10);
      DecimalInjective(m / 10, n / 10);
    }
  }

  lemma {:induction false} DecimalSize(n: nat)
    ensures |Decimal(n)| >= 1 && (n >= 10 ==> |Decimal(n)| >= 2)
    ensures Bars(Decimal(n)) == 0
  {
    if n >= 10 {
      DecimalSize(n / 10);
      BarsConcat(Decimal(n / 10), [Digit(n % 10)]);
    }
    NoBars([Digit(n % 10)]);
  }

  // ---- decisions ------------------------------------------------------------------------

  /** The first assignment of one NPC. */
  function AssignmentOf(assignments: seq<Assignment>, npcId: string): Option<Assignment> {
    if assignments == [] then None
    else if assignments[0].npcId == npcId then Some(assignments[0])
    else AssignmentOf(assignments[1..], npcId)
  }

  function DecideForTurn(turn: C.Turn, outcome: H.Outcome): Decision {
    if outcome.status != H.ROUTED then Suppressed(RoutingWas(outcome.status))
    else match AssignmentOf(outcome.assignments, turn.targetNpcId)
      case None => Suppressed(NotACandidate)
      case Some(assignment) =>
        if assignment.tier == Ambient then Suppressed(TierIs(assignment.tier))
        else Generate(Work(
          Generation(
            Turn, turn.sessionId, turn.targetNpcId, assignment.tier,
            ClaimKeyOf(Turn, turn.sessionId, turn.targetNpcId, [turn.conversationId, turn.turnId])),
          outcome.worldId, outcome.sequence, Some(turn), None, [], None))
  }

  function DecideForPromotion(
      assignment: Assignment, outcome: H.Outcome, focus: Focus, current: Option<Behaviour>, nowMs: int): Decision
  {
    if assignment.tier == Ambient then Nothing
    else if !assignment.changed || assignment.previousTier.None? then Nothing
    else if R.TierRank(assignment.tier) <= R.TierRank(assignment.previousTier.value) then Nothing
    else if current.Some? && nowMs < current.value.expiresAtMs then Suppressed(AlreadyBehaving)
    else if !focus.Exists() then Suppressed(NothingToSpeakAbout)
    else Generate(Work(
      Generation(
        Promotion, outcome.sessionId, assignment.npcId, assignment.tier,
        ClaimKeyOf(Promotion, outcome.sessionId, assignment.npcId, [Decimal(outcome.sequence)])),
      outcome.worldId, outcome.sequence, focus.turn, focus.event, focus.roles, None))
  }

  function DecideForExpiry(
      assignment: Assignment, outcome: H.Outcome, focus: Focus, latest: Option<Behaviour>, nowMs: int): Decision
  {
    if assignment.tier == Ambient then Nothing
    else if latest.None? || nowMs < latest.value.expiresAtMs then Nothing
    else if !focus.Exists() then Suppressed(NothingToSpeakAbout)
    else Generate(Work(
      Generation(
        Expiry, outcome.sessionId, assignment.npcId, assignment.tier,
        ClaimKeyOf(Expiry, outcome.sessionId, assignment.npcId, [latest.value.commandId])),
      outcome.worldId, outcome.sequence, focus.turn, focus.event, focus.roles, Some(latest.value.commandId)))
  }

  function EventKey(event: E.GameEvent, npcId: string): string {
    ClaimKeyOf(Event, event.sessionId, npcId, [event.eventId, Decimal(event.revision)])
  }

  function EventWork(event: E.GameEvent, outcome: H.Outcome, npcId: string, roles: seq<string>, tier: Tier): Work {
    Work(
      Generation(
        Event, event.sessionId, npcId, tier, EventKey(event, npcId)),
      outcome.worldId, outcome.sequence, None, Some(event), roles, None)
  }

  /** What one NPC's part in an event warrants. */
  function DecideForPart(event: E.GameEvent, outcome: H.Outcome, npcId: string, roles: seq<string>): Decision {
    if event.IsTerminal() then Suppressed(EventIs(event.status))
    else if outcome.status != H.ROUTED then Suppressed(RoutingWas(outcome.status))
    else match AssignmentOf(outcome.assignments, npcId)
      case None => Suppressed(NotACandidate)
      case Some(assignment) =>
        if assignment.tier == Ambient then Suppressed(TierIs(assignment.tier))
        else Generate(EventWork(event, outcome, npcId, roles, assignment.tier))
  }

  type Part = (string, seq<string>)

  type Refusal = (string, Reason)

  function WorkIn(decision: Decision): seq<Work> {
    if decision.Generate? then [decision.work] else []
  }

  function RefusalIn(npcId: string, decision: Decision): seq<Refusal> {
    if decision.Suppressed? then [(npcId, decision.reason)] else []
  }

  /** The work the parts warrant, in their order. */
  function WorksFor(event: E.GameEvent, outcome: H.Outcome, parts: seq<Part>): seq<Work> {
    if parts == [] then []
    else
      var last := parts[|parts| - 1];
      var decision := DecideForPart(event, outcome, last.0, last.1);
      WorksFor(event, outcome, parts[..|parts| - 1]) + WorkIn(decision)
  }

  /** The NPCs that get none, in the order of their parts, each with its reason. */
  function RefusalsFor(event: E.GameEvent, outcome: H.Outcome, parts: seq<Part>): seq<Refusal> {
    if parts == [] then []
    else
      var last := parts[|parts| - 1];
      var decision := DecideForPart(event, outcome, last.0, last.1);
      RefusalsFor(event, outcome, parts[..|parts| - 1]) + RefusalIn(last.0, decision)
  }

  ghost predicate DistinctNpcs(parts: seq<Part>) {
    forall i, j :: 0 <= i < j < |parts| ==> parts[i].0 != parts[j].0
  }

  /** Work for this part is among the generations, or its NPC is refused for the right reason, never both. */
  ghost predicate AnsweredIn(
      event: E.GameEvent, outcome: H.Outcome, part: Part, generations: seq<Work>, refusals: seq<Refusal>)
  {
    match DecideForPart(event, outcome, part.0, part.1)
    case Generate(work) => work in generations && forall r :: r in refusals ==> r.0 != part.0
    case Suppressed(reason) =>
      (part.0, reason) in refusals && forall w :: w in generations ==> w.generation.npcId != part.0
    case Nothing => false
  }

  lemma WorkNamesPart(event: E.GameEvent, outcome: H.Outcome, npcId: string, roles: seq<string>)
    ensures var decision := DecideForPart(event, outcome, npcId, roles);
            !decision.Nothing? && (decision.Generate? ==> decision.work.generation.npcId == npcId)
  {
    hide EventKey, AssignmentOf;
  }

  lemma {:induction false} OnlyNamed(event: E.GameEvent, outcome: H.Outcome, parts: seq<Part>, npcId: string)
    requires forall i :: 0 <= i < |parts| ==> parts[i].0 != npcId
    ensures forall w :: w in WorksFor(event, outcome, parts) ==> w.generation.npcId != npcId
    ensures forall r :: r in RefusalsFor(event, outcome, parts) ==> r.0 != npcId
  {
    if parts != [] {
      var (front, last) := (parts[..|parts| - 1], parts[|parts| - 1]);
      assert forall i :: 0 <= i < |front| ==> front[i] == parts[i];
      OnlyNamed(event, outcome, front, npcId);
      WorkNamesPart(event, outcome, last.0, last.1);
      hide DecideForPart;
    }
  }

  lemma StillAnswered(
      event: E.GameEvent, outcome: H.Outcome, earlier: Part, last: Part, generations: seq<Work>, refusals: seq<Refusal>)
    requires earlier.0 != last.0
    requires AnsweredIn(event, outcome, earlier, generations, refusals)
    ensures var decision := DecideForPart(event, outcome, last.0, last.1);
            AnsweredIn(event, outcome, earlier, generations + WorkIn(decision), refusals + RefusalIn(last.0, decision))
  {
    WorkNamesPart(event, outcome, last.0, last.1);
    hide DecideForPart;
  }

  lemma LastAnswered(event: E.GameEvent, outcome: H.Outcome, last: Part, generations: seq<Work>, refusals: seq<Refusal>)
    requires forall w :: w in generations ==> w.generation.npcId != last.0
    requires forall r :: r in refusals ==> r.0 != last.0
    ensures var decision := DecideForPart(event, outcome, last.0, last.1);
            AnsweredIn(event, outcome, last, generations + WorkIn(decision), refusals + RefusalIn(last.0, decision))
  {
    WorkNamesPart(event, outcome, last.0, last.1);
    hide DecideForPart;
  }

  lemma FrontIsDistinct(parts: seq<Part>)
    requires parts != [] && DistinctNpcs(parts)
    ensures var front := parts[..|parts| - 1];
            DistinctNpcs(front) && forall i :: 0 <= i < |front| ==> front[i].0 != parts[|parts| - 1].0
  {
  }

  ghost predicate AllAnswered(
      event: E.GameEvent, outcome: H.Outcome, parts: seq<Part>, generations: seq<Work>, refusals: seq<Refusal>)
  {
    forall i :: 0 <= i < |parts| ==> AnsweredIn(event, outcome, parts[i], generations, refusals)
  }

  lemma OneMoreAnswered(
      event: E.GameEvent, outcome: H.Outcome, front: seq<Part>, last: Part, generations: seq<Work>, refusals: seq<Refusal>)
    requires forall i :: 0 <= i < |front| ==> front[i].0 != last.0
    requires AllAnswered(event, outcome, front, generations, refusals)
    requires forall w :: w in generations ==> w.generation.npcId != last.0
    requires forall r :: r in refusals ==> r.0 != last.0
    ensures var decision := DecideForPart(event, outcome, last.0, last.1);
            AllAnswered(
              event, outcome, front + [last], generations + WorkIn(decision), refusals + RefusalIn(last.0, decision))
  {
    var decision := DecideForPart(event, outcome, last.0, last.1);
    LastAnswered(event, outcome, last, generations, refusals);
    hide AnsweredIn, DecideForPart, WorkIn, RefusalIn;
    forall i | 0 <= i < |front|
      ensures AnsweredIn(event, outcome, front[i], generations + WorkIn(decision), refusals + RefusalIn(last.0, decision))
    {
      StillAnswered(event, outcome, front[i], last, generations, refusals);
    }
  }

  /** Every NPC with a part is answered exactly once: by work for it or by the reason there is none. */
  lemma {:induction false} EveryoneAnswered(event: E.GameEvent, outcome: H.Outcome, parts: seq<Part>)
    requires DistinctNpcs(parts)
    ensures AllAnswered(event, outcome, parts, WorksFor(event, outcome, parts), RefusalsFor(event, outcome, parts))
    ensures |WorksFor(event, outcome, parts)| + |RefusalsFor(event, outcome, parts)| == |parts|
  {
    if parts != [] {
      var (front, last) := (parts[..|parts| - 1], parts[|parts| - 1]);
      assert front + [last] == parts;
      hide AllAnswered, DecideForPart, WorksFor, RefusalsFor;
      FrontIsDistinct(parts);
      EveryoneAnswered(event, outcome, front);
      OnlyNamed(event, outcome, front, last.0);
      OneMoreAnswered(event, outcome, front, last, WorksFor(event, outcome, front), RefusalsFor(event, outcome, front));
      LastIsOne(event, outcome, last);
      LastIsAdded(event, outcome, parts);
    }
  }

  lemma LastIsOne(event: E.GameEvent, outcome: H.Outcome, last: Part)
    ensures var decision := DecideForPart(event, outcome, last.0, last.1);
            |WorkIn(decision)| + |RefusalIn(last.0, decision)| == 1
  {
    WorkNamesPart(event, outcome, last.0, last.1);
    hide DecideForPart;
  }

  lemma LastIsAdded(event: E.GameEvent, outcome: H.Outcome, parts: seq<Part>)
    requires parts != []
    ensures var (front, last) := (parts[..|parts| - 1], parts[|parts| - 1]);
            var decision := DecideForPart(event, outcome, last.0, last.1);
            && WorksFor(event, outcome, parts) == WorksFor(event, outcome, front) + WorkIn(decision)
            && RefusalsFor(event, outcome, parts) == RefusalsFor(event, outcome, front) + RefusalIn(last.0, decision)
  {
    hide DecideForPart;
  }

  /** These two NPCs have parts, the first before the second. */
  ghost predicate InPartOrder(parts: seq<Part>, first: string, second: string) {
    exists i, j :: 0 <= i < j < |parts| && parts[i].0 == first && parts[j].0 == second
  }

  lemma OrderGrows(front: seq<Part>, last: Part, first: string, second: string)
    ensures InPartOrder(front, first, second) ==> InPartOrder(front + [last], first, second)
    ensures (exists i :: 0 <= i < |front| && front[i].0 == first) && last.0 == second ==>
              InPartOrder(front + [last], first, second)
  {
    var parts := front + [last];
    if i, j :| 0 <= i < j < |front| && front[i].0 == first && front[j].0 == second {
      assert parts[i] == front[i] && parts[j] == front[j];
    }
    if i :| 0 <= i < |front| && front[i].0 == first && last.0 == second {
      assert parts[i] == front[i] && parts[|front|] == last;
    }
  }

  /** Work, and refusals, come in the order of the parts they answer. */
  lemma {:induction false} AnsweredInOrder(event: E.GameEvent, outcome: H.Outcome, parts: seq<Part>)
    ensures var works := WorksFor(event, outcome, parts);
      && (forall a :: 0 <= a < |works| ==> exists i :: 0 <= i < |parts| && parts[i].0 == works[a].generation.npcId)
      && (forall a, b :: 0 <= a < b < |works| ==>
            InPartOrder(parts, works[a].generation.npcId, works[b].generation.npcId))
    ensures var refusals := RefusalsFor(event, outcome, parts);
      && (forall a :: 0 <= a < |refusals| ==> exists i :: 0 <= i < |parts| && parts[i].0 == refusals[a].0)
      && (forall a, b :: 0 <= a < b < |refusals| ==> InPartOrder(parts, refusals[a].0, refusals[b].0))
  {
    if parts != [] {
      var (front, last) := (parts[..|parts| - 1], parts[|parts| - 1]);
      AnsweredInOrder(event, outcome, front);
      WorkNamesPart(event, outcome, last.0, last.1);
      LastIsAdded(event, outcome, parts);
      var (works, refusals) := (WorksFor(event, outcome, front), RefusalsFor(event, outcome, front));
      assert parts == front + [last];
      hide DecideForPart, InPartOrder, WorksFor, RefusalsFor;
      var works', refusals' := WorksFor(event, outcome, parts), RefusalsFor(event, outcome, parts);
      forall a, b | 0 <= a < b < |works'|
        ensures InPartOrder(parts, works'[a].generation.npcId, works'[b].generation.npcId)
      {
        assert works'[a] == works[a];
        OrderGrows(front, last, works'[a].generation.npcId, works'[b].generation.npcId);
      }
      forall a, b | 0 <= a < b < |refusals'| ensures InPartOrder(parts, refusals'[a].0, refusals'[b].0) {
        assert refusals'[a] == refusals[a];
        OrderGrows(front, last, refusals'[a].0, refusals'[b].0);
      }
      forall a | 0 <= a < |works'| ensures exists i :: 0 <= i < |parts| && parts[i].0 == works'[a].generation.npcId {
        NamesGrow(front, last, works'[a].generation.npcId);
      }
      forall a | 0 <= a < |refusals'| ensures exists i :: 0 <= i < |parts| && parts[i].0 == refusals'[a].0 {
        NamesGrow(front, last, refusals'[a].0);
      }
    }
  }

  lemma NamesGrow(front: seq<Part>, last: Part, name: string)
    requires last.0 == name || exists i :: 0 <= i < |front| && front[i].0 == name
    ensures exists i :: 0 <= i < |front + [last]| && (front + [last])[i].0 == name
  {
    if i :| 0 <= i < |front| && front[i].0 == name {
      assert (front + [last])[i].0 == name;
    } else {
      assert (front + [last])[|front|].0 == name;
    }
  }

  // ---- refusals in name order -----------------------------------------------------------

  function InsertByName(r: Refusal, rs: seq<Refusal>): seq<Refusal> {
    if rs == [] then [r]
    else if TextLess(rs[0].0, r.0) then [rs[0]] + InsertByName(r, rs[1..])
    else [r] + rs
  }

  function SortedByName(rs: seq<Refusal>): seq<Refusal> {
    if rs == [] then [] else InsertByName(rs[0], SortedByName(rs[1..]))
  }

  ghost predicate ByName(rs: seq<Refusal>) {
    forall i, j :: 0 <= i < j < |rs| ==> !TextLess(rs[j].0, rs[i].0)
  }

  lemma {:induction false} InsertKeepsOrder(r: Refusal, rs: seq<Refusal>)
    requires ByName(rs)
    ensures ByName(InsertByName(r, rs))
    ensures multiset(InsertByName(r, rs)) == multiset(rs) + multiset{r}
  {
    if rs == [] {
    } else if TextLess(rs[0].0, r.0) {
      InsertKeepsOrder(r, rs[1..]);
      var rest := InsertByName(r, rs[1..]);
      assert rs == [rs[0]] + rs[1..];
      forall j | 0 <= j < |rest| ensures !TextLess(rest[j].0, rs[0].0) {
        assert rest[j] in multiset(rest);
        assert rest[j] == r || rest[j] in rs[1..];
        TextTrichotomy(rs[0].0, r.0);
      }
    } else {
      forall j | 0 <= j < |rs| ensures !TextLess(rs[j].0, r.0) {
        if TextLess(rs[j].0, r.0) {
          NotBefore(rs[0].0, rs[j].0, r.0);
        }
      }
    }
  }

  lemma NotBefore(a: string, b: string, c: string)
    requires !TextLess(b, a) && TextLess(b, c)
    ensures TextLess(a, c)
  {
    TextTrichotomy(a, b);
    if TextLess(a, b) {
      TextTransitive(a, b, c);
    }
  }

  /** Sorting by name keeps every refusal. */
  lemma {:induction false} SortedIsSorted(rs: seq<Refusal>)
    ensures ByName(SortedByName(rs)) && multiset(SortedByName(rs)) == multiset(rs)
  {
    if rs != [] {
      SortedIsSorted(rs[1..]);
      InsertKeepsOrder(rs[0], SortedByName(rs[1..]));
      assert rs == [rs[0]] + rs[1..];
    }
  }

  // ---- deciding for an event ------------------------------------------------------------

  lemma OneMorePart(event: E.GameEvent, outcome: H.Outcome, parts: seq<Part>, k: nat)
    requires k < |parts|
    ensures var decision := DecideForPart(event, outcome, parts[k].0, parts[k].1);
            && WorksFor(event, outcome, parts[..k + 1])
               == WorksFor(event, outcome, parts[..k]) + (if decision.Generate? then [decision.work] else [])
            && RefusalsFor(event, outcome, parts[..k + 1])
               == RefusalsFor(event, outcome, parts[..k]) + (if decision.Suppressed? then [(parts[k].0, decision.reason)] else [])
  {
    assert parts[..k + 1][..k] == parts[..k];
    hide DecideForPart;
  }

  /** The reason no part of the event is even looked at, if there is one. */
  function AllRefused(event: E.GameEvent, outcome: H.Outcome): Option<Reason> {
    if event.IsTerminal() then Some(EventIs(event.status))
    else if outcome.status != H.ROUTED then Some(RoutingWas(outcome.status))
    else None
  }

  lemma RefusedForAll(event: E.GameEvent, outcome: H.Outcome, part: Part)
    ensures AllRefused(event, outcome).Some? ==>
              DecideForPart(event, outcome, part.0, part.1) == Suppressed(AllRefused(event, outcome).value)
  {
    hide EventWork, AssignmentOf;
  }

  /** Work in the order of the parts; refusals in that order too, or by name when one reason covers
      the whole event. */
  method DecideForEvent(event: E.GameEvent, outcome: H.Outcome, parts: seq<Part>)
    returns (generations: seq<Work>, suppressed: seq<Refusal>)
    requires DistinctNpcs(parts)
    ensures generations == WorksFor(event, outcome, parts)
    ensures AllRefused(event, outcome).None? ==> suppressed == RefusalsFor(event, outcome, parts)
    ensures AllRefused(event, outcome).Some? ==>
              ByName(suppressed) && multiset(suppressed) == multiset(RefusalsFor(event, outcome, parts))
    ensures AllAnswered(event, outcome, parts, generations, suppressed)
    ensures |generations| + |suppressed| == |parts|
  {
    EveryoneAnswered(event, outcome, parts);
    assert parts[..|parts|] == parts && parts[..0] == [];
    NothingAsked(event, outcome);
    var refused := AllRefused(event, outcome);
    hide *;
    generations, suppressed := [], [];
    for k := 0 to |parts|
      invariant generations == WorksFor(event, outcome, parts[..k])
      invariant suppressed == RefusalsFor(event, outcome, parts[..k])
    {
      var (npcId, roles) := parts[k];
      OneMorePart(event, outcome, parts, k);
      RefusedForAll(event, outcome, parts[k]);
      if refused.Some? {
        suppressed := suppressed + [(npcId, refused.value)];
      } else {
        var assignment := AssignmentOf(outcome.assignments, npcId);
        RoutedPart(event, outcome, npcId, roles);
        if assignment.None? {
          suppressed := suppressed + [(npcId, NotACandidate)];
        } else if assignment.value.tier == Ambient {
          suppressed := suppressed + [(npcId, TierIs(assignment.value.tier))];
        } else {
          generations := generations + [EventWork(event, outcome, npcId, roles, assignment.value.tier)];
        }
      }
    }
    if refused.Some? {
      SortedIsSorted(suppressed);
      SameAnswers(event, outcome, parts, generations, suppressed, SortedByName(suppressed));
      suppressed := SortedByName(suppressed);
    }
  }

  lemma NothingAsked(event: E.GameEvent, outcome: H.Outcome)
    ensures WorksFor(event, outcome, []) == [] && RefusalsFor(event, outcome, []) == []
  {
  }

  lemma RoutedPart(event: E.GameEvent, outcome: H.Outcome, npcId: string, roles: seq<string>)
    ensures AllRefused(event, outcome).None? ==>
              DecideForPart(event, outcome, npcId, roles) ==
                match AssignmentOf(outcome.assignments, npcId)
                case None => Suppressed(NotACandidate)
                case Some(assignment) =>
                  if assignment.tier == Ambient then Suppressed(TierIs(assignment.tier))
                  else Generate(EventWork(event, outcome, npcId, roles, assignment.tier))
  {
    hide EventWork, AssignmentOf;
  }

  lemma SameAnswers(
      event: E.GameEvent, outcome: H.Outcome, parts: seq<Part>, generations: seq<Work>, a: seq<Refusal>, b: seq<Refusal>)
    requires multiset(a) == multiset(b)
    ensures |a| == |b|
    ensures AllAnswered(event, outcome, parts, generations, a) ==> AllAnswered(event, outcome, parts, generations, b)
  {
    assert |multiset(a)| == |multiset(b)|;
    hide DecideForPart;
    forall r ensures r in a <==> r in b {
      assert r in a <==> r in multiset(a);
      assert r in b <==> r in multiset(b);
    }
  }

  // ---- still worth doing ----------------------------------------------------------------

  datatype Facts = Facts(
    routed: bool, assignment: Option<Assignment>, storedEvent: Option<E.GameEvent>, latestBehaviour: Option<Behaviour>)

  datatype Stale = NotRouted | GoneFromCandidates | NowIn(tier: Tier) | EventGone | EventOver | NewerRevision | NewerBehaviour

  function IsStillCurrent(work: Work, facts: Facts): Option<Stale> {
    if !facts.routed then Some(NotRouted)
    else if facts.assignment.None? then Some(GoneFromCandidates)
    else if facts.assignment.value.tier == Ambient then Some(NowIn(Ambient))
    else if work.event.Some? && facts.storedEvent.None? then Some(EventGone)
    else if work.event.Some? && facts.storedEvent.value.IsTerminal() then Some(EventOver)
    else if work.event.Some? && work.generation.trigger == Event && facts.storedEvent.value.revision != work.event.value.revision then
      Some(NewerRevision)
    else if work.generation.trigger == Expiry && facts.latestBehaviour.Some?
            && Some(facts.latestBehaviour.value.commandId) != work.expiredCommandId then Some(NewerBehaviour)
    else None
  }

  /** What the coordinator gathers about one piece of work. */
  function FactsFor(work: Work, outcome: Option<H.Outcome>, stored: Option<E.GameEvent>, latest: Option<Behaviour>): Facts {
    var routed := outcome.Some? && outcome.value.status == H.ROUTED;
    Facts(
      routed,
      if routed then AssignmentOf(outcome.value.assignments, work.generation.npcId) else None,
      if routed && work.event.Some? then stored else None,
      if routed && work.generation.trigger == Expiry then latest else None)
  }

  /** Whatever is decided, it is work a scheduler may queue and it is for the NPC asked about. */
  lemma DecidedWorkGenerates(
      turn: C.Turn, event: E.GameEvent, outcome: H.Outcome, assignment: Assignment, focus: Focus,
      behaviour: Option<Behaviour>, nowMs: int, roles: seq<string>, decision: Decision)
    requires decision == DecideForTurn(turn, outcome)
          || decision == DecideForPart(event, outcome, assignment.npcId, roles)
          || decision == DecideForPromotion(assignment, outcome, focus, behaviour, nowMs)
          || decision == DecideForExpiry(assignment, outcome, focus, behaviour, nowMs)
    ensures decision.Generate? ==>
              decision.work.generation.Generates() && (decision.work.turn.Some? || decision.work.event.Some?)
  {
    hide ClaimKeyOf, Decimal, AssignmentOf;
  }

  /** Deciding and deciding still are one question: a turn's work is still current under the latest
      outcome exactly when that outcome would decide it again, under the same claim key. */
  lemma TurnStillCurrentIff(
      turn: C.Turn, was: H.Outcome, now: H.Outcome, work: Work, stored: Option<E.GameEvent>, latest: Option<Behaviour>)
    requires DecideForTurn(turn, was) == Generate(work)
    ensures IsStillCurrent(work, FactsFor(work, Some(now), stored, latest)) == None <==> DecideForTurn(turn, now).Generate?
    ensures DecideForTurn(turn, now).Generate? ==> DecideForTurn(turn, now).work.generation.claimKey == work.generation.claimKey
  {
    hide ClaimKeyOf, AssignmentOf;
  }

  /** The same for one NPC's part in an event whose latest stored revision is `stored`. */
  lemma EventStillCurrentIff(
      event: E.GameEvent, was: H.Outcome, now: H.Outcome, npcId: string, roles: seq<string>, work: Work,
      stored: E.GameEvent, latest: Option<Behaviour>)
    requires DecideForPart(event, was, npcId, roles) == Generate(work)
    requires stored.sessionId == event.sessionId && stored.eventId == event.eventId
    ensures IsStillCurrent(work, FactsFor(work, Some(now), Some(stored), latest)) == None <==>
              && DecideForPart(stored, now, npcId, roles).Generate?
              && DecideForPart(stored, now, npcId, roles).work.generation.claimKey == work.generation.claimKey
  {
    hide AssignmentOf, EventKey;
    EventKeysDiffer(event, stored, npcId);
  }

  /** With everything before it equal, the last identifier decides the key, bars or not. */
  lemma LastIdentifierDecides(trigger: Trigger, sessionId: string, npcId: string, front: seq<string>, x: string, y: string)
    ensures ClaimKeyOf(trigger, sessionId, npcId, front + [x]) == ClaimKeyOf(trigger, sessionId, npcId, front + [y]) <==> x == y
  {
    if ClaimKeyOf(trigger, sessionId, npcId, front + [x]) == ClaimKeyOf(trigger, sessionId, npcId, front + [y]) {
      KeyNamesTrigger(trigger, sessionId, npcId, front + [x], trigger, sessionId, npcId, front + [y]);
      var ids := [sessionId, npcId] + front;
      assert Ids(sessionId, npcId, front + [x]) == ids + [x] && Ids(sessionId, npcId, front + [y]) == ids + [y];
      JoinConcat(ids, [x]);
      JoinConcat(ids, [y]);
      var head := Join(ids) + "|";
      assert (head + x)[|head|..] == x && (head + y)[|head|..] == y;
    }
  }

  /** Within one event, a key says which revision it reacts to. */
  lemma EventKeysDiffer(a: E.GameEvent, b: E.GameEvent, npcId: string)
    requires a.sessionId == b.sessionId && a.eventId == b.eventId
    ensures EventKey(a, npcId) == EventKey(b, npcId) <==> a.revision == b.revision
  {
    assert [a.eventId, Decimal(a.revision)] == [a.eventId] + [Decimal(a.revision)];
    assert [b.eventId, Decimal(b.revision)] == [a.eventId] + [Decimal(b.revision)];
    LastIdentifierDecides(Event, a.sessionId, npcId, [a.eventId], Decimal(a.revision), Decimal(b.revision));
    if Decimal(a.revision) == Decimal(b.revision) {
      DecimalInjective(a.revision, b.revision);
    }
  }

  /** For one NPC of one session, promotions share a key exactly when the same snapshot noticed
      them, and expiries exactly when the same command expired. */
  lemma RepeatsShareAKey(
      a: Assignment, b: Assignment, was: H.Outcome, now: H.Outcome, focus: Focus, current: Option<Behaviour>,
      p: Option<Behaviour>, q: Option<Behaviour>, t: int, u: int)
    requires a.npcId == b.npcId && was.sessionId == now.sessionId
    ensures var x, y := DecideForPromotion(a, was, focus, current, t), DecideForPromotion(b, now, focus, current, u);
            x.Generate? && y.Generate? ==>
              (x.work.generation.claimKey == y.work.generation.claimKey <==> was.sequence == now.sequence)
    ensures var x, y := DecideForExpiry(a, was, focus, p, t), DecideForExpiry(b, now, focus, q, u);
            x.Generate? && y.Generate? ==>
              (x.work.generation.claimKey == y.work.generation.claimKey <==> p.value.commandId == q.value.commandId)
  {
    hide ClaimKeyOf, Decimal;
    assert forall s: string :: [] + [s] == [s];
    LastIdentifierDecides(Promotion, was.sessionId, a.npcId, [], Decimal(was.sequence), Decimal(now.sequence));
    if Decimal(was.sequence) == Decimal(now.sequence) {
      DecimalInjective(was.sequence, now.sequence);
    }
    if p.Some? && q.Some? {
      LastIdentifierDecides(Expiry, was.sessionId, a.npcId, [], p.value.commandId, q.value.commandId);
    }
  }

  // ---- what each decision comes to --------------------------------------------------------

  /** A routed outcome has one assignment for each of its candidates. */
  ghost predicate OnePerNpc(assignments: seq<Assignment>) {
    forall i, j :: 0 <= i < j < |assignments| ==> assignments[i].npcId != assignments[j].npcId
  }

  /** The latest result routes this NPC to a tier that generates. */
  ghost predicate RoutedToSpeak(outcome: H.Outcome, npcId: string) {
    outcome.status == H.ROUTED &&
    exists a :: a in outcome.assignments && a.npcId == npcId && (a.tier == Focused || a.tier == Reactive)
  }

  lemma {:induction false} AssignmentIs(assignments: seq<Assignment>, npcId: string)
    requires OnePerNpc(assignments)
    ensures AssignmentOf(assignments, npcId).None? ==> forall a :: a in assignments ==> a.npcId != npcId
    ensures AssignmentOf(assignments, npcId).Some? ==>
              var found := AssignmentOf(assignments, npcId).value;
              found in assignments && found.npcId == npcId
              && forall a :: a in assignments && a.npcId == npcId ==> a == found
  {
    if assignments != [] {
      var rest := assignments[1..];
      AssignmentIs(rest, npcId);
      assert forall a :: a in assignments <==> a == assignments[0] || a in rest;
    }
  }

  /** A turn is answered exactly when its target is routed to a tier that generates; the work is the
      target's, of its session, about that turn. */
  lemma TurnDecidedIff(turn: C.Turn, outcome: H.Outcome)
    requires OnePerNpc(outcome.assignments)
    ensures DecideForTurn(turn, outcome).Generate? <==> RoutedToSpeak(outcome, turn.targetNpcId)
    ensures DecideForTurn(turn, outcome).Generate? ==>
              var work := DecideForTurn(turn, outcome).work;
              && IsFor(work.generation, Turn, turn.sessionId, turn.targetNpcId, outcome)
              && About(work, outcome, Some(turn), None, [], None)
  {
    AssignmentIs(outcome.assignments, turn.targetNpcId);
    hide ClaimKeyOf, AssignmentOf;
  }

  ghost predicate IsFor(g: Generation, trigger: Trigger, sessionId: string, npcId: string, outcome: H.Outcome) {
    && g.trigger == trigger && g.sessionId == sessionId && g.npcId == npcId
    && exists a :: a in outcome.assignments && a.npcId == npcId && a.tier == g.tier
  }

  ghost predicate About(
      work: Work, outcome: H.Outcome, turn: Option<C.Turn>, event: Option<E.GameEvent>, roles: seq<string>,
      expired: Option<string>)
  {
    && work.worldId == outcome.worldId && work.sourceSequence == outcome.sequence
    && work.turn == turn && work.event == event && work.roles == roles && work.expiredCommandId == expired
  }

  /** So is a part in an event, as long as the event has neither ended nor been cancelled. */
  lemma PartDecidedIff(event: E.GameEvent, outcome: H.Outcome, npcId: string, roles: seq<string>)
    requires OnePerNpc(outcome.assignments)
    ensures DecideForPart(event, outcome, npcId, roles).Generate? <==>
              event.status != E.Ended && event.status != E.Cancelled && RoutedToSpeak(outcome, npcId)
    ensures DecideForPart(event, outcome, npcId, roles).Generate? ==>
              var work := DecideForPart(event, outcome, npcId, roles).work;
              && IsFor(work.generation, Event, event.sessionId, npcId, outcome)
              && About(work, outcome, None, Some(event), roles, None)
  {
    AssignmentIs(outcome.assignments, npcId);
    hide ClaimKeyOf, AssignmentOf, Decimal;
  }

  predicate MovedUp(a: Assignment) {
    || (a.previousTier == Some(Ambient) && (a.tier == Reactive || a.tier == Focused))
    || (a.previousTier == Some(Reactive) && a.tier == Focused)
  }

  /** Behaviour that has not run out by `nowMs`. */
  predicate StillBehaving(behaviour: Option<Behaviour>, nowMs: int) {
    behaviour.Some? && behaviour.value.expiresAtMs > nowMs
  }

  /** For an honest assignment, a promotion is a strict rise from a known tier. It is answered exactly
      when nothing said before still runs and there is something to speak about. */
  lemma PromotionDecidedIff(assignment: Assignment, outcome: H.Outcome, focus: Focus, current: Option<Behaviour>, nowMs: int)
    requires R.HonestChange(assignment)
    ensures var decision := DecideForPromotion(assignment, outcome, focus, current, nowMs);
      && (decision == Nothing <==> !MovedUp(assignment))
      && (decision == Suppressed(AlreadyBehaving) <==> MovedUp(assignment) && StillBehaving(current, nowMs))
      && (decision.Generate? <==>
           MovedUp(assignment) && !StillBehaving(current, nowMs) && (focus.turn.Some? || focus.event.Some?))
      && (decision.Generate? && assignment in outcome.assignments ==>
           && IsFor(decision.work.generation, Promotion, outcome.sessionId, assignment.npcId, outcome)
           && decision.work.generation.tier == assignment.tier
           && About(decision.work, outcome, focus.turn, focus.event, focus.roles, None))
  {
    hide ClaimKeyOf, Decimal;
  }

  /** Expiry is answered exactly when the NPC may speak, has spoken, that has run out by now, and
      there is something to speak about. */
  lemma ExpiryDecidedIff(assignment: Assignment, outcome: H.Outcome, focus: Focus, latest: Option<Behaviour>, nowMs: int)
    ensures var decision := DecideForExpiry(assignment, outcome, focus, latest, nowMs);
      && (decision.Generate? <==>
           && (assignment.tier == Focused || assignment.tier == Reactive)
           && latest.Some? && !StillBehaving(latest, nowMs) && (focus.turn.Some? || focus.event.Some?))
      && (decision.Generate? && assignment in outcome.assignments ==>
           && IsFor(decision.work.generation, Expiry, outcome.sessionId, assignment.npcId, outcome)
           && decision.work.generation.tier == assignment.tier
           && About(decision.work, outcome, focus.turn, focus.event, focus.roles, Some(latest.value.commandId)))
  {
    hide ClaimKeyOf;
  }

  /** Work of any trigger is still current exactly when its NPC is routed to a tier that generates,
      its event, if it has one, is stored and not over, an event reaction's revision is the stored
      one, and an expiry's command is still the latest of its NPC. */
  lemma StillCurrentIff(work: Work, outcome: Option<H.Outcome>, stored: Option<E.GameEvent>, latest: Option<Behaviour>)
    requires outcome.Some? ==> OnePerNpc(outcome.value.assignments)
    ensures IsStillCurrent(work, FactsFor(work, outcome, stored, latest)) == None <==>
      && outcome.Some? && RoutedToSpeak(outcome.value, work.generation.npcId)
      && (work.event.Some? ==>
           && stored.Some? && stored.value.status != E.Ended && stored.value.status != E.Cancelled
           && (work.generation.trigger == Event ==> stored.value.revision == work.event.value.revision))
      && (work.generation.trigger == Expiry && latest.Some? ==> work.expiredCommandId == Some(latest.value.commandId))
  {
    if outcome.Some? {
      AssignmentIs(outcome.value.assignments, work.generation.npcId);
    }
    hide AssignmentOf;
  }

  /** An expiry's work is still current exactly when, some time after the latest behaviour ran out,
      the same focus would be decided on again under the same key. */
  lemma ExpiryStillCurrentIff(
      assignment: Assignment, was: H.Outcome, focus: Focus, latest: Option<Behaviour>, nowMs: int, work: Work,
      a: Assignment, now: H.Outcome, behaviour: Behaviour, laterMs: int)
    requires DecideForExpiry(assignment, was, focus, latest, nowMs) == Generate(work)
    requires now.sessionId == was.sessionId && now.status == H.ROUTED && OnePerNpc(now.assignments)
    requires a in now.assignments && a.npcId == assignment.npcId && behaviour.expiresAtMs <= laterMs
    requires focus.event.Some? ==> !focus.event.value.IsTerminal()
    ensures var again := DecideForExpiry(a, now, focus, Some(behaviour), laterMs);
            IsStillCurrent(work, FactsFor(work, Some(now), focus.event, Some(behaviour))) == None <==>
              again.Generate? && again.work.generation.claimKey == work.generation.claimKey
  {
    AssignmentIs(now.assignments, assignment.npcId);
    assert forall s: string :: [] + [s] == [s];
    LastIdentifierDecides(Expiry, was.sessionId, assignment.npcId, [], latest.value.commandId, behaviour.commandId);
    hide ClaimKeyOf, AssignmentOf;
  }

  // ---- which work a key identifies --------------------------------------------------------

  /** For one NPC, session and conversation, two answered turns share a key exactly when they are the
      same turn. */
  lemma TurnKeysDiffer(t: C.Turn, u: C.Turn, was: H.Outcome, now: H.Outcome)
    requires t.sessionId == u.sessionId && t.targetNpcId == u.targetNpcId && t.conversationId == u.conversationId
    requires DecideForTurn(t, was).Generate? && DecideForTurn(u, now).Generate?
    ensures DecideForTurn(t, was).work.generation.claimKey == DecideForTurn(u, now).work.generation.claimKey
       <==> t.turnId == u.turnId
  {
    assert [t.conversationId] + [t.turnId] == [t.conversationId, t.turnId];
    assert [t.conversationId] + [u.turnId] == [t.conversationId, u.turnId];
    LastIdentifierDecides(Turn, t.sessionId, t.targetNpcId, [t.conversationId], t.turnId, u.turnId);
    hide ClaimKeyOf, AssignmentOf;
  }

  lemma {:induction false} NoBarsIff(s: string)
    ensures Bars(s) == 0 <==> '|' !in s
  {
    if s != [] {
      NoBarsIff(s[1..]);
      assert s == [s[0]] + s[1..];
    }
  }

  lemma {:induction false} AllBarsIff(ids: seq<string>)
    ensures AllBars(ids) == 0 <==> forall i :: 0 <= i < |ids| ==> '|' !in ids[i]
  {
    if ids != [] {
      NoBarsIff(ids[0]);
      AllBarsIff(ids[1..]);
      assert ids == [ids[0]] + ids[1..];
    }
  }

  /** No answered turn but this one has this key. */
  ghost predicate TurnIdentified(turn: C.Turn, key: ClaimKey) {
    forall t: C.Turn, o: H.Outcome ::
      DecideForTurn(t, o).Generate? && DecideForTurn(t, o).work.generation.claimKey == key ==>
        && t.sessionId == turn.sessionId && t.targetNpcId == turn.targetNpcId
        && t.conversationId == turn.conversationId && t.turnId == turn.turnId
  }

  lemma TurnIds(turn: C.Turn)
    ensures AllBars(Ids(turn.sessionId, turn.targetNpcId, [turn.conversationId, turn.turnId])) == 0 <==>
              '|' !in turn.sessionId && '|' !in turn.targetNpcId && '|' !in turn.conversationId && '|' !in turn.turnId
  {
    var ids := [turn.sessionId, turn.targetNpcId, turn.conversationId, turn.turnId];
    assert Ids(turn.sessionId, turn.targetNpcId, [turn.conversationId, turn.turnId]) == ids;
    AllBarsIff(ids);
    assert ids[0] == turn.sessionId && ids[1] == turn.targetNpcId && ids[2] == turn.conversationId && ids[3] == turn.turnId;
  }

  lemma KeyOfTurn(turn: C.Turn, outcome: H.Outcome)
    ensures DecideForTurn(turn, outcome).Generate? ==>
              DecideForTurn(turn, outcome).work.generation.claimKey ==
                ClaimKeyOf(Turn, turn.sessionId, turn.targetNpcId, [turn.conversationId, turn.turnId])
  {
    hide ClaimKeyOf, AssignmentOf;
  }

  /** Routing that lets this NPC speak. */
  function Routing(outcome: H.Outcome, npcId: string, a: Assignment): H.Outcome {
    outcome.(status := H.ROUTED, assignments := [a.(npcId := npcId, tier := Focused)])
  }

  lemma RoutingLetsSpeak(outcome: H.Outcome, npcId: string, a: Assignment)
    ensures var o := Routing(outcome, npcId, a);
            o.status == H.ROUTED && AssignmentOf(o.assignments, npcId) == Some(a.(npcId := npcId, tier := Focused))
  {
  }

  /** Among all answered turns, a key identifies its turn exactly when none of its four identifiers
      contains the separator. */
  lemma TurnIdentifiedIff(turn: C.Turn, outcome: H.Outcome)
    requires DecideForTurn(turn, outcome).Generate?
    ensures TurnIdentified(turn, DecideForTurn(turn, outcome).work.generation.claimKey) <==>
              '|' !in turn.sessionId && '|' !in turn.targetNpcId && '|' !in turn.conversationId && '|' !in turn.turnId
  {
    var parts := [turn.conversationId, turn.turnId];
    var key := ClaimKeyOf(Turn, turn.sessionId, turn.targetNpcId, parts);
    KeyOfTurn(turn, outcome);
    TurnIds(turn);
    KeyIdentifiesIff(Turn, turn.sessionId, turn.targetNpcId, parts);
    var some := AssignmentOf(outcome.assignments, turn.targetNpcId).value;
    hide ClaimKeyOf, AllBars, AssignmentOf;
    if AllBars(Ids(turn.sessionId, turn.targetNpcId, parts)) == 0 {
      forall t: C.Turn, o: H.Outcome |
        DecideForTurn(t, o).Generate? && DecideForTurn(t, o).work.generation.claimKey == key
        ensures && t.sessionId == turn.sessionId && t.targetNpcId == turn.targetNpcId
                && t.conversationId == turn.conversationId && t.turnId == turn.turnId
      {
        KeyOfTurn(t, o);
        var other := [t.conversationId, t.turnId];
        assert |other| == |parts| && other == parts;
        assert other[0] == parts[0] && other[1] == parts[1];
      }
    } else {
      var s: string, n: string, p: seq<string> :|
        |p| == |parts| && ClaimKeyOf(Turn, s, n, p) == key
        && !(s == turn.sessionId && n == turn.targetNpcId && p == parts);
      var t := turn.(sessionId := s, targetNpcId := n, conversationId := p[0], turnId := p[1]);
      var o := Routing(outcome, n, some);
      RoutingLetsSpeak(outcome, n, some);
      KeyOfTurn(t, o);
      assert p == [p[0], p[1]];
      assert DecideForTurn(t, o).Generate? && DecideForTurn(t, o).work.generation.claimKey == key;
    }
  }

  /** No event reaction but this NPC's to this revision has this key. */
  ghost predicate ReactionIdentified(event: E.GameEvent, npcId: string, key: ClaimKey) {
    forall e: E.GameEvent, o: H.Outcome, n: string, roles: seq<string> ::
      DecideForPart(e, o, n, roles).Generate? && DecideForPart(e, o, n, roles).work.generation.claimKey == key ==>
        e.sessionId == event.sessionId && n == npcId && e.eventId == event.eventId && e.revision == event.revision
  }

  lemma KeyOfPart(event: E.GameEvent, outcome: H.Outcome, npcId: string, roles: seq<string>)
    ensures DecideForPart(event, outcome, npcId, roles).Generate? ==>
              DecideForPart(event, outcome, npcId, roles).work.generation.claimKey ==
                ClaimKeyOf(Event, event.sessionId, npcId, [event.eventId, Decimal(event.revision)])
  {
    hide ClaimKeyOf, AssignmentOf, Decimal;
  }

  lemma BarsBefore(sessionId: string, npcId: string, front: seq<string>)
    ensures AllBars(Ids(sessionId, npcId, front)) == 0 <==>
              '|' !in sessionId && '|' !in npcId && forall i :: 0 <= i < |front| ==> '|' !in front[i]
  {
    var ids := Ids(sessionId, npcId, front);
    AllBarsIff(ids);
    assert ids[0] == sessionId && ids[1] == npcId && forall i :: 0 <= i < |front| ==> ids[i + 2] == front[i];
    hide AllBars;
    if '|' !in sessionId && '|' !in npcId && forall i :: 0 <= i < |front| ==> '|' !in front[i] {
      forall i | 0 <= i < |ids| ensures '|' !in ids[i] {
        assert i >= 2 ==> ids[i] == front[i - 2];
      }
    }
  }

  /** Among all event reactions, a key identifies its reaction exactly when its session, NPC and event
      identifiers have no separator; the revision is a number. */
  lemma ReactionIdentifiedIff(event: E.GameEvent, outcome: H.Outcome, npcId: string, roles: seq<string>)
    requires DecideForPart(event, outcome, npcId, roles).Generate?
    ensures ReactionIdentified(event, npcId, DecideForPart(event, outcome, npcId, roles).work.generation.claimKey) <==>
              '|' !in event.sessionId && '|' !in npcId && '|' !in event.eventId
  {
    var key := ClaimKeyOf(Event, event.sessionId, npcId, [event.eventId, Decimal(event.revision)]);
    KeyOfPart(event, outcome, npcId, roles);
    BarsBefore(event.sessionId, npcId, [event.eventId]);
    EventKeyIdentifiesIff(event.sessionId, npcId, event.eventId, event.revision);
    assert [event.eventId][0] == event.eventId;
    var some := AssignmentOf(outcome.assignments, npcId).value;
    hide ClaimKeyOf, AllBars, AssignmentOf, Decimal;
    if EventKeyIdentifies(event.sessionId, npcId, event.eventId, event.revision) {
      forall e: E.GameEvent, o: H.Outcome, n: string, r: seq<string> |
        DecideForPart(e, o, n, r).Generate? && DecideForPart(e, o, n, r).work.generation.claimKey == key
        ensures e.sessionId == event.sessionId && n == npcId && e.eventId == event.eventId && e.revision == event.revision
      {
        KeyOfPart(e, o, n, r);
      }
    } else {
      var s, n, id, r: nat :|
        ClaimKeyOf(Event, s, n, [id, Decimal(r)]) == key
        && !(s == event.sessionId && n == npcId && id == event.eventId && r == event.revision);
      var e := event.(sessionId := s, eventId := id, revision := r);
      var o := Routing(outcome, n, some);
      RoutingLetsSpeak(outcome, n, some);
      KeyOfPart(e, o, n, roles);
      assert DecideForPart(e, o, n, roles).Generate? && DecideForPart(e, o, n, roles).work.generation.claimKey == key;
    }
  }

  /** A promotion noticed by this snapshot, for this NPC: what a promotion key should tell. */
  ghost predicate PromotionIdentified(outcome: H.Outcome, npcId: string, key: ClaimKey) {
    forall a: Assignment, o: H.Outcome, f: Focus, b: Option<Behaviour>, t: int ::
      DecideForPromotion(a, o, f, b, t).Generate? && DecideForPromotion(a, o, f, b, t).work.generation.claimKey == key ==>
        o.sessionId == outcome.sessionId && a.npcId == npcId && o.sequence == outcome.sequence
  }

  lemma KeyOfPromotion(a: Assignment, o: H.Outcome, f: Focus, b: Option<Behaviour>, t: int)
    ensures DecideForPromotion(a, o, f, b, t).Generate? ==>
              DecideForPromotion(a, o, f, b, t).work.generation.claimKey ==
                ClaimKeyOf(Promotion, o.sessionId, a.npcId, [Decimal(o.sequence)])
  {
    hide ClaimKeyOf, Decimal;
  }

  /** Among all answered promotions, exactly when its session and NPC identifiers have no separator. */
  lemma PromotionIdentifiedIff(a: Assignment, outcome: H.Outcome, focus: Focus, current: Option<Behaviour>, nowMs: int)
    requires DecideForPromotion(a, outcome, focus, current, nowMs).Generate?
    ensures var key := DecideForPromotion(a, outcome, focus, current, nowMs).work.generation.claimKey;
            PromotionIdentified(outcome, a.npcId, key) <==> '|' !in outcome.sessionId && '|' !in a.npcId
  {
    var key := ClaimKeyOf(Promotion, outcome.sessionId, a.npcId, [Decimal(outcome.sequence)]);
    KeyOfPromotion(a, outcome, focus, current, nowMs);
    BarsBefore(outcome.sessionId, a.npcId, []);
    PromotionKeyIdentifiesIff(outcome.sessionId, a.npcId, outcome.sequence);
    hide ClaimKeyOf, AllBars, Decimal;
    if PromotionKeyIdentifies(outcome.sessionId, a.npcId, outcome.sequence) {
      forall c: Assignment, o: H.Outcome, f: Focus, b: Option<Behaviour>, t: int |
        DecideForPromotion(c, o, f, b, t).Generate? && DecideForPromotion(c, o, f, b, t).work.generation.claimKey == key
        ensures o.sessionId == outcome.sessionId && c.npcId == a.npcId && o.sequence == outcome.sequence
      {
        KeyOfPromotion(c, o, f, b, t);
      }
    } else {
      var s, n, q: nat :|
        ClaimKeyOf(Promotion, s, n, [Decimal(q)]) == key
        && !(s == outcome.sessionId && n == a.npcId && q == outcome.sequence);
      var o := outcome.(sessionId := s, sequence := q);
      var c := a.(npcId := n);
      KeyOfPromotion(c, o, focus, current, nowMs);
      assert DecideForPromotion(c, o, focus, current, nowMs).Generate?;
      assert DecideForPromotion(c, o, focus, current, nowMs).work.generation.claimKey == key;
    }
  }

  /** The expiry of this command of this NPC; a command's identity is a digest without a separator. */
  ghost predicate ExpiryIdentified(sessionId: string, npcId: string, commandId: string, key: ClaimKey) {
    forall a: Assignment, o: H.Outcome, f: Focus, b: Behaviour, t: int ::
      '|' !in b.commandId
      && DecideForExpiry(a, o, f, Some(b), t).Generate? && DecideForExpiry(a, o, f, Some(b), t).work.generation.claimKey == key ==>
        o.sessionId == sessionId && a.npcId == npcId && b.commandId == commandId
  }

  lemma KeyOfExpiry(a: Assignment, o: H.Outcome, f: Focus, b: Behaviour, t: int)
    ensures DecideForExpiry(a, o, f, Some(b), t).Generate? ==>
              DecideForExpiry(a, o, f, Some(b), t).work.generation.claimKey ==
                ClaimKeyOf(Expiry, o.sessionId, a.npcId, [b.commandId])
  {
    hide ClaimKeyOf;
  }

  lemma ExpiryIdentifiedIff(a: Assignment, outcome: H.Outcome, focus: Focus, latest: Behaviour, nowMs: int)
    requires DecideForExpiry(a, outcome, focus, Some(latest), nowMs).Generate? && '|' !in latest.commandId
    ensures var key := DecideForExpiry(a, outcome, focus, Some(latest), nowMs).work.generation.claimKey;
            ExpiryIdentified(outcome.sessionId, a.npcId, latest.commandId, key) <==>
              '|' !in outcome.sessionId && '|' !in a.npcId
  {
    var key := ClaimKeyOf(Expiry, outcome.sessionId, a.npcId, [latest.commandId]);
    KeyOfExpiry(a, outcome, focus, latest, nowMs);
    BarsBefore(outcome.sessionId, a.npcId, []);
    NoBarsIff(latest.commandId);
    ExpiryKeyIdentifiesIff(outcome.sessionId, a.npcId, latest.commandId);
    hide ClaimKeyOf, AllBars;
    if ExpiryKeyIdentifies(outcome.sessionId, a.npcId, latest.commandId) {
      forall c: Assignment, o: H.Outcome, f: Focus, b: Behaviour, t: int |
        '|' !in b.commandId && DecideForExpiry(c, o, f, Some(b), t).Generate?
        && DecideForExpiry(c, o, f, Some(b), t).work.generation.claimKey == key
        ensures o.sessionId == outcome.sessionId && c.npcId == a.npcId && b.commandId == latest.commandId
      {
        KeyOfExpiry(c, o, f, b, t);
        NoBarsIff(b.commandId);
        hide Bars;
      }
    } else {
      var s, n, id: string :|
        Bars(id) == 0 && ClaimKeyOf(Expiry, s, n, [id]) == key
        && !(s == outcome.sessionId && n == a.npcId && id == latest.commandId);
      NoBarsIff(id);
      hide Bars;
      var (o, c, b) := (outcome.(sessionId := s), a.(npcId := n), latest.(commandId := id));
      KeyOfExpiry(c, o, focus, b, nowMs);
      assert DecideForExpiry(c, o, focus, Some(b), nowMs).Generate?;
      assert DecideForExpiry(c, o, focus, Some(b), nowMs).work.generation.claimKey == key;
    }
  }

  /** The text of a key with one or two identifiers of its own. */
  lemma KeyText(trigger: Trigger, sessionId: string, npcId: string, x: string, y: string)
    ensures var name := match trigger case Turn => "turn" case Event => "event" case Promotion => "promotion" case Expiry => "expiry";
      && ClaimKeyOf(trigger, sessionId, npcId, [x]) == name + "|" + (sessionId + "|" + (npcId + "|" + (x + "|" + "1")))
      && ClaimKeyOf(trigger, sessionId, npcId, [x, y])
           == name + "|" + (sessionId + "|" + (npcId + "|" + (x + "|" + (y + "|" + "1"))))
  {
    var name := TriggerName(trigger);
    assert Parts(trigger, sessionId, npcId, [x]) == [name, sessionId, npcId, x, "1"];
    assert Parts(trigger, sessionId, npcId, [x, y]) == [name, sessionId, npcId, x, y, "1"];
    hide Join, Parts, TriggerName;
    JoinsOn(y, ["1"]);
    JoinsOn(x, ["1"]);
    JoinsOn(x, [y, "1"]);
    JoinsOn(npcId, [x, "1"]);
    JoinsOn(npcId, [x, y, "1"]);
    JoinsOn(sessionId, [npcId, x, "1"]);
    JoinsOn(sessionId, [npcId, x, y, "1"]);
    JoinsOn(name, [sessionId, npcId, x, "1"]);
    JoinsOn(name, [sessionId, npcId, x, y, "1"]);
  }

  lemma JoinsOn(head: string, rest: seq<string>)
    requires rest != []
    ensures Join([head] + rest) == head + "|" + Join(rest)
    ensures |rest| == 1 ==> Join(rest) == rest[0]
  {
  }

  /** For an assignment whose `changed` flag is honest, as the Router's are, the guards before the
      behaviour check come down to one: the NPC moved strictly up from a tier it is known to have had. */
  lemma PromotionIffUpward(assignment: Assignment, outcome: H.Outcome, focus: Focus, current: Option<Behaviour>, nowMs: int)
    requires assignment.changed <==> assignment.previousTier.Some? && assignment.previousTier != Some(assignment.tier)
    ensures DecideForPromotion(assignment, outcome, focus, current, nowMs) == Nothing <==>
              !(assignment.previousTier.Some? && R.TierRank(assignment.tier) > R.TierRank(assignment.previousTier.value))
  {
  }

  /** Every assignment the Router returns is such a one, so on a routed result promotions are exactly
      the strict rises from the tier the Router remembered. */
  lemma RoutedPromotions(
      config: Config, snapshot: Snapshot, states: S.States, assignments: seq<Assignment>, i: nat,
      outcome: H.Outcome, focus: Focus, current: Option<Behaviour>, nowMs: int)
    requires config.Valid() && snapshot.Valid() && Routers.DecidedBy(config, snapshot, states, assignments)
    requires i < |assignments| == |snapshot.npcs|
    ensures DecideForPromotion(assignments[i], outcome, focus, current, nowMs) == Nothing <==>
              !(snapshot.npcs[i].npcId in states &&
                (match states[snapshot.npcs[i].npcId].tier
                 case Ambient => assignments[i].tier != Ambient
                 case Reactive => assignments[i].tier == Focused
                 case Focused => false))
  {
    Routers.ResultsReport(config, snapshot, states, assignments, i);
    PromotionDecidedIff(assignments[i], outcome, focus, current, nowMs);
    hide DecideForPromotion, Routers.DecidedBy;
  }
}
