/** Fitting a prompt into a token budget: shed history, then sections, then clip the trigger. */
module ContextFit {
  import opened Numbers

  datatype Name = OUTPUT_CONTRACT | TRIGGER | PROFILE | EVENT | WORLD | HISTORY

  datatype Section = Section(name: Name, body: string)

  datatype Turn = Turn(speakerType: string, text: string)

  datatype Limits = Limits(inputTokens: int)

  /** A space and an ellipsis. */
  const CLIPPED: string := " \U{2026}"

  predicate Required(name: Name) {
    name == OUTPUT_CONTRACT || name == TRIGGER
  }

  // ---- estimating ------------------------------------------------------------------

  /** Rounds up; the ratio is a positive setting. */
  function EstimateTokens(text: string, charactersPerToken: nat): (r: nat)
    requires charactersPerToken > 0
  {
    (|text| + charactersPerToken - 1) / charactersPerToken
  }

  function CharactersFor(tokens: int, charactersPerToken: nat): int {
    tokens * charactersPerToken
  }

  lemma EstimateIsCeiling(text: string, cpt: nat)
    requires cpt > 0
    ensures EstimateTokens(text, cpt) * cpt >= |text|
    ensures text != [] ==> (EstimateTokens(text, cpt) - 1) * cpt < |text|
  {
    var q, m := (|text| + cpt - 1) / cpt, (|text| + cpt - 1) % cpt;
    assert |text| + cpt - 1 == q * cpt + m;
    assert (q - 1) * cpt == q * cpt - cpt;
  }

  /** A text fits a number of tokens exactly when it is no longer than their characters. */
  lemma FitsIffShort(text: string, cpt: nat, tokens: int)
    requires cpt > 0
    ensures EstimateTokens(text, cpt) <= tokens <==> tokens >= 0 && |text| <= CharactersFor(tokens, cpt)
  {
    EstimateIsCeiling(text, cpt);
    var e := EstimateTokens(text, cpt);
    assert e >= 0 && (text == [] ==> e == 0);
    hide EstimateTokens;
    if e <= tokens {
      TimesAtMost(e, tokens, cpt);
    } else if text != [] {
      TimesAtMost(tokens, e - 1, cpt);
    }
  }

  function Tokens(sections: seq<Section>, cpt: nat): nat
    requires cpt > 0
  {
    if sections == [] then 0
    else Tokens(sections[..|sections| - 1], cpt) + EstimateTokens(sections[|sections| - 1].body, cpt)
  }

  predicate Over(sections: seq<Section>, limits: Limits, cpt: nat)
    requires cpt > 0
  {
    Tokens(sections, cpt) > limits.inputTokens
  }

  // ---- text ------------------------------------------------------------------------

  predicate IsSpace(c: char) {
    || '\U{9}' <= c <= '\U{D}' || '\U{1C}' <= c <= '\U{20}' || c == '\U{85}' || c == '\U{A0}' || c == '\U{1680}'
    || '\U{2000}' <= c <= '\U{200A}' || c == '\U{2028}' || c == '\U{2029}' || c == '\U{202F}' || c == '\U{205F}' || c == '\U{3000}'
  }

  function RStrip(text: string): (r: string)
    ensures r <= text
  {
    if text != [] && IsSpace(text[|text| - 1]) then RStrip(text[..|text| - 1]) else text
  }

  function HistoryText(turns: seq<Turn>): string {
    if turns == [] then ""
    else
      var line := turns[0].speakerType + ": " + turns[0].text;
      if |turns| == 1 then line else line + "\n" + HistoryText(turns[1..])
  }

  // ---- the ladder of contexts ---------------------------------------------------------

  /** What the builders hand over: contract and trigger first, then optional sections in priority
      order, then the history section exactly when there are turns to draw on. */
  ghost predicate Shaped(sections: seq<Section>, history: seq<Turn>) {
    && |sections| >= 2
    && sections[0].name == OUTPUT_CONTRACT && sections[0].body != []
    && sections[1].name == TRIGGER && sections[1].body != []
    && (forall i :: 2 <= i < |sections| ==> sections[i].name != OUTPUT_CONTRACT && sections[i].name != TRIGGER)
    && (forall i :: 0 <= i < |sections| - 1 ==> sections[i].name != HISTORY)
    && (sections[|sections| - 1].name == HISTORY ==> sections[|sections| - 1].body == HistoryText(history))
    && (history != [] ==> sections[|sections| - 1].name == HISTORY)
  }

  function NonEmpty(sections: seq<Section>): seq<Section> {
    if sections == [] then []
    else (if sections[0].body != [] then [sections[0]] else []) + NonEmpty(sections[1..])
  }

  function WithoutHistory(sections: seq<Section>): seq<Section> {
    if sections == [] then []
    else (if sections[0].name != HISTORY then [sections[0]] else []) + WithoutHistory(sections[1..])
  }

  /** The last `m` turns as a section, or no section at all. */
  function Suffix(history: seq<Turn>, m: nat): seq<Section>
    requires m <= |history|
  {
    if m == 0 then [] else [Section(HISTORY, HistoryText(history[|history| - m..]))]
  }

  /** Candidate contexts from the two required sections upwards: one more section a rung, then one
      more turn of history a rung. */
  function Rung(base: seq<Section>, history: seq<Turn>, k: nat): seq<Section>
    requires |base| >= 2 && k <= |base| - 2 + |history|
  {
    if k <= |base| - 2 then base[..k + 2] else base + Suffix(history, k - (|base| - 2))
  }

  ghost predicate Fits(base: seq<Section>, history: seq<Turn>, k: nat, limits: Limits, cpt: nat)
    requires cpt > 0 && |base| >= 2 && k <= |base| - 2 + |history|
  {
    !Over(Rung(base, history, k), limits, cpt)
  }

  /** What is left of the trigger when even the two required sections are too long. */
  function ClippedTrigger(contract: Section, trigger: Section, limits: Limits, cpt: nat): Section
    requires cpt > 0
  {
    var spare := CharactersFor(limits.inputTokens - EstimateTokens(contract.body, cpt), cpt);
    var room := if spare - |CLIPPED| < 0 then 0 else spare - |CLIPPED|;
    Section(TRIGGER, RStrip(trigger.body[..if room < |trigger.body| then room else |trigger.body|]) + CLIPPED)
  }

  /** The highest rung that fits, and the clipped pair only when none does. */
  ghost predicate Chosen(kept: seq<Section>, base: seq<Section>, history: seq<Turn>, limits: Limits, cpt: nat)
    requires cpt > 0 && |base| >= 2
  {
    var top := |base| - 2 + |history|;
    || (exists k :: 0 <= k <= top && kept == Rung(base, history, k) && Fits(base, history, k, limits, cpt)
          && forall j :: k < j <= top ==> !Fits(base, history, j, limits, cpt))
    || (kept == [base[0], ClippedTrigger(base[0], base[1], limits, cpt)]
          && forall j :: 0 <= j <= top ==> !Fits(base, history, j, limits, cpt))
  }

  // ---- fitting ---------------------------------------------------------------------

  ghost predicate IsBase(base: seq<Section>) {
    && |base| >= 2 && base[0].name == OUTPUT_CONTRACT && base[1].name == TRIGGER
    && forall i :: 2 <= i < |base| ==>
         base[i].name != OUTPUT_CONTRACT && base[i].name != TRIGGER && base[i].name != HISTORY
  }

  /** One line a turn, each the speaker, a colon, a space and the text, with a line break in between. */
  lemma {:induction false} HistoryLines(front: seq<Turn>, last: Turn)
    ensures HistoryText([]) == ""
    ensures HistoryText(front + [last]) ==
              (if front == [] then "" else HistoryText(front) + "\n") + (last.speakerType + ": " + last.text)
  {
    var line := last.speakerType + ": " + last.text;
    if front == [] {
      assert front + [last] == [last] && HistoryText([last]) == line;
    } else {
      HistoryLines(front[1..], last);
      assert (front + [last])[1..] == front[1..] + [last];
      var head := front[0].speakerType + ": " + front[0].text;
      if |front| > 1 {
        assert front[1..] != [] && HistoryText(front) == head + "\n" + HistoryText(front[1..]);
        Associate(head + "\n", HistoryText(front[1..]) + "\n", line);
        assert HistoryText(front) + "\n" == head + "\n" + (HistoryText(front[1..]) + "\n");
      }
    }
  }

  lemma Associate(a: string, b: string, c: string)
    ensures (a + b) + c == a + (b + c)
  {
  }

  lemma {:induction false} HistoryTextNonEmpty(turns: seq<Turn>)
    requires turns != []
    ensures HistoryText(turns) != []
  {
  }

  lemma {:induction false} NonEmptyAppend(a: seq<Section>, s: Section)
    ensures NonEmpty(a + [s]) == NonEmpty(a) + if s.body != [] then [s] else []
  {
    if a != [] {
      assert (a + [s])[1..] == a[1..] + [s];
      NonEmptyAppend(a[1..], s);
    } else {
      assert (a + [s])[1..] == [];
    }
  }

  lemma {:induction false} WithoutHistoryAppend(a: seq<Section>, s: Section)
    ensures WithoutHistory(a + [s]) == WithoutHistory(a) + if s.name != HISTORY then [s] else []
  {
    if a != [] {
      assert (a + [s])[1..] == a[1..] + [s];
      WithoutHistoryAppend(a[1..], s);
    } else {
      assert (a + [s])[1..] == [];
    }
  }

  lemma {:induction false} NoHistoryHere(a: seq<Section>)
    requires forall s :: s in a ==> s.name != HISTORY
    ensures WithoutHistory(a) == a
  {
    if a != [] {
      NoHistoryHere(a[1..]);
    }
  }

  lemma {:induction false} NonEmptyFrom(a: seq<Section>)
    ensures forall s :: s in NonEmpty(a) ==> s in a && s.body != []
  {
    if a != [] {
      NonEmptyFrom(a[1..]);
    }
  }

  ghost function BaseOf(sections: seq<Section>): seq<Section> {
    WithoutHistory(NonEmpty(sections))
  }

  lemma StartsAsBase(sections: seq<Section>, history: seq<Turn>)
    requires Shaped(sections, history)
    ensures IsBase(BaseOf(sections))
    ensures NonEmpty(sections) == BaseOf(sections) + Suffix(history, |history|)
    ensures BaseOf(sections)[0] == sections[0] && BaseOf(sections)[1] == sections[1]
  {
    var n := |sections| - 1;
    var last := sections[n];
    var front := sections[..n];
    assert sections == front + [last];
    NonEmptyAppend(front, last);
    NonEmptyFrom(front);
    NoHistoryHere(NonEmpty(front));
    WithoutHistoryAppend(NonEmpty(front), last);
    assert NonEmpty(front) + [] == NonEmpty(front);
    assert history[|history| - |history|..] == history;
    if history != [] {
      HistoryTextNonEmpty(history);
    }
    BaseIs(sections, history);
  }

  lemma LeadsNonEmpty(sections: seq<Section>)
    requires |sections| >= 2 && sections[0].body != [] && sections[1].body != []
    ensures NonEmpty(sections) == [sections[0], sections[1]] + NonEmpty(sections[2..])
  {
    assert sections[1..][1..] == sections[2..];
    assert NonEmpty(sections[1..]) == [sections[1]] + NonEmpty(sections[2..]);
  }

  lemma LeadsWithoutHistory(a: Section, b: Section, rest: seq<Section>)
    requires a.name != HISTORY && b.name != HISTORY
    ensures WithoutHistory([a, b] + rest) == [a, b] + WithoutHistory(rest)
  {
    var all := [a, b] + rest;
    assert all[1..] == [b] + rest && all[1..][1..] == rest;
    assert WithoutHistory(all[1..]) == [b] + WithoutHistory(rest);
  }

  lemma BaseShape(a: Section, b: Section, tail: seq<Section>)
    requires a.name == OUTPUT_CONTRACT && b.name == TRIGGER
    requires forall s :: s in tail ==> s.name != OUTPUT_CONTRACT && s.name != TRIGGER && s.name != HISTORY
    ensures IsBase([a, b] + tail)
  {
    var base := [a, b] + tail;
    forall i | 2 <= i < |base|
      ensures base[i].name != OUTPUT_CONTRACT && base[i].name != TRIGGER && base[i].name != HISTORY
    {
      assert base[i] == tail[i - 2];
    }
  }

  lemma TailIsOptional(sections: seq<Section>, history: seq<Turn>)
    requires Shaped(sections, history)
    ensures forall s :: s in sections[2..] ==> s.name != OUTPUT_CONTRACT && s.name != TRIGGER
  {
  }

  lemma BaseIs(sections: seq<Section>, history: seq<Turn>)
    requires Shaped(sections, history)
    ensures BaseOf(sections) == [sections[0], sections[1]] + WithoutHistory(NonEmpty(sections[2..]))
    ensures IsBase(BaseOf(sections))
  {
    LeadsNonEmpty(sections);
    var rest := NonEmpty(sections[2..]);
    LeadsWithoutHistory(sections[0], sections[1], rest);
    TailIsOptional(sections, history);
    NonEmptyFrom(sections[2..]);
    WithoutHistoryFrom(rest);
    hide NonEmpty, WithoutHistory;
    BaseShape(sections[0], sections[1], WithoutHistory(rest));
  }

  lemma {:induction false} WithoutHistoryFrom(a: seq<Section>)
    ensures forall s :: s in WithoutHistory(a) ==> s in a && s.name != HISTORY
  {
    if a != [] {
      WithoutHistoryFrom(a[1..]);
    }
  }

  lemma DropsHistory(base: seq<Section>, history: seq<Turn>, m: nat)
    requires IsBase(base) && m <= |history|
    ensures WithoutHistory(base + Suffix(history, m)) == base
  {
    NoHistoryHere(base);
    if m > 0 {
      WithoutHistoryAppend(base, Suffix(history, m)[0]);
    }
    assert base + [] == base;
  }

  lemma RungAbove(base: seq<Section>, history: seq<Turn>, m: nat)
    requires |base| >= 2 && m <= |history|
    ensures Rung(base, history, |base| - 2 + m) == base + Suffix(history, m)
  {
    assert base[..|base|] == base == base + [];
  }

  ghost predicate NoneFitsAbove(base: seq<Section>, history: seq<Turn>, k: nat, limits: Limits, cpt: nat)
    requires cpt > 0 && |base| >= 2
  {
    forall j :: k < j <= |base| - 2 + |history| ==> !Fits(base, history, j, limits, cpt)
  }

  lemma OneLower(base: seq<Section>, history: seq<Turn>, k: nat, limits: Limits, cpt: nat)
    requires cpt > 0 && |base| >= 2 && 0 < k <= |base| - 2 + |history|
    requires NoneFitsAbove(base, history, k, limits, cpt) && Over(Rung(base, history, k), limits, cpt)
    ensures NoneFitsAbove(base, history, k - 1, limits, cpt)
  {
    hide Rung, Over;
  }

  /** Drops the oldest turn while the context is over, rebuilding the history section each time. */
  method ShedHistory(
      start: seq<Section>, ghost base: seq<Section>, history: seq<Turn>, limits: Limits, cpt: nat)
    returns (kept: seq<Section>, remaining: seq<Turn>)
    requires cpt > 0 && IsBase(base) && start == base + Suffix(history, |history|)
    ensures |remaining| <= |history| && remaining == history[|history| - |remaining|..]
    ensures kept == base + Suffix(history, |remaining|)
    ensures NoneFitsAbove(base, history, |base| - 2 + |remaining|, limits, cpt)
    ensures Over(kept, limits, cpt) ==> remaining == []
  {
    kept := start;
    remaining := history;
    ghost var m := |history|;
    assert history[|history| - |history|..] == history;
    hide Over, HistoryText, WithoutHistory, IsBase, Rung;
    while Over(kept, limits, cpt) && remaining != []
      invariant m == |remaining| <= |history| && remaining == history[|history| - m..]
      invariant kept == base + Suffix(history, m)
      invariant NoneFitsAbove(base, history, |base| - 2 + m, limits, cpt)
      decreases |remaining|
    {
      RungAbove(base, history, m);
      OneLower(base, history, |base| - 2 + m, limits, cpt);
      DropsHistory(base, history, m);
      remaining := remaining[1..];
      m := m - 1;
      kept := WithoutHistory(kept);
      if remaining != [] {
        kept := kept + [Section(HISTORY, HistoryText(remaining))];
      }
      assert kept == base + Suffix(history, m);
    }
  }

  /** Drops whole sections from the far end while the context is over and its last is optional. */
  method ShedSections(base: seq<Section>, ghost history: seq<Turn>, limits: Limits, cpt: nat)
    returns (kept: seq<Section>)
    requires cpt > 0 && IsBase(base) && NoneFitsAbove(base, history, |base| - 2, limits, cpt)
    ensures 2 <= |kept| <= |base| && kept == base[..|kept|] == Rung(base, history, |kept| - 2)
    ensures NoneFitsAbove(base, history, |kept| - 2, limits, cpt)
    ensures Over(kept, limits, cpt) ==> |kept| == 2
  {
    kept := base;
    ghost var k := |base| - 2;
    assert base[..|base|] == base;
    hide Over, NoneFitsAbove;
    while Over(kept, limits, cpt) && !Required(kept[|kept| - 1].name)
      invariant 0 <= k <= |base| - 2 && kept == base[..k + 2] == Rung(base, history, k)
      invariant NoneFitsAbove(base, history, k, limits, cpt)
      decreases k
    {
      OneLower(base, history, k, limits, cpt);
      kept := kept[..|kept| - 1];
      k := k - 1;
    }
  }

  lemma Chose(base: seq<Section>, history: seq<Turn>, k: nat, limits: Limits, cpt: nat)
    requires cpt > 0 && |base| >= 2 && k <= |base| - 2 + |history| && NoneFitsAbove(base, history, k, limits, cpt)
    ensures !Over(Rung(base, history, k), limits, cpt) ==> Chosen(Rung(base, history, k), base, history, limits, cpt)
    ensures k == 0 && Over(Rung(base, history, k), limits, cpt) ==>
              Chosen([base[0], ClippedTrigger(base[0], base[1], limits, cpt)], base, history, limits, cpt)
  {
    hide Over, Rung, ClippedTrigger;
  }

  /** The loops and the clip choose the highest rung that fits. */
  method Fit(sections: seq<Section>, history: seq<Turn>, limits: Limits, cpt: nat) returns (kept: seq<Section>)
    requires cpt > 0 && Shaped(sections, history)
    ensures |BaseOf(sections)| >= 2 && Chosen(kept, BaseOf(sections), history, limits, cpt)
  {
    ghost var base := BaseOf(sections);
    StartsAsBase(sections, history);
    ghost var floor := |base| - 2;
    hide BaseOf, NonEmpty, Over, Shaped, ClippedTrigger, Suffix, Rung, Chosen, NoneFitsAbove;
    var remaining;
    kept, remaining := ShedHistory(NonEmpty(sections), base, history, limits, cpt);
    ghost var m := |remaining|;
    RungAbove(base, history, m);
    Chose(base, history, floor + m, limits, cpt);
    if !Over(kept, limits, cpt) {
      return;
    }
    NoSuffix(base, history);
    kept := ShedSections(kept, history, limits, cpt);
    Chose(base, history, |kept| - 2, limits, cpt);
    if Over(kept, limits, cpt) {
      kept := [kept[0], ClippedTrigger(kept[0], kept[1], limits, cpt)];
    }
  }

  lemma NoSuffix(base: seq<Section>, history: seq<Turn>)
    ensures base + Suffix(history, 0) == base
  {
  }

  // ---- what fitting promises ----------------------------------------------------------

  lemma {:induction false} HistoryShrinks(history: seq<Turn>, m: nat, n: nat)
    requires m <= n <= |history|
    ensures |HistoryText(history[|history| - m..])| <= |HistoryText(history[|history| - n..])|
    decreases n - m
  {
    if m < n {
      HistoryShrinks(history, m, n - 1);
      var longer := history[|history| - n..];
      assert longer[1..] == history[|history| - (n - 1)..];
    }
  }

  lemma EstimateGrows(a: string, b: string, cpt: nat)
    requires cpt > 0 && |a| <= |b|
    ensures EstimateTokens(a, cpt) <= EstimateTokens(b, cpt)
  {
    FitsIffShort(b, cpt, EstimateTokens(b, cpt));
    FitsIffShort(a, cpt, EstimateTokens(b, cpt));
  }

  lemma TokensAppend(a: seq<Section>, s: Section, cpt: nat)
    requires cpt > 0
    ensures Tokens(a + [s], cpt) == Tokens(a, cpt) + EstimateTokens(s.body, cpt)
  {
    assert (a + [s])[..|a|] == a;
  }

  /** Every rung costs at least as much as the one below, so what fits is exactly what lies at or
      below the highest rung that fits. */
  lemma LadderClimbs(base: seq<Section>, history: seq<Turn>, k: nat, cpt: nat)
    requires cpt > 0 && |base| >= 2 && k < |base| - 2 + |history|
    ensures Tokens(Rung(base, history, k), cpt) <= Tokens(Rung(base, history, k + 1), cpt)
  {
    var floor := |base| - 2;
    if k < floor {
      TokensAppend(base[..k + 2], base[k + 2], cpt);
      assert base[..k + 3] == base[..k + 2] + [base[k + 2]];
    } else {
      var m := k - floor;
      assert base[..|base|] == base;
      TokensAppend(base, Suffix(history, m + 1)[0], cpt);
      if m > 0 {
        TokensAppend(base, Suffix(history, m)[0], cpt);
        HistoryShrinks(history, m, m + 1);
        EstimateGrows(Suffix(history, m)[0].body, Suffix(history, m + 1)[0].body, cpt);
      }
    }
  }

  lemma {:induction false} LowerFits(base: seq<Section>, history: seq<Turn>, j: nat, k: nat, limits: Limits, cpt: nat)
    requires cpt > 0 && |base| >= 2 && j <= k <= |base| - 2 + |history| && Fits(base, history, k, limits, cpt)
    ensures Fits(base, history, j, limits, cpt)
    decreases k - j
  {
    if j < k {
      LadderClimbs(base, history, k - 1, cpt);
      LowerFits(base, history, j, k - 1, limits, cpt);
    }
  }

  /** The estimate stays inside the budget exactly when the two required sections fit as they are,
      or the contract fits beside a bare clip marker. */
  lemma BudgetHeldIff(kept: seq<Section>, base: seq<Section>, history: seq<Turn>, limits: Limits, cpt: nat)
    requires cpt > 0 && |base| >= 2 && Chosen(kept, base, history, limits, cpt)
    ensures Tokens(kept, cpt) <= limits.inputTokens <==>
              || EstimateTokens(base[0].body, cpt) + EstimateTokens(base[1].body, cpt) <= limits.inputTokens
              || EstimateTokens(base[0].body, cpt) + EstimateTokens(CLIPPED, cpt) <= limits.inputTokens
  {
    var top := |base| - 2 + |history|;
    PairTokens(base[0], base[1], cpt);
    assert Rung(base, history, 0) == [base[0], base[1]];
    if k :| 0 <= k <= top && kept == Rung(base, history, k) && Fits(base, history, k, limits, cpt) {
      LowerFits(base, history, 0, k, limits, cpt);
    } else {
      assert !Fits(base, history, 0, limits, cpt);
      var clipped := ClippedTrigger(base[0], base[1], limits, cpt);
      PairTokens(base[0], clipped, cpt);
      ClipFits(base[0], base[1], limits, cpt);
    }
  }

  lemma PairTokens(a: Section, b: Section, cpt: nat)
    requires cpt > 0
    ensures Tokens([a, b], cpt) == EstimateTokens(a.body, cpt) + EstimateTokens(b.body, cpt)
  {
    TokensAppend([a], b, cpt);
    TokensAppend([], a, cpt);
    assert [] + [a] == [a] && [a] + [b] == [a, b];
  }

  /** Where the cut falls: as much of the trigger as the characters left beside the marker allow, less
      the spaces it would end in. */
  ghost predicate CutAt(trigger: string, room: int, n: nat) {
    && n <= |trigger| && (n == 0 || n <= room)
    && (n > 0 ==> !IsSpace(trigger[n - 1]))
    && forall i :: n <= i < |trigger| && i < room ==> IsSpace(trigger[i])
  }

  /** The characters that end a clipped text no more than they would end a stripped one. */
  lemma SpacesAre(c: char)
    ensures IsSpace(c) <==> c in [
      '\U{9}', '\U{A}', '\U{B}', '\U{C}', '\U{D}', '\U{1C}', '\U{1D}', '\U{1E}', '\U{1F}', '\U{20}', '\U{85}',
      '\U{A0}', '\U{1680}', '\U{2000}', '\U{2001}', '\U{2002}', '\U{2003}', '\U{2004}', '\U{2005}', '\U{2006}',
      '\U{2007}', '\U{2008}', '\U{2009}', '\U{200A}', '\U{2028}', '\U{2029}', '\U{202F}', '\U{205F}', '\U{3000}']
  {
  }

  lemma {:induction false} RStripCuts(text: string)
    ensures RStrip(text) != [] ==> !IsSpace(RStrip(text)[|RStrip(text)| - 1])
    ensures forall i :: |RStrip(text)| <= i < |text| ==> IsSpace(text[i])
  {
    if text != [] && IsSpace(text[|text| - 1]) {
      RStripCuts(text[..|text| - 1]);
      assert forall i :: 0 <= i < |text| - 1 ==> text[..|text| - 1][i] == text[i];
    }
    hide IsSpace;
  }

  /** The clipped trigger is the trigger up to that cut and the marker; with it the pair fits exactly
      when the contract fits beside a bare marker. */
  lemma ClipFits(contract: Section, trigger: Section, limits: Limits, cpt: nat)
    requires cpt > 0
    ensures var clipped := ClippedTrigger(contract, trigger, limits, cpt);
            var room := (limits.inputTokens - EstimateTokens(contract.body, cpt)) * cpt - 2;
            && clipped.name == TRIGGER
            && (exists n: nat :: CutAt(trigger.body, room, n) && clipped.body == trigger.body[..n] + [' ', '\U{2026}'])
            && (EstimateTokens(contract.body, cpt) + EstimateTokens(clipped.body, cpt) <= limits.inputTokens
                <==> EstimateTokens(contract.body, cpt) + EstimateTokens(CLIPPED, cpt) <= limits.inputTokens)
  {
    var left := limits.inputTokens - EstimateTokens(contract.body, cpt);
    var spare := CharactersFor(left, cpt);
    var room := if spare - |CLIPPED| < 0 then 0 else spare - |CLIPPED|;
    var cut := trigger.body[..if room < |trigger.body| then room else |trigger.body|];
    var clipped := ClippedTrigger(contract, trigger, limits, cpt);
    var n := |RStrip(cut)|;
    assert clipped.body == RStrip(cut) + CLIPPED && RStrip(cut) == trigger.body[..n];
    FitsIffShort(clipped.body, cpt, left);
    FitsIffShort(CLIPPED, cpt, left);
    RStripCuts(cut);
    hide IsSpace, RStrip, EstimateTokens;
    assert CLIPPED == [' ', '\U{2026}'] && spare == left * cpt;
    assert CutAt(trigger.body, left * cpt - 2, n);
  }
}
