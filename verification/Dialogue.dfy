/** Dialogue bounded in UTF-16 code units, as the consumer measures it. */
module Dialogue {
  import opened GenerationWork

  const MAX_DIALOGUE_CHARACTERS := 512

  /** A Python character: any code point, a lone surrogate included. */
  type CodePoint = c: int | 0 <= c <= 0x10FFFF witness 0

  type Unit = u: int | 0 <= u <= 0xFFFF witness 0

  type Text = seq<CodePoint>

  predicate Surrogate(c: CodePoint) {
    0xD800 <= c <= 0xDFFF
  }

  /** Encoding a lone surrogate raises. */
  predicate Encodable(text: Text) {
    forall c :: c in text ==> !Surrogate(c)
  }

  // ---- UTF-16, section 2 of RFC 2781 -------------------------------------------------

  /** Section 2.1: one unit up to 0xFFFF, otherwise a high surrogate and a low one. */
  function Encode(c: CodePoint): seq<Unit> {
    if c < 0x10000 then [c]
    else
      var rest := c - 0x10000;
      [0xD800 + rest / 0x400, 0xDC00 + rest % 0x400]
  }

  function Utf16(text: Text): (units: seq<Unit>)
    ensures |text| <= |units| <= 2 * |text|
  {
    if text == [] then [] else Encode(text[0]) + Utf16(text[1..])
  }

  predicate High(u: Unit) {
    0xD800 <= u <= 0xDBFF
  }

  predicate Low(u: Unit) {
    0xDC00 <= u <= 0xDFFF
  }

  /** Section 2.2: reads units back into characters, or fails on an unpaired surrogate. */
  function Decode(units: seq<Unit>): Option<Text> {
    if units == [] then Some([])
    else if !High(units[0]) && !Low(units[0]) then
      match Decode(units[1..]) case None => None case Some(text) => Some([units[0]] + text)
    else if |units| < 2 || !High(units[0]) || !Low(units[1]) then None
    else
      match Decode(units[2..])
      case None => None
      case Some(text) =>
        var high: int, low: int := units[0], units[1];
        Some([0x10000 + (high - 0xD800) * 0x400 + (low - 0xDC00)] + text)
  }

  /** A dialogue is accepted exactly when it has between one and 512 code units. */
  lemma AcceptedIff(dialogue: Text)
    ensures DialogueAccepted(dialogue) <==> 0 < |Utf16(dialogue)| < 513
  {
  }

  /** The example of section 5: U+12345. */
  lemma EncodesTheExample()
    ensures Encode(0x12345) == [0xD808, 0xDF45] && Encode(0x3D) == [0x3D] && Encode(0xFFFF) == [0xFFFF]
  {
  }

  /** Section 2.2 inverts section 2.1 one character at a time. */
  lemma DecodeFirst(c: CodePoint, rest: seq<Unit>, text: Text)
    requires !Surrogate(c) && Decode(rest) == Some(text)
    ensures Decode(Encode(c) + rest) == Some([c] + text)
  {
    var units := Encode(c) + rest;
    if c < 0x10000 {
      assert units[1..] == rest && !High(units[0]) && !Low(units[0]);
    } else {
      var r := c - 0x10000;
      var high: int, low: int := units[0], units[1];
      assert units[2..] == rest && high == 0xD800 + r / 0x400 && low == 0xDC00 + r % 0x400;
      assert High(units[0]) && Low(units[1]);
      assert 0x10000 + (high - 0xD800) * 0x400 + (low - 0xDC00) == c;
    }
  }

  /** What is encoded is read back unchanged. */
  lemma {:induction false} RoundTrip(text: Text)
    requires Encodable(text)
    ensures Decode(Utf16(text)) == Some(text)
  {
    if text != [] {
      RoundTrip(text[1..]);
      hide Decode, Encode;
      DecodeFirst(text[0], Utf16(text[1..]), text[1..]);
      assert [text[0]] + text[1..] == text;
    }
  }

  function ConsumerLength(text: Text): (n: nat)
    ensures |text| <= n <= 2 * |text|
  {
    |Utf16(text)|
  }

  lemma {:induction false} Utf16Concat(a: Text, b: Text)
    ensures Utf16(a + b) == Utf16(a) + Utf16(b)
  {
    hide Encode;
    if a == [] {
      assert a + b == b;
    } else {
      var first, rest, tail := Encode(a[0]), Utf16(a[1..]), Utf16(b);
      Utf16Concat(a[1..], b);
      assert (a + b)[1..] == a[1..] + b && (a + b)[0] == a[0];
      assert Utf16(a + b) == first + (rest + tail);
      Associate(first, rest, tail);
    }
  }

  lemma Associate(a: seq<Unit>, b: seq<Unit>, c: seq<Unit>)
    ensures a + (b + c) == (a + b) + c
  {
  }

  lemma OneMore(text: Text, i: nat)
    requires i < |text|
    ensures Utf16(text[..i + 1]) == Utf16(text[..i]) + Encode(text[i])
  {
    Utf16Concat(text[..i], [text[i]]);
    assert text[..i + 1] == text[..i] + [text[i]];
    assert Utf16([text[i]]) == Encode(text[i]) + Utf16([]);
  }

  /** Longer prefixes have more units, and their units begin alike. */
  lemma PrefixUnits(text: Text, i: nat, j: nat)
    requires i <= j <= |text|
    ensures Utf16(text[..i]) <= Utf16(text[..j])
    ensures i < j ==> ConsumerLength(text[..i]) < ConsumerLength(text[..j])
  {
    assert text[..j] == text[..i] + text[i..j];
    Utf16Concat(text[..i], text[i..j]);
    if i < j {
      assert ConsumerLength(text[i..j]) >= 1;
    }
  }

  // ---- bounding --------------------------------------------------------------------

  /** The longest prefix of whole characters within the bound. */
  ghost predicate LongestWithin(kept: Text, text: Text, bound: nat) {
    && kept <= text && ConsumerLength(kept) <= bound
    && forall n :: |kept| < n <= |text| ==> ConsumerLength(text[..n]) > bound
  }

  lemma StopsHere(text: Text, i: nat, bound: nat)
    requires i < |text| && ConsumerLength(text[..i]) <= bound
    requires ConsumerLength(text[..i]) + |Encode(text[i])| > bound
    ensures LongestWithin(text[..i], text, bound)
  {
    OneMore(text, i);
    forall n | i < n <= |text| ensures ConsumerLength(text[..n]) > bound {
      PrefixUnits(text, i + 1, n);
    }
  }

  /** Raises on text that cannot be encoded; otherwise keeps the longest prefix that fits. */
  method BoundedDialogue(text: Text) returns (r: Option<Text>)
    ensures r.Some? <==> Encodable(text)
    ensures r.Some? ==> LongestWithin(r.value, text, 512)
    ensures r.Some? && |Utf16(text)| <= 512 ==> r.value == text
  {
    if !Encodable(text) {
      return None;
    }
    if ConsumerLength(text) <= MAX_DIALOGUE_CHARACTERS {
      return Some(text);
    }
    var kept: Text := [];
    var remaining := MAX_DIALOGUE_CHARACTERS;
    var i := 0;
    assert text[..|text|] == text;
    hide Utf16;
    assert Utf16([]) == [] by { NoUnits(); }
    while i < |text|
      invariant i <= |text| && kept == text[..i]
      invariant remaining == MAX_DIALOGUE_CHARACTERS - ConsumerLength(kept) >= 0
    {
      var width := ConsumerLength([text[i]]);
      OneMore(text, i);
      SingleUnits(text[i]);
      if width > remaining {
        StopsHere(text, i, MAX_DIALOGUE_CHARACTERS);
        return Some(kept);
      }
      kept := kept + [text[i]];
      remaining := remaining - width;
      i := i + 1;
    }
    return Some(kept);
  }

  lemma NoUnits()
    ensures Utf16([]) == []
  {
  }

  lemma SingleUnits(c: CodePoint)
    ensures Utf16([c]) == Encode(c)
  {
    assert Utf16([c]) == Encode(c) + Utf16([]);
  }

  predicate DialogueAccepted(dialogue: Text) {
    1 <= ConsumerLength(dialogue) <= MAX_DIALOGUE_CHARACTERS
  }

  /** Bounding never splits a surrogate pair, is what any shorter cut extends to, and turns every
      non-empty text into a dialogue the command accepts. */
  lemma BoundedIsSound(kept: Text, text: Text)
    requires Encodable(text) && LongestWithin(kept, text, 512)
    ensures Utf16(kept) <= Utf16(text) && Decode(Utf16(kept)) == Some(kept)
    ensures forall p: Text :: p <= text && |Utf16(p)| <= 512 ==> p <= kept
    ensures text != [] ==> kept != [] && DialogueAccepted(kept)
    ensures 511 <= |Utf16(kept)| <= 512 || (kept == text && |Utf16(kept)| <= 512)
  {
    assert kept == text[..|kept|] && text == text[..|text|];
    PrefixUnits(text, |kept|, |text|);
    RoundTrip(kept);
    forall p: Text | p <= text && |Utf16(p)| <= 512 ensures p <= kept {
      assert p == text[..|p|];
    }
    if |kept| < |text| {
      OneMore(text, |kept|);
      assert ConsumerLength(text[..|kept| + 1]) > MAX_DIALOGUE_CHARACTERS;
    }
  }
}
