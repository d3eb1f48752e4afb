// The JSON value grammar of RFC 8259, sections 2 to 7, over positions in a line of bytes. Skipped strings are
// not checked inside, except for object keys with escapes, and a nesting budget bounds arrays and objects.
module JsonGrammar {
  import opened Folds

  type Byte = b: int | 0 <= b < 256

  const QUOTE: Byte := 34
  const BACKSLASH: Byte := 92
  const OPEN_BRACKET: Byte := 91
  const CLOSE_BRACKET: Byte := 93
  const OPEN_BRACE: Byte := 123
  const CLOSE_BRACE: Byte := 125
  const COMMA: Byte := 44
  const COLON: Byte := 58
  const MINUS: Byte := 45
  const PLUS: Byte := 43
  const DOT: Byte := 46
  const ZERO: Byte := 48
  const NINE: Byte := 57
  const TRUE_WORD: seq<Byte> := [116, 114, 117, 101]
  const FALSE_WORD: seq<Byte> := [102, 97, 108, 115, 101]
  const NULL_WORD: seq<Byte> := [110, 117, 108, 108]

  predicate IsSpace(b: Byte) {
    b == 32 || b == 9 || b == 10 || b == 13
  }

  predicate IsDigit(b: Byte) {
    ZERO <= b <= NINE
  }

  predicate IsExponent(b: Byte) {
    b == 101 || b == 69
  }

  /** The first position at or after i that holds no space. */
  function SkipSpaces(data: seq<Byte>, i: nat): (j: nat)
    requires i <= |data|
    ensures i <= j <= |data|
    ensures Spaces(data, i, j) && (j == |data| || !IsSpace(data[j]))
    decreases |data| - i
  {
    if i < |data| && IsSpace(data[i]) then SkipSpaces(data, i + 1) else i
  }

  predicate Spaces(data: seq<Byte>, i: nat, j: nat) {
    i <= j <= |data| && forall k :: i <= k < j ==> IsSpace(data[k])
  }

  /** Spaces up to something that is not one end where SkipSpaces stops. */
  lemma {:induction false} SpacesEnd(data: seq<Byte>, i: nat, j: nat)
    requires Spaces(data, i, j) && (j == |data| || !IsSpace(data[j]))
    ensures SkipSpaces(data, i) == j
    decreases j - i
  {
    if i < j {
      SpacesEnd(data, i + 1, j);
    }
  }

  // Strings.

  /** A left-to-right scanner with an escape flag: where the string being read closes. */
  function Scan(data: seq<Byte>, at: nat, escaped: bool): (r: Option<nat>)
    ensures r.Some? ==> at <= r.value < |data| && data[r.value] == QUOTE
    decreases |data| - at
  {
    if at >= |data| then None
    else if escaped then Scan(data, at + 1, false)
    else if data[at] == BACKSLASH then Scan(data, at + 1, true)
    else if data[at] == QUOTE then Some(at)
    else Scan(data, at + 1, false)
  }

  /** The backslashes that stand right before position at, looking back no further than start. */
  function Slashes(data: seq<Byte>, start: nat, at: nat): nat
    requires start <= at <= |data|
    decreases at - start
  {
    if at > start && data[at - 1] == BACKSLASH then 1 + Slashes(data, start, at - 1) else 0
  }

  /** Up to a position before which no quote closed the string, the scanner's escape flag is the parity of the
      backslashes standing there. */
  lemma {:induction false} ScanResumes(data: seq<Byte>, start: nat, at: nat)
    requires start <= at <= |data|
    requires forall k :: start <= k < at && data[k] == QUOTE ==> Slashes(data, start, k) % 2 == 1
    ensures Scan(data, start, false) == Scan(data, at, Slashes(data, start, at) % 2 == 1)
    decreases at - start
  {
    if at > start {
      ScanResumes(data, start, at - 1);
    }
  }

  predicate String(data: seq<Byte>, i: nat, j: nat) {
    i + 1 < j <= |data| && data[i] == QUOTE && Scan(data, i + 1, false) == Some((j - 1) as nat)
  }

  predicate IsHex(b: Byte) {
    IsDigit(b) || 97 <= b <= 102 || 65 <= b <= 70
  }

  /** The inside of a string, from i to j, holds no control byte and only escapes of RFC 8259 section 7. */
  predicate Decodes(data: seq<Byte>, i: nat, j: nat)
    requires i <= j <= |data|
    decreases j - i
  {
    if i == j then true
    else if data[i] == BACKSLASH then
      && i + 1 < j
      && if data[i + 1] == 117 then
           i + 6 <= j && (forall k :: i + 2 <= k < i + 6 ==> IsHex(data[k])) && Decodes(data, i + 6, j)
         else
           data[i + 1] in {QUOTE, BACKSLASH, 47, 98, 102, 110, 114, 116} && Decodes(data, i + 2, j)
    else data[i] >= 32 && data[i] != QUOTE && Decodes(data, i + 1, j)
  }

  predicate HasEscape(data: seq<Byte>, i: nat, j: nat)
    requires i <= j <= |data|
  {
    exists k :: i <= k < j && data[k] == BACKSLASH
  }

  /** An object key; only one with escapes is checked inside. */
  predicate Key(data: seq<Byte>, i: nat, j: nat) {
    String(data, i, j) && (HasEscape(data, i + 1, j - 1) ==> Decodes(data, i + 1, j - 1))
  }

  // Numbers.

  predicate Digits(data: seq<Byte>, i: nat, j: nat) {
    i <= j <= |data| && forall k :: i <= k < j ==> IsDigit(data[k])
  }

  predicate Whole(data: seq<Byte>, i: nat, j: nat) {
    i < j <= |data| && ((data[i] == ZERO && j == i + 1) || (data[i] != ZERO && Digits(data, i, j)))
  }

  predicate Fraction(data: seq<Byte>, i: nat, j: nat) {
    i <= j <= |data| && (i < j ==> data[i] == DOT && i + 2 <= j && Digits(data, i + 1, j))
  }

  predicate Exponent(data: seq<Byte>, i: nat, j: nat) {
    && i <= j <= |data|
    && (i < j ==>
          && IsExponent(data[i]) && i + 1 < j
          && var s := if data[i + 1] == PLUS || data[i + 1] == MINUS then i + 2 else i + 1;
             s < j && Digits(data, s, j))
  }

  function Unsigned(data: seq<Byte>, i: nat): (m: nat)
    requires i <= |data|
    ensures i <= m <= |data|
  {
    if i < |data| && data[i] == MINUS then i + 1 else i
  }

  ghost predicate Number(data: seq<Byte>, i: nat, j: nat) {
    && i <= j <= |data|
    && exists a: nat, b: nat :: Whole(data, Unsigned(data, i), a) && Fraction(data, a, b) && Exponent(data, b, j)
  }

  /** Whether what stands at j ends a number there. */
  predicate Delimited(data: seq<Byte>, j: nat) {
    j >= |data| || (!IsDigit(data[j]) && data[j] != DOT && !IsExponent(data[j]))
  }

  function DigitsEnd(data: seq<Byte>, i: nat): (j: nat)
    requires i <= |data|
    ensures Digits(data, i, j) && (j == |data| || !IsDigit(data[j]))
    decreases |data| - i
  {
    if i < |data| && IsDigit(data[i]) then DigitsEnd(data, i + 1) else i
  }

  lemma {:induction false} DigitsStop(data: seq<Byte>, i: nat, j: nat)
    requires Digits(data, i, j) && (j == |data| || !IsDigit(data[j]))
    ensures DigitsEnd(data, i) == j
    decreases j - i
  {
    if i < j {
      DigitsStop(data, i + 1, j);
    }
  }

  // Where the longest whole part, fraction and exponent at a position end, when there is one.

  function WholeEnd(data: seq<Byte>, i: nat): (r: Option<nat>)
    requires i <= |data|
    ensures r.Some? ==> Whole(data, i, r.value)
  {
    if i < |data| && data[i] == ZERO then Some(i + 1)
    else if i < |data| && IsDigit(data[i]) then Some(DigitsEnd(data, i))
    else None
  }

  function FractionEnd(data: seq<Byte>, i: nat): (r: Option<nat>)
    requires i <= |data|
    ensures r.Some? ==> Fraction(data, i, r.value)
  {
    if i < |data| && data[i] == DOT then
      var j := DigitsEnd(data, i + 1);
      if j == i + 1 then None else Some(j)
    else Some(i)
  }

  function ExponentEnd(data: seq<Byte>, i: nat): (r: Option<nat>)
    requires i <= |data|
    ensures r.Some? ==> Exponent(data, i, r.value)
  {
    if i < |data| && IsExponent(data[i]) then
      var s := if i + 1 < |data| && (data[i + 1] == PLUS || data[i + 1] == MINUS) then i + 2 else i + 1;
      var j := DigitsEnd(data, s);
      if j == s then None else Some(j)
    else Some(i)
  }

  function NumberEnd(data: seq<Byte>, i: nat): (r: Option<nat>)
    requires i <= |data|
    ensures r.Some? ==> i < r.value && Number(data, i, r.value)
  {
    var a := WholeEnd(data, Unsigned(data, i));
    if a.None? then None else
    var b := FractionEnd(data, a.value);
    if b.None? then None else ExponentEnd(data, b.value)
  }

  lemma WholeIsRead(data: seq<Byte>, i: nat, j: nat)
    requires Whole(data, i, j) && (j == |data| || !IsDigit(data[j]))
    ensures WholeEnd(data, i) == Some(j)
  {
    if data[i] != ZERO {
      DigitsStop(data, i, j);
      assert IsDigit(data[i]);
    }
  }

  lemma FractionIsRead(data: seq<Byte>, i: nat, j: nat)
    requires Fraction(data, i, j) && (j == |data| || (!IsDigit(data[j]) && data[j] != DOT))
    ensures FractionEnd(data, i) == Some(j)
  {
    if i < j {
      DigitsStop(data, i + 1, j);
    }
  }

  lemma ExponentIsRead(data: seq<Byte>, i: nat, j: nat)
    requires Exponent(data, i, j) && (j == |data| || (!IsDigit(data[j]) && !IsExponent(data[j])))
    ensures ExponentEnd(data, i) == Some(j)
  {
    if i < j {
      DigitsStop(data, if data[i + 1] == PLUS || data[i + 1] == MINUS then i + 2 else i + 1, j);
    }
  }

  /** A number that something ends is read to exactly that end. */
  lemma NumberIsRead(data: seq<Byte>, i: nat, j: nat)
    requires Number(data, i, j) && Delimited(data, j)
    ensures NumberEnd(data, i) == Some(j)
  {
    hide WholeEnd, FractionEnd, ExponentEnd, Digits;
    var a: nat, b: nat :| Whole(data, Unsigned(data, i), a) && Fraction(data, a, b) && Exponent(data, b, j);
    assert b < j ==> IsExponent(data[b]);
    assert a < b ==> data[a] == DOT;
    WholeIsRead(data, Unsigned(data, i), a);
    FractionIsRead(data, a, b);
    ExponentIsRead(data, b, j);
  }

  // Words, and the whole value.

  predicate Word(data: seq<Byte>, i: nat, j: nat, word: seq<Byte>) {
    i <= j <= |data| && data[i..j] == word
  }

  /** data[i..j] is one value, with arrays and objects nested at most depth deep. */
  ghost predicate Value(data: seq<Byte>, i: nat, j: nat, depth: nat)
    decreases if i <= j then j - i else 0, 0
  {
    && i < j <= |data|
    && (|| String(data, i, j)
        || Number(data, i, j)
        || Word(data, i, j, TRUE_WORD) || Word(data, i, j, FALSE_WORD) || Word(data, i, j, NULL_WORD)
        || (&& depth > 0 && i + 2 <= j && data[i] == OPEN_BRACKET && data[j - 1] == CLOSE_BRACKET
            && (Spaces(data, i + 1, j - 1) || Items(data, i + 1, j - 1, depth - 1)))
        || (&& depth > 0 && i + 2 <= j && data[i] == OPEN_BRACE && data[j - 1] == CLOSE_BRACE
            && (Spaces(data, i + 1, j - 1) || Members(data, i + 1, j - 1, depth - 1))))
  }

  /** One or more values separated by commas, with spaces anywhere between. */
  ghost predicate Items(data: seq<Byte>, i: nat, j: nat, depth: nat)
    decreases if i <= j then j - i else 0, 2
  {
    exists a: nat, b: nat, c: nat :: ItemsAt(data, i, a, b, c, j, depth)
  }

  ghost predicate ItemsAt(data: seq<Byte>, i: nat, a: nat, b: nat, c: nat, j: nat, depth: nat)
    decreases if i <= j then j - i else 0, 1
  {
    && i <= a < b <= c <= j <= |data|
    && Spaces(data, i, a) && Value(data, a, b, depth) && Spaces(data, b, c)
    && (c == j || (data[c] == COMMA && Items(data, c + 1, j, depth)))
  }

  /** Spaces, a key, a colon and a value, with spaces around the colon. */
  ghost predicate Pair(data: seq<Byte>, i: nat, j: nat, depth: nat)
    decreases if i <= j then j - i else 0, 2
  {
    exists a: nat, k: nat, l: nat, v: nat :: PairAt(data, i, a, k, l, v, j, depth)
  }

  ghost predicate PairAt(data: seq<Byte>, i: nat, a: nat, k: nat, l: nat, v: nat, j: nat, depth: nat)
    decreases if i <= j then j - i else 0, 1
  {
    && i <= a < k <= l < v < j <= |data|
    && Spaces(data, i, a) && Key(data, a, k) && Spaces(data, k, l) && data[l] == COLON
    && Spaces(data, l + 1, v) && Value(data, v, j, depth)
  }

  /** One or more pairs separated by commas. */
  ghost predicate Members(data: seq<Byte>, i: nat, j: nat, depth: nat)
    decreases if i <= j then j - i else 0, 4
  {
    exists b: nat, c: nat :: MembersAt(data, i, b, c, j, depth)
  }

  ghost predicate MembersAt(data: seq<Byte>, i: nat, b: nat, c: nat, j: nat, depth: nat)
    decreases if i <= j then j - i else 0, 3
  {
    && i < b <= c <= j <= |data|
    && Pair(data, i, b, depth) && Spaces(data, b, c)
    && (c == j || (data[c] == COMMA && Members(data, c + 1, j, depth)))
  }
}
