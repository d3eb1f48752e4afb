// The fast JSON reader: it jumps from quote to quote inside strings and skips values it does not need.
module JsonReader {
  import opened Folds
  import opened JsonGrammar

  const MAX_DEPTH: nat := 10000
  const MAX_INT64: int := 0x7fff_ffff_ffff_ffff
  const MIN_INT64: int := -0x8000_0000_0000_0000

  // What the first byte of a value decides.

  ghost predicate ArrayBody(data: seq<Byte>, i: nat, j: nat, depth: nat) {
    && depth > 0 && i + 2 <= j <= |data| && data[i] == OPEN_BRACKET && data[j - 1] == CLOSE_BRACKET
    && (Spaces(data, i + 1, j - 1) || Items(data, i + 1, j - 1, depth - 1))
  }

  ghost predicate ObjectBody(data: seq<Byte>, i: nat, j: nat, depth: nat) {
    && depth > 0 && i + 2 <= j <= |data| && data[i] == OPEN_BRACE && data[j - 1] == CLOSE_BRACE
    && (Spaces(data, i + 1, j - 1) || Members(data, i + 1, j - 1, depth - 1))
  }

  /** The only value at i that something ends is the one consumed, up to end, if any was. */
  ghost predicate ValueOnlyAt(data: seq<Byte>, i: nat, depth: nat, ok: bool, end: nat) {
    forall j: nat :: Value(data, i, j, depth) && Delimited(data, j) ==> ok && j == end
  }

  ghost predicate PairOnlyAt(data: seq<Byte>, i: nat, depth: nat, ok: bool, end: nat) {
    forall j: nat :: Pair(data, i, j, depth) && Delimited(data, j) ==> ok && j == end
  }

  ghost predicate ArrayOnlyAt(data: seq<Byte>, i: nat, depth: nat, ok: bool, end: nat) {
    forall j: nat :: ArrayBody(data, i, j, depth) ==> ok && j == end
  }

  ghost predicate ObjectOnlyAt(data: seq<Byte>, i: nat, depth: nat, ok: bool, end: nat) {
    forall j: nat :: ObjectBody(data, i, j, depth) ==> ok && j == end
  }

  lemma ValueByFirstByte(data: seq<Byte>, i: nat, j: nat, depth: nat)
    requires i < j <= |data|
    ensures Value(data, i, j, depth) <==>
            match data[i]
            case 34 => String(data, i, j)
            case 91 => ArrayBody(data, i, j, depth)
            case 123 => ObjectBody(data, i, j, depth)
            case 116 => Word(data, i, j, TRUE_WORD)
            case 102 => Word(data, i, j, FALSE_WORD)
            case 110 => Word(data, i, j, NULL_WORD)
            case _ => Number(data, i, j)
    ensures Value(data, i, j, depth) ==> !IsSpace(data[i])
  {
    hide Items, Members, Scan;
    if Number(data, i, j) {
      assert IsDigit(data[Unsigned(data, i)]);
    }
    if Word(data, i, j, TRUE_WORD) || Word(data, i, j, FALSE_WORD) || Word(data, i, j, NULL_WORD) {
      assert data[i] == data[i..j][0];
    }
  }

  lemma ValueStarts(data: seq<Byte>, i: nat, j: nat, depth: nat)
    requires Value(data, i, j, depth)
    ensures i < j <= |data| && !IsSpace(data[i])
  {
    hide Items, Members;
    ValueByFirstByte(data, i, j, depth);
  }

  lemma KeyStarts(data: seq<Byte>, i: nat, j: nat)
    requires Key(data, i, j)
    ensures i + 1 < j <= |data| && data[i] == QUOTE
    ensures Scan(data, i + 1, false) == Some((j - 1) as nat)
    ensures HasEscape(data, i + 1, j - 1) ==> Decodes(data, i + 1, j - 1)
  {
  }

  lemma WordLength(data: seq<Byte>, i: nat, j: nat, word: seq<Byte>)
    requires i <= |data|
    ensures Word(data, i, j, word) <==> j == i + |word| && word <= data[i..]
  {
  }

  /** Takes one item off a list of items that a closing bracket ends: spaces, the value up to b, spaces, and
      then the bracket or a comma and more items. */
  lemma ItemsStep(data: seq<Byte>, i: nat, j: nat, depth: nat) returns (b: nat)
    requires Items(data, i, j, depth) && j < |data| && data[j] == CLOSE_BRACKET
    ensures i < b <= j && SkipSpaces(data, i) < b
    ensures Value(data, SkipSpaces(data, i), b, depth) && Delimited(data, b)
    ensures var c := SkipSpaces(data, b);
            c == j || (c < j && data[c] == COMMA && Items(data, c + 1, j, depth))
  {
    hide Value;
    var a: nat, b': nat, c: nat :| ItemsAt(data, i, a, b', c, j, depth);
    b := b';
    ValueStarts(data, a, b, depth);
    SpacesEnd(data, i, a);
    SpacesEnd(data, b, c);
  }

  lemma ItemsAdd(data: seq<Byte>, i: nat, b: nat, j: nat, depth: nat)
    requires i <= |data| && b <= |data|
    requires Value(data, SkipSpaces(data, i), b, depth)
    requires var c := SkipSpaces(data, b);
             c == j || (c < j <= |data| && data[c] == COMMA && Items(data, c + 1, j, depth))
    ensures Items(data, i, j, depth)
  {
    hide Value;
    assert Value(data, SkipSpaces(data, i), b, depth);
    ValueStarts(data, SkipSpaces(data, i), b, depth);
    assert ItemsAt(data, i, SkipSpaces(data, i), b, SkipSpaces(data, b), j, depth);
  }

  lemma PairStep(data: seq<Byte>, i: nat, b: nat, depth: nat) returns (k: nat)
    requires Pair(data, i, b, depth)
    ensures i <= k <= |data| && SkipSpaces(data, i) < b <= |data|
    ensures Key(data, SkipSpaces(data, i), k)
    ensures var l := SkipSpaces(data, k);
            l < |data| && data[l] == COLON && Value(data, SkipSpaces(data, l + 1), b, depth)
  {
    hide Value, Key;
    var a: nat, k': nat, l: nat, v: nat :| PairAt(data, i, a, k', l, v, b, depth);
    k := k';
    ValueStarts(data, v, b, depth);
    KeyStarts(data, a, k);
    SpacesEnd(data, i, a);
    SpacesEnd(data, k, l);
    SpacesEnd(data, l + 1, v);
  }

  lemma PairMake(data: seq<Byte>, i: nat, k: nat, b: nat, depth: nat)
    requires i <= |data| && k <= |data| && Key(data, SkipSpaces(data, i), k)
    requires var l := SkipSpaces(data, k);
             l < |data| && data[l] == COLON && Value(data, SkipSpaces(data, l + 1), b, depth)
    ensures Pair(data, i, b, depth)
  {
    var a, l := SkipSpaces(data, i), SkipSpaces(data, k);
    var v := SkipSpaces(data, l + 1);
    hide Value, Key;
    KeyStarts(data, a, k);
    ValueStarts(data, v, b, depth);
    assert PairAt(data, i, a, k, l, v, b, depth);
  }

  lemma MembersStep(data: seq<Byte>, i: nat, j: nat, depth: nat) returns (b: nat)
    requires Members(data, i, j, depth) && j < |data| && data[j] == CLOSE_BRACE
    ensures i <= b <= j && Pair(data, i, b, depth) && Delimited(data, b)
    ensures var c := SkipSpaces(data, b);
            c == j || (c < j && data[c] == COMMA && Members(data, c + 1, j, depth))
  {
    hide Pair;
    var b': nat, c: nat :| MembersAt(data, i, b', c, j, depth);
    b := b';
    SpacesEnd(data, b, c);
  }

  lemma MembersAdd(data: seq<Byte>, i: nat, b: nat, j: nat, depth: nat)
    requires i < b <= |data| && Pair(data, i, b, depth)
    requires var c := SkipSpaces(data, b);
             c == j || (c < j <= |data| && data[c] == COMMA && Members(data, c + 1, j, depth))
    ensures Members(data, i, j, depth)
  {
    hide Pair;
    assert MembersAt(data, i, b, SkipSpaces(data, b), j, depth);
  }

  /** The closing position of a value is settled by the bytes: only one end can be followed by a delimiter. */
  lemma {:induction false} ValueEndsOnce(data: seq<Byte>, i: nat, j: nat, k: nat, depth: nat)
    requires Value(data, i, j, depth) && Value(data, i, k, depth) && Delimited(data, j) && Delimited(data, k)
    ensures j == k
    decreases j - i, 0
  {
    hide Items, Members;
    ValueByFirstByte(data, i, j, depth);
    ValueByFirstByte(data, i, k, depth);
    match data[i] {
      case 34 =>
      case 91 => ArrayEndsOnce(data, i, j, k, depth);
      case 123 => ObjectEndsOnce(data, i, j, k, depth);
      case 116 => WordLength(data, i, j, TRUE_WORD); WordLength(data, i, k, TRUE_WORD);
      case 102 => WordLength(data, i, j, FALSE_WORD); WordLength(data, i, k, FALSE_WORD);
      case 110 => WordLength(data, i, j, NULL_WORD); WordLength(data, i, k, NULL_WORD);
      case _ => NumberIsRead(data, i, j); NumberIsRead(data, i, k);
    }
  }

  /** The first of the items does not start with the bracket that closes them. */
  lemma ItemsStart(data: seq<Byte>, i: nat, j: nat, depth: nat)
    requires Items(data, i, j, depth) && j < |data| && data[j] == CLOSE_BRACKET
    ensures i <= j && SkipSpaces(data, i) < j && data[SkipSpaces(data, i)] != CLOSE_BRACKET
  {
    hide Items, Members, Value, Spaces, SkipSpaces, Scan;
    var b := ItemsStep(data, i, j, depth);
    ValueByFirstByte(data, SkipSpaces(data, i), b, depth);
  }

  lemma {:induction false} ArrayEndsOnce(data: seq<Byte>, i: nat, j: nat, k: nat, depth: nat)
    requires ArrayBody(data, i, j, depth) && ArrayBody(data, i, k, depth)
    ensures j == k
    decreases j - i - 1, 3
  {
    hide Items, Value, Members, Spaces, SkipSpaces;
    if Spaces(data, i + 1, j - 1) {
      SpacesEnd(data, i + 1, j - 1);
    } else {
      ItemsStart(data, i + 1, j - 1, depth - 1);
    }
    if Spaces(data, i + 1, k - 1) {
      SpacesEnd(data, i + 1, k - 1);
    } else {
      ItemsStart(data, i + 1, k - 1, depth - 1);
    }
    if !Spaces(data, i + 1, j - 1) && !Spaces(data, i + 1, k - 1) {
      ItemsEndOnce(data, i + 1, j - 1, k - 1, depth - 1);
    }
  }

  lemma {:induction false} ItemsEndOnce(data: seq<Byte>, i: nat, j: nat, k: nat, depth: nat)
    requires Items(data, i, j, depth) && Items(data, i, k, depth)
    requires j < |data| && data[j] == CLOSE_BRACKET && k < |data| && data[k] == CLOSE_BRACKET
    ensures j == k
    decreases j - i, 1
  {
    hide Items, Value, Members, Spaces, SkipSpaces;
    var b := ItemsStep(data, i, j, depth);
    var b2 := ItemsStep(data, i, k, depth);
    ValueEndsOnce(data, SkipSpaces(data, i), b, b2, depth);
    var c := SkipSpaces(data, b);
    if c != j && c != k {
      ItemsEndOnce(data, c + 1, j, k, depth);
    }
  }

  lemma MembersStart(data: seq<Byte>, i: nat, j: nat, depth: nat)
    requires Members(data, i, j, depth) && j < |data| && data[j] == CLOSE_BRACE
    ensures i <= j && SkipSpaces(data, i) < j && data[SkipSpaces(data, i)] != CLOSE_BRACE
  {
    hide Items, Members, Value, Pair, Spaces, SkipSpaces, Scan;
    var b := MembersStep(data, i, j, depth);
    var k := PairStep(data, i, b, depth);
    KeyStarts(data, SkipSpaces(data, i), k);
  }

  lemma {:induction false} ObjectEndsOnce(data: seq<Byte>, i: nat, j: nat, k: nat, depth: nat)
    requires ObjectBody(data, i, j, depth) && ObjectBody(data, i, k, depth)
    ensures j == k
    decreases j - i - 1, 3
  {
    hide Items, Value, Members, Pair, Spaces, SkipSpaces;
    if Spaces(data, i + 1, j - 1) {
      SpacesEnd(data, i + 1, j - 1);
    } else {
      MembersStart(data, i + 1, j - 1, depth - 1);
    }
    if Spaces(data, i + 1, k - 1) {
      SpacesEnd(data, i + 1, k - 1);
    } else {
      MembersStart(data, i + 1, k - 1, depth - 1);
    }
    if !Spaces(data, i + 1, j - 1) && !Spaces(data, i + 1, k - 1) {
      MembersEndOnce(data, i + 1, j - 1, k - 1, depth - 1);
    }
  }

  lemma {:induction false} MembersEndOnce(data: seq<Byte>, i: nat, j: nat, k: nat, depth: nat)
    requires Members(data, i, j, depth) && Members(data, i, k, depth)
    requires j < |data| && data[j] == CLOSE_BRACE && k < |data| && data[k] == CLOSE_BRACE
    ensures j == k
    decreases j - i, 1
  {
    hide Items, Value, Members, Pair, Spaces, SkipSpaces;
    var b := MembersStep(data, i, j, depth);
    var b2 := MembersStep(data, i, k, depth);
    PairEndsOnce(data, i, b, b2, depth);
    var c := SkipSpaces(data, b);
    if c != j && c != k {
      MembersEndOnce(data, c + 1, j, k, depth);
    }
  }

  lemma {:induction false} PairEndsOnce(data: seq<Byte>, i: nat, j: nat, k: nat, depth: nat)
    requires Pair(data, i, j, depth) && Pair(data, i, k, depth) && Delimited(data, j) && Delimited(data, k)
    ensures j == k
    decreases j - i, 0
  {
    hide Items, Value, Members, Pair, Spaces, Scan, HasEscape, Decodes;
    var q := PairStep(data, i, j, depth);
    var q2 := PairStep(data, i, k, depth);
    KeyStarts(data, SkipSpaces(data, i), q);
    KeyStarts(data, SkipSpaces(data, i), q2);
    ValueEndsOnce(data, SkipSpaces(data, SkipSpaces(data, q) + 1), j, k, depth);
  }

  // What reading by the first byte says of the value there.

  lemma StringDecides(data: seq<Byte>, a: nat, left: nat, ok: bool, end: nat)
    requires a < |data| && data[a] == QUOTE && (ok <==> Scan(data, a + 1, false).Some?)
    requires ok ==> String(data, a, end)
    ensures ok ==> a < end <= |data| && Value(data, a, end, left)
    ensures ValueOnlyAt(data, a, left, ok, end)
  {
    hide Items, Members, Value;
    forall j: nat | a < j <= |data|
      ensures Value(data, a, j, left) <==> String(data, a, j)
    {
      ValueByFirstByte(data, a, j, left);
    }
    ValueShape(data, a, left);
  }

  lemma ArrayDecides(data: seq<Byte>, a: nat, left: nat, ok: bool, end: nat)
    requires a < |data| && data[a] == OPEN_BRACKET && ArrayOnlyAt(data, a, left, ok, end)
    requires ok ==> ArrayBody(data, a, end, left)
    ensures ok ==> a < end <= |data| && Value(data, a, end, left)
    ensures ValueOnlyAt(data, a, left, ok, end)
  {
    hide Items, Members, Value;
    forall j: nat | a < j <= |data|
      ensures Value(data, a, j, left) <==> ArrayBody(data, a, j, left)
    {
      ValueByFirstByte(data, a, j, left);
    }
    ValueShape(data, a, left);
  }

  lemma ObjectDecides(data: seq<Byte>, a: nat, left: nat, ok: bool, end: nat)
    requires a < |data| && data[a] == OPEN_BRACE && ObjectOnlyAt(data, a, left, ok, end)
    requires ok ==> ObjectBody(data, a, end, left)
    ensures ok ==> a < end <= |data| && Value(data, a, end, left)
    ensures ValueOnlyAt(data, a, left, ok, end)
  {
    hide Items, Members, Value;
    forall j: nat | a < j <= |data|
      ensures Value(data, a, j, left) <==> ObjectBody(data, a, j, left)
    {
      ValueByFirstByte(data, a, j, left);
    }
    ValueShape(data, a, left);
  }

  /** The word that a first byte stands for. */
  function WordOf(b: Byte): seq<Byte> {
    if b == 116 then TRUE_WORD else if b == 102 then FALSE_WORD else NULL_WORD
  }

  lemma WordDecides(data: seq<Byte>, a: nat, left: nat, ok: bool, end: nat)
    requires a < |data| && data[a] in {116, 102, 110}
    requires ok <==> Word(data, a, a + |WordOf(data[a])|, WordOf(data[a]))
    requires ok ==> end == a + |WordOf(data[a])|
    ensures ok ==> a < end <= |data| && Value(data, a, end, left)
    ensures ValueOnlyAt(data, a, left, ok, end)
  {
    hide Items, Members, Value;
    forall j: nat | a < j <= |data|
      ensures Value(data, a, j, left) <==> Word(data, a, j, WordOf(data[a]))
    {
      ValueByFirstByte(data, a, j, left);
      WordLength(data, a, j, WordOf(data[a]));
    }
    ValueShape(data, a, left);
  }

  lemma NumberDecides(data: seq<Byte>, a: nat, left: nat, ok: bool, end: nat)
    requires a <= |data| && (a < |data| ==> data[a] !in {34, 123, 91, 116, 102, 110})
    requires (ok <==> NumberEnd(data, a).Some?) && (ok ==> NumberEnd(data, a) == Some(end))
    ensures ok ==> a < end <= |data| && Value(data, a, end, left)
    ensures ValueOnlyAt(data, a, left, ok, end)
  {
    hide Items, Members, Value, WholeEnd, FractionEnd, ExponentEnd;
    forall j: nat | a < j <= |data|
      ensures Value(data, a, j, left) <==> JsonGrammar.Number(data, a, j)
    {
      ValueByFirstByte(data, a, j, left);
    }
    ValueShape(data, a, left);
    NumbersAreRead(data, a);
  }

  class Reader {
    const data: seq<Byte>
    var pos: nat
    // How deep the array or object being read is nested; only counted back down on success.
    var depth: nat

    predicate Valid()
      reads this
    {
      pos <= |data| && depth <= MAX_DEPTH
    }

    constructor (data: seq<Byte>)
      ensures Valid() && this.data == data && pos == 0 && depth == 0
    {
      this.data, pos, depth := data, 0, 0;
    }

    /** The next byte that is no space, or 0 at the end. */
    method Peek() returns (b: Byte)
      requires pos <= |data|
      modifies `pos
      ensures pos == SkipSpaces(data, old(pos))
      ensures b == if pos < |data| then data[pos] else 0
    {
      while pos < |data|
        invariant pos <= |data| && SkipSpaces(data, pos) == SkipSpaces(data, old(pos))
      {
        if IsSpace(data[pos]) {
          pos := pos + 1;
        } else {
          return data[pos];
        }
      }
      return 0;
    }

    /** The first quote at or after a position, or -1. */
    method IndexQuote(from: nat) returns (at: int)
      requires from <= |data|
      ensures at < 0 ==> forall k :: from <= k < |data| ==> data[k] != QUOTE
      ensures at >= 0 ==> from <= at < |data| && data[at] == QUOTE && forall k :: from <= k < at ==> data[k] != QUOTE
    {
      for k := from to |data|
        invariant forall m :: from <= m < k ==> data[m] != QUOTE
      {
        if data[k] == QUOTE {
          return k;
        }
      }
      return -1;
    }

    /** Reads a string and gives the bounds of its inside: the closing quote is the one the left-to-right scanner
        finds, and there is a string exactly when the scanner finds one. */
    method Str() returns (ok: bool, start: nat, end: nat)
      requires pos <= |data|
      modifies `pos
      ensures var a := SkipSpaces(data, old(pos));
              && (ok <==> a < |data| && data[a] == QUOTE && Scan(data, a + 1, false).Some?)
              && (ok ==> start == a + 1 && Scan(data, a + 1, false) == Some(end) && pos == end + 1)
              && (ok ==> String(data, a, pos))
              && (!ok ==> pos == a)
    {
      ok, start, end := false, 0, 0;
      var b := Peek();
      if b != QUOTE {
        return;
      }
      start := pos + 1;
      end := start;
      while true
        invariant start <= end <= |data| && pos == start - 1
        invariant forall k :: start <= k < end && data[k] == QUOTE ==> Slashes(data, start, k) % 2 == 1
        decreases |data| - end
      {
        ScanResumes(data, start, end);
        var next := IndexQuote(end);
        if next < 0 {
          NoQuoteNoEnd(data, end, Slashes(data, start, end) % 2 == 1);
          return;
        }
        end := next;
        var slashes, at := 0, end;
        while at > start && data[at - 1] == BACKSLASH
          invariant start <= at <= end && slashes + Slashes(data, start, at) == Slashes(data, start, end)
        {
          slashes, at := slashes + 1, at - 1;
        }
        if slashes % 2 == 0 {
          break;
        }
        end := end + 1;
      }
      ScanResumes(data, start, end);
      ok, pos := true, end + 1;
    }

    method Literal(word: seq<Byte>) returns (ok: bool)
      requires pos <= |data|
      modifies `pos
      ensures ok <==> Word(data, old(pos), old(pos) + |word|, word)
      ensures pos == if ok then old(pos) + |word| else old(pos)
    {
      WordLength(data, pos, pos + |word|, word);
      if !(word <= data[pos..]) {
        return false;
      }
      pos := pos + |word|;
      return true;
    }

    method DigitsFrom(from: nat) returns (at: nat)
      requires from <= |data|
      ensures at == DigitsEnd(data, from)
    {
      at := from;
      while at < |data| && IsDigit(data[at])
        invariant from <= at <= |data| && DigitsEnd(data, at) == DigitsEnd(data, from)
      {
        at := at + 1;
      }
    }

    method WholeFrom(from: nat) returns (ok: bool, at: nat)
      requires from <= |data|
      ensures if ok then WholeEnd(data, from) == Some(at) else WholeEnd(data, from) == None
    {
      hide Whole, Digits;
      ok, at := true, from;
      if at < |data| && data[at] == ZERO {
        at := at + 1;
      } else if at < |data| && IsDigit(data[at]) {
        at := DigitsFrom(at);
      } else {
        ok := false;
      }
    }

    method FractionFrom(from: nat) returns (ok: bool, at: nat)
      requires from <= |data|
      ensures if ok then FractionEnd(data, from) == Some(at) else FractionEnd(data, from) == None
    {
      hide Fraction, Digits;
      ok, at := true, from;
      if at < |data| && data[at] == DOT {
        var next := DigitsFrom(at + 1);
        if next == at + 1 {
          ok := false;
        }
        at := next;
      }
    }

    method ExponentFrom(from: nat) returns (ok: bool, at: nat)
      requires from <= |data|
      ensures if ok then ExponentEnd(data, from) == Some(at) else ExponentEnd(data, from) == None
    {
      hide Exponent, Digits;
      ok, at := true, from;
      if at < |data| && IsExponent(data[at]) {
        at := at + 1;
        if at < |data| && (data[at] == PLUS || data[at] == MINUS) {
          at := at + 1;
        }
        var next := DigitsFrom(at);
        if next == at {
          ok := false;
        }
        at := next;
      }
    }

    /** Reads one number; spaces before it have been skipped. */
    method Number() returns (ok: bool)
      requires pos <= |data|
      modifies `pos
      ensures ok <==> NumberEnd(data, old(pos)).Some?
      ensures pos == if ok then NumberEnd(data, old(pos)).value else old(pos)
    {
      hide WholeEnd, FractionEnd, ExponentEnd, JsonGrammar.Number, Whole, Fraction, Exponent;
      var at := pos;
      if at < |data| && data[at] == MINUS {
        at := at + 1;
      }
      ok, at := WholeFrom(at);
      if !ok {
        return;
      }
      assert Whole(data, Unsigned(data, pos), at);
      WholeBounds(data, Unsigned(data, pos), at);
      ok, at := FractionFrom(at);
      if !ok {
        return;
      }
      FractionBounds(data, WholeEnd(data, Unsigned(data, pos)).value, at);
      ok, at := ExponentFrom(at);
      if ok {
        pos := at;
      }
    }

    /** Skips one value. What it consumes is a value of the grammar within the nesting that is left, and every
        such value that something ends is consumed to exactly its end. */
    method Skip() returns (ok: bool)
      requires Valid()
      modifies `pos, `depth
      ensures old(pos) <= pos <= |data|
      ensures ok ==> && Valid() && depth == old(depth) && old(pos) < pos
                     && Value(data, SkipSpaces(data, old(pos)), pos, MAX_DEPTH - depth)
      ensures ValueOnlyAt(data, SkipSpaces(data, old(pos)), MAX_DEPTH - old(depth), ok, pos)
      decreases |data| - pos, 1
    {
      hide Items, Members, Value, ValueOnlyAt, ArrayBody, ObjectBody, ArrayOnlyAt, ObjectOnlyAt, String, Scan, Word,
           NumberEnd;
      var b := Peek();
      ghost var a, left := pos, MAX_DEPTH - depth;
      SkippedSpaces(data, old(pos));
      match b {
        case 34 =>
          var start, end;
          ok, start, end := Str();
          StringDecides(data, a, left, ok, pos);
        case 123 =>
          ok := Object();
          ObjectDecides(data, a, left, ok, pos);
        case 91 =>
          ok := Array();
          ArrayDecides(data, a, left, ok, pos);
        case 116 =>
          ok := Literal(TRUE_WORD);
          WordDecides(data, a, left, ok, pos);
        case 102 =>
          ok := Literal(FALSE_WORD);
          WordDecides(data, a, left, ok, pos);
        case 110 =>
          ok := Literal(NULL_WORD);
          WordDecides(data, a, left, ok, pos);
        case _ =>
          ok := Number();
          NumberDecides(data, a, left, ok, pos);
      }
    }

    /** The elements of the array that opens at i, up to its closing bracket. */
    method Elements(ghost i: nat) returns (ok: bool)
      requires Valid() && depth > 0 && i < pos && data[i] == OPEN_BRACKET
      requires ItemsContinue(data, i + 1, pos, MAX_DEPTH - depth)
      requires var a := SkipSpaces(data, i + 1); a >= |data| || data[a] != CLOSE_BRACKET
      modifies `pos, `depth
      ensures old(pos) <= pos <= |data|
      ensures ok ==> depth == old(depth) - 1 && ArrayBody(data, i, pos, MAX_DEPTH - depth)
      ensures ArrayOnlyAt(data, i, MAX_DEPTH - old(depth) + 1, ok, pos)
      decreases |data| - pos, 3
    {
      hide Items, Members, Value, Pair, ArrayBody, ArrayOnlyAt, ItemsContinue, ValueOnlyAt, PairOnlyAt, Spaces,
           SkipSpaces;
      ghost var left := MAX_DEPTH - depth + 1;
      while true
        invariant i < pos <= |data| && depth == old(depth)
        invariant ItemsContinue(data, i + 1, pos, left - 1)
        decreases |data| - pos
      {
        ghost var p := pos;
        var more := Skip();
        ghost var after := pos;
        if !more {
          ArrayFails(data, i, p, left, false, after, after);
          return false;
        }
        var c := Peek();
        if c == COMMA {
          ItemsLoop(data, i + 1, p, after, left - 1);
          pos := pos + 1;
        } else if c == CLOSE_BRACKET {
          ArrayCloses(data, i, p, after, left);
          pos, depth := pos + 1, depth - 1;
          return true;
        } else {
          ArrayFails(data, i, p, left, true, after, pos);
          return false;
        }
      }
    }

    /** Reads one array; false when something else comes next. */
    method Array() returns (ok: bool)
      requires Valid()
      modifies `pos, `depth
      ensures old(pos) <= pos <= |data|
      ensures var a := SkipSpaces(data, old(pos));
              && (ok ==> a < |data| && data[a] == OPEN_BRACKET)
              && (ok ==> depth == old(depth) && ArrayBody(data, a, pos, MAX_DEPTH - depth))
              && (a < |data| && data[a] == OPEN_BRACKET ==> ArrayOnlyAt(data, a, MAX_DEPTH - old(depth), ok, pos))
      decreases |data| - pos, 0
    {
      hide Items, Members, Value, Pair, ArrayBody, ArrayOnlyAt, ItemsContinue, ValueOnlyAt, PairOnlyAt, Spaces,
           SkipSpaces;
      ok := false;
      var first := Peek();
      if first != OPEN_BRACKET {
        return;
      }
      ghost var i, left := pos, MAX_DEPTH - depth;
      depth := depth + 1;
      if depth > MAX_DEPTH {
        ArrayTooDeep(data, i);
        return;
      }
      pos := pos + 1;
      var b := Peek();
      if b == CLOSE_BRACKET {
        ArrayEmpty(data, i, left);
        pos, depth := pos + 1, depth - 1;
        return true;
      }
      ItemsSkipSpaces(data, i + 1, left - 1);
      ok := Elements(i);
    }

    /** The fields of the object that opens at i, up to its closing brace. */
    method Fields(ghost i: nat) returns (ok: bool)
      requires Valid() && depth > 0 && i < pos && data[i] == OPEN_BRACE
      requires MembersContinue(data, i + 1, pos, MAX_DEPTH - depth)
      requires var a := SkipSpaces(data, i + 1); a >= |data| || data[a] != CLOSE_BRACE
      modifies `pos, `depth
      ensures old(pos) <= pos <= |data|
      ensures ok ==> depth == old(depth) - 1 && ObjectBody(data, i, pos, MAX_DEPTH - depth)
      ensures ObjectOnlyAt(data, i, MAX_DEPTH - old(depth) + 1, ok, pos)
      decreases |data| - pos, 3
    {
      hide Items, Members, Value, Pair, ObjectBody, ObjectOnlyAt, MembersContinue, ValueOnlyAt, PairOnlyAt, Spaces,
           SkipSpaces;
      ghost var left := MAX_DEPTH - depth + 1;
      while true
        invariant i < pos <= |data| && depth == old(depth)
        invariant MembersContinue(data, i + 1, pos, left - 1)
        decreases |data| - pos
      {
        ghost var p := pos;
        var more := Field();
        ghost var after := pos;
        if !more {
          ObjectFails(data, i, p, left, false, after, after);
          return false;
        }
        var c := Peek();
        if c == COMMA {
          MembersLoop(data, i + 1, p, after, left - 1);
          pos := pos + 1;
        } else if c == CLOSE_BRACE {
          ObjectCloses(data, i, p, after, left);
          pos, depth := pos + 1, depth - 1;
          return true;
        } else {
          ObjectFails(data, i, p, left, true, after, pos);
          return false;
        }
      }
    }

    /** Reads one object; false when something else comes next. */
    method Object() returns (ok: bool)
      requires Valid()
      modifies `pos, `depth
      ensures old(pos) <= pos <= |data|
      ensures var a := SkipSpaces(data, old(pos));
              && (ok ==> a < |data| && data[a] == OPEN_BRACE)
              && (ok ==> depth == old(depth) && ObjectBody(data, a, pos, MAX_DEPTH - depth))
              && (a < |data| && data[a] == OPEN_BRACE ==> ObjectOnlyAt(data, a, MAX_DEPTH - old(depth), ok, pos))
      decreases |data| - pos, 0
    {
      hide Items, Members, Value, Pair, ObjectBody, ObjectOnlyAt, MembersContinue, ValueOnlyAt, PairOnlyAt, Spaces,
           SkipSpaces;
      ok := false;
      var first := Peek();
      if first != OPEN_BRACE {
        return;
      }
      ghost var i, left := pos, MAX_DEPTH - depth;
      depth := depth + 1;
      if depth > MAX_DEPTH {
        ObjectTooDeep(data, i);
        return;
      }
      pos := pos + 1;
      var b := Peek();
      if b == CLOSE_BRACE {
        ObjectEmpty(data, i, left);
        pos, depth := pos + 1, depth - 1;
        return true;
      }
      MembersSkipSpaces(data, i + 1, left - 1);
      ok := Fields(i);
    }

    /** Reads a key, a colon and a value. */
    method Field() returns (ok: bool)
      requires Valid()
      modifies `pos, `depth
      ensures old(pos) <= pos <= |data|
      ensures ok ==> Valid() && depth == old(depth) && old(pos) < pos && Pair(data, old(pos), pos, MAX_DEPTH - depth)
      ensures PairOnlyAt(data, old(pos), MAX_DEPTH - old(depth), ok, pos)
      decreases |data| - pos, 2
    {
      hide Items, Members, Value, Pair, PairOnlyAt, ValueOnlyAt, Scan, Decodes, HasEscape, String, Spaces;
      ghost var i, left := pos, MAX_DEPTH - depth;
      var start, end;
      ok, start, end := Str();
      if !ok {
        NoKey(data, i, left, pos);
        return;
      }
      ghost var k := pos;
      if HasEscape(data, start, end) && !Decodes(data, start, end) {
        NoKey(data, i, left, pos);
        return false;
      }
      var c := Peek();
      if c != COLON {
        NoColon(data, i, k, left, pos);
        return false;
      }
      pos := pos + 1;
      ok := Skip();
      PairEnds(data, i, k, left, ok, pos);
    }

    method Null() returns (ok: bool)
      requires pos <= |data|
      modifies `pos
      ensures pos <= |data|
      ensures var a := SkipSpaces(data, old(pos));
              && (ok <==> Word(data, a, a + 4, NULL_WORD))
              && pos == if ok then a + 4 else a
    {
      var b := Peek();
      WordLength(data, pos, pos + 4, NULL_WORD);
      if b == 110 && NULL_WORD <= data[pos..] {
        pos := pos + 4;
        return true;
      }
      return false;
    }

    /** Reads an integer field. null leaves the field as it was; otherwise what is read is a number written without
        a fraction or an exponent, and it is accepted exactly when it fits in 64 bits with a sign. */
    method Integer(field: int) returns (ok: bool, value: int)
      requires pos <= |data|
      modifies `pos
      ensures pos <= |data|
      ensures var a := SkipSpaces(data, old(pos));
              if Word(data, a, a + 4, NULL_WORD) then ok && value == field && pos == a + 4
              else match NumberEnd(data, a)
                   case None => !ok
                   case Some(j) =>
                     && pos == j
                     && (ok <==> Digits(data, Unsigned(data, a), j) && MIN_INT64 <= Signed(data, a, j) <= MAX_INT64)
                     && (ok ==> value == Signed(data, a, j))
    {
      hide JsonGrammar.Number, NumberEnd, Word;
      value := field;
      ok := Null();
      if ok {
        return;
      }
      var start := pos;
      ok := Number();
      if !ok {
        return;
      }
      var negative := start < |data| && data[start] == MINUS;
      var limit := if negative then -MIN_INT64 else MAX_INT64;
      NumberLength(data, start, pos);
      var total;
      ok, total := Total(Unsigned(data, start), pos, limit);
      if !ok {
        return;
      }
      value := if negative then Int64(-Int64(total)) else Int64(total);
    }

    /** The value of some digits, unless something else is among them or it is above the limit. */
    method Total(first: nat, end: nat, limit: int) returns (ok: bool, total: int)
      requires first <= end <= |data| && MAX_INT64 <= limit
      ensures ok <==> Digits(data, first, end) && Decimal(data, first, end) <= limit
      ensures ok ==> total == Decimal(data, first, end)
    {
      var at := first;
      total := 0;
      while at < end
        invariant first <= at <= end && Digits(data, first, at)
        invariant total == Decimal(data, first, at) && 0 <= total <= limit
      {
        if !IsDigit(data[at]) {
          return false, total;
        }
        var digit := data[at] - ZERO;
        if total > (limit - digit) / 10 {
          DecimalGrows(data, first, at + 1, end);
          return false, total;
        }
        total := total * 10 + digit;
        at := at + 1;
      }
      return true, total;
    }
  }

  /** The value of an unsigned integer of 64 bits, or of the negation of one with a sign, read as one with a sign. */
  function Int64(v: int): (r: int)
    requires MIN_INT64 <= v <= -2 * MIN_INT64 - 1
    ensures MIN_INT64 <= v <= MAX_INT64 ==> r == v
  {
    if v > MAX_INT64 then v + 2 * MIN_INT64 else v
  }

  function Decimal(data: seq<Byte>, i: nat, j: nat): nat
    requires Digits(data, i, j)
    decreases j - i
  {
    if i == j then 0 else 10 * Decimal(data, i, j - 1) + (data[j - 1] - ZERO)
  }

  /** The value of an integer written without a fraction or an exponent. */
  function Signed(data: seq<Byte>, i: nat, j: nat): int
    requires i <= |data| && Digits(data, Unsigned(data, i), j)
  {
    var d := Decimal(data, Unsigned(data, i), j);
    if Unsigned(data, i) == i then d else -(d as int)
  }

  /** Reading on never makes a number smaller. */
  lemma {:induction false} DecimalGrows(data: seq<Byte>, i: nat, k: nat, j: nat)
    requires i <= k <= j <= |data| && Digits(data, i, k)
    ensures Digits(data, i, j) ==> Decimal(data, i, k) <= Decimal(data, i, j)
    decreases j - k
  {
    if k < j && Digits(data, i, j) {
      DecimalGrows(data, i, k, j - 1);
    }
  }

  lemma SkippedSpaces(data: seq<Byte>, i: nat)
    requires i <= |data|
    ensures SkipSpaces(data, SkipSpaces(data, i)) == SkipSpaces(data, i)
  {
    SpacesEnd(data, SkipSpaces(data, i), SkipSpaces(data, i));
  }

  lemma NumberLength(data: seq<Byte>, i: nat, j: nat)
    requires i <= |data| && NumberEnd(data, i) == Some(j)
    ensures Unsigned(data, i) < j <= |data|
  {
  }

  lemma NoQuoteNoEnd(data: seq<Byte>, at: nat, escaped: bool)
    requires at <= |data| && forall k :: at <= k < |data| ==> data[k] != QUOTE
    ensures Scan(data, at, escaped) == None
    decreases |data| - at
  {
  }

  lemma WholeBounds(data: seq<Byte>, i: nat, j: nat)
    requires Whole(data, i, j)
    ensures i < j <= |data|
  {
  }

  lemma FractionBounds(data: seq<Byte>, i: nat, j: nat)
    requires Fraction(data, i, j)
    ensures i <= j <= |data|
  {
  }

  lemma ValueShape(data: seq<Byte>, i: nat, depth: nat)
    ensures forall j: nat {:trigger Value(data, i, j, depth)} :: Value(data, i, j, depth) ==> i < j <= |data|
  {
  }

  lemma NumbersAreRead(data: seq<Byte>, i: nat)
    requires i <= |data|
    ensures forall j: nat {:trigger JsonGrammar.Number(data, i, j)} ::
              JsonGrammar.Number(data, i, j) && Delimited(data, j) ==> NumberEnd(data, i) == Some(j)
  {
    forall j: nat | JsonGrammar.Number(data, i, j) && Delimited(data, j)
      ensures NumberEnd(data, i) == Some(j)
    {
      NumberIsRead(data, i, j);
    }
  }

  lemma PairSkipSpaces(data: seq<Byte>, i: nat, b: nat, depth: nat)
    requires i <= |data|
    ensures Pair(data, i, b, depth) <==> Pair(data, SkipSpaces(data, i), b, depth)
    ensures Pair(data, i, b, depth) ==> SkipSpaces(data, i) < b <= |data|
  {
    hide Value, Pair;
    var p := SkipSpaces(data, i);
    SpacesEnd(data, p, p);
    if Pair(data, i, b, depth) {
      var k := PairStep(data, i, b, depth);
      PairMake(data, p, k, b, depth);
    }
    if Pair(data, p, b, depth) {
      var k := PairStep(data, p, b, depth);
      PairMake(data, i, k, b, depth);
    }
  }

  /** Reading the list on from p amounts to reading it from i. */
  ghost predicate ItemsContinue(data: seq<Byte>, i: nat, p: nat, depth: nat) {
    forall j {:trigger Items(data, i, j, depth)} {:trigger Items(data, p, j, depth)} ::
      0 <= j < |data| && data[j] == CLOSE_BRACKET ==> (Items(data, i, j, depth) <==> Items(data, p, j, depth))
  }

  lemma ItemsLoop(data: seq<Byte>, i: nat, p: nat, b: nat, depth: nat)
    requires p < b <= |data| && ItemsContinue(data, i, p, depth)
    requires Value(data, SkipSpaces(data, p), b, depth)
    requires ValueOnlyAt(data, SkipSpaces(data, p), depth, true, b)
    requires var c := SkipSpaces(data, b); c < |data| && data[c] == COMMA
    ensures ItemsContinue(data, i, SkipSpaces(data, b) + 1, depth)
  {
    hide Items, Value, Pair;
    var c := SkipSpaces(data, b);
    forall j: nat | j < |data| && data[j] == CLOSE_BRACKET
      ensures Items(data, i, j, depth) <==> Items(data, c + 1, j, depth)
    {
      if Items(data, i, j, depth) {
        var b2 := ItemsStep(data, p, j, depth);
      }
      if Items(data, c + 1, j, depth) {
        ItemsForward(data, c + 1, j, depth);
        ItemsAdd(data, p, b, j, depth);
      }
    }
  }

  lemma ItemsForward(data: seq<Byte>, i: nat, j: nat, depth: nat)
    requires Items(data, i, j, depth)
    ensures i < j <= |data|
  {
  }

  lemma ItemsClose(data: seq<Byte>, i: nat, p: nat, b: nat, depth: nat)
    requires p < b <= |data| && ItemsContinue(data, i, p, depth)
    requires Value(data, SkipSpaces(data, p), b, depth)
    requires var c := SkipSpaces(data, b); c < |data| && data[c] == CLOSE_BRACKET
    ensures Items(data, i, SkipSpaces(data, b), depth)
  {
    hide Items, Value, Pair;
    ItemsAdd(data, p, b, SkipSpaces(data, b), depth);
  }

  lemma ItemsStop(data: seq<Byte>, i: nat, p: nat, depth: nat, ok: bool, b: nat)
    requires p <= |data| && ItemsContinue(data, i, p, depth)
    requires ValueOnlyAt(data, SkipSpaces(data, p), depth, ok, b)
    requires ok ==> b <= |data| && var c := SkipSpaces(data, b);
             c >= |data| || (data[c] != COMMA && data[c] != CLOSE_BRACKET)
    ensures forall j {:trigger Items(data, i, j, depth)} :: 0 <= j < |data| && data[j] == CLOSE_BRACKET ==>
              !Items(data, i, j, depth)
  {
    hide Items, Value, Pair;
    forall j: nat | j < |data| && data[j] == CLOSE_BRACKET && Items(data, i, j, depth)
      ensures false
    {
      var end := ItemsStep(data, p, j, depth);
    }
  }

  lemma ArrayStarts(data: seq<Byte>, i: nat, depth: nat)
    requires i < |data| && depth > 0
    requires var a := SkipSpaces(data, i + 1); a >= |data| || data[a] != CLOSE_BRACKET
    ensures forall j: nat {:trigger ArrayBody(data, i, j, depth)} :: ArrayBody(data, i, j, depth) ==>
              0 < j <= |data| && data[j - 1] == CLOSE_BRACKET && Items(data, i + 1, j - 1, depth - 1)
  {
    hide Items;
    forall j: nat | ArrayBody(data, i, j, depth)
      ensures Items(data, i + 1, j - 1, depth - 1)
    {
      if Spaces(data, i + 1, j - 1) {
        SpacesEnd(data, i + 1, j - 1);
      }
    }
  }

  /** Spaces before the first element do not matter. */
  lemma ItemsSkipSpaces(data: seq<Byte>, i: nat, depth: nat)
    requires i <= |data|
    ensures ItemsContinue(data, i, SkipSpaces(data, i), depth)
  {
    hide Items, Value, Pair;
    var p := SkipSpaces(data, i);
    SpacesEnd(data, p, p);
    forall j: nat | j < |data| && data[j] == CLOSE_BRACKET
      ensures Items(data, i, j, depth) <==> Items(data, p, j, depth)
    {
      if Items(data, i, j, depth) {
        var b := ItemsStep(data, i, j, depth);
        ItemsAdd(data, p, b, j, depth);
      }
      if Items(data, p, j, depth) {
        var b := ItemsStep(data, p, j, depth);
        ItemsAdd(data, i, b, j, depth);
      }
    }
  }

  lemma ArrayTooDeep(data: seq<Byte>, i: nat)
    ensures forall end: nat :: ArrayOnlyAt(data, i, 0, false, end)
  {
  }

  lemma ArrayEmpty(data: seq<Byte>, i: nat, depth: nat)
    requires depth > 0 && i < |data| && data[i] == OPEN_BRACKET
    requires var a := SkipSpaces(data, i + 1); a < |data| && data[a] == CLOSE_BRACKET
    ensures var j := SkipSpaces(data, i + 1) + 1;
            ArrayBody(data, i, j, depth) && ArrayOnlyAt(data, i, depth, true, j)
  {
    hide Items;
    ArrayEndsHere(data, i, SkipSpaces(data, i + 1) + 1, depth);
  }

  lemma ArrayMade(data: seq<Byte>, i: nat, c: nat, depth: nat)
    requires depth > 0 && i < c < |data| && data[i] == OPEN_BRACKET && data[c] == CLOSE_BRACKET
    requires Items(data, i + 1, c, depth - 1)
    ensures ArrayBody(data, i, c + 1, depth) && ArrayOnlyAt(data, i, depth, true, c + 1)
  {
    hide Items;
    ArrayEndsHere(data, i, c + 1, depth);
  }

  lemma ArrayCloses(data: seq<Byte>, i: nat, p: nat, b: nat, depth: nat)
    requires depth > 0 && i < p < b <= |data| && data[i] == OPEN_BRACKET && ItemsContinue(data, i + 1, p, depth - 1)
    requires Value(data, SkipSpaces(data, p), b, depth - 1)
    requires var c := SkipSpaces(data, b); c < |data| && data[c] == CLOSE_BRACKET
    ensures var j := SkipSpaces(data, b) + 1; ArrayBody(data, i, j, depth) && ArrayOnlyAt(data, i, depth, true, j)
  {
    hide Items, Value, ItemsContinue, ArrayBody, ArrayOnlyAt, Spaces;
    ItemsClose(data, i + 1, p, b, depth - 1);
    ArrayMade(data, i, SkipSpaces(data, b), depth);
  }

  lemma ArrayFails(data: seq<Byte>, i: nat, p: nat, depth: nat, ok: bool, b: nat, end: nat)
    requires depth > 0 && i < |data| && p <= |data|
    requires var a := SkipSpaces(data, i + 1); a >= |data| || data[a] != CLOSE_BRACKET
    requires ItemsContinue(data, i + 1, p, depth - 1)
    requires ValueOnlyAt(data, SkipSpaces(data, p), depth - 1, ok, b)
    requires ok ==> b <= |data| && var c := SkipSpaces(data, b);
             c >= |data| || (data[c] != COMMA && data[c] != CLOSE_BRACKET)
    ensures ArrayOnlyAt(data, i, depth, false, end)
  {
    hide Items, ValueOnlyAt, ItemsContinue;
    ItemsStop(data, i + 1, p, depth - 1, ok, b);
    ArrayStarts(data, i, depth);
  }

  lemma ArrayEndsHere(data: seq<Byte>, i: nat, j: nat, depth: nat)
    requires ArrayBody(data, i, j, depth)
    ensures ArrayOnlyAt(data, i, depth, true, j)
  {
    hide Items;
    forall k: nat | ArrayBody(data, i, k, depth)
      ensures k == j
    {
      ArrayEndsOnce(data, i, j, k, depth);
    }
  }

  /** Reading the list on from p amounts to reading it from i. */
  ghost predicate MembersContinue(data: seq<Byte>, i: nat, p: nat, depth: nat) {
    forall j {:trigger Members(data, i, j, depth)} {:trigger Members(data, p, j, depth)} ::
      0 <= j < |data| && data[j] == CLOSE_BRACE ==> (Members(data, i, j, depth) <==> Members(data, p, j, depth))
  }

  lemma MembersLoop(data: seq<Byte>, i: nat, p: nat, b: nat, depth: nat)
    requires p < b <= |data| && MembersContinue(data, i, p, depth)
    requires Pair(data, p, b, depth)
    requires PairOnlyAt(data, p, depth, true, b)
    requires var c := SkipSpaces(data, b); c < |data| && data[c] == COMMA
    ensures MembersContinue(data, i, SkipSpaces(data, b) + 1, depth)
  {
    hide Members, Value, Pair;
    var c := SkipSpaces(data, b);
    forall j: nat | j < |data| && data[j] == CLOSE_BRACE
      ensures Members(data, i, j, depth) <==> Members(data, c + 1, j, depth)
    {
      if Members(data, i, j, depth) {
        var b2 := MembersStep(data, p, j, depth);
      }
      if Members(data, c + 1, j, depth) {
        MembersForward(data, c + 1, j, depth);
        MembersAdd(data, p, b, j, depth);
      }
    }
  }

  lemma MembersForward(data: seq<Byte>, i: nat, j: nat, depth: nat)
    requires Members(data, i, j, depth)
    ensures i < j <= |data|
  {
  }

  lemma MembersClose(data: seq<Byte>, i: nat, p: nat, b: nat, depth: nat)
    requires p < b <= |data| && MembersContinue(data, i, p, depth)
    requires Pair(data, p, b, depth)
    requires var c := SkipSpaces(data, b); c < |data| && data[c] == CLOSE_BRACE
    ensures Members(data, i, SkipSpaces(data, b), depth)
  {
    hide Members, Value, Pair;
    MembersAdd(data, p, b, SkipSpaces(data, b), depth);
  }

  lemma MembersStop(data: seq<Byte>, i: nat, p: nat, depth: nat, ok: bool, b: nat)
    requires p <= |data| && MembersContinue(data, i, p, depth)
    requires PairOnlyAt(data, p, depth, ok, b)
    requires ok ==> b <= |data| && var c := SkipSpaces(data, b);
             c >= |data| || (data[c] != COMMA && data[c] != CLOSE_BRACE)
    ensures forall j {:trigger Members(data, i, j, depth)} :: 0 <= j < |data| && data[j] == CLOSE_BRACE ==>
              !Members(data, i, j, depth)
  {
    hide Members, Value, Pair;
    forall j: nat | j < |data| && data[j] == CLOSE_BRACE && Members(data, i, j, depth)
      ensures false
    {
      var end := MembersStep(data, p, j, depth);
    }
  }

  lemma ObjectStarts(data: seq<Byte>, i: nat, depth: nat)
    requires i < |data| && depth > 0
    requires var a := SkipSpaces(data, i + 1); a >= |data| || data[a] != CLOSE_BRACE
    ensures forall j: nat {:trigger ObjectBody(data, i, j, depth)} :: ObjectBody(data, i, j, depth) ==>
              0 < j <= |data| && data[j - 1] == CLOSE_BRACE && Members(data, i + 1, j - 1, depth - 1)
  {
    hide Members;
    forall j: nat | ObjectBody(data, i, j, depth)
      ensures Members(data, i + 1, j - 1, depth - 1)
    {
      if Spaces(data, i + 1, j - 1) {
        SpacesEnd(data, i + 1, j - 1);
      }
    }
  }

  /** Spaces before the first element do not matter. */
  lemma MembersSkipSpaces(data: seq<Byte>, i: nat, depth: nat)
    requires i <= |data|
    ensures MembersContinue(data, i, SkipSpaces(data, i), depth)
  {
    hide Members, Value, Pair;
    var p := SkipSpaces(data, i);
    SpacesEnd(data, p, p);
    forall j: nat | j < |data| && data[j] == CLOSE_BRACE
      ensures Members(data, i, j, depth) <==> Members(data, p, j, depth)
    {
      if Members(data, i, j, depth) {
        var b := MembersStep(data, i, j, depth);
        PairSkipSpaces(data, i, b, depth);
        MembersAdd(data, p, b, j, depth);
      }
      if Members(data, p, j, depth) {
        var b := MembersStep(data, p, j, depth);
        PairSkipSpaces(data, i, b, depth);
        MembersAdd(data, i, b, j, depth);
      }
    }
  }

  lemma ObjectTooDeep(data: seq<Byte>, i: nat)
    ensures forall end: nat :: ObjectOnlyAt(data, i, 0, false, end)
  {
  }

  lemma ObjectEmpty(data: seq<Byte>, i: nat, depth: nat)
    requires depth > 0 && i < |data| && data[i] == OPEN_BRACE
    requires var a := SkipSpaces(data, i + 1); a < |data| && data[a] == CLOSE_BRACE
    ensures var j := SkipSpaces(data, i + 1) + 1;
            ObjectBody(data, i, j, depth) && ObjectOnlyAt(data, i, depth, true, j)
  {
    hide Members;
    ObjectEndsHere(data, i, SkipSpaces(data, i + 1) + 1, depth);
  }

  lemma ObjectMade(data: seq<Byte>, i: nat, c: nat, depth: nat)
    requires depth > 0 && i < c < |data| && data[i] == OPEN_BRACE && data[c] == CLOSE_BRACE
    requires Members(data, i + 1, c, depth - 1)
    ensures ObjectBody(data, i, c + 1, depth) && ObjectOnlyAt(data, i, depth, true, c + 1)
  {
    hide Members;
    ObjectEndsHere(data, i, c + 1, depth);
  }

  lemma ObjectCloses(data: seq<Byte>, i: nat, p: nat, b: nat, depth: nat)
    requires depth > 0 && i < p < b <= |data| && data[i] == OPEN_BRACE && MembersContinue(data, i + 1, p, depth - 1)
    requires Pair(data, p, b, depth - 1)
    requires var c := SkipSpaces(data, b); c < |data| && data[c] == CLOSE_BRACE
    ensures var j := SkipSpaces(data, b) + 1; ObjectBody(data, i, j, depth) && ObjectOnlyAt(data, i, depth, true, j)
  {
    hide Members, Pair, MembersContinue, ObjectBody, ObjectOnlyAt, Spaces;
    MembersClose(data, i + 1, p, b, depth - 1);
    ObjectMade(data, i, SkipSpaces(data, b), depth);
  }

  lemma ObjectFails(data: seq<Byte>, i: nat, p: nat, depth: nat, ok: bool, b: nat, end: nat)
    requires depth > 0 && i < |data| && p <= |data|
    requires var a := SkipSpaces(data, i + 1); a >= |data| || data[a] != CLOSE_BRACE
    requires MembersContinue(data, i + 1, p, depth - 1)
    requires PairOnlyAt(data, p, depth - 1, ok, b)
    requires ok ==> b <= |data| && var c := SkipSpaces(data, b);
             c >= |data| || (data[c] != COMMA && data[c] != CLOSE_BRACE)
    ensures ObjectOnlyAt(data, i, depth, false, end)
  {
    hide Members, PairOnlyAt, MembersContinue;
    MembersStop(data, i + 1, p, depth - 1, ok, b);
    ObjectStarts(data, i, depth);
  }

  lemma ObjectEndsHere(data: seq<Byte>, i: nat, j: nat, depth: nat)
    requires ObjectBody(data, i, j, depth)
    ensures ObjectOnlyAt(data, i, depth, true, j)
  {
    hide Members;
    forall k: nat | ObjectBody(data, i, k, depth)
      ensures k == j
    {
      ObjectEndsOnce(data, i, j, k, depth);
    }
  }

  /** A key that ends at k, when there is one, is the string the scanner finds. */
  lemma KeyAt(data: seq<Byte>, i: nat, j: nat, depth: nat) returns (k: nat)
    requires i <= |data| && Pair(data, i, j, depth)
    ensures var a := SkipSpaces(data, i);
            && a < |data| && data[a] == QUOTE && k > a + 1 && Scan(data, a + 1, false) == Some((k - 1) as nat)
            && k <= |data| && (HasEscape(data, a + 1, k - 1) ==> Decodes(data, a + 1, k - 1))
    ensures var l := SkipSpaces(data, k);
            l < |data| && data[l] == COLON && Value(data, SkipSpaces(data, l + 1), j, depth)
  {
    hide Value, Decodes, HasEscape, Pair, Key, Scan;
    k := PairStep(data, i, j, depth);
    KeyStarts(data, SkipSpaces(data, i), k);
  }

  lemma NoKey(data: seq<Byte>, i: nat, depth: nat, end: nat)
    requires i <= |data|
    requires var a := SkipSpaces(data, i);
             a >= |data| || data[a] != QUOTE || Scan(data, a + 1, false).None?
             || var k := Scan(data, a + 1, false).value; HasEscape(data, a + 1, k) && !Decodes(data, a + 1, k)
    ensures PairOnlyAt(data, i, depth, false, end)
  {
    hide Value, Decodes, HasEscape, Pair, Scan;
    forall j: nat | Pair(data, i, j, depth)
      ensures false
    {
      var k := KeyAt(data, i, j, depth);
    }
  }

  lemma NoColon(data: seq<Byte>, i: nat, k: nat, depth: nat, end: nat)
    requires i <= |data|
    requires var a := SkipSpaces(data, i);
             a < |data| && k > 0 && k <= |data| && Scan(data, a + 1, false) == Some((k - 1) as nat)
    requires var l := SkipSpaces(data, k); l >= |data| || data[l] != COLON
    ensures PairOnlyAt(data, i, depth, false, end)
  {
    hide Value, Decodes, HasEscape, Pair, Scan;
    forall j: nat | Pair(data, i, j, depth)
      ensures false
    {
      var k2 := KeyAt(data, i, j, depth);
    }
  }

  lemma PairEnds(data: seq<Byte>, i: nat, k: nat, depth: nat, ok: bool, end: nat)
    requires i <= |data|
    requires var a := SkipSpaces(data, i);
             && a < |data| && k > a + 1 && k <= |data| && Scan(data, a + 1, false) == Some((k - 1) as nat)
             && String(data, a, k) && (HasEscape(data, a + 1, k - 1) ==> Decodes(data, a + 1, k - 1))
    requires var l := SkipSpaces(data, k);
             && l < |data| && data[l] == COLON
             && ValueOnlyAt(data, SkipSpaces(data, l + 1), depth, ok, end)
             && (ok ==> Value(data, SkipSpaces(data, l + 1), end, depth))
    ensures ok ==> Pair(data, i, end, depth)
    ensures PairOnlyAt(data, i, depth, ok, end)
  {
    hide Value, Decodes, HasEscape, Pair, Scan, String;
    if ok {
      PairMake(data, i, k, end, depth);
    }
    forall j: nat | Pair(data, i, j, depth) && Delimited(data, j)
      ensures ok && j == end
    {
      var k2 := KeyAt(data, i, j, depth);
    }
  }
}
