// Reading token usage from conversation logs a piece at a time: the same totals as reading everything at once.
module TokenScan {
  import opened Folds
  import opened TokenUsage

  /** A usage record: its time, its message (none when the log gives no message id), and its token counts. */
  datatype Record = Record(at: int, message: Option<string>, input: nat, output: nat, cache: nat) {
    function Counts(): Usage {
      Usage(1, input, output, cache)
    }
  }

  /** What is kept of a message: when it was first recorded, and its largest counts so far. */
  datatype Seen = Seen(at: int, usage: Usage)

  /** A message as it is told apart: one that comes back after it was dropped for its age begins another life. */
  datatype Key = Key(id: string, life: nat)

  /** A record together with the log file it comes from and the life of its message. */
  datatype Entry = Entry(path: string, record: Record, life: nat) {
    function Message(): Option<Key> {
      match record.message case Some(id) => Some(Key(id, life)) case None => None
    }
  }

  const NEWLINE: char := '\n'
  // Times are in milliseconds.
  const BUCKET: int := 10_000
  const RETENTION: int := 86_400_000

  // Lines.

  function IndexNewline(s: string): (i: nat)
    ensures i <= |s| && (i < |s| ==> s[i] == NEWLINE) && forall k :: 0 <= k < i ==> s[k] != NEWLINE
  {
    if s == "" || s[0] == NEWLINE then 0 else 1 + IndexNewline(s[1..])
  }

  /** The lines that a newline ends. */
  function CompleteLines(s: string): seq<string>
    decreases |s|
  {
    var i := IndexNewline(s);
    if i == |s| then [] else [s[..i]] + CompleteLines(s[i + 1..])
  }

  /** Where the last complete line ends. */
  function LinesEnd(s: string): (n: nat)
    ensures n <= |s| && Ended(s[..n])
    ensures forall k :: n <= k < |s| ==> s[k] != NEWLINE
  {
    if s == "" then 0
    else if s[|s| - 1] == NEWLINE then |s|
    else
      var n := LinesEnd(s[..|s| - 1]);
      assert s[..|s| - 1][..n] == s[..n];
      n
  }

  predicate Ended(s: string) {
    s == "" || s[|s| - 1] == NEWLINE
  }

  lemma {:induction false} IndexNewlineIs(s: string, i: nat)
    requires i <= |s| && (i < |s| ==> s[i] == NEWLINE) && forall k :: 0 <= k < i ==> s[k] != NEWLINE
    ensures IndexNewline(s) == i
  {
  }

  lemma FirstLine(s: string)
    requires IndexNewline(s) < |s|
    ensures var i := IndexNewline(s); CompleteLines(s) == [s[..i]] + CompleteLines(s[i + 1..])
  {
    hide IndexNewline;
  }

  lemma NextLine(s: string)
    requires s != "" && Ended(s)
    ensures var i := IndexNewline(s);
            i < |s| && CompleteLines(s) == [s[..i]] + CompleteLines(s[i + 1..]) && Ended(s[i + 1..])
  {
    hide CompleteLines;
    assert s[|s| - 1] == NEWLINE;
    FirstLine(s);
  }

  /** Lines read up to the end of one and lines read from there are the lines of the whole. */
  lemma {:induction false} LinesAppend(s: string, t: string)
    requires Ended(s)
    ensures CompleteLines(s + t) == CompleteLines(s) + CompleteLines(t)
    decreases |s|
  {
    hide CompleteLines;
    if s == "" {
      NoLines(s);
      assert s + t == t;
    } else {
      var i := IndexNewline(s);
      NextLine(s);
      assert forall k :: 0 <= k < i ==> (s + t)[k] == s[k];
      IndexNewlineIs(s + t, i);
      FirstLine(s + t);
      assert (s + t)[..i] == s[..i] && (s + t)[i + 1..] == s[i + 1..] + t;
      LinesAppend(s[i + 1..], t);
    }
  }

  lemma NoLines(s: string)
    requires forall k :: 0 <= k < |s| ==> s[k] != NEWLINE
    ensures CompleteLines(s) == []
  {
    IndexNewlineIs(s, |s|);
  }

  /** What is left after the last newline holds no complete line. */
  lemma LinesOfPrefix(s: string)
    ensures CompleteLines(s) == CompleteLines(s[..LinesEnd(s)])
  {
    var n := LinesEnd(s);
    assert s == s[..n] + s[n..];
    LinesAppend(s[..n], s[n..]);
    NoLines(s[n..]);
  }

  lemma LinesEndIs(s: string, n: nat)
    requires n <= |s| && Ended(s[..n]) && forall k :: n <= k < |s| ==> s[k] != NEWLINE
    ensures LinesEnd(s) == n
  {
    var m := LinesEnd(s);
    assert m > 0 ==> s[..m][m - 1] == s[m - 1];
    assert n > 0 ==> s[..n][n - 1] == s[n - 1];
  }

  lemma LinesEndAppend(s: string, t: string)
    requires Ended(s)
    ensures LinesEnd(s + t) == |s| + LinesEnd(t) && Ended(s + t[..LinesEnd(t)])
  {
    hide LinesEnd;
    var n := LinesEnd(t);
    var m := |s| + n;
    assert (s + t)[..m] == s + t[..n];
    if n == 0 {
      assert s + t[..n] == s;
    } else {
      assert (s + t[..n])[m - 1] == t[..n][n - 1];
    }
    NoneAfter(s, t, n);
    LinesEndIs(s + t, m);
  }

  lemma NoneAfter(s: string, t: string, n: nat)
    requires forall k :: n <= k < |t| ==> t[k] != NEWLINE
    ensures forall k :: |s| + n <= k < |s + t| ==> (s + t)[k] != NEWLINE
  {
    assert forall k :: |s| <= k < |s + t| ==> (s + t)[k] == t[k - |s|];
  }

  // Batch totals.

  ghost function Messages(entries: seq<Entry>): set<Key> {
    set i | 0 <= i < |entries| && entries[i].Message().Some? :: entries[i].Message().value
  }

  ghost function Of(m: Key): Entry -> bool {
    (e: Entry) => e.Message() == Some(m)
  }

  ghost function LargestOf(entries: seq<Entry>, m: Key, f: Usage -> nat): nat {
    if entries == [] then 0 else
    var last := entries[|entries| - 1];
    var before := LargestOf(entries[..|entries| - 1], m, f);
    if Of(m)(last) && f(last.record.Counts()) > before then f(last.record.Counts()) else before
  }

  /** The largest count each message's records give. */
  ghost function Largest(entries: seq<Entry>, f: Usage -> nat): Key -> nat {
    m => LargestOf(entries, m, f)
  }

  /** When a message was first recorded. */
  ghost function FirstAt(entries: seq<Entry>, m: Key): int {
    match First(entries, Of(m)) case Some(e) => e.record.at case None => 0
  }

  function BucketOf(at: int): int {
    at - at % BUCKET
  }

  ghost function Anywhere(): int -> bool {
    (b: int) => true
  }

  ghost function Just(bucket: int): int -> bool {
    (b: int) => b == bucket
  }

  ghost function MessagesIn(entries: seq<Entry>, within: int -> bool): set<Key> {
    set m | m in Messages(entries) && within(BucketOf(FirstAt(entries, m)))
  }

  ghost function AnonymousIn(within: int -> bool): Entry -> bool {
    (e: Entry) => e.Message().None? && within(BucketOf(e.record.at))
  }

  ghost function Counting(f: Usage -> nat): Entry -> nat {
    (e: Entry) => f(e.record.Counts())
  }

  /** All records at once: the largest count of each message, in the bucket where it was first recorded, and every
      record without a message, in its own bucket. */
  ghost function Batch(entries: seq<Entry>, f: Usage -> nat, within: int -> bool): nat {
    SumSet(MessagesIn(entries, within), Largest(entries, f)) + Sum(entries, Only(AnonymousIn(within), Counting(f)))
  }

  lemma {:induction false} UnseenIsZero(entries: seq<Entry>, m: Key, f: Usage -> nat)
    requires m !in Messages(entries)
    ensures LargestOf(entries, m, f) == 0
    ensures First(entries, Of(m)).None?
  {
    if entries != [] {
      var n := |entries| - 1;
      assert entries == entries[..n] + [entries[n]];
      assert Messages(entries[..n]) <= Messages(entries) by {
        assert forall i :: 0 <= i < n ==> entries[..n][i] == entries[i];
      }
      assert entries[n].Message() != Some(m);
      UnseenIsZero(entries[..n], m, f);
      FirstSnoc(entries[..n], entries[n], Of(m));
    }
  }

  lemma {:induction false} SeenHasFirst(entries: seq<Entry>, m: Key)
    requires m in Messages(entries)
    ensures First(entries, Of(m)).Some?
  {
    if !Of(m)(entries[0]) {
      var i :| 0 <= i < |entries| && entries[i].Message() == Some(m);
      assert entries[1..][i - 1] == entries[i];
      SeenHasFirst(entries[1..], m);
    }
  }

  lemma MessagesSnoc(entries: seq<Entry>, e: Entry)
    ensures Messages(entries + [e]) == Messages(entries) + if e.Message().Some? then {e.Message().value} else {}
  {
    var more := entries + [e];
    assert forall i :: 0 <= i < |entries| ==> more[i] == entries[i];
    assert more[|entries|] == e;
    forall m | m in Messages(entries)
      ensures m in Messages(more)
    {
      var i :| 0 <= i < |entries| && entries[i].Message() == Some(m);
      assert more[i].Message() == Some(m);
    }
  }

  lemma FirstAtSnoc(entries: seq<Entry>, e: Entry, m: Key)
    requires m in Messages(entries + [e])
    ensures FirstAt(entries + [e], m) == if m in Messages(entries) then FirstAt(entries, m) else e.record.at
  {
    MessagesSnoc(entries, e);
    FirstSnoc(entries, e, Of(m));
    if m in Messages(entries) {
      SeenHasFirst(entries, m);
    } else {
      UnseenIsZero(entries, m, Input);
    }
  }

  lemma LargestSnoc(entries: seq<Entry>, e: Entry, m: Key, f: Usage -> nat)
    ensures LargestOf(entries + [e], m, f) == LargestOf(entries, m, f) +
              if e.Message() == Some(m) then Growth(LargestOf(entries, m, f), f(e.record.Counts())) else 0
  {
    assert (entries + [e])[..|entries|] == entries;
  }

  /** What one more record adds, and the time it is added at. */
  ghost function Gain(entries: seq<Entry>, e: Entry, f: Usage -> nat): nat {
    match e.Message()
    case None => f(e.record.Counts())
    case Some(m) => Growth(LargestOf(entries, m, f), f(e.record.Counts()))
  }

  ghost function Place(entries: seq<Entry>, e: Entry): int {
    match e.Message()
    case None => e.record.at
    case Some(m) => if m in Messages(entries) then FirstAt(entries, m) else e.record.at
  }

  lemma MessagesInSnoc(entries: seq<Entry>, e: Entry, within: int -> bool)
    ensures MessagesIn(entries + [e], within) == MessagesIn(entries, within)
              + if e.Message().Some? && within(BucketOf(Place(entries, e))) then {e.Message().value} else {}
    ensures e.Message().Some? && !within(BucketOf(Place(entries, e))) ==>
              e.Message().value !in MessagesIn(entries, within)
  {
    hide First, Messages;
    MessagesSnoc(entries, e);
    forall m | m in Messages(entries + [e])
      ensures FirstAt(entries + [e], m) == if m in Messages(entries) then FirstAt(entries, m) else e.record.at
    {
      FirstAtSnoc(entries, e, m);
    }
  }

  /** A sum over keys, one of which grows or is added. */
  lemma SumSetGrown<K>(before: set<K>, k: K, g: K -> nat, h: K -> nat)
    requires forall x :: x != k ==> h(x) == g(x)
    requires k in before || g(k) == 0
    ensures SumSet(before + {k}, h) + g(k) == SumSet(before, g) + h(k)
  {
    var after := before + {k};
    SumSetTake(after, k, h);
    SumSetCong(after - {k}, h, g);
    if k in before {
      SumSetTake(before, k, g);
      assert after == before;
    } else {
      assert after - {k} == before;
    }
  }

  lemma NewInIsZero(entries: seq<Entry>, e: Entry, m: Key, f: Usage -> nat, within: int -> bool)
    requires e.Message() == Some(m) && within(BucketOf(Place(entries, e)))
    ensures m in MessagesIn(entries, within) || LargestOf(entries, m, f) == 0
  {
    hide LargestOf, FirstAt;
    if m !in Messages(entries) {
      UnseenIsZero(entries, m, f);
    }
  }

  lemma LargestGrows(entries: seq<Entry>, e: Entry, f: Usage -> nat, within: int -> bool)
    ensures SumSet(MessagesIn(entries + [e], within), Largest(entries + [e], f))
         == SumSet(MessagesIn(entries, within), Largest(entries, f)) +
              if e.Message().Some? && within(BucketOf(Place(entries, e))) then Gain(entries, e, f) else 0
  {
    hide LargestOf, FirstAt, Messages, MessagesIn, BucketOf, Place, SumSet;
    var more := entries + [e];
    var before, added := Largest(entries, f), Largest(more, f);
    MessagesInSnoc(entries, e, within);
    forall m: Key
      ensures LargestOf(more, m, f) == LargestOf(entries, m, f) +
                if e.Message() == Some(m) then Growth(LargestOf(entries, m, f), f(e.record.Counts())) else 0
    {
      LargestSnoc(entries, e, m, f);
    }
    if e.Message().Some? && within(BucketOf(Place(entries, e))) {
      NewInIsZero(entries, e, e.Message().value, f, within);
      SumSetGrown(MessagesIn(entries, within), e.Message().value, before, added);
    } else {
      assert MessagesIn(more, within) == MessagesIn(entries, within);
      SumSetCong(MessagesIn(entries, within), added, before);
    }
  }

  lemma AnonymousGrows(entries: seq<Entry>, e: Entry, f: Usage -> nat, within: int -> bool)
    ensures var g := Only(AnonymousIn(within), Counting(f));
            Sum(entries + [e], g) == Sum(entries, g) +
              if e.Message().None? && within(BucketOf(Place(entries, e))) then Gain(entries, e, f) else 0
  {
    hide Sum, BucketOf;
    SumSnoc(entries, e, Only(AnonymousIn(within), Counting(f)));
  }

  /** One more record adds what it grows its message by, or all of itself when it has none. */
  lemma BatchSnoc(entries: seq<Entry>, e: Entry, f: Usage -> nat, within: int -> bool)
    ensures Batch(entries + [e], f, within)
         == Batch(entries, f, within) + if within(BucketOf(Place(entries, e))) then Gain(entries, e, f) else 0
  {
    hide Largest, MessagesIn, BucketOf, Place, Gain, SumSet, Sum;
    LargestGrows(entries, e, f, within);
    AnonymousGrows(entries, e, f, within);
  }

  // The order does not matter.

  lemma {:induction false} LargestBounds(entries: seq<Entry>, m: Key, f: Usage -> nat)
    ensures forall e :: e in entries && Of(m)(e) ==> f(e.record.Counts()) <= LargestOf(entries, m, f)
    ensures || LargestOf(entries, m, f) == 0
            || exists e :: e in entries && Of(m)(e) && f(e.record.Counts()) == LargestOf(entries, m, f)
  {
    if entries != [] {
      var n := |entries| - 1;
      LargestBounds(entries[..n], m, f);
      assert entries == entries[..n] + [entries[n]];
    }
  }

  lemma LargestSame(a: seq<Entry>, b: seq<Entry>, m: Key, f: Usage -> nat)
    requires forall e :: e in a ==> e in b
    ensures LargestOf(a, m, f) <= LargestOf(b, m, f)
  {
    LargestBounds(a, m, f);
    LargestBounds(b, m, f);
  }

  lemma MessagesSame(a: seq<Entry>, b: seq<Entry>)
    requires forall e :: e in a ==> e in b
    ensures Messages(a) <= Messages(b)
  {
    forall m | m in Messages(a)
      ensures m in Messages(b)
    {
      var i :| 0 <= i < |a| && a[i].Message() == Some(m);
      assert a[i] in b;
    }
  }

  lemma SumWithout(s: seq<Entry>, i: nat, f: Entry -> nat)
    requires i < |s|
    ensures Sum(s, f) == Sum(s[..i] + s[i + 1..], f) + f(s[i])
    ensures multiset(s) == multiset(s[..i] + s[i + 1..]) + multiset{s[i]}
  {
    hide Sum;
    var a, x, b := s[..i], s[i], s[i + 1..];
    assert s == a + [x] + b;
    MultisetOfParts(a, x, b);
    SumAppend(a, b, f);
    SumAppend(a + [x], b, f);
    SumSnoc(a, x, f);
  }

  lemma MultisetOfParts(a: seq<Entry>, x: Entry, b: seq<Entry>)
    ensures multiset(a + [x] + b) == multiset(a + b) + multiset{x}
  {
  }

  lemma Cancel(x: multiset<Entry>, y: multiset<Entry>, e: Entry)
    requires x + multiset{e} == y + multiset{e}
    ensures x == y
  {
    assert x == (x + multiset{e}) - multiset{e};
    assert y == (y + multiset{e}) - multiset{e};
  }

  lemma {:induction false} SumIgnoresOrder(a: seq<Entry>, b: seq<Entry>, f: Entry -> nat)
    requires multiset(a) == multiset(b)
    ensures Sum(a, f) == Sum(b, f)
    decreases |a|
  {
    hide Sum;
    if a == [] || b == [] {
      assert |multiset(a)| == |a| && |multiset(b)| == |b|;
    } else {
      assert a[0] in multiset(a);
      var i :| 0 <= i < |b| && b[i] == a[0];
      var s, t := a[..0] + a[1..], b[..i] + b[i + 1..];
      SumWithout(a, 0, f);
      SumWithout(b, i, f);
      Cancel(multiset(s), multiset(t), a[0]);
      SumIgnoresOrder(s, t, f);
    }
  }

  /** The totals depend on which records there are, not on the order in which they are read. */
  lemma BatchIgnoresOrder(a: seq<Entry>, b: seq<Entry>, f: Usage -> nat)
    requires multiset(a) == multiset(b)
    ensures Batch(a, f, Anywhere()) == Batch(b, f, Anywhere())
  {
    hide LargestOf, FirstAt;
    forall e: Entry
      ensures e in a <==> e in b
    {
      assert e in a <==> e in multiset(a);
      assert e in b <==> e in multiset(b);
    }
    MessagesSame(a, b);
    MessagesSame(b, a);
    forall m: Key
      ensures LargestOf(a, m, f) == LargestOf(b, m, f)
    {
      LargestSame(a, b, m, f);
      LargestSame(b, a, m, f);
    }
    hide Messages;
    assert MessagesIn(a, Anywhere()) == Messages(a) == MessagesIn(b, Anywhere());
    SumSetCong(Messages(a), Largest(a, f), Largest(b, f));
    SumIgnoresOrder(a, b, Only(AnonymousIn(Anywhere()), Counting(f)));
  }

  const ByPath: Entry -> string := (e: Entry) => e.path

  ghost function From(entries: seq<Entry>, path: string): seq<Entry> {
    Filter(entries, Member(ByPath, path))
  }

  lemma {:induction false} FromCounts(entries: seq<Entry>, e: Entry)
    ensures multiset(entries)[e] == multiset(From(entries, e.path))[e]
  {
    if entries != [] {
      var n := |entries| - 1;
      assert entries == entries[..n] + [entries[n]];
      FromCounts(entries[..n], e);
    }
  }

  /** Readings of the same files, interleaved anyhow, hand over the same records. */
  lemma SameFiles(a: seq<Entry>, b: seq<Entry>)
    requires forall path :: From(a, path) == From(b, path)
    ensures multiset(a) == multiset(b)
  {
    forall e: Entry
      ensures multiset(a)[e] == multiset(b)[e]
    {
      FromCounts(a, e);
      FromCounts(b, e);
      assert From(a, e.path) == From(b, e.path);
    }
  }

  // The number of requests.

  /** A request is counted by its first record, if that has any tokens. */
  ghost predicate Asks(entries: seq<Entry>, e: Entry) {
    !e.record.Counts().Empty() && (e.Message().Some? ==> e.Message().value !in Messages(entries))
  }

  ghost function Asked(entries: seq<Entry>, within: int -> bool): nat {
    if entries == [] then 0 else
    var n := |entries| - 1;
    Asked(entries[..n], within) +
    if Asks(entries[..n], entries[n]) && within(BucketOf(entries[n].record.at)) then 1 else 0
  }

  lemma AskedSnoc(entries: seq<Entry>, e: Entry, within: int -> bool)
    ensures Asked(entries + [e], within)
            == Asked(entries, within) + if Asks(entries, e) && within(BucketOf(e.record.at)) then 1 else 0
  {
    assert (entries + [e])[..|entries|] == entries;
  }

  /** A record without a message, with tokens. */
  ghost function FullAnonymous(): Entry -> bool {
    (e: Entry) => e.Message().None? && !e.record.Counts().Empty()
  }

  ghost predicate StartsFull(entries: seq<Entry>, m: Key) {
    match First(entries, Of(m)) case Some(e) => !e.record.Counts().Empty() case None => false
  }

  /** The messages whose first record has tokens. */
  ghost function FullStarts(entries: seq<Entry>): set<Key> {
    set m | m in Messages(entries) && StartsFull(entries, m)
  }

  /** Requests are the messages whose first record has tokens, plus the records with tokens and without a message. */
  lemma {:induction false} AskedExact(entries: seq<Entry>)
    ensures Asked(entries, Anywhere()) == |FullStarts(entries)| + Count(entries, FullAnonymous())
  {
    if entries == [] {
      assert FullStarts(entries) == {};
    } else {
      hide Messages, Sum, Asked, BucketOf, FullStarts;
      var n := |entries| - 1;
      var before, last := entries[..n], entries[n];
      assert entries == before + [last];
      AskedExact(before);
      AskedSnoc(before, last, Anywhere());
      SumSnoc(before, last, Indicator(FullAnonymous()));
      FullStartsSnoc(before, last);
    }
  }

  lemma FullStartsSnoc(entries: seq<Entry>, e: Entry)
    ensures |FullStarts(entries + [e])|
            == |FullStarts(entries)| + if Asks(entries, e) && e.Message().Some? then 1 else 0
  {
    hide Messages, First;
    MessagesSnoc(entries, e);
    forall m: Key
      ensures StartsFull(entries + [e], m) <==>
                if m in Messages(entries) then StartsFull(entries, m) else Of(m)(e) && !e.record.Counts().Empty()
    {
      FirstSnoc(entries, e, Of(m));
      if m in Messages(entries) {
        SeenHasFirst(entries, m);
      } else {
        UnseenIsZero(entries, m, Input);
      }
    }
    if Asks(entries, e) && e.Message().Some? {
      assert FullStarts(entries + [e]) == FullStarts(entries) + {e.Message().value};
    } else {
      assert FullStarts(entries + [e]) == FullStarts(entries);
    }
  }

  /** Some message has both a record without tokens and one with tokens. */
  ghost predicate Mixed(entries: seq<Entry>) {
    exists blank, full :: blank in entries && full in entries && Mixes(blank, full)
  }

  ghost predicate Mixes(blank: Entry, full: Entry) {
    && blank.Message().Some? && blank.Message() == full.Message()
    && blank.record.Counts().Empty() && !full.record.Counts().Empty()
  }

  lemma SameMembers(a: seq<Entry>, b: seq<Entry>)
    requires multiset(a) == multiset(b)
    ensures forall e :: e in a <==> e in b
    ensures Messages(a) == Messages(b)
  {
    forall e: Entry
      ensures e in a <==> e in b
    {
      assert e in a <==> e in multiset(a);
      assert e in b <==> e in multiset(b);
    }
    MessagesSame(a, b);
    MessagesSame(b, a);
  }

  /** In any order, the requests are the same when no message is mixed. */
  lemma AskedIgnoresOrder(a: seq<Entry>, b: seq<Entry>)
    requires multiset(a) == multiset(b) && !Mixed(a)
    ensures Asked(a, Anywhere()) == Asked(b, Anywhere())
  {
    hide Messages, Asked, First, Sum;
    SameMembers(a, b);
    forall m | m in Messages(a)
      ensures StartsFull(a, m) <==> StartsFull(b, m)
    {
      SeenHasFirst(a, m);
      SeenHasFirst(b, m);
      FirstIn(a, Of(m));
      FirstIn(b, Of(m));
      var e, f := First(a, Of(m)).value, First(b, Of(m)).value;
      FirstHas(a, Of(m));
      FirstHas(b, Of(m));
      assert !Mixes(e, f) && !Mixes(f, e);
    }
    assert FullStarts(a) == FullStarts(b);
    AskedExact(a);
    AskedExact(b);
    SumIgnoresOrder(a, b, Indicator(FullAnonymous()));
  }

  lemma {:induction false} FirstHas(s: seq<Entry>, p: Entry -> bool)
    ensures match First(s, p) case Some(e) => p(e) case None => true
  {
    if s != [] {
      FirstHas(s[1..], p);
    }
  }

  lemma FirstOfTwo(x: Entry, y: Entry, rest: seq<Entry>, p: Entry -> bool)
    ensures First([x, y] + rest, p) == if p(x) then Some(x) else if p(y) then Some(y) else First(rest, p)
  {
    assert ([x, y] + rest)[1..] == [y] + rest && ([y] + rest)[1..] == rest;
  }

  /** Read before the full record of its message, the empty one keeps it from being counted as a request. */
  lemma BlankFirst(blank: Entry, full: Entry, rest: seq<Entry>)
    requires Mixes(blank, full)
    ensures Asked([full, blank] + rest, Anywhere()) == Asked([blank, full] + rest, Anywhere()) + 1
  {
    hide Messages, Asked, First, Sum;
    var a, b := [blank, full] + rest, [full, blank] + rest;
    var m := blank.Message().value;
    SwapFirst(blank, full, rest);
    SameMembers(a, b);
    forall k: Key
      ensures StartsFull(b, k) <==> StartsFull(a, k) || k == m
      ensures !StartsFull(a, m)
    {
      FirstOfTwo(blank, full, rest, Of(k));
      FirstOfTwo(full, blank, rest, Of(k));
      FirstOfTwo(blank, full, rest, Of(m));
    }
    MessageIn(a, 0);
    assert FullStarts(b) == FullStarts(a) + {m};
    AskedExact(a);
    AskedExact(b);
    SumIgnoresOrder(a, b, Indicator(FullAnonymous()));
  }

  lemma SwapFirst(x: Entry, y: Entry, rest: seq<Entry>)
    ensures multiset([x, y] + rest) == multiset{x, y} + multiset(rest)
    ensures multiset([x, y] + rest) == multiset([y, x] + rest)
  {
  }

  lemma MessageIn(entries: seq<Entry>, i: nat)
    requires i < |entries| && entries[i].Message().Some?
    ensures entries[i].Message().value in Messages(entries)
  {
  }

  /** The number of requests is the same in every order if and only if no message has both a record without tokens
      and one with tokens. */
  lemma AskedSteady(entries: seq<Entry>)
    ensures !Mixed(entries) <==>
            forall b: seq<Entry> :: multiset(b) == multiset(entries) ==>
              Asked(b, Anywhere()) == Asked(entries, Anywhere())
  {
    hide Mixed, Asked, Mixes;
    forall b: seq<Entry> | !Mixed(entries) && multiset(b) == multiset(entries)
      ensures Asked(b, Anywhere()) == Asked(entries, Anywhere())
    {
      AskedIgnoresOrder(entries, b);
    }
    if Mixed(entries) {
      var blank, full, rest := TakeMixed(entries);
      SwapFirst(blank, full, rest);
      BlankFirst(blank, full, rest);
      var a, b := [blank, full] + rest, [full, blank] + rest;
      assert multiset(a) == multiset(entries) && multiset(b) == multiset(entries);
    }
  }

  lemma TakeMixed(entries: seq<Entry>) returns (blank: Entry, full: Entry, rest: seq<Entry>)
    requires Mixed(entries)
    ensures Mixes(blank, full) && multiset{blank, full} + multiset(rest) == multiset(entries)
  {
    blank, full :| blank in entries && full in entries && Mixes(blank, full);
    var i :| 0 <= i < |entries| && entries[i] == blank;
    var most := entries[..i] + entries[i + 1..];
    SumWithout(entries, i, Counting(Input));
    assert full in multiset(entries) && full in multiset(most);
    var j :| 0 <= j < |most| && most[j] == full;
    SumWithout(most, j, Counting(Input));
    rest := most[..j] + most[j + 1..];
  }

  // The scanner.

  /** The records of some lines of a file, those that are usage records. */
  ghost function Records(path: string, lines: seq<string>, parse: string -> Option<Record>): seq<Entry> {
    if lines == [] then [] else Records(path, lines[..|lines| - 1], parse) + LineRecord(path, lines[|lines| - 1], parse)
  }

  ghost function LineRecord(path: string, line: string, parse: string -> Option<Record>): seq<Entry> {
    match parse(line) case Some(r) => [Entry(path, r, 0)] case None => []
  }

  ghost function Life(lives: map<string, nat>, id: string): nat {
    if id in lives then lives[id] else 0
  }

  ghost function Born(e: Entry, lives: map<string, nat>): Entry {
    e.(life := if e.record.message.Some? then Life(lives, e.record.message.value) else 0)
  }

  /** The records with the lives their messages are in. */
  ghost function Living(entries: seq<Entry>, lives: map<string, nat>): seq<Entry> {
    seq(|entries|, i requires 0 <= i < |entries| => Born(entries[i], lives))
  }

  /** The records as they were written, whatever the lives. */
  ghost function Bare(entries: seq<Entry>): seq<Entry> {
    seq(|entries|, i requires 0 <= i < |entries| => entries[i].(life := 0))
  }

  ghost function Column(buckets: map<int, Usage>, f: Usage -> nat): int -> nat {
    b => if b in buckets then f(buckets[b]) else 0
  }

  /** What the buckets add up to. */
  ghost function Total(buckets: map<int, Usage>, f: Usage -> nat): nat {
    SumSet(buckets.Keys, Column(buckets, f))
  }

  function Added(buckets: map<int, Usage>, at: int, usage: Usage): map<int, Usage> {
    var b := BucketOf(at);
    buckets[b := (if b in buckets then buckets[b] else NOTHING).Plus(usage)]
  }

  ghost predicate Additive(f: Usage -> nat) {
    f(NOTHING) == 0 && forall u: Usage, v :: f(u.Plus(v)) == f(u) + f(v)
  }

  lemma TotalAdded(buckets: map<int, Usage>, at: int, usage: Usage, f: Usage -> nat)
    requires Additive(f)
    ensures Total(Added(buckets, at, usage), f) == Total(buckets, f) + f(usage)
    ensures forall b :: Column(Added(buckets, at, usage), f)(b)
                        == Column(buckets, f)(b) + if b == BucketOf(at) then f(usage) else 0
  {
    var b := BucketOf(at);
    var more := Added(buckets, at, usage);
    SumSetTake(more.Keys, b, Column(more, f));
    SumSetCong(more.Keys - {b}, Column(more, f), Column(buckets, f));
    if b in buckets {
      SumSetTake(buckets.Keys, b, Column(buckets, f));
      assert more.Keys == buckets.Keys;
    } else {
      assert more.Keys - {b} == buckets.Keys;
    }
  }

  lemma {:induction false} RecordsAppend(path: string, s: seq<string>, t: seq<string>, parse: string -> Option<Record>)
    ensures Records(path, s + t, parse) == Records(path, s, parse) + Records(path, t, parse)
  {
    if t == [] {
      assert s + t == s;
    } else {
      assert (s + t)[..|s + t| - 1] == s + t[..|t| - 1];
      RecordsAppend(path, s, t[..|t| - 1], parse);
    }
  }

  lemma {:induction false} RecordsFrom(path: string, lines: seq<string>, parse: string -> Option<Record>, other: string)
    ensures From(Records(path, lines, parse), other) == if other == path then Records(path, lines, parse) else []
  {
    if lines != [] {
      RecordsFrom(path, lines[..|lines| - 1], parse, other);
      FilterAppend(Records(path, lines[..|lines| - 1], parse), LineRecord(path, lines[|lines| - 1], parse),
        Member(ByPath, other));
    }
  }

  // What one usage record does to what is kept of its message.

  function Grown(seen: map<string, Seen>, r: Record): Usage {
    if r.message.Some? && r.message.value in seen then
      var u := seen[r.message.value].usage;
      Usage(0, Growth(u.input, r.input), Growth(u.output, r.output), Growth(u.cache, r.cache))
    else r.Counts()
  }

  function GrownAt(seen: map<string, Seen>, r: Record): int {
    if r.message.Some? && r.message.value in seen then seen[r.message.value].at else r.at
  }

  function Kept(seen: map<string, Seen>, r: Record): map<string, Seen> {
    if r.message.None? then seen
    else if r.message.value !in seen then seen[r.message.value := Seen(r.at, r.Counts())]
    else
      var s, g := seen[r.message.value], Grown(seen, r);
      seen[r.message.value :=
        s.(usage := Usage(s.usage.requests, s.usage.input + g.input, s.usage.output + g.output,
          s.usage.cache + g.cache))]
  }

  /** What is kept of each message is its first time and its largest counts in its present life; what is not kept has
      no record in its present life yet. */
  ghost predicate Remembers(seen: map<string, Seen>, handed: seq<Entry>, lives: map<string, nat>) {
    && (forall m :: m in Messages(handed) ==>
         m.life <= Life(lives, m.id) && (m.life == Life(lives, m.id) ==> m.id in seen))
    && forall id :: id in seen ==>
         Key(id, Life(lives, id)) in Messages(handed) && Summed(seen[id], handed, Key(id, Life(lives, id)))
  }

  ghost predicate Summed(kept: Seen, handed: seq<Entry>, m: Key) {
    && kept.at == FirstAt(handed, m)
    && kept.usage.input == LargestOf(handed, m, Input)
    && kept.usage.output == LargestOf(handed, m, Output)
    && kept.usage.cache == LargestOf(handed, m, Cache)
  }

  /** From a time on, each bucket holds its own part of the batch totals. */
  ghost predicate Holds(buckets: map<int, Usage>, handed: seq<Entry>, f: Usage -> nat, since: int) {
    forall b: int :: b >= since ==> Column(buckets, f)(b) == Batch(handed, f, Just(b))
  }

  ghost predicate HoldsRequests(buckets: map<int, Usage>, handed: seq<Entry>, since: int) {
    forall b: int :: b >= since ==> Column(buckets, Requests)(b) == Asked(handed, Just(b))
  }

  ghost predicate Recent(handed: seq<Entry>, oldest: int) {
    forall e :: e in handed ==> e.record.at >= oldest
  }

  /** Every bucket is that of some record. */
  ghost predicate Placed(buckets: map<int, Usage>, handed: seq<Entry>) {
    forall b: int :: b in buckets ==> Any(handed, InBucket(b))
  }

  ghost function InBucket(b: int): Entry -> bool {
    (e: Entry) => BucketOf(e.record.at) == b
  }

  /** Nothing was ever dropped: the buckets add up to the batch totals, and every message is in its first life. */
  ghost predicate Undropped(buckets: map<int, Usage>, handed: seq<Entry>, lives: map<string, nat>) {
    && Total(buckets, Input) == Batch(handed, Input, Anywhere())
    && Total(buckets, Output) == Batch(handed, Output, Anywhere())
    && Total(buckets, Cache) == Batch(handed, Cache, Anywhere())
    && Total(buckets, Requests) == Asked(handed, Anywhere())
    && Placed(buckets, handed)
    && (forall id: string :: Life(lives, id) == 0) && forall e :: e in handed ==> e.life == 0
  }

  lemma KeptRemembers(seen: map<string, Seen>, handed: seq<Entry>, lives: map<string, nat>, e: Entry)
    requires Remembers(seen, handed, lives) && e == Born(e, lives)
    ensures Remembers(Kept(seen, e.record), handed + [e], lives)
  {
    hide LargestOf, First, Messages;
    var more := handed + [e];
    MessagesSnoc(handed, e);
    forall m | m in Messages(more)
      ensures FirstAt(more, m) == if m in Messages(handed) then FirstAt(handed, m) else e.record.at
    {
      FirstAtSnoc(handed, e, m);
    }
    forall f: Usage -> nat, m: Key
      ensures LargestOf(more, m, f) == LargestOf(handed, m, f) +
                if e.Message() == Some(m) then Growth(LargestOf(handed, m, f), f(e.record.Counts())) else 0
      ensures m !in Messages(handed) ==> LargestOf(handed, m, f) == 0
    {
      LargestSnoc(handed, e, m, f);
      if m !in Messages(handed) {
        UnseenIsZero(handed, m, f);
      }
    }
  }

  lemma GrownIsGain(seen: map<string, Seen>, handed: seq<Entry>, lives: map<string, nat>, e: Entry)
    requires Remembers(seen, handed, lives) && e == Born(e, lives)
    ensures GrownAt(seen, e.record) == Place(handed, e)
    ensures Grown(seen, e.record).input == Gain(handed, e, Input)
    ensures Grown(seen, e.record).output == Gain(handed, e, Output)
    ensures Grown(seen, e.record).cache == Gain(handed, e, Cache)
    ensures Grown(seen, e.record).requests
            == if e.Message().Some? && e.Message().value in Messages(handed) then 0 else 1
  {
    hide LargestOf, FirstAt, Messages;
    if e.Message().Some? && e.Message().value !in Messages(handed) {
      UnseenIsZero(handed, e.Message().value, Input);
      UnseenIsZero(handed, e.Message().value, Output);
      UnseenIsZero(handed, e.Message().value, Cache);
    }
  }

  /** The buckets after one more record. */
  function Counted(buckets: map<int, Usage>, at: int, usage: Usage): map<int, Usage> {
    if usage.Empty() then buckets else Added(buckets, at, usage)
  }

  /** What is placed before the oldest time is dropped. */
  function CountedSince(buckets: map<int, Usage>, at: int, usage: Usage, oldest: int): map<int, Usage> {
    if at < oldest then buckets else Counted(buckets, at, usage)
  }

  lemma CountedHolds(buckets: map<int, Usage>, handed: seq<Entry>, e: Entry, usage: Usage, f: Usage -> nat, oldest: int,
                     since: int)
    requires Holds(buckets, handed, f, since) && Additive(f) && oldest <= since
    requires f(usage) == Gain(handed, e, f) && (usage.Empty() ==> f(usage) == 0)
    ensures Holds(CountedSince(buckets, Place(handed, e), usage, oldest), handed + [e], f, since)
  {
    hide Batch, Gain, Place, Added, Total, Column;
    TotalAdded(buckets, Place(handed, e), usage, f);
    forall b: int | b >= since
      ensures Column(CountedSince(buckets, Place(handed, e), usage, oldest), f)(b) == Batch(handed + [e], f, Just(b))
    {
      BatchSnoc(handed, e, f, Just(b));
    }
  }

  lemma CountedHoldsRequests(buckets: map<int, Usage>, handed: seq<Entry>, e: Entry, usage: Usage, oldest: int,
                             since: int)
    requires HoldsRequests(buckets, handed, since) && oldest <= since
    requires usage.requests == if e.Message().Some? && e.Message().value in Messages(handed) then 0 else 1
    requires usage.requests == 1 ==> usage == e.record.Counts()
    ensures HoldsRequests(CountedSince(buckets, Place(handed, e), usage, oldest), handed + [e], since)
  {
    hide Asked, Added, Total, Column, Messages, FirstAt;
    assert Additive(Requests);
    TotalAdded(buckets, Place(handed, e), usage, Requests);
    forall b: int | b >= since
      ensures Column(CountedSince(buckets, Place(handed, e), usage, oldest), Requests)(b)
                == Asked(handed + [e], Just(b))
    {
      AskedSnoc(handed, e, Just(b));
    }
  }

  /** One more record keeps each bucket at its part of the batch totals. */
  lemma StepHolds(buckets: map<int, Usage>, seen: map<string, Seen>, handed: seq<Entry>, lives: map<string, nat>,
                  e: Entry, oldest: int, since: int)
    requires Remembers(seen, handed, lives) && e == Born(e, lives) && oldest <= since
    requires Holds(buckets, handed, Input, since) && Holds(buckets, handed, Output, since)
    requires Holds(buckets, handed, Cache, since)
    requires HoldsRequests(buckets, handed, since)
    ensures var more := CountedSince(buckets, GrownAt(seen, e.record), Grown(seen, e.record), oldest);
            && Holds(more, handed + [e], Input, since)
            && Holds(more, handed + [e], Output, since)
            && Holds(more, handed + [e], Cache, since)
            && HoldsRequests(more, handed + [e], since)
  {
    hide Holds, HoldsRequests, CountedSince, Remembers, Gain, Place, Messages, LargestOf, FirstAt;
    GrownIsGain(seen, handed, lives, e);
    var usage := Grown(seen, e.record);
    assert Additive(Input) && Additive(Output) && Additive(Cache);
    CountedHolds(buckets, handed, e, usage, Input, oldest, since);
    CountedHolds(buckets, handed, e, usage, Output, oldest, since);
    CountedHolds(buckets, handed, e, usage, Cache, oldest, since);
    CountedHoldsRequests(buckets, handed, e, usage, oldest, since);
  }

  /** And, while no record is older than the oldest time, the sums of all buckets at the whole totals. */
  lemma StepUndropped(buckets: map<int, Usage>, seen: map<string, Seen>, handed: seq<Entry>, lives: map<string, nat>,
                      e: Entry, oldest: int)
    requires Remembers(seen, handed, lives) && e == Born(e, lives) && Undropped(buckets, handed, lives)
    requires Recent(handed + [e], oldest)
    ensures Undropped(CountedSince(buckets, GrownAt(seen, e.record), Grown(seen, e.record), oldest), handed + [e],
              lives)
  {
    hide Remembers, Gain, Place, Messages, LargestOf, FirstAt, Batch, Asked, Total, Placed, Counted;
    GrownIsGain(seen, handed, lives, e);
    PlaceIsRecent(handed, e, oldest);
    var usage := Grown(seen, e.record);
    assert Additive(Input) && Additive(Output) && Additive(Cache) && Additive(Requests);
    TotalCounted(buckets, handed, e, usage, Input);
    TotalCounted(buckets, handed, e, usage, Output);
    TotalCounted(buckets, handed, e, usage, Cache);
    TotalRequests(buckets, handed, e, usage);
    CountedPlaced(buckets, handed, e, usage);
  }

  lemma TotalCounted(buckets: map<int, Usage>, handed: seq<Entry>, e: Entry, usage: Usage, f: Usage -> nat)
    requires Additive(f) && f(usage) == Gain(handed, e, f) && (usage.Empty() ==> f(usage) == 0)
    ensures Total(Counted(buckets, Place(handed, e), usage), f) - Total(buckets, f)
            == Batch(handed + [e], f, Anywhere()) - Batch(handed, f, Anywhere())
  {
    hide Batch, Gain, Place, Added, Total, Column, BucketOf;
    TotalAdded(buckets, Place(handed, e), usage, f);
    BatchSnoc(handed, e, f, Anywhere());
  }

  lemma TotalRequests(buckets: map<int, Usage>, handed: seq<Entry>, e: Entry, usage: Usage)
    requires usage.requests == if e.Message().Some? && e.Message().value in Messages(handed) then 0 else 1
    requires usage.requests == 1 ==> usage == e.record.Counts()
    ensures Total(Counted(buckets, Place(handed, e), usage), Requests) - Total(buckets, Requests)
            == Asked(handed + [e], Anywhere()) - Asked(handed, Anywhere())
  {
    hide Asked, Added, Total, Column, BucketOf, Messages, FirstAt;
    assert Additive(Requests);
    TotalAdded(buckets, Place(handed, e), usage, Requests);
    AskedSnoc(handed, e, Anywhere());
  }

  lemma CountedPlaced(buckets: map<int, Usage>, handed: seq<Entry>, e: Entry, usage: Usage)
    requires Placed(buckets, handed)
    ensures Placed(Counted(buckets, Place(handed, e), usage), handed + [e])
  {
    hide BucketOf, Place;
    PlaceIsSome(handed, e);
    forall b: int | b in Counted(buckets, Place(handed, e), usage)
      ensures Any(handed + [e], InBucket(b))
    {
      AnySnoc(handed, e, InBucket(b));
    }
  }

  lemma PlaceIsSome(handed: seq<Entry>, e: Entry)
    ensures Any(handed + [e], InBucket(BucketOf(Place(handed, e))))
  {
    var p := InBucket(BucketOf(Place(handed, e)));
    AnySnoc(handed, e, p);
    if e.Message().Some? && e.Message().value in Messages(handed) {
      SeenHasFirst(handed, e.Message().value);
      FirstIn(handed, Of(e.Message().value));
      var i :| 0 <= i < |handed| && First(handed, Of(e.Message().value)) == Some(handed[i]);
      assert p(handed[i]);
    }
  }

  lemma PlaceIsRecent(handed: seq<Entry>, e: Entry, oldest: int)
    requires Recent(handed + [e], oldest)
    ensures Place(handed, e) >= oldest
  {
    if e.Message().Some? && e.Message().value in Messages(handed) {
      SeenHasFirst(handed, e.Message().value);
      FirstIn(handed, Of(e.Message().value));
    }
  }

  lemma {:induction false} FirstIn(s: seq<Entry>, p: Entry -> bool)
    ensures match First(s, p) case Some(e) => e in s case None => true
  {
    if s != [] {
      FirstIn(s[1..], p);
    }
  }

  // Readings.

  lemma BareAppend(s: seq<Entry>, t: seq<Entry>)
    ensures Bare(s + t) == Bare(s) + Bare(t)
  {
  }

  lemma BareLiving(entries: seq<Entry>, lives: map<string, nat>)
    ensures Bare(Living(entries, lives)) == Bare(entries)
  {
  }

  lemma BareFirstLives(entries: seq<Entry>)
    requires forall e :: e in entries ==> e.life == 0
    ensures Bare(entries) == entries
  {
  }

  lemma {:induction false} RecordsAreBare(path: string, lines: seq<string>, parse: string -> Option<Record>)
    ensures Bare(Records(path, lines, parse)) == Records(path, lines, parse)
  {
    if lines != [] {
      var n := |lines| - 1;
      RecordsAreBare(path, lines[..n], parse);
      BareAppend(Records(path, lines[..n], parse), LineRecord(path, lines[n], parse));
      assert Bare(LineRecord(path, lines[n], parse)) == LineRecord(path, lines[n], parse);
    }
  }

  lemma LivingAppend(s: seq<Entry>, t: seq<Entry>, lives: map<string, nat>)
    ensures Living(s + t, lives) == Living(s, lives) + Living(t, lives)
  {
  }

  /** The token scanner, for the logs of one tool. */
  class Scanner {
    // How a line is read: none for a line that is no usage record.
    const parse: string -> Option<Record>
    var offsets: map<string, nat>
    var buckets: map<int, Usage>
    var seen: map<string, Seen>
    // The records handed over so far, with the lives of their messages; the part of each file that has been read; and
    // the records of what was read of it before it got shorter.
    ghost var handed: seq<Entry>
    ghost var lives: map<string, nat>
    ghost var consumed: map<string, string>
    ghost var past: map<string, seq<Entry>>

    /** Each bucket from a time on holds its part of the batch totals of all that was handed over. */
    ghost predicate Valid(since: int)
      reads `buckets, `seen, `handed, `lives
    {
      && Remembers(seen, handed, lives)
      && Holds(buckets, handed, Input, since)
      && Holds(buckets, handed, Output, since)
      && Holds(buckets, handed, Cache, since)
      && HoldsRequests(buckets, handed, since)
    }

    ghost predicate Whole()
      reads `buckets, `handed, `lives
    {
      Undropped(buckets, handed, lives)
    }

    ghost function Read(path: string): string
      reads `consumed
    {
      if path in consumed then consumed[path] else ""
    }

    ghost function Past(path: string): seq<Entry>
      reads `past
    {
      if path in past then past[path] else []
    }

    function Offset(path: string): nat
      reads `offsets
    {
      if path in offsets then offsets[path] else 0
    }

    ghost predicate TracksFile(path: string)
      reads `offsets, `handed, `consumed, `past
    {
      && |Read(path)| == Offset(path)
      && Ended(Read(path))
      && From(Bare(handed), path) == Past(path) + Records(path, CompleteLines(Read(path)), parse)
    }

    /** Each complete line of what was read was handed over exactly once. */
    ghost predicate Tracks()
      reads `offsets, `handed, `consumed, `past
    {
      forall path: string :: TracksFile(path)
    }

    constructor (parse: string -> Option<Record>)
      ensures (forall since: int :: Valid(since)) && Whole() && Tracks()
      ensures this.parse == parse && handed == [] && offsets == map[] && consumed == map[] && past == map[]
    {
      this.parse := parse;
      offsets, buckets, seen := map[], map[], map[];
      handed, lives, consumed, past := [], map[], map[], map[];
      new;
      assert forall b, f :: Column(buckets, f)(b) == 0;
      assert forall f, within :: Batch(handed, f, within) == 0;
    }

    method Add(at: int, oldest: int, usage: Usage)
      modifies `buckets
      ensures buckets == CountedSince(old(buckets), at, usage, oldest)
    {
      if usage.Empty() || at < oldest {
        return;
      }
      var bucket := BucketOf(at);
      var value := if bucket in buckets then buckets[bucket] else NOTHING;
      buckets := buckets[bucket := value.Plus(usage)];
    }

    /** The tokens a record adds and the time to add them at; false when it adds none. */
    method UsageDelta(r: Record) returns (at: int, usage: Usage, ok: bool)
      modifies `seen
      ensures seen == Kept(old(seen), r)
      ensures ok ==> at == GrownAt(old(seen), r) && usage == Grown(old(seen), r)
      ensures !ok ==> Grown(old(seen), r).Empty()
    {
      usage := Usage(1, r.input, r.output, r.cache);
      if r.message.None? {
        return r.at, usage, true;
      }
      var key := r.message.value;
      if key !in seen {
        seen := seen[key := Seen(r.at, usage)];
        return r.at, usage, true;
      }
      var previous := seen[key];
      var growth := Usage(0, Growth(previous.usage.input, usage.input), Growth(previous.usage.output, usage.output),
        Growth(previous.usage.cache, usage.cache));
      if growth.Empty() {
        assert Kept(seen, r) == seen;
        return 0, growth, false;
      }
      var u := previous.usage;
      previous := previous.(usage := u.(input := u.input + growth.input, output := u.output + growth.output,
        cache := u.cache + growth.cache));
      seen := seen[key := previous];
      return previous.at, growth, true;
    }

    method ClaudeLine(path: string, line: string, oldest: int, ghost since: int)
      requires Valid(since) && oldest <= since
      modifies `buckets, `seen, `handed
      ensures Valid(since) && handed == old(handed) + Living(LineRecord(path, line, parse), lives)
      ensures old(Whole()) && Recent(handed, oldest) ==> Whole()
    {
      hide Holds, HoldsRequests, Remembers, Undropped, Kept, Grown, GrownAt, CountedSince, Recent;
      var record := parse(line);
      if record.None? {
        return;
      }
      ghost var e := Born(Entry(path, record.value, 0), lives);
      KeptRemembers(seen, handed, lives, e);
      StepHolds(buckets, seen, handed, lives, e, oldest, since);
      if Whole() && Recent(handed + [e], oldest) {
        StepUndropped(buckets, seen, handed, lives, e, oldest);
      }
      CountedNone(buckets, GrownAt(seen, e.record), Grown(seen, e.record), oldest);
      var at, usage, ok := UsageDelta(record.value);
      if ok {
        Add(at, oldest, usage);
      }
      assert Living(LineRecord(path, line, parse), lives) == [e];
      handed := handed + [e];
    }

    /** What a reading of a file takes up: what follows the part already read, or all of a file that got shorter. */
    ghost function Unread(path: string, content: string): string
      reads this
    {
      if |content| < Offset(path) then content else content[Offset(path)..]
    }

    ghost predicate Shrunk(path: string, content: string)
      reads this
    {
      |content| < Offset(path)
    }

    /** Nothing is known of another file that was not known before. */
    twostate predicate OthersKept(path: string)
      reads `offsets, `consumed, `past
    {
      forall other :: other != path ==>
        && Read(other) == old(Read(other)) && Past(other) == old(Past(other))
        && (other in offsets <==> other in old(offsets)) && Offset(other) == old(Offset(other))
    }

    /** Reads what was added to a file since the last time, up to its last line end; a file that got shorter is read
        from its start, and what was read of it before is past. */
    method ReadFile(path: string, content: string, oldest: int, ghost since: int)
      requires Valid(since) && oldest <= since && Tracks()
      modifies `offsets, `buckets, `seen, `handed, `consumed, `past
      ensures Valid(since) && Tracks()
      ensures handed == old(handed) + Living(Records(path, CompleteLines(old(Unread(path, content))), parse), lives)
      ensures Read(path) == old(Now(path, content)) && Past(path) == old(Gone(path, content)) && OthersKept(path)
      ensures old(Whole()) && Recent(handed, oldest) ==> Whole()
    {
      hide Valid, TracksFile, CompleteLines, LinesEnd, Recent, Records, Whole, Living;
      if |content| < Offset(path) {
        Rewind(path);
      }
      ReadMore(path, content, oldest, since);
    }

    method LetGo(path: string, ghost gone: seq<Entry>)
      modifies `offsets, `consumed, `past
      ensures Offset(path) == 0 && Read(path) == "" && Past(path) == gone && OthersKept(path)
    {
      offsets := offsets[path := 0];
      consumed, past := consumed[path := ""], past[path := gone];
    }

    /** Lets go of what was read of a file. */
    method Rewind(path: string)
      requires Tracks()
      modifies `offsets, `consumed, `past
      ensures Tracks() && Offset(path) == 0 && Read(path) == ""
      ensures Past(path) == old(Past(path)) + Records(path, CompleteLines(old(Read(path))), parse) && OthersKept(path)
    {
      hide CompleteLines, Records, Ended, From, Bare, Read, Past, Offset;
      assert TracksFile(path);
      LetGo(path, Past(path) + Records(path, CompleteLines(Read(path)), parse));
      NothingRead(path, parse);
      forall other: string
        ensures TracksFile(other)
      {
        assert old(TracksFile(other));
      }
    }

    method ReadMore(path: string, content: string, oldest: int, ghost since: int)
      requires Valid(since) && oldest <= since && Tracks() && Offset(path) <= |content|
      modifies `offsets, `buckets, `seen, `handed, `consumed
      ensures Valid(since) && Tracks()
      ensures handed == old(handed) + Living(Records(path, CompleteLines(content[old(Offset(path))..]), parse), lives)
      ensures Read(path) == old(Read(path)) + content[old(Offset(path))..][..LinesEnd(content[old(Offset(path))..])]
      ensures OthersKept(path)
      ensures old(Whole()) && Recent(handed, oldest) ==> Whole()
    {
      hide Valid, Ended, CompleteLines, LinesEnd, Recent, Records, From, Whole, Living, Bare, Read, Past, Offset;
      ghost var before, read := handed, Read(path);
      assert TracksFile(path);
      var data := content[Offset(path)..];
      var end := LinesEnd(data);
      LinesOfPrefix(data);
      Deliver(path, data[..end], oldest, since);
      Advance(path, data[..end]);
      ReadOn(Past(path), read, data, path, parse);
      forall other: string
        ensures TracksFile(other)
      {
        assert old(TracksFile(other));
        HandedMore(before, path, CompleteLines(data[..end]), parse, lives, other);
      }
    }

    /** Keeps where the next reading of a file starts. */
    method Advance(path: string, text: string)
      modifies `offsets, `consumed
      ensures Read(path) == old(Read(path)) + text && Offset(path) == old(Offset(path)) + |text|
      ensures OthersKept(path)
    {
      if |text| > 0 {
        offsets := offsets[path := Offset(path) + |text|];
        consumed := consumed[path := Read(path) + text];
      }
    }

    /** What is read of a file, and what of it is past, after a reading. */
    ghost function Now(path: string, content: string): string
      reads this
    {
      var unread := Unread(path, content);
      (if Shrunk(path, content) then "" else Read(path)) + unread[..LinesEnd(unread)]
    }

    ghost function Gone(path: string, content: string): seq<Entry>
      reads this
    {
      if Shrunk(path, content) then Past(path) + Records(path, CompleteLines(Read(path)), parse) else Past(path)
    }

    /** Hands over the lines of a text that ends with a line end. */
    method Deliver(path: string, text: string, oldest: int, ghost since: int)
      requires Valid(since) && oldest <= since && Ended(text)
      modifies `buckets, `seen, `handed
      ensures Valid(since) && handed == old(handed) + Living(Records(path, CompleteLines(text), parse), lives)
      ensures old(Whole()) && Recent(handed, oldest) ==> Whole()
    {
      hide Valid, Recent, Records, LineRecord, CompleteLines, Ended, Living, Whole;
      var rest := text;
      ghost var lines, done := CompleteLines(text), 0;
      NoRecords(path, lines, parse, lives);
      while rest != ""
        invariant Valid(since) && Ended(rest) && 0 <= done <= |lines| && CompleteLines(rest) == lines[done..]
        invariant handed == old(handed) + Living(Records(path, lines[..done], parse), lives)
        invariant old(Whole()) && Recent(handed, oldest) ==> Whole()
        decreases |rest|
      {
        var cut := IndexNewline(rest);
        NextLine(rest);
        assert lines[done] == lines[done..][0] && lines[done + 1..] == lines[done..][1..];
        MoreRecords(path, lines, done, parse, lives, handed, old(handed), oldest);
        ClaudeLine(path, rest[..cut], oldest, since);
        rest := rest[cut + 1..];
        done := done + 1;
      }
      NoLines(rest);
      assert lines[..done] == lines;
    }

    /** Drops what is older than the retention; a message that is dropped begins another life when it comes back. */
    method Prune(oldest: int, ghost since: int)
      requires Valid(since) && oldest <= since
      modifies `buckets, `seen, `lives
      ensures buckets == map b | b in old(buckets) && b >= BucketOf(oldest) :: old(buckets)[b]
      ensures seen == map m | m in old(seen) && old(seen)[m].at >= oldest :: old(seen)[m]
      ensures lives == Renewed(old(lives), old(seen), oldest)
      ensures Valid(since)
      ensures old(Whole()) && Recent(handed, oldest) ==> buckets == old(buckets) && seen == old(seen) && Whole()
    {
      hide Holds, HoldsRequests, Remembers, Undropped, Recent, BucketOf, Renewed;
      ghost var whole := Whole() && Recent(handed, oldest);
      if whole {
        UndroppedPlaced(buckets, handed, lives);
        BucketsAreRecent(buckets, handed, oldest);
        SeenIsRecent(seen, handed, lives, oldest);
        RenewedNothing(buckets, handed, lives, seen, oldest);
      }
      RenewedRemembers(seen, handed, lives, oldest);
      PrunedHolds(buckets, handed, oldest, since);
      buckets := map b | b in buckets && b >= BucketOf(oldest) :: buckets[b];
      lives := Renewed(lives, seen, oldest);
      seen := map m | m in seen && seen[m].at >= oldest :: seen[m];
      if whole {
        assert buckets == old(buckets);
        assert seen == old(seen);
      }
    }

    /** What has been read of a log file, and what of it is past, once a scan has come by it. */
    ghost function After(file: Log): (string, seq<Entry>)
      reads this
    {
      if file.stale && file.path !in offsets then (Read(file.path), Past(file.path))
      else (Now(file.path, file.content), Gone(file.path, file.content))
    }

    method Begin(path: string)
      requires Tracks() && path !in offsets
      modifies `offsets
      ensures Tracks() && offsets == old(offsets)[path := 0] && Offset(path) == old(Offset(path))
    {
      hide Ended, From, Bare, Records, CompleteLines;
      offsets := offsets[path := 0];
      assert forall other: string :: old(TracksFile(other)) ==> TracksFile(other);
    }

    method ReadLog(file: Log, oldest: int, ghost since: int)
      requires Valid(since) && oldest <= since && Tracks()
      modifies `offsets, `buckets, `seen, `handed, `consumed, `past
      ensures Valid(since) && Tracks()
      ensures (Read(file.path), Past(file.path)) == old(After(file))
      ensures OthersKept(file.path)
      ensures forall other: Log :: other.path != file.path ==> After(other) == old(After(other))
      ensures old(handed) <= handed
      ensures old(Whole()) && Recent(handed, oldest) ==> Whole()
    {
      hide Valid, Recent, LinesEnd, Records, CompleteLines, Ended, From, Whole, Living, Bare;
      if file.path !in offsets {
        if file.stale {
          return;
        }
        Begin(file.path);
      }
      ReadFile(file.path, file.content, oldest, since);
    }

    /** One scan: every log file but those that have not changed for longer than the retention. Whatever the files hold,
        the buckets since the retention, or since an earlier scan's if that is later, hold their part of the batch
        totals of all that was handed over. */
    method Scan(files: seq<Log>, now: int, ghost before: int)
      requires Valid(before) && Tracks()
      requires forall i, j :: 0 <= i < j < |files| ==> files[i].path != files[j].path
      modifies this
      ensures Valid(if before < now - RETENTION then now - RETENTION else before) && Tracks()
      ensures forall i :: 0 <= i < |files| ==> (Read(files[i].path), Past(files[i].path)) == old(After(files[i]))
      ensures forall path :: (forall i :: 0 <= i < |files| ==> files[i].path != path) ==>
                Read(path) == old(Read(path)) && Past(path) == old(Past(path))
      // While no record is older than the retention nothing is dropped.
      ensures old(Whole()) && Recent(handed, now - RETENTION) ==> Whole()
    {
      hide Valid, Recent, LinesEnd, Records, CompleteLines, Tracks, Read, After, Past, Whole;
      var oldest := now - RETENTION;
      ghost var since := if before < oldest then oldest else before;
      ValidLater(before, since);
      for k := 0 to |files|
        invariant Valid(since) && Tracks()
        invariant forall i :: 0 <= i < k ==> (Read(files[i].path), Past(files[i].path)) == old(After(files[i]))
        invariant forall i :: k <= i < |files| ==>
                    Read(files[i].path) == old(Read(files[i].path)) && After(files[i]) == old(After(files[i]))
        invariant forall path :: (forall i :: 0 <= i < |files| ==> files[i].path != path) ==>
                    Read(path) == old(Read(path)) && Past(path) == old(Past(path))
        invariant old(Whole()) && Recent(handed, oldest) ==> Whole()
      {
        assert After(files[k]) == old(After(files[k]));
        ghost var sofar := handed;
        ReadLog(files[k], oldest, since);
        RecentPrefix(sofar, handed, oldest);
      }
      Prune(oldest, since);
    }

    lemma ValidLater(before: int, since: int)
      requires Valid(before) && before <= since
      ensures Valid(since)
    {
      hide Remembers;
    }
  }
  /** A log file as a scan finds it; stale when it has not changed for longer than the retention. */
  datatype Log = Log(path: string, content: string, stale: bool)

  /** The lives of messages after those seen before the oldest time were dropped. */
  ghost function Renewed(lives: map<string, nat>, seen: map<string, Seen>, oldest: int): map<string, nat> {
    map id | id in lives.Keys + seen.Keys :: Life(lives, id) + if id in seen && seen[id].at < oldest then 1 else 0
  }

  lemma RenewedRemembers(seen: map<string, Seen>, handed: seq<Entry>, lives: map<string, nat>, oldest: int)
    requires Remembers(seen, handed, lives)
    ensures Remembers(map m | m in seen && seen[m].at >= oldest :: seen[m], handed, Renewed(lives, seen, oldest))
  {
    hide Summed, Messages;
  }

  lemma RenewedNothing(buckets: map<int, Usage>, handed: seq<Entry>, lives: map<string, nat>, seen: map<string, Seen>,
                       oldest: int)
    requires Undropped(buckets, handed, lives) && forall m :: m in seen ==> seen[m].at >= oldest
    ensures Undropped(buckets, handed, Renewed(lives, seen, oldest))
  {
    hide Total, Batch, Asked, Placed;
  }

  lemma PrunedHolds(buckets: map<int, Usage>, handed: seq<Entry>, oldest: int, since: int)
    requires oldest <= since
    ensures forall f: Usage -> nat {:trigger Holds(buckets, handed, f, since)} :: Holds(buckets, handed, f, since) ==>
              Holds(map b | b in buckets && b >= BucketOf(oldest) :: buckets[b], handed, f, since)
    ensures HoldsRequests(buckets, handed, since) ==>
              HoldsRequests(map b | b in buckets && b >= BucketOf(oldest) :: buckets[b], handed, since)
  {
    hide Batch, Asked;
    var kept := map b | b in buckets && b >= BucketOf(oldest) :: buckets[b];
    assert forall b: int, f: Usage -> nat :: b >= since ==> Column(kept, f)(b) == Column(buckets, f)(b);
  }

  lemma UndroppedPlaced(buckets: map<int, Usage>, handed: seq<Entry>, lives: map<string, nat>)
    requires Undropped(buckets, handed, lives)
    ensures Placed(buckets, handed)
  {
  }

  lemma CountedNone(buckets: map<int, Usage>, at: int, usage: Usage, oldest: int)
    ensures usage.Empty() ==> CountedSince(buckets, at, usage, oldest) == buckets
  {
  }

  lemma BucketsAreRecent(buckets: map<int, Usage>, handed: seq<Entry>, oldest: int)
    requires Placed(buckets, handed) && Recent(handed, oldest)
    ensures forall b :: b in buckets ==> b >= BucketOf(oldest)
  {
    forall b: int | b in buckets
      ensures b >= BucketOf(oldest)
    {
      assert Any(handed, InBucket(b));
      var i :| 0 <= i < |handed| && InBucket(b)(handed[i]);
    }
  }

  lemma SeenIsRecent(seen: map<string, Seen>, handed: seq<Entry>, lives: map<string, nat>, oldest: int)
    requires Remembers(seen, handed, lives) && Recent(handed, oldest)
    ensures forall id :: id in seen ==> seen[id].at >= oldest
  {
    hide Messages;
    forall id | id in seen
      ensures seen[id].at >= oldest
    {
      var m := Key(id, Life(lives, id));
      SeenHasFirst(handed, m);
      FirstIn(handed, Of(m));
    }
  }

  lemma RecentPrefix(some: seq<Entry>, all: seq<Entry>, oldest: int)
    requires some <= all
    ensures Recent(all, oldest) ==> Recent(some, oldest)
  {
    assert forall e :: e in some ==> e in all;
  }

  lemma NoRecords(path: string, lines: seq<string>, parse: string -> Option<Record>, lives: map<string, nat>)
    ensures Living(Records(path, lines[..0], parse), lives) == []
  {
  }

  lemma MoreRecords(path: string, lines: seq<string>, n: nat, parse: string -> Option<Record>, lives: map<string, nat>,
                    handed: seq<Entry>, before: seq<Entry>, oldest: int)
    requires n < |lines| && handed == before + Living(Records(path, lines[..n], parse), lives)
    ensures handed + Living(LineRecord(path, lines[n], parse), lives)
              == before + Living(Records(path, lines[..n + 1], parse), lives)
    ensures Recent(handed + Living(LineRecord(path, lines[n], parse), lives), oldest) ==> Recent(handed, oldest)
  {
    hide Recent, Living, LineRecord;
    assert lines[..n + 1][..n] == lines[..n];
    assert Records(path, lines[..n + 1], parse) == Records(path, lines[..n], parse) + LineRecord(path, lines[n], parse);
    LivingAppend(Records(path, lines[..n], parse), LineRecord(path, lines[n], parse), lives);
    RecentPrefix(handed, handed + Living(LineRecord(path, lines[n], parse), lives), oldest);
  }

  lemma FromMore(before: seq<Entry>, path: string, lines: seq<string>, parse: string -> Option<Record>, other: string)
    ensures From(before + Records(path, lines, parse), other)
         == From(before, other) + if other == path then Records(path, lines, parse) else []
  {
    FilterAppend(before, Records(path, lines, parse), Member(ByPath, other));
    RecordsFrom(path, lines, parse, other);
  }

  lemma HandedMore(before: seq<Entry>, path: string, lines: seq<string>, parse: string -> Option<Record>,
                   lives: map<string, nat>, other: string)
    ensures From(Bare(before + Living(Records(path, lines, parse), lives)), other)
         == From(Bare(before), other) + if other == path then Records(path, lines, parse) else []
  {
    hide From, Records, Bare, Living;
    BareAppend(before, Living(Records(path, lines, parse), lives));
    BareLiving(Records(path, lines, parse), lives);
    RecordsAreBare(path, lines, parse);
    FromMore(Bare(before), path, lines, parse, other);
  }

  lemma NothingRead(path: string, parse: string -> Option<Record>)
    ensures Ended("") && Records(path, CompleteLines(""), parse) == []
  {
    NoLines("");
  }

  /** Reading on where the last reading ended. */
  lemma ReadOn(gone: seq<Entry>, read: string, data: string, path: string, parse: string -> Option<Record>)
    requires Ended(read)
    ensures var more := data[..LinesEnd(data)];
            && Ended(read + more) && (LinesEnd(data) == 0 ==> read + more == read)
            && gone + Records(path, CompleteLines(read), parse) + Records(path, CompleteLines(more), parse)
               == gone + Records(path, CompleteLines(read + more), parse)
  {
    hide CompleteLines, LinesEnd, Records, Ended;
    var more := data[..LinesEnd(data)];
    LinesEndAppend(read, data);
    LinesAppend(read, more);
    RecordsAppend(path, CompleteLines(read), CompleteLines(more), parse);
  }

  /** What a file that only grew has been read to. */
  lemma GrownIsRead(scanner: Scanner, path: string, content: string)
    requires scanner.Tracks() && scanner.Read(path) <= content
    ensures scanner.Now(path, content) == content[..LinesEnd(content)]
    ensures scanner.Gone(path, content) == scanner.Past(path)
  {
    hide LinesEnd, Records, CompleteLines, Ended, From;
    assert scanner.TracksFile(path);
    var read := scanner.Read(path);
    var data := content[|read|..];
    assert content == read + data;
    LinesEndAppend(read, data);
  }

  /** A message that was dropped for its age and comes back is counted like a new one. */
  lemma AnotherLife(handed: seq<Entry>, lives: map<string, nat>, seen: map<string, Seen>, e: Entry, f: Usage -> nat,
                    bucket: int)
    requires Remembers(seen, handed, lives) && e == Born(e, lives) && e.record.message.Some?
    requires e.record.message.value !in seen
    ensures Batch(handed + [e], f, Just(bucket))
            == Batch(handed, f, Just(bucket)) + if BucketOf(e.record.at) == bucket then f(e.record.Counts()) else 0
  {
    hide Batch, LargestOf, Messages, FirstAt;
    BatchSnoc(handed, e, f, Just(bucket));
    UnseenIsZero(handed, e.Message().value, f);
  }

  // Counting by life and counting by message id.

  /** A message with counts in two of its lives. */
  ghost predicate TwoLives(entries: seq<Entry>, f: Usage -> nat) {
    exists x, y :: InTwoLives(entries, f, x, y)
  }

  ghost predicate InTwoLives(entries: seq<Entry>, f: Usage -> nat, x: Entry, y: Entry) {
    && x in entries && y in entries && x.record.message.Some? && y.record.message == x.record.message
    && y.life != x.life
    && f(x.record.Counts()) > 0 && f(y.record.Counts()) > 0
  }

  ghost predicate Twice(entries: seq<Entry>, f: Usage -> nat, id: string, a: nat, b: nat) {
    a != b && LargestOf(entries, Key(id, a), f) > 0 && LargestOf(entries, Key(id, b), f) > 0
  }

  lemma TwoLivesTwice(entries: seq<Entry>, f: Usage -> nat)
    ensures TwoLives(entries, f) <==> exists id, a, b :: Twice(entries, f, id, a, b)
  {
    hide LargestOf;
    if TwoLives(entries, f) {
      var x, y :| InTwoLives(entries, f, x, y);
      var id := x.record.message.value;
      LargestBounds(entries, Key(id, x.life), f);
      LargestBounds(entries, Key(id, y.life), f);
      assert Of(Key(id, x.life))(x) && Of(Key(id, y.life))(y);
      assert Twice(entries, f, id, x.life, y.life);
    }
    if id, a, b :| Twice(entries, f, id, a, b) {
      LargestBounds(entries, Key(id, a), f);
      LargestBounds(entries, Key(id, b), f);
      var x :| x in entries && Of(Key(id, a))(x) && f(x.record.Counts()) == LargestOf(entries, Key(id, a), f);
      var y :| y in entries && Of(Key(id, b))(y) && f(y.record.Counts()) == LargestOf(entries, Key(id, b), f);
      assert InTwoLives(entries, f, x, y);
    }
  }

  /** Without lives, the largest count of a message is the largest of its lives. */
  lemma LargestOfLives(entries: seq<Entry>, id: string, f: Usage -> nat) returns (life: nat)
    ensures forall l :: LargestOf(entries, Key(id, l), f) <= LargestOf(Bare(entries), Key(id, 0), f)
    ensures LargestOf(entries, Key(id, life), f) == LargestOf(Bare(entries), Key(id, 0), f)
  {
    hide LargestOf;
    var bare, m := Bare(entries), Key(id, 0);
    LargestBounds(bare, m, f);
    forall l
      ensures LargestOf(entries, Key(id, l), f) <= LargestOf(bare, m, f)
    {
      LargestBounds(entries, Key(id, l), f);
      if LargestOf(entries, Key(id, l), f) > 0 {
        var e :| e in entries && Of(Key(id, l))(e) && f(e.record.Counts()) == LargestOf(entries, Key(id, l), f);
        var i :| 0 <= i < |entries| && entries[i] == e;
        assert bare[i] in bare && Of(m)(bare[i]);
      }
    }
    life := 0;
    if LargestOf(bare, m, f) > 0 {
      var e :| e in bare && Of(m)(e) && f(e.record.Counts()) == LargestOf(bare, m, f);
      var i :| 0 <= i < |bare| && bare[i] == e;
      life := entries[i].life;
      LargestBounds(entries, Key(id, life), f);
      assert entries[i] in entries && Of(Key(id, life))(entries[i]);
    }
  }

  /** One more record adds the same by life and by message id, unless its message then has counts in two lives. */
  lemma GainOfLives(entries: seq<Entry>, e: Entry, f: Usage -> nat)
    ensures Gain(Bare(entries), e.(life := 0), f) <= Gain(entries, e, f)
    ensures !TwoLives(entries, f) ==>
              (TwoLives(entries + [e], f) <==> Gain(Bare(entries), e.(life := 0), f) < Gain(entries, e, f))
    ensures TwoLives(entries, f) ==> TwoLives(entries + [e], f)
  {
    hide LargestOf, TwoLives;
    var more := entries + [e];
    TwoLivesTwice(entries, f);
    TwoLivesTwice(more, f);
    forall m: Key
      ensures LargestOf(more, m, f) == LargestOf(entries, m, f) +
                if e.Message() == Some(m) then Growth(LargestOf(entries, m, f), f(e.record.Counts())) else 0
    {
      LargestSnoc(entries, e, m, f);
    }
    forall id, a, b | Twice(entries, f, id, a, b)
      ensures Twice(more, f, id, a, b)
    {
    }
    if e.record.message.Some? {
      var id := e.record.message.value;
      var life := LargestOfLives(entries, id, f);
      if life != e.life && LargestOf(entries, Key(id, life), f) > 0 && f(e.record.Counts()) > 0 {
        assert Twice(more, f, id, life, e.life);
        assert LargestOf(entries, Key(id, e.life), f) > 0 ==> Twice(entries, f, id, life, e.life);
      } else {
        forall i, a, b | Twice(more, f, i, a, b)
          ensures Twice(entries, f, i, a, b)
        {
        }
      }
    } else {
      forall id, a, b | Twice(more, f, id, a, b)
        ensures Twice(entries, f, id, a, b)
      {
      }
    }
  }

  /** Counting each life by itself never gives less than counting each message once, and gives the same if and only if
      no message has counts in two of its lives. */
  lemma {:induction false} LivesAddNothing(entries: seq<Entry>, f: Usage -> nat)
    ensures Batch(Bare(entries), f, Anywhere()) <= Batch(entries, f, Anywhere())
    ensures Batch(entries, f, Anywhere()) == Batch(Bare(entries), f, Anywhere()) <==> !TwoLives(entries, f)
  {
    hide Batch, TwoLives, Gain, Place;
    if entries == [] {
      NoLives(f);
    } else {
      var n := |entries| - 1;
      var less, e := entries[..n], entries[n];
      assert entries == less + [e];
      assert Bare(entries) == Bare(less) + [e.(life := 0)];
      LivesAddNothing(less, f);
      BatchSnoc(less, e, f, Anywhere());
      BatchSnoc(Bare(less), e.(life := 0), f, Anywhere());
      GainOfLives(less, e, f);
    }
  }

  lemma NoLives(f: Usage -> nat)
    ensures Bare([]) == [] && !TwoLives([], f)
  {
  }

  /** Whatever the scans were, as long as no record was too old when it was read or later, the totals are those of all
      the records of what was read, taken at once in any order. */
  lemma IncrementalIsBatch(scanner: Scanner, all: seq<Entry>)
    requires scanner.Whole() && scanner.Tracks()
    requires forall path: string :: From(all, path) == scanner.Past(path)
               + Records(path, CompleteLines(scanner.Read(path)), scanner.parse)
    ensures Total(scanner.buckets, Input) == Batch(all, Input, Anywhere())
    ensures Total(scanner.buckets, Output) == Batch(all, Output, Anywhere())
    ensures Total(scanner.buckets, Cache) == Batch(all, Cache, Anywhere())
  {
    hide Batch, Total, Records, CompleteLines, From, Asked, Placed, Ended;
    BareFirstLives(scanner.handed);
    forall path: string
      ensures From(scanner.handed, path) == From(all, path)
    {
      assert scanner.TracksFile(path);
    }
    SameFiles(scanner.handed, all);
    BatchIgnoresOrder(scanner.handed, all, Input);
    BatchIgnoresOrder(scanner.handed, all, Output);
    BatchIgnoresOrder(scanner.handed, all, Cache);
  }

  /** Two such scanners that read the same text, cut into whatever scans, have the same totals. */
  lemma ScheduleDoesNotMatter(a: Scanner, b: Scanner)
    requires a.Whole() && a.Tracks() && b.Whole() && b.Tracks() && a.parse == b.parse
    requires forall path: string :: a.Read(path) == b.Read(path) && a.Past(path) == b.Past(path)
    ensures Total(a.buckets, Input) == Total(b.buckets, Input)
    ensures Total(a.buckets, Output) == Total(b.buckets, Output)
    ensures Total(a.buckets, Cache) == Total(b.buckets, Cache)
    ensures !Mixed(a.handed) ==> Total(a.buckets, Requests) == Total(b.buckets, Requests)
  {
    hide Batch, Total, Records, CompleteLines, From, Asked, Placed, Ended, Mixed;
    BareFirstLives(a.handed);
    BareFirstLives(b.handed);
    forall path: string
      ensures From(b.handed, path) == a.Past(path) + Records(path, CompleteLines(a.Read(path)), a.parse)
      ensures From(a.handed, path) == From(b.handed, path)
    {
      assert a.TracksFile(path) && b.TracksFile(path);
      assert a.Read(path) == b.Read(path);
    }
    IncrementalIsBatch(a, b.handed);
    SameFiles(a.handed, b.handed);
    if !Mixed(a.handed) {
      AskedIgnoresOrder(a.handed, b.handed);
    }
  }
}
