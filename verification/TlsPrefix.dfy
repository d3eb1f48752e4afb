// The per-direction TLS prefix machine: from the first bytes of a socket it tells a ClientHello or ServerHello, an
// alert, or something else, however those bytes are cut into reads and scattered over buffers.
module TlsPrefix {

  type Byte = b: int | 0 <= b < 256

  const PREFIX_SIZE: nat := 9
  const RECORD_HEADER_SIZE: nat := 5
  const HANDSHAKE_HEADER_SIZE: nat := 4
  const ALERT_RECORD_SIZE: nat := 7
  const HELLO_SIZE: nat := 4096
  const HANDSHAKE: Byte := 0x16
  const ALERT: Byte := 0x15
  const CLIENT_HELLO: Byte := 1
  const SERVER_HELLO: Byte := 2
  const CLIENT_HELLO_MIN: nat := 34
  const SERVER_HELLO_MIN: nat := 38
  const ALERT_WATCH: nat := 8
  const SEGMENTS: nat := 3

  // What the bytes of a direction are, as bytes.

  datatype Verdict = More | NotTls | Alert(level: Byte, description: Byte) | Hello(end: nat)

  function RecordLength(s: seq<Byte>): nat
    requires |s| >= 5
  {
    (s[3] as int) * 256 + s[4] as int
  }

  function HandshakeLength(s: seq<Byte>): nat
    requires |s| >= 9
  {
    (s[6] as int) * 65536 + (s[7] as int) * 256 + s[8] as int
  }

  predicate BadStart(s: seq<Byte>) {
    || (|s| >= 1 && s[0] != HANDSHAKE && s[0] != ALERT)
    || (|s| >= 2 && s[1] != 3)
    || (|s| >= 3 && s[2] > 4)
    || (|s| >= 5 && if s[0] == ALERT then RecordLength(s) != 2 else RecordLength(s) < HANDSHAKE_HEADER_SIZE)
  }

  predicate BadHello(s: seq<Byte>)
    requires |s| >= 9
  {
    || (s[5] != CLIENT_HELLO && s[5] != SERVER_HELLO)
    || HandshakeLength(s) < (if s[5] == SERVER_HELLO then SERVER_HELLO_MIN else CLIENT_HELLO_MIN)
    || HANDSHAKE_HEADER_SIZE + HandshakeLength(s) > RecordLength(s)
  }

  /** The record header and handshake header (RFC 8446 sections 5.1 and 4) read off the first nine bytes. */
  function Classify(s: seq<Byte>): Verdict {
    if BadStart(s) then NotTls
    else if |s| >= ALERT_RECORD_SIZE && s[0] == ALERT then Alert(s[5], s[6])
    else if |s| < PREFIX_SIZE then More
    else if BadHello(s) then NotTls
    else
      var end := HANDSHAKE_HEADER_SIZE + HandshakeLength(s);
      Hello(if end > HELLO_SIZE then HELLO_SIZE else end)
  }

  /** Once the bytes have been told apart, later bytes do not change what they are. */
  lemma ClassifyStays(s: seq<Byte>, t: seq<Byte>)
    requires !Classify(s).More?
    ensures Classify(s + t) == Classify(s)
  {
    var u := s + t;
    assert forall k :: 0 <= k < |s| ==> u[k] == s[k];
  }

  lemma HelloBounds(s: seq<Byte>)
    requires Classify(s).Hello?
    ensures HANDSHAKE_HEADER_SIZE < Classify(s).end <= HELLO_SIZE && |s| >= PREFIX_SIZE
  {
  }

  // The machine's memory of one direction of a socket.

  datatype Phase = Collecting | NonTls | InHello | Done | AlertHeader

  datatype Prefix = Prefix(bytes: seq<Byte>, phase: Phase, after: nat, offset: nat, helloEnd: nat)

  const FRESH := Prefix([], Collecting, 0, 0, 0)

  function Min(a: nat, b: nat): nat {
    if a < b then a else b
  }

  /** p is what the machine remembers after the bytes s, whatever the reads they came in. */
  predicate Matches(p: Prefix, s: seq<Byte>) {
    match Classify(s)
    case More => p.phase == Collecting && p.bytes == s && |s| < PREFIX_SIZE
    case NotTls => p.phase == NonTls
    case Alert(_, _) => (p.phase == Done || p.phase == AlertHeader) && p.offset == p.helloEnd == 0
    case Hello(end) =>
      && |s| >= PREFIX_SIZE && p.helloEnd == end && p.offset == Min(|s| - RECORD_HEADER_SIZE, end)
      && if p.offset < end then p.phase == InHello else p.phase == Done || p.phase == AlertHeader
  }

  /** The hello bytes handed over so far: those after the nine header bytes, up to the stored offset. */
  function HelloBody(s: seq<Byte>): seq<Byte> {
    match Classify(s)
    case Hello(end) =>
      HelloBounds(s);
      s[PREFIX_SIZE..RECORD_HEADER_SIZE + Min(|s| - RECORD_HEADER_SIZE, end)]
    case _ => []
  }

  /** Two reads of the same bytes, cut anywhere, agree on the verdict, the end of the hello and the offset. */
  lemma SameBytesSameState(p: Prefix, q: Prefix, s: seq<Byte>)
    requires Matches(p, s) && Matches(q, s)
    ensures (p.phase == NonTls <==> q.phase == NonTls) && (p.phase == Collecting <==> q.phase == Collecting)
    ensures (p.phase == InHello <==> q.phase == InHello)
    ensures Classify(s).Hello? ==> p.helloEnd == q.helloEnd && p.offset == q.offset
  {
  }

  // Where the bytes of a read lie.

  datatype Segment = Segment(base: nat, len: nat)

  ghost function Total(segments: seq<Segment>): nat {
    if segments == [] then 0 else segments[0].len + Total(segments[1..])
  }

  /** The address of a read's byte, buffer after buffer. */
  ghost function Address(segments: seq<Segment>, at: nat): nat
    requires at < Total(segments)
  {
    if at < segments[0].len then segments[0].base + at else Address(segments[1..], at - segments[0].len)
  }

  /** Memory holds the read's bytes wherever its buffers reach and can be read. */
  ghost predicate Backs(segments: seq<Segment>, memory: map<nat, Byte>, bytes: seq<Byte>) {
    && |segments| == SEGMENTS
    && forall k {:trigger bytes[k]} :: 0 <= k < |bytes| && Reaches(segments, memory, k) ==>
         memory[Address(segments, k)] == bytes[k]
  }

  ghost predicate Reaches(segments: seq<Segment>, memory: map<nat, Byte>, k: nat) {
    k < Total(segments) && Address(segments, k) in memory
  }

  /** The buffer, the address and the bytes left there of the at-th byte; no buffer past the last. Just past the
      last byte it answers with nothing left. */
  method SegmentAt(segments: seq<Segment>, at: nat) returns (index: int, pointer: nat, left: nat)
    requires |segments| == SEGMENTS
    ensures at < Total(segments) ==> && 0 <= index < SEGMENTS && left > 0 && pointer == Address(segments, at)
                                     && at == Total(segments[..index]) + (segments[index].len - left)
                                     && pointer + left == segments[index].base + segments[index].len
    ensures at == Total(segments) ==> index == SEGMENTS - 1 && left == 0
                                      && pointer == segments[index].base + segments[index].len
    ensures at > Total(segments) ==> index < 0
  {
    var rest: nat := at;
    for i := 0 to SEGMENTS
      invariant rest == at - Total(segments[..i]) && rest + Total(segments) == at + Total(segments[i..])
      invariant at < Total(segments) ==>
                  rest < Total(segments[i..]) && Address(segments, at) == Address(segments[i..], rest)
    {
      TotalSnoc(segments, i);
      assert segments[i..][1..] == segments[i + 1..];
      if rest < segments[i].len {
        TotalSplit(segments, i);
        return i, segments[i].base + rest, segments[i].len - rest;
      }
      rest := rest - segments[i].len;
    }
    assert segments[SEGMENTS..] == [] && segments[..SEGMENTS] == segments;
    if rest == 0 {
      return SEGMENTS - 1, segments[SEGMENTS - 1].base + segments[SEGMENTS - 1].len, 0;
    }
    return -1, 0, 0;
  }

  lemma {:induction false} TotalSplit(segments: seq<Segment>, i: nat)
    requires i <= |segments|
    ensures Total(segments) == Total(segments[..i]) + Total(segments[i..])
  {
    if i > 0 {
      assert segments[..i][1..] == segments[1..][..i - 1];
      assert segments[i..] == segments[1..][i - 1..];
      TotalSplit(segments[1..], i - 1);
    }
  }

  lemma TotalSnoc(segments: seq<Segment>, i: nat)
    requires i < |segments|
    ensures Total(segments[..i + 1]) == Total(segments[..i]) + segments[i].len
    ensures Total(segments) == Total(segments[..i]) + Total(segments[i..])
  {
    TotalSplit(segments, i);
    TotalSplit(segments, i + 1);
    assert segments[i..][1..] == segments[i + 1..];
  }

  /** What looking for an alert record at the start of a later call finds: nothing, its header alone, or all of
      it; bodyFound says whether a call after a header alone brings the two bytes. */
  datatype Watch = Watch(header: bool, whole: bool, bodyFound: bool, handshake: seq<Byte>)

  /** What a call hands over: nothing (0), the header and the first bytes of a hello or an alert (1), or more bytes
      of a hello (2). From says where in the read the captured bytes start. */
  datatype Emission = Emission(verdict: nat, output: nat, captured: nat, handshake: seq<Byte>)
  {
    function From(): nat {
      if verdict == 1 then output else 0
    }

    /** The position in the handshake message of the first captured byte. */
    function Offset(): nat {
      if verdict == 1 then HANDSHAKE_HEADER_SIZE else output
    }
  }

  const SILENT := Emission(0, 0, 0, [])

  /** e hands over, in order and once, the hello bytes that came with this read: those in s + bytes and not in s. */
  ghost predicate HandsOver(e: Emission, s: seq<Byte>, bytes: seq<Byte>) {
    var before, now := HelloBody(s), HelloBody(s + bytes);
    && (e.captured == 0 ==> now == before)
    && (e.captured > 0 ==>
          && e.From() + e.captured <= |bytes|
          && now == before + bytes[e.From()..e.From() + e.captured]
          && e.Offset() == HANDSHAKE_HEADER_SIZE + |before|)
    && (Classify(s).More? && Classify(s + bytes).Hello? ==> e.verdict == 1 && e.handshake == (s + bytes)[5..9])
  }

  /** The next byte of an undecided direction either leaves it undecided or decides it by the checks made at that
      position. */
  lemma NextByte(t: seq<Byte>, b: Byte)
    requires Classify(t).More?
    ensures var u, at := t + [b], |t|;
            && at < PREFIX_SIZE
            && (|| (at == 0 && b != HANDSHAKE && b != ALERT) || (at == 1 && b != 3) || (at == 2 && b > 4)
                || (at == RECORD_HEADER_SIZE - 1
                    && if u[0] == ALERT then RecordLength(u) != 2 else RecordLength(u) < HANDSHAKE_HEADER_SIZE)
                <==> BadStart(u))
            && (BadStart(u) ==> Classify(u).NotTls?)
            && (!BadStart(u) && at == ALERT_RECORD_SIZE - 1 && u[0] == ALERT ==> Classify(u) == Alert(u[5], u[6]))
            && (!BadStart(u) && at == PREFIX_SIZE - 1 ==> u[0] == HANDSHAKE && |u| == PREFIX_SIZE)
            && (!BadStart(u) && at < PREFIX_SIZE - 1 && !(at == ALERT_RECORD_SIZE - 1 && u[0] == ALERT)
                ==> Classify(u).More?)
  {
    ClassifyShortOf(t);
    var u := t + [b];
    assert forall k :: 0 <= k < |t| ==> u[k] == t[k];
    assert u[|t|] == b;
  }

  lemma ClassifyShortOf(t: seq<Byte>)
    requires Classify(t).More?
    ensures |t| < PREFIX_SIZE && (|t| >= ALERT_RECORD_SIZE ==> t[0] == HANDSHAKE)
  {
  }

  /** Reading the hello on from a stored offset. */
  lemma HelloContinues(p: Prefix, s: seq<Byte>, bytes: seq<Byte>)
    requires Matches(p, s) && p.phase == InHello
    ensures var n := Min(|bytes|, p.helloEnd - p.offset);
            var next := p.(offset := p.offset + n, phase := if p.offset + n >= p.helloEnd then Done else InHello);
            Matches(next, s + bytes) && HandsOver(Emission(2, p.offset, n, []), s, bytes)
  {
    ClassifyStays(s, bytes);
    HelloBounds(s);
    HelloBounds(s + bytes);
    var n := Min(|bytes|, p.helloEnd - p.offset);
    TakeMore(s, bytes, PREFIX_SIZE, n);
    assert HelloBody(s) == s[PREFIX_SIZE..|s|] && HelloBody(s + bytes) == (s + bytes)[PREFIX_SIZE..|s| + n];
    assert bytes[0..n] == bytes[..n];
  }

  lemma TakeMore(s: seq<Byte>, t: seq<Byte>, i: nat, n: nat)
    requires i <= |s| && n <= |t|
    ensures (s + t)[i..|s| + n] == s[i..|s|] + t[..n]
  {
  }

  lemma TakeSame(s: seq<Byte>, t: seq<Byte>, i: nat, n: nat)
    requires i <= n <= |s|
    ensures (s + t)[i..n] == s[i..n]
  {
  }

  /** A direction that is decided, and whose hello is all handed over, hands over no more. */
  lemma DecidedStays(p: Prefix, s: seq<Byte>, bytes: seq<Byte>)
    requires Matches(p, s) && p.phase != InHello && p.phase != Collecting
    ensures Matches(p, s + bytes)
    ensures forall e: Emission :: e.captured == 0 ==> HandsOver(e, s, bytes)
  {
    ClassifyStays(s, bytes);
    if Classify(s).Hello? {
      HelloBounds(s);
      HelloBounds(s + bytes);
      TakeSame(s, bytes, PREFIX_SIZE, RECORD_HEADER_SIZE + Min(|s| - RECORD_HEADER_SIZE, Classify(s).end));
      assert HelloBody(s + bytes) == HelloBody(s);
    }
  }

  lemma Rejoin(s: seq<Byte>, bytes: seq<Byte>, n: nat)
    requires n <= |bytes|
    ensures (s + bytes[..n]) + bytes[n..] == s + bytes
  {
    assert bytes == bytes[..n] + bytes[n..];
  }

  lemma OneTaken(s: seq<Byte>, bytes: seq<Byte>, n: nat)
    requires n < |bytes|
    ensures (s + bytes[..n]) + [bytes[n]] == s + bytes[..n + 1]
  {
    assert bytes[..n + 1] == bytes[..n] + [bytes[n]];
  }

  /** The hello message begins right after the nine header bytes u, and rest is what the read holds beyond them. */
  lemma HelloBegins(s: seq<Byte>, bytes: seq<Byte>, consumed: nat, p: Prefix)
    requires Classify(s).More? && consumed <= |bytes| && |s| + consumed == PREFIX_SIZE
    requires Classify(s + bytes[..consumed]).Hello?
    ensures var u := s + bytes[..consumed];
            var end := Classify(u).end;
            var body := Min(|bytes| - consumed, end - HANDSHAKE_HEADER_SIZE);
            var offset := HANDSHAKE_HEADER_SIZE + body;
            && end > HANDSHAKE_HEADER_SIZE
            && Matches(Prefix(u, if offset >= end then Done else InHello, p.after, offset, end), s + bytes)
            && HandsOver(Emission(1, consumed, body, u[5..9]), s, bytes)
  {
    var u := s + bytes[..consumed];
    Rejoin(s, bytes, consumed);
    ClassifyStays(u, bytes[consumed..]);
    HelloBounds(u);
    var body := Min(|bytes| - consumed, Classify(u).end - HANDSHAKE_HEADER_SIZE);
    assert HelloBody(s + bytes) == bytes[consumed..consumed + body];
    assert (s + bytes)[5..9] == u[5..9];
  }

  /** The collecting phase of one read: byte after byte until the direction is decided or the read ends. */
  method Collect(p: Prefix, segments: seq<Segment>, memory: map<nat, Byte>, ghost s: seq<Byte>, ghost bytes: seq<Byte>,
                 size: nat)
    returns (next: Prefix, e: Emission, lost: bool)
    requires p.phase == Collecting && Matches(p, s) && Backs(segments, memory, bytes) && |bytes| == size
    ensures !lost ==> Matches(next, s + bytes) && HandsOver(e, s, bytes)
    ensures lost ==> next.phase == NonTls && e == SILENT
    ensures lost ==> exists k :: 0 <= k < size && k < PREFIX_SIZE - |s| && !Reaches(segments, memory, k)
  {
    hide Classify, HandsOver, Address, Total;
    MatchesCollecting(p, s);
    next, e, lost := p, SILENT, false;
    var available := Min(size, PREFIX_SIZE - |next.bytes|);
    assert s + bytes[..0] == s;
    for index := 0 to available
      invariant next == p.(bytes := s + bytes[..index]) && Classify(s + bytes[..index]).More?
    {
      var segment, pointer, left := SegmentAt(segments, index);
      if segment < 0 || left == 0 || pointer !in memory {
        next, lost := next.(phase := NonTls), true;
        assert !Reaches(segments, memory, index);
        return;
      }
      assert Reaches(segments, memory, index);
      var b := memory[pointer];
      assert b == bytes[index];
      ghost var t := s + bytes[..index];
      var at := |next.bytes|;
      next := next.(bytes := next.bytes + [b]);
      NextByte(t, b);
      OneTaken(s, bytes, index);
      ghost var u := s + bytes[..index + 1];
      Rejoin(s, bytes, index + 1);
      if (at == 0 && b != HANDSHAKE && b != ALERT) || (at == 1 && b != 3) || (at == 2 && b > 4) {
        next := next.(phase := NonTls);
        DecidesNotTls(next, s, u, bytes, index + 1);
        return;
      }
      if at == RECORD_HEADER_SIZE - 1 {
        var short := if next.bytes[0] == ALERT then RecordLength(next.bytes) != 2
                     else RecordLength(next.bytes) < HANDSHAKE_HEADER_SIZE;
        if short {
          next := next.(phase := NonTls);
          DecidesNotTls(next, s, u, bytes, index + 1);
          return;
        }
      }
      if at == ALERT_RECORD_SIZE - 1 && next.bytes[0] == ALERT {
        next := next.(phase := Done, offset := 0, helloEnd := 0);
        e := Emission(1, index + 1, 0, [ALERT, next.bytes[5], next.bytes[6], 0]);
        DecidesAlert(next, s, u, bytes, index + 1, e);
        return;
      }
      if at == PREFIX_SIZE - 1 {
        if BadHello(next.bytes) {
          next := next.(phase := NonTls);
          BadHelloIsNotTls(u);
          DecidesNotTls(next, s, u, bytes, index + 1);
          return;
        }
        next, e := BeginHello(next, p, s, bytes, index + 1, size);
        return;
      }
    }
    StillCollecting(next, s, bytes);
  }

  /** The header is complete and good: the hello message is as long as the header says, within the limit. */
  method BeginHello(collected: Prefix, ghost p: Prefix, ghost s: seq<Byte>, ghost bytes: seq<Byte>, consumed: nat,
                    size: nat)
    returns (next: Prefix, e: Emission)
    requires Classify(s).More? && consumed <= |bytes| == size && |s| + consumed == PREFIX_SIZE
    requires collected == p.(bytes := s + bytes[..consumed])
    requires collected.bytes[0] == HANDSHAKE && !BadStart(collected.bytes) && !BadHello(collected.bytes)
    ensures Matches(next, s + bytes) && HandsOver(e, s, bytes)
  {
    hide Classify, HandsOver, Matches;
    GoodHello(collected.bytes);
    var end := HANDSHAKE_HEADER_SIZE + HandshakeLength(collected.bytes);
    if end > HELLO_SIZE {
      end := HELLO_SIZE;
    }
    HelloBegins(s, bytes, consumed, p);
    var body := size - consumed;
    if body > end - HANDSHAKE_HEADER_SIZE {
      body := end - HANDSHAKE_HEADER_SIZE;
    }
    next := collected.(helloEnd := end, offset := HANDSHAKE_HEADER_SIZE + body);
    next := next.(phase := if next.offset >= end then Done else InHello);
    e := Emission(1, consumed, body, next.bytes[5..9]);
  }

  lemma MatchesCollecting(p: Prefix, s: seq<Byte>)
    requires p.phase == Collecting && Matches(p, s)
    ensures Classify(s).More? && p.bytes == s && |s| < PREFIX_SIZE
  {
  }

  lemma DecidesNotTls(p: Prefix, s: seq<Byte>, u: seq<Byte>, bytes: seq<Byte>, n: nat)
    requires p.phase == NonTls && n <= |bytes| && u == s + bytes[..n] && Classify(s).More?
    requires Classify(u).NotTls?
    ensures Matches(p, s + bytes) && HandsOver(SILENT, s, bytes)
  {
    assert u + bytes[n..] == s + bytes;
    ClassifyStays(u, bytes[n..]);
  }

  lemma DecidesAlert(p: Prefix, s: seq<Byte>, u: seq<Byte>, bytes: seq<Byte>, n: nat, e: Emission)
    requires p.phase == Done && p.offset == p.helloEnd == 0 && n <= |bytes| && u == s + bytes[..n]
    requires Classify(s).More? && Classify(u).Alert? && e.captured == 0
    ensures Matches(p, s + bytes) && HandsOver(e, s, bytes)
  {
    assert u + bytes[n..] == s + bytes;
    ClassifyStays(u, bytes[n..]);
  }

  lemma BadHelloIsNotTls(u: seq<Byte>)
    requires |u| == PREFIX_SIZE && u[0] == HANDSHAKE && !BadStart(u) && BadHello(u)
    ensures Classify(u).NotTls?
  {
  }

  lemma GoodHello(u: seq<Byte>)
    requires |u| == PREFIX_SIZE && u[0] == HANDSHAKE && !BadStart(u) && !BadHello(u)
    ensures Classify(u) == Hello(Min(HANDSHAKE_HEADER_SIZE + HandshakeLength(u), HELLO_SIZE))
  {
  }

  lemma StillCollecting(p: Prefix, s: seq<Byte>, bytes: seq<Byte>)
    requires Classify(s).More? && |s| < PREFIX_SIZE && Classify(p.bytes).More?
    requires p.phase == Collecting && p.bytes == s + bytes[..Min(|bytes|, PREFIX_SIZE - |s|)]
    ensures Matches(p, s + bytes) && HandsOver(SILENT, s, bytes)
  {
    ClassifyShortOf(p.bytes);
    assert p.bytes == s + bytes;
  }

  /** One read of a direction that is still followed, by phase. */
  method Advance(p: Prefix, segments: seq<Segment>, memory: map<nat, Byte>, ghost s: seq<Byte>, ghost bytes: seq<Byte>,
                 size: nat, watch: Watch)
    returns (next: Prefix, e: Emission, lost: bool)
    requires p.phase != NonTls && Matches(p, s) && Backs(segments, memory, bytes) && |bytes| == size
    ensures !lost ==> Matches(next, s + bytes) && HandsOver(e, s, bytes)
    ensures lost ==> next.phase == NonTls && e == SILENT
    ensures lost ==> exists k :: 0 <= k < size && k < PREFIX_SIZE - |s| && !Reaches(segments, memory, k)
  {
    hide Matches, Classify, HandsOver, Backs, Reaches, HelloBody;
    next, e, lost := p, SILENT, false;
    match p.phase {
      case AlertHeader =>
        next := p.(phase := Done);
        AlertStays(p, next, s);
        DecidedStays(next, s, bytes);
        if watch.bodyFound {
          e := Emission(1, 2, 0, watch.handshake);
        }
      case Done =>
        if p.after < ALERT_WATCH {
          next := p.(after := p.after + 1, phase := if watch.header then AlertHeader else Done);
          AlertStays(p, next, s);
          if watch.whole {
            e := Emission(1, ALERT_RECORD_SIZE, 0, watch.handshake);
          }
        }
        DecidedStays(next, s, bytes);
      case InHello =>
        HelloOpen(p, s);
        HelloContinues(p, s, bytes);
        var available := size;
        if available > p.helloEnd - p.offset {
          available := p.helloEnd - p.offset;
        }
        next := p.(offset := p.offset + available);
        if next.offset >= next.helloEnd {
          next := next.(phase := Done);
        }
        e := Emission(2, p.offset, available, []);
      case Collecting =>
        next, e, lost := Collect(p, segments, memory, s, bytes, size);
      case NonTls =>
    }
  }

  class Prefixes {
    var table: map<nat, Prefix>
    // The bytes seen by each direction, while all that mattered could be read.
    ghost var stream: map<nat, seq<Byte>>

    ghost predicate Valid()
      reads this
    {
      && stream.Keys <= table.Keys
      && (forall key :: key in stream ==> Matches(table[key], stream[key]))
      && (forall key :: key in table && key !in stream ==> table[key].phase == NonTls)
    }

    constructor ()
      ensures Valid() && table == map[] && stream == map[]
    {
      table, stream := map[], map[];
    }

    /** The bytes seen before a call, for a direction still followed. */
    ghost function Seen(key: nat): seq<Byte>
      reads this
    {
      if key in stream then stream[key] else []
    }

    ghost predicate Followed(key: nat)
      reads this
    {
      key in table ==> key in stream
    }

    /** One read (or write) of a direction. A byte that cannot be read gives the direction up for good; otherwise
        the machine ends up where all the bytes so far lead, and hands over the hello bytes among them. */
    method Read(key: nat, segments: seq<Segment>, memory: map<nat, Byte>, ghost bytes: seq<Byte>, size: nat,
                watch: Watch)
      returns (e: Emission)
      requires Valid() && Backs(segments, memory, bytes) && |bytes| == size
      modifies this
      ensures Valid()
      ensures table - {key} == old(table) - {key}
      ensures stream - {key} == old(stream) - {key}
      ensures !old(Followed(key)) ==> !Followed(key) && e == SILENT && table == old(table)
      ensures old(Followed(key)) && Followed(key) ==> key in stream && stream[key] == old(Seen(key)) + bytes
                                                      && HandsOver(e, old(Seen(key)), bytes)
      ensures old(Followed(key)) && !Followed(key) ==>
                && e == SILENT
                && exists k :: 0 <= k < size && k < PREFIX_SIZE - |old(Seen(key))| && !Reaches(segments, memory, k)
    {
      hide Matches, Classify, HandsOver, Backs, Reaches;
      FreshMatches();
      var p := if key in table then table[key] else FRESH;
      if p.phase == NonTls && key in table {
        e := SILENT;
        if key in stream {
          DecidedStays(p, stream[key], bytes);
          stream := stream[key := stream[key] + bytes];
        }
        return;
      }
      ghost var s := Seen(key);
      var lost;
      p, e, lost := Advance(p, segments, memory, s, bytes, size, watch);
      table := table[key := p];
      stream := if lost then stream - {key} else stream[key := s + bytes];
    }

    /** A whole run of reads of a new direction, cut anywhere and scattered over buffers anyhow: when every byte can
        be read, what the machine remembers and what it has handed over depend on the joined bytes alone. */
    method ReadAll(key: nat, chunks: seq<Chunk>) returns (captured: seq<Byte>)
      requires Valid() && key !in table
      requires forall c :: c in chunks ==> c.Readable()
      modifies this
      ensures Valid() && (chunks != [] ==> key in table && Matches(table[key], Join(chunks)))
      ensures captured == HelloBody(Join(chunks))
    {
      hide Matches, Classify, Backs, Reaches, HelloBody, Total, Address;
      captured := [];
      assert chunks[..0] == [];
      NoBodyYet();
      for i := 0 to |chunks|
        invariant Valid() && (key in table <==> i > 0) && Followed(key)
        invariant Seen(key) == Join(chunks[..i]) && captured == HelloBody(Join(chunks[..i]))
      {
        var c := chunks[i];
        assert c in chunks && c.Readable();
        assert chunks[..i + 1][..i] == chunks[..i];
        assert forall k :: 0 <= k < |c.bytes| ==> Reaches(c.segments, c.memory, k);
        var e := Read(key, c.segments, c.memory, c.bytes, |c.bytes|, c.watch);
        assert Followed(key);
        if e.captured > 0 {
          captured := captured + c.bytes[e.From()..e.From() + e.captured];
        }
      }
      assert chunks[..|chunks|] == chunks;
    }
  }

  /** One read: its bytes, where they lie, and what an alert watch would find there. */
  datatype Chunk = Chunk(segments: seq<Segment>, memory: map<nat, Byte>, bytes: seq<Byte>, watch: Watch)
  {
    ghost predicate Readable() {
      Backs(segments, memory, bytes) && forall k :: 0 <= k < |bytes| ==> Reaches(segments, memory, k)
    }
  }

  ghost function Join(chunks: seq<Chunk>): seq<Byte> {
    if chunks == [] then [] else Join(chunks[..|chunks| - 1]) + chunks[|chunks| - 1].bytes
  }

  lemma NoBodyYet()
    ensures HelloBody([]) == []
  {
  }

  lemma FreshMatches()
    ensures Matches(FRESH, [])
  {
  }

  lemma HelloOpen(p: Prefix, s: seq<Byte>)
    requires Matches(p, s) && p.phase == InHello
    ensures p.offset < p.helloEnd
  {
  }

  lemma AlertStays(p: Prefix, q: Prefix, s: seq<Byte>)
    requires Matches(p, s) && (p.phase == Done || p.phase == AlertHeader)
    requires (q.phase == Done || q.phase == AlertHeader) && q.offset == p.offset && q.helloEnd == p.helloEnd
    ensures Matches(q, s)
  {
  }
}
