// Capturing the plaintext of HTTP/2 streams: no byte of a followed direction goes missing unnoticed.
module StreamCapture {
  const PAYLOAD_SIZE: nat := 16384
  const MAX_STEPS: nat := 80
  const MAX_SEGMENTS: nat := 16
  const SPLIT_SIZE: nat := 64
  const PREFACE: string := "PRI * HTTP/2.0\r\n\r\nSM\r\n\r\n"
  const PREFACE_LEN: nat := 24
  const HTTP_STARTS: set<string> := {"GET ", "POST", "PUT ", "HEAD", "DELE", "PATC", "OPTI", "HTTP", "PRI "}

  datatype Direction = Sent | Received
  datatype Key = Key(socket: nat, direction: Direction)
  {
    function Peer(): Key {
      Key(socket, if direction == Sent then Received else Sent)
    }
  }

  /** What is remembered of a direction: a followed HTTP/2 stream or a message being read, and the position in it. */
  datatype Mark = Http2(at: nat) | Message(at: nat)

  datatype Record = Record(key: Key, start: bool, offset: nat, payload: string)

  /** What can fail in a call, step by step. */
  datatype Faults = Faults(peek: bool, preface: bool, vector: nat -> bool, read: nat -> bool, output: nat -> bool)
  {
    ghost predicate None() {
      forall step: nat :: !vector(step) && !read(step) && !output(step)
    }
  }

  // Without faults, a call this long is emitted whole: from one buffer, and from up to MAX_SEGMENTS buffers, where a
  // buffer can take two steps more than its bytes need.
  const CALL_LIMIT: nat := MAX_STEPS * PAYLOAD_SIZE
  const SCATTERED_LIMIT: nat := (MAX_STEPS - 2 * MAX_SEGMENTS + 1) * PAYLOAD_SIZE

  // What has been emitted for a key, from a record on.

  ghost function Emitted(records: seq<Record>, from: nat, key: Key): string {
    if |records| <= from then "" else
    var last := records[|records| - 1];
    Emitted(records[..|records| - 1], from, key) + if last.key == key then last.payload else ""
  }

  /** The records of a key from a record on carry consecutive offsets, from 0. */
  ghost predicate Consecutive(records: seq<Record>, from: nat, key: Key) {
    forall i :: from <= i < |records| && records[i].key == key ==>
      records[i].offset == |Emitted(records[..i], from, key)|
  }

  lemma EmitOne(records: seq<Record>, r: Record, from: nat, key: Key)
    requires from <= |records| && Consecutive(records, from, key)
    requires r.key == key ==> r.offset == |Emitted(records, from, key)|
    ensures Emitted(records + [r], from, key) == Emitted(records, from, key) + if r.key == key then r.payload else ""
    ensures Consecutive(records + [r], from, key)
  {
    var more := records + [r];
    assert more[..|records|] == records;
    forall i | from <= i < |more| && more[i].key == key
      ensures more[i].offset == |Emitted(more[..i], from, key)|
    {
      if i < |records| {
        assert more[..i] == records[..i];
      }
    }
  }

  /** after adds to before, for one key, the payload in order and at consecutive offsets, and nothing else. */
  ghost predicate Adds(before: seq<Record>, after: seq<Record>, key: Key, offset: nat, payload: string) {
    && before <= after
    && forall from: nat, k: Key {:trigger Emitted(after, from, k)} {:trigger Consecutive(after, from, k)} ::
         from <= |before| && Consecutive(before, from, k) && (k == key ==> offset == |Emitted(before, from, k)|) ==>
           Consecutive(after, from, k)
           && Emitted(after, from, k) == Emitted(before, from, k) + if k == key then payload else ""
  }

  lemma AddsNothing(before: seq<Record>, key: Key, offset: nat)
    ensures Adds(before, before, key, offset, "")
  {
  }

  lemma AddsOne(before: seq<Record>, after: seq<Record>, key: Key, offset: nat, payload: string, r: Record)
    requires Adds(before, after, key, offset, payload) && r.key == key && r.offset == offset + |payload|
    ensures Adds(before, after + [r], key, offset, payload + r.payload)
  {
    var more := after + [r];
    forall from: nat, k: Key | from <= |before| && Consecutive(before, from, k)
      && (k == key ==> offset == |Emitted(before, from, k)|)
      ensures Consecutive(more, from, k)
      ensures Emitted(more, from, k) == Emitted(before, from, k) + if k == key then payload + r.payload else ""
    {
      EmitOne(after, r, from, k);
      assert k == key ==>
        (Emitted(before, from, k) + payload) + r.payload == Emitted(before, from, k) + (payload + r.payload);
    }
  }

  /** The records of a key from a record on are the given bytes, the last of which is before at. */
  ghost predicate Follows(records: seq<Record>, from: nat, key: Key, bytes: string, at: nat) {
    from <= |records| && Consecutive(records, from, key) && Emitted(records, from, key) == bytes && at == |bytes|
  }

  lemma FollowsOn(before: seq<Record>, after: seq<Record>, key: Key, offset: nat, payload: string, from: nat, k: Key,
                  bytes: string, at: nat)
    requires Adds(before, after, key, offset, payload) && Follows(before, from, k, bytes, at)
    requires (k == key ==> at == offset)
    ensures k == key ==> Follows(after, from, k, bytes + payload, at + |payload|)
    ensures k != key ==> Follows(after, from, k, bytes, at)
  {
    hide Emitted, Consecutive;
    assert Consecutive(after, from, k);
    assert bytes + "" == bytes;
  }

  function Min(a: nat, b: nat): nat {
    if a < b then a else b
  }

  function Flat(buffers: seq<string>): string {
    if buffers == [] then "" else buffers[0] + Flat(buffers[1..])
  }

  /** The buffers of a read hold its bytes, one after the other, as far as they go. */
  ghost predicate Carries(buffers: seq<string>, bytes: string) {
    forall i :: 0 <= i < |bytes| && i < |Flat(buffers)| ==> bytes[i] == Flat(buffers)[i]
  }

  /** After the first emitted bytes come what is left of a buffer and the buffers after it. */
  ghost predicate Reached(buffers: seq<string>, emitted: nat, segment: nat, at: nat) {
    && segment < |buffers| && at <= |buffers[segment]| && emitted <= |Flat(buffers)|
    && Flat(buffers)[emitted..] == buffers[segment][at..] + Flat(buffers[segment + 1..])
  }

  lemma ReachedFirst(buffers: seq<string>)
    requires buffers != []
    ensures Reached(buffers, 0, 0, 0)
  {
  }

  lemma ReachedNext(buffers: seq<string>, emitted: nat, segment: nat)
    requires segment < |buffers| && Reached(buffers, emitted, segment, |buffers[segment]|)
    ensures if segment + 1 < |buffers| then Reached(buffers, emitted, segment + 1, 0) else emitted == |Flat(buffers)|
  {
    assert buffers[segment][|buffers[segment]|..] == "";
    if segment + 1 < |buffers| {
      assert buffers[segment + 1..][1..] == buffers[segment + 2..];
    } else {
      assert Flat(buffers)[emitted..] == "";
    }
  }

  lemma NextPiece(buffers: seq<string>, bytes: string, segment: nat, at: nat, emitted: nat, len: nat)
    requires Carries(buffers, bytes) && Reached(buffers, emitted, segment, at)
    requires at + len <= |buffers[segment]| && emitted + len <= |bytes|
    ensures Reached(buffers, emitted + len, segment, at + len)
    ensures bytes[..emitted] + buffers[segment][at..at + len] == bytes[..emitted + len]
  {
    var rest := Flat(buffers)[emitted..];
    assert rest[len..] == Flat(buffers)[emitted + len..];
    var piece := buffers[segment][at..at + len];
    forall i | 0 <= i < |piece|
      ensures piece[i] == bytes[emitted..emitted + len][i]
    {
      assert rest[i] == Flat(buffers)[emitted + i];
    }
    assert piece == bytes[emitted..emitted + len];
  }

  /** The bytes begin an HTTP/2 connection, and can be seen to. */
  predicate Begins(bytes: string, faults: Faults) {
    !faults.peek && !faults.preface && |bytes| >= PREFACE_LEN && bytes[..PREFACE_LEN] == PREFACE
  }

  /** The bytes in the first buffer begin an HTTP/2 connection, and can be seen to. */
  predicate BeginsScattered(buffers: seq<string>, bytes: string, faults: Faults)
    requires buffers != []
  {
    !faults.peek && !faults.preface && |bytes| >= PREFACE_LEN && PREFACE <= buffers[0]
  }

  /** All of the bytes can be read and emitted. */
  ghost predicate Whole(buffers: seq<string>, bytes: string, faults: Faults) {
    faults.None() && |buffers| <= MAX_SEGMENTS && |bytes| <= |Flat(buffers)| && |bytes| <= SCATTERED_LIMIT
  }

  lemma CarriesLess(buffers: seq<string>, bytes: string, n: nat)
    requires Carries(buffers, bytes) && n <= |bytes|
    ensures Carries(buffers, bytes[..n])
  {
  }

  lemma CarriesFirst(buffers: seq<string>, bytes: string)
    requires Carries(buffers, bytes) && buffers != []
    ensures Carries(buffers[..1], bytes)
  {
    assert buffers[..1][1..] == [] && buffers[..1][0] == buffers[0];
    assert Flat(buffers[..1]) == buffers[0] + "";
    assert Flat(buffers) == buffers[0] + Flat(buffers[1..]);
  }

  class Streams {
    const messageLimit: nat
    const payloadLimit: nat
    var streams: map<Key, Mark>
    var lost: nat
    var records: seq<Record>
    // For each followed direction: the record count when it was marked, and the bytes of all calls since.
    ghost var since: map<Key, nat>
    ghost var calls: map<Key, string>

    ghost predicate Marked(key: Key)
      reads this
    {
      key in streams && streams[key].Http2?
    }

    /** What was emitted for a followed direction since it was marked is what its calls carried, without a gap. */
    ghost predicate Gapless(key: Key)
      reads this
    {
      && key in since && key in calls && key in streams
      && Follows(records, since[key], key, calls[key], streams[key].at)
    }

    ghost predicate Valid()
      reads this
    {
      forall key :: Marked(key) ==> Gapless(key)
    }

    constructor (messageLimit: nat, payloadLimit: nat)
      ensures Valid() && streams == map[] && records == [] && lost == 0
    {
      this.messageLimit, this.payloadLimit := messageLimit, payloadLimit;
      streams, lost, records, since, calls := map[], 0, [], map[], map[];
    }

    /** A direction becomes a followed stream, from here on. */
    method Follow(key: Key)
      requires Valid()
      modifies `streams, `since, `calls
      ensures Valid() && Marked(key) && calls[key] == "" && since[key] == |records|
      ensures streams == old(streams)[key := Http2(0)]
      ensures calls == old(calls)[key := ""] && since == old(since)[key := |records|]
    {
      streams := streams[key := Http2(0)];
      since := since[key := |records|];
      calls := calls[key := ""];
      assert Emitted(records, |records|, key) == "";
      assert forall k :: k != key && Marked(k) ==> old(Marked(k) && Gapless(k));
    }

    /** The emission loop over one buffer: records of at most PAYLOAD_SIZE bytes until a step fails. */
    method EmitBuffer(key: Key, bytes: string, start: bool, offset: nat, faults: Faults, counted: bool)
      returns (emitted: nat, dropped: bool, known: bool)
      modifies `records, `lost
      ensures emitted <= |bytes| && old(records) <= records
      ensures Adds(old(records), records, key, offset, bytes[..emitted])
      ensures lost == old(lost) + (if dropped then 1 else 0) + if known && !counted then 1 else 0
      ensures counted ==> known
      ensures faults.None() && |bytes| <= CALL_LIMIT ==> emitted == |bytes|
    {
      hide Adds;
      emitted, dropped, known := 0, false, counted;
      var kind := start;
      AddsNothing(records, key, offset);
      for step := 0 to MAX_STEPS
        invariant faults.None() ==> emitted == Min(|bytes|, step * PAYLOAD_SIZE)
        invariant emitted <= |bytes| && old(records) <= records
        invariant Adds(old(records), records, key, offset, bytes[..emitted])
        invariant !dropped && known == counted && lost == old(lost)
      {
        if emitted == |bytes| {
          break;
        }
        var len := Min(|bytes| - emitted, PAYLOAD_SIZE);
        if faults.read(step) {
          if !known {
            lost, known := lost + 1, true;
          }
          break;
        }
        if faults.output(step) {
          lost, dropped := lost + 1, true;
          break;
        }
        var r := Record(key, kind, offset + emitted, bytes[emitted..emitted + len]);
        AddsOne(old(records), records, key, offset, bytes[..emitted], r);
        assert bytes[..emitted] + r.payload == bytes[..emitted + len];
        records := records + [r];
        emitted, kind := emitted + len, false;
      }
    }

    /** The emission loop over the buffers of one read: like EmitBuffer, moving on to the next buffer when one is
        used up. The call carries bytes, of which the buffers hold as much as they hold. */
    method EmitBuffers(key: Key, buffers: seq<string>, bytes: string, start: bool, offset: nat, faults: Faults)
      returns (emitted: nat, dropped: bool)
      requires buffers != [] && Carries(buffers, bytes)
      modifies `records, `lost
      ensures emitted <= |bytes| && old(records) <= records
      ensures Adds(old(records), records, key, offset, bytes[..emitted])
      ensures lost == old(lost) + if dropped then 1 else 0
      ensures Whole(buffers, bytes, faults) ==> emitted == |bytes|
    {
      hide Adds, Reached, Carries, Flat;
      emitted, dropped := 0, false;
      var kind, segment: nat, at: nat := start, 0, 0;
      AddsNothing(records, key, offset);
      ReachedFirst(buffers);
      for step := 0 to MAX_STEPS
        invariant emitted <= |bytes| && old(records) <= records
        invariant Adds(old(records), records, key, offset, bytes[..emitted])
        invariant !dropped && lost == old(lost)
        invariant segment < |buffers| && at <= |buffers[segment]| && Reached(buffers, emitted, segment, at)
        invariant step <= 2 * segment + emitted / PAYLOAD_SIZE
                          + if at == |buffers[segment]| || emitted == |bytes| then 1 else 0
      {
        if emitted == |bytes| {
          break;
        }
        if at == |buffers[segment]| {
          ReachedNext(buffers, emitted, segment);
          if segment + 1 >= |buffers| || segment + 1 >= MAX_SEGMENTS || faults.vector(step) {
            break;
          }
          segment, at := segment + 1, 0;
          continue;
        }
        var len := Min(Min(|buffers[segment]| - at, |bytes| - emitted), PAYLOAD_SIZE);
        if faults.read(step) {
          break;
        }
        if faults.output(step) {
          lost, dropped := lost + 1, true;
          break;
        }
        var r := Record(key, kind, offset + emitted, buffers[segment][at..at + len]);
        NextPiece(buffers, bytes, segment, at, emitted, len);
        AddsOne(old(records), records, key, offset, bytes[..emitted], r);
        records := records + [r];
        emitted, at, kind := emitted + len, at + len, false;
      }
    }

    /** The received bytes of one plaintext call (http_capture): like Capture, but scattered over buffers. A TLS hello
        on a direction that nothing is known of is TlsPrefix's. */
    method CaptureReceived(socket: nat, buffers: seq<string>, bytes: string, faults: Faults)
      requires Valid() && buffers != [] && Carries(buffers, bytes)
      modifies this
      ensures var key := Key(socket, Received);
              && Valid() && Reported(key, bytes)
              && (!old(Marked(key)) && BeginsScattered(buffers, bytes, faults) ==> Marked(key) || lost > old(lost))
              && (!old(Marked(key)) && Marked(key) ==> BeginsScattered(buffers, bytes, faults))
              && ((old(Marked(key)) || BeginsScattered(buffers, bytes, faults)) && Whole(buffers, bytes, faults) ==>
                   Marked(key))
    {
      hide Whole, Gapless, Carries;
      var key := Key(socket, Received);
      AllKnown();
      if bytes == "" {
        return;
      }
      var readable := |bytes| >= 4 && |buffers[0]| >= 4 && !faults.peek;
      var http2Start := BeginsScattered(buffers, bytes, faults);
      var http2Going := key in streams && streams[key].Http2?;
      var start := !http2Going && readable && (buffers[0][..4] in HTTP_STARTS || http2Start);
      if !start && key !in streams {
        return;
      }
      if http2Going || http2Start {
        StreamReceived(key, buffers, bytes, start, faults);
      } else {
        MessageReceived(key, buffers, bytes, start, faults);
      }
    }

    method StreamReceived(key: Key, buffers: seq<string>, bytes: string, start: bool, faults: Faults)
      requires Valid() && buffers != [] && Carries(buffers, bytes)
      modifies this
      ensures Valid() && Reported(key, bytes)
      ensures !old(Marked(key)) ==> Marked(key) || lost > old(lost)
      ensures Whole(buffers, bytes, faults) ==> Marked(key)
    {
      hide Whole, Gapless, Carries;
      AllKnown();
      var peerMarked := false;
      if !(key in streams && streams[key].Http2?) {
        peerMarked := BeginBoth(key);
      }
      ScatterHttp2(key, buffers, bytes, start, faults, peerMarked);
      AllKnown();
    }

    /** A call on a direction that is not followed, as CaptureMessage's but scattered over buffers, of which only the
        first counts when whole messages are not asked for. */
    method MessageReceived(key: Key, buffers: seq<string>, bytes: string, start: bool, faults: Faults)
      requires Valid() && !Marked(key) && buffers != [] && Carries(buffers, bytes)
      modifies `streams, `records, `lost
      ensures Valid() && lost >= old(lost) && old(records) <= records
      ensures forall k :: Marked(k) <==> old(Marked(k))
    {
      hide Gapless, Carries;
      CarriesFirst(buffers, bytes);
      var offset, budget, source := 0, payloadLimit, buffers[..1];
      if messageLimit > 0 {
        budget, source := messageLimit, buffers;
        if !start {
          if key !in streams || streams[key].at >= messageLimit {
            return;
          }
          offset := streams[key].at;
          budget := messageLimit - offset;
        }
        Remember(key, offset + |bytes|);
      } else if !start {
        if key !in streams {
          return;
        }
        offset := streams[key].at;
        Drop(key);
        if offset >= budget {
          return;
        }
        budget := budget - offset;
      } else if |bytes| < SPLIT_SIZE {
        Remember(key, |bytes|);
      }
      CarriesLess(source, bytes, Min(|bytes|, budget));
      EmitScattered(key, source, bytes[..Min(|bytes|, budget)], start, offset, faults);
    }

    /** Emits a part of a message on a direction that is not followed. */
    method EmitScattered(key: Key, buffers: seq<string>, bytes: string, start: bool, offset: nat, faults: Faults)
      requires Valid() && !Marked(key) && buffers != [] && Carries(buffers, bytes)
      modifies `records, `lost
      ensures Valid() && lost >= old(lost) && old(records) <= records
    {
      var emitted, _ := EmitBuffers(key, buffers, bytes, start, offset, faults);
      forall k | Marked(k)
        ensures Gapless(k)
      {
        assert old(Gapless(k));
        assert Emitted(records, since[k], k) == Emitted(old(records), since[k], k) + "";
      }
    }

    method ScatterHttp2(key: Key, buffers: seq<string>, bytes: string, start: bool, faults: Faults, peerMarked: bool)
      requires Valid() && Marked(key) && buffers != [] && Carries(buffers, bytes)
      modifies this
      ensures Valid() && lost >= old(lost) && old(records) <= records
      ensures if Marked(key) then calls[key] == old(calls[key]) + bytes && since[key] == old(since[key])
              else lost > old(lost)
      ensures Whole(buffers, bytes, faults) ==> Marked(key)
      ensures forall k :: k != key && Marked(k) ==>
                old(Marked(k)) && calls[k] == old(calls[k]) && since[k] == old(since[k])
      ensures forall k :: k != key && old(Marked(k)) && !(peerMarked && k == key.Peer()) ==> Marked(k)
    {
      hide Adds, Follows, Whole, Carries;
      var offset := streams[key].at;
      ghost var before := records;
      assert Gapless(key);
      streams := streams[key := Http2(offset + |bytes|)];
      calls := calls[key := calls[key] + bytes];
      var emitted, dropped := EmitBuffers(key, buffers, bytes, start, offset, faults);
      assert emitted == |bytes| ==> bytes[..emitted] == bytes;
      Settle(key, emitted < |bytes|, dropped, peerMarked && emitted == 0);
      forall k | Marked(k)
        ensures Gapless(k)
      {
        assert old(Gapless(k));
        FollowsOn(before, records, key, offset, bytes[..emitted], since[k], k, old(calls[k]), old(streams[k].at));
      }
    }

    /** A direction with bytes that were not emitted is no longer followed; the loss is counted unless it has been. */
    method Settle(key: Key, short: bool, counted: bool, peerToo: bool)
      modifies `streams, `lost
      ensures lost == old(lost) + if short && !counted then 1 else 0
      ensures streams == if !short then old(streams)
                         else if peerToo then old(streams) - {key, key.Peer()} else old(streams) - {key}
    {
      if short {
        streams := streams - {key};
        if peerToo {
          streams := streams - {key.Peer()};
        }
        if !counted {
          lost := lost + 1;
        }
      }
    }

    /** A direction of which no call has been followed yet. */
    ghost predicate Begun(key: Key)
      reads this
    {
      key in calls && calls[key] == "" && key in since && since[key] == |records|
    }

    /** What is known of a direction is what was known. */
    twostate predicate Known(key: Key)
      reads this
    {
      && (key in calls <==> key in old(calls)) && (key in calls ==> calls[key] == old(calls[key]))
      && (key in since <==> key in old(since)) && (key in since ==> since[key] == old(since[key]))
    }

    /** Marks the direction, and the other one too unless it is followed already. */
    method BeginBoth(key: Key) returns (peerMarked: bool)
      requires Valid() && !Marked(key)
      modifies `streams, `since, `calls
      ensures Valid() && Marked(key) && Marked(key.Peer())
      ensures Begun(key) && (peerMarked ==> Begun(key.Peer()))
      ensures forall k {:trigger k in old(calls)} {:trigger Known(k)} ::
                k != key && !(peerMarked && k == key.Peer()) ==> Known(k)
      ensures peerMarked <==> !old(Marked(key.Peer()))
      ensures forall k :: k != key && k != key.Peer() ==> (Marked(k) <==> old(Marked(k)))
    {
      peerMarked := !(key.Peer() in streams && streams[key.Peer()].Http2?);
      Follow(key);
      if peerMarked {
        Follow(key.Peer());
      }
    }

    /** A call on a followed direction: all of its bytes are emitted, or the direction is given up and counted. */
    method CaptureHttp2(key: Key, bytes: string, start: bool, faults: Faults, counted: bool, peerMarked: bool)
      requires Valid() && Marked(key)
      modifies this
      ensures Valid() && lost >= old(lost) && old(records) <= records
      ensures if Marked(key) then calls[key] == old(calls[key]) + bytes && since[key] == old(since[key])
              else counted || lost > old(lost)
      ensures faults.None() && |bytes| <= CALL_LIMIT ==> Marked(key)
      ensures forall k :: k != key && Marked(k) ==>
                old(Marked(k)) && calls[k] == old(calls[k]) && since[k] == old(since[k])
      ensures forall k :: k != key && old(Marked(k)) && !(peerMarked && k == key.Peer()) ==> Marked(k)
    {
      hide Adds, Follows;
      var offset := streams[key].at;
      ghost var before := records;
      assert Gapless(key);
      streams := streams[key := Http2(offset + |bytes|)];
      calls := calls[key := calls[key] + bytes];
      var emitted, dropped, known := EmitBuffer(key, bytes, start, offset, faults, counted);
      assert emitted == |bytes| ==> bytes[..emitted] == bytes;
      Settle(key, emitted < |bytes|, dropped || known, peerMarked && emitted == 0);
      forall k | Marked(k)
        ensures Gapless(k)
      {
        assert old(Gapless(k));
        FollowsOn(before, records, key, offset, bytes[..emitted], since[k], k, old(calls[k]), old(streams[k].at));
      }
    }

    method Remember(key: Key, at: nat)
      requires Valid() && !Marked(key)
      modifies `streams
      ensures Valid() && streams == old(streams)[key := Message(at)]
    {
      streams := streams[key := Message(at)];
      assert forall k :: Marked(k) ==> old(Marked(k) && Gapless(k));
    }

    method Drop(key: Key)
      requires Valid() && !Marked(key)
      modifies `streams
      ensures Valid() && streams == old(streams) - {key}
    {
      streams := streams - {key};
      assert forall k :: Marked(k) ==> old(Marked(k) && Gapless(k));
    }

    /** Emits a part of a message on a direction that is not followed. */
    method EmitMessage(key: Key, bytes: string, start: bool, offset: nat, faults: Faults, counted: bool)
      requires Valid() && !Marked(key)
      modifies `records, `lost
      ensures Valid() && lost >= old(lost) && old(records) <= records
    {
      var emitted, _, _ := EmitBuffer(key, bytes, start, offset, faults, counted);
      forall k | Marked(k)
        ensures Gapless(k)
      {
        assert old(Gapless(k));
        assert Emitted(records, since[k], k) == Emitted(old(records), since[k], k) + "";
      }
    }

    /** A call on a direction that is not followed: HTTP/1 messages, up to a limit. */
    method CaptureMessage(key: Key, bytes: string, start: bool, faults: Faults, counted: bool)
      requires Valid() && !Marked(key)
      modifies `streams, `records, `lost
      ensures Valid() && lost >= old(lost) && old(records) <= records
      ensures forall k :: Marked(k) <==> old(Marked(k))
    {
      var offset, budget := 0, payloadLimit;
      if messageLimit > 0 {
        budget := messageLimit;
        if !start {
          if key !in streams || streams[key].at >= messageLimit {
            return;
          }
          offset := streams[key].at;
          budget := messageLimit - offset;
        }
        Remember(key, offset + |bytes|);
      } else if !start {
        if key !in streams {
          return;
        }
        offset := streams[key].at;
        Drop(key);
        if offset >= budget {
          return;
        }
        budget := budget - offset;
      } else if |bytes| < SPLIT_SIZE {
        Remember(key, |bytes|);
      }
      EmitMessage(key, bytes[..Min(|bytes|, budget)], start, offset, faults, counted);
    }

    lemma AllKnown()
      requires Valid()
      ensures forall key :: Marked(key) ==> key in since && key in calls && since[key] <= |records|
    {
      forall key | Marked(key)
        ensures key in since && key in calls && since[key] <= |records|
      {
        assert Gapless(key);
      }
    }

    method CaptureStream(key: Key, bytes: string, start: bool, faults: Faults, counted: bool)
      requires Valid()
      modifies this
      ensures Valid() && (if counted then LostAlready(key, bytes) else Reported(key, bytes))
      ensures !old(Marked(key)) ==> Marked(key) || counted || lost > old(lost)
      ensures faults.None() && |bytes| <= CALL_LIMIT ==> Marked(key)
    {
      hide Gapless;
      if key in streams && streams[key].Http2? {
        AllKnown();
        CaptureHttp2(key, bytes, start, faults, counted, false);
        AllKnown();
      } else {
        CaptureStart(key, bytes, start, faults, counted);
      }
    }

    /** The first call of a stream. */
    method CaptureStart(key: Key, bytes: string, start: bool, faults: Faults, counted: bool)
      requires Valid() && !Marked(key)
      modifies this
      ensures Valid() && LostAlready(key, bytes)
      ensures Marked(key) || counted || lost > old(lost)
      ensures faults.None() && |bytes| <= CALL_LIMIT ==> Marked(key)
    {
      hide Gapless, Consecutive, Emitted;
      AllKnown();
      var peerMarked := BeginBoth(key);
      CaptureHttp2(key, bytes, start, faults, counted, peerMarked);
      AllKnown();
    }

    /** The plaintext of one SSL call (ssl_capture). */
    method Capture(key: Key, bytes: string, faults: Faults)
      requires Valid()
      modifies this
      ensures Valid() && Reported(key, bytes)
      ensures !old(Marked(key)) && Begins(bytes, faults) ==> Marked(key) || lost > old(lost)
      ensures (old(Marked(key)) || Begins(bytes, faults)) && faults.None() && |bytes| <= CALL_LIMIT ==> Marked(key)
    {
      var readable := |bytes| >= 4 && !faults.peek;
      var counted := |bytes| >= 4 && faults.peek;
      if counted {
        lost := lost + 1;
        assert forall k :: Marked(k) ==> old(Marked(k) && Gapless(k));
      }
      var http2Start := Begins(bytes, faults);
      var http2Going := key in streams && streams[key].Http2?;
      var start := !http2Going && readable && (bytes[..4] in HTTP_STARTS || http2Start);
      assert Valid();
      if http2Going || http2Start {
        CaptureStream(key, bytes, start, faults, counted);
      } else {
        CaptureMessage(key, bytes, start, faults, counted);
      }
    }

    /** Reported, for a call whose loss has been counted before. */
    twostate predicate LostAlready(key: Key, bytes: string)
      reads this
    {
      && lost >= old(lost) && old(records) <= records
      && (old(Marked(key)) && Marked(key) ==> key in calls && key in old(calls) && calls[key] == old(calls[key]) + bytes
                                              && key in since && key in old(since) && since[key] == old(since[key]))
      && (!old(Marked(key)) && Marked(key) ==> key in calls && calls[key] == bytes
                                               && key in since && since[key] == |old(records)|)
      && OthersKept(key)
    }

    /** No other direction loses or gains anything; the other one of the socket may begin to be followed. */
    twostate predicate OthersKept(key: Key)
      reads this
    {
      && (forall k :: k != key && old(Marked(k)) ==>
            Marked(k) && k in calls && k in old(calls) && calls[k] == old(calls[k]))
      && (forall k :: k != key && !old(Marked(k)) && Marked(k) ==> k == key.Peer() && k in calls && calls[k] == "")
    }

    /** What a call does to the followed directions and to the lost counter: a followed direction keeps every byte,
        or stops being followed and the loss is counted; one that begins to be followed does so with all of the
        call's bytes. */
    twostate predicate Reported(key: Key, bytes: string)
      reads this
    {
      && LostAlready(key, bytes)
      && (old(Marked(key)) && !Marked(key) ==> lost > old(lost))
    }
  }
}
