// TCP trace events, and what one socket life amounts to.
//
// A life is the sequence of events seen on one kernel socket from its first event to its end. Summarize
// reads a life as a whole; the summarizer in TcpTrace keeps the same facts up to date event by event.
module TcpLives {
  import opened Folds

  /** An address is absent (the empty string), or a host and a port; ":0" is port == 0. */
  datatype Address = NoAddress | Address(host: string, unspecified: bool, port: nat)

  datatype Kind =
    | State | Connect | Accept | Close | Destroy | Send | Receive | Retransmit | Sample | AppAccept
    | SendReset | ReceiveReset | Other

  datatype TcpState = NoState | SynSent | SynRecv | Listen | Closed | OtherState

  /** valid is the mask of reported fields, as the set of its bits (1, 2, 4, ...). */
  datatype Diagnostics = Diagnostics(valid: set<nat>, rttUS: nat, rttvarUS: nat, cwnd: nat, ssThresh: nat,
                                     unacked: nat, lost: nat, zeroWindow: bool)

  datatype Accepting = Accepting(latencyNS: nat, queueUsed: nat, queueMax: nat)

  datatype Event = Event(socket: nat, time: nat, kind: Kind, process: string, pid: nat, target: string,
                         source: Address, destination: Address, before: TcpState, after: TcpState,
                         bytes: nat, diagnostics: Diagnostics, accepting: Accepting)

  datatype Outcome = Undecided | Established | Existing | Failed | Incomplete

  datatype Connection = Connection(process: string, pid: nat, source: Address, destination: Address,
                                   hostname: string, outcome: Outcome, connectMS: nat, retransmissions: nat,
                                   reset: bool, diagnostics: Diagnostics, accepting: Accepting, closed: bool,
                                   established: bool, handshake: bool, listener: bool, portSeen: bool,
                                   portless: bool, tx: nat, rx: nat)
  {
    /** A socket that never had a local port: connect failed before SYN_SENT. */
    predicate Unbound() {
      portless && !portSeen && !handshake && !established
    }

    /** A socket bound and closed without connecting or listening. */
    predicate BindOnly() {
      destination.Address? && destination.unspecified && !handshake && !established
    }

    predicate Counted() {
      !listener && !(Unbound() && Unspecified(destination)) && !BindOnly()
    }

    function Result(): Outcome {
      if established then Established
      else if Unbound() then Failed
      else if !handshake then Existing
      else if closed || reset then Failed
      else Incomplete
    }
  }

  predicate Unspecified(address: Address) {
    address.NoAddress? || address.unspecified
  }

  predicate ZeroPort(address: Address) {
    address.Address? && address.port == 0
  }

  const NO_DIAGNOSTICS := Diagnostics({}, 0, 0, 0, 0, 0, 0, false)
  const NO_ACCEPTING := Accepting(0, 0, 0)
  const NANOS_PER_MILLI: nat := 1_000_000

  predicate Handshaking(state: TcpState) {
    state == SynSent || state == SynRecv
  }

  /** The transitions that begin a new socket life: connect(), and a server's new connection. */
  predicate Starts(e: Event) {
    e.kind == State && ((e.before == Closed && e.after == SynSent) || (e.before == Listen && e.after == SynRecv))
  }

  // What single events say.

  predicate HasProcess(e: Event) { e.process != "" }
  predicate HasPid(e: Event) { e.pid != 0 }
  predicate HasTarget(e: Event) { e.target != "" }
  predicate HasDestination(e: Event) { e.destination.Address? }
  predicate HasSource(e: Event) { e.source.Address? }
  predicate HasPort(e: Event) { e.source.Address? && e.source.port != 0 }
  predicate HasZeroPort(e: Event) { ZeroPort(e.source) }
  predicate Connects(e: Event) { e.kind == Connect || e.kind == Accept }
  predicate Shakes(e: Event) { Handshaking(e.before) || Handshaking(e.after) || Connects(e) }
  predicate Listens(e: Event) { e.after == Listen || (e.before == Listen && e.after == Closed) }
  predicate Resets(e: Event) { e.kind == SendReset || e.kind == ReceiveReset }
  predicate Closes(e: Event) { e.kind == Close || e.kind == Destroy }
  predicate Samples(e: Event) { e.kind == Sample }
  predicate Accepts(e: Event) { e.kind == AppAccept }
  predicate Resends(e: Event) { e.kind == Retransmit }
  function Sent(e: Event): nat { if e.kind == Send then e.bytes else 0 }
  function Received(e: Event): nat { if e.kind == Receive then e.bytes else 0 }

  ghost function ConnectsAfter(first: nat): Event -> bool {
    e => Connects(e) && first > 0 && e.time >= first
  }

  // What a whole life says.

  ghost function SourceOf(life: seq<Event>): Address {
    match First(life, HasPort)
    case Some(e) => e.source
    case None => match First(life, HasSource) case Some(e) => e.source case None => NoAddress
  }

  ghost function ConnectTime(life: seq<Event>): nat
    requires life != []
  {
    var first := life[0].time;
    match Last(life, ConnectsAfter(first))
    case Some(e) => if e.time >= first then (e.time - first) / NANOS_PER_MILLI else 0
    case None => 0
  }

  /** The row of a life that has not been classified yet. */
  ghost function Summarize(life: seq<Event>): Connection {
    Connection(
      process := match First(life, HasProcess) case Some(e) => e.process case None => "",
      pid := match First(life, HasPid) case Some(e) => e.pid case None => 0,
      source := SourceOf(life),
      destination := match First(life, HasDestination) case Some(e) => e.destination case None => NoAddress,
      hostname := match First(life, HasTarget) case Some(e) => e.target case None => "",
      outcome := Undecided,
      connectMS := if life == [] then 0 else ConnectTime(life),
      retransmissions := Count(life, Resends),
      reset := Any(life, Resets),
      diagnostics := match Last(life, Samples) case Some(e) => e.diagnostics case None => NO_DIAGNOSTICS,
      accepting := match Last(life, Accepts) case Some(e) => e.accepting case None => NO_ACCEPTING,
      closed := Any(life, Closes),
      established := Any(life, Connects),
      handshake := Any(life, Shakes),
      listener := Any(life, Listens),
      portSeen := Any(life, HasPort),
      portless := Any(life, HasZeroPort),
      tx := Sum(life, Sent),
      rx := Sum(life, Received))
  }

  const BLANK := Connection("", 0, NoAddress, NoAddress, "", Undecided, 0, 0, false, NO_DIAGNOSTICS,
                            NO_ACCEPTING, false, false, false, false, false, false, 0, 0)

  lemma BlankIsEmptyLife()
    ensures Summarize([]) == BLANK
  {
  }

  lemma FirstHolds<T>(s: seq<T>, p: T -> bool)
    ensures First(s, p).Some? ==> First(s, p).value in s && p(First(s, p).value)
    ensures First(s, p).Some? <==> Any(s, p)
  {
    if s != [] {
      FirstHolds(s[1..], p);
      assert Any(s, p) <==> p(s[0]) || Any(s[1..], p) by {
        assert s == s[..1] + s[1..];
        AnyAppend(s[..1], s[1..], p);
        AnySnoc([], s[0], p);
        assert s[..1] == [] + [s[0]];
      }
    }
  }

  lemma LastHolds<T>(s: seq<T>, p: T -> bool)
    ensures Last(s, p).Some? ==> p(Last(s, p).value)
  {
  }

  /** How each fact about a life changes when one more event is seen. */
  lemma Longer(life: seq<Event>, e: Event)
    ensures var c, d := Summarize(life), Summarize(life + [e]);
            && d.process == (if c.process == "" then e.process else c.process)
            && d.pid == (if c.pid == 0 then e.pid else c.pid)
            && d.hostname == (if c.hostname == "" then e.target else c.hostname)
            && d.destination == (if c.destination.NoAddress? then e.destination else c.destination)
            && d.retransmissions == c.retransmissions + (if Resends(e) then 1 else 0)
            && d.diagnostics == (if Samples(e) then e.diagnostics else c.diagnostics)
            && d.accepting == (if Accepts(e) then e.accepting else c.accepting)
            && d.tx == c.tx + Sent(e) && d.rx == c.rx + Received(e)
            && c.outcome == Undecided && d.outcome == Undecided
  {
    FirstSnoc(life, e, HasProcess);
    FirstHolds(life, HasProcess);
    FirstSnoc(life, e, HasPid);
    FirstHolds(life, HasPid);
    FirstSnoc(life, e, HasTarget);
    FirstHolds(life, HasTarget);
    FirstSnoc(life, e, HasDestination);
    FirstHolds(life, HasDestination);
    SumSnoc(life, e, Indicator(Resends));
    LastSnoc(life, e, Samples);
    LastSnoc(life, e, Accepts);
    SumSnoc(life, e, Sent);
    SumSnoc(life, e, Received);
  }

  lemma LongerFlags(life: seq<Event>, e: Event)
    ensures var c, d := Summarize(life), Summarize(life + [e]);
            && d.reset == (c.reset || Resets(e))
            && d.closed == (c.closed || Closes(e))
            && d.established == (c.established || Connects(e))
            && d.handshake == (c.handshake || Shakes(e))
            && d.listener == (c.listener || Listens(e))
            && d.portSeen == (c.portSeen || HasPort(e))
            && d.portless == (c.portless || HasZeroPort(e))
  {
    AnySnoc(life, e, Resets);
    AnySnoc(life, e, Closes);
    AnySnoc(life, e, Connects);
    AnySnoc(life, e, Shakes);
    AnySnoc(life, e, Listens);
    AnySnoc(life, e, HasPort);
    AnySnoc(life, e, HasZeroPort);
  }

  lemma LongerSource(life: seq<Event>, e: Event)
    ensures var c, d := Summarize(life), Summarize(life + [e]);
            d.source == if c.source.NoAddress? || (ZeroPort(c.source) && HasPort(e)) then e.source else c.source
  {
    FirstSnoc(life, e, HasPort);
    FirstHolds(life, HasPort);
    FirstSnoc(life, e, HasSource);
    FirstHolds(life, HasSource);
    if Any(life, HasPort) {
      var i :| 0 <= i < |life| && HasPort(life[i]);
      assert HasSource(life[i]);
    } else {
      assert forall x :: x in life ==> !HasPort(x);
    }
  }

  lemma LongerConnectTime(life: seq<Event>, e: Event)
    ensures var c, d := Summarize(life), Summarize(life + [e]);
            var first := (life + [e])[0].time;
            d.connectMS == if Connects(e) && first > 0 && e.time >= first
                           then (e.time - first) / NANOS_PER_MILLI else c.connectMS
  {
    var first := (life + [e])[0].time;
    LastSnoc(life, e, ConnectsAfter(first));
    LastHolds(life, ConnectsAfter(first));
  }
}
