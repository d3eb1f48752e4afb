// The TCP trace summarizer: bounded memory, updated event by event.
module TcpTrace {
  import opened TcpLives
  import opened TcpHistory
  import opened TcpRows

  /** The finished connections kept as rows (tcpTraceConnectionLimit). */
  const ROW_LIMIT: nat := 1000

  /** Where the row of a freed socket's connection went. */
  datatype Freed = Freed(group: GroupKey, slot: nat, count: nat, reset: bool)

  /** finished is a ring holding the last ROW_LIMIT of rows: the c-th finished connection (from 0) sits in slot
      c % ROW_LIMIT until ROW_LIMIT later ones have finished. */
  ghost predicate Ring(finished: seq<Connection>, oldest: nat, omitted: nat, rows: seq<Connection>) {
    && |finished| + omitted == |rows|
    && |finished| <= ROW_LIMIT
    && (omitted > 0 ==> |finished| == ROW_LIMIT)
    && oldest == omitted % ROW_LIMIT
    && forall c :: omitted <= c < |rows| ==> finished[c % ROW_LIMIT] == rows[c]
  }

  lemma RingGrow(finished: seq<Connection>, oldest: nat, omitted: nat, rows: seq<Connection>, c: Connection)
    requires Ring(finished, oldest, omitted, rows) && |finished| < ROW_LIMIT
    ensures Ring(finished + [c], oldest, omitted, rows + [c])
    ensures |finished| == |rows| % ROW_LIMIT
  {
  }

  lemma RingReplace(finished: seq<Connection>, oldest: nat, omitted: nat, rows: seq<Connection>, c: Connection)
    requires Ring(finished, oldest, omitted, rows) && |finished| == ROW_LIMIT
    ensures oldest == |rows| % ROW_LIMIT
    ensures Ring(finished[oldest := c], (oldest + 1) % ROW_LIMIT, omitted + 1, rows + [c])
  {
    var next := finished[oldest := c];
    forall i | omitted + 1 <= i < |rows| + 1
      ensures next[i % ROW_LIMIT] == (rows + [c])[i]
    {
      if i < |rows| {
        assert omitted < i < omitted + ROW_LIMIT;
        assert i % ROW_LIMIT != oldest;
      }
    }
  }

  /** A row can be marked exactly while fewer than ROW_LIMIT later connections have finished; the slot then
      holds that connection's row, and marking it there marks that row alone. */
  lemma RingMark(finished: seq<Connection>, oldest: nat, omitted: nat, rows: seq<Connection>, i: nat)
    requires Ring(finished, oldest, omitted, rows) && i < |rows|
    ensures |finished| + omitted - (i + 1) < ROW_LIMIT <==> omitted <= i
    ensures var marked := rows[i := rows[i].(reset := true)];
            if |finished| + omitted - (i + 1) < ROW_LIMIT then
              && i % ROW_LIMIT < |finished| && finished[i % ROW_LIMIT] == rows[i]
              && Ring(finished[i % ROW_LIMIT := finished[i % ROW_LIMIT].(reset := true)], oldest, omitted, marked)
            else Ring(finished, oldest, omitted, marked)
  {
    if omitted <= i {
      forall c | omitted <= c < |rows| && c != i
        ensures c % ROW_LIMIT != i % ROW_LIMIT
      {
      }
    }
  }

  /** Read from the oldest slot round, the ring is the last rows in order: none twice, none missing. */
  lemma RingIsLastRows(finished: seq<Connection>, oldest: nat, omitted: nat, rows: seq<Connection>)
    requires Ring(finished, oldest, omitted, rows)
    ensures oldest <= |finished| && finished[oldest..] + finished[..oldest] == rows[omitted..]
    ensures multiset(finished) == multiset(rows[omitted..])
  {
    var turned := finished[oldest..] + finished[..oldest];
    forall j | 0 <= j < |turned|
      ensures turned[j] == rows[omitted..][j]
    {
      TurnedAt(finished, oldest, omitted, rows, j);
    }
    TurnedMultiset(finished, oldest);
  }

  lemma TurnedAt(finished: seq<Connection>, oldest: nat, omitted: nat, rows: seq<Connection>, j: nat)
    requires Ring(finished, oldest, omitted, rows) && j < |finished|
    ensures oldest <= |finished| && omitted + j < |rows|
    ensures (finished[oldest..] + finished[..oldest])[j] == rows[omitted + j]
  {
    if j < |finished| - oldest {
      assert (omitted + j) % ROW_LIMIT == oldest + j;
    } else {
      assert (omitted + j) % ROW_LIMIT == oldest + j - ROW_LIMIT;
    }
  }

  lemma TurnedMultiset(s: seq<Connection>, n: nat)
    requires n <= |s|
    ensures multiset(s[n..] + s[..n]) == multiset(s)
  {
    assert s == s[..n] + s[n..];
  }

  /** The sockets being followed, each with the summary of its open life. */
  ghost predicate Following(active: map<nat, Connection>, firstSeen: map<nat, nat>, open: map<nat, seq<Event>>) {
    && active.Keys == open.Keys && firstSeen.Keys == open.Keys
    && forall s :: s in open ==> open[s] != [] && active[s] == Summarize(open[s]) && firstSeen[s] == open[s][0].time
  }

  ghost predicate Remembers(f: Freed, rows: seq<Connection>, c: nat, ports: Ports) {
    c < |rows| && f == Freed(KeyOf(ports, rows[c]), c % ROW_LIMIT, c + 1, rows[c].reset)
  }

  ghost predicate Remembering(freed: map<nat, Freed>, h: History, ports: Ports) {
    && freed.Keys == h.freed.Keys
    && forall s :: s in freed ==> Remembers(freed[s], Rows(h.log), h.freed[s], ports)
  }

  lemma FollowsOpen(active: map<nat, Connection>, firstSeen: map<nat, nat>, h: History, socket: nat)
    requires Following(active, firstSeen, h.open)
    ensures (socket in active <==> socket in h.open) && (socket in firstSeen <==> socket in h.open)
    ensures socket in active ==>
              socket in firstSeen && h.open[socket] != [] && active[socket] == Summarize(h.open[socket])
                                 && firstSeen[socket] == h.open[socket][0].time
  {
  }

  lemma FreedNotOpen(h: History, socket: nat)
    requires WellFormed(h)
    ensures !(socket in h.freed && socket in h.open)
  {
  }

  lemma ClosedIs(life: seq<Event>)
    ensures Summarize(life).closed <==> ClosedLife(life)
  {
  }

  lemma FollowsExtended(active: map<nat, Connection>, firstSeen: map<nat, nat>, h: History, e: Event, c: Connection)
    requires Following(active, firstSeen, h.open)
    requires c == Summarize((if e.socket in h.open then h.open[e.socket] else []) + [e])
    ensures Following(active[e.socket := c],
                      firstSeen[e.socket := if e.socket in firstSeen then firstSeen[e.socket] else e.time],
                      Extend(h, e).open)
  {
    hide Summarize;
  }

  lemma FollowsEnded(active: map<nat, Connection>, firstSeen: map<nat, nat>, h: History, socket: nat)
    requires Following(active, firstSeen, h.open) && socket in h.open
    ensures Following(active - {socket}, firstSeen - {socket}, End(h, socket).open)
  {
    hide Summarize;
  }

  /** An ended life that counts adds its row, and one that does not adds nothing. */
  lemma RowsEnded(h: History, socket: nat, c: Connection)
    requires socket in h.open && c == Summarize(h.open[socket])
    ensures |Rows(h.log)| == |h.log|
    ensures if c.Counted() then
              && Rows(End(h, socket).log) == Rows(h.log) + [c.(outcome := c.Result())]
              && |End(h, socket).log| == |h.log| + 1
            else End(h, socket).log == h.log
  {
    hide Summarize;
    var f := Finished(socket, h.open[socket], false);
    RowsSnoc(h.log, f);
    assert Row(f) == c.(outcome := c.Result());
  }

  lemma RemembersEnded(freed: map<nat, Freed>, h: History, socket: nat, ports: Ports)
    requires Remembering(freed, h, ports) && socket in h.open
    ensures Remembering(freed, End(h, socket), ports)
  {
    hide Summarize, KeyOf;
    var h2 := End(h, socket);
    RowsEnded(h, socket, Summarize(h.open[socket]));
    forall s | s in freed
      ensures Remembers(freed[s], Rows(h2.log), h2.freed[s], ports)
    {
      assert Remembers(freed[s], Rows(h.log), h.freed[s], ports);
    }
  }

  /** A full memory is emptied. */
  function Emptied(freed: map<nat, Freed>): map<nat, Freed> {
    if |freed| >= FREED_LIMIT then map[] else freed
  }

  lemma RemembersKept(freed: map<nat, Freed>, h: History, socket: nat, f: Freed, ports: Ports)
    requires Remembering(freed, h, ports) && h.log != []
    requires Remembers(f, Rows(h.log), |h.log| - 1, ports)
    ensures Remembering(Emptied(freed)[socket := f], Remember(h, socket), ports)
  {
    hide Remembers, Rows;
    assert freed.Keys == h.freed.Keys && |freed.Keys| == |freed| && |h.freed.Keys| == |h.freed|;
    var kept := Emptied(freed);
    var h2 := Remember(h, socket);
    assert h2.log == h.log;
    assert kept[socket := f].Keys == h2.freed.Keys;
    forall s | s in kept[socket := f]
      ensures Remembers(kept[socket := f][s], Rows(h.log), h2.freed[s], ports)
    {
      if s != socket {
        assert Remembers(freed[s], Rows(h.log), h.freed[s], ports);
      }
    }
  }

  lemma RemembersForgotten(freed: map<nat, Freed>, h: History, socket: nat, ports: Ports)
    requires Remembering(freed, h, ports)
    ensures Remembering(freed - {socket}, h.(freed := h.freed - {socket}), ports)
  {
    hide Remembers, Rows;
  }

  lemma MarkedRemembers(f: Freed, rows: seq<Connection>, i: nat, c: nat, ports: Ports)
    requires c < |rows| && Remembers(f, rows, i, ports)
    ensures Remembers(if i == c then f.(reset := true) else f, rows[c := rows[c].(reset := true)], i, ports)
  {
  }

  lemma RemembersMarked(freed: map<nat, Freed>, h: History, ports: Ports, socket: nat)
    requires WellFormed(h) && Remembering(freed, h, ports) && socket in freed
    ensures Remembering(freed[socket := freed[socket].(reset := true)], MarkLate(h, socket), ports)
  {
    hide Row, KeyOf, Summarize, Remembers;
    assert LastLife(h, socket);
    RowsMark(h.log, h.freed[socket]);
    var after := freed[socket := freed[socket].(reset := true)];
    forall s | s in freed
      ensures Remembers(after[s], Rows(MarkLate(h, socket).log), h.freed[s], ports)
    {
      assert LastLife(h, s);
      assert Remembers(freed[s], Rows(h.log), h.freed[s], ports);
      assert s != socket ==> h.freed[s] != h.freed[socket];
      MarkedRemembers(freed[s], Rows(h.log), h.freed[s], h.freed[socket], ports);
    }
  }

  method Naming(c: Connection, e: Event, ghost life: seq<Event>) returns (process: string, pid: nat, hostname: string)
    requires c == Summarize(life)
    ensures var t := Summarize(life + [e]); process == t.process && pid == t.pid && hostname == t.hostname
  {
    hide Summarize;
    process, pid, hostname := c.process, c.pid, c.hostname;
    if process == "" && e.process != "" {
      process := e.process;
    }
    if pid == 0 && e.pid != 0 {
      pid := e.pid;
    }
    if hostname == "" && e.target != "" {
      hostname := e.target;
    }
    Longer(life, e);
  }

  method Ends(c: Connection, e: Event, ghost life: seq<Event>)
    returns (source: Address, destination: Address, portless: bool, portSeen: bool)
    requires c == Summarize(life)
    ensures var t := Summarize(life + [e]);
            source == t.source && destination == t.destination && portless == t.portless && portSeen == t.portSeen
  {
    hide Summarize;
    source, destination, portless, portSeen := c.source, c.destination, c.portless, c.portSeen;
    // connect() changes state before a port is assigned; a later event brings the port.
    if source.NoAddress? || (ZeroPort(source) && e.source.Address? && !ZeroPort(e.source)) {
      source := e.source;
    }
    if destination.NoAddress? {
      destination := e.destination;
    }
    if e.source.Address? {
      if ZeroPort(e.source) {
        portless := true;
      } else {
        portSeen := true;
      }
    }
    Longer(life, e);
    LongerFlags(life, e);
    LongerSource(life, e);
  }

  method ByKind(c: Connection, e: Event) returns (established: bool, handshake: bool, reset: bool, closed: bool)
    ensures established == (c.established || Connects(e)) && handshake == (c.handshake || Connects(e))
    ensures reset == (c.reset || Resets(e)) && closed == (c.closed || Closes(e))
  {
    established, handshake, reset, closed := c.established, c.handshake, c.reset, c.closed;
    match e.kind {
      case Connect | Accept => established, handshake := true, true;
      case SendReset | ReceiveReset => reset := true;
      case Close | Destroy => closed := true;
      case _ =>
    }
  }

  method Flags(c: Connection, e: Event, ghost life: seq<Event>)
    returns (handshake: bool, listener: bool, established: bool, reset: bool, closed: bool)
    requires c == Summarize(life)
    ensures var t := Summarize(life + [e]);
            && handshake == t.handshake && listener == t.listener && established == t.established
            && reset == t.reset && closed == t.closed
  {
    hide Summarize;
    listener := c.listener;
    established, handshake, reset, closed := ByKind(c, e);
    if Handshaking(e.before) || Handshaking(e.after) {
      handshake := true;
    }
    if e.after == Listen || (e.before == Listen && e.after == Closed) {
      listener := true;
    }
    LongerFlags(life, e);
  }

  method Measures(c: Connection, e: Event, firstSeen: nat, ghost life: seq<Event>)
    returns (connectMS: nat, retransmissions: nat, diagnostics: Diagnostics, accepting: Accepting, tx: nat, rx: nat)
    requires c == Summarize(life) && firstSeen == (life + [e])[0].time
    ensures var t := Summarize(life + [e]);
            && connectMS == t.connectMS && retransmissions == t.retransmissions && diagnostics == t.diagnostics
            && accepting == t.accepting && tx == t.tx && rx == t.rx
  {
    hide Summarize;
    connectMS, retransmissions, diagnostics, accepting := c.connectMS, c.retransmissions, c.diagnostics, c.accepting;
    tx, rx := c.tx, c.rx;
    match e.kind {
      case Send => tx := tx + e.bytes;
      case Receive => rx := rx + e.bytes;
      case Connect | Accept =>
        if firstSeen > 0 && e.time >= firstSeen {
          connectMS := (e.time - firstSeen) / NANOS_PER_MILLI;
        }
      case Retransmit => retransmissions := retransmissions + 1;
      case Sample => diagnostics := e.diagnostics;
      case AppAccept => accepting := e.accepting;
      case _ =>
    }
    Longer(life, e);
    LongerConnectTime(life, e);
  }

  /** Adds an event to a connection: field by field, what the longer life says. */
  method Observed(c: Connection, e: Event, firstSeen: nat, ghost life: seq<Event>) returns (d: Connection)
    requires c == Summarize(life) && firstSeen == (life + [e])[0].time
    ensures d == Summarize(life + [e])
  {
    hide Summarize;
    var process, pid, hostname := Naming(c, e, life);
    var source, destination, portless, portSeen := Ends(c, e, life);
    var handshake, listener, established, reset, closed := Flags(c, e, life);
    var connectMS, retransmissions, diagnostics, accepting, tx, rx := Measures(c, e, firstSeen, life);
    d := Connection(process, pid, source, destination, hostname, c.outcome, connectMS, retransmissions, reset,
                    diagnostics, accepting, closed, established, handshake, listener, portSeen, portless, tx, rx);
    Longer(life, e);
  }

  lemma RememberedAt(freed: map<nat, Freed>, h: History, ports: Ports, socket: nat)
    requires WellFormed(h) && Remembering(freed, h, ports) && socket in freed
    ensures socket in h.freed && LastLife(h, socket) && h.freed[socket] < |h.log|
    ensures Remembers(freed[socket], Rows(h.log), h.freed[socket], ports)
  {
    hide Row, Summarize, KeyOf;
    assert LastLife(h, socket);
  }

  lemma MarkedAlready(rows: seq<Connection>, c: nat)
    requires c < |rows| && rows[c].reset
    ensures rows[c := rows[c].(reset := true)] == rows
  {
  }

  class Summarizer {
    const ports: Ports
    var active: map<nat, Connection>
    var firstSeen: map<nat, nat>
    var finished: seq<Connection>
    var oldest: nat
    var omitted: nat
    var totals: Totals
    var groups: map<GroupKey, Group>
    var tx: nat
    var rx: nat
    var freed: map<nat, Freed>
    ghost var history: History

    /** The bounded state is what the whole history says. */
    ghost predicate Valid()
      reads this
    {
      && WellFormed(history)
      && Following(active, firstSeen, history.open)
      && Ring(finished, oldest, omitted, Rows(history.log))
      && totals == TotalsOf(Rows(history.log))
      && Grouped(groups, Rows(history.log), ports)
      && Remembering(freed, history, ports)
    }

    constructor (ports: Ports)
      ensures Valid() && history == EMPTY && this.ports == ports && tx == rx == 0
    {
      this.ports := ports;
      active, firstSeen, finished, oldest, omitted := map[], map[], [], 0, 0;
      totals, groups, tx, rx, freed := EMPTY_TOTALS, map[], 0, 0, map[];
      history := EMPTY;
    }

    /** Takes the next event. */
    method Observe(e: Event)
      requires Valid()
      modifies this
      ensures Valid() && history == Step(old(history), e)
      ensures tx == old(tx) + Sent(e) && rx == old(rx) + Received(e)
    {
      hide Summarize, Rows, Ring, Grouped, TotalsOf, Remembers, WellFormed, LastLife, Following, Prepared;
      match e.kind {
        case Send => tx := tx + e.bytes;
        case Receive => rx := rx + e.bytes;
        case _ =>
      }
      if e.socket == 0 {
        return;
      }
      if e.socket in freed && e.socket !in active && e.kind == SendReset {
        AddLateReset(e.socket);
        return;
      }
      ObserveOpen(e);
    }

    /** An event that is not a late reset. */
    method ObserveOpen(e: Event)
      requires Valid() && e.socket != 0 && !(e.socket in freed && e.socket !in active && e.kind == SendReset)
      modifies `active, `firstSeen, `finished, `oldest, `omitted, `totals, `groups, `freed, `history
      ensures Valid() && history == Step(old(history), e)
    {
      hide Summarize, Rows, Ring, Grouped, TotalsOf, Remembers, WellFormed, LastLife, Following, Prepared;
      FollowsOpen(active, firstSeen, history, e.socket);
      FreedNotOpen(history, e.socket);
      Prepare(e);
      Follow(e);
      FollowsOpen(active, firstSeen, history, e.socket);
      if e.kind == Destroy {
        var f, counted := Finish(e.socket);
        if counted {
          FreedNotOpen(history, e.socket);
          Keep(e.socket, f);
        }
      }
    }

    /** Lets go of a freed socket that is used again, and ends a closed life when a connection starts on its
        socket: tcp_destroy may have been missed. */
    method Prepare(e: Event)
      requires Valid()
      modifies `active, `firstSeen, `finished, `oldest, `omitted, `totals, `groups, `freed, `history
      ensures Valid() && history == Prepared(old(history), e) && e.socket !in history.freed
    {
      hide Summarize, Rows, Ring, Following, Grouped, TotalsOf, Remembers, LastLife, WellFormed;
      FollowsOpen(active, firstSeen, history, e.socket);
      FreedNotOpen(history, e.socket);
      if e.socket in freed && e.socket !in active {
        Forget(e.socket);
      } else {
        assert history == history.(freed := history.freed - {e.socket});
      }
      if e.socket in active && active[e.socket].closed && Starts(e) {
        ClosedIs(history.open[e.socket]);
        var _, _ := Finish(e.socket);
      } else if e.socket in active {
        ClosedIs(history.open[e.socket]);
      }
    }

    method Forget(socket: nat)
      requires Valid()
      modifies `freed, `history
      ensures Valid() && history == old(history).(freed := old(history).freed - {socket})
    {
      hide Following, Ring, Grouped, Remembering, WellFormed, TotalsOf, Rows;
      RemembersForgotten(freed, history, socket, ports);
      ForgetWellFormed(history, socket);
      freed := freed - {socket};
      history := history.(freed := history.freed - {socket});
    }

    method Follow(e: Event)
      requires Valid() && e.socket !in history.freed
      modifies `active, `firstSeen, `history
      ensures Valid() && history == Extend(old(history), e)
    {
      hide Following, Ring, Grouped, Remembers, WellFormed, TotalsOf, Rows, Summarize;
      ghost var life := if e.socket in history.open then history.open[e.socket] else [];
      FollowsOpen(active, firstSeen, history, e.socket);
      var c, first := BLANK, e.time;
      if e.socket in active {
        c, first := active[e.socket], firstSeen[e.socket];
      } else {
        BlankIsEmptyLife();
      }
      c := Observed(c, e, first, life);
      FollowsExtended(active, firstSeen, history, e, c);
      ExtendWellFormed(history, e);
      active, firstSeen := active[e.socket := c], firstSeen[e.socket := first];
      history := Extend(history, e);
    }

    /** Adds an RST sent after the socket was freed, once, wherever its connection is still shown. */
    method AddLateReset(socket: nat)
      requires Valid() && socket in freed
      modifies `finished, `totals, `groups, `freed, `history
      ensures Valid() && history == MarkLate(old(history), socket)
    {
      hide Following, Ring, Grouped, TotalsOf, Rows, Row, Summarize, KeyOf, Remembering, LastLife;
      RememberedAt(freed, history, ports, socket);
      ghost var rows, c := Rows(history.log), history.freed[socket];
      RowsMark(history.log, c);
      MarkWellFormed(history, socket);
      RemembersMarked(freed, history, ports, socket);
      var f := freed[socket];
      history := MarkLate(history, socket);
      if f.reset {
        MarkedAlready(rows, c);
        assert freed[socket := f.(reset := true)] == freed;
        return;
      }
      freed := freed[socket := f.(reset := true)];
      CountReset(f, rows, c);
    }

    method CountReset(f: Freed, ghost rows: seq<Connection>, ghost c: nat)
      requires c < |rows| && !rows[c].reset && Remembers(f, rows, c, ports)
      requires Ring(finished, oldest, omitted, rows) && totals == TotalsOf(rows) && Grouped(groups, rows, ports)
      modifies `finished, `totals, `groups
      ensures var marked := rows[c := rows[c].(reset := true)];
              Ring(finished, oldest, omitted, marked) && totals == TotalsOf(marked) && Grouped(groups, marked, ports)
    {
      hide Ring, Grouped, TotalsOf, KeyOf;
      TotalsMark(rows, c);
      GroupedMark(groups, rows, ports, c, f.group);
      RingMark(finished, oldest, omitted, rows, c);
      totals := totals.(resets := totals.resets + 1);
      groups := groups[f.group := groups[f.group].(resets := groups[f.group].resets + 1)];
      if |finished| + omitted - f.count < ROW_LIMIT {
        finished := finished[f.slot := finished[f.slot].(reset := true)];
      }
    }

    /** Ends an open connection; a counted one goes into the totals, its group and the last rows. */
    method Finish(socket: nat) returns (f: Freed, counted: bool)
      requires Valid() && socket in active
      modifies `active, `firstSeen, `finished, `oldest, `omitted, `totals, `groups, `history
      ensures Valid() && history == End(old(history), socket)
      ensures counted <==> |history.log| > |old(history).log|
      ensures counted ==> Remembers(f, Rows(history.log), |history.log| - 1, ports)
    {
      hide Following, Grouped, Remembering, WellFormed, TotalsOf, Rows, Row, Summarize, KeyOf, End;
      FollowsOpen(active, firstSeen, history, socket);
      EndWellFormed(history, socket);
      FollowsEnded(active, firstSeen, history, socket);
      RemembersEnded(freed, history, socket, ports);
      var c := active[socket];
      RowsEnded(history, socket, c);
      ghost var rows := Rows(history.log);
      active, firstSeen := active - {socket}, firstSeen - {socket};
      history := End(history, socket);
      if !c.Counted() {
        f, counted := Freed(KeyOf(ports, c), 0, 0, false), false;
        return;
      }
      counted := true;
      c := c.(outcome := c.Result());
      totals := AddTotals(totals, c, rows);
      var key;
      groups, key := AddGroup(groups, c, ports, rows);
      f := Push(c, key, rows);
    }

    method Push(c: Connection, key: GroupKey, ghost rows: seq<Connection>) returns (f: Freed)
      requires Ring(finished, oldest, omitted, rows)
      modifies `finished, `oldest, `omitted
      ensures Ring(finished, oldest, omitted, rows + [c])
      ensures f == Freed(key, |rows| % ROW_LIMIT, |rows| + 1, c.reset)
    {
      f := Freed(key, oldest, 0, c.reset);
      if |finished| < ROW_LIMIT {
        RingGrow(finished, oldest, omitted, rows, c);
        f := f.(slot := |finished|);
        finished := finished + [c];
      } else {
        RingReplace(finished, oldest, omitted, rows, c);
        finished := finished[oldest := c];
        oldest := (oldest + 1) % ROW_LIMIT;
        omitted := omitted + 1;
      }
      f := f.(count := |finished| + omitted);
    }

    method Keep(socket: nat, f: Freed)
      requires Valid() && socket !in history.open && socket !in history.freed
      requires history.log != [] && history.log[|history.log| - 1].socket == socket
      requires Remembers(f, Rows(history.log), |history.log| - 1, ports)
      modifies `freed, `history
      ensures Valid() && history == Remember(old(history), socket)
    {
      hide Following, Ring, Grouped, Remembering, Remembers, TotalsOf, Rows, WellFormed;
      RememberWellFormed(history, socket);
      RemembersKept(freed, history, socket, f, ports);
      history := Remember(history, socket);
      if |freed| >= FREED_LIMIT {
        freed := map[];
      }
      freed := freed[socket := f];
    }

    /** The totals, groups and rows with the open connections added, leaving the summarizer as it is. The rows
        come in no particular order; sockets lists the open sockets whose connections count, in the order taken. */
    method Report() returns (sum: Totals, all: map<GroupKey, Group>, rows: seq<Connection>, left: nat,
                             ghost sockets: seq<nat>)
      requires Valid()
      ensures left == omitted && rows == finished + OpenRows(history, sockets)
      ensures Lists(sockets, history.open.Keys, history)
      ensures sum == TotalsOf(Rows(history.log) + OpenRows(history, sockets))
      ensures Grouped(all, Rows(history.log) + OpenRows(history, sockets), ports)
    {
      hide Following, Grouped, TotalsOf, Rows, Summarize, Remembering, WellFormed, Ring;
      sum, all, rows, left := totals, groups, finished, omitted;
      var rest := active.Keys;
      ghost var base, h, taken := Rows(history.log), history, {};
      sockets := [];
      assert base + OpenRows(h, []) == base;
      assert finished + OpenRows(h, []) == finished;
      while rest != {}
        invariant rest !! taken && rest + taken == active.Keys
        invariant Lists(sockets, taken, h) && taken <= h.open.Keys
        invariant rows == finished + OpenRows(h, sockets)
        invariant sum == TotalsOf(base + OpenRows(h, sockets))
        invariant Grouped(all, base + OpenRows(h, sockets), ports)
      {
        var socket :| socket in rest;
        rest := rest - {socket};
        FollowsOpen(active, firstSeen, history, socket);
        ListsMore(sockets, taken, h, socket);
        taken := taken + {socket};
        var c := active[socket];
        if c.Counted() {
          c := c.(outcome := c.Result());
          assert OpenRows(h, sockets + [socket]) == OpenRows(h, sockets) + [c];
          assert base + OpenRows(h, sockets + [socket]) == base + OpenRows(h, sockets) + [c];
          assert finished + OpenRows(h, sockets + [socket]) == finished + OpenRows(h, sockets) + [c];
          sum := AddTotals(sum, c, base + OpenRows(h, sockets));
          var key;
          all, key := AddGroup(all, c, ports, base + OpenRows(h, sockets));
          rows := rows + [c];
          sockets := sockets + [socket];
        }
      }
      FollowsKeys(active, firstSeen, history);
    }
  }

  /** A whole trace: the bounded summarizer ends up saying what the unbounded history of the events says. */
  method Trace(ports: Ports, events: seq<Event>) returns (s: Summarizer)
    ensures fresh(s) && s.Valid() && s.history == Run(events)
  {
    hide Step, Following, Ring, Grouped, Remembering, WellFormed, TotalsOf, Rows;
    s := new Summarizer(ports);
    assert events[..0] == [];
    for i := 0 to |events|
      invariant fresh(s) && s.Valid() && s.history == Run(events[..i])
    {
      assert events[..i + 1][..i] == events[..i];
      s.Observe(events[i]);
    }
    assert events[..|events|] == events;
  }

  ghost function OpenRow(h: History, socket: nat): Connection {
    if socket in h.open then Row(Finished(socket, h.open[socket], false)) else BLANK
  }

  ghost function OpenRows(h: History, sockets: seq<nat>): seq<Connection> {
    seq(|sockets|, i requires 0 <= i < |sockets| => OpenRow(h, sockets[i]))
  }

  /** sockets lists, once each, those members of among whose open connections count. */
  ghost predicate Lists(sockets: seq<nat>, among: set<nat>, h: History) {
    && (forall s :: s in sockets <==> s in among && s in h.open && CountedLife(h.open[s]))
    && forall i, j :: 0 <= i < j < |sockets| ==> sockets[i] != sockets[j]
  }

  lemma ListsMore(sockets: seq<nat>, among: set<nat>, h: History, socket: nat)
    requires Lists(sockets, among, h) && socket in h.open && socket !in among
    ensures Lists(if CountedLife(h.open[socket]) then sockets + [socket] else sockets, among + {socket}, h)
  {
    hide CountedLife;
  }

  lemma FollowsKeys(active: map<nat, Connection>, firstSeen: map<nat, nat>, h: History)
    requires Following(active, firstSeen, h.open)
    ensures active.Keys == h.open.Keys
  {
  }

  /** What a report lists and leaves out adds up to what it counts. */
  lemma ReportBalances(finished: seq<Connection>, oldest: nat, omitted: nat, h: History, sockets: seq<nat>, sum: Totals)
    requires Ring(finished, oldest, omitted, Rows(h.log))
    requires sum == TotalsOf(Rows(h.log) + OpenRows(h, sockets))
    ensures |finished + OpenRows(h, sockets)| + omitted == sum.attempts + sum.existing
    ensures sum.attempts == sum.established + sum.incomplete
  {
    TotalsBalance(Rows(h.log) + OpenRows(h, sockets));
  }
}
