// The unbounded reading of a TCP trace: every finished socket life is kept for ever, and totals, grouped
// rows and the rows still on display are all read off that one log.
module TcpHistory {
  import opened Folds
  import opened TcpLives

  /** The most freed sockets remembered at once (tcpTraceFinishedSocketLimit). */
  const FREED_LIMIT: nat := 65536

  /** A finished life; lateReset says that an RST was sent for it after its socket was freed. */
  datatype Finished = Finished(socket: nat, life: seq<Event>, lateReset: bool)

  /** freed maps a freed socket, not yet reused, to the log entry of its last life. */
  datatype History = History(open: map<nat, seq<Event>>, log: seq<Finished>, freed: map<nat, nat>)

  const EMPTY := History(map[], [], map[])

  /** The row of a finished life: classified when it finished, marked when it or a late RST reset it. */
  ghost function Row(f: Finished): Connection {
    var c := Summarize(f.life);
    c.(outcome := c.Result(), reset := c.reset || f.lateReset)
  }

  ghost function Rows(log: seq<Finished>): seq<Connection> {
    seq(|log|, i requires 0 <= i < |log| => Row(log[i]))
  }

  ghost predicate CountedLife(life: seq<Event>) {
    Summarize(life).Counted()
  }

  ghost predicate ClosedLife(life: seq<Event>) {
    Any(life, Closes)
  }

  /** Ends the open life of a socket. */
  ghost function End(h: History, socket: nat): History
    requires socket in h.open
  {
    h.(open := h.open - {socket},
       log := if CountedLife(h.open[socket]) then h.log + [Finished(socket, h.open[socket], false)] else h.log)
  }

  /** Adds an event to the socket's open life, opening one if there is none. */
  ghost function Extend(h: History, e: Event): History {
    h.(open := h.open[e.socket := (if e.socket in h.open then h.open[e.socket] else []) + [e]])
  }

  /** Remembers the socket of the life that just ended; a full memory is emptied first. */
  ghost function Remember(h: History, socket: nat): History
    requires h.log != []
  {
    h.(freed := (if |h.freed| >= FREED_LIMIT then map[] else h.freed)[socket := |h.log| - 1])
  }

  ghost predicate IsLateReset(h: History, e: Event) {
    e.socket in h.freed && e.kind == SendReset
  }

  ghost function MarkLate(h: History, socket: nat): History
    requires WellFormed(h) && socket in h.freed
  {
    assert LastLife(h, socket);
    var c := h.freed[socket];
    h.(log := h.log[c := h.log[c].(lateReset := true)])
  }

  /** The history in which e belongs to a life: a reused socket is no longer a freed one, and an event that
      starts a connection on a closed life begins another. */
  ghost function Prepared(h: History, e: Event): History {
    var h1 := h.(freed := h.freed - {e.socket});
    if e.socket in h1.open && ClosedLife(h1.open[e.socket]) && Starts(e) then End(h1, e.socket) else h1
  }

  /** Ends a life on tcp_destroy: a counted one leaves its socket behind for a late RST. */
  ghost function Destroyed(h: History, socket: nat): History
    requires socket in h.open
  {
    var h1 := End(h, socket);
    if |h1.log| > |h.log| then Remember(h1, socket) else h1
  }

  ghost function Step(h: History, e: Event): History
    requires WellFormed(h)
  {
    if e.socket == 0 then h
    else if IsLateReset(h, e) then MarkLate(h, e.socket)
    else
      var h2 := Extend(Prepared(h, e), e);
      if e.kind == Destroy then Destroyed(h2, e.socket) else h2
  }

  /** The log entry a freed socket points at is that socket's last life. */
  ghost predicate LastLife(h: History, socket: nat)
    requires socket in h.freed
  {
    && h.freed[socket] < |h.log|
    && h.log[h.freed[socket]].socket == socket
    && forall c :: h.freed[socket] < c < |h.log| ==> h.log[c].socket != socket
  }

  /** A socket is never both open and freed. */
  ghost predicate WellFormed(h: History) {
    && (forall s :: s in h.open ==> h.open[s] != [])
    && (forall s :: s in h.freed ==> LastLife(h, s))
    && h.open.Keys !! h.freed.Keys
  }

  lemma ForgetWellFormed(h: History, socket: nat)
    requires WellFormed(h)
    ensures WellFormed(h.(freed := h.freed - {socket}))
  {
    hide LastLife;
    forall s | s in h.freed - {socket}
      ensures LastLife(h.(freed := h.freed - {socket}), s)
    {
      LastLifeAnyway(h, h.(freed := h.freed - {socket}), s);
    }
  }

  lemma LastLifeAnyway(h: History, g: History, socket: nat)
    requires socket in h.freed && socket in g.freed && g.freed[socket] == h.freed[socket] && g.log == h.log
    ensures LastLife(g, socket) <==> LastLife(h, socket)
  {
  }

  lemma PreparedWellFormed(h: History, e: Event)
    requires WellFormed(h)
    ensures WellFormed(Prepared(h, e)) && e.socket !in Prepared(h, e).freed
    ensures h.log <= Prepared(h, e).log
  {
    hide WellFormed, ClosedLife, CountedLife;
    ForgetWellFormed(h, e.socket);
    var h1 := h.(freed := h.freed - {e.socket});
    if e.socket in h1.open {
      EndWellFormed(h1, e.socket);
    }
  }

  lemma EndWellFormed(h: History, socket: nat)
    requires WellFormed(h) && socket in h.open
    ensures WellFormed(End(h, socket)) && h.log <= End(h, socket).log
  {
  }

  lemma ExtendWellFormed(h: History, e: Event)
    requires WellFormed(h) && e.socket !in h.freed
    ensures WellFormed(Extend(h, e))
  {
    var h2 := Extend(h, e);
    forall s | s in h2.freed
      ensures LastLife(h2, s)
    {
      assert LastLife(h, s);
    }
  }

  lemma MarkWellFormed(h: History, socket: nat)
    requires WellFormed(h) && socket in h.freed
    ensures WellFormed(MarkLate(h, socket))
  {
    var h2 := MarkLate(h, socket);
    forall s | s in h2.freed
      ensures LastLife(h2, s)
    {
      assert LastLife(h, s);
    }
  }

  lemma RememberWellFormed(h: History, socket: nat)
    requires WellFormed(h) && socket !in h.open && socket !in h.freed
    requires h.log != [] && h.log[|h.log| - 1].socket == socket
    ensures WellFormed(Remember(h, socket))
  {
    var h2 := Remember(h, socket);
    forall s | s in h2.freed
      ensures LastLife(h2, s)
    {
      if s != socket {
        assert LastLife(h, s);
      }
    }
  }

  lemma DestroyedWellFormed(h: History, socket: nat)
    requires WellFormed(h) && socket in h.open
    ensures WellFormed(Destroyed(h, socket)) && h.log <= Destroyed(h, socket).log
  {
    EndWellFormed(h, socket);
    if |End(h, socket).log| > |h.log| {
      RememberWellFormed(End(h, socket), socket);
    }
  }

  lemma StepWellFormed(h: History, e: Event)
    requires WellFormed(h)
    ensures WellFormed(Step(h, e))
    ensures |h.log| <= |Step(h, e).log|
  {
    if e.socket == 0 {
    } else if IsLateReset(h, e) {
      MarkWellFormed(h, e.socket);
    } else {
      PreparedWellFormed(h, e);
      ExtendWellFormed(Prepared(h, e), e);
      if e.kind == Destroy {
        DestroyedWellFormed(Extend(Prepared(h, e), e), e.socket);
      }
    }
  }

  ghost function Run(events: seq<Event>): (h: History)
    ensures WellFormed(h)
  {
    if events == [] then EMPTY else
    var h := Run(events[..|events| - 1]);
    StepWellFormed(h, events[|events| - 1]);
    Step(h, events[|events| - 1])
  }

  lemma RowsSnoc(log: seq<Finished>, f: Finished)
    ensures Rows(log + [f]) == Rows(log) + [Row(f)]
  {
  }

  lemma RowsMark(log: seq<Finished>, c: nat)
    requires c < |log|
    ensures Rows(log[c := log[c].(lateReset := true)]) == Rows(log)[c := Rows(log)[c].(reset := true)]
  {
  }

  /** An RST sent on a socket that is not open marks the socket's last life, and that row only, exactly while the
      socket is remembered; forgotten, it opens a new life instead and no row changes. */
  lemma LateResetExactly(h: History, e: Event)
    requires WellFormed(h) && e.socket != 0 && e.socket !in h.open && e.kind == SendReset
    ensures var g := Step(h, e);
            if e.socket in h.freed then
              var c := h.freed[e.socket];
              && c < |h.log| && h.log[c].socket == e.socket
              && (forall d :: c < d < |h.log| ==> h.log[d].socket != e.socket)
              && Rows(g.log) == Rows(h.log)[c := Rows(h.log)[c].(reset := true)]
              && g.open == h.open && g.freed == h.freed
            else
              g.log == h.log && g.open == h.open[e.socket := [e]]
  {
    hide Summarize;
    if e.socket in h.freed {
      assert LastLife(h, e.socket);
      RowsMark(h.log, h.freed[e.socket]);
    } else {
      assert h.freed - {e.socket} == h.freed;
      assert [] + [e] == [e];
    }
  }

  /** A second late RST of the same life changes no row. */
  lemma LateResetOnce(h: History, e: Event, again: Event)
    requires WellFormed(h) && e.socket != 0 && e.socket in h.freed
    requires e.kind == SendReset && again.kind == SendReset && again.socket == e.socket
    ensures Rows(Step(Step(h, e), again).log) == Rows(Step(h, e).log)
  {
    hide Summarize, Row;
    assert LastLife(h, e.socket);
    StepWellFormed(h, e);
    LateResetExactly(h, e);
    LateResetExactly(Step(h, e), again);
    var c, rows := h.freed[e.socket], Rows(h.log);
    var marked := rows[c := rows[c].(reset := true)];
    assert marked[c := marked[c].(reset := true)] == marked;
  }
}
