// Interleaving does not matter: each socket's connections come out as if that socket's events had been summarized
// alone, exactly as long as no tcp_destroy finds the memory of freed sockets full and empties it.
module TcpProjection {
  import opened Folds
  import opened TcpLives
  import opened TcpHistory
  import opened TcpRows
  import opened TcpTrace

  const BySocket: Finished -> nat := (f: Finished) => f.socket
  const ByEventSocket: Event -> nat := (e: Event) => e.socket

  ghost function Lives(log: seq<Finished>, s: nat): seq<Finished> {
    Filter(log, Member(BySocket, s))
  }

  ghost function On(events: seq<Event>, s: nat): seq<Event> {
    Filter(events, Member(ByEventSocket, s))
  }

  ghost function Sockets(events: seq<Event>): set<nat> {
    set i | 0 <= i < |events| :: events[i].socket
  }

  /** h and g agree on everything that concerns socket s. */
  ghost predicate Same(h: History, g: History, s: nat) {
    && (s in h.open <==> s in g.open)
    && (s in h.open ==> h.open[s] == g.open[s])
    && (s in h.freed <==> s in g.freed)
    && Lives(h.log, s) == Lives(g.log, s)
  }

  /** Whether ending the open life of s by tcp_destroy empties the memory of freed sockets: the life counts, and the
      memory is full. */
  ghost predicate Empties(h: History, s: nat)
    requires s in h.open
  {
    CountedLife(h.open[s]) && |h.freed| >= FREED_LIMIT
  }

  /** Whether the event is a tcp_destroy that empties the memory of freed sockets. */
  ghost predicate Clears(h: History, e: Event) {
    e.socket != 0 && !IsLateReset(h, e) && e.kind == Destroy && Empties(Extend(Prepared(h, e), e), e.socket)
  }

  /** No event so far emptied the memory of freed sockets. */
  ghost predicate Kept(events: seq<Event>) {
    events != [] ==>
      var n := |events| - 1;
      Kept(events[..n]) && !Clears(Run(events[..n]), events[n])
  }

  lemma LivesSnoc(log: seq<Finished>, f: Finished, s: nat)
    ensures Lives(log + [f], s) == Lives(log, s) + if f.socket == s then [f] else []
  {
    FilterSnoc(log, f, Member(BySocket, s));
  }

  /** Changing a log entry without moving it to another socket leaves the other sockets' lives alone. */
  lemma {:induction false} LivesElsewhere(log: seq<Finished>, c: nat, f: Finished, s: nat)
    requires c < |log| && log[c].socket == f.socket != s
    ensures Lives(log[c := f], s) == Lives(log, s)
  {
    var n := |log| - 1;
    if c == n {
      assert log[c := f][..n] == log[..n];
    } else {
      assert log[c := f][..n] == log[..n][c := f];
      LivesElsewhere(log[..n], c, f, s);
    }
  }

  /** A socket's last life is the last entry of its own lives. */
  lemma {:induction false} LivesLast(log: seq<Finished>, c: nat, f: Finished, s: nat)
    requires c < |log| && log[c].socket == f.socket == s
    requires forall d :: c < d < |log| ==> log[d].socket != s
    ensures var own := Lives(log, s);
            own != [] && own[|own| - 1] == log[c] && Lives(log[c := f], s) == own[..|own| - 1] + [f]
  {
    var n := |log| - 1;
    assert log == log[..n] + [log[n]];
    LivesSnoc(log[..n], log[n], s);
    if c == n {
      assert log[c := f] == log[..n] + [f];
      LivesSnoc(log[..n], f, s);
    } else {
      assert log[c := f] == log[..n][c := f] + [log[n]];
      LivesSnoc(log[..n][c := f], log[n], s);
      LivesLast(log[..n], c, f, s);
    }
  }

  lemma MarkSame(h: History, g: History, s: nat)
    requires WellFormed(h) && WellFormed(g) && s in h.freed && Same(h, g, s)
    ensures Same(MarkLate(h, s), MarkLate(g, s), s)
  {
    assert LastLife(h, s) && LastLife(g, s);
    var c, d := h.freed[s], g.freed[s];
    LivesLast(h.log, c, h.log[c].(lateReset := true), s);
    LivesLast(g.log, d, g.log[d].(lateReset := true), s);
  }

  lemma EndSame(h: History, g: History, s: nat)
    requires s in h.open && Same(h, g, s)
    ensures Same(End(h, s), End(g, s), s)
    ensures |End(h, s).log| > |h.log| <==> |End(g, s).log| > |g.log|
    ensures End(h, s).freed == h.freed && End(g, s).freed == g.freed
  {
    hide CountedLife;
    LivesSnoc(h.log, Finished(s, h.open[s], false), s);
    LivesSnoc(g.log, Finished(s, h.open[s], false), s);
  }

  lemma EndElsewhere(h: History, t: nat, s: nat)
    requires t in h.open && t != s
    ensures Same(h, End(h, t), s)
  {
    hide CountedLife;
    LivesSnoc(h.log, Finished(t, h.open[t], false), s);
  }

  lemma DestroyedSame(h: History, g: History, s: nat)
    requires s in h.open && Same(h, g, s) && !Empties(h, s) && !Empties(g, s)
    ensures Same(Destroyed(h, s), Destroyed(g, s), s)
  {
    EndSame(h, g, s);
  }

  lemma PreparedSame(h: History, g: History, e: Event)
    requires Same(h, g, e.socket)
    ensures Same(Prepared(h, e), Prepared(g, e), e.socket)
    ensures Prepared(h, e).freed == h.freed - {e.socket} && Prepared(g, e).freed == g.freed - {e.socket}
  {
    hide ClosedLife, End, Lives;
    var h1, g1 := h.(freed := h.freed - {e.socket}), g.(freed := g.freed - {e.socket});
    assert Same(h1, g1, e.socket);
    if e.socket in h1.open {
      EndSame(h1, g1, e.socket);
    }
  }

  /** The same event moves agreeing histories to agreeing histories. */
  lemma StepSame(h: History, g: History, e: Event)
    requires WellFormed(h) && WellFormed(g) && Same(h, g, e.socket)
    requires !Clears(h, e) && !Clears(g, e)
    ensures Same(Step(h, e), Step(g, e), e.socket)
  {
    hide CountedLife, ClosedLife, Lives, Prepared, Extend, Destroyed, MarkLate, Empties, Same, WellFormed;
    if e.socket != 0 {
      FreedAlike(h, g, e.socket);
      if IsLateReset(h, e) {
        MarkSame(h, g, e.socket);
      } else {
        PreparedSame(h, g, e);
        ExtendSame(Prepared(h, e), Prepared(g, e), e);
        if e.kind == Destroy {
          DestroyedSame(Extend(Prepared(h, e), e), Extend(Prepared(g, e), e), e.socket);
        }
      }
    }
  }

  lemma ExtendSame(h: History, g: History, e: Event)
    requires Same(h, g, e.socket)
    ensures Same(Extend(h, e), Extend(g, e), e.socket)
    ensures Extend(h, e).freed == h.freed && Extend(g, e).freed == g.freed && e.socket in Extend(h, e).open
  {
    hide Lives;
  }

  lemma MarkElsewhere(h: History, t: nat, s: nat)
    requires WellFormed(h) && t in h.freed && t != s
    ensures Same(h, MarkLate(h, t), s)
  {
    assert LastLife(h, t);
    var c := h.freed[t];
    LivesElsewhere(h.log, c, h.log[c].(lateReset := true), s);
  }

  lemma PreparedElsewhere(h: History, e: Event, s: nat)
    requires e.socket != s
    ensures Same(h, Prepared(h, e), s)
  {
    hide ClosedLife, End, Lives;
    var h1 := h.(freed := h.freed - {e.socket});
    if e.socket in h1.open {
      EndElsewhere(h1, e.socket, s);
    }
  }

  lemma DestroyedElsewhere(h: History, t: nat, s: nat)
    requires t in h.open && t != s && !Empties(h, t)
    ensures Same(h, Destroyed(h, t), s)
  {
    hide CountedLife, Lives;
    EndElsewhere(h, t, s);
  }

  /** An event of another socket changes nothing for s. */
  lemma StepElsewhere(h: History, e: Event, s: nat)
    requires WellFormed(h) && e.socket != s && !Clears(h, e)
    ensures Same(h, Step(h, e), s)
  {
    hide CountedLife, ClosedLife, Lives, End, Destroyed, MarkLate, WellFormed, Empties;
    if e.socket != 0 {
      if IsLateReset(h, e) {
        MarkElsewhere(h, e.socket, s);
      } else {
        PreparedElsewhere(h, e, s);
        var h2 := Extend(Prepared(h, e), e);
        if e.kind == Destroy {
          DestroyedElsewhere(h2, e.socket, s);
        }
      }
    }
  }

  /** Everything a history holds concerns sockets seen in its events. */
  ghost predicate Within(h: History, ks: set<nat>) {
    && h.open.Keys <= ks && h.freed.Keys <= ks
    && forall i :: 0 <= i < |h.log| ==> h.log[i].socket in ks
  }

  lemma StepWithin(h: History, e: Event, ks: set<nat>)
    requires WellFormed(h) && Within(h, ks)
    ensures Within(Step(h, e), ks + {e.socket})
  {
    hide CountedLife, ClosedLife, WellFormed, MarkLate, Prepared, End, Extend;
    if e.socket == 0 {
    } else if IsLateReset(h, e) {
      MarkWithin(h, e.socket, ks);
    } else {
      ExtendWithin(h, e, ks);
      var h2 := Extend(Prepared(h, e), e);
      if e.kind == Destroy {
        EndWithin(h2, e.socket, ks + {e.socket});
      }
    }
  }

  lemma ExtendWithin(h: History, e: Event, ks: set<nat>)
    requires Within(h, ks)
    ensures Within(Extend(Prepared(h, e), e), ks + {e.socket})
    ensures e.socket in Extend(Prepared(h, e), e).open
  {
    hide ClosedLife, End;
    var h1 := h.(freed := h.freed - {e.socket});
    if e.socket in h1.open {
      EndWithin(h1, e.socket, ks);
    }
  }

  lemma MarkWithin(h: History, s: nat, ks: set<nat>)
    requires WellFormed(h) && s in h.freed && Within(h, ks)
    ensures Within(MarkLate(h, s), ks)
  {
    assert LastLife(h, s);
  }

  lemma EndWithin(h: History, s: nat, ks: set<nat>)
    requires s in h.open && Within(h, ks)
    ensures Within(End(h, s), ks)
  {
    hide CountedLife;
  }

  lemma NothingWithin()
    ensures Within(EMPTY, Sockets([]))
  {
  }

  lemma {:induction false} RunWithin(events: seq<Event>)
    ensures Within(Run(events), Sockets(events))
  {
    hide Step, Sockets, Within, WellFormed;
    if events == [] {
      NothingWithin();
    } else {
      var n := |events| - 1;
      RunWithin(events[..n]);
      StepWithin(Run(events[..n]), events[n], Sockets(events[..n]));
      assert Sockets(events) == Sockets(events[..n]) + {events[n].socket} by {
        SocketsSnoc(events[..n], events[n]);
        assert events == events[..n] + [events[n]];
      }
    }
  }

  lemma SocketsSnoc(events: seq<Event>, e: Event)
    ensures Sockets(events + [e]) == Sockets(events) + {e.socket}
  {
    var more := events + [e];
    assert more[|events|] == e;
    forall i | 0 <= i < |events| ensures events[i].socket in Sockets(more) {
      assert more[i] == events[i];
    }
  }

  /** A socket's own events never fill the memory. */
  lemma AloneKeeps(events: seq<Event>, e: Event)
    ensures !Clears(Run(On(events, e.socket)), e)
  {
    hide Run, On, CountedLife, Sockets, Extend;
    var s := e.socket;
    var g := Run(On(events, s));
    RunWithin(On(events, s));
    OnlyOwn(events, s);
    ExtendOpens(Prepared(g, e), e);
    PreparedFrees(g, e);
    assert (g.freed - {s}).Keys == {};
    assert g.freed - {s} == map[];
  }

  lemma ExtendOpens(h: History, e: Event)
    ensures e.socket in Extend(h, e).open && Extend(h, e).freed == h.freed
  {
  }

  lemma PreparedFrees(h: History, e: Event)
    ensures Prepared(h, e).freed == h.freed - {e.socket}
  {
    hide ClosedLife, CountedLife;
  }

  /** As long as no event emptied the memory, s is as if only its own events had been seen. */
  lemma {:induction false} RunProjects(events: seq<Event>, s: nat)
    requires Kept(events)
    ensures Same(Run(events), Run(On(events, s)), s)
  {
    hide Same, Step, WellFormed, Sockets, Clears;
    if events == [] {
      SameAsItself(Run(events), s);
    } else {
      var n := |events| - 1;
      var before, e := events[..n], events[n];
      assert events == before + [e];
      RunProjects(before, s);
      var h, g := Run(before), Run(On(before, s));
      FilterSnoc(before, e, Member(ByEventSocket, s));
      if e.socket == s {
        AloneKeeps(before, e);
        StepSame(h, g, e);
        assert (On(before, s) + [e])[..|On(before, s)|] == On(before, s);
      } else {
        StepElsewhere(h, e, s);
        assert On(events, s) == On(before, s);
        SameThrough(h, Step(h, e), g, s);
      }
    }
  }

  /** Emptying the memory takes a late reset away from some other socket: its own events would still remember it. */
  lemma ClearsLoses(events: seq<Event>, e: Event) returns (s: nat)
    requires Kept(events) && Clears(Run(events), e)
    ensures !Same(Run(events + [e]), Run(On(events + [e], s)), s)
  {
    hide Run, On, Kept, Same, CountedLife, WellFormed;
    var h := Run(events);
    ExtendOpens(Prepared(h, e), e);
    PreparedFrees(h, e);
    s := OtherFreed(h.freed, e.socket);
    RunProjects(events, s);
    FreedAlike(h, Run(On(events, s)), s);
    RunSnoc(events, e);
    FilterSnoc(events, e, Member(ByEventSocket, s));
    OnElsewhere(events, e, s);
    ClearsForgets(h, e);
    if Same(Run(events + [e]), Run(On(events + [e], s)), s) {
      FreedAlike(Run(events + [e]), Run(On(events + [e], s)), s);
      assert false;
    }
  }

  lemma OtherFreed(freed: map<nat, nat>, t: nat) returns (s: nat)
    requires |freed - {t}| > 0
    ensures s in freed && s != t
  {
    var others := freed - {t};
    assert others != map[];
    s :| s in others;
  }

  lemma FreedAlike(h: History, g: History, s: nat)
    requires Same(h, g, s)
    ensures s in h.freed <==> s in g.freed
  {
  }

  lemma OnElsewhere(events: seq<Event>, e: Event, s: nat)
    requires e.socket != s
    ensures On(events + [e], s) == On(events, s)
  {
    FilterSnoc(events, e, Member(ByEventSocket, s));
  }

  lemma RunSnoc(events: seq<Event>, e: Event)
    ensures Run(events + [e]) == Step(Run(events), e)
  {
    hide Step, WellFormed;
    assert (events + [e])[..|events|] == events;
  }

  lemma ClearsForgets(h: History, e: Event)
    requires WellFormed(h) && Clears(h, e)
    ensures Step(h, e).freed.Keys == {e.socket}
  {
    hide CountedLife, ClosedLife, Prepared, WellFormed, Extend;
    ExtendOpens(Prepared(h, e), e);
  }

  /** The events of a trace can be taken socket by socket, at every moment of it, if and only if no event emptied the
      memory of freed sockets. */
  lemma {:induction false} ProjectsExactly(events: seq<Event>)
    ensures Kept(events) <==>
            forall n: nat, s: nat :: n <= |events| ==> Same(Run(events[..n]), Run(On(events[..n], s)), s)
  {
    hide Same, Run, On, Clears;
    forall n: nat, s: nat | Kept(events) && n <= |events|
      ensures Same(Run(events[..n]), Run(On(events[..n], s)), s)
    {
      KeptBefore(events, n);
      RunProjects(events[..n], s);
    }
    if !Kept(events) {
      var n, s := LosesSomewhere(events);
    }
  }

  /** A trace of at most FREED_LIMIT sockets empties nothing. */
  lemma {:induction false} FewSocketsKept(events: seq<Event>)
    requires |Sockets(events)| <= FREED_LIMIT
    ensures Kept(events)
  {
    hide Run, Sockets, WellFormed, CountedLife;
    if events != [] {
      var n := |events| - 1;
      var before, e := events[..n], events[n];
      assert events == before + [e];
      SocketsSnoc(before, e);
      SubsetSize(Sockets(before), Sockets(events));
      FewSocketsKept(before);
      RunWithin(before);
      FewerFreed(Run(before), Sockets(events), e.socket);
      ExtendOpens(Prepared(Run(before), e), e);
      PreparedFrees(Run(before), e);
    }
  }

  lemma {:induction false} SubsetSize<T>(a: set<T>, b: set<T>)
    requires a <= b
    ensures |a| <= |b|
  {
    if a != {} {
      var x :| x in a;
      SubsetSize(a - {x}, b - {x});
    }
  }

  lemma FewerFreed(h: History, ks: set<nat>, s: nat)
    requires h.freed.Keys <= ks && s in ks && |ks| <= FREED_LIMIT
    ensures |h.freed - {s}| < FREED_LIMIT
  {
    var left := h.freed - {s};
    assert left.Keys <= ks - {s};
    assert |left.Keys| == |left|;
    SubsetSize(left.Keys, ks - {s});
  }

  lemma {:induction false} KeptBefore(events: seq<Event>, n: nat)
    requires Kept(events) && n <= |events|
    ensures Kept(events[..n])
  {
    hide Run, Clears;
    if n == |events| {
      assert events[..n] == events;
    } else {
      KeptBefore(events[..|events| - 1], n);
      assert events[..|events| - 1][..n] == events[..n];
    }
  }

  lemma {:induction false} LosesSomewhere(events: seq<Event>) returns (n: nat, s: nat)
    requires !Kept(events)
    ensures n <= |events| && !Same(Run(events[..n]), Run(On(events[..n], s)), s)
  {
    hide Run, On, Same, Clears;
    var last := |events| - 1;
    if Kept(events[..last]) {
      n := |events|;
      s := ClearsLoses(events[..last], events[last]);
      assert events[..n] == events[..last] + [events[last]];
    } else {
      n, s := LosesSomewhere(events[..last]);
      assert events[..last][..n] == events[..n];
    }
  }

  lemma SameAsItself(h: History, s: nat)
    ensures Same(h, h, s)
  {
  }

  lemma SameThrough(h: History, h2: History, g: History, s: nat)
    requires Same(h, g, s) && Same(h, h2, s)
    ensures Same(h2, g, s)
  {
    hide Lives;
  }

  lemma {:induction false} OnlyOwn(events: seq<Event>, s: nat)
    ensures Sockets(On(events, s)) <= {s}
  {
    if events != [] {
      var n := |events| - 1;
      OnlyOwn(events[..n], s);
      SocketsSnoc(On(events[..n], s), events[n]);
    }
  }

  ghost function OfRow(f: Connection -> nat): Finished -> nat {
    x => f(Row(x))
  }

  lemma {:induction false} SumRows(log: seq<Finished>, f: Connection -> nat)
    ensures Sum(Rows(log), f) == Sum(log, OfRow(f))
  {
    if log != [] {
      var n := |log| - 1;
      assert log == log[..n] + [log[n]];
      RowsSnoc(log[..n], log[n]);
      assert Rows(log)[..n] == Rows(log[..n]);
      SumRows(log[..n], f);
    }
  }

  lemma {:induction false} SumFilter<T>(s: seq<T>, p: T -> bool, f: T -> nat)
    ensures Sum(Filter(s, p), f) == Sum(s, Only(p, f))
  {
    if s != [] {
      var n := |s| - 1;
      SumFilter(s[..n], p, f);
      if p(s[n]) {
        SumSnoc(Filter(s[..n], p), s[n], f);
      } else {
        assert Filter(s, p) == Filter(s[..n], p);
      }
    }
  }

  lemma {:induction false} FilterAll<T>(s: seq<T>, p: T -> bool)
    requires forall i :: 0 <= i < |s| ==> p(s[i])
    ensures Filter(s, p) == s
  {
    if s != [] {
      FilterAll(s[..|s| - 1], p);
    }
  }

  /** What socket s alone contributes to a per-connection quantity. */
  ghost function Alone(events: seq<Event>, f: Connection -> nat): nat -> nat {
    s => Sum(Rows(Run(On(events, s)).log), f)
  }

  /** Any per-connection quantity of an interleaved trace is the sum over its sockets, each summarized alone. */
  lemma Projection(events: seq<Event>, f: Connection -> nat)
    requires Kept(events)
    ensures Sum(Rows(Run(events).log), f) == SumSet(Sockets(events), Alone(events, f))
  {
    var log := Run(events).log;
    RunWithin(events);
    SumRows(log, f);
    SumPartition(log, Sockets(events), BySocket, OfRow(f));
    forall s | s in Sockets(events)
      ensures PerClass(log, BySocket, OfRow(f))(s) == Alone(events, f)(s)
    {
      AloneIsOwn(events, s, f);
    }
    SumSetCong(Sockets(events), PerClass(log, BySocket, OfRow(f)), Alone(events, f));
  }

  lemma AloneIsOwn(events: seq<Event>, s: nat, f: Connection -> nat)
    requires Kept(events)
    ensures Sum(Run(events).log, Only(Member(BySocket, s), OfRow(f))) == Alone(events, f)(s)
  {
    var log, own := Run(events).log, Run(On(events, s)).log;
    RunProjects(events, s);
    SumFilter(log, Member(BySocket, s), OfRow(f));
    RunWithin(On(events, s));
    OnlyOwn(events, s);
    FilterAll(own, Member(BySocket, s));
    SumRows(own, f);
  }

  /** What the open connection of socket s adds to a report. */
  ghost function OpenOf(h: History, s: nat, f: Connection -> nat): nat {
    if s in h.open && CountedLife(h.open[s]) then f(OpenRow(h, s)) else 0
  }

  ghost function OpenPart(h: History, f: Connection -> nat): nat -> nat {
    s => OpenOf(h, s, f)
  }

  /** What a report of the history says when all of it is about socket s. */
  ghost function ReportOf(own: History, s: nat, f: Connection -> nat): nat {
    Sum(Rows(own.log), f) + OpenOf(own, s, f)
  }

  ghost function Reported(events: seq<Event>, f: Connection -> nat): nat -> nat {
    s => ReportOf(Run(On(events, s)), s, f)
  }

  lemma {:induction false} ListedSum(sockets: seq<nat>, ks: set<nat>, h: History, f: Connection -> nat)
    requires forall s :: s in sockets <==> s in ks && s in h.open && CountedLife(h.open[s])
    requires forall i, j :: 0 <= i < j < |sockets| ==> sockets[i] != sockets[j]
    ensures Sum(OpenRows(h, sockets), f) == SumSet(ks, OpenPart(h, f))
  {
    hide CountedLife, Row;
    if sockets == [] {
      assert forall s :: s in ks ==> s !in sockets;
      SumSetZero(ks, OpenPart(h, f));
    } else {
      var n := |sockets| - 1;
      var less, s := sockets[..n], sockets[n];
      assert sockets == less + [s];
      assert OpenRows(h, sockets)[..n] == OpenRows(h, less);
      SumSetTake(ks, s, OpenPart(h, f));
      ListedSum(less, ks - {s}, h, f);
    }
  }

  lemma OpenAlike(h: History, g: History, s: nat, f: Connection -> nat)
    requires Same(h, g, s)
    ensures OpenOf(h, s, f) == OpenOf(g, s, f)
  {
    hide Lives, CountedLife, Row;
  }

  /** Any per-connection quantity of a report, with the open connections in it, is the sum over the sockets, each
      summarized alone. */
  lemma ReportProjects(events: seq<Event>, sockets: seq<nat>, f: Connection -> nat)
    requires Kept(events) && Lists(sockets, Run(events).open.Keys, Run(events))
    ensures Sum(Rows(Run(events).log) + OpenRows(Run(events), sockets), f)
            == SumSet(Sockets(events), Reported(events, f))
  {
    hide Run, Kept, Rows, Row, Lists, Same, CountedLife, OpenRows, Sockets;
    var h, ks := Run(events), Sockets(events);
    RunWithin(events);
    SumAppend(Rows(h.log), OpenRows(h, sockets), f);
    Projection(events, f);
    ListedWithin(sockets, ks, h);
    ListedSum(sockets, ks, h, f);
    forall s | s in ks
      ensures Reported(events, f)(s) == Alone(events, f)(s) + OpenPart(h, f)(s)
    {
      RunProjects(events, s);
      OpenAlike(h, Run(On(events, s)), s, f);
    }
    SumSetAdd(ks, Alone(events, f), OpenPart(h, f), Reported(events, f));
  }

  lemma ListedWithin(sockets: seq<nat>, ks: set<nat>, h: History)
    requires Lists(sockets, h.open.Keys, h) && h.open.Keys <= ks
    ensures forall s :: s in sockets <==> s in ks && s in h.open && CountedLife(h.open[s])
    ensures forall i, j :: 0 <= i < j < |sockets| ==> sockets[i] != sockets[j]
  {
    hide CountedLife;
  }

  /** The totals a report gives are the sums of the totals of its sockets, each reported alone. */
  lemma TotalsProject(events: seq<Event>, sockets: seq<nat>)
    requires Kept(events) && Lists(sockets, Run(events).open.Keys, Run(events))
    ensures var t := TotalsOf(Rows(Run(events).log) + OpenRows(Run(events), sockets));
            var ks := Sockets(events);
            && t.attempts == SumSet(ks, Reported(events, IsAttempt))
            && t.established == SumSet(ks, Reported(events, IsEstablished))
            && t.incomplete == SumSet(ks, Reported(events, IsIncomplete))
            && t.existing == SumSet(ks, Reported(events, IsExisting))
            && t.retransmissions == SumSet(ks, Reported(events, ResendsOf))
            && t.resets == SumSet(ks, Reported(events, IsReset))
  {
    hide Run, Kept, Rows, Lists, OpenRows, Sockets, Reported;
    ReportProjects(events, sockets, IsAttempt);
    ReportProjects(events, sockets, IsEstablished);
    ReportProjects(events, sockets, IsIncomplete);
    ReportProjects(events, sockets, IsExisting);
    ReportProjects(events, sockets, ResendsOf);
    ReportProjects(events, sockets, IsReset);
  }
}
