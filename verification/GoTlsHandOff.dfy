// The hand-off between Write and Close of one Go TLS connection: whoever comes last forgets the connection.
//
// Probes of Write entry, Write return and Close run at the same time on different CPUs. Each is cut into its atomic
// steps on the go_tls_writes map and on the entry it looked up, and the steps interleave in any order.
module GoTlsHandOff {
  import opened Folds

  /** An entry of the map; probes keep a pointer to the entry they looked up even when it is deleted. */
  datatype Entry = Entry(active: int, closed: bool)

  /** Where a goroutine's Write is. Precount has made sure there is an entry, Counting has looked it up, Writing is
      inside Write, Ending and Ended are in the return probe, Forgetting and Deleting clean up. */
  datatype Writer =
    | Idle
    | Precount
    | Counting(id: nat)
    | Writing(counted: bool)
    | Ending(id: nat)
    | Ended(id: nat, was: int)
    | Forgetting
    | Deleting

  datatype Closer = NotClosed | Closing(id: nat) | Set(id: nat) | Dropping | Dismissing | Closed

  /** current is the entry in the map; entries holds every entry ever made. forgotten says that the connection was
      forgotten since Close began, held that the capture holds state of it. */
  datatype State = State(current: Option<nat>, entries: seq<Entry>, writers: map<nat, Writer>, closer: Closer,
                         forgotten: bool, held: bool)

  datatype Action = Write(w: nat) | Capture(w: nat) | CloseStep

  ghost function Init(ws: set<nat>): State {
    State(None, [], map w | w in ws :: Idle, NotClosed, false, false)
  }

  ghost predicate WriterFormed(writer: Writer, n: nat) {
    match writer
    case Counting(id) => id < n
    case Ending(id) => id < n
    case _ => true
  }

  ghost predicate CloserFormed(closer: Closer, n: nat) {
    match closer
    case Closing(id) => id < n
    case Set(id) => id < n
    case _ => true
  }

  ghost predicate WellFormed(s: State) {
    && (s.current.Some? ==> s.current.value < |s.entries|)
    && (forall w :: w in s.writers ==> WriterFormed(s.writers[w], |s.entries|))
    && CloserFormed(s.closer, |s.entries|)
  }

  /** Where a Write goes next. */
  ghost function NextWriter(writer: Writer, current: Option<nat>, entries: seq<Entry>): Writer
    requires WriterFormed(writer, |entries|)
  {
    match writer
    case Idle => Precount
    case Precount => if current.Some? then Counting(current.value) else Writing(false)
    case Counting(_) => Writing(true)
    case Writing(_) => if current.Some? then Ending(current.value) else Idle
    case Ending(id) => Ended(id, entries[id].active)
    case Ended(id, was) => if was == 1 && id < |entries| && entries[id].closed then Forgetting else Idle
    case Forgetting => Deleting
    case Deleting => Idle
  }

  /** What its step does to the entries: a beginning Write makes one when there is none. */
  ghost function NextEntries(writer: Writer, current: Option<nat>, entries: seq<Entry>): seq<Entry>
    requires WriterFormed(writer, |entries|)
  {
    match writer
    case Idle => if current.Some? then entries else entries + [Entry(0, false)]
    case Counting(id) => entries[id := entries[id].(active := entries[id].active + 1)]
    case Ending(id) => entries[id := entries[id].(active := entries[id].active - 1)]
    case _ => entries
  }

  ghost function NextCurrent(writer: Writer, current: Option<nat>, entries: seq<Entry>): Option<nat> {
    match writer
    case Idle => if current.Some? then current else Some(|entries|)
    case Deleting => None
    case _ => current
  }

  ghost function WriterStep(s: State, w: nat): State
    requires WellFormed(s) && w in s.writers
  {
    var writer := s.writers[w];
    assert WriterFormed(writer, |s.entries|);
    State(NextCurrent(writer, s.current, s.entries), NextEntries(writer, s.current, s.entries),
          s.writers[w := NextWriter(writer, s.current, s.entries)], s.closer,
          s.forgotten || writer.Forgetting?, s.held && !writer.Forgetting?)
  }

  ghost function CloserStep(s: State): State
    requires WellFormed(s)
  {
    match s.closer
    case NotClosed =>
      if s.current.Some? then s.(closer := Closing(s.current.value))
      else s.(closer := Dismissing)
    case Closing(id) =>
      s.(closer := Set(id), entries := s.entries[id := s.entries[id].(closed := true)])
    case Set(id) =>
      s.(closer := if s.entries[id].active != 0 then Closed else Dropping)
    case Dropping =>
      s.(closer := Dismissing, current := None)
    case Dismissing =>
      s.(closer := Closed, forgotten := true, held := false)
    case Closed => s
  }

  /** One atomic step of one probe, or a capture inside a Write; an action that cannot happen does nothing. */
  ghost function Do(s: State, a: Action): State
    requires WellFormed(s)
  {
    match a
    case Write(w) => if w in s.writers then WriterStep(s, w) else s
    case Capture(w) => if w in s.writers && s.writers[w].Writing? then s.(held := true) else s
    case CloseStep => CloserStep(s)
  }

  lemma NextFormed(writer: Writer, current: Option<nat>, entries: seq<Entry>)
    requires WriterFormed(writer, |entries|) && (current.Some? ==> current.value < |entries|)
    ensures |entries| <= |NextEntries(writer, current, entries)|
    ensures WriterFormed(NextWriter(writer, current, entries), |entries|)
    ensures var next := NextCurrent(writer, current, entries);
            next.Some? ==> next.value < |NextEntries(writer, current, entries)|
  {
  }

  lemma WriterWellFormed(s: State, w: nat)
    requires WellFormed(s) && w in s.writers
    ensures WellFormed(WriterStep(s, w))
  {
    hide NextWriter, NextEntries, NextCurrent;
    var t := WriterStep(s, w);
    assert WriterFormed(s.writers[w], |s.entries|);
    NextFormed(s.writers[w], s.current, s.entries);
    forall v | v in t.writers
      ensures WriterFormed(t.writers[v], |t.entries|)
    {
      assert v in s.writers && WriterFormed(s.writers[v], |s.entries|);
    }
  }

  lemma DoWellFormed(s: State, a: Action)
    requires WellFormed(s)
    ensures WellFormed(Do(s, a))
  {
    hide WriterStep;
    if a.Write? && a.w in s.writers {
      WriterWellFormed(s, a.w);
    } else if a.Capture? {
      assert forall v :: v in s.writers ==> WriterFormed(s.writers[v], |s.entries|);
    } else if a.CloseStep? {
      CloserWellFormed(s);
    }
  }

  lemma CloserWellFormed(s: State)
    requires WellFormed(s)
    ensures WellFormed(CloserStep(s))
  {
    var t := CloserStep(s);
    assert |t.entries| == |s.entries| && t.writers == s.writers;
    assert forall v :: v in s.writers ==> WriterFormed(s.writers[v], |s.entries|);
  }

  ghost function Run(ws: set<nat>, actions: seq<Action>): (s: State)
    ensures WellFormed(s)
  {
    if actions == [] then Init(ws) else
    var s := Run(ws, actions[..|actions| - 1]);
    DoWellFormed(s, actions[|actions| - 1]);
    Do(s, actions[|actions| - 1])
  }

  // What holds in every run.

  ghost function Counted(s: State): set<nat> {
    set w | w in s.writers && (s.writers[w].Writing? || s.writers[w].Ending?)
  }

  /** While nothing was forgotten and Close has not decided to forget, there is at most one entry, every Write works
      on it, and its count is the number of Writes counted and not yet ended. Once Close has left the forgetting to
      the Writes, one of them still has it to do. */
  ghost predicate Shared(s: State) {
    && |s.entries| <= 1
    && (s.current == if s.entries == [] then None else Some(0 as nat))
    && (s.entries != [] ==>
         s.entries[0].active == |Counted(s)| && (s.entries[0].closed <==> s.closer.Set? || s.closer.Closed?))
    && (s.entries == [] ==> s.closer.NotClosed? && forall w :: w in s.writers ==> s.writers[w].Idle?)
    && (forall w :: w in s.writers ==> Sharing(s.writers[w], s.entries))
    && (s.closer.Closed? ==> s.entries != [] && (s.entries[0].active > 0 || HasToForget(s)))
  }

  ghost predicate Sharing(writer: Writer, entries: seq<Entry>) {
    match writer
    case Writing(counted) => counted
    case Forgetting => entries != [] && entries[0].closed
    case Ended(id, _) => id == 0
    case Deleting => false
    case _ => true
  }

  ghost predicate HasToForget(s: State) {
    exists w :: w in s.writers && (s.writers[w] == Ended(0, 1) || s.writers[w].Forgetting?)
  }

  ghost predicate Invariant(s: State) {
    && WellFormed(s)
    && (!s.forgotten && !s.closer.Dropping? && !s.closer.Dismissing? ==> Shared(s))
    && (s.closer.NotClosed? || s.closer.Closing? ==> !s.forgotten)
  }

  lemma CountedChange(s: State, t: State, w: nat)
    requires w in s.writers && w in t.writers && t.writers == s.writers[w := t.writers[w]]
    ensures Counted(t) == if t.writers[w].Writing? || t.writers[w].Ending? then Counted(s) + {w} else Counted(s) - {w}
  {
  }

  lemma CountedAfter(s: State, w: nat)
    requires WellFormed(s) && Shared(s) && w in s.writers && !s.writers[w].Forgetting?
    ensures |Counted(WriterStep(s, w))| == match s.writers[w]
                                           case Counting(_) => |Counted(s)| + 1
                                           case Ending(_) => |Counted(s)| - 1
                                           case _ => |Counted(s)|
  {
    hide NextEntries, NextCurrent, HasToForget;
    assert Sharing(s.writers[w], s.entries);
    CountedChange(s, WriterStep(s, w), w);
    CountedChange(s, s, w);
    if s.entries == [] {
      NoneCounted(s);
    }
  }

  lemma StillToForget(s: State, w: nat)
    requires WellFormed(s) && Shared(s) && w in s.writers && s.closer.Closed? && !s.writers[w].Forgetting?
    ensures WriterStep(s, w).entries != []
    ensures WriterStep(s, w).entries[0].active > 0 || HasToForget(WriterStep(s, w))
  {
    hide Counted;
    var t := WriterStep(s, w);
    if t.entries[0].active <= 0 {
      if s.entries[0].active > 0 {
        assert t.writers[w] == Ended(0, 1);
      } else {
        var v :| v in s.writers && (s.writers[v] == Ended(0, 1) || s.writers[v].Forgetting?);
        assert t.writers[v] == Ended(0, 1) || t.writers[v].Forgetting?;
      }
    }
  }

  lemma WriterShared(s: State, w: nat)
    requires WellFormed(s) && Shared(s) && w in s.writers && !s.writers[w].Forgetting?
    requires !s.closer.Dropping? && !s.closer.Dismissing?
    ensures Shared(WriterStep(s, w))
  {
    hide Counted, HasToForget;
    var t := WriterStep(s, w);
    assert WriterFormed(s.writers[w], |s.entries|) && Sharing(s.writers[w], s.entries);
    CountedAfter(s, w);
    if s.closer.Closed? {
      StillToForget(s, w);
    }
    if s.entries == [] {
      NoneCounted(s);
    }
  }

  lemma NoneCounted(s: State)
    requires forall w :: w in s.writers ==> s.writers[w].Idle?
    ensures Counted(s) == {}
  {
  }

  lemma CloserShared(s: State)
    requires Invariant(s) && Shared(s) && !s.forgotten
    requires !CloserStep(s).closer.Dropping? && !CloserStep(s).closer.Dismissing? && !CloserStep(s).forgotten
    ensures Shared(CloserStep(s))
  {
    assert Counted(CloserStep(s)) == Counted(s);
  }

  lemma InvariantKept(s: State, a: Action)
    requires Invariant(s)
    ensures Invariant(Do(s, a))
  {
    DoWellFormed(s, a);
    var t := Do(s, a);
    if !t.forgotten && !t.closer.Dropping? && !t.closer.Dismissing? {
      match a {
        case Write(w) =>
          if w in s.writers {
            WriterShared(s, w);
          }
        case Capture(w) =>
          assert Counted(t) == Counted(s);
        case CloseStep =>
          if !s.closer.Dropping? && !s.closer.Dismissing? {
            CloserShared(s);
          }
      }
    }
  }

  lemma {:induction false} RunInvariant(ws: set<nat>, actions: seq<Action>)
    ensures Invariant(Run(ws, actions))
  {
    if actions == [] {
      assert Counted(Init(ws)) == {};
    } else {
      RunInvariant(ws, actions[..|actions| - 1]);
      InvariantKept(Run(ws, actions[..|actions| - 1]), actions[|actions| - 1]);
    }
  }

  /** Close has run and no Write is in progress. */
  ghost predicate AtRest(s: State) {
    s.closer.Closed? && forall w :: w in s.writers ==> s.writers[w].Idle?
  }

  /** In every interleaving: once Close has run and no Write is in progress, the connection has been forgotten. */
  lemma ClosedIsForgotten(ws: set<nat>, actions: seq<Action>)
    ensures var s := Run(ws, actions); AtRest(s) ==> s.forgotten
  {
    RunInvariant(ws, actions);
    var s := Run(ws, actions);
    if AtRest(s) && !s.forgotten {
      NoneCounted(s);
    }
  }

  // Forgetting at least once is not forgetting last.

  /** Two Writes and a Close after which everything is at rest and the capture still holds the connection: the first
      Write has been uncounted when the second is counted and Close makes its mark; it then finds the mark and
      deletes the entry that counts the second, whose plaintext comes afterwards. */
  ghost function Leak(): seq<Action> {
    [Write(0), Write(0), Write(0), Write(0), Write(0),   // the first Write, up to being uncounted
     Write(1), Write(1), Write(1),                       // the second Write, counted
     CloseStep, CloseStep, CloseStep,                    // Close finds one active Write and leaves
     Write(0), Write(0), Write(0),                       // the first Write finds the mark, forgets, deletes
     Capture(1), Write(1)]                               // the second Write's plaintext; no entry to end on
  }

  ghost function RunFrom(s: State, actions: seq<Action>): (t: State)
    requires WellFormed(s)
    ensures WellFormed(t)
    decreases |actions|
  {
    if actions == [] then s else
    DoWellFormed(s, actions[0]);
    RunFrom(Do(s, actions[0]), actions[1..])
  }

  lemma {:induction false} RunIsRunFrom(ws: set<nat>, before: seq<Action>, after: seq<Action>)
    ensures RunFrom(Run(ws, before), after) == Run(ws, before + after)
    decreases |after|
  {
    if after == [] {
      assert before + after == before;
    } else {
      assert (before + [after[0]])[..|before|] == before;
      assert before + after == (before + [after[0]]) + after[1..];
      RunIsRunFrom(ws, before + [after[0]], after[1..]);
    }
  }

  lemma OneStep(s: State, a: Action, rest: seq<Action>)
    requires WellFormed(s)
    ensures WellFormed(Do(s, a)) && RunFrom(s, [a] + rest) == RunFrom(Do(s, a), rest)
  {
    hide Do;
    DoWellFormed(s, a);
    assert ([a] + rest)[1..] == rest;
  }

  lemma FirstWriteUncounted(rest: seq<Action>) returns (s: State)
    ensures s == State(Some(0), [Entry(0, false)], map[0 := Ended(0, 1), 1 := Idle], NotClosed, false, false)
    ensures WellFormed(s)
    ensures RunFrom(Init({0, 1}), [Write(0)] + ([Write(0)] + ([Write(0)] + ([Write(0)] + ([Write(0)] + rest)))))
              == RunFrom(s, rest)
  {
    hide RunFrom;
    s := FirstWriteBegins([Write(0)] + ([Write(0)] + rest));
    OneStep(s, Write(0), [Write(0)] + rest);
    s := Do(s, Write(0));
    OneStep(s, Write(0), rest);
    s := Do(s, Write(0));
  }

  lemma FirstWriteBegins(rest: seq<Action>) returns (s: State)
    ensures s == State(Some(0), [Entry(1, false)], map[0 := Writing(true), 1 := Idle], NotClosed, false, false)
    ensures WellFormed(s)
    ensures RunFrom(Init({0, 1}), [Write(0)] + ([Write(0)] + ([Write(0)] + rest))) == RunFrom(s, rest)
  {
    hide RunFrom;
    s := Init({0, 1});
    assert s.writers == map[0 := Idle, 1 := Idle];
    OneStep(s, Write(0), [Write(0)] + ([Write(0)] + rest));
    s := Do(s, Write(0));
    OneStep(s, Write(0), [Write(0)] + rest);
    s := Do(s, Write(0));
    OneStep(s, Write(0), rest);
    s := Do(s, Write(0));
  }

  lemma SecondWriteCounted(s0: State, rest: seq<Action>) returns (s: State)
    requires s0 == State(Some(0), [Entry(0, false)], map[0 := Ended(0, 1), 1 := Idle], NotClosed, false, false)
    ensures s == State(Some(0), [Entry(1, false)], map[0 := Ended(0, 1), 1 := Writing(true)], NotClosed, false, false)
    ensures WellFormed(s0) && WellFormed(s)
    ensures RunFrom(s0, [Write(1)] + ([Write(1)] + ([Write(1)] + rest))) == RunFrom(s, rest)
  {
    hide RunFrom;
    s := s0;
    OneStep(s, Write(1), [Write(1)] + ([Write(1)] + rest));
    s := Do(s, Write(1));
    OneStep(s, Write(1), [Write(1)] + rest);
    s := Do(s, Write(1));
    OneStep(s, Write(1), rest);
    s := Do(s, Write(1));
  }

  lemma CloseLeaves(s0: State, rest: seq<Action>) returns (s: State)
    requires s0 == State(Some(0), [Entry(1, false)], map[0 := Ended(0, 1), 1 := Writing(true)], NotClosed, false, false)
    ensures s == State(Some(0), [Entry(1, true)], map[0 := Ended(0, 1), 1 := Writing(true)], Closed, false, false)
    ensures WellFormed(s0) && WellFormed(s)
    ensures RunFrom(s0, [CloseStep] + ([CloseStep] + ([CloseStep] + rest))) == RunFrom(s, rest)
  {
    hide RunFrom;
    s := s0;
    OneStep(s, CloseStep, [CloseStep] + ([CloseStep] + rest));
    s := Do(s, CloseStep);
    OneStep(s, CloseStep, [CloseStep] + rest);
    s := Do(s, CloseStep);
    OneStep(s, CloseStep, rest);
    s := Do(s, CloseStep);
  }

  lemma FirstWriteFindsMark(s0: State, rest: seq<Action>) returns (s: State)
    requires s0 == State(Some(0), [Entry(1, true)], map[0 := Ended(0, 1), 1 := Writing(true)], Closed, false, false)
    ensures s == State(Some(0), [Entry(1, true)], map[0 := Forgetting, 1 := Writing(true)], Closed, false, false)
    ensures WellFormed(s0) && WellFormed(s) && RunFrom(s0, [Write(0)] + rest) == RunFrom(s, rest)
  {
    hide RunFrom;
    s := s0;
    OneStep(s, Write(0), rest);
    s := Do(s, Write(0));
  }

  lemma FirstWriteForgets(s0: State, rest: seq<Action>) returns (s: State)
    requires s0 == State(Some(0), [Entry(1, true)], map[0 := Ended(0, 1), 1 := Writing(true)], Closed, false, false)
    ensures s == State(None, [Entry(1, true)], map[0 := Idle, 1 := Writing(true)], Closed, true, false)
    ensures WellFormed(s0) && WellFormed(s)
    ensures RunFrom(s0, [Write(0)] + ([Write(0)] + ([Write(0)] + rest))) == RunFrom(s, rest)
  {
    hide RunFrom;
    s := FirstWriteFindsMark(s0, [Write(0)] + ([Write(0)] + rest));
    OneStep(s, Write(0), [Write(0)] + rest);
    s := Do(s, Write(0));
    OneStep(s, Write(0), rest);
    s := Do(s, Write(0));
  }

  lemma SecondWriteLingers(s0: State) returns (s: State)
    requires s0 == State(None, [Entry(1, true)], map[0 := Idle, 1 := Writing(true)], Closed, true, false)
    ensures s == State(None, [Entry(1, true)], map[0 := Idle, 1 := Idle], Closed, true, true)
    ensures WellFormed(s0) && RunFrom(s0, [Capture(1)] + ([Write(1)] + [])) == s
  {
    s := s0;
    OneStep(s, Capture(1), [Write(1)] + []);
    s := Do(s, Capture(1));
    OneStep(s, Write(1), []);
    s := Do(s, Write(1));
  }

  lemma LastForgetCanBeTooEarly()
    ensures var s := Run({0, 1}, Leak()); AtRest(s) && s.forgotten && s.held
  {
    hide RunFrom, Do, WellFormed;
    var tail := [Capture(1)] + ([Write(1)] + []);
    var forgets := [Write(0)] + ([Write(0)] + ([Write(0)] + tail));
    var closes := [CloseStep] + ([CloseStep] + ([CloseStep] + forgets));
    var counts := [Write(1)] + ([Write(1)] + ([Write(1)] + closes));
    var all := [Write(0)] + ([Write(0)] + ([Write(0)] + ([Write(0)] + ([Write(0)] + counts))));
    assert Leak() == all;
    assert [] + all == all;
    RunIsRunFrom({0, 1}, [], all);
    var s := FirstWriteUncounted(counts);
    s := SecondWriteCounted(s, closes);
    s := CloseLeaves(s, forgets);
    s := FirstWriteForgets(s, tail);
    s := SecondWriteLingers(s);
  }

  // Exactly when it is.

  /** Close is about to make its mark: on the entry it looked up, or, without one, by going on to forget. */
  ghost predicate Marking(s: State) {
    s.closer.Closing? || (s.closer.NotClosed? && s.current.None?)
  }

  /** A Write is between being seen and being counted; or the last one counted has been uncounted and has not looked
      for the mark yet, while another is inside Write. */
  ghost predicate Restless(s: State) {
    || (exists w :: w in s.writers && (s.writers[w].Precount? || s.writers[w].Counting?))
    || (&& (exists w :: w in s.writers && LastUncounted(s.writers[w]))
        && exists w :: w in s.writers && s.writers[w].Writing?)
  }

  ghost predicate LastUncounted(writer: Writer) {
    writer.Ended? && writer.was == 1
  }

  /** No Write begins. */
  ghost predicate NoBegins(s: State, actions: seq<Action>)
    requires WellFormed(s)
    decreases |actions|
  {
    if actions == [] then true else
    DoWellFormed(s, actions[0]);
    !Begins(s, actions[0]) && NoBegins(Do(s, actions[0]), actions[1..])
  }

  ghost predicate Begins(s: State, a: Action) {
    a.Write? && a.w in s.writers && s.writers[a.w].Idle?
  }

  /** Something has begun to clean the connection up. */
  ghost predicate Winding(s: State) {
    || s.forgotten || s.closer.Dropping? || s.closer.Dismissing?
    || exists w :: w in s.writers && (s.writers[w].Forgetting? || s.writers[w].Deleting? || LastUncounted(s.writers[w]))
  }

  ghost predicate NoneWriting(s: State) {
    forall w :: w in s.writers ==> !s.writers[w].Writing?
  }

  /** After the mark, cleaning up begins only when no Write can capture any more. */
  ghost predicate Orderly(s: State) {
    && !s.closer.NotClosed? && !s.closer.Closing?
    && (forall w :: w in s.writers ==> !s.writers[w].Precount? && !s.writers[w].Counting?)
    && (Winding(s) ==> NoneWriting(s))
    && (s.forgotten ==> !s.held)
  }

  lemma MarkOrderly(s: State)
    requires Invariant(s) && Marking(s) && !Restless(s)
    ensures Orderly(CloserStep(s))
  {
    assert Shared(s);
    assert forall w :: w in s.writers ==> Sharing(s.writers[w], s.entries);
  }

  lemma OrderlyKept(s: State, a: Action)
    requires Invariant(s) && Orderly(s) && !Begins(s, a)
    ensures Orderly(Do(s, a))
  {
    match a {
      case Write(w) =>
        if w in s.writers {
          WriterOrderly(s, w);
        }
      case Capture(w) =>
        assert s.forgotten ==> Winding(s);
      case CloseStep =>
        CloserOrderly(s);
    }
  }

  lemma CloserOrderly(s: State)
    requires Invariant(s) && Orderly(s)
    ensures Orderly(CloserStep(s))
  {
    hide Shared;
    var t := CloserStep(s);
    assert forall w :: w in s.writers ==> t.writers[w] == s.writers[w];
    if !Winding(s) && Winding(t) {
      NoneLeft(s);
    }
  }

  lemma NoneLeft(s: State)
    requires Invariant(s) && !Winding(s) && s.closer.Set? && s.entries[s.closer.id].active == 0
    ensures NoneWriting(s)
  {
    assert Shared(s) && Counted(s) == {};
    assert forall w :: w in s.writers && s.writers[w].Writing? ==> w in Counted(s);
  }

  lemma WriterOrderly(s: State, w: nat)
    requires Invariant(s) && Orderly(s) && w in s.writers && !s.writers[w].Idle?
    ensures Orderly(WriterStep(s, w))
  {
    hide Shared;
    var t := WriterStep(s, w);
    assert forall v :: v in t.writers && v != w ==> t.writers[v] == s.writers[v];
    if !Winding(s) && Winding(t) {
      var v :| v in t.writers && (t.writers[v].Forgetting? || t.writers[v].Deleting? || LastUncounted(t.writers[v]));
      assert v == w && s.writers[w].Ending?;
      LastLeft(s, w);
    }
  }

  lemma LastLeft(s: State, w: nat)
    requires Invariant(s) && !Winding(s) && w in s.writers && s.writers[w].Ending?
    requires s.entries[s.writers[w].id].active == 1
    requires !s.closer.Dropping? && !s.closer.Dismissing?
    ensures NoneWriting(s)
  {
    assert Shared(s) && |Counted(s)| == 1 && w in Counted(s);
    assert Counted(s) - {w} == {} by {
      assert |Counted(s) - {w}| == 0;
    }
    assert forall v :: v in s.writers && s.writers[v].Writing? ==> v in Counted(s) - {w};
  }

  /** What follows an orderly state stays orderly, until another Write begins. */
  lemma {:induction false} OrderlyLeavesNothing(s: State, after: seq<Action>)
    requires Invariant(s) && Orderly(s) && NoBegins(s, after)
    ensures Orderly(RunFrom(s, after)) && Invariant(RunFrom(s, after))
    decreases |after|
  {
    hide Orderly, Begins, Do;
    if after != [] {
      InvariantKept(s, after[0]);
      OrderlyKept(s, after[0]);
      OrderlyLeavesNothing(Do(s, after[0]), after[1..]);
    }
  }

  // A restless mark can leave something behind: everything but one Write goes on to rest, and that Write after it.

  ghost function RankOf(writer: Writer): nat {
    match writer
    case Idle => 0
    case Deleting => 1
    case Forgetting => 2
    case Ended(_, _) => 3
    case Ending(_) => 4
    case Writing(_) => 5
    case Counting(_) => 6
    case Precount => 7
  }

  ghost function CloserRank(closer: Closer): nat {
    match closer
    case Closed => 0
    case Dismissing => 1
    case Dropping => 2
    case Set(_) => 3
    case Closing(_) => 4
    case NotClosed => 5
  }

  ghost function Ranks(writers: map<nat, Writer>): nat -> nat {
    w => if w in writers then RankOf(writers[w]) else 0
  }

  /** How far everything but the Write of w is from rest. */
  ghost function Rank(s: State, w: nat): nat {
    CloserRank(s.closer) + SumSet(s.writers.Keys - {w}, Ranks(s.writers))
  }

  /** Someone else than w is about to forget, or has forgotten; the map loses its entry with it. */
  ghost predicate Passing(s: State, w: nat) {
    && s.entries != [] && s.entries[0].closed
    && (|| s.forgotten
        || exists v :: v in s.writers && v != w && (s.writers[v] == Ended(0, 1) || s.writers[v].Forgetting?))
  }

  /** What is forgotten is deleted, or about to be. */
  ghost predicate Cleaned(s: State) {
    s.forgotten ==> s.current.None? || exists v :: v in s.writers && s.writers[v].Deleting?
  }

  lemma WriterRank(s: State, v: nat, w: nat)
    requires WellFormed(s) && v in s.writers && v != w && !s.writers[v].Idle?
    ensures Rank(WriterStep(s, v), w) < Rank(s, w)
  {
    hide NextEntries, NextCurrent, CloserRank;
    var t := WriterStep(s, v);
    var ks := s.writers.Keys - {w};
    assert t.writers.Keys == s.writers.Keys;
    assert WriterFormed(s.writers[v], |s.entries|);
    SumSetTake(ks, v, Ranks(s.writers));
    SumSetTake(ks, v, Ranks(t.writers));
    SumSetCong(ks - {v}, Ranks(s.writers), Ranks(t.writers));
  }

  lemma StepPassing(s: State, a: Action, w: nat)
    requires WellFormed(s) && (a.Write? ==> a.w in s.writers && a.w != w)
    ensures Passing(s, w) ==> Passing(Do(s, a), w)
  {
    if Passing(s, w) && !Do(s, a).forgotten {
      var v :| v in s.writers && v != w && (s.writers[v] == Ended(0, 1) || s.writers[v].Forgetting?);
      assert WriterFormed(s.writers[v], |s.entries|);
      var u := Do(s, a).writers[v];
      assert u == Ended(0, 1) || u.Forgetting?;
    }
  }

  lemma StepCleaned(s: State, a: Action)
    requires WellFormed(s) && Cleaned(s) && !Begins(s, a) && (s.closer.Dismissing? ==> s.current.None?)
    ensures Cleaned(Do(s, a))
  {
    var t := Do(s, a);
    if s.forgotten && s.current.Some? && t.current.Some? {
      var v :| v in s.writers && s.writers[v].Deleting?;
      assert t.writers[v].Deleting?;
    } else if a.Write? && a.w in s.writers && s.writers[a.w].Forgetting? {
      assert t.writers[a.w].Deleting?;
    }
  }

  /** Close dismisses what is no longer in the map, as long as no Write begins. */
  ghost predicate Dropped(s: State) {
    s.closer.Dismissing? ==> s.current.None?
  }

  lemma StepDropped(s: State, a: Action)
    requires WellFormed(s) && Dropped(s) && !Begins(s, a)
    ensures Dropped(Do(s, a))
  {
  }

  /** The next step of anything but the Write of w. */
  lemma OtherStep(s: State, w: nat) returns (a: Action)
    requires WellFormed(s) && Rank(s, w) > 0
    ensures !Begins(s, a) && !a.Capture? && (a.Write? ==> a.w in s.writers && a.w != w)
    ensures WellFormed(Do(s, a)) && Rank(Do(s, a), w) < Rank(s, w)
    ensures w in s.writers ==> w in Do(s, a).writers && Do(s, a).writers[w] == s.writers[w]
  {
    if !s.closer.Closed? {
      a := CloseStep;
      CloserWellFormed(s);
    } else {
      var ks := s.writers.Keys - {w};
      if forall v :: v in ks ==> Ranks(s.writers)(v) == 0 {
        SumSetZero(ks, Ranks(s.writers));
      }
      var v :| v in ks && Ranks(s.writers)(v) != 0;
      a := Write(v);
      WriterWellFormed(s, v);
      WriterRank(s, v, w);
    }
  }

  lemma NoRank(s: State, w: nat)
    requires Rank(s, w) == 0
    ensures s.closer.Closed? && forall v :: v in s.writers && v != w ==> s.writers[v].Idle?
  {
    forall v | v in s.writers && v != w
      ensures s.writers[v].Idle?
    {
      SumSetTake(s.writers.Keys - {w}, v, Ranks(s.writers));
    }
  }

  /** Everything but the Write of w goes on to rest. */
  lemma {:induction false} RestOthers(s: State, w: nat) returns (actions: seq<Action>)
    requires Invariant(s) && Cleaned(s) && Dropped(s)
    ensures NoBegins(s, actions)
    ensures var t := RunFrom(s, actions);
            && Invariant(t) && Cleaned(t) && Rank(t, w) == 0
            && (Passing(s, w) ==> Passing(t, w))
            && (w in s.writers ==> w in t.writers && t.writers[w] == s.writers[w])
    decreases Rank(s, w)
  {
    hide Do, Rank, Passing, Cleaned, Dropped, Begins;
    if Rank(s, w) == 0 {
      return [];
    }
    var a := OtherStep(s, w);
    InvariantKept(s, a);
    StepCleanedToo(s, a);
    StepDropped(s, a);
    StepPassing(s, a, w);
    var rest := RestOthers(Do(s, a), w);
    actions := [a] + rest;
    OneStep(s, a, rest);
    NoBeginsMore(s, a, rest);
  }

  lemma StepCleanedToo(s: State, a: Action)
    requires WellFormed(s) && Cleaned(s) && Dropped(s) && !Begins(s, a)
    ensures Cleaned(Do(s, a))
  {
    hide Cleaned, Do, Begins;
    StepCleaned(s, a);
  }

  lemma NoBeginsMore(s: State, a: Action, rest: seq<Action>)
    requires WellFormed(s) && WellFormed(Do(s, a)) && !Begins(s, a) && NoBegins(Do(s, a), rest)
    ensures NoBegins(s, [a] + rest)
  {
    hide Do, Begins;
    assert ([a] + rest)[1..] == rest;
  }

  /** With all others at rest, the Write of w goes on without an entry: its plaintext stays behind. */
  lemma Lingers(s: State, w: nat) returns (actions: seq<Action>)
    requires WellFormed(s) && w in s.writers && s.current.None? && Rank(s, w) == 0
    requires s.writers[w].Precount? || s.writers[w].Counting? || s.writers[w].Writing?
    ensures NoBegins(s, actions)
    ensures AtRest(RunFrom(s, actions)) && RunFrom(s, actions).held
  {
    hide Rank, RunFrom, NoBegins;
    NoRank(s, w);
    if s.writers[w].Writing? {
      actions := WritingLingers(s, w);
    } else {
      var t := Do(s, Write(w));
      WriterWellFormed(s, w);
      assert forall v :: v in t.writers && v != w ==> t.writers[v] == s.writers[v];
      var rest := WritingLingers(t, w);
      actions := [Write(w)] + rest;
      OneStep(s, Write(w), rest);
      NoBeginsMore(s, Write(w), rest);
    }
  }

  lemma WritingLingers(s: State, w: nat) returns (actions: seq<Action>)
    requires WellFormed(s) && w in s.writers && s.current.None? && s.writers[w].Writing? && s.closer.Closed?
    requires forall v :: v in s.writers && v != w ==> s.writers[v].Idle?
    ensures NoBegins(s, actions)
    ensures AtRest(RunFrom(s, actions)) && RunFrom(s, actions).held
  {
    actions := [Capture(w)] + ([Write(w)] + []);
    var t := Do(s, Capture(w));
    DoWellFormed(s, Capture(w));
    WriterWellFormed(t, w);
    assert WriterFormed(s.writers[w], |s.entries|);
    OneStep(s, Capture(w), [Write(w)] + []);
    OneStep(t, Write(w), []);
    assert NoBegins(Do(t, Write(w)), []);
    NoBeginsMore(t, Write(w), []);
    NoBeginsMore(s, Capture(w), [Write(w)] + []);
  }

  /** A restless mark has a continuation in which no Write begins and something is left behind. */
  lemma RestlessLeaks(s: State) returns (actions: seq<Action>)
    requires Invariant(s) && Marking(s) && Restless(s)
    ensures NoBegins(CloserStep(s), actions)
    ensures AtRest(RunFrom(CloserStep(s), actions)) && RunFrom(CloserStep(s), actions).held
  {
    hide NoBegins, RunFrom, Rank;
    var w := OneThatLingers(s);
    var t := CloserStep(s);
    InvariantKept(s, CloseStep);
    var before := RestOthers(t, w);
    var u := RunFrom(t, before);
    NoRank(u, w);
    OthersForgot(u, w);
    var after := Lingers(u, w);
    actions := before + after;
    RunFromTwice(t, before, after);
  }

  lemma OneThatLingers(s: State) returns (w: nat)
    requires Invariant(s) && Marking(s) && Restless(s)
    ensures w in s.writers
    ensures var t := CloserStep(s);
            && Cleaned(t) && Dropped(t)
            && (s.writers[w].Precount? || s.writers[w].Counting? || (s.writers[w].Writing? && Passing(t, w)))
  {
    assert Shared(s);
    assert forall v :: v in s.writers ==> Sharing(s.writers[v], s.entries);
    if exists v :: v in s.writers && (s.writers[v].Precount? || s.writers[v].Counting?) {
      w :| w in s.writers && (s.writers[w].Precount? || s.writers[w].Counting?);
    } else {
      w :| w in s.writers && s.writers[w].Writing?;
      var v :| v in s.writers && LastUncounted(s.writers[v]);
      assert CloserStep(s).writers[v] == Ended(0, 1);
    }
  }

  lemma OthersForgot(s: State, w: nat)
    requires Invariant(s) && Cleaned(s) && w in s.writers && s.closer.Closed?
    requires forall v :: v in s.writers && v != w ==> s.writers[v].Idle?
    requires s.writers[w].Precount? || s.writers[w].Counting? || (s.writers[w].Writing? && Passing(s, w))
    ensures s.forgotten && s.current.None?
  {
    if !s.writers[w].Writing? {
      NobodyCounted(s);
    }
  }

  lemma NobodyCounted(s: State)
    requires forall v :: v in s.writers ==> !s.writers[v].Writing? && !s.writers[v].Ending?
    ensures |Counted(s)| == 0
  {
    assert Counted(s) == {};
  }

  lemma {:induction false} RunFromTwice(s: State, before: seq<Action>, after: seq<Action>)
    requires WellFormed(s)
    ensures RunFrom(s, before + after) == RunFrom(RunFrom(s, before), after)
    ensures NoBegins(s, before) && NoBegins(RunFrom(s, before), after) ==> NoBegins(s, before + after)
    decreases |before|
  {
    hide Do, Begins;
    if before == [] {
      assert before + after == after;
    } else {
      DoWellFormed(s, before[0]);
      assert (before + after)[1..] == before[1..] + after;
      RunFromTwice(Do(s, before[0]), before[1..], after);
    }
  }

  /** Whatever happens from here without another Write beginning, nothing is left behind once all is at rest. */
  ghost predicate LeavesNothing(s: State)
    requires WellFormed(s)
  {
    forall after {:trigger RunFrom(s, after)} {:trigger NoBegins(s, after)} ::
      NoBegins(s, after) && AtRest(RunFrom(s, after)) ==> !RunFrom(s, after).held
  }

  /** At Close's mark, in every run: nothing is left behind by any continuation in which no Write begins, if and only if
      the mark is not a restless one. */
  lemma CleanCloseExactly(ws: set<nat>, before: seq<Action>)
    requires Marking(Run(ws, before))
    ensures LeavesNothing(Run(ws, before + [CloseStep])) <==> !Restless(Run(ws, before))
  {
    hide LeavesNothing, Restless, Marking, Invariant, Orderly;
    var s := Run(ws, before);
    assert (before + [CloseStep])[..|before|] == before;
    assert Run(ws, before + [CloseStep]) == Do(s, CloseStep);
    RunInvariant(ws, before);
    InvariantKept(s, CloseStep);
    if Restless(s) {
      var after := RestlessLeaks(s);
      Leaves(CloserStep(s), after);
    } else {
      MarkOrderly(s);
      OrderlyLeaves(CloserStep(s));
    }
  }

  lemma Leaves(s: State, after: seq<Action>)
    requires WellFormed(s) && NoBegins(s, after) && AtRest(RunFrom(s, after)) && RunFrom(s, after).held
    ensures !LeavesNothing(s)
  {
    hide NoBegins, RunFrom, AtRest;
  }

  lemma OrderlyLeaves(s: State)
    requires Invariant(s) && Orderly(s)
    ensures LeavesNothing(s)
  {
    hide NoBegins, RunFrom, AtRest, Orderly;
    forall after | NoBegins(s, after) && AtRest(RunFrom(s, after))
      ensures !RunFrom(s, after).held
    {
      OrderlyLeavesNothing(s, after);
      RestForgot(RunFrom(s, after));
    }
  }

  lemma RestForgot(s: State)
    requires Invariant(s) && Orderly(s) && AtRest(s)
    ensures !s.held
  {
    if !s.forgotten {
      NoneCounted(s);
    }
  }
}
