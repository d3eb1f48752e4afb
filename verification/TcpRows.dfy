// Totals and grouped rows, read off a sequence of connection rows.
module TcpRows {
  import opened Folds
  import opened TcpLives

  /** The host's ports: its ephemeral range and its listening TCP ports. */
  datatype Ports = Ports(low: nat, high: nat, listening: set<nat>)
  {
    predicate Ephemeral(port: nat) {
      low <= port <= high
    }

    /** Whether a connection with these ends is on the server side of a service. */
    predicate Serves(source: Address, destination: Address) {
      && source.Address? && destination.Address?
      && ((!Ephemeral(source.port) && source.port in listening)
          || (!Ephemeral(source.port) && Ephemeral(destination.port)))
    }
  }

  datatype GroupKey = GroupKey(process: string, peer: Address, server: bool)

  datatype Group = Group(hostname: string, connections: nat, established: nat, incomplete: nat, existing: nat,
                         resets: nat, retransmissions: nat, connectTotalMS: nat, connectCount: nat,
                         rttTotalUS: nat, rttCount: nat, lost: nat, zeroWindow: bool, acceptTotalNS: nat,
                         acceptCount: nat, tx: nat, rx: nat)

  datatype Totals = Totals(attempts: nat, established: nat, incomplete: nat, existing: nat,
                           retransmissions: nat, resets: nat)

  const EMPTY_GROUP := Group("", 0, 0, 0, 0, 0, 0, 0, 0, 0, 0, 0, false, 0, 0, 0, 0)
  const EMPTY_TOTALS := Totals(0, 0, 0, 0, 0, 0)

  function KeyOf(ports: Ports, c: Connection): GroupKey {
    var server := ports.Serves(c.source, c.destination);
    GroupKey(c.process, if server then c.source else c.destination, server)
  }

  ghost function Keyed(ports: Ports): Connection -> GroupKey {
    c => KeyOf(ports, c)
  }

  ghost function InGroup(ports: Ports, k: GroupKey): Connection -> bool {
    Member(Keyed(ports), k)
  }

  // What a row adds to a total.

  function One(c: Connection): nat { 1 }
  function IsEstablished(c: Connection): nat { if c.outcome == Established then 1 else 0 }
  function IsExisting(c: Connection): nat { if c.outcome == Existing then 1 else 0 }
  function IsIncomplete(c: Connection): nat { if c.outcome != Established && c.outcome != Existing then 1 else 0 }
  function IsAttempt(c: Connection): nat { if c.outcome == Existing then 0 else 1 }
  function IsReset(c: Connection): nat { if c.reset then 1 else 0 }
  function ResendsOf(c: Connection): nat { c.retransmissions }
  function ConnectMSOf(c: Connection): nat { if c.established then c.connectMS else 0 }
  function ConnectedOf(c: Connection): nat { if c.established then 1 else 0 }
  function RttOf(c: Connection): nat { if 1 in c.diagnostics.valid then c.diagnostics.rttUS else 0 }
  function RttSeen(c: Connection): nat { if 1 in c.diagnostics.valid then 1 else 0 }
  function LostOf(c: Connection): nat { if 32 in c.diagnostics.valid then c.diagnostics.lost else 0 }
  const ZeroWindowed: Connection -> bool := (c: Connection) => 64 in c.diagnostics.valid && c.diagnostics.zeroWindow
  function AcceptNSOf(c: Connection): nat { c.accepting.latencyNS }
  function AcceptSeen(c: Connection): nat { if c.accepting.latencyNS != 0 then 1 else 0 }
  function TxOf(c: Connection): nat { c.tx }
  function RxOf(c: Connection): nat { c.rx }
  const Named: Connection -> bool := (c: Connection) => c.hostname != ""

  ghost function TotalsOf(rows: seq<Connection>): Totals {
    Totals(Sum(rows, IsAttempt), Sum(rows, IsEstablished), Sum(rows, IsIncomplete), Sum(rows, IsExisting),
           Sum(rows, ResendsOf), Sum(rows, IsReset))
  }

  ghost function HostnameOf(rows: seq<Connection>, ports: Ports, k: GroupKey): string {
    if k.server then "" else
    match First(rows, Both(InGroup(ports, k), Named)) case Some(c) => c.hostname case None => ""
  }

  ghost function In(rows: seq<Connection>, ports: Ports, k: GroupKey, f: Connection -> nat): nat {
    Sum(rows, Only(InGroup(ports, k), f))
  }

  ghost function GroupOf(rows: seq<Connection>, ports: Ports, k: GroupKey): Group {
    Group(HostnameOf(rows, ports, k),
          In(rows, ports, k, One), In(rows, ports, k, IsEstablished), In(rows, ports, k, IsIncomplete),
          In(rows, ports, k, IsExisting), In(rows, ports, k, IsReset), In(rows, ports, k, ResendsOf),
          In(rows, ports, k, ConnectMSOf), In(rows, ports, k, ConnectedOf), In(rows, ports, k, RttOf),
          In(rows, ports, k, RttSeen), In(rows, ports, k, LostOf),
          Any(rows, Both(InGroup(ports, k), ZeroWindowed)),
          In(rows, ports, k, AcceptNSOf), In(rows, ports, k, AcceptSeen),
          In(rows, ports, k, TxOf), In(rows, ports, k, RxOf))
  }

  ghost function KeysOf(rows: seq<Connection>, ports: Ports): set<GroupKey> {
    set i | 0 <= i < |rows| :: KeyOf(ports, rows[i])
  }

  /** groups holds exactly the grouped rows of rows. */
  ghost predicate Grouped(groups: map<GroupKey, Group>, rows: seq<Connection>, ports: Ports) {
    && groups.Keys == KeysOf(rows, ports)
    && forall k :: k in groups ==> groups[k] == GroupOf(rows, ports, k)
  }

  method AddTotals(totals: Totals, c: Connection, ghost rows: seq<Connection>) returns (sum: Totals)
    requires totals == TotalsOf(rows)
    ensures sum == TotalsOf(rows + [c])
  {
    hide TotalsOf;
    sum := totals.(retransmissions := totals.retransmissions + c.retransmissions);
    if c.reset {
      sum := sum.(resets := sum.resets + 1);
    }
    match c.outcome {
      case Established => sum := sum.(attempts := sum.attempts + 1, established := sum.established + 1);
      case Existing => sum := sum.(existing := sum.existing + 1);
      case _ => sum := sum.(attempts := sum.attempts + 1, incomplete := sum.incomplete + 1);
    }
    TotalsSnoc(rows, c);
  }

  lemma TotalsSnoc(rows: seq<Connection>, c: Connection)
    ensures var t, u := TotalsOf(rows), TotalsOf(rows + [c]);
            && u.attempts == t.attempts + IsAttempt(c) && u.established == t.established + IsEstablished(c)
            && u.incomplete == t.incomplete + IsIncomplete(c) && u.existing == t.existing + IsExisting(c)
            && u.retransmissions == t.retransmissions + c.retransmissions && u.resets == t.resets + IsReset(c)
  {
    SumSnoc(rows, c, IsAttempt);
    SumSnoc(rows, c, IsEstablished);
    SumSnoc(rows, c, IsIncomplete);
    SumSnoc(rows, c, IsExisting);
    SumSnoc(rows, c, ResendsOf);
    SumSnoc(rows, c, IsReset);
  }

  /** Every finished or open connection is either an attempt that established, one that did not, or an
      existing connection, and the totals add up that way. */
  lemma {:induction false} TotalsBalance(rows: seq<Connection>)
    ensures var t := TotalsOf(rows);
            t.attempts == t.established + t.incomplete && t.attempts + t.existing == |rows|
  {
    if rows != [] {
      var n := |rows| - 1;
      assert rows == rows[..n] + [rows[n]];
      TotalsBalance(rows[..n]);
      TotalsSnoc(rows[..n], rows[n]);
    }
  }

  lemma InSnoc(rows: seq<Connection>, c: Connection, ports: Ports, k: GroupKey, f: Connection -> nat)
    ensures In(rows + [c], ports, k, f) == In(rows, ports, k, f) + if KeyOf(ports, c) == k then f(c) else 0
  {
    SumSnoc(rows, c, Only(InGroup(ports, k), f));
  }

  /** What adding a row does to the group of key k. */
  function Plus(g: Group, c: Connection, server: bool): Group {
    Group(if g.hostname == "" && !server then c.hostname else g.hostname,
          g.connections + 1, g.established + IsEstablished(c), g.incomplete + IsIncomplete(c),
          g.existing + IsExisting(c), g.resets + IsReset(c), g.retransmissions + c.retransmissions,
          g.connectTotalMS + ConnectMSOf(c), g.connectCount + ConnectedOf(c), g.rttTotalUS + RttOf(c),
          g.rttCount + RttSeen(c), g.lost + LostOf(c), g.zeroWindow || ZeroWindowed(c),
          g.acceptTotalNS + AcceptNSOf(c), g.acceptCount + AcceptSeen(c), g.tx + c.tx, g.rx + c.rx)
  }

  lemma GroupSnoc(rows: seq<Connection>, c: Connection, ports: Ports, k: GroupKey)
    ensures var g := GroupOf(rows, ports, k);
            GroupOf(rows + [c], ports, k) == if KeyOf(ports, c) == k then Plus(g, c, k.server) else g
  {
    hide In, HostnameOf, Any;
    InSnoc(rows, c, ports, k, One);
    InSnoc(rows, c, ports, k, IsEstablished);
    InSnoc(rows, c, ports, k, IsIncomplete);
    InSnoc(rows, c, ports, k, IsExisting);
    InSnoc(rows, c, ports, k, IsReset);
    InSnoc(rows, c, ports, k, ResendsOf);
    InSnoc(rows, c, ports, k, ConnectMSOf);
    InSnoc(rows, c, ports, k, ConnectedOf);
    InSnoc(rows, c, ports, k, RttOf);
    InSnoc(rows, c, ports, k, RttSeen);
    InSnoc(rows, c, ports, k, LostOf);
    InSnoc(rows, c, ports, k, AcceptNSOf);
    InSnoc(rows, c, ports, k, AcceptSeen);
    InSnoc(rows, c, ports, k, TxOf);
    InSnoc(rows, c, ports, k, RxOf);
    AnySnoc(rows, c, Both(InGroup(ports, k), ZeroWindowed));
    HostnameSnoc(rows, c, ports, k);
  }

  lemma HostnameSnoc(rows: seq<Connection>, c: Connection, ports: Ports, k: GroupKey)
    ensures var h := HostnameOf(rows, ports, k);
            HostnameOf(rows + [c], ports, k) == if KeyOf(ports, c) == k && h == "" && !k.server then c.hostname else h
  {
    hide First;
    FirstSnoc(rows, c, Both(InGroup(ports, k), Named));
    FirstHolds(rows, Both(InGroup(ports, k), Named));
  }

  lemma {:induction false} NoGroup(rows: seq<Connection>, ports: Ports, k: GroupKey)
    requires k !in KeysOf(rows, ports)
    ensures GroupOf(rows, ports, k) == EMPTY_GROUP
  {
    if rows != [] {
      var n := |rows| - 1;
      var shorter := rows[..n];
      assert rows == shorter + [rows[n]];
      assert KeysOf(shorter, ports) <= KeysOf(rows, ports) by {
        forall i | 0 <= i < |shorter| ensures KeyOf(ports, shorter[i]) in KeysOf(rows, ports) {
          assert shorter[i] == rows[i];
        }
      }
      assert KeyOf(ports, rows[n]) in KeysOf(rows, ports);
      NoGroup(shorter, ports, k);
      GroupSnoc(shorter, rows[n], ports, k);
    }
  }

  lemma KeysSnoc(rows: seq<Connection>, c: Connection, ports: Ports)
    ensures KeysOf(rows + [c], ports) == KeysOf(rows, ports) + {KeyOf(ports, c)}
  {
    var more := rows + [c];
    assert more[|rows|] == c;
    forall i | 0 <= i < |rows| ensures KeyOf(ports, rows[i]) in KeysOf(more, ports) {
      assert more[i] == rows[i];
    }
  }

  /** Adds a connection to its grouped row, which is made if there is none. */
  method AddGroup(groups: map<GroupKey, Group>, c: Connection, ports: Ports, ghost rows: seq<Connection>)
    returns (more: map<GroupKey, Group>, key: GroupKey)
    requires Grouped(groups, rows, ports)
    ensures key == KeyOf(ports, c)
    ensures Grouped(more, rows + [c], ports)
  {
    key := KeyOf(ports, c);
    var row := if key in groups then groups[key] else EMPTY_GROUP;
    row := Plus(row, c, key.server);
    more := groups[key := row];
    AddedGroup(groups, more, row, c, ports, rows);
  }

  lemma AddedGroup(groups: map<GroupKey, Group>, more: map<GroupKey, Group>, row: Group, c: Connection,
                   ports: Ports, rows: seq<Connection>)
    requires Grouped(groups, rows, ports)
    requires more == groups[KeyOf(ports, c) := row]
    requires row == Plus(if KeyOf(ports, c) in groups then groups[KeyOf(ports, c)] else EMPTY_GROUP, c,
                         KeyOf(ports, c).server)
    ensures Grouped(more, rows + [c], ports)
  {
    hide GroupOf, Plus;
    var key := KeyOf(ports, c);
    KeysSnoc(rows, c, ports);
    forall k | k in more
      ensures more[k] == GroupOf(rows + [c], ports, k)
    {
      GroupSnoc(rows, c, ports, k);
      if k == key && k !in groups {
        NoGroup(rows, ports, k);
      }
    }
  }

  // Marking a row as reset after it finished.

  lemma InMark(rows: seq<Connection>, i: nat, ports: Ports, k: GroupKey, f: Connection -> nat)
    requires i < |rows|
    requires var c := rows[i]; f(c.(reset := true)) == f(c)
    ensures In(rows[i := rows[i].(reset := true)], ports, k, f) == In(rows, ports, k, f)
  {
    assert Keyed(ports)(rows[i].(reset := true)) == Keyed(ports)(rows[i]);
    SumUpdate(rows, i, rows[i].(reset := true), Only(InGroup(ports, k), f));
  }

  /** The mark plays no part in the group of a row. */
  lemma MarkMatches(c: Connection, ports: Ports, k: GroupKey, q: Connection -> bool)
    requires q(c.(reset := true)) == q(c)
    ensures Both(InGroup(ports, k), q)(c.(reset := true)) == Both(InGroup(ports, k), q)(c)
  {
    assert Keyed(ports)(c.(reset := true)) == Keyed(ports)(c);
  }

  lemma {:induction false} FirstMark(rows: seq<Connection>, i: nat, ports: Ports, k: GroupKey)
    requires i < |rows|
    ensures HostnameOf(rows[i := rows[i].(reset := true)], ports, k) == HostnameOf(rows, ports, k)
  {
    var p := Both(InGroup(ports, k), Named);
    var marked := rows[i := rows[i].(reset := true)];
    if i != 0 {
      if !p(rows[0]) {
        assert marked[1..] == rows[1..][i - 1 := rows[1..][i - 1].(reset := true)];
        FirstMark(rows[1..], i - 1, ports, k);
      }
    } else {
      assert marked[1..] == rows[1..];
      MarkMatches(rows[0], ports, k, Named);
    }
  }

  lemma ZeroWindowMark(rows: seq<Connection>, i: nat, ports: Ports, k: GroupKey)
    requires i < |rows|
    ensures Any(rows[i := rows[i].(reset := true)], Both(InGroup(ports, k), ZeroWindowed))
            <==> Any(rows, Both(InGroup(ports, k), ZeroWindowed))
  {
    var p := Both(InGroup(ports, k), ZeroWindowed);
    var marked := rows[i := rows[i].(reset := true)];
    forall j | 0 <= j < |rows|
      ensures p(marked[j]) <==> p(rows[j])
    {
      if j == i {
        MarkMatches(rows[j], ports, k, ZeroWindowed);
      }
    }
  }

  lemma ResetMark(rows: seq<Connection>, i: nat, ports: Ports, k: GroupKey)
    requires i < |rows| && !rows[i].reset
    ensures In(rows[i := rows[i].(reset := true)], ports, k, IsReset)
         == In(rows, ports, k, IsReset) + if KeyOf(ports, rows[i]) == k then 1 else 0
  {
    var c := rows[i].(reset := true);
    SumUpdate(rows, i, c, Only(InGroup(ports, k), IsReset));
    assert Keyed(ports)(c) == Keyed(ports)(rows[i]) == KeyOf(ports, rows[i]);
    assert IsReset(c) == 1 && IsReset(rows[i]) == 0;
  }

  /** A row that was not reset and now is adds one reset to its own group, and changes nothing else. */
  lemma GroupMark(rows: seq<Connection>, i: nat, ports: Ports, k: GroupKey)
    requires i < |rows| && !rows[i].reset
    ensures var g := GroupOf(rows, ports, k);
            GroupOf(rows[i := rows[i].(reset := true)], ports, k)
              == if KeyOf(ports, rows[i]) == k then g.(resets := g.resets + 1) else g
  {
    hide In, HostnameOf, Any;
    InMark(rows, i, ports, k, One);
    InMark(rows, i, ports, k, IsEstablished);
    InMark(rows, i, ports, k, IsIncomplete);
    InMark(rows, i, ports, k, IsExisting);
    InMark(rows, i, ports, k, ResendsOf);
    InMark(rows, i, ports, k, ConnectMSOf);
    InMark(rows, i, ports, k, ConnectedOf);
    InMark(rows, i, ports, k, RttOf);
    InMark(rows, i, ports, k, RttSeen);
    InMark(rows, i, ports, k, LostOf);
    InMark(rows, i, ports, k, AcceptNSOf);
    InMark(rows, i, ports, k, AcceptSeen);
    InMark(rows, i, ports, k, TxOf);
    InMark(rows, i, ports, k, RxOf);
    ResetMark(rows, i, ports, k);
    FirstMark(rows, i, ports, k);
    ZeroWindowMark(rows, i, ports, k);
  }

  lemma TotalsMark(rows: seq<Connection>, i: nat)
    requires i < |rows| && !rows[i].reset
    ensures var t := TotalsOf(rows); TotalsOf(rows[i := rows[i].(reset := true)]) == t.(resets := t.resets + 1)
  {
    var c := rows[i].(reset := true);
    SumUpdate(rows, i, c, IsAttempt);
    SumUpdate(rows, i, c, IsEstablished);
    SumUpdate(rows, i, c, IsIncomplete);
    SumUpdate(rows, i, c, IsExisting);
    SumUpdate(rows, i, c, ResendsOf);
    SumUpdate(rows, i, c, IsReset);
  }

  lemma KeysMark(rows: seq<Connection>, i: nat, ports: Ports)
    requires i < |rows|
    ensures KeysOf(rows[i := rows[i].(reset := true)], ports) == KeysOf(rows, ports)
  {
    var marked := rows[i := rows[i].(reset := true)];
    forall j | 0 <= j < |rows|
      ensures KeyOf(ports, marked[j]) == KeyOf(ports, rows[j])
    {
    }
  }

  lemma GroupedMark(groups: map<GroupKey, Group>, rows: seq<Connection>, ports: Ports, i: nat, key: GroupKey)
    requires Grouped(groups, rows, ports) && i < |rows| && !rows[i].reset && key == KeyOf(ports, rows[i])
    ensures key in groups
    ensures Grouped(groups[key := groups[key].(resets := groups[key].resets + 1)],
                    rows[i := rows[i].(reset := true)], ports)
  {
    hide GroupOf;
    KeysMark(rows, i, ports);
    assert key in KeysOf(rows, ports);
    var more := groups[key := groups[key].(resets := groups[key].resets + 1)];
    forall k | k in more
      ensures more[k] == GroupOf(rows[i := rows[i].(reset := true)], ports, k)
    {
      MarkedEntry(groups, rows, ports, i, key, k);
    }
  }

  lemma MarkedEntry(groups: map<GroupKey, Group>, rows: seq<Connection>, ports: Ports, i: nat, key: GroupKey,
                    k: GroupKey)
    requires i < |rows| && !rows[i].reset && key == KeyOf(ports, rows[i])
    requires key in groups && k in groups && groups[k] == GroupOf(rows, ports, k)
    ensures groups[key := groups[key].(resets := groups[key].resets + 1)][k]
            == GroupOf(rows[i := rows[i].(reset := true)], ports, k)
  {
    GroupMark(rows, i, ports, k);
  }

  ghost function Column(groups: map<GroupKey, Group>, column: Group -> nat): GroupKey -> nat {
    k => if k in groups then column(groups[k]) else 0
  }

  function Connections(g: Group): nat { g.connections }
  function EstablishedIn(g: Group): nat { g.established }
  function IncompleteIn(g: Group): nat { g.incomplete }
  function ExistingIn(g: Group): nat { g.existing }
  function ResetsIn(g: Group): nat { g.resets }
  function RetransmissionsIn(g: Group): nat { g.retransmissions }

  lemma ColumnTotal(groups: map<GroupKey, Group>, rows: seq<Connection>, ports: Ports, column: Group -> nat,
                    f: Connection -> nat)
    requires groups.Keys == KeysOf(rows, ports)
    requires forall k :: k in groups ==> column(groups[k]) == In(rows, ports, k, f)
    ensures SumSet(groups.Keys, Column(groups, column)) == Sum(rows, f)
  {
    forall i | 0 <= i < |rows|
      ensures Keyed(ports)(rows[i]) in groups.Keys
    {
    }
    SumPartition(rows, groups.Keys, Keyed(ports), f);
    SumSetCong(groups.Keys, PerClass(rows, Keyed(ports), f), Column(groups, column));
  }

  /** Conservation: each total is the column sum of the grouped rows. */
  lemma GroupsSumToTotals(groups: map<GroupKey, Group>, rows: seq<Connection>, ports: Ports)
    requires Grouped(groups, rows, ports)
    ensures var t := TotalsOf(rows);
            && SumSet(groups.Keys, Column(groups, Connections)) == |rows|
            && SumSet(groups.Keys, Column(groups, EstablishedIn)) == t.established
            && SumSet(groups.Keys, Column(groups, IncompleteIn)) == t.incomplete
            && SumSet(groups.Keys, Column(groups, ExistingIn)) == t.existing
            && SumSet(groups.Keys, Column(groups, ResetsIn)) == t.resets
            && SumSet(groups.Keys, Column(groups, RetransmissionsIn)) == t.retransmissions
  {
    SumOnes(rows);
    ColumnTotal(groups, rows, ports, Connections, One);
    ColumnTotal(groups, rows, ports, EstablishedIn, IsEstablished);
    ColumnTotal(groups, rows, ports, IncompleteIn, IsIncomplete);
    ColumnTotal(groups, rows, ports, ExistingIn, IsExisting);
    ColumnTotal(groups, rows, ports, ResetsIn, IsReset);
    ColumnTotal(groups, rows, ports, RetransmissionsIn, ResendsOf);
  }

  lemma {:induction false} SumOnes(rows: seq<Connection>)
    ensures Sum(rows, One) == |rows|
  {
    if rows != [] {
      SumOnes(rows[..|rows| - 1]);
    }
  }
}
