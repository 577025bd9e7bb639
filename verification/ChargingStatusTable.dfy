/** The charging status view of one group (src/components/ChargingStatusTable.tsx): the
    gauge maximum, one table row per charger connector, the count of connectors per status,
    the charging history shown for a row, and the unit conversions of two columns. */
module ChargingStatusTable {
  import opened Types

  // ---------------------------------------------------------------------------------------
  // Gauge maximum
  // ---------------------------------------------------------------------------------------

  /** The largest allocation among the group's `max_allocation_now` entries (component 1 of
      each), never below 0. */
  method GetMaxAllocation(maxAlloc: seq<(int, real)>) returns (max: real)
    ensures 0.0 <= max
    ensures forall i :: 0 <= i < |maxAlloc| ==> maxAlloc[i].1 <= max
    ensures max == 0.0 || exists i :: 0 <= i < |maxAlloc| && max == maxAlloc[i].1
  {
    max := 0.0;
    var i := 0;
    while i < |maxAlloc|
      invariant 0 <= i <= |maxAlloc|
      invariant 0.0 <= max
      invariant forall j :: 0 <= j < i ==> maxAlloc[j].1 <= max
      invariant max == 0.0 || exists j :: 0 <= j < i && max == maxAlloc[j].1
    {
      if maxAlloc[i].1 > max {
        max := maxAlloc[i].1;
      }
      i := i + 1;
    }
  }

  // ---------------------------------------------------------------------------------------
  // Row identifiers: "<charger id>/<connector id>"
  // ---------------------------------------------------------------------------------------

  const Slash: char := '/'

  predicate NoSlash(s: string) {
    forall i :: 0 <= i < |s| ==> s[i] != Slash
  }

  /** The parts of `s` between slashes, as String.split("/") returns them. */
  function Split(s: string): (parts: seq<string>)
    ensures 0 < |parts|
    ensures forall i :: 0 <= i < |parts| ==> NoSlash(parts[i])
    decreases |s|
  {
    if s == [] then [""]
    else if s[0] == Slash then [""] + Split(s[1..])
    else
      var rest := Split(s[1..]);
      [[s[0]] + rest[0]] + rest[1..]
  }

  /** The parts joined with slashes between them. */
  function Join(parts: seq<string>): string
    requires 0 < |parts|
  {
    if |parts| == 1 then parts[0] else parts[0] + [Slash] + Join(parts[1..])
  }

  /** Splitting loses nothing: joining the parts gives back the string. */
  lemma {:induction false} JoinSplit(s: string)
    ensures Join(Split(s)) == s
    decreases |s|
  {
    if s == [] {
    } else if s[0] == Slash {
      JoinSplit(s[1..]);
      assert Split(s)[1..] == Split(s[1..]);
    } else {
      JoinSplit(s[1..]);
      var rest := Split(s[1..]);
      assert Split(s)[1..] == rest[1..];
      if |rest| > 1 {
        assert Join(rest) == rest[0] + [Slash] + Join(rest[1..]);
      }
    }
  }

  /** A string without a slash is one part. */
  lemma {:induction false} SplitNoSlash(s: string)
    requires NoSlash(s)
    ensures Split(s) == [s]
    decreases |s|
  {
    if s != [] {
      assert NoSlash(s[1..]) by {
        assert forall i :: 0 <= i < |s| - 1 ==> s[1..][i] == s[i + 1];
      }
      SplitNoSlash(s[1..]);
      assert s[0] != Slash;
      assert [s[0]] + s[1..] == s;
    }
  }

  /** A slash-free part followed by a slash splits off as the first part. */
  lemma {:induction false} SplitFirst(a: string, b: string)
    requires NoSlash(a)
    ensures Split(a + [Slash] + b) == [a] + Split(b)
    decreases |a|
  {
    if a == [] {
      assert a + [Slash] + b == [Slash] + b;
      assert ([Slash] + b)[1..] == b;
    } else {
      assert (a + [Slash] + b)[1..] == a[1..] + [Slash] + b;
      SplitFirst(a[1..], b);
      assert [a[0]] + a[1..] == a;
    }
  }

  /** The row id round-trips: splitting "<charger>/<connector>" gives the two ids back when
      neither contains a slash. */
  lemma RowIdRoundTrip(chargerId: string, connectorId: string)
    requires NoSlash(chargerId) && NoSlash(connectorId)
    ensures Split(RowId(chargerId, connectorId)) == [chargerId, connectorId]
  {
    SplitFirst(chargerId, connectorId);
    SplitNoSlash(connectorId);
  }

  function RowId(chargerId: string, connectorId: string): string {
    chargerId + [Slash] + connectorId
  }

  // ---------------------------------------------------------------------------------------
  // Connector rows
  // ---------------------------------------------------------------------------------------

  /** A CONNECTOR_DATA row. The transaction columns are absent (null) without a transaction;
      the start time is kept as a timestamp rather than formatted. */
  datatype ConnectorRow = ConnectorRow(
    id: string,
    alias: string,
    connectorId: string,
    chargerId: string,
    status: string,
    priority: int,
    offered: real,
    idTag: Option<string>,
    startTime: Option<int>,
    userName: Option<string>,
    usageMeter: Option<real>,
    energyMeter: Option<real>,
    networkConnected: bool)

  const UnknownStatus: string := "Unknown"

  /** The row of connector `j` of charger `c`. A start time of None stands for the empty string
      the table shows when the connector has no transaction. */
  function RowOf(c: Charger, j: nat): (row: ConnectorRow)
    requires j < |c.connectors|
    ensures row.id == RowId(c.chargerId, c.connectors[j].0)
    ensures row.chargerId == c.chargerId && row.connectorId == c.connectors[j].0
    ensures row.alias == c.alias && row.networkConnected == c.networkConnected
    ensures row.priority == c.connectors[j].1.priority && row.offered == c.connectors[j].1.offered
    ensures c.connectors[j].1.status.Some? ==> row.status == c.connectors[j].1.status.value
    ensures c.connectors[j].1.status.None? ==> row.status == UnknownStatus
    ensures c.connectors[j].1.transaction.None? <==> row.idTag.None?
    ensures c.connectors[j].1.transaction.None? <==> row.startTime.None?
    ensures c.connectors[j].1.transaction.None? <==> row.userName.None?
    ensures c.connectors[j].1.transaction.None? <==> row.energyMeter.None?
    ensures c.connectors[j].1.transaction.None? ==> row.usageMeter.None?
    ensures c.connectors[j].1.transaction.Some? ==>
      var tx := c.connectors[j].1.transaction.value;
      row.idTag == Some(tx.idTag) && row.startTime == Some(tx.startTime) && row.userName == Some(tx.userName) &&
      row.usageMeter == tx.usageMeter && row.energyMeter == Some(tx.energyMeter)
  {
    var (key, conn) := c.connectors[j];
    var tx := conn.transaction;
    ConnectorRow(
      c.chargerId + [Slash] + key, c.alias, key, c.chargerId,
      conn.status.GetOr(UnknownStatus), conn.priority, conn.offered,
      if tx.Some? then Some(tx.value.idTag) else None,
      if tx.Some? then Some(tx.value.startTime) else None,
      if tx.Some? then Some(tx.value.userName) else None,
      if tx.Some? then tx.value.usageMeter else None,
      if tx.Some? then Some(tx.value.energyMeter) else None,
      c.networkConnected)
  }

  function ChargerRows(c: Charger): (rows: seq<ConnectorRow>)
    ensures |rows| == |c.connectors|
    ensures forall j :: 0 <= j < |c.connectors| ==> rows[j] == RowOf(c, j)
  {
    seq(|c.connectors|, j requires 0 <= j < |c.connectors| => RowOf(c, j))
  }

  /** The rows of every connector of every charger, charger by charger. */
  function Rows(chargers: seq<Charger>): seq<ConnectorRow> {
    if chargers == [] then [] else Rows(chargers[..|chargers| - 1]) + ChargerRows(chargers[|chargers| - 1])
  }

  function ConnectorCount(chargers: seq<Charger>): nat {
    if chargers == [] then 0 else ConnectorCount(chargers[..|chargers| - 1]) + |chargers[|chargers| - 1].connectors|
  }

  predicate IsConnectorRow(chargers: seq<Charger>, row: ConnectorRow) {
    exists i, j :: 0 <= i < |chargers| && 0 <= j < |chargers[i].connectors| && row == RowOf(chargers[i], j)
  }

  /** There is exactly one row per (charger, connector): every row is some connector's row
      and every connector has its row. */
  lemma RowsAreConnectors(chargers: seq<Charger>)
    ensures |Rows(chargers)| == ConnectorCount(chargers)
    ensures forall row :: row in Rows(chargers) <==> IsConnectorRow(chargers, row)
  {
    RowsCount(chargers);
    forall row
      ensures row in Rows(chargers) <==> IsConnectorRow(chargers, row)
    {
      RowsSound(chargers, row);
      RowsComplete(chargers, row);
    }
  }

  lemma {:induction false} RowsCount(chargers: seq<Charger>)
    ensures |Rows(chargers)| == ConnectorCount(chargers)
  {
    if chargers != [] {
      RowsCount(chargers[..|chargers| - 1]);
    }
  }

  lemma {:induction false} RowsSound(chargers: seq<Charger>, row: ConnectorRow)
    ensures row in Rows(chargers) ==> IsConnectorRow(chargers, row)
  {
    if chargers != [] && row in Rows(chargers) {
      var n := |chargers| - 1;
      var init := chargers[..n];
      if row in Rows(init) {
        RowsSound(init, row);
        var i, j :| 0 <= i < |init| && 0 <= j < |init[i].connectors| && row == RowOf(init[i], j);
        assert chargers[i] == init[i];
      } else {
        var j :| 0 <= j < |chargers[n].connectors| && ChargerRows(chargers[n])[j] == row;
      }
    }
  }

  lemma {:induction false} RowsComplete(chargers: seq<Charger>, row: ConnectorRow)
    ensures IsConnectorRow(chargers, row) ==> row in Rows(chargers)
  {
    if IsConnectorRow(chargers, row) {
      var n := |chargers| - 1;
      var init := chargers[..n];
      var i, j :| 0 <= i < |chargers| && 0 <= j < |chargers[i].connectors| && row == RowOf(chargers[i], j);
      if i < n {
        assert init[i] == chargers[i];
        RowsComplete(init, row);
      } else {
        assert ChargerRows(chargers[n])[j] == row;
      }
    }
  }

  /** The row flattening: one row per connector entry of each charger, in order. */
  method FlattenConnectors(chargers: seq<Charger>) returns (result: seq<ConnectorRow>)
    ensures result == Rows(chargers)
  {
    result := [];
    var i := 0;
    while i < |chargers|
      invariant 0 <= i <= |chargers|
      invariant result == Rows(chargers[..i])
    {
      assert chargers[..i + 1][..i] == chargers[..i];
      var charger := chargers[i];
      ghost var before := result;
      var j := 0;
      while j < |charger.connectors|
        invariant 0 <= j <= |charger.connectors|
        invariant result == before + ChargerRows(charger)[..j]
      {
        var (id, connector) := charger.connectors[j];
        var status := connector.status.GetOr(UnknownStatus);
        var tx := connector.transaction;
        var row := ConnectorRow(
          charger.chargerId + [Slash] + id, charger.alias, id, charger.chargerId,
          status, connector.priority, connector.offered,
          if tx.Some? then Some(tx.value.idTag) else None,
          if tx.Some? then Some(tx.value.startTime) else None,
          if tx.Some? then Some(tx.value.userName) else None,
          if tx.Some? then tx.value.usageMeter else None,
          if tx.Some? then Some(tx.value.energyMeter) else None,
          charger.networkConnected);
        assert row == ChargerRows(charger)[j];
        assert ChargerRows(charger)[..j + 1] == ChargerRows(charger)[..j] + [row];
        result := result + [row];
        j := j + 1;
      }
      assert ChargerRows(charger)[..j] == ChargerRows(charger);
      i := i + 1;
    }
    assert chargers[..i] == chargers;
  }

  // ---------------------------------------------------------------------------------------
  // Status counts: a Map from status to number of rows, in insertion order
  // ---------------------------------------------------------------------------------------

  /** A JavaScript Map from status to count: its entries in insertion order. */
  type StatusCounts = seq<(string, nat)>

  predicate DistinctKeys(m: StatusCounts) {
    forall i, j :: 0 <= i < j < |m| ==> m[i].0 != m[j].0
  }

  /** Map.get. */
  function Get(m: StatusCounts, k: string): Option<nat> {
    if m == [] then None
    else if m[0].0 == k then Some(m[0].1)
    else Get(m[1..], k)
  }

  /** Map.set: a present key keeps its place and takes the new value; a new key goes last. */
  function Set(m: StatusCounts, k: string, v: nat): StatusCounts {
    if m == [] then [(k, v)]
    else if m[0].0 == k then [(k, v)] + m[1..]
    else [m[0]] + Set(m[1..], k, v)
  }

  /** After Map.set, the key reads the new value and every other key reads as before. */
  lemma {:induction false} GetSet(m: StatusCounts, k: string, v: nat, k2: string)
    ensures Get(Set(m, k, v), k2) == if k2 == k then Some(v) else Get(m, k2)
  {
    if m != [] && m[0].0 != k {
      GetSet(m[1..], k, v, k2);
      assert Set(m, k, v)[1..] == Set(m[1..], k, v);
    }
  }

  /** Map.get finds a key exactly when some entry has it. */
  lemma {:induction false} GetFinds(m: StatusCounts, k: string)
    ensures Get(m, k).None? <==> forall i :: 0 <= i < |m| ==> m[i].0 != k
    ensures Get(m, k).Some? ==> exists i :: 0 <= i < |m| && m[i] == (k, Get(m, k).value)
  {
    if m != [] && m[0].0 != k {
      GetFinds(m[1..], k);
      assert forall i :: 1 <= i < |m| ==> m[1..][i - 1] == m[i];
    }
  }

  /** Map.set keeps the keys distinct and adds no key but its own. */
  lemma {:induction false} SetDistinct(m: StatusCounts, k: string, v: nat)
    requires DistinctKeys(m)
    ensures DistinctKeys(Set(m, k, v))
    ensures forall i :: 0 <= i < |Set(m, k, v)| ==>
      Set(m, k, v)[i].0 == k || exists j :: 0 <= j < |m| && m[j].0 == Set(m, k, v)[i].0
  {
    var r := Set(m, k, v);
    if m == [] {
    } else if m[0].0 == k {
      forall i | 0 < i < |r|
        ensures r[i] == m[i]
      {
      }
    } else {
      var rest := m[1..];
      SetDistinct(rest, k, v);
      assert r[1..] == Set(rest, k, v);
      forall i | 1 <= i < |r|
        ensures r[i].0 != m[0].0
        ensures r[i].0 == k || exists j :: 0 <= j < |m| && m[j].0 == r[i].0
      {
        assert r[i] == Set(rest, k, v)[i - 1];
        if r[i].0 != k {
          var j :| 0 <= j < |rest| && rest[j].0 == r[i].0;
          assert m[j + 1].0 == r[i].0;
        }
      }
    }
  }

  function SumCounts(m: StatusCounts): nat {
    if m == [] then 0 else m[0].1 + SumCounts(m[1..])
  }

  /** Map.set changes the sum of the counts by the new value less the old one. */
  lemma {:induction false} SetSum(m: StatusCounts, k: string, v: nat)
    ensures SumCounts(Set(m, k, v)) == SumCounts(m) - Get(m, k).GetOr(0) + v
  {
    if m != [] && m[0].0 != k {
      SetSum(m[1..], k, v);
      assert Set(m, k, v)[1..] == Set(m[1..], k, v);
    }
  }

  /** The number of rows whose status is `s`. */
  function CountOf(statuses: seq<string>, s: string): nat {
    if statuses == [] then 0
    else CountOf(statuses[..|statuses| - 1], s) + (if statuses[|statuses| - 1] == s then 1 else 0)
  }

  /** The map after the statuses were counted one by one. */
  function Tally(statuses: seq<string>): (r: StatusCounts)
    ensures DistinctKeys(r)
    ensures forall i :: 0 <= i < |r| ==> r[i].0 in statuses
  {
    if statuses == [] then []
    else
      var m := Tally(statuses[..|statuses| - 1]);
      var s := statuses[|statuses| - 1];
      SetDistinct(m, s, Get(m, s).GetOr(0) + 1);
      Set(m, s, Get(m, s).GetOr(0) + 1)
  }

  function CountAsEntry(c: nat): Option<nat> {
    if c == 0 then None else Some(c)
  }

  /** Each status maps to the number of rows with that status, and a status no row has is
      absent. */
  lemma {:induction false} TallyCounts(statuses: seq<string>, s: string)
    ensures Get(Tally(statuses), s) == CountAsEntry(CountOf(statuses, s))
  {
    if statuses != [] {
      var init := statuses[..|statuses| - 1];
      var x := statuses[|statuses| - 1];
      var m := Tally(init);
      TallyCounts(init, s);
      TallyCounts(init, x);
      GetSet(m, x, Get(m, x).GetOr(0) + 1, s);
    }
  }

  /** Some row has status `s` exactly when `s` occurs among the statuses. */
  lemma {:induction false} CountOfPositive(statuses: seq<string>, s: string)
    ensures CountOf(statuses, s) > 0 <==> s in statuses
  {
    if statuses != [] {
      var init := statuses[..|statuses| - 1];
      CountOfPositive(init, s);
      assert statuses == init + [statuses[|statuses| - 1]];
    }
  }

  /** The map's keys are exactly the statuses that occur. */
  lemma TallyKeys(statuses: seq<string>, s: string)
    ensures (exists i :: 0 <= i < |Tally(statuses)| && Tally(statuses)[i].0 == s) <==> s in statuses
  {
    TallyCounts(statuses, s);
    GetFinds(Tally(statuses), s);
    CountOfPositive(statuses, s);
  }


  /** The counts add up to the number of rows. */
  lemma {:induction false} TallySum(statuses: seq<string>)
    ensures SumCounts(Tally(statuses)) == |statuses|
  {
    if statuses != [] {
      var init := statuses[..|statuses| - 1];
      TallySum(init);
      var m := Tally(init);
      var s := statuses[|statuses| - 1];
      SetSum(m, s, Get(m, s).GetOr(0) + 1);
    }
  }

  function Statuses(rows: seq<ConnectorRow>): (ss: seq<string>)
    ensures |ss| == |rows|
    ensures forall i :: 0 <= i < |rows| ==> ss[i] == rows[i].status
  {
    seq(|rows|, i requires 0 <= i < |rows| => rows[i].status)
  }

  /** The status-count memo: one Map.set per row, with the previous count or 0 plus one. */
  method CountStatuses(rows: seq<ConnectorRow>) returns (result: StatusCounts)
    ensures result == Tally(Statuses(rows))
  {
    result := [];
    var i := 0;
    while i < |rows|
      invariant 0 <= i <= |rows|
      invariant result == Tally(Statuses(rows)[..i])
    {
      assert Statuses(rows)[..i + 1][..i] == Statuses(rows)[..i];
      var status := rows[i].status;
      result := Set(result, status, Get(result, status).GetOr(0) + 1);
      i := i + 1;
    }
    assert Statuses(rows)[..i] == Statuses(rows);
  }

  // ---------------------------------------------------------------------------------------
  // Charging history of a row
  // ---------------------------------------------------------------------------------------

  /** Array.find: the first charger with the id. */
  function FindCharger(chargers: seq<Charger>, id: string): (c: Option<Charger>)
    ensures c.Some? ==> c.value in chargers && c.value.chargerId == id
    ensures c.Some? ==>
      exists i :: 0 <= i < |chargers| && chargers[i] == c.value && (forall a :: 0 <= a < i ==> chargers[a].chargerId != id)
    ensures c.None? <==> forall i :: 0 <= i < |chargers| ==> chargers[i].chargerId != id
  {
    if chargers == [] then None
    else if chargers[0].chargerId == id then Some(chargers[0])
    else
      var c := FindCharger(chargers[1..], id);
      assert forall a :: 1 <= a < |chargers| ==> chargers[1..][a - 1] == chargers[a];
      c
  }

  /** The charger at the first index with the id is the one found. */
  lemma {:induction false} FindChargerFirst(chargers: seq<Charger>, id: string, i: nat)
    requires i < |chargers| && chargers[i].chargerId == id
    requires forall a :: 0 <= a < i ==> chargers[a].chargerId != id
    ensures FindCharger(chargers, id) == Some(chargers[i])
  {
    if i > 0 {
      assert chargers[0].chargerId != id;
      assert forall a :: 0 <= a < i - 1 ==> chargers[1..][a] == chargers[a + 1];
      FindChargerFirst(chargers[1..], id, i - 1);
    }
  }

  /** The connector stored under a key of the charger's connector object. */
  function ConnectorAt(connectors: seq<(string, Connector)>, key: string): (c: Option<Connector>)
    ensures c.None? <==> forall j :: 0 <= j < |connectors| ==> connectors[j].0 != key
    ensures c.Some? ==> exists j :: 0 <= j < |connectors| && connectors[j] == (key, c.value)
  {
    if connectors == [] then None
    else if connectors[0].0 == key then Some(connectors[0].1)
    else
      var c := ConnectorAt(connectors[1..], key);
      assert forall j :: 1 <= j < |connectors| ==> connectors[1..][j - 1] == connectors[j];
      c
  }

  /** The connector at the first position with the key is the one found. */
  lemma {:induction false} ConnectorAtFirst(connectors: seq<(string, Connector)>, key: string, j: nat)
    requires j < |connectors| && connectors[j].0 == key
    requires forall b :: 0 <= b < j ==> connectors[b].0 != key
    ensures ConnectorAt(connectors, key) == Some(connectors[j].1)
  {
    if j > 0 {
      assert connectors[0].0 != key;
      assert forall b :: 0 <= b < j - 1 ==> connectors[1..][b] == connectors[b + 1];
      ConnectorAtFirst(connectors[1..], key, j - 1);
    }
  }

  /** The transaction a row id leads to: the charger with the id's first part, its connector
      under the second part (a missing part is looked up as the key "undefined", as
      JavaScript converts it), and that connector's transaction. */
  function FindTransaction(chargers: seq<Charger>, fullId: string): (t: Option<Transaction>)
    ensures FindCharger(chargers, Split(fullId)[0]).None? ==> t.None?
    ensures t.Some? ==>
      var parts := Split(fullId);
      exists i, j :: 0 <= i < |chargers| && 0 <= j < |chargers[i].connectors| &&
        chargers[i].chargerId == parts[0] &&
        chargers[i].connectors[j].0 == (if |parts| > 1 then parts[1] else "undefined") &&
        chargers[i].connectors[j].1.transaction == t
  {
    var parts := Split(fullId);
    var key := if |parts| > 1 then parts[1] else "undefined";
    match FindCharger(chargers, parts[0])
    case None => None
    case Some(c) =>
      match ConnectorAt(c.connectors, key)
      case None => None
      case Some(conn) => conn.transaction
  }

  /** The transaction found is that of the first charger with the id's first part, under its
      first connector with the key; when that charger has no such connector, nothing is found. */
  lemma FindTransactionFirst(chargers: seq<Charger>, fullId: string, i: nat)
    requires i < |chargers| && chargers[i].chargerId == Split(fullId)[0]
    requires forall a :: 0 <= a < i ==> chargers[a].chargerId != Split(fullId)[0]
    ensures var parts := Split(fullId);
      var key := if |parts| > 1 then parts[1] else "undefined";
      && ((forall b :: 0 <= b < |chargers[i].connectors| ==> chargers[i].connectors[b].0 != key) ==>
            FindTransaction(chargers, fullId).None?)
      && (forall j :: 0 <= j < |chargers[i].connectors| && chargers[i].connectors[j].0 == key
            && (forall b :: 0 <= b < j ==> chargers[i].connectors[b].0 != key)
            ==> FindTransaction(chargers, fullId) == chargers[i].connectors[j].1.transaction)
  {
    var parts := Split(fullId);
    var key := if |parts| > 1 then parts[1] else "undefined";
    FindChargerFirst(chargers, parts[0], i);
    forall j | 0 <= j < |chargers[i].connectors| && chargers[i].connectors[j].0 == key &&
        (forall b :: 0 <= b < j ==> chargers[i].connectors[b].0 != key)
      ensures FindTransaction(chargers, fullId) == chargers[i].connectors[j].1.transaction
    {
      ConnectorAtFirst(chargers[i].connectors, key, j);
    }
  }

  /** A row's own id leads to its connector's transaction when charger ids are unique and no
      id contains a slash. */
  lemma RowFindsItsTransaction(chargers: seq<Charger>, i: nat, j: nat)
    requires i < |chargers| && j < |chargers[i].connectors|
    requires forall a, b :: 0 <= a < b < |chargers| ==> chargers[a].chargerId != chargers[b].chargerId
    requires forall a, b :: 0 <= a < b < |chargers[i].connectors| ==>
      chargers[i].connectors[a].0 != chargers[i].connectors[b].0
    requires NoSlash(chargers[i].chargerId) && NoSlash(chargers[i].connectors[j].0)
    ensures FindTransaction(chargers, RowOf(chargers[i], j).id) == chargers[i].connectors[j].1.transaction
  {
    var c := chargers[i];
    RowIdRoundTrip(c.chargerId, c.connectors[j].0);
    var found := FindCharger(chargers, c.chargerId);
    assert found == Some(c) by {
      FindChargerUnique(chargers, i);
    }
    var conn := ConnectorAt(c.connectors, c.connectors[j].0);
    assert conn.Some?;
    var j2 :| 0 <= j2 < |c.connectors| && c.connectors[j2] == (c.connectors[j].0, conn.value);
    assert j2 == j;
  }

  lemma FindChargerUnique(chargers: seq<Charger>, i: nat)
    requires i < |chargers|
    requires forall a, b :: 0 <= a < b < |chargers| ==> chargers[a].chargerId != chargers[b].chargerId
    ensures FindCharger(chargers, chargers[i].chargerId) == Some(chargers[i])
  {
    if i > 0 {
      assert chargers[0].chargerId != chargers[i].chargerId;
      FindChargerUnique(chargers[1..], i - 1);
    }
  }

  /** The entry appended for "now": the latest non-null readings, no energy. */
  function NowEntry(h: seq<ChargingEntry>, now: int): (e: ChargingEntry)
    ensures e.timestamp == now && e.wh == 0.0 && e.kwhTotal.None?
    ensures forall r :: ReadingOf(e, r) == LatestReading(h, r)
  {
    ChargingEntry(now, LatestReading(h, Offered), LatestReading(h, Usage), 0.0, 0.0, 0.0, 0.0, None)
  }

  /** The history as shown: an empty history stays empty; otherwise the "now" entry is
      appended. */
  function WithNowEntry(h: seq<ChargingEntry>, now: int): (w: seq<ChargingEntry>)
    ensures h == [] ==> w == []
    ensures h != [] ==> |w| == |h| + 1 && w[..|h|] == h && w[|h|] == NowEntry(h, now)
  {
    if h == [] then [] else h + [NowEntry(h, now)]
  }

  /** A non-empty history keeps its entries and gains one entry at `now` without energy, whose
      readings are those of the latest entry with a non-null reading, or null when none has
      one. */
  lemma WithNowEntryShape(h: seq<ChargingEntry>, now: int, r: Reading)
    requires h != []
    ensures var w := WithNowEntry(h, now);
      && |w| == |h| + 1 && w[..|h|] == h
      && w[|h|].timestamp == now && w[|h|].wh == 0.0
      && (ReadingOf(w[|h|], r).None? <==> forall i :: 0 <= i < |h| ==> ReadingOf(h[i], r).None?)
      && (ReadingOf(w[|h|], r).Some? ==>
            exists i :: (0 <= i < |h| && ReadingOf(h[i], r) == ReadingOf(w[|h|], r) &&
              forall k :: i < k < |h| ==> ReadingOf(h[k], r).None?))
  {
    var w := WithNowEntry(h, now);
    assert w[|h|] == NowEntry(h, now);
    assert ReadingOf(w[|h|], r) == LatestReading(h, r);
  }

  /** The backward scan for the latest non-null reading. */
  method LastReading(h: seq<ChargingEntry>, r: Reading) returns (v: Option<real>)
    ensures v == LatestReading(h, r)
  {
    v := None;
    var i := |h| - 1;
    assert h[..i + 1] == h;
    while i >= 0
      invariant -1 <= i < |h|
      invariant LatestReading(h, r) == LatestReading(h[..i + 1], r)
    {
      LatestReadingStep(h, i, r);
      if ReadingOf(h[i], r).Some? {
        v := ReadingOf(h[i], r);
        return;
      }
      i := i - 1;
    }
  }

  /** Every transaction of the chargers' connectors. */
  function Transactions(chargers: seq<Charger>): set<Transaction> {
    set i, j | 0 <= i < |chargers| && 0 <= j < |chargers[i].connectors| && chargers[i].connectors[j].1.transaction.Some?
      :: chargers[i].connectors[j].1.transaction.value
  }

  lemma FoundIsTransaction(chargers: seq<Charger>, fullId: string)
    ensures FindTransaction(chargers, fullId).Some? ==> FindTransaction(chargers, fullId).value in Transactions(chargers)
  {
    var parts := Split(fullId);
    var key := if |parts| > 1 then parts[1] else "undefined";
    var fc := FindCharger(chargers, parts[0]);
    if fc.Some? {
      var c := fc.value;
      var i :| 0 <= i < |chargers| && chargers[i] == c;
      var conn := ConnectorAt(c.connectors, key);
      if conn.Some? && conn.value.transaction.Some? {
        var j :| 0 <= j < |c.connectors| && c.connectors[j] == (key, conn.value);
        assert chargers[i].connectors[j].1.transaction.value in Transactions(chargers);
      }
    }
  }

  /** get_history_data: finds the row's transaction and, when its history is non-empty, pushes
      the "now" entry onto the transaction's own history, which it returns. */
  method GetHistoryData(chargers: seq<Charger>, fullId: string, now: int) returns (history: seq<ChargingEntry>)
    modifies Transactions(chargers)
    ensures var found := FindTransaction(chargers, fullId);
      && (found.None? ==> history == [])
      && (found.Some? ==> history == found.value.chargingHistory == WithNowEntry(old(found.value.chargingHistory), now))
      && forall t :: t in Transactions(chargers) && found != Some(t) ==> t.chargingHistory == old(t.chargingHistory)
  {
    var parts := Split(fullId);
    var key := if |parts| > 1 then parts[1] else "undefined";
    var charger := FindCharger(chargers, parts[0]);
    if charger.None? {
      return [];
    }
    var connector := ConnectorAt(charger.value.connectors, key);
    if connector.None? {
      return [];
    }
    var transaction := connector.value.transaction;
    if transaction.None? {
      return [];
    }
    var tx := transaction.value;
    FoundIsTransaction(chargers, fullId);
    history := tx.chargingHistory;
    if |history| > 0 {
      var lastOffered := LastReading(history, Offered);
      var lastUsage := LastReading(history, Usage);
      tx.chargingHistory := tx.chargingHistory + [ChargingEntry(now, lastOffered, lastUsage, 0.0, 0.0, 0.0, 0.0, None)];
      history := tx.chargingHistory;
    }
  }

  // ---------------------------------------------------------------------------------------
  // Column conversions
  // ---------------------------------------------------------------------------------------

  /** Usage (kW) from a three-phase current in amperes at 230 V; null stays null. */
  function UsageKw(usageMeter: Option<real>): (kw: Option<real>)
    ensures kw.None? <==> usageMeter.None?
    ensures kw.Some? ==> kw.value * 1000.0 == 690.0 * usageMeter.value
  {
    if usageMeter.None? then None else Some(3.0 * 230.0 * usageMeter.value / 1000.0)
  }

  /** Energy (kWh) from the meter in Wh; a missing meter (null) divides to 0. */
  function EnergyKwh(energyMeter: Option<real>): (kwh: real)
    ensures energyMeter.None? ==> kwh == 0.0
    ensures energyMeter.Some? ==> kwh * 1000.0 == energyMeter.value
  {
    energyMeter.GetOr(0.0) / 1000.0
  }
}
