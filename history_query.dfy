/** The three SQL statements the weather service runs against its
    `weather_history` table, as functions on the table's rows in insertion
    order. */
module HistoryQuery {

  /** A row of `weather_history`. The auto-increment id is the row's position
      in the sequence. */
  datatype Row = Row(temperature: real, humidity: real, timestamp: int)

  datatype Option<T> = None | Some(value: T)

  /** `WHERE timestamp >= since`, keeping table order. */
  function Since(rows: seq<Row>, since: int): (r: seq<Row>)
    ensures |r| <= |rows|
    ensures forall x :: x in r ==> x in rows && x.timestamp >= since
  {
    if rows == [] then []
    else if rows[0].timestamp >= since then [rows[0]] + Since(rows[1..], since)
    else Since(rows[1..], since)
  }

  /** The filter keeps every qualifying row as often as it occurs and drops
      every other row. */
  lemma {:induction false} SinceCount(rows: seq<Row>, since: int, x: Row)
    ensures multiset(Since(rows, since))[x]
         == if x.timestamp >= since then multiset(rows)[x] else 0
  {
    if rows != [] {
      SinceCount(rows[1..], since, x);
      assert rows == [rows[0]] + rows[1..];
    }
  }

  /** Rows in non-decreasing timestamp order. */
  predicate Ascending(s: seq<Row>) {
    forall i, j :: 0 <= i < j < |s| ==> s[i].timestamp <= s[j].timestamp
  }

  /** Inserts `x` before the first row with a greater or equal timestamp. */
  function Insert(x: Row, s: seq<Row>): (r: seq<Row>)
    ensures |r| == |s| + 1
    ensures multiset(r) == multiset(s) + multiset{x}
  {
    if s == [] || x.timestamp <= s[0].timestamp then [x] + s
    else
      assert s == [s[0]] + s[1..];
      [s[0]] + Insert(x, s[1..])
  }

  lemma {:induction false} InsertAscending(x: Row, s: seq<Row>)
    requires Ascending(s)
    ensures Ascending(Insert(x, s))
  {
    if s != [] && x.timestamp > s[0].timestamp {
      var t := Insert(x, s[1..]);
      InsertAscending(x, s[1..]);
      forall y | y in t ensures s[0].timestamp <= y.timestamp {
        assert y in multiset(t);
        assert y == x || y in multiset(s[1..]);
      }
      var r := Insert(x, s);
      assert r == [s[0]] + t;
      forall i, j | 0 <= i < j < |r| ensures r[i].timestamp <= r[j].timestamp {
        if i == 0 {
          assert r[j] == t[j - 1] && r[j] in t;
        } else {
          assert r[i] == t[i - 1] && r[j] == t[j - 1];
        }
      }
    }
  }

  /** `ORDER BY timestamp ASC`: a stable insertion sort by timestamp. */
  function SortByTime(s: seq<Row>): (r: seq<Row>)
    ensures |r| == |s|
    ensures multiset(r) == multiset(s)
  {
    if s == [] then []
    else
      assert s == [s[0]] + s[1..];
      Insert(s[0], SortByTime(s[1..]))
  }

  lemma {:induction false} SortAscending(s: seq<Row>)
    ensures Ascending(SortByTime(s))
  {
    if s != [] {
      SortAscending(s[1..]);
      InsertAscending(s[0], SortByTime(s[1..]));
    }
  }

  /** `SELECT … WHERE timestamp >= since ORDER BY timestamp ASC`: the
      filtered rows, reordered oldest first. */
  function Window(rows: seq<Row>, since: int): (w: seq<Row>)
    ensures multiset(w) == multiset(Since(rows, since))
    ensures Ascending(w)
  {
    SortAscending(Since(rows, since));
    SortByTime(Since(rows, since))
  }

  /** The window is ordered oldest first, contains each row at or after the
      cutoff exactly as often as the table does, and nothing else. */
  lemma WindowSpec(rows: seq<Row>, since: int)
    ensures Ascending(Window(rows, since))
    ensures |Window(rows, since)| <= |rows|
    ensures forall x :: multiset(Window(rows, since))[x]
                     == if x.timestamp >= since then multiset(rows)[x] else 0
    ensures forall x :: x in Window(rows, since) <==> x in rows && x.timestamp >= since
  {
    forall x ensures multiset(Window(rows, since))[x]
                  == if x.timestamp >= since then multiset(rows)[x] else 0 {
      SinceCount(rows, since, x);
    }
    forall x ensures x in Window(rows, since) <==> x in rows && x.timestamp >= since {
      SinceCount(rows, since, x);
      assert x in Window(rows, since) <==> x in multiset(Window(rows, since));
      assert x in rows <==> x in multiset(rows);
    }
  }

  /** `ORDER BY timestamp DESC LIMIT 1`: a row with the greatest timestamp,
      or nothing on an empty table. Among rows sharing the greatest timestamp
      the last inserted one is chosen. */
  function LatestRow(rows: seq<Row>): (r: Option<Row>)
    ensures r.None? <==> rows == []
    ensures r.Some? ==> r.value in rows
    ensures r.Some? ==> forall x :: x in rows ==> x.timestamp <= r.value.timestamp
  {
    if rows == [] then None
    else
      var front, last := rows[..|rows| - 1], rows[|rows| - 1];
      assert rows == front + [last];
      match LatestRow(front)
      case None => Some(last)
      case Some(best) => if last.timestamp >= best.timestamp then Some(last) else Some(best)
  }
}
