/** The weather service: an in-memory snapshot of the latest reading in front
    of an append-only history table, with an ingestion route, a latest-reading
    route and a last-24-hours route. The clock, the time formatter and the
    outcome of the deferred table lookup are parameters. */
module WeatherServer {
  import opened WeatherTypes
  import opened HistoryQuery

  /** Length of the history window, in milliseconds. */
  const DayMillis: int := 24 * 60 * 60 * 1000

  /** The "no data yet" test of the latest-reading route: temperature and
      humidity both exactly zero. */
  predicate IsPlaceholder(s: WeatherData) {
    s.temperature == 0.0 && s.humidity == 0.0
  }

  /** The four metrics the table does not store are all zero. */
  predicate UntrackedZero(s: WeatherData) {
    s.pressure == 0.0 && s.windSpeed == 0.0 && s.rainProbability == 0.0 && s.uvIndex == 0.0
  }

  /** The snapshot a POST leaves: the posted values and the clock over the
      previous snapshot. A genuine zero reading is indistinguishable from
      the startup placeholder, and the untracked metrics are carried over, so
      they stay zero if they were. */
  function Merge(s: WeatherData, temperature: real, humidity: real, now: int): (r: WeatherData)
    ensures IsPlaceholder(r) <==> temperature == 0.0 && humidity == 0.0
    ensures UntrackedZero(r) <==> UntrackedZero(s)
  {
    s.(temperature := temperature, humidity := humidity, timestamp := now)
  }

  /** The snapshot the deferred lookup installs from a table row: the row's
      values with every untracked metric reset to zero. A stored zero
      reading installs the placeholder again. */
  function FromRow(row: Row): (r: WeatherData)
    ensures UntrackedZero(r)
    ensures IsPlaceholder(r) <==> row.temperature == 0.0 && row.humidity == 0.0
  {
    WeatherData(row.temperature, row.humidity, 0.0, 0.0, 0.0, 0.0, row.timestamp)
  }

  /** Reply of the 24-hour route: the six series, or the error reply sent
      when the table read fails. */
  datatype HistoryReply = Series(data: WeatherHistoryData) | StorageError

  /** One POST body together with the clock reading taken for the snapshot. */
  datatype Reading = Reading(temperature: real, humidity: real, now: int)

  /** The snapshot after a run of POSTs, oldest first. */
  function Replay(s: WeatherData, posts: seq<Reading>): WeatherData
    decreases |posts|
  {
    if posts == [] then s
    else
      var p := posts[|posts| - 1];
      Merge(Replay(s, posts[..|posts| - 1]), p.temperature, p.humidity, p.now)
  }

  /** After any non-empty run of POSTs the snapshot carries the last POST's
      temperature, humidity and clock, and the four metrics that POST never
      sets keep the values they had before the run. */
  lemma {:induction false} ReplayLastWins(s: WeatherData, posts: seq<Reading>)
    requires posts != []
    ensures var r := Replay(s, posts); var p := posts[|posts| - 1];
      r.temperature == p.temperature && r.humidity == p.humidity && r.timestamp == p.now &&
      r.pressure == s.pressure && r.windSpeed == s.windSpeed &&
      r.rainProbability == s.rainProbability && r.uvIndex == s.uvIndex
  {
    var front := posts[..|posts| - 1];
    if front != [] {
      ReplayLastWins(s, front);
    }
  }

  /** When the newest POST's row is strictly newer than every earlier row, a
      deferred lookup that runs afterwards installs exactly that POST's
      reading, while the four untracked metrics drop to zero. */
  lemma RefreshAfterPost(rows: seq<Row>, temperature: real, humidity: real, rowNow: int)
    requires forall x :: x in rows ==> x.timestamp < rowNow
    ensures LatestRow(rows + [Row(temperature, humidity, rowNow)])
         == Some(Row(temperature, humidity, rowNow))
  {
  }

  class Service {
    /** The in-memory snapshot returned by the latest-reading route. */
    var snapshot: WeatherData
    /** The `weather_history` table, oldest insertion first. */
    var history: seq<Row>
    /** Table lookups the latest-reading route has started and whose
        callback has not run yet. */
    var pendingRefreshes: nat

    /** Process start over a table that may already hold rows from earlier
        runs: a zero snapshot stamped with the start time. */
    constructor (stored: seq<Row>, now: int)
      ensures snapshot == WeatherData(0.0, 0.0, 0.0, 0.0, 0.0, 0.0, now)
      ensures IsPlaceholder(snapshot) && UntrackedZero(snapshot)
      ensures history == stored && pendingRefreshes == 0
    {
      snapshot := WeatherData(0.0, 0.0, 0.0, 0.0, 0.0, 0.0, now);
      history := stored;
      pendingRefreshes := 0;
    }

    /** POST /api/weather. The clock is read twice, once for the snapshot
        (`now`) and once for the inserted row (`rowNow`). */
    method Post(temperature: real, humidity: real, now: int, rowNow: int) returns (status: string)
      modifies this
      ensures snapshot.temperature == temperature && snapshot.humidity == humidity
      ensures snapshot.timestamp == now
      ensures snapshot.pressure == old(snapshot.pressure)
      ensures snapshot.windSpeed == old(snapshot.windSpeed)
      ensures snapshot.rainProbability == old(snapshot.rainProbability)
      ensures snapshot.uvIndex == old(snapshot.uvIndex)
      ensures snapshot == Merge(old(snapshot), temperature, humidity, now)
      ensures UntrackedZero(snapshot) <==> UntrackedZero(old(snapshot))
      ensures history == old(history) + [Row(temperature, humidity, rowNow)]
      ensures pendingRefreshes == old(pendingRefreshes)
      ensures status == "ok"
    {
      snapshot := Merge(snapshot, temperature, humidity, now);
      history := history + [Row(temperature, humidity, rowNow)];
      status := "ok";
    }

    /** GET /api/weather. The response is the snapshot as it stands; when it
        is the zero placeholder a table lookup is started whose callback runs
        later (RefreshFromHistory), after the response has gone out. */
    method GetLatest() returns (response: WeatherData)
      modifies this`pendingRefreshes
      ensures response == snapshot
      ensures UntrackedZero(snapshot) ==> UntrackedZero(response)
      ensures pendingRefreshes
           == if IsPlaceholder(snapshot) then old(pendingRefreshes) + 1 else old(pendingRefreshes)
    {
      if IsPlaceholder(snapshot) {
        pendingRefreshes := pendingRefreshes + 1;
      }
      response := snapshot;
    }

    /** The callback of a lookup started by GetLatest. On success with a
        non-empty table it overwrites the snapshot, whatever it is by then,
        with a row of greatest timestamp; otherwise nothing changes. */
    method RefreshFromHistory(failed: bool)
      requires pendingRefreshes > 0
      modifies this`snapshot, this`pendingRefreshes
      ensures pendingRefreshes == old(pendingRefreshes) - 1
      ensures UntrackedZero(old(snapshot)) ==> UntrackedZero(snapshot)
      ensures failed || history == [] ==> snapshot == old(snapshot)
      ensures !failed && history != [] ==>
        exists i :: 0 <= i < |history| && snapshot == FromRow(history[i]) &&
          forall j :: 0 <= j < |history| ==> history[j].timestamp <= history[i].timestamp
    {
      pendingRefreshes := pendingRefreshes - 1;
      var latest := LatestRow(history);
      if !failed && latest.Some? {
        var i :| 0 <= i < |history| && history[i] == latest.value;
        snapshot := FromRow(history[i]);
      }
    }

    /** GET /api/weather/minmax: one temperature point and one humidity point
        per row of the last 24 hours, oldest first, and four empty series.
        When the table read fails (`failed`) the reply is the error instead;
        the route never changes any state. */
    method History24h(now: int, fmt: int -> string, failed: bool) returns (reply: HistoryReply)
      ensures reply.StorageError? <==> failed
      ensures reply.Series? ==>
        var w := Window(history, now - DayMillis); var data := reply.data;
        |data.temperature| == |w| && |data.humidity| == |w| &&
        (forall k :: 0 <= k < |w| ==>
           data.temperature[k] == WeatherDataPoint(w[k].temperature, fmt(w[k].timestamp)) &&
           data.humidity[k] == WeatherDataPoint(w[k].humidity, fmt(w[k].timestamp)))
      ensures var w := Window(history, now - DayMillis);
        Ascending(w) && |w| <= |history| &&
        forall x :: x in w <==> x in history && x.timestamp >= now - DayMillis
      ensures reply.Series? ==>
        reply.data.pressure == [] && reply.data.windSpeed == [] &&
        reply.data.rainProbability == [] && reply.data.uvIndex == []
    {
      if failed {
        WindowSpec(history, now - DayMillis);
        return StorageError;
      }
      var rows := Window(history, now - DayMillis);
      var temperature: seq<WeatherDataPoint> := [];
      var humidity: seq<WeatherDataPoint> := [];
      var n := 0;
      while n < |rows|
        invariant 0 <= n <= |rows|
        invariant |temperature| == n && |humidity| == n
        invariant forall k :: 0 <= k < n ==>
          temperature[k] == WeatherDataPoint(rows[k].temperature, fmt(rows[k].timestamp)) &&
          humidity[k] == WeatherDataPoint(rows[k].humidity, fmt(rows[k].timestamp))
      {
        var time := fmt(rows[n].timestamp);
        temperature := temperature + [WeatherDataPoint(rows[n].temperature, time)];
        humidity := humidity + [WeatherDataPoint(rows[n].humidity, time)];
        n := n + 1;
      }
      reply := Series(WeatherHistoryData(temperature, humidity, [], [], [], []));
      WindowSpec(history, now - DayMillis);
    }
  }

  /** The latest-reading route answers each request with the snapshot as it
      was when the request arrived, so two requests with nothing in between
      give the same answer and neither touches the table; a non-placeholder
      snapshot starts no lookup. */
  method GetLatestTwice(s: Service) returns (first: WeatherData, second: WeatherData)
    modifies s
    ensures first == second == s.snapshot == old(s.snapshot)
    ensures s.history == old(s.history)
    ensures !IsPlaceholder(first) ==> s.pendingRefreshes == old(s.pendingRefreshes)
  {
    first := s.GetLatest();
    second := s.GetLatest();
  }

  /** A store with no rows answers the 24-hour route with six empty series. */
  method EmptyStoreHistory(start: int, now: int, fmt: int -> string) returns (reply: HistoryReply)
    ensures reply == Series(NoHistory)
  {
    var s := new Service([], start);
    reply := s.History24h(now, fmt, false);
  }

  /** One POST at time `t`, then the 24-hour route one hour later: one
      temperature point and one humidity point, both at `fmt(t)`, carrying
      the posted values. */
  method PostThenHistory(temperature: real, humidity: real, t: int, fmt: int -> string)
    returns (reply: HistoryReply)
    ensures reply == Series(WeatherHistoryData(
      [WeatherDataPoint(temperature, fmt(t))], [WeatherDataPoint(humidity, fmt(t))], [], [], [], []))
  {
    var s := new Service([], t);
    var _ := s.Post(temperature, humidity, t, t);
    reply := s.History24h(t + 60 * 60 * 1000, fmt, false);
  }

  /** A request or callback reaching the service: a POST with its two clock
      readings, a latest-reading GET, or the completion of a lookup that
      such a GET started. */
  datatype Request =
    | PostRequest(temperature: real, humidity: real, now: int, rowNow: int)
    | LatestRequest
    | LookupDone(failed: bool)

  /** Runs any sequence of requests against a freshly started service and
      collects the latest-reading answers. Each answer, and the snapshot
      after every step, has pressure, wind speed, rain probability and UV
      at zero. A lookup completion with no lookup outstanding cannot occur
      and is skipped. */
  method Serve(stored: seq<Row>, start: int, requests: seq<Request>) returns (answers: seq<WeatherData>)
    ensures forall a :: a in answers ==> UntrackedZero(a)
  {
    var s := new Service(stored, start);
    answers := [];
    for i := 0 to |requests|
      invariant UntrackedZero(s.snapshot)
      invariant forall a :: a in answers ==> UntrackedZero(a)
    {
      match requests[i]
      case PostRequest(temperature, humidity, now, rowNow) =>
        var _ := s.Post(temperature, humidity, now, rowNow);
      case LatestRequest =>
        var a := s.GetLatest();
        answers := answers + [a];
      case LookupDone(failed) =>
        if s.pendingRefreshes > 0 {
          s.RefreshFromHistory(failed);
        }
    }
  }
}
