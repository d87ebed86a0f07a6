/**
 * The daily moderator metrics table (src/mod-center/metrics.collector.ts).
 * Writes are upserts on (moderator, guild, midnight date), so the table
 * holds at most one row per key by construction; `GetModStats` aggregates
 * the rows of the last `days` days.
 */
module MetricsCollector {
  import opened Common
  import opened ModTypes
  import opened Tables
  import BurnoutDetector

  /** The table after a resolution: increment the day's count, or create the row. */
  function ResolutionUpsert(metrics: map<MetricsKey, MetricsRow>, key: MetricsKey, durationSeconds: int): map<MetricsKey, MetricsRow>
  {
    if key in metrics then metrics[key := metrics[key].(ticketsResolved := metrics[key].ticketsResolved + 1)]
    else metrics[key := MetricsRow(key.modId, key.guildId, key.date, 1, durationSeconds, 0)]
  }

  /** The table after a reopen: increment the day's reopen count, or create the row. */
  function ReopenUpsert(metrics: map<MetricsKey, MetricsRow>, key: MetricsKey): map<MetricsKey, MetricsRow>
  {
    if key in metrics then metrics[key := metrics[key].(reopenCount := metrics[key].reopenCount + 1)]
    else metrics[key := MetricsRow(key.modId, key.guildId, key.date, 0, 0, 1)]
  }

  function TodayKey(modId: string, guildId: string, now: nat): MetricsKey
  {
    MetricsKey(modId, guildId, BurnoutDetector.Midnight(now))
  }

  /**
   * Records one resolved ticket, then runs the burnout check for the same
   * moderator and guild; an error of that check is passed on after the
   * upsert has been written.
   */
  method TrackTicketResolution(db: Store, modId: string, guildId: string, durationSeconds: int, now: nat)
    returns (burnout: Result<BurnoutLevel>)
    requires db.Valid()
    modifies db`metrics, db`profiles
    ensures db.Valid()
    ensures db.metrics == ResolutionUpsert(old(db.metrics), TodayKey(modId, guildId, now), durationSeconds)
    ensures burnout == BurnoutDetector.BurnoutOutcome(db.metrics, old(db.profiles), modId, guildId, now)
    ensures db.profiles == BurnoutDetector.ProfilesAfterBurnout(db.metrics, old(db.profiles), modId, guildId, now)
  {
    var key := TodayKey(modId, guildId, now);
    if key in db.metrics {
      var row := db.metrics[key];
      db.metrics := db.metrics[key := row.(ticketsResolved := row.ticketsResolved + 1)];
    } else {
      db.metrics := db.metrics[key := MetricsRow(modId, guildId, key.date, 1, durationSeconds, 0)];
    }
    burnout := BurnoutDetector.CheckBurnout(db, modId, guildId, now);
  }

  method TrackReopen(db: Store, modId: string, guildId: string, now: nat)
    requires db.Valid()
    modifies db`metrics
    ensures db.Valid()
    ensures db.metrics == ReopenUpsert(old(db.metrics), TodayKey(modId, guildId, now))
  {
    var key := TodayKey(modId, guildId, now);
    if key in db.metrics {
      var row := db.metrics[key];
      db.metrics := db.metrics[key := row.(reopenCount := row.reopenCount + 1)];
    } else {
      db.metrics := db.metrics[key := MetricsRow(modId, guildId, key.date, 0, 0, 1)];
    }
  }

  /** An upsert touches only its own key: every other row is kept as it was. */
  lemma UpsertsTouchOnlyTheirKey(metrics: map<MetricsKey, MetricsRow>, key: MetricsKey, durationSeconds: int)
    ensures ResolutionUpsert(metrics, key, durationSeconds).Keys == metrics.Keys + {key}
    ensures ReopenUpsert(metrics, key).Keys == metrics.Keys + {key}
    ensures forall k :: k in metrics && k != key ==>
      ResolutionUpsert(metrics, key, durationSeconds)[k] == metrics[k] && ReopenUpsert(metrics, key)[k] == metrics[k]
  {
  }

  /** The day's first resolution creates the row with one ticket and its duration as the average. */
  lemma FirstResolutionCreatesRow(metrics: map<MetricsKey, MetricsRow>, key: MetricsKey, durationSeconds: int)
    requires key !in metrics
    ensures var row := ResolutionUpsert(metrics, key, durationSeconds)[key];
      row.ticketsResolved == 1 && row.avgResponseTime == durationSeconds && row.reopenCount == 0
  {
  }

  /** Later resolutions the same day only count the ticket; the average is left as it was. */
  lemma LaterResolutionCountsOnly(metrics: map<MetricsKey, MetricsRow>, key: MetricsKey, durationSeconds: int)
    requires key in metrics
    ensures var row := ResolutionUpsert(metrics, key, durationSeconds)[key];
      row == metrics[key].(ticketsResolved := metrics[key].ticketsResolved + 1)
  {
  }

  /** A reopen raises the day's reopen count by one, starting a fresh row at 1. */
  lemma ReopenCounts(metrics: map<MetricsKey, MetricsRow>, key: MetricsKey)
    ensures var row := ReopenUpsert(metrics, key)[key];
      row.reopenCount == (if key in metrics then metrics[key].reopenCount + 1 else 1)
      && row.ticketsResolved == (if key in metrics then metrics[key].ticketsResolved else 0)
  {
  }

  predicate InWindow(row: MetricsRow, modId: string, guildId: string, cutoff: int)
  {
    row.modId == modId && row.guildId == guildId && row.date >= cutoff
  }

  /** The rows the query returns: this moderator's rows in this guild dated at or after the cutoff. */
  function Window(rows: seq<MetricsRow>, modId: string, guildId: string, cutoff: int): (w: seq<MetricsRow>)
    ensures |w| <= |rows|
    ensures forall r :: r in w <==> r in rows && InWindow(r, modId, guildId, cutoff)
  {
    if |rows| == 0 then []
    else
      var rest := Window(rows[1..], modId, guildId, cutoff);
      assert forall r :: r in rows <==> r == rows[0] || r in rows[1..];
      if InWindow(rows[0], modId, guildId, cutoff) then [rows[0]] + rest else rest
  }

  function SumResolved(rows: seq<MetricsRow>): int
  {
    if |rows| == 0 then 0 else rows[0].ticketsResolved + SumResolved(rows[1..])
  }

  function SumReopens(rows: seq<MetricsRow>): int
  {
    if |rows| == 0 then 0 else rows[0].reopenCount + SumReopens(rows[1..])
  }

  function SumAvgResponse(rows: seq<MetricsRow>): int
  {
    if |rows| == 0 then 0 else rows[0].avgResponseTime + SumAvgResponse(rows[1..])
  }

  /**
   * Aggregate over the last `days` days: null when there is no row; sums of
   * resolved tickets and reopens, reopen rate as their ratio (0 with no
   * resolutions), and the mean of the daily averages. Callers that omit
   * `days` get 7.
   */
  function GetModStats(rows: seq<MetricsRow>, modId: string, guildId: string, now: int, days: int): Option<ModeratorStats>
  {
    var w := Window(rows, modId, guildId, now - days * BurnoutDetector.DayMs);
    if |w| == 0 then None
    else
      var resolved := SumResolved(w);
      var reopens := SumReopens(w);
      var avg := SumAvgResponse(w) as real / |w| as real;
      Some(ModeratorStats(resolved, avg, if resolved > 0 then reopens as real / resolved as real else 0.0, 0))
  }

  /** The result is null exactly when no row of this moderator and guild is recent enough. */
  lemma StatsNullIffNoRecentRow(rows: seq<MetricsRow>, modId: string, guildId: string, now: int, days: int)
    ensures GetModStats(rows, modId, guildId, now, days).None?
      <==> forall r :: r in rows ==> !InWindow(r, modId, guildId, now - days * BurnoutDetector.DayMs)
  {
    var w := Window(rows, modId, guildId, now - days * BurnoutDetector.DayMs);
    if |w| > 0 {
      assert w[0] in w;
    }
  }

  lemma {:induction false} SumAvgBounds(rows: seq<MetricsRow>, lo: int, hi: int)
    requires forall i :: 0 <= i < |rows| ==> lo <= rows[i].avgResponseTime <= hi
    ensures |rows| * lo <= SumAvgResponse(rows) <= |rows| * hi
  {
    if |rows| > 0 {
      SumAvgBounds(rows[1..], lo, hi);
    }
  }

  lemma MeanBetween(sum: int, n: nat, lo: int, hi: int)
    requires n > 0 && n * lo <= sum <= n * hi
    ensures lo as real <= sum as real / n as real <= hi as real
  {
    assert (n * lo) as real == n as real * lo as real;
    assert (n * hi) as real == n as real * hi as real;
  }

  lemma {:induction false} SumsNonNegative(rows: seq<MetricsRow>)
    requires forall i :: 0 <= i < |rows| ==> rows[i].ticketsResolved >= 0 && rows[i].reopenCount >= 0
    ensures SumResolved(rows) >= 0 && SumReopens(rows) >= 0
  {
    if |rows| > 0 {
      SumsNonNegative(rows[1..]);
    }
  }

  /** Every row's daily average lies in [lo, hi] and its counters are non-negative. */
  predicate RowsWithin(rows: seq<MetricsRow>, lo: int, hi: int)
  {
    forall i :: 0 <= i < |rows| ==>
      lo <= rows[i].avgResponseTime <= hi && rows[i].ticketsResolved >= 0 && rows[i].reopenCount >= 0
  }

  /**
   * The averaged response time lies between the smallest and largest daily
   * average of the window, the reopen rate is never negative for
   * non-negative counters, and activeTickets is always 0.
   */
  lemma StatsBounds(rows: seq<MetricsRow>, modId: string, guildId: string, now: int, days: int, lo: int, hi: int)
    requires RowsWithin(Window(rows, modId, guildId, now - days * BurnoutDetector.DayMs), lo, hi)
    ensures var s := GetModStats(rows, modId, guildId, now, days);
      s.Some? ==> lo as real <= s.value.avgResponseTime <= hi as real
                  && s.value.reopenRate >= 0.0 && s.value.ticketsResolved >= 0 && s.value.activeTickets == 0
  {
    var w := Window(rows, modId, guildId, now - days * BurnoutDetector.DayMs);
    assert forall i :: 0 <= i < |w| ==> lo <= w[i].avgResponseTime <= hi;
    assert forall i :: 0 <= i < |w| ==> w[i].ticketsResolved >= 0 && w[i].reopenCount >= 0;
    SumAvgBounds(w, lo, hi);
    SumsNonNegative(w);
    if |w| > 0 {
      MeanBetween(SumAvgResponse(w), |w|, lo, hi);
    }
  }
}
