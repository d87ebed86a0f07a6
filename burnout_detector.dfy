/**
 * Daily burnout check of one moderator (src/mod-center/burnout.detector.ts):
 * today's metrics row is scored additively, the score is written back into
 * the moderator's profile and then classified.
 */
module BurnoutDetector {
  import opened Common
  import opened ModTypes
  import opened Tables

  const DayMs: nat := 86400000

  /** Midnight of the day containing `now` (days are counted in UTC). */
  function Midnight(now: nat): (day: nat)
    ensures day <= now < day + DayMs
    ensures day % DayMs == 0
  {
    now - now % DayMs
  }

  const MaxTicketsDaily := 15
  const MaxResponseTimeSpike := 600
  const MaxReopens := 2

  /** The additive burnout score of one daily row. */
  function BurnoutScore(m: MetricsRow): int
  {
    (if m.ticketsResolved > MaxTicketsDaily then 50 else 0)
    + (if m.avgResponseTime > MaxResponseTimeSpike then 30 else 0)
    + (if m.reopenCount > MaxReopens then 20 else 0)
  }

  function Classify(score: int): BurnoutLevel
  {
    if score > 70 then HIGH else if score > 30 then MEDIUM else LOW
  }

  function Severity(level: BurnoutLevel): nat
  {
    match level
    case LOW => 0
    case MEDIUM => 1
    case HIGH => 2
  }

  /** What `checkBurnout` returns for the tables as they are. */
  function BurnoutOutcome(metrics: map<MetricsKey, MetricsRow>, profiles: map<ProfileKey, ModeratorProfile>,
                          modId: string, guildId: string, now: nat): Result<BurnoutLevel>
  {
    var key := MetricsKey(modId, guildId, Midnight(now));
    if key !in metrics then Ok(LOW)
    else if ProfileKey(guildId, modId) !in profiles then Err("P2025")
    else Ok(Classify(BurnoutScore(metrics[key])))
  }

  /** The profile table after `checkBurnout`. */
  function ProfilesAfterBurnout(metrics: map<MetricsKey, MetricsRow>, profiles: map<ProfileKey, ModeratorProfile>,
                                modId: string, guildId: string, now: nat): map<ProfileKey, ModeratorProfile>
  {
    var key := MetricsKey(modId, guildId, Midnight(now));
    var pk := ProfileKey(guildId, modId);
    if key in metrics && pk in profiles then
      profiles[pk := profiles[pk].(burnoutScore := BurnoutScore(metrics[key]))]
    else profiles
  }

  method CheckBurnout(db: Store, modId: string, guildId: string, now: nat) returns (level: Result<BurnoutLevel>)
    requires db.Valid()
    modifies db`profiles
    ensures db.Valid()
    ensures level == BurnoutOutcome(old(db.metrics), old(db.profiles), modId, guildId, now)
    ensures db.profiles == ProfilesAfterBurnout(old(db.metrics), old(db.profiles), modId, guildId, now)
  {
    var key := MetricsKey(modId, guildId, Midnight(now));
    if key !in db.metrics {
      return Ok(LOW);
    }
    var metrics := db.metrics[key];
    var score := 0;
    if metrics.ticketsResolved > MaxTicketsDaily { score := score + 50; }
    if metrics.avgResponseTime > MaxResponseTimeSpike { score := score + 30; }
    if metrics.reopenCount > MaxReopens { score := score + 20; }
    var pk := ProfileKey(guildId, modId);
    if pk !in db.profiles {
      return Err("P2025");
    }
    db.profiles := db.profiles[pk := db.profiles[pk].(burnoutScore := score)];
    if score > 70 {
      level := Ok(HIGH);
    } else if score > 30 {
      level := Ok(MEDIUM);
    } else {
      level := Ok(LOW);
    }
  }

  /** The score is one of the seven sums of 50, 30 and 20, so it lies in [0, 100]. */
  lemma ScoreValues(m: MetricsRow)
    ensures BurnoutScore(m) in {0, 20, 30, 50, 70, 80, 100}
    ensures 0 <= BurnoutScore(m) <= 100
  {
  }

  /** Each threshold is strict: a day at exactly 15 tickets, 600 s and 2 reopens scores 0. */
  lemma ThresholdsStrict(m: MetricsRow)
    requires m.ticketsResolved <= 15 && m.avgResponseTime <= 600 && m.reopenCount <= 2
    ensures BurnoutScore(m) == 0
  {
  }

  /** Classification boundaries: 30 is still LOW, 70 is still MEDIUM. */
  lemma ClassifyBoundaries(score: int)
    ensures Classify(score) == HIGH <==> score > 70
    ensures Classify(score) == MEDIUM <==> 30 < score <= 70
    ensures Classify(30) == LOW && Classify(70) == MEDIUM
  {
  }

  /** Raising any metric never lowers the level. */
  lemma LevelMonotone(m1: MetricsRow, m2: MetricsRow)
    requires m1.ticketsResolved <= m2.ticketsResolved
    requires m1.avgResponseTime <= m2.avgResponseTime
    requires m1.reopenCount <= m2.reopenCount
    ensures BurnoutScore(m1) <= BurnoutScore(m2)
    ensures Severity(Classify(BurnoutScore(m1))) <= Severity(Classify(BurnoutScore(m2)))
  {
  }

  /** Without a row for today the level is LOW and no profile is written. */
  lemma NoRowIsLow(metrics: map<MetricsKey, MetricsRow>, profiles: map<ProfileKey, ModeratorProfile>,
                   modId: string, guildId: string, now: nat)
    requires MetricsKey(modId, guildId, Midnight(now)) !in metrics
    ensures BurnoutOutcome(metrics, profiles, modId, guildId, now) == Ok(LOW)
    ensures ProfilesAfterBurnout(metrics, profiles, modId, guildId, now) == profiles
  {
  }

  /** With a row, only that moderator's burnoutScore changes, to the row's score. */
  lemma RowWritesOnlyScore(metrics: map<MetricsKey, MetricsRow>, profiles: map<ProfileKey, ModeratorProfile>,
                           modId: string, guildId: string, now: nat)
    requires MetricsKey(modId, guildId, Midnight(now)) in metrics
    requires ProfileKey(guildId, modId) in profiles
    ensures var after := ProfilesAfterBurnout(metrics, profiles, modId, guildId, now);
      var p := profiles[ProfileKey(guildId, modId)];
      after.Keys == profiles.Keys
      && after[ProfileKey(guildId, modId)] == p.(burnoutScore := BurnoutScore(metrics[MetricsKey(modId, guildId, Midnight(now))]))
      && (forall k :: k in profiles && k != ProfileKey(guildId, modId) ==> after[k] == profiles[k])
    ensures BurnoutOutcome(metrics, profiles, modId, guildId, now).Ok?
  {
  }
}
