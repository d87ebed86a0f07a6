/**
 * The value types of the moderator workload engine (src/mod-center/types.ts):
 * roster status, burnout level, the aggregated statistics of one moderator
 * and the reputation breakdown computed from them.
 */
module ModTypes {

  datatype ModStatus = ACTIVE | BUSY | IDLE | OFFLINE

  datatype BurnoutLevel = LOW | MEDIUM | HIGH

  /** Aggregated statistics over a window of days; averages and rates are exact reals. */
  datatype ModeratorStats = ModeratorStats(
    ticketsResolved: int,
    avgResponseTime: real,
    reopenRate: real,
    activeTickets: int)

  datatype ReputationScore = ReputationScore(
    total: int,
    consistency: real,
    reliability: real,
    sustainability: real,
    responsiveness: real)
}
