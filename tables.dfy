/**
 * The persistent tables that the ticket system and the moderator workload
 * engine share. Each Prisma model becomes a field of `Store`: a table with
 * a composite unique key becomes a `map` keyed by that key, and the ticket
 * table, whose ids are allocated by auto-increment, becomes a sequence in
 * which the ticket with id `i + 1` sits at index `i`.
 */
module Tables {
  import opened Common
  import opened ModTypes

  datatype TicketStatus = OPEN | CLAIMED | CLOSED | ARCHIVED

  datatype TicketAction = Created | Claimed | Transferred | Closed | Reopened | Deleted

  datatype Ticket = Ticket(
    id: int,
    guildId: string,
    channelId: string,
    ownerId: string,
    categoryId: string,
    subject: string,
    description: string,
    status: TicketStatus,
    claimedBy: Option<string>,
    createdAt: int,
    closedAt: Option<int>)

  /** One row of the append-only ticket event log. */
  datatype TicketEvent = TicketEvent(ticketId: int, actorId: string, action: TicketAction)

  /** Per-guild ticket configuration; absent columns are `None`. */
  datatype TicketConfig = TicketConfig(supportRoleId: Option<string>, categoryId: Option<string>)

  datatype ProfileKey = ProfileKey(guildId: string, userId: string)

  datatype ModeratorProfile = ModeratorProfile(
    guildId: string,
    userId: string,
    status: ModStatus,
    optedOut: bool,
    burnoutScore: int)

  /** Key of the daily metrics table: moderator, guild and the day's midnight in ms. */
  datatype MetricsKey = MetricsKey(modId: string, guildId: string, date: int)

  datatype MetricsRow = MetricsRow(
    modId: string,
    guildId: string,
    date: int,
    ticketsResolved: int,
    avgResponseTime: int,
    reopenCount: int)

  datatype Assignment = Assignment(
    ticketId: int,
    modId: string,
    guildId: string,
    reason: string,
    unassignedAt: Option<int>)

  predicate TicketIdsDense(ts: seq<Ticket>)
  {
    forall i :: 0 <= i < |ts| ==> ts[i].id == i + 1
  }

  predicate ProfilesKeyed(profiles: map<ProfileKey, ModeratorProfile>)
  {
    forall k :: k in profiles ==> profiles[k].guildId == k.guildId && profiles[k].userId == k.userId
  }

  predicate MetricsKeyed(metrics: map<MetricsKey, MetricsRow>)
  {
    forall k :: k in metrics ==>
      metrics[k].modId == k.modId && metrics[k].guildId == k.guildId && metrics[k].date == k.date
  }

  /** Every logged event belongs to an existing ticket (events are only created nested in a ticket write). */
  predicate EventsReferToTickets(ts: seq<Ticket>, events: seq<TicketEvent>)
  {
    forall i :: 0 <= i < |events| ==> HasTicket(ts, events[i].ticketId)
  }

  /** Whether the ticket with this id exists (Prisma `update` throws otherwise). */
  predicate HasTicket(ts: seq<Ticket>, id: int)
  {
    1 <= id <= |ts|
  }

  class Store {
    var tickets: seq<Ticket>
    var events: seq<TicketEvent>
    var ticketConfigs: map<string, TicketConfig>
    var profiles: map<ProfileKey, ModeratorProfile>
    var metrics: map<MetricsKey, MetricsRow>
    var assignments: seq<Assignment>

    ghost predicate Valid()
      reads this
    {
      TicketIdsDense(tickets) && EventsReferToTickets(tickets, events) && ProfilesKeyed(profiles) && MetricsKeyed(metrics)
    }

    constructor (configs: map<string, TicketConfig>)
      ensures Valid()
      ensures tickets == [] && events == [] && assignments == []
      ensures ticketConfigs == configs && profiles == map[] && metrics == map[]
    {
      tickets := [];
      events := [];
      ticketConfigs := configs;
      profiles := map[];
      metrics := map[];
      assignments := [];
    }
  }
}
