/**
 * The ticket lifecycle writes (src/tickets/ticket.service.ts): create,
 * claim and close update the ticket table and append to the event log.
 * The service performs its updates unconditionally; the status guards live
 * in the ticket manager.
 */
module TicketService {
  import opened Common
  import opened ModTypes
  import opened Tables
  import BurnoutDetector
  import MetricsCollector

  /** Characters that survive the channel-name filter `[a-z0-9-]`. */
  predicate ChannelNameChar(c: char)
  {
    'a' <= c <= 'z' || '0' <= c <= '9' || c == '-'
  }

  /** Removes every character outside `[a-z0-9-]`. */
  function KeepChannelChars(s: string): (r: string)
    ensures |r| <= |s|
    ensures forall i :: 0 <= i < |r| ==> ChannelNameChar(r[i])
  {
    if |s| == 0 then ""
    else (if ChannelNameChar(s[0]) then [s[0]] else []) + KeepChannelChars(s[1..])
  }

  const MaxChannelName := 32

  /** Lower-case, drop characters outside `[a-z0-9-]`, keep the first 32. */
  function SanitizeChannelName(raw: string): (name: string)
    ensures |name| <= MaxChannelName
    ensures forall i :: 0 <= i < |name| ==> ChannelNameChar(name[i])
  {
    var kept := KeepChannelChars(ToLower(raw));
    if |kept| <= MaxChannelName then kept else kept[..MaxChannelName]
  }

  /** The ticket channel's name, built from the category and the opener's user name. */
  function TicketChannelName(categoryId: string, username: string): string
  {
    SanitizeChannelName(categoryId + "-" + username)
  }

  lemma {:induction false} KeepChannelCharsFixesClean(s: string)
    requires forall i :: 0 <= i < |s| ==> ChannelNameChar(s[i])
    ensures KeepChannelChars(s) == s
  {
    if |s| > 0 {
      KeepChannelCharsFixesClean(s[1..]);
      assert [s[0]] + s[1..] == s;
    }
  }

  lemma LowerFixesClean(s: string)
    requires forall i :: 0 <= i < |s| ==> ChannelNameChar(s[i])
    ensures ToLower(s) == s
  {
  }

  /** A name that is already clean and short enough is left alone, so sanitising is idempotent. */
  lemma SanitizeIdempotent(raw: string)
    ensures SanitizeChannelName(SanitizeChannelName(raw)) == SanitizeChannelName(raw)
  {
    var name := SanitizeChannelName(raw);
    LowerFixesClean(name);
    KeepChannelCharsFixesClean(name);
  }

  /** Ticket channel names are at most 32 characters of `[a-z0-9-]`. */
  lemma TicketChannelNameShape(categoryId: string, username: string)
    ensures |TicketChannelName(categoryId, username)| <= 32
    ensures forall i :: 0 <= i < |TicketChannelName(categoryId, username)| ==>
      ChannelNameChar(TicketChannelName(categoryId, username)[i])
  {
  }

  /** `createTicket` requires a config row with a non-empty support role. */
  predicate Configured(configs: map<string, TicketConfig>, guildId: string)
  {
    guildId in configs && configs[guildId].supportRoleId.Some? && configs[guildId].supportRoleId.value != ""
  }

  const NotConfiguredMessage := "Ticket system not configured for this guild."

  /** The created ticket row together with the name of the channel opened for it. */
  datatype CreatedTicket = CreatedTicket(ticket: Ticket, channelName: string)

  /** The events logged for one ticket, in log order. */
  function EventsOf(events: seq<TicketEvent>, ticketId: int): (r: seq<TicketEvent>)
    ensures forall e :: e in r <==> e in events && e.ticketId == ticketId
  {
    if |events| == 0 then []
    else
      var rest := EventsOf(events[1..], ticketId);
      assert forall e :: e in events <==> e == events[0] || e in events[1..];
      if events[0].ticketId == ticketId then [events[0]] + rest else rest
  }

  lemma {:induction false} EventsOfAppend(events: seq<TicketEvent>, e: TicketEvent, ticketId: int)
    ensures EventsOf(events + [e], ticketId) == EventsOf(events, ticketId) + (if e.ticketId == ticketId then [e] else [])
  {
    if |events| > 0 {
      assert (events + [e])[1..] == events[1..] + [e];
      EventsOfAppend(events[1..], e, ticketId);
    } else {
      assert EventsOf([e], ticketId) == (if e.ticketId == ticketId then [e] else []) + EventsOf([], ticketId);
    }
  }

  /** A ticket id beyond the table has no events yet. */
  lemma {:induction false} NoEventsForNewTicket(ts: seq<Ticket>, events: seq<TicketEvent>)
    requires EventsReferToTickets(ts, events)
    ensures EventsOf(events, |ts| + 1) == []
  {
    if |events| > 0 {
      NoEventsForNewTicket(ts, events[1..]);
    }
  }

  /**
   * Opens a ticket: refused when the guild has no ticket config or no
   * support role, before any channel or row is created; otherwise the new
   * ticket is OPEN, unclaimed, and has exactly one event, CREATED by its
   * owner. `channelId` is the id of the channel the platform created.
   */
  method CreateTicket(db: Store, guildId: string, memberId: string, username: string, categoryId: string,
                      subject: string, description: string, channelId: string, now: nat)
    returns (r: Result<CreatedTicket>)
    requires db.Valid()
    modifies db`tickets, db`events
    ensures db.Valid()
    ensures r.Ok? <==> Configured(db.ticketConfigs, guildId)
    ensures r.Err? ==> r.error == NotConfiguredMessage && db.tickets == old(db.tickets) && db.events == old(db.events)
    ensures r.Ok? ==>
      var t := r.value.ticket;
      r.value.channelName == TicketChannelName(categoryId, username)
      && t == Ticket(|old(db.tickets)| + 1, guildId, channelId, memberId, categoryId, subject, description, OPEN, None, now, None)
      && db.tickets == old(db.tickets) + [t]
      && db.events == old(db.events) + [TicketEvent(t.id, memberId, Created)]
      && EventsOf(db.events, t.id) == [TicketEvent(t.id, memberId, Created)]
  {
    if !Configured(db.ticketConfigs, guildId) {
      return Err(NotConfiguredMessage);
    }
    var name := TicketChannelName(categoryId, username);
    var t := Ticket(|db.tickets| + 1, guildId, channelId, memberId, categoryId, subject, description, OPEN, None, now, None);
    var e := TicketEvent(t.id, memberId, Created);
    NoEventsForNewTicket(db.tickets, db.events);
    EventsOfAppend(db.events, e, t.id);
    db.tickets := db.tickets + [t];
    db.events := db.events + [e];
    r := Ok(CreatedTicket(t, name));
  }

  /** `findFirst` by channel: the lowest-id ticket of that channel. */
  function GetTicketByChannel(ts: seq<Ticket>, channelId: string): (r: Option<Ticket>)
    ensures r.Some? ==> r.value in ts && r.value.channelId == channelId
    ensures r.None? <==> forall t :: t in ts ==> t.channelId != channelId
    ensures r.Some? ==>
      exists i :: 0 <= i < |ts| && ts[i] == r.value && forall k :: 0 <= k < i ==> ts[k].channelId != channelId
  {
    match FirstIndex(ts, (t: Ticket) => t.channelId == channelId)
    case None => None
    case Some(i) => Some(ts[i])
  }

  predicate IsOpenTicketOf(t: Ticket, userId: string, guildId: string)
  {
    t.ownerId == userId && t.guildId == guildId && (t.status == OPEN || t.status == CLAIMED)
  }

  /** The user's first ticket in the guild that is OPEN or CLAIMED, if any. */
  function GetOpenTicketByUser(ts: seq<Ticket>, userId: string, guildId: string): (r: Option<Ticket>)
    ensures r.Some? ==> r.value in ts && IsOpenTicketOf(r.value, userId, guildId)
    ensures r.None? <==> forall t :: t in ts ==> !IsOpenTicketOf(t, userId, guildId)
  {
    FindFirst(ts, (t: Ticket) => IsOpenTicketOf(t, userId, guildId))
  }

  /**
   * Claims a ticket whatever its status: CLAIMED, claimedBy set, one
   * CLAIMED event. A missing id makes the update throw with no change.
   */
  method ClaimTicket(db: Store, ticketId: int, claimerId: string) returns (r: Result<Ticket>)
    requires db.Valid()
    modifies db`tickets, db`events
    ensures db.Valid()
    ensures r.Ok? <==> HasTicket(old(db.tickets), ticketId)
    ensures r.Err? ==> db.tickets == old(db.tickets) && db.events == old(db.events)
    ensures r.Ok? ==>
      r.value == old(db.tickets)[ticketId - 1].(status := CLAIMED, claimedBy := Some(claimerId))
      && db.tickets == old(db.tickets)[ticketId - 1 := r.value]
      && db.events == old(db.events) + [TicketEvent(ticketId, claimerId, Claimed)]
  {
    if !HasTicket(db.tickets, ticketId) {
      return Err("P2025");
    }
    var t := db.tickets[ticketId - 1].(status := CLAIMED, claimedBy := Some(claimerId));
    db.tickets := db.tickets[ticketId - 1 := t];
    db.events := db.events + [TicketEvent(ticketId, claimerId, Claimed)];
    r := Ok(t);
  }

  /** Whole seconds between creation and closing, rounded down. */
  function ResolutionSeconds(createdAt: int, now: int): (secs: int)
    ensures secs * 1000 <= now - createdAt < secs * 1000 + 1000
  {
    (now - createdAt) / 1000
  }

  /**
   * Closes a ticket whatever its status: CLOSED, closedAt = now, one CLOSED
   * event; then records the resolution for the closer. A failure of the
   * metrics step (the closer has no moderator profile) is swallowed and the
   * closed ticket is still returned.
   */
  method CloseTicket(db: Store, ticketId: int, closedByUserId: string, now: nat) returns (r: Result<Ticket>)
    requires db.Valid()
    modifies db`tickets, db`events, db`metrics, db`profiles
    ensures db.Valid()
    ensures r.Ok? <==> HasTicket(old(db.tickets), ticketId)
    ensures r.Err? ==>
      db.tickets == old(db.tickets) && db.events == old(db.events)
      && db.metrics == old(db.metrics) && db.profiles == old(db.profiles)
    ensures r.Ok? ==>
      var t := old(db.tickets)[ticketId - 1];
      var key := MetricsCollector.TodayKey(closedByUserId, t.guildId, now);
      r.value == t.(status := CLOSED, closedAt := Some(now))
      && db.tickets == old(db.tickets)[ticketId - 1 := r.value]
      && db.events == old(db.events) + [TicketEvent(ticketId, closedByUserId, Closed)]
      && db.metrics == MetricsCollector.ResolutionUpsert(old(db.metrics), key, ResolutionSeconds(t.createdAt, now))
      && db.profiles == BurnoutDetector.ProfilesAfterBurnout(db.metrics, old(db.profiles), closedByUserId, t.guildId, now)
  {
    if !HasTicket(db.tickets, ticketId) {
      return Err("P2025");
    }
    var t := db.tickets[ticketId - 1].(status := CLOSED, closedAt := Some(now));
    db.tickets := db.tickets[ticketId - 1 := t];
    db.events := db.events + [TicketEvent(ticketId, closedByUserId, Closed)];
    var duration := (now - t.createdAt) / 1000;
    var _ := MetricsCollector.TrackTicketResolution(db, closedByUserId, t.guildId, duration, now);
    r := Ok(t);
  }
}
