/**
 * The ticket interaction handler (src/tickets/ticket.manager.ts): editor
 * ids are passed on to the editor; the entry buttons open the creation
 * modal unless the user already has a ticket; claim and close are guarded
 * by the ticket's status; the modal submission creates the ticket.
 */
module TicketManager {
  import opened Common
  import opened ModTypes
  import opened Tables
  import opened TicketPanels
  import opened TicketService
  import TicketEditor
  import BurnoutDetector
  import MetricsCollector

  datatype ManagerRoute = ToEditor | ToButtonHandler | ToModalHandler | NotHandled

  /** Components and modals whose id starts with `editor_` go to the editor before anything else. */
  function RouteTicketInteraction(kind: InteractionKind, customId: string): (route: ManagerRoute)
    ensures route == ToEditor <==> (IsMessageComponent(kind) || kind == ModalSubmit) && StartsWith(customId, "editor_")
    ensures route == ToButtonHandler <==> kind == Button && !StartsWith(customId, "editor_")
    ensures route == ToModalHandler <==> kind == ModalSubmit && !StartsWith(customId, "editor_")
  {
    if (IsMessageComponent(kind) || kind == ModalSubmit) && StartsWith(customId, "editor_") then ToEditor
    else if kind == Button then ToButtonHandler
    else if kind == ModalSubmit then ToModalHandler
    else NotHandled
  }

  /** Splitting `a_b_rest`, where `a` and `b` hold no `_`, gives `a`, `b`, then the parts of `rest`. */
  lemma TwoWordPrefixSplit(a: string, b: string, rest: string)
    requires '_' !in a && '_' !in b
    ensures Split(a + "_" + b + "_" + rest, '_') == [a, b] + Split(rest, '_')
  {
    var tail := b + ['_'] + rest;
    SplitAfterFirst(b, '_', rest);
    SplitAfterFirst(a, '_', tail);
    assert a + "_" + b + "_" + rest == a + ['_'] + tail by {
      assert "_" == ['_'];
      assert a + ['_'] + b + ['_'] + rest == a + ['_'] + (b + ['_'] + rest);
    }
    assert [a] + ([b] + Split(rest, '_')) == [a, b] + Split(rest, '_');
  }

  const CreateButtonPrefix := "ticket_create_"

  /** `split('_')[2]` of an entry button id: the text after the prefix up to its first `_`. */
  function ButtonCategory(id: string): (category: string)
    requires StartsWith(id, CreateButtonPrefix)
    ensures Segment(id, '_', 2) == Some(category)
    ensures category == UpTo(id[|CreateButtonPrefix|..], '_')
  {
    var rest := id[|CreateButtonPrefix|..];
    assert id == "ticket" + "_" + "create" + "_" + rest;
    TwoWordPrefixSplit("ticket", "create", rest);
    SplitHead(rest, '_');
    Split(id, '_')[2]
  }

  /** `split('_')[2]` of a creation modal id. */
  function ModalCategory(id: string): (category: string)
    requires StartsWith(id, CreateModalPrefix)
    ensures Segment(id, '_', 2) == Some(category)
    ensures category == UpTo(id[|CreateModalPrefix|..], '_')
  {
    var rest := id[|CreateModalPrefix|..];
    assert id == "ticket" + "_" + "modal" + "_" + rest;
    TwoWordPrefixSplit("ticket", "modal", rest);
    SplitHead(rest, '_');
    Split(id, '_')[2]
  }

  lemma UpToWithoutSep(s: string)
    requires '_' !in s
    ensures UpTo(s, '_') == s
  {
    SplitWithoutSep(s, '_');
    SplitHead(s, '_');
  }

  /** A category without `_` survives the button id, the modal id and back. */
  lemma CategoryRoundTrip(category: string)
    requires '_' !in category
    ensures ButtonCategory(CreateButtonPrefix + category) == category
    ensures StartsWith(GetCreateModal(category).customId, CreateModalPrefix)
    ensures ModalCategory(GetCreateModal(category).customId) == category
  {
    StartsWithConcat(CreateButtonPrefix, category);
    UpToWithoutSep(category);
  }

  /** An entry button id built from a category without `_` opens that category. */
  lemma EntryButtonOpens(id: string, category: string)
    requires '_' !in category && id == CreateButtonPrefix + category
    ensures StartsWith(id, CreateButtonPrefix) && ButtonCategory(id) == category
  {
    CategoryRoundTrip(category);
  }

  /** The default entry panel's buttons open an "order", an "issue" and a "help" ticket, in that order. */
  lemma EntryPanelCategories(i: nat)
    requires i < |EntryPanelButtons|
    ensures StartsWith(EntryPanelButtons[i].customId, CreateButtonPrefix)
    ensures ButtonCategory(EntryPanelButtons[i].customId) == ["order", "issue", "help"][i]
  {
    var category := ["order", "issue", "help"][i];
    assert EntryPanelButtons[i].customId == CreateButtonPrefix + category;
    EntryButtonOpens(EntryPanelButtons[i].customId, category);
  }

  /**
   * A button added in the editor gets the category up to the first `_` of
   * its sanitised label, so a label with a space or an underscore loses the
   * rest of its words: "General Help" opens a "general" ticket.
   */
  lemma EditorButtonCategoryIsCut(labelText: string)
    ensures StartsWith(TicketEditor.ButtonCustomId(labelText), CreateButtonPrefix)
    ensures ButtonCategory(TicketEditor.ButtonCustomId(labelText)) == UpTo(TicketEditor.SanitizeLabel(labelText), '_')
    ensures '_' !in TicketEditor.SanitizeLabel(labelText) ==>
      ButtonCategory(TicketEditor.ButtonCustomId(labelText)) == TicketEditor.SanitizeLabel(labelText)
  {
    var category := TicketEditor.SanitizeLabel(labelText);
    StartsWithConcat(CreateButtonPrefix, category);
    if '_' !in category {
      UpToWithoutSep(category);
    }
  }

  /** The sanitised label of "General Help" is "general_help", and the category read back is "general". */
  lemma GeneralHelpExample()
    ensures TicketEditor.SanitizeLabel("General Help") == "general_help"
    ensures UpTo(TicketEditor.SanitizeLabel("General Help"), '_') == "general"
  {
    var s := TicketEditor.SanitizeLabel("General Help");
    assert s[0] == 'g' && s[1] == 'e' && s[2] == 'n' && s[3] == 'e' && s[4] == 'r' && s[5] == 'a';
    assert s[6] == 'l' && s[7] == '_' && s[8] == 'h' && s[9] == 'e' && s[10] == 'l' && s[11] == 'p';
    assert s == "general_help";
    assert s[..7] == "general";
    UpToFirstSep(s, '_', 7);
  }

  /** What the button handler answers. */
  datatype ButtonOutcome =
    | AlreadyOpen(existingChannelId: string)
    | ShowCreateModal(modal: CreateModal)
    | NoTextChannel
    | NotATicket
    | AlreadyClaimedOrClosed
    | ClaimedWithControls(ticket: Ticket, controls: seq<ControlButton>)
    | AlreadyClosed
    | ClosedDeleting(ticket: Ticket, deleteAfterMs: nat)
    | NotAButtonOfTickets

  const ChannelDeleteDelayMs: nat := 5000

  lemma InTableHasTicket(ts: seq<Ticket>, t: Ticket)
    requires TicketIdsDense(ts) && t in ts
    ensures HasTicket(ts, t.id) && ts[t.id - 1] == t
  {
    var i :| 0 <= i < |ts| && ts[i] == t;
  }

  /**
   * Handles a ticket button. `channel` is the id of the text channel the
   * button was pressed in, if it is one.
   */
  method HandleButton(db: Store, customId: string, userId: string, guildId: string, channel: Option<string>, now: nat)
    returns (out: ButtonOutcome)
    requires db.Valid()
    modifies db`tickets, db`events, db`metrics, db`profiles
    ensures db.Valid()
    ensures StartsWith(customId, CreateButtonPrefix) ==>
      unchanged(db)
      && (out.ShowCreateModal? <==> forall t :: t in old(db.tickets) ==> !IsOpenTicketOf(t, userId, guildId))
      && (out.ShowCreateModal? ==> out.modal == GetCreateModal(ButtonCategory(customId)))
      && (!out.ShowCreateModal? ==>
            exists t :: t in old(db.tickets) && IsOpenTicketOf(t, userId, guildId) && out == AlreadyOpen(t.channelId))
    ensures customId == "ticket_claim" ==>
      var t := if channel.Some? then GetTicketByChannel(old(db.tickets), channel.value) else None;
      (out == NoTextChannel <==> channel.None?)
      && (out == NotATicket <==> channel.Some? && t.None?)
      && (out == AlreadyClaimedOrClosed <==> t.Some? && t.value.status != OPEN)
      && (out.ClaimedWithControls? <==> t.Some? && t.value.status == OPEN)
      && (!out.ClaimedWithControls? ==> unchanged(db))
      && (out.ClaimedWithControls? ==>
            out.ticket == t.value.(status := CLAIMED, claimedBy := Some(userId))
            && db.tickets == old(db.tickets)[t.value.id - 1 := out.ticket]
            && db.events == old(db.events) + [TicketEvent(t.value.id, userId, Claimed)]
            && db.metrics == old(db.metrics) && db.profiles == old(db.profiles)
            && out.controls == TicketControls(CLAIMED))
    ensures customId == "ticket_close" ==>
      var t := if channel.Some? then GetTicketByChannel(old(db.tickets), channel.value) else None;
      (out == NoTextChannel <==> channel.None?)
      && (out == NotATicket <==> channel.Some? && t.None?)
      && (out == AlreadyClosed <==> t.Some? && t.value.status == CLOSED)
      && (out.ClosedDeleting? <==> t.Some? && t.value.status != CLOSED)
      && (!out.ClosedDeleting? ==> unchanged(db))
      && (out.ClosedDeleting? ==>
            var key := MetricsCollector.TodayKey(userId, t.value.guildId, now);
            out.ticket == t.value.(status := CLOSED, closedAt := Some(now))
            && out.deleteAfterMs == ChannelDeleteDelayMs
            && db.tickets == old(db.tickets)[t.value.id - 1 := out.ticket]
            && db.events == old(db.events) + [TicketEvent(t.value.id, userId, Closed)]
            && db.metrics == MetricsCollector.ResolutionUpsert(old(db.metrics), key, ResolutionSeconds(t.value.createdAt, now))
            && db.profiles == BurnoutDetector.ProfilesAfterBurnout(db.metrics, old(db.profiles), userId, t.value.guildId, now))
    ensures !StartsWith(customId, CreateButtonPrefix) && customId != "ticket_claim" && customId != "ticket_close" ==>
      out == NotAButtonOfTickets && unchanged(db)
  {
    if StartsWith(customId, CreateButtonPrefix) {
      var category := ButtonCategory(customId);
      var existing := GetOpenTicketByUser(db.tickets, userId, guildId);
      if existing.Some? {
        return AlreadyOpen(existing.value.channelId);
      }
      return ShowCreateModal(GetCreateModal(category));
    }

    if customId == "ticket_claim" {
      if channel.None? {
        return NoTextChannel;
      }
      var ticket := GetTicketByChannel(db.tickets, channel.value);
      if ticket.None? {
        return NotATicket;
      }
      if ticket.value.status != OPEN {
        return AlreadyClaimedOrClosed;
      }
      InTableHasTicket(db.tickets, ticket.value);
      var claimed := ClaimTicket(db, ticket.value.id, userId);
      return ClaimedWithControls(claimed.value, TicketControls(CLAIMED));
    }

    if customId == "ticket_close" {
      if channel.None? {
        return NoTextChannel;
      }
      var ticket := GetTicketByChannel(db.tickets, channel.value);
      if ticket.None? {
        return NotATicket;
      }
      if ticket.value.status == CLOSED {
        return AlreadyClosed;
      }
      InTableHasTicket(db.tickets, ticket.value);
      var closed := CloseTicket(db, ticket.value.id, userId, now);
      return ClosedDeleting(closed.value, ChannelDeleteDelayMs);
    }

    return NotAButtonOfTickets;
  }

  /** What the modal handler answers. */
  datatype ModalOutcome =
    | NotACreateModal
    | TicketOpened(created: CreatedTicket, controls: seq<ControlButton>)
    | CreateFailed(message: string)

  const CreateFailedPrefix := "Failed to create ticket: "

  /**
   * Handles a modal submission: only `ticket_modal_<category>` ids create a
   * ticket; a refused creation is reported with the error's message.
   * `channelId` is the id of the channel the platform creates.
   */
  method HandleModal(db: Store, customId: string, guildId: string, memberId: string, username: string,
                     subject: string, description: string, channelId: string, now: nat)
    returns (out: ModalOutcome)
    requires db.Valid()
    modifies db`tickets, db`events
    ensures db.Valid()
    ensures !StartsWith(customId, CreateModalPrefix) ==> out == NotACreateModal && unchanged(db)
    ensures StartsWith(customId, CreateModalPrefix) ==>
      (out.TicketOpened? <==> Configured(db.ticketConfigs, guildId))
      && (out.CreateFailed? ==> out.message == CreateFailedPrefix + NotConfiguredMessage && unchanged(db))
    ensures out.TicketOpened? ==>
      var t := out.created.ticket;
      t.categoryId == ModalCategory(customId) && t.ownerId == memberId && t.status == OPEN && t.claimedBy.None?
      && db.tickets == old(db.tickets) + [t]
      && db.events == old(db.events) + [TicketEvent(t.id, memberId, Created)]
      && out.created.channelName == TicketChannelName(ModalCategory(customId), username)
      && out.controls == [ClaimButton, CloseButton]
  {
    if !StartsWith(customId, CreateModalPrefix) {
      return NotACreateModal;
    }
    var category := ModalCategory(customId);
    var r := CreateTicket(db, guildId, memberId, username, category, subject, description, channelId, now);
    if r.Err? {
      return CreateFailed(CreateFailedPrefix + r.error);
    }
    ControlsByStatus(OPEN);
    out := TicketOpened(r.value, TicketControls(OPEN));
  }
}
