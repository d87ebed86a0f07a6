/**
 * The fixed ticket components (src/tickets/panels.ts): the entry panel's
 * buttons, the ticket-creation modal and the control row shown in a
 * ticket channel. Embeds, emoji and colours are layout and are not kept.
 */
module TicketPanels {
  import opened Common
  import opened Tables

  datatype ButtonStyle = Primary | Secondary | Success | Danger

  /** A button as far as behaviour goes: the id it reports, its label and its style. */
  datatype ControlButton = ControlButton(customId: string, labelText: string, style: ButtonStyle)

  const ClaimButton := ControlButton("ticket_claim", "Claim Ticket", Primary)
  const CloseButton := ControlButton("ticket_close", "Close", Danger)

  /** The three buttons of the default entry panel, in display order. */
  const EntryPanelButtons: seq<ControlButton> := [
    ControlButton("ticket_create_order", "Order Support", Success),
    ControlButton("ticket_create_issue", "Report Issue", Danger),
    ControlButton("ticket_create_help", "General Help", Secondary)
  ]

  /** The control row of a ticket channel: a claim button while OPEN, then always close. */
  function TicketControls(status: TicketStatus): (row: seq<ControlButton>)
    ensures |row| >= 1 && row[|row| - 1] == CloseButton
    ensures ClaimButton in row <==> status == OPEN
  {
    (if status == OPEN then [ClaimButton] else []) + [CloseButton]
  }

  /** OPEN tickets show [claim, close]; every other status shows [close] only. */
  lemma ControlsByStatus(status: TicketStatus)
    ensures status == OPEN ==> TicketControls(status) == [ClaimButton, CloseButton]
    ensures status != OPEN ==> TicketControls(status) == [CloseButton]
  {
  }

  /** The ticket-creation modal: its id, title and the two input length limits. */
  datatype CreateModal = CreateModal(customId: string, title: string, subjectMaxLength: nat, descriptionMaxLength: nat)

  const CreateModalPrefix := "ticket_modal_"
  const SubjectMaxLength: nat := 100
  const DescriptionMaxLength: nat := 1000

  /** `charAt(0).toUpperCase() + slice(1)`: only the first character changes. */
  function Capitalize(s: string): (r: string)
    ensures |r| == |s|
    ensures |s| > 0 ==> r[0] == UpperChar(s[0]) && r[1..] == s[1..]
  {
    if |s| == 0 then "" else [UpperChar(s[0])] + s[1..]
  }

  function GetCreateModal(category: string): (m: CreateModal)
    ensures StartsWith(m.customId, CreateModalPrefix)
    ensures m.customId[|CreateModalPrefix|..] == category
    ensures m.subjectMaxLength == 100 && m.descriptionMaxLength == 1000
  {
    CreateModal(CreateModalPrefix + category, "New " + Capitalize(category) + " Ticket", SubjectMaxLength, DescriptionMaxLength)
  }

  /** The title is "New <Category> Ticket", where only the category's first character is upper-cased. */
  lemma CreateModalTitle(category: string)
    requires |category| > 0
    ensures var t := GetCreateModal(category).title;
      |t| == |category| + 11
      && t[..4] == "New " && t[4] == UpperChar(category[0])
      && t[5..|category| + 4] == category[1..]
      && t[|category| + 4..] == " Ticket"
  {
  }
}
