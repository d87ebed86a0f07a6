/**
 * The interaction event (src/events/interactionCreate.ts): slash commands
 * run by name; components and modals go, by the prefix of their custom id,
 * to help, tickets, the mod center, setup or the temporary-voice controls,
 * the first matching route winning; the voice controls check the channel
 * owner and apply the room settings.
 */
module InteractionCreate {
  import opened Common
  import opened VoiceService

  /** Where an interaction is sent. */
  datatype Route =
    | RunCommand(name: string)
    | UnknownCommand
    | ToHelp
    | ToTickets
    | ToModCenter
    | ToSetup
    | ToVoiceControls
    | Ignored

  /** A setup module key claims the ids that start with it and `_` or `:`. */
  predicate ClaimedByModule(moduleKeys: seq<string>, customId: string)
  {
    exists i :: 0 <= i < |moduleKeys| && (StartsWith(customId, moduleKeys[i] + "_") || StartsWith(customId, moduleKeys[i] + ":"))
  }

  predicate HelpKind(k: InteractionKind) { k == Button || k == StringSelect }
  predicate TicketKind(k: InteractionKind) { k == Button || k == ModalSubmit || k == StringSelect || k == ChannelSelect }
  predicate ModKind(k: InteractionKind) { k == Button || IsAnySelectMenu(k) }
  predicate SetupKind(k: InteractionKind) { k == Button || k == StringSelect || k == ChannelSelect || k == ModalSubmit }
  predicate VoiceKind(k: InteractionKind) { k == Button || k == ModalSubmit || k == UserSelect || k == StringSelect }

  predicate IsHelpId(id: string) { StartsWith(id, "help_") }
  predicate IsTicketId(id: string) { StartsWith(id, "ticket_") || StartsWith(id, "editor_") }
  predicate IsModId(id: string) { StartsWith(id, "mod_") }
  predicate IsSetupId(id: string, moduleKeys: seq<string>) { StartsWith(id, "setup_") || ClaimedByModule(moduleKeys, id) }
  predicate IsVoiceId(id: string) { StartsWith(id, "vc_") }

  /**
   * The dispatch chain. `commands` holds the registered command names and
   * `moduleKeys` the setup registry's keys.
   */
  function Dispatch(kind: InteractionKind, customId: string, commandName: string,
                    commands: set<string>, moduleKeys: seq<string>): Route
  {
    if kind == ChatCommand then (if commandName in commands then RunCommand(commandName) else UnknownCommand)
    else if HelpKind(kind) && IsHelpId(customId) then ToHelp
    else if TicketKind(kind) && IsTicketId(customId) then ToTickets
    else if ModKind(kind) && IsModId(customId) then ToModCenter
    else if SetupKind(kind) && IsSetupId(customId, moduleKeys) then ToSetup
    else if VoiceKind(kind) && IsVoiceId(customId) then ToVoiceControls
    else Ignored
  }

  /** Each route is taken exactly when its own test passes and every earlier one fails. */
  lemma DispatchOrder(kind: InteractionKind, customId: string, commandName: string, commands: set<string>, moduleKeys: seq<string>)
    ensures var r := Dispatch(kind, customId, commandName, commands, moduleKeys);
      var help := HelpKind(kind) && IsHelpId(customId);
      var tickets := TicketKind(kind) && IsTicketId(customId);
      var mod := ModKind(kind) && IsModId(customId);
      var setup := SetupKind(kind) && IsSetupId(customId, moduleKeys);
      var voice := VoiceKind(kind) && IsVoiceId(customId);
      (r.RunCommand? <==> kind == ChatCommand && commandName in commands)
      && (r.RunCommand? ==> r.name == commandName)
      && (r == UnknownCommand <==> kind == ChatCommand && commandName !in commands)
      && (r == ToHelp <==> kind != ChatCommand && help)
      && (r == ToTickets <==> !help && tickets)
      && (r == ToModCenter <==> !help && !tickets && mod)
      && (r == ToSetup <==> !help && !tickets && !mod && setup)
      && (r == ToVoiceControls <==> !help && !tickets && !mod && !setup && voice)
      && (r == Ignored <==> kind != ChatCommand && !help && !tickets && !mod && !setup && !voice)
  {
  }

  /** The fixed prefixes start with different letters, so a custom id carries at most one of them. */
  lemma FixedPrefixesExclusive(id: string)
    ensures !(IsHelpId(id) && IsTicketId(id)) && !(IsHelpId(id) && IsModId(id)) && !(IsHelpId(id) && IsVoiceId(id))
    ensures !(IsTicketId(id) && IsModId(id)) && !(IsTicketId(id) && IsVoiceId(id)) && !(IsModId(id) && IsVoiceId(id))
    ensures !(StartsWith(id, "setup_") && (IsHelpId(id) || IsTicketId(id) || IsModId(id) || IsVoiceId(id)))
  {
    if |id| > 0 {
      if IsHelpId(id) { assert id[0] == "help_"[0]; }
      if StartsWith(id, "ticket_") { assert id[0] == "ticket_"[0]; }
      if StartsWith(id, "editor_") { assert id[0] == "editor_"[0]; }
      if IsModId(id) { assert id[0] == "mod_"[0]; }
      if StartsWith(id, "setup_") { assert id[0] == "setup_"[0]; }
      if IsVoiceId(id) { assert id[0] == "vc_"[0]; }
    }
  }

  /** How a failed command is answered: a follow-up once answered or deferred, a reply otherwise. */
  datatype ErrorAnswer = FollowUp | Reply | NoAnswer

  function CommandErrorAnswer(replied: bool, deferred: bool): (a: ErrorAnswer)
    ensures a != NoAnswer
    ensures a == FollowUp <==> replied || deferred
  {
    if replied || deferred then FollowUp else Reply
  }

  /** A failed mod-center handler is answered only if nothing answered the interaction yet. */
  function ModCenterErrorAnswer(replied: bool, deferred: bool): (a: ErrorAnswer)
    ensures a != FollowUp
    ensures a == Reply <==> !replied && !deferred
  {
    if !replied && !deferred then Reply else NoAnswer
  }

  /** The lowest and highest bitrates, in bits per second. */
  const MinBitrate := 8000
  const MaxBitrate := 96000

  /** `Math.max(8000, Math.min(96000, kbps * 1000))`. */
  function Bitrate(kbps: int): (bps: int)
    ensures MinBitrate <= bps <= MaxBitrate
    ensures 8 <= kbps <= 96 ==> bps == kbps * 1000
    ensures kbps < 8 ==> bps == MinBitrate
    ensures kbps > 96 ==> bps == MaxBitrate
  {
    var capped := if MaxBitrate < kbps * 1000 then MaxBitrate else kbps * 1000;
    if MinBitrate > capped then MinBitrate else capped
  }

  /** A voice-control interaction as the handler sees it. */
  datatype VoiceControl = VoiceControl(
    kind: InteractionKind,
    customId: string,
    channelId: Option<string>,     // the interaction's channel, when it is voice-based
    memberId: string,
    selectedId: string,            // the first value of a user menu
    selectedInChannel: bool,       // whether that user is in the room
    selectedIsMember: bool,        // whether fetching that user as a guild member succeeds
    text: string,                  // the modal's `val` input
    parsed: Option<int>)           // `parseInt(val)`, None for NaN

  /** What the voice controls answer. */
  datatype VoiceOutcome =
    | VoiceOnly
    | Silent
    | PanelRestored
    | OwnerOnly
    | UserMenu(menuId: string, placeholder: string)
    | ModalOpened(modalId: string)
    | Permitted(userId: string)
    | Kicked(userId: string)
    | Banned(userId: string)
    | NotInChannel(userId: string)
    | Transferred(userId: string)
    | Done
    | Renamed(name: string)
    | LimitSet(limit: int)
    | BitrateSet(bps: int)
    | InvalidNumber
    | InfoShown
    | Locked
    | Unlocked
    | Hidden
    | Shown
    | PermissionsReset
    | UseBan
    | Acknowledged
    | Crashed

  predicate OpensUserMenu(id: string) { id in {"vc_kick", "vc_ban", "vc_permit", "vc_transfer"} }
  predicate OpensModal(id: string) { id in {"vc_rename", "vc_limit", "vc_bitrate"} }

  function Placeholder(id: string): string
  {
    if id == "vc_kick" then "Select user to Kick"
    else if id == "vc_ban" then "Select user to Ban"
    else if id == "vc_permit" then "Select user to Permit"
    else if id == "vc_transfer" then "Select New Owner"
    else "Select User"
  }

  /** A submitted user menu: no owner check; kick and ban need the user in the room. */
  function UserSelection(c: VoiceControl, hasRecord: bool): VoiceOutcome
  {
    var user := c.selectedId;
    if c.customId == "vc_permit_sel" then Permitted(user)
    else if c.customId == "vc_kick_sel" then (if c.selectedInChannel then Kicked(user) else NotInChannel(user))
    else if c.customId == "vc_ban_sel" then (if c.selectedInChannel then Banned(user) else NotInChannel(user))
    else if c.customId == "vc_transfer_sel" then
      if !c.selectedIsMember then Done else if hasRecord then Transferred(user) else Crashed
    else Done
  }

  /** A submitted modal: the name is taken as typed; a number is required for the limit and the bitrate. */
  function ModalSubmission(c: VoiceControl): VoiceOutcome
  {
    if c.customId == "vc_rename_modal" then Renamed(c.text)
    else if c.customId == "vc_limit_modal" then (if c.parsed.Some? then LimitSet(c.parsed.value) else InvalidNumber)
    else if c.customId == "vc_bitrate_modal" then (if c.parsed.Some? then BitrateSet(Bitrate(c.parsed.value)) else InvalidNumber)
    else Acknowledged
  }

  /** An action button: `vc_info` for anyone, the rest for the owner only. */
  function ActionButton(id: string, isOwner: bool): VoiceOutcome
  {
    if id == "vc_info" then InfoShown
    else if !isOwner then OwnerOnly
    else if id == "vc_lock" then Locked
    else if id == "vc_unlock" then Unlocked
    else if id == "vc_hide" then Hidden
    else if id == "vc_show" then Shown
    else if id == "vc_reset" then PermissionsReset
    else if id == "vc_block" then UseBan
    else Acknowledged
  }

  /** The voice-control decision, given the room's recorded owner. */
  function VoiceDecision(c: VoiceControl, owner: Option<string>): VoiceOutcome
  {
    var isOwner := owner == Some(c.memberId);
    if c.channelId.None? then (if c.kind == ModalSubmit then Silent else VoiceOnly)
    else if c.customId == "vc_back" && c.kind == Button then PanelRestored
    else if OpensUserMenu(c.customId) then
      if !isOwner then OwnerOnly
      else if c.kind != Button then Silent
      else UserMenu(c.customId + "_sel", Placeholder(c.customId))
    else if OpensModal(c.customId) then
      if !isOwner then OwnerOnly
      else if c.kind != Button then Silent
      else ModalOpened(c.customId + "_modal")
    else if c.kind == UserSelect then UserSelection(c, owner.Some?)
    else if c.kind == ModalSubmit then ModalSubmission(c)
    else if c.kind == Button then ActionButton(c.customId, isOwner)
    else Silent
  }

  /** Outside a voice channel every control answers "Voice channels only", except a modal, which gets no answer. */
  lemma VoiceChannelsOnly(c: VoiceControl, owner: Option<string>)
    requires c.channelId.None?
    ensures VoiceDecision(c, owner) == if c.kind == ModalSubmit then Silent else VoiceOnly
  {
  }

  /** Menu- and modal-opening buttons and every action button but `vc_info` refuse anyone but the owner. */
  lemma OwnerGate(c: VoiceControl, owner: Option<string>)
    requires c.channelId.Some? && owner != Some(c.memberId)
    requires OpensUserMenu(c.customId) || OpensModal(c.customId) || (c.kind == Button && c.customId != "vc_info" && c.customId != "vc_back")
    ensures VoiceDecision(c, owner) == OwnerOnly
  {
  }

  /**
   * Every button of a room's control panel is sent to the voice controls
   * (unless a setup module key claims it first) and has a handler of its
   * own: the owner never gets the bare acknowledgement, anyone else is
   * refused unless the button is `vc_info`.
   */
  lemma ControlPanelButtonsHandled(c: VoiceControl, owner: Option<string>, commands: set<string>, moduleKeys: seq<string>)
    requires c.kind == Button && c.channelId.Some?
    requires exists row :: row in ControlPanelIds && c.customId in row
    ensures Dispatch(Button, c.customId, "", commands, moduleKeys) ==
      if ClaimedByModule(moduleKeys, c.customId) then ToSetup else ToVoiceControls
    ensures owner == Some(c.memberId) ==>
      var d := VoiceDecision(c, owner);
      d != Acknowledged && d != Silent && d != OwnerOnly
    ensures owner != Some(c.memberId) ==>
      VoiceDecision(c, owner) == if c.customId == "vc_info" then InfoShown else OwnerOnly
  {
    var row :| row in ControlPanelIds && c.customId in row;
    PanelIdKinds(c.customId, row);
    FixedPrefixesExclusive(c.customId);
  }

  /** A control-panel id starts with `vc_`, not `setup_`, and opens a menu, opens a modal or is an action with its own outcome. */
  lemma PanelIdKinds(id: string, row: seq<string>)
    requires row in ControlPanelIds && id in row
    ensures IsVoiceId(id) && !StartsWith(id, "setup_") && id != "vc_back"
    ensures OpensUserMenu(id) || OpensModal(id) || id in {"vc_reset", "vc_lock", "vc_unlock", "vc_block", "vc_hide", "vc_show", "vc_info"}
  {
    assert |id| >= 3 && id[..3] == "vc_" && id[0] == 'v';
  }

  /** A submitted user menu is decided the same way whoever owns the room. */
  lemma UserSelectNotOwnerChecked(c: VoiceControl, o1: string, o2: string)
    requires c.channelId.Some? && c.kind == UserSelect && !OpensUserMenu(c.customId) && !OpensModal(c.customId)
    ensures VoiceDecision(c, Some(o1)) == VoiceDecision(c, Some(o2))
  {
  }

  /** Kicking or banning someone who is not in the room does nothing to them. */
  lemma KickBanNeedPresence(c: VoiceControl, owner: Option<string>)
    requires c.channelId.Some? && c.kind == UserSelect && !c.selectedInChannel
    requires c.customId == "vc_kick_sel" || c.customId == "vc_ban_sel"
    ensures VoiceDecision(c, owner) == NotInChannel(c.selectedId)
  {
  }

  /** A numeric limit is applied as typed, with no clamping; a bitrate always lands in [8000, 96000]. */
  lemma ModalNumbers(c: VoiceControl, owner: Option<string>)
    requires c.channelId.Some? && c.kind == ModalSubmit && c.parsed.Some?
    ensures c.customId == "vc_limit_modal" ==> VoiceDecision(c, owner) == LimitSet(c.parsed.value)
    ensures c.customId == "vc_bitrate_modal" ==>
      VoiceDecision(c, owner).BitrateSet? && MinBitrate <= VoiceDecision(c, owner).bps <= MaxBitrate
  {
  }

  /** A modal whose text is not a number changes nothing and answers "Invalid Number". */
  lemma NonNumericChangesNothing(c: VoiceControl, owner: Option<string>)
    requires c.channelId.Some? && c.kind == ModalSubmit && c.parsed.None?
    requires c.customId == "vc_limit_modal" || c.customId == "vc_bitrate_modal"
    ensures VoiceDecision(c, owner) == InvalidNumber
  {
  }

  /**
   * The voice controls against the temp-channel records: the owner is read
   * from the room's record, and a transfer rewrites that record's owner.
   */
  method HandleVoiceControl(store: VoiceStore, c: VoiceControl) returns (outcome: VoiceOutcome)
    requires store.Valid()
    modifies store`records
    ensures store.Valid()
    ensures outcome == VoiceDecision(c, if c.channelId.Some? then old(store.GetOwner(c.channelId.value)) else None)
    ensures outcome.Transferred? ==>
      |store.records| == |old(store.records)|
      && forall i :: 0 <= i < |store.records| ==>
           store.records[i] == if old(store.records)[i].channelId == c.channelId.value
                               then old(store.records)[i].(ownerId := c.selectedId) else old(store.records)[i]
    ensures !outcome.Transferred? ==> store.records == old(store.records)
  {
    if c.channelId.None? {
      return if c.kind == ModalSubmit then Silent else VoiceOnly;
    }
    var channelId := c.channelId.value;
    var owner := store.GetOwner(channelId);
    outcome := VoiceDecision(c, owner);
    if outcome.Transferred? {
      var claimed := store.ClaimChannel(channelId, c.selectedId);
    }
  }
}
