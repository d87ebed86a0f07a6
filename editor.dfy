/**
 * The ticket panel editor (src/tickets/editor.ts): routing of the editor's
 * component and modal ids, panel resolution by id or name, and the
 * add-button form, whose colour input is normalised to a style name and
 * whose label becomes the ticket category of the new button.
 */
module TicketEditor {
  import opened Common
  import opened TicketPanels
  import opened PanelService

  /** What the editor does for an interaction, by customId. */
  datatype EditorAction =
    | ShowCreatePanelModal
    | ShowManager
    | OpenEditor(panelIdOrName: string)
    | EditEmbed(panelId: string)
    | ManageButtons(panelId: string)
    | ShowAddButtonModal(panelId: string)
    | RemoveSelectedButton(panelId: string, buttonId: string)
    | DeletePanel(panelId: string)
    | Preview(panelId: string)
    | ChooseChannel(panelId: string)
    | SendToChannel(panelId: string, channelId: string)
    | SubmitCreatePanel
    | SubmitEmbed(panelId: string)
    | SubmitAddButton(panelId: string)
    | NoAction

  /** `id.replace(prefix, '')` for an id that starts with the prefix. */
  function After(id: string, prefix: string): string
    requires StartsWith(id, prefix)
  {
    id[|prefix|..]
  }

  /**
   * The button and select-menu branch, first match wins. `firstValue` is the
   * first selected value of a select menu.
   */
  function RouteComponent(kind: InteractionKind, id: string, firstValue: string): EditorAction
    requires kind == Button || IsAnySelectMenu(kind)
  {
    if id == "editor_manager_create" then ShowCreatePanelModal
    else if id == "editor_manager_refresh" || id == "editor_back_manager" then ShowManager
    else if id == "editor_manager_select" then
      (if kind == StringSelect then OpenEditor(firstValue) else NoAction)
    else if StartsWith(id, "editor_back_") then
      (var panelId := After(id, "editor_back_");
       if panelId == "manager" then ShowManager else OpenEditor(panelId))
    else if StartsWith(id, "editor_edit_embed_") then EditEmbed(After(id, "editor_edit_embed_"))
    else if StartsWith(id, "editor_manage_buttons_") then ManageButtons(After(id, "editor_manage_buttons_"))
    else if StartsWith(id, "editor_add_btn_") then ShowAddButtonModal(After(id, "editor_add_btn_"))
    else if StartsWith(id, "editor_remove_btn_select_") then
      (if kind == StringSelect then RemoveSelectedButton(After(id, "editor_remove_btn_select_"), firstValue) else NoAction)
    else if StartsWith(id, "editor_delete_") then DeletePanel(After(id, "editor_delete_"))
    else if StartsWith(id, "editor_preview_") then Preview(After(id, "editor_preview_"))
    else if StartsWith(id, "editor_send_channel_") then ChooseChannel(After(id, "editor_send_channel_"))
    else if StartsWith(id, "editor_final_send_") then
      (if kind == ChannelSelect then SendToChannel(After(id, "editor_final_send_"), firstValue) else NoAction)
    else NoAction
  }

  /** The modal branch. */
  function RouteModal(id: string): EditorAction
  {
    if id == "editor_modal_create_panel" then SubmitCreatePanel
    else if StartsWith(id, "editor_modal_embed_") then SubmitEmbed(After(id, "editor_modal_embed_"))
    else if StartsWith(id, "editor_modal_addbtn_") then SubmitAddButton(After(id, "editor_modal_addbtn_"))
    else NoAction
  }

  /** Without a guild the editor does nothing; otherwise components and modals are routed separately. */
  function Route(hasGuild: bool, kind: InteractionKind, id: string, firstValue: string): EditorAction
  {
    if !hasGuild then NoAction
    else if kind == Button || IsAnySelectMenu(kind) then RouteComponent(kind, id, firstValue)
    else if kind == ModalSubmit then RouteModal(id)
    else NoAction
  }

  /** `editor_back_manager` shows the manager; `editor_back_<x>` for any other x opens panel x. */
  lemma BackRouting(kind: InteractionKind, x: string, firstValue: string)
    requires kind == Button || IsAnySelectMenu(kind)
    ensures x == "manager" ==> Route(true, kind, "editor_back_" + x, firstValue) == ShowManager
    ensures x != "manager" ==> Route(true, kind, "editor_back_" + x, firstValue) == OpenEditor(x)
  {
    StartsWithConcat("editor_back_", x);
    var id := "editor_back_" + x;
    assert id[..12] == "editor_back_";
    assert id != "editor_manager_create" && id != "editor_manager_refresh" && id != "editor_manager_select" by {
      assert id[7] == 'b';
    }
  }

  /** The manager's panel list and the button removal list only act on string select menus, the channel picker only on channel selects. */
  lemma SelectKindsChecked(kind: InteractionKind, panelId: string, firstValue: string)
    requires kind == Button || IsAnySelectMenu(kind)
    ensures kind != StringSelect ==> Route(true, kind, "editor_manager_select", firstValue) == NoAction
    ensures kind == StringSelect ==> Route(true, kind, "editor_manager_select", firstValue) == OpenEditor(firstValue)
    ensures kind != ChannelSelect ==> Route(true, kind, "editor_final_send_" + panelId, firstValue) == NoAction
  {
    FinalSendPassesEarlierTests(panelId);
    assert "editor_manager_select"[15] == 's';
  }

  /** `editor_final_send_<x>` fails every test of the component chain before its own. */
  lemma FinalSendPassesEarlierTests(panelId: string)
    ensures var id := "editor_final_send_" + panelId;
      StartsWith(id, "editor_final_send_")
      && id != "editor_manager_create" && id != "editor_manager_refresh" && id != "editor_back_manager"
      && id != "editor_manager_select"
      && !StartsWith(id, "editor_back_") && !StartsWith(id, "editor_edit_embed_")
      && !StartsWith(id, "editor_manage_buttons_") && !StartsWith(id, "editor_add_btn_")
      && !StartsWith(id, "editor_remove_btn_select_") && !StartsWith(id, "editor_delete_")
      && !StartsWith(id, "editor_preview_") && !StartsWith(id, "editor_send_channel_")
  {
    var id := "editor_final_send_" + panelId;
    StartsWithConcat("editor_final_send_", panelId);
    assert id[7] == "editor_final_send_"[7] == 'f';
    DiffersAt(id, "editor_manager_create", 7);
    DiffersAt(id, "editor_manager_refresh", 7);
    DiffersAt(id, "editor_back_manager", 7);
    DiffersAt(id, "editor_manager_select", 7);
    DiffersAt(id, "editor_back_", 7);
    DiffersAt(id, "editor_edit_embed_", 7);
    DiffersAt(id, "editor_manage_buttons_", 7);
    DiffersAt(id, "editor_add_btn_", 7);
    DiffersAt(id, "editor_remove_btn_select_", 7);
    DiffersAt(id, "editor_delete_", 7);
    DiffersAt(id, "editor_preview_", 7);
    DiffersAt(id, "editor_send_channel_", 7);
  }

  /**
   * `resolvePanel`: the panel with this id, of any guild, and only when
   * there is none, the guild's panel with this name.
   */
  function ResolvePanel(panels: seq<Panel>, buttons: seq<PanelButton>, guildId: string, idOrName: string): (r: Option<PanelWithButtons>)
    ensures r.Some? ==> r.value.panel in panels && (r.value.panel.id == idOrName || NameIs(r.value.panel, guildId, idOrName))
    ensures r.None? <==> forall p :: p in panels ==> p.id != idOrName && !NameIs(p, guildId, idOrName)
    ensures (exists p :: p in panels && p.id == idOrName) ==> r.Some? && r.value.panel.id == idOrName
  {
    var byId := GetPanelById(panels, buttons, idOrName);
    if byId.Some? then byId else GetPanelByName(panels, buttons, guildId, idOrName)
  }

  const SecondaryAliases: seq<string> := ["SECONDARY", "GREY", "GRAY", "NEUTRAL"]
  const SuccessAliases: seq<string> := ["SUCCESS", "GREEN"]
  const DangerAliases: seq<string> := ["DANGER", "RED"]

  /** The style name stored for a colour input, compared after upper-casing; PRIMARY is the default. */
  predicate IsNormalizedStyle(style: string, input: string)
  {
    var u := ToUpper(input);
    (style == "SECONDARY" <==> u in SecondaryAliases)
    && (style == "SUCCESS" <==> u in SuccessAliases)
    && (style == "DANGER" <==> u in DangerAliases)
    && (style == "PRIMARY" <==> u !in SecondaryAliases && u !in SuccessAliases && u !in DangerAliases)
  }

  /** The upper-cased input is checked against each alias list in turn; the lists are disjoint. */
  method NormalizeStyle(input: string) returns (style: string)
    ensures IsNormalizedStyle(style, input)
    ensures style in ["PRIMARY", "SECONDARY", "SUCCESS", "DANGER"]
  {
    var styleInput := ToUpper(input);
    style := "PRIMARY";
    if styleInput in SecondaryAliases { style := "SECONDARY"; }
    if styleInput in SuccessAliases { style := "SUCCESS"; }
    if styleInput in DangerAliases { style := "DANGER"; }
  }

  /** A normalised style is one the panel renderer knows, and it renders as the colour the input named. */
  lemma NormalizedStyleRenders(style: string, input: string)
    requires IsNormalizedStyle(style, input)
    ensures var u := ToUpper(input);
      MapButtonStyle(style) == (if u in SecondaryAliases then Secondary
                                else if u in SuccessAliases then Success
                                else if u in DangerAliases then Danger
                                else Primary)
  {
    var u := ToUpper(input);
    assert ToUpper("PRIMARY") == "PRIMARY";
    assert ToUpper("SECONDARY") == "SECONDARY";
    assert ToUpper("SUCCESS") == "SUCCESS";
    assert ToUpper("DANGER") == "DANGER";
  }

  predicate IsLowerAlnum(c: char)
  {
    'a' <= c <= 'z' || '0' <= c <= '9'
  }

  predicate CategoryChar(c: char)
  {
    IsLowerAlnum(c) || c == '_'
  }

  /** One character of `toLowerCase().replace(/[^a-z0-9]/g, '_')`. */
  function SanitizeChar(c: char): char
  {
    if IsLowerAlnum(LowerChar(c)) then LowerChar(c) else '_'
  }

  /** The ticket category derived from a button label. */
  function SanitizeLabel(labelText: string): (category: string)
    ensures |category| == |labelText|
    ensures forall i :: 0 <= i < |category| ==> CategoryChar(category[i])
    ensures forall i :: 0 <= i < |category| ==>
      (category[i] == '_' <==> !IsLowerAlnum(LowerChar(labelText[i])))
      && (category[i] != '_' ==> category[i] == LowerChar(labelText[i]))
  {
    seq(|labelText|, i requires 0 <= i < |labelText| => SanitizeChar(labelText[i]))
  }

  /** A category is its own sanitisation, so sanitising is idempotent. */
  lemma SanitizeLabelIdempotent(labelText: string)
    ensures SanitizeLabel(SanitizeLabel(labelText)) == SanitizeLabel(labelText)
  {
  }

  const CreateButtonPrefix := "ticket_create_"

  /** The customId of a button added from the editor. */
  function ButtonCustomId(labelText: string): (id: string)
    ensures StartsWith(id, CreateButtonPrefix) && id[|CreateButtonPrefix|..] == SanitizeLabel(labelText)
  {
    CreateButtonPrefix + SanitizeLabel(labelText)
  }

  /**
   * Submits the add-button form for panel `panelId`: nothing happens when no
   * panel has that id; otherwise the button is added under the panel's name
   * in the interaction's guild, which fails with "Panel not found" when the
   * panel belongs to another guild. `newId` is the id the database generates.
   */
  method SubmitAddButtonForm(store: PanelStore, guildId: string, panelId: string, labelText: string,
                             styleInput: string, newId: string) returns (r: Option<Result<PanelButton>>)
    requires store.Valid()
    requires forall b :: b in store.buttons ==> b.id != newId
    modifies store`buttons
    ensures store.Valid()
    ensures r.None? <==> GetPanelById(store.panels, old(store.buttons), panelId).None?
    ensures r.None? ==> store.buttons == old(store.buttons)
    ensures r.Some? ==>
      var panel := GetPanelById(store.panels, old(store.buttons), panelId).value.panel;
      (r.value.Ok? <==> GetPanelByName(store.panels, old(store.buttons), guildId, panel.name).Some?)
      && (r.value.Err? ==> store.buttons == old(store.buttons))
    ensures r.Some? && r.value.Ok? ==>
      var b := r.value.value;
      var named := GetPanelByName(store.panels, old(store.buttons), guildId,
                                  GetPanelById(store.panels, old(store.buttons), panelId).value.panel.name).value.panel;
      b.id == newId && b.panelId == named.id && named.guildId == guildId
      && b.order == NextOrder(old(store.buttons), named.id)
      && (forall x :: x in store.buttons && x.panelId != named.id ==> x in old(store.buttons))
      && store.buttons == old(store.buttons) + [b]
      && b.customId == ButtonCustomId(labelText) && b.labelText == labelText && b.emoji.None?
      && IsNormalizedStyle(b.style, styleInput)
      && forall x :: x in old(store.buttons) && x.panelId == b.panelId ==> x.order < b.order
  {
    var style := NormalizeStyle(styleInput);
    var category := SanitizeLabel(labelText);
    var panel := GetPanelById(store.panels, store.buttons, panelId);
    if panel.None? {
      return None;
    }
    var added := store.AddButton(guildId, panel.value.panel.name, labelText, style, CreateButtonPrefix + category, None, newId);
    r := Some(added);
  }
}
