/**
 * The help interactions (src/help/help.router.ts): only the member who
 * opened a help message may use it; Close deletes it, Home shows the home
 * screen, and the page menu shows a page the member may see.
 */
module HelpRouter {
  import opened Common
  import opened HelpUi

  const NotYoursMessage := "⛔ This help menu belongs to someone else. Run `/help` to open your own."
  const NotFoundMessage := "❌ Module not found."

  /**
   * A help interaction: who clicked, who opened the message (None when the
   * message has no originating interaction), the custom id, the selected
   * values and the clicker's permissions.
   */
  datatype HelpInteraction = HelpInteraction(userId: string, originUserId: Option<string>, customId: string,
                                             values: seq<string>, admin: AdminFlag)

  /** What the router does. */
  datatype HelpOutcome =
    | Refused(message: string)
    | MessageDeleted
    | HomeShown(navigation: seq<MenuOption>, buttons: seq<RowButton>)
    | PageShown(embed: Embed, navigation: seq<MenuOption>, buttons: seq<RowButton>)
    | NoResponse

  /** `handleInteraction`, over all pages and the branding; `stripEmoji` as in `NavigationOptions`. */
  function Handle(allPages: seq<HelpPage>, branding: Branding, stripEmoji: string -> string, ix: HelpInteraction): HelpOutcome
  {
    if ix.originUserId.Some? && ix.userId != ix.originUserId.value then Refused(NotYoursMessage)
    else if ix.customId == "help_close" then MessageDeleted
    else if ix.customId == "help_home" then
      var pages := GetPages(allPages, ix.admin);
      HomeShown(NavigationOptions(pages, None, stripEmoji), ButtonRow(true, branding.supportUrl))
    else if ix.customId == "help_select_module" then
      var selectedId := if |ix.values| > 0 then Some(ix.values[0]) else None;
      var pages := GetPages(allPages, ix.admin);
      var page := FindFirst(pages, (p: HelpPage) => selectedId == Some(p.id));
      if page.None? then Refused(NotFoundMessage)
      else PageShown(PageEmbed(page.value, branding), NavigationOptions(pages, selectedId, stripEmoji), ButtonRow(false, branding.supportUrl))
    else NoResponse
  }

  /** Someone other than the opener is refused, whatever they clicked. */
  lemma OnlyTheOpener(allPages: seq<HelpPage>, branding: Branding, stripEmoji: string -> string, ix: HelpInteraction)
    ensures Handle(allPages, branding, stripEmoji, ix) == Refused(NotYoursMessage)
            <==> ix.originUserId.Some? && ix.userId != ix.originUserId.value
  {
  }

  /** A page the member may not see cannot be selected, even by its id: it is "Module not found". */
  lemma HiddenPageNotFound(allPages: seq<HelpPage>, branding: Branding, stripEmoji: string -> string, ix: HelpInteraction)
    requires ix.originUserId.None? || ix.userId == ix.originUserId.value
    requires ix.customId == "help_select_module" && |ix.values| > 0
    requires forall p :: p in allPages && p.id == ix.values[0] ==> !Visible(p, ix.admin)
    ensures Handle(allPages, branding, stripEmoji, ix) == Refused(NotFoundMessage)
  {
  }

  /** A shown page is one the member may see, with the id selected; Home is enabled on it and disabled on the home screen. */
  lemma ScreensShown(allPages: seq<HelpPage>, branding: Branding, stripEmoji: string -> string, ix: HelpInteraction)
    ensures var r := Handle(allPages, branding, stripEmoji, ix);
      (r.HomeShown? ==> r.buttons[0].disabled && forall o :: o in r.navigation ==> !o.isDefault)
      && (r.PageShown? ==>
            !r.buttons[0].disabled && |ix.values| > 0
            && exists p :: p in allPages && Visible(p, ix.admin) && p.id == ix.values[0] && r.embed == PageEmbed(p, branding))
  {
    var r := Handle(allPages, branding, stripEmoji, ix);
    if r.HomeShown? {
      var nav := r.navigation;
      assert forall i :: 0 <= i < |nav| ==> !nav[i].isDefault;
    }
  }
}
