/**
 * The help screens (src/help/help.ui.ts): the pages a member may see, the
 * page embed, the page menu and the button row.
 */
module HelpUi {
  import opened Common

  datatype HelpSection = HelpSection(title: string, content: string)

  datatype HelpPage = HelpPage(id: string, title: string, description: string, emoji: string,
                               sections: seq<HelpSection>, adminOnly: bool)

  /** The branding values the screens use. */
  datatype Branding = Branding(primaryColor: string, footerText: string, supportUrl: string)

  /**
   * The member's permissions as far as the filter reads them: None when the
   * interaction carries none, otherwise whether they include Administrator.
   */
  type AdminFlag = Option<bool>

  /** The filter applied to each page. */
  predicate Visible(page: HelpPage, admin: AdminFlag)
  {
    !page.adminOnly || admin == Some(true)
  }

  /** `getPages`: the pages the member may see, in their order. */
  function GetPages(pages: seq<HelpPage>, admin: AdminFlag): (r: seq<HelpPage>)
    ensures forall p :: p in r <==> p in pages && Visible(p, admin)
    ensures |r| <= |pages|
  {
    if |pages| == 0 then []
    else
      var rest := GetPages(pages[..|pages| - 1], admin);
      var last := pages[|pages| - 1];
      assert forall p :: p in pages <==> p in pages[..|pages| - 1] || p == last;
      rest + (if Visible(last, admin) then [last] else [])
  }

  /** Filtering commutes with concatenation, so the kept pages stay in their order. */
  lemma {:induction false} GetPagesConcat(a: seq<HelpPage>, b: seq<HelpPage>, admin: AdminFlag)
    ensures GetPages(a + b, admin) == GetPages(a, admin) + GetPages(b, admin)
    decreases |b|
  {
    if |b| == 0 {
      assert a + b == a;
    } else {
      var b' := b[..|b| - 1];
      var last := b[|b| - 1];
      var tail := if Visible(last, admin) then [last] else [];
      GetPagesConcat(a, b', admin);
      assert (a + b)[..|a + b| - 1] == a + b';
      assert (a + b)[|a + b| - 1] == last;
      assert GetPages(a + b, admin) == GetPages(a + b', admin) + tail;
      assert GetPages(b, admin) == GetPages(b', admin) + tail;
      assert GetPages(a, admin) + GetPages(b', admin) + tail == GetPages(a, admin) + (GetPages(b', admin) + tail);
    }
  }

  /** Without permissions, or without Administrator, no admin page is shown; every other page always is. */
  lemma AdminPagesNeedAdministrator(pages: seq<HelpPage>, admin: AdminFlag)
    ensures admin != Some(true) ==> forall p :: p in GetPages(pages, admin) ==> !p.adminOnly
    ensures forall p :: p in pages && !p.adminOnly ==> p in GetPages(pages, admin)
    ensures admin == Some(true) ==> GetPages(pages, admin) == pages
  {
    if admin == Some(true) {
      AdminSeesAll(pages);
    }
  }

  lemma {:induction false} AdminSeesAll(pages: seq<HelpPage>)
    ensures GetPages(pages, Some(true)) == pages
  {
    if |pages| > 0 {
      AdminSeesAll(pages[..|pages| - 1]);
      assert pages[..|pages| - 1] + [pages[|pages| - 1]] == pages;
    }
  }

  datatype EmbedField = EmbedField(name: string, value: string)

  datatype Embed = Embed(title: string, description: string, color: string, footer: string, fields: seq<EmbedField>)

  /** One field per section, in order. */
  function SectionFields(sections: seq<HelpSection>): (fields: seq<EmbedField>)
    ensures |fields| == |sections|
    ensures forall i :: 0 <= i < |sections| ==> fields[i] == EmbedField(sections[i].title, sections[i].content)
  {
    if |sections| == 0 then []
    else SectionFields(sections[..|sections| - 1]) + [EmbedField(sections[|sections| - 1].title, sections[|sections| - 1].content)]
  }

  /** `getPageEmbed`. */
  function PageEmbed(page: HelpPage, branding: Branding): (e: Embed)
    ensures e.title == page.emoji + " " + page.title && e.description == page.description
    ensures |e.fields| == |page.sections|
    ensures forall i :: 0 <= i < |page.sections| ==> e.fields[i].name == page.sections[i].title && e.fields[i].value == page.sections[i].content
  {
    Embed(page.emoji + " " + page.title, page.description, branding.primaryColor, branding.footerText, SectionFields(page.sections))
  }

  /** An option of the page menu. */
  datatype MenuOption = MenuOption(labelText: string, value: string, emoji: string, description: string, isDefault: bool)

  /** The first `n` characters of `s` (`substring(0, n)`). */
  function Prefix(s: string, n: nat): (r: string)
    ensures |r| <= n && |r| <= |s| && r == s[..|r|]
    ensures |s| <= n ==> r == s
  {
    if |s| <= n then s else s[..n]
  }

  /**
   * `getNavigationRow`: one option per page, in order. `stripEmoji` stands
   * for removing emoji with the source's regular expression and trimming.
   */
  function NavigationOptions(pages: seq<HelpPage>, selectedId: Option<string>, stripEmoji: string -> string): (options: seq<MenuOption>)
    ensures |options| == |pages|
    ensures forall i :: 0 <= i < |pages| ==>
      options[i].value == pages[i].id && options[i].emoji == pages[i].emoji
      && options[i].labelText == stripEmoji(pages[i].title)
      && |options[i].description| <= 100 && options[i].description == Prefix(pages[i].description, 100)
      && (options[i].isDefault <==> selectedId == Some(pages[i].id))
  {
    if |pages| == 0 then []
    else
      var p := pages[|pages| - 1];
      NavigationOptions(pages[..|pages| - 1], selectedId, stripEmoji)
      + [MenuOption(stripEmoji(p.title), p.id, p.emoji, Prefix(p.description, 100), selectedId == Some(p.id))]
  }

  /** With distinct page ids, the selected page is the only default option. */
  lemma OnlySelectedIsDefault(pages: seq<HelpPage>, selectedId: string, stripEmoji: string -> string)
    requires forall i, j :: 0 <= i < j < |pages| ==> pages[i].id != pages[j].id
    ensures var options := NavigationOptions(pages, Some(selectedId), stripEmoji);
      forall i, j :: 0 <= i < |options| && 0 <= j < |options| && options[i].isDefault && options[j].isDefault ==> i == j
  {
  }

  /** A button of the row; link buttons carry a URL instead of a custom id. */
  datatype RowButton = RowButton(customId: Option<string>, labelText: string, disabled: bool, url: Option<string>)

  function HomeButton(isHome: bool): RowButton { RowButton(Some("help_home"), "Home", isHome, None) }
  function SupportButton(url: string): RowButton { RowButton(None, "Support", false, Some(url)) }
  const CloseButton := RowButton(Some("help_close"), "Close", false, None)

  /** `getButtonRow`: Home (disabled on the home screen), Support when a support URL is set, then Close. */
  function ButtonRow(isHome: bool, supportUrl: string): (row: seq<RowButton>)
    ensures |row| == if supportUrl != "" then 3 else 2
    ensures row[0] == HomeButton(isHome) && row[0].disabled == isHome
    ensures row[|row| - 1] == CloseButton
    ensures supportUrl != "" ==> row[1] == SupportButton(supportUrl)
    ensures forall i :: 0 <= i < |row| && row[i].labelText == "Support" ==> supportUrl != ""
  {
    [HomeButton(isHome)] + (if supportUrl != "" then [SupportButton(supportUrl)] else []) + [CloseButton]
  }
}
