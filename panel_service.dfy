/**
 * Configurable ticket panels (src/tickets/panel.service.ts): a panel table
 * keyed by id and by (guild, name), a button table whose `order` column
 * fixes the display order, and the rendering of a panel's buttons into
 * rows of at most five.
 */
module PanelService {
  import opened Common
  import opened TicketPanels

  /** A panel row; its embed appearance columns are not part of this model. */
  datatype Panel = Panel(id: string, guildId: string, name: string)

  datatype PanelButton = PanelButton(id: string, panelId: string, labelText: string, style: string,
                                     customId: string, emoji: Option<string>, order: int)

  /** A panel as the lookups return it: with its buttons included. */
  datatype PanelWithButtons = PanelWithButtons(panel: Panel, buttons: seq<PanelButton>)

  predicate SortedByOrder(bs: seq<PanelButton>)
  {
    forall i, j :: 0 <= i < j < |bs| ==> bs[i].order <= bs[j].order
  }

  /** Inserts before the first button of greater or equal order. */
  function InsertByOrder(b: PanelButton, bs: seq<PanelButton>): (r: seq<PanelButton>)
    ensures |r| == |bs| + 1
  {
    if |bs| == 0 then [b]
    else if b.order <= bs[0].order then [b] + bs
    else [bs[0]] + InsertByOrder(b, bs[1..])
  }

  predicate AllAtLeast(bs: seq<PanelButton>, m: int)
  {
    forall i :: 0 <= i < |bs| ==> m <= bs[i].order
  }

  lemma SortedCons(x: PanelButton, bs: seq<PanelButton>)
    requires SortedByOrder(bs) && AllAtLeast(bs, x.order)
    ensures SortedByOrder([x] + bs)
  {
    var r := [x] + bs;
    forall i, j | 0 <= i < j < |r| ensures r[i].order <= r[j].order {
      if i > 0 {
        assert r[i] == bs[i - 1] && r[j] == bs[j - 1];
      } else {
        assert r[j] == bs[j - 1];
      }
    }
  }

  lemma {:induction false} InsertByOrderAtLeast(b: PanelButton, bs: seq<PanelButton>, m: int)
    requires AllAtLeast(bs, m) && m <= b.order
    ensures AllAtLeast(InsertByOrder(b, bs), m)
  {
    if |bs| > 0 && b.order > bs[0].order {
      InsertByOrderAtLeast(b, bs[1..], m);
      var rest := InsertByOrder(b, bs[1..]);
      assert InsertByOrder(b, bs) == [bs[0]] + rest;
    }
  }

  lemma {:induction false} InsertByOrderSorted(b: PanelButton, bs: seq<PanelButton>)
    requires SortedByOrder(bs)
    ensures SortedByOrder(InsertByOrder(b, bs))
  {
    if |bs| == 0 {
    } else if b.order <= bs[0].order {
      SortedCons(b, bs);
    } else {
      InsertByOrderSorted(b, bs[1..]);
      InsertByOrderAtLeast(b, bs[1..], bs[0].order);
      SortedCons(bs[0], InsertByOrder(b, bs[1..]));
    }
  }

  lemma {:induction false} InsertByOrderPerm(b: PanelButton, bs: seq<PanelButton>)
    ensures multiset(InsertByOrder(b, bs)) == multiset(bs) + multiset{b}
  {
    if |bs| > 0 && b.order > bs[0].order {
      InsertByOrderPerm(b, bs[1..]);
      assert bs == [bs[0]] + bs[1..];
    }
  }

  /** `orderBy: { order: 'asc' }` as an insertion sort. */
  function SortByOrder(bs: seq<PanelButton>): (r: seq<PanelButton>)
    ensures |r| == |bs|
  {
    if |bs| == 0 then [] else InsertByOrder(bs[0], SortByOrder(bs[1..]))
  }

  /** The sort yields a permutation of its input in ascending order. */
  lemma {:induction false} SortByOrderProps(bs: seq<PanelButton>)
    ensures SortedByOrder(SortByOrder(bs))
    ensures multiset(SortByOrder(bs)) == multiset(bs)
  {
    if |bs| > 0 {
      SortByOrderProps(bs[1..]);
      InsertByOrderSorted(bs[0], SortByOrder(bs[1..]));
      InsertByOrderPerm(bs[0], SortByOrder(bs[1..]));
      assert bs == [bs[0]] + bs[1..];
    }
  }

  /** The buttons whose panelId is this panel's id, in table order. */
  function ButtonsOfPanel(buttons: seq<PanelButton>, panelId: string): (r: seq<PanelButton>)
    ensures forall b :: b in r <==> b in buttons && b.panelId == panelId
  {
    if |buttons| == 0 then []
    else
      var rest := ButtonsOfPanel(buttons[1..], panelId);
      assert forall b :: b in buttons <==> b == buttons[0] || b in buttons[1..];
      if buttons[0].panelId == panelId then [buttons[0]] + rest else rest
  }

  function WithButtons(p: Panel, buttons: seq<PanelButton>): PanelWithButtons
  {
    PanelWithButtons(p, SortByOrder(ButtonsOfPanel(buttons, p.id)))
  }

  /** Every lookup returns the panel with exactly its own buttons, sorted by ascending order. */
  lemma WithButtonsSorted(p: Panel, buttons: seq<PanelButton>)
    ensures SortedByOrder(WithButtons(p, buttons).buttons)
    ensures forall b :: b in WithButtons(p, buttons).buttons <==> b in buttons && b.panelId == p.id
  {
    var r := WithButtons(p, buttons).buttons;
    SortByOrderProps(ButtonsOfPanel(buttons, p.id));
    forall b ensures b in r <==> b in ButtonsOfPanel(buttons, p.id) {
      assert b in r <==> b in multiset(r);
    }
  }

  predicate NameIs(p: Panel, guildId: string, name: string)
  {
    p.guildId == guildId && p.name == name
  }

  function GetPanelByName(panels: seq<Panel>, buttons: seq<PanelButton>, guildId: string, name: string): (r: Option<PanelWithButtons>)
    ensures r.Some? ==> r.value.panel in panels && NameIs(r.value.panel, guildId, name)
    ensures r.None? <==> forall p :: p in panels ==> !NameIs(p, guildId, name)
  {
    match FindFirst(panels, (p: Panel) => NameIs(p, guildId, name))
    case None => None
    case Some(p) => Some(WithButtons(p, buttons))
  }

  function GetPanelById(panels: seq<Panel>, buttons: seq<PanelButton>, id: string): (r: Option<PanelWithButtons>)
    ensures r.Some? ==> r.value.panel in panels && r.value.panel.id == id
    ensures r.None? <==> forall p :: p in panels ==> p.id != id
  {
    match FindFirst(panels, (p: Panel) => p.id == id)
    case None => None
    case Some(p) => Some(WithButtons(p, buttons))
  }

  /** The highest order among the panel's buttons (`findFirst` ordered by order descending). */
  function MaxOrder(buttons: seq<PanelButton>, panelId: string): (m: Option<int>)
    ensures m.None? <==> forall b :: b in buttons ==> b.panelId != panelId
    ensures m.Some? ==>
      (exists b :: b in buttons && b.panelId == panelId && b.order == m.value)
      && forall b :: b in buttons && b.panelId == panelId ==> b.order <= m.value
  {
    if |buttons| == 0 then None
    else
      var rest := MaxOrder(buttons[1..], panelId);
      assert forall b :: b in buttons <==> b == buttons[0] || b in buttons[1..];
      if buttons[0].panelId != panelId then rest
      else if rest.Some? && rest.value >= buttons[0].order then rest
      else Some(buttons[0].order)
  }

  /** The order given to a new button: one past the highest, or 0 for an empty panel. */
  function NextOrder(buttons: seq<PanelButton>, panelId: string): int
  {
    match MaxOrder(buttons, panelId)
    case Some(m) => m + 1
    case None => 0
  }

  /** A new button sorts after every existing button of its panel; the first one gets 0. */
  lemma NextOrderExceedsAll(buttons: seq<PanelButton>, panelId: string)
    ensures forall b :: b in buttons && b.panelId == panelId ==> b.order < NextOrder(buttons, panelId)
    ensures (forall b :: b in buttons ==> b.panelId != panelId) ==> NextOrder(buttons, panelId) == 0
  {
  }

  /** The table without the button of this id. */
  function WithoutButton(buttons: seq<PanelButton>, buttonId: string): (r: seq<PanelButton>)
    ensures forall b :: b in r <==> b in buttons && b.id != buttonId
  {
    if |buttons| == 0 then []
    else
      var rest := WithoutButton(buttons[1..], buttonId);
      assert forall b :: b in buttons <==> b == buttons[0] || b in buttons[1..];
      if buttons[0].id == buttonId then rest else [buttons[0]] + rest
  }

  class PanelStore {
    var panels: seq<Panel>
    var buttons: seq<PanelButton>

    /** Panel ids and (guild, name) pairs are unique, and so are button ids. */
    ghost predicate Valid()
      reads this
    {
      (forall i, j :: 0 <= i < j < |panels| ==> panels[i].id != panels[j].id)
      && (forall i, j :: 0 <= i < j < |panels| ==> !NameIs(panels[j], panels[i].guildId, panels[i].name))
      && (forall i, j :: 0 <= i < j < |buttons| ==> buttons[i].id != buttons[j].id)
    }

    constructor ()
      ensures Valid() && panels == [] && buttons == []
    {
      panels := [];
      buttons := [];
    }

    /**
     * Creates an empty panel. The (guild, name) key is unique, so a second
     * panel of the same name is refused by the database (P2002).
     * `newId` is the id the database generates.
     */
    method CreatePanel(guildId: string, name: string, newId: string) returns (r: Result<Panel>)
      requires Valid()
      requires forall p :: p in panels ==> p.id != newId
      modifies this`panels
      ensures Valid()
      ensures r.Err? <==> GetPanelByName(old(panels), buttons, guildId, name).Some?
      ensures r.Err? ==> r.error == "P2002" && panels == old(panels)
      ensures r.Ok? ==> r.value == Panel(newId, guildId, name) && panels == old(panels) + [r.value]
    {
      if GetPanelByName(panels, buttons, guildId, name).Some? {
        return Err("P2002");
      }
      var p := Panel(newId, guildId, name);
      panels := panels + [p];
      r := Ok(p);
    }

    /**
     * Appends a button to the named panel with the next free order; fails
     * with "Panel not found" when the guild has no panel of that name.
     * `newId` is the id the database generates.
     */
    method AddButton(guildId: string, panelName: string, labelText: string, style: string, customId: string,
                     emoji: Option<string>, newId: string) returns (r: Result<PanelButton>)
      requires Valid()
      requires forall b :: b in buttons ==> b.id != newId
      modifies this`buttons
      ensures Valid()
      ensures r.Err? <==> GetPanelByName(panels, old(buttons), guildId, panelName).None?
      ensures r.Err? ==> r.error == "Panel not found" && buttons == old(buttons)
      ensures r.Ok? ==>
        var p := GetPanelByName(panels, old(buttons), guildId, panelName).value.panel;
        r.value == PanelButton(newId, p.id, labelText, style, customId, emoji, NextOrder(old(buttons), p.id))
        && buttons == old(buttons) + [r.value]
      ensures r.Ok? ==> forall b :: b in old(buttons) && b.panelId == r.value.panelId ==> b.order < r.value.order
    {
      var panel := GetPanelByName(panels, buttons, guildId, panelName);
      if panel.None? {
        return Err("Panel not found");
      }
      var lastButton := MaxOrder(buttons, panel.value.panel.id);
      var order := if lastButton.Some? then lastButton.value + 1 else 0;
      var b := PanelButton(newId, panel.value.panel.id, labelText, style, customId, emoji, order);
      NextOrderExceedsAll(buttons, b.panelId);
      buttons := buttons + [b];
      r := Ok(b);
    }

    /** Deletes a button by id; a missing id makes the delete throw (P2025) with no change. */
    method RemoveButton(buttonId: string) returns (r: Result<()>)
      requires Valid()
      modifies this`buttons
      ensures Valid()
      ensures r.Ok? <==> exists b :: b in old(buttons) && b.id == buttonId
      ensures r.Err? ==> r.error == "P2025" && buttons == old(buttons)
      ensures r.Ok? ==> buttons == WithoutButton(old(buttons), buttonId)
      ensures forall b :: b in buttons <==> b in old(buttons) && b.id != buttonId
    {
      if !exists b :: b in buttons && b.id == buttonId {
        return Err("P2025");
      }
      WithoutButtonKeepsIdsUnique(buttons, buttonId);
      buttons := WithoutButton(buttons, buttonId);
      r := Ok(());
    }
  }

  predicate IdsUnique(bs: seq<PanelButton>)
  {
    forall i, j :: 0 <= i < j < |bs| ==> bs[i].id != bs[j].id
  }

  lemma {:induction false} WithoutButtonKeepsIdsUnique(bs: seq<PanelButton>, buttonId: string)
    requires IdsUnique(bs)
    ensures IdsUnique(WithoutButton(bs, buttonId))
  {
    if |bs| > 0 {
      WithoutButtonKeepsIdsUnique(bs[1..], buttonId);
      var rest := WithoutButton(bs[1..], buttonId);
      forall x | x in rest ensures x.id != bs[0].id || bs[0].id == buttonId {
        assert x in bs[1..];
      }
    }
  }

  /** `switch (style.toUpperCase())`; an unknown name falls back to Primary. */
  function MapButtonStyle(style: string): (s: ButtonStyle)
    ensures s == Secondary <==> ToUpper(style) == "SECONDARY"
    ensures s == Success <==> ToUpper(style) == "SUCCESS"
    ensures s == Danger <==> ToUpper(style) == "DANGER"
    ensures s == Primary <==> ToUpper(style) !in ["SECONDARY", "SUCCESS", "DANGER"]
  {
    match ToUpper(style)
    case "PRIMARY" => Primary
    case "SECONDARY" => Secondary
    case "SUCCESS" => Success
    case "DANGER" => Danger
    case _ => Primary
  }

  /** The style mapping ignores letter case. */
  lemma MapButtonStyleCaseInsensitive(style: string)
    ensures MapButtonStyle(ToLower(style)) == MapButtonStyle(style)
    ensures MapButtonStyle(ToUpper(style)) == MapButtonStyle(style)
  {
    UpperOfLower(style);
    UpperIdempotent(style);
  }

  /** A rendered button: its id, label, mapped style, and an emoji only when one is set. */
  datatype RenderedButton = RenderedButton(customId: string, labelText: string, style: ButtonStyle, emoji: Option<string>)

  function RenderButton(b: PanelButton): (r: RenderedButton)
    ensures r.customId == b.customId && r.labelText == b.labelText && r.style == MapButtonStyle(b.style)
    ensures r.emoji.Some? <==> b.emoji.Some? && b.emoji.value != ""
  {
    RenderedButton(b.customId, b.labelText, MapButtonStyle(b.style),
                   if b.emoji.Some? && b.emoji.value != "" then b.emoji else None)
  }

  function RenderAll(bs: seq<PanelButton>): (r: seq<RenderedButton>)
    ensures |r| == |bs| && forall i :: 0 <= i < |bs| ==> r[i] == RenderButton(bs[i])
  {
    seq(|bs|, i requires 0 <= i < |bs| => RenderButton(bs[i]))
  }

  const RowWidth: nat := 5

  /** Consecutive rows of five, the last one possibly shorter. */
  function Chunks<T>(s: seq<T>): seq<seq<T>>
    decreases |s|
  {
    if |s| == 0 then []
    else if |s| <= RowWidth then [s]
    else [s[..RowWidth]] + Chunks(s[RowWidth..])
  }

  function Flatten<T>(rows: seq<seq<T>>): seq<T>
  {
    if |rows| == 0 then [] else rows[0] + Flatten(rows[1..])
  }

  /** Concatenating the rows gives back the button list, in order. */
  lemma {:induction false} ChunksFlatten<T>(s: seq<T>)
    ensures Flatten(Chunks(s)) == s
    decreases |s|
  {
    if |s| > RowWidth {
      ChunksFlatten(s[RowWidth..]);
      assert s == s[..RowWidth] + s[RowWidth..];
    }
  }

  /** There are ceil(n / 5) rows, none empty and none wider than five. */
  lemma {:induction false} ChunksShape<T>(s: seq<T>)
    ensures |Chunks(s)| == (|s| + 4) / 5
    ensures forall k :: 0 <= k < |Chunks(s)| ==> 1 <= |Chunks(s)[k]| <= RowWidth
    decreases |s|
  {
    if |s| > RowWidth {
      ChunksShape(s[RowWidth..]);
      var rest := Chunks(s[RowWidth..]);
      assert Chunks(s) == [s[..RowWidth]] + rest;
      forall k | 0 <= k < |Chunks(s)| ensures 1 <= |Chunks(s)[k]| <= RowWidth {
        if k > 0 {
          assert Chunks(s)[k] == rest[k - 1];
        }
      }
    }
  }

  /** Appending a short row after whole rows of five adds exactly that row. */
  lemma {:induction false} ChunksAppend<T>(a: seq<T>, b: seq<T>)
    requires |a| % RowWidth == 0
    requires 1 <= |b| <= RowWidth
    ensures Chunks(a + b) == Chunks(a) + [b]
    decreases |a|
  {
    if |a| == 0 {
      assert a + b == b;
    } else {
      var ab := a + b;
      assert ab[..RowWidth] == a[..RowWidth];
      assert ab[RowWidth..] == a[RowWidth..] + b;
      ChunksAppend(a[RowWidth..], b);
      if |a| == RowWidth {
        assert a[RowWidth..] == [];
      }
    }
  }

  /**
   * The button rows of a panel: a new row is started before every fifth
   * button, and the last row is kept when it is not empty.
   */
  method RenderPanel(panel: PanelWithButtons) returns (rows: seq<seq<RenderedButton>>)
    ensures rows == Chunks(RenderAll(panel.buttons))
  {
    var bs := panel.buttons;
    ghost var all := RenderAll(bs);
    rows := [];
    var currentRow: seq<RenderedButton> := [];
    var index := 0;
    ghost var start := 0;
    while index < |bs|
      invariant 0 <= start <= index <= |bs|
      invariant start % RowWidth == 0
      invariant index == 0 ==> start == 0
      invariant index > 0 ==> 1 <= index - start <= RowWidth
      invariant currentRow == all[start..index]
      invariant rows == Chunks(all[..start])
    {
      if index > 0 {
        RowFull(start, index);
      }
      if index % 5 == 0 && index > 0 {
        ChunksAppend(all[..start], currentRow);
        assert all[..start] + currentRow == all[..index];
        rows := rows + [currentRow];
        currentRow := [];
        start := index;
      }
      currentRow := currentRow + [RenderButton(bs[index])];
      index := index + 1;
    }
    if |currentRow| > 0 {
      ChunksAppend(all[..start], currentRow);
      assert all[..start] + currentRow == all;
      rows := rows + [currentRow];
    } else {
      assert all == [];
    }
  }

  /** Inside the loop of `RenderPanel`: after whole rows from `start`, the index is a multiple of five exactly when the row is full. */
  lemma RowFull(start: int, index: int)
    requires 0 <= start && start % RowWidth == 0
    requires 1 <= index - start <= RowWidth
    ensures index % 5 == 0 <==> index - start == RowWidth
  {
    var q := start / RowWidth;
    assert start == RowWidth * q;
    assert index == RowWidth * q + (index - start);
  }

  /** Rendering keeps every button, in order, in rows of one to five; zero buttons give zero rows. */
  lemma RenderedRows(bs: seq<PanelButton>)
    ensures Flatten(Chunks(RenderAll(bs))) == RenderAll(bs)
    ensures |Chunks(RenderAll(bs))| == (|bs| + 4) / 5
    ensures forall k :: 0 <= k < |Chunks(RenderAll(bs))| ==> 1 <= |Chunks(RenderAll(bs))[k]| <= 5
  {
    ChunksFlatten(RenderAll(bs));
    ChunksShape(RenderAll(bs));
  }
}
