// The item panel of src/interface/components/battle_item_panel.py: one button per
// item, 60 pixels apart, for as many items as fit above the panel's bottom
// padding, and a selection that is read once and then cleared. Sprites, fonts and
// drawing are not modelled.
module ItemPanel {
  import opened Util
  import opened Definition

  /** A button: its caption, its top edge and the very item record it selects. */
  datatype ItemButton = ItemButton(caption: string, top: int, item: Item)

  /** f"{name} x{count}" */
  function ItemCaption(item: Item): string
  {
    item.name + " x" + IntToString(item.count)
  }

  /** The constructor's break test for row i: a 50-pixel button starting 60 + 60 * i
      below the panel's top reaches past its bottom padding of 20. */
  predicate RowOverflows(i: int, height: int)
  {
    60 + 60 * i + 50 > height - 20
  }

  /** How many rows fit: the index of the first row that overflows. */
  function VisibleSlots(height: int): (r: nat)
    ensures forall i :: 0 <= i < r ==> !RowOverflows(i, height)
    ensures RowOverflows(r, height)
  {
    if height < 130 then 0 else (height - 130) / 60 + 1
  }

  /** The buttons of a panel whose top edge is at y: the first rows of items, one per
      item, up to the first row that does not fit. */
  function ItemButtons(items: seq<Item>, y: int, height: int): (r: seq<ItemButton>)
  {
    var n := Min(|items|, VisibleSlots(height));
    seq(n, i requires 0 <= i < n => ItemButton(ItemCaption(items[i]), y + 60 + i * 60, items[i]))
  }

  /** The buttons are a prefix of the items in their order, each paired with its own
      item; every row shown fits and the list stops either at the end of the items or
      at the first row that does not. */
  lemma ItemButtonsArePrefix(items: seq<Item>, y: int, height: int)
    ensures var bs := ItemButtons(items, y, height);
            && |bs| <= |items|
            && (forall i :: 0 <= i < |bs| ==> bs[i].item == items[i] && bs[i].caption == ItemCaption(items[i]))
            && (forall i :: 0 <= i < |bs| ==> bs[i].top == y + 60 + i * 60 && !RowOverflows(i, height))
            && (|bs| < |items| ==> RowOverflows(|bs|, height))
  {
  }

  /** The constructor's loop, leaving at the first row that does not fit. */
  method CollectItemButtons(items: seq<Item>, y: int, height: int) returns (buttons: seq<ItemButton>)
    ensures buttons == ItemButtons(items, y, height)
  {
    buttons := [];
    var i := 0;
    while i < |items|
      invariant 0 <= i <= |items| && i <= VisibleSlots(height)
      invariant buttons == ItemButtons(items[..i], y, height)
    {
      var btnY := y + 60 + i * 60;
      if btnY + 50 > y + height - 20 {
        break;
      }
      buttons := buttons + [ItemButton(ItemCaption(items[i]), btnY, items[i])];
      i := i + 1;
    }
    PrefixButtons(items, i, y, height);
  }

  /** The buttons of a prefix of the items that reaches the last visible row, or the end
      of the items, are those of the whole list. */
  lemma PrefixButtons(items: seq<Item>, i: nat, y: int, height: int)
    requires i <= |items|
    requires i == |items| || i == VisibleSlots(height)
    ensures ItemButtons(items[..i], y, height) == ItemButtons(items, y, height)
  {
    if i == |items| {
      assert items[..i] == items;
    }
  }

  class BattleItemPanel {
    const items: seq<Item>
    const rect: Rect
    const buttons: seq<ItemButton>
    /** selected_item */
    var selected: Option<Item>

    /** The panel's invariant: its buttons are those the constructor makes, and a
        selection is one of the items. */
    predicate Valid()
      reads this
    {
      && buttons == ItemButtons(items, rect.y, rect.height)
      && (selected.Some? ==> selected.value in items)
    }

    /** BattleItemPanel(items, x, y, width=300, height=400) */
    constructor(items: seq<Item>, x: int, y: int, width: int := 300, height: int := 400)
      ensures Valid()
      ensures this.items == items && rect == Rect(x, y, width, height) && selected == None
    {
      this.items := items;
      rect := Rect(x, y, width, height);
      var bs := CollectItemButtons(items, y, height);
      buttons := bs;
      selected := None;
    }

    /** A click on button j calls _on_item_select with that button's item. */
    method ClickButton(j: nat)
      requires Valid() && j < |buttons|
      modifies this
      ensures Valid()
      ensures selected == Some(items[j])
    {
      ItemButtonsArePrefix(items, rect.y, rect.height);
      selected := Some(buttons[j].item);
    }

    /** get_selected_item: the latest selection, which is cleared, so a second call
        returns None. */
    method GetSelectedItem() returns (r: Option<Item>)
      requires Valid()
      modifies this
      ensures Valid()
      ensures r == old(selected) && selected == None
      ensures r.Some? ==> r.value in items
    {
      r := selected;
      selected := None;
    }

    /** is_empty: a test of the items, not of the buttons. */
    predicate IsEmpty()
      reads this
    {
      |items| == 0
    }

    /** An empty panel has no buttons, but a panel shorter than 130 pixels has no
        buttons either while it is not empty when it has items. */
    lemma IsEmptyIsAboutItems()
      requires Valid()
      ensures IsEmpty() ==> buttons == []
      ensures rect.height < 130 ==> buttons == []
      ensures !IsEmpty() <==> items != []
    {
    }
  }
}
