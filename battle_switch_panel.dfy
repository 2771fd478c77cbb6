// The monster-switch panel of src/interface/components/battle_switch_panel.py:
// one button per monster the player may switch to, a scrollable list of rows
// 90 pixels apart, and a selection that is read once and then cleared. Sprites,
// fonts and drawing are not modelled; a button's rectangle is reduced to the
// row's top edge, which depends only on the row number and the scroll offset.
module SwitchPanel {
  import opened Util
  import opened Definition

  /** A button: its caption and the index of the monster it selects in the list
      the panel was given. */
  datatype SwitchButton = SwitchButton(caption: string, index: nat)

  /** A monster the player may switch to: not the one in battle, and not fainted. */
  predicate Eligible(monsters: seq<Monster>, current: int, i: int)
    requires 0 <= i < |monsters|
  {
    i != current && monsters[i].hp > 0
  }

  /** f"{name} Lv.{level}" */
  function SwitchLabel(m: Monster): string
  {
    m.name + " Lv." + IntToString(m.level)
  }

  /** The buttons the constructor's loop has made after its first k monsters. */
  function SwitchButtons(monsters: seq<Monster>, current: int, k: nat): seq<SwitchButton>
    requires k <= |monsters|
  {
    if k == 0 then []
    else if Eligible(monsters, current, k - 1) then
      SwitchButtons(monsters, current, k - 1) + [SwitchButton(SwitchLabel(monsters[k - 1]), k - 1)]
    else SwitchButtons(monsters, current, k - 1)
  }

  /** Every button among the first k monsters selects an eligible one of them and
      carries that monster's caption. */
  lemma {:induction false} SwitchButtonsSound(monsters: seq<Monster>, current: int, k: nat)
    requires k <= |monsters|
    ensures forall b :: b in SwitchButtons(monsters, current, k) ==>
              b.index < k && Eligible(monsters, current, b.index) && b.caption == SwitchLabel(monsters[b.index])
  {
    if k > 0 {
      SwitchButtonsSound(monsters, current, k - 1);
    }
  }

  /** Some button selects monster i. */
  predicate HasButtonFor(bs: seq<SwitchButton>, i: int)
  {
    exists j :: 0 <= j < |bs| && bs[j].index == i
  }

  /** Every eligible monster among the first k has a button. */
  lemma {:induction false} SwitchButtonsComplete(monsters: seq<Monster>, current: int, k: nat)
    requires k <= |monsters|
    ensures forall i :: 0 <= i < k && Eligible(monsters, current, i) ==>
              HasButtonFor(SwitchButtons(monsters, current, k), i)
  {
    if k > 0 {
      SwitchButtonsComplete(monsters, current, k - 1);
      var prev := SwitchButtons(monsters, current, k - 1);
      var bs := SwitchButtons(monsters, current, k);
      forall i | 0 <= i < k && Eligible(monsters, current, i)
        ensures HasButtonFor(bs, i)
      {
        if i == k - 1 {
          assert bs == prev + [SwitchButton(SwitchLabel(monsters[k - 1]), k - 1)];
          assert bs[|prev|].index == i;
        } else {
          var j :| 0 <= j < |prev| && prev[j].index == i;
          assert bs[j] == prev[j];
        }
      }
    }
  }

  /** The buttons follow the monsters' order, so no monster has two. */
  lemma {:induction false} SwitchButtonsIncreasing(monsters: seq<Monster>, current: int, k: nat)
    requires k <= |monsters|
    ensures forall j1, j2 :: 0 <= j1 < j2 < |SwitchButtons(monsters, current, k)| ==>
              SwitchButtons(monsters, current, k)[j1].index < SwitchButtons(monsters, current, k)[j2].index
  {
    if k > 0 {
      SwitchButtonsIncreasing(monsters, current, k - 1);
      SwitchButtonsSound(monsters, current, k - 1);
      var prev := SwitchButtons(monsters, current, k - 1);
      var bs := SwitchButtons(monsters, current, k);
      if Eligible(monsters, current, k - 1) {
        assert bs == prev + [SwitchButton(SwitchLabel(monsters[k - 1]), k - 1)];
        forall j1, j2 | 0 <= j1 < j2 < |bs|
          ensures bs[j1].index < bs[j2].index
        {
          assert bs[j1] == prev[j1];
          if j2 < |prev| {
            assert bs[j2] == prev[j2];
          }
        }
      }
    }
  }

  /** The panel is empty exactly when no monster is eligible. */
  lemma NoButtonsIffNoneEligible(monsters: seq<Monster>, current: int)
    ensures SwitchButtons(monsters, current, |monsters|) == [] <==>
              forall i :: 0 <= i < |monsters| ==> !Eligible(monsters, current, i)
  {
    SwitchButtonsSound(monsters, current, |monsters|);
    SwitchButtonsComplete(monsters, current, |monsters|);
    var bs := SwitchButtons(monsters, current, |monsters|);
    if bs != [] {
      assert Eligible(monsters, current, bs[0].index);
    }
  }

  /** The constructor's loop over the monsters, skipping the active and the fainted ones. */
  method CollectSwitchButtons(monsters: seq<Monster>, current: int) returns (buttons: seq<SwitchButton>)
    ensures buttons == SwitchButtons(monsters, current, |monsters|)
  {
    buttons := [];
    for i := 0 to |monsters|
      invariant buttons == SwitchButtons(monsters, current, i)
    {
      if i == current {
        continue;
      }
      if monsters[i].hp <= 0 {
        continue;
      }
      buttons := buttons + [SwitchButton(SwitchLabel(monsters[i]), i)];
    }
  }

  /** max_scroll: how far n rows of 90 pixels overflow the visible height - 100;
      0 for an empty panel. */
  function MaxScroll(n: nat, height: int): (r: int)
    ensures r >= 0
    ensures n == 0 ==> r == 0
    ensures n > 0 ==> r >= n * 90 - (height - 100)
    ensures r > 0 ==> r == n * 90 - (height - 100)
  {
    if n > 0 then Max(0, n * 90 - (height - 100)) else 0
  }

  /** max(0, min(max_scroll, v)) */
  function ClampScroll(v: int, maxScroll: int): (r: int)
    requires maxScroll >= 0
    ensures 0 <= r <= maxScroll
    ensures 0 <= v <= maxScroll ==> r == v
    ensures v < 0 ==> r == 0
    ensures v > maxScroll ==> r == maxScroll
  {
    Max(0, Min(maxScroll, v))
  }

  /** The top edge of row j of a panel at panelY scrolled by offset. */
  function RowTop(panelY: int, j: nat, offset: int): int
  {
    panelY + 70 + j * 90 - offset
  }

  /** The condition under which update lets a row's button react (it overlaps the
      area between the title and the bottom padding). */
  predicate RowVisible(panelY: int, height: int, j: nat, offset: int)
  {
    panelY + 60 < RowTop(panelY, j, offset) + 80 && RowTop(panelY, j, offset) < panelY + height - 20
  }

  /** The scroll range is large enough: in a panel taller than 100 pixels every row
      can be brought into view by some allowed offset. */
  lemma EveryRowReachable(panelY: int, height: int, n: nat, j: nat)
    requires height > 100 && j < n
    ensures exists offset :: 0 <= offset <= MaxScroll(n, height) && RowVisible(panelY, height, j, offset)
  {
    var offset := ClampScroll((j + 1) * 90 - (height - 100), MaxScroll(n, height));
    assert RowVisible(panelY, height, j, offset);
  }

  class BattleSwitchPanel {
    const monsters: seq<Monster>
    const current: int
    const rect: Rect
    const buttons: seq<SwitchButton>
    const maxScroll: int
    var scrollOffset: int
    /** selected_pokemon_index */
    var selected: Option<nat>

    /** The panel's invariant: its buttons are the eligible monsters, the offset stays in
        the scroll range, and a selection names an eligible monster. */
    predicate Valid()
      reads this
    {
      && buttons == SwitchButtons(monsters, current, |monsters|)
      && maxScroll == MaxScroll(|buttons|, rect.height)
      && 0 <= scrollOffset <= maxScroll
      && (selected.Some? ==> selected.value < |monsters| && Eligible(monsters, current, selected.value))
    }

    /** BattleSwitchPanel(monsters, current_pokemon_index, x, y, width=500, height=500) */
    constructor(monsters: seq<Monster>, current: int, x: int, y: int,
                width: int := 500, height: int := 500)
      ensures Valid()
      ensures this.monsters == monsters && this.current == current
      ensures rect == Rect(x, y, width, height)
      ensures scrollOffset == 0 && selected == None
    {
      this.monsters := monsters;
      this.current := current;
      rect := Rect(x, y, width, height);
      var bs := CollectSwitchButtons(monsters, current);
      buttons := bs;
      maxScroll := MaxScroll(|bs|, height);
      scrollOffset := 0;
      selected := None;
    }

    /** The top edge update gives button j. */
    function ButtonTop(j: nat): int
      reads this
    {
      RowTop(rect.y, j, scrollOffset)
    }

    /** The scrolling part of update: with the mouse over the panel the wheel scrolls 40
        pixels a notch, then UP scrolls back 40 and DOWN on 40; each change is clamped
        to [0, max_scroll]. */
    method Scroll(mouseX: int, mouseY: int, wheel: int, keyUp: bool, keyDown: bool)
      requires Valid()
      modifies this
      ensures Valid() && selected == old(selected)
      ensures 0 <= scrollOffset <= maxScroll
      ensures var afterWheel := if rect.CollidePoint(mouseX, mouseY) && wheel != 0
                                then ClampScroll(old(scrollOffset) - wheel * 40, maxScroll)
                                else old(scrollOffset);
              scrollOffset == if keyUp then ClampScroll(afterWheel - 40, maxScroll)
                              else if keyDown then ClampScroll(afterWheel + 40, maxScroll)
                              else afterWheel
    {
      if rect.CollidePoint(mouseX, mouseY) {
        if wheel != 0 {
          var scrollAmount := wheel * 40;
          scrollOffset := Max(0, Min(maxScroll, scrollOffset - scrollAmount));
        }
      }
      var scrollAmount := 0;
      if keyUp {
        scrollAmount := 40;
      } else if keyDown {
        scrollAmount := -40;
      }
      if scrollAmount != 0 {
        scrollOffset := Max(0, Min(maxScroll, scrollOffset - scrollAmount));
      }
    }

    /** A click on button j: update passes it on only while the row is visible, and the
        button's callback (_on_pokemon_select) records the monster's index. */
    method ClickButton(j: nat)
      requires Valid() && j < |buttons|
      modifies this
      ensures Valid() && scrollOffset == old(scrollOffset)
      ensures RowVisible(rect.y, rect.height, j, scrollOffset) ==> selected == Some(buttons[j].index)
      ensures !RowVisible(rect.y, rect.height, j, scrollOffset) ==> selected == old(selected)
    {
      SwitchButtonsSound(monsters, current, |monsters|);
      var top := rect.y + 70 + j * 90 - scrollOffset;
      if rect.y + 60 < top + 80 && top < rect.y + rect.height - 20 {
        selected := Some(buttons[j].index);
      }
    }

    /** get_selected_pokemon_index: the latest selection, which is cleared, so a second
        call returns None. */
    method GetSelectedPokemonIndex() returns (r: Option<nat>)
      requires Valid()
      modifies this
      ensures Valid() && scrollOffset == old(scrollOffset)
      ensures r == old(selected) && selected == None
      ensures r.Some? ==> r.value < |monsters| && Eligible(monsters, current, r.value)
    {
      r := selected;
      selected := None;
    }

    /** is_empty */
    predicate IsEmpty()
      reads this
    {
      |buttons| == 0
    }

    /** The panel is empty exactly when every other monster has fainted. */
    lemma IsEmptyIffNoneEligible()
      requires Valid()
      ensures IsEmpty() <==> forall i :: 0 <= i < |monsters| ==> !Eligible(monsters, current, i)
    {
      NoButtonsIffNoneEligible(monsters, current);
    }
  }
}
