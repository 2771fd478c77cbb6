// The wild battle of src/scenes/catch_pokemon_scene.py: a random party of one to
// three wild monsters, fought one at a time, each of which can be caught with a
// pokeball once it has fainted. The player's active monster is the bag's first
// monster and the opponent is an entry of the party list (the source keeps
// references to those very records), so damage to either is a change to that
// list. Random draws are parameters with the source's ranges; the throw, flash,
// fall and shake animations are reduced to their tick counters.
module CatchPokemon {
  import opened Util
  import opened Definition
  import opened BagData

  /** WildBattleState */
  datatype WildState =
    | Intro | Challenger | SendOpponent | SendPlayer | Main | PlayerTurn | ChooseMove
    | EnemyTurn | BattleEnd | ChooseItem | ShowDamage | Catching | CatchAnimation
    | SwitchPokemon | CatchFlashing | CatchFalling | CatchShake | CatchSuccess

  /** current_turn: "player" or "enemy" */
  datatype Turn = PlayerSide | EnemySide

  function PoolMonster(name: string, maxHp: int, level: int, spritePath: string): Monster
  {
    Monster(name, maxHp, maxHp, level, None, None, spritePath, None, None, None)
  }

  /** WILD_POKEMON_POOL */
  const WildPool: seq<Monster> := [
    PoolMonster("Leogreen", 45, 10, "menu_sprites/menusprite2.png"),
    PoolMonster("Bulbasaur", 40, 8, "menu_sprites/menusprite1.png"),
    PoolMonster("Charmander", 39, 8, "menu_sprites/menusprite3.png")]

  /** The moves the wild monsters choose from. */
  const EnemyMoves: seq<string> := ["Woodhammer", "Headbutt", "Howl", "Leer"]

  /** `int(max_hp * 0.8)`: the lowest hp a generated wild monster starts with. */
  function MinWildHp(maxHp: int): int
  {
    TruncReal(maxHp as real * 0.8)
  }

  /** The hp draws of the pool: 36 to 45, 32 to 40 and 31 to 39. */
  lemma WildHpRanges()
    ensures MinWildHp(WildPool[0].maxHp) == 36 && MinWildHp(WildPool[1].maxHp) == 32
    ensures MinWildHp(WildPool[2].maxHp) == 31
    ensures forall k :: 0 <= k < |WildPool| ==> 0 < MinWildHp(WildPool[k].maxHp) <= WildPool[k].maxHp
  {
    assert (39.0 * 0.8).Floor == 31;
  }

  /** The record _catch_opponent_pokemon appends for a monster not yet in the roster:
      full hp and a count of one. */
  function CaughtRecord(m: Monster): (r: Monster)
    ensures r.name == m.name && r.hp == r.maxHp == m.maxHp && r.level == m.level
    ensures r.spritePath == m.spritePath && r.count == Some(1)
  {
    Monster(m.name, m.maxHp, m.maxHp, m.level, None, None, m.spritePath, None, None, Some(1))
  }

  /** The index of the first monster called `name`. */
  function FindMonster(monsters: seq<Monster>, name: string): (r: Option<nat>)
    ensures r.Some? ==> r.value < |monsters| && monsters[r.value].name == name
                        && forall k :: 0 <= k < r.value ==> monsters[k].name != name
    ensures r.None? ==> forall k :: 0 <= k < |monsters| ==> monsters[k].name != name
  {
    if monsters == [] then None
    else if monsters[0].name == name then Some(0)
    else match FindMonster(monsters[1..], name)
         case None => None
         case Some(j) => Some(j + 1)
  }

  /** A same-name monster's count after one more is caught: an absent count counts as 1. */
  function BumpedCount(m: Monster): Monster
  {
    m.(count := Some((if m.count.Some? then m.count.value else 1) + 1))
  }

  /** The roster after _catch_opponent_pokemon catches `caught`. */
  function RosterAfterCatch(monsters: seq<Monster>, caught: Monster): seq<Monster>
  {
    match FindMonster(monsters, caught.name)
    case Some(i) => monsters[i := BumpedCount(monsters[i])]
    case None => monsters + [CaughtRecord(caught)]
  }

  /** A catch either bumps the count of the first same-name monster, leaving every
      other entry alone, or appends one full-hp record of count 1: the roster grows
      by one exactly when no monster has that name. */
  lemma CatchRosterGrowth(monsters: seq<Monster>, caught: Monster)
    ensures var r := RosterAfterCatch(monsters, caught);
            && (|r| == |monsters| + 1 <==> forall k :: 0 <= k < |monsters| ==> monsters[k].name != caught.name)
            && (|r| == |monsters| || |r| == |monsters| + 1)
            && (|r| == |monsters| + 1 ==> r == monsters + [CaughtRecord(caught)])
            && (|r| == |monsters| ==> forall k :: 0 <= k < |r| && r[k] != monsters[k] ==>
                                        r[k] == BumpedCount(monsters[k]) && monsters[k].name == caught.name)
  {
  }

  /** A repeated catch of a known name: the count goes up by one, from 1 when it was absent. */
  lemma {:induction false} CatchBumpsCount(monsters: seq<Monster>, caught: Monster, i: nat)
    requires i < |monsters| && monsters[i].name == caught.name
    requires forall k :: 0 <= k < i ==> monsters[k].name != caught.name
    ensures RosterAfterCatch(monsters, caught) == monsters[i := BumpedCount(monsters[i])]
    ensures RosterAfterCatch(monsters, caught)[i].count
         == Some(if monsters[i].count.Some? then monsters[i].count.value + 1 else 2)
  {
    var f := FindMonster(monsters, caught.name);
    assert f == Some(i);
  }

  /** The items _on_item_click offers: anything but coins and pokeballs. */
  predicate IsBattleItem(item: Item)
  {
    Lower(item.name) != "coins" && Lower(item.name) != "pokeball"
  }

  function BattleItems(items: seq<Item>): (r: seq<Item>)
    ensures forall x :: x in r <==> x in items && IsBattleItem(x)
    ensures forall x :: multiset(r)[x] == if IsBattleItem(x) then multiset(items)[x] else 0
  {
    if items == [] then []
    else
      assert items == [items[0]] + items[1..];
      (if IsBattleItem(items[0]) then [items[0]] else []) + BattleItems(items[1..])
  }

  /** The filter keeps the bag's order: it distributes over concatenation, so together with
      the single-item case it is the source's list comprehension, order and repeats included. */
  lemma {:induction false} BattleItemsAppend(a: seq<Item>, b: seq<Item>)
    ensures BattleItems(a + b) == BattleItems(a) + BattleItems(b)
    ensures BattleItems([]) == []
  {
    if a == [] {
      assert a + b == b;
    } else {
      assert (a + b)[0] == a[0];
      assert (a + b)[1..] == a[1..] + b;
      BattleItemsAppend(a[1..], b);
    }
  }

  /** A single item is kept exactly when it passes the test. */
  lemma BattleItemsSingle(x: Item)
    ensures BattleItems([x]) == if IsBattleItem(x) then [x] else []
  {
    assert [x][1..] == [];
  }

  predicate IsPokeball(item: Item)
  {
    Lower(item.name) == "pokeball"
  }

  /** The items _show_catch_panel offers. */
  function Pokeballs(items: seq<Item>): (r: seq<Item>)
    ensures forall x :: x in r <==> x in items && IsPokeball(x)
    ensures forall x :: multiset(r)[x] == if IsPokeball(x) then multiset(items)[x] else 0
  {
    if items == [] then []
    else
      assert items == [items[0]] + items[1..];
      (if IsPokeball(items[0]) then [items[0]] else []) + Pokeballs(items[1..])
  }

  /** The filter keeps the bag's order: it distributes over concatenation, so together with
      the single-item case it is the source's list comprehension, order and repeats included. */
  lemma {:induction false} PokeballsAppend(a: seq<Item>, b: seq<Item>)
    ensures Pokeballs(a + b) == Pokeballs(a) + Pokeballs(b)
    ensures Pokeballs([]) == []
  {
    if a == [] {
      assert a + b == b;
    } else {
      assert (a + b)[0] == a[0];
      assert (a + b)[1..] == a[1..] + b;
      PokeballsAppend(a[1..], b);
    }
  }

  /** A single item is kept exactly when it passes the test. */
  lemma PokeballsSingle(x: Item)
    ensures Pokeballs([x]) == if IsPokeball(x) then [x] else []
  {
    assert [x][1..] == [];
  }

  /** The bag's items after an item or a pokeball at idx is used: its count drops by one,
      floored at 0, and the entry stays in the bag. */
  function ItemsAfterThrow(items: seq<Item>, idx: nat): (r: seq<Item>)
    requires idx < |items|
    ensures |r| == |items|
    ensures r[idx].name == items[idx].name && r[idx].count == Max(0, items[idx].count - 1)
    ensures forall k :: 0 <= k < |items| && k != idx ==> r[k] == items[k]
  {
    items[idx := items[idx].(count := Max(0, items[idx].count - 1))]
  }

  /** The successor _next_state gives: INTRO, CHALLENGER, SEND_OPPONENT, SEND_PLAYER, PLAYER_TURN. */
  function NextWildState(s: WildState): WildState
  {
    match s
    case Intro => Challenger
    case Challenger => SendOpponent
    case SendOpponent => SendPlayer
    case SendPlayer => PlayerTurn
    case _ => s
  }

  /** Four steps take the intro to the player's turn, where the sequence stops. */
  lemma WildIntroReachesPlayerTurn(s: WildState)
    ensures NextWildState(NextWildState(NextWildState(NextWildState(Intro)))) == PlayerTurn
    ensures s !in {Intro, Challenger, SendOpponent, SendPlayer} ==> NextWildState(s) == s
    ensures NextWildState(s) != Intro
  {
  }

  /** The battle fields of the scene, kept together as one record. */
  datatype WildBattle = WildBattle(
    state: WildState,
    party: seq<Monster>,
    partyIndex: int,
    /** opponent_pokemon is not None; it is then party[opponent.value]. */
    opponent: Option<nat>,
    /** player_pokemon is not None; it is then bag.monsters[0]. */
    hasPlayer: bool,
    message: string,
    currentTurn: Turn,
    playerSelectedMove: Option<string>,
    enemySelectedMove: Option<string>,
    turnMessage: string,
    /** The items handed to the item panel and the catch panel. */
    itemChoices: seq<Item>,
    pokeballChoices: seq<Item>,
    flashCount: nat,
    pokemonVisible: bool,
    shakeCount: nat)

  /** The fields as __init__ sets them and enter resets them. */
  const FreshBattle: WildBattle :=
    WildBattle(Intro, [], 0, None, false, "", PlayerSide, None, None, "", [], [], 0, true, 0)

  /** What _show_catch_panel does to the fields, given the bag's items. */
  function CatchPanelShown(w: WildBattle, items: seq<Item>): WildBattle
  {
    if items == [] then w.(message := "No items available!")
    else if Pokeballs(items) == [] then w.(message := "No Pokeballs available! Battle ended.", state := BattleEnd)
    else w.(state := Catching, pokeballChoices := Pokeballs(items), message := "Use a pokeball to catch?")
  }

  /** The catch panel opens exactly when the bag holds a pokeball; with other items only the
      battle ends, and with an empty bag the state stays as it was. */
  lemma CatchPanelCases(w: WildBattle, items: seq<Item>)
    ensures items != [] ==>
              (CatchPanelShown(w, items).state == Catching <==> exists x :: x in items && IsPokeball(x))
    ensures items == [] ==> CatchPanelShown(w, items).state == w.state
    ensures items != [] && (forall x :: x in items ==> !IsPokeball(x)) ==>
              CatchPanelShown(w, items).state == BattleEnd
    ensures CatchPanelShown(w, items).party == w.party && CatchPanelShown(w, items).opponent == w.opponent
  {
    if items != [] && Pokeballs(items) != [] {
      assert Pokeballs(items)[0] in Pokeballs(items);
    }
  }

  class CatchPokemonScene {
    /** game_manager.bag; saving and reloading the game manager is not modelled. */
    const bag: Bag
    var battle: WildBattle

    /** The scene's invariant: the opponent is an entry of the party and the active
        monster exists in the bag. */
    predicate Valid()
      reads this, bag
    {
      && (battle.opponent.Some? ==> battle.opponent.value < |battle.party|)
      && (battle.hasPlayer ==> |bag.monsters| > 0)
      && battle.partyIndex >= 0
    }

    function OpponentName(): string
      requires Valid() && battle.opponent.Some?
      reads this, bag
    {
      battle.party[battle.opponent.value].name
    }

    function PlayerName(): string
      requires Valid() && battle.hasPlayer
      reads this, bag
    {
      bag.monsters[0].name
    }

    /** CatchPokemonScene(game_manager) */
    constructor(bag: Bag)
      ensures Valid() && this.bag == bag && battle == FreshBattle
    {
      this.bag := bag;
      battle := FreshBattle;
    }

    /** _init_battle: picks[k] is the k-th random.choice from the pool and hps[k] its
        random.randint hp; the party has one to three members and the first one fights. */
    method InitBattle(picks: seq<nat>, hps: seq<int>)
      requires Valid()
      requires 1 <= |picks| <= 3 && |hps| == |picks|
      requires forall k :: 0 <= k < |picks| ==>
                 picks[k] < |WildPool| && MinWildHp(WildPool[picks[k]].maxHp) <= hps[k] <= WildPool[picks[k]].maxHp
      modifies this
      ensures Valid()
      ensures 1 <= |battle.party| <= 3 && |battle.party| == |picks|
      ensures forall k :: 0 <= k < |picks| ==> battle.party[k] == WildPool[picks[k]].(hp := hps[k])
      ensures forall k :: 0 <= k < |battle.party| ==>
                MinWildHp(battle.party[k].maxHp) <= battle.party[k].hp <= battle.party[k].maxHp
      ensures battle == old(battle).(party := battle.party, partyIndex := 0, opponent := Some(0),
                                     hasPlayer := old(battle.hasPlayer) || |bag.monsters| > 0)
    {
      var party: seq<Monster> := [];
      var k := 0;
      while k < |picks|
        invariant 0 <= k <= |picks| && |party| == k
        invariant forall j :: 0 <= j < k ==> party[j] == WildPool[picks[j]].(hp := hps[j])
      {
        party := party + [WildPool[picks[k]].(hp := hps[k])];
        k := k + 1;
      }
      battle := battle.(party := party, partyIndex := 0, opponent := Some(0));
      if |bag.monsters| > 0 {
        battle := battle.(hasPlayer := true);
      }
    }

    /** _next_state. Naming a missing opponent or player's monster raises a TypeError in the
        source (`raised`); the state has already moved on by then, and the message has not. */
    method NextState() returns (raised: bool)
      requires Valid()
      modifies this
      ensures Valid()
      ensures battle.opponent == old(battle.opponent) && battle.hasPlayer == old(battle.hasPlayer)
      ensures battle.state == NextWildState(old(battle.state))
      ensures raised <==>
                || (old(battle.state) in {Intro, Challenger} && old(battle.opponent).None?)
                || (old(battle.state) in {SendOpponent, SendPlayer} && !old(battle.hasPlayer))
      ensures raised ==>
                battle == old(battle).(state := NextWildState(old(battle.state)),
                                       currentTurn := if old(battle.state) == SendPlayer then PlayerSide
                                                      else old(battle.currentTurn))
      ensures old(battle.state) == Intro && !raised ==>
                battle == old(battle).(state := Challenger, message := "A wild " + OpponentName() + " appeared!")
      ensures old(battle.state) == Challenger && !raised ==>
                battle == old(battle).(state := SendOpponent, message := "Wild " + OpponentName() + "!")
      ensures old(battle.state) == SendOpponent && !raised ==>
                battle == old(battle).(state := SendPlayer, message := "Go, " + PlayerName() + "!")
      ensures old(battle.state) == SendPlayer && !raised ==>
                battle == old(battle).(state := PlayerTurn, currentTurn := PlayerSide,
                                       message := "What will " + PlayerName() + " do?")
      ensures old(battle.state) !in {Intro, Challenger, SendOpponent, SendPlayer} ==> battle == old(battle)
    {
      raised := false;
      var s := battle.state;
      if s == Intro || s == Challenger {
        battle := battle.(state := NextWildState(s));
        if battle.opponent.None? {
          return true;
        }
        var name := battle.party[battle.opponent.value].name;
        battle := battle.(message := if s == Intro then "A wild " + name + " appeared!" else "Wild " + name + "!");
      } else if s == SendOpponent {
        battle := battle.(state := SendPlayer);
        if !battle.hasPlayer {
          return true;
        }
        battle := battle.(message := "Go, " + bag.monsters[0].name + "!");
      } else if s == SendPlayer {
        battle := battle.(state := PlayerTurn, currentTurn := PlayerSide);
        if !battle.hasPlayer {
          return true;
        }
        battle := battle.(message := "What will " + bag.monsters[0].name + " do?");
      }
    }

    /** enter: every battle field is reset, a party is generated and the intro starts. */
    method Enter(picks: seq<nat>, hps: seq<int>)
      requires 1 <= |picks| <= 3 && |hps| == |picks|
      requires forall k :: 0 <= k < |picks| ==>
                 picks[k] < |WildPool| && MinWildHp(WildPool[picks[k]].maxHp) <= hps[k] <= WildPool[picks[k]].maxHp
      modifies this
      ensures Valid() && |battle.party| == |picks|
      ensures forall k :: 0 <= k < |picks| ==> battle.party[k] == WildPool[picks[k]].(hp := hps[k])
      ensures battle == FreshBattle.(state := Challenger, party := battle.party, opponent := Some(0),
                                     hasPlayer := |bag.monsters| > 0,
                                     message := "A wild " + WildPool[picks[0]].name + " appeared!")
    {
      battle := FreshBattle;
      InitBattle(picks, hps);
      var raised := NextState();
    }

    /** _get_next_enemy_pokemon: the party index moves on by one; the opponent changes only
        when the index is still inside the party. */
    method NextEnemy() returns (more: bool)
      requires Valid()
      modifies this
      ensures Valid()
      ensures more <==> 0 <= old(battle.partyIndex) + 1 < |battle.party|
      ensures more ==> battle == old(battle).(partyIndex := old(battle.partyIndex) + 1,
                                              opponent := Some(old(battle.partyIndex) + 1))
      ensures !more ==> battle == old(battle).(partyIndex := old(battle.partyIndex) + 1)
    {
      var next := battle.partyIndex + 1;
      battle := battle.(partyIndex := next);
      if next < |battle.party| {
        battle := battle.(opponent := Some(next));
        return true;
      }
      return false;
    }

    /** _on_fight_click */
    method OnFightClick()
      modifies this
      ensures battle == old(battle).(state := ChooseMove, message := "Choose a move:")
    {
      battle := battle.(state := ChooseMove, message := "Choose a move:");
    }

    /** _on_item_click: the item panel opens when the bag holds anything but coins and pokeballs. */
    method OnItemClick()
      modifies this
      ensures |bag.items| == 0 ==> battle == old(battle).(message := "No items available!")
      ensures |bag.items| > 0 && BattleItems(bag.items) == [] ==>
                battle == old(battle).(message := "No usable items in battle!")
      ensures BattleItems(bag.items) != [] ==>
                battle == old(battle).(state := ChooseItem, itemChoices := BattleItems(bag.items),
                                       message := "Choose an item:")
    {
      if |bag.items| == 0 {
        battle := battle.(message := "No items available!");
        return;
      }
      var usable := BattleItems(bag.items);
      if usable == [] {
        battle := battle.(message := "No usable items in battle!");
        return;
      }
      battle := battle.(state := ChooseItem, itemChoices := usable, message := "Choose an item:");
    }

    /** _on_switch_click: switching is announced but not implemented. */
    method OnSwitchClick()
      modifies this
      ensures battle == old(battle).(message := "Switch pokemon feature coming soon!", state := SwitchPokemon)
    {
      battle := battle.(message := "Switch pokemon feature coming soon!", state := SwitchPokemon);
    }

    /** _on_run_click */
    method OnRunClick()
      modifies this
      ensures battle == old(battle).(message := "Escaped from battle!")
    {
      battle := battle.(message := "Escaped from battle!");
    }

    /** _show_catch_panel */
    method ShowCatchPanel()
      modifies this
      ensures battle == CatchPanelShown(old(battle), bag.items)
    {
      if |bag.items| == 0 {
        battle := battle.(message := "No items available!");
        return;
      }
      var balls := Pokeballs(bag.items);
      if balls == [] {
        battle := battle.(message := "No Pokeballs available! Battle ended.", state := BattleEnd);
        return;
      }
      battle := battle.(state := Catching, pokeballChoices := balls, message := "Use a pokeball to catch?");
    }

    /** _check_battle_end: a fainted opponent ends the exchange without touching the state
        (the player then decides whether to catch it); a fainted player loses the battle. */
    method CheckBattleEnd() returns (ended: bool)
      requires Valid()
      modifies this
      ensures Valid()
      ensures var opponentFainted := old(battle.opponent).Some? && old(battle.party)[old(battle.opponent).value].hp <= 0;
              var playerFainted := old(battle.hasPlayer) && bag.monsters[0].hp <= 0;
              && ended == (opponentFainted || playerFainted)
              && (!opponentFainted && playerFainted ==>
                    battle == old(battle).(state := BattleEnd, message := bag.monsters[0].name + " fainted! You lost!"))
              && (opponentFainted || !playerFainted ==> battle == old(battle))
    {
      if battle.opponent.Some? && battle.party[battle.opponent.value].hp <= 0 {
        return true;
      }
      if battle.hasPlayer && bag.monsters[0].hp <= 0 {
        battle := battle.(state := BattleEnd, message := bag.monsters[0].name + " fainted! You lost!");
        return true;
      }
      return false;
    }

    /** The opponent takes a hit of `damage`. */
    method HitOpponent(damage: int)
      requires Valid() && battle.opponent.Some?
      modifies this
      ensures Valid()
      ensures var o := old(battle.opponent).value;
              var before := old(battle.party)[o];
              battle == old(battle).(party := old(battle.party)[o := before.(hp := HpAfterHit(before.hp, damage))],
                                     message := before.name + " took " + IntToString(damage) + " damage!")
    {
      var o := battle.opponent.value;
      var before := battle.party[o];
      battle := battle.(party := battle.party[o := before.(hp := HpAfterHit(before.hp, damage))],
                        message := before.name + " took " + IntToString(damage) + " damage!");
    }

    /** _on_move_select and _execute_player_attack: the opponent takes `damage`, drawn from
        10 to 20, and the damage is shown. */
    method OnMoveSelect(move: string, damage: int) returns (raised: bool)
      requires Valid()
      requires 10 <= damage <= 20
      modifies this
      ensures Valid() && battle.hasPlayer == old(battle.hasPlayer)
      ensures old(battle.currentTurn) != PlayerSide ==> battle == old(battle)
      ensures raised <==> old(battle.currentTurn) == PlayerSide && !old(battle.hasPlayer)
      ensures raised ==> battle == old(battle).(playerSelectedMove := Some(move))
      ensures !raised && old(battle.currentTurn) == PlayerSide && (move == "" || old(battle.opponent).None?) ==>
                battle == old(battle).(playerSelectedMove := Some(move), state := PlayerTurn,
                                       message := PlayerName() + " used " + move + "!")
      ensures !raised && old(battle.currentTurn) == PlayerSide && move != "" && old(battle.opponent).Some? ==>
                var o := old(battle.opponent).value;
                var before := old(battle.party)[o];
                var hit := before.(hp := HpAfterHit(before.hp, damage));
                var lost := hit.hp > 0 && bag.monsters[0].hp <= 0;
                && battle == old(battle).(playerSelectedMove := Some(move), party := old(battle.party)[o := hit],
                                          state := ShowDamage,
                                          message := if lost then PlayerName() + " fainted! You lost!"
                                                     else before.name + " took " + IntToString(damage) + " damage!")
    {
      raised := false;
      if battle.currentTurn == PlayerSide {
        battle := battle.(playerSelectedMove := Some(move));
        if !battle.hasPlayer {
          return true;
        }
        battle := battle.(message := bag.monsters[0].name + " used " + move + "!", state := PlayerTurn);
        if move == "" || battle.opponent.None? {
          return;
        }
        HitOpponent(damage);
        var ended := CheckBattleEnd();
        battle := battle.(state := ShowDamage);
      }
    }

    /** _execute_enemy_attack: the opponent picks EnemyMoves[choice]. */
    method ExecuteEnemyAttack(choice: nat)
      requires Valid()
      requires choice < |EnemyMoves|
      modifies this
      ensures Valid()
      ensures old(battle.opponent).None? || !battle.hasPlayer ==> battle == old(battle)
      ensures old(battle.opponent).Some? && battle.hasPlayer ==>
                battle == old(battle).(enemySelectedMove := Some(EnemyMoves[choice]), turnMessage := "",
                                       message := old(battle.party)[old(battle.opponent).value].name + " used "
                                                  + EnemyMoves[choice] + "!")
    {
      if battle.opponent.None? || !battle.hasPlayer {
        return;
      }
      var move := EnemyMoves[choice];
      battle := battle.(enemySelectedMove := Some(move), turnMessage := "",
                        message := battle.party[battle.opponent.value].name + " used " + move + "!");
    }

    /** _apply_enemy_damage: the player's monster takes `damage`, drawn from 8 to 15. */
    method ApplyEnemyDamage(damage: int)
      requires Valid()
      requires 8 <= damage <= 15
      modifies this, bag
      ensures Valid() && battle.hasPlayer == old(battle.hasPlayer)
      ensures bag.items == old(bag.items) && bag.money == old(bag.money)
      ensures old(battle.opponent).None? || !battle.hasPlayer || old(battle.enemySelectedMove) in {None, Some("")} ==>
                battle == old(battle) && bag.monsters == old(bag.monsters)
      ensures old(battle.opponent).Some? && battle.hasPlayer && old(battle.enemySelectedMove) !in {None, Some("")} ==>
                var before := old(bag.monsters)[0];
                var hit := before.(hp := HpAfterHit(before.hp, damage));
                var fainted := old(battle.party)[old(battle.opponent).value].hp > 0 && hit.hp <= 0;
                && bag.monsters == old(bag.monsters)[0 := hit]
                && 0 <= bag.monsters[0].hp <= Max(0, before.hp)
                && battle == old(battle).(state := ShowDamage, enemySelectedMove := None,
                                          message := if fainted then before.name + " fainted! You lost!"
                                                     else before.name + " took " + IntToString(damage) + " damage!")
    {
      if battle.opponent.None? || !battle.hasPlayer || battle.enemySelectedMove == None || battle.enemySelectedMove == Some("") {
        return;
      }
      var before := bag.monsters[0];
      bag.monsters := bag.monsters[0 := before.(hp := HpAfterHit(before.hp, damage))];
      battle := battle.(message := before.name + " took " + IntToString(damage) + " damage!");
      var ended := CheckBattleEnd();
      battle := battle.(state := ShowDamage, enemySelectedMove := None);
    }

    /** _execute_item_attack on the bag item at idx: any item hits the opponent for `damage`,
        drawn from 5 to 25, and loses one use without leaving the bag. */
    method ExecuteItemAttack(idx: nat, damage: int)
      requires Valid()
      requires idx < |bag.items|
      requires 5 <= damage <= 25
      modifies this, bag
      ensures Valid()
      ensures bag.monsters == old(bag.monsters) && bag.money == old(bag.money)
      ensures old(battle.opponent).None? ==> battle == old(battle) && bag.items == old(bag.items)
      ensures old(battle.opponent).Some? ==>
                var o := old(battle.opponent).value;
                var before := old(battle.party)[o];
                var hit := before.(hp := HpAfterHit(before.hp, damage));
                var lost := hit.hp > 0 && old(battle.hasPlayer) && bag.monsters[0].hp <= 0;
                && bag.items == ItemsAfterThrow(old(bag.items), idx)
                && battle == old(battle).(party := old(battle.party)[o := hit], state := ShowDamage,
                                          message := if lost then bag.monsters[0].name + " fainted! You lost!"
                                                     else before.name + " took " + IntToString(damage) + " damage!")
    {
      if battle.opponent.None? {
        return;
      }
      HitOpponent(damage);
      bag.items := ItemsAfterThrow(bag.items, idx);
      var ended := CheckBattleEnd();
      battle := battle.(state := ShowDamage);
    }

    /** _execute_pokeball_catch on the bag item at idx: the ball loses one use and is thrown. */
    method ExecutePokeballCatch(idx: nat)
      requires idx < |bag.items|
      modifies this, bag
      ensures bag.monsters == old(bag.monsters) && bag.money == old(bag.money)
      ensures old(battle.opponent).None? ==> battle == old(battle) && bag.items == old(bag.items)
      ensures old(battle.opponent).Some? ==>
                bag.items == ItemsAfterThrow(old(bag.items), idx)
                && battle == old(battle).(state := CatchAnimation)
    {
      if battle.opponent.None? {
        return;
      }
      bag.items := ItemsAfterThrow(bag.items, idx);
      battle := battle.(state := CatchAnimation);
    }

    /** _catch_opponent_pokemon: the first monster of the same name gets one more in its
        count; otherwise a full-hp copy of the opponent joins the roster. */
    method CatchOpponent()
      requires Valid()
      modifies this, bag
      ensures Valid()
      ensures bag.items == old(bag.items) && bag.money == old(bag.money)
      ensures old(battle.opponent).None? ==>
                battle == old(battle).(state := BattleEnd, message := "Catch failed!")
                && bag.monsters == old(bag.monsters)
      ensures old(battle.opponent).Some? ==>
                battle == old(battle)
                && bag.monsters == RosterAfterCatch(old(bag.monsters), old(battle.party)[old(battle.opponent).value])
    {
      if battle.opponent.None? {
        battle := battle.(state := BattleEnd, message := "Catch failed!");
        return;
      }
      var caught := battle.party[battle.opponent.value];
      var i := 0;
      while i < |bag.monsters| && bag.monsters[i].name != caught.name
        invariant 0 <= i <= |bag.monsters|
        invariant forall k :: 0 <= k < i ==> bag.monsters[k].name != caught.name
      {
        i := i + 1;
      }
      if i < |bag.monsters| {
        assert FindMonster(bag.monsters, caught.name) == Some(i);
        bag.monsters := bag.monsters[i := BumpedCount(bag.monsters[i])];
      } else {
        bag.monsters := bag.monsters + [CaughtRecord(caught)];
      }
    }

    /** The SPACE key while the damage is shown. A fainted opponent opens the catch panel;
        otherwise, unless the player lost, the turn passes to the other side. */
    method ShowDamageAdvance() returns (raised: bool)
      requires Valid()
      requires battle.state == ShowDamage
      modifies this
      ensures Valid() && battle.hasPlayer == old(battle.hasPlayer)
      ensures var opponentFainted := old(battle.opponent).Some? && old(battle.party)[old(battle.opponent).value].hp <= 0;
              var playerFainted := old(battle.hasPlayer) && bag.monsters[0].hp <= 0;
              && (raised <==> !opponentFainted && !playerFainted && old(battle.currentTurn) == EnemySide
                              && !old(battle.hasPlayer))
              && (opponentFainted ==>
                    battle == CatchPanelShown(old(battle), bag.items).(
                                message := old(battle.party)[old(battle.opponent).value].name + " fainted! Catch it?"))
              && (!opponentFainted && playerFainted ==>
                    battle == old(battle).(state := BattleEnd, message := PlayerName() + " fainted! You lost!"))
              && (!opponentFainted && !playerFainted && old(battle.currentTurn) == PlayerSide ==>
                    battle == old(battle).(state := EnemyTurn, currentTurn := EnemySide))
              && (!opponentFainted && !playerFainted && old(battle.currentTurn) == EnemySide && raised ==>
                    battle == old(battle).(state := PlayerTurn, currentTurn := PlayerSide))
              && (!opponentFainted && !playerFainted && old(battle.currentTurn) == EnemySide && !raised ==>
                    battle == old(battle).(state := PlayerTurn, currentTurn := PlayerSide,
                                           message := "What will " + PlayerName() + " do?", turnMessage := ""))
    {
      raised := false;
      var ended := CheckBattleEnd();
      if ended {
        if battle.opponent.Some? && battle.party[battle.opponent.value].hp <= 0 {
          ShowCatchPanel();
          battle := battle.(message := battle.party[battle.opponent.value].name + " fainted! Catch it?");
        }
      } else if battle.currentTurn == PlayerSide {
        battle := battle.(state := EnemyTurn, currentTurn := EnemySide);
      } else {
        battle := battle.(state := PlayerTurn, currentTurn := PlayerSide);
        if !battle.hasPlayer {
          return true;
        }
        battle := battle.(message := "What will " + bag.monsters[0].name + " do?", turnMessage := "");
      }
    }

    /** The ESC key while the catch panel is open: skip the catch and move to the next wild
        monster, or win when the party is exhausted. */
    method SkipCatch()
      requires Valid()
      requires battle.state == Catching
      modifies this
      ensures Valid()
      ensures old(battle.partyIndex) + 1 < |old(battle.party)| ==>
                battle == old(battle).(partyIndex := old(battle.partyIndex) + 1,
                                       opponent := Some(old(battle.partyIndex) + 1), state := SendOpponent,
                                       message := "Wild " + old(battle.party)[old(battle.partyIndex) + 1].name + " appeared!")
      ensures old(battle.partyIndex) + 1 >= |old(battle.party)| ==>
                battle == old(battle).(partyIndex := old(battle.partyIndex) + 1, state := BattleEnd,
                                       message := "You won the battle! All wild pokemon defeated!")
    {
      var more := NextEnemy();
      if more {
        battle := battle.(state := SendOpponent, message := "Wild " + battle.party[battle.opponent.value].name + " appeared!");
      } else {
        battle := battle.(state := BattleEnd, message := "You won the battle! All wild pokemon defeated!");
      }
    }

    /** A second after a successful catch: the next wild monster comes out, or the battle ends. */
    method AfterCatch()
      requires Valid()
      requires battle.state == CatchSuccess
      modifies this
      ensures Valid()
      ensures old(battle.partyIndex) + 1 < |old(battle.party)| ==>
                battle == old(battle).(partyIndex := old(battle.partyIndex) + 1,
                                       opponent := Some(old(battle.partyIndex) + 1), state := SendOpponent,
                                       message := "Wild " + old(battle.party)[old(battle.partyIndex) + 1].name + " appeared!")
      ensures old(battle.partyIndex) + 1 >= |old(battle.party)| ==>
                battle == old(battle).(partyIndex := old(battle.partyIndex) + 1, state := BattleEnd,
                                       message := "You caught all wild pokemon!")
    {
      var more := NextEnemy();
      if more {
        battle := battle.(state := SendOpponent, message := "Wild " + battle.party[battle.opponent.value].name + " appeared!");
      } else {
        battle := battle.(state := BattleEnd, message := "You caught all wild pokemon!");
      }
    }

    /** The ESC key while the item panel is open: back to the player's turn. Without a
        player's monster the source raises a TypeError (`raised`) after the state change. */
    method CloseItemPanel() returns (raised: bool)
      requires Valid()
      requires battle.state == ChooseItem
      modifies this
      ensures Valid() && battle.hasPlayer == old(battle.hasPlayer)
      ensures raised <==> !old(battle.hasPlayer)
      ensures raised ==> battle == old(battle).(state := PlayerTurn)
      ensures !raised ==> battle == old(battle).(state := PlayerTurn, message := "What will " + PlayerName() + " do?")
    {
      battle := battle.(state := PlayerTurn);
      if !battle.hasPlayer {
        return true;
      }
      battle := battle.(message := "What will " + bag.monsters[0].name + " do?");
      raised := false;
    }

    /** The end of the throw: the ball has reached the opponent, which starts to flash. */
    method ThrowLanded()
      requires battle.state == CatchAnimation
      modifies this
      ensures battle == old(battle).(state := CatchFlashing, flashCount := 0, pokemonVisible := true)
    {
      battle := battle.(state := CatchFlashing, flashCount := 0, pokemonVisible := true);
    }

    /** One flash interval: the opponent's visibility toggles, each disappearance counts, and
        after the third it stays hidden while the ball falls. */
    method FlashTick()
      requires battle.state == CatchFlashing
      modifies this
      ensures var visible := !old(battle.pokemonVisible);
              var count := if visible then old(battle.flashCount) else old(battle.flashCount) + 1;
              battle == old(battle).(pokemonVisible := visible, flashCount := count,
                                     state := if count >= 3 && !visible then CatchFalling else CatchFlashing)
    {
      var visible := !battle.pokemonVisible;
      var count := if visible then battle.flashCount else battle.flashCount + 1;
      battle := battle.(pokemonVisible := visible, flashCount := count);
      if count >= 3 && !visible {
        battle := battle.(state := CatchFalling);
      }
    }

    /** The ball has hit the ground and starts to shake. */
    method BallLanded()
      requires battle.state == CatchFalling
      modifies this
      ensures battle == old(battle).(state := CatchShake, shakeCount := 0)
    {
      battle := battle.(state := CatchShake, shakeCount := 0);
    }

    /** One shake interval: the third shake completes the catch. */
    method ShakeTick()
      requires Valid()
      requires battle.state == CatchShake
      modifies this, bag
      ensures Valid()
      ensures bag.items == old(bag.items) && bag.money == old(bag.money)
      ensures old(battle.shakeCount) + 1 < 3 ==>
                battle == old(battle).(shakeCount := old(battle.shakeCount) + 1) && bag.monsters == old(bag.monsters)
      ensures old(battle.shakeCount) + 1 >= 3 && old(battle.opponent).Some? ==>
                battle == old(battle).(shakeCount := old(battle.shakeCount) + 1, state := CatchSuccess)
                && bag.monsters == RosterAfterCatch(old(bag.monsters), old(battle.party)[old(battle.opponent).value])
      ensures old(battle.shakeCount) + 1 >= 3 && old(battle.opponent).None? ==>
                battle == old(battle).(shakeCount := old(battle.shakeCount) + 1, state := BattleEnd,
                                       message := "Catch failed!")
                && bag.monsters == old(bag.monsters)
    {
      battle := battle.(shakeCount := battle.shakeCount + 1);
      if battle.shakeCount >= 3 {
        battle := battle.(state := CatchSuccess);
        CatchOpponent();
      }
    }
  }

  /** From the moment the ball lands on the opponent, exactly five flash ticks pass before
      the ball falls: the opponent disappears on the first, third and fifth. */
  lemma FlashSequenceLength()
    ensures FlashesUntilFall(0, true, 5)
    ensures forall t :: 0 <= t < 5 ==> !FlashesUntilFall(0, true, t)
  {
  }

  /** Whether `ticks` flash intervals, starting from the given counter and visibility, end
      in the falling state, following FlashTick. */
  predicate FlashesUntilFall(count: nat, visible: bool, ticks: nat)
    decreases ticks
  {
    if ticks == 0 then false
    else
      var v := !visible;
      var c := if v then count else count + 1;
      if c >= 3 && !v then ticks == 1 else FlashesUntilFall(c, v, ticks - 1)
  }
}
