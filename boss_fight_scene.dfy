// The legendary boss battle of src/scenes/boss_fight_scene.py: a turn-based
// state machine against Mewtwo. The player's active monster is always the
// bag's first monster (the source keeps a reference to that very record), so
// every change to it is a change to bag.monsters[0]. Random draws, the damage
// numbers and the effectiveness message (which the source would get from the
// damage calculation) are parameters; drawing, sprites, animations and timers
// are not modelled.
module BossFight {
  import opened Util
  import opened Definition
  import opened BagData
  import opened PokemonData

  /** BossFightState */
  datatype BossState =
    | Intro | BossAppear | SendPlayer | Main | PlayerTurn | ChooseMove
    | BossTurn | BattleEnd | ChooseItem | ShowDamage | ChooseSwitch

  /** current_turn: "player" or "boss" */
  datatype Side = PlayerSide | BossSide

  const BossName: string := "Mewtwo"
  const BossSprite: string := "sprites/mewtwo.png"

  /** The species record used when "Mewtwo" is not in the species table. */
  const BossSpeciesDefault: Species := Species("Psychic", ["Psystrike", "ShadowBall", "IceBeam", "Thunderbolt"])

  /** The species record used for a player monster whose name is not in the species table. */
  const UnknownSpecies: Species := Species("None", ["QuickSlash"])

  function SpeciesOr(name: string, default: Species): (s: Species)
    ensures name in PokemonSpecies ==> s == PokemonSpecies[name]
    ensures name !in PokemonSpecies ==> s == default
  {
    if name in PokemonSpecies then PokemonSpecies[name] else default
  }

  /** The boss _init_boss builds. */
  function NewBoss(): (m: Monster)
    ensures m.name == BossName && m.level == 50
    ensures m.hp == m.maxHp == 200
    ensures m.attack == Some(40) && m.defense == Some(30)
    ensures m.moves.Some? && |m.moves.value| > 0
  {
    var species := SpeciesOr(BossName, BossSpeciesDefault);
    SpeciesMovesNonEmpty(BossName);
    Monster(BossName, 200, 200, 50, Some(40), Some(30), BossSprite,
            Some(species.speciesType), Some(species.moves), None)
  }

  lemma SpeciesMovesNonEmpty(name: string)
    ensures |SpeciesOr(name, BossSpeciesDefault).moves| > 0
  {
  }

  /** Mewtwo is not in the species table, so the boss is of type "Psychic" with the
      default moves, a type the chart does not know: its matchups are all neutral. */
  lemma BossIsPsychic(attackerType: string)
    ensures NewBoss().monsterType == Some("Psychic")
    ensures NewBoss().moves == Some(["Psystrike", "ShadowBall", "IceBeam", "Thunderbolt"])
    ensures TypeEffectiveness(attackerType, "Psychic") == (1.0, "")
    ensures TypeEffectiveness("Psychic", attackerType) == (1.0, "")
  {
    assert BossName !in PokemonSpecies;
    NoneAndUnknownAreNeutral(attackerType);
  }

  /** `int(10 + level * 0.5)`: the attack or defense a monster without one gets. */
  function DefaultStat(level: int): int
  {
    TruncReal(10.0 + level as real * 0.5)
  }

  /** For a non-negative level the default stat is 10 plus half the level, rounded down. */
  lemma DefaultStatHalfLevel(level: int)
    requires level >= 0
    ensures DefaultStat(level) == 10 + level / 2
  {
    var x := 10.0 + level as real * 0.5;
    var k := 10 + level / 2;
    assert level == 2 * (level / 2) + level % 2;
    assert x == k as real + (level % 2) as real * 0.5;
    assert k as real <= x < (k + 1) as real;
  }

  /** The defaults _init_boss and _execute_switch fill into a player monster before it fights:
      type and moves together from its species (or "None" with QuickSlash), and missing
      attack and defense from its level. */
  function WithBattleDefaults(m: Monster): (r: Monster)
    ensures r.name == m.name && r.hp == m.hp && r.maxHp == m.maxHp && r.level == m.level
    ensures r.spritePath == m.spritePath && r.count == m.count
    ensures r.monsterType.Some? && r.moves.Some? && r.attack.Some? && r.defense.Some?
    ensures m.monsterType.Some? && m.moves.Some? ==> r.monsterType == m.monsterType && r.moves == m.moves
    ensures !(m.monsterType.Some? && m.moves.Some?) ==>
              r.monsterType == Some(SpeciesOr(m.name, UnknownSpecies).speciesType)
              && r.moves == Some(SpeciesOr(m.name, UnknownSpecies).moves)
    ensures r.attack == (if m.attack.Some? then m.attack else Some(DefaultStat(m.level)))
    ensures r.defense == (if m.defense.Some? then m.defense else Some(DefaultStat(m.level)))
  {
    var typed :=
      if m.monsterType.Some? && m.moves.Some? then m
      else
        var species := SpeciesOr(m.name, UnknownSpecies);
        m.(monsterType := Some(species.speciesType), moves := Some(species.moves));
    var withAttack := if typed.attack.Some? then typed else typed.(attack := Some(DefaultStat(typed.level)));
    if withAttack.defense.Some? then withAttack else withAttack.(defense := Some(DefaultStat(withAttack.level)))
  }

  /** Filling defaults twice changes nothing more. */
  lemma BattleDefaultsIdempotent(m: Monster)
    ensures WithBattleDefaults(WithBattleDefaults(m)) == WithBattleDefaults(m)
  {
  }

  /** Some monster other than the active one (index 0) can still fight. */
  predicate HasHealthyReserve(monsters: seq<Monster>)
  {
    exists i :: 0 < i < |monsters| && monsters[i].hp > 0
  }

  /** What _check_battle_end finds. */
  datatype Verdict = BossFainted | ForcedSwitch | AllFainted | Continue

  /** _check_battle_end's decision: the boss is checked first. */
  function EndVerdict(boss: Option<Monster>, hasPlayer: bool, monsters: seq<Monster>): (v: Verdict)
    requires hasPlayer ==> |monsters| > 0
    ensures v == BossFainted <==> boss.Some? && boss.value.hp <= 0
    ensures v == ForcedSwitch <==>
              !(boss.Some? && boss.value.hp <= 0) && hasPlayer && monsters[0].hp <= 0
              && HasHealthyReserve(monsters)
    ensures v == AllFainted <==>
              !(boss.Some? && boss.value.hp <= 0) && hasPlayer && monsters[0].hp <= 0
              && !HasHealthyReserve(monsters)
    ensures v == Continue <==> !(boss.Some? && boss.value.hp <= 0) && !(hasPlayer && monsters[0].hp <= 0)
  {
    if boss.Some? && boss.value.hp <= 0 then BossFainted
    else if hasPlayer && monsters[0].hp <= 0 then
      if HasHealthyReserve(monsters) then ForcedSwitch else AllFainted
    else Continue
  }

  const VictoryMessage: string := "Victory! You defeated Mewtwo!"
  const DefeatMessage: string := "All your Pokemon fainted! You lost!"

  /** "<name> took <damage> damage!", followed by the effectiveness message when there is one. */
  function DamageMessage(name: string, damage: int, effectivenessMsg: string): string
  {
    name + " took " + IntToString(damage) + " damage!"
    + (if effectivenessMsg != "" then " " + effectivenessMsg else "")
  }

  /** The state _check_battle_end moves to. */
  function StateAfterVerdict(v: Verdict, s: BossState): BossState
  {
    match v
    case BossFainted => BattleEnd
    case ForcedSwitch => ChooseSwitch
    case AllFainted => BattleEnd
    case Continue => s
  }

  /** The message _check_battle_end shows. */
  function MessageAfterVerdict(v: Verdict, playerName: string, msg: string): string
  {
    match v
    case BossFainted => VictoryMessage
    case ForcedSwitch => playerName + " fainted! Choose another Pokemon!"
    case AllFainted => DefeatMessage
    case Continue => msg
  }

  /** _next_state's successor: the intro runs INTRO, BOSS_APPEAR, SEND_PLAYER, PLAYER_TURN. */
  function NextBossState(s: BossState): BossState
  {
    match s
    case Intro => BossAppear
    case BossAppear => SendPlayer
    case SendPlayer => PlayerTurn
    case _ => s
  }

  /** Three steps take the intro to the player's turn, where the sequence stops. */
  lemma IntroReachesPlayerTurn(s: BossState)
    ensures NextBossState(NextBossState(NextBossState(Intro))) == PlayerTurn
    ensures s !in {Intro, BossAppear, SendPlayer} ==> NextBossState(s) == s
    ensures NextBossState(s) != Intro
  {
  }

  /** What a potion does, decided by its lower-cased name. */
  datatype ItemEffect = HealEffect | StrengthEffect | DefenseEffect | NoEffect

  function ItemEffectOf(name: string): ItemEffect
  {
    var n := Lower(name);
    if Contains(n, "health") || Contains(n, "heal") then HealEffect
    else if Contains(n, "strength") || Contains(n, "attack") then StrengthEffect
    else if Contains(n, "defense") || Contains(n, "defence") then DefenseEffect
    else NoEffect
  }

  /** The message _execute_item_attack shows. */
  function ItemMessage(effect: ItemEffect, playerName: string, itemName: string, restored: int): string
  {
    match effect
    case HealEffect => playerName + " used Health Potion! Restored " + IntToString(restored) + " HP!"
    case StrengthEffect => playerName + " used Strength Potion! Attack power increased!"
    case DefenseEffect => playerName + " used Defense Potion! Defense increased!"
    case NoEffect => "Used " + itemName + "!"
  }

  /** The items _on_item_click offers: no coins, no pokeballs, and "potion" or "heal" in the name. */
  predicate IsBattlePotion(item: Item)
  {
    var n := Lower(item.name);
    n != "coins" && n != "pokeball" && (Contains(n, "potion") || Contains(n, "heal"))
  }

  function BattlePotions(items: seq<Item>): (r: seq<Item>)
    ensures forall x :: x in r <==> x in items && IsBattlePotion(x)
    ensures forall x :: multiset(r)[x] == if IsBattlePotion(x) then multiset(items)[x] else 0
    ensures |r| <= |items|
  {
    if items == [] then []
    else
      assert items == [items[0]] + items[1..];
      (if IsBattlePotion(items[0]) then [items[0]] else []) + BattlePotions(items[1..])
  }

  /** The filter keeps the bag's order: it distributes over concatenation, so together with
      the single-item case it is the source's list comprehension, order and repeats included. */
  lemma {:induction false} BattlePotionsAppend(a: seq<Item>, b: seq<Item>)
    ensures BattlePotions(a + b) == BattlePotions(a) + BattlePotions(b)
    ensures BattlePotions([]) == []
  {
    if a == [] {
      assert a + b == b;
    } else {
      assert (a + b)[0] == a[0];
      assert (a + b)[1..] == a[1..] + b;
      BattlePotionsAppend(a[1..], b);
    }
  }

  /** A single item is kept exactly when it passes the test. */
  lemma BattlePotionsSingle(x: Item)
    ensures BattlePotions([x]) == if IsBattlePotion(x) then [x] else []
  {
    assert [x][1..] == [];
  }

  /** hp after a healing potion: half of max_hp, truncated, capped at max_hp. */
  function HealedHp(hp: int, maxHp: int): int
  {
    Min(maxHp, hp + TruncReal(maxHp as real * 0.5))
  }

  /** A heal restores half of max_hp (rounded down) without passing max_hp, and never lowers hp. */
  lemma HealBounds(hp: int, maxHp: int)
    requires 0 <= hp <= maxHp
    ensures HealedHp(hp, maxHp) == Min(maxHp, hp + maxHp / 2)
    ensures hp <= HealedHp(hp, maxHp) <= maxHp
  {
    var x := maxHp as real * 0.5;
    assert maxHp == 2 * (maxHp / 2) + maxHp % 2;
    assert x == (maxHp / 2) as real + (maxHp % 2) as real * 0.5;
    assert x.Floor == maxHp / 2;
  }

  /** The index of the first element equal to x (Python's list.remove scans for it). */
  function FirstIndexOf(s: seq<Item>, x: Item): (j: nat)
    requires x in s
    ensures j < |s| && s[j] == x
    ensures forall k :: 0 <= k < j ==> s[k] != x
  {
    if s[0] == x then 0 else 1 + FirstIndexOf(s[1..], x)
  }

  /** The bag's items after using the item at idx: its count drops by one, floored at 0,
      and at 0 the first entry equal to it is removed. */
  function ItemsAfterUse(items: seq<Item>, idx: nat): seq<Item>
    requires idx < |items|
  {
    var used := items[idx].(count := Max(0, items[idx].count - 1));
    var updated := items[idx := used];
    if used.count == 0 then
      assert updated[idx] == used;
      var j := FirstIndexOf(updated, used);
      updated[..j] + updated[j + 1..]
    else updated
  }

  /** With unique names, using an item lowers exactly its quantity by one, floored at 0:
      the entry removed at 0 is that item's own. */
  lemma {:induction false} ItemUseQuantity(items: seq<Item>, idx: nat)
    requires idx < |items|
    requires UniqueNames(items)
    ensures ItemsAfterUse(items, idx)
         == if items[idx].count <= 1 then items[..idx] + items[idx + 1..]
            else items[idx := items[idx].(count := items[idx].count - 1)]
    ensures |ItemsAfterUse(items, idx)| == if items[idx].count <= 1 then |items| - 1 else |items|
  {
    var used := items[idx].(count := Max(0, items[idx].count - 1));
    var updated := items[idx := used];
    if used.count == 0 {
      assert updated[idx] == used;
      var j := FirstIndexOf(updated, used);
      assert updated[..idx] == items[..idx];
      assert updated[idx + 1..] == items[idx + 1..];
    }
  }

  /** The battle fields of the scene, kept together as one record. */
  datatype Fight = Fight(
    state: BossState,
    boss: Option<Monster>,
    /** player_pokemon is not None; it is then bag.monsters[0]. */
    hasPlayer: bool,
    message: string,
    currentTurn: Side,
    playerSelectedMove: Option<string>,
    bossSelectedMove: Option<string>,
    turnMessage: string,
    effectivenessMessage: string,
    attackBoost: real,
    defenseBoost: real,
    /** game_manager.boss_defeated */
    bossDefeated: bool,
    /** The items handed to the item panel by the last Item click. */
    potionChoices: seq<Item>)

  /** The fields as __init__ sets them and enter resets them. */
  function FreshFight(bossDefeated: bool): Fight
  {
    Fight(Intro, None, false, "", PlayerSide, None, None, "", "", 1.0, 1.0, bossDefeated, [])
  }

  class BossFightScene {
    /** game_manager.bag; reloading the game manager from the save file is not modelled. */
    const bag: Bag
    var fight: Fight

    /** The scene's invariant: the active monster exists in the bag, the boss has moves to
        choose from, and each boost is either off or at its one potion value. */
    predicate Valid()
      reads this, bag
    {
      && (fight.hasPlayer ==> |bag.monsters| > 0)
      && (fight.boss.Some? ==> fight.boss.value.moves.Some? && |fight.boss.value.moves.value| > 0)
      && (fight.attackBoost == 1.0 || fight.attackBoost == 1.5)
      && (fight.defenseBoost == 1.0 || fight.defenseBoost == 0.7)
    }

    function PlayerName(): string
      requires Valid() && fight.hasPlayer
      reads this, bag
    {
      bag.monsters[0].name
    }

    /** BossFightScene(game_manager) */
    constructor(bag: Bag, bossDefeated: bool)
      ensures Valid() && this.bag == bag
      ensures fight == FreshFight(bossDefeated)
    {
      this.bag := bag;
      fight := FreshFight(bossDefeated);
    }

    /** _init_boss: a fresh Mewtwo; the bag's first monster, with its battle defaults filled in,
        becomes the player's. */
    method InitBoss()
      requires Valid()
      modifies this, bag
      ensures Valid()
      ensures fight.boss == Some(NewBoss())
      ensures |old(bag.monsters)| > 0 ==>
                fight.hasPlayer && bag.monsters == old(bag.monsters)[0 := WithBattleDefaults(old(bag.monsters)[0])]
      ensures |old(bag.monsters)| == 0 ==> fight.hasPlayer == old(fight.hasPlayer) && bag.monsters == old(bag.monsters)
      ensures fight == old(fight).(boss := fight.boss, hasPlayer := fight.hasPlayer)
      ensures bag.items == old(bag.items) && bag.money == old(bag.money)
    {
      fight := fight.(boss := Some(NewBoss()));
      if |bag.monsters| > 0 {
        fight := fight.(hasPlayer := true);
        bag.monsters := bag.monsters[0 := WithBattleDefaults(bag.monsters[0])];
      }
    }

    /** _next_state. Naming the player's monster when there is none raises a TypeError in the
        source (`raised`); the state has already moved on by then, and the message has not. */
    method NextState() returns (raised: bool)
      requires Valid()
      modifies this
      ensures Valid() && fight.hasPlayer == old(fight.hasPlayer)
      ensures fight.state == NextBossState(old(fight.state))
      ensures raised <==> old(fight.state) in {BossAppear, SendPlayer} && !old(fight.hasPlayer)
      ensures raised ==>
                fight == old(fight).(state := NextBossState(old(fight.state)),
                                     currentTurn := if old(fight.state) == SendPlayer then PlayerSide
                                                    else old(fight.currentTurn))
      ensures old(fight.state) == Intro ==>
                fight == old(fight).(state := BossAppear, message := "A legendary Pokemon appears!")
      ensures old(fight.state) == BossAppear && !raised ==>
                fight == old(fight).(state := SendPlayer, message := "Go, " + PlayerName() + "!")
      ensures old(fight.state) == SendPlayer && !raised ==>
                fight == old(fight).(state := PlayerTurn, currentTurn := PlayerSide,
                                     message := "What will " + PlayerName() + " do?")
      ensures old(fight.state) !in {Intro, BossAppear, SendPlayer} ==> fight == old(fight)
    {
      raised := false;
      if fight.state == Intro {
        fight := fight.(state := BossAppear, message := "A legendary Pokemon appears!");
      } else if fight.state == BossAppear {
        fight := fight.(state := SendPlayer);
        if !fight.hasPlayer {
          return true;
        }
        fight := fight.(message := "Go, " + bag.monsters[0].name + "!");
      } else if fight.state == SendPlayer {
        fight := fight.(state := PlayerTurn, currentTurn := PlayerSide);
        if !fight.hasPlayer {
          return true;
        }
        fight := fight.(message := "What will " + bag.monsters[0].name + " do?");
      }
    }

    /** enter: every battle field is reset, the boss is created and the intro starts. */
    method Enter()
      modifies this, bag
      ensures Valid()
      ensures fight == FreshFight(old(fight.bossDefeated)).(state := BossAppear, boss := Some(NewBoss()),
                                                             hasPlayer := fight.hasPlayer,
                                                             message := "A legendary Pokemon appears!")
      ensures fight.hasPlayer <==> |old(bag.monsters)| > 0
      ensures |old(bag.monsters)| > 0 ==>
                bag.monsters == old(bag.monsters)[0 := WithBattleDefaults(old(bag.monsters)[0])]
      ensures |old(bag.monsters)| == 0 ==> bag.monsters == old(bag.monsters)
      ensures bag.items == old(bag.items) && bag.money == old(bag.money)
    {
      fight := FreshFight(fight.bossDefeated);
      InitBoss();
      var raised := NextState();
    }

    /** _on_fight_click */
    method OnFightClick()
      modifies this
      ensures fight == old(fight).(state := ChooseMove, message := "Choose a move:")
    {
      fight := fight.(state := ChooseMove, message := "Choose a move:");
    }

    /** _on_item_click: the item panel opens only when the bag holds a usable potion. */
    method OnItemClick()
      modifies this
      ensures |bag.items| == 0 ==> fight == old(fight).(message := "No items available!")
      ensures |bag.items| > 0 && BattlePotions(bag.items) == [] ==>
                fight == old(fight).(message := "No usable potions in battle!")
      ensures BattlePotions(bag.items) != [] ==>
                fight == old(fight).(state := ChooseItem, potionChoices := BattlePotions(bag.items),
                                     message := "Choose a potion:")
    {
      if |bag.items| == 0 {
        fight := fight.(message := "No items available!");
        return;
      }
      var potions := BattlePotions(bag.items);
      if potions == [] {
        fight := fight.(message := "No usable potions in battle!");
        return;
      }
      fight := fight.(state := ChooseItem, potionChoices := potions, message := "Choose a potion:");
    }

    /** Whether a monster other than the first one has hp left (the list the source builds
        of them is non-empty). */
    method FindHealthyReserve() returns (found: bool)
      ensures found == HasHealthyReserve(bag.monsters)
    {
      var i := 1;
      while i < |bag.monsters| && bag.monsters[i].hp <= 0
        invariant 1 <= i <= Max(1, |bag.monsters|)
        invariant forall k :: 0 < k < i && k < |bag.monsters| ==> bag.monsters[k].hp <= 0
      {
        i := i + 1;
      }
      found := i < |bag.monsters|;
    }

    /** _on_switch_click: the switch panel opens only when another monster can fight. */
    method OnSwitchClick()
      modifies this
      ensures |bag.monsters| <= 1 ==> fight == old(fight).(message := "No other Pokemon to switch to!")
      ensures |bag.monsters| > 1 && !HasHealthyReserve(bag.monsters) ==>
                fight == old(fight).(message := "No healthy Pokemon to switch to!")
      ensures |bag.monsters| > 1 && HasHealthyReserve(bag.monsters) ==>
                fight == old(fight).(state := ChooseSwitch, message := "Choose a Pokemon to switch:")
    {
      if |bag.monsters| <= 1 {
        fight := fight.(message := "No other Pokemon to switch to!");
        return;
      }
      var found := FindHealthyReserve();
      if !found {
        fight := fight.(message := "No healthy Pokemon to switch to!");
        return;
      }
      fight := fight.(state := ChooseSwitch, message := "Choose a Pokemon to switch:");
    }

    /** _on_run_click: there is no escape from this battle. */
    method OnRunClick()
      modifies this
      ensures fight == old(fight).(message := "You cannot run from a legendary battle!")
    {
      fight := fight.(message := "You cannot run from a legendary battle!");
    }

    /** _check_battle_end */
    method CheckBattleEnd() returns (ended: bool)
      requires Valid()
      modifies this
      ensures Valid()
      ensures var v := EndVerdict(old(fight.boss), old(fight.hasPlayer), bag.monsters);
              && ended == (v != Continue)
              && fight == old(fight).(state := StateAfterVerdict(v, old(fight.state)),
                                      message := MessageAfterVerdict(v, if fight.hasPlayer then PlayerName() else "",
                                                                     old(fight.message)),
                                      bossDefeated := old(fight.bossDefeated) || v == BossFainted)
    {
      if fight.boss.Some? && fight.boss.value.hp <= 0 {
        fight := fight.(state := BattleEnd, message := VictoryMessage, bossDefeated := true);
        return true;
      }
      if fight.hasPlayer && bag.monsters[0].hp <= 0 {
        var found := FindHealthyReserve();
        if found {
          fight := fight.(state := ChooseSwitch, message := bag.monsters[0].name + " fainted! Choose another Pokemon!");
        } else {
          fight := fight.(state := BattleEnd, message := DefeatMessage);
        }
        return true;
      }
      return false;
    }

    /** _on_move_select and _execute_player_attack: the boss takes `damage` (the boosted
        damage of the chosen move), and the battle-end check runs; the state then shows the damage. */
    method OnMoveSelect(move: string, damage: int, effectivenessMsg: string) returns (raised: bool)
      requires Valid()
      requires damage >= 0
      modifies this
      ensures Valid() && fight.hasPlayer == old(fight.hasPlayer)
      ensures old(fight.currentTurn) != PlayerSide ==> fight == old(fight)
      ensures raised <==> old(fight.currentTurn) == PlayerSide && !old(fight.hasPlayer)
      ensures raised ==> fight == old(fight).(playerSelectedMove := Some(move))
      ensures !raised && old(fight.currentTurn) == PlayerSide && (move == "" || old(fight.boss).None?) ==>
                fight == old(fight).(playerSelectedMove := Some(move), state := PlayerTurn,
                                     message := PlayerName() + " used " + move + "!")
      ensures !raised && old(fight.currentTurn) == PlayerSide && move != "" && old(fight.boss).Some? ==>
                var hit := old(fight.boss).value.(hp := HpAfterHit(old(fight.boss).value.hp, damage));
                var v := EndVerdict(Some(hit), true, bag.monsters);
                var shown := DamageMessage(BossName, damage, effectivenessMsg);
                fight == old(fight).(playerSelectedMove := Some(move), boss := Some(hit),
                                     effectivenessMessage := effectivenessMsg,
                                     state := ShowDamage,
                                     message := MessageAfterVerdict(v, PlayerName(), shown),
                                     bossDefeated := old(fight.bossDefeated) || v == BossFainted)
    {
      raised := false;
      if fight.currentTurn == PlayerSide {
        fight := fight.(playerSelectedMove := Some(move));
        if !fight.hasPlayer {
          return true;
        }
        fight := fight.(message := bag.monsters[0].name + " used " + move + "!", state := PlayerTurn);
        if move == "" || fight.boss.None? {
          return;
        }
        var boss := fight.boss.value;
        fight := fight.(boss := Some(boss.(hp := HpAfterHit(boss.hp, damage))),
                        effectivenessMessage := effectivenessMsg,
                        message := DamageMessage(BossName, damage, effectivenessMsg));
        var ended := CheckBattleEnd();
        fight := fight.(state := ShowDamage);
      }
    }

    /** _execute_boss_attack: with a roll below 0.7 the boss uses its first move, otherwise
        the move `choice` picks. */
    method ExecuteBossAttack(roll: real, choice: nat)
      requires Valid()
      requires 0.0 <= roll < 1.0
      requires fight.boss.Some? ==> choice < |fight.boss.value.moves.value|
      modifies this
      ensures Valid()
      ensures old(fight.boss).None? || !fight.hasPlayer ==> fight == old(fight)
      ensures old(fight.boss).Some? && fight.hasPlayer ==>
                var moves := old(fight.boss).value.moves.value;
                var chosen := if roll < 0.7 then moves[0] else moves[choice];
                fight == old(fight).(bossSelectedMove := Some(chosen), turnMessage := "",
                                     message := BossName + " used " + chosen + "!")
      ensures old(fight.boss).Some? && fight.hasPlayer ==>
                fight.bossSelectedMove.Some? && fight.bossSelectedMove.value in old(fight.boss).value.moves.value
    {
      if fight.boss.None? || !fight.hasPlayer {
        return;
      }
      var moves := fight.boss.value.moves.value;
      var chosen := if roll < 0.7 then moves[0] else moves[choice];
      fight := fight.(bossSelectedMove := Some(chosen), message := BossName + " used " + chosen + "!",
                      turnMessage := "");
    }

    /** _apply_boss_damage: the player's monster takes `damage` (the boss's boosted damage),
        the battle-end check runs, and the boss's move is cleared. */
    method ApplyBossDamage(damage: int, effectivenessMsg: string)
      requires Valid()
      requires damage >= 0
      modifies this, bag
      ensures Valid() && fight.hasPlayer == old(fight.hasPlayer)
      ensures bag.items == old(bag.items) && bag.money == old(bag.money)
      ensures old(fight.boss).None? || !fight.hasPlayer || old(fight.bossSelectedMove) in {None, Some("")} ==>
                fight == old(fight) && bag.monsters == old(bag.monsters)
      ensures old(fight.boss).Some? && fight.hasPlayer && old(fight.bossSelectedMove) !in {None, Some("")} ==>
                var before := old(bag.monsters)[0];
                var hit := before.(hp := HpAfterHit(before.hp, damage));
                var v := EndVerdict(old(fight.boss), true, bag.monsters);
                var shown := DamageMessage(before.name, damage, effectivenessMsg);
                && bag.monsters == old(bag.monsters)[0 := hit]
                && fight == old(fight).(effectivenessMessage := effectivenessMsg,
                                        state := ShowDamage, bossSelectedMove := None,
                                        message := MessageAfterVerdict(v, before.name, shown),
                                        bossDefeated := old(fight.bossDefeated) || v == BossFainted)
    {
      if fight.boss.None? || !fight.hasPlayer || fight.bossSelectedMove == None || fight.bossSelectedMove == Some("") {
        return;
      }
      var before := bag.monsters[0];
      bag.monsters := bag.monsters[0 := before.(hp := HpAfterHit(before.hp, damage))];
      fight := fight.(effectivenessMessage := effectivenessMsg,
                      message := DamageMessage(before.name, damage, effectivenessMsg));
      var ended := CheckBattleEnd();
      fight := fight.(state := ShowDamage, bossSelectedMove := None);
    }

    /** _execute_switch: the chosen monster gets its battle defaults and trades places with
        the first one; then the boss moves. An index past the roster does nothing. */
    method ExecuteSwitch(i: nat)
      requires Valid()
      modifies this, bag
      ensures Valid()
      ensures bag.items == old(bag.items) && bag.money == old(bag.money)
      ensures i >= |old(bag.monsters)| ==> fight == old(fight) && bag.monsters == old(bag.monsters)
      ensures i < |old(bag.monsters)| ==>
                var filled := old(bag.monsters)[i := WithBattleDefaults(old(bag.monsters)[i])];
                && bag.monsters == filled[0 := filled[i]][i := filled[0]]
                && fight == old(fight).(hasPlayer := true, message := "Go, " + filled[i].name + "!",
                                        state := ShowDamage, currentTurn := BossSide)
    {
      if i >= |bag.monsters| {
        return;
      }
      bag.monsters := bag.monsters[i := WithBattleDefaults(bag.monsters[i])];
      var first := bag.monsters[0];
      var chosen := bag.monsters[i];
      bag.monsters := bag.monsters[0 := chosen][i := first];
      fight := fight.(hasPlayer := true, message := "Go, " + bag.monsters[0].name + "!",
                      state := ShowDamage, currentTurn := BossSide);
    }

    /** _execute_item_attack on the bag item at idx (the record the item panel returned). */
    method ExecuteItemAttack(idx: nat)
      requires Valid()
      requires idx < |bag.items|
      modifies this, bag
      ensures Valid() && fight.hasPlayer == old(fight.hasPlayer)
      ensures bag.money == old(bag.money)
      ensures !fight.hasPlayer ==> fight == old(fight) && bag.items == old(bag.items) && bag.monsters == old(bag.monsters)
      ensures fight.hasPlayer ==>
                var item := old(bag.items)[idx];
                var before := old(bag.monsters)[0];
                var effect := ItemEffectOf(item.name);
                && bag.items == ItemsAfterUse(old(bag.items), idx)
                && bag.monsters == (if effect == HealEffect
                                    then old(bag.monsters)[0 := before.(hp := HealedHp(before.hp, before.maxHp))]
                                    else old(bag.monsters))
                && fight == old(fight).(state := ShowDamage,
                                        attackBoost := if effect == StrengthEffect then 1.5 else old(fight.attackBoost),
                                        defenseBoost := if effect == DefenseEffect then 0.7 else old(fight.defenseBoost),
                                        message := ItemMessage(effect, before.name, item.name,
                                                               HealedHp(before.hp, before.maxHp) - before.hp))
    {
      if !fight.hasPlayer {
        return;
      }
      var item := bag.items[idx];
      var before := bag.monsters[0];
      var effect := ItemEffectOf(item.name);
      var healed := HealedHp(before.hp, before.maxHp);
      if effect == HealEffect {
        bag.monsters := bag.monsters[0 := before.(hp := healed)];
      } else if effect == StrengthEffect {
        fight := fight.(attackBoost := 1.5);
      } else if effect == DefenseEffect {
        fight := fight.(defenseBoost := 0.7);
      }
      // item['count'] = max(0, item['count'] - 1), then bag.items.remove(item) at 0
      bag.items := ItemsAfterUse(bag.items, idx);
      fight := fight.(message := ItemMessage(effect, before.name, item.name, healed - before.hp),
                      state := ShowDamage);
    }

    /** The SPACE key while the damage is shown: unless the battle has ended, the turn passes
        to the other side. */
    method ShowDamageAdvance() returns (raised: bool)
      requires Valid()
      requires fight.state == ShowDamage
      modifies this
      ensures Valid() && fight.hasPlayer == old(fight.hasPlayer)
      ensures var v := EndVerdict(old(fight.boss), old(fight.hasPlayer), bag.monsters);
              && (raised <==> v == Continue && old(fight.currentTurn) == BossSide && !old(fight.hasPlayer))
              && (v != Continue ==>
                   fight == old(fight).(state := StateAfterVerdict(v, ShowDamage),
                                        message := MessageAfterVerdict(v, if fight.hasPlayer then PlayerName() else "",
                                                                       old(fight.message)),
                                        bossDefeated := old(fight.bossDefeated) || v == BossFainted))
              && (v == Continue && old(fight.currentTurn) == PlayerSide ==>
                   fight == old(fight).(state := BossTurn, currentTurn := BossSide))
              && (v == Continue && old(fight.currentTurn) == BossSide && raised ==>
                   fight == old(fight).(state := PlayerTurn, currentTurn := PlayerSide))
              && (v == Continue && old(fight.currentTurn) == BossSide && !raised ==>
                   fight == old(fight).(state := PlayerTurn, currentTurn := PlayerSide,
                                        message := "What will " + PlayerName() + " do?",
                                        turnMessage := ""))
    {
      raised := false;
      var ended := CheckBattleEnd();
      if !ended {
        if fight.currentTurn == PlayerSide {
          fight := fight.(state := BossTurn, currentTurn := BossSide);
        } else {
          fight := fight.(state := PlayerTurn, currentTurn := PlayerSide);
          if !fight.hasPlayer {
            return true;
          }
          fight := fight.(message := "What will " + bag.monsters[0].name + " do?", turnMessage := "");
        }
      }
    }

    /** The ESC key while the item or switch panel is open: back to the player's turn. Without
        a player's monster the source raises a TypeError (`raised`) after the state change. */
    method CloseChoice() returns (raised: bool)
      requires Valid()
      requires fight.state == ChooseItem || fight.state == ChooseSwitch
      modifies this
      ensures Valid() && fight.hasPlayer == old(fight.hasPlayer)
      ensures raised <==> !old(fight.hasPlayer)
      ensures raised ==> fight == old(fight).(state := PlayerTurn)
      ensures !raised ==> fight == old(fight).(state := PlayerTurn, message := "What will " + PlayerName() + " do?")
    {
      fight := fight.(state := PlayerTurn);
      if !fight.hasPlayer {
        return true;
      }
      fight := fight.(message := "What will " + bag.monsters[0].name + " do?");
      raised := false;
    }
  }

  /** A switch trades the first monster with the chosen one: the roster keeps the same
      monsters, and the chosen one now leads. */
  lemma SwapKeepsRoster(ms: seq<Monster>, i: nat)
    requires i < |ms|
    ensures multiset(ms[0 := ms[i]][i := ms[0]]) == multiset(ms)
    ensures ms[0 := ms[i]][i := ms[0]][0] == ms[i]
    ensures |ms[0 := ms[i]][i := ms[0]]| == |ms|
  {
    if i != 0 {
      var t := ms[0 := ms[i]];
      assert multiset(t) == multiset(ms) - multiset{ms[0]} + multiset{ms[i]};
      assert multiset(t[i := ms[0]]) == multiset(t) - multiset{t[i]} + multiset{ms[0]};
    }
  }
}
