// The trainer battle of src/scenes/battle_scene.py: an introduction that steps
// from the challenge to the main menu, one state per SPACE press. The opponent is
// a fixed Leogreen and the player's monster is the first monster of the bag.
// Drawing, the stat panels and the scale animation are not modelled.
module TrainerBattle {
  import opened Util
  import opened Definition
  import opened BagData

  /** BattleState */
  datatype BattleState = Intro | Challenger | SendOpponent | SendPlayer | MainMenu

  /** The position of a state in the introduction, from 0 (INTRO) to 4 (MAIN). */
  function Rank(s: BattleState): nat
  {
    match s
    case Intro => 0
    case Challenger => 1
    case SendOpponent => 2
    case SendPlayer => 3
    case MainMenu => 4
  }

  /** The state _next_state moves to. */
  function NextBattleState(s: BattleState): BattleState
  {
    match s
    case Intro => Challenger
    case Challenger => SendOpponent
    case SendOpponent => SendPlayer
    case SendPlayer => MainMenu
    case MainMenu => MainMenu
  }

  /** Each step moves one place further until MAIN, which it never leaves; four steps
      take the introduction to MAIN, and no step returns to INTRO. */
  lemma NextStateAdvancesOnePlace(s: BattleState)
    ensures Rank(NextBattleState(s)) == if Rank(s) < 4 then Rank(s) + 1 else 4
    ensures NextBattleState(s) == s <==> s == MainMenu
    ensures NextBattleState(s) != Intro
    ensures NextBattleState(NextBattleState(NextBattleState(NextBattleState(Intro)))) == MainMenu
  {
  }

  /** The message _next_state shows after leaving `s`, or None where the source raises a
      TypeError because the monster it names is None; MAIN keeps the message `current`. */
  function StepMessage(s: BattleState, opponentName: string, opponent: Option<Monster>,
                       player: Option<Monster>, current: string): (r: Option<string>)
    ensures r.None? <==> (s == Challenger && opponent.None?)
                         || (s in {SendOpponent, SendPlayer} && player.None?)
    ensures s == Intro ==> r == Some(opponentName + " challenged you to a battle!")
    ensures s == MainMenu ==> r == Some(current)
  {
    match s
    case Intro => Some(opponentName + " challenged you to a battle!")
    case Challenger =>
      if opponent.None? then None else Some(opponentName + " sent out " + opponent.value.name + "!")
    case SendOpponent =>
      if player.None? then None else Some("Go, " + player.value.name + "!")
    case SendPlayer =>
      if player.None? then None else Some("What will " + player.value.name + " do?")
    case MainMenu => Some(current)
  }

  /** The opponent _init_pokemon creates. */
  const Leogreen: Monster :=
    Monster("Leogreen", 45, 45, 10, None, None, "menu_sprites/menusprite2.png", None, None, None)

  class BattleScene {
    /** game_manager.bag */
    const bag: Bag
    const opponentName: string
    var state: BattleState
    /** opponent_pokemon and player_pokemon; None until _init_pokemon sets them. */
    var opponent: Option<Monster>
    var player: Option<Monster>
    var message: string

    /** BattleScene(game_manager, opponent_name="Rival") */
    constructor(bag: Bag, opponentName: string := "Rival")
      ensures this.bag == bag && this.opponentName == opponentName
      ensures state == Intro && opponent == None && player == None && message == ""
    {
      this.bag := bag;
      this.opponentName := opponentName;
      state := Intro;
      opponent := None;
      player := None;
      message := "";
    }

    /** _init_pokemon: the opponent is a fresh full-health level-10 Leogreen; the player's
        monster is the bag's first one, or stays what it was when the bag has none. */
    method InitPokemon()
      modifies this
      ensures opponent == Some(Leogreen)
      ensures opponent.value.name == "Leogreen" && opponent.value.hp == opponent.value.maxHp == 45
      ensures opponent.value.level == 10
      ensures |bag.monsters| > 0 ==> player == Some(bag.monsters[0])
      ensures |bag.monsters| == 0 ==> player == old(player)
      ensures state == old(state) && message == old(message)
    {
      opponent := Some(Leogreen);
      if |bag.monsters| > 0 {
        player := Some(bag.monsters[0]);
      }
    }

    /** _next_state: one step of the introduction with its message; in MAIN nothing
        changes. Naming a monster that is not there raises a TypeError in the source
        (`raised`) after the state has moved on, leaving the old message. */
    method NextState() returns (raised: bool)
      modifies this
      ensures state == NextBattleState(old(state))
      ensures opponent == old(opponent) && player == old(player)
      ensures raised <==> StepMessage(old(state), opponentName, old(opponent), old(player), old(message)).None?
      ensures raised ==> message == old(message)
      ensures !raised ==> Some(message) == StepMessage(old(state), opponentName, old(opponent), old(player), old(message))
    {
      var next := StepMessage(state, opponentName, opponent, player, message);
      state := NextBattleState(state);
      raised := next.None?;
      if !raised {
        message := next.value;
      }
    }

    /** enter: the monsters are set up and the state moves exactly one step from where it
        was; it is not reset, so entering again after a finished battle stays in MAIN. */
    method Enter() returns (raised: bool)
      modifies this
      ensures state == NextBattleState(old(state))
      ensures old(state) != MainMenu ==> Rank(state) == Rank(old(state)) + 1
      ensures opponent == Some(Leogreen)
      ensures player == if |bag.monsters| > 0 then Some(bag.monsters[0]) else old(player)
      ensures raised <==> StepMessage(old(state), opponentName, opponent, player, old(message)).None?
      ensures raised ==> message == old(message)
      ensures !raised ==> Some(message) == StepMessage(old(state), opponentName, opponent, player, old(message))
    {
      InitPokemon();
      raised := NextState();
    }

    /** The SPACE key in update: the introduction steps on, MAIN asks to go back to the
        "game" scene (the result), and INTRO ignores the key. */
    method OnSpace() returns (toGame: bool, raised: bool)
      modifies this
      ensures toGame <==> old(state) == MainMenu
      ensures old(state) in {Challenger, SendOpponent, SendPlayer} ==>
                state == NextBattleState(old(state)) && Rank(state) == Rank(old(state)) + 1
      ensures old(state) in {Intro, MainMenu} ==> state == old(state) && message == old(message) && !raised
      ensures opponent == old(opponent) && player == old(player)
      ensures old(state) in {Challenger, SendOpponent, SendPlayer} ==>
                && (raised <==> StepMessage(old(state), opponentName, opponent, player, old(message)).None?)
                && (raised ==> message == old(message))
                && (!raised ==> Some(message) == StepMessage(old(state), opponentName, opponent, player, old(message)))
    {
      toGame, raised := false, false;
      if state == Challenger || state == SendOpponent || state == SendPlayer {
        raised := NextState();
      } else if state == MainMenu {
        toGame := true;
      }
    }
  }
}
