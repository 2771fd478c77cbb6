// The map-switching part of src/core/managers/game_manager.py: which map is
// current, a pending switch requested by a teleporter, the player's last position
// on every map, and the two cooldowns that stop an immediate re-teleport or
// re-encounter. A map is reduced to its spawn position and the player to its
// position; trainers, NPCs, collision tests and saving are not modelled.
module GameManagerModel {
  import opened Util
  import opened Definition
  import opened BagData

  /** TELEPORT_WAIT and BUSH_WAIT, in seconds. */
  const TeleportWait: real := 2.0
  const BushWait: real := 1.0

  /** A cooldown after update: a running one drops by dt and stops at 0. */
  function Cooldown(cd: real, dt: real): (r: real)
    ensures cd >= 0.0 ==> r >= 0.0
    ensures cd > 0.0 && dt >= cd ==> r == 0.0
    ensures dt >= 0.0 ==> r <= cd
    ensures cd <= 0.0 ==> r == cd
  {
    if cd > 0.0 then (if cd - dt > 0.0 then cd - dt else 0.0) else cd
  }

  /** A cooldown that is running ends after at most as many frames as its length
      allows: every frame of at least one unit of time takes it down by that unit
      until it stops at 0. */
  lemma {:induction false} CooldownRunsOut(cd: real, dts: seq<real>)
    requires cd >= 0.0
    requires forall k :: 0 <= k < |dts| ==> dts[k] >= 1.0
    requires cd <= |dts| as real
    ensures Cooldowns(cd, dts) == 0.0
    decreases |dts|
  {
    if |dts| > 0 && cd > 0.0 {
      CooldownRunsOut(Cooldown(cd, dts[0]), dts[1..]);
    } else if |dts| > 0 {
      ZeroStaysZero(dts[1..]);
    }
  }

  /** The cooldown after a run of frames. */
  function Cooldowns(cd: real, dts: seq<real>): real
    decreases |dts|
  {
    if |dts| == 0 then cd else Cooldowns(Cooldown(cd, dts[0]), dts[1..])
  }

  lemma {:induction false} ZeroStaysZero(dts: seq<real>)
    ensures Cooldowns(0.0, dts) == 0.0
    decreases |dts|
  {
    if |dts| > 0 {
      ZeroStaysZero(dts[1..]);
    }
  }

  /** The constructor's loop over maps.items(): a copy of every map's spawn. */
  method InitialSpawns(mapSpawns: map<string, Position>) returns (spawns: map<string, Position>)
    ensures spawns.Keys == mapSpawns.Keys
    ensures forall key :: key in spawns ==> spawns[key] == mapSpawns[key]
  {
    spawns := map[];
    var remaining := mapSpawns.Keys;
    while remaining != {}
      invariant remaining <= mapSpawns.Keys
      invariant spawns.Keys == mapSpawns.Keys - remaining
      invariant forall key :: key in spawns ==> spawns[key] == mapSpawns[key]
      decreases |remaining|
    {
      var key :| key in remaining;
      spawns := spawns[key := mapSpawns[key].Copy()];
      remaining := remaining - {key};
    }
  }

  class GameManager {
    /** maps, reduced to each map's spawn position. */
    const mapSpawns: map<string, Position>
    const bag: Bag
    var currentMapKey: string
    /** The player's position; None when there is no player. */
    var player: Option<Position>
    /** player_spawns: the last position of the player on each map. */
    var playerSpawns: map<string, Position>
    var shouldChangeScene: bool
    var nextMap: string
    var teleportCooldown: real
    var bushCooldown: real

    /** The manager's invariant: a pending switch names a loaded map (and no switch is
        pending when next_map is cleared), every map has a stored spawn, and both
        cooldowns are non-negative. */
    predicate Valid()
      reads this
    {
      && (shouldChangeScene ==> nextMap in mapSpawns)
      && (!shouldChangeScene ==> nextMap == "")
      && mapSpawns.Keys <= playerSpawns.Keys
      && teleportCooldown >= 0.0 && bushCooldown >= 0.0
    }

    /** GameManager(maps, start_map, player, enemy_trainers, npcs=None, bag=None): every
        map's spawn is copied, and the start map's entry is the player's position when
        there is a player; a missing bag is a new empty one. */
    constructor(mapSpawns: map<string, Position>, startMap: string, player: Option<Position>,
                bag: Option<Bag>)
      ensures Valid()
      ensures this.mapSpawns == mapSpawns && currentMapKey == startMap && this.player == player
      ensures playerSpawns.Keys == mapSpawns.Keys + (if player.Some? then {startMap} else {})
      ensures player.Some? ==> playerSpawns[startMap] == player.value
      ensures forall key :: key in mapSpawns && (player.None? || key != startMap) ==>
                playerSpawns[key] == mapSpawns[key]
      ensures bag.Some? ==> this.bag == bag.value
      ensures bag.None? ==> fresh(this.bag) && this.bag.Contents() == BagContents([], [], 1000)
      ensures !shouldChangeScene && nextMap == ""
      ensures teleportCooldown == 0.0 && bushCooldown == 0.0
    {
      this.mapSpawns := mapSpawns;
      currentMapKey := startMap;
      this.player := player;
      if bag.Some? {
        this.bag := bag.value;
      } else {
        this.bag := new Bag(Some([]), Some([]), 1000);
      }
      var spawns := InitialSpawns(mapSpawns);
      if player.Some? {
        spawns := spawns[startMap := player.value.Copy()];
      }
      playerSpawns := spawns;
      shouldChangeScene := false;
      nextMap := "";
      teleportCooldown := 0.0;
      bushCooldown := 0.0;
    }

    /** update: both cooldowns run down by dt and stop at 0. */
    method Update(dt: real)
      requires Valid()
      modifies this
      ensures Valid()
      ensures teleportCooldown == Cooldown(old(teleportCooldown), dt)
      ensures bushCooldown == Cooldown(old(bushCooldown), dt)
      ensures currentMapKey == old(currentMapKey) && player == old(player)
      ensures playerSpawns == old(playerSpawns)
      ensures shouldChangeScene == old(shouldChangeScene) && nextMap == old(nextMap)
    {
      if teleportCooldown > 0.0 {
        teleportCooldown := if 0.0 >= teleportCooldown - dt then 0.0 else teleportCooldown - dt;
      }
      if bushCooldown > 0.0 {
        bushCooldown := if 0.0 >= bushCooldown - dt then 0.0 else bushCooldown - dt;
      }
    }

    /** switch_map: a map that is not loaded is refused and nothing changes; otherwise
        the switch is requested for the next try_switch_map. */
    method SwitchMap(target: string)
      requires Valid()
      modifies this
      ensures Valid()
      ensures target !in mapSpawns ==>
                shouldChangeScene == old(shouldChangeScene) && nextMap == old(nextMap)
      ensures target in mapSpawns ==> shouldChangeScene && nextMap == target
      ensures currentMapKey == old(currentMapKey) && player == old(player)
      ensures playerSpawns == old(playerSpawns)
      ensures teleportCooldown == old(teleportCooldown) && bushCooldown == old(bushCooldown)
    {
      if target !in mapSpawns {
        return;
      }
      nextMap := target;
      shouldChangeScene := true;
    }

    /** try_switch_map: with no switch pending nothing changes. Otherwise the player's
        position is stored for the map it leaves, the pending map becomes current and
        the request is cleared; the player is placed at its stored position there and
        the teleport cooldown starts. */
    method TrySwitchMap()
      requires Valid()
      modifies this
      ensures Valid()
      ensures !old(shouldChangeScene) ==>
                && currentMapKey == old(currentMapKey) && player == old(player)
                && playerSpawns == old(playerSpawns) && nextMap == old(nextMap)
                && !shouldChangeScene && teleportCooldown == old(teleportCooldown)
      ensures old(shouldChangeScene) ==>
                && currentMapKey == old(nextMap) && currentMapKey in mapSpawns
                && nextMap == "" && !shouldChangeScene
                && playerSpawns == (if old(player).Some?
                                    then old(playerSpawns)[old(currentMapKey) := old(player).value]
                                    else old(playerSpawns))
                && (old(player).Some? ==> player == Some(playerSpawns[currentMapKey]) &&
                                          teleportCooldown == TeleportWait)
                && (old(player).None? ==> player == None && teleportCooldown == old(teleportCooldown))
      ensures bushCooldown == old(bushCooldown)
    {
      if shouldChangeScene {
        if player.Some? {
          playerSpawns := playerSpawns[currentMapKey := player.value.Copy()];
        }
        currentMapKey := nextMap;
        nextMap := "";
        shouldChangeScene := false;
        if player.Some? {
          var fallback := mapSpawns[currentMapKey].Copy();
          player := Some(if currentMapKey in playerSpawns then playerSpawns[currentMapKey] else fallback);
          teleportCooldown := TeleportWait;
        }
      }
    }
  }

  /** A teleport round trip: requesting a switch to a loaded map and then performing it
      leaves the player, if any, at the position stored for that map, and returning to
      the first map puts the player back where it left. */
  method SwitchThereAndBack(gm: GameManager, target: string)
    requires gm.Valid() && !gm.shouldChangeScene && gm.player.Some?
    requires target in gm.mapSpawns && gm.currentMapKey in gm.mapSpawns
    modifies gm
    ensures gm.Valid() && gm.currentMapKey == old(gm.currentMapKey)
    ensures gm.player == old(gm.player)
  {
    var home := gm.currentMapKey;
    gm.SwitchMap(target);
    gm.TrySwitchMap();
    gm.SwitchMap(home);
    gm.TrySwitchMap();
  }
}
