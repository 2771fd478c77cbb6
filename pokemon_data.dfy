// The creature database of src/utils/pokemon_data.py: the two tables of the
// type chart, the move and species catalogues, type effectiveness and the
// clamped damage formula. Element types are the strings the source uses
// ("Fire", ..., "None"); the random variance is a parameter.
module PokemonData {
  import opened Util

  /** The six element types of the chart. */
  const Types: set<string> := {"Fire", "Water", "Ice", "Wind", "Light", "Slash"}

  /** WEAK_TO: the type that resists each attacking type. */
  const WeakTo: map<string, string> := map[
    "Fire" := "Water",
    "Water" := "Light",
    "Ice" := "Fire",
    "Wind" := "Ice",
    "Light" := "Wind",
    "Slash" := "Light"
  ]

  /** STRONG_AGAINST: the type each attacking type beats. */
  const StrongAgainst: map<string, string> := map[
    "Fire" := "Ice",
    "Water" := "Fire",
    "Ice" := "Wind",
    "Wind" := "Light",
    "Light" := "Slash",
    "Slash" := "Water"
  ]

  datatype Move = Move(name: string, moveType: string, power: int, animation: Option<string>)

  const MovesDatabase: map<string, Move> := map[
    "IceShard" := Move("Ice Shard", "Ice", 18, Some("attack/attack1.png")),
    "LightPulse" := Move("Light Pulse", "Light", 18, Some("attack/attack2.png")),
    "WaterBurst" := Move("Water Burst", "Water", 18, Some("attack/attack3.png")),
    "FireBlast" := Move("Fire Blast", "Fire", 20, Some("attack/attack4.png")),
    "FlameSlash" := Move("Flame Slash", "Fire", 18, Some("attack/attack5.png")),
    "WindSpiral" := Move("Wind Spiral", "Wind", 18, Some("attack/attack6.png")),
    "QuickSlash" := Move("Quick Slash", "Slash", 15, Some("attack/attack7.png")),
    "NatureBurst" := Move("Nature Burst", "None", 16, None),
    "AquaShield" := Move("Aqua Shield", "Water", 12, Some("attack/attack3.png")),
    "TidalStrike" := Move("Tidal Strike", "Water", 22, Some("attack/attack3.png")),
    "HeatDive" := Move("Heat Dive", "Fire", 20, Some("attack/attack4.png")),
    "StonePunch" := Move("Stone Punch", "None", 17, None),
    "EarthCrack" := Move("Earth Crack", "None", 18, None),
    "SparkClaw" := Move("Spark Claw", "Light", 16, Some("attack/attack2.png")),
    "VoltDash" := Move("Volt Dash", "Light", 19, Some("attack/attack2.png")),
    "FrostNova" := Move("Frost Nova", "Ice", 17, Some("attack/attack1.png")),
    "ColdBite" := Move("Cold Bite", "Ice", 16, Some("attack/attack1.png")),
    "DarkSwipe" := Move("Dark Swipe", "None", 15, Some("attack/attack7.png")),
    "ShadowBurst" := Move("Shadow Burst", "None", 18, None),
    "FearSlash" := Move("Fear Slash", "Slash", 16, Some("attack/attack7.png")),
    "IronWing" := Move("Iron Wing", "Slash", 17, Some("attack/attack7.png")),
    "SteelCharge" := Move("Steel Charge", "None", 19, None),
    "MindPierce" := Move("Mind Pierce", "None", 18, None),
    "SpiritWave" := Move("Spirit Wave", "Light", 20, Some("attack/attack2.png")),
    "ToxicBite" := Move("Toxic Bite", "None", 14, None),
    "VenomShot" := Move("Venom Shot", "None", 16, None),
    "SandBurst" := Move("Sand Burst", "Wind", 17, Some("attack/attack6.png")),
    "DustBlade" := Move("Dust Blade", "Wind", 16, Some("attack/attack6.png")),
    "SoulSpark" := Move("Soul Spark", "Light", 19, Some("attack/attack2.png")),
    "HauntFlame" := Move("Haunt Flame", "Fire", 17, Some("attack/attack4.png")),
    "CrystalBeam" := Move("Crystal Beam", "Light", 19, Some("attack/attack2.png")),
    "ShatterStrike" := Move("Shatter Strike", "Ice", 18, Some("attack/attack1.png")),
    "GaleBlade" := Move("Gale Blade", "Wind", 17, Some("attack/attack6.png")),
    "TempestCrash" := Move("Tempest Crash", "Wind", 21, Some("attack/attack6.png")),
    "MagmaSmash" := Move("Magma Smash", "Fire", 21, Some("attack/attack4.png")),
    "CosmicPulse" := Move("Cosmic Pulse", "Light", 23, Some("attack/attack2.png")),
    "StarfallBlaze" := Move("Starfall Blaze", "Fire", 24, Some("attack/attack4.png")),
    "DragonRift" := Move("Dragon Rift", "None", 25, None)
  ]

  datatype Species = Species(speciesType: string, moves: seq<string>)

  const PokemonSpecies: map<string, Species> := map[
    "Leafeon" := Species("Wind", ["QuickSlash", "WindSpiral", "NatureBurst"]),
    "Aquafin" := Species("Water", ["WaterBurst", "AquaShield", "TidalStrike"]),
    "Blazewing" := Species("Fire", ["FireBlast", "FlameSlash", "HeatDive"]),
    "Rockfist" := Species("None", ["StonePunch", "EarthCrack", "QuickSlash"]),
    "Thunderpaw" := Species("Light", ["LightPulse", "SparkClaw", "VoltDash"]),
    "Frostbite" := Species("Ice", ["IceShard", "FrostNova", "ColdBite"]),
    "Shadowclaw" := Species("None", ["DarkSwipe", "ShadowBurst", "FearSlash"]),
    "Steelwing" := Species("Wind", ["WindSpiral", "IronWing", "SteelCharge"]),
    "Mysticsoul" := Species("Light", ["LightPulse", "MindPierce", "SpiritWave"]),
    "Venomfang" := Species("None", ["ToxicBite", "VenomShot", "QuickSlash"]),
    "Sandstorm" := Species("Wind", ["SandBurst", "WindSpiral", "DustBlade"]),
    "Ghostflame" := Species("Fire", ["FireBlast", "SoulSpark", "HauntFlame"]),
    "Crystalhorn" := Species("Ice", ["IceShard", "CrystalBeam", "ShatterStrike"]),
    "Stormchaser" := Species("Wind", ["WindSpiral", "GaleBlade", "TempestCrash"]),
    "Lavaguard" := Species("Fire", ["FireBlast", "FlameSlash", "MagmaSmash"]),
    "Cosmicdrake" := Species("Light", ["CosmicPulse", "StarfallBlaze", "DragonRift"])
  ]

  const SuperEffective: string := "It's super effective!"
  const NotVeryEffective: string := "It's not very effective..."

  /** dict.get(key) == value, where a missing key yields None (never equal to a str). */
  predicate LookupIs(m: map<string, string>, key: string, value: string)
  {
    key in m && m[key] == value
  }

  /** calculate_type_effectiveness: the damage multiplier and its message. */
  function TypeEffectiveness(attackerType: string, defenderType: string): (r: (real, string))
    ensures r == (1.5, SuperEffective) || r == (0.67, NotVeryEffective) || r == (1.0, "")
    ensures r.0 == 1.5 <==>
              attackerType != "None" && defenderType != "None" &&
              LookupIs(StrongAgainst, attackerType, defenderType)
    ensures r.0 == 0.67 <==>
              attackerType != "None" && defenderType != "None" &&
              !LookupIs(StrongAgainst, attackerType, defenderType) &&
              LookupIs(WeakTo, attackerType, defenderType)
  {
    if attackerType == "None" || defenderType == "None" then (1.0, "")
    else if LookupIs(StrongAgainst, attackerType, defenderType) then (1.5, SuperEffective)
    else if LookupIs(WeakTo, attackerType, defenderType) then (0.67, NotVeryEffective)
    else (1.0, "")
  }

  /** The damage before clamping: int((power / 2) * multiplier * variance * (0.5 + level / 20)). */
  function RawDamage(power: int, multiplier: real, variance: real, level: int): int
  {
    TruncReal((power as real / 2.0) * multiplier * variance * (0.5 + level as real / 20.0))
  }

  /**
   * calculate_damage: (damage, effectiveness message, move type). The variance,
   * drawn uniformly from [0.85, 1.0] by the source, is a parameter.
   */
  function CalculateDamage(moveName: string, attackerType: string, defenderType: string,
                           level: int, variance: real): (r: (int, string, string))
    requires 0.85 <= variance <= 1.0
    ensures 3 <= r.0 <= 25
    ensures moveName !in MovesDatabase ==> r == (10, "", "None")
    ensures moveName in MovesDatabase ==>
              r.2 == MovesDatabase[moveName].moveType &&
              r.1 == TypeEffectiveness(MovesDatabase[moveName].moveType, defenderType).1
  {
    if moveName !in MovesDatabase then (10, "", "None")
    else
      var move := MovesDatabase[moveName];
      var (multiplier, message) := TypeEffectiveness(move.moveType, defenderType);
      var damage := RawDamage(move.power, multiplier, variance, level);
      (Max(3, Min(damage, 25)), message, move.moveType)
  }

  /** Following a type table n times from t, stopping at a type the table lacks. */
  function Follow(m: map<string, string>, t: string, n: nat): string
    decreases n
  {
    if n == 0 then t
    else if t in m then Follow(m, m[t], n - 1)
    else t
  }

  /** Applying STRONG_AGAINST n times. */
  function Advance(t: string, n: nat): string
  {
    Follow(StrongAgainst, t, n)
  }

  /** The six types in the order STRONG_AGAINST visits them from Fire. */
  const Cycle: seq<string> := ["Fire", "Ice", "Wind", "Light", "Slash", "Water"]

  lemma CycleIsTypes()
    ensures forall t :: t in Types <==> t in Cycle
    ensures forall i, j :: 0 <= i < 6 && 0 <= j < 6 && i != j ==> Cycle[i] != Cycle[j]
  {
  }

  /** The table sends each entry of the six-entry sequence c to the next one, and the
      last back to the first. */
  predicate IsCycleOf(m: map<string, string>, c: seq<string>)
  {
    && |c| == 6
    && c[0] in m && m[c[0]] == c[1]
    && c[1] in m && m[c[1]] == c[2]
    && c[2] in m && m[c[2]] == c[3]
    && c[3] in m && m[c[3]] == c[4]
    && c[4] in m && m[c[4]] == c[5]
    && c[5] in m && m[c[5]] == c[0]
  }

  lemma CycleStep(m: map<string, string>, c: seq<string>, i: nat)
    requires IsCycleOf(m, c) && i < 6
    ensures c[i] in m && m[c[i]] == c[(i + 1) % 6]
  {
  }

  lemma NextOnCycle(i: nat)
    requires i < 6
    ensures Cycle[i] in StrongAgainst && StrongAgainst[Cycle[i]] == Cycle[(i + 1) % 6]
  {
    if i == 0 { assert StrongAgainst["Fire"] == "Ice"; }
    else if i == 1 { assert StrongAgainst["Ice"] == "Wind"; }
    else if i == 2 { assert StrongAgainst["Wind"] == "Light"; }
    else if i == 3 { assert StrongAgainst["Light"] == "Slash"; }
    else if i == 4 { assert StrongAgainst["Slash"] == "Water"; }
    else { assert StrongAgainst["Water"] == "Fire"; }
  }

  lemma StrongAgainstFollowsCycle()
    ensures IsCycleOf(StrongAgainst, Cycle)
  {
    NextOnCycle(0);
    NextOnCycle(1);
    NextOnCycle(2);
    NextOnCycle(3);
    NextOnCycle(4);
    NextOnCycle(5);
  }

  lemma ModStep(i: nat, k: nat)
    requires i < 6 && k > 0
    ensures ((i + 1) % 6 + (k - 1)) % 6 == (i + k) % 6
  {
    if i == 5 {
      assert (k - 1) + 6 == i + k;
    }
  }

  /** Following the table k times from an entry of its cycle moves k places along it. */
  lemma {:induction false} FollowAlongCycle(m: map<string, string>, c: seq<string>, i: nat, k: nat)
    requires IsCycleOf(m, c) && i < 6
    ensures Follow(m, c[i], k) == c[(i + k) % 6]
    decreases k
  {
    if k > 0 {
      var j := (i + 1) % 6;
      CycleStep(m, c, i);
      assert Follow(m, c[i], k) == Follow(m, c[j], k - 1);
      FollowAlongCycle(m, c, j, k - 1);
      ModStep(i, k);
    }
  }

  /** Following STRONG_AGAINST k times from a type of the cycle moves k places along it. */
  lemma AdvanceAlongCycle(i: nat, k: nat)
    requires i < 6
    ensures Advance(Cycle[i], k) == Cycle[(i + k) % 6]
  {
    StrongAgainstFollowsCycle();
    FollowAlongCycle(StrongAgainst, Cycle, i, k);
  }

  /** On a cycle of six distinct entries, an entry comes back after six steps and not before. */
  lemma CycleReturns(m: map<string, string>, c: seq<string>, i: nat)
    requires IsCycleOf(m, c) && i < 6
    requires forall a, b :: 0 <= a < 6 && 0 <= b < 6 && a != b ==> c[a] != c[b]
    ensures Follow(m, c[i], 6) == c[i]
    ensures forall k :: 0 < k < 6 ==> Follow(m, c[i], k) != c[i]
  {
    FollowAlongCycle(m, c, i, 6);
    forall k | 0 < k < 6 ensures Follow(m, c[i], k) != c[i] {
      FollowAlongCycle(m, c, i, k);
    }
  }

  /** Every type is a key of STRONG_AGAINST ... */
  lemma StrongAgainstKeys()
    ensures StrongAgainst.Keys == Types
  {
  }

  /** Every type is beaten by some type ... */
  lemma EveryTypeIsBeaten()
    ensures forall t :: t in Types ==> t in StrongAgainst.Values
  {
    forall t | t in Types ensures t in StrongAgainst.Values {
      CycleIsTypes();
      var i :| 0 <= i < 6 && Cycle[i] == t;
      NextOnCycle((i + 5) % 6);
    }
  }

  /** ... and only types are. */
  lemma OnlyTypesAreBeaten()
    ensures forall v :: v in StrongAgainst.Values ==> v in Types
  {
  }

  /** STRONG_AGAINST is a permutation of the six types ... */
  lemma StrongAgainstPermutesTypes()
    ensures StrongAgainst.Keys == Types && StrongAgainst.Values == Types
  {
    StrongAgainstKeys();
    EveryTypeIsBeaten();
    OnlyTypesAreBeaten();
  }

  /** From Fire, STRONG_AGAINST visits the types in the order of the cycle. */
  lemma FireVisitsCycle()
    ensures forall k :: 0 <= k < 6 ==> Advance("Fire", k) == Cycle[k]
  {
    forall k | 0 <= k < 6 ensures Advance("Fire", k) == Cycle[k] {
      AdvanceAlongCycle(0, k);
    }
  }

  /** A type comes back to itself after six steps and not before. */
  lemma ReturnsAfterSix(t: string)
    requires t in Types
    ensures Advance(t, 6) == t
    ensures forall k :: 0 < k < 6 ==> Advance(t, k) != t
  {
    CycleIsTypes();
    StrongAgainstFollowsCycle();
    var i :| 0 <= i < 6 && Cycle[i] == t;
    CycleReturns(StrongAgainst, Cycle, i);
  }

  /** ... forming the single cycle Fire -> Ice -> Wind -> Light -> Slash -> Water -> Fire:
      every type comes back to itself after exactly six steps and not before. */
  lemma StrongAgainstIsOneCycle()
    ensures forall k :: 0 <= k < 6 ==> Advance("Fire", k) == Cycle[k]
    ensures forall t :: t in Types ==> Advance(t, 6) == t
    ensures forall t, k :: t in Types && 0 < k < 6 ==> Advance(t, k) != t
  {
    FireVisitsCycle();
    forall t | t in Types ensures Advance(t, 6) == t && forall k :: 0 < k < 6 ==> Advance(t, k) != t {
      ReturnsAfterSix(t);
    }
  }

  /** No type both beats and is resisted by the same type, so the order of the
      two tests in calculate_type_effectiveness never hides a WEAK_TO entry. */
  lemma StrongAndWeakNeverCoincide()
    ensures WeakTo.Keys == Types
    ensures forall a :: a in Types ==> StrongAgainst[a] != WeakTo[a]
  {
  }

  /** Reciprocity holds for five attackers: if a beats d then d is resisted by a ... */
  lemma ReciprocityExceptSlash()
    ensures forall a :: a in Types && a != "Slash" ==> WeakTo[StrongAgainst[a]] == a
    ensures forall a, d ::
              a in Types && d in Types && a != "Slash" && TypeEffectiveness(a, d).0 == 1.5
              ==> TypeEffectiveness(d, a).0 == 0.67
  {
  }

  /** ... but not for Slash: Slash beats Water, yet Water attacking Slash is
      neutral, and Water is instead resisted by Light, which Light does not beat. */
  lemma SlashWaterAsymmetry()
    ensures TypeEffectiveness("Slash", "Water") == (1.5, SuperEffective)
    ensures TypeEffectiveness("Water", "Slash") == (1.0, "")
    ensures TypeEffectiveness("Water", "Light") == (0.67, NotVeryEffective)
    ensures TypeEffectiveness("Light", "Water") == (1.0, "")
  {
  }

  /** A "None" type on either side is always neutral, and an unknown type
      (the boss's "Psychic") attacks neutrally too. */
  lemma NoneAndUnknownAreNeutral(t: string)
    ensures TypeEffectiveness("None", t) == (1.0, "")
    ensures TypeEffectiveness(t, "None") == (1.0, "")
    ensures TypeEffectiveness("Psychic", t) == (1.0, "")
  {
  }

  /** Every move a species lists is a key of MOVES_DATABASE. */
  predicate MovesKnown(sp: Species)
  {
    forall i :: 0 <= i < |sp.moves| ==> sp.moves[i] in MovesDatabase
  }

  lemma MovesKnownGroup1(s: string)
    requires s in PokemonSpecies && (s == "Leafeon" || s == "Aquafin" || s == "Blazewing")
    ensures MovesKnown(PokemonSpecies[s])
  {
  }

  lemma MovesKnownGroup2(s: string)
    requires s in PokemonSpecies && (s == "Rockfist" || s == "Thunderpaw" || s == "Frostbite" || s == "Shadowclaw")
    ensures MovesKnown(PokemonSpecies[s])
  {
  }

  lemma MovesKnownGroup3(s: string)
    requires s in PokemonSpecies && (s == "Steelwing" || s == "Mysticsoul" || s == "Venomfang" || s == "Sandstorm")
    ensures MovesKnown(PokemonSpecies[s])
  {
  }

  lemma MovesKnownGroup4(s: string)
    requires s in PokemonSpecies && (s == "Ghostflame" || s == "Crystalhorn" || s == "Stormchaser" || s == "Lavaguard" || s == "Cosmicdrake")
    ensures MovesKnown(PokemonSpecies[s])
  {
  }

  lemma {:induction false} SpeciesMovesKnown(s: string)
    requires s in PokemonSpecies
    ensures MovesKnown(PokemonSpecies[s])
  {
    if s == "Leafeon" || s == "Aquafin" || s == "Blazewing" {
      MovesKnownGroup1(s);
    } else if s == "Rockfist" || s == "Thunderpaw" || s == "Frostbite" || s == "Shadowclaw" {
      MovesKnownGroup2(s);
    } else if s == "Steelwing" || s == "Mysticsoul" || s == "Venomfang" || s == "Sandstorm" {
      MovesKnownGroup3(s);
    } else {
      MovesKnownGroup4(s);
    }
  }

  /** Every move listed for a species is a key of MOVES_DATABASE. */
  lemma SpeciesMovesAreKnown()
    ensures forall s, i :: s in PokemonSpecies && 0 <= i < |PokemonSpecies[s].moves| ==>
              PokemonSpecies[s].moves[i] in MovesDatabase
  {
    forall s | s in PokemonSpecies ensures MovesKnown(PokemonSpecies[s]) {
      SpeciesMovesKnown(s);
    }
  }

  /** The attacker_type argument never influences calculate_damage. */
  lemma DamageIgnoresAttackerType(moveName: string, a1: string, a2: string,
                                  defenderType: string, level: int, variance: real)
    requires 0.85 <= variance <= 1.0
    ensures CalculateDamage(moveName, a1, defenderType, level, variance)
         == CalculateDamage(moveName, a2, defenderType, level, variance)
  {
  }

  /** Worked values: a super-effective hit, a hit capped at 25, one raised to 3
      and an unknown move. */
  lemma DamageExampleSuperEffective()
    ensures CalculateDamage("FireBlast", "Fire", "Ice", 10, 1.0) == (15, SuperEffective, "Fire")
  {
    assert MovesDatabase["FireBlast"] == Move("Fire Blast", "Fire", 20, Some("attack/attack4.png"));
    assert TypeEffectiveness("Fire", "Ice") == (1.5, SuperEffective);
    assert RawDamage(20, 1.5, 1.0, 10) == 15;
  }

  lemma DamageExampleCapped()
    ensures CalculateDamage("DragonRift", "None", "Fire", 100, 1.0).0 == 25
  {
    assert MovesDatabase["DragonRift"] == Move("Dragon Rift", "None", 25, None);
    assert TypeEffectiveness("None", "Fire") == (1.0, "");
    assert RawDamage(25, 1.0, 1.0, 100) == 68;
  }

  lemma DamageExampleFloor()
    ensures CalculateDamage("AquaShield", "Water", "Light", 0, 0.85) == (3, NotVeryEffective, "Water")
  {
    assert MovesDatabase["AquaShield"] == Move("Aqua Shield", "Water", 12, Some("attack/attack3.png"));
    assert TypeEffectiveness("Water", "Light") == (0.67, NotVeryEffective);
    assert RawDamage(12, 0.67, 0.85, 0) == 1;
  }

  lemma DamageExampleUnknownMove()
    ensures CalculateDamage("Psystrike", "Psychic", "Fire", 50, 0.9) == (10, "", "None")
  {
  }
}
