# Creature-battle game: a Dafny model of its game logic

This project models the game logic of a pygame creature-battle game, and proves properties of it.

- **Type chart and damage formula.** `STRONG_AGAINST`, `WEAK_TO`, the move and species tables, `calculate_type_effectiveness` and `calculate_damage`.
- **The player's bag.** Items are merged by name when added and deleted when their count reaches zero. Money is guarded.
- **Transactions on the bag.** The shop's buy and sell, and opening a treasure chest.
- **Three battle scenes.**
  - The boss fight against Mewtwo.
  - The wild battle with its capture sequence.
  - The trainer battle's introduction.
- **Two selection panels.** One picks a monster to switch in, the other an item to use.
- **Grid search.** The breadth-first search on the tile grid and the path simplifier.
- **The game manager's map switch.** Its switch state machine and its cooldowns.
- **Save-file dictionaries.** Those of teleporters, merchant NPCs and chests.

One Dafny module corresponds to each source file:

| Module | Source file | Flavour |
|---|---|---|
| `PokemonData` | `pokemon_data.py` | pure |
| `BagData` | `bag.py` | imperative |
| `Shop` | `shop_panel.py` | imperative |
| `ChestEntity` | `chest.py` | mixed |
| `BossFight` | `boss_fight_scene.py` | imperative |
| `CatchPokemon` | `catch_pokemon_scene.py` | imperative |
| `TrainerBattle` | `battle_scene.py` | imperative |
| `SwitchPanel` | `battle_switch_panel.py` | mixed |
| `ItemPanel` | `battle_item_panel.py` | mixed |
| `Pathfinding` | `pathfinding.py` | imperative |
| `GameManagerModel` | `game_manager.py` | imperative |
| `Definition` | `definition.py` | pure |
| `MerchantNpc` | `merchant_npc.py` | mixed |

`Util` holds the string and number helpers: lower-casing, `str()` of an integer, truncation of a real.

How the source becomes Dafny:

- **Records.** The source's dictionary records (`Monster`, `Item`, reward and save dictionaries) become datatypes. A key the source may leave out becomes an `Option` field.
- **Objects.** Objects whose fields the source updates become classes: `Bag`, `ShopPanel`, `Chest`, `Npc`, the scenes, the panels and `GameManager`. Their methods state the whole new state.
- **Randomness and input.** Every random draw, damage number and input event is a method parameter. Its precondition gives the range the source draws from.
- **Tile size.** `GameSettings.TILE_SIZE` is not part of this model. It is a positive parameter.

Where the prose design of the game and the code disagree, the model follows the code:

- The code has no status effects.
- It has no consumption of boosts. A potion's boost stays until `enter` resets it.
- It has no capture probability.
- It has no `max(1, …)` floor on damage. `calculate_damage` clamps to [3, 25].
- The type chart is not reciprocal: Slash beats Water, but Water is not resisted by Slash (`SlashWaterAsymmetry`).
- Run in the boss fight only shows a message. It does not end the battle.

## Model

| member | source | states |
|---|---|---|
| PokemonData.TypeEffectiveness | src/utils/pokemon_data.py:333-354 | The result is exactly one of (1.5, super-effective message), (0.67, not-very-effective message) or (1.0, ""). It is 1.5 iff neither type is "None" and STRONG_AGAINST maps the attacker to the defender. It is 0.67 iff neither type is "None", that lookup fails and WEAK_TO maps the attacker to the defender. |
| PokemonData.CalculateDamage | src/utils/pokemon_data.py:356-389 | For every variance in [0.85, 1.0] the damage lies in [3, 25]. An unknown move gives (10, "", "None"). A known move yields its own type and the effectiveness message of that type against the defender. |
| PokemonData.DamageIgnoresAttackerType | src/utils/pokemon_data.py:375-378 | The attacker_type argument never changes the result. |
| PokemonData.DamageExampleSuperEffective | src/utils/pokemon_data.py:356-389 | FireBlast at level 10 with variance 1.0 against Ice deals 15, super effective, of type Fire. |
| PokemonData.DamageExampleCapped | src/utils/pokemon_data.py:380-387 | DragonRift at level 100 is capped at 25. |
| PokemonData.DamageExampleFloor | src/utils/pokemon_data.py:380-387 | AquaShield at level 0 with variance 0.85 against Light is raised to 3, not very effective. |
| PokemonData.DamageExampleUnknownMove | src/utils/pokemon_data.py:369-372 | An unknown move deals 10 with no message and type "None". |
| PokemonData.StrongAgainstKeys | src/utils/pokemon_data.py:15-22 | STRONG_AGAINST's keys are exactly the six types. |
| PokemonData.EveryTypeIsBeaten | src/utils/pokemon_data.py:15-22 | Every type is the value of some STRONG_AGAINST entry. |
| PokemonData.StrongAgainstPermutesTypes | src/utils/pokemon_data.py:15-22 | STRONG_AGAINST's keys and values are both exactly the six types, so it is a permutation of them. |
| PokemonData.StrongAgainstFollowsCycle | src/utils/pokemon_data.py:15-22 | STRONG_AGAINST sends Fire to Ice, Ice to Wind, Wind to Light, Light to Slash, Slash to Water and Water to Fire. |
| PokemonData.AdvanceAlongCycle | src/utils/pokemon_data.py:15-22 | Applying STRONG_AGAINST k times moves k places along that cycle. |
| PokemonData.FireVisitsCycle | src/utils/pokemon_data.py:15-22 | From Fire, the first six applications visit the cycle in order. |
| PokemonData.ReturnsAfterSix | src/utils/pokemon_data.py:15-22 | Every type returns to itself after six applications and not before. |
| PokemonData.StrongAgainstIsOneCycle | src/utils/pokemon_data.py:15-22 | STRONG_AGAINST is the single six-cycle Fire→Ice→Wind→Light→Slash→Water→Fire. |
| PokemonData.StrongAndWeakNeverCoincide | src/utils/pokemon_data.py:6-22 | WEAK_TO is defined on the six types, and STRONG_AGAINST[a] != WEAK_TO[a] for each of them. So the branch order in calculate_type_effectiveness never hides an entry. |
| PokemonData.ReciprocityExceptSlash | src/utils/pokemon_data.py:6-22 | For every attacker except Slash, WEAK_TO[STRONG_AGAINST[a]] == a. Consequently a super-effective pair is not very effective the other way round. |
| PokemonData.SlashWaterAsymmetry | src/utils/pokemon_data.py:6-22 | Slash against Water is 1.5, but Water against Slash is 1.0. Water against Light is 0.67, and Light against Water is 1.0. |
| PokemonData.NoneAndUnknownAreNeutral | src/utils/pokemon_data.py:342-353 | A "None" type on either side, or an attacker type missing from both tables, gives (1.0, ""). |
| PokemonData.SpeciesMovesKnown | src/utils/pokemon_data.py:258-330 | Every move of a given species is a key of MOVES_DATABASE. |
| PokemonData.SpeciesMovesAreKnown | src/utils/pokemon_data.py:25-330 | Every move listed for any species in POKEMON_SPECIES is a key of MOVES_DATABASE. |
| BagData.FindItem | src/data/bag.py:46-49 | The index is that of the first entry with the name. It is None iff no entry has the name. |
| BagData.Quantity | src/data/bag.py:46-49 | Reference definition: the count of the first entry with the name, or 0 when there is none. AddItemQuantity, RemoveItemQuantity and the shop and chest lemmas are stated with it. |
| BagData.ItemsAfterAdd | src/data/bag.py:44-57 | Reference definition of add_item on the list: the first same-name entry gains count, or a new record is appended. Bag.AddItem's loop is proved equal to it, and AddItemQuantity and AddItemKeepsNamesUnique state its effect. |
| BagData.ItemsAfterRemove | src/data/bag.py:59-68 | Reference definition of remove_item: a shortage or a missing name fails and changes nothing. Otherwise the count falls, and the entry is deleted at 0. Bag.RemoveItem is proved equal to it, and RemoveItemQuantity states its effect. |
| BagData.ListOrEmpty | src/data/bag.py:13-14 | A missing list becomes [], and a given one is kept. |
| BagData.Bag.constructor | src/data/bag.py:12-15 | The bag holds the given monsters, the given items and the money. Missing lists become []. |
| BagData.Bag.FromDict | src/data/bag.py:77-83 | The new bag holds what the dictionary holds. Missing lists become [] and missing money becomes 1000. |
| BagData.Bag.ToDict | src/data/bag.py:70-75 | The dictionary writes the money. Reading it back gives the same monsters, items and money. |
| BagData.Bag.AddMoney | src/data/bag.py:35-36 | Money rises by the amount. Monsters and items are unchanged. |
| BagData.Bag.RemoveMoney | src/data/bag.py:38-42 | It succeeds iff money ≥ amount, and only then pays. Money stays non-negative. Monsters and items are unchanged. |
| BagData.Bag.AddItem | src/data/bag.py:44-57 | The items become ItemsAfterAdd: the first entry with the name gains count, or one new record (name, count, sprite path, price) is appended. Money and monsters are unchanged. |
| BagData.Bag.RemoveItem | src/data/bag.py:59-68 | The result and the new items are those of ItemsAfterRemove. Money and monsters are unchanged. |
| BagData.AddItemKeepsNamesUnique | src/data/bag.py:44-57 | add_item keeps item names unique. |
| BagData.RemoveItemKeepsNamesUnique | src/data/bag.py:59-68 | remove_item keeps item names unique. |
| BagData.FindItemAppend | src/data/bag.py:50-57 | After an append, the search finds the new record only when no earlier entry has that name. |
| BagData.FindItemDeleteSelf | src/data/bag.py:64-66 | With unique names, deleting the found entry leaves no entry of that name. |
| BagData.FindItemDeleteOther | src/data/bag.py:64-66 | Deleting the entry of one name leaves every other name's quantity unchanged. |
| BagData.FindItemAfterAddOther | src/data/bag.py:44-57 | add_item leaves the first entry of every other name at the same index. |
| BagData.AddItemQuantity | src/data/bag.py:44-57 | add_item raises the item's quantity by count and leaves every other item's quantity unchanged. |
| BagData.RemoveItemQuantity | src/data/bag.py:59-68 | With unique names, remove_item succeeds iff an entry holds at least count. On success the quantity drops by count, and other quantities are unchanged. On failure the list is unchanged. |
| BagData.AddThenRemoveRestores | src/data/bag.py:44-68 | Removing what was just added restores the list, unless the entry's count was 0 or negative. |
| Shop.ScrollOffset | src/interface/components/shop_panel.py:116-129 | The new offset lies in [0, max(0, content − viewport)]. It is exactly offset − amount whenever that is in range, and it is clamped to the nearer end otherwise. |
| Shop.ScrollUndo | src/interface/components/shop_panel.py:116-129 | Scrolling back by the same amount undoes a scroll that hit neither end. |
| Shop.ScrollIsMonotone | src/interface/components/shop_panel.py:116-129 | A larger wheel amount never gives a larger offset. |
| Shop.BuyOutcome | src/interface/components/shop_panel.py:379-399 | Reference definition of _buy_item on the list: remove_item("Coins", price), then add_item of one item only when that succeeded. BuyTransfers states its effect. |
| Shop.SellOutcome | src/interface/components/shop_panel.py:401-419 | Reference definition of _sell_item on the list: remove_item(name, 1), then add_item("Coins", price // 2) only when that succeeded. SellTransfers states its effect. |
| Shop.BuyTransfers | src/interface/components/shop_panel.py:379-399 | With unique names, buying succeeds iff a Coins entry holds at least the price. Success lowers Coins by the price and raises the item's quantity by 1. Failure leaves the items unchanged. Names stay unique. |
| Shop.SellTransfers | src/interface/components/shop_panel.py:401-419 | Selling succeeds iff the bag holds at least one of the item. Success lowers the item by 1 and raises Coins by price // 2, where a missing price counts as 0. Failure leaves the items unchanged. Names stay unique. |
| Shop.BuyWithAllCoinsRemovesCoins | src/interface/components/shop_panel.py:384 | Paying with exactly the Coins held succeeds and deletes the Coins entry. |
| Shop.BuyThenSellLosesCoins | src/interface/components/shop_panel.py:379-419 | Buying then selling the same item restores its quantity and loses price − price // 2 Coins, which is more than 0 for a positive price. |
| Shop.ShopPanel.constructor | src/interface/components/shop_panel.py:11-85 | Both offsets start at 0. The content heights are the list lengths × 70, and the viewport is the height − 160. |
| Shop.ShopPanel.Update | src/interface/components/shop_panel.py:87-129 | The message timer runs down, and the message is cleared when the timer runs out. A wheel turn over the panel scrolls the half under the mouse through ScrollOffset. |
| Shop.ShopPanel.BuyItem | src/interface/components/shop_panel.py:379-399 | An item without a price raises the KeyError of `item["price"]` and changes nothing. Otherwise the items become BuyOutcome's. On success it shows a green "Bought …" message and player_content_height = items × 70. On failure it shows a red "Not enough money!" and leaves the height. The message timer is 2.0 and the money field is untouched. |
| Shop.ShopPanel.SellItem | src/interface/components/shop_panel.py:401-419 | The items become SellOutcome's. On success it shows a green "Sold …" message and player_content_height = items × 70. On failure it shows a red "Item not found!". The message timer is 2.0. |
| ChestEntity.RewardsOrDefault | src/entities/chest.py:50-54 | A missing or empty rewards dictionary becomes {items: [], monsters: [], coins: 0}, and any other is kept. |
| ChestEntity.ItemsAfterAddAll | src/entities/chest.py:81-87 | Reference definition: add_item applied to each reward item in order, with a missing price as 0. AddAllQuantity and AddAllKeepsNamesUnique state its effect. |
| ChestEntity.ItemsAfterOpen | src/entities/chest.py:81-96 | Reference definition of a successful open: the reward items merged, then a positive coins reward added as "Coins". OpenCreditsCoins states its effect on Coins. |
| ChestEntity.AddAllQuantity | src/entities/chest.py:81-87 | Merging the reward items raises each name's quantity by the rewards' total for it. |
| ChestEntity.AddAllKeepsNamesUnique | src/entities/chest.py:81-87 | Merging the reward items keeps names unique. |
| ChestEntity.OpenCreditsCoins | src/entities/chest.py:81-96 | Opening raises Coins by the reward items' Coins plus the coins reward, and the coins reward counts only when it is positive. |
| ChestEntity.RecordFromDict | src/entities/chest.py:113-124 | The loaded rewards are never an empty dictionary. |
| ChestEntity.Chest.constructor | src/entities/chest.py:25-54 | The chest holds the name, the opened flag, the defaulted rewards and the sprite path. |
| ChestEntity.Chest.FromDict | src/entities/chest.py:113-124 | The new chest holds RecordFromDict of the dictionary. |
| ChestEntity.Chest.ToDict | src/entities/chest.py:126-134 | The sprite is always written as "ingame_ui/chest.png". Reloading keeps name, opened and rewards. |
| ChestEntity.Chest.OpenChest | src/entities/chest.py:73-99 | An opened chest returns False and changes nothing. Otherwise the reward items are merged by add_item, the coins (when > 0) are added as a "Coins" item, and the chest becomes opened. Monster rewards fail after the item merge and leave the chest closed. |
| MerchantNpc.NpcTypeFromValue | src/entities/merchant_npc.py:12-14 | NPCType(v) gives the member whose value is v, and fails iff no member has it. |
| MerchantNpc.AnimationNamesDirection | src/entities/merchant_npc.py:70-79 | RIGHT, LEFT and DOWN select the same-named animation, and UP and NONE select "up". |
| MerchantNpc.InventoryOrEmpty | src/entities/merchant_npc.py:49 | A missing inventory becomes []. |
| MerchantNpc.FacingFromDict | src/entities/merchant_npc.py:85-86 | A missing facing becomes DOWN. A name is looked up with Direction[name], and a Direction member is kept. |
| MerchantNpc.RecordFromDict | src/entities/merchant_npc.py:83-98 | Loading fails iff the type value or the facing name is unknown. Otherwise the type is NPCType of the value ("merchant" when missing) and the direction is the loaded facing. Name, dialogue, sprite and inventory default to "Merchant", "Welcome to my shop!", "character/ow2.png" and []. |
| MerchantNpc.EmptyDictLoadsDefaults | src/entities/merchant_npc.py:83-98 | An empty dictionary loads a default merchant facing down. |
| MerchantNpc.Npc.constructor | src/entities/merchant_npc.py:26-53 | The NPC holds its arguments with the inventory defaulted, and the animation matches its facing. |
| MerchantNpc.Npc.SetDirection | src/entities/merchant_npc.py:70-79 | The direction becomes the argument and the animation becomes AnimationFor of it. Nothing else changes. |
| MerchantNpc.Npc.FromDict | src/entities/merchant_npc.py:81-98 | It builds the NPC that RecordFromDict describes, or fails exactly when that does. |
| MerchantNpc.Npc.ToDict | src/entities/merchant_npc.py:100-108 | It writes the type's value and the facing's name, and no sprite path. Reloading gives the same NPC with the default sprite. |
| Definition.Position.Copy | src/utils/definition.py:17-18 | The copy equals the position. |
| Definition.PositionCamera.Copy | src/utils/definition.py:28-29 | The copy equals the camera. |
| Definition.PositionCamera.TransformPosition | src/utils/definition.py:34-35 | The screen coordinates plus the camera offset are the truncated world coordinates. |
| Definition.PositionCamera.TransformRect | src/utils/definition.py:40-41 | The rectangle is shifted by the camera, and its width and height are kept. |
| Definition.Rect.CollidePoint | src/interface/components/shop_panel.py:110 | Reference definition of pygame's collidepoint: x ≤ px < x + width and y ≤ py < y + height. The scroll methods of the shop and the switch panel use it. |
| Definition.Rect.CollideRect | src/utils/pathfinding.py:84 | Reference definition of pygame's colliderect: both rectangles have non-zero sides and their normalised extents overlap on both axes. FindPath's passability test uses it. |
| Definition.DirectionByName | src/utils/definition.py:10 | Direction[name] gives the member with that name, and fails iff no member has it. |
| Definition.DirectionNameRoundTrip | src/utils/definition.py:10 | Direction[d.name] == d for every direction. |
| Definition.HpAfterHit | src/scenes/boss_fight_scene.py:373 | max(0, hp − damage) is never negative and never above hp. It is 0 iff damage ≥ hp. |
| Definition.TeleportConstructorsAgree | src/utils/definition.py:54-66 | Both constructor forms give the same teleporter, and the flag defaults to False. |
| Definition.TeleportFromCoords | src/utils/definition.py:61-66 | Reference definition of Teleport(x, y, destination, flag). TeleportConstructorsAgree relates it to the other form. |
| Definition.TeleportFromPosition | src/utils/definition.py:54-60 | Reference definition of Teleport(pos, destination, flag). TeleportConstructorsAgree relates it to the other form. |
| Definition.FloorDiv | src/utils/definition.py:68-76 | v // T is the integer r with r·T ≤ v < (r+1)·T. |
| Definition.TeleportToDict | src/utils/definition.py:68-76 | x and y are the position // TILE_SIZE. The flag key is written only when the flag is true. |
| Definition.TeleportFromDict | src/utils/definition.py:78-85 | The position is tile × TILE_SIZE. The destination is kept, and a missing flag means False. |
| Definition.TeleportRoundTrip | src/utils/definition.py:68-85 | Reloading keeps the destination and the flag, and snaps the position down to the grid. It restores the teleporter iff both coordinates are on the grid. |
| Definition.LoadedColumn | src/utils/definition.py:78-85 | A loaded teleporter's column is the dictionary's x. |
| Definition.LoadedRow | src/utils/definition.py:78-85 | A loaded teleporter's row is the dictionary's y. |
| Definition.TeleportDictRoundTrip | src/utils/definition.py:68-85 | Saving a loaded teleporter gives back the dictionary, unless the dictionary spelled out a false flag. |
| BossFight.SpeciesOr | src/scenes/boss_fight_scene.py:202 | POKEMON_SPECIES.get(name, default). |
| BossFight.NewBoss | src/scenes/boss_fight_scene.py:193-214 | The boss is a level-50 Mewtwo with 200/200 hp, attack 40 and defense 30, and it has at least one move. |
| BossFight.SpeciesMovesNonEmpty | src/scenes/boss_fight_scene.py:202 | Every species' move list (or the boss default) is non-empty, so the boss can always pick a move. |
| BossFight.BossIsPsychic | src/scenes/boss_fight_scene.py:202-214 | Mewtwo is missing from POKEMON_SPECIES, so the boss is "Psychic" with the default four moves, and every matchup with it is neutral. |
| BossFight.DefaultStatHalfLevel | src/scenes/boss_fight_scene.py:235-241 | int(10 + level·0.5) = 10 + level // 2 for level ≥ 0. |
| BossFight.WithBattleDefaults | src/scenes/boss_fight_scene.py:225-241 | A missing type or move list is taken from the species table, or from ("None", ["QuickSlash"]). A missing attack or defense becomes int(10 + level·0.5). Everything else is kept. |
| BossFight.BattleDefaultsIdempotent | src/scenes/boss_fight_scene.py:225-241 | Filling the defaults twice changes nothing more. |
| BossFight.EndVerdict | src/scenes/boss_fight_scene.py:469-504 | The boss fainting is checked first. A fainted player leads to a forced switch iff another monster has hp > 0, and otherwise to defeat. With neither fainted the battle continues. |
| BossFight.StateAfterVerdict | src/scenes/boss_fight_scene.py:469-504 | Reference definition of the state _check_battle_end sets for each verdict: BATTLE_END, CHOOSE_SWITCH, BATTLE_END, or unchanged. |
| BossFight.MessageAfterVerdict | src/scenes/boss_fight_scene.py:469-504 | Reference definition of the message _check_battle_end sets for each verdict: victory, "… fainted! Choose another Pokemon!", defeat, or unchanged. |
| BossFight.IntroReachesPlayerTurn | src/scenes/boss_fight_scene.py:606-617 | INTRO→BOSS_APPEAR→SEND_PLAYER→PLAYER_TURN, after which every state is a fixed point. No step returns to INTRO. |
| BossFight.NextBossState | src/scenes/boss_fight_scene.py:606-617 | Reference definition of _next_state's successor. IntroReachesPlayerTurn states its properties. |
| BossFight.BattlePotions | src/scenes/boss_fight_scene.py:284-287 | Each item occurs in the result as often as in the bag when it is a battle potion (no coins or pokeball, "potion" or "heal" in the lower-cased name), and otherwise not at all. |
| BossFight.BattlePotionsAppend | src/scenes/boss_fight_scene.py:284-287 | The filter distributes over concatenation, so it keeps the bag's order. |
| BossFight.BattlePotionsSingle | src/scenes/boss_fight_scene.py:284-287 | A one-item list keeps its item iff it is a battle potion. With the previous row, this is the list comprehension. |
| BossFight.ItemEffectOf | src/scenes/boss_fight_scene.py:573-596 | Reference definition: the lower-cased name selects heal ("health"/"heal"), strength ("strength"/"attack"), defense ("defense"/"defence") or no effect, in that order. ExecuteItemAttack is stated with it. |
| BossFight.HealedHp | src/scenes/boss_fight_scene.py:576-578 | Reference definition: min(max_hp, hp + int(max_hp · 0.5)). HealBounds states its bounds. |
| BossFight.HealBounds | src/scenes/boss_fight_scene.py:576-578 | A heal gives min(max_hp, hp + max_hp // 2), which lies between hp and max_hp. |
| BossFight.FirstIndexOf | src/scenes/boss_fight_scene.py:601 | list.remove deletes the first entry equal to the item. |
| BossFight.ItemsAfterUse | src/scenes/boss_fight_scene.py:598-601 | Reference definition: the used item's count falls by one, floored at 0, and at 0 the first equal entry is removed. ItemUseQuantity states its effect under unique names. |
| BossFight.ItemUseQuantity | src/scenes/boss_fight_scene.py:598-601 | With unique names, using an item lowers its count by one. The entry is deleted when the count reaches 0, and nothing else changes. |
| BossFight.SwapKeepsRoster | src/scenes/boss_fight_scene.py:532-533 | Swapping monsters[0] and monsters[i] is a permutation that puts the chosen monster first. |
| BossFight.BossFightScene.constructor | src/scenes/boss_fight_scene.py:80-137 | All battle fields start as FreshFight: INTRO, no boss, boosts 1.0. |
| BossFight.BossFightScene.InitBoss | src/scenes/boss_fight_scene.py:193-254 | The boss is NewBoss. When the bag has monsters, the first one gets its battle defaults and becomes the player's monster. |
| BossFight.BossFightScene.NextState | src/scenes/boss_fight_scene.py:606-617 | The state moves to NextBossState with the source's message, and every other field is kept. Without a player's monster, BOSS_APPEAR and SEND_PLAYER raise the TypeError of `None['name']`. The state (and for SEND_PLAYER the turn) has already changed then, and the message has not. |
| BossFight.BossFightScene.Enter | src/scenes/boss_fight_scene.py:140-187 | Every battle field is reset, including both boosts to 1.0. The boss and player are set up, and the state becomes BOSS_APPEAR. |
| BossFight.BossFightScene.OnFightClick | src/scenes/boss_fight_scene.py:274-277 | The state becomes CHOOSE_MOVE. |
| BossFight.BossFightScene.OnItemClick | src/scenes/boss_fight_scene.py:279-299 | An empty bag, or one without potions, only sets a message. Otherwise the state becomes CHOOSE_ITEM and offers BattlePotions. |
| BossFight.BossFightScene.FindHealthyReserve | src/scenes/boss_fight_scene.py:309-310 | It says whether a monster other than the first has hp > 0. |
| BossFight.BossFightScene.OnSwitchClick | src/scenes/boss_fight_scene.py:301-323 | A roster of ≤ 1 monsters, or one with no healthy reserve, only sets a message. Otherwise the state becomes CHOOSE_SWITCH. |
| BossFight.BossFightScene.OnRunClick | src/scenes/boss_fight_scene.py:325-327 | It only sets the message. |
| BossFight.BossFightScene.CheckBattleEnd | src/scenes/boss_fight_scene.py:469-504 | The state, message and boss_defeated follow EndVerdict. It returns False, changing nothing, iff the battle continues. |
| BossFight.BossFightScene.OnMoveSelect | src/scenes/boss_fight_scene.py:329-392 | On the player's turn with a move, the boss's hp becomes max(0, hp − damage) and the state SHOW_DAMAGE, with the end check's message and flag. Off-turn nothing changes. On the player's turn without a player's monster it raises a TypeError after recording the move. |
| BossFight.BossFightScene.ExecuteBossAttack | src/scenes/boss_fight_scene.py:394-410 | The boss picks moves[0] when the roll is < 0.7, and otherwise the drawn move. The chosen move is always in its move list. |
| BossFight.BossFightScene.ApplyBossDamage | src/scenes/boss_fight_scene.py:412-467 | The player's monster's hp becomes max(0, hp − damage), the selected move is cleared, and the state becomes SHOW_DAMAGE with the end check's message. Without a selected move nothing changes. |
| BossFight.BossFightScene.ExecuteSwitch | src/scenes/boss_fight_scene.py:506-567 | For i < len, the chosen monster gets its defaults and trades places with monsters[0]. The state becomes SHOW_DAMAGE and the turn passes to the boss. For i ≥ len it is a no-op. |
| BossFight.BossFightScene.ExecuteItemAttack | src/scenes/boss_fight_scene.py:569-604 | A heal raises hp to HealedHp. Strength sets attack_boost 1.5 and defense sets defense_boost 0.7. The item is used up by ItemsAfterUse. The state becomes SHOW_DAMAGE, and the boosts stay in {1.0, 1.5} and {1.0, 0.7}. |
| BossFight.BossFightScene.ShowDamageAdvance | src/scenes/boss_fight_scene.py:655-670 | An ended battle goes to BATTLE_END or CHOOSE_SWITCH. Otherwise the turn alternates: the player's turn gives BOSS_TURN, and the boss's turn gives PLAYER_TURN. Handing the turn back with no player's monster raises a TypeError after the state and turn change. |
| BossFight.BossFightScene.CloseChoice | src/scenes/boss_fight_scene.py:709-712 | ESC in the item or switch panel returns to PLAYER_TURN (also at 721-724). Without a player's monster it raises a TypeError after the state change, leaving the message. |
| CatchPokemon.WildHpRanges | src/scenes/catch_pokemon_scene.py:81-103 | The lowest starting hp of the three pool monsters is 36, 32 and 31, each in (0, max_hp]. |
| CatchPokemon.CaughtRecord | src/scenes/catch_pokemon_scene.py:462-471 | A newly caught monster enters with hp = max_hp and count 1. |
| CatchPokemon.FindMonster | src/scenes/catch_pokemon_scene.py:449-453 | It finds the first roster entry with the name, and None iff there is none. |
| CatchPokemon.CatchRosterGrowth | src/scenes/catch_pokemon_scene.py:440-472 | The roster grows by at most one. It grows iff no monster has the name, and then by exactly CaughtRecord. Otherwise only the same-name entry changes, by BumpedCount. |
| CatchPokemon.CatchBumpsCount | src/scenes/catch_pokemon_scene.py:449-459 | A repeated catch raises the first same-name entry's count by one, where an absent count counts as 1. |
| CatchPokemon.BumpedCount | src/scenes/catch_pokemon_scene.py:455-459 | Reference definition: a missing count becomes 1, then the count rises by one. CatchBumpsCount states it for the found entry. |
| CatchPokemon.RosterAfterCatch | src/scenes/catch_pokemon_scene.py:448-472 | Reference definition of the roster after a catch: BumpedCount on the first same-name monster, or CaughtRecord appended. CatchRosterGrowth states its effect. |
| CatchPokemon.BattleItems | src/scenes/catch_pokemon_scene.py:275 | Each item occurs in the result as often as in the bag when it is neither coins nor a pokeball, and otherwise not at all. |
| CatchPokemon.BattleItemsAppend | src/scenes/catch_pokemon_scene.py:275 | The filter distributes over concatenation, so it keeps the bag's order. |
| CatchPokemon.BattleItemsSingle | src/scenes/catch_pokemon_scene.py:275 | A one-item list keeps its item iff it is a battle item. |
| CatchPokemon.Pokeballs | src/scenes/catch_pokemon_scene.py:301 | Each pokeball occurs in the result as often as in the bag, and no other item occurs. |
| CatchPokemon.PokeballsAppend | src/scenes/catch_pokemon_scene.py:301 | The filter distributes over concatenation, so it keeps the bag's order. |
| CatchPokemon.PokeballsSingle | src/scenes/catch_pokemon_scene.py:301 | A one-item list keeps its item iff it is a pokeball. |
| CatchPokemon.ItemsAfterThrow | src/scenes/catch_pokemon_scene.py:412 | Using an item or a ball lowers its count by one, floored at 0. It is never removed, and nothing else changes. |
| CatchPokemon.WildIntroReachesPlayerTurn | src/scenes/catch_pokemon_scene.py:480-494 | INTRO→CHALLENGER→SEND_OPPONENT→SEND_PLAYER→PLAYER_TURN, after which every state is a fixed point. |
| CatchPokemon.NextWildState | src/scenes/catch_pokemon_scene.py:480-494 | Reference definition of _next_state's successor. WildIntroReachesPlayerTurn states its properties. |
| CatchPokemon.CatchPanelCases | src/scenes/catch_pokemon_scene.py:294-314 | A bag with items opens CATCHING iff it holds a pokeball, and otherwise goes to BATTLE_END. An empty bag leaves the state. |
| CatchPokemon.CatchPanelShown | src/scenes/catch_pokemon_scene.py:294-314 | Reference definition of _show_catch_panel's field changes. CatchPanelCases states its cases. |
| CatchPokemon.CatchPokemonScene.constructor | src/scenes/catch_pokemon_scene.py:105-173 | All battle fields start as FreshBattle. |
| CatchPokemon.CatchPokemonScene.InitBattle | src/scenes/catch_pokemon_scene.py:222-248 | The party has 1–3 pool monsters with hp in [int(0.8·max_hp), max_hp], and the opponent is party[0]. |
| CatchPokemon.CatchPokemonScene.NextState | src/scenes/catch_pokemon_scene.py:480-494 | The state moves to NextWildState with the source's message, and every other field is kept. A missing opponent in INTRO or CHALLENGER, or a missing player's monster in SEND_OPPONENT or SEND_PLAYER, raises a TypeError after the state change, leaving the message. |
| CatchPokemon.CatchPokemonScene.Enter | src/scenes/catch_pokemon_scene.py:175-217 | Every field is reset, a party is generated, and the state becomes CHALLENGER with "A wild … appeared!". |
| CatchPokemon.CatchPokemonScene.NextEnemy | src/scenes/catch_pokemon_scene.py:250-263 | The party index rises by exactly 1. It returns True iff the new index is in the party, and only then changes the opponent. |
| CatchPokemon.CatchPokemonScene.OnFightClick | src/scenes/catch_pokemon_scene.py:265-267 | The state becomes CHOOSE_MOVE. |
| CatchPokemon.CatchPokemonScene.OnItemClick | src/scenes/catch_pokemon_scene.py:269-287 | An empty bag, or one without battle items, only sets a message. Otherwise the state becomes CHOOSE_ITEM with BattleItems. |
| CatchPokemon.CatchPokemonScene.OnSwitchClick | src/scenes/catch_pokemon_scene.py:289-292 | It sets the "coming soon" message and the state SWITCH_POKEMON. |
| CatchPokemon.CatchPokemonScene.OnRunClick | src/scenes/catch_pokemon_scene.py:316-318 | It sets "Escaped from battle!". |
| CatchPokemon.CatchPokemonScene.ShowCatchPanel | src/scenes/catch_pokemon_scene.py:294-314 | The fields become CatchPanelShown of the bag's items. |
| CatchPokemon.CatchPokemonScene.CheckBattleEnd | src/scenes/catch_pokemon_scene.py:385-398 | A fainted opponent returns True and changes nothing. A fainted player sets BATTLE_END. Otherwise it returns False. |
| CatchPokemon.CatchPokemonScene.HitOpponent | src/scenes/catch_pokemon_scene.py:333-334 | The opponent's hp becomes max(0, hp − damage), with the damage message. |
| CatchPokemon.CatchPokemonScene.OnMoveSelect | src/scenes/catch_pokemon_scene.py:320-345 | On the player's turn, a hit of 10–20 lowers the opponent's hp, clamped at 0, and the state becomes SHOW_DAMAGE. Off-turn nothing changes. On the player's turn without a player's monster it raises a TypeError after recording the move. |
| CatchPokemon.CatchPokemonScene.ExecuteEnemyAttack | src/scenes/catch_pokemon_scene.py:347-361 | The opponent uses one of its four moves. |
| CatchPokemon.CatchPokemonScene.ApplyEnemyDamage | src/scenes/catch_pokemon_scene.py:363-383 | A hit of 8–15 lowers the player's hp into [0, old hp], and the state becomes SHOW_DAMAGE. Without a selected move nothing changes. |
| CatchPokemon.CatchPokemonScene.ExecuteItemAttack | src/scenes/catch_pokemon_scene.py:400-420 | Any item hits the opponent for 5–25, its count drops by one (floored at 0, never removed), and the state becomes SHOW_DAMAGE. |
| CatchPokemon.CatchPokemonScene.ExecutePokeballCatch | src/scenes/catch_pokemon_scene.py:422-438 | The ball's count drops by one (floored at 0, never removed), and the state becomes CATCH_ANIMATION. |
| CatchPokemon.CatchPokemonScene.CatchOpponent | src/scenes/catch_pokemon_scene.py:440-472 | The roster becomes RosterAfterCatch of the opponent. Without an opponent the catch fails. |
| CatchPokemon.CatchPokemonScene.ShowDamageAdvance | src/scenes/catch_pokemon_scene.py:510-527 | A fainted opponent opens the catch panel, and a fainted player ends the battle. Otherwise the turn alternates. Handing the turn back with no player's monster raises a TypeError after the state and turn change. |
| CatchPokemon.CatchPokemonScene.SkipCatch | src/scenes/catch_pokemon_scene.py:590-600 | ESC while catching moves to the next wild monster, or ends the battle as won. |
| CatchPokemon.CatchPokemonScene.AfterCatch | src/scenes/catch_pokemon_scene.py:713-730 | After a catch the next wild monster comes out, or the battle ends. |
| CatchPokemon.CatchPokemonScene.CloseItemPanel | src/scenes/catch_pokemon_scene.py:576-579 | ESC in the item panel returns to PLAYER_TURN. Without a player's monster it raises a TypeError after the state change, leaving the message. |
| CatchPokemon.CatchPokemonScene.ThrowLanded | src/scenes/catch_pokemon_scene.py:603-640 | The end of the throw starts the flashing with a zero counter. |
| CatchPokemon.CatchPokemonScene.FlashTick | src/scenes/catch_pokemon_scene.py:643-662 | Visibility toggles, and each disappearance counts. After the third disappearance the ball falls. |
| CatchPokemon.CatchPokemonScene.BallLanded | src/scenes/catch_pokemon_scene.py:664-689 | The landed ball starts shaking with a zero counter. |
| CatchPokemon.CatchPokemonScene.ShakeTick | src/scenes/catch_pokemon_scene.py:691-711 | The third shake catches the opponent (RosterAfterCatch) and sets CATCH_SUCCESS. Earlier shakes only count. |
| CatchPokemon.FlashSequenceLength | src/scenes/catch_pokemon_scene.py:643-662 | From the landing, exactly five flash ticks pass before the ball falls. |
| TrainerBattle.NextStateAdvancesOnePlace | src/scenes/battle_scene.py:72-85 | Each step moves one place towards MAIN. MAIN is the only fixed point, no step reaches INTRO, and four steps lead from INTRO to MAIN. |
| TrainerBattle.StepMessage | src/scenes/battle_scene.py:72-85 | The message after each step: the challenge, the opponent sent out, "Go, …" and "What will … do?". It is None, the source's TypeError, exactly when the step names a monster that is None. |
| TrainerBattle.NextBattleState | src/scenes/battle_scene.py:72-85 | Reference definition of _next_state's successor. NextStateAdvancesOnePlace states its properties. |
| TrainerBattle.BattleScene.constructor | src/scenes/battle_scene.py:33-48 | The scene starts in INTRO with no monsters. |
| TrainerBattle.BattleScene.InitPokemon | src/scenes/battle_scene.py:60-70 | The opponent is Leogreen with hp = max_hp = 45 at level 10. The player's monster is bag.monsters[0] when there is one, and is otherwise unchanged. |
| TrainerBattle.BattleScene.NextState | src/scenes/battle_scene.py:72-85 | The state moves to NextBattleState, and the message becomes StepMessage's. Where StepMessage is None, the source raises a TypeError and the old message stays. In MAIN nothing but the timer changes. |
| TrainerBattle.BattleScene.Enter | src/scenes/battle_scene.py:51-54 | The monsters are set up and the state moves exactly one step, without a reset to INTRO. The message is StepMessage's for the old state and the new monsters, or the TypeError is raised. |
| TrainerBattle.BattleScene.OnSpace | src/scenes/battle_scene.py:91-102 | SPACE advances CHALLENGER, SEND_OPPONENT and SEND_PLAYER by one step with StepMessage's message, or raises its TypeError. In MAIN it asks for the game scene. INTRO ignores the key. |
| SwitchPanel.SwitchButtonsSound | src/interface/components/battle_switch_panel.py:63-89 | Every button selects an eligible monster: not the current one, with hp > 0. Its label is "name Lv.level". |
| SwitchPanel.SwitchButtonsComplete | src/interface/components/battle_switch_panel.py:63-89 | Every eligible monster has a button. |
| SwitchPanel.SwitchButtonsIncreasing | src/interface/components/battle_switch_panel.py:63-89 | The buttons' indices strictly increase. |
| SwitchPanel.NoButtonsIffNoneEligible | src/interface/components/battle_switch_panel.py:63-89 | There are no buttons iff no monster is eligible. |
| SwitchPanel.CollectSwitchButtons | src/interface/components/battle_switch_panel.py:63-89 | The constructor's loop builds exactly SwitchButtons. |
| SwitchPanel.SwitchButtons | src/interface/components/battle_switch_panel.py:63-89 | Reference definition of the constructor's button list: one button per eligible monster, in roster order. SwitchButtonsSound, SwitchButtonsComplete, SwitchButtonsIncreasing and NoButtonsIffNoneEligible state its properties. |
| SwitchPanel.MaxScroll | src/interface/components/battle_switch_panel.py:92-95 | max_scroll is max(0, n·90 − (height − 100)), and 0 for no buttons. |
| SwitchPanel.ClampScroll | src/interface/components/battle_switch_panel.py:110 | max(0, min(max_scroll, v)) lies in [0, max_scroll] and is v whenever v is in range. |
| SwitchPanel.EveryRowReachable | src/interface/components/battle_switch_panel.py:122-129 | In a panel taller than 100 pixels, every button row becomes clickable at some offset in [0, max_scroll]. |
| SwitchPanel.BattleSwitchPanel.constructor | src/interface/components/battle_switch_panel.py:12-97 | The buttons are the eligible monsters, the offset is 0 and nothing is selected. |
| SwitchPanel.BattleSwitchPanel.Scroll | src/interface/components/battle_switch_panel.py:103-120 | The wheel over the panel scrolls 40 per notch, and then UP or DOWN scrolls 40. Each step is clamped, so the offset stays in [0, max_scroll]. |
| SwitchPanel.BattleSwitchPanel.ClickButton | src/interface/components/battle_switch_panel.py:122-129 | A click on a visible row selects that button's monster index. |
| SwitchPanel.BattleSwitchPanel.GetSelectedPokemonIndex | src/interface/components/battle_switch_panel.py:241-245 | It returns the last selection, which is an eligible index, and clears it. |
| SwitchPanel.BattleSwitchPanel.IsEmptyIffNoneEligible | src/interface/components/battle_switch_panel.py:247-249 | is_empty holds iff no monster is eligible. |
| ItemPanel.VisibleSlots | src/interface/components/battle_item_panel.py:40-44 | The number of rows that fit is the index of the first row i with 60 + 60·i + 50 > height − 20. |
| ItemPanel.ItemButtonsArePrefix | src/interface/components/battle_item_panel.py:40-53 | The buttons are a prefix of the items in order, stopping at the first row that does not fit. Each button carries its own item record and caption. |
| ItemPanel.CollectItemButtons | src/interface/components/battle_item_panel.py:40-53 | The constructor's loop with break builds exactly ItemButtons. |
| ItemPanel.ItemButtons | src/interface/components/battle_item_panel.py:40-53 | Reference definition of the constructor's buttons: the first min(len(items), VisibleSlots) items, one row of 60 pixels each. ItemButtonsArePrefix states its properties. |
| ItemPanel.BattleItemPanel.constructor | src/interface/components/battle_item_panel.py:12-55 | The buttons are ItemButtons, and nothing is selected. |
| ItemPanel.BattleItemPanel.ClickButton | src/interface/components/battle_item_panel.py:57-59 | A click selects that button's item record. |
| ItemPanel.BattleItemPanel.GetSelectedItem | src/interface/components/battle_item_panel.py:89-93 | It returns the last selection, one of the items, and clears it. |
| ItemPanel.BattleItemPanel.IsEmptyIsAboutItems | src/interface/components/battle_item_panel.py:95-97 | is_empty tests the items, not the buttons. A panel under 130 pixels has no buttons even when it has items. |
| Pathfinding.StepsAreAdjacent | src/utils/pathfinding.py:47 | The four directions are exactly the unit steps. |
| Pathfinding.Centres | src/utils/pathfinding.py:55-60 | There is one pixel point per tile. |
| Pathfinding.TileCentres | src/utils/pathfinding.py:55-60 | The output pixels are tile·TILE_SIZE + TILE_SIZE // 2. |
| Pathfinding.WalkStaysInClosedSet | src/utils/pathfinding.py:49-91 | A visited set closed under passable neighbours contains every walk from the start. |
| Pathfinding.ExploreNeighbours | src/utils/pathfinding.py:63-91 | One round queues every passable, unvisited neighbour with its path extended. The queue keeps only repeat-free walks, and the current tile becomes closed. |
| Pathfinding.PopStartsRound | src/utils/pathfinding.py:49-50 | The popped queue entry holds a repeat-free walk to its tile. |
| Pathfinding.RoundKeepsFrontier | src/utils/pathfinding.py:49-91 | A round keeps the search invariant and makes progress, which bounds the loop. |
| Pathfinding.ExhaustedMeansUnreachable | src/utils/pathfinding.py:94 | Once the queue is empty, no walk from the start reaches the goal. |
| Pathfinding.ExtendPath | src/utils/pathfinding.py:71-91 | Extending a repeat-free walk by an unvisited passable neighbour keeps it a repeat-free walk. |
| Pathfinding.FindPath | src/utils/pathfinding.py:11-94 | A returned path is the tile centres of a walk from the start tile to the goal tile. The walk takes unit steps onto in-bounds, collision-free tiles and never repeats a tile. None is returned only when no such walk reaches the goal. |
| Pathfinding.RunEnd | src/utils/pathfinding.py:119-143 | The scan stops at the last point still aligned with the run. |
| Pathfinding.ScanRun | src/utils/pathfinding.py:119-143 | The inner loop computes RunEnd. |
| Pathfinding.SimplifyPath | src/utils/pathfinding.py:96-154 | The loop computes Simplified. |
| Pathfinding.Simplified | src/utils/pathfinding.py:96-154 | Reference definition of simplify_path: short paths are kept, and a longer one keeps its first point and the end of each straight run. SimplifiedIsSubsequence and KeptIndicesFacts state its properties. |
| Pathfinding.KeptIndicesFacts | src/utils/pathfinding.py:114-154 | The kept points are the path's points at the kept indices. The last kept index is the path's end, and each consecutive pair spans a straight run. |
| Pathfinding.SimplifiedIsSubsequence | src/utils/pathfinding.py:109-154 | Paths of ≤ 2 points are returned unchanged. A longer path maps to a subsequence at strictly increasing indices that starts at path[0] and ends at path[-1]. |
| Pathfinding.KeptIndicesWitness | src/utils/pathfinding.py:112-154 | Index 0 followed by the kept indices witnesses that subsequence. |
| Pathfinding.KeptPositionsIncrease | src/utils/pathfinding.py:112-154 | The kept indices strictly increase. |
| GameManagerModel.Cooldown | src/core/managers/game_manager.py:66-71 | A cooldown never becomes negative and never rises for dt ≥ 0. It reaches 0 when dt covers it, and a stopped one is unchanged. |
| GameManagerModel.CooldownRunsOut | src/core/managers/game_manager.py:66-71 | A cooldown of at most n seconds has run out after n frames of at least a second. |
| GameManagerModel.ZeroStaysZero | src/core/managers/game_manager.py:66-71 | A stopped cooldown stays at 0. |
| GameManagerModel.InitialSpawns | src/core/managers/game_manager.py:46-49 | Every map has a copy of its spawn. |
| GameManagerModel.GameManager.constructor | src/core/managers/game_manager.py:29-64 | player_spawns has every map. The current map's entry is the player's position when there is a player. No switch is pending, and both cooldowns are 0. |
| GameManagerModel.GameManager.Update | src/core/managers/game_manager.py:66-71 | Both cooldowns follow Cooldown, and nothing else changes. |
| GameManagerModel.GameManager.SwitchMap | src/core/managers/game_manager.py:89-95 | An unknown map changes nothing. A known one sets next_map and the flag. The invariant "flag ⇒ next_map is a loaded map" is kept. |
| GameManagerModel.GameManager.TrySwitchMap | src/core/managers/game_manager.py:97-110 | Without a pending switch nothing changes. Otherwise it records the old position, moves to next_map, clears the request, places the player at the stored spawn and sets the teleport cooldown to TELEPORT_WAIT. |
| GameManagerModel.SwitchThereAndBack | src/core/managers/game_manager.py:89-110 | Switching to a map and back returns to the first map with the player where it stood. |

## Left out

- **Drawing.** Rendering, sprites, fonts and sound are not modelled, in any file.
- **Animation timers.** Scene and message timers and the throw, fall and shake animations are reduced to the ticks at which their state changes: ThrowLanded, FlashTick, BallLanded and ShakeTick. The boss's screen shake and glow are left out.
- **Input polling.** Keys, mouse position and wheel become method parameters. So do BattleActionButton clicks: a click on button j is `ClickButton(j)`, and button rectangles are reduced to their rows' top edges.
- **Randomness.** `random.*` draws are parameters with the source's ranges: the party picks and hp draws, the boss's roll and choice, the enemy's move, and the damage numbers.
- **Scene control.** `scene_manager.change_scene` is reduced to a returned flag (OnSpace), or is not modelled.
- **Persistence.** GameManager save, load, to_dict and from_dict are file and JSON I/O. `Map`, `Player` and `EnemyTrainer` are not part of this model.
- **Game-manager reductions.** A map is reduced to its spawn position, and the player to its position. The trainer and NPC tables and `check_collision` are left out.
- **GameManagerModel.GameManager.TrySwitchMap:** does not model that after a switch the player's position object is the same object as the stored spawn. The source stores a copy but then assigns the stored object itself, so later moves also move the stored entry. Positions are values here.
- **Float geometry.** `Position.distance_to`, the NPC and chest interaction ranges (`check_interaction_range`), `_point_to_line_distance`, player movement and grid snapping are left out. Floats elsewhere are exact reals.
- **Boss damage scaling.** `int(damage * attack_boost)`, `int(damage * 1.2 * defense_boost)` and the scene's `calculate_damage` call are left out. That call passes six arguments to a four-parameter function. The damage after scaling is a non-negative parameter.
- **Chest monster rewards.** `Bag.add_monster` is not defined in the bag. OpenChest models the call as a failure that happens after the items were merged: the chest stays closed and the outcome is MissingAddMonster.
- **Lower-casing.** `Util.Lower` folds only the ASCII letters A–Z.
- **Panel reuse in the scenes.** The item and switch panels are modelled as classes of their own. The scenes record the items they would show and take the chosen index as a parameter. The selected item is an index into `bag.items`, not a shared dictionary.
- **Trainer battle stat panels.** The stat panels `update` creates are left out, as is the scale animation.
- **Switching in the wild battle.** The wild battle's switch action only shows its "coming soon" message, as in the source.
- **simplify_path's threshold.** The `threshold` argument is unused in the source and absent here.
- **Rectangle collision.** `Rect.colliderect` follows pygame's rule: a shared area of positive size, with a negative width or height normalised first. `Rect.collidepoint` uses the edges as given, so a rectangle with a negative side contains no point.
- **Uncaught exceptions.** Some steps raise in the source: the TypeError of `None['name']` in the scenes, and the KeyError of a missing price in `_buy_item`. There the method returns `raised`, with the fields as the source leaves them at the raise. What the game loop does with the exception afterwards is not modelled.
- **Damage variance.** `calculate_damage`'s `random.uniform(0.85, 1.0)` is the parameter `variance`.
