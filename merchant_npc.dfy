// The shop-keeping NPC of src/entities/merchant_npc.py: its fields, the
// direction it faces (and the animation that selects), and its save-file
// dictionary. Position, sprite loading and the player-distance check are not
// modelled.
module MerchantNpc {
  import opened Util
  import opened Definition

  const DefaultName: string := "Merchant"
  const DefaultDialogue: string := "Welcome to my shop!"
  const DefaultSprite: string := "character/ow2.png"

  /** NPCType(Enum) */
  datatype NpcType = Merchant | Trader

  /** NPCType.value */
  function NpcTypeValue(t: NpcType): string
  {
    match t
    case Merchant => "merchant"
    case Trader => "trader"
  }

  /** NPCType(v): a ValueError (None here) for any other value. */
  function NpcTypeFromValue(v: string): (r: Option<NpcType>)
    ensures r.Some? ==> NpcTypeValue(r.value) == v
    ensures r.None? ==> forall t: NpcType :: NpcTypeValue(t) != v
  {
    if v == "merchant" then Some(Merchant)
    else if v == "trader" then Some(Trader)
    else None
  }

  /** The animation row `_set_direction` switches to. */
  function AnimationFor(d: Direction): (r: string)
  {
    match d
    case Right => "right"
    case Left => "left"
    case Down => "down"
    case _ => "up"
  }

  /** Every direction but NONE selects the row named after it; NONE selects "up". */
  lemma AnimationNamesDirection(d: Direction)
    ensures d != NoDirection ==> AnimationFor(d) == Lower(DirectionName(d))
    ensures d == NoDirection ==> AnimationFor(d) == "up"
  {
    match d {
      case Up => assert Lower("UP") == "up";
      case Down => assert Lower("DOWN") == "down";
      case Left => assert Lower("LEFT") == "left";
      case Right => assert Lower("RIGHT") == "right";
      case NoDirection =>
    }
  }

  /** The "facing" entry of a dictionary: a Direction name, or a Direction member itself. */
  datatype FacingValue = FacingName(name: string) | FacingMember(d: Direction)

  /** An NPC's save-file dictionary, without its position; each key may be missing. */
  datatype NpcDict = NpcDict(
    name: Option<string>,
    npcType: Option<string>,
    shopInventory: Option<seq<Item>>,
    dialogue: Option<string>,
    facing: Option<FacingValue>,
    spritePath: Option<string>)

  /** The fields of an NPC. */
  datatype NpcRecord = NpcRecord(
    name: string,
    npcType: NpcType,
    shopInventory: seq<Item>,
    dialogue: string,
    direction: Direction,
    spritePath: string)

  /** `shop_inventory if shop_inventory else []` */
  function InventoryOrEmpty(inv: Option<seq<Item>>): (r: seq<Item>)
    ensures inv.Some? ==> r == inv.value
    ensures inv.None? ==> r == []
  {
    match inv
    case Some(s) => if |s| > 0 then s else []
    case None => []
  }

  /** The facing NPC.from_dict reads: DOWN when missing; an unknown name is a KeyError (None). */
  function FacingFromDict(f: Option<FacingValue>): (r: Option<Direction>)
    ensures f.None? ==> r == Some(Down)
    ensures f.Some? && f.value.FacingMember? ==> r == Some(f.value.d)
    ensures f.Some? && f.value.FacingName? ==> r == DirectionByName(f.value.name)
  {
    match f
    case None => Some(Down)
    case Some(FacingName(n)) => DirectionByName(n)
    case Some(FacingMember(d)) => Some(d)
  }

  /** NPC.from_dict's outcome: the record it builds, or None when it raises. */
  function RecordFromDict(d: NpcDict): (r: Option<NpcRecord>)
    ensures r.None? <==>
              NpcTypeFromValue(match d.npcType case Some(v) => v case None => "merchant").None?
              || FacingFromDict(d.facing).None?
    ensures r.Some? ==>
              && r.value.name == (match d.name case Some(n) => n case None => DefaultName)
              && r.value.dialogue == (match d.dialogue case Some(s) => s case None => DefaultDialogue)
              && r.value.spritePath == (match d.spritePath case Some(s) => s case None => DefaultSprite)
              && r.value.shopInventory == InventoryOrEmpty(d.shopInventory)
              && Some(r.value.npcType) == NpcTypeFromValue(match d.npcType case Some(v) => v case None => "merchant")
              && Some(r.value.direction) == FacingFromDict(d.facing)
  {
    var t := NpcTypeFromValue(match d.npcType case Some(v) => v case None => "merchant");
    var f := FacingFromDict(d.facing);
    if t.None? || f.None? then None
    else Some(NpcRecord(match d.name case Some(n) => n case None => DefaultName,
                        t.value,
                        InventoryOrEmpty(d.shopInventory),
                        match d.dialogue case Some(s) => s case None => DefaultDialogue,
                        f.value,
                        match d.spritePath case Some(s) => s case None => DefaultSprite))
  }

  /** A dictionary with no keys loads the default merchant. */
  lemma EmptyDictLoadsDefaults()
    ensures RecordFromDict(NpcDict(None, None, None, None, None, None))
         == Some(NpcRecord(DefaultName, Merchant, [], DefaultDialogue, Down, DefaultSprite))
  {
  }

  class Npc {
    var name: string
    var npcType: NpcType
    var shopInventory: seq<Item>
    var dialogue: string
    var direction: Direction
    var animation: string
    var spritePath: string

    function Record(): NpcRecord
      reads this
    {
      NpcRecord(name, npcType, shopInventory, dialogue, direction, spritePath)
    }

    /** NPC(x, y, game_manager, name="Merchant", npc_type=MERCHANT, shop_inventory=None,
        dialogue="Welcome to my shop!", facing=DOWN, sprite_path="character/ow2.png") */
    constructor(name: string := DefaultName, npcType: NpcType := Merchant,
                shopInventory: Option<seq<Item>> := None, dialogue: string := DefaultDialogue,
                facing: Direction := Down, spritePath: string := DefaultSprite)
      ensures Record() == NpcRecord(name, npcType, InventoryOrEmpty(shopInventory), dialogue, facing, spritePath)
      ensures animation == AnimationFor(facing)
    {
      this.name := name;
      this.npcType := npcType;
      this.shopInventory := InventoryOrEmpty(shopInventory);
      this.dialogue := dialogue;
      this.spritePath := spritePath;
      new;
      SetDirection(facing);
    }

    /** _set_direction */
    method SetDirection(d: Direction)
      modifies this
      ensures direction == d && animation == AnimationFor(d)
      ensures name == old(name) && npcType == old(npcType) && shopInventory == old(shopInventory)
      ensures dialogue == old(dialogue) && spritePath == old(spritePath)
    {
      direction := d;
      if d == Right {
        animation := "right";
      } else if d == Left {
        animation := "left";
      } else if d == Down {
        animation := "down";
      } else {
        animation := "up";
      }
    }

    /** NPC.from_dict: None where the source raises. */
    static method FromDict(d: NpcDict) returns (npc: Option<Npc>)
      ensures npc.None? <==> RecordFromDict(d).None?
      ensures npc.Some? ==>
                && fresh(npc.value)
                && Some(npc.value.Record()) == RecordFromDict(d)
                && npc.value.animation == AnimationFor(npc.value.direction)
    {
      var t := NpcTypeFromValue(match d.npcType case Some(v) => v case None => "merchant");
      var f := FacingFromDict(d.facing);
      if t.None? || f.None? {
        return None;
      }
      var n := new Npc(match d.name case Some(s) => s case None => DefaultName,
                       t.value, d.shopInventory,
                       match d.dialogue case Some(s) => s case None => DefaultDialogue,
                       f.value,
                       match d.spritePath case Some(s) => s case None => DefaultSprite);
      return Some(n);
    }

    /** NPC.to_dict: the type as its value, the facing as its name, and no sprite path,
        so a reloaded NPC has every field back but draws with the default sprite. */
    function ToDict(): (d: NpcDict)
      reads this
      ensures d.npcType == Some(NpcTypeValue(npcType))
      ensures d.facing == Some(FacingName(DirectionName(direction)))
      ensures d.spritePath.None?
      ensures RecordFromDict(d) == Some(Record().(spritePath := DefaultSprite))
    {
      NpcDict(Some(name), Some(NpcTypeValue(npcType)), Some(shopInventory), Some(dialogue),
              Some(FacingName(DirectionName(direction))), None)
    }
  }
}
