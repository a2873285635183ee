/** Rooms of the dungeon grid and what happens when the player walks into
    one (bettercode.py:80-104 and the room-entry rules of `handle_room`,
    409-481). */
module Rooms {
  import opened Util
  import opened Creatures

  datatype RoomKind = Empty | Chest | Monster | Trap | Portal | Key

  /** One grid cell.  `explored` is set once the player has entered it; a
      chest holds its loot, a monster room its enemy, a trap its damage, a
      portal whether it is enabled. */
  datatype Room = Room(
    kind: RoomKind,
    seen: bool,
    explored: bool,
    chestLocked: bool,
    chestContents: seq<Item>,
    enemy: Option<Enemy>,
    trapDamage: int,
    portalEnabled: bool)

  /** `Room(kind=...)` with every other field at its default. */
  function NewRoom(kind: RoomKind): (r: Room)
    ensures r.kind == kind && !r.seen && !r.explored && !r.chestLocked && r.chestContents == []
    ensures r.enemy == None && r.trapDamage == 0 && !r.portalEnabled
  {
    Room(kind, false, false, false, [], None, 0, false)
  }

  /** A trap the map does not show: unexplored, and traps not revealed. */
  predicate HiddenTrap(room: Room, revealTraps: bool) {
    room.kind == Trap && !revealTraps && !room.explored
  }

  /** The room kind a map symbol stands for. */
  function KindOfSymbol(c: char): (k: Option<RoomKind>) {
    match c
    case '.' => Some(Empty)
    case '☐' => Some(Chest)
    case 'M' => Some(Monster)
    case '^' => Some(Trap)
    case 'O' => Some(Portal)
    case 'K' => Some(Key)
    case _ => None
  }

  /** `Room.symbol_for_map`: each kind has its own symbol, which reads back as
      that kind, except that a hidden trap is drawn as an empty room. */
  function SymbolForMap(room: Room, revealTraps: bool): (r: char)
    ensures !HiddenTrap(room, revealTraps) ==> KindOfSymbol(r) == Some(room.kind)
    ensures HiddenTrap(room, revealTraps) ==> KindOfSymbol(r) == Some(Empty)
  {
    match room.kind
    case Empty => '.'
    case Chest => '☐'
    case Monster => 'M'
    case Trap => if revealTraps || room.explored then '^' else '.'
    case Portal => 'O'
    case Key => 'K'
  }

  /** What entering a room leads to beyond the room itself. */
  datatype Next = Stay | NextLevel | Encounter

  /** The outcome of entering a room: the room afterwards, the player's key
      count afterwards, the items appended to the inventory (in order),
      whether the level's portal is switched on, the raw damage of a trap
      that fires, and whether the level ends or a fight starts. */
  datatype Entry = Entry(
    room: Room,
    keys: nat,
    gained: seq<Item>,
    enablePortal: bool,
    trap: Option<int>,
    next: Next)

  /** Room entry as `handle_room` resolves it, with `unlock` the player's
      answer to "use a key?" at a locked chest.  Every entry either leaves
      the room as it was or empties it for good; loot moves out of the chest
      rather than being copied; a key is gained only from a key room and
      spent only on a locked chest. */
  function Enter(r: Room, keys: nat, unlock: bool): (e: Entry)
    ensures e.room == r || e.room.kind == Empty
    ensures e.room == r || e.room == r.(kind := Empty) || e.room == r.(kind := Empty, chestContents := [])
    ensures e.room.explored == r.explored && e.room.seen == r.seen
    ensures e.room.portalEnabled == r.portalEnabled
    ensures e.next == NextLevel <==> r.kind == Portal && r.portalEnabled
    ensures e.next == Encounter <==> r.kind == Monster && r.enemy.Some?
    ensures e.next != Stay ==> e.room == r && e.keys == keys && e.gained == [] && e.trap == None
    ensures e.trap.Some? <==> r.kind == Trap
    ensures r.kind == Trap ==> e.trap == Some(r.trapDamage) && e.room == r.(kind := Empty)
    ensures e.enablePortal <==> r.kind == Key
    ensures e.keys == keys + 1 <==> r.kind == Key
    ensures e.keys < keys <==> r.kind == Chest && r.chestLocked && keys > 0 && unlock
    ensures e.keys == keys || e.keys == keys + 1 || e.keys == keys - 1
    ensures e.gained != [] ==>
      r.kind == Chest && e.gained == r.chestContents && e.room == r.(kind := Empty, chestContents := [])
    ensures r.kind == Chest && r.chestLocked && !(keys > 0 && unlock) ==> e.room == r && e.gained == []
    ensures r.kind == Chest && !(r.chestLocked && !(keys > 0 && unlock)) ==>
      e.gained == r.chestContents && e.room.kind == Empty && e.room.chestContents == []
    ensures r.kind in {Empty, Portal} ==> e.room == r && e.keys == keys && e.gained == [] && e.trap == None
    ensures r.kind == Key ==> e.room == r.(kind := Empty) && e.gained == [] && e.trap == None
    ensures r.kind == Monster && r.enemy.None? ==> e.room == r.(kind := Empty) && e.keys == keys && e.gained == []
  {
    match r.kind
    case Portal =>
      Entry(r, keys, [], false, None, if r.portalEnabled then NextLevel else Stay)
    case Key =>
      Entry(r.(kind := Empty), keys + 1, [], true, None, Stay)
    case Empty =>
      Entry(r, keys, [], false, None, Stay)
    case Chest =>
      if r.chestLocked then
        if keys > 0 && unlock then
          Entry(r.(kind := Empty, chestContents := []), keys - 1, r.chestContents, false, None, Stay)
        else
          Entry(r, keys, [], false, None, Stay)
      else if r.chestContents == [] then
        Entry(r.(kind := Empty), keys, [], false, None, Stay)
      else
        Entry(r.(kind := Empty, chestContents := []), keys, r.chestContents, false, None, Stay)
    case Trap =>
      Entry(r.(kind := Empty), keys, [], false, Some(r.trapDamage), Stay)
    case Monster =>
      if r.enemy.None? then Entry(r.(kind := Empty), keys, [], false, None, Stay)
      else Entry(r, keys, [], false, None, Encounter)
  }

  /** A room emptied by an entry stays inert: entering it again, with any
      key count and any answer, changes nothing and gives nothing.  So a
      trap fires exactly once and a chest yields its loot exactly once. */
  lemma ConsumedRoomIsInert(r: Room, keys: nat, unlock: bool, keys2: nat, unlock2: bool)
    requires Enter(r, keys, unlock).room != r
    ensures var again := Enter(Enter(r, keys, unlock).room, keys2, unlock2);
      again.room == Enter(r, keys, unlock).room && again.keys == keys2 &&
      again.gained == [] && again.trap == None && again.next == Stay && !again.enablePortal
  {
  }
}
