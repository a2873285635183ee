/** The turn engine of the dungeon crawler (bettercode.py:282-570): level
    set-up, command dispatch, room entry, one round of combat and the step
    out of a fight.  Console input becomes parameters (the decoded command,
    the y/n answer at a locked chest, the combat action); every random roll
    comes from the game's `Rng`. */
module Engine {
  import opened Util
  import opened Oracle
  import opened Creatures
  import opened Rooms
  import opened Dungeons

  // ---------------------------------------------------------------------
  // Directions and the step out of a fight
  // ---------------------------------------------------------------------

  /** The four movement keys. */
  datatype Dir = W | S | A | D

  /** Row and column offset of a direction: w up, s down, a left, d right. */
  function Delta(d: Dir): (offset: (int, int)) {
    match d
    case W => (-1, 0)
    case S => (1, 0)
    case A => (0, -1)
    case D => (0, 1)
  }

  /** The order in which `safe_step_out` tries the directions. */
  const StepOutOrder: seq<Dir> := [W, S, A, D]

  function Neighbour(c: Cell, d: Dir): (next: Cell) {
    (c.0 + Delta(d).0, c.1 + Delta(d).1)
  }

  predicate Adjacent(a: Cell, b: Cell) {
    (a.0 == b.0 && (a.1 - b.1 == 1 || b.1 - a.1 == 1)) ||
    (a.1 == b.1 && (a.0 - b.0 == 1 || b.0 - a.0 == 1))
  }

  /** The first neighbour of `c`, trying `dirs` in order, that lies inside
      the n-by-m grid: it is adjacent to `c`, and every direction tried
      before it leads off the grid. */
  function FirstInBounds(n: int, m: int, c: Cell, dirs: seq<Dir>): (r: Option<Cell>)
    ensures r.Some? ==> InGrid(n, m, r.value) && Adjacent(c, r.value)
    ensures r.Some? <==> exists k :: 0 <= k < |dirs| && InGrid(n, m, Neighbour(c, dirs[k]))
    ensures r.Some? ==>
      exists k :: (0 <= k < |dirs| && r.value == Neighbour(c, dirs[k]) &&
                   forall k' :: 0 <= k' < k ==> !InGrid(n, m, Neighbour(c, dirs[k'])))
  {
    if dirs == [] then None
    else if InGrid(n, m, Neighbour(c, dirs[0])) then Some(Neighbour(c, dirs[0]))
    else
      var r := FirstInBounds(n, m, c, dirs[1..]);
      assert forall k :: 1 <= k < |dirs| ==> dirs[k] == dirs[1..][k - 1];
      r
  }

  /** On any grid with more than one cell, a cell of the grid always has a
      neighbour to step out to. */
  lemma {:induction false} StepOutExists(n: int, m: int, c: Cell)
    requires InGrid(n, m, c) && (2 <= n || 2 <= m)
    ensures FirstInBounds(n, m, c, StepOutOrder).Some?
  {
    if 2 <= n {
      if c.0 >= 1 {
        assert InGrid(n, m, Neighbour(c, StepOutOrder[0]));
      } else {
        assert InGrid(n, m, Neighbour(c, StepOutOrder[1]));
      }
    } else if c.1 >= 1 {
      assert InGrid(n, m, Neighbour(c, StepOutOrder[2]));
    } else {
      assert InGrid(n, m, Neighbour(c, StepOutOrder[3]));
    }
  }

  // ---------------------------------------------------------------------
  // Fleeing
  // ---------------------------------------------------------------------

  /** Flee chance in percent: `clamp(50 + 5*(atk - enemy atk), 10, 90)`.
      It is never below 10 or above 90, grows with the player's attack, and
      is exactly the linear formula between the two bounds. */
  function FleeChance(playerAtk: int, enemyAtk: int): (c: int)
    ensures 10 <= c <= 90
    ensures -8 <= playerAtk - enemyAtk <= 8 ==> c == 50 + 5 * (playerAtk - enemyAtk)
    ensures playerAtk - enemyAtk >= 8 ==> c == 90
    ensures playerAtk - enemyAtk <= -8 ==> c == 10
  {
    Clamp(50 + (playerAtk - enemyAtk) * 5, 10, 90)
  }

  /** A roll of 1..100 escapes when it is at most the flee chance: a roll of
      10 or less always escapes, a roll above 90 never does, and a stronger
      attack never makes escaping harder. */
  lemma FleeRollBounds(roll: int, playerAtk: int, playerAtk2: int, enemyAtk: int)
    requires 1 <= roll <= 100 && playerAtk <= playerAtk2
    ensures roll <= 10 ==> roll <= FleeChance(playerAtk, enemyAtk)
    ensures roll > 90 ==> roll > FleeChance(playerAtk, enemyAtk)
    ensures FleeChance(playerAtk, enemyAtk) <= FleeChance(playerAtk2, enemyAtk)
  {
  }

  // ---------------------------------------------------------------------
  // Commands, actions and outcomes
  // ---------------------------------------------------------------------

  /** The index argument of `use N` / `equip N`: absent, not an integer, or
      an integer. */
  datatype Arg = Missing | Malformed | Index(i: int)

  /** A decoded command line. */
  datatype Command =
    | Quit
    | ShowMap
    | ShowInventory
    | Use(arg: Arg)
    | EquipCmd(arg: Arg)
    | Move(dir: Dir)
    | Unrecognised

  /** A decoded combat action (`hit`, `h` and the empty line are `Hit`). */
  datatype Action =
    | Hit
    | UseItem(arg: Arg)
    | EquipItem(arg: Arg)
    | Flee
    | Stats
    | Inventory
    | UnknownAction

  /** What a command leads to: play goes on, the player quit, the player
      died (the game-over prompt), or a fight begins in the current room. */
  datatype Outcome = Continue | Stopped | Dead | Fight

  /** What a combat round leads to: another round, the enemy beaten, a
      successful escape, the player's death, or the fight loop ending
      without a death (the player's hp dropped to 0 by a negative heal). */
  datatype RoundOutcome = Ongoing | Won | Fled | Died | Ended

  /** The starter potion of a new level read off the stream at `pos`: when
      the 0..99 draw is below 70, one `Зелье` healing the next 6..18 draw.
      Returns the items to append and the stream position after the
      draws. */
  function StarterPotion(vals: seq<nat>, pos: nat): (r: (seq<Item>, nat))
    ensures |r.0| == 1 <==> Draw(vals, pos, 0, 99) < 70
    ensures |r.0| <= 1 && r.1 == pos + 1 + |r.0|
    ensures |r.0| == 1 ==> r.0[0].Consumable? && r.0[0].heal == Draw(vals, pos + 1, 6, 18) && 6 <= r.0[0].heal <= 18
  {
    if Draw(vals, pos, 0, 99) < 70 then
      var heal := Draw(vals, pos + 1, 6, 18);
      ([Consumable("Зелье", "Восстанавливает " + NatToString(heal) + " HP", heal)], pos + 2)
    else
      ([], pos + 1)
  }


  class Game {
    var level: int
    var dungeon: Dungeon
    const player: Player
    const rng: Rng

    /** The player stands inside the current grid, whose difficulty is the
        level number. */
    ghost predicate Valid()
      reads this, player, dungeon
    {
      1 <= level && dungeon.Valid() && dungeon.difficulty == level &&
      player.Valid() && InGrid(dungeon.n, dungeon.m, (player.x, player.y))
    }

    /** The state right after `init_new_level(lv)`: a freshly generated grid
        of 5..8 by 5..8 cells at difficulty `lv`, the player at its centre,
        the centre room empty, hp topped up by `max(5, 10 - lv)` (within
        `[0, hpMax]`), the starter potion `StarterPotion` reads off the
        stream appended, and keys, equipment and experience kept.  The grid's
        size is the next two draws, its generation starts right after them
        (`drawnFrom`; the dungeon's constructor ties its portal and key cells
        to `GenerationDraws` from there), and the potion's draws start where
        generation ended (`drawnTo`). */
    twostate predicate LevelStarted(lv: int)
      reads this, player, dungeon, dungeon.grid, rng
    {
      level == lv && fresh(dungeon) && fresh(dungeon.grid) &&
      dungeon.Valid() && dungeon.Generated() && dungeon.difficulty == lv &&
      5 <= dungeon.n <= 8 && 5 <= dungeon.m <= 8 &&
      (player.x, player.y) == Centre(dungeon.n, dungeon.m) &&
      dungeon.grid[dungeon.n / 2, dungeon.m / 2] == NewRoom(Empty) &&
      player.hp == Clamp(old(player.hp) + Max(5, 10 - lv), 0, player.hpMax) &&
      player.keys == old(player.keys) && player.weapon == old(player.weapon) &&
      player.armor == old(player.armor) && player.exp == old(player.exp) &&
      dungeon.drawnFrom == old(rng.pos) + 2 &&
      dungeon.n == Draw(rng.vals, dungeon.drawnFrom - 2, 5, 8) && dungeon.m == Draw(rng.vals, dungeon.drawnFrom - 1, 5, 8) &&
      var s := StarterPotion(rng.vals, dungeon.drawnTo);
      player.inventory == old(player.inventory) + s.0 && rng.pos == s.1
    }

    /** `Game()`: level 1, a fresh player (100 hp, attack 2, defence 0) at the
        centre of a fresh level, possibly holding a starter potion. */
    constructor (rng: Rng)
      modifies rng
      ensures Valid() && level == 1 && this.rng == rng
      ensures fresh(dungeon) && fresh(dungeon.grid) && fresh(player)
      ensures dungeon.Generated() && 5 <= dungeon.n <= 8 && 5 <= dungeon.m <= 8
      ensures (player.x, player.y) == Centre(dungeon.n, dungeon.m)
      ensures dungeon.grid[dungeon.n / 2, dungeon.m / 2] == NewRoom(Empty)
      ensures player.hp == 100 == player.hpMax && player.atkBase == 2 && player.defBase == 0
      ensures player.weapon == None && player.armor == None
      ensures player.keys == 0 && player.exp == 0
      ensures dungeon.n == Draw(rng.vals, old(rng.pos), 5, 8) && dungeon.m == Draw(rng.vals, old(rng.pos) + 1, 5, 8)
      ensures dungeon.drawnFrom == old(rng.pos) + 2
      ensures var s := StarterPotion(rng.vals, dungeon.drawnTo);
        player.inventory == s.0 && rng.pos == s.1
    {
      level := 1;
      this.rng := rng;
      var d := RollDungeon(rng, 1);
      var p := new Player.Spawn(d.n / 2, d.m / 2);
      StartLevel(d, p, rng);
      dungeon, player := d, p;
    }

    /** `init_new_level` for an existing player: new grid, player moved to its
        centre and partly healed, centre emptied, maybe a starter potion. */
    method InitNewLevel()
      requires 1 <= level && player.Valid()
      modifies this, player`x, player`y, player`hp, player`inventory, rng
      ensures Valid() && LevelStarted(old(level))
    {
      var d := RollDungeon(rng, level);
      Arrive(d);
    }

    /** The second half of `init_new_level` for an existing player, once the
        grid `d` is built: the player is moved to its centre and partly healed,
        then the level starts. */
    method Arrive(d: Dungeon)
      requires 1 <= level && player.Valid() && d.Valid() && d.Generated() && d.difficulty == level
      requires 5 <= d.n && 5 <= d.m
      modifies this`dungeon, player`x, player`y, player`hp, player`inventory, d.grid, rng
      ensures Valid() && dungeon == d && d.Generated()
      ensures (player.x, player.y) == Centre(d.n, d.m)
      ensures d.grid[d.n / 2, d.m / 2] == NewRoom(Empty)
      ensures forall i, j :: 0 <= i < d.n && 0 <= j < d.m && (i, j) != Centre(d.n, d.m) ==>
        d.grid[i, j] == old(d.grid[i, j])
      ensures player.hp == Clamp(old(player.hp) + Max(5, 10 - level), 0, player.hpMax)
      ensures var s := StarterPotion(rng.vals, old(rng.pos));
        player.inventory == old(player.inventory) + s.0 && rng.pos == s.1
    {
      dungeon := d;
      var sx, sy := d.n / 2, d.m / 2;
      player.x, player.y := sx, sy;
      player.hp := Clamp(player.hp + Max(5, 10 - level), 0, player.hpMax);
      StartLevel(d, player, rng);
    }

    /** Items appended to the inventory one by one, in order. */
    method TakeLoot(items: seq<Item>)
      modifies player`inventory
      ensures player.inventory == old(player.inventory) + items
    {
      for k := 0 to |items|
        invariant player.inventory == old(player.inventory) + items[..k]
      {
        player.AddItem(items[k]);
      }
    }

    /** What `use N` does to the player: with an integer argument exactly what
        `use_consumable` does, otherwise nothing. */
    twostate predicate UseDone(arg: Arg)
      reads player
    {
      if arg.Index? && 0 <= arg.i < |old(player.inventory)| && old(player.inventory)[arg.i].Consumable? then
        player.hp == Clamp(old(player.hp) + old(player.inventory)[arg.i].heal, 0, player.hpMax) &&
        player.inventory == RemoveAt(old(player.inventory), arg.i)
      else
        player.hp == old(player.hp) && player.inventory == old(player.inventory)
    }

    /** What `equip N` does to the player: an index inside the inventory pops
        that item and equips it (a weapon fills only the weapon slot, an armour
        only the armour slot, a consumable is simply lost); anything else
        changes nothing. */
    twostate predicate EquipDone(arg: Arg)
      reads player
    {
      if arg.Index? && 0 <= arg.i < |old(player.inventory)| then
        var item := old(player.inventory)[arg.i];
        player.inventory == RemoveAt(old(player.inventory), arg.i) &&
        player.weapon == (if item.Weapon? then Some(item) else old(player.weapon)) &&
        player.armor == (if item.Armor? then Some(item) else old(player.armor))
      else
        player.inventory == old(player.inventory) &&
        player.weapon == old(player.weapon) && player.armor == old(player.armor)
    }

    /** `use N`, from the command line or in a fight. */
    method UseCommand(arg: Arg)
      requires player.Valid()
      modifies player`hp, player`inventory
      ensures player.Valid() && UseDone(arg)
    {
      if arg.Index? {
        var res := player.UseConsumable(arg.i);
      }
    }

    /** `equip N`, from the command line or in a fight: the index is checked,
        then the item is popped before it is equipped. */
    method EquipCommand(arg: Arg)
      requires player.Valid()
      modifies player`inventory, player`weapon, player`armor
      ensures player.Valid() && EquipDone(arg)
    {
      if arg.Index? {
        var idx := arg.i;
        if 0 <= idx < |player.inventory| {
          var item := player.inventory[idx];
          player.inventory := RemoveAt(player.inventory, idx);
          var res := player.Equip(item);
        }
      }
    }

    /** The effect of entering room `r` at (x, y), as `Enter` resolves it: a
        switched-on portal starts the next level; otherwise the player stays at
        (x, y), the room becomes `Enter`'s room, keys and inventory change as
        `Enter` says, a trap costs its damage reduced by defence, a key
        switches the portal cell on, and no other cell changes.  A lethal trap
        ends in `Dead`; a living enemy with a living player in `Fight`. */
    twostate predicate RoomEntered(x: int, y: int, r: Room, unlock: bool, out: Outcome)
      reads this, player, dungeon, dungeon.grid, rng
    {
      var e := Enter(r, old(player.keys), unlock);
      if e.next == NextLevel then
        out == Continue && LevelStarted(old(level) + 1)
      else
        level == old(level) && dungeon == old(dungeon) && rng.pos == old(rng.pos) &&
        dungeon.Valid() && InGrid(dungeon.n, dungeon.m, (x, y)) &&
        player.x == x && player.y == y &&
        player.keys == e.keys &&
        player.inventory == old(player.inventory) + e.gained &&
        player.hp == old(player.hp) - (if e.trap.Some? then Mitigated(e.trap.value, player.DefenseValue()) else 0) &&
        player.weapon == old(player.weapon) && player.armor == old(player.armor) &&
        player.exp == old(player.exp) &&
        dungeon.grid[x, y] ==
          (if e.enablePortal && dungeon.portalPos == (x, y) then e.room.(portalEnabled := true) else e.room) &&
        (var p := dungeon.portalPos;
         (x, y) != p ==>
           dungeon.grid[p.0, p.1] ==
             (if e.enablePortal then old(dungeon.grid[p.0, p.1]).(portalEnabled := true)
              else old(dungeon.grid[p.0, p.1]))) &&
        (forall i, j :: 0 <= i < dungeon.n && 0 <= j < dungeon.m && (i, j) != (x, y) && (i, j) != dungeon.portalPos ==>
           dungeon.grid[i, j] == old(dungeon.grid[i, j])) &&
        out == (if e.next == Encounter then
                  (if old(r.enemy.value.hp) > 0 && player.hp > 0 then Fight else Continue)
                else if e.trap.Some? && player.hp <= 0 then Dead
                else Continue)
    }

    /** `handle_room` for the room under the player, with `unlock` the answer
        to the locked-chest question (asked only when the player holds a
        key).  A fight is not run here: `Fight` hands over to `CombatRound`. */
    method HandleRoom(unlock: bool, ghost x: int, ghost y: int, ghost r: Room) returns (out: Outcome)
      requires Valid() && player.x == x && player.y == y && dungeon.grid[x, y] == r
      modifies this, player, dungeon.grid, rng
      ensures Valid()
      ensures RoomEntered(x, y, r, unlock, out)
    {
      var room := dungeon.grid[player.x, player.y];
      match room.kind
      case Portal => out := EnterPortal();
      case Key => out := EnterKey();
      case Empty => out := Continue;
      case Chest => out := EnterChest(unlock);
      case Trap => out := EnterTrap();
      case Monster => out := EnterMonster();
    }

    /** A portal: switched on, it advances the level; otherwise nothing. */
    method EnterPortal() returns (out: Outcome)
      requires Valid() && dungeon.grid[player.x, player.y].kind == Portal
      modifies this, player`x, player`y, player`hp, player`inventory, rng
      ensures Valid()
      ensures RoomEntered(old(player.x), old(player.y), old(dungeon.grid[player.x, player.y]), false, out)
    {
      if dungeon.grid[player.x, player.y].portalEnabled {
        level := level + 1;
        InitNewLevel();
      }
      out := Continue;
    }

    /** A key: one more key, the room emptied, the portal switched on. */
    method EnterKey() returns (out: Outcome)
      requires Valid() && dungeon.grid[player.x, player.y].kind == Key
      modifies player`keys, dungeon.grid
      ensures Valid()
      ensures RoomEntered(old(player.x), old(player.y), old(dungeon.grid[player.x, player.y]), false, out)
    {
      var x, y := player.x, player.y;
      player.keys := player.keys + 1;
      dungeon.grid[x, y] := dungeon.grid[x, y].(kind := Empty);
      dungeon.RevealPortalIfKey();
      out := Continue;
    }

    /** A chest: an unlocked one, or a locked one the player opens with a key,
        hands over its loot in order and is emptied; otherwise nothing. */
    method EnterChest(unlock: bool) returns (out: Outcome)
      requires Valid() && dungeon.grid[player.x, player.y].kind == Chest
      modifies player`keys, player`inventory, dungeon.grid
      ensures Valid()
      ensures RoomEntered(old(player.x), old(player.y), old(dungeon.grid[player.x, player.y]), unlock, out)
    {
      var x, y := player.x, player.y;
      var room := dungeon.grid[x, y];
      if room.chestLocked {
        if player.keys > 0 && unlock {
          player.keys := player.keys - 1;
          TakeLoot(room.chestContents);
          dungeon.grid[x, y] := room.(kind := Empty, chestContents := []);
        }
      } else if room.chestContents == [] {
        dungeon.grid[x, y] := room.(kind := Empty);
      } else {
        TakeLoot(room.chestContents);
        dungeon.grid[x, y] := room.(kind := Empty, chestContents := []);
      }
      out := Continue;
    }

    /** A trap: its damage reduced by defence, then the room is emptied; a
        lethal trap ends the run. */
    method EnterTrap() returns (out: Outcome)
      requires Valid() && dungeon.grid[player.x, player.y].kind == Trap
      modifies player`hp, dungeon.grid
      ensures Valid()
      ensures RoomEntered(old(player.x), old(player.y), old(dungeon.grid[player.x, player.y]), false, out)
    {
      var x, y := player.x, player.y;
      var room := dungeon.grid[x, y];
      var dealt := player.TakeDamage(room.trapDamage);
      dungeon.grid[x, y] := room.(kind := Empty);
      out := if player.IsAlive() then Continue else Dead;
    }

    /** A monster room: without an enemy it is emptied; with one, a fight
        starts if both sides are alive. */
    method EnterMonster() returns (out: Outcome)
      requires Valid() && dungeon.grid[player.x, player.y].kind == Monster
      modifies dungeon.grid
      ensures Valid()
      ensures RoomEntered(old(player.x), old(player.y), old(dungeon.grid[player.x, player.y]), false, out)
    {
      var x, y := player.x, player.y;
      var room := dungeon.grid[x, y];
      if room.enemy.None? {
        dungeon.grid[x, y] := room.(kind := Empty);
        out := Continue;
      } else {
        out := if room.enemy.value.IsAlive() && player.IsAlive() then Fight else Continue;
      }
    }

    // -------------------------------------------------------------------
    // Commands
    // -------------------------------------------------------------------

    /** `step` for a decoded command, with `unlock` the answer given if a
        locked chest asks for a key.  Quit stops; map, inv and an unknown
        command change nothing; `use`/`equip` act on the inventory; a move
        off the grid changes nothing, and a move inside it walks into the
        neighbouring room, marks it explored and enters it. */
    method Step(cmd: Command, unlock: bool) returns (out: Outcome)
      requires Valid()
      modifies this, player, dungeon.grid, rng
      ensures Valid()
      ensures cmd == Quit ==> out == Stopped && unchanged(this, player, rng) && unchanged(dungeon.grid)
      ensures cmd in {ShowMap, ShowInventory, Unrecognised} ==>
        out == Continue && unchanged(this, player, rng) && unchanged(dungeon.grid)
      ensures cmd.Use? ==>
        out == Continue && UseDone(cmd.arg) && unchanged(this, rng) && unchanged(dungeon.grid) &&
        player.weapon == old(player.weapon) && player.armor == old(player.armor) &&
        player.x == old(player.x) && player.y == old(player.y) && player.keys == old(player.keys) &&
        player.exp == old(player.exp)
      ensures cmd.EquipCmd? ==>
        out == Continue && EquipDone(cmd.arg) && unchanged(this, rng) && unchanged(dungeon.grid) &&
        player.hp == old(player.hp) &&
        player.x == old(player.x) && player.y == old(player.y) && player.keys == old(player.keys) &&
        player.exp == old(player.exp)
      ensures cmd.Move? ==>
        var t := Neighbour((old(player.x), old(player.y)), cmd.dir);
        if InGrid(old(dungeon.n), old(dungeon.m), t) then
          RoomEntered(t.0, t.1, old(dungeon.grid[t.0, t.1]).(explored := true), unlock, out)
        else
          out == Continue && unchanged(this, player, rng) && unchanged(dungeon.grid)
    {
      match cmd
      case Quit => out := Stopped;
      case ShowMap => out := Continue;
      case ShowInventory => out := Continue;
      case Unrecognised => out := Continue;
      case Use(arg) =>
        UseCommand(arg);
        out := Continue;
      case EquipCmd(arg) =>
        EquipCommand(arg);
        out := Continue;
      case Move(dir) =>
        var t := Neighbour((player.x, player.y), dir);
        if InGrid(dungeon.n, dungeon.m, t) {
          out := MoveInto(t.0, t.1, unlock);
        } else {
          out := Continue;
        }
    }

    /** The in-bounds half of a move: the player is placed on (x, y), that
        room is marked explored, and it is entered. */
    method MoveInto(x: int, y: int, unlock: bool) returns (out: Outcome)
      requires Valid() && InGrid(dungeon.n, dungeon.m, (x, y))
      modifies this, player, dungeon.grid, rng
      ensures Valid()
      ensures RoomEntered(x, y, old(dungeon.grid[x, y]).(explored := true), unlock, out)
    {
      player.x, player.y := x, y;
      dungeon.grid[x, y] := dungeon.grid[x, y].(explored := true);
      ghost var r := dungeon.grid[x, y];
      assert r == old(dungeon.grid[x, y]).(explored := true);
      out := HandleRoom(unlock, x, y, r);
    }

    // -------------------------------------------------------------------
    // One round of combat
    // -------------------------------------------------------------------

    /** No cell of the current grid changed. */
    twostate predicate GridKept()
      reads this, dungeon, dungeon.grid
    {
      dungeon == old(dungeon) && dungeon.Valid() &&
      forall i, j :: 0 <= i < dungeon.n && 0 <= j < dungeon.m ==> dungeon.grid[i, j] == old(dungeon.grid[i, j])
    }

    /** The enemy's counter-attack: the player loses the enemy's attack reduced
        by the player's defence, nothing else changes, and the round ends in
        death exactly when hp is no longer positive. */
    twostate predicate Retaliated(e: Enemy, out: RoundOutcome)
      reads this, player, e, dungeon, dungeon.grid
    {
      player.hp == old(player.hp) - Mitigated(e.atk, player.DefenseValue()) &&
      out == (if player.hp > 0 then Ongoing else Died) &&
      player.x == old(player.x) && player.y == old(player.y) &&
      player.inventory == old(player.inventory) && player.exp == old(player.exp) &&
      player.weapon == old(player.weapon) && player.armor == old(player.armor) &&
      GridKept()
    }

    /** `hit`: the enemy loses the player's attack reduced by its defence.  A
        killing blow gives its experience, appends the loot `generate_loot`
        draws when the 0..99 draw after the hit is below 50, and empties the
        room (x, y); otherwise the enemy strikes back. */
    twostate predicate HitDone(e: Enemy, x: int, y: int, out: RoundOutcome)
      reads this, player, e, dungeon, dungeon.grid, rng
    {
      e.hp == old(e.hp) - Mitigated(old(player.AttackValue()), e.defense) &&
      if e.hp <= 0 then
        out == Won && player.exp == old(player.exp) + e.exp && player.hp == old(player.hp) &&
        player.x == old(player.x) && player.y == old(player.y) &&
        player.weapon == old(player.weapon) && player.armor == old(player.armor) &&
        dungeon == old(dungeon) && dungeon.Valid() && InGrid(dungeon.n, dungeon.m, (x, y)) &&
        player.inventory ==
          (if Draw(rng.vals, old(rng.pos), 0, 99) < 50
           then old(player.inventory) + LootFromDraws(rng.vals, old(rng.pos) + 1, dungeon.difficulty).0
           else old(player.inventory)) &&
        rng.pos ==
          (if Draw(rng.vals, old(rng.pos), 0, 99) < 50
           then LootFromDraws(rng.vals, old(rng.pos) + 1, dungeon.difficulty).1
           else old(rng.pos) + 1) &&
        dungeon.grid[x, y] == old(dungeon.grid[x, y]).(enemy := None, kind := Empty) &&
        forall i, j :: 0 <= i < dungeon.n && 0 <= j < dungeon.m && (i, j) != (x, y) ==>
          dungeon.grid[i, j] == old(dungeon.grid[i, j])
      else
        Retaliated(e, out) && rng.pos == old(rng.pos)
    }

    /** `flee`: a roll of 1..100 at most `FleeChance` escapes to the first
        in-bounds neighbour in the order w, s, a, d, with nothing else
        changed; a higher roll lets the enemy strike back. */
    twostate predicate FleeDone(e: Enemy, out: RoundOutcome)
      reads this, player, e, dungeon, dungeon.grid, rng
    {
      e.hp == old(e.hp) && rng.pos == old(rng.pos) + 1 &&
      if Draw(rng.vals, old(rng.pos), 1, 100) <= FleeChance(old(player.AttackValue()), e.atk) then
        var from := (old(player.x), old(player.y));
        var f := FirstInBounds(dungeon.n, dungeon.m, from, StepOutOrder);
        out == Fled &&
        (player.x, player.y) == (if f.Some? then f.value else from) &&
        player.hp == old(player.hp) && player.inventory == old(player.inventory) &&
        player.exp == old(player.exp) &&
        player.weapon == old(player.weapon) && player.armor == old(player.armor) &&
        GridKept()
      else
        Retaliated(e, out)
    }

    /** One pass of the fight loop in room (x, y) against `e`, for the chosen
        action.  `use` and `equip` act as outside a fight and let the loop
        go on while the player lives; `stats`, `inv` and an unknown action
        change nothing. */
    twostate predicate RoundDone(e: Enemy, x: int, y: int, action: Action, out: RoundOutcome)
      reads this, player, e, dungeon, dungeon.grid, rng
    {
      match action
      case Hit => HitDone(e, x, y, out)
      case Flee => FleeDone(e, out)
      case UseItem(arg) =>
        UseDone(arg) && e.hp == old(e.hp) && rng.pos == old(rng.pos) && out == (if player.hp > 0 then Ongoing else Ended) &&
        player.x == old(player.x) && player.y == old(player.y) && player.exp == old(player.exp) &&
        player.weapon == old(player.weapon) && player.armor == old(player.armor) && GridKept()
      case EquipItem(arg) =>
        EquipDone(arg) && e.hp == old(e.hp) && out == Ongoing && rng.pos == old(rng.pos) &&
        player.hp == old(player.hp) &&
        player.x == old(player.x) && player.y == old(player.y) && player.exp == old(player.exp) &&
        GridKept()
      case _ =>
        out == Ongoing && e.hp == old(e.hp) && rng.pos == old(rng.pos) &&
        player.hp == old(player.hp) && player.inventory == old(player.inventory) &&
        player.x == old(player.x) && player.y == old(player.y) && player.exp == old(player.exp) &&
        player.weapon == old(player.weapon) && player.armor == old(player.armor) && GridKept()
    }

    /** One round of the fight in the player's room, whose enemy is `e`,
        while both sides are alive. */
    method CombatRound(e: Enemy, action: Action) returns (out: RoundOutcome)
      requires Valid() && e.hp > 0 && player.hp > 0
      requires dungeon.grid[player.x, player.y].kind == Monster
      requires dungeon.grid[player.x, player.y].enemy == Some(e)
      modifies player, e, dungeon.grid, rng
      ensures Valid()
      ensures player.keys == old(player.keys)
      ensures RoundDone(e, old(player.x), old(player.y), action, out)
    {
      match action
      case Hit => out := HitRound(e);
      case Flee => out := FleeRound(e);
      case UseItem(arg) =>
        UseCommand(arg);
        out := if player.hp > 0 then Ongoing else Ended;
      case EquipItem(arg) =>
        EquipCommand(arg);
        out := Ongoing;
      case Stats => out := Ongoing;
      case Inventory => out := Ongoing;
      case UnknownAction => out := Ongoing;
    }

    /** The enemy strikes back. */
    method Retaliate(e: Enemy) returns (out: RoundOutcome)
      requires Valid()
      modifies player`hp
      ensures Valid() && Retaliated(e, out)
    {
      var taken := player.TakeDamage(e.atk);
      out := if player.IsAlive() then Ongoing else Died;
    }

    method HitRound(e: Enemy) returns (out: RoundOutcome)
      requires Valid()
      requires dungeon.grid[player.x, player.y].enemy == Some(e)
      modifies player`hp, player`exp, player`inventory, e, dungeon.grid, rng
      ensures Valid() && HitDone(e, old(player.x), old(player.y), out)
    {
      var dealt := e.TakeDamage(player.AttackValue());
      if e.IsAlive() {
        out := Retaliate(e);
        return;
      }
      player.exp := player.exp + e.exp;
      var drop := rng.Chance(50);
      if drop {
        var loot := dungeon.GenerateLoot(rng);
        TakeLoot(loot);
      }
      var x, y := player.x, player.y;
      dungeon.grid[x, y] := dungeon.grid[x, y].(enemy := None, kind := Empty);
      out := Won;
    }

    method FleeRound(e: Enemy) returns (out: RoundOutcome)
      requires Valid()
      modifies player`x, player`y, player`hp, rng
      ensures Valid() && FleeDone(e, out)
    {
      var roll := rng.RandInt(1, 100);
      if roll <= FleeChance(player.AttackValue(), e.atk) {
        SafeStepOut();
        out := Fled;
      } else {
        out := Retaliate(e);
      }
    }

    /** `safe_step_out`: the player moves to the first neighbouring cell, in
        the order w, s, a, d, that lies inside the grid, or stays put when
        there is none. */
    method SafeStepOut()
      requires Valid()
      modifies player`x, player`y
      ensures Valid()
      ensures var from := (old(player.x), old(player.y));
        var f := FirstInBounds(dungeon.n, dungeon.m, from, StepOutOrder);
        (player.x, player.y) == (if f.Some? then f.value else from)
    {
      var c := (player.x, player.y);
      for k := 0 to |StepOutOrder|
        invariant (player.x, player.y) == c
        invariant FirstInBounds(dungeon.n, dungeon.m, c, StepOutOrder) ==
                  FirstInBounds(dungeon.n, dungeon.m, c, StepOutOrder[k..])
      {
        var next := Neighbour(c, StepOutOrder[k]);
        if InGrid(dungeon.n, dungeon.m, next) {
          player.x, player.y := next.0, next.1;
          return;
        }
        assert StepOutOrder[k..][1..] == StepOutOrder[k + 1..];
      }
    }
  }

  /** The end of `init_new_level`: the centre cell of `d` becomes a fresh
      empty room (the portal and key cells are never the centre, so they
      stay), then with a 70% chance a starter potion healing 6..18 is added
      to the inventory of `p`. */
  method StartLevel(d: Dungeon, p: Player, rng: Rng)
    requires d.Valid() && d.Generated() && 2 <= d.n && 2 <= d.m
    modifies d.grid, p`inventory, rng
    ensures d.Generated()
    ensures d.grid[d.n / 2, d.m / 2] == NewRoom(Empty)
    ensures forall i, j :: 0 <= i < d.n && 0 <= j < d.m && (i, j) != Centre(d.n, d.m) ==>
      d.grid[i, j] == old(d.grid[i, j])
    ensures var s := StarterPotion(rng.vals, old(rng.pos));
      p.inventory == old(p.inventory) + s.0 && rng.pos == s.1
  {
    var sx, sy := d.n / 2, d.m / 2;
    d.grid[sx, sy] := NewRoom(Empty);
    var starter := rng.Chance(70);
    if starter {
      var heal := rng.RandInt(6, 18);
      var potion := Consumable("Зелье", "Восстанавливает " + NatToString(heal) + " HP", heal);
      p.AddItem(potion);
    }
  }

  /** The first half of `init_new_level`: a grid of random size 5..8 by 5..8,
      its two sizes drawn first, then generated at the given difficulty from
      the draws that follow. */
  method RollDungeon(rng: Rng, difficulty: int) returns (d: Dungeon)
    requires 0 <= difficulty
    modifies rng
    ensures fresh(d) && fresh(d.grid)
    ensures d.Valid() && d.Generated() && d.difficulty == difficulty
    ensures 5 <= d.n <= 8 && 5 <= d.m <= 8
    ensures d.n == Draw(rng.vals, old(rng.pos), 5, 8) && d.m == Draw(rng.vals, old(rng.pos) + 1, 5, 8)
    ensures d.drawnFrom == old(rng.pos) + 2 && rng.pos == d.drawnTo
  {
    var n := rng.RandInt(5, 8);
    var m := rng.RandInt(5, 8);
    d := new Dungeon(n, m, difficulty, rng);
  }
}
