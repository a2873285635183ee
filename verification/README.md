# Dungeon crawler — a verified model

This project models the core of the console dungeon crawler in
`homework4/bettercode.py`. The player walks an n-by-m grid of rooms. A room is
empty, or it holds a chest, a monster, a trap, the level's key or the level's
portal. Picking up the key switches the portal on, and stepping into the
switched-on portal starts the next, harder level. Chests hand over loot
(locked ones cost a key). Traps fire once. Monsters are fought round by round:
hit, flee, use or equip an item.

The model is split into six modules:

- `Util` (`util.dfy`): the game's `clamp`, the damage-reduction rule, list
  removal by index, and the decimal printing used in item names.
- `Oracle` (`rng.dfy`): the random generator as an explicit stream of numbers
  with a cursor. Every `randint`, `random() < p` and weighted choice consumes
  one number, so a stream fixes the whole game. Every outcome of a draw is
  reached by some stream.
- `Creatures` (`creatures.dfy`): items as a datatype; `Enemy` and `Player` as
  classes whose methods update hit points, equipment slots, inventory and
  keys in place.
- `Rooms` (`rooms.dfy`): the room record, its map symbol, and `Enter`, the
  room-entry rules of `handle_room` as one function of the room, the key count
  and the y/n answer.
- `Dungeons` (`dungeon.dfy`): the grid (`array2<Room>`), `random_cell` with its
  bounded retry loop and row-major fallback scan, loot and enemy generation,
  and `generate_contents`. Every method that draws is proved against
  functions of the random stream: `RandomCell` against `TryDraws` and
  `ScanFrom`, `GenerateLoot` against `LootFromDraws`, `GenerateEnemy` against
  `EnemyFromDraws`, `FillCell` against `Filled` and `FillAdvance`,
  `PlaceContent` against `ContentStep`, the content loop against
  `ContentDraws`, and `GenerateContents` and the constructor against
  `GenerationDraws`, which gives the portal, key and content cells and the
  final stream position. `ClearGrid` and `RevealPortalIfKey` draw nothing and
  state the new grid directly. The rooms themselves are stated too: the
  constructor records the content cells and the rooms placed on them, in
  order (`contentCells`, `contentRooms`); each round filled its cell as
  `Filled` reads the stream, from the room the earlier rounds had left there
  (`ContentFilled`); and every cell holds the last room placed on it, or the
  portal, key or empty room it held before the content rounds
  (`HoldsAfter`, `RoomAfter`). The methods are also proved against the
  placement invariants (`Generated`): no stray portal or key, every room
  well formed, and on a grid of at least 2x2 one portal and one key on
  distinct cells, neither at the centre.
- `Engine` (`engine.dfy`): the `Game` class. It covers level set-up, command
  dispatch (`step`), room entry (`handle_room`, one method per room kind, each
  proved against `Enter`), one round of combat, and `safe_step_out`.
  Console answers become parameters: the decoded command, the y/n answer at a
  locked chest, and the combat action.

Invariants kept by every state-changing method:

- The player stands inside the grid.
- `hp <= hp_max`.
- The weapon slot holds a weapon and the armour slot holds armour.
- The dungeon's portal and key cells lie inside the grid.

Behaviour of the code worth noting, all kept in the model:

- Entering an active portal keeps the inventory in order, and then
  `init_new_level` may append a starter potion (a 70% chance,
  `homework4/bettercode.py:307-310`). `Game.LevelStarted` states exactly that:
  the old inventory with the `StarterPotion` items appended, read off the
  stream where the new grid's generation ended.
- A locked chest that is opened keeps its `chest_locked` flag. Only its kind
  becomes empty and its contents are cleared
  (`homework4/bettercode.py:437-446`).
- `generate_loot` draws from `randint(0, 100)`, which has 101 values. The
  thresholds 40 and 70 are kept on that range
  (`homework4/bettercode.py:189-190`).
- The fallback scan of `random_cell` ignores the centre exclusion
  (`homework4/bettercode.py:180-185`). On a 1x1 grid the centre is returned
  (`Dungeons.CentreReturnedOnSingleCell`), and on a one-row or one-column grid
  `generate_contents` can put the key on the centre when every random try
  misses. The game itself only builds grids of 5..8 by 5..8, where the key is
  always off the centre (`Dungeons.KeyCellDraw`).
- `equip N` pops the item before equipping it
  (`homework4/bettercode.py:389-390`). A consumable given to `equip N` is
  therefore lost, and no slot changes.

## Model

| member | source | states |
|---|---|---|
| Util.Clamp | homework4/bettercode.py:31-32 | the result lies in `[a, b]`, equals `v` exactly when `v` is already inside, and is the nearer bound otherwise; for `a > b` it is `a` |
| Util.Mitigated | homework4/bettercode.py:69-72 | damage after defence is never negative, is either 0 or `dmg - defense`, and is 0 exactly when `dmg <= defense` |
| Util.RemoveAt | homework4/bettercode.py:276 | `pop(i)` removes exactly the element at `i`: one shorter, earlier elements in place, later ones shifted up by one, the multiset loses exactly `s[i]` |
| Util.NatToString | homework4/bettercode.py:194-202 | the printed number is a non-empty string of decimal digits with no leading zero |
| Util.NatToStringRoundTrip | homework4/bettercode.py:194-202 | reading the printed digits back gives the number |
| Oracle.Draw | homework4/bettercode.py:34-35 | `roll(lo, hi)` gives a value in `[lo, hi]` |
| Oracle.DrawReachesEveryValue | homework4/bettercode.py:34-35 | every value of `[lo, hi]` is drawn by some stream, so the stream loses no outcome |
| Oracle.Rng.constructor | homework4/bettercode.py:116-118 | a seeded generator starts at the head of its stream |
| Oracle.Rng.RandInt | homework4/bettercode.py:34-35 | `random.randint(lo, hi)` is the draw at the cursor, in `[lo, hi]`, and consumes one number |
| Oracle.Rng.Chance | homework4/bettercode.py:147 | `random.random() < p` is a percent draw compared with `p`, consuming one number |
| Creatures.Enemy.constructor | homework4/bettercode.py:61-67 | an enemy carries the given name, hp, attack, defence and experience |
| Creatures.Enemy.IsAlive | homework4/bettercode.py:74-75 | an enemy is alive exactly when its hp is positive |
| Creatures.Enemy.TakeDamage | homework4/bettercode.py:69-72 | the damage taken is `max(0, dmg - defense)`, hp drops by exactly that, and hp never rises |
| Creatures.Player.Spawn | homework4/bettercode.py:223-236 | a new player has 100/100 hp, attack 2, defence 0, empty slots and inventory, no keys, level 1, no experience |
| Creatures.Player.AttackValue | homework4/bettercode.py:238-239 | attack is the base attack, plus the weapon's bonus when a weapon is equipped |
| Creatures.Player.DefenseValue | homework4/bettercode.py:241-242 | defence is the base defence, plus the armour's bonus when armour is equipped |
| Creatures.Player.IsAlive | homework4/bettercode.py:249-250 | the player is alive exactly when hp is positive |
| Creatures.Player.TakeDamage | homework4/bettercode.py:244-247 | damage taken is `max(0, dmg - defense_value())`, hp drops by exactly that, and hp never rises |
| Creatures.Player.Heal | homework4/bettercode.py:252-253 | hp becomes `clamp(hp + amount, 0, hp_max)`, so it stays within `[0, hp_max]` |
| Creatures.Player.Equip | homework4/bettercode.py:255-264 | a weapon replaces only the weapon slot (attack becomes base plus its bonus), armour only the armour slot; the name of the replaced item is reported; a consumable changes nothing |
| Creatures.Player.AddItem | homework4/bettercode.py:266-267 | the item is appended at the end of the inventory |
| Creatures.Player.UseConsumable | homework4/bettercode.py:269-277 | an out-of-range index or a non-consumable changes nothing; a consumable heals with clamping and is removed, the rest keeping its order |
| Rooms.NewRoom | homework4/bettercode.py:80-89 | `Room(kind=...)` has every other field at its default: unseen, unexplored, unlocked, no contents, no enemy, no trap damage, portal off |
| Rooms.SymbolForMap | homework4/bettercode.py:91-104 | every room's symbol reads back as its kind, except that an unexplored trap, with traps not revealed, reads as an empty room |
| Rooms.Enter | homework4/bettercode.py:409-481 | room entry leaves the room unchanged, or changes only its kind to empty, or that and its contents cleared; it moves to the next level exactly at an enabled portal and starts a fight exactly where a monster is present; a key room gives a key, switches the portal on and becomes empty; a monster room without an enemy becomes empty with nothing gained; a key is spent only on a locked chest the player opens; an opened chest hands over its contents and is emptied; a trap fires with its damage; empty rooms and portals change nothing |
| Rooms.ConsumedRoomIsInert | homework4/bettercode.py:422-481 | a room that an entry has emptied gives nothing and changes nothing when entered again: traps fire once, chests pay out once |
| Dungeons.ScanFromInBounds | homework4/bettercode.py:180-185 | the fallback scan returns a grid cell that is either free and not before its start, or the (0, 0) default |
| Dungeons.ScanFromFound | homework4/bettercode.py:180-185 | when a free cell exists, the scan returns a free cell no later than it |
| Dungeons.ScanFromSkipsOnlyExcluded | homework4/bettercode.py:180-185 | every cell the scan passes over is excluded, so it returns the first free cell in row-major order |
| Dungeons.RandomCellInBounds | homework4/bettercode.py:160-185 | `random_cell` always returns a cell of the grid |
| Dungeons.RandomCellAvoidsExcluded | homework4/bettercode.py:160-185 | when some cell is not excluded, the returned cell is not excluded |
| Dungeons.RandomCellAvoidsCentre | homework4/bettercode.py:164-185 | with the centre excluded, and some free cell before the centre, the returned cell is not the centre |
| Dungeons.CentreReturnedOnSingleCell | homework4/bettercode.py:160-185 | on a 1x1 grid the fallback scan returns the centre, despite the centre exclusion |
| Dungeons.ContentQuota | homework4/bettercode.py:142 | the content quota is `max(n*m // 6, 4)`: at least four, and at least one per six cells |
| Dungeons.LootFollowsDraws | homework4/bettercode.py:187-206 | `LootFromDraws` is well-formed loot; its first item is a consumable exactly when the first draw is below 40, a weapon exactly when it is in 40..69, armour exactly when it is 70 or more; the bonus potion is there exactly when its 0..99 draw is below 20; the stream advances by two plus the number of items |
| Dungeons.FilledRoomOk | homework4/bettercode.py:144-157 | a cell filled as `Filled` says is either unchanged or a well-formed chest, monster or trap |
| Dungeons.FillAdvance | homework4/bettercode.py:145-158 | one fill consumes one to six draws, and exactly one when the weighted 0..99 draw is 90 or more (the empty choice draws nothing more) |
| Dungeons.TryDrawsAdvance | homework4/bettercode.py:160-185 | every `random_cell` call consumes a positive, even number of draws |
| Dungeons.ContentStep | homework4/bettercode.py:144-158 | one content round picks a cell inside the grid and consumes at least three draws (a cell pair, then the fill) |
| Dungeons.ContentDraws | homework4/bettercode.py:142-158 | `count` content rounds give exactly `count` cells, in order, all inside the grid, and consume at least three draws each |
| Dungeons.ContentAvoidsExcluded | homework4/bettercode.py:143-144 | while some grid cell is not excluded, no content round lands on an excluded cell |
| Dungeons.ContentCellAvoids | homework4/bettercode.py:144 | on a grid of three or more cells, the cell `random_cell` draws with the portal and key cells excluded is neither of them |
| Dungeons.GenerationDraws | homework4/bettercode.py:124-158 | generation reads off the stream a portal cell and a key cell inside the grid, then exactly `max(n*m // 6, 4)` content cells, consuming at least four draws plus three per content cell |
| Dungeons.KeyCellDraw | homework4/bettercode.py:136-139 | the key cell `random_cell` draws with the portal cell excluded differs from the portal on a grid of two or more cells, is off the centre on a grid of at least 2x2, and is the portal cell on a 1x1 grid |
| Dungeons.RoomAfter | homework4/bettercode.py:142-158 | a cell that no placement hit keeps the room it held before the placements |
| Dungeons.RoomAfterSnoc | homework4/bettercode.py:142-158 | one more placement changes the room of its own cell only, which then holds the placed room |
| Dungeons.RoomAfterLast | homework4/bettercode.py:142-158 | a cell some placement hit holds the room of the last placement on it: that placement went to this cell and no later one did |
| Dungeons.FillPos | homework4/bettercode.py:142-158 | the fill of content round `k` starts after the `k` earlier rounds and this round's cell draw, at least `3 * k + 2` draws in |
| Dungeons.ContentStart | homework4/bettercode.py:130-142 | the content rounds start after the portal's and the key's `random_cell` draws, at least four draws in |
| Dungeons.RoundsContentFilled | homework4/bettercode.py:142-158 | rounds checked one after another amount to every round `k` having filled its cell, as `Filled` reads the stream at its fill position, from the room the earlier rounds had left there |
| Dungeons.GenerationAvoidsPortalAndKey | homework4/bettercode.py:124-158 | on a grid of three or more cells no content cell of the generation is the portal or key cell |
| Dungeons.Dungeon.constructor | homework4/bettercode.py:106-122 | a new dungeon has the given size and difficulty; its portal, key and content cells are the ones `GenerationDraws` reads from the stream position at the call (`drawnFrom`), the stream ends where generation ends (`drawnTo`); each content round filled its cell as `Filled` reads the stream, from the room the earlier rounds had left there; every cell holds the last room placed on it, or the portal, the key or a fresh empty room; every placement invariant holds |
| Dungeons.Dungeon.RandomCell | homework4/bettercode.py:160-185 | the retry loop and the fallback scan return exactly the cell `TryDraws` gives for the current stream, advancing the stream past the draws |
| Dungeons.Dungeon.GenerateLoot | homework4/bettercode.py:187-206 | the loot is exactly `LootFromDraws` of the stream and the stream advances past its draws; it is one consumable, weapon or armour with its stat in the difficulty's range, possibly followed by a small potion healing 3..8 |
| Dungeons.Dungeon.GenerateEnemy | homework4/bettercode.py:208-213 | a fresh enemy named for the difficulty whose hp, attack and defence are the next three draws in the difficulty's ranges (`EnemyFromDraws`), with experience `5 + 2 * difficulty` |
| Dungeons.Dungeon.ClearGrid | homework4/bettercode.py:126-128 | every cell becomes a fresh empty room |
| Dungeons.Dungeon.FillCell | homework4/bettercode.py:144-157 | only the chosen cell changes, as `Filled` says of the draws: below 30 a chest locked on a 50% draw holding `LootFromDraws`, below 70 a monster holding a fresh `EnemyFromDraws` enemy, below 90 a trap of the drawn damage, otherwise unchanged; the stream ends where `FillAdvance` says |
| Dungeons.Dungeon.PlacePortalAndKey | homework4/bettercode.py:130-139 | on a cleared grid the portal (switched off) and the key go to the cells the two chained `random_cell` draws give (`TryDraws`), the stream ends after the key's draws, every cell holds `PlacedRoom` (the key, else the portal, else a fresh empty room), every placement invariant holds, and on a grid of at least two cells they are distinct and the portal is off the centre |
| Dungeons.Dungeon.PlacePortal | homework4/bettercode.py:130-134 | on a cleared grid the portal, switched off, goes to the cell `TryDraws` gives with the centre excluded and the stream ends after those draws; it is not the centre on a grid of at least two cells, and every other cell stays a fresh empty room |
| Dungeons.Dungeon.PlaceKey | homework4/bettercode.py:136-139 | the key goes to the cell `TryDraws` gives with the portal and centre excluded and the stream ends after those draws; that cell differs from the portal on a grid of at least two cells and is the portal on a 1x1 grid; only that cell changes, and every placement invariant holds (including key off the centre on a grid of at least 2x2) |
| Dungeons.Dungeon.PlaceContent | homework4/bettercode.py:144-158 | the content cell is the one `TryDraws` gives with portal and key excluded, it is filled as `Filled` says, and the cell and the stream position after the fill are `ContentStep` of the stream; no other cell changes, on a grid of three or more cells it is neither the portal nor the key cell, and every placement invariant holds |
| Dungeons.Dungeon.PlaceContents | homework4/bettercode.py:142-158 | the content loop fills exactly the cells `ContentDraws` reads off the stream, in order, and leaves the stream where it says; round `k` filled its cell as `Filled` reads the stream, from the room the earlier rounds had left there; every cell holds the last room placed on it, and a cell no round hit keeps its room |
| Dungeons.Dungeon.ContentRound | homework4/bettercode.py:143-158 | one round of the loop: its cell and the stream after it extend `ContentDraws` by one round, it fills that cell as `Filled` reads the stream from the room the earlier rounds had left there, and afterwards every cell holds the last room placed on it |
| Dungeons.Dungeon.GenerateContents | homework4/bettercode.py:124-158 | the portal, key and content cells and the final stream position are exactly `GenerationDraws` of the stream; each content round filled its cell as `Filled` reads the stream, from the room the earlier rounds had left there; every cell holds the last room placed on it, or the portal, the key or a fresh empty room (`Placement`), so every other cell is a fresh empty room; on a grid of three or more cells no content cell is the portal or key cell; and the placement invariants hold: no stray portal or key, every room well formed, portal and key distinct with the portal off the centre on a grid of two or more cells, and both in place and off the centre on a grid of at least 2x2 |
| Dungeons.Dungeon.RevealPortalIfKey | homework4/bettercode.py:215-217 | the portal cell is switched on and no other cell changes |
| Engine.FirstInBounds | homework4/bettercode.py:562-570 | the neighbour chosen is adjacent and inside the grid, exists exactly when some direction stays inside, and every direction tried before it leads off the grid |
| Engine.StepOutExists | homework4/bettercode.py:562-570 | on a grid with more than one cell a step-out neighbour always exists |
| Engine.FleeChance | homework4/bettercode.py:530-533 | the flee chance lies in `[10, 90]` and is `50 + 5 * (atk - enemy atk)` between the bounds |
| Engine.FleeRollBounds | homework4/bettercode.py:530-533 | a roll of at most 10 always escapes, a roll above 90 never does, and more attack never lowers the chance |
| Engine.RollDungeon | homework4/bettercode.py:289-293 | a new level's grid is 5..8 by 5..8, its sides being the next two draws, at the given difficulty; generation starts right after those two draws (`drawnFrom`) and the stream ends where it ends (`drawnTo`); the placement invariants hold |
| Engine.Game.constructor | homework4/bettercode.py:283-311 | a new game is at level 1 with a fresh 100/100 player at the centre of a fresh grid whose centre is empty; the grid's sides are the first two draws, generation starts right after them, and the inventory is exactly the `StarterPotion` read where generation ends |
| Engine.StartLevel | homework4/bettercode.py:303-311 | the centre room becomes a fresh empty room, every other cell is unchanged, the placement invariants still hold, and the items appended and the stream position after them are `StarterPotion` of the stream |
| Engine.StarterPotion | homework4/bettercode.py:306-310 | the starter potion is given exactly when the 0..99 draw is below 70; it is then one consumable whose heal is the next draw in 6..18; the stream advances by one draw, or two when the potion is given |
| Engine.Game.InitNewLevel | homework4/bettercode.py:289-311 | the next level has a fresh grid whose sides are the next two draws and whose generation starts right after them, the player at its centre healed by `max(5, 10 - level)` within `[0, hp_max]`, keys, equipment and experience kept, and exactly the `StarterPotion` read where generation ends appended |
| Engine.Game.Arrive | homework4/bettercode.py:295-311 | once the new grid is built, the player stands at its centre healed by `max(5, 10 - level)` within `[0, hp_max]`, the centre is empty, every other cell is unchanged, and the `StarterPotion` of the stream is appended |
| Engine.Game.TakeLoot | homework4/bettercode.py:440-446 | the items are appended to the inventory in their order |
| Engine.Game.UseCommand | homework4/bettercode.py:363-375 | `use N` with an integer acts exactly as `use_consumable`; a missing or malformed index changes nothing |
| Engine.Game.EquipCommand | homework4/bettercode.py:376-391 | `equip N` with an index in range removes that item and equips it; any other argument changes nothing |
| Engine.Game.HandleRoom | homework4/bettercode.py:409-481 | entering the player's room does what `Enter` says: keys, inventory, trap damage after defence, the room, the portal cell; no other cell changes and no draw is consumed; an enabled portal starts the next level; a lethal trap ends in death; a live enemy starts a fight |
| Engine.Game.EnterPortal | homework4/bettercode.py:411-420 | an enabled portal advances the level and starts it; a disabled one changes nothing |
| Engine.Game.EnterKey | homework4/bettercode.py:421-427 | a key room gives one key, becomes empty, and switches the portal on |
| Engine.Game.EnterChest | homework4/bettercode.py:431-464 | an opened chest appends its loot in order and is emptied, a locked one costing a key; a declined or keyless locked chest changes nothing |
| Engine.Game.EnterTrap | homework4/bettercode.py:465-475 | a trap deals its damage reduced by defence, becomes empty, and a lethal one ends in death |
| Engine.Game.EnterMonster | homework4/bettercode.py:476-484 | a monster room without an enemy is emptied; with a live enemy and a live player a fight starts |
| Engine.Game.Step | homework4/bettercode.py:351-407 | quit stops; map, inv and unknown commands change nothing; `use`/`equip` act on the inventory, hp and slots only, keeping position, keys and experience; a move off the grid changes nothing; none of these consumes a draw; a move inside the grid enters the target room marked explored |
| Engine.Game.MoveInto | homework4/bettercode.py:400-405 | the player is placed on the target cell, which is marked explored and then entered |
| Engine.Game.CombatRound | homework4/bettercode.py:484-557 | one fight round: hit, flee, use, equip, or no change, as described by the rows below; use, equip and an unknown action consume no draw; keys never change and the game invariant holds |
| Engine.Game.Retaliate | homework4/bettercode.py:550-557 | the enemy's counter-attack costs its attack reduced by defence, and the round ends in death exactly when hp is no longer positive |
| Engine.Game.HitRound | homework4/bettercode.py:487-503 | the enemy loses the player's attack reduced by its defence; a killing blow gives its experience, appends exactly the `generate_loot` loot (`LootFromDraws`) when the 0..99 draw after the hit is below 50, empties the room, and leaves the stream after the loot draws (or after the one draw when no loot); otherwise the enemy strikes back and no draw is consumed |
| Engine.Game.FleeRound | homework4/bettercode.py:530-539 | exactly one draw is consumed; a roll of 1..100 at most the flee chance moves the player out with nothing else changed; a higher roll lets the enemy strike back |
| Engine.Game.SafeStepOut | homework4/bettercode.py:562-570 | the player moves to the first in-bounds neighbour in the order w, s, a, d, or stays put if there is none |

## Left out

- Printing and text rendering are not modelled: `render_map`, `show_status`, `show_inventory` and every message. The map symbol of a room is modelled (`Rooms.SymbolForMap`).
- Decoding of the command text is not modelled: `strip`, `lower`, `startswith`, `split`, `int()`. Commands arrive already decoded as `Command`, `Action` and `Arg`.
- The blocking `input()` calls become parameters: the y/n answer at a locked chest and the combat action.
- Real randomness and seeding are not modelled. The generator is a stream passed to the game, and `random.seed` only fixes that stream.
- Floating-point chances (`random.random() < 0.5`, `0.2`, `0.7`) are modelled as a draw in 0..99 compared with 50, 20 and 70. This is exact up to the generator's float resolution.
- `game_over`, the restart through `__init__`, `sys.exit` and `main_loop` are not modelled. Death is the outcome `Dead` (from a room) or `Died` (from a fight).
- Engine.Game.CombatRound: the `while` loop of the fight is not modelled. The model is one round per call; the caller repeats it while the outcome is `Ongoing`.
- Dungeons.Dungeon.GenerateContents: "portal and key in place, both off the centre" is stated only for grids of at least 2x2; "distinct, portal off the centre" for grids of at least two cells; "no content on the portal or key" for grids of three or more cells. The game always builds 5..8 by 5..8 grids. On a one-row or one-column grid the code itself can put the key on the centre, and on a 1x2 grid a content placement can land on the portal; there only "no stray portal or key" and "every room well formed" are proved.
- Dungeons.Dungeon.PlacePortalAndKey: the same grid-size conditions apply to "distinct, off the centre".
- Dungeons.Dungeon.PlaceKey: "key off the centre" is stated only for grids of at least 2x2, because on a one-row or one-column grid the fallback scan can return the centre; on a 1x1 grid the key shares the portal's cell, as in the code.
- Dungeons.Dungeon.PlaceContent: "neither the portal nor the key cell" is stated only for grids of three or more cells, because on a 1x2 grid every cell is excluded and the fallback returns (0, 0), which can be the portal.
- Dungeons.Dungeon.constructor: the recorded rooms say that a monster room holds an enemy but not that enemy's stats. `FillCell` states the stats (`EnemyFromDraws`) when the enemy is made; an enemy is an object whose hit points change in place later, so the record does not carry them.
- Engine.RollDungeon: states where in the stream generation starts and ends (`drawnFrom`, `drawnTo`) but not the portal and key cells; `Dungeons.Dungeon.constructor` ties those cells to `GenerationDraws`, and the contracts of `Engine` do not repeat it, because that function's unfolding makes their proofs too costly.
- The player's `level` field is never updated by the code. It is kept constant; the game's own `level` counter drives difficulty.
- `homework5/code.py` is not part of this model: it wraps a data-analysis library and console output and has no game logic.
