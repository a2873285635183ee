/** The dungeon: an n-by-m grid of rooms with one portal cell and one key
    cell, filled at random (bettercode.py:106-218).  Random draws come from
    an `Rng` stream, so generation is a deterministic function of the
    stream. */
module Dungeons {
  import opened Util
  import opened Oracle
  import opened Creatures
  import opened Rooms

  /** A grid position (row, column). */
  type Cell = (int, int)

  predicate InGrid(n: int, m: int, c: Cell) {
    0 <= c.0 < n && 0 <= c.1 < m
  }

  /** Row-major order: `a` comes strictly before `b`. */
  predicate Before(a: Cell, b: Cell) {
    a.0 < b.0 || (a.0 == b.0 && a.1 < b.1)
  }

  /** The centre cell, where the player starts. */
  function Centre(n: int, m: int): (c: Cell) {
    (n / 2, m / 2)
  }

  // ---------------------------------------------------------------------
  // Random cell selection (bettercode.py:160-185)
  // ---------------------------------------------------------------------

  /** The fallback of `random_cell`: scanning rows then columns from (i, j),
      the first cell not in `ex`, or (0, 0) when every remaining cell is
      excluded. */
  function ScanFrom(n: int, m: int, ex: set<Cell>, i: int, j: int): (c: Cell)
    requires 0 <= i && 0 <= j <= m
    decreases n - i, m - j
  {
    if i >= n then (0, 0)
    else if j == m then ScanFrom(n, m, ex, i + 1, 0)
    else if (i, j) !in ex then (i, j)
    else ScanFrom(n, m, ex, i, j + 1)
  }

  /** The scan lands inside the grid, and either on a free cell at or after
      its start or on the (0, 0) default. */
  lemma {:induction false} ScanFromInBounds(n: int, m: int, ex: set<Cell>, i: int, j: int)
    requires 1 <= n && 1 <= m
    requires 0 <= i && 0 <= j <= m
    ensures InGrid(n, m, ScanFrom(n, m, ex, i, j))
    ensures var r := ScanFrom(n, m, ex, i, j);
      r == (0, 0) || (r !in ex && !Before(r, (i, j)))
    decreases n - i, m - j
  {
    if i >= n {
    } else if j == m {
      ScanFromInBounds(n, m, ex, i + 1, 0);
    } else if (i, j) !in ex {
    } else {
      ScanFromInBounds(n, m, ex, i, j + 1);
    }
  }

  /** If some cell `w` at or after the start is free, the scan finds a free
      cell no later than `w`. */
  lemma {:induction false} ScanFromFound(n: int, m: int, ex: set<Cell>, i: int, j: int, w: Cell)
    requires 0 <= i && 0 <= j <= m
    requires InGrid(n, m, w) && w !in ex && !Before(w, (i, j))
    ensures var r := ScanFrom(n, m, ex, i, j);
      InGrid(n, m, r) && r !in ex && !Before(w, r) && !Before(r, (i, j))
    decreases n - i, m - j
  {
    if j == m {
      ScanFromFound(n, m, ex, i + 1, 0, w);
    } else if (i, j) !in ex {
    } else {
      ScanFromFound(n, m, ex, i, j + 1, w);
    }
  }

  /** Every cell the scan passes over before its result is excluded: the
      result is the FIRST free cell in row-major order. */
  lemma {:induction false} ScanFromSkipsOnlyExcluded(n: int, m: int, ex: set<Cell>, i: int, j: int, w: Cell)
    requires 0 <= i && 0 <= j <= m
    requires InGrid(n, m, w) && !Before(w, (i, j)) && Before(w, ScanFrom(n, m, ex, i, j))
    ensures w in ex
    decreases n - i, m - j
  {
    if i >= n {
    } else if j == m {
      ScanFromSkipsOnlyExcluded(n, m, ex, i + 1, 0, w);
    } else if (i, j) !in ex {
    } else if w != (i, j) {
      ScanFromSkipsOnlyExcluded(n, m, ex, i, j + 1, w);
    }
  }

  /** `random_cell` as a function of the random stream.  Each attempt draws a
      row then a column; an attempt that hits the centre (when it is
      excluded) or an excluded cell counts as a failure, and after 201
      failures the deterministic scan decides.  Returns the cell and the
      stream position after the draws. */
  function TryDraws(n: int, m: int, ex: set<Cell>, exCentre: bool,
                    vals: seq<nat>, pos: nat, attempts: nat): (r: (Cell, nat))
    requires 1 <= n && 1 <= m && attempts <= 200
    decreases 200 - attempts
  {
    var c := (Draw(vals, pos, 0, n - 1), Draw(vals, pos + 1, 0, m - 1));
    if (exCentre && c == Centre(n, m)) || c in ex then
      if attempts + 1 > 200 then (ScanFrom(n, m, ex, 0, 0), pos + 2)
      else TryDraws(n, m, ex, exCentre, vals, pos + 2, attempts + 1)
    else (c, pos + 2)
  }

  /** `random_cell` always returns a cell of the grid. */
  lemma {:induction false} RandomCellInBounds(n: int, m: int, ex: set<Cell>, exCentre: bool,
                                              vals: seq<nat>, pos: nat, attempts: nat)
    requires 1 <= n && 1 <= m && attempts <= 200
    ensures InGrid(n, m, TryDraws(n, m, ex, exCentre, vals, pos, attempts).0)
    decreases 200 - attempts
  {
    var c := (Draw(vals, pos, 0, n - 1), Draw(vals, pos + 1, 0, m - 1));
    if (exCentre && c == Centre(n, m)) || c in ex {
      if attempts + 1 > 200 {
        ScanFromInBounds(n, m, ex, 0, 0);
      } else {
        RandomCellInBounds(n, m, ex, exCentre, vals, pos + 2, attempts + 1);
      }
    }
  }

  /** Whenever some cell of the grid is not excluded, `random_cell` returns a
      cell that is not excluded. */
  lemma {:induction false} RandomCellAvoidsExcluded(n: int, m: int, ex: set<Cell>, exCentre: bool,
                                                    vals: seq<nat>, pos: nat, attempts: nat, w: Cell)
    requires 1 <= n && 1 <= m && attempts <= 200
    requires InGrid(n, m, w) && w !in ex
    ensures TryDraws(n, m, ex, exCentre, vals, pos, attempts).0 !in ex
    decreases 200 - attempts
  {
    var c := (Draw(vals, pos, 0, n - 1), Draw(vals, pos + 1, 0, m - 1));
    if (exCentre && c == Centre(n, m)) || c in ex {
      if attempts + 1 > 200 {
        ScanFromFound(n, m, ex, 0, 0, w);
      } else {
        RandomCellAvoidsExcluded(n, m, ex, exCentre, vals, pos + 2, attempts + 1, w);
      }
    }
  }

  /** The fallback scan ignores the centre exclusion, yet `random_cell` with
      the centre excluded still avoids the centre whenever some free cell
      comes before it in row-major order (the scan stops there first). */
  lemma {:induction false} RandomCellAvoidsCentre(n: int, m: int, ex: set<Cell>,
                                                  vals: seq<nat>, pos: nat, attempts: nat, w: Cell)
    requires 1 <= n && 1 <= m && attempts <= 200
    requires InGrid(n, m, w) && w !in ex && Before(w, Centre(n, m))
    ensures TryDraws(n, m, ex, true, vals, pos, attempts).0 != Centre(n, m)
    decreases 200 - attempts
  {
    var c := (Draw(vals, pos, 0, n - 1), Draw(vals, pos + 1, 0, m - 1));
    if c == Centre(n, m) || c in ex {
      if attempts + 1 > 200 {
        ScanFromFound(n, m, ex, 0, 0, w);
      } else {
        RandomCellAvoidsCentre(n, m, ex, vals, pos + 2, attempts + 1, w);
      }
    }
  }

  /** The fallback can return the centre although it is excluded: on a 1x1
      grid every draw hits the centre and the scan then returns it. */
  lemma CentreReturnedOnSingleCell(vals: seq<nat>)
    ensures TryDraws(1, 1, {}, true, vals, 0, 0).0 == Centre(1, 1)
  {
    RandomCellInBounds(1, 1, {}, true, vals, 0, 0);
  }

  // ---------------------------------------------------------------------
  // Generated content (bettercode.py:124-158, 187-213)
  // ---------------------------------------------------------------------

  /** The number of content placements: `max(n*m // 6, 4)`, so at least
      four, and at least one for every six cells. */
  function ContentQuota(n: int, m: int): (r: int)
    requires 0 <= n && 0 <= m
    ensures 4 <= r && (n * m) / 6 <= r
    ensures r == 4 || r == (n * m) / 6
  {
    if (n * m) / 6 > 4 then (n * m) / 6 else 4
  }

  /** The first item of a loot bundle, with the stat ranges of
      `generate_loot` at difficulty `d`. */
  predicate FirstLootOk(it: Item, d: int) {
    match it
    case Consumable(_, _, heal) => 5 + 2 * d <= heal <= 20 + 3 * d
    case Weapon(_, _, atk) => 1 + d <= atk <= 3 + 2 * d
    case Armor(_, _, defense) => 1 + d <= defense <= 3 + 2 * d
  }

  /** A loot bundle: one main item, sometimes followed by a small potion. */
  predicate LootOk(loot: seq<Item>, d: int) {
    1 <= |loot| <= 2 && FirstLootOk(loot[0], d) &&
    (|loot| == 2 ==> loot[1].Consumable? && 3 <= loot[1].heal <= 8)
  }

  /** A freshly generated room: unexplored, portal switched off, and carrying
      what its kind needs (an enemy, loot, damage in range). */
  predicate RoomOk(room: Room, d: int) {
    !room.explored && !room.portalEnabled &&
    (room.kind == Monster ==> room.enemy.Some?) &&
    (room.kind == Chest ==> LootOk(room.chestContents, d)) &&
    (room.kind == Trap ==> 2 + d <= room.trapDamage <= 5 + 3 * d)
  }

  /** `generate_loot` read off the random stream at `pos`: a draw in 0..100
      picks a potion (below 40), a weapon (40..69) or armour (70..100) whose
      stat is the next draw; a 0..99 draw below 20 then adds a small potion
      healing the next draw of 3..8.  Gives the loot and the stream position
      after it. */
  function LootFromDraws(vals: seq<nat>, pos: nat, d: int): (r: (seq<Item>, nat))
    requires 0 <= d
  {
    var first := MainLootFromDraws(vals, pos, d);
    if Draw(vals, pos + 2, 0, 99) < 20 then
      ([first, Consumable("Малое зелье", "Малое восстановление", Draw(vals, pos + 3, 3, 8))], pos + 4)
    else
      ([first], pos + 3)
  }

  /** The main item of a loot bundle, from the kind draw at `pos` and the
      stat draw after it. */
  function MainLootFromDraws(vals: seq<nat>, pos: nat, d: int): (it: Item)
    requires 0 <= d
  {
    var k := Draw(vals, pos, 0, 100);
    if k < 40 then
      var heal := Draw(vals, pos + 1, 5 + d * 2, 20 + d * 3);
      Consumable("Зелье", "Восстанавливает " + NatToString(heal) + " HP", heal)
    else if k < 70 then
      var atk := Draw(vals, pos + 1, 1 + d, 3 + d * 2);
      Weapon("Оружие +" + NatToString(atk), "+" + NatToString(atk) + " к атаке", atk)
    else
      var df := Draw(vals, pos + 1, 1 + d, 3 + d * 2);
      Armor("Доспех +" + NatToString(df), "+" + NatToString(df) + " к броне", df)
  }

  /** Every bundle `generate_loot` can give is well formed, and its shape
      follows the draws: a potion exactly when the first draw is below 40, a
      weapon exactly when it is 40..69, armour exactly when it is 70..100,
      and a second item exactly when the 0..99 draw after the stat is below
      20. */
  lemma LootFollowsDraws(vals: seq<nat>, pos: nat, d: int)
    requires 0 <= d
    ensures var r := LootFromDraws(vals, pos, d);
      var k := Draw(vals, pos, 0, 100);
      LootOk(r.0, d) &&
      (r.0[0].Consumable? <==> k < 40) &&
      (r.0[0].Weapon? <==> 40 <= k < 70) &&
      (r.0[0].Armor? <==> 70 <= k) &&
      (|r.0| == 2 <==> Draw(vals, pos + 2, 0, 99) < 20) &&
      r.1 == pos + 2 + |r.0|
  {
  }

  /** `generate_enemy` read off the random stream at `pos`: hp, attack and
      defence are three consecutive draws in the difficulty's ranges. */
  predicate EnemyFromDraws(e: Enemy, vals: seq<nat>, pos: nat, d: int)
    requires 0 <= d
    reads e
  {
    e.name == "Гоблин L" + NatToString(d) &&
    e.hp == Draw(vals, pos, 5 + d * 2, 8 + d * 4) &&
    e.atk == Draw(vals, pos + 1, 1 + d, 2 + d * 2) &&
    e.defense == Draw(vals, pos + 2, 0, d) &&
    e.exp == 5 + d * 2
  }

  /** One content placement read off the stream at `pos`: a 0..99 draw below
      30 makes a chest, locked when the next 0..99 draw is below 50, holding
      the loot drawn after that; 30..69 a monster room; 70..89 a trap whose
      damage is the next draw; 90..99 leaves the room as it was. */
  predicate Filled(before: Room, after: Room, vals: seq<nat>, pos: nat, d: int)
    requires 0 <= d
  {
    var ch := Draw(vals, pos, 0, 99);
    if ch < 30 then
      after == NewRoom(Chest).(chestLocked := Draw(vals, pos + 1, 0, 99) < 50,
                               chestContents := LootFromDraws(vals, pos + 2, d).0)
    else if ch < 70 then
      after.enemy.Some? && after == NewRoom(Monster).(enemy := after.enemy)
    else if ch < 90 then
      after == NewRoom(Trap).(trapDamage := Draw(vals, pos + 1, 2 + d, 5 + d * 3))
    else
      after == before
  }

  /** A placement leaves the room as it was or makes a well-formed chest,
      monster or trap room. */
  lemma FilledRoomOk(before: Room, after: Room, vals: seq<nat>, pos: nat, d: int)
    requires 0 <= d && Filled(before, after, vals, pos, d)
    ensures after == before || (after.kind in {Chest, Monster, Trap} && RoomOk(after, d))
  {
    if Draw(vals, pos, 0, 99) < 30 {
      LootFollowsDraws(vals, pos + 2, d);
    }
  }

  /** The stream position after one placement that starts at `pos`: the
      weighted choice, then a chest's lock draw and loot, a monster's three
      stats, or a trap's damage; the empty choice draws nothing more. */
  function FillAdvance(vals: seq<nat>, pos: nat, d: int): (next: nat)
    requires 0 <= d
    ensures pos + 1 <= next <= pos + 6
    ensures next == pos + 1 <==> 90 <= Draw(vals, pos, 0, 99)
  {
    var ch := Draw(vals, pos, 0, 99);
    if ch < 30 then LootFromDraws(vals, pos + 2, d).1
    else if ch < 70 then pos + 4
    else if ch < 90 then pos + 2
    else pos + 1
  }

  /** One content placement from `pos`: the cell `random_cell` draws with
      `ex` excluded, and the stream position after its fill. */
  function ContentStep(n: int, m: int, ex: set<Cell>, d: int, vals: seq<nat>, pos: nat): (r: (Cell, nat))
    requires 1 <= n && 1 <= m && 0 <= d
    ensures InGrid(n, m, r.0) && pos + 3 <= r.1
  {
    var t := TryDraws(n, m, ex, false, vals, pos, 0);
    RandomCellInBounds(n, m, ex, false, vals, pos, 0);
    TryDrawsAdvance(n, m, ex, false, vals, pos, 0);
    (t.0, FillAdvance(vals, t.1, d))
  }

  /** The cells of `count` content placements starting at `pos`, each drawn
      by `random_cell` with `ex` excluded and followed by its fill, and the
      stream position after them. */
  function ContentDraws(n: int, m: int, ex: set<Cell>, d: int, vals: seq<nat>, pos: nat, count: nat): (r: (seq<Cell>, nat))
    requires 1 <= n && 1 <= m && 0 <= d
    ensures |r.0| == count && pos + 3 * count <= r.1
    ensures forall k :: 0 <= k < count ==> InGrid(n, m, r.0[k])
    decreases count
  {
    if count == 0 then ([], pos)
    else
      var prev := ContentDraws(n, m, ex, d, vals, pos, count - 1);
      var step := ContentStep(n, m, ex, d, vals, prev.1);
      (prev.0 + [step.0], step.1)
  }

  /** The room cell `c` holds after the placements `rooms` went to `cells`,
      in order, over a grid where it held `base`: the last placement that hit
      `c`, or `base` when none did. */
  function RoomAfter(cells: seq<Cell>, rooms: seq<Room>, c: Cell, base: Room): (r: Room)
    requires |cells| == |rooms|
    ensures c !in cells ==> r == base
    decreases |cells|
  {
    if cells == [] then base
    else if cells[|cells| - 1] == c then rooms[|rooms| - 1]
    else
      RoomAfter(cells[..|cells| - 1], rooms[..|rooms| - 1], c, base)
  }

  /** One more placement, of `r` at `c`: cell `c` now holds `r`, and every
      other cell holds what it held before. */
  lemma RoomAfterSnoc(cells: seq<Cell>, rooms: seq<Room>, c: Cell, r: Room, x: Cell, base: Room)
    requires |cells| == |rooms|
    ensures RoomAfter(cells + [c], rooms + [r], x, base) == if x == c then r else RoomAfter(cells, rooms, x, base)
  {
    assert (cells + [c])[..|cells|] == cells && (rooms + [r])[..|rooms|] == rooms;
  }

  /** A cell some placement hit holds the room of the last placement that
      hit it. */
  lemma {:induction false} RoomAfterLast(cells: seq<Cell>, rooms: seq<Room>, c: Cell, base: Room)
    requires |cells| == |rooms| && c in cells
    ensures exists k :: 0 <= k < |cells| && cells[k] == c && RoomAfter(cells, rooms, c, base) == rooms[k] && c !in cells[k + 1..]
    decreases |cells|
  {
    var last := |cells| - 1;
    if cells[last] == c {
      assert cells[last + 1..] == [];
    } else {
      var cells', rooms' := cells[..last], rooms[..last];
      assert c in cells' by {
        var i :| 0 <= i < |cells| && cells[i] == c;
        assert cells'[i] == c;
      }
      RoomAfterLast(cells', rooms', c, base);
      var k :| 0 <= k < |cells'| && cells'[k] == c && RoomAfter(cells', rooms', c, base) == rooms'[k] && c !in cells'[k + 1..];
      assert RoomAfter(cells, rooms, c, base) == rooms[k] by {
        assert rooms'[k] == rooms[k];
      }
      assert cells[k + 1..] == cells'[k + 1..] + [cells[last]];
      assert cells[k] == c && c !in cells[k + 1..];
    }
  }

  /** The stream position where the fill of content round `k` starts: past
      the `k` earlier rounds and the cell draw of round `k`. */
  function FillPos(n: int, m: int, ex: set<Cell>, d: int, vals: seq<nat>, pos: nat, k: nat): (f: nat)
    requires 1 <= n && 1 <= m && 0 <= d
    ensures pos + 3 * k + 2 <= f
  {
    var s := ContentDraws(n, m, ex, d, vals, pos, k).1;
    TryDrawsAdvance(n, m, ex, false, vals, s, 0);
    TryDraws(n, m, ex, false, vals, s, 0).1
  }

  /** Rounds checked one by one over a grid that held `base(c)` at each cell
      `c`: the last round `k` turned the room the earlier rounds had left at
      `cells[k]` into `rooms[k]` as `ok` allows, and so on back to the first
      round. */
  predicate RoundsHold(ok: (nat, Room, Room) -> bool, cells: seq<Cell>, rooms: seq<Room>, base: Cell -> Room)
    decreases |rooms|
  {
    |cells| == |rooms| &&
    (rooms == [] ||
     var k := |rooms| - 1;
     RoundsHold(ok, cells[..k], rooms[..k], base) &&
     ok(k, RoomAfter(cells[..k], rooms[..k], cells[k], base(cells[k])), rooms[k]))
  }

  /** `RoundsHold` for one round: round `k` is allowed by `ok`. */
  lemma {:induction false} RoundHoldsAt(ok: (nat, Room, Room) -> bool, cells: seq<Cell>, rooms: seq<Room>,
                                        base: Cell -> Room, k: nat)
    requires RoundsHold(ok, cells, rooms, base) && k < |rooms|
    ensures ok(k, RoomAfter(cells[..k], rooms[..k], cells[k], base(cells[k])), rooms[k])
    decreases |rooms|
  {
    var last := |rooms| - 1;
    if k < last {
      RoundHoldsAt(ok, cells[..last], rooms[..last], base, k);
      assert cells[..last][..k] == cells[..k] && rooms[..last][..k] == rooms[..k];
    }
  }

  /** One more round that `ok` allows, from the room the earlier rounds left
      at its cell, extends the rounds so far. */
  lemma RoundsHoldSnoc(ok: (nat, Room, Room) -> bool, cells: seq<Cell>, rooms: seq<Room>, base: Cell -> Room,
                       c: Cell, r: Room)
    requires RoundsHold(ok, cells, rooms, base)
    requires ok(|rooms|, RoomAfter(cells, rooms, c, base(c)), r)
    ensures RoundsHold(ok, cells + [c], rooms + [r], base)
  {
    assert (cells + [c])[..|cells|] == cells && (rooms + [r])[..|rooms|] == rooms;
  }

  /** Content round `k` from stream position `pos` turned the room `before`
      into `after`, as `Filled` reads it off the stream at its fill position. */
  function FillRound(n: int, m: int, ex: set<Cell>, d: int, vals: seq<nat>, pos: nat): (nat, Room, Room) -> bool
    requires 1 <= n && 1 <= m && 0 <= d
  {
    (k: nat, before: Room, after: Room) => Filled(before, after, vals, FillPos(n, m, ex, d, vals, pos, k), d)
  }

  /** Content rounds from stream position `pos` over a grid that held
      `base(c)` at each cell `c`: round `k` filled `cells[k]` into `rooms[k]`,
      as `Filled` reads it off the stream at its fill position, from the room
      the earlier rounds had left there. */
  predicate ContentFilled(n: int, m: int, ex: set<Cell>, d: int, vals: seq<nat>, pos: nat,
                          cells: seq<Cell>, rooms: seq<Room>, base: Cell -> Room)
    requires 1 <= n && 1 <= m && 0 <= d
  {
    |rooms| == |cells| &&
    forall k {:trigger FillPos(n, m, ex, d, vals, pos, k)} :: 0 <= k < |cells| ==>
      Filled(RoomAfter(cells[..k], rooms[..k], cells[k], base(cells[k])), rooms[k],
             vals, FillPos(n, m, ex, d, vals, pos, k), d)
  }

  /** Content rounds checked one by one fill the content cells in turn. */
  lemma RoundsContentFilled(n: int, m: int, ex: set<Cell>, d: int, vals: seq<nat>, pos: nat,
                            cells: seq<Cell>, rooms: seq<Room>, base: Cell -> Room)
    requires 1 <= n && 1 <= m && 0 <= d
    requires RoundsHold(FillRound(n, m, ex, d, vals, pos), cells, rooms, base)
    ensures ContentFilled(n, m, ex, d, vals, pos, cells, rooms, base)
  {
    forall k | 0 <= k < |cells|
      ensures Filled(RoomAfter(cells[..k], rooms[..k], cells[k], base(cells[k])), rooms[k],
                     vals, FillPos(n, m, ex, d, vals, pos, k), d)
    {
      RoundHoldsAt(FillRound(n, m, ex, d, vals, pos), cells, rooms, base, k);
    }
  }

  /** Every `random_cell` call consumes at least one pair of draws. */
  lemma {:induction false} TryDrawsAdvance(n: int, m: int, ex: set<Cell>, exCentre: bool,
                                           vals: seq<nat>, pos: nat, attempts: nat)
    requires 1 <= n && 1 <= m && attempts <= 200
    ensures var r := TryDraws(n, m, ex, exCentre, vals, pos, attempts);
      pos + 2 <= r.1 && (r.1 - pos) % 2 == 0
    decreases 200 - attempts
  {
    var c := (Draw(vals, pos, 0, n - 1), Draw(vals, pos + 1, 0, m - 1));
    if ((exCentre && c == Centre(n, m)) || c in ex) && attempts + 1 <= 200 {
      TryDrawsAdvance(n, m, ex, exCentre, vals, pos + 2, attempts + 1);
    }
  }

  /** While some cell of the grid is free, no content placement lands on an
      excluded cell. */
  lemma {:induction false} ContentAvoidsExcluded(n: int, m: int, ex: set<Cell>, d: int,
                                                 vals: seq<nat>, pos: nat, count: nat, w: Cell)
    requires 1 <= n && 1 <= m && 0 <= d
    requires InGrid(n, m, w) && w !in ex
    ensures forall k :: 0 <= k < count ==> ContentDraws(n, m, ex, d, vals, pos, count).0[k] !in ex
    decreases count
  {
    if count > 0 {
      var prev := ContentDraws(n, m, ex, d, vals, pos, count - 1);
      ContentAvoidsExcluded(n, m, ex, d, vals, pos, count - 1, w);
      RandomCellAvoidsExcluded(n, m, ex, false, vals, prev.1, 0, w);
    }
  }

  /** The draws of `generate_contents` from `pos`: the portal cell (centre
      excluded), the key cell (portal and centre excluded), the
      `max(n*m // 6, 4)` content cells (portal and key excluded), and the
      stream position after them. */
  function GenerationDraws(n: int, m: int, d: int, vals: seq<nat>, pos: nat): (g: (Cell, Cell, seq<Cell>, nat))
    requires 1 <= n && 1 <= m && 0 <= d
    ensures InGrid(n, m, g.0) && InGrid(n, m, g.1)
    ensures |g.2| == ContentQuota(n, m) && pos + 4 + 3 * |g.2| <= g.3
  {
    var p := TryDraws(n, m, {}, true, vals, pos, 0);
    var k := TryDraws(n, m, {p.0}, true, vals, p.1, 0);
    RandomCellInBounds(n, m, {}, true, vals, pos, 0);
    RandomCellInBounds(n, m, {p.0}, true, vals, p.1, 0);
    TryDrawsAdvance(n, m, {}, true, vals, pos, 0);
    TryDrawsAdvance(n, m, {p.0}, true, vals, p.1, 0);
    var c := ContentDraws(n, m, {p.0, k.0}, d, vals, k.1, ContentQuota(n, m));
    (p.0, k.0, c.0, c.1)
  }

  /** The stream position where the content loop of `generate_contents`
      starts: past the portal draw and the key draw from `pos`. */
  function ContentStart(n: int, m: int, vals: seq<nat>, pos: nat): (s: nat)
    requires 1 <= n && 1 <= m
    ensures pos + 4 <= s
  {
    var p := TryDraws(n, m, {}, true, vals, pos, 0);
    TryDrawsAdvance(n, m, {}, true, vals, pos, 0);
    TryDrawsAdvance(n, m, {p.0}, true, vals, p.1, 0);
    TryDraws(n, m, {p.0}, true, vals, p.1, 0).1
  }

  /** The room at `c` once the portal and the key are placed on a cleared
      grid: the key wins where both land. */
  function PlacedRoom(c: Cell, portal: Cell, key: Cell): Room {
    if c == key then NewRoom(Key) else if c == portal then NewRoom(Portal) else NewRoom(Empty)
  }

  /** The portal and key placement as a map from cells to rooms. */
  function Placement(portal: Cell, key: Cell): (f: Cell -> Room)
    ensures forall c :: f(c) == PlacedRoom(c, portal, key)
  {
    c => PlacedRoom(c, portal, key)
  }

  /** The grid has at least three cells, so two excluded cells always leave
      one free. */
  predicate ThreeOrMoreCells(n: int, m: int) {
    3 <= n || 3 <= m || (2 <= n && 2 <= m)
  }

  /** A grid cell that is neither `p` nor `k`, on a grid of three or more
      cells. */
  function FreeCell(n: int, m: int, p: Cell, k: Cell): (w: Cell)
    requires 1 <= n && 1 <= m && ThreeOrMoreCells(n, m)
    ensures InGrid(n, m, w) && w != p && w != k
  {
    var (a, b, c) :=
      if 2 <= n && 2 <= m then ((0, 0), (0, 1), (1, 0))
      else if 3 <= m then ((0, 0), (0, 1), (0, 2))
      else ((0, 0), (1, 0), (2, 0));
    if a != p && a != k then a else if b != p && b != k then b else c
  }

  /** Where `random_cell` puts the key, given the portal cell `p`: on a grid
      of two or more cells never on the portal, on a grid of at least 2x2
      never on the centre either, and on a 1x1 grid on the portal. */
  lemma KeyCellDraw(n: int, m: int, p: Cell, vals: seq<nat>, pos: nat)
    requires 1 <= n && 1 <= m && InGrid(n, m, p)
    ensures var k := TryDraws(n, m, {p}, true, vals, pos, 0).0;
      (2 <= n || 2 <= m ==> k != p) &&
      (2 <= n && 2 <= m ==> k != Centre(n, m)) &&
      (n == 1 && m == 1 ==> k == p)
  {
    RandomCellInBounds(n, m, {p}, true, vals, pos, 0);
    if 2 <= n || 2 <= m {
      var w := if p != (0, 0) then (0, 0) else if 2 <= m then (0, 1) else (1, 0);
      RandomCellAvoidsExcluded(n, m, {p}, true, vals, pos, 0, w);
    }
    if 2 <= n && 2 <= m {
      var w := if p != (0, 0) then (0, 0) else (0, 1);
      RandomCellAvoidsCentre(n, m, {p}, vals, pos, 0, w);
    }
  }

  /** On a grid of three or more cells `random_cell` with the portal and key
      cells excluded lands on neither. */
  lemma ContentCellAvoids(n: int, m: int, p: Cell, k: Cell, vals: seq<nat>, pos: nat)
    requires 1 <= n && 1 <= m && ThreeOrMoreCells(n, m)
    ensures var c := TryDraws(n, m, {p, k}, false, vals, pos, 0).0;
      c != p && c != k
  {
    RandomCellAvoidsExcluded(n, m, {p, k}, false, vals, pos, 0, FreeCell(n, m, p, k));
  }

  /** On a grid of three or more cells no content placement of
      `generate_contents` lands on the portal or key cell: some cell is
      always left free, so the fallback scan finds it. */
  lemma GenerationAvoidsPortalAndKey(n: int, m: int, d: int, vals: seq<nat>, pos: nat)
    requires 1 <= n && 1 <= m && ThreeOrMoreCells(n, m) && 0 <= d
    ensures var g := GenerationDraws(n, m, d, vals, pos);
      forall q :: 0 <= q < |g.2| ==> g.2[q] != g.0 && g.2[q] != g.1
  {
    var g := GenerationDraws(n, m, d, vals, pos);
    var p, k := g.0, g.1;
    var w := FreeCell(n, m, p, k);
    var kk := TryDraws(n, m, {p}, true, vals, TryDraws(n, m, {}, true, vals, pos, 0).1, 0);
    ContentAvoidsExcluded(n, m, {p, k}, d, vals, kk.1, ContentQuota(n, m), w);
  }

  class Dungeon {
    const n: int
    const m: int
    const grid: array2<Room>
    var portalPos: Cell
    var keyPos: Cell
    const difficulty: int
    /** The stream positions where generation started and ended. */
    ghost const drawnFrom: nat
    ghost const drawnTo: nat
    /** The cells of the content rounds of generation, in order, and the
        rooms they placed there. */
    ghost var contentCells: seq<Cell>
    ghost var contentRooms: seq<Room>

    ghost predicate Valid()
      reads this
    {
      1 <= n && 1 <= m && grid.Length0 == n && grid.Length1 == m && 0 <= difficulty &&
      InGrid(n, m, portalPos) && InGrid(n, m, keyPos)
    }

    /** The placement invariants right after generation: no cell but the
        portal and key cells holds a portal or a key; every room is a fresh,
        well-formed room; on a grid of two or more cells the portal and key
        cells differ and the portal is off the centre; and on a grid of at
        least 2x2 the key is off the centre too and both cells still hold
        their portal and key. */
    ghost predicate Generated()
      reads this, grid
      requires Valid()
    {
      (forall i, j :: 0 <= i < n && 0 <= j < m && (i, j) != portalPos && (i, j) != keyPos ==>
         grid[i, j].kind != Portal && grid[i, j].kind != Key) &&
      (forall i, j :: 0 <= i < n && 0 <= j < m ==> RoomOk(grid[i, j], difficulty)) &&
      (2 <= n || 2 <= m ==> portalPos != keyPos && portalPos != Centre(n, m)) &&
      (2 <= n && 2 <= m ==>
         keyPos != Centre(n, m) &&
         grid[portalPos.0, portalPos.1].kind == Portal &&
         grid[keyPos.0, keyPos.1].kind == Key)
    }

    /** Every cell holds the room the placements `rooms` on `cells` left over
        a grid that held `base(c)` at each cell `c`. */
    ghost predicate HoldsAfter(cells: seq<Cell>, rooms: seq<Room>, base: Cell -> Room)
      reads this, grid
      requires Valid() && |cells| == |rooms|
    {
      forall i, j {:trigger RoomAfter(cells, rooms, (i, j), base((i, j)))} :: 0 <= i < n && 0 <= j < m ==> grid[i, j] == RoomAfter(cells, rooms, (i, j), base((i, j)))
    }

    /** `Dungeon(n, m, difficulty)`: an all-empty grid, then
        `generate_contents`. */
    constructor (n: int, m: int, difficulty: int, rng: Rng)
      requires 1 <= n && 1 <= m && 0 <= difficulty
      modifies rng
      ensures Valid() && Generated()
      ensures this.n == n && this.m == m && this.difficulty == difficulty
      ensures fresh(grid)
      ensures drawnFrom == old(rng.pos) && rng.pos == drawnTo
      ensures var g := GenerationDraws(n, m, difficulty, rng.vals, drawnFrom);
        portalPos == g.0 && keyPos == g.1 && contentCells == g.2 && drawnTo == g.3
      ensures ContentFilled(n, m, {portalPos, keyPos}, difficulty, rng.vals, ContentStart(n, m, rng.vals, drawnFrom),
                            contentCells, contentRooms, Placement(portalPos, keyPos))
      ensures HoldsAfter(contentCells, contentRooms, Placement(portalPos, keyPos))
    {
      this.n, this.m, this.difficulty := n, m, difficulty;
      grid := new Room[n, m]((i, j) => NewRoom(Empty));
      portalPos, keyPos := (0, 0), (0, 0);
      drawnFrom := rng.pos;
      drawnTo := GenerationDraws(n, m, difficulty, rng.vals, rng.pos).3;
      new;
      contentCells, contentRooms := GenerateContents(rng);
    }

    /** `random_cell(exclude, exclude_center)`: the cell `TryDraws` gives for
        the current stream position; the stream advances past the draws. */
    method RandomCell(rng: Rng, exclude: set<Cell>, excludeCentre: bool) returns (c: Cell)
      requires Valid()
      modifies rng
      ensures (c, rng.pos) == TryDraws(n, m, exclude, excludeCentre, rng.vals, old(rng.pos), 0)
      ensures InGrid(n, m, c)
    {
      RandomCellInBounds(n, m, exclude, excludeCentre, rng.vals, rng.pos, 0);
      ghost var goal := TryDraws(n, m, exclude, excludeCentre, rng.vals, rng.pos, 0);
      var attempts := 0;
      while true
        invariant 0 <= attempts <= 200
        invariant TryDraws(n, m, exclude, excludeCentre, rng.vals, rng.pos, attempts) == goal
        decreases 200 - attempts
      {
        var x := rng.RandInt(0, n - 1);
        var y := rng.RandInt(0, m - 1);
        if excludeCentre && (x, y) == (n / 2, m / 2) {
          attempts := attempts + 1;
          if attempts > 200 {
            break;
          }
          continue;
        }
        if (x, y) in exclude {
          attempts := attempts + 1;
          if attempts > 200 {
            break;
          }
          continue;
        }
        return (x, y);
      }
      assert goal == (ScanFrom(n, m, exclude, 0, 0), rng.pos);
      // fallback: first free cell in row-major order
      for i := 0 to n
        invariant ScanFrom(n, m, exclude, i, 0) == goal.0
      {
        for j := 0 to m
          invariant ScanFrom(n, m, exclude, i, j) == goal.0
        {
          if (i, j) !in exclude {
            return (i, j);
          }
        }
      }
      return (0, 0);
    }

    /** `generate_loot`: one consumable, weapon or armour whose stat grows
        with the difficulty, and with a 20% chance a small potion. */
    method GenerateLoot(rng: Rng) returns (loot: seq<Item>)
      requires 0 <= difficulty
      modifies rng
      ensures (loot, rng.pos) == LootFromDraws(rng.vals, old(rng.pos), difficulty)
      ensures LootOk(loot, difficulty)
    {
      var d := difficulty;
      ghost var start := rng.pos;
      var r := rng.RandInt(0, 100);
      if r < 40 {
        var heal := rng.RandInt(5 + d * 2, 20 + d * 3);
        loot := [Consumable("Зелье", "Восстанавливает " + NatToString(heal) + " HP", heal)];
      } else if r < 70 {
        var atk := rng.RandInt(1 + d, 3 + d * 2);
        loot := [Weapon("Оружие +" + NatToString(atk), "+" + NatToString(atk) + " к атаке", atk)];
      } else {
        var df := rng.RandInt(1 + d, 3 + d * 2);
        loot := [Armor("Доспех +" + NatToString(df), "+" + NatToString(df) + " к броне", df)];
      }
      assert loot == [MainLootFromDraws(rng.vals, start, d)] && rng.pos == start + 2;
      var extra := rng.Chance(20);
      if extra {
        var heal := rng.RandInt(3, 8);
        assert heal == Draw(rng.vals, start + 3, 3, 8);
        loot := loot + [Consumable("Малое зелье", "Малое восстановление", heal)];
      }
      assert extra == (Draw(rng.vals, start + 2, 0, 99) < 20);
      assert LootFromDraws(rng.vals, start, d).1 == rng.pos;
      assert LootFromDraws(rng.vals, start, d).0 == loot;
      LootFollowsDraws(rng.vals, start, d);
    }

    /** `generate_enemy`: a new enemy whose stats grow with the difficulty. */
    method GenerateEnemy(rng: Rng) returns (e: Enemy)
      requires 0 <= difficulty
      modifies rng
      ensures fresh(e)
      ensures EnemyFromDraws(e, rng.vals, old(rng.pos), difficulty) && rng.pos == old(rng.pos) + 3
      ensures 5 + 2 * difficulty <= e.hp <= 8 + 4 * difficulty
      ensures 1 + difficulty <= e.atk <= 2 + 2 * difficulty
      ensures 0 <= e.defense <= difficulty
      ensures e.exp == 5 + 2 * difficulty
    {
      var d := difficulty;
      var hp := rng.RandInt(5 + d * 2, 8 + d * 4);
      var atk := rng.RandInt(1 + d, 2 + d * 2);
      var df := rng.RandInt(0, d);
      e := new Enemy("Гоблин L" + NatToString(d), hp, atk, df, 5 + d * 2);
    }

    /** The first loop of `generate_contents`: every cell becomes a fresh
        empty room. */
    method ClearGrid()
      requires Valid()
      modifies grid
      ensures forall i, j :: 0 <= i < n && 0 <= j < m ==> grid[i, j] == NewRoom(Empty)
    {
      for i := 0 to n
        invariant forall a, b :: 0 <= a < i && 0 <= b < m ==> grid[a, b] == NewRoom(Empty)
      {
        for j := 0 to m
          invariant forall a, b :: 0 <= a < i && 0 <= b < m ==> grid[a, b] == NewRoom(Empty)
          invariant forall b :: 0 <= b < j ==> grid[i, b] == NewRoom(Empty)
        {
          grid[i, j] := NewRoom(Empty);
        }
      }
    }

    /** One placement of `generate_contents` at cell `c`: a weighted draw
        picks a locked-or-not chest with fresh loot (30%), a monster (40%), a
        trap whose damage grows with the difficulty (20%), or leaves the cell
        as it is (10%), as `Filled` reads it off the stream; a new monster is
        a fresh enemy drawn right after the choice.  Only cell `c` changes. */
    method FillCell(rng: Rng, c: Cell)
      requires Valid() && InGrid(n, m, c)
      modifies grid, rng
      ensures Filled(old(grid[c.0, c.1]), grid[c.0, c.1], rng.vals, old(rng.pos), difficulty)
      ensures rng.pos == FillAdvance(rng.vals, old(rng.pos), difficulty)
      ensures 30 <= Draw(rng.vals, old(rng.pos), 0, 99) < 70 ==>
        grid[c.0, c.1].enemy.Some? && fresh(grid[c.0, c.1].enemy.value) &&
        EnemyFromDraws(grid[c.0, c.1].enemy.value, rng.vals, old(rng.pos) + 1, difficulty)
      ensures grid[c.0, c.1] == old(grid[c.0, c.1]) ||
        (grid[c.0, c.1].kind in {Chest, Monster, Trap} && RoomOk(grid[c.0, c.1], difficulty))
      ensures forall i, j :: 0 <= i < n && 0 <= j < m && (i, j) != c ==> grid[i, j] == old(grid[i, j])
    {
      var choice := rng.RandInt(0, 99);
      if choice < 30 {
        var locked := rng.Chance(50);
        var loot := GenerateLoot(rng);
        grid[c.0, c.1] := NewRoom(Chest).(chestLocked := locked, chestContents := loot);
      } else if choice < 70 {
        var e := GenerateEnemy(rng);
        grid[c.0, c.1] := NewRoom(Monster).(enemy := Some(e));
      } else if choice < 90 {
        var dmg := rng.RandInt(2 + difficulty, 5 + difficulty * 3);
        grid[c.0, c.1] := NewRoom(Trap).(trapDamage := dmg);
      }
    }

    /** The portal, switched off, at a random non-centre cell, then the key at
        a random cell other than the portal and the centre, on a cleared
        grid. */
    method PlacePortalAndKey(rng: Rng)
      requires Valid()
      requires forall i, j :: 0 <= i < n && 0 <= j < m ==> grid[i, j] == NewRoom(Empty)
      modifies this`portalPos, this`keyPos, grid, rng
      ensures Valid() && Generated()
      ensures var p := TryDraws(n, m, {}, true, rng.vals, old(rng.pos), 0);
        var k := TryDraws(n, m, {p.0}, true, rng.vals, p.1, 0);
        portalPos == p.0 && keyPos == k.0 && rng.pos == k.1
      ensures forall i, j :: 0 <= i < n && 0 <= j < m && (i, j) != portalPos && (i, j) != keyPos ==>
        grid[i, j] == NewRoom(Empty)
      ensures forall i, j :: 0 <= i < n && 0 <= j < m ==> grid[i, j] == PlacedRoom((i, j), portalPos, keyPos)
    {
      PlacePortal(rng);
      PlaceKey(rng);
    }

    /** The portal half of `PlacePortalAndKey`: the portal goes to the cell
        `random_cell` draws with the centre excluded, and only that cell stops
        being a fresh empty room. */
    method PlacePortal(rng: Rng)
      requires Valid()
      requires forall i, j :: 0 <= i < n && 0 <= j < m ==> grid[i, j] == NewRoom(Empty)
      modifies this`portalPos, grid, rng
      ensures Valid()
      ensures (portalPos, rng.pos) == TryDraws(n, m, {}, true, rng.vals, old(rng.pos), 0)
      ensures grid[portalPos.0, portalPos.1] == NewRoom(Portal)
      ensures forall i, j :: 0 <= i < n && 0 <= j < m && (i, j) != portalPos ==> grid[i, j] == NewRoom(Empty)
      ensures 2 <= n || 2 <= m ==> portalPos != Centre(n, m)
    {
      ghost var pos0 := rng.pos;
      var p := RandomCell(rng, {}, true);
      portalPos := p;
      grid[p.0, p.1] := grid[p.0, p.1].(kind := Portal, portalEnabled := false);
      assert 2 <= n || 2 <= m ==> p != Centre(n, m) by {
        if 2 <= n || 2 <= m {
          RandomCellAvoidsCentre(n, m, {}, rng.vals, pos0, 0, (0, 0));
        }
      }
    }

    /** The key half of `PlacePortalAndKey`: the key goes to the cell
        `random_cell` draws with the portal and the centre excluded, so on a
        grid of two or more cells it is not the portal cell; on a 1x1 grid it
        is.  Only the key cell changes. */
    method PlaceKey(rng: Rng)
      requires Valid()
      requires grid[portalPos.0, portalPos.1] == NewRoom(Portal)
      requires forall i, j :: 0 <= i < n && 0 <= j < m && (i, j) != portalPos ==> grid[i, j] == NewRoom(Empty)
      requires 2 <= n || 2 <= m ==> portalPos != Centre(n, m)
      modifies this`keyPos, grid, rng
      ensures Valid() && Generated()
      ensures (keyPos, rng.pos) == TryDraws(n, m, {portalPos}, true, rng.vals, old(rng.pos), 0)
      ensures 2 <= n || 2 <= m ==> keyPos != portalPos
      ensures n == 1 && m == 1 ==> keyPos == portalPos
      ensures grid[keyPos.0, keyPos.1] == old(grid[keyPos.0, keyPos.1]).(kind := Key)
      ensures forall i, j :: 0 <= i < n && 0 <= j < m && (i, j) != keyPos ==> grid[i, j] == old(grid[i, j])
    {
      var p := portalPos;
      ghost var pos1 := rng.pos;
      var k := RandomCell(rng, {p}, true);
      keyPos := k;
      grid[k.0, k.1] := grid[k.0, k.1].(kind := Key);
      assert forall i, j :: 0 <= i < n && 0 <= j < m && (i, j) != p && (i, j) != k ==>
        grid[i, j] == NewRoom(Empty);
      assert RoomOk(grid[p.0, p.1], difficulty) && RoomOk(grid[k.0, k.1], difficulty);
      KeyCellDraw(n, m, p, rng.vals, pos1);
    }

    /** One round of the content loop: the cell `random_cell` draws with the
        portal and key cells excluded is filled as `Filled` reads it off the
        stream right after that draw; no other cell changes.  On a grid of
        three or more cells the drawn cell is never the portal or key cell,
        so the placement invariants survive. */
    method PlaceContent(rng: Rng) returns (c: Cell)
      requires Valid() && Generated()
      modifies grid, rng
      ensures Valid() && Generated()
      ensures var t := TryDraws(n, m, {portalPos, keyPos}, false, rng.vals, old(rng.pos), 0);
        c == t.0 && InGrid(n, m, c) &&
        Filled(old(grid[c.0, c.1]), grid[c.0, c.1], rng.vals, t.1, difficulty)
      ensures (c, rng.pos) == ContentStep(n, m, {portalPos, keyPos}, difficulty, rng.vals, old(rng.pos))
      ensures ThreeOrMoreCells(n, m) ==> c != portalPos && c != keyPos
      ensures forall i, j :: 0 <= i < n && 0 <= j < m && (i, j) != c ==> grid[i, j] == old(grid[i, j])
    {
      ghost var posC := rng.pos;
      c := RandomCell(rng, {portalPos, keyPos}, false);
      if ThreeOrMoreCells(n, m) {
        ContentCellAvoids(n, m, portalPos, keyPos, rng.vals, posC);
      }
      ghost var before := grid[c.0, c.1];
      ghost var posF := rng.pos;
      FillCell(rng, c);
      FilledRoomOk(before, grid[c.0, c.1], rng.vals, posF, difficulty);
    }

    /** `generate_contents`: clear the grid, place the portal and the key, then
        `max(n*m // 6, 4)` rounds of content placement, whose cells and rooms
        are returned in order in `cells` and `rooms`.  Portal, key and content
        cells are the ones `GenerationDraws` reads off the stream; round `k`
        filled `cells[k]` as `Filled` reads it off the stream, from the room
        the portal, the key and the earlier rounds had left there; every cell
        ends up holding the last content room placed on it, or else its
        portal, key or fresh empty room. */
    method GenerateContents(rng: Rng) returns (ghost cells: seq<Cell>, ghost rooms: seq<Room>)
      requires Valid()
      modifies this`portalPos, this`keyPos, grid, rng
      ensures Valid() && Generated()
      ensures (portalPos, keyPos, cells, rng.pos) == GenerationDraws(n, m, difficulty, rng.vals, old(rng.pos))
      ensures ThreeOrMoreCells(n, m) ==> forall k :: 0 <= k < |cells| ==> cells[k] != portalPos && cells[k] != keyPos
      ensures forall i, j :: 0 <= i < n && 0 <= j < m && (i, j) != portalPos && (i, j) != keyPos && (i, j) !in cells ==>
        grid[i, j] == NewRoom(Empty)
      ensures ContentFilled(n, m, {portalPos, keyPos}, difficulty, rng.vals, ContentStart(n, m, rng.vals, old(rng.pos)),
                            cells, rooms, Placement(portalPos, keyPos))
      ensures HoldsAfter(cells, rooms, Placement(portalPos, keyPos))
    {
      ClearGrid();
      PlacePortalAndKey(rng);
      cells, rooms := PlaceContents(rng, ContentQuota(n, m), Placement(portalPos, keyPos));
      if ThreeOrMoreCells(n, m) {
        GenerationAvoidsPortalAndKey(n, m, difficulty, rng.vals, old(rng.pos));
      }
    }

    /** The content loop of `generate_contents`: `count` placements, each at
        the cell `random_cell` draws with the portal and key cells excluded.
        The cells and the rooms placed on them are returned in order: round
        `k` filled `cells[k]` as `Filled` reads it off the stream, from the
        room the earlier rounds had left there, and every cell ends up holding
        the last room placed on it, or its old room when none was.  The ghost
        `base` names the room each cell holds on entry. */
    method PlaceContents(rng: Rng, count: nat, ghost base: Cell -> Room) returns (ghost cells: seq<Cell>, ghost rooms: seq<Room>)
      requires Valid() && Generated()
      requires forall i, j :: 0 <= i < n && 0 <= j < m ==> grid[i, j] == base((i, j))
      modifies grid, rng
      ensures Valid() && Generated()
      ensures (cells, rng.pos) == ContentDraws(n, m, {portalPos, keyPos}, difficulty, rng.vals, old(rng.pos), count)
      ensures ContentFilled(n, m, {portalPos, keyPos}, difficulty, rng.vals, old(rng.pos), cells, rooms, base)
      ensures HoldsAfter(cells, rooms, base)
      ensures forall i, j :: 0 <= i < n && 0 <= j < m && (i, j) !in cells ==> grid[i, j] == old(grid[i, j])
    {
      ghost var ex := {portalPos, keyPos};
      ghost var pos0 := rng.pos;
      cells, rooms := [], [];
      for t := 0 to count
        invariant Valid() && Generated()
        invariant (cells, rng.pos) == ContentDraws(n, m, ex, difficulty, rng.vals, pos0, t)
        invariant RoundsHold(FillRound(n, m, ex, difficulty, rng.vals, pos0), cells, rooms, base)
        invariant HoldsAfter(cells, rooms, base)
      {
        var c;
        ghost var r;
        c, r := ContentRound(rng, pos0, cells, rooms, base);
        RoundsHoldSnoc(FillRound(n, m, ex, difficulty, rng.vals, pos0), cells, rooms, base, c, r);
        cells, rooms := cells + [c], rooms + [r];
      }
      RoundsContentFilled(n, m, ex, difficulty, rng.vals, pos0, cells, rooms, base);
      forall i, j | 0 <= i < n && 0 <= j < m && (i, j) !in cells
        ensures grid[i, j] == old(grid[i, j])
      {
        assert grid[i, j] == RoomAfter(cells, rooms, (i, j), base((i, j)));
      }
    }

    /** One round of the content loop (`PlaceContent`) over the rounds so
        far: the new round fills its cell `c`, from the room the earlier
        rounds left there, into `r`, as `Filled` reads it off the stream at
        the fill position of round `|cells|`. */
    method ContentRound(rng: Rng, ghost pos0: nat, ghost cells: seq<Cell>, ghost rooms: seq<Room>,
                        ghost base: Cell -> Room)
      returns (c: Cell, ghost r: Room)
      requires Valid() && Generated()
      requires (cells, rng.pos) == ContentDraws(n, m, {portalPos, keyPos}, difficulty, rng.vals, pos0, |cells|)
      requires |rooms| == |cells| && HoldsAfter(cells, rooms, base)
      modifies grid, rng
      ensures Valid() && Generated()
      ensures (cells + [c], rng.pos) == ContentDraws(n, m, {portalPos, keyPos}, difficulty, rng.vals, pos0, |cells| + 1)
      ensures Filled(RoomAfter(cells, rooms, c, base(c)), r, rng.vals,
                     FillPos(n, m, {portalPos, keyPos}, difficulty, rng.vals, pos0, |cells|), difficulty)
      ensures HoldsAfter(cells + [c], rooms + [r], base)
    {
      c := PlaceContent(rng);
      r := grid[c.0, c.1];
      forall i, j | 0 <= i < n && 0 <= j < m
        ensures grid[i, j] == RoomAfter(cells + [c], rooms + [r], (i, j), base((i, j)))
      {
        RoomAfterSnoc(cells, rooms, c, r, (i, j), base((i, j)));
      }
    }

    /** `reveal_portal_if_key`: switch the portal cell on; nothing else
        changes. */
    method RevealPortalIfKey()
      requires Valid()
      modifies grid
      ensures grid[portalPos.0, portalPos.1] == old(grid[portalPos.0, portalPos.1]).(portalEnabled := true)
      ensures forall i, j :: 0 <= i < n && 0 <= j < m && (i, j) != portalPos ==> grid[i, j] == old(grid[i, j])
    {
      grid[portalPos.0, portalPos.1] := grid[portalPos.0, portalPos.1].(portalEnabled := true);
    }
  }
}
