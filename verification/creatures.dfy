/** Items, enemies and the player of the dungeon crawler
    (bettercode.py:40-75 and 223-277). */
module Creatures {
  import opened Util

  /** The three kinds of item, each with a display name and description.
      Weapons add to attack, armour to defence, consumables restore hp. */
  datatype Item =
    | Weapon(name: string, desc: string, atk: int)
    | Armor(name: string, desc: string, defense: int)
    | Consumable(name: string, desc: string, heal: int)

  /** Attack bonus of an equipped weapon slot (0 when empty). */
  function WeaponBonus(w: Option<Item>): (bonus: int) {
    if w.Some? && w.value.Weapon? then w.value.atk else 0
  }

  /** Defence bonus of an equipped armour slot (0 when empty). */
  function ArmorBonus(a: Option<Item>): (bonus: int) {
    if a.Some? && a.value.Armor? then a.value.defense else 0
  }

  /** What `Player.equip` reports: which slot was filled and the name of the
      item that was there before (it is dropped, not returned to the
      inventory), or that the item cannot be equipped. */
  datatype EquipResult =
    | EquippedWeapon(previous: Option<string>)
    | EquippedArmor(previous: Option<string>)
    | NotEquippable

  /** What `Player.use_consumable` reports. */
  datatype UseResult = BadIndex | NotConsumable | Used(name: string, heal: int)

  /** A monster.  Only its hp changes after creation. */
  class Enemy {
    const name: string
    var hp: int
    const atk: int
    const defense: int
    const exp: int

    constructor (name: string, hp: int, atk: int, defense: int, exp: int)
      ensures this.name == name && this.hp == hp && this.atk == atk
      ensures this.defense == defense && this.exp == exp
    {
      this.name := name;
      this.hp := hp;
      this.atk := atk;
      this.defense := defense;
      this.exp := exp;
    }

    /** `Enemy.is_alive`: alive exactly while hp is positive. */
    function IsAlive(): (alive: bool)
      reads this
      ensures alive <==> hp >= 1
    {
      hp > 0
    }

    /** A hit for `dmg` is reduced by the enemy's defence; hp drops by exactly
        the damage dealt, which is returned and is never negative. */
    method TakeDamage(dmg: int) returns (dealt: int)
      modifies this
      ensures dealt == Mitigated(dmg, defense)
      ensures hp == old(hp) - dealt
      ensures hp <= old(hp)
    {
      dealt := Mitigated(dmg, defense);
      hp := hp - dealt;
    }
  }

  /** The player: position, hit points, base stats, two equipment slots,
      an ordered inventory, keys and experience. */
  class Player {
    var x: int
    var y: int
    const hpMax: int
    var hp: int
    const atkBase: int
    const defBase: int
    var weapon: Option<Item>
    var armor: Option<Item>
    var inventory: seq<Item>
    var keys: nat
    const level: int
    var exp: int

    /** hp never exceeds hpMax, and each slot holds an item of its kind. */
    ghost predicate Valid()
      reads this
    {
      0 <= hpMax && hp <= hpMax &&
      (weapon.Some? ==> weapon.value.Weapon?) &&
      (armor.Some? ==> armor.value.Armor?)
    }

    /** The new player of a fresh game: 100/100 hp, attack 2, defence 0. */
    constructor Spawn(x: int, y: int)
      ensures Valid()
      ensures this.x == x && this.y == y
      ensures hpMax == 100 && hp == 100 && atkBase == 2 && defBase == 0
      ensures weapon == None && armor == None && inventory == []
      ensures keys == 0 && level == 1 && exp == 0
    {
      this.x, this.y := x, y;
      hpMax, hp := 100, 100;
      atkBase, defBase := 2, 0;
      weapon, armor := None, None;
      inventory := [];
      keys, level, exp := 0, 1, 0;
    }

    /** `attack_value`: the base attack, plus the equipped weapon's bonus
        when a weapon is equipped. */
    function AttackValue(): (atk: int)
      reads this
      ensures weapon == None ==> atk == atkBase
      ensures weapon.Some? && weapon.value.Weapon? ==> atk == atkBase + weapon.value.atk
    {
      atkBase + WeaponBonus(weapon)
    }

    /** `defense_value`: the base defence, plus the equipped armour's bonus
        when armour is equipped. */
    function DefenseValue(): (def: int)
      reads this
      ensures armor == None ==> def == defBase
      ensures armor.Some? && armor.value.Armor? ==> def == defBase + armor.value.defense
    {
      defBase + ArmorBonus(armor)
    }

    /** `Player.is_alive`: alive exactly while hp is positive. */
    function IsAlive(): (alive: bool)
      reads this
      ensures alive <==> hp >= 1
    {
      hp > 0
    }

    /** A hit for `dmg` is reduced by the player's defence value; hp drops by
        exactly the damage taken, which is returned and is never negative. */
    method TakeDamage(dmg: int) returns (dealt: int)
      requires Valid()
      modifies this`hp
      ensures Valid()
      ensures dealt == Mitigated(dmg, DefenseValue())
      ensures hp == old(hp) - dealt
      ensures hp <= old(hp)
    {
      dealt := Mitigated(dmg, DefenseValue());
      hp := hp - dealt;
    }

    /** hp becomes `clamp(hp + amount, 0, hpMax)`, so it stays in `[0, hpMax]`. */
    method Heal(amount: int)
      requires Valid()
      modifies this`hp
      ensures Valid()
      ensures hp == Clamp(old(hp) + amount, 0, hpMax)
      ensures 0 <= hp <= hpMax
    {
      hp := Clamp(hp + amount, 0, hpMax);
    }

    /** A weapon replaces only the weapon slot and an armour only the armour
        slot; the replaced item is dropped.  A consumable changes nothing. */
    method Equip(item: Item) returns (res: EquipResult)
      requires Valid()
      modifies this`weapon, this`armor
      ensures Valid()
      ensures item.Weapon? ==>
        weapon == Some(item) && armor == old(armor) &&
        res == EquippedWeapon(if old(weapon).Some? then Some(old(weapon).value.name) else None)
      ensures item.Armor? ==>
        armor == Some(item) && weapon == old(weapon) &&
        res == EquippedArmor(if old(armor).Some? then Some(old(armor).value.name) else None)
      ensures item.Consumable? ==>
        weapon == old(weapon) && armor == old(armor) && res == NotEquippable
      ensures item.Weapon? ==> AttackValue() == atkBase + item.atk && DefenseValue() == old(DefenseValue())
      ensures item.Armor? ==> DefenseValue() == defBase + item.defense && AttackValue() == old(AttackValue())
    {
      if item.Weapon? {
        var previous := if weapon.Some? then Some(weapon.value.name) else None;
        weapon := Some(item);
        return EquippedWeapon(previous);
      }
      if item.Armor? {
        var previous := if armor.Some? then Some(armor.value.name) else None;
        armor := Some(item);
        return EquippedArmor(previous);
      }
      return NotEquippable;
    }

    method AddItem(item: Item)
      modifies this`inventory
      ensures inventory == old(inventory) + [item]
    {
      inventory := inventory + [item];
    }

    /** An index outside the inventory, or one naming a non-consumable, leaves
        hp and inventory as they were.  A consumable heals by its amount
        (clamped to `[0, hpMax]`) and is removed, the rest keeping its order. */
    method UseConsumable(idx: int) returns (res: UseResult)
      requires Valid()
      modifies this`hp, this`inventory
      ensures Valid()
      ensures !(0 <= idx < |old(inventory)|) ==>
        res == BadIndex && hp == old(hp) && inventory == old(inventory)
      ensures 0 <= idx < |old(inventory)| && !old(inventory)[idx].Consumable? ==>
        res == NotConsumable && hp == old(hp) && inventory == old(inventory)
      ensures 0 <= idx < |old(inventory)| && old(inventory)[idx].Consumable? ==>
        var item := old(inventory)[idx];
        res == Used(item.name, item.heal) &&
        hp == Clamp(old(hp) + item.heal, 0, hpMax) &&
        inventory == RemoveAt(old(inventory), idx)
    {
      if idx < 0 || idx >= |inventory| {
        return BadIndex;
      }
      var item := inventory[idx];
      if !item.Consumable? {
        return NotConsumable;
      }
      Heal(item.heal);
      inventory := RemoveAt(inventory, idx);
      return Used(item.name, item.heal);
    }
  }
}
