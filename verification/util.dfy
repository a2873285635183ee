/** Small helpers shared by the whole game model: an option type, the
    game's `clamp`, the damage-reduction rule used by every combatant, list
    removal by index, and the decimal rendering used in item names. */
module Util {

  datatype Option<+T> = None | Some(value: T)

  /** `clamp(v, a, b)`: `v` pulled into the interval `[a, b]`
      (bettercode.py:31-32 computes `max(a, min(b, v))`, so for `a > b`
      the result is `a`). */
  function Clamp(v: int, a: int, b: int): (r: int)
    ensures a <= b ==> a <= r <= b
    ensures a <= b ==> (a <= v <= b <==> r == v)
    ensures v < a ==> r == a
    ensures a <= b && b < v ==> r == b
    ensures b < a ==> r == a
  {
    if a > (if b < v then b else v) then a else if b < v then b else v
  }

  function Max(a: int, b: int): (r: int) {
    if a >= b then a else b
  }

  /** Damage actually taken by a combatant with defence `defense` when hit
      for `dmg`: the excess of the hit over the defence, never negative. */
  function Mitigated(dmg: int, defense: int): (r: int)
    ensures r >= 0
    ensures r >= dmg - defense
    ensures r == 0 || r == dmg - defense
    ensures r == 0 <==> dmg <= defense
  {
    if dmg - defense > 0 then dmg - defense else 0
  }

  /** The list with its element at index `i` removed (Python's `pop(i)`):
      everything before `i` keeps its place, everything after moves up one. */
  function RemoveAt<T>(s: seq<T>, i: nat): (r: seq<T>)
    requires i < |s|
    ensures |r| == |s| - 1
    ensures forall k :: 0 <= k < i ==> r[k] == s[k]
    ensures forall k :: i <= k < |r| ==> r[k] == s[k + 1]
    ensures multiset(r) + multiset{s[i]} == multiset(s)
  {
    assert s == s[..i] + [s[i]] + s[i + 1..];
    s[..i] + s[i + 1..]
  }

  /** Decimal digits of a natural number, as Python's f-string prints it:
      at least one digit and no leading zero. */
  function NatToString(n: nat): (r: string)
    ensures |r| >= 1
    ensures forall k :: 0 <= k < |r| ==> '0' <= r[k] <= '9'
    ensures |r| == 1 || r[0] != '0'
  {
    var d := [['0', '1', '2', '3', '4', '5', '6', '7', '8', '9'][n % 10]];
    if n < 10 then d else NatToString(n / 10) + d
  }

  /** The number a string of decimal digits denotes. */
  function DigitsValue(s: string): (v: int) {
    if s == [] then 0 else DigitsValue(s[..|s| - 1]) * 10 + (s[|s| - 1] as int - '0' as int)
  }

  /** Reading back the printed digits of `n` gives `n`, so distinct numbers
      print differently. */
  lemma {:induction false} NatToStringRoundTrip(n: nat)
    ensures DigitsValue(NatToString(n)) == n
  {
    var s := NatToString(n);
    var digits := ['0', '1', '2', '3', '4', '5', '6', '7', '8', '9'];
    assert digits[n % 10] as int - '0' as int == n % 10;
    if n >= 10 {
      NatToStringRoundTrip(n / 10);
      assert s[..|s| - 1] == NatToString(n / 10);
    }
  }
}
