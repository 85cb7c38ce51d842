/**
 * A minion's combat stats: attack, hit points, maximum hit points and a
 * seven-bit flag set, with setters that each touch one field, a flag reset,
 * an OR-merge of another stat's flags, equality and a hash.
 */
module MinionStats {

  /** The flags, in bit order. */
  datatype Flag = Taunt | Charge | Shield | Stealth | Forgetful | FreezeAttacker | Freezed

  /** The number of flags (`FLAG_MAX`), which is the width of the flag set. */
  const FlagMax: nat := 7

  /** The bit a flag occupies. */
  function Position(f: Flag): (p: nat)
    ensures p < FlagMax
  {
    match f
    case Taunt => 0
    case Charge => 1
    case Shield => 2
    case Stealth => 3
    case Forgetful => 4
    case FreezeAttacker => 5
    case Freezed => 6
  }

  /** `std::bitset<FLAG_MAX>`. */
  type Flags = bv7

  const NoFlags: Flags := 0

  function Bit(f: Flag): Flags
  {
    1 << Position(f)
  }

  /** `flags[f]`. */
  predicate Test(flags: Flags, f: Flag)
  {
    flags & Bit(f) != 0
  }

  /** `flags.set(f, v)`: flag f becomes v, every other flag keeps its value. */
  function WithFlag(flags: Flags, f: Flag, v: bool): (r: Flags)
    ensures Test(r, f) == v
    ensures forall g :: g != f ==> Test(r, g) == Test(flags, g)
  {
    if v then flags | Bit(f) else flags & !Bit(f)
  }

  /** `flags |= other`: a flag is set afterwards iff it was set in either. */
  function Union(flags: Flags, other: Flags): (r: Flags)
    ensures forall g :: Test(r, g) <==> Test(flags, g) || Test(other, g)
  {
    flags | other
  }

  /** The empty set has no flag. */
  lemma NoFlagsIsEmpty()
    ensures forall g :: !Test(NoFlags, g)
  {
  }

  /** Seven flags fill the seven bits, so two flag sets are equal iff they agree on every flag. */
  lemma {:induction false} FlagsExtensional(a: Flags, b: Flags)
    ensures a == b <==> forall g :: Test(a, g) == Test(b, g)
  {
    if forall g :: Test(a, g) == Test(b, g) {
      assert Test(a, Taunt) == Test(b, Taunt);
      assert Test(a, Charge) == Test(b, Charge);
      assert Test(a, Shield) == Test(b, Shield);
      assert Test(a, Stealth) == Test(b, Stealth);
      assert Test(a, Forgetful) == Test(b, Forgetful);
      assert Test(a, FreezeAttacker) == Test(b, FreezeAttacker);
      assert Test(a, Freezed) == Test(b, Freezed);
    }
  }

  /** Merging the same flags a second time changes nothing. */
  lemma {:induction false} MergeTwice(flags: Flags, other: Flags)
    ensures Union(Union(flags, other), other) == Union(flags, other)
  {
    FlagsExtensional(Union(Union(flags, other), other), Union(flags, other));
  }

  /** Merging is commutative on the flags it produces. */
  lemma {:induction false} MergeCommutes(flags: Flags, other: Flags)
    ensures Union(flags, other) == Union(other, flags)
  {
    FlagsExtensional(Union(flags, other), Union(other, flags));
  }

  /**
   * The hash folds attack, hp, max_hp and the flags, in that order, into a
   * seed of 0 with `hash_combine`; the combining step is a parameter.
   */
  function HashOf(combine: (int, int) -> int, attack: int, hp: int, maxHp: int, flags: Flags): int
  {
    combine(combine(combine(combine(0, attack), hp), maxHp), flags as int)
  }

  class MinionStat {
    var attack: int
    var hp: int
    var maxHp: int
    var flags: Flags

    /** A new stat has zero attack, hp and max hp, and no flag. */
    constructor ()
      ensures attack == 0 && hp == 0 && maxHp == 0
      ensures forall f :: !GetFlag(f)
    {
      attack := 0;
      hp := 0;
      maxHp := 0;
      flags := NoFlags;
    }

    method SetAttack(value: int)
      modifies this
      ensures attack == value
      ensures hp == old(hp) && maxHp == old(maxHp) && flags == old(flags)
    {
      attack := value;
    }

    method SetHP(value: int)
      modifies this
      ensures hp == value
      ensures attack == old(attack) && maxHp == old(maxHp) && flags == old(flags)
    {
      hp := value;
    }

    method SetMaxHP(value: int)
      modifies this
      ensures maxHp == value
      ensures attack == old(attack) && hp == old(hp) && flags == old(flags)
    {
      maxHp := value;
    }

    /** Sets one flag to `v`; the other flags and the numbers are unchanged. */
    method SetFlag(f: Flag, v: bool)
      modifies this
      ensures GetFlag(f) == v
      ensures forall g :: g != f ==> GetFlag(g) == old(GetFlag(g))
      ensures attack == old(attack) && hp == old(hp) && maxHp == old(maxHp)
    {
      flags := WithFlag(flags, f, v);
    }

    function GetAttack(): (r: int)
      reads this
      ensures r == attack
    {
      attack
    }

    function GetHP(): (r: int)
      reads this
      ensures r == hp
    {
      hp
    }

    function GetMaxHP(): (r: int)
      reads this
      ensures r == maxHp
    {
      maxHp
    }

    /** `flags[f]`: the bit at f's position. */
    predicate GetFlag(f: Flag)
      reads this
      ensures GetFlag(f) <==> flags & (1 << Position(f)) != 0
    {
      Test(flags, f)
    }

    /** Every flag becomes false; the numbers are unchanged. */
    method ClearFlags()
      modifies this
      ensures forall f :: !GetFlag(f)
      ensures attack == old(attack) && hp == old(hp) && maxHp == old(maxHp)
    {
      flags := NoFlags;
    }

    /** Each flag becomes the OR of its value and rhs's; the numbers are unchanged. */
    method MergeFlags(rhs: MinionStat)
      modifies this
      ensures flags == Union(old(flags), old(rhs.flags))
      ensures forall f :: GetFlag(f) <==> old(GetFlag(f)) || old(rhs.GetFlag(f))
      ensures attack == old(attack) && hp == old(hp) && maxHp == old(maxHp)
    {
      flags := flags | rhs.flags;
    }

    /** `operator==`: equal numbers and the same value for every flag. */
    predicate Equals(rhs: MinionStat)
      reads this, rhs
      ensures Equals(rhs) <==>
        && attack == rhs.attack && hp == rhs.hp && maxHp == rhs.maxHp
        && forall f :: Test(flags, f) == Test(rhs.flags, f)
    {
      FlagsExtensional(flags, rhs.flags);
      attack == rhs.attack && hp == rhs.hp && maxHp == rhs.maxHp && flags == rhs.flags
    }

    /** `operator!=`. */
    predicate NotEquals(rhs: MinionStat)
      reads this, rhs
      ensures NotEquals(rhs) <==>
        attack != rhs.attack || hp != rhs.hp || maxHp != rhs.maxHp || exists f :: Test(flags, f) != Test(rhs.flags, f)
    {
      !Equals(rhs)
    }

    /** `std::hash<MinionStat>`: attack, hp, max hp and the flags, in that order, folded into 0. */
    function Hash(combine: (int, int) -> int): (r: int)
      reads this
      ensures r == combine(combine(combine(combine(0, GetAttack()), GetHP()), GetMaxHP()), flags as int)
    {
      HashOf(combine, attack, hp, maxHp, flags)
    }
  }

  /** Equal stats hash equal, whatever the combining step, since the hash reads only the compared fields. */
  lemma EqualStatsHashEqual(a: MinionStat, b: MinionStat, combine: (int, int) -> int)
    requires a.Equals(b)
    ensures a.Hash(combine) == b.Hash(combine)
  {
    FlagsExtensional(a.flags, b.flags);
  }

  /** Equality is reflexive and symmetric. */
  lemma EqualsIsReflexiveAndSymmetric(a: MinionStat, b: MinionStat)
    ensures a.Equals(a)
    ensures a.Equals(b) <==> b.Equals(a)
  {
  }
}
