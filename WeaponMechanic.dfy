/**
 * The weapon configuration `UWeaponMechanic`: how a weapon fires (shots per
 * trigger pull, inter-shot delay, trigger cooldown) and the spread pattern
 * (a flat row-major grid of cells, each firing a projectile when true).
 * Times are `real` seconds; widths and multipliers are `int`.
 */
module Mechanic {

  /** The abstract value of a weapon mechanic: every field the fire controller reads. */
  datatype FireParams = FireParams(
    shotMultiplier: int,
    multiplierDelay: real,
    fireDelay: real,
    spreadWidth: int,
    spreadDepth: real,
    spreadArea: real,
    spreadPattern: seq<bool>,
    fullAutomatic: bool)

  /** Both delays are non-negative; every mechanic the class builds keeps this. */
  predicate NonNegativeDelays(p: FireParams)
  {
    p.multiplierDelay >= 0.0 && p.fireDelay >= 0.0
  }

  /** Row length of the default spread grid. */
  const DefaultWidth: int := 3

  /** The default spread pattern: one row of `DefaultWidth` cells, only the centre one active. */
  function DefaultPattern(): (p: seq<bool>)
    ensures |p| == DefaultWidth
    ensures p[1]
    ensures forall k :: 0 <= k < |p| && k != 1 ==> !p[k]
  {
    seq(DefaultWidth, _ => false)[1 := true]
  }

  /** The clamp applied to a new shot multiplier: values below one become one. */
  function AtLeastOne(m: int): (r: int)
    ensures r >= 1
    ensures r == m <==> m >= 1
    ensures m < 1 ==> r == 1
  {
    if m < 1 then 1 else m
  }

  /** The clamp applied to a new delay, depth or area: negative values become zero. */
  function NonNegative(v: real): (r: real)
    ensures r >= 0.0
    ensures r == v <==> v >= 0.0
    ensures v < 0.0 ==> r == 0.0
  {
    if v < 0.0 then 0.0 else v
  }

  class WeaponMechanic {
    var ShotMultiplier: int
    var MultiplierDelay: real
    var FireDelay: real
    var SpreadWidth: int
    var SpreadDepth: real
    var SpreadArea: real
    var SpreadPattern: seq<bool>
    /** Declared with the class but never assigned by the constructors modelled here. */
    var FullAutomatic: bool

    function Params(): FireParams
      reads this
    {
      FireParams(ShotMultiplier, MultiplierDelay, FireDelay, SpreadWidth,
                 SpreadDepth, SpreadArea, SpreadPattern, FullAutomatic)
    }

    /** The default firing parameters, apart from the pattern and FullAutomatic. */
    predicate HasDefaultTiming()
      reads this
    {
      MultiplierDelay == 0.05 && FireDelay == 0.2 && SpreadDepth == 100.0 && SpreadArea == 4.0
    }

    /** Everything the default constructor sets. */
    predicate IsDefault()
      reads this
    {
      ShotMultiplier == 1 && HasDefaultTiming() &&
      SpreadWidth == DefaultWidth && SpreadPattern == DefaultPattern()
    }

    /** The default constructor: single shot, three-cell row with the centre cell active. */
    constructor ()
      ensures IsDefault()
      ensures |SpreadPattern| == SpreadWidth
      ensures NonNegativeDelays(Params())
    {
      ShotMultiplier := 1;
      MultiplierDelay := 0.05;
      FireDelay := 0.2;
      SpreadWidth := DefaultWidth;
      SpreadDepth := 100.0;
      SpreadArea := 4.0;
      SpreadPattern := DefaultPattern();
    }

    /** Like the default constructor, but the multiplier is stored as given, without a clamp. */
    constructor WithMultiplier(multiplier: int)
      ensures ShotMultiplier == multiplier
      ensures HasDefaultTiming()
      ensures SpreadWidth == DefaultWidth && SpreadPattern == DefaultPattern()
      ensures NonNegativeDelays(Params())
    {
      ShotMultiplier := multiplier;
      MultiplierDelay := 0.05;
      FireDelay := 0.2;
      SpreadWidth := DefaultWidth;
      SpreadDepth := 100.0;
      SpreadArea := 4.0;
      SpreadPattern := DefaultPattern();
    }

    /** Multiplier, pattern and width stored as given: no clamp and no width check. */
    constructor WithPattern(multiplier: int, pattern: seq<bool>, width: int)
      ensures ShotMultiplier == multiplier && SpreadPattern == pattern && SpreadWidth == width
      ensures HasDefaultTiming()
      ensures NonNegativeDelays(Params())
    {
      ShotMultiplier := multiplier;
      MultiplierDelay := 0.05;
      FireDelay := 0.2;
      SpreadWidth := width;
      SpreadDepth := 100.0;
      SpreadArea := 4.0;
      SpreadPattern := pattern;
    }

    /**
     * Replaces width and pattern together when the width fits in the new
     * pattern; otherwise reports failure and keeps the old ones. Neither a
     * non-positive width nor a ragged last row is rejected.
     */
    method ChangePattern(newPattern: seq<bool>, width: int) returns (ok: bool)
      modifies this`SpreadWidth, this`SpreadPattern
      ensures ok <==> width <= |newPattern|
      ensures ok ==> Params() == old(Params()).(spreadWidth := width, spreadPattern := newPattern)
      ensures !ok ==> Params() == old(Params())
      ensures old(NonNegativeDelays(Params())) ==> NonNegativeDelays(Params())
    {
      if width <= |newPattern| {
        SpreadWidth := width;
        SpreadPattern := newPattern;
        return true;
      }
      return false;
    }

    method ModifyShotMultiplier(multiplier: int)
      modifies this`ShotMultiplier
      ensures Params() == old(Params()).(shotMultiplier := AtLeastOne(multiplier))
      ensures old(NonNegativeDelays(Params())) ==> NonNegativeDelays(Params())
    {
      ShotMultiplier := multiplier;
      if ShotMultiplier < 1 {
        ShotMultiplier := 1;
      }
    }

    method ModifyFireDelay(delay: real)
      modifies this`FireDelay
      ensures Params() == old(Params()).(fireDelay := NonNegative(delay))
      ensures old(NonNegativeDelays(Params())) ==> NonNegativeDelays(Params())
    {
      FireDelay := delay;
      if FireDelay < 0.0 {
        FireDelay := 0.0;
      }
    }

    method ModifyShotMultiplierDelay(delay: real)
      modifies this`MultiplierDelay
      ensures Params() == old(Params()).(multiplierDelay := NonNegative(delay))
      ensures old(NonNegativeDelays(Params())) ==> NonNegativeDelays(Params())
    {
      MultiplierDelay := delay;
      if MultiplierDelay < 0.0 {
        MultiplierDelay := 0.0;
      }
    }

    method ModifySpreadDepth(depth: real)
      modifies this`SpreadDepth
      ensures Params() == old(Params()).(spreadDepth := NonNegative(depth))
      ensures old(NonNegativeDelays(Params())) ==> NonNegativeDelays(Params())
    {
      SpreadDepth := depth;
      if SpreadDepth < 0.0 {
        SpreadDepth := 0.0;
      }
    }

    method ModifySpreadArea(area: real)
      modifies this`SpreadArea
      ensures Params() == old(Params()).(spreadArea := NonNegative(area))
      ensures old(NonNegativeDelays(Params())) ==> NonNegativeDelays(Params())
    {
      SpreadArea := area;
      if SpreadArea < 0.0 {
        SpreadArea := 0.0;
      }
    }
  }
}
