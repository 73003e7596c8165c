/** Difficulty from the tier/role baseline table and the armour class, and the
    damage thresholds, hit points and stress of an adversary. */
module Scaling {
  import opened Wrappers
  import opened JsNumber
  import opened Tiering

  /** `baselineDifficulty`: the per-tier table; a tier outside 1..4 reads the tier 2 row. */
  function BaselineDifficulty(tier: int, role: Role): (d: int)
    ensures 8 <= d <= 18
  {
    match role
    case Standard => [13, 12, 13, 14, 15][if 1 <= tier <= 4 then tier else 0]
    case Ranged   => [14, 12, 14, 15, 16][if 1 <= tier <= 4 then tier else 0]
    case Skulk    => [14, 13, 14, 15, 16][if 1 <= tier <= 4 then tier else 0]
    case Horde    => [10, 8, 10, 12, 13][if 1 <= tier <= 4 then tier else 0]
    case Bruiser  => [16, 12, 16, 17, 18][if 1 <= tier <= 4 then tier else 0]
    case Leader   => [15, 13, 15, 16, 17][if 1 <= tier <= 4 then tier else 0]
    case Minion   => [12, 11, 12, 13, 14][if 1 <= tier <= 4 then tier else 0]
    case Solo     => [15, 14, 15, 16, 17][if 1 <= tier <= 4 then tier else 0]
    case Support  => [13, 12, 13, 14, 15][if 1 <= tier <= 4 then tier else 0]
    case Social   => [13, 12, 13, 14, 15][if 1 <= tier <= 4 then tier else 0]
  }

  /** Each role's baseline rises (weakly) with the tier. */
  lemma BaselineMonotone(t1: int, t2: int, role: Role)
    requires 1 <= t1 <= t2 <= 4
    ensures BaselineDifficulty(t1, role) <= BaselineDifficulty(t2, role)
  {
  }

  /** `clamp(x, lo, hi) = max(lo, min(hi, x))` */
  function Clamp(x: int, lo: int, hi: int): (r: int)
    ensures lo <= hi ==> lo <= r <= hi
    ensures lo <= x <= hi ==> r == x
    ensures x < lo ==> r == lo
    ensures lo <= hi < x ==> r == hi
  {
    var m := if hi < x then hi else x;
    if lo > m then lo else m
  }

  /** `Math.round`: the nearest integer, halves rounded up. */
  function JsRound(x: real): (n: int)
    ensures n as real - 0.5 <= x < n as real + 0.5
  {
    (x + 0.5).Floor
  }

  /** For an integer armour class, `Math.round((ac-13)/2)` is `floor((ac-12)/2)`. */
  lemma AcOffsetClosedForm(ac: int)
    ensures JsRound((ac - 13) as real / 2.0) == (ac - 12) / 2
  {
    var q := (ac - 12) / 2;
    assert ac - 12 == 2 * q || ac - 12 == 2 * q + 1;
  }

  /** The armour class read by the converter: 12 when absent. */
  function EffectiveAc(ac: Option<int>): int {
    ac.GetOr(12)
  }

  /** Difficulty: baseline plus the rounded half of (AC - 13), clamped to 8..18. */
  function Difficulty(tier: int, role: Role, ac: Option<int>): (d: int)
    ensures 8 <= d <= 18
    ensures ac.None? ==> d == BaselineDifficulty(tier, role)
  {
    AcOffsetClosedForm(EffectiveAc(ac));
    Clamp(BaselineDifficulty(tier, role) + JsRound((EffectiveAc(ac) - 13) as real / 2.0), 8, 18)
  }

  /** More armour never lowers the difficulty. */
  lemma DifficultyMonotoneInAc(tier: int, role: Role, ac1: int, ac2: int)
    requires ac1 <= ac2
    ensures Difficulty(tier, role, Some(ac1)) <= Difficulty(tier, role, Some(ac2))
  {
    AcOffsetClosedForm(ac1);
    AcOffsetClosedForm(ac2);
  }

  /** `expectedLowHP` */
  function ExpectedLowHp(cr: Num): int {
    if LessEq(cr, 1.0) then 10 else if LessEq(cr, 3.0) then 30 else if LessEq(cr, 10.0) then 90
    else if LessEq(cr, 16.0) then 170 else 230
  }

  /** `expectedHighHP` */
  function ExpectedHighHp(cr: Num): int {
    if LessEq(cr, 1.0) then 25 else if LessEq(cr, 3.0) then 55 else if LessEq(cr, 10.0) then 150
    else if LessEq(cr, 16.0) then 260 else 350
  }

  /** The low band lies strictly below the high band for every challenge rating. */
  lemma HpBandsOrdered(cr: Num)
    ensures ExpectedLowHp(cr) < ExpectedHighHp(cr)
  {
  }

  /** A higher challenge rating never lowers either expected band; NaN falls in the top band. */
  lemma ExpectedHpMonotone(x: real, y: real)
    requires x <= y
    ensures ExpectedLowHp(Fin(x)) <= ExpectedLowHp(Fin(y))
    ensures ExpectedHighHp(Fin(x)) <= ExpectedHighHp(Fin(y))
    ensures ExpectedLowHp(NaN) == 230 && ExpectedHighHp(NaN) == 350
  {
  }

  /** Thresholds [major, severe], hit points and stress. */
  datatype Package = Package(major: int, severe: int, hp: int, stress: int)

  /** The defaults before nudging: three book packages, else the generic formula. */
  function BasePackage(tier: int, role: Role): Package {
    if tier == 1 && role == Standard then Package(8, 14, 5, 3)
    else if tier == 1 && role == Horde then Package(6, 12, 6, 3)
    else if tier == 2 && role == Bruiser then Package(14, 27, 7, 5)
    else Package(8 + (tier - 1) * 3, 14 + (tier - 1) * 6, 5 + (if tier > 2 then 1 else 0),
                 if role == Leader || role == Bruiser then 4 else 3)
  }

  /** The nudge for a creature at or below the low band. */
  function Shrink(p: Package): Package {
    var major := if p.major - 2 > 4 then p.major - 2 else 4;
    var severe := if p.severe - 2 > major + 4 then p.severe - 2 else major + 4;
    var hp := if p.hp - 1 > 4 then p.hp - 1 else 4;
    Package(major, severe, hp, p.stress)
  }

  /** The nudge for a creature at or above the high band. */
  function Grow(p: Package): Package {
    Package(p.major + 2, p.severe + 3, if p.hp + 1 < 8 then p.hp + 1 else 8, p.stress)
  }

  predicate ShrinkFires(dndHp: Num, crNum: Num) { LessEq(dndHp, ExpectedLowHp(crNum) as real) }
  predicate GrowFires(dndHp: Num, crNum: Num) { GreaterEq(dndHp, ExpectedHighHp(crNum) as real) }

  /** `thresholdsPackage` as a value. */
  function ThresholdsOf(tier: int, role: Role, dndHp: Num, crNum: Num): Package {
    var b := BasePackage(tier, role);
    var s := if ShrinkFires(dndHp, crNum) then Shrink(b) else b;
    if GrowFires(dndHp, crNum) then Grow(s) else s
  }

  /** A package an adversary can be printed with. */
  predicate Sound(p: Package) {
    && p.major >= 4
    && p.severe >= p.major + 4
    && 4 <= p.hp <= 8
    && p.stress in {3, 4, 5}
  }

  /** `thresholdsPackage`: the defaults, then the two nudges in turn. */
  method ThresholdsPackage(tier: int, role: Role, dndHp: Num, crNum: Num) returns (pkg: Package)
    ensures pkg == ThresholdsOf(tier, role, dndHp, crNum)
    ensures 1 <= tier <= 4 ==> Sound(pkg)
  {
    var b := BasePackage(tier, role);
    var major, severe, hp, stress := b.major, b.severe, b.hp, b.stress;
    var shrink, grow := ShrinkFires(dndHp, crNum), GrowFires(dndHp, crNum);
    if shrink {
      major := if major - 2 > 4 then major - 2 else 4;
      severe := if severe - 2 > major + 4 then severe - 2 else major + 4;
      hp := if hp - 1 > 4 then hp - 1 else 4;
    }
    ghost var s := Package(major, severe, hp, stress);
    assert s == if shrink then Shrink(b) else b;
    if grow {
      major := major + 2;
      severe := severe + 3;
      hp := if hp + 1 < 8 then hp + 1 else 8;
    }
    pkg := Package(major, severe, hp, stress);
    assert pkg == if grow then Grow(s) else s;
    StagesGiveThresholds(tier, role, dndHp, crNum, s);
    if 1 <= tier <= 4 {
      ThresholdsSound(tier, role, dndHp, crNum);
    }
  }

  lemma StagesGiveThresholds(tier: int, role: Role, dndHp: Num, crNum: Num, s: Package)
    requires s == if ShrinkFires(dndHp, crNum) then Shrink(BasePackage(tier, role)) else BasePackage(tier, role)
    ensures ThresholdsOf(tier, role, dndHp, crNum) == if GrowFires(dndHp, crNum) then Grow(s) else s
  {
  }

  /** For every tier the converter produces, the package is sound. */
  lemma ThresholdsSound(tier: int, role: Role, dndHp: Num, crNum: Num)
    requires 1 <= tier <= 4
    ensures Sound(ThresholdsOf(tier, role, dndHp, crNum))
  {
    NudgesExclusive(dndHp, crNum);
  }

  /** At most one nudge applies: no hit-point value is both at most the low band and at least the high band. */
  lemma NudgesExclusive(dndHp: Num, crNum: Num)
    ensures !(ShrinkFires(dndHp, crNum) && GrowFires(dndHp, crNum))
  {
    HpBandsOrdered(crNum);
  }
}
