/** `convertDnDToDaggerheart`: a 5e monster in, a Daggerheart adversary and its stat block out. */
module Converter {
  import opened Text
  import opened Wrappers
  import opened JsNumber
  import opened Monsters
  import opened Tiering
  import opened Scaling
  import opened Attacks
  import opened Experience
  import opened Features
  import opened Descriptions
  import opened Markdown
  import opened Bestiary

  datatype Conversion = Conversion(adversary: Adversary, markdown: string)

  /** The adversary every step of the conversion agrees on, as a value. */
  function AdversaryOf(mon: Monster): (a: Adversary)
    ensures a.name == mon.name
    ensures 1 <= a.tier <= 4
    ensures a.role != Horde
    ensures 8 <= a.difficulty <= 18
    ensures Sound(Package(a.thresholds.0, a.thresholds.1, a.hp, a.stress))
    ensures 1 <= a.atk <= 4
    ensures a.motives == InferMotives(a.role) && |a.motives| == 3
    ensures a.features == FeaturesOf(mon, a.role)
  {
    var crNum := CrToNumber(mon.cr);
    var tier := TierOf(crNum);
    var role := InferRole(mon, crNum);
    var pkg := ThresholdsOf(tier, role, HpAverage(mon.hp), crNum);
    ThresholdsSound(tier, role, HpAverage(mon.hp), crNum);
    Adversary(
      mon.name, tier, role, InferDescription(mon), InferMotives(role), Difficulty(tier, role, mon.ac),
      (pkg.major, pkg.severe), pkg.hp, pkg.stress, ToHitToAtk(MaxToHit(mon.actions)),
      StandardAttackOf(mon.actions), ExperienceOf(mon.skills), FeaturesOf(mon, role))
  }

  function ConversionOf(mon: Monster): Conversion {
    var a := AdversaryOf(mon);
    Conversion(a, ToMarkdown(a))
  }

  /** `convertDnDToDaggerheart`: the eight steps in the source's order. */
  method ConvertDnDToDaggerheart(mon: Monster) returns (result: Conversion)
    ensures result == ConversionOf(mon)
  {
    var crNum := CrToNumber(mon.cr);
    var tier := if LessEq(crNum, 3.0) then 1 else if LessEq(crNum, 10.0) then 2 else if LessEq(crNum, 16.0) then 3 else 4;
    var role := InferRole(mon, crNum);
    var diff := Difficulty(tier, role, mon.ac);
    var pkg := ThresholdsPackage(tier, role, HpAverage(mon.hp), crNum);
    var toHit := BestToHit(mon.actions);
    var atk := ToHitToAtk(toHit);
    var std := BuildStandardAttack(mon.actions);
    var exp := PickExperience(mon.skills);
    var features := BuildFeatures(mon, role);
    var adversary := Adversary(
      mon.name, tier, role, InferDescription(mon), InferMotives(role), diff,
      (pkg.major, pkg.severe), pkg.hp, pkg.stress, atk, std, exp, features);
    assert adversary == AdversaryOf(mon);
    result := Conversion(adversary, ToMarkdown(adversary));
  }

  /** `converter.convertToDaggerheart`: the adversary alone. */
  method ConvertToDaggerheart(mon: Monster) returns (a: Adversary)
    ensures a == AdversaryOf(mon)
  {
    var result := ConvertDnDToDaggerheart(mon);
    a := result.adversary;
  }

  /** Role inference never yields Horde, so no converted adversary carries "Horde (Weakened)". */
  lemma NoHordeFeature(mon: Monster)
    ensures HordeWeakened !in AdversaryOf(mon).features
  {
    var a := AdversaryOf(mon);
    HordeIff(mon, a.role);
  }

  /** "Minion (5)" appears exactly when the adversary's role is Minion. */
  lemma MinionFeatureIffMinion(mon: Monster)
    ensures MinionFive in AdversaryOf(mon).features <==> AdversaryOf(mon).role == Minion
  {
    MinionIff(mon, AdversaryOf(mon).role);
  }

  /** A monster from the bestiary loader keeps only joined descriptions, a rendered speed and no
      damage lists, so it never gets "Flurry", a Resistance or Immunity feature, or the flying phrase. */
  lemma LoadedMonsterConversion(raw: RawMonster)
    requires NormalizeMonster(raw).Some?
    ensures Flurry !in AdversaryOf(NormalizeMonster(raw).value).features
    ensures forall types :: ResistanceFeature(types) !in AdversaryOf(NormalizeMonster(raw).value).features
    ensures forall types :: ImmunityFeature(types) !in AdversaryOf(NormalizeMonster(raw).value).features
    ensures DescriptionAction(NormalizeMonster(raw).value) != "strikes from the sky"
  {
    var mon := NormalizeMonster(raw).value;
    var a := AdversaryOf(mon);
    LoadedAbilitiesHaveNoEntries(raw);
    NoFlurryWithoutEntries(mon, a.role);
    forall types
      ensures ResistanceFeature(types) !in a.features
      ensures ImmunityFeature(types) !in a.features
    {
      NoResistanceWithoutList(mon, a.role, types);
      NoImmunityWithoutList(mon, a.role, types);
    }
    TextSpeedNeverFlies(mon);
  }

  /** A stored record whose challenge rating is falsy (0, "" or an object with an empty `cr`) is kept
      with "0", which the converter reads as 1: tier 1. A record with no rating at all is never
      stored (`Bestiary.StoredExactlyWhenValid`). */
  lemma FalsyCrIsTierOne(raw: RawMonster)
    requires Accepted(raw) && NormalizeMonster(raw).Some?
    requires raw.cr == CrNum(0) || raw.cr == CrString("") || raw.cr == CrObject("")
    ensures AdversaryOf(NormalizeMonster(raw).value).tier == 1
  {
    var mon := NormalizeMonster(raw).value;
    assert mon.cr == CrText("0");
    ZeroRatingReadsOne();
    AdversaryTier(mon);
  }

  lemma AdversaryTier(mon: Monster)
    ensures AdversaryOf(mon).tier == TierOf(CrToNumber(mon.cr))
  {
  }
}
