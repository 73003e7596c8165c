/** Challenge-rating parsing, the four tiers, and first-match role inference. */
module Tiering {
  import opened Text
  import opened Wrappers
  import opened JsNumber
  import opened Monsters

  /** `crToNumber`: fractions divide, anything falsy or unparseable becomes 1. */
  function CrToNumber(cr: CrValue): Num {
    match cr
    case CrMissing => Fin(1.0)
    case CrNumber(v) => if v == 0.0 then Fin(1.0) else Fin(v)
    case CrText(text) =>
      if text == "" then Fin(1.0)
      else
        var s := Trim(text);
        if '/' in s then
          var parts := Split(s, '/');
          Divide(ParseNumber(parts[0]), ParseNumber(parts[1]))
        else
          var n := ParseNumber(s);
          if Truthy(n) then n else Fin(1.0)
  }

  /** A CR written as "a/b" with decimal numerator and denominator is their quotient. */
  lemma CrFraction(a: string, b: string)
    requires a != "" && b != "" && AllDigits(a) && AllDigits(b) && DigitsValue(b) > 0
    ensures CrToNumber(CrText(a + "/" + b)) == Fin(DigitsValue(a) as real / DigitsValue(b) as real)
  {
    var s := a + "/" + b;
    FractionText(a, b);
    ParseDigits(a);
    ParseDigits(b);
    CrSlash(s, Fin(DigitsValue(a) as real), Fin(DigitsValue(b) as real));
  }

  /** "a/b" with digit runs a and b is already trimmed, and splits into a and b. */
  lemma FractionText(a: string, b: string)
    requires a != "" && b != "" && AllDigits(a) && AllDigits(b)
    ensures Trim(a + "/" + b) == a + "/" + b
    ensures '/' in a + "/" + b
    ensures Split(a + "/" + b, '/') == [a, b]
  {
    var s := a + "/" + b;
    assert s[0] == a[0] && s[|s| - 1] == b[|b| - 1];
    TrimUnchanged(s);
    NoSlashInDigits(a);
    NoSlashInDigits(b);
    SplitFirst(a, b, '/');
    assert Split(b, '/') == [b];
    assert s[|a|] == '/';
  }

  /** The fraction branch of `crToNumber`. */
  lemma CrSlash(text: string, x: Num, y: Num)
    requires text != "" && '/' in Trim(text)
    requires ParseNumber(Split(Trim(text), '/')[0]) == x && ParseNumber(Split(Trim(text), '/')[1]) == y
    ensures CrToNumber(CrText(text)) == Divide(x, y)
  {
  }

  lemma NoSlashInDigits(d: string)
    requires AllDigits(d)
    ensures '/' !in d
  {
    assert !IsDigit('/');
  }

  /** Splitting at the first separator. */
  lemma SplitFirst(a: string, b: string, c: char)
    requires c !in a
    ensures Split(a + [c] + b, c) == [a] + Split(b, c)
  {
    var s := a + [c] + b;
    var k := IndexOf(s, c);
    assert s[|a|] == c;
    assert s[..|a|] == a;
    assert s[..k] == a;
    assert s[k + 1..] == b;
  }

  /** A value that is not a fraction never comes out as 0 or NaN: it defaults to 1. */
  lemma CrNonFractionTruthy(cr: CrValue)
    requires cr.CrText? ==> '/' !in Trim(cr.text)
    ensures Truthy(CrToNumber(cr))
    ensures cr.CrMissing? || cr == CrNumber(0.0) || cr == CrText("") ==> CrToNumber(cr) == Fin(1.0)
    ensures cr.CrNumber? && cr.value != 0.0 ==> CrToNumber(cr) == Fin(cr.value)
    ensures cr.CrText? && !Truthy(ParseNumber(Trim(cr.text))) ==> CrToNumber(cr) == Fin(1.0)
  {
  }

  /** The rating "0" a record with a falsy one is stored with is read as 1. */
  lemma ZeroRatingReadsOne()
    ensures CrToNumber(CrText("0")) == Fin(1.0)
  {
    assert Trim("0") == "0";
  }

  /** The tier expression: CR up to 3, 10 and 16 give tiers 1, 2 and 3; the rest (NaN included) 4. */
  function TierOf(crNum: Num): (t: int)
    ensures 1 <= t <= 4
    ensures t == 1 <==> LessEq(crNum, 3.0)
    ensures t == 2 <==> !LessEq(crNum, 3.0) && LessEq(crNum, 10.0)
    ensures t == 3 <==> !LessEq(crNum, 10.0) && LessEq(crNum, 16.0)
    ensures t == 4 <==> !LessEq(crNum, 16.0)
  {
    if LessEq(crNum, 3.0) then 1 else if LessEq(crNum, 10.0) then 2 else if LessEq(crNum, 16.0) then 3 else 4
  }

  /** A higher challenge rating never gives a lower tier. */
  lemma TierMonotone(x: real, y: real)
    requires x <= y
    ensures TierOf(Fin(x)) <= TierOf(Fin(y))
  {
  }

  /** The adversary roles of the converter's tables. */
  datatype Role = Standard | Ranged | Skulk | Horde | Bruiser | Leader | Minion | Solo | Support | Social

  function RoleName(r: Role): string {
    match r
    case Standard => "Standard"
    case Ranged => "Ranged"
    case Skulk => "Skulk"
    case Horde => "Horde"
    case Bruiser => "Bruiser"
    case Leader => "Leader"
    case Minion => "Minion"
    case Solo => "Solo"
    case Support => "Support"
    case Social => "Social"
  }

  predicate HasMultiattack(acts: seq<Ability>) {
    exists i :: 0 <= i < |acts| && Contains(Lower(acts[i].name), "multiattack")
  }

  /** Some action's attack text mentions the word "range". */
  predicate Rangedish(acts: seq<Ability>) {
    exists i :: 0 <= i < |acts| && ContainsWord(Lower(ActionText(acts[i])), "range")
  }

  function SkillNames(skills: seq<(string, string)>): (names: seq<string>)
    ensures |names| == |skills|
    ensures forall i :: 0 <= i < |skills| ==> names[i] == skills[i].0
  {
    seq(|skills|, i requires 0 <= i < |skills| => skills[i].0)
  }

  /** A trait field, in the serialised traits, mentions one of the keywords. */
  predicate TraitFieldsMention(traits: seq<Ability>, keywords: seq<string>) {
    exists i :: 0 <= i < |traits| &&
      (|| ContainsAny(Lower(traits[i].name), keywords)
       || ContainsAny(Lower(traits[i].desc), keywords)
       || ContainsAny(Lower(traits[i].damage), keywords)
       || exists j :: 0 <= j < |traits[i].entries| && ContainsAny(Lower(traits[i].entries[j]), keywords))
  }

  /** Stealth among the skill names, or invisibility, hiding or ambushing among the traits. */
  predicate Stealthy(mon: Monster) {
    || Contains(Lower(Join(SkillNames(mon.skills), " ")), "stealth")
    || TraitFieldsMention(mon.traits, ["invisible", "hide", "ambush"])
  }

  predicate Summons(traits: seq<Ability>) {
    exists i :: 0 <= i < |traits| && Contains(Lower(traits[i].name), "summon")
  }

  /** `mon.hp?.average ?? mon.hp ?? 1` as a number; formula text goes through `Number`. */
  function HpAverage(hp: HpValue): Num {
    match hp
    case HpMissing => Fin(1.0)
    case HpNumber(n) => Fin(n as real)
    case HpFormula(f) => ParseNumber(f)
  }

  /** `mon.size || 'M'` */
  function SizeCode(mon: Monster): string {
    if mon.size == "" then "M" else mon.size
  }

  /** `/[L|H|G]/`: the character class holds L, H, G and also the bar. */
  predicate LargeSize(size: string) {
    exists i :: 0 <= i < |size| && size[i] in "L|HG"
  }

  predicate MinionSignal(mon: Monster, crNum: Num) {
    Less(crNum, 0.25) || Less(HpAverage(mon.hp), 8.0)
  }

  predicate BruiserSignal(mon: Monster) {
    LargeSize(SizeCode(mon)) && (HasMultiattack(mon.actions) || GreaterEq(HpAverage(mon.hp), 80.0))
  }

  /** `inferRole`: the first rule that applies decides. */
  function InferRole(mon: Monster, crNum: Num): (r: Role)
    ensures r in {Leader, Skulk, Ranged, Minion, Bruiser, Standard}
    ensures r == Leader <==> Summons(mon.traits)
    ensures r == Skulk <==> !Summons(mon.traits) && Stealthy(mon) && !Rangedish(mon.actions)
    ensures r == Ranged <==> !Summons(mon.traits) && Rangedish(mon.actions) && !Stealthy(mon)
    ensures r == Minion <==>
      !Summons(mon.traits) && (Stealthy(mon) <==> Rangedish(mon.actions)) && MinionSignal(mon, crNum)
    ensures r == Bruiser <==>
      && !Summons(mon.traits) && (Stealthy(mon) <==> Rangedish(mon.actions))
      && !MinionSignal(mon, crNum) && BruiserSignal(mon)
  {
    var stealthy := Stealthy(mon);
    var rangedish := Rangedish(mon.actions);
    if Summons(mon.traits) then Leader
    else if stealthy && !rangedish then Skulk
    else if rangedish && !stealthy then Ranged
    else if MinionSignal(mon, crNum) then Minion
    else if BruiserSignal(mon) then Bruiser
    else Standard
  }

  /** The stealth test on the joined skill names holds exactly when some skill name mentions stealth. */
  lemma StealthSkillIff(skills: seq<(string, string)>)
    ensures Contains(Lower(Join(SkillNames(skills), " ")), "stealth")
        <==> exists i :: 0 <= i < |skills| && Contains(Lower(skills[i].0), "stealth")
  {
    var names := SkillNames(skills);
    var lowered := seq(|names|, i requires 0 <= i < |names| => Lower(names[i]));
    LowerJoin(names, " ");
    assert Lower(Join(names, " ")) == Join(lowered, " ");
    if Contains(Join(lowered, " "), "stealth") {
      ContainsJoin(lowered, ' ', "stealth");
      var k :| 0 <= k < |lowered| && Contains(lowered[k], "stealth");
      assert Contains(Lower(skills[k].0), "stealth");
    }
    if exists i :: 0 <= i < |skills| && Contains(Lower(skills[i].0), "stealth") {
      var i :| 0 <= i < |skills| && Contains(Lower(skills[i].0), "stealth");
      assert lowered[i] == Lower(skills[i].0);
      JoinContains(lowered, " ", i, "stealth");
    }
  }

  /** Lower-casing a join lower-cases each part (the separator here has no capitals). */
  lemma {:induction false} LowerJoin(parts: seq<string>, sep: string)
    requires Lower(sep) == sep
    ensures Lower(Join(parts, sep)) == Join(seq(|parts|, i requires 0 <= i < |parts| => Lower(parts[i])), sep)
    decreases |parts|
  {
    var lowered := seq(|parts|, i requires 0 <= i < |parts| => Lower(parts[i]));
    if |parts| >= 2 {
      LowerJoin(parts[1..], sep);
      var tail := seq(|parts[1..]|, i requires 0 <= i < |parts[1..]| => Lower(parts[1..][i]));
      assert lowered[1..] == tail;
      LowerConcat(parts[0] + sep, Join(parts[1..], sep));
      LowerConcat(parts[0], sep);
    }
  }

  lemma LowerConcat(a: string, b: string)
    ensures Lower(a + b) == Lower(a) + Lower(b)
  {
  }

  /** A summoner is a Leader even when it is also stealthy. */
  lemma SummonerIsLeader(mon: Monster, crNum: Num)
    requires Summons(mon.traits) && Contains(Lower(Join(SkillNames(mon.skills), " ")), "stealth")
    ensures InferRole(mon, crNum) == Leader
  {
  }
}
