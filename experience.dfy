/** `pickExperience`: the skill with the greatest bonus becomes an Experience. */
module Experience {
  import opened Text
  import opened Wrappers
  import opened Attacks

  /** `String(v).match(/([+-]?\d+)/)`: the leftmost signed integer at or after `i`. */
  function FirstSignedFrom(v: string, i: nat): Option<int>
    requires i <= |v|
    decreases |v| - i
  {
    match SignedIntAt(v, i)
    case Some(n) => Some(n)
    case None => if i == |v| then None else FirstSignedFrom(v, i + 1)
  }

  /** The bonus a skill value states; 0 when it states none. */
  function SkillBonus(v: string): int {
    FirstSignedFrom(v, 0).GetOr(0)
  }

  function Bonuses(skills: seq<(string, string)>): (b: seq<int>)
    ensures |b| == |skills|
    ensures forall i :: 0 <= i < |skills| ==> b[i] == SkillBonus(skills[i].1)
  {
    seq(|skills|, i requires 0 <= i < |skills| => SkillBonus(skills[i].1))
  }

  /** The earliest index of the greatest value among the first `n` that beats -999. */
  function FirstMax(vals: seq<int>, n: nat): (r: Option<nat>)
    requires n <= |vals|
    ensures r.Some? ==> r.value < n && vals[r.value] > -999
  {
    if n == 0 then None
    else
      var b := FirstMax(vals, n - 1);
      var best := if b.None? then -999 else vals[b.value];
      if vals[n - 1] > best then Some(n - 1) else b
  }

  /** The scan finds a value exactly when one beats -999, and it is the earliest of greatest value. */
  lemma {:induction false} FirstMaxIsMax(vals: seq<int>, n: nat)
    requires n <= |vals|
    ensures FirstMax(vals, n).None? <==> forall j :: 0 <= j < n ==> vals[j] <= -999
    ensures FirstMax(vals, n).Some? ==> forall j :: 0 <= j < n ==> vals[j] <= vals[FirstMax(vals, n).value]
    ensures FirstMax(vals, n).Some? ==> forall j :: 0 <= j < FirstMax(vals, n).value ==> vals[j] < vals[FirstMax(vals, n).value]
  {
    if n > 0 {
      FirstMaxIsMax(vals, n - 1);
    }
  }

  /** The lower-case skill names the label map knows, with their Experience names. */
  const Labels: seq<(string, string)> := [
    ("perception", "Keen Senses"), ("stealth", "Stealth"), ("acrobatics", "Acrobatics"),
    ("athletics", "Throw"), ("survival", "Tracker"), ("nature", "Nature's Friend"),
    ("investigation", "Investigation"), ("insight", "Read Intentions"),
    ("intimidation", "Intimidation"), ("deception", "Deception"), ("persuasion", "Charm"),
    ("arcana", "Arcane Knowledge"), ("history", "Ancient Knowledge"),
    ("religion", "Divine Knowledge"), ("medicine", "Healing Arts")]

  function LookupFrom(key: string, k: nat): (r: Option<string>)
    ensures r.Some? ==> exists j :: k <= j < |Labels| && Labels[j] == (key, r.value)
    ensures r.None? ==> forall j :: k <= j < |Labels| ==> Labels[j].0 != key
    decreases |Labels| - k
  {
    if k >= |Labels| then None
    else if Labels[k].0 == key then Some(Labels[k].1)
    else LookupFrom(key, k + 1)
  }

  /** `map[name.toLowerCase()] || 'Quick Reflexes'` */
  function ExperienceLabel(skill: string): (tag: string)
    ensures (exists j :: 0 <= j < |Labels| && Labels[j] == (Lower(skill), tag))
         || (tag == "Quick Reflexes" && forall j :: 0 <= j < |Labels| ==> Labels[j].0 != Lower(skill))
  {
    LookupFrom(Lower(skill), 0).GetOr("Quick Reflexes")
  }

  function Suffix(bonus: int): string {
    if bonus >= 6 then "+3" else "+2"
  }

  /** `pickExperience` as a value: null without a winning named skill. */
  function ExperienceOf(skills: seq<(string, string)>): Option<string> {
    match FirstMax(Bonuses(skills), |skills|)
    case None => None
    case Some(k) =>
      if skills[k].0 == "" then None
      else Some(ExperienceLabel(skills[k].0) + " " + Suffix(SkillBonus(skills[k].1)))
  }

  /** `pickExperience` */
  method PickExperience(skills: seq<(string, string)>) returns (exp: Option<string>)
    ensures exp == ExperienceOf(skills)
  {
    ghost var vals := Bonuses(skills);
    ghost var idx: Option<nat> := None;
    var bestName: Option<string> := None;
    var bestVal := -999;
    for k := 0 to |skills|
      invariant idx == FirstMax(vals, k)
      invariant idx.None? ==> bestName.None? && bestVal == -999
      invariant idx.Some? ==> idx.value < k && bestName == Some(skills[idx.value].0) && bestVal == vals[idx.value]
    {
      var num := FirstSignedFrom(skills[k].1, 0).GetOr(0);
      assert num == vals[k];
      if num > bestVal {
        bestName, bestVal := Some(skills[k].0), num;
        idx := Some(k);
      }
    }
    if bestName.None? || bestName.value == "" {
      return None;
    }
    exp := Some(ExperienceLabel(bestName.value) + " " + (if bestVal >= 6 then "+3" else "+2"));
  }

  /** No skills, no Experience. */
  lemma NoSkillsNoExperience()
    ensures ExperienceOf([]) == None
  {
  }

  /** The Experience names the first skill of greatest bonus, labelled through the map, with
      "+3" exactly when that bonus is at least 6. */
  lemma ExperienceIsBestSkill(skills: seq<(string, string)>)
    requires ExperienceOf(skills).Some?
    ensures exists k :: (
      && 0 <= k < |skills|
      && skills[k].0 != ""
      && (forall j :: 0 <= j < |skills| ==> SkillBonus(skills[j].1) <= SkillBonus(skills[k].1))
      && (forall j :: 0 <= j < k ==> SkillBonus(skills[j].1) < SkillBonus(skills[k].1))
      && ExperienceOf(skills).value
         == ExperienceLabel(skills[k].0) + " " + (if SkillBonus(skills[k].1) >= 6 then "+3" else "+2"))
  {
    var vals := Bonuses(skills);
    FirstMaxIsMax(vals, |skills|);
    var k := FirstMax(vals, |skills|).value;
    assert forall j :: 0 <= j < |skills| ==> vals[j] == SkillBonus(skills[j].1);
  }

  /** With at least one named skill whose bonus beats -999, some Experience is picked
      unless the winner is unnamed. */
  lemma SkillsGiveExperience(skills: seq<(string, string)>)
    requires forall i :: 0 <= i < |skills| ==> skills[i].0 != ""
    requires exists i :: 0 <= i < |skills| && SkillBonus(skills[i].1) > -999
    ensures ExperienceOf(skills).Some?
  {
    var vals := Bonuses(skills);
    FirstMaxIsMax(vals, |skills|);
    var i :| 0 <= i < |skills| && SkillBonus(skills[i].1) > -999;
    assert vals[i] > -999;
  }
}
