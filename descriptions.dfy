/** `inferDescription` and `inferMotives`: the adversary's one-line description and its
    three motives. */
module Descriptions {
  import opened Text
  import opened Wrappers
  import opened Monsters
  import opened Tiering

  const SizeWords: seq<string> := ["tiny", "small", "medium", "large", "huge", "gargantuan"]

  /** `sizeMap[sizeCode] || 'medium'` */
  function SizeWord(code: string): (w: string)
    ensures w in SizeWords
    ensures code !in ["T", "S", "L", "H", "G"] ==> w == "medium"
  {
    if code == "T" then "tiny"
    else if code == "S" then "small"
    else if code == "L" then "large"
    else if code == "H" then "huge"
    else if code == "G" then "gargantuan"
    else "medium"
  }

  /** `mon.type?.type || mon.type || 'creature'`, as a template literal renders it: a record
      without a type name renders as "[object Object]". */
  function TypeText(t: CreatureType): (r: string)
    ensures r != ""
    ensures t.TypeName? && t.name != "" ==> r == t.name
    ensures t.TypeObject? && t.kind != "" ==> r == t.kind
  {
    match t
    case TypeMissing => "creature"
    case TypeName(name) => if name != "" then name else "creature"
    case TypeObject(kind, _) => if kind != "" then kind else "[object Object]"
  }

  /** `mon.type?.tags ? ` ${mon.type.tags[0]}` : ''`: an empty tag list is still truthy and
      its first element renders as "undefined". */
  function TypeTag(t: CreatureType): (r: string)
    ensures r == "" <==> !(t.TypeObject? && t.tags.Some?)
  {
    if t.TypeObject? && t.tags.Some? then
      " " + (if |t.tags.value| > 0 then t.tags.value[0] else "undefined")
    else ""
  }

  const ActionPhrases: seq<string> :=
    ["strikes from the sky", "lurks in shadows", "hunts in groups", "wields arcane power", "attacks with determination"]

  /** The first matching clue picks the phrase: flight, then stealth, then packs, then magic. */
  function DescriptionAction(mon: Monster): (phrase: string)
    ensures phrase in ActionPhrases
    ensures FliesBySpeed(mon.speed) ==> phrase == "strikes from the sky"
  {
    if FliesBySpeed(mon.speed) then "strikes from the sky"
    else if HasTrait(mon, ["stealth", "hide", "ambush"]) then "lurks in shadows"
    else if HasTrait(mon, ["pack", "group"]) then "hunts in groups"
    else if HasTrait(mon, ["magic", "spell"]) then "wields arcane power"
    else "attacks with determination"
  }

  /** `inferDescription` */
  function InferDescription(mon: Monster): (d: string)
    ensures StartsWith(d, "A " + SizeWord(SizeCode(mon)) + " " + TypeText(mon.creatureType))
    ensures |d| > 0 && d[|d| - 1] == '.'
    ensures var tail := " who " + DescriptionAction(mon) + ".";
      |d| >= |tail| && d[|d| - |tail|..] == tail
  {
    var head := "A " + SizeWord(SizeCode(mon)) + " " + TypeText(mon.creatureType);
    var tail := " who " + DescriptionAction(mon) + ".";
    var d := head + TypeTag(mon.creatureType) + tail;
    assert d[..|head|] == head;
    assert d[|d| - |tail|..] == tail;
    d
  }

  /** Each phrase is the outcome of exactly one clue, tested in order. */
  lemma ActionPriority(mon: Monster)
    ensures DescriptionAction(mon) == "lurks in shadows"
        <==> !FliesBySpeed(mon.speed) && HasTrait(mon, ["stealth", "hide", "ambush"])
    ensures DescriptionAction(mon) == "attacks with determination"
        <==> && !FliesBySpeed(mon.speed)
             && !HasTrait(mon, ["stealth", "hide", "ambush"])
             && !HasTrait(mon, ["pack", "group"])
             && !HasTrait(mon, ["magic", "spell"])
  {
  }

  /** A speed rendered to text (as the loader stores it) never yields "strikes from the sky". */
  lemma TextSpeedNeverFlies(mon: Monster)
    requires mon.speed.SpeedText?
    ensures DescriptionAction(mon) != "strikes from the sky"
  {
  }

  /** `inferMotives` */
  function InferMotives(role: Role): (m: seq<string>)
    ensures |m| == 3
    ensures role !in {Bruiser, Horde, Leader, Ranged, Skulk} ==> m == ["Patrol", "Defend", "Flee if outmatched"]
  {
    match role
    case Bruiser => ["Break lines", "Smash frontliners", "Charge"]
    case Horde => ["Overwhelm", "Grapple", "Swarm"]
    case Leader => ["Command", "Summon", "Focus fire"]
    case Ranged => ["Kite", "Volleys", "Pick off stragglers"]
    case Skulk => ["Ambush", "Flank", "Escape"]
    case _ => ["Patrol", "Defend", "Flee if outmatched"]
  }

  /** Different roles with their own motives never share them. */
  lemma MotivesDistinguishRoles(r1: Role, r2: Role)
    requires r1 in {Bruiser, Horde, Leader, Ranged, Skulk} && r1 != r2
    ensures InferMotives(r1) != InferMotives(r2)
  {
    assert InferMotives(r1)[0] != InferMotives(r2)[0];
  }
}
