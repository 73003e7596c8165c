/** The creature record the converter reads: the normalised shape of a 5e stat block,
    with each dynamically typed field of the source given its alternatives explicitly. */
module Monsters {
  import opened Wrappers
  import opened Text

  /** A trait, action, reaction or legendary action. `entries` holds the paragraphs of a raw
      record (empty for an ability normalised by the bestiary loader, which keeps only the
      joined `desc` and the first dice expression `damage`). */
  datatype Ability = Ability(name: string, entries: seq<string>, desc: string, damage: string)

  /** A challenge rating as stored: absent, text such as "1/4", or a number. */
  datatype CrValue = CrMissing | CrText(text: string) | CrNumber(value: real)

  /** Hit points: absent, an average, or text (the loader stores a dice formula as text). */
  datatype HpValue = HpMissing | HpNumber(n: int) | HpFormula(formula: string)

  datatype FlySpeed = NoFly | FlyNumber(feet: int) | FlyObject(number: int, condition: string)

  /** Movement: absent, a structured record in feet (0 meaning "no such speed"), or the text
      the loader renders it into. */
  datatype Speed =
    | SpeedMissing
    | SpeedObject(walk: int, fly: FlySpeed, swim: int, climb: int, burrow: int)
    | SpeedText(text: string)

  /** The creature type: absent, a plain name, or a record with a name and optional tags. */
  datatype CreatureType = TypeMissing | TypeName(name: string) | TypeObject(kind: string, tags: Option<seq<string>>)

  datatype Scores = Scores(str: int, dex: int, con: int, int_: int, wis: int, cha: int)

  /** `size` is the first size code, "" when absent; `page` is 0 when absent;
      `skills` lists (skill name, bonus text) pairs in object key order. */
  datatype Monster = Monster(
    name: string,
    source: string,
    page: int,
    size: string,
    creatureType: CreatureType,
    alignment: string,
    ac: Option<int>,
    hp: HpValue,
    speed: Speed,
    scores: Scores,
    skills: seq<(string, string)>,
    cr: CrValue,
    traits: seq<Ability>,
    actions: seq<Ability>,
    reactions: seq<Ability>,
    legendary: seq<Ability>,
    resist: seq<string>,
    immune: seq<string>)

  /** `a.entries?.[0] || a.desc || ''`: the text an attack is read from. */
  function ActionText(a: Ability): string {
    if |a.entries| > 0 && a.entries[0] != "" then a.entries[0] else a.desc
  }

  /** `a.entries?.join(' ') || a.desc || ''`: the text a keyword test reads. */
  function AbilityBody(a: Ability): string {
    var joined := Join(a.entries, " ");
    if joined != "" then joined else a.desc
  }

  /** The ability's name or its body mentions one of the (lower-case) keywords, case-insensitively. */
  predicate Mentions(a: Ability, keywords: seq<string>) {
    ContainsAny(Lower(a.name), keywords) || ContainsAny(Lower(AbilityBody(a)), keywords)
  }

  /** `hasTrait(mon, /k1|k2|.../i)` */
  predicate HasTrait(mon: Monster, keywords: seq<string>) {
    exists i :: 0 <= i < |mon.traits| && Mentions(mon.traits[i], keywords)
  }

  /** `hasAction(mon, /k1|k2|.../i)` */
  predicate HasAction(mon: Monster, keywords: seq<string>) {
    exists i :: 0 <= i < |mon.actions| && Mentions(mon.actions[i], keywords)
  }

  /** The keyword pattern is an alternation: the name or the body contains some keyword. */
  lemma MentionsIff(a: Ability, keywords: seq<string>)
    ensures Mentions(a, keywords) <==>
      exists j :: 0 <= j < |keywords| && (Contains(Lower(a.name), keywords[j]) || Contains(Lower(AbilityBody(a)), keywords[j]))
  {
    ContainsAnyIff(Lower(a.name), keywords);
    ContainsAnyIff(Lower(AbilityBody(a)), keywords);
  }

  /** `hasTrait` holds exactly when some trait's name or body contains some keyword. */
  lemma HasTraitIff(mon: Monster, keywords: seq<string>)
    ensures HasTrait(mon, keywords) <==>
      exists i, j :: 0 <= i < |mon.traits| && 0 <= j < |keywords|
        && (Contains(Lower(mon.traits[i].name), keywords[j]) || Contains(Lower(AbilityBody(mon.traits[i])), keywords[j]))
  {
    forall i | 0 <= i < |mon.traits|
      ensures Mentions(mon.traits[i], keywords) <==>
        exists j :: 0 <= j < |keywords|
          && (Contains(Lower(mon.traits[i].name), keywords[j]) || Contains(Lower(AbilityBody(mon.traits[i])), keywords[j]))
    {
      MentionsIff(mon.traits[i], keywords);
    }
  }

  /** `hasAction` holds exactly when some action's name or body contains some keyword. */
  lemma HasActionIff(mon: Monster, keywords: seq<string>)
    ensures HasAction(mon, keywords) <==>
      exists i, j :: 0 <= i < |mon.actions| && 0 <= j < |keywords|
        && (Contains(Lower(mon.actions[i].name), keywords[j]) || Contains(Lower(AbilityBody(mon.actions[i])), keywords[j]))
  {
    forall i | 0 <= i < |mon.actions|
      ensures Mentions(mon.actions[i], keywords) <==>
        exists j :: 0 <= j < |keywords|
          && (Contains(Lower(mon.actions[i].name), keywords[j]) || Contains(Lower(AbilityBody(mon.actions[i])), keywords[j]))
    {
      MentionsIff(mon.actions[i], keywords);
    }
  }

  /** `mon.speed && mon.speed.fly`: only a structured speed with a non-zero fly entry. */
  predicate FliesBySpeed(s: Speed) {
    s.SpeedObject? && (s.fly.FlyObject? || (s.fly.FlyNumber? && s.fly.feet != 0))
  }
}
