/** `BestiaryLoader`: turns 5eTools monster records into the converter's monster shape and
    keeps them in a table keyed by name, source and page. Fetching the files is not modelled:
    a file is the sequence of its already-parsed monster records. */
module Bestiary {
  import opened Text
  import opened Wrappers
  import opened Monsters
  import opened Attacks

  // ---------- the 5eTools record ----------

  type NonZero = x: int | x != 0 witness 1

  /** An entry of an armour-class list: a bare number or a record with a (truthy) `ac`. */
  datatype AcEntry = AcEntryNumber(n: int) | AcEntryObject(ac: NonZero)

  datatype RawAc = AcUndefined | AcNumber(n: int) | AcList(entries: seq<AcEntry>) | AcObject(ac: int)

  /** `average` 0 and `formula` "" stand for absent fields. */
  datatype RawHp = HpUndefined | HpNum(n: int) | HpObject(average: int, formula: string)

  datatype RawCr = CrUndefined | CrNum(n: int) | CrString(s: string) | CrObject(cr: string)

  datatype RawSize = SizeUndefined | SizeString(code: string) | SizeList(codes: seq<string>)

  datatype RawAlignment = AlignmentUndefined | AlignmentString(s: string) | AlignmentList(parts: seq<string>)

  /** `entries`: absent, a list of paragraphs, or (malformed) a single string. */
  datatype RawEntries = EntriesUndefined | EntryList(items: seq<string>) | EntryText(text: string)

  datatype RawAbility = RawAbility(name: string, entries: RawEntries)

  /** A 5eTools monster. Empty strings and 0 stand for absent fields; an ability list is
      `None` when absent or not a list; `speed` has the converter's shape. */
  datatype RawMonster = RawMonster(
    name: string,
    source: string,
    page: int,
    size: RawSize,
    creatureType: CreatureType,
    alignment: RawAlignment,
    ac: RawAc,
    hp: RawHp,
    speed: Speed,
    scores: Scores,
    skill: seq<(string, string)>,
    cr: RawCr,
    traitList: Option<seq<RawAbility>>,
    action: Option<seq<RawAbility>>,
    reaction: Option<seq<RawAbility>>,
    legendary: Option<seq<RawAbility>>)

  // ---------- field normalisers ----------

  /** `_normalizeAC`; `None` when reading `ac[0].ac` of an empty list throws. */
  function NormalizeAc(ac: RawAc): (r: Option<int>)
    ensures r.None? <==> ac.AcList? && |ac.entries| == 0
    ensures ac.AcUndefined? || ac == AcNumber(0) || ac == AcObject(0) ==> r == Some(10)
    ensures ac.AcNumber? && ac.n != 0 ==> r == Some(ac.n)
    ensures ac.AcObject? && ac.ac != 0 ==> r == Some(ac.ac)
    ensures ac.AcList? && |ac.entries| > 0 && ac.entries[0].AcEntryObject? ==> r == Some(ac.entries[0].ac as int)
    ensures ac.AcList? && |ac.entries| > 0 && ac.entries[0].AcEntryNumber? ==> r == Some(ac.entries[0].n)
    ensures r.Some? && r.value == 0 ==> ac.AcList? && ac.entries[0] == AcEntryNumber(0)
  {
    match ac
    case AcUndefined => Some(10)
    case AcNumber(n) => if n == 0 then Some(10) else Some(n)
    case AcList(entries) =>
      if |entries| == 0 then None
      else
        (match entries[0]
         case AcEntryObject(v) => Some(v as int)
         case AcEntryNumber(n) => Some(n))
    case AcObject(v) => if v == 0 then Some(10) else Some(v)
  }

  /** `_normalizeHP`: the stored value is never falsy. */
  function NormalizeHp(hp: RawHp): (r: HpValue)
    ensures !r.HpMissing?
    ensures r.HpNumber? ==> r.n != 0
    ensures r.HpFormula? ==> r.formula != "" && hp.HpObject? && hp.average == 0
    ensures hp.HpUndefined? || hp == HpNum(0) || hp == HpObject(0, "") ==> r == HpNumber(1)
    ensures hp.HpNum? && hp.n != 0 ==> r == HpNumber(hp.n)
    ensures hp.HpObject? && hp.average != 0 ==> r == HpNumber(hp.average)
    ensures hp.HpObject? && hp.average == 0 && hp.formula != "" ==> r == HpFormula(hp.formula)
  {
    match hp
    case HpUndefined => HpNumber(1)
    case HpNum(n) => if n == 0 then HpNumber(1) else HpNumber(n)
    case HpObject(average, formula) =>
      if average != 0 then HpNumber(average)
      else if formula != "" then HpFormula(formula)
      else HpNumber(1)
  }

  /** `_normalizeCR`: always a non-empty text, "0" for anything falsy. */
  function NormalizeCr(cr: RawCr): (r: string)
    ensures r != ""
    ensures cr.CrUndefined? || cr == CrNum(0) || cr == CrString("") || cr == CrObject("") ==> r == "0"
    ensures cr.CrNum? ==> r == IntToString(cr.n)
    ensures cr.CrString? && cr.s != "" ==> r == cr.s
    ensures cr.CrObject? && cr.cr != "" ==> r == cr.cr
  {
    match cr
    case CrUndefined => "0"
    case CrNum(n) => IntToString(n)
    case CrString(s) => if s == "" then "0" else s
    case CrObject(c) => if c == "" then "0" else c
  }

  /** `_normalizeAlignment` */
  function NormalizeAlignment(a: RawAlignment): (r: string)
    ensures a.AlignmentList? ==> r == Join(a.parts, " ")
    ensures a.AlignmentUndefined? || a == AlignmentString("") ==> r == "Unaligned"
    ensures a.AlignmentString? && a.s != "" ==> r == a.s
  {
    match a
    case AlignmentUndefined => "Unaligned"
    case AlignmentString(s) => if s == "" then "Unaligned" else s
    case AlignmentList(parts) => Join(parts, " ")
  }

  /** `Array.isArray(size) ? size[0] : size`, "" when that is undefined. */
  function NormalizeSize(size: RawSize): string {
    match size
    case SizeUndefined => ""
    case SizeString(code) => code
    case SizeList(codes) => if |codes| > 0 then codes[0] else ""
  }

  /** `${feet} ft.` after the mode, when the mode is present. */
  function ModePart(mode: string, feet: int): seq<string> {
    if feet != 0 then [mode + IntToString(feet) + " ft."] else []
  }

  function WalkPart(walk: int): seq<string> {
    if walk != 0 then [IntToString(walk) + " ft."] else []
  }

  function FlyPart(fly: FlySpeed): seq<string> {
    match fly
    case NoFly => []
    case FlyNumber(feet) => ModePart("fly ", feet)
    case FlyObject(number, condition) =>
      ["fly " + IntToString(number) + " ft." + (if condition != "" then " " + condition else "")]
  }

  /** The pieces `_normalizeSpeed` pushes, in its fixed order: walk, fly, swim, climb, burrow. */
  function SpeedParts(walk: int, fly: FlySpeed, swim: int, climb: int, burrow: int): seq<string> {
    WalkPart(walk) + FlyPart(fly) + ModePart("swim ", swim) + ModePart("climb ", climb) + ModePart("burrow ", burrow)
  }

  /** `_normalizeSpeed` as a value. */
  function NormalizedSpeed(speed: Speed): string {
    match speed
    case SpeedMissing => "30 ft."
    case SpeedText(t) => if t == "" then "30 ft." else t
    case SpeedObject(walk, fly, swim, climb, burrow) =>
      var joined := Join(SpeedParts(walk, fly, swim, climb, burrow), ", ");
      if joined == "" then "30 ft." else joined
  }

  /** `_normalizeSpeed`: push each present movement mode, join with ", ", default to walking 30 ft. */
  method NormalizeSpeed(speed: Speed) returns (r: string)
    ensures r == NormalizedSpeed(speed)
    ensures r != ""
  {
    if speed.SpeedMissing? || speed == SpeedText("") {
      return "30 ft.";
    }
    if speed.SpeedText? {
      return speed.text;
    }
    var parts: seq<string> := [];
    if speed.walk != 0 {
      parts := parts + [IntToString(speed.walk) + " ft."];
    }
    assert parts == WalkPart(speed.walk);
    ghost var before := parts;
    if speed.fly.FlyObject? {
      var condition := if speed.fly.condition != "" then " " + speed.fly.condition else "";
      parts := parts + ["fly " + IntToString(speed.fly.number) + " ft." + condition];
    } else if speed.fly.FlyNumber? && speed.fly.feet != 0 {
      parts := parts + ["fly " + IntToString(speed.fly.feet) + " ft."];
    }
    assert parts == before + FlyPart(speed.fly);
    before := parts;
    if speed.swim != 0 {
      parts := parts + ["swim " + IntToString(speed.swim) + " ft."];
    }
    assert parts == before + ModePart("swim ", speed.swim);
    before := parts;
    if speed.climb != 0 {
      parts := parts + ["climb " + IntToString(speed.climb) + " ft."];
    }
    assert parts == before + ModePart("climb ", speed.climb);
    before := parts;
    if speed.burrow != 0 {
      parts := parts + ["burrow " + IntToString(speed.burrow) + " ft."];
    }
    assert parts == before + ModePart("burrow ", speed.burrow);
    r := Join(parts, ", ");
    if r == "" {
      r := "30 ft.";
    }
  }

  /** Every piece is non-empty, so the joined speed is empty only when no mode is present. */
  lemma {:induction false} JoinNonEmpty(parts: seq<string>, sep: string)
    requires forall k :: 0 <= k < |parts| ==> parts[k] != ""
    ensures Join(parts, sep) == "" <==> parts == []
    decreases |parts|
  {
    if |parts| >= 2 {
      assert |Join(parts, sep)| >= |parts[0]|;
    }
  }

  /** The default "30 ft." of a structured speed appears exactly when every mode is absent. */
  lemma SpeedDefaultIff(walk: int, fly: FlySpeed, swim: int, climb: int, burrow: int)
    ensures Join(SpeedParts(walk, fly, swim, climb, burrow), ", ") == ""
        <==> walk == 0 && !FliesBySpeed(SpeedObject(walk, fly, swim, climb, burrow)) && swim == 0 && climb == 0 && burrow == 0
  {
    var parts := SpeedParts(walk, fly, swim, climb, burrow);
    forall k | 0 <= k < |parts|
      ensures parts[k] != ""
    {
      assert |parts[k]| >= 4;
    }
    JoinNonEmpty(parts, ", ");
  }

  /** A walking speed leads the rendered text. */
  lemma WalkComesFirst(walk: int, fly: FlySpeed, swim: int, climb: int, burrow: int)
    requires walk != 0
    ensures StartsWith(NormalizedSpeed(SpeedObject(walk, fly, swim, climb, burrow)), IntToString(walk) + " ft.")
  {
    var parts := SpeedParts(walk, fly, swim, climb, burrow);
    var w := IntToString(walk) + " ft.";
    assert parts[0] == w;
    var joined := Join(parts, ", ");
    assert joined[..|w|] == w by {
      if |parts| >= 2 {
        assert joined == w + ", " + Join(parts[1..], ", ");
      }
    }
    OccursAtIff(NormalizedSpeed(SpeedObject(walk, fly, swim, climb, burrow)), w, 0);
  }

  // ---------- abilities ----------

  /** `_joinEntries(entries || [])` */
  function JoinEntries(e: RawEntries): string {
    match e
    case EntriesUndefined => ""
    case EntryList(items) => Join(items, " ")
    case EntryText(t) => t
  }

  /** `/\d+d\d+(?:\s*[+\-]\s*\d+)?/` anchored at `i`: the end of the match. */
  function DamageEndAt(s: string, i: nat): (e: Option<nat>)
    requires i <= |s|
    ensures e.Some? ==> i < e.value <= |s| && IsDigit(s[i])
  {
    if i < |s| && IsDigit(s[i]) then
      var e1 := DigitRunEnd(s, i);
      if e1 + 1 < |s| && s[e1] == 'd' && IsDigit(s[e1 + 1]) then
        var e2 := DigitRunEnd(s, e1 + 1);
        var j := SkipSpaces(s, e2);
        if j < |s| && (s[j] == '+' || s[j] == '-') then
          var k := SkipSpaces(s, j + 1);
          if k < |s| && IsDigit(s[k]) then Some(DigitRunEnd(s, k)) else Some(e2)
        else Some(e2)
      else None
    else None
  }

  /** The leftmost damage expression at or after `i`, as (start, end). */
  function DamageFrom(s: string, i: nat): (m: Option<(nat, nat)>)
    requires i <= |s|
    ensures m.Some? ==> i <= m.value.0 < m.value.1 <= |s| && DamageEndAt(s, m.value.0) == Some(m.value.1)
    ensures m.Some? ==> forall p :: i <= p < m.value.0 ==> DamageEndAt(s, p).None?
    ensures m.None? ==> forall p :: i <= p <= |s| ==> DamageEndAt(s, p).None?
    decreases |s| - i
  {
    match DamageEndAt(s, i)
    case Some(e) => Some((i, e))
    case None => if i == |s| then None else DamageFrom(s, i + 1)
  }

  /** `_extractDamage`: the first dice expression of the joined paragraphs, or "". */
  function ExtractDamage(e: RawEntries): (d: string) {
    if !e.EntryList? then ""
    else
      var text := Join(e.items, " ");
      match DamageFrom(text, 0)
      case None => ""
      case Some(m) => text[m.0..m.1]
  }

  /** The damage string is empty exactly when the text holds no dice expression; otherwise it is
      the leftmost one, read off the text itself. */
  lemma ExtractDamageFinds(items: seq<string>)
    ensures
      var text := Join(items, " ");
      var d := ExtractDamage(EntryList(items));
      && (d == "" <==> forall p :: 0 <= p <= |text| ==> DamageEndAt(text, p).None?)
      && (d != "" ==> Contains(text, d) && IsDigit(d[0]))
  {
    FirstDamageFinds(Join(items, " "));
  }

  /** The leftmost dice expression of a text, read off the text, or "" when it holds none. */
  lemma FirstDamageFinds(text: string)
    ensures
      var d := match DamageFrom(text, 0) case None => "" case Some(m) => text[m.0..m.1];
      && (d == "" <==> forall p :: 0 <= p <= |text| ==> DamageEndAt(text, p).None?)
      && (d != "" ==> Contains(text, d) && IsDigit(d[0]))
  {
    match DamageFrom(text, 0)
    case None =>
    case Some(m) =>
      var d := text[m.0..m.1];
      OccursAtIff(text, d, m.0);
      ContainsIff(text, d);
      assert d[0] == text[m.0];
  }

  /** `_normalizeAbilities`' record for one ability: only `desc` and `damage` survive. */
  function NormalizeAbility(a: RawAbility): (r: Ability)
    ensures r.name != "" && r.entries == []
    ensures a.name == "" ==> r.name == "Unnamed"
    ensures a.name != "" ==> r.name == a.name
    ensures r.desc == JoinEntries(a.entries) && r.damage == ExtractDamage(a.entries)
  {
    Ability(if a.name == "" then "Unnamed" else a.name, [], JoinEntries(a.entries), ExtractDamage(a.entries))
  }

  /** `_normalizeAbilities(list || [])` */
  function NormalizeAbilities(list: Option<seq<RawAbility>>): (r: seq<Ability>)
    ensures list.None? ==> r == []
    ensures list.Some? ==> |r| == |list.value|
    ensures list.Some? ==> forall i :: 0 <= i < |r| ==> r[i] == NormalizeAbility(list.value[i])
  {
    if list.None? then []
    else seq(|list.value|, i requires 0 <= i < |list.value| => NormalizeAbility(list.value[i]))
  }

  /** What the converter reads from a normalised ability is the joined paragraphs of the raw one:
      keyword tests see all of them, and so does the to-hit and damage reading. */
  lemma NormalizedTextIsJoinedEntries(a: RawAbility)
    requires a.entries.EntryList?
    ensures AbilityBody(NormalizeAbility(a)) == Join(a.entries.items, " ")
    ensures ActionText(NormalizeAbility(a)) == Join(a.entries.items, " ")
  {
  }

  // ---------- the whole record ----------

  /** `_normalizeMonster`; `None` when the armour class normaliser throws. Resistances and
      immunities are not copied, so the converter sees none. */
  function NormalizeMonster(raw: RawMonster): (m: Option<Monster>)
    ensures m.None? <==> raw.ac.AcList? && |raw.ac.entries| == 0
    ensures m.Some? ==> m.value.name == raw.name && m.value.resist == [] && m.value.immune == []
    ensures m.Some? ==> m.value.speed.SpeedText? && m.value.cr.CrText? && m.value.ac.Some?
  {
    match NormalizeAc(raw.ac)
    case None => None
    case Some(ac) =>
      Some(Monster(
        raw.name, raw.source, raw.page, NormalizeSize(raw.size), raw.creatureType,
        NormalizeAlignment(raw.alignment), Some(ac), NormalizeHp(raw.hp), SpeedText(NormalizedSpeed(raw.speed)),
        DefaultScores(raw.scores), raw.skill, CrText(NormalizeCr(raw.cr)),
        NormalizeAbilities(raw.traitList), NormalizeAbilities(raw.action),
        NormalizeAbilities(raw.reaction), NormalizeAbilities(raw.legendary), [], []))
  }

  /** `x || 10`: a non-zero score is kept, a zero one becomes 10. */
  predicate KeptOrTen(x: int, y: int) { (x != 0 ==> y == x) && (x == 0 ==> y == 10) }

  /** `monster.str || 10` and so on. */
  function DefaultScores(s: Scores): (r: Scores)
    ensures r.str != 0 && r.dex != 0 && r.con != 0 && r.int_ != 0 && r.wis != 0 && r.cha != 0
    ensures KeptOrTen(s.str, r.str) && KeptOrTen(s.dex, r.dex) && KeptOrTen(s.con, r.con)
    ensures KeptOrTen(s.int_, r.int_) && KeptOrTen(s.wis, r.wis) && KeptOrTen(s.cha, r.cha)
  {
    Scores(Or10(s.str), Or10(s.dex), Or10(s.con), Or10(s.int_), Or10(s.wis), Or10(s.cha))
  }

  function Or10(x: int): int { if x == 0 then 10 else x }

  /** Every ability of a loaded monster has lost its paragraphs. */
  lemma LoadedAbilitiesHaveNoEntries(raw: RawMonster)
    requires NormalizeMonster(raw).Some?
    ensures forall i :: 0 <= i < |NormalizeMonster(raw).value.actions| ==> NormalizeMonster(raw).value.actions[i].entries == []
    ensures forall i :: 0 <= i < |NormalizeMonster(raw).value.traits| ==> NormalizeMonster(raw).value.traits[i].entries == []
  {
  }

  /** `_isValidMonster`: a name, and a challenge rating, hit points and armour class that are defined. */
  predicate IsValidMonster(raw: RawMonster) {
    raw.name != "" && !raw.cr.CrUndefined? && !raw.hp.HpUndefined? && !raw.ac.AcUndefined?
  }

  /** `_generateMonsterKey`: lower-cased name with blank runs as "_", then "_source", then "_page". */
  function MonsterKey(raw: RawMonster): string {
    var base := ReplaceSpaceRuns(Lower(raw.name), "_");
    var withSource := if raw.source != "" then base + "_" + Lower(raw.source) else base;
    if raw.page != 0 then withSource + "_" + IntToString(raw.page) else withSource
  }

  /** The key starts with the name part, and carries a source part only when there is a source. */
  lemma MonsterKeyShape(raw: RawMonster)
    ensures StartsWith(MonsterKey(raw), ReplaceSpaceRuns(Lower(raw.name), "_"))
    ensures raw.source == "" && raw.page == 0 ==> MonsterKey(raw) == ReplaceSpaceRuns(Lower(raw.name), "_")
    ensures raw.source != "" && raw.page == 0 ==> MonsterKey(raw) == ReplaceSpaceRuns(Lower(raw.name), "_") + "_" + Lower(raw.source)
  {
    var key := MonsterKey(raw);
    var base := ReplaceSpaceRuns(Lower(raw.name), "_");
    assert key[..|base|] == base;
    OccursAtIff(key, base, 0);
  }

  /** A record with a page number has a key ending in "_" and that number. */
  lemma MonsterKeyPage(raw: RawMonster)
    requires raw.page != 0
    ensures var p := "_" + IntToString(raw.page);
      |MonsterKey(raw)| >= |p| && MonsterKey(raw)[|MonsterKey(raw)| - |p|..] == p
  {
    var base := ReplaceSpaceRuns(Lower(raw.name), "_");
    var withSource := if raw.source != "" then base + "_" + Lower(raw.source) else base;
    var p := "_" + IntToString(raw.page);
    assert MonsterKey(raw) == withSource + p;
    assert (withSource + p)[|withSource|..] == p;
  }

  predicate NoBlanks(s: string) { forall k :: 0 <= k < |s| ==> !IsSpace(s[k]) }

  /** One blank between two blank-free words becomes one `rep`. */
  lemma {:induction false} ReplaceOneBlank(x: string, y: string, rep: string)
    requires NoBlanks(x) && NoBlanks(y)
    ensures ReplaceSpaceRuns(x + " " + y, rep) == x + rep + y
    decreases |x|
  {
    var s := x + " " + y;
    if x == [] {
      assert s == " " + y;
      assert TrimStart(s) == TrimStart(y);
      ReplaceSpaceRunsUnchanged(y, rep);
    } else {
      assert s[0] == x[0] && s[1..] == x[1..] + " " + y;
      ReplaceOneBlank(x[1..], y, rep);
      assert x == [x[0]] + x[1..];
    }
  }

  lemma LowerNoBlanks(s: string)
    requires NoBlanks(s)
    ensures NoBlanks(Lower(s))
  {
  }

  /** Different records can share a key: a two-word name with no source, and its first word from a
      source spelled like the second word ("Goblin Boss" and "Goblin" from "BOSS" both give
      "goblin_boss"); the later one then replaces the other. */
  lemma KeysCanCollide(r1: RawMonster, r2: RawMonster, a: string, b: string)
    requires NoBlanks(a) && NoBlanks(b) && b != ""
    requires r1.name == a + " " + b && r1.source == "" && r1.page == 0
    requires r2.name == a && r2.source == b && r2.page == 0
    ensures MonsterKey(r1) == MonsterKey(r2)
  {
    assert Lower(a + " " + b) == Lower(a) + " " + Lower(b);
    LowerNoBlanks(a);
    LowerNoBlanks(b);
    ReplaceOneBlank(Lower(a), Lower(b), "_");
    ReplaceSpaceRunsUnchanged(Lower(a), "_");
  }

  // ---------- the monster table ----------

  /** A JavaScript `Map`: its keys in insertion order, and what each is bound to. */
  datatype Table = Table(keys: seq<string>, entries: map<string, Monster>)

  ghost predicate TableValid(t: Table) {
    && (forall k :: k in t.entries <==> k in t.keys)
    && (forall i, j :: 0 <= i < j < |t.keys| ==> t.keys[i] != t.keys[j])
  }

  /** `map.set(key, value)`: a new key goes last, an existing key keeps its place. */
  function Put(t: Table, key: string, m: Monster): (r: Table)
    requires TableValid(t)
    ensures TableValid(r)
    ensures r.entries == t.entries[key := m]
    ensures key in t.entries ==> r.keys == t.keys
    ensures key !in t.entries ==> r.keys == t.keys + [key]
  {
    if key in t.entries then Table(t.keys, t.entries[key := m]) else Table(t.keys + [key], t.entries[key := m])
  }

  /** A record the insertion loop stores: `monster.name && this._isValidMonster(monster)`. */
  predicate Accepted(raw: RawMonster) {
    raw.name != "" && IsValidMonster(raw)
  }

  /** One pass of the loop body: an accepted record is normalised and stored under its key;
      `None` when the normaliser throws. */
  function LoadStep(t: Table, raw: RawMonster): (r: Option<Table>)
    requires TableValid(t)
    ensures r.Some? ==> TableValid(r.value)
  {
    if !Accepted(raw) then Some(t)
    else
      match NormalizeMonster(raw)
      case None => None
      case Some(m) => Some(Put(t, MonsterKey(raw), m))
  }

  /** `_isValidMonster` decides storage: a record lacking a name, a rating, hit points or an armour
      class leaves the table as it was; one with all four is stored under its key (unless its AC
      list is empty, where the normaliser throws). */
  lemma StoredExactlyWhenValid(t: Table, raw: RawMonster)
    requires TableValid(t)
    ensures (raw.name == "" || raw.cr.CrUndefined? || raw.hp.HpUndefined? || raw.ac.AcUndefined?)
      ==> LoadStep(t, raw) == Some(t)
    ensures (raw.name != "" && IsValidMonster(raw) && !(raw.ac.AcList? && |raw.ac.entries| == 0))
      ==> (&& LoadStep(t, raw).Some? && MonsterKey(raw) in LoadStep(t, raw).value.entries
           && LoadStep(t, raw).value.entries[MonsterKey(raw)] == NormalizeMonster(raw).value)
  {
  }

  /** The loop of `_loadBestiaryFile` over the first records: the table, and the count, or `None`
      once a normaliser has thrown (the records stored before it stay in the table). */
  function LoadFile(t: Table, raws: seq<RawMonster>): (r: (Table, Option<nat>))
    requires TableValid(t)
    ensures TableValid(r.0)
    decreases |raws|
  {
    if |raws| == 0 then (t, Some(0))
    else Advance(LoadFile(t, raws[..|raws| - 1]), raws[|raws| - 1])
  }

  /** One more record after the table and count reached so far; a failure stays a failure. */
  function Advance(prev: (Table, Option<nat>), raw: RawMonster): (r: (Table, Option<nat>))
    requires TableValid(prev.0)
    ensures TableValid(r.0)
  {
    if prev.1.None? then prev
    else
      match LoadStep(prev.0, raw)
      case None => (prev.0, None)
      case Some(next) => (next, Some(prev.1.value + (if Accepted(raw) then 1 else 0)))
  }

  /** A record the loop step takes advances the count by one when it is accepted. */
  lemma AdvanceStored(t: Table, n: nat, raw: RawMonster, next: Table)
    requires TableValid(t) && LoadStep(t, raw) == Some(next)
    ensures Advance((t, Some(n)), raw) == (next, Some(n + if Accepted(raw) then 1 else 0))
  {
    var prev := (t, Some(n));
    assert prev.1.Some? && LoadStep(prev.0, raw) == Some(next);
  }

  /** Appending a record runs one more loop step on the table reached so far. */
  lemma {:induction false} LoadFileSnoc(t0: Table, init: seq<RawMonster>, raw: RawMonster)
    requires TableValid(t0)
    ensures LoadFile(t0, init + [raw]) == Advance(LoadFile(t0, init), raw)
  {
    assert (init + [raw])[..|init|] == init;
  }

  lemma PrefixSnoc<T>(s: seq<T>, k: nat)
    requires k < |s|
    ensures s[..k + 1] == s[..k] + [s[k]]
  {
  }

  /** The number of records the loop accepts. */
  function AcceptedCount(raws: seq<RawMonster>): (n: nat)
    ensures n <= |raws|
    decreases |raws|
  {
    if |raws| == 0 then 0
    else AcceptedCount(raws[..|raws| - 1]) + (if Accepted(raws[|raws| - 1]) then 1 else 0)
  }

  /** The loop stores this record under this key. */
  predicate StoredUnder(raw: RawMonster, key: string) {
    Accepted(raw) && MonsterKey(raw) == key
  }

  /** The last accepted record with a given key, if any. */
  function LastWithKey(raws: seq<RawMonster>, key: string): (r: Option<nat>)
    ensures r.Some? ==> r.value < |raws|
    decreases |raws|
  {
    if |raws| == 0 then None
    else if StoredUnder(raws[|raws| - 1], key) then Some(|raws| - 1)
    else LastWithKey(raws[..|raws| - 1], key)
  }

  /** `LastWithKey` finds the last record stored under the key, and `None` means there is none. */
  lemma {:induction false} LastWithKeyIsLast(raws: seq<RawMonster>, key: string)
    ensures LastWithKey(raws, key).Some? ==> StoredUnder(raws[LastWithKey(raws, key).value], key)
    ensures LastWithKey(raws, key).Some? ==>
      forall j :: LastWithKey(raws, key).value < j < |raws| ==> !StoredUnder(raws[j], key)
    ensures LastWithKey(raws, key).None? ==> forall j :: 0 <= j < |raws| ==> !StoredUnder(raws[j], key)
    decreases |raws|
  {
    if |raws| > 0 && !StoredUnder(raws[|raws| - 1], key) {
      var init := raws[..|raws| - 1];
      LastWithKeyIsLast(init, key);
      assert forall j :: 0 <= j < |init| ==> init[j] == raws[j];
    }
  }

  /** A file that loads counts exactly its accepted records. */
  lemma {:induction false} LoadFileCount(t: Table, raws: seq<RawMonster>)
    requires TableValid(t)
    requires LoadFile(t, raws).1.Some?
    ensures LoadFile(t, raws).1.value == AcceptedCount(raws)
    decreases |raws|
  {
    if |raws| > 0 {
      LoadFileCount(t, raws[..|raws| - 1]);
    }
  }

  /** In a file that loads, each key is bound to the last accepted record that produces it (last
      write wins); a key no record produces keeps whatever binding it had. */
  lemma {:induction false} LoadFileLastWriteWins(t: Table, raws: seq<RawMonster>, key: string)
    requires TableValid(t)
    requires LoadFile(t, raws).1.Some?
    ensures LastWithKey(raws, key).Some? ==>
      && key in LoadFile(t, raws).0.entries
      && NormalizeMonster(raws[LastWithKey(raws, key).value]).Some?
      && LoadFile(t, raws).0.entries[key] == NormalizeMonster(raws[LastWithKey(raws, key).value]).value
    ensures LastWithKey(raws, key).None? ==>
      (key in LoadFile(t, raws).0.entries <==> key in t.entries)
      && (key in t.entries ==> LoadFile(t, raws).0.entries[key] == t.entries[key])
    decreases |raws|
  {
    if |raws| > 0 {
      var init := raws[..|raws| - 1];
      var raw := raws[|raws| - 1];
      var prev := LoadFile(t, init);
      assert prev.1.Some?;
      var next := LoadStep(prev.0, raw);
      assert next.Some? && LoadFile(t, raws).0 == next.value;
      if StoredUnder(raw, key) {
        assert LastWithKey(raws, key) == Some(|raws| - 1);
      } else {
        assert LastWithKey(raws, key) == LastWithKey(init, key);
        LoadFileLastWriteWins(t, init, key);
        assert key in next.value.entries <==> key in prev.0.entries;
        assert key in prev.0.entries ==> next.value.entries[key] == prev.0.entries[key];
        var last := LastWithKey(init, key);
        if last.Some? {
          assert init[last.value] == raws[last.value];
        }
      }
    }
  }

  /** A table only grows, by at most one key per accepted record: the count bounds the growth of
      `getMonstersCount()`. */
  lemma {:induction false} LoadFileGrowth(t: Table, raws: seq<RawMonster>)
    requires TableValid(t)
    requires LoadFile(t, raws).1.Some?
    ensures |t.keys| <= |LoadFile(t, raws).0.keys| <= |t.keys| + LoadFile(t, raws).1.value
    ensures t.keys <= LoadFile(t, raws).0.keys
    decreases |raws|
  {
    if |raws| > 0 {
      LoadFileGrowth(t, raws[..|raws| - 1]);
    }
  }

  /** `this.monsters.size` equals the number of keys of a valid table. */
  lemma {:induction false} DistinctKeysCount(keys: seq<string>)
    requires forall i, j :: 0 <= i < j < |keys| ==> keys[i] != keys[j]
    ensures |set k | k in keys| == |keys|
    decreases |keys|
  {
    if |keys| > 0 {
      var init := keys[..|keys| - 1];
      DistinctKeysCount(init);
      assert (set k | k in keys) == (set k | k in init) + {keys[|keys| - 1]};
      assert keys[|keys| - 1] !in init;
    }
  }

  lemma TableSize(t: Table)
    requires TableValid(t)
    ensures |t.entries| == |t.keys|
  {
    DistinctKeysCount(t.keys);
    assert t.entries.Keys == set k | k in t.keys;
  }

  /** The stored monsters in `Map` order: `Array.from(this.monsters.values())`. */
  function Values(t: Table): (vs: seq<Monster>)
    requires TableValid(t)
    ensures |vs| == |t.keys|
    ensures forall i :: 0 <= i < |vs| ==> vs[i] == t.entries[t.keys[i]]
  {
    seq(|t.keys|, i requires 0 <= i < |t.keys| => t.entries[t.keys[i]])
  }

  /** `.filter(m => m.name.toLowerCase().includes(lowerQuery))` */
  function NameMatches(ms: seq<Monster>, lowerQuery: string): (r: seq<Monster>)
    ensures |r| <= |ms|
    decreases |ms|
  {
    if |ms| == 0 then []
    else
      var rest := NameMatches(ms[..|ms| - 1], lowerQuery);
      if Contains(Lower(ms[|ms| - 1].name), lowerQuery) then rest + [ms[|ms| - 1]] else rest
  }

  /** The search keeps exactly the monsters whose lower-cased name contains the query. */
  lemma {:induction false} NameMatchesIff(ms: seq<Monster>, lowerQuery: string, m: Monster)
    ensures m in NameMatches(ms, lowerQuery) <==> m in ms && Contains(Lower(m.name), lowerQuery)
    decreases |ms|
  {
    if |ms| > 0 {
      var init := ms[..|ms| - 1];
      NameMatchesIff(init, lowerQuery, m);
      assert ms == init + [ms[|ms| - 1]];
    }
  }

  /** `.filter(m => m.source === source)` */
  function SourceMatches(ms: seq<Monster>, source: string): (r: seq<Monster>)
    ensures |r| <= |ms|
    ensures forall i :: 0 <= i < |r| ==> r[i].source == source && r[i] in ms
    decreases |ms|
  {
    if |ms| == 0 then []
    else
      var rest := SourceMatches(ms[..|ms| - 1], source);
      if ms[|ms| - 1].source == source then rest + [ms[|ms| - 1]] else rest
  }

  /** The source filter keeps exactly the monsters of that source. */
  lemma {:induction false} SourceMatchesIff(ms: seq<Monster>, source: string, m: Monster)
    ensures m in SourceMatches(ms, source) <==> m in ms && m.source == source
    decreases |ms|
  {
    if |ms| > 0 {
      var init := ms[..|ms| - 1];
      SourceMatchesIff(init, source, m);
      assert ms == init + [ms[|ms| - 1]];
    }
  }

  /** Every stored monster went through the normaliser, which writes its rating as text. */
  ghost predicate StoredNormalized(entries: map<string, Monster>) {
    forall k :: k in entries ==> entries[k].cr.CrText?
  }

  lemma NormalizedRating(raw: RawMonster)
    requires NormalizeMonster(raw).Some?
    ensures NormalizeMonster(raw).value.cr.CrText?
  {
  }

  /** The loader object: `this.monsters`, a `Map` from key to normalised monster. */
  class BestiaryLoader {
    var keys: seq<string>
    var monsters: map<string, Monster>

    ghost predicate Valid()
      reads this
    {
      TableValid(Table(keys, monsters)) && StoredNormalized(monsters)
    }

    constructor()
      ensures Valid()
      ensures keys == [] && monsters == map[]
    {
      keys := [];
      monsters := map[];
    }

    /** The loop of `_loadBestiaryFile` over one file's records: insert each accepted record under
        its key and count it; a throwing normaliser aborts the file (`None`) after the earlier insertions. */
    method LoadRecords(raws: seq<RawMonster>) returns (count: Option<nat>)
      requires Valid()
      modifies this
      ensures Valid()
      ensures (Table(keys, monsters), count) == LoadFile(old(Table(keys, monsters)), raws)
    {
      ghost var t0 := Table(keys, monsters);
      var n := 0;
      for k := 0 to |raws|
        invariant Valid()
        invariant LoadFile(t0, raws[..k]) == (Table(keys, monsters), Some(n))
      {
        PrefixSnoc(raws, k);
        LoadFileSnoc(t0, raws[..k], raws[k]);
        ghost var t := Table(keys, monsters);
        var ok, stored := LoadRecord(raws[k]);
        if !ok {
          LoadFilePropagatesFailure(t0, raws, k + 1);
          assert raws[..|raws|] == raws;
          return None;
        }
        AdvanceStored(t, n, raws[k], Table(keys, monsters));
        if stored {
          n := n + 1;
        }
      }
      assert raws[..|raws|] == raws;
      count := Some(n);
    }

    /** The loop body for one record: an accepted record is normalised and stored under its key
        (`stored`); `ok` is false when the normaliser throws, and then nothing is stored. */
    method LoadRecord(raw: RawMonster) returns (ok: bool, stored: bool)
      requires Valid()
      modifies this
      ensures Valid()
      ensures stored <==> Accepted(raw)
      ensures ok <==> LoadStep(old(Table(keys, monsters)), raw).Some?
      ensures ok ==> Table(keys, monsters) == LoadStep(old(Table(keys, monsters)), raw).value
      ensures !ok ==> Table(keys, monsters) == old(Table(keys, monsters))
    {
      ok, stored := true, false;
      if raw.name != "" && IsValidMonster(raw) {
        stored := true;
        var key := MonsterKey(raw);
        var normalized := NormalizeMonster(raw);
        if normalized.None? {
          ok := false;
          return;
        }
        NormalizedRating(raw);
        SetMonster(key, normalized.value);
      }
    }

    /** `this.monsters.set(key, monster)`: a new key goes last, an existing key keeps its place. */
    method SetMonster(key: string, m: Monster)
      requires Valid() && m.cr.CrText?
      modifies this
      ensures Valid()
      ensures Table(keys, monsters) == Put(old(Table(keys, monsters)), key, m)
    {
      if key !in monsters {
        keys := keys + [key];
      }
      monsters := monsters[key := m];
    }

    /** `getAllMonsters` */
    function GetAllMonsters(): (vs: seq<Monster>)
      requires Valid()
      reads this
      ensures |vs| == |monsters|
      ensures forall m :: m in vs <==> m in monsters.Values
    {
      TableSize(Table(keys, monsters));
      var vs := Values(Table(keys, monsters));
      assert forall m :: m in monsters.Values ==> m in vs by {
        forall m | m in monsters.Values
          ensures m in vs
        {
          var k :| k in monsters && monsters[k] == m;
          var i :| 0 <= i < |keys| && keys[i] == k;
          assert vs[i] == m;
        }
      }
      vs
    }

    /** `getMonster` */
    function GetMonster(key: string): (r: Option<Monster>)
      reads this
      ensures r.Some? <==> key in monsters
      ensures r.Some? ==> r.value == monsters[key]
    {
      if key in monsters then Some(monsters[key]) else None
    }

    /** `searchMonsters` */
    function SearchMonsters(query: string): (r: seq<Monster>)
      requires Valid()
      reads this
      ensures |r| <= |monsters|
    {
      NameMatches(GetAllMonsters(), Lower(query))
    }

    /** `getMonstersBySource` */
    function GetMonstersBySource(source: string): (r: seq<Monster>)
      requires Valid()
      reads this
      ensures forall i :: 0 <= i < |r| ==> r[i].source == source && r[i] in monsters.Values
    {
      SourceMatches(GetAllMonsters(), source)
    }

    /** `getMonstersCount` */
    function GetMonstersCount(): (n: nat)
      requires Valid()
      reads this
      ensures n == |keys|
    {
      TableSize(Table(keys, monsters));
      |monsters|
    }

    /** The search returns exactly the stored monsters whose name contains the query, ignoring case. */
    lemma SearchMonstersIff(query: string, m: Monster)
      requires Valid()
      ensures m in SearchMonsters(query) <==> m in monsters.Values && Contains(Lower(m.name), Lower(query))
    {
      NameMatchesIff(GetAllMonsters(), Lower(query), m);
    }

    /** The source query returns exactly the stored monsters of that source. */
    lemma GetMonstersBySourceIff(source: string, m: Monster)
      requires Valid()
      ensures m in GetMonstersBySource(source) <==> m in monsters.Values && m.source == source
    {
      SourceMatchesIff(GetAllMonsters(), source, m);
    }
  }

  /** Once a normaliser has thrown, the rest of the file changes nothing. */
  lemma {:induction false} LoadFilePropagatesFailure(t: Table, raws: seq<RawMonster>, k: nat)
    requires TableValid(t)
    requires k <= |raws|
    requires LoadFile(t, raws[..k]).1.None?
    ensures LoadFile(t, raws) == LoadFile(t, raws[..k])
    decreases |raws| - k
  {
    if k < |raws| {
      assert raws[..k + 1][..k] == raws[..k];
      LoadFilePropagatesFailure(t, raws, k + 1);
    } else {
      assert raws[..k] == raws;
    }
  }
}
