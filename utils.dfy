/** `ConverterUtils`: validating a converted adversary, counting the bestiary, exporting an
    adversary as JSON, YAML or a stat block, and a batch conversion report. */
module ConverterUtils {
  import opened Text
  import opened Wrappers
  import opened Monsters
  import opened Tiering
  import opened Attacks
  import opened Features
  import opened Markdown
  import opened Converter
  import opened Bestiary
  import opened Search
  import opened Yaml

  // ---------- the adversary as a JavaScript object ----------

  /** An object whose properties are all strings. */
  function StringObject(props: seq<(string, string)>): (v: JsValue)
    ensures v.JsObject? && NullFree(v)
    ensures |v.fields| == |props|
    ensures forall i :: 0 <= i < |props| ==> v.fields[i] == (props[i].0, JsString(props[i].1))
  {
    JsObject(seq(|props|, i requires 0 <= i < |props| => (props[i].0, JsString(props[i].1))))
  }

  /** `{ name, range, damage }` */
  function AttackJson(s: StandardAttack): (v: JsValue)
    ensures v.JsObject? && NullFree(v)
  {
    StringObject([("name", s.name), ("range", RangeText(s.range)), ("damage", s.damage)])
  }

  /** `{ kind, name, text }` */
  function FeatureJson(f: Feature): (v: JsValue)
    ensures v.JsObject? && NullFree(v)
  {
    StringObject([("kind", KindText(f.kind)), ("name", f.name), ("text", f.Text())])
  }

  function StringsJson(ss: seq<string>): (v: JsValue)
    ensures v.JsArray? && |v.items| == |ss|
    ensures forall i :: 0 <= i < |ss| ==> v.items[i] == JsString(ss[i])
    ensures NullFree(v)
  {
    JsArray(seq(|ss|, i requires 0 <= i < |ss| => JsString(ss[i])))
  }

  function FeaturesJson(fs: seq<Feature>): (v: JsValue)
    ensures v.JsArray? && |v.items| == |fs|
    ensures forall i :: 0 <= i < |fs| ==> v.items[i] == FeatureJson(fs[i])
    ensures NullFree(v)
  {
    JsArray(seq(|fs|, i requires 0 <= i < |fs| => FeatureJson(fs[i])))
  }

  const AdversaryKeys: seq<string> :=
    ["name", "tier", "type", "description", "motives", "difficulty", "thresholds", "hp", "stress",
     "atk", "standardAttack", "experience", "features"]

  /** The `adversary` object of `convertDnDToDaggerheart`, its keys in the order it is written;
      a missing experience is `null`. */
  function AdversaryJson(a: Adversary): (v: JsValue)
    ensures NullFree(v) && HasAdversaryKeys(v)
    ensures v.fields[0].1 == JsString(a.name) && v.fields[1].1 == JsNumber(a.tier)
    ensures v.fields[11].1 == if a.experience.Some? then JsString(a.experience.value) else JsNull
  {
    var v := JsObject([
      ("name", JsString(a.name)),
      ("tier", JsNumber(a.tier)),
      ("type", JsString(RoleName(a.role))),
      ("description", JsString(a.description)),
      ("motives", StringsJson(a.motives)),
      ("difficulty", JsNumber(a.difficulty)),
      ("thresholds", JsArray([JsNumber(a.thresholds.0), JsNumber(a.thresholds.1)])),
      ("hp", JsNumber(a.hp)),
      ("stress", JsNumber(a.stress)),
      ("atk", JsNumber(a.atk)),
      ("standardAttack", AttackJson(a.standardAttack)),
      ("experience", if a.experience.Some? then JsString(a.experience.value) else JsNull),
      ("features", FeaturesJson(a.features))]);
    v
  }

  // ---------- property access ----------

  /** The first field named `key`, or `undefined`. */
  function Lookup(fields: seq<(string, JsValue)>, key: string): JsValue
    decreases |fields|
  {
    if |fields| == 0 then JsUndefined
    else if fields[0].0 == key then fields[0].1
    else Lookup(fields[1..], key)
  }

  /** `v[key]` for the keys validation reads: only an object has them. */
  function Get(v: JsValue, key: string): JsValue {
    if v.JsObject? then Lookup(v.fields, key) else JsUndefined
  }

  lemma {:induction false} LookupAbsent(fields: seq<(string, JsValue)>, key: string)
    requires forall i :: 0 <= i < |fields| ==> fields[i].0 != key
    ensures Lookup(fields, key) == JsUndefined
    decreases |fields|
  {
    if |fields| > 0 {
      LookupAbsent(fields[1..], key);
    }
  }

  /** The converter's keys, in order. */
  predicate HasAdversaryKeys(v: JsValue) {
    v.JsObject? && |v.fields| == |AdversaryKeys| && forall i :: 0 <= i < |v.fields| ==> v.fields[i].0 == AdversaryKeys[i]
  }

  lemma AbsentKey(v: JsValue, key: string)
    requires HasAdversaryKeys(v) && key !in AdversaryKeys
    ensures Get(v, key) == JsUndefined
  {
    LookupAbsent(v.fields, key);
  }

  lemma NameAndTier(v: JsValue)
    requires HasAdversaryKeys(v)
    ensures Get(v, "name") == v.fields[0].1 && Get(v, "tier") == v.fields[1].1
  {
    assert v.fields[0].0 == "name" && v.fields[1].0 == "tier";
    assert Lookup(v.fields, "tier") == Lookup(v.fields[1..], "tier");
  }

  /** JavaScript truthiness. */
  predicate Truthy(v: JsValue) {
    match v
    case JsNull => false
    case JsUndefined => false
    case JsString(s) => s != ""
    case JsNumber(n) => n != 0
    case JsBool(b) => b
    case _ => true
  }

  /** `v.length` */
  function Length(v: JsValue): JsValue {
    match v
    case JsArray(items) => JsNumber(|items|)
    case JsString(s) => JsNumber(|s|)
    case JsObject(fields) => Lookup(fields, "length")
    case _ => JsUndefined
  }

  // ---------- validateConversion ----------

  /** The messages `validateConversion` pushes. */
  datatype Missing =
    MissingName | MissingRole | MissingTier | MissingTags | MissingDefenses | MissingVitality | MissingDamage
  {
    function Message(): string {
      match this
      case MissingName => "Missing name"
      case MissingRole => "Missing role"
      case MissingTier => "Missing tier"
      case MissingTags => "Missing tags"
      case MissingDefenses => "Missing defenses"
      case MissingVitality => "Missing vitality"
      case MissingDamage => "Missing damage"
    }
  }

  function Check(missing: bool, message: Missing): seq<Missing> {
    if missing then [message] else []
  }

  predicate TagsMissing(tags: JsValue) {
    !Truthy(tags) || Length(tags) == JsNumber(0)
  }

  /** The messages `validateConversion` collects, in the order it checks; reading a property of
      `null` or `undefined` would throw. */
  function ValidationErrors(v: JsValue): seq<Missing>
    requires !v.JsNull? && !v.JsUndefined?
  {
    []
    + Check(!Truthy(Get(v, "name")), MissingName)
    + Check(!Truthy(Get(v, "role")), MissingRole)
    + Check(!Truthy(Get(v, "tier")), MissingTier)
    + Check(TagsMissing(Get(v, "tags")), MissingTags)
    + Check(!Truthy(Get(v, "defenses")), MissingDefenses)
    + Check(!Truthy(Get(v, "vitality")), MissingVitality)
    + Check(!Truthy(Get(v, "damage")), MissingDamage)
  }

  /** `validateConversion`: `ok` unless a check failed; `errors` is what it logs. */
  method ValidateConversion(v: JsValue) returns (ok: bool, errors: seq<Missing>)
    requires !v.JsNull? && !v.JsUndefined?
    ensures errors == ValidationErrors(v)
    ensures ok <==> errors == []
  {
    errors := [];
    errors := PushIf(errors, !Truthy(Get(v, "name")), MissingName);
    errors := PushIf(errors, !Truthy(Get(v, "role")), MissingRole);
    errors := PushIf(errors, !Truthy(Get(v, "tier")), MissingTier);
    errors := PushIf(errors, TagsMissing(Get(v, "tags")), MissingTags);
    errors := PushIf(errors, !Truthy(Get(v, "defenses")), MissingDefenses);
    errors := PushIf(errors, !Truthy(Get(v, "vitality")), MissingVitality);
    errors := PushIf(errors, !Truthy(Get(v, "damage")), MissingDamage);
    ok := |errors| == 0;
  }

  /** `if (missing) errors.push(message)` */
  method PushIf(errors: seq<Missing>, missing: bool, message: Missing) returns (r: seq<Missing>)
    ensures r == errors + Check(missing, message)
  {
    r := errors;
    if missing {
      r := r + [message];
    }
  }

  /** Validation passes exactly when all seven checks do. */
  lemma ValidIff(v: JsValue)
    requires !v.JsNull? && !v.JsUndefined?
    ensures ValidationErrors(v) == [] <==>
      && Truthy(Get(v, "name")) && Truthy(Get(v, "role")) && Truthy(Get(v, "tier"))
      && !TagsMissing(Get(v, "tags"))
      && Truthy(Get(v, "defenses")) && Truthy(Get(v, "vitality")) && Truthy(Get(v, "damage"))
  {
  }

  /** An object with the converter's keys, a non-empty name and a positive tier; it checks
      a name, but no [role, tags, defenses, vitality or damage]. */
  lemma AdversaryShapeInvalid(v: JsValue, name: string, tier: int)
    requires HasAdversaryKeys(v)
    requires v.fields[0].1 == JsString(name) && v.fields[1].1 == JsNumber(tier) && 1 <= tier
    ensures ValidationErrors(v) ==
      Check(name == "", MissingName)
      + [MissingRole, MissingTags, MissingDefenses, MissingVitality, MissingDamage]
  {
    NameAndTier(v);
    AbsentKey(v, "role");
    AbsentKey(v, "tags");
    AbsentKey(v, "defenses");
    AbsentKey(v, "vitality");
    AbsentKey(v, "damage");
  }

  /** The converter's adversary carries its role under `type` and has no `tags`, `defenses`,
      `vitality` or `damage`: validation rejects every converted adversary. */
  lemma ConvertedAdversaryInvalid(a: Adversary)
    requires 1 <= a.tier
    ensures ValidationErrors(AdversaryJson(a)) ==
      Check(a.name == "", MissingName)
      + [MissingRole, MissingTags, MissingDefenses, MissingVitality, MissingDamage]
  {
    AdversaryShapeInvalid(AdversaryJson(a), a.name, a.tier);
  }

  // ---------- exportConvertedAdversary ----------

  /** The `json` case yields the value `JSON.stringify` is applied to. */
  datatype Exported = JsonOut(value: JsValue) | TextOut(text: string)

  /** `exportConvertedAdversary` */
  function ExportConvertedAdversary(a: Adversary, format: string): (r: Exported)
    ensures r.JsonOut? <==> Lower(format) == "json"
  {
    var f := Lower(format);
    if f == "json" then JsonOut(AdversaryJson(a))
    else if f == "yaml" then TextOut(ToYaml(AdversaryJson(a), 0))
    else TextOut(ToMarkdown(a))
  }

  /** The format name is read without regard to case, and anything but `json` and `yaml` gives
      the stat block. */
  lemma ExportFormats(a: Adversary, format: string)
    ensures ExportConvertedAdversary(a, format) == ExportConvertedAdversary(a, Lower(format))
    ensures Lower(format) != "json" && Lower(format) != "yaml" ==>
      ExportConvertedAdversary(a, format) == TextOut(ToMarkdown(a))
  {
    LowerIdempotent(format);
  }

  /** Two keys that end at a colon at the start of the same line are the same key. */
  lemma PrefixClash(line: string, key: string, other: string)
    requires ':' !in key && ':' !in other
    requires StartsWith(line, key + ":") && StartsWith(line, other + ":")
    ensures key == other
  {
    assert forall k :: 0 <= k < |key| ==> line[k] == key[k];
    assert forall k :: 0 <= k < |other| ==> line[k] == other[k];
    assert line[|key|] == ':' && line[|other|] == ':';
    assert key == line[..|key|];
    assert other == line[..|other|];
  }

  /** A key that no entry of an object binds to a value has no line of its own at the top level. */
  lemma {:induction false} NoLineForKey(v: JsValue, key: string, i: nat)
    requires v.JsObject? && NullFree(v)
    requires key != "" && key[0] != ' ' && ':' !in key
    requires forall j :: 0 <= j < |v.fields| ==> ':' !in v.fields[j].0
    requires forall j :: i <= j < |v.fields| && v.fields[j].0 == key ==> v.fields[j].1.JsNull? || v.fields[j].1.JsUndefined?
    ensures forall k :: 0 <= k < |Lines(v, 0, i)| ==> !StartsWith(Lines(v, 0, i)[k], key + ":")
    decreases |v.fields| - i
  {
    if i < |v.fields| {
      NoLineForKey(v, key, i + 1);
      EntryLinesIndented(v, 0, i);
      var these := EntryLines(v, 0, i);
      forall k | 0 <= k < |these|
        ensures !StartsWith(these[k], key + ":")
      {
        if k == 0 {
          if StartsWith(these[0], key + ":") {
            assert StartsWith(these[0], v.fields[i].0 + ":");
            PrefixClash(these[0], v.fields[i].0, key);
          }
        } else {
          assert Indented(these[k], 1);
          assert these[k][0] == ' ';
        }
      }
      assert Lines(v, 0, i) == these + Lines(v, 0, i + 1);
    }
  }

  /** An object with the converter's keys opens its YAML with the name, and one whose
      experience is null has no `experience` line. */
  lemma AdversaryYamlShape(v: JsValue, name: string)
    requires NullFree(v) && HasAdversaryKeys(v)
    requires v.fields[0].1 == JsString(name)
    ensures |Lines(v, 0, 0)| >= 1 && Lines(v, 0, 0)[0] == "name: " + name
    ensures v.fields[11].1 == JsNull ==>
      forall k :: 0 <= k < |Lines(v, 0, 0)| ==> !StartsWith(Lines(v, 0, 0)[k], "experience:")
  {
    assert EntryLines(v, 0, 0) == [Spaces(0) + "name" + ":" + " " + name];
    assert Lines(v, 0, 0) == EntryLines(v, 0, 0) + Lines(v, 0, 1);
    if v.fields[11].1 == JsNull {
      assert forall j :: 0 <= j < |v.fields| ==> ':' !in v.fields[j].0;
      NoLineForKey(v, "experience", 0);
      assert "experience" + ":" == "experience:";
    }
  }

  /** The YAML export of an adversary opens with its name, and one without an experience has
      no `experience` line. */
  lemma YamlExport(a: Adversary)
    ensures ExportConvertedAdversary(a, "YAML") == TextOut(YamlText(Lines(AdversaryJson(a), 0, 0)))
    ensures
      var lines := Lines(AdversaryJson(a), 0, 0);
      && |lines| >= 1 && lines[0] == "name: " + a.name
      && (a.experience.None? ==> forall k :: 0 <= k < |lines| ==> !StartsWith(lines[k], "experience:"))
  {
    assert Lower("YAML") == "yaml";
    AdversaryYamlShape(AdversaryJson(a), a.name);
  }

  // ---------- getConversionStats ----------

  /** `monster.source || 'Unknown'` */
  function SourceKey(m: Monster): string {
    if m.source == "" then "Unknown" else m.source
  }

  /** `monster.cr || '0'` for a stored monster, whose rating is text. */
  function CrKey(m: Monster): string
    requires m.cr.CrText?
  {
    if m.cr.text == "" then "0" else m.cr.text
  }

  /** `monster.type || 'unknown'`; a type object used as a key reads `[object Object]`. */
  function TypeKey(m: Monster): string {
    match m.creatureType
    case TypeMissing => "unknown"
    case TypeName(n) => if n == "" then "unknown" else n
    case TypeObject(_, _) => "[object Object]"
  }

  /** A JavaScript object used as a counter: keys in insertion order with their counts. */
  type Counter = seq<(string, nat)>

  /** `stats.by[key] = (stats.by[key] || 0) + 1` */
  function Bump(c: Counter, key: string): (r: Counter)
    ensures |r| == |c| || |r| == |c| + 1
    decreases |c|
  {
    if |c| == 0 then [(key, 1)]
    else if c[0].0 == key then [(key, c[0].1 + 1)] + c[1..]
    else [c[0]] + Bump(c[1..], key)
  }

  /** The count stored under `key`, 0 when absent. */
  function CountOf(c: Counter, key: string): nat
    decreases |c|
  {
    if |c| == 0 then 0 else if c[0].0 == key then c[0].1 else CountOf(c[1..], key)
  }

  function Total(c: Counter): nat
    decreases |c|
  {
    if |c| == 0 then 0 else c[0].1 + Total(c[1..])
  }

  predicate DistinctKeys(c: Counter) {
    forall i, j :: 0 <= i < j < |c| ==> c[i].0 != c[j].0
  }

  /** The counter after counting `keys` one by one. */
  function Tally(keys: seq<string>): Counter
    decreases |keys|
  {
    if |keys| == 0 then [] else Bump(Tally(keys[..|keys| - 1]), keys[|keys| - 1])
  }

  /** How often `key` occurs in `keys`. */
  function Occurrences(keys: seq<string>, key: string): nat
    decreases |keys|
  {
    if |keys| == 0 then 0
    else Occurrences(keys[..|keys| - 1], key) + (if keys[|keys| - 1] == key then 1 else 0)
  }

  lemma {:induction false} BumpCounts(c: Counter, key: string, other: string)
    ensures CountOf(Bump(c, key), other) == CountOf(c, other) + (if key == other then 1 else 0)
    ensures Total(Bump(c, key)) == Total(c) + 1
    ensures DistinctKeys(c) ==> DistinctKeys(Bump(c, key))
    ensures forall i :: 0 <= i < |Bump(c, key)| ==> Bump(c, key)[i].0 == key || exists j :: 0 <= j < |c| && c[j].0 == Bump(c, key)[i].0
    decreases |c|
  {
    if |c| > 0 && c[0].0 != key {
      BumpCounts(c[1..], key, other);
      var r := Bump(c, key);
      assert r == [c[0]] + Bump(c[1..], key);
      forall i | 0 <= i < |r|
        ensures r[i].0 == key || exists j :: 0 <= j < |c| && c[j].0 == r[i].0
      {
        if i > 0 && r[i].0 != key {
          var j :| 0 <= j < |c[1..]| && c[1..][j].0 == r[i].0;
          assert c[j + 1].0 == r[i].0;
        }
      }
      if DistinctKeys(c) {
        assert DistinctKeys(c[1..]);
        forall i | 0 < i < |r|
          ensures r[i].0 != r[0].0
        {
          if r[i].0 != key {
            var j :| 0 <= j < |c[1..]| && c[1..][j].0 == r[i].0;
            assert c[j + 1].0 == r[i].0;
          }
        }
      }
    }
  }

  /** Each key is counted as often as it occurs, the counts add up to the number counted, and
      each key appears once. */
  lemma {:induction false} TallyCounts(keys: seq<string>, key: string)
    ensures CountOf(Tally(keys), key) == Occurrences(keys, key)
    ensures Total(Tally(keys)) == |keys|
    ensures DistinctKeys(Tally(keys))
    decreases |keys|
  {
    if |keys| > 0 {
      TallyCounts(keys[..|keys| - 1], key);
      BumpCounts(Tally(keys[..|keys| - 1]), keys[|keys| - 1], key);
    }
  }

  function SourceKeys(ms: seq<Monster>): (ks: seq<string>)
    ensures |ks| == |ms|
    decreases |ms|
  {
    if |ms| == 0 then [] else SourceKeys(ms[..|ms| - 1]) + [SourceKey(ms[|ms| - 1])]
  }

  predicate AllCrText(ms: seq<Monster>) {
    forall i :: 0 <= i < |ms| ==> ms[i].cr.CrText?
  }

  function CrKeys(ms: seq<Monster>): (ks: seq<string>)
    requires AllCrText(ms)
    ensures |ks| == |ms|
    decreases |ms|
  {
    if |ms| == 0 then [] else CrKeys(ms[..|ms| - 1]) + [CrKey(ms[|ms| - 1])]
  }

  function TypeKeys(ms: seq<Monster>): (ks: seq<string>)
    ensures |ks| == |ms|
    decreases |ms|
  {
    if |ms| == 0 then [] else TypeKeys(ms[..|ms| - 1]) + [TypeKey(ms[|ms| - 1])]
  }

  datatype Stats = Stats(totalMonsters: nat, bySource: Counter, byCr: Counter, byType: Counter)

  function StatsOf(ms: seq<Monster>): Stats
    requires AllCrText(ms)
  {
    Stats(|ms|, Tally(SourceKeys(ms)), Tally(CrKeys(ms)), Tally(TypeKeys(ms)))
  }

  /** The stored monsters all carry a rating as text. */
  lemma StoredAreCrText(loader: BestiaryLoader)
    requires loader.Valid()
    ensures AllCrText(loader.GetAllMonsters())
  {
    var ms := loader.GetAllMonsters();
    forall i | 0 <= i < |ms|
      ensures ms[i].cr.CrText?
    {
      assert ms[i] in loader.monsters.Values;
    }
  }

  /** `getConversionStats`: one pass over the stored monsters, counting each under its source,
      rating and type. */
  method GetConversionStats(loader: BestiaryLoader) returns (stats: Stats)
    requires loader.Valid()
    ensures AllCrText(loader.GetAllMonsters())
    ensures stats == StatsOf(loader.GetAllMonsters())
  {
    var ms := loader.GetAllMonsters();
    StoredAreCrText(loader);
    var bySource: Counter := [];
    var byCr: Counter := [];
    var byType: Counter := [];
    for i := 0 to |ms|
      invariant bySource == Tally(SourceKeys(ms[..i]))
      invariant byCr == Tally(CrKeys(ms[..i]))
      invariant byType == Tally(TypeKeys(ms[..i]))
    {
      assert ms[..i + 1][..i] == ms[..i];
      bySource := Bump(bySource, SourceKey(ms[i]));
      byCr := Bump(byCr, CrKey(ms[i]));
      byType := Bump(byType, TypeKey(ms[i]));
    }
    assert ms[..|ms|] == ms;
    stats := Stats(|ms|, bySource, byCr, byType);
  }

  /** Every breakdown accounts for every stored monster exactly once. */
  lemma StatsAddUp(ms: seq<Monster>, key: string)
    requires AllCrText(ms)
    ensures Total(StatsOf(ms).bySource) == StatsOf(ms).totalMonsters
    ensures Total(StatsOf(ms).byCr) == StatsOf(ms).totalMonsters
    ensures Total(StatsOf(ms).byType) == StatsOf(ms).totalMonsters
    ensures CountOf(StatsOf(ms).bySource, key) == Occurrences(SourceKeys(ms), key)
    ensures CountOf(StatsOf(ms).byCr, key) == Occurrences(CrKeys(ms), key)
    ensures CountOf(StatsOf(ms).byType, key) == Occurrences(TypeKeys(ms), key)
  {
    TallyCounts(SourceKeys(ms), key);
    TallyCounts(CrKeys(ms), key);
    TallyCounts(TypeKeys(ms), key);
  }

  // ---------- createBatchConversionReport ----------

  datatype Reason = NotFound | ValidationFailed

  datatype Failure = Failure(name: string, reason: Reason)

  /** What a successful entry records. */
  datatype Success = Success(originalName: string, convertedName: string, source: string, cr: CrValue, tier: int, role: Role)

  datatype Report = Report(totalRequested: nat, successful: seq<Success>, failed: seq<Failure>)

  /** What happens to one requested name: no search hit, or the first hit, its conversion and
      whether that passes validation. */
  datatype Outcome = NoMatch | Match(monster: Monster, adversary: Adversary, valid: bool)

  function OutcomeOf(ms: seq<Monster>, name: string): (o: Outcome)
    ensures o.NoMatch? <==> SearchByName(ms, name) == []
  {
    var hits := SearchByName(ms, name);
    if |hits| == 0 then NoMatch
    else
      var a := AdversaryOf(hits[0]);
      Match(hits[0], a, ValidationErrors(AdversaryJson(a)) == [])
  }

  /** The entry one outcome adds to the report. */
  function Record(r: Report, name: string, o: Outcome): Report {
    match o
    case NoMatch => r.(failed := r.failed + [Failure(name, NotFound)])
    case Match(m, a, valid) =>
      if valid then r.(successful := r.successful + [Success(m.name, a.name, m.source, m.cr, a.tier, a.role)])
      else r.(failed := r.failed + [Failure(name, ValidationFailed)])
  }

  /** The report after the names in turn. */
  function BatchOf(ms: seq<Monster>, total: nat, names: seq<string>): Report
    decreases |names|
  {
    if |names| == 0 then Report(total, [], [])
    else Record(BatchOf(ms, total, names[..|names| - 1]), names[|names| - 1], OutcomeOf(ms, names[|names| - 1]))
  }

  /** `createBatchConversionReport` over the stored monsters. */
  method CreateBatchConversionReport(loader: BestiaryLoader, names: seq<string>) returns (report: Report)
    requires loader.Valid()
    ensures report == BatchOf(loader.GetAllMonsters(), |names|, names)
  {
    var ms := loader.GetAllMonsters();
    report := Report(|names|, [], []);
    for i := 0 to |names|
      invariant report == BatchOf(ms, |names|, names[..i])
    {
      BatchOfStep(ms, |names|, names, i);
      report := RecordName(ms, report, names[i]);
    }
    assert names[..|names|] == names;
  }

  lemma {:induction false} BatchOfStep(ms: seq<Monster>, total: nat, names: seq<string>, i: nat)
    requires i < |names|
    ensures BatchOf(ms, total, names[..i + 1]) == Record(BatchOf(ms, total, names[..i]), names[i], OutcomeOf(ms, names[i]))
  {
    assert names[..i + 1][..i] == names[..i];
  }

  /** The body of the `monsterNames.forEach`: search, take the first match, convert, validate. */
  method RecordName(ms: seq<Monster>, report: Report, name: string) returns (r: Report)
    ensures r == Record(report, name, OutcomeOf(ms, name))
  {
    var monsters := SearchByName(ms, name);
    if |monsters| == 0 {
      r := report.(failed := report.failed + [Failure(name, NotFound)]);
      return;
    }
    var monster := monsters[0];
    var adversary := ConvertToDaggerheart(monster);
    var ok, _ := ValidateConversion(AdversaryJson(adversary));
    if ok {
      r := report.(successful := report.successful
        + [Success(monster.name, adversary.name, monster.source, monster.cr, adversary.tier, adversary.role)]);
    } else {
      r := report.(failed := report.failed + [Failure(name, ValidationFailed)]);
    }
  }

  /** Why a name fails: nothing found, or a conversion that fails validation. */
  function ReasonFor(ms: seq<Monster>, name: string): Reason {
    if SearchByName(ms, name) == [] then NotFound else ValidationFailed
  }

  /** One failure per name, in order. */
  function Failures(ms: seq<Monster>, names: seq<string>): (fs: seq<Failure>)
    ensures |fs| == |names|
    decreases |names|
  {
    if |names| == 0 then []
    else Failures(ms, names[..|names| - 1]) + [Failure(names[|names| - 1], ReasonFor(ms, names[|names| - 1]))]
  }

  /** The `i`-th failure is the `i`-th name, with its reason. */
  lemma {:induction false} FailureAt(ms: seq<Monster>, names: seq<string>, i: nat)
    requires i < |names|
    ensures Failures(ms, names)[i] == Failure(names[i], ReasonFor(ms, names[i]))
    decreases |names|
  {
    if i < |names| - 1 {
      FailureAt(ms, names[..|names| - 1], i);
    }
  }

  /** A found monster's conversion never passes validation, so each name adds a failure. */
  lemma RecordFails(ms: seq<Monster>, r: Report, name: string)
    ensures Record(r, name, OutcomeOf(ms, name)) == r.(failed := r.failed + [Failure(name, ReasonFor(ms, name))])
  {
    var hits := SearchByName(ms, name);
    if |hits| > 0 {
      ConvertedAdversaryInvalid(AdversaryOf(hits[0]));
    }
  }

  /** Every requested name ends up among the failures, in order, since validation rejects every
      converted adversary: none is ever a success. */
  lemma {:induction false} BatchAllFail(ms: seq<Monster>, total: nat, names: seq<string>)
    ensures BatchOf(ms, total, names) == Report(total, [], Failures(ms, names))
    decreases |names|
  {
    if |names| > 0 {
      var init := names[..|names| - 1];
      BatchAllFail(ms, total, init);
      RecordFails(ms, BatchOf(ms, total, init), names[|names| - 1]);
    }
  }

  /** The `i`-th failure names the `i`-th request, and it is "Not found" exactly when the search
      for that name finds nothing. */
  lemma BatchFailureAt(ms: seq<Monster>, total: nat, names: seq<string>, i: nat)
    requires i < |names|
    ensures |BatchOf(ms, total, names).failed| == |names|
    ensures BatchOf(ms, total, names).failed[i].name == names[i]
    ensures BatchOf(ms, total, names).failed[i].reason == NotFound <==> SearchByName(ms, names[i]) == []
  {
    BatchAllFail(ms, total, names);
    FailureAt(ms, names, i);
  }
}
