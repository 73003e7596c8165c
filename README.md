# 5e-To-Daggerheart in Dafny

This project models the core of 5e-To-Daggerheart, a browser tool. The tool turns a
Dungeons & Dragons 5th-edition monster (a 5eTools bestiary record, or a pasted stat block)
into a Daggerheart adversary, which it then renders as a Markdown stat block, as YAML or as a
JSON value.

The tool has four parts, each modelled by one or more Dafny modules:

- **Converter** (`js/converter.js`), in modules `Tiering`, `Scaling`, `Attacks`, `Experience`,
  `Features`, `Descriptions`, `Markdown` and `Converter`.
  - The tier comes from the challenge rating and the role from a fixed list of rules.
  - Difficulty, thresholds, hit points and stress come from tables.
  - The attack modifier comes from the best stated to-hit bonus.
  - The standard attack comes from two scans over the actions. The first looks only at
    "iconic" melee actions; the second, run when that one finds nothing, looks at all of them.
  - The Experience comes from the best skill, and up to 22 keyword rules push features.
  - Description, motives and the Markdown stat block are built from the above.
  - The loops of the source (`bestToHit`, `buildStandardAttack`, `averageDamage`,
    `snapDamageDice`, `pickExperience`, `_toYAML`, …) are Dafny methods with loop invariants.
    Each is proved equal to a specification function, and that function's properties are
    lemmas.
- **Bestiary loader** (`js/bestiary-loader.js`), in module `Bestiary`.
  - The normalisers of a raw 5eTools record are functions.
  - The loader object is the class `Bestiary.BestiaryLoader`. Its `Map` of monsters is held as
    the keys in insertion order plus a `map`.
  - The per-file insertion loop is a method. The proof shows the resulting table and count
    equal a fold (`LoadFile`) over the records. The lemmas prove that the count is the number
    of accepted records, that the last record stored under a key wins, and that a normaliser
    that throws stops the file.
- **Utilities** (`js/utils.js`), in modules `ConverterUtils`, `Search` and `Yaml`: validation,
  statistics, name search with ranking, export, the YAML serialiser and the batch report.
- **Stat-block parsing** (`script.js`), in module `Statblock`: the two action parsers and
  `parseStatblockText`.

Values follow JavaScript where that matters:

- JavaScript numbers are `JsNumber.Num`: exact reals plus infinities and NaN.
- `Number()`, truthiness, `||`/`??` defaults and `Math.round` are written out.
- Regular expressions are hand-written scanners that find what the pattern would find at the
  leftmost position.
- `toLowerCase` is ASCII case folding.

These facts about the code come out of the proofs:

- `validateConversion` reads `role`, `tags`, `defenses`, `vitality` and `damage`. The
  converter produces none of these: it writes the role under `type`. So validation rejects
  every converted adversary, and every batch report lists all requested names as failures
  (`ConverterUtils.ConvertedAdversaryInvalid`, `ConverterUtils.BatchAllFail`).
- The label filter of `parseActionsFromStatblock` is an anchored prefix test. So actions
  named "Constrict" or "Change Shape" are dropped as stat labels
  (`Statblock.ConstrictIsStatLabel`).
- The loader stores only `desc` and `damage` for each ability, drops resistances and
  immunities, and renders speed as text. So a loaded monster never gets Flurry, Resistance
  or Immunity features and is never described as striking "from the sky"
  (`Converter.LoadedMonsterConversion`).
- A stored record whose challenge rating is falsy (0, "" or an object with an empty `cr`) is
  kept with "0", which `crToNumber` reads as 1. So such a monster lands in tier 1
  (`Converter.FalsyCrIsTierOne`). A record with no rating at all is never stored
  (`Bestiary.StoredExactlyWhenValid`).
- Role inference never yields Horde, so no converted adversary carries "Horde (weakened)"
  (`Converter.NoHordeFeature`).

In `thresholdsPackage`, the default table of `js/converter.js` lines 95-103 is the function
`Scaling.BasePackage`. The method `Scaling.ThresholdsPackage` calls it, then applies the two
nudges step by step.

## Model

| member | source | states |
|---|---|---|
| Monsters.MentionsIff | js/converter.js:292 | an ability matches a keyword pattern exactly when its lower-cased name or body contains one of the keywords |
| Monsters.HasTraitIff | js/converter.js:290-293 | `hasTrait` holds exactly when some trait's name or body contains some keyword, ignoring case |
| Monsters.HasActionIff | js/converter.js:294-297 | `hasAction` holds exactly when some action's name or body contains some keyword, ignoring case |
| Tiering.CrFraction | js/converter.js:55-61 | a rating "a/b" of two digit runs is read as the quotient a/b |
| Tiering.CrNonFractionTruthy | js/converter.js:55-61 | a rating that is not a fraction never reads as 0 or NaN; an absent rating, the number 0, "" and unparseable text read as 1, and a non-zero number as itself |
| Tiering.ZeroRatingReadsOne | js/converter.js:56-60 | the stored rating "0" is read as 1 |
| Tiering.TierOf | js/converter.js:6 | the tier is 1..4, with CR up to 3, 10 and 16 bounding tiers 1, 2 and 3 (each case an if-and-only-if; NaN gives 4) |
| Tiering.TierMonotone | js/converter.js:6 | a higher challenge rating never gives a lower tier |
| Tiering.InferRole | js/converter.js:63-81 | the role is one of six, and each is characterised exactly by the first rule that fires (summoner ⇒ Leader; stealthy and not ranged ⇒ Skulk; …) |
| Tiering.StealthSkillIff | js/converter.js:70 | the stealth test on the joined skill names holds exactly when some skill name mentions stealth |
| Tiering.SummonerIsLeader | js/converter.js:75-76 | summoning wins over stealth: a stealthy summoner is a Leader |
| Scaling.BaselineDifficulty | js/converter.js:83-90 | the baseline lies in 8..18 for every tier and role |
| Scaling.BaselineMonotone | js/converter.js:84-87 | each role's baseline weakly rises with the tier |
| Scaling.Clamp | js/converter.js:325 | the result lies in [lo, hi], is x inside the range and the nearer bound outside it |
| Scaling.JsRound | js/converter.js:14 | `Math.round` gives the integer within half of x, halves rounded up |
| Scaling.AcOffsetClosedForm | js/converter.js:14 | for an integer AC, the rounded half of AC-13 is floor((AC-12)/2) |
| Scaling.Difficulty | js/converter.js:12-14 | difficulty lies in 8..18 and equals the baseline when AC is absent (AC 12) |
| Scaling.DifficultyMonotoneInAc | js/converter.js:12-14 | more armour never lowers the difficulty |
| Scaling.HpBandsOrdered | js/converter.js:110-111 | the expected low HP band is strictly below the high band for every rating |
| Scaling.ExpectedHpMonotone | js/converter.js:110-111 | a higher rating never lowers either band, and NaN falls in the top bands 230 and 350 |
| Scaling.NudgesExclusive | js/converter.js:106-107 | at most one of the two nudges fires |
| Scaling.ThresholdsPackage | js/converter.js:92-109 | the package equals the defaults followed by the shrink and grow nudges, and is sound (thresholds rising, HP 4..8, stress 3..5) for tiers 1..4 |
| Scaling.ThresholdsSound | js/converter.js:92-109 | every tier 1..4 package has Major ≥ 4, Severe ≥ Major + 4, HP in 4..8 and stress 3..5 |
| Attacks.MaxToHitIsMaximum | js/converter.js:113-120 | the best to-hit is ≥ 0, bounds every stated bonus, and is 0 or one of them |
| Attacks.BestToHit | js/converter.js:113-120 | the loop computes the maximum of the stated bonuses, starting from 0 |
| Attacks.ToHitToAtk | js/converter.js:121 | the attack modifier is 1..4 |
| Attacks.AtkMonotone | js/converter.js:121 | a larger to-hit bonus never gives a smaller modifier |
| Attacks.AverageDamage | js/converter.js:147-159 | the `re.exec` loop plus fallbacks computes the dice-average function, which is never negative |
| Attacks.SingleChunkAverage | js/converter.js:150-154 | a text that is exactly "(NdM)" with N > 0 averages N(M+1)/2 |
| Attacks.InferRange | js/converter.js:160 | Very Close exactly when there is no ranged evidence and there is melee evidence |
| Attacks.NormalizeAttackName | js/converter.js:161 | the name is kept or becomes "Strike", and it changes exactly when it is "multiattack" up to case and blanks |
| Attacks.NormalizeIdempotent | js/converter.js:161 | normalising a name twice is normalising it once |
| Attacks.NearestStep | js/converter.js:167-168 | the chosen step is nearest to the average, the earliest on ties |
| Attacks.SnapDamageDice | js/converter.js:162-170 | the loop picks the nearest dice step's text |
| Attacks.SnappedDice | js/converter.js:162-170 | the dice text is always one of the table's six |
| Attacks.SnapTableFixed | js/converter.js:163-166 | every table average snaps back to its own dice |
| Attacks.SnapFiveAndAHalf | js/converter.js:164 | 5.5 snaps to "1d8+1" |
| Attacks.BestAmongIsBest | js/converter.js:127-141 | a scan by strictly greater damage finds nothing exactly when nothing qualifies, else the earliest qualifying maximum |
| Attacks.BestIconic | js/converter.js:126-134 | the first loop ends with the best iconic action's candidate and its damage, or none and -1 |
| Attacks.BestOverall | js/converter.js:135-141 | the second loop ends with the best action's candidate, named "Attack" when unnamed |
| Attacks.BuildStandardAttack | js/converter.js:123-146 | the standard attack equals the two-pass choice followed by range, dice and name |
| Attacks.StandardAttackOf | js/converter.js:143 | the attack's damage is always one of the dice steps |
| Attacks.ChosenIsBest | js/converter.js:123-146 | with an iconic action the chosen one is iconic and none is stronger; without one it is the strongest action; no actions, no candidate |
| Experience.FirstMaxIsMax | js/converter.js:175-181 | the scan finds nothing exactly when every bonus is ≤ -999, else the first bonus of greatest value |
| Experience.ExperienceLabel | js/converter.js:183-200 | the label is the mapped name of the lower-cased skill, or "Quick Reflexes" when it is not mapped |
| Experience.PickExperience | js/converter.js:172-202 | the loop computes the Experience function |
| Experience.NoSkillsNoExperience | js/converter.js:182 | no skills give no Experience |
| Experience.ExperienceIsBestSkill | js/converter.js:172-202 | the Experience is the first skill of greatest bonus, labelled, with "+3" exactly when the bonus is ≥ 6 |
| Experience.SkillsGiveExperience | js/converter.js:176-182 | a named skill with a bonus above -999 always gives an Experience |
| Features.FirstNamed | js/converter.js:246 | `find` returns the first action whose name mentions a keyword, or none when no name does |
| Features.BuildFeatures | js/converter.js:204-288 | the pushes produce the features of the 22 rules in order |
| Features.FeatureFromRule | js/converter.js:204-288 | a feature is listed exactly when some rule produces it |
| Features.FeaturesInRuleOrder | js/converter.js:204-288 | at most 22 features, in strictly increasing rule order |
| Features.FeatureMembership | js/converter.js:207-286 | each feature is present exactly when its rule's condition holds |
| Features.MinionIff | js/converter.js:215-217 | "Minion (5)" is present exactly for the Minion role |
| Features.HordeIff | js/converter.js:212-214 | "Horde (weakened)" is present exactly for the Horde role |
| Features.PackHuntersIff | js/converter.js:228 | Pack Hunters is present exactly when a trait mentions pack tactics |
| Features.SummonExclusive | js/converter.js:219-226 | the two summoning features are never both pushed, and one of them is exactly when a trait or action mentions "summon" |
| Features.ResistanceIff | js/converter.js:268-271 | the Resistance feature is present exactly when the resistance list is non-empty |
| Features.ImmunityIff | js/converter.js:272-275 | the Immunity feature is present exactly when the immunity list is non-empty |
| Features.BreathNeedsNamedAction | js/converter.js:244-255 | a breath feature appears exactly when some action's name mentions breath or recharge |
| Features.NoFlurryWithoutEntries | js/converter.js:258-265 | without action paragraphs Flurry never fires |
| Features.NoResistanceWithoutList | js/converter.js:268-271 | without resistances there is no Resistance feature of any wording |
| Features.NoImmunityWithoutList | js/converter.js:272-275 | without immunities there is no Immunity feature of any wording |
| Descriptions.SizeWord | js/converter.js:300-302 | the size word is one of six, "medium" for an unknown code |
| Descriptions.TypeText | js/converter.js:303 | the type text is never empty and is the type name when there is one |
| Descriptions.TypeTag | js/converter.js:304 | the tag part is empty exactly when the type has no tag list |
| Descriptions.DescriptionAction | js/converter.js:307-311 | the phrase is one of five, "strikes from the sky" for a flier |
| Descriptions.ActionPriority | js/converter.js:307-311 | each phrase is chosen exactly by its own clue and no earlier one |
| Descriptions.TextSpeedNeverFlies | js/converter.js:308 | a speed held as text never yields "strikes from the sky" |
| Descriptions.InferDescription | js/converter.js:299-314 | the description opens with "A <size> <type>" and ends with " who <action>." for the phrase the clues pick |
| Descriptions.InferMotives | js/converter.js:315-324 | three motives, the default three for roles without their own |
| Descriptions.MotivesDistinguishRoles | js/converter.js:316-321 | two different roles with their own motives never share them |
| Markdown.HeaderLines | js/converter.js:328-338 | the header block has ten lines and ends with "FEATURES" |
| Markdown.NonEmpty | js/converter.js:340 | the filter keeps only non-empty lines, each one of the input |
| Markdown.MarkdownEndsWithFeatures | js/converter.js:327-341 | the kept lines are the kept header, ending in "FEATURES", followed by one line per feature |
| Markdown.MarkdownFeatureSuffix | js/converter.js:338-339 | counting from the end: "FEATURES", then exactly the feature lines |
| Markdown.MarkdownLinesRoundTrip | js/converter.js:327-341 | with no line breaks inside fields, splitting the stat block gives back exactly its kept lines |
| Markdown.MarkdownOpensWithName | js/converter.js:329 | a named adversary's block opens with the name in capitals |
| Converter.AdversaryOf | js/converter.js:3-46 | a converted adversary keeps the name, is tier 1..4, never Horde, difficulty 8..18, a sound package, ATK 1..4, three role motives and the role's features |
| Converter.ConvertDnDToDaggerheart | js/converter.js:3-52 | the eight steps give the adversary and its Markdown |
| Converter.ConvertToDaggerheart | js/converter.js:345-348 | returns the adversary of the conversion |
| Converter.NoHordeFeature | js/converter.js:9 | no converted adversary carries "Horde (weakened)" |
| Converter.MinionFeatureIffMinion | js/converter.js:30 | "Minion (5)" is present exactly when the inferred role is Minion |
| Converter.LoadedMonsterConversion | js/converter.js:204-314 | a loaded monster never gets Flurry, Resistance or Immunity, nor "strikes from the sky" |
| Converter.FalsyCrIsTierOne | js/converter.js:5-6 | a stored monster whose rating is falsy (0, "" or an empty `cr`) is tier 1 |
| Bestiary.NormalizeAc | js/bestiary-loader.js:249-258 | fails exactly on an empty AC list; absent or 0 gives 10; a non-zero number or object `ac` is kept; a list gives its first entry's `ac`, or the entry itself when it is a number |
| Bestiary.NormalizeHp | js/bestiary-loader.js:260-266 | the stored HP is never absent or 0: falsy input gives 1, a non-zero number is kept, a non-zero average wins, otherwise the raw formula when it is non-empty |
| Bestiary.NormalizeCr | js/bestiary-loader.js:286-292 | the rating is non-empty text: "0" for anything falsy, the decimal text of a number, and a non-empty string or object `cr` as written |
| Bestiary.NormalizeAlignment | js/bestiary-loader.js:241-247 | a list is joined with spaces, a missing one is "Unaligned", a string is kept |
| Bestiary.NormalizeSpeed | js/bestiary-loader.js:268-284 | the pushes give the rendered speed, which is never empty |
| Bestiary.SpeedDefaultIff | js/bestiary-loader.js:270-282 | the default "30 ft." appears exactly when every movement mode is absent |
| Bestiary.WalkComesFirst | js/bestiary-loader.js:272 | a walking speed leads the rendered text |
| Bestiary.DamageFrom | js/bestiary-loader.js:313 | the match is the leftmost dice expression, and none means there is none |
| Bestiary.ExtractDamageFinds | js/bestiary-loader.js:309-315 | the damage is empty exactly when the joined text holds no dice expression, otherwise it occurs in the text |
| Bestiary.NormalizeAbility | js/bestiary-loader.js:297-301 | a missing name becomes "Unnamed" and a given one is kept; the text is the joined paragraphs and the damage the extracted dice; no paragraphs are kept |
| Bestiary.NormalizeAbilities | js/bestiary-loader.js:294-302 | one normalised ability per raw ability, in order, none for an absent list |
| Bestiary.NormalizedTextIsJoinedEntries | js/bestiary-loader.js:298-299 | what the converter reads from a stored ability is the raw paragraphs joined |
| Bestiary.NormalizeMonster | js/bestiary-loader.js:209-239 | fails exactly on an empty AC list; keeps the name, drops resistances and immunities, stores speed and rating as text |
| Bestiary.DefaultScores | js/bestiary-loader.js:221-226 | each non-zero score is kept and each zero one becomes 10, so none is stored as 0 |
| Bestiary.LoadedAbilitiesHaveNoEntries | js/bestiary-loader.js:294-302 | every stored action and trait has lost its paragraphs |
| Bestiary.MonsterKeyShape | js/bestiary-loader.js:197-207 | the key starts with the name part and has a source part only when there is a source |
| Bestiary.MonsterKeyPage | js/bestiary-loader.js:203-205 | a record with a page number has a key ending in "_" and that number |
| Bestiary.StoredExactlyWhenValid | js/bestiary-loader.js:189-195 | a record lacking a name, rating, HP or AC leaves the table unchanged; one with all four is stored under its key unless its AC list is empty |
| Bestiary.KeysCanCollide | js/bestiary-loader.js:197-207 | a two-word unsourced name and its first word with the second as source share a key |
| Bestiary.Put | js/bestiary-loader.js:176 | `Map.set` binds the key; a new key goes last and an existing one keeps its place |
| Bestiary.LoadFileCount | js/bestiary-loader.js:169-179 | a file that loads counts exactly its accepted records |
| Bestiary.LoadFileLastWriteWins | js/bestiary-loader.js:169-179 | each key is bound to the last accepted record that produces it, others keep their previous binding |
| Bestiary.LoadFileGrowth | js/bestiary-loader.js:169-179 | the key list only grows, by at most the count |
| Bestiary.LoadFilePropagatesFailure | js/bestiary-loader.js:169-186 | after a normaliser throws, the rest of the file changes nothing |
| Bestiary.TableSize | js/bestiary-loader.js:338-340 | the map's size equals the number of keys |
| Bestiary.NameMatchesIff | js/bestiary-loader.js:325-330 | the filter keeps exactly the monsters whose lower-cased name contains the query |
| Bestiary.SourceMatches | js/bestiary-loader.js:333-335 | the filter keeps only monsters of that source, each from the input |
| Bestiary.SourceMatchesIff | js/bestiary-loader.js:333-335 | the filter keeps exactly the monsters of that source |
| Bestiary.BestiaryLoader.constructor | js/bestiary-loader.js:3-9 | the loader starts with an empty map |
| Bestiary.BestiaryLoader.LoadRecords | js/bestiary-loader.js:158-187 | the loop leaves the table and count of the fold over the records, or stops at the first throw |
| Bestiary.BestiaryLoader.LoadRecord | js/bestiary-loader.js:170-178 | one record: stored exactly when accepted, and the table moves as one loop step says |
| Bestiary.BestiaryLoader.SetMonster | js/bestiary-loader.js:176 | the new table is the old one with the key bound |
| Bestiary.BestiaryLoader.GetAllMonsters | js/bestiary-loader.js:317-319 | one value per key, and exactly the stored monsters |
| Bestiary.BestiaryLoader.GetMonster | js/bestiary-loader.js:321-323 | present exactly when the key is stored, with its monster |
| Bestiary.BestiaryLoader.SearchMonsters | js/bestiary-loader.js:325-330 | never more results than stored monsters |
| Bestiary.BestiaryLoader.SearchMonstersIff | js/bestiary-loader.js:325-330 | a monster is found exactly when it is stored and its name contains the query, ignoring case |
| Bestiary.BestiaryLoader.GetMonstersBySource | js/bestiary-loader.js:332-336 | every result is a stored monster of that source |
| Bestiary.BestiaryLoader.GetMonstersBySourceIff | js/bestiary-loader.js:332-336 | a monster is returned exactly when it is stored and has that source |
| Bestiary.BestiaryLoader.GetMonstersCount | js/bestiary-loader.js:338-340 | the count is the number of stored keys |
| ConverterUtils.ValidateConversion | js/utils.js:22-39 | the checks push their messages in order, and the result is true exactly when none was pushed |
| ConverterUtils.ValidIff | js/utils.js:25-31 | validation passes exactly when all seven checks do |
| ConverterUtils.ConvertedAdversaryInvalid | js/utils.js:25-31 | a converted adversary always misses role, tags, defenses, vitality and damage |
| ConverterUtils.AdversaryJson | js/converter.js:32-46 | the adversary object has the converter's keys in order, and a null experience when there is none |
| ConverterUtils.ExportConvertedAdversary | js/utils.js:94-106 | JSON output exactly for "json" in any case |
| ConverterUtils.ExportFormats | js/utils.js:94-106 | the format ignores case, and anything but json and yaml gives the Markdown |
| ConverterUtils.YamlExport | js/utils.js:99-100 | the YAML opens with the name, and an adversary without an experience has no experience line |
| ConverterUtils.TallyCounts | js/utils.js:50-62 | each key is counted as often as it occurs, the counts add up, and keys are distinct |
| ConverterUtils.GetConversionStats | js/utils.js:41-65 | the loop computes the statistics of the stored monsters |
| ConverterUtils.StatsAddUp | js/utils.js:41-65 | each breakdown accounts for every monster exactly once |
| ConverterUtils.CreateBatchConversionReport | js/utils.js:141-180 | the loop computes the report fold over the names |
| ConverterUtils.RecordName | js/utils.js:149-175 | one name: search, first match, convert, validate, record |
| ConverterUtils.BatchAllFail | js/utils.js:141-180 | every report has no successes and one failure per name, in order |
| ConverterUtils.BatchFailureAt | js/utils.js:149-175 | the i-th failure names the i-th request, "Not found" exactly when the search is empty |
| Search.SortByRank | js/utils.js:75-90 | the sort is a permutation of the matches |
| Search.SortByRankSorted | js/utils.js:75-90 | the sorted list follows the comparator |
| Search.BeforeTransitive | js/utils.js:75-90 | the comparator (exact, then prefix, then name order) is transitive |
| Search.SearchByName | js/utils.js:67-92 | a query shorter than two gives nothing, and at most twenty results |
| Search.SearchResultsMatch | js/utils.js:73-74 | every result is a stored monster whose name contains the query, ignoring case |
| Search.SearchResultsOrdered | js/utils.js:75-90 | results come exact matches first, then prefix matches, then the rest |
| Search.SearchComplete | js/utils.js:73-91 | results are drawn from the matches; up to twenty matches all come back, beyond that exactly twenty do |
| Search.SearchDropsOnlyLater | js/utils.js:75-91 | the twenty kept are the first in comparator order: every match left out comes after every result |
| Yaml.Serialize | js/utils.js:108-139 | the loop over the entries appends exactly the YAML text of the object |
| Yaml.SerializeItems | js/utils.js:122-130 | the loop over an array's items appends their YAML text |
| Yaml.LinesIndented | js/utils.js:108-139 | every line is indented at least as deep as its object |
| Yaml.EntryLinesIndented | js/utils.js:112-136 | null and undefined entries give no line; otherwise the first line names the key and nested lines sit deeper |
| Yaml.ItemEntryLinesIndented | js/utils.js:122-130 | an item starts with its dash one level deeper |
| ConverterUtils.NoLineForKey | js/utils.js:113-115 | a key bound only to null or undefined gets no line |
| Statblock.ParseActionsFromText | script.js:144-162 | the loop gives one action per non-blank line |
| Statblock.ActionPerLine | script.js:144-162 | the early return for blank text agrees with the per-line mapping |
| Statblock.ActionOfKthLine | script.js:147-160 | the k-th action is read from the k-th non-blank line |
| Statblock.NoActionsIffBlank | script.js:144-162 | no action exactly when the text is blank |
| Statblock.NoColonLine | script.js:151-159 | a line without a colon past its start is named by itself, with the basic attack text |
| Statblock.ActionLineRoundTrip | script.js:151-157 | a written "name: desc" line parses back to the action |
| Statblock.ParseWrittenActions | script.js:144-162 | writing actions one per line and parsing gives them back |
| Statblock.GuessType | script.js:206-214 | the loop gives the type guess |
| Statblock.TypeGuessIsFirstMatch | script.js:206-214 | the guess is the first listed type the text contains, or "humanoid" when none is |
| Statblock.TypeGuessHumanoidIff | script.js:206-214 | the guess stays "humanoid" exactly when no listed type occurs |
| Statblock.ParseActionsFromStatblock | script.js:238-260 | the loop gives the kept actions, at most four |
| Statblock.KeptActionsIff | script.js:244-257 | the pushed actions are exactly those of the matches that carry one |
| Statblock.StatblockActionsBounded | script.js:252-259 | at most four, the first four pushed, none named after a stat label |
| Statblock.ConstrictIsStatLabel | script.js:252 | the prefix test takes "Constrict" for a stat label |
| Statblock.ParseStatblockText | script.js:184-236 | the parsed creature is built from the text and its pattern results |
| Statblock.StatblockDefaults | script.js:219-235 | a failed pattern leaves its field at the default (AC and HP 10, CR "1", speed "30 ft.", scores 10) |
| Statblock.StatblockCreatureActions | script.js:216-235 | the creature has one to four actions, the placeholder when none parsed |
| Statblock.StatblockName | script.js:186-189 | a blank text is named "Parsed Creature"; any other gives a name with no emphasis mark or blank at either end |
| Statblock.NameFromFirstLine | script.js:186-220 | the name is the first non-blank line of the text, trimmed and stripped of emphasis marks |
| Text.JoinSplit | js/converter.js:59 | joining the pieces of a split with the separator restores the text |
| Text.SplitJoin | js/converter.js:59 | splitting a join on a separator no part contains gives the parts back |
| Text.NatToStringRoundTrip | js/bestiary-loader.js:286-292 | the decimal text of a number reads back as the number |

## Left out

- Fetching bestiary files, `async` loading and promises (`getBestiaryFiles`, `loadAllBestiaries`, `_loadBestiariesInternal`, the fetch in `_loadBestiaryFile`): these are I/O. The model starts from the parsed records of one file.
- Everything in `script.js` that touches the DOM or the clipboard (`init`, `loadMonsterData`, `populateMonsterDropdown`, `selectMethod`, `convertSRDMonster`, `convertCustomCreature`, `parseAndConvert`, display and message helpers, `downloadMarkdown`): these are user interface. There is no bridge from the parsed creature to the converter, because that bridge is UI code.
- `logConversionDetails` and every `console` call: logging only. `ConverterUtils.ValidateConversion` returns the messages it would log.
- `JSON.stringify`: the json export returns the value that would be stringified.
- The batch report's timestamp and success rate: they come from the clock and from floating-point division.
- ConverterUtils.CreateBatchConversionReport: does not model the `catch` branch. No modelled step can throw on a stored monster.
- Yaml.Serialize: requires that no array item is null. `Object.entries(null)` would throw, and the converter never produces one.
- The enumeration order of integer-like keys of JavaScript objects: counters and skills keep plain insertion order.
- `localeCompare` is modelled as code-point order and `toLowerCase` as ASCII folding. Locale collation and Unicode case mapping are left out. Code-point order differs from UTF-16 code-unit order between characters outside the Basic Multilingual Plane and U+E000–U+FFFF.
- Search.SearchByName: the `query.length < 2` test counts characters (code points), not UTF-16 code units. So a one-character query outside the Basic Multilingual Plane, such as a single emoji, gives no results here, while the source searches for it.
- The regular expressions of `parseStatblockText` and `parseActionsFromStatblock` are inputs (`Statblock.Captures`, the match list). A `parseInt` capture is a `nat`, and a `null` match list is an empty sequence.
- Signed zero, and `Number()` on exponents, hexadecimal and other non-decimal literals.
- Feature text is held as a `Features.Wording` value rendered by `Features.WordingText`, not as literal strings in each proof.
- An AC entry record with a falsy `ac`: its entry type requires a non-zero value.
- Saving throws, senses and languages: the loader copies them but the converter never reads them.
- `js/mappings.js`, which no core function reads.
- Search.SortByRank: states a permutation in comparator order, but not how monsters with equal names are ordered. The engine's sort decides that, and the model fixes one order of its own.
