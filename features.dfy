/** `buildFeatures`: an ordered list of keyword rules, each appending at most one
    Daggerheart feature. */
module Features {
  import opened Text
  import opened Wrappers
  import opened Monsters
  import opened Tiering

  datatype Kind = Passive | Action

  function KindText(k: Kind): string {
    match k
    case Passive => "Passive"
    case Action => "Action"
  }

  /** The fixed wording of each feature, and the two wordings built from damage types. */
  datatype Wording =
    | FromAboveWording | HordeWording | MinionWording | AirElementalWording | AlliesWording
    | PackWording | VenomWording | RegenerationWording | MagicResistanceWording | KeenSensesWording
    | ChargeWording | LairWording | AmphibiousWording | IncorporealWording | InvisibleWording
    | WebWording | FrightWording | BreathWording | FlurryWording
    | HalfDamageFrom(types: seq<string>) | NoDamageFrom(types: seq<string>)
    | LegendaryResistanceWording | LegendaryActionsWording

  /** The `text` field of a feature object. */
  function WordingText(w: Wording): string {
    match w
    case FromAboveWording => "When this adversary succeeds on a standard attack from above a target, deal one die-step higher damage instead of standard damage."
    case HordeWording => "When this adversary has marked half or more of their HP, their standard attack deals half damage (round down)."
    case MinionWording => "Defeated when they take any damage. For every 5 damage a PC deals to this adversary, defeat an additional Minion within range the attack would succeed against."
    case AirElementalWording => "Spend a Fear to begin a ritual; if 5 aarakocra within Close range each forgo actions and maintain focus for 3 consecutive spotlights, summon an Air Elemental at Far range which is friendly and obeys commands for up to 1 hour or until dismissed."
    case AlliesWording => "Spend a Fear to summon suitable allies at Far range."
    case PackWording => "Has advantage on attacks against targets within Very Close range of one of its allies."
    case VenomWording => "Make an attack. On success, deal normal damage and the target becomes Infected until they heal any HP (disadvantage on action rolls while infected)."
    case RegenerationWording => "At the start of this adversary's turn, they heal 1 HP unless they have taken damage since their last turn."
    case MagicResistanceWording => "Has advantage on Instinct rolls against spells and magical effects."
    case KeenSensesWording => "Cannot be surprised and has advantage on rolls to detect hidden creatures."
    case ChargeWording => "Move Close and make an attack. On success, deal one die-step higher damage."
    case LairWording => "Once per encounter, spend a Fear to trigger a dangerous environmental effect."
    case AmphibiousWording => "Can move and fight equally well on land or in water."
    case IncorporealWording => "Can move through solid objects and walls."
    case InvisibleWording => "Cannot be seen without magical means. Attacks against this adversary have disadvantage."
    case WebWording => "Make a ranged attack. On success, target is Restrained until they spend an action to break free."
    case FrightWording => "Spend a Fear to cause all enemies within Close range to mark Stress."
    case BreathWording => "Spend a Fear to unleash a devastating area attack affecting all enemies within Close range."
    case FlurryWording => "Make two standard attacks against different targets."
    case HalfDamageFrom(types) => "Takes half damage from: " + Join(types, ", ") + "."
    case NoDamageFrom(types) => "Takes no damage from: " + Join(types, ", ") + "."
    case LegendaryResistanceWording => "Three times per encounter, when this adversary fails a roll, they can choose to succeed instead."
    case LegendaryActionsWording => "At the end of each PC turn, this adversary can take one additional action."
  }

  /** A feature object `{ kind, name, text }`; `text` is rendered by `WordingText`. */
  datatype Feature = Feature(kind: Kind, name: string, wording: Wording)
  {
    function Text(): string { WordingText(wording) }
  }

  const FromAbove := Feature(Passive, "From Above", FromAboveWording)
  const HordeWeakened := Feature(Passive, "Horde (weakened)", HordeWording)
  const MinionFive := Feature(Passive, "Minion (5)", MinionWording)
  const SummonAirElemental := Feature(Action, "Summon Air Elemental", AirElementalWording)
  const SummonAllies := Feature(Action, "Summon Allies", AlliesWording)
  const PackHunters := Feature(Passive, "Pack Hunters", PackWording)
  const VenomousStrike := Feature(Action, "Venomous Strike", VenomWording)
  const Regeneration := Feature(Passive, "Regeneration", RegenerationWording)
  const MagicResistance := Feature(Passive, "Magic Resistance", MagicResistanceWording)
  const KeenSenses := Feature(Passive, "Keen Senses", KeenSensesWording)
  const Charge := Feature(Action, "Charge", ChargeWording)
  const LairActions := Feature(Action, "Lair Actions", LairWording)
  const Amphibious := Feature(Passive, "Amphibious", AmphibiousWording)
  const Incorporeal := Feature(Passive, "Incorporeal", IncorporealWording)
  const Invisible := Feature(Passive, "Invisible", InvisibleWording)
  const WebAttack := Feature(Action, "Web Attack", WebWording)
  const FrighteningPresence := Feature(Action, "Frightening Presence", FrightWording)
  const Flurry := Feature(Action, "Flurry", FlurryWording)
  const LegendaryResistance := Feature(Passive, "Legendary Resistance", LegendaryResistanceWording)
  const LegendaryActions := Feature(Passive, "Legendary Actions", LegendaryActionsWording)

  function ResistanceFeature(resist: seq<string>): Feature {
    Feature(Passive, "Resistance", HalfDamageFrom(resist))
  }

  function ImmunityFeature(immune: seq<string>): Feature {
    Feature(Passive, "Immunity", NoDamageFrom(immune))
  }

  /** `actions.find(a => re.test(a.name))`: the first action whose name mentions a keyword. */
  function FirstNamed(acts: seq<Ability>, keywords: seq<string>, i: nat): (r: Option<nat>)
    ensures r.Some? ==> i <= r.value < |acts| && ContainsAny(Lower(acts[r.value].name), keywords)
    ensures r.Some? ==> forall j :: i <= j < r.value ==> !ContainsAny(Lower(acts[j].name), keywords)
    ensures r.None? ==> forall j :: i <= j < |acts| ==> !ContainsAny(Lower(acts[j].name), keywords)
    decreases |acts| - i
  {
    if i >= |acts| then None
    else if ContainsAny(Lower(acts[i].name), keywords) then Some(i)
    else FirstNamed(acts, keywords, i + 1)
  }

  /** The breath feature's name, from the (case-sensitive) damage word in the action's name. */
  function BreathName(name: string): string {
    if Contains(name, "Cold") then "Frost Breath"
    else if Contains(name, "Fire") then "Fire Breath"
    else if Contains(name, "Lightning") then "Lightning Breath"
    else if Contains(name, "Acid") then "Acid Breath"
    else if Contains(name, "Poison") then "Poison Breath"
    else "Breath Weapon"
  }

  /** `actions.find(a => /multiattack/i.test(a.name))?.entries?.[0] || ''` */
  function MultiattackText(acts: seq<Ability>): string {
    match FirstNamed(acts, ["multiattack"], 0)
    case None => ""
    case Some(k) => if |acts[k].entries| > 0 then acts[k].entries[0] else ""
  }

  predicate ComplexMultiattack(text: string) {
    || ContainsAny(Lower(text), ["four", "five", "six", "seven", "eight"])
    || ContainsAny(Lower(text), ["each target", "different targets"])
  }

  /** `hasTrait(mon, re) || hasAction(mon, re)` */
  predicate TraitOrAction(mon: Monster, keywords: seq<string>) {
    HasTrait(mon, keywords) || HasAction(mon, keywords)
  }

  /** The Flurry rule: a multiattack whose first entry describes many attacks or several targets. */
  predicate FlurrySignal(mon: Monster) {
    HasAction(mon, ["multiattack"]) && ComplexMultiattack(MultiattackText(mon.actions))
  }

  function When(c: bool, f: Feature): Option<Feature> {
    if c then Some(f) else None
  }

  function SummonRule(mon: Monster): Option<Feature> {
    if TraitOrAction(mon, ["summon"]) then
      Some(if HasAction(mon, ["summon air elemental"]) then SummonAirElemental else SummonAllies)
    else None
  }

  function BreathRule(mon: Monster): Option<Feature> {
    if HasAction(mon, ["breath", "recharge"]) then
      match FirstNamed(mon.actions, ["breath", "recharge"], 0)
      case None => None
      case Some(k) => Some(Feature(Action, BreathName(mon.actions[k].name), BreathWording))
    else None
  }

  /** Rules 1-4: movement, role and summoning. */
  function RoleRules(mon: Monster, role: Role): (outs: seq<Option<Feature>>)
    ensures |outs| == 4
  {
    [ When(FliesBySpeed(mon.speed) || HasTrait(mon, ["fly", "dive"]), FromAbove),
      When(role == Horde, HordeWeakened),
      When(role == Minion, MinionFive),
      SummonRule(mon) ]
  }

  /** Rules 5-10. */
  function TraitRules(mon: Monster): (outs: seq<Option<Feature>>)
    ensures |outs| == 6
  {
    [ When(HasTrait(mon, ["pack tactics"]), PackHunters),
      When(TraitOrAction(mon, ["poison", "venom"]), VenomousStrike),
      When(HasTrait(mon, ["regeneration"]), Regeneration),
      When(HasTrait(mon, ["magic resistance"]), MagicResistance),
      When(HasTrait(mon, ["keen sight", "keen smell", "keen hearing"]), KeenSenses),
      When(HasTrait(mon, ["charge"]), Charge) ]
  }

  /** Rules 11-16. */
  function NatureRules(mon: Monster): (outs: seq<Option<Feature>>)
    ensures |outs| == 6
  {
    [ When(HasTrait(mon, ["lair actions"]), LairActions),
      When(HasTrait(mon, ["amphibious"]), Amphibious),
      When(HasTrait(mon, ["incorporeal", "ethereal"]), Incorporeal),
      When(HasTrait(mon, ["invisible"]), Invisible),
      When(TraitOrAction(mon, ["web"]), WebAttack),
      When(TraitOrAction(mon, ["frighten", "fear", "frightful"]), FrighteningPresence) ]
  }

  /** Rules 17-22. */
  function PowerRules(mon: Monster): (outs: seq<Option<Feature>>)
    ensures |outs| == 6
  {
    [ BreathRule(mon),
      When(FlurrySignal(mon), Flurry),
      When(|mon.resist| > 0, ResistanceFeature(mon.resist)),
      When(|mon.immune| > 0, ImmunityFeature(mon.immune)),
      When(HasTrait(mon, ["legendary resistance"]), LegendaryResistance),
      When(|mon.legendary| > 0, LegendaryActions) ]
  }

  /** What each of the 22 rules contributes, in rule order. */
  function RuleOutcomes(mon: Monster, role: Role): (outs: seq<Option<Feature>>)
    ensures |outs| == 22
  {
    RoleRules(mon, role) + TraitRules(mon) + NatureRules(mon) + PowerRules(mon)
  }

  /** The features present, in order. */
  function Somes(outs: seq<Option<Feature>>): (fs: seq<Feature>)
    ensures |fs| <= |outs|
    decreases |outs|
  {
    if |outs| == 0 then []
    else
      var last := outs[|outs| - 1];
      Somes(outs[..|outs| - 1]) + (if last.Some? then [last.value] else [])
  }

  function FeaturesOf(mon: Monster, role: Role): seq<Feature> {
    Somes(RuleOutcomes(mon, role))
  }

  function Present(o: Option<Feature>): seq<Feature> {
    if o.Some? then [o.value] else []
  }

  lemma SomesSnoc(outs: seq<Option<Feature>>, o: Option<Feature>)
    ensures Somes(outs + [o]) == Somes(outs) + Present(o)
  {
    assert (outs + [o])[..|outs|] == outs;
  }

  lemma SomesPrefix(outs: seq<Option<Feature>>, k: nat)
    requires k < |outs|
    ensures Somes(outs[..k + 1]) == Somes(outs[..k]) + Present(outs[k])
  {
    assert outs[..k + 1] == outs[..k] + [outs[k]];
    SomesSnoc(outs[..k], outs[k]);
  }

  lemma {:induction false} SomesAppend(a: seq<Option<Feature>>, b: seq<Option<Feature>>)
    ensures Somes(a + b) == Somes(a) + Somes(b)
    decreases |b|
  {
    if |b| == 0 {
      assert a + b == a;
    } else {
      var b' := b[..|b| - 1];
      assert a + b == (a + b') + [b[|b| - 1]];
      assert b == b' + [b[|b| - 1]];
      SomesSnoc(a + b', b[|b| - 1]);
      SomesSnoc(b', b[|b| - 1]);
      SomesAppend(a, b');
    }
  }

  lemma SomesTwo(a: Option<Feature>, b: Option<Feature>)
    ensures Somes([a, b]) == Present(a) + Present(b)
  {
    SomesSnoc([], a);
    assert [a, b] == [a] + [b];
    SomesSnoc([a], b);
  }

  lemma SomesThree(a: Option<Feature>, b: Option<Feature>, c: Option<Feature>)
    ensures Somes([a, b, c]) == Present(a) + Present(b) + Present(c)
  {
    SomesTwo(a, b);
    assert [a, b, c] == [a, b] + [c];
    SomesSnoc([a, b], c);
  }

  lemma SomesFour(a: Option<Feature>, b: Option<Feature>, c: Option<Feature>, d: Option<Feature>)
    ensures Somes([a, b, c, d]) == Present(a) + Present(b) + Present(c) + Present(d)
  {
    SomesThree(a, b, c);
    assert [a, b, c, d] == [a, b, c] + [d];
    SomesSnoc([a, b, c], d);
  }

  lemma SomesSix(a: Option<Feature>, b: Option<Feature>, c: Option<Feature>,
                 d: Option<Feature>, e: Option<Feature>, f: Option<Feature>)
    ensures Somes([a, b, c, d, e, f])
         == Present(a) + Present(b) + Present(c) + Present(d) + Present(e) + Present(f)
  {
    SomesFour(a, b, c, d);
    assert [a, b, c, d, e] == [a, b, c, d] + [e];
    SomesSnoc([a, b, c, d], e);
    assert [a, b, c, d, e, f] == [a, b, c, d, e] + [f];
    SomesSnoc([a, b, c, d, e], f);
  }

  /** `if (cond) feats.push(f)` */
  method PushWhen(feats: seq<Feature>, cond: bool, f: Feature) returns (r: seq<Feature>)
    ensures r == feats + Present(When(cond, f))
  {
    r := feats;
    if cond {
      r := r + [f];
    }
  }

  method RoleFeatures(mon: Monster, role: Role) returns (r: seq<Feature>)
    ensures r == Somes(RoleRules(mon, role))
  {
    r := PushWhen([], FliesBySpeed(mon.speed) || HasTrait(mon, ["fly", "dive"]), FromAbove);
    r := PushWhen(r, role == Horde, HordeWeakened);
    r := PushWhen(r, role == Minion, MinionFive);
    var summon := None;
    if TraitOrAction(mon, ["summon"]) {
      if HasAction(mon, ["summon air elemental"]) {
        summon := Some(SummonAirElemental);
      } else {
        summon := Some(SummonAllies);
      }
    }
    r := r + Present(summon);
    assert summon == SummonRule(mon);
    RoleRulesPushed(mon, role);
  }

  lemma RoleRulesPushed(mon: Monster, role: Role)
    ensures Somes(RoleRules(mon, role))
         == [] + Present(When(FliesBySpeed(mon.speed) || HasTrait(mon, ["fly", "dive"]), FromAbove))
            + Present(When(role == Horde, HordeWeakened))
            + Present(When(role == Minion, MinionFive))
            + Present(SummonRule(mon))
  {
    SomesFour(When(FliesBySpeed(mon.speed) || HasTrait(mon, ["fly", "dive"]), FromAbove),
              When(role == Horde, HordeWeakened),
              When(role == Minion, MinionFive),
              SummonRule(mon));
    assert [] + Present(When(FliesBySpeed(mon.speed) || HasTrait(mon, ["fly", "dive"]), FromAbove))
        == Present(When(FliesBySpeed(mon.speed) || HasTrait(mon, ["fly", "dive"]), FromAbove));
  }

  method TraitFeatures(mon: Monster) returns (r: seq<Feature>)
    ensures r == Somes(TraitRules(mon))
  {
    r := PushWhen([], HasTrait(mon, ["pack tactics"]), PackHunters);
    r := PushWhen(r, TraitOrAction(mon, ["poison", "venom"]), VenomousStrike);
    r := PushWhen(r, HasTrait(mon, ["regeneration"]), Regeneration);
    r := PushWhen(r, HasTrait(mon, ["magic resistance"]), MagicResistance);
    r := PushWhen(r, HasTrait(mon, ["keen sight", "keen smell", "keen hearing"]), KeenSenses);
    r := PushWhen(r, HasTrait(mon, ["charge"]), Charge);
    TraitRulesPushed(mon);
  }

  lemma TraitRulesPushed(mon: Monster)
    ensures Somes(TraitRules(mon))
         == [] + Present(When(HasTrait(mon, ["pack tactics"]), PackHunters))
            + Present(When(TraitOrAction(mon, ["poison", "venom"]), VenomousStrike))
            + Present(When(HasTrait(mon, ["regeneration"]), Regeneration))
            + Present(When(HasTrait(mon, ["magic resistance"]), MagicResistance))
            + Present(When(HasTrait(mon, ["keen sight", "keen smell", "keen hearing"]), KeenSenses))
            + Present(When(HasTrait(mon, ["charge"]), Charge))
  {
    SomesSix(When(HasTrait(mon, ["pack tactics"]), PackHunters),
             When(TraitOrAction(mon, ["poison", "venom"]), VenomousStrike),
             When(HasTrait(mon, ["regeneration"]), Regeneration),
             When(HasTrait(mon, ["magic resistance"]), MagicResistance),
             When(HasTrait(mon, ["keen sight", "keen smell", "keen hearing"]), KeenSenses),
             When(HasTrait(mon, ["charge"]), Charge));
    assert [] + Present(When(HasTrait(mon, ["pack tactics"]), PackHunters)) == Present(When(HasTrait(mon, ["pack tactics"]), PackHunters));
  }

  method NatureFeatures(mon: Monster) returns (r: seq<Feature>)
    ensures r == Somes(NatureRules(mon))
  {
    r := PushWhen([], HasTrait(mon, ["lair actions"]), LairActions);
    r := PushWhen(r, HasTrait(mon, ["amphibious"]), Amphibious);
    r := PushWhen(r, HasTrait(mon, ["incorporeal", "ethereal"]), Incorporeal);
    r := PushWhen(r, HasTrait(mon, ["invisible"]), Invisible);
    r := PushWhen(r, TraitOrAction(mon, ["web"]), WebAttack);
    r := PushWhen(r, TraitOrAction(mon, ["frighten", "fear", "frightful"]), FrighteningPresence);
    NatureRulesPushed(mon);
  }

  lemma NatureRulesPushed(mon: Monster)
    ensures Somes(NatureRules(mon))
         == [] + Present(When(HasTrait(mon, ["lair actions"]), LairActions))
            + Present(When(HasTrait(mon, ["amphibious"]), Amphibious))
            + Present(When(HasTrait(mon, ["incorporeal", "ethereal"]), Incorporeal))
            + Present(When(HasTrait(mon, ["invisible"]), Invisible))
            + Present(When(TraitOrAction(mon, ["web"]), WebAttack))
            + Present(When(TraitOrAction(mon, ["frighten", "fear", "frightful"]), FrighteningPresence))
  {
    SomesSix(When(HasTrait(mon, ["lair actions"]), LairActions),
             When(HasTrait(mon, ["amphibious"]), Amphibious),
             When(HasTrait(mon, ["incorporeal", "ethereal"]), Incorporeal),
             When(HasTrait(mon, ["invisible"]), Invisible),
             When(TraitOrAction(mon, ["web"]), WebAttack),
             When(TraitOrAction(mon, ["frighten", "fear", "frightful"]), FrighteningPresence));
    assert [] + Present(When(HasTrait(mon, ["lair actions"]), LairActions)) == Present(When(HasTrait(mon, ["lair actions"]), LairActions));
  }

  method PowerFeatures(mon: Monster) returns (r: seq<Feature>)
    ensures r == Somes(PowerRules(mon))
  {
    var breath := None;
    if HasAction(mon, ["breath", "recharge"]) {
      var breathAction := FirstNamed(mon.actions, ["breath", "recharge"], 0);
      if breathAction.Some? {
        breath := Some(Feature(Action, BreathName(mon.actions[breathAction.value].name), BreathWording));
      }
    }
    r := Present(breath);
    var flurry := false;
    if HasAction(mon, ["multiattack"]) {
      var multiattackText := MultiattackText(mon.actions);
      flurry := ComplexMultiattack(multiattackText);
    }
    r := PushWhen(r, flurry, Flurry);
    r := PushWhen(r, |mon.resist| > 0, ResistanceFeature(mon.resist));
    r := PushWhen(r, |mon.immune| > 0, ImmunityFeature(mon.immune));
    r := PushWhen(r, HasTrait(mon, ["legendary resistance"]), LegendaryResistance);
    r := PushWhen(r, |mon.legendary| > 0, LegendaryActions);
    assert breath == BreathRule(mon);
    assert flurry == FlurrySignal(mon);
    PowerRulesPushed(mon);
  }

  lemma PowerRulesPushed(mon: Monster)
    ensures Somes(PowerRules(mon))
         == Present(BreathRule(mon))
            + Present(When(FlurrySignal(mon), Flurry))
            + Present(When(|mon.resist| > 0, ResistanceFeature(mon.resist)))
            + Present(When(|mon.immune| > 0, ImmunityFeature(mon.immune)))
            + Present(When(HasTrait(mon, ["legendary resistance"]), LegendaryResistance))
            + Present(When(|mon.legendary| > 0, LegendaryActions))
  {
    SomesSix(BreathRule(mon),
             When(FlurrySignal(mon), Flurry),
             When(|mon.resist| > 0, ResistanceFeature(mon.resist)),
             When(|mon.immune| > 0, ImmunityFeature(mon.immune)),
             When(HasTrait(mon, ["legendary resistance"]), LegendaryResistance),
             When(|mon.legendary| > 0, LegendaryActions));
  }

  /** `buildFeatures`: each rule in turn pushes its feature when it applies. */
  method BuildFeatures(mon: Monster, role: Role) returns (feats: seq<Feature>)
    ensures feats == FeaturesOf(mon, role)
  {
    var movement := RoleFeatures(mon, role);
    var traits := TraitFeatures(mon);
    var nature := NatureFeatures(mon);
    var powers := PowerFeatures(mon);
    feats := movement + traits + nature + powers;
    var a, b, c, d := RoleRules(mon, role), TraitRules(mon), NatureRules(mon), PowerRules(mon);
    SomesAppend(a, b);
    SomesAppend(a + b, c);
    SomesAppend(a + b + c, d);
  }

  // ---------- properties ----------

  /** For each feature, the rule that pushed it: sources are strictly increasing, so the
      features come out in rule order and no rule contributes twice. */
  function SomesSources(outs: seq<Option<Feature>>): (idx: seq<nat>)
    ensures |idx| == |Somes(outs)|
    ensures forall j :: 0 <= j < |idx| ==> idx[j] < |outs| && outs[idx[j]] == Some(Somes(outs)[j])
    ensures forall i, j :: 0 <= i < j < |idx| ==> idx[i] < idx[j]
    decreases |outs|
  {
    if |outs| == 0 then []
    else
      var init := outs[..|outs| - 1];
      var last := outs[|outs| - 1];
      var prev := SomesSources(init);
      assert forall j :: 0 <= j < |prev| ==> outs[prev[j]] == init[prev[j]];
      if last.Some? then prev + [|outs| - 1] else prev
  }

  lemma {:induction false} SomesMember(outs: seq<Option<Feature>>, f: Feature)
    ensures f in Somes(outs) <==> exists k :: 0 <= k < |outs| && outs[k] == Some(f)
    decreases |outs|
  {
    if |outs| > 0 {
      var init := outs[..|outs| - 1];
      SomesMember(init, f);
      if exists k :: 0 <= k < |init| && init[k] == Some(f) {
        var k :| 0 <= k < |init| && init[k] == Some(f);
        assert outs[k] == Some(f);
      }
    }
  }

  /** A feature is produced exactly when one of the rules produces it. */
  lemma FeatureFromRule(mon: Monster, role: Role, f: Feature)
    ensures f in FeaturesOf(mon, role)
        <==> exists k :: 0 <= k < 22 && RuleOutcomes(mon, role)[k] == Some(f)
  {
    SomesMember(RuleOutcomes(mon, role), f);
  }

  /** The features are listed in rule order, at most one per rule. */
  lemma FeaturesInRuleOrder(mon: Monster, role: Role)
    ensures |FeaturesOf(mon, role)| <= 22
    ensures var idx := SomesSources(RuleOutcomes(mon, role));
            && |idx| == |FeaturesOf(mon, role)|
            && (forall j :: 0 <= j < |idx| ==> idx[j] < 22 && RuleOutcomes(mon, role)[idx[j]] == Some(FeaturesOf(mon, role)[j]))
            && (forall i, j :: 0 <= i < j < |idx| ==> idx[i] < idx[j])
  {
  }

  /** The four rule groups, pushed one after the other. */
  lemma FeaturesSplit(mon: Monster, role: Role)
    ensures FeaturesOf(mon, role)
         == Somes(RoleRules(mon, role)) + Somes(TraitRules(mon)) + Somes(NatureRules(mon)) + Somes(PowerRules(mon))
  {
    var a, b, c, d := RoleRules(mon, role), TraitRules(mon), NatureRules(mon), PowerRules(mon);
    SomesAppend(a, b);
    SomesAppend(a + b, c);
    SomesAppend(a + b + c, d);
  }

  lemma InPresents4(a: Option<Feature>, b: Option<Feature>, c: Option<Feature>, d: Option<Feature>, x: Feature)
    ensures x in [] + Present(a) + Present(b) + Present(c) + Present(d)
        <==> a == Some(x) || b == Some(x) || c == Some(x) || d == Some(x)
  {
  }

  lemma InPresents6(a: Option<Feature>, b: Option<Feature>, c: Option<Feature>,
                    d: Option<Feature>, e: Option<Feature>, f: Option<Feature>, x: Feature)
    ensures x in Present(a) + Present(b) + Present(c) + Present(d) + Present(e) + Present(f)
        <==> a == Some(x) || b == Some(x) || c == Some(x) || d == Some(x) || e == Some(x) || f == Some(x)
    ensures x in [] + Present(a) + Present(b) + Present(c) + Present(d) + Present(e) + Present(f)
        <==> a == Some(x) || b == Some(x) || c == Some(x) || d == Some(x) || e == Some(x) || f == Some(x)
  {
  }

  lemma WhenSome(c: bool, f: Feature, x: Feature)
    ensures When(c, f) == Some(x) <==> c && f == x
  {
  }

  lemma RoleMembership(mon: Monster, role: Role, x: Feature)
    ensures x in Somes(RoleRules(mon, role))
        <==> (|| ((FliesBySpeed(mon.speed) || HasTrait(mon, ["fly", "dive"])) && FromAbove == x)
            || (role == Horde && HordeWeakened == x)
            || (role == Minion && MinionFive == x)
            || SummonRule(mon) == Some(x))
  {
    RoleRulesPushed(mon, role);
    InPresents4(When(FliesBySpeed(mon.speed) || HasTrait(mon, ["fly", "dive"]), FromAbove),
                When(role == Horde, HordeWeakened),
                When(role == Minion, MinionFive),
                SummonRule(mon),
                x);
    WhenSome(FliesBySpeed(mon.speed) || HasTrait(mon, ["fly", "dive"]), FromAbove, x);
    WhenSome(role == Horde, HordeWeakened, x);
    WhenSome(role == Minion, MinionFive, x);
  }

  lemma TraitMembership(mon: Monster, x: Feature)
    ensures x in Somes(TraitRules(mon))
        <==> (|| (HasTrait(mon, ["pack tactics"]) && PackHunters == x)
            || (TraitOrAction(mon, ["poison", "venom"]) && VenomousStrike == x)
            || (HasTrait(mon, ["regeneration"]) && Regeneration == x)
            || (HasTrait(mon, ["magic resistance"]) && MagicResistance == x)
            || (HasTrait(mon, ["keen sight", "keen smell", "keen hearing"]) && KeenSenses == x)
            || (HasTrait(mon, ["charge"]) && Charge == x))
  {
    TraitRulesPushed(mon);
    InPresents6(When(HasTrait(mon, ["pack tactics"]), PackHunters),
                When(TraitOrAction(mon, ["poison", "venom"]), VenomousStrike),
                When(HasTrait(mon, ["regeneration"]), Regeneration),
                When(HasTrait(mon, ["magic resistance"]), MagicResistance),
                When(HasTrait(mon, ["keen sight", "keen smell", "keen hearing"]), KeenSenses),
                When(HasTrait(mon, ["charge"]), Charge),
                x);
    WhenSome(HasTrait(mon, ["pack tactics"]), PackHunters, x);
    WhenSome(TraitOrAction(mon, ["poison", "venom"]), VenomousStrike, x);
    WhenSome(HasTrait(mon, ["regeneration"]), Regeneration, x);
    WhenSome(HasTrait(mon, ["magic resistance"]), MagicResistance, x);
    WhenSome(HasTrait(mon, ["keen sight", "keen smell", "keen hearing"]), KeenSenses, x);
    WhenSome(HasTrait(mon, ["charge"]), Charge, x);
  }

  lemma NatureMembership(mon: Monster, x: Feature)
    ensures x in Somes(NatureRules(mon))
        <==> (|| (HasTrait(mon, ["lair actions"]) && LairActions == x)
            || (HasTrait(mon, ["amphibious"]) && Amphibious == x)
            || (HasTrait(mon, ["incorporeal", "ethereal"]) && Incorporeal == x)
            || (HasTrait(mon, ["invisible"]) && Invisible == x)
            || (TraitOrAction(mon, ["web"]) && WebAttack == x)
            || (TraitOrAction(mon, ["frighten", "fear", "frightful"]) && FrighteningPresence == x))
  {
    NatureRulesPushed(mon);
    InPresents6(When(HasTrait(mon, ["lair actions"]), LairActions),
                When(HasTrait(mon, ["amphibious"]), Amphibious),
                When(HasTrait(mon, ["incorporeal", "ethereal"]), Incorporeal),
                When(HasTrait(mon, ["invisible"]), Invisible),
                When(TraitOrAction(mon, ["web"]), WebAttack),
                When(TraitOrAction(mon, ["frighten", "fear", "frightful"]), FrighteningPresence),
                x);
    WhenSome(HasTrait(mon, ["lair actions"]), LairActions, x);
    WhenSome(HasTrait(mon, ["amphibious"]), Amphibious, x);
    WhenSome(HasTrait(mon, ["incorporeal", "ethereal"]), Incorporeal, x);
    WhenSome(HasTrait(mon, ["invisible"]), Invisible, x);
    WhenSome(TraitOrAction(mon, ["web"]), WebAttack, x);
    WhenSome(TraitOrAction(mon, ["frighten", "fear", "frightful"]), FrighteningPresence, x);
  }

  lemma PowerMembership(mon: Monster, x: Feature)
    ensures x in Somes(PowerRules(mon))
        <==> (|| BreathRule(mon) == Some(x)
            || (FlurrySignal(mon) && Flurry == x)
            || (|mon.resist| > 0 && ResistanceFeature(mon.resist) == x)
            || (|mon.immune| > 0 && ImmunityFeature(mon.immune) == x)
            || (HasTrait(mon, ["legendary resistance"]) && LegendaryResistance == x)
            || (|mon.legendary| > 0 && LegendaryActions == x))
  {
    PowerRulesPushed(mon);
    InPresents6(BreathRule(mon),
                When(FlurrySignal(mon), Flurry),
                When(|mon.resist| > 0, ResistanceFeature(mon.resist)),
                When(|mon.immune| > 0, ImmunityFeature(mon.immune)),
                When(HasTrait(mon, ["legendary resistance"]), LegendaryResistance),
                When(|mon.legendary| > 0, LegendaryActions),
                x);
    WhenSome(FlurrySignal(mon), Flurry, x);
    WhenSome(|mon.resist| > 0, ResistanceFeature(mon.resist), x);
    WhenSome(|mon.immune| > 0, ImmunityFeature(mon.immune), x);
    WhenSome(HasTrait(mon, ["legendary resistance"]), LegendaryResistance, x);
    WhenSome(|mon.legendary| > 0, LegendaryActions, x);
  }

  /** `x` is among the features exactly when the rule that pushes `x` fires. */
  lemma FeatureMembership(mon: Monster, role: Role, x: Feature)
    ensures x in FeaturesOf(mon, role)
        <==> (|| ((FliesBySpeed(mon.speed) || HasTrait(mon, ["fly", "dive"])) && FromAbove == x)
            || (role == Horde && HordeWeakened == x)
            || (role == Minion && MinionFive == x)
            || SummonRule(mon) == Some(x)
            || (HasTrait(mon, ["pack tactics"]) && PackHunters == x)
            || (TraitOrAction(mon, ["poison", "venom"]) && VenomousStrike == x)
            || (HasTrait(mon, ["regeneration"]) && Regeneration == x)
            || (HasTrait(mon, ["magic resistance"]) && MagicResistance == x)
            || (HasTrait(mon, ["keen sight", "keen smell", "keen hearing"]) && KeenSenses == x)
            || (HasTrait(mon, ["charge"]) && Charge == x)
            || (HasTrait(mon, ["lair actions"]) && LairActions == x)
            || (HasTrait(mon, ["amphibious"]) && Amphibious == x)
            || (HasTrait(mon, ["incorporeal", "ethereal"]) && Incorporeal == x)
            || (HasTrait(mon, ["invisible"]) && Invisible == x)
            || (TraitOrAction(mon, ["web"]) && WebAttack == x)
            || (TraitOrAction(mon, ["frighten", "fear", "frightful"]) && FrighteningPresence == x)
            || BreathRule(mon) == Some(x)
            || (FlurrySignal(mon) && Flurry == x)
            || (|mon.resist| > 0 && ResistanceFeature(mon.resist) == x)
            || (|mon.immune| > 0 && ImmunityFeature(mon.immune) == x)
            || (HasTrait(mon, ["legendary resistance"]) && LegendaryResistance == x)
            || (|mon.legendary| > 0 && LegendaryActions == x))
  {
    FeaturesSplit(mon, role);
    RoleMembership(mon, role, x);
    TraitMembership(mon, x);
    NatureMembership(mon, x);
    PowerMembership(mon, x);
  }

  lemma MinionIff(mon: Monster, role: Role)
    ensures MinionFive in FeaturesOf(mon, role) <==> role == Minion
  {
    FeatureMembership(mon, role, MinionFive);
  }

  lemma HordeIff(mon: Monster, role: Role)
    ensures HordeWeakened in FeaturesOf(mon, role) <==> role == Horde
  {
    FeatureMembership(mon, role, HordeWeakened);
  }

  lemma PackHuntersIff(mon: Monster, role: Role)
    ensures PackHunters in FeaturesOf(mon, role) <==> HasTrait(mon, ["pack tactics"])
  {
    FeatureMembership(mon, role, PackHunters);
  }

  /** A summoner gets exactly one of the two summoning features. */
  lemma SummonExclusive(mon: Monster, role: Role)
    ensures !(SummonAirElemental in FeaturesOf(mon, role) && SummonAllies in FeaturesOf(mon, role))
    ensures SummonAirElemental in FeaturesOf(mon, role) || SummonAllies in FeaturesOf(mon, role)
        <==> TraitOrAction(mon, ["summon"])
  {
    FeatureMembership(mon, role, SummonAirElemental);
    FeatureMembership(mon, role, SummonAllies);
  }

  lemma ResistanceIff(mon: Monster, role: Role)
    ensures ResistanceFeature(mon.resist) in FeaturesOf(mon, role) <==> |mon.resist| > 0
  {
    FeatureMembership(mon, role, ResistanceFeature(mon.resist));
  }

  lemma ImmunityIff(mon: Monster, role: Role)
    ensures ImmunityFeature(mon.immune) in FeaturesOf(mon, role) <==> |mon.immune| > 0
  {
    FeatureMembership(mon, role, ImmunityFeature(mon.immune));
  }

  /** A breath feature appears exactly when some action's name mentions breath or recharge. */
  lemma BreathNeedsNamedAction(mon: Monster)
    ensures BreathRule(mon).Some?
        <==> exists i :: 0 <= i < |mon.actions| && ContainsAny(Lower(mon.actions[i].name), ["breath", "recharge"])
  {
    if exists i :: 0 <= i < |mon.actions| && ContainsAny(Lower(mon.actions[i].name), ["breath", "recharge"]) {
      var i :| 0 <= i < |mon.actions| && ContainsAny(Lower(mon.actions[i].name), ["breath", "recharge"]);
      assert Mentions(mon.actions[i], ["breath", "recharge"]);
    }
  }

  /** Without action entries (the loader keeps only `desc`), Flurry never fires. */
  lemma NoFlurryWithoutEntries(mon: Monster, role: Role)
    requires forall i :: 0 <= i < |mon.actions| ==> mon.actions[i].entries == []
    ensures Flurry !in FeaturesOf(mon, role)
  {
    assert MultiattackText(mon.actions) == "";
    assert !ComplexMultiattack("");
    FeatureMembership(mon, role, Flurry);
  }

  /** Without damage resistances there is no Resistance feature of any wording. */
  lemma NoResistanceWithoutList(mon: Monster, role: Role, types: seq<string>)
    requires |mon.resist| == 0
    ensures ResistanceFeature(types) !in FeaturesOf(mon, role)
  {
    FeatureMembership(mon, role, ResistanceFeature(types));
  }

  /** Without damage immunities there is no Immunity feature of any wording. */
  lemma NoImmunityWithoutList(mon: Monster, role: Role, types: seq<string>)
    requires |mon.immune| == 0
    ensures ImmunityFeature(types) !in FeaturesOf(mon, role)
  {
    FeatureMembership(mon, role, ImmunityFeature(types));
  }
}
