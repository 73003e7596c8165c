/** The attack bonus and the standard attack: to-hit extraction, dice averages,
    range inference and snapping to the nearest damage die. The regular expressions of the
    source are written out as position-by-position scanners over the lower-cased text;
    each pattern involved matches deterministically, so greedy scanning agrees with the
    backtracking engine. */
module Attacks {
  import opened Text
  import opened Wrappers
  import opened Monsters

  // ---------- scanning helpers ----------

  /** The end of the run of blanks starting at `i`. */
  function SkipSpaces(s: string, i: nat): (j: nat)
    requires i <= |s|
    ensures i <= j <= |s|
    ensures forall k :: i <= k < j ==> IsSpace(s[k])
    ensures j == |s| || !IsSpace(s[j])
    decreases |s| - i
  {
    if i < |s| && IsSpace(s[i]) then SkipSpaces(s, i + 1) else i
  }

  /** The end of the run of digits starting at `i`. */
  function DigitRunEnd(s: string, i: nat): (e: nat)
    requires i <= |s|
    ensures i <= e <= |s|
    ensures forall k :: i <= k < e ==> IsDigit(s[k])
    ensures AllDigits(s[i..e])
    ensures e == |s| || !IsDigit(s[e])
    decreases |s| - i
  {
    if i < |s| && IsDigit(s[i]) then DigitRunEnd(s, i + 1) else i
  }

  /** `[+-]?\d+` anchored at `i`, read as a number. */
  function SignedIntAt(s: string, i: nat): Option<int>
    requires i <= |s|
  {
    if i + 1 < |s| && (s[i] == '+' || s[i] == '-') && IsDigit(s[i + 1]) then
      var v: int := DigitsValue(s[i + 1..DigitRunEnd(s, i + 1)]);
      Some(if s[i] == '-' then -v else v)
    else if i < |s| && IsDigit(s[i]) then
      Some(DigitsValue(s[i..DigitRunEnd(s, i)]))
    else None
  }

  // ---------- to hit ----------

  /** `/to hit[,)]?\s*([+-]?\d+)/` anchored at `i` of lower-cased text. */
  function ToHitAt(low: string, i: nat): Option<int>
    requires i <= |low|
  {
    if !OccursAt(low, "to hit", i) then None
    else
      var j := i + 6;
      var j1 := if j < |low| && (low[j] == ',' || low[j] == ')') then j + 1 else j;
      SignedIntAt(low, SkipSpaces(low, j1))
  }

  /** The leftmost to-hit match at or after `i`. */
  function FirstToHitFrom(low: string, i: nat): Option<int>
    requires i <= |low|
    decreases |low| - i
  {
    match ToHitAt(low, i)
    case Some(v) => Some(v)
    case None => if i == |low| then None else FirstToHitFrom(low, i + 1)
  }

  /** The to-hit bonus an action's text states, if any (case-insensitive). */
  function ToHitOf(a: Ability): Option<int> {
    FirstToHitFrom(Lower(ActionText(a)), 0)
  }

  /** The bonuses stated by each action, in order. */
  function StatedToHits(acts: seq<Ability>): (hits: seq<Option<int>>)
    ensures |hits| == |acts|
    ensures forall i :: 0 <= i < |acts| ==> hits[i] == ToHitOf(acts[i])
  {
    seq(|acts|, i requires 0 <= i < |acts| => ToHitOf(acts[i]))
  }

  /** The largest of the stated values, starting from 0. */
  function MaxStated(hits: seq<Option<int>>): (best: int)
    ensures best >= 0
    decreases |hits|
  {
    if |hits| == 0 then 0
    else
      var b := MaxStated(hits[..|hits| - 1]);
      match hits[|hits| - 1]
      case Some(v) => if v > b then v else b
      case None => b
  }

  /** The maximum bounds every stated value and is one of them unless it is 0. */
  lemma {:induction false} MaxStatedIsMax(hits: seq<Option<int>>)
    ensures forall i :: 0 <= i < |hits| && hits[i].Some? ==> hits[i].value <= MaxStated(hits)
    ensures MaxStated(hits) == 0 || exists i :: 0 <= i < |hits| && hits[i] == Some(MaxStated(hits))
    decreases |hits|
  {
    if |hits| > 0 {
      var n := |hits| - 1;
      MaxStatedIsMax(hits[..n]);
      assert forall i :: 0 <= i < n ==> hits[..n][i] == hits[i];
    }
  }

  lemma MaxStatedStep(hits: seq<Option<int>>, k: nat)
    requires k < |hits|
    ensures MaxStated(hits[..k + 1])
      == if hits[k].Some? && hits[k].value > MaxStated(hits[..k]) then hits[k].value else MaxStated(hits[..k])
  {
    assert hits[..k + 1][..k] == hits[..k];
  }

  /** The largest to-hit bonus the actions state, or 0. */
  function MaxToHit(acts: seq<Ability>): int {
    MaxStated(StatedToHits(acts))
  }

  /** `bestToHit` is at least 0, bounds every stated bonus, and is one of them unless it is 0. */
  lemma MaxToHitIsMaximum(acts: seq<Ability>)
    ensures MaxToHit(acts) >= 0
    ensures forall i :: 0 <= i < |acts| && ToHitOf(acts[i]).Some? ==> ToHitOf(acts[i]).value <= MaxToHit(acts)
    ensures MaxToHit(acts) == 0 || exists i :: 0 <= i < |acts| && ToHitOf(acts[i]) == Some(MaxToHit(acts))
    ensures |acts| == 0 ==> MaxToHit(acts) == 0
  {
    var hits := StatedToHits(acts);
    MaxStatedIsMax(hits);
    if MaxToHit(acts) != 0 {
      var i :| 0 <= i < |hits| && hits[i] == Some(MaxToHit(acts));
      assert ToHitOf(acts[i]) == Some(MaxToHit(acts));
    }
  }

  /** `bestToHit` */
  method BestToHit(actions: seq<Ability>) returns (best: int)
    ensures best == MaxToHit(actions)
  {
    ghost var hits := StatedToHits(actions);
    best := 0;
    for k := 0 to |actions|
      invariant best == MaxStated(hits[..k])
    {
      MaxStatedStep(hits, k);
      var t := FirstToHitFrom(Lower(ActionText(actions[k])), 0);
      assert t == hits[k];
      if t.Some? {
        best := if t.value > best then t.value else best;
      }
    }
    assert hits[..|actions|] == hits;
  }

  /** `toHitToAtk`: the Daggerheart attack modifier for a 5e to-hit bonus. */
  function ToHitToAtk(x: int): (atk: int)
    ensures 1 <= atk <= 4
  {
    if x >= 9 then 4 else if x >= 7 then 3 else if x >= 5 then 2 else 1
  }

  lemma AtkMonotone(x: int, y: int)
    requires x <= y
    ensures ToHitToAtk(x) <= ToHitToAtk(y)
  {
  }

  // ---------- damage averages ----------

  /** The average roll of NdM dice. */
  function DiceAverage(n: nat, m: nat): (avg: real)
    ensures avg >= 0.0
  {
    (n * (m + 1)) as real / 2.0
  }

  lemma DiceAveragePositive(n: nat, m: nat)
    requires n > 0
    ensures DiceAverage(n, m) > 0.0
  {
    assert n * (m + 1) >= n * 1;
  }

  /** `\((\d+)d(\d+)(?:\s*\+\s*(\d+))?\)` anchored at `i`: its average and where it ends. */
  function DiceAt(low: string, i: nat): (m: Option<(real, nat)>)
    requires i <= |low|
    ensures m.Some? ==> i < m.value.1 <= |low| && m.value.0 >= 0.0
  {
    if !(i < |low| && low[i] == '(') then None
    else
      var e1 := DigitRunEnd(low, i + 1);
      if e1 == i + 1 || e1 == |low| || low[e1] != 'd' then None
      else
        var e2 := DigitRunEnd(low, e1 + 1);
        if e2 == e1 + 1 || e2 == |low| then None
        else
          var base := DiceAverage(DigitsValue(low[i + 1..e1]), DigitsValue(low[e1 + 1..e2]));
          if low[e2] == ')' then Some((base, e2 + 1))
          else
            var p := SkipSpaces(low, e2);
            if p == |low| || low[p] != '+' then None
            else
              var q := SkipSpaces(low, p + 1);
              var e3 := DigitRunEnd(low, q);
              if e3 == q || e3 == |low| || low[e3] != ')' then None
              else Some((base + DigitsValue(low[q..e3]) as real, e3 + 1))
  }

  /** What `re.exec` finds from `lastIndex == i`: the leftmost dice chunk at or after `i`. */
  function NextDice(low: string, i: nat): (m: Option<(real, nat)>)
    requires i <= |low|
    ensures m.Some? ==> i < m.value.1 <= |low| && m.value.0 >= 0.0
    decreases |low| - i
  {
    if i == |low| then None
    else match DiceAt(low, i)
      case Some(x) => Some(x)
      case None => NextDice(low, i + 1)
  }

  /** The summed averages and the number of dice chunks from `i` on. */
  function DiceFrom(low: string, i: nat): (r: (real, nat))
    requires i <= |low|
    ensures r.0 >= 0.0
    ensures r.1 == 0 <==> NextDice(low, i).None?
    decreases |low| - i
  {
    match NextDice(low, i)
    case None => (0.0, 0)
    case Some((v, e)) =>
      var rest := DiceFrom(low, e);
      (v + rest.0, rest.1 + 1)
  }

  /** `(\d+)\s*damage` anchored at `i`. */
  function DamageNumberAt(low: string, i: nat): Option<nat>
    requires i <= |low|
  {
    if i < |low| && IsDigit(low[i]) then
      var e := DigitRunEnd(low, i);
      if OccursAt(low, "damage", SkipSpaces(low, e)) then Some(DigitsValue(low[i..e])) else None
    else None
  }

  function FirstDamageNumber(low: string, i: nat): Option<nat>
    requires i <= |low|
    decreases |low| - i
  {
    match DamageNumberAt(low, i)
    case Some(v) => Some(v)
    case None => if i == |low| then None else FirstDamageNumber(low, i + 1)
  }

  /** `averageDamage`: the summed dice averages; with no dice, a stated "N damage";
      4.5 when the sum is 0 or nothing is found. */
  function AverageDamageOf(txt: string): (avg: real)
    ensures avg >= 0.0
  {
    var low := Lower(txt);
    var chunks := DiceFrom(low, 0);
    if chunks.1 == 0 && FirstDamageNumber(low, 0).Some? then FirstDamageNumber(low, 0).value as real
    else if chunks.0 != 0.0 then chunks.0
    else 4.5
  }

  /** `averageDamage`: the `re.exec` loop over the dice chunks, then the fallbacks. */
  method AverageDamage(txt: string) returns (avg: real)
    ensures avg == AverageDamageOf(txt)
  {
    var low := Lower(txt);
    var total, count := 0.0, 0;
    var pos := 0;
    var m := NextDice(low, pos);
    while m.Some?
      invariant pos <= |low|
      invariant m == NextDice(low, pos)
      invariant total + DiceFrom(low, pos).0 == DiceFrom(low, 0).0
      invariant count + DiceFrom(low, pos).1 == DiceFrom(low, 0).1
      decreases |low| - pos
    {
      total := total + m.value.0;
      count := count + 1;
      pos := m.value.1;
      m := NextDice(low, pos);
    }
    if count == 0 {
      var f := FirstDamageNumber(low, 0);
      if f.Some? {
        return f.value as real;
      }
    }
    avg := if total != 0.0 then total else 4.5;
  }

  /** A text that is exactly one chunk "(NdM)" with N > 0 averages N(M+1)/2. */
  lemma SingleChunkAverage(txt: string, e1: nat, n: nat, m: nat)
    requires 1 < e1 < |txt| - 2 && txt[0] == '(' && txt[e1] == 'd' && txt[|txt| - 1] == ')'
    requires AllDigits(txt[1..e1]) && AllDigits(txt[e1 + 1..|txt| - 1])
    requires n == DigitsValue(txt[1..e1]) && m == DigitsValue(txt[e1 + 1..|txt| - 1]) && n > 0
    ensures AverageDamageOf(txt) == DiceAverage(n, m)
  {
    ChunkFacts(txt, e1, n, m);
    WholeChunk(txt, DiceAverage(n, m));
  }

  lemma ChunkFacts(txt: string, e1: nat, n: nat, m: nat)
    requires 1 < e1 < |txt| - 2 && txt[0] == '(' && txt[e1] == 'd' && txt[|txt| - 1] == ')'
    requires AllDigits(txt[1..e1]) && AllDigits(txt[e1 + 1..|txt| - 1])
    requires n == DigitsValue(txt[1..e1]) && m == DigitsValue(txt[e1 + 1..|txt| - 1]) && n > 0
    ensures Lower(txt) == txt && DiceAt(txt, 0) == Some((DiceAverage(n, m), |txt|)) && DiceAverage(n, m) != 0.0
  {
    LowerChunk(txt, e1);
    PlainDiceAt(txt, 0, e1, |txt| - 1, n, m);
    DiceAveragePositive(n, m);
  }

  /** "(" digits "d" digits ")" at `i` is a chunk ending after the parenthesis. */
  lemma PlainDiceAt(s: string, i: nat, e1: nat, e2: nat, n: nat, m: nat)
    requires i + 1 < e1 && e1 + 1 < e2 < |s|
    requires s[i] == '(' && s[e1] == 'd' && s[e2] == ')'
    requires AllDigits(s[i + 1..e1]) && AllDigits(s[e1 + 1..e2])
    requires n == DigitsValue(s[i + 1..e1]) && m == DigitsValue(s[e1 + 1..e2])
    ensures DiceAt(s, i) == Some((DiceAverage(n, m), e2 + 1))
  {
    DigitsUpTo(s, i + 1, e1);
    DigitsUpTo(s, e1 + 1, e2);
  }

  /** A digit slice followed by a non-digit is where the digit run from its start ends. */
  lemma DigitsUpTo(s: string, a: nat, b: nat)
    requires a <= b < |s| && AllDigits(s[a..b]) && !IsDigit(s[b])
    ensures DigitRunEnd(s, a) == b
  {
    forall k | a <= k < b ensures IsDigit(s[k]) { assert s[k] == s[a..b][k - a]; }
    DigitRunEndAt(s, a, b);
  }

  lemma LowerChunk(txt: string, e1: nat)
    requires 1 < e1 < |txt| - 2 && txt[0] == '(' && txt[e1] == 'd' && txt[|txt| - 1] == ')'
    requires AllDigits(txt[1..e1]) && AllDigits(txt[e1 + 1..|txt| - 1])
    ensures Lower(txt) == txt
  {
    var e2 := |txt| - 1;
    forall k | 0 <= k < |txt|
      ensures LowerChar(txt[k]) == txt[k]
    {
      if 1 <= k < e1 { assert txt[k] == txt[1..e1][k - 1]; }
      else if e1 < k < e2 { assert txt[k] == txt[e1 + 1..e2][k - e1 - 1]; }
    }
  }

  /** Text that is one chunk, already in lower case, averages the chunk's average. */
  lemma WholeChunk(txt: string, avg: real)
    requires Lower(txt) == txt && DiceAt(txt, 0) == Some((avg, |txt|)) && avg != 0.0
    ensures AverageDamageOf(txt) == avg
  {
    assert NextDice(txt, 0) == Some((avg, |txt|));
    assert DiceFrom(txt, |txt|) == (0.0, 0);
    assert DiceFrom(txt, 0) == (avg, 1);
  }


  /** A run of digits from `i` that stops at the non-digit at `e` ends at `e`. */
  lemma DigitRunEndAt(s: string, i: nat, e: nat)
    requires i <= e < |s| && !IsDigit(s[e])
    requires forall k :: i <= k < e ==> IsDigit(s[k])
    ensures DigitRunEnd(s, i) == e
    decreases e - i
  {
    if i < e {
      DigitRunEndAt(s, i + 1, e);
    }
  }

  // ---------- range ----------

  datatype Range = VeryClose | Close

  function RangeText(r: Range): string {
    match r
    case VeryClose => "Very Close"
    case Close => "Close"
  }

  /** `range\s*\d+\/\d+` anchored at `i`. */
  predicate RangePairAt(low: string, i: nat)
    requires i <= |low|
  {
    && OccursAt(low, "range", i)
    && var p := SkipSpaces(low, i + 5);
       var e := DigitRunEnd(low, p);
       e > p && e < |low| && low[e] == '/' && DigitRunEnd(low, e + 1) > e + 1
  }

  /** `reach\s*5` anchored at `i`. */
  predicate ReachFiveAt(low: string, i: nat)
    requires i <= |low|
  {
    && OccursAt(low, "reach", i)
    && var p := SkipSpaces(low, i + 5);
       p < |low| && low[p] == '5'
  }

  predicate HasRangePair(low: string) {
    exists i :: 0 <= i <= |low| && RangePairAt(low, i)
  }

  predicate HasReachFive(low: string) {
    exists i :: 0 <= i <= |low| && ReachFiveAt(low, i)
  }

  const RangedWords: seq<string> := ["bow", "javelin", "spit", "bolt", "ray", "blast"]
  const MeleeWords: seq<string> := ["melee", "talon", "bite", "claw"]

  /** `inferRange`: ranged evidence wins; melee evidence gives Very Close; otherwise Close. */
  function InferRange(txt: string): (r: Range)
    ensures r == VeryClose <==>
      && !(HasRangePair(Lower(txt)) || ContainsAny(Lower(txt), RangedWords))
      && (HasReachFive(Lower(txt)) || ContainsAny(Lower(txt), MeleeWords))
  {
    var low := Lower(txt);
    if HasRangePair(low) || ContainsAny(low, RangedWords) then Close
    else if HasReachFive(low) || ContainsAny(low, MeleeWords) then VeryClose
    else Close
  }

  /** `normalizeAttackName`: a name that is only "multiattack" (any case, blanks around) becomes "Strike". */
  function NormalizeAttackName(n: string): (r: string)
    ensures r == "Strike" || r == n
    ensures r != n <==> Lower(Trim(n)) == "multiattack"
  {
    if Lower(Trim(n)) == "multiattack" then "Strike" else n
  }

  lemma NormalizeIdempotent(n: string)
    ensures NormalizeAttackName(NormalizeAttackName(n)) == NormalizeAttackName(n)
  {
    if Lower(Trim(n)) == "multiattack" {
      assert |Lower(Trim("Strike"))| <= 6;
    }
  }

  // ---------- snapping ----------

  /** The damage dice the converter can print, with their averages. */
  const Steps: seq<(string, real)> :=
    [("1d6+1", 4.5), ("1d8+1", 5.5), ("1d10+1", 6.5), ("2d6+1", 8.0), ("1d12+2", 8.5), ("2d8+2", 11.0)]

  function Dist(k: nat, avg: real): real
    requires k < |Steps|
  {
    var d := Steps[k].1 - avg;
    if d < 0.0 then -d else d
  }

  /** The nearest of the first `n` steps, the earliest on ties. */
  function NearestStep(avg: real, n: nat): (k: nat)
    requires 1 <= n <= |Steps|
    ensures k < n
    ensures forall j :: 0 <= j < n ==> Dist(k, avg) <= Dist(j, avg)
    ensures forall j :: 0 <= j < k ==> Dist(j, avg) > Dist(k, avg)
  {
    if n == 1 then 0
    else
      var b := NearestStep(avg, n - 1);
      if Dist(n - 1, avg) < Dist(b, avg) then n - 1 else b
  }

  function SnappedDice(avg: real): (dice: string)
    ensures exists k :: 0 <= k < |Steps| && dice == Steps[k].0
  {
    Steps[NearestStep(avg, |Steps|)].0
  }

  /** `snapDamageDice` */
  method SnapDamageDice(avg: real) returns (dice: string)
    ensures dice == SnappedDice(avg)
  {
    var best := 0;
    for k := 0 to |Steps|
      invariant best == NearestStep(avg, if k == 0 then 1 else k)
    {
      if Dist(k, avg) < Dist(best, avg) {
        best := k;
      }
    }
    dice := Steps[best].0;
  }

  /** An average that is one of the table's own snaps back to its dice. */
  lemma SnapTableFixed(k: nat)
    requires k < |Steps|
    ensures SnappedDice(Steps[k].1) == Steps[k].0
  {
    assert Dist(k, Steps[k].1) == 0.0;
  }

  lemma SnapFiveAndAHalf()
    ensures SnappedDice(5.5) == "1d8+1"
  {
    SnapTableFixed(1);
  }

  // ---------- the standard attack ----------

  const IconicWords: seq<string> :=
    ["talon", "bite", "claw", "greataxe", "sword", "slam", "spike", "hoof", "maul", "fist", "dagger"]

  predicate Iconic(a: Ability) {
    ContainsAny(Lower(a.name), IconicWords)
  }

  function Damage(a: Ability): real {
    AverageDamageOf(ActionText(a))
  }

  predicate Qualifies(a: Ability, iconicOnly: bool) {
    !iconicOnly || Iconic(a)
  }

  /** Among the first `n` entries with `ok[j]`, the earliest of greatest `dmg[j]`; a first
      entry must beat -1, which every average does. */
  function BestAmong(dmg: seq<real>, ok: seq<bool>, n: nat): (r: Option<nat>)
    requires n <= |dmg| == |ok|
    ensures r.Some? ==> r.value < n && ok[r.value]
  {
    if n == 0 then None
    else
      var b := BestAmong(dmg, ok, n - 1);
      var bestAvg := if b.None? then -1.0 else dmg[b.value];
      if ok[n - 1] && dmg[n - 1] > bestAvg then Some(n - 1) else b
  }

  /** The scan finds an entry whenever one qualifies, and it is the earliest of greatest value. */
  lemma {:induction false} BestAmongIsBest(dmg: seq<real>, ok: seq<bool>, n: nat)
    requires n <= |dmg| == |ok|
    requires forall j :: 0 <= j < |dmg| ==> dmg[j] >= 0.0
    ensures BestAmong(dmg, ok, n).None? <==> forall j :: 0 <= j < n ==> !ok[j]
    ensures BestAmong(dmg, ok, n).Some? ==> forall j :: 0 <= j < n && ok[j] ==> dmg[j] <= dmg[BestAmong(dmg, ok, n).value]
    ensures BestAmong(dmg, ok, n).Some? ==> forall j :: 0 <= j < BestAmong(dmg, ok, n).value && ok[j] ==> dmg[j] < dmg[BestAmong(dmg, ok, n).value]
  {
    if n > 0 {
      BestAmongIsBest(dmg, ok, n - 1);
    }
  }

  function Damages(acts: seq<Ability>): (d: seq<real>)
    ensures |d| == |acts|
    ensures forall j :: 0 <= j < |acts| ==> d[j] == Damage(acts[j]) && d[j] >= 0.0
  {
    seq(|acts|, j requires 0 <= j < |acts| => Damage(acts[j]))
  }

  function Eligible(acts: seq<Ability>, iconicOnly: bool): (ok: seq<bool>)
    ensures |ok| == |acts|
    ensures forall j :: 0 <= j < |acts| ==> ok[j] == Qualifies(acts[j], iconicOnly)
  {
    seq(|acts|, j requires 0 <= j < |acts| => Qualifies(acts[j], iconicOnly))
  }

  /** Among the first `n` actions that qualify, the earliest of greatest average damage. */
  function BestIndex(acts: seq<Ability>, iconicOnly: bool, n: nat): (r: Option<nat>)
    requires n <= |acts|
  {
    BestAmong(Damages(acts), Eligible(acts, iconicOnly), n)
  }

  /** One step of the scan: action `k` replaces the best so far when it qualifies and beats it. */
  lemma BestIndexStep(acts: seq<Ability>, iconicOnly: bool, k: nat)
    requires k < |acts|
    ensures BestIndex(acts, iconicOnly, k + 1) ==
      var b := BestIndex(acts, iconicOnly, k);
      var bestAvg := if b.None? then -1.0 else Damage(acts[b.value]);
      if Qualifies(acts[k], iconicOnly) && Damage(acts[k]) > bestAvg then Some(k) else b
  {
  }

  datatype Candidate = Candidate(name: string, text: string, dmg: real)

  /** The candidate record the source builds for action `idx`; the fallback pass names an unnamed action "Attack". */
  function CandidateOf(acts: seq<Ability>, idx: Option<nat>, fallback: bool): Option<Candidate>
    requires idx.Some? ==> idx.value < |acts|
  {
    match idx
    case None => None
    case Some(k) =>
      var name := if fallback && acts[k].name == "" then "Attack" else acts[k].name;
      Some(Candidate(name, ActionText(acts[k]), Damage(acts[k])))
  }

  /** Iconic melee actions first; failing those, any action. */
  function ChosenCandidate(acts: seq<Ability>): Option<Candidate> {
    var iconic := BestIndex(acts, true, |acts|);
    if iconic.Some? then CandidateOf(acts, iconic, false)
    else CandidateOf(acts, BestIndex(acts, false, |acts|), true)
  }

  datatype StandardAttack = StandardAttack(name: string, range: Range, damage: string)

  function StandardAttackOf(acts: seq<Ability>): (std: StandardAttack)
    ensures exists k :: 0 <= k < |Steps| && std.damage == Steps[k].0
  {
    var c := ChosenCandidate(acts);
    var text := if c.Some? then c.value.text else "";
    var dmg := if c.Some? && c.value.dmg != 0.0 then c.value.dmg else 4.5;
    var name := if c.Some? && c.value.name != "" then c.value.name else "Attack";
    StandardAttack(NormalizeAttackName(name), InferRange(text), SnappedDice(dmg))
  }

  /** The first loop of `buildStandardAttack`: the best iconic action so far, by strictly greater average. */
  method BestIconic(acts: seq<Ability>) returns (cand: Option<Candidate>, bestAvg: real)
    ensures cand == CandidateOf(acts, BestIndex(acts, true, |acts|), false)
    ensures bestAvg == if cand.None? then -1.0 else cand.value.dmg
  {
    ghost var idx: Option<nat> := None;
    cand := None;
    bestAvg := -1.0;
    for k := 0 to |acts|
      invariant idx == BestIndex(acts, true, k)
      invariant cand == CandidateOf(acts, idx, false)
      invariant bestAvg == if idx.None? then -1.0 else Damage(acts[idx.value])
    {
      BestIndexStep(acts, true, k);
      var name := acts[k].name;
      var text := ActionText(acts[k]);
      var dmg := AverageDamage(text);
      assert dmg == Damage(acts[k]) && (Qualifies(acts[k], true) <==> ContainsAny(Lower(name), IconicWords));
      if ContainsAny(Lower(name), IconicWords) {
        if dmg > bestAvg {
          bestAvg := dmg;
          cand := Some(Candidate(name, text, dmg));
          idx := Some(k);
        }
      }
    }
  }

  /** The second loop of `buildStandardAttack`, run when no action is iconic: the best action of all. */
  method BestOverall(acts: seq<Ability>) returns (cand: Option<Candidate>)
    ensures cand == CandidateOf(acts, BestIndex(acts, false, |acts|), true)
  {
    ghost var idx: Option<nat> := None;
    cand := None;
    var bestAvg := -1.0;
    for k := 0 to |acts|
      invariant idx == BestIndex(acts, false, k)
      invariant cand == CandidateOf(acts, idx, true)
      invariant bestAvg == if idx.None? then -1.0 else Damage(acts[idx.value])
    {
      BestIndexStep(acts, false, k);
      var text := ActionText(acts[k]);
      var dmg := AverageDamage(text);
      assert dmg == Damage(acts[k]) && Qualifies(acts[k], false);
      if dmg > bestAvg {
        bestAvg := dmg;
        cand := Some(Candidate(if acts[k].name == "" then "Attack" else acts[k].name, text, dmg));
        idx := Some(k);
      }
    }
  }

  /** `buildStandardAttack` */
  method BuildStandardAttack(acts: seq<Ability>) returns (std: StandardAttack)
    ensures std == StandardAttackOf(acts)
  {
    var cand, bestAvg := BestIconic(acts);
    if cand.None? {
      cand := BestOverall(acts);
    }
    var range := InferRange(if cand.Some? then cand.value.text else "");
    var dice := SnapDamageDice(if cand.Some? && cand.value.dmg != 0.0 then cand.value.dmg else 4.5);
    var name := NormalizeAttackName(if cand.Some? && cand.value.name != "" then cand.value.name else "Attack");
    std := StandardAttack(name, range, dice);
  }

  /** The chosen attack is an iconic one whenever any action is iconic, and it has the
      greatest average damage among the actions considered. */
  lemma ChosenIsBest(acts: seq<Ability>)
    ensures (exists j :: 0 <= j < |acts| && Iconic(acts[j])) ==>
      && ChosenCandidate(acts).Some?
      && (exists k :: 0 <= k < |acts| && Iconic(acts[k]) && ChosenCandidate(acts).value.name == acts[k].name)
      && forall j :: 0 <= j < |acts| && Iconic(acts[j]) ==> Damage(acts[j]) <= ChosenCandidate(acts).value.dmg
    ensures (forall j :: 0 <= j < |acts| ==> !Iconic(acts[j])) && |acts| > 0 ==>
      && ChosenCandidate(acts).Some?
      && forall j :: 0 <= j < |acts| ==> Damage(acts[j]) <= ChosenCandidate(acts).value.dmg
    ensures |acts| == 0 ==> ChosenCandidate(acts).None?
  {
    if exists j :: 0 <= j < |acts| && Iconic(acts[j]) {
      var j :| 0 <= j < |acts| && Iconic(acts[j]);
      IconicChosen(acts, j);
    } else if |acts| > 0 {
      FallbackChosen(acts);
    }
  }

  /** With an iconic action `j`, the iconic pass picks an iconic action at least as strong as any iconic one. */
  lemma IconicChosen(acts: seq<Ability>, j: nat)
    requires j < |acts| && Iconic(acts[j])
    ensures BestIndex(acts, true, |acts|).Some?
    ensures Iconic(acts[BestIndex(acts, true, |acts|).value])
    ensures forall i :: 0 <= i < |acts| && Iconic(acts[i]) ==> Damage(acts[i]) <= Damage(acts[BestIndex(acts, true, |acts|).value])
  {
    BestAmongIsBest(Damages(acts), Eligible(acts, true), |acts|);
    assert Qualifies(acts[j], true);
  }

  /** With no iconic action, the fallback pass picks the strongest action of all. */
  lemma FallbackChosen(acts: seq<Ability>)
    requires |acts| > 0 && forall i :: 0 <= i < |acts| ==> !Iconic(acts[i])
    ensures BestIndex(acts, true, |acts|).None?
    ensures BestIndex(acts, false, |acts|).Some?
    ensures forall i :: 0 <= i < |acts| ==> Damage(acts[i]) <= Damage(acts[BestIndex(acts, false, |acts|).value])
  {
    BestAmongIsBest(Damages(acts), Eligible(acts, true), |acts|);
    BestAmongIsBest(Damages(acts), Eligible(acts, false), |acts|);
    assert Qualifies(acts[0], false);
  }
}
