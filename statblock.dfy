/** The text parsers of the page script: free-form action lines typed into the custom-creature
    form, and a pasted 5e stat block read into a creature record. The stat block's regular
    expressions are not run here: their results arrive as `Captures`. */
module Statblock {
  import opened Text
  import opened Wrappers

  /** An action as both parsers build it. */
  datatype Action = Action(name: string, desc: string)

  const BasicAttack := "A basic attack."

  // ---------- parseActionsFromText ----------

  /** `line.trim()` is truthy. */
  predicate NonBlank(line: string) { Trim(line) != "" }

  /** `lines.filter(line => line.trim())`. */
  function NonBlankLines(lines: seq<string>): (r: seq<string>)
    ensures |r| <= |lines|
    decreases |lines|
  {
    if lines == [] then []
    else (if NonBlank(lines[0]) then [lines[0]] else []) + NonBlankLines(lines[1..])
  }

  /** The action one line yields: split at its first colon when that colon is not the first
      character, otherwise the whole line named with the default description. */
  function ActionOfLine(line: string): Action {
    var colon := IndexOf(line, ':');
    if colon > 0 then Action(Trim(line[..colon]), Trim(line[colon + 1..]))
    else Action(Trim(line), BasicAttack)
  }

  /** `lines.map(f)`, written out so that its laws hold for any `f`. */
  function MapLines(lines: seq<string>, f: string -> Action): (r: seq<Action>)
    ensures |r| == |lines|
    decreases |lines|
  {
    if lines == [] then [] else [f(lines[0])] + MapLines(lines[1..], f)
  }

  lemma {:induction false} MapLinesAppend(a: seq<string>, b: seq<string>, f: string -> Action)
    ensures MapLines(a + b, f) == MapLines(a, f) + MapLines(b, f)
    decreases |a|
  {
    if a == [] {
      assert a + b == b;
    } else {
      var ab := a + b;
      assert ab[0] == a[0] && ab[1..] == a[1..] + b;
      MapLinesAppend(a[1..], b, f);
      var x, rest, tail := [f(a[0])], MapLines(a[1..], f), MapLines(b, f);
      assert MapLines(ab, f) == x + (rest + tail);
      assert MapLines(a, f) == x + rest;
      assert x + (rest + tail) == (x + rest) + tail;
    }
  }

  /** One more line mapped. */
  lemma MapLinesStep(lines: seq<string>, i: nat, f: string -> Action)
    requires i < |lines|
    ensures MapLines(lines[..i + 1], f) == MapLines(lines[..i], f) + [f(lines[i])]
  {
    assert lines[..i + 1] == lines[..i] + [lines[i]];
    MapLinesAppend(lines[..i], [lines[i]], f);
    assert MapLines([lines[i]], f) == [f(lines[i])];
  }

  lemma {:induction false} MapLinesAt(lines: seq<string>, f: string -> Action, k: nat)
    requires k < |lines|
    ensures MapLines(lines, f)[k] == f(lines[k])
    decreases k
  {
    if k > 0 {
      MapLinesAt(lines[1..], f, k - 1);
    }
  }

  function ActionsOfLines(lines: seq<string>): (r: seq<Action>)
    ensures |r| == |lines|
  {
    MapLines(lines, ActionOfLine)
  }

  /** `parseActionsFromText` as a value. */
  function ActionsFromText(text: string): seq<Action> {
    if Trim(text) == "" then [] else ActionsOfLines(NonBlankLines(Split(text, '\n')))
  }

  /** `parseActionsFromText`: one pushed action per non-blank line. */
  method ParseActionsFromText(text: string) returns (actions: seq<Action>)
    ensures actions == ActionsFromText(text)
  {
    if Trim(text) == "" {
      return [];
    }
    var lines := NonBlankLines(Split(text, '\n'));
    actions := [];
    for i := 0 to |lines|
      invariant actions == ActionsOfLines(lines[..i])
    {
      var line := lines[i];
      MapLinesStep(lines, i, ActionOfLine);
      var colon := IndexOf(line, ':');
      var action := if colon > 0 then Action(Trim(line[..colon]), Trim(line[colon + 1..]))
                    else Action(Trim(line), BasicAttack);
      assert action == ActionOfLine(line);
      actions := actions + [action];
    }
    assert lines[..|lines|] == lines;
  }

  /** The actions one line contributes: none for a blank line. */
  function LineActions(line: string): (r: seq<Action>)
    ensures |r| <= 1
  {
    if NonBlank(line) then [ActionOfLine(line)] else []
  }

  /** Every character of `s` is a blank, stated one character at a time. */
  predicate AllBlank(s: string)
    decreases |s|
  {
    s == [] || (IsSpace(s[0]) && AllBlank(s[1..]))
  }

  lemma {:induction false} TrimStartEmpty(s: string)
    ensures TrimStart(s) == [] <==> AllBlank(s)
    decreases |s|
  {
    if s != [] && IsSpace(s[0]) {
      TrimStartEmpty(s[1..]);
    }
  }

  /** `s.trim()` is empty exactly when every character of `s` is a blank. */
  lemma TrimEmptyIffAllBlank(s: string)
    ensures Trim(s) == [] <==> AllBlank(s)
  {
    TrimStartEmpty(s);
  }

  lemma {:induction false} AllBlankAppend(a: string, b: string)
    ensures AllBlank(a + b) <==> AllBlank(a) && AllBlank(b)
    decreases |a|
  {
    if a == [] {
      assert a + b == b;
    } else {
      AllBlankAppend(a[1..], b);
      assert (a + b)[0] == a[0];
      assert (a + b)[1..] == a[1..] + b;
    }
  }

  /** A text is blank exactly when its first line and the rest are. */
  lemma BlankAroundBreak(line: string, rest: string)
    ensures Trim(line + "\n" + rest) == "" <==> Trim(line) == "" && Trim(rest) == ""
  {
    assert line + "\n" + rest == line + ("\n" + rest);
    AllBlankAppend(line, "\n" + rest);
    AllBlankAppend("\n", rest);
    assert AllBlank("\n") by { assert "\n"[1..] == []; }
    TrimEmptyIffAllBlank(line + "\n" + rest);
    TrimEmptyIffAllBlank(line);
    TrimEmptyIffAllBlank(rest);
  }

  /** Lines joined by line breaks make a blank text exactly when every line is blank. */
  lemma {:induction false} JoinBlankIff(parts: seq<string>)
    ensures Trim(Join(parts, "\n")) == "" <==> NonBlankLines(parts) == []
    decreases |parts|
  {
    if |parts| == 1 {
      assert NonBlankLines(parts) == (if NonBlank(parts[0]) then [parts[0]] else []) + NonBlankLines([]);
    } else if |parts| > 1 {
      JoinBlankIff(parts[1..]);
      BlankAroundBreak(parts[0], Join(parts[1..], "\n"));
    }
  }

  /** A text has no non-blank line exactly when it is blank. */
  lemma NoLinesIffBlank(s: string)
    ensures NonBlankLines(Split(s, '\n')) == [] <==> Trim(s) == ""
  {
    JoinSplit(s, '\n');
    JoinBlankIff(Split(s, '\n'));
  }

  /** Text without a line break is one line. */
  lemma SplitOneLine(line: string)
    requires '\n' !in line
    ensures Split(line, '\n') == [line]
  {
  }

  /** The first line break of `line + "\n" + rest` is the one after `line`. */
  lemma SplitFirstLine(line: string, rest: string)
    requires '\n' !in line
    ensures Split(line + "\n" + rest, '\n') == [line] + Split(rest, '\n')
  {
    var t := line + "\n" + rest;
    assert t[|line|] == '\n';
    assert t[..|line|] == line;
    assert t[|line| + 1..] == rest;
    assert forall j :: 0 <= j < |line| ==> t[j] == line[j];
  }

  /** A text of one line yields that line's action, or none when the line is blank. */
  lemma SingleLineActions(line: string)
    requires '\n' !in line
    ensures ActionsFromText(line) == LineActions(line)
  {
    SplitOneLine(line);
    assert NonBlankLines([line]) == (if NonBlank(line) then [line] else []) + NonBlankLines([]);
  }

  /** The non-blank lines of a text, split off its first line. */
  lemma NonBlankFirstLine(line: string, rest: string)
    requires '\n' !in line
    ensures NonBlankLines(Split(line + "\n" + rest, '\n'))
      == (if NonBlank(line) then [line] else []) + NonBlankLines(Split(rest, '\n'))
  {
    SplitFirstLine(line, rest);
    var parts := [line] + Split(rest, '\n');
    assert parts[1..] == Split(rest, '\n');
  }

  /** The first line's action (if the line is not blank) comes first, followed by the actions of
      the remaining lines in their order. */
  lemma ActionsByLine(line: string, rest: string)
    requires '\n' !in line
    ensures ActionsFromText(line + "\n" + rest) == LineActions(line) + ActionsFromText(rest)
  {
    var t := line + "\n" + rest;
    BlankAroundBreak(line, rest);
    if Trim(t) != "" {
      NonBlankFirstLine(line, rest);
      var first := if NonBlank(line) then [line] else [];
      MapLinesAppend(first, NonBlankLines(Split(rest, '\n')), ActionOfLine);
      if Trim(rest) == "" {
        NoLinesIffBlank(rest);
      }
    }
  }

  /** Over every text, the early return for blank text agrees with the general case: the
      actions are those of the non-blank lines, one each, in line order. */
  lemma ActionPerLine(text: string)
    ensures ActionsFromText(text) == ActionsOfLines(NonBlankLines(Split(text, '\n')))
  {
    if Trim(text) == "" {
      NoLinesIffBlank(text);
    }
  }

  /** The k-th action is read from the k-th non-blank line. */
  lemma ActionOfKthLine(text: string, k: nat)
    requires k < |NonBlankLines(Split(text, '\n'))|
    ensures k < |ActionsFromText(text)|
    ensures ActionsFromText(text)[k] == ActionOfLine(NonBlankLines(Split(text, '\n'))[k])
  {
    ActionPerLine(text);
    MapLinesAt(NonBlankLines(Split(text, '\n')), ActionOfLine, k);
  }

  /** A text yields no action exactly when it is empty or blank. */
  lemma NoActionsIffBlank(text: string)
    ensures ActionsFromText(text) == [] <==> Trim(text) == ""
  {
    ActionPerLine(text);
    NoLinesIffBlank(text);
  }

  /** `lines.filter(...)` keeps exactly the non-blank lines. */
  lemma {:induction false} NonBlankLinesIff(lines: seq<string>, line: string)
    ensures line in NonBlankLines(lines) <==> line in lines && NonBlank(line)
    decreases |lines|
  {
    if lines != [] {
      NonBlankLinesIff(lines[1..], line);
      assert lines == [lines[0]] + lines[1..];
    }
  }

  /** A line without a colon, or one whose first colon is its first character, is named by the
      whole trimmed line and described as a basic attack. */
  lemma NoColonLine(line: string)
    requires ':' !in line || line[0] == ':'
    ensures ActionOfLine(line) == Action(Trim(line), BasicAttack)
  {
  }

  // ---------- the colon format, read back ----------

  /** An action that survives being written as a "name: desc" line. */
  predicate Writable(a: Action) {
    && a.name != [] && Trim(a.name) == a.name && ':' !in a.name && '\n' !in a.name
    && Trim(a.desc) == a.desc && '\n' !in a.desc
  }

  function ActionLine(a: Action): string { a.name + ": " + a.desc }

  function ActionLines(actions: seq<Action>): (r: seq<string>)
    ensures |r| == |actions|
  {
    seq(|actions|, k requires 0 <= k < |actions| => ActionLine(actions[k]))
  }

  lemma TrimAfterBlank(d: string)
    requires Trim(d) == d
    ensures Trim(" " + d) == d
  {
    assert (" " + d)[1..] == d;
    assert TrimStart(" " + d) == TrimStart(d);
  }

  /** The first colon of a written line is the one after the name. */
  lemma ActionLineColon(a: Action)
    requires Writable(a)
    ensures IndexOf(ActionLine(a), ':') == |a.name|
    ensures ActionLine(a)[..|a.name|] == a.name
    ensures ActionLine(a)[|a.name| + 1..] == " " + a.desc
  {
    var line := ActionLine(a);
    assert line[|a.name|] == ':';
    assert line[..|a.name|] == a.name;
    assert forall j :: 0 <= j < |a.name| ==> line[j] == a.name[j];
    assert line[|a.name| + 1..] == " " + a.desc;
  }

  /** A written line is not blank: its colon is not a blank. */
  lemma ActionLineNonBlank(a: Action)
    requires Writable(a)
    ensures NonBlank(ActionLine(a))
  {
    var line := ActionLine(a);
    TrimEmptyIffBlank(line);
    assert line[|a.name|] == ':';
  }

  /** A written action line parses back to the action. */
  lemma ActionLineRoundTrip(a: Action)
    requires Writable(a)
    ensures ActionOfLine(ActionLine(a)) == a
    ensures NonBlank(ActionLine(a))
  {
    ActionLineColon(a);
    TrimAfterBlank(a.desc);
    ActionLineNonBlank(a);
  }

  lemma ActionLineNoBreak(a: Action)
    requires Writable(a)
    ensures '\n' !in ActionLine(a)
  {
    var line := ActionLine(a);
    assert forall k :: 0 <= k < |a.name| ==> line[k] == a.name[k];
    assert forall k :: |a.name| + 2 <= k < |line| ==> line[k] == a.desc[k - |a.name| - 2];
  }

  /** The blank-line filter keeps a list of non-blank lines whole. */
  lemma {:induction false} NonBlankLinesKeepsAll(lines: seq<string>)
    requires forall k :: 0 <= k < |lines| ==> NonBlank(lines[k])
    ensures NonBlankLines(lines) == lines
    decreases |lines|
  {
    if lines != [] {
      NonBlankLinesKeepsAll(lines[1..]);
    }
  }

  /** Written lines are all kept by the blank-line filter. */
  lemma WrittenLinesNonBlank(actions: seq<Action>)
    requires forall k :: 0 <= k < |actions| ==> Writable(actions[k])
    ensures NonBlankLines(ActionLines(actions)) == ActionLines(actions)
  {
    var lines := ActionLines(actions);
    forall k | 0 <= k < |lines| ensures NonBlank(lines[k]) {
      ActionLineNonBlank(actions[k]);
    }
    NonBlankLinesKeepsAll(lines);
  }

  /** Each written line reads back as its action. */
  lemma WrittenLinesParse(actions: seq<Action>)
    requires forall k :: 0 <= k < |actions| ==> Writable(actions[k])
    ensures ActionsOfLines(ActionLines(actions)) == actions
  {
    var lines := ActionLines(actions);
    forall k | 0 <= k < |actions| ensures ActionsOfLines(lines)[k] == actions[k] {
      MapLinesAt(lines, ActionOfLine, k);
      ActionLineRoundTrip(actions[k]);
    }
  }

  /** Writing actions one per line and parsing the text gives the same actions back. */
  lemma ParseWrittenActions(actions: seq<Action>)
    requires forall k :: 0 <= k < |actions| ==> Writable(actions[k])
    ensures ActionsFromText(Join(ActionLines(actions), "\n")) == actions
  {
    var lines := ActionLines(actions);
    if actions != [] {
      forall k | 0 <= k < |lines| ensures '\n' !in lines[k] {
        ActionLineNoBreak(actions[k]);
      }
      SplitJoin(lines, '\n');
      ActionPerLine(Join(lines, "\n"));
      WrittenLinesNonBlank(actions);
      WrittenLinesParse(actions);
    }
  }

  // ---------- the creature-type guess ----------

  const TypeGuesses: seq<string> :=
    ["dragon", "fiend", "celestial", "undead", "beast", "fey", "elemental", "giant", "construct",
     "aberration", "monstrosity", "ooze", "plant"]

  const DefaultType := "humanoid"

  /** The first of guesses[k..] that occurs in `lower`, or "humanoid". */
  function FirstGuess(lower: string, guesses: seq<string>, k: nat): string
    decreases |guesses| - k
  {
    if k >= |guesses| then DefaultType
    else if Contains(lower, guesses[k]) then guesses[k]
    else FirstGuess(lower, guesses, k + 1)
  }

  function TypeGuess(text: string): string {
    FirstGuess(Lower(text), TypeGuesses, 0)
  }

  /** The type-guess loop of `parseStatblockText`: the first listed type the lower-cased text
      contains, stopping there. */
  method GuessType(text: string) returns (t: string)
    ensures t == TypeGuess(text)
  {
    t := DefaultType;
    var lowerText := Lower(text);
    var i := 0;
    while i < |TypeGuesses|
      invariant i <= |TypeGuesses|
      invariant t == DefaultType
      invariant FirstGuess(lowerText, TypeGuesses, i) == FirstGuess(lowerText, TypeGuesses, 0)
    {
      if Contains(lowerText, TypeGuesses[i]) {
        t := TypeGuesses[i];
        break;
      }
      i := i + 1;
    }
  }

  /** The guess is the first entry of guesses[k..] that occurs, with none before it; or no entry
      occurs and the guess is "humanoid". */
  lemma {:induction false} FirstGuessIsFirst(lower: string, guesses: seq<string>, k: nat)
    ensures || (exists j :: k <= j < |guesses| && FirstGuess(lower, guesses, k) == guesses[j]
                  && Contains(lower, guesses[j])
                  && forall i :: k <= i < j ==> !Contains(lower, guesses[i]))
            || (FirstGuess(lower, guesses, k) == DefaultType
                  && forall j :: k <= j < |guesses| ==> !Contains(lower, guesses[j]))
    decreases |guesses| - k
  {
    if k < |guesses| && !Contains(lower, guesses[k]) {
      FirstGuessIsFirst(lower, guesses, k + 1);
    }
  }

  /** The type guessed from a text is the first listed type its lower-cased form contains; it is
      "humanoid" exactly when it contains none. */
  lemma TypeGuessIsFirstMatch(text: string)
    ensures || (exists j :: 0 <= j < |TypeGuesses| && TypeGuess(text) == TypeGuesses[j]
                  && Contains(Lower(text), TypeGuesses[j])
                  && forall i :: 0 <= i < j ==> !Contains(Lower(text), TypeGuesses[i]))
            || (TypeGuess(text) == DefaultType
                  && forall j :: 0 <= j < |TypeGuesses| ==> !Contains(Lower(text), TypeGuesses[j]))
  {
    FirstGuessIsFirst(Lower(text), TypeGuesses, 0);
  }

  /** The guess stays "humanoid" exactly when the text names none of the listed types. */
  lemma TypeGuessHumanoidIff(text: string)
    ensures TypeGuess(text) == DefaultType
      <==> forall j :: 0 <= j < |TypeGuesses| ==> !Contains(Lower(text), TypeGuesses[j])
  {
    TypeGuessIsFirstMatch(text);
    assert forall j :: 0 <= j < |TypeGuesses| ==> |TypeGuesses[j]| != |DefaultType|;
  }

  // ---------- parseActionsFromStatblock ----------

  const StatLabels: seq<string> :=
    ["str", "dex", "con", "int", "wis", "cha", "armor class", "hit points", "speed", "challenge",
     "saving throws", "skills", "damage", "condition", "senses", "languages"]

  const MaxActions: nat := 4

  /** The case-insensitive label test: the name starts with one of the stat labels. */
  predicate IsStatLabel(name: string) {
    StartsWithAnyFrom(Lower(name), StatLabels, 0)
  }

  /** `s` starts with one of prefixes[k..]. */
  predicate StartsWithAnyFrom(s: string, prefixes: seq<string>, k: nat)
    decreases |prefixes| - k
  {
    k < |prefixes| && (StartsWith(s, prefixes[k]) || StartsWithAnyFrom(s, prefixes, k + 1))
  }

  lemma {:induction false} StartsWithAnyFromIff(s: string, prefixes: seq<string>, k: nat)
    ensures StartsWithAnyFrom(s, prefixes, k) <==> exists j :: k <= j < |prefixes| && StartsWith(s, prefixes[j])
    decreases |prefixes| - k
  {
    if k < |prefixes| {
      StartsWithAnyFromIff(s, prefixes, k + 1);
    }
  }

  /** The label test holds exactly when the lower-cased name starts with one of the labels. */
  lemma IsStatLabelIff(name: string)
    ensures IsStatLabel(name) <==> exists j :: 0 <= j < |StatLabels| && StartsWith(Lower(name), StatLabels[j])
  {
    StartsWithAnyFromIff(Lower(name), StatLabels, 0);
  }

  /** The action one regular-expression match contributes, if any. */
  function MatchAction(m: string): Option<Action> {
    var colon := IndexOf(m, ':');
    if colon > 0 && !IsStatLabel(Trim(m[..colon])) then Some(Action(Trim(m[..colon]), Trim(m[colon + 1..])))
    else None
  }

  function Present(o: Option<Action>): seq<Action> {
    if o.Some? then [o.value] else []
  }

  /** The actions `f` yields for `ms`, in order: a filter and map written out for any `f`. */
  function Kept(ms: seq<string>, f: string -> Option<Action>): (r: seq<Action>)
    ensures |r| <= |ms|
    decreases |ms|
  {
    if ms == [] then [] else Kept(ms[..|ms| - 1], f) + Present(f(ms[|ms| - 1]))
  }

  lemma {:induction false} KeptIff(ms: seq<string>, f: string -> Option<Action>, a: Action)
    ensures a in Kept(ms, f) <==> exists i :: 0 <= i < |ms| && f(ms[i]) == Some(a)
    decreases |ms|
  {
    if ms != [] {
      var n := |ms| - 1;
      KeptIff(ms[..n], f, a);
      assert forall i :: 0 <= i < n ==> ms[..n][i] == ms[i];
      if f(ms[n]) == Some(a) {
        assert a in Kept(ms, f);
      }
    }
  }

  /** The actions pushed for `matches`, before the limit. */
  function KeptActions(matches: seq<string>): (r: seq<Action>)
    ensures |r| <= |matches|
  {
    Kept(matches, MatchAction)
  }

  /** `parseActionsFromStatblock` as a value. */
  function StatblockActions(matches: seq<string>): seq<Action> {
    var kept := KeptActions(matches);
    if |kept| <= MaxActions then kept else kept[..MaxActions]
  }

  /** `parseActionsFromStatblock` over the matches of its action pattern (none for `null`):
      push each labelled, non-stat match, then keep the first four. */
  method ParseActionsFromStatblock(matches: seq<string>) returns (actions: seq<Action>)
    ensures actions == StatblockActions(matches)
  {
    actions := [];
    for i := 0 to |matches|
      invariant actions == KeptActions(matches[..i])
    {
      var m := matches[i];
      assert matches[..i + 1][..i] == matches[..i];
      ghost var before := actions;
      var colon := IndexOf(m, ':');
      if colon > 0 {
        var name := Trim(m[..colon]);
        var desc := Trim(m[colon + 1..]);
        if !IsStatLabel(name) {
          actions := actions + [Action(name, desc)];
        }
      }
      assert actions == before + Present(MatchAction(m));
    }
    assert matches[..|matches|] == matches;
    if |actions| > MaxActions {
      actions := actions[..MaxActions];
    }
  }

  /** The pushed actions are exactly those of the matches that carry them. */
  lemma KeptActionsIff(matches: seq<string>, a: Action)
    ensures a in KeptActions(matches) <==> exists i :: 0 <= i < |matches| && MatchAction(matches[i]) == Some(a)
  {
    KeptIff(matches, MatchAction, a);
  }

  /** At most four actions, the first four pushed, none named after a stat label. */
  lemma StatblockActionsBounded(matches: seq<string>)
    ensures |StatblockActions(matches)| <= MaxActions
    ensures StatblockActions(matches) == KeptActions(matches)[..|StatblockActions(matches)|]
    ensures |KeptActions(matches)| <= MaxActions ==> StatblockActions(matches) == KeptActions(matches)
    ensures forall k :: 0 <= k < |StatblockActions(matches)| ==> !IsStatLabel(StatblockActions(matches)[k].name)
  {
    var r := StatblockActions(matches);
    forall k | 0 <= k < |r| ensures !IsStatLabel(r[k].name) {
      var a := r[k];
      assert a in KeptActions(matches);
      KeptActionsIff(matches, a);
    }
  }

  /** The label test is a prefix test: an action named "Constrict" or "Change Shape" is taken for
      the CON or CHA line and dropped. */
  lemma ConstrictIsStatLabel()
    ensures IsStatLabel("Constrict")
  {
    var low := Lower("Constrict");
    assert low[..3] == "con";
    assert StartsWith(low, StatLabels[2]);
    IsStatLabelIff("Constrict");
  }

  // ---------- parseStatblockText ----------

  /** The regular-expression results `parseStatblockText` reads: each numeric capture as
      `parseInt` reads its digits, the CR and speed captures as text, and the matches of the
      action pattern. `None` is a pattern that did not match. */
  datatype Captures = Captures(
    ac: Option<nat>, hp: Option<nat>, cr: Option<string>, speed: Option<string>,
    str: Option<nat>, dex: Option<nat>, con: Option<nat>, int_: Option<nat>, wis: Option<nat>, cha: Option<nat>,
    actionMatches: seq<string>)

  /** The object `parseStatblockText` returns. */
  datatype ParsedCreature = ParsedCreature(
    name: string, ac: int, hp: int, cr: string,
    str: int, dex: int, con: int, int_: int, wis: int, cha: int,
    creatureType: string, speed: string, actions: seq<Action>)

  const PlaceholderAttack := Action("Parsed Attack", "Attack parsed from statblock text.")
  const DefaultName := "Parsed Creature"

  function OrTen(o: Option<nat>): int { if o.Some? then o.value else 10 }

  /** The characters `[*_\s]`: markdown emphasis and blanks around a name. */
  predicate Decor(c: char) { c == '*' || c == '_' || IsSpace(c) }

  function StripDecorStart(s: string): (r: string)
    ensures |r| <= |s| && r == s[|s| - |r|..]
    ensures r == [] || !Decor(r[0])
  {
    if |s| > 0 && Decor(s[0]) then StripDecorStart(s[1..]) else s
  }

  function StripDecorEnd(s: string): (r: string)
    ensures |r| <= |s| && r == s[..|r|]
    ensures r == [] || !Decor(r[|r| - 1])
  {
    if |s| > 0 && Decor(s[|s| - 1]) then StripDecorEnd(s[..|s| - 1]) else s
  }

  /** `replace(/^[*_\s]+|[*_\s]+$/g, '')`. */
  function StripDecor(s: string): (r: string)
    ensures |r| <= |s|
    ensures r == [] || (!Decor(r[0]) && !Decor(r[|r| - 1]))
  {
    StripDecorEnd(StripDecorStart(s))
  }

  /** `lines[0]` of the trimmed, non-empty lines. */
  function FirstNonBlank(lines: seq<string>): (r: Option<string>)
    ensures r.Some? ==> r.value != ""
    decreases |lines|
  {
    if lines == [] then None
    else if NonBlank(lines[0]) then Some(Trim(lines[0]))
    else FirstNonBlank(lines[1..])
  }

  /** The `name` field: the first non-blank line without its emphasis marks, or "Parsed Creature". */
  function NameOf(text: string): string {
    var first := FirstNonBlank(Split(text, '\n'));
    if first.Some? then StripDecor(first.value) else DefaultName
  }

  function ActionsOrPlaceholder(actions: seq<Action>): seq<Action> {
    if |actions| > 0 then actions else [PlaceholderAttack]
  }

  /** `parseStatblockText` as a value. */
  function CreatureOf(text: string, caps: Captures): ParsedCreature {
    ParsedCreature(
      NameOf(text), OrTen(caps.ac), OrTen(caps.hp), caps.cr.GetOr("1"),
      OrTen(caps.str), OrTen(caps.dex), OrTen(caps.con), OrTen(caps.int_), OrTen(caps.wis), OrTen(caps.cha),
      TypeGuess(text), if caps.speed.Some? then Trim(caps.speed.value) else "30 ft.",
      ActionsOrPlaceholder(StatblockActions(caps.actionMatches)))
  }

  /** `parseStatblockText`: the record read from a stat block and its pattern results. */
  method ParseStatblockText(text: string, caps: Captures) returns (c: ParsedCreature)
    ensures c == CreatureOf(text, caps)
  {
    var creatureType := GuessType(text);
    var actions := ParseActionsFromStatblock(caps.actionMatches);
    c := ParsedCreature(
      NameOf(text), OrTen(caps.ac), OrTen(caps.hp), caps.cr.GetOr("1"),
      OrTen(caps.str), OrTen(caps.dex), OrTen(caps.con), OrTen(caps.int_), OrTen(caps.wis), OrTen(caps.cha),
      creatureType, if caps.speed.Some? then Trim(caps.speed.value) else "30 ft.",
      if |actions| > 0 then actions else [PlaceholderAttack]);
  }

  /** A pattern that did not match leaves its field at the default: 10 for armour class, hit
      points and each ability score, "1" for the challenge rating, "30 ft." for the speed. A
      pattern that matched sets its field. */
  lemma StatblockDefaults(text: string, caps: Captures)
    ensures CreatureOf(text, caps).ac == (if caps.ac.None? then 10 else caps.ac.value)
    ensures CreatureOf(text, caps).hp == (if caps.hp.None? then 10 else caps.hp.value)
    ensures CreatureOf(text, caps).cr == (if caps.cr.None? then "1" else caps.cr.value)
    ensures caps.speed.None? ==> CreatureOf(text, caps).speed == "30 ft."
    ensures caps.str.None? && caps.dex.None? && caps.con.None? && caps.int_.None? && caps.wis.None? && caps.cha.None? ==>
      var c := CreatureOf(text, caps);
      c.str == 10 && c.dex == 10 && c.con == 10 && c.int_ == 10 && c.wis == 10 && c.cha == 10
  {
  }

  /** The creature always has one to four actions: the placeholder when the action pattern gave
      none worth keeping, otherwise the kept ones. */
  lemma StatblockCreatureActions(text: string, caps: Captures)
    ensures 1 <= |CreatureOf(text, caps).actions| <= MaxActions
    ensures StatblockActions(caps.actionMatches) == [] ==> CreatureOf(text, caps).actions == [PlaceholderAttack]
    ensures StatblockActions(caps.actionMatches) != [] ==> CreatureOf(text, caps).actions == StatblockActions(caps.actionMatches)
  {
    StatblockActionsBounded(caps.actionMatches);
  }

  lemma {:induction false} FirstNonBlankNone(lines: seq<string>)
    ensures FirstNonBlank(lines) == None <==> NonBlankLines(lines) == []
    decreases |lines|
  {
    if lines != [] {
      FirstNonBlankNone(lines[1..]);
    }
  }

  /** A blank text is named "Parsed Creature"; any other text gets a name with no emphasis mark or
      blank at either end. */
  lemma StatblockName(text: string)
    ensures Trim(text) == "" <==> FirstNonBlank(Split(text, '\n')) == None
    ensures Trim(text) == "" ==> NameOf(text) == DefaultName
    ensures Trim(text) != "" ==> NameOf(text) == [] || (!Decor(NameOf(text)[0]) && !Decor(NameOf(text)[|NameOf(text)| - 1]))
  {
    NoLinesIffBlank(text);
    FirstNonBlankNone(Split(text, '\n'));
  }

  /** The first non-blank line, trimmed, is what `lines[0]` reads. */
  lemma {:induction false} FirstNonBlankAt(lines: seq<string>, k: nat)
    requires k < |lines| && NonBlank(lines[k])
    requires forall j :: 0 <= j < k ==> !NonBlank(lines[j])
    ensures FirstNonBlank(lines) == Some(Trim(lines[k]))
    decreases k
  {
    if k > 0 {
      assert !NonBlank(lines[0]);
      assert forall j :: 0 <= j < k - 1 ==> lines[1..][j] == lines[j + 1];
      FirstNonBlankAt(lines[1..], k - 1);
    }
  }

  /** The name is read from the first non-blank line of the text: that line trimmed and stripped
      of emphasis marks. */
  lemma NameFromFirstLine(text: string, k: nat)
    requires k < |Split(text, '\n')| && NonBlank(Split(text, '\n')[k])
    requires forall j :: 0 <= j < k ==> !NonBlank(Split(text, '\n')[j])
    ensures NameOf(text) == StripDecor(Trim(Split(text, '\n')[k]))
  {
    FirstNonBlankAt(Split(text, '\n'), k);
  }
}
