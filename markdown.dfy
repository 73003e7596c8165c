/** The converted adversary record and `toMarkdown`, which lays it out as a stat block. */
module Markdown {
  import opened Text
  import opened Wrappers
  import opened Tiering
  import opened Attacks
  import opened Features

  /** The `adversary` object `convertDnDToDaggerheart` builds; `thresholds` is [Major, Severe]. */
  datatype Adversary = Adversary(
    name: string,
    tier: int,
    role: Role,
    description: string,
    motives: seq<string>,
    difficulty: int,
    thresholds: (int, int),
    hp: int,
    stress: int,
    atk: int,
    standardAttack: StandardAttack,
    experience: Option<string>,
    features: seq<Feature>)

  /** `${f.name} - ${f.kind}: ${f.text}` */
  function FeatureLine(f: Feature): (line: string) {
    LabelledLine(f.name, KindText(f.kind), f.Text())
  }

  function LabelledLine(name: string, kind: string, text: string): (line: string)
    ensures |line| >= |name| + 3 && line[..|name| + 3] == name + " - "
  {
    name + " - " + kind + ": " + text
  }

  function FeatureLines(fs: seq<Feature>): (lines: seq<string>)
    ensures |lines| == |fs|
    ensures forall i :: 0 <= i < |fs| ==> lines[i] == FeatureLine(fs[i])
  {
    seq(|fs|, i requires 0 <= i < |fs| => FeatureLine(fs[i]))
  }

  /** The lines before `.filter(Boolean)`: a missing experience leaves an empty line. */
  function MarkdownLines(a: Adversary): seq<string> {
    HeaderLines(a) + FeatureLines(a.features)
  }

  /** The header block, up to and including "FEATURES". */
  function HeaderLines(a: Adversary): (head: seq<string>)
    ensures |head| == 10 && head[9] == "FEATURES"
  {
    [ Upper(a.name),
      "Tier " + IntToString(a.tier) + " " + RoleName(a.role),
      a.description,
      "Motives & Tactics: " + Join(a.motives, ", "),
      "",
      "Difficulty: " + IntToString(a.difficulty) + " | Thresholds: " + IntToString(a.thresholds.0) + "/"
        + IntToString(a.thresholds.1) + " | HP: " + IntToString(a.hp) + " | Stress: " + IntToString(a.stress),
      "ATK: +" + IntToString(a.atk) + " | " + a.standardAttack.name + ": " + RangeText(a.standardAttack.range)
        + " | " + a.standardAttack.damage + " phy",
      if a.experience.Some? && a.experience.value != "" then "Experience: " + a.experience.value else "",
      "",
      "FEATURES" ]
  }

  /** `.filter(Boolean)` on strings: drop the empty ones, keep the rest in order. */
  function NonEmpty(lines: seq<string>): (kept: seq<string>)
    ensures |kept| <= |lines|
    ensures forall i :: 0 <= i < |kept| ==> kept[i] != "" && kept[i] in lines
    decreases |lines|
  {
    if |lines| == 0 then []
    else if lines[0] == "" then NonEmpty(lines[1..])
    else [lines[0]] + NonEmpty(lines[1..])
  }

  lemma {:induction false} NonEmptyAppend(a: seq<string>, b: seq<string>)
    ensures NonEmpty(a + b) == NonEmpty(a) + NonEmpty(b)
    decreases |a|
  {
    if |a| > 0 {
      assert (a + b)[1..] == a[1..] + b;
      NonEmptyAppend(a[1..], b);
    } else {
      assert a + b == b;
    }
  }

  /** Lines that are all non-empty pass the filter unchanged. */
  lemma {:induction false} NonEmptyKeepsAll(lines: seq<string>)
    requires forall i :: 0 <= i < |lines| ==> lines[i] != ""
    ensures NonEmpty(lines) == lines
    decreases |lines|
  {
    if |lines| > 0 {
      NonEmptyKeepsAll(lines[1..]);
      assert [lines[0]] + lines[1..] == lines;
    }
  }

  /** `toMarkdown` */
  function ToMarkdown(a: Adversary): string {
    Join(NonEmpty(MarkdownLines(a)), "\n")
  }

  /** Filtering keeps a non-empty last line last. */
  lemma NonEmptyKeepsLast(lines: seq<string>)
    requires |lines| >= 1 && lines[|lines| - 1] != ""
    ensures |NonEmpty(lines)| >= 1
    ensures NonEmpty(lines)[|NonEmpty(lines)| - 1] == lines[|lines| - 1]
  {
    var init := lines[..|lines| - 1];
    assert lines == init + [lines[|lines| - 1]];
    NonEmptyAppend(init, [lines[|lines| - 1]]);
  }

  /** The block ends with "FEATURES" followed by one line per feature, in order. */
  lemma MarkdownEndsWithFeatures(a: Adversary)
    ensures NonEmpty(MarkdownLines(a)) == NonEmpty(HeaderLines(a)) + FeatureLines(a.features)
    ensures |NonEmpty(HeaderLines(a))| >= 1
    ensures NonEmpty(HeaderLines(a))[|NonEmpty(HeaderLines(a))| - 1] == "FEATURES"
  {
    var head := HeaderLines(a);
    var lines := FeatureLines(a.features);
    NonEmptyAppend(head, lines);
    forall i | 0 <= i < |lines|
      ensures lines[i] != ""
    {
      var f := a.features[i];
      assert LabelledLine(f.name, KindText(f.kind), f.Text())[..|f.name| + 3] == f.name + " - ";
    }
    NonEmptyKeepsAll(lines);
    NonEmptyKeepsLast(head);
  }

  /** Counting from the end: "FEATURES", then exactly the feature lines. */
  lemma MarkdownFeatureSuffix(a: Adversary)
    ensures
      var lines := NonEmpty(MarkdownLines(a));
      && |lines| >= |a.features| + 1
      && lines[|lines| - |a.features| - 1] == "FEATURES"
      && lines[|lines| - |a.features|..] == FeatureLines(a.features)
  {
    MarkdownEndsWithFeatures(a);
    var head := NonEmpty(HeaderLines(a));
    var lines := NonEmpty(MarkdownLines(a));
    assert lines[|head| - 1] == head[|head| - 1];
    assert lines[|head|..] == FeatureLines(a.features);
  }

  /** A stat block whose fields hold no line breaks splits back into exactly its non-empty lines. */
  lemma MarkdownLinesRoundTrip(a: Adversary)
    requires forall i :: 0 <= i < |MarkdownLines(a)| ==> '\n' !in MarkdownLines(a)[i]
    ensures Split(ToMarkdown(a), '\n') == NonEmpty(MarkdownLines(a))
  {
    var kept := NonEmpty(MarkdownLines(a));
    MarkdownEndsWithFeatures(a);
    assert |kept| >= 1;
    SplitJoin(kept, '\n');
  }

  /** A named adversary's stat block opens with its name in capitals. */
  lemma MarkdownOpensWithName(a: Adversary)
    requires a.name != ""
    ensures NonEmpty(MarkdownLines(a))[0] == Upper(a.name)
  {
    assert HeaderLines(a)[0] == Upper(a.name);
    assert MarkdownLines(a)[0] == Upper(a.name);
  }
}
