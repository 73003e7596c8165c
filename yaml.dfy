/** `ConverterUtils._toYAML`: a JavaScript object rendered as indented `key: value` lines. */
module Yaml {
  import opened Text

  /** The JavaScript values the serialiser meets. */
  datatype JsValue =
    | JsNull
    | JsUndefined
    | JsString(s: string)
    | JsNumber(n: int)
    | JsBool(b: bool)
    | JsArray(items: seq<JsValue>)
    | JsObject(fields: seq<(string, JsValue)>)

  /** `typeof v === 'object'` for the values `Object.entries` is applied to. */
  predicate Composite(v: JsValue) { v.JsArray? || v.JsObject? }

  /** A null array item would be handed to `Object.entries`, which throws; the serialiser is
      only defined on values without one. */
  predicate NullFree(v: JsValue)
    decreases v
  {
    match v
    case JsArray(items) => forall i :: 0 <= i < |items| ==> items[i] != JsNull && NullFree(items[i])
    case JsObject(fields) => forall i :: 0 <= i < |fields| ==> NullFree(fields[i].1)
    case _ => true
  }

  /** `${value}` of a non-object value. */
  function Scalar(v: JsValue): string {
    match v
    case JsString(s) => s
    case JsNumber(n) => IntToString(n)
    case JsBool(b) => if b then "true" else "false"
    case JsUndefined => "undefined"
    case _ => ""
  }

  function EntryCount(v: JsValue): nat {
    match v
    case JsArray(items) => |items|
    case JsObject(fields) => |fields|
    case _ => 0
  }

  /** The keys `Object.entries` gives: the field names, or an array's indices. */
  function EntryKey(v: JsValue, i: nat): string
    requires i < EntryCount(v)
  {
    if v.JsObject? then v.fields[i].0 else NatToString(i)
  }

  function EntryValue(v: JsValue, i: nat): (r: JsValue)
    requires i < EntryCount(v)
    ensures r < v
    ensures NullFree(v) ==> NullFree(r)
  {
    if v.JsObject? then
      assert v.fields[i] in v.fields;
      v.fields[i].1
    else v.items[i]
  }

  /** `'  '.repeat(indent)` */
  function Spaces(n: nat): (s: string)
    ensures |s| == 2 * n
    ensures forall k :: 0 <= k < |s| ==> s[k] == ' '
  {
    if n == 0 then "" else "  " + Spaces(n - 1)
  }

  /** The lines for the entries of `v` from the `i`-th on, at depth `n`; every line ends in "\n"
      in the output. */
  function Lines(v: JsValue, n: nat, i: nat): seq<string>
    requires Composite(v) && NullFree(v)
    decreases v, EntryCount(v) - i, 1
  {
    if i >= EntryCount(v) then [] else EntryLines(v, n, i) + Lines(v, n, i + 1)
  }

  /** The lines of the `i`-th entry: none for null or undefined, `key: []` for an empty array,
      `key:` and the items for another array, `key:` and the nested lines one level deeper for an
      object, `key: value` otherwise. */
  function EntryLines(v: JsValue, n: nat, i: nat): seq<string>
    requires Composite(v) && NullFree(v) && i < EntryCount(v)
    decreases v, EntryCount(v) - i, 0
  {
    var value := EntryValue(v, i);
    var head := Spaces(n) + EntryKey(v, i) + ":";
    match value
    case JsNull => []
    case JsUndefined => []
    case JsArray(items) => if |items| == 0 then [head + " []"] else [head] + ItemLines(value, n, 0)
    case JsObject(_) => [head] + Lines(value, n + 1, 0)
    case _ => [head + " " + Scalar(value)]
  }

  /** The lines of a non-empty array's items from the `j`-th on. */
  function ItemLines(arr: JsValue, n: nat, j: nat): seq<string>
    requires arr.JsArray? && NullFree(arr)
    decreases arr, |arr.items| - j, 1
  {
    if j >= |arr.items| then [] else ItemEntryLines(arr, n, j) + ItemLines(arr, n, j + 1)
  }

  /** The `j`-th item: `-` and its entries two levels deeper for an object or array, `- item`
      otherwise. */
  function ItemEntryLines(arr: JsValue, n: nat, j: nat): seq<string>
    requires arr.JsArray? && NullFree(arr) && j < |arr.items|
    decreases arr, |arr.items| - j, 0
  {
    var item := arr.items[j];
    if Composite(item) then [Spaces(n) + "  -"] + Lines(item, n + 2, 0)
    else [Spaces(n) + "  - " + Scalar(item)]
  }

  /** The text: each line followed by a line break. */
  function YamlText(lines: seq<string>): string
    decreases |lines|
  {
    if lines == [] then "" else lines[0] + "\n" + YamlText(lines[1..])
  }

  lemma {:induction false} TextAppend(a: seq<string>, b: seq<string>)
    ensures YamlText(a + b) == YamlText(a) + YamlText(b)
    decreases |a|
  {
    if a != [] {
      assert (a + b)[1..] == a[1..] + b;
      TextAppend(a[1..], b);
    } else {
      assert a + b == b;
    }
  }

  /** `_toYAML(obj, indent)` */
  function ToYaml(v: JsValue, indent: nat): string
    requires Composite(v) && NullFree(v)
  {
    YamlText(Lines(v, indent, 0))
  }

  // ---------- the serialiser, step by step ----------

  lemma EntryTextStep(v: JsValue, n: nat, i: nat)
    requires Composite(v) && NullFree(v) && i < EntryCount(v)
    ensures YamlText(Lines(v, n, i)) == YamlText(EntryLines(v, n, i)) + YamlText(Lines(v, n, i + 1))
  {
    TextAppend(EntryLines(v, n, i), Lines(v, n, i + 1));
  }

  lemma ItemTextStep(arr: JsValue, n: nat, j: nat)
    requires arr.JsArray? && NullFree(arr) && j < |arr.items|
    ensures YamlText(ItemLines(arr, n, j)) == YamlText(ItemEntryLines(arr, n, j)) + YamlText(ItemLines(arr, n, j + 1))
  {
    TextAppend(ItemEntryLines(arr, n, j), ItemLines(arr, n, j + 1));
  }

  /** `_toYAML`: the loop over `Object.entries(obj)` appending to `yaml`. */
  method Serialize(v: JsValue, indent: nat) returns (yaml: string)
    requires Composite(v) && NullFree(v)
    ensures yaml == ToYaml(v, indent)
    decreases v, 1
  {
    yaml := "";
    for i := 0 to EntryCount(v)
      invariant yaml + YamlText(Lines(v, indent, i)) == ToYaml(v, indent)
    {
      var piece := SerializeEntry(v, indent, i);
      EntryTextStep(v, indent, i);
      yaml := yaml + piece;
    }
  }

  /** One pass of that loop: the text for the `i`-th entry. */
  method SerializeEntry(v: JsValue, indent: nat, i: nat) returns (piece: string)
    requires Composite(v) && NullFree(v) && i < EntryCount(v)
    ensures piece == YamlText(EntryLines(v, indent, i))
    decreases v, 0
  {
    var spaces := Spaces(indent);
    var key := EntryKey(v, i);
    var value := EntryValue(v, i);
    var head := spaces + key + ":";
    if value.JsNull? || value.JsUndefined? {
      piece := "";
    } else if value.JsArray? {
      if |value.items| == 0 {
        piece := head + " []" + "\n";
        assert piece == YamlText([head + " []"]);
      } else {
        var items := SerializeItems(value, indent);
        piece := head + "\n" + items;
        TextAppend([head], ItemLines(value, indent, 0));
      }
    } else if value.JsObject? {
      var nested := Serialize(value, indent + 1);
      piece := head + "\n" + nested;
      TextAppend([head], Lines(value, indent + 1, 0));
    } else {
      piece := head + " " + Scalar(value) + "\n";
      assert piece == YamlText([head + " " + Scalar(value)]);
    }
  }

  /** The `value.forEach` over a non-empty array's items. */
  method SerializeItems(arr: JsValue, indent: nat) returns (yaml: string)
    requires arr.JsArray? && NullFree(arr)
    ensures yaml == YamlText(ItemLines(arr, indent, 0))
    decreases arr, 1
  {
    yaml := "";
    for j := 0 to |arr.items|
      invariant yaml + YamlText(ItemLines(arr, indent, j)) == YamlText(ItemLines(arr, indent, 0))
    {
      var piece := SerializeItem(arr, indent, j);
      ItemTextStep(arr, indent, j);
      yaml := yaml + piece;
    }
  }

  /** One item of that loop. */
  method SerializeItem(arr: JsValue, indent: nat, j: nat) returns (piece: string)
    requires arr.JsArray? && NullFree(arr) && j < |arr.items|
    ensures piece == YamlText(ItemEntryLines(arr, indent, j))
    decreases arr, 0
  {
    var spaces := Spaces(indent);
    var item := arr.items[j];
    if item.JsArray? || item.JsObject? {
      var nested := Serialize(item, indent + 2);
      piece := spaces + "  -" + "\n" + nested;
      TextAppend([spaces + "  -"], Lines(item, indent + 2, 0));
    } else {
      piece := spaces + "  - " + Scalar(item) + "\n";
      assert piece == YamlText([spaces + "  - " + Scalar(item)]);
    }
  }

  // ---------- properties ----------

  /** The line starts with `n` levels of indentation. */
  predicate Indented(line: string, n: nat) {
    |line| >= 2 * n && forall k :: 0 <= k < 2 * n ==> line[k] == ' '
  }

  /** Every line is indented at least as deep as the object it belongs to. */
  lemma {:induction false} LinesIndented(v: JsValue, n: nat, i: nat)
    requires Composite(v) && NullFree(v)
    ensures forall k :: 0 <= k < |Lines(v, n, i)| ==> Indented(Lines(v, n, i)[k], n)
    decreases v, EntryCount(v) - i, 1
  {
    if i < EntryCount(v) {
      EntryLinesIndented(v, n, i);
      LinesIndented(v, n, i + 1);
    }
  }

  /** An entry's first line names its key at depth `n`; the lines of a nested object or array
      below it sit at least one level deeper. A null or undefined entry has no line at all. */
  lemma {:induction false} EntryLinesIndented(v: JsValue, n: nat, i: nat)
    requires Composite(v) && NullFree(v) && i < EntryCount(v)
    ensures EntryLines(v, n, i) == [] <==> EntryValue(v, i).JsNull? || EntryValue(v, i).JsUndefined?
    ensures EntryLines(v, n, i) != [] ==> StartsWith(EntryLines(v, n, i)[0], Spaces(n) + EntryKey(v, i) + ":")
    ensures forall k :: 1 <= k < |EntryLines(v, n, i)| ==> Indented(EntryLines(v, n, i)[k], n + 1)
    ensures forall k :: 0 <= k < |EntryLines(v, n, i)| ==> Indented(EntryLines(v, n, i)[k], n)
    decreases v, EntryCount(v) - i, 0
  {
    var value := EntryValue(v, i);
    var head := Spaces(n) + EntryKey(v, i) + ":";
    var lines := EntryLines(v, n, i);
    match value
    case JsNull =>
    case JsUndefined =>
    case JsArray(items) =>
      if |items| > 0 {
        ItemLinesIndented(value, n, 0);
        assert lines == [head] + ItemLines(value, n, 0);
      } else {
        assert lines == [head + " []"];
        assert (head + " []")[..|head|] == head;
      }
    case JsObject(_) =>
      LinesIndented(value, n + 1, 0);
      assert lines == [head] + Lines(value, n + 1, 0);
    case _ =>
      assert lines == [head + " " + Scalar(value)];
      assert (head + " " + Scalar(value))[..|head|] == head;
  }

  /** The lines of an array's items sit one level below the array's key. */
  lemma {:induction false} ItemLinesIndented(arr: JsValue, n: nat, j: nat)
    requires arr.JsArray? && NullFree(arr)
    ensures forall k :: 0 <= k < |ItemLines(arr, n, j)| ==> Indented(ItemLines(arr, n, j)[k], n + 1)
    decreases arr, |arr.items| - j, 1
  {
    if j < |arr.items| {
      ItemEntryLinesIndented(arr, n, j);
      ItemLinesIndented(arr, n, j + 1);
    }
  }

  /** An item's lines start with its dash one level deeper; an object's fields come two deeper. */
  lemma {:induction false} ItemEntryLinesIndented(arr: JsValue, n: nat, j: nat)
    requires arr.JsArray? && NullFree(arr) && j < |arr.items|
    ensures |ItemEntryLines(arr, n, j)| >= 1
    ensures StartsWith(ItemEntryLines(arr, n, j)[0], Spaces(n + 1) + "-")
    ensures forall k :: 0 <= k < |ItemEntryLines(arr, n, j)| ==> Indented(ItemEntryLines(arr, n, j)[k], n + 1)
    decreases arr, |arr.items| - j, 0
  {
    var item := arr.items[j];
    assert Spaces(n + 1) + "-" == Spaces(n) + "  -";
    if Composite(item) {
      LinesIndented(item, n + 2, 0);
    } else {
      assert (Spaces(n) + "  - " + Scalar(item))[..2 * n + 3] == Spaces(n) + "  -";
    }
  }
}
