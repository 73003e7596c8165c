/** String helpers shared by every component: the JavaScript notions of whitespace,
    ASCII case mapping, substring search, splitting, joining and decimal text.
    Searches are written position by position so that they also evaluate on literals. */
module Text {

  /** JavaScript's WhiteSpace and LineTerminator characters: the set that `\s`
      matches and that `String.prototype.trim` removes. */
  predicate IsSpace(c: char) {
    || c == ' ' || c == '\t' || c == '\n' || c == '\r' || c == '\U{000B}' || c == '\U{000C}'
    || c == '\U{00A0}' || c == '\U{1680}' || ('\U{2000}' <= c <= '\U{200A}')
    || c == '\U{2028}' || c == '\U{2029}' || c == '\U{202F}' || c == '\U{205F}'
    || c == '\U{3000}' || c == '\U{FEFF}'
  }

  predicate IsDigit(c: char) { '0' <= c <= '9' }

  /** The characters `\w` matches; `\b` sits between one of these and anything else. */
  predicate IsWordChar(c: char) { 'a' <= c <= 'z' || 'A' <= c <= 'Z' || IsDigit(c) || c == '_' }

  predicate AllDigits(s: string) { forall i :: 0 <= i < |s| ==> IsDigit(s[i]) }

  function LowerChar(c: char): char { if 'A' <= c <= 'Z' then (c as int + 32) as char else c }

  function UpperChar(c: char): char { if 'a' <= c <= 'z' then (c as int - 32) as char else c }

  /** ASCII `toLowerCase`. */
  function Lower(s: string): (r: string)
    ensures |r| == |s|
    ensures forall i :: 0 <= i < |s| ==> r[i] == LowerChar(s[i])
  {
    seq(|s|, i requires 0 <= i < |s| => LowerChar(s[i]))
  }

  /** ASCII `toUpperCase`. */
  function Upper(s: string): (r: string)
    ensures |r| == |s|
    ensures forall i :: 0 <= i < |s| ==> r[i] == UpperChar(s[i])
  {
    seq(|s|, i requires 0 <= i < |s| => UpperChar(s[i]))
  }

  lemma LowerIdempotent(s: string)
    ensures Lower(Lower(s)) == Lower(s)
  {
  }

  // ---------- searching ----------

  /** The characters sub[j..] sit at s[i + j..]; the character-by-character
      recursion is what lets the verifier evaluate a search on literal text. */
  predicate MatchFrom(s: string, sub: string, i: nat, j: nat)
    requires j <= |sub|
    decreases |sub| - j
  {
    j == |sub| || (i + j < |s| && s[i + j] == sub[j] && MatchFrom(s, sub, i, j + 1))
  }

  lemma MatchFromIff(s: string, sub: string, i: nat, j: nat)
    requires j <= |sub| && i + |sub| <= |s|
    ensures MatchFrom(s, sub, i, j) <==> s[i + j..i + |sub|] == sub[j..]
    decreases |sub| - j
  {
    if j < |sub| {
      MatchFromIff(s, sub, i, j + 1);
      assert s[i + j..i + |sub|] == [s[i + j]] + s[i + j + 1..i + |sub|];
      assert sub[j..] == [sub[j]] + sub[j + 1..];
    }
  }

  /** `sub` occurs in `s` starting at index `i`. */
  predicate OccursAt(s: string, sub: string, i: nat) {
    i + |sub| <= |s| && MatchFrom(s, sub, i, 0)
  }

  lemma OccursAtIff(s: string, sub: string, i: nat)
    ensures OccursAt(s, sub, i) <==> i + |sub| <= |s| && s[i..i + |sub|] == sub
  {
    if i + |sub| <= |s| {
      MatchFromIff(s, sub, i, 0);
    }
  }

  /** `sub` occurs in `s` at some index at or after `i`. */
  predicate ContainsFrom(s: string, sub: string, i: nat)
    decreases |s| - i
  {
    OccursAt(s, sub, i) || (i < |s| && ContainsFrom(s, sub, i + 1))
  }

  lemma {:induction false} ContainsFromIff(s: string, sub: string, i: nat)
    ensures ContainsFrom(s, sub, i) <==> exists k :: i <= k <= |s| && OccursAt(s, sub, k)
    decreases |s| - i
  {
    if i < |s| {
      ContainsFromIff(s, sub, i + 1);
    }
  }

  /** `s.includes(sub)`. */
  predicate Contains(s: string, sub: string) {
    ContainsFrom(s, sub, 0)
  }

  /** `s.includes(sub)` holds exactly when `sub` occurs at some index. */
  lemma ContainsIff(s: string, sub: string)
    ensures Contains(s, sub) <==> exists k :: 0 <= k <= |s| && OccursAt(s, sub, k)
  {
    ContainsFromIff(s, sub, 0);
  }

  /** Some keyword of subs[k..] occurs in `s`. */
  predicate ContainsAnyFrom(s: string, subs: seq<string>, k: nat)
    decreases |subs| - k
  {
    k < |subs| && (Contains(s, subs[k]) || ContainsAnyFrom(s, subs, k + 1))
  }

  /** A regular-expression alternation of literal keywords, tested on `s`. */
  predicate ContainsAny(s: string, subs: seq<string>) {
    ContainsAnyFrom(s, subs, 0)
  }

  lemma {:induction false} ContainsAnyFromIff(s: string, subs: seq<string>, k: nat)
    ensures ContainsAnyFrom(s, subs, k) <==> exists j :: k <= j < |subs| && Contains(s, subs[j])
    decreases |subs| - k
  {
    if k < |subs| {
      ContainsAnyFromIff(s, subs, k + 1);
    }
  }

  /** The alternation matches exactly when one of its keywords occurs. */
  lemma ContainsAnyIff(s: string, subs: seq<string>)
    ensures ContainsAny(s, subs) <==> exists j :: 0 <= j < |subs| && Contains(s, subs[j])
  {
    ContainsAnyFromIff(s, subs, 0);
  }

  /** `s.startsWith(p)`. */
  predicate StartsWith(s: string, p: string)
    ensures StartsWith(s, p) <==> |p| <= |s| && s[..|p|] == p
  {
    OccursAtIff(s, p, 0);
    OccursAt(s, p, 0)
  }

  /** `w` occurs at `i` with a `\b` boundary on both sides (w starts and ends with word characters). */
  predicate WordAt(s: string, w: string, i: nat) {
    && OccursAt(s, w, i)
    && (i == 0 || !IsWordChar(s[i - 1]))
    && (i + |w| == |s| || !IsWordChar(s[i + |w|]))
  }

  predicate ContainsWordFrom(s: string, w: string, i: nat)
    ensures ContainsWordFrom(s, w, i) <==> exists k :: i <= k <= |s| && WordAt(s, w, k)
    decreases |s| - i
  {
    WordAt(s, w, i) || (i < |s| && ContainsWordFrom(s, w, i + 1))
  }

  /** `/\bw\b/` tested on `s`. */
  predicate ContainsWord(s: string, w: string) {
    ContainsWordFrom(s, w, 0)
  }

  lemma WordImpliesContains(s: string, w: string)
    requires ContainsWord(s, w)
    ensures Contains(s, w)
  {
    var k :| 0 <= k <= |s| && WordAt(s, w, k);
    ContainsIff(s, w);
  }

  /** The first index at or after `i` holding `c`, or -1. */
  function IndexOfFrom(s: string, c: char, i: nat): (r: int)
    ensures r == -1 || (i <= r < |s| && s[r] == c)
    ensures r == -1 ==> forall k :: i <= k < |s| ==> s[k] != c
    ensures r != -1 ==> forall k :: i <= k < r ==> s[k] != c
    decreases |s| - i
  {
    if i >= |s| then -1 else if s[i] == c then i else IndexOfFrom(s, c, i + 1)
  }

  /** `s.indexOf(c)`. */
  function IndexOf(s: string, c: char): (r: int)
    ensures r == -1 <==> c !in s
    ensures r != -1 ==> 0 <= r < |s| && s[r] == c && c !in s[..r]
  {
    IndexOfFrom(s, c, 0)
  }

  // ---------- trimming ----------

  function TrimStart(s: string): (r: string)
    ensures |r| <= |s| && r == s[|s| - |r|..]
    ensures r == [] || !IsSpace(r[0])
    ensures forall k :: 0 <= k < |s| - |r| ==> IsSpace(s[k])
  {
    if |s| > 0 && IsSpace(s[0]) then TrimStart(s[1..]) else s
  }

  function TrimEnd(s: string): (r: string)
    ensures |r| <= |s| && r == s[..|r|]
    ensures r == [] || !IsSpace(r[|r| - 1])
    ensures forall k :: |r| <= k < |s| ==> IsSpace(s[k])
  {
    if |s| > 0 && IsSpace(s[|s| - 1]) then TrimEnd(s[..|s| - 1]) else s
  }

  /** `s.trim()`. */
  function Trim(s: string): (r: string)
    ensures |r| <= |s|
    ensures r == [] || (!IsSpace(r[0]) && !IsSpace(r[|r| - 1]))
  {
    TrimEnd(TrimStart(s))
  }

  /** Trimming text that neither starts nor ends with a blank changes nothing. */
  lemma TrimUnchanged(s: string)
    requires s == [] || (!IsSpace(s[0]) && !IsSpace(s[|s| - 1]))
    ensures Trim(s) == s
  {
  }

  predicate IsBlank(s: string) { forall k :: 0 <= k < |s| ==> IsSpace(s[k]) }

  lemma TrimEmptyIffBlank(s: string)
    ensures Trim(s) == [] <==> IsBlank(s)
  {
    var t := TrimStart(s);
    if t != [] {
      assert !IsSpace(t[0]);
      assert TrimEnd(t) != [];
      assert !IsSpace(s[|s| - |t|]);
    }
  }

  // ---------- joining and splitting ----------

  /** `parts.join(sep)`. */
  function Join(parts: seq<string>, sep: string): (r: string)
    ensures |parts| == 1 ==> r == parts[0]
    decreases |parts|
  {
    if |parts| == 0 then "" else if |parts| == 1 then parts[0] else parts[0] + sep + Join(parts[1..], sep)
  }

  /** `s.split(c)` for a one-character separator: the pieces between the separators. */
  function Split(s: string, c: char): (parts: seq<string>)
    ensures |parts| >= 1
    ensures forall k :: 0 <= k < |parts| ==> c !in parts[k]
    ensures c in s ==> |parts| >= 2
    decreases |s|
  {
    var k := IndexOf(s, c);
    if k == -1 then [s] else [s[..k]] + Split(s[k + 1..], c)
  }

  /** Joining the pieces back with the separator restores the text. */
  lemma {:induction false} JoinSplit(s: string, c: char)
    ensures Join(Split(s, c), [c]) == s
    decreases |s|
  {
    var k := IndexOf(s, c);
    if k != -1 {
      JoinSplit(s[k + 1..], c);
      var rest := Split(s[k + 1..], c);
      assert Split(s, c) == [s[..k]] + rest;
      assert ([s[..k]] + rest)[1..] == rest;
      assert s == s[..k] + [c] + s[k + 1..];
    }
  }

  /** Splitting a join on a separator that no part contains gives the parts back. */
  lemma {:induction false} SplitJoin(parts: seq<string>, c: char)
    requires |parts| >= 1
    requires forall k :: 0 <= k < |parts| ==> c !in parts[k]
    ensures Split(Join(parts, [c]), c) == parts
    decreases |parts|
  {
    if |parts| >= 2 {
      var p0 := parts[0];
      var rest := Join(parts[1..], [c]);
      var s := p0 + [c] + rest;
      assert Join(parts, [c]) == s;
      assert s[|p0|] == c;
      var k := IndexOf(s, c);
      assert k == |p0|;
      assert s[..k] == p0;
      assert s[k + 1..] == rest;
      SplitJoin(parts[1..], c);
    }
  }

  lemma SliceHolds(s: string, i: nat, n: nat, p: nat)
    requires i <= p < i + n <= |s|
    ensures s[p] in s[i..i + n]
  {
    assert s[i..i + n][p - i] == s[p];
  }

  /** A keyword without the separator occurs in a join only inside one of the parts. */
  lemma {:induction false} ContainsJoin(parts: seq<string>, sep: char, sub: string)
    requires sep !in sub
    ensures Contains(Join(parts, [sep]), sub) ==> sub == [] || exists k :: 0 <= k < |parts| && Contains(parts[k], sub)
    decreases |parts|
  {
    if |parts| >= 2 && sub != [] && Contains(Join(parts, [sep]), sub) {
      var rest := Join(parts[1..], [sep]);
      var a := parts[0];
      var s := a + [sep] + rest;
      ContainsIff(s, sub);
      var i :| 0 <= i <= |s| && OccursAt(s, sub, i);
      OccursAtIff(s, sub, i);
      if i + |sub| <= |a| {
        assert s[i..i + |sub|] == a[i..i + |sub|];
        OccursAtIff(a, sub, i);
        ContainsIff(a, sub);
      } else if i > |a| {
        assert s[i..i + |sub|] == rest[i - |a| - 1..i - |a| - 1 + |sub|];
        OccursAtIff(rest, sub, i - |a| - 1);
        ContainsIff(rest, sub);
        ContainsJoin(parts[1..], sep, sub);
        var k :| 0 <= k < |parts[1..]| && Contains(parts[1..][k], sub);
        assert Contains(parts[k + 1], sub);
      } else {
        SliceHolds(s, i, |sub|, |a|);
        assert false;
      }
    }
  }

  lemma ContainsConcat(a: string, b: string, sub: string)
    ensures Contains(a, sub) ==> Contains(a + b, sub)
    ensures Contains(b, sub) ==> Contains(a + b, sub)
  {
    ContainsIff(a, sub);
    ContainsIff(b, sub);
    ContainsIff(a + b, sub);
    if Contains(a, sub) {
      var i :| 0 <= i <= |a| && OccursAt(a, sub, i);
      OccursAtIff(a, sub, i);
      assert (a + b)[i..i + |sub|] == a[i..i + |sub|];
      OccursAtIff(a + b, sub, i);
    }
    if Contains(b, sub) {
      var j :| 0 <= j <= |b| && OccursAt(b, sub, j);
      OccursAtIff(b, sub, j);
      assert (a + b)[|a| + j..|a| + j + |sub|] == b[j..j + |sub|];
      OccursAtIff(a + b, sub, |a| + j);
    }
  }

  /** ...and each part's occurrence is one of the join's. */
  lemma {:induction false} JoinContains(parts: seq<string>, sep: string, k: nat, sub: string)
    requires k < |parts| && Contains(parts[k], sub)
    ensures Contains(Join(parts, sep), sub)
    decreases |parts|
  {
    if |parts| >= 2 {
      var rest := Join(parts[1..], sep);
      assert Join(parts, sep) == parts[0] + (sep + rest);
      if k == 0 {
        ContainsConcat(parts[0], sep + rest, sub);
      } else {
        JoinContains(parts[1..], sep, k - 1, sub);
        ContainsConcat(sep, rest, sub);
        ContainsConcat(parts[0], sep + rest, sub);
      }
    }
  }

  // ---------- decimal text ----------

  function DigitValue(c: char): nat requires IsDigit(c) { c as int - '0' as int }

  /** The value of a run of decimal digits. */
  function DigitsValue(s: string): nat
    requires AllDigits(s)
    decreases |s|
  {
    if |s| == 0 then 0 else DigitsValue(s[..|s| - 1]) * 10 + DigitValue(s[|s| - 1])
  }

  function DigitChar(d: nat): char requires d < 10 { ('0' as int + d) as char }

  /** JavaScript's decimal text of a non-negative integer. */
  function NatToString(n: nat): (r: string)
    ensures |r| >= 1 && AllDigits(r)
    ensures r[0] != '0' || n == 0
  {
    if n < 10 then [DigitChar(n)] else NatToString(n / 10) + [DigitChar(n % 10)]
  }

  /** JavaScript's decimal text of an integer. */
  function IntToString(i: int): string {
    if i < 0 then "-" + NatToString(-i) else NatToString(i)
  }

  /** Reading back the decimal text gives the number. */
  lemma {:induction false} NatToStringRoundTrip(n: nat)
    ensures DigitsValue(NatToString(n)) == n
  {
    if n >= 10 {
      NatToStringRoundTrip(n / 10);
      var s := NatToString(n);
      assert s[..|s| - 1] == NatToString(n / 10);
    }
  }

  // ---------- replacing ----------

  /** `s.replace(/\s+/g, rep)`: every maximal run of blanks becomes one `rep`. */
  function ReplaceSpaceRuns(s: string, rep: string): (r: string)
    ensures (forall k :: 0 <= k < |rep| ==> !IsSpace(rep[k])) ==> forall k :: 0 <= k < |r| ==> !IsSpace(r[k])
    decreases |s|
  {
    if s == [] then []
    else if IsSpace(s[0]) then rep + ReplaceSpaceRuns(TrimStart(s), rep)
    else [s[0]] + ReplaceSpaceRuns(s[1..], rep)
  }

  /** Text without blanks passes through unchanged. */
  lemma {:induction false} ReplaceSpaceRunsUnchanged(s: string, rep: string)
    requires forall k :: 0 <= k < |s| ==> !IsSpace(s[k])
    ensures ReplaceSpaceRuns(s, rep) == s
    decreases |s|
  {
    if s != [] {
      ReplaceSpaceRunsUnchanged(s[1..], rep);
    }
  }
}
