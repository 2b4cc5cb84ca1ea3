/** The JavaScript string and array built-ins the analyzer relies on:
    `split` by a character class with `+`, `trim`, `toLowerCase`, `join`,
    `includes`, `filter` and `slice`. A Dafny `string` is a sequence of
    Unicode scalar values; `CodeUnits` gives the UTF-16 code units that a
    JavaScript string holds, and `Utf16Length` is its `length`. Case mapping
    covers ASCII letters only. */
module Text {

  /** `\w`: ASCII letters, digits and underscore. */
  predicate IsWordChar(c: char) {
    ('a' <= c <= 'z') || ('A' <= c <= 'Z') || ('0' <= c <= '9') || c == '_'
  }

  /** `\W`. */
  predicate IsNonWordChar(c: char) {
    !IsWordChar(c)
  }

  /** `\s`, which is also the set of characters `trim` removes. */
  predicate IsSpace(c: char) {
    c == ' ' || c == '\t' || c == '\n' || c == '\r' || c == '\U{000B}' || c == '\U{000C}'
    || c == '\U{00A0}' || c == '\U{1680}' || ('\U{2000}' <= c <= '\U{200A}')
    || c == '\U{2028}' || c == '\U{2029}' || c == '\U{202F}' || c == '\U{205F}'
    || c == '\U{3000}' || c == '\U{FEFF}'
  }

  /** `[.!?]`. */
  predicate IsSentenceEnd(c: char) {
    c == '.' || c == '!' || c == '?'
  }

  /** What `.` does not match: the line terminators. */
  predicate IsLineTerminator(c: char) {
    c == '\n' || c == '\r' || c == '\U{2028}' || c == '\U{2029}'
  }

  // ----- UTF-16 -----

  /** The UTF-16 code units of one character: the character itself below
      U+10000, otherwise its surrogate pair. */
  function CharUnits(c: char): (r: seq<int>)
    ensures 1 <= |r| <= 2
    ensures |r| == 1 <==> c as int <= 0xFFFF
    ensures |r| == 1 ==> r[0] == c as int
    ensures |r| == 2 ==> 0xD800 <= r[0] < 0xDC00 <= r[1] < 0xE000
  {
    if c as int <= 0xFFFF then [c as int]
    else [0xD800 + (c as int - 0x10000) / 0x400, 0xDC00 + (c as int - 0x10000) % 0x400]
  }

  /** The code units of a JavaScript string, character by character. */
  function CodeUnits(s: string): seq<int>
    decreases |s|
  {
    if s == [] then [] else CharUnits(s[0]) + CodeUnits(s[1..])
  }

  /** `s.length`: the number of UTF-16 code units, one per character below
      U+10000 and two (a surrogate pair) for each character above. */
  function Utf16Length(s: string): nat
    decreases |s|
  {
    if s == [] then 0
    else (if s[0] as int <= 0xFFFF then 1 else 2) + Utf16Length(s[1..])
  }

  /** `Utf16Length` counts the units `CodeUnits` produces. */
  lemma {:induction false} CodeUnitsLength(s: string)
    ensures |CodeUnits(s)| == Utf16Length(s)
    decreases |s|
  {
    if s != [] {
      CodeUnitsLength(s[1..]);
    }
  }

  /** A surrogate pair is read back as the character it encodes. */
  lemma CharUnitsDecode(c: char)
    requires c as int > 0xFFFF
    ensures var u := CharUnits(c);
      0x10000 + (u[0] - 0xD800) * 0x400 + (u[1] - 0xDC00) == c as int
  {
  }

  /** The code units of a concatenation are those of its parts. */
  lemma {:induction false} CodeUnitsAppend(a: string, b: string)
    ensures CodeUnits(a + b) == CodeUnits(a) + CodeUnits(b)
    decreases |a|
  {
    if a != [] {
      assert (a + b)[1..] == a[1..] + b;
      CodeUnitsAppend(a[1..], b);
      var x, y, z := CharUnits(a[0]), CodeUnits(a[1..]), CodeUnits(b);
      assert CodeUnits(a + b) == x + (y + z);
      assert x + (y + z) == (x + y) + z;
    } else {
      assert a + b == b;
    }
  }

  /** A string has at least as many code units as characters and at most
      twice as many; exactly as many when every character lies below
      U+10000. */
  lemma {:induction false} Utf16LengthBounds(s: string)
    ensures |s| <= Utf16Length(s) <= 2 * |s|
    ensures Utf16Length(s) == |s| <==> forall i :: 0 <= i < |s| ==> s[i] as int <= 0xFFFF
    decreases |s|
  {
    if s != [] {
      Utf16LengthBounds(s[1..]);
      if s[0] as int <= 0xFFFF {
        forall i | 0 < i < |s| && s[i] as int > 0xFFFF ensures Utf16Length(s) != |s| {
          assert s[1..][i - 1] == s[i];
        }
      }
      if forall i :: 0 <= i < |s[1..]| ==> s[1..][i] as int <= 0xFFFF {
        assert forall i :: 0 < i < |s| ==> s[i] == s[1..][i - 1];
      }
    }
  }

  function DropWhile(s: string, p: char -> bool): (r: string)
    ensures |r| <= |s| && r == s[|s| - |r|..]
    ensures r == [] || !p(r[0])
    ensures forall i :: 0 <= i < |s| - |r| ==> p(s[i])
  {
    if s == [] || !p(s[0]) then s else DropWhile(s[1..], p)
  }

  /** `s.split(/X+/)` where X is the class `sep`: the pieces between maximal
      runs of separators, including an empty first or last piece when `s`
      starts or ends with a separator. */
  function Split(s: string, sep: char -> bool): (r: seq<string>)
    ensures |r| >= 1
    decreases |s|
  {
    if s == [] then [""]
    else if sep(s[0]) then [""] + Split(DropWhile(s[1..], sep), sep)
    else
      var rest := Split(s[1..], sep);
      [[s[0]] + rest[0]] + rest[1..]
  }

  /** No piece of a split contains a separator, and every character of a
      piece comes from the split string. */
  lemma {:induction false} SplitPieces(s: string, sep: char -> bool)
    ensures forall k, j :: 0 <= k < |Split(s, sep)| && 0 <= j < |Split(s, sep)[k]| ==>
      !sep(Split(s, sep)[k][j]) && Split(s, sep)[k][j] in s
  {
    var r := Split(s, sep);
    if s == [] {
    } else if sep(s[0]) {
      var t := DropWhile(s[1..], sep);
      SplitPieces(t, sep);
      var tail := Split(t, sep);
      assert r == [""] + tail;
      forall k, j | 0 <= k < |r| && 0 <= j < |r[k]|
        ensures !sep(r[k][j]) && r[k][j] in s
      {
        assert r[k] == tail[k - 1];
        assert t == s[1..][|s[1..]| - |t|..];
        assert r[k][j] in t;
      }
    } else {
      SplitPieces(s[1..], sep);
      var rest := Split(s[1..], sep);
      assert r == [[s[0]] + rest[0]] + rest[1..];
      forall k, j | 0 <= k < |r| && 0 <= j < |r[k]|
        ensures !sep(r[k][j]) && r[k][j] in s
      {
        if k == 0 {
          if j > 0 {
            assert r[0][j] == rest[0][j - 1];
            assert r[0][j] in s[1..];
          }
        } else {
          assert r[k] == rest[k];
          assert r[k][j] in s[1..];
        }
      }
    }
  }

  function TrimStart(s: string): string {
    DropWhile(s, IsSpace)
  }

  function TrimEnd(s: string): (r: string)
    ensures |r| <= |s| && r == s[..|r|]
    ensures r == [] || !IsSpace(r[|r| - 1])
  {
    if s == [] || !IsSpace(s[|s| - 1]) then s else TrimEnd(s[..|s| - 1])
  }

  /** `s.trim()`. */
  function Trim(s: string): string {
    TrimEnd(TrimStart(s))
  }

  function ToLowerChar(c: char): char {
    if 'A' <= c <= 'Z' then (c as int + 32) as char else c
  }

  /** `s.toLowerCase()` on ASCII letters; other characters are kept. */
  function ToLower(s: string): (r: string)
    ensures |r| == |s|
    ensures forall i :: 0 <= i < |s| ==> r[i] == ToLowerChar(s[i])
    ensures forall i :: 0 <= i < |r| ==> !('A' <= r[i] <= 'Z')
    ensures forall i :: 0 <= i < |s| ==> (r[i] != s[i] <==> 'A' <= s[i] <= 'Z')
  {
    seq(|s|, i requires 0 <= i < |s| => ToLowerChar(s[i]))
  }

  /** Lower-casing twice is lower-casing once. */
  lemma ToLowerIdempotent(s: string)
    ensures ToLower(ToLower(s)) == ToLower(s)
  {
  }

  /** `parts.join(sep)`. */
  function Join(parts: seq<string>, sep: string): string {
    if parts == [] then ""
    else if |parts| == 1 then parts[0]
    else parts[0] + sep + Join(parts[1..], sep)
  }

  predicate StartsWith(s: string, prefix: string) {
    |prefix| <= |s| && s[..|prefix|] == prefix
  }

  /** `s.includes(sub)`. */
  predicate Contains(s: string, sub: string)
    decreases |s|
  {
    StartsWith(s, sub) || (s != [] && Contains(s[1..], sub))
  }

  /** A text that contains `sub` contains every prefix of it. */
  lemma {:induction false} ContainsPrefix(s: string, sub: string, k: nat)
    requires k <= |sub| && Contains(s, sub)
    ensures Contains(s, sub[..k])
    decreases |s|
  {
    if StartsWith(s, sub) {
      assert s[..k] == sub[..k];
    } else {
      ContainsPrefix(s[1..], sub, k);
    }
  }

  /** A piece that occurs in `s` occurs in every text that has `s` as a factor. */
  lemma {:induction false} ContainsInPrefix(s: string, t: string, sub: string)
    requires Contains(s, sub)
    ensures Contains(s + t, sub)
    decreases |s|
  {
    if StartsWith(s, sub) {
      assert (s + t)[..|sub|] == s[..|sub|];
    } else {
      assert (s + t)[1..] == s[1..] + t;
      ContainsInPrefix(s[1..], t, sub);
    }
  }

  /** Number of occurrences of `c` in `s`, i.e. the length of `s.match(/c/g)`. */
  function CountChar(s: string, c: char): nat {
    if s == [] then 0 else (if s[0] == c then 1 else 0) + CountChar(s[1..], c)
  }

  /** `s.filter(p)`. */
  function Filter<T(==)>(s: seq<T>, p: T -> bool): (r: seq<T>)
    ensures |r| <= |s|
    ensures forall i :: 0 <= i < |r| ==> r[i] in s && p(r[i])
    ensures forall i :: 0 <= i < |s| && p(s[i]) ==> s[i] in r
  {
    if s == [] then []
    else if p(s[0]) then [s[0]] + Filter(s[1..], p)
    else Filter(s[1..], p)
  }

  /** `s.slice(0, n)` for a non-negative n. */
  function Take<T>(s: seq<T>, n: nat): (r: seq<T>)
    ensures |r| <= n && |r| <= |s|
    ensures r == s[..|r|]
    ensures |s| <= n ==> r == s
  {
    if |s| <= n then s else s[..n]
  }

  /** `a` keeps some of the elements of `b`, in the same order. */
  predicate IsSubsequence<T(==)>(a: seq<T>, b: seq<T>)
    decreases |b|
  {
    if a == [] then true
    else if b == [] then false
    else if a[0] == b[0] then IsSubsequence(a[1..], b[1..])
    else IsSubsequence(a, b[1..])
  }

  lemma {:induction false} FilterIsSubsequence<T>(s: seq<T>, p: T -> bool)
    ensures IsSubsequence(Filter(s, p), s)
  {
    if s != [] {
      FilterIsSubsequence(s[1..], p);
    }
  }

  lemma {:induction false} SubsequenceLength<T>(a: seq<T>, b: seq<T>)
    requires IsSubsequence(a, b)
    ensures |a| <= |b|
    decreases |b|
  {
    if a != [] && b != [] {
      if a[0] == b[0] { SubsequenceLength(a[1..], b[1..]); } else { SubsequenceLength(a, b[1..]); }
    }
  }

  predicate NoDuplicates<T(==)>(s: seq<T>) {
    forall i, j :: 0 <= i < j < |s| ==> s[i] != s[j]
  }

  lemma {:induction false} FilterKeepsNoDuplicates<T>(s: seq<T>, p: T -> bool)
    requires NoDuplicates(s)
    ensures NoDuplicates(Filter(s, p))
  {
    if s != [] {
      FilterKeepsNoDuplicates(s[1..], p);
      assert s[0] !in s[1..];
    }
  }

  /** The distinct elements of `s` in order of first occurrence: the key
      order of a JavaScript object or Set filled from `s`. */
  function Distinct<T(==)>(s: seq<T>): seq<T>
    decreases |s|
  {
    if s == [] then []
    else
      var d := Distinct(s[..|s| - 1]);
      if s[|s| - 1] in d then d else d + [s[|s| - 1]]
  }

  /** `Distinct(s)` lists every element of `s` exactly once. */
  lemma {:induction false} DistinctSpec<T>(s: seq<T>)
    ensures NoDuplicates(Distinct(s))
    ensures forall x :: x in Distinct(s) <==> x in s
    ensures |Distinct(s)| <= |s|
    ensures s != [] ==> |Distinct(s)| >= 1
    decreases |s|
  {
    if s != [] {
      var init := s[..|s| - 1];
      DistinctSpec(init);
      assert s == init + [s[|s| - 1]];
    }
  }

  /** The labels whose test holds, in label order. */
  function Selected(labels: seq<string>, tests: seq<bool>): seq<string>
    requires |tests| == |labels|
    decreases |labels|
  {
    if labels == [] then []
    else (if tests[0] then [labels[0]] else []) + Selected(labels[1..], tests[1..])
  }

  /** Selecting from distinct labels keeps their order, repeats none, and
      keeps a label exactly when its test holds. */
  lemma {:induction false} SelectedSpec(labels: seq<string>, tests: seq<bool>)
    requires |tests| == |labels| && NoDuplicates(labels)
    ensures IsSubsequence(Selected(labels, tests), labels)
    ensures NoDuplicates(Selected(labels, tests))
    ensures forall x :: x in Selected(labels, tests) ==> x in labels
    ensures forall i :: 0 <= i < |labels| ==> (labels[i] in Selected(labels, tests) <==> tests[i])
    decreases |labels|
  {
    if labels != [] {
      var rest := Selected(labels[1..], tests[1..]);
      assert NoDuplicates(labels[1..]);
      SelectedSpec(labels[1..], tests[1..]);
      assert labels[0] !in labels[1..];
      assert labels[0] !in rest;
      if tests[0] {
        assert Selected(labels, tests) == [labels[0]] + rest;
        assert ([labels[0]] + rest)[1..] == rest;
      } else {
        assert Selected(labels, tests) == rest;
        if rest != [] {
          assert rest[0] in rest;
          assert rest[0] != labels[0];
        }
      }
      forall i | 0 <= i < |labels|
        ensures labels[i] in Selected(labels, tests) <==> tests[i]
      {
        if i > 0 {
          assert labels[i] == labels[1..][i - 1];
          assert labels[i] != labels[0];
        }
      }
    }
  }

  /** Selection one label at a time, from the back: what a list that pushes
      each selected label in turn holds. */
  lemma {:induction false} SelectedSteps(labels: seq<string>, tests: seq<bool>)
    requires |tests| == |labels| && labels != []
    ensures Selected(labels, tests) ==
      Selected(labels[..|labels| - 1], tests[..|tests| - 1]) + (if tests[|tests| - 1] then [labels[|labels| - 1]] else [])
    decreases |labels|
  {
    if |labels| == 1 {
      assert labels[1..] == [];
    } else {
      SelectedSteps(labels[1..], tests[1..]);
      assert labels[1..][..|labels| - 2] == labels[..|labels| - 1][1..];
      assert tests[1..][..|tests| - 2] == tests[..|tests| - 1][1..];
    }
  }
}
