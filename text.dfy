/**
 * The string primitives the assistant relies on: JavaScript's character classes
 * `\s` and `\w`, `toLowerCase` (on ASCII), `trim`, `includes`, `split(/\s+/)`,
 * `length` in UTF-16 code units, and the message normaliser built from them.
 */
module Text {

  /** JavaScript's `\s`, which is also the set `String.prototype.trim` removes:
      the WhiteSpace and LineTerminator code points of ECMAScript. */
  predicate IsSpace(c: char) {
    var n := c as int;
    n == 0x09 || n == 0x0A || n == 0x0B || n == 0x0C || n == 0x0D || n == 0x20 || n == 0xA0
    || n == 0x1680 || (0x2000 <= n <= 0x200A) || n == 0x2028 || n == 0x2029 || n == 0x202F
    || n == 0x205F || n == 0x3000 || n == 0xFEFF
  }

  /** The characters a regular-expression `.` does not match (no `s` flag). */
  predicate IsLineTerminator(c: char) {
    var n := c as int;
    n == 0x0A || n == 0x0D || n == 0x2028 || n == 0x2029
  }

  /** JavaScript's `\w` without the `u` flag: ASCII letters, digits and underscore. */
  predicate IsWordChar(c: char) {
    'a' <= c <= 'z' || 'A' <= c <= 'Z' || '0' <= c <= '9' || c == '_'
  }

  predicate IsUpper(c: char) {
    'A' <= c <= 'Z'
  }

  /** `toLowerCase` on one character, for ASCII letters only. */
  function Lower(c: char): (r: char)
    ensures !IsUpper(r)
    ensures !IsUpper(c) ==> r == c
    ensures IsWordChar(r) <==> IsWordChar(c)
    ensures IsSpace(r) <==> IsSpace(c)
  {
    if IsUpper(c) then (c as int + 32) as char else c
  }

  /** `s.toLowerCase()`, with the ASCII case mapping. */
  function LowerStr(s: string): string {
    seq(|s|, i requires 0 <= i < |s| => Lower(s[i]))
  }

  /** `s.replace(/[^\w\s]/g, '')`: keeps word characters and whitespace, in order. */
  function KeepWordsAndSpaces(s: string): string {
    if s == [] then []
    else (if IsWordChar(s[0]) || IsSpace(s[0]) then [s[0]] else []) + KeepWordsAndSpaces(s[1..])
  }

  function TrimStart(s: string): string {
    if s != [] && IsSpace(s[0]) then TrimStart(s[1..]) else s
  }

  function TrimEnd(s: string): string {
    if s != [] && IsSpace(s[|s| - 1]) then TrimEnd(s[..|s| - 1]) else s
  }

  /** `s.trim()`. */
  function Trim(s: string): string {
    TrimEnd(TrimStart(s))
  }

  /** `normalizeText` (server/localAI.ts): lower-case, drop punctuation, trim. */
  function Normalize(text: string): string {
    Trim(KeepWordsAndSpaces(LowerStr(text)))
  }

  /** A character `normalizeText` can leave in its output. */
  predicate IsNormalChar(c: char) {
    (IsWordChar(c) || IsSpace(c)) && !IsUpper(c)
  }

  /** What `normalizeText` promises of its result: only lower-case word characters and
      whitespace, and no whitespace at either end. */
  predicate IsNormal(s: string) {
    && (forall i :: 0 <= i < |s| ==> IsNormalChar(s[i]))
    && (s != [] ==> !IsSpace(s[0]) && !IsSpace(s[|s| - 1]))
  }

  // ---------------------------------------------------------------------------
  // Properties of the normaliser

  lemma {:induction false} KeepKeepsOnlyWordsAndSpaces(s: string)
    ensures forall c :: c in KeepWordsAndSpaces(s) ==> c in s && (IsWordChar(c) || IsSpace(c))
  {
    if s != [] {
      KeepKeepsOnlyWordsAndSpaces(s[1..]);
    }
  }

  lemma {:induction false} KeepIsIdentityOnWordsAndSpaces(s: string)
    requires forall i :: 0 <= i < |s| ==> IsWordChar(s[i]) || IsSpace(s[i])
    ensures KeepWordsAndSpaces(s) == s
  {
    if s != [] {
      KeepIsIdentityOnWordsAndSpaces(s[1..]);
    }
  }

  lemma {:induction false} TrimStartShape(s: string)
    ensures exists a :: 0 <= a <= |s| && TrimStart(s) == s[a..]
    ensures TrimStart(s) != [] ==> !IsSpace(TrimStart(s)[0])
    ensures s == [] || !IsSpace(s[0]) ==> TrimStart(s) == s
  {
    if s != [] && IsSpace(s[0]) {
      TrimStartShape(s[1..]);
      var a :| 0 <= a <= |s[1..]| && TrimStart(s[1..]) == s[1..][a..];
      assert TrimStart(s) == s[1 + a..];
    } else {
      assert TrimStart(s) == s[0..];
    }
  }

  lemma {:induction false} TrimEndShape(s: string)
    ensures exists b :: 0 <= b <= |s| && TrimEnd(s) == s[..b]
    ensures TrimEnd(s) != [] ==> !IsSpace(TrimEnd(s)[|TrimEnd(s)| - 1])
    ensures s == [] || !IsSpace(s[|s| - 1]) ==> TrimEnd(s) == s
  {
    if s != [] && IsSpace(s[|s| - 1]) {
      var init := s[..|s| - 1];
      TrimEndShape(init);
      var b :| 0 <= b <= |init| && TrimEnd(init) == init[..b];
      assert TrimEnd(s) == s[..b];
    } else {
      assert TrimEnd(s) == s[..|s|];
    }
  }

  /** `trim` returns a contiguous piece of its input with no whitespace at either end,
      and leaves a string without surrounding whitespace unchanged. */
  lemma TrimShape(s: string)
    ensures exists a, b :: 0 <= a <= b <= |s| && Trim(s) == s[a..b]
    ensures Trim(s) != [] ==> !IsSpace(Trim(s)[0]) && !IsSpace(Trim(s)[|Trim(s)| - 1])
    ensures s == [] || (!IsSpace(s[0]) && !IsSpace(s[|s| - 1])) ==> Trim(s) == s
  {
    TrimStartShape(s);
    var a :| 0 <= a <= |s| && TrimStart(s) == s[a..];
    var t := TrimStart(s);
    TrimEndShape(t);
    var b :| 0 <= b <= |t| && TrimEnd(t) == t[..b];
    assert Trim(s) == s[a..a + b];
    if Trim(s) != [] {
      assert Trim(s)[0] == t[0];
    }
  }

  lemma {:induction false} TrimStartSkipsSpaces(p: string, u: string)
    requires forall i :: 0 <= i < |p| ==> IsSpace(p[i])
    ensures TrimStart(p + u) == TrimStart(u)
  {
    if p != [] {
      assert (p + u)[1..] == p[1..] + u;
      TrimStartSkipsSpaces(p[1..], u);
    } else {
      assert p + u == u;
    }
  }

  lemma {:induction false} TrimEndSkipsSpaces(v: string, p: string)
    requires forall i :: 0 <= i < |p| ==> IsSpace(p[i])
    ensures TrimEnd(v + p) == TrimEnd(v)
  {
    if p != [] {
      var q := p[..|p| - 1];
      assert (v + p)[..|v + p| - 1] == v + q;
      TrimEndSkipsSpaces(v, q);
    } else {
      assert v + p == v;
    }
  }

  /** Whitespace added around a trimmed, non-empty string is trimmed off again. */
  lemma TrimRemovesPadding(p1: string, t: string, p2: string)
    requires forall i :: 0 <= i < |p1| ==> IsSpace(p1[i])
    requires forall i :: 0 <= i < |p2| ==> IsSpace(p2[i])
    requires t != [] && !IsSpace(t[0]) && !IsSpace(t[|t| - 1])
    ensures Trim(p1 + t + p2) == t
  {
    assert p1 + t + p2 == p1 + (t + p2);
    TrimStartSkipsSpaces(p1, t + p2);
    assert TrimStart(t + p2) == t + p2;
    TrimEndSkipsSpaces(t, p2);
  }

  /** `normalizeText` returns only lower-case word characters and whitespace, with no
      whitespace at either end. */
  lemma NormalizeIsNormal(text: string)
    ensures IsNormal(Normalize(text))
  {
    var kept := KeepWordsAndSpaces(LowerStr(text));
    KeptCharsAreNormal(text);
    TrimKeepsChars(kept);
    TrimShape(kept);
  }

  lemma KeptCharsAreNormal(text: string)
    ensures forall c :: c in KeepWordsAndSpaces(LowerStr(text)) ==> IsNormalChar(c)
  {
    LowerStrHasNoUpper(text);
    KeepKeepsOnlyWordsAndSpaces(LowerStr(text));
  }

  lemma LowerStrHasNoUpper(text: string)
    ensures forall c :: c in LowerStr(text) ==> !IsUpper(c)
  {
  }

  lemma TrimKeepsChars(s: string)
    ensures forall c :: c in Trim(s) ==> c in s
  {
    TrimShape(s);
    var a, b :| 0 <= a <= b <= |s| && Trim(s) == s[a..b];
    forall c | c in Trim(s) ensures c in s {
      var i :| 0 <= i < |Trim(s)| && Trim(s)[i] == c;
      assert s[a + i] == c;
    }
  }

  /** A normal string is a fixed point of `normalizeText`. */
  lemma NormalIsFixed(s: string)
    requires IsNormal(s)
    ensures Normalize(s) == s
  {
    assert LowerStr(s) == s;
    KeepIsIdentityOnWordsAndSpaces(s);
    TrimShape(s);
  }

  /** `normalizeText` is idempotent. */
  lemma NormalizeIdempotent(text: string)
    ensures Normalize(Normalize(text)) == Normalize(text)
  {
    NormalizeIsNormal(text);
    NormalIsFixed(Normalize(text));
  }

  // ---------------------------------------------------------------------------
  // includes

  /** `s.includes(w)`: `w` occurs in `s` at some index. */
  predicate Contains(s: string, w: string) {
    ContainsFrom(s, w, 0)
  }

  predicate ContainsFrom(s: string, w: string, i: nat)
    decreases |s| - i
  {
    i + |w| <= |s| && (SameAt(s, i, w, 0) || ContainsFrom(s, w, i + 1))
  }

  /** `w[k..]` occurs in `s` at index `i + k`. */
  predicate SameAt(s: string, i: nat, w: string, k: nat)
    decreases |w| - k
  {
    k >= |w| || (i + k < |s| && s[i + k] == w[k] && SameAt(s, i, w, k + 1))
  }

  lemma {:induction false} SameAtIff(s: string, i: nat, w: string, k: nat)
    requires k <= |w| && i + |w| <= |s|
    ensures SameAt(s, i, w, k) <==> s[i + k..i + |w|] == w[k..]
    decreases |w| - k
  {
    if k < |w| {
      SameAtIff(s, i, w, k + 1);
      assert s[i + k..i + |w|] == [s[i + k]] + s[i + k + 1..i + |w|];
      assert w[k..] == [w[k]] + w[k + 1..];
    }
  }

  /** `w` occurs in `s` starting at index `j`. */
  predicate OccursAt(s: string, w: string, j: nat) {
    j + |w| <= |s| && s[j..j + |w|] == w
  }

  lemma {:induction false} ContainsFromIff(s: string, w: string, i: nat)
    ensures ContainsFrom(s, w, i) <==> exists j :: i <= j && OccursAt(s, w, j)
    decreases |s| - i
  {
    if i + |w| <= |s| {
      SameAtIff(s, i, w, 0);
      assert w[0..] == w;
      ContainsFromIff(s, w, i + 1);
      if SameAt(s, i, w, 0) {
        assert OccursAt(s, w, i);
      }
      if exists j :: i <= j && OccursAt(s, w, j) {
        var j :| i <= j && OccursAt(s, w, j);
        if j > i {
          assert i + 1 <= j;
        } else {
          assert SameAt(s, i, w, 0);
        }
      }
    }
  }

  /** `includes` means: occurs as a contiguous piece. */
  lemma ContainsIff(s: string, w: string)
    ensures Contains(s, w) <==> exists j :: OccursAt(s, w, j)
  {
    ContainsFromIff(s, w, 0);
  }

  // ---------------------------------------------------------------------------
  // split(/\s+/)

  /** The length of the run of whitespace that starts at `p`. */
  function SpaceRun(s: string, p: nat): (r: nat)
    ensures p <= |s| ==> p + r <= |s|
    ensures forall k :: p <= k < p + r ==> k < |s| && IsSpace(s[k])
    ensures p + r < |s| ==> !IsSpace(s[p + r])
    decreases |s| - p
  {
    if p < |s| && IsSpace(s[p]) then 1 + SpaceRun(s, p + 1) else 0
  }

  /** The index of the first whitespace character of `s`, or `|s|` when there is none. */
  function FirstSpace(s: string): (i: nat)
    ensures i <= |s|
    ensures forall k :: 0 <= k < i ==> !IsSpace(s[k])
    ensures i < |s| ==> IsSpace(s[i])
  {
    if s == [] || IsSpace(s[0]) then 0 else 1 + FirstSpace(s[1..])
  }

  /** `s.split(/\s+/)`: the pieces between maximal runs of whitespace; a leading or
      trailing run gives an empty first or last piece, and `""` gives `[""]`. */
  function Split(s: string): seq<string>
    decreases |s|
  {
    var i := FirstSpace(s);
    if i == |s| then [s] else [s[..i]] + Split(s[i + SpaceRun(s, i)..])
  }

  /** `w` holds no whitespace character. */
  predicate NoSpace(w: string) {
    forall k :: 0 <= k < |w| ==> !IsSpace(w[k])
  }

  /** No piece of a split contains whitespace, and there is always at least one piece. */
  lemma {:induction false} SplitPiecesHaveNoSpace(s: string)
    ensures |Split(s)| >= 1
    ensures forall j :: 0 <= j < |Split(s)| ==> NoSpace(Split(s)[j])
    decreases |s|
  {
    var i := FirstSpace(s);
    if i < |s| {
      var rest := s[i + SpaceRun(s, i)..];
      SplitPiecesHaveNoSpace(rest);
      var r := Split(rest);
      assert Split(s) == [s[..i]] + r;
      assert NoSpace(s[..i]);
      forall j | 1 <= j < |Split(s)| ensures Split(s)[j] == r[j - 1] { }
    } else {
      assert Split(s) == [s];
    }
  }

  /** A string without whitespace splits into itself alone. */
  lemma SplitOfWord(s: string)
    requires NoSpace(s)
    ensures Split(s) == [s]
  {
  }

  // ---------------------------------------------------------------------------
  // length

  /** `s.length`: UTF-16 code units, two for a character outside the Basic Multilingual Plane. */
  function Utf16Length(s: string): nat {
    if s == [] then 0 else (if s[0] as int > 0xFFFF then 2 else 1) + Utf16Length(s[1..])
  }
}
