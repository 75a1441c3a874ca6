/**
 * The fragment of JavaScript regular expressions the intent patterns are written in,
 * with `String.prototype.match` (no `g` flag) over it.
 *
 * A pattern is a flat list of elements matched left to right with backtracking:
 *   - `Words(alts)`  is `(?:a|b|c)`: literal alternatives, tried in the order written,
 *                    compared under the `i` flag;
 *   - `Spaces`       is `\s+`: greedy, the longest run first, then shorter ones;
 *   - `Optional(n)`  is `(?: … )?` around the next `n` elements: greedy, the
 *                    elements first, then without them;
 *   - `Group(g)`     is `(.+?)`, capture group `g`: lazy, the shortest non-empty
 *                    run of characters other than line terminators first.
 * Every pattern ends in `$` (end of input, no `m` flag), and a match may start at
 * any index: the leftmost start index that admits a match wins.
 * Captures are kept as spans `(start, end)` of the subject.
 */
module Matcher {
  import opened Wrappers
  import opened Text

  datatype Elem =
    | Words(alts: seq<string>)
    | Spaces
    | Optional(len: nat)
    | Group(index: nat)

  /** A regular expression: its elements and the number of its capture groups. */
  datatype Pattern = Pattern(elems: seq<Elem>, groups: nat)

  type Spans = map<nat, (nat, nat)>

  /** No line terminator among `s[a..b]`. */
  predicate NoLineTerminator(s: string, a: nat, b: nat) {
    forall t :: a <= t < b ==> t < |s| && !IsLineTerminator(s[t])
  }

  /** Every recorded capture is a non-empty span of `s` free of line terminators:
      what `(.+?)` can capture. */
  predicate SpansOk(s: string, caps: Spans) {
    forall g :: g in caps ==> caps[g].0 < caps[g].1 <= |s| && NoLineTerminator(s, caps[g].0, caps[g].1)
  }

  /** `w[k..]` equals `s[p + k..p + |w|]` under the `i` flag, `w` being lower-case. */
  predicate EqAt(s: string, p: nat, w: string, k: nat)
    decreases |w| - k
  {
    k >= |w| || (p + k < |s| && Lower(s[p + k]) == w[k] && EqAt(s, p, w, k + 1))
  }

  /** Matches `pat[k..]` against `s[p..]`, every element consuming up to the end of
      the subject; `caps` holds the captures made so far. */
  function MatchFrom(s: string, p: nat, pat: seq<Elem>, k: nat, caps: Spans): (r: Option<Spans>)
    requires p <= |s| && k <= |pat|
    ensures r.Some? && SpansOk(s, caps) ==> SpansOk(s, r.value)
    decreases |pat| - k, 1, 0
  {
    if k == |pat| then (if p == |s| then Some(caps) else None)
    else match pat[k]
      case Words(alts) => AltFrom(s, p, alts, 0, pat, k + 1, caps)
      case Spaces => SpacesFrom(s, p, SpaceRun(s, p), pat, k + 1, caps)
      case Optional(n) =>
        var r := MatchFrom(s, p, pat, k + 1, caps);
        if r.Some? then r
        else if k + 1 + n <= |pat| then MatchFrom(s, p, pat, k + 1 + n, caps)
        else None
      case Group(g) => LazyFrom(s, p, p + 1, g, pat, k + 1, caps)
  }

  /** Tries the alternatives `alts[a..]` in order at `p`, each followed by `pat[k..]`. */
  function AltFrom(s: string, p: nat, alts: seq<string>, a: nat, pat: seq<Elem>, k: nat, caps: Spans): (r: Option<Spans>)
    requires p <= |s| && 0 < k <= |pat|
    ensures r.Some? && SpansOk(s, caps) ==> SpansOk(s, r.value)
    decreases |pat| - k + 1, 0, |alts| - a
  {
    if a >= |alts| then None
    else
      var r :=
        if p + |alts[a]| <= |s| && EqAt(s, p, alts[a], 0) then MatchFrom(s, p + |alts[a]|, pat, k, caps)
        else None;
      if r.Some? then r else AltFrom(s, p, alts, a + 1, pat, k, caps)
  }

  /** `\s+` at `p` taking `j` characters of whitespace, then fewer, each followed by `pat[k..]`. */
  function SpacesFrom(s: string, p: nat, j: nat, pat: seq<Elem>, k: nat, caps: Spans): (r: Option<Spans>)
    requires p + j <= |s| && 0 < k <= |pat|
    ensures r.Some? && SpansOk(s, caps) ==> SpansOk(s, r.value)
    decreases |pat| - k + 1, 0, j
  {
    if j == 0 then None
    else
      var r := MatchFrom(s, p + j, pat, k, caps);
      if r.Some? then r else SpacesFrom(s, p, j - 1, pat, k, caps)
  }

  /** `(.+?)` as group `g` capturing `s[p..e]`, then longer spans, each followed by `pat[k..]`. */
  function LazyFrom(s: string, p: nat, e: nat, g: nat, pat: seq<Elem>, k: nat, caps: Spans): (r: Option<Spans>)
    requires p < e <= |s| + 1 && 0 < k <= |pat|
    requires NoLineTerminator(s, p, e - 1)
    ensures r.Some? && SpansOk(s, caps) ==> SpansOk(s, r.value)
    decreases |pat| - k + 1, 0, |s| + 1 - e
  {
    if e > |s| || IsLineTerminator(s[e - 1]) then None
    else
      var r := MatchFrom(s, e, pat, k, caps[g := (p, e)]);
      if r.Some? then r else LazyFrom(s, p, e + 1, g, pat, k, caps)
  }

  /** The whole pattern matched from index `i` to the end of the subject. */
  function MatchAt(s: string, i: nat, pat: seq<Elem>): (r: Option<Spans>)
    requires i <= |s|
    ensures r.Some? ==> SpansOk(s, r.value)
  {
    MatchFrom(s, i, pat, 0, map[])
  }

  /** The first start index from `i` on that admits a match. */
  function ExecFrom(s: string, i: nat, pat: seq<Elem>): Option<Spans>
    requires i <= |s|
    decreases |s| - i
  {
    var r := MatchAt(s, i, pat);
    if r.Some? || i == |s| then r else ExecFrom(s, i + 1, pat)
  }

  lemma {:induction false} ExecFromIsLeftmost(s: string, i: nat, pat: seq<Elem>)
    requires i <= |s|
    ensures ExecFrom(s, i, pat).Some? ==>
      exists j :: i <= j <= |s| && MatchAt(s, j, pat) == ExecFrom(s, i, pat)
                && forall t :: i <= t < j ==> MatchAt(s, t, pat).None?
    ensures ExecFrom(s, i, pat).None? ==> forall t :: i <= t <= |s| ==> MatchAt(s, t, pat).None?
    decreases |s| - i
  {
    if MatchAt(s, i, pat).None? && i < |s| {
      ExecFromIsLeftmost(s, i + 1, pat);
      if ExecFrom(s, i, pat).Some? {
        var j :| i + 1 <= j <= |s| && MatchAt(s, j, pat) == ExecFrom(s, i, pat)
                 && forall t :: i + 1 <= t < j ==> MatchAt(s, t, pat).None?;
        assert forall t :: i <= t < j ==> MatchAt(s, t, pat).None?;
      }
    }
  }

  /** `s.match(re)` without the `g` flag: the captures of the match at the leftmost
      start index, or nothing when no start index admits one. */
  function Exec(s: string, pat: Pattern): (r: Option<Spans>)
    ensures r.Some? ==> SpansOk(s, r.value)
    ensures r.Some? <==> exists i :: 0 <= i <= |s| && MatchAt(s, i, pat.elems).Some?
    ensures r.Some? ==> exists i :: 0 <= i <= |s| && MatchAt(s, i, pat.elems) == r
                                  && forall t :: 0 <= t < i ==> MatchAt(s, t, pat.elems).None?
  {
    ExecFromIsLeftmost(s, 0, pat.elems);
    ExecFrom(s, 0, pat.elems)
  }

  /** The text a capture holds, if the group took part in the match. */
  function Capture(s: string, caps: Spans, g: nat): (r: Option<string>)
    requires SpansOk(s, caps)
    ensures r.Some? <==> g in caps
    ensures r.Some? ==> r.value != [] && forall c :: c in r.value ==> !IsLineTerminator(c)
  {
    if g in caps then
      var span := caps[g];
      Some(s[span.0..span.1])
    else None
  }

  /** Groups `from` to `to` (inclusive of `from`, exclusive of `to`), as JavaScript's
      match array holds them: `undefined` for a group that took no part. */
  function CapturesFrom(s: string, caps: Spans, from: nat, to: nat): (r: seq<Option<string>>)
    requires SpansOk(s, caps)
    ensures |r| == if from <= to then to - from else 0
    ensures (forall i :: 0 <= i < |r| ==> r[i] == Capture(s, caps, from + i))
    decreases if from <= to then to - from else 0
  {
    if from >= to then [] else [Capture(s, caps, from)] + CapturesFrom(s, caps, from + 1, to)
  }

  /** `s.match(re)`: `None` for `null`, otherwise the groups `1 .. groups` in order. */
  function MatchGroups(s: string, pat: Pattern): (r: Option<seq<Option<string>>>)
    ensures r.Some? <==> Exec(s, pat).Some?
    ensures r.Some? ==> |r.value| == pat.groups
  {
    match Exec(s, pat)
    case None => None
    case Some(caps) => Some(CapturesFrom(s, caps, 1, pat.groups + 1))
  }

  // ---------------------------------------------------------------------------
  // A match contains every literal group that no `?` makes optional

  /** Element `w` lies outside the reach of every `Optional` before it. */
  predicate Mandatory(pat: seq<Elem>, w: nat) {
    forall j :: 0 <= j < w && j < |pat| && pat[j].Optional? ==> j + pat[j].len < w
  }

  /** One of `alts` matches somewhere at or after `p`. */
  predicate WordFrom(s: string, p: nat, alts: seq<string>) {
    exists q, b :: p <= q && 0 <= b < |alts| && q + |alts[b]| <= |s| && EqAt(s, q, alts[b], 0)
  }

  lemma {:induction false} MatchFromHasWord(s: string, p: nat, pat: seq<Elem>, k: nat, caps: Spans, w: nat)
    requires p <= |s| && k <= w < |pat| && pat[w].Words? && Mandatory(pat, w)
    requires MatchFrom(s, p, pat, k, caps).Some?
    ensures WordFrom(s, p, pat[w].alts)
    decreases |pat| - k, 1, 0
  {
    match pat[k]
    case Words(alts) =>
      AltFromHasWord(s, p, alts, 0, pat, k + 1, caps, w);
    case Spaces =>
      SpacesFromHasWord(s, p, SpaceRun(s, p), pat, k + 1, caps, w);
    case Optional(n) =>
      if MatchFrom(s, p, pat, k + 1, caps).Some? {
        MatchFromHasWord(s, p, pat, k + 1, caps, w);
      } else {
        MatchFromHasWord(s, p, pat, k + 1 + n, caps, w);
      }
    case Group(g) =>
      LazyFromHasWord(s, p, p + 1, g, pat, k + 1, caps, w);
  }

  lemma {:induction false} AltFromHasWord(s: string, p: nat, alts: seq<string>, a: nat, pat: seq<Elem>, k: nat, caps: Spans, w: nat)
    requires p <= |s| && 0 < k <= |pat| && k - 1 <= w < |pat| && pat[w].Words? && Mandatory(pat, w)
    requires k - 1 == w ==> alts == pat[w].alts
    requires AltFrom(s, p, alts, a, pat, k, caps).Some?
    ensures WordFrom(s, p, pat[w].alts)
    decreases |pat| - k + 1, 0, |alts| - a
  {
    if p + |alts[a]| <= |s| && EqAt(s, p, alts[a], 0) && MatchFrom(s, p + |alts[a]|, pat, k, caps).Some? {
      if k - 1 < w {
        MatchFromHasWord(s, p + |alts[a]|, pat, k, caps, w);
        var q, b :| p + |alts[a]| <= q && 0 <= b < |pat[w].alts| && q + |pat[w].alts[b]| <= |s|
                    && EqAt(s, q, pat[w].alts[b], 0);
      } else {
        assert EqAt(s, p, pat[w].alts[a], 0);
      }
    } else {
      AltFromHasWord(s, p, alts, a + 1, pat, k, caps, w);
    }
  }

  lemma {:induction false} SpacesFromHasWord(s: string, p: nat, j: nat, pat: seq<Elem>, k: nat, caps: Spans, w: nat)
    requires p + j <= |s| && 0 < k <= w < |pat| && pat[w].Words? && Mandatory(pat, w)
    requires SpacesFrom(s, p, j, pat, k, caps).Some?
    ensures WordFrom(s, p, pat[w].alts)
    decreases |pat| - k + 1, 0, j
  {
    if MatchFrom(s, p + j, pat, k, caps).Some? {
      MatchFromHasWord(s, p + j, pat, k, caps, w);
      var q, b :| p + j <= q && 0 <= b < |pat[w].alts| && q + |pat[w].alts[b]| <= |s|
                  && EqAt(s, q, pat[w].alts[b], 0);
    } else {
      SpacesFromHasWord(s, p, j - 1, pat, k, caps, w);
    }
  }

  lemma {:induction false} LazyFromHasWord(s: string, p: nat, e: nat, g: nat, pat: seq<Elem>, k: nat, caps: Spans, w: nat)
    requires p < e <= |s| + 1 && 0 < k <= w < |pat| && pat[w].Words? && Mandatory(pat, w)
    requires NoLineTerminator(s, p, e - 1)
    requires LazyFrom(s, p, e, g, pat, k, caps).Some?
    ensures WordFrom(s, p, pat[w].alts)
    decreases |pat| - k + 1, 0, |s| + 1 - e
  {
    if MatchFrom(s, e, pat, k, caps[g := (p, e)]).Some? {
      MatchFromHasWord(s, e, pat, k, caps[g := (p, e)], w);
      var q, b :| e <= q && 0 <= b < |pat[w].alts| && q + |pat[w].alts[b]| <= |s|
                  && EqAt(s, q, pat[w].alts[b], 0);
    } else {
      LazyFromHasWord(s, p, e + 1, g, pat, k, caps, w);
    }
  }

  /** One of `alts` matches at some index from `q` on; a check that unfolds on literals. */
  predicate WordAnywhereFrom(s: string, q: nat, alts: seq<string>)
    decreases |s| + 1 - q
  {
    q <= |s| && (WordAt(s, q, alts, 0) || WordAnywhereFrom(s, q + 1, alts))
  }

  predicate WordAt(s: string, q: nat, alts: seq<string>, b: nat)
    decreases |alts| - b
  {
    b < |alts| && ((q + |alts[b]| <= |s| && EqAt(s, q, alts[b], 0)) || WordAt(s, q, alts, b + 1))
  }

  lemma {:induction false} WordAtComplete(s: string, q: nat, alts: seq<string>, b: nat, c: nat)
    requires b <= c < |alts| && q + |alts[c]| <= |s| && EqAt(s, q, alts[c], 0)
    ensures WordAt(s, q, alts, b)
    decreases c - b
  {
    if b < c {
      WordAtComplete(s, q, alts, b + 1, c);
    }
  }

  lemma {:induction false} WordAnywhereFromComplete(s: string, p: nat, q: nat, alts: seq<string>, c: nat)
    requires p <= q <= |s| && c < |alts| && q + |alts[c]| <= |s| && EqAt(s, q, alts[c], 0)
    ensures WordAnywhereFrom(s, p, alts)
    decreases q - p
  {
    if p < q {
      WordAnywhereFromComplete(s, p + 1, q, alts, c);
    } else {
      WordAtComplete(s, q, alts, 0, c);
    }
  }

  /** Whatever matches a pattern contains one of the alternatives of each of its literal
      groups that is not inside a `?`: a pattern needing a word the subject lacks does
      not match. */
  lemma ExecHasMandatoryWord(s: string, pat: Pattern, w: nat)
    requires w < |pat.elems| && pat.elems[w].Words? && Mandatory(pat.elems, w)
    ensures Exec(s, pat).Some? ==> WordAnywhereFrom(s, 0, pat.elems[w].alts)
  {
    if Exec(s, pat).Some? {
      var i :| 0 <= i <= |s| && MatchAt(s, i, pat.elems).Some?;
      MatchFromHasWord(s, i, pat.elems, 0, map[], w);
      var q, b :| i <= q && 0 <= b < |pat.elems[w].alts| && q + |pat.elems[w].alts[b]| <= |s|
                  && EqAt(s, q, pat.elems[w].alts[b], 0);
      WordAnywhereFromComplete(s, 0, q, pat.elems[w].alts, b);
    }
  }

  // ---------------------------------------------------------------------------
  // Backtracking finds a match whenever one of the choices it tries leads to one

  /** An alternative that matches and whose continuation matches makes the group match,
      whatever the earlier alternatives do. */
  lemma {:induction false} AltFromFinds(s: string, p: nat, alts: seq<string>, a: nat, b: nat, pat: seq<Elem>, k: nat, caps: Spans)
    requires p <= |s| && 0 < k <= |pat| && a <= b < |alts|
    requires p + |alts[b]| <= |s| && EqAt(s, p, alts[b], 0)
    requires MatchFrom(s, p + |alts[b]|, pat, k, caps).Some?
    ensures AltFrom(s, p, alts, a, pat, k, caps).Some?
    decreases b - a
  {
    if a < b {
      AltFromFinds(s, p, alts, a + 1, b, pat, k, caps);
    }
  }

  /** `\s+` finds a match when taking any `j0` of the available `j` spaces leads to one. */
  lemma {:induction false} SpacesFromFinds(s: string, p: nat, j: nat, j0: nat, pat: seq<Elem>, k: nat, caps: Spans)
    requires p + j <= |s| && 0 < k <= |pat| && 0 < j0 <= j
    requires MatchFrom(s, p + j0, pat, k, caps).Some?
    ensures SpacesFrom(s, p, j, pat, k, caps).Some?
    decreases j
  {
    if j > j0 {
      SpacesFromFinds(s, p, j - 1, j0, pat, k, caps);
    }
  }

  /** `(.+?)` finds a match when capturing some longer span free of line terminators
      leads to one. */
  lemma {:induction false} LazyFromFinds(s: string, p: nat, e: nat, e0: nat, g: nat, pat: seq<Elem>, k: nat, caps: Spans)
    requires p < e <= e0 <= |s| && 0 < k <= |pat|
    requires NoLineTerminator(s, p, e0)
    requires MatchFrom(s, e0, pat, k, caps[g := (p, e0)]).Some?
    ensures LazyFrom(s, p, e, g, pat, k, caps).Some?
    decreases e0 - e
  {
    if e < e0 {
      LazyFromFinds(s, p, e + 1, e0, g, pat, k, caps);
    }
  }

  /** A lower-case word occurring in the subject matches it under the `i` flag. */
  lemma {:induction false} OccursMatches(s: string, q: nat, w: string, k: nat)
    requires OccursAt(s, w, q) && k <= |w|
    requires forall i :: 0 <= i < |w| ==> !IsUpper(w[i])
    ensures EqAt(s, q, w, k)
    decreases |w| - k
  {
    if k < |w| {
      assert s[q + k] == s[q..q + |w|][k];
      OccursMatches(s, q, w, k + 1);
    }
  }

  /** `pat[k..]` is nothing but optional parts, one after the other. */
  predicate SkippableFrom(pat: seq<Elem>, k: nat)
    decreases |pat| - k
  {
    k == |pat| || (k < |pat| && pat[k].Optional? && k + 1 + pat[k].len <= |pat| && SkippableFrom(pat, k + 1 + pat[k].len))
  }

  /** Optional parts match the end of the subject by leaving themselves out. */
  lemma {:induction false} EndMatches(s: string, pat: seq<Elem>, k: nat, caps: Spans)
    requires k <= |pat| && SkippableFrom(pat, k)
    ensures MatchFrom(s, |s|, pat, k, caps).Some?
    decreases |pat| - k
  {
    if k < |pat| {
      EndMatches(s, pat, k + 1 + pat[k].len, caps);
    }
  }

  /** `(.+?)` followed only by optional parts matches any non-empty rest of the subject
      free of line terminators. */
  lemma TailGroupFinds(s: string, p: nat, pat: seq<Elem>, k: nat, caps: Spans)
    requires k < |pat| && pat[k].Group? && SkippableFrom(pat, k + 1)
    requires p < |s| && NoLineTerminator(s, p, |s|)
    ensures MatchFrom(s, p, pat, k, caps).Some?
  {
    EndMatches(s, pat, k + 1, caps[pat[k].index := (p, |s|)]);
    LazyFromFinds(s, p, p + 1, |s|, pat[k].index, pat, k + 1, caps);
  }

  /** A word followed by whitespace matches when the rest of the pattern matches after
      the whole run of whitespace. */
  lemma WordsSpacesFinds(s: string, p: nat, pat: seq<Elem>, k: nat, b: nat, caps: Spans)
    requires k + 1 < |pat| && pat[k].Words? && pat[k + 1].Spaces? && b < |pat[k].alts|
    requires OccursAt(s, pat[k].alts[b], p)
    requires forall i :: 0 <= i < |pat[k].alts[b]| ==> !IsUpper(pat[k].alts[b][i])
    requires p + |pat[k].alts[b]| < |s| && IsSpace(s[p + |pat[k].alts[b]|])
    requires MatchFrom(s, p + |pat[k].alts[b]| + SpaceRun(s, p + |pat[k].alts[b]|), pat, k + 2, caps).Some?
    ensures MatchFrom(s, p, pat, k, caps).Some?
  {
    var w := pat[k].alts[b];
    var q := p + |w|;
    OccursMatches(s, p, w, 0);
    SpacesFromFinds(s, q, SpaceRun(s, q), SpaceRun(s, q), pat, k + 2, caps);
    AltFromFinds(s, p, pat[k].alts, 0, b, pat, k + 1, caps);
  }
}
