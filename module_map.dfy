/**
 * The assistant's keyword table (`MODULE_MAPPINGS` in server/localAI.ts): which
 * word names which application module, read the way a JavaScript object literal
 * is read, and the key-stripping `replace` the search answer builds from its keys.
 */
module ModuleMap {
  import opened Wrappers
  import opened Text
  import Matcher

  /** The object literal's entries in the order written, in the groups its comments
      mark: each module with the keys that name it. `analytics` is written twice: first
      in the dashboard group, then in the reports group. */
  const Groups: seq<(string, seq<string>)> := [
    ("leads", ["lead", "leads", "customer", "customers", "prospect", "prospects", "contact", "contacts", "client", "clients"]),
    ("tickets", ["ticket", "tickets", "support", "issue", "issues", "bug", "bugs", "problem", "problems", "help"]),
    ("deals", ["deal", "deals", "sale", "sales", "opportunity", "opportunities", "revenue", "pipeline"]),
    ("projects", ["project", "projects", "work", "job", "jobs"]),
    ("tasks", ["task", "tasks", "todo", "todos", "assignment", "assignments", "action", "actions"]),
    ("emails", ["email", "emails", "message", "messages", "mail", "communication", "correspondence"]),
    ("users", ["user", "users", "employee", "employees", "staff", "team", "member", "members", "person", "people"]),
    ("companies", ["company", "companies", "business", "businesses", "organization", "organizations", "firm", "firms"]),
    ("dashboard", ["dashboard", "home", "overview", "summary", "stats", "statistics", "metrics", "analytics"]),
    ("reports", ["report", "reports", "analytics", "insights", "data", "analysis"])
  ]

  /** The ten modules a keyword can name. */
  const ModuleNames: set<string> :=
    {"leads", "tickets", "deals", "projects", "tasks", "emails", "users", "companies", "dashboard", "reports"}

  /** The value `w` has among groups `g..`: the last entry written wins. */
  function LookupFrom(w: string, g: nat): (r: Option<string>)
    decreases |Groups| - g
  {
    if g >= |Groups| then None
    else
      var later := LookupFrom(w, g + 1);
      if later.Some? then later
      else if w in Groups[g].1 then Some(Groups[g].0)
      else None
  }

  /** `MODULE_MAPPINGS[w]` for a key of the literal; `None` for `undefined`. */
  function Lookup(w: string): Option<string> {
    LookupFrom(w, 0)
  }

  lemma {:induction false} LookupFromIsLastEntry(w: string, g: nat)
    ensures LookupFrom(w, g).None? <==> forall h :: g <= h < |Groups| ==> w !in Groups[h].1
    ensures LookupFrom(w, g).Some? ==>
      exists h :: g <= h < |Groups| && w in Groups[h].1 && Groups[h].0 == LookupFrom(w, g).value
               && forall t :: h < t < |Groups| ==> w !in Groups[t].1
    decreases |Groups| - g
  {
    if g < |Groups| {
      LookupFromIsLastEntry(w, g + 1);
      if LookupFrom(w, g + 1).None? && w in Groups[g].1 {
        assert forall t :: g < t < |Groups| ==> w !in Groups[t].1;
      }
    }
  }

  /** A key is present exactly when some entry has it, and its value is that of the
      last entry written with that key. */
  lemma LookupIsLastEntry(w: string)
    ensures Lookup(w).None? <==> forall h :: 0 <= h < |Groups| ==> w !in Groups[h].1
    ensures Lookup(w).Some? ==>
      exists h :: 0 <= h < |Groups| && w in Groups[h].1 && Groups[h].0 == Lookup(w).value
               && forall t :: h < t < |Groups| ==> w !in Groups[t].1
  {
    LookupFromIsLastEntry(w, 0);
  }

  /** `analytics` is written twice, first for the dashboard and then for reports; the
      later entry wins. */
  lemma AnalyticsIsReports()
    ensures Lookup("analytics") == Some("reports")
  {
  }

  /** Whatever a keyword maps to is one of the ten module names. */
  lemma LookupIsModule(w: string)
    ensures Lookup(w).Some? ==> Lookup(w).value in ModuleNames
  {
    LookupIsLastEntry(w);
    assert forall h :: 0 <= h < |Groups| ==> Groups[h].0 in ModuleNames;
  }

  /** The keys as written, groups `g..` one after the other, repetitions included. */
  function WrittenKeysFrom(g: nat): seq<string>
    decreases |Groups| - g
  {
    if g >= |Groups| then [] else Groups[g].1 + WrittenKeysFrom(g + 1)
  }

  lemma {:induction false} WrittenKeysFromMembers(g: nat)
    ensures forall w :: w in WrittenKeysFrom(g) <==> exists h :: g <= h < |Groups| && w in Groups[h].1
    decreases |Groups| - g
  {
    if g < |Groups| {
      WrittenKeysFromMembers(g + 1);
    }
  }

  /** Drops every element that already appeared earlier: the order in which a JavaScript
      object keeps keys assigned one after the other. */
  function FirstOccurrences(ws: seq<string>): (r: seq<string>)
    ensures forall w :: w in r <==> w in ws
    ensures forall a, b :: 0 <= a < b < |r| ==> r[a] != r[b]
    ensures |r| <= |ws|
  {
    if ws == [] then []
    else
      var init := FirstOccurrences(ws[..|ws| - 1]);
      assert ws == ws[..|ws| - 1] + [ws[|ws| - 1]];
      if ws[|ws| - 1] in ws[..|ws| - 1] then init else init + [ws[|ws| - 1]]
  }

  /** Keeping first occurrences of a longer list only extends the result. */
  lemma {:induction false} FirstOccurrencesPrefix(ws: seq<string>, n: nat)
    requires n <= |ws|
    ensures FirstOccurrences(ws[..n]) <= FirstOccurrences(ws)
    decreases |ws| - n
  {
    if n < |ws| {
      var init := ws[..|ws| - 1];
      assert init[..n] == ws[..n];
      FirstOccurrencesPrefix(init, n);
    } else {
      assert ws[..n] == ws;
    }
  }

  lemma {:induction false} FirstOccurrencesOfDistinct(ws: seq<string>)
    requires forall a, b :: 0 <= a < b < |ws| ==> ws[a] != ws[b]
    ensures FirstOccurrences(ws) == ws
  {
    if ws != [] {
      FirstOccurrencesOfDistinct(ws[..|ws| - 1]);
    }
  }

  /** `Object.keys(MODULE_MAPPINGS)`: every key once, a repeated key in the place of
      its first appearance. */
  function Keys(): seq<string> {
    FirstOccurrences(WrittenKeysFrom(0))
  }

  /** The keys are exactly the words the table maps, each listed once. */
  lemma KeysAreTheMappedWords()
    ensures forall w :: w in Keys() <==> Lookup(w).Some?
    ensures forall a, b :: 0 <= a < b < |Keys()| ==> Keys()[a] != Keys()[b]
  {
    WrittenKeysFromMembers(0);
    forall w ensures w in Keys() <==> Lookup(w).Some? {
      LookupIsLastEntry(w);
    }
  }

  /** The keys begin with the first three the literal writes. */
  lemma KeysStart()
    ensures |Keys()| >= 3 && Keys()[..3] == ["lead", "leads", "customer"]
  {
    var written := WrittenKeysFrom(0);
    assert written[..3] == ["lead", "leads", "customer"];
    FirstOccurrencesOfDistinct(written[..3]);
    FirstOccurrencesPrefix(written, 3);
  }

  /** `lead` is the first alternative of the key pattern, and every alternative has
      three characters or more. */
  lemma LeadFirstAndKeysLong()
    ensures |Keys()| > 0 && Keys()[0] == "lead"
    ensures forall b :: 0 <= b < |Keys()| ==> |Keys()[b]| >= 3
  {
    KeysStart();
    assert Keys()[0] == Keys()[..3][0];
    forall b | 0 <= b < |Keys()| ensures |Keys()[b]| >= 3 {
      KeysAreLong(Keys()[b]);
    }
  }

  /** Every key has at least three characters. */
  lemma KeysAreLong(w: string)
    requires w in Keys()
    ensures |w| >= 3
  {
    WrittenKeysFromMembers(0);
    var h :| 0 <= h < |Groups| && w in Groups[h].1;
    GroupKeysAreLong(h);
  }

  lemma GroupKeysAreLong(h: nat)
    requires h < |Groups|
    ensures forall k :: 0 <= k < |Groups[h].1| ==> |Groups[h].1[k]| >= 3
  {
  }

  // ---------------------------------------------------------------------------
  // target.replace(new RegExp(Object.keys(MODULE_MAPPINGS).join('|'), 'gi'), '')

  /** Key `k` matches `s` at `p` under the `i` flag. */
  predicate KeyMatches(s: string, p: nat, k: string) {
    p + |k| <= |s| && Matcher.EqAt(s, p, k, 0)
  }

  /** The alternation `ks[a] | ks[a+1] | …` at `p`: the index of the first key, in the
      order of `ks`, that matches there. */
  function FirstKeyAt(s: string, p: nat, ks: seq<string>, a: nat): (r: Option<nat>)
    ensures r.Some? ==> a <= r.value < |ks| && KeyMatches(s, p, ks[r.value])
                        && forall b :: a <= b < r.value ==> !KeyMatches(s, p, ks[b])
    ensures r.None? ==> forall b :: a <= b < |ks| ==> !KeyMatches(s, p, ks[b])
    decreases |ks| - a
  {
    if a >= |ks| then None
    else if KeyMatches(s, p, ks[a]) then Some(a)
    else FirstKeyAt(s, p, ks, a + 1)
  }

  predicate NoEmptyKey(ks: seq<string>) {
    forall i :: 0 <= i < |ks| ==> ks[i] != []
  }

  /** The global replace from `p` on: at each index the first key that matches there is
      removed and the scan resumes after it; otherwise the character is kept. */
  function RemoveFrom(s: string, p: nat, ks: seq<string>): (r: string)
    requires p <= |s| && NoEmptyKey(ks)
    decreases |s| - p
  {
    if p == |s| then []
    else match FirstKeyAt(s, p, ks, 0)
      case Some(b) => RemoveFrom(s, p + |ks[b]|, ks)
      case None => [s[p]] + RemoveFrom(s, p + 1, ks)
  }

  /** No key matches anywhere in `s[p..]`. */
  predicate NoKeyFrom(s: string, p: nat, ks: seq<string>) {
    forall q, b :: p <= q < |s| && 0 <= b < |ks| ==> !KeyMatches(s, q, ks[b])
  }

  lemma {:induction false} RemoveFromLength(s: string, p: nat, ks: seq<string>)
    requires p <= |s| && NoEmptyKey(ks)
    ensures |RemoveFrom(s, p, ks)| <= |s| - p
    ensures !NoKeyFrom(s, p, ks) ==> |RemoveFrom(s, p, ks)| < |s| - p
    decreases |s| - p
  {
    if p < |s| {
      match FirstKeyAt(s, p, ks, 0)
      case Some(b) =>
        RemoveFromLength(s, p + |ks[b]|, ks);
      case None =>
        RemoveFromLength(s, p + 1, ks);
        if !NoKeyFrom(s, p, ks) {
          var q, b :| p <= q < |s| && 0 <= b < |ks| && KeyMatches(s, q, ks[b]);
          assert q != p;
          assert !NoKeyFrom(s, p + 1, ks);
        }
    }
  }

  lemma {:induction false} RemoveFromUnchanged(s: string, p: nat, ks: seq<string>)
    requires p <= |s| && NoEmptyKey(ks)
    requires NoKeyFrom(s, p, ks)
    ensures RemoveFrom(s, p, ks) == s[p..]
    decreases |s| - p
  {
    if p < |s| {
      assert FirstKeyAt(s, p, ks, 0).None?;
      RemoveFromUnchanged(s, p + 1, ks);
      assert s[p..] == [s[p]] + s[p + 1..];
    }
  }

  /** Removing the keys leaves a string unchanged exactly when no key occurs in it,
      and never lengthens it. */
  lemma RemoveAllShape(s: string, ks: seq<string>)
    requires NoEmptyKey(ks)
    ensures |RemoveFrom(s, 0, ks)| <= |s|
    ensures RemoveFrom(s, 0, ks) == s <==> NoKeyFrom(s, 0, ks)
  {
    RemoveFromLength(s, 0, ks);
    if NoKeyFrom(s, 0, ks) {
      RemoveFromUnchanged(s, 0, ks);
    }
  }

  lemma KeysNonEmpty()
    ensures NoEmptyKey(Keys())
  {
    forall i | 0 <= i < |Keys()| ensures Keys()[i] != [] {
      KeysAreLong(Keys()[i]);
    }
  }

  /** `target.replace(<all keys joined with '|'>, 'gi'), '').trim()`: the search term
      the search answer falls back to. */
  function StripKeys(target: string): (r: string)
    ensures |r| <= |target|
    ensures NoKeyFrom(target, 0, Keys()) && IsNormal(target) ==> r == target
  {
    var ks := Keys();
    KeysNonEmpty();
    RemoveAllShape(target, ks);
    TrimShape(RemoveFrom(target, 0, ks));
    Trim(RemoveFrom(target, 0, ks))
  }
}
