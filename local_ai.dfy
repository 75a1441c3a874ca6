/**
 * The rule-based assistant of server/localAI.ts: the intent patterns, the intent a
 * message is read as (`extractIntent`), the answer built for an intent
 * (`generateResponse`), the two together (`processLocalAIMessage`) and the
 * "did you mean" suggestions (`suggestCorrections`).
 */
module LocalAI {
  import opened Wrappers
  import opened Text
  import opened Matcher
  import ModuleMap
  import Responses

  /** The keys of `INTENT_PATTERNS`, in the order written, and `respond`, which
      `extractIntent` returns when nothing else applies. */
  datatype IntentKind = Navigation | Create | Search | Update | Delete | Status | Assign | Respond

  /** `{ action, target, context }`. */
  datatype Intent = Intent(action: IntentKind, target: string, context: seq<string>)

  // ---------------------------------------------------------------------------
  // INTENT_PATTERNS

  const NavigationPatterns: seq<Pattern> := [
    // line 12: an opening verb, an optional `the`, the target, an optional page-like noun
    Pattern([Words(["go to", "navigate to", "open", "show me", "take me to", "view"]), Spaces,
             Optional(2), Words(["the"]), Spaces, Group(1),
             Optional(2), Spaces, Words(["page", "section", "module", "dashboard"])], 1),
    // line 13: `switch to` / `change to`, the target, an optional `mode` / `view`
    Pattern([Words(["switch to", "change to"]), Spaces, Group(1),
             Optional(2), Spaces, Words(["mode", "view"])], 1),
    // line 14: `i want to see …` and its variants
    Pattern([Words(["i"]), Spaces, Words(["want to", "need to", "would like to"]), Spaces,
             Words(["see", "check", "view"]), Spaces, Group(1)], 1)
  ]

  const CreatePatterns: seq<Pattern> := [
    // line 17: a creating verb, an optional `a`, the entity, an optional record-like noun, an optional `for …`
    Pattern([Words(["create", "add", "new", "make"]), Spaces, Optional(2), Words(["a"]), Spaces, Group(1),
             Optional(2), Spaces, Words(["record", "entry", "item"]),
             Optional(4), Spaces, Words(["for"]), Spaces, Group(2)], 2),
    // line 18: `i want to create …` and its variants
    Pattern([Words(["i"]), Spaces, Words(["want to", "need to", "would like to"]), Spaces,
             Words(["create", "add", "make"]), Spaces, Optional(2), Words(["a"]), Spaces, Group(1)], 1),
    // line 19: `register` / `setup` / `establish`, an optional `a`, the entity
    Pattern([Words(["register", "setup", "establish"]), Spaces, Optional(2), Words(["a"]), Spaces, Group(1)], 1)
  ]

  const SearchPatterns: seq<Pattern> := [
    // line 22: a finding verb and the term
    Pattern([Words(["find", "search", "look for", "locate"]), Spaces, Group(1)], 1),
    // line 23: `show me` / `display`, an optional `all`, the term, an optional `with …`
    Pattern([Words(["show me", "display"]), Spaces, Optional(2), Words(["all"]), Spaces, Group(1),
             Optional(4), Spaces, Words(["with", "containing", "matching"]), Spaces, Group(2)], 2),
    // line 24: `i want to find …` and its variants
    Pattern([Words(["i"]), Spaces, Words(["want to", "need to"]), Spaces,
             Words(["find", "search for"]), Spaces, Group(1)], 1)
  ]

  const UpdatePatterns: seq<Pattern> := [
    // line 27: an editing verb, the item, an optional `to …` / `with …`
    Pattern([Words(["update", "edit", "modify", "change"]), Spaces, Group(1),
             Optional(4), Spaces, Words(["to", "with"]), Spaces, Group(2)], 2),
    // line 28: `set` / `assign`, the item, an optional `to …` / `as …`
    Pattern([Words(["set", "assign"]), Spaces, Group(1),
             Optional(4), Spaces, Words(["to", "as"]), Spaces, Group(2)], 2)
  ]

  const DeletePatterns: seq<Pattern> := [
    // line 31: `delete` / `remove` / `cancel` and the item
    Pattern([Words(["delete", "remove", "cancel"]), Spaces, Group(1)], 1),
    // line 32: `close` / `resolve` and the item
    Pattern([Words(["close", "resolve"]), Spaces, Group(1)], 1)
  ]

  const StatusPatterns: seq<Pattern> := [
    // line 35: `what` / `show`, optional `is` and `the`, `status of` / `current`, the subject
    Pattern([Words(["what", "show"]), Spaces, Optional(2), Words(["is"]), Spaces,
             Optional(2), Words(["the"]), Spaces, Words(["status of", "current"]), Spaces, Group(1)], 1),
    // line 36: `how many` / `count`, the subject, an optional `are there` / `do we have`
    Pattern([Words(["how many", "count"]), Spaces, Group(1),
             Optional(2), Spaces, Words(["are there", "do we have"])], 1)
  ]

  const AssignPatterns: seq<Pattern> := [
    // line 39: `assign` / `give`, the item, `to`, the assignee
    Pattern([Words(["assign", "give"]), Spaces, Group(1), Spaces, Words(["to"]), Spaces, Group(2)], 2),
    // line 40: an optional `set`, the item, an owner-like noun, `to` / `as`, the assignee
    Pattern([Optional(2), Words(["set"]), Spaces, Group(1), Spaces,
             Words(["assignee", "owner", "responsible"]), Spaces, Words(["to", "as"]), Spaces, Group(2)], 2)
  ]

  /** `Object.entries(INTENT_PATTERNS)`: each intent with its patterns, in the order written. */
  const IntentPatterns: seq<(IntentKind, seq<Pattern>)> := [
    (Navigation, NavigationPatterns),
    (Create, CreatePatterns),
    (Search, SearchPatterns),
    (Update, UpdatePatterns),
    (Delete, DeletePatterns),
    (Status, StatusPatterns),
    (Assign, AssignPatterns)
  ]

  /** A table of intents, each with its patterns in the order they are tried. */
  type Table = seq<(IntentKind, seq<Pattern>)>

  /** Pattern `j` of intent `i` exists in `table`. */
  predicate ValidIn(table: Table, i: nat, j: nat) {
    i < |table| && j < |table[i].1|
  }

  /** Pattern `j` of intent `i` exists in the intent table. */
  predicate ValidIndex(i: nat, j: nat) {
    ValidIn(IntentPatterns, i, j)
  }

  function PatternAt(i: nat, j: nat): Pattern
    requires ValidIndex(i, j)
  {
    IntentPatterns[i].1[j]
  }

  /** Pattern `(i2, j2)` is tried before pattern `(i, j)`. */
  predicate Before(i2: nat, j2: nat, i: nat, j: nat) {
    i2 < i || (i2 == i && j2 < j)
  }

  // ---------------------------------------------------------------------------
  // extractIntent

  /** A pattern that matched: where it sits in the table and its groups `1 ..`. */
  datatype Hit = Hit(intent: nat, pattern: nat, groups: seq<Option<string>>)

  /** The first pattern of `table`, from pattern `j` of intent `i` on, that matches `n`. */
  function FirstHit(n: string, table: Table, i: nat, j: nat): (r: Option<Hit>)
    requires i < |table| ==> j <= |table[i].1|
    ensures r.Some? ==> ValidIn(table, r.value.intent, r.value.pattern)
    decreases |table| - i, if i < |table| then |table[i].1| - j else 0
  {
    if i >= |table| then None
    else if j == |table[i].1| then FirstHit(n, table, i + 1, 0)
    else match MatchGroups(n, table[i].1[j])
      case Some(groups) => Some(Hit(i, j, groups))
      case None => FirstHit(n, table, i, j + 1)
  }

  /** The search takes the patterns in table order and stops at the first that matches. */
  lemma {:induction false} FirstHitIsFirst(n: string, table: Table, i: nat, j: nat)
    requires i < |table| ==> j <= |table[i].1|
    ensures FirstHit(n, table, i, j).Some? ==>
      var h := FirstHit(n, table, i, j).value;
      && ValidIn(table, h.intent, h.pattern) && !Before(h.intent, h.pattern, i, j)
      && MatchGroups(n, table[h.intent].1[h.pattern]) == Some(h.groups)
      && forall i2: nat, j2: nat :: ValidIn(table, i2, j2) && !Before(i2, j2, i, j) && Before(i2, j2, h.intent, h.pattern) ==>
           MatchGroups(n, table[i2].1[j2]).None?
    ensures FirstHit(n, table, i, j).None? ==>
      forall i2: nat, j2: nat :: ValidIn(table, i2, j2) && !Before(i2, j2, i, j) ==> MatchGroups(n, table[i2].1[j2]).None?
    decreases |table| - i, if i < |table| then |table[i].1| - j else 0
  {
    if i < |table| {
      if j == |table[i].1| {
        FirstHitIsFirst(n, table, i + 1, 0);
      } else if MatchGroups(n, table[i].1[j]).None? {
        FirstHitIsFirst(n, table, i, j + 1);
      }
    }
  }

  /** `match[1] || ''`. */
  function TargetOf(groups: seq<Option<string>>): string {
    if |groups| > 0 && groups[0].Some? then groups[0].value else ""
  }

  /** `.filter(Boolean)` on groups: the captures present and not empty, in order. */
  function Truthies(groups: seq<Option<string>>): (r: seq<string>)
    ensures |r| <= |groups|
    ensures forall v :: v in r <==> Some(v) in groups && v != ""
  {
    if groups == [] then []
    else
      var rest := Truthies(groups[1..]);
      assert forall g :: g in groups <==> g == groups[0] || g in groups[1..];
      (if groups[0].Some? && groups[0].value != "" then [groups[0].value] else []) + rest
  }

  /** `match.slice(2).filter(Boolean)`. */
  function ContextOf(groups: seq<Option<string>>): seq<string> {
    if |groups| <= 1 then [] else Truthies(groups[1..])
  }

  /** `includes` of any of the three words. */
  predicate ContainsAny(n: string, a: string, b: string, c: string) {
    Contains(n, a) || Contains(n, b) || Contains(n, c)
  }

  /** The keyword fallback of `extractIntent` on a normalised message no pattern matched. */
  function Fallback(n: string): Intent {
    var action :=
      if ContainsAny(n, "create", "add", "new") then Create
      else if ContainsAny(n, "find", "search", "show") then Search
      else if ContainsAny(n, "go", "open", "navigate") then Navigation
      else Respond;
    Intent(action, n, [])
  }

  /** `extractIntent(message)`. */
  function IntentOf(message: string): Intent {
    var n := Normalize(message);
    match FirstHit(n, IntentPatterns, 0, 0)
    case Some(h) => Intent(IntentPatterns[h.intent].0, TargetOf(h.groups), ContextOf(h.groups))
    case None => Fallback(n)
  }

  /** The loops of `extractIntent`: tries the patterns of every intent of `table` in turn
      on `n` and stops at the first that matches. */
  method FindFirstHit(n: string, table: Table) returns (hit: Option<Hit>)
    ensures hit == FirstHit(n, table, 0, 0)
  {
    for i := 0 to |table|
      invariant FirstHit(n, table, 0, 0) == FirstHit(n, table, i, 0)
    {
      var patterns := table[i].1;
      for j := 0 to |patterns|
        invariant FirstHit(n, table, 0, 0) == FirstHit(n, table, i, j)
      {
        var m := MatchGroups(n, patterns[j]);
        if m.Some? {
          return Some(Hit(i, j, m.value));
        }
      }
    }
    hit := None;
  }

  /** `extractIntent`: the intent of the first pattern that matches the normalised
      message, with its groups; otherwise the keyword fallback. */
  method ExtractIntent(message: string) returns (intent: Intent)
    ensures intent == IntentOf(message)
  {
    var n := Normalize(message);
    var hit := FindFirstHit(n, IntentPatterns);
    if hit.Some? {
      var h := hit.value;
      return Intent(IntentPatterns[h.intent].0, TargetOf(h.groups), ContextOf(h.groups));
    }
    intent := Fallback(n);
  }

  // ---------------------------------------------------------------------------
  // What extractIntent decides

  /** Some pattern of the table matches `n`. */
  ghost predicate AnyPatternMatches(n: string) {
    exists i: nat, j: nat :: ValidIndex(i, j) && MatchGroups(n, PatternAt(i, j)).Some?
  }

  /** Pattern `(i, j)` is the first that matches `n`. */
  ghost predicate FirstMatching(n: string, i: nat, j: nat) {
    && ValidIndex(i, j) && MatchGroups(n, PatternAt(i, j)).Some?
    && forall i2: nat, j2: nat :: ValidIndex(i2, j2) && Before(i2, j2, i, j) ==> MatchGroups(n, PatternAt(i2, j2)).None?
  }

  /** The intent of a message is the intent of the first pattern, in table order, that
      matches its normalised text, with that match's first group as target and its
      other groups as context; when no pattern matches, the whole normalised text is
      the target and the context is empty. */
  lemma IntentOfIsFirstMatch(message: string)
    ensures var n := Normalize(message);
      AnyPatternMatches(n) ==>
        exists i: nat, j: nat :: FirstMatching(n, i, j)
          && var g := MatchGroups(n, PatternAt(i, j)).value;
             IntentOf(message) == Intent(IntentPatterns[i].0, TargetOf(g), ContextOf(g))
    ensures var n := Normalize(message);
      !AnyPatternMatches(n) ==> IntentOf(message).target == n && IntentOf(message).context == []
  {
    var n := Normalize(message);
    FirstHitIsFirst(n, IntentPatterns, 0, 0);
    if FirstHit(n, IntentPatterns, 0, 0).Some? {
      var h := FirstHit(n, IntentPatterns, 0, 0).value;
      assert forall i2: nat, j2: nat :: Before(i2, j2, h.intent, h.pattern) ==> !Before(i2, j2, 0, 0);
      assert FirstMatching(n, h.intent, h.pattern);
    } else {
      assert forall i2: nat, j2: nat :: !Before(i2, j2, 0, 0);
    }
  }

  /** A matching pattern decides the intent unless an earlier intent's pattern matches. */
  lemma EarlierIntentWins(message: string, i: nat, j: nat)
    requires ValidIndex(i, j) && MatchGroups(Normalize(message), PatternAt(i, j)).Some?
    ensures exists i2: nat :: 0 <= i2 <= i && IntentOf(message).action == IntentPatterns[i2].0
  {
    var n := Normalize(message);
    FirstHitIsFirst(n, IntentPatterns, 0, 0);
    var h := FirstHit(n, IntentPatterns, 0, 0).value;
    assert !Before(i, j, h.intent, h.pattern);
    assert IntentOf(message).action == IntentPatterns[h.intent].0;
  }

  /** The words the keyword fallback looks for. */
  predicate HasFallbackKeyword(n: string) {
    ContainsAny(n, "create", "add", "new") || ContainsAny(n, "find", "search", "show")
    || ContainsAny(n, "go", "open", "navigate")
  }

  /** A message is left to the general answer exactly when no pattern matches it and it
      holds none of the fallback's keywords. */
  lemma RespondExactlyWhenNothingApplies(message: string)
    ensures IntentOf(message).action == Respond <==>
              !AnyPatternMatches(Normalize(message)) && !HasFallbackKeyword(Normalize(message))
  {
    var n := Normalize(message);
    FirstHitIsFirst(n, IntentPatterns, 0, 0);
    if FirstHit(n, IntentPatterns, 0, 0).Some? {
      var h := FirstHit(n, IntentPatterns, 0, 0).value;
      assert MatchGroups(n, PatternAt(h.intent, h.pattern)).Some?;
      assert IntentPatterns[h.intent].0 != Respond;
    }
  }

  /** When no pattern matches, the fallback tries its keyword groups in order: creation
      words first, then search words, then navigation words. */
  lemma FallbackOrder(message: string)
    ensures var n := Normalize(message); var a := IntentOf(message).action;
      !AnyPatternMatches(n) ==>
        && (a == Create <==> ContainsAny(n, "create", "add", "new"))
        && (a == Search <==> !ContainsAny(n, "create", "add", "new") && ContainsAny(n, "find", "search", "show"))
        && (a == Navigation <==>
              !ContainsAny(n, "create", "add", "new") && !ContainsAny(n, "find", "search", "show")
              && ContainsAny(n, "go", "open", "navigate"))
  {
    var n := Normalize(message);
    FirstHitIsFirst(n, IntentPatterns, 0, 0);
    if FirstHit(n, IntentPatterns, 0, 0).Some? {
      var h := FirstHit(n, IntentPatterns, 0, 0).value;
      assert MatchGroups(n, PatternAt(h.intent, h.pattern)).Some?;
    }
  }

  /** `w` occurs at `q` followed by whitespace and more text, none of it a line terminator. */
  predicate WordThenText(n: string, q: nat, w: string) {
    OccursAt(n, w, q) && q + |w| < |n| && IsSpace(n[q + |w|]) && NoLineTerminator(n, q, |n|)
  }

  /** In a trimmed text, a run of whitespace is followed by something else. */
  lemma AfterSpacesInside(n: string, p: nat)
    requires IsNormal(n) && p < |n| && IsSpace(n[p])
    ensures p + SpaceRun(n, p) < |n|
  {
    assert !IsSpace(n[|n| - 1]);
  }

  /** A pattern that opens with one of several phrases, whitespace, an optional part of
      two elements and then a capture followed only by optional parts matches any
      normalised text where one of those phrases is followed by whitespace and more. */
  lemma PhraseThenTextMatches(n: string, q: nat, pat: seq<Elem>, b: nat)
    requires |pat| >= 6 && pat[0].Words? && pat[1].Spaces? && pat[2] == Optional(2)
    requires pat[5].Group? && SkippableFrom(pat, 6)
    requires b < |pat[0].alts| && forall i :: 0 <= i < |pat[0].alts[b]| ==> !IsUpper(pat[0].alts[b][i])
    requires IsNormal(n) && WordThenText(n, q, pat[0].alts[b])
    ensures q <= |n| && MatchAt(n, q, pat).Some?
  {
    var p := q + |pat[0].alts[b]|;
    AfterSpacesInside(n, p);
    var p2 := p + SpaceRun(n, p);
    if MatchFrom(n, p2, pat, 3, map[]).None? {
      TailGroupFinds(n, p2, pat, 5, map[]);
    }
    assert MatchFrom(n, p2, pat, 2, map[]).Some?;
    WordsSpacesFinds(n, q, pat, 0, b, map[]);
  }

  /** The first navigation pattern matches `show me` followed by more text. */
  lemma ShowMeMatchesNavigation(n: string, q: nat)
    requires IsNormal(n) && WordThenText(n, q, "show me")
    ensures MatchGroups(n, NavigationPatterns[0]).Some?
  {
    var pat := NavigationPatterns[0].elems;
    assert pat[0].alts[3] == "show me";
    PhraseThenTextMatches(n, q, pat, 3);
    assert MatchAt(n, q, pat).Some?;
  }

  /** `show me X` is always a navigation: the first navigation pattern takes it before
      the search pattern that also starts with `show me` is tried. */
  lemma ShowMeIsNavigation(message: string, q: nat)
    requires WordThenText(Normalize(message), q, "show me")
    ensures IntentOf(message).action == Navigation
  {
    NormalizeIsNormal(message);
    ShowMeMatchesNavigation(Normalize(message), q);
    assert PatternAt(0, 0) == NavigationPatterns[0];
    EarlierIntentWins(message, 0, 0);
  }

  /** `assign X to Y` never reaches the assign intent: the update pattern that starts with
      `set` or `assign` matches it first, so the intent is at latest an update. */
  lemma AssignIsCaughtByUpdate(message: string, q: nat)
    requires WordThenText(Normalize(message), q, "assign")
    ensures IntentOf(message).action in {Navigation, Create, Search, Update}
  {
    NormalizeIsNormal(message);
    AssignMatchesUpdate(Normalize(message), q);
    assert PatternAt(3, 1) == UpdatePatterns[1];
    EarlierIntentWins(message, 3, 1);
    var i2: nat :| i2 <= 3 && IntentOf(message).action == IntentPatterns[i2].0;
    assert i2 == 0 || i2 == 1 || i2 == 2 || i2 == 3;
  }

  /** The second update pattern matches `assign` followed by more text. */
  lemma AssignMatchesUpdate(n: string, q: nat)
    requires IsNormal(n) && WordThenText(n, q, "assign")
    ensures MatchGroups(n, UpdatePatterns[1]).Some?
  {
    var pat := UpdatePatterns[1].elems;
    assert pat[0].alts[1] == "assign";
    PhraseThenCaptureMatches(n, q, pat, 1);
    assert MatchAt(n, q, pat).Some?;
  }

  /** A pattern that opens with one of several phrases, whitespace and a capture
      followed only by optional parts matches any normalised text where one of those
      phrases is followed by whitespace and more. */
  lemma PhraseThenCaptureMatches(n: string, q: nat, pat: seq<Elem>, b: nat)
    requires |pat| >= 3 && pat[0].Words? && pat[1].Spaces? && pat[2].Group? && SkippableFrom(pat, 3)
    requires b < |pat[0].alts| && forall i :: 0 <= i < |pat[0].alts[b]| ==> !IsUpper(pat[0].alts[b][i])
    requires IsNormal(n) && WordThenText(n, q, pat[0].alts[b])
    ensures q <= |n| && MatchAt(n, q, pat).Some?
  {
    var p := q + |pat[0].alts[b]|;
    AfterSpacesInside(n, p);
    TailGroupFinds(n, p + SpaceRun(n, p), pat, 2, map[]);
    WordsSpacesFinds(n, q, pat, 0, b, map[]);
  }

  // ---------------------------------------------------------------------------
  // generateResponse

  /** The module of the first of `words[k..]` that is a key of the keyword table. */
  function FirstMappedFrom(words: seq<string>, k: nat): (r: Option<string>)
    ensures r.None? <==> forall t :: k <= t < |words| ==> ModuleMap.Lookup(words[t]).None?
    ensures r.Some? ==> exists t :: k <= t < |words| && ModuleMap.Lookup(words[t]) == r
                                  && forall u :: k <= u < t ==> ModuleMap.Lookup(words[u]).None?
    ensures r.Some? ==> r.value in ModuleMap.ModuleNames
    decreases |words| - k
  {
    if k >= |words| then None
    else
      ModuleMap.LookupIsModule(words[k]);
      var m := ModuleMap.Lookup(words[k]);
      if m.Some? then m else FirstMappedFrom(words, k + 1)
  }

  /** The module `generateResponse` reads off a target: that of its first word, split at
      whitespace, that the keyword table knows. */
  function ModuleOf(target: string): Option<string> {
    FirstMappedFrom(Split(target), 0)
  }

  const NavigateHelp := "I can help you navigate to: Dashboard, Leads, Tickets, Deals, Projects, Tasks, Emails, Users, or Companies. Which would you like to visit?"
  const CreateHelp := "I can help you create: Leads, Tickets, Deals, Projects, Tasks, Emails, Users, or Companies. What would you like to create?"
  const SearchHelp := "I can search through: Leads, Tickets, Deals, Projects, Tasks, Emails, Users, or Companies. What would you like to search for?"
  const UpdateHelp := "To update records, please navigate to the specific module and select the item you want to modify. I can help you navigate there if you tell me what you want to update."
  const DeleteHelp := "To delete records, please navigate to the specific module and select the item you want to remove. I can help you navigate there if you tell me what you want to delete."
  const DashboardStatus := "Showing dashboard with current statistics and overview."
  const OverallStatus := "Showing overall system status and statistics."
  const AssignHelp := "To assign items, please navigate to the specific module (Leads, Tickets, Deals, Projects, or Tasks) and select the item you want to assign. I can help you navigate there."
  const GeneralHelp := "I can help you with: Navigate (go to any module), Create (add new records), Search (find specific items), View status (see dashboard), and manage all your business data. What would you like to do?"
  const StatsAnswer := "Showing your business statistics and key metrics."
  const DefaultAnswer := "I understand you want to work with your business data. I can help you navigate to different modules, create new records, search for information, or show statistics. Try saying something like 'show me leads', 'create a new ticket', or 'go to dashboard'."

  /** `module.slice(0, -1)`: the module name without its last character. */
  function EntityName(m: string): (r: string)
    ensures m != [] ==> m == r + [m[|m| - 1]]
    ensures m == [] ==> r == []
  {
    if m == [] then [] else m[..|m| - 1]
  }

  /** `context[0] || <target with every keyword removed, trimmed>`. */
  function SearchTerm(intent: Intent): string {
    if |intent.context| > 0 && intent.context[0] != "" then intent.context[0]
    else ModuleMap.StripKeys(intent.target)
  }

  /** The `switch` of `generateResponse` on the intent, given the module found in its
      target and the message as typed. */
  function Answer(intent: Intent, found: Option<string>, original: string): (r: Responses.AIResponse)
    ensures r.message.Some? && r.message.value != ""
    ensures r.action != Responses.Create
    ensures r.action in {Responses.Navigate, Responses.OpenModal} ==>
              r.moduleName.Some? && (r.moduleName == found || r.moduleName == Some("dashboard"))
    ensures r.action == Responses.Respond ==> r.moduleName.None?
    ensures r.action == Responses.OpenModal <==> intent.action == Create && found.Some?
    ensures r.search.Some? <==> intent.action == Search && found.Some?
  {
    match intent.action
    case Navigation =>
      if found.Some? then Responses.NavigateTo(found.value, "Navigating to " + found.value + " module.")
      else Responses.Say(NavigateHelp)
    case Create =>
      if found.Some? then
        Responses.AIResponse(Responses.OpenModal, found, Some("create"), None,
          Some("Opening form to create a new " + EntityName(found.value) + "."))
      else Responses.Say(CreateHelp)
    case Search => if found.Some? then SearchAnswer(intent, found.value) else Responses.Say(SearchHelp)
    case Update => Responses.Say(UpdateHelp)
    case Delete => Responses.Say(DeleteHelp)
    case Status => StatusAnswer(intent.target, found)
    case Assign => Responses.Say(AssignHelp)
    case Respond => GeneralAnswer(original)
  }

  /** The `search` branch once a module is found: the term, or all of the module. */
  function SearchAnswer(intent: Intent, m: string): Responses.AIResponse {
    var term := SearchTerm(intent);
    Responses.AIResponse(Responses.Navigate, Some(m), None, Some(term),
      Some(if term != "" then "Searching for \"" + term + "\" in " + m + "."
           else "Showing all " + m + "."))
  }

  /** The `status` branch: the dashboard for an overview, else the module found. */
  function StatusAnswer(target: string, found: Option<string>): Responses.AIResponse {
    if found == Some("dashboard") || Contains(target, "overview") || Contains(target, "summary") then
      Responses.NavigateTo("dashboard", DashboardStatus)
    else if found.Some? then
      Responses.NavigateTo(found.value, "Showing " + found.value + " status and information.")
    else Responses.NavigateTo("dashboard", OverallStatus)
  }

  /** The `default` branch: looks at the message as typed, ignoring case. */
  function GeneralAnswer(original: string): Responses.AIResponse {
    var lower := LowerStr(original);
    if Contains(lower, "help") then Responses.Say(GeneralHelp)
    else if Contains(lower, "stats") || Contains(lower, "numbers") then Responses.NavigateTo("dashboard", StatsAnswer)
    else Responses.Say(DefaultAnswer)
  }

  /** The loop of `generateResponse`: the module of the first word the keyword table
      knows, stopping there. */
  method FindModule(words: seq<string>) returns (found: Option<string>)
    ensures found == FirstMappedFrom(words, 0)
  {
    found := None;
    var k := 0;
    while k < |words|
      invariant k <= |words|
      invariant found.None?
      invariant FirstMappedFrom(words, 0) == FirstMappedFrom(words, k)
    {
      var m := ModuleMap.Lookup(words[k]);
      if m.Some? {
        found := m;
        break;
      }
      k := k + 1;
    }
  }

  /** `generateResponse`: looks for the first word of the target the keyword table knows,
      then answers according to the intent. */
  method GenerateResponse(intent: Intent, original: string) returns (r: Responses.AIResponse)
    ensures r == Answer(intent, ModuleOf(intent.target), original)
  {
    var found := FindModule(Split(intent.target));
    r := Answer(intent, found, original);
  }

  /** `processLocalAIMessage`: the answer to the intent read off the message. */
  function Reply(message: string): Responses.AIResponse {
    var intent := IntentOf(message);
    Answer(intent, ModuleOf(intent.target), message)
  }

  method ProcessLocalAIMessage(message: string) returns (r: Responses.AIResponse)
    ensures r == Reply(message)
  {
    var intent := ExtractIntent(message);
    r := GenerateResponse(intent, message);
  }

  // ---------------------------------------------------------------------------
  // What the answers promise

  /** Whenever the assistant switches the page, it switches to one of the ten modules. */
  lemma ReplyModuleIsKnown(message: string)
    ensures Reply(message).action in {Responses.Navigate, Responses.OpenModal} ==>
              Reply(message).moduleName.Some? && Reply(message).moduleName.value in ModuleMap.ModuleNames
  {
    var intent := IntentOf(message);
    var found := ModuleOf(intent.target);
    var r := Answer(intent, found, message);
    assert Reply(message) == r;
    assert found.Some? ==> found.value in ModuleMap.ModuleNames;
    assert "dashboard" in ModuleMap.ModuleNames;
  }

  /** Update, delete and assign intents only get an explanation, the same whatever the
      target, the module and the message. */
  lemma UnsupportedIntentsExplain(intent: Intent, found: Option<string>, original: string)
    requires intent.action in {Update, Delete, Assign}
    ensures var r := Answer(intent, found, original);
      r.action == Responses.Respond && r == Answer(Intent(intent.action, "", []), None, "")
  {
  }

  /** A form is only opened for a creation, in the module found. */
  lemma OpenModalCreates(intent: Intent, found: Option<string>, original: string)
    ensures var r := Answer(intent, found, original);
      r.action == Responses.OpenModal ==> r.kind == Some("create") && r.moduleName == found && found.Some?
  {
  }

  /** A creation with a module opens that module's creation form, announcing the module
      name minus its last letter; without a module, a creation or a search explains what
      it can work with. */
  lemma CreateAndSearchAnswers(intent: Intent, found: Option<string>, original: string)
    ensures intent.action == Create && found.Some? ==>
      Answer(intent, found, original) == Responses.AIResponse(Responses.OpenModal, found, Some("create"), None,
        Some("Opening form to create a new " + EntityName(found.value) + "."))
    ensures intent.action == Create && found.None? ==> Answer(intent, found, original) == Responses.Say(CreateHelp)
    ensures intent.action == Search && found.None? ==> Answer(intent, found, original) == Responses.Say(SearchHelp)
  {
  }

  /** Creating a company announces a "companie". */
  lemma CreateCompanyMessage(intent: Intent, original: string)
    requires intent.action == Create
    ensures Answer(intent, Some("companies"), original).message == Some("Opening form to create a new companie.")
  {
    CreateAndSearchAnswers(intent, Some("companies"), original);
    EntityNames();
    assert "Opening form to create a new " + "companie" + "." == "Opening form to create a new companie.";
  }

  /** A status question always navigates; to the dashboard when the module is the
      dashboard, the target mentions an overview or a summary, or no module was found. */
  lemma StatusNavigates(target: string, found: Option<string>)
    ensures StatusAnswer(target, found).action == Responses.Navigate
    ensures found.None? || found == Some("dashboard") || Contains(target, "overview")
            || Contains(target, "summary") ==>
              StatusAnswer(target, found).moduleName == Some("dashboard")
    ensures found.Some? ==> StatusAnswer(target, found).moduleName.Some?
  {
  }

  /** A status question about a module other than the dashboard, with no mention of an
      overview or a summary, shows that module's status. */
  lemma StatusShowsFoundModule(target: string, m: string)
    requires m != "dashboard"
    requires !Contains(target, "overview") && !Contains(target, "summary")
    ensures StatusAnswer(target, Some(m)) == Responses.NavigateTo(m, "Showing " + m + " status and information.")
  {
  }

  /** A navigation goes to the module found in the target, and without one explains how
      to navigate. */
  lemma NavigationGoesToModule(intent: Intent, found: Option<string>, original: string)
    requires intent.action == Navigation
    ensures found.Some? ==>
      Answer(intent, found, original) == Responses.NavigateTo(found.value, "Navigating to " + found.value + " module.")
    ensures found.None? ==> Answer(intent, found, original) == Responses.Say(NavigateHelp)
  {
  }

  /** The general answer checks for `help` before `stats` and `numbers`, in the message
      as typed, ignoring case; a message with none of them gets the default reply. */
  lemma HelpBeforeStats(original: string)
    ensures var r := GeneralAnswer(original); var lower := LowerStr(original);
      && (Contains(lower, "help") ==> r.action == Responses.Respond && r.message == Some(GeneralHelp))
      && (!Contains(lower, "help") && (Contains(lower, "stats") || Contains(lower, "numbers")) ==>
            r == Responses.NavigateTo("dashboard", StatsAnswer))
      && (!Contains(lower, "help") && !Contains(lower, "stats") && !Contains(lower, "numbers") ==>
            r.action == Responses.Respond && r.message == Some(DefaultAnswer))
  {
  }

  /** A search answer carries a context term when there is one; otherwise the target with
      the keywords removed; an empty term means "show all". */
  lemma SearchAnswerTerm(intent: Intent, m: string)
    ensures var r := SearchAnswer(intent, m);
      && r.action == Responses.Navigate && r.moduleName == Some(m)
      && (|intent.context| > 0 && intent.context[0] != "" ==> r.search == Some(intent.context[0]))
      && (intent.context == [] ==> r.search == Some(ModuleMap.StripKeys(intent.target)))
      && (r.search == Some("") <==> r.message == Some("Showing all " + m + "."))
      && (SearchTerm(intent) != "" ==>
            r.message == Some("Searching for \"" + SearchTerm(intent) + "\" in " + m + "."))
  {
    SearchingIsNotShowingAll(SearchTerm(intent), m);
  }

  /** The message for a search term never reads like the one for showing everything. */
  lemma SearchingIsNotShowingAll(term: string, m: string)
    ensures "Searching for \"" + term + "\" in " + m + "." != "Showing all " + m + "."
  {
    var a := "Searching for \"" + term + "\" in " + m + ".";
    var b := "Showing all " + m + ".";
    assert a[1] == 'e' && b[1] == 'h';
  }

  /** The singular in the creation message is the module name minus its last letter,
      which is not always a word. */
  lemma EntityNames()
    ensures EntityName("leads") == "lead"
    ensures EntityName("companies") == "companie"
    ensures EntityName("dashboard") == "dashboar"
  {
  }

  /** Removing the keys from `leads` leaves `s`: `lead` comes before `leads` among the
      keys, so the alternation removes the shorter key. */
  lemma SearchTermOfLeads()
    ensures ModuleMap.StripKeys("leads") == "s"
  {
    ModuleMap.LeadFirstAndKeysLong();
    LeadFirstLeavesS(ModuleMap.Keys());
  }

  /** With `lead` as the first alternative and no alternative shorter than three
      characters, the alternation removes `lead` from `leads` and leaves `s`. */
  lemma LeadFirstLeavesS(ks: seq<string>)
    requires |ks| > 0 && ks[0] == "lead"
    requires forall b :: 0 <= b < |ks| ==> |ks[b]| >= 3
    ensures ModuleMap.NoEmptyKey(ks)
    ensures ModuleMap.RemoveFrom("leads", 0, ks) == "s"
  {
    var w := "leads";
    assert Matcher.EqAt(w, 0, "lead", 4);
    assert Matcher.EqAt(w, 0, "lead", 0);
    assert ModuleMap.FirstKeyAt(w, 0, ks, 0) == Some(0);
    assert ModuleMap.FirstKeyAt(w, 4, ks, 0).None?;
    assert ModuleMap.RemoveFrom("leads", 4, ks) == "s";
  }

  // ---------------------------------------------------------------------------
  // suggestCorrections

  function DidYouMean(key: string): string {
    "Did you mean \"" + key + "\"?"
  }

  /** The tip for a short message; it opens differently from every key suggestion. */
  const TipOpening := "Try asking me to "
  const ShortTip := TipOpening + "'show dashboard' or 'create new lead'"

  /** `key.includes(word) || word.includes(key)`. */
  predicate Related(word: string, key: string) {
    Contains(key, word) || Contains(word, key)
  }

  /** The suggestions one word earns, going through `keys` in order. */
  function HitsFor(word: string, keys: seq<string>): (r: seq<string>)
    ensures |r| <= |keys|
    ensures forall x :: x in r ==> exists k :: k in keys && Related(word, k) && x == DidYouMean(k)
  {
    if keys == [] then []
    else
      var last := keys[|keys| - 1];
      HitsFor(word, keys[..|keys| - 1]) + (if Related(word, last) then [DidYouMean(last)] else [])
  }

  /** The suggestions all of `words` earn, word by word. */
  function AllHits(words: seq<string>, keys: seq<string>): (r: seq<string>)
    ensures forall x :: x in r ==> exists w, k :: w in words && k in keys && Related(w, k) && x == DidYouMean(k)
  {
    if words == [] then []
    else AllHits(words[..|words| - 1], keys) + HitsFor(words[|words| - 1], keys)
  }

  /** The first three of the suggestions `words` earn against `keys`, followed by the
      tip when the message is `short`. */
  function SuggestionsFrom(words: seq<string>, keys: seq<string>, short: bool): (r: seq<string>)
    ensures |r| <= 3
    ensures forall x :: x in r ==>
              (x == ShortTip && short) || exists w, k :: w in words && k in keys && Related(w, k) && x == DidYouMean(k)
  {
    var all := AllHits(words, keys) + (if short then [ShortTip] else []);
    if |all| <= 3 then all
    else
      assert forall x :: x in all[..3] ==> x in all;
      all[..3]
  }

  /** The tip is never one of the key suggestions. */
  lemma TipIsNoKeySuggestion(hits: seq<string>)
    requires forall x :: x in hits ==> exists k :: x == DidYouMean(k)
    ensures ShortTip !in hits
  {
    forall k ensures DidYouMean(k) != ShortTip {
      assert DidYouMean(k)[0] == 'D' && ShortTip[0] == TipOpening[0] == 'T';
    }
  }

  /** The key suggestions come first, in word-then-key order; the tip follows them, and
      is kept exactly when the message is short and fewer than three keys were suggested;
      otherwise the first three key suggestions are all there is. */
  lemma SuggestionsOrder(words: seq<string>, keys: seq<string>, short: bool)
    ensures var hits := AllHits(words, keys); var r := SuggestionsFrom(words, keys, short);
      && (forall i :: 0 <= i < |r| && i < |hits| ==> r[i] == hits[i])
      && (ShortTip in r <==> short && |hits| < 3)
      && (ShortTip in r ==> r == hits + [ShortTip])
      && (ShortTip !in r ==> r == hits[..if |hits| < 3 then |hits| else 3])
  {
    var hits := AllHits(words, keys);
    TipIsNoKeySuggestion(hits);
    var r := SuggestionsFrom(words, keys, short);
    if |hits| >= 3 {
      assert r == hits[..3];
      assert forall x :: x in hits[..3] ==> x in hits;
    }
  }

  /** `suggestCorrections(message)`: at most three suggestions, each naming a key related
      to a word of the normalised message, or the tip for a message shorter than three
      UTF-16 code units. */
  function Suggestions(message: string): (r: seq<string>)
    ensures |r| <= 3
    ensures forall x :: x in r ==>
              (x == ShortTip && Utf16Length(message) < 3)
              || exists w, k :: w in Split(Normalize(message)) && k in ModuleMap.Keys() && Related(w, k) && x == DidYouMean(k)
  {
    SuggestionsFrom(Split(Normalize(message)), ModuleMap.Keys(), Utf16Length(message) < 3)
  }

  /** For a message: the key suggestions for its words come first, in order, and the tip
      follows them only for a message shorter than three code units that earned fewer
      than three key suggestions; without the tip, the answer is the first three key
      suggestions, or all of them when there are fewer. */
  lemma MessageSuggestionsOrder(message: string)
    ensures var hits := AllHits(Split(Normalize(message)), ModuleMap.Keys()); var r := Suggestions(message);
      && (forall i :: 0 <= i < |r| && i < |hits| ==> r[i] == hits[i])
      && (ShortTip in r <==> Utf16Length(message) < 3 && |hits| < 3)
      && (ShortTip in r ==> r == hits + [ShortTip])
      && (ShortTip !in r ==> r == hits[..if |hits| < 3 then |hits| else 3])
  {
    SuggestionsOrder(Split(Normalize(message)), ModuleMap.Keys(), Utf16Length(message) < 3);
  }

  /** The double loop of `suggestCorrections`: for each word and each key, in order,
      suggests the key when one of the two contains the other. */
  method CollectHits(words: seq<string>, keys: seq<string>) returns (suggestions: seq<string>)
    ensures suggestions == AllHits(words, keys)
  {
    suggestions := [];
    for i := 0 to |words|
      invariant suggestions == AllHits(words[..i], keys)
    {
      var word := words[i];
      for t := 0 to |keys|
        invariant suggestions == AllHits(words[..i], keys) + HitsFor(word, keys[..t])
      {
        if Contains(keys[t], word) || Contains(word, keys[t]) {
          suggestions := suggestions + [DidYouMean(keys[t])];
        }
        assert keys[..t + 1][..t] == keys[..t];
      }
      assert keys[..|keys|] == keys;
      assert words[..i + 1][..i] == words[..i];
    }
    assert words[..|words|] == words;
  }

  /** `suggestCorrections`: the suggestions the words of the normalised message earn
      against the keys of the keyword table, the tip for a short message, the first three. */
  method SuggestCorrections(message: string) returns (r: seq<string>)
    ensures r == Suggestions(message)
  {
    var suggestions := CollectHits(Split(Normalize(message)), ModuleMap.Keys());
    if Utf16Length(message) < 3 {
      suggestions := suggestions + [ShortTip];
    }
    r := if |suggestions| <= 3 then suggestions else suggestions[..3];
  }

  /** A word every key is related to earns every key, in key order. */
  lemma {:induction false} HitsForAll(word: string, keys: seq<string>)
    requires forall k :: k in keys ==> Related(word, k)
    ensures HitsFor(word, keys) == seq(|keys|, i requires 0 <= i < |keys| => DidYouMean(keys[i]))
  {
    if keys != [] {
      HitsForAll(word, keys[..|keys| - 1]);
    }
  }

  /** The empty string is contained in every key. */
  lemma EmptyIsInEveryKey(k: string)
    ensures Related("", k)
  {
    assert SameAt(k, 0, "", 0);
  }

  /** With every key related to the only word, the first three suggestions name the
      first three keys. */
  lemma FirstThreeOfAllRelated(keys: seq<string>, tail: seq<string>)
    requires |keys| >= 3 && forall k :: k in keys ==> Related("", k)
    ensures |AllHits([""], keys) + tail| >= 3
    ensures (AllHits([""], keys) + tail)[..3] == [DidYouMean(keys[0]), DidYouMean(keys[1]), DidYouMean(keys[2])]
  {
    HitsForAll("", keys);
    assert [""][..0] == [];
    assert AllHits([""], keys) == HitsFor("", keys);
  }

  /** The empty word earns the first three keys, whatever follows. */
  lemma EmptyWordSuggestsFirstKeys(keys: seq<string>, short: bool)
    requires |keys| >= 3
    ensures SuggestionsFrom([""], keys, short) == [DidYouMean(keys[0]), DidYouMean(keys[1]), DidYouMean(keys[2])]
  {
    forall k | k in keys ensures Related("", k) {
      EmptyIsInEveryKey(k);
    }
    FirstThreeOfAllRelated(keys, if short then [ShortTip] else []);
  }

  /** A message with nothing left after normalising (empty, or punctuation only) is
      related to every key, so it gets the first three keys of the table. */
  lemma EmptyMessageSuggestsFirstKeys(message: string)
    requires Normalize(message) == ""
    ensures Suggestions(message) == [DidYouMean("lead"), DidYouMean("leads"), DidYouMean("customer")]
  {
    var keys := ModuleMap.Keys();
    var short := Utf16Length(message) < 3;
    assert Split(Normalize(message)) == [""];
    assert Suggestions(message) == SuggestionsFrom([""], keys, short);
    ModuleMap.KeysStart();
    EmptyWordSuggestsFirstKeys(keys, short);
    assert keys[..3] == [keys[0], keys[1], keys[2]];
  }

  /** A message of three or more code units none of whose words is related to a key
      gets no suggestion. */
  lemma NoSuggestionWithoutRelatedKey(message: string)
    requires Utf16Length(message) >= 3
    requires forall w, k :: w in Split(Normalize(message)) && k in ModuleMap.Keys() ==> !Related(w, k)
    ensures Suggestions(message) == []
  {
    var r := Suggestions(message);
    assert forall x :: x !in r;
    NoMemberMeansEmpty(r);
  }

  lemma NoMemberMeansEmpty(r: seq<string>)
    ensures (forall x :: x !in r) ==> r == []
  {
    if r != [] {
      assert r[0] in r;
    }
  }
}
