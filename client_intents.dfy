/**
 * The browser's side of the assistant (client/src/lib/intents.ts): what it does with
 * an answer, as the list of effects it causes, and its own keyword classifier of a
 * message.
 */
module ClientIntents {
  import opened Wrappers
  import Text
  import Responses
  import ModuleMap
  import LocalAI

  // ---------------------------------------------------------------------------
  // processAIResponse

  /** What handling an answer causes: a switch of the visible module, a toast, or the
      opening of a form after a delay in milliseconds. */
  datatype Effect =
    | SwitchModule(name: string)
    | Toast(title: string, description: string)
    | OpenFormLater(delay: nat, kind: string, name: string)

  /** The form opener is scheduled this long after the module switch. */
  const FormDelay: nat := 100

  /** The effects of `processAIResponse(r, onModuleChange, onOpenModal)`, in order;
      `canOpenForms` says whether `onOpenModal` was passed. */
  function Effects(r: Responses.AIResponse, canOpenForms: bool): (e: seq<Effect>)
    ensures r.action == Responses.Respond ==> e == []
    ensures |e| <= 2
    ensures forall i :: 0 <= i < |e| && e[i].SwitchModule? ==>
      e[i].name in {"crm", "tickets"} || Some(e[i].name) == r.moduleName
  {
    match r.action
    case Navigate =>
      if Responses.Truthy(r.moduleName) then
        [SwitchModule(r.moduleName.value), Toast("Navigation", "Navigated to " + r.moduleName.value + " module")]
      else []
    case OpenModal =>
      (if Responses.Truthy(r.moduleName) then [SwitchModule(r.moduleName.value)] else [])
      + (if Responses.Truthy(r.kind) && canOpenForms
         then [OpenFormLater(FormDelay, r.kind.value, r.moduleName.GetOr(""))] else [])
    case Create =>
      if r.kind == Some("lead") then [SwitchModule("crm"), Toast("Create Lead", "Opening lead creation form...")]
      else if r.kind == Some("ticket") then [SwitchModule("tickets"), Toast("Create Ticket", "Opening ticket creation form...")]
      else []
    case Respond => []
  }

  /** A form is only ever opened after a switch to the module it belongs to, when the
      answer names one. */
  lemma FormFollowsSwitch(r: Responses.AIResponse, canOpenForms: bool)
    ensures var e := Effects(r, canOpenForms);
      forall i :: 0 <= i < |e| && e[i].OpenFormLater? ==>
        r.action == Responses.OpenModal && canOpenForms && e[i].delay == FormDelay
        && (Responses.Truthy(r.moduleName) ==> i == 1 && e[0] == SwitchModule(r.moduleName.value))
  {
  }

  /** Each action on its own: a navigation switches and announces only when the answer
      names a module; `open_modal` switches when it names one and, given a type and an
      opener, ends by scheduling the form with the module or `""`; the legacy `create`
      sends a lead to `crm` and a ticket to `tickets`, each with its toast, and does
      nothing for any other type. */
  lemma EffectsByAction(r: Responses.AIResponse, canOpenForms: bool)
    ensures var e := Effects(r, canOpenForms);
      && (r.action == Responses.Navigate ==>
            (Responses.Truthy(r.moduleName) ==>
               e == [SwitchModule(r.moduleName.value), Toast("Navigation", "Navigated to " + r.moduleName.value + " module")])
            && (!Responses.Truthy(r.moduleName) ==> e == []))
      && (r.action == Responses.OpenModal ==>
            (Responses.Truthy(r.moduleName) ==> |e| > 0 && e[0] == SwitchModule(r.moduleName.value))
            && (!Responses.Truthy(r.moduleName) ==> forall i :: 0 <= i < |e| ==> !e[i].SwitchModule?)
            && (Responses.Truthy(r.kind) && canOpenForms ==>
                  |e| > 0 && e[|e| - 1] == OpenFormLater(FormDelay, r.kind.value, r.moduleName.GetOr("")))
            && (!(Responses.Truthy(r.kind) && canOpenForms) ==> forall i :: 0 <= i < |e| ==> !e[i].OpenFormLater?))
      && (r.action == Responses.Create ==>
            (r.kind == Some("lead") ==> e == [SwitchModule("crm"), Toast("Create Lead", "Opening lead creation form...")])
            && (r.kind == Some("ticket") ==> e == [SwitchModule("tickets"), Toast("Create Ticket", "Opening ticket creation form...")])
            && (r.kind != Some("lead") && r.kind != Some("ticket") ==> e == []))
  {
  }

  /** An answer of the kind the assistant gives: never `create`, a known module
      whenever the page changes, and a form only for a creation. */
  predicate AssistantShaped(r: Responses.AIResponse) {
    && r.action != Responses.Create
    && (r.action in {Responses.Navigate, Responses.OpenModal} ==>
          r.moduleName.Some? && r.moduleName.value in ModuleMap.ModuleNames)
    && (r.action == Responses.OpenModal ==> r.kind == Some("create"))
  }

  /** The effects of such an answer: a page switch and a toast for a navigation, a page
      switch and then the creation form for an `open_modal`, nothing for a plain reply;
      every switch goes to a known module. */
  lemma ShapedAnswerEffects(r: Responses.AIResponse, canOpenForms: bool)
    requires AssistantShaped(r)
    ensures var e := Effects(r, canOpenForms);
      && (r.action == Responses.Navigate ==>
            e == [SwitchModule(r.moduleName.value), Toast("Navigation", "Navigated to " + r.moduleName.value + " module")])
      && (r.action == Responses.OpenModal ==>
            e == [SwitchModule(r.moduleName.value)]
                 + (if canOpenForms then [OpenFormLater(FormDelay, "create", r.moduleName.value)] else []))
      && (r.action == Responses.Respond ==> e == [])
      && (forall i :: 0 <= i < |e| && e[i].SwitchModule? ==> e[i].name in ModuleMap.ModuleNames)
  {
    assert "" !in ModuleMap.ModuleNames;
  }

  /** Every answer of the assistant has that shape. */
  lemma RepliesAreAssistantShaped(message: string)
    ensures AssistantShaped(LocalAI.Reply(message))
  {
    var intent := LocalAI.IntentOf(message);
    var found := LocalAI.ModuleOf(intent.target);
    LocalAI.ReplyModuleIsKnown(message);
    LocalAI.OpenModalCreates(intent, found, message);
  }

  // ---------------------------------------------------------------------------
  // parseUserIntent

  /** The keyword groups of `parseUserIntent`, in the order it tries them, each with
      the intent it returns. */
  const NavigationKeywords: seq<(string, seq<string>)> := [
    ("navigate:dashboard", ["dashboard", "home"]),
    ("navigate:crm", ["crm", "customer", "lead"]),
    ("navigate:tickets", ["ticket", "support"]),
    ("navigate:sales", ["sales", "revenue", "deal"]),
    ("navigate:projects", ["project", "task"]),
    ("navigate:email", ["email", "mail"])
  ]

  predicate ContainsSome(s: string, words: seq<string>) {
    exists w :: w in words && Text.Contains(s, w)
  }

  /** `parseUserIntent(message)`, branch by branch. */
  function ParseUserIntent(message: string): string {
    var lower := Text.LowerStr(message);
    if Text.Contains(lower, "dashboard") || Text.Contains(lower, "home") then "navigate:dashboard"
    else if Text.Contains(lower, "crm") || Text.Contains(lower, "customer") || Text.Contains(lower, "lead") then "navigate:crm"
    else if Text.Contains(lower, "ticket") || Text.Contains(lower, "support") then "navigate:tickets"
    else if Text.Contains(lower, "sales") || Text.Contains(lower, "revenue") || Text.Contains(lower, "deal") then "navigate:sales"
    else if Text.Contains(lower, "project") || Text.Contains(lower, "task") then "navigate:projects"
    else if Text.Contains(lower, "email") || Text.Contains(lower, "mail") then "navigate:email"
    else if Text.Contains(lower, "create") || Text.Contains(lower, "add") || Text.Contains(lower, "new") then
      if Text.Contains(lower, "lead") then "create:lead"
      else if Text.Contains(lower, "ticket") then "create:ticket"
      else if Text.Contains(lower, "deal") then "create:deal"
      else if Text.Contains(lower, "project") then "create:project"
      else "general"
    else "general"
  }

  /** The intent of the first group from `k` on with a keyword in `s`, else `general`. */
  function FirstGroupFrom(s: string, k: nat): string
    requires k <= |NavigationKeywords|
    decreases |NavigationKeywords| - k
  {
    if k == |NavigationKeywords| then "general"
    else if ContainsSome(s, NavigationKeywords[k].1) then NavigationKeywords[k].0
    else FirstGroupFrom(s, k + 1)
  }

  /** The classifier is the first keyword group that occurs in the lower-cased message:
      its creation branches can never be reached, because a message that names a
      lead, ticket, deal or project has already been sent to that page. */
  lemma ParseIsFirstGroup(message: string)
    ensures ParseUserIntent(message) == FirstGroupFrom(Text.LowerStr(message), 0)
  {
    var s := Text.LowerStr(message);
    var g := NavigationKeywords;
    ContainsSomeOfTwo(s, "dashboard", "home");
    ContainsSomeOfThree(s, "crm", "customer", "lead");
    ContainsSomeOfTwo(s, "ticket", "support");
    ContainsSomeOfThree(s, "sales", "revenue", "deal");
    ContainsSomeOfTwo(s, "project", "task");
    ContainsSomeOfTwo(s, "email", "mail");
  }

  lemma ContainsSomeOfTwo(s: string, a: string, b: string)
    ensures ContainsSome(s, [a, b]) <==> Text.Contains(s, a) || Text.Contains(s, b)
  {
    if Text.Contains(s, a) { assert a in [a, b]; }
    if Text.Contains(s, b) { assert b in [a, b]; }
  }

  lemma ContainsSomeOfThree(s: string, a: string, b: string, c: string)
    ensures ContainsSome(s, [a, b, c]) <==> Text.Contains(s, a) || Text.Contains(s, b) || Text.Contains(s, c)
  {
    if Text.Contains(s, a) { assert a in [a, b, c]; }
    if Text.Contains(s, b) { assert b in [a, b, c]; }
    if Text.Contains(s, c) { assert c in [a, b, c]; }
  }

  /** The classifier never answers a `create:` intent: it navigates or gives up. */
  lemma ParseNeverCreates(message: string)
    ensures ParseUserIntent(message) in
      {"navigate:dashboard", "navigate:crm", "navigate:tickets", "navigate:sales", "navigate:projects",
       "navigate:email", "general"}
  {
  }

  /** A message is `general` exactly when it holds none of the keywords. */
  lemma ParseGeneralIff(message: string)
    ensures ParseUserIntent(message) == "general" <==>
      forall k :: 0 <= k < |NavigationKeywords| ==> !ContainsSome(Text.LowerStr(message), NavigationKeywords[k].1)
  {
    ParseIsFirstGroup(message);
    FirstGroupGeneral(Text.LowerStr(message), 0);
  }

  lemma {:induction false} FirstGroupGeneral(s: string, k: nat)
    requires k <= |NavigationKeywords|
    ensures FirstGroupFrom(s, k) == "general" <==>
      forall k2 :: k <= k2 < |NavigationKeywords| ==> !ContainsSome(s, NavigationKeywords[k2].1)
    decreases |NavigationKeywords| - k
  {
    if k < |NavigationKeywords| {
      FirstGroupGeneral(s, k + 1);
    }
  }
}
