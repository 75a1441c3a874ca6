/**
 * Three handlers of server/routes.ts: the dashboard figures of `GET /api/stats`, the
 * collections `GET /api/search` consults, and the guard of `POST /api/ai/chat` in
 * front of the assistant. The rows are given as sequences in storage order; what the
 * storage's search functions return is not modelled, only which of them is asked.
 */
module Routes {
  import opened Wrappers
  import opened Records
  import Sorting
  import Text
  import LocalAI
  import Responses
  import ModuleMap

  /** A request value: absent, a string, or some other JSON or query value (a number,
      a boolean, `null`, an array or an object) with its JavaScript truthiness. */
  datatype Value = Absent | Text(s: string) | NonText(truthy: bool)

  predicate Truthy(v: Value) {
    match v
    case Absent => false
    case Text(s) => s != ""
    case NonText(t) => t
  }

  // ---------------------------------------------------------------------------
  // GET /api/stats

  /** The number of elements of `s` that satisfy `p`: `s.filter(p).length`. */
  function CountWhere<T>(s: seq<T>, p: T -> bool): (n: nat)
    ensures n <= |s|
    ensures n == |s| <==> forall i :: 0 <= i < |s| ==> p(s[i])
    ensures n == 0 <==> forall i :: 0 <= i < |s| ==> !p(s[i])
  {
    if s == [] then 0
    else
      var last := s[|s| - 1];
      var rest := CountWhere(s[..|s| - 1], p);
      assert forall i :: 0 <= i < |s| - 1 ==> s[..|s| - 1][i] == s[i];
      rest + (if p(last) then 1 else 0)
  }

  /** Counting over a concatenation adds the counts of the two parts. */
  lemma {:induction false} CountWhereConcat<T>(a: seq<T>, b: seq<T>, p: T -> bool)
    ensures CountWhere(a + b, p) == CountWhere(a, p) + CountWhere(b, p)
    decreases |b|
  {
    if b == [] {
      assert a + b == a;
    } else {
      var b' := b[..|b| - 1];
      assert (a + b)[..|a + b| - 1] == a + b';
      assert (a + b)[|a + b| - 1] == b[|b| - 1];
      CountWhereConcat(a, b', p);
    }
  }

  /** A single element counts one exactly when it satisfies `p`. */
  lemma CountWhereOne<T>(x: T, p: T -> bool)
    ensures CountWhere([x], p) == if p(x) then 1 else 0
  {
  }

  /** Every element is counted by exactly one of `p` and its negation `q`. */
  lemma {:induction false} CountComplement<T>(s: seq<T>, p: T -> bool, q: T -> bool)
    requires forall x :: q(x) <==> !p(x)
    ensures CountWhere(s, p) + CountWhere(s, q) == |s|
  {
    if s != [] {
      CountComplement(s[..|s| - 1], p, q);
    }
  }

  predicate TicketIsActive(t: Ticket) {
    t.status != Some("resolved")
  }

  predicate TicketIsResolved(t: Ticket) {
    t.status == Some("resolved")
  }

  predicate ProjectIsActive(p: Project) {
    p.status == Some("active")
  }

  /** One line of the dashboard's recent activity. */
  datatype Activity = Activity(kind: string, message: string, timestamp: Option<int>)

  function LeadActivity(l: Lead): Activity {
    Activity("lead", "New lead created: " + l.name, l.createdAt)
  }

  /** A ticket's line: its last update, or its creation when it was never updated. */
  function TicketActivity(t: Ticket): Activity {
    Activity("ticket", "Ticket " + Shown(t.status) + ": " + t.title,
      if t.updatedAt.Some? then t.updatedAt else t.createdAt)
  }

  function DealActivity(d: Deal): Activity {
    Activity("deal", "Deal " + Shown(d.stage) + ": " + d.title, d.createdAt)
  }

  /** `s.slice(-3)`: the last three elements, or all of them when there are fewer. */
  function LastThree<T>(s: seq<T>): (r: seq<T>)
    ensures |r| <= 3 && |r| <= |s|
    ensures |s| <= 3 ==> r == s
    ensures |s| > 3 ==> |r| == 3
    ensures r == s[|s| - |r|..]
  {
    if |s| <= 3 then s else s[|s| - 3..]
  }

  /** `s.map(f)`. */
  function Map<A, B>(s: seq<A>, f: A -> B): (r: seq<B>)
    ensures |r| == |s| && forall i :: 0 <= i < |s| ==> r[i] == f(s[i])
  {
    if s == [] then [] else [f(s[0])] + Map(s[1..], f)
  }

  /** The elements of `s.map(f)` are the images of the elements of `s`. */
  lemma MapMembers<A, B>(s: seq<A>, f: A -> B, b: B)
    ensures b in Map(s, f) <==> exists a :: a in s && b == f(a)
  {
    var r := Map(s, f);
    if b in r {
      var i :| 0 <= i < |r| && r[i] == b;
      assert s[i] in s;
    }
    if exists a :: a in s && b == f(a) {
      var a :| a in s && b == f(a);
      var i :| 0 <= i < |s| && s[i] == a;
      assert r[i] == b;
    }
  }

  /** The activity lines before sorting: the last three leads, tickets and deals. */
  function ActivityLines(leads: seq<Lead>, tickets: seq<Ticket>, deals: seq<Deal>): seq<Activity> {
    Map(LastThree(leads), LeadActivity) + Map(LastThree(tickets), TicketActivity)
    + Map(LastThree(deals), DealActivity)
  }

  /** `timestamp || 0` in milliseconds. */
  function Time(a: Activity): int {
    a.timestamp.GetOr(0)
  }

  /** The comparator `(a, b) => time(b) - time(a)` as a key: newest first. */
  function NewestFirst(a: Activity): Sorting.Key {
    (-Time(a), 0)
  }

  /** `s.slice(0, 10)`. */
  function FirstTen<T>(s: seq<T>): (r: seq<T>)
    ensures |r| <= 10 && |r| <= |s|
    ensures r == s[..|r|]
    ensures |s| <= 10 ==> r == s
  {
    if |s| <= 10 then s else s[..10]
  }

  function RecentActivity(leads: seq<Lead>, tickets: seq<Ticket>, deals: seq<Deal>): seq<Activity> {
    FirstTen(Sorting.SortBy(ActivityLines(leads, tickets, deals), NewestFirst))
  }

  /** The figures the dashboard shows (the revenue total is not modelled). */
  datatype Stats = Stats(
    totalLeads: nat, activeTickets: nat, activeProjects: nat, totalUsers: nat,
    recentActivity: seq<Activity>)

  function StatsOf(leads: seq<Lead>, tickets: seq<Ticket>, deals: seq<Deal>, projects: seq<Project>,
                   users: seq<User>): Stats {
    Stats(|leads|, CountWhere(tickets, TicketIsActive), CountWhere(projects, ProjectIsActive), |users|,
      RecentActivity(leads, tickets, deals))
  }

  /** The stats object: all leads and users counted, active tickets are those not yet
      resolved and active projects those whose status is `active`, and the activity is
      the recent activity, whose bound of nine lines comes from
      `RecentActivityIsSortedLines`. Both counts are `CountWhere`, which
      `CountWhereConcat` and `CountWhereOne` fix as the number of qualifying rows. */
  lemma StatsAreTheCounts(leads: seq<Lead>, tickets: seq<Ticket>, deals: seq<Deal>, projects: seq<Project>,
                          users: seq<User>)
    ensures var st := StatsOf(leads, tickets, deals, projects, users);
      && st.totalLeads == |leads| && st.totalUsers == |users|
      && st.activeTickets == CountWhere(tickets, TicketIsActive)
      && st.activeTickets + CountWhere(tickets, TicketIsResolved) == |tickets|
      && (st.activeTickets == |tickets| <==> forall i :: 0 <= i < |tickets| ==> tickets[i].status != Some("resolved"))
      && (st.activeProjects == 0 <==> forall i :: 0 <= i < |projects| ==> projects[i].status != Some("active"))
      && st.activeProjects == CountWhere(projects, ProjectIsActive) && st.activeProjects <= |projects|
      && st.recentActivity == RecentActivity(leads, tickets, deals) && |st.recentActivity| <= 9
  {
    ActiveTicketsAndResolved(tickets);
    RecentActivityIsSortedLines(leads, tickets, deals);
  }

  /** Active tickets are the ones not resolved: every ticket is either counted or resolved. */
  lemma ActiveTicketsAndResolved(tickets: seq<Ticket>)
    ensures CountWhere(tickets, TicketIsActive) + CountWhere(tickets, TicketIsResolved) == |tickets|
  {
    CountComplement(tickets, TicketIsActive, TicketIsResolved);
  }

  /** At most nine lines of activity, so the cap of ten never cuts any off; newest
      first; exactly the lines of the last three leads, tickets and deals; and lines
      with the same time in the order leads, tickets, deals. */
  lemma RecentActivityIsSortedLines(leads: seq<Lead>, tickets: seq<Ticket>, deals: seq<Deal>)
    ensures var r := RecentActivity(leads, tickets, deals);
      && |r| <= 9
      && r == Sorting.SortBy(ActivityLines(leads, tickets, deals), NewestFirst)
      && (forall i, j :: 0 <= i < j < |r| ==> Time(r[i]) >= Time(r[j]))
      && multiset(r) == multiset(ActivityLines(leads, tickets, deals))
      && forall k :: Sorting.WithKey(r, NewestFirst, k) == Sorting.WithKey(ActivityLines(leads, tickets, deals), NewestFirst, k)
  {
    var lines := ActivityLines(leads, tickets, deals);
    assert |lines| <= 9;
    FewLinesSortNewestFirst(lines);
  }

  /** Sorting at most ten lines newest first and keeping the first ten keeps them all. */
  lemma FewLinesSortNewestFirst(lines: seq<Activity>)
    requires |lines| <= 10
    ensures var r := FirstTen(Sorting.SortBy(lines, NewestFirst));
      && |r| == |lines|
      && r == Sorting.SortBy(lines, NewestFirst)
      && (forall i, j :: 0 <= i < j < |r| ==> Time(r[i]) >= Time(r[j]))
      && multiset(r) == multiset(lines)
      && forall k :: Sorting.WithKey(r, NewestFirst, k) == Sorting.WithKey(lines, NewestFirst, k)
  {
    var sorted := Sorting.SortBy(lines, NewestFirst);
    assert |sorted| == |multiset(sorted)| == |multiset(lines)| == |lines|;
    assert forall i, j :: 0 <= i < j < |sorted| ==> Sorting.KeyLe(NewestFirst(sorted[i]), NewestFirst(sorted[j]));
  }

  /** Each line comes from one of the last three leads, tickets or deals, and each of
      those has its line. */
  lemma ActivityLinesAreTheLatest(leads: seq<Lead>, tickets: seq<Ticket>, deals: seq<Deal>, a: Activity)
    ensures a in ActivityLines(leads, tickets, deals) <==>
      (exists l :: l in LastThree(leads) && a == LeadActivity(l))
      || (exists t :: t in LastThree(tickets) && a == TicketActivity(t))
      || (exists d :: d in LastThree(deals) && a == DealActivity(d))
  {
    MapMembers(LastThree(leads), LeadActivity, a);
    MapMembers(LastThree(tickets), TicketActivity, a);
    MapMembers(LastThree(deals), DealActivity, a);
  }

  // ---------------------------------------------------------------------------
  // GET /api/search

  /** The collections the handler can search, in the order it asks them. */
  const Collections: seq<string> := ["leads", "tickets", "deals", "projects"]

  /** The answer: a 400 with its message, or the names of the collections searched
      for the query. */
  datatype SearchAnswer = SearchRejected(message: string) | Searched(query: string, collections: seq<string>)

  /** `!type || type === name`. */
  predicate Wanted(kind: Value, name: string) {
    !Truthy(kind) || kind == Text(name)
  }

  function Search(q: Value, kind: Value): (r: SearchAnswer)
    ensures r.SearchRejected? <==> !(q.Text? && q.s != "")
    ensures r.Searched? ==> r.query == q.s
  {
    if !Truthy(q) || !q.Text? then SearchRejected("Query parameter 'q' is required")
    else Searched(q.s, FilterWanted(kind, Collections))
  }

  /** The collections of `names` that `kind` asks for, in order. */
  function FilterWanted(kind: Value, names: seq<string>): (r: seq<string>)
    ensures forall x :: x in r <==> x in names && Wanted(kind, x)
  {
    if names == [] then []
    else (if Wanted(kind, names[0]) then [names[0]] else []) + FilterWanted(kind, names[1..])
  }

  lemma {:induction false} FilterUntyped(kind: Value, names: seq<string>)
    requires !Truthy(kind)
    ensures FilterWanted(kind, names) == names
  {
    if names != [] {
      FilterUntyped(kind, names[1..]);
    }
  }

  lemma {:induction false} FilterTyped(kind: Value, names: seq<string>)
    requires Truthy(kind)
    requires forall i, j :: 0 <= i < j < |names| ==> names[i] != names[j]
    ensures FilterWanted(kind, names) == if kind.Text? && kind.s in names then [kind.s] else []
  {
    if names != [] {
      var rest := names[1..];
      forall i, j | 0 <= i < j < |rest| ensures rest[i] != rest[j] {
        assert rest[i] == names[i + 1] && rest[j] == names[j + 1];
      }
      FilterTyped(kind, rest);
      assert names == [names[0]] + rest;
      assert FilterWanted(kind, names) == (if Wanted(kind, names[0]) then [names[0]] else []) + FilterWanted(kind, rest);
      if kind.Text? && kind.s == names[0] {
        forall i | 0 <= i < |rest| ensures rest[i] != names[0] {
          assert rest[i] == names[i + 1];
        }
        assert kind.s !in rest;
      } else {
        assert !Wanted(kind, names[0]);
        assert kind.Text? ==> (kind.s in names <==> kind.s in rest);
      }
    }
  }

  /** Without a type, or with an empty one, every collection is searched. */
  lemma SearchWithoutType(q: string, kind: Value)
    requires q != "" && !Truthy(kind)
    ensures Search(Text(q), kind) == Searched(q, Collections)
  {
    FilterUntyped(kind, Collections);
  }

  /** A type that names a collection restricts the search to it; any other type
      searches nothing and answers an empty result. */
  lemma SearchWithType(q: string, kind: Value)
    requires q != "" && Truthy(kind)
    ensures kind.Text? && kind.s in Collections ==> Search(Text(q), kind) == Searched(q, [kind.s])
    ensures !(kind.Text? && kind.s in Collections) ==> Search(Text(q), kind) == Searched(q, [])
  {
    FilterTyped(kind, Collections);
  }

  // ---------------------------------------------------------------------------
  // POST /api/ai/chat

  /** The answer: a 400 with its message, or the assistant's reply. */
  datatype ChatAnswer = ChatRejected(message: string) | Replied(response: Responses.AIResponse)

  const ChatError: string := "I'm sorry, I encountered an error. Please try again."

  /** The handler on the body's `message`: a falsy one is refused; a string is trimmed
      and handed to the assistant; any other truthy value has no `trim`, and the error
      that raises is answered with an apology. */
  function Chat(message: Value): ChatAnswer {
    if !Truthy(message) then ChatRejected("Message is required")
    else if message.Text? then Replied(LocalAI.Reply(Text.Trim(message.s)))
    else Replied(Responses.Say(ChatError))
  }

  /** Exactly the falsy messages are refused; every other message gets an answer with
      a non-empty text, never the legacy `create` action, and switching only to a
      known module. */
  lemma ChatAnswers(message: Value)
    ensures Chat(message).ChatRejected? <==> !Truthy(message)
    ensures Chat(message).Replied? ==>
      var r := Chat(message).response;
      && r.message.Some? && r.message.value != ""
      && r.action != Responses.Create
      && (r.action in {Responses.Navigate, Responses.OpenModal} ==>
            r.moduleName.Some? && r.moduleName.value in ModuleMap.ModuleNames)
  {
    if message.Text? && message.s != "" {
      LocalAI.ReplyModuleIsKnown(Text.Trim(message.s));
    }
  }

  /** Surrounding whitespace does not change the reply to a message that has more
      than whitespace. */
  lemma ChatIgnoresSurroundingSpace(s: string, pad1: string, pad2: string)
    requires Text.Trim(s) != ""
    requires forall i :: 0 <= i < |pad1| ==> Text.IsSpace(pad1[i])
    requires forall i :: 0 <= i < |pad2| ==> Text.IsSpace(pad2[i])
    ensures Chat(Text(pad1 + Text.Trim(s) + pad2)) == Chat(Text(s))
  {
    var p := pad1 + Text.Trim(s) + pad2;
    TrimmedAgain(s, pad1, pad2);
    assert Truthy(Text(p)) && Truthy(Text(s));
    assert Chat(Text(p)) == Replied(LocalAI.Reply(Text.Trim(p)));
  }

  /** Padding a trimmed message with whitespace and trimming again gives it back, and
      neither the padded nor the original message is empty. */
  lemma TrimmedAgain(s: string, pad1: string, pad2: string)
    requires Text.Trim(s) != ""
    requires forall i :: 0 <= i < |pad1| ==> Text.IsSpace(pad1[i])
    requires forall i :: 0 <= i < |pad2| ==> Text.IsSpace(pad2[i])
    ensures Text.Trim(pad1 + Text.Trim(s) + pad2) == Text.Trim(s)
    ensures pad1 + Text.Trim(s) + pad2 != [] && s != []
  {
    var t := Text.Trim(s);
    Text.TrimShape(s);
    Text.TrimRemovesPadding(pad1, t, pad2);
    assert |pad1 + t + pad2| >= |t|;
  }
}
