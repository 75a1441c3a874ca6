/**
 * `GET /api/reminders` (server/routes.ts): the reminders gathered from tickets, tasks,
 * deals, projects and leads, then sorted by priority and date. The current time `now`
 * and the clock reading `clock` taken for a lead without a creation date are
 * parameters.
 */
module Reminders {
  import opened Wrappers
  import opened Records
  import Sorting

  /** Milliseconds in a day. */
  const Day: int := 24 * 60 * 60 * 1000

  datatype Kind = TicketKind | TaskKind | DealKind | ProjectKind | LeadKind

  datatype Priority = Overdue | Urgent | Upcoming | FollowUp

  datatype Reminder = Reminder(
    id: string, kind: Kind, title: string, description: string,
    dueDate: Option<int>, priority: Priority, itemId: nat)

  /** The `type` field, which also prefixes the id. */
  function KindName(k: Kind): string {
    match k
    case TicketKind => "ticket"
    case TaskKind => "task"
    case DealKind => "deal"
    case ProjectKind => "project"
    case LeadKind => "lead"
  }

  function ReminderId(k: Kind, item: nat): string {
    KindName(k) + "-" + Decimal(item)
  }

  /** The priority of a dated item: overdue at or before `now`, urgent within a day,
      upcoming after that. */
  function Urgency(due: int, now: int): Priority {
    if due <= now then Overdue else if due <= now + Day then Urgent else Upcoming
  }

  /** The word that ends a dated reminder's description. */
  function DueWord(due: int, now: int): string {
    if due <= now then "now" else if due <= now + Day then "tomorrow" else "soon"
  }

  /** The description always says what the priority says. */
  lemma DueWordAgreesWithUrgency(due: int, now: int)
    ensures DueWord(due, now) == "now" <==> Urgency(due, now) == Overdue
    ensures DueWord(due, now) == "tomorrow" <==> Urgency(due, now) == Urgent
    ensures DueWord(due, now) == "soon" <==> Urgency(due, now) == Upcoming
    ensures Urgency(due, now) == Overdue <==> due <= now
    ensures Urgency(due, now) == Urgent <==> now < due <= now + Day
    ensures Urgency(due, now) == Upcoming <==> now + Day < due
  {
  }

  // ---------------------------------------------------------------------------
  // Tickets

  /** An open ticket with a due date at most two days ahead. */
  predicate TicketDue(t: Ticket, now: int) {
    t.dueDate.Some? && t.status != Some("resolved") && t.status != Some("closed")
    && t.dueDate.value <= now + 2 * Day
  }

  function TicketReminder(t: Ticket, now: int): Reminder
    requires t.dueDate.Some?
  {
    var due := t.dueDate.value;
    Reminder(ReminderId(TicketKind, t.id), TicketKind, "Ticket Due: " + t.title,
      "Ticket #" + Decimal(t.id) + " is due " + DueWord(due, now), t.dueDate, Urgency(due, now), t.id)
  }

  /** The ticket reminders, in the order of the tickets: one for each ticket that is due. */
  function TicketReminders(ts: seq<Ticket>, now: int): (r: seq<Reminder>)
    ensures forall x :: x in r <==> exists t :: t in ts && TicketDue(t, now) && x == TicketReminder(t, now)
  {
    if ts == [] then []
    else
      var t := ts[|ts| - 1];
      assert ts == ts[..|ts| - 1] + [t];
      TicketReminders(ts[..|ts| - 1], now) + (if TicketDue(t, now) then [TicketReminder(t, now)] else [])
  }

  // ---------------------------------------------------------------------------
  // Tasks

  /** An unfinished task with a due date at most two days ahead. */
  predicate TaskDue(t: Task, now: int) {
    t.dueDate.Some? && t.status != Some("completed") && t.status != Some("cancelled")
    && t.dueDate.value <= now + 2 * Day
  }

  function TaskReminder(t: Task, now: int): Reminder
    requires t.dueDate.Some?
  {
    var due := t.dueDate.value;
    Reminder(ReminderId(TaskKind, t.id), TaskKind, "Task Due: " + t.title,
      "Task \"" + t.title + "\" is due " + DueWord(due, now), t.dueDate, Urgency(due, now), t.id)
  }

  function TaskReminders(ts: seq<Task>, now: int): (r: seq<Reminder>)
    ensures forall x :: x in r <==> exists t :: t in ts && TaskDue(t, now) && x == TaskReminder(t, now)
  {
    if ts == [] then []
    else
      var t := ts[|ts| - 1];
      assert ts == ts[..|ts| - 1] + [t];
      TaskReminders(ts[..|ts| - 1], now) + (if TaskDue(t, now) then [TaskReminder(t, now)] else [])
  }

  // ---------------------------------------------------------------------------
  // Deals

  /** A deal still in play whose expected close date is at most two days ahead. */
  predicate DealDue(d: Deal, now: int) {
    d.expectedCloseDate.Some? && d.stage != Some("closed_won") && d.stage != Some("closed_lost")
    && d.expectedCloseDate.value <= now + 2 * Day
  }

  function DealReminder(d: Deal, now: int): Reminder
    requires d.expectedCloseDate.Some?
  {
    var due := d.expectedCloseDate.value;
    Reminder(ReminderId(DealKind, d.id), DealKind, "Deal Expected Close: " + d.title,
      "Deal \"" + d.title + "\" is expected to close " + DueWord(due, now), d.expectedCloseDate, Urgency(due, now), d.id)
  }

  function DealReminders(ds: seq<Deal>, now: int): (r: seq<Reminder>)
    ensures forall x :: x in r <==> exists d :: d in ds && DealDue(d, now) && x == DealReminder(d, now)
  {
    if ds == [] then []
    else
      var d := ds[|ds| - 1];
      assert ds == ds[..|ds| - 1] + [d];
      DealReminders(ds[..|ds| - 1], now) + (if DealDue(d, now) then [DealReminder(d, now)] else [])
  }

  // ---------------------------------------------------------------------------
  // Projects

  /** An unfinished project whose end date is at most two days ahead. */
  predicate ProjectDue(p: Project, now: int) {
    p.endDate.Some? && p.status != Some("completed") && p.status != Some("cancelled")
    && p.endDate.value <= now + 2 * Day
  }

  function ProjectReminder(p: Project, now: int): Reminder
    requires p.endDate.Some?
  {
    var due := p.endDate.value;
    Reminder(ReminderId(ProjectKind, p.id), ProjectKind, "Project Due: " + p.name,
      "Project \"" + p.name + "\" is due " + DueWord(due, now), p.endDate, Urgency(due, now), p.id)
  }

  function ProjectReminders(ps: seq<Project>, now: int): (r: seq<Reminder>)
    ensures forall x :: x in r <==> exists p :: p in ps && ProjectDue(p, now) && x == ProjectReminder(p, now)
  {
    if ps == [] then []
    else
      var p := ps[|ps| - 1];
      assert ps == ps[..|ps| - 1] + [p];
      ProjectReminders(ps[..|ps| - 1], now) + (if ProjectDue(p, now) then [ProjectReminder(p, now)] else [])
  }

  // ---------------------------------------------------------------------------
  // Leads

  /** A new or contacted lead created at least two days ago; a lead without a creation
      date counts as created at the moment the clock is read. */
  predicate LeadStale(l: Lead, now: int, clock: int) {
    (l.status == Some("new") || l.status == Some("contacted"))
    && l.createdAt.GetOr(clock) <= now - 2 * Day
  }

  function LeadReminder(l: Lead): Reminder {
    Reminder(ReminderId(LeadKind, l.id), LeadKind, "Follow-up Lead: " + l.name,
      "Lead \"" + l.name + "\" needs follow-up (no activity for 2+ days)", None, FollowUp, l.id)
  }

  function LeadReminders(ls: seq<Lead>, now: int, clock: int): (r: seq<Reminder>)
    ensures forall x :: x in r <==> exists l :: l in ls && LeadStale(l, now, clock) && x == LeadReminder(l)
  {
    if ls == [] then []
    else
      var l := ls[|ls| - 1];
      assert ls == ls[..|ls| - 1] + [l];
      LeadReminders(ls[..|ls| - 1], now, clock) + (if LeadStale(l, now, clock) then [LeadReminder(l)] else [])
  }

  /** A lead without a creation date is never stale while the clock reads later than
      two days before `now`, as it does when read after `now` was taken. */
  lemma UndatedLeadIsNotStale(l: Lead, now: int, clock: int)
    requires l.createdAt.None? && clock > now - 2 * Day
    ensures !LeadStale(l, now, clock)
  {
  }

  // ---------------------------------------------------------------------------
  // Gathering and sorting

  /** All reminders in the order the handler pushes them. */
  function Gathered(tickets: seq<Ticket>, tasks: seq<Task>, deals: seq<Deal>, projects: seq<Project>,
                    leads: seq<Lead>, now: int, clock: int): seq<Reminder> {
    TicketReminders(tickets, now) + TaskReminders(tasks, now) + DealReminders(deals, now)
    + ProjectReminders(projects, now) + LeadReminders(leads, now, clock)
  }

  /** `{ overdue: 0, urgent: 1, upcoming: 2, follow_up: 3 }`. */
  function PriorityOrder(p: Priority): nat {
    match p
    case Overdue => 0
    case Urgent => 1
    case Upcoming => 2
    case FollowUp => 3
  }

  /** `priorityOrder[p] || 999`: the `0` of `overdue` is falsy, so it becomes `999`. */
  function Rank(p: Priority): nat {
    if PriorityOrder(p) == 0 then 999 else PriorityOrder(p)
  }

  /** The comparator handed to `sort`. */
  function Compare(a: Reminder, b: Reminder): int {
    if a.priority != b.priority then Rank(a.priority) - Rank(b.priority)
    else if a.dueDate.Some? && b.dueDate.Some? then a.dueDate.value - b.dueDate.value
    else 0
  }

  /** The order the comparator describes, as a key: rank, then due date. */
  function SortKey(r: Reminder): Sorting.Key {
    (Rank(r.priority), r.dueDate.GetOr(0))
  }

  /** What every gathered reminder satisfies: a follow-up exactly when it has no due date. */
  predicate WellFormed(r: Reminder) {
    r.priority == FollowUp <==> r.dueDate.None?
  }

  /** On well-formed reminders the comparator orders exactly as the key does. */
  lemma CompareIsByKey(a: Reminder, b: Reminder)
    requires WellFormed(a) && WellFormed(b)
    ensures Compare(a, b) < 0 <==> !Sorting.KeyLe(SortKey(b), SortKey(a))
    ensures Compare(a, b) == 0 <==> SortKey(a) == SortKey(b)
  {
  }

  /** `reminders.sort(...)`: the stable sort by the comparator. */
  function SortReminders(rs: seq<Reminder>): seq<Reminder> {
    Sorting.SortBy(rs, SortKey)
  }

  /** What the endpoint answers. */
  function RemindersFor(tickets: seq<Ticket>, tasks: seq<Task>, deals: seq<Deal>, projects: seq<Project>,
                        leads: seq<Lead>, now: int, clock: int): seq<Reminder> {
    SortReminders(Gathered(tickets, tasks, deals, projects, leads, now, clock))
  }

  /** The handler's first loop: pushes a reminder for each due ticket. */
  method PushTicketReminders(reminders: seq<Reminder>, tickets: seq<Ticket>, now: int) returns (out: seq<Reminder>)
    ensures out == reminders + TicketReminders(tickets, now)
  {
    var twoDaysFromNow := now + 2 * Day;
    out := reminders;
    for i := 0 to |tickets|
      invariant out == reminders + TicketReminders(tickets[..i], now)
    {
      var ticket := tickets[i];
      if ticket.dueDate.Some? && ticket.status != Some("resolved") && ticket.status != Some("closed") {
        if ticket.dueDate.value <= twoDaysFromNow {
          out := out + [TicketReminder(ticket, now)];
        }
      }
      assert tickets[..i + 1][..i] == tickets[..i];
    }
    assert tickets[..|tickets|] == tickets;
  }

  /** The second loop: pushes a reminder for each due task. */
  method PushTaskReminders(reminders: seq<Reminder>, tasks: seq<Task>, now: int) returns (out: seq<Reminder>)
    ensures out == reminders + TaskReminders(tasks, now)
  {
    var twoDaysFromNow := now + 2 * Day;
    out := reminders;
    for i := 0 to |tasks|
      invariant out == reminders + TaskReminders(tasks[..i], now)
    {
      var task := tasks[i];
      if task.dueDate.Some? && task.status != Some("completed") && task.status != Some("cancelled") {
        if task.dueDate.value <= twoDaysFromNow {
          out := out + [TaskReminder(task, now)];
        }
      }
      assert tasks[..i + 1][..i] == tasks[..i];
    }
    assert tasks[..|tasks|] == tasks;
  }

  /** The third loop: pushes a reminder for each deal about to close. */
  method PushDealReminders(reminders: seq<Reminder>, deals: seq<Deal>, now: int) returns (out: seq<Reminder>)
    ensures out == reminders + DealReminders(deals, now)
  {
    var twoDaysFromNow := now + 2 * Day;
    out := reminders;
    for i := 0 to |deals|
      invariant out == reminders + DealReminders(deals[..i], now)
    {
      var deal := deals[i];
      if deal.expectedCloseDate.Some? && deal.stage != Some("closed_won") && deal.stage != Some("closed_lost") {
        if deal.expectedCloseDate.value <= twoDaysFromNow {
          out := out + [DealReminder(deal, now)];
        }
      }
      assert deals[..i + 1][..i] == deals[..i];
    }
    assert deals[..|deals|] == deals;
  }

  /** The fourth loop: pushes a reminder for each project about to end. */
  method PushProjectReminders(reminders: seq<Reminder>, projects: seq<Project>, now: int) returns (out: seq<Reminder>)
    ensures out == reminders + ProjectReminders(projects, now)
  {
    var twoDaysFromNow := now + 2 * Day;
    out := reminders;
    for i := 0 to |projects|
      invariant out == reminders + ProjectReminders(projects[..i], now)
    {
      var project := projects[i];
      if project.endDate.Some? && project.status != Some("completed") && project.status != Some("cancelled") {
        if project.endDate.value <= twoDaysFromNow {
          out := out + [ProjectReminder(project, now)];
        }
      }
      assert projects[..i + 1][..i] == projects[..i];
    }
    assert projects[..|projects|] == projects;
  }

  /** The fifth loop: pushes a follow-up for each stale lead. */
  method PushLeadReminders(reminders: seq<Reminder>, leads: seq<Lead>, now: int, clock: int) returns (out: seq<Reminder>)
    ensures out == reminders + LeadReminders(leads, now, clock)
  {
    var twoDaysAgo := now - 2 * Day;
    out := reminders;
    for i := 0 to |leads|
      invariant out == reminders + LeadReminders(leads[..i], now, clock)
    {
      var lead := leads[i];
      if lead.status == Some("new") || lead.status == Some("contacted") {
        var created := if lead.createdAt.Some? then lead.createdAt.value else clock;
        if created <= twoDaysAgo {
          out := out + [LeadReminder(lead)];
        }
      }
      assert leads[..i + 1][..i] == leads[..i];
    }
    assert leads[..|leads|] == leads;
  }

  /** The handler: the five loops in turn, then the sort. */
  method CollectReminders(tickets: seq<Ticket>, tasks: seq<Task>, deals: seq<Deal>, projects: seq<Project>,
                          leads: seq<Lead>, now: int, clock: int) returns (reminders: seq<Reminder>)
    ensures reminders == RemindersFor(tickets, tasks, deals, projects, leads, now, clock)
  {
    reminders := PushTicketReminders([], tickets, now);
    assert reminders == TicketReminders(tickets, now);
    reminders := PushTaskReminders(reminders, tasks, now);
    reminders := PushDealReminders(reminders, deals, now);
    reminders := PushProjectReminders(reminders, projects, now);
    reminders := PushLeadReminders(reminders, leads, now, clock);
    reminders := SortReminders(reminders);
  }

  // ---------------------------------------------------------------------------
  // What the endpoint promises

  /** Every gathered reminder is well formed; a dated one is due at most two days ahead
      and its priority follows its due date; a follow-up is a lead's. */
  lemma GatheredAreWellFormed(tickets: seq<Ticket>, tasks: seq<Task>, deals: seq<Deal>, projects: seq<Project>,
                              leads: seq<Lead>, now: int, clock: int, r: Reminder)
    requires r in Gathered(tickets, tasks, deals, projects, leads, now, clock)
    ensures WellFormed(r)
    ensures r.dueDate.Some? ==> r.dueDate.value <= now + 2 * Day && r.priority == Urgency(r.dueDate.value, now)
    ensures r.priority == FollowUp <==> r.kind == LeadKind
    ensures r.id == ReminderId(r.kind, r.itemId)
  {
  }

  /** The answer holds exactly the gathered reminders, each as often as gathered. */
  lemma AnswerIsPermutation(tickets: seq<Ticket>, tasks: seq<Task>, deals: seq<Deal>, projects: seq<Project>,
                            leads: seq<Lead>, now: int, clock: int)
    ensures multiset(RemindersFor(tickets, tasks, deals, projects, leads, now, clock))
            == multiset(Gathered(tickets, tasks, deals, projects, leads, now, clock))
  {
  }

  /** Urgent reminders come first, then upcoming ones, then follow-ups, and overdue
      reminders come last of all; within a priority, earlier due dates come first. */
  lemma AnswerOrder(tickets: seq<Ticket>, tasks: seq<Task>, deals: seq<Deal>, projects: seq<Project>,
                    leads: seq<Lead>, now: int, clock: int, i: nat, j: nat)
    requires var out := RemindersFor(tickets, tasks, deals, projects, leads, now, clock); i < j < |out|
    ensures var out := RemindersFor(tickets, tasks, deals, projects, leads, now, clock);
      && Rank(out[i].priority) <= Rank(out[j].priority)
      && (out[i].priority == Overdue ==> out[j].priority == Overdue)
      && (out[j].priority == Urgent ==> out[i].priority == Urgent)
      && (out[i].priority == out[j].priority && out[i].dueDate.Some? && out[j].dueDate.Some? ==>
            out[i].dueDate.value <= out[j].dueDate.value)
  {
    var out := RemindersFor(tickets, tasks, deals, projects, leads, now, clock);
    assert Sorting.KeyLe(SortKey(out[i]), SortKey(out[j]));
  }

  /** Reminders with the same priority and due date keep the order in which they were
      gathered: tickets, tasks, deals, projects, leads, each in storage order. */
  lemma AnswerIsStable(tickets: seq<Ticket>, tasks: seq<Task>, deals: seq<Deal>, projects: seq<Project>,
                       leads: seq<Lead>, now: int, clock: int, k: Sorting.Key)
    ensures Sorting.WithKey(RemindersFor(tickets, tasks, deals, projects, leads, now, clock), SortKey, k)
            == Sorting.WithKey(Gathered(tickets, tasks, deals, projects, leads, now, clock), SortKey, k)
  {
  }

  /** A reminder's id names its kind and its item: two ids are equal exactly when they
      are about the same item of the same kind. */
  lemma IdIdentifiesItem(k1: Kind, x: nat, k2: Kind, y: nat)
    ensures ReminderId(k1, x) == ReminderId(k2, y) <==> k1 == k2 && x == y
  {
    var s1, s2 := ReminderId(k1, x), ReminderId(k2, y);
    if k1 != k2 {
      // No two kind names share their first two letters.
      assert s1[0] != s2[0] || s1[1] != s2[1];
    } else {
      var n := |KindName(k1)| + 1;
      assert s1[n..] == Decimal(x);
      assert s2[n..] == Decimal(y);
      DecimalInjective(x, y);
    }
  }
}
