/**
 * The ticket list of the client application: a search box and two
 * drop-downs, each of which constrains the list only when it is filled in,
 * over a list that may not have loaded yet.
 */
module ClientTickets {
  import opened Wrappers
  import opened Seqs
  import opened Text

  datatype Ticket = Ticket(id: int, title: string, description: string, status: string, priority: string)

  /** `!search || title or description includes search`, ignoring case. */
  predicate SearchOk(t: Ticket, search: string)
  {
    search == "" || Includes(Lower(t.title), Lower(search)) || Includes(Lower(t.description), Lower(search))
  }

  predicate StatusOk(t: Ticket, statusFilter: string)
  {
    statusFilter == "" || t.status == statusFilter
  }

  predicate PriorityOk(t: Ticket, priorityFilter: string)
  {
    priorityFilter == "" || t.priority == priorityFilter
  }

  /** `tickets?.filter(...) || []`. */
  function FilteredTickets(tickets: Option<seq<Ticket>>, search: string, statusFilter: string, priorityFilter: string)
    : (r: seq<Ticket>)
    ensures tickets.None? ==> r == []
    ensures tickets.Some? ==> IsSubsequence(r, tickets.value)
    ensures forall t :: t in r <==>
      tickets.Some? && t in tickets.value && SearchOk(t, search) && StatusOk(t, statusFilter) && PriorityOk(t, priorityFilter)
    ensures tickets.Some? ==>
      forall t :: multiset(r)[t] ==
        if SearchOk(t, search) && StatusOk(t, statusFilter) && PriorityOk(t, priorityFilter)
        then multiset(tickets.value)[t] else 0
  {
    match tickets
    case None => []
    case Some(ts) =>
      var p := (t: Ticket) => SearchOk(t, search) && StatusOk(t, statusFilter) && PriorityOk(t, priorityFilter);
      FilterIsSubsequence(ts, p);
      FilterMultiset(ts, p);
      Filter(ts, p)
  }

  /** With nothing filled in, every loaded ticket is listed. */
  lemma NoFiltersListsAll(ts: seq<Ticket>)
    ensures FilteredTickets(Some(ts), "", "", "") == ts
  {
    FilterKeepsAll(ts, (t: Ticket) => SearchOk(t, "") && StatusOk(t, "") && PriorityOk(t, ""));
  }

  /** A filled-in status or priority filter is met by every listed ticket. */
  lemma ListedTicketsMeetFilters(tickets: Option<seq<Ticket>>, search: string, statusFilter: string, priorityFilter: string, t: Ticket)
    requires t in FilteredTickets(tickets, search, statusFilter, priorityFilter)
    ensures statusFilter != "" ==> t.status == statusFilter
    ensures priorityFilter != "" ==> t.priority == priorityFilter
    ensures search != "" ==> Includes(Lower(t.title), Lower(search)) || Includes(Lower(t.description), Lower(search))
  {
  }

  /** Changing an empty search to a non-empty one only removes tickets. */
  lemma SearchNarrows(ts: seq<Ticket>, search: string, statusFilter: string, priorityFilter: string)
    ensures forall t :: t in FilteredTickets(Some(ts), search, statusFilter, priorityFilter) ==>
                        t in FilteredTickets(Some(ts), "", statusFilter, priorityFilter)
  {
  }
}
