/**
 * The kanban board: the four status columns, the tickets shown in each, the
 * query string built from the filter bar, and the priority badge.
 */
module Kanban {
  import opened Wrappers
  import opened Seqs

  datatype KanbanTicket = KanbanTicket(
    id: int,
    title: string,
    description: string,
    status: string,
    priority: string,
    customerName: string,
    customerCompany: Option<string>,
    assigneeName: Option<string>,
    createdAt: string,
    updatedAt: string)

  datatype Column = Column(id: string, title: string, color: string)

  /** `statusColumns`, in board order. */
  const StatusColumns: seq<Column> := [
    Column("open", "Abertos", "bg-blue-500"),
    Column("in_progress", "Em Andamento", "bg-yellow-500"),
    Column("resolved", "Resolvidos", "bg-green-500"),
    Column("closed", "Fechados", "bg-gray-500")
  ]

  function ColumnIds(cols: seq<Column>): (r: seq<string>)
    ensures |r| == |cols| && forall i :: 0 <= i < |cols| ==> r[i] == cols[i].id
    decreases |cols|
  {
    if |cols| == 0 then [] else [cols[0].id] + ColumnIds(cols[1..])
  }

  /** The four column ids are pairwise different. */
  lemma ColumnIdsDistinct()
    ensures ColumnIds(StatusColumns) == ["open", "in_progress", "resolved", "closed"]
    ensures Distinct(ColumnIds(StatusColumns))
  {
    assert |"open"| == 4 && |"in_progress"| == 11 && |"resolved"| == 8 && |"closed"| == 6;
  }

  function StatusIs(status: string): KanbanTicket -> bool
  {
    (t: KanbanTicket) => t.status == status
  }

  function StatusIn(ids: seq<string>): KanbanTicket -> bool
  {
    (t: KanbanTicket) => t.status in ids
  }

  /** `getTicketsByStatus`: the tickets with exactly this status, in list order. */
  function TicketsByStatus(tickets: seq<KanbanTicket>, status: string): (r: seq<KanbanTicket>)
    ensures IsSubsequence(r, tickets)
    ensures forall t :: t in r <==> t in tickets && t.status == status
    ensures forall t :: multiset(r)[t] == if t.status == status then multiset(tickets)[t] else 0
  {
    FilterIsSubsequence(tickets, StatusIs(status));
    FilterMultiset(tickets, StatusIs(status));
    Filter(tickets, StatusIs(status))
  }

  /** The tickets whose status is one of `ids`. */
  function TicketsWithStatusIn(tickets: seq<KanbanTicket>, ids: seq<string>): (r: seq<KanbanTicket>)
    ensures forall t :: t in r <==> t in tickets && t.status in ids
    ensures forall t :: multiset(r)[t] == if t.status in ids then multiset(tickets)[t] else 0
  {
    FilterMultiset(tickets, StatusIn(ids));
    Filter(tickets, StatusIn(ids))
  }

  /** The count shown in each column header, for columns with the given ids. */
  function ColumnCounts(tickets: seq<KanbanTicket>, ids: seq<string>): (r: seq<int>)
    ensures |r| == |ids| && forall i :: 0 <= i < |ids| ==> r[i] == |TicketsByStatus(tickets, ids[i])|
    decreases |ids|
  {
    if |ids| == 0 then [] else [|TicketsByStatus(tickets, ids[0])|] + ColumnCounts(tickets, ids[1..])
  }

  /** A ticket whose status is a column id is shown in that column and in no other. */
  lemma TicketInExactlyOneColumn(tickets: seq<KanbanTicket>, t: KanbanTicket, k: int)
    requires t in tickets
    requires 0 <= k < |StatusColumns| && StatusColumns[k].id == t.status
    ensures t in TicketsByStatus(tickets, StatusColumns[k].id)
    ensures forall j :: 0 <= j < |StatusColumns| && j != k ==> t !in TicketsByStatus(tickets, StatusColumns[j].id)
  {
    ColumnIdsDistinct();
  }

  /** With distinct column ids, the column counts add up to the tickets whose status is a column id. */
  lemma {:induction false} ColumnCountsSum(tickets: seq<KanbanTicket>, ids: seq<string>)
    requires Distinct(ids)
    ensures Sum(ColumnCounts(tickets, ids)) == |TicketsWithStatusIn(tickets, ids)|
    decreases |ids|
  {
    if |ids| == 0 {
      FilterKeepsNone(tickets, StatusIn(ids));
    } else {
      var rest := ids[1..];
      DistinctTail(ids);
      ColumnCountsSum(tickets, rest);
      assert ColumnCounts(tickets, ids) == [|Filter(tickets, StatusIs(ids[0]))|] + ColumnCounts(tickets, rest);
      FilterDisjointUnion(tickets, StatusIs(ids[0]), StatusIn(rest), StatusIn(ids));
    }
  }

  /** When every status is one of the distinct column ids, the column counts add up to the whole list. */
  lemma ColumnCountsCoverAll(tickets: seq<KanbanTicket>, ids: seq<string>)
    requires Distinct(ids)
    requires forall i :: 0 <= i < |tickets| ==> tickets[i].status in ids
    ensures Sum(ColumnCounts(tickets, ids)) == |tickets|
  {
    ColumnCountsSum(tickets, ids);
    FilterKeepsAll(tickets, StatusIn(ids));
  }

  /** The four column headers count every ticket exactly once when each status is one of the four. */
  lemma BoardCountsEveryTicket(tickets: seq<KanbanTicket>, ids: seq<string>)
    requires ids == ColumnIds(StatusColumns)
    requires forall i :: 0 <= i < |tickets| ==> tickets[i].status in ids
    ensures Sum(ColumnCounts(tickets, ids)) == |tickets|
  {
    ColumnIdsDistinct();
    ColumnCountsCoverAll(tickets, ids);
  }

  /** The filter bar, in declaration order. */
  datatype Filters = Filters(search: string, priority: string, assignee: string, consultancy: string)

  /** `Object.entries(filters)`: key/value pairs, in declaration order. */
  function Entries(f: Filters): (r: seq<(string, string)>)
    ensures |r| == 4
    ensures r[0] == ("search", f.search) && r[1] == ("priority", f.priority)
    ensures r[2] == ("assignee", f.assignee) && r[3] == ("consultancy", f.consultancy)
  {
    [("search", f.search), ("priority", f.priority), ("assignee", f.assignee), ("consultancy", f.consultancy)]
  }

  /** `if (value)`: for a string, being non-empty. */
  predicate HasValue(entry: (string, string))
  {
    entry.1 != ""
  }

  /** The entries that become query parameters. */
  function NonEmptyEntries(entries: seq<(string, string)>): (r: seq<(string, string)>)
    ensures IsSubsequence(r, entries)
    ensures forall e :: e in r <==> e in entries && e.1 != ""
    ensures forall e :: multiset(r)[e] == if e.1 != "" then multiset(entries)[e] else 0
  {
    FilterIsSubsequence(entries, HasValue);
    FilterMultiset(entries, HasValue);
    Filter(entries, HasValue)
  }

  /**
   * The `forEach` in `fetchTickets`: each entry with a non-empty value is
   * appended to the parameter list, in order.
   */
  method BuildQueryParams(entries: seq<(string, string)>) returns (params: seq<(string, string)>)
    ensures params == NonEmptyEntries(entries)
  {
    params := [];
    var i := 0;
    while i < |entries|
      invariant 0 <= i <= |entries|
      invariant params == Filter(entries[..i], HasValue)
    {
      var (key, value) := entries[i];
      FilterConcat(entries[..i], [entries[i]], HasValue);
      assert entries[..i + 1] == entries[..i] + [entries[i]];
      if value != "" {
        params := params + [(key, value)];
      }
      i := i + 1;
    }
    assert entries[..i] == entries;
  }

  /** An empty filter bar sends no parameters. */
  lemma EmptyFiltersSendNothing()
    ensures NonEmptyEntries(Entries(Filters("", "", "", ""))) == []
  {
    FilterKeepsNone(Entries(Filters("", "", "", "")), HasValue);
  }

  /** A field is sent iff it is filled in. */
  lemma OnlyFilledFieldsAreSent(f: Filters)
    ensures (f.search != "") <==> ("search", f.search) in NonEmptyEntries(Entries(f))
    ensures (f.priority != "") <==> ("priority", f.priority) in NonEmptyEntries(Entries(f))
    ensures (f.assignee != "") <==> ("assignee", f.assignee) in NonEmptyEntries(Entries(f))
    ensures (f.consultancy != "") <==> ("consultancy", f.consultancy) in NonEmptyEntries(Entries(f))
  {
    var e := Entries(f);
    assert e[0] in e && e[1] in e && e[2] in e && e[3] in e;
  }

  /** The parameter an entry contributes: itself when filled in, nothing otherwise. */
  function Sent(entry: (string, string)): seq<(string, string)>
  {
    if entry.1 != "" then [entry] else []
  }

  /** The fields are sent in the order search, priority, assignee, consultancy, empty ones skipped. */
  lemma FilledFieldsInOrder(f: Filters)
    ensures NonEmptyEntries(Entries(f)) ==
      Sent(("search", f.search)) + Sent(("priority", f.priority))
      + Sent(("assignee", f.assignee)) + Sent(("consultancy", f.consultancy))
  {
    var e := Entries(f);
    assert e == [e[0]] + [e[1]] + [e[2]] + [e[3]];
    FilterConcat([e[0]] + [e[1]] + [e[2]], [e[3]], HasValue);
    FilterConcat([e[0]] + [e[1]], [e[2]], HasValue);
    FilterConcat([e[0]], [e[1]], HasValue);
    assert forall i :: 0 <= i < 4 ==> Filter([e[i]], HasValue) == Sent(e[i]);
  }

  /** With only the priority filled in, the priority alone is sent. */
  lemma OnlyPrioritySent(priority: string)
    requires priority != ""
    ensures NonEmptyEntries(Entries(Filters("", priority, "", ""))) == [("priority", priority)]
  {
    FilledFieldsInOrder(Filters("", priority, "", ""));
  }

  /** The priority badge text. */
  function PriorityLabel(priority: string): (text: string)
    ensures priority == "high" ==> text == "Alta"
    ensures priority == "medium" ==> text == "Média"
    ensures priority != "high" && priority != "medium" ==> text == "Baixa"
  {
    if priority == "high" then "Alta" else if priority == "medium" then "Média" else "Baixa"
  }

  /** `getPriorityColor`. */
  function PriorityColor(priority: string): (color: string)
    ensures priority == "high" ==> color == "bg-red-500"
    ensures priority == "medium" ==> color == "bg-yellow-500"
    ensures priority == "low" ==> color == "bg-green-500"
    ensures priority != "high" && priority != "medium" && priority != "low" ==> color == "bg-gray-500"
  {
    if priority == "high" then "bg-red-500"
    else if priority == "medium" then "bg-yellow-500"
    else if priority == "low" then "bg-green-500"
    else "bg-gray-500"
  }

  /** The badge colour and text agree for the three known priorities. */
  lemma BadgeAgreesWithColor(priority: string)
    requires priority == "high" || priority == "medium" || priority == "low"
    ensures PriorityColor(priority) == "bg-red-500" <==> PriorityLabel(priority) == "Alta"
    ensures PriorityColor(priority) == "bg-green-500" <==> PriorityLabel(priority) == "Baixa"
  {
    assert |"high"| == 4 && |"medium"| == 6 && |"low"| == 3;
    assert |"Alta"| == 4 && |"Média"| == 5 && |"Baixa"| == 5;
    assert "Média" != "Baixa" by { assert "Média"[0] != "Baixa"[0]; }
    assert |"bg-red-500"| == 10 && |"bg-green-500"| == 12 && |"bg-yellow-500"| == 13;
  }
}
