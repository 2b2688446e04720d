/**
 * The ticket list page: the search box with the status tabs, the displayed
 * ticket number, the status badge and the status caption.
 */
module TicketsPage {
  import opened Wrappers
  import opened Seqs
  import opened Text
  import opened Decimal

  datatype Ticket = Ticket(id: int, title: string, description: string, status: string, priority: string, createdAt: string)

  /** The search half of the filter: title or description contains the term, ignoring case. */
  predicate MatchesSearch(t: Ticket, searchTerm: string)
  {
    Includes(Lower(t.title), Lower(searchTerm)) || Includes(Lower(t.description), Lower(searchTerm))
  }

  /** The `switch (activeFilter)`: three tabs select one status, "All Tickets" and anything else select all. */
  predicate MatchesTab(t: Ticket, activeFilter: string)
  {
    if activeFilter == "New" then t.status == "open"
    else if activeFilter == "On-Going" then t.status == "in_progress"
    else if activeFilter == "Resolved" then t.status == "resolved"
    else true
  }

  predicate IsStatusTab(activeFilter: string)
  {
    activeFilter == "New" || activeFilter == "On-Going" || activeFilter == "Resolved"
  }

  /** `filteredTickets`. */
  function FilteredTickets(ts: seq<Ticket>, searchTerm: string, activeFilter: string): (r: seq<Ticket>)
    ensures IsSubsequence(r, ts)
    ensures forall t :: t in r ==> t in ts && MatchesSearch(t, searchTerm)
    ensures activeFilter == "New" ==>
      forall t :: t in r <==> t in ts && MatchesSearch(t, searchTerm) && t.status == "open"
    ensures activeFilter == "On-Going" ==>
      forall t :: t in r <==> t in ts && MatchesSearch(t, searchTerm) && t.status == "in_progress"
    ensures activeFilter == "Resolved" ==>
      forall t :: t in r <==> t in ts && MatchesSearch(t, searchTerm) && t.status == "resolved"
    ensures !IsStatusTab(activeFilter) ==>
      forall t :: t in r <==> t in ts && MatchesSearch(t, searchTerm)
    ensures forall t :: multiset(r)[t] ==
              if MatchesSearch(t, searchTerm) && MatchesTab(t, activeFilter) then multiset(ts)[t] else 0
  {
    var p := (t: Ticket) => MatchesSearch(t, searchTerm) && MatchesTab(t, activeFilter);
    FilterIsSubsequence(ts, p);
    FilterMultiset(ts, p);
    Filter(ts, p)
  }

  /** "All Tickets" with an empty search lists every ticket. */
  lemma AllTicketsListsAll(ts: seq<Ticket>)
    ensures FilteredTickets(ts, "", "All Tickets") == ts
  {
    forall i | 0 <= i < |ts| ensures MatchesSearch(ts[i], "") && MatchesTab(ts[i], "All Tickets") {
      IncludesEmpty(Lower(ts[i].title));
    }
    FilterKeepsAll(ts, (t: Ticket) => MatchesSearch(t, "") && MatchesTab(t, "All Tickets"));
  }

  /** The ticket number shown in the first column: "ABC" and the id, padded with '0' to two characters. */
  function DisplayId(id: int): (r: string)
    ensures |r| >= 5 && r[..3] == "ABC"
    ensures 0 <= id < 10 ==> r == "ABC0" + [DigitChar(id)]
    ensures id >= 10 || id < 0 ==> r == "ABC" + IntToString(id)
  {
    "ABC" + PadStart(IntToString(id), 2, '0')
  }

  lemma DisplayIdExamples()
    ensures DisplayId(5) == "ABC05"
    ensures DisplayId(123) == "ABC123"
  {
    assert NatToString(123) == NatToString(12) + [DigitChar(3)];
    assert NatToString(12) == NatToString(1) + [DigitChar(2)];
  }

  /** `parseInt` reads a zero-padded single digit as that digit. */
  lemma ParsePaddedDigit(d: nat)
    requires d < 10
    ensures ParseInt("0" + [DigitChar(d)]) == Some(d)
  {
    var u := "0" + [DigitChar(d)];
    assert AllDigits(u);
    assert u[..1] == "0" && DigitsValue(u[..1]) == 0;
    assert DigitsValue(u) == d;
    ParseIntOfDigits(u);
  }

  /** The number after "ABC" reads back as the id, so different tickets show different numbers. */
  lemma DisplayIdRoundTrip(id: int)
    ensures ParseInt(DisplayId(id)[3..]) == Some(id)
  {
    var shown := DisplayId(id);
    if 0 <= id < 10 {
      assert shown[3..] == "0" + [DigitChar(id)];
      ParsePaddedDigit(id);
    } else {
      assert shown[3..] == IntToString(id);
      ParseIntOfIntToString(id);
    }
  }

  lemma DisplayIdInjective(a: int, b: int)
    requires DisplayId(a) == DisplayId(b)
    ensures a == b
  {
    DisplayIdRoundTrip(a);
    DisplayIdRoundTrip(b);
  }

  /** The text of the status badge. */
  function StatusBadge(status: string): (text: string)
    ensures status == "open" ==> text == "New"
    ensures status == "in_progress" ==> text == "Open"
    ensures status == "resolved" ==> text == "In Progress"
    ensures status != "open" && status != "in_progress" && status != "resolved" ==> text == "Close"
  {
    if status == "open" then "New"
    else if status == "in_progress" then "Open"
    else if status == "resolved" then "In Progress"
    else "Close"
  }

  /** `formatStatus`: the four known statuses get a caption, anything else is shown as it is. */
  function FormatStatus(status: string): (text: string)
    ensures status == "open" ==> text == "New Tickets"
    ensures status == "in_progress" ==> text == "On-Going Tickets"
    ensures status == "resolved" ==> text == "Resolved Tickets"
    ensures status == "closed" ==> text == "Closed"
    ensures status != "open" && status != "in_progress" && status != "resolved" && status != "closed" ==> text == status
  {
    if status == "open" then "New Tickets"
    else if status == "in_progress" then "On-Going Tickets"
    else if status == "resolved" then "Resolved Tickets"
    else if status == "closed" then "Closed"
    else status
  }
}
