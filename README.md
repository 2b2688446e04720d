# Help-desk SLA logic, modelled in Dafny

This project models the computational core of a help-desk application (a
Next.js front end with API routes over a ticket database). The operations below
are modelled as they run after the database query and before the JSON response
or the rendered page; what is not modelled is listed under "Left out":

- **SLA status route** (`SlaStatusRoute`, `sla_status.dfy`). For each open or
  in-progress ticket with an SLA, the route classifies the first-response clock
  and the resolution clock as within, warning (from 80 % of the threshold) or
  breached (from 100 %). It reports the worse of the two, plus the minutes left
  on each clock, clamped at 0.
- **SLA metrics route** (`SlaMetricsRoute`, `sla_metrics.dfy`). The threshold is
  4, 8 or 24 hours by priority, and every ticket falls into exactly one of
  within SLA, at risk and breached. Resolution and first-response durations are
  collected for two averages. The route's `forEach` is a `while` loop, proved
  against reference functions.
- **SLA administration page** (`SlaPage`, `sla_page.dfy`):
  - the initial and reset rule form;
  - the submitted payload, with its `departmentId` conversion, and the
    edit-form conversion back;
  - `formatTime`;
  - the status colours;
  - the three status counters and the paused counter.
- **Side navigation** (`Navigation`, `navigation.dfy`):
  - the expanded-menu list, a class whose `ToggleMenu` method replaces the
    list;
  - the path-prefix "active" rule for links and sub-menus.
- **Template page** (`Templates`, `templates.dfy`). The search and the
  type/category filters, and the type labels. The page state is a class whose
  methods save a template (replace on edit, append on create) and delete one.
- **Knowledge-base page** (`KnowledgeBase`, `knowledge_base.dfy`):
  - the article search and category filter;
  - the popular list, an in-place sort of the article array by views followed
    by its first five entries;
  - the statistics card.
- **Kanban board** (`Kanban`, `kanban.dfy`):
  - the four status columns and their counts;
  - the query parameters built from the filter bar by a loop;
  - the priority badge.
- **Ticket lists** (`TicketsPage`, `tickets_page.dfy`; `ClientTickets`,
  `client_tickets.dfy`):
  - the search and status filters;
  - the `ABC05`-style ticket number;
  - the badge and caption texts.

The JavaScript built-ins these rely on are shared modules:

- `Seqs`: `filter`, `reduce` as a sum, and subsequences.
- `Text`: `toLowerCase`, `includes`, `startsWith` and `padStart`.
- `Decimal`: `toString` of integers and `parseInt`.
- `Wrappers`: an `Option` type for `null`/`undefined`.

Time is integer milliseconds, as `Date.getTime()` returns it. Instants that
the code reads from the clock are parameters. The SLA status route reads
`new Date()` inside its `tickets.map` callback, once per ticket
(app/api/sla/status/route.ts:26), so `SlaStatusRoute.SlaStatuses` takes one
instant per ticket. The routes compare hours as floating-point fractions; the
model compares the same quantities exactly, multiplied out:

- `hours >= threshold * 0.8` becomes `5 * elapsedMs >= 4 * thresholdMs`;
- `Math.round(Math.max(0, threshold - hours) * 60)` becomes the exact time
  left in milliseconds, rounded to the nearest minute with halves up:
  `(leftMs + 30000) / 60000`. This is the exact value of the route's
  expression, not what its floating-point evaluation always gives (see
  "Left out" on `SlaStatusRoute.RemainingMinutes`).

Behaviour of the status route that differs from what one might expect of an
SLA clock, modelled as the code does it:

- **Remaining time.** The remaining minutes are clamped at 0
  (`Math.max(0, …)`, app/api/sla/status/route.ts:39,48) rather than going
  negative once a clock is overdue: 125 minutes into a 120-minute
  first-response window the route reports 0, not −5 (`BreachScenario`).
- **One status per ticket.** The route computes one combined `status`; there
  is no separate state per clock and no "not applicable" value. A ticket
  without an SLA, or a clock that has stopped, counts as `within`.
- **Rounding.** The minutes left go through `Math.round` rather than being
  truncated, so 20.6 minutes left is reported as 21, not 20.
- **Pausing.** The route always reports `isPaused: false` and no pause reason,
  so the page's paused counter is always 0 (`SlaPage.RouteShowsNothingPaused`).

## Model

| member | source | states |
|---|---|---|
| SlaStatusRoute.Worse | app/api/sla/status/route.ts:40-53 | the combined level is at least as severe as each clock's level and is one of the two, so breached is never downgraded |
| SlaStatusRoute.ClockLevel | app/api/sla/status/route.ts:40-52 | breached iff elapsed ≥ threshold; warning iff 80 % of threshold ≤ elapsed < threshold; within iff elapsed < 80 % of threshold |
| SlaStatusRoute.RoundToMinutes | app/api/sla/status/route.ts:59-60 | the result is the nearest whole number of minutes, with halves rounding up, and is never negative |
| SlaStatusRoute.RemainingMinutes | app/api/sla/status/route.ts:39-60 | minutes left are never negative, are 0 at or past the threshold, and otherwise are the time to the threshold rounded to the nearest minute |
| SlaStatusRoute.RemainingWholeMinutes | app/api/sla/status/route.ts:34-39 | for whole elapsed minutes below the threshold, the minutes left are exactly threshold − elapsed |
| SlaStatusRoute.EvaluateTicket | app/api/sla/status/route.ts:25-63 | the ticket id is kept and the ticket is not paused, with no reason. The status is the worse of the two reference clock levels, and breached iff either clock is breached. Remaining values are ≥ 0. No SLA gives within with both remaining values 0. A recorded first response gives response-remaining 0 and a status set by the resolution clock alone. Otherwise each remaining value is that clock's `RemainingMinutes` |
| SlaStatusRoute.QueriedIsNotResolved | app/api/sla/status/route.ts:7-12 | a ticket the query selects (open or in progress) is never `resolved`, so the resolution guard always passes |
| SlaStatusRoute.SlaStatuses | app/api/sla/status/route.ts:24-64 | one record per queried ticket, in order, each evaluated at its own clock reading (the route reads `new Date()` once per ticket), with its id, not paused and no reason. With an SLA, the status is the worse of the response level and the unguarded resolution clock, the resolution remaining value is that clock's rounded, clamped minutes, and the response remaining value is too while there is no first response (0 after one). Without an SLA: within, with both remaining values 0 |
| SlaStatusRoute.ClockReadPerTicket | app/api/sla/status/route.ts:24-27 | two equal tickets with a 120-minute response threshold, read at 96 minutes less one millisecond and at exactly 96 minutes (the 80 % mark), come back within and warning in the same response |
| SlaStatusRoute.WarningScenario | app/api/sla/status/route.ts:38-44 | with a 120-minute first-response threshold, after 100 minutes: warning with 20 minutes left |
| SlaStatusRoute.BreachScenario | app/api/sla/status/route.ts:38-44 | the same ticket after 125 minutes: breached with 0 minutes left |
| SlaMetricsRoute.ThresholdHours | app/api/tickets/sla/route.ts:40-41 | 4 hours iff priority is high, 8 iff medium, otherwise 24 (including critical and low) |
| SlaMetricsRoute.BucketOf | app/api/tickets/sla/route.ts:44-61 | a closed or resolved ticket is never at risk, and is within iff its resolution time ≤ threshold. Any other ticket is within iff elapsed ≤ 80 % of threshold, at risk iff 80 % < elapsed ≤ threshold, breached iff elapsed > threshold |
| SlaMetricsRoute.BucketsPartition | app/api/tickets/sla/route.ts:35-62 | the three bucket counts add up to the number of tickets |
| SlaMetricsRoute.FinishedNeverAtRisk | app/api/tickets/sla/route.ts:44-53 | a list of closed or resolved tickets has no ticket at risk |
| SlaMetricsRoute.ResolutionSamplesAreFinished | app/api/tickets/sla/route.ts:44-47 | the resolution samples are exactly the resolution times of the closed or resolved tickets, one each, in order |
| SlaMetricsRoute.ResponseSamplesAreCommented | app/api/tickets/sla/route.ts:65-69 | the response samples are exactly the first-comment delays of the tickets with a comment, one each, in order |
| SlaMetricsRoute.Average | app/api/tickets/sla/route.ts:72-78 | 0 for no samples; otherwise average × count = sum |
| SlaMetricsRoute.ComputeMetrics | app/api/tickets/sla/route.ts:26-85 | the loop's counters equal the reference bucket counts and add up to the number of tickets. Its sample lists equal the reference samples, with one per finished and one per commented ticket. Both averages are taken over those samples, in hours |
| SlaPage.ResetForm | app/sla/page.tsx:169-183 | resetting gives exactly the initial form of lines 67-79: department `all`, 120 and 1440 minutes, active, business hours, empty lists |
| SlaPage.PayloadDepartmentOf | app/sla/page.tsx:147 | `all` becomes null. Any other text is `parseInt` of it: a number when it parses, NaN otherwise, and never null |
| SlaPage.FormDepartmentOf | app/sla/page.tsx:190 | no department shows as `all`; a department id shows as its decimal text, which is never `all` |
| SlaPage.DepartmentRoundTrip | app/sla/page.tsx:147 | converting a rule's department into the form (line 190) and back into a payload returns the same department: null, or the same id for every integer id below 10^21 (see "Left out" on numbers) |
| Decimal.IntToString | app/sla/page.tsx:190 | a non-negative number gives its digits; a negative one gives `-` followed by the digits of its magnitude |
| Decimal.ParseIntOfIntToString | app/sla/page.tsx:147 | `parseInt(n.toString())` is `n` for every integer of the model (see "Left out" on numbers) |
| Decimal.ParseIntOfBlank | app/sla/page.tsx:147 | an empty or all-white-space text parses as NaN |
| Decimal.ParseIntOfDigits | app/sla/page.tsx:147 | a non-empty run of decimal digits parses as its value |
| Decimal.ParseIntOfNegative | app/sla/page.tsx:147 | `-` followed by the digits of `m` parses as −m |
| Decimal.ParseIntSkipsSpace | app/sla/page.tsx:147 | a leading white-space character does not change the result |
| Decimal.ParseIntOfNatToStringThen | app/sla/page.tsx:255-259 | the digits of `n` followed by text that does not start with a digit or `x` parse as `n`: parsing stops at the first non-digit |
| SlaPage.SubmitPayload | app/sla/page.tsx:145-148 | the payload carries every form field unchanged except the department, which is converted |
| SlaPage.SubmitRequest | app/sla/page.tsx:139-148 | PUT to `/api/sla/rules/<id>` iff a rule is being edited, otherwise POST to `/api/sla/rules`, with the converted payload either way |
| SlaPage.EditForm | app/sla/page.tsx:185-199 | the form takes the rule's name, description, priorities, customer types, both times and both flags verbatim, and the converted department. Pause conditions and escalations are emptied |
| SlaPage.EditThenSubmitKeepsRule | app/sla/page.tsx:187-199 | editing a rule and saving it unchanged sends back all its values, department included, with pause conditions and escalations emptied |
| SlaPage.HoursAndMinutes | app/sla/page.tsx:256-257 | hours · 60 + minutes = the input, with minutes < 60 |
| SlaPage.FormatTime | app/sla/page.tsx:255-259 | the text has at least five characters and ends in `m` |
| SlaPage.FormatTimeReadsHours | app/sla/page.tsx:255-259 | `parseInt` of the formatted text is the whole hours, `Math.floor(minutes / 60)` |
| SlaPage.FormatTimeReadsMinutes | app/sla/page.tsx:255-259 | right after the hours comes `h`, and `parseInt` of the rest is `minutes % 60` |
| SlaPage.FormatTimeInjective | app/sla/page.tsx:255-259 | different durations give different `Xh Ym` texts |
| SlaPage.StatusColor | app/sla/page.tsx:261-268 | green iff within, yellow iff warning, red iff breached, gray for any other text |
| SlaPage.CountWithStatus | app/sla/page.tsx:494-522 | a counter is at most the list length, 0 iff no status has that name, and the list length iff every status has it |
| SlaPage.StatusCountsPartition | app/sla/page.tsx:494-522 | when every status is within, warning or breached, the three counters add up to the list length |
| SlaPage.PausedCount | app/sla/page.tsx:613 | the paused counter is at most the list length, and 0 iff no status is paused |
| SlaPage.RouteShowsNothingPaused | app/sla/page.tsx:613 | over the status route's records the paused counter is 0, since the route never reports a pause |
| SlaPage.RouteStatusesAreKnown | app/sla/page.tsx:49-56 | the three counters over the route's serialised statuses add up to the number of statuses |
| Navigation.Without | components/navigation.tsx:101 | the name is removed everywhere, and every other name keeps its number of occurrences and its order |
| Navigation.Toggled | components/navigation.tsx:99-103 | the name is in the result iff it was not in the old list, and other names keep their membership. A present name is removed, keeping the order and the number of occurrences of the rest; an absent name is appended at the end |
| Navigation.ToggleTwiceRestores | components/navigation.tsx:98-104 | toggling an absent name twice gives back the original list |
| Navigation.ToggleTwiceMovesToEnd | components/navigation.tsx:98-104 | toggling a present name twice moves it to the end |
| Navigation.NavigationState.constructor | components/navigation.tsx:95-96 | no menu is expanded at first |
| Navigation.NavigationState.ToggleMenu | components/navigation.tsx:98-106 | the new list is the toggled old list, `isMenuOpen` of that name flips, and no name is listed twice |
| Navigation.NavigationState.IsMenuOpen | components/navigation.tsx:106 | open iff some position of the expanded list holds the name (`includes`) |
| Navigation.NavigationState.IsActiveSubmenuItem | components/navigation.tsx:108-110 | active iff the component's path equals `href`, or starts with `href` and has `/` right after it |
| Navigation.IsActivePath | components/navigation.tsx:108-110 | active iff the path equals `href`, or starts with `href` and has `/` right after it; the top-level links (line 138) use the same rule |
| Navigation.PrefixExamples | components/navigation.tsx:108-110 | `/tickets` is active on `/tickets/new` but not on `/ticketsx` |
| Navigation.HasActiveSubmenuItem | components/navigation.tsx:112-114 | true iff some entry of the sub-menu is active |
| Navigation.IsHighlighted | components/navigation.tsx:133-138 | a link is highlighted iff its own path is active; a menu iff some entry of its sub-menu is active |
| Navigation.NewTicketHighlightsList | components/navigation.tsx:56-64 | on `/tickets/new`, both the new-ticket entry and the ticket-list entry of the tickets menu are active, the kanban entry is not, and the menu is highlighted |
| Templates.FilteredTemplates | app/templates/page.tsx:103-110 | an order-preserving subsequence. A template is kept iff its lower-cased name or content contains the lower-cased search, its type is the selected one (or `all`), and likewise its category; each kept template occurs as often as in the list |
| Templates.UnfilteredListsAll | app/templates/page.tsx:103-110 | empty search with type and category `all` keeps every template |
| Templates.TypeLabel | app/templates/page.tsx:121-128 | the three known types get their labels; any other text is returned unchanged |
| Templates.ReplaceById | app/templates/page.tsx:133-135 | same length and same ids; every entry with the edited id becomes the edited template, and the others are unchanged |
| Templates.ReplaceIdempotent | app/templates/page.tsx:133-135 | saving the same edit twice equals saving it once |
| Templates.RemoveById | app/templates/page.tsx:159-161 | every template with the id is removed; the rest keep their order and their number of occurrences |
| Templates.DeleteUndoesCreate | app/templates/page.tsx:139-161 | deleting a just-appended template whose id is new restores the list |
| Templates.NewTemplate | app/templates/page.tsx:139-146 | the new template takes the draft's fields, the clock reading as its id, active, used 0 times, created today by `Current User` |
| Templates.TemplatesPage.constructor | app/templates/page.tsx:88-101 | starts with the initial list, no template being edited, the default draft and the form closed |
| Templates.TemplatesPage.StartEditing | app/templates/page.tsx:386 | the chosen template becomes the one being edited; nothing else changes |
| Templates.TemplatesPage.SaveTemplate | app/templates/page.tsx:130-157 | when editing: the list is `ReplaceById` of the old list and editing ends. Otherwise exactly one new template is appended after the unchanged old list, the draft resets to its defaults and the form closes |
| Templates.TemplatesPage.DeleteTemplate | app/templates/page.tsx:159-161 | the list becomes `RemoveById` of the old list; nothing else changes |
| Templates.TemplatesPage.Filtered | app/templates/page.tsx:103-110 | the shown list is an order-preserving subsequence of the page's templates holding exactly those that match the search, type and category, each as often as in the list |
| KnowledgeBase.FindCategory | app/knowledge-base/page.tsx:92 | the first category with the id, or none iff no category has it |
| KnowledgeBase.FilteredArticles | app/knowledge-base/page.tsx:86-95 | an order-preserving subsequence. An article is kept iff the search is in its title, description or some tag (ignoring case), and the category is `all` or the selected category's name matches, ignoring case; each kept article occurs as often as in the list |
| KnowledgeBase.EmptySearchMatchesAll | app/knowledge-base/page.tsx:87-89 | the empty search matches every article |
| KnowledgeBase.UnfilteredListsAll | app/knowledge-base/page.tsx:86-95 | empty search and category `all` keep every article |
| KnowledgeBase.UnknownCategoryListsNone | app/knowledge-base/page.tsx:91-92 | a selected category id that is not in the list yields no articles |
| KnowledgeBase.TechnicalCategoryExample | app/knowledge-base/page.tsx:15-21 | the `technical` id selects exactly the articles filed under `Técnico` (ignoring case), and with an empty search lists exactly those |
| KnowledgeBase.SortByViews | app/knowledge-base/page.tsx:97 | the array is rearranged in place into non-increasing views, as a permutation of its old contents |
| KnowledgeBase.PopularArticles | app/knowledge-base/page.tsx:97 | the array ends sorted, a permutation of its old contents. The result is its first min(5, length) entries, ordered by views, each with at least the views of every article left out |
| KnowledgeBase.PublicCount | app/knowledge-base/page.tsx:247 | at most the total, 0 iff no article is public, the total iff every article is |
| KnowledgeBase.InternalCount | app/knowledge-base/page.tsx:251 | at most the total, 0 iff every article is public, the total iff none is |
| KnowledgeBase.PublicPlusInternal | app/knowledge-base/page.tsx:243-251 | the public count plus the internal count equals the total |
| KnowledgeBase.ReduceViews | app/knowledge-base/page.tsx:255 | the `reduce` from any seed equals the seed plus the sum of the views |
| KnowledgeBase.SumViewsPermutation | app/knowledge-base/page.tsx:255 | the sum of the views does not depend on the order of the articles |
| KnowledgeBase.SortKeepsStatistics | app/knowledge-base/page.tsx:97 | the in-place sort leaves the article count, the public and internal counts and the total views unchanged |
| Kanban.ColumnIdsDistinct | app/kanban/page.tsx:31-36 | the column ids are `open`, `in_progress`, `resolved`, `closed`, pairwise different |
| Kanban.TicketsByStatus | app/kanban/page.tsx:98-100 | an order-preserving subsequence holding exactly the tickets with that status, each as often as in the list |
| Kanban.TicketsWithStatusIn | app/kanban/page.tsx:183-188 | exactly the tickets whose status is one of the given ids, each as often as in the list |
| Kanban.ColumnCounts | app/kanban/page.tsx:183-188 | one header count per column, the number of tickets in that column |
| Kanban.TicketInExactlyOneColumn | app/kanban/page.tsx:183-188 | a ticket with a column's status is in that column and in no other |
| Kanban.ColumnCountsSum | app/kanban/page.tsx:183-188 | with distinct column ids, the header counts add up to the number of tickets with a column status |
| Kanban.ColumnCountsCoverAll | app/kanban/page.tsx:183-188 | when every status is a column id, the header counts add up to the number of tickets |
| Kanban.BoardCountsEveryTicket | app/kanban/page.tsx:31-36 | with the four board columns, every ticket of a listed status is counted exactly once |
| Kanban.Entries | app/kanban/page.tsx:41-46 | the filter entries in key order: search, priority, assignee, consultancy |
| Kanban.NonEmptyEntries | app/kanban/page.tsx:54-57 | an order-preserving subsequence holding exactly the entries with a non-empty value, each as often as in the list |
| Kanban.BuildQueryParams | app/kanban/page.tsx:54-57 | the loop's parameters are exactly the non-empty entries, in order |
| Kanban.EmptyFiltersSendNothing | app/kanban/page.tsx:41-57 | the initial empty filter bar sends no parameters |
| Kanban.OnlyFilledFieldsAreSent | app/kanban/page.tsx:54-57 | each of search, priority, assignee and consultancy is sent iff it is filled in |
| Kanban.FilledFieldsInOrder | app/kanban/page.tsx:41-57 | the parameters are the filled-in fields, in the order search, priority, assignee, consultancy |
| Kanban.OnlyPrioritySent | app/kanban/page.tsx:41-57 | with only the priority filled in, the priority alone is sent |
| Kanban.PriorityLabel | app/kanban/page.tsx:203-204 | high gives Alta, medium gives Média, anything else gives Baixa |
| Kanban.PriorityColor | app/kanban/page.tsx:89-96 | high, medium and low give red, yellow and green; anything else gives gray |
| Kanban.BadgeAgreesWithColor | app/kanban/page.tsx:202-204 | for the three known priorities the badge is red iff it reads Alta, and green iff it reads Baixa |
| TicketsPage.FilteredTickets | app/tickets/page.tsx:33-54 | an order-preserving subsequence of tickets matching the search. New keeps exactly the open ones, On-Going the in-progress ones, Resolved the resolved ones; any other tab keeps all matches. Each kept ticket occurs as often as in the list |
| TicketsPage.AllTicketsListsAll | app/tickets/page.tsx:33-54 | `All Tickets` with an empty search lists every ticket |
| TicketsPage.DisplayId | app/tickets/page.tsx:151 | `ABC`, then `0` and the digit for ids 0-9, or the id's decimal text otherwise |
| Text.PadStart | app/tickets/page.tsx:151 | the padded text has length max(width, length), ends with the input, and is filled with the pad character |
| Text.Lower | app/templates/page.tsx:104-105 | the same length, with each character lower-cased (ASCII letters) |
| Text.Includes | app/templates/page.tsx:104-105 | true iff the needle occurs at some position of the text |
| Seqs.FilterMultiset | components/navigation.tsx:101 | `filter` keeps every occurrence of a kept value and no occurrence of a dropped one |
| TicketsPage.DisplayIdExamples | app/tickets/page.tsx:151 | 5 shows as `ABC05` and 123 as `ABC123` |
| TicketsPage.DisplayIdRoundTrip | app/tickets/page.tsx:151 | `parseInt` of the text after `ABC` gives back the id |
| TicketsPage.DisplayIdInjective | app/tickets/page.tsx:151 | different ids show different numbers |
| TicketsPage.StatusBadge | app/tickets/page.tsx:176-178 | open gives New, in_progress gives Open, resolved gives In Progress, anything else gives Close |
| TicketsPage.FormatStatus | app/tickets/page.tsx:79-87 | the four known statuses get their captions; any other text is returned unchanged |
| ClientTickets.FilteredTickets | client/src/pages/tickets.tsx:20-28 | empty when the list is not loaded, otherwise an order-preserving subsequence. A ticket is kept iff the search is empty or in its title or description (ignoring case), and each filled-in status or priority filter equals the ticket's; each kept ticket occurs as often as in the list |
| ClientTickets.NoFiltersListsAll | client/src/pages/tickets.tsx:21-25 | with nothing filled in, every loaded ticket is listed |
| ClientTickets.ListedTicketsMeetFilters | client/src/pages/tickets.tsx:21-25 | a listed ticket meets each filled-in filter and contains a non-empty search |
| ClientTickets.SearchNarrows | client/src/pages/tickets.tsx:21-23 | a non-empty search lists no ticket that the empty search would not |

## Left out

- Database queries, HTTP handling and React state plumbing. The models start from the list the query returns, or from the page state. The SLA status query's open/in-progress filter is a precondition of `SlaStatusRoute.SlaStatuses`.
- The wall clock and `Date.now()` become parameters: one instant per ticket for the status route (`nows`), a template's id clock reading `nowMs`, and the `today` date text. Nothing relates the readings to each other (for instance that later tickets are read no earlier), since the route's result does not depend on it. Date formatting (`toISOString().split('T')[0]`, `toLocaleString`) is left out.
- SlaMetricsRoute.ComputeMetrics: computes with exact millisecond durations and real averages in hours, and leaves out the rounding of the averages to two decimals (`Math.round(x * 100) / 100`), which is floating point.
- SlaStatusRoute.RemainingMinutes: rounds the exact time left, with exact half minutes rounding up. The route rounds the floating-point product `(threshold / 60 - ms / 3600000) * 60` (app/api/sla/status/route.ts:39,48,59-60), which at an exact half minute can land just below .5 and round down: a 2-minute threshold read 90 000 ms after creation gives `0.4999999999999999`, so the route reports 0 where the model gives 1. The model does not capture this floating-point rounding; `SlaStatusRoute.RoundToMinutes`, `SlaStatusRoute.EvaluateTicket` and `SlaStatusRoute.SlaStatuses` inherit this difference.
- SlaStatusRoute.EvaluateTicket: compares exact durations instead of floating-point hours, so it ignores any rounding error in `hours >= threshold * 0.8`.
- Pausing, business hours and escalation. The pause and resume endpoints do nothing, and the status route hard-codes `isPaused: false`. Business hours and escalation rules are only stored and displayed.
- `toLowerCase` lower-cases ASCII letters only; full Unicode case mapping is not modelled.
- `parseInt` skips ASCII white space only. Unicode space separators are not modelled.
- Numbers are modelled as unbounded integers, whereas JavaScript numbers are doubles. `toString` switches to exponent form from 10^21 (`"1e+21"`, which `parseInt` reads as 1), and integers above 2^53 are not exact. So `Decimal.IntToString`, `Decimal.ParseIntOfIntToString`, `SlaPage.DepartmentRoundTrip` and `TicketsPage.DisplayIdRoundTrip` agree with JavaScript below 10^21, exactly below 2^53. That range covers every `serial` id (shared/schema.ts:7,18,31) and every clock reading (about 1.7 * 10^12 ms) the pages convert.
- SlaPage.HoursAndMinutes: takes non-negative minutes only. Only the status route's remaining times are clamped (app/sla/page.tsx:543). The rule times are shown unchecked (app/sla/page.tsx:450-451): they come from `parseInt` on number inputs with no minimum (app/sla/page.tsx:373-389) and are stored as given (app/api/sla/rules/route.ts:43-54). A negative or NaN time therefore displays as, for instance, `-2h -30m` or `NaNh NaNm`; this is not modelled.
- KnowledgeBase.SortByViews: does not state that articles with equal views keep their relative order, which JavaScript's sort guarantees; the model's insertion sort is stable, but this is not proved.
- Kanban.BuildQueryParams: produces the key/value list; the `URLSearchParams` text form and its percent-encoding are not modelled.
- The ticket page's colour and icon helpers (`getStatusColor`, `getPriorityIcon`, `formatDate`), the SLA page's `getSLAStatusIcon` and the template page's `getTypeIcon` choose icons or CSS only, and the kanban `updateTicketStatus` request is I/O; none of them is modelled.
- The kanban page's `setTickets(data.tickets || data)` (app/kanban/page.tsx:62) accepts either response shape; the model starts from the ticket list, and the JSON shapes are not modelled.
- Clipboard, `alert`, `confirm` and `window.location` are side effects with no logic to model.
