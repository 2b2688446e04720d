/**
 * The SLA administration page: the rule form and the payload it submits,
 * loading a rule into the form for editing, the hours-and-minutes display,
 * the status colours and the three counters of the monitoring tab.
 */
module SlaPage {
  import opened Wrappers
  import opened Seqs
  import opened Decimal
  import SlaStatusRoute

  datatype EscalationRule = EscalationRule(
    id: string,
    level: int,
    triggerTime: int,
    action: string,
    targetUserId: Option<int>,
    targetDepartmentId: Option<int>)

  /** A rule as the rules endpoint returns it; `departmentId` is `None` for every department. */
  datatype SlaRule = SlaRule(
    id: int,
    name: string,
    description: string,
    departmentId: Option<int>,
    priority: seq<string>,
    customerType: seq<string>,
    firstResponseTime: int,
    resolutionTime: int,
    isActive: bool,
    businessHoursOnly: bool,
    pauseConditions: seq<string>,
    escalationRules: seq<EscalationRule>)

  /** The form state; the department select holds `"all"` or a department id as text. */
  datatype RuleForm = RuleForm(
    name: string,
    description: string,
    departmentId: string,
    priority: seq<string>,
    customerType: seq<string>,
    firstResponseTime: int,
    resolutionTime: int,
    isActive: bool,
    businessHoursOnly: bool,
    pauseConditions: seq<string>,
    escalationRules: seq<EscalationRule>)

  /** The payload's `departmentId`: `null`, a number, or `NaN` when the text does not parse. */
  datatype PayloadDepartment = NullDepartment | DepartmentId(id: int) | NotANumber

  datatype RulePayload = RulePayload(
    name: string,
    description: string,
    departmentId: PayloadDepartment,
    priority: seq<string>,
    customerType: seq<string>,
    firstResponseTime: int,
    resolutionTime: int,
    isActive: bool,
    businessHoursOnly: bool,
    pauseConditions: seq<string>,
    escalationRules: seq<EscalationRule>)

  datatype Request = Request(verb: string, url: string, payload: RulePayload)

  /** The form's initial state: two hours to first response, a day to resolution. */
  function InitialForm(): RuleForm
  {
    RuleForm("", "", "all", [], [], 120, 1440, true, true, [], [])
  }

  /** `resetForm`. */
  function ResetForm(): (f: RuleForm)
    ensures f == InitialForm()
    ensures f.departmentId == "all" && f.firstResponseTime == 120 && f.resolutionTime == 1440
  {
    RuleForm("", "", "all", [], [], 120, 1440, true, true, [], [])
  }

  /** The submitted department: `"all"` becomes `null`, anything else goes through `parseInt`. */
  function PayloadDepartmentOf(formValue: string): (d: PayloadDepartment)
    ensures formValue == "all" ==> d == NullDepartment
    ensures formValue != "all" ==> d != NullDepartment
    ensures formValue != "all" ==> (d == NotANumber <==> ParseInt(formValue) == None)
    ensures formValue != "all" && ParseInt(formValue).Some? ==> d == DepartmentId(ParseInt(formValue).value)
  {
    if formValue == "all" then NullDepartment
    else
      match ParseInt(formValue)
      case Some(n) => DepartmentId(n)
      case None => NotANumber
  }

  /** The department select when editing, `rule.departmentId?.toString() || 'all'`. */
  function FormDepartmentOf(ruleValue: Option<int>): (s: string)
    ensures ruleValue == None ==> s == "all"
    ensures ruleValue.Some? ==> s != "all" && s == IntToString(ruleValue.value)
  {
    match ruleValue
    case None => "all"
    case Some(n) =>
      var text := IntToString(n);
      assert text[0] != 'a';
      if text == "" then "all" else text
  }

  /** The department the rule had, as the payload carries it. */
  function AsPayloadDepartment(ruleValue: Option<int>): PayloadDepartment
  {
    match ruleValue
    case None => NullDepartment
    case Some(n) => DepartmentId(n)
  }

  /** Loading a rule's department into the form and submitting it gives the same department back. */
  lemma DepartmentRoundTrip(ruleValue: Option<int>)
    ensures PayloadDepartmentOf(FormDepartmentOf(ruleValue)) == AsPayloadDepartment(ruleValue)
  {
    if ruleValue.Some? {
      ParseIntOfIntToString(ruleValue.value);
    }
  }

  /** The payload `handleSubmit` sends: the form with its department converted. */
  function SubmitPayload(form: RuleForm): (p: RulePayload)
    ensures p.departmentId == PayloadDepartmentOf(form.departmentId)
    ensures p.name == form.name && p.description == form.description
    ensures p.priority == form.priority && p.customerType == form.customerType
    ensures p.firstResponseTime == form.firstResponseTime && p.resolutionTime == form.resolutionTime
    ensures p.isActive == form.isActive && p.businessHoursOnly == form.businessHoursOnly
    ensures p.pauseConditions == form.pauseConditions && p.escalationRules == form.escalationRules
  {
    RulePayload(form.name, form.description, PayloadDepartmentOf(form.departmentId),
                form.priority, form.customerType, form.firstResponseTime, form.resolutionTime,
                form.isActive, form.businessHoursOnly, form.pauseConditions, form.escalationRules)
  }

  /** `handleSubmit`: update the rule being edited, otherwise create one. */
  function SubmitRequest(editing: Option<SlaRule>, form: RuleForm): (r: Request)
    ensures r.verb == "PUT" <==> editing.Some?
    ensures editing == None ==> r.verb == "POST" && r.url == "/api/sla/rules"
    ensures editing.Some? ==> r.url == "/api/sla/rules/" + IntToString(editing.value.id)
    ensures r.payload == SubmitPayload(form)
  {
    match editing
    case Some(rule) => Request("PUT", "/api/sla/rules/" + IntToString(rule.id), SubmitPayload(form))
    case None => Request("POST", "/api/sla/rules", SubmitPayload(form))
  }

  /** `handleEdit`: the form shows the rule, with pause conditions and escalations cleared. */
  function EditForm(rule: SlaRule): (f: RuleForm)
    ensures f.name == rule.name && f.description == rule.description
    ensures f.departmentId == FormDepartmentOf(rule.departmentId)
    ensures f.priority == rule.priority && f.customerType == rule.customerType
    ensures f.firstResponseTime == rule.firstResponseTime && f.resolutionTime == rule.resolutionTime
    ensures f.isActive == rule.isActive && f.businessHoursOnly == rule.businessHoursOnly
    ensures f.pauseConditions == [] && f.escalationRules == []
  {
    RuleForm(rule.name, rule.description, FormDepartmentOf(rule.departmentId),
             rule.priority, rule.customerType, rule.firstResponseTime, rule.resolutionTime,
             rule.isActive, rule.businessHoursOnly, [], [])
  }

  /**
   * Opening a rule for editing and saving it unchanged sends the rule's own
   * values back, except that its pause conditions and escalations are emptied.
   */
  lemma EditThenSubmitKeepsRule(rule: SlaRule)
    ensures var p := SubmitRequest(Some(rule), EditForm(rule)).payload;
      && p.name == rule.name && p.description == rule.description
      && p.departmentId == AsPayloadDepartment(rule.departmentId)
      && p.priority == rule.priority && p.customerType == rule.customerType
      && p.firstResponseTime == rule.firstResponseTime && p.resolutionTime == rule.resolutionTime
      && p.isActive == rule.isActive && p.businessHoursOnly == rule.businessHoursOnly
      && p.pauseConditions == [] && p.escalationRules == []
  {
    DepartmentRoundTrip(rule.departmentId);
  }

  /** `Math.floor(minutes / 60)` and `minutes % 60` for a non-negative number of minutes. */
  function HoursAndMinutes(minutes: nat): (hm: (nat, nat))
    ensures hm.0 * 60 + hm.1 == minutes && hm.1 < 60
  {
    (minutes / 60, minutes % 60)
  }

  /** `formatTime`: `"<hours>h <minutes>m"`. */
  function FormatTime(minutes: nat): (text: string)
    ensures |text| >= 5 && text[|text| - 1] == 'm'
  {
    var (hours, mins) := HoursAndMinutes(minutes);
    NatToString(hours) + "h " + NatToString(mins) + "m"
  }

  /** Read back with `parseInt`, the formatted text gives the hours. */
  lemma FormatTimeReadsHours(minutes: nat)
    ensures ParseInt(FormatTime(minutes)) == Some(minutes / 60)
  {
    var (hours, mins) := HoursAndMinutes(minutes);
    assert FormatTime(minutes) == NatToString(hours) + ("h " + NatToString(mins) + "m");
    ParseIntOfNatToStringThen(hours, "h " + NatToString(mins) + "m");
  }

  /** The text after the `h` reads back as the minutes past the hour (`parseInt` skips the space). */
  lemma FormatTimeReadsMinutes(minutes: nat)
    ensures var text, k := FormatTime(minutes), |NatToString(minutes / 60)|;
      k < |text| && text[k] == 'h' && ParseInt(text[k + 1..]) == Some(minutes % 60)
  {
    var (hours, mins) := HoursAndMinutes(minutes);
    var hs, ms := NatToString(hours), NatToString(mins);
    var head, after := hs + "h", " " + ms + "m";
    assert FormatTime(minutes) == head + after;
    assert (head + after)[|head|..] == after;
    ParseIntOfSpacedNatToString(mins, "m");
  }

  /** Two digit strings each followed by the same non-digit marker split equal strings the same way. */
  lemma {:induction false} SplitAtMarker(a: string, x: string, b: string, y: string, marker: char)
    requires AllDigits(a) && AllDigits(b) && !IsDigit(marker)
    requires a + [marker] + x == b + [marker] + y
    ensures a == b && x == y
    decreases |a|
  {
    var sa, sb := a + [marker] + x, b + [marker] + y;
    if |a| == 0 && |b| == 0 {
      assert x == sa[1..] && y == sb[1..];
    } else if |a| > 0 && |b| > 0 {
      assert sa[0] == a[0] && sb[0] == b[0];
      assert sa[1..] == a[1..] + [marker] + x;
      assert sb[1..] == b[1..] + [marker] + y;
      SplitAtMarker(a[1..], x, b[1..], y, marker);
      assert a == [a[0]] + a[1..] && b == [b[0]] + b[1..];
    }
  }

  /** Different durations are displayed differently. */
  lemma FormatTimeInjective(m: nat, n: nat)
    requires FormatTime(m) == FormatTime(n)
    ensures m == n
  {
    var (hm, mm) := HoursAndMinutes(m);
    var (hn, mn) := HoursAndMinutes(n);
    var tm, tn := " " + NatToString(mm) + "m", " " + NatToString(mn) + "m";
    assert FormatTime(m) == NatToString(hm) + ['h'] + tm;
    assert FormatTime(n) == NatToString(hn) + ['h'] + tn;
    SplitAtMarker(NatToString(hm), tm, NatToString(hn), tn, 'h');
    NatToStringInjective(hm, hn);
    assert NatToString(mm) + ['m'] == tm[1..] && NatToString(mn) + ['m'] == tn[1..];
    assert NatToString(mm) + ['m'] + "" == NatToString(mn) + ['m'] + "";
    SplitAtMarker(NatToString(mm), "", NatToString(mn), "", 'm');
    NatToStringInjective(mm, mn);
  }

  /** `getSLAStatusColor`. */
  function StatusColor(status: string): (c: string)
    ensures c == "text-green-600" <==> status == "within"
    ensures c == "text-yellow-600" <==> status == "warning"
    ensures c == "text-red-600" <==> status == "breached"
    ensures status != "within" && status != "warning" && status != "breached" ==> c == "text-gray-600"
  {
    match status
    case "within" => "text-green-600"
    case "warning" => "text-yellow-600"
    case "breached" => "text-red-600"
    case _ => "text-gray-600"
  }

  /** An element of the status list as the page receives it: the level is text. */
  datatype StatusView = StatusView(
    ticketId: int,
    status: string,
    responseTimeRemaining: int,
    resolutionTimeRemaining: int,
    isPaused: bool,
    pauseReason: Option<string>)

  /** The text a level is serialised as. */
  function LevelName(l: SlaStatusRoute.Level): string
  {
    match l
    case Within => "within"
    case Warning => "warning"
    case Breached => "breached"
  }

  /** The status route's element after the JSON round trip. */
  function ViewOf(s: SlaStatusRoute.SlaStatus): StatusView
  {
    StatusView(s.ticketId, LevelName(s.status), s.responseTimeRemaining,
               s.resolutionTimeRemaining, s.isPaused, s.pauseReason)
  }

  /** `slaStatuses.filter(s => s.status === name).length`. */
  function CountWithStatus(views: seq<StatusView>, name: string): (n: nat)
    ensures n <= |views|
    ensures n == 0 <==> forall i :: 0 <= i < |views| ==> views[i].status != name
    ensures n == |views| <==> forall i :: 0 <= i < |views| ==> views[i].status == name
  {
    FilterEmptyLength(views, (v: StatusView) => v.status == name);
    FilterFullLength(views, (v: StatusView) => v.status == name);
    |Filter(views, (v: StatusView) => v.status == name)|
  }

  predicate IsKnownStatus(status: string)
  {
    status == "within" || status == "warning" || status == "breached"
  }

  /** When every status is one of the three, the three counters add up to the list's length. */
  lemma {:induction false} StatusCountsPartition(views: seq<StatusView>)
    requires forall i :: 0 <= i < |views| ==> IsKnownStatus(views[i].status)
    ensures CountWithStatus(views, "within") + CountWithStatus(views, "warning")
            + CountWithStatus(views, "breached") == |views|
    decreases |views|
  {
    if |views| > 0 {
      StatusCountsPartition(views[1..]);
      assert |"within"| == 6 && |"warning"| == 7 && |"breached"| == 8;
    }
  }

  /** Everything the status route returns renders as one of the three known statuses. */
  lemma RouteStatusesAreKnown(statuses: seq<SlaStatusRoute.SlaStatus>)
    ensures var views := seq(|statuses|, i requires 0 <= i < |statuses| => ViewOf(statuses[i]));
      CountWithStatus(views, "within") + CountWithStatus(views, "warning")
      + CountWithStatus(views, "breached") == |statuses|
  {
    var views := seq(|statuses|, i requires 0 <= i < |statuses| => ViewOf(statuses[i]));
    StatusCountsPartition(views);
  }

  /** `slaStatuses.filter(s => s.isPaused).length`, the "paused" counter. */
  function PausedCount(views: seq<StatusView>): (n: nat)
    ensures n <= |views|
    ensures n == 0 <==> forall i :: 0 <= i < |views| ==> !views[i].isPaused
  {
    FilterEmptyLength(views, (v: StatusView) => v.isPaused);
    |Filter(views, (v: StatusView) => v.isPaused)|
  }

  /** The status route never reports a paused ticket, so the paused counter always shows 0. */
  lemma RouteShowsNothingPaused(tickets: seq<SlaStatusRoute.Ticket>, nows: seq<int>)
    requires |nows| == |tickets|
    requires forall i :: 0 <= i < |tickets| ==> SlaStatusRoute.IsQueried(tickets[i])
    ensures var statuses := SlaStatusRoute.SlaStatuses(tickets, nows);
      PausedCount(seq(|statuses|, i requires 0 <= i < |statuses| => ViewOf(statuses[i]))) == 0
  {
  }
}
