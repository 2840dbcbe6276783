/** The task table (tasks.js): interval notation, the absence gap, the applicability
    wrapper every report task shares, the resolution window, the event generators
    with their due dates, and the `appliesIf`/`resolvedIf` predicates of the tasks.
    Instants are milliseconds; `new Date()` reads `host.now`. */
module Tasks {
  import opened JsValues
  import opened Reports
  import opened NoolsExtras

  // ---------------------------------------------------------------------------
  // Interval notation

  /** `parseIntervals(interval)`: `'N:m'` is N months of 30 days, anything else after
      the colon (or no colon) leaves N days; the number is read by `Number.parseInt`. */
  function ParseIntervals(s: string): (v: Value)
    ensures IsNumber(v)
  {
    var parts := Split(s, ':');
    var quant := ParseInt(parts[0]);
    var unit := if |parts| > 1 then Str(parts[1]) else Undefined;
    if unit == Str("m") then (if quant.Num? then Num(quant.n * 30) else NaN) else quant
  }

  lemma NoColonInDigits(s: string)
    requires AllDigits(s, 10)
    ensures ':' !in s
  {
    forall i | 0 <= i < |s|
      ensures s[i] != ':'
    {
      assert DigitValue(s[i], 10) >= 0;
    }
  }

  /** A digit string, a colon and a unit split into the two. */
  lemma SplitInterval(t: string, unit: string)
    requires AllDigits(t, 10)
    requires ':' !in unit
    ensures Split(t + ":" + unit, ':') == [t, unit]
  {
    NoColonInDigits(t);
    SplitAfterPrefix(t, ':', unit);
    SplitNoSeparator(unit, ':');
    assert t + [':'] + unit == t + ":" + unit;
  }

  /** `'N:m'` reads as 30·N days and `'N:d'` as N days. */
  lemma ParseIntervalsReads(n: nat, unit: string)
    requires unit == "m" || unit == "d"
    ensures ParseIntervals(NatToString(n) + ":" + unit) == Num(if unit == "m" then 30 * n else n)
  {
    var t := NatToString(n);
    SplitInterval(t, unit);
    ParseIntOfNatText(n, "");
    assert t + "" == t;
  }

  /** `intervals.anc.followups` and `intervals.pnc.followups`. */
  const ANC_FOLLOWUPS := ["0:d", "1:m", "2:m", "3:m", "4:m", "5:m", "6:m", "7:m", "8:m", "9:m"]
  const PNC_FOLLOWUPS := ["0:d", "3:d", "7:d", "28:d", "2:m"]

  /** The ANC follow-ups are the months 0 to 9, in order. */
  lemma AncFollowupsParse()
    ensures |ANC_FOLLOWUPS| == ANC_COUNT
    ensures forall i | 0 <= i < |ANC_FOLLOWUPS| :: ParseIntervals(ANC_FOLLOWUPS[i]) == Num(30 * i)
  {
    forall i | 0 <= i < |ANC_FOLLOWUPS|
      ensures ParseIntervals(ANC_FOLLOWUPS[i]) == Num(30 * i)
    {
      assert NatToString(i) == [DigitChar(i)];
      if i == 0 {
        ReadsInterval(ANC_FOLLOWUPS[i], 0, "d");
      } else {
        ReadsInterval(ANC_FOLLOWUPS[i], i, "m");
      }
    }
  }

  /** The PNC follow-up offsets, in days. */
  const PNC_OFFSETS := [0, 3, 7, 28, 60]

  /** One interval literal read through `ParseIntervals`. */
  lemma ReadsInterval(lit: string, n: nat, unit: string)
    requires unit == "m" || unit == "d"
    requires lit == NatToString(n) + ":" + unit
    ensures ParseIntervals(lit) == Num(if unit == "m" then 30 * n else n)
  {
    ParseIntervalsReads(n, unit);
  }

  lemma PncFollowupsParse()
    ensures |PNC_FOLLOWUPS| == |PNC_OFFSETS|
    ensures forall i | 0 <= i < |PNC_FOLLOWUPS| :: ParseIntervals(PNC_FOLLOWUPS[i]) == Num(PNC_OFFSETS[i])
  {
    forall i | 0 <= i < |PNC_FOLLOWUPS|
      ensures ParseIntervals(PNC_FOLLOWUPS[i]) == Num(PNC_OFFSETS[i])
    {
      if i == 0 {
        ReadsInterval(PNC_FOLLOWUPS[0], 0, "d");
      } else if i == 1 {
        ReadsInterval(PNC_FOLLOWUPS[1], 3, "d");
      } else if i == 2 {
        ReadsInterval(PNC_FOLLOWUPS[2], 7, "d");
      } else if i == 3 {
        assert NatToString(28) == NatToString(2) + [DigitChar(8)];
        ReadsInterval(PNC_FOLLOWUPS[3], 28, "d");
      } else {
        ReadsInterval(PNC_FOLLOWUPS[4], 2, "m");
      }
    }
  }

  // ---------------------------------------------------------------------------
  // The absence gap

  /** A top-level field of a report's field tree, as the destructuring of `fields`
      reads it. */
  function TopField(m: map<string, FieldTree>, name: string): Value {
    Lookup(Tree(m), name)
  }

  /** `gapCalculator(report.fields, normal)`: destructuring absent fields throws. */
  function GapCalculator(fields: Option<map<string, FieldTree>>, normal: int): (g: Result<int>)
    ensures g.Ok? <==> fields.Some?
    ensures g.Ok? ==> g.value == 30 || g.value == 90 || g.value == normal
  {
    if fields.None? then Thrown("TypeError: Cannot destructure 'undefined'")
    else
      var m := fields.value;
      var away := TopField(m, "woman_at_home") == Str("no") || TopField(m, "child_at_home") == Str("no");
      var reason := TopField(m, "reason_absence");
      if away && reason in [Str("gone_for_work"), Str("back_6_month"), Str("location_unknown")] then Ok(30)
      else if away && reason == Str("back_in_1_year") then Ok(90)
      else Ok(normal)
  }

  /** A short absence gives 30 days, a year-long absence 90, and a woman and child at
      home (or any other reason) keep the normal gap. */
  lemma GapCalculatorCases(m: map<string, FieldTree>, normal: int)
    ensures var away := TopField(m, "woman_at_home") == Str("no") || TopField(m, "child_at_home") == Str("no");
      var reason := TopField(m, "reason_absence");
      && (away && reason in {Str("gone_for_work"), Str("back_6_month"), Str("location_unknown")} ==> GapCalculator(Some(m), normal) == Ok(30))
      && (away && reason == Str("back_in_1_year") ==> GapCalculator(Some(m), normal) == Ok(90))
      && (!away ==> GapCalculator(Some(m), normal) == Ok(normal))
  {
  }

  // ---------------------------------------------------------------------------
  // taskApplier

  /** The extra condition a task passes to `taskApplier`. */
  type ApplyExtra = (seq<Report>, Report) -> bool

  /** `taskApplier(extraConditions)(contact, report)`. The report's form name is passed
      to `getMostRecentReport` as a string, so any live report whose form name is a
      piece of it counts as a newer report of the same form. */
  function TaskApplies(rs: seq<Report>, report: Report, extra: Option<ApplyExtra>): bool {
    if !IsActive(rs) then false
    else
      var recent := MostRecentReport(rs, FormText(report.form));
      if recent.Some? && recent.value.reported > report.reported then false
      else !(extra.Some? && !extra.value(rs, report))
  }

  /** The wrapper holds exactly when the contact is active, no live report whose form
      name is a piece of the trigger's is dated after the trigger, and the extra
      condition (if any) holds. In particular a live newer report of the same form
      switches the task off. */
  lemma TaskAppliesIff(rs: seq<Report>, report: Report, extra: Option<ApplyExtra>)
    ensures TaskApplies(rs, report, extra) <==>
      && IsActive(rs)
      && (forall r | r in rs && !r.deleted && Contains(report.form, r.form) :: r.reported <= report.reported)
      && (extra.None? || extra.value(rs, report))
    ensures (exists r | r in rs && !r.deleted && r.form == report.form :: r.reported > report.reported) ==>
      !TaskApplies(rs, report, extra)
  {
    MostRecentReportIsNewest(rs, FormText(report.form));
    StringFormsMatchPieces("", report.form, "");
    assert "" + report.form + "" == report.form;
  }

  // ---------------------------------------------------------------------------
  // Events and due dates

  /** How an event's due date is computed: by one of the five generators (with its
      interval in days), or, for the events written out in the table, by the
      toolkit from the event's `days`. */
  datatype DueRule =
    | ScreeningDue(interval: int)
    | RegistryDue(interval: int)
    | VisitDue(interval: int)
    | DeliveryDue(interval: int)
    | PostDeliveryDue(interval: int)
    | Days(days: int)

  datatype TaskEvent = TaskEvent(id: Option<string>, start: int, end: int, due: DueRule)

  /** `intervals.<kind>`: how many days before and after the due date the task shows. */
  datatype Window = Window(start: int, end: int)

  const U2_WINDOW := Window(7, INFINITY)
  const PNC_WINDOW := Window(7, 7)
  const ANC_WINDOW := Window(7, 7)
  const PSS_WINDOW := Window(14, INFINITY)
  const PDF_WINDOW := Window(0, 7)
  const U2_FOLLOWUP := 30
  const PSS_FOLLOWUP := 90
  const PDF_FOLLOWUP := 0

  function PssEvent(interval: int, w: Window): TaskEvent {
    TaskEvent(Some("pregnancy-screening-followup"), w.start, w.end, ScreeningDue(interval))
  }

  function U2Event(interval: int, w: Window): TaskEvent {
    TaskEvent(Some("u2-followup"), w.start, w.end, RegistryDue(interval))
  }

  /** `Math.round(x / 30)` for a whole number of days. */
  function RoundDiv30(x: int): (q: int)
    ensures 30 * q - 15 <= x < 30 * q + 15
  {
    FloorDiv(x + 15, 30)
  }

  /** `eventGenerators.anc`: the visit number is the month rounded, plus one. */
  function AncEvent(interval: int, w: Window): TaskEvent {
    TaskEvent(Some("anc-visit-" + IntToString(RoundDiv30(interval) + 1)), w.start, w.end, VisitDue(interval))
  }

  /** The name of the PNC visit `interval` days after delivery. */
  function PncId(interval: int): string {
    "pnc-visit-" + IntToString(interval) + "-days"
  }

  /** `eventGenerators.pnc`: early visits open a day before and close a day after. */
  function PncEvent(interval: int, w: Window): TaskEvent {
    TaskEvent(Some(PncId(interval)),
              if interval <= 7 then 1 else w.start,
              if interval < 7 then 1 else w.end,
              DeliveryDue(interval))
  }

  function PdfEvent(interval: int, w: Window): TaskEvent {
    TaskEvent(Some("post-delivery"), w.start, w.end, PostDeliveryDue(interval))
  }

  /** `intervals.anc.followups.map(parseIntervals).map(...)`. */
  function AncEvents(): seq<TaskEvent> {
    AncFollowupsParse();
    seq(|ANC_FOLLOWUPS|, i requires 0 <= i < |ANC_FOLLOWUPS| => AncEvent(ParseIntervals(ANC_FOLLOWUPS[i]).n, ANC_WINDOW))
  }

  /** `intervals.pnc.followups.map(parseIntervals).map(...)`. */
  function PncEvents(): seq<TaskEvent> {
    PncFollowupsParse();
    seq(|PNC_FOLLOWUPS|, i requires 0 <= i < |PNC_FOLLOWUPS| => PncEvent(ParseIntervals(PNC_FOLLOWUPS[i]).n, PNC_WINDOW))
  }

  /** The ten ANC visits are due 0, 30, ..., 270 days after the screening, are named
      `anc-visit-1` to `anc-visit-10`, and their names differ. */
  lemma AncEventsAre()
    ensures |AncEvents()| == 10
    ensures forall i | 0 <= i < 10 ::
      AncEvents()[i] == TaskEvent(Some("anc-visit-" + NatToString(i + 1)), 7, 7, VisitDue(30 * i))
    ensures forall i, j | 0 <= i < j < 10 :: AncEvents()[i].id != AncEvents()[j].id
  {
    AncFollowupsParse();
    forall i | 0 <= i < 10
      ensures AncEvents()[i] == TaskEvent(Some("anc-visit-" + NatToString(i + 1)), 7, 7, VisitDue(30 * i))
    {
      assert RoundDiv30(30 * i) == i;
    }
    forall i, j | 0 <= i < j < 10
      ensures AncEvents()[i].id != AncEvents()[j].id
    {
      if AncEvents()[i].id == AncEvents()[j].id {
        var a, b := NatToString(i + 1), NatToString(j + 1);
        assert ("anc-visit-" + a)[10..] == a;
        assert ("anc-visit-" + b)[10..] == b;
        NatToStringInjective(i + 1, j + 1);
      }
    }
  }

  /** Different day offsets give different PNC event names. */
  lemma PncIdsDiffer(a: nat, b: nat)
    requires a != b
    ensures PncId(a) != PncId(b)
  {
    var x, y := NatToString(a), NatToString(b);
    if "pnc-visit-" + x + "-days" == "pnc-visit-" + y + "-days" {
      assert |x| == |y|;
      assert ("pnc-visit-" + x + "-days")[10..10 + |x|] == x;
      assert ("pnc-visit-" + y + "-days")[10..10 + |y|] == y;
      NatToStringInjective(a, b);
    }
  }

  /** The PNC event at position `i` is the generator applied to the i-th offset. */
  lemma PncEventAt(i: nat)
    requires i < 5
    ensures |PncEvents()| == 5 && PncEvents()[i] == PncEvent(PNC_OFFSETS[i], PNC_WINDOW)
  {
    PncFollowupsParse();
  }

  /** The five PNC visits fall on days 0, 3, 7, 28 and 60 after delivery; the task
      opens one day early up to day 7 and seven days early after it, and closes one
      day late before day 7 and seven days late from it on. */
  lemma PncEventsAre()
    ensures |PncEvents()| == 5
    ensures forall i | 0 <= i < 5 ::
      var d := PNC_OFFSETS[i];
      PncEvents()[i] == TaskEvent(Some(PncId(d)),
                                  if d <= 7 then 1 else 7, if d < 7 then 1 else 7, DeliveryDue(d))
  {
    PncEventAt(0);
    forall i | 0 <= i < 5
      ensures var d := PNC_OFFSETS[i];
        PncEvents()[i] == TaskEvent(Some(PncId(d)),
                                    if d <= 7 then 1 else 7, if d < 7 then 1 else 7, DeliveryDue(d))
    {
      PncEventAt(i);
    }
  }

  /** The five PNC events have different names. */
  lemma PncEventIdsDistinct()
    ensures |PncEvents()| == 5
    ensures forall i, j | 0 <= i < j < 5 :: PncEvents()[i].id != PncEvents()[j].id
  {
    PncEventsAre();
    forall i, j | 0 <= i < j < 5
      ensures PncEvents()[i].id != PncEvents()[j].id
    {
      PncIdsDiffer(PNC_OFFSETS[i], PNC_OFFSETS[j]);
    }
  }

  const URINE_RETEST := [Str("indetermined"), Str("test_malfunctioning"), Str("not_tested")]

  /** The due date of a generated event; `Ok(None)` is an invalid date, and a thrown
      error comes from the absence gap of a report without fields. */
  function DueDate(host: Host, rs: seq<Report>, report: Report, rule: DueRule): Result<Option<int>>
    requires !rule.Days?
  {
    match rule
    case ScreeningDue(interval) =>
      var urine := GetField(Some(report), "continue_pss.continue_pss_test.continue_pss_test_urine_test");
      if report.form == PREGNANCY_SCREENING && Truthy(urine) && urine in URINE_RETEST then
        Ok(Some(AddDays(report.reported, 15)))
      else if report.form == POST_DELIVERY then
        Ok(Some(AddDays(report.reported, if GetField(Some(report), "pnc2") == Str("1") then 60 else interval)))
      else GapDue(report, interval)
    case RegistryDue(interval) => GapDue(report, interval)
    case VisitDue(interval) => Ok(Some(AddDays(report.reported, interval)))
    case DeliveryDue(interval) =>
      var d := DeliveryDate(host, rs, report);
      Ok(if d.None? then None else Some(AddDays(d.value, interval)))
    case PostDeliveryDue(interval) => Ok(Some(AddDays(report.reported, interval)))
  }

  /** `addDays(report.reported_date, gapCalculator(report.fields, interval))`. */
  function GapDue(report: Report, interval: int): Result<Option<int>> {
    match GapCalculator(report.fields, interval)
    case Thrown(e) => Thrown(e)
    case Ok(g) => Ok(Some(AddDays(report.reported, g)))
  }

  /** The screening follow-up's due date, rule by rule: a urine test to repeat brings
      it to 15 days; after a delivery it is 60 days when a second PNC is planned and
      the interval otherwise; in every other case the absence gap decides. */
  lemma ScreeningDueOrder(host: Host, rs: seq<Report>, report: Report, interval: int)
    ensures var urine := GetField(Some(report), "continue_pss.continue_pss_test.continue_pss_test_urine_test");
      report.form == PREGNANCY_SCREENING && urine in {Str("indetermined"), Str("test_malfunctioning"), Str("not_tested")} ==>
        DueDate(host, rs, report, ScreeningDue(interval)) == Ok(Some(AddDays(report.reported, 15)))
    ensures report.form == POST_DELIVERY && GetField(Some(report), "pnc2") == Str("1") ==>
      DueDate(host, rs, report, ScreeningDue(interval)) == Ok(Some(AddDays(report.reported, 60)))
    ensures report.form == POST_DELIVERY && GetField(Some(report), "pnc2") != Str("1") ==>
      DueDate(host, rs, report, ScreeningDue(interval)) == Ok(Some(AddDays(report.reported, interval)))
    ensures report.form != PREGNANCY_SCREENING && report.form != POST_DELIVERY && report.fields.Some? ==>
      exists g | g in {30, 90, interval} :: DueDate(host, rs, report, ScreeningDue(interval)) == Ok(Some(AddDays(report.reported, g)))
    ensures var urine := GetField(Some(report), "continue_pss.continue_pss_test.continue_pss_test_urine_test");
      !(report.form == PREGNANCY_SCREENING && urine in {Str("indetermined"), Str("test_malfunctioning"), Str("not_tested")})
      && report.form != POST_DELIVERY ==>
        DueDate(host, rs, report, ScreeningDue(interval)) == GapDue(report, interval)
  {
    var urine := GetField(Some(report), "continue_pss.continue_pss_test.continue_pss_test_urine_test");
    if urine in {Str("indetermined"), Str("test_malfunctioning"), Str("not_tested")} {
      assert Truthy(urine) && urine in URINE_RETEST;
    } else {
      assert !(urine in URINE_RETEST);
    }
    if report.form != PREGNANCY_SCREENING && report.form != POST_DELIVERY && report.fields.Some? {
      var g := GapCalculator(report.fields, interval).value;
      assert DueDate(host, rs, report, ScreeningDue(interval)) == Ok(Some(AddDays(report.reported, g)));
    }
  }

  /** A PNC visit is due `interval` days after the delivery date, which falls back to
      the post-delivery report's own date. */
  lemma PncDueFromDelivery(host: Host, rs: seq<Report>, report: Report, interval: int)
    ensures var a := GetField(Some(report), "post_delivery_assessment.delivery_date_pdf");
      var b := GetField(NewestOfForms(rs, Forms([PREGNANCY_SCREENING])), "standard.standard_delivery_date_pdf");
      !Truthy(a) && !Truthy(b) ==> DueDate(host, rs, report, DeliveryDue(interval)) == Ok(Some(AddDays(report.reported, interval)))
  {
    var a := GetField(Some(report), "post_delivery_assessment.delivery_date_pdf");
    var b := GetField(NewestOfForms(rs, Forms([PREGNANCY_SCREENING])), "standard.standard_delivery_date_pdf");
    if !Truthy(a) && !Truthy(b) {
      DeliveryDateFallback(host, rs, report);
      var d := DeliveryDate(host, rs, report);
      assert d == Some(report.reported);
      assert DueDate(host, rs, report, DeliveryDue(interval)) == Ok(Some(AddDays(d.value, interval)));
    }
  }

  /** `epds_assessmentSchedule`: three assessments due 90, 180 and 270 days after the
      screening. */
  const EPDS_ASSESSMENT_SCHEDULE := [
    TaskEvent(Some("epds_event_1"), 150, 15, Days(90)),
    TaskEvent(Some("epds_event_2"), 15, 15, Days(180)),
    TaskEvent(Some("epds_event_3"), 15, 15, Days(270))]

  // ---------------------------------------------------------------------------
  // taskResolver

  /** The extra condition a task passes to `taskResolver`. */
  type ResolveExtra = (seq<Report>, Report, TaskEvent, int) -> bool

  /** The first instant of the resolution window: `max(due − start days, reported)`,
      or just after the trigger for a pregnancy-screening target. */
  function WindowStart(report: Report, event: TaskEvent, due: int, target: string): int {
    if target == PREGNANCY_SCREENING then report.reported + 1
    else
      var early := AddDays(due, -event.start);
      if early > report.reported then early else report.reported
  }

  function WindowEnd(event: TaskEvent, due: int): int {
    AddDays(due, event.end)
  }

  /** What the resolver answers once its target form is fixed. */
  predicate Resolved(rs: seq<Report>, report: Report, event: TaskEvent, due: int, target: string, extra: Option<ResolveExtra>) {
    || !IsActive(rs)
    || SubmittedInWindow(rs, Forms([target]), WindowStart(report, event, due, target), WindowEnd(event, due), None)
    || (extra.Some? && extra.value(rs, report, event, due))
  }

  /** A task resolves exactly when the contact is inactive, a report of the target form
      lies in the window, or the extra condition holds. The window never opens before
      the trigger, and for a screening target it opens strictly after it, so the
      trigger never resolves its own task. */
  lemma ResolvedIff(rs: seq<Report>, report: Report, event: TaskEvent, due: int, target: string, extra: Option<ResolveExtra>)
    ensures Resolved(rs, report, event, due, target, extra) <==>
      || !IsActive(rs)
      || (exists r | r in rs :: r.form == target && WindowStart(report, event, due, target) <= r.reported <= WindowEnd(event, due))
      || (extra.Some? && extra.value(rs, report, event, due))
    ensures WindowStart(report, event, due, target) >= report.reported
    ensures target == PREGNANCY_SCREENING ==> WindowStart(report, event, due, target) > report.reported
  {
    SubmittedInWindowMeaning(rs, Forms([target]), WindowStart(report, event, due, target), WindowEnd(event, due), None);
  }

  /** `taskResolver(extraConditions, targetForm)`: the closure keeps `targetForm`, and
      the first call fixes it to the trigger's form when none was given. */
  class TaskResolver {
    var targetForm: Option<string>
    const extra: Option<ResolveExtra>

    constructor(extra: Option<ResolveExtra>, targetForm: Option<string>)
      ensures this.extra == extra && this.targetForm == targetForm
    {
      this.extra := extra;
      this.targetForm := targetForm;
    }

    /** The closure's body, called with the contact's reports, the trigger, the event
        and its due date. */
    method Resolve(rs: seq<Report>, report: Report, event: TaskEvent, due: int) returns (resolved: bool)
      modifies this
      ensures targetForm == Some(if old(targetForm).Some? then old(targetForm).value else report.form)
      ensures resolved == Resolved(rs, report, event, due, targetForm.value, extra)
    {
      targetForm := if targetForm.Some? then targetForm else Some(report.form);
      var target := targetForm.value;
      var start := AddDays(due, -event.start);
      if report.reported > start {
        start := report.reported;
      }
      if target == PREGNANCY_SCREENING {
        start := report.reported + 1;
      }
      assert start == WindowStart(report, event, due, target);
      var end := AddDays(due, event.end);
      var death := GetMostRecentReport(rs, FormText(DEATH_MIGRATION));
      var submitted := IsFormArraySubmittedInWindow(rs, Forms([target]), start, end, None);
      var early := extra.Some? && extra.value(rs, report, event, due);
      resolved := death.Some? || submitted || early;
    }
  }

  /** `anc_visit`'s extra resolution: the newest live ANC after the screening records
      eligibility, a delivery, or no ANC. */
  predicate AncResolvedEarly(rs: seq<Report>, report: Report) {
    var anc := MostRecentReport(rs, Forms([ANC]));
    && anc.Some? && anc.value.reported != 0 && anc.value.reported > report.reported
    && (GetField(anc, "eligible_woman") == Str("1") || GetField(anc, "post_delivery") == Str("1")
        || GetField(anc, "anc") == Str("0"))
  }

  /** The ANC task resolves early only through a live ANC dated after the screening
      that is the newest live ANC and records one of the three answers. */
  lemma AncResolvedEarlyMeans(rs: seq<Report>, report: Report)
    ensures AncResolvedEarly(rs, report) ==>
      exists a | a in rs && a.form == ANC && !a.deleted ::
        && a.reported > report.reported
        && (forall r | r in rs && r.form == ANC && !r.deleted :: r.reported <= a.reported)
        && (GetField(Some(a), "eligible_woman") == Str("1") || GetField(Some(a), "post_delivery") == Str("1")
            || GetField(Some(a), "anc") == Str("0"))
  {
    MostRecentOfForm(rs, ANC);
  }

  // ---------------------------------------------------------------------------
  // appliesIf of the tasks

  /** `u2-registry`: an under-two contact without any report of a form whose name is a
      piece of `u2_registry` (deleted ones included). */
  predicate U2RegistryApplies(host: Host, dob: Option<Value>, rs: seq<Report>) {
    IsContactUnder2(host, dob) && NewestOfForms(rs, FormText(U2_REGISTRY)).None?
  }

  /** `pss-followup`'s extra condition: a screening of a woman over 49 gets no
      follow-up, nor one that records an ANC, a direct delivery or a removal. */
  predicate PssFollowupExtra(host: Host, dob: Option<Value>, rs: seq<Report>, report: Report) {
    if report.form == PREGNANCY_SCREENING then
      if dob.Some? && Truthy(dob.value) && Greater(AgeFromDOB(host, dob.value), Num(49)) then false
      else GetField(Some(report), "anc") != Str("1") && GetField(Some(report), "pdf_direct") != Str("1")
           && GetField(Some(report), "remove_woman") != Str("1")
    else true
  }

  predicate PssFollowupApplies(host: Host, dob: Option<Value>, rs: seq<Report>, report: Report) {
    TaskApplies(rs, report, Some((c: seq<Report>, r: Report) => PssFollowupExtra(host, dob, c, r)))
  }

  /** A screening task needs a screening without `anc`, `pdf_direct` or `remove_woman`
      set to '1'. */
  lemma PssFollowupNeeds(host: Host, dob: Option<Value>, rs: seq<Report>, report: Report)
    requires report.form == PREGNANCY_SCREENING
    ensures PssFollowupApplies(host, dob, rs, report) ==>
      && IsActive(rs)
      && GetField(Some(report), "anc") != Str("1")
      && GetField(Some(report), "pdf_direct") != Str("1")
      && GetField(Some(report), "remove_woman") != Str("1")
  {
    TaskAppliesIff(rs, report, Some((c: seq<Report>, r: Report) => PssFollowupExtra(host, dob, c, r)));
  }

  predicate U2FollowupApplies(host: Host, dob: Option<Value>, rs: seq<Report>, report: Report) {
    TaskApplies(rs, report, Some((c: seq<Report>, r: Report) => IsContactUnder2(host, dob)))
  }

  /** `anc_visit`: no `taskApplier`, only the screening's `anc` answer. */
  predicate AncVisitApplies(report: Report) {
    GetField(Some(report), "anc") == Str("1")
  }

  /** `post_delivery`: a screening's `pdf_direct`, or an ANC's `post_delivery`. */
  predicate PostDeliveryExtra(report: Report) {
    var field := if report.form == PREGNANCY_SCREENING then "pdf_direct" else "post_delivery";
    GetField(Some(report), field) == Str("1")
  }

  predicate PssFalsePregnancyExtra(report: Report) {
    GetField(Some(report), "eligible_woman") == Str("1")
  }

  /** `pnc_visit` and `pnc2_visit`: the status flag and fewer than 60 post-partum days.
      The PNC2 task also uses the 60-day limit. */
  predicate PncVisitExtra(report: Report, statusField: string) {
    GetField(Some(report), statusField) == Str("1") && Below(PPDays(report), 60)
  }

  /** `perinatal_screening`: a live birth with a living child, and fewer than 10
      months since delivery. */
  predicate PerinatalScreeningExtra(host: Host, rs: seq<Report>) {
    PdfContent(rs) == 1 && Truthy(MonthsSinceDeliveryBelow(host, rs, 10))
  }

  /** `perinatal_screening_1`: the ANC is the newer report, no EPDS screening exists,
      and at least 14 weeks have passed since the LMP. */
  predicate PerinatalScreening1Extra(host: Host, rs: seq<Report>) {
    ValidateANCIsLatestAndNoEPDS(rs) == Some(1) && Truthy(AtLeastWeeksSinceLMP(host, rs, 14))
  }

  /** A contact never qualifies for both perinatal screenings at once. */
  lemma PerinatalScreeningsExclusive(host: Host, rs: seq<Report>)
    ensures !(PerinatalScreeningExtra(host, rs) && PerinatalScreening1Extra(host, rs))
  {
    ScreeningConditionsExclusive(host, rs, 14, 10);
    var w := AtLeastWeeksSinceLMP(host, rs, 14);
    var m := MonthsSinceDeliveryBelow(host, rs, 10);
    assert Truthy(w) ==> w == Bool(true);
    assert Truthy(m) ==> m == Bool(true);
  }

  // The EPDS modules

  function ModuleForm(k: nat): string {
    "epds_module_" + NatToString(k)
  }

  /** `perinatal_module_1`: a pregnant, eligible, consenting woman at 14 days or more,
      before any module-1 form, with the ANC the newer report. */
  predicate Module1Extra(rs: seq<Report>, report: Report) {
    var child := GetField(Some(report), "epds.condit_bn");
    && (child == Str("none") || child == Str(""))
    && AtLeast(GetField(Some(report), "lmpdays"), 14)
    && GetField(Some(report), "epds.postnatal_d_screen.fln_elig") == Str("1")
    && GetField(Some(report), "epds.screening.curr_sts") == Str("preg_women")
    && GetField(Some(report), "epds.study_cnst.cnst_part") == Str("yes")
    && TotalForms(rs, ModuleForm(1)) == Num(1)
    && CompareANCAndPostDelivery(rs) == Some(1)
  }

  /** `perinatal_module_1.1`: the second to fifth module-1 session. */
  predicate Module1FollowExtra(rs: seq<Report>, report: Report) {
    var child := GetField(Some(report), "module1.cond_m_s");
    && TotalForms(rs, ModuleForm(1)) in [Num(2), Num(3), Num(4), Num(5)]
    && CompareANCAndPostDelivery(rs) == Some(1)
    && (child == Str("none_abve") || child == Str(""))
  }

  /** The post-partum day window of module k (2 to 5): `[lo, hi)`. */
  function ModuleDays(k: nat): (w: (int, int))
    requires 2 <= k <= 5
    ensures w.0 < w.1
  {
    if k == 2 then (7, 34) else if k == 3 then (35, 120) else if k == 4 then (121, 210) else (211, 299)
  }

  /** The delivery day a screening records: the updated value unless it is missing or
      the text `'NaN'`. */
  function ScreeningDeliveryDay(report: Report): Value {
    var updated := GetField(Some(report), "up_dd");
    if !Truthy(updated) || updated == Str("NaN") then GetField(Some(report), "ddno") else updated
  }

  /** `perinatal_module_k` for k from 2 to 5: a post-partum, eligible, consenting
      woman inside the module's day window, before any form of the module. */
  predicate ModuleExtra(k: nat, rs: seq<Report>, report: Report)
    requires 2 <= k <= 5
  {
    var day := ScreeningDeliveryDay(report);
    var child := GetField(Some(report), "epds.condit_bn");
    && AtLeast(day, ModuleDays(k).0) && Below(day, ModuleDays(k).1)
    && GetField(Some(report), "epds.postnatal_d_screen.fln_elig") == Str("1")
    && GetField(Some(report), "epds.screening.curr_sts") == Str("pp_women")
    && GetField(Some(report), "epds.study_cnst.cnst_part") == Str("yes")
    && TotalForms(rs, ModuleForm(k)) == Num(1)
    && (child == Str("none") || child == Str(""))
  }

  /** The field of module k's own form that gates its follow-ups. */
  function ModuleStatusField(k: nat): string {
    "module" + NatToString(k) + ".cond_m" + NatToString(k) + "_s"
  }

  /** `perinatal_module_k.1`: sessions 2 and 5 of the module. */
  predicate ModuleFollow1Extra(k: nat, rs: seq<Report>, report: Report) {
    var child := GetField(Some(report), ModuleStatusField(k));
    TotalForms(rs, ModuleForm(k)) in [Num(2), Num(5)] && (child == Str("no_ab") || child == Str(""))
  }

  /** `perinatal_module_k.2`: sessions 3 and 4 of the module. */
  predicate ModuleFollow2Extra(k: nat, rs: seq<Report>, report: Report) {
    TotalForms(rs, ModuleForm(k)) in [Num(3), Num(4)] && GetField(Some(report), ModuleStatusField(k)) == Str("no_ab")
  }

  /** A value below one bound is not at least a larger one. */
  lemma BelowExcludesAtLeast(v: Value, b: int, c: int)
    requires b <= c
    ensures !(Below(v, b) && AtLeast(v, c))
  {
  }

  /** The day windows of modules 2 to 5 are disjoint, so one screening opens at most
      one of them, and module 1 (pregnant women) never opens with any of them. */
  lemma ModulesExclusive(rs: seq<Report>, report: Report, j: nat, k: nat)
    requires 2 <= j < k <= 5
    ensures !(ModuleExtra(j, rs, report) && ModuleExtra(k, rs, report))
    ensures !(Module1Extra(rs, report) && ModuleExtra(j, rs, report))
  {
    assert ModuleDays(j).1 <= ModuleDays(k).0;
    BelowExcludesAtLeast(ScreeningDeliveryDay(report), ModuleDays(j).1, ModuleDays(k).0);
    assert Str("preg_women") != Str("pp_women");
  }

  /** Days 34, 120 and 210 (and any day from 299 on) fall in no module's window. */
  lemma ModuleWindowGaps(rs: seq<Report>, report: Report, k: nat)
    requires 2 <= k <= 5
    requires ToNumber(ScreeningDeliveryDay(report)) in {Num(34), Num(120), Num(210)}
             || AtLeast(ScreeningDeliveryDay(report), 299)
    ensures !ModuleExtra(k, rs, report)
  {
    var x := ToNumber(ScreeningDeliveryDay(report));
    var w := ModuleDays(k);
    assert !(x.Num? && w.0 <= x.n < w.1);
  }

  /** A module's two follow-up tasks never apply to the same report. */
  lemma ModuleFollowUpsExclusive(k: nat, rs: seq<Report>, report: Report)
    ensures !(ModuleFollow1Extra(k, rs, report) && ModuleFollow2Extra(k, rs, report))
  {
  }

  /** `epds_assessment`: an eligible, consenting woman. */
  predicate EpdsAssessmentExtra(report: Report) {
    GetField(Some(report), "epds.postnatal_d_screen.fln_elig") == Str("1")
    && GetField(Some(report), "epds.study_cnst.cnst_part") == Str("yes")
  }

  /** `psuup_home_visit`: consent to be called, or the weekly counter at `visit_4`. */
  predicate PsuppHomeVisitExtra(rs: seq<Report>, report: Report) {
    GetField(Some(report), "psupp_form.cont_call") == Str("yes")
    || TotalPsuppSessions(rs, PSUPP_WEEKLY_VISIT) == Str("visit_4")
  }

  /** The weekly counter is capped at 3, so the home visit depends on consent alone. */
  lemma PsuppHomeVisitNeedsConsent(rs: seq<Report>, report: Report)
    ensures PsuppHomeVisitExtra(rs, report) <==> GetField(Some(report), "psupp_form.cont_call") == Str("yes")
  {
    WeeklyCounterNeverVisit4(rs);
  }

  /** `psuup_weekly_visit`: after a home visit that ended the first visit, or after a
      weekly visit numbered 1 or 2; any other form gives undefined. */
  predicate PsuppWeeklyVisitExtra(report: Report) {
    if report.form == PSUPP_HOME_VISIT then GetField(Some(report), "first_home_visit.end_1stvisit") == Str("yes")
    else if report.form == PSUPP_WEEKLY_VISIT then
      GetField(Some(report), "weekly_visit") in [Str("visit_1"), Str("visit_2")]
    else false
  }

  // ---------------------------------------------------------------------------
  // The task table

  /** How a task resolves: the contact becoming inactive, a `taskResolver` (with its
      target form, if given, and whether it has an extra condition), or the toolkit's
      default. */
  datatype Resolution = WhenInactive | ByResolver(target: Option<string>, early: bool) | ByDefault

  /** A task of the exported table without its presentation fields: its name, what it
      applies to, the form its action opens, its events and how it resolves. */
  datatype TaskSpec = TaskSpec(name: string, appliesTo: string, appliesToType: seq<string>,
                               actionForm: string, events: seq<TaskEvent>, resolution: Resolution)

  function EpdsModuleTask(name: string, trigger: string, k: nat, start: int, days: int): TaskSpec {
    TaskSpec(name, "reports", [trigger], ModuleForm(k), [TaskEvent(None, start, 90, Days(days))], ByDefault)
  }

  function TaskTable(): seq<TaskSpec> {
    [ TaskSpec("u2-registry", "contacts", ["c82_person"], U2_REGISTRY,
               [TaskEvent(Some("u2-registration"), 0, 30, Days(0))], WhenInactive),
      TaskSpec("pss-followup", "reports", [PREGNANCY_SCREENING, POST_DELIVERY], PREGNANCY_SCREENING,
               [PssEvent(PSS_FOLLOWUP, PSS_WINDOW)], ByResolver(Some(PREGNANCY_SCREENING), false)),
      TaskSpec("u2-registry-followup", "reports", [U2_REGISTRY], U2_REGISTRY,
               [U2Event(U2_FOLLOWUP, U2_WINDOW)], ByResolver(None, false)),
      TaskSpec("anc_visit", "reports", [PREGNANCY_SCREENING], ANC, AncEvents(), ByResolver(Some(ANC), true)),
      TaskSpec("post_delivery", "reports", [ANC, PREGNANCY_SCREENING], POST_DELIVERY,
               [PdfEvent(PDF_FOLLOWUP, PDF_WINDOW)], ByResolver(Some(POST_DELIVERY), false)),
      TaskSpec("pss_false_pregnancy", "reports", [ANC], PREGNANCY_SCREENING,
               [PssEvent(0, PSS_WINDOW)], ByResolver(Some(PREGNANCY_SCREENING), false)),
      TaskSpec("pnc_visit", "reports", [POST_DELIVERY], PNC, PncEvents(), ByResolver(Some(PNC), false)),
      TaskSpec("pnc2_visit", "reports", [POST_DELIVERY], PNC2, PncEvents(), ByResolver(Some(PNC2), false)),
      TaskSpec("perinatal_screening", "reports", [POST_DELIVERY], EPDS_SCREENING,
               [TaskEvent(None, 7, 90000, Days(7))], ByDefault),
      TaskSpec("perinatal_screening_1", "reports", [ANC], EPDS_SCREENING,
               [TaskEvent(None, 7, 90000, Days(7))], ByDefault),
      EpdsModuleTask("perinatal_module_1", EPDS_SCREENING, 1, 7, 7),
      EpdsModuleTask("perinatal_module_1.1", ModuleForm(1), 1, 2, 7),
      EpdsModuleTask("perinatal_module_2", EPDS_SCREENING, 2, 7, 7),
      EpdsModuleTask("perinatal_module_2.1", ModuleForm(2), 2, 2, 7),
      EpdsModuleTask("perinatal_module_2.2", ModuleForm(2), 2, 2, 15),
      EpdsModuleTask("perinatal_module_3", EPDS_SCREENING, 3, 7, 7),
      EpdsModuleTask("perinatal_module_3.1", ModuleForm(3), 3, 2, 7),
      EpdsModuleTask("perinatal_module_3.2", ModuleForm(3), 3, 22, 30),
      EpdsModuleTask("perinatal_module_4", EPDS_SCREENING, 4, 7, 7),
      EpdsModuleTask("perinatal_module_4.1", ModuleForm(4), 4, 2, 7),
      EpdsModuleTask("perinatal_module_4.2", ModuleForm(4), 4, 22, 30),
      EpdsModuleTask("perinatal_module_5", EPDS_SCREENING, 5, 7, 7),
      EpdsModuleTask("perinatal_module_5.1", ModuleForm(5), 5, 2, 7),
      EpdsModuleTask("perinatal_module_5.2", ModuleForm(5), 5, 22, 30),
      TaskSpec("epds_assessment", "reports", [EPDS_SCREENING], "epds_assessment", EPDS_ASSESSMENT_SCHEDULE, ByDefault),
      TaskSpec("psuup_home_visit", "reports", [PSUPP, PSUPP_WEEKLY_VISIT], PSUPP_HOME_VISIT,
               [TaskEvent(None, 30, 90, Days(30))], ByDefault),
      TaskSpec("psuup_weekly_visit", "reports", [PSUPP_HOME_VISIT, PSUPP_WEEKLY_VISIT], PSUPP_WEEKLY_VISIT,
               [TaskEvent(None, 30, 90, Days(30))], ByDefault) ]
  }

  /** `appliesIf` of the task named `name`, for a trigger report (or, for the contact
      task, the contact alone); unknown names apply nowhere. */
  predicate AppliesIf(name: string, host: Host, dob: Option<Value>, rs: seq<Report>, report: Report) {
    if name == "u2-registry" then U2RegistryApplies(host, dob, rs)
    else if name == "pss-followup" then PssFollowupApplies(host, dob, rs, report)
    else if name == "u2-registry-followup" then U2FollowupApplies(host, dob, rs, report)
    else if name == "anc_visit" then AncVisitApplies(report)
    else if name == "post_delivery" then TaskApplies(rs, report, Some((c: seq<Report>, r: Report) => PostDeliveryExtra(r)))
    else if name == "pss_false_pregnancy" then TaskApplies(rs, report, Some((c: seq<Report>, r: Report) => PssFalsePregnancyExtra(r)))
    else if name == "pnc_visit" then TaskApplies(rs, report, Some((c: seq<Report>, r: Report) => PncVisitExtra(r, "status_pnc1")))
    else if name == "pnc2_visit" then TaskApplies(rs, report, Some((c: seq<Report>, r: Report) => PncVisitExtra(r, "status_pnc2")))
    else if name == "perinatal_screening" then TaskApplies(rs, report, Some((c: seq<Report>, r: Report) => PerinatalScreeningExtra(host, c)))
    else if name == "perinatal_screening_1" then TaskApplies(rs, report, Some((c: seq<Report>, r: Report) => PerinatalScreening1Extra(host, c)))
    else if name == "perinatal_module_1" then TaskApplies(rs, report, Some((c: seq<Report>, r: Report) => Module1Extra(c, r)))
    else if name == "perinatal_module_1.1" then TaskApplies(rs, report, Some((c: seq<Report>, r: Report) => Module1FollowExtra(c, r)))
    else if name == "epds_assessment" then TaskApplies(rs, report, Some((c: seq<Report>, r: Report) => EpdsAssessmentExtra(r)))
    else if name == "psuup_home_visit" then TaskApplies(rs, report, Some((c: seq<Report>, r: Report) => PsuppHomeVisitExtra(c, r)))
    else if name == "psuup_weekly_visit" then TaskApplies(rs, report, Some((c: seq<Report>, r: Report) => PsuppWeeklyVisitExtra(r)))
    else if |name| == 18 && name[..17] == "perinatal_module_" && '2' <= name[17] <= '5' then
      var k := (name[17] as int - '0' as int) as nat;
      TaskApplies(rs, report, Some((c: seq<Report>, r: Report) => ModuleExtra(k, c, r)))
    else if |name| == 20 && name[..17] == "perinatal_module_" && '2' <= name[17] <= '5' && name[18..] == ".1" then
      var k := (name[17] as int - '0' as int) as nat;
      TaskApplies(rs, report, Some((c: seq<Report>, r: Report) => ModuleFollow1Extra(k, c, r)))
    else if |name| == 20 && name[..17] == "perinatal_module_" && '2' <= name[17] <= '5' && name[18..] == ".2" then
      var k := (name[17] as int - '0' as int) as nat;
      TaskApplies(rs, report, Some((c: seq<Report>, r: Report) => ModuleFollow2Extra(k, c, r)))
    else false
  }

  /** Once a death or migration report is live, every report task except `anc_visit`
      (which has no `taskApplier`) stops applying; the contact task `u2-registry`
      does not consult the reports' life events at all. */
  lemma InactiveContactGetsNoReportTask(name: string, host: Host, dob: Option<Value>, rs: seq<Report>, report: Report)
    requires !IsActive(rs)
    requires name != "anc_visit" && name != "u2-registry"
    ensures !AppliesIf(name, host, dob, rs, report)
  {
  }

  /** `anc_visit` ignores life events: an `anc` answer of '1' applies it whatever the
      other reports say. */
  lemma AncVisitIgnoresLifeEvents(host: Host, dob: Option<Value>, rs: seq<Report>, report: Report)
    requires GetField(Some(report), "anc") == Str("1")
    ensures AppliesIf("anc_visit", host, dob, rs, report)
  {
  }
}
