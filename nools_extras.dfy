/** The helper library the task table is built on (nools-extras.js): its own
    newest-report scans (which, unlike the contact-summary ones, skip deleted reports
    and do not check validity), the window checks and counters, the post-partum day
    and delivery-date readers, the under-two test, the ANC/post-delivery comparison and
    the EPDS and PSUPP counters, and the pregnancy-timeline helpers of the template it
    was forked from. The module-level `today` and every `new Date()` read `host.now`. */
module NoolsExtras {
  import opened JsValues
  import opened Reports
  import SummaryQueries
  import SummaryContext

  /** 42 weeks. */
  const MAX_DAYS_IN_PREGNANCY := 42 * 7
  /** The template's form names (`pregnancyForms`, `deliveryForms`, `antenatalForms`). */
  const PREGNANCY_FORM := "pregnancy"
  const DELIVERY_FORM := "delivery"
  const PREGNANCY_FOLLOW_UP_FORM := "pregnancy_home_visit"

  // ---------------------------------------------------------------------------
  // isFormArraySubmittedInWindow and its variant that leaves one report out

  /** `if (count)`: a count was passed and it is not 0. */
  predicate CountGiven(count: Option<int>) {
    count.Some? && count.value != 0
  }

  /** How many reports of the forms fall in the inclusive window `[start, end]`. */
  function InWindowCount(rs: seq<Report>, forms: FormSet, start: int, end: int): nat {
    |SummaryQueries.FormArraySubmittedInWindow(rs, forms, start, end)|
  }

  /** What `isFormArraySubmittedInWindow` answers. */
  function SubmittedInWindow(rs: seq<Report>, forms: FormSet, start: int, end: int, count: Option<int>): bool {
    var n := InWindowCount(rs, forms, start, end);
    if CountGiven(count) then n >= count.value else n > 0
  }

  /** `isFormArraySubmittedInWindow(reports, formArray, start, end, count)`. */
  method IsFormArraySubmittedInWindow(rs: seq<Report>, forms: FormSet, start: int, end: int, count: Option<int>)
    returns (b: bool)
    ensures b == SubmittedInWindow(rs, forms, start, end, count)
  {
    var p := SummaryQueries.InWindow(forms, start, end);
    var found := false;
    var reportCount := 0;
    for i := 0 to |rs|
      invariant found == (|Filter(rs[..i], p)| > 0)
      invariant reportCount == if CountGiven(count) then |Filter(rs[..i], p)| else 0
    {
      FilterStep(rs, i, p);
      var report := rs[i];
      if Includes(forms, report.form) {
        if report.reported >= start && report.reported <= end {
          found := true;
          if CountGiven(count) {
            reportCount := reportCount + 1;
          }
        }
      }
    }
    assert rs[..|rs|] == rs;
    if CountGiven(count) {
      return reportCount >= count.value;
    }
    return found;
  }

  /** Without a count the check asks whether any report of the forms lies in the
      window; a count of 1 asks the same; with a count it asks for at least that many,
      so a negative count is always met. */
  lemma SubmittedInWindowMeaning(rs: seq<Report>, forms: FormSet, start: int, end: int, count: Option<int>)
    ensures !CountGiven(count) || count.value == 1 ==>
      (SubmittedInWindow(rs, forms, start, end, count) <==>
        exists r | r in rs :: Includes(forms, r.form) && start <= r.reported <= end)
    ensures CountGiven(count) && count.value < 0 ==> SubmittedInWindow(rs, forms, start, end, count)
  {
    FilterNonEmpty(rs, SummaryQueries.InWindow(forms, start, end));
  }

  function InWindowExcluding(forms: FormSet, start: int, end: int, exId: string): Report -> bool {
    (r: Report) => Includes(forms, r.form) && start <= r.reported <= end && r.id != exId
  }

  /** What `isFormArraySubmittedInWindowExcludingThisReport` answers: the same check,
      not counting reports with the excluded report's `_id`. */
  function SubmittedInWindowExcluding(rs: seq<Report>, forms: FormSet, start: int, end: int, ex: Report, count: Option<int>): bool {
    var n := |Filter(rs, InWindowExcluding(forms, start, end, ex.id))|;
    if CountGiven(count) then n >= count.value else n > 0
  }

  /** `isFormArraySubmittedInWindowExcludingThisReport(reports, formArray, start, end, exReport, count)`. */
  method IsFormArraySubmittedInWindowExcluding(rs: seq<Report>, forms: FormSet, start: int, end: int, ex: Report, count: Option<int>)
    returns (b: bool)
    ensures b == SubmittedInWindowExcluding(rs, forms, start, end, ex, count)
  {
    var p := InWindowExcluding(forms, start, end, ex.id);
    var found := false;
    var reportCount := 0;
    for i := 0 to |rs|
      invariant found == (|Filter(rs[..i], p)| > 0)
      invariant reportCount == if CountGiven(count) then |Filter(rs[..i], p)| else 0
    {
      FilterStep(rs, i, p);
      var report := rs[i];
      if Includes(forms, report.form) {
        if report.reported >= start && report.reported <= end && report.id != ex.id {
          found := true;
          if CountGiven(count) {
            reportCount := reportCount + 1;
          }
        }
      }
    }
    assert rs[..|rs|] == rs;
    if CountGiven(count) {
      return reportCount >= count.value;
    }
    return found;
  }

  /** Leaving a report out can only turn the answer from true to false, and changes
      nothing when no report in the window carries the excluded `_id`. */
  lemma ExcludingIsStricter(rs: seq<Report>, forms: FormSet, start: int, end: int, ex: Report, count: Option<int>)
    ensures SubmittedInWindowExcluding(rs, forms, start, end, ex, count) ==> SubmittedInWindow(rs, forms, start, end, count)
    ensures (forall r | r in rs && Includes(forms, r.form) && start <= r.reported <= end :: r.id != ex.id) ==>
      SubmittedInWindowExcluding(rs, forms, start, end, ex, count) == SubmittedInWindow(rs, forms, start, end, count)
  {
    var p := InWindowExcluding(forms, start, end, ex.id);
    var q := SummaryQueries.InWindow(forms, start, end);
    FilterStricter(rs, p, q);
    if forall r | r in rs && Includes(forms, r.form) && start <= r.reported <= end :: r.id != ex.id {
      FilterCongruent(rs, p, q);
    }
  }

  // ---------------------------------------------------------------------------
  // getMostRecentReport and isActive

  /** The reports `getMostRecentReport` considers: of one of the forms and not deleted.
      Validity is not checked. */
  predicate Live(forms: FormSet, r: Report) {
    Includes(forms, r.form) && !r.deleted
  }

  function LiveFilter(forms: FormSet): Report -> bool {
    (r: Report) => Live(forms, r)
  }

  /** What `getMostRecentReport` returns. */
  function MostRecentReport(rs: seq<Report>, forms: FormSet): Option<Report> {
    Select(rs, LiveFilter(forms), false)
  }

  /** `getMostRecentReport(reports, form)`. */
  method GetMostRecentReport(rs: seq<Report>, forms: FormSet) returns (result: Option<Report>)
    ensures result == MostRecentReport(rs, forms)
  {
    result := None;
    for i := 0 to |rs|
      invariant result == Select(rs[..i], LiveFilter(forms), false)
    {
      SelectStep(rs, i, LiveFilter(forms), false);
      var report := rs[i];
      if Includes(forms, report.form) && !report.deleted
         && (result.None? || report.reported > result.value.reported) {
        result := Some(report);
      }
    }
    assert rs[..|rs|] == rs;
  }

  /** Nothing is found exactly when no live report of the forms exists; otherwise the
      answer is such a report, none is dated later, and none earlier in the list has
      the same date. */
  lemma MostRecentReportIsNewest(rs: seq<Report>, forms: FormSet)
    ensures MostRecentReport(rs, forms).None? <==> forall r | r in rs :: !Live(forms, r)
    ensures MostRecentReport(rs, forms).Some? ==>
      var n := MostRecentReport(rs, forms).value;
      && Live(forms, n)
      && exists i | 0 <= i < |rs| :: rs[i] == n
           && (forall j | 0 <= j < |rs| && Live(forms, rs[j]) :: rs[j].reported <= n.reported)
           && (forall j | 0 <= j < i && Live(forms, rs[j]) :: rs[j].reported < n.reported)
  {
    var q := LiveFilter(forms);
    SelectAtCharacterised(rs, q, false);
    var i := SelectAt(rs, q, false);
    if i >= 0 {
      assert rs[i] == MostRecentReport(rs, forms).value;
      assert forall j | 0 <= j < i && q(rs[j]) :: rs[j].reported < rs[i].reported;
    }
  }

  /** The newest live report of one form in the caller's terms. */
  lemma MostRecentOfForm(rs: seq<Report>, form: string)
    ensures MostRecentReport(rs, Forms([form])).None? <==> forall r | r in rs :: !(r.form == form && !r.deleted)
    ensures MostRecentReport(rs, Forms([form])).Some? ==>
      var n := MostRecentReport(rs, Forms([form])).value;
      && n in rs && n.form == form && !n.deleted
      && forall r | r in rs && r.form == form && !r.deleted :: r.reported <= n.reported
  {
    SelectProperties(rs, LiveFilter(Forms([form])), false);
  }

  /** `isActive(contact)`: the death-and-migration form name is passed as a string, so
      the test is for a live report whose form name is a piece of that name. */
  predicate IsActive(rs: seq<Report>) {
    MostRecentReport(rs, FormText(DEATH_MIGRATION)).None?
  }

  /** A contact is active exactly when no live report carries a piece of the
      death-and-migration form name; a live report with an empty form name therefore
      makes the contact inactive, and a deleted death report does not. */
  lemma IsActiveIff(rs: seq<Report>)
    ensures IsActive(rs) <==> forall r | r in rs :: r.deleted || !Contains(DEATH_MIGRATION, r.form)
    ensures (exists r | r in rs :: r.form == "" && !r.deleted) ==> !IsActive(rs)
  {
    MostRecentReportIsNewest(rs, FormText(DEATH_MIGRATION));
    StringFormsMatchPieces("", DEATH_MIGRATION, "");
    assert "" + DEATH_MIGRATION + "" == DEATH_MIGRATION;
  }

  // ---------------------------------------------------------------------------
  // getNewestReport

  function IncludedIn(forms: FormSet): Report -> bool {
    (r: Report) => Includes(forms, r.form)
  }

  /** What this file's `getNewestReport` returns: the newest report of the forms,
      deleted or not, valid or not. */
  function NewestOfForms(rs: seq<Report>, forms: FormSet): Option<Report> {
    Select(rs, IncludedIn(forms), false)
  }

  /** `getNewestReport(reports, forms)`. */
  method GetNewestReport(rs: seq<Report>, forms: FormSet) returns (result: Option<Report>)
    ensures result == NewestOfForms(rs, forms)
  {
    result := None;
    for i := 0 to |rs|
      invariant result == Select(rs[..i], IncludedIn(forms), false)
    {
      SelectStep(rs, i, IncludedIn(forms), false);
      var report := rs[i];
      if !Includes(forms, report.form) { continue; }
      if result.None? || report.reported > result.value.reported {
        result := Some(report);
      }
    }
    assert rs[..|rs|] == rs;
  }

  /** Nothing is found exactly when no report is of the forms; otherwise the answer is
      of the forms and no report of the forms is dated later. Deleted reports take
      part. */
  lemma NewestOfFormsIsNewest(rs: seq<Report>, forms: FormSet)
    ensures NewestOfForms(rs, forms).None? <==> forall r | r in rs :: !Includes(forms, r.form)
    ensures NewestOfForms(rs, forms).Some? ==>
      var n := NewestOfForms(rs, forms).value;
      && n in rs && Includes(forms, n.form)
      && forall r | r in rs && Includes(forms, r.form) :: r.reported <= n.reported
  {
    SelectProperties(rs, IncludedIn(forms), false);
  }

  // ---------------------------------------------------------------------------
  // isReportSkipped and getMostRecentUnskippedReport

  /** `isReportSkipped(report, atHomeKey)`: the at-home field named by the caller, or
      the top-level agrees-for-service field, says `'no'`. An undefined key is the
      empty path. */
  predicate IsReportSkipped(r: Report, atHomeKey: string) {
    GetField(Some(r), atHomeKey) == Str("no") || GetField(Some(r), "agrees_for_service") == Str("no")
  }

  /** For a pregnancy screening read with its own at-home key, this test and the
      contact-summary one agree. */
  lemma SkipAgreesWithSummary(r: Report)
    requires r.form == PREGNANCY_SCREENING
    ensures IsReportSkipped(r, "woman_at_home") <==> SummaryQueries.IsReportSkipped(r)
  {
    assert HomeKey(r.form) == "woman_at_home";
    assert AgreesKey(r.form) == "agrees_for_service";
  }

  predicate UnskippedQualifies(form: string, atHomeKey: string, r: Report) {
    r.form == form && !r.deleted && !IsReportSkipped(r, atHomeKey)
  }

  function UnskippedFilter(form: string, atHomeKey: string): Report -> bool {
    (r: Report) => UnskippedQualifies(form, atHomeKey, r)
  }

  function MostRecentUnskippedReport(rs: seq<Report>, form: string, atHomeKey: string): Option<Report> {
    Select(rs, UnskippedFilter(form, atHomeKey), false)
  }

  /** `getMostRecentUnskippedReport(allReports, form, atHomeKey)`: the filter and the
      scan after it run as one pass over the same reports in the same order. */
  method GetMostRecentUnskippedReport(rs: seq<Report>, form: string, atHomeKey: string) returns (result: Option<Report>)
    ensures result == MostRecentUnskippedReport(rs, form, atHomeKey)
  {
    result := None;
    for i := 0 to |rs|
      invariant result == Select(rs[..i], UnskippedFilter(form, atHomeKey), false)
    {
      SelectStep(rs, i, UnskippedFilter(form, atHomeKey), false);
      var report := rs[i];
      if report.form == form && !report.deleted && !IsReportSkipped(report, atHomeKey) {
        if result.None? || report.reported > result.value.reported {
          result := Some(report);
        }
      }
    }
    assert rs[..|rs|] == rs;
  }

  /** The answer is a live, unskipped report of the form that no such report
      post-dates; nothing is found exactly when there is none. */
  lemma MostRecentUnskippedIsNewest(rs: seq<Report>, form: string, atHomeKey: string)
    ensures MostRecentUnskippedReport(rs, form, atHomeKey).None? <==> forall r | r in rs :: !UnskippedQualifies(form, atHomeKey, r)
    ensures MostRecentUnskippedReport(rs, form, atHomeKey).Some? ==>
      var n := MostRecentUnskippedReport(rs, form, atHomeKey).value;
      && n in rs && n.form == form && !n.deleted && !IsReportSkipped(n, atHomeKey)
      && forall r | r in rs && UnskippedQualifies(form, atHomeKey, r) :: r.reported <= n.reported
  {
    SelectProperties(rs, UnskippedFilter(form, atHomeKey), false);
  }

  // ---------------------------------------------------------------------------
  // countReportsSubmittedInWindow and getReportsSubmittedInWindow

  /** The reports both functions keep: of the forms, dated within `[start, end]`, and
      meeting the condition when one is given. */
  predicate Counted(forms: FormSet, start: int, end: int, condition: Option<Report -> bool>, r: Report) {
    Includes(forms, r.form) && start <= r.reported <= end && (condition.None? || condition.value(r))
  }

  function CountedFilter(forms: FormSet, start: int, end: int, condition: Option<Report -> bool>): Report -> bool {
    (r: Report) => Counted(forms, start, end, condition, r)
  }

  /** What `getReportsSubmittedInWindow` returns. */
  function ReportsSubmittedInWindow(rs: seq<Report>, forms: FormSet, start: int, end: int, condition: Option<Report -> bool>)
    : (out: seq<Report>)
    ensures forall r :: r in out <==> r in rs && Includes(forms, r.form) && start <= r.reported <= end
                                      && (condition.None? || condition.value(r))
  {
    Filter(rs, CountedFilter(forms, start, end, condition))
  }

  /** `getReportsSubmittedInWindow(reports, form, start, end, condition)`. */
  method GetReportsSubmittedInWindow(rs: seq<Report>, forms: FormSet, start: int, end: int, condition: Option<Report -> bool>)
    returns (found: seq<Report>)
    ensures found == ReportsSubmittedInWindow(rs, forms, start, end, condition)
  {
    var p := CountedFilter(forms, start, end, condition);
    found := [];
    for i := 0 to |rs|
      invariant found == Filter(rs[..i], p)
    {
      FilterStep(rs, i, p);
      var report := rs[i];
      if Includes(forms, report.form) {
        if report.reported >= start && report.reported <= end {
          if condition.None? || condition.value(report) {
            found := found + [report];
          }
        }
      }
    }
    assert rs[..|rs|] == rs;
  }

  /** `countReportsSubmittedInWindow(reports, form, start, end, condition)`: the number
      of reports the list version returns. */
  method CountReportsSubmittedInWindow(rs: seq<Report>, forms: FormSet, start: int, end: int, condition: Option<Report -> bool>)
    returns (n: nat)
    ensures n == |ReportsSubmittedInWindow(rs, forms, start, end, condition)|
  {
    var p := CountedFilter(forms, start, end, condition);
    n := 0;
    for i := 0 to |rs|
      invariant n == |Filter(rs[..i], p)|
    {
      FilterStep(rs, i, p);
      var report := rs[i];
      if Includes(forms, report.form) {
        if report.reported >= start && report.reported <= end {
          if condition.None? || condition.value(report) {
            n := n + 1;
          }
        }
      }
    }
    assert rs[..|rs|] == rs;
  }

  /** Without a condition the list is the window filter, so a count check of
      `isFormArraySubmittedInWindow` is a bound on its length; a condition only
      removes reports. */
  lemma CountsAgree(rs: seq<Report>, forms: FormSet, start: int, end: int, condition: Option<Report -> bool>, count: int)
    requires count != 0
    ensures SubmittedInWindow(rs, forms, start, end, Some(count)) <==>
      |ReportsSubmittedInWindow(rs, forms, start, end, None)| >= count
    ensures |ReportsSubmittedInWindow(rs, forms, start, end, condition)| <= InWindowCount(rs, forms, start, end)
  {
    FilterCongruent(rs, CountedFilter(forms, start, end, None), SummaryQueries.InWindow(forms, start, end));
    FilterStricter(rs, CountedFilter(forms, start, end, condition), SummaryQueries.InWindow(forms, start, end));
  }

  // ---------------------------------------------------------------------------
  // getPPDays and getDeliveryDate

  /** `getPPDays(report)`: undefined unless the report is a post-delivery form; 0 when
      the `pp_days` field is absent or empty; otherwise `Number.parseInt` of it. */
  function PPDays(r: Report): (pp: Value)
    ensures r.form != POST_DELIVERY <==> pp == Undefined
    ensures r.form == POST_DELIVERY ==> IsNumber(pp)
    ensures r.form == POST_DELIVERY && !Truthy(GetField(Some(r), "pp_days")) ==> pp == Num(0)
  {
    if r.form != POST_DELIVERY then Undefined
    else
      var v := GetField(Some(r), "pp_days");
      if !Truthy(v) || v == Str("") then Num(0) else ParseInt(ToJsString(v))
  }

  /** A post-delivery report reads its days back from their decimal text, and an
      absent field reads as 0 here although `getIntegerField` reads it as NaN. */
  lemma PPDaysReadsText(r: Report, n: nat)
    requires r.form == POST_DELIVERY
    ensures GetField(Some(r), "pp_days") == Str(NatToString(n)) ==> PPDays(r) == Num(n)
    ensures GetField(Some(r), "pp_days") == Undefined ==>
      PPDays(r) == Num(0) && GetIntegerField(Some(r), "pp_days") == NaN
  {
    var v := GetField(Some(r), "pp_days");
    if v == Str(NatToString(n)) {
      ParseIntOfNatText(n, "");
      assert NatToString(n) + "" == NatToString(n);
      assert Truthy(v) && v != Str("");
      assert ToJsString(v) == NatToString(n);
    } else if v == Undefined {
      GetIntegerFieldOfAbsent(Some(r), "pp_days");
    }
  }

  /** `new Date(v)`: a number is an instant, null and booleans convert to 0 and 1, a
      text goes to the date parser, and anything else is an invalid date (`None`). */
  function NewDate(host: Host, v: Value): Option<int> {
    match v
    case Num(n) => Some(n)
    case Null => Some(0)
    case Bool(b) => Some(if b then 1 else 0)
    case Str(_) => host.parseDate(v)
    case _ => None
  }

  /** The value `getDeliveryDate` hands to `new Date`: the post-delivery assessment's
      date, else the newest pregnancy screening's standard delivery date, else the
      triggering report's own date. */
  function DeliveryDateValue(rs: seq<Report>, r: Report): Value {
    var fromReport := GetField(Some(r), "post_delivery_assessment.delivery_date_pdf");
    var d := if Truthy(fromReport) then fromReport
             else GetField(NewestOfForms(rs, Forms([PREGNANCY_SCREENING])), "standard.standard_delivery_date_pdf");
    Or(d, Num(r.reported))
  }

  /** `getDeliveryDate(reports, report)`; `None` is an invalid date. */
  function DeliveryDate(host: Host, rs: seq<Report>, r: Report): Option<int> {
    NewDate(host, DeliveryDateValue(rs, r))
  }

  /** The fallback order, and the last step never fails: without either field the
      delivery date is the report's own date. */
  lemma DeliveryDateFallback(host: Host, rs: seq<Report>, r: Report)
    ensures var a := GetField(Some(r), "post_delivery_assessment.delivery_date_pdf");
      Truthy(a) ==> DeliveryDate(host, rs, r) == NewDate(host, a)
    ensures var a := GetField(Some(r), "post_delivery_assessment.delivery_date_pdf");
      var pss := NewestOfForms(rs, Forms([PREGNANCY_SCREENING]));
      var b := GetField(pss, "standard.standard_delivery_date_pdf");
      !Truthy(a) && Truthy(b) ==> pss.Some? && pss.value.form == PREGNANCY_SCREENING && DeliveryDate(host, rs, r) == NewDate(host, b)
    ensures var a := GetField(Some(r), "post_delivery_assessment.delivery_date_pdf");
      var b := GetField(NewestOfForms(rs, Forms([PREGNANCY_SCREENING])), "standard.standard_delivery_date_pdf");
      !Truthy(a) && !Truthy(b) ==> DeliveryDate(host, rs, r) == Some(r.reported)
  {
    var a := GetField(Some(r), "post_delivery_assessment.delivery_date_pdf");
    var pss := NewestOfForms(rs, Forms([PREGNANCY_SCREENING]));
    var b := GetField(pss, "standard.standard_delivery_date_pdf");
    if Truthy(a) {
      assert DeliveryDateValue(rs, r) == a;
    } else if Truthy(b) {
      assert DeliveryDateValue(rs, r) == b;
      NewestOfFormsIsNewest(rs, Forms([PREGNANCY_SCREENING]));
    } else {
      assert DeliveryDateValue(rs, r) == Num(r.reported);
    }
  }

  // ---------------------------------------------------------------------------
  // isContactUnder2

  /** Months from one calendar month to another. */
  function MonthsBetween(from: YearMonth, to: YearMonth): int {
    to.month - from.month + 12 * (to.year - from.year)
  }

  /** `getMonth()`/`getFullYear()` arithmetic on a date: NaN for an invalid date. */
  function AgeInMonths(host: Host, dob: Option<int>): (m: Value)
    ensures IsNumber(m)
  {
    if dob.None? then NaN
    else Num(MonthsBetween(host.calendar(dob.value), host.calendar(host.now)))
  }

  /** `isContactUnder2(contact)`; `dob` is `None` when the contact or its `contact`
      record is missing. A missing birth date still makes a (truthy) invalid date,
      whose month count is NaN. */
  function IsContactUnder2(host: Host, dob: Option<Value>): (b: bool)
    ensures b <==> dob.Some? && NewDate(host, dob.value).Some?
                   && MonthsBetween(host.calendar(NewDate(host, dob.value).value), host.calendar(host.now)) < 24
  {
    if dob.None? then false
    else Below(AgeInMonths(host, NewDate(host, dob.value)), 24)
  }

  // ---------------------------------------------------------------------------
  // compareANCAndPostDeliveryDates, validateANCisLatestAndNoEPDS

  predicate LiveOf(form: string, r: Report) {
    r.form == form && !r.deleted
  }

  /** `compareANCAndPostDeliveryDates(contact)`: 1 when the newest live ANC is newer
      than the newest live post-delivery report (or there is none), 2 when the
      post-delivery report is at least as new (or there is no ANC), null (`None`) when
      there is neither. */
  function CompareANCAndPostDelivery(rs: seq<Report>): Option<int> {
    var anc := MostRecentReport(rs, Forms([ANC]));
    var pdf := MostRecentReport(rs, Forms([POST_DELIVERY]));
    if anc.Some? && pdf.Some? then
      if anc.value.reported > pdf.value.reported then Some(1) else Some(2)
    else if anc.Some? then Some(1)
    else if pdf.Some? then Some(2)
    else None
  }

  /** The comparison in terms of the reports: null exactly without either form; 1
      exactly when some live ANC post-dates every live post-delivery report; 2 exactly
      when some live post-delivery report is not older than any live ANC (ties give
      2). */
  lemma CompareIff(rs: seq<Report>)
    ensures CompareANCAndPostDelivery(rs).None? <==>
      forall r | r in rs :: !LiveOf(ANC, r) && !LiveOf(POST_DELIVERY, r)
    ensures CompareANCAndPostDelivery(rs) == Some(1) <==>
      exists a | a in rs && LiveOf(ANC, a) :: forall p | p in rs && LiveOf(POST_DELIVERY, p) :: a.reported > p.reported
    ensures CompareANCAndPostDelivery(rs) == Some(2) <==>
      exists p | p in rs && LiveOf(POST_DELIVERY, p) :: forall a | a in rs && LiveOf(ANC, a) :: a.reported <= p.reported
  {
    MostRecentOfForm(rs, ANC);
    MostRecentOfForm(rs, POST_DELIVERY);
  }

  /** `validateANCisLatestAndNoEPDS(contact)`: 1 (`Some(1)`) when the ANC is the newer
      and there is no live EPDS screening, else null. */
  function ValidateANCIsLatestAndNoEPDS(rs: seq<Report>): Option<int> {
    if CompareANCAndPostDelivery(rs) == Some(1) && MostRecentReport(rs, Forms([EPDS_SCREENING])).None?
    then Some(1) else None
  }

  lemma ValidateANCIff(rs: seq<Report>)
    ensures ValidateANCIsLatestAndNoEPDS(rs) == Some(1) <==>
      && (exists a | a in rs && LiveOf(ANC, a) :: forall p | p in rs && LiveOf(POST_DELIVERY, p) :: a.reported > p.reported)
      && forall e | e in rs :: !LiveOf(EPDS_SCREENING, e)
    ensures ValidateANCIsLatestAndNoEPDS(rs) != Some(1) ==> ValidateANCIsLatestAndNoEPDS(rs).None?
  {
    CompareIff(rs);
    MostRecentOfForm(rs, EPDS_SCREENING);
  }

  // ---------------------------------------------------------------------------
  // isAtLeastXWeeksSinceLMP and monthsdeliverydate

  /** `isAtLeastXWeeksSinceLMP(contact, weeksThreshold)`: null when the post-delivery
      report is the newer; otherwise whether whole weeks since the newest ANC's LMP
      reach the threshold (false without an ANC or a valid LMP). */
  function AtLeastWeeksSinceLMP(host: Host, rs: seq<Report>, weeks: int): (v: Value)
    ensures v == Null <==> CompareANCAndPostDelivery(rs) == Some(2)
    ensures v != Null ==> v.Bool?
  {
    if CompareANCAndPostDelivery(rs) == Some(2) then Null
    else
      var anc := MostRecentReport(rs, Forms([ANC]));
      if anc.None? then Bool(false)
      else
        var lmpText := GetField(anc, "lmp_group.lmp_group_lmp");
        if !Truthy(lmpText) then Bool(false)
        else match NewDate(host, lmpText)
          case None => Bool(false)
          case Some(lmp) => Bool(WholeWeeks(host.now - lmp) >= weeks)
  }

  /** `Math.floor(Math.floor(x / MS_IN_DAY) / 7)`. */
  function WholeWeeks(x: int): int {
    FloorDiv(FloorDiv(x, MS_IN_DAY), 7)
  }

  /** Whole weeks of whole days are whole periods of seven days. */
  lemma WeeksOfDays(x: int, w: int)
    ensures WholeWeeks(x) >= w <==> x >= w * 7 * MS_IN_DAY
  {
    var d := FloorDiv(x, MS_IN_DAY);
    var k := FloorDiv(d, 7);
    assert d * MS_IN_DAY <= x < d * MS_IN_DAY + MS_IN_DAY;
    assert k * 7 <= d < k * 7 + 7;
    if k >= w {
      assert d >= w * 7;
      assert d * MS_IN_DAY >= w * 7 * MS_IN_DAY;
    } else {
      assert d < w * 7;
      assert d + 1 <= w * 7;
      assert (d + 1) * MS_IN_DAY <= w * 7 * MS_IN_DAY;
    }
  }

  /** True exactly when there is a live ANC that is the newer report, its LMP is a
      valid date, and at least `weeks` times seven days have passed since it. */
  lemma AtLeastWeeksMeaning(host: Host, rs: seq<Report>, weeks: int)
    ensures AtLeastWeeksSinceLMP(host, rs, weeks) == Bool(true) <==>
      && CompareANCAndPostDelivery(rs) == Some(1)
      && var lmpText := GetField(MostRecentReport(rs, Forms([ANC])), "lmp_group.lmp_group_lmp");
         Truthy(lmpText) && NewDate(host, lmpText).Some?
         && host.now - NewDate(host, lmpText).value >= weeks * 7 * MS_IN_DAY
  {
    var anc := MostRecentReport(rs, Forms([ANC]));
    var lmpText := GetField(anc, "lmp_group.lmp_group_lmp");
    var c := CompareANCAndPostDelivery(rs);
    if c == Some(2) {
    } else if anc.None? {
      assert c != Some(1);
    } else {
      assert c == Some(1);
      if Truthy(lmpText) && NewDate(host, lmpText).Some? {
        var lmp := NewDate(host, lmpText).value;
        assert AtLeastWeeksSinceLMP(host, rs, weeks) == Bool(WholeWeeks(host.now - lmp) >= weeks);
        WeeksOfDays(host.now - lmp, weeks);
      }
    }
  }

  /** `monthsdeliverydate(contact, threshold)`: null when the ANC is the newer;
      otherwise whether the whole 30.4-day months since the newest post-delivery
      report's delivery date stay below the threshold. `floor(d / 30.4) < t` for a
      whole `t` is `10 * d < 304 * t`, which the model evaluates exactly. */
  function MonthsSinceDeliveryBelow(host: Host, rs: seq<Report>, threshold: int): (v: Value)
    ensures v == Null <==> CompareANCAndPostDelivery(rs) == Some(1)
    ensures v != Null ==> v.Bool?
  {
    if CompareANCAndPostDelivery(rs) == Some(1) then Null
    else
      var pdf := MostRecentReport(rs, Forms([POST_DELIVERY]));
      if pdf.None? then Bool(false)
      else MonthsSinceDateBelow(host, UsedDeliveryDate(pdf), threshold)
  }

  /** The delivery date `monthsdeliverydate` reads from a post-delivery report: the
      assessment's, else the one carried in the report's context. */
  function UsedDeliveryDate(pdf: Option<Report>): Value {
    Or(GetField(pdf, "post_delivery_assessment.delivery_date_pdf"), GetField(pdf, "delivery_date_pdf_ctx"))
  }

  /** The months test on a delivery date: false for a falsy or unreadable date. */
  function MonthsSinceDateBelow(host: Host, used: Value, threshold: int): (v: Value)
    ensures v == Bool(true) <==>
      Truthy(used) && NewDate(host, used).Some?
      && WholeMonths(FloorDiv(host.now - NewDate(host, used).value, MS_IN_DAY)) < threshold
    ensures v.Bool?
  {
    if !Truthy(used) then Bool(false)
    else match NewDate(host, used)
      case None => Bool(false)
      case Some(d) =>
        var days := FloorDiv(host.now - d, MS_IN_DAY);
        MonthsOfDays(days, threshold);
        Bool(10 * days < 304 * threshold)
  }

  /** `Math.floor(days / 30.4)`, evaluated exactly as `floor(10 * days / 304)`. */
  function WholeMonths(days: int): int {
    FloorDiv(10 * days, 304)
  }

  /** Whole 30.4-day months stay below a whole threshold exactly when the days, counted
      in tenths, stay below the threshold's 304ths. */
  lemma MonthsOfDays(days: int, t: int)
    ensures WholeMonths(days) < t <==> 10 * days < 304 * t
  {
    var k := WholeMonths(days);
    assert k * 304 <= 10 * days < k * 304 + 304;
    if k < t {
      assert k + 1 <= t;
      assert (k + 1) * 304 <= t * 304;
    } else {
      assert k * 304 >= t * 304;
    }
  }

  /** Once the post-delivery report is at least as new as the ANC, the months test is
      the test on the delivery date that report gives. */
  lemma MonthsWhenDeliveryNewer(host: Host, rs: seq<Report>, threshold: int)
    requires CompareANCAndPostDelivery(rs) == Some(2)
    ensures MonthsSinceDeliveryBelow(host, rs, threshold)
      == MonthsSinceDateBelow(host, UsedDeliveryDate(MostRecentReport(rs, Forms([POST_DELIVERY]))), threshold)
  {
  }

  /** The newest live post-delivery report is at least as new as the newest live ANC,
      its delivery date (the assessment's, else the context's) reads as a date, and
      the whole 30.4-day months of whole days since then stay below the threshold. */
  predicate DeliveryWithinMonths(host: Host, rs: seq<Report>, threshold: int) {
    && CompareANCAndPostDelivery(rs) == Some(2)
    && var used := UsedDeliveryDate(MostRecentReport(rs, Forms([POST_DELIVERY])));
       Truthy(used) && NewDate(host, used).Some?
       && WholeMonths(FloorDiv(host.now - NewDate(host, used).value, MS_IN_DAY)) < threshold
  }

  /** The months test of the perinatal screening is true exactly when the delivery
      lies within the threshold's months; without ANC and post-delivery reports the
      test is false. */
  lemma MonthsSinceDeliveryMeaning(host: Host, rs: seq<Report>, threshold: int)
    ensures MonthsSinceDeliveryBelow(host, rs, threshold) == Bool(true) <==> DeliveryWithinMonths(host, rs, threshold)
    ensures CompareANCAndPostDelivery(rs).None? ==> MonthsSinceDeliveryBelow(host, rs, threshold) == Bool(false)
  {
    var c := CompareANCAndPostDelivery(rs);
    if c == Some(2) {
      MonthsWhenDeliveryNewer(host, rs, threshold);
    } else if c.None? {
      assert MonthsSinceDeliveryBelow(host, rs, threshold) == Bool(false);
    } else {
      assert c == Some(1);
    }
  }

  /** The two perinatal-screening conditions exclude each other: the weeks test is
      only true when the ANC is the newer report, and then the months test is null. */
  lemma ScreeningConditionsExclusive(host: Host, rs: seq<Report>, weeks: int, months: int)
    ensures !(AtLeastWeeksSinceLMP(host, rs, weeks) == Bool(true) && MonthsSinceDeliveryBelow(host, rs, months) == Bool(true))
  {
    AtLeastWeeksMeaning(host, rs, weeks);
  }

  // ---------------------------------------------------------------------------
  // totalForms and totalPsuppSessions

  /** `totalForms(contact, formName)`: null without a live EPDS screening; otherwise one
      more than the number of reports of the form, deleted ones included (capped at
      the largest safe integer). */
  function TotalForms(rs: seq<Report>, formName: string): Value {
    if MostRecentReport(rs, Forms([EPDS_SCREENING])).None? then Null
    else
      var n := |Filter(rs, SummaryContext.FormIs(formName))|;
      if n == 0 then Num(1) else Num(SummaryContext.MinNat(n + 1, SummaryContext.MAX_SAFE_INTEGER))
  }

  lemma TotalFormsCounts(rs: seq<Report>, formName: string)
    ensures TotalForms(rs, formName) == Null <==> forall r | r in rs :: !LiveOf(EPDS_SCREENING, r)
    ensures TotalForms(rs, formName) != Null ==>
      && TotalForms(rs, formName) == Num(SummaryContext.MinNat(|Filter(rs, SummaryContext.FormIs(formName))| + 1, SummaryContext.MAX_SAFE_INTEGER))
      && TotalForms(rs, formName).n >= 1
    ensures TotalForms(rs, formName) != Null && (forall r | r in rs :: r.form != formName) ==> TotalForms(rs, formName) == Num(1)
  {
    MostRecentOfForm(rs, EPDS_SCREENING);
    if forall r | r in rs :: r.form != formName {
      SummaryContext.FilterNothing(rs, SummaryContext.FormIs(formName));
    }
  }

  /** This file's `formCapMap[formName] || 5`: 3 for the home and weekly visits, 1 for
      the screening form, 5 for anything else. */
  function PsuppCap(formName: string): nat {
    if formName == PSUPP_HOME_VISIT || formName == PSUPP_WEEKLY_VISIT then 3
    else if formName == PSUPP then 1
    else 5
  }

  /** The visit number `totalPsuppSessions` prints: one more than the reports of the
      form dated after the newest live PSUPP screening, capped. */
  function PsuppSession(rs: seq<Report>, formName: string): Option<nat> {
    var latest := MostRecentReport(rs, Forms([PSUPP]));
    if latest.None? then None
    else
      var count := |Filter(rs, SummaryContext.LaterOfForm(Some(formName), latest.value.reported))|;
      Some(SummaryContext.MinNat(count + 1, PsuppCap(formName)))
  }

  /** `totalPsuppSessions(contact, formName)`: null or `'visit_k'`. */
  function TotalPsuppSessions(rs: seq<Report>, formName: string): Value {
    match PsuppSession(rs, formName)
    case None => Null
    case Some(k) => Str("visit_" + NatToString(k))
  }

  /** Null exactly without a live PSUPP screening; otherwise `visit_k` with k between
      1 and the form's cap. */
  lemma PsuppSessionsRange(rs: seq<Report>, formName: string)
    ensures TotalPsuppSessions(rs, formName) == Null <==> forall r | r in rs :: !LiveOf(PSUPP, r)
    ensures TotalPsuppSessions(rs, formName) != Null ==>
      exists k: nat | 1 <= k <= PsuppCap(formName) :: TotalPsuppSessions(rs, formName) == Str("visit_" + NatToString(k))
  {
    MostRecentOfForm(rs, PSUPP);
    if PsuppSession(rs, formName).Some? {
      var k := PsuppSession(rs, formName).value;
      assert 1 <= k <= PsuppCap(formName);
    }
  }

  /** With a cap of 3 the weekly-visit counter never reads `visit_4`, so the
      `totalform === 'visit_4'` alternative of the home-visit task never holds. */
  lemma WeeklyCounterNeverVisit4(rs: seq<Report>)
    ensures TotalPsuppSessions(rs, PSUPP_WEEKLY_VISIT) != Str("visit_4")
  {
    if PsuppSession(rs, PSUPP_WEEKLY_VISIT).Some? {
      var k := PsuppSession(rs, PSUPP_WEEKLY_VISIT).value;
      assert k <= 3;
      if "visit_" + NatToString(k) == "visit_4" {
        assert NatToString(k) == ("visit_" + NatToString(k))[6..];
        assert NatToString(4) == "4";
        NatToStringInjective(k, 4);
      }
    }
  }

  // ---------------------------------------------------------------------------
  // getpdfContent

  const CHILD_WORDS := ["one", "two", "three", "four"]

  /** `child_${word}.child_${word}_${key}${i}` for child slot `i`. */
  function ChildPath(i: int, key: string): string
    requires 1 <= i <= 4
  {
    var w := CHILD_WORDS[i - 1];
    "child_" + w + ".child_" + w + "_" + key + NatToString(i)
  }

  /** `childIndexes.some(i => getField(pdf, ChildPath(i, key)) === want)`. */
  predicate SomeChild(pdf: Option<Report>, key: string, want: string) {
    exists i | 1 <= i <= 4 :: GetField(pdf, ChildPath(i, key)) == Str(want)
  }

  /** `getpdfContent(contact)`: 1 (a live birth at 28 weeks or more, some slot
      recording a live birth and some, possibly other, slot a living child, on the
      newest live post-delivery report); otherwise 2. */
  function PdfContent(rs: seq<Report>): (c: int)
    ensures c == 1 || c == 2
  {
    var pdf := MostRecentReport(rs, Forms([POST_DELIVERY]));
    var outcome := GetField(pdf, "post_delivery_assessment.pregnancy_outcome");
    if outcome == Str("delivery_28_weeks")
       && SomeChild(pdf, "birth_outcome", "live_birth")
       && SomeChild(pdf, "child_status", "alive")
    then 1 else 2
  }

  /** The content test on one post-delivery report: a live birth at 28 weeks or more,
      some child slot recording a live birth and some slot a living child. */
  predicate ShowsLivingChild(p: Report) {
    && GetField(Some(p), "post_delivery_assessment.pregnancy_outcome") == Str("delivery_28_weeks")
    && SomeChild(Some(p), "birth_outcome", "live_birth")
    && SomeChild(Some(p), "child_status", "alive")
  }

  /** The content code is the content test on the newest live post-delivery report. */
  lemma PdfContentOfSelected(rs: seq<Report>)
    ensures var pdf := MostRecentReport(rs, Forms([POST_DELIVERY]));
      PdfContent(rs) == (if pdf.Some? && ShowsLivingChild(pdf.value) then 1 else 2)
  {
    var pdf := MostRecentReport(rs, Forms([POST_DELIVERY]));
    if pdf.None? {
      assert GetField(pdf, "post_delivery_assessment.pregnancy_outcome") == Undefined;
    }
  }

  /** The content code is 1 only for a live post-delivery report that passes the
      content test and that no live post-delivery report is newer than; with no live
      post-delivery report passing the test it is 2. */
  lemma PdfContentMeaning(rs: seq<Report>)
    ensures PdfContent(rs) == 1 ==>
      exists p | p in rs && LiveOf(POST_DELIVERY, p) ::
        ShowsLivingChild(p) && forall q | q in rs && LiveOf(POST_DELIVERY, q) :: q.reported <= p.reported
    ensures (forall p | p in rs && LiveOf(POST_DELIVERY, p) :: !ShowsLivingChild(p)) ==> PdfContent(rs) == 2
  {
    PdfContentOfSelected(rs);
    MostRecentOfForm(rs, POST_DELIVERY);
    var pdf := MostRecentReport(rs, Forms([POST_DELIVERY]));
    if pdf.Some? {
      var n := pdf.value;
      assert n in rs && LiveOf(POST_DELIVERY, n);
    }
  }

  /** A live post-delivery report newer than every other one decides the content code
      alone: 1 exactly when it passes the content test. */
  lemma PdfContentOfNewest(rs: seq<Report>, p: Report)
    requires p in rs && LiveOf(POST_DELIVERY, p)
    requires forall q | q in rs && LiveOf(POST_DELIVERY, q) && q != p :: q.reported < p.reported
    ensures PdfContent(rs) == 1 <==> ShowsLivingChild(p)
  {
    PdfContentOfSelected(rs);
    MostRecentOfForm(rs, POST_DELIVERY);
    var pdf := MostRecentReport(rs, Forms([POST_DELIVERY]));
    assert pdf.Some?;
    assert pdf.value == p;
  }

  // ---------------------------------------------------------------------------
  // The pregnancy timeline of the template (getSubsequent*, isActivePregnancy)

  /** `getDateMS(d)`: null for the empty text; a text is read as a local date (an
      unreadable one falls back to now); any value is then moved to its midnight, and
      an invalid date gives NaN. */
  function DateMS(host: Host, v: Value): (m: Value)
    ensures m.Null? || m.Num? || m.NaN?
  {
    if v == Str("") then Null
    else if v.Str? then
      Num(Midnight(match host.parseDate(v) case Some(t) => t case None => host.now))
    else match NewDate(host, v)
      case None => NaN
      case Some(t) => Num(Midnight(t))
  }

  /** `getLMPDateFromPregnancy`: false unless the report is a pregnancy form. */
  function LMPFromPregnancy(host: Host, r: Report): (v: Value)
    ensures v == Bool(false) || v.Null? || v.Num? || v.NaN?
  {
    if r.form != PREGNANCY_FORM then Bool(false) else DateMS(host, GetField(Some(r), "lmp_date_8601"))
  }

  /** `getLMPDateFromPregnancyFollowUp`: false unless the report is a follow-up form. */
  function LMPFromFollowUp(host: Host, r: Report): (v: Value)
    ensures v == Bool(false) || v.Null? || v.Num? || v.NaN?
  {
    if r.form != PREGNANCY_FOLLOW_UP_FORM then Bool(false) else DateMS(host, GetField(Some(r), "lmp_date_8601"))
  }

  function LaterOfForm(form: string, after: int): Report -> bool {
    (r: Report) => r.form == form && r.reported > after
  }

  /** `getSubsequentPregnancies(contact, refReport)`. */
  function SubsequentPregnancies(rs: seq<Report>, ref: Report): (out: seq<Report>)
    ensures forall r :: r in out <==> r in rs && r.form == PREGNANCY_FORM && r.reported > ref.reported
  {
    Filter(rs, LaterOfForm(PREGNANCY_FORM, ref.reported))
  }

  /** The instant the follow-up window is measured from: the pregnancy's LMP, or its
      report date when the LMP is missing. */
  function FollowUpBase(host: Host, r: Report): int {
    var lmp := LMPFromPregnancy(host, r);
    if Truthy(lmp) then lmp.n else r.reported
  }

  function FollowUpOf(host: Host, report: Report): Report -> bool {
    (v: Report) =>
      v.form == PREGNANCY_FOLLOW_UP_FORM && v.reported > report.reported
      && v.reported < AddDays(FollowUpBase(host, report), MAX_DAYS_IN_PREGNANCY)
  }

  /** `getSubsequentPregnancyFollowUps(contact, report)`: follow-ups after the report
      and before 42 weeks from its LMP. */
  function SubsequentPregnancyFollowUps(host: Host, rs: seq<Report>, report: Report): (out: seq<Report>)
    ensures forall v :: v in out <==>
      && v in rs && v.form == PREGNANCY_FOLLOW_UP_FORM && v.reported > report.reported
      && v.reported < AddDays(FollowUpBase(host, report), MAX_DAYS_IN_PREGNANCY)
  {
    Filter(rs, FollowUpOf(host, report))
  }

  function DeliveryAfter(ref: Report, within: int, today: int): Report -> bool {
    (r: Report) => r.form == DELIVERY_FORM && r.reported > ref.reported
                   && (within == 0 || ref.reported >= today - within * MS_IN_DAY)
  }

  /** `getSubsequentDeliveries(contact, refReport, withinLastXDays)`: the day limit
      tests the reference report's date, not the delivery's. */
  function SubsequentDeliveries(host: Host, rs: seq<Report>, ref: Report, within: int): seq<Report> {
    Filter(rs, DeliveryAfter(ref, within, Midnight(host.now)))
  }

  /** With a day limit, a reference report older than the limit has no subsequent
      deliveries at all, however recent they are. */
  lemma OldReferenceHasNoDeliveries(host: Host, rs: seq<Report>, ref: Report, within: int)
    requires within != 0 && ref.reported < Midnight(host.now) - within * MS_IN_DAY
    ensures SubsequentDeliveries(host, rs, ref, within) == []
  {
    SummaryContext.FilterNothing(rs, DeliveryAfter(ref, within, Midnight(host.now)));
  }

  /** The state of the `getMostRecentLMPDateForPregnancy` scan. */
  datatype LmpScan = LmpScan(lmp: Value, date: int)

  /** One follow-up: it replaces the LMP when it is dated later and its LMP differs
      (by `!==`, so NaN always differs). */
  function LmpStep(host: Host, s: LmpScan, v: Report): LmpScan {
    var fu := LMPFromFollowUp(host, v);
    if v.reported > s.date && fu != Str("") && !StrictEquals(fu, s.lmp) then LmpScan(fu, v.reported) else s
  }

  function LmpScanOf(host: Host, s: LmpScan, vs: seq<Report>): LmpScan
    decreases |vs|
  {
    if vs == [] then s else LmpStep(host, LmpScanOf(host, s, vs[..|vs| - 1]), vs[|vs| - 1])
  }

  /** What `getMostRecentLMPDateForPregnancy` returns. */
  function MostRecentLMP(host: Host, rs: seq<Report>, report: Report): Value {
    LmpScanOf(host, LmpScan(LMPFromPregnancy(host, report), report.reported),
              SubsequentPregnancyFollowUps(host, rs, report)).lmp
  }

  /** `getMostRecentLMPDateForPregnancy(contact, report)`. */
  method GetMostRecentLMPDateForPregnancy(host: Host, rs: seq<Report>, report: Report) returns (lmp: Value)
    ensures lmp == MostRecentLMP(host, rs, report)
  {
    var vs := SubsequentPregnancyFollowUps(host, rs, report);
    lmp := LMPFromPregnancy(host, report);
    var date := report.reported;
    ghost var start := LmpScan(lmp, date);
    for i := 0 to |vs|
      invariant LmpScan(lmp, date) == LmpScanOf(host, start, vs[..i])
    {
      assert vs[..i + 1][..i] == vs[..i];
      assert LmpScanOf(host, start, vs[..i + 1]) == LmpStep(host, LmpScanOf(host, start, vs[..i]), vs[i]);
      ghost var before := LmpScan(lmp, date);
      var fromFollowUp := LMPFromFollowUp(host, vs[i]);
      if vs[i].reported > date && fromFollowUp != Str("") && !StrictEquals(fromFollowUp, lmp) {
        date := vs[i].reported;
        lmp := fromFollowUp;
      }
      assert LmpScan(lmp, date) == LmpStep(host, before, vs[i]);
    }
    assert vs[..|vs|] == vs;
  }

  /** The scan never goes back in time, and the LMP it ends on is the starting one or
      the LMP of a scanned follow-up dated after the start. */
  lemma {:induction false} LmpScanOrigin(host: Host, s: LmpScan, vs: seq<Report>)
    ensures LmpScanOf(host, s, vs).date >= s.date
    ensures LmpScanOf(host, s, vs) == s ||
      exists v | v in vs :: v.reported > s.date && LmpScanOf(host, s, vs) == LmpScan(LMPFromFollowUp(host, v), v.reported)
    decreases |vs|
  {
    if vs != [] {
      var init := vs[..|vs| - 1];
      LmpScanOrigin(host, s, init);
      assert forall v | v in init :: v in vs;
    }
  }

  /** The most recent LMP is the pregnancy's own or that of one of its follow-ups. */
  lemma MostRecentLMPOrigin(host: Host, rs: seq<Report>, report: Report)
    ensures MostRecentLMP(host, rs, report) == LMPFromPregnancy(host, report) ||
      exists v | v in rs && v.form == PREGNANCY_FOLLOW_UP_FORM && v.reported > report.reported ::
        MostRecentLMP(host, rs, report) == LMPFromFollowUp(host, v)
  {
    LmpScanOrigin(host, LmpScan(LMPFromPregnancy(host, report), report.reported),
                  SubsequentPregnancyFollowUps(host, rs, report));
  }

  /** `isPregnancyTerminatedByAbortion` / `...ByMiscarriage`: the newest follow-up
      records the outcome. */
  predicate TerminatedBy(host: Host, rs: seq<Report>, report: Report, outcome: string) {
    var latest := NewestOfForms(SubsequentPregnancyFollowUps(host, rs, report), Forms([PREGNANCY_FOLLOW_UP_FORM]));
    latest.Some? && GetField(latest, "pregnancy_summary.visit_option") == Str(outcome)
  }

  /** `isActivePregnancy(contact, report)`. */
  predicate IsActivePregnancy(host: Host, rs: seq<Report>, report: Report) {
    && report.form == PREGNANCY_FORM
    && Greater(Or(MostRecentLMP(host, rs, report), Num(report.reported)),
               Num(Midnight(host.now) - MAX_DAYS_IN_PREGNANCY * MS_IN_DAY))
    && |SubsequentDeliveries(host, rs, report, 6 * 7)| == 0
    && |SubsequentPregnancies(rs, report)| == 0
    && !TerminatedBy(host, rs, report, "abortion")
    && !TerminatedBy(host, rs, report, "miscarriage")
  }

  /** An active pregnancy has no later pregnancy report; a pregnancy reported more
      than six weeks before today's midnight is not ended by a later delivery report. */
  lemma ActivePregnancyFacts(host: Host, rs: seq<Report>, report: Report)
    ensures IsActivePregnancy(host, rs, report) ==>
      forall r | r in rs :: !(r.form == PREGNANCY_FORM && r.reported > report.reported)
    ensures report.reported < Midnight(host.now) - 42 * MS_IN_DAY ==> SubsequentDeliveries(host, rs, report, 42) == []
  {
    if IsActivePregnancy(host, rs, report) {
      var s := SubsequentPregnancies(rs, report);
      assert forall r | r in rs && r.form == PREGNANCY_FORM && r.reported > report.reported :: r in s;
    }
    if report.reported < Midnight(host.now) - 42 * MS_IN_DAY {
      OldReferenceHasNoDeliveries(host, rs, report, 42);
    }
  }
}
