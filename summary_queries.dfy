/** The report-timeline queries of the contact-summary helpers
    (contact-summary-extras.js): newest-report scans, window filters, the
    most-recent and first value of a field, the stock aggregate, and the status flags
    built on them. Each `forEach`/`some` loop is a method proved equal to a
    specification function, and lemmas state what the specification promises. */
module SummaryQueries {
  import opened JsValues
  import opened Reports

  // ---------------------------------------------------------------------------
  // Window filters

  function InWindow(forms: FormSet, start: int, end: int): Report -> bool {
    (r: Report) => Includes(forms, r.form) && start <= r.reported <= end
  }

  /** `getFormArraySubmittedInWindow`: the reports of the forms dated within
      `[start, end]`, both ends included, in list order. */
  function FormArraySubmittedInWindow(rs: seq<Report>, forms: FormSet, start: int, end: int): (out: seq<Report>)
    ensures forall r :: r in out <==> r in rs && Includes(forms, r.form) && start <= r.reported <= end
  {
    Filter(rs, InWindow(forms, start, end))
  }

  function Between(forms: FormSet, after: int, before: int): Report -> bool {
    (r: Report) => Includes(forms, r.form) && after < r.reported < before
  }

  /** `getReportsBetween`: the reports of the forms dated strictly between `after` and
      `before`, in list order. Deleted reports are not excluded. */
  function ReportsBetween(rs: seq<Report>, forms: FormSet, after: int, before: int): (out: seq<Report>)
    ensures forall r :: r in out <==> r in rs && Includes(forms, r.form) && after < r.reported < before
  {
    Filter(rs, Between(forms, after, before))
  }

  /** The two window filters differ exactly at the ends: a report of the forms dated on
      a bound is inside the inclusive window and outside the strict one. */
  lemma WindowBoundsDiffer(rs: seq<Report>, forms: FormSet, a: int, b: int, r: Report)
    requires r in rs && Includes(forms, r.form) && a <= b
    requires r.reported == a || r.reported == b
    ensures r in FormArraySubmittedInWindow(rs, forms, a, b)
    ensures r !in ReportsBetween(rs, forms, a, b)
  {
  }

  /** Both filters keep list order: filtering a concatenation filters each part. */
  lemma WindowFiltersKeepOrder(xs: seq<Report>, ys: seq<Report>, forms: FormSet, a: int, b: int)
    ensures FormArraySubmittedInWindow(xs + ys, forms, a, b)
         == FormArraySubmittedInWindow(xs, forms, a, b) + FormArraySubmittedInWindow(ys, forms, a, b)
    ensures ReportsBetween(xs + ys, forms, a, b) == ReportsBetween(xs, forms, a, b) + ReportsBetween(ys, forms, a, b)
  {
    FilterAppend(xs, ys, InWindow(forms, a, b));
    FilterAppend(xs, ys, Between(forms, a, b));
  }

  // ---------------------------------------------------------------------------
  // getNewestReport

  /** The reports `getNewestReport` considers: valid, of one of the forms, not dated
      after a truthy `before`, and not matched by `skipCondition`. */
  predicate NewestQualifies(forms: FormSet, before: Option<int>, skip: Option<Report -> bool>, r: Report) {
    && IsReportValid(r)
    && Includes(forms, r.form)
    && !(before.Some? && before.value != 0 && before.value < r.reported)
    && !(skip.Some? && skip.value(r))
  }

  function NewestFilter(forms: FormSet, before: Option<int>, skip: Option<Report -> bool>): Report -> bool {
    (r: Report) => NewestQualifies(forms, before, skip, r)
  }

  /** What `getNewestReport` returns. */
  function NewestReport(rs: seq<Report>, forms: FormSet, before: Option<int>, skip: Option<Report -> bool>): Option<Report> {
    Select(rs, NewestFilter(forms, before, skip), false)
  }

  /** `getNewestReport(allReports, forms, before, skipCondition)`. */
  method GetNewestReport(rs: seq<Report>, forms: FormSet, before: Option<int>, skip: Option<Report -> bool>)
    returns (result: Option<Report>)
    ensures result == NewestReport(rs, forms, before, skip)
  {
    result := None;
    for i := 0 to |rs|
      invariant result == Select(rs[..i], NewestFilter(forms, before, skip), false)
    {
      SelectStep(rs, i, NewestFilter(forms, before, skip), false);
      var report := rs[i];
      if !IsReportValid(report) || !Includes(forms, report.form) { continue; }
      if before.Some? && before.value != 0 && before.value < report.reported { continue; }
      if skip.Some? && skip.value(report) { continue; }
      if result.None? || report.reported > result.value.reported {
        result := Some(report);
      }
    }
    assert rs[..|rs|] == rs;
  }

  /** `getNewestReport` finds nothing exactly when no report qualifies; otherwise its
      answer qualifies, no qualifying report is dated later, and no qualifying report
      earlier in the list has the same date. */
  lemma NewestReportIsNewest(rs: seq<Report>, forms: FormSet, before: Option<int>, skip: Option<Report -> bool>)
    ensures NewestReport(rs, forms, before, skip).None? <==> forall r | r in rs :: !NewestQualifies(forms, before, skip, r)
    ensures NewestReport(rs, forms, before, skip).Some? ==>
      var n := NewestReport(rs, forms, before, skip).value;
      && NewestQualifies(forms, before, skip, n)
      && exists i | 0 <= i < |rs| :: rs[i] == n
           && (forall j | 0 <= j < |rs| && NewestQualifies(forms, before, skip, rs[j]) :: rs[j].reported <= n.reported)
           && (forall j | 0 <= j < i && NewestQualifies(forms, before, skip, rs[j]) :: rs[j].reported < n.reported)
  {
    var q := NewestFilter(forms, before, skip);
    SelectAtCharacterised(rs, q, false);
    var i := SelectAt(rs, q, false);
    if i >= 0 {
      assert rs[i] == NewestReport(rs, forms, before, skip).value;
      assert forall j | 0 <= j < i && q(rs[j]) :: rs[j].reported < rs[i].reported;
    }
  }

  // ---------------------------------------------------------------------------
  // Skipped reports and getMostRecentUnskippedReport

  /** `isReportSkipped`: the form's at-home or agrees-for-service field says `'no'`. */
  predicate IsReportSkipped(r: Report) {
    GetField(Some(r), HomeKey(r.form)) == Str("no") || GetField(Some(r), AgreesKey(r.form)) == Str("no")
  }

  /** A form without an entry in either key table reads the field named by the empty
      path; unless the report has such a field, it is never skipped. */
  lemma UnlistedFormNeverSkipped(r: Report)
    requires r.form !in {ANC, PNC, PNC2, PREGNANCY_SCREENING, U2_REGISTRY}
    requires r.fields.None? || "" !in r.fields.value
    ensures !IsReportSkipped(r)
  {
    assert HomeKey(r.form) == "" && AgreesKey(r.form) == "";
    assert Split("", '.') == [""];
    if r.fields.Some? {
      var m := r.fields.value;
      assert Walk(Tree(m), [""]) == Walk(Lookup(Tree(m), ""), []);
    }
  }

  /** The reports `getMostRecentUnskippedReport` keeps: of the form, not deleted, not
      skipped. Validity is not required. */
  predicate UnskippedQualifies(form: string, r: Report) {
    r.form == form && !r.deleted && !IsReportSkipped(r)
  }

  function UnskippedFilter(form: string): Report -> bool {
    (r: Report) => UnskippedQualifies(form, r)
  }

  function MostRecentUnskippedReport(rs: seq<Report>, form: string): Option<Report> {
    Select(rs, UnskippedFilter(form), false)
  }

  /** `getMostRecentUnskippedReport(allReports, form)`: the filter and the scan after it
      run as one pass, which keeps the same reports in the same order. */
  method GetMostRecentUnskippedReport(rs: seq<Report>, form: string) returns (result: Option<Report>)
    ensures result == MostRecentUnskippedReport(rs, form)
  {
    result := None;
    for i := 0 to |rs|
      invariant result == Select(rs[..i], UnskippedFilter(form), false)
    {
      SelectStep(rs, i, UnskippedFilter(form), false);
      var report := rs[i];
      if report.form == form && !report.deleted && !IsReportSkipped(report) {
        if result.None? || report.reported > result.value.reported {
          result := Some(report);
        }
      }
    }
    assert rs[..|rs|] == rs;
  }

  /** The answer is a non-deleted, unskipped report of the form that no such report
      post-dates; nothing is found exactly when there is no such report. */
  lemma MostRecentUnskippedIsNewest(rs: seq<Report>, form: string)
    ensures MostRecentUnskippedReport(rs, form).None? <==> forall r | r in rs :: !UnskippedQualifies(form, r)
    ensures MostRecentUnskippedReport(rs, form).Some? ==>
      var n := MostRecentUnskippedReport(rs, form).value;
      && n in rs && n.form == form && !n.deleted && !IsReportSkipped(n)
      && forall r | r in rs && UnskippedQualifies(form, r) :: r.reported <= n.reported
  {
    SelectProperties(rs, UnskippedFilter(form), false);
  }

  // ---------------------------------------------------------------------------
  // getFieldRecent and getFieldOnce

  /** `checkNotEmptyOrUndefined`. */
  predicate NotEmptyOrUndefined(v: Value) {
    v != Str("") && v != Undefined
  }

  predicate RecentQualifies(form: string, field: string, cond: Value -> bool, r: Report) {
    IsReportValid(r) && r.form == form && cond(GetField(Some(r), field))
  }

  function RecentFilter(form: string, field: string, cond: Value -> bool): Report -> bool {
    (r: Report) => RecentQualifies(form, field, cond, r)
  }

  /** What `getFieldRecent` returns: the field of the newest valid report of the form
      whose value meets the condition, the later one in the list on equal dates. */
  function FieldRecent(rs: seq<Report>, form: string, field: string, cond: Value -> bool): Value {
    var r := Select(rs, RecentFilter(form, field, cond), true);
    if r.None? then Undefined else GetField(r, field)
  }

  /** `getFieldRecent(allReports, form, field, condition)`. */
  method GetFieldRecent(rs: seq<Report>, form: string, field: string, cond: Value -> bool)
    returns (value: Value)
    ensures value == FieldRecent(rs, form, field, cond)
  {
    value := Undefined;
    var reportedDate: Option<int> := None;
    for i := 0 to |rs|
      invariant var s := Select(rs[..i], RecentFilter(form, field, cond), true);
        && (s.None? ==> value == Undefined && reportedDate.None?)
        && (s.Some? ==> value == GetField(s, field) && reportedDate == Some(s.value.reported)
                         && s.value.reported != 0)
    {
      SelectStep(rs, i, RecentFilter(form, field, cond), true);
      var report := rs[i];
      if !IsReportValid(report) || report.form != form { continue; }
      if reportedDate.Some? && reportedDate.value != 0 && reportedDate.value > report.reported { continue; }
      var fieldValue := GetField(Some(report), field);
      if cond(fieldValue) {
        value := fieldValue;
        reportedDate := Some(report.reported);
      }
    }
    assert rs[..|rs|] == rs;
  }

  /** `getFieldRecent` is undefined when no valid report of the form has a value meeting
      the condition; otherwise its answer meets the condition and comes from such a
      report that no other one post-dates, the last in the list among equal dates. */
  lemma FieldRecentIsLatest(rs: seq<Report>, form: string, field: string, cond: Value -> bool)
    ensures (forall r | r in rs :: !RecentQualifies(form, field, cond, r)) ==> FieldRecent(rs, form, field, cond) == Undefined
    ensures (exists r | r in rs :: RecentQualifies(form, field, cond, r)) ==>
      && cond(FieldRecent(rs, form, field, cond))
      && exists i | 0 <= i < |rs| ::
           && RecentQualifies(form, field, cond, rs[i])
           && FieldRecent(rs, form, field, cond) == GetField(Some(rs[i]), field)
           && (forall j | 0 <= j < |rs| && RecentQualifies(form, field, cond, rs[j]) :: rs[j].reported <= rs[i].reported)
           && (forall j | i < j < |rs| && RecentQualifies(form, field, cond, rs[j]) :: rs[j].reported < rs[i].reported)
  {
    var q := RecentFilter(form, field, cond);
    SelectAtCharacterised(rs, q, true);
    var i := SelectAt(rs, q, true);
    if i >= 0 {
      assert forall j | i < j < |rs| && q(rs[j]) :: rs[j].reported < rs[i].reported;
    } else {
      assert forall r | r in rs :: !q(r);
    }
  }

  /** The index `getFieldOnce` stops at: the first valid report of the form whose value
      meets the condition, or -1. */
  function FirstAt(rs: seq<Report>, form: string, field: string, cond: Value -> bool): (i: int)
    ensures -1 <= i < |rs|
  {
    if rs == [] then -1
    else
      var k := FirstAt(rs[..|rs| - 1], form, field, cond);
      if k >= 0 then k
      else if RecentQualifies(form, field, cond, rs[|rs| - 1]) then |rs| - 1
      else -1
  }

  /** What `getFieldOnce` returns. */
  function FieldOnce(rs: seq<Report>, form: string, field: string, cond: Value -> bool): Value {
    var i := FirstAt(rs, form, field, cond);
    if i < 0 then Undefined else GetField(Some(rs[i]), field)
  }

  /** `getFieldOnce(allReports, form, field, condition)`: `some` stops at the first
      report whose value meets the condition. */
  method GetFieldOnce(rs: seq<Report>, form: string, field: string, cond: Value -> bool)
    returns (value: Value)
    ensures value == FieldOnce(rs, form, field, cond)
  {
    value := Undefined;
    var i := 0;
    var found := false;
    while i < |rs| && !found
      invariant 0 <= i <= |rs|
      invariant !found ==> FirstAt(rs[..i], form, field, cond) == -1 && value == Undefined
      invariant found ==> i >= 1 && FirstAt(rs[..i], form, field, cond) == i - 1 && value == GetField(Some(rs[i - 1]), field)
    {
      assert rs[..i + 1][..i] == rs[..i];
      var report := rs[i];
      if IsReportValid(report) && report.form == form {
        var fieldValue := GetField(Some(report), field);
        if cond(fieldValue) {
          value := fieldValue;
          found := true;
        }
      }
      i := i + 1;
    }
    FirstAtPrefix(rs, i, form, field, cond);
  }

  /** Once the first match lies in a prefix, longer prefixes keep it. */
  lemma {:induction false} FirstAtPrefix(rs: seq<Report>, i: int, form: string, field: string, cond: Value -> bool)
    requires 0 <= i <= |rs|
    requires FirstAt(rs[..i], form, field, cond) >= 0 || i == |rs|
    ensures FirstAt(rs, form, field, cond) == FirstAt(rs[..i], form, field, cond)
    decreases |rs| - i
  {
    if i == |rs| {
      assert rs[..i] == rs;
    } else {
      assert rs[..i + 1][..i] == rs[..i];
      FirstAtPrefix(rs, i + 1, form, field, cond);
    }
  }

  /** `getFieldOnce` answers with the first report in list order, whatever the dates:
      the index it stops at qualifies and no earlier report does. */
  lemma {:induction false} FirstAtIsFirst(rs: seq<Report>, form: string, field: string, cond: Value -> bool)
    ensures FirstAt(rs, form, field, cond) >= 0 ==> RecentQualifies(form, field, cond, rs[FirstAt(rs, form, field, cond)])
    ensures forall j | 0 <= j < |rs| && (FirstAt(rs, form, field, cond) < 0 || j < FirstAt(rs, form, field, cond)) ::
      !RecentQualifies(form, field, cond, rs[j])
  {
    if rs != [] {
      var init := rs[..|rs| - 1];
      FirstAtIsFirst(init, form, field, cond);
      assert forall j | 0 <= j < |init| :: init[j] == rs[j];
    }
  }

  /** `getFieldOnce` and `getFieldRecent` read the same reports: both are undefined
      together, and both answers then meet the condition. */
  lemma OnceAndRecentAgreeOnExistence(rs: seq<Report>, form: string, field: string, cond: Value -> bool)
    requires exists r | r in rs :: RecentQualifies(form, field, cond, r)
    ensures cond(FieldOnce(rs, form, field, cond)) && cond(FieldRecent(rs, form, field, cond))
  {
    FirstAtIsFirst(rs, form, field, cond);
    FieldRecentIsLatest(rs, form, field, cond);
  }

  // ---------------------------------------------------------------------------
  // getAggregatedReport

  /** The aggregate after the initialising `forEach`: every field at 0. */
  function InitAggregate(fields: seq<string>): (agg: map<string, Value>)
    ensures forall f :: f in agg <==> f in fields
    ensures forall f | f in agg :: agg[f] == Num(0)
  {
    if fields == [] then map[]
    else InitAggregate(fields[..|fields| - 1])[fields[|fields| - 1] := Num(0)]
  }

  /** The inner `forEach` for one report: `aggregatedReport[field] += getIntegerField`. */
  function AddReport(agg: map<string, Value>, r: Report, fields: seq<string>): (out: map<string, Value>)
    requires forall f | f in fields :: f in agg
    ensures forall f :: f in out <==> f in agg
  {
    if fields == [] then agg
    else
      var prev := AddReport(agg, r, fields[..|fields| - 1]);
      var f := fields[|fields| - 1];
      prev[f := AddNumbers(prev[f], GetIntegerField(Some(r), f))]
  }

  /** The outer `forEach`, report by report. */
  function AddReports(agg: map<string, Value>, rs: seq<Report>, fields: seq<string>): (out: map<string, Value>)
    requires forall f | f in fields :: f in agg
    ensures forall f :: f in out <==> f in agg
  {
    if rs == [] then agg
    else AddReport(AddReports(agg, rs[..|rs| - 1], fields), rs[|rs| - 1], fields)
  }

  /** What `getAggregatedReport` returns: undefined for an undefined list. */
  function AggregatedReport(rs: Option<seq<Report>>, fields: seq<string>): Option<map<string, Value>> {
    if rs.None? then None else Some(AddReports(InitAggregate(fields), rs.value, fields))
  }

  /** `getAggregatedReport(reports, fields)`. */
  method GetAggregatedReport(rs: Option<seq<Report>>, fields: seq<string>) returns (agg: Option<map<string, Value>>)
    ensures agg == AggregatedReport(rs, fields)
  {
    if rs.None? {
      return None;
    }
    var reports := rs.value;
    var acc := ZeroFields(fields);
    for i := 0 to |reports|
      invariant acc == AddReports(InitAggregate(fields), reports[..i], fields)
    {
      assert reports[..i + 1] == reports[..i] + [reports[i]];
      AddReportsSnoc(InitAggregate(fields), reports[..i], reports[i], fields);
      acc := AddReportFields(acc, reports[i], fields);
    }
    assert reports[..|reports|] == reports;
    agg := Some(acc);
  }

  lemma AddReportsSnoc(agg: map<string, Value>, rs: seq<Report>, r: Report, fields: seq<string>)
    requires forall f | f in fields :: f in agg
    ensures forall f | f in fields :: f in AddReports(agg, rs, fields)
    ensures AddReports(agg, rs + [r], fields) == AddReport(AddReports(agg, rs, fields), r, fields)
  {
    assert (rs + [r])[..|rs|] == rs;
  }

  /** The initialising `forEach` of `getAggregatedReport`. */
  method ZeroFields(fields: seq<string>) returns (acc: map<string, Value>)
    ensures acc == InitAggregate(fields)
  {
    acc := map[];
    for j := 0 to |fields|
      invariant acc == InitAggregate(fields[..j])
    {
      assert fields[..j + 1][..j] == fields[..j];
      acc := acc[fields[j] := Num(0)];
    }
    assert fields[..|fields|] == fields;
  }

  /** The inner `forEach` of `getAggregatedReport`, for one report. */
  method AddReportFields(base: map<string, Value>, r: Report, fields: seq<string>) returns (acc: map<string, Value>)
    requires forall f | f in fields :: f in base
    ensures acc == AddReport(base, r, fields)
  {
    acc := base;
    for j := 0 to |fields|
      invariant acc == AddReport(base, r, fields[..j])
    {
      assert fields[..j + 1][..j] == fields[..j];
      acc := acc[fields[j] := AddNumbers(acc[fields[j]], GetIntegerField(Some(r), fields[j]))];
    }
    assert fields[..|fields|] == fields;
  }

  /** The total of one field over the reports, NaN as soon as one report's value is. */
  function SumField(rs: seq<Report>, f: string): (s: Value)
    ensures IsNumber(s)
  {
    if rs == [] then Num(0)
    else AddNumbers(SumField(rs[..|rs| - 1], f), GetIntegerField(Some(rs[|rs| - 1]), f))
  }

  predicate Distinct(fields: seq<string>) {
    forall i, j | 0 <= i < j < |fields| :: fields[i] != fields[j]
  }

  lemma {:induction false} AddReportAt(agg: map<string, Value>, r: Report, fields: seq<string>)
    requires forall f | f in fields :: f in agg
    requires Distinct(fields)
    ensures forall f | f in agg ::
      AddReport(agg, r, fields)[f] == if f in fields then AddNumbers(agg[f], GetIntegerField(Some(r), f)) else agg[f]
  {
    if fields != [] {
      var init := fields[..|fields| - 1];
      assert forall f | f in init :: f in fields;
      AddReportAt(agg, r, init);
      assert fields[|fields| - 1] !in init;
      assert forall f :: f in fields <==> f in init || f == fields[|fields| - 1];
    }
  }

  lemma {:induction false} AddReportsAt(agg: map<string, Value>, rs: seq<Report>, fields: seq<string>)
    requires forall f | f in fields :: f in agg
    requires forall f | f in agg :: agg[f] == Num(0)
    requires Distinct(fields)
    ensures forall f | f in fields :: AddReports(agg, rs, fields)[f] == SumField(rs, f)
  {
    if rs != [] {
      AddReportsAt(agg, rs[..|rs| - 1], fields);
      AddReportAt(AddReports(agg, rs[..|rs| - 1], fields), rs[|rs| - 1], fields);
    }
  }

  /** `getAggregatedReport` is undefined only for an undefined list; otherwise, for
      distinct field names, it has exactly those keys, each holding the field's total
      over the reports, so an empty list gives 0 everywhere. */
  lemma AggregatedReportSums(rs: Option<seq<Report>>, fields: seq<string>)
    requires Distinct(fields)
    ensures AggregatedReport(rs, fields).None? <==> rs.None?
    ensures rs.Some? ==>
      var agg := AggregatedReport(rs, fields).value;
      && agg.Keys == set f | f in fields
      && forall f | f in fields :: agg[f] == SumField(rs.value, f)
    ensures rs == Some([]) ==> forall f | f in fields :: AggregatedReport(rs, fields).value[f] == Num(0)
  {
    if rs.Some? {
      AddReportsAt(InitAggregate(fields), rs.value, fields);
    }
  }

  // ---------------------------------------------------------------------------
  // Status flags

  /** `isActive`: no valid death-and-migration report. */
  predicate IsActive(rs: seq<Report>) {
    NewestReport(rs, Forms([DEATH_MIGRATION]), None, None).None?
  }

  lemma IsActiveIffNoLifeEvent(rs: seq<Report>)
    ensures IsActive(rs) <==> forall r | r in rs :: !(IsReportValid(r) && r.form == DEATH_MIGRATION)
  {
    NewestReportIsNewest(rs, Forms([DEATH_MIGRATION]), None, None);
  }

  /** The `statusText` table, keyed by the reason's text. */
  function StatusText(reason: Value): Value {
    var key := ToJsString(reason);
    if key == "permanent_migration" then Str("Migrated")
    else if key == "person_death" then Str("Deceased")
    else if key == "maternal_death" then Str("Maternal Death")
    else if key == "neonatal_death" then Str("Neo-natal Death")
    else Undefined
  }

  /** `getPersonLifeStatus`. */
  function PersonLifeStatus(rs: seq<Report>): Value {
    var dm := NewestReport(rs, Forms([DEATH_MIGRATION]), None, None);
    if dm.None? then Str("Active") else StatusText(GetField(dm, "reason"))
  }

  /** The status reads `'Active'` exactly when the person is active; an unknown reason
      gives undefined, not `'Active'`. */
  lemma LifeStatusActiveIff(rs: seq<Report>)
    ensures PersonLifeStatus(rs) == Str("Active") <==> IsActive(rs)
    ensures !IsActive(rs) ==> PersonLifeStatus(rs) in {Str("Migrated"), Str("Deceased"), Str("Maternal Death"), Str("Neo-natal Death"), Undefined}
  {
  }

  /** `isInitilizationComplete`: a person with a valid report of the form, which meets
      the extra condition when one is given. */
  function IsInitializationComplete(contactType: string, rs: seq<Report>, form: string, extra: Option<Report -> bool>): (b: bool)
    ensures b ==> contactType == "c82_person" && exists r | r in rs :: IsReportValid(r) && r.form == form
    ensures contactType == "c82_person" && extra.None? && (exists r | r in rs :: IsReportValid(r) && r.form == form) ==> b
    ensures var newest := NewestReport(rs, Forms([form]), None, None);
      b <==> contactType == "c82_person" && newest.Some? && (extra.None? || extra.value(newest.value))
  {
    if contactType != "c82_person" then false
    else
      var previous := NewestReport(rs, Forms([form]), None, None);
      NewestReportIsNewest(rs, Forms([form]), None, None);
      if previous.None? then false
      else if extra.Some? then extra.value(previous.value)
      else true
  }

  /** `isFormClosed`: the report's `remove_woman` field is `'1'`. */
  predicate IsFormClosed(r: Option<Report>) {
    r.Some? && r.value.fields.Some? && "remove_woman" in r.value.fields.value
    && r.value.fields.value["remove_woman"] == Leaf("1")
  }

  lemma FormClosedIsField(r: Option<Report>)
    ensures IsFormClosed(r) <==> GetField(r, "remove_woman") == Str("1")
  {
    GetFieldTopLevel(r, "remove_woman");
  }

  /** The newest valid ANC dated before `pssDate` is skipped by `isANCActive`. */
  function AncBefore(pssDate: int): Report -> bool {
    (r: Report) => r.reported < pssDate
  }

  /** `isANCActive`. It throws when there is no valid screening report (the skip check
      reads `form` of undefined). Its post-delivery check compares a date with a report
      object, which converts to NaN, so it never decides the answer. */
  function IsANCActive(rs: seq<Report>): Result<bool> {
    var pss := NewestReport(rs, Forms([PREGNANCY_SCREENING]), None, None);
    if pss.None? then Thrown("TypeError: cannot read 'form' of undefined")
    else if IsReportSkipped(pss.value) then Ok(false)
    else
      var pdf := NewestReport(rs, Forms([POST_DELIVERY]), None, None);
      if pdf.Some? && Greater(Num(pdf.value.reported), NaN) then Ok(false)
      else if GetField(pss, "anc") == Str("1") then
        var anc := NewestReport(rs, Forms([ANC]), None, Some(AncBefore(pss.value.reported)));
        Ok(anc.None? || GetField(anc, "anc") != Str("0") || GetField(anc, "eligible_woman") != Str("1")
           || GetField(anc, "post_delivery") != Str("1"))
      else Ok(false)
  }

  /** ANC is active exactly when the newest screening report is not skipped, says
      `anc = '1'`, and the newest ANC report not older than it (if any) does not
      report all three of `anc = '0'`, `eligible_woman = '1'` and `post_delivery = '1'`.
      Post-delivery reports play no part. */
  lemma ANCActiveIff(rs: seq<Report>)
    ensures IsANCActive(rs) == Ok(true) <==>
      var pss := NewestReport(rs, Forms([PREGNANCY_SCREENING]), None, None);
      && pss.Some? && !IsReportSkipped(pss.value) && GetField(pss, "anc") == Str("1")
      && var anc := NewestReport(rs, Forms([ANC]), None, Some(AncBefore(pss.value.reported)));
      !(anc.Some? && GetField(anc, "anc") == Str("0") && GetField(anc, "eligible_woman") == Str("1")
           && GetField(anc, "post_delivery") == Str("1"))
  {
  }

  /** `isANCActive` throws exactly when there is no valid screening report. */
  lemma ANCActiveThrowsIff(rs: seq<Report>)
    ensures IsANCActive(rs).Thrown? <==> forall r | r in rs :: !(IsReportValid(r) && r.form == PREGNANCY_SCREENING)
  {
    NewestReportIsNewest(rs, Forms([PREGNANCY_SCREENING]), None, None);
  }

  /** `getCurrentANCReports`: the ANC reports after the newest valid screening report
      and before now; throws without a screening report. */
  function CurrentANCReports(rs: seq<Report>, now: int): (out: Result<seq<Report>>)
    ensures out.Ok? ==> forall r | r in out.value :: r in rs && r.form == ANC && r.reported < now
  {
    var pss := NewestReport(rs, Forms([PREGNANCY_SCREENING]), None, None);
    if pss.None? then Thrown("TypeError: cannot read 'reported_date' of undefined")
    else ReportsBetweenOk(rs, pss.value.reported, now)
  }

  function ReportsBetweenOk(rs: seq<Report>, after: int, now: int): (out: Result<seq<Report>>)
    ensures out.Ok?
    ensures forall r | r in out.value :: r in rs && r.form == ANC && after < r.reported < now
  {
    Ok(ReportsBetween(rs, Forms([ANC]), after, now))
  }

  /** Every current ANC report post-dates the newest screening report, and every ANC
      report between it and now is current. */
  lemma CurrentANCReportsAfterScreening(rs: seq<Report>, now: int)
    ensures CurrentANCReports(rs, now).Ok? <==> exists r | r in rs :: IsReportValid(r) && r.form == PREGNANCY_SCREENING
    ensures CurrentANCReports(rs, now).Ok? ==>
      var pss := NewestReport(rs, Forms([PREGNANCY_SCREENING]), None, None).value;
      forall r | r in rs :: r in CurrentANCReports(rs, now).value <==> r.form == ANC && pss.reported < r.reported < now
  {
    NewestReportIsNewest(rs, Forms([PREGNANCY_SCREENING]), None, None);
  }
}
