/** `getContext` and the `get*Context` helpers of contact-summary-extras.js: the
    case variables the contact summary hands to the forms. The source fills one
    `context` object field by field; here that object is the `Context` class, each
    helper is a method that changes it, and each method is proved to leave exactly the
    entries a pure function of the old entries describes. Runs of assignments that read
    one report (or one scan) per key are written as (key, field path) tables, copied
    verbatim from the source, and applied in order. */
module SummaryContext {
  import opened JsValues
  import opened Reports
  import opened SummaryQueries

  type Entries = map<string, Value>

  /** (context key, field path) pairs, assigned in order. */
  type Table = seq<(string, string)>

  /** The `context` object the helpers share and update in place. */
  class Context {
    var entries: Entries

    constructor ()
      ensures entries == map[]
    {
      entries := map[];
    }

    /** `context[key] = v`. */
    method Set(key: string, v: Value)
      modifies this
      ensures entries == old(entries)[key := v]
    {
      entries := entries[key := v];
    }

    /** `Object.assign(context, m)`: the entries of `m` win. */
    method Assign(m: Entries)
      modifies this
      ensures entries == old(entries) + m
    {
      entries := entries + m;
    }
  }

  // ---------------------------------------------------------------------------
  // Assigning a table of keys

  function KeysOf(t: Table): (keys: set<string>)
    ensures forall i | 0 <= i < |t| :: t[i].0 in keys
  {
    set e | e in t :: e.0
  }

  /** Entry `i` of the table is the last one to write its key. */
  predicate LastWrite(t: Table, i: int)
    requires 0 <= i < |t|
  {
    forall j | i < j < |t| :: t[j].0 != t[i].0
  }

  /** `out` is `c` after `context[key] = read(path)` for every pair of the table, in
      order: exactly the table's keys are added, every other entry is kept, and each
      key holds what its last pair read. */
  predicate Fills(c: Entries, t: Table, read: string -> Value, out: Entries) {
    && out.Keys == c.Keys + KeysOf(t)
    && (forall k | k in c && k !in KeysOf(t) :: out[k] == c[k])
    && (forall i | 0 <= i < |t| && LastWrite(t, i) :: out[t[i].0] == read(t[i].1))
  }

  /** `context[key] = read(path)` for every pair of the table, in order. */
  function Fill(c: Entries, t: Table, read: string -> Value): Entries
    decreases |t|
  {
    if t == [] then c
    else Fill(c, t[..|t| - 1], read)[t[|t| - 1].0 := read(t[|t| - 1].1)]
  }

  /** What a run of assignments does: exactly the table's keys are added, every other
      entry is kept, and each key holds what its last pair read. */
  lemma {:induction false} FillFacts(c: Entries, t: Table, read: string -> Value)
    ensures Fills(c, t, read, Fill(c, t, read))
    decreases |t|
  {
    if t != [] {
      var init := t[..|t| - 1];
      FillFacts(c, init, read);
      assert t == init + [t[|t| - 1]];
      FillStep(c, init, t[|t| - 1], read, Fill(c, init, read));
    }
  }

  /** One more assignment extends what the earlier ones did. */
  lemma FillStep(c: Entries, init: Table, last: (string, string), read: string -> Value, prev: Entries)
    requires Fills(c, init, read, prev)
    ensures Fills(c, init + [last], read, prev[last.0 := read(last.1)])
  {
    var t := init + [last];
    assert KeysOf(t) == KeysOf(init) + {last.0} by {
      assert forall e :: e in t <==> e in init || e == last;
    }
    var out := prev[last.0 := read(last.1)];
    forall i | 0 <= i < |t| && LastWrite(t, i)
      ensures out[t[i].0] == read(t[i].1)
    {
      if i < |init| {
        assert t[i] == init[i];
        assert t[|init|] == last;
        forall j | i < j < |init|
          ensures init[j].0 != init[i].0
        {
          assert t[j] == init[j];
        }
        assert LastWrite(init, i);
      }
    }
  }

  function FieldReader(r: Option<Report>): string -> Value {
    path => GetField(r, path)
  }

  function RecentReader(rs: seq<Report>, form: string): string -> Value {
    path => FieldRecent(rs, form, path, NotEmptyOrUndefined)
  }

  function OnceReader(rs: seq<Report>, form: string, cond: Value -> bool): string -> Value {
    path => FieldOnce(rs, form, path, cond)
  }

  function NoValue(): string -> Value {
    path => Undefined
  }

  /** Assigns each key of the table the value `read` gives for its path. */
  method ApplyTable(ctx: Context, t: Table, read: string -> Value)
    modifies ctx
    ensures ctx.entries == Fill(old(ctx.entries), t, read)
  {
    for i := 0 to |t|
      invariant ctx.entries == Fill(old(ctx.entries), t[..i], read)
    {
      assert t[..i + 1][..i] == t[..i];
      ctx.Set(t[i].0, read(t[i].1));
    }
    assert t[..|t|] == t;
  }

  /** A run of `context.key = getField(report, path)`. */
  method ApplyFields(ctx: Context, t: Table, r: Option<Report>)
    modifies ctx
    ensures ctx.entries == Fill(old(ctx.entries), t, FieldReader(r))
  {
    for i := 0 to |t|
      invariant ctx.entries == Fill(old(ctx.entries), t[..i], FieldReader(r))
    {
      assert t[..i + 1][..i] == t[..i];
      ctx.Set(t[i].0, GetField(r, t[i].1));
    }
    assert t[..|t|] == t;
  }

  /** A run of `context.key = getFieldRecent(reports, form, path, checkNotEmptyOrUndefined)`. */
  method ApplyRecentFields(ctx: Context, t: Table, rs: seq<Report>, form: string)
    modifies ctx
    ensures ctx.entries == Fill(old(ctx.entries), t, RecentReader(rs, form))
  {
    for i := 0 to |t|
      invariant ctx.entries == Fill(old(ctx.entries), t[..i], RecentReader(rs, form))
    {
      assert t[..i + 1][..i] == t[..i];
      var v := GetFieldRecent(rs, form, t[i].1, NotEmptyOrUndefined);
      ctx.Set(t[i].0, v);
    }
    assert t[..|t|] == t;
  }

  /** A run of `context.key = getFieldOnce(reports, form, path, condition)`. */
  method ApplyOnceFields(ctx: Context, t: Table, rs: seq<Report>, form: string, cond: Value -> bool)
    modifies ctx
    ensures ctx.entries == Fill(old(ctx.entries), t, OnceReader(rs, form, cond))
  {
    for i := 0 to |t|
      invariant ctx.entries == Fill(old(ctx.entries), t[..i], OnceReader(rs, form, cond))
    {
      assert t[..i + 1][..i] == t[..i];
      var v := GetFieldOnce(rs, form, t[i].1, cond);
      ctx.Set(t[i].0, v);
    }
    assert t[..|t|] == t;
  }

  /** `mapContent(report, source)`: the report's fields under the keys of the content
      table for the source and the report's form. */
  function MapContent(host: Host, r: Report, source: string): (m: Entries)
    ensures m.Keys == KeysOf(host.contentMap(source, r.form))
  {
    FillFacts(map[], host.contentMap(source, r.form), FieldReader(Some(r)));
    Fill(map[], host.contentMap(source, r.form), FieldReader(Some(r)))
  }

  /** `Object.assign(context, mapContent(report, source))`. */
  method ApplyContent(ctx: Context, host: Host, r: Report, source: string)
    modifies ctx
    ensures ctx.entries == old(ctx.entries) + MapContent(host, r, source)
  {
    var content := new Context();
    ApplyFields(content, host.contentMap(source, r.form), Some(r));
    ctx.Assign(content.entries);
  }

  // ---------------------------------------------------------------------------
  // getCurrentANCVisits

  /** `anc_visit${i}<suffix>`, a context key. */
  function VisitKey(i: nat, suffix: string): string {
    "anc_visit" + NatToString(i) + suffix
  }

  /** `anc_record_visit${i}<suffix>`, a key inside a visit record group. */
  function RecordKey(i: nat, suffix: string): string {
    "anc_record_visit" + NatToString(i) + suffix
  }

  /** The record group of visit `i` in a report. */
  function VisitGroup(r: Report, i: nat): Value {
    GetField(Some(r), "anc_record.anc_record_visit" + NatToString(i))
  }

  /** The four keys visit `i` may set. */
  function SlotKeys(i: nat): set<string> {
    {VisitKey(i, "_type"), VisitKey(i, "_date_nepali"), VisitKey(i, "_month"), VisitKey(i, "_complete")}
  }

  /** What one report does to the context for visit `i`: with a record group, a
      non-empty visit type sets type, Nepali date and month, and a non-empty completion
      flag sets `complete`. */
  function VisitUpdate(c: Entries, r: Report, i: nat): Entries {
    var group := VisitGroup(r, i);
    if group == Undefined then c
    else
      var kind := Lookup(group, RecordKey(i, "_anc_visit_type"));
      var c1 :=
        if NotEmptyOrUndefined(kind) then
          c[VisitKey(i, "_type") := kind]
           [VisitKey(i, "_date_nepali") := Lookup(group, RecordKey(i, "_anc_visit_date_nepali"))]
           [VisitKey(i, "_month") := Lookup(group, RecordKey(i, "_anc_visit_month"))]
        else c;
      var done := Lookup(group, RecordKey(i, "_anc_visit" + NatToString(i) + "_complete"));
      if NotEmptyOrUndefined(done) then c1[VisitKey(i, "_complete") := done] else c1
  }

  /** The inner `forEach` for visit `i`, report by report. */
  function SlotVisits(c: Entries, rs: seq<Report>, i: nat): Entries {
    if rs == [] then c else VisitUpdate(SlotVisits(c, rs[..|rs| - 1], i), rs[|rs| - 1], i)
  }

  /** The outer loop over visits 1 to `n`. */
  function ANCVisits(c: Entries, rs: seq<Report>, n: nat): Entries {
    if n == 0 then c else SlotVisits(ANCVisits(c, rs, n - 1), rs, n)
  }

  /** `getCurrentANCVisits(ancReports, context)`, visits 1 to `ANC_COUNT`. */
  method ApplyCurrentANCVisits(ctx: Context, ancReports: seq<Report>)
    modifies ctx
    ensures ctx.entries == ANCVisits(old(ctx.entries), ancReports, ANC_COUNT)
  {
    for i := 1 to ANC_COUNT + 1
      invariant ctx.entries == ANCVisits(old(ctx.entries), ancReports, i - 1)
    {
      for j := 0 to |ancReports|
        invariant ctx.entries == SlotVisits(ANCVisits(old(ctx.entries), ancReports, i - 1), ancReports[..j], i)
      {
        assert ancReports[..j + 1][..j] == ancReports[..j];
        var recordGroup := GetField(Some(ancReports[j]), "anc_record.anc_record_visit" + NatToString(i));
        if recordGroup != Undefined {
          var kind := Lookup(recordGroup, RecordKey(i, "_anc_visit_type"));
          if NotEmptyOrUndefined(kind) {
            ctx.Set(VisitKey(i, "_type"), kind);
            ctx.Set(VisitKey(i, "_date_nepali"), Lookup(recordGroup, RecordKey(i, "_anc_visit_date_nepali")));
            ctx.Set(VisitKey(i, "_month"), Lookup(recordGroup, RecordKey(i, "_anc_visit_month")));
          }
          var done := Lookup(recordGroup, RecordKey(i, "_anc_visit" + NatToString(i) + "_complete"));
          if NotEmptyOrUndefined(done) {
            ctx.Set(VisitKey(i, "_complete"), done);
          }
        }
      }
      assert ancReports[..|ancReports|] == ancReports;
    }
  }

  /** Digit text followed by `_...` never equals other digit text followed by `_...`. */
  lemma DigitsThenUnderscore(a: string, s1: string, b: string, s2: string)
    requires AllDigits(a, 10) && AllDigits(b, 10) && a != b
    requires |s1| > 0 && s1[0] == '_' && |s2| > 0 && s2[0] == '_'
    ensures a + s1 != b + s2
  {
    assert DigitValue('_', 10) < 0;
    if |a| < |b| {
      assert (a + s1)[|a|] == '_' && (b + s2)[|a|] == b[|a|];
    } else if |b| < |a| {
      assert (b + s2)[|b|] == '_' && (a + s1)[|b|] == a[|b|];
    } else {
      assert (a + s1)[..|a|] == a && (b + s2)[..|b|] == b;
    }
  }

  /** Keys of different visits never collide, so no visit overwrites another:
      `anc_visit1_type` and `anc_visit10_type` differ even though one name starts the
      other. */
  lemma VisitKeysApart(i: nat, j: nat, s1: string, s2: string)
    requires i != j
    requires |s1| > 0 && s1[0] == '_' && |s2| > 0 && s2[0] == '_'
    ensures VisitKey(i, s1) != VisitKey(j, s2)
  {
    var a, b := NatToString(i), NatToString(j);
    DigitsValueOfNatToString(i);
    DigitsValueOfNatToString(j);
    DigitsThenUnderscore(a, s1, b, s2);
    var p := "anc_visit";
    assert VisitKey(i, s1)[|p|..] == a + s1;
    assert VisitKey(j, s2)[|p|..] == b + s2;
  }

  lemma {:induction false} SlotVisitsFrame(c: Entries, rs: seq<Report>, i: nat, k: string)
    requires k !in SlotKeys(i)
    ensures (k in SlotVisits(c, rs, i)) == (k in c)
    ensures k in c ==> SlotVisits(c, rs, i)[k] == c[k]
  {
    if rs != [] {
      SlotVisitsFrame(c, rs[..|rs| - 1], i, k);
    }
  }

  /** `getCurrentANCVisits` touches only the visit keys: any other key is present and
      holds its value exactly as before. */
  lemma {:induction false} ANCVisitsFrame(c: Entries, rs: seq<Report>, n: nat, k: string)
    requires forall i | 1 <= i <= n :: k !in SlotKeys(i)
    ensures (k in ANCVisits(c, rs, n)) == (k in c)
    ensures k in c ==> ANCVisits(c, rs, n)[k] == c[k]
  {
    if n > 0 {
      ANCVisitsFrame(c, rs, n - 1, k);
      SlotVisitsFrame(ANCVisits(c, rs, n - 1), rs, n, k);
    }
  }

  /** When the last report has a non-empty type for visit `i`, the context shows that
      type after all visits are processed: later reports win, and later visits do not
      write visit `i`'s keys. */
  lemma {:induction false} ANCVisitLastWins(c: Entries, rs: seq<Report>, i: nat, n: nat)
    requires 1 <= i <= n && rs != []
    requires VisitGroup(rs[|rs| - 1], i) != Undefined
    requires NotEmptyOrUndefined(Lookup(VisitGroup(rs[|rs| - 1], i), RecordKey(i, "_anc_visit_type")))
    ensures VisitKey(i, "_type") in ANCVisits(c, rs, n)
    ensures ANCVisits(c, rs, n)[VisitKey(i, "_type")] == Lookup(VisitGroup(rs[|rs| - 1], i), RecordKey(i, "_anc_visit_type"))
    decreases n
  {
    var k := VisitKey(i, "_type");
    if n == i {
      assert |VisitKey(i, "_complete")| != |k|;
    } else {
      ANCVisitLastWins(c, rs, i, n - 1);
      VisitKeysApart(i, n, "_type", "_type");
      VisitKeysApart(i, n, "_type", "_date_nepali");
      VisitKeysApart(i, n, "_type", "_month");
      VisitKeysApart(i, n, "_type", "_complete");
      SlotVisitsFrame(ANCVisits(c, rs, n - 1), rs, n, k);
    }
  }

  // ---------------------------------------------------------------------------
  // The EPDS and PSUPP blocks at the head of `getContext`

  const PERSON_TYPE := "c82_person"
  const WARD_TYPE := "c52_ward_contact"
  const MAX_SAFE_INTEGER := 9007199254740991

  function MinNat(a: nat, b: nat): nat {
    if a <= b then a else b
  }

  function FormIs(name: string): Report -> bool {
    (r: Report) => r.form == name
  }

  /** No report passes a filter nothing meets. */
  lemma FilterNothing(rs: seq<Report>, p: Report -> bool)
    requires forall r | r in rs :: !p(r)
    ensures |Filter(rs, p)| == 0
  {
    var f := Filter(rs, p);
    assert forall i | 0 <= i < |f| :: f[i] in f;
  }

  /** Some report (valid or not) is an ANC, post-delivery or EPDS screening report. */
  predicate HasBecomeRecord(rs: seq<Report>) {
    exists r | r in rs :: r.form in [ANC, POST_DELIVERY, EPDS_SCREENING]
  }

  /** The `totalForms` closure of the EPDS block. */
  function ModuleTotal(rs: seq<Report>, formName: string): Value {
    if NewestReport(rs, Forms([EPDS_SCREENING]), None, None).None? then Null
    else
      var n := |Filter(rs, FormIs(formName))|;
      if n == 0 then Num(1) else Num(MinNat(n + 1, MAX_SAFE_INTEGER))
  }

  /** A module total is null exactly when there is no valid EPDS screening; otherwise
      it is one more than the number of reports of the module's form (capped at the
      largest safe integer), so at least 1. */
  lemma ModuleTotalCounts(rs: seq<Report>, formName: string)
    ensures ModuleTotal(rs, formName) == Null <==> forall r | r in rs :: !(IsReportValid(r) && r.form == EPDS_SCREENING)
    ensures ModuleTotal(rs, formName) != Null ==>
      && ModuleTotal(rs, formName) == Num(MinNat(|Filter(rs, FormIs(formName))| + 1, MAX_SAFE_INTEGER))
      && ModuleTotal(rs, formName).n >= 1
    ensures ModuleTotal(rs, formName) != Null && (forall r | r in rs :: r.form != formName) ==> ModuleTotal(rs, formName) == Num(1)
  {
    NewestReportIsNewest(rs, Forms([EPDS_SCREENING]), None, None);
    if forall r | r in rs :: r.form != formName {
      FilterNothing(rs, FormIs(formName));
    }
  }

  /** The EPDS block: module totals, the screening's eligibility and status, and the
      dates of the newest post-delivery and ANC reports. The three newest-report calls
      pass one form name as a string, so any report whose form name is a piece of it
      counts. */
  function EpdsHeader(c: Entries, rs: seq<Report>, host: Host): Entries {
    var anc := NewestReport(rs, FormText(ANC), None, None);
    var pdf := NewestReport(rs, FormText(POST_DELIVERY), None, None);
    var epds := NewestReport(rs, FormText(EPDS_SCREENING), None, None);
    var formatted := Str(host.convertToISO(GetField(pdf, "delivery_date_pdf_ctx")));
    c["totalforms1" := ModuleTotal(rs, "epds_module_1")]
     ["totalforms2" := ModuleTotal(rs, "epds_module_2")]
     ["totalforms3" := ModuleTotal(rs, "epds_module_3")]
     ["totalforms4" := ModuleTotal(rs, "epds_module_4")]
     ["totalforms5" := ModuleTotal(rs, "epds_module_5")]
     ["eligibility" := GetField(epds, "epds.postnatal_d_screen.fln_elig")]
     ["women_status_ctx" := GetField(epds, "epds.screening.curr_sts")]
     ["formated_date" := formatted]
     ["delivery_date" := formatted]
     ["updated_dd" := GetField(pdf, "post_delivery_assessment.delivery_date_pdf")]
     ["latestlmp" := GetField(anc, "lmp_group.lmp_group_lmp")]
  }

  method ApplyEpdsHeader(ctx: Context, rs: seq<Report>, host: Host)
    modifies ctx
    ensures ctx.entries == EpdsHeader(old(ctx.entries), rs, host)
  {
    var anc := GetNewestReport(rs, FormText(ANC), None, None);
    var pdf := GetNewestReport(rs, FormText(POST_DELIVERY), None, None);
    var updatedDeliveryDate := GetField(pdf, "post_delivery_assessment.delivery_date_pdf");
    var latestLmp := GetField(anc, "lmp_group.lmp_group_lmp");
    var deliveryDate := GetField(pdf, "delivery_date_pdf_ctx");
    var epds := GetNewestReport(rs, FormText(EPDS_SCREENING), None, None);
    ctx.Set("totalforms1", ModuleTotal(rs, "epds_module_1"));
    ctx.Set("totalforms2", ModuleTotal(rs, "epds_module_2"));
    ctx.Set("totalforms3", ModuleTotal(rs, "epds_module_3"));
    ctx.Set("totalforms4", ModuleTotal(rs, "epds_module_4"));
    ctx.Set("totalforms5", ModuleTotal(rs, "epds_module_5"));
    var formatted := Str(host.convertToISO(deliveryDate));
    ctx.Set("eligibility", GetField(epds, "epds.postnatal_d_screen.fln_elig"));
    ctx.Set("women_status_ctx", GetField(epds, "epds.screening.curr_sts"));
    ctx.Set("formated_date", formatted);
    ctx.Set("delivery_date", formatted);
    ctx.Set("updated_dd", updatedDeliveryDate);
    ctx.Set("latestlmp", latestLmp);
  }

  /** Some report (valid or not) is a PSUPP screening. */
  predicate HasPsuppRecord(rs: seq<Report>) {
    exists r | r in rs :: r.form in [PSUPP]
  }

  /** `formCapMap[formName] || 5`; `None` is the undefined bi-weekly form name. */
  function PsuppCap(formName: Option<string>): nat {
    if formName == Some(PSUPP_HOME_VISIT) then 5
    else if formName == Some(PSUPP_WEEKLY_VISIT) then 4
    else if formName == Some(PSUPP) then 1
    else 5
  }

  function LaterOfForm(formName: Option<string>, after: int): Report -> bool {
    (r: Report) => formName == Some(r.form) && r.reported > after
  }

  /** The `totalForms` closure of the PSUPP block. */
  function PsuppVisit(rs: seq<Report>, latest: Option<Report>, formName: Option<string>): Value {
    if latest.None? then Null
    else
      var count := |Filter(rs, LaterOfForm(formName, latest.value.reported))|;
      Str("visit_" + NatToString(MinNat(count + 1, PsuppCap(formName))))
  }

  /** Without a PSUPP screening the counter is null; otherwise it reads `visit_k` with
      k between 1 and the form's cap. The bi-weekly form name is undefined, so no
      report matches it and its counter is always `visit_1`. */
  lemma PsuppVisitRange(rs: seq<Report>, latest: Option<Report>, formName: Option<string>)
    ensures latest.None? <==> PsuppVisit(rs, latest, formName) == Null
    ensures latest.Some? ==> exists k: nat | 1 <= k <= PsuppCap(formName) :: PsuppVisit(rs, latest, formName) == Str("visit_" + NatToString(k))
    ensures latest.Some? && formName.None? ==> PsuppVisit(rs, latest, formName) == Str("visit_1")
  {
    if latest.Some? {
      var count := |Filter(rs, LaterOfForm(formName, latest.value.reported))|;
      var k := MinNat(count + 1, PsuppCap(formName));
      assert PsuppVisit(rs, latest, formName) == Str("visit_" + NatToString(k));
      if formName.None? {
        FilterNothing(rs, LaterOfForm(formName, latest.value.reported));
        assert NatToString(1) == "1";
      }
    }
  }

  /** The PSUPP block: home, weekly and bi-weekly visit counters since the newest PSUPP
      screening, found through a string form argument. */
  function PsuppHeader(c: Entries, rs: seq<Report>): Entries {
    var latest := NewestReport(rs, FormText(PSUPP), None, None);
    c["home_visit" := PsuppVisit(rs, latest, Some(PSUPP_HOME_VISIT))]
     ["weekly_visit" := PsuppVisit(rs, latest, Some(PSUPP_WEEKLY_VISIT))]
     ["biweekly_visit" := PsuppVisit(rs, latest, None)]
  }

  method ApplyPsuppHeader(ctx: Context, rs: seq<Report>)
    modifies ctx
    ensures ctx.entries == PsuppHeader(old(ctx.entries), rs)
  {
    var latest := GetNewestReport(rs, FormText(PSUPP), None, None);
    var home := PsuppVisit(rs, latest, Some(PSUPP_HOME_VISIT));
    var weekly := PsuppVisit(rs, latest, Some(PSUPP_WEEKLY_VISIT));
    var biweekly := PsuppVisit(rs, latest, None);
    ctx.Set("home_visit", home);
    ctx.Set("weekly_visit", weekly);
    ctx.Set("biweekly_visit", biweekly);
  }

  // ---------------------------------------------------------------------------
  // Ward stock

  const STOCK_IN_FIELDS: seq<string> := [
    "initial_stock.initial_stock_zinc10mg",
    "initial_stock.initial_stock_zinc20mg",
    "initial_stock.initial_stock_ors",
    "initial_stock.initial_stock_condoms_hp",
    "initial_stock.initial_stock_condoms_phc",
    "initial_stock.initial_stock_total_condoms",
    "initial_stock.initial_stock_UPT_kits"
  ]

  /** The `initial_*` keys and the aggregate field each copies. */
  const STOCK_INITIAL: Table := [
    ("initial_zinc10mg", "initial_stock.initial_stock_zinc10mg"),
    ("initial_zinc20mg", "initial_stock.initial_stock_zinc20mg"),
    ("initial_ors", "initial_stock.initial_stock_ors"),
    ("initial_condoms_hp", "initial_stock.initial_stock_condoms_hp"),
    ("initial_condoms_phc", "initial_stock.initial_stock_condoms_phc"),
    ("initial_total_condoms", "initial_stock.initial_stock_total_condoms"),
    ("initial_upt_kits", "initial_stock.initial_stock_UPT_kits")
  ]

  /** The `available_*` keys and the aggregate field each starts from. */
  const STOCK_AVAILABLE: Table := [
    ("available_zinc_10mg", "initial_stock.initial_stock_zinc10mg"),
    ("available_zinc_20mg", "initial_stock.initial_stock_zinc20mg"),
    ("available_ors", "initial_stock.initial_stock_ors"),
    ("available_condom", "initial_stock.initial_stock_total_condoms"),
    ("available_upt_kit", "initial_stock.initial_stock_UPT_kits")
  ]

  /** The stock-out field whose remainder is added to an aggregate field. */
  function Remainder(field: string): string {
    if field == "initial_stock.initial_stock_zinc10mg" then "remaining_zinc_10mg"
    else if field == "initial_stock.initial_stock_zinc20mg" then "remaining_zinc_20mg"
    else if field == "initial_stock.initial_stock_ors" then "remaining_ors"
    else if field == "initial_stock.initial_stock_total_condoms" then "remaining_condom"
    else "remaining_upt_kit"
  }

  /** `latestStockIn[field]`. */
  function AggValue(agg: Entries): string -> Value {
    f => if f in agg then agg[f] else Undefined
  }

  /** The `available_*` value of a field: the aggregate plus the stock-out remainder
      when there is a stock-out report, the aggregate alone otherwise. */
  function AvailableValue(agg: Entries, out: Option<Report>): string -> Value {
    f => if out.Some? then AddNumbers(AggValue(agg)(f), GetIntegerField(out, Remainder(f))) else AggValue(agg)(f)
  }

  /** The ward branch of `getContext`: stock-in totals since the newest stock-out,
      plus that stock-out's remainders. The aggregate always exists (the list passed is
      never undefined), so the fallback to the newest stock-in and the `{}` result are
      dead; the comparison with the aggregate's missing `reported_date` is always false,
      so the stock-out's own content is never copied. */
  function StockContext(rs: seq<Report>, now: int): Entries {
    StockEntries(StockIns(rs, now), StockOut(rs), STOCK_IN_FIELDS, STOCK_INITIAL, STOCK_AVAILABLE)
  }

  /** The newest stock-out report. */
  function StockOut(rs: seq<Report>): Option<Report> {
    NewestReport(rs, Forms([STOCK_OUT]), None, None)
  }

  /** The stock-in reports since the newest stock-out (since the epoch without one). */
  function StockIns(rs: seq<Report>, now: int): seq<Report> {
    var out := StockOut(rs);
    ReportsBetween(rs, Forms([STOCK_IN]), if out.Some? then out.value.reported else 0, now)
  }

  /** The stock keys computed from the stock-in reports to aggregate and the newest
      stock-out report. */
  function StockEntries(ins: seq<Report>, out: Option<Report>, fields: seq<string>, initialT: Table, availableT: Table): Entries {
    var agg := AggregatedReport(Some(ins), fields).value;
    Fill(Fill(map[], initialT, AggValue(agg)), availableT, AvailableValue(agg, out))
  }

  method ApplyStockContext(ctx: Context, rs: seq<Report>, now: int)
    modifies ctx
    ensures ctx.entries == StockContext(rs, now)
  {
    var out := GetNewestReport(rs, Forms([STOCK_OUT]), None, None);
    var since := if out.Some? then out.value.reported else 0;
    var agg := GetAggregatedReport(Some(ReportsBetween(rs, Forms([STOCK_IN]), since, now)), STOCK_IN_FIELDS);
    var totals := agg.value;
    ctx.entries := map[];
    ApplyTable(ctx, STOCK_INITIAL, AggValue(totals));
    ApplyTable(ctx, STOCK_AVAILABLE, AvailableValue(totals, out));
  }

  /** The stock arithmetic for any tables shaped like the ward's. */
  lemma StockFill(ins: seq<Report>, fields: seq<string>, initialT: Table, availableT: Table, out: Option<Report>)
    requires Distinct(fields)
    requires forall i | 0 <= i < |initialT| :: LastWrite(initialT, i) && initialT[i].1 in fields
    requires forall i | 0 <= i < |availableT| :: LastWrite(availableT, i) && availableT[i].1 in fields
    requires forall i | 0 <= i < |initialT| :: initialT[i].0 !in KeysOf(availableT)
    ensures StockEntries(ins, out, fields, initialT, availableT).Keys == KeysOf(initialT) + KeysOf(availableT)
    ensures forall i | 0 <= i < |initialT| ::
      StockEntries(ins, out, fields, initialT, availableT)[initialT[i].0] == SumField(ins, initialT[i].1)
    ensures forall i | 0 <= i < |availableT| ::
      StockEntries(ins, out, fields, initialT, availableT)[availableT[i].0] ==
        if out.Some? then AddNumbers(SumField(ins, availableT[i].1), GetIntegerField(out, Remainder(availableT[i].1)))
        else SumField(ins, availableT[i].1)
  {
    AggregatedReportSums(Some(ins), fields);
    var agg := AggregatedReport(Some(ins), fields).value;
    var first := Fill(map[], initialT, AggValue(agg));
    FillFacts(map[], initialT, AggValue(agg));
    FillFacts(first, availableT, AvailableValue(agg, out));
    var m := Fill(first, availableT, AvailableValue(agg, out));
    assert m == StockEntries(ins, out, fields, initialT, availableT);
    forall i | 0 <= i < |initialT|
      ensures m[initialT[i].0] == SumField(ins, initialT[i].1)
    {
      assert initialT[i].0 in first && initialT[i].0 !in KeysOf(availableT);
    }
    forall i | 0 <= i < |availableT|
      ensures m[availableT[i].0] == AvailableValue(agg, out)(availableT[i].1)
    {
    }
  }

  /** Each `initial_*` key holds the total of its field over the stock-in reports since
      the newest stock-out (all of them when there is none), and each `available_*`
      key that total plus the stock-out's remainder; a missing remainder makes it NaN. */
  lemma StockTotals(ins: seq<Report>, out: Option<Report>)
    ensures StockEntries(ins, out, STOCK_IN_FIELDS, STOCK_INITIAL, STOCK_AVAILABLE).Keys
      == KeysOf(STOCK_INITIAL) + KeysOf(STOCK_AVAILABLE)
    ensures forall i | 0 <= i < |STOCK_INITIAL| ::
      StockEntries(ins, out, STOCK_IN_FIELDS, STOCK_INITIAL, STOCK_AVAILABLE)[STOCK_INITIAL[i].0] == SumField(ins, STOCK_INITIAL[i].1)
    ensures forall i | 0 <= i < |STOCK_AVAILABLE| ::
      StockEntries(ins, out, STOCK_IN_FIELDS, STOCK_INITIAL, STOCK_AVAILABLE)[STOCK_AVAILABLE[i].0] ==
        if out.Some? then AddNumbers(SumField(ins, STOCK_AVAILABLE[i].1), GetIntegerField(out, Remainder(STOCK_AVAILABLE[i].1)))
        else SumField(ins, STOCK_AVAILABLE[i].1)
  {
    StockTablesWellFormed();
    StockFill(ins, STOCK_IN_FIELDS, STOCK_INITIAL, STOCK_AVAILABLE, out);
  }

  /** The stock tables write distinct keys, the two tables share none, and every field
      they read is aggregated. */
  lemma StockTablesWellFormed()
    ensures Distinct(STOCK_IN_FIELDS)
    ensures forall i | 0 <= i < |STOCK_INITIAL| :: LastWrite(STOCK_INITIAL, i) && STOCK_INITIAL[i].1 in STOCK_IN_FIELDS
    ensures forall i | 0 <= i < |STOCK_AVAILABLE| :: LastWrite(STOCK_AVAILABLE, i) && STOCK_AVAILABLE[i].1 in STOCK_IN_FIELDS
    ensures forall i | 0 <= i < |STOCK_INITIAL| :: STOCK_INITIAL[i].0 !in KeysOf(STOCK_AVAILABLE)
  {
  }
}
