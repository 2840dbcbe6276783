/** What `getContext` promises about its stages: a life event stops everything, a
    child under two gets the U2 keys only, an active ANC enrolment returns the ANC
    context before the delivery block, the PNC flags follow the postpartum days, the
    delivery-date fallback reads the right screening report, and the only exception a
    person with a screening report can meet is the invalid-date one. */
module ContextProperties {
  import opened JsValues
  import opened Reports
  import opened SummaryQueries
  import opened SummaryContext
  import opened ContextStages
  import opened ContactSummary

  // ---------------------------------------------------------------------------
  // Stage precedence

  /** A valid death or migration report makes the person inactive: the context is the
      headers plus `muted = false` and `active = false`, and nothing else. */
  lemma LifeEventStops(p: Person, rs: seq<Report>, host: Host, r: Report)
    requires p.contactType == PERSON_TYPE
    requires r in rs && IsReportValid(r) && r.form == DEATH_MIGRATION
    ensures ContextOf(p, rs, host) == Ok(Headers(PERSON_TYPE, rs, host)["muted" := Bool(false)]["active" := Bool(false)])
  {
    IsActiveIffNoLifeEvent(rs);
  }

  /** Without a life event, a person aged under two gets the U2 context on top of the
      status keys, and no later stage runs. */
  lemma UnderTwoGetsU2Only(p: Person, rs: seq<Report>, host: Host)
    requires p.contactType == PERSON_TYPE
    requires forall r | r in rs :: !(IsReportValid(r) && r.form == DEATH_MIGRATION)
    requires Below(AgeFromDOB(host, p.dob), 2)
    ensures ContextOf(p, rs, host) == Ok(U2Context(
      Headers(PERSON_TYPE, rs, host)["muted" := Bool(false)]["active" := Bool(true)]
        ["current_age" := AgeFromDOB(host, p.dob)]["eligible_u2" := Bool(true)],
      p.contactType, rs, host))
  {
    IsActiveIffNoLifeEvent(rs);
  }

  /** The entries the at-home branch has set when it asks whether ANC is active. */
  function AtHomeEntries(c: Entries, rs: seq<Report>, pss: Report, host: Host, active: bool): Entries {
    PSSContext(c, rs, host)
      ["lmp_days_calc" := GetField(Some(pss), "continue_pss.continue_pss_lmp_group.continue_pss_lmp_group_lmp_days_calc")]
      ["contraceptive_current" := GetField(Some(pss), "continue_pss.continue_pss_contraceptive_related.continue_pss_contraceptive_related_contraceptive_current")]
      ["anc_active" := Bool(active)]
  }

  /** An active ANC enrolment returns the ANC context of the screening entries: the
      post-delivery helper and the delivery block never run, and the result is no
      exception. */
  lemma ANCActiveReturnsANCContext(c: Entries, rs: seq<Report>, pss: Report, host: Host)
    requires AtHomeAndAgrees(pss)
    requires IsANCActive(rs) == Ok(true)
    requires FormatDeliveryDate(host, DeliveryDate(rs, pss, NewestReport(rs, Forms([POST_DELIVERY]), None, None))).Ok?
    ensures PregnancyContext(c, rs, pss, host) == ANCContext(AtHomeEntries(c, rs, pss, host, true), rs, host.now)
    ensures PregnancyContext(c, rs, pss, host).Ok?
  {
    assert NewestReport(rs, Forms([PREGNANCY_SCREENING]), None, None).Some?;
  }

  /** With a valid screening report `pss` that is the newest one, the only exception
      the rest of `getContext` can meet is the `RangeError` of a truthy delivery date
      that does not parse: `isANCActive` and `getCurrentANCReports` throw only without
      a screening report. */
  lemma PregnancyThrowsOnlyOnInvalidDate(c: Entries, rs: seq<Report>, pss: Report, host: Host)
    requires NewestReport(rs, Forms([PREGNANCY_SCREENING]), None, None) == Some(pss)
    ensures PregnancyContext(c, rs, pss, host).Thrown? <==>
      FormatDeliveryDate(host, DeliveryDate(rs, pss, NewestReport(rs, Forms([POST_DELIVERY]), None, None))).Thrown?
    ensures PregnancyContext(c, rs, pss, host).Thrown? ==>
      PregnancyContext(c, rs, pss, host).error == "RangeError: Invalid time value"
  {
    var pdf := NewestReport(rs, Forms([POST_DELIVERY]), None, None);
    var d := FormatDeliveryDate(host, DeliveryDate(rs, pss, pdf));
    if d.Ok? && AtHomeAndAgrees(pss) {
      AtHomeNeverThrows(PSSContext(c, rs, host), rs, pss, pdf, d.value, host);
    }
  }

  /** With a screening report, the at-home branch throws nothing. */
  lemma AtHomeNeverThrows(c: Entries, rs: seq<Report>, pss: Report, pdf: Option<Report>, d: Value, host: Host)
    requires NewestReport(rs, Forms([PREGNANCY_SCREENING]), None, None).Some?
    ensures AtHomeContext(c, rs, pss, pdf, d, host).Ok?
  {
    assert IsANCActive(rs).Ok?;
    assert CurrentANCReports(rs, host.now).Ok?;
    var c1 := c["lmp_days_calc" := GetField(Some(pss), "continue_pss.continue_pss_lmp_group.continue_pss_lmp_group_lmp_days_calc")]
               ["contraceptive_current" := GetField(Some(pss), "continue_pss.continue_pss_contraceptive_related.continue_pss_contraceptive_related_contraceptive_current")];
    var c2 := c1["anc_active" := Bool(IsANCActive(rs).value)];
    ScreeningPDFNeverThrows(c2, rs, pss, pdf, host.now);
  }

  /** With a screening report, the post-delivery helper throws nothing. */
  lemma ScreeningPDFNeverThrows(c: Entries, rs: seq<Report>, pss: Report, pdf: Option<Report>, now: int)
    requires NewestReport(rs, Forms([PREGNANCY_SCREENING]), None, None).Some?
    ensures ScreeningPDFContext(c, rs, pss, pdf, now).Ok?
  {
    if pdf.None? || pss.reported > pdf.value.reported {
      if GetField(Some(pss), "pdf_direct") == Str("1") {
        PDFNeverThrows(c, rs, false, now);
      } else if GetField(Some(pss), "anc") == Str("1") {
        PDFNeverThrows(c, rs, true, now);
      }
    }
  }

  /** With a screening report, `getPDFContext` throws nothing, with or without the ANC
      check. */
  lemma PDFNeverThrows(c: Entries, rs: seq<Report>, ancCheck: bool, now: int)
    requires NewestReport(rs, Forms([PREGNANCY_SCREENING]), None, None).Some?
    ensures PDFContext(c, rs, ancCheck, now).Ok?
  {
    var current := CurrentANCReports(rs, now);
    assert current.Ok?;
  }

  /** `getContext` throws exactly for a person who is active, aged two or more (or of
      unknown age), inside the programme, has a valid screening report, and whose
      delivery date is truthy but does not parse. */
  lemma ContextThrowsIff(p: Person, rs: seq<Report>, host: Host)
    ensures ContextOf(p, rs, host).Thrown? <==>
      var age := AgeFromDOB(host, p.dob);
      var pss := NewestReport(rs, Forms([PREGNANCY_SCREENING]), None, None);
      && p.contactType == PERSON_TYPE && IsActive(rs) && !Below(age, 2) && !OutsideProgramme(p, age)
      && pss.Some?
      && FormatDeliveryDate(host, DeliveryDate(rs, pss.value, NewestReport(rs, Forms([POST_DELIVERY]), None, None))).Thrown?
  {
    var pss := NewestReport(rs, Forms([PREGNANCY_SCREENING]), None, None);
    if pss.Some? {
      var age := AgeFromDOB(host, p.dob);
      var c := Headers(p.contactType, rs, host)["muted" := Bool(false)]["active" := Bool(IsActive(rs))]
        ["current_age" := age]["eligible_u2" := Bool(Below(age, 2))]
        ["has_initialized_ph" := Bool(IsInitializationComplete(p.contactType, rs, PREGNANCY_HISTORY, Some(PhConsented())))];
      PregnancyThrowsOnlyOnInvalidDate(c, rs, pss.value, host);
    }
  }

  // ---------------------------------------------------------------------------
  // The delivery block

  /** A step that keeps key `k`: present after exactly when present before, with the
      same value. */
  predicate Keeps(before: Entries, after: Entries, k: string) {
    && (k in after <==> k in before)
    && (k in before ==> after[k] == before[k])
  }

  /** A PNC helper keeps every key its table does not assign. */
  lemma PNCContextKeeps(c: Entries, rs: seq<Report>, t: Table, k: string)
    requires k != "pregnancy_status_update"
    requires forall i | 0 <= i < |t| :: t[i].0 != k
    ensures Keeps(c, PNCContext(c, rs, t), k)
  {
    var c1 := c["pregnancy_status_update" := GetField(NewestReport(rs, Forms([PREGNANCY_SCREENING]), None, None), "pregnancy_status_update")];
    FillFacts(c1, t, FieldReader(MostRecentUnskippedReport(rs, PNC)));
    forall e | e in t
      ensures e.0 != k
    {
      var i :| 0 <= i < |t| && t[i] == e;
    }
  }

  /** Neither PNC table assigns the flags or the delivery keys. */
  lemma PNCTablesAvoidFlags(k: string)
    requires k in {"delivery_date_pdf", "pp_days", "pnc1", "pnc2"}
    ensures forall i | 0 <= i < |PNC1_FIELDS| :: PNC1_FIELDS[i].0 != k
    ensures forall i | 0 <= i < |PNC2_FIELDS| :: PNC2_FIELDS[i].0 != k
  {
  }

  /** The PNC stage keeps the flags and the delivery keys. */
  lemma PNCStageKeeps(c: Entries, rs: seq<Report>, pdf: Option<Report>, pp: Value, pnc1: Value, pnc2: Value, k: string)
    requires k in {"delivery_date_pdf", "pp_days", "pnc1", "pnc2"}
    ensures Keeps(c, PNCStage(c, rs, pdf, pp, pnc1, pnc2), k)
  {
    PNCTablesAvoidFlags(k);
    PNCContextKeeps(c, rs, PNC1_FIELDS, k);
    PNCContextKeeps(c, rs, PNC2_FIELDS, k);
  }

  /** For a truthy delivery date the delivery block records the date and the
      postpartum days, and `pnc1 = '1'` exactly when the days are below 365 and the
      post-delivery report's `status_pnc1` is `'1'` (`pnc2`: below 60 and
      `status_pnc2`); the contraceptive and PNC keys set after them leave them as
      they are. A date that does not parse gives NaN days, so both flags are `'0'`. */
  lemma PncFlags(c: Entries, rs: seq<Report>, pss: Report, pdf: Option<Report>, d: Value, host: Host, out: Entries)
    requires Truthy(d)
    requires out == PostDeliveryContext(c, rs, pss, pdf, d, host)
    ensures "delivery_date_pdf" in out && out["delivery_date_pdf"] == d
    ensures "pp_days" in out && out["pp_days"] == PostpartumDays(host, d)
    ensures "pnc1" in out && "pnc2" in out
    ensures out["pnc1"] == Str("1") <==> Below(PostpartumDays(host, d), 365) && GetField(pdf, "status_pnc1") == Str("1")
    ensures out["pnc2"] == Str("1") <==> Below(PostpartumDays(host, d), 60) && GetField(pdf, "status_pnc2") == Str("1")
    ensures host.parseDate(d).None? ==> out["pnc1"] == Str("0") && out["pnc2"] == Str("0")
  {
    var pp := PostpartumDays(host, d);
    var pnc1 := PncFlag(pp, 365, GetField(pdf, "status_pnc1"));
    var pnc2 := PncFlag(pp, 60, GetField(pdf, "status_pnc2"));
    var c1 := c["delivery_date_pdf" := d]["pp_days" := pp]["pnc1" := pnc1]["pnc2" := pnc2];
    FlagsKept(c1, rs, pss, pdf, pp, pnc1, pnc2, "delivery_date_pdf");
    FlagsKept(c1, rs, pss, pdf, pp, pnc1, pnc2, "pp_days");
    FlagsKept(c1, rs, pss, pdf, pp, pnc1, pnc2, "pnc1");
    FlagsKept(c1, rs, pss, pdf, pp, pnc1, pnc2, "pnc2");
    if host.parseDate(d).None? {
      assert pp == NaN && ToNumber(pp) == NaN;
    }
  }

  /** The contraceptive overrides and the PNC stage keep the flags and the delivery
      keys. */
  lemma FlagsKept(c: Entries, rs: seq<Report>, pss: Report, pdf: Option<Report>, pp: Value, pnc1: Value, pnc2: Value, k: string)
    requires k in {"delivery_date_pdf", "pp_days", "pnc1", "pnc2"}
    ensures Keeps(c, PNCStage(Contraceptives(c, rs, pss, pnc1, pnc2), rs, pdf, pp, pnc1, pnc2), k)
  {
    var c2 := Contraceptives(c, rs, pss, pnc1, pnc2);
    assert Keeps(c, c2, k);
    PNCStageKeeps(c2, rs, pdf, pp, pnc1, pnc2, k);
  }

  /** The screening report the delivery-date fallback reads is a valid screening
      report with `pdf_direct = '1'`, not dated after a post-delivery report with a
      non-zero date, and dated no earlier than any other such report; there is none
      exactly when no report has all of these properties. */
  lemma DirectDeliveryScreeningIs(rs: seq<Report>, pdf: Option<Report>)
    ensures DirectDeliveryScreening(rs, pdf).None? <==>
      forall r | r in rs :: !(IsReportValid(r) && r.form == PREGNANCY_SCREENING
        && GetField(Some(r), "pdf_direct") == Str("1")
        && !(pdf.Some? && pdf.value.reported != 0 && pdf.value.reported < r.reported))
    ensures DirectDeliveryScreening(rs, pdf).Some? ==>
      var s := DirectDeliveryScreening(rs, pdf).value;
      && s in rs && IsReportValid(s) && s.form == PREGNANCY_SCREENING
      && GetField(Some(s), "pdf_direct") == Str("1")
      && !(pdf.Some? && pdf.value.reported != 0 && pdf.value.reported < s.reported)
  {
    NewestReportIsNewest(rs, Forms([PREGNANCY_SCREENING]), if pdf.Some? then Some(pdf.value.reported) else None, Some(NotDirectDelivery()));
  }

  /** The fallback order of the delivery date: a truthy date on the post-delivery
      report wins; otherwise the fallback screening report's date when it is truthy;
      otherwise the EDD of the newest unskipped ANC report newer than `pss`. */
  lemma DeliveryDateOrder(rs: seq<Report>, pss: Report, pdf: Option<Report>)
    ensures pdf.Some? && Truthy(GetField(pdf, "post_delivery_assessment.delivery_date_pdf")) ==>
      DeliveryDate(rs, pss, pdf) == GetField(pdf, "post_delivery_assessment.delivery_date_pdf")
    ensures (&& !Truthy(GetField(pdf, "post_delivery_assessment.delivery_date_pdf"))
             && DirectDeliveryScreening(rs, pdf).Some?
             && Truthy(GetField(DirectDeliveryScreening(rs, pdf), "standard.standard_delivery_date_pdf"))) ==>
      DeliveryDate(rs, pss, pdf) == GetField(DirectDeliveryScreening(rs, pdf), "standard.standard_delivery_date_pdf")
    ensures (&& !Truthy(RecordedDeliveryDate(rs, pdf))
             && MostRecentUnskippedReport(rs, ANC).Some?
             && MostRecentUnskippedReport(rs, ANC).value.reported > pss.reported) ==>
      DeliveryDate(rs, pss, pdf) == GetField(MostRecentUnskippedReport(rs, ANC), "lmp_group.lmp_group_edd")
  {
  }

  // ---------------------------------------------------------------------------
  // The dose keys

  /** `getFieldOnce(ancReports, path, condition)` called without its form argument:
      the path stands where the form belongs and the condition where the path belongs.
      The first valid report whose form equals the path would make `getField` call
      `split` on a function and throw; no other report is looked at, so without such a
      report the value is undefined. */
  function FieldOnceWithoutForm(rs: seq<Report>, path: string): (v: Result<Value>)
    ensures v.Thrown? <==> exists r | r in rs :: IsReportValid(r) && r.form == path
    ensures v.Ok? ==> v.value == Undefined
    decreases |rs|
  {
    if rs == [] then Ok(Undefined)
    else if IsReportValid(rs[0]) && rs[0].form == path then Thrown("TypeError: fieldPath.split is not a function")
    else FieldOnceWithoutForm(rs[1..], path)
  }

  /** Over the current ANC reports, which are all of the ANC form, the mis-called
      `getFieldOnce` never throws and always gives undefined, which is what the ANC
      context stores under each dose key. */
  lemma DoseKeysAreUndefined(rs: seq<Report>, now: int)
    requires CurrentANCReports(rs, now).Ok?
    ensures forall i | 0 <= i < |ANC_DOSE_FIELDS| ::
      FieldOnceWithoutForm(CurrentANCReports(rs, now).value, ANC_DOSE_FIELDS[i].1) == Ok(NoValue()(ANC_DOSE_FIELDS[i].1))
  {
    var anc := CurrentANCReports(rs, now).value;
    forall i | 0 <= i < |ANC_DOSE_FIELDS|
      ensures FieldOnceWithoutForm(anc, ANC_DOSE_FIELDS[i].1) == Ok(Undefined)
    {
      assert ANC_DOSE_FIELDS[i].1 != ANC;
    }
  }
}
