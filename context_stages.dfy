/** The per-programme helpers of `getContext` in contact-summary-extras.js:
    `getPSSContext`, `getU2Context`, `getPDFContext`, `getPNC1Context`,
    `getPNC2Context` and `getANCContext`. Each is a function from the old context
    entries to the new ones and a method on `Context` proved to leave exactly those. */
module ContextStages {
  import opened JsValues
  import opened Reports
  import opened SummaryQueries
  import opened SummaryContext

  /** `Object.assign(context, mapContent(report, source))`; nothing happens without a
      report, and a missing source means the report's own form. */
  function WithContent(c: Entries, host: Host, r: Option<Report>, source: Option<string>): (out: Entries)
    ensures r.None? ==> out == c
    ensures r.Some? ==> out.Keys == c.Keys + KeysOf(host.contentMap(if source.Some? then source.value else r.value.form, r.value.form))
  {
    if r.None? then c
    else c + MapContent(host, r.value, if source.Some? then source.value else r.value.form)
  }

  method ApplyWithContent(ctx: Context, host: Host, r: Option<Report>, source: Option<string>)
    modifies ctx
    ensures ctx.entries == WithContent(old(ctx.entries), host, r, source)
  {
    if r.Some? {
      ApplyContent(ctx, host, r.value, if source.Some? then source.value else r.value.form);
    }
  }

  // ---------------------------------------------------------------------------
  // getPSSContext

  const PROCEDURE_DATE_GROUP := "continue_pss.continue_pss_contraceptive_related.continue_pss_contraceptive_related_procedure_dates.continue_pss_contraceptive_related_procedure_dates"

  /** Procedure and counselling dates: the newest non-empty value over the screening
      reports. */
  const PSS_RECENT_FIELDS: Table := [
    ("iud_date", PROCEDURE_DATE_GROUP + "_iud_date"),
    ("fem_steralize_date", PROCEDURE_DATE_GROUP + "_fem_steralize_date"),
    ("male_steralize_date", PROCEDURE_DATE_GROUP + "_male_steralize_date"),
    ("implant_date", PROCEDURE_DATE_GROUP + "_implant_date"),
    ("implant_date_second", PROCEDURE_DATE_GROUP + "_implant_date_second"),
    ("last_bcs_date", "balanced_counseling.balanced_counseling_bcs_form.balanced_counseling_bcs_form_last_bcs_date"),
    ("last_bcs_date_nepali", "balanced_counseling.balanced_counseling_bcs_form.balanced_counseling_bcs_form_last_bcs_date_nepali")
  ]

  /** The content of the newest unskipped report of each form in turn, every one mapped
      through the screening form's content tables. */
  function ScreeningContent(c: Entries, host: Host, rs: seq<Report>, forms: seq<string>): Entries {
    if forms == [] then c
    else
      var init := forms[..|forms| - 1];
      WithContent(ScreeningContent(c, host, rs, init), host, MostRecentUnskippedReport(rs, forms[|forms| - 1]), Some(PREGNANCY_SCREENING))
  }

  /** `getPSSContext(allReports, context)`. */
  function PSSContext(c: Entries, rs: seq<Report>, host: Host): Entries {
    var content := ScreeningContent(c, host, rs, [PREGNANCY_SCREENING, POST_DELIVERY]);
    Fill(content, PSS_RECENT_FIELDS, RecentReader(rs, PREGNANCY_SCREENING))
  }

  method ApplyPSSContext(ctx: Context, rs: seq<Report>, host: Host)
    modifies ctx
    ensures ctx.entries == PSSContext(old(ctx.entries), rs, host)
  {
    var forms := [PREGNANCY_SCREENING, POST_DELIVERY];
    for i := 0 to |forms|
      invariant ctx.entries == ScreeningContent(old(ctx.entries), host, rs, forms[..i])
    {
      assert forms[..i + 1][..i] == forms[..i];
      var latest := GetMostRecentUnskippedReport(rs, forms[i]);
      ApplyWithContent(ctx, host, latest, Some(PREGNANCY_SCREENING));
    }
    assert forms[..|forms|] == forms;
    ApplyRecentFields(ctx, PSS_RECENT_FIELDS, rs, PREGNANCY_SCREENING);
  }

  // ---------------------------------------------------------------------------
  // getU2Context

  const MUAC_GROUP := "group_assessment_agreeinservice.over_2_questions.over_2_questions_malnutrition_screening.over_2_questions_malnutrition_screening_muac_update.over_2_questions_malnutrition_screening_muac_update_muac_update"
  const MUAC_GROUP_OLD := "group_assessment_agreeinservice.over_2_questions.over_2_questions_malnutrition_screening.over_2_questions_malnutrition_screening_muac_update1.over_2_questions_malnutrition_screening_muac_update_muac_update"
  const OVER_2_GROUP := "group_assessment_agreeinservice.over_2_questions.over_2_questions"

  /** Supplement and deworming doses: the first `'yes'` over the U2 registry reports. */
  const U2_ONCE_FIELDS: Table := [
    ("vitamin_a_caps_once", OVER_2_GROUP + "_vitamin_a_caps_once"),
    ("vitamin_a_caps_twice", OVER_2_GROUP + "_vitamin_a_caps_twice"),
    ("vitamin_a_caps_thrice", OVER_2_GROUP + "_vitamin_a_caps_thrice"),
    ("anti_worm_tablet", OVER_2_GROUP + "_anti_worm_tablet"),
    ("anti_worm_tablet_twice", OVER_2_GROUP + "_anti_worm_tablet_twice")
  ]

  predicate IsYes(v: Value) {
    v == Str("yes")
  }

  /** The registry report was submitted fewer than 38 whole days before `now`. */
  function RegisteredWithin38Days(now: int): Report -> bool {
    (r: Report) => FloorDiv(now - r.reported, MS_IN_DAY) < 38
  }

  /** The MUAC reading: the newest non-empty one under the current group path, or
      else under the old one. */
  function MuacUpdate(rs: seq<Report>): Value {
    Or(FieldRecent(rs, U2_REGISTRY, MUAC_GROUP, NotEmptyOrUndefined),
       FieldRecent(rs, U2_REGISTRY, MUAC_GROUP_OLD, NotEmptyOrUndefined))
  }

  /** `getU2Context(thisContact, allReports, context)`. */
  function U2Context(c: Entries, contactType: string, rs: seq<Report>, host: Host): Entries {
    var initialised := IsInitializationComplete(contactType, rs, U2_REGISTRY, Some(RegisteredWithin38Days(host.now)));
    var c1 := c["has_initialized_u2" := Bool(initialised)];
    var c2 := WithContent(c1, host, MostRecentUnskippedReport(rs, U2_REGISTRY), None);
    var c3 := Fill(c2, U2_ONCE_FIELDS, OnceReader(rs, U2_REGISTRY, IsYes));
    c3["muac_update" := MuacUpdate(rs)]
  }

  method ApplyU2Context(ctx: Context, contactType: string, rs: seq<Report>, host: Host)
    modifies ctx
    ensures ctx.entries == U2Context(old(ctx.entries), contactType, rs, host)
  {
    ctx.Set("has_initialized_u2", Bool(IsInitializationComplete(contactType, rs, U2_REGISTRY, Some(RegisteredWithin38Days(host.now)))));
    var trigger := GetMostRecentUnskippedReport(rs, U2_REGISTRY);
    ApplyWithContent(ctx, host, trigger, None);
    ApplyOnceFields(ctx, U2_ONCE_FIELDS, rs, U2_REGISTRY, IsYes);
    var muac := GetFieldRecent(rs, U2_REGISTRY, MUAC_GROUP, NotEmptyOrUndefined);
    if !Truthy(muac) {
      muac := GetFieldRecent(rs, U2_REGISTRY, MUAC_GROUP_OLD, NotEmptyOrUndefined);
    }
    ctx.Set("muac_update", muac);
  }

  // ---------------------------------------------------------------------------
  // getPDFContext

  /** `getPDFContext(allReports, context, ancCheck)`: the newest screening's pregnancy
      status, and with the ANC check the current ANC visits and the newest current
      ANC report's high-risk flag. */
  function PDFContext(c: Entries, rs: seq<Report>, ancCheck: bool, now: int): Result<Entries> {
    var pss := NewestReport(rs, Forms([PREGNANCY_SCREENING]), None, None);
    var c1 := c["pregnancy_status" := GetField(pss, "standard_pregnancy.standard_pregnancy_status")]
               ["pregnancy_status_update" := GetField(pss, "pregnancy_status_update")];
    if !ancCheck then Ok(c1)
    else
      match CurrentANCReports(rs, now)
      case Thrown(e) => Thrown(e)
      case Ok(anc) =>
        var latest := NewestReport(anc, Forms([ANC]), None, None);
        Ok(ANCVisits(c1, anc, ANC_COUNT)["high_risk" := GetField(latest, "high_risk.high_risk_high_risk")])
  }

  method ApplyPDFContext(ctx: Context, rs: seq<Report>, ancCheck: bool, now: int) returns (outcome: Result<Entries>)
    modifies ctx
    ensures outcome == PDFContext(old(ctx.entries), rs, ancCheck, now)
    ensures outcome.Ok? ==> ctx.entries == outcome.value
  {
    var pss := GetNewestReport(rs, Forms([PREGNANCY_SCREENING]), None, None);
    ctx.Set("pregnancy_status", GetField(pss, "standard_pregnancy.standard_pregnancy_status"));
    ctx.Set("pregnancy_status_update", GetField(pss, "pregnancy_status_update"));
    if ancCheck {
      var current := CurrentANCReports(rs, now);
      if current.Thrown? {
        return Thrown(current.error);
      }
      var latest := GetNewestReport(current.value, Forms([ANC]), None, None);
      ApplyCurrentANCVisits(ctx, current.value);
      ctx.Set("high_risk", GetField(latest, "high_risk.high_risk_high_risk"));
    }
    outcome := Ok(ctx.entries);
  }

  // ---------------------------------------------------------------------------
  // getPNC1Context and getPNC2Context

  /** The PNC1 keys read from the newest unskipped PNC report. */
  const PNC1_FIELDS: Table := [
    ("visit_pnc1_month", "reporting_pnc1_visit_group_visit_pnc1_month"),
    ("counseling_month", "reporting_pnc1_counseling_group_counseling_month"),
    ("pp_6weeks_month", "reporting_pp_6weeks_group_pp_6weeks_month"),
    ("pp_6weeks_counsel_month", "reporting_pp_6weeks_counsel_pp_6weeks_counsel_month"),
    ("dangersign_referral_month", "reporting_pp_dangersign_referral_group_dangersign_referral_month"),
    ("dangersign_referral_followup_month", "reporting_pp_dangersign_referral_followup_group_dangersign_referral_followup_month"),
    ("close_form", "until_6_weeks_questions_close_form"),
    ("phq2_refer", "year_after_delivery_phq2_refer")
  ]
  /** The PNC2 keys, also read from the newest unskipped PNC report (not PNC2). */
  const PNC2_FIELDS: Table := [
    ("visit_pnc2_month", "reporting_pnc2_visit_group_visit_pnc2_month"),
    ("counseling_pnc2_month", "reporting_pnc2_counseling_group_counseling_month_pnc2"),
    ("pp_6weeks_month_pnc2", "reporting_pp_6weeks_group_pp_6weeks_month_pnc2"),
    ("pp_6weeks_counsel_month_pnc2", "reporting_pp_6weeks_counsel_pp_6weeks_counsel_month_pnc2"),
    ("dangersign_referral_month_pnc2", "reporting_pp_dangersign_referral_group_dangersign_referral_month_pnc2"),
    ("dangersign_referral_followup_month_pnc2", "reporting_pp_dangersign_referral_followup_group_dangersign_referral_followup_month_pnc2"),
    ("close_form", "until_6_weeks_questions_close_form"),
    ("phq2_refer", "year_after_delivery_phq2_refer")
  ]
  /** The shared shape of the two PNC helpers: the newest screening's pregnancy status
      update, then the table read from the newest unskipped PNC report. */
  function PNCContext(c: Entries, rs: seq<Report>, t: Table): Entries {
    var pss := NewestReport(rs, Forms([PREGNANCY_SCREENING]), None, None);
    var c1 := c["pregnancy_status_update" := GetField(pss, "pregnancy_status_update")];
    Fill(c1, t, FieldReader(MostRecentUnskippedReport(rs, PNC)))
  }

  method ApplyPNCContext(ctx: Context, rs: seq<Report>, t: Table)
    modifies ctx
    ensures ctx.entries == PNCContext(old(ctx.entries), rs, t)
  {
    var latestPNC := GetMostRecentUnskippedReport(rs, PNC);
    var pss := GetNewestReport(rs, Forms([PREGNANCY_SCREENING]), None, None);
    ctx.Set("pregnancy_status_update", GetField(pss, "pregnancy_status_update"));
    ApplyFields(ctx, t, latestPNC);
  }

  // ---------------------------------------------------------------------------
  // getANCContext

  /** Keys read from the newest unskipped current ANC report. */
  const ANC_LATEST_FIELDS: Table := [
    ("visit_anc_month", "reporting_anc_visit_group_visit_anc_month"),
    ("anc_visit_count_counter", "anc_visit_count_counter"),
    ("anc_visit_count", "visit_counts_anc_visit_count"),
    ("muac_counter_anc", "muac_measurement.muac_measurement_muac_counter_anc"),
    ("hypertensive_nonchronic", "hypertension_calculations_hypertensive_nonchronic"),
    ("usg_history", "usg_history")
  ]
  /** High-risk and referral keys read from the newest unskipped current ANC report. */
  const ANC_HIGH_RISK_FIELDS: Table := [
    ("high_risk_hypertension_chronic", "high_risk.high_risk_high_risk_hypertension_chronic"),
    ("high_risk_hypertension_new", "high_risk.high_risk_high_risk_hypertension_new"),
    ("high_risk_diabetes_history", "high_risk.high_risk_high_risk_diabetes_history"),
    ("high_risk_hiv", "high_risk.high_risk_high_risk_hiv"),
    ("high_risk_hbsag", "high_risk.high_risk_high_risk_hbsag"),
    ("high_risk_hcv", "high_risk.high_risk_high_risk_hcv"),
    ("high_risk_vdrl", "high_risk.high_risk_high_risk_vdrl"),
    ("high_risk_anemia", "high_risk.high_risk_high_risk_anemia"),
    ("high_risk_diabetes_new", "high_risk.high_risk_high_risk_diabetes_new"),
    ("high_risk_rh_negative", "high_risk.high_risk_high_risk_rh_negative"),
    ("high_risk_placenta_previa", "high_risk.high_risk_high_risk_placenta_previa"),
    ("high_risk_fetal_presentation", "high_risk.high_risk_high_risk_fetal_presentation"),
    ("high_risk_no_of_fetus", "high_risk.high_risk_high_risk_no_of_fetus"),
    ("high_risk_urine_protein", "high_risk.high_risk_high_risk_urine_protein"),
    ("high_risk_urine_sugar", "high_risk.high_risk_high_risk_urine_sugar"),
    ("high_risk_grandmultiparity", "high_risk.high_risk_high_risk_grandmultiparity"),
    ("referral_immediate_hospital", "referral_followup_referral_immediate_hospital"),
    ("referral_1week_hospital", "referral_followup_referral_1week_hospital")
  ]
  /** Government windows and lab results: the newest non-empty value over the current ANC reports. */
  const ANC_RECENT_FIELDS: Table := [
    ("start_date_4", "govt_windows.govt_windows_anc_gov_window_4_start_date_4"),
    ("start_date_6", "govt_windows.govt_windows_anc_gov_window_6_start_date_6"),
    ("start_date_8", "govt_windows.govt_windows_anc_gov_window_8_start_date_8"),
    ("start_date_9", "govt_windows.govt_windows_anc_gov_window_9_start_date_9"),
    ("end_date_4", "govt_windows.govt_windows_anc_gov_window_4_end_date_4"),
    ("end_date_6", "govt_windows.govt_windows_anc_gov_window_6_end_date_6"),
    ("end_date_8", "govt_windows.govt_windows_anc_gov_window_8_end_date_8"),
    ("end_date_9", "govt_windows.govt_windows_anc_gov_window_9_end_date_9"),
    ("hiv_results", "labs.labs_hiv_results"),
    ("hcv_results", "labs.labs_hcv_results"),
    ("vdrl_results", "labs.labs_vdrl_results"),
    ("hb", "labs.labs_hb"),
    ("hbsag_results", "labs.labs_hbsag_results"),
    ("blood_sugar", "labs.labs_blood_sugar"),
    ("blood_grouping", "labs.labs_blood_grouping"),
    ("rh_negative", "labs.labs_rh_negative"),
    ("urine_protein", "labs.labs_urine_protein"),
    ("urine_sugar", "labs.labs_urine_sugar"),
    ("urine_ph", "labs.labs_urine_ph"),
    ("labs_complete", "labs.labs_labs_complete")
  ]
  /** Month completions and history: the first non-empty value over the current ANC reports. */
  const ANC_ONCE_FIELDS: Table := [
    ("fourth_month_complete", "anc_record.anc_record_fourth_month_complete"),
    ("sixth_month_complete", "anc_record.anc_record_sixth_month_complete"),
    ("eighth_month_complete", "anc_record.anc_record_eighth_month_complete"),
    ("ninth_month_complete", "anc_record.anc_record_ninth_month_complete"),
    ("cs_previous_delivery", "previous_delivery.cs_previous_delivery"),
    ("hypertension_history", "history.history_hypertension_history"),
    ("diabetes_history", "history.history_diabetes_history"),
    ("chronic_hypertension_history", "hypertension_calculations_chronic_hypertension")
  ]
  /** Pregnancy dating and ultrasound keys: the newest non-empty value over the current ANC reports. */
  const ANC_PREGNANCY_FIELDS: Table := [
    ("weeks_pregnant", "lmp_group.lmp_group_weeks_pregnant"),
    ("months_pregnant", "lmp_group.lmp_group_months_pregnant"),
    ("edd", "lmp_group.lmp_group_edd"),
    ("edd_nepali", "lmp_group.lmp_group_edd_nepali"),
    ("usg_date", "usg.usg_usg_date"),
    ("usg_date_nepali", "usg.usg_usg_date_nepali"),
    ("usg_results", "usg.usg_usg"),
    ("placenta_location_condition", "usg.usg_placenta_location_condition"),
    ("fetal_presentation_condition", "usg.usg_fetal_presentation_condition"),
    ("fetal_presentation_condition_other", "usg.usg_fetal_presentation_condition_other"),
    ("no_of_fetus", "usg.usg_no_of_fetus"),
    ("fetal_heart_rate", "usg.usg_fetal_heart_rate"),
    ("amniotic_fluid", "usg.usg_amniotic_fluid"),
    ("bpd_weeks", "usg.usg_measurements.usg_measurements_bpd_weeks"),
    ("bpd_days", "usg.usg_measurements.usg_measurements_bpd_days"),
    ("bpd_length", "usg.usg_measurements.usg_measurements_bpd_length"),
    ("femur_length_weeks", "usg.usg_measurements.usg_measurements_femur_length_weeks"),
    ("femur_length_days", "usg.usg_measurements.usg_measurements_femur_length_days"),
    ("estimate_fetal_weight", "usg.usg_measurements.usg_measurements_estimate_fetal_weight"),
    ("gestational_age_weeks", "usg.usg_ultrasound_gestational_age.usg_ultrasound_gestational_age_weeks  "),
    ("gestational_age_days", "usg.usg_ultrasound_gestational_age.usg_ultrasound_gestational_age_days")
  ]
  /** Immunisation keys, whose `getFieldOnce` calls pass the path as the form name. */
  const ANC_DOSE_FIELDS: Table := [
    ("td_first_dose", "immun_meds.immun_meds_td_first_dose"),
    ("td_second_dose", "immun_meds.immun_meds_td_second_dose"),
    ("albendazole_taken", "immun_meds.immun_meds_albendazole_taken"),
    ("daily_iron", "immun_meds.immun_meds_daily_iron")
  ]
  /** Visit keys: the newest non-empty value over the current ANC reports. */
  const ANC_NEXT_VISIT_FIELDS: Table := [
    ("last_visit", "next_visit_last_visit"),
    ("next_visit_due_anc", "next_visit_next_visit_due_anc")
  ]
  const ANC_LMP := "lmp_group.lmp_group_lmp"
  const ANC_LMP_NEPALI := "lmp_group.lmp_group_lmp_nepali"
  const PSS_LMP := "continue_pss.continue_pss_lmp_group.continue_pss_lmp_group_lmp_date_calc"
  const PSS_LMP_NEPALI := "continue_pss.continue_pss_lmp_group.continue_pss_lmp_group_lmp_date_calc_nepali"

  /** The LMP date and its Nepali form: from the current ANC reports, or from the
      screening reports when no current ANC report has an LMP date. */
  function LmpDates(rs: seq<Report>, anc: seq<Report>): (Value, Value) {
    var lmp := FieldRecent(anc, ANC, ANC_LMP, NotEmptyOrUndefined);
    if lmp == Undefined then
      (FieldRecent(rs, PREGNANCY_SCREENING, PSS_LMP, NotEmptyOrUndefined),
       FieldRecent(rs, PREGNANCY_SCREENING, PSS_LMP_NEPALI, NotEmptyOrUndefined))
    else (lmp, FieldRecent(anc, ANC, ANC_LMP_NEPALI, NotEmptyOrUndefined))
  }

  /** The first part of `getANCContext`: the newest report's visit, high-risk and
      referral keys, the desired pregnancy, government windows, labs, month
      completions and history. */
  function ANCFindings(c: Entries, anc: seq<Report>, latest: Option<Report>): Entries {
    var c1 := Fill(c, ANC_LATEST_FIELDS, FieldReader(latest));
    var c2 := c1["desired_pregnancy" := FieldOnce(anc, ANC, "followup.followup_desired_pregnancy", NotEmptyOrUndefined)];
    var c3 := Fill(c2, ANC_HIGH_RISK_FIELDS, FieldReader(latest));
    var c4 := Fill(c3, ANC_RECENT_FIELDS, RecentReader(anc, ANC));
    Fill(c4, ANC_ONCE_FIELDS, OnceReader(anc, ANC, NotEmptyOrUndefined))
  }

  /** The second part: parity, LMP, pregnancy dating, ultrasound and previous
      pregnancy. `usg_complete` reads the field named after the ANC form, because the
      source passes the form name where the path belongs. */
  function ANCPregnancy(c: Entries, rs: seq<Report>, anc: seq<Report>, latest: Option<Report>): Entries {
    var c1 := c["total_parity" := GetField(NewestReport(rs, Forms([PREGNANCY_HISTORY]), None, None), "group_assessment.total_parity")]
               ["total_parity_update" := GetField(NewestReport(rs, Forms([POST_DELIVERY]), None, None), "total_parity_update")];
    var lmp := LmpDates(rs, anc);
    var c2 := c1["lmp" := lmp.0]["lmp_nepali" := lmp.1];
    var c3 := Fill(c2, ANC_PREGNANCY_FIELDS, RecentReader(anc, ANC));
    c3["usg_complete" := GetField(latest, ANC)]
      ["previous_pregnancy" := GetField(latest, "general.general_previous_pregnancy")]
  }

  /** The last part: the always-undefined doses, the visit dates and the visit slots. */
  function ANCSchedule(c: Entries, anc: seq<Report>): Entries {
    var c1 := Fill(c, ANC_DOSE_FIELDS, NoValue());
    var c2 := Fill(c1, ANC_NEXT_VISIT_FIELDS, RecentReader(anc, ANC));
    ANCVisits(c2, anc, ANC_COUNT)
  }

  /** `getANCContext` once the current ANC reports `anc` are known, in the source's
      order of assignment. */
  function ANCEntries(c: Entries, rs: seq<Report>, anc: seq<Report>): Entries {
    var latest := MostRecentUnskippedReport(anc, ANC);
    ANCSchedule(ANCPregnancy(ANCFindings(c, anc, latest), rs, anc, latest), anc)
  }

  /** `getANCContext(allReports, context)`; throws when `getCurrentANCReports` does. */
  function ANCContext(c: Entries, rs: seq<Report>, now: int): Result<Entries> {
    match CurrentANCReports(rs, now)
    case Thrown(e) => Thrown(e)
    case Ok(anc) => Ok(ANCEntries(c, rs, anc))
  }

  method ApplyANCFindings(ctx: Context, anc: seq<Report>, latest: Option<Report>)
    modifies ctx
    ensures ctx.entries == ANCFindings(old(ctx.entries), anc, latest)
  {
    ApplyFields(ctx, ANC_LATEST_FIELDS, latest);
    var desired := GetFieldOnce(anc, ANC, "followup.followup_desired_pregnancy", NotEmptyOrUndefined);
    ctx.Set("desired_pregnancy", desired);
    ApplyFields(ctx, ANC_HIGH_RISK_FIELDS, latest);
    ApplyRecentFields(ctx, ANC_RECENT_FIELDS, anc, ANC);
    ApplyOnceFields(ctx, ANC_ONCE_FIELDS, anc, ANC, NotEmptyOrUndefined);
  }

  method ApplyANCPregnancy(ctx: Context, rs: seq<Report>, anc: seq<Report>, latest: Option<Report>)
    modifies ctx
    ensures ctx.entries == ANCPregnancy(old(ctx.entries), rs, anc, latest)
  {
    var history := GetNewestReport(rs, Forms([PREGNANCY_HISTORY]), None, None);
    ctx.Set("total_parity", GetField(history, "group_assessment.total_parity"));
    var pdf := GetNewestReport(rs, Forms([POST_DELIVERY]), None, None);
    ctx.Set("total_parity_update", GetField(pdf, "total_parity_update"));
    var lmp := GetFieldRecent(anc, ANC, ANC_LMP, NotEmptyOrUndefined);
    var lmpNepali := GetFieldRecent(anc, ANC, ANC_LMP_NEPALI, NotEmptyOrUndefined);
    if lmp == Undefined {
      lmp := GetFieldRecent(rs, PREGNANCY_SCREENING, PSS_LMP, NotEmptyOrUndefined);
      lmpNepali := GetFieldRecent(rs, PREGNANCY_SCREENING, PSS_LMP_NEPALI, NotEmptyOrUndefined);
    }
    ctx.Set("lmp", lmp);
    ctx.Set("lmp_nepali", lmpNepali);
    ApplyRecentFields(ctx, ANC_PREGNANCY_FIELDS, anc, ANC);
    ctx.Set("usg_complete", GetField(latest, ANC));
    ctx.Set("previous_pregnancy", GetField(latest, "general.general_previous_pregnancy"));
  }

  method ApplyANCSchedule(ctx: Context, anc: seq<Report>)
    modifies ctx
    ensures ctx.entries == ANCSchedule(old(ctx.entries), anc)
  {
    ApplyTable(ctx, ANC_DOSE_FIELDS, NoValue());
    ApplyRecentFields(ctx, ANC_NEXT_VISIT_FIELDS, anc, ANC);
    ApplyCurrentANCVisits(ctx, anc);
  }

  method ApplyANCContext(ctx: Context, rs: seq<Report>, now: int) returns (outcome: Result<Entries>)
    modifies ctx
    ensures outcome == ANCContext(old(ctx.entries), rs, now)
    ensures outcome.Ok? ==> ctx.entries == outcome.value
  {
    var current := CurrentANCReports(rs, now);
    if current.Thrown? {
      return Thrown(current.error);
    }
    var anc := current.value;
    var latest := GetMostRecentUnskippedReport(anc, ANC);
    ApplyANCFindings(ctx, anc, latest);
    ApplyANCPregnancy(ctx, rs, anc, latest);
    ApplyANCSchedule(ctx, anc);
    outcome := Ok(ctx.entries);
  }
}
