/** `getContext(thisContact, allReports)` of contact-summary-extras.js: the stage
    precedence for a person (inactive, under two, outside the programme, pregnancy
    screening, ANC, post-delivery), the delivery-date fallback, the PNC flags, and
    the stock context of a ward. `ContextOf` states the result; `GetContext` builds
    it on a `Context` object, helper by helper, as the source does. */
module ContactSummary {
  import opened JsValues
  import opened Reports
  import opened SummaryQueries
  import opened SummaryContext
  import opened ContextStages

  /** The contact fields `getContext` reads. */
  datatype Person = Person(contactType: string, dob: Value, sex: Value, maritalStatus: Value)

  // ---------------------------------------------------------------------------
  // Headers

  /** The EPDS and PSUPP blocks, which run for persons only. */
  function Headers(contactType: string, rs: seq<Report>, host: Host): Entries {
    if contactType != PERSON_TYPE then map[]
    else
      var c1 := if HasBecomeRecord(rs) then EpdsHeader(map[], rs, host) else map[];
      if HasPsuppRecord(rs) then PsuppHeader(c1, rs) else c1
  }

  method ApplyHeaders(ctx: Context, contactType: string, rs: seq<Report>, host: Host)
    modifies ctx
    requires ctx.entries == map[]
    ensures ctx.entries == Headers(contactType, rs, host)
  {
    if contactType == PERSON_TYPE {
      var hasBecomeRecord := exists r | r in rs :: r.form in [ANC, POST_DELIVERY, EPDS_SCREENING];
      if hasBecomeRecord {
        ApplyEpdsHeader(ctx, rs, host);
      }
      var hasPsuppRecord := exists r | r in rs :: r.form in [PSUPP];
      if hasPsuppRecord {
        ApplyPsuppHeader(ctx, rs);
      }
    }
  }

  // ---------------------------------------------------------------------------
  // Delivery date

  /** The screening reports the delivery-date fallback skips: those whose
      `pdf_direct` is not `'1'`. */
  function NotDirectDelivery(): Report -> bool {
    (r: Report) => GetField(Some(r), "pdf_direct") != Str("1")
  }

  /** The screening report the fallback reads: the newest valid one with
      `pdf_direct = '1'`, not dated after a post-delivery report with a non-zero date. */
  function DirectDeliveryScreening(rs: seq<Report>, pdf: Option<Report>): Option<Report> {
    NewestReport(rs, Forms([PREGNANCY_SCREENING]), if pdf.Some? then Some(pdf.value.reported) else None, Some(NotDirectDelivery()))
  }

  /** The unformatted delivery date: the newest post-delivery report's date; without
      one (or when it is falsy) the fallback screening report's date; when that is
      falsy too, the EDD of the newest unskipped ANC report, if it is newer than the
      screening report `pss`. */
  function DeliveryDate(rs: seq<Report>, pss: Report, pdf: Option<Report>): Value {
    var d1 := RecordedDeliveryDate(rs, pdf);
    if Truthy(d1) then d1
    else
      var anc := MostRecentUnskippedReport(rs, ANC);
      if anc.Some? && anc.value.reported > pss.reported then GetField(anc, "lmp_group.lmp_group_edd") else d1
  }

  /** The first two steps of the fallback: the post-delivery report's date, else the
      fallback screening report's. */
  function RecordedDeliveryDate(rs: seq<Report>, pdf: Option<Report>): Value {
    var fromPdf := GetField(pdf, "post_delivery_assessment.delivery_date_pdf");
    if pdf.None? || !Truthy(fromPdf) then
      var screening := DirectDeliveryScreening(rs, pdf);
      if screening.Some? then GetField(screening, "standard.standard_delivery_date_pdf") else fromPdf
    else fromPdf
  }

  method FindDeliveryDate(rs: seq<Report>, pss: Report, pdf: Option<Report>) returns (deliveryDate: Value)
    ensures deliveryDate == DeliveryDate(rs, pss, pdf)
  {
    deliveryDate := FindRecordedDeliveryDate(rs, pdf);
    if !Truthy(deliveryDate) {
      var anc := GetMostRecentUnskippedReport(rs, ANC);
      if anc.Some? && anc.value.reported > pss.reported {
        deliveryDate := GetField(anc, "lmp_group.lmp_group_edd");
      }
    }
  }

  method FindRecordedDeliveryDate(rs: seq<Report>, pdf: Option<Report>) returns (deliveryDate: Value)
    ensures deliveryDate == RecordedDeliveryDate(rs, pdf)
  {
    deliveryDate := GetField(pdf, "post_delivery_assessment.delivery_date_pdf");
    if pdf.None? || !Truthy(deliveryDate) {
      var screening := GetNewestReport(rs, Forms([PREGNANCY_SCREENING]), if pdf.Some? then Some(pdf.value.reported) else None, Some(NotDirectDelivery()));
      if screening.Some? {
        deliveryDate := GetField(screening, "standard.standard_delivery_date_pdf");
      }
    }
  }

  /** `formatDate(new Date(deliveryDate))` for a truthy date: the ISO day, or the
      `RangeError` that `toISOString` throws on an invalid date. A falsy date is left
      as it is. */
  function FormatDeliveryDate(host: Host, d: Value): Result<Value> {
    if !Truthy(d) then Ok(d)
    else
      match host.parseDate(d)
      case None => Thrown("RangeError: Invalid time value")
      case Some(t) => Ok(Str(host.isoDate(t)))
  }

  // ---------------------------------------------------------------------------
  // Post-delivery keys

  /** `Math.floor((new Date() - new Date(deliveryDate)) / day)`: NaN when the date
      does not parse. */
  function PostpartumDays(host: Host, d: Value): (pp: Value)
    ensures IsNumber(pp)
    ensures pp.Num? <==> host.parseDate(d).Some?
    ensures pp.Num? ==> pp.n * MS_IN_DAY <= host.now - host.parseDate(d).value < (pp.n + 1) * MS_IN_DAY
  {
    match host.parseDate(d)
    case None => NaN
    case Some(t) => Num(FloorDiv(host.now - t, MS_IN_DAY))
  }

  /** `'1'` when the postpartum days are below the limit and the status field is `'1'`,
      else `'0'`. */
  function PncFlag(pp: Value, limit: int, status: Value): Value {
    if Below(pp, limit) && status == Str("1") then Str("1") else Str("0")
  }

  /** The current contraceptive method from a PNC report newer than the screening. */
  function ContraceptiveFrom(c: Entries, r: Option<Report>, pss: Report, path: string): Entries {
    if r.Some? && r.value.reported > pss.reported then c["contraceptive_current" := GetField(r, path)] else c
  }

  const PNC_CONTRACEPTIVE := "group_assessment_contraceptive.year_after_delivery_contraceptive_current"
  const PNC2_CONTRACEPTIVE := "pnc_assessment.group_assessment_currentcontraceptive.contraceptive_current"

  /** The contraceptive overrides: from the newest unskipped PNC report when PNC1 is
      on, then from the newest unskipped PNC2 report when PNC2 is on, each only when
      newer than the screening. */
  function Contraceptives(c: Entries, rs: seq<Report>, pss: Report, pnc1: Value, pnc2: Value): Entries {
    var c1 := if pnc1 == Str("1") then ContraceptiveFrom(c, MostRecentUnskippedReport(rs, PNC), pss, PNC_CONTRACEPTIVE) else c;
    if pnc2 == Str("1") then ContraceptiveFrom(c1, MostRecentUnskippedReport(rs, PNC2), pss, PNC2_CONTRACEPTIVE) else c1
  }

  /** Within 60 days of a delivery with a post-delivery report, the PNC1 keys when
      PNC1 is on, else the PNC2 keys when PNC2 is on. */
  function PNCStage(c: Entries, rs: seq<Report>, pdf: Option<Report>, pp: Value, pnc1: Value, pnc2: Value): Entries {
    if Below(pp, 60) && pdf.Some? then
      if pnc1 == Str("1") then PNCContext(c, rs, PNC1_FIELDS)
      else if pnc2 == Str("1") then PNCContext(c, rs, PNC2_FIELDS)
      else c
    else c
  }

  /** The delivery block of `getContext` once the formatted delivery date `d` is known. */
  function PostDeliveryContext(c: Entries, rs: seq<Report>, pss: Report, pdf: Option<Report>, d: Value, host: Host): Entries {
    if !Truthy(d) then c
    else
      var pp := PostpartumDays(host, d);
      var pnc1 := PncFlag(pp, 365, GetField(pdf, "status_pnc1"));
      var pnc2 := PncFlag(pp, 60, GetField(pdf, "status_pnc2"));
      var c1 := c["delivery_date_pdf" := d]["pp_days" := pp]["pnc1" := pnc1]["pnc2" := pnc2];
      PNCStage(Contraceptives(c1, rs, pss, pnc1, pnc2), rs, pdf, pp, pnc1, pnc2)
  }

  method ApplyContraceptiveFrom(ctx: Context, r: Option<Report>, pss: Report, path: string)
    modifies ctx
    ensures ctx.entries == ContraceptiveFrom(old(ctx.entries), r, pss, path)
  {
    if r.Some? && r.value.reported > pss.reported {
      ctx.Set("contraceptive_current", GetField(r, path));
    }
  }

  method ApplyContraceptives(ctx: Context, rs: seq<Report>, pss: Report, pnc1: Value, pnc2: Value)
    modifies ctx
    ensures ctx.entries == Contraceptives(old(ctx.entries), rs, pss, pnc1, pnc2)
  {
    if pnc1 == Str("1") {
      var latestPNC := GetMostRecentUnskippedReport(rs, PNC);
      ApplyContraceptiveFrom(ctx, latestPNC, pss, PNC_CONTRACEPTIVE);
    }
    if pnc2 == Str("1") {
      var latestPNC2 := GetMostRecentUnskippedReport(rs, PNC2);
      ApplyContraceptiveFrom(ctx, latestPNC2, pss, PNC2_CONTRACEPTIVE);
    }
  }

  method ApplyPostDeliveryContext(ctx: Context, rs: seq<Report>, pss: Report, pdf: Option<Report>, d: Value, host: Host)
    modifies ctx
    ensures ctx.entries == PostDeliveryContext(old(ctx.entries), rs, pss, pdf, d, host)
  {
    if Truthy(d) {
      var ppDays := PostpartumDays(host, d);
      var pnc1 := if Below(ppDays, 365) && GetField(pdf, "status_pnc1") == Str("1") then Str("1") else Str("0");
      var pnc2 := if Below(ppDays, 60) && GetField(pdf, "status_pnc2") == Str("1") then Str("1") else Str("0");
      ctx.Set("delivery_date_pdf", d);
      ctx.Set("pp_days", ppDays);
      ctx.Set("pnc1", pnc1);
      ctx.Set("pnc2", pnc2);
      ApplyContraceptives(ctx, rs, pss, pnc1, pnc2);
      if Below(ppDays, 60) && pdf.Some? {
        if pnc1 == Str("1") {
          ApplyPNCContext(ctx, rs, PNC1_FIELDS);
        } else if pnc2 == Str("1") {
          ApplyPNCContext(ctx, rs, PNC2_FIELDS);
        }
      }
    }
  }

  // ---------------------------------------------------------------------------
  // The pregnancy-screening branch

  predicate AtHomeAndAgrees(pss: Report) {
    GetField(Some(pss), "woman_at_home") == Str("yes") && GetField(Some(pss), "agrees_for_service") == Str("yes")
  }

  /** The post-delivery helper the screening calls for when it is newer than every
      post-delivery report: without the ANC check for a direct delivery, with it when
      the screening enrolled the woman in ANC. */
  function ScreeningPDFContext(c: Entries, rs: seq<Report>, pss: Report, pdf: Option<Report>, now: int): Result<Entries> {
    if pdf.None? || pss.reported > pdf.value.reported then
      if GetField(Some(pss), "pdf_direct") == Str("1") then PDFContext(c, rs, false, now)
      else if GetField(Some(pss), "anc") == Str("1") then PDFContext(c, rs, true, now)
      else Ok(c)
    else Ok(c)
  }

  /** `getContext` from the point where a valid screening report `pss` exists. */
  function PregnancyContext(c: Entries, rs: seq<Report>, pss: Report, host: Host): Result<Entries> {
    var c1 := PSSContext(c, rs, host);
    var pdf := NewestReport(rs, Forms([POST_DELIVERY]), None, None);
    match FormatDeliveryDate(host, DeliveryDate(rs, pss, pdf))
    case Thrown(e) => Thrown(e)
    case Ok(d) =>
      if AtHomeAndAgrees(pss) then AtHomeContext(c1, rs, pss, pdf, d, host)
      else Ok(PostDeliveryContext(c1, rs, pss, pdf, d, host))
  }

  /** The branch for a woman at home who agrees to the service: the LMP and current
      contraceptive from the screening, then the ANC context and return when ANC is
      active, else the post-delivery helper and the delivery block. */
  function AtHomeContext(c: Entries, rs: seq<Report>, pss: Report, pdf: Option<Report>, d: Value, host: Host): Result<Entries> {
    var c1 := c["lmp_days_calc" := GetField(Some(pss), "continue_pss.continue_pss_lmp_group.continue_pss_lmp_group_lmp_days_calc")]
               ["contraceptive_current" := GetField(Some(pss), "continue_pss.continue_pss_contraceptive_related.continue_pss_contraceptive_related_contraceptive_current")];
    match IsANCActive(rs)
    case Thrown(e) => Thrown(e)
    case Ok(active) => AtHomeAfterANCCheck(c1["anc_active" := Bool(active)], rs, pss, pdf, d, host, active)
  }

  /** The rest of the at-home branch once `anc_active` is recorded. */
  function AtHomeAfterANCCheck(c: Entries, rs: seq<Report>, pss: Report, pdf: Option<Report>, d: Value, host: Host, active: bool): Result<Entries> {
    if active then ANCContext(c, rs, host.now)
    else
      match ScreeningPDFContext(c, rs, pss, pdf, host.now)
      case Thrown(e) => Thrown(e)
      case Ok(c3) => Ok(PostDeliveryContext(c3, rs, pss, pdf, d, host))
  }

  method ApplyPregnancyContext(ctx: Context, rs: seq<Report>, pss: Report, host: Host) returns (outcome: Result<Entries>)
    modifies ctx
    ensures outcome == PregnancyContext(old(ctx.entries), rs, pss, host)
    ensures outcome.Ok? ==> ctx.entries == outcome.value
  {
    ApplyPSSContext(ctx, rs, host);
    var pdf := GetNewestReport(rs, Forms([POST_DELIVERY]), None, None);
    var raw := FindDeliveryDate(rs, pss, pdf);
    var formatted := FormatDeliveryDate(host, raw);
    if formatted.Thrown? {
      return Thrown(formatted.error);
    }
    if AtHomeAndAgrees(pss) {
      outcome := ApplyAtHomeContext(ctx, rs, pss, pdf, formatted.value, host);
    } else {
      ApplyPostDeliveryContext(ctx, rs, pss, pdf, formatted.value, host);
      outcome := Ok(ctx.entries);
    }
  }

  method ApplyAtHomeContext(ctx: Context, rs: seq<Report>, pss: Report, pdf: Option<Report>, d: Value, host: Host)
    returns (outcome: Result<Entries>)
    modifies ctx
    ensures outcome == AtHomeContext(old(ctx.entries), rs, pss, pdf, d, host)
    ensures outcome.Ok? ==> ctx.entries == outcome.value
  {
    ctx.Set("lmp_days_calc", GetField(Some(pss), "continue_pss.continue_pss_lmp_group.continue_pss_lmp_group_lmp_days_calc"));
    ctx.Set("contraceptive_current", GetField(Some(pss), "continue_pss.continue_pss_contraceptive_related.continue_pss_contraceptive_related_contraceptive_current"));
    var ancActive := IsANCActive(rs);
    if ancActive.Thrown? {
      return Thrown(ancActive.error);
    }
    ctx.Set("anc_active", Bool(ancActive.value));
    outcome := ApplyAtHomeAfterANCCheck(ctx, rs, pss, pdf, d, host, ancActive.value);
  }

  method ApplyAtHomeAfterANCCheck(ctx: Context, rs: seq<Report>, pss: Report, pdf: Option<Report>, d: Value, host: Host, active: bool)
    returns (outcome: Result<Entries>)
    modifies ctx
    ensures outcome == AtHomeAfterANCCheck(old(ctx.entries), rs, pss, pdf, d, host, active)
    ensures outcome.Ok? ==> ctx.entries == outcome.value
  {
    if active {
      outcome := ApplyANCContext(ctx, rs, host.now);
      return;
    }
    var r := ApplyScreeningPDFContext(ctx, rs, pss, pdf, host.now);
    if r.Thrown? {
      return r;
    }
    ApplyPostDeliveryContext(ctx, rs, pss, pdf, d, host);
    outcome := Ok(ctx.entries);
  }

  method ApplyScreeningPDFContext(ctx: Context, rs: seq<Report>, pss: Report, pdf: Option<Report>, now: int)
    returns (outcome: Result<Entries>)
    modifies ctx
    ensures outcome == ScreeningPDFContext(old(ctx.entries), rs, pss, pdf, now)
    ensures outcome.Ok? ==> ctx.entries == outcome.value
  {
    outcome := Ok(ctx.entries);
    if pdf.None? || pss.reported > pdf.value.reported {
      if GetField(Some(pss), "pdf_direct") == Str("1") {
        outcome := ApplyPDFContext(ctx, rs, false, now);
      } else if GetField(Some(pss), "anc") == Str("1") {
        outcome := ApplyPDFContext(ctx, rs, true, now);
      }
    }
  }

  // ---------------------------------------------------------------------------
  // The person stages

  /** The pregnancy-history report counts when the woman was at home and consented. */
  function PhConsented(): Report -> bool {
    (r: Report) => GetField(Some(r), "woman_at_home") == Str("yes") && GetField(Some(r), "woman_consent") == Str("1")
  }

  /** The early exit for persons the programme does not follow: not female, aged
      under 11 or over 48, and not married. A NaN age passes neither age test. */
  predicate OutsideProgramme(p: Person, age: Value) {
    p.sex != Str("female") && (Below(age, 11) || Greater(age, Num(48))) && p.maritalStatus != Str("married")
  }

  /** The person part of `getContext`, after the headers `c`. */
  function PersonContext(c: Entries, p: Person, rs: seq<Report>, host: Host): Result<Entries> {
    var c1 := c["muted" := Bool(false)]["active" := Bool(IsActive(rs))];
    if !IsActive(rs) then Ok(c1)
    else
      var age := AgeFromDOB(host, p.dob);
      var c2 := c1["current_age" := age]["eligible_u2" := Bool(Below(age, 2))];
      if Below(age, 2) then Ok(U2Context(c2, p.contactType, rs, host))
      else if OutsideProgramme(p, age) then Ok(c2)
      else
        var c3 := c2["has_initialized_ph" := Bool(IsInitializationComplete(p.contactType, rs, PREGNANCY_HISTORY, Some(PhConsented())))];
        var pss := NewestReport(rs, Forms([PREGNANCY_SCREENING]), None, None);
        if pss.None? then Ok(c3) else PregnancyContext(c3, rs, pss.value, host)
  }

  /** What `getContext(thisContact, allReports)` returns, or the exception it throws. */
  function ContextOf(p: Person, rs: seq<Report>, host: Host): Result<Entries> {
    var headers := Headers(p.contactType, rs, host);
    if p.contactType != PERSON_TYPE then
      if p.contactType != WARD_TYPE then Ok(headers) else Ok(StockContext(rs, host.now))
    else PersonContext(headers, p, rs, host)
  }

  /** `getContext(thisContact, allReports)`: one `context` object that each helper
      updates in place. */
  method GetContext(p: Person, rs: seq<Report>, host: Host) returns (result: Result<Entries>)
    ensures result == ContextOf(p, rs, host)
  {
    var ctx := new Context();
    ApplyHeaders(ctx, p.contactType, rs, host);
    if p.contactType != PERSON_TYPE {
      if p.contactType != WARD_TYPE {
        return Ok(ctx.entries);
      }
      ApplyStockContext(ctx, rs, host.now);
      return Ok(ctx.entries);
    }
    ctx.Set("muted", Bool(false));
    var isContactActive := IsActive(rs);
    ctx.Set("active", Bool(isContactActive));
    if !isContactActive {
      return Ok(ctx.entries);
    }
    var age := AgeFromDOB(host, p.dob);
    ctx.Set("current_age", age);
    var eligibleU2 := Below(age, 2);
    ctx.Set("eligible_u2", Bool(eligibleU2));
    if eligibleU2 {
      ApplyU2Context(ctx, p.contactType, rs, host);
      return Ok(ctx.entries);
    }
    if OutsideProgramme(p, age) {
      return Ok(ctx.entries);
    }
    ctx.Set("has_initialized_ph", Bool(IsInitializationComplete(p.contactType, rs, PREGNANCY_HISTORY, Some(PhConsented()))));
    var latestPSS := GetNewestReport(rs, Forms([PREGNANCY_SCREENING]), None, None);
    if latestPSS.None? {
      return Ok(ctx.entries);
    }
    result := ApplyPregnancyContext(ctx, rs, latestPSS.value, host);
  }
}
