# Perinatal workflow configuration, modelled in Dafny

This project models the perinatal workflow of a Community Health Toolkit (CHT)
configuration. The configuration follows women through pregnancy screening (PSS),
antenatal care (ANC), delivery (PDF, post-delivery form), postnatal care (PNC1 and
PNC2), perinatal mental health screening (EPDS) with its modules, and psychosocial
support (PSUPP). It also follows children under two (U2) and the medicine stock of
a ward.

Three JavaScript files make up the core:

- `contact-summary-extras.js` computes the contact summary. `getContext` builds one
  `context` object from a contact and its reports, helper by helper.
- `nools-extras.js` holds the report queries the task rules use.
- `tasks.js` declares the tasks: for each, the form that triggers it, when it
  applies (`appliesIf`), the visits it schedules (`events` with due dates and
  windows), and when it counts as done (`resolvedIf`).

A report is a `Reports.Report`: its form name, its report date in milliseconds, its
deleted flag, and its `fields` as a tree of strings. A JavaScript value that the
code reads or computes is a `JsValues.Value`: undefined, null, a boolean, a number
or NaN, a string, or a field sub-tree. The model keeps the JavaScript semantics the
code depends on:

- truthiness and `||`;
- `Number.parseInt`, and `Number(...)` on empty, integer and hexadecimal text;
- comparisons involving NaN and undefined;
- `String.prototype.split`;
- `includes` on a string, which matches substrings, and on an array, which matches
  elements.

The clock, date parsing and formatting, and the configuration's content maps belong
to the host. They enter the model as the fields of a `Reports.Host` value.

The files, in order of dependency:

- `js_values.dfy`: JavaScript values and the coercions the code uses.
- `reports.dfy`: reports, `getField`, `getIntegerField`, newest-report selection,
  report filters, dates and the form names.
- `summary_queries.dfy`: the report queries of the contact summary.
- `summary_context.dfy`: the `context` object as a class, and the EPDS, PSUPP, ANC
  visit and stock blocks.
- `context_stages.dfy`: the PSS, U2, PDF, PNC and ANC helpers of `getContext`.
- `contact_summary.dfy`: `getContext` itself.
- `context_properties.dfy`: what `getContext` promises about its stages.
- `nools_extras.dfy`: the task helpers.
- `tasks.dfy`: the interval table, event generators, applier, resolver and the
  27 tasks.

Where the code changes state step by step, the model is imperative:

- The summary's `context` object is the class `SummaryContext.Context`. Its
  `entries` map is updated in place by `Set` and `Assign`.
- Each helper that writes into `context` is a method with a `modifies ctx` clause.
  The method is proved equal to a function that states the resulting entries.
- The `forEach` loops of the queries are methods with loop invariants. Each is
  proved equal to a selection or filter function, and lemmas state what that
  function means.
- `taskResolver`'s closure reassigns its captured `targetForm`, so it is the class
  `Tasks.TaskResolver`.

## Model

| member | source | states |
|---|---|---|
| JsValues.AddNumbers | config-nssd-migration-perinatal_workflow/contact-summary-extras.js:609-613 | the sum is a number exactly when both operands are numbers; it is then their sum, and NaN otherwise |
| JsValues.Split | config-nssd-migration-perinatal_workflow/contact-summary-extras.js:32-36 | `split` yields at least one piece, and no piece holds the separator |
| JsValues.JoinSplit | config-nssd-migration-perinatal_workflow/contact-summary-extras.js:32-36 | joining the pieces of a split with the separator gives back the text |
| JsValues.SplitJoin | config-nssd-migration-perinatal_workflow/contact-summary-extras.js:32-36 | splitting pieces that hold no separator after joining them gives back the pieces |
| JsValues.SplitAfterPrefix | config-nssd-migration-perinatal_workflow/tasks.js:35 | a separator-free head followed by the separator splits off as the first piece |
| JsValues.DigitsValueOfNatToString | config-nssd-migration-perinatal_workflow/contact-summary-extras.js:38-46 | the decimal digits of a number read back as that number |
| JsValues.ParseIntOfNatText | config-nssd-migration-perinatal_workflow/contact-summary-extras.js:38-46 | `Number.parseInt` of a number's decimal text, followed by a non-digit, gives that number |
| JsValues.ParseIntOfDigits | config-nssd-migration-perinatal_workflow/contact-summary-extras.js:38-46 | `Number.parseInt` reads a leading run of decimal digits as its value and stops at the first non-digit |
| JsValues.NatToStringInjective | config-nssd-migration-perinatal_workflow/tasks.js:117 | different numbers have different decimal texts |
| Reports.Lookup | config-nssd-migration-perinatal_workflow/nools-extras.js:11-15 | a property read on a field tree never gives null or NaN |
| Reports.WalkFindsTree | config-nssd-migration-perinatal_workflow/nools-extras.js:11-15 | the `reduce` over a path finds the sub-tree at that path, and is undefined where the path leaves the tree |
| Reports.WalkAppend | config-nssd-migration-perinatal_workflow/nools-extras.js:11-15 | walking a concatenated path is walking the first part, then the second |
| Reports.GetFieldAt | config-nssd-migration-perinatal_workflow/contact-summary-extras.js:32-36 | `getField` is undefined without a report or without fields; otherwise it reads the tree at the dot-separated path |
| Reports.GetFieldTopLevel | config-nssd-migration-perinatal_workflow/contact-summary-extras.js:32-36 | a name without a dot reads the top-level field of that name |
| Reports.GetIntegerField | config-nssd-migration-perinatal_workflow/contact-summary-extras.js:38-46 | `getIntegerField` always gives a number or NaN, and 0 for an empty text |
| Reports.GetIntegerFieldOfAbsent | config-nssd-migration-perinatal_workflow/contact-summary-extras.js:38-46 | a missing field parses to NaN |
| Reports.GetIntegerFieldOfDigits | config-nssd-migration-perinatal_workflow/contact-summary-extras.js:38-46 | a field holding a number's decimal text reads as that number |
| Reports.StringFormsMatchPieces | config-nssd-migration-perinatal_workflow/contact-summary-extras.js:80-91 | a form list given as a string matches every substring of that string, including the empty form name |
| Reports.SelectAtCharacterised | config-nssd-migration-perinatal_workflow/contact-summary-extras.js:80-91 | the newest-report scan finds nothing exactly when no report qualifies; otherwise the report it finds qualifies, no qualifying report is newer, and ties go to the earlier or later one as the scan's comparison says |
| Reports.SelectIsNewest | config-nssd-migration-perinatal_workflow/contact-summary-extras.js:80-91 | the selected report is a qualifying report of the list that no qualifying report post-dates |
| Reports.SelectedUnique | config-nssd-migration-perinatal_workflow/contact-summary-extras.js:80-91 | at most one position is the selected one |
| Reports.SelectProperties | config-nssd-migration-perinatal_workflow/contact-summary-extras.js:80-91 | nothing is selected exactly when no report of the list qualifies; otherwise the selected report is in the list, qualifies, and no qualifying report is newer |
| Reports.SelectSkips | config-nssd-migration-perinatal_workflow/contact-summary-extras.js:80-91 | a report that does not qualify changes nothing |
| Reports.SelectStep | config-nssd-migration-perinatal_workflow/contact-summary-extras.js:80-91 | one more report replaces the selection exactly when it qualifies and is newer, or as new when later reports win ties |
| Reports.Filter | config-nssd-migration-perinatal_workflow/contact-summary-extras.js:69-74 | `filter` keeps exactly the reports that pass, and no more than the input holds |
| Reports.FilterAppend | config-nssd-migration-perinatal_workflow/contact-summary-extras.js:69-74 | filtering a concatenation concatenates the filtered parts, so order is kept |
| Reports.FilterCongruent | config-nssd-migration-perinatal_workflow/nools-extras.js:105-117 | filters that agree on the reports give the same list |
| Reports.FilterStricter | config-nssd-migration-perinatal_workflow/nools-extras.js:105-117 | a stricter filter keeps no more reports |
| Reports.FilterNonEmpty | config-nssd-migration-perinatal_workflow/nools-extras.js:17-33 | the filtered list is non-empty exactly when some report passes |
| Reports.Midnight | config-nssd-migration-perinatal_workflow/nools-extras.js:142-149 | midnight is the day boundary at or before the instant |
| Reports.AddDaysCompose | config-nssd-migration-perinatal_workflow/nools-extras.js:163-167 | adding a days then b days is adding a + b days, and the result is a midnight |
| Reports.AddDaysMonotone | config-nssd-migration-perinatal_workflow/nools-extras.js:163-167 | more days give a later instant, exactly (b − a) whole days later |
| Reports.FloorDiv | config-nssd-migration-perinatal_workflow/contact-summary-extras.js:130-132 | `Math.floor` of a quotient is the largest q with q·d ≤ x |
| Reports.AgeFromDOB | config-nssd-migration-perinatal_workflow/contact-summary-extras.js:130-132 | the age is a number exactly when the birth date parses; it is then the whole number of 365-day years in the absolute time since birth |
| SummaryQueries.FormArraySubmittedInWindow | config-nssd-migration-perinatal_workflow/contact-summary-extras.js:69-74 | exactly the reports of the listed forms dated within the closed window |
| SummaryQueries.ReportsBetween | config-nssd-migration-perinatal_workflow/contact-summary-extras.js:76-78 | exactly the reports of the listed forms dated strictly between the bounds |
| SummaryQueries.WindowBoundsDiffer | config-nssd-migration-perinatal_workflow/contact-summary-extras.js:69-78 | a report dated on a bound is in the closed window but not between the bounds |
| SummaryQueries.WindowFiltersKeepOrder | config-nssd-migration-perinatal_workflow/contact-summary-extras.js:69-78 | both window queries keep the input order across a concatenation |
| SummaryQueries.GetNewestReport | config-nssd-migration-perinatal_workflow/contact-summary-extras.js:80-91 | the loop returns the newest valid report of the forms, dated before the limit if one is given and not skipped by the condition |
| SummaryQueries.NewestReportIsNewest | config-nssd-migration-perinatal_workflow/contact-summary-extras.js:80-91 | there is no newest report exactly when no report qualifies; otherwise it qualifies and no qualifying report is newer |
| SummaryQueries.UnlistedFormNeverSkipped | config-nssd-migration-perinatal_workflow/contact-summary-extras.js:93-96 | only the five listed forms can be skipped |
| SummaryQueries.GetMostRecentUnskippedReport | config-nssd-migration-perinatal_workflow/contact-summary-extras.js:98-108 | the loop returns the newest undeleted, unskipped report of the form |
| SummaryQueries.MostRecentUnskippedIsNewest | config-nssd-migration-perinatal_workflow/contact-summary-extras.js:98-108 | nothing is found exactly when no undeleted, unskipped report of the form exists; otherwise it is one of them and none of them is newer |
| SummaryQueries.GetFieldRecent | config-nssd-migration-perinatal_workflow/contact-summary-extras.js:192-209 | the loop returns the field of the newest qualifying report (later ones win ties) |
| SummaryQueries.FieldRecentIsLatest | config-nssd-migration-perinatal_workflow/contact-summary-extras.js:192-209 | undefined without a qualifying report; otherwise a value meeting the condition, read from a qualifying report that no qualifying report post-dates |
| SummaryQueries.GetFieldOnce | config-nssd-migration-perinatal_workflow/contact-summary-extras.js:211-227 | the loop stops at the first qualifying report and returns its field |
| SummaryQueries.FirstAtPrefix | config-nssd-migration-perinatal_workflow/contact-summary-extras.js:211-227 | the first match in a prefix is the first match overall |
| SummaryQueries.FirstAtIsFirst | config-nssd-migration-perinatal_workflow/contact-summary-extras.js:211-227 | the found report qualifies and none before it does |
| SummaryQueries.OnceAndRecentAgreeOnExistence | config-nssd-migration-perinatal_workflow/contact-summary-extras.js:192-227 | when some report qualifies, both the first and the newest value meet the condition |
| SummaryQueries.InitAggregate | config-nssd-migration-perinatal_workflow/contact-summary-extras.js:48-67 | the aggregate starts with exactly the listed fields, each at 0 |
| SummaryQueries.AddReport | config-nssd-migration-perinatal_workflow/contact-summary-extras.js:48-67 | adding a report keeps the aggregate's keys |
| SummaryQueries.AddReports | config-nssd-migration-perinatal_workflow/contact-summary-extras.js:48-67 | adding reports keeps the aggregate's keys |
| SummaryQueries.GetAggregatedReport | config-nssd-migration-perinatal_workflow/contact-summary-extras.js:48-67 | the nested loops compute the aggregate function |
| SummaryQueries.ZeroFields | config-nssd-migration-perinatal_workflow/contact-summary-extras.js:55-58 | the initialising loop gives the zero aggregate |
| SummaryQueries.AddReportFields | config-nssd-migration-perinatal_workflow/contact-summary-extras.js:61-63 | the inner loop adds one report's fields |
| SummaryQueries.AddReportsSnoc | config-nssd-migration-perinatal_workflow/contact-summary-extras.js:60-64 | one more report extends the aggregate of the earlier ones |
| SummaryQueries.SumField | config-nssd-migration-perinatal_workflow/contact-summary-extras.js:48-67 | a field's total is a number or NaN |
| SummaryQueries.AddReportAt | config-nssd-migration-perinatal_workflow/contact-summary-extras.js:61-63 | a report adds its integer field to each listed field and leaves the others alone |
| SummaryQueries.AddReportsAt | config-nssd-migration-perinatal_workflow/contact-summary-extras.js:48-67 | from zero, each listed field holds the sum of that field over the reports |
| SummaryQueries.AggregatedReportSums | config-nssd-migration-perinatal_workflow/contact-summary-extras.js:48-67 | no aggregate exactly for an undefined list; otherwise each listed field is the sum over the reports, so an empty list gives 0 for each field |
| SummaryQueries.IsActiveIffNoLifeEvent | config-nssd-migration-perinatal_workflow/contact-summary-extras.js:138-140 | a contact is active exactly when no valid death-or-migration report exists |
| SummaryQueries.LifeStatusActiveIff | config-nssd-migration-perinatal_workflow/contact-summary-extras.js:175-190 | the status is 'Active' exactly for an active contact; otherwise one of the four reason texts or undefined |
| SummaryQueries.IsInitializationComplete | config-nssd-migration-perinatal_workflow/contact-summary-extras.js:162-169 | complete exactly for a person whose newest valid report of the form exists and, when an extra check is given, passes it; with no extra check any valid report of the form suffices |
| SummaryQueries.FormClosedIsField | config-nssd-migration-perinatal_workflow/contact-summary-extras.js:171-173 | a form is closed exactly when `remove_woman` is '1' |
| SummaryQueries.ANCActiveIff | config-nssd-migration-perinatal_workflow/contact-summary-extras.js:144-160 | ANC is active exactly when the newest screening is unskipped, says `anc = '1'`, and the newest ANC not dated before it (if any) does not report all three closing answers; post-delivery reports play no part |
| SummaryQueries.ANCActiveThrowsIff | config-nssd-migration-perinatal_workflow/contact-summary-extras.js:144-160 | `isANCActive` throws exactly without a valid screening report |
| SummaryQueries.CurrentANCReports | config-nssd-migration-perinatal_workflow/contact-summary-extras.js:229-233 | the current ANC reports are ANC reports of the contact dated before now |
| SummaryQueries.CurrentANCReportsAfterScreening | config-nssd-migration-perinatal_workflow/contact-summary-extras.js:229-233 | the query succeeds exactly with a screening report; the current reports are then exactly the ANC reports between the newest screening and now |
| SummaryContext.Context.constructor | config-nssd-migration-perinatal_workflow/contact-summary-extras.js:469 | a new context is empty |
| SummaryContext.Context.Set | config-nssd-migration-perinatal_workflow/contact-summary-extras.js:627-632 | an assignment sets one key and keeps the rest |
| SummaryContext.Context.Assign | config-nssd-migration-perinatal_workflow/contact-summary-extras.js:604 | `Object.assign` overlays the new entries |
| SummaryContext.KeysOf | config-nssd-migration-perinatal_workflow/contact-summary-extras.js:110-126 | every key of a table is among its keys |
| SummaryContext.FillFacts | config-nssd-migration-perinatal_workflow/contact-summary-extras.js:343-466 | a run of assignments adds exactly the table's keys, gives each the value of its last write, and keeps every other key |
| SummaryContext.FillStep | config-nssd-migration-perinatal_workflow/contact-summary-extras.js:343-466 | one more assignment extends what the earlier ones did |
| SummaryContext.ApplyTable | config-nssd-migration-perinatal_workflow/contact-summary-extras.js:343-466 | the loop of assignments leaves the context as the table fill states |
| SummaryContext.ApplyFields | config-nssd-migration-perinatal_workflow/contact-summary-extras.js:348-353 | a run of `getField` assignments |
| SummaryContext.ApplyRecentFields | config-nssd-migration-perinatal_workflow/contact-summary-extras.js:376-399 | a run of `getFieldRecent` assignments |
| SummaryContext.ApplyOnceFields | config-nssd-migration-perinatal_workflow/contact-summary-extras.js:400-413 | a run of `getFieldOnce` assignments |
| SummaryContext.MapContent | config-nssd-migration-perinatal_workflow/contact-summary-extras.js:110-126 | the mapped content has exactly the content map's keys |
| SummaryContext.ApplyContent | config-nssd-migration-perinatal_workflow/contact-summary-extras.js:604 | `Object.assign(context, mapContent(...))` overlays the mapped content |
| SummaryContext.ApplyCurrentANCVisits | config-nssd-migration-perinatal_workflow/contact-summary-extras.js:235-255 | the nested loops leave the context as the visit-slot function states |
| SummaryContext.DigitsThenUnderscore | config-nssd-migration-perinatal_workflow/contact-summary-extras.js:243-249 | different digit texts followed by `_…` never collide |
| SummaryContext.VisitKeysApart | config-nssd-migration-perinatal_workflow/contact-summary-extras.js:243-249 | the keys of different visits never collide, so no visit overwrites another |
| SummaryContext.SlotVisitsFrame | config-nssd-migration-perinatal_workflow/contact-summary-extras.js:237-253 | one visit's pass touches only that visit's keys |
| SummaryContext.ANCVisitsFrame | config-nssd-migration-perinatal_workflow/contact-summary-extras.js:235-255 | the visit loops keep every key that is not a visit key |
| SummaryContext.ANCVisitLastWins | config-nssd-migration-perinatal_workflow/contact-summary-extras.js:237-253 | when the last report has a non-empty type for visit i, the context shows that type |
| SummaryContext.FilterNothing | config-nssd-migration-perinatal_workflow/contact-summary-extras.js:490-494 | a filter no report passes gives an empty list |
| SummaryContext.ModuleTotalCounts | config-nssd-migration-perinatal_workflow/contact-summary-extras.js:482-495 | a module total is null exactly without a valid EPDS screening; otherwise the module's report count plus one (capped at `MAX_SAFE_INTEGER`), and 1 when there are none |
| SummaryContext.ApplyEpdsHeader | config-nssd-migration-perinatal_workflow/contact-summary-extras.js:471-518 | the EPDS block leaves the context as its function states |
| SummaryContext.PsuppVisitRange | config-nssd-migration-perinatal_workflow/contact-summary-extras.js:526-541 | a PSUPP counter is null exactly without a PSUPP screening; otherwise `visit_k` with k between 1 and the form's cap (5, 4 or 1); the undefined bi-weekly form name gives `visit_1` |
| SummaryContext.ApplyPsuppHeader | config-nssd-migration-perinatal_workflow/contact-summary-extras.js:521-553 | the PSUPP block leaves the context as its function states |
| SummaryContext.ApplyStockContext | config-nssd-migration-perinatal_workflow/contact-summary-extras.js:556-623 | the ward branch replaces the context with the stock entries |
| SummaryContext.StockFill | config-nssd-migration-perinatal_workflow/contact-summary-extras.js:592-620 | the stock keys are exactly the two tables' keys; an initial key holds its field's aggregate, and an available key holds the aggregate plus the stock-out remainder whenever a stock-out report exists, and the aggregate alone otherwise |
| SummaryContext.StockTotals | config-nssd-migration-perinatal_workflow/contact-summary-extras.js:556-623 | each initial key holds its field's total over the stock-in reports since the newest stock-out |
| SummaryContext.StockTablesWellFormed | config-nssd-migration-perinatal_workflow/contact-summary-extras.js:563-619 | the ward's stock tables write distinct keys, share none, and read only aggregated fields |
| ContextStages.WithContent | config-nssd-migration-perinatal_workflow/contact-summary-extras.js:257-275 | without a report nothing changes; with one, the content map's keys are added |
| ContextStages.ApplyWithContent | config-nssd-migration-perinatal_workflow/contact-summary-extras.js:257-275 | the conditional `Object.assign` leaves the context as stated |
| ContextStages.ApplyPSSContext | config-nssd-migration-perinatal_workflow/contact-summary-extras.js:257-275 | `getPSSContext` leaves the context as its function states |
| ContextStages.ApplyU2Context | config-nssd-migration-perinatal_workflow/contact-summary-extras.js:277-295 | `getU2Context` leaves the context as its function states |
| ContextStages.ApplyPDFContext | config-nssd-migration-perinatal_workflow/contact-summary-extras.js:297-311 | `getPDFContext` gives the stated result or exception, and the context holds the result |
| ContextStages.ApplyPNCContext | config-nssd-migration-perinatal_workflow/contact-summary-extras.js:313-341 | `getPNC1Context` and `getPNC2Context` leave the context as their function states |
| ContextStages.ApplyANCFindings | config-nssd-migration-perinatal_workflow/contact-summary-extras.js:347-413 | the first part of `getANCContext` |
| ContextStages.ApplyANCPregnancy | config-nssd-migration-perinatal_workflow/contact-summary-extras.js:414-453 | the parity, LMP, dating and ultrasound part of `getANCContext` |
| ContextStages.ApplyANCSchedule | config-nssd-migration-perinatal_workflow/contact-summary-extras.js:454-465 | the doses, visit dates and visit slots of `getANCContext` |
| ContextStages.ApplyANCContext | config-nssd-migration-perinatal_workflow/contact-summary-extras.js:343-466 | `getANCContext` gives the stated result or exception, and the context holds the result |
| ContactSummary.ApplyHeaders | config-nssd-migration-perinatal_workflow/contact-summary-extras.js:468-553 | the EPDS and PSUPP blocks run for persons only |
| ContactSummary.FindDeliveryDate | config-nssd-migration-perinatal_workflow/contact-summary-extras.js:660-681 | the fallback chain computes the stated delivery date |
| ContactSummary.FindRecordedDeliveryDate | config-nssd-migration-perinatal_workflow/contact-summary-extras.js:660-672 | the first two steps of the fallback |
| ContactSummary.PostpartumDays | config-nssd-migration-perinatal_workflow/contact-summary-extras.js:711 | NaN exactly when the date does not parse; otherwise the whole days elapsed since the parsed date, rounded down |
| ContactSummary.ApplyContraceptiveFrom | config-nssd-migration-perinatal_workflow/contact-summary-extras.js:722-736 | a PNC report newer than the screening sets the current contraceptive |
| ContactSummary.ApplyContraceptives | config-nssd-migration-perinatal_workflow/contact-summary-extras.js:722-736 | the PNC1 override, then the PNC2 override |
| ContactSummary.ApplyPostDeliveryContext | config-nssd-migration-perinatal_workflow/contact-summary-extras.js:710-747 | the delivery block leaves the context as its function states |
| ContactSummary.ApplyPregnancyContext | config-nssd-migration-perinatal_workflow/contact-summary-extras.js:659-748 | the screening part gives the stated result or exception |
| ContactSummary.ApplyAtHomeContext | config-nssd-migration-perinatal_workflow/contact-summary-extras.js:687-708 | the at-home branch gives the stated result or exception |
| ContactSummary.ApplyAtHomeAfterANCCheck | config-nssd-migration-perinatal_workflow/contact-summary-extras.js:693-707 | the at-home branch after `anc_active` is recorded |
| ContactSummary.ApplyScreeningPDFContext | config-nssd-migration-perinatal_workflow/contact-summary-extras.js:700-707 | the PDF helper the screening calls for |
| ContactSummary.GetContext | config-nssd-migration-perinatal_workflow/contact-summary-extras.js:468-750 | building the context on one object gives exactly the stated result or exception |
| ContextProperties.LifeEventStops | config-nssd-migration-perinatal_workflow/contact-summary-extras.js:627-632 | a valid death or migration report stops the summary after `muted` and `active = false` |
| ContextProperties.UnderTwoGetsU2Only | config-nssd-migration-perinatal_workflow/contact-summary-extras.js:634-645 | an active person under two gets only the U2 context |
| ContextProperties.ANCActiveReturnsANCContext | config-nssd-migration-perinatal_workflow/contact-summary-extras.js:693-698 | active ANC returns the ANC context and nothing after it |
| ContextProperties.PregnancyThrowsOnlyOnInvalidDate | config-nssd-migration-perinatal_workflow/contact-summary-extras.js:682-685 | the screening part throws exactly when a truthy delivery date does not parse, with a `RangeError` |
| ContextProperties.AtHomeNeverThrows | config-nssd-migration-perinatal_workflow/contact-summary-extras.js:687-708 | with a screening report the at-home branch throws nothing |
| ContextProperties.ScreeningPDFNeverThrows | config-nssd-migration-perinatal_workflow/contact-summary-extras.js:700-707 | with a screening report the PDF helper throws nothing |
| ContextProperties.PDFNeverThrows | config-nssd-migration-perinatal_workflow/contact-summary-extras.js:297-311 | with a screening report `getPDFContext` throws nothing, with or without the ANC check |
| ContextProperties.ContextThrowsIff | config-nssd-migration-perinatal_workflow/contact-summary-extras.js:468-750 | `getContext` throws exactly for an active person in the programme, aged two or more, with a screening report and an unparseable truthy delivery date |
| ContextProperties.PNCContextKeeps | config-nssd-migration-perinatal_workflow/contact-summary-extras.js:313-341 | a PNC helper keeps every key its table does not assign |
| ContextProperties.PNCTablesAvoidFlags | config-nssd-migration-perinatal_workflow/contact-summary-extras.js:313-341 | neither PNC table assigns the flags or the delivery keys |
| ContextProperties.PNCStageKeeps | config-nssd-migration-perinatal_workflow/contact-summary-extras.js:738-745 | the PNC stage keeps the flags and the delivery keys |
| ContextProperties.PncFlags | config-nssd-migration-perinatal_workflow/contact-summary-extras.js:710-747 | for a truthy date the summary records it, the postpartum days, PNC1 = '1' exactly below 365 days with `status_pnc1 = '1'`, and PNC2 = '1' exactly below 60 days with `status_pnc2 = '1'` |
| ContextProperties.FlagsKept | config-nssd-migration-perinatal_workflow/contact-summary-extras.js:722-745 | the contraceptive overrides and the PNC stage keep the flags and delivery keys |
| ContextProperties.DirectDeliveryScreeningIs | config-nssd-migration-perinatal_workflow/contact-summary-extras.js:663-670 | the fallback screening is the newest valid one with `pdf_direct = '1'` not dated after the post-delivery report, and there is none exactly when no report qualifies |
| ContextProperties.DeliveryDateOrder | config-nssd-migration-perinatal_workflow/contact-summary-extras.js:660-681 | the post-delivery date wins, then the fallback screening's date, then the EDD of a newer unskipped ANC |
| ContextProperties.FieldOnceWithoutForm | config-nssd-migration-perinatal_workflow/contact-summary-extras.js:455-458 | the mis-called `getFieldOnce` throws exactly when a valid report's form equals the path; otherwise it gives undefined |
| ContextProperties.DoseKeysAreUndefined | config-nssd-migration-perinatal_workflow/contact-summary-extras.js:455-458 | over the current ANC reports the four dose keys are undefined |
| NoolsExtras.IsFormArraySubmittedInWindow | config-nssd-migration-perinatal_workflow/nools-extras.js:17-33 | the loop computes the stated window check |
| NoolsExtras.SubmittedInWindowMeaning | config-nssd-migration-perinatal_workflow/nools-extras.js:17-33 | without a count (or with count 1), true exactly when some report of the forms lies in the window; a negative count is always met |
| NoolsExtras.IsFormArraySubmittedInWindowExcluding | config-nssd-migration-perinatal_workflow/nools-extras.js:35-50 | the loop computes the stated excluding check |
| NoolsExtras.ExcludingIsStricter | config-nssd-migration-perinatal_workflow/nools-extras.js:35-50 | excluding a report never makes the check true, and changes nothing when that report is not in the window |
| NoolsExtras.GetMostRecentReport | config-nssd-migration-perinatal_workflow/nools-extras.js:52-62 | the loop returns the newest live report of the forms |
| NoolsExtras.MostRecentReportIsNewest | config-nssd-migration-perinatal_workflow/nools-extras.js:52-62 | nothing is found exactly without a live report of the forms; otherwise none is newer |
| NoolsExtras.MostRecentOfForm | config-nssd-migration-perinatal_workflow/nools-extras.js:52-62 | the same for a single form name |
| NoolsExtras.IsActiveIff | config-nssd-migration-perinatal_workflow/nools-extras.js:101-103 | active exactly when no live report's form name is a piece of the life-event form name, so a live report with an empty form name counts as a life event |
| NoolsExtras.GetNewestReport | config-nssd-migration-perinatal_workflow/nools-extras.js:181-190 | the loop returns the newest report of the forms, deleted ones included |
| NoolsExtras.NewestOfFormsIsNewest | config-nssd-migration-perinatal_workflow/nools-extras.js:181-190 | nothing is found exactly without a report of the forms; otherwise none is newer |
| NoolsExtras.SkipAgreesWithSummary | config-nssd-migration-perinatal_workflow/nools-extras.js:64-67 | for a screening report the task-side skip test agrees with the summary's |
| NoolsExtras.GetMostRecentUnskippedReport | config-nssd-migration-perinatal_workflow/nools-extras.js:69-79 | the loop returns the newest unskipped report of the form |
| NoolsExtras.MostRecentUnskippedIsNewest | config-nssd-migration-perinatal_workflow/nools-extras.js:69-79 | nothing is found exactly without a qualifying report; otherwise none is newer |
| NoolsExtras.GetReportsSubmittedInWindow | config-nssd-migration-perinatal_workflow/nools-extras.js:119-131 | the loop collects exactly the reports of the forms in the window that meet the condition |
| NoolsExtras.CountReportsSubmittedInWindow | config-nssd-migration-perinatal_workflow/nools-extras.js:105-117 | the loop counts the same reports |
| NoolsExtras.CountsAgree | config-nssd-migration-perinatal_workflow/nools-extras.js:17-33 | a count check is a bound on the number of reports in the window; a condition only removes reports |
| NoolsExtras.PPDays | config-nssd-migration-perinatal_workflow/nools-extras.js:212-226 | undefined exactly for a report that is not a post-delivery report; otherwise a number or NaN, and 0 when `pp_days` is empty or missing |
| NoolsExtras.PPDaysReadsText | config-nssd-migration-perinatal_workflow/nools-extras.js:212-226 | a post-delivery report's `pp_days` text reads as its number |
| NoolsExtras.DeliveryDateFallback | config-nssd-migration-perinatal_workflow/nools-extras.js:202-210 | the delivery date comes from the report, else from the newest screening, else from the report's own date |
| NoolsExtras.AgeInMonths | config-nssd-migration-perinatal_workflow/nools-extras.js:328-340 | the age in months is a number or NaN |
| NoolsExtras.IsContactUnder2 | config-nssd-migration-perinatal_workflow/nools-extras.js:328-340 | under two exactly when the birth date parses and fewer than 24 calendar months have passed |
| NoolsExtras.CompareIff | config-nssd-migration-perinatal_workflow/nools-extras.js:361-381 | null without either form; 1 exactly when a live ANC post-dates every live post-delivery report; 2 exactly when a live post-delivery report is at least as new as every live ANC |
| NoolsExtras.ValidateANCIff | config-nssd-migration-perinatal_workflow/nools-extras.js:467-480 | 1 exactly when the ANC is newer and there is no live EPDS screening; otherwise null |
| NoolsExtras.AtLeastWeeksSinceLMP | config-nssd-migration-perinatal_workflow/nools-extras.js:383-402 | null exactly when the post-delivery report is the newer; otherwise a boolean |
| NoolsExtras.WeeksOfDays | config-nssd-migration-perinatal_workflow/nools-extras.js:383-402 | at least w whole weeks exactly when at least 7w days have passed |
| NoolsExtras.AtLeastWeeksMeaning | config-nssd-migration-perinatal_workflow/nools-extras.js:383-402 | true exactly when the ANC is the newer and its LMP parses and lies at least the given weeks before now |
| NoolsExtras.MonthsSinceDeliveryBelow | config-nssd-migration-perinatal_workflow/nools-extras.js:404-425 | null exactly when the ANC is the newer; otherwise a boolean, whose truth `NoolsExtras.MonthsSinceDeliveryMeaning` states |
| NoolsExtras.MonthsSinceDateBelow | config-nssd-migration-perinatal_workflow/nools-extras.js:412-422 | true exactly when the delivery date is truthy, reads as a date, and the whole 30.4-day months of whole days since it stay below the threshold |
| NoolsExtras.MonthsSinceDeliveryMeaning | config-nssd-migration-perinatal_workflow/nools-extras.js:404-425 | true exactly when the newest post-delivery report is at least as new as the newest ANC and its delivery date lies fewer whole 30.4-day months back than the threshold; false without ANC and post-delivery reports |
| NoolsExtras.ScreeningConditionsExclusive | config-nssd-migration-perinatal_workflow/nools-extras.js:383-425 | the weeks-since-LMP and months-since-delivery conditions never both hold |
| NoolsExtras.TotalFormsCounts | config-nssd-migration-perinatal_workflow/nools-extras.js:428-442 | null exactly without a live EPDS screening; otherwise the module's report count plus one, capped |
| NoolsExtras.PsuppSessionsRange | config-nssd-migration-perinatal_workflow/nools-extras.js:635-661 | null exactly without a live PSUPP screening; otherwise `visit_k` with k between 1 and the form's cap |
| NoolsExtras.WeeklyCounterNeverVisit4 | config-nssd-migration-perinatal_workflow/nools-extras.js:635-661 | with a cap of 3 the weekly counter never reads `visit_4` |
| NoolsExtras.PdfContent | config-nssd-migration-perinatal_workflow/nools-extras.js:444-465 | the content code is 1 or 2; when it is 1 is stated by `NoolsExtras.PdfContentMeaning` and `NoolsExtras.PdfContentOfNewest` |
| NoolsExtras.PdfContentMeaning | config-nssd-migration-perinatal_workflow/nools-extras.js:444-465 | the code is 1 only when some live post-delivery report, newer than no other, records a birth at 28 weeks or more, a live birth and a living child; when no live post-delivery report does, the code is 2 |
| NoolsExtras.PdfContentOfNewest | config-nssd-migration-perinatal_workflow/nools-extras.js:444-465 | when one live post-delivery report is newer than all others, the code is 1 exactly when that report records a birth at 28 weeks or more, a live birth and a living child |
| NoolsExtras.DateMS | config-nssd-migration-perinatal_workflow/nools-extras.js:151-157 | null, a number, or NaN |
| NoolsExtras.LMPFromPregnancy | config-nssd-migration-perinatal_workflow/nools-extras.js:192-195 | false, null, an instant or NaN |
| NoolsExtras.LMPFromFollowUp | config-nssd-migration-perinatal_workflow/nools-extras.js:197-200 | false, null, an instant or NaN |
| NoolsExtras.SubsequentPregnancies | config-nssd-migration-perinatal_workflow/nools-extras.js:228-232 | exactly the pregnancy reports dated after the reference |
| NoolsExtras.SubsequentPregnancyFollowUps | config-nssd-migration-perinatal_workflow/nools-extras.js:234-246 | exactly the follow-ups after the pregnancy and within 42 weeks of its start |
| NoolsExtras.OldReferenceHasNoDeliveries | config-nssd-migration-perinatal_workflow/nools-extras.js:248-254 | with a day limit, a reference older than the limit has no subsequent deliveries |
| NoolsExtras.GetMostRecentLMPDateForPregnancy | config-nssd-migration-perinatal_workflow/nools-extras.js:260-271 | the loop computes the stated scan over the follow-ups |
| NoolsExtras.LmpScanOrigin | config-nssd-migration-perinatal_workflow/nools-extras.js:260-271 | the scan never goes back in time, and ends on its start or on a later follow-up's LMP |
| NoolsExtras.MostRecentLMPOrigin | config-nssd-migration-perinatal_workflow/nools-extras.js:260-271 | the LMP is the pregnancy's own or that of one of its later follow-ups |
| NoolsExtras.ActivePregnancyFacts | config-nssd-migration-perinatal_workflow/nools-extras.js:285-296 | an active pregnancy has no later pregnancy report; an old one is not ended by a delivery |
| Tasks.ParseIntervals | config-nssd-migration-perinatal_workflow/tasks.js:34-41 | an interval parses to a number or NaN |
| Tasks.SplitInterval | config-nssd-migration-perinatal_workflow/tasks.js:35 | `quant:unit` splits into its two parts |
| Tasks.ParseIntervalsReads | config-nssd-migration-perinatal_workflow/tasks.js:34-41 | `n:m` is 30n days and `n:d` is n days |
| Tasks.ReadsInterval | config-nssd-migration-perinatal_workflow/tasks.js:34-41 | the same for a given literal |
| Tasks.AncFollowupsParse | config-nssd-migration-perinatal_workflow/tasks.js:17-21 | the ten ANC follow-ups are 0, 30, …, 270 days |
| Tasks.PncFollowupsParse | config-nssd-migration-perinatal_workflow/tasks.js:12-16 | the PNC follow-ups are 0, 3, 7, 28 and 60 days |
| Tasks.GapCalculator | config-nssd-migration-perinatal_workflow/tasks.js:43-56 | throws exactly without fields; the gap is 30, 90 or the normal interval |
| Tasks.GapCalculatorCases | config-nssd-migration-perinatal_workflow/tasks.js:43-56 | away with a short-absence reason gives 30, away for a year gives 90, at home gives the normal interval |
| Tasks.TaskAppliesIff | config-nssd-migration-perinatal_workflow/tasks.js:58-72 | a task applies exactly when the contact is active, no live report whose form name is a piece of the trigger's is newer, and the extra condition holds; a newer live report of the same form stops it |
| Tasks.RoundDiv30 | config-nssd-migration-perinatal_workflow/tasks.js:117 | `Math.round(x / 30)` is the multiple of 30 nearest to x, halves rounding up |
| Tasks.AncEventsAre | config-nssd-migration-perinatal_workflow/tasks.js:116-121 | ten ANC events: visit i+1 due 30i days after the screening, window 7 days each side, all ids distinct |
| Tasks.PncIdsDiffer | config-nssd-migration-perinatal_workflow/tasks.js:123 | different intervals give different PNC ids |
| Tasks.PncEventAt | config-nssd-migration-perinatal_workflow/tasks.js:122-127 | event i is generated from the i-th PNC offset |
| Tasks.PncEventsAre | config-nssd-migration-perinatal_workflow/tasks.js:122-127 | five PNC events due d = 0, 3, 7, 28, 60 days after delivery; each opens 1 day early up to day 7 (7 days early after it) and closes 1 day late before day 7 (7 days late from it on) |
| Tasks.PncEventIdsDistinct | config-nssd-migration-perinatal_workflow/tasks.js:122-127 | the five PNC ids are distinct |
| Tasks.ScreeningDueOrder | config-nssd-migration-perinatal_workflow/tasks.js:93-108 | an inconclusive urine test gives 15 days; a post-delivery report gives 60 days when `pnc2 = '1'`, else the interval; every other report gets exactly the absence-gap due date, which is 30, 90 or the interval days on when it has fields |
| Tasks.PncDueFromDelivery | config-nssd-migration-perinatal_workflow/tasks.js:126 | without recorded delivery dates a PNC visit is due the interval after the report |
| Tasks.ResolvedIff | config-nssd-migration-perinatal_workflow/tasks.js:74-86 | resolved exactly when the contact is inactive, a report of the target form lies in the window, or the extra condition holds |
| Tasks.TaskResolver.constructor | config-nssd-migration-perinatal_workflow/tasks.js:74 | the resolver holds its extra condition and optional target |
| Tasks.TaskResolver.Resolve | config-nssd-migration-perinatal_workflow/tasks.js:75-85 | the first call fixes the target to the trigger's form when none was given; the answer is the resolution predicate |
| Tasks.AncResolvedEarlyMeans | config-nssd-migration-perinatal_workflow/tasks.js:233-242 | an early resolution comes from the newest live ANC, dated after the screening and recording a closing answer |
| Tasks.PssFollowupNeeds | config-nssd-migration-perinatal_workflow/tasks.js:185-196 | the screening follow-up needs an active contact and a screening that is neither ANC nor direct delivery |
| Tasks.PerinatalScreeningsExclusive | config-nssd-migration-perinatal_workflow/tasks.js:326-356 | the two perinatal screening tasks never both apply |
| Tasks.ModuleDays | config-nssd-migration-perinatal_workflow/tasks.js:478-492 | each module window is non-empty |
| Tasks.BelowExcludesAtLeast | config-nssd-migration-perinatal_workflow/tasks.js:478-492 | a value below b is never at least c ≥ b |
| Tasks.ModulesExclusive | config-nssd-migration-perinatal_workflow/tasks.js:414-834 | no two EPDS modules apply to the same screening |
| Tasks.ModuleWindowGaps | config-nssd-migration-perinatal_workflow/tasks.js:478-834 | on days 34, 120 and 210 after delivery, and from day 299, no module 2–5 applies |
| Tasks.ModuleFollowUpsExclusive | config-nssd-migration-perinatal_workflow/tasks.js:509-569 | a module's two follow-ups never both apply |
| Tasks.PsuppHomeVisitNeedsConsent | config-nssd-migration-perinatal_workflow/tasks.js:888-902 | the extra condition of the home-visit task holds exactly when the client agreed to be called |
| Tasks.InactiveContactGetsNoReportTask | config-nssd-migration-perinatal_workflow/tasks.js:58-72 | an inactive contact gets no task except `anc_visit` and `u2-registry` |
| Tasks.AncVisitIgnoresLifeEvents | config-nssd-migration-perinatal_workflow/tasks.js:229-231 | `anc_visit` applies to every screening with `anc = '1'`, whatever else is reported |

## Left out

- `mapContent` and the content maps are host functions. The model knows only which keys each map has.
- Date parsing, `formatDate`, `convertToISO`, the calendar and the local time zone are host functions. Daylight saving is not modelled, so a day is always 24 hours.
- Floating point is not modelled. `/ 30.4` and other divisions are evaluated exactly, and `Math.floor` and `Math.round` are applied to exact quotients.
- JsValues.StringToNumber, Tasks.ModuleExtra and Tasks.Module1Extra: text with a decimal point, a fraction or an exponent (even `12.0`), and `Infinity`, reads as NaN rather than as a number. So a module field such as `up_dd` or `lmpdays` written that way opens no module in the model, though JavaScript would compare its number.
- Every report has a form name: a report without `form` cannot be represented, so the case where it would match an undefined form constant (as in the PSUPP visit count, SummaryContext.PsuppVisitRange) is not modelled.
- `console.log` calls are left out. The `totalPsuppSessions(PSUPP_HOME_VISIT)` call in `psuup_home_visit` is only logged, so it has no effect.
- Commented-out code is left out.
- Task presentation is left out: icons, titles and the `modifyContent` actions of each task.
- The toolkit computes the due date of events written out with `days`, and resolves tasks that declare no `resolvedIf`. The model records the rule but not the toolkit's computation.
- These `nools-extras.js` helpers are not used by the task rules modelled here and are left out: `getNewestPregnancyTimestamp`, `getNewestDeliveryTimestamp`, `isFacilityDelivery`, `getLastMatchingReport`, `countANCFacilityVisits`, `getRecentANCVisitWithEvent`, `isDangerSignPresentMother` and `mapContent`. `getDateISOLocal`, `getTimeForMidnight` and `isValidDate` enter only through `DateMS`, `Midnight` and the host's date parser.
- `contact-summary.templated.js` and `constants.js` are not part of this model beyond the form names and constants the core uses.
- NoolsExtras.AgeInMonths, NoolsExtras.DateMS, NoolsExtras.LMPFromPregnancy and NoolsExtras.LMPFromFollowUp: their contracts state only the range of the result. Their meaning is carried by the lemmas that use them.
- Tasks.AncResolvedEarlyMeans: states only the direction from early resolution to a qualifying ANC. The converse also depends on the ANC being dated after a non-zero instant.

Behaviours of the code that the model keeps as written:

- The delivery-date fallback of `getContext` skips screenings whose `pdf_direct` is not '1'. So it reads the newest screening that did record a direct delivery.
- `getPNC2Context` reads its keys from the newest PNC report, not from a PNC2 report.
- The four `getFieldOnce` calls for the doses leave out the form argument. The keys are therefore undefined (`ContextProperties.DoseKeysAreUndefined`).
- In `isANCActive` the post-delivery check compares a date with a report object. It never decides the answer (`SummaryQueries.ANCActiveIff`). `isANCActive` throws only without a screening report.
- The summary's `getNewestReport` also selects deleted reports.
- The task-side `isActive` matches form names as substrings, so a live report with an empty form name counts as a life event (`NoolsExtras.IsActiveIff`).
- `taskApplier` passes the trigger's form name as a string, so the same substring matching applies (`Tasks.TaskAppliesIff`).
- The PSUPP visit caps are 5/4/1 in the contact summary and 3/3/1 in `nools-extras.js`. With a cap of 3 the weekly counter never reaches `visit_4`, so the second alternative of the home-visit task never holds (`NoolsExtras.WeeklyCounterNeverVisit4`).
- `getSubsequentDeliveries` applies its day limit to the reference report's date (`NoolsExtras.OldReferenceHasNoDeliveries`).
- `isContactUnder2` with a missing birth date computes NaN months, so it is false.
- The EPDS module windows leave days 34, 120 and 210, and every day from 299, uncovered (`Tasks.ModuleWindowGaps`).
- `anc_visit` has no `taskApplier`, so life events do not stop it (`Tasks.AncVisitIgnoresLifeEvents`).
- `psuup_weekly_visit` returns undefined (not applying) for forms it does not list.
- A `taskResolver` created without a target form keeps the first trigger's form for every later call (`Tasks.TaskResolver.Resolve`).
