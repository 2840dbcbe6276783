/** Reports as the Community Health Toolkit hands them to the configuration, the form
    names and skip keys it uses, field lookup by dotted path, the newest-report scans
    both helper files are built on, and the calendar arithmetic of `addDays`. */
module Reports {
  import opened JsValues

  /** A submitted form. `fields` is absent when the record carries no field tree;
      `reported` is `reported_date` in milliseconds since the epoch; `id` is `_id`. */
  datatype Report = Report(
    id: string,
    form: string,
    fields: Option<map<string, FieldTree>>,
    reported: int,
    deleted: bool)

  // ---------------------------------------------------------------------------
  // Form names

  const ANC := "anc_monitoring_form"
  const DEATH_MIGRATION := "death_and_migration_form"
  const PNC := "post_natal_care_form"
  const PNC2 := "pnc_2_months"
  const POST_DELIVERY := "post_delivery_form"
  const PREGNANCY_HISTORY := "pregnancy_history_form"
  const PREGNANCY_SCREENING := "pregnancy_screening_form"
  const U2_REGISTRY := "u2_registry"
  const PSUPP := "psupp_form"
  const PSUPP_HOME_VISIT := "psupp_home_visit"
  const PSUPP_WEEKLY_VISIT := "psupp_weekly_visit"
  const STOCK_IN := "stock_in"
  const STOCK_OUT := "stock_out"
  const EPDS_SCREENING := "epds_screening"

  /** Number of ANC visit slots recorded on an ANC form. */
  const ANC_COUNT := 10
  /** The configuration's stand-in for an unbounded task window, in days. */
  const INFINITY := 9999999

  /** `HOME_KEYS[form]`, or the empty path when the form has no entry
      (`undefined || ''` inside `getField`). */
  function HomeKey(form: string): string {
    if form == ANC then "visit_type.woman_at_home"
    else if form == PNC then "patient_information.group_assessment_athome.woman_at_home"
    else if form == PNC2 then "group_assessment_athome.woman_at_home"
    else if form == PREGNANCY_SCREENING then "woman_at_home"
    else if form == U2_REGISTRY then "child_at_home"
    else ""
  }

  /** `AGREES_KEYS[form]`, or the empty path when the form has no entry. */
  function AgreesKey(form: string): string {
    if form == ANC then "visit_type.agrees_for_service"
    else if form == PNC then "group_assessment_agrees.agrees_for_service"
    else if form == PNC2 then "group_assessment_counselagree.agrees_for_service"
    else if form == PREGNANCY_SCREENING then "agrees_for_service"
    else if form == U2_REGISTRY then "agrees_for_service"
    else ""
  }

  // ---------------------------------------------------------------------------
  // Field lookup

  /** `v[name]` for the values a field walk meets: a group yields its child, anything
      else yields undefined. */
  function Lookup(v: Value, name: string): (r: Value)
    ensures !r.NaN? && !r.Null?
  {
    match v
    case Tree(m) => if name in m then FromTree(m[name]) else Undefined
    case _ => Undefined
  }

  /** The `reduce` of `getField`: follow the segments, staying undefined once undefined. */
  function Walk(v: Value, path: seq<string>): Value
    decreases |path|
  {
    if path == [] then v
    else if v.Undefined? then Undefined
    else Walk(Lookup(v, path[0]), path[1..])
  }

  /** `getField(report, fieldPath)`: the value at the dotted path below the report's
      `fields`, or undefined when the report, its fields or any segment is missing. */
  function GetField(r: Option<Report>, path: string): Value {
    if r.None? || r.value.fields.None? then Undefined
    else Walk(Tree(r.value.fields.value), Split(path, '.'))
  }

  /** The subtree at a path, as an independent reference for `Walk`. */
  function TreeAt(m: map<string, FieldTree>, path: seq<string>): Option<FieldTree>
    requires path != []
    decreases |path|
  {
    if path[0] !in m then None
    else if |path| == 1 then Some(m[path[0]])
    else match m[path[0]]
      case Leaf(_) => None
      case Group(c) => TreeAt(c, path[1..])
  }

  /** Once the walk has fallen off the tree it stays undefined: the lookup never fails. */
  lemma WalkUndefined(path: seq<string>)
    ensures Walk(Undefined, path) == Undefined
  {
  }

  /** Walking a path finds exactly the subtree stored there, and undefined when there is
      none: a leaf in the middle of the path ends the walk like a missing key. */
  lemma {:induction false} WalkFindsTree(m: map<string, FieldTree>, path: seq<string>)
    requires path != []
    ensures Walk(Tree(m), path) == (match TreeAt(m, path) case None => Undefined case Some(t) => FromTree(t))
    decreases |path|
  {
    if path[0] in m && |path| > 1 {
      match m[path[0]]
      case Leaf(s) => {
        assert Lookup(Tree(m), path[0]) == Str(s);
        LeafWalk(s, path[1..]);
      }
      case Group(c) => {
        WalkFindsTree(c, path[1..]);
      }
    } else if path[0] !in m {
      assert Walk(Tree(m), path) == Walk(Undefined, path[1..]);
    }
  }

  lemma {:induction false} LeafWalk(s: string, path: seq<string>)
    requires path != []
    ensures Walk(Str(s), path) == Undefined
  {
    assert Walk(Str(s), path) == Walk(Undefined, path[1..]);
  }

  /** Walking a path in two pieces is walking it in one. */
  lemma {:induction false} WalkAppend(v: Value, a: seq<string>, b: seq<string>)
    ensures Walk(v, a + b) == Walk(Walk(v, a), b)
    decreases |a|
  {
    if a != [] && !v.Undefined? {
      assert (a + b)[1..] == a[1..] + b;
      WalkAppend(Lookup(v, a[0]), a[1..], b);
    } else if a != [] {
      assert Walk(v, a + b) == Undefined;
    } else {
      assert a + b == b;
    }
  }

  /** The field a dotted path names: `GetField` agrees with the subtree stored at the
      path's segments, and is undefined for a missing report or field tree. */
  lemma GetFieldAt(r: Option<Report>, path: string)
    ensures r.None? || r.value.fields.None? ==> GetField(r, path) == Undefined
    ensures r.Some? && r.value.fields.Some? ==>
      GetField(r, path) == (match TreeAt(r.value.fields.value, Split(path, '.'))
                             case None => Undefined case Some(t) => FromTree(t))
  {
    if r.Some? && r.value.fields.Some? {
      WalkFindsTree(r.value.fields.value, Split(path, '.'));
    }
  }

  /** A path without a dot names one field directly below the report's `fields`. */
  lemma GetFieldTopLevel(r: Option<Report>, name: string)
    requires '.' !in name
    ensures GetField(r, name) ==
      if r.None? || r.value.fields.None? || name !in r.value.fields.value then Undefined
      else FromTree(r.value.fields.value[name])
  {
    SplitNoSeparator(name, '.');
    if r.Some? && r.value.fields.Some? {
      var m := r.value.fields.value;
      assert Walk(Tree(m), [name]) == Walk(Lookup(Tree(m), name), []);
    }
  }

  /** `isReportValid`: a form name, a field tree and a non-zero report date. */
  predicate IsReportValid(r: Report) {
    r.form != "" && r.fields.Some? && r.reported != 0
  }

  /** `String(v)`, as `Number.parseInt` applies it to its argument. */
  function ToJsString(v: Value): string {
    match v
    case Undefined => "undefined"
    case Null => "null"
    case Bool(b) => if b then "true" else "false"
    case Num(n) => IntToString(n)
    case NaN => "NaN"
    case Str(s) => s
    case Tree(_) => "[object Object]"
  }

  /** `getIntegerField`: 0 for an empty-text field, else `Number.parseInt` of its value. */
  function GetIntegerField(r: Option<Report>, path: string): (x: Value)
    ensures IsNumber(x)
    ensures GetField(r, path) == Str("") ==> x == Num(0)
  {
    var v := GetField(r, path);
    if v == Str("") then Num(0) else ParseInt(ToJsString(v))
  }

  /** An absent field reads as NaN, not as 0 (only an empty text reads as 0). */
  lemma GetIntegerFieldOfAbsent(r: Option<Report>, path: string)
    requires GetField(r, path) == Undefined
    ensures GetIntegerField(r, path) == NaN
  {
    var u := "undefined";
    assert DigitValue(u[0], 10) < 0;
    assert TrimStart(u) == u;
  }

  /** Decimal text reads as its value. */
  lemma GetIntegerFieldOfDigits(r: Option<Report>, path: string, n: nat)
    requires GetField(r, path) == Str(NatToString(n))
    ensures GetIntegerField(r, path) == Num(n)
  {
    ParseIntOfNatText(n, "");
    assert NatToString(n) + "" == NatToString(n);
  }

  // ---------------------------------------------------------------------------
  // The `forms` argument: a list of names, or (by mistake in some callers) one string

  datatype FormSet = Forms(names: seq<string>) | FormText(text: string)

  /** `forms.includes(form)`: list membership, or substring search when `forms` is a
      string. */
  predicate Includes(fs: FormSet, form: string) {
    match fs
    case Forms(ns) => form in ns
    case FormText(t) => Contains(t, form)
  }

  lemma {:induction false} ContainsPiece(pre: string, needle: string, post: string)
    ensures Contains(pre + needle + post, needle)
    decreases |pre|
  {
    if pre == [] {
      assert pre + needle + post == needle + post;
    } else {
      assert (pre + needle + post)[1..] == pre[1..] + needle + post;
      ContainsPiece(pre[1..], needle, post);
    }
  }

  /** Passing a form name as a string makes every piece of that name match: a report
      whose form is any substring of the name (the empty form included) is taken for
      one of that form. */
  lemma StringFormsMatchPieces(pre: string, form: string, post: string)
    ensures Includes(FormText(pre + form + post), form)
    ensures Includes(FormText(pre + form + post), "")
  {
    ContainsPiece(pre, form, post);
    ContainsPiece([], "", pre + form + post);
    assert [] + "" + (pre + form + post) == pre + form + post;
  }

  // ---------------------------------------------------------------------------
  // Newest-report scans

  /** The index a newest-wins scan over `rs` ends on: it moves to a report that
      qualifies and is dated after the one it holds, or, when `laterWinsTies`, not
      before it. -1 when no report qualifies. Every `result`/`value` loop of both
      helper files is such a scan. */
  function SelectAt(rs: seq<Report>, q: Report -> bool, laterWinsTies: bool): (i: int)
    ensures -1 <= i < |rs|
    ensures i >= 0 ==> q(rs[i])
  {
    if rs == [] then -1
    else
      var k := SelectAt(rs[..|rs| - 1], q, laterWinsTies);
      var r := rs[|rs| - 1];
      if q(r) && (k < 0 || r.reported > rs[k].reported || (laterWinsTies && r.reported == rs[k].reported))
      then |rs| - 1
      else k
  }

  /** The report the scan ends on, if any. */
  function Select(rs: seq<Report>, q: Report -> bool, laterWinsTies: bool): Option<Report> {
    var i := SelectAt(rs, q, laterWinsTies);
    if i < 0 then None else Some(rs[i])
  }

  /** Report `i` qualifies, no qualifying report is dated later, and among those dated
      the same it is the first (or, when `laterWinsTies`, the last) in list order. */
  predicate IsSelected(rs: seq<Report>, q: Report -> bool, laterWinsTies: bool, i: int) {
    && 0 <= i < |rs| && q(rs[i])
    && (forall j | 0 <= j < |rs| && q(rs[j]) :: rs[j].reported <= rs[i].reported)
    && (forall j | 0 <= j < |rs| && q(rs[j]) && rs[j].reported == rs[i].reported ::
          if laterWinsTies then j <= i else i <= j)
  }

  /** The scan finds nothing exactly when nothing qualifies, and otherwise ends on the
      newest qualifying report with the tie rule of `IsSelected`. */
  lemma {:induction false} SelectAtCharacterised(rs: seq<Report>, q: Report -> bool, laterWinsTies: bool)
    ensures SelectAt(rs, q, laterWinsTies) < 0 <==> forall j | 0 <= j < |rs| :: !q(rs[j])
    ensures SelectAt(rs, q, laterWinsTies) >= 0 ==> IsSelected(rs, q, laterWinsTies, SelectAt(rs, q, laterWinsTies))
  {
    if rs != [] {
      var init := rs[..|rs| - 1];
      SelectAtCharacterised(init, q, laterWinsTies);
      assert forall j | 0 <= j < |init| :: init[j] == rs[j];
    }
  }

  /** The scan in the caller's terms: nothing found exactly when nothing qualifies, and
      otherwise a position holding the answer that meets `IsSelected`. */
  lemma SelectIsNewest(rs: seq<Report>, q: Report -> bool, laterWinsTies: bool)
    ensures Select(rs, q, laterWinsTies).None? <==> forall j | 0 <= j < |rs| :: !q(rs[j])
    ensures Select(rs, q, laterWinsTies).Some? ==>
      exists i | 0 <= i < |rs| :: rs[i] == Select(rs, q, laterWinsTies).value && IsSelected(rs, q, laterWinsTies, i)
  {
    SelectAtCharacterised(rs, q, laterWinsTies);
  }

  /** At most one index meets `IsSelected`: the scan's answer is the only one. */
  lemma SelectedUnique(rs: seq<Report>, q: Report -> bool, laterWinsTies: bool, i: int, k: int)
    requires IsSelected(rs, q, laterWinsTies, i) && IsSelected(rs, q, laterWinsTies, k)
    ensures i == k
  {
    assert rs[i].reported == rs[k].reported;
  }

  /** `Select` in the caller's terms: none exactly when nothing qualifies; otherwise a
      qualifying member of `rs` that no qualifying report post-dates. */
  lemma SelectProperties(rs: seq<Report>, q: Report -> bool, laterWinsTies: bool)
    ensures Select(rs, q, laterWinsTies).None? <==> forall r | r in rs :: !q(r)
    ensures Select(rs, q, laterWinsTies).Some? ==>
      var s := Select(rs, q, laterWinsTies).value;
      s in rs && q(s) && forall r | r in rs && q(r) :: r.reported <= s.reported
  {
    SelectAtCharacterised(rs, q, laterWinsTies);
  }

  /** Appending a report that does not qualify leaves the scan's answer unchanged. */
  lemma SelectSkips(rs: seq<Report>, r: Report, q: Report -> bool, laterWinsTies: bool)
    requires !q(r)
    ensures Select(rs + [r], q, laterWinsTies) == Select(rs, q, laterWinsTies)
  {
    assert (rs + [r])[..|rs|] == rs;
  }

  /** One step of a scan: how the answer for the first `i + 1` reports follows from the
      answer for the first `i`. The loops of both helper files take exactly this step. */
  lemma SelectStep(rs: seq<Report>, i: int, q: Report -> bool, laterWinsTies: bool)
    requires 0 <= i < |rs|
    ensures var prev := Select(rs[..i], q, laterWinsTies);
      Select(rs[..i + 1], q, laterWinsTies) ==
        if q(rs[i]) && (prev.None? || rs[i].reported > prev.value.reported
                        || (laterWinsTies && rs[i].reported == prev.value.reported))
        then Some(rs[i]) else prev
  {
    assert rs[..i + 1][..i] == rs[..i];
  }

  /** `reports.filter(p)`: the reports satisfying `p`, in their original order. */
  function Filter(rs: seq<Report>, p: Report -> bool): (out: seq<Report>)
    ensures |out| <= |rs|
    ensures forall r :: r in out <==> r in rs && p(r)
  {
    if rs == [] then []
    else
      var init := Filter(rs[..|rs| - 1], p);
      var last := rs[|rs| - 1];
      assert forall r :: r in rs <==> r in rs[..|rs| - 1] || r == last;
      if p(last) then init + [last] else init
  }

  /** Filtering distributes over concatenation, so it keeps the relative order. */
  lemma {:induction false} FilterAppend(a: seq<Report>, b: seq<Report>, p: Report -> bool)
    ensures Filter(a + b, p) == Filter(a, p) + Filter(b, p)
    decreases |b|
  {
    if b == [] {
      assert a + b == a;
    } else {
      var b' := b[..|b| - 1];
      assert (a + b)[..|a + b| - 1] == a + b';
      FilterAppend(a, b', p);
    }
  }

  /** One step of a `forEach` that pushes or counts the reports meeting `p`. */
  lemma FilterStep(rs: seq<Report>, i: int, p: Report -> bool)
    requires 0 <= i < |rs|
    ensures Filter(rs[..i + 1], p) == Filter(rs[..i], p) + (if p(rs[i]) then [rs[i]] else [])
  {
    assert rs[..i + 1][..i] == rs[..i];
  }

  /** Two conditions that agree on every report of the list keep the same reports. */
  lemma {:induction false} FilterCongruent(rs: seq<Report>, p: Report -> bool, q: Report -> bool)
    requires forall r | r in rs :: p(r) == q(r)
    ensures Filter(rs, p) == Filter(rs, q)
    decreases |rs|
  {
    if rs != [] {
      var init := rs[..|rs| - 1];
      assert forall r | r in init :: r in rs;
      FilterCongruent(init, p, q);
    }
  }

  /** A stricter condition keeps no more reports. */
  lemma {:induction false} FilterStricter(rs: seq<Report>, p: Report -> bool, q: Report -> bool)
    requires forall r | r in rs && p(r) :: q(r)
    ensures |Filter(rs, p)| <= |Filter(rs, q)|
    decreases |rs|
  {
    if rs != [] {
      var init := rs[..|rs| - 1];
      assert forall r | r in init :: r in rs;
      FilterStricter(init, p, q);
    }
  }

  /** A filter keeps something exactly when some report meets its condition. */
  lemma FilterNonEmpty(rs: seq<Report>, p: Report -> bool)
    ensures |Filter(rs, p)| > 0 <==> exists r | r in rs :: p(r)
  {
    var f := Filter(rs, p);
    if |f| > 0 {
      assert f[0] in f;
    }
  }

  // ---------------------------------------------------------------------------
  // Time

  const MS_IN_DAY := 86400000

  /** `getTimeForMidnight`: the start of the day holding instant `t` (UTC days). */
  function Midnight(t: int): (m: int)
    ensures m <= t < m + MS_IN_DAY
    ensures m % MS_IN_DAY == 0
  {
    t - t % MS_IN_DAY
  }

  /** `addDays(date, n)`: midnight of the date's day, moved `n` days on. */
  function AddDays(t: int, n: int): int {
    Midnight(t) + n * MS_IN_DAY
  }

  /** Moving by `a` days and then by `b` days is moving by `a + b` days, and the
      result is always a midnight. */
  lemma AddDaysCompose(t: int, a: int, b: int)
    ensures AddDays(AddDays(t, a), b) == AddDays(t, a + b)
    ensures AddDays(t, a) % MS_IN_DAY == 0
  {
    var m := Midnight(t);
    assert (m + a * MS_IN_DAY) % MS_IN_DAY == 0 by {
      assert m + a * MS_IN_DAY == (m / MS_IN_DAY + a) * MS_IN_DAY;
    }
  }

  /** `addDays` is monotone in its day count: a later offset never gives an earlier day. */
  lemma AddDaysMonotone(t: int, a: int, b: int)
    requires a <= b
    ensures AddDays(t, a) <= AddDays(t, b)
    ensures AddDays(t, b) - AddDays(t, a) == (b - a) * MS_IN_DAY
  {
  }

  /** A (year, month) pair as `Date.prototype.getFullYear`/`getMonth` report it; the
      month counts from 0. */
  datatype YearMonth = YearMonth(year: int, month: int)

  /** What the model takes from the environment: the current instant, the date parser
      (`new Date(x)`, `None` for an invalid date) and formatters of `Date`
      (`toISOString().split('T')[0]` and `convertToISO`), the calendar of the local
      time zone, and the `contents/<source>.map.json` tables `mapContent` reads: for a
      source and a form, the (context key, field path) pairs, which live in JSON files
      outside the configuration. */
  datatype Host = Host(
    now: int,
    parseDate: Value -> Option<int>,
    isoDate: int -> string,
    convertToISO: Value -> string,
    calendar: int -> YearMonth,
    contentMap: (string, string) -> seq<(string, string)>)

  /** `Math.floor(x / d)` for positive `d`: Dafny's division already rounds down. */
  function FloorDiv(x: int, d: int): (q: int)
    requires d > 0
    ensures q * d <= x < q * d + d
  {
    x / d
  }

  function Abs(x: int): (a: int)
    ensures a >= 0 && (a == x || a == -x)
  {
    if x < 0 then -x else x
  }

  /** `getAgeFromDOB`: whole 365-day years between the birth date and now, in either
      direction; NaN when the date does not parse. */
  function AgeFromDOB(host: Host, dob: Value): (age: Value)
    ensures IsNumber(age)
    ensures age.Num? <==> host.parseDate(dob).Some?
    ensures age.Num? ==> age.n >= 0 && age.n * 365 * MS_IN_DAY <= Abs(host.now - host.parseDate(dob).value) < (age.n + 1) * 365 * MS_IN_DAY
  {
    match host.parseDate(dob)
    case None => NaN
    case Some(t) => Num(FloorDiv(Abs(host.now - t), 365 * MS_IN_DAY))
  }
}
