// Parsing a built hash gives the route back, with its return route.
module FinanceRouteLaws {
  import opened Tables
  import opened Texts
  import opened UrlText
  import opened FinanceRoute

  predicate IsTabChar(c: char) { 'a' <= c <= 'z' || '0' <= c <= '9' || c == '_' }

  ghost predicate IsTab(tab: string) { 1 <= |tab| <= 100 && forall i :: 0 <= i < |tab| ==> IsTabChar(tab[i]) }

  // What holds of the navigation's own lists.
  ghost predicate RegistryOk(g: Registry) {
    DASHBOARD in g.tabs && "" !in g.reports && forall tab :: tab in g.tabs ==> IsTab(tab)
  }

  // ---- Canonical routes ----

  ghost predicate CanonicalReport(g: Registry, r: ReportState) {
    && r.reportId in g.reports
    && ValidDate(r.fromDate) == r.fromDate && ValidDate(r.toDate) == r.toDate && RangeOk(r.fromDate, r.toDate)
    && Bounded(r.projectId, MAX_ID_LENGTH) == r.projectId && Bounded(r.customerId, MAX_ID_LENGTH) == r.customerId
    && Bounded(r.vendorId, MAX_ID_LENGTH) == r.vendorId && Bounded(r.accountId, MAX_ID_LENGTH) == r.accountId
    && Member(r.status, STATUSES) == r.status && Bounded(r.search, MAX_SEARCH_LENGTH) == r.search
    && (r.page.Some? ==> 1 <= r.page.value <= MAX_PAGE)
    && (r.focusType.Some? <==> r.focusId.Some?)
    && Member(r.focusType, SOURCE_TYPES) == r.focusType && Bounded(r.focusId, MAX_ID_LENGTH) == r.focusId
  }

  ghost predicate CanonicalTarget(g: Registry, tab: string, entityId: Option<string>, report: Option<ReportState>) {
    tab in g.tabs && Bounded(entityId, MAX_ID_LENGTH) == entityId &&
    (report.Some? ==> tab == REPORTS && CanonicalReport(g, report.value))
  }

  ghost predicate CanonicalReturn(g: Registry, b: ReturnRoute) {
    CanonicalTarget(g, b.tab, b.entityId, b.report) && b.tab != PORTAL && (b.tab == REPORTS ==> b.report.Some?)
  }

  ghost predicate Canonical(g: Registry, r: Route) {
    CanonicalTarget(g, r.tab, r.entityId, r.report) &&
    (r.back.Some? ==> r.tab != REPORTS && CanonicalReturn(g, r.back.value))
  }

  // ---- Parameters ----

  lemma NameTextsDiffer(m: Name, n: Name)
    requires NameText(m) == NameText(n)
    ensures m == n
  {
    assert |NameText(m)| == |NameText(n)| && NameText(m)[0] == NameText(n)[0];
    assert NameText(m)[|NameText(m)| - 1] == NameText(n)[|NameText(n)| - 1];
  }

  lemma {:induction false} GetParam(names: seq<Name>, entityId: Option<string>, report: Option<ReportState>,
      back: Option<string>, n: Name)
    ensures Get(ParamsFor(names, entityId, report, back), NameText(n)) ==
      if n in names then RouteValue(entityId, report, back, n) else None
    decreases |names|
  {
    if names != [] {
      GetParam(names[1..], entityId, report, back, n);
      var value, rest := RouteValue(entityId, report, back, names[0]), ParamsFor(names[1..], entityId, report, back);
      var params := ParamsFor(names, entityId, report, back);
      if value.Some? {
        assert params[0] == Param(NameText(names[0]), value.value) && params[1..] == rest;
      } else {
        assert params == rest;
      }
      if names[0] != n && NameText(names[0]) == NameText(n) { NameTextsDiffer(names[0], n); }
    }
  }

  lemma AllNames(n: Name)
    ensures n in NAMES
  {
    var at := match n
      case IdName => 0 case ReportName => 1 case FromName => 2 case ToName => 3 case ProjectName => 4
      case CustomerName => 5 case VendorName => 6 case AccountName => 7 case StatusName => 8 case SearchName => 9
      case PageName => 10 case FocusTypeName => 11 case FocusIdName => 12 case BackName => 13;
    assert NAMES[at] == n;
  }

  // ---- The shape of a hash ----

  lemma {:induction false} IndexAfter(tab: string, rest: string)
    requires forall i :: 0 <= i < |tab| ==> IsTabChar(tab[i])
    requires rest == "" || rest[0] == '?'
    ensures IndexOf(tab + rest, '?') == |tab|
  {
    if tab == "" {
      assert tab + rest == rest;
    } else {
      assert (tab + rest)[1..] == tab[1..] + rest;
      IndexAfter(tab[1..], rest);
    }
  }

  predicate IsHashChar(c: char) { IsQueryChar(c) || IsTabChar(c) || c == '#' || c == '/' || c == '?' }

  ghost predicate HashChars(s: string) { forall i :: 0 <= i < |s| ==> IsHashChar(s[i]) }

  lemma PlainText(s: string)
    requires HashChars(s)
    ensures Trim(s) == s && Units(s) == |s|
  {
    PlainUnits(s);
  }

  lemma HashIsPlain(tab: string, params: seq<Param>)
    requires IsTab(tab)
    ensures HashChars(HashOf(tab, params)) && HashChars(tab)
  {
    SerializedChars(params);
    assert HashChars(QueryPart(params)) && HashChars(tab) && HashChars("#/");
    assert HashChars(tab + QueryPart(params));
  }

  lemma PathOfHash(tab: string, params: seq<Param>)
    requires IsTab(tab)
    ensures PathOf(HashOf(tab, params)) == tab + QueryPart(params)
  {
    var hash := HashOf(tab, params);
    HashIsPlain(tab, params);
    PlainText(hash);
    assert hash[0] == '#' && hash[1] == '/';
    assert hash[1..][1..] == tab + QueryPart(params);
  }

  lemma HashParts(tab: string, params: seq<Param>)
    requires IsTab(tab)
    ensures var path := PathOf(HashOf(tab, params));
      path != "" && TabOf(path) == tab && ParseQuery(QueryOf(path)) == params
  {
    var path := tab + QueryPart(params);
    PathOfHash(tab, params);
    IndexAfter(tab, QueryPart(params));
    HashIsPlain(tab, params);
    PlainText(tab);
    assert path[..|tab|] == tab;
    QueryRoundTrip(params);
    if params == [] {
      assert Serialize(params) == "";
      assert path == tab;
    } else {
      assert path[|tab| + 1..] == Serialize(params);
    }
  }

  // ---- Pages ----

  predicate AllDigits(s: string) { forall i :: 0 <= i < |s| ==> IsDigit(s[i]) }

  lemma {:induction false} DecimalReads(n: nat)
    ensures AllDigits(Decimal(n)) && Decimal(n) != "" && DigitsValue(Decimal(n)) == n
  {
    var s := Decimal(n);
    if n >= 10 {
      DecimalReads(n / 10);
      assert s[..|s| - 1] == Decimal(n / 10);
    } else {
      assert s[..|s| - 1] == "";
    }
  }

  lemma {:induction false} DecimalLength(n: nat, digits: nat, bound: nat)
    requires n < bound && digits >= 1
    requires digits == 1 ==> bound <= 10
    requires digits > 1 ==> bound <= 10 * Power10(digits - 1)
    ensures |Decimal(n)| <= digits
    decreases digits
  {
    if n >= 10 { DecimalLength(n / 10, digits - 1, Power10(digits - 1)); }
  }

  function Power10(k: nat): nat { if k == 0 then 1 else 10 * Power10(k - 1) }

  lemma PageRoundTrip(page: Option<int>)
    requires page.Some? ==> 1 <= page.value <= MAX_PAGE
    ensures PageOf(PageText(page)) == page
  {
    if page.Some? {
      DecimalReads(page.value);
      assert Power10(2) == 100 && Power10(4) == 10000 && Power10(5) == 100000;
      DecimalLength(page.value, 6, 1000000);
    }
  }

  // ---- Reports ----

  // What a canonical report writes is what it holds.
  lemma ReportValues(g: Registry, r: ReportState)
    requires CanonicalReport(g, r)
    ensures ReportValue(r, FromName) == r.fromDate && ReportValue(r, ToName) == r.toDate
    ensures ReportValue(r, ProjectName) == r.projectId && ReportValue(r, CustomerName) == r.customerId
    ensures ReportValue(r, VendorName) == r.vendorId && ReportValue(r, AccountName) == r.accountId
    ensures ReportValue(r, StatusName) == r.status && ReportValue(r, SearchName) == r.search
    ensures ReportValue(r, FocusTypeName) == r.focusType && ReportValue(r, FocusIdName) == r.focusId
  {
  }

  lemma ReportRoundTrip(g: Registry, r: ReportState, params: seq<Param>)
    requires RegistryOk(g) && CanonicalReport(g, r)
    requires forall n: Name :: n != IdName && n != BackName ==> Get(params, NameText(n)) == ReportValue(r, n)
    ensures ParseReport(g, params) == Some(r)
  {
    PageRoundTrip(r.page);
    ReportValues(g, r);
  }

  // What the parser finds in the parameters of a route.
  ghost predicate Shows(g: Registry, params: seq<Param>, entityId: Option<string>, report: Option<ReportState>,
      back: Option<string>) {
    Get(params, NameText(IdName)) == entityId && Get(params, NameText(BackName)) == back &&
      ParseReport(g, params) == report
  }

  lemma RouteParam(entityId: Option<string>, report: Option<ReportState>, back: Option<string>, n: Name)
    requires entityId != Some("")
    ensures Get(RouteParams(entityId, report, back), NameText(n)) ==
      if n == IdName then entityId else if n == BackName then back
      else if report.Some? then ReportValue(report.value, n) else None
  {
    AllNames(n);
    GetParam(NAMES, entityId, report, back, n);
  }

  lemma ParamsShow(g: Registry, entityId: Option<string>, report: Option<ReportState>, back: Option<string>)
    requires RegistryOk(g) && entityId != Some("") && (report.Some? ==> CanonicalReport(g, report.value))
    ensures Shows(g, RouteParams(entityId, report, back), entityId, report, back)
  {
    var params := RouteParams(entityId, report, back);
    RouteParam(entityId, report, back, IdName);
    RouteParam(entityId, report, back, BackName);
    RouteParam(entityId, report, back, ReportName);
    if report.Some? {
      forall n: Name | n != IdName && n != BackName ensures Get(params, NameText(n)) == ReportValue(report.value, n) {
        RouteParam(entityId, report, back, n);
      }
      ReportRoundTrip(g, report.value, params);
    }
  }

  // ---- Lengths ----

  lemma IdHashLength(tab: string, entityId: Option<string>)
    requires IsTab(tab) && entityId != Some("") && !TooLong(entityId)
    ensures Units(HashOf(tab, RouteParams(entityId, None, None))) <= MAX_HASH_LENGTH
  {
    var params := RouteParams(entityId, None, None);
    HashIsPlain(tab, params);
    PlainText(HashOf(tab, params));
    OnlyId(entityId);
    if entityId.Some? { IdQueryLength(entityId.value); }
  }

  lemma IdQueryLength(id: string)
    ensures |QueryPart([Param("id", id)])| <= 20 + 9 * Units(id)
  {
    EscapeLength(id);
    EscapeLength("id");
    PlainUnits("id");
    assert Pairs([Param("id", id)]) == [PairText(Param("id", id))];
  }

  lemma OnlyId(entityId: Option<string>)
    requires entityId != Some("")
    ensures RouteParams(entityId, None, None) == match entityId case None => [] case Some(id) => [Param("id", id)]
  {
    NoParams(NAMES[1..], entityId);
    assert NAMES[0] == IdName;
  }

  lemma {:induction false} NoParams(names: seq<Name>, entityId: Option<string>)
    requires IdName !in names
    ensures ParamsFor(names, entityId, None, None) == []
    decreases |names|
  {
    if names != [] { NoParams(names[1..], entityId); }
  }

  // ---- One hash ----

  lemma ParseHash(g: Registry, tab: string, params: seq<Param>, entityId: Option<string>, report: Option<ReportState>,
                  back: Option<string>, allowBack: bool)
    requires RegistryOk(g) && tab in g.tabs && Units(HashOf(tab, params)) <= MAX_HASH_LENGTH
    requires Shows(g, params, entityId, report, back) && Bounded(entityId, MAX_ID_LENGTH) == entityId
    ensures ParseInternal(g, HashOf(tab, params), allowBack) ==
      if tab == REPORTS then Route(tab, entityId, report, None)
      else Route(tab, entityId, None, if allowBack then ParseBack(g, Bounded(back, MAX_RETURN_HASH_LENGTH)) else None)
  {
    HashParts(tab, params);
  }

  // A built route without a return route.
  ghost predicate IsTarget(g: Registry, r: Route) { CanonicalTarget(g, r.tab, r.entityId, r.report) && r.back.None? }

  lemma TargetFacts(g: Registry, tab: string, entityId: Option<string>, report: Option<ReportState>)
    requires CanonicalTarget(g, tab, entityId, report)
    ensures tab in g.tabs && !TooLong(entityId) && entityId != Some("")
    ensures report.Some? ==> tab == REPORTS && Supported(g, report)
  {
  }

  lemma ReportBuilds(g: Registry, r: Route, allowFallback: bool)
    requires r.tab in g.tabs && !TooLong(r.entityId) && r.back.None? && r.tab == REPORTS && Supported(g, r.report)
    ensures BuildInternal(g, r, allowFallback) ==
      Finish(r, r.tab, RouteParams(r.entityId, r.report, None), allowFallback)
  {
  }

  lemma PlainBuilds(g: Registry, r: Route, allowFallback: bool)
    requires r.tab in g.tabs && !TooLong(r.entityId) && r.back.None? && r.report.None?
    ensures BuildInternal(g, r, allowFallback) == Finish(r, r.tab, RouteParams(r.entityId, None, None), allowFallback)
  {
  }

  lemma TargetBuilds(g: Registry, r: Route, allowFallback: bool)
    requires IsTarget(g, r)
    ensures BuildInternal(g, r, allowFallback) ==
      Finish(r, r.tab, RouteParams(r.entityId, r.report, None), allowFallback)
  {
    TargetFacts(g, r.tab, r.entityId, r.report);
    if r.report.Some? { ReportBuilds(g, r, allowFallback); } else { PlainBuilds(g, r, allowFallback); }
  }

  // A target whose hash is built is read back, whether or not return routes are allowed.
  lemma TargetRoundTrip(g: Registry, r: Route, allowFallback: bool, allowBack: bool)
    requires RegistryOk(g) && IsTarget(g, r)
    requires BuildInternal(g, r, allowFallback).Hash?
    ensures var text := BuildInternal(g, r, allowFallback).text;
      text == HashOf(r.tab, RouteParams(r.entityId, r.report, None)) && Units(text) <= MAX_HASH_LENGTH &&
      ParseInternal(g, text, allowBack) == r
  {
    var params := RouteParams(r.entityId, r.report, None);
    TargetFacts(g, r.tab, r.entityId, r.report);
    TargetBuilds(g, r, allowFallback);
    if r.report.None? { IdHashLength(r.tab, r.entityId); }
    assert Units(HashOf(r.tab, params)) <= MAX_HASH_LENGTH;
    ParamsShow(g, r.entityId, r.report, None);
    ParseHash(g, r.tab, params, r.entityId, r.report, None, allowBack);
  }

  // The fallback that keeps only the id is never used: a route without return route or report
  // always fits.
  lemma ShortRoutesFit(g: Registry, r: Route)
    requires RegistryOk(g) && IsTarget(g, r) && r.report.None?
    ensures Build(g, r) == Hash(HashOf(r.tab, RouteParams(r.entityId, None, None)))
  {
    TargetFacts(g, r.tab, r.entityId, r.report);
    PlainBuilds(g, r, true);
    IdHashLength(r.tab, r.entityId);
  }

  // ---- Return routes ----

  lemma ReturnIsTarget(g: Registry, b: ReturnRoute)
    requires CanonicalReturn(g, b)
    ensures AsRoute(g, b) == Route(b.tab, b.entityId, b.report, None) && IsTarget(g, AsRoute(g, b)) &&
      !BackRefused(g, b)
  {
    TargetFacts(g, b.tab, b.entityId, b.report);
  }

  lemma ReturnBuilds(g: Registry, r: Route, b: ReturnRoute)
    requires r.tab in g.tabs && !TooLong(r.entityId) && r.tab != REPORTS && r.back == Some(b) && !BackRefused(g, b)
    ensures BuildInternal(g, r, true) ==
      match BuildInternal(g, AsRoute(g, b), false)
      case RangeError => RangeError
      case Hash(text) =>
        if Units(text) > MAX_RETURN_HASH_LENGTH then RangeError
        else Finish(r, r.tab, RouteParams(r.entityId, None, Some(text)), true)
  {
  }

  lemma ReturnParses(g: Registry, b: ReturnRoute, text: string)
    requires RegistryOk(g) && CanonicalReturn(g, b)
    requires text == HashOf(b.tab, RouteParams(b.entityId, b.report, None))
    requires ParseInternal(g, text, false) == Route(b.tab, b.entityId, b.report, None)
    ensures ParseBack(g, Some(text)) == Some(b)
  {
    HashParts(b.tab, RouteParams(b.entityId, b.report, None));
  }

  lemma ReturnRoundTrip(g: Registry, r: Route, b: ReturnRoute)
    requires RegistryOk(g) && Canonical(g, r) && r.back == Some(b) && Build(g, r).Hash?
    ensures Parse(g, Build(g, r).text) == r
  {
    TargetFacts(g, r.tab, r.entityId, r.report);
    ReturnIsTarget(g, b);
    ReturnBuilds(g, r, b);
    TargetRoundTrip(g, AsRoute(g, b), false, false);
    var text := BuildInternal(g, AsRoute(g, b), false).text;
    var params := RouteParams(r.entityId, None, Some(text));
    ReturnParses(g, b, text);
    ParamsShow(g, r.entityId, None, Some(text));
    ParseHash(g, r.tab, params, r.entityId, None, Some(text), true);
  }

  // Main theorem. Every canonical route that can be built, also with a return route inside a
  // parameter, is read back as it was.
  lemma RoundTrip(g: Registry, r: Route)
    requires RegistryOk(g) && Canonical(g, r) && Build(g, r).Hash?
    ensures Parse(g, Build(g, r).text) == r
  {
    match r.back
    case None => TargetRoundTrip(g, r, true, true);
    case Some(b) => ReturnRoundTrip(g, r, b);
  }

  // ---- Whatever is parsed is canonical ----

  lemma ParsedReportIsCanonical(g: Registry, params: seq<Param>)
    requires ParseReport(g, params).Some?
    ensures CanonicalReport(g, ParseReport(g, params).value)
  {
  }

  lemma ParsedTargetIsCanonical(g: Registry, hash: string, allowBack: bool)
    requires RegistryOk(g)
    ensures var r := ParseInternal(g, hash, allowBack);
      CanonicalTarget(g, r.tab, r.entityId, r.report) && (r.back.Some? ==> allowBack && r.tab != REPORTS)
  {
    var r := ParseInternal(g, hash, allowBack);
    if r.report.Some? { ParsedReportIsCanonical(g, ParseQuery(QueryOf(PathOf(hash)))); }
  }

  lemma ParsedReturnIsCanonical(g: Registry, raw: Option<string>)
    requires RegistryOk(g) && ParseBack(g, raw).Some?
    requires raw.Some? ==> Units(raw.value) <= MAX_RETURN_HASH_LENGTH
    ensures CanonicalReturn(g, ParseBack(g, raw).value)
  {
    ParsedTargetIsCanonical(g, raw.value, false);
  }

  lemma ParsedIsCanonical(g: Registry, hash: string)
    requires RegistryOk(g)
    ensures Canonical(g, Parse(g, hash))
  {
    var r := Parse(g, hash);
    ParsedTargetIsCanonical(g, hash, true);
    if r.back.Some? {
      ParsedReturnIsCanonical(g,
        Bounded(Get(ParseQuery(QueryOf(PathOf(hash))), NameText(BackName)), MAX_RETURN_HASH_LENGTH));
    }
  }

  // Whatever the address bar holds, writing back what was read from it changes nothing more.
  lemma BuildAfterParseIsFixed(g: Registry, hash: string)
    requires RegistryOk(g)
    ensures var built := Build(g, Parse(g, hash));
      built.Hash? ==> Parse(g, built.text) == Parse(g, hash) && Build(g, Parse(g, built.text)) == built
  {
    ParsedIsCanonical(g, hash);
    if Build(g, Parse(g, hash)).Hash? { RoundTrip(g, Parse(g, hash)); }
  }

  // ---- Which parameter is which field ----

  // A text of one to `max` UTF-16 units.
  predicate Fits(value: Option<string>, max: nat) { value.Some? && value.value != "" && Units(value.value) <= max }

  function Kept(value: Option<string>, fits: bool): Option<string> { if fits then value else None }

  // A report is read when its parameter names a known one; which ids and search text it has.
  lemma {:induction false} ReportIds(g: Registry, params: seq<Param>)
    ensures ParseReport(g, params).Some? <==>
      Get(params, "report").Some? && Get(params, "report").value != "" && Get(params, "report").value in g.reports
    ensures ParseReport(g, params).Some? ==>
      var r := ParseReport(g, params).value;
      Some(r.reportId) == Get(params, "report") &&
      r.projectId == Kept(Get(params, "project"), Fits(Get(params, "project"), 200)) &&
      r.customerId == Kept(Get(params, "customer"), Fits(Get(params, "customer"), 200)) &&
      r.vendorId == Kept(Get(params, "vendor"), Fits(Get(params, "vendor"), 200)) &&
      r.accountId == Kept(Get(params, "account"), Fits(Get(params, "account"), 200)) &&
      r.search == Kept(Get(params, "q"), Fits(Get(params, "q"), 120))
  {
  }

  // Its status, its page, and the source it points at, which takes a type and an id.
  lemma {:induction false} ReportChoices(g: Registry, params: seq<Param>)
    requires ParseReport(g, params).Some?
    ensures ParseReport(g, params).value.status == Kept(Get(params, "status"), IsStatus(Get(params, "status")))
    ensures ParseReport(g, params).value.page == PageOf(Get(params, "page"))
    ensures var r, focus := ParseReport(g, params).value, IsSource(Get(params, "focusType")) &&
      Fits(Get(params, "focusId"), 200);
      r.focusType == Kept(Get(params, "focusType"), focus) && r.focusId == Kept(Get(params, "focusId"), focus)
  {
  }

  predicate IsStatus(value: Option<string>) {
    value.Some? && value.value in {"POSTED", "PAID", "PARTIALLY PAID", "UNPAID", "MATCHED", "UNMATCHED", "ACTIVE"}
  }

  predicate IsSource(value: Option<string>) {
    value.Some? &&
    value.value in {"invoice", "expense", "bill", "payment_received", "payment_made", "journal", "bank_transaction"}
  }

  // How the rest of a route is: the tab before the question mark, the entity from id, and the return
  // route from back, which reports do not have.
  lemma {:induction false} RouteFields(g: Registry, hash: string)
    ensures var path := PathOf(hash);
      var tab, params, r := TabOf(path), ParseQuery(QueryOf(path)), Parse(g, hash);
      Units(hash) > 4096 || path == "" || tab !in g.tabs ==> r == Route("dashboard", None, None, None)
    ensures var path := PathOf(hash);
      var tab, params, r := TabOf(path), ParseQuery(QueryOf(path)), Parse(g, hash);
      Units(hash) <= 4096 && path != "" && tab in g.tabs ==>
        r.tab == tab && r.entityId == Kept(Get(params, "id"), Fits(Get(params, "id"), 200)) &&
        (tab == "reports" ==> r.report == ParseReport(g, params) && r.back.None?) &&
        (tab != "reports" ==> r.report.None? && (r.back.Some? ==> Fits(Get(params, "back"), 1800)))
  {
  }

  // Days of the calendar, leap years included; a range whose end comes first is dropped.
  lemma {:induction false} DateFields(g: Registry, params: seq<Param>)
    requires ParseReport(g, params).Some?
    ensures var r, from, to := ParseReport(g, params).value, Get(params, "from"), Get(params, "to");
      var ordered := from.Some? && IsDate(from.value) && to.Some? && IsDate(to.value) ==> AtMost(from.value, to.value);
      r.fromDate == Kept(from, from.Some? && IsDate(from.value) && ordered) &&
      r.toDate == Kept(to, to.Some? && IsDate(to.value) && ordered)
  {
  }

  lemma {:induction false} LeapDays(year: nat, month: nat)
    requires 1 <= month <= 12
    ensures month == 2 ==> DaysIn(year, month) == if Leap(year) then 29 else 28
    ensures month in {4, 6, 9, 11} ==> DaysIn(year, month) == 30
    ensures month in {1, 3, 5, 7, 8, 10, 12} ==> DaysIn(year, month) == 31
  {
  }

  // Every fourth year, but of the years ending in 00 only every fourth.
  predicate Leap(year: nat) { year % 400 == 0 || (year % 4 == 0 && year % 100 != 0) }

  function DigitAt(s: string, i: nat): int
    requires i < |s|
  {
    s[i] as int - '0' as int
  }

  // A date is four digits, a hyphen, two digits, a hyphen and two digits, of the year 100 or later, and a
  // day of that month.
  lemma {:induction false} IsDateIff(s: string)
    ensures IsDate(s) <==>
      |s| == 10 && s[4] == '-' && s[7] == '-' &&
      (forall i :: i in {0, 1, 2, 3, 5, 6, 8, 9} ==> 0 <= DigitAt(s, i) <= 9) &&
      var year := 1000 * DigitAt(s, 0) + 100 * DigitAt(s, 1) + 10 * DigitAt(s, 2) + DigitAt(s, 3);
      var month, day := 10 * DigitAt(s, 5) + DigitAt(s, 6), 10 * DigitAt(s, 8) + DigitAt(s, 9);
      year > 99 && month > 0 && month < 13 && day > 0 && day <= DaysIn(year, month)
  {
    if |s| == 10 && forall i :: i in {0, 1, 2, 3, 5, 6, 8, 9} ==> 0 <= DigitAt(s, i) <= 9 {
      forall i | 0 <= i < 10 && i != 4 && i != 7 ensures IsDigit(s[i]) {
        assert 0 <= DigitAt(s, i) <= 9;
      }
      FourDigits(s[..4]);
      TwoDigits(s[5..7]);
      TwoDigits(s[8..]);
    }
  }

  lemma TwoDigits(s: string)
    requires |s| == 2 && IsDigit(s[0]) && IsDigit(s[1])
    ensures DigitsValue(s) == 10 * DigitAt(s, 0) + DigitAt(s, 1)
  {
    assert s[..1][..0] == "";
    assert DigitsValue(s[..1]) == DigitAt(s, 0);
  }

  lemma FourDigits(s: string)
    requires |s| == 4 && forall i :: 0 <= i < 4 ==> IsDigit(s[i])
    ensures DigitsValue(s) == 1000 * DigitAt(s, 0) + 100 * DigitAt(s, 1) + 10 * DigitAt(s, 2) + DigitAt(s, 3)
  {
    TwoDigits(s[..2]);
    assert s[..3][..2] == s[..2] && s[..4][..3] == s[..3] && s[..4] == s;
  }

  // encodeURIComponent keeps letters, digits and - _ . ! ~ * ' ( ).
  lemma {:induction false} ComponentEscapes(b: Byte)
    requires b < 128
    ensures var c := b as char;
      var kept := '0' <= c <= '9' || 'A' <= c <= 'Z' || 'a' <= c <= 'z' ||
        c in {'-', '_', '.', '!', '~', '*', '\'', '(', ')'};
      EscapeComponentByte(b) ==
        if kept then [c] else ['%', "0123456789ABCDEF"[b / 16], "0123456789ABCDEF"[b % 16]]
  {
  }

  // Texts are compared character by character; a shorter one comes first.
  lemma {:induction false} AtMostIff(a: string, b: string)
    ensures AtMost(a, b) <==> a <= b || exists i: nat :: FirstDifference(a, b, i) && a[i] < b[i]
  {
    if a != "" && b != "" && a[0] == b[0] {
      AtMostIff(a[1..], b[1..]);
      assert a <= b <==> a[1..] <= b[1..];
      if i: nat :| FirstDifference(a, b, i) && a[i] < b[i] {
        assert a[1..][..i - 1] == a[..i][1..] && b[1..][..i - 1] == b[..i][1..];
        assert FirstDifference(a[1..], b[1..], i - 1);
      }
      if i: nat :| FirstDifference(a[1..], b[1..], i) && a[1..][i] < b[1..][i] {
        assert a[..i + 1] == [a[0]] + a[1..][..i] && b[..i + 1] == [b[0]] + b[1..][..i];
        assert FirstDifference(a, b, i + 1);
      }
    } else if a != "" && b != "" {
      assert FirstDifference(a, b, 0);
      if i: nat :| FirstDifference(a, b, i) && a[i] < b[i] { AgreesBelow(a, b, i); }
    }
  }

  lemma {:induction false} AgreesBelow(a: string, b: string, i: nat)
    requires i <= |a| && i <= |b| && a[..i] == b[..i]
    ensures forall k :: 0 <= k < i ==> a[k] == b[k]
  {
    forall k | 0 <= k < i ensures a[k] == b[k] {
      assert a[k] == a[..i][k] && b[k] == b[..i][k];
    }
  }

  ghost predicate FirstDifference(a: string, b: string, i: nat) {
    i < |a| && i < |b| && a[..i] == b[..i] && a[i] != b[i]
  }

  // A page is one to six digits for a number from 1 to 100000.
  lemma {:induction false} PageIff(raw: Option<string>)
    ensures PageOf(raw).Some? <==>
      raw.Some? && 1 <= |raw.value| <= 6 && (forall i :: 0 <= i < |raw.value| ==> '0' <= raw.value[i] <= '9') &&
      1 <= DigitsValue(raw.value) <= 100000
    ensures PageOf(raw).Some? ==> PageOf(raw).value == DigitsValue(raw.value)
  {
  }

  // The path of an address: trimmed, and without a leading # and then a leading slash.
  lemma {:induction false} PathCuts(hash: string)
    ensures var t := Trim(hash);
      (|t| >= 2 && t[0] == '#' && t[1] == '/' ==> PathOf(hash) == t[2..]) &&
      (t != "" && t[0] == '#' && (|t| == 1 || t[1] != '/') ==> PathOf(hash) == t[1..]) &&
      (t != "" && t[0] == '/' ==> PathOf(hash) == t[1..]) &&
      (t == "" || (t[0] != '#' && t[0] != '/') ==> PathOf(hash) == t)
  {
  }

  // What a route is written as, without looking at its length.
  function Written(g: Registry, r: Route): string {
    var back := if r.back.Some? then Some(WrittenReturn(g, r.back.value)) else None;
    HashOf(r.tab, RouteParams(r.entityId, r.report, back))
  }

  function WrittenReturn(g: Registry, b: ReturnRoute): string { HashOf(b.tab, RouteParams(b.entityId, b.report, None)) }

  // A canonical route builds exactly when it is within the length limit and so is its return route.
  lemma {:induction false} BuildsIff(g: Registry, r: Route)
    requires RegistryOk(g) && Canonical(g, r)
    ensures Build(g, r).Hash? <==>
      Units(Written(g, r)) <= 4096 && (r.back.Some? ==> Units(WrittenReturn(g, r.back.value)) <= 1800)
    ensures Build(g, r).Hash? ==> Build(g, r).text == Written(g, r)
  {
    match r.back
    case None => BuildsAlone(g, r);
    case Some(b) => BuildsWithReturn(g, r, b);
  }

  lemma {:induction false} BuildsWithReturn(g: Registry, r: Route, b: ReturnRoute)
    requires RegistryOk(g) && Canonical(g, r) && r.back == Some(b)
    ensures Build(g, r).Hash? <==> Units(Written(g, r)) <= 4096 && Units(WrittenReturn(g, b)) <= 1800
    ensures Build(g, r).Hash? ==> Build(g, r).text == Written(g, r)
  {
    CarriesReturn(g, r, b);
    ReturnBuilds(g, r, b);
    ReturnWritten(g, b);
    FinishesWithReturn(r, WrittenReturn(g, b));
  }

  lemma {:induction false} CarriesReturn(g: Registry, r: Route, b: ReturnRoute)
    requires RegistryOk(g) && Canonical(g, r) && r.back == Some(b)
    ensures r.tab in g.tabs && !TooLong(r.entityId) && r.tab != REPORTS && r.report.None?
    ensures CanonicalReturn(g, b) && !BackRefused(g, b)
  {
    TargetFacts(g, r.tab, r.entityId, r.report);
    ReturnIsTarget(g, b);
  }

  lemma {:induction false} FinishesWithReturn(r: Route, back: string)
    requires r.back.Some?
    ensures var text := HashOf(r.tab, RouteParams(r.entityId, None, Some(back)));
      Finish(r, r.tab, RouteParams(r.entityId, None, Some(back)), true) ==
        if Units(text) > MAX_HASH_LENGTH then RangeError else Hash(text)
  {
  }

  lemma {:induction false} ReturnWritten(g: Registry, b: ReturnRoute)
    requires CanonicalReturn(g, b)
    ensures var text := WrittenReturn(g, b);
      BuildInternal(g, AsRoute(g, b), false) == if Units(text) > MAX_HASH_LENGTH then RangeError else Hash(text)
  {
    ReturnIsTarget(g, b);
    TargetBuilds(g, AsRoute(g, b), false);
  }

  lemma {:induction false} BuildsAlone(g: Registry, r: Route)
    requires RegistryOk(g) && IsTarget(g, r)
    ensures Build(g, r).Hash? <==> Units(HashOf(r.tab, RouteParams(r.entityId, r.report, None))) <= 4096
    ensures Build(g, r).Hash? ==> Build(g, r).text == HashOf(r.tab, RouteParams(r.entityId, r.report, None))
  {
    TargetFacts(g, r.tab, r.entityId, r.report);
    TargetBuilds(g, r, true);
    if r.report.None? { IdHashLength(r.tab, r.entityId); }
  }

  // Identifiers over 200 units, and return routes to an unknown tab, to the portal or to an unknown report,
  // are never built.
  lemma {:induction false} NeverBuilt(g: Registry, r: Route)
    requires (r.entityId.Some? && Units(r.entityId.value) > 200) ||
      (r.back.Some? && (r.back.value.tab !in g.tabs || r.back.value.tab == "customer_portal" ||
        (r.back.value.entityId.Some? && Units(r.back.value.entityId.value) > 200) ||
        (r.back.value.tab == "reports" && (r.back.value.report.None? ||
          r.back.value.report.value.reportId !in g.reports))))
    ensures Build(g, r).RangeError?
  {
  }
}
