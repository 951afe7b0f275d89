// Finance routes as URL hashes: buildFinanceHash, parseFinanceHash and one nested return route.
module FinanceRoute {
  import opened Tables
  import opened Texts
  import opened UrlText

  // The tabs and reports the navigation knows.
  datatype Registry = Registry(tabs: set<string>, reports: set<string>)

  datatype ReportState = ReportState(reportId: string, fromDate: Option<string>, toDate: Option<string>,
                                     projectId: Option<string>, customerId: Option<string>, vendorId: Option<string>,
                                     accountId: Option<string>, status: Option<string>, search: Option<string>,
                                     page: Option<int>, focusType: Option<string>, focusId: Option<string>)

  datatype ReturnRoute = ReturnRoute(tab: string, entityId: Option<string>, report: Option<ReportState>)

  datatype Route = Route(tab: string, entityId: Option<string>, report: Option<ReportState>, back: Option<ReturnRoute>)

  datatype Built = Hash(text: string) | RangeError

  const REPORTS: string := "reports"
  const DASHBOARD: string := "dashboard"
  const PORTAL: string := "customer_portal"
  const STATUSES: set<string> := {"POSTED", "PAID", "PARTIALLY PAID", "UNPAID", "MATCHED", "UNMATCHED", "ACTIVE"}
  const SOURCE_TYPES: set<string> :=
    {"invoice", "expense", "bill", "payment_received", "payment_made", "journal", "bank_transaction"}
  const MAX_HASH_LENGTH: nat := 4096
  const MAX_RETURN_HASH_LENGTH: nat := 1800
  const MAX_ID_LENGTH: nat := 200
  const MAX_SEARCH_LENGTH: nat := 120
  const MAX_PAGE: nat := 100000

  // ---- Field checks ----

  function Bounded(value: Option<string>, max: nat): Option<string> {
    if value.Some? && value.value != "" && Units(value.value) <= max then value else None
  }

  function Member(value: Option<string>, allowed: set<string>): Option<string> {
    if value.Some? && value.value in allowed then value else None
  }

  predicate IsDigit(c: char) { '0' <= c <= '9' }

  function DigitsValue(s: string): nat
    requires forall i :: 0 <= i < |s| ==> IsDigit(s[i])
  {
    if s == "" then 0
    else
      assert IsDigit(s[|s| - 1]);
      DigitsValue(s[..|s| - 1]) * 10 + (s[|s| - 1] - '0') as nat
  }

  function DaysIn(year: nat, month: nat): nat {
    if month == 2 then (if year % 4 == 0 && (year % 100 != 0 || year % 400 == 0) then 29 else 28)
    else if month in {4, 6, 9, 11} then 30
    else 31
  }

  // dddd-dd-dd and a day of the calendar; Date.UTC shifts years below 100, so they never match.
  predicate IsDate(s: string) {
    |s| == 10 && s[4] == '-' && s[7] == '-' &&
    (forall i :: 0 <= i < 10 && i != 4 && i != 7 ==> IsDigit(s[i])) &&
    var year, month, day := DigitsValue(s[..4]), DigitsValue(s[5..7]), DigitsValue(s[8..]);
    year >= 100 && 1 <= month <= 12 && 1 <= day <= DaysIn(year, month)
  }

  function ValidDate(value: Option<string>): Option<string> {
    if value.Some? && IsDate(value.value) then value else None
  }

  // <= on texts
  predicate AtMost(a: string, b: string) {
    a == "" || (b != "" && (a[0] < b[0] || (a[0] == b[0] && AtMost(a[1..], b[1..]))))
  }

  predicate RangeOk(from: Option<string>, to: Option<string>) { from.None? || to.None? || AtMost(from.value, to.value) }

  // String(n)
  function Decimal(n: nat): string {
    (if n < 10 then "" else Decimal(n / 10)) + ['0' + (n % 10) as char]
  }

  function PageOf(raw: Option<string>): Option<int> {
    if raw.None? || !(1 <= |raw.value| <= 6) || !(forall i :: 0 <= i < |raw.value| ==> IsDigit(raw.value[i])) then None
    else
      var page := DigitsValue(raw.value);
      if 1 <= page <= MAX_PAGE then Some(page) else None
  }

  function PageText(page: Option<int>): Option<string> {
    if page.Some? && 1 <= page.value <= MAX_PAGE then Some(Decimal(page.value)) else None
  }

  // ---- Parameters ----

  datatype Name =
    | IdName | ReportName | FromName | ToName | ProjectName | CustomerName | VendorName | AccountName
    | StatusName | SearchName | PageName | FocusTypeName | FocusIdName | BackName

  const NAMES: seq<Name> := [IdName, ReportName, FromName, ToName, ProjectName, CustomerName, VendorName, AccountName,
                             StatusName, SearchName, PageName, FocusTypeName, FocusIdName, BackName]

  function NameText(n: Name): string {
    match n
    case IdName => "id"
    case ReportName => "report"
    case FromName => "from"
    case ToName => "to"
    case ProjectName => "project"
    case CustomerName => "customer"
    case VendorName => "vendor"
    case AccountName => "account"
    case StatusName => "status"
    case SearchName => "q"
    case PageName => "page"
    case FocusTypeName => "focusType"
    case FocusIdName => "focusId"
    case BackName => "back"
  }

  // ---- Building ----

  function ReportValue(r: ReportState, n: Name): Option<string> {
    var from, to := ValidDate(r.fromDate), ValidDate(r.toDate);
    var focusType, focusId := Member(r.focusType, SOURCE_TYPES), Bounded(r.focusId, MAX_ID_LENGTH);
    match n
    case ReportName => Some(r.reportId)
    case FromName => if RangeOk(from, to) then from else None
    case ToName => if RangeOk(from, to) then to else None
    case ProjectName => Bounded(r.projectId, MAX_ID_LENGTH)
    case CustomerName => Bounded(r.customerId, MAX_ID_LENGTH)
    case VendorName => Bounded(r.vendorId, MAX_ID_LENGTH)
    case AccountName => Bounded(r.accountId, MAX_ID_LENGTH)
    case StatusName => Member(r.status, STATUSES)
    case SearchName => Bounded(r.search, MAX_SEARCH_LENGTH)
    case PageName => PageText(r.page)
    case FocusTypeName => if focusId.Some? then focusType else None
    case FocusIdName => if focusType.Some? then focusId else None
    case _ => None
  }

  function RouteValue(entityId: Option<string>, report: Option<ReportState>, back: Option<string>,
      n: Name): Option<string> {
    if n == IdName then (if entityId == Some("") then None else entityId)
    else if n == BackName then back
    else if report.Some? then ReportValue(report.value, n)
    else None
  }

  // The parameters that are set, in the order they are set in.
  function ParamsFor(names: seq<Name>, entityId: Option<string>, report: Option<ReportState>,
      back: Option<string>): seq<Param>
    decreases |names|, entityId
  {
    if names == [] then []
    else
      var value := RouteValue(entityId, report, back, names[0]);
      (if value.Some? then [Param(NameText(names[0]), value.value)] else []) +
        ParamsFor(names[1..], entityId, report, back)
  }

  function RouteParams(entityId: Option<string>, report: Option<ReportState>, back: Option<string>): seq<Param> {
    ParamsFor(NAMES, entityId, report, back)
  }

  predicate TooLong(entityId: Option<string>) { entityId.Some? && Units(entityId.value) > MAX_ID_LENGTH }

  predicate Supported(g: Registry, report: Option<ReportState>) { report.Some? && report.value.reportId in g.reports }

  predicate BackRefused(g: Registry, back: ReturnRoute) {
    back.tab !in g.tabs || back.tab == PORTAL || TooLong(back.entityId) ||
      (back.tab == REPORTS && !Supported(g, back.report))
  }

  // The route a return route is written as.
  function AsRoute(g: Registry, back: ReturnRoute): Route {
    Route(back.tab, Bounded(back.entityId, MAX_ID_LENGTH),
          if back.tab == REPORTS && Supported(g, back.report) then back.report else None, None)
  }

  function QueryPart(params: seq<Param>): string { if params == [] then "" else "?" + Serialize(params) }

  function HashOf(tab: string, params: seq<Param>): string { "#/" + (tab + QueryPart(params)) }

  function EscapeComponentByte(b: Byte): string {
    if IsPlainByte(b) || b in {33, 39, 40, 41, 126} then [b as char] else ['%', HexChar(b / 16), HexChar(b % 16)]
  }

  // encodeURIComponent
  function EscapeComponent(bytes: seq<Byte>): string {
    if bytes == [] then "" else EscapeComponentByte(bytes[0]) + EscapeComponent(bytes[1..])
  }

  function Finish(route: Route, tab: string, params: seq<Param>, allowFallback: bool): Built {
    var result := HashOf(tab, params);
    if Units(result) <= MAX_HASH_LENGTH then Hash(result)
    else if route.back.Some? || !allowFallback || (tab == REPORTS && route.report.Some?) then RangeError
    else
      Hash("#/" + tab + if route.entityId.Some? && route.entityId.value != ""
                        then "?id=" + EscapeComponent(EncodeUtf8(route.entityId.value)) else "")
  }

  function BuildInternal(g: Registry, route: Route, allowFallback: bool): Built
    decreases if route.back.Some? then 1 else 0
  {
    var tab := if route.tab in g.tabs then route.tab else DASHBOARD;
    if TooLong(route.entityId) || (route.back.Some? && BackRefused(g, route.back.value)) then RangeError
    else if tab == REPORTS && Supported(g, route.report) then
      Finish(route, tab, RouteParams(route.entityId, route.report, None), allowFallback)
    else if tab != REPORTS && route.back.Some? then
      match BuildInternal(g, AsRoute(g, route.back.value), false)
      case RangeError => RangeError
      case Hash(text) =>
        if Units(text) > MAX_RETURN_HASH_LENGTH then RangeError
        else Finish(route, tab, RouteParams(route.entityId, None, Some(text)), allowFallback)
    else
      Finish(route, tab, RouteParams(route.entityId, None, None), allowFallback)
  }

  function Build(g: Registry, route: Route): Built { BuildInternal(g, route, true) }

  // ---- Parsing ----

  function ParseReport(g: Registry, params: seq<Param>): Option<ReportState> {
    match Get(params, NameText(ReportName))
    case None => None
    case Some(reportId) =>
      if reportId == "" || reportId !in g.reports then None
      else
        var from, to := ValidDate(Get(params, NameText(FromName))), ValidDate(Get(params, NameText(ToName)));
        var focusType := Member(Get(params, NameText(FocusTypeName)), SOURCE_TYPES);
        var focusId := Bounded(Get(params, NameText(FocusIdName)), MAX_ID_LENGTH);
        Some(ReportState(reportId,
                         if RangeOk(from, to) then from else None,
                         if RangeOk(from, to) then to else None,
                         Bounded(Get(params, NameText(ProjectName)), MAX_ID_LENGTH),
                         Bounded(Get(params, NameText(CustomerName)), MAX_ID_LENGTH),
                         Bounded(Get(params, NameText(VendorName)), MAX_ID_LENGTH),
                         Bounded(Get(params, NameText(AccountName)), MAX_ID_LENGTH),
                         Member(Get(params, NameText(StatusName)), STATUSES),
                         Bounded(Get(params, NameText(SearchName)), MAX_SEARCH_LENGTH),
                         PageOf(Get(params, NameText(PageName))),
                         if focusId.Some? then focusType else None,
                         if focusType.Some? then focusId else None))
  }

  // hash.trim() without a leading # and then a leading /
  function PathOf(hash: string): string {
    var trimmed := Trim(hash);
    var rest := if trimmed != "" && trimmed[0] == '#' then trimmed[1..] else trimmed;
    if rest != "" && rest[0] == '/' then rest[1..] else rest
  }

  function TabOf(path: string): string { Trim(path[..IndexOf(path, '?')]) }

  function QueryOf(path: string): string {
    var at := IndexOf(path, '?');
    if at < |path| then path[at + 1..] else ""
  }

  function Home(): Route { Route(DASHBOARD, None, None, None) }

  function ParseInternal(g: Registry, hash: string, allowBack: bool): Route
    decreases allowBack
  {
    var path := PathOf(hash);
    var tab := TabOf(path);
    if Units(hash) > MAX_HASH_LENGTH || path == "" || tab !in g.tabs then Home()
    else
      var params := ParseQuery(QueryOf(path));
      var entityId := Bounded(Get(params, NameText(IdName)), MAX_ID_LENGTH);
      if tab == REPORTS then Route(tab, entityId, ParseReport(g, params), None)
      else
        Route(tab, entityId, None,
              if allowBack then ParseBack(g, Bounded(Get(params, NameText(BackName)), MAX_RETURN_HASH_LENGTH))
              else None)
  }

  function ParseBack(g: Registry, raw: Option<string>): Option<ReturnRoute>
    decreases true, 0
  {
    match raw
    case None => None
    case Some(hash) =>
      var tab, back := TabOf(PathOf(hash)), ParseInternal(g, hash, false);
      if tab in g.tabs && tab != PORTAL && (back.tab != REPORTS || back.report.Some?)
      then Some(ReturnRoute(back.tab, back.entityId, if back.tab == REPORTS then back.report else None))
      else None
  }

  function Parse(g: Registry, hash: string): Route { ParseInternal(g, hash, true) }
}
