/**
 * Request validation: each request arrives as a payload whose fields may be
 * missing, and validation either rejects it or yields the request with its
 * defaults filled in.
 */
module Schemas {
  import opened Wrappers
  import opened NewsModels

  datatype NewsSourceCreateRequest = NewsSourceCreateRequest(
    name: string, url: string, sourceType: NewsSourceType, parser: string, crawlInterval: int)

  datatype CreatePayload = CreatePayload(
    name: Option<string>, url: Option<string>, sourceType: Option<string>,
    parser: Option<string>, crawlInterval: Option<int>)

  predicate NameOk(name: string) {
    1 <= |name| <= 100
  }

  predicate IntervalOk(interval: int) {
    interval >= 60
  }

  /** The bounds every accepted create request meets. */
  predicate CreateRequestValid(r: NewsSourceCreateRequest) {
    NameOk(r.name) && IntervalOk(r.crawlInterval)
  }

  /** Validation of a create request: required fields present, a known type, bounds met, interval defaults to 300. */
  function ValidateCreate(p: CreatePayload): (r: Option<NewsSourceCreateRequest>)
    ensures r.Some? <==>
      p.name.Some? && NameOk(p.name.value) && p.url.Some? && p.parser.Some?
      && p.sourceType.Some? && ParseSourceType(p.sourceType.value).Some?
      && (p.crawlInterval.None? || IntervalOk(p.crawlInterval.value))
    ensures r.Some? ==> CreateRequestValid(r.value)
    ensures r.Some? ==> r.value.crawlInterval == p.crawlInterval.GetOr(300) && r.value.name == p.name.value
  {
    if p.name.None? || !NameOk(p.name.value) || p.url.None? || p.parser.None? || p.sourceType.None? then None
    else
      match ParseSourceType(p.sourceType.value)
      case None => None
      case Some(t) =>
        var interval := p.crawlInterval.GetOr(300);
        if !IntervalOk(interval) then None
        else Some(NewsSourceCreateRequest(p.name.value, p.url.value, t, p.parser.value, interval))
  }

  /** Every field is optional; a field that is present must meet the create bounds. */
  datatype NewsSourceUpdateRequest = NewsSourceUpdateRequest(
    name: Option<string>, url: Option<string>, sourceType: Option<NewsSourceType>,
    parser: Option<string>, isActive: Option<bool>, crawlInterval: Option<int>)

  datatype UpdatePayload = UpdatePayload(
    name: Option<string>, url: Option<string>, sourceType: Option<string>,
    parser: Option<string>, isActive: Option<bool>, crawlInterval: Option<int>)

  function ValidateUpdate(p: UpdatePayload): (r: Option<NewsSourceUpdateRequest>)
    ensures r.Some? <==>
      (p.name.None? || NameOk(p.name.value))
      && (p.crawlInterval.None? || IntervalOk(p.crawlInterval.value))
      && (p.sourceType.None? || ParseSourceType(p.sourceType.value).Some?)
    ensures r.Some? ==> r.value.name == p.name && r.value.crawlInterval == p.crawlInterval
  {
    if p.name.Some? && !NameOk(p.name.value) then None
    else if p.crawlInterval.Some? && !IntervalOk(p.crawlInterval.value) then None
    else if p.sourceType.None? then
      Some(NewsSourceUpdateRequest(p.name, p.url, None, p.parser, p.isActive, p.crawlInterval))
    else
      match ParseSourceType(p.sourceType.value)
      case None => None
      case Some(t) => Some(NewsSourceUpdateRequest(p.name, p.url, Some(t), p.parser, p.isActive, p.crawlInterval))
  }

  /** The empty update (no field given) is always accepted. */
  lemma EmptyUpdateAccepted()
    ensures ValidateUpdate(UpdatePayload(None, None, None, None, None, None)).Some?
  {
  }

  datatype CrawlerTaskRequest = CrawlerTaskRequest(sourceId: string, forceCrawl: bool, maxPages: Option<int>)

  datatype CrawlerTaskPayload = CrawlerTaskPayload(sourceId: Option<string>, forceCrawl: Option<bool>, maxPages: Option<int>)

  predicate MaxPagesOk(m: Option<int>) {
    m.None? || 1 <= m.value <= 1000
  }

  function ValidateCrawlerTask(p: CrawlerTaskPayload): (r: Option<CrawlerTaskRequest>)
    ensures r.Some? <==> p.sourceId.Some? && MaxPagesOk(p.maxPages)
    ensures r.Some? ==> r.value.forceCrawl == p.forceCrawl.GetOr(false) && r.value.maxPages == p.maxPages
    ensures r.Some? ==> r.value.sourceId == p.sourceId.value
  {
    if p.sourceId.None? || !MaxPagesOk(p.maxPages) then None
    else Some(CrawlerTaskRequest(p.sourceId.value, p.forceCrawl.GetOr(false), p.maxPages))
  }

  /**
   * A search request. The dates are kept as the text that was sent; whether a
   * text is a datetime Pydantic accepts is the parameter `isDateTime`, since
   * that parsing is library code.
   */
  datatype NewsSearchRequest = NewsSearchRequest(
    query: Option<string>, category: Option<NewsCategory>, sourceId: Option<string>,
    startDate: Option<string>, endDate: Option<string>,
    page: int, pageSize: int, sortBy: string, sortOrder: string)

  datatype SearchPayload = SearchPayload(
    query: Option<string>, category: Option<string>, sourceId: Option<string>,
    startDate: Option<string>, endDate: Option<string>,
    page: Option<int>, pageSize: Option<int>, sortBy: Option<string>, sortOrder: Option<string>)

  /** An optional date field is absent or holds an accepted datetime. */
  predicate OptionalDateOk(d: Option<string>, isDateTime: string -> bool) {
    d.None? || isDateTime(d.value)
  }

  /**
   * A known category or none; both dates absent or datetimes; page >= 1 (default 1),
   * page_size in 1..100 (default 20), sorting by publish_time, descending, by default.
   */
  function ValidateSearch(p: SearchPayload, isDateTime: string -> bool): (r: Option<NewsSearchRequest>)
    ensures r.Some? <==>
      (p.page.None? || p.page.value >= 1) && (p.pageSize.None? || 1 <= p.pageSize.value <= 100)
      && (p.category.None? || ParseCategory(p.category.value).Some?)
      && OptionalDateOk(p.startDate, isDateTime) && OptionalDateOk(p.endDate, isDateTime)
    ensures r.Some? ==> r.value.page >= 1 && 1 <= r.value.pageSize <= 100
    ensures r.Some? ==>
      r.value.page == p.page.GetOr(1) && r.value.pageSize == p.pageSize.GetOr(20)
      && r.value.sortBy == p.sortBy.GetOr("publish_time") && r.value.sortOrder == p.sortOrder.GetOr("desc")
    ensures r.Some? ==>
      (r.value.category.None? <==> p.category.None?)
      && (r.value.category.Some? ==> CategoryValue(r.value.category.value) == p.category.value)
      && r.value.startDate == p.startDate && r.value.endDate == p.endDate
  {
    var page := p.page.GetOr(1);
    var size := p.pageSize.GetOr(20);
    if page < 1 || size < 1 || size > 100 then None
    else if !OptionalDateOk(p.startDate, isDateTime) || !OptionalDateOk(p.endDate, isDateTime) then None
    else if p.category.Some? && ParseCategory(p.category.value).None? then None
    else
      var category := if p.category.Some? then ParseCategory(p.category.value) else None;
      Some(NewsSearchRequest(p.query, category, p.sourceId, p.startDate, p.endDate, page, size,
                             p.sortBy.GetOr("publish_time"), p.sortOrder.GetOr("desc")))
  }

  /** The dates are kept as the accepted text. */
  datatype AnalyticsRequest = AnalyticsRequest(startDate: string, endDate: string, groupBy: string)

  /** Both dates are required and must be datetimes; the grouping defaults to "day". */
  function ValidateAnalytics(startDate: Option<string>, endDate: Option<string>, groupBy: Option<string>,
                             isDateTime: string -> bool): (r: Option<AnalyticsRequest>)
    ensures r.Some? <==> startDate.Some? && isDateTime(startDate.value) && endDate.Some? && isDateTime(endDate.value)
    ensures r.Some? ==>
      r.value.startDate == startDate.value && r.value.endDate == endDate.value && r.value.groupBy == groupBy.GetOr("day")
  {
    if startDate.None? || endDate.None? || !isDateTime(startDate.value) || !isDateTime(endDate.value) then None
    else Some(AnalyticsRequest(startDate.value, endDate.value, groupBy.GetOr("day")))
  }
}
