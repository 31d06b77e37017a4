# News-Engine crawl pipeline in Dafny

This project models the core of News-Engine, a news aggregation service. The
modelled parts are:

- the crawl engine: a page loop, a fetch with retries and linear back-off, and the link filter;
- the Sina extraction plugin: item records, the whole-page fallback, text cleaning and next-page discovery;
- the three Celery stage-task modules (crawl, process, index) and the queue and beat tables;
- the two in-memory registries behind the crawler and source endpoints;
- the request schemas and the data model;
- the two source-registration scripts;
- the health-check roll-up.

The network, the HTML parser, the URL library, the task broker, clocks and
random choices are all parameters. A fetch is an oracle `(url, attempt) ->
FetchOutcome`. A parsed page is a `Page` value holding what the selectors
would return. `urljoin`/`urlparse` come in as a `UrlLib` value. Every call that
may raise returns an `Outcome` (`Returned(v)` or `Raised(error)`). An HTTP
answer is a `Response` with a status code, a decoded body (or a decoding
error) and its text.

Modules, one per source file (plus `Wrappers`, `Text`, `Http`, `CrawlTypes`, `TaskBatch` and
`CrawlScenarios` for shared values, string helpers, the shared batch loop and worked crawls):

- `BaseCrawler`: `BaseCrawler.Crawler` is the crawler base class, and its counters, error list and recorded fetches and pauses are
  fields. `get_page` and `crawl` are methods proved against the functions `GetPageSpec` and `CrawlFrom`.
  The feed and website variants are plugin values.
- `SinaCrawler`: the Sina plugin's string decisions, as functions and lemmas. The two loops
  (`CollectItemArticles`, `CollectArticles`) are methods proved equal to the functions.
- `ProcessorTasks`, `IndexTasks`, `CrawlerTasks`: the task bodies' result records. The per-item batch
  loop is `TaskBatch.RunBatch`, proved against `Entries`.
- `CeleryApp`: the route globs, the queues and the beat schedule.
- `CrawlersEndpoint.TaskRegistry` and `SourcesEndpoint.SourceRegistry`: the registries, as classes with a `map` or a `seq` field.
- `Schemas`, `NewsModels`: field bounds as validation functions that return `None` on refusal; the enums and record defaults.
- `SourceConfig`, `LoadNewsSources`, `StartCrawler`: the configuration's categories, the parser
  and interval rules, and the added/failed and started/failed partitions.
- `HealthCheck.HealthChecker`: the `health_status` map as a field. Each check's roll-up is a function.

Points where the code and its documentation differ, and the model follows the code:

- The link filter checks the excluded extensions against the end of the whole lower-cased URL, so
  `a.PDF` is rejected but `a.pdf?x=1` is kept (`UpperCaseExtensionRejected`, `QueryAfterExtensionKept`).
- Pagination inference replaces the whole matched text with the next number, so
  `https://news.sina.com.cn/news/1.html` becomes `https://news.sina.com.cn/news/2` (`SinaInferExample`). It
  also replaces every occurrence (`KeyRewriteEveryOccurrence`).
- The Sina item rule tests the raw title and link for emptiness before cleaning. A title that cleans to
  `""` still yields a record.
- `clean_text` is not idempotent (`CleanTextNotIdempotent`): a removed character after a space leaves a
  trailing space that a second pass strips.
- The registration loader gives aggregator, portal and search sources their own parser and interval. Those
  three type names are not `NewsSourceType` values, so the API refuses every such post (`TypedPostsRejected`).
- The registered task names (`crawler.*`, `processor.*`, `index.*`) match none of the route globs. Only the
  explicit `queue="crawler"` of the start endpoint sends a crawl to the crawler queue (`RegisteredTasksUnrouted`,
  `StartDispatchQueue`).

## Model

| member | source | states |
|---|---|---|
| BaseCrawler.UpperCaseExtensionRejected | app/crawlers/base_crawler.py:113-134 | a URL ending in `.PDF` is never a valid link: the extension test lower-cases the whole URL |
| BaseCrawler.QueryAfterExtensionKept | app/crawlers/base_crawler.py:113-134 | an http(s) URL with a host that ends in `.pdf?x=1` is valid, because only the end of the whole URL string is checked |
| BaseCrawler.IsValidLink | app/crawlers/base_crawler.py:113-134 | no contract of its own: a link is valid when it parses, its scheme is http or https, it names a host, and the lower-cased whole URL does not end in an excluded extension; UpperCaseExtensionRejected and QueryAfterExtensionKept state its consequences |
| BaseCrawler.ValidJoined | app/crawlers/base_crawler.py:100-111 | every kept link is valid, every href that joins to a valid link is kept, and every kept link is the successful join of some href |
| BaseCrawler.ExtractLinks | app/crawlers/base_crawler.py:100-111 | raises exactly when `urljoin` raises on some anchor (there is no handler); otherwise the links are exactly the valid joined hrefs, with no duplicates |
| BaseCrawler.GetPageSpec | app/crawlers/base_crawler.py:64-94 | a fetch makes at least one request and only appends to the request log, the pauses and the errors; it adds exactly one error entry when it gives up and none when it returns a page |
| BaseCrawler.GetPageRequests | app/crawlers/base_crawler.py:64-94 | a fetch makes between 1 and `max_retries - retries + 1` requests for the URL; every request but the last failed; a page comes from the last request; giving up means all attempts were used and the last one failed |
| BaseCrawler.GetPagePauses | app/crawlers/base_crawler.py:64-94 | the pauses are `delay * (k + 1)` before each retry k, then one `delay` after a success |
| BaseCrawler.GetPageErrors | app/crawlers/base_crawler.py:89-93 | a success adds no error entry; giving up adds exactly one, carrying the URL, the last error and the retry count |
| BaseCrawler.AlwaysFailingFetch | app/crawlers/base_crawler.py:64-94 | against a host that always fails: `max_retries + 1` requests, `max_retries` back-off pauses, no page, and one error entry whose retries equal `max_retries` |
| BaseCrawler.CrawlShape | app/crawlers/base_crawler.py:146-209 | the page count never passes `max_pages`; articles only grow and are counted in `articles_found`; the loop adds at most one error entry, which is a fetch error or a crawler error tagged with the page count; a loop that ends without one was stopped by its guard |
| BaseCrawler.QuietPluginOnlyFetchErrors | app/crawlers/base_crawler.py:156-184 | with a plugin that never raises, the crawl adds no crawler error entry |
| BaseCrawler.CrawlFrom | app/crawlers/base_crawler.py:146-209 | a crawl only appends to the articles, the request log and the pauses; a crawl whose guard holds makes at least one request |
| BaseCrawler.Crawler.constructor | app/crawlers/base_crawler.py:20-37 | the configured fields are set; the counters start at zero; the error list starts empty |
| BaseCrawler.Crawler.WithDefaults | app/crawlers/base_crawler.py:28-36 | delay 1.0, timeout 30, three retries and ten pages by default (app/config.py:45-47) |
| BaseCrawler.Crawler.GetPage | app/crawlers/base_crawler.py:64-94 | the page returned and the new requests, pauses and errors are those of `GetPageSpec`; the article counters are unchanged |
| BaseCrawler.Crawler.Crawl | app/crawlers/base_crawler.py:146-209 | the result record and the new counters and error list are those of the loop `CrawlFrom`, started at the source URL with the current `articles_found` |
| BaseCrawler.FreshCrawlCounters | app/crawlers/base_crawler.py:146-209 | on a fresh crawler, `articles_found` equals the number of articles, at most `max_pages` pages are crawled, and at most one error is recorded |
| BaseCrawler.RssExtract | app/crawlers/base_crawler.py:231-253 | one feed record per entry, in order, each carrying the entry's link and this crawler's source; none when the feed cannot be read |
| BaseCrawler.RssPlugin | app/crawlers/base_crawler.py:223-257 | the feed variant never raises, and its next page is always None |
| BaseCrawler.SinglePageWithoutNext | app/crawlers/base_crawler.py:255-257 | a plugin without a next page crawls at most one page |
| BaseCrawler.WebsitePlugin | app/crawlers/base_crawler.py:260-277 | both operations of the generic website variant raise on every page |
| BaseCrawler.WebsiteCrawlFails | app/crawlers/base_crawler.py:271-277 | the website variant's crawl counts no page and no article; when the first fetch succeeds, it records exactly one crawler error at page 0 |
| SinaCrawler.TrimStart | app/crawlers/sina_crawler.py:238 | the result is a suffix of the input that does not start with whitespace, and everything dropped was whitespace |
| SinaCrawler.TrimEnd | app/crawlers/sina_crawler.py:238 | the result is a prefix of the input that does not end with whitespace, and everything dropped was whitespace |
| SinaCrawler.Strip | app/crawlers/sina_crawler.py:238 | the result is a slice of the input with only whitespace before and after it, and it neither starts nor ends with whitespace |
| SinaCrawler.CollapseSpaces | app/crawlers/sina_crawler.py:238 | empty exactly for empty input; every whitespace character left is a plain space; it starts with whitespace exactly when the input does |
| SinaCrawler.CollapseKeepsText | app/crawlers/sina_crawler.py:238 | the non-whitespace characters of the result are those of the input, in order |
| SinaCrawler.CollapseNoDoubleSpace | app/crawlers/sina_crawler.py:238 | no two whitespace characters are adjacent in the result |
| SinaCrawler.CollapseKeepsEnd | app/crawlers/sina_crawler.py:238 | the result ends with whitespace exactly when the input does |
| SinaCrawler.CollapseJoin | app/crawlers/sina_crawler.py:238 | a whitespace run between a part not ending and a part not starting with whitespace becomes one space, each part collapsing on its own |
| SinaCrawler.RemoveDisallowed | app/crawlers/sina_crawler.py:241 | only allowed characters are left, each from the input; an input of allowed characters is unchanged |
| SinaCrawler.RemoveKeepsCounts | app/crawlers/sina_crawler.py:241 | every allowed character occurs in the result as often as in the input, and no other character occurs |
| SinaCrawler.RemoveDisallowedAppend | app/crawlers/sina_crawler.py:241 | the filter distributes over concatenation, so the kept characters keep their order |
| SinaCrawler.CleanText | app/crawlers/sina_crawler.py:232-243 | empty text gives `""`; the result is no longer than the input; its only whitespace is plain spaces; every character is allowed |
| SinaCrawler.CleanTextNotIdempotent | app/crawlers/sina_crawler.py:232-243 | cleaning a word, a space and a removed character leaves a trailing space, and cleaning again removes it |
| SinaCrawler.CleanTwoWords | app/crawlers/sina_crawler.py:232-243 | two runs of allowed characters surrounded by whitespace clean to the two runs joined by one space |
| SinaCrawler.CleanTextExample | tests/test_crawlers.py:17-21 | `"  测试文本  \n\n  包含换行  "` cleans to `"测试文本 包含换行"` |
| SinaCrawler.ParsePublishTime | app/crawlers/sina_crawler.py:245-269 | None exactly for empty input; otherwise the input unchanged |
| SinaCrawler.ExtractArticleData | app/crawlers/sina_crawler.py:67-117 | a record exactly when the helpers return and the raw title and link are non-empty; it carries the link, the source id, the name `新浪新闻` and the parsed publish time |
| SinaCrawler.ItemArticlesAreItemRecords | app/crawlers/sina_crawler.py:46-54 | every record collected from the items is an item record for a non-empty link, stamped with this crawler's source |
| SinaCrawler.ExtractFromPage | app/crawlers/sina_crawler.py:119-155 | a record exactly when the page title and the first matched content are non-empty; its URL is the page URL |
| SinaCrawler.ExtractArticles | app/crawlers/sina_crawler.py:35-65 | the result is all item records, or the single whole-page record; it is empty only when the page fallback also gives nothing; at most one record per item (or one) |
| SinaCrawler.ExtractArticlesAsWritten | app/crawlers/sina_crawler.py:35-117 | as written, at most one record, and it is the whole-page record for the page URL |
| SinaCrawler.ExtractArticlesShape | app/crawlers/sina_crawler.py:35-65 | the result is either item records only, or, when no item yielded one, the single page record; never more records than items (or one) |
| SinaCrawler.CollectItemArticles | app/crawlers/sina_crawler.py:46-54 | the loop's list is the item records in item order |
| SinaCrawler.CollectArticles | app/crawlers/sina_crawler.py:35-65 | the loop's list is the item records, or the page record when there are none |
| SinaCrawler.MissingHelpersYieldNothing | app/crawlers/sina_crawler.py:67-117 | with the per-item helpers raising, no item yields a record |
| SinaCrawler.AsWrittenOnlyPageRecord | app/crawlers/sina_crawler.py:35-65 | as written, extraction yields only the page record, if any |
| SinaCrawler.ItemRecordLostAsWritten | app/crawlers/sina_crawler.py:67-117 | a list page with one linked item yields that item's record with working helpers and nothing as written |
| SinaCrawler.FindKey | app/crawlers/sina_crawler.py:210-215 | the first position at or after `from` where the key is followed by a digit; None when there is none |
| SinaCrawler.FirstValidCandidate | app/crawlers/sina_crawler.py:214-224 | None exactly when no candidate exists and validates; otherwise the candidate at the first index that does |
| SinaCrawler.InferNextPageUrl | app/crawlers/sina_crawler.py:204-230 | None exactly when none of the three pattern rewrites validates; otherwise the first that does, in pattern order, which differs from the current URL |
| SinaCrawler.IsValidNextPageUrl | app/crawlers/sina_crawler.py:181-202 | no contract of its own: accepted when both URLs parse, the hosts agree, the lower-cased path contains `news` and the URLs differ; an unparseable URL is refused, as the `except` does; NextPageValidationExamples instantiates it |
| SinaCrawler.FirstValidLink | app/crawlers/sina_crawler.py:161-169 | the first non-empty href, in selector order, that either joins to a valid next page or makes `urljoin` raise decides: a hit gives its join, a raise gives `JoinRaised`; exhausted exactly when no href does either |
| SinaCrawler.GetNextPageUrl | app/crawlers/sina_crawler.py:157-179 | the next URL always validates and is never the current URL; the first deciding href gives its join, or None when `urljoin` raised on it (the handler's return); with no deciding href, the inferred URL when that is non-empty |
| SinaCrawler.JoinRaiseEndsSearch | app/crawlers/sina_crawler.py:159-179 | a first href on which `urljoin` raises gives None, though a later selector's link would validate and inference is never tried |
| SinaCrawler.SinaPlugin | app/crawlers/sina_crawler.py:14-179 | the Sina variant never raises from extraction or pagination: both handlers catch everything |
| SinaCrawler.TrailingRewrite | app/crawlers/sina_crawler.py:209-221 | a URL `p + digits + .html` is rewritten to `p` followed by the number plus one, dropping the suffix |
| SinaCrawler.SinaInferExample | app/crawlers/sina_crawler.py:204-230 | `https://news.sina.com.cn/news/1.html` infers `https://news.sina.com.cn/news/2` |
| SinaCrawler.NextPageValidationExamples | tests/test_crawlers.py:29-38 | a same-host news URL validates; another host's URL does not |
| SinaCrawler.KeyRewriteEveryOccurrence | app/crawlers/sina_crawler.py:221 | every occurrence of `page=1` is replaced, not just the first |
| CrawlScenarios.SinaListCrawl | app/crawlers/base_crawler.py:146-209 | a Sina crawl of a list page with one item (and no next page) crawls one page and finds that item's article, with no errors |
| CrawlScenarios.SinaListCrawlAsWritten | app/crawlers/sina_crawler.py:67-117 | the same crawl, as written, crawls one page and finds nothing |
| CrawlScenarios.DownHostFetch | app/crawlers/base_crawler.py:64-94 | with the default three retries a down host gets four requests and one error with retries 3 |
| TaskBatch.EntriesPointwise | app/tasks/processor_tasks.py:30-46 | one entry per id, in input order, each the outcome of that id's call |
| TaskBatch.CountsPartition | app/tasks/processor_tasks.py:26-67 | done plus failed entries is the batch size |
| TaskBatch.RunBatch | app/tasks/processor_tasks.py:26-67 | the loop's results are the entries, its counters count done and failed entries, and they add up to the batch size |
| ProcessorTasks.ProcessNewsTask | app/tasks/processor_tasks.py:14-89 | on success, one result per id and `processed + failed == total == len(ids)`; an error at the end gives the error record with no results |
| ProcessorTasks.ProcessedBatchClassification | app/tasks/processor_tasks.py:260-284 | with the real per-article step nothing fails, and each result is that id's fixed record |
| ProcessorTasks.FailureIsolated | app/tasks/processor_tasks.py:39-46 | making item j raise changes only entry j, to a failed entry with the error |
| ProcessorTasks.ProcessSingleArticle | app/tasks/processor_tasks.py:260-284 | the record carries the given id, status `processed`, the five steps in order and the fixed metadata; only the id varies |
| ProcessorTasks.SchedulePending | app/tasks/processor_tasks.py:92-143 | nothing is dispatched exactly when nothing is pending; a dispatch passes the pending ids; a dispatch error is reported |
| ProcessorTasks.ScheduleProcessorTask | app/tasks/processor_tasks.py:92-116 | with no pending query the scheduler always reports nothing to process |
| ProcessorTasks.AnalyzeArticleSentiment | app/tasks/processor_tasks.py:287-305 | the score is one of five values and the label is the label at the same index |
| ProcessorTasks.SentimentBijection | app/tasks/processor_tasks.py:292-296 | scores and labels are pairwise distinct, so a label determines the chosen index |
| ProcessorTasks.AnalyzeSentimentTask | app/tasks/processor_tasks.py:197-257 | on success one result per id and `analyzed <= total`; an error at the end gives the error record |
| ProcessorTasks.SentimentBatchAllAnalyzed | app/tasks/processor_tasks.py:209-244 | with the real per-article step every article is analyzed |
| IndexTasks.IndexSingleArticle | app/tasks/index_tasks.py:312-332 | the document id is `doc_` plus the article id; index `news_articles`, status `indexed`, five fixed steps |
| IndexTasks.DocumentIdInjective | app/tasks/index_tasks.py:312-332 | different articles get different document ids |
| IndexTasks.IndexNewsTask | app/tasks/index_tasks.py:14-89 | on success one result per id and `indexed + failed == total == len(ids)`; an error at the end gives the error record |
| IndexTasks.IndexedBatch | app/tasks/index_tasks.py:26-67 | with the real per-article step nothing fails, and each result is that id's record |
| IndexTasks.DistinctDocumentIds | app/tasks/index_tasks.py:312-332 | distinct ids in a batch get distinct document ids |
| IndexTasks.SchedulePending | app/tasks/index_tasks.py:92-143 | nothing is dispatched exactly when nothing is pending; a dispatch passes the pending ids |
| IndexTasks.ScheduleIndexTask | app/tasks/index_tasks.py:92-116 | with no pending query the scheduler always reports nothing to index |
| IndexTasks.RebuildIndexTask | app/tasks/index_tasks.py:146-201 | success exactly when the final update succeeds, then reporting the five steps |
| IndexTasks.RebuildStepOrder | app/tasks/index_tasks.py:159-188 | five distinct steps, backup first and verify last, delete before create before reindex |
| CrawlerTasks.StartCrawlerTask | app/tasks/crawler_tasks.py:14-71 | success exactly without a fault, echoing the source id, with zero counters; a fault gives the error record |
| CrawlerTasks.ScheduleCrawlerTask | app/tasks/crawler_tasks.py:74-112 | success exactly without a fault; a fault gives the error record |
| CrawlerTasks.BatchCrawlerTask | app/tasks/crawler_tasks.py:115-153 | the source ids are returned unchanged; success exactly without a fault |
| CrawlerTasks.BatchMessageCount | app/tasks/crawler_tasks.py:130-139 | the batch message carries the number of source ids in decimal |
| CeleryApp.DispatchQueue | app/celery_app.py:31-38 | an explicitly named queue wins; otherwise the routing table decides |
| CeleryApp.QueueTable | app/celery_app.py:38-44 | exactly the queues `default`, `crawler`, `processor`, `index`, each with exchange and routing key equal to its name; the default is among them |
| CeleryApp.RoutesDisjoint | app/celery_app.py:31-35 | no task name matches two route globs |
| CeleryApp.RoutingExact | app/celery_app.py:31-38 | a name goes to the crawler, processor or index queue exactly when it is that module's prefix followed by a character other than a newline, and to `default` exactly when no glob matches |
| CeleryApp.BarePrefixToDefault | app/celery_app.py:31-38 | the bare module prefix, or the prefix and a newline, goes to `default`; a task under the module goes to its queue |
| CeleryApp.OtherNamesToDefault | app/celery_app.py:31-38 | a name not starting with `a` goes to `default` |
| CeleryApp.RegisteredTasksUnrouted | app/celery_app.py:31-35 | every registered task name is routed to `default` by the table; only an explicit queue sends the start task to `crawler` |
| CeleryApp.BeatScheduleShape | app/celery_app.py:73-89 | three entries: the crawl, process and index schedulers every 3600, 1800 and 900 seconds, with empty args, registered tasks and distinct keys |
| CrawlersEndpoint.StartDispatchQueue | app/api/v1/endpoints/crawlers.py:89-93 | the start dispatch passes `[source_id]` and reaches `crawler` only because it names that queue |
| CrawlersEndpoint.Lookup | app/api/v1/endpoints/crawlers.py:153-169 | a known id gives the stored record unchanged; an unknown id gives 404 |
| CrawlersEndpoint.MatchingComplete | app/api/v1/endpoints/crawlers.py:64-67 | a filter keeps every record with the wanted value (and, by its contract, only those) |
| CrawlersEndpoint.SelectedExactly | app/api/v1/endpoints/crawlers.py:61-67 | a record is selected exactly when it is registered and matches each non-empty filter |
| CrawlersEndpoint.ListTasks | app/api/v1/endpoints/crawlers.py:52-80 | a limit outside 1..200 is refused; otherwise the selection cut to the limit (default 50), with `total` its length |
| CrawlersEndpoint.ListingSoundAndComplete | app/api/v1/endpoints/crawlers.py:61-76 | every listed record matches the filters; when the selection fits the limit, every matching record is listed |
| CrawlersEndpoint.EmptyFilterIgnored | app/api/v1/endpoints/crawlers.py:64-67 | an empty or absent filter selects everything |
| CrawlersEndpoint.TaskRegistry.constructor | app/api/v1/endpoints/crawlers.py:16-18 | the registry starts empty |
| CrawlersEndpoint.TaskRegistry.StartCrawlerTask | app/api/v1/endpoints/crawlers.py:83-129 | a dispatch error gives 500 and leaves the registry unchanged; otherwise one queued record with zero progress is stored under the dispatch id and returned, and other records are unchanged |
| CrawlersEndpoint.TaskRegistry.GetTaskStatus | app/api/v1/endpoints/crawlers.py:153-169 | the lookup of the id in the registry |
| CrawlersEndpoint.TaskRegistry.ListCrawlerTasks | app/api/v1/endpoints/crawlers.py:52-80 | the listing of the registered records in registration order |
| CrawlersEndpoint.RegisterThenLookup | app/api/v1/endpoints/crawlers.py:153-163 | after storing a record its id finds it, and other ids find what they found before |
| CrawlersEndpoint.StopCrawlerTask | app/api/v1/endpoints/crawlers.py:132-150 | success echoing the id, with the stop message |
| CrawlersEndpoint.GetCrawlerStatus | app/api/v1/endpoints/crawlers.py:21-49 | all counters zero, no last crawl time, status `unknown` |
| SourcesEndpoint.CreatedSource | app/api/v1/endpoints/sources.py:65-77 | an 8-character id from the UUID text; name, url, type, parser and interval copied; active; never crawled; creation and update times are the two clock readings |
| SourcesEndpoint.CreatedSourceOk | app/api/v1/endpoints/sources.py:65-77 | a source created from a valid request satisfies the model's bounds |
| SourcesEndpoint.SourceRegistry.constructor | app/api/v1/endpoints/sources.py:40-43 | the list starts empty |
| SourcesEndpoint.SourceRegistry.CreateNewsSource | app/api/v1/endpoints/sources.py:52-89 | an accepted source is appended and returned, earlier entries unchanged; a refused one gives 500 and leaves the list unchanged |
| SourcesEndpoint.SourceRegistry.ListNewsSources | app/api/v1/endpoints/sources.py:16-49 | every created source in creation order, whatever the filters |
| SourcesEndpoint.GetNewsSource | app/api/v1/endpoints/sources.py:92-113 | always 404 |
| SourcesEndpoint.UpdateNewsSource | app/api/v1/endpoints/sources.py:116-138 | always 404 |
| SourcesEndpoint.DeleteNewsSource | app/api/v1/endpoints/sources.py:141-161 | always success |
| SourcesEndpoint.TestNewsSource | app/api/v1/endpoints/sources.py:164-185 | always success, echoing the id |
| SourcesEndpoint.ActivateNewsSource | app/api/v1/endpoints/sources.py:188-208 | always success |
| SourcesEndpoint.DeactivateNewsSource | app/api/v1/endpoints/sources.py:211-231 | always success |
| Schemas.ValidateCreate | app/schemas/requests.py:34-40 | accepted exactly when a name of 1 to 100 characters, a url, a parser and a known type are given and the interval (default 300) is at least 60 |
| Schemas.ValidateUpdate | app/schemas/requests.py:54-61 | accepted exactly when every given field meets its bound; absent fields stay absent |
| Schemas.EmptyUpdateAccepted | app/schemas/requests.py:54-61 | an update with no field is accepted |
| Schemas.ValidateCrawlerTask | app/schemas/requests.py:64-68 | accepted exactly when a source id is given and `max_pages` is absent or in 1..1000; `force_crawl` defaults to false |
| Schemas.ValidateSearch | app/schemas/requests.py:11-21 | accepted exactly when the category is absent or one of the nine names, each date is absent or a datetime, the page is at least 1 and the page size in 1..100; the category is parsed to its member, the dates kept; defaults 1, 20, `publish_time`, `desc` |
| Schemas.ValidateAnalytics | app/schemas/requests.py:78-83 | accepted exactly when both dates are given and both are datetimes; the dates are kept and grouping defaults to `day` |
| NewsModels.ParseSourceType | app/models/news.py:10-15 | a parsed type's value is the parsed text |
| NewsModels.SourceTypesExactlyFour | app/models/news.py:10-15 | four source types with distinct values, each parsed back from its value |
| NewsModels.ParseCategory | app/models/news.py:18-28 | a parsed category's value is the parsed text, and None means no category has that value |
| NewsModels.CategoriesExactlyNine | app/models/news.py:18-28 | nine categories with distinct values, the last `other`, each parsing back to its member |
| NewsModels.StatusesExactlyFour | app/models/news.py:31-36 | four statuses with distinct values |
| NewsModels.NewSource | app/models/news.py:39-50 | a new source is active, crawled every 300 seconds, never crawled yet; its creation and update times are separate clock readings |
| NewsModels.NewArticle | app/models/news.py:64-89 | a new article is a draft with zero counts and empty tag, keyword, image and video lists; its crawl, creation and update times are separate clock readings |
| SourceConfig.ListedCountIsFlattenedLength | load_news_sources.py:43-59 | the summary total is the length of the flattened list-valued categories |
| SourceConfig.AllListed | load_news_sources.py:74-79 | no contract of its own: the list-valued categories' sources concatenated in file order; ListedCountIsFlattenedLength and AllListedMembers state its length and members |
| SourceConfig.AllListedMembers | load_news_sources.py:74-79 | a source is in the flattened list exactly when some list-valued category holds it |
| SourceConfig.CollectListed | start_crawler.py:39-47 | the loop's list is the list-valued categories concatenated in order |
| SourceConfig.KeywordParserRules | load_news_sources.py:146-164 | the keyword chain finds no parser exactly when no keyword is in the name; `baidu` wins over everything, then `sina` |
| SourceConfig.KeywordParser | load_news_sources.py:146-164 | a parser found by keyword is one of the seven named parsers; KeywordParserRules states the order of the chain |
| SourceConfig.SourceDataFor | load_news_sources.py:97-110 | the post body copies name, url and type, carries the chosen parser and interval, is active, and has a description exactly when notes are given |
| SourceConfig.PayloadAcceptance | app/schemas/requests.py:34-40 | the API accepts a post body exactly when the name has 1 to 100 characters, the type is known and the interval is at least 60 |
| SourceConfig.AddPartition | load_news_sources.py:95-137 | each source lands in exactly one of added and failed |
| SourceConfig.AddEach | load_news_sources.py:95-137 | the loop's added and failed lists are those of the partition and add up to the number of sources |
| LoadNewsSources.ParserNameRange | load_news_sources.py:146-173 | one of eleven parser names; a generic one exactly when no keyword matches, and then of the declared type's kind |
| LoadNewsSources.ParserName | load_news_sources.py:146-173 | no contract of its own: the keyword parser, else the generic parser of the declared type; ParserNameRange states its range and when each generic name is chosen |
| LoadNewsSources.CrawlIntervalAccepted | load_news_sources.py:175-186 | 300 exactly for aggregators, 900 exactly for search, 600 otherwise; always at least 60 |
| LoadNewsSources.CrawlInterval | load_news_sources.py:175-186 | every interval the loader picks is at least 60 seconds, the API's lower bound |
| LoadNewsSources.TypedPostsRejected | load_news_sources.py:97-110 | aggregator, portal and search posts are always refused; a known-type post is accepted exactly when its name has 1 to 100 characters |
| LoadNewsSources.ValueOf | load_news_sources.py:70-73 | a value exactly when the key is present, and then one stored under it |
| LoadNewsSources.SelectionCases | load_news_sources.py:70-79 | no category or an unknown one gives all list-valued categories; a listed category gives its own list; every chosen source comes from some listed category |
| LoadNewsSources.Select | load_news_sources.py:70-79 | no contract of its own: a named key's value, or every list-valued category; SelectionCases states each case |
| LoadNewsSources.AddSourcesToSystem | load_news_sources.py:61-144 | no configuration; nothing to add; a crash for a named true value without a length, or for a named string or object once confirmed; a refused confirmation; or the added/failed partition of the selection |
| LoadNewsSources.DisplaySourcesSummary | load_news_sources.py:34-59 | no total without a configuration; otherwise the number of sources in list-valued categories |
| StartCrawler.IntervalFollowsParser | start_crawler.py:121-131 | 300 exactly for the baidu, sina and sohu parsers, 600 for tencent and sogou, 900 otherwise; always at least 60 |
| StartCrawler.ParserName | start_crawler.py:100-119 | no contract of its own: the keyword parser, else `generic_website`; ParsersAgree compares it with the loader's |
| StartCrawler.CrawlInterval | start_crawler.py:121-131 | every interval the starter picks is at least 60 seconds, the API's lower bound |
| StartCrawler.ParsersAgree | start_crawler.py:100-119 | the starter's parser name equals the loader's on a keyword hit, and otherwise exactly when the type has no generic parser of its own |
| StartCrawler.StarterPostAcceptance | start_crawler.py:56-63 | a starter post is accepted exactly when the name has 1 to 100 characters and the type is known |
| StartCrawler.AddNewsSources | start_crawler.py:34-98 | the added and failed lists partition the flattened sources |
| StartCrawler.StartBodyAccepted | start_crawler.py:158-166 | the start body passes the crawler-task validation |
| StartCrawler.StartFromShape | start_crawler.py:148-206 | the run finishes exactly when every remaining source has an id and a name, then each lands in started or failed; otherwise it stops at the first that does not |
| StartCrawler.StartTasksShape | start_crawler.py:133-220 | no sources gives the early return; otherwise started plus failed equals the number of sources, or the run stops at the first source missing a key |
| StartCrawler.StartTasks | start_crawler.py:133-220 | no contract of its own: no sources, the first missing key, or the started and failed lists; StartTasksShape states the partition |
| StartCrawler.StartCrawlerTasks | start_crawler.py:133-220 | the loop's outcome is that of `StartTasks` |
| StartCrawler.PolledExactly | start_crawler.py:262-268 | a task id is polled exactly when it is present, not `N/A`, and belongs to a started task |
| StartCrawler.Polled | start_crawler.py:262-268 | never more ids than started tasks, and only ids that are neither empty nor `N/A` |
| StartCrawler.CheckStartedTasks | start_crawler.py:254-294 | the loop polls exactly the ids of `Polled` |
| StartCrawler.Run | start_crawler.py:296-318 | stops when the system is unreachable or nothing was added; otherwise starts the added sources and polls the started tasks |
| Text.ContainsWitness | start_crawler.py:104 | a substring test that holds has a position where the substring occurs |
| Text.Lower | app/crawlers/base_crawler.py:128 | lower-casing keeps the length and maps each character |
| Text.DecimalRoundTrip | app/crawlers/sina_crawler.py:218-221 | the decimal text of a number reads back as that number |
| Text.Dedupe | app/crawlers/base_crawler.py:111 | the same elements, without duplicates |
| HealthCheck.CountOfZero | health_check.py:454-462 | a status counts zero exactly when absent, and all entries exactly when every entry has it |
| HealthCheck.CountsBounded | health_check.py:454-462 | counts of three distinct statuses add up to at most the number of entries |
| HealthCheck.DatabaseReportOf | health_check.py:100-199 | the report covers exactly postgresql, mongodb, redis and elasticsearch |
| HealthCheck.DatabaseRollup | health_check.py:186-195 | healthy exactly when all four are connected, unhealthy exactly when none is, warning otherwise; errors plus connected is four |
| HealthCheck.QueuesOf | health_check.py:241-252 | the queue inspection covers exactly celery, crawler, processor and index |
| HealthCheck.InspectQueues | health_check.py:241-252 | the loop's map is that of `QueuesOf` |
| HealthCheck.CeleryReportOf | health_check.py:201-279 | the status is the roll-up of the recorded beat and worker states, replacing the provisional `error`; at most two errors, and none exactly when both run |
| HealthCheck.CeleryRollupCases | health_check.py:265-275 | healthy exactly when beat and a worker run, warning exactly when one does, unhealthy when neither; queues only when both probes answered |
| HealthCheck.CrawlerReportOf | health_check.py:281-356 | one error per unanswered request |
| HealthCheck.CrawlerRollup | health_check.py:348-352 | healthy exactly when the source list answered with an active source; otherwise unhealthy |
| HealthCheck.NewsReportOf | health_check.py:358-445 | recent news never exceed total news |
| HealthCheck.NewsRollup | health_check.py:437-441 | healthy exactly when the news request answered with a non-empty list; otherwise warning |
| HealthCheck.ApiReportOf | health_check.py:22-98 | the status is the basic answer's, or unhealthy without one; detailed and ready parts exactly when answered |
| HealthCheck.KeysDistinct | health_check.py:537-553 | the five components have distinct keys |
| HealthCheck.OverallRollup | health_check.py:464-473 | healthy without warnings and unhealthy components, warning with a warning and no unhealthy one, unhealthy otherwise; the three counts are at most the total |
| HealthCheck.HealthChecker.constructor | health_check.py:16-20 | no results yet |
| HealthCheck.HealthChecker.Store | health_check.py:278 | the key's entry is replaced; other entries are unchanged |
| HealthCheck.HealthChecker.CheckApiHealth | health_check.py:22-98 | the API report is stored under its own key only |
| HealthCheck.HealthChecker.CheckDatabaseHealth | health_check.py:100-199 | the database report is stored under its own key only |
| HealthCheck.HealthChecker.CheckCeleryHealth | health_check.py:201-279 | the Celery report is stored under its own key only |
| HealthCheck.HealthChecker.CheckCrawlerHealth | health_check.py:281-356 | the crawler report is stored under its own key only |
| HealthCheck.HealthChecker.CheckNewsData | health_check.py:358-445 | the news report is stored under its own key only |
| HealthCheck.HealthChecker.GenerateHealthReport | health_check.py:447-535 | the counts are those of the stored statuses, the total is the number of components, and the overall status is their roll-up |
| HealthCheck.HealthChecker.RunFullHealthCheck | health_check.py:537-553 | all five reports stored in check order; a report over five components whose healthy, warning and unhealthy counts are those of the stored statuses, and whose overall status is their roll-up |

## Left out

- Network I/O: sessions, headers, user agents, proxies and timeouts. A fetch is an oracle; status checks are part of its outcome.
- HTML parsing and CSS selection: a page is a `Page` value listing what each selector returns.
- `urljoin` and `urlparse`: taken as the `UrlLib` parameter; each gives None where the library raises. The raised error's text is not modelled.
- The regular expressions: the three page patterns are written out. Unicode `\w` and the CJK range are the parameter `word`.
- `feedparser`: only the entry-to-record mapping is modelled.
- `time.sleep`: pauses are recorded values, not waits.
- Clocks, `uuid4` and `random`: these are parameters (`now`, the UUID text, the chosen score index).
- SinaCrawler.SinaPlugin: one `now` stamps every record the plugin builds on every page. The source reads `datetime.utcnow()` again for each item record (sina_crawler.py:110) and for the page record (sina_crawler.py:149), so its records of one crawl may carry different times.
- Floats: `crawl_time`, `processing_time`, `indexing_time`, `confidence` and the constant metrics. A sentiment score is an index into the five values.
- Text.Lower: lower-cases ASCII letters only, because Python's full Unicode case mapping is not modelled.
- BaseCrawler.ExtractLinks: does not fix the order of the links, because `list(set(...))` has no defined order.
- Session cleanup (`cleanup`, `__exit__`): `crawl` never calls it.
- Celery runtime: `apply_async`, `update_state`, acknowledgements and worker pools. A dispatch is an `Outcome` parameter, and a failing state update is the `updateFault` parameter.
- ProcessorTasks.ProcessNewsTask: `updateFault` covers only the state update on the success path. The `update_state(state='FAILURE')` call in the `except` branch (processor_tasks.py:74-80) can raise too, and the task then raises instead of returning its error record. That path is not modelled.
- IndexTasks.IndexNewsTask: the same holds for the `update_state(state='FAILURE')` call at index_tasks.py:74-80.
- `cleanup_duplicates_task`, `optimize_index_task` and `sync_database_task`: their bodies hold only constant float metrics.
- The batch crawl and statistics endpoints, and the news, analytics and health endpoint modules: not part of this model.
- Pydantic's `HttpUrl` normalisation and the 422 error body: a refused request is `None`, or 422 in listings.
- Pydantic's datetime parsing: whether a text is an accepted datetime is the parameter `isDateTime`. Accepted dates are kept as their text.
- Pydantic's type checks and coercions: payload fields arrive already typed (integers, strings, booleans). A field of the wrong JSON type, such as `"page": "x"`, is not represented.
- Schemas.ValidateAnalytics: the optional `filters` field is not modelled, so the refusal of a `filters` value that is not an object is not modelled either.
- JSON `null` in the configuration file, and loading the file: an empty configuration stands for a missing or unreadable file.
- The confirmation prompt and the menus (`input`, `print`): the operator's answer is the `confirmed` parameter.
- LoadNewsSources.ValueOf: a configuration stands for a decoded JSON object, but the model does not require its keys to be distinct. For a file that repeats a key, `json.load` keeps only the last value, whereas ValueOf takes the first and AllListed counts every copy.
- HealthCheck.FieldNamed: a decoded news answer stands for a JSON object, but its fields may repeat a key. FieldNamed takes the first `"data"` field, whereas `json` keeps the last value.
- SinaCrawler.FindKey: digits are ASCII only, whereas Python's `\d` and `int()` accept every Unicode decimal digit. A key followed by a number that mixes scripts (`page=2١`) is matched with its ASCII run only, so the rewrite gives `3١` where the source gives `22`.
- SinaCrawler.InferNextPageUrl: digits are ASCII only. A page number with non-ASCII digits is not matched by the first pattern, so the model returns a later pattern's rewrite or None (`.../news/page=3/١.html` gives `.../news/4/١.html`, where the source gives `.../news/page=3/2`). A number that mixes scripts has only its ASCII run rewritten (`.../news/١2.html` gives `.../news/١3`, where the source gives `.../news/13`).
- SourceConfig.SourceEntry: every configured source is assumed to be a JSON object with string fields. An entry of another kind, such as `"portals": ["sina"]`, has no `.get`, and the scripts crash outside any `try`: in the loader's summary (load_news_sources.py:51), its registration loop (load_news_sources.py:97) and the starter's loop (start_crawler.py:51). LoadNewsSources.DisplaySourcesSummary, LoadNewsSources.AddSourcesToSystem and StartCrawler.AddNewsSources do not cover that crash.
- HealthCheck.NewsRollup: every news item (HealthCheck.NewsItem) is assumed to be an object with a string title. A non-object item, or a `"title": null` among the first three timestamped items, raises inside the check's `try`. The handler (health_check.py:432-434) then adds one error while the status stays healthy, so "no error exactly when the request was answered" does not hold for such an answer.
- HealthCheck.CrawlerReportOf: every item of the source listing is assumed to be an object. A non-object item raises at health_check.py:299 and adds one error to an answered request, which "one error per unanswered request" does not cover.
- HealthCheck.HealthChecker.RunFullHealthCheck: states the order of the keys only for a checker with no earlier results.
- Health checks: response times, error texts and the recommendation list are not modelled. Writing the report file is not modelled.
- Logging, and configuration other than `CRAWLER_DELAY`, `CRAWLER_TIMEOUT` and `CRAWLER_MAX_RETRIES`: not modelled.
- The Tencent expectation at tests/test_crawlers.py:60-64: it belongs to a crawler that is not part of this model.

## Findings

| source | as written | input that shows it | evidently intended | confidence | as-written member | corrected member |
|---|---|---|---|---|---|---|
| app/crawlers/sina_crawler.py:67-117 | `extract_article_data` calls `self.extract_text` and `self.extract_link`, which no class in the hierarchy defines. The first call raises, the `except` returns None, and no list item ever yields a record. | a list page with one item whose title is `Report A` and whose link is `https://x.test/a1`, and no page title | each item with a non-empty title and link yields its record, and the page fallback runs only when none does | not executed | SinaCrawler.ExtractArticlesAsWritten (shown by SinaCrawler.ItemRecordLostAsWritten and CrawlScenarios.SinaListCrawlAsWritten) | SinaCrawler.ExtractArticles (proved by SinaCrawler.ExtractArticlesShape and CrawlScenarios.SinaListCrawl) |
