/**
 * The news-source endpoints and the append-only in-memory list of the sources
 * created through them. Request bodies reach the handlers already validated.
 */
module SourcesEndpoint {
  import opened Wrappers
  import opened Http
  import opened NewsModels
  import opened Schemas

  /** The text of a version-4 UUID: 32 hex digits and 4 hyphens. */
  type UuidText = s: string | |s| == 36 witness "00000000-0000-4000-8000-000000000000"

  const CreateFailedDetail: string := "创建新闻源失败"
  const NotYetAvailableDetail: string := "新闻源不存在，等待真实数据"

  /**
   * The source built from a validated create request: the first eight characters
   * of a fresh UUID as its id, the request's fields copied, everything else at
   * its default; `createdAt` and `updatedAt` are the two clock readings taken
   * while it is built.
   */
  function CreatedSource(request: NewsSourceCreateRequest, uuid: UuidText, createdAt: string, updatedAt: string): (s: NewsSource)
    ensures s.id == Some(uuid[..8]) && |s.id.value| == 8
    ensures s.name == request.name && s.url == request.url && s.sourceType == request.sourceType
    ensures s.parser == request.parser && s.crawlInterval == request.crawlInterval
    ensures s.isActive && s.lastCrawlTime.None? && s.createdAt == createdAt && s.updatedAt == updatedAt
  {
    NewsSource(Some(uuid[..8]), request.name, request.url, request.sourceType, request.parser,
               true, request.crawlInterval, None, createdAt, updatedAt)
  }

  /** What every stored source satisfies: an eight-character id, active, and the create-request bounds. */
  predicate StoredSourceOk(s: NewsSource) {
    s.id.Some? && |s.id.value| == 8 && s.isActive && NameOk(s.name) && IntervalOk(s.crawlInterval)
  }

  /** A source created from a valid request meets the stored-source bounds. */
  lemma CreatedSourceOk(request: NewsSourceCreateRequest, uuid: UuidText, createdAt: string, updatedAt: string)
    ensures CreateRequestValid(request) ==> StoredSourceOk(CreatedSource(request, uuid, createdAt, updatedAt))
  {
  }

  datatype Ack = Ack(status: string, message: string, sourceId: Option<string>)

  /** The list of created sources, in creation order. */
  class SourceRegistry {
    var created: seq<NewsSource>

    ghost predicate Valid()
      reads this
    {
      forall i :: 0 <= i < |created| ==> StoredSourceOk(created[i])
    }

    constructor ()
      ensures Valid() && created == []
    {
      created := [];
    }

    /**
     * `create_news_source`: `urlAccepted` is whether the URL passes the model's URL
     * type; when it does not, building the source raises and the answer is 500 with
     * the list untouched. Otherwise exactly one source is appended and returned.
     */
    method CreateNewsSource(request: NewsSourceCreateRequest, uuid: UuidText, urlAccepted: bool, createdAt: string, updatedAt: string)
      returns (r: Result<NewsSource, HttpError>)
      requires Valid() && CreateRequestValid(request)
      modifies this
      ensures Valid()
      ensures !urlAccepted ==> r == Err(HttpError(500, CreateFailedDetail)) && created == old(created)
      ensures urlAccepted ==> r == Ok(CreatedSource(request, uuid, createdAt, updatedAt)) && created == old(created) + [r.value]
    {
      if !urlAccepted {
        r := Err(HttpError(500, CreateFailedDetail));
        return;
      }
      var source := CreatedSource(request, uuid, createdAt, updatedAt);
      CreatedSourceOk(request, uuid, createdAt, updatedAt);
      created := created + [source];
      r := Ok(source);
    }

    /** `list_news_sources`: every created source in creation order; both query parameters are ignored. */
    function ListNewsSources(activeOnly: bool, sourceType: Option<string>): (r: seq<NewsSource>)
      reads this
      ensures r == created
    {
      created
    }
  }

  /** `get_news_source`: always 404, whatever the id. */
  function GetNewsSource(sourceId: string): (r: Result<NewsSource, HttpError>)
    ensures r == Err(HttpError(404, NotYetAvailableDetail))
  {
    Err(HttpError(404, NotYetAvailableDetail))
  }

  /** `update_news_source`: always 404, whatever the id and the update. */
  function UpdateNewsSource(sourceId: string, update: NewsSourceUpdateRequest): (r: Result<NewsSource, HttpError>)
    ensures r == Err(HttpError(404, NotYetAvailableDetail))
  {
    Err(HttpError(404, NotYetAvailableDetail))
  }

  /** `delete_news_source`: an acknowledgement; nothing is removed. */
  function DeleteNewsSource(sourceId: string): (r: Ack)
    ensures r.status == "success" && r.sourceId.None?
  {
    Ack("success", "新闻源删除功能待实现", None)
  }

  /** `test_news_source`: an acknowledgement echoing the id; nothing is probed. */
  function TestNewsSource(sourceId: string): (r: Ack)
    ensures r.status == "success" && r.sourceId == Some(sourceId)
  {
    Ack("success", "测试功能待实现", Some(sourceId))
  }

  /** `activate_news_source`: an acknowledgement; no source changes state. */
  function ActivateNewsSource(sourceId: string): (r: Ack)
    ensures r.status == "success" && r.sourceId.None?
  {
    Ack("success", "激活功能待实现", None)
  }

  /** `deactivate_news_source`: an acknowledgement; no source changes state. */
  function DeactivateNewsSource(sourceId: string): (r: Ack)
    ensures r.status == "success" && r.sourceId.None?
  {
    Ack("success", "停用功能待实现", None)
  }
}
