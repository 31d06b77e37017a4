/**
 * The news data model: the three enumerations and the default values of the
 * NewsSource and NewsArticle records.
 */
module NewsModels {
  import opened Wrappers

  /** The kinds of news source. */
  datatype NewsSourceType = Website | Rss | Api | SocialMedia

  function SourceTypeValue(t: NewsSourceType): string {
    match t
    case Website => "website"
    case Rss => "rss"
    case Api => "api"
    case SocialMedia => "social_media"
  }

  const AllSourceTypes: seq<NewsSourceType> := [Website, Rss, Api, SocialMedia]

  /** Building the enumeration from its value, as the validation layer does. */
  function ParseSourceType(s: string): (r: Option<NewsSourceType>)
    ensures r.Some? ==> SourceTypeValue(r.value) == s
  {
    if s == "website" then Some(Website)
    else if s == "rss" then Some(Rss)
    else if s == "api" then Some(Api)
    else if s == "social_media" then Some(SocialMedia)
    else None
  }

  /** Exactly four source types, with four distinct values, each of which parses back to its member. */
  lemma SourceTypesExactlyFour()
    ensures |AllSourceTypes| == 4
    ensures forall t: NewsSourceType :: t in AllSourceTypes
    ensures forall i, j :: 0 <= i < j < 4 ==> SourceTypeValue(AllSourceTypes[i]) != SourceTypeValue(AllSourceTypes[j])
    ensures forall t: NewsSourceType :: ParseSourceType(SourceTypeValue(t)) == Some(t)
  {
    forall t: NewsSourceType ensures t in AllSourceTypes {
      match t
      case Website => assert AllSourceTypes[0] == t;
      case Rss => assert AllSourceTypes[1] == t;
      case Api => assert AllSourceTypes[2] == t;
      case SocialMedia => assert AllSourceTypes[3] == t;
    }
  }

  /** News categories; `Other` is the last one. */
  datatype NewsCategory =
    | Politics | Economy | Technology | Sports | Entertainment
    | Health | Education | International | Other

  function CategoryValue(c: NewsCategory): string {
    match c
    case Politics => "politics"
    case Economy => "economy"
    case Technology => "technology"
    case Sports => "sports"
    case Entertainment => "entertainment"
    case Health => "health"
    case Education => "education"
    case International => "international"
    case Other => "other"
  }

  const AllCategories: seq<NewsCategory> :=
    [Politics, Economy, Technology, Sports, Entertainment, Health, Education, International, Other]

  /** Building the category from its value, as the validation layer does; None for any other text. */
  function ParseCategory(s: string): (r: Option<NewsCategory>)
    ensures r.Some? ==> CategoryValue(r.value) == s
    ensures r.None? ==> forall c: NewsCategory :: CategoryValue(c) != s
  {
    if s == "politics" then Some(Politics)
    else if s == "economy" then Some(Economy)
    else if s == "technology" then Some(Technology)
    else if s == "sports" then Some(Sports)
    else if s == "entertainment" then Some(Entertainment)
    else if s == "health" then Some(Health)
    else if s == "education" then Some(Education)
    else if s == "international" then Some(International)
    else if s == "other" then Some(Other)
    else None
  }

  lemma CategoriesExactlyNine()
    ensures |AllCategories| == 9 && AllCategories[8] == Other
    ensures forall c: NewsCategory :: c in AllCategories
    ensures forall i, j :: 0 <= i < j < 9 ==> CategoryValue(AllCategories[i]) != CategoryValue(AllCategories[j])
    ensures forall c: NewsCategory :: ParseCategory(CategoryValue(c)) == Some(c)
  {
    forall c: NewsCategory ensures c in AllCategories {
      match c
      case Politics => assert AllCategories[0] == c;
      case Economy => assert AllCategories[1] == c;
      case Technology => assert AllCategories[2] == c;
      case Sports => assert AllCategories[3] == c;
      case Entertainment => assert AllCategories[4] == c;
      case Health => assert AllCategories[5] == c;
      case Education => assert AllCategories[6] == c;
      case International => assert AllCategories[7] == c;
      case Other => assert AllCategories[8] == c;
    }
  }

  /** Publication states of an article. */
  datatype NewsStatus = Draft | Published | Archived | Deleted

  function StatusValue(s: NewsStatus): string {
    match s
    case Draft => "draft"
    case Published => "published"
    case Archived => "archived"
    case Deleted => "deleted"
  }

  const AllStatuses: seq<NewsStatus> := [Draft, Published, Archived, Deleted]

  lemma StatusesExactlyFour()
    ensures |AllStatuses| == 4
    ensures forall s: NewsStatus :: s in AllStatuses
    ensures forall i, j :: 0 <= i < j < 4 ==> StatusValue(AllStatuses[i]) != StatusValue(AllStatuses[j])
  {
    forall s: NewsStatus ensures s in AllStatuses {
      match s
      case Draft => assert AllStatuses[0] == s;
      case Published => assert AllStatuses[1] == s;
      case Archived => assert AllStatuses[2] == s;
      case Deleted => assert AllStatuses[3] == s;
    }
  }

  /** A configured news source. Timestamps are kept as opaque text. */
  datatype NewsSource = NewsSource(
    id: Option<string>,
    name: string,
    url: string,
    sourceType: NewsSourceType,
    parser: string,
    isActive: bool,
    crawlInterval: int,
    lastCrawlTime: Option<string>,
    createdAt: string,
    updatedAt: string)

  /**
   * A NewsSource built from its required fields, every other field at its
   * default; each timestamp is its own clock reading.
   */
  function NewSource(id: Option<string>, name: string, url: string, t: NewsSourceType, parser: string,
                     createdAt: string, updatedAt: string)
    : (s: NewsSource)
    ensures s.isActive && s.crawlInterval == 300 && s.lastCrawlTime.None?
    ensures s.id == id && s.name == name && s.url == url && s.sourceType == t && s.parser == parser
    ensures s.createdAt == createdAt && s.updatedAt == updatedAt
  {
    NewsSource(id, name, url, t, parser, true, 300, None, createdAt, updatedAt)
  }

  /** A news article; floating-point sentiment is left out. */
  datatype NewsArticle = NewsArticle(
    id: Option<string>,
    title: string,
    content: string,
    summary: Option<string>,
    url: string,
    sourceId: string,
    sourceName: string,
    author: Option<string>,
    publishTime: Option<string>,
    crawlTime: string,
    category: Option<NewsCategory>,
    tags: seq<string>,
    keywords: seq<string>,
    sentimentLabel: Option<string>,
    imageUrls: seq<string>,
    videoUrls: seq<string>,
    status: NewsStatus,
    viewCount: int,
    likeCount: int,
    shareCount: int,
    commentCount: int,
    createdAt: string,
    updatedAt: string)

  /**
   * A NewsArticle built from its required fields, every other field at its
   * default; each timestamp is its own clock reading.
   */
  function NewArticle(title: string, content: string, url: string, sourceId: string, sourceName: string,
                      crawlTime: string, createdAt: string, updatedAt: string)
    : (a: NewsArticle)
    ensures a.status == Draft
    ensures a.viewCount == 0 && a.likeCount == 0 && a.shareCount == 0 && a.commentCount == 0
    ensures a.tags == [] && a.keywords == [] && a.imageUrls == [] && a.videoUrls == []
    ensures a.title == title && a.content == content && a.url == url && a.sourceId == sourceId
    ensures a.crawlTime == crawlTime && a.createdAt == createdAt && a.updatedAt == updatedAt
  {
    NewsArticle(None, title, content, None, url, sourceId, sourceName, None, None, crawlTime, None,
                [], [], None, [], [], Draft, 0, 0, 0, 0, createdAt, updatedAt)
  }
}
