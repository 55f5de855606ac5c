/** The article routes (app/routes/articles.py): the response row with its
    content preview, the filtered and paginated listings, the read and
    favourite flags, the summary request and the single-article push. */
module ArticleRoutes {
  import opened Common
  import opened Store
  import A = AiService
  import W = WebhookService

  const ARTICLE_NOT_FOUND := "文章不存在"
  const SUMMARY_FAILED := "摘要生成失败"
  const PUSHED := "推送成功"
  const NOT_PUSHED := "推送失败"
  const PREVIEW_LENGTH := 200
  const ELLIPSIS := "..."
  const MAX_PAGE_SIZE := 100

  // ---------------------------------------------------------------------------
  // article_to_dict

  /** `content[:200] + "..."` for long content, the content itself for
      short content, None for missing or empty content. */
  function ContentPreview(content: Option<string>): (r: Option<string>)
    ensures r.None? <==> !Truthy(content)
    ensures r.Some? ==> |r.value| <= PREVIEW_LENGTH + |ELLIPSIS|
    ensures r.Some? && |content.value| <= PREVIEW_LENGTH ==> r.value == content.value
    ensures r.Some? && |content.value| > PREVIEW_LENGTH ==>
      |r.value| == PREVIEW_LENGTH + |ELLIPSIS| && r.value[..PREVIEW_LENGTH] == content.value[..PREVIEW_LENGTH] && r.value[PREVIEW_LENGTH..] == ELLIPSIS
  {
    if !Truthy(content) then None
    else if |content.value| > PREVIEW_LENGTH then Some(content.value[..PREVIEW_LENGTH] + ELLIPSIS)
    else content
  }

  /** The response row: every column but the full content, which is
      replaced by its preview. */
  datatype ArticleResponse = ArticleResponse(
    id: int,
    sourceId: int,
    guid: string,
    title: string,
    link: string,
    description: Option<string>,
    contentPreview: Option<string>,
    author: Option<string>,
    publishedAt: Option<DateTime>,
    isFiltered: bool,
    hasSummary: bool,
    summary: Option<string>,
    isRead: bool,
    isFavorite: bool)

  function ToResponse(a: Article): ArticleResponse {
    ArticleResponse(a.id, a.sourceId, a.guid, a.title, a.link, a.description, ContentPreview(a.content),
                    a.author, a.publishedAt, a.isFiltered, a.hasSummary, a.summary, a.isRead, a.isFavorite)
  }

  function Responses(rows: seq<Article>): (r: seq<ArticleResponse>)
    ensures |r| == |rows|
    ensures forall k :: 0 <= k < |rows| ==> r[k] == ToResponse(rows[k])
  {
    seq(|rows|, k requires 0 <= k < |rows| => ToResponse(rows[k]))
  }

  // ---------------------------------------------------------------------------
  // Selection and pagination

  /** The rows a WHERE clause keeps, in table order. */
  function Where(rows: seq<Article>, keep: Article -> bool): (r: seq<Article>)
    ensures |r| <= |rows|
    decreases |rows|
  {
    if rows == [] then []
    else
      var last := rows[|rows| - 1];
      Where(rows[..|rows| - 1], keep) + (if keep(last) then [last] else [])
  }

  /** The selection holds exactly the rows the clause accepts. */
  lemma {:induction false} WhereMembers(rows: seq<Article>, keep: Article -> bool)
    ensures forall a :: a in Where(rows, keep) <==> a in rows && keep(a)
    decreases |rows|
  {
    if rows != [] {
      var init := rows[..|rows| - 1];
      WhereMembers(init, keep);
      assert rows == init + [rows[|rows| - 1]];
    }
  }

  /** Each selected row is a row of the table that the clause accepts. */
  lemma {:induction false} WhereAt(rows: seq<Article>, keep: Article -> bool, j: int)
    requires 0 <= j < |Where(rows, keep)|
    ensures Where(rows, keep)[j] in rows && keep(Where(rows, keep)[j])
    decreases |rows|
  {
    var init := rows[..|rows| - 1];
    if j < |Where(init, keep)| {
      WhereAt(init, keep, j);
    }
  }

  /** A clause that accepts every row selects the whole table. */
  lemma {:induction false} WhereAll(rows: seq<Article>, keep: Article -> bool)
    requires forall k :: 0 <= k < |rows| ==> keep(rows[k])
    ensures Where(rows, keep) == rows
    decreases |rows|
  {
    if rows != [] {
      var init := rows[..|rows| - 1];
      WhereAll(init, keep);
      assert rows == init + [rows[|rows| - 1]];
    }
  }

  /** The declared ranges of the query parameters `page` and `page_size`. */
  predicate ValidPage(page: int, size: int) {
    page >= 1 && 1 <= size <= MAX_PAGE_SIZE
  }

  /** `(page - 1) * page_size`, the OFFSET of a page. */
  function Offset(page: int, size: int): (r: nat)
    requires page >= 1 && size >= 1
  {
    (page - 1) * size
  }

  /** `OFFSET offset LIMIT size`. */
  function PageSlice<T>(sel: seq<T>, offset: nat, size: nat): (r: seq<T>)
    ensures |r| <= size
    ensures offset >= |sel| ==> r == []
    ensures offset < |sel| ==> |r| == if offset + size <= |sel| then size else |sel| - offset
    ensures forall k :: 0 <= k < |r| ==> offset + k < |sel| && r[k] == sel[offset + k]
  {
    if offset >= |sel| then []
    else sel[offset..if offset + size <= |sel| then offset + size else |sel|]
  }

  /** Every selected row is on exactly one page: row `i` is entry
      `i % size` of page `i / size + 1`. */
  lemma PageMembership<T>(sel: seq<T>, size: int, i: int)
    requires size >= 1 && 0 <= i < |sel|
    ensures var p := PageSlice(sel, Offset(i / size + 1, size), size);
      i % size < |p| && p[i % size] == sel[i]
  {
    var q, k := i / size, i % size;
    assert i == q * size + k;
    assert Offset(q + 1, size) == q * size;
  }

  /** One page of the rows a clause keeps; 422 for a page or page size
      outside its range. */
  function Listing(rows: seq<Article>, keep: Article -> bool, page: int, size: int): (r: Result<seq<ArticleResponse>, HttpError>)
    ensures r.Err? <==> !ValidPage(page, size)
    ensures r.Err? ==> r.error == Unprocessable
    ensures r.Ok? ==> |r.value| <= size
    ensures r.Ok? ==> var sel, o := Where(rows, keep), Offset(page, size);
      |r.value| == if o >= |sel| then 0 else if o + size <= |sel| then size else |sel| - o
    ensures r.Ok? ==> var sel := Where(rows, keep);
      forall k :: 0 <= k < |r.value| ==> Offset(page, size) + k < |sel| && r.value[k] == ToResponse(sel[Offset(page, size) + k])
  {
    if !ValidPage(page, size) then Err(Unprocessable)
    else
      var sel := Where(rows, keep);
      Ok(Responses(PageSlice(sel, Offset(page, size), size)))
  }

  /** Every listed row is a row of the table that the clause accepts. */
  lemma ListingSound(rows: seq<Article>, keep: Article -> bool, page: int, size: int, k: int)
    requires ValidPage(page, size)
    requires 0 <= k < |Listing(rows, keep, page, size).value|
    ensures var a := Where(rows, keep)[Offset(page, size) + k];
      a in rows && keep(a) && Listing(rows, keep, page, size).value[k] == ToResponse(a)
  {
    var sel := Where(rows, keep);
    var j := Offset(page, size) + k;
    assert j < |sel| && Listing(rows, keep, page, size).value[k] == ToResponse(sel[j]);
    WhereAt(rows, keep, j);
  }

  // ---------------------------------------------------------------------------
  // list_articles

  /** The optional filters of the listing; None means "not supplied". */
  datatype ListQuery = ListQuery(
    sourceId: Option<int>,
    filtered: Option<bool>,
    hasSummary: Option<bool>,
    isRead: Option<bool>,
    keyword: Option<string>)

  const NO_FILTERS := ListQuery(None, None, None, None, None)

  /** The conjunction of the supplied filters; the keyword is a LIKE
      substring test on the title. */
  predicate Selected(q: ListQuery, a: Article) {
    (q.sourceId.Some? ==> a.sourceId == q.sourceId.value) &&
    (q.filtered.Some? ==> a.isFiltered == q.filtered.value) &&
    (q.hasSummary.Some? ==> a.hasSummary == q.hasSummary.value) &&
    (q.isRead.Some? ==> a.isRead == q.isRead.value) &&
    (Truthy(q.keyword) ==> ContainsFold(a.title, q.keyword.value))
  }

  function Selector(q: ListQuery): Article -> bool {
    a => Selected(q, a)
  }

  datatype ArticleList = ArticleList(articles: seq<ArticleResponse>, total: nat, page: int, pageSize: int)

  /** `list_articles`: the page of matching rows and the number of all
      matching rows. */
  function ListArticles(rows: seq<Article>, q: ListQuery, page: int, size: int): (r: Result<ArticleList, HttpError>)
    ensures r.Err? <==> !ValidPage(page, size)
    ensures r.Ok? ==> r.value.total == |Where(rows, Selector(q))| && r.value.page == page && r.value.pageSize == size
    ensures r.Ok? ==> r.value.articles == Listing(rows, Selector(q), page, size).value
  {
    match Listing(rows, Selector(q), page, size)
    case Err(e) => Err(e)
    case Ok(articles) => Ok(ArticleList(articles, |Where(rows, Selector(q))|, page, size))
  }

  /** The total counts every matching row whatever the page, and a row is
      listed only if it passes every supplied filter. */
  lemma ListArticlesSpec(rows: seq<Article>, q: ListQuery, page: int, size: int, k: int)
    requires ValidPage(page, size)
    requires 0 <= k < |ListArticles(rows, q, page, size).value.articles|
    ensures ListArticles(rows, q, page, size).value.total == ListArticles(rows, q, 1, size).value.total
    ensures var a := Where(rows, Selector(q))[Offset(page, size) + k];
      a in rows && Selected(q, a) && ListArticles(rows, q, page, size).value.articles[k] == ToResponse(a)
  {
    ListingSound(rows, Selector(q), page, size, k);
  }

  /** Without filters the total is the size of the table. */
  lemma ListWithoutFilters(rows: seq<Article>, size: int)
    requires ValidPage(1, size)
    ensures ListArticles(rows, NO_FILTERS, 1, size).value.total == |rows|
  {
    WhereAll(rows, Selector(NO_FILTERS));
  }

  // ---------------------------------------------------------------------------
  // get_favorites / get_filtered_articles / get_keyword_matched_articles

  function FavoriteSelector(): Article -> bool {
    (a: Article) => a.isFavorite
  }

  function FilteredSelector(): Article -> bool {
    (a: Article) => a.isFiltered
  }

  /** `get_favorites`. */
  function GetFavorites(rows: seq<Article>, page: int, size: int): (r: Result<seq<ArticleResponse>, HttpError>)
    ensures r.Ok? ==> forall k :: 0 <= k < |r.value| ==> r.value[k].isFavorite
  {
    var r := Listing(rows, FavoriteSelector(), page, size);
    assert r.Ok? ==> forall k :: 0 <= k < |r.value| ==> r.value[k].isFavorite by {
      if r.Ok? {
        forall k | 0 <= k < |r.value| ensures r.value[k].isFavorite {
          ListingSound(rows, FavoriteSelector(), page, size, k);
        }
      }
    }
    r
  }

  /** `get_filtered_articles`. */
  function GetFiltered(rows: seq<Article>, page: int, size: int): (r: Result<seq<ArticleResponse>, HttpError>)
    ensures r.Ok? ==> forall k :: 0 <= k < |r.value| ==> r.value[k].isFiltered
  {
    var r := Listing(rows, FilteredSelector(), page, size);
    assert r.Ok? ==> forall k :: 0 <= k < |r.value| ==> r.value[k].isFiltered by {
      if r.Ok? {
        forall k | 0 <= k < |r.value| ensures r.value[k].isFiltered {
          ListingSound(rows, FilteredSelector(), page, size, k);
        }
      }
    }
    r
  }

  /** The enabled keywords, lower-cased, in table order. */
  function EnabledWords(ks: seq<KeywordRule>): (r: seq<string>)
    ensures forall w :: w in r <==> exists i :: 0 <= i < |ks| && ks[i].enabled && w == Lower(ks[i].keyword)
    ensures r == [] <==> forall i :: 0 <= i < |ks| ==> !ks[i].enabled
    decreases |ks|
  {
    if ks == [] then []
    else
      var init := ks[..|ks| - 1];
      var last := ks[|ks| - 1];
      assert forall i :: 0 <= i < |init| ==> init[i] == ks[i];
      EnabledWords(init) + (if last.enabled then [Lower(last.keyword)] else [])
  }

  /** `ILIKE '%w%'` on the title, the description or the content, for
      some word; a missing column never matches. */
  predicate KeywordHit(words: seq<string>, a: Article) {
    exists w :: w in words &&
      (ContainsFold(a.title, w) ||
       (a.description.Some? && ContainsFold(a.description.value, w)) ||
       (a.content.Some? && ContainsFold(a.content.value, w)))
  }

  function KeywordSelector(words: seq<string>): Article -> bool {
    a => KeywordHit(words, a)
  }

  /** `get_keyword_matched_articles`: nothing without an enabled keyword,
      otherwise a page of the rows some enabled keyword occurs in. */
  function GetKeywordMatched(rows: seq<Article>, ks: seq<KeywordRule>, page: int, size: int)
    : (r: Result<seq<ArticleResponse>, HttpError>)
    ensures r.Err? <==> !ValidPage(page, size)
    ensures ValidPage(page, size) && (forall i :: 0 <= i < |ks| ==> !ks[i].enabled) ==> r == Ok([])
  {
    if !ValidPage(page, size) then Err(Unprocessable)
    else
      var words := EnabledWords(ks);
      if words == [] then Ok([])
      else Listing(rows, KeywordSelector(words), page, size)
  }

  /** With an enabled keyword, a row is listed only when some enabled
      keyword occurs in its title, description or content. */
  lemma KeywordMatchedSound(rows: seq<Article>, ks: seq<KeywordRule>, page: int, size: int, k: int)
    requires GetKeywordMatched(rows, ks, page, size).Ok?
    requires 0 <= k < |GetKeywordMatched(rows, ks, page, size).value|
    ensures exists a :: (a in rows && KeywordHit(EnabledWords(ks), a) &&
                         GetKeywordMatched(rows, ks, page, size).value[k] == ToResponse(a))
  {
    var words := EnabledWords(ks);
    ListingSound(rows, KeywordSelector(words), page, size, k);
  }

  /** The keyword listing is a plain substring test, not the word-boundary
      matcher: the keyword "ai" lists an article titled "Said". */
  lemma KeywordListingIsSubstring(a: Article, rule: KeywordRule)
    requires rule.enabled && rule.keyword == "ai" && a.title == "Said"
    ensures KeywordHit(EnabledWords([rule]), a)
  {
    var w := Lower(rule.keyword);
    assert w in EnabledWords([rule]);
    assert Lower(w) == "ai";
    assert OccursAt(Lower(a.title), Lower(w), 1);
  }

  // ---------------------------------------------------------------------------
  // get_article / mark_as_read / toggle_favorite

  /** `get_article`: 404 for an unknown id. */
  function GetArticle(rows: seq<Article>, id: int): (r: Result<ArticleResponse, HttpError>)
    ensures r.Err? <==> forall i :: 0 <= i < |rows| ==> rows[i].id != id
    ensures r.Err? ==> r.error == NotFound(ARTICLE_NOT_FOUND)
    ensures r.Ok? ==> exists i :: 0 <= i < |rows| && rows[i].id == id && r.value == ToResponse(rows[i])
  {
    match A.FindArticle(rows, id)
    case None => Err(NotFound(ARTICLE_NOT_FOUND))
    case Some(i) => Ok(ToResponse(rows[i]))
  }

  /** The table with one row changed by `f`; 404 for an unknown id. */
  function UpdateArticle(rows: seq<Article>, id: int, f: Article -> Article): (r: Result<seq<Article>, HttpError>)
    ensures r.Err? <==> A.FindArticle(rows, id).None?
    ensures r.Err? ==> r.error == NotFound(ARTICLE_NOT_FOUND)
  {
    match A.FindArticle(rows, id)
    case None => Err(NotFound(ARTICLE_NOT_FOUND))
    case Some(i) => Ok(rows[i := f(rows[i])])
  }

  function MarkRead(a: Article): Article {
    a.(isRead := true)
  }

  function FlipFavorite(a: Article): Article {
    a.(isFavorite := !a.isFavorite)
  }

  /** Ids decide the lookup: two tables with the same ids find the same
      position. */
  lemma {:induction false} FindArticleSameIds(rows: seq<Article>, rows': seq<Article>, id: int)
    requires |rows| == |rows'|
    requires forall i :: 0 <= i < |rows| ==> rows[i].id == rows'[i].id
    ensures A.FindArticle(rows, id) == A.FindArticle(rows', id)
    decreases |rows|
  {
    if rows != [] {
      FindArticleSameIds(rows[..|rows| - 1], rows'[..|rows'| - 1], id);
    }
  }

  /** With distinct ids, `mark_as_read` sets the flag on the row with that
      id and changes nothing else. */
  lemma MarkReadSpec(rows: seq<Article>, next: int, id: int)
    requires ArticleIdsOk(rows, next)
    ensures var r := UpdateArticle(rows, id, MarkRead);
      r.Ok? ==> (|r.value| == |rows| &&
                 forall j :: 0 <= j < |rows| ==> r.value[j] == if rows[j].id == id then rows[j].(isRead := true) else rows[j])
  {
  }

  /** Marking as read twice is marking once. */
  lemma MarkReadIdempotent(rows: seq<Article>, id: int)
    requires UpdateArticle(rows, id, MarkRead).Ok?
    ensures UpdateArticle(UpdateArticle(rows, id, MarkRead).value, id, MarkRead) == UpdateArticle(rows, id, MarkRead)
  {
    var once := UpdateArticle(rows, id, MarkRead).value;
    FindArticleSameIds(rows, once, id);
    var i := A.FindArticle(rows, id).value;
    assert once[i := MarkRead(once[i])] == once;
  }

  /** Toggling the favourite flag twice restores the table. */
  lemma ToggleFavoriteTwice(rows: seq<Article>, id: int)
    requires UpdateArticle(rows, id, FlipFavorite).Ok?
    ensures UpdateArticle(UpdateArticle(rows, id, FlipFavorite).value, id, FlipFavorite) == Ok(rows)
  {
    var once := UpdateArticle(rows, id, FlipFavorite).value;
    FindArticleSameIds(rows, once, id);
    var i := A.FindArticle(rows, id).value;
    assert once[i := FlipFavorite(once[i])] == rows;
  }

  /** `mark_as_read` (flag) or `toggle_favorite` (not flag) on the stored
      table; the response is the changed row. */
  method SetArticleFlag(db: Db, id: int, read: bool) returns (r: Result<ArticleResponse, HttpError>)
    requires db.Valid()
    modifies db
    ensures db.Valid()
    ensures var f := if read then MarkRead else FlipFavorite;
      var u := UpdateArticle(old(db.articles), id, f);
      (u.Err? ==> r == Err(u.error) && db.articles == old(db.articles)) &&
      (u.Ok? ==> db.articles == u.value && r == Ok(ToResponse(f(old(db.articles)[A.FindArticle(old(db.articles), id).value]))))
    ensures db.nextArticleId == old(db.nextArticleId) && db.sources == old(db.sources)
    ensures db.keywords == old(db.keywords)
    ensures db.webhookConfig == old(db.webhookConfig) && db.aiSettings == old(db.aiSettings) && db.aiFilterConfig == old(db.aiFilterConfig)
  {
    var found := A.FindArticle(db.articles, id);
    if found.None? {
      return Err(NotFound(ARTICLE_NOT_FOUND));
    }
    var i := found.value;
    var row := if read then MarkRead(db.articles[i]) else FlipFavorite(db.articles[i]);
    A.SetArticle(db, i, row);
    r := Ok(ToResponse(row));
  }

  // ---------------------------------------------------------------------------
  // generate_summary

  /** The stored summary of an article that has one, or a new one. */
  datatype SummaryReply = StoredSummary(stored: Option<string>) | NewSummary(text: string)

  /** `generate_summary`: an article that already has a summary answers
      with it and the summariser is not called; otherwise a non-empty new
      summary is stored and returned, and anything else is a 500. */
  method GenerateSummary(db: Db, env: AppSettings, id: int, ai: (string, string) -> A.AiReply)
    returns (r: Result<SummaryReply, HttpError>)
    requires db.Valid()
    modifies db
    ensures db.Valid()
    ensures A.FindArticle(old(db.articles), id).None? ==>
      r == Err(NotFound(ARTICLE_NOT_FOUND)) && db.articles == old(db.articles)
    ensures A.FindArticle(old(db.articles), id).Some? ==>
      var i := A.FindArticle(old(db.articles), id).value;
      var a := old(db.articles)[i];
      var out := A.Summarize(old(db.aiSettings).GetOr(DEFAULT_AI_SETTINGS), env, a.title, a.content.GetOr(""), false, ai);
      var long := Truthy(a.content) && |a.content.value| >= A.MIN_SINGLE_CONTENT;
      (a.hasSummary ==> r == Ok(StoredSummary(a.summary)) && db.articles == old(db.articles)) &&
      (!a.hasSummary ==>
        && (r.Ok? <==> long && out.Ok? && out.value != [])
        && (r.Ok? ==> r == Ok(NewSummary(out.value)) && db.articles == old(db.articles)[i := A.WithSummary(a, out.value)])
        && (long && out.Err? && !A.IsSummaryError(out.error) <==> r == Err(Uncaught))
        && (r.Err? ==> db.articles == old(db.articles) && r.error in {ServerError(SUMMARY_FAILED), Uncaught}))
    ensures db.aiSettings ==
      var f := A.FindArticle(old(db.articles), id);
      if f.Some? && !old(db.articles)[f.value].hasSummary && Truthy(old(db.articles)[f.value].content) &&
         |old(db.articles)[f.value].content.value| >= A.MIN_SINGLE_CONTENT
      then Some(old(db.aiSettings).GetOr(DEFAULT_AI_SETTINGS)) else old(db.aiSettings)
    ensures db.nextArticleId == old(db.nextArticleId) && db.sources == old(db.sources)
    ensures db.keywords == old(db.keywords)
    ensures db.webhookConfig == old(db.webhookConfig) && db.aiFilterConfig == old(db.aiFilterConfig)
  {
    var found := A.FindArticle(db.articles, id);
    if found.None? {
      return Err(NotFound(ARTICLE_NOT_FOUND));
    }
    var a := db.articles[found.value];
    if a.hasSummary {
      return Ok(StoredSummary(a.summary));
    }
    var out := A.SummarizeSingleArticle(db, env, id, ai);
    if out.Err? {
      return Err(Uncaught);
    }
    if out.value.None? || out.value.value == [] {
      return Err(ServerError(SUMMARY_FAILED));
    }
    r := Ok(NewSummary(out.value.value));
  }

  // ---------------------------------------------------------------------------
  // send_to_webhook

  datatype PushReply = PushReply(success: bool, message: string)

  /** The pushed text: the summary, else the description, else nothing. */
  function PushContent(a: Article): string {
    OrElse(a.summary, OrElse(a.description, ""))
  }

  /** `send_to_webhook`: the article's title, its summary or description,
      and its link, sent through the default webhook; a send error is a
      400 with the sender's message. */
  function SendToWebhook(env: AppSettings, rows: seq<Article>, id: int, post: (string, W.Payload) -> W.PostReply)
    : (r: Result<PushReply, HttpError>)
    ensures A.FindArticle(rows, id).None? ==> r == Err(NotFound(ARTICLE_NOT_FOUND))
    ensures A.FindArticle(rows, id).Some? ==>
      var a := rows[A.FindArticle(rows, id).value];
      var msg := W.BuildWebhookMessage(a.title, PushContent(a), Some(a.link));
      (r == Ok(PushReply(true, PUSHED)) <==>
        W.SendTarget(env, None).Some? && post(W.SendTarget(env, None).value, msg) == W.Posted) &&
      (r == Ok(PushReply(false, NOT_PUSHED)) <==> W.SendTarget(env, None).None?) &&
      (r == Err(Uncaught) <==>
        W.SendTarget(env, None).Some? && post(W.SendTarget(env, None).value, msg) == W.PostOther)
  {
    match A.FindArticle(rows, id)
    case None => Err(NotFound(ARTICLE_NOT_FOUND))
    case Some(i) =>
      var a := rows[i];
      match W.SendWebhookNotification(env, a.title, PushContent(a), Some(a.link), None, post)
      case Ok(sent) => Ok(PushReply(sent, if sent then PUSHED else NOT_PUSHED))
      case Err(failure) =>
        if failure.WebhookSendError? then Err(BadRequest(failure.message)) else Err(Uncaught)
  }
}
