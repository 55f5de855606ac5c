/** Feed ingestion (app/services/rss_service.py): turning a parsed feed entry
    into an article record, the retry policy of one feed fetch, the
    deduplicating article writer and the per-source bookkeeping of a fetch
    round. The HTTP client, feedparser and `datetime.strptime` are oracles
    carried in an `Env`. */
module RssService {
  import opened Common
  import opened Store

  // ---------------------------------------------------------------------------
  // Oracles

  /** What one HTTP GET of a feed URL produced. `OtherHttpError` is any httpx
      error other than a timeout, a connect failure or an error status. */
  datatype Transport = TimedOut | ConnectFailed | HttpStatus(code: int) | OtherHttpError | Body(text: string)

  /** A parsed feed entry as feedparser exposes it; an absent attribute is None. */
  datatype Entry = Entry(
    id: Option<string>,
    link: Option<string>,
    published: Option<string>,
    updated: Option<string>,
    created: Option<string>,
    content: Option<seq<string>>,          // the `value` of each content element
    summary: Option<string>,
    author: Option<string>,
    authors: Option<seq<Option<string>>>,  // the `name` of each author record
    title: Option<string>)

  /** What `feedparser.parse` produced: it raised, or a feed with its `bozo`
      flag and its `entries` attribute (None when absent). */
  datatype FeedParse = ParserRaised | Feed(bozo: bool, entries: Option<seq<Entry>>)

  /** The outside world of a fetch: the response to attempt `k` on a URL, the
      feed parser, `datetime.strptime(text, format)` (None where it raises
      ValueError) and the clock. */
  datatype Env = Env(
    transport: (string, nat) -> Transport,
    parseFeed: string -> FeedParse,
    strptime: (string, string) -> Option<DateTime>,
    clock: int)

  // ---------------------------------------------------------------------------
  // parse_date

  const DATE_FORMATS: seq<string> := [
    "%Y-%m-%dT%H:%M:%SZ",
    "%Y-%m-%dT%H:%M:%S%z",
    "%Y-%m-%dT%H:%M:%S",
    "%Y-%m-%d %H:%M:%S",
    "%a, %d %b %Y %H:%M:%S %Z",
    "%a, %d %b %Y %H:%M:%S %z",
    "%d %b %Y %H:%M:%S %Z",
    "%Y-%m-%d"]

  /** Index of the first format, from `k` on, under which `s` parses; |DATE_FORMATS| if none. */
  function FirstFormat(strptime: (string, string) -> Option<DateTime>, s: string, k: nat): (r: nat)
    requires k <= |DATE_FORMATS|
    ensures k <= r <= |DATE_FORMATS|
    ensures forall i :: k <= i < r ==> strptime(s, DATE_FORMATS[i]).None?
    ensures r < |DATE_FORMATS| ==> strptime(s, DATE_FORMATS[r]).Some?
    decreases |DATE_FORMATS| - k
  {
    if k == |DATE_FORMATS| || strptime(s, DATE_FORMATS[k]).Some? then k
    else FirstFormat(strptime, s, k + 1)
  }

  /** A naive datetime is taken to be in UTC. */
  function AsUtc(d: DateTime): (r: DateTime)
    ensures r.instant == d.instant && r.utcOffset.Some?
    ensures d.utcOffset.Some? ==> r == d
  {
    if d.utcOffset.None? then d.(utcOffset := Some(0)) else d
  }

  /** Format `i` is the first under which `s` parses. */
  predicate FirstParse(strptime: (string, string) -> Option<DateTime>, s: string, i: int) {
    0 <= i < |DATE_FORMATS| && strptime(s, DATE_FORMATS[i]).Some? &&
    forall k :: 0 <= k < i ==> strptime(s, DATE_FORMATS[k]).None?
  }

  function ParseDate(dateStr: Option<string>, strptime: (string, string) -> Option<DateTime>): (r: Option<DateTime>)
    ensures !Truthy(dateStr) ==> r.None?
    ensures r.Some? ==> r.value.utcOffset.Some?
    ensures r.Some? <==> (Truthy(dateStr) &&
      exists i :: 0 <= i < |DATE_FORMATS| && strptime(dateStr.value, DATE_FORMATS[i]).Some?)
    ensures r.Some? ==>
      exists i :: FirstParse(strptime, dateStr.value, i) && r.value == AsUtc(strptime(dateStr.value, DATE_FORMATS[i]).value)
  {
    if !Truthy(dateStr) then None
    else
      var i := FirstFormat(strptime, dateStr.value, 0);
      if i == |DATE_FORMATS| then None
      else Some(AsUtc(strptime(dateStr.value, DATE_FORMATS[i]).value))
  }

  // ---------------------------------------------------------------------------
  // Removing markup: re.sub(r'<[^>]+>', '', s)

  /** Index of the first '>' at or after `i`, or |s|. */
  function NextGt(s: string, i: nat): (r: nat)
    requires i <= |s|
    ensures i <= r <= |s|
    ensures forall k :: i <= k < r ==> s[k] != '>'
    ensures r < |s| ==> s[r] == '>'
    decreases |s| - i
  {
    if i == |s| || s[i] == '>' then i else NextGt(s, i + 1)
  }

  /** s[i..j+1] is a match of `<[^>]+>`. */
  predicate TagSpan(s: string, i: int, j: int) {
    0 <= i && i + 2 <= j < |s| && s[i] == '<' && s[j] == '>' &&
    forall k :: i < k < j ==> s[k] != '>'
  }

  ghost predicate NoTags(s: string) {
    forall i, j :: !TagSpan(s, i, j)
  }

  /** Leftmost, non-overlapping removal of every `<...>` span, as `re.sub` scans. */
  function StripTags(s: string): (r: string)
    ensures |r| <= |s|
    decreases |s|
  {
    if s == [] then []
    else
      var j := NextGt(s, 1);
      if s[0] == '<' && 2 <= j < |s| then StripTags(s[j + 1..])
      else [s[0]] + StripTags(s[1..])
  }

  lemma {:induction false} StripTagsKeepsNoGt(s: string)
    requires '>' !in s
    ensures '>' !in StripTags(s)
    decreases |s|
  {
    if s != [] {
      assert forall m :: 0 <= m < |s[1..]| ==> s[1..][m] == s[m + 1];
      StripTagsKeepsNoGt(s[1..]);
    }
  }

  /** A tag in `[c] + rest` is a tag of `rest`, or starts at `c`. */
  lemma ConsTag(c: char, rest: string, i: int, k: int)
    requires TagSpan([c] + rest, i, k)
    ensures i > 0 ==> TagSpan(rest, i - 1, k - 1)
    ensures i == 0 ==> c == '<' && rest[0] != '>' && rest[k - 1] in rest && rest[k - 1] == '>'
  {
    var r := [c] + rest;
    if i > 0 {
      forall m | i - 1 < m < k - 1 ensures rest[m] != '>' {
        assert r[m + 1] == rest[m];
      }
    } else {
      assert r[1] == rest[0] && r[k] == rest[k - 1];
    }
  }

  lemma ConsNoTags(c: char, rest: string)
    requires NoTags(rest)
    requires c == '<' ==> (rest != [] && rest[0] == '>') || '>' !in rest
    ensures NoTags([c] + rest)
  {
    forall i, k | TagSpan([c] + rest, i, k) ensures false {
      ConsTag(c, rest, i, k);
    }
  }

  lemma {:induction false} StripTagsNoTags(s: string)
    ensures NoTags(StripTags(s))
    decreases |s|
  {
    if s != [] {
      var j := NextGt(s, 1);
      if s[0] == '<' && 2 <= j < |s| {
        StripTagsNoTags(s[j + 1..]);
      } else {
        StripTagsNoTags(s[1..]);
        var rest := StripTags(s[1..]);
        if s[0] == '<' {
          if j < |s| {
            assert s[1..][0] == '>';
            assert rest[0] == '>';
          } else {
            forall m | 0 <= m < |s[1..]| ensures s[1..][m] != '>' {
              assert s[1..][m] == s[m + 1];
            }
            StripTagsKeepsNoGt(s[1..]);
          }
        }
        ConsNoTags(s[0], rest);
      }
    }
  }

  lemma SliceTag(s: string, a: nat, b: nat, i: int, j: int)
    requires a <= b <= |s| && TagSpan(s[a..b], i, j)
    ensures TagSpan(s, a + i, a + j)
  {
    var t := s[a..b];
    forall k | a + i < k < a + j ensures s[k] != '>' {
      assert t[k - a] == s[k];
    }
  }

  lemma NoTagsSlice(s: string, a: nat, b: nat)
    requires a <= b <= |s| && NoTags(s)
    ensures NoTags(s[a..b])
  {
    forall i, j | TagSpan(s[a..b], i, j) ensures false {
      SliceTag(s, a, b, i, j);
    }
  }

  /** Markup-free text is left alone, so removing tags twice is removing them once. */
  lemma {:induction false} StripTagsNoop(s: string)
    requires NoTags(s)
    ensures StripTags(s) == s
    decreases |s|
  {
    if s != [] {
      var j := NextGt(s, 1);
      if s[0] == '<' && 2 <= j < |s| {
        assert TagSpan(s, 0, j);
        assert false;
      }
      NoTagsSlice(s, 1, |s|);
      assert s[1..|s|] == s[1..];
      StripTagsNoop(s[1..]);
      assert s == [s[0]] + s[1..];
    }
  }

  lemma StripTagsIdempotent(s: string)
    ensures StripTags(StripTags(s)) == StripTags(s)
  {
    StripTagsNoTags(s);
    StripTagsNoop(StripTags(s));
  }

  /** The content cleanup of `extract_entry_data`: tags removed, then trimmed. */
  function CleanContent(raw: string): (r: string)
    ensures NoTags(r)
    ensures Strip(r) == r
    ensures raw == [] ==> r == []
  {
    if raw == [] then []
    else
      var t := StripTags(raw);
      StripTagsNoTags(raw);
      var lo := SkipSpaceFrom(t, 0);
      NoTagsSlice(t, lo, SkipSpaceBack(t, lo, |t|));
      StripIdempotent(t);
      Strip(t)
  }

  // ---------------------------------------------------------------------------
  // extract_entry_data

  /** The normalised article fields extracted from one entry. */
  datatype EntryData = EntryData(
    guid: string,
    title: string,
    link: string,
    description: string,
    content: string,
    author: Option<string>,
    publishedAt: DateTime)

  const UNTITLED := "无标题"
  const DESCRIPTION_PREVIEW := 500

  /** The first content value, else the summary, else "". */
  function RawContent(e: Entry): (r: string)
    ensures e.content.Some? && e.content.value != [] ==> r == e.content.value[0]
    ensures (e.content.None? || e.content.value == []) && e.summary.Some? ==> r == e.summary.value
    ensures (e.content.None? || e.content.value == []) && e.summary.None? ==> r == []
  {
    if e.content.Some? && e.content.value != [] then e.content.value[0]
    else if e.summary.Some? then e.summary.value
    else []
  }

  /** The author expression parses as `(author or authors[0].get('name')) if
      hasattr(entry, 'authors') else None`. None is the IndexError raised when
      the authors list is empty and `author` is falsy. */
  function ExtractAuthor(e: Entry): (r: Option<Option<string>>)
    ensures r.None? <==> e.authors == Some([]) && !Truthy(e.author)
    ensures e.authors.None? ==> r == Some(None)
    ensures e.authors.Some? && Truthy(e.author) ==> r == Some(e.author)
    ensures e.authors.Some? && !Truthy(e.author) && e.authors.value != [] ==> r == Some(e.authors.value[0])
  {
    if e.authors.None? then Some(None)
    else if Truthy(e.author) then Some(e.author)
    else if e.authors.value == [] then None
    else Some(e.authors.value[0])
  }

  /** `extract_entry_data`; None where it raises. */
  function ExtractEntry(e: Entry, env: Env): (r: Option<EntryData>)
    ensures r.None? <==> e.authors == Some([]) && !Truthy(e.author)
  {
    match ExtractAuthor(e)
    case None => None
    case Some(author) =>
      var guid := OrElse(e.id, e.link.GetOr(""));
      var published := OrElseOpt(e.published, OrElseOpt(e.updated, e.created));
      var parsed := ParseDate(published, env.strptime);
      var publishedAt := if parsed.Some? then parsed.value else DateTime(env.clock, Some(0));
      var content := CleanContent(RawContent(e));
      var summary := OrElse(e.summary, "");
      var description := if summary == [] && content != [] then PyPrefix(content, DESCRIPTION_PREVIEW) else summary;
      var title := OrElse(e.title, UNTITLED);
      Some(EntryData(guid, title, e.link.GetOr(""), description, content, author, publishedAt))
  }

  /** The guarantees of entry normalisation: the guid, link and title
      fallbacks, markup-free trimmed content, the description fallback to a
      500-character preview of the content, the author quirk, and the publish
      time falling back through published, updated and created to now. */
  lemma ExtractEntryFields(e: Entry, env: Env)
    requires ExtractEntry(e, env).Some?
    ensures var d := ExtractEntry(e, env).value;
      && d.guid == OrElse(e.id, e.link.GetOr(""))
      && d.link == e.link.GetOr("")
      && d.title != [] && (Truthy(e.title) ==> d.title == e.title.value)
      && NoTags(d.content) && Strip(d.content) == d.content
      && (RawContent(e) == [] ==> d.content == [])
      && (Truthy(e.summary) ==> d.description == e.summary.value)
      && (!Truthy(e.summary) ==> d.description == PyPrefix(d.content, DESCRIPTION_PREVIEW))
      && |d.description| <= (if Truthy(e.summary) then |e.summary.value| else DESCRIPTION_PREVIEW)
      && (e.authors.None? ==> d.author.None?)
      && (Truthy(e.author) ==> d.author == (if e.authors.None? then None else e.author))
  {
  }

  lemma ExtractEntryPublished(e: Entry, env: Env)
    requires ExtractEntry(e, env).Some?
    ensures var d := ParseDate(OrElseOpt(e.published, OrElseOpt(e.updated, e.created)), env.strptime);
      ExtractEntry(e, env).value.publishedAt == if d.Some? then d.value else DateTime(env.clock, Some(0))
  {
  }

  // ---------------------------------------------------------------------------
  // fetch_rss_feed

  datatype FetchError = RSSTimeoutError | RSSNetworkError | RSSParseError | OtherError

  /** Membership in RETRYABLE_EXCEPTIONS of what escapes one attempt: httpx
      timeouts and connect errors are always re-raised wrapped, so only the
      two wrappers reach the retry decision. */
  predicate Retryable(e: FetchError) {
    e.RSSTimeoutError? || e.RSSNetworkError?
  }

  const MAX_ATTEMPTS := 3

  /** Entry normalisation as a function value, so that the parse of a list
      of entries can be stated for any normaliser. */
  function Extractor(env: Env): Entry -> Option<EntryData> {
    e => ExtractEntry(e, env)
  }

  /** The entries normalised one by one, in entry order; an entry whose
      normalisation raises makes the whole parse an RSSParseError. */
  function ExtractAll(entries: seq<Entry>, extract: Entry -> Option<EntryData>): (r: Result<seq<EntryData>, FetchError>)
    ensures r.Ok? ==> |r.value| == |entries|
    ensures r.Err? ==> r.error == RSSParseError
    decreases |entries|
  {
    if entries == [] then Ok([])
    else
      match ExtractAll(entries[..|entries| - 1], extract)
      case Err(e) => Err(e)
      case Ok(prefix) =>
        var d := extract(entries[|entries| - 1]);
        if d.None? then Err(RSSParseError) else Ok(prefix + [d.value])
  }

  /** Record `i` is the normalisation of entry `i`, and the parse fails
      exactly when some entry cannot be normalised. */
  lemma {:induction false} ExtractAllSpec(entries: seq<Entry>, extract: Entry -> Option<EntryData>)
    ensures var r := ExtractAll(entries, extract);
      && (r.Ok? ==> forall i :: 0 <= i < |entries| ==> extract(entries[i]) == Some(r.value[i]))
      && (r.Err? <==> exists i :: 0 <= i < |entries| && extract(entries[i]).None?)
    decreases |entries|
  {
    if entries != [] {
      var init := entries[..|entries| - 1];
      ExtractAllSpec(init, extract);
      assert forall i :: 0 <= i < |init| ==> init[i] == entries[i];
    }
  }

  /** The loop of `fetch_rss_feed` that appends one record per entry. */
  method ExtractEntries(entries: seq<Entry>, env: Env) returns (r: Result<seq<EntryData>, FetchError>)
    ensures r == ExtractAll(entries, Extractor(env))
  {
    var articles: seq<EntryData> := [];
    var i := 0;
    while i < |entries|
      invariant 0 <= i <= |entries|
      invariant ExtractAll(entries[..i], Extractor(env)) == Ok(articles)
    {
      var d := ExtractEntry(entries[i], env);
      if d.None? {
        assert Extractor(env)(entries[i]).None?;
        ExtractAllSpec(entries, Extractor(env));
        return Err(RSSParseError);
      }
      var init := entries[..i + 1];
      assert init[..i] == entries[..i] && init[i] == entries[i];
      assert ExtractAll(init, Extractor(env)) == Ok(articles + [d.value]);
      articles := articles + [d.value];
      i := i + 1;
    }
    assert entries[..i] == entries;
    r := Ok(articles);
  }

  /** What the parsing stage makes of a response body. */
  function ParseStage(f: FeedParse, env: Env): (r: Result<seq<EntryData>, FetchError>)
    ensures r.Err? ==> r.error == RSSParseError
    ensures f.ParserRaised? || f.bozo ==> r == Err(RSSParseError)
    ensures f.Feed? && !f.bozo && (f.entries.None? || f.entries.value == []) ==> r == Ok([])
    ensures f.Feed? && !f.bozo && f.entries.Some? ==> r == ExtractAll(f.entries.value, Extractor(env))
  {
    if f.ParserRaised? || f.bozo then Err(RSSParseError)
    else if f.entries.None? || f.entries.value == [] then Ok([])
    else ExtractAll(f.entries.value, Extractor(env))
  }

  /** The outcome of attempt `k` on `url`. Exactly the timeouts, connect
      failures and error statuses are retryable; nothing the parsing stage
      raises is. */
  function Attempt(env: Env, url: string, k: nat): (r: Result<seq<EntryData>, FetchError>)
    ensures (r.Err? && Retryable(r.error)) <==>
      (env.transport(url, k).TimedOut? || env.transport(url, k).ConnectFailed? || env.transport(url, k).HttpStatus?)
    ensures env.transport(url, k).Body? ==> r == ParseStage(env.parseFeed(env.transport(url, k).text), env)
  {
    match env.transport(url, k)
    case TimedOut => Err(RSSTimeoutError)
    case ConnectFailed => Err(RSSNetworkError)
    case HttpStatus(_) => Err(RSSNetworkError)
    case OtherHttpError => Err(OtherError)
    case Body(text) => ParseStage(env.parseFeed(text), env)
  }

  /** One attempt: the request, then the parse. */
  method FetchOnce(env: Env, url: string, k: nat) returns (r: Result<seq<EntryData>, FetchError>)
    ensures r == Attempt(env, url, k)
  {
    match env.transport(url, k)
    case TimedOut => r := Err(RSSTimeoutError);
    case ConnectFailed => r := Err(RSSNetworkError);
    case HttpStatus(_) => r := Err(RSSNetworkError);
    case OtherHttpError => r := Err(OtherError);
    case Body(text) =>
      var feed := env.parseFeed(text);
      if feed.ParserRaised? || feed.bozo {
        r := Err(RSSParseError);
      } else if feed.entries.None? || feed.entries.value == [] {
        r := Ok([]);
      } else {
        r := ExtractEntries(feed.entries.value, env);
      }
  }

  /** The retry decorator (stop after MAX_ATTEMPTS, retry only Retryable
      errors, re-raise the last) applied from attempt `k` on, over the outcome
      of each attempt: the final outcome and the number of attempts made. */
  function Retry<T>(attempt: nat -> Result<T, FetchError>, k: nat): (r: (Result<T, FetchError>, nat))
    requires k < MAX_ATTEMPTS
    ensures k < r.1 <= MAX_ATTEMPTS && r.0 == attempt(r.1 - 1)
    decreases MAX_ATTEMPTS - k
  {
    var a := attempt(k);
    if a.Err? && Retryable(a.error) && k + 1 < MAX_ATTEMPTS then Retry(attempt, k + 1)
    else (a, k + 1)
  }

  /** At most three attempts; every attempt but the last failed retryably; the
      outcome of the last one is what the caller sees; fewer than three
      attempts means the last one succeeded or failed for good. */
  lemma {:induction false} RetryPolicy<T>(attempt: nat -> Result<T, FetchError>, k: nat)
    requires k < MAX_ATTEMPTS
    ensures k < Retry(attempt, k).1 <= MAX_ATTEMPTS
    ensures Retry(attempt, k).0 == attempt(Retry(attempt, k).1 - 1)
    ensures forall j :: k <= j < Retry(attempt, k).1 - 1 ==> attempt(j).Err? && Retryable(attempt(j).error)
    ensures Retry(attempt, k).1 < MAX_ATTEMPTS ==> Retry(attempt, k).0.Ok? || !Retryable(Retry(attempt, k).0.error)
    decreases MAX_ATTEMPTS - k
  {
    var a := attempt(k);
    if a.Err? && Retryable(a.error) && k + 1 < MAX_ATTEMPTS {
      RetryPolicy(attempt, k + 1);
    }
  }

  /** The attempts on one feed URL. */
  function Attempts(env: Env, url: string): nat -> Result<seq<EntryData>, FetchError> {
    (k: nat) => Attempt(env, url, k)
  }

  method FetchRssFeed(env: Env, url: string) returns (r: Result<seq<EntryData>, FetchError>, attempts: nat)
    ensures (r, attempts) == Retry(Attempts(env, url), 0)
  {
    var k := 0;
    r := FetchOnce(env, url, 0);
    while r.Err? && Retryable(r.error) && k + 1 < MAX_ATTEMPTS
      invariant 0 <= k < MAX_ATTEMPTS
      invariant r == Attempt(env, url, k)
      invariant Retry(Attempts(env, url), 0) == Retry(Attempts(env, url), k)
      decreases MAX_ATTEMPTS - k
    {
      k := k + 1;
      r := FetchOnce(env, url, k);
    }
    attempts := k + 1;
  }

  // ---------------------------------------------------------------------------
  // is_duplicate_article and save_articles

  /** The article table as a value: its rows and the next autoincrement id. */
  datatype ArticleTable = ArticleTable(rows: seq<Article>, next: int)

  ghost predicate TableOk(t: ArticleTable) {
    ArticleIdsOk(t.rows, t.next) && NaturalKeysUnique(t.rows)
  }

  predicate HasKey(rows: seq<Article>, sourceId: int, guid: string) {
    exists i :: 0 <= i < |rows| && rows[i].sourceId == sourceId && rows[i].guid == guid
  }

  /** Number of rows with the natural key (sourceId, guid). */
  function CountKey(rows: seq<Article>, sourceId: int, guid: string): nat
    decreases |rows|
  {
    if rows == [] then 0
    else
      var last := rows[|rows| - 1];
      CountKey(rows[..|rows| - 1], sourceId, guid) + (if last.sourceId == sourceId && last.guid == guid then 1 else 0)
  }

  datatype DbError = MultipleResultsFound

  /** `is_duplicate_article`: `scalar_one_or_none` over the rows with the key,
      which raises when there are two or more. */
  function IsDuplicateArticle(rows: seq<Article>, sourceId: int, guid: string): (r: Result<bool, DbError>)
    ensures r.Err? <==> CountKey(rows, sourceId, guid) > 1
    ensures r.Ok? ==> (r.value <==> HasKey(rows, sourceId, guid))
  {
    CountKeyHasKey(rows, sourceId, guid);
    var n := CountKey(rows, sourceId, guid);
    if n > 1 then Err(MultipleResultsFound) else Ok(n == 1)
  }

  lemma {:induction false} CountKeyHasKey(rows: seq<Article>, sourceId: int, guid: string)
    ensures CountKey(rows, sourceId, guid) > 0 <==> HasKey(rows, sourceId, guid)
    decreases |rows|
  {
    if rows != [] {
      var init := rows[..|rows| - 1];
      CountKeyHasKey(init, sourceId, guid);
      if HasKey(init, sourceId, guid) {
        var i :| 0 <= i < |init| && init[i].sourceId == sourceId && init[i].guid == guid;
        assert rows[i] == init[i];
      }
      if HasKey(rows, sourceId, guid) {
        var i :| 0 <= i < |rows| && rows[i].sourceId == sourceId && rows[i].guid == guid;
        if i < |init| {
          assert init[i] == rows[i];
        }
      }
    }
  }

  lemma {:induction false} CountKeyUnique(rows: seq<Article>, sourceId: int, guid: string)
    requires NaturalKeysUnique(rows)
    ensures CountKey(rows, sourceId, guid) <= 1
    decreases |rows|
  {
    if rows != [] {
      var init := rows[..|rows| - 1];
      var last := rows[|rows| - 1];
      assert NaturalKeysUnique(init) by {
        forall i, j | 0 <= i < j < |init| ensures (init[i].sourceId, init[i].guid) != (init[j].sourceId, init[j].guid) {
          assert init[i] == rows[i] && init[j] == rows[j];
        }
      }
      CountKeyUnique(init, sourceId, guid);
      if last.sourceId == sourceId && last.guid == guid {
        forall i | 0 <= i < |init| ensures !(init[i].sourceId == sourceId && init[i].guid == guid) {
          assert init[i] == rows[i];
        }
        CountKeyHasKey(init, sourceId, guid);
      }
    }
  }

  /** On a table whose natural keys are unique the duplicate check never
      raises and answers whether the key is present. */
  lemma DuplicateCheck(rows: seq<Article>, sourceId: int, guid: string)
    requires NaturalKeysUnique(rows)
    ensures IsDuplicateArticle(rows, sourceId, guid) == Ok(HasKey(rows, sourceId, guid))
  {
    CountKeyUnique(rows, sourceId, guid);
    CountKeyHasKey(rows, sourceId, guid);
  }

  /** The row `save_articles` builds for a new entry. */
  function NewArticle(id: int, sourceId: int, d: EntryData): (a: Article)
    ensures a.id == id && a.sourceId == sourceId && a.guid == d.guid
    ensures !a.isFiltered && !a.hasSummary && !a.isRead && !a.isFavorite && !a.isAiFiltered && a.summary.None?
  {
    Article(id, sourceId, d.guid, d.title, d.link, Some(d.description), Some(d.content), d.author,
            Some(d.publishedAt), false, false, None, false, false, false)
  }

  predicate InBatch(batch: seq<EntryData>, guid: string) {
    exists k :: 0 <= k < |batch| && batch[k].guid == guid
  }

  /** `save_articles` with every duplicate check seeing the rows inserted
      earlier in the same call. */
  function SaveAll(t: ArticleTable, sourceId: int, batch: seq<EntryData>): (r: ArticleTable)
    ensures |t.rows| <= |r.rows| && r.rows[..|t.rows|] == t.rows
    ensures r.next == t.next + (|r.rows| - |t.rows|)
    decreases |batch|
  {
    if batch == [] then t
    else
      var t0 := SaveAll(t, sourceId, batch[..|batch| - 1]);
      var d := batch[|batch| - 1];
      if HasKey(t0.rows, sourceId, d.guid) then t0
      else
        var r := ArticleTable(t0.rows + [NewArticle(t0.next, sourceId, d)], t0.next + 1);
        assert r.rows[..|t.rows|] == t0.rows[..|t.rows|];
        r
  }

  lemma InBatchSnoc(batch: seq<EntryData>, guid: string)
    requires batch != []
    ensures InBatch(batch, guid) <==> InBatch(batch[..|batch| - 1], guid) || batch[|batch| - 1].guid == guid
  {
    var init := batch[..|batch| - 1];
    if InBatch(init, guid) {
      var k :| 0 <= k < |init| && init[k].guid == guid;
      assert batch[k] == init[k];
    }
    if InBatch(batch, guid) {
      var k :| 0 <= k < |batch| && batch[k].guid == guid;
      if k < |init| {
        assert init[k] == batch[k];
      }
    }
  }

  /** After saving, a key is present iff it was before or it is the source's
      key of some entry of the batch. */
  lemma {:induction false} SaveAllKeys(t: ArticleTable, sourceId: int, batch: seq<EntryData>, sid: int, guid: string)
    ensures HasKey(SaveAll(t, sourceId, batch).rows, sid, guid) <==>
      HasKey(t.rows, sid, guid) || (sid == sourceId && InBatch(batch, guid))
    decreases |batch|
  {
    if batch != [] {
      var init := batch[..|batch| - 1];
      var t0 := SaveAll(t, sourceId, init);
      var d := batch[|batch| - 1];
      SaveAllKeys(t, sourceId, init, sid, guid);
      InBatchSnoc(batch, guid);
      if !HasKey(t0.rows, sourceId, d.guid) {
        var rows := t0.rows + [NewArticle(t0.next, sourceId, d)];
        if HasKey(t0.rows, sid, guid) {
          var i :| 0 <= i < |t0.rows| && t0.rows[i].sourceId == sid && t0.rows[i].guid == guid;
          assert rows[i] == t0.rows[i];
        }
        if HasKey(rows, sid, guid) {
          var i :| 0 <= i < |rows| && rows[i].sourceId == sid && rows[i].guid == guid;
          if i < |t0.rows| {
            assert t0.rows[i] == rows[i];
          }
        }
        assert rows[|t0.rows|].guid == d.guid;
      }
    }
  }

  /** Row `a` was built by `save_articles` from one of the entries. */
  ghost predicate FromBatch(a: Article, sourceId: int, batch: seq<EntryData>) {
    exists k :: 0 <= k < |batch| && a == NewArticle(a.id, sourceId, batch[k])
  }

  /** Every row a save adds is a fresh, unprocessed row of the source built
      from one of the entries, with the next ids in order. */
  lemma {:induction false} SaveAllNewRows(t: ArticleTable, sourceId: int, batch: seq<EntryData>, i: int)
    requires |t.rows| <= i < |SaveAll(t, sourceId, batch).rows|
    ensures SaveAll(t, sourceId, batch).rows[i].id == t.next + (i - |t.rows|)
    ensures FromBatch(SaveAll(t, sourceId, batch).rows[i], sourceId, batch)
    decreases |batch|
  {
    var init := batch[..|batch| - 1];
    var t0 := SaveAll(t, sourceId, init);
    var r := SaveAll(t, sourceId, batch);
    if i < |t0.rows| {
      SaveAllNewRows(t, sourceId, init, i);
      assert r.rows[i] == t0.rows[i];
      var k :| 0 <= k < |init| && t0.rows[i] == NewArticle(t0.rows[i].id, sourceId, init[k]);
      assert batch[k] == init[k];
    } else {
      assert r.rows[i] == NewArticle(t0.next, sourceId, batch[|batch| - 1]);
    }
  }

  /** Saving keeps ids increasing and natural keys unique. */
  lemma {:induction false} SaveAllOk(t: ArticleTable, sourceId: int, batch: seq<EntryData>)
    requires TableOk(t)
    ensures TableOk(SaveAll(t, sourceId, batch))
    decreases |batch|
  {
    if batch != [] {
      var init := batch[..|batch| - 1];
      SaveAllOk(t, sourceId, init);
      var t0 := SaveAll(t, sourceId, init);
      var d := batch[|batch| - 1];
      if !HasKey(t0.rows, sourceId, d.guid) {
        var rows := t0.rows + [NewArticle(t0.next, sourceId, d)];
        forall i, j | 0 <= i < j < |rows|
          ensures (rows[i].sourceId, rows[i].guid) != (rows[j].sourceId, rows[j].guid)
        {
          if j == |t0.rows| {
            assert rows[i] == t0.rows[i];
          } else {
            assert rows[i] == t0.rows[i] && rows[j] == t0.rows[j];
          }
        }
        forall i | 0 <= i < |rows| ensures rows[i].id < t0.next + 1 {
          if i < |t0.rows| {
            assert rows[i] == t0.rows[i];
          }
        }
        forall i, j | 0 <= i < j < |rows| ensures rows[i].id < rows[j].id {
          assert rows[i] == t0.rows[i];
          if j < |t0.rows| {
            assert rows[j] == t0.rows[j];
          }
        }
      }
    }
  }

  /** A batch whose keys are all present changes nothing. */
  lemma {:induction false} SaveAllNoop(t: ArticleTable, sourceId: int, batch: seq<EntryData>)
    requires forall k :: 0 <= k < |batch| ==> HasKey(t.rows, sourceId, batch[k].guid)
    ensures SaveAll(t, sourceId, batch) == t
    decreases |batch|
  {
    if batch != [] {
      SaveAllNoop(t, sourceId, batch[..|batch| - 1]);
    }
  }

  /** Saving the same batch again inserts nothing: a second call returns 0. */
  lemma SaveAllAgain(t: ArticleTable, sourceId: int, batch: seq<EntryData>)
    ensures SaveAll(SaveAll(t, sourceId, batch), sourceId, batch) == SaveAll(t, sourceId, batch)
  {
    var r := SaveAll(t, sourceId, batch);
    forall k | 0 <= k < |batch| ensures HasKey(r.rows, sourceId, batch[k].guid) {
      SaveAllKeys(t, sourceId, batch, sourceId, batch[k].guid);
    }
    SaveAllNoop(r, sourceId, batch);
  }

  /** `save_articles`: insert every entry whose key is not yet stored, then
      report how many were inserted. */
  method SaveArticles(db: Db, sourceId: int, articles: seq<EntryData>) returns (saved: nat)
    requires db.Valid()
    modifies db
    ensures db.Valid()
    ensures ArticleTable(db.articles, db.nextArticleId) ==
      SaveAll(ArticleTable(old(db.articles), old(db.nextArticleId)), sourceId, articles)
    ensures saved == |db.articles| - |old(db.articles)|
    ensures db.sources == old(db.sources) && db.keywords == old(db.keywords)
    ensures db.webhookConfig == old(db.webhookConfig)
    ensures db.aiSettings == old(db.aiSettings) && db.aiFilterConfig == old(db.aiFilterConfig)
  {
    ghost var t0 := ArticleTable(db.articles, db.nextArticleId);
    saved := 0;
    var i := 0;
    while i < |articles|
      invariant 0 <= i <= |articles|
      invariant ArticleTable(db.articles, db.nextArticleId) == SaveAll(t0, sourceId, articles[..i])
      invariant saved == |db.articles| - |t0.rows|
      invariant db.sources == old(db.sources) && db.keywords == old(db.keywords)
      invariant db.webhookConfig == old(db.webhookConfig)
      invariant db.aiSettings == old(db.aiSettings) && db.aiFilterConfig == old(db.aiFilterConfig)
    {
      SaveAllOk(t0, sourceId, articles[..i]);
      DuplicateCheck(db.articles, sourceId, articles[i].guid);
      assert articles[..i + 1][..i] == articles[..i];
      var dup := IsDuplicateArticle(db.articles, sourceId, articles[i].guid);
      if dup == Ok(false) {
        db.articles := db.articles + [NewArticle(db.nextArticleId, sourceId, articles[i])];
        db.nextArticleId := db.nextArticleId + 1;
        saved := saved + 1;
      }
      i := i + 1;
    }
    assert articles[..i] == articles;
    SaveAllOk(t0, sourceId, articles);
  }

  /** `save_articles` as written: the session does not flush pending inserts
      before a query, so every duplicate check sees only `committed`, the rows
      stored before the call. A check that finds two rows raises. */
  function SaveAllAsWritten(committed: seq<Article>, t: ArticleTable, sourceId: int, batch: seq<EntryData>): (r: Result<ArticleTable, DbError>)
    ensures r.Ok? ==> |t.rows| <= |r.value.rows| <= |t.rows| + |batch| && r.value.rows[..|t.rows|] == t.rows
    ensures r.Ok? ==> r.value.next == t.next + (|r.value.rows| - |t.rows|)
    decreases |batch|
  {
    if batch == [] then Ok(t)
    else
      match SaveAllAsWritten(committed, t, sourceId, batch[..|batch| - 1])
      case Err(x) => Err(x)
      case Ok(t0) =>
        var d := batch[|batch| - 1];
        match IsDuplicateArticle(committed, sourceId, d.guid)
        case Err(x) => Err(x)
        case Ok(dup) =>
          if dup then Ok(t0)
          else Ok(ArticleTable(t0.rows + [NewArticle(t0.next, sourceId, d)], t0.next + 1))
  }

  /** A batch carrying the same entry twice is inserted twice by the code as
      written, which breaks key uniqueness; the next save of that entry then
      raises. The corrected save inserts it once. */
  lemma AsWrittenDuplicatesBatch(sourceId: int, d: EntryData, next: int)
    ensures var t := ArticleTable([], next);
      && SaveAllAsWritten([], t, sourceId, [d, d]).Ok?
      && |SaveAllAsWritten([], t, sourceId, [d, d]).value.rows| == 2
      && !NaturalKeysUnique(SaveAllAsWritten([], t, sourceId, [d, d]).value.rows)
      && IsDuplicateArticle(SaveAllAsWritten([], t, sourceId, [d, d]).value.rows, sourceId, d.guid) == Err(MultipleResultsFound)
      && |SaveAll(t, sourceId, [d, d]).rows| == 1
  {
    var t := ArticleTable([], next);
    var b := [d, d];
    assert b[..1] == [d] && b[..1][..0] == [];
    var a0 := NewArticle(next, sourceId, d);
    var a1 := NewArticle(next + 1, sourceId, d);
    assert IsDuplicateArticle([], sourceId, d.guid) == Ok(false);
    assert [d][..0] == [];
    assert SaveAllAsWritten([], t, sourceId, [d][..0]) == Ok(t);
    assert [] + [a0] == [a0];
    assert SaveAllAsWritten([], t, sourceId, [d]) == Ok(ArticleTable([a0], next + 1));
    assert [a0] + [a1] == [a0, a1];
    var rows := [a0, a1];
    assert SaveAllAsWritten([], t, sourceId, b) == Ok(ArticleTable(rows, next + 2));
    assert rows[..1] == [a0] && rows[..1][..0] == [];
    assert CountKey(rows, sourceId, d.guid) == 2;
    assert SaveAll(t, sourceId, [d]).rows == [a0];
    assert HasKey([a0], sourceId, d.guid) by { assert [a0][0] == a0; }
  }

  // ---------------------------------------------------------------------------
  // fetch_and_save_all_sources

  /** The outcome of fetching one feed with retries. */
  function FetchOutcome(env: Env, url: string): Result<seq<EntryData>, FetchError> {
    Retry(Attempts(env, url), 0).0
  }

  /** The enabled sources, in table order (the query of the round). */
  function EnabledSources(srcs: seq<Source>): (r: seq<Source>)
    ensures |r| <= |srcs|
    decreases |srcs|
  {
    if srcs == [] then []
    else
      var init := EnabledSources(srcs[..|srcs| - 1]);
      if srcs[|srcs| - 1].enabled then init + [srcs[|srcs| - 1]] else init
  }

  /** A fetch round so far: the article table and the result dictionary as
      its (source id, value) items in insertion order. */
  datatype RoundState = RoundState(table: ArticleTable, results: seq<(int, int)>)

  /** The round over `srcs` in order: a failed source reports -1, a fetched
      one reports how many of its entries were saved. */
  function Round(t: ArticleTable, srcs: seq<Source>, env: Env): (r: RoundState)
    ensures |r.results| <= |srcs|
    ensures |t.rows| <= |r.table.rows| && r.table.rows[..|t.rows|] == t.rows
    decreases |srcs|
  {
    if srcs == [] then RoundState(t, [])
    else RoundStep(Round(t, srcs[..|srcs| - 1], env), srcs[|srcs| - 1], env)
  }

  /** The round over one more source is one more step. */
  lemma RoundSnoc(t: ArticleTable, srcs: seq<Source>, i: nat, env: Env)
    requires i < |srcs|
    ensures Round(t, srcs[..i + 1], env) == RoundStep(Round(t, srcs[..i], env), srcs[i], env)
  {
    assert srcs[..i + 1][..i] == srcs[..i];
  }

  /** What the round does with one source. */
  function RoundStep(prev: RoundState, s: Source, env: Env): (r: RoundState)
    ensures !s.enabled ==> r == prev
    ensures s.enabled ==> |r.results| == |prev.results| + 1 && r.results[..|prev.results|] == prev.results &&
                          r.results[|prev.results|].0 == s.id
    ensures |prev.table.rows| <= |r.table.rows| && r.table.rows[..|prev.table.rows|] == prev.table.rows
  {
    if !s.enabled then prev
    else
      match FetchOutcome(env, s.url)
      case Err(_) => RoundState(prev.table, prev.results + [(s.id, -1)])
      case Ok(entries) =>
        var t1 := SaveAll(prev.table, s.id, entries);
        RoundState(t1, prev.results + [(s.id, |t1.rows| - |prev.table.rows|)])
  }

  /** A source after the round: a failure bumps the error counter, a success
      stamps the fetch time and clears the counter, a disabled source is
      untouched. */
  function SourceAfter(s: Source, env: Env): (r: Source)
    ensures r.id == s.id && r.enabled == s.enabled && r.name == s.name && r.url == s.url
    ensures !s.enabled ==> r == s
    ensures s.enabled && FetchOutcome(env, s.url).Err? ==>
      r.fetchErrorCount == s.fetchErrorCount + 1 && r.lastFetched == s.lastFetched
    ensures s.enabled && FetchOutcome(env, s.url).Ok? ==>
      r.fetchErrorCount == 0 && r.lastFetched == Some(DateTime(env.clock, None))
  {
    if !s.enabled then s
    else if FetchOutcome(env, s.url).Err? then s.(fetchErrorCount := s.fetchErrorCount + 1)
    else s.(lastFetched := Some(DateTime(env.clock, None)), fetchErrorCount := 0)
  }

  /** `sum(v for v in results.values() if v > 0)`. */
  function TotalSaved(results: seq<(int, int)>): int
    decreases |results|
  {
    if results == [] then 0
    else
      var v := results[|results| - 1].1;
      TotalSaved(results[..|results| - 1]) + (if v > 0 then v else 0)
  }

  /** One result per enabled source, in order: -1 exactly for the sources
      whose fetch failed, otherwise a count. No enabled source, no result. */
  lemma {:induction false} RoundResults(t: ArticleTable, srcs: seq<Source>, env: Env)
    ensures var r := Round(t, srcs, env).results; var en := EnabledSources(srcs);
      |r| == |en| &&
      forall i :: 0 <= i < |en| ==>
        r[i].0 == en[i].id && r[i].1 >= -1 && (r[i].1 == -1 <==> FetchOutcome(env, en[i].url).Err?)
    decreases |srcs|
  {
    if srcs != [] {
      RoundResults(t, srcs[..|srcs| - 1], env);
    }
  }

  /** The round only appends articles, keeps the table well formed, and the
      positive results add up to the number of articles added. */
  lemma {:induction false} RoundTable(t: ArticleTable, srcs: seq<Source>, env: Env)
    requires TableOk(t)
    ensures var r := Round(t, srcs, env);
      && TableOk(r.table)
      && |t.rows| <= |r.table.rows| && r.table.rows[..|t.rows|] == t.rows
      && TotalSaved(r.results) == |r.table.rows| - |t.rows|
    decreases |srcs|
  {
    if srcs != [] {
      var init := srcs[..|srcs| - 1];
      RoundTable(t, init, env);
      var prev := Round(t, init, env);
      var s := srcs[|srcs| - 1];
      var r := Round(t, srcs, env);
      if s.enabled {
        var res := r.results;
        if FetchOutcome(env, s.url).Ok? {
          SaveAllOk(prev.table, s.id, FetchOutcome(env, s.url).value);
          assert res[..|res| - 1] == prev.results;
          assert r.table.rows[..|prev.table.rows|] == prev.table.rows;
          assert r.table.rows[..|t.rows|] == prev.table.rows[..|t.rows|];
        } else {
          assert res[..|res| - 1] == prev.results;
        }
      }
    }
  }

  /** `fetch_and_save_all_sources`: fetch every enabled source, save what came
      back, and keep each source's bookkeeping. */
  method FetchAndSaveAllSources(db: Db, env: Env) returns (results: seq<(int, int)>)
    requires db.Valid()
    modifies db
    ensures db.Valid()
    ensures Round(ArticleTable(old(db.articles), old(db.nextArticleId)), old(db.sources), env) ==
      RoundState(ArticleTable(db.articles, db.nextArticleId), results)
    ensures |db.sources| == |old(db.sources)|
    ensures forall i :: 0 <= i < |db.sources| ==> db.sources[i] == SourceAfter(old(db.sources)[i], env)
    ensures db.keywords == old(db.keywords)
    ensures db.webhookConfig == old(db.webhookConfig) && db.aiSettings == old(db.aiSettings)
    ensures db.aiFilterConfig == old(db.aiFilterConfig)
  {
    ghost var t0 := ArticleTable(db.articles, db.nextArticleId);
    var srcs := db.sources;
    results := [];
    var i := 0;
    while i < |srcs|
      invariant 0 <= i <= |srcs|
      invariant db.Valid()
      invariant |db.sources| == |srcs|
      invariant forall m :: 0 <= m < i ==> db.sources[m] == SourceAfter(srcs[m], env)
      invariant forall m :: i <= m < |srcs| ==> db.sources[m] == srcs[m]
      invariant Round(t0, srcs[..i], env) == RoundState(ArticleTable(db.articles, db.nextArticleId), results)
      invariant db.keywords == old(db.keywords)
      invariant db.webhookConfig == old(db.webhookConfig) && db.aiSettings == old(db.aiSettings)
      invariant db.aiFilterConfig == old(db.aiFilterConfig)
    {
      RoundSnoc(t0, srcs, i, env);
      results := FetchAndSaveSource(db, env, i, results);
      i := i + 1;
    }
    assert srcs[..i] == srcs;
  }

  /** The handling of one source's fetch result within the round. */
  method FetchAndSaveSource(db: Db, env: Env, i: int, results: seq<(int, int)>) returns (results': seq<(int, int)>)
    requires db.Valid() && 0 <= i < |db.sources|
    modifies db
    ensures db.Valid()
    ensures RoundStep(RoundState(ArticleTable(old(db.articles), old(db.nextArticleId)), results), old(db.sources)[i], env) ==
      RoundState(ArticleTable(db.articles, db.nextArticleId), results')
    ensures db.sources == old(db.sources)[i := SourceAfter(old(db.sources)[i], env)]
    ensures db.keywords == old(db.keywords)
    ensures db.webhookConfig == old(db.webhookConfig) && db.aiSettings == old(db.aiSettings)
    ensures db.aiFilterConfig == old(db.aiFilterConfig)
  {
    var s := db.sources[i];
    results' := results;
    if s.enabled {
      var r, attempts := FetchRssFeed(env, s.url);
      if r.Err? {
        SetSource(db, i, s.(fetchErrorCount := s.fetchErrorCount + 1));
        results' := results + [(s.id, -1)];
      } else {
        var saved := 0;
        if r.value != [] {
          saved := SaveArticles(db, s.id, r.value);
        }
        results' := results + [(s.id, saved)];
        SetSource(db, i, s.(lastFetched := Some(DateTime(env.clock, None)), fetchErrorCount := 0));
      }
    }
  }

  /** Replaces row `i` of the source table by a row with the same id. */
  method SetSource(db: Db, i: int, s: Source)
    requires db.Valid() && 0 <= i < |db.sources| && db.sources[i].id == s.id
    modifies db
    ensures db.Valid()
    ensures db.sources == old(db.sources)[i := s]
    ensures db.articles == old(db.articles) && db.nextArticleId == old(db.nextArticleId)
    ensures db.keywords == old(db.keywords)
    ensures db.webhookConfig == old(db.webhookConfig) && db.aiSettings == old(db.aiSettings)
    ensures db.aiFilterConfig == old(db.aiFilterConfig)
  {
    db.sources := db.sources[i := s];
  }
}
