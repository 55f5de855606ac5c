/** The stand-alone include/exclude filter (scripts/filter_rss.py): the
    exclude-first keyword test, the fields read from a feed entry, the
    dedup key, and the scan over every entry of every feed that keeps the
    first included article of each key. Feed parsing, MD5 and URL parsing
    are oracles. */
module FilterRss {
  import opened Common

  const NO_TITLE := "无标题"

  /** The two keyword lists of a `KeywordFilter`, lower-cased, order kept. */
  datatype ScriptFilter = ScriptFilter(includeWords: seq<string>, excludeWords: seq<string>)

  function LowerAll(kws: seq<string>): (r: seq<string>)
    ensures |r| == |kws|
    ensures forall k :: 0 <= k < |kws| ==> r[k] == Lower(kws[k])
  {
    seq(|kws|, k requires 0 <= k < |kws| => Lower(kws[k]))
  }

  /** `KeywordFilter.__init__`: every stored keyword is already lower case. */
  function NewScriptFilter(includeWords: seq<string>, excludeWords: seq<string>): (f: ScriptFilter)
    ensures |f.includeWords| == |includeWords| && |f.excludeWords| == |excludeWords|
    ensures forall k :: 0 <= k < |f.includeWords| ==> Lower(f.includeWords[k]) == f.includeWords[k]
    ensures forall k :: 0 <= k < |f.excludeWords| ==> Lower(f.excludeWords[k]) == f.excludeWords[k]
  {
    forall k | 0 <= k < |includeWords| ensures Lower(Lower(includeWords[k])) == Lower(includeWords[k]) {
      LowerIdempotent(includeWords[k]);
    }
    forall k | 0 <= k < |excludeWords| ensures Lower(Lower(excludeWords[k])) == Lower(excludeWords[k]) {
      LowerIdempotent(excludeWords[k]);
    }
    ScriptFilter(LowerAll(includeWords), LowerAll(excludeWords))
  }

  /** Index of the first keyword of `kws`, in list order, that occurs in `text`. */
  function FirstContained(kws: seq<string>, text: string): (r: Option<nat>)
    ensures r.Some? ==> r.value < |kws| && Contains(text, kws[r.value])
    ensures r.Some? ==> forall l :: 0 <= l < r.value ==> !Contains(text, kws[l])
    ensures r.None? ==> forall l :: 0 <= l < |kws| ==> !Contains(text, kws[l])
    decreases |kws|
  {
    if kws == [] then None
    else if Contains(text, kws[0]) then Some(0)
    else
      match FirstContained(kws[1..], text)
      case None => None
      case Some(i) => Some(i + 1)
  }

  /** The text the filter looks at: `f"{title} {summary}".lower()`. */
  function MatchText(title: string, summary: string): string {
    Lower(title + " " + summary)
  }

  /** `KeywordFilter.matches`: an exclude word anywhere rejects, naming that
      word; otherwise the first include word present accepts, naming it;
      otherwise the article is rejected with an empty word. */
  function Matches(f: ScriptFilter, title: string, summary: string): (r: (bool, string))
  {
    var text := MatchText(title, summary);
    match FirstContained(f.excludeWords, text)
    case Some(l) => (false, f.excludeWords[l])
    case None =>
      match FirstContained(f.includeWords, text)
      case Some(k) => (true, f.includeWords[k])
      case None => (false, "")
  }

  /** The decision and the word it names, in terms of which keywords occur
      in the text. */
  lemma MatchesSpec(f: ScriptFilter, title: string, summary: string)
    ensures var r := Matches(f, title, summary); var text := MatchText(title, summary);
      && (r.0 <==> (forall l :: 0 <= l < |f.excludeWords| ==> !Contains(text, f.excludeWords[l])) &&
                   (exists k :: 0 <= k < |f.includeWords| && Contains(text, f.includeWords[k])))
      && ((exists l :: 0 <= l < |f.excludeWords| && Contains(text, f.excludeWords[l])) ==> r.1 in f.excludeWords && Contains(text, r.1))
      && (r.0 ==> exists k :: 0 <= k < |f.includeWords| && r.1 == f.includeWords[k] && Contains(text, r.1) &&
                              forall l :: 0 <= l < k ==> !Contains(text, f.includeWords[l]))
      && (!r.0 && r.1 != [] ==> r.1 in f.excludeWords)
  {
  }

  /** `KeywordFilter.should_include`. */
  predicate ShouldInclude(f: ScriptFilter, title: string, summary: string)
    ensures ShouldInclude(f, title, summary) <==>
      (forall l :: 0 <= l < |f.excludeWords| ==> !Contains(MatchText(title, summary), f.excludeWords[l])) &&
      (exists k :: 0 <= k < |f.includeWords| && Contains(MatchText(title, summary), f.includeWords[k]))
  {
    MatchesSpec(f, title, summary);
    Matches(f, title, summary).0
  }

  /** The decision ignores the case of the article's text. */
  lemma MatchesIgnoresCase(f: ScriptFilter, title: string, summary: string)
    ensures Matches(f, Lower(title), Lower(summary)) == Matches(f, title, summary)
  {
    LowerAppend(title, " ");
    LowerAppend(title + " ", summary);
    LowerAppend(Lower(title), " ");
    LowerAppend(Lower(title) + " ", Lower(summary));
    LowerIdempotent(title);
    LowerIdempotent(summary);
    assert Lower(" ") == " ";
  }

  /** The decision ignores the case of the configured keywords. */
  lemma MatchesIgnoresKeywordCase(includeWords: seq<string>, excludeWords: seq<string>, title: string, summary: string)
    ensures Matches(NewScriptFilter(LowerAll(includeWords), LowerAll(excludeWords)), title, summary) ==
            Matches(NewScriptFilter(includeWords, excludeWords), title, summary)
  {
    forall k | 0 <= k < |includeWords| ensures Lower(Lower(includeWords[k])) == Lower(includeWords[k]) {
      LowerIdempotent(includeWords[k]);
    }
    forall k | 0 <= k < |excludeWords| ensures Lower(Lower(excludeWords[k])) == Lower(excludeWords[k]) {
      LowerIdempotent(excludeWords[k]);
    }
    assert LowerAll(LowerAll(includeWords)) == LowerAll(includeWords);
    assert LowerAll(LowerAll(excludeWords)) == LowerAll(excludeWords);
  }

  // ---------------------------------------------------------------------------
  // Entries

  /** A feed entry's `link`: a string, or a non-empty list of strings. */
  datatype LinkValue = LinkText(text: string) | LinkList(first: string, more: seq<string>)

  /** The attributes the script reads from a feed entry; None is an absent
      attribute. */
  datatype ScriptEntry = ScriptEntry(title: Option<string>, summary: Option<string>, description: Option<string>, link: Option<LinkValue>)

  datatype ArticleInfo = ArticleInfo(title: string, summary: string, link: string)

  /** `extract_article_info`. */
  function ExtractArticleInfo(e: ScriptEntry): (r: ArticleInfo)
    ensures e.title.None? ==> r.title == NO_TITLE
    ensures e.summary.None? && e.description.None? ==> r.summary == []
    ensures e.link.None? ==> r.link == []
    ensures e.link.Some? && e.link.value.LinkList? ==> r.link == e.link.value.first
  {
    var title := if e.title.Some? then e.title.value else NO_TITLE;
    var summary := if e.summary.Some? then e.summary.value else if e.description.Some? then e.description.value else [];
    var link :=
      match e.link
      case None => []
      case Some(LinkText(s)) => s
      case Some(LinkList(first, _)) => first;
    ArticleInfo(title, summary, link)
  }

  /** The entry that carries exactly an article's fields reads back as that
      article, and a summary takes precedence over a description. */
  lemma ExtractArticleInfoRoundTrip(a: ArticleInfo, description: Option<string>)
    ensures ExtractArticleInfo(ScriptEntry(Some(a.title), Some(a.summary), description, Some(LinkText(a.link)))) == a
    ensures ExtractArticleInfo(ScriptEntry(Some(a.title), None, Some(a.summary), Some(LinkList(a.link, [])))) == a
  {
  }

  /** `get_article_hash` before the digest: lower-cased, stripped title and
      link joined by `|`. */
  function ArticleKey(title: string, link: string): (r: string)
    ensures |r| == |Strip(Lower(title))| + 1 + |Strip(Lower(link))|
    ensures r[|Strip(Lower(title))|] == '|'
  {
    Strip(Lower(title)) + "|" + Strip(Lower(link))
  }

  /** Titles and links that differ only in case or surrounding whitespace
      share a key. */
  lemma ArticleKeysNormalise()
    ensures forall title, link :: ArticleKey(Strip(Lower(title)), Strip(Lower(link))) == ArticleKey(title, link)
  {
    forall title, link ensures ArticleKey(Strip(Lower(title)), Strip(Lower(link))) == ArticleKey(title, link) {
      ArticleKeyNormalises(title, link);
    }
  }

  lemma ArticleKeyNormalises(title: string, link: string)
    ensures ArticleKey(Strip(Lower(title)), Strip(Lower(link))) == ArticleKey(title, link)
  {
    StripLower(title);
    StripLower(Lower(title));
    LowerIdempotent(title);
    StripIdempotent(Lower(title));
    StripLower(link);
    StripLower(Lower(link));
    LowerIdempotent(link);
    StripIdempotent(Lower(link));
  }

  /** A title without `|` can be read back from the key: it is the part
      before the first `|`. */
  lemma ArticleKeyTitle(title: string, link: string)
    requires '|' !in title
    ensures Split(ArticleKey(title, link), '|')[0] == Strip(Lower(title))
  {
    var t := Strip(Lower(title));
    assert '|' !in Lower(title) by {
      forall i | 0 <= i < |title| ensures Lower(title)[i] != '|' {
        assert title[i] != '|';
      }
    }
    StripOmits(Lower(title), '|');
    SplitFirst(t, Strip(Lower(link)), '|');
    assert ArticleKey(title, link) == t + ['|'] + Strip(Lower(link));
  }

  /** Stripping adds no character. */
  lemma StripOmits(s: string, c: char)
    requires c !in s
    ensures c !in Strip(s)
  {
    var lo := SkipSpaceFrom(s, 0);
    forall i | 0 <= i < |Strip(s)| ensures Strip(s)[i] != c {
      assert Strip(s)[i] == s[lo + i];
    }
  }

  // ---------------------------------------------------------------------------
  // The dedup scan

  /** One feed as `parse_rss` returns it: its URL and its entries (none when
      the feed is empty or unreadable). */
  datatype Feed = Feed(url: string, entries: seq<ScriptEntry>)

  /** An output record; `source` is the feed URL's network location. */
  datatype MatchedArticle = MatchedArticle(title: string, link: string, source: string)

  /** The entries of one feed, each paired with the feed's URL. */
  function FeedItems(feed: Feed): (r: seq<(string, ScriptEntry)>)
    ensures |r| == |feed.entries|
    ensures forall k :: 0 <= k < |r| ==> r[k] == (feed.url, feed.entries[k])
  {
    seq(|feed.entries|, k requires 0 <= k < |feed.entries| => (feed.url, feed.entries[k]))
  }

  /** Every entry of every feed, feeds in list order. */
  function AllItems(feeds: seq<Feed>): (r: seq<(string, ScriptEntry)>)
    decreases |feeds|
  {
    if feeds == [] then [] else AllItems(feeds[..|feeds| - 1]) + FeedItems(feeds[|feeds| - 1])
  }

  /** The filter's decision as a function value, the way the scan uses it. */
  function Keeps(f: ScriptFilter): (string, string) -> bool {
    (title: string, summary: string) => ShouldInclude(f, title, summary)
  }

  /** An entry the scan would output unless its hash was already seen. */
  predicate Accepted(keep: (string, string) -> bool, item: (string, ScriptEntry)) {
    var info := ExtractArticleInfo(item.1);
    info.link != [] && keep(info.title, info.summary)
  }

  /** The hash an output record was kept under. */
  function RecordHash(m: MatchedArticle, digest: (string, string) -> string): string {
    digest(m.title, m.link)
  }

  /** The record an included entry becomes. */
  function Record(url: string, info: ArticleInfo, netloc: string -> string): MatchedArticle {
    MatchedArticle(info.title, info.link, netloc(url))
  }

  /** What `filter_rss` keeps while it scans: the seen hashes and the
      output so far. */
  type ScanState = (set<string>, seq<MatchedArticle>)

  /** One entry of the scan: an entry with a link, an unseen hash and the
      filter's approval is recorded and its hash remembered. */
  function Next(keep: (string, string) -> bool, prev: ScanState, item: (string, ScriptEntry),
                digest: (string, string) -> string, netloc: string -> string): (r: ScanState)
    ensures prev.0 <= r.0 && |prev.1| <= |r.1| <= |prev.1| + 1 && r.1[..|prev.1|] == prev.1
    ensures |r.1| > |prev.1| ==> r.1[|prev.1|].link != [] && keep(r.1[|prev.1|].title, ExtractArticleInfo(item.1).summary)
  {
    var info := ExtractArticleInfo(item.1);
    var h := digest(info.title, info.link);
    if info.link == [] || h in prev.0 || !keep(info.title, info.summary) then prev
    else (prev.0 + {h}, prev.1 + [Record(item.0, info, netloc)])
  }

  /** The scan of `items` continued from the state `st`. */
  function ScanFrom(keep: (string, string) -> bool, st: ScanState, items: seq<(string, ScriptEntry)>,
                    digest: (string, string) -> string, netloc: string -> string): (r: ScanState)
    ensures |r.1| <= |st.1| + |items|
    decreases |items|
  {
    if items == [] then st
    else Next(keep, ScanFrom(keep, st, items[..|items| - 1], digest, netloc), items[|items| - 1], digest, netloc)
  }

  /** The state of `filter_rss` after `items`. */
  function Scan(keep: (string, string) -> bool, items: seq<(string, ScriptEntry)>, digest: (string, string) -> string, netloc: string -> string)
    : (r: ScanState)
    ensures |r.1| <= |items|
  {
    ScanFrom(keep, ({}, []), items, digest, netloc)
  }

  /** Scanning `xs` and then `ys` is scanning `xs + ys`. */
  lemma {:induction false} ScanFromAppend(keep: (string, string) -> bool, st: ScanState, xs: seq<(string, ScriptEntry)>, ys: seq<(string, ScriptEntry)>,
                                          digest: (string, string) -> string, netloc: string -> string)
    ensures ScanFrom(keep, ScanFrom(keep, st, xs, digest, netloc), ys, digest, netloc) == ScanFrom(keep, st, xs + ys, digest, netloc)
    decreases |ys|
  {
    if ys == [] {
      assert xs + ys == xs;
    } else {
      var init := ys[..|ys| - 1];
      ScanFromAppend(keep, st, xs, init, digest, netloc);
      assert (xs + ys)[..|xs + ys| - 1] == xs + init;
      assert (xs + ys)[|xs + ys| - 1] == ys[|ys| - 1];
    }
  }

  /** Scanning one more item is one more step. */
  lemma ScanFromSnoc(keep: (string, string) -> bool, st: ScanState, xs: seq<(string, ScriptEntry)>, x: (string, ScriptEntry),
                     digest: (string, string) -> string, netloc: string -> string)
    ensures ScanFrom(keep, st, xs + [x], digest, netloc) == Next(keep, ScanFrom(keep, st, xs, digest, netloc), x, digest, netloc)
  {
    assert (xs + [x])[..|xs|] == xs;
  }

  /** One step of the scan: the seen set only grows, and an accepted last
      entry's hash is in it afterwards. */
  lemma ScanStep(keep: (string, string) -> bool, items: seq<(string, ScriptEntry)>, digest: (string, string) -> string, netloc: string -> string)
    requires items != []
    ensures var prev := Scan(keep, items[..|items| - 1], digest, netloc);
      var r := Scan(keep, items, digest, netloc);
      var info := ExtractArticleInfo(items[|items| - 1].1);
      && prev.0 <= r.0
      && (Accepted(keep, items[|items| - 1]) ==> digest(info.title, info.link) in r.0)
      && (r == prev || r == (prev.0 + {digest(info.title, info.link)}, prev.1 + [Record(items[|items| - 1].0, info, netloc)]))
  {
  }

  /** What the scan keeps: the seen set is exactly the hashes of the output,
      no two records share a hash, and every record has a link. */
  lemma {:induction false} ScanInvariant(keep: (string, string) -> bool, items: seq<(string, ScriptEntry)>, digest: (string, string) -> string, netloc: string -> string)
    ensures var r := Scan(keep, items, digest, netloc);
      && (forall h :: h in r.0 <==> exists k :: 0 <= k < |r.1| && RecordHash(r.1[k], digest) == h)
      && (forall a, b :: 0 <= a < b < |r.1| ==> RecordHash(r.1[a], digest) != RecordHash(r.1[b], digest))
      && (forall k :: 0 <= k < |r.1| ==> r.1[k].link != [])
    decreases |items|
  {
    if items != [] {
      var init := items[..|items| - 1];
      ScanInvariant(keep, init, digest, netloc);
      ScanStep(keep, items, digest, netloc);
      var prev := Scan(keep, init, digest, netloc);
      var r := Scan(keep, items, digest, netloc);
      if r != prev {
        var info := ExtractArticleInfo(items[|items| - 1].1);
        assert RecordHash(r.1[|prev.1|], digest) == digest(info.title, info.link);
        assert forall k :: 0 <= k < |prev.1| ==> r.1[k] == prev.1[k];
        forall h | h in r.0 ensures exists k :: 0 <= k < |r.1| && RecordHash(r.1[k], digest) == h {
          if h in prev.0 {
            var k :| 0 <= k < |prev.1| && RecordHash(prev.1[k], digest) == h;
            assert r.1[k] == prev.1[k];
          } else {
            assert RecordHash(r.1[|prev.1|], digest) == h;
          }
        }
      }
    }
  }

  /** Every record comes from an entry with a link that the filter accepts. */
  lemma {:induction false} ScanSound(keep: (string, string) -> bool, items: seq<(string, ScriptEntry)>, digest: (string, string) -> string, netloc: string -> string, j: int)
    requires 0 <= j < |Scan(keep, items, digest, netloc).1|
    ensures exists k :: 0 <= k < |items| && Accepted(keep, items[k]) &&
                        Scan(keep, items, digest, netloc).1[j] == Record(items[k].0, ExtractArticleInfo(items[k].1), netloc)
    decreases |items|
  {
    var init := items[..|items| - 1];
    var out := Scan(keep, init, digest, netloc).1;
    if j < |out| {
      ScanSound(keep, init, digest, netloc, j);
      var k :| 0 <= k < |init| && Accepted(keep, init[k]) && out[j] == Record(init[k].0, ExtractArticleInfo(init[k].1), netloc);
      assert items[k] == init[k];
    } else {
      var k := |items| - 1;
      assert Scan(keep, items, digest, netloc).1[j] == Record(items[k].0, ExtractArticleInfo(items[k].1), netloc);
    }
  }

  /** No accepted entry with a link is lost: its hash is among the seen ones,
      so either it or an earlier record with the same hash is in the output. */
  lemma {:induction false} ScanComplete(keep: (string, string) -> bool, items: seq<(string, ScriptEntry)>, digest: (string, string) -> string, netloc: string -> string, k: int)
    requires 0 <= k < |items|
    requires Accepted(keep, items[k])
    ensures var info := ExtractArticleInfo(items[k].1); digest(info.title, info.link) in Scan(keep, items, digest, netloc).0
    decreases |items|
  {
    var init := items[..|items| - 1];
    ScanStep(keep, items, digest, netloc);
    if k < |init| {
      assert items[k] == init[k];
      ScanComplete(keep, init, digest, netloc, k);
    }
  }

  /** `get_article_hash`: `hash` stands for the first eight hex digits of
      the MD5 of the key's UTF-8 bytes. */
  function ArticleHash(hash: string -> string): (r: (string, string) -> string)
    ensures forall title, link :: r(Strip(Lower(title)), Strip(Lower(link))) == r(title, link)
  {
    ArticleKeysNormalise();
    (title: string, link: string) => hash(ArticleKey(title, link))
  }

  /** `filter_rss`: the feeds in order, the entries of each in order. */
  method FilterRssFeeds(includeWords: seq<string>, excludeWords: seq<string>, feeds: seq<Feed>,
                        hash: string -> string, netloc: string -> string)
    returns (matched: seq<MatchedArticle>)
    ensures matched == Scan(Keeps(NewScriptFilter(includeWords, excludeWords)), AllItems(feeds), ArticleHash(hash), netloc).1
    ensures forall a, b :: 0 <= a < b < |matched| ==>
      hash(ArticleKey(matched[a].title, matched[a].link)) != hash(ArticleKey(matched[b].title, matched[b].link))
  {
    var digest := ArticleHash(hash);
    ScanInvariant(Keeps(NewScriptFilter(includeWords, excludeWords)), AllItems(feeds), digest, netloc);
    var f := NewScriptFilter(includeWords, excludeWords);
    var seen: set<string> := {};
    matched := [];
    var i := 0;
    while i < |feeds|
      invariant 0 <= i <= |feeds|
      invariant (seen, matched) == Scan(Keeps(f), AllItems(feeds[..i]), digest, netloc)
    {
      var feed := feeds[i];
      assert feeds[..i + 1][..i] == feeds[..i];
      seen, matched := ScanFeed(Keeps(f), feed, seen, matched, digest, netloc);
      ScanFromAppend(Keeps(f), ({}, []), AllItems(feeds[..i]), FeedItems(feed), digest, netloc);
      i := i + 1;
    }
    assert feeds[..i] == feeds;
  }

  /** The inner loop of `filter_rss` over one feed's entries, from the
      state the earlier feeds left. */
  method ScanFeed(keep: (string, string) -> bool, feed: Feed,
                  seen0: set<string>, matched0: seq<MatchedArticle>, digest: (string, string) -> string, netloc: string -> string)
    returns (seen: set<string>, matched: seq<MatchedArticle>)
    ensures (seen, matched) == ScanFrom(keep, (seen0, matched0), FeedItems(feed), digest, netloc)
  {
    seen, matched := seen0, matched0;
    ghost var items: seq<(string, ScriptEntry)> := [];
    var j := 0;
    while j < |feed.entries|
      invariant 0 <= j <= |feed.entries|
      invariant |items| == j && forall k :: 0 <= k < j ==> items[k] == (feed.url, feed.entries[k])
      invariant (seen, matched) == ScanFrom(keep, (seen0, matched0), items, digest, netloc)
    {
      ScanFromSnoc(keep, (seen0, matched0), items, (feed.url, feed.entries[j]), digest, netloc);
      seen, matched := ScanEntry(keep, feed.url, feed.entries[j], seen, matched, digest, netloc);
      items := items + [(feed.url, feed.entries[j])];
      j := j + 1;
    }
    assert items == FeedItems(feed);
  }

  /** The body of the inner loop: one entry. */
  method ScanEntry(keep: (string, string) -> bool, url: string, entry: ScriptEntry,
                   seen0: set<string>, matched0: seq<MatchedArticle>, digest: (string, string) -> string, netloc: string -> string)
    returns (seen: set<string>, matched: seq<MatchedArticle>)
    ensures (seen, matched) == Next(keep, (seen0, matched0), (url, entry), digest, netloc)
  {
    seen, matched := seen0, matched0;
    var info := ExtractArticleInfo(entry);
    if info.link != [] {
      var articleHash := digest(info.title, info.link);
      if articleHash !in seen && keep(info.title, info.summary) {
        seen := seen + {articleHash};
        matched := matched + [MatchedArticle(info.title, info.link, netloc(url))];
      }
    }
  }
}
