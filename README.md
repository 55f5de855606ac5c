# Briefly: a verified model of the ingest, filter, summary and push pipeline

Briefly is a personal news reader. It fetches RSS sources on a schedule and
stores each new entry as an article, deduplicated per source by its guid. It
marks the articles that match a keyword rule, and it can let an AI model pick
the articles to keep. It writes short AI summaries, and it pushes favourite or
filtered articles to a chat webhook (WeCom, DingTalk, Feishu or a generic
endpoint) on a daily, weekly, monthly or hourly schedule. A set of HTTP routes
manages the keyword rules, the webhook configuration and the articles.

This project models the core of that pipeline in Dafny. There is one module
per source file:

| module | file | models |
|---|---|---|
| `Common` | — | the Python string built-ins the core relies on (`strip`, ASCII `lower`, `split`, `int`, `s[:n]`, `a or b`), and the HTTP error answers the routes raise |
| `Store` | app/models | one record type per table, and the class `Db` whose `seq` fields are the tables; the article's `is_ai_filtered` flag and the AI filter configuration row are not declared under app/models and are taken from their use in the AI filter service |
| `KeywordService` | app/services/keyword_service.py | the class `KeywordFilter` and the keyword filter pass |
| `RssService` | app/services/rss_service.py | date parsing, entry normalisation, the retry policy, the duplicate-checking writer and the all-sources round |
| `AiService` | app/services/ai_service.py | truncation, the prompt, summary post-processing, the settings row, the single and batch summaries |
| `WebhookService` | app/services/webhook_service.py | the message and payload builders, the send guards, the connection test |
| `Jobs` | — | the scheduler library's job table, as a class |
| `WebhookScheduler` | app/services/webhook_scheduler.py | time parsing, trigger derivation, the job rebuild, the push task |
| `SchedulerService` | app/services/scheduler_service.py | the class `TaskScheduler`, its task bodies and the full pipeline |
| `AiFilterService` | app/services/ai_filter_service.py | the filter configuration row and the AI keep/filter marking pass |
| `FilterRss` | scripts/filter_rss.py | the stand-alone include/exclude filter and its deduplicating scan |
| `KeywordRoutes` | app/routes/keywords.py | the keyword table endpoints |
| `WebhookRoutes` | app/routes/webhook.py | the request validators, the configuration row, the test notification and the manual pushes |
| `ArticleRoutes` | app/routes/articles.py | the response row, listing and pagination, flags, summary and push endpoints |

The model follows the form of each source file. Pure helpers become
functions. Database work becomes methods on a `Db` whose table fields they
reassign. Their `ensures` relate the new tables to specification functions
of the old tables, and lemmas prove what those functions promise. The loops
of the source stay loops with invariants. Outside effects are parameters of
the model:

- the network (`httpx`), the feed parser (`feedparser`) and `strptime`;
- the AI client and the webhook POST;
- the clock, MD5 and `urlparse`;
- the iteration order of a Python `set`.

## Model

| member | source | states |
|---|---|---|
| Common.OrElse | app/routes/articles.py:311 | `a or b` for an optional string: a non-empty `a` wins, otherwise the result is `b` |
| Common.OrElseOpt | app/services/ai_service.py:55-56 | `a or b` on two optional strings: a non-empty `a` wins, otherwise `b` |
| Common.Strip | app/services/keyword_service.py:22-23 | `str.strip()` never lengthens its argument |
| Common.StripShape | app/services/keyword_service.py:22-23 | the strip is empty exactly when the text is empty or all whitespace; a non-empty strip neither starts nor ends with whitespace |
| Common.StripNoop | app/services/keyword_service.py:22-23 | a text with no whitespace at either end is its own strip |
| Common.StripIdempotent | app/services/keyword_service.py:22-23 | stripping twice is stripping once |
| Common.Lower | app/routes/keywords.py:84 | `str.lower()` on ASCII letters: same length, each character lowered on its own |
| Common.LowerIdempotent | app/routes/keywords.py:84 | lowering twice is lowering once |
| Common.LowerAppend | scripts/filter_rss.py:26 | lowering distributes over concatenation |
| Common.LowerKeepsSpace | app/routes/keywords.py:84 | lowering a character does not change whether it is whitespace |
| Common.SkipSpaceFromLower | app/routes/keywords.py:84 | the first non-whitespace position is the same before and after lowering |
| Common.SkipSpaceBackLower | app/routes/keywords.py:84 | the last non-whitespace position is the same before and after lowering |
| Common.StripLower | app/services/keyword_service.py:165 | `lower().strip()` equals `strip().lower()`, so the existence check at line 165 normalises like the keyword routes |
| Common.NormalizeIdempotent | app/routes/keywords.py:84 | `strip().lower()` applied twice equals applying it once |
| Common.Normalize | app/routes/keywords.py:84 | `strip().lower()` never lengthens its argument, and is empty exactly when the text is blank |
| Common.IsWordChar | app/services/keyword_service.py:32 | the characters `\b` treats as word characters: ASCII letters, digits and `_`, and the letters of the Latin, Greek, Cyrillic, kana, CJK, Hangul and full-width blocks listed in its comment; its consequences are `KeywordService.CyrillicBlocksBoundary` and the keyword filter's lemmas |
| Common.PyPrefix | app/services/ai_service.py:159 | `s[:n]` is a prefix of `s`; for `n >= 0` its length is `min(n, len(s))` |
| Common.ParseInt | app/services/webhook_scheduler.py:104-105 | `int()` of a run of digits, with surrounding whitespace stripped, is its decimal value |
| Common.Split | app/services/webhook_scheduler.py:103 | `split(sep)` returns at least one part, and no part contains the separator |
| Common.SplitNoSep | app/services/webhook_scheduler.py:103 | a text without the separator splits into itself alone |
| Common.SplitFirst | app/services/webhook_scheduler.py:103 | splitting `a + sep + b` where `a` has no separator gives `a` followed by the parts of `b` |
| Common.SplitTwo | app/services/webhook_scheduler.py:103 | two separator-free parts joined by the separator split back into exactly those two parts |
| Common.DecimalString | app/services/ai_filter_service.py:147 | `str(n)` of a natural number is all digits and has no leading zero |
| Common.DecimalStringValue | app/services/ai_filter_service.py:147 | the digits of `str(n)` have the value `n` |
| Common.DecimalStringParses | app/services/ai_filter_service.py:147 | `int(str(n)) == n` |
| Store.ArticleIds | app/services/keyword_service.py:128 | the ids of a list of articles, in order, one per article |
| Store.Db.constructor | app/models/database.py:34-37 | a new database has every table empty and no configuration row, and satisfies the table invariants |
| Store.NextKeywordId | app/models/keyword.py:14 | the id a new keyword row gets: above every present id, 1 for an empty table, and otherwise one above some present id (a plain integer primary key, without the autoincrement the article table declares) |
| KeywordService.KeepKeyword | app/services/keyword_service.py:21-26 | a kept keyword is the strip of a present input, non-empty and at least `min_length` long |
| KeywordService.KeepKeywordExactly | app/services/keyword_service.py:21-26 | an input is kept exactly when it is present, not empty or all whitespace, and its strip reaches `min_length` |
| KeywordService.Kept | app/services/keyword_service.py:20-33 | the kept keywords are never more than the inputs |
| KeywordService.KeptSound | app/services/keyword_service.py:20-33 | every kept keyword is the kept form of some input |
| KeywordService.KeptComplete | app/services/keyword_service.py:20-33 | every input that passes the checks is kept |
| KeywordService.KeptAppend | app/services/keyword_service.py:20-33 | keeping from two lists in turn equals keeping from their concatenation |
| KeywordService.LowerSetMembers | app/services/keyword_service.py:29 | the keyword set holds exactly the lower-cased kept keywords |
| KeywordService.LowerSetSize | app/services/keyword_service.py:76-78 | `keyword_count` is at most the number of patterns, equals it when the lower-cased keywords are distinct, and is 0 exactly when no keyword was kept |
| KeywordService.MatchedNamesExactly | app/services/keyword_service.py:48-50 | with each pattern's own keyword reported, a name is reported exactly when it is a kept keyword whose pattern matches, and never more often than there are keywords |
| KeywordService.MatchedNames | app/services/keyword_service.py:48-50 | the corrected matcher reports at most one name per keyword, each one of the kept keywords |
| KeywordService.MatchedNamesAsWritten | app/services/keyword_service.py:48-50 | when the source's lookup succeeds it reports at most one name per keyword, each an element of the set's iteration order |
| KeywordService.OneKeywordAsWritten | app/services/keyword_service.py:29-50 | with a single keyword the set holds only its lower-case form, and the as-written matcher reports that form exactly when the pattern matches |
| KeywordService.CyrillicBlocksBoundary | app/services/keyword_service.py:32 | a Cyrillic letter before "ai" is a word character, so the `\b` pattern for "ai" does not match inside "дai" |
| KeywordService.MatchedNamesNonEmpty | app/services/keyword_service.py:48-55 | something is reported exactly when some pattern matches |
| KeywordService.MatchedNamesEmptyText | app/services/keyword_service.py:41-42 | an empty text matches nothing |
| KeywordService.FilterPartition | app/services/keyword_service.py:57-74 | the matched and unmatched lists together are a permutation of the input; the matched list holds exactly the matching articles and the unmatched list exactly the others |
| KeywordService.KeywordFilter.constructor | app/services/keyword_service.py:11-18 | a new filter holds the kept form of the given keywords (none for None) and the given minimum length |
| KeywordService.KeywordFilter.AddKeywords | app/services/keyword_service.py:20-33 | appends one original and one pattern per kept keyword, in input order, and adds their lower-case forms to the set |
| KeywordService.KeywordFilter.AddOne | app/services/keyword_service.py:28-33 | one kept keyword appends one original and one pattern and adds its lower-case form |
| KeywordService.KeywordFilter.Clear | app/services/keyword_service.py:35-38 | the set, the patterns and the originals are all emptied |
| KeywordService.KeywordFilter.KeywordCount | app/services/keyword_service.py:76-78 | the set size is at most the number of patterns, and 0 exactly when there is no pattern |
| KeywordService.KeywordFilter.Matches | app/services/keyword_service.py:40-55 | `(False, [], False)` for an empty text or no pattern; the flag is true exactly when some pattern matches, exactly when the list is non-empty; the third value is always false |
| KeywordService.KeywordFilter.FilterArticles | app/services/keyword_service.py:57-74 | returns the matching and the non-matching articles, in input order, which together are a permutation of the input |
| KeywordService.LowerSetAppend | app/services/keyword_service.py:29 | the set built from two lists in turn is the union of their sets |
| KeywordService.TestKeywordMatch | app/services/keyword_service.py:171-173 | a one-keyword filter matches exactly when the keyword is kept and its pattern matches, and then reports the keyword stripped and lower-cased, which is what the source's set of lower-case keywords holds; the answer equals the as-written matcher's on the same keyword |
| KeywordService.NoWindow | app/services/keyword_service.py:32 | a pattern cannot match where no two adjacent characters agree, case-insensitively, with its first two |
| KeywordService.PythonAiNames | app/services/keyword_service.py:48-50 | with keywords "python" and "ai", the reported names are each keyword whose pattern matches, in keyword order |
| KeywordService.UnitTestPythonText | tests/test_unit.py:40-43 | "学习 Python 编程" reports only "python" |
| KeywordService.UnitTestJavaText | tests/test_unit.py:44 | "使用 Java 开发" reports nothing |
| KeywordService.UnitTestAiText | tests/test_unit.py:45 | "AI 和机器学习" reports only "ai" |
| KeywordService.UnitTestNewsText | tests/test_unit.py:46 | "最新科技新闻" reports nothing |
| KeywordService.PythonMatchesPython | app/services/keyword_service.py:32 | the pattern for "python" matches the text "python" |
| KeywordService.AiMissesPython | app/services/keyword_service.py:32 | the pattern for "ai" does not match the text "python" |
| KeywordService.PythonAiSet | app/services/keyword_service.py:29 | the keywords "python" and "ai" give the set {"python", "ai"} |
| KeywordService.AsWrittenReportsWrongKeyword | app/services/keyword_service.py:50 | when the set iterates as ["ai", "python"], the source reports "ai" for the text "python", while the corrected matcher reports "python" |
| KeywordService.AiAiSet | app/services/keyword_service.py:29 | the keywords "AI" and "ai" give the one-element set {"ai"} |
| KeywordService.AiAiKept | app/services/keyword_service.py:20-33 | the keywords "AI" and "ai" are both kept |
| KeywordService.AsWrittenIndexError | app/services/keyword_service.py:50 | with "AI" and "ai" there are two patterns and one set element, so the text "ai" makes the source raise IndexError |
| KeywordService.AsWrittenInRange | app/services/keyword_service.py:48-50 | when the set has one element per pattern, the source never raises and reports as many names as the corrected matcher |
| KeywordService.AsWrittenPrefixOrder | app/services/keyword_service.py:48-50 | the source's names depend only on the first as many set elements as there are patterns |
| KeywordService.EnabledKeywords | app/services/keyword_service.py:81-87 | `load_keywords_from_db` returns at most one text per rule |
| KeywordService.AsInputs | app/services/keyword_service.py:90-92 | the loaded texts are passed on to the filter unchanged, one per text |
| KeywordService.CandidatesExactly | app/services/keyword_service.py:115-121 | the candidates are exactly the unfiltered articles, restricted to the given ids only when that list is non-empty |
| KeywordService.Candidates | app/services/keyword_service.py:115-121 | no more candidates than rows; each candidate is an unfiltered row of the table |
| KeywordService.MarkFiltered | app/services/keyword_service.py:126-127 | marking articles filtered keeps the number of rows |
| KeywordService.BumpRule | app/services/keyword_service.py:95-106 | a counter update keeps the number of rules |
| KeywordService.BumpAll | app/services/keyword_service.py:133-134 | the counter updates for one article keep the number of rules |
| KeywordService.BumpForArticles | app/services/keyword_service.py:126-134 | the counter updates for all matched articles keep the number of rules |
| KeywordService.BumpAllAt | app/services/keyword_service.py:95-106 | each enabled rule gains one match per time its exact text is reported; disabled rules and all other columns are unchanged |
| KeywordService.BumpForArticlesAt | app/services/keyword_service.py:126-134 | over all matched articles, each enabled rule gains the number of times its exact text was reported; all else is unchanged |
| KeywordService.OccurrencesOfMatched | app/services/keyword_service.py:48-50 | among distinct keywords, a name is reported once for an article when its pattern matches and otherwise not at all |
| KeywordService.OccurrencesAppend | app/services/keyword_service.py:133-134 | occurrences in a concatenation add up |
| KeywordService.ReportedIsMatchingCount | app/services/keyword_service.py:126-134 | with distinct keywords, a keyword is reported once per matched article whose text its pattern matches |
| KeywordService.FilterPassExactly | app/services/keyword_service.py:109-128 | with no kept keyword nothing is matched; otherwise the matched articles are exactly the unfiltered candidates whose text some kept keyword's pattern matches |
| KeywordService.PassCounterEffect | app/services/keyword_service.py:95-106 | counters never decrease; a kept enabled rule gains exactly one match per filtered article its pattern matches |
| KeywordService.EnabledKeywordsHas | app/services/keyword_service.py:81-87 | every enabled rule's text is loaded |
| KeywordService.EnabledKeywordsFrom | app/services/keyword_service.py:81-87 | every loaded text belongs to an enabled rule |
| KeywordService.EnabledKeywordsDistinct | app/services/keyword_service.py:81-87 | distinct rule texts load as distinct texts |
| KeywordService.PassKeywordsOfValidTable | app/services/keyword_service.py:90-92 | over a well-formed rule table the filter keeps distinct keywords, and keeps every enabled rule of two or more characters |
| KeywordService.NormalizedIsStripped | app/routes/keywords.py:84 | a stored, normalised keyword text is already stripped |
| KeywordService.KeptOfStrippedDistinct | app/services/keyword_service.py:20-33 | keeping from distinct stripped texts gives distinct keywords, each one of the texts |
| KeywordService.UpdateKeywordMatchCount | app/services/keyword_service.py:95-106 | the rule table becomes the counter update of the old one; no other table changes |
| KeywordService.BumpRuleKeepsTable | app/services/keyword_service.py:95-106 | a counter update keeps the rule table well formed |
| KeywordService.BumpAllKeepsTable | app/services/keyword_service.py:133-134 | the updates for one article keep the rule table well formed |
| KeywordService.BumpForArticlesKeepsTable | app/services/keyword_service.py:126-134 | the updates for all matched articles keep the rule table well formed |
| KeywordService.BumpForArticlesSnoc | app/services/keyword_service.py:126-134 | one more matched article adds the counter updates for its reported names |
| KeywordService.MarkFilteredSnoc | app/services/keyword_service.py:126-127 | marking one more id extends the marking |
| KeywordService.MarkFilteredKeepsTable | app/services/keyword_service.py:126-127 | marking keeps article ids and natural keys valid and unique |
| KeywordService.BumpMatchedKeywords | app/services/keyword_service.py:133-134 | the rule table becomes the counter updates for the reported names; no other table changes |
| KeywordService.MarkMatched | app/services/keyword_service.py:125-134 | each matched article is flagged and its id returned in order, and every name reported for it is counted; nothing else changes |
| KeywordService.FilterArticlesByKeywords | app/services/keyword_service.py:109-138 | the returned ids are exactly those of the matching unfiltered candidates; exactly those become filtered, the counters are bumped per reported name, and the tables stay well formed |
| RssService.FirstFormat | app/services/rss_service.py:58-65 | the index of the first format, from `k` on, under which the text parses; every earlier format fails |
| RssService.AsUtc | app/services/rss_service.py:61-62 | a naive time is given the UTC offset and keeps its instant; an aware time is unchanged |
| RssService.ParseDate | app/services/rss_service.py:43-68 | None for an empty or missing text; otherwise a time exactly when some format parses, and then the first format's parse, made aware |
| RssService.NextGt | app/services/rss_service.py:90 | the position of the first `>` at or after `i`, or the end |
| RssService.StripTags | app/services/rss_service.py:90 | `re.sub(r'<[^>]+>', '', s)` never lengthens the text |
| RssService.StripTagsKeepsNoGt | app/services/rss_service.py:90 | removing tags from a text without `>` leaves no `>` |
| RssService.ConsTag | app/services/rss_service.py:90 | a tag in `c + rest` is a tag of `rest` or starts at `c` |
| RssService.ConsNoTags | app/services/rss_service.py:90 | prefixing a tag-free text keeps it tag-free unless the character opens a tag |
| RssService.StripTagsNoTags | app/services/rss_service.py:90 | the substitution leaves no `<...>` span behind |
| RssService.SliceTag | app/services/rss_service.py:90 | a tag of a slice is a tag of the whole text |
| RssService.NoTagsSlice | app/services/rss_service.py:90 | a slice of a tag-free text is tag-free |
| RssService.StripTagsNoop | app/services/rss_service.py:90 | a tag-free text is left unchanged |
| RssService.StripTagsIdempotent | app/services/rss_service.py:90 | removing tags twice is removing them once |
| RssService.CleanContent | app/services/rss_service.py:88-91 | the cleaned content has no tag and no surrounding whitespace; empty content stays empty |
| RssService.RawContent | app/services/rss_service.py:82-86 | the first content value when there is content, else the summary, else "" |
| RssService.ExtractAuthor | app/services/rss_service.py:97-98 | None when there is no `authors` attribute; the author when it is truthy; the first author's name otherwise; IndexError exactly when `authors` is empty and the author is falsy |
| RssService.ExtractEntry | app/services/rss_service.py:71-129 | normalisation raises exactly in the author case above |
| RssService.ExtractEntryFields | app/services/rss_service.py:71-129 | the guid falls back from the id to the link; the title is never empty; the content is clean; the description is the summary, or a preview of at most 500 characters of the content; the author follows the quirk of line 97-98 |
| RssService.ExtractEntryPublished | app/services/rss_service.py:74-80 | the publish time is the parse of published, else updated, else created, and the clock when that fails |
| RssService.ExtractAll | app/services/rss_service.py:191-202 | one record per entry, or a parse error |
| RssService.ExtractAllSpec | app/services/rss_service.py:191-202 | record `i` is the normalisation of entry `i`, and the parse fails exactly when some entry fails |
| RssService.ExtractEntries | app/services/rss_service.py:191-194 | the loop computes `ExtractAll` over the entries |
| RssService.ParseStage | app/services/rss_service.py:178-202 | a parser failure or a bozo feed is a parse error; a feed with no entries gives []; otherwise every entry is normalised |
| RssService.Attempt | app/services/rss_service.py:163-202 | an attempt fails retryably exactly on a timeout, a connect failure or an error status; a body goes to the parsing stage |
| RssService.FetchOnce | app/services/rss_service.py:163-202 | one attempt, the request then the parse, computes `Attempt` |
| RssService.RetryPolicy | app/services/rss_service.py:143-149 | at most three attempts; every attempt before the last failed retryably; the caller sees the last outcome; fewer than three attempts means the last succeeded or failed for good |
| RssService.FetchRssFeed | app/services/rss_service.py:143-202 | the retry loop computes the retry policy over the attempts on the source's url |
| RssService.CountKeyHasKey | app/services/rss_service.py:205-213 | some row has the key exactly when the count of rows with it is positive |
| RssService.IsDuplicateArticle | app/services/rss_service.py:205-213 | the check raises exactly when more than one row has the key, and otherwise answers whether some row has it |
| RssService.Retry | app/services/rss_service.py:143-149 | the retry makes between one and three attempts and hands back the outcome of the last one |
| RssService.CountKeyUnique | app/services/rss_service.py:205-213 | with unique natural keys, at most one row has a key |
| RssService.DuplicateCheck | app/services/rss_service.py:205-213 | with unique natural keys, `scalar_one_or_none` never raises, and the check says whether the key is stored |
| RssService.NewArticle | app/services/rss_service.py:224-235 | a new row carries the source, the guid and the next id, and starts unfiltered, unread, unfavoured and without a summary |
| RssService.SaveAll | app/services/rss_service.py:216-242 | a save only appends rows, and the next id advances by the number appended |
| RssService.InBatchSnoc | app/services/rss_service.py:219-220 | a guid is in a batch extended by one entry exactly when it is in the batch or is that entry's guid |
| RssService.SaveAllKeys | app/services/rss_service.py:216-242 | after a save a key is stored exactly when it was before or it is the source's key of some entry |
| RssService.SaveAllNewRows | app/services/rss_service.py:224-238 | each appended row is a fresh row of the source built from one entry, with the next ids in order |
| RssService.SaveAllOk | app/services/rss_service.py:216-242 | a save keeps ids increasing and natural keys unique |
| RssService.SaveAllNoop | app/services/rss_service.py:220-222 | a batch whose keys are all stored changes nothing |
| RssService.SaveAllAgain | app/services/rss_service.py:216-242 | saving the same batch twice is saving it once, so the second call returns 0 |
| RssService.SaveArticles | app/services/rss_service.py:216-242 | the article table becomes the save of the old one, the count is the number of rows added, the tables stay well formed and nothing else changes |
| RssService.AsWrittenDuplicatesBatch | app/services/rss_service.py:219-238 | a batch carrying one entry twice is inserted twice as written, which breaks key uniqueness and makes the next duplicate check raise; the corrected save inserts it once |
| RssService.SaveAllAsWritten | app/services/rss_service.py:216-242 | as written, a save that does not raise only appends, at most one row per entry, and the next id advances by the number appended |
| RssService.EnabledSources | app/services/rss_service.py:255-256 | the enabled sources are a subsequence of the source table |
| RssService.SourceAfter | app/services/rss_service.py:287-305 | a failed fetch bumps the error counter; a success stamps the fetch time and clears the counter; a disabled source is untouched |
| RssService.RoundResults | app/services/rss_service.py:258-301 | one result per enabled source, in order; -1 exactly for the failed fetches, otherwise a count; no enabled source gives no result |
| RssService.RoundTable | app/services/rss_service.py:287-301 | the round only appends articles, keeps the table well formed, and its non-negative results add up to the articles added |
| RssService.FetchAndSaveAllSources | app/services/rss_service.py:245-317 | the articles and results are those of the round; each source row gets its bookkeeping; no other table changes |
| RssService.Round | app/services/rss_service.py:283-303 | a round yields at most one result per source and only appends articles |
| RssService.RoundStep | app/services/rss_service.py:286-303 | a disabled source changes nothing; an enabled source adds exactly one result under its own id; articles are only appended |
| RssService.FetchAndSaveSource | app/services/rss_service.py:287-305 | one fetch result is handled as one step of the round |
| RssService.SetSource | app/services/rss_service.py:292-305 | one source row is replaced by a row with the same id and everything else is kept |
| AiService.TruncateText | app/services/ai_service.py:156-159 | the result is a prefix of the text; a text within the limit is kept whole; otherwise it is cut to exactly the limit |
| AiService.TruncateTextIdempotent | app/services/ai_service.py:156-159 | truncating twice to the same limit is truncating once |
| AiService.SummaryPrompt | app/services/ai_service.py:162-175 | the prompt holds the title and the first 4000 characters of the content at fixed places, and its length is fixed by theirs |
| AiService.SummaryPromptPrefix | app/services/ai_service.py:163 | contents that agree on their first 4000 characters give the same prompt |
| AiService.ModelName | app/services/ai_service.py:191 | the model is never empty: the stored model when set, else the configured model, else "glm-4" |
| AiService.MaxLength | app/services/ai_service.py:192 | the length limit is never 0: the stored limit when non-zero, else the configured limit, else 100 |
| AiService.ApiKey | app/services/ai_service.py:55 | the key is empty exactly when the stored key and both configured keys are empty |
| AiService.BaseUrl | app/services/ai_service.py:56 | the base URL is never empty: the stored one when set, else the Zhipu endpoint |
| AiService.GetAiConfig | app/services/ai_service.py:79-88 | model, limit and base URL are never empty or 0; `has_api_key` says whether any key is set; `enabled` is the stored flag |
| AiService.DefaultAiConfig | app/services/ai_service.py:79-88 | a fresh row under the default configuration reports glm-4, 100 characters, the Zhipu endpoint and no key |
| AiService.GetAiSettings | app/services/ai_service.py:39-49 | the singleton row is returned, created with its defaults when missing; nothing else changes |
| AiService.CleanBaseUrl | app/services/ai_service.py:104 | a blank base URL is stored as None, any other one trimmed |
| AiService.ApplyAiUpdate | app/services/ai_service.py:101-110 | each supplied field is assigned and each omitted field is kept |
| AiService.ApplyAiUpdateIdempotent | app/services/ai_service.py:101-110 | saving the same update twice is saving it once; an empty update changes nothing |
| AiService.SaveAiSettings | app/services/ai_service.py:91-116 | the singleton becomes the update of the old (or default) row; nothing else changes |
| AiService.PostProcess | app/services/ai_service.py:207-208 | a summary more than 50 characters over the limit is cut to the limit and gets "..."; any other is kept; the result is at most 50 over the limit |
| AiService.PostProcessStable | app/services/ai_service.py:207-208 | post-processing a post-processed summary changes nothing |
| AiService.SummaryOutcome | app/services/ai_service.py:194-218 | once a client exists the call succeeds exactly when the model completes; the summary is within the slack of the limit; a missing key is never reported |
| AiService.Summarize | app/services/ai_service.py:184-188 | a missing key is reported exactly when the caller gave no client and no key is configured |
| AiService.SummarizeArticleAsync | app/services/ai_service.py:178-218 | the outcome is `Summarize` over the settings row, which is created when missing; nothing else changes |
| AiService.FindArticle | app/services/ai_service.py:222-223 | the position of the article with the id, or None when no row has it |
| AiService.WithSummary | app/services/ai_service.py:243-244 | the row gets the summary and the summary flag, and keeps its id, title and content |
| AiService.SummarizeSingleArticle | app/services/ai_service.py:221-251 | None for a missing article; the stored summary when there is one; None for content under 50 characters; otherwise the summary, stored when non-empty, with summary errors mapped to None; only that row changes; the AI settings row is created with the defaults exactly when the article exists without a summary and has at least 50 characters of content, and is otherwise left as it was |
| AiService.SetArticle | app/services/ai_service.py:243-245 | one article row is replaced by a row with the same id, source and guid, and everything else is kept |
| AiService.EligiblePositions | app/services/ai_service.py:272-275 | the listed articles without a summary and with more than 50 characters of content, in list order |
| AiService.AfterBatch | app/services/ai_service.py:298-302 | an article that got a non-empty summary records it; any other is unchanged |
| AiService.CountSummarised | app/services/ai_service.py:311 | the count of successes is at most the number of eligible articles |
| AiService.SummarizeArticlesBatch | app/services/ai_service.py:267-316 | 0 and no change without eligible articles or without a key; otherwise exactly the eligible rows go through the summary, and the result counts the non-empty summaries; the AI settings row is created with the defaults exactly when some listed article is eligible, and is otherwise left as it was |
| AiService.SummarizeOne | app/services/ai_service.py:288-306 | one eligible article handled extends the batch's work by one position |
| AiService.BatchStep | app/services/ai_service.py:288-306 | one more position stores the summary when it is non-empty text, and the count grows by one exactly then |
| AiService.BatchOutcome | app/services/ai_service.py:290-302 | the summary the batch obtains for a row from its title and content; `AfterBatch` and `BatchStep` state how it is stored |
| WebhookService.MessageHead | app/services/webhook_service.py:100 | the bold title, a blank line and the content, each at a fixed place |
| WebhookService.LinkSuffix | app/services/webhook_service.py:106 | a blank line and the "查看原文" link to the url, at a fixed place |
| WebhookService.BuildWebhookMessage | app/services/webhook_service.py:78-108 | a markdown payload titled with the title; its text is the head, followed by the link exactly when a non-empty url is given |
| WebhookService.BuildWebhookMessageInjective | app/services/webhook_service.py:78-108 | under the same title and url, different contents give different payloads |
| WebhookService.WecomLinkPart | app/services/webhook_service.py:132 | the link part is empty exactly when there is no url, and carries the url otherwise |
| WebhookService.WecomPayload | app/services/webhook_service.py:133-142 | a markdown payload with only a content field, holding the title after the fixed heading |
| WebhookService.DingtalkLinkPart | app/services/webhook_service.py:177 | the link part is empty exactly when there is no url, and carries the url otherwise |
| WebhookService.DingtalkPayload | app/services/webhook_service.py:178-189 | a markdown payload titled with the title, whose text opens with it as a heading |
| WebhookService.SendTarget | app/services/webhook_service.py:44-53 | there is a target exactly when a url is passed or the webhook is enabled with a configured url; a passed url wins |
| WebhookService.SendErrorMessage | app/services/webhook_service.py:67-75 | an error status is reported with its decimal code |
| WebhookService.SendWebhookNotification | app/services/webhook_service.py:25-75 | False exactly when no request is made; True exactly when the POST of the built message succeeds; an unexpected failure escapes, and the others raise a send error |
| WebhookService.SendEnterpriseWechatNotification | app/services/webhook_service.py:111-153 | True exactly when a url is configured and the POST of the WeCom payload succeeds |
| WebhookService.SendDingtalkNotification | app/services/webhook_service.py:156-200 | True exactly when a url is configured and the POST of the DingTalk payload succeeds |
| WebhookService.TestWebhookConnection | app/services/webhook_service.py:203-231 | "not configured" when the webhook is disabled or has no url; success exactly when the POST of the test message succeeds; unexpected failures escape |
| WebhookService.DefaultTestWebhookConnection | app/services/webhook_service.py:210-214 | under the default configuration the test reports "not configured" whatever the network does |
| WebhookService.TestNeverReportsNotSent | app/services/webhook_service.py:224 | the "send failed" message is never reported, since past the guard the send always has a target |
| Jobs.JobTable.constructor | app/services/webhook_scheduler.py:15 | a new scheduler has no job and is not running |
| Jobs.JobTable.AddJob | app/services/webhook_scheduler.py:125 | `add_job(..., replace_existing=True)` sets the job under its id, replacing any job with that id |
| Jobs.JobTable.RemoveJob | app/services/webhook_scheduler.py:88-90 | the job with the id is removed, if there is one; all other jobs stay |
| Jobs.JobTable.Start | app/services/scheduler_service.py:44 | the scheduler runs afterwards and its jobs are unchanged |
| Jobs.JobTable.Shutdown | app/services/scheduler_service.py:54 | the scheduler is stopped afterwards and its jobs are unchanged |
| WebhookScheduler.ParseScheduleTime | app/services/webhook_scheduler.py:103-105 | the time parses exactly when it splits on ":" into at least two parts and the first two are integers |
| WebhookScheduler.ParseScheduleTimeRoundTrip | app/services/webhook_scheduler.py:103-105 | "H:M" written in decimal parses back to (H, M) |
| WebhookScheduler.ParseScheduleTimeIgnoresRest | app/services/webhook_scheduler.py:103-105 | anything after a second colon is ignored, so "09:00:30" schedules 09:00 |
| WebhookScheduler.FrequencyTrigger | app/services/webhook_scheduler.py:108-123 | there is a trigger exactly for "hourly", "daily", "weekly" and "monthly" |
| WebhookScheduler.DeriveTrigger | app/services/webhook_scheduler.py:102-129 | an installed trigger comes from a parsed time and a known frequency, and has fields the library accepts |
| WebhookScheduler.HourlyTrigger | app/services/webhook_scheduler.py:108-109 | an hourly push runs every hour, provided the time still parses |
| WebhookScheduler.CronTriggers | app/services/webhook_scheduler.py:111-119 | daily, weekly and monthly pushes fire at the parsed hour and minute; weekly days 1..7 become 0..6; monthly uses the day as given; out-of-range values install nothing |
| WebhookScheduler.CronValidAt | app/services/webhook_scheduler.py:111-119 | a cron trigger is accepted exactly when its weekday, day, hour and minute are within range |
| WebhookScheduler.ScheduledJob | app/services/webhook_scheduler.py:95-125 | no job without a row or with the schedule off; otherwise a push job exactly when a trigger can be derived |
| WebhookScheduler.RebuiltJobsShape | app/services/webhook_scheduler.py:85-131 | other jobs are untouched, and the push job is present exactly when the configuration asks for one |
| WebhookScheduler.RebuiltJobs | app/services/webhook_scheduler.py:85-131 | the job table after the rebuild; its shape is `RebuiltJobsShape` |
| WebhookScheduler.RebuiltJobsIdempotent | app/services/webhook_scheduler.py:85-131 | rebuilding twice from the same configuration is rebuilding once |
| WebhookScheduler.UpdateWebhookSchedule | app/services/webhook_scheduler.py:85-131 | the job table becomes the rebuild from the stored configuration; whether the scheduler runs is unchanged |
| WebhookScheduler.StartWebhookScheduler | app/services/webhook_scheduler.py:134-144 | the jobs are rebuilt and the scheduler runs afterwards |
| WebhookScheduler.StopWebhookScheduler | app/services/webhook_scheduler.py:147-154 | the scheduler is stopped afterwards and its jobs are unchanged |
| WebhookScheduler.PushRefs | app/services/webhook_scheduler.py:46-52 | the favourite (or filtered) articles; empty exactly when no article qualifies |
| WebhookScheduler.PushOne | app/services/webhook_scheduler.py:45-57 | a list is sent only when its flag is on and it is non-empty, and counted only when the send succeeds |
| WebhookScheduler.PushTask | app/services/webhook_scheduler.py:25-82 | nothing is sent without a row, with the schedule off, or with the webhook disabled or without a url |
| WebhookScheduler.PushesIndependent | app/services/webhook_scheduler.py:59-72 | unless the first push raised, the filtered list is sent exactly when its flag is on and it is non-empty, whatever happened to the favourites |
| WebhookScheduler.PushedBound | app/services/webhook_scheduler.py:42-72 | at most two lists are sent, and the count never exceeds the two lists' lengths |
| WebhookScheduler.WebhookPushTask | app/services/webhook_scheduler.py:25-82 | the task computes `PushTask` over the stored configuration and articles |
| SchedulerService.FetchJob | app/services/scheduler_service.py:26-33 | the fetch job runs every `FETCH_INTERVAL_MINUTES` minutes, one instance at a time |
| SchedulerService.RunNow | app/services/scheduler_service.py:58-65 | "fetch_rss" gives the fetch task, "ai_summary" the summary task, any other id None |
| SchedulerService.FailedCount | app/services/scheduler_service.py:76 | the number of failed results is at most the number of results |
| SchedulerService.FailedSources | app/services/scheduler_service.py:76 | the enabled sources whose fetch fails |
| SchedulerService.RoundFailedCount | app/services/scheduler_service.py:73-76 | `failed_sources` is the number of enabled sources whose fetch failed |
| SchedulerService.PendingPositions | app/services/scheduler_service.py:106-112 | every article without a summary, not filtered and with content, in table order |
| SchedulerService.SummarySelection | app/services/scheduler_service.py:106-114 | at most 20 pending articles; empty exactly when no article is pending |
| SchedulerService.FetchTask | app/services/scheduler_service.py:67-96 | the round, then the keyword pass over every unfiltered article: the table stays well formed, rows already present keep their ids and flags, `new_articles` is the number of rows added (never negative), `filtered_count` at most the table size, `failed_sources` the number of enabled sources whose fetch failed, and the keyword table keeps its length |
| SchedulerService.FilterPassFewer | app/services/keyword_service.py:109-138 | the keyword pass flags no more articles than the table holds |
| SchedulerService.SummaryTask | app/services/scheduler_service.py:98-142 | "nothing to do", with no change, exactly when no article is pending; otherwise a report of the selection's size (at most 20) with at most that many successes; only selected rows change, never a filtered one, and ids, titles and content stay; the AI settings row is either kept or created with the defaults |
| SchedulerService.BatchRows | app/services/ai_service.py:288-306 | after the batch over a set of positions, rows outside it are kept and every row keeps its id, title and content |
| SchedulerService.BatchRowsAre | app/services/ai_service.py:288-306 | a table that agrees row by row with the batch's per-article step is the batch's table |
| SchedulerService.BatchIsSummaryTask | app/services/scheduler_service.py:124-135 | on a non-empty selection, whatever the batch summary leaves (articles, settings row, success count) is exactly `SummaryTask`'s state and report |
| SchedulerService.JobStatuses | app/services/scheduler_service.py:144-152 | the `get_status` job list: exactly one entry per registered job, with that job's id, name and trigger |
| SchedulerService.JobStatusesCount | app/services/scheduler_service.py:146-152 | the job list has one entry per job of the table |
| SchedulerService.StartedStatus | app/services/scheduler_service.py:21-50 | after `start` on a stopped scheduler the status lists "fetch_rss" ("RSS Feed Fetcher", every `FETCH_INTERVAL_MINUTES` minutes) and "ai_summary" ("AI Article Summarizer", minutes 5 and 35); from an empty table exactly those two |
| SchedulerService.TaskScheduler.constructor | app/services/scheduler_service.py:17-19 | a new scheduler is not running and has no job |
| SchedulerService.TaskScheduler.Start | app/services/scheduler_service.py:21-50 | a second start changes nothing; otherwise both jobs are registered, replacing any with the same id, and the scheduler runs |
| SchedulerService.TaskScheduler.Stop | app/services/scheduler_service.py:52-56 | the scheduler is stopped with its jobs kept; stopping a stopped scheduler changes nothing |
| SchedulerService.TaskScheduler.Status | app/services/scheduler_service.py:144-157 | the status reports the running flag and exactly one entry per registered job, carrying its id, name and trigger; the list is as long as the job table |
| SchedulerService.TaskScheduler.FetchRssTask | app/services/scheduler_service.py:67-96 | the fetch round, then the keyword pass over every unfiltered article; `new_articles` is the number of rows added, `filtered_count` the number of articles marked, `failed_sources` the number of failed fetches; the article table, the next id, the keyword counters and the report are exactly `FetchTask` of the old tables, and the webhook, AI settings and AI filter rows are unchanged |
| SchedulerService.TaskScheduler.AiSummaryTask | app/services/scheduler_service.py:98-142 | "nothing to do" with no change when no article is pending; otherwise the batch over the selection, reporting its size and at most that many successes; rows outside the selection are unchanged; the article table, the AI settings row and the report are exactly `SummaryTask` of the old table and settings, with the successes counted by `CountSummarised` over the eligible selected rows; every other table is unchanged |
| SchedulerService.TaskScheduler.RunFullPipeline | app/services/scheduler_service.py:159-169 | both reports, the article table, the next id, the keyword counters and the AI settings row are exactly `SummaryTask` applied to what `FetchTask` left; sources advance as in the round; the webhook and AI filter rows are unchanged; an article filtered before the run stays filtered |
| AiFilterService.GetAiFilterConfig | app/services/ai_filter_service.py:17-27 | the singleton row, created disabled with an empty prompt and auto-apply on when missing; nothing else changes |
| AiFilterService.ApplyFilterUpdate | app/services/ai_filter_service.py:38-43 | each supplied field is assigned and each omitted field is kept |
| AiFilterService.ApplyFilterUpdateIdempotent | app/services/ai_filter_service.py:38-43 | applying an update twice is applying it once; an empty update changes nothing |
| AiFilterService.SaveAiFilterConfig | app/services/ai_filter_service.py:30-49 | the singleton becomes the update of the old (or default) row; nothing else changes |
| AiFilterService.PromptDescription | app/services/ai_filter_service.py:102-114 | an article's description in the prompt is its first 200 characters, or "无" when it has none; never empty |
| AiFilterService.PromptLine | app/services/ai_filter_service.py:114 | an article's entry opens with its number |
| AiFilterService.PromptLines | app/services/ai_filter_service.py:113-114 | the entries open with the first article's entry, numbered from the start |
| AiFilterService.FilterPrompt | app/services/ai_filter_service.py:106-119 | the rules appear verbatim after the heading, followed by the entries numbered from 1 |
| AiFilterService.FirstIndex | app/services/ai_filter_service.py:138 | the position of the first occurrence of a character, or None when it does not occur |
| AiFilterService.LastIndex | app/services/ai_filter_service.py:138 | the position of the last occurrence of a character, or None when it does not occur |
| AiFilterService.BraceSpan | app/services/ai_filter_service.py:138 | the greedy `\{.*\}` match starts with `{` and ends with `}`; there is none exactly when no `}` follows a `{` |
| AiFilterService.KeepSet | app/services/ai_filter_service.py:147 | an id is kept exactly when some listed value prints as a run of digits with that value |
| AiFilterService.KeepIds | app/services/ai_filter_service.py:138-147 | an answer without a `{...}` span keeps nothing; decoding fails exactly when `json.loads` fails on the span |
| AiFilterService.ResetAll | app/services/ai_filter_service.py:85-88 | the bulk update clears every article's AI flag and changes nothing else |
| AiFilterService.Marked | app/services/ai_filter_service.py:150-156 | the intended marking (see Findings) keeps the number of rows |
| AiFilterService.MarkedAt | app/services/ai_filter_service.py:150-156 | in the intended marking a loaded row is flagged exactly when its id is not kept; any other row is as it was |
| AiFilterService.NewlyFiltered | app/services/ai_filter_service.py:149-155 | the count of newly flagged articles is at most the number loaded |
| AiFilterService.LoadedRows | app/services/ai_filter_service.py:79-82 | the loaded articles, in load order |
| AiFilterService.FilterPassGuards | app/services/ai_filter_service.py:57-77 | a disabled pass, a blank prompt and a missing key each return before any article is touched |
| AiFilterService.FilterPassFlags | app/services/ai_filter_service.py:84-173 | past the guards, articles outside the loaded ones end unflagged; after a success a loaded article is flagged exactly when its id was not kept (the intended marking, see Findings); after a failure none is flagged; only flags change |
| AiFilterService.FilterArticlesByAi | app/services/ai_filter_service.py:52-173 | the result and the article table are those of the pass; the tables stay well formed; the configuration row exists afterwards; the AI settings row is created with the defaults exactly when the pass is enabled with a non-blank prompt (`ReachesClient`), and is otherwise left as it was |
| AiFilterService.ReachesClient | app/services/ai_filter_service.py:59-71 | the pass gets as far as the client lookup when it is enabled and its prompt is non-blank |
| AiFilterService.RunAiFilter | app/services/ai_filter_service.py:176-190 | the task runs the pass and leaves the configuration row in place; the AI settings row is created with the defaults exactly when the pass reaches the client lookup |
| AiFilterService.ResetKeepsValid | app/services/ai_filter_service.py:85-88 | the bulk reset keeps the tables well formed and changes nothing else |
| AiFilterService.WriteFlags | app/services/ai_filter_service.py:158 | committing a table that differs only in AI flags keeps the tables well formed |
| AiFilterService.MarkLoaded | app/services/ai_filter_service.py:149-158 | the loop leaves the marking of the reset table, and counts the loaded articles that were not kept and were not flagged when loaded |
| AiFilterService.FlushChanged | app/services/ai_filter_service.py:150-158 | the commit as the session performs it keeps the number of rows |
| AiFilterService.FlushChangedAt | app/services/ai_filter_service.py:150-158 | a loaded row is written only when its assigned flag differs from the flag it had when loaded; every other row keeps the value the bulk reset stored |
| AiFilterService.AsWrittenStoresCounted | app/services/ai_filter_service.py:84-158 | as written, after the reset and the flush a row is flagged exactly when it was loaded, its id was not kept and it was not flagged when loaded; nothing else about the row changes |
| AiFilterService.AsWrittenDropsFlag | app/services/ai_filter_service.py:84-158 | a loaded, flagged article that the answer does not keep ends unflagged as written, flagged again on the next run, while the intended marking leaves it flagged; neither run counts it |
| AiFilterService.FilterPass | app/services/ai_filter_service.py:57-173 | the pass itself: the guards, the reset, the oracle's answer and the intended marking; its properties are `FilterPassGuards` and `FilterPassFlags` |
| AiFilterService.NothingKept | app/services/ai_filter_service.py:140-155 | with nothing kept, the count is the number of loaded articles that were not flagged |
| AiFilterService.NothingKeptUpTo | app/services/ai_filter_service.py:150-155 | the same count over the first `n` loaded articles |
| AiFilterService.NewlyFilteredStep | app/services/ai_filter_service.py:154-155 | with nothing kept, one more loaded article adds one to the count exactly when it was unflagged |
| AiFilterService.UnflaggedStep | app/services/ai_filter_service.py:154 | one more position adds itself to the unflagged ones exactly when it was unflagged |
| FilterRss.LowerAll | scripts/filter_rss.py:18-19 | each keyword lower-cased, in order |
| FilterRss.NewScriptFilter | scripts/filter_rss.py:16-19 | both lists keep their length and every stored keyword is lower case |
| FilterRss.FirstContained | scripts/filter_rss.py:29-36 | the first keyword, in list order, that occurs in the text; every earlier one does not |
| FilterRss.MatchesSpec | scripts/filter_rss.py:21-38 | an article matches exactly when no exclude word and some include word occurs in the lower-cased text; a match names the first include word found; an exclude word that occurs is named on refusal |
| FilterRss.ShouldInclude | scripts/filter_rss.py:40-43 | an article is included exactly when no exclude word and some include word occurs in the lower-cased text |
| FilterRss.MatchesIgnoresCase | scripts/filter_rss.py:26 | the decision ignores the case of the title and the summary |
| FilterRss.MatchesIgnoresKeywordCase | scripts/filter_rss.py:18-19 | the decision ignores the case of the configured keywords |
| FilterRss.ExtractArticleInfo | scripts/filter_rss.py:65-81 | a missing title reads "无标题"; the summary falls back to the description and then to ""; a list link gives its first element; a missing link gives "" |
| FilterRss.ExtractArticleInfoRoundTrip | scripts/filter_rss.py:65-81 | an entry carrying exactly an article's fields reads back as that article, with a summary taking precedence over a description |
| FilterRss.ArticleKey | scripts/filter_rss.py:86 | the lower-cased, stripped title and link joined by one `|` |
| FilterRss.ArticleKeyNormalises | scripts/filter_rss.py:86 | titles and links that differ only in case or surrounding whitespace share a key |
| FilterRss.ArticleKeysNormalise | scripts/filter_rss.py:84-86 | for all titles and links, lower-casing and stripping them first does not change the key |
| FilterRss.ArticleHash | scripts/filter_rss.py:84-87 | whatever the digest, titles and links that differ only in case or surrounding whitespace hash alike |
| FilterRss.ArticleKeyTitle | scripts/filter_rss.py:86 | a title without `|` is the part of the key before the first `|` |
| FilterRss.StripOmits | scripts/filter_rss.py:86 | stripping adds no character |
| FilterRss.FeedItems | scripts/filter_rss.py:111-114 | the entries of one feed in order, each paired with the feed's URL |
| FilterRss.ScanFrom | scripts/filter_rss.py:114-130 | a scan adds at most one record per entry |
| FilterRss.ScanFromAppend | scripts/filter_rss.py:111-130 | scanning one list and then another is scanning their concatenation, so the feeds can be scanned one after the other |
| FilterRss.ScanFromSnoc | scripts/filter_rss.py:114-130 | scanning one more entry is one more loop step |
| FilterRss.Next | scripts/filter_rss.py:114-130 | one entry adds at most one record and forgets no hash; an added record has a link and was approved by the filter |
| FilterRss.Scan | scripts/filter_rss.py:111-130 | a scan records at most one article per entry |
| FilterRss.ScanStep | scripts/filter_rss.py:115-130 | one step only grows the seen set; an accepted entry's hash is seen afterwards; the step either changes nothing or adds that hash and that entry's record |
| FilterRss.ScanInvariant | scripts/filter_rss.py:103-130 | the seen set is exactly the hashes of the output, no two records share a hash, and every record has a link |
| FilterRss.ScanSound | scripts/filter_rss.py:117-130 | every record comes from an entry with a link that the filter accepts, with the source host of its feed |
| FilterRss.ScanComplete | scripts/filter_rss.py:117-125 | no accepted entry with a link is lost: its hash is among the seen ones |
| FilterRss.FilterRssFeeds | scripts/filter_rss.py:90-132 | the output is the scan of every feed's entries in order, and no two records share a hash |
| FilterRss.ScanFeed | scripts/filter_rss.py:114-130 | the inner loop continues the scan over one feed's entries |
| FilterRss.ScanEntry | scripts/filter_rss.py:115-130 | the loop body takes one scan step |
| KeywordRoutes.FindRule | app/routes/keywords.py:73-74 | the position of the row with the id, or None when no row has it |
| KeywordRoutes.FindRuleSameIds | app/routes/keywords.py:116-117 | tables with the same ids in the same places find the same row |
| KeywordRoutes.GetRule | app/routes/keywords.py:71-79 | the row with the id exactly when one exists; 404 otherwise |
| KeywordRoutes.Unlisted | app/routes/keywords.py:204-211 | the rows left are exactly those whose id is not listed |
| KeywordRoutes.AppendOk | app/routes/keywords.py:97-105 | appending a row with a new normalised text and an id above all others keeps the table well formed |
| KeywordRoutes.ReplaceAtOk | app/routes/keywords.py:137-143 | replacing a row by one with the same id and a normalised text no other row holds keeps the table well formed |
| KeywordRoutes.CreateRuleSpec | app/routes/keywords.py:82-107 | a blank text is refused with 400; a text already present after normalisation is refused with 400; otherwise one row is appended with the next id (one above the largest present, 1 for an empty table), the normalised text, the given flag and a zero counter, and the table stays well formed |
| KeywordRoutes.CreateRule | app/routes/keywords.py:82-107 | a successful creation appends exactly one row, whose id is above and whose text differs from every present row's |
| KeywordRoutes.NextIdAfterTop | app/models/keyword.py:14 | in a well-formed table the next id is one above the last row's |
| KeywordRoutes.CreateReusesDeletedId | app/routes/keywords.py:97-105 | creating "a" and "b" gives ids 1 and 2; deleting "b" and creating "c" gives "c" the id 2 again |
| KeywordRoutes.CreateOneLetter | app/routes/keywords.py:82-107 | a new one-letter lower-case keyword is appended under the next id |
| KeywordRoutes.UpdateRule | app/routes/keywords.py:110-145 | a successful update keeps every row's id and counter and the number of rows |
| KeywordRoutes.DeleteRule | app/routes/keywords.py:148-159 | a successful deletion removes exactly one row |
| KeywordRoutes.ToggleRule | app/routes/keywords.py:162-174 | a successful toggle keeps every row's id and text and the number of rows |
| KeywordRoutes.CreateTwiceRefused | app/routes/keywords.py:89-95 | once a text is created, creating any keyword that normalises to it again is refused |
| KeywordRoutes.UpdateRuleSpec | app/routes/keywords.py:110-145 | 404 exactly for a missing id; a text another row holds is refused with 400; otherwise only that row changes, taking the normalised text and the flag when supplied, and the table stays well formed |
| KeywordRoutes.UpdateAcceptsBlank | app/routes/keywords.py:122-137 | unlike creation, an update stores a whitespace-only text as the empty text when no other row holds it |
| KeywordRoutes.UniqueId | app/routes/keywords.py:116-117 | in a well-formed table no other row has the id of a given row |
| KeywordRoutes.RemoveAtOk | app/routes/keywords.py:156-157 | removing one row keeps the table well formed |
| KeywordRoutes.RemoveAtMembers | app/routes/keywords.py:156-157 | removing the row whose id no other row has leaves exactly the rows with another id |
| KeywordRoutes.DeleteRuleSpec | app/routes/keywords.py:148-159 | 404 exactly for a missing id; otherwise exactly that row is removed and the table stays well formed |
| KeywordRoutes.ToggleRuleTwice | app/routes/keywords.py:162-174 | 404 exactly for a missing id; one toggle flips only that row's flag; two toggles restore the table |
| KeywordRoutes.BulkDeleteSpec | app/routes/keywords.py:202-218 | the rows left form a well-formed table, and the deleted count plus the rows left is the old size |
| KeywordRoutes.CreateKeyword | app/routes/keywords.py:82-107 | on success the keyword table gains one row with the next id (one above the largest present, so a deleted top id is handed out again), the normalised text, the given flag and a zero counter; refusals change nothing; other tables are unchanged |
| KeywordRoutes.UpdateKeyword | app/routes/keywords.py:110-145 | the keyword table becomes the update's outcome and the updated row is returned; refusals change nothing; other tables are unchanged |
| KeywordRoutes.DeleteKeyword | app/routes/keywords.py:148-159 | the keyword table becomes the deletion's outcome; a missing id changes nothing; other tables are unchanged |
| KeywordRoutes.ToggleKeyword | app/routes/keywords.py:162-174 | the keyword table becomes the toggle's outcome and the toggled row is returned; a missing id changes nothing |
| KeywordRoutes.BulkDeleteKeywords | app/routes/keywords.py:202-218 | exactly the listed rows are removed, and the count is the number removed |
| KeywordRoutes.DeleteListed | app/routes/keywords.py:209-211 | the loop keeps the unlisted rows and counts the listed ones |
| WebhookRoutes.ValidTimeParses | app/routes/webhook.py:49 | a time the validator accepts parses, as the scheduler reads it, to an hour in 0..23 and a minute in 0..59 |
| WebhookRoutes.ValidTime | app/routes/webhook.py:49 | the `schedule_time` pattern; that an accepted time parses to an hour and a minute in range is `ValidTimeParses` |
| WebhookRoutes.TimeColon | app/routes/webhook.py:49 | an accepted time has no colon but the one before the minutes |
| WebhookRoutes.TimeSplits | app/services/webhook_scheduler.py:103 | a time whose only colon is three characters from the end splits there into hours and minutes |
| WebhookRoutes.DigitsParse | app/services/webhook_scheduler.py:104-105 | `int()` reads a run of digits as its value |
| WebhookRoutes.TwoDigits | app/routes/webhook.py:49 | a two-digit text has the value ten times its first digit plus its second |
| WebhookRoutes.HourValue | app/routes/webhook.py:49 | an hour the pattern `[01]?[0-9]|2[0-3]` accepts is at most 23 |
| WebhookRoutes.ScheduleOkTriggers | app/routes/webhook.py:48-51 | a schedule the validators accept always yields a trigger, so switching it on always installs the push job |
| WebhookRoutes.DefaultScheduleOk | app/models/webhook_config.py:14-27 | the row created on first access has a schedule the validators accept |
| WebhookRoutes.GetOrCreateWebhookConfig | app/routes/webhook.py:56-68 | the stored row unchanged, or a new default row (disabled, platform "generic") that is written first; nothing else changes |
| WebhookRoutes.TrimmedOrNone | app/routes/webhook.py:103 | `s.strip() if s.strip() else None`: None exactly for a blank text, otherwise the trimmed text |
| WebhookRoutes.ApplyWebhookUpdateSpec | app/routes/webhook.py:100-125 | each omitted field keeps its value; a supplied url, name or description is stored trimmed, and as None exactly when it is blank; the other supplied fields are stored as given |
| WebhookRoutes.ApplyWebhookUpdate | app/routes/webhook.py:100-125 | the route's field-by-field assignments; their properties are `ApplyWebhookUpdateSpec` |
| WebhookRoutes.ApplyWebhookUpdateIdempotent | app/routes/webhook.py:100-125 | sending the same update twice stores what sending it once did |
| WebhookRoutes.EmptyUpdateIsIdentity | app/routes/webhook.py:100-125 | an empty body changes nothing |
| WebhookRoutes.ValidUpdateKeepsSchedule | app/routes/webhook.py:40-53 | a validated update keeps a valid schedule valid, and one supplying all four schedule fields makes any schedule valid, so the rebuilt job exists whenever the schedule is on |
| WebhookRoutes.ValidUpdate | app/routes/webhook.py:40-53 | the field validators of the update body; what they guarantee is `ValidUpdateKeepsSchedule` |
| WebhookRoutes.UpdateWebhookConfig | app/routes/webhook.py:83-138 | a body failing validation is refused and nothing changes; otherwise the row (created if missing) takes the update and the push job is rebuilt from it |
| WebhookRoutes.TestTarget | app/routes/webhook.py:167 | the body's url when non-empty, else the stored url; none when both are missing or empty |
| WebhookRoutes.TestWebhookConfigAsWritten | app/routes/webhook.py:160-200 | as written the test can never succeed: without a target it says so, and with one the call raises a TypeError that the generic handler reports |
| WebhookRoutes.TestWebhookConfig | app/routes/webhook.py:160-194 | corrected: without a target no request is made; the test succeeds exactly when the POST of the test message to the target succeeds; "send failed" is never reported |
| WebhookRoutes.TestPrefersBodyUrl | app/routes/webhook.py:167 | with a url in the body the stored url plays no part |
| WebhookRoutes.TestAsWrittenFails | app/routes/webhook.py:177-182 | with a stored url and a network that accepts every POST, the corrected route succeeds while the route as written fails with a TypeError |
| WebhookRoutes.ManualPush | app/routes/webhook.py:214-250 | nothing is sent when the webhook is disabled or has no url, or when the list is empty; otherwise the list is sent once, and it is reported pushed exactly when the send succeeds, with a positive count |
| WebhookRoutes.ManualPushMatchesTask | app/routes/webhook.py:214-243 | the manual favourites push sends exactly when the scheduled task sends the favourites first, and the same list |
| WebhookRoutes.PushArticles | app/routes/webhook.py:203-299 | the outcome is the manual push over the stored (or newly created) row; a missing row gives "not enabled"; no article changes |
| ArticleRoutes.ContentPreview | app/routes/articles.py:21-23 | None for missing or empty content; the content itself up to 200 characters; otherwise its first 200 characters followed by "..." |
| ArticleRoutes.Responses | app/routes/articles.py:117 | one response per row, in order |
| ArticleRoutes.Where | app/routes/articles.py:97-109 | a WHERE clause never selects more rows than the table holds |
| ArticleRoutes.WhereMembers | app/routes/articles.py:97-109 | the selection holds exactly the rows the clause accepts |
| ArticleRoutes.WhereAt | app/routes/articles.py:97-109 | each selected row is a row of the table that the clause accepts |
| ArticleRoutes.WhereAll | app/routes/articles.py:97-109 | a clause accepting every row selects the whole table |
| ArticleRoutes.PageSlice | app/routes/articles.py:111 | `OFFSET o LIMIT n` gives at most `n` rows, the selection's rows from `o` on, and none past the end |
| ArticleRoutes.PageMembership | app/routes/articles.py:111 | every selected row is on exactly one page: row `i` is entry `i % size` of page `i / size + 1` |
| ArticleRoutes.Listing | app/routes/articles.py:75-117 | 422 exactly for a page below 1 or a page size outside 1..100; otherwise at most `page_size` responses, those of the selected rows from offset `(page-1)*page_size` |
| ArticleRoutes.ListingSound | app/routes/articles.py:107-117 | every listed row is a row of the table that the clause accepts |
| ArticleRoutes.ListArticles | app/routes/articles.py:73-121 | the page of matching rows, the number of all matching rows, and the page and size asked for |
| ArticleRoutes.ListArticlesSpec | app/routes/articles.py:85-121 | the total is the same on every page, and a listed row passes every supplied filter |
| ArticleRoutes.ListWithoutFilters | app/routes/articles.py:97-104 | without filters the total is the size of the table |
| ArticleRoutes.GetFavorites | app/routes/articles.py:124-137 | every listed article is a favourite |
| ArticleRoutes.GetFiltered | app/routes/articles.py:140-153 | every listed article is filtered |
| ArticleRoutes.EnabledWords | app/routes/articles.py:162-170 | the lower-cased texts of exactly the enabled keywords; empty exactly when none is enabled |
| ArticleRoutes.GetKeywordMatched | app/routes/articles.py:156-190 | 422 exactly for an invalid page; `[]` when no keyword is enabled |
| ArticleRoutes.KeywordMatchedSound | app/routes/articles.py:170-190 | a listed row is a row of the table in whose title, description or content some enabled keyword occurs |
| ArticleRoutes.KeywordListingIsSubstring | app/routes/articles.py:174-179 | the listing is a substring test, not the word-boundary matcher: the keyword "ai" lists an article titled "Said" |
| ArticleRoutes.GetArticle | app/routes/articles.py:229-237 | 404 exactly for an unknown id; otherwise the response of the row with that id |
| ArticleRoutes.UpdateArticle | app/routes/articles.py:242-246 | 404 exactly for an unknown id |
| ArticleRoutes.FindArticleSameIds | app/routes/articles.py:242-243 | two tables with the same ids find the same position |
| ArticleRoutes.MarkReadSpec | app/routes/articles.py:240-252 | with distinct ids, the row with the id is marked read and no other row changes |
| ArticleRoutes.MarkRead | app/routes/articles.py:248 | the row marked read; `MarkReadSpec` states its effect on the table |
| ArticleRoutes.MarkReadIdempotent | app/routes/articles.py:248 | marking read twice is marking once |
| ArticleRoutes.ToggleFavoriteTwice | app/routes/articles.py:263 | toggling the favourite flag twice restores the table |
| ArticleRoutes.FlipFavorite | app/routes/articles.py:263 | the row with its favourite flag flipped; `ToggleFavoriteTwice` states that two flips restore the table |
| ArticleRoutes.ToResponse | app/routes/articles.py:17-40 | the response row: every column as stored, the content replaced by `ContentPreview`, whose contract gives the 200-character cut |
| ArticleRoutes.SetArticleFlag | app/routes/articles.py:240-267 | the table becomes the update of the row, and the response is the changed row; an unknown id is 404 and changes nothing |
| ArticleRoutes.GenerateSummary | app/routes/articles.py:270-297 | 404 for an unknown id; a stored summary is returned without changing the table; otherwise, with `out` the summariser's outcome on the article's title and content: the answer is Ok exactly when the content is at least the minimum length and `out` is a non-empty summary, which is then stored on that row alone and returned; a summariser error other than `AISummaryError` escapes as an uncaught error; every other failure is a 500 and leaves the table unchanged; the AI settings row is created with the defaults exactly when the summariser is reached, and is otherwise left as it was |
| ArticleRoutes.SendToWebhook | app/routes/articles.py:300-321 | 404 for an unknown id; the message carries the title, the summary or else the description, and the link; it reports success exactly when the POST succeeds and failure exactly when there is no target |

## Left out

- WebhookRoutes.UpdateWebhookConfig: the route imports `update_webhook_schedule` inside a `try` that falls back to `None` on `ImportError` (app/routes/webhook.py:11-14), and app/services/webhook_scheduler.py:9 imports two names that app/services/webhook_service.py does not define, so as written the job is never rebuilt; the model treats the two missing functions as parameters and states the rebuild the route evidently intends.
- ArticleRoutes.GetFavorites: states only that every listed row is a favourite; which rows and in which order follow from `ArticleRoutes.Listing`, and the source's `ORDER BY published_at DESC` is not modelled (table order is used).
- ArticleRoutes.GetFiltered: states only that every listed row is filtered, for the same reason as `GetFavorites`.
- Ordering by `published_at`: listings, the pushes and the "newest 100" selections in the AI tasks work in table order or on a list of row positions given as a parameter; the sort itself is not modelled.
- Concurrency: `asyncio.gather` and the semaphore of 5 in the batch summary are modelled as a sequential loop; interleavings are not captured.
- Retry waits: the exponential back-off delays of the fetch retry are time only; the model keeps the attempt count and which errors are retried. The code retries HTTP status errors although the comment at app/services/rss_service.py:175 says they are not retried; the model follows the code.
- `fix_encoding` (app/services/rss_service.py:104-117): depends on byte codecs; the model takes it as the identity. The source applies it after the tag strip and the trim (rss_service.py:88-91, then 115-119), so a re-decoded text can gain surrounding whitespace (`"ã\x80\x80x"` decodes to `"\u3000x"`); `RssService.ExtractEntryFields`' clean-content clause holds only under the identity.
- Network, feed parsing and the AI client: `httpx`, `feedparser`, the OpenAI client and the webhook POST are oracles passed as parameters; their own behaviour is not modelled.
- `test_rss_connection` (app/services/rss_service.py:320), `validate_api_key` (app/services/ai_service.py:119-153), `generate_test_summary` (app/services/ai_service.py:254-264) and `get_openai_client` (app/services/ai_service.py:69-76): thin wrappers over the network or the AI client with no logic of their own beyond an error message.
- `summarize_article` (app/services/ai_service.py:319-331): refers to a session factory that the file never imports, so it cannot run; the single-article summary is modelled through `summarize_single_article`.
- The AI filter's system message, and the `temperature` and `max_tokens` request parameters: they only shape the oracle's request.
- SchedulerService.TaskScheduler.Status: each entry carries the job's id, name and trigger, but not `next_run` (a clock reading the library computes); the trigger is the model's `Trigger` value rather than the library's `str(job.trigger)` text; the list is a set, so the library's ordering of `get_jobs()` is not modelled.
- Scheduler library: the firing times of the cron and interval triggers and the `max_instances` limit are the library's; the model keeps the job table and the trigger each job gets.
- app/routes/sources.py and app/routes/system.py are not part of this model.
- `get_statistics` (app/routes/articles.py:193-226) and `list_keywords` (app/routes/keywords.py:53-68): counting and listing queries with no logic beyond the query.
- `get_filtered_articles`, `get_unfiltered_articles` and `check_keyword_exists` (app/services/keyword_service.py:141-168): single queries not used by the modelled operations.
- `test_keyword_match` and `apply_keyword_filter` routes (app/routes/keywords.py:177-199) and `get_webhook_config` (app/routes/webhook.py:71-80): they only delegate to the modelled service operations.
- The `AISummaryError` handler of the summary route (app/routes/articles.py:296-297) is unreachable because `summarize_single_article` catches that error; database exceptions are not modelled.
- The catch-all `except` of the webhook push task, exception message texts and log lines.
- Timestamps: `created_at`, `fetched_at`, `last_run` (including the stamp `run_ai_filter` writes) and ISO formatting; the clock is a parameter where a value depends on it.
- Text: `lower` and `isdigit` are ASCII-only; there is no Unicode case folding, lengths count code points, and SQL `LIKE` wildcards (`%`, `_`) inside a keyword are matched literally. `Common.IsWordChar` covers ASCII word characters and the Latin, Greek, Cyrillic, kana, CJK, Hangul and full-width blocks named in its comment; word characters of other scripts (Arabic, Hebrew, Indic, Thai and the rest) and non-ASCII digits outside those blocks count as non-word, so `\b` next to them is modelled as a boundary where Python's `re` sees none. `Common.ParseInt` models Python's `int()` on ASCII digits with surrounding whitespace only: underscore grouping (`"1_0"`) and non-ASCII decimal digits (`"０９"`, `"٣"`) are not accepted, so a stored schedule time written that way installs no job in the model; the webhook route's time pattern (app/routes/webhook.py:49) admits ASCII digits only.
- scripts/filter_rss.py: the feed parser's `bozo` warning (a print only), `print_results` and `main`.
- KeywordService.KeywordFilter.Matches: the corrected matcher reports, for each matching pattern, the stripped keyword in the case it was given, while the set the source indexes holds lower-case forms; so besides the order fixed in Findings, the reported names (and the counters they select) keep the keyword's case. A configured keyword is stored lower-case by the keyword routes, so the two agree on keywords read from the table.
- WebhookRoutes.ManualPush: past the guards the source calls `build_favorites_webhook_message` and `send_webhook_message`, which app/services/webhook_service.py does not define, so the `AttributeError` escapes the `except WebhookError` (app/routes/webhook.py:235-250) and the route answers 500; the model takes the message builder and the sender as parameters and states the push the route evidently intends.
- WebhookRoutes.PushArticles: as for `ManualPush`; the filtered push (app/routes/webhook.py:284-299) calls the same two missing functions.
- WebhookScheduler.WebhookPushTask: app/services/webhook_scheduler.py:9 imports the same two missing functions, so as written the module does not import; the model takes them as parameters.
- Store: the `is_ai_filtered` column of Article and the `AIFilterConfig` table are used by app/services/ai_filter_service.py but declared by no file of app/models, and app/models/__init__.py exports neither `AIFilterConfig` nor `WebhookConfig`, so the imports at app/routes/webhook.py:7, app/services/webhook_scheduler.py:8 and app/services/ai_filter_service.py:6 fail as written; the model gives the records the fields the services use.

## Findings

| source | as written | input that shows it | evidently intended | confidence | as-written member | corrected member |
|---|---|---|---|---|---|---|
| app/services/keyword_service.py:50 | the name reported for pattern `i` is `list(self._keywords)[i]`, the `i`-th element of a set, which is neither in pattern order nor of the same length when two keywords differ only in case | keywords `["python", "ai"]` whose set iterates as `["ai", "python"]` and text `"python"` report `"ai"`; keywords `["AI", "ai"]` and text `"ai"` raise `IndexError` | report the keyword of the pattern that matched (the correction reports each pattern's stripped keyword in its given case, where the set holds lower-case forms) | not executed | KeywordService.AsWrittenReportsWrongKeyword | KeywordService.MatchedNamesExactly |
| app/services/rss_service.py:216-242 | the duplicate check queries the session with autoflush off, so it does not see rows added earlier in the same call | a batch `[d, d]` of two entries with the same guid inserts two rows with the same key, after which the next check for that key raises `MultipleResultsFound` | insert each guid once per source | not executed | RssService.AsWrittenDuplicatesBatch | RssService.SaveAllOk |
| app/routes/webhook.py:177-182 | the test route passes `platform=` to `send_webhook_notification`, which has no such parameter, so the call raises `TypeError` and the generic handler answers failure | any configured URL: the test always reports failure | send the test message to the chosen URL and report the POST's outcome | not executed | WebhookRoutes.TestAsWrittenFails | WebhookRoutes.TestWebhookConfig |
| app/services/ai_filter_service.py:150-158 | the bulk reset at lines 85-88 is a Core statement, so the loaded articles keep their old flags; the loop then assigns a flag equal to the loaded one to every flagged article that is not kept, the flush sends no UPDATE for it, and the row keeps the reset's False | one article loaded with `is_ai_filtered` true and an answer that keeps nothing: it ends unflagged, and is flagged again on the next run | after a successful pass a loaded article is flagged exactly when its id was not kept | not executed | AiFilterService.AsWrittenDropsFlag | AiFilterService.FilterPassFlags |
