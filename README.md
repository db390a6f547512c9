# Crypto newsletter curation, modelled in Dafny

This project models the news-curation core of the "L8R by Crypto Mafia" newsletter
application and proves properties of it. The application does the following:

- It reads a registry of RSS, Atom and Reddit feeds (`config.ts`).
- It normalises every entry into a news item with a deterministic 32-bit hash id (`news-fetcher.ts`).
- It deduplicates the items by title and keeps the last 24 hours.
- It balances the candidates between sources, newsletters first, under a budget of 30.
- It has an extraction service split each item into stories (`smart-curator.ts`).
- It merges stories whose headlines are more than half similar (word-set Jaccard).
- It scores each story with cross-source, category, recency and tier boosts, capped at 10.
- It returns the stories scoring at least 6, highest first, with per-source statistics.

Around that pipeline the model also covers several smaller parts:

- the session cost ledger (`cost-tracker.ts`);
- the X-news route, with its headline dedup and AI index filter (`x-news/route.ts`);
- the scrape strategy ladder (`firecrawl.ts`);
- the site-password gate: the middleware plus the login and logout routes.

Conventions of the model:

- Every network, XML, DOM and AI call is a parameter:
  - `Http`: a url to `Option<body>`;
  - `XmlParser`, `DateParser`;
  - the extraction `Oracle`, the `Scraper`;
  - the x-news `classify` and `encode` functions;
  - the fetched `Page` and the Jina reply.
- Scores are integers in tenths: base 5 is 50, the threshold is 60 and the cap is 100.
- Tier weights are tenths: 10, 9, 11 and 8.
- Times are integer milliseconds; costs are exact reals; similarities are exact ratios.
- The JavaScript `Map` of stories iterates in insertion order, so it is a sequence. Story `k` carries the fresh id `k`.
- Each in-place `Array.prototype.sort` with a descending comparator is an insertion sort (`Sorting.SortDesc`) over a lexicographic `Key`.

Every loop of the source is a `method` proved equal to a specification function. The properties are proved about those functions:

- `Aggregation.Aggregate`, `Balancing.BalanceSources`, `Scoring.ScoreAll`;
- `Reddit.ParseLines`, `NewsFetcher.DedupTitles`, `XNews.Dedup`;
- `FeedTiers.BuildTierMap`, `Firecrawl.SelectText`, `CostTracker.Ledger.GetCostsBySource`, and others.

The cost ledger is a class over its storage slot.

Two constants are worth naming:

- Freshness is one 24-hour window, the same for every tier (`app/src/lib/news-fetcher.ts:218-227`).
- The tier weights are 1.0, 0.9, 1.1 and 0.8 (`app/src/lib/config.ts:187-192`).

## Model

| member | source | states |
|---|---|---|
| Similarity.Words | app/src/lib/smart-curator.ts:38-39 | every counted word is longer than three characters and is a word of the normalised headline |
| Similarity.CalculateSimilarity | app/src/lib/smart-curator.ts:37-47 | the similarity lies in [0, 1]; it is 0 when either headline has no long word, and otherwise is the size of the intersection over the size of the union |
| Similarity.SimilaritySymmetric | app/src/lib/smart-curator.ts:37-47 | the similarity does not depend on the order of the two headlines |
| Similarity.SameWordsFullySimilar | app/src/lib/smart-curator.ts:41-46 | headlines with the same non-empty set of long words have similarity 1, above the merge threshold |
| Similarity.DisjointWordsNotSimilar | app/src/lib/smart-curator.ts:41-46 | headlines sharing no long word have similarity 0 and are never merged |
| Extraction.Passthrough | app/src/lib/smart-curator.ts:74-81 | the fallback story has the item's title, category 'other', base score 5, no entities and the item's url |
| Extraction.Excerpt | app/src/lib/smart-curator.ts:91 | the oracle sees a prefix of the content of at most 10000 characters, and all of the content when it is that short |
| Extraction.ScrapeOnlyWhenShort | app/src/lib/smart-curator.ts:64-70 | the scraper is not consulted when the content has 500 characters or more, or the item has no url |
| Extraction.OracleStoriesKept | app/src/lib/smart-curator.ts:84-131 | with at least 100 characters of content and a parsed reply, the oracle's story list, possibly empty, is the result |
| Extraction.ShortContentPassthrough | app/src/lib/smart-curator.ts:73-82 | content under 100 characters after the optional scrape yields one passthrough story whose summary falls back to the title |
| Extraction.OracleFailurePassthrough | app/src/lib/smart-curator.ts:112-141 | a failed or unparseable oracle reply yields one passthrough story whose summary falls back to '' |
| Extraction.OracleNotAskedForShortContent | app/src/lib/smart-curator.ts:73-82 | with short content there is exactly one story, whatever the oracle would answer |
| Extraction.PassthroughCases | app/src/lib/smart-curator.ts:73-141 | in the three fallback cases the result is exactly one story with the item's title, category 'other', base score 5 and the item's url |
| Aggregation.BestIndex | app/src/lib/smart-curator.ts:253-262 | the index chosen by the scan is a valid index |
| Aggregation.BestIndexStep | app/src/lib/smart-curator.ts:258-261 | one step of the scan takes the new index iff its ratio is above one half and strictly greater than the current best |
| Aggregation.BestIndexCorrect | app/src/lib/smart-curator.ts:253-262 | there is a match iff some ratio is above one half; the match is above one half, strictly greater than every earlier ratio and at least every later one, so ties go to the earliest story |
| Aggregation.BestMatch | app/src/lib/smart-curator.ts:253-262 | the matched key is a story of the collection |
| Aggregation.BestMatchCorrect | app/src/lib/smart-curator.ts:253-262 | a story matches iff some story is more than half similar, and the match is the earliest most similar one |
| Aggregation.Merge | app/src/lib/smart-curator.ts:264-277 | the source is added at most once; the base score never decreases; headline and summary are replaced iff the incoming score is strictly higher; id, category, entities, url, date and tier are unchanged; the source list stays duplicate-free with the count equal to its length |
| Aggregation.NewStory | app/src/lib/smart-curator.ts:278-297 | a new story has the item's source as its only source and count 1, category defaulting to 'other', a zero base score defaulting to 5, the item's date and tier, and no boosts |
| Aggregation.MergeKeepsValid | app/src/lib/smart-curator.ts:266-270 | merging into one story keeps every story of the collection valid |
| Aggregation.AddStoryEffect | app/src/lib/smart-curator.ts:253-297 | with a match above one half the collection keeps its length; with none, the new story is appended with the next fresh id; the collection stays valid |
| Aggregation.AddStoryGrows | app/src/lib/smart-curator.ts:264-277 | no story is removed, and no base score, category, date, tier, url or source is lost |
| Aggregation.AddAllValid | app/src/lib/smart-curator.ts:251-298 | folding an item's stories keeps the collection valid, only grows it, and adds at most one story per extracted story |
| Aggregation.AggregateAllValid | app/src/lib/smart-curator.ts:233-304 | after every create or merge, ids are distinct and every story's sources are duplicate-free and counted by `crossSourceCount` |
| Aggregation.FindMatch | app/src/lib/smart-curator.ts:253-262 | the loop with `matchedKey` and `maxSimilarity` finds the best match |
| Aggregation.MergeOrCreate | app/src/lib/smart-curator.ts:264-297 | the loop body merges into the best match or creates a new story |
| Aggregation.MergeAll | app/src/lib/smart-curator.ts:251-298 | the inner loop folds every extracted story in order |
| Aggregation.Aggregate | app/src/lib/smart-curator.ts:233-304 | the extraction loop builds the specified collection, and it is valid |
| Balancing.SourceNames | app/src/lib/smart-curator.ts:178-182 | the source keys are distinct and are exactly the sources of the fetched items |
| Balancing.ItemsOf | app/src/lib/smart-curator.ts:178-182 | a source's list holds only fetched items of that source |
| Balancing.ItemsOfStep | app/src/lib/smart-curator.ts:179-182 | reading one more item appends it to its own source's list only |
| Balancing.GroupBySource | app/src/lib/smart-curator.ts:178-182 | the loop builds a map whose keys are the sources and whose values are each source's items in order |
| Balancing.ToProcess | app/src/lib/smart-curator.ts:231 | at most 30 candidates are processed |
| Balancing.AddUnseenFacts | app/src/lib/smart-curator.ts:213-218 | a batch of pushes extends the list, respects the limit, keeps URLs distinct and adds only items of the batch |
| Balancing.AddUnseenCount | app/src/lib/smart-curator.ts:191-196 | per source, a batch adds at most as many items as the batch holds from that source |
| Balancing.NewestFacts | app/src/lib/smart-curator.ts:189-190 | the quota slice of a source has at most the quota's items, all of that source |
| Balancing.PushStep | app/src/lib/smart-curator.ts:211-218 | one source's pushes add at most its quota, only of that source, and leave other sources' counts alone |
| Balancing.Phase1Step | app/src/lib/smart-curator.ts:185-197 | one newsletter source keeps phase 1's invariant |
| Balancing.Phase1Facts | app/src/lib/smart-curator.ts:184-197 | phase 1 takes only tier-1 items with distinct URLs, at most five per source |
| Balancing.Phase2Break | app/src/lib/smart-curator.ts:209 | once the list holds 30 candidates, no later source changes it |
| Balancing.Phase2Step | app/src/lib/smart-curator.ts:205-219 | one other source keeps phase 2's invariant |
| Balancing.Phase2Facts | app/src/lib/smart-curator.ts:205-219 | phase 2 extends phase 1 with items of other tiers, at most two per source, and never beyond 30 |
| Balancing.BalanceCorrect | app/src/lib/smart-curator.ts:184-219 | no URL is selected twice; at most five items per tier-1 source and two per other source; the tier-1 part comes first; only the uncapped tier-1 part can exceed 30 |
| Balancing.PrefixUrls | app/src/lib/smart-curator.ts:191-196 | URLs already selected stay selected as the list grows |
| Balancing.AddUnseenCovers | app/src/lib/smart-curator.ts:213-218 | after a batch, every item of the batch has its URL selected, unless the list reached the limit |
| Balancing.AddUnseenAll | app/src/lib/smart-curator.ts:191-196 | with room for the whole batch, every item of the batch has its URL selected |
| Balancing.Phase1Takes | app/src/lib/smart-curator.ts:185-197 | each of a tier-1 source's five newest items has its URL selected by phase 1 |
| Balancing.Phase2Takes | app/src/lib/smart-curator.ts:205-219 | each of another source's two newest items has its URL selected by phase 2, unless the list reached 30 |
| Balancing.BalanceTakes | app/src/lib/smart-curator.ts:184-219 | the balanced list selects the URL of each of a tier-1 source's five newest items, and of each of another source's two newest unless it holds 30 |
| Balancing.OrderCandidatesCorrect | app/src/lib/smart-curator.ts:222-228 | the ordered candidates are a permutation; every tier-1 item precedes every other one; each part is newest first |
| Balancing.PushUnseen | app/src/lib/smart-curator.ts:213-218 | the `forEach` with the `seenUrls` set pushes the specified items and keeps the set equal to the list's URLs |
| Balancing.NewslettersFirst | app/src/lib/smart-curator.ts:185-197 | the first loop computes phase 1 |
| Balancing.FillOthers | app/src/lib/smart-curator.ts:205-219 | the second loop, with its `break`, computes phase 2 |
| Balancing.BalanceSources | app/src/lib/smart-curator.ts:184-228 | the two loops and the candidate sort give the ordered, balanced candidate list |
| Scoring.ScoreStory | app/src/lib/smart-curator.ts:311-352 | scoring changes only the final score and the trace of a story, and the final score is at most 10 |
| Scoring.ReplayAdditiveEntries | app/src/lib/smart-curator.ts:315-337 | the additive entries of the trace sum to base plus cross-source, category and recency points |
| Scoring.TraceExplainsScore | app/src/lib/smart-curator.ts:311-349 | the final score is min(10, the recorded boosts applied in order to the base score) |
| Scoring.TraceOrdered | app/src/lib/smart-curator.ts:313-346 | trace entries appear in the order applied: cross-source, category, recency, tier weight |
| Scoring.TraceEntries | app/src/lib/smart-curator.ts:315-346 | there is a cross-source entry iff two or more sources; a category entry iff the table gives a non-zero boost; a recency entry iff under 12 hours old; a weight entry iff the weight is not 1.0 |
| Scoring.NoMultiplierForTierOne | app/src/lib/smart-curator.ts:339-346 | tier 1 and unlisted tiers get no multiplier, and the score is min(10, base + boosts) |
| Scoring.ScoreMonotone | app/src/lib/smart-curator.ts:311-348 | a higher base score never gives a lower final score, and a non-negative base gives a score in [0, 10] |
| Scoring.ScoringExamples | app/src/lib/smart-curator.ts:311-348 | a base-6, three-source, one-hour-old security breach from tier 3 reaches 10 with four trace entries; a base-6, single-source story from tier 2, a day old, scores 5.4 and is not shown |
| Scoring.ScoreOne | app/src/lib/smart-curator.ts:311-349 | the loop body computes the specified score and trace |
| Scoring.ScoreAll | app/src/lib/smart-curator.ts:311-352 | the loop scores every story of the collection in place |
| Curation.Passing | app/src/lib/smart-curator.ts:355-356 | the filter keeps exactly the stories scoring at least 6, and nothing else |
| Curation.SelectStoriesCorrect | app/src/lib/smart-curator.ts:355-357 | a story is returned iff it scores at least 6; the result permutes the passing stories; scores never increase along it |
| Curation.SelectStoriesIdempotent | app/src/lib/smart-curator.ts:355-357 | selecting the result again changes nothing |
| Curation.FeedNames | app/src/lib/smart-curator.ts:156 | the breakdown keys are distinct and are exactly the feed names |
| Curation.Rows | app/src/lib/smart-curator.ts:361-369 | each row counts its source's items found and processed |
| Curation.BreakdownRows | app/src/lib/smart-curator.ts:365-369 | every breakdown row names a feed and carries its found and kept counts |
| Curation.MakeStatsCorrect | app/src/lib/smart-curator.ts:361-370 | `articlesProcessed = min(candidates, 30)`; the breakdown is one row per feed name, sorted by `kept` descending |
| Curation.ZeroCounters | app/src/lib/smart-curator.ts:156 | every feed name starts with zero counters |
| Curation.Tally | app/src/lib/smart-curator.ts:163-167 | each counter ends at the number of items of its source, and no key is added |
| Curation.BuildStats | app/src/lib/smart-curator.ts:361-370 | the statistics built from the counters are the specified ones |
| Sorting.Insert | app/src/lib/smart-curator.ts:357 | inserting an element adds exactly that element |
| Sorting.SortDescCorrect | app/src/lib/smart-curator.ts:357 | the sort returns a permutation, ordered by the descending comparator |
| Sorting.SortDescOfSorted | app/src/lib/news-fetcher.ts:203-205 | input already in order comes back unchanged, so sorting twice equals sorting once |
| FeedTiers.TierMap | app/src/lib/smart-curator.ts:175-176 | every feed name is a key, and no tier in the map is 0 |
| FeedTiers.BuildTierMap | app/src/lib/smart-curator.ts:175-176 | the `forEach` loop builds exactly the tier map, with a later feed of the same name winning |
| FeedTiers.TierOfUniqueFeed | app/src/lib/smart-curator.ts:176 | a feed whose name is unique is looked up to its tier, or to 2 when it has none |
| FeedTiers.DefaultFeedTierLookup | app/src/lib/smart-curator.ts:176 | every default feed is looked up to its configured tier |
| FeedTiers.UnknownNameTier | app/src/lib/smart-curator.ts:186 | an unknown source name falls back to tier 2 |
| FeedTiers.TierMapKeys | app/src/lib/smart-curator.ts:176 | every key of the tier map is a feed name |
| Config.ThresholdConstants | app/src/lib/config.ts:173-186 | `minScoreToShow` is 6, `recencyBoostHours` is 12, and the three-plus-sources boost exceeds the two-sources boost |
| Config.SecurityBreachLargestBoost | app/src/lib/config.ts:179-185 | `security_breach` (2) is the unique largest category boost; the other listed categories get 1 |
| Config.UnboostedPromptCategories | app/src/lib/config.ts:204 | nft_news, funding, partnership, protocol_upgrade and market_analysis are prompt categories with no boost, and every boosted category is a prompt category |
| Config.TierWeightBounds | app/src/lib/config.ts:187-192 | tier 1 is exactly 1.0; tier 3 is the highest and tier 4 the lowest; all weights lie in [0.8, 1.1] |
| Config.DefaultFeedTiers | app/src/lib/config.ts:21-169 | there are 22 default feeds, each with a tier in 1..4, and the tier-1 feeds are exactly the first six |
| Config.DefaultFeedNamesUnique | app/src/lib/config.ts:21-169 | no two default feeds share a name |
| Pipeline.ScoredAll | app/src/lib/smart-curator.ts:311-352 | scoring keeps the number of stories |
| Pipeline.SelectedFacts | app/src/lib/smart-curator.ts:355-357 | the returned stories score between 6 and 10, come highest first, have distinct ids and valid sources, and are exactly the scored stories meeting the threshold |
| Pipeline.SelectStoriesDistinctIds | app/src/lib/smart-curator.ts:355-357 | filtering and sorting keep the ids distinct |
| Pipeline.CurateCorrect | app/src/lib/smart-curator.ts:145-373 | `curateNews` returns exactly the scored stories of the first 30 candidates that meet the threshold: each scores between 60 and 100 and has valid sources, highest score first, with distinct ids; at most 30 candidates are processed and every feed counts as an analysed source |
| Pipeline.CurateNews | app/src/lib/smart-curator.ts:145-373 | the whole imperative pipeline computes the specified result |
| Pipeline.CurateAllFeeds | app/src/lib/smart-curator.ts:156-373 | once `allFeeds` is built, fetching, balancing, extracting, scoring, selecting and counting compute the specified result for those feeds |
| Pipeline.ExtractAndScore | app/src/lib/smart-curator.ts:230-355 | stages 2 and 3 return the stories, shown and highest score first, that come from the first 30 candidates after extraction and scoring |
| FeedIds.ToInt32 | app/src/lib/news-fetcher.ts:15-16 | the 32-bit reduction yields a signed 32-bit value and leaves one unchanged |
| FeedIds.CodeUnits | app/src/lib/news-fetcher.ts:14 | a character is one UTF-16 code unit below U+10000 and two otherwise, each below 0x10000 |
| FeedIds.Utf16 | app/src/lib/news-fetcher.ts:13-14 | the string has at least as many code units as characters, each below 0x10000 |
| FeedIds.StepIsPolynomial | app/src/lib/news-fetcher.ts:15-16 | `((h << 5) - h) + c` reduced to 32 bits is `31·h + c` reduced to 32 bits |
| FeedIds.Hash | app/src/lib/news-fetcher.ts:12-17 | the hash stays a signed 32-bit integer |
| FeedIds.HashIsPolynomial | app/src/lib/news-fetcher.ts:10-19 | the hash is the base-31 polynomial of the code units, reduced to a signed 32-bit integer |
| FeedIds.ToBase36 | app/src/lib/news-fetcher.ts:18 | the id is non-empty base-36 digits with no leading zero |
| FeedIds.Base36RoundTrip | app/src/lib/news-fetcher.ts:18 | reading the base-36 digits back gives the number |
| FeedIds.IdOfConcatenation | app/src/lib/news-fetcher.ts:10-11 | the id depends on title and url only through `title + "-" + url` |
| FeedIds.CollisionExample | app/src/lib/news-fetcher.ts:10-11 | title "a-b" with url "c" and title "a" with url "b-c" get the same id |
| FeedIds.IdsEqualIffHashesEqual | app/src/lib/news-fetcher.ts:18 | two ids are equal iff the absolute hashes are |
| FeedIds.ComputeId | app/src/lib/news-fetcher.ts:10-19 | the loop over `charCodeAt` computes the specified id |
| CleanText.StripTags | app/src/lib/news-fetcher.ts:178 | removing tags never lengthens the text |
| CleanText.StripNumericRefs | app/src/lib/news-fetcher.ts:191 | removing numeric references never lengthens the text |
| CleanText.Clean | app/src/lib/news-fetcher.ts:175-193 | the cleaned text has no whitespace at either end |
| CleanText.StripTagsNoTag | app/src/lib/news-fetcher.ts:178 | after stripping, no `<` has a `>` anywhere after it |
| CleanText.StripTagsIdentity | app/src/lib/news-fetcher.ts:178 | text without `<` passes unchanged |
| CleanText.StripNumericRefsIdentity | app/src/lib/news-fetcher.ts:191 | text without `&` passes unchanged |
| CleanText.DecodeEntitiesIdentity | app/src/lib/news-fetcher.ts:179-190 | text without `&` passes the entity chain unchanged |
| CleanText.CleanIdentity | app/src/lib/news-fetcher.ts:175-193 | trimmed text without `<` and `&` comes back unchanged |
| CleanText.CleanEmpty | app/src/lib/news-fetcher.ts:176 | empty input gives '' |
| CleanText.EntitiesShape | app/src/lib/news-fetcher.ts:179-190 | every entity pattern starts with `&`; `&amp;` is decoded first and `&lt;` second |
| CleanText.AmpThenLt | app/src/lib/news-fetcher.ts:179-180 | a chain starting with `&amp;` then `&lt;` turns `&amp;lt;` into `<` |
| CleanText.DoubleEscapedLessThan | app/src/lib/news-fetcher.ts:175-193 | `cleanText("&amp;lt;")` is `<` |
| Reddit.UrlAt | app/src/lib/news-fetcher.ts:50 | a matched url starts with one of the two reddit prefixes and is followed by `)` |
| Reddit.FindTitleEndCorrect | app/src/lib/news-fetcher.ts:50 | the lazy title search finds the first title end after which the link follows, or reports that none exists |
| Reddit.MatchLinkCorrect | app/src/lib/news-fetcher.ts:50 | a line matches iff some title end fits the pattern; the match takes the shortest such title |
| Reddit.MatchLinkNonEmpty | app/src/lib/news-fetcher.ts:50 | a matched title and url are non-empty |
| Reddit.DraftsCount | app/src/lib/news-fetcher.ts:49-72 | there is one post per link line |
| Reddit.DraftsSkipLeading | app/src/lib/news-fetcher.ts:49-72 | lines before the first link are ignored |
| Reddit.ToItems | app/src/lib/news-fetcher.ts:52-65 | there is one news item per post |
| Reddit.RedditPosts | app/src/lib/news-fetcher.ts:90 | at most 10 posts are returned |
| Reddit.FetchReddit | app/src/lib/news-fetcher.ts:27-95 | the Reddit path returns at most 10 posts |
| Reddit.PendingLink | app/src/lib/news-fetcher.ts:50-68 | a link line flushes the current post and starts a new one |
| Reddit.PendingOther | app/src/lib/news-fetcher.ts:69-71 | a non-blank line after a link extends the current post's content with a space and the line |
| Reddit.ScanLineInvariant | app/src/lib/news-fetcher.ts:49-72 | one step of the loop keeps "pushed posts plus pending posts" equal |
| Reddit.ScanLinesPending | app/src/lib/news-fetcher.ts:49-87 | the loop's state after a prefix, with the posts still pending, describes the whole page |
| Reddit.ScanPostsAreDrafts | app/src/lib/news-fetcher.ts:49-87 | the loop with its final flush yields one post per link line, each with the non-blank lines that follow it |
| Reddit.ParseLines | app/src/lib/news-fetcher.ts:49-87 | the loop with `currentTitle`, `currentUrl` and `currentContent` computes the specified posts |
| Reddit.ParseMarkdown | app/src/lib/news-fetcher.ts:43-87 | splitting into lines and then the loop computes the specified posts |
| FeedParser.TextOrSelf | app/src/lib/news-fetcher.ts:132 | a picked string is never empty |
| FeedParser.Longer | app/src/lib/news-fetcher.ts:153 | the encoded content is taken iff it is a string strictly longer than the summary |
| FeedParser.MapAll | app/src/lib/news-fetcher.ts:131 | a map that does not throw has one result per input |
| FeedParser.MapAllCorrect | app/src/lib/news-fetcher.ts:131 | the map succeeds iff every call does, and then holds the results in order |
| FeedParser.ParseEntries | app/src/lib/news-fetcher.ts:131-167 | the entries that do not throw give one item each |
| FeedParser.ParseEntriesCorrect | app/src/lib/news-fetcher.ts:131-167 | the entries yield items iff none throws, and then one item per entry, in order |
| FeedParser.ParseXmlFeed | app/src/lib/news-fetcher.ts:104-171 | the XML path keeps at most 10 entries |
| FeedParser.ParseFeed | app/src/lib/news-fetcher.ts:98-172 | a feed yields at most 10 items |
| FeedParser.ParseFeedDispatch | app/src/lib/news-fetcher.ts:100-102 | addresses containing 'reddit.com' or '/r/' take the Reddit path; all others take the XML path |
| FeedParser.DefaultRedditFeeds | app/src/lib/config.ts:133-168 | the default feeds named `r/...` are the last six, and each address contains 'reddit.com', so each takes the Reddit path |
| FeedParser.RejectedResponses | app/src/lib/news-fetcher.ts:112-125 | a failed fetch, a body with `<!DOCTYPE html>`, `<html` or "You've been blocked", or an unparseable body yields [] |
| FeedParser.XmlFeedItems | app/src/lib/news-fetcher.ts:128-131 | with a parsed document, the first 10 entries become items in order when none throws, and the feed yields [] when one does |
| FeedParser.DocEntriesChoice | app/src/lib/news-fetcher.ts:128-129 | RSS items are used when present, Atom entries otherwise; a single entry is a one-element list |
| FeedParser.EntryShape | app/src/lib/news-fetcher.ts:132-166 | an item names its feed; its title is the cleaned title; its id hashes the raw title and link; its content is the cleaned longer of `content:encoded` and the description; its summary is its first 500 characters |
| FeedParser.UntitledDefault | app/src/lib/news-fetcher.ts:132 | a missing or empty title defaults to 'Untitled' |
| FeedParser.AtomLinkHref | app/src/lib/news-fetcher.ts:133 | an Atom `link` element's `href` is the item's url |
| FeedParser.ImagePreference | app/src/lib/news-fetcher.ts:137-142 | `media:content` wins over `enclosure` |
| FeedParser.PublishedAtCases | app/src/lib/news-fetcher.ts:134-161 | without a date the item is dated now; an unparseable or object date makes the entry throw |
| FeedParser.ObjectTitleThrows | app/src/lib/news-fetcher.ts:157 | a title element with attributes but no text makes the entry throw |
| NewsFetcher.Flatten | app/src/lib/news-fetcher.ts:200 | an item is in the flattened list iff it is in some feed's result |
| NewsFetcher.FeedResults | app/src/lib/news-fetcher.ts:197-198 | there is one result per feed |
| NewsFetcher.KeysMembers | app/src/lib/news-fetcher.ts:208-216 | a title key is in the `seen` set iff some item read so far has it |
| NewsFetcher.DedupKeys | app/src/lib/news-fetcher.ts:208-216 | every title key of the input survives the filter |
| NewsFetcher.DedupCorrect | app/src/lib/news-fetcher.ts:208-216 | kept items have distinct title keys, every key survives, and the order is kept |
| NewsFetcher.DedupFirst | app/src/lib/news-fetcher.ts:208-216 | an item is kept iff it is the first of its title key |
| NewsFetcher.DedupSorted | app/src/lib/news-fetcher.ts:203-216 | deduplicating a list sorted newest first leaves it sorted |
| NewsFetcher.DedupTitles | app/src/lib/news-fetcher.ts:208-216 | the filter with its `seen` set computes the specified dedup |
| NewsFetcher.FreshWindow | app/src/lib/news-fetcher.ts:219-228 | an item is kept iff its date is no earlier than 24 hours before now, the same window for every tier; future dates are kept |
| NewsFetcher.AllNewsCorrect | app/src/lib/news-fetcher.ts:196-233 | the news is sorted newest first, has distinct title keys, is a subsequence of the sorted input, and holds exactly the fresh items that come first for their title there |
| NewsFetcher.FetchAllNews | app/src/lib/news-fetcher.ts:196-233 | `fetchAllNews` computes the specified news |
| NewsFetcher.FilterByDate | app/src/lib/news-fetcher.ts:236-243 | an item is kept iff its date is at or after `days` days before now |
| NewsFetcher.FilterByDateOrder | app/src/lib/news-fetcher.ts:240-242 | the filter keeps the order of the items it keeps |
| CostTracker.Ledger.constructor | app/src/lib/cost-tracker.ts:41 | the ledger starts on the given storage slot |
| CostTracker.Ledger.GetCosts | app/src/lib/cost-tracker.ts:44-52 | [] on the server, when nothing is stored, or when parsing fails; otherwise the stored list |
| CostTracker.Ledger.AddCost | app/src/lib/cost-tracker.ts:55-69 | in a browser the entry is appended to the end with earlier entries unchanged; on the server nothing changes; the new entry is returned either way |
| CostTracker.Ledger.ClearCosts | app/src/lib/cost-tracker.ts:72-76 | afterwards `getCosts` is empty |
| CostTracker.Ledger.GetCostsBySource | app/src/lib/cost-tracker.ts:84-93 | the loop computes the specified per-source totals of the stored list |
| CostTracker.BySourceCorrect | app/src/lib/cost-tracker.ts:84-93 | a source is a key iff some entry has it, and its value is the sum of those entries' costs |
| CostTracker.TotalBySources | app/src/lib/cost-tracker.ts:33 | every cost counts under exactly one of the eight sources |
| CostTracker.MinTimestamp | app/src/lib/cost-tracker.ts:123 | the session start is the least timestamp of the entries |
| CostTracker.SummaryCorrect | app/src/lib/cost-tracker.ts:109-124 | the total is the sum of all costs and equals the sum of the four categories; `entryCount` is the length; `sessionStart` is null iff there are no entries, and otherwise the least timestamp |
| CostTracker.SummaryAfterAdd | app/src/lib/cost-tracker.ts:62-66 | after an append, the total and the entry's source total grow by its cost, and the count grows by one |
| CostTracker.TextCostLinear | app/src/lib/cost-tracker.ts:128-135 | the estimate is linear in the token counts, with the model's rates, or 1.0 and 5.0 dollars per million for an unknown model |
| CostTracker.ImageCostCases | app/src/lib/cost-tracker.ts:138-141 | a set, non-zero per-image price is used, and otherwise 0.03, text models included |
| CostTracker.PricingTable | app/src/lib/cost-tracker.ts:7-27 | listed per-image prices are positive; a text model costs 0.03 per image; flux-pro-1.1 costs 0.04; an unknown model costs 6.0 for a million tokens each way |
| XNews.NormalizedKeyShape | app/src/app/api/x-news/route.ts:81-90 | the key has at most 60 characters drawn from [a-z0-9_ ], no leading space and no space run; the short key is its first 40 characters |
| XNews.LongWords | app/src/app/api/x-news/route.ts:94 | the counted words are longer than three characters and contain no space |
| XNews.DedupSeen | app/src/app/api/x-news/route.ts:107-108 | the `seenNormalized` set holds exactly the keys of the kept items |
| XNews.DedupDropIff | app/src/app/api/x-news/route.ts:90-105 | an item is dropped iff its short key is a stored key, or its long words overlap a stored key's by more than half of the larger set |
| XNews.DedupSubseq | app/src/app/api/x-news/route.ts:78-109 | the kept items are an order-preserving subsequence of the raw items |
| XNews.DedupKeepsFirst | app/src/app/api/x-news/route.ts:78-109 | the first raw item is always kept |
| XNews.DedupNoDuplicates | app/src/app/api/x-news/route.ts:78-109 | no kept item is a duplicate of an earlier kept item |
| XNews.OverlapsAny | app/src/app/api/x-news/route.ts:95-104 | the loop with `isDupe` and `break` reports an overlap iff some stored key overlaps |
| XNews.Dedup | app/src/app/api/x-news/route.ts:78-109 | the dedup loop computes the specified kept items |
| XNews.SelectIndicesMembers | app/src/app/api/x-news/route.ts:44 | an item is in the result iff a returned index in range points at it |
| XNews.SelectIndicesOrder | app/src/app/api/x-news/route.ts:44 | the result follows the returned in-range indices, in the order they were returned |
| XNews.FilterWithAI | app/src/app/api/x-news/route.ts:4-48 | empty input gives [] without asking the AI; a failed or unparseable reply returns the input; otherwise the in-range indices are selected |
| XNews.FilterWithAIMembers | app/src/app/api/x-news/route.ts:38-46 | every filtered item is an input item |
| XNews.FormatFields | app/src/app/api/x-news/route.ts:116-124 | title and summary are the headline; author defaults to 'X_Trending' and the post count to 0; id and date are copied; the url is the search url |
| XNews.FormatAll | app/src/app/api/x-news/route.ts:116 | there is one formatted item per filtered item |
| XNews.XNewsResponseCorrect | app/src/app/api/x-news/route.ts:50-131 | items are listed iff storage is configured and the fetch succeeds; `count` is the number of items and `filtered` is raw minus kept; every item formats a raw row; without an API key the items are the formatted dedup |
| XNews.RepeatedIndexNegativeCount | app/src/app/api/x-news/route.ts:126 | an AI reply repeating an index makes `filtered` negative |
| XNews.Get | app/src/app/api/x-news/route.ts:50-131 | the route computes the specified response |
| Firecrawl.FirstMatchWins | app/src/lib/firecrawl.ts:42-49 | the first selector that matches wins, however short its text |
| Firecrawl.FirstMatchNone | app/src/lib/firecrawl.ts:42-49 | with no matching selector the text is empty |
| Firecrawl.SelectText | app/src/lib/firecrawl.ts:42-49 | the selector loop with its `break` computes the first match |
| Firecrawl.ArticleText | app/src/lib/firecrawl.ts:51-53 | the body text replaces a selected text under 500 characters |
| Firecrawl.CollapseNewlinesNoop | app/src/lib/firecrawl.ts:55 | the newline collapse leaves text without newlines unchanged |
| Firecrawl.CleanShape | app/src/lib/firecrawl.ts:55 | the `\n+` replace is a no-op; cleaned text has no whitespace run and no whitespace at either end |
| Firecrawl.FetchStep | app/src/lib/firecrawl.ts:57-59 | the fetched content is at most 15000 characters |
| Firecrawl.ScrapeBounded | app/src/lib/firecrawl.ts:14-81 | content is at most 15000 characters on every path, and the method is never 'firecrawl' |
| Firecrawl.FetchContentIsLong | app/src/lib/firecrawl.ts:57-59 | 'fetch' content is non-empty iff the page was fetched and its cleaned text exceeds 600 characters, and is then that text cut to 15000 |
| Firecrawl.JinaFallback | app/src/lib/firecrawl.ts:66-80 | Jina is consulted only when step 1 does not return; its cut body is used whenever present, even if empty; otherwise the result is '' with method 'fetch' |
| Firecrawl.ScrapeUrl | app/src/lib/firecrawl.ts:14-81 | `scrapeUrl` computes the specified result |
| Session.OpenWithoutPassword | app/src/middleware.ts:11-13 | an unset or empty password admits every request |
| Session.PublicPathsAdmitted | app/src/middleware.ts:16-26 | paths starting with `/api` or `/_next`, or containing '.', are admitted |
| Session.CookieGate | app/src/middleware.ts:29-37 | any other path is admitted iff cookie `site-auth` equals the password, and is otherwise redirected to `/login` |
| Session.LoginPageRedirected | app/src/middleware.ts:16-37 | `/login` has no exemption: without the cookie it redirects to itself |
| Session.LoginCases | app/src/app/api/auth/route.ts:3-32 | an unparseable body gives 500; no password gives success without a cookie; a matching password gives success and sets `site-auth` to it, for 604800 s on '/', http-only, same-site lax, secure in production; a wrong one gives 401 and no cookie |
| Session.LogoutMatchesLogin | app/src/app/api/logout/route.ts:3-16 | logout succeeds and sets an empty `site-auth` with max-age 0, whose name, path and attributes match the login cookie |
| Session.Store | app/src/app/api/logout/route.ts:7-13 | storing one cookie leaves every other cookie unchanged |
| Session.LoginThenAdmitted | app/src/app/api/auth/route.ts:13-26 | after a successful login, page requests carrying the stored cookie are admitted |
| Session.LogoutThenRedirected | app/src/app/api/logout/route.ts:7-13 | after logout a page request is redirected, whether the browser drops the cookie or sends its empty value |

## Left out

- Network, storage and AI services are parameters, not modelled:
  - the OpenRouter, Jina and Supabase `fetch` calls;
  - the `XMLParser` and `cheerio` libraries;
  - `JSON.parse` of replies and of stored data;
  - `encodeURIComponent`.
- The DOM in `firecrawl.ts` is given as a selector-to-text map, after the removal of scripts, styles and navigation.
- `Promise.all` concurrency, the 300 ms delay between extractions, progress callbacks and logging are left out. They are observational, and the per-feed results are a given list.
- `curateNews` and `fetchAllNews` read the clock more than once. The model uses one `now` for all of them.
- The curator's own `generateId` mixes in the clock and randomness. It is replaced by a fresh-id supply: story `k` has id `k`.
- Floating point is not modelled:
  - scores are exact tenths, with `Math.round(x * w * 10) / 10` as round-half-up on tenths;
  - costs are exact reals;
  - IEEE rounding of sums is not modelled.
- `toLowerCase` is modelled on ASCII letters only, with no Unicode case mapping.
- `\w` and `\s` use ASCII classes, plus the usual JavaScript whitespace characters.
- Lengths are counted in characters. The UTF-16 code units are modelled only where the hash needs them.
- The freshness filter's "invalid date is kept" branch cannot be reached in the model. An entry with an invalid date throws in `toISOString`, so its feed yields [].
- Dates are instants in milliseconds. Time zones and daylight-saving changes in `setHours` and `setDate` are not modelled.
- XML values other than strings and objects are not modelled (numbers and arrays of repeated child elements), so an Atom entry with several `link` elements is left out.
- The news item `author` field and the story `entities || []` default carry no logic here and are left out.
- JavaScript prototype keys are left out: `statsBreakdown["constructor"]` and categories such as "toString" in the boost table.
- The key order of `Object.entries` is left out. Feed names that look like integers would come first, so the breakdown is modelled in insertion order.
- `Array.prototype.sort` is modelled as an insertion sort on values, not in place; only its result is modelled.
- Sorting.SortDescOfSorted: the sort's stability (equal keys keep their input order) is not stated; the model proves order, permutation and that sorted input is unchanged.
- The UI components, `supabase.ts`, the `config.matcher` of the middleware and the curate route's 400 on a missing API key are not part of this model.
- A fractional AI index in `filterXNewsWithAI` is not modelled: indices are integers.
- The raw x-news rows come from `response.json()`; a body that does not parse is modelled as the route's 'Internal error'.
- The Set of seen x-news keys is iterated in insertion order in the source. The model takes any order, since the result does not depend on it.
- Cookies in `Session.Store` are keyed by name only. Every cookie of the gate uses path '/', and `NODE_ENV` is the `production` parameter.
- `SOURCE_LABELS` in `cost-tracker.ts` is a display table and is left out.
- CostTracker.Ledger.GetTotalCost: it has no contract of its own; `SummaryCorrect` and `TotalBySources` state its value.
- CostTracker.Ledger.GetCostSummary: likewise, its contract lives in `SummaryCorrect`.
