# Scrawler crawl-decision core in Dafny

Scrawler is an LLM-guided website crawler that exists in three variants:
`agentic_crawler.py` (batched and concurrent, with section-wise extraction),
`main.py` and `agentic_crawler_local.py` (both sequential). This project models
the deterministic logic that sits between the page fetcher and the language
model, and proves properties of it. The model pins down:

- which links are kept, and how they are scored, ranked and chosen;
- how a model reply is cut out of its Markdown fence and read;
- what the crawler learns from each extracted page;
- how a page is split into sections and how the per-section answers are merged;
- how the two crawl phases drive the URL queue, the visited set and the page log;
- which pages the saved reports keep.

The fetcher, the language model and `json.loads` are oracles. They appear as
functions of the URL, or of the reply text, packed in a `World` value. Each
returns `None` where the Python code would catch an exception. The three
variants share one `Crawl.Crawler` class. They differ only in the constants of
a `Policy`:

| Constant | agentic_crawler.py | main.py | agentic_crawler_local.py |
|---|---|---|---|
| high-value threshold | 6 | 7 | 6 |
| section-wise extraction | yes | no | no |
| reconnaissance batch | `concurrency` | 1 | 1 |
| deep-phase batch | `max(2, concurrency // 2)` | 1 | 1 |
| links followed in reconnaissance | diverse heuristic top 8 | first 8 | first 8 |
| seeding pages (relevance ≥) | 5 | 6 | 5 |
| seeding links per page | diverse heuristic top 7 | first 5 | first 7 |

A sequential crawler is the batched loop with batch size 1. Both pop one URL,
skip it when visited, mark it visited, fetch it and follow its links in the
same order.

Modules, one per file:

| Module | Covers |
|---|---|
| `Wrappers` | `Option` |
| `Text` | Python string operations |
| `JsonValue` | decoded JSON values and `dict.get` |
| `Urls` | `_normalize_url`, `_is_same_domain`, `_extract_url_pattern` |
| `Seqs` | `xs[:n]`, `list(dict.fromkeys(xs))`, sub-lists |
| `Ranking` | stable descending sort |
| `Fences` | fence stripping |
| `Objective` | `analyze_user_objective` |
| `Links` | `_extract_links_with_context` |
| `Scoring` | heuristic score, recon selection, pre-score, similar URLs |
| `Navigation` | `_ask_ollama_for_navigation_advanced` |
| `Sections` | `_identify_page_sections` |
| `Knowledge` | class `SiteKnowledge`: `_update_site_knowledge`, `site_understanding`, `_analyze_site_structure` |
| `Extraction` | whole-page and section-wise extraction, `_crawl_page` |
| `Crawl` | class `Crawler`: `crawl_website`, `_crawl_pages_batch` |
| `Reports` | `save_results`, `save_to_json` |

Heuristic link scores are counted in half-points. Every increment in the source
is a multiple of 0.5, so the 5.0 base becomes 10, the 0..10 clamp becomes
0..20, and every comparison stays exact.

Behaviours of the code that the model keeps:

- **Batch order.** `asyncio.gather` returns results in dispatch order
  (agentic_crawler.py:646). So a batch's records are logged in the order the
  URLs were popped, not in completion order.
- **NONE in the navigation answer.** `'NONE' in answer.upper()`
  (agentic_crawler.py:589) is checked before any number is read, so an answer
  such as "2,5,NONE-ish-garbage,1" selects nothing (see
  `Navigation.NoneInsideNumbers`).
- **Structure analysis replaces keys.** `site_understanding.update(site_analysis)`
  (agentic_crawler.py:774) replaces `high_priority_patterns` and the other keys
  of the analysis; it does not form a union (see `Knowledge.SiteKnowledge.Absorb`).
- **Failed objective analysis.** The fixed default of main.py:134-150 is returned
  but never stored, so the stored seek and avoid lists stay empty (see
  `Objective.FallbackNotApplied`).
- **Reconnaissance budget.** The budget `max(5, max_pages // 10)`
  (agentic_crawler.py:727) exceeds `max_pages` when `max_pages < 5`. The visited
  count is therefore bounded by the larger of the two.
- **Exceptions that end the crawl.** Two exceptions escape every `try`:
  - an unhashable page type raises in `_analyze_site_structure` before its
    `try` (agentic_crawler.py:662-668); the model returns `None` from
    `CrawlWebsite`;
  - a null relevance raises in the closing summary (agentic_crawler.py:857);
    see "## Findings".

## Model

| member | source | states |
|---|---|---|
| Urls.Normalize | agentic_crawler.py:494-497 | the normalised URL drops what follows the path and keeps the host and the URL pattern |
| Urls.PathPattern | agentic_crawler.py:129-138 | a URL pattern always starts with "/" |
| Urls.RootPattern | agentic_crawler.py:138 | the pattern is exactly "/" when the path has no non-empty segment |
| Urls.PatternSegments | agentic_crawler.py:129-138 | the pattern's segments are the path's non-empty segments, each all-digit or over-30-character one replaced by "*" and the rest unchanged |
| Urls.GeneralizeIdempotent | agentic_crawler.py:133-137 | generalising a segment twice is generalising it once |
| Urls.PatternIdempotent | agentic_crawler.py:129-138 | re-deriving the pattern from a pattern changes nothing |
| JsonValue.StrArrRoundTrip | agentic_crawler.py:113-117 | a JSON list of strings is joinable and iterates back to the same strings |
| Text.StripSlice | agentic_crawler.py:102 | `strip()` yields a slice of its input with only whitespace outside it |
| Text.StripIdempotent | agentic_crawler.py:102 | stripping twice is stripping once |
| Text.ContainsIff | agentic_crawler.py:103 | `sub in s` holds exactly when `sub` occurs at some index of `s` |
| Text.FindIs | agentic_crawler.py:103-110 | the search returns the first occurrence at or after its start |
| Text.SplitJoin | agentic_crawler.py:131-138 | splitting a "/"-join of separator-free parts gives the parts back |
| Text.JoinSplit | agentic_crawler.py:131 | joining the pieces of a split gives the string back |
| Text.DecimalRoundTrip | agentic_crawler.py:592-594 | `DecimalValue` inverts `NatToString`: reading back the rendering of a natural gives that natural |
| Text.DecimalRendering | agentic_crawler.py:590-593 | every digit run without a leading zero is the rendering of the number `int` reads from it, so `DecimalValue` and `NatToString` are inverse on such runs |
| Text.DecimalLeadingZero | agentic_crawler.py:590-593 | a leading zero of a digit run read by `int` does not change its value ("007" reads as 7) |
| Text.DecimalPositive | agentic_crawler.py:590-593 | a digit run not starting with a zero reads as a positive number |
| Seqs.Dedup | agentic_crawler.py:813 | `list(dict.fromkeys(q))` has no repeats and holds exactly the elements of `q` |
| Seqs.DedupOrder | agentic_crawler.py:813 | the de-duplicated queue keeps the order of first occurrences |
| Ranking.SortDescSorted | agentic_crawler.py:211 | the stable descending sort puts higher scores first |
| Ranking.SortDescPermutes | agentic_crawler.py:211 | the sort is a permutation of its input |
| Ranking.SortDescStable | agentic_crawler.py:211 | items of equal score keep their input order |
| Ranking.SortDescFrom | agentic_crawler.py:211 | every sorted item comes from the input |
| Scoring.Clamp | agentic_crawler.py:197 | `max(0, min(10, score))` lies in 0..10, is the identity inside it and saturates at both ends |
| Scoring.HeuristicScore | agentic_crawler.py:150-197 | the heuristic link score always lies in 0..10 |
| Scoring.LinkScore | agentic_crawler.py:150-197 | the accumulating loop computes exactly the heuristic score |
| Scoring.CountEitherExtremes | agentic_crawler.py:161-163 | no penalty applies exactly when no low-value keyword is in the text or the path; every one applies exactly when each keyword is in one of them |
| Scoring.LoginLinkScoresZero | agentic_crawler.py:150-197 | the anchor "Login to your account" with path "/account/login" and no boosts scores 5−3−3, clamped to 0 |
| Scoring.SelectBestLinksForRecon | agentic_crawler.py:199-233 | the selection loop computes the diverse top-N selection |
| Scoring.ReconSelectionSpec | agentic_crawler.py:199-233 | at most `count` links, each scoring at least 3, at most two per URL pattern, a sub-list of the stable descending order, empty for no links |
| Scoring.PickBound | agentic_crawler.py:218-219 | the selection stops at `count` links |
| Scoring.PickDiverse | agentic_crawler.py:225-231 | no URL pattern is selected more than twice |
| Scoring.PickSplit | agentic_crawler.py:217-233 | the selection loop over a sorted list is the loop over its tail continued from the selection of its head |
| Scoring.PickStep | agentic_crawler.py:217-233 | one more link is selected exactly when fewer than `count` are selected, it scores at least 3 and its pattern has been selected fewer than twice |
| Scoring.PickPrefix | agentic_crawler.py:217-233 | what the loop has selected so far is a prefix of its final selection |
| Scoring.PatternCountPrefix | agentic_crawler.py:215-231 | the per-pattern counts only grow as links are selected |
| Scoring.ReconSelectionGreedy | agentic_crawler.py:205-233 | the sorted list has one entry per link, and the selection grows by each sorted link the loop takes, in order |
| Scoring.SortedPlace | agentic_crawler.py:205-211 | every link appears in the sorted list with its heuristic score |
| Scoring.ReconSelectionComplete | agentic_crawler.py:199-233 | a link scoring at least 3 is left out only when `count` links are already selected or its pattern is already selected twice |
| Scoring.PreScore | main.py:394-429 | the navigator's pre-score lies in 5..11 |
| Scoring.ScoreUrlRelevance | agentic_crawler.py:529-543 | the score record carries the link and its pre-score, and `should_crawl` is always true |
| Scoring.PriorityTiers | main.py:406-428 | priority is low exactly when no boost applies; a pattern or seek bonus plus any other boost gives high; score 11 needs all four boosts |
| Scoring.PreScoreMonotone | agentic_crawler.py:532-534 | learning more high-value patterns never lowers a pre-score |
| Scoring.FindSimilarVisited | agentic_crawler_local.py:116-124 | distinct visited URLs sharing the candidate's pattern, at most `max(limit, 1)`, and all of them when fewer were found |
| Links.AsLink | agentic_crawler.py:519-525 | a kept link carries the normalised URL, its path and at most 200 characters of context |
| Links.ExtractLinks | agentic_crawler_local.py:231-258 | the filtering loop computes the link filter over the page's anchors |
| Links.FilterSound | agentic_crawler_local.py:234-250 | every kept link comes from an anchor that is not avoided, resolves, stays on the domain, is unvisited and has anchor text of at least 2 characters |
| Links.FilterComplete | agentic_crawler_local.py:234-250 | every anchor passing all those tests yields a kept link |
| Links.AvoidRepeatHarmless | agentic_crawler.py:502-503 | repeating the fixed avoid patterns changes no avoid decision |
| Links.MailtoAvoided | agentic_crawler.py:503-505 | a "MAILTO:" href is avoided whatever its case |
| Fences.FenceRoundTrip | main.py:118-125 | the reply "```json" + body + "```" (or a bare fence when bare fences are tried and the body has no "json") yields the stripped body |
| Fences.UnfencedReply | main.py:118-125 | a reply without a fence is parsed as it stands, stripped |
| Fences.UnclosedFence | main.py:118-125 | a fence that is never closed leaves the stripped reply unchanged |
| Objective.AnalyzeObjective | agentic_crawler.py:74-121 | the analysis never changes the objective |
| Objective.AnalysisStored | main.py:127-137 | a decodable, joinable answer is returned and stored, and its data types become the desired data types |
| Objective.AnalysisFallback | main.py:139-150 | a failed call, an unparsable reply or a non-joinable answer returns the fixed default and leaves the goal unchanged |
| Objective.FallbackNotApplied | main.py:134-150 | after a failure the default's avoid list ["login", "signup", "cart"] is not in force: the stored seek and avoid lists are empty |
| Objective.FencedAnalysisStored | agentic_crawler.py:102-118 | a fenced answer is unwrapped and stored |
| Objective.DecodeFenced | agentic_crawler.py:102-111 | decoding a fenced reply parses the stripped body |
| Navigation.PreScored | agentic_crawler.py:548-550 | every considered link is paired with its pre-score, which stays in range |
| Navigation.DigitRunsNumerals | agentic_crawler.py:592 | every run `re.findall(r'\d+', …)` returns is all digits |
| Navigation.Chosen | agentic_crawler.py:593-597 | no more URLs than numbers, each one a top candidate |
| Navigation.ReadNumbers | agentic_crawler.py:593-597 | the index loop maps the numbers to candidates as specified |
| Navigation.AskForNavigation | agentic_crawler.py:545-602 | the navigation method computes the navigation choice from the links and the reply |
| Navigation.RankedIsSortedPermutation | agentic_crawler.py:548-552 | the ranked list is sorted by pre-score, is a permutation of the first 30 links, and the top candidates are its first 12 |
| Navigation.CandidateConsidered | agentic_crawler.py:548-552 | every ranked link is one of the first 30 links |
| Navigation.NavigationBounds | agentic_crawler.py:545-602 | at most 5 URLs, at most 3 on the fallback, each from one of the first 30 links |
| Navigation.ChosenPosition | agentic_crawler.py:548-598 | every chosen URL is the URL of a ranked candidate |
| Navigation.NoneSurvivesStrip | agentic_crawler.py:588-589 | a NONE in the raw answer is still there after stripping |
| Navigation.NoneVetoes | agentic_crawler.py:589-591 | an answer containing NONE in any case selects nothing, whatever numbers it holds |
| Navigation.NoneInsideNumbers | agentic_crawler.py:589-591 | the answer "2,5,NONE-ish-garbage,1" selects nothing |
| Navigation.NumbersReadInOrder | agentic_crawler.py:592-597 | numbers are 1-based, 0 and out-of-range values drop out, and repeats are kept in order |
| Navigation.FallbackBestThree | agentic_crawler.py:600-602 | when the call fails, the first three URLs of the ranked list are chosen, none scoring below a link left out |
| Sections.SectionHeaders | agentic_crawler.py:251 | at most 3 non-empty headers |
| Sections.SemanticSection | agentic_crawler.py:246-259 | the section carries its id and tag, a name of at most 50 characters and a preview of at most 400 |
| Sections.DivSection | agentic_crawler.py:276-286 | a div section carries its id, the tag "div" and a preview of at most 400 characters |
| Sections.SemanticOrigins | agentic_crawler.py:241-261 | the semantic sections come from distinct blocks in document order |
| Sections.DivOrigins | agentic_crawler.py:263-292 | at most 8 div sections, from distinct blocks in document order |
| Sections.SemanticLoop | agentic_crawler.py:241-261 | the loop builds the semantic sections |
| Sections.DivLoop | agentic_crawler.py:263-292 | the loop builds the div sections and stops at 8 |
| Sections.IdentifySections | agentic_crawler.py:235-297 | the method returns the page's sections |
| Sections.SemanticComplete | agentic_crawler.py:241-244 | a block is a semantic section exactly when it is a section, article or main element with at least 50 characters of text |
| Sections.DivComplete | agentic_crawler.py:267-273 | a block is a div section exactly when it is a class-bearing div with at least 100 characters, not inside a captured div, found before the limit of 8 |
| Sections.DivSaturated | agentic_crawler.py:291-292 | once 8 div sections are found, later blocks change nothing |
| Sections.NestedDivSkipped | agentic_crawler.py:272-273 | a div inside an already captured div is skipped |
| Sections.SectionsShape | agentic_crawler.py:235-297 | at most 8 sections, numbered in order, with bounded name, headers and preview; two semantic sections win over divs |
| Sections.TwoSemantic | agentic_crawler.py:264 | two semantic sections need two qualifying semantic blocks |
| Sections.TwoDivs | agentic_crawler.py:264-292 | two div sections need two qualifying divs |
| Sections.FewCandidatesWholePage | agentic_crawler.py:309-314 | a page with at most one qualifying block of each kind is analysed whole |
| Knowledge.InsertAbsent | agentic_crawler.py:488-489 | insert-if-absent keeps the old list as a prefix, contains the pattern and grows by at most one |
| Knowledge.SiteKnowledge.constructor | agentic_crawler.py:51-65 | a new store is empty, with the initial site understanding |
| Knowledge.SiteKnowledge.Update | agentic_crawler.py:482-492 | the in-place update performs the learning step and leaves the site understanding alone |
| Knowledge.SiteKnowledge.Absorb | agentic_crawler.py:774 | `site_understanding.update` replaces the analysed keys and leaves the learned state alone |
| Knowledge.RelevanceAlwaysRecorded | agentic_crawler.py:483-484 | the reported relevance is always written for the URL |
| Knowledge.BelowThresholdOnlyRelevance | agentic_crawler.py:485 | below the threshold, or with a non-numeric relevance, only the relevance map changes; a non-numeric one raises |
| Knowledge.HighValueLearned | agentic_crawler.py:485-492 | at or above the threshold the URL is appended, the pattern is inserted if absent (no repeats, order kept), and the entry goes to its page-type bucket when the page type is truthy |
| Knowledge.InsertNoDup | agentic_crawler.py:488-489 | appending an absent pattern keeps the patterns free of repeats |
| Knowledge.PatternInsertIdempotent | agentic_crawler_local.py:219-221 | learning the same page twice inserts its pattern only once |
| Knowledge.ThresholdsDiffer | main.py:312 | relevance 6 is high-value at threshold 6 but not at 7, the threshold of main.py |
| Knowledge.UnhashableTypeRaises | agentic_crawler.py:490-492 | a list or object page type raises after the URL is recorded and before any bucket changes |
| Knowledge.DistinctTypes | agentic_crawler.py:662-668 | the page-type keys, no more than the pages |
| Knowledge.DistinctTypesCover | agentic_crawler.py:662-668 | every page type has a key |
| Knowledge.AnalyzeSiteStructure | agentic_crawler.py:660-714 | the structure analysis has a result exactly when every page type is hashable |
| Knowledge.StructureFallbackSpec | agentic_crawler.py:712-714 | an unreadable answer gives at most two of the seen page types, the learned patterns and the strategy "continue_deep" |
| Extraction.CrawlPageSpec | agentic_crawler.py:604-634 | a page record exists only for a fetched page, and it is keyed by its URL |
| Extraction.ExtractWholePage | agentic_crawler.py:415-480 | whole-page extraction, with the site knowledge updated in place |
| Extraction.MergeSectionReplies | agentic_crawler.py:378-396 | the merge loop computes the merged section result |
| Extraction.ExtractBySections | agentic_crawler.py:316-413 | section-wise extraction with its fallback to the whole page |
| Extraction.ExtractContent | agentic_crawler.py:299-314 | the dispatch between section-wise and whole-page extraction |
| Extraction.CrawlPage | agentic_crawler.py:604-634 | the page-crawling method computes the page record and the new knowledge |
| Extraction.FallbackShape | main.py:290-303 | the fallback extraction has type "unknown", relevance 5, at most 15 non-empty headers and an excerpt of at most 500 characters of the page text |
| Extraction.WholePageUnreadable | agentic_crawler.py:474-480 | an unreadable answer gives the fallback extraction and learns nothing |
| Extraction.WholePageAnswerUsed | agentic_crawler.py:475-477 | a readable answer learned without error is the extraction |
| Extraction.WholePageLearnRaises | agentic_crawler.py:476-480 | an answer whose learning raises gives the fallback, with what was learned before the error kept |
| Extraction.SectionWiseUsed | agentic_crawler.py:398-407 | a merged answer learned without error is the section-wise result |
| Extraction.SectionWiseLearnRaises | agentic_crawler.py:406-413 | an error while learning the merged answer falls back to the whole page, keeping what was learned |
| Extraction.SectionWiseUnmerged | agentic_crawler.py:408-413 | an unreadable or unmergeable section answer falls back to the whole page |
| Extraction.SectionFailureFallsBack | agentic_crawler.py:408-413 | any section-wise failure gives the whole-page result |
| Extraction.DispatchRule | agentic_crawler.py:309-314 | sections are analysed one by one exactly when the variant does so and there are at least two |
| Extraction.MergeScores | agentic_crawler.py:380-384 | the merge collects one numeric score per returned section, in order |
| Extraction.MergeFailureSticks | agentic_crawler.py:380-389 | an item that raises makes the whole merge fail |
| Extraction.MergeKeyPresent | agentic_crawler.py:386-388 | a key is in `key_content` exactly when some section scoring at least 4 with extracted content writes it |
| Extraction.MergeKeyLast | agentic_crawler.py:386-388 | the content under a key is that of the last section writing it |
| Extraction.BestIsMaximum | agentic_crawler.py:391 | the overall relevance is a section score no lower than any other |
| Extraction.BestIsFirst | agentic_crawler.py:391 | `max` returns the first of the highest scores |
| Extraction.MergeBest | agentic_crawler.py:391 | the overall relevance is numeric: the maximum of the returned scores, or 0 when none is returned |
| Extraction.MergedRelevance | agentic_crawler.py:385-400 | the merged relevance is the best section score, or 0, and the reasoning reports the section count and that score |
| Extraction.MergedKeyContent | agentic_crawler.py:380-396 | `key_content` holds exactly the keys written by sections scoring at least 4, each with its last writer's content |
| Extraction.MergedPassesChecks | agentic_crawler.py:614-632 | a merged result passes the record checks of `_crawl_page` |
| Extraction.SectionKeyCases | agentic_crawler.py:388 | `section_{id}_{name}` with Python indexing: an id past the end repeats itself, a negative id counts from the end, True is 1, and a non-number raises |
| Extraction.ExtractRelevanceNumeric | agentic_crawler.py:611-612 | every extraction kept reports a numeric relevance |
| Extraction.RecordKept | agentic_crawler.py:604-634 | a record is kept exactly when the page is fetched and its extraction passes the checks; it carries the URL, the extraction and its relevance |
| Extraction.FailedFetchLearnsNothing | agentic_crawler.py:607-609 | a failed fetch gives no record and changes no knowledge |
| Crawl.Unvisited | agentic_crawler.py:799 | the URLs not yet visited |
| Crawl.Enqueued | agentic_crawler.py:766-768 | the queue is extended, never reordered, by at most the given URLs; a URL is new in it exactly when it is given, unvisited and not already queued, so every given unvisited URL ends up queued; a clean queue stays free of repeats and of visited URLs |
| Crawl.Followed | agentic_crawler.py:759-768 | following a record only appends, keeps a clean queue clean, adds only unvisited URLs the phase chooses from the page's links, and adds every such URL when the page has links |
| Crawl.FollowAll | agentic_crawler.py:757-768 | following a batch's records only extends the queue and keeps it clean |
| Crawl.FollowAllStep | agentic_crawler.py:757-768 | following one more record is `Followed` on the queue the earlier records left |
| Crawl.Marked | agentic_crawler.py:639-642 | a URL is visited after a batch is marked exactly when it was visited before or is in the batch |
| Crawl.RoundSize | agentic_crawler.py:738-739 | the batch size is within the queue and the budget left, and at least 1 |
| Crawl.RoundTasks | agentic_crawler.py:741-746 | the popped URLs that are crawled are free of repeats and of visited URLs, and no more than the batch size |
| Crawl.BatchGrows | agentic_crawler.py:741-768 | a batch grows the visited set by exactly its tasks and extends the log; an empty batch only drops the popped URLs (`continue`); a clean rest keeps the queue clean |
| Crawl.RoundProgresses | agentic_crawler.py:736-769 | each round visits a new URL or, visiting none, shortens the queue, and never exceeds the budget, so a phase ends |
| Crawl.RoundClean | agentic_crawler.py:741-768 | from a clean queue a round crawls exactly the popped URLs, visits the queue's head and leaves a clean queue |
| Crawl.PhaseVisitsHead | agentic_crawler.py:736-769 | a phase started below its budget visits the head of its queue |
| Crawl.FreshCount | agentic_crawler.py:639-642 | marking distinct unvisited URLs grows the visited count by their number |
| Crawl.PhaseEnds | agentic_crawler.py:736-769 | a phase ends with an empty queue or a full budget, only grows the visited set and the log, and visits at most the budget or what was already visited |
| Crawl.CleanRest | agentic_crawler.py:741-746 | what is left of a clean queue after the pop is free of repeats and of the URLs visited after the batch is marked |
| Crawl.CrawlAllRecords | agentic_crawler.py:646-656 | every batch record comes from a task, with a fetched page |
| Crawl.CrawlAllInOrder | agentic_crawler.py:646-656 | batch results keep dispatch order |
| Crawl.SeedLinks | agentic_crawler.py:783-813 | no seed is visited |
| Crawl.PickedBound | agentic_crawler.py:763 | a page contributes at most the selection's count of links |
| Crawl.SeedSources | agentic_crawler.py:786-811 | each seed is chosen from a page relevant enough whose links could be read |
| Crawl.SeedBound | agentic_crawler.py:799-811 | at most the selection count of seeds per logged page |
| Crawl.NumericScores | agentic_crawler.py:857 | the numeric part of the relevance map |
| Crawl.SummaryAsWritten | agentic_crawler.py:857 | as written, the summary is lost exactly when a recorded relevance is not a number |
| Crawl.NullRelevanceBreaksSummary | agentic_crawler.py:857 | a reply decoding to a null relevance logs a fallback page and breaks the summary |
| Crawl.CrawlSummary | agentic_crawler.py:852-859 | the corrected summary counts the pages and the high-value pages and averages the numeric scores |
| Crawl.NullRelevanceSkipped | agentic_crawler.py:857 | with the correction, the same crawl summarises one page and no scores |
| Crawl.SummaryAgrees | agentic_crawler.py:857 | when every relevance is numeric, the corrected and the original summary agree |
| Crawl.Crawler.constructor | agentic_crawler.py:51-65 | a new crawler has an empty visited set, log and knowledge, and no base domain |
| Crawl.Crawler.AnalyzeUserObjective | agentic_crawler.py:74-121 | the objective analysis updates the goal as specified |
| Crawl.Crawler.MarkVisited | agentic_crawler.py:639-642 | the new URLs of a batch are marked visited before any fetch |
| Crawl.Crawler.CrawlBatch | agentic_crawler.py:636-658 | visited grows by exactly the new URLs, and the records and knowledge are those of crawling them in order |
| Crawl.Crawler.PickUrls | agentic_crawler.py:763 | the link choice of the variant |
| Crawl.Crawler.Enqueue | agentic_crawler.py:766-768 | a link is appended when neither visited nor queued |
| Crawl.Crawler.AppendUnvisited | agentic_crawler.py:799 | the picked links not visited, appended in order |
| Crawl.Crawler.FollowRecord | agentic_crawler.py:759-768 | the record is logged, and the queue afterwards is `Followed`: the links chosen from the page fetched again, appended when neither visited nor queued |
| Crawl.Crawler.FollowLinks | agentic_crawler.py:757-768 | the batch's records are logged in order, and the queue afterwards is `FollowAll`, the records followed one after another; it extends the old queue and stays clean |
| Crawl.Crawler.RunRound | agentic_crawler.py:737-768 | one round leaves the visited set, the log, the knowledge and the queue equal to `Round`: the first `min(batch, budget left, queue length)` URLs are popped, the unvisited ones crawled and marked, the records logged and their links queued; only newly visited pages are logged |
| Crawl.Crawler.RunBatch | agentic_crawler.py:754-768 | crawling the popped URLs, logging the records and following them onto the rest of the queue leaves the state equal to `Batch`; only newly visited pages are logged |
| Crawl.Crawler.RunPhase | agentic_crawler.py:736-769 | a phase leaves the visited set, the log, the knowledge and the queue equal to `Phase`, rounds repeated while the queue is not empty and the budget not reached; it ends with an empty queue or a full budget, never exceeds the budget, keeps the queue clean, logs only newly visited pages and visits the queue's head |
| Crawl.Crawler.SeedQueue | agentic_crawler.py:783-813 | the deep queue is the de-duplicated seeds, free of visited URLs |
| Crawl.Crawler.CrawlWebsite | agentic_crawler.py:716-860 | the state is the reconnaissance `Phase` from the start URL; the crawl stops with `None` exactly when the structure analysis raises, and otherwise absorbs the analysis and ends in the guided deep `Phase` from the de-duplicated seeds, returning the summary of its log; it visits the start URL and stays within the budgets |
| Crawl.Crawler.Reconnoitre | agentic_crawler.py:720-770 | the base domain is the start URL's, and the state equals the reconnaissance `Phase` from the start URL within `max(5, max_pages // 10)`, following the variant's link choice; the start URL is visited |
| Crawl.Crawler.DeepCrawl | agentic_crawler.py:783-850 | the state equals the guided `Phase` within `max_pages` from the de-duplicated seeds of the log |
| Crawl.CrawlEach | agentic_crawler.py:646-656 | the batch's pages are crawled in dispatch order, failures dropped |
| Reports.Kept | agentic_crawler.py:966-969 | the kept pages, no more than the logged ones |
| Reports.SaveResults | agentic_crawler.py:950-970 | the page count is the log's length, and the high-value count is at most the entry count, which is at most the page count |
| Reports.SaveResultsSpec | agentic_crawler_local.py:585-604 | an entry exists exactly for each logged page with relevance at least 4, in log order; high-value pages are those with relevance at least 6 |
| Reports.JsonEntries | main.py:798-805 | one entry per page kept at relevance 5, in order |
| Reports.SaveToJson | main.py:792-812 | the loop builds exactly those entries |
| Reports.JsonEntriesSpec | main.py:798-805 | an entry exists exactly for each logged page with relevance at least 5, projected to URL, content and relevance, in log order |
| Reports.KeptExactly | agentic_crawler.py:966-969 | a page is kept exactly when it is logged with enough relevance |
| Reports.KeptInOrder | agentic_crawler.py:966-969 | kept pages keep their log order |
| Reports.KeptNarrows | agentic_crawler.py:953-969 | the pages kept at relevance 6 are a sub-list of those kept at 4 |

## Left out

- LLM calls (`ollama.generate` through `run_in_executor`) and crawl4ai fetches (`crawler.arun`) are oracles. They are deterministic functions of the URL or the prompt's subject, so any later fetch of the same URL sees the same page.
- `json.loads` is an opaque partial function from text to a JSON value.
- JSON floats are not modelled: every decoded number is an integer, and a page's relevance is an `int`.
- Prompt construction, every `print`, timestamps and `metadata` are left out.
- The files written by `save_results` and `save_to_json` are left out, as is the `objective` field they carry. Only the record filters are modelled.
- `historical_avg` (agentic_crawler.py:532-542) is float division that no decision reads, and the printed average relevance is a float. The model keeps only the numeric scores being averaged.
- `asyncio.gather` is modelled as a sequential loop in dispatch order. The model does not capture interleaving between the tasks of a batch: each task's knowledge update is applied in dispatch order.
- `concurrency` is required to be at least 1. With 0 the reconnaissance loop in agentic_crawler.py would spin forever, and `main()` clamps the value to 1..10.
- `urljoin` and `urlparse` are library calls. Anchors arrive already resolved, as an optional parsed URL where `None` stands for a parse that raises.
- The BeautifulSoup work (text extraction, `decompose`, `find_parent` flags, nesting tests) is not modelled. Blocks and anchors arrive as records of what BeautifulSoup reports. "Nested in a captured div" is modelled via the block's parent.
- Unicode case folding and normalisation are not modelled: `lower()`/`upper()` act on ASCII letters only, and `\d` (agentic_crawler.py:590) and `str.isdigit()` (agentic_crawler.py:134, in `Urls.Generalize`) match ASCII digits only.
- The in-place growth of the stored avoid list through `.extend` (agentic_crawler.py:502-503) is not modelled; each call uses the stored list plus the fixed patterns. `Links.AvoidRepeatHarmless` shows the repeats change no decision.
- The stale `links` variable in main.py:762-766 is not modelled.
- JsonValue.StrItems: reads a JSON list by keeping its string items and skipping the others, reads a JSON string as its characters, and gives `[]` for an object, a number, a boolean or null. Python iterates an object's keys, raises on `.lower()` of a non-string item, and raises `TypeError` when it iterates a number or null. The stored seek, avoid and data-type lists are read through it, so the cases below follow from it.
- Scoring.HeuristicScore: an object as `data_types` or `url_patterns_to_seek` gives no bonus, where Python iterates its keys (agentic_crawler.py:186-188, 192-194). A non-string item is skipped, where `pattern.lower()` raises (agentic_crawler.py:188, 194). A null or numeric seek field gives no bonus, where the `for` raises `TypeError`. These raise outside any `try` of the crawl loops (agentic_crawler.py:762, 842; main.py:707, 764; agentic_crawler_local.py:441, 480), so the crawl is lost. Only the deep-phase seeding (agentic_crawler.py:791-797) catches them, and then it seeds nothing from that page.
- Scoring.PreScore: an object seek field gives no bonus, where Python iterates its keys, and a non-string item is skipped, where `pattern.lower()` raises (agentic_crawler.py:540). The raise is outside any `try` of the deep loop (agentic_crawler.py:842).
- Links.ExtractLinks: a stored avoid field that is a string, an object, a number or null is read as described under `JsonValue.StrItems`, where `.extend` raises (agentic_crawler.py:502-503, main.py:343-344, agentic_crawler_local.py:234-235). A non-string avoid item is skipped, where `pattern.lower()` raises (agentic_crawler.py:504). These raise outside any `try` of the crawl loops, as for `Scoring.HeuristicScore`.
- Knowledge.SiteKnowledge.Absorb: drops the analysis's `high_value_url_patterns` and `content_patterns` keys, which `update` (agentic_crawler.py:774) installs over the learned ones. The model keeps learning into its own pattern list and content map instead. With the code as written, an analysis carrying `"content_patterns": []` makes every later high-value page with a page type raise at agentic_crawler.py:492, and one carrying an object raises there for each page type the object lacks; those pages get the fallback extraction. An analysis carrying `high_value_url_patterns` restarts the learned pattern list from it.
- Crawl.Crawler.CrawlWebsite: returns the corrected summary `Crawl.CrawlSummary`, where agentic_crawler.py:857 raises when a recorded relevance is not a number (see "## Findings"). `Crawl.SummaryAsWritten` models the raise.
- The aliasing between `high_priority_patterns` and the learned pattern list in the structure fallback is not modelled.
- Crawl.Crawler.CrawlWebsite: an unhashable page type in `_analyze_site_structure` raises an uncaught exception. The model returns `None` in that case instead of propagating it.
- Crawl.Crawler.CrawlWebsite: `crawl_objective` is set by the interactive `main()` before the crawl. The model takes the objective as the constructor's argument.
- Extraction.SectionKeyCases: `True` renders as "True" and `1` as "1" in the key, and both index a section as 1. `float` ids are not modelled.
- `generate_ai_answer`, the interactive `main()`, convert_to_markdown.py, usage_examples.py, example.py and config.py are outside the crawl decision: report text, prompts, demos and constants.

## Findings

| source | as written | input that shows it | evidently intended | confidence | as-written member | corrected member |
|---|---|---|---|---|---|---|
| agentic_crawler.py:857 | the crawl summary sums `page_relevance_scores.values()`. `_update_site_knowledge` records the reported relevance before comparing it, so a non-numeric relevance stays in the map and the `sum` raises `TypeError` outside any `try`. The whole crawl is lost (the same line is main.py:787 and agentic_crawler_local.py:494). | a whole-page answer that decodes to `{"relevance_score": null}`: the page is logged with the fallback extraction, and `None` is left in the relevance map | the summary is computed over the numeric relevances, and the crawl returns its log | not executed | Crawl.SummaryAsWritten, Crawl.NullRelevanceBreaksSummary | Crawl.CrawlSummary, Crawl.NullRelevanceSkipped, Crawl.SummaryAgrees |
