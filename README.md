# Reviews Copilot backend, modelled in Dafny

This project models the Python backend of Reviews Copilot, a service that stores restaurant reviews and answers questions about them. The backend has four parts:

- **Endpoints** (`backend/main.py`). Each request is authenticated with a bearer key. Each endpoint can be switched off by a setting. Reviews can be ingested, listed with filters and pages, looked up, analysed in a batch, summarised as analytics and searched by similarity. The service can suggest a reply to a review.
- **Data layer** (`backend/database.py`). It holds a SQLite `reviews` table. It builds the filtered, paginated listing query, inserts batches with `INSERT OR REPLACE`, updates a review's analysis and counts groups for the analytics.
- **AI service** (`backend/ai_service.py`). The ML models are not modelled. The model keeps what the service does around them:
  - normalising sentiment labels
  - keyword topic extraction
  - the truncating summary
  - cleaning generated replies
  - the template replies
  - the health report
  - the bookkeeping of the search index
- **Settings** (`backend/config.py`). The defaults, the comma-list validators and the log-level validator.

Each module of the project matches a part of the backend:

| module | file | models |
|---|---|---|
| `Common` | common.dfy | `Option` and `Result` |
| `Text` | text.dfy | the `str` operations the backend uses: `strip`, `split`, `join`, `lower`, `in`, `replace`, `rsplit`, `str(int)` |
| `Config` | config.dfy | the settings |
| `Database` | database.dfy | the table, modelled as a map from id to row. Its operations are methods of a `DatabaseManager` class. |
| `Analytics` | analytics.dfy | the `GROUP BY` counts |
| `Topic` | topic.dfy | keyword topic extraction |
| `Reply` | reply.dfy | cleaning generated replies and the fallback replies |
| `AiService` | ai_service.dfy | sentiment, summary, health, and the `AIService` class with its search index |
| `Api` | api.dfy | the endpoints |

The model takes its inputs from outside as parameters:

- the outcome of running a SQL statement
- an exception the database raises
- the sentiment model's label
- the similarities computed by TF-IDF and their `argsort`
- the measured times

Where a code path depends on something outside the model, the parameter decides which branch is taken.

The browser client that calls this API is not part of this model: retries, backoff and health polling live on the client side. The code is followed wherever the test file disagrees with it. For example, `backend/test_main.py:70` expects the 404 detail "Review not found". The handler produces "Review with ID <id> not found", and so does the model.

## Model

| member | source | states |
|---|---|---|
| Text.Strip | backend/config.py:87 | `str.strip()`: the result has no whitespace at either end (Python's whitespace set). It is the input with only whitespace removed from the two ends. |
| Text.LStrip | backend/ai_service.py:317 | The left half of `strip`. It removes a prefix made only of whitespace and stops at a character that is not whitespace. |
| Text.RStrip | backend/ai_service.py:317 | The right half of `strip`. It removes a suffix made only of whitespace. |
| Text.Split | backend/ai_service.py:320 | `str.split(sep)`: there is one more piece than separators, and no piece contains the separator. |
| Text.JoinSplit | backend/ai_service.py:320 | Joining the pieces of `split(sep)` with `sep` gives back the original string. |
| Text.Join | backend/ai_service.py:334 | `sep.join(parts)`: no parts give the empty string. Otherwise the result starts with the first part, followed by the separator when there is a second part. |
| Text.JoinEndsWithLast | backend/ai_service.py:334 | The join of at least one part ends with the last part. |
| Text.JoinCons | backend/database.py:239 | With a part in front of at least one other, the join is that part, the separator, then the join of the rest. |
| Text.Lower | backend/ai_service.py:182 | `lower()` keeps the length and maps each character to its lower-case form (ASCII letters only). |
| Text.ContainsIff | backend/ai_service.py:197 | The substring test `keyword in text` holds exactly when the keyword occurs at some position. |
| Text.MissingCharNotContained | backend/ai_service.py:146-151 | A needle with a character absent from the text does not occur in it. |
| Text.ContainsSlice | backend/ai_service.py:197 | Every slice of a text occurs in it. |
| Text.RemoveAll | backend/ai_service.py:317 | `replace(prompt, "")` never lengthens the text. |
| Text.RemoveAbsent | backend/ai_service.py:317 | Removing a pattern that does not occur leaves the text unchanged. |
| Text.BeforeLast | backend/ai_service.py:346 | `rsplit(' ', 1)[0]`: the result is a prefix of the input. If there is no space, it is the whole input. Otherwise it ends right before the last space. |
| Text.BeforeLastKeeps | backend/ai_service.py:346 | A space at position k means the kept prefix has at least k characters. |
| Text.NatToString | backend/main.py:216 | `str(n)`: one or more decimal digits, with no leading zero. |
| Text.NatToStringValue | backend/main.py:216 | Reading the digits of `str(n)` back gives n. |
| Text.Upper | backend/config.py:105 | `upper()` keeps the length and maps each character to its upper-case form (ASCII letters only). |
| Text.IntToString | backend/main.py:310 | `str(i)`: it starts with '-' exactly for a negative i. |
| Text.IntToStringInjective | backend/main.py:403 | Different integers render differently. |
| Config.DefaultsWithinBounds | backend/config.py:77-81 | The default page size (10) and result count (20) lie within the bounds the endpoints validate, and the page size is within `max_page_size`. |
| Config.ParseCommaList | backend/config.py:84-100 | Text is split on ',' and each piece is stripped. There is one item per comma plus one, each stripped, comma-free and trimmed from its piece. A list passes through unchanged. |
| Config.ParseJoinedList | backend/config.py:84-100 | Items without commas or whitespace, joined with ',', parse back to the same items. |
| Config.SplitJoin | backend/config.py:87 | Splitting separator-free pieces joined on the separator gives the pieces back. |
| Config.ValidateLogLevel | backend/config.py:102-108 | The result is always one of the five level names. It is the upper-cased input when that is a level name, and "INFO" otherwise. |
| Config.LogLevelIdempotent | backend/config.py:102-108 | Validating an already validated level changes nothing. |
| Config.LogLevelKeepsValid | backend/config.py:102-108 | A level is kept, upper-cased, exactly when its upper-cased form is a level name. |
| Database.Active | backend/database.py:211-237 | The filters that add a condition are in the builder's order. A filter adds one exactly when `filters.get(key)` is truthy. |
| Database.AddFilter | backend/database.py:211-237 | One filter test appends its condition and parameter exactly when the filter is truthy. `q` is bound as `%q%`. |
| Database.BuildConditions | backend/database.py:207-237 | The conditions and parameters list the truthy filters in builder order, each with its condition text and bound value. |
| Database.WhereClause | backend/database.py:239 | The clause is empty exactly when there are no conditions. Otherwise it is " WHERE " followed by the conditions joined with " AND ". |
| Database.FilterParam | backend/database.py:211-237 | The search text `q` is bound wrapped in '%' on both sides, for a substring `LIKE`. Every other filter value is bound as it is. |
| Database.NoConditionsIffNoFilters | backend/database.py:207-239 | There are no conditions exactly when no filter is truthy. |
| Database.PageOffset | backend/database.py:246 | For page ≥ 1 the offset is never negative, and offset plus page size equals page × page size. |
| Database.RowOf | backend/database.py:266-281 | The bound row copies the record, missing sentiment and topic become NULL, and the metadata is the fixed JSON text. |
| Database.LastWithId | backend/database.py:261 | The position of the last row with an id, or -1 when no row has it. |
| Database.UpsertAllAt | backend/database.py:258-283 | After `INSERT OR REPLACE` of a batch, an id in the batch holds the last row with that id, and every other id keeps its row. |
| Database.UpsertAllKeyed | backend/database.py:258-283 | Upserting keeps every row stored under its own id. |
| Database.UpsertAll | backend/database.py:258-283 | After the batch, the table holds exactly the ids it held before plus the ids of the batch. |
| Database.DatabaseManager.constructor | backend/database.py:24-45 | The table is created only if the file does not have it yet (`CREATE TABLE IF NOT EXISTS`). The manager therefore starts from the rows already stored, which is no rows for a fresh file. |
| Database.DatabaseManager.GetReviewById | backend/database.py:195-203 | A fault gives an error. Otherwise the result is absent exactly when the id is not in the table, and is the stored row when present. |
| Database.DatabaseManager.GetReviewsPaginated | backend/database.py:205-256 | The count and page queries share the WHERE clause of the truthy filters. The page query binds the same parameters plus page size and offset, with offset `(page-1)*page_size`. |
| Database.DatabaseManager.InsertReviews | backend/database.py:258-283 | A fault, or any rating outside 1..5 (the CHECK constraint), leaves the table unchanged and reports the error. Otherwise the table is the old one with every row upserted, and the count is the batch size. |
| Database.DatabaseManager.ScanReviews | backend/database.py:318-335 | A `SELECT` over the table returns every row exactly once, in some order. |
| Database.DatabaseManager.UpdateReviewAiData | backend/database.py:285-298 | The result is true exactly when no fault occurred and the id exists. Then only that row's sentiment and topic change. Otherwise nothing changes. |
| Database.Rows | backend/database.py:266-281 | One bound row per review, in order. |
| Database.UpdatedAi | backend/database.py:287-291 | The UPDATE keeps the set of ids and sets the sentiment and topic of the one row. Every other row is unchanged. |
| Database.ScanLength | backend/main.py:397-399 | A scan has as many rows as `SELECT COUNT(*)` counts. |
| Analytics.CountOfPositive | backend/database.py:318-335 | A value has a positive count exactly when it occurs, and no count exceeds the number of rows. |
| Analytics.Distinct | backend/database.py:318-335 | The groups of a `GROUP BY`: every value once. |
| Analytics.GroupCounts | backend/database.py:318-335 | `dict(SELECT v, COUNT(*) ... GROUP BY v)` has a key exactly for each value that occurs. |
| Analytics.GroupCountsTotal | backend/database.py:318-335 | The group counts add up to the number of values counted. |
| Analytics.Present | backend/database.py:318-325 | `WHERE col IS NOT NULL` keeps exactly the set values. |
| Analytics.ComputeAnalytics | backend/database.py:300-335 | A sentiment, topic, location or rating is a key exactly when some row has it. Sentiment and topic count only non-NULL values. Each location count lies between 1 and the number of rows. |
| Analytics.AnalyticsTotals | backend/database.py:318-335 | The location and rating counts each add up to the number of rows. The sentiment and topic counts add up to the number of rows where that column is set. |
| Topic.BestIndex | backend/ai_service.py:201-202 | `max(topic_scores, key=...)` gives a topic with the highest score, and the first such topic in the dict's order. |
| Topic.PickTopic | backend/ai_service.py:180-212 | The result is always one of the six topics. With no keyword it is "service". Otherwise it is the first topic with the highest score, and that score is positive. |
| Topic.ExtractTopicFallback | backend/ai_service.py:180-212 | The scoring loops and the argmax compute exactly `PickTopic`. |
| Topic.CountKeywords | backend/ai_service.py:195-198 | The inner scoring loop computes exactly `KeywordScore`. |
| Topic.KeywordScorePositive | backend/ai_service.py:196-198 | A topic scores exactly when one of its keywords occurs in the lower-cased text. |
| Topic.DefaultWhenNoKeyword | backend/ai_service.py:206-212 | A text with no keyword of any topic gets "service". |
| Topic.KeywordMakesTopicScore | backend/ai_service.py:196-204 | A keyword in the text makes the chosen topic score at least as high as that keyword's topic. |
| Topic.KeywordScore | backend/ai_service.py:196-198 | A topic's score is at most its number of keywords. It is 0 when none occurs in the text, and that number when all of them occur. |
| Topic.KeywordScorePrefix | backend/ai_service.py:197 | Fewer keywords never score more. |
| Topic.ExpensiveCountsTwice | backend/ai_service.py:189 | "expensive" is listed twice under price, so it gives price at least 2. |
| Reply.KeptLines | backend/ai_service.py:323-332 | Every kept line is stripped, non-empty and starts with none of the metadata prefixes. There are never more kept lines than lines. |
| Reply.KeptLinesAppend | backend/ai_service.py:323-332 | Filtering a concatenation of lines filters each part separately: the filter looks at one line at a time, in order. |
| Reply.KeptLinesSingle | backend/ai_service.py:324-332 | A single line is kept, stripped, exactly when its stripped form is non-empty and starts with no metadata prefix. |
| Reply.KeptLinesStep | backend/ai_service.py:323-332 | One more line of input adds at most that line, stripped, to the end of the output. |
| Reply.Lines | backend/ai_service.py:317-320 | The text the filter works on, with the prompt removed and the ends stripped, is split into at least one line. No line holds a newline, and joining the lines with newlines gives the text back. |
| Reply.FormatReply | backend/ai_service.py:336-347 | The reply is 1 to 301 characters and ends in '.', '!' or '?'. Without an acknowledgement it starts with "Thank you for your feedback!". A short reply that already has an acknowledgement keeps its text. |
| Reply.WithOpening | backend/ai_service.py:336-338 | The text with its opening is never empty and ends with the joined lines. |
| Reply.FormatReplyFits | backend/ai_service.py:336-347 | A text with its opening of at most 300 characters (counting the added period) is kept whole, with a period added when it does not end in '.', '!' or '?'. |
| Reply.FormatReplyCut | backend/ai_service.py:344-346 | A longer text is cut to its first 300 characters, up to just before the last space among them (all 300 when there is none), and closed with a period. |
| Reply.CutAtWord | backend/ai_service.py:346 | `head.rsplit(' ', 1)[0] + '.'`: a prefix of the head ending right before its last space, or the whole head without a space, then a period. |
| Reply.CutKeepsOpening | backend/ai_service.py:345-346 | Cutting at the last space keeps the added opening. |
| Reply.CleanGeneratedReply | backend/ai_service.py:311-348 | Empty input gives "". Otherwise the reply is the kept lines joined with spaces, then given an opening, punctuation and the length cap. |
| Reply.FilterLines | backend/ai_service.py:320-332 | The line filter loop computes exactly `KeptLines`. |
| Reply.FinishReply | backend/ai_service.py:336-347 | The three final steps, applied in sequence, compute `FormatReply`. |
| Reply.NothingKeptGivesOpening | backend/ai_service.py:334-342 | When every line is dropped, the reply is the opening followed by '.' after its trailing space. |
| Reply.Fill | backend/ai_service.py:358-391 | Every filled template mentions the topic. |
| Reply.Templates | backend/ai_service.py:358-391 | The pools: positive with rating ≥ 4 has 4 templates, positive otherwise 3, negative with rating ≤ 2 has 4, negative otherwise 2. Any other label takes the 4 neutral templates. |
| Reply.ReplyPool | backend/ai_service.py:350-394 | One candidate reply per template, each mentioning the topic. |
| Reply.GenerateFallbackReply | backend/ai_service.py:350-394 | The reply is one of the pool's replies for the label and rating, and mentions the topic extracted from the review. |
| AiService.NormalizeLabel | backend/ai_service.py:145-151 | "positive" exactly when the label contains positive/joy/love. "negative" exactly when it contains none of those but contains negative/sad/anger. "neutral" otherwise. |
| AiService.NormalizeLabelIdempotent | backend/ai_service.py:145-151 | Normalising a normalised label changes nothing. |
| AiService.BestPrediction | backend/ai_service.py:134 | `max(scores, key=score)` gives the first prediction with the highest score. |
| AiService.ConfidenceLevel | backend/ai_service.py:153-159 | "high" exactly above 0.8, "low" exactly at or below 0.6, "medium" in between. |
| AiService.AnalyzeSentiment | backend/ai_service.py:120-173 | The label is always one of three. No pipeline, a raise, or an empty score list gives the neutral fallback. Otherwise the label of the single prediction, or of the first prediction with the highest score (as Python's `max` picks it), is lower-cased and normalised, and its score is kept. The confidence level follows the score. |
| AiService.Finish | backend/ai_service.py:145-167 | The result normalises the label, keeps the score, and derives the level from it. |
| AiService.SummarizeFallback | backend/ai_service.py:242-248 | A text of up to 100 characters is its own summary. A longer one becomes its first 100 characters followed by "...". |
| AiService.SummarizeTwice | backend/ai_service.py:242-248 | Summarising a summary keeps the original's first 100 characters. |
| AiService.HealthCheck | backend/ai_service.py:466-484 | The status is "degraded", with the message "No AI models loaded", exactly when no pipeline is loaded. |
| AiService.TopIndices | backend/ai_service.py:411 | `argsort()[-k:][::-1]`: the last k indices of the argsort, reversed. For k = 0 that is the whole list. |
| AiService.TopIndicesDescending | backend/ai_service.py:411 | The top indices come in non-increasing similarity. |
| AiService.Hits | backend/ai_service.py:413-420 | There are no more results than ranked indices. |
| AiService.HitsAppend | backend/ai_service.py:413-420 | Collecting hits over a concatenated ranking collects over each part, in order. |
| AiService.HitsAllInRange | backend/ai_service.py:413-420 | When every ranked index lies inside the id list, there is one hit per index, and hit j is the id, similarity and text of ranked index j. |
| AiService.HitsFromRanking | backend/ai_service.py:413-420 | Every result is the id, similarity and text of a ranked index inside the id list. |
| AiService.CollectHits | backend/ai_service.py:413-420 | The result loop computes exactly `Hits`: one hit per ranked index inside the id list, in ranking order. |
| AiService.HitsDescending | backend/ai_service.py:413-420 | Results of a descending ranking are in descending order. |
| AiService.SearchResultsRanked | backend/ai_service.py:396-425 | With a true argsort, the results are in non-increasing similarity, and for k ≥ 1 there are at most k of them. |
| AiService.TextsOf | backend/ai_service.py:434 | `review.get('text', '')` for each document. |
| AiService.IdsOf | backend/ai_service.py:436 | `review.get('id')` for each document. |
| AiService.DocsOf | backend/ai_service.py:512-517 | One document per scanned row, carrying the row's id and text. |
| AiService.AIService.constructor | backend/ai_service.py:36-56 | Starts with no index, empty timing lists and an empty cache. |
| AiService.AIService.UpdateTfidfMatrix | backend/ai_service.py:431-448 | Texts and ids are replaced first. With documents, the vectorizer becomes Fitted with one matrix row per document. If the fit raises, the vectorizer stays Unfitted and the old matrix is kept. |
| AiService.AIService.RefreshSearchIndex | backend/ai_service.py:508-524 | A failed query or an empty table leaves the index as it was. Otherwise the index is rebuilt from the scanned rows. |
| AiService.AIService.SearchSimilarReviews | backend/ai_service.py:396-429 | Without a fitted index the result is empty. Otherwise it is the hits of the top k ranked indices, and the measured time is appended to "search_time". |
| AiService.AIService.CleanupCache | backend/ai_service.py:486-506 | Every timing list and the model cache are emptied, and the search index is dropped. The metric keys are kept. |
| Api.VerifyApiKey | backend/main.py:59-67 | The credential is accepted exactly when it equals the configured key. Otherwise the answer is 401 "Invalid API key". |
| Api.HandlerError | backend/main.py:220-227 | An HTTP error passes through. Any other exception becomes a 500 whose detail is "Error <action>: " followed by the message. |
| Api.HandlerErrorKeepsMessage | backend/main.py:220-227 | Two exceptions in one action give the same 500 exactly when their messages are equal. |
| Api.ServiceHealth | backend/main.py:151-170 | The status is "healthy" exactly when the database probe succeeds, and "degraded" otherwise. The database field carries the probe's error. |
| Api.Records | backend/main.py:195-203 | One record per review, in order. |
| Api.ToRecords | backend/main.py:195-203 | The conversion loop copies the five fields of each review, in order, and leaves sentiment and topic unset. |
| Api.RefreshIndex | backend/ai_service.py:508-524 | A refresh from a scan of the current table. On success the index holds exactly the table's reviews. |
| Api.IngestReviews | backend/main.py:181-227 | The checks run in order: 401, 422 for a rating outside 1..5, 400 for an empty batch, 500 for a database error. Each error leaves the table unchanged. On success the batch is upserted, the message reports the batch size, and the index is rebuilt when AI is enabled. |
| Api.Param | backend/main.py:250-261 | A filter key takes the request's value exactly when that parameter was given. |
| Api.BuildFilters | backend/main.py:250-261 | The filters dict has exactly the given parameters, under their names. |
| Api.NoParametersNoConditions | backend/main.py:250-261 | A request with no filter parameter produces no WHERE clause and no parameters. |
| Api.FloorDiv | backend/main.py:280 | Python's `//` rounds toward minus infinity, for either sign of the divisor. |
| Api.TotalPages | backend/main.py:280 | For a positive page size the page count is the ceiling of total over page size. It is zero exactly for no rows. |
| Api.QueryValid | backend/main.py:235-240 | Ratings in 1..5, page at least 1 (1 when left out), page size in 1..100 when given. A valid query asks for a page of at least 1 and a non-negative row offset. |
| Api.DefaultQueryValid | backend/main.py:233-240 | A request without parameters passes validation and asks for page 1. |
| Api.Paginate | backend/main.py:280-290 | `has_next` holds exactly when the page is before the last, and `has_prev` exactly when page > 1. |
| Api.HasNextIffRowsBeyond | backend/main.py:280-289 | There is a next page exactly when some matching review lies beyond the requested page. |
| Api.GetReviews | backend/main.py:230-297 | The checks run in order: 401, then 422 when a rating is outside 1..5, page < 1, or page_size is outside 1..100. The page defaults to 1 and the page size defaults from settings. The query plan comes from the given filters. A database error, or a page size of 0 (division by zero), gives a 500. Otherwise the page and its pagination fields are returned. |
| Api.NotFound | backend/main.py:308-311 | The 404 answer for an id: its detail is "Review with ID ", the id in decimal, then " not found". |
| Api.NotFoundNamesId | backend/main.py:308-311 | Different ids give different 404 details. |
| Api.GetReview | backend/main.py:300-331 | The checks run in order: 401, then 500 on a lookup error, then 404 exactly when the id is absent. Otherwise the stored row is returned. |
| Api.StoredOr | backend/main.py:356-357 | `stored or computed`: the stored value when it is set and not empty. |
| Api.SuggestReply | backend/main.py:334-380 | The checks run in order: 401, 503 when replies are off, 500, then 404. On success the tags are the stored or computed sentiment and topic, and the reply comes from the template pool. The row is updated exactly when a column was unset and the update did not fail. |
| Api.AnalysisOf | backend/main.py:356-357 | The sentiment is the stored one when set, otherwise the model's. The topic is the stored one when set, otherwise the extracted one. |
| Api.StoreMissingAnalysis | backend/main.py:360-361 | When either column is unset, only that review's sentiment and topic are updated. A failed update changes nothing. |
| Api.RatingKeys | backend/main.py:402-403 | `{str(k): v}`: each rating's count ends up under its own string key, and only ratings become keys. |
| Api.AnalyticsAddUp | backend/main.py:384-410 | The location counts and the rating counts each add up to `total_reviews`. |
| Api.GetAnalytics | backend/main.py:383-420 | The checks run in order: 401, 503 when analytics are off, then 500. Otherwise the answer holds the group counts of a scan of the table, and `total_reviews` equals the table's size. |
| Api.SearchSimilar | backend/main.py:423-457 | The checks run in order: 401, then 422 when `q` is missing or k is outside 1..20, then 503 when search is off. k defaults from settings. The results are in non-increasing similarity, at most k of them. `total` is their number. |
| Api.Unprocessed | backend/main.py:479-480 | The selected rows are exactly the scanned rows whose sentiment or topic is NULL. |
| Api.Analysed | backend/main.py:483-495 | The batch keeps the set of ids. |
| Api.Succeeded | backend/main.py:482-491 | The count of stored analyses never exceeds the number of reviews selected. |
| Api.AllStoredWithoutFaults | backend/main.py:483-495 | Without faults, every selected review is counted. |
| Api.AnalysedSetsColumns | backend/main.py:483-495 | A review whose analysis was stored ends with both columns set. A review with no stored analysis is left unchanged. |
| Api.AnalyseEach | backend/main.py:482-495 | The per-review loop leaves the table and the count as `Analysed` and `Succeeded` describe. A review whose analysis raises is skipped. |
| Api.SerializeStrDict | backend/main.py:460 | The `Dict[str, str]` response model accepts a body exactly when every value is a string. Otherwise the client gets a bare 500. |
| Api.ProcessReviewsBodyAsWritten | backend/main.py:502-506 | The body as built has the keys `message`, `processing_time` and `total_reviews`, with the number of reviews as an integer. |
| Api.ProcessReviewsAsWrittenFails | backend/main.py:502-506 | The body as built, with `total_reviews` an integer, never passes the response model. |
| Api.ProcessReviewsBodySerializes | backend/main.py:502-506 | With the count rendered as text, the body passes, and the count reads back. |
| Api.ProcessReviews | backend/main.py:460-515 | The checks run in order: 401, 503 for batch off, 503 for AI off, then 500. Otherwise the NULL-analysis rows of a scan are analysed and stored, the count reports the stored updates, and the index is rebuilt. The answer is the corrected body (see Findings). |

## Left out

- Machine-learning inference is not modelled: the Hugging Face pipelines, TF-IDF fitting and cosine similarity. Their outputs are parameters (the sentiment pipeline's output, the similarities and their argsort), and a failed fit is a flag.
- The `argsort` tie order is not fixed. Any ordering that sorts the similarities is allowed.
- Timing statistics are not modelled (`get_performance_metrics`, NumPy mean/median). Timings appended by sentiment analysis, summarisation and reply generation are not modelled. Only the search timing is appended, as a parameter.
- `summarize_text` with a model is not modelled. Only its fallback is.
- `generate_reply`'s prompt and `reasoning_log` are not modelled. Its reply is always the fallback reply (`_generate_with_huggingface` returns it), which is what the model returns. The random choice among the templates is left open: any template may be picked.
- The analytics cache and its TTL are not modelled (`analytics_cache`, `cleanup_old_cache`). The analytics are always computed afresh.
- SQLite itself is not modelled: SQL text matching (`LIKE`, string comparison of dates), `ORDER BY created_at`, `LIMIT`/`OFFSET` execution, the timestamp columns, the connection pool, WAL pragmas and the schema. The count query's result and the page's rows are parameters of the listing. SQLite's row order is modelled as any order.
- Startup, shutdown, logging, middleware and CORS are not modelled. The uptime and timestamps of the health answer are not modelled.
- The outer `except` of the health endpoint ("unhealthy") is not modelled: its body raises nothing the model can express.
- `Api.SuggestReply`, `Api.ProcessReviews`: the sentiment that `analyze_sentiment` returns is a dict, not a label. Storing it, or putting it in the `Dict[str, str]` tags, would fail in the source. The model treats the sentiment as an opaque label, given by the `analyze` parameter.
- `Api.GetReviews`, `Api.SearchSimilar`, `Api.IngestReviews`: the structure of FastAPI's 422 detail is not modelled, only the fact that validation failed. The missing-header case of the bearer scheme and the `WWW-Authenticate` header are not modelled.
- `Text.Lower`, `Text.Upper`: case mapping covers ASCII letters only.
- `Api.ProcessReviews`: on success it returns the corrected body, with `total_reviews` as text. As written, the source answers 500 after committing the updates (see Findings). `Api.ProcessReviewsAsWrittenFails` states that outcome separately.
- Floating point is not modelled. Prediction scores, similarities, the confidence thresholds 0.8 and 0.6, and times are exact reals. Rounding at a threshold is not captured.
- `Database.DatabaseManager.constructor`: the database file, its directory and the connection settings are not modelled. The rows already stored in an existing file are a parameter.

## Findings

| source | as written | input that shows it | evidently intended | confidence | as-written member | corrected member |
|---|---|---|---|---|---|---|
| backend/main.py:460-506 | The endpoint declares `response_model=Dict[str, str]` but returns `"total_reviews": len(reviews)`, an integer. With pydantic v2 (the settings use `pydantic_settings`), an int does not validate as `str`. Every successful batch therefore answers 500 after its updates are committed. | Any authorised POST /process-reviews with batch and AI processing enabled, e.g. on an empty table (`total_reviews` = 0) | `total_reviews` rendered as text, as the response model declares | medium, not executed | Api.ProcessReviewsAsWrittenFails | Api.ProcessReviewsBodySerializes |
