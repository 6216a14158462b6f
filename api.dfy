/** The HTTP endpoints (backend/main.py): authentication, request
    validation, the per-endpoint feature switches, the rule that turns an
    unexpected exception into a 500, and what each endpoint reads, writes and
    answers. The database and the AI service are the objects of the Database
    and AiService modules; what comes from outside the model (the outcome of a
    SQL statement, the sentiment model, the clock) is passed in. */
module Api {
  import opened Common
  import opened Text
  import Config
  import opened Database
  import Analytics
  import Topic
  import Reply
  import AiService

  /** An error answer: a status and its detail, or a request validation
      failure (422), whose detail structure is not modelled. */
  datatype HttpError = HttpError(status: nat, detail: string) | ValidationFailed

  // ---------------------------------------------------------------------------
  // Authentication and the exception rule
  // ---------------------------------------------------------------------------

  const InvalidApiKey: HttpError := HttpError(401, "Invalid API key")

  /** The bearer credential must equal the configured key. */
  function VerifyApiKey(settings: Config.Settings, credential: string): (r: Result<string, HttpError>)
    ensures r.Ok? <==> credential == settings.apiKey
    ensures r.Ok? ==> r.value == credential
    ensures r.Err? ==> r.error == InvalidApiKey
  {
    if credential != settings.apiKey then Err(InvalidApiKey) else Ok(credential)
  }

  /** What a handler body raised: an HTTP error of its own, or any other
      exception, with its message. */
  datatype Raised = HttpRaised(error: HttpError) | Foreign(message: string)

  function ErrorPrefix(action: string): string {
    "Error " + action + ": "
  }

  /** The handlers' common `except` clauses: an HTTP error passes through,
      anything else becomes a 500 whose detail names the action and carries
      the exception's message. */
  function HandlerError(action: string, raised: Raised): (e: HttpError)
    ensures raised.HttpRaised? ==> e == raised.error
    ensures raised.Foreign? ==>
      e.HttpError? && e.status == 500 && ErrorPrefix(action) <= e.detail && e.detail[|ErrorPrefix(action)|..] == raised.message
  {
    match raised
    case HttpRaised(error) => error
    case Foreign(message) => HttpError(500, ErrorPrefix(action) + message)
  }

  /** The 500 detail keeps the whole message: two exceptions in the same
      action give the same detail only when their messages are equal. */
  lemma HandlerErrorKeepsMessage(action: string, m1: string, m2: string)
    ensures HandlerError(action, Foreign(m1)) == HandlerError(action, Foreign(m2)) <==> m1 == m2
  {
    var e1, e2 := HandlerError(action, Foreign(m1)), HandlerError(action, Foreign(m2));
    if e1 == e2 {
      assert m1 == e1.detail[|ErrorPrefix(action)|..] == e2.detail[|ErrorPrefix(action)|..] == m2;
    }
  }

  // ---------------------------------------------------------------------------
  // Health
  // ---------------------------------------------------------------------------

  datatype HealthReport = HealthReport(status: string, version: string, database: string, aiService: AiService.AiHealth)

  /** The health answer. `probeError` is the message of the exception the
      database probe raised, if any. */
  function ServiceHealth(settings: Config.Settings, probeError: Option<string>, ai: AiService.AiHealth): (h: HealthReport)
    ensures h.status in ["healthy", "degraded"]
    ensures h.status == "healthy" <==> probeError.None?
    ensures probeError.None? ==> h.database == "healthy"
    ensures probeError.Some? ==> "unhealthy: " <= h.database && h.database[|"unhealthy: "|..] == probeError.value
    ensures h.version == settings.apiVersion && h.aiService == ai
  {
    var dbHealth := if probeError.None? then "healthy" else "unhealthy: " + probeError.value;
    assert probeError.Some? ==> dbHealth != "healthy" by {
      if probeError.Some? {
        assert |dbHealth| >= 11;
      }
    }
    HealthReport(if dbHealth == "healthy" then "healthy" else "degraded", settings.apiVersion, dbHealth, ai)
  }

  // ---------------------------------------------------------------------------
  // Ingestion
  // ---------------------------------------------------------------------------

  /** A review of the ingestion request body. */
  datatype ReviewIn = ReviewIn(id: int, location: string, rating: int, text: string, date: string)

  /** The body validation: every rating lies between 1 and 5. */
  predicate RatingsValid(reviews: seq<ReviewIn>) {
    forall i :: 0 <= i < |reviews| ==> 1 <= reviews[i].rating <= 5
  }

  /** The record handed to the database for a request review: the five
      fields, no sentiment or topic. */
  function RecordOf(r: ReviewIn): ReviewRecord {
    ReviewRecord(r.id, r.location, r.rating, r.text, r.date, None, None)
  }

  function Records(reviews: seq<ReviewIn>): (records: seq<ReviewRecord>)
    ensures |records| == |reviews|
    ensures forall i :: 0 <= i < |reviews| ==> records[i] == RecordOf(reviews[i])
  {
    seq(|reviews|, i requires 0 <= i < |reviews| => RecordOf(reviews[i]))
  }

  /** The conversion loop of the ingestion handler: one record per review, in
      order, with the five fields copied and nothing analysed yet. */
  method ToRecords(reviews: seq<ReviewIn>) returns (records: seq<ReviewRecord>)
    ensures |records| == |reviews|
    ensures forall i :: 0 <= i < |reviews| ==>
      && records[i].id == reviews[i].id && records[i].location == reviews[i].location
      && records[i].rating == reviews[i].rating && records[i].text == reviews[i].text
      && records[i].date == reviews[i].date
      && records[i].sentiment.None? && records[i].topic.None?
    ensures records == Records(reviews)
  {
    records := [];
    for i := 0 to |reviews|
      invariant records == Records(reviews[..i])
    {
      assert reviews[..i + 1][..i] == reviews[..i];
      records := records + [RecordOf(reviews[i])];
    }
    assert reviews[..|reviews|] == reviews;
  }

  /** The search index holds exactly the reviews of `table`, in the order of
      some scan. */
  ghost predicate IndexedFrom(ai: AiService.AIService, table: map<int, ReviewRow>)
    reads ai
  {
    exists scan :: IsScanOf(scan, table)
      && ai.reviewIds == AiService.IdsOf(AiService.DocsOf(scan))
      && ai.reviewTexts == AiService.TextsOf(AiService.DocsOf(scan))
  }

  /** Rebuild the index from a fresh scan of the table; the refresh logs and
      ignores its own failures. */
  method RefreshIndex(db: DatabaseManager, ai: AiService.AIService, queryFails: bool, fitFails: bool)
    requires db.Valid() && ai.Valid()
    modifies ai
    ensures ai.Valid()
    ensures queryFails || db.reviews == map[] ==>
      ai.reviewIds == old(ai.reviewIds) && ai.reviewTexts == old(ai.reviewTexts)
      && ai.vectorizer == old(ai.vectorizer) && ai.matrixRows == old(ai.matrixRows)
    ensures !queryFails && db.reviews != map[] ==>
      IndexedFrom(ai, db.reviews) && ai.vectorizer == (if fitFails then AiService.Unfitted else AiService.Fitted)
      && (!fitFails ==> ai.matrixRows == Some(|db.reviews|))
    ensures ai.performanceMetrics == old(ai.performanceMetrics) && ai.modelCache == old(ai.modelCache)
  {
    var scan := db.ScanReviews();
    ScanLength(scan, db.reviews);
    ai.RefreshSearchIndex(scan, queryFails, fitFails);
  }

  const IngestingReviews: string := "ingesting reviews"

  /** POST /ingest. `insertFault` is an error raised by the database. */
  method IngestReviews(db: DatabaseManager, ai: AiService.AIService, settings: Config.Settings, credential: string,
                       reviews: seq<ReviewIn>, insertFault: Option<string>,
                       indexQueryFails: bool, fitFails: bool, processingTime: string)
    returns (r: Result<map<string, string>, HttpError>)
    requires db.Valid() && ai.Valid()
    modifies db, ai
    ensures db.Valid() && ai.Valid()
    ensures r.Err? ==> db.reviews == old(db.reviews)
    ensures credential != settings.apiKey ==> r == Err(InvalidApiKey)
    ensures credential == settings.apiKey && !RatingsValid(reviews) ==> r == Err(ValidationFailed)
    ensures credential == settings.apiKey && RatingsValid(reviews) && reviews == [] ==>
      r == Err(HttpError(400, "No reviews provided"))
    ensures credential == settings.apiKey && RatingsValid(reviews) && reviews != [] && insertFault.Some? ==>
      r == Err(HandlerError(IngestingReviews, Foreign(insertFault.value)))
    ensures credential == settings.apiKey && RatingsValid(reviews) && reviews != [] && insertFault.None? ==>
      && r == Ok(map["message" := "Successfully ingested " + NatToString(|reviews|) + " reviews",
                     "processing_time" := processingTime])
      && db.reviews == UpsertAll(old(db.reviews), Rows(Records(reviews)))
      && (settings.aiEnabled && !indexQueryFails ==> IndexedFrom(ai, db.reviews))
    ensures !(r.Ok? && settings.aiEnabled) ==>
      ai.reviewIds == old(ai.reviewIds) && ai.reviewTexts == old(ai.reviewTexts)
      && ai.vectorizer == old(ai.vectorizer) && ai.matrixRows == old(ai.matrixRows)
  {
    var auth := VerifyApiKey(settings, credential);
    if auth.Err? {
      return Err(auth.error);
    }
    if !RatingsValid(reviews) {
      return Err(ValidationFailed);
    }
    if reviews == [] {
      return Err(HttpError(400, "No reviews provided"));
    }
    var reviewsData := ToRecords(reviews);
    var inserted := db.InsertReviews(reviewsData, insertFault);
    if inserted.Err? {
      return Err(HandlerError(IngestingReviews, Foreign(inserted.error)));
    }
    if settings.aiEnabled {
      RefreshIndex(db, ai, indexQueryFails, fitFails);
      assert db.reviews != map[] by {
        UpsertAllAt(old(db.reviews), Rows(reviewsData), reviews[0].id);
      }
    }
    r := Ok(map["message" := "Successfully ingested " + NatToString(inserted.value) + " reviews",
                "processing_time" := processingTime]);
  }

  // ---------------------------------------------------------------------------
  // Listing with filters and pagination
  // ---------------------------------------------------------------------------

  /** The query parameters of GET /reviews. */
  datatype ReviewQuery = ReviewQuery(
    location: Option<string>,
    sentiment: Option<string>,
    q: Option<string>,
    ratingMin: Option<int>,
    ratingMax: Option<int>,
    dateFrom: Option<string>,
    dateTo: Option<string>,
    page: Option<int>,
    pageSize: Option<int>)

  /** The requested page; the first one when the parameter is left out. */
  function Page(query: ReviewQuery): int {
    query.page.GetOr(1)
  }

  /** An optional parameter is absent or within its declared bounds. */
  predicate InRange(v: Option<int>, lo: int, hi: int) {
    v.None? || lo <= v.value <= hi
  }

  /** The parameter validation of GET /reviews. A request that passes it
      asks for a page of at least one row and never skips a negative number
      of rows. */
  predicate QueryValid(query: ReviewQuery)
    ensures QueryValid(query) ==> Page(query) >= 1
    ensures QueryValid(query) && query.pageSize.Some? ==>
      query.pageSize.value >= 1 && PageOffset(Page(query), query.pageSize.value) >= 0
  {
    && InRange(query.ratingMin, 1, 5)
    && InRange(query.ratingMax, 1, 5)
    && Page(query) >= 1
    && InRange(query.pageSize, Config.MinPageSize, Config.MaxPageSize)
  }

  /** A request with no parameters at all passes validation and asks for the
      first page. */
  lemma DefaultQueryValid(query: ReviewQuery)
    requires query == ReviewQuery(None, None, None, None, None, None, None, None, None)
    ensures QueryValid(query) && Page(query) == 1
  {
  }

  /** The value a filter key takes from the request, if the parameter was
      given; keys that are not filter keys take none. */
  function Param(query: ReviewQuery, key: string): (v: Option<FilterValue>)
    ensures v.Some? ==> key in FilterKeys
  {
    if key == "location" then TextParam(query.location)
    else if key == "sentiment" then TextParam(query.sentiment)
    else if key == "q" then TextParam(query.q)
    else if key == "rating_min" then IntParam(query.ratingMin)
    else if key == "rating_max" then IntParam(query.ratingMax)
    else if key == "date_from" then TextParam(query.dateFrom)
    else if key == "date_to" then TextParam(query.dateTo)
    else None
  }

  function TextParam(v: Option<string>): Option<FilterValue> {
    if v.Some? then Some(FStr(v.value)) else None
  }

  function IntParam(v: Option<int>): Option<FilterValue> {
    if v.Some? then Some(FInt(v.value)) else None
  }

  /** The filters dict: the parameters that were given, under their names;
      those left out (None) are dropped. */
  function BuildFilters(query: ReviewQuery): (f: Filters)
    ensures forall key :: key in f <==> Param(query, key).Some?
    ensures forall key :: key in f ==> key in FilterKeys && f[key] == Param(query, key).value
  {
    map key | key in FilterKeys && Param(query, key).Some? :: Param(query, key).value
  }

  /** A request without filter parameters lists the whole table: the plan
      has no WHERE clause. */
  lemma NoParametersNoConditions(query: ReviewQuery, conditions: seq<string>, params: seq<SqlValue>)
    requires query.location.None? && query.sentiment.None? && query.q.None?
    requires query.ratingMin.None? && query.ratingMax.None? && query.dateFrom.None? && query.dateTo.None?
    requires Lists(BuildFilters(query), Active(BuildFilters(query), |FilterKeys|), conditions, params)
    ensures conditions == [] && params == [] && WhereClause(conditions) == ""
  {
    var f := BuildFilters(query);
    NoConditionsIffNoFilters(f, conditions, params);
  }

  /** Python's `//`: the quotient rounded toward minus infinity. */
  function FloorDiv(a: int, b: int): (q: int)
    requires b != 0
    ensures b > 0 ==> q * b <= a < q * b + b
    ensures b < 0 ==> q * b >= a > q * b + b
  {
    if b > 0 then a / b else (-a) / (-b)
  }

  /** The number of pages: `(total + page_size - 1) // page_size`. */
  function TotalPages(total: nat, pageSize: int): (n: int)
    requires pageSize != 0
    ensures pageSize > 0 ==> n >= 0 && (n == 0 <==> total == 0)
    ensures pageSize > 0 ==> total <= n * pageSize && (n == 0 || (n - 1) * pageSize < total)
  {
    var n := FloorDiv(total + pageSize - 1, pageSize);
    assert (n - 1) * pageSize == n * pageSize - pageSize;
    n
  }

  /** A page of the listing and its pagination fields. */
  datatype ReviewPage = ReviewPage(
    reviews: seq<ReviewRow>,
    total: nat,
    page: int,
    pageSize: int,
    totalPages: int,
    hasNext: bool,
    hasPrev: bool)

  function Paginate(rows: seq<ReviewRow>, total: nat, page: int, pageSize: int): (p: ReviewPage)
    requires pageSize != 0
    ensures p.reviews == rows && p.total == total && p.page == page && p.pageSize == pageSize
    ensures p.totalPages == TotalPages(total, pageSize)
    ensures p.hasNext <==> page < p.totalPages
    ensures p.hasPrev <==> page > 1
  {
    var totalPages := TotalPages(total, pageSize);
    ReviewPage(rows, total, page, pageSize, totalPages, page < totalPages, page > 1)
  }

  /** With a positive page size, there is a next page exactly when some
      matching review lies beyond the requested one. */
  lemma HasNextIffRowsBeyond(rows: seq<ReviewRow>, total: nat, page: int, pageSize: int)
    requires pageSize > 0
    ensures Paginate(rows, total, page, pageSize).hasNext <==> page * pageSize < total
  {
    var n := TotalPages(total, pageSize);
    if page < n {
      MulMonotone(page, n - 1, pageSize);
    } else {
      MulMonotone(n, page, pageSize);
    }
  }

  lemma MulMonotone(a: int, b: int, c: int)
    requires a <= b && c >= 0
    ensures a * c <= b * c
  {
    assert b * c - a * c == (b - a) * c;
  }

  const FetchingReviews: string := "fetching reviews"

  /** Python's message for a division by zero. */
  const ZeroDivision: string := "integer division or modulo by zero"

  /** GET /reviews. The queries of the plan are run outside the model:
      `total` is what the count query returned and `rows` the page query's
      rows; `fault` is an error raised while running them. */
  method GetReviews(db: DatabaseManager, settings: Config.Settings, credential: string, query: ReviewQuery,
                    total: nat, rows: seq<ReviewRow>, fault: Option<string>)
    returns (r: Result<ReviewPage, HttpError>, plan: Option<QueryPlan>)
    ensures credential != settings.apiKey ==> r == Err(InvalidApiKey) && plan.None?
    ensures credential == settings.apiKey && !QueryValid(query) ==> r == Err(ValidationFailed) && plan.None?
    ensures credential == settings.apiKey && QueryValid(query) ==>
      var pageSize := query.pageSize.GetOr(settings.defaultPageSize);
      var filters := BuildFilters(query);
      && plan.Some?
      && plan.value.offset == PageOffset(Page(query), pageSize)
      && plan.value.pageParams == plan.value.countParams + [SqlInt(pageSize), SqlInt(plan.value.offset)]
      && (exists conditions ::
            && Lists(filters, Active(filters, |FilterKeys|), conditions, plan.value.countParams)
            && plan.value.countQuery == CountQueryHead + WhereClause(conditions)
            && plan.value.pageQuery == PageQueryHead + WhereClause(conditions) + PageQueryTail)
      && (fault.Some? ==> r == Err(HandlerError(FetchingReviews, Foreign(fault.value))))
      && (fault.None? && pageSize == 0 ==> r == Err(HandlerError(FetchingReviews, Foreign(ZeroDivision))))
      && (fault.None? && pageSize != 0 ==> r == Ok(Paginate(rows, total, Page(query), pageSize)))
  {
    var auth := VerifyApiKey(settings, credential);
    if auth.Err? {
      return Err(auth.error), None;
    }
    if !QueryValid(query) {
      return Err(ValidationFailed), None;
    }
    var pageSize := query.pageSize.GetOr(settings.defaultPageSize);
    var filters := BuildFilters(query);
    var p := db.GetReviewsPaginated(filters, Page(query), pageSize);
    plan := Some(p);
    if fault.Some? {
      return Err(HandlerError(FetchingReviews, Foreign(fault.value))), plan;
    }
    if pageSize == 0 {
      return Err(HandlerError(FetchingReviews, Foreign(ZeroDivision))), plan;
    }
    r := Ok(Paginate(rows, total, Page(query), pageSize));
  }

  // ---------------------------------------------------------------------------
  // One review
  // ---------------------------------------------------------------------------

  function NotFound(id: int): (e: HttpError)
    ensures e.HttpError? && e.status == 404
    ensures |e.detail| == |"Review with ID "| + |IntToString(id)| + |" not found"|
    ensures "Review with ID " <= e.detail
    ensures e.detail[|"Review with ID "|..|e.detail| - |" not found"|] == IntToString(id)
    ensures e.detail[|e.detail| - |" not found"|..] == " not found"
  {
    HttpError(404, "Review with ID " + IntToString(id) + " not found")
  }

  /** The 404 detail names the id: different ids give different details. */
  lemma NotFoundNamesId(i: int, j: int)
    ensures NotFound(i) == NotFound(j) <==> i == j
  {
    if NotFound(i) == NotFound(j) {
      var di, dj := NotFound(i).detail, NotFound(j).detail;
      var pre := "Review with ID ";
      var post := " not found";
      assert IntToString(i) == di[|pre|..|di| - |post|];
      assert IntToString(j) == dj[|pre|..|dj| - |post|];
      IntToStringInjective(i, j);
    }
  }

  const FetchingReview: string := "fetching review"

  /** GET /reviews/{id}. `fault` is an error raised by the lookup. */
  method GetReview(db: DatabaseManager, settings: Config.Settings, credential: string, id: int, fault: Option<string>)
    returns (r: Result<ReviewRow, HttpError>)
    requires db.Valid()
    ensures credential != settings.apiKey ==> r == Err(InvalidApiKey)
    ensures credential == settings.apiKey && fault.Some? ==> r == Err(HandlerError(FetchingReview, Foreign(fault.value)))
    ensures credential == settings.apiKey && fault.None? ==>
      (r.Ok? <==> id in db.reviews)
      && (id !in db.reviews ==> r == Err(NotFound(id)))
      && (id in db.reviews ==> r.value == db.reviews[id] && r.value.id == id)
  {
    var auth := VerifyApiKey(settings, credential);
    if auth.Err? {
      return Err(auth.error);
    }
    var found := db.GetReviewById(id, fault);
    if found.Err? {
      return Err(HandlerError(FetchingReview, Foreign(found.error)));
    }
    if found.value.None? {
      return Err(NotFound(id));
    }
    r := Ok(found.value.value);
  }

  // ---------------------------------------------------------------------------
  // Suggested reply
  // ---------------------------------------------------------------------------

  /** Python truthiness of a stored text column: present and not empty. */
  predicate IsSet(v: Option<string>) {
    v.Some? && v.value != ""
  }

  /** `stored or computed`. */
  function StoredOr(stored: Option<string>, computed: string): (v: string)
    ensures IsSet(stored) ==> v == stored.value
    ensures !IsSet(stored) ==> v == computed
  {
    if IsSet(stored) then stored.value else computed
  }

  datatype ReplyResponse = ReplyResponse(reply: string, tags: map<string, string>)

  const GeneratingReply: string := "generating reply"
  const RepliesDisabled: HttpError := HttpError(503, "AI reply generation is currently disabled")

  /** POST /reviews/{id}/suggest-reply. `analyze` stands for the sentiment
      model, `lookupFault` for an error raised by the lookup and
      `updateFault` for one the update catches. */
  method SuggestReply(db: DatabaseManager, settings: Config.Settings, credential: string, id: int,
                      lookupFault: Option<string>, analyze: string -> string, updateFault: bool)
    returns (r: Result<ReplyResponse, HttpError>)
    requires db.Valid()
    modifies db
    ensures db.Valid()
    ensures r.Err? ==> db.reviews == old(db.reviews)
    ensures credential != settings.apiKey ==> r == Err(InvalidApiKey)
    ensures credential == settings.apiKey && !settings.enableAiReplies ==> r == Err(RepliesDisabled)
    ensures credential == settings.apiKey && settings.enableAiReplies && lookupFault.Some? ==>
      r == Err(HandlerError(GeneratingReply, Foreign(lookupFault.value)))
    ensures credential == settings.apiKey && settings.enableAiReplies && lookupFault.None? && id !in old(db.reviews) ==>
      r == Err(NotFound(id))
    ensures credential == settings.apiKey && settings.enableAiReplies && lookupFault.None? && id in old(db.reviews) ==>
      var row := old(db.reviews)[id];
      var sentiment := StoredOr(row.sentiment, analyze(row.text));
      var topic := StoredOr(row.topic, Topic.PickTopic(row.text));
      && r.Ok?
      && r.value.tags == map["sentiment" := sentiment, "topic" := topic]
      && r.value.reply in Reply.ReplyPool(sentiment, row.rating, Topic.PickTopic(row.text))
      && db.reviews == (if (IsSet(row.sentiment) && IsSet(row.topic)) || updateFault then old(db.reviews)
                        else UpdatedAi(old(db.reviews), id, sentiment, topic))
  {
    var auth := VerifyApiKey(settings, credential);
    if auth.Err? {
      return Err(auth.error);
    }
    if !settings.enableAiReplies {
      return Err(RepliesDisabled);
    }
    var found := db.GetReviewById(id, lookupFault);
    if found.Err? {
      return Err(HandlerError(GeneratingReply, Foreign(found.error)));
    }
    if found.value.None? {
      return Err(NotFound(id));
    }
    var row := found.value.value;
    assert row == old(db.reviews)[id];
    var sentiment, topic := AnalysisOf(row, analyze);
    StoreMissingAnalysis(db, row, sentiment, topic, updateFault);
    var reply := Reply.GenerateFallbackReply(row.text, row.rating, sentiment);
    r := Ok(ReplyResponse(reply, map["sentiment" := sentiment, "topic" := topic]));
  }

  /** `review.sentiment or analyze(text)` and `review.topic or
      extract_topic(text)`. */
  method AnalysisOf(row: ReviewRow, analyze: string -> string) returns (sentiment: string, topic: string)
    ensures sentiment == StoredOr(row.sentiment, analyze(row.text))
    ensures topic == StoredOr(row.topic, Topic.PickTopic(row.text))
  {
    sentiment := StoredOr(row.sentiment, analyze(row.text));
    if IsSet(row.topic) {
      topic := row.topic.value;
    } else {
      topic := Topic.ExtractTopicFallback(row.text);
    }
  }

  /** Store the analysis of a looked-up row unless both of its columns are
      already set; a failed update is swallowed. */
  method StoreMissingAnalysis(db: DatabaseManager, row: ReviewRow, sentiment: string, topic: string, updateFault: bool)
    requires db.Valid() && row.id in db.reviews
    modifies db
    ensures db.Valid()
    ensures db.reviews == (if (IsSet(row.sentiment) && IsSet(row.topic)) || updateFault then old(db.reviews)
                           else UpdatedAi(old(db.reviews), row.id, sentiment, topic))
  {
    if !IsSet(row.sentiment) || !IsSet(row.topic) {
      var _ := db.UpdateReviewAiData(row.id, sentiment, topic, updateFault);
    }
  }

  // ---------------------------------------------------------------------------
  // Analytics
  // ---------------------------------------------------------------------------

  datatype AnalyticsResponse = AnalyticsResponse(
    sentimentCounts: map<string, nat>,
    topicCounts: map<string, nat>,
    locationCounts: map<string, nat>,
    ratingDistribution: map<string, nat>,
    totalReviews: nat)

  lemma IntToStringInjectiveAll()
    ensures forall i, j :: IntToString(i) == IntToString(j) ==> i == j
  {
    forall i, j | IntToString(i) == IntToString(j) ensures i == j {
      IntToStringInjective(i, j);
    }
  }

  /** The rating distribution re-keyed by `str(rating)`; no two ratings
      share a key. */
  function RatingKeys(m: map<int, nat>): (s: map<string, nat>)
    ensures forall k :: k in m ==> IntToString(k) in s && s[IntToString(k)] == m[k]
    ensures forall key :: key in s ==> exists k :: k in m && key == IntToString(k)
  {
    IntToStringInjectiveAll();
    map k | k in m :: IntToString(k) := m[k]
  }

  function Respond(a: Analytics.AnalyticsData, total: nat): AnalyticsResponse {
    AnalyticsResponse(a.sentimentCounts, a.topicCounts, a.locationCounts, RatingKeys(a.ratingDistribution), total)
  }

  /** Every review is counted once by location and once by rating: each
      of those distributions adds up to the table's size. */
  lemma AnalyticsAddUp(scan: seq<ReviewRow>, table: map<int, ReviewRow>)
    requires IsScanOf(scan, table)
    ensures var a := Analytics.ComputeAnalytics(scan);
      && Analytics.SumOver(a.locationCounts, Analytics.Distinct(Analytics.Locations(scan))) == |table|
      && Analytics.SumOver(a.ratingDistribution, Analytics.Distinct(Analytics.Ratings(scan))) == |table|
  {
    Analytics.AnalyticsTotals(scan);
    ScanLength(scan, table);
  }

  const FetchingAnalytics: string := "fetching analytics"
  const AnalyticsDisabled: HttpError := HttpError(503, "Analytics are currently disabled")

  /** GET /analytics, computed from a scan of the table. `fault` is an
      error raised by one of the queries. */
  method GetAnalytics(db: DatabaseManager, settings: Config.Settings, credential: string, fault: Option<string>)
    returns (r: Result<AnalyticsResponse, HttpError>)
    requires db.Valid()
    ensures credential != settings.apiKey ==> r == Err(InvalidApiKey)
    ensures credential == settings.apiKey && !settings.enableAnalytics ==> r == Err(AnalyticsDisabled)
    ensures credential == settings.apiKey && settings.enableAnalytics && fault.Some? ==>
      r == Err(HandlerError(FetchingAnalytics, Foreign(fault.value)))
    ensures credential == settings.apiKey && settings.enableAnalytics && fault.None? ==>
      && r.Ok? && r.value.totalReviews == |db.reviews|
      && exists scan :: IsScanOf(scan, db.reviews) && r.value == Respond(Analytics.ComputeAnalytics(scan), |db.reviews|)
  {
    var auth := VerifyApiKey(settings, credential);
    if auth.Err? {
      return Err(auth.error);
    }
    if !settings.enableAnalytics {
      return Err(AnalyticsDisabled);
    }
    if fault.Some? {
      return Err(HandlerError(FetchingAnalytics, Foreign(fault.value)));
    }
    var scan := db.ScanReviews();
    var analyticsData := Analytics.ComputeAnalytics(scan);
    ScanLength(scan, db.reviews);
    r := Ok(Respond(analyticsData, |scan|));
  }

  // ---------------------------------------------------------------------------
  // Search
  // ---------------------------------------------------------------------------

  datatype SearchResponse = SearchResponse(query: string, results: seq<AiService.SearchHit>, total: nat)

  const SearchDisabled: HttpError := HttpError(503, "Search functionality is currently disabled")

  /** GET /search. `sims`, `order` and `elapsed` are the similarities, their
      argsort and the time measured, as for the service's search. */
  method SearchSimilar(ai: AiService.AIService, settings: Config.Settings, credential: string,
                       q: Option<string>, k: Option<int>, sims: seq<real>, order: seq<nat>, elapsed: real)
    returns (r: Result<SearchResponse, HttpError>)
    requires ai.Valid()
    requires ai.matrixRows.Some? ==> |sims| == ai.matrixRows.value && AiService.IsArgsort(order, sims)
    modifies ai
    ensures ai.Valid()
    ensures ai.reviewIds == old(ai.reviewIds) && ai.reviewTexts == old(ai.reviewTexts)
    ensures ai.vectorizer == old(ai.vectorizer) && ai.matrixRows == old(ai.matrixRows)
    ensures credential != settings.apiKey ==> r == Err(InvalidApiKey)
    ensures credential == settings.apiKey && (q.None? || !InRange(k, Config.MinResults, Config.MaxResults)) ==>
      r == Err(ValidationFailed)
    ensures credential == settings.apiKey && q.Some? && InRange(k, Config.MinResults, Config.MaxResults) ==>
      var count := k.GetOr(settings.searchMaxResults);
      && (!settings.enableSearch ==> r == Err(SearchDisabled))
      && (settings.enableSearch ==>
            && r.Ok? && r.value.query == q.value && r.value.total == |r.value.results|
            && AiService.Descending(r.value.results)
            && (count >= 1 ==> |r.value.results| <= count)
            && (ai.vectorizer == AiService.Fitted && ai.matrixRows.Some? ==>
                  r.value.results == AiService.Hits(AiService.TopIndices(order, count), ai.reviewIds, ai.reviewTexts, sims))
            && (ai.vectorizer != AiService.Fitted || ai.matrixRows.None? ==> r.value.results == []))
  {
    var auth := VerifyApiKey(settings, credential);
    if auth.Err? {
      return Err(auth.error);
    }
    if q.None? || !InRange(k, Config.MinResults, Config.MaxResults) {
      return Err(ValidationFailed);
    }
    if !settings.enableSearch {
      return Err(SearchDisabled);
    }
    var count := k.GetOr(settings.searchMaxResults);
    var results := ai.SearchSimilarReviews(count, sims, order, elapsed);
    if ai.vectorizer == AiService.Fitted && ai.matrixRows.Some? {
      AiService.SearchResultsRanked(order, sims, count, ai.reviewIds, ai.reviewTexts);
    }
    r := Ok(SearchResponse(q.value, results, |results|));
  }

  // ---------------------------------------------------------------------------
  // Batch analysis
  // ---------------------------------------------------------------------------

  /** The rows the batch picks up: `WHERE sentiment IS NULL OR topic IS
      NULL`, in scan order. */
  function Unprocessed(scan: seq<ReviewRow>): (pending: seq<ReviewRow>)
    ensures |pending| <= |scan|
    ensures forall row :: row in pending <==> row in scan && (row.sentiment.None? || row.topic.None?)
  {
    if scan == [] then []
    else
      var row := scan[|scan| - 1];
      assert scan == scan[..|scan| - 1] + [row];
      Unprocessed(scan[..|scan| - 1]) + (if row.sentiment.None? || row.topic.None? then [row] else [])
  }

  /** Whether the analysis of a row is stored: analysing it raised nothing,
      the update raised nothing, and the row exists. */
  predicate Stored(table: map<int, ReviewRow>, row: ReviewRow, itemFails: int -> bool, updateFails: int -> bool) {
    !itemFails(row.id) && !updateFails(row.id) && row.id in table
  }

  /** The table after the rows were analysed one after the other. */
  function Analysed(table: map<int, ReviewRow>, rows: seq<ReviewRow>, analyze: string -> string,
                    itemFails: int -> bool, updateFails: int -> bool): (t: map<int, ReviewRow>)
    ensures t.Keys == table.Keys
  {
    if rows == [] then table
    else
      var t := Analysed(table, rows[..|rows| - 1], analyze, itemFails, updateFails);
      var row := rows[|rows| - 1];
      if Stored(t, row, itemFails, updateFails)
      then UpdatedAi(t, row.id, analyze(row.text), Topic.PickTopic(row.text))
      else t
  }

  /** The number of rows whose analysis is stored. */
  function Succeeded(table: map<int, ReviewRow>, rows: seq<ReviewRow>, itemFails: int -> bool, updateFails: int -> bool): (n: nat)
    ensures n <= |rows|
  {
    if rows == [] then 0
    else
      Succeeded(table, rows[..|rows| - 1], itemFails, updateFails)
      + (if Stored(table, rows[|rows| - 1], itemFails, updateFails) then 1 else 0)
  }

  /** Without faults, every row of the table that was picked up is counted. */
  lemma {:induction false} AllStoredWithoutFaults(table: map<int, ReviewRow>, rows: seq<ReviewRow>,
                                                 itemFails: int -> bool, updateFails: int -> bool)
    requires forall i :: 0 <= i < |rows| ==> Stored(table, rows[i], itemFails, updateFails)
    ensures Succeeded(table, rows, itemFails, updateFails) == |rows|
  {
    if rows != [] {
      AllStoredWithoutFaults(table, rows[..|rows| - 1], itemFails, updateFails);
    }
  }

  /** A row whose analysis was stored ends with both columns set; a row no
      stored analysis names is left as it was. */
  lemma {:induction false} AnalysedSetsColumns(table: map<int, ReviewRow>, rows: seq<ReviewRow>, analyze: string -> string,
                                              itemFails: int -> bool, updateFails: int -> bool, id: int)
    requires id in table
    ensures var t := Analysed(table, rows, analyze, itemFails, updateFails);
      && ((exists i :: 0 <= i < |rows| && rows[i].id == id && Stored(table, rows[i], itemFails, updateFails)) ==>
            t[id].sentiment.Some? && t[id].topic.Some?)
      && ((forall i :: 0 <= i < |rows| && rows[i].id == id ==> !Stored(table, rows[i], itemFails, updateFails)) ==>
            t[id] == table[id])
  {
    if rows != [] {
      var p := rows[..|rows| - 1];
      var row := rows[|rows| - 1];
      AnalysedSetsColumns(table, p, analyze, itemFails, updateFails, id);
      var t := Analysed(table, p, analyze, itemFails, updateFails);
      if exists i :: 0 <= i < |rows| && rows[i].id == id && Stored(table, rows[i], itemFails, updateFails) {
        var i :| 0 <= i < |rows| && rows[i].id == id && Stored(table, rows[i], itemFails, updateFails);
        if i < |rows| - 1 {
          assert p[i] == rows[i];
        }
      }
      if forall i :: 0 <= i < |rows| && rows[i].id == id ==> !Stored(table, rows[i], itemFails, updateFails) {
        forall i | 0 <= i < |p| && p[i].id == id ensures !Stored(table, p[i], itemFails, updateFails) {
          assert rows[i] == p[i];
        }
      }
    }
  }

  /** A JSON value of a response body, as far as it matters here. */
  datatype JsonValue = JStr(s: string) | JInt(n: int)

  /** FastAPI's check of a body against the response model `Dict[str, str]`:
      every value must be a string. A body that fails it never reaches the
      client, which receives a bare 500 instead. */
  function SerializeStrDict(body: map<string, JsonValue>): (r: Result<map<string, string>, HttpError>)
    ensures r.Ok? <==> forall k :: k in body ==> body[k].JStr?
    ensures r.Ok? ==> r.value.Keys == body.Keys && forall k :: k in body ==> r.value[k] == body[k].s
    ensures r.Err? ==> r.error == HttpError(500, "Internal Server Error")
  {
    if forall k :: k in body ==> body[k].JStr? then Ok(map k | k in body :: body[k].s)
    else Err(HttpError(500, "Internal Server Error"))
  }

  function ProcessedMessage(processed: nat): string {
    "Successfully processed " + NatToString(processed) + " reviews"
  }

  /** The batch endpoint's body as the source builds it: the number of
      reviews picked up is put in as an integer. */
  function ProcessReviewsBodyAsWritten(processed: nat, total: nat, processingTime: string): (body: map<string, JsonValue>)
    ensures body.Keys == {"message", "processing_time", "total_reviews"}
    ensures body["message"] == JStr(ProcessedMessage(processed)) && body["total_reviews"] == JInt(total)
  {
    map["message" := JStr(ProcessedMessage(processed)), "processing_time" := JStr(processingTime),
        "total_reviews" := JInt(total)]
  }

  /** As built by the source, the body never passes its own response model,
      whatever the counts: every successful batch answers 500, after its
      updates have been committed. */
  lemma ProcessReviewsAsWrittenFails(processed: nat, total: nat, processingTime: string)
    ensures SerializeStrDict(ProcessReviewsBodyAsWritten(processed, total, processingTime))
            == Err(HttpError(500, "Internal Server Error"))
  {
    var body := ProcessReviewsBodyAsWritten(processed, total, processingTime);
    assert "total_reviews" in body && !body["total_reviews"].JStr?;
  }

  /** The body with the count rendered as text, as the response model
      declares. */
  function ProcessReviewsBody(processed: nat, total: nat, processingTime: string): map<string, JsonValue> {
    map["message" := JStr(ProcessedMessage(processed)), "processing_time" := JStr(processingTime),
        "total_reviews" := JStr(NatToString(total))]
  }

  /** The corrected body passes the response model, and the count reads back
      from its text. */
  lemma ProcessReviewsBodySerializes(processed: nat, total: nat, processingTime: string)
    ensures var r := SerializeStrDict(ProcessReviewsBody(processed, total, processingTime));
      && r.Ok? && r.value.Keys == {"message", "processing_time", "total_reviews"}
      && r.value["message"] == ProcessedMessage(processed)
      && DigitsValue(r.value["total_reviews"]) == total
  {
    NatToStringValue(total);
  }

  const ProcessingReviews: string := "processing reviews"
  const BatchDisabled: HttpError := HttpError(503, "Batch processing is currently disabled")
  const AiDisabled: HttpError := HttpError(503, "AI processing is currently disabled")

  /** POST /process-reviews: analyse every review whose sentiment or topic is
      NULL and store the result, then refresh the search index. `analyze`
      stands for the sentiment model; `itemFails` says for which review ids
      analysing raises (the review is skipped), `updateFails` for which the
      update fails; `queryFault` is an error raised by the selection. */
  method ProcessReviews(db: DatabaseManager, ai: AiService.AIService, settings: Config.Settings, credential: string,
                        queryFault: Option<string>, analyze: string -> string,
                        itemFails: int -> bool, updateFails: int -> bool,
                        indexQueryFails: bool, fitFails: bool, processingTime: string)
    returns (r: Result<map<string, string>, HttpError>)
    requires db.Valid() && ai.Valid()
    modifies db, ai
    ensures db.Valid() && ai.Valid()
    ensures r.Err? ==> db.reviews == old(db.reviews)
    ensures credential != settings.apiKey ==> r == Err(InvalidApiKey)
    ensures credential == settings.apiKey && !settings.enableBatchProcessing ==> r == Err(BatchDisabled)
    ensures credential == settings.apiKey && settings.enableBatchProcessing && !settings.aiEnabled ==> r == Err(AiDisabled)
    ensures credential == settings.apiKey && settings.enableBatchProcessing && settings.aiEnabled && queryFault.Some? ==>
      r == Err(HandlerError(ProcessingReviews, Foreign(queryFault.value)))
    ensures credential == settings.apiKey && settings.enableBatchProcessing && settings.aiEnabled && queryFault.None? ==>
      && r.Ok?
      && (exists scan :: IsScanOf(scan, old(db.reviews))
            && var pending := Unprocessed(scan);
            && db.reviews == Analysed(old(db.reviews), pending, analyze, itemFails, updateFails)
            && r == SerializeStrDict(ProcessReviewsBody(Succeeded(old(db.reviews), pending, itemFails, updateFails),
                                                        |pending|, processingTime)))
      && (!indexQueryFails && db.reviews != map[] ==> IndexedFrom(ai, db.reviews))
  {
    var auth := VerifyApiKey(settings, credential);
    if auth.Err? {
      return Err(auth.error);
    }
    if !settings.enableBatchProcessing {
      return Err(BatchDisabled);
    }
    if !settings.aiEnabled {
      return Err(AiDisabled);
    }
    if queryFault.Some? {
      return Err(HandlerError(ProcessingReviews, Foreign(queryFault.value)));
    }
    var scan := db.ScanReviews();
    var reviews := Unprocessed(scan);
    var processedCount := AnalyseEach(db, reviews, analyze, itemFails, updateFails);
    RefreshIndex(db, ai, indexQueryFails, fitFails);
    r := SerializeStrDict(ProcessReviewsBody(processedCount, |reviews|, processingTime));
    ProcessReviewsBodySerializes(processedCount, |reviews|, processingTime);
  }

  /** The loop of the batch: each review is analysed and its result stored;
      a review whose analysis raises is skipped, and only updates that
      report success are counted. */
  method AnalyseEach(db: DatabaseManager, reviews: seq<ReviewRow>, analyze: string -> string,
                     itemFails: int -> bool, updateFails: int -> bool)
    returns (processedCount: nat)
    requires db.Valid()
    modifies db
    ensures db.Valid()
    ensures db.reviews == Analysed(old(db.reviews), reviews, analyze, itemFails, updateFails)
    ensures processedCount == Succeeded(old(db.reviews), reviews, itemFails, updateFails)
  {
    ghost var table0 := db.reviews;
    processedCount := 0;
    for i := 0 to |reviews|
      invariant db.Valid()
      invariant db.reviews == Analysed(table0, reviews[..i], analyze, itemFails, updateFails)
      invariant processedCount == Succeeded(table0, reviews[..i], itemFails, updateFails)
    {
      var row := reviews[i];
      assert reviews[..i + 1][..i] == reviews[..i];
      if itemFails(row.id) {
        continue;
      }
      var sentiment := analyze(row.text);
      var topic := Topic.ExtractTopicFallback(row.text);
      var success := db.UpdateReviewAiData(row.id, sentiment, topic, updateFails(row.id));
      if success {
        processedCount := processedCount + 1;
      }
    }
    assert reviews[..|reviews|] == reviews;
  }
}
