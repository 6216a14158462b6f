/** The data layer (backend/database.py): the reviews table seen as a map
    from id to row, the query plan of the filtered, paginated listing, and the
    insert, update and lookup operations on the table. */
module Database {
  import opened Common
  import opened Text

  /** A row of the reviews table. The timestamp columns are not modelled. */
  datatype ReviewRow = ReviewRow(
    id: int,
    location: string,
    rating: int,
    text: string,
    date: string,
    sentiment: Option<string>,
    topic: Option<string>,
    metadata: string)

  /** A review as handed to `insert_reviews`: the five required fields, and a
      sentiment and topic that may be missing from the dict. */
  datatype ReviewRecord = ReviewRecord(
    id: int,
    location: string,
    rating: int,
    text: string,
    date: string,
    sentiment: Option<string>,
    topic: Option<string>)

  /** A value bound to a `?` placeholder. */
  datatype SqlValue = SqlText(s: string) | SqlInt(n: int) | SqlNull

  /** A value of the filters dict: text or an integer. */
  datatype FilterValue = FStr(s: string) | FInt(n: int)

  type Filters = map<string, FilterValue>

  /** Metadata stored with every inserted review: `json.dumps` of
      `{'source': 'api', 'processed': False}`. */
  const InsertMetadata: string := "{\"source\": \"api\", \"processed\": false}"

  /** The error SQLite raises when a row breaks the rating CHECK constraint. */
  const RatingCheckFailed: string := "CHECK constraint failed: rating >= 1 AND rating <= 5"

  // ---------------------------------------------------------------------------
  // WHERE clause and parameters of the filtered listing
  // ---------------------------------------------------------------------------

  /** The filter keys in the order the builder tests them ... */
  const FilterKeys: seq<string> :=
    ["location", "sentiment", "q", "rating_min", "rating_max", "date_from", "date_to"]

  /** ... and the condition each adds, at the same position. */
  const FilterConditions: seq<string> :=
    ["location = ?", "sentiment = ?", "text LIKE ?", "rating >= ?", "rating <= ?", "date >= ?", "date <= ?"]

  /** Python truthiness of `filters.get(key)`: present, and not "" or 0. */
  predicate Truthy(filters: Filters, key: string) {
    key in filters &&
    match filters[key]
    case FStr(s) => s != ""
    case FInt(n) => n != 0
  }

  /** The value the builder binds for a filter: the search text is wrapped
      in '%' on both sides, every other value is bound as it is. */
  function FilterParam(key: string, v: FilterValue): (p: SqlValue)
    ensures key == "q" ==> p.SqlText? && |p.s| >= 2 && p.s[0] == '%' && p.s[|p.s| - 1] == '%'
    ensures key == "q" && v.FStr? ==> p.s[1..|p.s| - 1] == v.s
    ensures key != "q" && v.FStr? ==> p == SqlText(v.s)
    ensures key != "q" && v.FInt? ==> p == SqlInt(v.n)
  {
    if key == "q" then
      match v
      case FStr(s) => SqlText("%" + s + "%")
      case FInt(n) => SqlText("%" + IntToString(n) + "%")
    else
      match v
      case FStr(s) => SqlText(s)
      case FInt(n) => SqlInt(n)
  }

  /** Positions (in `FilterKeys`) of the truthy filters among the first `n`
      keys: exactly those positions, in ascending order. */
  function Active(filters: Filters, n: nat): (idx: seq<nat>)
    requires n <= |FilterKeys|
    ensures forall j :: 0 <= j < |idx| ==> idx[j] < n
    ensures forall j, k :: 0 <= j < k < |idx| ==> idx[j] < idx[k]
    ensures forall i :: 0 <= i < n ==> (i in idx <==> Truthy(filters, FilterKeys[i]))
  {
    if n == 0 then []
    else Active(filters, n - 1) + (if Truthy(filters, FilterKeys[n - 1]) then [n - 1] else [])
  }

  /** `conditions` and `params` hold, position by position, the condition and
      the bound value of each filter listed in `idx`. */
  predicate Lists(filters: Filters, idx: seq<nat>, conditions: seq<string>, params: seq<SqlValue>) {
    && |conditions| == |idx| == |params|
    && forall j :: 0 <= j < |idx| ==>
         idx[j] < |FilterKeys| && FilterKeys[idx[j]] in filters
         && conditions[j] == FilterConditions[idx[j]]
         && params[j] == FilterParam(FilterKeys[idx[j]], filters[FilterKeys[idx[j]]])
  }

  /** One `if filters.get(key)` step of the builder, for key number `i`:
      append the key's condition and bound value when the filter is truthy. */
  method AddFilter(filters: Filters, i: nat, conditions: seq<string>, params: seq<SqlValue>)
    returns (conditions': seq<string>, params': seq<SqlValue>)
    requires i < |FilterKeys|
    requires Lists(filters, Active(filters, i), conditions, params)
    ensures Lists(filters, Active(filters, i + 1), conditions', params')
  {
    var key := FilterKeys[i];
    if Truthy(filters, key) {
      conditions' := conditions + [FilterConditions[i]];
      params' := params + [FilterParam(key, filters[key])];
    } else {
      conditions', params' := conditions, params;
    }
  }

  /** Build the condition list and the parallel parameter list of the
      listing query: one condition per truthy filter, in the fixed key order
      location, sentiment, q, rating_min, rating_max, date_from, date_to. */
  method BuildConditions(filters: Filters) returns (conditions: seq<string>, params: seq<SqlValue>)
    ensures Lists(filters, Active(filters, |FilterKeys|), conditions, params)
  {
    conditions, params := [], [];
    conditions, params := AddFilter(filters, 0, conditions, params);
    conditions, params := AddFilter(filters, 1, conditions, params);
    conditions, params := AddFilter(filters, 2, conditions, params);
    conditions, params := AddFilter(filters, 3, conditions, params);
    conditions, params := AddFilter(filters, 4, conditions, params);
    conditions, params := AddFilter(filters, 5, conditions, params);
    conditions, params := AddFilter(filters, 6, conditions, params);
  }

  /** The WHERE clause: empty without conditions, otherwise " WHERE "
      followed by the conditions joined with " AND ". */
  function WhereClause(conditions: seq<string>): (w: string)
    ensures w == "" <==> conditions == []
    ensures conditions != [] ==> " WHERE " <= w && w[|" WHERE "|..] == Join(conditions, " AND ")
  {
    if conditions == [] then "" else " WHERE " + Join(conditions, " AND ")
  }

  /** The conditions list is empty exactly when no filter is truthy. */
  lemma NoConditionsIffNoFilters(filters: Filters, conditions: seq<string>, params: seq<SqlValue>)
    requires Lists(filters, Active(filters, |FilterKeys|), conditions, params)
    ensures conditions == [] <==> forall i :: 0 <= i < |FilterKeys| ==> !Truthy(filters, FilterKeys[i])
  {
    var idx := Active(filters, |FilterKeys|);
    if conditions != [] {
      assert idx[0] in idx;
    }
  }

  // ---------------------------------------------------------------------------
  // The listing's two queries
  // ---------------------------------------------------------------------------

  const CountQueryHead: string := "SELECT COUNT(*) FROM reviews"
  const PageQueryHead: string :=
    "SELECT id, location, rating, text, date, sentiment, topic, created_at, updated_at, processed_at, metadata FROM reviews"
  const PageQueryTail: string := " ORDER BY created_at DESC LIMIT ? OFFSET ?"

  /** What the listing sends to SQLite: a count query and a page query over
      the same WHERE clause, and the values each binds. */
  datatype QueryPlan = QueryPlan(
    countQuery: string,
    countParams: seq<SqlValue>,
    pageQuery: string,
    pageParams: seq<SqlValue>,
    offset: int)

  /** Rows skipped before the requested page. */
  function PageOffset(page: int, pageSize: int): (offset: int)
    ensures page >= 1 && pageSize >= 0 ==> offset >= 0
    ensures pageSize >= 0 ==> offset + pageSize == page * pageSize
  {
    (page - 1) * pageSize
  }

  // ---------------------------------------------------------------------------
  // The table
  // ---------------------------------------------------------------------------

  /** The row `insert_reviews` binds for one review: missing sentiment and
      topic become NULL, the metadata is the constant above. */
  function RowOf(r: ReviewRecord): (row: ReviewRow)
    ensures row.id == r.id && row.metadata == InsertMetadata
    ensures row.sentiment == r.sentiment && row.topic == r.topic
  {
    ReviewRow(r.id, r.location, r.rating, r.text, r.date, r.sentiment, r.topic, InsertMetadata)
  }

  /** `INSERT OR REPLACE` of the rows, one after the other. */
  function UpsertAll(table: map<int, ReviewRow>, rows: seq<ReviewRow>): (t: map<int, ReviewRow>)
    ensures t.Keys == table.Keys + Ids(rows)
  {
    if rows == [] then table
    else UpsertAll(table, rows[..|rows| - 1])[rows[|rows| - 1].id := rows[|rows| - 1]]
  }

  /** The index of the last row with the given id, if any. */
  function LastWithId(rows: seq<ReviewRow>, id: int): (i: int)
    ensures -1 <= i < |rows|
    ensures i >= 0 ==> rows[i].id == id && forall j :: i < j < |rows| ==> rows[j].id != id
    ensures i < 0 ==> forall j :: 0 <= j < |rows| ==> rows[j].id != id
  {
    if rows == [] then -1
    else if rows[|rows| - 1].id == id then |rows| - 1
    else LastWithId(rows[..|rows| - 1], id)
  }

  /** After the upserts, each id of the batch maps to the last row with that
      id, and every other id keeps what it had. */
  lemma {:induction false} UpsertAllAt(table: map<int, ReviewRow>, rows: seq<ReviewRow>, id: int)
    ensures var t := UpsertAll(table, rows);
      var i := LastWithId(rows, id);
      (i >= 0 ==> id in t && t[id] == rows[i])
      && (i < 0 ==> (id in t <==> id in table) && (id in t ==> t[id] == table[id]))
  {
    if rows != [] {
      UpsertAllAt(table, rows[..|rows| - 1], id);
    }
  }

  /** The rows of the table are keyed by their own id. */
  predicate KeyedById(table: map<int, ReviewRow>) {
    forall id :: id in table ==> table[id].id == id
  }

  lemma {:induction false} UpsertAllKeyed(table: map<int, ReviewRow>, rows: seq<ReviewRow>)
    requires KeyedById(table)
    ensures KeyedById(UpsertAll(table, rows))
  {
    if rows != [] {
      UpsertAllKeyed(table, rows[..|rows| - 1]);
    }
  }

  /** The reviews table and the operations on it. */
  class DatabaseManager {
    var reviews: map<int, ReviewRow>

    ghost predicate Valid()
      reads this
    {
      KeyedById(reviews)
    }

    /** Open the database file. The table is created only when the file
        does not have it yet, so the manager starts from the rows already
        stored there (none for a fresh file). */
    constructor (stored: map<int, ReviewRow>)
      requires KeyedById(stored)
      ensures Valid() && reviews == stored
    {
      reviews := stored;
    }

    /** Look a review up by id. `fault` is the error the connection raises, if any. */
    method GetReviewById(id: int, fault: Option<string>) returns (r: Result<Option<ReviewRow>, string>)
      requires Valid()
      ensures fault.Some? ==> r == Err(fault.value)
      ensures fault.None? ==> r.Ok? && (r.value.None? <==> id !in reviews)
      ensures fault.None? && r.value.Some? ==> r.value.value == reviews[id] && r.value.value.id == id
    {
      if fault.Some? {
        return Err(fault.value);
      }
      if id in reviews {
        r := Ok(Some(reviews[id]));
      } else {
        r := Ok(None);
      }
    }

    /** The query plan of the filtered, paginated listing. */
    method GetReviewsPaginated(filters: Filters, page: int, pageSize: int) returns (plan: QueryPlan)
      ensures exists conditions ::
        && Lists(filters, Active(filters, |FilterKeys|), conditions, plan.countParams)
        && plan.countQuery == CountQueryHead + WhereClause(conditions)
        && plan.pageQuery == PageQueryHead + WhereClause(conditions) + PageQueryTail
      ensures plan.offset == PageOffset(page, pageSize)
      ensures plan.pageParams == plan.countParams + [SqlInt(pageSize), SqlInt(plan.offset)]
    {
      var conditions, params := BuildConditions(filters);
      var whereClause := WhereClause(conditions);
      var countQuery := CountQueryHead + whereClause;
      var offset := (page - 1) * pageSize;
      var query := PageQueryHead + whereClause + PageQueryTail;
      plan := QueryPlan(countQuery, params, query, params + [SqlInt(pageSize), SqlInt(offset)], offset);
    }

    /** Insert a batch with `INSERT OR REPLACE`. A row breaking the rating
        constraint, or a connection fault, rolls the whole batch back. */
    method InsertReviews(batch: seq<ReviewRecord>, fault: Option<string>) returns (r: Result<nat, string>)
      requires Valid()
      modifies this
      ensures Valid()
      ensures r.Err? ==> reviews == old(reviews)
      ensures fault.Some? ==> r == Err(fault.value)
      ensures fault.None? && (exists j :: 0 <= j < |batch| && !(1 <= batch[j].rating <= 5))
              ==> r == Err(RatingCheckFailed)
      ensures fault.None? && (forall j :: 0 <= j < |batch| ==> 1 <= batch[j].rating <= 5)
              ==> r == Ok(|batch|) && reviews == UpsertAll(old(reviews), Rows(batch))
    {
      var paramsList: seq<ReviewRow> := [];
      for i := 0 to |batch|
        invariant paramsList == Rows(batch[..i])
      {
        paramsList := paramsList + [RowOf(batch[i])];
        assert batch[..i + 1][..i] == batch[..i];
      }
      assert batch[..|batch|] == batch;
      if fault.Some? {
        return Err(fault.value);
      }
      var j := 0;
      while j < |paramsList|
        invariant 0 <= j <= |paramsList|
        invariant forall k :: 0 <= k < j ==> 1 <= paramsList[k].rating <= 5
      {
        if !(1 <= paramsList[j].rating <= 5) {
          return Err(RatingCheckFailed);
        }
        j := j + 1;
      }
      UpsertAllKeyed(reviews, paramsList);
      reviews := UpsertAll(reviews, paramsList);
      r := Ok(|batch|);
    }

    /** Read every row of the table (`SELECT ... FROM reviews`). SQLite
        returns the rows in an order of its choosing; any order is allowed
        here, every row once. */
    method ScanReviews() returns (scan: seq<ReviewRow>)
      requires Valid()
      ensures IsScanOf(scan, reviews)
    {
      scan := [];
      var remaining := reviews.Keys;
      while remaining != {}
        invariant remaining <= reviews.Keys
        invariant forall i :: 0 <= i < |scan| ==> scan[i].id in reviews && reviews[scan[i].id] == scan[i] && scan[i].id !in remaining
        invariant forall i, j :: 0 <= i < j < |scan| ==> scan[i].id != scan[j].id
        invariant forall id :: id in reviews && id !in remaining ==> exists i :: 0 <= i < |scan| && scan[i].id == id
        decreases remaining
      {
        var id := PickKey(remaining);
        var prev := scan;
        scan := scan + [reviews[id]];
        assert forall i :: 0 <= i < |prev| ==> scan[i] == prev[i];
        assert scan[|scan| - 1].id == id;
        remaining := remaining - {id};
      }
    }

    /** Store the analysis of one review. True exactly when a row with that
        id exists and the statement ran; only that row's sentiment and topic
        change. `fault` stands for an error raised by the connection, which is
        caught and reported as false. */
    method UpdateReviewAiData(id: int, sentiment: string, topic: string, fault: bool) returns (ok: bool)
      requires Valid()
      modifies this
      ensures Valid()
      ensures ok == (!fault && id in old(reviews))
      ensures reviews == if ok then UpdatedAi(old(reviews), id, sentiment, topic) else old(reviews)
    {
      if fault {
        return false;
      }
      if id in reviews {
        reviews := UpdatedAi(reviews, id, sentiment, topic);
        ok := true;
      } else {
        ok := false;
      }
    }
  }

  /** Some key of a non-empty set of ids. */
  method PickKey(ids: set<int>) returns (id: int)
    requires ids != {}
    ensures id in ids
  {
    if forall k :: k !in ids {
      assert false;
    }
    id :| id in ids;
  }

  /** The rows bound for a batch, one per review, in order. */
  function Rows(batch: seq<ReviewRecord>): (rows: seq<ReviewRow>)
    ensures |rows| == |batch|
    ensures forall j :: 0 <= j < |batch| ==> rows[j] == RowOf(batch[j])
  {
    seq(|batch|, j requires 0 <= j < |batch| => RowOf(batch[j]))
  }

  /** The table with one row's sentiment and topic replaced. */
  function UpdatedAi(table: map<int, ReviewRow>, id: int, sentiment: string, topic: string): (t: map<int, ReviewRow>)
    requires id in table
    ensures t.Keys == table.Keys
    ensures t[id] == table[id].(sentiment := Some(sentiment), topic := Some(topic))
    ensures forall k :: k in table && k != id ==> t[k] == table[k]
  {
    table[id := table[id].(sentiment := Some(sentiment), topic := Some(topic))]
  }

  // ---------------------------------------------------------------------------
  // Scans of the table
  // ---------------------------------------------------------------------------

  /** `scan` lists every row of the table exactly once, in some order. */
  predicate IsScanOf(scan: seq<ReviewRow>, table: map<int, ReviewRow>) {
    && (forall i :: 0 <= i < |scan| ==> scan[i].id in table && table[scan[i].id] == scan[i])
    && (forall i, j :: 0 <= i < j < |scan| ==> scan[i].id != scan[j].id)
    && (forall id :: id in table ==> exists i :: 0 <= i < |scan| && scan[i].id == id)
  }

  function Ids(scan: seq<ReviewRow>): set<int> {
    set i | 0 <= i < |scan| :: scan[i].id
  }

  lemma {:induction false} IdsCard(scan: seq<ReviewRow>)
    requires forall i, j :: 0 <= i < j < |scan| ==> scan[i].id != scan[j].id
    ensures |Ids(scan)| == |scan|
  {
    if scan != [] {
      var p := scan[..|scan| - 1];
      IdsCard(p);
      var last := scan[|scan| - 1].id;
      assert Ids(scan) == Ids(p) + {last} by {
        forall id | id in Ids(scan) ensures id in Ids(p) + {last} {
          var i :| 0 <= i < |scan| && scan[i].id == id;
          if i < |scan| - 1 { assert p[i].id == id; }
        }
        forall id | id in Ids(p) ensures id in Ids(scan) {
          var i :| 0 <= i < |p| && p[i].id == id;
          assert scan[i].id == id;
        }
      }
      assert last !in Ids(p);
    }
  }

  /** A scan has exactly as many rows as the table (`SELECT COUNT(*)`). */
  lemma ScanLength(scan: seq<ReviewRow>, table: map<int, ReviewRow>)
    requires IsScanOf(scan, table)
    ensures |scan| == |table|
  {
    IdsCard(scan);
    forall id | id in table ensures id in Ids(scan) {
      var i :| 0 <= i < |scan| && scan[i].id == id;
    }
    assert Ids(scan) == table.Keys;
  }
}
