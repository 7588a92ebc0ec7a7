/**
 * The query dispatchers of src/pgtools.es6.js. Each one forwards a call to the
 * database client with a fresh completion handler; here each returns the
 * `Request` that the client would receive. A query descriptor is the
 * two-element array `[tag, text]`.
 */
module Dispatch {
  import opened Handlers
  import Json

  /** The array `[tag, text]`: `query[0]` names the query in metrics and errors, `query[1]` is its statement. */
  datatype QueryDescriptor = QueryDescriptor(tag: string, text: string)

  /** The client operation called: `pg.query`, `pg.queryOne` or `pg.update`. */
  datatype Operation = PgQuery | PgQueryOne | PgUpdate

  /** A call on the client: the operation, the statement text, the parameters and the completion handler. */
  datatype Request = Request(op: Operation, text: string, data: Json.Value, handler: Handler)

  /** The request of a non-sensitive dispatcher: the descriptor's text, a handler tagged with its tag. */
  function Plain(op: Operation, query: QueryDescriptor, data: Json.Value, start: int): Request
  {
    Request(op, query.text, data, QueryCallback(query.tag, data, start))
  }

  /** The request of a sensitive dispatcher: the descriptor's text, a sensitive handler tagged with its tag. */
  function Sensitive(op: Operation, query: QueryDescriptor, data: Json.Value, start: int): Request
  {
    Request(op, query.text, data, SensitiveQueryCallback(query.tag, data, start))
  }

  function Query(query: QueryDescriptor, data: Json.Value, start: int): (req: Request)
    ensures req.op == PgQuery && req.text == query.text && req.data == data
    ensures req.handler == QueryCallback(query.tag, data, start)
  {
    Plain(PgQuery, query, data, start)
  }

  function QueryOne(query: QueryDescriptor, data: Json.Value, start: int): (req: Request)
    ensures req.op == PgQueryOne && req.text == query.text && req.data == data
    ensures req.handler == QueryCallback(query.tag, data, start)
  {
    Plain(PgQueryOne, query, data, start)
  }

  function Update(query: QueryDescriptor, data: Json.Value, start: int): (req: Request)
    ensures req.op == PgUpdate && req.text == query.text && req.data == data
    ensures req.handler == QueryCallback(query.tag, data, start)
  {
    Plain(PgUpdate, query, data, start)
  }

  function SensitiveQuery(query: QueryDescriptor, data: Json.Value, start: int): (req: Request)
    ensures req.op == PgQuery && req.text == query.text && req.data == data
    ensures req.handler == SensitiveQueryCallback(query.tag, data, start)
  {
    Sensitive(PgQuery, query, data, start)
  }

  function SensitiveQueryOne(query: QueryDescriptor, data: Json.Value, start: int): (req: Request)
    ensures req.op == PgQueryOne && req.text == query.text && req.data == data
    ensures req.handler == SensitiveQueryCallback(query.tag, data, start)
  {
    Sensitive(PgQueryOne, query, data, start)
  }

  function SensitiveUpdate(query: QueryDescriptor, data: Json.Value, start: int): (req: Request)
    ensures req.op == PgUpdate && req.text == query.text && req.data == data
    ensures req.handler == SensitiveQueryCallback(query.tag, data, start)
  {
    Sensitive(PgUpdate, query, data, start)
  }

  /**
   * The compound statement of an upsert:
   * `WITH upsert AS (<update> RETURNING *) <insert> WHERE NOT EXISTS (SELECT * FROM upsert);`
   */
  function UpsertStatement(update: string, insert: string): (s: string)
    ensures |s| == |update| + |insert| + 71
    ensures s[..16] == "WITH upsert AS ("
    ensures s[16..16 + |update|] == update
    ensures s[16 + |update|..30 + |update|] == " RETURNING *) "
    ensures s[30 + |update|..30 + |update| + |insert|] == insert
    ensures s[30 + |update| + |insert|..] == " WHERE NOT EXISTS (SELECT * FROM upsert);"
  {
    "WITH upsert AS (" + update + " RETURNING *) " + insert + " WHERE NOT EXISTS (SELECT * FROM upsert);"
  }

  /** Two upserts whose update statements have the same length build the same statement only from the same texts. */
  lemma UpsertStatementInjective(u1: string, i1: string, u2: string, i2: string)
    requires |u1| == |u2|
    requires UpsertStatement(u1, i1) == UpsertStatement(u2, i2)
    ensures u1 == u2 && i1 == i2
  {
    var s := UpsertStatement(u1, i1);
    assert u1 == s[16..16 + |u1|] == u2;
    assert |i1| == |i2|;
    assert i1 == s[30 + |u1|..30 + |u1| + |i1|] == i2;
  }

  /** `upsert(updateQuery, insertQuery, data, callback)`: one `pg.update` of the compound statement, under the update's tag. */
  function Upsert(updateQuery: QueryDescriptor, insertQuery: QueryDescriptor, data: Json.Value, start: int): (req: Request)
    ensures req.op == PgUpdate && req.data == data
    ensures req.text == UpsertStatement(updateQuery.text, insertQuery.text)
    ensures req.handler == QueryCallback(updateQuery.tag, data, start)
  {
    var query := UpsertStatement(updateQuery.text, insertQuery.text);
    Request(PgUpdate, query, data, QueryCallback(updateQuery.tag, data, start))
  }

  /**
   * `sensitiveUpsert` as written: it builds the same statement but forwards
   * `query[1]`, the statement's second character, which is always "I".
   */
  function SensitiveUpsert(updateQuery: QueryDescriptor, insertQuery: QueryDescriptor, data: Json.Value,
                           start: int): (req: Request)
    ensures req.op == PgUpdate && req.data == data
    ensures req.text == "I"
    ensures req.handler == SensitiveQueryCallback(updateQuery.tag, data, start)
  {
    var query := UpsertStatement(updateQuery.text, insertQuery.text);
    Request(PgUpdate, [query[1]], data, SensitiveQueryCallback(updateQuery.tag, data, start))
  }

  /** The text `sensitiveUpsert` forwards is never the upsert statement it built. */
  lemma SensitiveUpsertDropsStatement(updateQuery: QueryDescriptor, insertQuery: QueryDescriptor,
                                      data: Json.Value, start: int)
    ensures SensitiveUpsert(updateQuery, insertQuery, data, start).text
            != UpsertStatement(updateQuery.text, insertQuery.text)
    ensures SensitiveUpsert(updateQuery, insertQuery, data, start).text
            != Upsert(updateQuery, insertQuery, data, start).text
  {
    assert |UpsertStatement(updateQuery.text, insertQuery.text)| >= 71;
  }

  /** `sensitiveUpsert` as evidently intended: the whole statement, with a sensitive handler. */
  function SensitiveUpsertIntended(updateQuery: QueryDescriptor, insertQuery: QueryDescriptor, data: Json.Value,
                                   start: int): (req: Request)
    ensures req.op == PgUpdate && req.data == data
    ensures req.text == UpsertStatement(updateQuery.text, insertQuery.text)
    ensures req.handler == SensitiveQueryCallback(updateQuery.tag, data, start)
  {
    var query := UpsertStatement(updateQuery.text, insertQuery.text);
    Request(PgUpdate, query, data, SensitiveQueryCallback(updateQuery.tag, data, start))
  }

  /**
   * Whatever the parameters, the effects of completing any sensitive
   * dispatcher's request are the same: its parameters reach the client but
   * never the metric or the error handed to the caller.
   */
  lemma SensitiveDispatchHidesData<R>(query: QueryDescriptor, insertQuery: QueryDescriptor,
                                      d1: Json.Value, d2: Json.Value, start: int, now: int,
                                      err: Optional.Option<Errors.RawError>, results: R,
                                      stringify: Json.Value -> string)
    ensures Complete(SensitiveQuery(query, d1, start).handler, now, err, results, stringify)
            == Complete(SensitiveQuery(query, d2, start).handler, now, err, results, stringify)
    ensures Complete(SensitiveQueryOne(query, d1, start).handler, now, err, results, stringify)
            == Complete(SensitiveQueryOne(query, d2, start).handler, now, err, results, stringify)
    ensures Complete(SensitiveUpdate(query, d1, start).handler, now, err, results, stringify)
            == Complete(SensitiveUpdate(query, d2, start).handler, now, err, results, stringify)
    ensures Complete(SensitiveUpsert(query, insertQuery, d1, start).handler, now, err, results, stringify)
            == Complete(SensitiveUpsert(query, insertQuery, d2, start).handler, now, err, results, stringify)
  {
    SensitiveHidesData(query.tag, d1, d2, start, now, err, results, stringify);
  }

  /**
   * Completing a non-sensitive dispatcher's request logs its serialised
   * parameters under the descriptor's tag, and a generic error names that tag.
   */
  lemma PlainDispatchLogsData<R>(op: Operation, query: QueryDescriptor, data: Json.Value, start: int, now: int,
                                 err: Optional.Option<Errors.RawError>, results: R,
                                 stringify: Json.Value -> string)
    ensures var trace := Complete(Plain(op, query, data, start).handler, now, err, results, stringify);
            trace[0] == LogMetric(Metric(now - start, Optional.Some(stringify(data))), query.tag) &&
            (trace[1].err.Some? && trace[1].err.value.DBError? ==>
               trace[1].err.value.query == query.tag && trace[1].err.value.data == stringify(data))
  {
  }
}
