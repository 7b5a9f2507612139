/**
 * The request handlers of the PostgreSQL protocol server. Each handler
 * either fails before touching the pool or checks out one connection, runs
 * its statements and releases the connection on every exit path.
 */
module Server {
  import opened Wrappers
  import opened Faults
  import opened ResourceUri
  import opened Catalog
  import opened Pool

  /** The catalog query of the list handler. */
  const ListTablesSql: string :=
    "SELECT table_name AS name, table_schema AS schema" + " " + "FROM information_schema.tables"

  /** The column lookup of the read handler; the names are bound as $1 and $2, never spliced in. */
  const ColumnsSql: string :=
    "SELECT column_name, data_type" + " " + "FROM information_schema.columns" + " " +
    "WHERE table_name = $1" + " " + "AND table_schema = $2"

  const BeginSql: string := "BEGIN TRANSACTION READ ONLY"

  const RollbackSql: string := "ROLLBACK"

  /** `${row[column]}` in a template string: the value, or "undefined" for a missing column. */
  function Field(row: Row, column: string): string
  {
    if column in row then row[column] else "undefined"
  }

  /**
   * `rows.map(...)` of the list handler: one resource per (name, schema) row,
   * in row order. The first row whose URI cannot be resolved throws.
   */
  function ListedResources(base: Url, rows: seq<Row>): (r: Result<seq<Resource>, Fault>)
    ensures r.Ok? <==> forall i :: 0 <= i < |rows| ==> RowResolves(base, rows[i])
    ensures r.Err? ==> r.error == InvalidUrl
    ensures r.Ok? ==> |r.value| == |rows|
    ensures r.Ok? ==> forall i :: 0 <= i < |rows| ==>
      Some(r.value[i]) == TableResource(base, Field(rows[i], "name"), Field(rows[i], "schema"))
  {
    if rows == [] then Ok([])
    else
      match TableResource(base, Field(rows[0], "name"), Field(rows[0], "schema"))
      case None => Err(InvalidUrl)
      case Some(resource) =>
        match ListedResources(base, rows[1..])
        case Err(e) => Err(e)
        case Ok(rest) => Ok([resource] + rest)
  }

  /** The URI of the row's (name, schema) pair can be built against `base`. */
  predicate RowResolves(base: Url, row: Row)
  {
    TableResource(base, Field(row, "name"), Field(row, "schema")).Some?
  }

  /** The events of a handler that runs one statement on one connection. */
  function SingleQuery(statement: string, params: seq<Param>, reply: Reply): seq<Event>
  {
    [Acquire, Exec(Some(statement), params, reply), Release]
  }

  /** What the list handler returns once the catalog query has answered. */
  function ListResult(base: Url, reply: Reply): (r: Result<seq<Resource>, Fault>)
    ensures reply.Failed? ==> r == Err(Database(reply.error))
    ensures reply.Rows? ==> r.Err? ==> r.error == InvalidUrl
    ensures r.Ok? ==> reply.Rows? && |r.value| == |reply.rows|
  {
    match reply
    case Failed(e) => Err(Database(e))
    case Rows(rows) => ListedResources(base, rows)
  }

  /** The body of a `resources/read` answer: the requested URI and the column rows. */
  datatype ResourceContents = ResourceContents(uri: string, mimeType: string, rows: seq<Row>)

  /** What the read handler returns once the column lookup has answered. */
  function ReadResult(uri: string, reply: Reply): Result<ResourceContents, Fault>
  {
    match reply
    case Failed(e) => Err(Database(e))
    case Rows(rows) => Ok(ResourceContents(uri, JsonMimeType, rows))
  }

  /** The body of a `tools/call` answer: the query's rows, never flagged as an error. */
  datatype ToolOutput = ToolOutput(rows: seq<Row>, isError: bool)

  /** `request.params.arguments?.sql`. */
  function SqlArgument(arguments: map<string, string>): Option<string>
  {
    if "sql" in arguments then Some(arguments["sql"]) else None
  }

  /**
   * The events of the query tool once a connection is held. The user's
   * statement runs only when BEGIN succeeded; ROLLBACK and release follow on
   * both paths.
   */
  function QueryToolEvents(sql: Option<string>, begin: Reply, exec: Reply, rollback: Reply): (r: seq<Event>)
    ensures |r| == if begin.Rows? then 5 else 4
    ensures r[0] == Acquire && r[|r| - 1] == Release
    ensures r[|r| - 2] == Exec(Some(RollbackSql), [], rollback)
  {
    if begin.Failed? then
      [Acquire, Exec(Some(BeginSql), [], begin), Exec(Some(RollbackSql), [], rollback), Release]
    else
      [Acquire, Exec(Some(BeginSql), [], begin), Exec(sql, [], exec), Exec(Some(RollbackSql), [], rollback), Release]
  }

  /**
   * What the query tool returns: the rows of the user's statement, or the
   * first error among BEGIN and the statement. The ROLLBACK reply is not
   * an argument: its failure is only warned about.
   */
  function QueryToolResult(begin: Reply, exec: Reply): (r: Result<ToolOutput, Fault>)
    ensures r.Ok? <==> begin.Rows? && exec.Rows?
    ensures r.Ok? ==> r.value == ToolOutput(exec.rows, false)
    ensures r.Err? ==> r.error == Database(if begin.Failed? then begin.error else exec.error)
  {
    if begin.Failed? then Err(Database(begin.error))
    else
      match exec
      case Failed(e) => Err(Database(e))
      case Rows(rows) => Ok(ToolOutput(rows, false))
  }

  /** `e` is one connection used for exactly one statement, `statement` with `params`. */
  ghost predicate SingleQueryRun(statement: string, params: seq<Param>, e: seq<Event>)
  {
    |e| == 3 && e[1].Exec? && e == SingleQuery(statement, params, e[1].reply)
  }

  /** The possible runs of the list handler: the connect failed, or one catalog query ran. */
  ghost predicate ListRun(base: Url, e: seq<Event>, r: Result<seq<Resource>, Fault>)
  {
    || (e == [] && r.Err? && r.error.Database?)
    || (SingleQueryRun(ListTablesSql, [], e) && r == ListResult(base, e[1].reply))
  }

  /**
   * The possible runs of the read handler: it fails before connecting when
   * the URI does not parse, or else it runs as `ParsedReadRun` says.
   */
  ghost predicate ReadRun(uri: string, url: Option<Url>, e: seq<Event>, r: Result<ResourceContents, Fault>)
  {
    match url
    case None => e == [] && r == Err(InvalidUrl)
    case Some(u) => ParsedReadRun(uri, ParseResourcePath(Pathname(u.path)), e, r)
  }

  /**
   * The read handler once the path is parsed: a failed marker check throws
   * before connecting; otherwise the connect fails, or one column lookup runs
   * with the parsed table and schema names as its two parameters.
   */
  ghost predicate ParsedReadRun(
    uri: string, parsed: Result<ResourceRef, Fault>, e: seq<Event>, r: Result<ResourceContents, Fault>)
  {
    match parsed
    case Err(f) => e == [] && r == Err(f)
    case Ok(ref) =>
      || (e == [] && r.Err? && r.error.Database?)
      || (SingleQueryRun(ColumnsSql, [ref.tableName, ref.schemaName], e) && r == ReadResult(uri, e[1].reply))
  }

  /**
   * The possible runs of the tool handler: an unknown tool fails before
   * connecting; the query tool fails to connect or runs its transaction.
   */
  ghost predicate CallToolRun(name: string, sql: Option<string>, e: seq<Event>, r: Result<ToolOutput, Fault>)
  {
    if !IsKnownTool(name) then e == [] && r == Err(UnknownTool(name))
    else QueryToolRun(sql, e, r)
  }

  /** The possible runs of the query tool: the connect failed, or its transaction ran. */
  ghost predicate QueryToolRun(sql: Option<string>, e: seq<Event>, r: Result<ToolOutput, Fault>)
  {
    || (e == [] && r.Err? && r.error.Database?)
    || exists begin, exec, rollback ::
         e == QueryToolEvents(sql, begin, exec, rollback) && r == QueryToolResult(begin, exec)
  }

  /**
   * On the connection the request holds, BEGIN READ ONLY is issued before the
   * user's statement and ROLLBACK after it, and no other statement is issued.
   */
  ghost predicate BracketedByReadOnlyTransaction(e: seq<Event>, sql: Option<string>)
  {
    && Session(e)
    && |e| >= 4
    && e[1].Exec? && e[1].statement == Some(BeginSql)
    && e[|e| - 2].Exec? && e[|e| - 2].statement == Some(RollbackSql)
    && forall i :: 1 < i < |e| - 2 ==> e[i].Exec? && e[i].statement == sql
  }

  /**
   * Order in the query tool: BEGIN READ ONLY first, then the user's statement
   * (only if BEGIN succeeded, and then exactly once), then ROLLBACK, then the
   * release; one connection is acquired and released exactly once. What
   * the statement itself does to the transaction is not visible here.
   */
  lemma QueryToolOrder(sql: Option<string>, begin: Reply, exec: Reply, rollback: Reply)
    ensures BracketedByReadOnlyTransaction(QueryToolEvents(sql, begin, exec, rollback), sql)
    ensures |QueryToolEvents(sql, begin, exec, rollback)| == if begin.Rows? then 5 else 4
    ensures Acquires(QueryToolEvents(sql, begin, exec, rollback)) == 1
    ensures Releases(QueryToolEvents(sql, begin, exec, rollback)) == 1
  {
    var e := QueryToolEvents(sql, begin, exec, rollback);
    assert Session(e);
    SessionBalanced(e, 0);
  }

  /** Every run of the list handler is a session: at most one acquire, first, and a matching release, last. */
  lemma ListRunIsSession(base: Url, e: seq<Event>, r: Result<seq<Resource>, Fault>)
    requires ListRun(base, e, r)
    ensures Session(e)
    ensures Acquires(e) == Releases(e) == if e == [] then 0 else 1
  {
    SessionBalanced(e, 0);
  }

  /**
   * Every run of the read handler past the URL constructor is a session, and
   * a failed marker check acquires nothing.
   */
  lemma ParsedReadRunIsSession(
    uri: string, parsed: Result<ResourceRef, Fault>, e: seq<Event>, r: Result<ResourceContents, Fault>)
    requires ParsedReadRun(uri, parsed, e, r)
    ensures Session(e)
    ensures Acquires(e) == Releases(e) == if e == [] then 0 else 1
    ensures parsed.Err? ==> e == [] && r == Err(parsed.error)
  {
    SessionBalanced(e, 0);
  }

  /** Every run of the tool handler is a session, and an unknown tool acquires nothing. */
  lemma CallToolRunIsSession(name: string, sql: Option<string>, e: seq<Event>, r: Result<ToolOutput, Fault>)
    requires CallToolRun(name, sql, e, r)
    ensures Session(e)
    ensures Acquires(e) == Releases(e) == if e == [] then 0 else 1
    ensures !IsKnownTool(name) ==> e == []
  {
    if e != [] {
      var begin, exec, rollback :| e == QueryToolEvents(sql, begin, exec, rollback);
      QueryToolOrder(sql, begin, exec, rollback);
    }
    SessionBalanced(e, 0);
  }

  /**
   * Every resource the list handler returns for a row whose names hold no
   * '/', and whose table name does not start with a scheme, is read back by the read handler as exactly that table and schema.
   */
  lemma ListedResourceResolves(base: Url, rows: seq<Row>, resources: seq<Resource>, i: nat)
    requires ListedResources(base, rows) == Ok(resources)
    requires i < |resources|
    requires '/' !in Field(rows[i], "name") && '/' !in Field(rows[i], "schema")
    requires !SchemeLike(Field(rows[i], "name"))
    ensures resources[i].mimeType == JsonMimeType
    ensures ParseResourcePath(Pathname(resources[i].uri.path))
         == Ok(ResourceRef(Some(Field(rows[i], "name")), Some(Field(rows[i], "schema"))))
  {
    var table, schema := Field(rows[i], "name"), Field(rows[i], "schema");
    assert Some(resources[i]) == TableResource(base, table, schema);
    ResourceUriRoundTrip(base, table, schema);
  }

  /**
   * Reading a listed resource never fails on the URI: it connects and looks
   * up the columns of the listed table and schema, bound in that order.
   */
  lemma ReadOfListedResource(
    base: Url, rows: seq<Row>, resources: seq<Resource>, i: nat,
    uri: string, e: seq<Event>, r: Result<ResourceContents, Fault>)
    requires ListedResources(base, rows) == Ok(resources)
    requires i < |resources|
    requires '/' !in Field(rows[i], "name") && '/' !in Field(rows[i], "schema")
    requires !SchemeLike(Field(rows[i], "name"))
    requires ReadRun(uri, Some(resources[i].uri), e, r)
    ensures r != Err(InvalidUrl) && r != Err(InvalidResourceUri)
    ensures e != [] ==> |e| == 3 && e[1].Exec? && e[1].statement == Some(ColumnsSql)
    ensures e != [] ==> e[1].params == [Some(Field(rows[i], "name")), Some(Field(rows[i], "schema"))]
  {
    ListedResourceResolves(base, rows, resources, i);
    var ref := ResourceRef(Some(Field(rows[i], "name")), Some(Field(rows[i], "schema")));
    assert ParsedReadRun(uri, Ok(ref), e, r);
    if e == [] {
      assert r.Err? && r.error.Database?;
    } else {
      assert SingleQueryRun(ColumnsSql, [ref.tableName, ref.schemaName], e);
      assert r == ReadResult(uri, e[1].reply);
    }
  }

  /** An unknown tool is reported with its name, before any connection is taken. */
  lemma UnknownToolReported(name: string, sql: Option<string>, e: seq<Event>, r: Result<ToolOutput, Fault>)
    requires CallToolRun(name, sql, e, r)
    requires name != QueryToolName
    ensures e == [] && r.Err? && r.error.Message() == "Unknown tool: " + name
  {
  }

  /** One server: the pool it shares among its handlers and the base of its resource URIs. */
  class Server {
    const pool: ConnectionPool
    /** The database URL with the password cleared and the scheme set to `postgres:`. */
    const resourceBase: Url

    constructor (pool: ConnectionPool, resourceBase: Url)
      ensures this.pool == pool && this.resourceBase == resourceBase
    {
      this.pool := pool;
      this.resourceBase := resourceBase;
    }

    /** `resources/list`: one resource per table of the catalog. */
    method ListResources() returns (r: Result<seq<Resource>, Fault>)
      requires pool.Valid()
      modifies pool
      ensures pool.Valid() && pool.held == old(pool.held)
      ensures old(pool.trace) <= pool.trace
      ensures Session(pool.trace[|old(pool.trace)|..])
      ensures ListRun(resourceBase, pool.trace[|old(pool.trace)|..], r)
    {
      ghost var before := pool.trace;
      var connected := pool.Connect();
      if connected.Err? {
        assert pool.trace[|before|..] == [];
        r := Err(Database(connected.error));
        ListRunIsSession(resourceBase, [], r);
        return;
      }
      var reply := pool.Query(Some(ListTablesSql), []);
      r := ListResult(resourceBase, reply);
      pool.Release();
      assert pool.trace[|before|..] == SingleQuery(ListTablesSql, [], reply);
      ListRunIsSession(resourceBase, pool.trace[|before|..], r);
    }

    /**
     * `resources/read`. `url` is what the URL constructor makes of `uri`
     * (`None` when it throws); `uri` itself is echoed in the answer.
     */
    method ReadResource(uri: string, url: Option<Url>) returns (r: Result<ResourceContents, Fault>)
      requires pool.Valid()
      modifies pool
      ensures pool.Valid() && pool.held == old(pool.held)
      ensures old(pool.trace) <= pool.trace
      ensures Session(pool.trace[|old(pool.trace)|..])
      ensures ReadRun(uri, url, pool.trace[|old(pool.trace)|..], r)
    {
      ghost var before := pool.trace;
      if url.None? {
        assert pool.trace[|before|..] == [];
        return Err(InvalidUrl);
      }
      var parsed := ParseResourcePath(Pathname(url.value.path));
      if parsed.Err? {
        assert pool.trace[|before|..] == [];
        r := Err(parsed.error);
      } else {
        r := LookupColumns(uri, parsed.value);
      }
      ParsedReadRunIsSession(uri, parsed, pool.trace[|before|..], r);
    }

    /** The part of `resources/read` after the marker check: one column lookup, bound by parameters. */
    method LookupColumns(uri: string, ref: ResourceRef) returns (r: Result<ResourceContents, Fault>)
      requires pool.Valid()
      modifies pool
      ensures pool.Valid() && pool.held == old(pool.held)
      ensures old(pool.trace) <= pool.trace
      ensures ParsedReadRun(uri, Ok(ref), pool.trace[|old(pool.trace)|..], r)
    {
      ghost var before := pool.trace;
      var connected := pool.Connect();
      if connected.Err? {
        assert pool.trace[|before|..] == [];
        return Err(Database(connected.error));
      }
      var params := [ref.tableName, ref.schemaName];
      var reply := pool.Query(Some(ColumnsSql), params);
      r := ReadResult(uri, reply);
      pool.Release();
      assert pool.trace[|before|..] == SingleQuery(ColumnsSql, params, reply);
    }

    /** `tools/call`: only the query tool is known; any other name throws before connecting. */
    method CallTool(name: string, arguments: map<string, string>) returns (r: Result<ToolOutput, Fault>)
      requires pool.Valid()
      modifies pool
      ensures pool.Valid() && pool.held == old(pool.held)
      ensures old(pool.trace) <= pool.trace
      ensures Session(pool.trace[|old(pool.trace)|..])
      ensures CallToolRun(name, SqlArgument(arguments), pool.trace[|old(pool.trace)|..], r)
    {
      ghost var before := pool.trace;
      if IsKnownTool(name) {
        r := QueryTool(SqlArgument(arguments));
      } else {
        assert pool.trace[|before|..] == [];
        r := Err(UnknownTool(name));
      }
      CallToolRunIsSession(name, SqlArgument(arguments), pool.trace[|before|..], r);
    }

    /**
     * The query tool: issue BEGIN READ ONLY, then `sql` when BEGIN succeeded,
     * then ROLLBACK, and release the connection on every path.
     */
    method QueryTool(sql: Option<string>) returns (r: Result<ToolOutput, Fault>)
      requires pool.Valid()
      modifies pool
      ensures pool.Valid() && pool.held == old(pool.held)
      ensures old(pool.trace) <= pool.trace
      ensures QueryToolRun(sql, pool.trace[|old(pool.trace)|..], r)
    {
      ghost var before := pool.trace;
      var connected := pool.Connect();
      if connected.Err? {
        assert pool.trace[|before|..] == [];
        return Err(Database(connected.error));
      }
      var begin := pool.Query(Some(BeginSql), []);
      ghost var exec := begin;
      if begin.Failed? {
        r := Err(Database(begin.error));
      } else {
        var reply := pool.Query(sql, []);
        exec := reply;
        match reply {
          case Failed(e) => r := Err(Database(e));
          case Rows(rows) => r := Ok(ToolOutput(rows, false));
        }
      }
      assert r == QueryToolResult(begin, exec);
      // The rollback is issued and not awaited; a failure is only logged.
      var rollback := pool.Query(Some(RollbackSql), []);
      pool.Release();
      assert pool.trace == before + QueryToolEvents(sql, begin, exec, rollback);
      assert pool.trace[|before|..] == QueryToolEvents(sql, begin, exec, rollback);
    }
  }
}
