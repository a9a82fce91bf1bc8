/**
 * The fake async MySQL connection as objects whose fields change in place:
 * the shared backend server, the process-wide QueryContext statics, and the
 * connection itself with its lifecycle flags and current database.
 */
module AsyncMysql {
  import opened SqlFakeTypes
  import opened QuerySemantics

  /**
   * A fake backend server. Its configuration is fixed; its data is changed
   * only by the command processor. All connections to one host share it.
   */
  class Server {
    const name: string
    const config: Config
    var store: Store

    constructor (name: string, config: Config, store: Store)
      ensures this.name == name && this.config == config && this.store == store
    {
      this.name := name;
      this.config := config;
      this.store := store;
    }
  }

  /** The process-wide QueryContext statics, shared by every connection. */
  class QueryContext {
    var query: string
    var strictSQLMode: bool
    var strictSchemaMode: bool

    constructor (query: string, strictSQLMode: bool, strictSchemaMode: bool)
      ensures Value() == Context(query, strictSQLMode, strictSchemaMode)
    {
      this.query := query;
      this.strictSQLMode := strictSQLMode;
      this.strictSchemaMode := strictSchemaMode;
    }

    function Value(): Context
      reads this
    {
      Context(query, strictSQLMode, strictSchemaMode)
    }
  }

  /** The query formatter the connection delegates to; its code is not part of this model. */
  datatype Stringifier = Stringifier(
    formatQuery: StructuredQuery -> string,
    formatString: (string, seq<Value>) -> string)

  class AsyncMysqlConnection {
    var open: bool
    var reusable: bool
    var dbname: string
    const host: string
    const port: int
    const server: Server
    const stringifier: Stringifier

    /** A new connection is open and reusable, on the given host, port and database. */
    constructor (host: string, port: int, dbname: string, server: Server, stringifier: Stringifier)
      requires server.name == host
      ensures open && reusable
      ensures this.host == host && this.port == port && this.dbname == dbname
      ensures this.server == server
      ensures this.stringifier.formatQuery == stringifier.formatQuery
      ensures this.stringifier.formatString == stringifier.formatString
    {
      this.host := host;
      this.port := port;
      this.dbname := dbname;
      this.server := server;
      this.stringifier := stringifier;
      open := true;
      reusable := true;
    }

    /** The state a query on this connection can change, with `ctx` as the QueryContext. */
    function StateWith(ctx: QueryContext): State
      reads this, server, ctx
    {
      State(ctx.Value(), dbname, server.store)
    }

    method GetDatabase() returns (d: string)
      ensures d == dbname
    {
      d := dbname;
    }

    method SetDatabase(d: string)
      modifies this`dbname
      ensures dbname == d
    {
      dbname := d;
    }

    /**
     * Runs `text` through the command processor. The QueryContext records the
     * text, the strict flags the server requests are raised for the duration
     * of the processor call and restored afterwards on success and when the
     * processor throws an `\Exception`; any other throwable propagates past
     * the handler and leaves them raised. The schema override is applied
     * before the call and kept. The connection need not be open.
     */
    method Query(text: string, timeoutMicros: int, attributes: map<string, string>,
                 ctx: QueryContext, execute: Processor)
      returns (r: Result<QueryResult, Thrown>)
      modifies this`dbname, server`store, ctx
      ensures Transition(StateWith(ctx), r)
        == QueryTransition(old(StateWith(ctx)), text, server.config, host, execute)
      ensures ctx.query == text
      ensures r.Ok? || r.error.isException ==>
        ctx.strictSQLMode == old(ctx.strictSQLMode) && ctx.strictSchemaMode == old(ctx.strictSchemaMode)
      ensures r.Err? && !r.error.isException ==>
        && ctx.strictSQLMode == (old(ctx.strictSQLMode) || RequestsStrictSql(server.config))
        && ctx.strictSchemaMode == (old(ctx.strictSchemaMode) || RequestsStrictSchema(server.config))
      ensures dbname == InheritedSchema(old(dbname), server.config)
      ensures open == old(open) && reusable == old(reusable)
    {
      ctx.query := text;

      var config := server.config;
      var strictSqlBefore := ctx.strictSQLMode;
      if RequestsStrictSql(config) {
        ctx.strictSQLMode := true;
      }

      var strictSchemaBefore := ctx.strictSchemaMode;
      if RequestsStrictSchema(config) {
        ctx.strictSchemaMode := true;
      }

      if InheritTarget(config) != "" {
        dbname := InheritTarget(config);
      }

      var step := execute(Dispatch(text, ctx.Value(), host, dbname), server.store);
      server.store := step.store;
      match step.outcome {
        case Failure(e) =>
          if e.isException {
            ctx.strictSQLMode := strictSqlBefore;
            ctx.strictSchemaMode := strictSchemaBefore;
          }
          r := Err(e);
        case Success(rows, affected) =>
          ctx.strictSQLMode := strictSqlBefore;
          ctx.strictSchemaMode := strictSchemaBefore;
          r := Ok(QueryResult(rows, affected));
      }
    }

    /** Formats a structured query, then runs it with `Query`. */
    method QueryAsync(q: StructuredQuery, ctx: QueryContext, execute: Processor)
      returns (r: Result<QueryResult, Thrown>)
      modifies this`dbname, server`store, ctx
      ensures Transition(StateWith(ctx), r)
        == QueryTransition(old(StateWith(ctx)), stringifier.formatQuery(q), server.config, host, execute)
    {
      r := Query(stringifier.formatQuery(q), -1, map[], ctx, execute);
    }

    /** Formats a format string with its arguments, then runs it with `Query`. */
    method Queryf(format: string, args: seq<Value>, ctx: QueryContext, execute: Processor)
      returns (r: Result<QueryResult, Thrown>)
      modifies this`dbname, server`store, ctx
      ensures Transition(StateWith(ctx), r)
        == QueryTransition(old(StateWith(ctx)), stringifier.formatString(format, args), server.config, host, execute)
    {
      r := Query(stringifier.formatString(format, args), -1, map[], ctx, execute);
    }

    /**
     * Runs every text with `Query`, one after another in input order. The
     * strict flags end as they started unless some query threw a throwable
     * that is not an `\Exception`. Returns
     * all results in input order when every query succeeded, and otherwise
     * raises the error of the first query that failed.
     */
    method MultiQuery(texts: seq<string>, timeoutMicros: int, attributes: map<string, string>,
                      ctx: QueryContext, execute: Processor)
      returns (r: Result<seq<QueryResult>, Thrown>)
      modifies this`dbname, server`store, ctx
      ensures var m := MultiTransition(old(StateWith(ctx)), texts, server.config, host, execute);
        StateWith(ctx) == m.state && r == Gather(m.result)
      ensures !SkippedRestore(MultiTransition(old(StateWith(ctx)), texts, server.config, host, execute).result) ==>
        ctx.strictSQLMode == old(ctx.strictSQLMode) && ctx.strictSchemaMode == old(ctx.strictSchemaMode)
      ensures SkippedRestore(MultiTransition(old(StateWith(ctx)), texts, server.config, host, execute).result) ==>
        && ctx.strictSQLMode == (old(ctx.strictSQLMode) || RequestsStrictSql(server.config))
        && ctx.strictSchemaMode == (old(ctx.strictSchemaMode) || RequestsStrictSchema(server.config))
      ensures dbname == if texts == [] then old(dbname) else InheritedSchema(old(dbname), server.config)
    {
      ghost var start := StateWith(ctx);
      var results: seq<Result<QueryResult, Thrown>> := [];
      var i := 0;
      while i < |texts|
        invariant 0 <= i <= |texts|
        invariant Transition(StateWith(ctx), results)
          == MultiTransition(start, texts[..i], server.config, host, execute)
      {
        var ri := Query(texts[i], -1, map[], ctx, execute);
        MultiTransitionSnoc(start, texts[..i], texts[i], server.config, host, execute);
        assert texts[..i + 1] == texts[..i] + [texts[i]];
        results := results + [ri];
        i := i + 1;
      }
      assert texts[..i] == texts;
      MultiSchema(start, texts, server.config, host, execute);
      r := Gather(results);
    }

    /** Returns its argument unchanged. */
    function EscapeString(data: string): (escaped: string)
      ensures escaped == data
    {
      data
    }

    /** Closes the connection; closing a closed connection keeps it closed. */
    method Close()
      modifies this`open
      ensures !open
    {
      open := false;
    }

    method IsValid() returns (valid: bool)
      ensures valid == open
    {
      valid := open;
    }

    function WarningCount(): (n: int)
      ensures n == 0
    {
      0
    }

    method Host() returns (h: string)
      ensures h == host
    {
      h := host;
    }

    method Port() returns (p: int)
      ensures p == port
    {
      p := port;
    }

    method SetReusable(reusable: bool)
      modifies this`reusable
      ensures this.reusable == reusable
    {
      this.reusable := reusable;
    }

    method IsReusable() returns (b: bool)
      ensures b == reusable
    {
      b := reusable;
    }
  }

  /**
   * Nothing stops a query on a closed connection: after `Close` the
   * connection reports itself invalid, and a query still runs exactly as it
   * would have on an open one.
   */
  method CloseThenQuery(conn: AsyncMysqlConnection, text: string, ctx: QueryContext, execute: Processor)
    returns (valid: bool, r: Result<QueryResult, Thrown>)
    modifies conn, conn.server, ctx
    ensures !valid && !conn.open
    ensures Transition(conn.StateWith(ctx), r)
      == QueryTransition(old(conn.StateWith(ctx)), text, conn.server.config, conn.host, execute)
  {
    conn.Close();
    conn.Close();
    valid := conn.IsValid();
    r := conn.Query(text, -1, map[], ctx, execute);
  }
}
