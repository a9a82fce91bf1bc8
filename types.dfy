/**
 * Values exchanged between the fake async MySQL connection, the process-wide
 * query context, the backend server and the SQL command processor.
 */
module SqlFakeTypes {

  datatype Option<+T> = None | Some(value: T) {
    /** The value held, or `default` when there is none (Hack's `??`). */
    function GetOr(default: T): T {
      match this
      case Some(v) => v
      case None => default
    }
  }

  /** A call that returns a value or raises an error. */
  datatype Result<+R, +E> = Ok(value: R) | Err(error: E)

  /** A cell of a result row (Hack `mixed`); floating-point cells are not modelled. */
  datatype Value = NullValue | IntValue(i: int) | StringValue(s: string)

  /** A result row: column name to cell (the column order of a Hack dict is not represented). */
  type Row = map<string, Value>

  /** The data held by a fake server: database name to table name to rows. */
  type Store = map<string, map<string, seq<Row>>>

  /**
   * What the command processor throws: its class, its message, and whether
   * that class is an `\Exception`. Any other throwable (an `\Error` such as
   * a `TypeError`) escapes the connection's `catch (\Exception ...)` handler.
   */
  datatype Thrown = Thrown(kind: string, message: string, isException: bool)

  /** What the command processor produces for one query text. */
  datatype Outcome =
    | Success(rows: seq<Row>, affected: int)
    | Failure(err: Thrown)
  {
    /**
     * Whether `query` reaches one of its two flag restores after this outcome:
     * on success, and on a thrown `\Exception`, but not on any other throwable.
     */
    predicate Restores() {
      Success? || err.isException
    }
  }

  /** One run of the command processor: its outcome and the server data it leaves behind. */
  datatype Step = Step(outcome: Outcome, store: Store)

  /**
   * A server's configuration shape. Each key may be absent; an absent strict
   * flag reads as false and an absent schema target as the empty string.
   */
  datatype Config = Config(
    strictSqlMode: Option<bool>,
    strictSchemaMode: Option<bool>,
    inheritSchemaFrom: Option<string>)

  /** The values of the process-wide QueryContext statics. */
  datatype Context = Context(query: string, strictSqlMode: bool, strictSchemaMode: bool)

  /**
   * Everything the command processor can observe when it is called: the query
   * text it is handed, the QueryContext statics at that moment, and the
   * connection's host and current database.
   */
  datatype Dispatch = Dispatch(text: string, context: Context, host: string, dbname: string)

  /** The command processor, whose internals are not part of this model. */
  type Processor = (Dispatch, Store) -> Step

  /** The client-facing result of a successful query. */
  datatype QueryResult = QueryResult(rows: seq<Row>, affected: int)

  /** A structured query: a format string and its arguments. */
  datatype StructuredQuery = StructuredQuery(format: string, args: seq<Value>)

  /**
   * The state one query can change: the QueryContext statics, the
   * connection's current database and the data of the connection's server.
   */
  datatype State = State(context: Context, dbname: string, store: Store)

  /** The state after an operation, together with what the operation returned or raised. */
  datatype Transition<+T> = Transition(state: State, result: T)
}
