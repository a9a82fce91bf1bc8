/**
 * The meaning of `query` and `multiQuery` as functions on values: the
 * save / apply / dispatch / restore sequence around the command processor,
 * the schema override, the result adapter, and the in-order fan-out.
 */
module QuerySemantics {
  import opened SqlFakeTypes

  /** Whether the configuration asks for strict SQL mode; a missing key reads as false. */
  function RequestsStrictSql(cfg: Config): bool {
    cfg.strictSqlMode.GetOr(false)
  }

  /** Whether the configuration asks for strict schema mode; a missing key reads as false. */
  function RequestsStrictSchema(cfg: Config): bool {
    cfg.strictSchemaMode.GetOr(false)
  }

  /** The schema the configuration tells connections to inherit; a missing key reads as the empty string. */
  function InheritTarget(cfg: Config): string {
    cfg.inheritSchemaFrom.GetOr("")
  }

  /**
   * The QueryContext while the processor runs: the query text is recorded and
   * each strict flag the configuration requests is raised. A flag is never
   * cleared, and a flag the configuration does not request keeps its value.
   */
  function ApplyConfig(before: Context, text: string, cfg: Config): (during: Context)
    ensures during.query == text
    ensures before.strictSqlMode ==> during.strictSqlMode
    ensures RequestsStrictSql(cfg) ==> during.strictSqlMode
    ensures !RequestsStrictSql(cfg) ==> during.strictSqlMode == before.strictSqlMode
    ensures before.strictSchemaMode ==> during.strictSchemaMode
    ensures RequestsStrictSchema(cfg) ==> during.strictSchemaMode
    ensures !RequestsStrictSchema(cfg) ==> during.strictSchemaMode == before.strictSchemaMode
  {
    Context(
      text,
      if RequestsStrictSql(cfg) then true else before.strictSqlMode,
      if RequestsStrictSchema(cfg) then true else before.strictSchemaMode)
  }

  /**
   * The QueryContext after a restore, which `query` performs when the
   * processor returns or throws an `\Exception`: both strict flags are back to
   * their saved values; the query text stays as it was set.
   */
  function RestoreFlags(during: Context, saved: Context): (after: Context)
    ensures after.query == during.query
    ensures after.strictSqlMode == saved.strictSqlMode
    ensures after.strictSchemaMode == saved.strictSchemaMode
  {
    during.(strictSqlMode := saved.strictSqlMode, strictSchemaMode := saved.strictSchemaMode)
  }

  /** Applying the configuration and then restoring leaves only the new query text behind. */
  lemma ApplyThenRestore(before: Context, text: string, cfg: Config)
    ensures RestoreFlags(ApplyConfig(before, text, cfg), before) == before.(query := text)
  {
  }

  /**
   * The connection's database after the schema override: the configured
   * target when it is non-empty, and the previous database otherwise.
   */
  function InheritedSchema(dbname: string, cfg: Config): (d: string)
    ensures InheritTarget(cfg) != "" ==> d == InheritTarget(cfg)
    ensures InheritTarget(cfg) == "" ==> d == dbname
  {
    if InheritTarget(cfg) != "" then InheritTarget(cfg) else dbname
  }

  /** Applying the override a second time changes nothing. */
  lemma InheritedSchemaIdempotent(dbname: string, cfg: Config)
    ensures InheritedSchema(InheritedSchema(dbname, cfg), cfg) == InheritedSchema(dbname, cfg)
  {
  }

  /**
   * The result adapter: a processor success becomes a query result with the
   * same rows in the same order and the same affected count; a processor
   * failure is raised unchanged.
   */
  function Adapt(outcome: Outcome): (r: Result<QueryResult, Thrown>)
    ensures r.Ok? <==> outcome.Success?
    ensures r.Ok? ==> r.value.rows == outcome.rows && r.value.affected == outcome.affected
    ensures r.Err? ==> r.error == outcome.err
  {
    match outcome
    case Success(rows, affected) => Ok(QueryResult(rows, affected))
    case Failure(e) => Err(e)
  }

  /** What the processor observes when `query(text)` starts in state `s`. */
  function DispatchOf(s: State, text: string, cfg: Config, host: string): Dispatch
  {
    Dispatch(text, ApplyConfig(s.context, text, cfg), host, InheritedSchema(s.dbname, cfg))
  }

  /**
   * One `query(text)` on a connection to `host` whose server has
   * configuration `cfg`: the state and result after it returns or raises.
   * The flags are restored on success and on a thrown `\Exception`; any other
   * throwable leaves them as raised for the processor. The query text is
   * never restored, the schema override persists on every path, and what the
   * processor throws is raised unchanged. Nothing here depends on whether the
   * connection is open.
   */
  function QueryTransition(s: State, text: string, cfg: Config, host: string, execute: Processor)
    : (t: Transition<Result<QueryResult, Thrown>>)
    ensures var outcome := execute(DispatchOf(s, text, cfg, host), s.store).outcome;
      t.state.context
        == if outcome.Restores() then Context(text, s.context.strictSqlMode, s.context.strictSchemaMode)
           else ApplyConfig(s.context, text, cfg)
    ensures t.state.dbname == InheritedSchema(s.dbname, cfg)
    ensures t.state.store == execute(DispatchOf(s, text, cfg, host), s.store).store
    ensures var outcome := execute(DispatchOf(s, text, cfg, host), s.store).outcome;
      && (t.result.Err? <==> outcome.Failure?)
      && (t.result.Err? ==> t.result.error == outcome.err)
      && (t.result.Ok? ==> t.result.value == QueryResult(outcome.rows, outcome.affected))
  {
    var during := ApplyConfig(s.context, text, cfg);
    var dbname := InheritedSchema(s.dbname, cfg);
    var step := execute(Dispatch(text, during, host, dbname), s.store);
    var after := if step.outcome.Restores() then RestoreFlags(during, s.context) else during;
    Transition(State(after, dbname, step.store), Adapt(step.outcome))
  }

  /** Some result of a batch is a throwable that is not an `\Exception`, so its query skipped the restore. */
  function SkippedRestore(results: seq<Result<QueryResult, Thrown>>): bool {
    results != [] && ((results[0].Err? && !results[0].error.isException) || SkippedRestore(results[1..]))
  }

  /**
   * `multiQuery(texts)`: the queries run one after another in input order,
   * each from the state the previous one left. One result per text, in order.
   * Afterwards the strict flags are those of the start, unless some query
   * threw a non-`\Exception`, in which case they are the flags raised by the
   * configuration over those of the start. The query text is that of the
   * last query.
   */
  function MultiTransition(s: State, texts: seq<string>, cfg: Config, host: string, execute: Processor)
    : (t: Transition<seq<Result<QueryResult, Thrown>>>)
    ensures |t.result| == |texts|
    ensures var raised := ApplyConfig(s.context, "", cfg);
      && t.state.context.strictSqlMode
           == (if SkippedRestore(t.result) then raised.strictSqlMode else s.context.strictSqlMode)
      && t.state.context.strictSchemaMode
           == (if SkippedRestore(t.result) then raised.strictSchemaMode else s.context.strictSchemaMode)
    ensures t.state.context.query == if texts == [] then s.context.query else texts[|texts| - 1]
    decreases |texts|
  {
    if texts == [] then
      Transition(s, [])
    else
      var first := QueryTransition(s, texts[0], cfg, host, execute);
      var rest := MultiTransition(first.state, texts[1..], cfg, host, execute);
      Transition(rest.state, [first.result] + rest.result)
  }

  /** Running one more query after a batch extends the batch by that query. */
  lemma {:induction false} MultiTransitionSnoc(
    s: State, texts: seq<string>, text: string, cfg: Config, host: string, execute: Processor)
    ensures var m := MultiTransition(s, texts, cfg, host, execute);
      var q := QueryTransition(m.state, text, cfg, host, execute);
      MultiTransition(s, texts + [text], cfg, host, execute) == Transition(q.state, m.result + [q.result])
    decreases |texts|
  {
    if texts == [] {
      var q := QueryTransition(s, text, cfg, host, execute);
      assert texts + [text] == [text] && [text][1..] == [];
      assert [q.result] + [] == [] + [q.result];
    } else {
      var first := QueryTransition(s, texts[0], cfg, host, execute);
      assert (texts + [text])[0] == texts[0];
      assert (texts + [text])[1..] == texts[1..] + [text];
      MultiTransitionSnoc(first.state, texts[1..], text, cfg, host, execute);
      var m := MultiTransition(first.state, texts[1..], cfg, host, execute);
      var q := QueryTransition(m.state, text, cfg, host, execute);
      assert [first.result] + (m.result + [q.result]) == ([first.result] + m.result) + [q.result];
    }
  }

  /**
   * The i-th result of a batch is the result of `query(texts[i])` run from the
   * state left by the first i queries.
   */
  lemma {:induction false} MultiTransitionAt(
    s: State, texts: seq<string>, i: nat, cfg: Config, host: string, execute: Processor)
    requires i < |texts|
    ensures MultiTransition(s, texts, cfg, host, execute).result[i]
      == QueryTransition(MultiTransition(s, texts[..i], cfg, host, execute).state, texts[i], cfg, host, execute).result
    decreases |texts|
  {
    var first := QueryTransition(s, texts[0], cfg, host, execute);
    if i == 0 {
      assert texts[..0] == [];
    } else {
      MultiTransitionAt(first.state, texts[1..], i - 1, cfg, host, execute);
      assert texts[1..][..i - 1] == texts[..i][1..];
      assert texts[..i][0] == texts[0];
    }
  }

  /**
   * Every query of a batch is dispatched with the same strict flags: those
   * the configuration raises over the flags in force when the batch started,
   * even when an earlier query skipped its restore.
   */
  lemma MultiDispatchFlags(
    s: State, texts: seq<string>, i: nat, cfg: Config, host: string, execute: Processor)
    requires i < |texts|
    ensures var d := DispatchOf(MultiTransition(s, texts[..i], cfg, host, execute).state, texts[i], cfg, host);
      d.context == ApplyConfig(s.context, texts[i], cfg)
  {
  }

  /**
   * The schema override persists across a batch: after a non-empty batch the
   * database is the inherited one, and an empty batch changes nothing.
   */
  lemma {:induction false} MultiSchema(
    s: State, texts: seq<string>, cfg: Config, host: string, execute: Processor)
    ensures MultiTransition(s, texts, cfg, host, execute).state.dbname
      == if texts == [] then s.dbname else InheritedSchema(s.dbname, cfg)
    decreases |texts|
  {
    if texts != [] {
      var first := QueryTransition(s, texts[0], cfg, host, execute);
      MultiSchema(first.state, texts[1..], cfg, host, execute);
      InheritedSchemaIdempotent(s.dbname, cfg);
    }
  }

  /**
   * What `multiQuery` returns from the per-query results: every value in
   * input order when all queries succeeded, otherwise the error of the first
   * query that failed (see `GatherFirstFailure`).
   */
  function Gather(results: seq<Result<QueryResult, Thrown>>): (r: Result<seq<QueryResult>, Thrown>)
    ensures r.Ok? <==> forall i :: 0 <= i < |results| ==> results[i].Ok?
    ensures r.Ok? ==> |r.value| == |results|
    ensures r.Ok? ==> forall i :: 0 <= i < |results| ==> results[i] == Ok(r.value[i])
  {
    if results == [] then
      Ok([])
    else
      match results[0]
      case Err(e) => Err(e)
      case Ok(v) =>
        match Gather(results[1..])
        case Err(e) => Err(e)
        case Ok(vs) =>
          Ok([v] + vs)
  }

  /** `results[i]` failed and every result before it succeeded. */
  predicate FirstFailureAt(results: seq<Result<QueryResult, Thrown>>, i: int) {
    && 0 <= i < |results|
    && results[i].Err?
    && forall j :: 0 <= j < i ==> results[j].Ok?
  }

  /** When the i-th result is the first failure, `Gather` raises exactly its error. */
  lemma {:induction false} GatherFirstFailure(results: seq<Result<QueryResult, Thrown>>, i: nat)
    requires FirstFailureAt(results, i)
    ensures Gather(results) == Err(results[i].error)
    decreases i
  {
    if i > 0 {
      assert results[0].Ok?;
      assert FirstFailureAt(results[1..], i - 1);
      GatherFirstFailure(results[1..], i - 1);
    }
  }

  /**
   * Fan-out equivalence: when `multiQuery(texts)` succeeds it returns one
   * result per text, and the i-th is what `query(texts[i])` returns when run
   * after the first i queries.
   */
  lemma MultiQueryValueAt(
    s: State, texts: seq<string>, i: nat, cfg: Config, host: string, execute: Processor)
    requires i < |texts|
    requires Gather(MultiTransition(s, texts, cfg, host, execute).result).Ok?
    ensures var vs := Gather(MultiTransition(s, texts, cfg, host, execute).result).value;
      |vs| == |texts|
      && QueryTransition(MultiTransition(s, texts[..i], cfg, host, execute).state, texts[i], cfg, host, execute).result
         == Ok(vs[i])
  {
    MultiTransitionAt(s, texts, i, cfg, host, execute);
  }

  /**
   * When the i-th query of a batch is the first to fail, `multiQuery(texts)`
   * raises exactly that query's error.
   */
  lemma MultiQueryErrorFrom(
    s: State, texts: seq<string>, i: nat, cfg: Config, host: string, execute: Processor)
    requires i < |texts|
    requires FirstFailureAt(MultiTransition(s, texts, cfg, host, execute).result, i)
    ensures var q := QueryTransition(MultiTransition(s, texts[..i], cfg, host, execute).state, texts[i], cfg, host, execute);
      q.result.Err? && Gather(MultiTransition(s, texts, cfg, host, execute).result) == Err(q.result.error)
  {
    MultiTransitionAt(s, texts, i, cfg, host, execute);
    GatherFirstFailure(MultiTransition(s, texts, cfg, host, execute).result, i);
  }
}
