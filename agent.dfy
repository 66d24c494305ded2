/** `BaseSnowflakeAgent` (app/agent/base_snowflake.py): a text-to-SQL agent that asks a
    language model for SQL, refuses statements that look like DDL/DML, runs the statement on
    a Snowflake connection, and on a driver error asks the model for a repaired statement,
    up to a bounded number of attempts.

    Each method of `Agent` is specified by a function over values: `Env` is what never
    changes (the agent's constants and the oracles' behaviour), `World` is every piece of
    state a call may change (the connection field, the memory, and the calls the oracles have
    received). The properties of the agent are proved about these functions. */
module SnowflakeAgent {
  import opened Text
  import opened Extraction
  import opened Guard
  import opened Settings
  import opened Oracles

  /** One message of the agent's memory. */
  datatype Message = Message(role: string, content: string)

  /** The dictionary `{"columns": ..., "data": ...}` a successful query returns. */
  datatype QueryResult = QueryResult(columns: seq<string>, data: seq<Row>)

  /** How a call ends: with a result, with None, or by raising an exception with this text. */
  datatype Outcome = Returned(result: QueryResult) | ReturnedNone | Raised(message: string)

  /** What stays fixed for an agent: its name, its schema prompt, the Snowflake section of
      its configuration, the rule that takes the SQL out of a model response (for an
      agent, always `ExtractSql`), and the behaviour of the language model and of the driver. */
  datatype Env = Env(
    name: string,
    schemaPrompt: string,
    snowflake: map<string, SnowflakeSettings>,
    extract: string -> string,
    reply: (nat, string) -> Reply,
    refuse: (nat, ConnectionParams) -> Option<string>,
    answer: (nat, nat, string) -> Execution)

  /** What a call may change. */
  datatype World = World(
    conn: Option<Handle>,
    memory: seq<Message>,
    prompts: seq<string>,
    connects: seq<ConnectionParams>,
    statements: seq<string>,
    closed: seq<nat>)

  /** A call's value together with the state it leaves. */
  datatype Then<+T> = Then(value: T, world: World)

  /** The default of `max_retries` (line 83), used by `process_query`. */
  const DefaultMaxRetries: int := 3

  /** The agent names given at app/agent/org_authority.py:439 and app/agent/person_authority.py:599. */
  const OrgAgentName: string := "org_authority"
  const PersonAgentName: string := "person_authority"

  const NoParamsMessage: string :=
    "No Snowflake connection parameters provided. Please configure Snowflake in config.toml"

  /** `str(KeyError("account"))`, raised by `params['account']` on line 53. */
  const MissingAccountMessage: string := "'account'"

  const NoMessages: string := "No messages to process"
  const Waiting: string := "Waiting for user query"
  const ResultsPrefix: string := "Query results: "
  const SuccessPrefix: string := "Successfully processed query: "
  const ErrorPrefix: string := "Error processing query: "

  /** `s` starts with `prefix` (`str.startswith`, and a log that has only been appended to). */
  predicate StartsWith<T(==)>(s: seq<T>, prefix: seq<T>) {
    |prefix| <= |s| && s[..|prefix|] == prefix
  }

  function NotFoundMessage(key: string): string {
    "No Snowflake configuration found for " + key + " agent"
  }

  /** Lines 33-35: the agent's domain, `name.split("_")[0]`. */
  function DomainKey(name: string): string {
    PrefixBefore(name, '_')
  }

  /** Lines 36-38: the entry for `key`, else the "default" entry. */
  function ResolveSettings(cfg: map<string, SnowflakeSettings>, key: string): (r: Option<SnowflakeSettings>)
    ensures r.Some? <==> key in cfg || DefaultKey in cfg
    ensures key in cfg ==> r == Some(cfg[key])
    ensures key !in cfg && DefaultKey in cfg ==> r == Some(cfg[DefaultKey])
  {
    if key in cfg then Some(cfg[key])
    else if DefaultKey in cfg then Some(cfg[DefaultKey])
    else None
  }

  /** Lines 43-50: the connection parameters built from a configuration entry. */
  function ParamsOf(s: SnowflakeSettings): (p: ConnectionParams)
    ensures p.Keys == set f | f in SnowflakeFields
    ensures "account" in p && p["account"] == s.account
  {
    map["user" := s.user, "password" := s.password, "account" := s.account,
        "warehouse" := s.warehouse, "database" := s.database, "schema" := s.schema]
  }

  /** The fixed parts of the prompt of `text_to_sql` (lines 63-68). */
  const QueryOpening: string := "\n"
  const QueryLabel: string := "\n\n\n#Query: "
  const QueryClosing: string := "\n        "

  /** The prompt of `text_to_sql`: the schema prompt, then the request. */
  function QueryPrompt(schema: string, text: string): string {
    QueryOpening + schema + QueryLabel + text + QueryClosing
  }

  /** The fixed parts of the repair request (lines 128-137), each line indented by twenty spaces. */
  const RepairOpening: string := "\n                    The previous SQL query failed with error: "
  const RepairLabel: string := "\n                    Original query: "
  const RepairClosing: string :=
    "\n                    Please generate a new SQL query that fixes the error."
    + "\n                    Remember to:"
    + "\n                    1. Keep the same intent as the original query"
    + "\n                    2. Fix any syntax or semantic errors"
    + "\n                    3. Ensure the query is valid Snowflake SQL"
    + "\n                    4. Wrap the response in ```sql ... ``` blocks"
    + "\n                    "

  /** The request `execute_query` passes to `text_to_sql` after a failure. */
  function RepairRequest(err: string, sql: string): string {
    RepairOpening + err + RepairLabel + sql + RepairClosing
  }

  const TerminalOpening: string := "Failed to execute query after "
  const TerminalLabel: string := " attempts: "

  /** The text of the exception raised after the last failed attempt (line 142). */
  function TerminalMessage(maxRetries: int, err: string): string {
    TerminalOpening + IntToString(maxRetries) + TerminalLabel + err
  }

  /** Line 114: the column names of a description, in order, or [] without one. */
  function ColumnNames(description: Option<seq<ColumnMeta>>): (r: seq<string>)
    ensures description.None? ==> r == []
    ensures description.Some? ==> |r| == |description.value|
    ensures description.Some? ==> forall k :: 0 <= k < |r| ==> r[k] == description.value[k].name
  {
    match description
    case None => []
    case Some(cols) => seq(|cols|, k requires 0 <= k < |cols| => cols[k].name)
  }

  /** `connect(connection_params)` (lines 24-58). The error, if it raises. */
  function ConnectSpec(env: Env, w: World, explicit: Option<ConnectionParams>): (t: Then<Option<string>>)
    ensures t.world.memory == w.memory && t.world.prompts == w.prompts
    ensures t.world.statements == w.statements && t.world.closed == w.closed
    ensures t.value.None? ==> t.world.conn.Some?
  {
    var given := explicit.Some? && explicit.value != map[];
    if !given && env.snowflake == map[] then Then(Some(NoParamsMessage), w)
    else
      var key := DomainKey(env.name);
      match ResolveSettings(env.snowflake, key)
      case None => Then(Some(NotFoundMessage(key)), w)
      case Some(s) =>
        var p := if given then explicit.value else ParamsOf(s);
        if "account" !in p then Then(Some(MissingAccountMessage), w)
        else
          var n := |w.connects|;
          var w1 := w.(connects := w.connects + [p]);
          match env.refuse(n, p)
          case Some(m) => Then(Some(m), w1)
          case None => Then(None, w1.(conn := Some(Handle(n, p))))
  }

  /** What `connect` does: the checks it makes before calling the driver, the parameters
      it sends, and when the connection changes. */
  lemma ConnectReports(env: Env, w: World, explicit: Option<ConnectionParams>, t: Then<Option<string>>)
    requires t == ConnectSpec(env, w, explicit)
    // It raises at once, calling nothing, without parameters and without configuration.
    ensures (explicit.None? || explicit.value == map[]) && env.snowflake == map[] ==>
      t == Then(Some(NoParamsMessage), w)
    // The configuration lookup happens, and must succeed, even with explicit parameters.
    ensures ResolveSettings(env.snowflake, DomainKey(env.name)).None? ==> t.value.Some? && t.world == w
    // At most one driver call; the connection changes only when it succeeds.
    ensures w.connects <= t.world.connects && |t.world.connects| <= |w.connects| + 1
    ensures t.value.Some? ==> t.world.conn == w.conn
    ensures t.value.None? ==>
      && |t.world.connects| == |w.connects| + 1
      && t.world.conn == Some(Handle(|w.connects|, t.world.connects[|w.connects|]))
      && env.refuse(|w.connects|, t.world.connects[|w.connects|]).None?
    // The parameters sent: the explicit ones when non-empty, else the resolved entry's.
    ensures |t.world.connects| > |w.connects| ==>
      var p := t.world.connects[|w.connects|];
      && "account" in p
      && ResolveSettings(env.snowflake, DomainKey(env.name)).Some?
      && (if explicit.Some? && explicit.value != map[] then p == explicit.value
          else p == ParamsOf(ResolveSettings(env.snowflake, DomainKey(env.name)).value))
  {
  }

  /** Lines 85-87 and 172-174: connect when, and only when, there is no connection. */
  function EnsureConnected(env: Env, w: World): (t: Then<Option<string>>)
    ensures t.value.None? ==> t.world.conn.Some?
    ensures w.conn.Some? ==> t == Then(None, w)
  {
    if w.conn.Some? then Then(None, w) else ConnectSpec(env, w, None)
  }

  /** `text_to_sql(text)` (lines 60-81): one request to the model, then the extraction rule. */
  function TextToSqlSpec(env: Env, w: World, text: string): (t: Then<Result<string, string>>)
    ensures t.world == w.(prompts := w.prompts + [QueryPrompt(env.schemaPrompt, text)])
    ensures t.value.Failure? <==> env.reply(|w.prompts|, QueryPrompt(env.schemaPrompt, text)).Fault?
    ensures t.value.Success? ==>
      t.value.value == env.extract(env.reply(|w.prompts|, QueryPrompt(env.schemaPrompt, text)).text)
  {
    var prompt := QueryPrompt(env.schemaPrompt, text);
    var w1 := w.(prompts := w.prompts + [prompt]);
    match env.reply(|w.prompts|, prompt)
    case Fault(m) => Then(Failure(m), w1)
    case Answer(response) => Then(Success(env.extract(response)), w1)
  }

  /** How one pass of the loop body of `execute_query` ends: the call returns or raises
      with `outcome`, or the loop goes on with the repaired statement `sql`. */
  datatype Step = Stop(outcome: Outcome) | Continue(sql: string)

  /** One pass of the loop body (lines 106-143) with `current_retry == retry` and
      `sql_query == sql`, on connection `h`: run the statement; on a driver error count the
      failure, then raise once `max_retries` failures are reached, or else ask the model
      for a repaired statement through `text_to_sql`. */
  function AttemptSpec(env: Env, h: Handle, sql: string, retry: int, maxRetries: int, w: World): (t: Then<Step>)
    ensures t.world.conn == w.conn && t.world.memory == w.memory
    ensures t.world.connects == w.connects && t.world.closed == w.closed
    ensures t.world.statements == w.statements + [sql]
  {
    var w1 := w.(statements := w.statements + [sql]);
    match env.answer(h.session, |w.statements|, sql)
    case Rows(description, rows) => Then(Stop(Returned(QueryResult(ColumnNames(description), rows))), w1)
    case DriverError(err) =>
      if retry + 1 >= maxRetries then Then(Stop(Raised(TerminalMessage(maxRetries, err))), w1)
      else
        var s := TextToSqlSpec(env, w1, RepairRequest(err, sql));
        match s.value
        case Failure(m) => Then(Stop(Raised(m)), s.world)
        case Success(next) => Then(Continue(next), s.world)
  }

  /** The loop of lines 104-143 from its test, with `current_retry == retry` and
      `sql_query == sql`: what the call returns or raises, and the state it leaves. */
  function LoopSpec(env: Env, h: Handle, sql: string, retry: int, maxRetries: int, w: World): (t: Then<Outcome>)
    decreases maxRetries - retry
    ensures t.world.conn == w.conn && t.world.memory == w.memory
    ensures t.world.connects == w.connects && t.world.closed == w.closed
  {
    if retry >= maxRetries then Then(ReturnedNone, w)
    else
      var p := AttemptSpec(env, h, sql, retry, maxRetries, w);
      match p.value
      case Stop(outcome) => Then(outcome, p.world)
      case Continue(next) => LoopSpec(env, h, next, retry + 1, maxRetries, p.world)
  }

  /** `execute_query(sql, max_retries)` (lines 83-143). */
  function ExecuteSpec(env: Env, w: World, sql: string, maxRetries: int): Then<Outcome> {
    var c := EnsureConnected(env, w);
    if c.value.Some? then Then(Raised(c.value.value), c.world)
    else if IsMutation(sql) then Then(Raised(GuardMessage), c.world)
    else
      LoopSpec(env, c.world.conn.value, sql, 0, maxRetries, c.world)
  }

  /** `process_query(text)` (lines 145-151). */
  function ProcessSpec(env: Env, w: World, text: string): Then<Outcome> {
    var s := TextToSqlSpec(env, w, text);
    match s.value
    case Failure(m) => Then(Raised(m), s.world)
    case Success(sql) => ExecuteSpec(env, s.world, sql, DefaultMaxRetries)
  }

  /** `close()` (lines 153-159). */
  function CloseSpec(w: World): (r: World)
    ensures r.conn == None
    ensures w.conn.None? ==> r == w
    ensures w.conn.Some? ==> r == w.(conn := None, closed := w.closed + [w.conn.value.session])
  {
    match w.conn
    case None => w
    case Some(h) => w.(conn := None, closed := w.closed + [h.session])
  }

  /** The body of the `try` of `step` (lines 172-176): connect if needed, then process. */
  function TurnSpec(env: Env, w: World, text: string): Then<Outcome> {
    var c := EnsureConnected(env, w);
    if c.value.Some? then Then(Raised(c.value.value), c.world)
    else ProcessSpec(env, c.world, text)
  }

  /** Python's `repr` of a list of strings, without escapes. */
  function StringListRepr(items: seq<string>): string {
    "[" + Join(seq(|items|, k requires 0 <= k < |items| => "'" + items[k] + "'")) + "]"
  }

  function Join(parts: seq<string>): string {
    if parts == [] then "" else if |parts| == 1 then parts[0] else parts[0] + ", " + Join(parts[1..])
  }

  /** Python's `repr` of a fetched row, a tuple. */
  function RowRepr(row: Row): string {
    "(" + Join(seq(|row|, k requires 0 <= k < |row| => row[k].repr)) + (if |row| == 1 then ",)" else ")")
  }

  /** `str(results)` for what `process_query` returned. */
  function OutcomeRepr(o: Outcome): string {
    match o
    case Returned(q) =>
      "{'columns': " + StringListRepr(q.columns) + ", 'data': ["
      + Join(seq(|q.data|, k requires 0 <= k < |q.data| => RowRepr(q.data[k]))) + "]}"
    case _ => "None"
  }

  /** Lines 177-183: the assistant message recorded for `outcome`, and the value returned. */
  function ReportSpec(w: World, outcome: Outcome): Then<string> {
    if outcome.Raised? then
      var msg := ErrorPrefix + outcome.message;
      Then(msg, w.(memory := w.memory + [Message("assistant", msg)]))
    else
      var text := OutcomeRepr(outcome);
      Then(SuccessPrefix + text, w.(memory := w.memory + [Message("assistant", ResultsPrefix + text)]))
  }

  /** `step()` (lines 161-183): its return value. It never raises. */
  function StepSpec(env: Env, w: World): Then<string> {
    if |w.memory| == 0 then Then(NoMessages, w)
    else
      var last := w.memory[|w.memory| - 1];
      if last.role != "user" then Then(Waiting, w)
      else
        var turn := TurnSpec(env, w, last.content);
        ReportSpec(turn.world, turn.value)
  }

  /** What `step()` reports: nothing happens without a pending user message; otherwise
      exactly one assistant message is appended, carrying the error text when the turn
      raised and the rendering of the result, which is also returned, when it did not. */
  lemma StepReports(env: Env, w: World)
    ensures |w.memory| == 0 ==> StepSpec(env, w) == Then(NoMessages, w)
    ensures |w.memory| > 0 && w.memory[|w.memory| - 1].role != "user" ==> StepSpec(env, w) == Then(Waiting, w)
    ensures |w.memory| > 0 && w.memory[|w.memory| - 1].role == "user" ==>
      var t := StepSpec(env, w);
      var turn := TurnSpec(env, w, w.memory[|w.memory| - 1].content);
      && |t.world.memory| == |w.memory| + 1
      && t.world.memory[..|w.memory|] == w.memory
      && t.world.memory[|w.memory|].role == "assistant"
      && t.world == turn.world.(memory := t.world.memory)
      && var reply := t.world.memory[|w.memory|].content;
      && (turn.value.Raised? ==> t.value == reply && reply == ErrorPrefix + turn.value.message)
      && (!turn.value.Raised? ==>
            && StartsWith(reply, ResultsPrefix) && StartsWith(t.value, SuccessPrefix)
            && reply[|ResultsPrefix|..] == t.value[|SuccessPrefix|..] == OutcomeRepr(turn.value))
  {
  }

  class Agent {
    const name: string
    const description: string
    const schemaPrompt: string
    const config: AppConfig
    const llm: LanguageModel
    const warehouse: Warehouse
    var conn: Option<Handle>
    var memory: seq<Message>

    function Environment(): Env {
      Env(name, schemaPrompt, config.snowflake, ExtractSql, llm.reply, warehouse.refuse, warehouse.answer)
    }

    function State(): World
      reads this, llm, warehouse
    {
      World(conn, memory, llm.prompts, warehouse.connects, warehouse.statements, warehouse.closed)
    }

    /** Lines 13-22: no connection and an empty memory. */
    constructor (config: AppConfig, name: string, description: string, schemaPrompt: string,
                 llm: LanguageModel, warehouse: Warehouse)
      ensures this.config == config && this.name == name && this.description == description
      ensures this.schemaPrompt == schemaPrompt && this.llm == llm && this.warehouse == warehouse
      ensures conn == None && memory == []
    {
      this.config := config;
      this.name := name;
      this.description := description;
      this.schemaPrompt := schemaPrompt;
      this.llm := llm;
      this.warehouse := warehouse;
      conn := None;
      memory := [];
    }

    /** `connect(connection_params)`: the error text, if it raises. */
    method Connect(explicit: Option<ConnectionParams>) returns (failure: Option<string>)
      modifies this, warehouse
      ensures Then(failure, State()) == ConnectSpec(Environment(), old(State()), explicit)
    {
      var given := explicit.Some? && explicit.value != map[];
      if !given && config.snowflake == map[] {
        return Some(NoParamsMessage);
      }
      var key := DomainKey(name);
      var settings := ResolveSettings(config.snowflake, key);
      if settings.None? {
        return Some(NotFoundMessage(key));
      }
      var params := if given then explicit.value else ParamsOf(settings.value);
      if "account" !in params {
        return Some(MissingAccountMessage);
      }
      var session := warehouse.Connect(params);
      match session
      case Failure(m) =>
        failure := Some(m);
      case Success(h) =>
        conn := Some(h);
        failure := None;
    }

    method TextToSql(text: string) returns (r: Result<string, string>)
      modifies llm
      ensures Then(r, State()) == TextToSqlSpec(Environment(), old(State()), text)
    {
      var reply := llm.Ask(QueryPrompt(schemaPrompt, text));
      match reply
      case Fault(m) =>
        r := Failure(m);
      case Answer(response) =>
        r := Success(ExtractSql(response));
    }

    /** `execute_query(sql_query, max_retries=3)` (lines 83-143). */
    method ExecuteQuery(sql: string, maxRetries: int := DefaultMaxRetries) returns (r: Outcome)
      modifies this, llm, warehouse
      ensures Then(r, State()) == ExecuteSpec(Environment(), old(State()), sql, maxRetries)
    {
      ghost var w0 := State();
      if conn.None? {
        var failure := Connect(None);
        if failure.Some? {
          return Raised(failure.value);
        }
      }
      assert EnsureConnected(Environment(), w0) == Then(None, State());
      if IsMutation(sql) {
        return Raised(GuardMessage);
      }
      r := RunAttempts(conn.value, sql, maxRetries);
    }

    /** The loop of lines 104-143, on the open connection `h`. */
    method RunAttempts(h: Handle, sql: string, maxRetries: int) returns (r: Outcome)
      modifies llm, warehouse
      ensures Then(r, State()) == LoopSpec(Environment(), h, sql, 0, maxRetries, old(State()))
    {
      ghost var goal := LoopSpec(Environment(), h, sql, 0, maxRetries, State());
      var query := sql;
      var retry := 0;
      while retry < maxRetries
        invariant LoopSpec(Environment(), h, query, retry, maxRetries, State()) == goal
        decreases maxRetries - retry
      {
        var step := Attempt(h, query, retry, maxRetries);
        match step
        case Stop(outcome) =>
          return outcome;
        case Continue(next) =>
          query := next;
          retry := retry + 1;
      }
      return ReturnedNone;
    }

    /** One pass of the loop body, lines 106-143. */
    method Attempt(h: Handle, query: string, retry: int, maxRetries: int) returns (step: Step)
      modifies llm, warehouse
      ensures Then(step, State()) == AttemptSpec(Environment(), h, query, retry, maxRetries, old(State()))
    {
      var e := warehouse.Execute(h, query);
      match e
      case Rows(desc, rows) =>
        return Stop(Returned(QueryResult(ColumnNames(desc), rows)));
      case DriverError(err) =>
        var failures := retry + 1;
        if failures < maxRetries {
          var regenerated := TextToSql(RepairRequest(err, query));
          match regenerated
          case Failure(m) =>
            return Stop(Raised(m));
          case Success(s) =>
            return Continue(s);
        } else {
          return Stop(Raised(TerminalMessage(maxRetries, err)));
        }
    }

    method ProcessQuery(text: string) returns (r: Outcome)
      modifies this, llm, warehouse
      ensures Then(r, State()) == ProcessSpec(Environment(), old(State()), text)
    {
      var sql := TextToSql(text);
      match sql
      case Failure(m) =>
        r := Raised(m);
      case Success(s) =>
        r := ExecuteQuery(s);
    }

    method Close()
      modifies this, warehouse
      ensures State() == CloseSpec(old(State()))
    {
      if conn.Some? {
        warehouse.Close(conn.value);
        conn := None;
      }
    }

    /** The body of the `try` of `step` (lines 172-176). */
    method Turn(text: string) returns (outcome: Outcome)
      modifies this, llm, warehouse
      ensures Then(outcome, State()) == TurnSpec(Environment(), old(State()), text)
    {
      if conn.None? {
        var failure := Connect(None);
        if failure.Some? {
          return Raised(failure.value);
        }
      }
      outcome := ProcessQuery(text);
    }

    method Step() returns (r: string)
      modifies this, llm, warehouse
      ensures Then(r, State()) == StepSpec(Environment(), old(State()))
    {
      if |memory| == 0 {
        return NoMessages;
      }
      var last := memory[|memory| - 1];
      if last.role != "user" {
        return Waiting;
      }
      var outcome := Turn(last.content);
      r := Report(outcome);
    }

    /** Lines 177-183: record the outcome in the memory and return its report. */
    method Report(outcome: Outcome) returns (r: string)
      modifies this
      ensures Then(r, State()) == ReportSpec(old(State()), outcome)
    {
      if outcome.Raised? {
        var msg := ErrorPrefix + outcome.message;
        memory := memory + [Message("assistant", msg)];
        return msg;
      }
      var text := OutcomeRepr(outcome);
      memory := memory + [Message("assistant", ResultsPrefix + text)];
      return SuccessPrefix + text;
    }
  }
}
