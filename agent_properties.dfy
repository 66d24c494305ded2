/** Properties of `execute_query`, `process_query`, `connect`, `close` and `step`, proved
    about the specification functions of module SnowflakeAgent. */
module AgentProperties {
  import opened Text
  import opened Extraction
  import opened Guard
  import opened Settings
  import opened Oracles
  import opened SnowflakeAgent

  lemma StartsWithTrans<T>(a: seq<T>, b: seq<T>, c: seq<T>)
    requires StartsWith(b, a) && StartsWith(c, b)
    ensures StartsWith(c, a)
  {
    assert c[..|a|] == c[..|b|][..|a|];
  }

  /** The loop only appends: to the statements, starting with `sql` when it runs at all,
      and to the prompts. */
  lemma {:induction false} LoopPrefix(env: Env, h: Handle, sql: string, retry: int, maxRetries: int, w: World)
    decreases maxRetries - retry
    ensures var t := LoopSpec(env, h, sql, retry, maxRetries, w);
      && StartsWith(t.world.statements, w.statements)
      && StartsWith(t.world.prompts, w.prompts)
      && (retry < maxRetries ==> |w.statements| < |t.world.statements| && t.world.statements[|w.statements|] == sql)
  {
    if retry < maxRetries {
      var p := AttemptSpec(env, h, sql, retry, maxRetries, w);
      assert StartsWith(p.world.statements, w.statements) && p.world.statements[|w.statements|] == sql;
      if p.value.Continue? {
        var t := LoopSpec(env, h, p.value.sql, retry + 1, maxRetries, p.world);
        LoopPrefix(env, h, p.value.sql, retry + 1, maxRetries, p.world);
        StartsWithTrans(w.statements, p.world.statements, t.world.statements);
        StartsWithTrans(w.prompts, p.world.prompts, t.world.prompts);
        assert t.world.statements[|w.statements|] == t.world.statements[..|p.world.statements|][|w.statements|];
      }
    }
  }

  /** The loop runs only while `current_retry < max_retries`, and each pass executes one
      statement and sends at most one prompt: the statements executed are at least one and
      at most the retries left, the prompts are one fewer than the statements or as many,
      and the loop falls through to `None` exactly when it does not run at all. */
  lemma {:induction false} LoopBounds(env: Env, h: Handle, sql: string, retry: int, maxRetries: int, w: World)
    decreases maxRetries - retry
    ensures var t := LoopSpec(env, h, sql, retry, maxRetries, w);
      && StartsWith(t.world.statements, w.statements)
      && StartsWith(t.world.prompts, w.prompts)
      && (retry >= maxRetries ==> t == Then(ReturnedNone, w))
      && (retry < maxRetries ==>
            var n := |t.world.statements| - |w.statements|;
            var m := |t.world.prompts| - |w.prompts|;
            && 1 <= n <= maxRetries - retry
            && (m == n - 1 || m == n)
            && m <= maxRetries - retry - 1
            && t.world.statements[|w.statements|] == sql)
      && (t.value.ReturnedNone? <==> retry >= maxRetries)
  {
    if retry < maxRetries {
      var p := AttemptSpec(env, h, sql, retry, maxRetries, w);
      assert StartsWith(p.world.statements, w.statements) && p.world.statements[|w.statements|] == sql;
      assert StartsWith(p.world.prompts, w.prompts) && |p.world.prompts| <= |w.prompts| + 1;
      match p.value
      case Stop(outcome) =>
        assert outcome.Returned? || outcome.Raised?;
      case Continue(next) =>
        assert |p.world.prompts| == |w.prompts| + 1;
        LoopBounds(env, h, next, retry + 1, maxRetries, p.world);
        var t := LoopSpec(env, h, next, retry + 1, maxRetries, p.world);
        StartsWithTrans(w.statements, p.world.statements, t.world.statements);
        StartsWithTrans(w.prompts, p.world.prompts, t.world.prompts);
        assert t.world.statements[|w.statements|] == t.world.statements[..|p.world.statements|][|w.statements|];
    }
  }

  /** The pass that ran statement number `k` failed and was repaired: the statement raised,
      the prompt sent in the same pass (number `k + d`) asks for a repair of that statement
      and that error, and the next statement is the SQL extracted from the model's answer. */
  ghost predicate RepairedAt(env: Env, h: Handle, t: World, k: int, d: int) {
    && 0 <= k && k + 1 < |t.statements| && 0 <= k + d < |t.prompts|
    && var e := env.answer(h.session, k, t.statements[k]);
    && e.DriverError?
    && t.prompts[k + d] == QueryPrompt(env.schemaPrompt, RepairRequest(e.message, t.statements[k]))
    && env.reply(k + d, t.prompts[k + d]).Answer?
    && t.statements[k + 1] == env.extract(env.reply(k + d, t.prompts[k + d]).text)
  }

  /** The last statement executed ends the call. Its pass has `current_retry == k - c` and
      sends prompt number `k + d`, if any: rows are returned with the cursor's column names;
      a driver error on the last allowed attempt raises the terminal message; any other
      driver error sends a repair prompt and the call raises the model's exception. */
  ghost predicate LastPass(env: Env, h: Handle, maxRetries: int, t: Then<Outcome>, c: int, d: int) {
    var k := |t.world.statements| - 1;
    && 0 <= k && 0 <= k + d
    && match env.answer(h.session, k, t.world.statements[k])
    case Rows(desc, rows) => t.value == Returned(QueryResult(ColumnNames(desc), rows)) && |t.world.prompts| == k + d
    case DriverError(err) =>
      if k - c + 1 >= maxRetries then t.value == Raised(TerminalMessage(maxRetries, err)) && |t.world.prompts| == k + d
      else
        && |t.world.prompts| == k + d + 1
        && t.world.prompts[k + d] == QueryPrompt(env.schemaPrompt, RepairRequest(err, t.world.statements[k]))
        && env.reply(k + d, t.world.prompts[k + d]).Fault?
        && t.value == Raised(env.reply(k + d, t.world.prompts[k + d]).message)
  }

  /** A pass that ends the call is the last pass. */
  lemma AttemptStop(env: Env, h: Handle, sql: string, retry: int, maxRetries: int, w: World)
    requires AttemptSpec(env, h, sql, retry, maxRetries, w).value.Stop?
    ensures var p := AttemptSpec(env, h, sql, retry, maxRetries, w);
      LastPass(env, h, maxRetries, Then(p.value.outcome, p.world), |w.statements| - retry, |w.prompts| - |w.statements|)
  {
    var p := AttemptSpec(env, h, sql, retry, maxRetries, w);
    var k := |w.statements|;
    assert p.world.statements[k] == sql;
    match env.answer(h.session, k, sql)
    case Rows(d, rows) =>
    case DriverError(err) =>
      if retry + 1 < maxRetries {
        var prompt := QueryPrompt(env.schemaPrompt, RepairRequest(err, sql));
        assert p.world.prompts == w.prompts + [prompt];
        assert p.world.prompts[|w.prompts|] == prompt;
      }
  }

  /** A pass that goes on sent exactly one repair prompt, and the next statement is the SQL
      extracted from the model's answer to it. */
  lemma AttemptContinue(env: Env, h: Handle, sql: string, retry: int, maxRetries: int, w: World)
    requires AttemptSpec(env, h, sql, retry, maxRetries, w).value.Continue?
    ensures var p := AttemptSpec(env, h, sql, retry, maxRetries, w);
      var e := env.answer(h.session, |w.statements|, sql);
      && e.DriverError? && retry + 1 < maxRetries
      && p.world.statements == w.statements + [sql]
      && p.world.prompts == w.prompts + [QueryPrompt(env.schemaPrompt, RepairRequest(e.message, sql))]
      && env.reply(|w.prompts|, QueryPrompt(env.schemaPrompt, RepairRequest(e.message, sql))).Answer?
      && p.value.sql == env.extract(env.reply(|w.prompts|, QueryPrompt(env.schemaPrompt, RepairRequest(e.message, sql))).text)
  {
  }

  /** Every pass of the loop but the last failed and was repaired. The offsets `c` and `d`
      of `LastPass` are fixed for the whole loop, so they are parameters. */
  lemma {:induction false} LoopRepairs(env: Env, h: Handle, sql: string, retry: int, maxRetries: int, w: World, d: int)
    requires d == |w.prompts| - |w.statements|
    decreases maxRetries - retry
    ensures var t := LoopSpec(env, h, sql, retry, maxRetries, w);
      forall k :: |w.statements| <= k < |t.world.statements| - 1 ==> RepairedAt(env, h, t.world, k, d)
  {
    var p := AttemptSpec(env, h, sql, retry, maxRetries, w);
    if retry < maxRetries && p.value.Continue? {
      FirstRepaired(env, h, sql, retry, maxRetries, w, d);
      LoopRepairs(env, h, p.value.sql, retry + 1, maxRetries, p.world, d);
      assert LoopSpec(env, h, sql, retry, maxRetries, w) == LoopSpec(env, h, p.value.sql, retry + 1, maxRetries, p.world);
      assert |p.world.statements| == |w.statements| + 1;
    }
  }

  /** A pass that goes on is a repaired pass of the whole loop. */
  lemma FirstRepaired(env: Env, h: Handle, sql: string, retry: int, maxRetries: int, w: World, d: int)
    requires retry < maxRetries && AttemptSpec(env, h, sql, retry, maxRetries, w).value.Continue?
    requires d == |w.prompts| - |w.statements|
    ensures RepairedAt(env, h, LoopSpec(env, h, sql, retry, maxRetries, w).world, |w.statements|, d)
  {
    var p := AttemptSpec(env, h, sql, retry, maxRetries, w);
    var next := p.value.sql;
    var t := LoopSpec(env, h, next, retry + 1, maxRetries, p.world);
    AttemptContinue(env, h, sql, retry, maxRetries, w);
    LoopPrefix(env, h, next, retry + 1, maxRetries, p.world);
    var k0 := |w.statements|;
    assert t.world.statements[..k0 + 1] == p.world.statements;
    assert t.world.prompts[..k0 + d + 1] == p.world.prompts;
    assert RepairedAt(env, h, t.world, k0, d);
  }

  /** The last pass of the loop decides the outcome. */
  lemma {:induction false} LoopEnds(env: Env, h: Handle, sql: string, retry: int, maxRetries: int, w: World, c: int, d: int)
    requires retry < maxRetries
    requires c == |w.statements| - retry && d == |w.prompts| - |w.statements|
    decreases maxRetries - retry
    ensures LastPass(env, h, maxRetries, LoopSpec(env, h, sql, retry, maxRetries, w), c, d)
  {
    var p := AttemptSpec(env, h, sql, retry, maxRetries, w);
    match p.value
    case Stop(outcome) =>
      AttemptStop(env, h, sql, retry, maxRetries, w);
    case Continue(next) =>
      assert |p.world.statements| - (retry + 1) == c && |p.world.prompts| - |p.world.statements| == d;
      LoopEnds(env, h, next, retry + 1, maxRetries, p.world, c, d);
  }

  /** `execute_query` connects first, and only without a connection; the guard looks at the
      incoming statement once, before anything is executed; the loop never reconnects. */
  lemma ExecuteOrder(env: Env, w: World, sql: string, maxRetries: int)
    ensures var c := EnsureConnected(env, w);
      var t := ExecuteSpec(env, w, sql, maxRetries);
      && t.world.conn == c.world.conn && t.world.connects == c.world.connects
      && (w.conn.Some? ==> t.world.conn == w.conn && t.world.connects == w.connects)
      && (c.value.Some? ==>
            t.value == Raised(c.value.value) && t.world.statements == w.statements && t.world.prompts == w.prompts)
      && (IsMutation(sql) ==>
            t.value.Raised? && t.world.statements == w.statements && t.world.prompts == w.prompts)
      && (c.value.None? && IsMutation(sql) ==> t.value == Raised(GuardMessage))
  {
  }

  /** The attempt bound: at most `max_retries` statements are executed and at most
      `max_retries - 1` repairs are requested; with `max_retries <= 0` nothing runs and the
      call returns None, which it returns in no other case. */
  lemma ExecuteBounds(env: Env, w: World, sql: string, maxRetries: int)
    ensures var c := EnsureConnected(env, w);
      var t := ExecuteSpec(env, w, sql, maxRetries);
      var n := |t.world.statements| - |w.statements|;
      var m := |t.world.prompts| - |w.prompts|;
      && StartsWith(t.world.statements, w.statements) && StartsWith(t.world.prompts, w.prompts)
      && 0 <= n && (maxRetries <= 0 ==> n == 0) && (maxRetries > 0 ==> n <= maxRetries)
      && 0 <= m && (maxRetries <= 1 ==> m == 0) && (maxRetries > 1 ==> m <= maxRetries - 1)
      && (t.value.ReturnedNone? <==> c.value.None? && !IsMutation(sql) && maxRetries <= 0)
      && (c.value.None? && !IsMutation(sql) && maxRetries > 0 ==> n >= 1 && t.world.statements[|w.statements|] == sql)
  {
    var c := EnsureConnected(env, w);
    if c.value.None? && !IsMutation(sql) {
      LoopBounds(env, c.world.conn.value, sql, 0, maxRetries, c.world);
    }
  }

  /** Statements produced by a repair are executed without passing the guard: after a
      failure of the first statement, the second statement executed is whatever the SQL
      extracted from the model's answer is. */
  lemma RepairIsNotGuarded(env: Env, w: World, sql: string, maxRetries: int, err: string, text: string)
    requires w.conn.Some? && !IsMutation(sql) && maxRetries >= 2
    requires env.answer(w.conn.value.session, |w.statements|, sql) == DriverError(err)
    requires env.reply(|w.prompts|, QueryPrompt(env.schemaPrompt, RepairRequest(err, sql))) == Answer(text)
    ensures var t := ExecuteSpec(env, w, sql, maxRetries);
      |t.world.statements| >= |w.statements| + 2 && t.world.statements[|w.statements| + 1] == env.extract(text)
  {
    var h := w.conn.value;
    var p := AttemptSpec(env, h, sql, 0, maxRetries, w);
    AttemptContinue(env, h, sql, 0, maxRetries, w);
    LoopPrefix(env, h, p.value.sql, 1, maxRetries, p.world);
    var t := LoopSpec(env, h, p.value.sql, 1, maxRetries, p.world);
    assert t.world.statements[|p.world.statements|] == env.extract(text);
  }

  /** A statement the guard refuses, which the extraction rule passes on unchanged. */
  const DeleteStatement: string := "delete " + "from t"

  lemma DeleteStatementFacts()
    ensures ExtractSql(DeleteStatement) == DeleteStatement
    ensures IsMutation(DeleteStatement)
  {
    ExtractPlain(DeleteStatement);
    LowerCaseDeleteRefused("from t");
  }

  /** For instance, a repaired `delete` is executed, although the guard refuses it. */
  lemma RepairedDeleteIsExecuted(env: Env, w: World, sql: string, err: string)
    requires env.extract == ExtractSql
    requires w.conn.Some? && !IsMutation(sql)
    requires env.answer(w.conn.value.session, |w.statements|, sql) == DriverError(err)
    requires env.reply(|w.prompts|, QueryPrompt(env.schemaPrompt, RepairRequest(err, sql))) == Answer(DeleteStatement)
    ensures var t := ExecuteSpec(env, w, sql, DefaultMaxRetries);
      && |t.world.statements| >= |w.statements| + 2
      && t.world.statements[|w.statements| + 1] == DeleteStatement
      && IsMutation(t.world.statements[|w.statements| + 1])
  {
    RepairIsNotGuarded(env, w, sql, DefaultMaxRetries, err, DeleteStatement);
    DeleteStatementFacts();
  }

  /** The loop as the guard's error message promises it ("will not be executed"): every
      statement, the repaired ones included, is checked before it is run, and one the guard
      refuses raises the guard's error. */
  function GuardedLoopSpec(env: Env, h: Handle, sql: string, retry: int, maxRetries: int, w: World): (t: Then<Outcome>)
    decreases maxRetries - retry
    ensures t.world.conn == w.conn && t.world.memory == w.memory
    ensures StartsWith(t.world.statements, w.statements)
    ensures forall k :: |w.statements| <= k < |t.world.statements| ==> !IsMutation(t.world.statements[k])
  {
    if retry >= maxRetries then Then(ReturnedNone, w)
    else if IsMutation(sql) then Then(Raised(GuardMessage), w)
    else
      var p := AttemptSpec(env, h, sql, retry, maxRetries, w);
      match p.value
      case Stop(outcome) => Then(outcome, p.world)
      case Continue(next) =>
        var t := GuardedLoopSpec(env, h, next, retry + 1, maxRetries, p.world);
        assert t.world.statements[..|w.statements|] == t.world.statements[..|p.world.statements|][..|w.statements|];
        assert t.world.statements[|w.statements|] == sql;
        t
  }

  /** `execute_query` with the guarded loop. */
  function GuardedExecuteSpec(env: Env, w: World, sql: string, maxRetries: int): (t: Then<Outcome>)
    ensures StartsWith(t.world.statements, w.statements)
    ensures forall k :: |w.statements| <= k < |t.world.statements| ==> !IsMutation(t.world.statements[k])
  {
    var c := EnsureConnected(env, w);
    if c.value.Some? then Then(Raised(c.value.value), c.world)
    else if IsMutation(sql) then Then(Raised(GuardMessage), c.world)
    else
      GuardedLoopSpec(env, c.world.conn.value, sql, 0, maxRetries, c.world)
  }

  /** The guarded loop differs from the loop as written only when a repair produces a
      statement the guard refuses: when none of the statements the loop executes is refused,
      the two agree. */
  lemma {:induction false} GuardedLoopAgrees(env: Env, h: Handle, sql: string, retry: int, maxRetries: int, w: World)
    decreases maxRetries - retry
    requires var t := LoopSpec(env, h, sql, retry, maxRetries, w);
      forall k :: |w.statements| <= k < |t.world.statements| ==> !IsMutation(t.world.statements[k])
    ensures GuardedLoopSpec(env, h, sql, retry, maxRetries, w) == LoopSpec(env, h, sql, retry, maxRetries, w)
  {
    if retry < maxRetries {
      LoopPrefix(env, h, sql, retry, maxRetries, w);
      var p := AttemptSpec(env, h, sql, retry, maxRetries, w);
      if p.value.Continue? {
        var t := LoopSpec(env, h, p.value.sql, retry + 1, maxRetries, p.world);
        assert t == LoopSpec(env, h, sql, retry, maxRetries, w);
        GuardedLoopAgrees(env, h, p.value.sql, retry + 1, maxRetries, p.world);
      }
    }
  }

  /** With the guarded loop, the repaired `delete` of RepairedDeleteIsExecuted raises the
      guard's error instead of being executed: only the first statement runs. */
  lemma GuardedDeleteIsRefused(env: Env, w: World, sql: string, err: string)
    requires env.extract == ExtractSql
    requires w.conn.Some? && !IsMutation(sql)
    requires env.answer(w.conn.value.session, |w.statements|, sql) == DriverError(err)
    requires env.reply(|w.prompts|, QueryPrompt(env.schemaPrompt, RepairRequest(err, sql))) == Answer(DeleteStatement)
    ensures var t := GuardedExecuteSpec(env, w, sql, DefaultMaxRetries);
      t.value == Raised(GuardMessage) && t.world.statements == w.statements + [sql]
  {
    var h := w.conn.value;
    AttemptContinue(env, h, sql, 0, DefaultMaxRetries, w);
    DeleteStatementFacts();
  }

  /** `process_query` asks the model once for the statement and then runs it under the
      default bound: at most three statements and three prompts in all; when the first
      request raises, nothing is executed and no connection is attempted. */
  lemma ProcessBounds(env: Env, w: World, text: string)
    ensures var t := ProcessSpec(env, w, text);
      var n := |t.world.statements| - |w.statements|;
      var m := |t.world.prompts| - |w.prompts|;
      && StartsWith(t.world.statements, w.statements) && StartsWith(t.world.prompts, w.prompts)
      && 1 <= m <= DefaultMaxRetries && 0 <= n <= DefaultMaxRetries
      && t.world.prompts[|w.prompts|] == QueryPrompt(env.schemaPrompt, text)
      && (env.reply(|w.prompts|, QueryPrompt(env.schemaPrompt, text)).Fault? ==>
            && t.value == Raised(env.reply(|w.prompts|, QueryPrompt(env.schemaPrompt, text)).message)
            && n == 0 && m == 1 && t.world.connects == w.connects && t.world.conn == w.conn)
  {
    var s := TextToSqlSpec(env, w, text);
    if s.value.Success? {
      ExecuteBounds(env, s.world, s.value.value, DefaultMaxRetries);
      var t := ExecuteSpec(env, s.world, s.value.value, DefaultMaxRetries);
      StartsWithTrans(w.prompts, s.world.prompts, t.world.prompts);
      assert t.world.prompts[|w.prompts|] == t.world.prompts[..|s.world.prompts|][|w.prompts|];
    }
  }

  /** `close` is idempotent, and after it the next query opens a new connection with the
      configured parameters whenever the configuration has an entry for the agent. */
  lemma CloseThenReconnect(env: Env, w: World, sql: string, maxRetries: int)
    ensures CloseSpec(CloseSpec(w)) == CloseSpec(w)
    ensures ResolveSettings(env.snowflake, DomainKey(env.name)).Some? ==>
      var t := ExecuteSpec(env, CloseSpec(w), sql, maxRetries);
      && |t.world.connects| == |w.connects| + 1
      && t.world.connects[|w.connects|] == ParamsOf(ResolveSettings(env.snowflake, DomainKey(env.name)).value)
  {
    var w1 := CloseSpec(w);
    ExecuteOrder(env, w1, sql, maxRetries);
    ConnectReports(env, w1, None, ConnectSpec(env, w1, None));
  }

  /** The repair request names the failure's error text and the failed statement. */
  lemma RepairRequestMentions(err: string, sql: string)
    ensures Occurs(RepairRequest(err, sql), err, |RepairOpening|)
    ensures Occurs(RepairRequest(err, sql), sql, |RepairOpening| + |err| + |RepairLabel|)
  {
    var r := RepairRequest(err, sql);
    assert r == RepairOpening + err + (RepairLabel + sql + RepairClosing);
    assert r[|RepairOpening|..|RepairOpening| + |err|] == err;
    var i := |RepairOpening| + |err| + |RepairLabel|;
    assert r == (RepairOpening + err + RepairLabel) + sql + RepairClosing;
    assert r[i..i + |sql|] == sql;
  }

  /** The terminal message names `max_retries`, in decimal, and ends with the last error text. */
  lemma TerminalMessageMentions(maxRetries: nat, err: string)
    ensures var msg := TerminalMessage(maxRetries, err);
      var digits := IntToString(maxRetries);
      && Occurs(msg, digits, |TerminalOpening|)
      && DecimalValue(digits) == maxRetries
      && Occurs(msg, err, |msg| - |err|)
  {
    var msg := TerminalMessage(maxRetries, err);
    var digits := IntToString(maxRetries);
    assert msg == TerminalOpening + digits + (TerminalLabel + err);
    assert msg[|TerminalOpening|..|TerminalOpening| + |digits|] == digits;
    assert msg[|msg| - |err|..] == err;
  }

  /** The names of the two agents split to exactly the keys that mark the per-domain format. */
  lemma OrgDomain()
    ensures DomainKey(OrgAgentName) == DomainKeys[0] == "org"
  {
    PrefixBeforeAt(OrgAgentName, '_', 3);
  }

  lemma PersonDomain()
    ensures DomainKey(PersonAgentName) == DomainKeys[1] == "person"
  {
    PrefixBeforeAt(PersonAgentName, '_', 6);
  }

  /** With a single-table Snowflake section every agent, whatever its name, connects with
      the one "default" entry. */
  lemma SingleTableServesEveryAgent(raw: map<string, Toml>, sf: Result<map<string, SnowflakeSettings>, ConfigError>, name: string)
    requires SnowflakeLoaded(raw, sf) && sf.Success?
    requires "snowflake" in raw && raw["snowflake"].Table? && !IsPerDomain(raw["snowflake"].entries)
    ensures ResolveSettings(sf.value, DomainKey(name)) == Some(sf.value[DefaultKey])
    ensures Success(sf.value[DefaultKey]) == ValidateSnowflake(DefaultKey, raw["snowflake"].entries)
  {
    assert sf.value.Keys == {DefaultKey};
  }

  /** With a per-domain section the org agent connects with the "org" table when there is
      one, else with a "default" table, and finds no configuration otherwise. */
  lemma PerDomainServesOrg(raw: map<string, Toml>, sf: Result<map<string, SnowflakeSettings>, ConfigError>)
    requires SnowflakeLoaded(raw, sf) && sf.Success?
    requires "snowflake" in raw && raw["snowflake"].Table? && IsPerDomain(raw["snowflake"].entries)
    ensures var section := raw["snowflake"].entries;
      var r := ResolveSettings(sf.value, DomainKey(OrgAgentName));
      && ("org" in section && section["org"].Table? ==>
            r.Some? && Success(r.value) == ValidateSnowflake("org", section["org"].entries))
      && (!("org" in section && section["org"].Table?) && DefaultKey in section && section[DefaultKey].Table? ==>
            r.Some? && Success(r.value) == ValidateSnowflake(DefaultKey, section[DefaultKey].entries))
      && (!("org" in section && section["org"].Table?) && !(DefaultKey in section && section[DefaultKey].Table?) ==>
            r.None?)
  {
    OrgDomain();
    var section := raw["snowflake"].entries;
    assert PerDomainLoaded(section, sf);
    assert "org" in sf.value <==> "org" in section && section["org"].Table?;
    assert DefaultKey in sf.value <==> DefaultKey in section && section[DefaultKey].Table?;
  }

  /** The same for the person agent and the "person" table. */
  lemma PerDomainServesPerson(raw: map<string, Toml>, sf: Result<map<string, SnowflakeSettings>, ConfigError>)
    requires SnowflakeLoaded(raw, sf) && sf.Success?
    requires "snowflake" in raw && raw["snowflake"].Table? && IsPerDomain(raw["snowflake"].entries)
    ensures var section := raw["snowflake"].entries;
      var r := ResolveSettings(sf.value, DomainKey(PersonAgentName));
      && ("person" in section && section["person"].Table? ==>
            r.Some? && Success(r.value) == ValidateSnowflake("person", section["person"].entries))
      && (!("person" in section && section["person"].Table?) && DefaultKey in section && section[DefaultKey].Table? ==>
            r.Some? && Success(r.value) == ValidateSnowflake(DefaultKey, section[DefaultKey].entries))
      && (!("person" in section && section["person"].Table?) && !(DefaultKey in section && section[DefaultKey].Table?) ==>
            r.None?)
  {
    PersonDomain();
    var section := raw["snowflake"].entries;
    assert PerDomainLoaded(section, sf);
    assert "person" in sf.value <==> "person" in section && section["person"].Table?;
    assert DefaultKey in sf.value <==> DefaultKey in section && section[DefaultKey].Table?;
  }
}
