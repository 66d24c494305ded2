# Snowflake text-to-SQL agent, modelled in Dafny

This project models the Snowflake part of OpenManus:

- `BaseSnowflakeAgent`: each agent asks a language model for SQL. It refuses a statement that looks like DDL/DML and runs it on a Snowflake connection. After each driver error it asks the model to repair the statement, up to `max_retries` attempts.
- `Config`, the configuration loader that produces the Snowflake credentials.
- `SnowflakeTool`, which sends a query to the organisation agent or to the person agent.

The project is split into these modules:

- `Text` (`text.dfy`): the parts of Python's `str` the code relies on. These are `strip()`, substring search, `upper()`, `split("_")[0]` and `str(int)`.
- `Extraction` (`extraction.dfy`): the rule that `text_to_sql` uses to take the SQL out of a model response. It takes the first "```sql" + newline … "```" block, stripped. With no such block it takes the whole response, stripped.
- `Guard` (`guard.dfy`): the DDL/DML check of `execute_query`. It is a substring check on the upper-cased statement.
- `Settings` (`config.dfy`):
  - the choice of configuration file;
  - `_load_initial_config`, with its two formats of the Snowflake section (one table per agent domain, or a single table stored as "default");
  - the run-once `Config` singleton.
- `Oracles` (`oracles.dfy`): the language model and the Snowflake driver, as classes. Their behaviour is a parameter, and they record every call they receive.
- `SnowflakeAgent` (`agent.dfy`): the agent as a class with the fields `conn` and `memory`.
  - Each method is proved equal to a specification function over values. `Env` holds what never changes and `World` holds what a call may change.
  - The extraction rule is a field of `Env`. `Agent.Environment()`, and the environments the tool gives its agents, always set it to `ExtractSql`. The loop lemmas take the rule as it comes in `Env`, so they hold for any rule. The lemmas that need the concrete rule (`RepairedDeleteIsExecuted`) require it to be `ExtractSql`.
- `AgentProperties` (`agent_properties.dfy`): these properties of the specification functions:
  - the order of connect, guard and loop;
  - the attempt bound;
  - a full account of every pass of the retry loop;
  - the connection life cycle;
  - the texts of the prompts and errors;
  - how the configuration formats resolve for each agent.
- `SnowflakeTool` (`tool.dfy`): tag dispatch with lazy creation of the agents, and the `to_param` schema.

### The guard is checked once

`execute_query` checks only the statement it receives, before the loop. A statement regenerated by the repair loop is executed without being checked. The model follows the code:
- `AgentProperties.RepairIsNotGuarded` shows that the second statement executed is whatever the model's repair answer was.
- `AgentProperties.RepairedDeleteIsExecuted` gives an instance: a `delete` that the guard would refuse is executed.

A refused statement raises before the loop, so it does not use up an attempt or lead to a repair. This differs from a reading in which every executed statement passes the guard and a refusal is retried like a driver error.

The agent class models the code as written. The guard's own message promises that such a statement will not be executed, so the discrepancy is recorded under "## Findings". A corrected loop, `AgentProperties.GuardedLoopSpec`, is proved to execute no refused statement.

## Model

| member | source | states |
|---|---|---|
| Text.LeadingSpaceSpec | app/agent/base_snowflake.py:75 | the count of leading characters `strip()` removes covers exactly the whitespace run at the start |
| Text.TrailingSpaceSpec | app/agent/base_snowflake.py:78 | the count of trailing characters `strip()` removes covers exactly the whitespace run at the end |
| Text.StripStrips | app/agent/base_snowflake.py:75 | `strip()` removes whitespace at both ends and nothing else, and the result neither starts nor ends with whitespace |
| Text.StripUnique | app/agent/base_snowflake.py:78 | only one string satisfies that description, so it characterises `strip()` completely |
| Text.FindFrom | app/agent/base_snowflake.py:73 | the search returns the first offset at or after `from` where the pattern occurs, and None only when it occurs nowhere from there |
| Text.MissingCharNotContained | app/agent/base_snowflake.py:73 | a pattern holding a character that the text lacks does not occur in the text |
| Text.UpperOfAscii | app/agent/base_snowflake.py:99 | on ASCII text `upper()` keeps the length and capitalises each letter |
| Text.UpperKeepsSpaceFree | app/agent/base_snowflake.py:99 | `upper()` produces no space character from a non-space one |
| Text.PrefixBefore | app/agent/base_snowflake.py:33-35 | `split(sep)[0]` is a prefix holding no separator, and is followed by a separator when it is not the whole string |
| Text.PrefixBeforeAt | app/agent/base_snowflake.py:33-35 | when the first separator is at offset n, the part before it is the first n characters |
| Text.NatToString | app/agent/base_snowflake.py:142 | `str(n)` is a non-empty string of decimal digits that denotes n, with no leading zero unless n is 0 |
| Extraction.ExtractFenced | app/agent/base_snowflake.py:72-75 | when the pattern matches, the result is the stripped group of the match whose opener is leftmost; the group never holds a closing fence |
| Extraction.ExtractFallback | app/agent/base_snowflake.py:76-78 | when no opener is followed by a closing fence, the result is the whole response stripped |
| Extraction.SearchDichotomy | app/agent/base_snowflake.py:73-78 | one of the two cases always applies: a leftmost match exists, or no opener is followed by a fence |
| Extraction.ExtractIgnoresProse | app/agent/base_snowflake.py:73-75 | prose around a single fenced block is ignored |
| Extraction.UpperCaseTagFallsBack | app/agent/base_snowflake.py:73 | "```SQL" is not an opener, so the whole response is used |
| Extraction.SpaceAfterTagFallsBack | app/agent/base_snowflake.py:73 | "```sql " followed by a space is not an opener either |
| Extraction.ExtractPlain | app/agent/base_snowflake.py:76-78 | a response with no backquote and no whitespace at either end is used as it is |
| Guard.AnyContained | app/agent/base_snowflake.py:99 | `any(w in text for w in words)` is true exactly when some word is a substring of the text |
| Guard.ContainsIff | app/agent/base_snowflake.py:99 | Python's `in` on strings is the substring relation |
| Guard.IsMutation | app/agent/base_snowflake.py:89-99 | a statement is refused exactly when one of the seven keywords, trailing space included, occurs in its upper-cased text |
| Guard.KeywordTestIff | app/agent/base_snowflake.py:90-99 | the check over the keyword list equals the existence of a keyword occurrence |
| Guard.SpaceFreeNeverRefused | app/agent/base_snowflake.py:90-99 | a statement with no space character is never refused, since every keyword needs one |
| Guard.TabSeparatedDropAllowed | app/agent/base_snowflake.py:93-99 | a DROP whose words are separated by tabs passes |
| Guard.LowerCaseDeleteRefused | app/agent/base_snowflake.py:96-99 | the check ignores case: "delete …" is refused |
| Guard.KeywordAfterAnyTextRefused | app/agent/base_snowflake.py:97-99 | the check is a substring check: "update " is refused after any text, so "last_update " is refused too |
| Guard.RecreateRefused | app/agent/base_snowflake.py:91-99 | "RECREATE " contains "CREATE " and is refused |
| Guard.DotlessIInsertRefused | app/agent/base_snowflake.py:95-99 | Unicode upper-casing counts: a dotless i upper-cases to I, so "ınsert " is refused |
| Settings.ConfigFilePath | app/config.py:203-211 | config.toml is chosen when it exists, else config.example.toml; when neither exists the result is the missing-file error |
| Settings.RawConfig | app/config.py:213-216 | the parsed document is the contents of the chosen file, and the load fails exactly when no file is found |
| Settings.FirstBadField | app/config.py:151-159 | gives the first required field that is missing or not a string, and gives none exactly when all of them are strings |
| Settings.ValidateSnowflake | app/config.py:151-159 | the entry is accepted exactly when all six fields are strings, and its values are those fields; otherwise the error names the entry and a bad field |
| Settings.LoadLlmSettings | app/config.py:222-230 | every table-valued `llm` entry is kept under its key and every other entry is skipped; a missing section gives {}; a section that is not a table raises |
| Settings.OptionalSection | app/config.py:232-245 | sandbox, browser and search are present exactly when their key holds a table, and then hold that table |
| Settings.SingleTable | app/config.py:262-266 | the single-table format gives exactly one entry, "default", validated from the whole section |
| Settings.LoadSnowflakeSettings | app/config.py:250-266 | a missing section, or one that is not a table, gives {} and never None; with an "org" or "person" key each table entry is validated and kept under its own key and the other entries are dropped; otherwise the single-table format applies |
| Settings.LoadInitialConfig | app/config.py:218-277 | the configuration combines the loaded sections; the llm error comes before the Snowflake error |
| Settings.Config.constructor | app/config.py:187-192 | a new instance is not yet initialised and holds no configuration |
| Settings.ConfigClass.constructor | app/config.py:183-185 | there is no instance before the first call |
| Settings.ConfigClass.Call | app/config.py:187-200 | every call gives the one instance; once a load succeeds no call loads again; until then each call loads once and reports its error |
| Settings.CallTwice | app/config.py:187-200 | a second `Config()` after a successful one gives the same result |
| Oracles.LanguageModel.constructor | app/agent/base_snowflake.py:19 | a new model has received no prompt |
| Oracles.LanguageModel.Ask | app/agent/base_snowflake.py:70 | the reply is the model's answer to this request, and the prompt is recorded |
| Oracles.Warehouse.constructor | app/agent/base_snowflake.py:2 | a new driver has received no call |
| Oracles.Warehouse.Connect | app/agent/base_snowflake.py:52 | records the parameters; fails with the driver's error text or gives a new session |
| Oracles.Warehouse.Execute | app/agent/base_snowflake.py:110-116 | the outcome is the driver's answer to this statement on this session, and the statement is recorded |
| Oracles.Warehouse.Close | app/agent/base_snowflake.py:157 | records that the session was closed |
| SnowflakeAgent.ResolveSettings | app/agent/base_snowflake.py:37-41 | gives the entry of the agent's domain if there is one, else the "default" entry, else none |
| SnowflakeAgent.ParamsOf | app/agent/base_snowflake.py:43-50 | the connection parameters are the six credential fields, taking the account from the entry |
| SnowflakeAgent.ColumnNames | app/agent/base_snowflake.py:113-115 | the column names are the first items of the description, in order, or [] without a description |
| SnowflakeAgent.ConnectSpec | app/agent/base_snowflake.py:24-58 | `connect` changes only the connection and the driver calls, and a success leaves a connection |
| SnowflakeAgent.ConnectReports | app/agent/base_snowflake.py:24-58 | with neither parameters nor configuration it raises before doing anything; the lookup happens, and must succeed, even with explicit parameters; there is at most one driver call, with the explicit parameters or else the resolved entry's; the connection changes only when that call succeeds |
| SnowflakeAgent.EnsureConnected | app/agent/base_snowflake.py:85-87 | with a connection nothing happens; otherwise the agent connects |
| SnowflakeAgent.TextToSqlSpec | app/agent/base_snowflake.py:60-81 | exactly one prompt is sent: the schema prompt followed by the request. The call raises exactly when the model raises, and otherwise gives the extracted SQL |
| SnowflakeAgent.AttemptSpec | app/agent/base_snowflake.py:106-143 | one pass executes exactly one statement and leaves the connection and the memory alone |
| SnowflakeAgent.LoopSpec | app/agent/base_snowflake.py:104-143 | the loop never reconnects and never touches the memory |
| SnowflakeAgent.CloseSpec | app/agent/base_snowflake.py:153-159 | afterwards there is no connection; an open connection is closed once; without one nothing happens |
| SnowflakeAgent.StepReports | app/agent/base_snowflake.py:161-183 | without messages, or when the last one is not from the user, nothing changes; otherwise exactly one assistant message is appended, holding the error text or the rendered result, and the return value matches it |
| SnowflakeAgent.Agent.constructor | app/agent/base_snowflake.py:13-22 | a new agent has no connection and an empty memory |
| SnowflakeAgent.Agent.Connect | app/agent/base_snowflake.py:24-58 | the method does what ConnectSpec describes |
| SnowflakeAgent.Agent.TextToSql | app/agent/base_snowflake.py:60-81 | the method does what TextToSqlSpec describes |
| SnowflakeAgent.Agent.ExecuteQuery | app/agent/base_snowflake.py:83-143 | the method does what the connect, guard and loop specification describes; `max_retries` defaults to 3 |
| SnowflakeAgent.Agent.RunAttempts | app/agent/base_snowflake.py:104-143 | the `while` loop does what LoopSpec describes |
| SnowflakeAgent.Agent.Attempt | app/agent/base_snowflake.py:106-143 | one loop pass does what AttemptSpec describes |
| SnowflakeAgent.Agent.ProcessQuery | app/agent/base_snowflake.py:145-151 | text_to_sql, then execute_query with the default of 3 attempts |
| SnowflakeAgent.Agent.Close | app/agent/base_snowflake.py:153-159 | the method does what CloseSpec describes |
| SnowflakeAgent.Agent.Turn | app/agent/base_snowflake.py:170-176 | connect if needed, then process the last message |
| SnowflakeAgent.Agent.Step | app/agent/base_snowflake.py:161-183 | the method does what the step specification (StepReports) describes |
| SnowflakeAgent.Agent.Report | app/agent/base_snowflake.py:177-183 | records the assistant message for the outcome and returns its report |
| AgentProperties.LoopPrefix | app/agent/base_snowflake.py:104-143 | the loop only appends statements and prompts, and when it runs the first statement is the incoming one |
| AgentProperties.LoopBounds | app/agent/base_snowflake.py:104-143 | from `current_retry = retry`, between 1 and `max_retries - retry` statements are executed and at most `max_retries - retry - 1` repairs are requested; None is returned exactly when the loop does not run |
| AgentProperties.AttemptStop | app/agent/base_snowflake.py:106-143 | a pass that ends the call is a last pass, described below |
| AgentProperties.AttemptContinue | app/agent/base_snowflake.py:121-139 | a pass that goes on had a driver error with attempts left, sent exactly one repair prompt naming that error and statement, and got an answer whose extracted SQL is the next statement |
| AgentProperties.LoopRepairs | app/agent/base_snowflake.py:121-139 | every pass but the last failed and was repaired, and the next statement executed is the SQL extracted from the model's answer to the repair prompt |
| AgentProperties.FirstRepaired | app/agent/base_snowflake.py:121-139 | a pass that goes on is a repaired pass of the whole loop |
| AgentProperties.LoopEnds | app/agent/base_snowflake.py:104-143 | the last pass decides the outcome. Rows return the column names and the data. A driver error on attempt number `max_retries` raises the terminal message. Any other driver error sends a repair prompt and raises the model's exception |
| AgentProperties.ExecuteOrder | app/agent/base_snowflake.py:85-104 | `execute_query` connects first, and only without a connection. The guard checks only the incoming statement. A refused statement, or a failed connect, raises before any statement or prompt is sent |
| AgentProperties.ExecuteBounds | app/agent/base_snowflake.py:104-143 | at most `max_retries` statements and `max_retries - 1` repairs; with `max_retries <= 0` nothing runs and the result is None, which it is in no other case; the first statement executed is the incoming one |
| AgentProperties.RepairIsNotGuarded | app/agent/base_snowflake.py:99-139 | after a failure of the first statement, the second statement executed is the extracted repair answer, whatever it is |
| AgentProperties.DeleteStatementFacts | app/agent/base_snowflake.py:73-99 | "delete from t" passes through extraction unchanged and is refused by the guard |
| AgentProperties.RepairedDeleteIsExecuted | app/agent/base_snowflake.py:99-139 | a repaired "delete from t" is executed although the guard refuses it |
| AgentProperties.GuardedLoopSpec | app/agent/base_snowflake.py:99-143 | the corrected loop checks every statement, repairs included, before running it: no statement it executes is refused by the guard, and it only appends to the log |
| AgentProperties.GuardedExecuteSpec | app/agent/base_snowflake.py:83-143 | `execute_query` with the corrected loop executes no statement that the guard refuses |
| AgentProperties.GuardedLoopAgrees | app/agent/base_snowflake.py:104-143 | when no statement the loop as written executes is refused, the corrected loop gives the same outcome and state |
| AgentProperties.GuardedDeleteIsRefused | app/agent/base_snowflake.py:99-102 | with the corrected loop, the repaired "delete from t" raises the guard's error, and only the first statement is executed |
| AgentProperties.ProcessBounds | app/agent/base_snowflake.py:145-151 | `process_query` sends the query prompt first, and in all sends at most 3 prompts and runs at most 3 statements. When the first request raises, nothing is executed and no connection is attempted |
| AgentProperties.CloseThenReconnect | app/agent/base_snowflake.py:153-159 | `close` is idempotent, and the next query after it makes one new connect call with the configured parameters |
| AgentProperties.RepairRequestMentions | app/agent/base_snowflake.py:128-137 | the repair prompt contains the error text and the failed statement, at known offsets |
| AgentProperties.TerminalMessageMentions | app/agent/base_snowflake.py:141-143 | the terminal message contains `max_retries` in decimal and ends with the last error text |
| AgentProperties.OrgDomain | app/agent/base_snowflake.py:33-35 | "org_authority" splits to "org", a key of the per-domain format |
| AgentProperties.PersonDomain | app/agent/base_snowflake.py:33-35 | "person_authority" splits to "person", the other key of the per-domain format |
| AgentProperties.SingleTableServesEveryAgent | app/config.py:262-266 | with a single-table section every agent connects with the one "default" entry |
| AgentProperties.PerDomainServesOrg | app/config.py:255-261 | with a per-domain section the org agent uses the "org" table, else a "default" table, else finds no configuration |
| AgentProperties.PerDomainServesPerson | app/config.py:255-261 | with a per-domain section the person agent uses the "person" table, else a "default" table, else finds no configuration |
| SnowflakeTool.Tool.NewAgent | app/tool/snowflake_tool.py:34 | a new agent of the given name and schema, with its own oracles, not connected and with an empty memory |
| SnowflakeTool.Tool.constructor | app/tool/snowflake_tool.py:18-22 | both agents are created at once, and they share no object |
| SnowflakeTool.Tool.Execute | app/tool/snowflake_tool.py:24-53 | "org" and "person" select their agent, which is created first if its field is empty and reused otherwise. The outcome, raised errors included, is that of `process_query`. Any other tag raises the ValueError text naming the tag, before anything runs. The other field and the other agent do not change. The tag defaults to "org" |
| SnowflakeTool.ExecuteWithoutTag | app/tool/snowflake_tool.py:24 | `execute(query)` with the tag left out is answered by the org agent, as `process_query` on it, and the person agent does not change |
| SnowflakeTool.Tool.SelectOrg | app/tool/snowflake_tool.py:31-35 | the org agent, created only when the field is empty |
| SnowflakeTool.Tool.SelectPerson | app/tool/snowflake_tool.py:36-40 | the person agent, created only when the field is empty |
| SnowflakeTool.ParamSchema | app/tool/snowflake_tool.py:55-79 | the schema names the tool, lists exactly "org" and "person" for `agent_type` with default "org", and requires only the query |
| SnowflakeTool.AdvertisedTagsAccepted | app/tool/snowflake_tool.py:24-44 | a tag is accepted by `execute` exactly when the schema lists it; the default the schema advertises is the default of `execute`, and it is one of the listed tags |

## Left out

- Logging: every `logger` call is a side effect only.
- `async`/`await`: the awaits run in sequence, and the model treats them as sequential calls.
- The language model and the Snowflake driver are oracles whose behaviour is a parameter. Their internals (`LLM`, `snowflake.connector`) are not part of this model.
  - Each agent created by the tool gets oracle objects of its own.
  - Any exception from `cursor()`, `execute`, `fetchall` or `description` is one `DriverError` carrying its text.
  - A failure of `cursor.close()` or `conn.close()` is not modelled.
- The agent's and the tool's exceptions are modelled by their message text, and their classes (`Exception`, `KeyError`, `ValueError`) are not distinguished. Configuration errors are the `ConfigError` datatype instead: a missing file, a section that is not a table, or a refused Snowflake entry. That last case carries the key of the entry and one bad field. pydantic's `ValidationError` (app/config.py:259, 264) lists the bad fields, but its text is not modelled and it does not carry the entry key.
- File reading (`tomllib.load`) is left out: the file system is a parameter, `Files`.
- The MCP section (`MCPSettings.load_server_config`, app/config.py:248) reads another file and is left out.
- The `threading.Lock` of `Config`: the run-once logic is modelled sequentially.
- pydantic validation of the llm, sandbox, browser and search sections is left out; those sections are kept as raw tables.
  - Of `SnowflakeSettings`, only the six required string fields are checked.
  - Extra keys of an entry are ignored, as pydantic does by default. pydantic's type coercions are not modelled: a field must already be a string.
- Floating-point and date values of TOML are not part of `Toml`.
- `upper()` maps ASCII letters, and the non-ASCII characters whose full Unicode upper case contains an ASCII letter (ß, ı, ſ, the ligatures ﬀ–ﬆ and others). Every other character is kept as it is; that cannot change which keywords occur.
- Python's `repr` of results (`str(results)` in `step`) is written without escaping quotes inside strings. A cell is known only by its repr.
- The schema prompts of app/agent/org_authority.py and app/agent/person_authority.py are parameters; only the agent names and descriptions are constants.
- `BaseAgent` and `BaseTool` are not part of this model. The memory is a sequence of (role, content) messages, and `update_memory` appends one.
- Settings.LoadSnowflakeSettings: when several per-domain entries are invalid, the error names some invalid entry. It need not be the first one in the document's order, because tables are maps here.

## Findings

| source | as written | input that shows it | evidently intended | confidence | as-written member | corrected member |
|---|---|---|---|---|---|---|
| app/agent/base_snowflake.py:99-102, 138-139 | the DDL/DML check runs once, on the incoming statement; a statement from a repair is executed unchecked | the statement fails with a driver error, and the model's repair answer is "delete from t" under the default of 3 attempts; the second statement executed is "delete from t" | every statement is checked before it is executed, as the guard's message "we will not be executing the statement" says; a refused repair raises that error | high (not executed) | AgentProperties.RepairedDeleteIsExecuted | AgentProperties.GuardedLoopSpec |
