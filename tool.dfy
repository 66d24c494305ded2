/** `SnowflakeTool` (app/tool/snowflake_tool.py): the tool through which the rest of the
    system queries Snowflake. It holds one organisation agent and one person agent, picks one
    by a string tag, creates it first when its field is empty, and passes the query to its
    `process_query`. `to_param` describes the tool's parameters as a JSON schema. */
module SnowflakeTool {
  import opened Text
  import opened Extraction
  import opened Settings
  import opened Oracles
  import opened SnowflakeAgent

  const ToolName: string := "snowflake"
  const ToolDescription: string := "Query Snowflake database using natural language"

  /** The two tags `execute` accepts; the first is the default of `agent_type` (line 24). */
  const OrgTag: string := "org"
  const PersonTag: string := "person"
  const DefaultAgentType: string := OrgTag

  /** The descriptions given at app/agent/org_authority.py:440 and app/agent/person_authority.py:600. */
  const OrgDescription: string := "Organization authority agent with text-to-SQL capabilities"
  const PersonDescription: string := "Person authority agent with text-to-SQL capabilities"

  /** The text of the `ValueError` for any other tag (lines 42-44). */
  function InvalidTagMessage(tag: string): string {
    "Invalid agent type: " + tag + ". Must be 'org' or 'person'"
  }

  /** The behaviour of the language model and of the Snowflake driver an agent is given. */
  datatype Behaviour = Behaviour(
    reply: (nat, string) -> Reply,
    refuse: (nat, ConnectionParams) -> Option<string>,
    answer: (nat, nat, string) -> Execution)

  /** What every agent the tool creates is made of: the global configuration, and the schema
      prompt and oracle behaviour of each kind of agent. The two kinds may connect with
      different credentials, so each has a behaviour of its own. */
  datatype Factory = Factory(
    config: AppConfig,
    orgSchema: string,
    personSchema: string,
    org: Behaviour,
    person: Behaviour)

  /** The state of an agent that has just been constructed. */
  const Initial: World := World(None, [], [], [], [], [])

  /** The objects an agent's methods may change. */
  ghost function Parts(a: Agent?): set<object> {
    if a == null then {} else {a, a.llm, a.warehouse}
  }

  /** The state of the agent in a field, or the state a new agent starts in when it is empty. */
  ghost function StateOrInitial(a: Agent?): World
    reads Parts(a)
  {
    if a == null then Initial else a.State()
  }

  class Tool {
    const factory: Factory
    var orgAgent: Agent?
    var personAgent: Agent?

    /** The environment of an `OrgAuthorityAgent` and of a `PersonAuthorityAgent`. */
    function OrgEnv(): Env {
      Env(OrgAgentName, factory.orgSchema, factory.config.snowflake, ExtractSql,
          factory.org.reply, factory.org.refuse, factory.org.answer)
    }

    function PersonEnv(): Env {
      Env(PersonAgentName, factory.personSchema, factory.config.snowflake, ExtractSql,
          factory.person.reply, factory.person.refuse, factory.person.answer)
    }

    /** Each field holds an agent of its kind, and the two agents share no object. */
    ghost predicate Valid()
      reads this
    {
      && (orgAgent != null ==> orgAgent.Environment() == OrgEnv() && orgAgent.description == OrgDescription)
      && (personAgent != null ==> personAgent.Environment() == PersonEnv() && personAgent.description == PersonDescription)
      && Parts(orgAgent) !! Parts(personAgent)
    }

    /** `OrgAuthorityAgent(config=config)` or `PersonAuthorityAgent(config=config)`: a new
        agent, with oracles of its own. */
    method NewAgent(name: string, description: string, schema: string, b: Behaviour) returns (a: Agent)
      ensures fresh(a) && fresh(a.llm) && fresh(a.warehouse)
      ensures a.Environment() == Env(name, schema, factory.config.snowflake, ExtractSql,
                                     b.reply, b.refuse, b.answer)
      ensures a.description == description && a.State() == Initial
    {
      var llm := new LanguageModel(b.reply);
      var warehouse := new Warehouse(b.refuse, b.answer);
      a := new Agent(factory.config, name, description, schema, llm, warehouse);
    }

    /** Lines 18-22: both agents are created at once. */
    constructor (factory: Factory)
      ensures this.factory == factory && Valid()
      ensures orgAgent != null && personAgent != null
      ensures orgAgent.State() == Initial && personAgent.State() == Initial
    {
      this.factory := factory;
      new;
      orgAgent := NewAgent(OrgAgentName, OrgDescription, factory.orgSchema, factory.org);
      personAgent := NewAgent(PersonAgentName, PersonDescription, factory.personSchema, factory.person);
    }

    /** `execute(query, agent_type)` (lines 24-53): the outcome of `process_query` on the
        selected agent, created first if its field is empty; any other tag raises at once.
        Only the selected field, and only the selected agent, can change. */
    method Execute(query: string, agentType: string := DefaultAgentType) returns (r: Outcome)
      requires Valid()
      modifies this, Parts(orgAgent), Parts(personAgent)
      ensures Valid()
      ensures agentType != OrgTag && agentType != PersonTag ==>
        && r == Raised(InvalidTagMessage(agentType))
        && orgAgent == old(orgAgent) && personAgent == old(personAgent)
        && unchanged(Parts(orgAgent)) && unchanged(Parts(personAgent))
      ensures agentType == OrgTag ==>
        && orgAgent != null && personAgent == old(personAgent) && unchanged(Parts(personAgent))
        && (old(orgAgent) != null ==> orgAgent == old(orgAgent))
        && (old(orgAgent) == null ==> fresh(orgAgent) && fresh(orgAgent.llm) && fresh(orgAgent.warehouse))
        && Then(r, orgAgent.State()) == ProcessSpec(OrgEnv(), old(StateOrInitial(orgAgent)), query)
      ensures agentType == PersonTag ==>
        && personAgent != null && orgAgent == old(orgAgent) && unchanged(Parts(orgAgent))
        && (old(personAgent) != null ==> personAgent == old(personAgent))
        && (old(personAgent) == null ==> fresh(personAgent) && fresh(personAgent.llm) && fresh(personAgent.warehouse))
        && Then(r, personAgent.State()) == ProcessSpec(PersonEnv(), old(StateOrInitial(personAgent)), query)
    {
      var agent: Agent;
      if agentType == OrgTag {
        agent := SelectOrg();
      } else if agentType == PersonTag {
        agent := SelectPerson();
      } else {
        return Raised(InvalidTagMessage(agentType));
      }
      r := agent.ProcessQuery(query);
    }

    /** Lines 31-35: the organisation agent, created first if the field is empty. */
    method SelectOrg() returns (agent: Agent)
      requires Valid()
      modifies this
      ensures Valid() && agent == orgAgent && personAgent == old(personAgent)
      ensures old(orgAgent) != null ==> agent == old(orgAgent)
      ensures old(orgAgent) == null ==> fresh(agent) && fresh(agent.llm) && fresh(agent.warehouse)
      ensures agent.Environment() == OrgEnv() && agent.State() == old(StateOrInitial(orgAgent))
    {
      if orgAgent == null {
        orgAgent := NewAgent(OrgAgentName, OrgDescription, factory.orgSchema, factory.org);
      }
      agent := orgAgent;
    }

    /** Lines 36-40: the person agent, created first if the field is empty. */
    method SelectPerson() returns (agent: Agent)
      requires Valid()
      modifies this
      ensures Valid() && agent == personAgent && orgAgent == old(orgAgent)
      ensures old(personAgent) != null ==> agent == old(personAgent)
      ensures old(personAgent) == null ==> fresh(agent) && fresh(agent.llm) && fresh(agent.warehouse)
      ensures agent.Environment() == PersonEnv() && agent.State() == old(StateOrInitial(personAgent))
    {
      if personAgent == null {
        personAgent := NewAgent(PersonAgentName, PersonDescription, factory.personSchema, factory.person);
      }
      agent := personAgent;
    }
  }

  /** The JSON values of the parameter description; an object keeps its members in order. */
  datatype Json = JString(s: string) | JArray(items: seq<Json>) | JObject(members: seq<(string, Json)>)

  /** The value of member `key` of an object, if it has one. */
  function Member(j: Json, key: string): Option<Json> {
    if j.JObject? then Find(j.members, key) else None
  }

  function Find(members: seq<(string, Json)>, key: string): Option<Json> {
    if members == [] then None
    else if members[0].0 == key then Some(members[0].1)
    else Find(members[1..], key)
  }

  /** The value reached by looking up `keys` one after another. */
  function Lookup(j: Json, keys: seq<string>): Option<Json>
    decreases |keys|
  {
    if keys == [] then Some(j)
    else match Member(j, keys[0])
      case None => None
      case Some(v) => Lookup(v, keys[1..])
  }

  /** `to_param()` (lines 55-79). */
  function ToParam(): Json {
    JObject([("type", JString("function")), ("function", FunctionSchema())])
  }

  function FunctionSchema(): Json {
    JObject([("name", JString(ToolName)), ("description", JString(ToolDescription)), ("parameters", ParametersSchema())])
  }

  function ParametersSchema(): Json {
    JObject([
      ("type", JString("object")),
      ("properties", JObject([("query", QuerySchema()), ("agent_type", AgentTypeSchema())])),
      ("required", JArray([JString("query")]))])
  }

  function QuerySchema(): Json {
    JObject([
      ("type", JString("string")),
      ("description", JString("Natural language query to execute on Snowflake"))])
  }

  function AgentTypeSchema(): Json {
    JObject([
      ("type", JString("string")),
      ("description", JString("Type of agent to use ('org' or 'person')")),
      ("enum", JArray([JString("org"), JString("person")])),
      ("default", JString("org"))])
  }

  const AgentTypePath: seq<string> := ["function", "parameters", "properties", "agent_type"]

  /** The schema advertises exactly the tags `execute` accepts, its default is the default
      of `execute`, and only the query is required. */
  lemma ParamSchema()
    ensures Lookup(ToParam(), ["type"]) == Some(JString("function"))
    ensures Lookup(ToParam(), ["function", "name"]) == Some(JString(ToolName))
    ensures Lookup(ToParam(), ["function", "description"]) == Some(JString(ToolDescription))
    ensures Lookup(ToParam(), AgentTypePath + ["enum"]) == Some(JArray([JString(OrgTag), JString(PersonTag)]))
    ensures Lookup(ToParam(), AgentTypePath + ["default"]) == Some(JString(DefaultAgentType))
    ensures Lookup(ToParam(), ["function", "parameters", "required"]) == Some(JArray([JString("query")]))
  {
    var f := FunctionSchema();
    var p := ParametersSchema();
    var a := AgentTypeSchema();
    assert Member(ToParam(), "function") == Some(f);
    assert Member(f, "description") == Some(JString(ToolDescription));
    assert Member(f, "parameters") == Some(p);
    assert Member(p, "required") == Some(JArray([JString("query")]));
    assert Member(p, "properties") == Some(JObject([("query", QuerySchema()), ("agent_type", a)]));
    assert Member(JObject([("query", QuerySchema()), ("agent_type", a)]), "agent_type") == Some(a);
    assert Lookup(ToParam(), AgentTypePath) == Some(a);
    assert Member(a, "enum") == Some(JArray([JString(OrgTag), JString(PersonTag)]));
    assert Member(a, "default") == Some(JString(DefaultAgentType));
    LookupAppend(ToParam(), AgentTypePath, "enum");
    LookupAppend(ToParam(), AgentTypePath, "default");
  }

  /** Looking up one more key continues from the value reached so far. */
  lemma {:induction false} LookupAppend(j: Json, keys: seq<string>, key: string)
    ensures Lookup(j, keys + [key]) == match Lookup(j, keys) case None => None case Some(v) => Member(v, key)
    decreases |keys|
  {
    if keys == [] {
      assert [] + [key] == [key];
    } else {
      assert (keys + [key])[0] == keys[0];
      assert (keys + [key])[1..] == keys[1..] + [key];
      match Member(j, keys[0])
      case None =>
      case Some(v) => LookupAppend(v, keys[1..], key);
    }
  }

  /** A tag is accepted by `execute` exactly when the schema lists it, and the default the
      schema advertises is the default of `execute`, one of the listed tags. */
  lemma AdvertisedTagsAccepted(tag: string)
    ensures Lookup(ToParam(), AgentTypePath + ["enum"]).Some? && Lookup(ToParam(), AgentTypePath + ["enum"]).value.JArray?
    ensures (tag == OrgTag || tag == PersonTag) <==>
      JString(tag) in Lookup(ToParam(), AgentTypePath + ["enum"]).value.items
    ensures Lookup(ToParam(), AgentTypePath + ["default"]) == Some(JString(DefaultAgentType))
    ensures JString(DefaultAgentType) in Lookup(ToParam(), AgentTypePath + ["enum"]).value.items
  {
    ParamSchema();
  }

  /** `execute(query)` without a tag (line 24): the organisation agent answers the query. */
  method ExecuteWithoutTag(t: Tool, query: string) returns (r: Outcome)
    requires t.Valid()
    modifies t, Parts(t.orgAgent), Parts(t.personAgent)
    ensures t.Valid() && t.orgAgent != null
    ensures t.personAgent == old(t.personAgent) && unchanged(Parts(t.personAgent))
    ensures Then(r, t.orgAgent.State()) == ProcessSpec(t.OrgEnv(), old(StateOrInitial(t.orgAgent)), query)
  {
    r := t.Execute(query);
  }
}
