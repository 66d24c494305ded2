/** The two foreign collaborators of the agent, as oracles whose behaviour is a parameter:
    the language model behind `self.llm.ask`, and the Snowflake connector behind
    `snowflake.connector.connect`, `cursor.execute`, `fetchall`, `description` and `close`.
    Each records the calls it receives, so that the agent's contracts can say what was sent. */
module Oracles {
  import opened Text

  /** What one `llm.ask` call gives back: a response text, or the text of the exception it raised. */
  datatype Reply = Answer(text: string) | Fault(message: string)

  class LanguageModel {
    /** The model's behaviour: the reply to request number `n` (from 0), with prompt `p`. */
    const reply: (nat, string) -> Reply
    /** The prompts received so far, in order. */
    var prompts: seq<string>

    constructor (reply: (nat, string) -> Reply)
      ensures this.reply == reply && prompts == []
    {
      this.reply := reply;
      prompts := [];
    }

    /** `ask([{"role": "user", "content": prompt}])`. */
    method Ask(prompt: string) returns (r: Reply)
      modifies this
      ensures r == reply(|old(prompts)|, prompt)
      ensures prompts == old(prompts) + [prompt]
    {
      r := reply(|prompts|, prompt);
      prompts := prompts + [prompt];
    }
  }

  /** The keyword arguments of `snowflake.connector.connect`. */
  type ConnectionParams = map<string, string>

  /** An open connection: the number of the connect call that opened it, and its parameters. */
  datatype Handle = Handle(session: nat, params: ConnectionParams)

  /** One entry of `cursor.description`; the column name is its first item. */
  datatype ColumnMeta = ColumnMeta(name: string, typeCode: int)

  /** A value in a fetched row, known by its Python repr. */
  datatype Cell = Cell(repr: string)

  type Row = seq<Cell>

  /** The outcome of one statement on a cursor: its description (None when the statement
      produced none) and all fetched rows, or the text of the driver's exception. */
  datatype Execution =
    | Rows(description: Option<seq<ColumnMeta>>, rows: seq<Row>)
    | DriverError(message: string)

  class Warehouse {
    /** Whether connect call number `n` with parameters `p` raises, and with what text. */
    const refuse: (nat, ConnectionParams) -> Option<string>
    /** The outcome of statement number `n` overall, run as `sql` on connection `session`. */
    const answer: (nat, nat, string) -> Execution
    /** The parameters of every connect call, in order. */
    var connects: seq<ConnectionParams>
    /** Every statement passed to `cursor.execute`, in order. */
    var statements: seq<string>
    /** The sessions closed, in order. */
    var closed: seq<nat>

    constructor (refuse: (nat, ConnectionParams) -> Option<string>, answer: (nat, nat, string) -> Execution)
      ensures this.refuse == refuse && this.answer == answer
      ensures connects == [] && statements == [] && closed == []
    {
      this.refuse := refuse;
      this.answer := answer;
      connects, statements, closed := [], [], [];
    }

    /** `snowflake.connector.connect(**p)`. */
    method Connect(p: ConnectionParams) returns (r: Result<Handle, string>)
      modifies this
      ensures connects == old(connects) + [p]
      ensures statements == old(statements) && closed == old(closed)
      ensures r == match refuse(|old(connects)|, p)
                   case Some(m) => Failure(m)
                   case None => Success(Handle(|old(connects)|, p))
    {
      var n := |connects|;
      connects := connects + [p];
      match refuse(n, p)
      case Some(m) => r := Failure(m);
      case None => r := Success(Handle(n, p));
    }

    /** `cursor = conn.cursor(); cursor.execute(sql); cursor.fetchall(); cursor.description; cursor.close()`. */
    method Execute(h: Handle, sql: string) returns (e: Execution)
      modifies this
      ensures e == answer(h.session, |old(statements)|, sql)
      ensures statements == old(statements) + [sql]
      ensures connects == old(connects) && closed == old(closed)
    {
      e := answer(h.session, |statements|, sql);
      statements := statements + [sql];
    }

    /** `conn.close()`. */
    method Close(h: Handle)
      modifies this
      ensures closed == old(closed) + [h.session]
      ensures connects == old(connects) && statements == old(statements)
    {
      closed := closed + [h.session];
    }
  }
}
