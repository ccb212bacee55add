/** The collaborators a chat turn calls but does not own: the pyarrow table
    builder, the generative model (free text through `generate_content`, a
    boolean through a modelsmith `Forge`), the DuckDB engine and `json.dumps`.
    Each is an uninterpreted function that returns a value or raises;
    `json.dumps` too may raise, on a cell it cannot serialise.  A turn
    logs every call it makes, with what the collaborator answered. */
module Oracle {

  datatype Option<T> = None | Some(value: T)

  /** A Python exception as the turn sees it: its class and its message. */
  datatype Exception = ValueError(message: string) | ServiceError(message: string)

  /** A value, or the exception raised instead of returning it. */
  datatype Result<T> = Ok(value: T) | Raises(error: Exception)

  /** A cell of a record: the kinds `json.dumps` can write, or any other value
      known only by its type name (a pandas `Timestamp` in an uploaded record,
      a `datetime` or `Decimal` in a row `to_pylist` returns), on which
      `json.dumps` may raise `TypeError`.  `Real` holds finite floats only: a
      NaN (what pandas reads from an empty spreadsheet cell) or an infinity is
      kept as `Opaque`. */
  datatype Scalar =
    | Null | Bool(b: bool) | Int(i: int) | Real(x: real) | Text(s: string)
    | Opaque(typeName: string)

  /** One record: column name to value.  A map has no key order, so the
      column order of a Python dict is not represented. */
  type Record = map<string, Scalar>

  /** A materialised table; the turn reads only its rendered schema. */
  datatype Table = Table(schema: string, rows: seq<Record>)

  /** The generation settings passed with every model call (llm.py:37-41,
      llm.py:82-86, llm.py:98-102); the two floats are carried as exact
      constants and never computed with. */
  datatype Settings = Settings(temperature: real, maxOutputTokens: nat, topP: real)

  /** Settings of the free-text calls: 8192 output tokens. */
  const CHAT_SETTINGS := Settings(0.2, 8192, 0.95)

  /** Settings of the boolean classification: 10 output tokens. */
  const VALIDATE_SETTINGS := Settings(0.2, 10, 0.95)

  /** The table name the query prompt announces (llm.py:78). */
  const TABLE_NAME := "data_table"

  /** The variables each free-text prompt template is rendered with. */
  datatype Prompt =
    | SqlPrompt(userInput: string, tableSchema: string, tableName: string, chatHistory: Option<string>)
    | InvalidQueryPrompt(userInput: string, chatHistory: Option<string>)
    | DataChatPrompt(userInput: string, data: string, chatHistory: Option<string>)

  /** The collaborators, as uninterpreted functions. */
  datatype Services = Services(
    fromPylist: seq<Record> -> Result<Table>,
    generateContent: (Prompt, Settings) -> Result<string>,
    forgeBool: (string, Settings) -> Result<bool>,
    duckdbSql: (string, Table) -> Result<seq<Record>>,
    jsonDumps: seq<Record> -> Result<string>)

  /** One logged call: the request and the collaborator's answer.  A
      `RunQuery` logs the expression at llm.py:59 as a whole: the rows the
      engine returns and then their JSON text, `data`, which carries the
      exception of whichever of the two raised. */
  datatype Call =
    | BuildTable(records: seq<Record>, table: Result<Table>)
    | Generate(prompt: Prompt, settings: Settings, reply: Result<string>)
    | Classify(userInput: string, settings: Settings, verdict: Result<bool>)
    | RunQuery(query: string, source: Table, rows: Result<seq<Record>>, data: Result<string>)

  /** What a call is for in a turn. */
  datatype Kind = Materialize | Synthesize | Validate | Refuse | Execute | Answer

  function KindOf(c: Call): Kind {
    match c
    case BuildTable(_, _) => Materialize
    case Classify(_, _, _) => Validate
    case RunQuery(_, _, _, _) => Execute
    case Generate(p, _, _) =>
      match p
      case SqlPrompt(_, _, _, _) => Synthesize
      case InvalidQueryPrompt(_, _) => Refuse
      case DataChatPrompt(_, _, _) => Answer
  }

  /** The kinds of the calls of a log, in order. */
  function Kinds(t: seq<Call>): (ks: seq<Kind>)
    ensures |ks| == |t| && forall i :: 0 <= i < |t| ==> ks[i] == KindOf(t[i])
  {
    seq(|t|, i requires 0 <= i < |t| => KindOf(t[i]))
  }

  /** How many calls of kind `k` a log holds. */
  function Count(t: seq<Call>, k: Kind): nat {
    Occurrences(Kinds(t), k)
  }

  function Occurrences(ks: seq<Kind>, k: Kind): nat {
    if ks == [] then 0 else (if ks[0] == k then 1 else 0) + Occurrences(ks[1..], k)
  }

  /** A call to the generative model (free text or boolean). */
  predicate IsOracle(c: Call) {
    c.Generate? || c.Classify?
  }

  /** The exception a call raised, if it raised one. */
  function Raised(c: Call): Option<Exception> {
    match c
    case BuildTable(_, r) => if r.Raises? then Some(r.error) else None
    case Generate(_, _, r) => if r.Raises? then Some(r.error) else None
    case Classify(_, _, r) => if r.Raises? then Some(r.error) else None
    case RunQuery(_, _, _, d) => if d.Raises? then Some(d.error) else None
  }

  /** The logged answer is what the collaborator gives for the logged request. */
  predicate Answers(svc: Services, c: Call) {
    match c
    case BuildTable(records, table) => table == svc.fromPylist(records)
    case Generate(prompt, settings, reply) => reply == svc.generateContent(prompt, settings)
    case Classify(userInput, settings, verdict) => verdict == svc.forgeBool(userInput, settings)
    case RunQuery(query, source, rows, data) =>
      && rows == svc.duckdbSql(query, source)
      && data == (if rows.Ok? then svc.jsonDumps(rows.value) else Raises(rows.error))
  }

  /** Every call of the log was answered by `svc`. */
  predicate Consistent(svc: Services, t: seq<Call>) {
    forall i :: 0 <= i < |t| ==> Answers(svc, t[i])
  }
}
