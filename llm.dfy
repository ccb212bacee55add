/** One chat turn (llm.py:17-112): build the table, synthesise a query, classify
    the question, then either ask for a refusal or run the query and ask for an
    answer grounded in its rows.  Every collaborator call is logged in a ghost
    trace; `Protocol` and `Wired` state what a turn's trace looks like, and the
    lemmas below read the source's promises off them. */
module Llm {
  import opened Oracle
  import opened Fences

  /** The message of the `ValueError` raised for an empty dataset (llm.py:26). */
  const EMPTY_DATA_MESSAGE := "source_data must be provided."

  /** The calls of a turn that ends in a refusal. */
  const REFUSAL_PATH: seq<Kind> := [Materialize, Synthesize, Validate, Refuse]

  /** The calls of a turn that ends in a grounded answer. */
  const ANSWER_PATH: seq<Kind> := [Materialize, Synthesize, Validate, Execute, Answer]

  function Last(t: seq<Call>): Call
    requires t != []
  {
    t[|t| - 1]
  }

  /** Whether the validation call (the third) answered False. */
  predicate Refused(t: seq<Call>) {
    |t| > 2 && t[2].Classify? && t[2].verdict == Ok(false)
  }

  /** The path a turn follows: the verdict picks it. */
  function PathOf(t: seq<Call>): seq<Kind> {
    if Refused(t) then REFUSAL_PATH else ANSWER_PATH
  }

  /** The kind the path puts at position `i`, and how long it is. */
  function PathKind(t: seq<Call>, i: nat): (k: Kind)
    requires i < PathLength(t)
    ensures k == PathOf(t)[i]
  {
    if i == 0 then Materialize
    else if i == 1 then Synthesize
    else if i == 2 then Validate
    else if i == 3 then (if Refused(t) then Refuse else Execute)
    else Answer
  }

  function PathLength(t: seq<Call>): (n: nat)
    ensures n == |PathOf(t)|
  {
    if Refused(t) then 4 else 5
  }

  /** The order of a turn's calls and how it ends: the calls follow the path
      the verdict picks, the turn stops at the first call that raises (and
      raises that exception) or when its path is complete (and returns the
      last reply); with no call at all it raises the empty-data `ValueError`. */
  ghost predicate Protocol(t: seq<Call>, r: Result<string>) {
    && |t| <= PathLength(t)
    && (|t| > 0 ==> KindOf(t[0]) == PathKind(t, 0))
    && (|t| > 1 ==> KindOf(t[1]) == PathKind(t, 1) && Raised(t[0]) == None)
    && (|t| > 2 ==> KindOf(t[2]) == PathKind(t, 2) && Raised(t[1]) == None)
    && (|t| > 3 ==> KindOf(t[3]) == PathKind(t, 3) && Raised(t[2]) == None)
    && (|t| > 4 ==> KindOf(t[4]) == PathKind(t, 4) && Raised(t[3]) == None)
    && (t == [] ==> r == Raises(ValueError(EMPTY_DATA_MESSAGE)))
    && (t != [] && Raised(Last(t)).Some? ==> r == Raises(Raised(Last(t)).value))
    && (t != [] && Raised(Last(t)).None? ==> |t| == PathLength(t) && Last(t).Generate? && r == Last(t).reply)
  }

  /** What each call of a turn is given and answers: the dataset, the question
      and the history; the schema of the built table; the fence-stripped query
      and the built table; the serialised result rows; its generation settings;
      and what `svc` answers to that request. */
  ghost predicate Wired(svc: Services, t: seq<Call>, userInput: string, sourceData: seq<Record>,
                        chatHistory: Option<string>)
  {
    && (|t| > 0 ==> t[0].BuildTable? && t[0].records == sourceData && Answers(svc, t[0]))
    && (|t| > 1 ==>
          && t[0].BuildTable? && t[0].table.Ok? && t[1].Generate?
          && t[1].prompt == SqlPrompt(userInput, t[0].table.value.schema, TABLE_NAME, chatHistory)
          && t[1].settings == CHAT_SETTINGS && Answers(svc, t[1]))
    && (|t| > 2 ==>
          t[2].Classify? && t[2].userInput == userInput && t[2].settings == VALIDATE_SETTINGS && Answers(svc, t[2]))
    && (|t| > 3 && t[3].Generate? ==>
          t[3].prompt == InvalidQueryPrompt(userInput, chatHistory) && t[3].settings == CHAT_SETTINGS)
    && (|t| > 3 && t[3].RunQuery? ==>
          && t[0].BuildTable? && t[0].table.Ok? && t[1].Generate? && t[1].reply.Ok?
          && t[3].query == StripFences(t[1].reply.value) && t[3].source == t[0].table.value)
    && (|t| > 3 ==> Answers(svc, t[3]))
    && (|t| > 4 ==>
          && t[3].RunQuery? && t[3].data.Ok? && t[4].Generate?
          && t[4].prompt == DataChatPrompt(userInput, t[3].data.value, chatHistory)
          && t[4].settings == CHAT_SETTINGS && Answers(svc, t[4]))
  }

  /** `generate_sql`: one free-text call with the query prompt, its reply
      stripped of code fences. */
  method GenerateSql(svc: Services, userInput: string, tableSchema: string, chatHistory: Option<string>)
    returns (sql: Result<string>, ghost call: Call)
    ensures call.Generate? && Answers(svc, call)
    ensures call.prompt == SqlPrompt(userInput, tableSchema, TABLE_NAME, chatHistory)
    ensures call.settings == CHAT_SETTINGS
    ensures call.reply.Raises? ==> sql == call.reply
    ensures call.reply.Ok? ==> sql == Ok(StripFences(call.reply.value))
    ensures sql.Ok? ==> !Contains(sql.value, FENCE)
  {
    var prompt := SqlPrompt(userInput, tableSchema, TABLE_NAME, chatHistory);
    var response := svc.generateContent(prompt, CHAT_SETTINGS);
    call := Generate(prompt, CHAT_SETTINGS, response);
    if response.Raises? {
      return response, call;
    }
    sql := Ok(StripFences(response.value));
  }

  /** `validate_user_input`: one boolean classification of the question alone,
      with the 10-token budget; a failure to classify raises. */
  method ValidateUserInput(svc: Services, userInput: string) returns (valid: Result<bool>, ghost call: Call)
    ensures valid == svc.forgeBool(userInput, VALIDATE_SETTINGS)
    ensures call == Classify(userInput, VALIDATE_SETTINGS, valid)
  {
    valid := svc.forgeBool(userInput, VALIDATE_SETTINGS);
    call := Classify(userInput, VALIDATE_SETTINGS, valid);
  }

  /** `json.dumps(duckdb.sql(query).fetch_arrow_table().to_pylist())`: run the
      query on the table, then serialise the rows it returns; whichever step
      raises first makes the whole expression raise. */
  method FetchData(svc: Services, query: string, table: Table) returns (data: Result<string>, ghost call: Call)
    ensures svc.duckdbSql(query, table).Raises? ==> data == Raises(svc.duckdbSql(query, table).error)
    ensures svc.duckdbSql(query, table).Ok? ==> data == svc.jsonDumps(svc.duckdbSql(query, table).value)
    ensures call == RunQuery(query, table, svc.duckdbSql(query, table), data)
  {
    var rows := svc.duckdbSql(query, table);
    if rows.Raises? {
      data := Raises(rows.error);
    } else {
      data := svc.jsonDumps(rows.value);
    }
    call := RunQuery(query, table, rows, data);
  }

  /** `data_chat`: answer one question about `sourceData`. */
  method DataChat(svc: Services, userInput: string, sourceData: seq<Record>, chatHistory: Option<string>)
    returns (r: Result<string>, ghost trace: seq<Call>)
    ensures sourceData == [] <==> trace == []
    ensures sourceData == [] ==> r == Raises(ValueError(EMPTY_DATA_MESSAGE))
    ensures Protocol(trace, r)
    ensures Wired(svc, trace, userInput, sourceData, chatHistory)
  {
    if sourceData == [] {
      return Raises(ValueError(EMPTY_DATA_MESSAGE)), [];
    }
    var dataTable := svc.fromPylist(sourceData);
    ghost var built := BuildTable(sourceData, dataTable);
    if dataTable.Raises? {
      trace := [built];
      return Raises(dataTable.error), trace;
    }

    var sqlQuery, generated := GenerateSql(svc, userInput, dataTable.value.schema, chatHistory);
    if sqlQuery.Raises? {
      trace := [built, generated];
      return sqlQuery, trace;
    }

    var isValidQuery, validated := ValidateUserInput(svc, userInput);
    if isValidQuery.Raises? {
      trace := [built, generated, validated];
      return Raises(isValidQuery.error), trace;
    }

    if !isValidQuery.value {
      var invalidQueryPrompt := InvalidQueryPrompt(userInput, chatHistory);
      var invalidQueryResponse := svc.generateContent(invalidQueryPrompt, CHAT_SETTINGS);
      trace := [built, generated, validated, Generate(invalidQueryPrompt, CHAT_SETTINGS, invalidQueryResponse)];
      return invalidQueryResponse, trace;
    }

    var data, executed := FetchData(svc, sqlQuery.value, dataTable.value);
    if data.Raises? {
      trace := [built, generated, validated, executed];
      return Raises(data.error), trace;
    }
    var prompt := DataChatPrompt(userInput, data.value, chatHistory);
    var response := svc.generateContent(prompt, CHAT_SETTINGS);
    trace := [built, generated, validated, executed, Generate(prompt, CHAT_SETTINGS, response)];
    r := response;
  }

  // ---------------------------------------------------------------------------
  // What a turn's trace promises.

  /** Counting the calls of a log whose kinds are known position by position. */
  lemma CountsOf(t: seq<Call>, ks: seq<Kind>)
    requires |t| == |ks| && forall i :: 0 <= i < |t| ==> KindOf(t[i]) == ks[i]
    ensures Kinds(t) == ks
    ensures forall k :: Count(t, k) == Occurrences(ks, k)
  {
  }

  /** Once the table is built, the query is synthesised exactly once, as the
      second call, and before the one validation call. */
  lemma SynthesizedOnceBeforeValidation(t: seq<Call>, r: Result<string>)
    requires Protocol(t, r) && t != [] && Raised(t[0]) == None
    ensures |t| >= 2 && KindOf(t[0]) == Materialize && KindOf(t[1]) == Synthesize
    ensures Count(t, Synthesize) == 1
    ensures forall j :: 0 <= j < |t| && KindOf(t[j]) == Validate ==> j == 2
  {
    if |t| == 2 {
      CountsOf(t, [Materialize, Synthesize]);
    } else if |t| == 3 {
      CountsOf(t, [Materialize, Synthesize, Validate]);
    } else if |t| == 4 && Refused(t) {
      CountsOf(t, REFUSAL_PATH);
    } else if |t| == 4 {
      CountsOf(t, [Materialize, Synthesize, Validate, Execute]);
    } else {
      CountsOf(t, ANSWER_PATH);
    }
  }

  /** When validation says False, the query is never run and the turn returns
      exactly the refusal call's reply (or its exception). */
  lemma RefusalNeverExecutes(svc: Services, t: seq<Call>, r: Result<string>, userInput: string,
                             sourceData: seq<Record>, chatHistory: Option<string>, i: nat)
    requires Protocol(t, r) && Wired(svc, t, userInput, sourceData, chatHistory)
    requires i < |t| && t[i].Classify? && t[i].verdict == Ok(false)
    ensures Kinds(t) == REFUSAL_PATH && Count(t, Execute) == 0
    ensures t[3] == Generate(InvalidQueryPrompt(userInput, chatHistory), CHAT_SETTINGS, r)
  {
  }

  /** When validation says True, the query is run exactly once and no refusal
      is asked for. */
  lemma AcceptedExecutesOnce(t: seq<Call>, r: Result<string>, i: nat)
    requires Protocol(t, r)
    requires i < |t| && t[i].Classify? && t[i].verdict == Ok(true)
    ensures |t| >= 4 && Count(t, Execute) == 1 && Count(t, Refuse) == 0
  {
    assert i == 2 && !Refused(t);
    if |t| == 4 {
      CountsOf(t, [Materialize, Synthesize, Validate, Execute]);
    } else {
      CountsOf(t, ANSWER_PATH);
    }
  }

  /** When validation says True, the stripped query is run on the built table;
      an engine failure is the turn's exception; returned rows go through
      `json.dumps`, and when that succeeds the answer call gets their JSON text
      and the turn returns that call's reply (or its exception). */
  lemma AnswerIsGrounded(svc: Services, t: seq<Call>, r: Result<string>, userInput: string,
                         sourceData: seq<Record>, chatHistory: Option<string>, i: nat)
    requires Protocol(t, r) && Wired(svc, t, userInput, sourceData, chatHistory)
    requires i < |t| && t[i].Classify? && t[i].verdict == Ok(true)
    ensures |t| >= 4 && t[3].RunQuery?
    ensures t[3].query == StripFences(t[1].reply.value) && t[3].source == t[0].table.value
    ensures t[3].rows.Raises? ==> |t| == 4 && r == Raises(t[3].rows.error)
    ensures t[3].rows.Ok? ==> t[3].data == svc.jsonDumps(t[3].rows.value)
    ensures t[3].data.Ok? ==>
      && t[3].rows.Ok? && |t| == 5
      && Last(t) == Generate(DataChatPrompt(userInput, t[3].data.value, chatHistory), CHAT_SETTINGS, r)
  {
  }

  /** A failed query execution, or a failed `json.dumps` of its rows, ends the
      turn with that exception, before any answer call. */
  lemma ExecutionFailurePropagates(t: seq<Call>, r: Result<string>, i: nat)
    requires Protocol(t, r)
    requires i < |t| && t[i].RunQuery? && t[i].data.Raises?
    ensures i == |t| - 1 == 3
    ensures Count(t, Answer) == 0
    ensures r == Raises(t[i].data.error)
  {
    assert i == 3;
    assert |t| == 4 by {
      assert Raised(t[3]).Some?;
    }
    CountsOf(t, [Materialize, Synthesize, Validate, Execute]);
  }

  /** A turn that returns makes exactly three model calls: one synthesis, one
      validation, and then one refusal or one answer. */
  lemma CompletedTurnMakesThreeOracleCalls(t: seq<Call>, r: Result<string>)
    requires Protocol(t, r) && r.Ok?
    ensures Count(t, Synthesize) == 1 && Count(t, Validate) == 1
    ensures Count(t, Refuse) + Count(t, Answer) == 1
    ensures Count(t, Execute) == (if Refused(t) then 0 else 1)
  {
    assert t != [] && |t| == |PathOf(t)|;
    CountsOf(t, PathOf(t));
  }

  /** Every call of a turn got the collaborators' own answer. */
  lemma WiredIsConsistent(svc: Services, t: seq<Call>, r: Result<string>, userInput: string,
                          sourceData: seq<Record>, chatHistory: Option<string>)
    requires Protocol(t, r) && Wired(svc, t, userInput, sourceData, chatHistory)
    ensures Consistent(svc, t)
  {
  }

  /** Only the validation call uses the 10-token output budget; every other
      model call uses 8192. */
  lemma OutputBudgets(svc: Services, t: seq<Call>, r: Result<string>, userInput: string,
                      sourceData: seq<Record>, chatHistory: Option<string>, i: nat)
    requires Protocol(t, r) && Wired(svc, t, userInput, sourceData, chatHistory)
    requires i < |t| && IsOracle(t[i])
    ensures t[i].Classify? ==> t[i].settings.maxOutputTokens == 10
    ensures t[i].Generate? ==> t[i].settings.maxOutputTokens == 8192
  {
  }

  /** The engine only ever runs a query with no code fence left in it. */
  lemma ExecutedQueryHasNoFence(svc: Services, t: seq<Call>, r: Result<string>, userInput: string,
                                sourceData: seq<Record>, chatHistory: Option<string>, i: nat)
    requires Protocol(t, r) && Wired(svc, t, userInput, sourceData, chatHistory)
    requires i < |t| && t[i].RunQuery?
    ensures !Contains(t[i].query, FENCE)
  {
  }
}
