# Chat with your data — a Dafny model of the turn pipeline

The original program is a small Streamlit page. A user uploads a spreadsheet and asks questions about it.
Each question is handled in one turn by `data_chat` (llm.py):

1. the uploaded records are turned into a table;
2. a generative model writes a DuckDB query for the question;
3. a second model call classifies the question as read-only or not;
4. if not read-only, a third model call writes a refusal;
5. if read-only, the query is run and a third model call answers from the serialised result rows.

The page (app.py) keeps the conversation as a list of `("User", text)` / `("Bot", text)` pairs.
It passes that list to every turn as a newline-joined history string.
It appends the question and the answer only when the turn returns.

This project models that core in Dafny:

- `oracle.dfy`, module `Oracle`, models the collaborators. The table builder, the model's free-text and boolean calls, the query engine and `json.dumps` are uninterpreted functions bundled in `Services`. Each returns a value or `Raises` an exception. That includes `json.dumps`, which raises on a cell it cannot serialise, such as a `datetime` or a `Decimal`. Every call a turn makes is logged as a ghost `Call` that records the request and the answer.
- `fences.dfy`, module `Fences`, models the code-fence normalisation `reply.replace("```sql", "").replace("```", "")` (llm.py:91). `RemoveAll` is a scan, and it is proved equal to Python's find-based definition of `str.replace`.
- `llm.dfy`, module `Llm`, holds the methods `GenerateSql`, `ValidateUserInput` and `DataChat`. It also holds two predicates over a turn's log:
  - `Protocol` states the order of the calls, how the verdict picks the branch, and how the turn ends.
  - `Wired` states what each call is given and answers.
  
  The lemmas read the properties the code promises off these two predicates.
- `history.dfy`, module `History`, holds the conversation entries, the history string (`"\n".join(f"{author}: {message}")`) and its round trip through `split("\n")`. It also holds the alternation invariant of the conversation.
- `app.dfy`, module `App`, holds the session as a class with the fields `messages` and `dataList`, updated in place by `HandleInput`, `ClearConversation` and `LoadRecords`.

Two points of the code's order and errors:

- The code synthesises the query (llm.py:30-34) before it validates the question (llm.py:47). So a refused turn has already made two model calls, and only execution is guarded by the verdict.
- The empty-dataset error is `ValueError("source_data must be provided.")` (llm.py:25-26).

## Model

| member | source | states |
|---|---|---|
| Fences.StripFences | llm.py:91 | the stripped query is no longer than the reply and contains no "```" anywhere |
| Fences.RemoveAll | llm.py:91 | `s.replace(pat, "")` is never longer than `s`, and leaves `s` unchanged when `pat` does not occur in it |
| Fences.RemoveAllIsReplace | llm.py:91 | the scan used for removal equals `str.replace(pat, "")` defined by repeated leftmost `find` and resuming after each match |
| Fences.FindIsLeftmost | llm.py:91 | `Find` returns an occurrence, no earlier index from `k` on holds one, and it returns -1 exactly when there is none |
| Fences.RemoveFenceLeavesNone | llm.py:91 | removing every "```" never joins backticks into a new "```" |
| Fences.StripFencesIdempotent | llm.py:91 | stripping an already stripped query changes nothing |
| Fences.StripFencesNoBacktick | llm.py:91 | a reply with no backtick at all is returned unchanged |
| Fences.StripFencesWrapped | llm.py:91 | the reply shape the query prompt asks for, "```sql" + query + "```", yields exactly the query when the query has no backtick |
| Llm.GenerateSql | llm.py:69-91 | one free-text call with the query prompt (schema, table name "data_table", history) and the 8192-token settings; its exception propagates, otherwise the result is the fence-stripped reply and holds no "```" |
| Llm.ValidateUserInput | llm.py:94-112 | one boolean call on the question alone with the 10-token settings; the verdict, or its exception, is the oracle's |
| Llm.FetchData | llm.py:59 | the query runs on the built table; an engine exception propagates, otherwise the result is `json.dumps` of the returned rows, including its exception; the log records both answers |
| Llm.DataChat | llm.py:17-66 | empty data raises the `ValueError` and makes no call at all; otherwise the log follows `Protocol` (call order, verdict picks the branch, stops at the first exception and re-raises it, else returns the last reply) and `Wired` (each call's arguments and answers) |
| Llm.SynthesizedOnceBeforeValidation | llm.py:28-47 | once the table is built, the query is synthesised exactly once, as the second call, and the validation call comes after it |
| Llm.RefusalNeverExecutes | llm.py:47-57 | a False verdict gives exactly the refusal path, with no execution; the returned result is the refusal call's reply for the prompt of question and history |
| Llm.AcceptedExecutesOnce | llm.py:47-59 | a True verdict means the query is executed exactly once and no refusal call is made |
| Llm.AnswerIsGrounded | llm.py:59-66 | on a True verdict the executed query is the stripped reply, run on the built table; an engine exception is the turn's, and nothing follows; returned rows are given to `json.dumps`; only when that succeeds does the answer call follow, with that JSON text as its data, and its reply is the result |
| Llm.ExecutionFailurePropagates | llm.py:59-64 | when the query's execution or the `json.dumps` of its rows raises, that call is the last, no answer call follows, and the turn raises that same exception |
| Llm.CompletedTurnMakesThreeOracleCalls | llm.py:30-66 | a turn that returns made one synthesis, one validation and exactly one refusal or answer call, and executed only when not refused |
| Llm.OutputBudgets | llm.py:37-41 | every free-text model call of a turn uses 8192 output tokens and the classification uses 10 (llm.py:82-86, llm.py:98-102) |
| Llm.ExecutedQueryHasNoFence | llm.py:59 | the engine is only ever given a query with no "```" in it |
| Llm.WiredIsConsistent | llm.py:17-66 | every logged answer is the collaborator's own answer to the logged request |
| History.Line | app.py:24 | a history line is the author, then ": ", then the message |
| History.Serialise | app.py:23-26 | the history string, one "author: message" line per entry joined with "\n", is empty exactly when the conversation is, and otherwise begins with the first entry's line |
| History.SerialiseAppend | app.py:23-26 | appending a message to a non-empty conversation adds "\n" and its line to the history string |
| History.SerialiseAppendOnly | app.py:23-26 | the old history string is a prefix of the history string after any appends |
| History.SerialiseTurn | app.py:23-29 | after a whole turn the history is the old history, a newline if it was non-empty, then the "User: …" and "Bot: …" lines |
| History.SplitJoin | app.py:23 | joining newline-free lines with "\n" and splitting again gives back the lines |
| History.SerialiseRoundTrip | app.py:23-26 | when no author or message holds a newline, the history string splits back into exactly one line per message, in order |
| History.AlternatesExtend | app.py:28-29 | appending a pair keeps the conversation alternating exactly when the pair is a User entry followed by a Bot entry |
| History.Role | app.py:63-69 | a message is shown as "user" exactly when its author is "User", and as "ai" otherwise |
| App.Alert | app.py:30-31 | the error banner is "An error occurred: " followed by the exception's message |
| App.Session.constructor | app.py:7-11 | a new session has no messages and no records, and its conversation alternates |
| App.Session.LoadRecords | app.py:53 | an upload replaces the records and keeps the conversation |
| App.Session.HandleInput | app.py:15-31 | an empty input calls nothing and changes nothing; with no records loaded a question makes no call, shows "An error occurred: source_data must be provided." and keeps the messages; otherwise one turn runs on the session's records with the history of the messages before this turn; a returned reply appends exactly ("User", input) and then ("Bot", reply); an exception leaves the messages as they were and yields the alert; the records never change, and alternation is preserved |
| App.Session.ClearConversation | app.py:35-36 | the conversation becomes empty, so the next history string is ""; the records stay and alternation holds |

## Left out

- The Streamlit page itself is not modelled: the title, the file uploader, reading xlsx/csv with pandas, `df.to_dict(orient="records")`, and the record count and table display (app.py:39-59, app.py:71-77). An upload is modelled only as `LoadRecords` with the records it produces. A file with neither extension, which leaves `df` unbound, is not modelled.
- Showing the messages (app.py:61-69) is modelled only as the role each message is shown under, `History.Role`.
- Inside the collaborators, Vertex AI `generate_content` with `.text`, the modelsmith `Forge`, `pa.Table.from_pylist`, `schema.to_string()`, DuckDB and `json.dumps` are foreign code. They are uninterpreted functions of `Services`. The schema is an opaque string.
- `fetch_arrow_table().to_pylist()` is folded into the engine's answer, which is the list of result rows. Cell values other than null, booleans, integers, floats and strings are kept only as a type name (`Scalar.Opaque`). Whether `json.dumps` raises on them is left to the uninterpreted `jsonDumps`.
- A record is a `map` from column name to cell, so the key order of a Python dict is not represented. `pa.Table.from_pylist` takes the schema's column order from it, and `json.dumps` takes the key order of `data` from it. Both collaborators are uninterpreted, so no property here depends on that order.
- `Scalar.Real` holds finite floats only. The NaN that pandas reads from an empty spreadsheet cell, and ±inf, have no real value in the model; they are represented only as `Opaque`, by type name.
- DuckDB resolves the table by the Python variable name `data_table`. The model passes the built table to the engine explicitly.
- The collaborators are modelled as functions, so two identical requests get the same answer. The real model is not deterministic, but a turn never repeats a request, so no property here depends on this.
- The prompt templates (prompts.py) and their Jinja rendering are not modelled. That includes the `chat_history is not none` conditionals. A `Prompt` value records only the variables a template is rendered with.
- The constructor `GenerativeModel("gemini-1.5-flash")` and the model name are not modelled. A failure in the constructor is not a separate case.
- `temperature` 0.2 and `top_p` 0.95 are carried as exact real constants and never computed with.
- Exceptions are reduced to two classes: the `ValueError` the code raises, and `ServiceError` for anything a collaborator raises. `str(e)` is modelled as the exception's message.
- `user_input` is modelled as a string. The widget's `None`, which Python also treats as false, is not modelled.
- App.Session.HandleInput: the two `append` calls happen in one assignment. Nothing between them is observable.
- Streamlit's rerun model, sessions and concurrency are not modelled.
