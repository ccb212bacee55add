/** The per-browser session of the chat page (app.py:7-36): the conversation
    and the uploaded records, the handler that runs one turn on submit, and
    the button that clears the conversation. */
module App {
  import opened Oracle
  import opened History
  import opened Llm

  /** The text of the error banner shown when a turn raises (app.py:31). */
  function Alert(e: Exception): (text: string)
    ensures |text| == |"An error occurred: "| + |e.message|
    ensures text[..19] == "An error occurred: " && text[19..] == e.message
  {
    "An error occurred: " + e.message
  }

  class Session {
    /** `st.session_state.messages` */
    var messages: seq<Message>
    /** `st.session_state.data_list` */
    var dataList: seq<Record>

    /** The conversation is made of whole turns. */
    ghost predicate Valid()
      reads this
    {
      Alternates(messages)
    }

    /** A fresh session: no messages, no records (app.py:7-11). */
    constructor()
      ensures messages == [] && dataList == []
      ensures Valid()
    {
      messages := [];
      dataList := [];
    }

    /** An uploaded file's records replace the session's (app.py:53); the
        conversation is kept. */
    method LoadRecords(records: seq<Record>)
      modifies this
      ensures dataList == records && messages == old(messages)
    {
      dataList := records;
    }

    /** `handle_input`: on a non-empty submission, run one turn over the
        session's records with the serialised conversation as history; a turn
        that returns appends the question and the answer, a turn that raises
        leaves the conversation as it was and shows the error. */
    method HandleInput(svc: Services, userInput: string)
      returns (alert: Option<string>, ghost reply: Option<Result<string>>, ghost trace: seq<Call>)
      requires Valid()
      modifies this
      ensures Valid()
      ensures dataList == old(dataList)
      ensures userInput == "" ==> reply == None && trace == [] && alert == None && messages == old(messages)
      ensures userInput != "" ==>
        && reply.Some?
        && (old(dataList) == [] <==> trace == [])
        && Protocol(trace, reply.value)
        && Wired(svc, trace, userInput, old(dataList), Some(Serialise(old(messages))))
      ensures userInput != "" && old(dataList) == [] ==>
        && trace == [] && alert == Some(Alert(ValueError(EMPTY_DATA_MESSAGE))) && messages == old(messages)
      ensures reply.Some? && reply.value.Ok? ==>
        && alert == None
        && messages == old(messages) + [Message(USER, userInput), Message(BOT, reply.value.value)]
      ensures reply.Some? && reply.value.Raises? ==>
        alert == Some(Alert(reply.value.error)) && messages == old(messages)
    {
      alert, reply, trace := None, None, [];
      if userInput != "" {
        var response, turn := DataChat(svc, userInput, dataList, Some(Serialise(messages)));
        reply, trace := Some(response), turn;
        if response.Ok? {
          var question, answer := Message(USER, userInput), Message(BOT, response.value);
          AlternatesExtend(messages, question, answer);
          messages := messages + [question, answer];
        } else {
          alert := Some(Alert(response.error));
        }
      }
    }

    /** `clear_conversation`: the conversation becomes empty; the records
        stay. */
    method ClearConversation()
      modifies this
      ensures messages == [] && dataList == old(dataList)
      ensures Valid() && Serialise(messages) == ""
    {
      messages := [];
    }
  }
}
