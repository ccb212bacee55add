/** The conversation a session keeps (app.py:7-8, app.py:23-29, app.py:63-69):
    a list of (author, message) pairs, the history string a turn is given,
    and the shape the list keeps while only whole turns are appended. */
module History {

  /** One entry of the conversation: who said it and what. */
  datatype Message = Message(author: string, text: string)

  const USER := "User"
  const BOT := "Bot"

  /** One line of the history string: `f"{author}: {message}"`. */
  function Line(m: Message): (line: string)
    ensures |line| == |m.author| + 2 + |m.text|
    ensures line[..|m.author|] == m.author && line[|m.author|..|m.author| + 2] == ": "
    ensures line[|m.author| + 2..] == m.text
  {
    m.author + ": " + m.text
  }

  /** `"\n".join(lines)`. */
  function Join(lines: seq<string>): string {
    if lines == [] then ""
    else if |lines| == 1 then lines[0]
    else lines[0] + "\n" + Join(lines[1..])
  }

  /** `str.split("\n")`: the maximal newline-free pieces, in order; the empty
      string splits into one empty piece. */
  function Split(s: string): (parts: seq<string>)
    ensures |parts| >= 1
    ensures forall k :: 0 <= k < |parts| ==> '\n' !in parts[k]
  {
    if s == [] then [[]]
    else
      var rest := Split(s[1..]);
      if s[0] == '\n' then [[]] + rest
      else [[s[0]] + rest[0]] + rest[1..]
  }

  /** The lines of a conversation, in order. */
  function Lines(msgs: seq<Message>): (lines: seq<string>)
    ensures |lines| == |msgs| && forall k :: 0 <= k < |msgs| ==> lines[k] == Line(msgs[k])
  {
    seq(|msgs|, k requires 0 <= k < |msgs| => Line(msgs[k]))
  }

  /** The history string a turn is given (app.py:23-26): empty exactly when
      the conversation is, and otherwise starting with the first message's
      line. */
  function Serialise(msgs: seq<Message>): (s: string)
    ensures s == "" <==> msgs == []
    ensures msgs != [] ==> Line(msgs[0]) <= s
  {
    Join(Lines(msgs))
  }

  /** Appending one line to a non-empty join adds a newline and the line. */
  lemma {:induction false} JoinAppend(lines: seq<string>, line: string)
    requires lines != []
    ensures Join(lines + [line]) == Join(lines) + "\n" + line
    decreases |lines|
  {
    if |lines| == 1 {
      assert lines + [line] == [lines[0], line];
    } else {
      assert (lines + [line])[1..] == lines[1..] + [line];
      JoinAppend(lines[1..], line);
    }
  }

  /** Adding a message to a non-empty conversation extends its history string
      by a newline and the message's line; nothing already there changes. */
  lemma SerialiseAppend(msgs: seq<Message>, m: Message)
    requires msgs != []
    ensures Serialise(msgs + [m]) == Serialise(msgs) + "\n" + Line(m)
  {
    assert Lines(msgs + [m]) == Lines(msgs) + [Line(m)];
    JoinAppend(Lines(msgs), Line(m));
  }

  /** The history string only ever grows at its end: whatever messages are
      appended, the old history string is a prefix of the new one. */
  lemma {:induction false} SerialiseAppendOnly(msgs: seq<Message>, more: seq<Message>)
    ensures Serialise(msgs) <= Serialise(msgs + more)
    decreases |more|
  {
    if more == [] {
      assert msgs + more == msgs;
    } else {
      var init := more[..|more| - 1];
      var m := more[|more| - 1];
      SerialiseAppendOnly(msgs, init);
      assert msgs + more == (msgs + init) + [m];
      if msgs + init == [] {
        assert msgs == [];
      } else {
        SerialiseAppend(msgs + init, m);
      }
    }
  }

  /** Splitting a newline-free string gives it back whole. */
  lemma {:induction false} SplitPlain(s: string)
    requires '\n' !in s
    ensures Split(s) == [s]
    decreases |s|
  {
    if s != [] {
      assert '\n' !in s[1..] by {
        forall k | 0 <= k < |s[1..]| ensures s[1..][k] != '\n' {
          assert s[1..][k] == s[k + 1];
        }
      }
      SplitPlain(s[1..]);
      assert [s[0]] + s[1..] == s;
    }
  }

  /** Splitting at the first newline: the newline-free head comes off whole. */
  lemma {:induction false} SplitHead(a: string, b: string)
    requires '\n' !in a
    ensures Split(a + "\n" + b) == [a] + Split(b)
    decreases |a|
  {
    if a == [] {
      assert a + "\n" + b == ['\n'] + b;
      assert (['\n'] + b)[1..] == b;
    } else {
      assert '\n' !in a[1..] by {
        forall k | 0 <= k < |a[1..]| ensures a[1..][k] != '\n' {
          assert a[1..][k] == a[k + 1];
        }
      }
      SplitHead(a[1..], b);
      assert (a + "\n" + b)[1..] == a[1..] + "\n" + b;
      assert [a[0]] + a[1..] == a;
    }
  }

  /** The join round-trips through split when no line holds a newline. */
  lemma {:induction false} SplitJoin(lines: seq<string>)
    requires lines != []
    requires forall k :: 0 <= k < |lines| ==> '\n' !in lines[k]
    ensures Split(Join(lines)) == lines
    decreases |lines|
  {
    if |lines| == 1 {
      SplitPlain(lines[0]);
    } else {
      SplitHead(lines[0], Join(lines[1..]));
      SplitJoin(lines[1..]);
      assert [lines[0]] + lines[1..] == lines;
    }
  }

  /** The lines of a non-empty conversation whose messages hold no newline can
      be read back from its history string, one message per line. */
  lemma SerialiseRoundTrip(msgs: seq<Message>)
    requires msgs != []
    requires forall k :: 0 <= k < |msgs| ==> '\n' !in msgs[k].author && '\n' !in msgs[k].text
    ensures Split(Serialise(msgs)) == Lines(msgs)
  {
    forall k | 0 <= k < |msgs| ensures '\n' !in Lines(msgs)[k] {
      var m := msgs[k];
      forall j | 0 <= j < |Line(m)| ensures Line(m)[j] != '\n' {
        if j < |m.author| {
          assert Line(m)[j] == m.author[j];
        } else if j >= |m.author| + 2 {
          assert Line(m)[j] == m.text[j - |m.author| - 2];
        }
      }
    }
    SplitJoin(Lines(msgs));
  }

  /** The conversation is a sequence of whole turns: a user message, then the
      bot's reply to it. */
  predicate Alternates(msgs: seq<Message>) {
    && |msgs| % 2 == 0
    && forall k :: 0 <= k < |msgs| ==> msgs[k].author == (if k % 2 == 0 then USER else BOT)
  }

  /** Appending one whole turn keeps the conversation alternating, and only a
      pair of a user message and a bot message can do so. */
  lemma AlternatesExtend(msgs: seq<Message>, a: Message, b: Message)
    requires Alternates(msgs)
    ensures Alternates(msgs + [a, b]) <==> a.author == USER && b.author == BOT
  {
    var ext := msgs + [a, b];
    assert ext[|msgs|] == a && ext[|msgs| + 1] == b;
    if a.author == USER && b.author == BOT {
      forall k | 0 <= k < |ext| ensures ext[k].author == (if k % 2 == 0 then USER else BOT) {
        if k < |msgs| {
          assert ext[k] == msgs[k];
        }
      }
    }
  }

  /** History string after a whole turn: the old history, then the two new
      lines. */
  lemma SerialiseTurn(msgs: seq<Message>, userInput: string, reply: string)
    ensures Serialise(msgs + [Message(USER, userInput), Message(BOT, reply)]) ==
      (if msgs == [] then "" else Serialise(msgs) + "\n")
      + Line(Message(USER, userInput)) + "\n" + Line(Message(BOT, reply))
  {
    var u := Message(USER, userInput);
    var b := Message(BOT, reply);
    assert msgs + [u, b] == (msgs + [u]) + [b];
    SerialiseAppend(msgs + [u], b);
    if msgs == [] {
      assert msgs + [u] == [u];
      assert Lines([u]) == [Line(u)];
    } else {
      SerialiseAppend(msgs, u);
    }
  }

  /** The chat role a message is shown under (app.py:63-69). */
  function Role(m: Message): (role: string)
    ensures role == "user" <==> m.author == USER
    ensures role == "user" || role == "ai"
  {
    if m.author == USER then "user" else "ai"
  }
}
