/**
 * `ChatService` (src/services/chat_service.py): the chat history handed to the retrieval
 * chain, and the shape of `ask_question`'s answer. The retrieval chain itself (prompt,
 * model and retriever) is an opaque function from its input to an output or to the text
 * of the exception it raised.
 */
module ChatService {
  import opened Wrappers

  datatype ChatMessage = HumanMessage(content: string) | AIMessage(content: string)

  /** One earlier exchange, a dict expected to hold "question" and "answer". */
  type HistoryEntry = map<string, string>

  datatype Document = Document(pageContent: string, metadata: map<string, string>)
  datatype ChainInput = ChainInput(input: string, chatHistory: seq<ChatMessage>)
  datatype ChainOutput = ChainOutput(answer: string, context: seq<Document>)
  datatype Answer = Answer(question: string, answer: string, context: seq<Document>)

  const ErrorPrefix: string := "Error processing question: "

  predicate Complete(entry: HistoryEntry) {
    "question" in entry && "answer" in entry
  }

  /** The key of the `KeyError` that `_build_history` raises, if any: the first key missing, entry by entry. */
  function MissingKey(entries: seq<HistoryEntry>): (r: Option<string>)
    ensures r.None? <==> forall i | 0 <= i < |entries| :: Complete(entries[i])
    ensures r.Some? ==> r.value == "question" || r.value == "answer"
  {
    if entries == [] then None
    else if "question" !in entries[0] then Some("question")
    else if "answer" !in entries[0] then Some("answer")
    else
      var r := MissingKey(entries[1..]);
      assert forall i | 1 <= i < |entries| :: entries[i] == entries[1..][i - 1];
      r
  }

  /** The history as alternating human and AI messages, one pair per entry. */
  function Interleave(entries: seq<HistoryEntry>): seq<ChatMessage>
    requires forall i | 0 <= i < |entries| :: Complete(entries[i])
  {
    if entries == [] then []
    else
      assert Complete(entries[0]);
      [HumanMessage(entries[0]["question"]), AIMessage(entries[0]["answer"])] + Interleave(entries[1..])
  }

  /** `str(KeyError(key))`: the key in single quotes. */
  function KeyErrorText(key: string): string {
    "'" + key + "'"
  }

  /** Entry i becomes messages 2i (its question, from the human) and 2i+1 (its answer, from the AI). */
  lemma {:induction false} InterleaveAt(entries: seq<HistoryEntry>)
    requires forall i | 0 <= i < |entries| :: Complete(entries[i])
    ensures |Interleave(entries)| == 2 * |entries|
    ensures forall i | 0 <= i < |entries| ::
      Interleave(entries)[2 * i] == HumanMessage(entries[i]["question"])
      && Interleave(entries)[2 * i + 1] == AIMessage(entries[i]["answer"])
  {
    if entries != [] {
      InterleaveAt(entries[1..]);
      forall i | 1 <= i < |entries|
        ensures Interleave(entries)[2 * i] == HumanMessage(entries[i]["question"])
        ensures Interleave(entries)[2 * i + 1] == AIMessage(entries[i]["answer"])
      {
        assert entries[i] == entries[1..][i - 1];
        assert Interleave(entries)[2 * i] == Interleave(entries[1..])[2 * (i - 1)];
        assert Interleave(entries)[2 * i + 1] == Interleave(entries[1..])[2 * (i - 1) + 1];
      }
    }
  }

  /** Entry order is kept: the history of a concatenation is the concatenation of the histories. */
  lemma {:induction false} InterleaveAppend(a: seq<HistoryEntry>, b: seq<HistoryEntry>)
    requires forall i | 0 <= i < |a| :: Complete(a[i])
    requires forall i | 0 <= i < |b| :: Complete(b[i])
    ensures forall i | 0 <= i < |a + b| :: Complete((a + b)[i])
    ensures Interleave(a + b) == Interleave(a) + Interleave(b)
  {
    if a == [] {
      assert a + b == b;
    } else {
      assert (a + b)[1..] == a[1..] + b;
      InterleaveAppend(a[1..], b);
    }
  }

  /** `_build_history`: appends the human then the AI message of each entry, in order. */
  method BuildHistory(entries: seq<HistoryEntry>) returns (r: Result<seq<ChatMessage>, string>)
    ensures MissingKey(entries).Some? ==> r == Err(MissingKey(entries).value)
    ensures MissingKey(entries).None? ==> r == Ok(Interleave(entries))
  {
    var history := [];
    for i := 0 to |entries|
      invariant forall j | 0 <= j < i :: Complete(entries[j])
      invariant history == Interleave(entries[..i])
    {
      if "question" !in entries[i] {
        MissingKeyAt(entries, i);
        return Err("question");
      }
      history := history + [HumanMessage(entries[i]["question"])];
      if "answer" !in entries[i] {
        MissingKeyAt(entries, i);
        return Err("answer");
      }
      history := history + [AIMessage(entries[i]["answer"])];
      assert entries[..i + 1] == entries[..i] + [entries[i]];
      InterleaveAppend(entries[..i], [entries[i]]);
    }
    assert entries[..|entries|] == entries;
    return Ok(history);
  }

  /** The first incomplete entry decides which key is reported missing. */
  lemma {:induction false} MissingKeyAt(entries: seq<HistoryEntry>, i: nat)
    requires i < |entries| && !Complete(entries[i])
    requires forall j | 0 <= j < i :: Complete(entries[j])
    ensures MissingKey(entries) == Some(if "question" !in entries[i] then "question" else "answer")
  {
    if i > 0 {
      assert forall j | 0 <= j < i - 1 :: entries[1..][j] == entries[j + 1];
      MissingKeyAt(entries[1..], i - 1);
    }
  }

  /**
   * `ask_question`: the chain receives the question and the built history; on success the
   * answer echoes the question and carries the chain's answer and context, and every
   * exception becomes an HTTP 500.
   */
  method AskQuestion(question: string, history: seq<HistoryEntry>, chain: ChainInput -> Result<ChainOutput, string>)
    returns (r: Result<Answer, HttpError>)
    ensures MissingKey(history).Some? ==>
      r == Err(HttpError(500, ErrorPrefix + KeyErrorText(MissingKey(history).value)))
    ensures MissingKey(history).None? && chain(ChainInput(question, Interleave(history))).Ok? ==>
      var out := chain(ChainInput(question, Interleave(history))).value;
      r == Ok(Answer(question, out.answer, out.context))
    ensures MissingKey(history).None? && chain(ChainInput(question, Interleave(history))).Err? ==>
      r == Err(HttpError(500, ErrorPrefix + chain(ChainInput(question, Interleave(history))).error))
  {
    var memory := BuildHistory(history);
    if memory.Err? {
      return Err(HttpError(500, ErrorPrefix + KeyErrorText(memory.error)));
    }
    var result := chain(ChainInput(question, memory.value));
    match result {
      case Ok(out) => r := Ok(Answer(question, out.answer, out.context));
      case Err(text) => r := Err(HttpError(500, ErrorPrefix + text));
    }
  }
}
