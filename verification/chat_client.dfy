/** The chat page's client-side logic: collecting the sources of the search
    tools' outputs per assistant message, and the submit guard. */
module ChatClient {
  import opened Wrappers
  import opened Strings
  import opened VectorDb
  import opened SearchTools

  datatype Role = System | User | Assistant

  /** A tool output as the client reads it: the `state` field and the
      optional `results` field. */
  datatype ToolOutput = ToolOutput(state: string, results: Option<seq<Source>>)

  /** The life cycle of a tool call part; only a finished call carries an output. */
  datatype ToolState =
    | InputStreaming
    | InputAvailable
    | OutputAvailable(output: ToolOutput)
    | OutputError(errorText: string)

  /** A message part: text, or a tool call whose `type` is "tool-" followed
      by the tool's name. */
  datatype Part = TextPart(text: string) | ToolPart(kind: string, state: ToolState)

  datatype Message = Message(id: string, role: Role, parts: seq<Part>)

  /** The part types of the two search tools. */
  predicate IsSearchTool(kind: string) {
    kind == "tool-searchKnowledgeBase" || kind == "tool-searchHistoricalRecords"
  }

  /** How a frame of a search tool reaches the client. */
  function FrameOutput(frame: Frame): (output: ToolOutput)
    ensures output.state == "complete" <==> frame.Complete?
    ensures output.results.Some? <==> frame.Complete?
  {
    match frame
    case Searching(_) => ToolOutput("searching", None)
    case Complete(results) => ToolOutput("complete", Some(results))
  }

  /* ------------------------------------------------------ source extraction */

  /** The sources one part contributes. */
  function PartSources(part: Part): (sources: seq<Source>)
    ensures sources != [] ==> part.ToolPart? && IsSearchTool(part.kind) && part.state.OutputAvailable?
    ensures sources != [] ==> part.state.output.state == "complete" && part.state.output.results.Some?
  {
    if part.ToolPart? && IsSearchTool(part.kind) && part.state.OutputAvailable? then
      var output := part.state.output;
      if output.state == "complete" && output.results.Some? then output.results.value else []
    else []
  }

  /** A search tool's final frame, once available, contributes exactly its
      results; its first frame contributes nothing, and neither does any
      other tool or a call still running or failed. */
  lemma PartSourcesOfFrames(kind: string, frame: Frame, state: ToolState)
    ensures IsSearchTool(kind) && frame.Complete? ==> PartSources(ToolPart(kind, OutputAvailable(FrameOutput(frame)))) == frame.results
    ensures frame.Searching? ==> PartSources(ToolPart(kind, OutputAvailable(FrameOutput(frame)))) == []
    ensures !IsSearchTool(kind) || !state.OutputAvailable? ==> PartSources(ToolPart(kind, state)) == []
  {
  }

  /** The sources of a message: its parts' sources, concatenated in part order. */
  function MessageSources(parts: seq<Part>): (sources: seq<Source>)
    ensures forall s :: s in sources ==> exists k :: 0 <= k < |parts| && s in PartSources(parts[k])
  {
    if parts == [] then []
    else
      var rest := MessageSources(parts[1..]);
      assert forall s :: s in rest ==> exists k :: 0 <= k < |parts| && s in PartSources(parts[k]) by {
        forall s | s in rest
          ensures exists k :: 0 <= k < |parts| && s in PartSources(parts[k])
        {
          var k :| 0 <= k < |parts[1..]| && s in PartSources(parts[1..][k]);
          assert parts[1..][k] == parts[k + 1];
        }
      }
      PartSources(parts[0]) + rest
  }

  /** Sources keep the order of the parts they come from: the sources of
      consecutive runs of parts are concatenated. */
  lemma {:induction false} MessageSourcesAppend(first: seq<Part>, second: seq<Part>)
    ensures MessageSources(first + second) == MessageSources(first) + MessageSources(second)
  {
    if first != [] {
      MessageSourcesAppend(first[1..], second);
      assert (first + second)[1..] == first[1..] + second;
    } else {
      assert first + second == second;
    }
  }

  /** Every source of every contributing part appears among the message's sources. */
  lemma {:induction false} MessageSourcesComplete(parts: seq<Part>, k: int, s: Source)
    requires 0 <= k < |parts| && s in PartSources(parts[k])
    ensures s in MessageSources(parts)
  {
    if k > 0 {
      assert parts[1..][k - 1] == parts[k];
      MessageSourcesComplete(parts[1..], k - 1, s);
    }
  }

  /** A message that receives an entry in the source map. */
  predicate HasSources(message: Message) {
    message.role == Assistant && MessageSources(message.parts) != []
  }

  /** The source map rebuilt by the effect: messages are visited in order,
      and a later message with the same id replaces an earlier entry. */
  function ExtractSources(messages: seq<Message>): (sources: map<string, seq<Source>>)
    ensures forall id :: id in sources ==> sources[id] != []
    ensures forall id :: id in sources <==> exists j :: 0 <= j < |messages| && HasSources(messages[j]) && messages[j].id == id
  {
    if messages == [] then map[]
    else
      var earlier := messages[..|messages| - 1];
      var last := messages[|messages| - 1];
      var before := ExtractSources(earlier);
      assert forall j :: 0 <= j < |earlier| ==> earlier[j] == messages[j];
      if HasSources(last) then before[last.id := MessageSources(last.parts)] else before
  }

  /** `j` is the last message with sources that carries `id`. */
  ghost predicate LastWithId(messages: seq<Message>, id: string, j: int) {
    && 0 <= j < |messages| && HasSources(messages[j]) && messages[j].id == id
    && forall k :: j < k < |messages| && HasSources(messages[k]) ==> messages[k].id != id
  }

  /** The entry for an id holds the sources of the last message with
      sources that carries it. */
  lemma {:induction false} ExtractSourcesTakesLast(messages: seq<Message>, id: string, j: int)
    requires LastWithId(messages, id, j)
    ensures id in ExtractSources(messages)
    ensures ExtractSources(messages)[id] == MessageSources(messages[j].parts)
  {
    var earlier := messages[..|messages| - 1];
    if j < |messages| - 1 {
      assert earlier[j] == messages[j];
      assert forall k :: j < k < |earlier| ==> earlier[k] == messages[k];
      assert LastWithId(earlier, id, j);
      ExtractSourcesTakesLast(earlier, id, j);
    }
  }

  /** Only assistant messages, in order. */
  function AssistantMessages(messages: seq<Message>): (kept: seq<Message>)
    ensures forall m :: m in kept <==> m in messages && m.role == Assistant
  {
    if messages == [] then []
    else
      var earlier := AssistantMessages(messages[..|messages| - 1]);
      var last := messages[|messages| - 1];
      assert messages == messages[..|messages| - 1] + [last];
      if last.role == Assistant then earlier + [last] else earlier
  }

  /** Messages of any other role leave the source map unchanged. */
  lemma {:induction false} OnlyAssistantMessagesCount(messages: seq<Message>)
    ensures ExtractSources(AssistantMessages(messages)) == ExtractSources(messages)
  {
    if messages != [] {
      var earlier := messages[..|messages| - 1];
      var last := messages[|messages| - 1];
      OnlyAssistantMessagesCount(earlier);
      if last.role == Assistant {
        var kept := AssistantMessages(earlier) + [last];
        assert kept[..|kept| - 1] == AssistantMessages(earlier);
      }
    }
  }

  /** The effect replaces whatever map was shown by the one rebuilt from the
      messages. */
  function SourcesEffect(shown: map<string, seq<Source>>, messages: seq<Message>): (next: map<string, seq<Source>>)
    ensures forall id :: id in next ==> next[id] != []
  {
    ExtractSources(messages)
  }

  /** The map after the effect depends on the messages alone, so running the
      effect again on the same messages changes nothing. */
  lemma SourcesEffectIsIdempotent(shown: map<string, seq<Source>>, other: map<string, seq<Source>>, messages: seq<Message>)
    ensures SourcesEffect(shown, messages) == SourcesEffect(other, messages)
    ensures SourcesEffect(SourcesEffect(shown, messages), messages) == SourcesEffect(shown, messages)
  {
  }

  /** An assistant message holding one finished search with results gets an
      entry listing exactly those results. */
  lemma FinishedSearchShowsSources(id: string, kind: string, results: seq<Source>)
    requires IsSearchTool(kind) && results != []
    ensures var part := ToolPart(kind, OutputAvailable(FrameOutput(Complete(results))));
            ExtractSources([Message(id, Assistant, [part])]) == map[id := results]
  {
    var part := ToolPart(kind, OutputAvailable(FrameOutput(Complete(results))));
    var messages := [Message(id, Assistant, [part])];
    assert MessageSources([part]) == results;
    assert messages[..0] == [];
  }

  /** End to end: an assistant message holding a finished knowledge-base
      search gets an entry listing that search's three results. */
  lemma KnowledgeBaseAnswerShowsSources(id: string, query: string, noise: seq<real>)
    requires |noise| == 5 && ValidNoise(noise)
    ensures var results := SearchKnowledgeBase(query, noise)[1].results;
            var part := ToolPart("tool-searchKnowledgeBase", OutputAvailable(FrameOutput(Complete(results))));
            ExtractSources([Message(id, Assistant, [part])]) == map[id := results]
  {
    var frames := SearchKnowledgeBase(query, noise);
    FinishedSearchShowsSources(id, "tool-searchKnowledgeBase", frames[1].results);
  }

  /* ----------------------------------------------------------------- submit */

  /** The outcome of a submit: the text handed to `sendMessage`, if any, and
      the input box's new content. */
  datatype Submission = Submission(sent: Option<string>, input: string)

  /** `handleSubmit`: sends the input as typed, then clears the box. */
  function HandleSubmit(input: string, status: string): (after: Submission)
    ensures after.sent.Some? <==> !AllWhitespace(input) && status != "in_progress"
    ensures after.sent.Some? ==> after.sent.value == input && after.input == []
    ensures after.sent.None? ==> after.input == input
  {
    if Trim(input) != [] && status != "in_progress" then Submission(Some(input), [])
    else Submission(None, input)
  }

  /** After a send the box is empty, so submitting again sends nothing. */
  lemma SubmitSendsOnce(input: string, status: string)
    requires HandleSubmit(input, status).sent.Some?
    ensures HandleSubmit(HandleSubmit(input, status).input, status) == Submission(None, [])
  {
  }
}
