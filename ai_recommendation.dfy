/**
 * LLM-driven recommendations (`src/ai_recommendation.py`): a two-node
 * graph that alternates between the language model and the tool node
 * until the model answers without asking for tools, and the split of that
 * answer into one recommendation per line.
 *
 * The model and the tool node are oracles: any functions of the message
 * history. What the model decides, and what the tools return, is theirs;
 * what is fixed here is the wiring around them.
 */
module AiRecommendation {
  import opened PyValues

  datatype ToolCall = ToolCall(id: string, name: string, args: Bindings)

  datatype Message =
    | Human(content: string)
    | Ai(content: string, toolCalls: seq<ToolCall>)
    | ToolResult(content: string, toolCallId: string)

  /** What the model with its tools bound replies: text, and the tools it wants run. */
  datatype AiReply = AiReply(content: string, toolCalls: seq<ToolCall>)

  /** `llm_with_tools.invoke(messages)`: a reply to the whole history, or an exception. */
  type Model = seq<Message> -> Result<AiReply>

  /** `ToolNode(tools)`: the messages it adds to the history, or an exception. */
  type ToolRunner = seq<Message> -> Result<seq<Message>>

  /** The graph's nodes; START is left at once along its edge to `llm_node`. */
  datatype Node = LlmNode | ToolsNode | End

  /** Where the run is and the `messages` channel of the state. */
  datatype Run = Run(node: Node, messages: seq<Message>)

  /** The `operator.add` reducer: a node's update is appended to the messages. */
  function AddMessages(messages: seq<Message>, update: seq<Message>): (r: seq<Message>)
    ensures |r| == |messages| + |update| && r[..|messages|] == messages && r[|messages|..] == update
  {
    messages + update
  }

  /** `tools_condition` on the reply just appended: to `tools` when it asks for any, else END. */
  function RouteAfterModel(reply: AiReply): (next: Node)
    ensures next != LlmNode
    ensures next == End <==> reply.toolCalls == []
  {
    if reply.toolCalls != [] then ToolsNode else End
  }

  /** The state the run starts in: the seed prompt, at `llm_node` (the edge from START). */
  function Initial(prompt: string): (r: Run)
    // the input `{"messages": [prompt]}` goes through the reducer into an empty state
    ensures r.node == LlmNode && r.messages == AddMessages([], [Human(prompt)])
  {
    Run(LlmNode, [Human(prompt)])
  }

  /**
   * One step of the compiled graph: run the current node, append its
   * update, follow the node's outgoing edge.
   */
  function Step(model: Model, tools: ToolRunner, run: Run): (r: Result<Run>)
    requires run.node != End
    // the history only grows, by appending
    ensures r.Ok? ==> |r.value.messages| >= |run.messages| && r.value.messages[..|run.messages|] == run.messages
    // `tools` appends exactly the tool node's update and always goes back to `llm_node`
    ensures r.Ok? && run.node == ToolsNode ==>
      && r.value.node == LlmNode
      && tools(run.messages).Ok?
      && r.value.messages == run.messages + tools(run.messages).value
    // END is reached only from `llm_node`, right after a reply with no tool calls
    ensures r.Ok? && r.value.node == End ==>
      && run.node == LlmNode
      && model(run.messages).Ok? && model(run.messages).value.toolCalls == []
      && r.value.messages == run.messages + [Ai(model(run.messages).value.content, [])]
    // `llm_node` adds exactly the model's reply and never loops onto itself
    ensures r.Ok? && run.node == LlmNode ==>
      && r.value.node != LlmNode
      && model(run.messages).Ok?
      && (r.value.node == End <==> model(run.messages).value.toolCalls == [])
      && r.value.messages == run.messages + [Ai(model(run.messages).value.content, model(run.messages).value.toolCalls)]
    // an exception of the node that ran is the step's exception
    ensures r.Err? && run.node == LlmNode ==> model(run.messages) == Err(r.error)
    ensures r.Err? && run.node == ToolsNode ==> tools(run.messages) == Err(r.error)
  {
    match run.node
    case LlmNode =>
      (match model(run.messages)
       case Err(e) => Err(e)
       case Ok(reply) =>
         Ok(Run(RouteAfterModel(reply), AddMessages(run.messages, [Ai(reply.content, reply.toolCalls)]))))
    case ToolsNode =>
      match tools(run.messages)
      case Err(e) => Err(e)
      case Ok(update) => Ok(Run(LlmNode, AddMessages(run.messages, update)))
  }

  /**
   * The run from `run` with at most `fuel` more steps: the final messages,
   * or the exception that stopped it. The wiring has no bound of its own;
   * running out of fuel stands for a run that has not ended yet.
   */
  function RunFrom(model: Model, tools: ToolRunner, run: Run, fuel: nat): (r: Result<seq<Message>>)
    decreases fuel
    ensures run.node == End ==> r == Ok(run.messages)
    ensures run.node != End && fuel == 0 ==> r == Err(RecursionLimit)
    // the message log only grows: the final history extends the one the run started from
    ensures r.Ok? ==> |r.value| >= |run.messages| && r.value[..|run.messages|] == run.messages
  {
    if run.node == End then Ok(run.messages)
    else if fuel == 0 then Err(RecursionLimit)
    else match Step(model, tools, run)
      case Err(e) => Err(e)
      case Ok(next) =>
        var rest := RunFrom(model, tools, next, fuel - 1);
        assert rest.Ok? ==> rest.value[..|run.messages|] == rest.value[..|next.messages|][..|run.messages|];
        rest
  }

  /** `recommender_model.invoke(inputs)`: step the graph until it reaches END. */
  method Invoke(model: Model, tools: ToolRunner, prompt: string, fuel: nat) returns (r: Result<seq<Message>>)
    ensures r == RunFrom(model, tools, Initial(prompt), fuel)
  {
    var run := Initial(prompt);
    var left := fuel;
    while run.node != End
      invariant RunFrom(model, tools, run, left) == RunFrom(model, tools, Initial(prompt), fuel)
      decreases left
    {
      if left == 0 {
        return Err(RecursionLimit);
      }
      match Step(model, tools, run)
      case Err(e) =>
        return Err(e);
      case Ok(next) =>
        run := next;
        left := left - 1;
    }
    r := Ok(run.messages);
  }

  /**
   * A run that ends does so on the branch out of `llm_node`: the last
   * message is the model's reply to everything before it, and that reply
   * asks for no tools.
   */
  lemma {:induction false} RunFromEndsWithAnswer(model: Model, tools: ToolRunner, run: Run, fuel: nat)
    decreases fuel
    requires run.node != End
    ensures RunFrom(model, tools, run, fuel).Ok? ==>
      var final := RunFrom(model, tools, run, fuel).value;
      && |final| > |run.messages|
      && final[|final| - 1] == Ai(final[|final| - 1].content, [])
      && model(final[..|final| - 1]) == Ok(AiReply(final[|final| - 1].content, []))
  {
    if fuel > 0 {
      match Step(model, tools, run)
      case Err(_) =>
      case Ok(next) =>
        if next.node != End {
          RunFromEndsWithAnswer(model, tools, next, fuel - 1);
        } else {
          assert next.messages[..|run.messages|] == run.messages;
        }
    }
  }

  /**
   * More fuel never changes the outcome of a run that did not run out:
   * the fuel bound only cuts off runs that have not reached END.
   */
  lemma {:induction false} RunFromFuel(model: Model, tools: ToolRunner, run: Run, fuel: nat, more: nat)
    requires fuel <= more
    decreases fuel
    ensures RunFrom(model, tools, run, fuel) != Err(RecursionLimit) ==>
      RunFrom(model, tools, run, more) == RunFrom(model, tools, run, fuel)
  {
    if run.node != End && fuel > 0 {
      match Step(model, tools, run)
      case Err(_) =>
      case Ok(next) => RunFromFuel(model, tools, next, fuel - 1, more - 1);
    }
  }

  /**
   * The run starts at `llm_node` on the seed prompt alone: a model that
   * fails there fails the run, and a model that answers without tools ends
   * it after exactly that one call.
   */
  lemma FirstStepIsModel(model: Model, tools: ToolRunner, prompt: string, fuel: nat)
    requires fuel > 0
    ensures model([Human(prompt)]).Err? ==>
      RunFrom(model, tools, Initial(prompt), fuel) == Err(model([Human(prompt)]).error)
    ensures model([Human(prompt)]).Ok? && model([Human(prompt)]).value.toolCalls == [] ==>
      RunFrom(model, tools, Initial(prompt), fuel) ==
        Ok([Human(prompt), Ai(model([Human(prompt)]).value.content, [])])
  {
    var start := Initial(prompt);
    match Step(model, tools, start)
    case Err(_) =>
    case Ok(next) =>
      assert RunFrom(model, tools, start, fuel) == RunFrom(model, tools, next, fuel - 1);
      if next.node == End {
        assert RunFrom(model, tools, next, fuel - 1) == Ok(next.messages);
        assert next.messages == [Human(prompt), Ai(model([Human(prompt)]).value.content, [])];
      }
  }

  // ---------------------------------------------------------------
  // Post-processing: `content.split("\n")`
  // ---------------------------------------------------------------

  /** `s.split("\n")` */
  function SplitLines(s: string): (r: seq<string>)
    ensures |r| >= 1
  {
    if s == [] then [""]
    else
      var rest := SplitLines(s[1..]);
      if s[0] == '\n' then [""] + rest
      else [[s[0]] + rest[0]] + rest[1..]
  }

  /** `"\n".join(xs)` */
  function JoinLines(xs: seq<string>): string {
    if xs == [] then ""
    else if |xs| == 1 then xs[0]
    else xs[0] + "\n" + JoinLines(xs[1..])
  }

  function CountNewlines(s: string): nat {
    if s == [] then 0 else (if s[0] == '\n' then 1 else 0) + CountNewlines(s[1..])
  }

  /** Joining the lines with "\n" gives back the text. */
  lemma {:induction false} JoinSplitLines(s: string)
    ensures JoinLines(SplitLines(s)) == s
  {
    if s != [] {
      var rest := SplitLines(s[1..]);
      JoinSplitLines(s[1..]);
      if s[0] == '\n' {
        assert SplitLines(s)[1..] == rest;
      } else if |rest| == 1 {
        assert SplitLines(s) == [[s[0]] + rest[0]];
      } else {
        var r := SplitLines(s);
        assert r[1..] == rest[1..];
        assert JoinLines(rest) == rest[0] + "\n" + JoinLines(rest[1..]);
      }
    }
  }

  /** No line contains "\n", and there is one line more than there are newlines. */
  lemma {:induction false} SplitLinesShape(s: string)
    ensures forall k :: 0 <= k < |SplitLines(s)| ==> '\n' !in SplitLines(s)[k]
    ensures |SplitLines(s)| == CountNewlines(s) + 1
  {
    if s != [] {
      SplitLinesShape(s[1..]);
      var rest := SplitLines(s[1..]);
      if s[0] != '\n' {
        var r := SplitLines(s);
        assert r[0] == [s[0]] + rest[0];
        assert forall k :: 0 < k < |r| ==> r[k] == rest[k];
      } else {
        var r := SplitLines(s);
        assert forall k :: 0 < k < |r| ==> r[k] == rest[k - 1];
      }
    }
  }

  /** Splitting undoes joining, for a non-empty list of lines without "\n". */
  lemma {:induction false} SplitJoinLines(xs: seq<string>)
    requires |xs| >= 1
    requires forall k :: 0 <= k < |xs| ==> '\n' !in xs[k]
    ensures SplitLines(JoinLines(xs)) == xs
  {
    if |xs| == 1 {
      SplitLineWithout(xs[0], []);
      assert xs[0] + [] == xs[0];
    } else {
      SplitJoinLines(xs[1..]);
      var tail := JoinLines(xs[1..]);
      assert SplitLines("\n" + tail) == [""] + xs[1..] by {
        assert ("\n" + tail)[0] == '\n';
        assert ("\n" + tail)[1..] == tail;
      }
      SplitLineWithout(xs[0], "\n" + tail);
      assert xs[0] + "\n" + tail == xs[0] + ("\n" + tail);
      assert xs[0] + "" == xs[0];
      assert [xs[0]] + xs[1..] == xs;
    }
  }

  /** A prefix without "\n" is glued onto the first line of what follows. */
  lemma {:induction false} SplitLineWithout(w: string, s: string)
    requires '\n' !in w
    ensures SplitLines(w + s) == [w + SplitLines(s)[0]] + SplitLines(s)[1..]
  {
    if w == [] {
      assert w + s == s;
      assert w + SplitLines(s)[0] == SplitLines(s)[0];
      assert SplitLines(s) == [SplitLines(s)[0]] + SplitLines(s)[1..];
    } else {
      assert (w + s)[1..] == w[1..] + s;
      assert (w + s)[0] == w[0];
      SplitLineWithout(w[1..], s);
      assert [w[0]] + (w[1..] + SplitLines(s)[0]) == w + SplitLines(s)[0];
    }
  }

  /** What `recommender_function` returns for the outcome of the run. */
  function Recommendations(outcome: Result<seq<Message>>): (r: seq<string>)
    // empty exactly when something raised: the split of any text has at least one line
    ensures r == [] <==> outcome.Err? || outcome.value == []
    ensures outcome.Ok? && outcome.value != [] ==> JoinLines(r) == outcome.value[|outcome.value| - 1].content
    ensures forall k :: 0 <= k < |r| ==> '\n' !in r[k]
  {
    match outcome
    case Err(_) => []
      // `final_state['messages'][-1]` on an empty history raises IndexError, which is caught
    case Ok(messages) =>
      if messages == [] then []
      else
        JoinSplitLines(messages[|messages| - 1].content);
        SplitLinesShape(messages[|messages| - 1].content);
        SplitLines(messages[|messages| - 1].content)
  }

  /** `recommender_function`: run the graph on the prompt and split the last message into lines. */
  method RecommenderFunction(model: Model, tools: ToolRunner, prompt: string, fuel: nat)
    returns (recommendations: seq<string>)
    ensures recommendations == Recommendations(RunFrom(model, tools, Initial(prompt), fuel))
  {
    var finalState := Invoke(model, tools, prompt, fuel);
    match finalState
    case Err(_) =>
      recommendations := [];
    case Ok(messages) =>
      if messages == [] {
        recommendations := [];
      } else {
        recommendations := SplitLines(messages[|messages| - 1].content);
      }
  }

  /**
   * Every exception gives exactly `[]`. A run that ends gives the lines of
   * the model's final answer: joined with "\n" they are that answer, none
   * contains "\n", and there is at least one (`[""]` for an empty answer).
   */
  lemma RecommendationsSpec(model: Model, tools: ToolRunner, prompt: string, fuel: nat)
    ensures RunFrom(model, tools, Initial(prompt), fuel).Err? ==>
      Recommendations(RunFrom(model, tools, Initial(prompt), fuel)) == []
    ensures RunFrom(model, tools, Initial(prompt), fuel).Ok? ==>
      var final := RunFrom(model, tools, Initial(prompt), fuel).value;
      var recs := Recommendations(RunFrom(model, tools, Initial(prompt), fuel));
      && |final| >= 2
      && model(final[..|final| - 1]) == Ok(AiReply(JoinLines(recs), []))
      && |recs| == CountNewlines(JoinLines(recs)) + 1
      && forall k :: 0 <= k < |recs| ==> '\n' !in recs[k]
  {
    var outcome := RunFrom(model, tools, Initial(prompt), fuel);
    if outcome.Ok? {
      RunFromEndsWithAnswer(model, tools, Initial(prompt), fuel);
      var final := outcome.value;
      var answer := final[|final| - 1].content;
      JoinSplitLines(answer);
      SplitLinesShape(answer);
    }
  }

  /** A scripted model for the round trip below: search first, answer once a tool result is in. */
  function ScriptedModel(history: seq<Message>): Result<AiReply> {
    if history != [] && history[|history| - 1].ToolResult? then Ok(AiReply("Song A\nSong B\nSong C", []))
    else Ok(AiReply("", [ToolCall("call-1", "web_search", [("query", Str("similar songs"))])]))
  }

  /** A scripted tool node: one search result answering the call. */
  function ScriptedTools(history: seq<Message>): Result<seq<Message>> {
    Ok([ToolResult("search results", "call-1")])
  }

  /**
   * One round trip through the tool node: the model asks for a web search,
   * the tool node answers, the model replies; three steps of fuel suffice
   * and the history holds the four messages in that order.
   */
  lemma ScriptedRun(prompt: string)
    ensures RunFrom(ScriptedModel, ScriptedTools, Initial(prompt), 3) ==
      Ok([Human(prompt),
          Ai("", [ToolCall("call-1", "web_search", [("query", Str("similar songs"))])]),
          ToolResult("search results", "call-1"),
          Ai("Song A\nSong B\nSong C", [])])
  {
    var call := ToolCall("call-1", "web_search", [("query", Str("similar songs"))]);
    var h1 := [Human(prompt), Ai("", [call])];
    var h2 := h1 + [ToolResult("search results", "call-1")];
    var h3 := h2 + [Ai("Song A\nSong B\nSong C", [])];
    assert ScriptedModel([Human(prompt)]) == Ok(AiReply("", [call]));
    var st := Step(ScriptedModel, ScriptedTools, Initial(prompt));
    assert Initial(prompt).node == LlmNode;
    assert st.Ok? && st.value.node == ToolsNode && st.value.messages == h1;
    assert Step(ScriptedModel, ScriptedTools, Run(ToolsNode, h1)) == Ok(Run(LlmNode, h2));
    assert h2[|h2| - 1].ToolResult?;
    assert Step(ScriptedModel, ScriptedTools, Run(LlmNode, h2)) == Ok(Run(End, h3));
    assert RunFrom(ScriptedModel, ScriptedTools, Run(LlmNode, h2), 1) == Ok(h3);
    assert RunFrom(ScriptedModel, ScriptedTools, Run(ToolsNode, h1), 2) == Ok(h3);
    assert RunFrom(ScriptedModel, ScriptedTools, Initial(prompt), 3) == Ok(h3);
    assert h3 == [Human(prompt), Ai("", [call]), ToolResult("search results", "call-1"), Ai("Song A\nSong B\nSong C", [])];
  }

  lemma ThreeTitles()
    ensures SplitLines("Song A\nSong B\nSong C") == ["Song A", "Song B", "Song C"]
  {
    assert JoinLines(["Song A", "Song B", "Song C"]) == "Song A\nSong B\nSong C";
    SplitJoinLines(["Song A", "Song B", "Song C"]);
  }

  /** The caller of that run receives the three titles, one per line of the answer. */
  lemma OneToolRoundTrip(prompt: string)
    ensures Recommendations(RunFrom(ScriptedModel, ScriptedTools, Initial(prompt), 3)) == ["Song A", "Song B", "Song C"]
  {
    ScriptedRun(prompt);
    ThreeTitles();
  }
}
