/**
 * The fix finder's agent: a bounded ReAct loop over the model, which either
 * answers with a final analysis or asks for tools, followed when the loop
 * runs out by one final call without tools; and `find_fixes`, which turns
 * the loop's analysis into the result record and records the LLM usage.
 */
module FixFinder {
  import opened Wrappers
  import opened Strings
  import opened JsonValue
  import LM = LoanModels
  import opened FixFinderModels
  import opened FixFinderTools
  import opened FixFinderNormalise
  import opened LlmUsage

  /** One content block of a model response. */
  datatype Block = TextBlock(text: string) | ToolUse(id: string, name: string, input: Dict)

  /** What one model call gives: a timeout, an exception with its message, or a response. */
  datatype Reply =
    | Timeout
    | Failure(message: string)
    | Response(content: seq<Block>, stopReason: string, inputTokens: nat, outputTokens: nat)

  /** The conversation sent to the model. */
  datatype Message = UserText(text: string) | AssistantBlocks(content: seq<Block>) | ToolResults(results: seq<(string, string)>)

  /** The model: the conversation so far and whether the tools are offered. */
  type Model = (seq<Message>, bool) -> Reply

  // ---------------------------------------------------------------------------
  // Reading a response

  /** The tool requests of a response, in order. */
  function ToolRequests(content: seq<Block>): (r: seq<ToolRequest>)
    ensures |r| <= |content|
  {
    if |content| == 0 then []
    else
      var last := content[|content| - 1];
      ToolRequests(content[..|content| - 1]) + (if last.ToolUse? then [ToolRequest(last.id, last.name, last.input)] else [])
  }

  /** A response requests no tool exactly when none of its blocks is a tool use. */
  lemma {:induction false} ToolRequestsSpec(content: seq<Block>)
    ensures ToolRequests(content) == [] <==> forall k :: 0 <= k < |content| ==> !content[k].ToolUse?
  {
    if |content| > 0 {
      ToolRequestsSpec(content[..|content| - 1]);
    }
  }

  /** The text of the last text block, or "" when there is none. */
  function LastText(content: seq<Block>): string {
    if |content| == 0 then ""
    else if content[|content| - 1].TextBlock? then content[|content| - 1].text
    else LastText(content[..|content| - 1])
  }

  /** The last text block's text is what `LastText` gives, and "" when there is no text block. */
  lemma {:induction false} LastTextSpec(content: seq<Block>)
    ensures (forall k :: 0 <= k < |content| ==> !content[k].TextBlock?) ==> LastText(content) == ""
    ensures forall k :: (0 <= k < |content| && content[k].TextBlock? && (forall j :: k < j < |content| ==> !content[j].TextBlock?)
      ==> LastText(content) == content[k].text)
  {
    if |content| > 0 {
      var init := content[..|content| - 1];
      LastTextSpec(init);
      assert forall k :: 0 <= k < |init| ==> init[k] == content[k];
    }
  }

  /** The text of the first text block, or "{}" when there is none. */
  function FirstText(content: seq<Block>): string {
    if |content| == 0 then "{}"
    else if content[0].TextBlock? then content[0].text
    else FirstText(content[1..])
  }

  /** The first text block's text is what `FirstText` gives, and "{}" when there is no text block. */
  lemma {:induction false} FirstTextSpec(content: seq<Block>)
    ensures (forall k :: 0 <= k < |content| ==> !content[k].TextBlock?) ==> FirstText(content) == "{}"
    ensures forall k :: (0 <= k < |content| && content[k].TextBlock? && (forall j :: 0 <= j < k ==> !content[j].TextBlock?)
      ==> FirstText(content) == content[k].text)
  {
    if |content| > 0 {
      var tail := content[1..];
      FirstTextSpec(tail);
      assert forall k :: 0 <= k < |tail| ==> tail[k] == content[k + 1];
    }
  }

  /** The block loop of an iteration: tool requests are collected, and each text block overwrites the text. */
  method ScanBlocks(content: seq<Block>) returns (requests: seq<ToolRequest>, text: string)
    ensures requests == ToolRequests(content)
    ensures text == LastText(content)
  {
    requests, text := [], "";
    var i := 0;
    while i < |content|
      invariant 0 <= i <= |content|
      invariant requests == ToolRequests(content[..i]) && text == LastText(content[..i])
    {
      assert content[..i + 1][..i] == content[..i];
      if content[i].ToolUse? {
        requests := requests + [ToolRequest(content[i].id, content[i].name, content[i].input)];
      } else {
        text := content[i].text;
      }
      i := i + 1;
    }
    assert content[..i] == content;
  }

  /** The block loop of the final call: the first block with a text ends it. */
  method FirstTextOf(content: seq<Block>) returns (text: string)
    ensures text == FirstText(content)
  {
    var i := 0;
    while i < |content|
      invariant 0 <= i <= |content|
      invariant FirstText(content[i..]) == FirstText(content)
    {
      assert content[i..][1..] == content[i + 1..];
      if content[i].TextBlock? {
        return content[i].text;
      }
      i := i + 1;
    }
    text := "{}";
  }

  // ---------------------------------------------------------------------------
  // Steps of the trace

  const FinalRequest := "Please provide your final analysis now with enhanced_fixes, fix_sequences, and recommended_path. Respond with JSON only."

  /** The reasoning of a step: the text cut to 500 characters, or a placeholder when there is none. */
  function Reasoning(text: string): (r: string)
    ensures |text| > 0 ==> r == Take(text, 500)
  {
    if |text| > 0 then Take(text, 500) else "Processing tool calls..."
  }

  /** The findings of a step: each call's summary cut to 200 characters. */
  function Findings(calls: seq<ToolCall>): (r: seq<string>)
    ensures |r| == |calls|
    ensures forall k :: 0 <= k < |calls| ==> r[k] == Take(calls[k].resultSummary, 200) && |r[k]| <= 200
  {
    seq(|calls|, k requires 0 <= k < |calls| => Take(calls[k].resultSummary, 200))
  }

  /** The step of iteration `i` (from 0) that got a response. */
  function AnalysisStep(i: nat, text: string, usedTools: bool, calls: seq<ToolCall>): ReactStep {
    ReactStep(i + 1, "Iteration " + NatToString(i + 1) + ": Analyzing violations and determining next action",
              Reasoning(text), if usedTools then "tool_calls" else "final_analysis", calls, Findings(calls))
  }

  function TimeoutStep(i: nat): ReactStep {
    ReactStep(i + 1, "Iteration timed out", "Claude API call exceeded 30 second timeout", "timeout", [], [])
  }

  function ErrorStep(i: nat, message: string): ReactStep {
    ReactStep(i + 1, "Error in iteration: " + message, "Falling back to basic analysis", "error_recovery", [], [])
  }

  /**
   * The step iteration `i` records for the reply it got: a timeout or an
   * exception is recorded as such; a response without tool requests is the
   * final analysis; a response with requests records the processed calls
   * and their findings, or the error of the tool that raised.
   */
  predicate StepFor(i: nat, reply: Reply, step: ReactStep) {
    match reply
    case Timeout => step == TimeoutStep(i)
    case Failure(message) => step == ErrorStep(i, message)
    case Response(content, _, _, _) =>
      if ToolRequests(content) == [] then step == AnalysisStep(i, LastText(content), false, [])
      else
        || (step == AnalysisStep(i, LastText(content), true, step.toolCalls) && |step.toolCalls| == |ToolRequests(content)|)
        || (step.stepNumber == i + 1 && step.action == "error_recovery" && step.toolCalls == [])
  }

  /** The four actions a step records are four different strings. */
  lemma ActionsDistinct()
    ensures "tool_calls" != "final_analysis" && "tool_calls" != "timeout" && "tool_calls" != "error_recovery"
    ensures "final_analysis" != "timeout" && "final_analysis" != "error_recovery" && "timeout" != "error_recovery"
  {
    assert "final_analysis"[0] != "error_recovery"[0];
  }

  /** Every step's number is its position counted from one, and only the named actions occur. */
  lemma StepForNumbers(i: nat, reply: Reply, step: ReactStep)
    requires StepFor(i, reply, step)
    ensures step.stepNumber == i + 1 && step.stepNumber >= 1
    ensures step.action in {"tool_calls", "final_analysis", "timeout", "error_recovery"}
    ensures step.action == "timeout" <==> reply.Timeout?
    ensures step.action == "final_analysis" <==> reply.Response? && ToolRequests(reply.content) == []
  {
    ActionsDistinct();
  }

  // ---------------------------------------------------------------------------
  // The loop

  /** The state the loop carries from one iteration to the next. */
  datatype LoopState = LoopState(
    messages: seq<Message>, trace: seq<ReactStep>, citations: seq<GuideCitation>,
    simulations: seq<SimulationResult>, tokensIn: nat, tokensOut: nat)

  /** How an iteration ends: the loop goes on, breaks out, or returns the parsed analysis. */
  datatype Turn = Continue | Broke | Finished(analysis: Dict)

  function InputTokens(reply: Reply): nat {
    if reply.Response? then reply.inputTokens else 0
  }

  function OutputTokens(reply: Reply): nat {
    if reply.Response? then reply.outputTokens else 0
  }

  /** The input tokens the model reported over the given calls. */
  function TokensIn(asked: seq<(seq<Message>, bool)>, model: Model): nat {
    if |asked| == 0 then 0
    else TokensIn(asked[..|asked| - 1], model) + InputTokens(model(asked[|asked| - 1].0, asked[|asked| - 1].1))
  }

  function TokensOut(asked: seq<(seq<Message>, bool)>, model: Model): nat {
    if |asked| == 0 then 0
    else TokensOut(asked[..|asked| - 1], model) + OutputTokens(model(asked[|asked| - 1].0, asked[|asked| - 1].1))
  }

  /**
   * What one iteration does with the reply it got: records its step, says
   * whether the loop goes on, breaks or returns the parsed analysis, adds
   * the reported tokens, and only extends the conversation.
   */
  predicate Stepped(i: nat, st: LoopState, reply: Reply, codec: Codec, turn: Turn, next: LoopState, step: ReactStep) {
    && next.trace == st.trace + [step] && StepFor(i, reply, step)
    && (turn.Continue? <==> step.action == "tool_calls" && reply.stopReason != "end_turn")
    && (turn.Broke? <==> step.action in {"timeout", "error_recovery"})
    && (turn.Finished? ==> reply.Response? && turn.analysis == ParsedResponse(LastText(reply.content), codec))
    && (turn.Finished? ==> step.action in {"tool_calls", "final_analysis"})
    && next.tokensIn == st.tokensIn + InputTokens(reply) && next.tokensOut == st.tokensOut + OutputTokens(reply)
    && st.messages <= next.messages
    && (CitationsValid(st.citations) ==> CitationsValid(next.citations))
  }

  /**
   * The body of one iteration after the model answered: the tokens are
   * added, the tools run, the step recorded, and the conversation extended
   * by the response and the tool results when there were requests.
   */
  method ReactIteration(i: nat, st: LoopState, reply: Reply, s: LM.LoanScenario, services: Services, codec: Codec,
                        errorText: PyError -> string) returns (turn: Turn, next: LoopState, step: ReactStep)
    ensures Stepped(i, st, reply, codec, turn, next, step)
  {
    ActionsDistinct();
    match reply
    case Timeout =>
      step := TimeoutStep(i);
      next := st.(trace := st.trace + [step]);
      turn := Broke;
    case Failure(message) =>
      step := ErrorStep(i, message);
      next := st.(trace := st.trace + [step]);
      turn := Broke;
    case Response(content, stopReason, inputTokens, outputTokens) =>
      var requests, text := ScanBlocks(content);
      if requests == [] {
        step := AnalysisStep(i, text, false, []);
        next := st.(tokensIn := st.tokensIn + inputTokens, tokensOut := st.tokensOut + outputTokens, trace := st.trace + [step]);
        var analysis := ParseFinalResponse(text, codec);
        turn := Finished(analysis);
      } else {
        turn, next, step := ToolIteration(i, st, reply, requests, text, s, services, codec, errorText);
      }
  }

  /** An iteration whose response asked for tools: they run, and the conversation grows by the response and their results. */
  method ToolIteration(i: nat, st: LoopState, reply: Reply, requests: seq<ToolRequest>, text: string,
                       s: LM.LoanScenario, services: Services, codec: Codec, errorText: PyError -> string)
    returns (turn: Turn, next: LoopState, step: ReactStep)
    requires reply.Response? && requests == ToolRequests(reply.content) && requests != [] && text == LastText(reply.content)
    ensures Stepped(i, st, reply, codec, turn, next, step)
  {
    ActionsDistinct();
    var batch := RunTools(requests, s, services);
    if batch.Err? {
      step := ErrorStep(i, errorText(batch.error));
      next := st.(tokensIn := st.tokensIn + reply.inputTokens, tokensOut := st.tokensOut + reply.outputTokens,
                  trace := st.trace + [step]);
      assert StepFor(i, reply, step);
      return Broke, next, step;
    }
    turn, next, step := ToolsRan(i, st, reply, text, batch.value, codec);
  }

  /** The rest of an iteration whose tools all ran: the step records the calls, and the end of the turn returns the analysis. */
  method ToolsRan(i: nat, st: LoopState, reply: Reply, text: string, b: ToolBatch, codec: Codec)
    returns (turn: Turn, next: LoopState, step: ReactStep)
    requires reply.Response? && ToolRequests(reply.content) != [] && text == LastText(reply.content)
    requires |b.calls| == |ToolRequests(reply.content)| && CitationsValid(b.citations)
    ensures Stepped(i, st, reply, codec, turn, next, step)
  {
    if CitationsValid(st.citations) {
      CitationsAppend(st.citations, b.citations);
    }
    ActionsDistinct();
    step := AnalysisStep(i, text, true, b.calls);
    assert step.action == "tool_calls" && StepFor(i, reply, step);
    next := st.(tokensIn := st.tokensIn + reply.inputTokens, tokensOut := st.tokensOut + reply.outputTokens,
                citations := st.citations + b.citations, simulations := st.simulations + b.simulations,
                messages := st.messages + [AssistantBlocks(reply.content), ToolResults(b.results)],
                trace := st.trace + [step]);
    if reply.stopReason == "end_turn" {
      var analysis := ParseFinalResponse(text, codec);
      turn := Finished(analysis);
    } else {
      turn := Continue;
    }
  }

  /** The tools of one response: a successful batch records one call per request, and its citations pass their checks. */
  method RunTools(requests: seq<ToolRequest>, s: LM.LoanScenario, services: Services) returns (r: Result<ToolBatch>)
    ensures r.Ok? ==> |r.value.calls| == |requests| && CitationsValid(r.value.citations)
    ensures r.Ok? <==> AllOk(Outcomes(requests, Dispatch(s, services)))
  {
    r := ProcessToolCalls(requests, s, services);
    if r.Ok? {
      BatchCitationsValid(requests, s, services);
    }
  }

  /** The loop's result: the analysis, the trace, what the tools collected, and the token counts. */
  datatype LoopResult = LoopResult(
    analysis: Dict, trace: seq<ReactStep>, citations: seq<GuideCitation>,
    simulations: seq<SimulationResult>, tokensIn: nat, tokensOut: nat)

  /** What the final call gives: the parsed first text of a response, or the empty dict on a timeout or an exception. */
  function FinalAnalysis(reply: Reply, codec: Codec): Dict {
    if reply.Response? then ParsedResponse(FirstText(reply.content), codec) else []
  }

  /** The conversation only grows from one call to the next. */
  predicate Grows(asked: seq<(seq<Message>, bool)>) {
    forall k :: 0 <= k < |asked| - 1 ==> asked[k].0 <= asked[k + 1].0
  }

  /** One step per iteration, which was offered the tools, recording what the model answered. */
  predicate StepsFit(asked: seq<(seq<Message>, bool)>, trace: seq<ReactStep>, model: Model) {
    |trace| <= |asked| && forall k :: 0 <= k < |trace| ==> asked[k].1 && StepFor(k, model(asked[k].0, true), trace[k])
  }

  /** Every step but the last went on to the tools. */
  predicate ToolsUntilLast(trace: seq<ReactStep>) {
    forall k :: 0 <= k < |trace| - 1 ==> trace[k].action == "tool_calls"
  }

  lemma GrowsAppend(asked: seq<(seq<Message>, bool)>, x: (seq<Message>, bool))
    requires Grows(asked) && (|asked| > 0 ==> asked[|asked| - 1].0 <= x.0)
    ensures Grows(asked + [x])
  {
  }

  lemma StepsFitAppend(asked: seq<(seq<Message>, bool)>, trace: seq<ReactStep>, model: Model, x: (seq<Message>, bool), step: ReactStep)
    requires StepsFit(asked, trace, model) && |trace| == |asked| && x.1 && StepFor(|trace|, model(x.0, true), step)
    ensures StepsFit(asked + [x], trace + [step], model)
  {
  }

  lemma StepsFitExtend(asked: seq<(seq<Message>, bool)>, trace: seq<ReactStep>, model: Model, x: (seq<Message>, bool))
    requires StepsFit(asked, trace, model)
    ensures StepsFit(asked + [x], trace, model)
  {
  }

  lemma TokensAppend(asked: seq<(seq<Message>, bool)>, model: Model, x: (seq<Message>, bool))
    ensures TokensIn(asked + [x], model) == TokensIn(asked, model) + InputTokens(model(x.0, x.1))
    ensures TokensOut(asked + [x], model) == TokensOut(asked, model) + OutputTokens(model(x.0, x.1))
  {
    assert (asked + [x])[..|asked|] == asked;
  }

  /**
   * What a run of the loop promises, given the model calls it made in
   * order (`asked`: each conversation and whether tools were offered).
   */
  predicate LoopFits(prompt: string, maxIterations: nat, model: Model, codec: Codec, r: LoopResult, asked: seq<(seq<Message>, bool)>) {
    // at most one call per iteration and one final call, the first on the prompt alone
    && 1 <= |asked| <= maxIterations + 1
    && |r.trace| <= maxIterations
    && (|asked| == |r.trace| || |asked| == |r.trace| + 1)
    && [UserText(prompt)] <= asked[0].0 && (|r.trace| > 0 ==> asked[0].0 == [UserText(prompt)])
    && Grows(asked)
    && StepsFit(asked, r.trace, model)
    && ToolsUntilLast(r.trace)
    // returned from inside the loop: the last step is the analysis the model gave
    && (|asked| == |r.trace| ==>
          && |r.trace| > 0 && r.trace[|r.trace| - 1].action in {"tool_calls", "final_analysis"}
          && r.analysis == ParsedResponse(LastText(model(asked[|r.trace| - 1].0, true).content), codec))
    // otherwise one final call without tools, after a break or all iterations
    && (|asked| == |r.trace| + 1 ==>
          && !asked[|r.trace|].1 && |asked[|r.trace|].0| > 0 && asked[|r.trace|].0[|asked[|r.trace|].0| - 1] == UserText(FinalRequest)
          && r.analysis == FinalAnalysis(model(asked[|r.trace|].0, false), codec)
          && (|r.trace| < maxIterations ==> |r.trace| > 0 && r.trace[|r.trace| - 1].action in {"timeout", "error_recovery"}))
    // the tokens are those every response reported
    && r.tokensIn == TokensIn(asked, model) && r.tokensOut == TokensOut(asked, model)
    && CitationsValid(r.citations)
  }

  /** A run makes between one and `maxIterations + 1` model calls, and records at most one step per iteration. */
  lemma LoopCallBound(prompt: string, maxIterations: nat, model: Model, codec: Codec, r: LoopResult, asked: seq<(seq<Message>, bool)>)
    requires LoopFits(prompt, maxIterations, model, codec, r, asked)
    ensures |r.trace| <= |asked| <= maxIterations + 1
    ensures forall k :: 0 <= k < |r.trace| ==> r.trace[k].stepNumber == k + 1
    ensures forall k :: 0 <= k < |r.trace| && r.trace[k].action in {"timeout", "error_recovery"} ==> k == |r.trace| - 1
  {
    forall k | 0 <= k < |r.trace|
      ensures r.trace[k].stepNumber == k + 1
    {
      StepForNumbers(k, model(asked[k].0, true), r.trace[k]);
    }
  }

  /** What holds after each iteration that did not return: the calls so far, their steps and tokens, and whether the last one broke out. */
  predicate Progress(prompt: string, model: Model, st: LoopState, asked: seq<(seq<Message>, bool)>, broke: bool) {
    && |st.trace| == |asked|
    && (|asked| == 0 ==> st.messages == [UserText(prompt)] && !broke)
    && (|asked| > 0 ==> asked[0].0 == [UserText(prompt)] && asked[|asked| - 1].0 <= st.messages)
    && Grows(asked) && StepsFit(asked, st.trace, model) && ToolsUntilLast(st.trace)
    && (broke ==> st.trace[|asked| - 1].action in {"timeout", "error_recovery"})
    && (!broke && |asked| > 0 ==> st.trace[|asked| - 1].action == "tool_calls")
    && st.tokensIn == TokensIn(asked, model) && st.tokensOut == TokensOut(asked, model)
    && CitationsValid(st.citations)
  }

  /** One iteration of `_run_react_loop`: the model is asked with the tools offered, and the reply is processed. */
  method Advance(prompt: string, maxIterations: nat, st: LoopState, s: LM.LoanScenario, model: Model, services: Services, codec: Codec,
                 errorText: PyError -> string, ghost asked: seq<(seq<Message>, bool)>)
    returns (turn: Turn, next: LoopState, ghost asked': seq<(seq<Message>, bool)>)
    requires Progress(prompt, model, st, asked, false) && |asked| < maxIterations
    ensures asked' == asked + [(st.messages, true)]
    ensures !turn.Finished? ==> Progress(prompt, model, next, asked', turn.Broke?)
    ensures turn.Finished? ==> IterationsFit(prompt, maxIterations, model, codec, next, Some(turn.analysis), asked')
  {
    var reply := model(st.messages, true);
    var step;
    turn, next, step := ReactIteration(|st.trace|, st, reply, s, services, codec, errorText);
    asked' := asked + [(st.messages, true)];
    if turn.Finished? {
      FinishedFits(prompt, maxIterations, model, codec, st, asked, turn, next, step);
    } else {
      ContinuedFits(prompt, model, codec, st, asked, turn, next, step);
    }
  }

  /** An iteration that did not return keeps the loop's invariant, and records whether it broke out. */
  lemma ContinuedFits(prompt: string, model: Model, codec: Codec, st: LoopState, asked: seq<(seq<Message>, bool)>,
                      turn: Turn, next: LoopState, step: ReactStep)
    requires Progress(prompt, model, st, asked, false)
    requires Stepped(|asked|, st, model(st.messages, true), codec, turn, next, step) && !turn.Finished?
    ensures Progress(prompt, model, next, asked + [(st.messages, true)], turn.Broke?)
  {
    var x := (st.messages, true);
    GrowsAppend(asked, x);
    StepsFitAppend(asked, st.trace, model, x, step);
    TokensAppend(asked, model, x);
    ToolsAppend(st.trace, step);
    assert (asked + [x])[|asked|] == x && next.trace[|asked|] == step;
  }

  /** An iteration that returned ends the iterations with the analysis its reply holds. */
  lemma FinishedFits(prompt: string, maxIterations: nat, model: Model, codec: Codec, st: LoopState, asked: seq<(seq<Message>, bool)>,
                     turn: Turn, next: LoopState, step: ReactStep)
    requires Progress(prompt, model, st, asked, false) && |asked| < maxIterations
    requires Stepped(|asked|, st, model(st.messages, true), codec, turn, next, step) && turn.Finished?
    ensures IterationsFit(prompt, maxIterations, model, codec, next, Some(turn.analysis), asked + [(st.messages, true)])
  {
    ActionsDistinct();
    var x := (st.messages, true);
    GrowsAppend(asked, x);
    StepsFitAppend(asked, st.trace, model, x, step);
    TokensAppend(asked, model, x);
    ToolsAppend(st.trace, step);
    assert (asked + [x])[|asked|] == x && next.trace[|asked|] == step;
  }

  lemma ToolsAppend(trace: seq<ReactStep>, step: ReactStep)
    requires ToolsUntilLast(trace) && (|trace| > 0 ==> trace[|trace| - 1].action == "tool_calls")
    ensures ToolsUntilLast(trace + [step])
  {
  }

  /** What the iterations end with: the calls and steps so far, and the analysis when one of them returned. */
  predicate IterationsFit(prompt: string, maxIterations: nat, model: Model, codec: Codec,
                          st: LoopState, returned: Option<Dict>, asked: seq<(seq<Message>, bool)>) {
    && |st.trace| == |asked| <= maxIterations
    && (|asked| == 0 ==> st.messages == [UserText(prompt)])
    && (|asked| > 0 ==> asked[0].0 == [UserText(prompt)] && asked[|asked| - 1].0 <= st.messages)
    && Grows(asked) && StepsFit(asked, st.trace, model) && ToolsUntilLast(st.trace)
    && (returned.Some? ==>
          && |asked| > 0 && st.trace[|asked| - 1].action in {"tool_calls", "final_analysis"}
          && returned.value == ParsedResponse(LastText(model(asked[|asked| - 1].0, true).content), codec))
    && (returned.None? && |asked| < maxIterations ==> |asked| > 0 && st.trace[|asked| - 1].action in {"timeout", "error_recovery"})
    && st.tokensIn == TokensIn(asked, model) && st.tokensOut == TokensOut(asked, model)
    && CitationsValid(st.citations)
  }

  /** The iterations of `_run_react_loop`: each asks the model with the tools offered, until one returns or breaks. */
  method Iterations(prompt: string, maxIterations: nat, s: LM.LoanScenario, model: Model, services: Services, codec: Codec,
                    errorText: PyError -> string) returns (st: LoopState, returned: Option<Dict>, ghost asked: seq<(seq<Message>, bool)>)
    ensures IterationsFit(prompt, maxIterations, model, codec, st, returned, asked)
  {
    asked := [];
    st := LoopState([UserText(prompt)], [], [], [], 0, 0);
    var i := 0;
    var broke := false;
    while i < maxIterations && !broke
      invariant i <= maxIterations && i == |asked|
      invariant Progress(prompt, model, st, asked, broke)
    {
      var turn, next;
      turn, next, asked := Advance(prompt, maxIterations, st, s, model, services, codec, errorText, asked);
      st := next;
      if turn.Finished? {
        return st, Some(turn.analysis), asked;
      }
      broke := turn.Broke?;
      i := i + 1;
    }
    returned := None;
  }

  /** A run that returned from inside the loop fits: its last call gave the analysis. */
  lemma ReturnedFits(prompt: string, maxIterations: nat, model: Model, codec: Codec,
                     st: LoopState, analysis: Dict, asked: seq<(seq<Message>, bool)>)
    requires IterationsFit(prompt, maxIterations, model, codec, st, Some(analysis), asked)
    ensures LoopFits(prompt, maxIterations, model, codec,
                     LoopResult(analysis, st.trace, st.citations, st.simulations, st.tokensIn, st.tokensOut), asked)
  {
  }

  /** A run that made the final call fits: that call, without the tools, gave the analysis. */
  lemma FinalFits(prompt: string, maxIterations: nat, model: Model, codec: Codec,
                  st: LoopState, asked: seq<(seq<Message>, bool)>, messages: seq<Message>, r: LoopResult)
    requires IterationsFit(prompt, maxIterations, model, codec, st, None, asked)
    requires messages == st.messages + [UserText(FinalRequest)]
    requires r.analysis == FinalAnalysis(model(messages, false), codec)
    requires r.trace == st.trace && r.citations == st.citations
    requires r.tokensIn == st.tokensIn + InputTokens(model(messages, false))
    requires r.tokensOut == st.tokensOut + OutputTokens(model(messages, false))
    ensures LoopFits(prompt, maxIterations, model, codec, r, asked + [(messages, false)])
  {
    var x := (messages, false);
    GrowsAppend(asked, x);
    StepsFitExtend(asked, st.trace, model, x);
    TokensAppend(asked, model, x);
    assert (asked + [x])[|asked|] == x;
  }

  /** `_run_react_loop` after the client was obtained: the iterations, then the final call when none returned. */
  method ReactLoop(prompt: string, maxIterations: nat, s: LM.LoanScenario, model: Model, services: Services, codec: Codec,
                   errorText: PyError -> string) returns (r: LoopResult, ghost asked: seq<(seq<Message>, bool)>)
    ensures LoopFits(prompt, maxIterations, model, codec, r, asked)
  {
    var st, returned;
    st, returned, asked := Iterations(prompt, maxIterations, s, model, services, codec, errorText);
    if returned.Some? {
      r := LoopResult(returned.value, st.trace, st.citations, st.simulations, st.tokensIn, st.tokensOut);
      ReturnedFits(prompt, maxIterations, model, codec, st, returned.value, asked);
      return;
    }
    var messages := st.messages + [UserText(FinalRequest)];
    var reply := model(messages, false);
    var analysis: Dict := [];
    var tokensIn, tokensOut := st.tokensIn, st.tokensOut;
    if reply.Response? {
      tokensIn, tokensOut := tokensIn + reply.inputTokens, tokensOut + reply.outputTokens;
      var text := FirstTextOf(reply.content);
      analysis := ParseFinalResponse(text, codec);
    }
    r := LoopResult(analysis, st.trace, st.citations, st.simulations, tokensIn, tokensOut);
    FinalFits(prompt, maxIterations, model, codec, st, asked, messages, r);
    asked := asked + [(messages, false)];
  }

  // ---------------------------------------------------------------------------
  // Result assembly

  /** What `find_fixes` has once the loop and the builders succeeded, with the raw recommended path. */
  datatype Prepared = Prepared(
    loop: LoopResult, fixes: seq<EnhancedFixSuggestion>, sequences: seq<FixSequence>,
    comparison: seq<(string, string)>, path: Json)

  /** The fixes `_build_enhanced_fixes` builds from an analysis. */
  function FixesOf(analysis: Dict, cs: seq<GuideCitation>): Result<seq<EnhancedFixSuggestion>> {
    match Iterate(GetOr(analysis, "enhanced_fixes", JArr([])))
    case Err(_) => Err(TypeError)
    case Ok(raws) => BuiltAt(raws, FixBuilder(cs))
  }

  /** The sequences `_build_fix_sequences` builds from an analysis. */
  function SequencesOf(analysis: Dict): Result<seq<FixSequence>> {
    match Iterate(GetOr(analysis, "fix_sequences", JArr([])))
    case Err(_) => Err(TypeError)
    case Ok(raws) => BuiltKept(raws, SequenceBuilder())
  }

  /** The flat product comparison of `_flatten_to_string_dict`. */
  function Flattened(data: Json, codec: Codec, repr: Json -> string): (r: Result<seq<(string, string)>>)
    ensures r.Ok? <==> data.JObj?
  {
    if data.JObj? then
      Ok(seq(|Items(data.fields)|, k requires 0 <= k < |Items(data.fields)| =>
        (Items(data.fields)[k].0, FlatValue(Items(data.fields)[k].1, codec, repr))))
    else Err(AttributeError)
  }

  /**
   * The recommended path before the result record checks it: a dict gives
   * its primary recommendation, or its JSON text cut to 500 characters when
   * that is falsy; any other value its `str`, or "" when falsy.
   */
  function RawRecommendedPath(analysis: Dict, codec: Codec, repr: Json -> string): (p: Json)
    ensures !GetOr(analysis, "recommended_path", JStr("")).JObj? ==> p.JStr?
    ensures GetOr(analysis, "recommended_path", JStr("")).JStr? ==> p == GetOr(analysis, "recommended_path", JStr(""))
  {
    var raw := GetOr(analysis, "recommended_path", JStr(""));
    if raw.JObj? then
      var primary := GetOr(raw.fields, "primary_recommendation", JStr(""));
      if Truthy(primary) then primary else JStr(Take(codec.dumps(raw), 500))
    else JStr(if Truthy(raw) then PyStr(raw, repr) else "")
  }

  /** Everything `find_fixes` computes before recording the usage; the builders' first error aborts it. */
  function Preparation(loop: LoopResult, codec: Codec, repr: Json -> string): Result<Prepared> {
    match FixesOf(loop.analysis, loop.citations)
    case Err(e) => Err(e)
    case Ok(fixes) =>
      match SequencesOf(loop.analysis)
      case Err(e) => Err(e)
      case Ok(sequences) =>
        match Flattened(GetOr(loop.analysis, "product_comparison", JObj([])), codec, repr)
        case Err(e) => Err(e)
        case Ok(comparison) => Ok(Prepared(loop, fixes, sequences, comparison, RawRecommendedPath(loop.analysis, codec, repr)))
  }

  /** The result record: it is refused when the recommended path is not a string. */
  function Finish(p: Prepared, demo: bool, elapsedMs: int): (r: Result<FixFinderResult>)
    ensures r.Ok? <==> p.path.JStr?
    ensures r.Err? ==> r.error == ValidationError
    ensures r.Ok? ==> r.value.reactTrace == (if demo then p.loop.trace else [])
    ensures r.Ok? ==> r.value.totalIterations == |p.loop.trace| && r.value.tokensUsed == p.loop.tokensIn + p.loop.tokensOut
    ensures r.Ok? ==> r.value.simulations == p.loop.simulations && r.value.recommendedPath == p.path.s
  {
    if p.path.JStr? then
      Ok(FixFinderResult(p.fixes, p.sequences, p.loop.simulations, p.path.s, p.comparison,
                         if demo then p.loop.trace else [], |p.loop.trace|, elapsedMs, p.loop.tokensIn + p.loop.tokensOut))
    else Err(ValidationError)
  }

  const FailureText := "Analysis failed. Please review basic fix suggestions."

  /** The result of a run that raised. */
  function FailureResult(elapsedMs: int): (r: FixFinderResult)
    ensures r.enhancedFixes == [] && r.fixSequences == [] && r.simulations == [] && r.productComparison == [] && r.reactTrace == []
    ensures r.recommendedPath == FailureText && r.totalIterations == 0 && r.tokensUsed == 0 && r.totalTimeMs == elapsedMs
  {
    FixFinderResult([], [], [], FailureText, [], [], 0, elapsedMs, 0)
  }

  /** How a run ends: the result record, or the error that aborted it. */
  function Outcome(loop: Result<LoopResult>, demo: bool, elapsedMs: int, codec: Codec, repr: Json -> string): Result<FixFinderResult> {
    match loop
    case Err(e) => Err(e)
    case Ok(l) =>
      match Preparation(l, codec, repr)
      case Err(e) => Err(e)
      case Ok(p) => Finish(p, demo, elapsedMs)
  }

  /** The result `find_fixes` returns: the record, or the failure result whatever raised. */
  function Returned(loop: Result<LoopResult>, demo: bool, elapsedMs: int, codec: Codec, repr: Json -> string): (r: FixFinderResult)
    ensures Outcome(loop, demo, elapsedMs, codec, repr).Err? ==> r == FailureResult(elapsedMs)
    ensures Outcome(loop, demo, elapsedMs, codec, repr).Ok? ==> r == Outcome(loop, demo, elapsedMs, codec, repr).value
  {
    match Outcome(loop, demo, elapsedMs, codec, repr)
    case Ok(x) => x
    case Err(_) => FailureResult(elapsedMs)
  }

  /**
   * A successful run exposes its trace only in demo mode and counts its
   * iterations and tokens; a run that raised returns the failure result,
   * with no lists and no tokens.
   */
  lemma ReturnedSpec(loop: Result<LoopResult>, demo: bool, elapsedMs: int, codec: Codec, repr: Json -> string)
    ensures loop.Err? ==> Returned(loop, demo, elapsedMs, codec, repr) == FailureResult(elapsedMs)
    ensures Outcome(loop, demo, elapsedMs, codec, repr).Ok? ==>
      var r := Returned(loop, demo, elapsedMs, codec, repr);
      && r.reactTrace == (if demo then loop.value.trace else [])
      && r.totalIterations == |loop.value.trace|
      && r.tokensUsed == loop.value.tokensIn + loop.value.tokensOut
      && r.simulations == loop.value.simulations
    ensures !demo ==> Returned(loop, demo, elapsedMs, codec, repr).reactTrace == []
  {
  }

  /** The usage record of a run: a success with the loop's tokens, or a failure with no tokens and the error's text. */
  function RecordFor(outcome: Result<FixFinderResult>, loop: Result<LoopResult>, modelName: string, elapsedMs: int,
                     errorText: PyError -> string): (u: UsageRecord)
    ensures u.success <==> outcome.Ok?
    ensures u.serviceName == "fix_finder" && u.modelName == modelName && u.durationMs == elapsedMs
    ensures outcome.Err? ==> u.TokensTotal() == 0 && u.errorMessage == Some(errorText(outcome.error))
    ensures outcome.Ok? && loop.Ok? ==> u.tokensInput == loop.value.tokensIn && u.tokensOutput == loop.value.tokensOut
  {
    match outcome
    case Ok(_) =>
      UsageRecord("fix_finder", modelName, "anthropic", "fix_finding",
                  if loop.Ok? then loop.value.tokensIn else 0, if loop.Ok? then loop.value.tokensOut else 0, elapsedMs, true, None)
    case Err(e) => UsageRecord("fix_finder", modelName, "anthropic", "fix_finding", 0, 0, elapsedMs, false, Some(errorText(e)))
  }

  /**
   * The usage records `find_fixes` as written sends, in order: a run whose
   * builders succeeded records a success before the result record is
   * built, so a path the record refuses adds a second, failed record.
   */
  function RecordsAsWritten(loop: Result<LoopResult>, demo: bool, elapsedMs: int, modelName: string, codec: Codec,
                            repr: Json -> string, errorText: PyError -> string): (us: seq<UsageRecord>)
    ensures 1 <= |us| <= 2
  {
    var failed := UsageRecord("fix_finder", modelName, "anthropic", "fix_finding", 0, 0, elapsedMs, false, None);
    match loop
    case Err(e) => [failed.(errorMessage := Some(errorText(e)))]
    case Ok(l) =>
      match Preparation(l, codec, repr)
      case Err(e) => [failed.(errorMessage := Some(errorText(e)))]
      case Ok(p) =>
        var succeeded := UsageRecord("fix_finder", modelName, "anthropic", "fix_finding", l.tokensIn, l.tokensOut, elapsedMs, true, None);
        match Finish(p, demo, elapsedMs)
        case Ok(_) => [succeeded]
        case Err(e) => [succeeded, failed.(errorMessage := Some(errorText(e)))]
  }

  /** The analysis of the finding: a dict path whose primary recommendation is a number. */
  function NumericPrimaryAnalysis(): Dict {
    [("recommended_path", JObj([("primary_recommendation", JNum(1.0))]))]
  }

  /**
   * With that analysis and an otherwise empty loop result, `find_fixes` as
   * written records the usage twice, once as a success and once as a
   * failure, and returns the failure result.
   */
  lemma DoubleRecordAsWritten(demo: bool, elapsedMs: int, modelName: string, codec: Codec, repr: Json -> string, errorText: PyError -> string)
    ensures var loop := Ok(LoopResult(NumericPrimaryAnalysis(), [], [], [], 7, 3));
      var us := RecordsAsWritten(loop, demo, elapsedMs, modelName, codec, repr, errorText);
      && |us| == 2 && us[0].success && !us[1].success
      && Returned(loop, demo, elapsedMs, codec, repr) == FailureResult(elapsedMs)
  {
    var a := NumericPrimaryAnalysis();
    var l := LoopResult(a, [], [], [], 7, 3);
    assert GetOr(a, "enhanced_fixes", JArr([])) == JArr([]);
    assert GetOr(a, "fix_sequences", JArr([])) == JArr([]);
    assert GetOr(a, "product_comparison", JObj([])) == JObj([]);
    assert GetOr(a, "recommended_path", JStr("")) == JObj([("primary_recommendation", JNum(1.0))]);
    assert GetOr([("primary_recommendation", JNum(1.0))], "primary_recommendation", JStr("")) == JNum(1.0);
    assert RawRecommendedPath(a, codec, repr) == JNum(1.0);
    assert Preparation(l, codec, repr).Ok?;
  }

  /** The corrected assembly records exactly one usage per run: a success exactly when the result was built. */
  lemma OneRecordPerRun(loop: Result<LoopResult>, demo: bool, elapsedMs: int, modelName: string, codec: Codec,
                        repr: Json -> string, errorText: PyError -> string)
    ensures var outcome := Outcome(loop, demo, elapsedMs, codec, repr);
      var u := RecordFor(outcome, loop, modelName, elapsedMs, errorText);
      && (u.success <==> outcome.Ok? && Returned(loop, demo, elapsedMs, codec, repr) == outcome.value)
      && (!u.success ==> Returned(loop, demo, elapsedMs, codec, repr) == FailureResult(elapsedMs) && u.TokensTotal() == 0)
  {
  }

  /** The records in the table and the buffer together. */
  function Written(registry: Registry, db: Database): nat
    reads registry, registry.tracker, db
  {
    |db.rows| + (if registry.tracker == null then 0 else |registry.tracker.inMemory|)
  }

  /** The builders of `find_fixes` on the loop's analysis, stopping at the first that raises. */
  method Prepare(l: LoopResult, codec: Codec, repr: Json -> string) returns (p: Result<Prepared>)
    ensures p == Preparation(l, codec, repr)
  {
    var fixes := BuildEnhancedFixes(l.analysis, l.citations);
    if fixes.Err? {
      return Err(fixes.error);
    }
    var sequences := BuildFixSequences(l.analysis);
    if sequences.Err? {
      return Err(sequences.error);
    }
    var comparison := FlattenToStringDict(GetOr(l.analysis, "product_comparison", JObj([])), codec, repr);
    if comparison.Err? {
      return Err(comparison.error);
    }
    ghost var data := GetOr(l.analysis, "product_comparison", JObj([]));
    assert comparison.value == Flattened(data, codec, repr).value;
    p := Ok(Prepared(l, fixes.value, sequences.value, comparison.value, RawRecommendedPath(l.analysis, codec, repr)));
  }

  // ---------------------------------------------------------------------------
  // The service

  /** `FixFinderService`: its settings, and the client it creates on first use. */
  class FixFinderService {
    const apiKey: string
    const modelName: string
    const maxIterations: nat
    var hasClient: bool

    /** The service with the configured key, model and iteration bound (3 by default). */
    constructor (apiKey: string, modelName: string, maxIterations: nat := 3)
      ensures this.apiKey == apiKey && this.modelName == modelName && this.maxIterations == maxIterations && !hasClient
    {
      this.apiKey := apiKey;
      this.modelName := modelName;
      this.maxIterations := maxIterations;
      hasClient := false;
    }

    /** `_ensure_client`: the client is created once, and only with a key. */
    method EnsureClient() returns (r: Result<bool>)
      modifies this
      ensures r.Ok? <==> old(hasClient) || apiKey != ""
      ensures r.Err? ==> r.error == ValueError && !hasClient
      ensures r.Ok? ==> hasClient
    {
      if !hasClient {
        if apiKey == "" {
          return Err(ValueError);
        }
        hasClient := true;
      }
      r := Ok(true);
    }

    /** `_run_react_loop`: without a client and a key nothing is asked; otherwise the loop runs. */
    method RunReactLoop(prompt: string, s: LM.LoanScenario, model: Model, services: Services, codec: Codec,
                        errorText: PyError -> string) returns (r: Result<LoopResult>, ghost asked: seq<(seq<Message>, bool)>)
      modifies this
      ensures r.Err? <==> !old(hasClient) && apiKey == ""
      ensures r.Err? ==> r.error == ValueError && asked == []
      ensures r.Ok? ==> LoopFits(prompt, maxIterations, model, codec, r.value, asked)
    {
      var client := EnsureClient();
      if client.Err? {
        return Err(client.error), [];
      }
      var loop;
      loop, asked := ReactLoop(prompt, maxIterations, s, model, services, codec, errorText);
      r := Ok(loop);
    }

    /** The work of `find_fixes` up to the usage record: the loop, then the builders. */
    method RunAndPrepare(prompt: string, s: LM.LoanScenario, model: Model, services: Services, codec: Codec,
                         errorText: PyError -> string) returns (loop: Result<LoopResult>, p: Result<Prepared>, ghost asked: seq<(seq<Message>, bool)>)
      modifies this
      ensures loop.Err? <==> !old(hasClient) && apiKey == ""
      ensures loop.Ok? ==> LoopFits(prompt, maxIterations, model, codec, loop.value, asked)
      ensures loop.Err? ==> p == Err(loop.error)
      ensures loop.Ok? ==> p == Preparation(loop.value, codec, services.repr)
    {
      loop, asked := RunReactLoop(prompt, s, model, services, codec, errorText);
      if loop.Err? {
        p := Err(loop.error);
      } else {
        p := Prepare(loop.value, codec, services.repr);
      }
    }

    /**
     * `find_fixes`, with the usage recorded once the result is known: one
     * record per run, a success with the loop's tokens when the result was
     * built, otherwise a failure with the error's text and the failure result.
     */
    method FindFixes(registry: Registry, db: Database, prompt: string, s: LM.LoanScenario, model: Model, services: Services,
                     codec: Codec, errorText: PyError -> string, demo: bool, elapsedMs: int)
      returns (result: FixFinderResult, ghost loop: Result<LoopResult>, ghost asked: seq<(seq<Message>, bool)>, ghost usage: UsageRecord)
      modifies this, registry, registry.tracker, db
      ensures loop.Err? <==> !old(hasClient) && apiKey == ""
      ensures loop.Ok? ==> LoopFits(prompt, maxIterations, model, codec, loop.value, asked)
      ensures result == Returned(loop, demo, elapsedMs, codec, services.repr)
      ensures usage == RecordFor(Outcome(loop, demo, elapsedMs, codec, services.repr), loop, modelName, elapsedMs, errorText)
      ensures registry.tracker != null
      ensures Sent(old(db.rows), if old(registry.tracker) == null then [] else old(registry.tracker.inMemory),
                   db.rows, registry.tracker.inMemory, usage)
      ensures Written(registry, db) == old(Written(registry, db)) + 1
    {
      var l, p;
      l, p, asked := RunAndPrepare(prompt, s, model, services, codec, errorText);
      loop := l;
      var outcome := match p case Err(e) => Err(e) case Ok(pp) => Finish(pp, demo, elapsedMs);
      assert outcome == Outcome(loop, demo, elapsedMs, codec, services.repr);
      usage := RecordFor(outcome, loop, modelName, elapsedMs, errorText);
      if outcome.Ok? {
        registry.RecordUsage("fix_finder", modelName, "anthropic", "fix_finding", db,
                             l.value.tokensIn, l.value.tokensOut, elapsedMs, true, None);
        result := outcome.value;
      } else {
        registry.RecordUsage("fix_finder", modelName, "anthropic", "fix_finding", db, 0, 0, elapsedMs, false, Some(errorText(outcome.error)));
        result := FailureResult(elapsedMs);
      }
    }

    /**
     * `find_fixes` as written: the success is recorded before the result
     * record is built, and the failure handler records again when building
     * it raises.
     */
    method FindFixesAsWritten(registry: Registry, db: Database, prompt: string, s: LM.LoanScenario, model: Model, services: Services,
                              codec: Codec, errorText: PyError -> string, demo: bool, elapsedMs: int)
      returns (result: FixFinderResult, ghost loop: Result<LoopResult>)
      modifies this, registry, registry.tracker, db
      ensures loop.Err? <==> !old(hasClient) && apiKey == ""
      ensures result == Returned(loop, demo, elapsedMs, codec, services.repr)
      ensures registry.tracker != null
      ensures Written(registry, db) == old(Written(registry, db)) + |RecordsAsWritten(loop, demo, elapsedMs, modelName, codec, services.repr, errorText)|
    {
      var l, p;
      ghost var asked;
      l, p, asked := RunAndPrepare(prompt, s, model, services, codec, errorText);
      loop := l;
      ghost var records := RecordsAsWritten(loop, demo, elapsedMs, modelName, codec, services.repr, errorText);
      if p.Err? {
        assert |records| == 1;
        registry.RecordUsage("fix_finder", modelName, "anthropic", "fix_finding", db, 0, 0, elapsedMs, false, Some(errorText(p.error)));
        return FailureResult(elapsedMs), loop;
      }
      registry.RecordUsage("fix_finder", modelName, "anthropic", "fix_finding", db,
                           l.value.tokensIn, l.value.tokensOut, elapsedMs, true, None);
      assert Written(registry, db) == old(Written(registry, db)) + 1;
      var built := Finish(p.value, demo, elapsedMs);
      if built.Err? {
        assert |records| == 2;
        registry.RecordUsage("fix_finder", modelName, "anthropic", "fix_finding", db, 0, 0, elapsedMs, false, Some(errorText(built.error)));
        return FailureResult(elapsedMs), loop;
      }
      assert |records| == 1;
      result := built.value;
    }
  }
}
