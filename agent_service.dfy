/**
 * The autonomous agent: a bounded Thought -> Action -> Observation loop over an
 * in-memory session table and a tool registry keyed by tool name.
 *
 * The pure part (prompt text, reply parsing, one iteration, the whole run) is written
 * as functions; the session table, the registry and the loop that mutates a session
 * are a class whose methods are proved against those functions.
 */
module AgentService {
  import opened Wrappers
  import opened JsText
  import opened ToolBase
  import WebSearch
  import CodeAnalysis

  /** The safety ceiling on loop iterations, hence on model calls per run. */
  const MaxSteps: nat := 5
  /** The action name that ends a run with an answer. */
  const FinalAnswer: string := "FINAL_ANSWER"
  /** Characters of each context file that reach the prompt. */
  const FileBudget: nat := 2000
  const PartialPrefix: string := "Task limit reached. " + "Partial result: "
  const ParseFailurePrefix: string := "Failed to parse " + "JSON response: "
  const NoThought: string := "No thought provided"

  datatype Status = Idle | Running | WaitingForAction | Completed | Error

  /** One iteration's record; `observation` is written after a tool is dispatched. */
  datatype Step = Step(thought: string, action: Option<string>, actionInput: Input, observation: Option<string>)

  /** A file handed to the agent as context. */
  datatype ContextFile = ContextFile(name: string, content: string)

  /**
   * What `JSON.parse` yields for the members the loop reads: each may be absent.
   * The decoder itself is a parameter of the model (`Decoder`): `None` stands for
   * `JSON.parse` throwing, or returning `null`, whose `.thought` throws.
   */
  datatype Decoded = Decoded(thought: Option<string>, action: Option<string>, actionInput: Input)

  type Decoder = string -> Option<Decoded>

  /**
   * The hosted model, as an oracle: given the credential, the prompt and the index of
   * the call within the run, it answers with reply text or fails with a message.
   */
  type ModelOracle = (string, string, nat) -> Result<string, string>

  /** The registered tools: the registry holds only these two kinds. */
  datatype Tool = WebSearchTool | CodeAnalysisTool {
    function Definition(): ToolDefinition {
      match this
      case WebSearchTool => WebSearch.GetDefinition()
      case CodeAnalysisTool => CodeAnalysis.GetDefinition()
    }

    /** The tool's `name` field, the key it is registered under. */
    function Name(): string {
      match this
      case WebSearchTool => WebSearch.Name
      case CodeAnalysisTool => CodeAnalysis.Name
    }

    /** The name is the one the descriptor publishes. */
    lemma NamePublished()
      ensures Name() == Definition().name
    {
    }

    function Execute(params: Input): ToolResult {
      match this
      case WebSearchTool => WebSearch.Execute(params)
      case CodeAnalysisTool => CodeAnalysis.Execute(params)
    }
  }

  // ---------------------------------------------------------------------------
  // The registry: a JavaScript Map from tool name to tool, which keeps insertion order.

  /** No two registered tools share a name. */
  predicate UniqueNames(tools: seq<Tool>) {
    forall i, j :: 0 <= i < j < |tools| ==> tools[i].Name() != tools[j].Name()
  }

  /** `tools.get(name)`. */
  function Lookup(tools: seq<Tool>, name: string): (r: Option<Tool>)
    ensures r.Some? <==> exists i :: 0 <= i < |tools| && tools[i].Name() == name
    ensures r.Some? ==> r.value in tools && r.value.Name() == name
  {
    if tools == [] then None
    else if tools[0].Name() == name then Some(tools[0])
    else Lookup(tools[1..], name)
  }

  /** `tools.set(tool.name, tool)`: replaces an entry in place, or appends a new one. */
  function Register(tools: seq<Tool>, tool: Tool): (r: seq<Tool>)
    ensures |r| == |tools| || r == tools + [tool]
  {
    if tools == [] then [tool]
    else if tools[0].Name() == tool.Name() then [tool] + tools[1..]
    else [tools[0]] + Register(tools[1..], tool)
  }

  /** After registering a tool, its name finds it and every other name finds what it found before. */
  lemma {:induction false} RegisterThenLookup(tools: seq<Tool>, tool: Tool, name: string)
    ensures Lookup(Register(tools, tool), name) ==
            if name == tool.Name() then Some(tool) else Lookup(tools, name)
  {
    if tools != [] && tools[0].Name() != tool.Name() {
      RegisterThenLookup(tools[1..], tool, name);
      assert Register(tools, tool)[1..] == Register(tools[1..], tool);
    }
  }

  /**
   * Registering either appends a tool whose name was absent, or keeps the length and the
   * name found at every position.
   */
  lemma {:induction false} RegisterShape(tools: seq<Tool>, tool: Tool)
    ensures var r := Register(tools, tool);
      (Lookup(tools, tool.Name()).None? && r == tools + [tool]) ||
      (|r| == |tools| && forall k :: 0 <= k < |tools| ==> r[k].Name() == tools[k].Name())
  {
    if tools != [] && tools[0].Name() != tool.Name() {
      var rest := Register(tools[1..], tool);
      RegisterShape(tools[1..], tool);
      assert Register(tools, tool) == [tools[0]] + rest;
      if |rest| == |tools[1..]| {
        forall k | 0 <= k < |tools|
          ensures ([tools[0]] + rest)[k].Name() == tools[k].Name()
        {
          if k > 0 {
            assert ([tools[0]] + rest)[k] == rest[k - 1];
            assert tools[1..][k - 1] == tools[k];
          }
        }
      } else {
        assert [tools[0]] + (tools[1..] + [tool]) == tools + [tool];
      }
    }
  }

  /** Registering keeps names unique. */
  lemma RegisterKeepsUnique(tools: seq<Tool>, tool: Tool)
    requires UniqueNames(tools)
    ensures UniqueNames(Register(tools, tool))
  {
    var r := Register(tools, tool);
    RegisterShape(tools, tool);
    if Lookup(tools, tool.Name()).None? && r == tools + [tool] {
      forall i, j | 0 <= i < j < |r|
        ensures r[i].Name() != r[j].Name()
      {
        assert r[i] == tools[i];
        if j < |tools| {
          assert r[j] == tools[j];
        }
      }
    } else {
      forall i, j | 0 <= i < j < |r|
        ensures r[i].Name() != r[j].Name()
      {
        assert r[i].Name() == tools[i].Name() && r[j].Name() == tools[j].Name();
      }
    }
  }

  /** The service's two tools, registered in order, are both kept under distinct names. */
  lemma DefaultRegistry()
    ensures Register(Register([], WebSearchTool), CodeAnalysisTool) == [WebSearchTool, CodeAnalysisTool]
  {
    assert WebSearch.Name[0] != CodeAnalysis.Name[0];
  }

  // ---------------------------------------------------------------------------
  // The prompt.

  /** One context file: its name and at most its first 2000 characters. */
  function FileBlock(f: ContextFile): string {
    "--- " + f.name + " ---\n" + Take(f.content, FileBudget) + "\n\n"
  }

  /** The context files, in order. */
  function FilesSection(files: seq<ContextFile>): string {
    if files == [] then ""
    else FilesSection(files[..|files| - 1]) + FileBlock(files[|files| - 1])
  }

  /** The transcript entry of the `n`-th step (numbered from 1). */
  function StepBlock(n: nat, s: Step): string {
    "Step " + NatToString(n) + ":\nThought: " + s.thought + "\nAction: " + Render(s.action) +
    "\nObservation: " + Render(s.observation) + "\n\n"
  }

  /** The transcript of the steps so far, in order. */
  function HistorySection(steps: seq<Step>): string {
    if steps == [] then ""
    else HistorySection(steps[..|steps| - 1]) + StepBlock(|steps|, steps[|steps| - 1])
  }

  /** One JSON descriptor per registered tool, in registration order, one per line. */
  function ToolDefs(tools: seq<Tool>): string {
    Join(seq(|tools|, i requires 0 <= i < |tools| => Stringify(tools[i].Definition())), "\n")
  }

  // The fixed pieces of the prompt template.
  const RoleIntro: string := "\nYou are an AI Agent " + "with the role: "
  const GoalIntro: string := ".\nYour Goal: "
  const ToolsIntro: string := "\n\nAVAILABLE TOOLS:\n"
  const Instructions: string :=
    "\n\nINSTRUCTIONS:\n" +
    "1. Analyze the goal " + "and files.\n" +
    "2. Decide on the next step.\n" +
    "3. You MUST respond " + "in JSON format ONLY.\n" +
    "4. Format:\n{\n" +
    "  \"thought\": " + "\"your reasoning here\",\n" +
    "  \"action\": \"tool_name\" " + "or \"FINAL_ANSWER\",\n" +
    "  \"actionInput\": " + "{ ...tool_params } or " + "{ \"answer\": " + "\"final response\" }\n}\n\n"
  const NextStepCue: string := "\n\nNext Step JSON:\n"

  function PromptHead(instructions: string, role: string, goal: string, toolDefs: string): string {
    RoleIntro + role + GoalIntro + goal + ToolsIntro + toolDefs + instructions
  }

  /** The prompt's fixed template with its five holes filled. */
  function PromptTemplate(instructions: string, role: string, goal: string, toolDefs: string, context: string,
                          history: string): string {
    PromptHead(instructions, role, goal, toolDefs) + context + "\n\n" + history + NextStepCue
  }

  /** The prompt for a session with the given steps. */
  function PromptText(instructions: string, role: string, goal: string, tools: seq<Tool>, files: seq<ContextFile>,
                      steps: seq<Step>): string {
    PromptTemplate(instructions, role, goal, ToolDefs(tools), "FILES:\n" + FilesSection(files), "HISTORY:\n" + HistorySection(steps))
  }

  // ---------------------------------------------------------------------------
  // The model call and the reply parser.

  /** The credential of a call: the per-run key when truthy, else the service's default. */
  function EffectiveKey(apiKey: Option<string>, defaultKey: string): (k: string)
    ensures Truthy(apiKey) ==> k == apiKey.value
    ensures !Truthy(apiKey) ==> k == defaultKey
  {
    OrDefault(apiKey, defaultKey)
  }

  /** `callGemini`: the oracle's reply, with an empty reply replaced by `"{}"`. */
  function CallModel(model: ModelOracle, key: string, prompt: string, call: nat): (r: Result<string, string>)
    ensures r.Success? <==> model(key, prompt, call).Success?
    ensures r.Success? ==>
      r.value != "" && (model(key, prompt, call).value != "" ==> r.value == model(key, prompt, call).value)
    ensures r.Failure? ==> r == model(key, prompt, call)
  {
    match model(key, prompt, call)
    case Success(text) => Success(OrDefault(Some(text), "{}"))
    case Failure(m) => Failure(m)
  }

  /** The reply with every "```json" and then every "```" deleted, then trimmed. */
  function CleanText(text: string): (r: string)
    ensures !Contains(r, "```")
    ensures r == [] || (!IsJsWhitespace(r[0]) && !IsJsWhitespace(r[|r| - 1]))
    ensures !Contains(text, "```") ==> r == Trim(text)
  {
    var unfenced := RemoveAll(RemoveAll(text, "```json"), "```");
    RemoveAllFenceLeavesNone(RemoveAll(text, "```json"));
    TrimKeepsAbsent(unfenced, "```");
    JsonFenceHasFence(text);
    RemoveAllAbsent(text, "```json");
    RemoveAllAbsent(text, "```");
    Trim(unfenced)
  }

  /** A reply wrapped in a "```json" ... "```" block is cleaned to its trimmed body. */
  lemma CleanFenced(body: string)
    requires !Contains(body, "```")
    ensures CleanText("```json" + body + "```") == Trim(body)
  {
    var text := "```json" + body + "```";
    var closed := body + "```";
    assert text == "```json" + closed;
    assert "```json" <= text && text[7..] == closed;
    ClosingFenceNoJsonFence(body);
    RemoveAllAbsent(closed, "```json");
    assert RemoveAll(text, "```json") == closed;
    RemoveClosingFence(body);
    assert RemoveAll(RemoveAll(text, "```json"), "```") == body;
  }

  /** `parseResponse`: a decoded step, or a thought-only step carrying the raw reply. */
  function ParseResponse(text: string, decode: Decoder): (s: Step)
    ensures s.thought != "" && s.observation == None
    ensures decode(CleanText(text)).None? ==>
      s == Step(ParseFailurePrefix + text, None, Undefined, None)
    ensures decode(CleanText(text)).Some? ==>
      var d := decode(CleanText(text)).value;
      s.action == d.action && s.actionInput == d.actionInput &&
      (Truthy(d.thought) ==> s.thought == d.thought.value) &&
      (!Truthy(d.thought) ==> s.thought == NoThought)
  {
    match decode(CleanText(text))
    case None => Step(ParseFailurePrefix + text, None, Undefined, None)
    case Some(d) => Step(OrDefault(d.thought, NoThought), d.action, d.actionInput, None)
  }

  // ---------------------------------------------------------------------------
  // One iteration and the whole run, as functions.

  /** A step whose action names a tool (anything truthy other than FINAL_ANSWER). */
  predicate IsToolAction(s: Step) {
    Truthy(s.action) && s.action.value != FinalAnswer
  }

  /** The observation written for a tool action. */
  function Observe(tools: seq<Tool>, name: string, input: Input): (r: Option<string>)
    ensures Lookup(tools, name).None? ==> r == Some("Error: Tool '" + name + "' not found.")
    ensures Lookup(tools, name).Some? ==>
      var res := Lookup(tools, name).value.Execute(input);
      (res.output != "" ==> r == Some(res.output)) && (res.output == "" ==> r == res.error)
  {
    match Lookup(tools, name)
    case None => Some("Error: Tool '" + name + "' not found.")
    case Some(t) =>
      var res := t.Execute(input);
      if res.output != "" then Some(res.output) else res.error
  }

  /** The result of a step that ends the run: `actionInput.answer || thought` for FINAL_ANSWER, else the thought. */
  function FinalResult(s: Step): (r: string)
    ensures s.action == Some(FinalAnswer) && Truthy(OptionalProperty(s.actionInput, "answer")) ==>
      r == s.actionInput.fields["answer"]
    ensures s.action != Some(FinalAnswer) || !Truthy(OptionalProperty(s.actionInput, "answer")) ==>
      r == s.thought
  {
    if s.action == Some(FinalAnswer) then OrDefault(OptionalProperty(s.actionInput, "answer"), s.thought)
    else s.thought
  }

  /** The state of a session that the loop reads and writes. */
  datatype RunState = RunState(status: Status, steps: seq<Step>, result: Option<string>)

  /**
   * Everything a run depends on besides the session state. The session's role and goal,
   * the tools and the files do not change during a run, so the prompt is a function of
   * the steps alone: `prompt` is `buildPrompt` with those fixed. `parse` is the reply
   * parser, `parseResponse` over the run's JSON decoder.
   */
  datatype Env = Env(prompt: seq<Step> -> string, tools: seq<Tool>,
                     key: string, model: ModelOracle, parse: string -> Step)

  /** The environment of a run over the given session fields, tools and files. */
  function MakeEnv(instructions: string, role: string, goal: string, tools: seq<Tool>, files: seq<ContextFile>,
                   key: string, model: ModelOracle, decode: Decoder): (env: Env)
    ensures forall steps :: env.prompt(steps) == PromptText(instructions, role, goal, tools, files, steps)
    ensures env.tools == tools && env.key == key && env.model == model
    ensures forall text :: env.parse(text) == ParseResponse(text, decode)
  {
    Env(steps => PromptText(instructions, role, goal, tools, files, steps), tools, key, model,
        text => ParseResponse(text, decode))
  }

  /** Step 4 of an iteration: append the parsed step, then dispatch it or stop. */
  function Decide(tools: seq<Tool>, st: RunState, step: Step): (r: RunState)
    ensures |r.steps| == |st.steps| + 1 && r.steps[..|st.steps|] == st.steps
    ensures IsToolAction(step) ==>
      r == st.(steps := st.steps + [step.(observation := Observe(tools, step.action.value, step.actionInput))])
    ensures !IsToolAction(step) ==>
      r == RunState(Completed, st.steps + [step], Some(FinalResult(step)))
  {
    if IsToolAction(step) then
      st.(steps := st.steps + [step.(observation := Observe(tools, step.action.value, step.actionInput))])
    else if step.action == Some(FinalAnswer) then
      RunState(Completed, st.steps + [step], Some(OrDefault(OptionalProperty(step.actionInput, "answer"), step.thought)))
    else
      RunState(Completed, st.steps + [step], Some(step.thought))
  }

  /** One iteration: prompt, call, parse, decide; a failing call ends the run in ERROR. */
  function Iteration(env: Env, st: RunState, call: nat): (r: RunState)
    requires st.status == Running
    ensures r.status == Running || r.status == Completed || r.status == Error
    ensures st.steps <= r.steps
    ensures |r.steps| == |st.steps| + (if r.status == Error then 0 else 1)
  {
    match CallModel(env.model, env.key, env.prompt(st.steps), call)
    case Failure(m) => st.(status := Error, result := Some("Error: " + m))
    case Success(text) => Decide(env.tools, st, env.parse(text))
  }

  /** Writing the observation on the last step is replacing the last element. */
  lemma ReplaceLast(xs: seq<Step>, x: Step, y: Step)
    ensures (xs + [x])[|xs| := y] == xs + [y]
  {
  }

  /** A failing model call ends the run in ERROR, keeping every step; there is no retry. */
  lemma IterationFails(env: Env, st: RunState, call: nat, msg: string)
    requires st.status == Running
    requires CallModel(env.model, env.key, env.prompt(st.steps), call) == Failure(msg)
    ensures Iteration(env, st, call) == st.(status := Error, result := Some("Error: " + msg))
  {
  }

  /** A successful model call parses the reply and decides on the parsed step. */
  lemma IterationDecides(env: Env, st: RunState, call: nat, text: string)
    requires st.status == Running
    requires CallModel(env.model, env.key, env.prompt(st.steps), call) == Success(text)
    ensures Iteration(env, st, call) == Decide(env.tools, st, env.parse(text))
  {
  }

  /**
   * The session state after `n` passes of the `while` loop from `st0`. A pass runs only
   * while the status is RUNNING, so once the run has stopped the state no longer changes;
   * pass `k` (from 0) makes model call number `k`.
   */
  function Steps(env: Env, st0: RunState, n: nat): (r: RunState)
    ensures st0.steps <= r.steps
    ensures |r.steps| <= |st0.steps| + n
    ensures r.status == Running ==> st0.status == Running && |r.steps| == |st0.steps| + n
    ensures st0.status == Running ==> r.status == Running || r.status == Completed || r.status == Error
    decreases n
  {
    if n == 0 then st0
    else
      var s := Steps(env, st0, n - 1);
      if s.status == Running then Iteration(env, s, n - 1) else s
  }

  /** A pass from a RUNNING state is one iteration, making call number `n`. */
  lemma StepsNext(env: Env, st0: RunState, n: nat)
    requires Steps(env, st0, n).status == Running
    ensures Steps(env, st0, n + 1) == Iteration(env, Steps(env, st0, n), n)
  {
  }

  /** Once a run has stopped, further passes change nothing. */
  lemma {:induction false} StepsSettle(env: Env, st0: RunState, k: nat, m: nat)
    requires k <= m && Steps(env, st0, k).status != Running
    ensures Steps(env, st0, m) == Steps(env, st0, k)
    decreases m - k
  {
    if k < m {
      StepsSettle(env, st0, k, m - 1);
    }
  }

  /**
   * What follows the loop: a run still RUNNING after its last pass completes, its result
   * the last step's thought behind the partial-result prefix.
   */
  function Finish(fin: RunState): (r: RunState)
    requires fin.status == Running ==> fin.steps != []
    ensures r.steps == fin.steps
    ensures fin.status == Running ==>
      r.status == Completed && r.result == Some(PartialPrefix + fin.steps[|fin.steps| - 1].thought)
    ensures fin.status != Running ==> r == fin
  {
    if fin.status == Running then
      RunState(Completed, fin.steps, Some(PartialPrefix + fin.steps[|fin.steps| - 1].thought))
    else fin
  }

  /**
   * `runAgentLoop` on a session in state `st`: the status becomes RUNNING, the loop makes
   * at most `MaxSteps` passes, and a run still RUNNING after the last one completes with
   * a partial result.
   */
  function Run(env: Env, st: RunState): (r: RunState)
    ensures r.status == Completed || r.status == Error
    ensures st.steps <= r.steps
    ensures |r.steps| <= |st.steps| + MaxSteps
  {
    Finish(Steps(env, st.(status := Running), MaxSteps))
  }

  // ---------------------------------------------------------------------------
  // The session table and the loop that drives one session.

  /** The `FILES:` section, accumulated file by file as `buildPrompt` does. */
  method FilesContext(files: seq<ContextFile>) returns (context: string)
    ensures context == "FILES:\n" + FilesSection(files)
  {
    context := "FILES:\n";
    var i := 0;
    while i < |files|
      invariant 0 <= i <= |files|
      invariant context == "FILES:\n" + FilesSection(files[..i])
    {
      assert files[..i + 1][..i] == files[..i];
      context := context + FileBlock(files[i]);
      i := i + 1;
    }
    assert files[..i] == files;
  }

  lemma HistoryGrows(steps: seq<Step>, j: nat)
    requires j < |steps|
    ensures HistorySection(steps[..j + 1]) == HistorySection(steps[..j]) + StepBlock(j + 1, steps[j])
  {
    assert steps[..j + 1][..j] == steps[..j];
  }

  /** The `HISTORY:` section, accumulated step by step as `buildPrompt` does. */
  method StepsHistory(steps: seq<Step>) returns (history: string)
    ensures history == "HISTORY:\n" + HistorySection(steps)
  {
    var entries := "";
    var j := 0;
    while j < |steps|
      invariant 0 <= j <= |steps|
      invariant entries == HistorySection(steps[..j])
    {
      HistoryGrows(steps, j);
      entries := entries + StepBlock(j + 1, steps[j]);
      j := j + 1;
    }
    assert steps[..j] == steps;
    history := "HISTORY:\n" + entries;
  }

  /** One agent run, shared by reference between the table and its loop. */
  class Session {
    const id: string
    const goal: string
    const role: string
    var status: Status
    var steps: seq<Step>
    var result: Option<string>

    constructor (id: string, goal: string, role: string)
      ensures this.id == id && this.goal == goal && this.role == role
      ensures status == Idle && steps == [] && result == None
    {
      this.id := id;
      this.goal := goal;
      this.role := role;
      status := Idle;
      steps := [];
      result := None;
    }

    function State(): RunState
      reads this
    {
      RunState(status, steps, result)
    }
  }

  /** `AgentService`: the session table, the tool registry and the fallback credential. */
  class Service {
    var sessions: map<string, Session>
    var tools: seq<Tool>
    /** `process.env.GEMINI_API_KEY || ''`, the key of the default client. */
    const defaultKey: string
    /** The fixed instruction block of every prompt this service builds. */
    const instructions: string

    ghost predicate Valid()
      reads this
    {
      UniqueNames(tools)
    }

    /** A fresh service: no sessions, and the two tools registered in this order. */
    constructor (envKey: Option<string>)
      ensures Valid()
      ensures sessions == map[]
      ensures tools == [WebSearchTool, CodeAnalysisTool]
      ensures defaultKey == OrDefault(envKey, "")
      ensures instructions == Instructions
    {
      instructions := Instructions;
      sessions := map[];
      tools := [];
      defaultKey := OrDefault(envKey, "");
      new;
      RegisterTool(WebSearchTool);
      RegisterTool(CodeAnalysisTool);
      DefaultRegistry();
    }

    /** `registerTool`: the tool becomes reachable under its own name. */
    method RegisterTool(tool: Tool)
      requires Valid()
      modifies this`tools
      ensures Valid()
      ensures tools == Register(old(tools), tool)
      ensures Lookup(tools, tool.Name()) == Some(tool)
      ensures forall n :: n != tool.Name() ==> Lookup(tools, n) == Lookup(old(tools), n)
    {
      RegisterKeepsUnique(tools, tool);
      forall n
        ensures Lookup(Register(tools, tool), n) == if n == tool.Name() then Some(tool) else Lookup(tools, n)
      {
        RegisterThenLookup(tools, tool, n);
      }
      tools := Register(tools, tool);
    }

    /**
     * `startAgent`: stores a new session with no steps under a fresh id and starts its
     * loop. The loop sets RUNNING before its first suspension point, so the session the
     * caller receives already reads RUNNING; the rest of the loop is `RunAgentLoop`.
     */
    method StartAgent(goal: string, role: string, id: string) returns (session: Session)
      requires id !in sessions
      modifies this`sessions
      ensures fresh(session)
      ensures sessions == old(sessions)[id := session]
      ensures session.id == id && session.goal == goal && session.role == role
      ensures session.status == Running && session.steps == [] && session.result == None
      ensures GetSession(id) == Some(session)
    {
      session := new Session(id, goal, role);
      sessions := sessions[id := session];
      // runAgentLoop, up to its first await
      session.status := Running;
    }

    /** `getSession`: the stored session object itself, or nothing for an unknown id. */
    function GetSession(id: string): (r: Option<Session>)
      reads this
      ensures r.Some? <==> id in sessions
      ensures r.Some? ==> r.value == sessions[id]
    {
      if id in sessions then Some(sessions[id]) else None
    }

    /** The run environment of a session under this service. */
    function EnvFor(session: Session, files: seq<ContextFile>, apiKey: Option<string>,
                    model: ModelOracle, decode: Decoder): Env
      reads this
    {
      MakeEnv(instructions, session.role, session.goal, tools, files, EffectiveKey(apiKey, defaultKey), model, decode)
    }

    /**
     * `env` describes runs of `session` under this service: what `EnvFor` builds, told by
     * what it does rather than how.
     */
    ghost predicate RunsIn(env: Env, session: Session, files: seq<ContextFile>, apiKey: Option<string>,
                           model: ModelOracle, decode: Decoder)
      reads this
    {
      env.tools == tools && env.key == EffectiveKey(apiKey, defaultKey) && env.model == model &&
      (forall steps :: env.prompt(steps) == PromptText(instructions, session.role, session.goal, tools, files, steps)) &&
      (forall text :: env.parse(text) == ParseResponse(text, decode))
    }

    /** `buildPrompt`: the prompt text of the session's current state. */
    method BuildPrompt(session: Session, files: seq<ContextFile>) returns (prompt: string)
      ensures prompt == PromptText(instructions, session.role, session.goal, tools, files, session.steps)
    {
      var context := FilesContext(files);
      var history := StepsHistory(session.steps);
      prompt := PromptTemplate(instructions, session.role, session.goal, ToolDefs(tools), context, history);
    }

    /**
     * Step 4 of `runAgentLoop`'s body: push the parsed step, then either dispatch its tool
     * and record the observation on that step, or finish the run.
     */
    method Apply(session: Session, step: Step)
      modifies session
      ensures session.State() == Decide(tools, old(session.State()), step)
    {
      ghost var before := session.State();
      session.steps := session.steps + [step];
      if Truthy(step.action) && step.action.value != FinalAnswer {
        var observation: Option<string>;
        match Lookup(tools, step.action.value) {
          case Some(tool) =>
            var res := tool.Execute(step.actionInput);
            observation := if res.output != "" then Some(res.output) else res.error;
          case None =>
            observation := Some("Error: Tool '" + step.action.value + "' not found.");
        }
        ReplaceLast(before.steps, step, step.(observation := observation));
        session.steps := session.steps[|session.steps| - 1 := step.(observation := observation)];
      } else if step.action == Some(FinalAnswer) {
        session.status := Completed;
        session.result := Some(OrDefault(OptionalProperty(step.actionInput, "answer"), step.thought));
      } else {
        // no action: the thought is taken as the answer
        session.status := Completed;
        session.result := Some(step.thought);
      }
    }

    /**
     * One pass of `runAgentLoop`'s `while` body on a RUNNING session: build the prompt,
     * call the model, parse the reply and apply it. A failing call is the `catch` branch:
     * the session ends in ERROR.
     */
    method Advance(session: Session, files: seq<ContextFile>, apiKey: Option<string>,
                   model: ModelOracle, decode: Decoder, call: nat, ghost env: Env)
      requires session.status == Running
      requires RunsIn(env, session, files, apiKey, model, decode)
      modifies session
      ensures session.State() == Iteration(env, old(session.State()), call)
    {
      ghost var before := session.State();
      var prompt := BuildPrompt(session, files);
      var response := CallModel(model, EffectiveKey(apiKey, defaultKey), prompt, call);
      assert response == CallModel(env.model, env.key, env.prompt(before.steps), call);
      match response
      case Failure(msg) =>
        IterationFails(env, before, call, msg);
        session.status := Error;
        session.result := Some("Error: " + msg);
      case Success(text) =>
        IterationDecides(env, before, call, text);
        var step := ParseResponse(text, decode);
        Apply(session, step);
    }

    /** The `n`-th pass of the loop, from the state `n` passes reach. */
    method Pass(session: Session, files: seq<ContextFile>, apiKey: Option<string>,
                model: ModelOracle, decode: Decoder, ghost env: Env, ghost start: RunState, n: nat)
      returns (next: nat)
      requires RunsIn(env, session, files, apiKey, model, decode)
      requires session.status == Running && session.State() == Steps(env, start, n)
      modifies session
      ensures next == n + 1 && session.State() == Steps(env, start, next)
    {
      Advance(session, files, apiKey, model, decode, n, env);
      StepsNext(env, start, n);
      next := n + 1;
    }

    /**
     * The `while` loop of `runAgentLoop` on a RUNNING session: passes run while the
     * session stays RUNNING and fewer than `MaxSteps` have run; it ends in the state
     * `MaxSteps` passes would reach.
     */
    method Drive(session: Session, files: seq<ContextFile>, apiKey: Option<string>,
                 model: ModelOracle, decode: Decoder, ghost env: Env)
      requires session.status == Running
      requires RunsIn(env, session, files, apiKey, model, decode)
      modifies session
      ensures session.State() == Steps(env, old(session.State()), MaxSteps)
    {
      ghost var start := session.State();
      var count := 0;
      while session.status == Running && count < MaxSteps
        invariant count <= MaxSteps
        invariant session.State() == Steps(env, start, count)
        decreases MaxSteps - count
      {
        count := Pass(session, files, apiKey, model, decode, env, start, count);
      }
      if session.status != Running {
        StepsSettle(env, start, count, MaxSteps);
      }
    }

    /**
     * `runAgentLoop`: drives the stored session to COMPLETED or ERROR, exactly as `Run`
     * describes; an unknown id changes nothing.
     */
    method RunAgentLoop(sessionId: string, files: seq<ContextFile>, apiKey: Option<string>,
                        model: ModelOracle, decode: Decoder)
      modifies if sessionId in sessions then {sessions[sessionId]} else {}
      ensures sessionId in sessions ==>
        sessions[sessionId].State() ==
        Run(EnvFor(sessions[sessionId], files, apiKey, model, decode), old(sessions[sessionId].State()))
    {
      if sessionId !in sessions {
        return;
      }
      var session := sessions[sessionId];
      ghost var env := EnvFor(session, files, apiKey, model, decode);
      session.status := Running;
      Drive(session, files, apiKey, model, decode, env);
      Conclude(session);
    }

    /** After the loop: a session still RUNNING completes with the partial result. */
    method Conclude(session: Session)
      requires session.status == Running ==> session.steps != []
      modifies session
      ensures session.State() == Finish(old(session.State()))
    {
      if session.status == Running {
        session.status := Completed;
        session.result := Some(PartialPrefix + session.steps[|session.steps| - 1].thought);
      }
    }
  }
}
