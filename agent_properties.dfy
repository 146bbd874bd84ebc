/**
 * What a whole run of the agent loop guarantees: how it can end, how many model calls it
 * can make, and the outcome of the typical replies.
 */
module AgentProperties {
  import opened Wrappers
  import opened JsText
  import opened ToolBase
  import opened AgentService

  /** Every step at positions `from` up to `to` named a tool. */
  predicate ToolStepsBetween(steps: seq<Step>, from: nat, to: nat)
    requires from <= to <= |steps|
  {
    forall i {:trigger IsToolAction(steps[i])} :: from <= i < to ==> IsToolAction(steps[i])
  }

  /**
   * The shape of a state reached by passes of the loop from a state with `k` steps: every
   * step added before the last pass named a tool, a COMPLETED state was ended by a step
   * that named none (its result being that step's final result), and an ERROR state
   * carries an `Error: ` message.
   */
  predicate Reached(k: nat, s: RunState) {
    k <= |s.steps| &&
    match s.status
    case Running => ToolStepsBetween(s.steps, k, |s.steps|)
    case Error =>
      ToolStepsBetween(s.steps, k, |s.steps|) && s.result.Some? && StartsWith(s.result.value, "Error: ")
    case Completed =>
      k < |s.steps| && ToolStepsBetween(s.steps, k, |s.steps| - 1) &&
      !IsToolAction(s.steps[|s.steps| - 1]) && s.result == Some(FinalResult(s.steps[|s.steps| - 1]))
    case _ => false
  }

  /** One pass from a reached state reaches a state of the same shape. */
  lemma PassReaches(env: Env, k: nat, s: RunState, call: nat)
    requires Reached(k, s) && s.status == Running
    ensures Reached(k, Iteration(env, s, call))
  {
    var t := Iteration(env, s, call);
    match CallModel(env.model, env.key, env.prompt(s.steps), call)
    case Failure(m) =>
      IterationFails(env, s, call, m);
    case Success(text) =>
      IterationDecides(env, s, call, text);
      assert t.steps[|s.steps|].action == env.parse(text).action;
      forall i | k <= i < |s.steps|
        ensures IsToolAction(t.steps[i])
      {
        assert t.steps[i] == s.steps[i];
      }
  }

  /** One more pass keeps the shape `Reached` describes. */
  lemma StepReaches(env: Env, st0: RunState, n: nat)
    requires n > 0 && Reached(|st0.steps|, Steps(env, st0, n - 1))
    ensures Reached(|st0.steps|, Steps(env, st0, n))
  {
    var s := Steps(env, st0, n - 1);
    if s.status == Running {
      StepsNext(env, st0, n - 1);
      PassReaches(env, |st0.steps|, s, n - 1);
    } else {
      StepsSettle(env, st0, n - 1, n);
    }
  }

  /** Every state the loop reaches from a RUNNING state has the shape `Reached` describes. */
  lemma {:induction false} StepsReach(env: Env, st0: RunState, n: nat)
    requires st0.status == Running
    ensures Reached(|st0.steps|, Steps(env, st0, n))
    decreases n
  {
    if n > 0 {
      StepsReach(env, st0, n - 1);
      StepReaches(env, st0, n);
    }
  }

  /**
   * How a run ends: in ERROR with an `Error: ` message after tool steps only; or COMPLETED,
   * either by a step that named no tool, whose final result is the run's result, or after
   * exactly `MaxSteps` tool steps, with the partial result of the last step's thought.
   */
  lemma RunOutcome(env: Env, st: RunState)
    ensures var r := Run(env, st);
      st.steps <= r.steps &&
      (r.status == Error ==>
        ToolStepsBetween(r.steps, |st.steps|, |r.steps|) &&
        r.result.Some? && StartsWith(r.result.value, "Error: ")) &&
      (r.status == Completed ==>
        |r.steps| > |st.steps| &&
        var last := r.steps[|r.steps| - 1];
        ToolStepsBetween(r.steps, |st.steps|, |r.steps| - 1) &&
        ((!IsToolAction(last) && r.result == Some(FinalResult(last))) ||
         (IsToolAction(last) && |r.steps| == |st.steps| + MaxSteps &&
          r.result == Some(PartialPrefix + last.thought))))
  {
    var st0 := st.(status := Running);
    StepsReach(env, st0, MaxSteps);
    var fin := Steps(env, st0, MaxSteps);
    assert Reached(|st.steps|, fin);
    assert Run(env, st) == Finish(fin);
  }

  /** One iteration is the same under a model that answers its call the same way. */
  lemma IterationSameModel(env: Env, model: ModelOracle, s: RunState, call: nat)
    requires s.status == Running
    requires env.model(env.key, env.prompt(s.steps), call) == model(env.key, env.prompt(s.steps), call)
    ensures Iteration(env, s, call) == Iteration(env.(model := model), s, call)
  {
  }

  /** The loop's state after `n` passes depends on the model only through calls numbered below `n`. */
  lemma {:induction false} StepsUseFirstCalls(env: Env, model: ModelOracle, st0: RunState, n: nat)
    requires forall key, prompt, call: nat :: call < n ==> env.model(key, prompt, call) == model(key, prompt, call)
    ensures Steps(env, st0, n) == Steps(env.(model := model), st0, n)
    decreases n
  {
    if n > 0 {
      StepsUseFirstCalls(env, model, st0, n - 1);
      var other := env.(model := model);
      var s := Steps(env, st0, n - 1);
      if s.status == Running {
        assert env.model(env.key, env.prompt(s.steps), n - 1) == model(env.key, env.prompt(s.steps), n - 1);
        IterationSameModel(env, model, s, n - 1);
        StepsNext(env, st0, n - 1);
        StepsNext(other, st0, n - 1);
      } else {
        StepsSettle(env, st0, n - 1, n);
        StepsSettle(other, st0, n - 1, n);
      }
    }
  }

  /**
   * A run makes at most `MaxSteps` model calls: two models that agree on calls 0 to
   * `MaxSteps - 1` give the same run.
   */
  lemma RunMakesAtMostMaxStepsCalls(env: Env, model: ModelOracle, st: RunState)
    requires forall key, prompt, call: nat :: call < MaxSteps ==> env.model(key, prompt, call) == model(key, prompt, call)
    ensures Run(env, st) == Run(env.(model := model), st)
  {
    StepsUseFirstCalls(env, model, st.(status := Running), MaxSteps);
  }

  /** A first reply that names no tool ends the run at once, with its final result. */
  lemma FirstReplyEnds(env: Env, st: RunState, text: string)
    requires CallModel(env.model, env.key, env.prompt(st.steps), 0) == Success(text)
    requires !IsToolAction(env.parse(text))
    ensures var step := env.parse(text);
      Run(env, st) == RunState(Completed, st.steps + [step], Some(FinalResult(step)))
  {
    var st0 := st.(status := Running);
    IterationDecides(env, st0, 0, text);
    StepsSettle(env, st0, 1, MaxSteps);
  }

  /** `FINAL_ANSWER` with a non-empty `answer` completes the run with that answer. */
  lemma FinalAnswerRun(env: Env, decode: Decoder, st: RunState, text: string, thought: Option<string>,
                       fields: map<string, string>)
    requires CallModel(env.model, env.key, env.prompt(st.steps), 0) == Success(text)
    requires env.parse(text) == ParseResponse(text, decode)
    requires decode(CleanText(text)) == Some(Decoded(thought, Some(FinalAnswer), Object(fields)))
    requires "answer" in fields && fields["answer"] != ""
    ensures Run(env, st).status == Completed && Run(env, st).result == Some(fields["answer"])
    ensures |Run(env, st).steps| == |st.steps| + 1
  {
    FirstReplyEnds(env, st, text);
  }

  /** A reply the decoder rejects completes the run with the parse-failure thought. */
  lemma MalformedReplyRun(env: Env, decode: Decoder, st: RunState, text: string)
    requires CallModel(env.model, env.key, env.prompt(st.steps), 0) == Success(text)
    requires env.parse(text) == ParseResponse(text, decode)
    requires decode(CleanText(text)) == None
    ensures Run(env, st) ==
      RunState(Completed, st.steps + [Step(ParseFailurePrefix + text, None, Undefined, None)],
               Some(ParseFailurePrefix + text))
  {
    FirstReplyEnds(env, st, text);
  }

  /** An empty first reply is read as `{}`; decoded as the empty object it completes with the default thought. */
  lemma EmptyReplyRun(env: Env, decode: Decoder, st: RunState)
    requires env.model(env.key, env.prompt(st.steps), 0) == Success("")
    requires env.parse("{}") == ParseResponse("{}", decode)
    requires decode("{}") == Some(Decoded(None, None, Object(map[])))
    ensures Run(env, st) ==
      RunState(Completed, st.steps + [Step(NoThought, None, Object(map[]), None)], Some(NoThought))
  {
    assert CallModel(env.model, env.key, env.prompt(st.steps), 0) == Success("{}");
    ParseEmptyObject(decode);
    FirstReplyEnds(env, st, "{}");
  }

  /** `{}` decoded as the empty object parses to a step with the default thought and no action. */
  lemma ParseEmptyObject(decode: Decoder)
    requires decode("{}") == Some(Decoded(None, None, Object(map[])))
    ensures ParseResponse("{}", decode) == Step(NoThought, None, Object(map[]), None)
  {
    CleanBraces();
  }

  lemma CleanBraces()
    ensures CleanText("{}") == "{}"
  {
    var s := "{}";
    assert !("```json" <= s) && !("```json" <= s[1..]);
    assert RemoveAll(s, "```json") == s;
    assert RemoveAll(s, "```") == s;
    assert !IsJsWhitespace(s[0]) && !IsJsWhitespace(s[1]);
    assert TrimStart(s) == s;
  }

  /** A failing first call ends the run in ERROR with the message, and adds no step. */
  lemma FirstCallFailsRun(env: Env, st: RunState, msg: string)
    requires env.model(env.key, env.prompt(st.steps), 0) == Failure(msg)
    ensures Run(env, st) == RunState(Error, st.steps, Some("Error: " + msg))
  {
    var st0 := st.(status := Running);
    IterationFails(env, st0, 0, msg);
    StepsSettle(env, st0, 1, MaxSteps);
  }

  /**
   * A first reply naming an unregistered tool records the not-found observation on its
   * step, and the loop goes on.
   */
  lemma UnknownToolContinues(env: Env, st: RunState, text: string, name: string)
    requires CallModel(env.model, env.key, env.prompt(st.steps), 0) == Success(text)
    requires env.parse(text).action == Some(name)
    requires name != "" && name != FinalAnswer && Lookup(env.tools, name).None?
    ensures var step := env.parse(text);
      Steps(env, st.(status := Running), 1) ==
      RunState(Running, st.steps + [step.(observation := Some("Error: Tool '" + name + "' not found."))], st.result)
  {
    IterationDecides(env, st.(status := Running), 0, text);
  }

  /** A RUNNING state that kept the result of `st0` and whose last new step has the given thought. */
  predicate ToolRun(st0: RunState, thought: string, s: RunState) {
    s.status == Running && s.result == st0.result && |st0.steps| <= |s.steps| &&
    (|st0.steps| < |s.steps| ==> s.steps[|s.steps| - 1].thought == thought)
  }

  /** A pass whose reply names a tool adds that step and keeps running. */
  lemma PassTool(env: Env, reply: string, st0: RunState, s: RunState, call: nat)
    requires env.model(env.key, env.prompt(s.steps), call) == Success(reply)
    requires reply != "" && IsToolAction(env.parse(reply))
    requires ToolRun(st0, env.parse(reply).thought, s)
    ensures ToolRun(st0, env.parse(reply).thought, Iteration(env, s, call))
  {
    IterationDecides(env, s, call, reply);
  }

  /** While the model keeps naming a tool, every step taken is that tool step and the run stays running. */
  lemma {:induction false} StepsOnlyTools(env: Env, st0: RunState, reply: string, n: nat)
    requires st0.status == Running
    requires forall prompt, call :: env.model(env.key, prompt, call) == Success(reply)
    requires reply != "" && IsToolAction(env.parse(reply))
    ensures ToolRun(st0, env.parse(reply).thought, Steps(env, st0, n))
    decreases n
  {
    if n > 0 {
      StepsOnlyTools(env, st0, reply, n - 1);
      var s := Steps(env, st0, n - 1);
      assert env.model(env.key, env.prompt(s.steps), n - 1) == Success(reply);
      assert ToolRun(st0, env.parse(reply).thought, s);
      StepsNext(env, st0, n - 1);
      PassTool(env, reply, st0, s, n - 1);
    }
  }

  /**
   * A model that always names a tool runs the loop to its ceiling: exactly `MaxSteps`
   * steps are added and the run completes with the partial result.
   */
  lemma ToolsUntilLimit(env: Env, st: RunState, reply: string)
    requires forall prompt, call :: env.model(env.key, prompt, call) == Success(reply)
    requires reply != "" && IsToolAction(env.parse(reply))
    ensures Run(env, st).status == Completed
    ensures |Run(env, st).steps| == |st.steps| + MaxSteps
    ensures Run(env, st).result == Some(PartialPrefix + env.parse(reply).thought)
  {
    StepsOnlyTools(env, st.(status := Running), reply, MaxSteps);
  }

  /** A context file reaches the prompt with its name and at most `FileBudget` characters of its content. */
  lemma FileBlockBounded(f: ContextFile)
    ensures |FileBlock(f)| <= |f.name| + FileBudget + 11
    ensures StartsWith(FileBlock(f), "--- " + f.name + " ---\n")
  {
    var head := "--- " + f.name + " ---\n";
    assert FileBlock(f) == head + (Take(f.content, FileBudget) + "\n\n");
  }

  /**
   * Steps are only appended, so the transcript a prompt shows only grows: the history of
   * an earlier state is a prefix of the history of a later one.
   */
  lemma {:induction false} HistoryPrefix(a: seq<Step>, b: seq<Step>)
    requires a <= b
    ensures HistorySection(a) <= HistorySection(b)
    decreases |b|
  {
    if |a| < |b| {
      var c := b[..|b| - 1];
      assert a <= c;
      HistoryPrefix(a, c);
    } else {
      assert a == b;
    }
  }

  /**
   * The session-table behaviour `startAgent` and `getSession` promise: the returned
   * session reads RUNNING with no steps, and looking its id up gives the same object.
   */
  method StartThenGet(envKey: Option<string>) returns (session: Session, found: Option<Session>)
    ensures session.goal == "Test Goal" && session.role == "Tester"
    ensures session.status == Running && session.steps == []
    ensures found == Some(session)
  {
    var service := new Service(envKey);
    session := service.StartAgent("Test Goal", "Tester", "session-1");
    found := service.GetSession(session.id);
  }
}
