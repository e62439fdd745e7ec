/** The agent loop (loop/runner.go): one iteration as a function, and Execute as the
    loop over it. */
module Runner {
  import opened Options
  import opened Chat
  import opened Stream
  import opened LoopDetector
  import opened Lifecycle

  /** The places inside one iteration where the context is consulted. */
  datatype Point = AtTop | AtCall | AtNext(event: nat) | AfterCall | AtObserve(block: nat)

  datatype CtxErr = Live | CtxCanceled | CtxDeadline

  datatype ToolOutcome = NotFound | ExecFailed(err: string) | Ran(output: string, isError: bool)

  datatype Sanitized = Rejected(err: string) | Accepted(output: string, isError: bool)

  /** What the runner is configured with and what surrounds it: tools and sanitizer as
      functions, the context as seen at each point of each turn, and the clock. */
  datatype Config = Config(
    tools: (string, string) -> ToolOutcome,
    sanitizer: Option<(string, string, bool) -> Sanitized>,
    contentHash: (string, string) -> string,
    ctx: (nat, Point) -> CtxErr,
    clock: nat -> int,
    endClock: nat -> int)

  /** One run's surroundings: the answer to the LLM call of each turn, by either path,
      and the loop detector's thresholds when one is installed. */
  datatype Env = Env(cfg: Config, llm: nat -> LLMResult, thresholds: Option<Thresholds>)

  datatype TurnError = BudgetExhausted(axis: Axis) | LLMFailed | LoopFound(pattern: Verdict)

  datatype TurnResult = TurnResult(index: nat, llmCalls: nat, toolCalls: nat, response: Option<ChatResponse>,
                                   nextState: State, error: Option<TurnError>)

  /** The state of Execute between iterations.  `refused` counts transition errors that
      the loop would silently discard. */
  datatype Exec = Exec(run: RunData, messages: seq<Message>, turns: seq<TurnResult>,
                       states: map<string, LoopState>, refused: nat, done: bool)

  // ----- tools -----

  /** The tool_result block for one tool_use block. */
  function Answer(cfg: Config, use: ContentBlock): ContentBlock
    requires use.ToolUse?
  {
    match cfg.tools(use.name, use.input)
    case NotFound => ToolResult(use.id, "\"tool not found: " + use.name + "\"", true)
    case ExecFailed(err) => ToolResult(use.id, "\"tool execution failed: " + err + "\"", true)
    case Ran(output, isError) =>
      match cfg.sanitizer
      case None => ToolResult(use.id, output, isError)
      case Some(sanitize) =>
        match sanitize(use.name, output, isError)
        case Rejected(err) => ToolResult(use.id, "\"tool result sanitization failed: " + err + "\"", true)
        case Accepted(clean, cleanIsError) => ToolResult(use.id, clean, cleanIsError)
  }

  function Answers(cfg: Config, uses: seq<ContentBlock>): seq<ContentBlock>
    requires forall i :: 0 <= i < |uses| ==> uses[i].ToolUse?
  {
    seq(|uses|, i requires 0 <= i < |uses| => Answer(cfg, uses[i]))
  }

  /** The tool_result block says what became of the call: that there is no such tool, that it
      could not be run, that its result was rejected, or else the result, as the sanitizer left
      it if there is one; the first three are errors, the others are what they say they are. */
  predicate Reports(cfg: Config, use: ContentBlock, block: ContentBlock)
    requires use.ToolUse?
  {
    var outcome := cfg.tools(use.name, use.input);
    && block.ToolResult? && block.useId == use.id
    && (outcome.NotFound? ==> block.isError && block.output == "\"tool not found: " + use.name + "\"")
    && (outcome.ExecFailed? ==> block.isError && block.output == "\"tool execution failed: " + outcome.err + "\"")
    && (outcome.Ran? && cfg.sanitizer.None? ==> block.isError == outcome.isError && block.output == outcome.output)
    && (outcome.Ran? && cfg.sanitizer.Some? ==>
          var sanitized := cfg.sanitizer.value(use.name, outcome.output, outcome.isError);
          && (sanitized.Rejected? ==>
                block.isError && block.output == "\"tool result sanitization failed: " + sanitized.err + "\"")
          && (sanitized.Accepted? ==> block.isError == sanitized.isError && block.output == sanitized.output))
  }

  /** dispatchTools. */
  method DispatchTools(cfg: Config, uses: seq<ContentBlock>) returns (results: seq<ContentBlock>, count: nat)
    requires forall i :: 0 <= i < |uses| ==> uses[i].ToolUse?
    ensures results == Answers(cfg, uses) && count == |uses|
    ensures forall i :: 0 <= i < |uses| ==> Reports(cfg, uses[i], results[i])
  {
    results, count := [], 0;
    for i := 0 to |uses|
      invariant count == i
      invariant results == Answers(cfg, uses)[..i]
    {
      var tb := uses[i];
      count := count + 1;
      match cfg.tools(tb.name, tb.input) {
        case NotFound =>
          results := results + [ToolResult(tb.id, "\"tool not found: " + tb.name + "\"", true)];
          continue;
        case ExecFailed(err) =>
          results := results + [ToolResult(tb.id, "\"tool execution failed: " + err + "\"", true)];
          continue;
        case Ran(output, isError) =>
          match cfg.sanitizer {
            case Some(sanitize) =>
              match sanitize(tb.name, output, isError) {
                case Rejected(err) =>
                  results := results + [ToolResult(tb.id, "\"tool result sanitization failed: " + err + "\"", true)];
                  continue;
                case Accepted(clean, cleanIsError) =>
                  results := results + [ToolResult(tb.id, clean, cleanIsError)];
              }
            case None =>
              results := results + [ToolResult(tb.id, output, isError)];
          }
      }
    }
  }

  // ----- loop detection over one turn's tool calls -----

  function CallEvent(cfg: Config, use: ContentBlock): LoopEvent
    requires use.ToolUse?
  {
    LoopEvent(ToolCallEvent, use.name, cfg.contentHash(use.name, use.input))
  }

  /** Observes blocks i, i + 1, ... until one is judged a loop; an observation that fails
      because the context is done is skipped. */
  function ObserveFrom(cfg: Config, th: Thresholds, runId: string, turn: nat,
                       states: map<string, LoopState>, uses: seq<ContentBlock>, i: nat)
    : (map<string, LoopState>, Verdict)
    requires forall i :: 0 <= i < |uses| ==> uses[i].ToolUse?
    decreases |uses| - i
  {
    if i >= |uses| then (states, Clean)
    else if cfg.ctx(turn, AtObserve(i)) != Live then ObserveFrom(cfg, th, runId, turn, states, uses, i + 1)
    else
      var ev := CallEvent(cfg, uses[i]);
      var after := Observed(states, runId, ev);
      var verdict := Judge(th, after[runId], ev);
      if verdict != Clean then (after, verdict) else ObserveFrom(cfg, th, runId, turn, after, uses, i + 1)
  }

  function ObserveTurn(env: Env, runId: string, turn: nat, states: map<string, LoopState>, uses: seq<ContentBlock>)
    : (map<string, LoopState>, Verdict)
    requires forall i :: 0 <= i < |uses| ==> uses[i].ToolUse?
  {
    match env.thresholds
    case None => (states, Clean)
    case Some(th) => ObserveFrom(env.cfg, th, runId, turn, states, uses, 0)
  }

  /** The detection loop of Execute. */
  method ObserveCalls(cfg: Config, detector: MemLoopDetector, runId: string, turn: nat, uses: seq<ContentBlock>)
    returns (verdict: Verdict)
    requires forall i :: 0 <= i < |uses| ==> uses[i].ToolUse?
    modifies detector`states
    ensures (detector.states, verdict) ==
            ObserveFrom(cfg, detector.thresholds, runId, turn, old(detector.states), uses, 0)
  {
    for i := 0 to |uses|
      invariant ObserveFrom(cfg, detector.thresholds, runId, turn, detector.states, uses, i)
             == ObserveFrom(cfg, detector.thresholds, runId, turn, old(detector.states), uses, 0)
    {
      var r := detector.Observe(cfg.ctx(turn, AtObserve(i)) != Live, runId, CallEvent(cfg, uses[i]));
      if r.None? { continue; }
      if r.value != Clean { return r.value; }
    }
    return Clean;
  }

  // ----- one iteration -----

  /** Ends the loop: records the turn, if any, and makes the transition. */
  function Stop(s: Exec, cmd: Command, now: int, result: seq<TurnResult>): Exec {
    s.(run := Attempt(s.run, cmd, now),
       refused := if Transition(s.run, cmd, now).None? then s.refused + 1 else s.refused,
       turns := s.turns + result,
       done := true)
  }

  function WithBudget(s: Exec, b: Budget): Exec {
    s.(run := s.run.(budget := b))
  }

  function Iterate(env: Env, s: Exec): Exec {
    var k := s.run.currentTurn + 1;
    var s1 := WithBudget(s, s.run.budget.(elapsed := env.cfg.clock(k) - s.run.startedAt));
    var exhausted := CheckTurn(s1.run.budget);
    if exhausted.Some? then
      Stop(s1, Fail, env.cfg.endClock(k),
           [TurnResult(k, 0, 0, None, Failed, Some(BudgetExhausted(exhausted.value)))])
    else if env.cfg.ctx(k, AtTop) != Live then Stop(s1, Cancel, env.cfg.endClock(k), [])
    else OnTurn(env, s1.(run := s1.run.(currentTurn := k)))
  }

  /** The part of an iteration in which a turn is taken. */
  function OnTurn(env: Env, s: Exec): Exec {
    var k, b := s.run.currentTurn, s.run.budget;
    var s1 := WithBudget(s, b.(usedLLMCalls := b.usedLLMCalls + 1));
    match env.llm(k)
    case CallFailed(canceled) =>
      var toCanceled := canceled || env.cfg.ctx(k, AfterCall) == CtxCanceled;
      Stop(s1, if toCanceled then Cancel else Fail, env.cfg.endClock(k),
           [TurnResult(k, 1, 0, None, if toCanceled then Canceled else Failed, Some(LLMFailed))])
    case Reply(resp) => OnReply(env, s1, resp)
  }

  /** The part of an iteration after a successful LLM call. */
  function OnReply(env: Env, s: Exec, resp: ChatResponse): Exec {
    var k, b := s.run.currentTurn, s.run.budget;
    var s1 := WithBudget(s, b.(usedCost := b.usedCost + resp.usage.costUSD, usedTurns := b.usedTurns + 1));
    var exhausted := CheckCost(s1.run.budget);
    if exhausted.Some? then
      Stop(s1, Fail, env.cfg.endClock(k),
           [TurnResult(k, 1, 0, Some(resp), Failed, Some(BudgetExhausted(exhausted.value)))])
    else
      var s2 := s1.(messages := s1.messages + [Message(Assistant, resp.content)]);
      if ToolUses(resp.content) == [] || resp.stopReason != "tool_use" then
        Stop(s2, Complete, env.cfg.endClock(k), [TurnResult(k, 1, 0, Some(resp), Completed, None)])
      else OnTools(env, s2, resp)
  }

  /** The tool phase of an iteration. */
  function OnTools(env: Env, s: Exec, resp: ChatResponse): Exec {
    var k, b, uses := s.run.currentTurn, s.run.budget, ToolUses(resp.content);
    ToolUsesOfToolUses(resp.content);
    var s1 := s.(run := s.run.(state := Running, budget := b.(usedToolCalls := b.usedToolCalls + |uses|)),
                 messages := s.messages + [Message(User, Answers(env.cfg, uses))]);
    var (states, verdict) := ObserveTurn(env, s.run.id, k, s.states, uses);
    var s2 := s1.(states := states);
    if verdict != Clean then
      Stop(s2, Fail, env.cfg.endClock(k),
           [TurnResult(k, 1, |uses|, Some(resp), Failed, Some(LoopFound(verdict)))])
    else s2.(turns := s2.turns + [TurnResult(k, 1, |uses|, Some(resp), Running, None)])
  }

  /** The state after at most n iterations. */
  function Iterations(env: Env, s: Exec, n: nat): Exec {
    if n == 0 then s
    else
      var before := Iterations(env, s, n - 1);
      if before.done then before else Iterate(env, before)
  }

  /** The state in which the loop is entered. */
  function Begin(run: RunData, now: int, initial: seq<Message>, states: map<string, LoopState>): Exec {
    Exec(Attempt(run, Command.Start, now), initial, [], states, 0, false)
  }

  // ----- Execute over the mock provider -----

  /** Whether the context is done when event i of turn k's stream is asked for. */
  function NextDone(cfg: Config, k: nat): nat -> bool {
    (i: nat) => cfg.ctx(k, AtNext(i)) != Live
  }

  /** What the LLM call of turn k returns when the provider's queue, before the first of
      the run's turns, was `queue` and `base` turns had been taken. */
  function QueueReply(cfg: Config, queue: seq<ChatResponse>, chunkSize: int, stream: bool, base: nat,
                      k: nat): LLMResult
  {
    if cfg.ctx(k, AtCall) != Live || !(base < k <= base + |queue|) then CallFailed(false)
    else
      var resp := queue[k - 1 - base];
      if stream then DrainFrom(Lowered(resp, chunkSize), NextDone(cfg, k), 0, EMPTY_ACC) else Reply(resp)
  }

  function QueueLLM(cfg: Config, queue: seq<ChatResponse>, chunkSize: int, stream: bool, base: nat): nat -> LLMResult {
    (k: nat) => QueueReply(cfg, queue, chunkSize, stream, base, k)
  }

  /** The queue after the LLM call of turn k: a call that finds the context live and the queue
      not empty takes the first response, whether or not its stream is then read to the end. */
  function QueueAfter(cfg: Config, queue: seq<ChatResponse>, k: nat): seq<ChatResponse> {
    if cfg.ctx(k, AtCall) == Live && queue != [] then queue[1..] else queue
  }

  /** The queue after the calls of the turns after `base` up to `turn`. */
  function QueueLeft(cfg: Config, queue: seq<ChatResponse>, base: nat, turn: nat): seq<ChatResponse> {
    if turn <= base then queue else QueueAfter(cfg, QueueLeft(cfg, queue, base, turn - 1), turn)
  }

  function ThresholdsOf(detector: MemLoopDetector?): Option<Thresholds>
    reads detector
  {
    if detector == null then None else Some(detector.thresholds)
  }

  function StatesOf(detector: MemLoopDetector?): map<string, LoopState>
    reads detector
  {
    if detector == null then map[] else detector.states
  }

  /** One LLM call of Execute, by Complete or by Stream. */
  method CallLLM(cfg: Config, provider: MockProvider, stream: bool, k: nat) returns (r: LLMResult)
    modifies provider`queue
    ensures r == QueueReply(cfg, old(provider.queue), provider.streamChunkSize, stream, k, k + 1)
    ensures provider.queue == QueueAfter(cfg, old(provider.queue), k + 1)
    ensures r.Reply? ==> old(provider.queue) != [] && provider.queue == old(provider.queue)[1..]
  {
    var ctxDone := cfg.ctx(k + 1, AtCall) != Live;
    if stream {
      var reader := provider.Stream(ctxDone);
      if reader == null { return CallFailed(false); }
      r := DrainStream(reader, NextDone(cfg, k + 1));
      reader.Close();
    } else {
      r := provider.Complete(ctxDone);
    }
  }

  datatype RunResult = RunResult(turns: seq<TurnResult>, finalMessages: seq<Message>)

  /** Where the objects that Execute works on stand, as a state of the loop. */
  ghost predicate Matches(s: Exec, run: Run, detector: MemLoopDetector?, messages: seq<Message>, turns: seq<TurnResult>)
    reads run, detector
  {
    && s.run == run.Data() && s.messages == messages && s.turns == turns
    && s.states == StatesOf(detector)
  }

  ghost function EnvOf(cfg: Config, detector: MemLoopDetector?, provider: MockProvider, stream: bool, base: nat): Env
    reads detector, provider
  {
    Env(cfg, QueueLLM(cfg, provider.queue, provider.streamChunkSize, stream, base), ThresholdsOf(detector))
  }

  /** The tool phase of Execute's loop body. */
  method HandleTools(cfg: Config, run: Run, detector: MemLoopDetector?, resp: ChatResponse, uses: seq<ContentBlock>,
                     messages: seq<Message>, turns: seq<TurnResult>, ghost env: Env, ghost s: Exec)
    returns (messages': seq<Message>, turns': seq<TurnResult>, done: bool)
    requires Matches(s, run, detector, messages, turns) && !s.done
    requires env.cfg == cfg && env.thresholds == ThresholdsOf(detector)
    requires uses == ToolUses(resp.content)
    modifies run`state, run`budget, run`endedAt
    modifies if detector == null then {} else {detector}
    ensures Matches(OnTools(env, s, resp), run, detector, messages', turns') && done == OnTools(env, s, resp).done
    ensures ThresholdsOf(detector) == old(ThresholdsOf(detector))
  {
    hide Reports;
    var k := run.currentTurn;
    ToolUsesOfToolUses(resp.content);
    run.state := WaitingTool;
    var results, count := DispatchTools(cfg, uses);
    run.budget := run.budget.(usedToolCalls := run.budget.usedToolCalls + count);
    messages' := messages + [Message(User, results)];
    run.state := Running;
    if detector != null {
      var verdict := ObserveCalls(cfg, detector, run.id, k, uses);
      if verdict != Clean {
        turns' := turns + [TurnResult(k, 1, count, Some(resp), Failed, Some(LoopFound(verdict)))];
        var _ := run.Fail(cfg.endClock(k));
        done := true;
        return;
      }
    }
    turns' := turns + [TurnResult(k, 1, count, Some(resp), Running, None)];
    done := false;
  }

  /** Execute's loop body after a successful LLM call. */
  method HandleReply(cfg: Config, run: Run, detector: MemLoopDetector?, resp: ChatResponse,
                     messages: seq<Message>, turns: seq<TurnResult>, ghost env: Env, ghost s: Exec)
    returns (messages': seq<Message>, turns': seq<TurnResult>, done: bool)
    requires Matches(s, run, detector, messages, turns) && !s.done
    requires env.cfg == cfg && env.thresholds == ThresholdsOf(detector)
    modifies run`state, run`budget, run`endedAt
    modifies if detector == null then {} else {detector}
    ensures Matches(OnReply(env, s, resp), run, detector, messages', turns') && done == OnReply(env, s, resp).done
    ensures ThresholdsOf(detector) == old(ThresholdsOf(detector))
  {
    hide OnTools;
    var k := run.currentTurn;
    var b := run.budget;
    run.budget := b.(usedCost := b.usedCost + resp.usage.costUSD, usedTurns := b.usedTurns + 1);
    var exhausted := CheckCost(run.budget);
    if exhausted.Some? {
      turns' := turns + [TurnResult(k, 1, 0, Some(resp), Failed, Some(BudgetExhausted(exhausted.value)))];
      var _ := run.Fail(cfg.endClock(k));
      return messages, turns', true;
    }
    messages' := messages + [Message(Assistant, resp.content)];
    var uses := ExtractToolUseBlocks(resp.content);
    if |uses| == 0 || resp.stopReason != "tool_use" {
      turns' := turns + [TurnResult(k, 1, 0, Some(resp), Completed, None)];
      var _ := run.Complete(cfg.endClock(k));
      return messages', turns', true;
    }
    ghost var s1 := s.(run := run.Data(), messages := messages');
    messages', turns', done := HandleTools(cfg, run, detector, resp, uses, messages', turns, env, s1);
  }

  /** Execute's loop body from the LLM call on. */
  method TakeTurn(cfg: Config, run: Run, provider: MockProvider, detector: MemLoopDetector?, stream: bool,
                  messages: seq<Message>, turns: seq<TurnResult>, ghost env: Env, ghost s: Exec)
    returns (messages': seq<Message>, turns': seq<TurnResult>, done: bool)
    requires Matches(s, run, detector, messages, turns) && !s.done && run.currentTurn > 0
    requires env.cfg == cfg && env.thresholds == ThresholdsOf(detector)
    requires env.llm(run.currentTurn)
          == QueueReply(cfg, provider.queue, provider.streamChunkSize, stream, run.currentTurn - 1, run.currentTurn)
    modifies run`state, run`budget, run`endedAt, provider`queue
    modifies if detector == null then {} else {detector}
    ensures Matches(OnTurn(env, s), run, detector, messages', turns') && done == OnTurn(env, s).done
    ensures ThresholdsOf(detector) == old(ThresholdsOf(detector))
    ensures provider.queue == QueueAfter(cfg, old(provider.queue), run.currentTurn)
    ensures !done ==> old(provider.queue) != [] && provider.queue == old(provider.queue)[1..]
  {
    hide OnReply, QueueReply;
    var k := run.currentTurn;
    var reply := CallLLM(cfg, provider, stream, k - 1);
    run.budget := run.budget.(usedLLMCalls := run.budget.usedLLMCalls + 1);
    ghost var s1 := s.(run := run.Data());
    match reply {
      case CallFailed(canceled) =>
        var nextState := Failed;
        if cfg.ctx(k, AfterCall) == CtxCanceled || canceled {
          nextState := Canceled;
          var _ := run.Cancel(cfg.endClock(k));
        } else {
          var _ := run.Fail(cfg.endClock(k));
        }
        return messages, turns + [TurnResult(k, 1, 0, None, nextState, Some(LLMFailed))], true;
      case Reply(resp) =>
        messages', turns', done := HandleReply(cfg, run, detector, resp, messages, turns, env, s1);
    }
  }

  /** A state the loop passes through. */
  ghost predicate Reached(env: Env, init: Exec, s: Exec) {
    exists n: nat :: s == Iterations(env, init, n)
  }

  lemma ReachedFirst(env: Env, init: Exec)
    ensures Reached(env, init, init)
  {
    assert init == Iterations(env, init, 0);
  }

  lemma ReachedNext(env: Env, init: Exec, s: Exec)
    requires Reached(env, init, s) && !s.done
    ensures Reached(env, init, Iterate(env, s))
  {
    hide Iterate;
    var n: nat :| s == Iterations(env, init, n);
    assert Iterations(env, init, n + 1) == Iterate(env, s);
  }

  /** The body of Execute's loop: one iteration. */
  method RunTurn(cfg: Config, run: Run, provider: MockProvider, detector: MemLoopDetector?, stream: bool,
                 messages: seq<Message>, turns: seq<TurnResult>, ghost env: Env, ghost s: Exec)
    returns (messages': seq<Message>, turns': seq<TurnResult>, done: bool)
    requires Matches(s, run, detector, messages, turns) && !s.done
    requires env.cfg == cfg && env.thresholds == ThresholdsOf(detector)
    requires env.llm(run.currentTurn + 1)
          == QueueReply(cfg, provider.queue, provider.streamChunkSize, stream, run.currentTurn, run.currentTurn + 1)
    modifies run`state, run`budget, run`endedAt, run`currentTurn, provider`queue
    modifies if detector == null then {} else {detector}
    ensures Matches(Iterate(env, s), run, detector, messages', turns') && done == Iterate(env, s).done
    ensures ThresholdsOf(detector) == old(ThresholdsOf(detector))
    ensures old(run.currentTurn) <= run.currentTurn <= old(run.currentTurn) + 1
    ensures provider.queue == QueueLeft(cfg, old(provider.queue), old(run.currentTurn), run.currentTurn)
    ensures !done ==>
              && run.currentTurn == old(run.currentTurn) + 1
              && old(provider.queue) != [] && provider.queue == old(provider.queue)[1..]
  {
    hide OnTurn, QueueReply;
    var k := run.currentTurn + 1;
    run.budget := run.budget.(elapsed := cfg.clock(k) - run.startedAt);
    ghost var s1 := s.(run := run.Data());
    var exhausted := CheckTurn(run.budget);
    if exhausted.Some? {
      var _ := run.Fail(cfg.endClock(k));
      turns' := turns + [TurnResult(k, 0, 0, None, Failed, Some(BudgetExhausted(exhausted.value)))];
      return messages, turns', true;
    }
    if cfg.ctx(k, AtTop) != Live {
      var _ := run.Cancel(cfg.endClock(k));
      assert turns + [] == turns;
      return messages, turns, true;
    }
    run.currentTurn := k;
    s1 := s1.(run := run.Data());
    messages', turns', done := TakeTurn(cfg, run, provider, detector, stream, messages, turns, env, s1);
    OnTurnKeepsTurn(env, s1);
  }

  /** RunTurn, told as a step along the loop. */
  method Advance(cfg: Config, run: Run, provider: MockProvider, detector: MemLoopDetector?, stream: bool,
                 messages: seq<Message>, turns: seq<TurnResult>, ghost env: Env, ghost init: Exec, ghost s: Exec)
    returns (messages': seq<Message>, turns': seq<TurnResult>, done: bool, ghost s': Exec)
    requires Reached(env, init, s) && Matches(s, run, detector, messages, turns) && !s.done
    requires env.cfg == cfg && env.thresholds == ThresholdsOf(detector)
    requires env.llm(run.currentTurn + 1)
          == QueueReply(cfg, provider.queue, provider.streamChunkSize, stream, run.currentTurn, run.currentTurn + 1)
    modifies run`state, run`budget, run`endedAt, run`currentTurn, provider`queue
    modifies if detector == null then {} else {detector}
    ensures Reached(env, init, s') && Matches(s', run, detector, messages', turns') && done == s'.done
    ensures ThresholdsOf(detector) == old(ThresholdsOf(detector))
    ensures old(run.currentTurn) <= run.currentTurn <= old(run.currentTurn) + 1
    ensures provider.queue == QueueLeft(cfg, old(provider.queue), old(run.currentTurn), run.currentTurn)
    ensures !done ==>
              && run.currentTurn == old(run.currentTurn) + 1
              && old(provider.queue) != [] && provider.queue == old(provider.queue)[1..]
  {
    hide Iterate, QueueReply;
    ReachedNext(env, init, s);
    s' := Iterate(env, s);
    messages', turns', done := RunTurn(cfg, run, provider, detector, stream, messages, turns, env, s);
  }

  lemma OnTurnKeepsTurn(env: Env, s: Exec)
    ensures OnTurn(env, s).run.currentTurn == s.run.currentTurn
  {
  }

  /** The loop, iterated until it is done, leaves the objects like this. */
  ghost predicate EndsIn(env: Env, init: Exec, run: Run, detector: MemLoopDetector?, result: RunResult)
    reads run, detector
  {
    exists s :: Reached(env, init, s) && s.done && Matches(s, run, detector, result.finalMessages, result.turns)
  }

  /** What is left of a queue from which `taken` responses were taken. */
  ghost predicate LeftOf(queue: seq<ChatResponse>, left: seq<ChatResponse>, taken: int) {
    0 <= taken <= |queue| && left == queue[taken..]
  }

  lemma QueueAdvances(cfg: Config, queue: seq<ChatResponse>, left: seq<ChatResponse>, chunkSize: int, stream: bool,
                      base: nat, k: nat)
    requires base < k && LeftOf(queue, left, k - 1 - base)
    ensures QueueLLM(cfg, queue, chunkSize, stream, base)(k) == QueueReply(cfg, left, chunkSize, stream, k - 1, k)
  {
  }

  /** The calls of one turn more, or of none. */
  lemma QueueLeftGoesOn(cfg: Config, queue: seq<ChatResponse>, base: nat, turn: nat)
    requires base <= turn
    ensures QueueLeft(cfg, queue, base, base) == queue
    ensures var left := QueueLeft(cfg, queue, base, turn);
            && QueueLeft(cfg, left, turn, turn) == left
            && QueueLeft(cfg, left, turn, turn + 1) == QueueLeft(cfg, queue, base, turn + 1)
  {
  }

  lemma EnvParts(cfg: Config, provider: MockProvider, detector: MemLoopDetector?, stream: bool, base: nat)
    ensures var env := EnvOf(cfg, detector, provider, stream, base);
            && env.cfg == cfg && env.thresholds == ThresholdsOf(detector)
            && env.llm == QueueLLM(cfg, provider.queue, provider.streamChunkSize, stream, base)
  {
  }

  lemma LoopEnds(env: Env, init: Exec, s: Exec, run: Run, detector: MemLoopDetector?, result: RunResult)
    requires Reached(env, init, s) && s.done && Matches(s, run, detector, result.finalMessages, result.turns)
    ensures EndsIn(env, init, run, detector, result)
  {
    hide Reached, Matches;
  }

  lemma NoneTaken(queue: seq<ChatResponse>)
    ensures LeftOf(queue, queue, 0)
  {
  }

  lemma OneMoreTaken(queue: seq<ChatResponse>, left: seq<ChatResponse>, taken: int)
    requires LeftOf(queue, left, taken) && left != []
    ensures LeftOf(queue, left[1..], taken + 1)
  {
  }

  /** Execute's loop, once the run has been started. */
  method Loop(cfg: Config, run: Run, provider: MockProvider, detector: MemLoopDetector?, initial: seq<Message>,
              stream: bool, ghost env: Env, ghost init: Exec)
    returns (result: RunResult)
    requires env == EnvOf(cfg, detector, provider, stream, run.currentTurn)
    requires Matches(init, run, detector, initial, []) && !init.done
    modifies run`state, run`budget, run`endedAt, run`currentTurn, provider`queue
    modifies if detector == null then {} else {detector}
    ensures EndsIn(env, init, run, detector, result)
    ensures provider.queue == QueueLeft(cfg, old(provider.queue), old(run.currentTurn), run.currentTurn)
  {
    hide *;
    EnvParts(cfg, provider, detector, stream, run.currentTurn);
    ghost var base, queue := run.currentTurn, provider.queue;
    QueueLeftGoesOn(cfg, queue, base, base);
    ghost var s := init;
    NoneTaken(queue);
    ReachedFirst(env, init);
    var messages, turns, done := initial, [], false;
    while !done
      invariant Reached(env, init, s) && s.done == done
      invariant Matches(s, run, detector, messages, turns)
      invariant ThresholdsOf(detector) == env.thresholds
      invariant base <= run.currentTurn && provider.queue == QueueLeft(cfg, queue, base, run.currentTurn)
      invariant !done ==> LeftOf(queue, provider.queue, run.currentTurn - base)
      decreases !done, |provider.queue|
    {
      ghost var turn, left := run.currentTurn, provider.queue;
      QueueAdvances(cfg, queue, left, provider.streamChunkSize, stream, base, turn + 1);
      QueueLeftGoesOn(cfg, queue, base, turn);
      messages, turns, done, s := Advance(cfg, run, provider, detector, stream, messages, turns, env, init, s);
      if !done {
        OneMoreTaken(queue, left, turn - base);
      }
    }
    result := RunResult(turns, messages);
    LoopEnds(env, init, s, run, detector, result);
  }

  /** Execute: refused unless the run is pending; otherwise the loop is iterated until it
      is done, the run, the detector, the turns and the messages are those of the last
      iteration, and one response is gone from the queue for each turn whose call found one
      with a live context. */
  method Execute(cfg: Config, run: Run, provider: MockProvider, detector: MemLoopDetector?,
                 initial: seq<Message>, stream: bool)
    returns (result: Option<RunResult>)
    modifies run`state, run`startedAt, run`budget, run`endedAt, run`currentTurn, provider`queue
    modifies if detector == null then {} else {detector}
    ensures result.None? <==> old(run.state) != Pending
    ensures result.None? ==>
              && run.Data() == old(run.Data()) && StatesOf(detector) == old(StatesOf(detector))
              && provider.queue == old(provider.queue)
    ensures result.Some? ==>
              provider.queue == QueueLeft(cfg, old(provider.queue), old(run.currentTurn), run.currentTurn)
    ensures result.Some? ==>
              EndsIn(old(EnvOf(cfg, detector, provider, stream, run.currentTurn)),
                     Begin(old(run.Data()), cfg.clock(0), initial, old(StatesOf(detector))),
                     run, detector, result.value)
  {
    ghost var init := Begin(run.Data(), cfg.clock(0), initial, StatesOf(detector));
    ghost var env := EnvOf(cfg, detector, provider, stream, run.currentTurn);
    var started := run.Start(cfg.clock(0));
    if !started { return None; }
    var ended := Loop(cfg, run, provider, detector, initial, stream, env, init);
    result := Some(ended);
  }
}
