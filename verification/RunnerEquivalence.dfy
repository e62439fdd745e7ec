/** Running with streaming on and with streaming off means the same. */
module RunnerEquivalence {
  import opened Options
  import opened Chat
  import opened Stream
  import opened LoopDetector
  import opened Lifecycle
  import opened Runner
  import opened RunnerSafety

  // ----- states up to the merging of assistant messages -----

  function NormMessage(m: Message): Message {
    if m.role == Assistant then Message(Assistant, Merge(m.content)) else m
  }

  function NormResponse(resp: ChatResponse): ChatResponse {
    resp.(content := Merge(resp.content))
  }

  function NormTurn(t: TurnResult): TurnResult {
    match t.response
    case None => t
    case Some(resp) => t.(response := Some(NormResponse(resp)))
  }

  function NormMessages(ms: seq<Message>): seq<Message> {
    if ms == [] then [] else NormMessages(ms[..|ms| - 1]) + [NormMessage(ms[|ms| - 1])]
  }

  function NormTurns(ts: seq<TurnResult>): seq<TurnResult> {
    if ts == [] then [] else NormTurns(ts[..|ts| - 1]) + [NormTurn(ts[|ts| - 1])]
  }

  /** The same run, counters, detector state and progress, and the same turn results and
      messages once the text blocks of each assistant message and each response are merged
      in front of its tool_use blocks, and these put in front of any other block. */
  predicate Alike(s: Exec, t: Exec) {
    && s.run == t.run && s.states == t.states && s.refused == t.refused && s.done == t.done
    && NormMessages(s.messages) == NormMessages(t.messages)
    && NormTurns(s.turns) == NormTurns(t.turns)
  }

  lemma NormMessagesAppend(ms: seq<Message>, m: Message)
    ensures NormMessages(ms + [m]) == NormMessages(ms) + [NormMessage(m)]
  {
    assert (ms + [m])[..|ms|] == ms;
  }

  lemma NormTurnsAppend(ts: seq<TurnResult>, t: TurnResult)
    ensures NormTurns(ts + [t]) == NormTurns(ts) + [NormTurn(t)]
  {
    assert (ts + [t])[..|ts|] == ts;
  }

  lemma StopAlike(s: Exec, t: Exec, cmd: Command, now: int, r: TurnResult, r': TurnResult)
    requires Alike(s, t) && NormTurn(r) == NormTurn(r')
    ensures Alike(Stop(s, cmd, now, [r]), Stop(t, cmd, now, [r']))
  {
    NormTurnsAppend(s.turns, r);
    NormTurnsAppend(t.turns, r');
  }

  predicate SameReply(a: LLMResult, b: LLMResult) {
    match (a, b)
    case (Reply(x), Reply(y)) => NormResponse(x) == NormResponse(y)
    case (CallFailed(x), CallFailed(y)) => x == y
    case _ => false
  }

  // ----- one iteration, layer by layer -----

  /** The tool phase up to its verdict. */
  function AfterTools(env: Env, s: Exec, uses: seq<ContentBlock>): Exec
    requires forall i :: 0 <= i < |uses| ==> uses[i].ToolUse?
  {
    s.(run := s.run.(state := Running, budget := s.run.budget.(usedToolCalls := s.run.budget.usedToolCalls + |uses|)),
       messages := s.messages + [Message(User, Answers(env.cfg, uses))],
       states := ObserveTurn(env, s.run.id, s.run.currentTurn, s.states, uses).0)
  }

  lemma OnToolsIs(env: Env, s: Exec, resp: ChatResponse, uses: seq<ContentBlock>)
    requires uses == ToolUses(resp.content)
    requires forall i :: 0 <= i < |uses| ==> uses[i].ToolUse?
    ensures var k, verdict := s.run.currentTurn, ObserveTurn(env, s.run.id, s.run.currentTurn, s.states, uses).1;
            var after := AfterTools(env, s, uses);
            OnTools(env, s, resp) ==
            if verdict != Clean
            then Stop(after, Fail, env.cfg.endClock(k),
                      [TurnResult(k, 1, |uses|, Some(resp), Failed, Some(LoopFound(verdict)))])
            else after.(turns := after.turns + [TurnResult(k, 1, |uses|, Some(resp), Running, None)])
  {
  }

  lemma ToolsAlike(env: Env, env': Env, s: Exec, t: Exec, x: ChatResponse, y: ChatResponse)
    requires env'.cfg == env.cfg && env'.thresholds == env.thresholds
    requires Alike(s, t) && NormResponse(x) == NormResponse(y)
    ensures Alike(OnTools(env, s, x), OnTools(env', t, y))
  {
    hide Merge, ToolUses, ObserveTurn, Answers, OnTools, AfterTools, NormMessages, NormTurns, Stop;
    MergeKeeps(x.content);
    MergeKeeps(y.content);
    ToolUsesOfToolUses(x.content);
    var uses, k := ToolUses(x.content), s.run.currentTurn;
    OnToolsIs(env, s, x, uses);
    OnToolsIs(env', t, y, uses);
    var s1, t1 := AfterTools(env, s, uses), AfterTools(env', t, uses);
    AfterToolsAlike(env, env', s, t, uses);
    var verdict := ObserveTurn(env, s.run.id, k, s.states, uses).1;
    if verdict != Clean {
      StopAlike(s1, t1, Fail, env.cfg.endClock(k), TurnResult(k, 1, |uses|, Some(x), Failed, Some(LoopFound(verdict))),
                TurnResult(k, 1, |uses|, Some(y), Failed, Some(LoopFound(verdict))));
    } else {
      NormTurnsAppend(s1.turns, TurnResult(k, 1, |uses|, Some(x), Running, None));
      NormTurnsAppend(t1.turns, TurnResult(k, 1, |uses|, Some(y), Running, None));
    }
  }

  lemma AfterToolsAlike(env: Env, env': Env, s: Exec, t: Exec, uses: seq<ContentBlock>)
    requires forall i :: 0 <= i < |uses| ==> uses[i].ToolUse?
    requires env'.cfg == env.cfg && env'.thresholds == env.thresholds && Alike(s, t)
    ensures Alike(AfterTools(env, s, uses), AfterTools(env', t, uses))
    ensures ObserveTurn(env, s.run.id, s.run.currentTurn, s.states, uses)
         == ObserveTurn(env', t.run.id, t.run.currentTurn, t.states, uses)
  {
    ObserveAlike(env, env', s.run.id, s.run.currentTurn, s.states, uses);
    hide ObserveTurn, Answers, NormMessages, NormMessage, NormTurns;
    NormMessagesAppend(s.messages, Message(User, Answers(env.cfg, uses)));
    NormMessagesAppend(t.messages, Message(User, Answers(env.cfg, uses)));
  }

  lemma ObserveAlike(env: Env, env': Env, runId: string, turn: nat, states: map<string, LoopState>,
                     uses: seq<ContentBlock>)
    requires forall i :: 0 <= i < |uses| ==> uses[i].ToolUse?
    requires env'.cfg == env.cfg && env'.thresholds == env.thresholds
    ensures ObserveTurn(env, runId, turn, states, uses) == ObserveTurn(env', runId, turn, states, uses)
  {
    hide ObserveFrom;
  }

  lemma ReplyAlike(env: Env, env': Env, s: Exec, t: Exec, x: ChatResponse, y: ChatResponse)
    requires env'.cfg == env.cfg && env'.thresholds == env.thresholds
    requires Alike(s, t) && NormResponse(x) == NormResponse(y)
    ensures Alike(OnReply(env, s, x), OnReply(env', t, y))
  {
    hide OnTools, Stop, NormMessages, NormTurns;
    MergeKeeps(x.content);
    MergeKeeps(y.content);
    assert ToolUses(x.content) == ToolUses(y.content);
    var k, b := s.run.currentTurn, s.run.budget;
    var b' := b.(usedCost := b.usedCost + x.usage.costUSD, usedTurns := b.usedTurns + 1);
    var s1, t1 := WithBudget(s, b'), WithBudget(t, b');
    assert s.run == t.run && Alike(s1, t1);
    hide Alike, Merge, ToolUses;
    if CheckCost(b').Some? {
      var err := Some(BudgetExhausted(CheckCost(b').value));
      StopAlike(s1, t1, Fail, env.cfg.endClock(k),
                TurnResult(k, 1, 0, Some(x), Failed, err), TurnResult(k, 1, 0, Some(y), Failed, err));
    } else {
      SpeakAlike(s1, t1, x, y);
      var s2, t2 := Speak(s1, x), Speak(t1, y);
      if ToolUses(x.content) == [] || x.stopReason != "tool_use" {
        StopAlike(s2, t2, Complete, env.cfg.endClock(k),
                  TurnResult(k, 1, 0, Some(x), Completed, None), TurnResult(k, 1, 0, Some(y), Completed, None));
      } else {
        ToolsAlike(env, env', s2, t2, x, y);
      }
    }
  }

  function Speak(s: Exec, resp: ChatResponse): Exec {
    s.(messages := s.messages + [Message(Assistant, resp.content)])
  }

  lemma SpeakAlike(s: Exec, t: Exec, x: ChatResponse, y: ChatResponse)
    requires Alike(s, t) && NormResponse(x) == NormResponse(y)
    ensures Alike(Speak(s, x), Speak(t, y))
  {
    NormMessagesAppend(s.messages, Message(Assistant, x.content));
    NormMessagesAppend(t.messages, Message(Assistant, y.content));
  }

  lemma TurnAlike(env: Env, env': Env, s: Exec, t: Exec)
    requires env'.cfg == env.cfg && env'.thresholds == env.thresholds
    requires Alike(s, t) && SameReply(env.llm(s.run.currentTurn), env'.llm(s.run.currentTurn))
    ensures Alike(OnTurn(env, s), OnTurn(env', t))
  {
    hide OnReply, Stop, NormMessages, NormTurns;
    var k, b := s.run.currentTurn, s.run.budget;
    var b' := b.(usedLLMCalls := b.usedLLMCalls + 1);
    var s1, t1 := WithBudget(s, b'), WithBudget(t, b');
    assert s.run == t.run && Alike(s1, t1);
    hide Alike;
    match env.llm(k)
    case CallFailed(canceled) =>
      var toCanceled := canceled || env.cfg.ctx(k, AfterCall) == CtxCanceled;
      var r := TurnResult(k, 1, 0, None, if toCanceled then Canceled else Failed, Some(LLMFailed));
      StopAlike(s1, t1, if toCanceled then Cancel else Fail, env.cfg.endClock(k), r, r);
    case Reply(resp) =>
      ReplyAlike(env, env', s1, t1, resp, env'.llm(k).resp);
  }

  lemma IterationAlike(env: Env, env': Env, s: Exec, t: Exec)
    requires env'.cfg == env.cfg && env'.thresholds == env.thresholds
    requires Alike(s, t) && SameReply(env.llm(s.run.currentTurn + 1), env'.llm(s.run.currentTurn + 1))
    ensures Alike(Iterate(env, s), Iterate(env', t))
  {
    hide OnTurn, NormMessages, NormTurns;
    var k := s.run.currentTurn + 1;
    var b := s.run.budget.(elapsed := env.cfg.clock(k) - s.run.startedAt);
    var s1, t1 := WithBudget(s, b), WithBudget(t, b);
    var s2, t2 := s1.(run := s1.run.(currentTurn := k)), t1.(run := t1.run.(currentTurn := k));
    assert s.turns + [] == s.turns && t.turns + [] == t.turns;
    assert s.run == t.run && Alike(s1, t1) && Alike(s2, t2);
    assert Alike(Stop(s1, Cancel, env.cfg.endClock(k), []), Stop(t1, Cancel, env.cfg.endClock(k), []));
    hide Alike, Stop;
    if CheckTurn(b).Some? {
      var r := TurnResult(k, 0, 0, None, Failed, Some(BudgetExhausted(CheckTurn(b).value)));
      StopAlike(s1, t1, Fail, env.cfg.endClock(k), r, r);
    } else if env.cfg.ctx(k, AtTop) == Live {
      TurnAlike(env, env', s2, t2);
    }
  }

  /** Two providers whose answers differ at most in how text and tool_use blocks are
      arranged drive a run through the same states. */
  lemma {:induction false} SameRepliesSameRun(env: Env, env': Env, s: Exec, n: nat)
    requires env'.cfg == env.cfg && env'.thresholds == env.thresholds
    requires forall k: nat :: SameReply(env.llm(k), env'.llm(k))
    ensures Alike(Iterations(env, s, n), Iterations(env', s, n))
  {
    hide Iterate;
    if n > 0 {
      SameRepliesSameRun(env, env', s, n - 1);
      var p, q := Iterations(env, s, n - 1), Iterations(env', s, n - 1);
      if !p.done {
        IterationAlike(env, env', p, q);
      }
    }
  }

  // ----- Complete and Stream over the same queue -----

  function QueueEnv(cfg: Config, queue: seq<ChatResponse>, chunkSize: int, thresholds: Option<Thresholds>,
                    stream: bool): Env
  {
    Env(cfg, QueueLLM(cfg, queue, chunkSize, stream, 0), thresholds)
  }

  /** Every stream that is opened is read through. Between turns, during tools and at the call
      itself the context may end. */
  ghost predicate UninterruptedStreams(cfg: Config, queue: seq<ChatResponse>, chunkSize: int) {
    forall k: nat :: 0 < k <= |queue| && cfg.ctx(k, AtCall) == Live ==>
      ReadThrough(queue[k - 1], chunkSize, NextDone(cfg, k))
  }

  ghost predicate AllStreamable(queue: seq<ChatResponse>) {
    forall i :: 0 <= i < |queue| ==> Streamable(queue[i].content)
  }

  lemma SameQueueReplies(cfg: Config, queue: seq<ChatResponse>, chunkSize: int, k: nat)
    requires UninterruptedStreams(cfg, queue, chunkSize) && AllStreamable(queue)
    ensures SameReply(QueueReply(cfg, queue, chunkSize, false, 0, k), QueueReply(cfg, queue, chunkSize, true, 0, k))
  {
    if 0 < k <= |queue| && cfg.ctx(k, AtCall) == Live {
      StreamRoundTrip(queue[k - 1], chunkSize, NextDone(cfg, k));
      MergeKeeps(queue[k - 1].content);
    }
  }

  /** For a response with a stop reason the two modes reply alike if and only if its stream is
      read through. */
  lemma RepliesAgreeExactly(cfg: Config, queue: seq<ChatResponse>, chunkSize: int, k: nat)
    requires 0 < k <= |queue| && cfg.ctx(k, AtCall) == Live
    requires Streamable(queue[k - 1].content) && queue[k - 1].stopReason != ""
    ensures SameReply(QueueReply(cfg, queue, chunkSize, false, 0, k), QueueReply(cfg, queue, chunkSize, true, 0, k))
            <==> ReadThrough(queue[k - 1], chunkSize, NextDone(cfg, k))
  {
    if ReadThrough(queue[k - 1], chunkSize, NextDone(cfg, k)) {
      StreamRoundTrip(queue[k - 1], chunkSize, NextDone(cfg, k));
      MergeKeeps(queue[k - 1].content);
    } else {
      CutShort(queue[k - 1], chunkSize, NextDone(cfg, k));
      hide DrainFrom, ReadThrough;
    }
  }

  /** For every queue of responses of text and tool calls with names and inputs, every chunk size,
      every tool set, detector, clock, budget and history, and every context that does not end
      while a stream is being read: after any number of iterations, streaming or not, the run has the same
      state, counters, end time and detector state, the same turn results and the same
      messages, up to merging the text blocks of each assistant message in front of its
      tool_use blocks. */
  lemma StreamingChangesNothing(cfg: Config, queue: seq<ChatResponse>, chunkSize: int, thresholds: Option<Thresholds>,
                                id: string, budget: Budget, initial: seq<Message>, states: map<string, LoopState>,
                                n: nat)
    requires UninterruptedStreams(cfg, queue, chunkSize) && AllStreamable(queue)
    ensures var complete := QueueEnv(cfg, queue, chunkSize, thresholds, false);
            var streamed := QueueEnv(cfg, queue, chunkSize, thresholds, true);
            Alike(Iterations(complete, NewExec(complete, id, budget, initial, states), n),
                  Iterations(streamed, NewExec(streamed, id, budget, initial, states), n))
  {
    var complete := QueueEnv(cfg, queue, chunkSize, thresholds, false);
    var streamed := QueueEnv(cfg, queue, chunkSize, thresholds, true);
    forall k: nat ensures SameReply(complete.llm(k), streamed.llm(k)) {
      SameQueueReplies(cfg, queue, chunkSize, k);
    }
    SameRepliesSameRun(complete, streamed, NewExec(complete, id, budget, initial, states), n);
  }

  lemma {:induction false} DoneStays(env: Env, s: Exec, m: nat, n: nat)
    requires m <= n && Iterations(env, s, m).done
    ensures Iterations(env, s, n) == Iterations(env, s, m)
  {
    hide Iterate;
    if m < n {
      DoneStays(env, s, m, n - 1);
    }
  }

  lemma EndsAlike(env: Env, env': Env, init: Exec, s: Exec, t: Exec)
    requires env'.cfg == env.cfg && env'.thresholds == env.thresholds
    requires forall k: nat :: SameReply(env.llm(k), env'.llm(k))
    requires Reached(env, init, s) && s.done && Reached(env', init, t) && t.done
    ensures Alike(s, t)
  {
    hide Iterate;
    var m: nat :| s == Iterations(env, init, m);
    var n: nat :| t == Iterations(env', init, n);
    DoneStays(env, init, m, m + n);
    DoneStays(env', init, n, m + n);
    SameRepliesSameRun(env, env', init, m + n);
  }

  /** Hence two executions of the same new run, one with Stream off and one with Stream on,
      end alike: Execute leaves a reached state that is done. */
  lemma ExecutionsAgree(cfg: Config, queue: seq<ChatResponse>, chunkSize: int, thresholds: Option<Thresholds>,
                        init: Exec, s: Exec, t: Exec)
    requires UninterruptedStreams(cfg, queue, chunkSize) && AllStreamable(queue)
    requires Reached(QueueEnv(cfg, queue, chunkSize, thresholds, false), init, s) && s.done
    requires Reached(QueueEnv(cfg, queue, chunkSize, thresholds, true), init, t) && t.done
    ensures Alike(s, t)
  {
    var complete := QueueEnv(cfg, queue, chunkSize, thresholds, false);
    var streamed := QueueEnv(cfg, queue, chunkSize, thresholds, true);
    forall k: nat ensures SameReply(complete.llm(k), streamed.llm(k)) {
      SameQueueReplies(cfg, queue, chunkSize, k);
    }
    EndsAlike(complete, streamed, init, s, t);
  }

  // ----- an open stream interrupted -----

  /** A context that is canceled while the third event of the first stream is awaited. */
  function CanceledMidStream(): Config {
    Config((name: string, input: string) => NotFound, None, (name: string, input: string) => "",
           (k: nat, p: Point) =>
             if p == AtTop || p == AtCall || p == AtNext(0) || p == AtNext(1) then Live else CtxCanceled,
           (k: nat) => 0, (k: nat) => 0)
  }

  const HELLO := ChatResponse("", "", "end_turn", [Text("hi")], Usage(0, 0, 0, 0, 0.0))

  lemma FragmentDrained()
    ensures DrainFrom(Lowered(HELLO, 1), NextDone(CanceledMidStream(), 1), 0, EMPTY_ACC)
         == Reply(ChatResponse("", "", "", [Text("h")], EMPTY_ACC.usage))
  {
    var done, events, content := NextDone(CanceledMidStream(), 1), Lowered(HELLO, 1), HELLO.content;
    assert content[..0] == [] && "hi"[..1] == "h" && "hi"[1..] == "i";
    assert LowerBlocks(content, 1) == LowerBlocks([], 1) + LowerBlock(Text("hi"), 1);
    assert events[0] == MessageStart("", "") && events[1] == ContentDelta("h") && |events| == 5;
    var acc := EMPTY_ACC.(text := "h");
    assert "" + "h" == "h";
    assert DrainFrom(events, done, 2, acc) == Reply(Assemble(acc));
    assert DrainFrom(events, done, 1, EMPTY_ACC) == DrainFrom(events, done, 2, acc);
  }

  lemma NoToolUses(text: string)
    ensures ToolUses([Text(text)]) == []
  {
    assert [Text(text)][..0] == [];
  }

  /** UninterruptedStreams is needed: a run canceled in the middle of a stream does not end
      canceled, it completes with the fragment read so far for its last message, where the
      same run with Stream off completes with the whole text. */
  lemma InterruptedStreamPassesForWhole(budget: Budget)
    requires Unused(budget)
    requires CheckTurn(budget.(elapsed := 0)).None? && budget.maxLLMCalls != 1
    ensures var complete := QueueEnv(CanceledMidStream(), [HELLO], 1, None, false);
            var streamed := QueueEnv(CanceledMidStream(), [HELLO], 1, None, true);
            var s := Iterations(complete, NewExec(complete, "", budget, [], map[]), 1);
            var t := Iterations(streamed, NewExec(streamed, "", budget, [], map[]), 1);
            && s.run.state == t.run.state == Completed
            && s.messages == [Message(Assistant, [Text("hi")])]
            && t.messages == [Message(Assistant, [Text("h")])]
  {
    hide DrainFrom, Lowered, ToolUses, OnTools;
    FragmentDrained();
    NoToolUses("h");
    NoToolUses("hi");
  }
}
