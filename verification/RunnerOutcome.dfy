/** How and when a run ends, and what it leaves, told from its surroundings and its turn results
    alone. */
module RunnerOutcome {
  import opened Options
  import opened Chat
  import opened LoopDetector
  import opened Lifecycle
  import opened Runner
  import opened RunnerSafety

  // ----- caps -----

  datatype Spent = Spent(turns: nat, cost: real, llmCalls: nat, toolCalls: nat, elapsed: int)

  /** A positive cap that was reached. */
  predicate Hit(caps: Budget, spent: Spent, axis: Axis) {
    match axis
    case Turns => 0 < caps.maxTurns <= spent.turns
    case Cost => 0.0 < caps.maxCost <= spent.cost
    case LLMCalls => 0 < caps.maxLLMCalls <= spent.llmCalls
    case ToolCalls => 0 < caps.maxToolCalls <= spent.toolCalls
    case Timeout => 0 < caps.maxDuration <= spent.elapsed
  }

  /** The order in which caps are named. */
  function Rank(axis: Axis): nat {
    match axis case Turns => 0 case Cost => 1 case LLMCalls => 2 case ToolCalls => 3 case Timeout => 4
  }

  const ALL_AXES := {Turns, Cost, LLMCalls, ToolCalls, Timeout}

  /** The axes that are looked at again once the reply is in. */
  const REPLY_AXES := {Cost, LLMCalls}

  predicate NoneHit(caps: Budget, spent: Spent, axes: set<Axis>) {
    forall axis :: axis in axes ==> !Hit(caps, spent, axis)
  }

  predicate FirstHit(caps: Budget, spent: Spent, axes: set<Axis>, axis: Axis) {
    axis in axes && Hit(caps, spent, axis) && forall a :: a in axes && Hit(caps, spent, a) ==> Rank(axis) <= Rank(a)
  }

  // ----- what the detector sees -----

  /** A run's surroundings, its budget, and what the detector had seen of it before. */
  datatype Setting = Setting(env: Env, caps: Budget, seen: seq<LoopEvent>)

  /** The calls of turn k that the detector is told of: those at which the context is live. */
  function LiveCalls(cfg: Config, k: nat, uses: seq<ContentBlock>): seq<LoopEvent> {
    if uses == [] then []
    else
      var n := |uses| - 1;
      LiveCalls(cfg, k, uses[..n])
      + if uses[n].ToolUse? && cfg.ctx(k, AtObserve(n)) == Live
        then [LoopEvent(ToolCallEvent, uses[n].name, cfg.contentHash(uses[n].name, uses[n].input))] else []
  }

  function CallsOf(t: TurnResult): seq<ContentBlock> {
    if t.toolCalls == 0 || t.response.None? then [] else ToolUses(t.response.value.content)
  }

  function Watched(cfg: Config, turns: seq<TurnResult>): seq<LoopEvent> {
    if turns == [] then []
    else Watched(cfg, turns[..|turns| - 1]) + LiveCalls(cfg, turns[|turns| - 1].index, CallsOf(turns[|turns| - 1]))
  }

  ghost predicate CleanUpTo(th: Thresholds, seen: seq<LoopEvent>, live: seq<LoopEvent>, n: int) {
    forall j :: 0 <= j < n <= |live| ==> Verdicted(th, seen + live[..j] + [live[j]]) == Clean
  }

  /** The first verdict on the live calls that is not Clean. */
  ghost predicate LoopsAs(th: Thresholds, seen: seq<LoopEvent>, live: seq<LoopEvent>, pattern: Verdict) {
    exists j :: 0 <= j < |live| && CleanUpTo(th, seen, live, j)
                && pattern == Verdicted(th, seen + live[..j] + [live[j]]) != Clean
  }

  ghost predicate Loops(c: Setting, before: seq<TurnResult>, uses: seq<ContentBlock>, pattern: Verdict) {
    && c.env.thresholds.Some?
    && LoopsAs(c.env.thresholds.value, c.seen + Watched(c.env.cfg, before),
               LiveCalls(c.env.cfg, |before| + 1, uses), pattern)
  }

  // ----- the result of a turn -----

  /** What was used when turn |before| + 1 begins. */
  function AtTopOf(c: Setting, before: seq<TurnResult>): Spent {
    Spent(|before|, CostOf(before), |before|, ToolCallsIn(before), c.env.cfg.clock(|before| + 1) - c.env.cfg.clock(0))
  }

  /** What was used once the turn's reply is in. */
  function OnReplyOf(c: Setting, before: seq<TurnResult>, resp: ChatResponse): Spent {
    AtTopOf(c, before).(turns := |before| + 1, llmCalls := |before| + 1, cost := CostOf(before) + resp.usage.costUSD)
  }

  /** The turn calls the LLM. */
  predicate Begun(c: Setting, before: seq<TurnResult>) {
    NoneHit(c.caps, AtTopOf(c, before), ALL_AXES) && c.env.cfg.ctx(|before| + 1, AtTop) == Live
  }

  predicate Affordable(c: Setting, before: seq<TurnResult>, resp: ChatResponse) {
    NoneHit(c.caps, OnReplyOf(c, before, resp), REPLY_AXES)
  }

  /** The reply asks for no tool. */
  predicate Final(resp: ChatResponse) {
    ToolUses(resp.content) == [] || resp.stopReason != "tool_use"
  }

  /** A failed call that counts as a cancellation. */
  predicate CallCanceled(env: Env, k: nat) {
    env.llm(k).CallFailed? && (env.llm(k).canceled || env.cfg.ctx(k, AfterCall) == CtxCanceled)
  }

  ghost predicate RightTools(c: Setting, before: seq<TurnResult>, resp: ChatResponse, t: TurnResult) {
    var k, uses := |before| + 1, ToolUses(resp.content);
    || (exists v :: Loops(c, before, uses, v) && t == TurnResult(k, 1, |uses|, Some(resp), Failed, Some(LoopFound(v))))
    || (t == TurnResult(k, 1, |uses|, Some(resp), Running, None) && forall v :: !Loops(c, before, uses, v))
  }

  ghost predicate RightReply(c: Setting, before: seq<TurnResult>, resp: ChatResponse, t: TurnResult) {
    var k := |before| + 1;
    || (exists axis :: FirstHit(c.caps, OnReplyOf(c, before, resp), REPLY_AXES, axis)
          && t == TurnResult(k, 1, 0, Some(resp), Failed, Some(BudgetExhausted(axis))))
    || (&& Affordable(c, before, resp)
        && if Final(resp) then t == TurnResult(k, 1, 0, Some(resp), Completed, None)
           else RightTools(c, before, resp, t))
  }

  /** t is what turn |before| + 1 has to result in. */
  ghost predicate Right(c: Setting, before: seq<TurnResult>, t: TurnResult) {
    var k := |before| + 1;
    || (exists axis :: FirstHit(c.caps, AtTopOf(c, before), ALL_AXES, axis)
          && t == TurnResult(k, 0, 0, None, Failed, Some(BudgetExhausted(axis))))
    || (&& Begun(c, before)
        && match c.env.llm(k)
           case CallFailed(_) =>
             t == TurnResult(k, 1, 0, None, if CallCanceled(c.env, k) then Canceled else Failed, Some(LLMFailed))
           case Reply(resp) => RightReply(c, before, resp, t))
  }

  // ----- the messages of a turn -----

  function Spoken(cfg: Config, t: TurnResult): seq<Message> {
    if t.response.None? || (t.error.Some? && t.error.value.BudgetExhausted?) then []
    else
      var content := t.response.value.content;
      ToolUsesOfToolUses(content);
      [Message(Assistant, content)] + if t.toolCalls == 0 then [] else [Message(User, Answers(cfg, ToolUses(content)))]
  }

  function Transcript(cfg: Config, turns: seq<TurnResult>): seq<Message> {
    if turns == [] then [] else Transcript(cfg, turns[..|turns| - 1]) + Spoken(cfg, turns[|turns| - 1])
  }

  // ----- what every state of a run keeps -----

  ghost predicate AllRight(c: Setting, turns: seq<TurnResult>) {
    forall i :: 0 <= i < |turns| ==> Right(c, turns[..i], turns[i])
  }

  predicate AllRunning(turns: seq<TurnResult>) {
    forall i :: 0 <= i < |turns| ==> turns[i].nextState == Running
  }

  /** Canceled before the next turn made its LLM call. */
  predicate CutOff(c: Setting, s: Exec) {
    && AllRunning(s.turns) && s.run.state == Canceled
    && NoneHit(c.caps, AtTopOf(c, s.turns), ALL_AXES) && c.env.cfg.ctx(|s.turns| + 1, AtTop) != Live
    && s.run.endedAt == Some(c.env.cfg.endClock(|s.turns| + 1))
  }

  /** Ended by its last turn. */
  predicate EndedByTurn(c: Setting, s: Exec) {
    var n := |s.turns| - 1;
    && n >= 0 && AllRunning(s.turns[..n]) && s.turns[n].nextState != Running
    && s.run.state == s.turns[n].nextState && s.run.endedAt == Some(c.env.cfg.endClock(|s.turns|))
  }

  ghost predicate Watching(c: Setting, s: Exec) {
    c.env.thresholds.Some? ==> Scanned(StateOf(s.states, s.run.id), c.seen + Watched(c.env.cfg, s.turns))
  }

  ghost predicate Told(c: Setting, initial: seq<Message>, s: Exec) {
    && s.run.startedAt == c.env.cfg.clock(0)
    && AllRight(c, s.turns) && s.messages == initial + Transcript(c.env.cfg, s.turns)
    && (if s.done then CutOff(c, s) || EndedByTurn(c, s) else AllRunning(s.turns) && Watching(c, s))
  }

  /** The detector can tell calls apart. */
  ghost predicate Legible(c: Setting) {
    c.env.thresholds.Some? ==>
      PlainHashes(c.seen) && forall name: string, input: string :: BAR !in c.env.cfg.contentHash(name, input)
  }

  // ----- the detector over one turn -----

  lemma LiveStep(cfg: Config, k: nat, uses: seq<ContentBlock>, i: nat)
    requires i < |uses| && uses[i].ToolUse?
    ensures LiveCalls(cfg, k, uses[..i + 1])
         == LiveCalls(cfg, k, uses[..i]) + if cfg.ctx(k, AtObserve(i)) == Live then [CallEvent(cfg, uses[i])] else []
  {
    assert uses[..i + 1][..i] == uses[..i];
  }

  lemma {:induction false} LivePrefix(cfg: Config, k: nat, uses: seq<ContentBlock>, i: nat)
    requires i <= |uses|
    ensures LiveCalls(cfg, k, uses[..i]) <= LiveCalls(cfg, k, uses)
    decreases |uses|
  {
    if i == |uses| {
      assert uses[..i] == uses;
    } else {
      var front := uses[..|uses| - 1];
      LivePrefix(cfg, k, front, i);
      assert front[..i] == uses[..i];
    }
  }

  lemma {:induction false} LivePlain(cfg: Config, k: nat, uses: seq<ContentBlock>)
    requires forall name: string, input: string :: BAR !in cfg.contentHash(name, input)
    ensures PlainHashes(LiveCalls(cfg, k, uses))
  {
    if uses != [] {
      LivePlain(cfg, k, uses[..|uses| - 1]);
    }
  }

  lemma {:induction false} WatchedPlain(cfg: Config, turns: seq<TurnResult>)
    requires forall name: string, input: string :: BAR !in cfg.contentHash(name, input)
    ensures PlainHashes(Watched(cfg, turns))
  {
    if turns != [] {
      var t := turns[|turns| - 1];
      WatchedPlain(cfg, turns[..|turns| - 1]);
      LivePlain(cfg, t.index, CallsOf(t));
    }
  }

  /** Observing the calls from block i on finds the first loop among the live ones. */
  lemma {:induction false} ObserveFinds(cfg: Config, th: Thresholds, id: string, k: nat,
                                        states: map<string, LoopState>, seen: seq<LoopEvent>,
                                        uses: seq<ContentBlock>, i: nat)
    requires i <= |uses| && forall j :: 0 <= j < |uses| ==> uses[j].ToolUse?
    requires PlainHashes(seen + LiveCalls(cfg, k, uses))
    requires Scanned(StateOf(states, id), seen + LiveCalls(cfg, k, uses[..i]))
    requires CleanUpTo(th, seen, LiveCalls(cfg, k, uses), |LiveCalls(cfg, k, uses[..i])|)
    ensures var (after, verdict) := ObserveFrom(cfg, th, id, k, states, uses, i);
            var live := LiveCalls(cfg, k, uses);
            if verdict == Clean
            then Scanned(StateOf(after, id), seen + live) && CleanUpTo(th, seen, live, |live|)
            else LoopsAs(th, seen, live, verdict)
    decreases |uses| - i
  {
    hide Scanned, Verdicted, Count, Judge, LiveCalls, PlainHashes;
    var live, m := LiveCalls(cfg, k, uses), |LiveCalls(cfg, k, uses[..i])|;
    if i == |uses| {
      assert uses[..i] == uses;
    } else if cfg.ctx(k, AtObserve(i)) != Live {
      LiveStep(cfg, k, uses, i);
      assert LiveCalls(cfg, k, uses[..i]) + [] == LiveCalls(cfg, k, uses[..i]);
      ObserveFinds(cfg, th, id, k, states, seen, uses, i + 1);
    } else {
      var ev := CallEvent(cfg, uses[i]);
      var after := Observed(states, id, ev);
      LiveStep(cfg, k, uses, i);
      LivePrefix(cfg, k, uses, i);
      LivePrefix(cfg, k, uses, i + 1);
      assert live[..m] == LiveCalls(cfg, k, uses[..i]) && live[m] == ev;
      PlainPart(seen, live, m);
      ScannedVerdict(th, StateOf(states, id), seen + live[..m], ev);
      assert seen + (live[..m] + [ev]) == seen + live[..m] + [ev];
      assert after[id] == Count(StateOf(states, id), ev) == StateOf(after, id);
      if Judge(th, after[id], ev) == Clean {
        ObserveFinds(cfg, th, id, k, after, seen, uses, i + 1);
      } else {
        assert LoopsAs(th, seen, live, Judge(th, after[id], ev));
      }
    }
  }

  lemma PlainPart(seen: seq<LoopEvent>, live: seq<LoopEvent>, m: nat)
    requires m < |live| && PlainHashes(seen + live)
    ensures PlainHashes(seen + live[..m] + [live[m]])
  {
  }

  lemma LoopIsFirst(th: Thresholds, seen: seq<LoopEvent>, live: seq<LoopEvent>, v: Verdict)
    requires CleanUpTo(th, seen, live, |live|)
    ensures !LoopsAs(th, seen, live, v)
  {
    hide Verdicted;
  }

  /** What the detector finds in a turn is what Loops says, and it goes on watching. */
  lemma TurnWatched(c: Setting, s: Exec, k: nat, uses: seq<ContentBlock>)
    requires Legible(c) && Watching(c, s) && k == |s.turns| + 1
    requires forall j :: 0 <= j < |uses| ==> uses[j].ToolUse?
    ensures var (after, verdict) := ObserveTurn(c.env, s.run.id, k, s.states, uses);
            if verdict == Clean
            then && (forall v :: !Loops(c, s.turns, uses, v))
                 && (c.env.thresholds.Some? ==>
                       Scanned(StateOf(after, s.run.id),
                               c.seen + (Watched(c.env.cfg, s.turns) + LiveCalls(c.env.cfg, k, uses))))
            else Loops(c, s.turns, uses, verdict)
  {
    hide Scanned, LoopsAs, CleanUpTo, LiveCalls, Watched, ObserveFrom;
    if c.env.thresholds.Some? {
      var cfg, th := c.env.cfg, c.env.thresholds.value;
      var seen, live := c.seen + Watched(cfg, s.turns), LiveCalls(cfg, k, uses);
      LivePlain(cfg, k, uses);
      WatchedPlain(cfg, s.turns);
      NoCalls(cfg, k);
      assert uses[..0] == [];
      assert seen + [] == seen;
      NothingYet(th, seen, live);
      ObserveFinds(cfg, th, s.run.id, k, s.states, seen, uses, 0);
      assert seen + live == c.seen + (Watched(cfg, s.turns) + live);
      if ObserveFrom(cfg, th, s.run.id, k, s.states, uses, 0).1 == Clean {
        forall v ensures !LoopsAs(th, seen, live, v) {
          LoopIsFirst(th, seen, live, v);
        }
      }
    }
  }

  lemma NoCalls(cfg: Config, k: nat)
    ensures LiveCalls(cfg, k, []) == []
  {
  }

  lemma NothingYet(th: Thresholds, seen: seq<LoopEvent>, live: seq<LoopEvent>)
    ensures CleanUpTo(th, seen, live, 0)
  {
  }

  // ----- caps and counters -----

  lemma ChecksHit(caps: Budget, b: Budget, spent: Spent)
    requires SameCaps(caps, b)
    requires b.usedTurns == spent.turns && b.usedCost == spent.cost && b.usedLLMCalls == spent.llmCalls
    requires b.usedToolCalls == spent.toolCalls && b.elapsed == spent.elapsed
    ensures match CheckTurn(b)
            case None => NoneHit(caps, spent, ALL_AXES)
            case Some(axis) => FirstHit(caps, spent, ALL_AXES, axis)
    ensures match CheckCost(b)
            case None => NoneHit(caps, spent, REPLY_AXES)
            case Some(axis) => FirstHit(caps, spent, REPLY_AXES, axis)
  {
  }

  lemma CountersAre(caps: Budget, s: Exec)
    requires Accounted(s) && Capped(caps, s) && !s.done
    ensures var b := s.run.budget;
            && s.run.currentTurn == |s.turns| == b.usedTurns == b.usedLLMCalls
            && b.usedCost == CostOf(s.turns) && b.usedToolCalls == ToolCallsIn(s.turns)
  {
    OneCallPerTurn(s.turns);
  }

  lemma CapsAre(caps: Budget, s: Exec)
    requires Capped(caps, s)
    ensures SameCaps(caps, s.run.budget)
  {
    hide Under;
  }

  // ----- one iteration -----

  /** The loop is left with this state, turn results and messages. */
  predicate LeavesWith(s: Exec, s': Exec, state: State, at: int, result: seq<TurnResult>, said: seq<Message>) {
    && s'.done && s'.run.state == state && s'.run.endedAt == Some(at) && s'.run.startedAt == s.run.startedAt
    && s'.turns == s.turns + result && s'.messages == s.messages + said
  }

  lemma StopLeaves(s: Exec, cmd: Command, now: int, result: seq<TurnResult>)
    requires s.run.state == Running && cmd in {Complete, Fail, Cancel}
    ensures LeavesWith(s, Stop(s, cmd, now, result),
                       if cmd == Complete then Completed else if cmd == Fail then Failed else Canceled, now, result, [])
  {
  }

  /** The state once the turn has called the LLM. */
  function Called(c: Setting, s: Exec): Exec {
    var k, b := s.run.currentTurn + 1, s.run.budget;
    s.(run := s.run.(currentTurn := k, budget := b.(elapsed := c.env.cfg.clock(k) - s.run.startedAt,
                                                    usedLLMCalls := b.usedLLMCalls + 1)))
  }

  lemma TopPhase(c: Setting, s: Exec)
    requires !s.done && s.run.state == Running
    ensures var s', k, cfg := Iterate(c.env, s), s.run.currentTurn + 1, c.env.cfg;
            match CheckTurn(s.run.budget.(elapsed := cfg.clock(k) - s.run.startedAt))
            case Some(axis) =>
              LeavesWith(s, s', Failed, cfg.endClock(k),
                         [TurnResult(k, 0, 0, None, Failed, Some(BudgetExhausted(axis)))], [])
            case None =>
              if cfg.ctx(k, AtTop) != Live then LeavesWith(s, s', Canceled, cfg.endClock(k), [], [])
              else if c.env.llm(k).Reply? then s' == OnReply(c.env, Called(c, s), c.env.llm(k).resp)
              else
                var state := if CallCanceled(c.env, k) then Canceled else Failed;
                LeavesWith(s, s', state, cfg.endClock(k), [TurnResult(k, 1, 0, None, state, Some(LLMFailed))], [])
  {
    hide OnReply, CheckTurn;
  }

  lemma ReplyPhase(env: Env, s: Exec, resp: ChatResponse)
    requires !s.done && s.run.state == Running
    ensures var s', k, b := OnReply(env, s, resp), s.run.currentTurn, s.run.budget;
            var b' := b.(usedCost := b.usedCost + resp.usage.costUSD, usedTurns := b.usedTurns + 1);
            var said, now := [Message(Assistant, resp.content)], env.cfg.endClock(k);
            match CheckCost(b')
            case Some(axis) =>
              LeavesWith(s, s', Failed, now, [TurnResult(k, 1, 0, Some(resp), Failed, Some(BudgetExhausted(axis)))], [])
            case None =>
              if Final(resp)
              then LeavesWith(s, s', Completed, now, [TurnResult(k, 1, 0, Some(resp), Completed, None)], said)
              else s' == OnTools(env, s.(run := s.run.(budget := b'), messages := s.messages + said), resp)
  {
    hide OnTools, CheckCost;
  }

  lemma ToolsLeave(env: Env, s: Exec, resp: ChatResponse)
    requires !s.done && s.run.state == Running
    ensures var s', k, uses := OnTools(env, s, resp), s.run.currentTurn, ToolUses(resp.content);
            && (forall i :: 0 <= i < |uses| ==> uses[i].ToolUse?)
            && var (states, verdict) := ObserveTurn(env, s.run.id, k, s.states, uses);
               var said := [Message(User, Answers(env.cfg, uses))];
               if verdict != Clean
               then LeavesWith(s, s', Failed, env.cfg.endClock(k),
                               [TurnResult(k, 1, |uses|, Some(resp), Failed, Some(LoopFound(verdict)))], said)
               else && !s'.done && s'.run.startedAt == s.run.startedAt && s'.run.id == s.run.id && s'.states == states
                    && s'.turns == s.turns + [TurnResult(k, 1, |uses|, Some(resp), Running, None)]
                    && s'.messages == s.messages + said
  {
    hide ObserveTurn, Answers, ToolUses;
    ToolUsesOfToolUses(resp.content);
  }

  lemma RightSnoc(c: Setting, turns: seq<TurnResult>, t: TurnResult)
    requires AllRight(c, turns) && Right(c, turns, t)
    ensures AllRight(c, turns + [t])
  {
    hide Right;
    var turns' := turns + [t];
    forall i | 0 <= i < |turns'| ensures Right(c, turns'[..i], turns'[i]) {
      if i < |turns| {
        assert turns'[..i] == turns[..i];
      } else {
        assert turns'[..i] == turns;
      }
    }
  }

  lemma TranscriptSnoc(cfg: Config, turns: seq<TurnResult>, t: TurnResult)
    ensures Transcript(cfg, turns + [t]) == Transcript(cfg, turns) + Spoken(cfg, t)
    ensures Watched(cfg, turns + [t]) == Watched(cfg, turns) + LiveCalls(cfg, t.index, CallsOf(t))
  {
    hide Spoken, LiveCalls, CallsOf;
    assert (turns + [t])[..|turns|] == turns;
  }

  /** A turn that ends the run. */
  lemma ToldEnd(c: Setting, initial: seq<Message>, s: Exec, s': Exec, t: TurnResult)
    requires Told(c, initial, s) && !s.done && Right(c, s.turns, t) && t.nextState != Running
    requires LeavesWith(s, s', t.nextState, c.env.cfg.endClock(|s.turns| + 1), [t], Spoken(c.env.cfg, t))
    ensures Told(c, initial, s')
  {
    hide Right, Spoken, AllRight, Transcript, Watching, Watched;
    RightSnoc(c, s.turns, t);
    TranscriptSnoc(c.env.cfg, s.turns, t);
    assert s'.turns[..|s.turns|] == s.turns;
    assert EndedByTurn(c, s');
  }

  lemma ToldOn(c: Setting, initial: seq<Message>, s: Exec, s': Exec, t: TurnResult)
    requires Told(c, initial, s) && !s.done && Right(c, s.turns, t) && t.nextState == Running
    requires !s'.done && s'.run.startedAt == s.run.startedAt && s'.turns == s.turns + [t]
    requires s'.messages == s.messages + Spoken(c.env.cfg, t) && Watching(c, s')
    ensures Told(c, initial, s')
  {
    hide Right, Spoken, AllRight, Transcript, Watching, Watched;
    RightSnoc(c, s.turns, t);
    TranscriptSnoc(c.env.cfg, s.turns, t);
  }

  lemma ToldTools(c: Setting, initial: seq<Message>, s: Exec, t0: Exec, resp: ChatResponse)
    requires Legible(c) && Told(c, initial, s) && !s.done
    requires var k := |s.turns| + 1;
             && Begun(c, s.turns) && c.env.llm(k) == Reply(resp) && Affordable(c, s.turns, resp) && !Final(resp)
             && t0.run.state == Running && !t0.done && t0.run.currentTurn == k && t0.run.id == s.run.id
             && t0.run.startedAt == s.run.startedAt && t0.states == s.states && t0.turns == s.turns
             && t0.messages == s.messages + [Message(Assistant, resp.content)]
    ensures Told(c, initial, OnTools(c.env, t0, resp))
  {
    hide OnTools, ObserveTurn, Loops, Watched, LiveCalls, Answers, ToolUses, AllRight, AllRunning, Transcript, Scanned,
         StateOf, Begun, Affordable, Legible, CutOff, EndedByTurn;
    var k, uses, s' := |s.turns| + 1, ToolUses(resp.content), OnTools(c.env, t0, resp);
    ToolsLeave(c.env, t0, resp);
    TurnWatched(c, s, k, uses);
    var verdict := ObserveTurn(c.env, s.run.id, k, s.states, uses).1;
    var said := [Message(Assistant, resp.content)] + [Message(User, Answers(c.env.cfg, uses))];
    assert s'.messages == s.messages + said;
    if verdict != Clean {
      var t := TurnResult(k, 1, |uses|, Some(resp), Failed, Some(LoopFound(verdict)));
      assert RightTools(c, s.turns, resp, t);
      assert Spoken(c.env.cfg, t) == said;
      ToldEnd(c, initial, s, s', t);
    } else {
      var t := TurnResult(k, 1, |uses|, Some(resp), Running, None);
      assert RightTools(c, s.turns, resp, t);
      assert Spoken(c.env.cfg, t) == said;
      TranscriptSnoc(c.env.cfg, s.turns, t);
      assert CallsOf(t) == uses;
      ToldOn(c, initial, s, s', t);
    }
  }

  lemma ToldReply(c: Setting, initial: seq<Message>, s: Exec, resp: ChatResponse)
    requires Legible(c) && Told(c, initial, s) && !s.done && s.run.state == Running
    requires Accounted(s) && Capped(c.caps, s) && Begun(c, s.turns) && c.env.llm(|s.turns| + 1) == Reply(resp)
    ensures Told(c, initial, OnReply(c.env, Called(c, s), resp))
  {
    hide OnReply, CheckCost, CheckTurn, NoneHit, FirstHit, AllRight, AllRunning, Transcript, Watching, Accounted,
         Capped, Begun, ToolUses, RightTools, CostOf, ToolCallsIn, Legible, CutOff, EndedByTurn;
    CountersAre(c.caps, s);
    var s1, k := Called(c, s), |s.turns| + 1;
    var b := s1.run.budget.(usedCost := s1.run.budget.usedCost + resp.usage.costUSD,
                            usedTurns := s1.run.budget.usedTurns + 1);
    ReplyPhase(c.env, s1, resp);
    CapsAre(c.caps, s);
    ChecksHit(c.caps, b, OnReplyOf(c, s.turns, resp));
    match CheckCost(b)
    case Some(axis) =>
      var t := TurnResult(k, 1, 0, Some(resp), Failed, Some(BudgetExhausted(axis)));
      assert RightReply(c, s.turns, resp, t);
      ToldEnd(c, initial, s, OnReply(c.env, s1, resp), t);
    case None =>
      if Final(resp) {
        var t := TurnResult(k, 1, 0, Some(resp), Completed, None);
        assert RightReply(c, s.turns, resp, t);
        assert Spoken(c.env.cfg, t) == [Message(Assistant, resp.content)];
        ToldEnd(c, initial, s, OnReply(c.env, s1, resp), t);
      } else {
        var t0 := s1.(run := s1.run.(budget := b), messages := s1.messages + [Message(Assistant, resp.content)]);
        ToldTools(c, initial, s, t0, resp);
      }
  }

  lemma ToldStep(c: Setting, initial: seq<Message>, s: Exec)
    requires Legible(c) && Told(c, initial, s) && !s.done && s.run.state == Running
    requires Accounted(s) && Capped(c.caps, s)
    ensures Told(c, initial, Iterate(c.env, s))
  {
    hide Iterate, CheckCost, CheckTurn, NoneHit, FirstHit, AllRight, AllRunning, Transcript, Watching, RightReply,
         OnReply, Accounted, Capped, CostOf, ToolCallsIn, Legible, EndedByTurn;
    CountersAre(c.caps, s);
    CapsAre(c.caps, s);
    var k := |s.turns| + 1;
    TopPhase(c, s);
    var b := s.run.budget.(elapsed := c.env.cfg.clock(k) - s.run.startedAt);
    ChecksHit(c.caps, b, AtTopOf(c, s.turns));
    var s' := Iterate(c.env, s);
    match CheckTurn(b)
    case Some(axis) =>
      var t := TurnResult(k, 0, 0, None, Failed, Some(BudgetExhausted(axis)));
      assert Right(c, s.turns, t);
      ToldEnd(c, initial, s, s', t);
    case None =>
      if c.env.cfg.ctx(k, AtTop) != Live {
        assert s'.turns == s.turns && s'.messages == s.messages;
        assert CutOff(c, s');
      } else if c.env.llm(k).Reply? {
        ToldReply(c, initial, s, c.env.llm(k).resp);
      } else {
        var state := if CallCanceled(c.env, k) then Canceled else Failed;
        var t := TurnResult(k, 1, 0, None, state, Some(LLMFailed));
        assert Right(c, s.turns, t);
        ToldEnd(c, initial, s, s', t);
      }
  }

  // ----- every run -----

  /** The turn a finished run ended in: its last one, or the one it was canceled in front of. */
  function EndTurn(s: Exec): nat {
    if s.turns == [] || s.turns[|s.turns| - 1].nextState == Running then |s.turns| + 1 else |s.turns|
  }

  /** The error of a failed run's last turn says why it failed. */
  ghost predicate Blamed(c: Setting, before: seq<TurnResult>, t: TurnResult) {
    var reply := c.env.llm(|before| + 1);
    if !NoneHit(c.caps, AtTopOf(c, before), ALL_AXES) then
      exists axis :: FirstHit(c.caps, AtTopOf(c, before), ALL_AXES, axis) && t.error == Some(BudgetExhausted(axis))
    else if reply.CallFailed? then t.error == Some(LLMFailed)
    else if !Affordable(c, before, reply.resp) then
      exists axis :: FirstHit(c.caps, OnReplyOf(c, before, reply.resp), REPLY_AXES, axis)
                     && t.error == Some(BudgetExhausted(axis))
    else exists v :: Loops(c, before, ToolUses(reply.resp.content), v) && t.error == Some(LoopFound(v))
  }

  /** Why and how the run ended in the turn it ended in. */
  ghost predicate Concluded(c: Setting, s: Exec) {
    var k := EndTurn(s);
    && k - 1 <= |s.turns| <= k
    && var before, env, reply := s.turns[..k - 1], c.env, c.env.llm(k);
       && AllRunning(before)
       && (s.run.state.Canceled? <==>
             && NoneHit(c.caps, AtTopOf(c, before), ALL_AXES)
             && (env.cfg.ctx(k, AtTop) != Live || CallCanceled(env, k)))
       && (s.run.state.Completed? <==>
             && Begun(c, before) && reply.Reply? && Affordable(c, before, reply.resp) && Final(reply.resp))
       && (s.run.state.Failed? <==> !s.run.state.Canceled? && !s.run.state.Completed?)
       && (s.run.state.Failed? ==> |s.turns| == k && Blamed(c, before, s.turns[k - 1]))
       && s.run.endedAt == Some(env.cfg.endClock(k))
  }

  lemma RightConcludes(c: Setting, before: seq<TurnResult>, t: TurnResult)
    requires Right(c, before, t) && t.nextState != Running
    ensures var k, reply := |before| + 1, c.env.llm(|before| + 1);
            && (t.nextState.Canceled? <==>
                  && NoneHit(c.caps, AtTopOf(c, before), ALL_AXES)
                  && (c.env.cfg.ctx(k, AtTop) != Live || CallCanceled(c.env, k)))
            && (t.nextState.Completed? <==>
                  && Begun(c, before) && reply.Reply? && Affordable(c, before, reply.resp) && Final(reply.resp))
            && (t.nextState.Failed? <==> !t.nextState.Canceled? && !t.nextState.Completed?)
            && (t.nextState.Failed? ==> Blamed(c, before, t))
  {
    hide Hit, Loops, ToolUses, Rank, AtTopOf, OnReplyOf;
    var spent, reply := AtTopOf(c, before), c.env.llm(|before| + 1);
    forall axis | FirstHit(c.caps, spent, ALL_AXES, axis) ensures !NoneHit(c.caps, spent, ALL_AXES) {
    }
    if reply.Reply? {
      var after := OnReplyOf(c, before, reply.resp);
      forall axis | FirstHit(c.caps, after, REPLY_AXES, axis) ensures !NoneHit(c.caps, after, REPLY_AXES) {
      }
    }
  }

  lemma ToldConcludes(c: Setting, initial: seq<Message>, s: Exec)
    requires Told(c, initial, s) && s.done
    ensures Concluded(c, s)
  {
    hide Right, Blamed, Affordable, Final, NoneHit, Transcript;
    if EndedByTurn(c, s) {
      var n := |s.turns| - 1;
      assert Right(c, s.turns[..n], s.turns[n]);
      RightConcludes(c, s.turns[..n], s.turns[n]);
    } else {
      assert s.turns[..|s.turns|] == s.turns;
    }
  }

  /** Every state of every new run, under any provider, tools, context, clock and budget, with any
      detector: each turn resulted in what it had to, the messages are the initial history and
      what the turns said, and once it is done it ended as it had to in the turn it had to. */
  lemma {:induction false} RunTold(c: Setting, id: string, initial: seq<Message>, history: seq<Entry>, s: Exec)
    requires Unused(c.caps) && Legible(c) && c.seen == EventsOf(history, id)
    requires Reached(c.env, NewExec(c.env, id, c.caps, initial, Replay(history)), s)
    ensures AllRight(c, s.turns) && s.messages == initial + Transcript(c.env.cfg, s.turns)
    ensures s.done ==> Concluded(c, s)
  {
    var init := NewExec(c.env, id, c.caps, initial, Replay(history));
    var inv := (t: Exec) => Lively(t) && Accounted(t) && Capped(c.caps, t) && Told(c, initial, t);
    CountersMatchScan(history, id);
    assert c.seen + [] == c.seen && initial + [] == initial;
    assert inv(init);
    forall t | inv(t) && !t.done ensures inv(Iterate(c.env, t)) {
      hide *;
      InvariantStep(c, initial, t);
    }
    Preserved(c.env, inv, init, s);
    if s.done {
      ToldConcludes(c, initial, s);
    }
  }

  lemma InvariantStep(c: Setting, initial: seq<Message>, s: Exec)
    requires Legible(c) && Lively(s) && Accounted(s) && Capped(c.caps, s) && Told(c, initial, s) && !s.done
    ensures var s' := Iterate(c.env, s); Lively(s') && Accounted(s') && Capped(c.caps, s') && Told(c, initial, s')
  {
    LivelyStep(c.env, s);
    AccountingStep(c.env, s, c.caps);
    hide Iterate, Accounted, Capped, Told, Legible;
    ToldStep(c, initial, s);
  }

  // ----- a loop that is found is there -----

  lemma {:induction false} LiveAreCalls(cfg: Config, k: nat, uses: seq<ContentBlock>)
    ensures forall ev :: ev in LiveCalls(cfg, k, uses) ==> ev.kind.ToolCallEvent?
  {
    if uses != [] {
      LiveAreCalls(cfg, k, uses[..|uses| - 1]);
    }
  }

  lemma {:induction false} WatchedAreCalls(cfg: Config, turns: seq<TurnResult>)
    ensures forall ev :: ev in Watched(cfg, turns) ==> ev.kind.ToolCallEvent?
  {
    if turns != [] {
      WatchedAreCalls(cfg, turns[..|turns| - 1]);
      LiveAreCalls(cfg, turns[|turns| - 1].index, CallsOf(turns[|turns| - 1]));
    }
  }

  lemma {:induction false} CallsAct(events: seq<LoopEvent>)
    requires forall ev :: ev in events ==> ev.kind.ToolCallEvent?
    ensures Acting(events) == events
  {
    if events != [] {
      var front, last := events[..|events| - 1], events[|events| - 1];
      assert last in events && events == front + [last];
      CallsAct(front);
    }
  }

  lemma {:induction false} LoopedEvents(c: Setting, before: seq<TurnResult>, t: TurnResult)
      returns (watched: seq<LoopEvent>)
    requires c.seen == [] && Right(c, before, t) && t.error == Some(LoopFound(RepeatedToolCall))
    ensures c.env.thresholds.Some? && watched <= Watched(c.env.cfg, before + [t]) && watched != []
    ensures Verdicted(c.env.thresholds.value, watched) == RepeatedToolCall
  {
    hide Verdicted, Hit, ToolUses, LiveCalls, Watched;
    var resp := t.response.value;
    var uses, k := ToolUses(resp.content), |before| + 1;
    assert Loops(c, before, uses, RepeatedToolCall) && t == TurnResult(k, 1, |uses|, Some(resp), t.nextState, t.error);
    var th, seen, live := c.env.thresholds.value, Watched(c.env.cfg, before), LiveCalls(c.env.cfg, k, uses);
    assert [] + seen == seen;
    var j :| 0 <= j < |live| && RepeatedToolCall == Verdicted(th, seen + live[..j] + [live[j]]);
    watched := seen + live[..j] + [live[j]];
    TranscriptSnoc(c.env.cfg, before, t);
    assert CallsOf(t) == uses;
  }

  /** A run that the detector had not seen before and that fails for a repeated tool call did
      dispatch that many calls of the same tool with the same content hash, one after the other
      among the calls the detector was told of. */
  lemma {:induction false} RepeatFoundIsThere(c: Setting, id: string, initial: seq<Message>,
                                              history: seq<Entry>, s: Exec)
    requires Unused(c.caps) && Legible(c) && c.seen == EventsOf(history, id) == []
    requires Reached(c.env, NewExec(c.env, id, c.caps, initial, Replay(history)), s)
    requires s.turns != [] && s.turns[|s.turns| - 1].error == Some(LoopFound(RepeatedToolCall))
    ensures c.env.thresholds.Some? && c.env.thresholds.value.repeated > 0
    ensures exists calls :: calls <= Watched(c.env.cfg, s.turns) && SameCalls(calls, c.env.thresholds.value.repeated)
  {
    hide *;
    RunTold(c, id, initial, history, s);
    LastIsRight(c, s.turns);
    RepeatWithin(c, s.turns);
  }

  lemma LastIsRight(c: Setting, turns: seq<TurnResult>)
    requires AllRight(c, turns) && turns != []
    ensures Right(c, turns[..|turns| - 1], turns[|turns| - 1])
  {
    hide Right;
  }

  lemma {:induction false} RepeatWithin(c: Setting, turns: seq<TurnResult>)
    requires turns != [] && c.seen == [] && turns[|turns| - 1].error == Some(LoopFound(RepeatedToolCall))
    requires Right(c, turns[..|turns| - 1], turns[|turns| - 1])
    ensures c.env.thresholds.Some? && c.env.thresholds.value.repeated > 0
    ensures exists calls :: calls <= Watched(c.env.cfg, turns) && SameCalls(calls, c.env.thresholds.value.repeated)
  {
    hide Right, Watched, SameCalls, Acting, Hashes, EndsWithRun;
    var n := |turns| - 1;
    var calls := LoopedEvents(c, turns[..n], turns[n]);
    assert turns[..n] + [turns[n]] == turns;
    WatchedAreCalls(c.env.cfg, turns);
    assert forall ev :: ev in calls ==> ev in Watched(c.env.cfg, turns);
    CallsAct(calls);
  }
}
