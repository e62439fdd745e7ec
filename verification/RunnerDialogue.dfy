/** The conversation a run leaves behind, and what the loop detector guarantees about the
    tool calls it dispatched. */
module RunnerDialogue {
  import opened Options
  import opened Chat
  import opened LoopDetector
  import opened Lifecycle
  import opened Runner
  import opened RunnerSafety

  // ----- the three ways an iteration can go -----

  /** Ended without a word: over budget, canceled, or no response within budget. */
  predicate EndedQuietly(s: Exec, s': Exec) {
    && s'.done && !s'.run.state.Completed?
    && s'.messages == s.messages && s'.run.budget.usedToolCalls == s.run.budget.usedToolCalls
  }

  predicate EndedCompleted(s: Exec, s': Exec, resp: ChatResponse) {
    && s'.done && s'.run.state.Completed?
    && s'.messages == s.messages + [Message(Assistant, resp.content)]
    && s'.run.budget.usedToolCalls == s.run.budget.usedToolCalls
    && s'.turns == s.turns + [TurnResult(s.run.currentTurn + 1, 1, 0, Some(resp), Completed, None)]
  }

  /** The state in which the tool phase is entered. */
  function BeforeTools(env: Env, s: Exec, resp: ChatResponse): Exec {
    var k, b := s.run.currentTurn + 1, s.run.budget;
    s.(messages := s.messages + [Message(Assistant, resp.content)],
       run := s.run.(currentTurn := k,
                     budget := b.(elapsed := env.cfg.clock(k) - s.run.startedAt, usedLLMCalls := b.usedLLMCalls + 1,
                                  usedCost := b.usedCost + resp.usage.costUSD, usedTurns := b.usedTurns + 1)))
  }

  lemma IterateCases(env: Env, s: Exec)
    requires !s.done && s.run.state == Running
    ensures var s', reply := Iterate(env, s), env.llm(s.run.currentTurn + 1);
            || EndedQuietly(s, s')
            || (reply.Reply? && EndedCompleted(s, s', reply.resp))
            || (reply.Reply? && ToolUses(reply.resp.content) != []
                && s' == OnTools(env, BeforeTools(env, s, reply.resp), reply.resp))
  {
  }

  lemma ToolsPhase(env: Env, s: Exec, resp: ChatResponse)
    requires s.run.state == Running
    ensures var s', uses := OnTools(env, s, resp), ToolUses(resp.content);
            && (forall i :: 0 <= i < |uses| ==> uses[i].ToolUse?)
            && !s'.run.state.Completed? && s'.run.id == s.run.id && s'.run.currentTurn == s.run.currentTurn
            && s'.messages == s.messages + [Message(User, Answers(env.cfg, uses))]
            && s'.run.budget.usedToolCalls == s.run.budget.usedToolCalls + |uses|
            && s'.states == ObserveTurn(env, s.run.id, s.run.currentTurn, s.states, uses).0
            && (!s'.done ==>
                  && ObserveTurn(env, s.run.id, s.run.currentTurn, s.states, uses).1 == Clean
                  && s'.turns == s.turns + [TurnResult(s.run.currentTurn, 1, |uses|, Some(resp), Running, None)])
  {
    ToolUsesOfToolUses(resp.content);
  }

  // ----- the conversation -----

  /** a answers the tool_use blocks of q one for one, in order, each with its own id and
      with what the tool gave for it. */
  predicate Answered(cfg: Config, q: Message, a: Message) {
    var uses := ToolUses(q.content);
    && uses != [] && |a.content| == |uses|
    && forall j :: 0 <= j < |uses| ==>
         uses[j].ToolUse? && a.content[j].ToolResult? && a.content[j].useId == uses[j].id
         && a.content[j] == Answer(cfg, uses[j])
  }

  /** Assistant messages and tool-result messages alternate, beginning with the assistant,
      and each tool-result message answers the assistant message before it. */
  predicate Alternating(cfg: Config, ms: seq<Message>) {
    if ms == [] then true
    else
      var n := |ms| - 1;
      && Alternating(cfg, ms[..n])
      && (if n % 2 == 0 then ms[n].role == Assistant else ms[n].role == User && Answered(cfg, ms[n - 1], ms[n]))
  }

  function AnswersIn(ms: seq<Message>): nat {
    if ms == [] then 0
    else AnswersIn(ms[..|ms| - 1]) + if ms[|ms| - 1].role == User then |ms[|ms| - 1].content| else 0
  }

  predicate Conversed(cfg: Config, initial: seq<Message>, s: Exec) {
    && |initial| <= |s.messages| && s.messages[..|initial|] == initial
    && Alternating(cfg, s.messages[|initial|..])
    && s.run.budget.usedToolCalls == AnswersIn(s.messages[|initial|..])
    && (!s.done ==> |s.messages[|initial|..]| % 2 == 0)
    && (s.run.state.Completed? ==> |s.messages[|initial|..]| % 2 == 1)
  }

  lemma AnswersSnoc(ms: seq<Message>, m: Message)
    ensures AnswersIn(ms + [m]) == AnswersIn(ms) + if m.role == User then |m.content| else 0
  {
    assert (ms + [m])[..|ms|] == ms;
  }

  lemma AlternatingSnoc(cfg: Config, ms: seq<Message>, m: Message)
    requires Alternating(cfg, ms)
    requires if |ms| % 2 == 0 then m.role == Assistant else m.role == User && Answered(cfg, ms[|ms| - 1], m)
    ensures Alternating(cfg, ms + [m])
  {
    hide Answered;
    assert (ms + [m])[..|ms|] == ms;
  }

  lemma ConversedSays(cfg: Config, ms: seq<Message>, q: Message)
    requires Alternating(cfg, ms) && |ms| % 2 == 0 && q.role == Assistant
    ensures Alternating(cfg, ms + [q]) && AnswersIn(ms + [q]) == AnswersIn(ms)
  {
    hide *;
    AlternatingSnoc(cfg, ms, q);
    AnswersSnoc(ms, q);
  }

  lemma ConversedAnswers(cfg: Config, ms: seq<Message>, q: Message, a: Message)
    requires Alternating(cfg, ms) && |ms| % 2 == 0 && q.role == Assistant && a.role == User && Answered(cfg, q, a)
    ensures Alternating(cfg, ms + [q] + [a]) && AnswersIn(ms + [q] + [a]) == AnswersIn(ms) + |a.content|
  {
    hide *;
    ConversedSays(cfg, ms, q);
    AlternatingSnoc(cfg, ms + [q], a);
    AnswersSnoc(ms + [q], a);
  }

  lemma ConversedEnd(cfg: Config, initial: seq<Message>, s: Exec, s': Exec, q: Message)
    requires Conversed(cfg, initial, s) && !s.done && s'.done && s'.messages == s.messages + [q] && q.role == Assistant
    requires s'.run.budget.usedToolCalls == s.run.budget.usedToolCalls
    ensures Conversed(cfg, initial, s')
  {
    var ms := s.messages[|initial|..];
    ConversedSays(cfg, ms, q);
    assert s'.messages[|initial|..] == ms + [q];
  }

  lemma ConversedOn(cfg: Config, initial: seq<Message>, s: Exec, s': Exec, q: Message, a: Message)
    requires Conversed(cfg, initial, s) && !s.done && !s'.run.state.Completed?
    requires s'.messages == s.messages + [q] + [a] && q.role == Assistant && a.role == User && Answered(cfg, q, a)
    requires s'.run.budget.usedToolCalls == s.run.budget.usedToolCalls + |a.content|
    ensures Conversed(cfg, initial, s')
  {
    var ms := s.messages[|initial|..];
    ConversedAnswers(cfg, ms, q, a);
    assert s'.messages[|initial|..] == ms + [q] + [a];
  }

  lemma ConversedStep(env: Env, initial: seq<Message>, s: Exec)
    requires Conversed(env.cfg, initial, s) && !s.done && s.run.state == Running
    ensures Conversed(env.cfg, initial, Iterate(env, s))
  {
    IterateCases(env, s);
    var s' := Iterate(env, s);
    if !EndedQuietly(s, s') {
      var resp := env.llm(s.run.currentTurn + 1).resp;
      var q := Message(Assistant, resp.content);
      if EndedCompleted(s, s', resp) {
        ConversedEnd(env.cfg, initial, s, s', q);
      } else {
        ToolsPhase(env, BeforeTools(env, s, resp), resp);
        ConversedOn(env.cfg, initial, s, s', q, Message(User, Answers(env.cfg, ToolUses(resp.content))));
      }
    }
  }

  /** In every state of every run, the messages are the initial history followed by
      alternating assistant and tool-result messages, each tool result answering the tool_use
      block of the same position and id, and the used tool calls are the total number of
      answers. */
  lemma ConversationKept(env: Env, id: string, budget: Budget, initial: seq<Message>,
                         states: map<string, LoopState>, s: Exec)
    requires Unused(budget) && Reached(env, NewExec(env, id, budget, initial, states), s)
    ensures Conversed(env.cfg, initial, s)
  {
    var inv := (s: Exec) => Lively(s) && Conversed(env.cfg, initial, s);
    forall t | inv(t) && !t.done ensures inv(Iterate(env, t)) {
      LivelyStep(env, t);
      ConversedStep(env, initial, t);
    }
    var init := NewExec(env, id, budget, initial, states);
    assert init.messages[|initial|..] == [];
    Preserved(env, inv, init, s);
  }

  // ----- repeated tool calls -----

  /** The tool_use blocks a run dispatched, in order. */
  function Dispatched(turns: seq<TurnResult>): seq<ContentBlock> {
    if turns == [] then []
    else
      var last := turns[|turns| - 1];
      Dispatched(turns[..|turns| - 1])
      + if last.toolCalls > 0 && last.response.Some? then ToolUses(last.response.value.content) else []
  }

  predicate SameCall(a: ContentBlock, b: ContentBlock) {
    a.ToolUse? && b.ToolUse? && a.name == b.name && a.input == b.input
  }

  /** The last r of these calls are all the same. */
  predicate EndsInRepeats(calls: seq<ContentBlock>, r: int) {
    r <= |calls| && forall i :: 0 <= |calls| - r <= i < |calls| ==> SameCall(calls[i], calls[|calls| - 1])
  }

  /** Nowhere do r consecutive calls have the same name and input. */
  predicate NoRepeats(calls: seq<ContentBlock>, r: int) {
    forall n :: 0 <= n <= |calls| ==> !EndsInRepeats(calls[..n], r)
  }

  /** The detector's counter is at least the number of equal calls at the end. */
  predicate Tracks(cfg: Config, st: LoopState, calls: seq<ContentBlock>) {
    && (calls != [] ==> calls[|calls| - 1].ToolUse? && st.lastSig == Signature(CallEvent(cfg, calls[|calls| - 1])))
    && (forall r :: 0 < r <= |calls| && EndsInRepeats(calls, r) ==> st.repeatCount >= r)
  }

  lemma TracksStep(cfg: Config, st: LoopState, calls: seq<ContentBlock>, use: ContentBlock)
    requires Tracks(cfg, st, calls) && use.ToolUse?
    ensures Tracks(cfg, Count(st, CallEvent(cfg, use)), calls + [use])
  {
    var calls', st' := calls + [use], Count(st, CallEvent(cfg, use));
    forall r | 0 < r <= |calls'| && EndsInRepeats(calls', r)
      ensures st'.repeatCount >= r
    {
      if r > 1 {
        assert SameCall(calls'[|calls| - 1], use);
        forall i | |calls| - (r - 1) <= i < |calls|
          ensures SameCall(calls[i], calls[|calls| - 1])
        {
          assert SameCall(calls'[i], use);
        }
        assert EndsInRepeats(calls, r - 1);
      }
    }
  }

  /** Observing a turn's calls, all of them and none judged a loop, keeps track of them and
      finds no run of threshold length. */
  lemma {:induction false} ObserveTracks(cfg: Config, th: Thresholds, runId: string, turn: nat,
                                         states: map<string, LoopState>, calls: seq<ContentBlock>,
                                         uses: seq<ContentBlock>, i: nat)
    requires forall j :: 0 <= j < |uses| ==> uses[j].ToolUse?
    requires forall j: nat :: cfg.ctx(turn, AtObserve(j)) == Live
    requires th.repeated > 0 && i <= |uses|
    requires Tracks(cfg, StateOf(states, runId), calls + uses[..i]) && NoRepeats(calls + uses[..i], th.repeated)
    requires ObserveFrom(cfg, th, runId, turn, states, uses, i).1 == Clean
    ensures var after := ObserveFrom(cfg, th, runId, turn, states, uses, i).0;
            Tracks(cfg, StateOf(after, runId), calls + uses) && NoRepeats(calls + uses, th.repeated)
    decreases |uses| - i
  {
    if i == |uses| {
      assert uses[..i] == uses;
    } else {
      var ev := CallEvent(cfg, uses[i]);
      var after := Observed(states, runId, ev);
      TracksStep(cfg, StateOf(states, runId), calls + uses[..i], uses[i]);
      var seen := calls + uses[..i + 1];
      assert seen == calls + uses[..i] + [uses[i]];
      assert forall n :: 0 <= n <= |seen| - 1 ==> seen[..n] == (calls + uses[..i])[..n];
      assert seen[..|seen|] == seen;
      ObserveTracks(cfg, th, runId, turn, after, calls, uses, i + 1);
    }
  }

  /** A context that is done when a call is observed is still done when the next turn begins. */
  ghost predicate Sticky(cfg: Config) {
    forall k: nat, i: nat :: cfg.ctx(k, AtObserve(i)) != Live ==> cfg.ctx(k + 1, AtTop) != Live
  }

  /** While the run can still be completed, no r equal calls in a row were dispatched. */
  predicate Unrepeated(cfg: Config, r: int, s: Exec) {
    && (!s.done && cfg.ctx(s.run.currentTurn + 1, AtTop) == Live ==>
          && Tracks(cfg, StateOf(s.states, s.run.id), Dispatched(s.turns))
          && NoRepeats(Dispatched(s.turns), r))
    && (s.run.state.Completed? ==> NoRepeats(Dispatched(s.turns), r))
  }

  lemma DispatchedSnoc(turns: seq<TurnResult>, t: TurnResult)
    ensures Dispatched(turns + [t])
         == Dispatched(turns) + if t.toolCalls > 0 && t.response.Some? then ToolUses(t.response.value.content) else []
  {
    assert (turns + [t])[..|turns|] == turns;
  }

  lemma UnrepeatedStep(env: Env, th: Thresholds, s: Exec)
    requires env.thresholds == Some(th) && th.repeated > 0 && Sticky(env.cfg)
    requires Lively(s) && !s.done && Unrepeated(env.cfg, th.repeated, s)
    ensures Unrepeated(env.cfg, th.repeated, Iterate(env, s))
  {
    hide Iterate, OnTools, ObserveTurn, Answers, ToolUses, Dispatched, Tracks, NoRepeats, StateOf;
    IterateCases(env, s);
    BegunLive(env, s);
    var s', k := Iterate(env, s), s.run.currentTurn + 1;
    if !EndedQuietly(s, s') {
      var resp, calls := env.llm(k).resp, Dispatched(s.turns);
      if EndedCompleted(s, s', resp) {
        DispatchedSnoc(s.turns, TurnResult(k, 1, 0, Some(resp), Completed, None));
        assert calls + [] == calls;
      } else {
        ToolsPhase(env, BeforeTools(env, s, resp), resp);
        if !s'.done && env.cfg.ctx(k + 1, AtTop) == Live {
          UnrepeatedTools(env, th, s, s', resp);
        }
      }
    }
  }

  /** An iteration that begins with the context done ends without a word. */
  lemma BegunLive(env: Env, s: Exec)
    requires Lively(s) && !s.done
    ensures EndedQuietly(s, Iterate(env, s)) || env.cfg.ctx(s.run.currentTurn + 1, AtTop) == Live
  {
    hide OnTurn;
  }

  /** A tool phase after which the run goes on. */
  lemma UnrepeatedTools(env: Env, th: Thresholds, s: Exec, s': Exec, resp: ChatResponse)
    requires env.thresholds == Some(th) && th.repeated > 0 && Sticky(env.cfg)
    requires env.cfg.ctx(s.run.currentTurn + 2, AtTop) == Live
    requires Tracks(env.cfg, StateOf(s.states, s.run.id), Dispatched(s.turns))
    requires NoRepeats(Dispatched(s.turns), th.repeated)
    requires var k, uses := s.run.currentTurn + 1, ToolUses(resp.content);
             && (forall i :: 0 <= i < |uses| ==> uses[i].ToolUse?) && uses != []
             && ObserveTurn(env, s.run.id, k, s.states, uses) == (s'.states, Clean)
             && s'.turns == s.turns + [TurnResult(k, 1, |uses|, Some(resp), Running, None)]
    ensures Tracks(env.cfg, StateOf(s'.states, s.run.id), Dispatched(s'.turns))
    ensures NoRepeats(Dispatched(s'.turns), th.repeated)
  {
    hide Tracks, NoRepeats, Dispatched, StateOf, ToolUses;
    var k, uses, calls := s.run.currentTurn + 1, ToolUses(resp.content), Dispatched(s.turns);
    DispatchedSnoc(s.turns, TurnResult(k, 1, |uses|, Some(resp), Running, None));
    assert calls + uses[..0] == calls;
    ObserveTracks(env.cfg, th, s.run.id, k, s.states, calls, uses, 0);
  }

  /** A run driven with a loop detector that ends completed never dispatched as many
      consecutive tool calls of equal name and input as the detector's threshold: three,
      with the default one. */
  lemma CompletedNeverRepeats(env: Env, th: Thresholds, id: string, budget: Budget, initial: seq<Message>,
                              states: map<string, LoopState>, s: Exec)
    requires env.thresholds == Some(th) && th.repeated > 0 && Sticky(env.cfg)
    requires Reached(env, NewExec(env, id, budget, initial, states), s) && s.run.state.Completed?
    ensures NoRepeats(Dispatched(s.turns), th.repeated)
  {
    var inv := (s: Exec) => Lively(s) && Unrepeated(env.cfg, th.repeated, s);
    forall t | inv(t) && !t.done ensures inv(Iterate(env, t)) {
      LivelyStep(env, t);
      UnrepeatedStep(env, th, t);
    }
    Preserved(env, inv, NewExec(env, id, budget, initial, states), s);
  }
}
