/** What every run of the agent loop keeps, whatever the provider, the tools, the context
    and the clock do. */
module RunnerSafety {
  import opened Options
  import opened Chat
  import opened LoopDetector
  import opened Lifecycle
  import opened Runner

  /** A run as NewRun makes it, with nothing used yet. */
  predicate Unused(b: Budget) {
    b.usedTurns == 0 && b.usedCost == 0.0 && b.usedToolCalls == 0 && b.usedLLMCalls == 0
  }

  /** The loop's first state for a new run. */
  function NewExec(env: Env, id: string, budget: Budget, initial: seq<Message>, states: map<string, LoopState>): Exec {
    Begin(RunData(id, Pending, budget, 0, None, 0), env.cfg.clock(0), initial, states)
  }

  lemma {:induction false} PreservedFor(env: Env, inv: Exec -> bool, init: Exec, n: nat)
    requires inv(init)
    requires forall t {:trigger Iterate(env, t)} :: inv(t) && !t.done ==> inv(Iterate(env, t))
    ensures inv(Iterations(env, init, n))
  {
    hide Iterate;
    if n > 0 {
      PreservedFor(env, inv, init, n - 1);
    }
  }

  /** What holds at first and is kept by every iteration holds of every reached state. */
  lemma Preserved(env: Env, inv: Exec -> bool, init: Exec, s: Exec)
    requires inv(init) && Reached(env, init, s)
    requires forall t {:trigger Iterate(env, t)} :: inv(t) && !t.done ==> inv(Iterate(env, t))
    ensures inv(s)
  {
    hide Iterate;
    var n: nat :| s == Iterations(env, init, n);
    PreservedFor(env, inv, init, n);
  }

  // ----- lifecycle -----

  predicate Lively(s: Exec) {
    && s.refused == 0
    && (!s.done ==> s.run.state == Running && s.run.endedAt == None)
    && (s.done ==> Terminal(s.run.state) && s.run.endedAt.Some?)
    && (s.run.state.Completed? ==>
          && (s.run.budget.maxCost > 0.0 ==> s.run.budget.usedCost < s.run.budget.maxCost)
          && (s.run.budget.maxLLMCalls > 0 ==> s.run.budget.usedLLMCalls < s.run.budget.maxLLMCalls))
  }

  lemma LivelyStep(env: Env, s: Exec)
    requires Lively(s) && !s.done
    ensures Lively(Iterate(env, s))
  {
  }

  /** In every state of every run: no transition error was ever discarded; while the loop
      goes on the run is running, and once it is done the run is completed, failed or
      canceled and has an end time; a completed run is strictly under its cost and LLM-call
      caps. */
  lemma LifecycleKept(env: Env, id: string, budget: Budget, initial: seq<Message>, states: map<string, LoopState>,
                      s: Exec)
    requires Reached(env, NewExec(env, id, budget, initial, states), s)
    ensures Lively(s)
  {
    forall t | Lively(t) && !t.done ensures Lively(Iterate(env, t)) {
      LivelyStep(env, t);
    }
    Preserved(env, Lively, NewExec(env, id, budget, initial, states), s);
  }

  // ----- accounting -----

  function Responses(turns: seq<TurnResult>): nat {
    if turns == [] then 0
    else Responses(turns[..|turns| - 1]) + if turns[|turns| - 1].response.Some? then 1 else 0
  }

  function ToolCallsIn(turns: seq<TurnResult>): nat {
    if turns == [] then 0 else ToolCallsIn(turns[..|turns| - 1]) + turns[|turns| - 1].toolCalls
  }

  function CostOf(turns: seq<TurnResult>): real {
    if turns == [] then 0.0
    else
      var last := turns[|turns| - 1];
      CostOf(turns[..|turns| - 1]) + if last.response.Some? then last.response.value.usage.costUSD else 0.0
  }

  /** The counters are what the turn results add up to. */
  predicate Accounted(s: Exec) {
    var b := s.run.budget;
    && (forall i :: 0 <= i < |s.turns| ==> s.turns[i].index == i + 1)
    && b.usedLLMCalls == s.run.currentTurn
    && b.usedTurns == Responses(s.turns)
    && b.usedToolCalls == ToolCallsIn(s.turns)
    && b.usedCost == CostOf(s.turns)
    && s.run.currentTurn <= |s.turns| <= s.run.currentTurn + 1
    && (!s.done ==> |s.turns| == s.run.currentTurn)
    && (forall i :: 0 <= i < |s.turns| ==> s.turns[i].llmCalls == if i < s.run.currentTurn then 1 else 0)
    && (forall i :: 0 <= i < |s.turns| && s.turns[i].llmCalls == 0 ==>
          s.turns[i].response.None? && s.turns[i].toolCalls == 0)
  }

  /** The caps of the budget, all of them still unreached by what these turns used; each
      of them made one LLM call. */
  predicate Under(b: Budget, turns: seq<TurnResult>) {
    && (b.maxTurns > 0 ==> Responses(turns) < b.maxTurns)
    && (b.maxCost > 0.0 ==> CostOf(turns) < b.maxCost)
    && (b.maxLLMCalls > 0 ==> |turns| < b.maxLLMCalls)
    && (b.maxToolCalls > 0 ==> ToolCallsIn(turns) < b.maxToolCalls)
  }

  predicate SameCaps(b: Budget, c: Budget) {
    && b.maxTurns == c.maxTurns && b.maxCost == c.maxCost && b.maxToolCalls == c.maxToolCalls
    && b.maxLLMCalls == c.maxLLMCalls && b.maxDuration == c.maxDuration
  }

  /** Every turn that called the LLM was begun with all caps unreached; and every turn but
      the last got a response and went on to tool calls. */
  predicate Capped(caps: Budget, s: Exec) {
    && SameCaps(caps, s.run.budget)
    && (forall i :: 0 <= i < |s.turns| && s.turns[i].llmCalls > 0 ==> Under(caps, s.turns[..i]))
    && (forall i :: 0 <= i < |s.turns| && (i < |s.turns| - 1 || !s.done) ==>
          s.turns[i].response.Some? && s.turns[i].toolCalls > 0)
  }

  lemma Snoc(turns: seq<TurnResult>, t: TurnResult)
    ensures Responses(turns + [t]) == Responses(turns) + if t.response.Some? then 1 else 0
    ensures ToolCallsIn(turns + [t]) == ToolCallsIn(turns) + t.toolCalls
    ensures CostOf(turns + [t]) == CostOf(turns) + if t.response.Some? then t.response.value.usage.costUSD else 0.0
  {
    assert (turns + [t])[..|turns|] == turns;
  }

  /** What one iteration adds: at most one turn result, and to the counters what it says. */
  lemma IterateAdds(env: Env, s: Exec)
    requires !s.done
    ensures var s', k := Iterate(env, s), s.run.currentTurn + 1;
            && SameCaps(s.run.budget, s'.run.budget)
            && (s'.turns == s.turns ==>
                  && s'.done && s'.run.currentTurn == s.run.currentTurn
                  && s'.run.budget == s.run.budget.(elapsed := s'.run.budget.elapsed))
            && (s'.turns != s.turns ==> |s'.turns| == |s.turns| + 1 && Added(s, s', s'.turns[|s.turns|]))
  {
    if Iterate(env, s).turns != s.turns {
      assert Iterate(env, s).turns[|s.turns|] == Iterate(env, s).turns[|s.turns|];
    }
  }

  ghost predicate Added(s: Exec, s': Exec, t: TurnResult) {
    var b, b' := s.run.budget, s'.run.budget;
    && s'.turns == s.turns + [t]
    && t.index == s.run.currentTurn + 1
    && s'.run.currentTurn == s.run.currentTurn + t.llmCalls
    && b'.usedLLMCalls == b.usedLLMCalls + t.llmCalls
    && b'.usedTurns == b.usedTurns + (if t.response.Some? then 1 else 0)
    && b'.usedToolCalls == b.usedToolCalls + t.toolCalls
    && b'.usedCost == b.usedCost + (if t.response.Some? then t.response.value.usage.costUSD else 0.0)
    && t.llmCalls <= 1
    && (t.llmCalls == 0 ==> s'.done && t.response.None? && t.toolCalls == 0)
    && (!s'.done ==> t.response.Some? && t.toolCalls > 0)
    && (t.llmCalls > 0 ==>
          && (b.maxTurns > 0 ==> b.usedTurns < b.maxTurns)
          && (b.maxCost > 0.0 ==> b.usedCost < b.maxCost)
          && (b.maxLLMCalls > 0 ==> b.usedLLMCalls < b.maxLLMCalls)
          && (b.maxToolCalls > 0 ==> b.usedToolCalls < b.maxToolCalls))
  }

  lemma AccountingStep(env: Env, s: Exec, caps: Budget)
    requires Accounted(s) && Capped(caps, s) && !s.done
    ensures Accounted(Iterate(env, s)) && Capped(caps, Iterate(env, s))
  {
    IterateAdds(env, s);
    var s' := Iterate(env, s);
    if s'.turns != s.turns {
      AddedAccounted(s, s', s'.turns[|s.turns|]);
      AddedCapped(s, s', s'.turns[|s.turns|], caps);
    }
  }

  lemma AddedAccounted(s: Exec, s': Exec, t: TurnResult)
    requires Accounted(s) && !s.done && Added(s, s', t)
    ensures Accounted(s')
  {
    Snoc(s.turns, t);
  }

  lemma AddedCapped(s: Exec, s': Exec, t: TurnResult, caps: Budget)
    requires Accounted(s) && Capped(caps, s) && !s.done && Added(s, s', t) && SameCaps(s.run.budget, s'.run.budget)
    ensures Capped(caps, s')
  {
    assert forall i :: 0 <= i < |s.turns| ==> s'.turns[i] == s.turns[i] && s'.turns[..i] == s.turns[..i];
    assert s'.turns[..|s.turns|] == s.turns;
  }

  /** In every state of every run of a new budget, turn results are numbered from 1 on, the
      used LLM calls are the current turn, the used turns are the results that carry a
      response, tool calls and cost are their sums, and every LLM call was made with all
      caps unreached. */
  lemma AccountingKept(env: Env, id: string, budget: Budget, initial: seq<Message>, states: map<string, LoopState>,
                       s: Exec)
    requires Unused(budget) && Reached(env, NewExec(env, id, budget, initial, states), s)
    ensures Accounted(s) && Capped(budget, s)
  {
    var inv := (s: Exec) => Accounted(s) && Capped(budget, s);
    forall t | inv(t) && !t.done ensures inv(Iterate(env, t)) {
      AccountingStep(env, t, budget);
    }
    Preserved(env, inv, NewExec(env, id, budget, initial, states), s);
  }

  /** Used turns and LLM calls have not passed a positive cap, and tool calls and cost have
      passed theirs at most by what the last turn that called the LLM added. */
  predicate WithinCaps(caps: Budget, s: Exec) {
    var b, m := s.run.budget, s.run.currentTurn;
    && (caps.maxTurns > 0 ==> b.usedTurns <= caps.maxTurns)
    && (caps.maxLLMCalls > 0 ==> b.usedLLMCalls <= caps.maxLLMCalls)
    && m <= |s.turns|
    && b.usedToolCalls == ToolCallsIn(s.turns[..m]) && b.usedCost == CostOf(s.turns[..m])
    && (m > 0 && caps.maxToolCalls > 0 ==> ToolCallsIn(s.turns[..m - 1]) < caps.maxToolCalls)
    && (m > 0 && caps.maxCost > 0.0 ==> CostOf(s.turns[..m - 1]) < caps.maxCost)
  }

  /** A turn that did not call the LLM used nothing. */
  lemma CalledSums(s: Exec)
    requires Accounted(s)
    ensures var called := s.turns[..s.run.currentTurn];
            && Responses(called) == Responses(s.turns) && ToolCallsIn(called) == ToolCallsIn(s.turns)
            && CostOf(called) == CostOf(s.turns)
  {
    hide Responses, ToolCallsIn, CostOf;
    var m := s.run.currentTurn;
    if m < |s.turns| {
      Snoc(s.turns[..m], s.turns[m]);
      assert s.turns == s.turns[..m] + [s.turns[m]];
    } else {
      assert s.turns == s.turns[..m];
    }
  }

  lemma LastCall(turns: seq<TurnResult>, m: nat)
    requires m <= |turns|
    ensures if m == 0 then Responses(turns[..m]) == 0 else Responses(turns[..m]) <= Responses(turns[..m - 1]) + 1
  {
    if m > 0 {
      Snoc(turns[..m - 1], turns[m - 1]);
      hide Responses, ToolCallsIn, CostOf;
      assert turns[..m] == turns[..m - 1] + [turns[m - 1]];
    }
  }

  lemma CappedIsWithin(caps: Budget, s: Exec)
    requires Accounted(s) && Capped(caps, s)
    ensures WithinCaps(caps, s)
  {
    hide Responses, ToolCallsIn, CostOf;
    var m := s.run.currentTurn;
    CalledSums(s);
    LastCall(s.turns, m);
    assert m > 0 ==> s.turns[m - 1].llmCalls > 0;
  }

  /** In every state of every run of a new budget the caps are kept: turns and LLM calls
      strictly, tool calls and cost up to what the last turn added. */
  lemma OvershootOnlyByLastTurn(env: Env, id: string, budget: Budget, initial: seq<Message>,
                                states: map<string, LoopState>, s: Exec)
    requires Unused(budget) && Reached(env, NewExec(env, id, budget, initial, states), s)
    ensures WithinCaps(budget, s)
  {
    AccountingKept(env, id, budget, initial, states, s);
    CappedIsWithin(budget, s);
  }

  // ----- termination -----

  ghost predicate Halts(env: Env, s: Exec) {
    exists n: nat :: Iterations(env, s, n).done
  }

  /** Every run of a new budget halts, whatever surrounds it. */
  ghost predicate AlwaysHalts(budget: Budget) {
    forall env: Env, id: string, initial: seq<Message>, states: map<string, LoopState> ::
      Halts(env, NewExec(env, id, budget, initial, states))
  }

  predicate Bounded(b: Budget) {
    b.maxTurns > 0 || b.maxLLMCalls > 0 || b.maxToolCalls > 0
  }

  predicate IsCap(b: Budget, n: nat) {
    n > 0 && (n == b.maxTurns || n == b.maxLLMCalls || n == b.maxToolCalls)
  }

  lemma {:induction false} GoesOn(env: Env, s: Exec, n: nat)
    requires !Iterations(env, s, n).done
    ensures Iterations(env, s, n).run.currentTurn == s.run.currentTurn + n
  {
    hide Iterate;
    if n > 0 {
      GoesOn(env, s, n - 1);
      IterateAdds(env, Iterations(env, s, n - 1));
    }
  }

  lemma {:induction false} OneCallPerTurn(turns: seq<TurnResult>)
    requires forall i :: 0 <= i < |turns| ==> turns[i].response.Some? && turns[i].toolCalls > 0
    ensures Responses(turns) == |turns| <= ToolCallsIn(turns)
  {
    if turns != [] {
      OneCallPerTurn(turns[..|turns| - 1]);
    }
  }

  lemma TooManyTurns(caps: Budget, n: nat, s: Exec)
    requires IsCap(caps, n) && Accounted(s) && Capped(caps, s) && s.run.currentTurn == n + 1
    ensures s.done
  {
    assert s.turns[n].llmCalls > 0;
    if !s.done {
      OneCallPerTurn(s.turns[..n]);
    }
  }

  /** For each positive cap on turns, LLM calls or tool calls, the loop is done within one
      iteration more than that cap allows. */
  lemma HaltsWithinCap(env: Env, id: string, budget: Budget, initial: seq<Message>, states: map<string, LoopState>,
                       n: nat)
    requires Unused(budget) && IsCap(budget, n)
    ensures Iterations(env, NewExec(env, id, budget, initial, states), n + 1).done
  {
    var init := NewExec(env, id, budget, initial, states);
    var last := Iterations(env, init, n + 1);
    if !last.done {
      GoesOn(env, init, n + 1);
      assert Reached(env, init, last);
      AccountingKept(env, id, budget, initial, states, last);
      TooManyTurns(budget, n, last);
    }
  }

  /** A model that asks for the same tool for ever, at no cost and in no time. */
  function Insistent(): Env {
    Env(Config((name: string, input: string) => Ran("", false), None, (name: string, input: string) => "",
               (k: nat, p: Point) => Live, (k: nat) => 0, (k: nat) => 0),
        (k: nat) => Reply(ChatResponse("", "", "tool_use", [ToolUse("", "t", "{}")], Usage(0, 0, 0, 0, 0.0))),
        None)
  }

  predicate Insisting(s: Exec) {
    !s.done && !Bounded(s.run.budget) && s.run.budget.usedCost == 0.0 && s.run.startedAt == 0
  }

  lemma InsistentStep(s: Exec)
    requires Insisting(s)
    ensures Insisting(Iterate(Insistent(), s))
  {
    var content := [ToolUse("", "t", "{}")];
    assert content[..0] == [];
    assert ToolUses(content) == ToolUses([]) + [content[0]];
  }

  /** Execute terminates for every provider, tool set, context and clock exactly when one of
      the caps on turns, LLM calls or tool calls is positive: caps on cost and time alone do
      not bound it. */
  lemma TerminationExactly(budget: Budget)
    requires Unused(budget)
    ensures AlwaysHalts(budget) <==> Bounded(budget)
  {
    if Bounded(budget) {
      forall env: Env, id: string, initial: seq<Message>, states: map<string, LoopState>
        ensures Halts(env, NewExec(env, id, budget, initial, states))
      {
        var cap: nat := if budget.maxTurns > 0 then budget.maxTurns
                        else if budget.maxLLMCalls > 0 then budget.maxLLMCalls
                        else budget.maxToolCalls;
        HaltsWithinCap(env, id, budget, initial, states, cap);
      }
    } else {
      var env := Insistent();
      var s := NewExec(env, "", budget, [], map[]);
      forall n: nat ensures !Iterations(env, s, n).done {
        forall t | Insisting(t) ensures Insisting(Iterate(env, t)) {
          InsistentStep(t);
        }
        PreservedFor(env, Insisting, s, n);
      }
      assert !Halts(env, s);
    }
  }
}
