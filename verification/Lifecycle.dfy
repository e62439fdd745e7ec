/** Runs and their budgets (loop/run.go, loop/run_helper.go, loop/budget.go). */
module Lifecycle {
  import opened Options

  datatype State = Pending | Running | WaitingTool | Paused | Completed | Failed | Canceled | Crashed

  datatype Budget = Budget(maxTurns: int, maxCost: real, maxToolCalls: int, maxLLMCalls: int, maxDuration: int,
                           usedTurns: int, usedCost: real, usedToolCalls: int, usedLLMCalls: int, elapsed: int)

  datatype Axis = Turns | Cost | LLMCalls | ToolCalls | Timeout

  /** The first exhausted dimension, in the order turns, cost, LLM calls, tool calls, timeout. */
  function CheckTurn(b: Budget): Option<Axis> {
    if b.maxTurns > 0 && b.usedTurns >= b.maxTurns then Some(Turns)
    else if b.maxCost > 0.0 && b.usedCost >= b.maxCost then Some(Cost)
    else if b.maxLLMCalls > 0 && b.usedLLMCalls >= b.maxLLMCalls then Some(LLMCalls)
    else if b.maxToolCalls > 0 && b.usedToolCalls >= b.maxToolCalls then Some(ToolCalls)
    else if b.maxDuration > 0 && b.elapsed >= b.maxDuration then Some(Timeout)
    else None
  }

  function CheckCost(b: Budget): Option<Axis> {
    if b.maxCost > 0.0 && b.usedCost >= b.maxCost then Some(Cost)
    else if b.maxLLMCalls > 0 && b.usedLLMCalls >= b.maxLLMCalls then Some(LLMCalls)
    else None
  }

  datatype RunData = RunData(id: string, state: State, budget: Budget,
                             startedAt: int, endedAt: Option<int>, currentTurn: nat)

  datatype Command = Start | Complete | Fail | Pause | Resume | Cancel

  /** The legal transitions; None is the CodeInvariantViolated error. */
  function Transition(r: RunData, cmd: Command, now: int): Option<RunData> {
    match cmd
    case Start => if r.state.Pending? then Some(r.(state := Running, startedAt := now)) else None
    case Complete =>
      if r.state.Running? || r.state.WaitingTool? then Some(r.(state := Completed, endedAt := Some(now))) else None
    case Fail =>
      if r.state.Running? || r.state.WaitingTool? || r.state.Paused?
      then Some(r.(state := Failed, endedAt := Some(now))) else None
    case Pause => if r.state.Running? || r.state.WaitingTool? then Some(r.(state := Paused)) else None
    case Resume => if r.state.Paused? then Some(r.(state := Running)) else None
    case Cancel =>
      if r.state.Pending? || r.state.Running? || r.state.WaitingTool? || r.state.Paused?
      then Some(r.(state := Canceled, endedAt := Some(now))) else None
  }

  /** A refused transition changes nothing. */
  function Attempt(r: RunData, cmd: Command, now: int): RunData {
    match Transition(r, cmd, now) case None => r case Some(r') => r'
  }

  class Run {
    var id: string
    var state: State
    var budget: Budget
    var startedAt: int
    var endedAt: Option<int>
    var currentTurn: nat

    function Data(): RunData
      reads this
    {
      RunData(id, state, budget, startedAt, endedAt, currentTurn)
    }

    /** NewRun. */
    constructor (id: string, budget: Budget)
      ensures Data() == RunData(id, Pending, budget, 0, None, 0)
    {
      this.id, state, this.budget, startedAt, endedAt, currentTurn := id, Pending, budget, 0, None, 0;
    }

    method Start(now: int) returns (ok: bool)
      modifies this`state, this`startedAt
      ensures ok <==> Transition(old(Data()), Command.Start, now).Some?
      ensures Data() == Attempt(old(Data()), Command.Start, now)
      ensures ok <==> old(state) in {Pending}
      ensures Data() == if ok then old(Data()).(state := Running, startedAt := now) else old(Data())
    {
      if state != Pending { return false; }
      state := Running;
      startedAt := now;
      return true;
    }

    method Complete(now: int) returns (ok: bool)
      modifies this`state, this`endedAt
      ensures ok <==> Transition(old(Data()), Command.Complete, now).Some?
      ensures Data() == Attempt(old(Data()), Command.Complete, now)
      ensures ok <==> old(state) in {Running, WaitingTool}
      ensures Data() == if ok then old(Data()).(state := Completed, endedAt := Some(now)) else old(Data())
    {
      if !(state.Running? || state.WaitingTool?) { return false; }
      state := Completed;
      endedAt := Some(now);
      return true;
    }

    method Fail(now: int) returns (ok: bool)
      modifies this`state, this`endedAt
      ensures ok <==> Transition(old(Data()), Command.Fail, now).Some?
      ensures Data() == Attempt(old(Data()), Command.Fail, now)
      ensures ok <==> old(state) in {Running, WaitingTool, Paused}
      ensures Data() == if ok then old(Data()).(state := Failed, endedAt := Some(now)) else old(Data())
    {
      if !(state.Running? || state.WaitingTool? || state.Paused?) { return false; }
      state := Failed;
      endedAt := Some(now);
      return true;
    }

    method Pause() returns (ok: bool)
      modifies this`state
      ensures ok <==> Transition(old(Data()), Command.Pause, 0).Some?
      ensures Data() == Attempt(old(Data()), Command.Pause, 0)
      ensures ok <==> old(state) in {Running, WaitingTool}
      ensures Data() == if ok then old(Data()).(state := Paused) else old(Data())
    {
      if !(state.Running? || state.WaitingTool?) { return false; }
      state := Paused;
      return true;
    }

    method Resume() returns (ok: bool)
      modifies this`state
      ensures ok <==> Transition(old(Data()), Command.Resume, 0).Some?
      ensures Data() == Attempt(old(Data()), Command.Resume, 0)
      ensures ok <==> old(state) in {Paused}
      ensures Data() == if ok then old(Data()).(state := Running) else old(Data())
    {
      if state != Paused { return false; }
      state := Running;
      return true;
    }

    method Cancel(now: int) returns (ok: bool)
      modifies this`state, this`endedAt
      ensures ok <==> Transition(old(Data()), Command.Cancel, now).Some?
      ensures Data() == Attempt(old(Data()), Command.Cancel, now)
      ensures ok <==> old(state) in {Pending, Running, WaitingTool, Paused}
      ensures Data() == if ok then old(Data()).(state := Canceled, endedAt := Some(now)) else old(Data())
    {
      if !(state.Pending? || state.Running? || state.WaitingTool? || state.Paused?) { return false; }
      state := Canceled;
      endedAt := Some(now);
      return true;
    }
  }

  predicate Terminal(s: State) {
    s.Completed? || s.Failed? || s.Canceled?
  }

  function AttemptAll(r: RunData, cmds: seq<(Command, int)>): RunData {
    if cmds == [] then r
    else Attempt(AttemptAll(r, cmds[..|cmds| - 1]), cmds[|cmds| - 1].0, cmds[|cmds| - 1].1)
  }

  /** Whatever commands a new run is given, it carries an end time exactly when it is
      in a terminal state, and from the first terminal state on nothing changes. */
  lemma {:induction false} TerminalIsFinal(id: string, budget: Budget, cmds: seq<(Command, int)>, n: nat)
    requires n <= |cmds|
    ensures var r0 := RunData(id, Pending, budget, 0, None, 0);
            && (AttemptAll(r0, cmds).endedAt.Some? <==> Terminal(AttemptAll(r0, cmds).state))
            && (Terminal(AttemptAll(r0, cmds[..n]).state) ==> AttemptAll(r0, cmds) == AttemptAll(r0, cmds[..n]))
  {
    if n == |cmds| {
      assert cmds[..n] == cmds;
      if n > 0 {
        TerminalIsFinal(id, budget, cmds[..n - 1], n - 1);
      }
    } else {
      var front := cmds[..|cmds| - 1];
      TerminalIsFinal(id, budget, front, n);
      assert front[..n] == cmds[..n];
    }
  }
}
