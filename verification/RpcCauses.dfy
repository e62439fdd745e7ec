/** What was done at the endpoints to make each answer and each return of a Call what it is. */
module RpcCauses {
  import opened Options
  import opened Decimal
  import opened Rpc
  import opened RpcWindow
  import opened RpcSystem
  import opened RpcNothingLost

  /** The step an endpoint takes in an action, if any. */
  function StepOf(sys: System, action: Action, role: Role): Option<Step> {
    var me, peer := Of(sys, role), Of(sys, Peer(role));
    match action
    case Local(r, step) => if r == role && !step.Receive? then Some(step) else None
    case Fetch(r) =>
      if r == role && me.read < |peer.log| && me.end.delivering.None? && !me.end.crashed
      then Some(Receive(me.read, peer.log[me.read])) else None
  }

  lemma EndAfter(sys: System, action: Action, role: Role)
    ensures Of(SystemNext(sys, action), role).end ==
            match StepOf(sys, action, role)
            case None => Of(sys, role).end
            case Some(step) => Next(Of(sys, role).end, step).0
  {
    hide Next;
  }

  // ----- where answers come from -----

  /** The task has its answer, written or not. */
  predicate Carries(phase: TaskPhase, outcome: Outcome) {
    phase == Produced(outcome) || phase == Responding(outcome) || phase == Responded(outcome)
  }

  predicate TaskMoved(e: Endpoint, step: Step, t: nat, task: Task, task': Task) {
    && task' == task.(phase := task'.phase)
    && (task.phase.Over? ==> task'.phase.Over?)
    && (match task.phase
        case Running => task'.phase.Running? || task'.phase.Over?
                        || (&& step.HandlerReturns? && step.task == t && !e.crashed && task.id != ""
                            && task'.phase == Produced(step.produced))
        case Over => true
        case _ => task'.phase.Over? || Carries(task'.phase, task.phase.outcome))
  }

  lemma StaysPut(e: Endpoint, step: Step, t: nat, task: Task)
    ensures TaskMoved(e, step, t, task, task)
  {
  }

  lemma TaskStepMoves(e: Endpoint, step: Step, t: nat)
    requires OfTask(step) && !e.crashed && t < |e.tasks|
    ensures |TaskStep(e, step).0.tasks| == |e.tasks| && TaskMoved(e, step, t, e.tasks[t], TaskStep(e, step).0.tasks[t])
  {
    StaysPut(e, step, t, e.tasks[t]);
    if step.task == t && TaskReady(step, e.tasks[t]) {
      OwnStepMoves(e, step, t, e.tasks[t]);
    }
    hide TaskMoved, TaskReady, TaskAfter;
  }

  lemma OwnStepMoves(e: Endpoint, step: Step, t: nat, task: Task)
    requires OfTask(step) && !e.crashed && step.task == t && TaskReady(step, task)
    ensures TaskMoved(e, step, t, task, TaskAfter(e, step, task))
  {
  }

  predicate TaskNew(e: Endpoint, step: Step, task: Task) {
    && step.Receive? && task.handled == (step.msg.name in e.handlers) && task.name == step.msg.name
    && (task.id == "" ==> task.handled)
    && task.phase == if task.handled then Running else Produced(Error("method_not_found"))
  }

  lemma TaskMoves(e: Endpoint, step: Step, t: nat)
    requires t < |Next(e, step).0.tasks|
    ensures var task' := Next(e, step).0.tasks[t];
            if t < |e.tasks| then TaskMoved(e, step, t, e.tasks[t], task')
            else t == |e.tasks| && TaskNew(e, step, task')
  {
    hide TaskMoved, TaskStep, CallStep, OtherStep, ForHandlers, Id;
    if t < |e.tasks| {
      StaysPut(e, step, t, e.tasks[t]);
    }
    if e.crashed {
    } else if OfCall(step) {
      CallsLeaveTasks(e, step);
    } else if OfTask(step) {
      OnlyReceiveStarts(e, step);
      TaskStepMoves(e, step, t);
    } else {
      OthersKeepTasks(e, step);
    }
  }

  lemma CallsLeaveTasks(e: Endpoint, step: Step)
    requires OfCall(step)
    ensures CallStep(e, step).0.tasks == e.tasks
  {
    hide CallAfter, CallReady, SessionAfter;
    if step.call < |e.calls| {
      SessionKeeps(e, step, e.calls[step.call]);
    }
  }

  ghost predicate HandlerReturned(actions: seq<Action>, k: nat, role: Role, t: nat, outcome: Outcome) {
    && k < |actions| && actions[k] == Local(role, HandlerReturns(t, outcome))
    && var e := Of(SystemRun(actions[..k]), role).end;
       !e.crashed && t < |e.tasks| && e.tasks[t].phase.Running?
  }

  /** The task was started by a message read when the method had a handler, or had none. */
  ghost predicate TaskBegan(actions: seq<Action>, k: nat, role: Role, t: nat, name: string, handled: bool) {
    && k < |actions| && actions[k] == Fetch(role)
    && var e := Of(SystemRun(actions[..k]), role).end;
       t == |e.tasks| && (handled <==> name in e.handlers)
  }

  lemma SystemOne(actions: seq<Action>, role: Role)
    requires actions != []
    ensures var n := |actions| - 1;
            var sys := SystemRun(actions[..n]);
            Of(SystemRun(actions), role).end ==
            match StepOf(sys, actions[n], role)
            case None => Of(sys, role).end
            case Some(step) => Next(Of(sys, role).end, step).0
  {
    hide Next, SystemNext;
    EndAfter(SystemRun(actions[..|actions| - 1]), actions[|actions| - 1], role);
  }

  /** The task began with a message, and its answer, if it has one, is what its handler returned;
      without a handler, it is the error that says so. */
  ghost predicate Caused(actions: seq<Action>, role: Role, t: nat, task: Task) {
    && (exists k: nat :: TaskBegan(actions, k, role, t, task.name, task.handled))
    && (forall outcome :: Carries(task.phase, outcome) ==>
          if task.handled then exists k: nat :: HandlerReturned(actions, k, role, t, outcome)
          else outcome == Error("method_not_found"))
    && (task.phase.Running? ==> task.handled)
    && (task.id == "" ==> task.phase.Running? || task.phase.Over?)
  }

  lemma CausedLonger(actions: seq<Action>, n: nat, role: Role, t: nat, task: Task)
    requires n <= |actions| && Caused(actions[..n], role, t, task)
    ensures Caused(actions, role, t, task)
  {
    hide SystemRun, Carries;
    var before := actions[..n];
    assert forall k: nat :: k < n ==> before[..k] == actions[..k] && before[k] == actions[k];
    var k0: nat :| TaskBegan(before, k0, role, t, task.name, task.handled);
    assert TaskBegan(actions, k0, role, t, task.name, task.handled);
    forall outcome | Carries(task.phase, outcome) && task.handled
      ensures exists k: nat :: HandlerReturned(actions, k, role, t, outcome)
    {
      var k: nat :| HandlerReturned(before, k, role, t, outcome);
      assert HandlerReturned(actions, k, role, t, outcome);
    }
  }

  lemma CausedMoves(actions: seq<Action>, role: Role, t: nat, task: Task, task': Task, e: Endpoint, step: Step)
    requires Caused(actions, role, t, task) && TaskMoved(e, step, t, task, task')
    requires step.HandlerReturns? && step.task == t && !e.crashed && task.phase.Running? ==>
               exists k: nat :: HandlerReturned(actions, k, role, t, step.produced)
    ensures Caused(actions, role, t, task')
  {
    hide HandlerReturned, TaskBegan;
    forall outcome | Carries(task'.phase, outcome)
      ensures if task'.handled then exists k: nat :: HandlerReturned(actions, k, role, t, outcome)
              else outcome == Error("method_not_found")
    {
      assert task.phase.Running? || Carries(task.phase, outcome);
    }
  }

  /** In every interleaving, an answer that a task has is the one its handler returned, result or
      error, in a step of this task; without a handler it is the error that says so; and whether
      there was one was decided when the request was read. */
  lemma {:induction false} AnswerHasCause(actions: seq<Action>, role: Role, t: nat)
    requires t < |Of(SystemRun(actions), role).end.tasks|
    ensures Caused(actions, role, t, Of(SystemRun(actions), role).end.tasks[t])
  {
    hide Next, SystemNext, TaskMoved, Caused;
    if actions == [] {
      NoTasksAtFirst(role);
    } else {
      var n := |actions| - 1;
      var before, action := actions[..n], actions[n];
      var e, e' := Of(SystemRun(before), role).end, Of(SystemRun(actions), role).end;
      SystemOne(actions, role);
      var step := StepOf(SystemRun(before), action, role);
      if step.Some? {
        TaskMoves(e, step.value, t);
      }
      if t < |e.tasks| {
        AnswerHasCause(before, role, t);
        CausedLonger(actions, n, role, t, e.tasks[t]);
        if step.Some? {
          ReturnsNow(actions, role, t, step.value);
          CausedMoves(actions, role, t, e.tasks[t], e'.tasks[t], e, step.value);
        }
      } else {
        BeginsNow(actions, role, t, step.value, e'.tasks[t]);
      }
    }
  }

  lemma NoTasksAtFirst(role: Role)
    ensures Of(SystemRun([]), role).end == NewEndpoint(role)
  {
  }

  lemma ReturnsNow(actions: seq<Action>, role: Role, t: nat, step: Step)
    requires actions != []
    requires var n := |actions| - 1;
             var e := Of(SystemRun(actions[..n]), role).end;
             StepOf(SystemRun(actions[..n]), actions[n], role) == Some(step) && t < |e.tasks|
    ensures var e := Of(SystemRun(actions[..|actions| - 1]), role).end;
            step.HandlerReturns? && step.task == t && !e.crashed && e.tasks[t].phase.Running? ==>
              exists k: nat :: HandlerReturned(actions, k, role, t, step.produced)
  {
    hide SystemRun;
    var n := |actions| - 1;
    var e := Of(SystemRun(actions[..n]), role).end;
    if step.HandlerReturns? && step.task == t && !e.crashed && e.tasks[t].phase.Running? {
      assert HandlerReturned(actions, n, role, t, step.produced);
    }
  }

  lemma BeginsNow(actions: seq<Action>, role: Role, t: nat, step: Step, task: Task)
    requires actions != []
    requires var n := |actions| - 1;
             var e := Of(SystemRun(actions[..n]), role).end;
             StepOf(SystemRun(actions[..n]), actions[n], role) == Some(step) && t == |e.tasks| && TaskNew(e, step, task)
    ensures Caused(actions, role, t, task)
  {
    hide SystemRun, HandlerReturned;
    assert TaskBegan(actions, |actions| - 1, role, t, task.name, task.handled);
  }

  /** The task is over, or has this answer. */
  predicate Settled(e: Endpoint, t: nat, outcome: Outcome) {
    t < |e.tasks| && (e.tasks[t].phase.Over? || Carries(e.tasks[t].phase, outcome))
  }

  lemma SettledStays(e: Endpoint, step: Step, t: nat, outcome: Outcome)
    requires Settled(e, t, outcome)
    ensures Settled(Next(e, step).0, t, outcome)
  {
    hide Next;
    TasksStay(e, step);
    TaskMoves(e, step, t);
  }

  lemma TasksStay(e: Endpoint, step: Step)
    ensures |e.tasks| <= |Next(e, step).0.tasks|
  {
    hide TaskStep, CallStep, OtherStep, ForHandlers;
    if e.crashed {
    } else if OfCall(step) {
      CallsLeaveTasks(e, step);
    } else if OfTask(step) {
      OnlyReceiveStarts(e, step);
    } else {
      OthersKeepTasks(e, step);
    }
  }

  lemma {:induction false} SettledForGood(actions: seq<Action>, more: seq<Action>, role: Role, t: nat, outcome: Outcome)
    requires Settled(Of(SystemRun(actions), role).end, t, outcome)
    ensures Settled(Of(SystemRun(actions + more), role).end, t, outcome)
  {
    if more == [] {
      assert actions + more == actions;
    } else {
      var front := more[..|more| - 1];
      SettledForGood(actions, front, role, t, outcome);
      hide Settled, SystemRun, Next;
      var all := actions + more;
      assert all[..|all| - 1] == actions + front;
      SystemOne(all, role);
      var step := StepOf(SystemRun(actions + front), all[|all| - 1], role);
      if step.Some? {
        SettledStays(Of(SystemRun(actions + front), role).end, step.value, t, outcome);
      }
    }
  }

  /** What a handler returns, result or error, is what its task answers from then on, unless the
      answer is dropped. */
  lemma HandlerSettles(actions: seq<Action>, more: seq<Action>, role: Role, t: nat, outcome: Outcome)
    requires var e := Of(SystemRun(actions), role).end;
             !e.crashed && t < |e.tasks| && e.tasks[t].phase.Running? && e.tasks[t].id != "" && !outcome.ClosedPending?
    ensures var e := Of(SystemRun(actions + [Local(role, HandlerReturns(t, outcome))]), role).end;
            t < |e.tasks| && e.tasks[t].phase == Produced(outcome)
    ensures Settled(Of(SystemRun(actions + [Local(role, HandlerReturns(t, outcome))] + more), role).end, t, outcome)
  {
    var now := actions + [Local(role, HandlerReturns(t, outcome))];
    assert now[..|actions|] == actions;
    SystemOne(now, role);
    hide SystemRun, CallStep, OtherStep;
    SettledForGood(now, more, role, t, outcome);
  }

  // ----- what a call asks for and why it returns -----

  ghost predicate CallBegan(actions: seq<Action>, k: nat, role: Role, i: nat, name: string, params: string) {
    && k < |actions| && actions[k] == Local(role, Acquire(name, params))
    && i == |Of(SystemRun(actions[..k]), role).end.calls|
  }

  /** The step that makes call i return so. */
  predicate Because(e: Endpoint, step: Step, i: nat, ret: Return) {
    && !e.crashed && i < |e.calls|
    && match ret
       case Returned(outcome) => step == Take(i) && e.calls[i].channel == Some(outcome)
       case SendFailed => step == FailSend(i) || (step == CheckOpen(i) && e.writerClosed)
       case Canceled => step == Step.Cancel(i)
       case ShutDown => step == SeeDone(i) && e.doneClosed
  }

  predicate Returns(phase: Phase, ret: Return) {
    phase == Finishing(ret) || phase == Cleared(ret) || phase == Phase.Done(ret)
  }

  ghost predicate ReturnedNow(actions: seq<Action>, k: nat, role: Role, i: nat, ret: Return) {
    && k < |actions| && actions[k].Local? && actions[k].role == role
    && Because(Of(SystemRun(actions[..k]), role).end, actions[k].step, i, ret)
  }

  /** The call found the writer open. */
  ghost predicate FoundOpen(actions: seq<Action>, k: nat, role: Role, i: nat) {
    && k < |actions| && actions[k] == Local(role, CheckOpen(i))
    && !Of(SystemRun(actions[..k]), role).end.writerClosed
  }

  ghost predicate CallCaused(actions: seq<Action>, role: Role, i: nat, c: Call) {
    && (exists k: nat :: CallBegan(actions, k, role, i, c.name, c.params))
    && (c.phase.Checked? ==> exists k: nat :: FoundOpen(actions, k, role, i))
    && (forall ret :: Returns(c.phase, ret) ==> exists k: nat :: ReturnedNow(actions, k, role, i, ret))
  }

  ghost predicate CallMoved(e: Endpoint, step: Step, i: nat, c: Call, c': Call) {
    && c'.name == c.name && c'.params == c.params
    && (c'.phase.Checked? ==> c.phase.Checked? || (step == CheckOpen(i) && !e.writerClosed))
    && forall ret :: Returns(c'.phase, ret) ==> Returns(c.phase, ret) || Because(e, step, i, ret)
  }

  lemma OwnStepReturns(e: Endpoint, step: Step, i: nat)
    requires Steps(e, step, i)
    ensures CallMoved(e, step, i, e.calls[i], CallAfter(e, step, e.calls[i]))
  {
  }

  lemma NewCallAsks(e: Endpoint, step: Step)
    requires |Next(e, step).0.calls| == |e.calls| + 1 && step.Acquire?
    ensures var c' := Next(e, step).0.calls[|e.calls|];
            c'.name == step.name && c'.params == step.params && c'.phase == Acquired
  {
  }

  lemma CallMovesOn(e: Endpoint, step: Step, i: nat)
    requires i < |Next(e, step).0.calls|
    ensures var c' := Next(e, step).0.calls[i];
            if i < |e.calls| then CallMoved(e, step, i, e.calls[i], c')
            else
              && i == |e.calls| && step.Acquire?
              && c'.name == step.name && c'.params == step.params && c'.phase == Acquired
  {
    CallsAfter(e, step, i);
    if Steps(e, step, i) {
      OwnStepReturns(e, step, i);
    } else if i == |e.calls| {
      CallsCount(e, step);
      NewCallAsks(e, step);
    }
    hide Next, CallAfter, CallReady, Because;
  }

  lemma CallsCount(e: Endpoint, step: Step)
    ensures |Next(e, step).0.calls| <= |e.calls| + 1
  {
    hide Next;
    if |Next(e, step).0.calls| > |e.calls| + 1 {
      CallsAfter(e, step, |e.calls| + 1);
      assert false;
    }
  }

  lemma CallCausedLonger(actions: seq<Action>, n: nat, role: Role, i: nat, c: Call)
    requires n <= |actions| && CallCaused(actions[..n], role, i, c)
    ensures CallCaused(actions, role, i, c)
  {
    hide SystemRun, Because, Returns;
    var before := actions[..n];
    assert forall k: nat :: k < n ==> before[..k] == actions[..k] && before[k] == actions[k];
    var k0: nat :| CallBegan(before, k0, role, i, c.name, c.params);
    assert CallBegan(actions, k0, role, i, c.name, c.params);
    if c.phase.Checked? {
      var k: nat :| FoundOpen(before, k, role, i);
      assert FoundOpen(actions, k, role, i);
    }
    forall ret | Returns(c.phase, ret) ensures exists k: nat :: ReturnedNow(actions, k, role, i, ret) {
      var k: nat :| ReturnedNow(before, k, role, i, ret);
      assert ReturnedNow(actions, k, role, i, ret);
    }
  }

  lemma CallCausedMoves(actions: seq<Action>, role: Role, i: nat, c: Call, c': Call, step: Step)
    requires actions != [] && CallCaused(actions, role, i, c)
    requires var n := |actions| - 1;
             var sys := SystemRun(actions[..n]);
             StepOf(sys, actions[n], role) == Some(step) && CallMoved(Of(sys, role).end, step, i, c, c')
    ensures CallCaused(actions, role, i, c')
  {
    hide SystemRun, Returns;
    var n := |actions| - 1;
    if c'.phase.Checked? && !c.phase.Checked? {
      assert FoundOpen(actions, n, role, i);
    }
    forall ret | Returns(c'.phase, ret) ensures exists k: nat :: ReturnedNow(actions, k, role, i, ret) {
      if !Returns(c.phase, ret) {
        assert ReturnedNow(actions, n, role, i, ret);
      }
    }
  }

  lemma CallBeginsNow(actions: seq<Action>, role: Role, i: nat, c: Call, step: Step)
    requires actions != []
    requires var n := |actions| - 1;
             var sys := SystemRun(actions[..n]);
             && StepOf(sys, actions[n], role) == Some(step) && i == |Of(sys, role).end.calls|
             && step == Acquire(c.name, c.params) && c.phase == Acquired
    ensures CallCaused(actions, role, i, c)
  {
    hide SystemRun;
    assert CallBegan(actions, |actions| - 1, role, i, c.name, c.params);
  }

  /** In every interleaving, a Call asks for the method and params it was made with, and returns
      because of the step that makes it return so: its waiter's channel had that outcome, its
      request could not be sent, its context ended, or its endpoint was shut down. */
  lemma {:induction false} CallHasCause(actions: seq<Action>, role: Role, i: nat)
    requires i < |Of(SystemRun(actions), role).end.calls|
    ensures CallCaused(actions, role, i, Of(SystemRun(actions), role).end.calls[i])
  {
    hide Next, SystemNext, CallMoved, CallCaused;
    if actions == [] {
      NoTasksAtFirst(role);
    } else {
      var n := |actions| - 1;
      var before := actions[..n];
      var e, e' := Of(SystemRun(before), role).end, Of(SystemRun(actions), role).end;
      SystemOne(actions, role);
      var step := StepOf(SystemRun(before), actions[n], role);
      if step.Some? {
        CallMovesOn(e, step.value, i);
      }
      if i < |e.calls| {
        CallHasCause(before, role, i);
        CallCausedLonger(actions, n, role, i, e.calls[i]);
        if step.Some? {
          CallCausedMoves(actions, role, i, e.calls[i], e'.calls[i], step.value);
        }
      } else {
        CallBeginsNow(actions, role, i, e'.calls[i], step.value);
      }
    }
  }

  // ----- crashes -----

  /** The endpoint panics: a frame is handed to a writer that was closed since it was found open. */
  predicate Panics(e: Endpoint, step: Step) {
    && !e.crashed && e.writerClosed
    && match step
       case Push(i) => i < |e.calls| && e.calls[i].phase.Checked?
       case Respond(t) => t < |e.tasks| && e.tasks[t].phase.Responding?
       case Notify(_, _, passedCheck) => passedCheck
       case _ => false
  }

  lemma CrashStep(e: Endpoint, step: Step)
    ensures Next(e, step).0.crashed <==> e.crashed || Panics(e, step)
  {
    hide CallAfter, TaskAfter, Id;
    if e.crashed {
    } else if OfCall(step) {
      CallStepCrash(e, step);
    } else if OfTask(step) {
    } else {
      hide Served, ForHandlers, ForWaiters, FailWaiters;
    }
  }

  lemma CallStepCrash(e: Endpoint, step: Step)
    requires OfCall(step) && !e.crashed
    ensures CallStep(e, step).0.crashed <==> Panics(e, step)
  {
    hide CallAfter, Id;
  }

  ghost predicate PanickedAt(actions: seq<Action>, k: nat, role: Role) {
    && k < |actions| && actions[k].Local? && actions[k].role == role
    && Panics(Of(SystemRun(actions[..k]), role).end, actions[k].step)
  }

  /** In every interleaving, an endpoint has crashed exactly if at some point a frame was handed
      over to its closed writer; a Call that does so had found the writer open before. */
  lemma {:induction false} CrashHasCause(actions: seq<Action>, role: Role)
    ensures Of(SystemRun(actions), role).end.crashed <==> exists k: nat :: PanickedAt(actions, k, role)
    ensures forall k: nat, i: nat :: PanickedAt(actions, k, role) && actions[k].step == Push(i) ==>
              exists j: nat :: FoundOpen(actions[..k], j, role, i)
  {
    CrashedExactly(actions, role);
    forall k: nat, i: nat | PanickedAt(actions, k, role) && actions[k].step == Push(i)
      ensures exists j: nat :: FoundOpen(actions[..k], j, role, i)
    {
      CallHasCause(actions[..k], role, i);
    }
  }

  lemma {:induction false} CrashedExactly(actions: seq<Action>, role: Role)
    ensures Of(SystemRun(actions), role).end.crashed <==> exists k: nat :: PanickedAt(actions, k, role)
  {
    hide Next, SystemNext, Panics;
    if actions == [] {
      NoTasksAtFirst(role);
    } else {
      var n := |actions| - 1;
      var before := actions[..n];
      CrashedExactly(before, role);
      SystemOne(actions, role);
      var e, step := Of(SystemRun(before), role).end, StepOf(SystemRun(before), actions[n], role);
      if step.Some? {
        CrashStep(e, step.value);
      }
      PanickedOneMore(actions, role);
    }
  }

  lemma PanickedOneMore(actions: seq<Action>, role: Role)
    requires actions != []
    ensures var n := |actions| - 1;
            var sys := SystemRun(actions[..n]);
            (exists k: nat :: PanickedAt(actions, k, role)) <==>
            || (exists k: nat :: PanickedAt(actions[..n], k, role))
            || (StepOf(sys, actions[n], role).Some? && Panics(Of(sys, role).end, StepOf(sys, actions[n], role).value))
  {
    hide SystemRun;
    var n := |actions| - 1;
    var before := actions[..n];
    assert forall k: nat :: k < n ==> before[..k] == actions[..k] && before[k] == actions[k];
    if k: nat :| PanickedAt(before, k, role) {
      assert PanickedAt(actions, k, role);
    }
    if k: nat :| PanickedAt(actions, k, role) {
      if k < n {
        assert PanickedAt(before, k, role);
      }
    }
    var step := StepOf(SystemRun(before), actions[n], role);
    if step.Some? && Panics(Of(SystemRun(before), role).end, step.value) {
      assert PanickedAt(actions, n, role);
    }
  }

  // ----- Close wakes every waiting call -----

  /** In every interleaving, Close gives every Call that waits something to return. */
  lemma CloseWakes(actions: seq<Action>, role: Role, i: nat)
    requires var e := Of(SystemRun(actions), role).end;
             !e.crashed && !e.closed && i < |e.calls| && e.calls[i].phase.Waiting?
    ensures var c, e' := Of(SystemRun(actions), role).end.calls[i],
                         Of(SystemRun(actions + [Local(role, CloseSession)]), role).end;
            && e'.closed && e'.waiters == map[] && i < |e'.calls| && e'.calls[i].phase.Waiting?
            && e'.calls[i].channel == if c.channel.Some? then c.channel else Some(ClosedPending)
  {
    var now := actions + [Local(role, CloseSession)];
    assert now[..|actions|] == actions;
    SystemOne(now, role);
    hide SystemRun, Next;
    ListedAlways(actions, role);
    WokenByClose(Of(SystemRun(actions), role).end, i);
  }

  lemma ListedAlways(actions: seq<Action>, role: Role)
    ensures Listed(Of(SystemRun(actions), role).end)
  {
    hide Listed, Joined;
    AlwaysSane(actions);
  }

  lemma WokenByClose(e: Endpoint, i: nat)
    requires Listed(e) && !e.crashed && !e.closed && i < |e.calls| && e.calls[i].phase.Waiting?
    ensures var c, e' := e.calls[i], Next(e, CloseSession).0;
            && e'.closed && e'.waiters == map[] && i < |e'.calls| && e'.calls[i].phase.Waiting?
            && e'.calls[i].channel == if c.channel.Some? then c.channel else Some(ClosedPending)
  {
    hide Id, CallStep, TaskStep;
    assert e.waiters[Id(e.role, e.calls[i].num)] in e.waiters.Values;
  }

  // ----- the answer a call returns -----

  /** Exactly one task has the id of the call. */
  predicate OnlyServer(peer: Endpoint, t: nat, id: string) {
    t < |peer.tasks| && forall s :: 0 <= s < |peer.tasks| && peer.tasks[s].id == id ==> s == t
  }

  /** In every interleaving, a Call made with a method and params that returns anything but the
      error of Close returns what exactly one task of the peer answered, for this Call's id,
      method and params; and that is what the handler of the task returned, result or error, or,
      if the peer had no handler for the method when it read the request, the error that says
      so. */
  lemma {:induction false} CallReturnsItsAnswer(actions: seq<Action>, role: Role, i: nat, outcome: Outcome)
    requires var me := Of(SystemRun(actions), role);
             i < |me.end.calls| && me.end.calls[i].phase == Phase.Done(Returned(outcome)) && !outcome.ClosedPending?
    ensures var c, peer := Of(SystemRun(actions), role).end.calls[i], Of(SystemRun(actions), Peer(role)).end;
            && (exists k: nat :: CallBegan(actions, k, role, i, c.name, c.params))
            && exists t: nat ::
                 && Answers(peer, t, role, c, outcome) && OnlyServer(peer, t, Id(role, c.num))
                 && (exists k: nat :: TaskBegan(actions, k, Peer(role), t, c.name, peer.tasks[t].handled))
                 && if peer.tasks[t].handled then exists k: nat :: HandlerReturned(actions, k, Peer(role), t, outcome)
                    else outcome == Error("method_not_found")
  {
    hide TaskBegan, HandlerReturned, CallBegan, ReturnedNow;
    var t := AnsweringTask(actions, role, i, outcome);
    AnswerHasCause(actions, Peer(role), t);
    CallHasCause(actions, role, i);
    hide SystemRun, Id;
    assert Carries(Of(SystemRun(actions), Peer(role)).end.tasks[t].phase, outcome);
  }

  lemma AnsweringTask(actions: seq<Action>, role: Role, i: nat, outcome: Outcome) returns (t: nat)
    requires var me := Of(SystemRun(actions), role);
             i < |me.end.calls| && me.end.calls[i].phase == Phase.Done(Returned(outcome)) && !outcome.ClosedPending?
    ensures var c, peer := Of(SystemRun(actions), role).end.calls[i], Of(SystemRun(actions), Peer(role)).end;
            Answers(peer, t, role, c, outcome) && OnlyServer(peer, t, Id(role, c.num))
  {
    SystemKept(actions);
    HandledAtMostOnce(actions, Peer(role));
    var me, peer := Of(SystemRun(actions), role), Of(SystemRun(actions), Peer(role));
    hide SystemRun, Kept, Logged, Unrepeated;
    assert Has(me.end.calls[i], outcome) && ByPeer(me.end, outcome);
    assert Genuine(me.end.calls[i], role, peer.end, outcome);
    t :| Answers(peer.end, t, role, me.end.calls[i], outcome);
    assert peer.end.tasks[t].id[0] in "ks";
    assert peer.end.tasks[t] in peer.end.tasks;
  }

  /** The error of Close is returned by a Call of an endpoint that was closed, and only Close
      closes one. */
  lemma CloseErrorIsOwn(actions: seq<Action>, role: Role, i: nat)
    requires var me := Of(SystemRun(actions), role);
             i < |me.end.calls| && me.end.calls[i].phase == Phase.Done(Returned(ClosedPending))
    ensures Local(role, CloseSession) in actions
  {
    SystemKept(actions);
    var me, peer := Of(SystemRun(actions), role), Of(SystemRun(actions), Peer(role));
    hide SystemRun, Kept, Logged, Unrepeated;
    NoTaskAnswersClose(peer, me.log);
    var c := me.end.calls[i];
    assert Has(c, ClosedPending) && me.end.role == role;
    assert ByPeer(me.end, ClosedPending) ==> Genuine(c, role, peer.end, ClosedPending);
    assert me.end.closed;
    ClosedByClose(actions, role);
  }

  lemma NoTaskAnswersClose(me: Side, peerLog: seq<Message>)
    requires Started(me, peerLog)
    ensures forall t :: 0 <= t < |me.end.tasks| ==> me.end.tasks[t].phase != Responded(ClosedPending)
  {
    forall t | 0 <= t < |me.end.tasks| ensures me.end.tasks[t].phase != Responded(ClosedPending) {
      assert me.end.tasks[t] in me.end.tasks;
    }
  }

  lemma {:induction false} ClosedByClose(actions: seq<Action>, role: Role)
    requires Of(SystemRun(actions), role).end.closed
    ensures Local(role, CloseSession) in actions
  {
    hide Next, SystemNext;
    if actions == [] {
      NoTasksAtFirst(role);
    } else {
      var n := |actions| - 1;
      var before := actions[..n];
      SystemOne(actions, role);
      var e, step := Of(SystemRun(before), role).end, StepOf(SystemRun(before), actions[n], role);
      if step.Some? {
        ClosedStays(e, step.value);
      }
      if e.closed {
        ClosedByClose(before, role);
      } else {
        assert actions[n] == Local(role, CloseSession);
      }
    }
  }

  // ----- what a message does when it is read -----

  function OwnPrefix(role: Role): string {
    if role == Kernel then "k:" else "s:"
  }

  function PeerPrefix(role: Role): string {
    if role == Kernel then "s:" else "k:"
  }

  /** The four kinds of messages: a request of the peer or a notification starts a task, which
      runs the handler if there is one and otherwise, for a request only, says that there is
      none; a response to a call goes to the call's waiter or is counted stale; all else is
      dropped. */
  ghost predicate ReadAs(e: Endpoint, m: Message, source: nat, e': Endpoint) {
    if m.name != "" && (m.id == "" || PeerPrefix(e.role) <= m.id) then
      e' == e.(tasks := e'.tasks)
      && e'.tasks == e.tasks + if m.name in e.handlers then [Task(source, m.id, m.name, m.params, true, Running)]
                               else if m.id == "" then []
                               else [Task(source, m.id, m.name, m.params, false, Produced(Error("method_not_found")))]
    else if m.name == "" && m.id != "" && OwnPrefix(e.role) <= m.id then
      if m.id in e.waiters
      then && e' == e.(dispatched := e.dispatched + 1, delivering := e'.delivering)
           && e'.delivering.Some? && e'.delivering.value.waiter == e.waiters[m.id]
           && (m.outcome.Some? ==> e'.delivering.value.outcome == m.outcome.value)
      else e' == e.(dispatched := e.dispatched + 1, stale := e.stale + 1)
    else e' == e
  }

  lemma DispatchIs(e: Endpoint, m: Message, source: nat)
    requires !e.crashed && e.delivering.None?
    ensures ReadAs(e, m, source, Next(e, Receive(source, m)).0)
  {
    var e' := Next(e, Receive(source, m)).0;
    assert e' == Dispatch(e, source, m);
    assert Prefix(e.role) == OwnPrefix(e.role) && Prefix(Peer(e.role)) == PeerPrefix(e.role);
    if ForHandlers(e, m) {
      assert !ForWaiters(e, m);
      assert e.tasks + [] == e.tasks;
    }
  }

  /** In every interleaving, reading the next message does what its kind says. */
  lemma FetchExactly(actions: seq<Action>, role: Role)
    requires var me, peer := Of(SystemRun(actions), role), Of(SystemRun(actions), Peer(role));
             !me.end.crashed && me.end.delivering.None? && me.read < |peer.log|
    ensures var me, peer := Of(SystemRun(actions), role), Of(SystemRun(actions), Peer(role));
            var me' := Of(SystemRun(actions + [Fetch(role)]), role);
            && me'.read == me.read + 1 && me'.log == me.log
            && ReadAs(me.end, peer.log[me.read], me.read, me'.end)
  {
    var now := actions + [Fetch(role)];
    assert now[..|actions|] == actions;
    var me, peer := Of(SystemRun(actions), role), Of(SystemRun(actions), Peer(role));
    DispatchIs(me.end, peer.log[me.read], me.read);
    hide Next, ReadAs;
  }

  // ----- notifications -----

  ghost predicate Notified(actions: seq<Action>, k: nat, role: Role, m: Message) {
    k < |actions| && actions[k].Local? && actions[k].role == role
    && actions[k].step.Notify? && actions[k].step.name == m.name && actions[k].step.params == m.params
  }

  lemma LogAfter(sys: System, action: Action, role: Role)
    ensures var me := Of(sys, role);
            Of(SystemNext(sys, action), role).log ==
            match StepOf(sys, action, role)
            case None => me.log
            case Some(step) => if step.Receive? then me.log else Write(me.log, Next(me.end, step).1)
  {
    hide Next;
  }

  lemma WrittenBy(e: Endpoint, step: Step)
    requires Next(e, step).1.Some? && Next(e, step).1.value.id == ""
    ensures step.Respond? || (step.Notify? && Next(e, step).1.value == Message("", step.name, step.params, None))
    ensures step.Respond? ==>
              step.task < |e.tasks| && e.tasks[step.task].id == "" && e.tasks[step.task].phase.Responding?
  {
    hide Digits, Dispatch, CallAfter, SessionAfter, TaskAfter;
  }

  /** In every interleaving, every notification on a pipe was sent by a Notify with that method
      and those params. */
  lemma {:induction false} NotificationHasCause(actions: seq<Action>, role: Role, m: Message)
    requires m in Of(SystemRun(actions), role).log && m.id == ""
    ensures exists k: nat :: Notified(actions, k, role, m)
  {
    hide Next, SystemNext;
    if actions != [] {
      var n := |actions| - 1;
      var before, sys := actions[..n], SystemRun(actions[..n]);
      LogAfter(sys, actions[n], role);
      if m in Of(sys, role).log {
        NotificationHasCause(before, role, m);
        var k: nat :| Notified(before, k, role, m);
        assert Notified(actions, k, role, m);
      } else {
        var e, step := Of(sys, role).end, StepOf(sys, actions[n], role).value;
        WrittenBy(e, step);
        if step.Respond? {
          AnswerHasCause(before, role, step.task);
        }
        assert Notified(actions, n, role, m);
      }
    }
  }
}
