/** Every waiting call can still be answered: from any state the system can reach, with both
    ends open, there is a continuation in which the call returns. */
module RpcProgress {
  import opened Options
  import opened Rpc
  import opened RpcWindow
  import opened RpcSystem
  import opened RpcNothingLost

  // ----- continuations -----

  function Continue(sys: System, actions: seq<Action>): System {
    if actions == [] then sys else SystemNext(Continue(sys, actions[..|actions| - 1]), actions[|actions| - 1])
  }

  lemma {:induction false} RunContinues(first: seq<Action>, more: seq<Action>)
    ensures SystemRun(first + more) == Continue(SystemRun(first), more)
  {
    hide SystemNext;
    if more == [] {
      assert first + more == first;
    } else {
      var most := more[..|more| - 1];
      RunContinues(first, most);
      assert (first + more)[..|first| + |most|] == first + most;
    }
  }

  ghost predicate Leads(sys: System, sys': System) {
    exists more :: sys' == Continue(sys, more)
  }

  lemma Stay(sys: System)
    ensures Leads(sys, sys)
  {
    assert sys == Continue(sys, []);
  }

  /** One more action of a continuation. */
  lemma Then(start: System, sys: System, action: Action)
    requires Leads(start, sys) && Sane(sys)
    ensures Leads(start, SystemNext(sys, action)) && Sane(SystemNext(sys, action))
  {
    SaneNext(sys, action);
    var more :| sys == Continue(start, more);
    hide SystemNext, Sane;
    assert (more + [action])[..|more|] == more;
    assert SystemNext(sys, action) == Continue(start, more + [action]);
  }

  lemma Moves(start: System, sys: System, role: Role, step: Step) returns (sys': System)
    requires Leads(start, sys) && Sane(sys) && !step.Receive?
    ensures Leads(start, sys') && Sane(sys') && Of(sys', Peer(role)) == Of(sys, Peer(role))
    ensures Of(sys', role) == Act(Of(sys, role), step)
  {
    sys' := SystemNext(sys, Local(role, step));
    Then(start, sys, Local(role, step));
    hide Sane, Leads, Act;
  }

  lemma Fetches(start: System, sys: System, role: Role) returns (sys': System)
    requires Leads(start, sys) && Sane(sys)
    ensures Leads(start, sys') && Sane(sys') && Of(sys', Peer(role)) == Of(sys, Peer(role))
    ensures Of(sys', role) == Read(Of(sys, role), Of(sys, Peer(role)))
  {
    sys' := SystemNext(sys, Fetch(role));
    Then(start, sys, Fetch(role));
    hide Sane, Leads, Read;
  }

  // ----- reading the pipe -----

  /** The reader only fills channels and starts tasks, which are at work. */
  predicate Quiet(e: Endpoint, e': Endpoint) {
    && e'.role == e.role && e'.closed == e.closed && e'.doneClosed == e.doneClosed
    && e'.crashed == e.crashed && e'.writerClosed == e.writerClosed
    && e'.handlers == e.handlers
    && SameButChannels(e.calls, e'.calls)
    && e.tasks <= e'.tasks
    && (forall t :: |e.tasks| <= t < |e'.tasks| ==> AtWork(e.handlers, e'.tasks[t]))
  }

  predicate AtWork(handlers: set<string>, task: Task) {
    !task.phase.Over? && !task.phase.Responded? && (task.name in handlers ==> task.phase.Running?)
  }

  lemma QuietTwice(a: Endpoint, b: Endpoint, c: Endpoint)
    requires Quiet(a, b) && Quiet(b, c)
    ensures Quiet(a, c)
  {
    hide AtWork;
    assert forall t :: |a.tasks| <= t < |b.tasks| ==> c.tasks[t] == b.tasks[t];
  }

  lemma DeliverIsQuiet(e: Endpoint)
    requires !e.crashed
    ensures Quiet(e, Next(e, Deliver).0) && Next(e, Deliver).0.delivering.None? && Next(e, Deliver).1.None?
  {
    OthersKeepCalls(e, Deliver);
    OthersKeepTasks(e, Deliver);
  }

  lemma ReceiveIsQuiet(e: Endpoint, p: nat, m: Message)
    requires !e.crashed && e.delivering.None?
    ensures Quiet(e, Next(e, Receive(p, m)).0)
  {
    OthersKeepCalls(e, Receive(p, m));
    OthersKeepTasks(e, Receive(p, m));
    hide ForHandlers, ForWaiters;
  }

  /** An endpoint whose reader has not stopped, as it does once `done` is closed, can read
      everything its peer has written. */
  lemma {:induction false} Drain(start: System, sys: System, role: Role) returns (sys': System)
    requires Leads(start, sys) && Sane(sys) && !Of(sys, role).end.crashed && !Of(sys, role).end.doneClosed
    ensures Leads(start, sys') && Sane(sys') && Of(sys', Peer(role)) == Of(sys, Peer(role))
    ensures Quiet(Of(sys, role).end, Of(sys', role).end) && Of(sys', role).log == Of(sys, role).log
    ensures Of(sys', role).read == |Of(sys, Peer(role)).log|
    decreases |Of(sys, Peer(role)).log| - Of(sys, role).read
  {
    var me, peer := Of(sys, role), Of(sys, Peer(role));
    assert me.read <= |peer.log|;
    hide Sane, Leads;
    if me.read == |peer.log| {
      assert Quiet(me.end, me.end);
      sys' := sys;
    } else {
      var s1 := Moves(start, sys, role, Deliver);
      DeliverIsQuiet(me.end);
      var me1 := Of(s1, role);
      assert me1.end == Next(me.end, Deliver).0 && me1.log == me.log && me1.read == me.read;
      var s2 := Fetches(start, s1, role);
      ReceiveIsQuiet(me1.end, me1.read, peer.log[me1.read]);
      var me2 := Of(s2, role);
      assert me2.end == Next(me1.end, Receive(me1.read, peer.log[me1.read])).0;
      assert me2.log == me.log && me2.read == me.read + 1;
      hide Next, Act, Read;
      QuietTwice(me.end, me1.end, me2.end);
      sys' := Drain(start, s2, role);
      QuietTwice(me.end, me2.end, Of(sys', role).end);
    }
  }

  // ----- answering a request -----

  lemma TaskMoves(e: Endpoint, step: Step)
    requires !e.crashed && !e.writerClosed && OfTask(step) && step.task < |e.tasks|
             && TaskReady(step, e.tasks[step.task])
    ensures Next(e, step).0 == e.(tasks := e.tasks[step.task := TaskAfter(e, step, e.tasks[step.task])])
  {
    hide TaskAfter, TaskReady;
  }

  /** The side with task t one step further. */
  lemma TaskStepsOn(start: System, sys: System, role: Role, step: Step) returns (sys': System)
    requires Leads(start, sys) && Sane(sys)
    requires var e := Of(sys, role).end;
             && !e.crashed && !e.writerClosed && OfTask(step) && step.task < |e.tasks|
             && TaskReady(step, e.tasks[step.task])
    ensures Leads(start, sys') && Sane(sys') && Of(sys', Peer(role)) == Of(sys, Peer(role))
    ensures var e := Of(sys, role).end;
            Of(sys', role).end == e.(tasks := e.tasks[step.task := TaskAfter(e, step, e.tasks[step.task])])
    ensures Of(sys', role).read == Of(sys, role).read
  {
    TaskMoves(Of(sys, role).end, step);
    hide Sane, Leads, Next, TaskAfter, TaskReady;
    sys' := Moves(start, sys, role, step);
  }

  /** The handler that every session has; what it returns is not up to the caller. */
  const CANCEL := "$/cancelRequest"

  /** A task of an open endpoint that has not given up can respond; one whose handler, not the
      built-in one, is still running can respond with any result. */
  lemma TaskCanRespond(start: System, sys: System, role: Role, t: nat, value: string) returns (sys': System)
    requires Leads(start, sys) && Sane(sys)
    requires var e := Of(sys, role).end;
             && !e.crashed && !e.writerClosed && t < |e.tasks| && !e.tasks[t].phase.Over? && e.tasks[t].id != ""
             && (e.tasks[t].phase.Running? ==> e.tasks[t].name != CANCEL)
    ensures Leads(start, sys') && Sane(sys') && Of(sys', Peer(role)) == Of(sys, Peer(role))
    ensures var e, e' := Of(sys, role).end, Of(sys', role).end;
            && t < |e'.tasks| && e'.tasks[t] == e.tasks[t].(phase := e'.tasks[t].phase) && e'.tasks[t].phase.Responded?
            && (e.tasks[t].phase.Running? ==> e'.tasks[t].phase == Responded(Result(value)))
            && e'.role == e.role
    ensures Of(sys', role).read == Of(sys, role).read
  {
    hide Sane, Leads;
    sys' := sys;
    if Of(sys', role).end.tasks[t].phase.Running? {
      sys' := TaskStepsOn(start, sys', role, HandlerReturns(t, Result(value)));
    }
    if Of(sys', role).end.tasks[t].phase.Produced? {
      sys' := TaskStepsOn(start, sys', role, CheckRespond(t));
    }
    if Of(sys', role).end.tasks[t].phase.Responding? {
      sys' := TaskStepsOn(start, sys', role, Respond(t));
    }
  }

  // ----- taking the answer -----

  lemma CallStepsOn(start: System, sys: System, role: Role, step: Step) returns (sys': System)
    requires Leads(start, sys) && Sane(sys)
    requires var e := Of(sys, role).end;
             !e.crashed && OfCall(step) && step.call < |e.calls| && CallReady(e, step, e.calls[step.call])
    ensures Leads(start, sys') && Sane(sys') && Of(sys', Peer(role)) == Of(sys, Peer(role))
    ensures var e := Of(sys, role).end;
            var c := e.calls[step.call];
            Of(sys', role).end == SessionAfter(e, step, c).(calls := e.calls[step.call := CallAfter(e, step, c)])
  {
    hide Sane, Leads, CallAfter, CallReady, SessionAfter;
    sys' := Moves(start, sys, role, step);
  }

  /** A call with its answer in its channel can return it. */
  lemma CallCanFinish(start: System, sys: System, role: Role, i: nat, outcome: Outcome) returns (sys': System)
    requires Leads(start, sys) && Sane(sys)
    requires var e := Of(sys, role).end;
             !e.crashed && i < |e.calls| && e.calls[i].phase.Waiting? && e.calls[i].channel == Some(outcome)
    ensures Leads(start, sys') && Sane(sys') && Of(sys', Peer(role)) == Of(sys, Peer(role))
    ensures var e, e' := Of(sys, role).end, Of(sys', role).end;
            && |e'.calls| == |e.calls| && e'.calls[i].num == e.calls[i].num
            && e'.calls[i].name == e.calls[i].name && e'.calls[i].params == e.calls[i].params
            && e'.calls[i].phase == Done(Returned(outcome))
  {
    hide Sane, Leads, Id;
    sys' := CallStepsOn(start, sys, role, Take(i));
    sys' := CallStepsOn(start, sys', role, Clear(i));
    sys' := CallStepsOn(start, sys', role, Release(i));
  }

  /** The answer in delivery reaches the call's empty channel. */
  lemma AnswerCanArrive(start: System, sys: System, role: Role, i: nat, outcome: Outcome) returns (sys': System)
    requires Leads(start, sys) && Sane(sys)
    requires var e := Of(sys, role).end;
             && !e.crashed && i < |e.calls| && e.calls[i].phase.Waiting?
             && (e.calls[i].channel.Some? ==> e.calls[i].channel == Some(outcome))
             && (e.calls[i].channel.None? ==> e.delivering == Some(Delivery(i, outcome)))
    ensures Leads(start, sys') && Sane(sys') && Of(sys', Peer(role)) == Of(sys, Peer(role))
    ensures var e, e' := Of(sys, role).end, Of(sys', role).end;
            && !e'.crashed && |e'.calls| == |e.calls| && e'.calls[i] == e.calls[i].(channel := Some(outcome))
  {
    hide Sane, Leads;
    if Of(sys, role).end.calls[i].channel.Some? {
      sys' := sys;
    } else {
      sys' := Moves(start, sys, role, Deliver);
    }
  }

  // ----- a waiting call -----

  /** The endpoints are open for this call: the caller has not closed, both read and the peer
      can still write, neither has crashed, and the peer has not given up on the call. */
  ghost predicate Answerable(sys: System, role: Role, i: nat) {
    var me, peer := Of(sys, role), Of(sys, Peer(role));
    && !me.end.closed && !me.end.doneClosed && !me.end.crashed
    && !peer.end.doneClosed && !peer.end.writerClosed && !peer.end.crashed
    && i < |me.end.calls| && me.end.calls[i].phase.Waiting? && me.end.calls[i].name !in {"", CANCEL}
    && forall t: nat :: Serves(me.end, i, peer.end, t) ==> !peer.end.tasks[t].phase.Over?
  }

  /** The peer has a handler for the call, which has not finished. */
  ghost predicate Unhandled(sys: System, role: Role, i: nat) {
    var me, peer := Of(sys, role), Of(sys, Peer(role));
    && i < |me.end.calls| && me.end.calls[i].name in peer.end.handlers
    && forall t: nat :: Serves(me.end, i, peer.end, t) ==> peer.end.tasks[t].phase.Running?
  }

  /** The task that serves the call, once the peer has read everything. */
  lemma ServedAfterDrain(me: Side, peer: Side, peer': Side, i: nat) returns (t: nat)
    requires Joined(me, peer') && Joined(peer', me) && Lossless(me, peer') && Lossless(peer', me)
    requires !me.end.closed && i < |me.end.calls| && me.end.calls[i].phase.Waiting? && me.end.calls[i].name != ""
    requires Quiet(peer.end, peer'.end) && peer'.read == |me.log|
    requires forall s: nat :: Serves(me.end, i, peer.end, s) ==> !peer.end.tasks[s].phase.Over?
    ensures t < |peer'.end.tasks| && Serves(me.end, i, peer'.end, t)
    ensures !peer'.end.tasks[t].phase.Over? && peer'.end.tasks[t].id != ""
    ensures peer'.end.tasks[t].name == me.end.calls[i].name
    ensures me.end.calls[i].name in peer.end.handlers
            && (forall s: nat :: Serves(me.end, i, peer.end, s) ==> peer.end.tasks[s].phase.Running?)
            ==> peer'.end.tasks[t].phase.Running?
  {
    WaitingIsFound(me, peer', i);
    t :| BeingServed(me, peer', i, t);
    assert peer'.end.tasks[t].id[0] in "ks";
    hide Id, Joined, Lossless;
    if t < |peer.end.tasks| {
      assert peer'.end.tasks[t] == peer.end.tasks[t];
      assert Serves(me.end, i, peer.end, t);
    } else {
      assert AtWork(peer.end.handlers, peer'.end.tasks[t]);
    }
  }

  /** The answer is at hand, once the caller has read everything after the response. */
  lemma AtHandAfterDrain(me: Side, peer: Side, i: nat, t: nat)
    requires Joined(me, peer) && Joined(peer, me) && Lossless(me, peer) && Lossless(peer, me)
    requires !me.end.closed && i < |me.end.calls| && me.end.calls[i].phase.Waiting? && me.end.calls[i].name != ""
    requires peer.read == |me.log| && me.read == |peer.log|
    requires Serves(me.end, i, peer.end, t) && peer.end.tasks[t].phase.Responded?
    ensures var outcome := peer.end.tasks[t].phase.outcome;
            && (me.end.calls[i].channel.Some? ==> me.end.calls[i].channel == Some(outcome))
            && (me.end.calls[i].channel.None? ==> me.end.delivering == Some(Delivery(i, outcome)))
  {
    WaitingIsFound(me, peer, i);
    var s: nat :| BeingServed(me, peer, i, s);
    assert peer.end.tasks[t].id[0] in "ks";
    hide Id, Lossless;
    OneTaskPerId(peer, me, s, t);
    AtHandIsAnswer(me, peer, i, t);
  }

  lemma SaneSides(sys: System, role: Role)
    requires Sane(sys)
    ensures var me, peer := Of(sys, role), Of(sys, Peer(role));
            Joined(me, peer) && Joined(peer, me) && Lossless(me, peer) && Lossless(peer, me)
  {
    hide Joined, Lossless;
  }

  /** From any sane state a call that can be answered can return; if its handler has not
      finished, with any result. */
  lemma CallCanReturn(start: System, sys: System, role: Role, i: nat, value: string)
    returns (sys': System, outcome: Outcome)
    requires Leads(start, sys) && Sane(sys) && Answerable(sys, role, i)
    ensures Leads(start, sys')
    ensures var c, e' := Of(sys, role).end.calls[i], Of(sys', role).end;
            && i < |e'.calls| && e'.calls[i].name == c.name && e'.calls[i].params == c.params
            && e'.calls[i].phase == Done(Returned(outcome))
    ensures exists t: nat :: Answers(Of(sys', Peer(role)).end, t, role, Of(sys', role).end.calls[i], outcome)
    ensures !outcome.ClosedPending?
    ensures Unhandled(sys, role, i) ==> outcome == Result(value)
  {
    hide Sane, Leads, Joined, Lossless, Serves;
    var me, peer := Of(sys, role), Of(sys, Peer(role));
    var s1 := Drain(start, sys, Peer(role));
    var peer1 := Of(s1, Peer(role));
    SaneSides(s1, role);
    var t := ServedAfterDrain(me, peer, peer1, i);
    var s2 := TaskCanRespond(start, s1, Peer(role), t, value);
    var peer2 := Of(s2, Peer(role));
    outcome := peer2.end.tasks[t].phase.outcome;
    StillServes(me.end, peer1.end, peer2.end, me.end, i, t);
    var s3 := Drain(start, s2, role);
    var me3 := Of(s3, role);
    SaneSides(s3, role);
    StillServes(me.end, peer2.end, peer2.end, me3.end, i, t);
    AtHandAfterDrain(me3, peer2, i, t);
    hide Quiet;
    var s4 := AnswerCanArrive(start, s3, role, i, outcome);
    sys' := CallCanFinish(start, s4, role, i, outcome);
    ServesIsAnswers(s3, sys', role, i, t);
  }

  lemma ServesIsAnswers(sys: System, sys': System, role: Role, i: nat, t: nat)
    requires Sane(sys)
    requires var me, peer := Of(sys, role), Of(sys, Peer(role));
             Serves(me.end, i, peer.end, t) && peer.end.tasks[t].phase.Responded?
    requires var c, e' := Of(sys, role).end.calls[i], Of(sys', role).end;
             i < |e'.calls| && e'.calls[i].num == c.num && e'.calls[i].name == c.name && e'.calls[i].params == c.params
    requires Of(sys', Peer(role)) == Of(sys, Peer(role))
    ensures var outcome := Of(sys, Peer(role)).end.tasks[t].phase.outcome;
            && Answers(Of(sys', Peer(role)).end, t, role, Of(sys', role).end.calls[i], outcome)
            && !outcome.ClosedPending?
  {
    SaneSides(sys, role);
    var me, peer := Of(sys, role), Of(sys, Peer(role));
    assert me.end.role == role;
    assert peer.end.tasks[t] in peer.end.tasks && StartedBy(peer.end.tasks[t], peer.end.role, me.log, peer.read);
    hide Id, Lossless;
  }

  lemma StillServes(e: Endpoint, peer: Endpoint, peer': Endpoint, e': Endpoint, i: nat, t: nat)
    requires Serves(e, i, peer, t) && t < |peer'.tasks|
             && peer'.tasks[t] == peer.tasks[t].(phase := peer'.tasks[t].phase)
    requires e'.role == e.role && i < |e'.calls| && e'.calls[i] == e.calls[i].(channel := e'.calls[i].channel)
    ensures Serves(e', i, peer', t)
  {
    hide Id;
  }

  /** Call i has returned the outcome, which is what a task of the peer answered for its id,
      method and params. */
  ghost predicate ReturnsIn(actions: seq<Action>, role: Role, i: nat, name: string, params: string, outcome: Outcome) {
    var e := Of(SystemRun(actions), role).end;
    && i < |e.calls| && e.calls[i].name == name && e.calls[i].params == params
    && e.calls[i].phase == Done(Returned(outcome)) && !outcome.ClosedPending?
    && exists t: nat :: Answers(Of(SystemRun(actions), Peer(role)).end, t, role, e.calls[i], outcome)
  }

  /** From every state that any interleaving reaches: a call that waits, of an endpoint that has
      not closed, with a peer that still reads and writes and has not given up on it, returns
      in some continuation what a task of the peer answered to it; if its handler has not
      finished, it can return any result. */
  lemma WaitingCallCanReturn(actions: seq<Action>, role: Role, i: nat, value: string)
    requires Answerable(SystemRun(actions), role, i)
    ensures var c := Of(SystemRun(actions), role).end.calls[i];
            exists more, outcome ::
              && ReturnsIn(actions + more, role, i, c.name, c.params, outcome)
              && (Unhandled(SystemRun(actions), role, i) ==> outcome == Result(value))
  {
    var sys := SystemRun(actions);
    var c := Of(sys, role).end.calls[i];
    AlwaysSane(actions);
    Stay(sys);
    var sys', outcome := CallCanReturn(sys, sys, role, i, value);
    var more :| sys' == Continue(sys, more);
    RunContinues(actions, more);
    hide SystemRun, Continue, Unhandled;
    assert ReturnsIn(actions + more, role, i, c.name, c.params, outcome);
  }

  // ----- a new call -----

  /** Nobody serves a call whose request was not sent. */
  lemma IdIsFresh(me: Side, peer: Side, i: nat)
    requires Joined(me, peer) && Joined(peer, me)
    requires i < |me.end.calls| && !me.end.calls[i].sent && me.end.calls[i].num > 0
    ensures forall task :: task in peer.end.tasks ==> task.id != Id(me.end.role, me.end.calls[i].num)
  {
    NewRequest(me, i);
    hide Id;
    forall task | task in peer.end.tasks ensures task.id != Id(me.end.role, me.end.calls[i].num) {
      assert StartedBy(task, peer.end.role, me.log, peer.read);
      assert me.log[task.source] in me.log;
    }
  }

  /** With a free slot and an open writer a new call can be sent. */
  lemma CallCanBeSent(start: System, sys: System, role: Role, name: string, params: string) returns (sys': System)
    requires Leads(start, sys) && Sane(sys)
    requires var e := Of(sys, role).end;
             !e.crashed && !e.closed && !e.doneClosed && !e.writerClosed && e.slots < Window(e.role)
    ensures Leads(start, sys') && Sane(sys') && Of(sys', Peer(role)) == Of(sys, Peer(role))
    ensures var e, e' := Of(sys, role).end, Of(sys', role).end;
            && !e'.crashed && !e'.closed && !e'.doneClosed && |e'.calls| == |e.calls| + 1
            && e'.calls[|e.calls|].name == name && e'.calls[|e.calls|].params == params
            && e'.calls[|e.calls|].phase.Waiting?
            && forall t: nat :: !Serves(e', |e.calls|, Of(sys, Peer(role)).end, t)
  {
    hide Sane, Leads, Id;
    var n, peer := |Of(sys, role).end.calls|, Of(sys, Peer(role));
    var s1 := Moves(start, sys, role, Acquire(name, params));
    var s2 := CallStepsOn(start, s1, role, Number(n));
    var s3 := CallStepsOn(start, s2, role, Register(n));
    var s4 := CallStepsOn(start, s3, role, CheckOpen(n));
    SaneSides(s4, role);
    var e4 := Of(s4, role).end;
    assert e4.calls[n].phase.Checked? && e4.calls[n].num > 0 && !e4.calls[n].sent;
    IdIsFresh(Of(s4, role), peer, n);
    hide Joined, Lossless;
    sys' := CallStepsOn(start, s4, role, Push(n));
    assert Of(sys', role).end.calls[n].num == e4.calls[n].num && Of(sys', role).end.role == e4.role;
  }

  /** From every state that any interleaving reaches, with both ends open, a free slot and a
      handler for the method: for all params and every result there is a continuation in
      which a new Call of that method returns that result. */
  lemma NewCallCanReturn(actions: seq<Action>, role: Role, name: string, params: string, value: string)
    requires var sys := SystemRun(actions);
             var e, peer := Of(sys, role).end, Of(sys, Peer(role)).end;
             && !e.crashed && !e.closed && !e.doneClosed && !e.writerClosed && e.slots < Window(e.role)
             && !peer.crashed && !peer.doneClosed && !peer.writerClosed
             && name in peer.handlers && name !in {"", CANCEL}
    ensures exists more ::
            ReturnsIn(actions + more, role, |Of(SystemRun(actions), role).end.calls|, name, params, Result(value))
  {
    var sys := SystemRun(actions);
    var n := |Of(sys, role).end.calls|;
    AlwaysSane(actions);
    Stay(sys);
    var sent := CallCanBeSent(sys, sys, role, name, params);
    hide Sane, Serves;
    var sys', outcome := CallCanReturn(sys, sent, role, n, value);
    var more :| sys' == Continue(sys, more);
    RunContinues(actions, more);
    hide SystemRun, Continue;
    assert ReturnsIn(actions + more, role, n, name, params, Result(value));
  }
}
