/** A kernel and a sidecar joined by two loss-free FIFO pipes: every interleaving of their
    steps and of the arrival of messages. */
module RpcSystem {
  import opened Options
  import opened Rpc
  import opened RpcWindow

  /** An endpoint, everything it has written, and how much of the peer's log it has read. */
  datatype Side = Side(end: Endpoint, log: seq<Message>, read: nat)

  datatype System = System(kernel: Side, sidecar: Side)

  function Of(sys: System, role: Role): Side {
    if role == Kernel then sys.kernel else sys.sidecar
  }

  function With(sys: System, role: Role, side: Side): System {
    if role == Kernel then sys.(kernel := side) else sys.(sidecar := side)
  }

  /** A step inside one endpoint, or its reader taking the next message off the pipe. */
  datatype Action = Local(role: Role, step: Step) | Fetch(role: Role)

  function Write(log: seq<Message>, out: Option<Message>): seq<Message> {
    if out.Some? then log + [out.value] else log
  }

  /** The side after its own step; messages come off the pipe only. */
  function Act(me: Side, step: Step): Side {
    if step.Receive? then me
    else Side(Next(me.end, step).0, Write(me.log, Next(me.end, step).1), me.read)
  }

  function Read(me: Side, peer: Side): Side {
    if me.read < |peer.log| && me.end.delivering.None? && !me.end.crashed
    then Side(Next(me.end, Receive(me.read, peer.log[me.read])).0, me.log, me.read + 1)
    else me
  }

  function SystemNext(sys: System, action: Action): System {
    match action
    case Local(role, step) => With(sys, role, Act(Of(sys, role), step))
    case Fetch(role) => With(sys, role, Read(Of(sys, role), Of(sys, Peer(role))))
  }

  function SystemRun(actions: seq<Action>): System {
    if actions == [] then System(Side(NewEndpoint(Kernel), [], 0), Side(NewEndpoint(Sidecar), [], 0))
    else SystemNext(SystemRun(actions[..|actions| - 1]), actions[|actions| - 1])
  }

  // ----- what every message, task and outcome goes back to -----

  predicate IsRequest(e: Endpoint, m: Message, i: nat) {
    && i < |e.calls| && e.calls[i].sent
    && m == Message(Id(e.role, e.calls[i].num), e.calls[i].name, e.calls[i].params, None)
  }

  predicate IsResponse(e: Endpoint, m: Message, t: nat) {
    && t < |e.tasks| && e.tasks[t].phase.Responded?
    && m == Message(e.tasks[t].id, "", "", Some(e.tasks[t].phase.outcome))
  }

  ghost predicate Justified(e: Endpoint, m: Message) {
    m.id == "" || (exists i: nat :: IsRequest(e, m, i)) || (exists t: nat :: IsResponse(e, m, t))
  }

  ghost predicate Logged(me: Side) {
    forall m :: m in me.log ==> Justified(me.end, m)
  }

  /** No two requests of a log have the same id. */
  predicate Unrepeated(log: seq<Message>) {
    forall j, k :: 0 <= j < k < |log| && log[j].name != "" && log[k].name != "" && log[j].id != "" ==>
      log[j].id != log[k].id
  }

  /** The task only says that the method has no handler. */
  predicate Refused(phase: TaskPhase) {
    phase.Over? || (!phase.Running? && phase.outcome == Error("method_not_found"))
  }

  /** No task answers with the error of Close. */
  predicate NotClosed(phase: TaskPhase) {
    phase.Running? || phase.Over? || !phase.outcome.ClosedPending?
  }

  /** The task was started by a request or notification of the peer's log. */
  predicate StartedBy(task: Task, role: Role, peerLog: seq<Message>, read: nat) {
    && task.source < read <= |peerLog|
    && task.name != ""
    && peerLog[task.source].id == task.id && peerLog[task.source].name == task.name
    && peerLog[task.source].params == task.params
    && (task.id == "" || HasPrefix(task.id, Prefix(Peer(role))))
    && (task.handled || Refused(task.phase))
    && NotClosed(task.phase)
  }

  predicate Started(me: Side, peerLog: seq<Message>) {
    && me.read <= |peerLog|
    && (forall task :: task in me.end.tasks ==> StartedBy(task, me.end.role, peerLog, me.read))
    && (forall s, t :: 0 <= s < t < |me.end.tasks| ==> me.end.tasks[s].source < me.end.tasks[t].source)
  }

  /** Task `t` of the peer answered the call: same id, same method, same params. */
  predicate Answers(e: Endpoint, t: nat, role: Role, c: Call, outcome: Outcome) {
    && t < |e.tasks| && e.tasks[t].phase == Responded(outcome)
    && e.tasks[t].id == Id(role, c.num) && e.tasks[t].name == c.name && e.tasks[t].params == c.params
  }

  ghost predicate Answered(e: Endpoint, role: Role, c: Call, outcome: Outcome) {
    exists t: nat :: Answers(e, t, role, c, outcome)
  }

  /** The call has the outcome in its channel, or is returning it, or has returned it. */
  predicate Has(c: Call, outcome: Outcome) {
    || c.channel == Some(outcome)
    || c.phase == Finishing(Returned(outcome)) || c.phase == Cleared(Returned(outcome))
    || c.phase == Done(Returned(outcome))
  }

  /** The outcome at hand for the call is the peer's answer to it. */
  ghost predicate Genuine(c: Call, role: Role, peer: Endpoint, outcome: Outcome) {
    c.num > 0 && Answered(peer, role, c, outcome)
  }

  /** Only Close gives a call something else than the peer's answer. */
  predicate ByPeer(e: Endpoint, outcome: Outcome) {
    e.closed ==> !outcome.ClosedPending?
  }

  ghost predicate Informed(me: Endpoint, peer: Endpoint) {
    && (forall i, outcome :: 0 <= i < |me.calls| && Has(me.calls[i], outcome) && ByPeer(me, outcome) ==>
          Genuine(me.calls[i], me.role, peer, outcome))
    && (me.delivering.Some? ==>
          && me.delivering.value.waiter < |me.calls|
          && Genuine(me.calls[me.delivering.value.waiter], me.role, peer, me.delivering.value.outcome))
  }

  ghost predicate Joined(me: Side, peer: Side) {
    && Kept(me.end) && peer.end.role == Peer(me.end.role)
    && Logged(me) && Unrepeated(me.log)
    && Started(me, peer.log)
    && Informed(me.end, peer.end)
  }

  // ----- what an endpoint never takes back -----

  predicate CallStays(c: Call, c': Call) {
    && c'.name == c.name && c'.params == c.params
    && (c.num > 0 ==> c'.num == c.num) && (c.sent ==> c'.sent)
  }

  predicate TaskStays(task: Task, task': Task) {
    && task' == task.(phase := task'.phase)
    && (task.phase.Responded? ==> task' == task)
    && (Refused(task.phase) ==> Refused(task'.phase))
    && (NotClosed(task.phase) ==> NotClosed(task'.phase))
  }

  predicate Grown(e: Endpoint, e': Endpoint) {
    && e'.role == e.role
    && |e.calls| <= |e'.calls| && (forall i :: 0 <= i < |e.calls| ==> CallStays(e.calls[i], e'.calls[i]))
    && |e.tasks| <= |e'.tasks| && (forall t :: 0 <= t < |e.tasks| ==> TaskStays(e.tasks[t], e'.tasks[t]))
  }

  lemma CallGrows(e: Endpoint, step: Step, c: Call)
    requires OfCall(step) && CallReady(e, step, c) && NumberedWell(c, e.seqNo)
    ensures CallStays(c, CallAfter(e, step, c))
  {
  }

  lemma TaskGrows(e: Endpoint, step: Step, task: Task)
    requires OfTask(step) && TaskReady(step, task)
    ensures TaskStays(task, TaskAfter(e, step, task))
  {
  }

  lemma EndpointGrows(e: Endpoint, step: Step)
    requires NumbersKept(e)
    ensures Grown(e, Next(e, step).0)
  {
    RoleKept(e, step);
    var e' := Next(e, step).0;
    if e.crashed {
    } else if OfCall(step) {
      CallStepGrows(e, step);
    } else if OfTask(step) {
      TaskStepGrows(e, step);
    } else if step.Acquire? {
      Unmoved(e);
      assert e'.tasks == e.tasks && |e'.calls| >= |e.calls|;
      assert forall i :: 0 <= i < |e.calls| ==> e'.calls[i] == e.calls[i];
      hide Next, CallStays, TaskStays;
    } else {
      OthersKeepCalls(e, step);
      OthersKeepTasks(e, step);
      hide OtherStep;
    }
  }

  lemma CallStepGrows(e: Endpoint, step: Step)
    requires NumbersKept(e) && OfCall(step)
    ensures Grown(e, CallStep(e, step).0)
  {
    var i := step.call;
    if i < |e.calls| && CallReady(e, step, e.calls[i]) {
      SessionKeeps(e, step, e.calls[i]);
      assert NumberedWell(e.calls[i], e.seqNo);
      CallGrows(e, step, e.calls[i]);
    }
    hide CallAfter, CallReady, SessionAfter, NumbersKept, NumberedWell, CallStays, TaskStays;
    Unmoved(e);
  }

  lemma Unmoved(e: Endpoint)
    ensures Grown(e, e)
    ensures forall c: Call :: CallStays(c, c)
    ensures forall t: Task :: TaskStays(t, t)
  {
  }

  lemma TaskStepGrows(e: Endpoint, step: Step)
    requires OfTask(step)
    ensures Grown(e, TaskStep(e, step).0)
  {
    var t := step.task;
    if t < |e.tasks| && TaskReady(step, e.tasks[t]) {
      TaskGrows(e, step, e.tasks[t]);
      hide TaskAfter, TaskReady;
    }
  }

  lemma OthersKeepTasks(e: Endpoint, step: Step)
    requires !OfCall(step) && !OfTask(step)
    ensures var e' := OtherStep(e, step).0;
            if step.Receive? && e.delivering.None? && ForHandlers(e, step.msg)
            then e'.tasks == e.tasks + Served(e, step.source, step.msg)
            else e'.tasks == e.tasks
  {
    hide Served, ForHandlers, ForWaiters, FailWaiters;
  }

  lemma JustifiedStays(e: Endpoint, e': Endpoint, m: Message)
    requires Grown(e, e') && NumbersKept(e) && Justified(e, m)
    ensures Justified(e', m)
  {
    hide Id;
    if i: nat :| IsRequest(e, m, i) {
      assert NumberedWell(e.calls[i], e.seqNo);
      assert IsRequest(e', m, i);
    } else if t: nat :| IsResponse(e, m, t) {
      assert IsResponse(e', m, t);
    }
  }

  lemma GenuineStays(c: Call, c': Call, role: Role, peer: Endpoint, peer': Endpoint, outcome: Outcome)
    requires Grown(peer, peer') && CallStays(c, c') && Genuine(c, role, peer, outcome)
    ensures Genuine(c', role, peer', outcome)
  {
    hide Id;
    var t: nat :| Answers(peer, t, role, c, outcome);
    assert Answers(peer', t, role, c', outcome);
  }

  // ----- the log -----

  /** What a step writes goes back to a call not sent before, or to a task. */
  lemma EmissionJustified(e: Endpoint, step: Step)
    requires NumbersKept(e) && Next(e, step).1.Some?
    ensures Justified(Next(e, step).0, Next(e, step).1.value)
    ensures var m := Next(e, step).1.value;
            m.id != "" && m.name != "" ==>
              step.Push? && step.call < |e.calls| && !e.calls[step.call].sent
              && e.calls[step.call].num > 0 && m.id == Id(e.role, e.calls[step.call].num)
  {
    hide Id, Dispatch;
    var e', m := Next(e, step).0, Next(e, step).1.value;
    if step.Push? {
      assert NumberedWell(e.calls[step.call], e.seqNo);
      assert IsRequest(e', m, step.call);
    } else if step.Respond? {
      assert IsResponse(e', m, step.task);
    }
  }

  lemma LogKept(me: Side, step: Step)
    requires Kept(me.end) && Logged(me) && Unrepeated(me.log)
    ensures Logged(Act(me, step)) && Unrepeated(Act(me, step).log)
  {
    var e, e', out := me.end, Next(me.end, step).0, Next(me.end, step).1;
    EndpointGrows(e, step);
    if out.Some? {
      EmissionJustified(e, step);
    }
    assert NumbersKept(e);
    hide Next, Kept, Grown, NumbersKept;
    if step.Receive? { return; }
    var log' := Write(me.log, out);
    forall m | m in log' ensures Justified(e', m) {
      if m in me.log {
        JustifiedStays(e, e', m);
      }
    }
    if out.Some? && out.value.id != "" && out.value.name != "" {
      NewRequest(me, step.call);
    }
    hide Justified;
  }

  /** A call not sent before has no request in the log. */
  lemma NewRequest(me: Side, i: nat)
    requires NumbersKept(me.end) && Logged(me)
    requires i < |me.end.calls| && !me.end.calls[i].sent && me.end.calls[i].num > 0
    ensures forall m :: m in me.log && m.name != "" ==> m.id != Id(me.end.role, me.end.calls[i].num)
  {
    var e := me.end;
    forall m | m in me.log && m.name != "" ensures m.id != Id(e.role, e.calls[i].num) {
      if m.id == Id(e.role, e.calls[i].num) {
        RequestOf(e, m, i);
        assert false;
      }
    }
  }

  /** A logged message with a method and the id of call `i` is that call's request. */
  lemma RequestOf(e: Endpoint, m: Message, i: nat)
    requires NumbersKept(e) && Justified(e, m) && m.name != ""
    requires i < |e.calls| && e.calls[i].num > 0 && m.id == Id(e.role, e.calls[i].num)
    ensures IsRequest(e, m, i)
  {
    assert m.id[0] in "ks";
    var j: nat :| IsRequest(e, m, j);
    IdInjective(e.role, e.calls[i].num, e.calls[j].num);
    assert e.calls[i].num == e.calls[j].num;
  }

  // ----- tasks -----

  lemma OnlyReceiveStarts(e: Endpoint, step: Step)
    requires !step.Receive?
    ensures |Next(e, step).0.tasks| == |e.tasks|
  {
    if e.crashed {
    } else if OfCall(step) {
      if step.call < |e.calls| {
        SessionKeeps(e, step, e.calls[step.call]);
      }
      hide CallAfter, CallReady, SessionAfter;
    } else if OfTask(step) {
      hide TaskAfter, TaskReady;
    } else {
      OthersKeepTasks(e, step);
      hide OtherStep;
    }
  }

  lemma ActStarted(me: Side, step: Step, peerLog: seq<Message>)
    requires Kept(me.end) && Started(me, peerLog)
    ensures Started(Act(me, step), peerLog)
  {
    if !step.Receive? {
      EndpointGrows(me.end, step);
      OnlyReceiveStarts(me.end, step);
      hide Next, Kept, StartedBy;
      var tasks, tasks' := me.end.tasks, Next(me.end, step).0.tasks;
      forall t | 0 <= t < |tasks'|
        ensures StartedBy(tasks'[t], me.end.role, peerLog, me.read) && tasks'[t].source == tasks[t].source
      {
        SameStart(tasks[t], tasks'[t], me.end.role, peerLog, me.read);
      }
    }
  }

  lemma SameStart(task: Task, task': Task, role: Role, peerLog: seq<Message>, read: nat)
    requires TaskStays(task, task') && StartedBy(task, role, peerLog, read)
    ensures StartedBy(task', role, peerLog, read) && task'.source == task.source
  {
  }

  lemma ReadStarted(me: Side, peer: Side)
    requires Kept(me.end) && Started(me, peer.log)
    ensures Started(Read(me, peer), peer.log)
  {
    var me' := Read(me, peer);
    if me' != me {
      var m := peer.log[me.read];
      var e' := Next(me.end, Receive(me.read, m)).0;
      RoleKept(me.end, Receive(me.read, m));
      OthersKeepTasks(me.end, Receive(me.read, m));
      assert e'.tasks == if ForHandlers(me.end, m) then me.end.tasks + Served(me.end, me.read, m) else me.end.tasks;
      hide Next, Kept;
      forall task | task in e'.tasks ensures StartedBy(task, me.end.role, peer.log, me.read + 1) {
        if task in me.end.tasks {
          assert StartedBy(task, me.end.role, peer.log, me.read);
        }
      }
      forall s, t | 0 <= s < t < |e'.tasks| ensures e'.tasks[s].source < e'.tasks[t].source {
        assert me.end.tasks[s] in me.end.tasks && StartedBy(me.end.tasks[s], me.end.role, peer.log, me.read);
      }
    }
  }

  // ----- the outcomes -----

  lemma CallHas(e: Endpoint, step: Step, c: Call, outcome: Outcome)
    requires OfCall(step) && CallReady(e, step, c) && Has(CallAfter(e, step, c), outcome)
    ensures Has(c, outcome)
  {
  }

  lemma ClosedStays(e: Endpoint, step: Step)
    ensures e.closed ==> Next(e, step).0.closed
    ensures !step.CloseSession? ==> Next(e, step).0.closed == e.closed
  {
    if OfCall(step) {
      if step.call < |e.calls| {
        SessionKeeps(e, step, e.calls[step.call]);
      }
      hide CallAfter, CallReady, SessionAfter;
    } else if OfTask(step) {
      hide TaskAfter, TaskReady;
    } else {
      hide Served, ForHandlers, ForWaiters, FailWaiters;
    }
  }

  /** Where a call's outcome comes from: it had it before, or it was being delivered, or
      Close put it there. */
  lemma OutcomeComesFrom(e: Endpoint, step: Step, i: nat, outcome: Outcome)
    requires !step.Receive?
    requires i < |Next(e, step).0.calls| && Has(Next(e, step).0.calls[i], outcome) && ByPeer(Next(e, step).0, outcome)
    ensures i < |e.calls| && ByPeer(e, outcome)
    ensures Has(e.calls[i], outcome) || e.delivering == Some(Delivery(i, outcome))
  {
    hide Id;
    ClosedStays(e, step);
    if e.crashed || OfTask(step) {
    } else if OfCall(step) {
      if step.call < |e.calls| && CallReady(e, step, e.calls[step.call]) && i == step.call {
        CallHas(e, step, e.calls[i], outcome);
      }
      hide CallAfter, CallReady, SessionAfter, Has;
    } else {
      OtherOutcome(e, step, i, outcome);
      hide Has, OtherStep;
    }
  }

  lemma OtherOutcome(e: Endpoint, step: Step, i: nat, outcome: Outcome)
    requires !OfCall(step) && !OfTask(step) && !step.Receive?
    requires var e' := OtherStep(e, step).0; i < |e'.calls| && Has(e'.calls[i], outcome) && ByPeer(e', outcome)
    ensures i < |e.calls|
    ensures Has(e.calls[i], outcome) || e.delivering == Some(Delivery(i, outcome))
  {
    var e' := OtherStep(e, step).0;
    if step.Deliver? {
      assert e.delivering.Some? ==> e.delivering.value.waiter >= 0;
    } else if step.CloseSession? {
      assert i < |e.calls|;
      assert e'.calls[i] == e.calls[i] || (e'.closed && e'.calls[i] == e.calls[i].(channel := Some(ClosedPending)));
    } else if !step.Acquire? {
      hide Has;
      assert e'.calls == e.calls;
    }
  }

  lemma DeliveringStays(e: Endpoint, step: Step)
    requires !step.Receive?
    ensures Next(e, step).0.delivering == e.delivering || Next(e, step).0.delivering == None
  {
    if OfCall(step) && step.call < |e.calls| {
      SessionKeeps(e, step, e.calls[step.call]);
    }
    hide CallAfter, CallReady, SessionAfter, TaskAfter, TaskReady, FailWaiters;
  }

  lemma ActInformed(me: Endpoint, step: Step, peer: Endpoint)
    requires !step.Receive? && Kept(me) && Informed(me, peer)
    ensures Informed(Next(me, step).0, peer)
  {
    EndpointGrows(me, step);
    DeliveringStays(me, step);
    var me' := Next(me, step).0;
    Unmoved(peer);
    forall i, outcome | 0 <= i < |me'.calls| && Has(me'.calls[i], outcome) && ByPeer(me', outcome)
      ensures Genuine(me'.calls[i], me.role, peer, outcome)
    {
      OutcomeComesFrom(me, step, i, outcome);
      GenuineStays(me.calls[i], me'.calls[i], me.role, peer, peer, outcome);
    }
    hide Next, Kept, Has;
    if me'.delivering.Some? {
      var i := me.delivering.value.waiter;
      GenuineStays(me.calls[i], me'.calls[i], me.role, peer, peer, me.delivering.value.outcome);
    }
  }

  lemma PeerInformed(me: Endpoint, peer: Endpoint, peer': Endpoint)
    requires Grown(peer, peer') && Informed(me, peer)
    ensures Informed(me, peer')
  {
    hide Has;
    forall i, outcome | 0 <= i < |me.calls| && Has(me.calls[i], outcome) && ByPeer(me, outcome)
      ensures Genuine(me.calls[i], me.role, peer', outcome)
    {
      GenuineStays(me.calls[i], me.calls[i], me.role, peer, peer', outcome);
    }
    if me.delivering.Some? {
      var c := me.calls[me.delivering.value.waiter];
      GenuineStays(c, c, me.role, peer, peer', me.delivering.value.outcome);
    }
  }

  lemma PrefixesDiffer(role: Role, n: nat)
    ensures !HasPrefix(Id(Peer(role), n), Prefix(role)) && HasPrefix(Id(role, n), Prefix(role))
  {
    assert Id(Peer(role), n)[0] != Prefix(role)[0];
  }

  /** A message without method under the id of a call of mine is the answer of a task of the
      peer to that call, whose request was sent. */
  lemma AnswerGoesBack(me: Side, peer: Side, m: Message, i: nat)
    requires Joined(me, peer) && Joined(peer, me) && m in peer.log && m.name == ""
    requires i < |me.end.calls| && me.end.calls[i].num > 0 && m.id == Id(me.end.role, me.end.calls[i].num)
    ensures me.end.calls[i].sent && m.outcome.Some?
    ensures Genuine(me.end.calls[i], me.end.role, peer.end, m.outcome.value)
  {
    assert m.id[0] in "ks";
    assert Justified(peer.end, m);
    if j: nat :| IsRequest(peer.end, m, j) {
      PrefixesDiffer(me.end.role, peer.end.calls[j].num);
      assert false;
    }
    var t: nat :| IsResponse(peer.end, m, t);
    var task := peer.end.tasks[t];
    assert task in peer.end.tasks && StartedBy(task, peer.end.role, me.log, peer.read);
    RequestOf(me.end, me.log[task.source], i);
    assert Answers(peer.end, t, me.end.role, me.end.calls[i], m.outcome.value);
  }

  /** A response that finds a waiter is the answer to that waiter's call. */
  lemma ResponseGenuine(me: Side, peer: Side, m: Message)
    requires Joined(me, peer) && Joined(peer, me) && m in peer.log
    requires ForWaiters(me.end, m) && m.id in me.end.waiters
    ensures m.outcome.Some? && me.end.waiters[m.id] < |me.end.calls|
    ensures Genuine(me.end.calls[me.end.waiters[m.id]], me.end.role, peer.end, m.outcome.value)
  {
    assert Awaits(me.end.role, me.end.calls, m.id, me.end.waiters[m.id]);
    AnswerGoesBack(me, peer, m, me.end.waiters[m.id]);
  }

  lemma ReadInformed(me: Side, peer: Side)
    requires Joined(me, peer) && Joined(peer, me)
    ensures Informed(Read(me, peer).end, peer.end)
  {
    if Read(me, peer) != me {
      var m := peer.log[me.read];
      if ForWaiters(me.end, m) && m.id in me.end.waiters {
        ResponseGenuine(me, peer, m);
      }
      hide Has, Genuine, ForWaiters, ForHandlers, Served, Logged, Unrepeated, Started, Kept;
      var e' := Next(me.end, Receive(me.read, m)).0;
      assert e'.calls == me.end.calls && e'.role == me.end.role && e'.closed == me.end.closed;
      forall i, outcome | 0 <= i < |e'.calls| && Has(e'.calls[i], outcome) && ByPeer(e', outcome)
        ensures Genuine(e'.calls[i], e'.role, peer.end, outcome)
      {
        assert ByPeer(me.end, outcome);
      }
    }
  }

  // ----- the whole system -----

  lemma LongerLog(peer: Side, log: seq<Message>, log': seq<Message>)
    requires Started(peer, log) && log <= log'
    ensures Started(peer, log')
  {
  }

  lemma ActKept(me: Side, step: Step, peer: Side)
    requires Joined(me, peer) && Joined(peer, me)
    ensures Joined(Act(me, step), peer) && Joined(peer, Act(me, step))
  {
    if step.Receive? { return; }
    var me' := Act(me, step);
    assert me.log <= me'.log && me'.end == Next(me.end, step).0;
    assert NumbersKept(me.end);
    KeptNext(me.end, step);
    LogKept(me, step);
    ActStarted(me, step, peer.log);
    ActInformed(me.end, step, peer.end);
    EndpointGrows(me.end, step);
    hide Act, Next, Kept, Logged, Unrepeated, Started, Informed, Grown;
    PeerInformed(peer.end, me.end, me'.end);
    LongerLog(peer, me.log, me'.log);
  }

  lemma ReadKept(me: Side, peer: Side)
    requires Joined(me, peer) && Joined(peer, me)
    ensures Joined(Read(me, peer), peer) && Joined(peer, Read(me, peer))
  {
    var me' := Read(me, peer);
    if me' != me {
      var step := Receive(me.read, peer.log[me.read]);
      assert me'.log == me.log && me'.end == Next(me.end, step).0;
      assert NumbersKept(me.end);
      KeptNext(me.end, step);
      ReadStarted(me, peer);
      ReadInformed(me, peer);
      EndpointGrows(me.end, step);
      hide Read, Next, Kept, Unrepeated, Started, Informed, NumbersKept;
      PeerInformed(peer.end, me.end, me'.end);
      hide Grown;
      forall m | m in me.log ensures Justified(me'.end, m) {
        JustifiedStays(me.end, me'.end, m);
      }
    }
  }

  ghost predicate AllKept(sys: System) {
    && sys.kernel.end.role == Kernel && sys.sidecar.end.role == Sidecar
    && Joined(sys.kernel, sys.sidecar) && Joined(sys.sidecar, sys.kernel)
  }

  lemma AllKeptNext(sys: System, action: Action)
    requires AllKept(sys)
    ensures AllKept(SystemNext(sys, action))
  {
    var me, peer := Of(sys, action.role), Of(sys, Peer(action.role));
    match action {
      case Local(role, step) => ActKept(me, step, peer); RoleOfAct(me, step);
      case Fetch(role) => ReadKept(me, peer); RoleOfRead(me, peer);
    }
    hide Joined, Act, Read;
  }

  lemma {:induction false} SystemKept(actions: seq<Action>)
    ensures AllKept(SystemRun(actions))
  {
    if actions == [] {
      KeptAtFirst(Kernel);
      KeptAtFirst(Sidecar);
      hide Kept;
    } else {
      SystemKept(actions[..|actions| - 1]);
      hide AllKept, SystemNext;
      AllKeptNext(SystemRun(actions[..|actions| - 1]), actions[|actions| - 1]);
    }
  }

  lemma RoleOfAct(me: Side, step: Step)
    ensures Act(me, step).end.role == me.end.role
  {
    RoleKept(me.end, step);
    hide Next;
  }

  lemma RoleOfRead(me: Side, peer: Side)
    ensures Read(me, peer).end.role == me.end.role
  {
    if me.read < |peer.log| {
      RoleKept(me.end, Receive(me.read, peer.log[me.read]));
    }
    hide Next;
  }

  /** No two tasks serve the same request. */
  lemma OneTaskPerId(me: Side, peer: Side, s: nat, t: nat)
    requires Started(me, peer.log) && Unrepeated(peer.log)
    requires s < |me.end.tasks| && t < |me.end.tasks| && me.end.tasks[s].id == me.end.tasks[t].id != ""
    ensures s == t
  {
    assert me.end.tasks[s] in me.end.tasks && StartedBy(me.end.tasks[s], me.end.role, peer.log, me.read);
    assert me.end.tasks[t] in me.end.tasks && StartedBy(me.end.tasks[t], me.end.role, peer.log, me.read);
  }

  /** In every interleaving, over each pipe: no two requests ever carry the same id, each
      request or notification of the peer starts at most one handler, with that message's
      method and params, and no two handlers ever run for the same request id. */
  lemma HandledAtMostOnce(actions: seq<Action>, role: Role)
    ensures var me, peer := Of(SystemRun(actions), role), Of(SystemRun(actions), Peer(role));
            && Unrepeated(peer.log)
            && (forall t :: 0 <= t < |me.end.tasks| ==>
                  var task := me.end.tasks[t];
                  task.source < |peer.log| && peer.log[task.source].id == task.id
                  && peer.log[task.source].name == task.name && peer.log[task.source].params == task.params)
            && (forall s, t :: 0 <= s < t < |me.end.tasks| ==>
                  && me.end.tasks[s].source != me.end.tasks[t].source
                  && (me.end.tasks[s].id == "" || me.end.tasks[s].id != me.end.tasks[t].id))
  {
    SystemKept(actions);
    var me, peer := Of(SystemRun(actions), role), Of(SystemRun(actions), Peer(role));
    hide SystemRun, Kept, Logged, Informed;
    forall t | 0 <= t < |me.end.tasks| ensures StartedBy(me.end.tasks[t], me.end.role, peer.log, me.read) {
      assert me.end.tasks[t] in me.end.tasks;
    }
  }
}
