/** No call is ever lost: in every interleaving over loss-free pipes, each call that waits for
    its answer can be found on its way there and back. */
module RpcNothingLost {
  import opened Options
  import opened Rpc
  import opened RpcWindow
  import opened RpcSystem

  // ----- the converses of what the system keeps -----

  /** Every registered call is in the waiter table, until Close empties it. */
  predicate Listed(e: Endpoint) {
    !e.closed ==>
      forall i :: 0 <= i < |e.calls| && InTable(e.calls[i].phase) ==>
        Id(e.role, e.calls[i].num) in e.waiters && e.waiters[Id(e.role, e.calls[i].num)] == i
  }

  predicate Handed(c: Call) {
    c.phase.Waiting? ==> c.sent
  }

  ghost predicate Posted(me: Side, i: nat) {
    exists p: nat :: p < |me.log| && IsRequest(me.end, me.log[p], i)
  }

  ghost predicate Replied(me: Side, t: nat) {
    exists q: nat :: q < |me.log| && IsResponse(me.end, me.log[q], t)
  }

  /** A request, not a notification. */
  predicate Asks(e: Endpoint, m: Message) {
    m.id != "" && ForHandlers(e, m)
  }

  ghost predicate Taken(e: Endpoint, p: nat) {
    exists t: nat :: t < |e.tasks| && e.tasks[t].source == p
  }

  predicate IsAnswerTo(e: Endpoint, m: Message, i: nat) {
    i < |e.calls| && m.name == "" && m.id == Id(e.role, e.calls[i].num)
  }

  /** The answer is in the call's channel, or on its way there from the table. */
  predicate AtHand(e: Endpoint, i: nat) {
    i < |e.calls| && (e.calls[i].channel.Some? || (e.delivering.Some? && e.delivering.value.waiter == i))
  }

  ghost predicate Noticed(me: Side, peerLog: seq<Message>) {
    !me.end.closed ==> forall i, q :: AwaitsRead(me, peerLog, i, q) ==> AtHand(me.end, i)
  }

  /** Call i waits, and message q of the peer, already read, answers it. */
  predicate AwaitsRead(me: Side, peerLog: seq<Message>, i: int, q: int) {
    && 0 <= i < |me.end.calls| && me.end.calls[i].phase.Waiting?
    && 0 <= q < me.read && q < |peerLog| && IsAnswerTo(me.end, peerLog[q], i)
  }

  ghost predicate Lossless(me: Side, peer: Side) {
    && Listed(me.end)
    && (forall c :: c in me.end.calls ==> Handed(c))
    && (forall i: nat :: i < |me.end.calls| && me.end.calls[i].sent ==> Posted(me, i))
    && (forall t: nat :: t < |me.end.tasks| && me.end.tasks[t].phase.Responded? ==> Replied(me, t))
    && (forall p: nat :: p < me.read && p < |peer.log| && Asks(me.end, peer.log[p]) ==> Taken(me.end, p))
    && Noticed(me, peer.log)
  }

  // ----- one step of an endpoint -----

  /** The call is moved by its own step. */
  predicate Steps(e: Endpoint, step: Step, i: nat) {
    !e.crashed && OfCall(step) && step.call == i && i < |e.calls| && CallReady(e, step, e.calls[i])
  }

  /** What can be at position i of the calls after a step: the call moved by its own step, the
      call as it was except for its channel, which is never emptied, or a new call. */
  lemma CallsAfter(e: Endpoint, step: Step, i: nat)
    requires i < |Next(e, step).0.calls|
    ensures var c' := Next(e, step).0.calls[i];
            if Steps(e, step, i) then c' == CallAfter(e, step, e.calls[i])
            else if i < |e.calls| then SameButFuller(e.calls[i], c')
            else i == |e.calls| && step.Acquire? && c'.phase.Acquired? && !c'.sent
  {
    hide CallAfter, CallReady, CallStep, TaskStep, OtherStep;
    if e.crashed {
    } else if OfTask(step) {
      TaskKeepsTable(e, step);
    } else if OfCall(step) {
      CallStepAfter(e, step, i);
    } else {
      OthersAfter(e, step, i);
    }
  }

  lemma CallStepAfter(e: Endpoint, step: Step, i: nat)
    requires OfCall(step) && i < |CallStep(e, step).0.calls|
    ensures i < |e.calls|
    ensures var c' := CallStep(e, step).0.calls[i];
            if step.call == i && CallReady(e, step, e.calls[i]) then c' == CallAfter(e, step, e.calls[i])
            else c' == e.calls[i]
  {
    hide CallAfter, CallReady, SessionAfter;
  }

  lemma TaskKeepsTable(e: Endpoint, step: Step)
    requires OfTask(step)
    ensures var e' := TaskStep(e, step).0;
            e'.calls == e.calls && e'.waiters == e.waiters && e'.role == e.role && e'.closed == e.closed
  {
    hide TaskAfter, TaskReady;
  }

  predicate SameButFuller(c: Call, c': Call) {
    c' == c.(channel := c'.channel) && (c.channel.Some? ==> c'.channel.Some?)
  }

  lemma OthersAfter(e: Endpoint, step: Step, i: nat)
    requires !OfCall(step) && !OfTask(step) && i < |OtherStep(e, step).0.calls|
    ensures var c' := OtherStep(e, step).0.calls[i];
            if i < |e.calls| then SameButFuller(e.calls[i], c')
            else i == |e.calls| && step.Acquire? && c'.phase.Acquired? && !c'.sent
  {
    hide ForHandlers, ForWaiters, Served;
    if step.Deliver? {
      assert e.delivering.Some? ==> e.delivering.value.waiter >= 0;
    } else if !step.Acquire? && !step.CloseSession? {
      assert OtherStep(e, step).0.calls == e.calls;
    }
  }

  // ----- the waiter table -----

  lemma DifferentIds(e: Endpoint, i: nat, j: nat)
    requires NumbersKept(e) && i < |e.calls| && j < |e.calls| && i != j && e.calls[i].num > 0
    ensures Id(e.role, e.calls[i].num) != Id(e.role, e.calls[j].num)
  {
    if Id(e.role, e.calls[i].num) == Id(e.role, e.calls[j].num) {
      IdInjective(e.role, e.calls[i].num, e.calls[j].num);
      assert false;
    }
  }

  lemma TableAfter(e: Endpoint, step: Step, c: Call)
    ensures SessionAfter(e, step, c).waiters ==
            if step.Register? then e.waiters[Id(e.role, c.num) := step.call]
            else if step.Clear? then e.waiters - {Id(e.role, c.num)}
            else e.waiters
  {
    hide Id;
  }

  predicate ListedAt(e: Endpoint, i: nat) {
    i < |e.calls| && Id(e.role, e.calls[i].num) in e.waiters && e.waiters[Id(e.role, e.calls[i].num)] == i
  }

  lemma ListedAfterCall(e: Endpoint, step: Step, i: nat)
    requires NumbersKept(e) && Listed(e) && !e.closed && OfCall(step)
    requires i < |CallStep(e, step).0.calls| && InTable(CallStep(e, step).0.calls[i].phase)
    ensures ListedAt(CallStep(e, step).0, i)
  {
    var k := step.call;
    if k < |e.calls| && CallReady(e, step, e.calls[k]) {
      var c := e.calls[k];
      assert NumberedWell(c, e.seqNo) && NumberedWell(e.calls[i], e.seqNo);
      CallMoves(e, step, c);
      SessionKeeps(e, step, c);
      TableAfter(e, step, c);
      hide Id, CallAfter, CallReady, SessionAfter, NumberedWell;
      if i != k && (step.Register? || step.Clear?) {
        assert c.num > 0;
        DifferentIds(e, k, i);
      }
      hide NumbersKept;
    }
  }

  lemma ListedAfterOther(e: Endpoint, step: Step, i: nat)
    requires !OfCall(step) && !OfTask(step) && Listed(e) && !e.closed && !OtherStep(e, step).0.closed
    requires i < |OtherStep(e, step).0.calls| && InTable(OtherStep(e, step).0.calls[i].phase)
    ensures ListedAt(OtherStep(e, step).0, i)
  {
    var e' := OtherStep(e, step).0;
    assert e'.waiters == e.waiters && e'.role == e.role by { hide ForHandlers, ForWaiters, Served, FailWaiters; }
    OthersAfter(e, step, i);
    hide OtherStep, Id;
  }

  lemma ListedNext(e: Endpoint, step: Step)
    requires Kept(e) && Listed(e)
    ensures Listed(Next(e, step).0)
  {
    hide NumbersKept, SlotsKept, WaitersKept, ResponsesKept, CallStep, TaskStep, OtherStep, Id, InTable;
    var e' := Next(e, step).0;
    ClosedStays(e, step);
    if OfTask(step) {
      TaskKeepsTable(e, step);
    } else if !e.crashed && !e'.closed {
      forall i: nat | i < |e'.calls| && InTable(e'.calls[i].phase) ensures ListedAt(e', i) {
        if OfCall(step) {
          ListedAfterCall(e, step, i);
        } else {
          ListedAfterOther(e, step, i);
        }
      }
    }
  }

  // ----- requests and responses stay in the log -----

  lemma CallHanded(e: Endpoint, step: Step, c: Call)
    requires OfCall(step) && CallReady(e, step, c)
    ensures CallAfter(e, step, c).phase.Waiting? ==> step.Push? && !e.writerClosed
    ensures CallAfter(e, step, c).sent ==> c.sent || (step.Push? && !e.writerClosed)
    ensures step.Push? && !e.writerClosed ==> CallAfter(e, step, c).sent
  {
  }

  lemma HandedNext(e: Endpoint, step: Step)
    requires forall c :: c in e.calls ==> Handed(c)
    ensures forall c :: c in Next(e, step).0.calls ==> Handed(c)
  {
    var e' := Next(e, step).0;
    forall c' | c' in e'.calls ensures Handed(c') {
      var i: nat :| i < |e'.calls| && e'.calls[i] == c';
      CallsAfter(e, step, i);
      if Steps(e, step, i) {
        CallHanded(e, step, e.calls[i]);
      }
      hide Next, CallAfter, CallReady;
      assert i < |e.calls| ==> Handed(e.calls[i]);
    }
  }

  /** A request in the log stays the request of its call. */
  lemma PostedStays(me: Side, me': Side, i: nat)
    requires Grown(me.end, me'.end) && NumbersKept(me.end) && me.log <= me'.log && Posted(me, i)
    ensures Posted(me', i)
  {
    hide Id;
    var p: nat :| p < |me.log| && IsRequest(me.end, me.log[p], i);
    assert NumberedWell(me.end.calls[i], me.end.seqNo);
    assert me'.log[p] == me.log[p] && IsRequest(me'.end, me'.log[p], i);
  }

  lemma RepliedStays(me: Side, me': Side, t: nat)
    requires Grown(me.end, me'.end) && me.log <= me'.log && Replied(me, t)
    ensures Replied(me', t)
  {
    var q: nat :| q < |me.log| && IsResponse(me.end, me.log[q], t);
    assert me'.log[q] == me.log[q] && IsResponse(me'.end, me'.log[q], t);
  }

  lemma TakenStays(e: Endpoint, e': Endpoint, p: nat)
    requires Grown(e, e') && Taken(e, p)
    ensures Taken(e', p)
  {
    var t: nat :| t < |e.tasks| && e.tasks[t].source == p;
    assert e'.tasks[t].source == p;
  }

  /** A push that succeeds writes the request of its call. */
  lemma PushPosts(e: Endpoint, step: Step)
    requires step.Push? && Steps(e, step, step.call) && !e.writerClosed
    ensures Next(e, step).1.Some? && IsRequest(Next(e, step).0, Next(e, step).1.value, step.call)
  {
    hide Id;
  }

  lemma PostedNext(me: Side, step: Step, i: nat)
    requires Kept(me.end) && !step.Receive?
    requires forall j: nat :: j < |me.end.calls| && me.end.calls[j].sent ==> Posted(me, j)
    requires i < |Act(me, step).end.calls| && Act(me, step).end.calls[i].sent
    ensures Posted(Act(me, step), i)
  {
    var me' := Act(me, step);
    assert me.log <= me'.log && NumbersKept(me.end);
    CallsAfter(me.end, step, i);
    EndpointGrows(me.end, step);
    if Steps(me.end, step, i) {
      CallHanded(me.end, step, me.end.calls[i]);
    }
    if Steps(me.end, step, i) && step.Push? && !me.end.writerClosed {
      PushPosts(me.end, step);
      hide Next, IsRequest;
      assert me'.log[|me.log|] == Next(me.end, step).1.value;
      assert IsRequest(me'.end, me'.log[|me.log|], i);
    } else {
      hide Act, CallAfter, CallReady;
      PostedStays(me, me', i);
    }
  }

  /** What can be at position t of the tasks after a step that receives nothing: the task
      as it was, or moved by its own step. */
  lemma TasksAfter(e: Endpoint, step: Step, t: nat)
    requires !step.Receive? && t < |Next(e, step).0.tasks|
    ensures t < |e.tasks|
    ensures var responds := && !e.crashed && !e.writerClosed
                            && step.Respond? && step.task == t && e.tasks[t].phase.Responding?;
            && (Next(e, step).0.tasks[t].phase.Responded? ==> e.tasks[t].phase.Responded? || responds)
            && (responds ==> Next(e, step).1.Some? && IsResponse(Next(e, step).0, Next(e, step).1.value, t))
  {
    OnlyReceiveStarts(e, step);
    if e.crashed {
    } else if OfCall(step) {
      if step.call < |e.calls| {
        SessionKeeps(e, step, e.calls[step.call]);
      }
      hide CallAfter, CallReady, SessionAfter;
    } else if !OfTask(step) {
      OthersKeepTasks(e, step);
      hide OtherStep;
    }
  }

  lemma RepliedNext(me: Side, step: Step, t: nat)
    requires Kept(me.end) && !step.Receive?
    requires forall s: nat :: s < |me.end.tasks| && me.end.tasks[s].phase.Responded? ==> Replied(me, s)
    requires t < |Act(me, step).end.tasks| && Act(me, step).end.tasks[t].phase.Responded?
    ensures Replied(Act(me, step), t)
  {
    var me' := Act(me, step);
    assert me.log <= me'.log && NumbersKept(me.end);
    TasksAfter(me.end, step, t);
    EndpointGrows(me.end, step);
    hide Next;
    if me.end.tasks[t].phase.Responded? {
      RepliedStays(me, me', t);
    } else {
      assert me'.log[|me.log|] == Next(me.end, step).1.value;
      assert IsResponse(me'.end, me'.log[|me.log|], t);
    }
  }

  // ----- what was read was dealt with -----

  /** Every request that is read starts a task. */
  lemma RequestTaken(e: Endpoint, p: nat, m: Message)
    requires !e.crashed && e.delivering.None? && Asks(e, m)
    ensures Taken(Next(e, Receive(p, m)).0, p)
  {
    OthersKeepTasks(e, Receive(p, m));
    var e' := Next(e, Receive(p, m)).0;
    assert e'.tasks == e.tasks + Served(e, p, m);
    assert Served(e, p, m)[0].source == p;
    hide Next, Served, ForHandlers;
    assert e'.tasks[|e.tasks|].source == p;
  }

  /** An answer that is read for a registered call is on its way to the call. */
  lemma AnswerNoticed(e: Endpoint, p: nat, m: Message, i: nat)
    requires !e.crashed && e.delivering.None? && Listed(e) && !e.closed
    requires IsAnswerTo(e, m, i) && InTable(e.calls[i].phase)
    ensures AtHand(Next(e, Receive(p, m)).0, i)
  {
    PrefixesDiffer(e.role, e.calls[i].num);
    assert m.id[0] in "ks";
    assert ForWaiters(e, m) && m.id in e.waiters && e.waiters[m.id] == i;
    hide Id, ForHandlers, Served, HasPrefix;
  }

  lemma ReceiveKeepsCalls(e: Endpoint, p: nat, m: Message)
    requires e.delivering.None?
    ensures var e' := Next(e, Receive(p, m)).0;
            && e'.calls == e.calls && e'.closed == e.closed && e'.role == e.role
            && |e.tasks| <= |e'.tasks|
            && (forall t :: |e.tasks| <= t < |e'.tasks| ==> !e'.tasks[t].phase.Responded?)
  {
    hide ForWaiters, ForHandlers;
  }

  lemma DeliverReaches(e: Endpoint, step: Step, i: nat)
    requires !step.Receive? && e.delivering.Some? && e.delivering.value.waiter == i && i < |e.calls|
    requires !Steps(e, step, i)
    ensures i < |Next(e, step).0.calls| && AtHand(Next(e, step).0, i)
  {
    var e' := Next(e, step).0;
    if step.Deliver? {
      assert e.delivering.value.waiter >= 0;
    } else {
      if OfCall(step) && step.call < |e.calls| {
        SessionKeeps(e, step, e.calls[step.call]);
      }
      hide CallAfter, CallReady, SessionAfter, TaskAfter, TaskReady;
      assert e'.delivering == e.delivering && |e'.calls| >= |e.calls|;
    }
  }

  /** A call that waits after a step, and was not just pushed, waited before. */
  lemma NoticedNext(me: Side, step: Step, peer: Side)
    requires Joined(me, peer) && Joined(peer, me) && Noticed(me, peer.log) && !step.Receive?
    ensures Noticed(Act(me, step), peer.log)
  {
    var e, me' := me.end, Act(me, step);
    var e' := me'.end;
    ClosedStays(e, step);
    RoleKept(e, step);
    if !e'.closed {
      forall i: nat, q: nat | AwaitsRead(me', peer.log, i, q) ensures AtHand(e', i) {
        CallsAfter(e, step, i);
        assert peer.log[q] in peer.log;
        if Steps(e, step, i) {
          NotAnsweredYet(me, peer, step, i, peer.log[q]);
        } else {
          hide Next, CallAfter, CallReady, Joined, Id;
          assert AwaitsRead(me, peer.log, i, q);
          if !e.calls[i].channel.Some? {
            DeliverReaches(e, step, i);
          }
        }
      }
    }
  }

  /** A call that its own step makes wait was not sent before, so it has no answer yet. */
  lemma NotAnsweredYet(me: Side, peer: Side, step: Step, i: nat, m: Message)
    requires Joined(me, peer) && Joined(peer, me) && Steps(me.end, step, i) && m in peer.log
    requires CallAfter(me.end, step, me.end.calls[i]).phase.Waiting?
    ensures m.name != "" || m.id != Id(me.end.role, CallAfter(me.end, step, me.end.calls[i]).num)
  {
    var c := me.end.calls[i];
    assert NumberedWell(c, me.end.seqNo);
    assert c.phase.Checked? && CallAfter(me.end, step, c).num == c.num;
    hide CallAfter, CallReady, Id;
    if m.name == "" && m.id == Id(me.end.role, c.num) {
      AnswerGoesBack(me, peer, m, i);
    }
  }

  // ----- every interleaving -----

  lemma PeerLossless(me: Side, me': Side, peer: Side)
    requires me.log <= me'.log && peer.read <= |me.log| && Lossless(peer, me)
    ensures Lossless(peer, me')
  {
    assert forall p :: 0 <= p < peer.read ==> me'.log[p] == me.log[p];
    assert Noticed(peer, me'.log) by {
      forall i, q | AwaitsRead(peer, me'.log, i, q) ensures AwaitsRead(peer, me.log, i, q) {
      }
      hide AwaitsRead;
    }
    hide Listed, Noticed, Posted, Replied, Taken, Handed;
  }

  lemma ActLossless(me: Side, step: Step, peer: Side)
    requires Joined(me, peer) && Joined(peer, me) && Lossless(me, peer) && Lossless(peer, me) && !step.Receive?
    ensures Lossless(Act(me, step), peer) && Lossless(peer, Act(me, step))
  {
    var me' := Act(me, step);
    assert me.log <= me'.log && me'.end == Next(me.end, step).0 && me'.read == me.read && peer.read <= |me.log|;
    ListedNext(me.end, step);
    HandedNext(me.end, step);
    NoticedNext(me, step, peer);
    EndpointGrows(me.end, step);
    ActStarted(me, step, peer.log);
    OnlyReceiveStarts(me.end, step);
    forall i: nat | i < |me'.end.calls| && me'.end.calls[i].sent ensures Posted(me', i) {
      PostedNext(me, step, i);
    }
    forall t: nat | t < |me'.end.tasks| && me'.end.tasks[t].phase.Responded? ensures Replied(me', t) {
      RepliedNext(me, step, t);
    }
    hide Next, Act;
    PeerLossless(me, me', peer);
    hide Joined, Listed, Noticed, Posted, Replied;
    forall p: nat | p < me'.read && p < |peer.log| && Asks(me'.end, peer.log[p]) ensures Taken(me'.end, p) {
      assert Asks(me.end, peer.log[p]);
      TakenStays(me.end, me'.end, p);
    }
  }

  lemma ReadLossless(me: Side, peer: Side)
    requires Joined(me, peer) && Joined(peer, me) && Lossless(me, peer) && Lossless(peer, me)
    ensures Lossless(Read(me, peer), peer) && Lossless(peer, Read(me, peer))
  {
    var me' := Read(me, peer);
    if me' != me {
      var m := peer.log[me.read];
      var step := Receive(me.read, m);
      assert me'.end == Next(me.end, step).0 && me'.log == me.log && me'.read == me.read + 1;
      assert NumbersKept(me.end) && peer.read <= |me.log|;
      PeerLossless(me, me', peer);
      ListedNext(me.end, step);
      ReceiveKeepsCalls(me.end, me.read, m);
      EndpointGrows(me.end, step);
      ReadNotices(me, peer);
      if Asks(me.end, m) {
        RequestTaken(me.end, me.read, m);
      }
      hide Next, Read, Joined, Listed, Noticed, NumbersKept;
      forall i: nat | i < |me'.end.calls| && me'.end.calls[i].sent ensures Posted(me', i) {
        PostedStays(me, me', i);
      }
      forall t: nat | t < |me'.end.tasks| && me'.end.tasks[t].phase.Responded? ensures Replied(me', t) {
        RepliedStays(me, me', t);
      }
      forall p: nat | p < me'.read && p < |peer.log| && Asks(me'.end, peer.log[p]) ensures Taken(me'.end, p) {
        assert Asks(me.end, peer.log[p]);
        if p < me.read {
          TakenStays(me.end, me'.end, p);
        }
      }
    }
  }

  lemma ReadNotices(me: Side, peer: Side)
    requires Lossless(me, peer) && Read(me, peer) != me
    ensures Noticed(Read(me, peer), peer.log)
  {
    var me', m := Read(me, peer), peer.log[me.read];
    ReceiveKeepsCalls(me.end, me.read, m);
    if !me'.end.closed {
      forall i: nat, q: nat | AwaitsRead(me', peer.log, i, q) ensures AtHand(me'.end, i) {
        if q < me.read {
          hide Next, Id;
          assert AwaitsRead(me, peer.log, i, q);
        } else {
          AnswerNoticed(me.end, me.read, m, i);
        }
      }
    }
  }

  ghost predicate Sane(sys: System) {
    AllKept(sys) && Lossless(sys.kernel, sys.sidecar) && Lossless(sys.sidecar, sys.kernel)
  }

  lemma SaneNext(sys: System, action: Action)
    requires Sane(sys)
    ensures Sane(SystemNext(sys, action))
  {
    AllKeptNext(sys, action);
    var me, peer := Of(sys, action.role), Of(sys, Peer(action.role));
    match action {
      case Local(role, step) =>
        if !step.Receive? {
          ActLossless(me, step, peer);
        }
      case Fetch(role) => ReadLossless(me, peer);
    }
    hide Joined, Lossless, Read, Next;
  }

  lemma {:induction false} AlwaysSane(actions: seq<Action>)
    ensures Sane(SystemRun(actions))
  {
    SystemKept(actions);
    hide AllKept, SystemNext;
    if actions != [] {
      AlwaysSane(actions[..|actions| - 1]);
      SaneNext(SystemRun(actions[..|actions| - 1]), actions[|actions| - 1]);
    }
  }

  // ----- where a waiting call is -----

  /** Task t of the peer serves call i: same id, same method, same params. */
  predicate Serves(e: Endpoint, i: nat, peer: Endpoint, t: nat) {
    && i < |e.calls| && t < |peer.tasks| && peer.tasks[t].id == Id(e.role, e.calls[i].num)
    && peer.tasks[t].name == e.calls[i].name && peer.tasks[t].params == e.calls[i].params
  }

  ghost predicate RequestUnread(me: Side, peer: Side, i: nat) {
    exists p: nat :: peer.read <= p < |me.log| && IsRequest(me.end, me.log[p], i)
  }

  ghost predicate ResponseUnread(me: Side, peer: Side, t: nat) {
    exists q: nat :: me.read <= q < |peer.log| && IsResponse(peer.end, peer.log[q], t)
  }

  /** The task is at work, or gave up because the writer closed or the write failed, or its
      response is on the pipe, on its way from the table, or in the call's channel. */
  ghost predicate BeingServed(me: Side, peer: Side, i: nat, t: nat) {
    && Serves(me.end, i, peer.end, t)
    && (peer.end.tasks[t].phase.Responded? ==>
          var outcome := peer.end.tasks[t].phase.outcome;
          || ResponseUnread(me, peer, t)
          || me.end.delivering == Some(Delivery(i, outcome))
          || me.end.calls[i].channel == Some(outcome))
  }

  /** What a call has from its peer is what the task that serves it answered. */
  lemma GenuineIsAnswer(me: Side, peer: Side, i: nat, t: nat, found: Outcome)
    requires Joined(peer, me) && Unrepeated(me.log) && Serves(me.end, i, peer.end, t)
             && peer.end.tasks[t].phase.Responded?
    requires Genuine(me.end.calls[i], me.end.role, peer.end, found)
    ensures peer.end.tasks[t].phase == Responded(found)
  {
    var s: nat :| Answers(peer.end, s, me.end.role, me.end.calls[i], found);
    assert peer.end.tasks[t].id[0] in "ks";
    hide Id;
    OneTaskPerId(peer, me, s, t);
  }

  lemma AtHandIsAnswer(me: Side, peer: Side, i: nat, t: nat)
    requires Joined(me, peer) && Joined(peer, me) && !me.end.closed && AtHand(me.end, i)
    requires Serves(me.end, i, peer.end, t) && peer.end.tasks[t].phase.Responded?
    ensures var outcome := peer.end.tasks[t].phase.outcome;
            && (me.end.calls[i].channel.Some? ==> me.end.calls[i].channel == Some(outcome))
            && (me.end.calls[i].channel.None? ==> me.end.delivering == Some(Delivery(i, outcome)))
  {
    var c := me.end.calls[i];
    var found := if c.channel.Some? then c.channel.value else me.end.delivering.value.outcome;
    assert c.channel.Some? ==> Has(c, found) && ByPeer(me.end, found);
    GenuineIsAnswer(me, peer, i, t, found);
  }

  /** In a sane state every waiting call of an open endpoint has its request unread, or is
      being served by one task. */
  lemma WaitingIsFound(me: Side, peer: Side, i: nat)
    requires Joined(me, peer) && Joined(peer, me) && Lossless(me, peer) && Lossless(peer, me)
    requires !me.end.closed && i < |me.end.calls| && me.end.calls[i].phase.Waiting? && me.end.calls[i].name != ""
    ensures RequestUnread(me, peer, i) || exists t: nat :: BeingServed(me, peer, i, t)
  {
    var c := me.end.calls[i];
    assert c in me.end.calls && Handed(c) && Posted(me, i);
    var p: nat :| p < |me.log| && IsRequest(me.end, me.log[p], i);
    if p < peer.read {
      PrefixesDiffer(me.end.role, c.num);
      assert me.log[p].id[0] in "ks";
      assert Asks(peer.end, me.log[p]);
      var t: nat :| t < |peer.end.tasks| && peer.end.tasks[t].source == p;
      assert peer.end.tasks[t] in peer.end.tasks && StartedBy(peer.end.tasks[t], peer.end.role, me.log, peer.read);
      assert Serves(me.end, i, peer.end, t);
      if peer.end.tasks[t].phase.Responded? {
        assert Replied(peer, t);
        var q: nat :| q < |peer.log| && IsResponse(peer.end, peer.log[q], t);
        if q < me.read {
          assert AwaitsRead(me, peer.log, i, q);
          AtHandIsAnswer(me, peer, i, t);
        }
      }
      assert BeingServed(me, peer, i, t);
    }
  }

  /** In every interleaving, a Call of an endpoint that is not closed and that waits for its
      answer is never lost: its request is still unread on the pipe, or exactly one task of
      the peer serves it, and if that task has responded, its response is unread on the pipe,
      in delivery, or in the Call's channel. */
  lemma NoCallIsLost(actions: seq<Action>, role: Role, i: nat)
    requires var e := Of(SystemRun(actions), role).end;
             !e.closed && i < |e.calls| && e.calls[i].phase.Waiting? && e.calls[i].name != ""
    ensures var me, peer := Of(SystemRun(actions), role), Of(SystemRun(actions), Peer(role));
            || RequestUnread(me, peer, i)
            || exists t: nat ::
                 BeingServed(me, peer, i, t) && forall s: nat :: Serves(me.end, i, peer.end, s) ==> s == t
  {
    AlwaysSane(actions);
    var me, peer := Of(SystemRun(actions), role), Of(SystemRun(actions), Peer(role));
    hide SystemRun;
    WaitingIsFound(me, peer, i);
    if !RequestUnread(me, peer, i) {
      var t: nat :| BeingServed(me, peer, i, t);
      assert peer.end.tasks[t].id[0] in "ks";
      hide Id, Lossless;
      forall s: nat | Serves(me.end, i, peer.end, s) ensures s == t {
        OneTaskPerId(peer, me, s, t);
      }
    }
  }
}
