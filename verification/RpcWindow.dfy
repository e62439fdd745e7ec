/** What an endpoint keeps in every interleaving of calls, cancellations, responses and
    Close, against a peer that may send anything. */
module RpcWindow {
  import opened Options
  import opened Decimal
  import opened Rpc

  lemma IdInjective(role: Role, m: nat, n: nat)
    requires Id(role, m) == Id(role, n)
    ensures m == n
  {
    assert Id(role, m)[2..] == Digits(m) && Id(role, n)[2..] == Digits(n);
    DigitsInjective(m, n);
  }

  // ----- one call -----

  /** What a call may look like after a step of its own: its request stays as it is, and
      its number changes only when it is given the next one. */
  predicate Moved(e: Endpoint, step: Step, c: Call, c': Call) {
    && c'.name == c.name && c'.params == c.params
    && (if step.Number? then c.num == 0 && c'.num == e.seqNo + 1 else c'.num == c.num)
    && Holds(c) && (Holds(c') <==> !step.Release?)
    && (InTable(c'.phase) <==> step.Register? || (InTable(c.phase) && !step.Clear?))
  }

  lemma CallMoves(e: Endpoint, step: Step, c: Call)
    requires OfCall(step) && CallReady(e, step, c) && NumberedWell(c, e.seqNo)
    ensures Moved(e, step, c, CallAfter(e, step, c))
    ensures NumberedWell(CallAfter(e, step, c), SessionAfter(e, step, c).seqNo)
  {
    hide Id;
  }

  lemma SessionKeeps(e: Endpoint, step: Step, c: Call)
    ensures var e' := SessionAfter(e, step, c);
            && e'.role == e.role && e'.calls == e.calls && e'.tasks == e.tasks && e'.delivering == e.delivering
            && e'.dispatched == e.dispatched && e'.placed == e.placed && e'.stale == e.stale
            && e'.closed == e.closed && e'.writerClosed == e.writerClosed && e'.handlers == e.handlers
  {
    hide Id;
    if step.Release? {
    } else if step.Number? {
    } else if step.Register? {
    }
  }

  /** Deliver and Close touch the calls' channels only. */
  predicate SameButChannels(calls: seq<Call>, calls': seq<Call>) {
    |calls'| == |calls| && forall i :: 0 <= i < |calls| ==> calls'[i] == calls[i].(channel := calls'[i].channel)
  }

  predicate CallsKept(e: Endpoint, e': Endpoint) {
    && SameButChannels(e.calls, e'.calls) && e'.role == e.role && e'.seqNo == e.seqNo
    && e'.slots == e.slots && e'.underflows == e.underflows
    && (e'.waiters == e.waiters || e'.waiters == map[])
  }

  lemma OthersKeepCalls(e: Endpoint, step: Step)
    requires !OfCall(step) && !OfTask(step) && !step.Acquire?
    ensures CallsKept(e, OtherStep(e, step).0)
  {
    hide Served, ForHandlers, ForWaiters;
    var e' := OtherStep(e, step).0;
    if step.Deliver? {
      assert e.delivering.Some? ==> e.delivering.value.waiter >= 0;
      forall i | 0 <= i < |e.calls| ensures e'.calls[i] == e.calls[i].(channel := e'.calls[i].channel) {
      }
    } else if step.CloseSession? {
      assert |e'.calls| == |e.calls|;
      forall i | 0 <= i < |e.calls| ensures e'.calls[i] == e.calls[i].(channel := e'.calls[i].channel) {
      }
    } else {
      assert e'.calls == e.calls;
    }
  }

  // ----- slots -----

  lemma SameHolders(calls: seq<Call>, calls': seq<Call>)
    requires |calls'| == |calls| && forall i :: 0 <= i < |calls| ==> Holds(calls'[i]) == Holds(calls[i])
    ensures Holders(calls') == Holders(calls)
  {
  }

  lemma OneHolderLess(calls: seq<Call>, i: nat, c: Call)
    requires i < |calls| && Holds(calls[i]) && !Holds(c)
    ensures |Holders(calls[i := c])| == |Holders(calls)| - 1
  {
    var before, after := Holders(calls), Holders(calls[i := c]);
    assert after == before - {i} && i in before;
    hide Holders;
  }

  lemma OneHolderMore(calls: seq<Call>, c: Call)
    requires Holds(c)
    ensures |Holders(calls + [c])| == |Holders(calls)| + 1
  {
    var before, after := Holders(calls), Holders(calls + [c]);
    forall i: nat ensures i in after <==> i in before || i == |calls| {
      assert i < |calls| ==> (calls + [c])[i] == calls[i];
      assert i == |calls| ==> (calls + [c])[i] == c;
    }
    assert |calls| !in before;
    hide Holders;
    assert after == before + {|calls|};
  }

  lemma SlotsNext(e: Endpoint, step: Step)
    requires SlotsKept(e) && NumbersKept(e)
    ensures SlotsKept(Next(e, step).0)
  {
    hide Holders, Id, Dispatch, HasPrefix;
    if e.crashed || OfTask(step) {
    } else if OfCall(step) {
      if step.call < |e.calls| && CallReady(e, step, e.calls[step.call]) {
        SlotsAfterCall(e, step);
      }
    } else if step.Acquire? {
      var c := Call(step.name, step.params, 0, Acquired, None, false);
      OneHolderMore(e.calls, c);
    } else {
      OthersKeepCalls(e, step);
      hide OtherStep;
      SameHolders(e.calls, OtherStep(e, step).0.calls);
    }
  }

  lemma SlotsAfterCall(e: Endpoint, step: Step)
    requires SlotsKept(e) && NumbersKept(e) && OfCall(step)
    requires step.call < |e.calls| && CallReady(e, step, e.calls[step.call])
    ensures SlotsKept(CallStep(e, step).0)
  {
    var i := step.call;
    var c := e.calls[i];
    var c' := CallAfter(e, step, c);
    var e' := CallStep(e, step).0;
    assert e'.calls == e.calls[i := c'] && e'.role == e.role by { hide Id, CallAfter, CallReady; }
    assert !step.Release? ==> e'.slots == e.slots && e'.underflows == e.underflows by { hide Id, CallAfter, CallReady; }
    assert step.Release? && e.slots > 0 ==> e'.slots == e.slots - 1 && e'.underflows == e.underflows
      by { hide Id, CallAfter, CallReady; }
    hide SessionAfter, CallStep;
    assert NumberedWell(c, e.seqNo);
    CallMoves(e, step, c);
    hide Holders, Holds, CallAfter, CallReady, NumberedWell;
    if step.Release? {
      OneHolderLess(e.calls, i, c');
    } else {
      SameHolders(e.calls, e'.calls);
    }
  }

  // ----- ids -----

  lemma DistinctAfter(calls: seq<Call>, i: nat, c: Call)
    requires Distinct(calls) && i < |calls|
    requires c.num == calls[i].num || forall other :: other in calls ==> other.num < c.num
    ensures Distinct(calls[i := c])
  {
  }

  lemma NumbersNext(e: Endpoint, step: Step)
    requires NumbersKept(e)
    ensures NumbersKept(Next(e, step).0)
  {
    var e' := Next(e, step).0;
    if e.crashed || OfTask(step) {
    } else if OfCall(step) {
      if step.call < |e.calls| && CallReady(e, step, e.calls[step.call]) {
        NumbersAfterCall(e, step);
      }
      hide CallReady, SessionAfter, CallAfter;
    } else if step.Acquire? {
      assert forall c :: c in e'.calls ==> c in e.calls || c.num == 0;
      hide Next;
    } else {
      OthersKeepCalls(e, step);
      hide OtherStep;
      forall c | c in e'.calls ensures NumberedWell(c, e'.seqNo) {
        var i :| 0 <= i < |e'.calls| && e'.calls[i] == c;
        assert NumberedWell(e.calls[i], e.seqNo);
      }
    }
  }

  lemma NumbersAfterCall(e: Endpoint, step: Step)
    requires NumbersKept(e) && OfCall(step)
    requires step.call < |e.calls| && CallReady(e, step, e.calls[step.call])
    ensures NumbersKept(CallStep(e, step).0)
  {
    var i := step.call;
    var c := e.calls[i];
    var c' := CallAfter(e, step, c);
    var e' := CallStep(e, step).0;
    assert e'.calls == e.calls[i := c'] && e'.seqNo >= e.seqNo && e'.seqNo == SessionAfter(e, step, c).seqNo
      by { hide Id, CallAfter, CallReady; }
    hide SessionAfter, CallStep;
    assert NumberedWell(c, e.seqNo);
    CallMoves(e, step, c);
    hide CallAfter, CallReady;
    assert forall other :: other in e.calls ==> other.num <= e.seqNo;
    DistinctAfter(e.calls, i, c');
    forall other | other in e'.calls ensures NumberedWell(other, e'.seqNo) {
      assert other == c' || other in e.calls;
    }
  }

  // ----- waiters -----

  lemma WaitersNext(e: Endpoint, step: Step)
    requires WaitersKept(e) && NumbersKept(e)
    ensures WaitersKept(Next(e, step).0)
  {
    hide Id, NumberedWell, CallReady, CallAfter, SessionAfter;
    if e.crashed || OfTask(step) {
    } else if OfCall(step) {
      if step.call < |e.calls| && CallReady(e, step, e.calls[step.call]) {
        WaitersAfterCall(e, step);
      }
    } else if step.Acquire? {
    } else {
      OthersKeepCalls(e, step);
      hide OtherStep;
    }
  }

  /** A call enters the table when it registers, leaves it when it clears, and otherwise stays
      where it is with its number. */
  lemma WaitersMove(e: Endpoint, step: Step, c: Call)
    requires OfCall(step) && CallReady(e, step, c) && NumberedWell(c, e.seqNo)
    ensures SessionAfter(e, step, c).role == e.role
    ensures var waiters, c' := SessionAfter(e, step, c).waiters, CallAfter(e, step, c);
            if step.Register? then
              waiters == e.waiters[Id(e.role, c.num) := step.call] && InTable(c'.phase) && c'.num == c.num > 0
            else if step.Clear? then waiters == e.waiters - {Id(e.role, c.num)} && c'.num == c.num
            else waiters == e.waiters && (InTable(c.phase) ==> InTable(c'.phase) && c'.num == c.num)
  {
    hide Id;
  }

  lemma WaitersAfterCall(e: Endpoint, step: Step)
    requires WaitersKept(e) && NumbersKept(e) && OfCall(step)
    requires step.call < |e.calls| && CallReady(e, step, e.calls[step.call])
    ensures WaitersKept(CallStep(e, step).0)
  {
    hide Id, CallAfter, CallReady, SessionAfter;
    var i := step.call;
    var c := e.calls[i];
    var c' := CallAfter(e, step, c);
    var e' := CallStep(e, step).0;
    assert NumberedWell(c, e.seqNo);
    WaitersMove(e, step, c);
    hide CallStep, NumberedWell;
    forall id | id in e'.waiters ensures Awaits(e'.role, e'.calls, id, e'.waiters[id]) {
      if id in e.waiters {
        assert Awaits(e.role, e.calls, id, e.waiters[id]);
      }
    }
  }

  // ----- responses -----

  lemma ResponsesNext(e: Endpoint, step: Step)
    requires ResponsesKept(e)
    ensures ResponsesKept(Next(e, step).0)
  {
    if OfCall(step) {
      if step.call < |e.calls| {
        SessionKeeps(e, step, e.calls[step.call]);
      }
      hide CallAfter, CallReady, SessionAfter;
    } else if OfTask(step) {
      hide TaskReady, TaskAfter;
    } else {
      hide Served, ForHandlers, ForWaiters, FailWaiters;
    }
  }

  // ----- every run -----

  lemma KeptAtFirst(role: Role)
    ensures Kept(NewEndpoint(role))
  {
    assert Holders([]) == {};
  }

  lemma KeptNext(e: Endpoint, step: Step)
    requires Kept(e)
    ensures Kept(Next(e, step).0) && Next(e, step).0.role == e.role
  {
    SlotsNext(e, step);
    WaitersNext(e, step);
    NumbersNext(e, step);
    ResponsesNext(e, step);
    RoleKept(e, step);
    hide Next, SlotsKept, WaitersKept, NumbersKept, ResponsesKept;
  }

  lemma RoleKept(e: Endpoint, step: Step)
    ensures Next(e, step).0.role == e.role
  {
    if OfCall(step) {
      if step.call < |e.calls| {
        SessionKeeps(e, step, e.calls[step.call]);
      }
      hide CallAfter, CallReady, SessionAfter;
    } else if OfTask(step) {
      hide TaskReady, TaskAfter;
    } else {
      hide Served, ForHandlers, ForWaiters, FailWaiters;
    }
  }

  lemma {:induction false} AlwaysKept(role: Role, steps: seq<Step>)
    ensures Kept(Run(role, steps)) && Run(role, steps).role == role
  {
    hide Next, Kept;
    if steps == [] {
      KeptAtFirst(role);
    } else {
      AlwaysKept(role, steps[..|steps| - 1]);
      KeptNext(Run(role, steps[..|steps| - 1]), steps[|steps| - 1]);
    }
  }

  /** Registered waiters never outnumber the calls that hold a slot. */
  lemma {:induction false} WaitersFit(role: Role, calls: seq<Call>, waiters: map<string, nat>, holders: set<nat>)
    requires forall id :: id in waiters ==> Awaits(role, calls, id, waiters[id]) && waiters[id] in holders
    ensures |waiters| <= |holders|
    decreases |holders|
  {
    hide Id;
    if waiters != map[] {
      var id :| id in waiters;
      var i := waiters[id];
      var rest := waiters - {id};
      assert |rest| == |waiters| - 1;
      forall other | other in rest ensures Awaits(role, calls, other, rest[other]) && rest[other] in holders - {i} {
        assert other in waiters && other != id;
      }
      WaitersFit(role, calls, rest, holders - {i});
    }
  }

  /** In every interleaving of calls, cancellations, arbitrary inbound messages and Close:
      registered waiters <= slots held <= window (32 or 64); the empty branch of releaseSlot
      is never taken; responses with the endpoint's own prefix are each placed in a waiter's
      channel or counted stale, except for the one between lookup and channel; and no two
      calls ever have the same id. */
  lemma WindowKept(role: Role, steps: seq<Step>)
    ensures var e := Run(role, steps);
            && |e.waiters| <= e.slots <= (if role == Kernel then 32 else 64)
            && e.underflows == 0
            && e.dispatched == e.placed + e.stale + (if e.delivering.Some? then 1 else 0)
            && forall i, j :: 0 <= i < j < |e.calls| && e.calls[i].num > 0 && e.calls[j].num > 0 ==>
                 Id(role, e.calls[i].num) != Id(role, e.calls[j].num)
    ensures forall id :: id in Run(role, steps).waiters ==>
              |id| > 2 && id[..2] == if role == Kernel then "k:" else "s:"
  {
    AlwaysKept(role, steps);
    var e := Run(role, steps);
    hide Next, Run;
    WaitersFit(role, e.calls, e.waiters, Holders(e.calls));
    forall i, j | 0 <= i < j < |e.calls| && e.calls[i].num > 0 && e.calls[j].num > 0
      ensures Id(role, e.calls[i].num) != Id(role, e.calls[j].num)
    {
      if Id(role, e.calls[i].num) == Id(role, e.calls[j].num) {
        IdInjective(role, e.calls[i].num, e.calls[j].num);
      }
    }
    forall id | id in e.waiters ensures |id| > 2 && id[..2] == if role == Kernel then "k:" else "s:" {
      assert Awaits(e.role, e.calls, id, e.waiters[id]);
    }
  }
}
