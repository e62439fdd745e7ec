/** One endpoint of the bidirectional JSON-RPC session (protocol/rpc.go), its goroutines
    cut into atomic steps. */
module Rpc {
  import opened Options
  import opened Decimal

  datatype Role = Kernel | Sidecar

  function Peer(role: Role): Role {
    if role == Kernel then Sidecar else Kernel
  }

  function Prefix(role: Role): string {
    if role == Kernel then "k:" else "s:"
  }

  function Window(role: Role): nat {
    if role == Kernel then 32 else 64
  }

  /** nextID: the n-th id of a role. */
  function Id(role: Role, n: nat): string {
    Prefix(role) + Digits(n)
  }

  predicate HasPrefix(id: string, prefix: string) {
    prefix <= id
  }

  /** What a response carries, or what Close puts in a waiter's channel. */
  datatype Outcome = Result(value: string) | Error(code: string) | ClosedPending

  /** RPCMessage: a request has an id and a method, a notification only a method, a
      response only an id. */
  datatype Message = Message(id: string, name: string, params: string, outcome: Option<Outcome>)

  datatype Return = Returned(outcome: Outcome) | SendFailed | Canceled | ShutDown

  /** How far a Call has come. */
  datatype Phase =
    | Acquired                // holds a slot
    | Numbered                // has its id
    | Registered              // its waiter was put in the table
    | Checked                 // WriteFrame found the writer open
    | Waiting                 // the request is with the writer goroutine
    | Finishing(ret: Return)  // about to clear its waiter
    | Cleared(ret: Return)    // about to release its slot
    | Done(ret: Return)

  /** A Call: `num` is the number of its id, 0 before it has one; `channel` is its waiter
      channel, of capacity 1; `sent` says whether its request was handed to the writer. */
  datatype Call = Call(name: string, params: string, num: nat, phase: Phase, channel: Option<Outcome>, sent: bool)

  datatype TaskPhase =
    | Running
    | Produced(outcome: Outcome)
    | Responding(outcome: Outcome)
    | Responded(outcome: Outcome)
    | Over

  /** A handler goroutine, started by the message at position `source` of the peer's log; a
      request without handler is a task, not `handled`, that has already produced its error. */
  datatype Task = Task(source: nat, id: string, name: string, params: string, handled: bool, phase: TaskPhase)

  /** A response between the waiter table and the waiter's channel. */
  datatype Delivery = Delivery(waiter: nat, outcome: Outcome)

  datatype Endpoint = Endpoint(
    role: Role, seqNo: nat, calls: seq<Call>, waiters: map<string, nat>, slots: nat, underflows: nat,
    closed: bool, doneClosed: bool, writerClosed: bool, crashed: bool,
    delivering: Option<Delivery>, dispatched: nat, placed: nat, stale: nat,
    handlers: set<string>, tasks: seq<Task>)

  function NewEndpoint(role: Role): Endpoint {
    Endpoint(role, 0, [], map[], 0, 0, false, false, false, false, None, 0, 0, 0, {"$/cancelRequest"}, [])
  }

  datatype Step =
    | Acquire(name: string, params: string)
    | Number(call: nat)
    | Register(call: nat)
    | CheckOpen(call: nat)
    | FailSend(call: nat)
    | Push(call: nat)
    | Take(call: nat)
    | Cancel(call: nat)
    | SeeDone(call: nat)
    | Clear(call: nat)
    | Release(call: nat)
    | Notify(name: string, params: string, passedCheck: bool)
    | Receive(source: nat, msg: Message)
    | Deliver
    | HandlerReturns(task: nat, produced: Outcome)
    | CheckRespond(task: nat)
    | DropResponse(task: nat)
    | Respond(task: nat)
    | Handle(name: string)
    | CloseSession
    | CloseDone
    | CloseWriter

  // ----- the steps of a Call -----

  predicate OfCall(step: Step) {
    || step.Number? || step.Register? || step.CheckOpen? || step.FailSend? || step.Push?
    || step.Take? || step.Cancel? || step.SeeDone? || step.Clear? || step.Release?
  }

  /** Whether the goroutine of call `c` can take the step. */
  predicate CallReady(e: Endpoint, step: Step, c: Call) {
    match step
    case Number(_) => c.phase.Acquired?
    case Register(_) => c.phase.Numbered?
    case CheckOpen(_) => c.phase.Registered?
    // marshalling failed, or the context ended before or after the hand-over to the writer
    case FailSend(_) => c.phase.Registered? || c.phase.Checked? || c.phase.Waiting?
    case Push(_) => c.phase.Checked?
    case Take(_) => c.phase.Waiting? && c.channel.Some?
    case Cancel(_) => c.phase.Waiting?
    case SeeDone(_) => c.phase.Waiting? && e.doneClosed
    case Clear(_) => c.phase.Finishing?
    case Release(_) => c.phase.Cleared?
    case _ => false
  }

  function CallAfter(e: Endpoint, step: Step, c: Call): Call
    requires CallReady(e, step, c)
  {
    match step
    case Number(_) => c.(num := e.seqNo + 1, phase := Numbered)
    case Register(_) => c.(phase := Registered)
    case CheckOpen(_) => c.(phase := if e.writerClosed then Finishing(SendFailed) else Checked)
    case FailSend(_) => c.(phase := Finishing(SendFailed))
    case Push(_) => if e.writerClosed then c else c.(phase := Waiting, sent := true)
    case Take(_) => c.(phase := Finishing(Returned(c.channel.value)), channel := None)
    case Cancel(_) => c.(phase := Finishing(Canceled))
    case SeeDone(_) => c.(phase := Finishing(ShutDown))
    case Clear(_) => c.(phase := Cleared(c.phase.ret))
    case Release(_) => c.(phase := Done(c.phase.ret))
    case _ => c
  }

  /** What the step changes in the session besides the call itself. */
  function SessionAfter(e: Endpoint, step: Step, c: Call): Endpoint {
    match step
    case Number(_) => e.(seqNo := e.seqNo + 1)
    case Register(i) => e.(waiters := e.waiters[Id(e.role, c.num) := i])
    // a send on the writer's closed channel panics
    case Push(_) => e.(crashed := e.writerClosed)
    case Clear(_) => e.(waiters := e.waiters - {Id(e.role, c.num)})
    case Release(_) => if e.slots > 0 then e.(slots := e.slots - 1) else e.(underflows := e.underflows + 1)
    case _ => e
  }

  function CallStep(e: Endpoint, step: Step): (Endpoint, Option<Message>)
    requires OfCall(step)
  {
    var i := step.call;
    if i < |e.calls| && CallReady(e, step, e.calls[i]) then
      var c := e.calls[i];
      (SessionAfter(e, step, c).(calls := e.calls[i := CallAfter(e, step, c)]),
       if step.Push? && !e.writerClosed then Some(Message(Id(e.role, c.num), c.name, c.params, None)) else None)
    else (e, None)
  }

  /** acquireSlot; a failed acquire leaves no trace. */
  function Begin(e: Endpoint, name: string, params: string): Endpoint {
    if e.slots < Window(e.role) then
      e.(slots := e.slots + 1, calls := e.calls + [Call(name, params, 0, Acquired, None, false)])
    else e
  }

  // ----- dispatch and handlers -----

  /** dispatchRequest: the goroutine it starts, if any; for a method without handler, one
      that only writes the error response. */
  function Served(e: Endpoint, source: nat, msg: Message): seq<Task> {
    if msg.name in e.handlers then [Task(source, msg.id, msg.name, msg.params, true, Running)]
    else if msg.id == "" then []
    else [Task(source, msg.id, msg.name, msg.params, false, Produced(Error("method_not_found")))]
  }

  /** A request with the peer's prefix, or a notification. */
  predicate ForHandlers(e: Endpoint, msg: Message) {
    msg.name != "" && (msg.id == "" || HasPrefix(msg.id, Prefix(Peer(e.role))))
  }

  /** A response with the endpoint's own prefix. */
  predicate ForWaiters(e: Endpoint, msg: Message) {
    msg.name == "" && msg.id != "" && HasPrefix(msg.id, Prefix(e.role))
  }

  function OutcomeOf(msg: Message): Outcome {
    if msg.outcome.Some? then msg.outcome.value else Result("")
  }

  /** dispatch: routing by shape and id prefix; everything else is dropped. */
  function Dispatch(e: Endpoint, source: nat, msg: Message): Endpoint {
    var mine := ForWaiters(e, msg);
    var known := mine && msg.id in e.waiters;
    e.(tasks := if ForHandlers(e, msg) then e.tasks + Served(e, source, msg) else e.tasks,
       dispatched := if mine then e.dispatched + 1 else e.dispatched,
       stale := if mine && !known then e.stale + 1 else e.stale,
       delivering := if known then Some(Delivery(e.waiters[msg.id], OutcomeOf(msg)))
                     else e.delivering)
  }

  /** The send on the waiter's channel, after the table's lock was released. */
  function DeliverNow(e: Endpoint): Endpoint
    requires e.delivering.Some?
  {
    var Delivery(i, outcome) := e.delivering.value;
    var empty := i < |e.calls| && e.calls[i].channel.None?;
    e.(delivering := None,
       placed := if empty then e.placed + 1 else e.placed,
       stale := if empty then e.stale else e.stale + 1,
       calls := if empty then e.calls[i := e.calls[i].(channel := Some(outcome))] else e.calls)
  }

  predicate OfTask(step: Step) {
    step.HandlerReturns? || step.CheckRespond? || step.DropResponse? || step.Respond?
  }

  predicate TaskReady(step: Step, task: Task) {
    match step
    case HandlerReturns(_, outcome) => task.phase.Running? && !outcome.ClosedPending?
    case CheckRespond(_) => task.phase.Produced?
    case DropResponse(_) => task.phase.Produced? || task.phase.Responding?
    case Respond(_) => task.phase.Responding?
    case _ => false
  }

  function TaskAfter(e: Endpoint, step: Step, task: Task): Task
    requires TaskReady(step, task)
  {
    match step
    case HandlerReturns(_, outcome) => task.(phase := if task.id == "" then Over else Produced(outcome))
    case CheckRespond(_) => task.(phase := if e.writerClosed then Over else Responding(task.phase.outcome))
    case DropResponse(_) => task.(phase := Over)
    case Respond(_) => if e.writerClosed then task else task.(phase := Responded(task.phase.outcome))
    case _ => task
  }

  /** A handler goroutine. */
  function TaskStep(e: Endpoint, step: Step): (Endpoint, Option<Message>)
    requires OfTask(step)
  {
    var t := step.task;
    if t < |e.tasks| && TaskReady(step, e.tasks[t]) then
      var task := e.tasks[t];
      (e.(crashed := step.Respond? && e.writerClosed, tasks := e.tasks[t := TaskAfter(e, step, task)]),
       if step.Respond? && !e.writerClosed then Some(Message(task.id, "", "", Some(task.phase.outcome))) else None)
    else (e, None)
  }

  // ----- Close, and all steps together -----

  function FailWaiters(calls: seq<Call>, waiters: map<string, nat>): seq<Call> {
    seq(|calls|, i requires 0 <= i < |calls| =>
      if calls[i].channel.None? && i in waiters.Values then calls[i].(channel := Some(ClosedPending)) else calls[i])
  }

  function CloseNow(e: Endpoint): Endpoint {
    if e.closed then e
    else e.(closed := true, calls := FailWaiters(e.calls, e.waiters), waiters := map[])
  }

  /** The steps that are neither a call's nor a handler's. */
  function OtherStep(e: Endpoint, step: Step): (Endpoint, Option<Message>)
    requires !OfCall(step) && !OfTask(step)
  {
    match step
    case Acquire(name, params) => (Begin(e, name, params), None)
    case Notify(name, params, passedCheck) =>
      // passedCheck: the closed check of WriteFrame was made before the writer closed
      if e.writerClosed then (e.(crashed := passedCheck), None) else (e, Some(Message("", name, params, None)))
    case Receive(source, msg) => (if e.delivering.None? then Dispatch(e, source, msg) else e, None)
    case Deliver => (if e.delivering.Some? then DeliverNow(e) else e, None)
    case Handle(name) => (e.(handlers := e.handlers + {name}), None)
    case CloseSession => (CloseNow(e), None)
    case CloseDone => (e.(doneClosed := e.doneClosed || e.closed), None)
    case CloseWriter => (e.(writerClosed := e.writerClosed || e.doneClosed), None)
  }

  /** One atomic step of an endpoint; a crashed one takes no more, and a step that is not
      enabled changes nothing. */
  function Next(e: Endpoint, step: Step): (Endpoint, Option<Message>) {
    if e.crashed then (e, None)
    else if OfCall(step) then CallStep(e, step)
    else if OfTask(step) then TaskStep(e, step)
    else OtherStep(e, step)
  }

  function Run(role: Role, steps: seq<Step>): Endpoint {
    if steps == [] then NewEndpoint(role) else Next(Run(role, steps[..|steps| - 1]), steps[|steps| - 1]).0
  }

  // ----- what every endpoint keeps, whatever its peer sends -----

  predicate Holds(c: Call) {
    !c.phase.Done?
  }

  /** The calls that hold a slot of the in-flight window. */
  function Holders(calls: seq<Call>): set<nat> {
    set i: nat | i < |calls| && Holds(calls[i])
  }

  predicate InTable(phase: Phase) {
    phase.Registered? || phase.Checked? || phase.Waiting? || phase.Finishing?
  }

  predicate SlotsKept(e: Endpoint) {
    && e.slots == |Holders(e.calls)| <= Window(e.role)
    && e.underflows == 0
  }

  predicate Awaits(role: Role, calls: seq<Call>, id: string, i: nat) {
    i < |calls| && InTable(calls[i].phase) && calls[i].num > 0 && id == Id(role, calls[i].num)
  }

  /** Every waiter is one for its own call, which has registered and not yet cleared it. */
  predicate WaitersKept(e: Endpoint) {
    forall id :: id in e.waiters ==> Awaits(e.role, e.calls, id, e.waiters[id])
  }

  predicate NumberedWell(c: Call, seqNo: nat) {
    && (c.phase.Acquired? <==> c.num == 0)
    && c.num <= seqNo
    && (c.sent ==> c.num > 0)
    && (c.phase.Numbered? || c.phase.Registered? || c.phase.Checked? ==> !c.sent)
  }

  predicate Distinct(calls: seq<Call>) {
    forall i, j :: 0 <= i < j < |calls| ==> calls[i].num == 0 || calls[i].num != calls[j].num
  }

  /** Numbers are given out once each. */
  predicate NumbersKept(e: Endpoint) {
    (forall c :: c in e.calls ==> NumberedWell(c, e.seqNo)) && Distinct(e.calls)
  }

  predicate ResponsesKept(e: Endpoint) {
    e.dispatched == e.placed + e.stale + if e.delivering.Some? then 1 else 0
  }

  predicate Kept(e: Endpoint) {
    SlotsKept(e) && WaitersKept(e) && NumbersKept(e) && ResponsesKept(e)
  }
}
