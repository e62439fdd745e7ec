/** The plan store: versioned snapshots with an append-only journal under an optimistic
    lock. */
module PlanStore {
  import opened Options

  datatype Delta = Delta(
    id: int, planId: int, version: int, opType: string, payload: string, actor: string, createdAt: int)

  datatype Plan = Plan(
    id: int, runId: int, brainId: string, version: int, state: string, archived: bool, createdAt: int, updatedAt: int)

  datatype Entry = Entry(plan: Plan, deltas: seq<Delta>)

  datatype Store = Store(plans: map<int, Entry>, idSeq: nat)

  datatype Outcome =
    | Created(id: int) | Updated | ArchivedNow
    | NilArgument | Canceled | Duplicate | NotFound | IsArchived | Conflict

  // ----- the operations -----

  function NewEntry(id: int, plan: Plan, now: int): Entry {
    Entry(Plan(id, plan.runId, plan.brainId, 1, if plan.state == "" then "{}" else plan.state, false, now, now), [])
  }

  function CreateIn(s: Store, plan: Plan, now: int): (Store, Outcome) {
    if plan.id == 0 then
      (Store(s.plans[s.idSeq + 1 := NewEntry(s.idSeq + 1, plan, now)], s.idSeq + 1), Created(s.idSeq + 1))
    else if plan.id in s.plans then (s, Duplicate)
    else (s.(plans := s.plans[plan.id := NewEntry(plan.id, plan, now)]), Created(plan.id))
  }

  /** The journal row and the snapshot after an accepted delta. */
  function Commit(entry: Entry, planId: int, delta: Delta, freshId: int, now: int): Entry {
    var version := entry.plan.version + 1;
    var id := if delta.id != 0 then delta.id else freshId;
    var state := if delta.payload != "" then delta.payload else entry.plan.state;
    Entry(entry.plan.(version := version, state := state, updatedAt := now),
          entry.deltas + [Delta(id, planId, version, delta.opType, delta.payload, delta.actor, now)])
  }

  function UpdateIn(s: Store, id: int, delta: Delta, now: int): (Store, Outcome) {
    if id !in s.plans then (s, NotFound)
    else if s.plans[id].plan.archived then (s, IsArchived)
    else if delta.version != s.plans[id].plan.version + 1 then (s, Conflict)
    else (Store(s.plans[id := Commit(s.plans[id], id, delta, s.idSeq + 1, now)], s.idSeq + 1), Updated)
  }

  function ArchiveIn(s: Store, id: int, now: int): (Store, Outcome) {
    if id !in s.plans then (s, NotFound)
    else
      var plan := s.plans[id].plan.(archived := true, updatedAt := now);
      (s.(plans := s.plans[id := s.plans[id].(plan := plan)]), ArchivedNow)
  }

  /** The entry of a plan just created: version 1, not archived, nothing in its journal. */
  predicate NewPlan(entry: Entry, id: int, plan: Plan, now: int) {
    && entry.deltas == [] && entry.plan.id == id && entry.plan.version == 1 && !entry.plan.archived
    && entry.plan.runId == plan.runId && entry.plan.brainId == plan.brainId
    && entry.plan.state == (if plan.state == "" then "{}" else plan.state)
    && entry.plan.createdAt == now && entry.plan.updatedAt == now
  }

  /** The plan exists, is open, and the delta is for its next version. */
  predicate Accepts(plans: map<int, Entry>, id: int, delta: Delta) {
    id in plans && !plans[id].plan.archived && delta.version == plans[id].plan.version + 1
  }

  /** A journal row says what was submitted, when. */
  predicate Journals(row: Delta, delta: Delta, now: int) {
    && row.version == delta.version && row.opType == delta.opType && row.payload == delta.payload
    && row.actor == delta.actor && row.createdAt == now && (delta.id != 0 ==> row.id == delta.id)
  }

  /** The plan with the delta in its journal, at the delta's version, in the state the delta
      carries, if it carries one. */
  predicate Advanced(e: Entry, e': Entry, delta: Delta, now: int) {
    var n := |e.deltas|;
    && |e'.deltas| == n + 1 && e'.deltas[..n] == e.deltas && Journals(e'.deltas[n], delta, now)
    && e'.plan.version == delta.version && e'.plan.updatedAt == now
    && e'.plan.state == (if delta.payload == "" then e.plan.state else delta.payload)
    && e'.plan == e.plan.(version := e'.plan.version, state := e'.plan.state, updatedAt := now)
  }

  class MemPlanStore {
    var plans: map<int, Entry>
    var idSeq: nat

    ghost function Value(): Store
      reads this
    {
      Store(plans, idSeq)
    }

    constructor ()
      ensures Value() == Store(map[], 0)
    {
      plans, idSeq := map[], 0;
    }

    method Create(plan: Option<Plan>, canceled: bool, now: int) returns (outcome: Outcome)
      modifies this
      ensures (Value(), outcome) == if plan.None? then (old(Value()), NilArgument)
                                    else if canceled then (old(Value()), Canceled)
                                    else CreateIn(old(Value()), plan.value, now)
      ensures outcome == Duplicate <==> plan.Some? && !canceled && plan.value.id != 0 && plan.value.id in old(plans)
      ensures outcome.Created? <==> plan.Some? && !canceled && (plan.value.id == 0 || plan.value.id !in old(plans))
      ensures outcome.Created? ==>
                && outcome.id == (if plan.value.id == 0 then old(idSeq) + 1 else plan.value.id)
                && outcome.id in plans && NewPlan(plans[outcome.id], outcome.id, plan.value, now)
                && plans == old(plans)[outcome.id := plans[outcome.id]]
    {
      if plan.None? {
        return NilArgument;
      }
      if canceled {
        return Canceled;
      }
      var id := plan.value.id;
      if id == 0 {
        idSeq := idSeq + 1;
        id := idSeq;
      } else if id in plans {
        return Duplicate;
      }
      plans := plans[id := NewEntry(id, plan.value, now)];
      outcome := Created(id);
    }

    method Update(id: int, delta: Option<Delta>, canceled: bool, now: int) returns (outcome: Outcome)
      modifies this
      ensures (Value(), outcome) == if delta.None? then (old(Value()), NilArgument)
                                    else if canceled then (old(Value()), Canceled)
                                    else UpdateIn(old(Value()), id, delta.value, now)
      ensures outcome == Updated <==> delta.Some? && !canceled && Accepts(old(plans), id, delta.value)
      ensures outcome == NotFound <==> delta.Some? && !canceled && id !in old(plans)
      ensures outcome == IsArchived <==> delta.Some? && !canceled && id in old(plans) && old(plans)[id].plan.archived
      ensures outcome == Updated ==>
                && id in plans && plans == old(plans)[id := plans[id]]
                && Advanced(old(plans)[id], plans[id], delta.value, now)
                && plans[id].deltas[|plans[id].deltas| - 1].id
                   == if delta.value.id != 0 then delta.value.id else old(idSeq) + 1
      ensures outcome != Updated ==> plans == old(plans) && idSeq == old(idSeq)
    {
      if delta.None? {
        return NilArgument;
      }
      if canceled {
        return Canceled;
      }
      if id !in plans {
        return NotFound;
      }
      var entry := plans[id];
      if entry.plan.archived {
        return IsArchived;
      }
      var wantVersion := entry.plan.version + 1;
      if delta.value.version != wantVersion {
        return Conflict;
      }
      idSeq := idSeq + 1;
      var committed := Delta(idSeq, id, wantVersion, delta.value.opType, delta.value.payload, delta.value.actor, now);
      if delta.value.id != 0 {
        committed := committed.(id := delta.value.id);
      }
      var plan := entry.plan.(version := wantVersion);
      if delta.value.payload != "" {
        plan := plan.(state := delta.value.payload);
      }
      plans := plans[id := Entry(plan.(updatedAt := now), entry.deltas + [committed])];
      outcome := Updated;
    }

    method Archive(id: int, canceled: bool, now: int) returns (outcome: Outcome)
      modifies this
      ensures (Value(), outcome) == if canceled then (old(Value()), Canceled) else ArchiveIn(old(Value()), id, now)
      ensures outcome == ArchivedNow <==> !canceled && id in old(plans)
      ensures outcome == ArchivedNow ==>
                && id in plans && plans == old(plans)[id := plans[id]] && plans[id].deltas == old(plans)[id].deltas
                && plans[id].plan == old(plans)[id].plan.(archived := true, updatedAt := now)
    {
      if canceled {
        return Canceled;
      }
      if id !in plans {
        return NotFound;
      }
      var entry := plans[id];
      plans := plans[id := entry.(plan := entry.plan.(archived := true, updatedAt := now))];
      outcome := ArchivedNow;
    }

    method DeltasFor(id: int) returns (deltas: seq<Delta>)
      ensures deltas == if id in plans then plans[id].deltas else []
    {
      deltas := [];
      if id !in plans {
        return;
      }
      var journal := plans[id].deltas;
      for i := 0 to |journal|
        invariant deltas == journal[..i]
      {
        deltas := deltas + [journal[i]];
      }
    }
  }

  // ----- every run -----

  datatype Op = Create(plan: Plan, now: int) | Update(id: int, delta: Delta, now: int) | Archive(id: int, now: int)

  function Next(s: Store, op: Op): (Store, Outcome) {
    match op
    case Create(plan, now) => CreateIn(s, plan, now)
    case Update(id, delta, now) => UpdateIn(s, id, delta, now)
    case Archive(id, now) => ArchiveIn(s, id, now)
  }

  function Run(ops: seq<Op>): Store {
    if ops == [] then Store(map[], 0) else Next(Run(ops[..|ops| - 1]), ops[|ops| - 1]).0
  }

  function OutcomeAt(ops: seq<Op>, k: nat): Outcome
    requires k < |ops|
  {
    Next(Run(ops[..k]), ops[k]).1
  }

  /** The last non-empty payload of the journal, or the initial state. */
  function Snapshot(initial: string, deltas: seq<Delta>): string {
    if deltas == [] then initial
    else if deltas[|deltas| - 1].payload != "" then deltas[|deltas| - 1].payload
    else Snapshot(initial, deltas[..|deltas| - 1])
  }

  /** The state the plan was created with, by the Create that last wrote its id. */
  function Initial(ops: seq<Op>, id: int): string {
    if ops == [] then ""
    else
      var last := ops[|ops| - 1];
      if last.Create? && OutcomeAt(ops, |ops| - 1) == Created(id)
      then if last.plan.state == "" then "{}" else last.plan.state
      else Initial(ops[..|ops| - 1], id)
  }

  /** The snapshot and the journal say the same. */
  predicate InStep(entry: Entry, id: int, initial: string) {
    && entry.plan.id == id
    && entry.plan.version == 1 + |entry.deltas|
    && (forall i :: 0 <= i < |entry.deltas| ==> entry.deltas[i].version == i + 2 && entry.deltas[i].planId == id)
    && entry.plan.state == Snapshot(initial, entry.deltas)
  }

  lemma CommitInStep(entry: Entry, id: int, delta: Delta, freshId: int, now: int, initial: string)
    requires InStep(entry, id, initial) && delta.version == entry.plan.version + 1
    ensures InStep(Commit(entry, id, delta, freshId, now), id, initial)
  {
    var after := Commit(entry, id, delta, freshId, now);
    assert after.deltas[..|entry.deltas|] == entry.deltas;
  }

  /** In every run, explicit ids or not: a plan's version is one plus its journal length, the
      journal's versions are 2, 3, 4, ... without gaps, and the snapshot is the last
      non-empty payload or the initial state. */
  lemma {:induction false} SnapshotFollowsJournal(ops: seq<Op>, id: int)
    requires id in Run(ops).plans
    ensures InStep(Run(ops).plans[id], id, Initial(ops, id))
  {
    var before, last := ops[..|ops| - 1], ops[|ops| - 1];
    var s := Run(before);
    if OutcomeAt(ops, |ops| - 1) == Created(id) {
    } else if id in s.plans {
      SnapshotFollowsJournal(before, id);
      if last.Update? && OutcomeAt(ops, |ops| - 1) == Updated && last.id == id {
        CommitInStep(s.plans[id], id, last.delta, s.idSeq + 1, last.now, Initial(before, id));
      }
      hide InStep, Commit, Snapshot;
    }
  }

  // ----- the journal is the winning Updates -----

  /** Where the Updates of a plan that won stand in a run, since the Create that last wrote
      its id. */
  function Winners(ops: seq<Op>, id: int): (winners: seq<nat>)
    ensures forall i :: 0 <= i < |winners| ==> winners[i] < |ops| && ops[winners[i]].Update?
  {
    if ops == [] then []
    else
      var n := |ops| - 1;
      if OutcomeAt(ops, n) == Created(id) then []
      else if ops[n].Update? && ops[n].id == id && OutcomeAt(ops, n) == Updated then Winners(ops[..n], id) + [n]
      else Winners(ops[..n], id)
  }

  /** The last non-empty payload submitted by these operations, or the initial state. */
  function LastSubmitted(initial: string, ops: seq<Op>, winners: seq<nat>): string
    requires forall i :: 0 <= i < |winners| ==> winners[i] < |ops| && ops[winners[i]].Update?
  {
    if winners == [] then initial
    else
      var n := |winners| - 1;
      if ops[winners[n]].delta.payload != "" then ops[winners[n]].delta.payload
      else LastSubmitted(initial, ops, winners[..n])
  }

  lemma {:induction false} SubmittedBefore(initial: string, ops: seq<Op>, n: nat, winners: seq<nat>)
    requires n <= |ops| && forall i :: 0 <= i < |winners| ==> winners[i] < n && ops[winners[i]].Update?
    ensures LastSubmitted(initial, ops[..n], winners) == LastSubmitted(initial, ops, winners)
  {
    if winners != [] {
      SubmittedBefore(initial, ops, n, winners[..|winners| - 1]);
    }
  }

  /** An Update that wins puts exactly what was submitted into the journal and the snapshot. */
  lemma WinnerLands(ops: seq<Op>, k: nat)
    requires k < |ops| && ops[k].Update? && OutcomeAt(ops, k) == Updated
    ensures var id, before, after := ops[k].id, Run(ops[..k]).plans, Run(ops[..k + 1]).plans;
            && Accepts(before, id, ops[k].delta)
            && id in after && Advanced(before[id], after[id], ops[k].delta, ops[k].now)
  {
    assert ops[..k + 1][..k] == ops[..k] && ops[..k + 1][k] == ops[k];
    hide Run;
    var entry := Run(ops[..k]).plans[ops[k].id];
    RunOne(ops, k);
    var after := Run(ops[..k + 1]).plans[ops[k].id];
    assert after.deltas[..|entry.deltas|] == entry.deltas;
  }

  lemma RunOne(ops: seq<Op>, k: nat)
    requires k < |ops|
    ensures Run(ops[..k + 1]) == Next(Run(ops[..k]), ops[k]).0
  {
    assert ops[..k + 1][..k] == ops[..k] && ops[..k + 1][k] == ops[k];
    hide Next;
  }

  /** Only a winning Update changes the journal or the state of a plan that is there. */
  lemma OthersLeave(s: Store, op: Op, id: int)
    requires Next(s, op).1 != Created(id) && !(op.Update? && op.id == id && Next(s, op).1 == Updated)
    requires id in Next(s, op).0.plans
    ensures id in s.plans && Next(s, op).0.plans[id].deltas == s.plans[id].deltas
            && Next(s, op).0.plans[id].plan.state == s.plans[id].plan.state
  {
  }

  /** The journal and the state are what these operations submitted. */
  predicate Submitted(entry: Entry, initial: string, ops: seq<Op>, winners: seq<nat>) {
    && (forall i :: 0 <= i < |winners| ==> winners[i] < |ops| && ops[winners[i]].Update?)
    && |entry.deltas| == |winners|
    && (forall i :: 0 <= i < |winners| ==> Journals(entry.deltas[i], ops[winners[i]].delta, ops[winners[i]].now))
    && entry.plan.state == LastSubmitted(initial, ops, winners)
  }

  lemma SubmittedLonger(entry: Entry, initial: string, ops: seq<Op>, n: nat, winners: seq<nat>)
    requires n <= |ops| && Submitted(entry, initial, ops[..n], winners)
    ensures Submitted(entry, initial, ops, winners)
  {
    hide Journals;
    SubmittedBefore(initial, ops, n, winners);
  }

  lemma SubmittedMore(e: Entry, e': Entry, initial: string, ops: seq<Op>, winners: seq<nat>, n: nat)
    requires Submitted(e, initial, ops, winners) && n < |ops| && ops[n].Update?
    requires Advanced(e, e', ops[n].delta, ops[n].now)
    ensures Submitted(e', initial, ops, winners + [n])
  {
    hide Journals;
    assert (winners + [n])[..|winners|] == winners;
    assert forall i :: 0 <= i < |e.deltas| ==> e'.deltas[i] == e'.deltas[..|e.deltas|][i];
  }

  /** In every run a plan's journal is, row by row, the Updates that won since its Create, and
      its state is the last non-empty payload they submitted. */
  lemma {:induction false} JournalIsWinners(ops: seq<Op>, id: int)
    requires id in Run(ops).plans
    ensures Submitted(Run(ops).plans[id], Initial(ops, id), ops, Winners(ops, id))
  {
    hide Submitted, Next, Advanced;
    var n := |ops| - 1;
    var before := ops[..n];
    assert ops[..n + 1] == ops;
    if OutcomeAt(ops, n) == Created(id) {
      CreatedLands(ops, n);
    } else {
      if ops[n].Update? && ops[n].id == id && OutcomeAt(ops, n) == Updated {
        WinnerLands(ops, n);
        JournalIsWinners(before, id);
        SubmittedLonger(Run(before).plans[id], Initial(before, id), ops, n, Winners(before, id));
        SubmittedMore(Run(before).plans[id], Run(ops).plans[id], Initial(before, id), ops, Winners(before, id), n);
      } else {
        OthersLeave(Run(before), ops[n], id);
        JournalIsWinners(before, id);
        SubmittedLonger(Run(before).plans[id], Initial(before, id), ops, n, Winners(before, id));
        SubmittedAlike(Run(before).plans[id], Run(ops).plans[id], Initial(before, id), ops, Winners(before, id));
      }
    }
  }

  lemma SubmittedAlike(e: Entry, e': Entry, initial: string, ops: seq<Op>, winners: seq<nat>)
    requires Submitted(e, initial, ops, winners) && e'.deltas == e.deltas && e'.plan.state == e.plan.state
    ensures Submitted(e', initial, ops, winners)
  {
    hide Journals, LastSubmitted;
  }

  /** A Create that succeeds makes the plan that was submitted. */
  lemma CreatedLands(ops: seq<Op>, k: nat)
    requires k < |ops| && OutcomeAt(ops, k).Created?
    ensures var id, after := OutcomeAt(ops, k).id, Run(ops[..k + 1]).plans;
            && ops[k].Create? && id in after && NewPlan(after[id], id, ops[k].plan, ops[k].now)
            && Submitted(after[id], Initial(ops[..k + 1], id), ops[..k + 1], [])
  {
    RunOne(ops, k);
    assert ops[..k + 1][..k] == ops[..k] && ops[..k + 1][k] == ops[k];
    hide Run;
  }

  // ----- plans are never taken back -----

  /** The plan goes on from where it was: it keeps what it was created with, its journal only
      grows, its snapshot changes only with its journal, and once archived nothing changes. */
  predicate Continues(e: Entry, e': Entry) {
    && e.deltas <= e'.deltas
    && e'.plan.id == e.plan.id && e'.plan.runId == e.plan.runId && e'.plan.brainId == e.plan.brainId
    && e'.plan.createdAt == e.plan.createdAt
    && (e'.deltas == e.deltas ==> e'.plan.version == e.plan.version && e'.plan.state == e.plan.state)
    && e.plan.version <= e'.plan.version
    && (e.plan.archived ==> e'.plan.archived && e'.deltas == e.deltas)
  }

  /** A Create with ID 0 whose next sequence number is already an id: the code does not look. */
  predicate Overwrites(s: Store, op: Op, id: int) {
    op.Create? && op.plan.id == 0 && id == s.idSeq + 1 && id in s.plans
  }

  /** The plan is as it was created, and the new one is created just the same, at the same
      time: overwriting it makes no difference. */
  predicate SameAsNew(e: Entry, plan: Plan, now: int) {
    && e.deltas == [] && !e.plan.archived && e.plan.version == 1
    && e.plan.runId == plan.runId && e.plan.brainId == plan.brainId && e.plan.createdAt == now
    && e.plan.state == if plan.state == "" then "{}" else plan.state
  }

  /** In every reachable store, a step continues a plan if and only if it does not overwrite it
      or overwrites it with its like. */
  lemma StepContinuesExactly(ops: seq<Op>, op: Op, id: int)
    requires id in Run(ops).plans
    ensures id in Next(Run(ops), op).0.plans
    ensures Continues(Run(ops).plans[id], Next(Run(ops), op).0.plans[id]) <==>
            (Overwrites(Run(ops), op, id) ==> SameAsNew(Run(ops).plans[id], op.plan, op.now))
  {
    SnapshotFollowsJournal(ops, id);
    var s := Run(ops);
    hide Run, Snapshot;
    if !Overwrites(s, op, id) {
      StepContinues(s, op, id);
    }
  }

  lemma StepContinues(s: Store, op: Op, id: int)
    requires id in s.plans && !Overwrites(s, op, id)
    ensures id in Next(s, op).0.plans && Continues(s.plans[id], Next(s, op).0.plans[id])
  {
  }

  ghost predicate NeverOverwrites(ops: seq<Op>) {
    forall k, id :: 0 <= k < |ops| ==> !Overwrites(Run(ops[..k]), ops[k], id)
  }

  predicate ZeroIds(ops: seq<Op>) {
    forall op :: op in ops && op.Create? ==> op.plan.id == 0
  }

  lemma {:induction false} IdsBelowSequence(ops: seq<Op>)
    requires ZeroIds(ops)
    ensures forall id :: id in Run(ops).plans ==> 0 < id <= Run(ops).idSeq
  {
    if ops != [] {
      IdsBelowSequence(ops[..|ops| - 1]);
      assert ops[|ops| - 1] in ops;
      hide Commit, NewEntry;
    }
  }

  /** Runs that leave all ids to the store never overwrite. */
  lemma ZeroIdsNeverOverwrite(ops: seq<Op>)
    requires ZeroIds(ops)
    ensures NeverOverwrites(ops)
  {
    forall k, id | 0 <= k < |ops| ensures !Overwrites(Run(ops[..k]), ops[k], id) {
      IdsBelowSequence(ops[..k]);
    }
  }

  /** From any point of a run that never overwrites to any later one, every plan continues:
      in particular an archived plan's snapshot and journal never change again. */
  lemma {:induction false} PlansContinue(ops: seq<Op>, j: nat, k: nat, id: int)
    requires j <= k <= |ops| && NeverOverwrites(ops) && id in Run(ops[..j]).plans
    ensures id in Run(ops[..k]).plans && Continues(Run(ops[..j]).plans[id], Run(ops[..k]).plans[id])
    decreases k
  {
    if j < k {
      PlansContinue(ops, j, k - 1, id);
      var s := Run(ops[..k - 1]);
      assert ops[..k][..k - 1] == ops[..k - 1] && ops[..k][k - 1] == ops[k - 1];
      assert Run(ops[..k]) == Next(s, ops[k - 1]).0;
      assert !Overwrites(s, ops[k - 1], id);
      hide Run, Next;
      StepContinues(s, ops[k - 1], id);
    }
  }

  /** When the store gives out all ids, an archived plan stays exactly as it is. */
  lemma ArchivedNeverChanges(ops: seq<Op>, j: nat, k: nat, id: int)
    requires j <= k <= |ops| && ZeroIds(ops) && id in Run(ops[..j]).plans && Run(ops[..j]).plans[id].plan.archived
    ensures id in Run(ops[..k]).plans
    ensures var e, e' := Run(ops[..j]).plans[id], Run(ops[..k]).plans[id];
            && e'.plan.archived && e'.plan.state == e.plan.state && e'.plan.version == e.plan.version
            && e'.deltas == e.deltas
  {
    ZeroIdsNeverOverwrite(ops);
    PlansContinue(ops, j, k, id);
  }

  /** At most one Update wins each version of a plan. */
  lemma OneWinnerPerVersion(ops: seq<Op>, j: nat, k: nat)
    requires j < k < |ops| && NeverOverwrites(ops)
    requires ops[j].Update? && ops[k].Update? && ops[j].id == ops[k].id
    requires OutcomeAt(ops, j) == Updated && OutcomeAt(ops, k) == Updated
    ensures ops[j].delta.version < ops[k].delta.version
  {
    var id := ops[j].id;
    assert ops[..j + 1][..j] == ops[..j] && ops[..j + 1][j] == ops[j];
    assert Run(ops[..j + 1]) == Next(Run(ops[..j]), ops[j]).0;
    PlansContinue(ops, j + 1, k, id);
  }

  /** With an explicit id the promises can fail: plan 2 is created by hand, its first Update
      moves the sequence to 1, so the Create with ID 0 takes id 2 and starts the plan over;
      version 2 is then won a second time. */
  lemma ExplicitIdLosesAPlan(plan: Plan, delta: Delta, now: int)
    requires delta.version == 2
    ensures var ops := [Create(plan.(id := 2), now), Update(2, delta, now), Create(plan.(id := 0), now),
                        Update(2, delta, now)];
            OutcomeAt(ops, 1) == Updated && OutcomeAt(ops, 3) == Updated && Overwrites(Run(ops[..2]), ops[2], 2)
  {
    var ops := [Create(plan.(id := 2), now), Update(2, delta, now), Create(plan.(id := 0), now), Update(2, delta, now)];
    assert ops[..1][..0] == ops[..0] == [] && ops[..2][..1] == ops[..1] && ops[..3][..2] == ops[..2];
    assert Run(ops[..0]) == Store(map[], 0);
    var one := Next(Store(map[], 0), ops[0]).0;
    assert Run(ops[..1]) == one && one.plans.Keys == {2} && one.plans[2].plan.version == 1 && one.idSeq == 0;
    var two := Next(one, ops[1]).0;
    assert Run(ops[..2]) == two && 2 in two.plans && two.idSeq == 1;
    var three := Next(two, ops[2]).0;
    assert Run(ops[..3]) == three && 2 in three.plans && three.plans[2].plan.version == 1;
  }
}
