/** The usage ledger, exactly once per idempotency key: the in-memory form with a key index
    and the file-backed form with a linear scan. */
module UsageLedger {
  import opened Options

  /** `createdAt` is None when the caller left it zero. */
  datatype Usage = Usage(
    runId: int, turnIndex: int, provider: string, model: string, inputTokens: int, outputTokens: int,
    cacheRead: int, cacheCreation: int, costUsd: real, key: string, createdAt: Option<int>)

  /** A Record call, at the ledger's time. */
  datatype Call = Call(rec: Usage, now: int)

  function Keys(rows: seq<Usage>): set<string> {
    set row | row in rows :: row.key
  }

  // ----- aggregation -----

  datatype Total = Total(inputTokens: int, outputTokens: int, cacheRead: int, cacheCreation: int, costUsd: real)

  function Sum(rows: seq<Usage>, runId: int): Total {
    if rows == [] then Total(0, 0, 0, 0, 0.0)
    else
      var rest, row := Sum(rows[..|rows| - 1], runId), rows[|rows| - 1];
      if row.runId != runId then rest
      else Total(rest.inputTokens + row.inputTokens, rest.outputTokens + row.outputTokens,
                 rest.cacheRead + row.cacheRead, rest.cacheCreation + row.cacheCreation, rest.costUsd + row.costUsd)
  }

  /** What one row adds to its run, field by field, and that rows of other runs add nothing. */
  lemma SumOfOne(row: Usage, runId: int)
    ensures var t := Sum([row], runId);
            if row.runId == runId
            then && t.inputTokens == row.inputTokens && t.outputTokens == row.outputTokens
                 && t.cacheRead == row.cacheRead && t.cacheCreation == row.cacheCreation && t.costUsd == row.costUsd
            else t == Total(0, 0, 0, 0, 0.0)
  {
    assert [row][..0] == [];
    assert Sum([row][..0], runId) == Total(0, 0, 0, 0, 0.0);
  }

  /** The sum over two lists of rows is the two sums added up, field by field. */
  lemma {:induction false} SumAddsUp(a: seq<Usage>, b: seq<Usage>, runId: int)
    ensures var s, t, both := Sum(a, runId), Sum(b, runId), Sum(a + b, runId);
            && both.inputTokens == s.inputTokens + t.inputTokens && both.outputTokens == s.outputTokens + t.outputTokens
            && both.cacheRead == s.cacheRead + t.cacheRead && both.cacheCreation == s.cacheCreation + t.cacheCreation
            && both.costUsd == s.costUsd + t.costUsd
  {
    if b == [] {
      assert a + b == a;
    } else {
      SumAddsUp(a, b[..|b| - 1], runId);
      assert (a + b)[..|a + b| - 1] == a + b[..|b| - 1];
    }
  }

  /** The loop both ledgers run; the aggregate row has turn index -1 and names no model. */
  method SumRows(rows: seq<Usage>, runId: int) returns (agg: Usage)
    ensures var t := Sum(rows, runId);
            agg == Usage(runId, -1, "", "", t.inputTokens, t.outputTokens, t.cacheRead, t.cacheCreation, t.costUsd,
                         "", None)
  {
    var input, output, read, creation, cost := 0, 0, 0, 0, 0.0;
    for i := 0 to |rows|
      invariant Sum(rows[..i], runId) == Total(input, output, read, creation, cost)
    {
      assert rows[..i + 1][..i] == rows[..i];
      if rows[i].runId == runId {
        input, output := input + rows[i].inputTokens, output + rows[i].outputTokens;
        read, creation := read + rows[i].cacheRead, creation + rows[i].cacheCreation;
        cost := cost + rows[i].costUsd;
      }
    }
    assert rows[..|rows|] == rows;
    agg := Usage(runId, -1, "", "", input, output, read, creation, cost, "", None);
  }

  // ----- the two ledgers -----

  datatype Outcome = Recorded | NilRecord | MissingKey | Canceled

  function MemRow(call: Call): Usage {
    if call.rec.createdAt.None? then call.rec.(createdAt := Some(call.now)) else call.rec
  }

  function FileRow(call: Call): Usage {
    call.rec.(createdAt := Some(call.now))
  }

  function MemStep(rows: seq<Usage>, call: Call): seq<Usage> {
    if call.rec.key == "" || call.rec.key in Keys(rows) then rows else rows + [MemRow(call)]
  }

  function FileStep(rows: seq<Usage>, call: Call): seq<Usage> {
    if call.rec.key != "" && call.rec.key in Keys(rows) then rows else rows + [FileRow(call)]
  }

  class MemLedger {
    var rows: seq<Usage>
    var byKey: map<string, nat>

    /** The index holds exactly the rows' keys, each at its own position. */
    ghost predicate Valid()
      reads this
    {
      && (forall i :: 0 <= i < |rows| ==> rows[i].key in byKey && byKey[rows[i].key] == i)
      && (forall key :: key in byKey ==> byKey[key] < |rows| && rows[byKey[key]].key == key)
    }

    constructor ()
      ensures Valid() && rows == []
    {
      rows, byKey := [], map[];
    }

    method Record(rec: Option<Usage>, canceled: bool, now: int) returns (outcome: Outcome)
      requires Valid()
      modifies this
      ensures Valid()
      ensures outcome == if rec.None? then NilRecord
                         else if rec.value.key == "" then MissingKey
                         else if canceled then Canceled
                         else Recorded
      ensures rows == if outcome == Recorded then MemStep(old(rows), Call(rec.value, now)) else old(rows)
      ensures outcome == Recorded && (forall row :: row in old(rows) ==> row.key != rec.value.key) ==>
                rows == old(rows) + [if rec.value.createdAt.Some? then rec.value
                                     else rec.value.(createdAt := Some(now))]
      ensures outcome != Recorded || (exists row :: row in old(rows) && row.key == rec.value.key) ==> rows == old(rows)
    {
      if rec.None? {
        return NilRecord;
      }
      if rec.value.key == "" {
        return MissingKey;
      }
      if canceled {
        return Canceled;
      }
      outcome := Recorded;
      assert rec.value.key in byKey <==> rec.value.key in Keys(rows);
      if rec.value.key in byKey {
        return;
      }
      var stored := rec.value;
      if stored.createdAt.None? {
        stored := stored.(createdAt := Some(now));
      }
      byKey := byKey[rec.value.key := |rows|];
      rows := rows + [stored];
    }
  }

  class FileLedger {
    var rows: seq<Usage>

    constructor (rows: seq<Usage>)
      ensures this.rows == rows
    {
      this.rows := rows;
    }

    /** A record that is appended stays in memory even if the database cannot be written. */
    method Record(rec: Usage, now: int, flushFails: bool) returns (ok: bool)
      modifies this
      ensures rows == FileStep(old(rows), Call(rec, now))
      ensures rows == old(rows) <==> rec.key != "" && exists row :: row in old(rows) && row.key == rec.key
      ensures rows != old(rows) ==> rows == old(rows) + [rec.(createdAt := Some(now))]
      ensures ok <==> rows == old(rows) || !flushFails
    {
      ok := true;
      if rec.key != "" {
        for i := 0 to |rows|
          invariant rows == old(rows) && rec.key !in Keys(rows[..i])
        {
          if rows[i].key == rec.key {
            assert rows[i] in rows;
            return;
          }
          assert rows[..i + 1] == rows[..i] + [rows[i]];
        }
        assert rows[..|rows|] == rows;
      }
      rows := rows + [rec.(createdAt := Some(now))];
      ok := !flushFails;
    }
  }

  // ----- whole histories -----

  function MemRows(history: seq<Call>): seq<Usage> {
    if history == [] then [] else MemStep(MemRows(history[..|history| - 1]), history[|history| - 1])
  }

  function FileRows(history: seq<Call>): seq<Usage> {
    if history == [] then [] else FileStep(FileRows(history[..|history| - 1]), history[|history| - 1])
  }

  /** The calls that are the first of the history with their key. */
  function Firsts(history: seq<Call>): seq<Call> {
    if history == [] then []
    else
      var before, call := history[..|history| - 1], history[|history| - 1];
      Firsts(before) + if Seen(before, call.rec.key) then [] else [call]
  }

  predicate Seen(history: seq<Call>, key: string) {
    exists call :: call in history && call.rec.key == key
  }

  predicate Keyed(history: seq<Call>) {
    forall call :: call in history ==> call.rec.key != ""
  }

  function Untimed(rows: seq<Usage>): seq<Usage> {
    seq(|rows|, i requires 0 <= i < |rows| => rows[i].(createdAt := None))
  }

  function Records(calls: seq<Call>): seq<Usage> {
    seq(|calls|, i requires 0 <= i < |calls| => calls[i].rec)
  }

  lemma {:induction false} MemKeysAreSeen(history: seq<Call>, key: string)
    ensures key in Keys(MemRows(history)) <==> key != "" && Seen(history, key)
  {
    if history != [] {
      var before, call := history[..|history| - 1], history[|history| - 1];
      MemKeysAreSeen(before, key);
      assert history == before + [call];
    }
  }

  /** The rows are the first records of the distinct keys, in order. */
  lemma {:induction false} RowsAreFirsts(history: seq<Call>)
    requires Keyed(history)
    ensures Untimed(MemRows(history)) == Untimed(Records(Firsts(history)))
  {
    if history != [] {
      var before, call := history[..|history| - 1], history[|history| - 1];
      assert history == before + [call];
      RowsAreFirsts(before);
      MemKeysAreSeen(before, call.rec.key);
      var rows, firsts := MemRows(before), Firsts(before);
      if !Seen(before, call.rec.key) {
        assert Untimed(rows + [MemRow(call)]) == Untimed(rows) + [call.rec.(createdAt := None)];
        assert Records(firsts + [call]) == Records(firsts) + [call.rec];
        assert Untimed(Records(firsts) + [call.rec]) == Untimed(Records(firsts)) + [call.rec.(createdAt := None)];
      }
    }
  }

  lemma {:induction false} SumIgnoresTime(rows: seq<Usage>, rows': seq<Usage>, runId: int)
    requires Untimed(rows) == Untimed(rows')
    ensures Sum(rows, runId) == Sum(rows', runId)
  {
    assert |rows| == |Untimed(rows)| == |rows'|;
    if rows != [] {
      var n := |rows| - 1;
      assert Untimed(rows)[n] == Untimed(rows')[n];
      assert Untimed(rows[..n]) == Untimed(rows)[..n] && Untimed(rows'[..n]) == Untimed(rows')[..n];
      SumIgnoresTime(rows[..n], rows'[..n], runId);
    }
  }

  /** For every history with any duplicates, Sum charges the first record of each distinct
      key and nothing else. */
  lemma ChargedOncePerKey(history: seq<Call>, runId: int)
    requires Keyed(history)
    ensures Sum(MemRows(history), runId) == Sum(Records(Firsts(history)), runId)
  {
    RowsAreFirsts(history);
    SumIgnoresTime(MemRows(history), Records(Firsts(history)), runId);
  }

  /** Replaying any calls with keys already recorded, in any order and number, changes
      nothing, whatever else the replayed records hold. */
  lemma {:induction false} ReplayChangesNothing(history: seq<Call>, replay: seq<Call>)
    requires forall call :: call in replay ==> Seen(history, call.rec.key)
    ensures MemRows(history + replay) == MemRows(history)
  {
    if replay == [] {
      assert history + replay == history;
    } else {
      var most, last := replay[..|replay| - 1], replay[|replay| - 1];
      ReplayChangesNothing(history, most);
      assert (history + replay)[..|history| + |most|] == history + most;
      MemKeysAreSeen(history, last.rec.key);
    }
  }

  lemma {:induction false} FileHasUnkeyed(history: seq<Call>)
    ensures "" in Keys(FileRows(history)) <==> !Keyed(history)
  {
    if history != [] {
      var before, call := history[..|history| - 1], history[|history| - 1];
      assert history == before + [call];
      FileHasUnkeyed(before);
    }
  }

  lemma SameKeys(rows: seq<Usage>, rows': seq<Usage>)
    requires Untimed(rows) == Untimed(rows')
    ensures Keys(rows) == Keys(rows')
  {
    assert |rows| == |Untimed(rows)| == |rows'|;
    forall i | 0 <= i < |rows| ensures rows[i].key == rows'[i].key {
      assert Untimed(rows)[i] == Untimed(rows')[i];
    }
    forall key ensures key in Keys(rows) <==> key in Keys(rows') {
      if key in Keys(rows) {
        var i :| 0 <= i < |rows| && rows[i].key == key;
        assert rows'[i] in rows';
      }
      if key in Keys(rows') {
        var i :| 0 <= i < |rows'| && rows'[i].key == key;
        assert rows[i] in rows;
      }
    }
  }

  lemma {:induction false} KeyedLedgersAgree(history: seq<Call>)
    requires Keyed(history)
    ensures Untimed(FileRows(history)) == Untimed(MemRows(history))
  {
    if history != [] {
      var before, call := history[..|history| - 1], history[|history| - 1];
      assert history == before + [call];
      KeyedLedgersAgree(before);
      var mem, file := MemRows(before), FileRows(before);
      SameKeys(file, mem);
      assert Untimed(mem + [MemRow(call)]) == Untimed(mem) + [call.rec.(createdAt := None)];
      assert Untimed(file + [FileRow(call)]) == Untimed(file) + [call.rec.(createdAt := None)];
    }
  }

  /** The indexed ledger and the scanning ledger hold the same records exactly when every
      call has a key: without one, the first rejects the record and the second appends it. */
  lemma LedgersAgreeExactly(history: seq<Call>)
    ensures Untimed(FileRows(history)) == Untimed(MemRows(history)) <==> Keyed(history)
  {
    FileHasUnkeyed(history);
    MemKeysAreSeen(history, "");
    if Keyed(history) {
      KeyedLedgersAgree(history);
    } else if Untimed(FileRows(history)) == Untimed(MemRows(history)) {
      SameKeys(FileRows(history), MemRows(history));
      assert false;
    }
  }

  /** Hence both ledgers report the same sums. */
  lemma SumsAgree(history: seq<Call>, runId: int)
    requires Keyed(history)
    ensures Sum(FileRows(history), runId) == Sum(MemRows(history), runId) == Sum(Records(Firsts(history)), runId)
  {
    KeyedLedgersAgree(history);
    SumIgnoresTime(FileRows(history), MemRows(history), runId);
    ChargedOncePerKey(history, runId);
  }
}
