/** Content-addressed artifacts: the byte table, the metadata table with its reference
    counts, and the reference format. */
module ArtifactStore {
  import opened Options

  // ----- references -----

  predicate HexDigit(c: char) {
    '0' <= c <= '9' || 'a' <= c <= 'f'
  }

  predicate Hex64(s: string) {
    |s| == 64 && forall c :: c in s ==> HexDigit(c)
  }

  /** The digest in lowercase hex, 64 digits for every content. */
  ghost predicate HexDigest(digest: string -> string) {
    forall content :: Hex64(digest(content))
  }

  function ComputeKey(digest: string -> string, content: string): string {
    "sha256/" + digest(content)
  }

  datatype Parse =
    | Parsed(algo: string, digest: string)
    | MissingPrefix
    | Unsupported(algo: string)
    | BadLength(length: nat)
    | BadDigit(offset: nat)

  method IndexOf(s: string, c: char) returns (k: int)
    ensures -1 <= k < |s|
    ensures k == -1 <==> c !in s
    ensures k >= 0 ==> s[k] == c && c !in s[..k]
  {
    for i := 0 to |s|
      invariant c !in s[..i]
    {
      if s[i] == c {
        return i;
      }
    }
    assert s[..|s|] == s;
    k := -1;
  }

  /** ParseRef accepts exactly the references "sha256/" plus 64 lowercase hex digits, and
      splits them; otherwise it names the first thing that is wrong. */
  method ParseRef(s: string) returns (r: Parse)
    ensures r.Parsed? <==> |s| > 7 && s[..7] == "sha256/" && Hex64(s[7..])
    ensures r.Parsed? ==> r.algo == "sha256" && r.digest == s[7..]
    ensures r.MissingPrefix? ==> '/' !in s || s[0] == '/' || '/' !in s[..|s| - 1]
    ensures r.Unsupported? ==> r.algo !in {"", "sha256"} && '/' !in r.algo && r.algo + "/" <= s && |r.algo| + 1 < |s|
    ensures r.BadLength? ==> |s| > 7 && s[..7] == "sha256/" && r.length == |s| - 7 != 64
    ensures r.BadDigit? ==>
              && r.offset < 64 && |s| == 71 && !HexDigit(s[7 + r.offset])
              && forall c :: c in s[7..7 + r.offset] ==> HexDigit(c)
  {
    var slash := IndexOf(s, '/');
    if slash <= 0 || slash == |s| - 1 {
      PrefixParts(s);
      return MissingPrefix;
    }
    var algo, digest := s[..slash], s[slash + 1..];
    if algo != "sha256" {
      PrefixParts(s);
      return Unsupported(algo);
    }
    assert s[..7] == "sha256/";
    if |digest| != 64 {
      return BadLength(|digest|);
    }
    for i := 0 to |digest|
      invariant forall c :: c in digest[..i] ==> HexDigit(c)
    {
      var c := digest[i];
      if !(('0' <= c <= '9') || ('a' <= c <= 'f')) {
        assert c in digest;
        return BadDigit(i);
      }
    }
    assert digest[..|digest|] == digest == s[7..];
    r := Parsed(algo, digest);
  }

  lemma PrefixParts(s: string)
    ensures |s| > 7 && s[..7] == "sha256/" ==> '/' !in s[..6] && s[6] == '/' && s[..6] == "sha256"
  {
    if |s| > 7 && s[..7] == "sha256/" {
      assert s[..6] == s[..7][..6] && s[6] == s[..7][6];
    }
  }

  // ----- the tables -----

  datatype Artifact = Artifact(kind: string, content: string, caption: string)

  /** `runId` and `turnIndex` are None for nil pointers, `createdAt` for the zero time, and
      `tags` for a nil map. */
  datatype Meta = Meta(
    ref: string, mimeType: string, sizeBytes: int, runId: Option<int>, turnIndex: Option<int>, caption: string,
    refCount: int, tags: Option<map<string, string>>, createdAt: Option<int>, updatedAt: int)

  type Rows = map<string, Meta>

  datatype Outcome = Stored(ref: string) | Done | Canceled | InvalidParams | NotFound | AtZero

  function DetectMimeType(kind: string): string {
    if kind in {"text", "log", "stdout", "stderr", "patch"} then "text/plain; charset=utf-8"
    else if kind == "json" then "application/json"
    else if kind == "png" then "image/png"
    else if kind in {"jpg", "jpeg"} then "image/jpeg"
    else "application/octet-stream"
  }

  /** The metadata row that Put writes for fresh content. */
  function FreshMeta(ref: string, runId: int, artifact: Artifact, now: int): Meta {
    Meta(ref, DetectMimeType(artifact.kind), |artifact.content|, if runId != 0 then Some(runId) else None, None,
         artifact.caption, 1, Some(map["kind" := artifact.kind]), Some(now), now)
  }

  function Merged(row: Meta, meta: Meta, now: int): Meta {
    row.(mimeType := if meta.mimeType != "" then meta.mimeType else row.mimeType,
         sizeBytes := if meta.sizeBytes != 0 then meta.sizeBytes else row.sizeBytes,
         caption := if meta.caption != "" then meta.caption else row.caption,
         runId := if meta.runId.Some? then meta.runId else row.runId,
         turnIndex := if meta.turnIndex.Some? then meta.turnIndex else row.turnIndex,
         tags := if meta.tags.Some? then meta.tags else row.tags,
         updatedAt := now)
  }

  function Inserted(meta: Meta, now: int): Meta {
    meta.(createdAt := if meta.createdAt.None? then Some(now) else meta.createdAt, updatedAt := now,
          refCount := if meta.refCount < 0 then 0 else meta.refCount)
  }

  function PutMeta(rows: Rows, meta: Meta, canceled: bool, now: int): (Rows, Outcome) {
    if meta.ref == "" then (rows, InvalidParams)
    else if canceled then (rows, Canceled)
    else if meta.ref in rows then (rows[meta.ref := Merged(rows[meta.ref], meta, now)], Done)
    else (rows[meta.ref := Inserted(meta, now)], Done)
  }

  function Inc(rows: Rows, ref: string, canceled: bool, now: int): (Rows, Outcome) {
    if canceled then (rows, Canceled)
    else if ref !in rows then (rows, NotFound)
    else (rows[ref := rows[ref].(refCount := rows[ref].refCount + 1, updatedAt := now)], Done)
  }

  function Dec(rows: Rows, ref: string, canceled: bool, now: int): (Rows, Outcome) {
    if canceled then (rows, Canceled)
    else if ref !in rows then (rows, NotFound)
    else if rows[ref].refCount <= 0 then (rows, AtZero)
    else (rows[ref := rows[ref].(refCount := rows[ref].refCount - 1, updatedAt := now)], Done)
  }

  /** A field that was given replaces the old one, one that was left empty does not; the count
      and the time of creation stay. */
  predicate MergedInto(row: Meta, meta: Meta, row': Meta, now: int) {
    && row'.ref == row.ref && row'.refCount == row.refCount && row'.createdAt == row.createdAt && row'.updatedAt == now
    && (meta.mimeType == "" ==> row'.mimeType == row.mimeType)
    && (meta.mimeType != "" ==> row'.mimeType == meta.mimeType)
    && (meta.sizeBytes == 0 ==> row'.sizeBytes == row.sizeBytes)
    && (meta.sizeBytes != 0 ==> row'.sizeBytes == meta.sizeBytes)
    && (meta.caption == "" ==> row'.caption == row.caption) && (meta.caption != "" ==> row'.caption == meta.caption)
    && (meta.runId == None ==> row'.runId == row.runId) && (meta.runId != None ==> row'.runId == meta.runId)
    && (meta.turnIndex == None ==> row'.turnIndex == row.turnIndex)
    && (meta.turnIndex != None ==> row'.turnIndex == meta.turnIndex)
    && (meta.tags == None ==> row'.tags == row.tags) && (meta.tags != None ==> row'.tags == meta.tags)
  }

  /** A new row is the given one, with a time of creation and a count that is not negative. */
  predicate InsertedAs(meta: Meta, row: Meta, now: int) {
    && row == meta.(createdAt := row.createdAt, updatedAt := now, refCount := row.refCount)
    && row.createdAt == (if meta.createdAt == None then Some(now) else meta.createdAt)
    && row.refCount == if meta.refCount >= 0 then meta.refCount else 0
  }

  lemma MergedIs(row: Meta, meta: Meta, now: int)
    ensures MergedInto(row, meta, Merged(row, meta, now), now)
  {
  }

  lemma InsertedIs(meta: Meta, now: int)
    ensures InsertedAs(meta, Inserted(meta, now), now)
  {
  }

  class MetaStore {
    var rows: Rows

    constructor ()
      ensures rows == map[]
    {
      rows := map[];
    }

    method Put(meta: Option<Meta>, canceled: bool, now: int) returns (outcome: Outcome)
      modifies this
      ensures (rows, outcome) ==
              if meta.None? then (old(rows), InvalidParams) else PutMeta(old(rows), meta.value, canceled, now)
      ensures outcome == Done <==> meta.Some? && meta.value.ref != "" && !canceled
      ensures outcome == Done ==>
                && meta.value.ref in rows && rows == old(rows)[meta.value.ref := rows[meta.value.ref]]
                && if meta.value.ref in old(rows)
                   then MergedInto(old(rows)[meta.value.ref], meta.value, rows[meta.value.ref], now)
                   else InsertedAs(meta.value, rows[meta.value.ref], now)
      ensures outcome != Done ==> rows == old(rows)
    {
      hide MergedInto, InsertedAs;
      if meta.None? || meta.value.ref == "" {
        return InvalidParams;
      }
      if canceled {
        return Canceled;
      }
      var m := meta.value;
      InsertedIs(m, now);
      if m.ref in rows {
        MergedIs(rows[m.ref], m, now);
      }
      outcome := Done;
      if m.ref !in rows {
        var row := m;
        if row.createdAt.None? { row := row.(createdAt := Some(now)); }
        row := row.(updatedAt := now);
        if row.refCount < 0 { row := row.(refCount := 0); }
        rows := rows[m.ref := row];
        return;
      }
      var existing := rows[m.ref];
      if m.mimeType != "" { existing := existing.(mimeType := m.mimeType); }
      if m.sizeBytes != 0 { existing := existing.(sizeBytes := m.sizeBytes); }
      if m.caption != "" { existing := existing.(caption := m.caption); }
      if m.runId.Some? { existing := existing.(runId := m.runId); }
      if m.turnIndex.Some? { existing := existing.(turnIndex := m.turnIndex); }
      if m.tags.Some? { existing := existing.(tags := m.tags); }
      rows := rows[m.ref := existing.(updatedAt := now)];
    }

    method IncRefCount(ref: string, canceled: bool, now: int) returns (outcome: Outcome)
      modifies this
      ensures (rows, outcome) == Inc(old(rows), ref, canceled, now)
      ensures outcome == Done <==> !canceled && ref in old(rows)
      ensures rows == if outcome == Done
                      then old(rows)[ref := old(rows)[ref].(refCount := old(rows)[ref].refCount + 1, updatedAt := now)]
                      else old(rows)
    {
      if canceled {
        return Canceled;
      }
      if ref !in rows {
        return NotFound;
      }
      rows := rows[ref := rows[ref].(refCount := rows[ref].refCount + 1, updatedAt := now)];
      outcome := Done;
    }

    method DecRefCount(ref: string, canceled: bool, now: int) returns (outcome: Outcome)
      modifies this
      ensures (rows, outcome) == Dec(old(rows), ref, canceled, now)
      ensures outcome == Done <==> !canceled && ref in old(rows) && old(rows)[ref].refCount > 0
      ensures outcome == AtZero <==> !canceled && ref in old(rows) && old(rows)[ref].refCount <= 0
      ensures rows == if outcome == Done
                      then old(rows)[ref := old(rows)[ref].(refCount := old(rows)[ref].refCount - 1, updatedAt := now)]
                      else old(rows)
    {
      if canceled {
        return Canceled;
      }
      if ref !in rows {
        return NotFound;
      }
      if rows[ref].refCount <= 0 {
        return AtZero;
      }
      rows := rows[ref := rows[ref].(refCount := rows[ref].refCount - 1, updatedAt := now)];
      outcome := Done;
    }
  }

  /** The two tables together. */
  datatype State = State(bytes: map<string, string>, rows: Rows)

  /** A Put: the context may end before it starts or before the metadata is written. */
  datatype PutCall = PutCall(runId: int, artifact: Artifact, canceled: bool, metaCanceled: bool, now: int, metaNow: int)

  function PutArtifact(digest: string -> string, s: State, p: PutCall): (State, Outcome) {
    var ref := ComputeKey(digest, p.artifact.content);
    if p.canceled then (s, Canceled)
    else if ref in s.bytes then
      var (rows, outcome) := Inc(s.rows, ref, p.metaCanceled, p.metaNow);
      (s.(rows := rows), if outcome == Done then Stored(ref) else outcome)
    else
      var (rows, outcome) := PutMeta(s.rows, FreshMeta(ref, p.runId, p.artifact, p.now), p.metaCanceled, p.metaNow);
      if outcome == Done then (State(s.bytes[ref := p.artifact.content], rows), Stored(ref))
      else (s.(rows := rows), outcome)
  }

  class ByteStore {
    const digest: string -> string
    var bytesBy: map<string, string>
    const meta: MetaStore

    constructor (digest: string -> string, meta: MetaStore)
      ensures bytesBy == map[] && this.meta == meta && this.digest == digest
    {
      this.digest, this.meta, bytesBy := digest, meta, map[];
    }

    method Put(p: PutCall) returns (outcome: Outcome)
      modifies this, meta
      ensures (State(bytesBy, meta.rows), outcome) == PutArtifact(digest, State(old(bytesBy), old(meta.rows)), p)
    {
      if p.canceled {
        return Canceled;
      }
      var ref := ComputeKey(digest, p.artifact.content);
      if ref in bytesBy {
        outcome := meta.IncRefCount(ref, p.metaCanceled, p.metaNow);
        if outcome == Done {
          outcome := Stored(ref);
        }
        return;
      }
      bytesBy := bytesBy[ref := p.artifact.content];
      outcome := meta.Put(Some(FreshMeta(ref, p.runId, p.artifact, p.now)), p.metaCanceled, p.metaNow);
      if outcome != Done {
        bytesBy := bytesBy - {ref};
        assert bytesBy == old(bytesBy);
        return;
      }
      outcome := Stored(ref);
    }

    method Get(ref: string, canceled: bool) returns (content: Option<string>, outcome: Outcome)
      ensures outcome == if canceled then Canceled else if ref in bytesBy then Done else NotFound
      ensures content == if outcome == Done then Some(bytesBy[ref]) else None
    {
      if canceled {
        return None, Canceled;
      }
      if ref !in bytesBy {
        return None, NotFound;
      }
      content, outcome := Some(bytesBy[ref]), Done;
    }

    method Exists(ref: string, canceled: bool) returns (found: bool, outcome: Outcome)
      ensures outcome == if canceled then Canceled else Done
      ensures found <==> !canceled && ref in bytesBy
    {
      if canceled {
        return false, Canceled;
      }
      found, outcome := ref in bytesBy, Done;
    }
  }

  // ----- every run -----

  datatype Step =
    | PutStep(put: PutCall)
    | IncStep(ref: string, canceled: bool, now: int)
    | DecStep(ref: string, canceled: bool, now: int)

  function Next(digest: string -> string, s: State, step: Step): (State, Outcome) {
    match step
    case PutStep(p) => PutArtifact(digest, s, p)
    case IncStep(ref, canceled, now) =>
      var (rows, outcome) := Inc(s.rows, ref, canceled, now); (s.(rows := rows), outcome)
    case DecStep(ref, canceled, now) =>
      var (rows, outcome) := Dec(s.rows, ref, canceled, now); (s.(rows := rows), outcome)
  }

  function Run(digest: string -> string, steps: seq<Step>): State {
    if steps == [] then State(map[], map[]) else Next(digest, Run(digest, steps[..|steps| - 1]), steps[|steps| - 1]).0
  }

  predicate Succeeded(outcome: Outcome) {
    outcome.Done? || outcome.Stored?
  }

  function LastOutcome(digest: string -> string, steps: seq<Step>): Outcome
    requires steps != []
  {
    Next(digest, Run(digest, steps[..|steps| - 1]), steps[|steps| - 1]).1
  }

  /** What a successful step adds to the references behind `ref`. */
  function Change(digest: string -> string, step: Step, ref: string): int {
    match step
    case PutStep(p) => if ComputeKey(digest, p.artifact.content) == ref then 1 else 0
    case IncStep(r, _, _) => if r == ref then 1 else 0
    case DecStep(r, _, _) => if r == ref then -1 else 0
  }

  /** Successful Puts of the content behind `ref`, plus increments, minus successful
      decrements. */
  function Balance(digest: string -> string, steps: seq<Step>, ref: string): int {
    if steps == [] then 0
    else
      Balance(digest, steps[..|steps| - 1], ref)
      + if Succeeded(LastOutcome(digest, steps)) then Change(digest, steps[|steps| - 1], ref) else 0
  }

  predicate Puts(digest: string -> string, step: Step, outcome: Outcome, ref: string) {
    step.PutStep? && Succeeded(outcome) && ComputeKey(digest, step.put.artifact.content) == ref
  }

  /** The content of the first successful Put behind `ref`. */
  function FirstContent(digest: string -> string, steps: seq<Step>, ref: string): Option<string> {
    if steps == [] then None
    else
      var before, last := FirstContent(digest, steps[..|steps| - 1], ref), steps[|steps| - 1];
      if before.None? && Puts(digest, last, LastOutcome(digest, steps), ref) then Some(last.put.artifact.content)
      else before
  }

  function Count(s: State, ref: string): int {
    if ref in s.rows then s.rows[ref].refCount else 0
  }

  function Lookup(s: State, ref: string): Option<string> {
    if ref in s.bytes then Some(s.bytes[ref]) else None
  }

  ghost predicate KeptAt(digest: string -> string, s: State, ref: string) {
    && (ref in s.bytes <==> ref in s.rows)
    && Count(s, ref) >= 0
    && (ref in s.bytes ==> ref == ComputeKey(digest, s.bytes[ref]))
  }

  lemma StepEffect(digest: string -> string, s: State, step: Step, ref: string)
    requires forall r :: KeptAt(digest, s, r)
    ensures var (s', outcome) := Next(digest, s, step);
            && KeptAt(digest, s', ref)
            && Count(s', ref) == Count(s, ref) + (if Succeeded(outcome) then Change(digest, step, ref) else 0)
            && Lookup(s', ref) ==
               if Lookup(s, ref).None? && Puts(digest, step, outcome, ref) then Some(step.put.artifact.content)
               else Lookup(s, ref)
  {
    hide Merged, DetectMimeType;
    assert KeptAt(digest, s, ref);
    match step {
      case PutStep(p) =>
        assert KeptAt(digest, s, ComputeKey(digest, p.artifact.content));
      case IncStep(r, _, _) =>
        assert KeptAt(digest, s, r);
      case DecStep(r, _, _) =>
        assert KeptAt(digest, s, r);
    }
  }

  lemma {:induction false} RunKept(digest: string -> string, steps: seq<Step>, ref: string)
    ensures var s := Run(digest, steps);
            && KeptAt(digest, s, ref) && Count(s, ref) == Balance(digest, steps, ref)
            && Lookup(s, ref) == FirstContent(digest, steps, ref)
  {
    if steps != [] {
      var before := steps[..|steps| - 1];
      var s := Run(digest, before);
      forall r ensures KeptAt(digest, s, r) {
        RunKept(digest, before, r);
      }
      RunKept(digest, before, ref);
      StepEffect(digest, s, steps[|steps| - 1], ref);
      hide Next, KeptAt, Succeeded, Change, Puts;
    }
  }

  /** After every run of Put, IncRefCount and DecRefCount, canceled or not: both tables have
      the same keys, each RefCount is the balance of the run and never negative, every key is
      a well-formed reference, and Get gives the first content put under that key. */
  lemma TablesAgree(digest: string -> string, steps: seq<Step>)
    requires HexDigest(digest)
    ensures var s := Run(digest, steps);
            && s.bytes.Keys == s.rows.Keys
            && (forall ref :: ref in s.rows ==> s.rows[ref].refCount == Balance(digest, steps, ref) >= 0)
            && (forall ref :: ref in s.bytes ==> |ref| > 7 && ref[..7] == "sha256/" && Hex64(ref[7..]))
            && (forall ref :: Lookup(s, ref) == FirstContent(digest, steps, ref))
  {
    var s := Run(digest, steps);
    forall ref
      ensures KeptAt(digest, s, ref) && Count(s, ref) == Balance(digest, steps, ref)
      ensures Lookup(s, ref) == FirstContent(digest, steps, ref)
    {
      RunKept(digest, steps, ref);
    }
    hide Run, Balance, FirstContent;
    forall ref ensures ref in s.bytes.Keys <==> ref in s.rows.Keys {
      assert KeptAt(digest, s, ref);
    }
    assert s.bytes.Keys == s.rows.Keys;
    forall ref | ref in s.bytes ensures |ref| > 7 && ref[..7] == "sha256/" && Hex64(ref[7..]) {
      assert KeptAt(digest, s, ref);
      var hex := digest(s.bytes[ref]);
      assert Hex64(hex) && ref == "sha256/" + hex;
      assert ref[7..] == hex && ref[..7] == "sha256/";
    }
    forall ref | ref in s.rows ensures s.rows[ref].refCount == Balance(digest, steps, ref) >= 0 {
      assert KeptAt(digest, s, ref);
    }
  }

  // ----- the metadata is that of the first Put -----

  /** The first successful Put of the content behind `ref`. */
  function FirstPut(digest: string -> string, steps: seq<Step>, ref: string): Option<PutCall> {
    if steps == [] then None
    else
      var before, last := FirstPut(digest, steps[..|steps| - 1], ref), steps[|steps| - 1];
      if before.None? && Puts(digest, last, LastOutcome(digest, steps), ref) then Some(last.put) else before
  }

  /** The row says of the artifact what it is. */
  predicate Describes(row: Meta, ref: string, p: PutCall) {
    var kind := p.artifact.kind;
    && row.ref == ref && row.sizeBytes == |p.artifact.content| && row.caption == p.artifact.caption
    && (p.runId == 0 ==> row.runId == None) && (p.runId != 0 ==> row.runId == Some(p.runId)) && row.turnIndex == None
    && row.tags == Some(map["kind" := kind]) && row.createdAt == Some(p.now)
    && (kind in {"text", "log", "stdout", "stderr", "patch"} ==> row.mimeType == "text/plain; charset=utf-8")
    && (kind == "json" ==> row.mimeType == "application/json")
    && (kind == "png" ==> row.mimeType == "image/png")
    && (kind == "jpg" || kind == "jpeg" ==> row.mimeType == "image/jpeg")
    && (kind !in {"text", "log", "stdout", "stderr", "patch", "json", "png", "jpg", "jpeg"} ==>
          row.mimeType == "application/octet-stream")
  }

  lemma FreshDescribes(ref: string, p: PutCall)
    ensures var row := Inserted(FreshMeta(ref, p.runId, p.artifact, p.now), p.metaNow);
            Describes(row, ref, p) && row.refCount == 1
  {
  }

  /** A row that is there changes at most in its count and its time of change. */
  lemma RowsAfter(digest: string -> string, s: State, step: Step, ref: string)
    requires forall r :: KeptAt(digest, s, r)
    requires ref in Next(digest, s, step).0.rows
    ensures var (s', outcome) := Next(digest, s, step);
            if ref in s.rows
            then s'.rows[ref] == s.rows[ref].(refCount := s'.rows[ref].refCount, updatedAt := s'.rows[ref].updatedAt)
            else Puts(digest, step, outcome, ref) && Describes(s'.rows[ref], ref, step.put)
  {
    hide Merged, DetectMimeType, Describes, FreshMeta, Inserted;
    assert KeptAt(digest, s, ref);
    match step {
      case PutStep(p) =>
        FreshDescribes(ComputeKey(digest, p.artifact.content), p);
        assert KeptAt(digest, s, ComputeKey(digest, p.artifact.content));
        FreshRef(ComputeKey(digest, p.artifact.content), p);
      case IncStep(r, _, _) =>
      case DecStep(r, _, _) =>
    }
  }

  lemma FreshRef(ref: string, p: PutCall)
    ensures FreshMeta(ref, p.runId, p.artifact, p.now).ref == ref
  {
  }

  /** In every run the metadata of a reference is that of the first Put of its content. */
  lemma {:induction false} RowDescribesFirstPut(digest: string -> string, steps: seq<Step>, ref: string)
    ensures var s, first := Run(digest, steps), FirstPut(digest, steps, ref);
            && (ref in s.rows <==> first.Some?)
            && (first.Some? ==> Describes(s.rows[ref], ref, first.value))
  {
    if steps != [] {
      var before, last := steps[..|steps| - 1], steps[|steps| - 1];
      var s, s' := Run(digest, before), Run(digest, steps);
      forall r ensures KeptAt(digest, s, r) {
        RunKept(digest, before, r);
      }
      RowDescribesFirstPut(digest, before, ref);
      StepEffect(digest, s, last, ref);
      if ref in s'.rows {
        RowsAfter(digest, s, last, ref);
      }
      DescribesStays(s, s', ref);
      hide Next, Puts, Describes, Change, Succeeded;
    }
  }

  lemma DescribesStays(s: State, s': State, ref: string)
    ensures ref in s.rows && ref in s'.rows
            && s'.rows[ref] == s.rows[ref].(refCount := s'.rows[ref].refCount, updatedAt := s'.rows[ref].updatedAt) ==>
              forall p :: Describes(s.rows[ref], ref, p) ==> Describes(s'.rows[ref], ref, p)
  {
  }

  /** A run that successfully put `content` at some step. */
  ghost predicate WasPut(digest: string -> string, steps: seq<Step>, content: string) {
    exists k :: 0 <= k < |steps| && steps[k].PutStep? && steps[k].put.artifact.content == content
                && Succeeded(LastOutcome(digest, steps[..k + 1]))
  }

  /** Get returns exactly what was put, for every content that was put, if and only if no two
      contents that were put share a key. */
  lemma GetReturnsPutExactly(digest: string -> string, steps: seq<Step>)
    ensures (forall content :: WasPut(digest, steps, content) ==>
               Lookup(Run(digest, steps), ComputeKey(digest, content)) == Some(content))
            <==> (forall c, d :: WasPut(digest, steps, c) && WasPut(digest, steps, d) ==>
                    c == d || ComputeKey(digest, c) != ComputeKey(digest, d))
  {
    var s := Run(digest, steps);
    forall content | WasPut(digest, steps, content)
      ensures Lookup(s, ComputeKey(digest, content)).Some?
      ensures var found := Lookup(s, ComputeKey(digest, content)).value;
              WasPut(digest, steps, found) && ComputeKey(digest, found) == ComputeKey(digest, content)
    {
      PutIsFound(digest, steps, content);
    }
    hide Run, ComputeKey, Lookup, WasPut;
  }

  lemma {:induction false} FirstWasPut(digest: string -> string, steps: seq<Step>, ref: string)
    requires FirstContent(digest, steps, ref).Some?
    ensures WasPut(digest, steps, FirstContent(digest, steps, ref).value)
    ensures ComputeKey(digest, FirstContent(digest, steps, ref).value) == ref
  {
    var n := |steps| - 1;
    assert steps[..n + 1] == steps;
    if FirstContent(digest, steps[..n], ref).Some? {
      FirstWasPut(digest, steps[..n], ref);
      WasPutStays(digest, steps, FirstContent(digest, steps[..n], ref).value);
    }
  }

  lemma WasPutStays(digest: string -> string, steps: seq<Step>, content: string)
    requires steps != [] && WasPut(digest, steps[..|steps| - 1], content)
    ensures WasPut(digest, steps, content)
  {
    var before := steps[..|steps| - 1];
    var k :| 0 <= k < |before| && before[k].PutStep? && before[k].put.artifact.content == content
             && Succeeded(LastOutcome(digest, before[..k + 1]));
    assert steps[k] == before[k] && before[..k + 1] == steps[..k + 1];
  }

  lemma {:induction false} PutHasFirst(digest: string -> string, steps: seq<Step>, k: nat)
    requires k < |steps| && steps[k].PutStep? && Succeeded(LastOutcome(digest, steps[..k + 1]))
    ensures FirstContent(digest, steps, ComputeKey(digest, steps[k].put.artifact.content)).Some?
  {
    if k == |steps| - 1 {
      assert steps[..k + 1] == steps;
    } else {
      var before := steps[..|steps| - 1];
      assert before[..k + 1] == steps[..k + 1];
      PutHasFirst(digest, before, k);
    }
  }

  lemma PutIsFound(digest: string -> string, steps: seq<Step>, content: string)
    requires WasPut(digest, steps, content)
    ensures var found := Lookup(Run(digest, steps), ComputeKey(digest, content));
            && found.Some? && WasPut(digest, steps, found.value)
            && ComputeKey(digest, found.value) == ComputeKey(digest, content)
  {
    var k :| 0 <= k < |steps| && steps[k].PutStep? && steps[k].put.artifact.content == content
             && Succeeded(LastOutcome(digest, steps[..k + 1]));
    PutHasFirst(digest, steps, k);
    FirstWasPut(digest, steps, ComputeKey(digest, content));
    RunKept(digest, steps, ComputeKey(digest, content));
  }
}
