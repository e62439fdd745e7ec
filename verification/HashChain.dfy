/** The hash-chained audit log: each row carries the digest of its canonical bytes, which
    include the digest of the row before. */
module HashChain {
  import opened Options

  /** The separator byte between canonical fields. */
  const SEP: char := '\U{1F}'

  predicate Free(s: string) {
    SEP !in s
  }

  /** The timestamp stands for its canonical text. */
  datatype Event = Event(id: string, actor: string, action: string, resource: string, timestamp: string,
                         prevHash: string, selfHash: string, payload: map<string, string>)

  /** The digest in hex, and the encoding of a non-empty payload, which can fail. */
  datatype Hasher = Hasher(digest: string -> string, encode: map<string, string> -> Option<string>) {
    /** A hex digest: never empty, and without the separator. */
    ghost predicate Valid() {
      forall s :: digest(s) != "" && Free(digest(s))
    }
  }

  function PayloadBytes(h: Hasher, payload: map<string, string>): Option<string> {
    if payload == map[] then Some("{}") else h.encode(payload)
  }

  /** The fields before PrevHash, separated. */
  function HeadBytes(e: Event): string {
    e.id + [SEP] + (e.actor + [SEP] + (e.action + [SEP] + (e.resource + [SEP] + e.timestamp)))
  }

  /** The bytes that are hashed; None when the payload does not encode. */
  function Canonical(h: Hasher, e: Event): Option<string> {
    match PayloadBytes(h, e.payload)
    case None => None
    case Some(payload) => Some(HeadBytes(e) + [SEP] + e.prevHash + [SEP] + payload)
  }

  function CanonicalHash(h: Hasher, e: Event): Option<string> {
    match Canonical(h, e)
    case None => None
    case Some(bytes) => Some(h.digest(bytes))
  }

  // ----- the log -----

  /** The tail hash of a chain: the last SelfHash, or the empty genesis value. */
  function Tail(events: seq<Event>): string {
    if events == [] then "" else events[|events| - 1].selfHash
  }

  /** Every row points at the row before and carries its own digest. */
  predicate Chained(h: Hasher, events: seq<Event>) {
    events == [] || (Chained(h, events[..|events| - 1]) && Fits(h, Tail(events[..|events| - 1]), events[|events| - 1]))
  }

  predicate Fits(h: Hasher, tail: string, e: Event) {
    e.prevHash == tail && CanonicalHash(h, e) == Some(e.selfHash)
  }

  datatype Outcome = Appended | NilEvent | ChainMismatch | HashFailed

  /** The caller's event as Emit leaves it: PrevHash is filled in before the hash is tried. */
  function Filled(tail: string, e: Event): Event {
    if e.prevHash == "" then e.(prevHash := tail) else e
  }

  /** Whether Emit takes the event, and what the log is afterwards. */
  function Judge(h: Hasher, tail: string, e: Option<Event>): Outcome {
    if e.None? then NilEvent
    else if e.value.prevHash != "" && e.value.prevHash != tail then ChainMismatch
    else if CanonicalHash(h, Filled(tail, e.value)).None? then HashFailed
    else Appended
  }

  function Row(h: Hasher, tail: string, e: Event): Event
    requires Judge(h, tail, Some(e)) == Appended
  {
    var filled := Filled(tail, e);
    filled.(selfHash := CanonicalHash(h, filled).value)
  }

  /** The fields one after the other, with the separator between them. */
  function Separated(fields: seq<string>): string {
    if |fields| == 0 then ""
    else if |fields| == 1 then fields[0]
    else fields[0] + [SEP] + Separated(fields[1..])
  }

  /** The row is the event, hung on the tail and stamped with the digest of its fields in their
      fixed order, of which SelfHash is not one. */
  predicate Recorded(h: Hasher, tail: string, e: Event, row: Event) {
    && row.id == e.id && row.actor == e.actor && row.action == e.action && row.resource == e.resource
    && row.timestamp == e.timestamp && row.payload == e.payload && row.prevHash == tail
    && (e.payload != map[] ==> h.encode(e.payload).Some?)
    && var payload := if e.payload == map[] then "{}" else h.encode(e.payload).value;
       row.selfHash == h.digest(Separated([e.id, e.actor, e.action, e.resource, e.timestamp, tail, payload]))
  }

  datatype Finding = Intact | PrevMismatch(index: nat) | HashError(index: nat) | SelfMismatch(index: nat)

  class AuditLog {
    const hasher: Hasher
    var events: seq<Event>
    var tailHash: string

    ghost predicate Valid()
      reads this
    {
      Chained(hasher, events) && tailHash == Tail(events)
    }

    constructor (hasher: Hasher)
      ensures Valid() && events == [] && this.hasher == hasher
    {
      this.hasher, events, tailHash := hasher, [], "";
    }

    method Emit(e: Option<Event>) returns (outcome: Outcome, after: Option<Event>)
      requires Valid()
      modifies this
      ensures Valid() && outcome == Judge(hasher, old(tailHash), e)
      ensures outcome == NilEvent <==> e == None
      ensures outcome == ChainMismatch <==> e.Some? && e.value.prevHash !in {"", old(tailHash)}
      ensures outcome == Appended <==>
              e.Some? && e.value.prevHash in {"", old(tailHash)}
              && (e.value.payload == map[] || hasher.encode(e.value.payload).Some?)
      ensures outcome == Appended ==>
                && after.Some? && events == old(events) + [after.value] && tailHash == after.value.selfHash
                && Recorded(hasher, old(tailHash), e.value, after.value)
                && after.value == Row(hasher, old(tailHash), e.value)
      ensures outcome != Appended ==> events == old(events) && tailHash == old(tailHash)
      ensures outcome == HashFailed ==> after == Some(e.value.(prevHash := old(tailHash)))
      ensures outcome == NilEvent || outcome == ChainMismatch ==> after == e
    {
      after := e;
      if e.None? {
        return NilEvent, after;
      }
      var ev := e.value;
      if ev.prevHash == "" {
        ev := ev.(prevHash := tailHash);
      } else if ev.prevHash != tailHash {
        return ChainMismatch, after;
      }
      var hash := CanonicalHash(hasher, ev);
      if hash.None? {
        return HashFailed, Some(ev);
      }
      ev := ev.(selfHash := hash.value);
      RowFits(hasher, tailHash, e.value);
      RowRecords(hasher, tailHash, e.value);
      assert (events + [ev])[..|events|] == events;
      events, tailHash := events + [ev], hash.value;
      outcome, after := Appended, Some(ev);
    }

    method Verify() returns (finding: Finding)
      ensures finding == Intact <==> Chained(hasher, events)
      ensures finding != Intact ==>
                && finding.index < |events| && Chained(hasher, events[..finding.index])
                && (finding.PrevMismatch? <==> events[finding.index].prevHash != Tail(events[..finding.index]))
                && (finding.HashError? ==> CanonicalHash(hasher, events[finding.index]) == None)
                && (finding.SelfMismatch? ==> CanonicalHash(hasher, events[finding.index]).Some?)
                && !Fits(hasher, Tail(events[..finding.index]), events[finding.index])
    {
      var prev := "";
      for i := 0 to |events|
        invariant Chained(hasher, events[..i]) && prev == Tail(events[..i])
      {
        var ev := events[i];
        assert events[..i + 1][..i] == events[..i];
        if ev.prevHash != prev {
          BrokenStaysBroken(hasher, events, i);
          return PrevMismatch(i);
        }
        var expected := CanonicalHash(hasher, ev);
        if expected.None? {
          BrokenStaysBroken(hasher, events, i);
          return HashError(i);
        }
        if expected.value != ev.selfHash {
          BrokenStaysBroken(hasher, events, i);
          return SelfMismatch(i);
        }
        prev := ev.selfHash;
      }
      assert events[..|events|] == events;
      finding := Intact;
    }
  }

  /** The canonical bytes leave SelfHash out, so stamping it keeps the row's own hash. */
  lemma RowFits(h: Hasher, tail: string, e: Event)
    requires Judge(h, tail, Some(e)) == Appended
    ensures Fits(h, tail, Row(h, tail, e))
  {
    var filled := Filled(tail, e);
    var row := Row(h, tail, e);
    assert HeadBytes(row) == HeadBytes(filled) && row.prevHash == filled.prevHash && row.payload == filled.payload;
  }

  lemma {:induction false} SeparatedAppend(fields: seq<string>, last: string)
    requires fields != []
    ensures Separated(fields + [last]) == Separated(fields) + [SEP] + last
  {
    if |fields| > 1 {
      SeparatedAppend(fields[1..], last);
      assert (fields + [last])[1..] == fields[1..] + [last];
      assert fields[0] + [SEP] + (Separated(fields[1..]) + [SEP] + last)
          == (fields[0] + [SEP] + Separated(fields[1..])) + [SEP] + last;
    } else {
      assert fields + [last] == [fields[0], last] && [fields[0], last][1..] == [last];
    }
  }

  lemma HeadIsSeparated(e: Event)
    ensures HeadBytes(e) == Separated([e.id, e.actor, e.action, e.resource, e.timestamp])
  {
    var a, b, c, d := [e.timestamp], [e.resource, e.timestamp], [e.action, e.resource, e.timestamp],
                      [e.actor, e.action, e.resource, e.timestamp];
    assert b[1..] == a && c[1..] == b && d[1..] == c && ([e.id] + d)[1..] == d;
    assert Separated(b) == e.resource + [SEP] + e.timestamp;
    assert Separated(c) == e.action + [SEP] + Separated(b);
    assert Separated(d) == e.actor + [SEP] + Separated(c);
    assert [e.id, e.actor, e.action, e.resource, e.timestamp] == [e.id] + d;
  }

  /** What Emit appends is the caller's event. */
  lemma RowRecords(h: Hasher, tail: string, e: Event)
    requires Judge(h, tail, Some(e)) == Appended
    ensures Recorded(h, tail, e, Row(h, tail, e))
  {
    var row, payload := Row(h, tail, e), PayloadBytes(h, e.payload).value;
    var head := [e.id, e.actor, e.action, e.resource, e.timestamp];
    HeadIsSeparated(row);
    SeparatedAppend(head, tail);
    SeparatedAppend(head + [tail], payload);
    assert head + [tail] + [payload] == [e.id, e.actor, e.action, e.resource, e.timestamp, tail, payload];
    hide Separated;
  }

  lemma {:induction false} BrokenStaysBroken(h: Hasher, events: seq<Event>, i: nat)
    requires i < |events| && !Fits(h, Tail(events[..i]), events[i])
    ensures !Chained(h, events)
    decreases |events|
  {
    if i < |events| - 1 {
      assert events[..|events| - 1][..i] == events[..i];
      BrokenStaysBroken(h, events[..|events| - 1], i);
    }
  }

  /** The rows after a run of Emit calls. */
  function EmitAll(h: Hasher, calls: seq<Option<Event>>): seq<Event> {
    if calls == [] then []
    else
      var before, e := EmitAll(h, calls[..|calls| - 1]), calls[|calls| - 1];
      if Judge(h, Tail(before), e) == Appended then before + [Row(h, Tail(before), e.value)] else before
  }

  /** The event of a call can be taken: it names no predecessor or the last row, and its
      payload encodes. */
  predicate Acceptable(h: Hasher, tail: string, e: Option<Event>) {
    e.Some? && e.value.prevHash in {"", tail} && (e.value.payload == map[] || h.encode(e.value.payload).Some?)
  }

  /** The calls that were taken, in order. */
  function Taken(h: Hasher, calls: seq<Option<Event>>): seq<Event> {
    if calls == [] then []
    else
      var before, e := calls[..|calls| - 1], calls[|calls| - 1];
      Taken(h, before) + if Acceptable(h, Tail(EmitAll(h, before)), e) then [e.value] else []
  }

  /** After any run of Emits the log is, row by row, the acceptable events, each recorded on the
      row before it. */
  lemma {:induction false} LogIsTaken(h: Hasher, calls: seq<Option<Event>>)
    ensures var rows, taken := EmitAll(h, calls), Taken(h, calls);
            && |rows| == |taken|
            && forall i :: 0 <= i < |rows| ==> Recorded(h, Tail(rows[..i]), taken[i], rows[i])
  {
    if calls != [] {
      var before, e := calls[..|calls| - 1], calls[|calls| - 1];
      LogIsTaken(h, before);
      var rows := EmitAll(h, before);
      if Acceptable(h, Tail(rows), e) {
        RowRecords(h, Tail(rows), e.value);
        hide Recorded, Row;
        var rows' := EmitAll(h, calls);
        assert forall i :: 0 <= i <= |rows| ==> rows'[..i] == rows[..i];
      }
    }
  }

  /** Whatever is emitted, accepted or not, Verify stays successful. */
  lemma {:induction false} EveryRunVerifies(h: Hasher, calls: seq<Option<Event>>)
    ensures Chained(h, EmitAll(h, calls))
  {
    if calls != [] {
      var before, e := EmitAll(h, calls[..|calls| - 1]), calls[|calls| - 1];
      EveryRunVerifies(h, calls[..|calls| - 1]);
      if Judge(h, Tail(before), e) == Appended {
        RowFits(h, Tail(before), e.value);
        assert EmitAll(h, calls)[..|before|] == before;
      }
    }
  }

  // ----- the tail determines the history -----

  /** No two of the rows have different bytes with the same digest. */
  ghost predicate CollisionFree(h: Hasher, rows: set<Event>) {
    forall r, s :: r in rows && s in rows && CanonicalHash(h, r).Some? && CanonicalHash(h, r) == CanonicalHash(h, s) ==>
      Canonical(h, r) == Canonical(h, s)
  }

  predicate From(events: seq<Event>, rows: set<Event>) {
    forall e :: e in events ==> e in rows
  }

  predicate FreePayload(h: Hasher, e: Event) {
    PayloadBytes(h, e.payload).Some? ==> Free(PayloadBytes(h, e.payload).value)
  }

  lemma SplitLast(x: string, u: string, y: string, v: string)
    requires Free(u) && Free(v) && x + [SEP] + u == y + [SEP] + v
    ensures x == y && u == v
  {
    var s := x + [SEP] + u;
    assert s[|x|] == SEP && s[|y|] == SEP;
    assert forall k :: |x| < k < |s| ==> s[k] == u[k - |x| - 1];
    assert forall k :: |y| < k < |s| ==> s[k] == v[k - |y| - 1];
    assert |x| == |y|;
    assert x == s[..|x|] && u == s[|x| + 1..];
  }

  lemma SplitFirst(u: string, x: string, v: string, y: string)
    requires Free(u) && Free(v) && u + [SEP] + x == v + [SEP] + y
    ensures u == v && x == y
  {
    var s := u + [SEP] + x;
    assert s[|u|] == SEP && s[|v|] == SEP;
    assert forall k :: 0 <= k < |u| ==> s[k] == u[k];
    assert forall k :: 0 <= k < |v| ==> s[k] == v[k];
    assert |u| == |v|;
    assert u == s[..|u|] && x == s[|u| + 1..];
  }

  /** Equal bytes mean equal PrevHash, equal payload bytes and equal head. */
  lemma BytesGivePrev(h: Hasher, e: Event, f: Event)
    requires Canonical(h, e).Some? && Canonical(h, e) == Canonical(h, f)
    requires FreePayload(h, e) && FreePayload(h, f) && Free(e.prevHash) && Free(f.prevHash)
    ensures e.prevHash == f.prevHash && HeadBytes(e) == HeadBytes(f)
            && PayloadBytes(h, e.payload) == PayloadBytes(h, f.payload)
  {
    var p, q := PayloadBytes(h, e.payload).value, PayloadBytes(h, f.payload).value;
    hide HeadBytes, PayloadBytes;
    SplitLast(HeadBytes(e) + [SEP] + e.prevHash, p, HeadBytes(f) + [SEP] + f.prevHash, q);
    SplitLast(HeadBytes(e), e.prevHash, HeadBytes(f), f.prevHash);
  }

  lemma TailIsFree(h: Hasher, events: seq<Event>)
    requires h.Valid() && Chained(h, events)
    ensures Free(Tail(events)) && (Tail(events) == "" <==> events == [])
  {
  }

  lemma LastRows(h: Hasher, rows: set<Event>, c: seq<Event>, d: seq<Event>)
    requires h.Valid() && Chained(h, c) && Chained(h, d) && c != [] && d != [] && Tail(c) == Tail(d)
    requires From(c, rows) && From(d, rows) && CollisionFree(h, rows) && forall e :: e in rows ==> FreePayload(h, e)
    ensures Canonical(h, c[|c| - 1]) == Canonical(h, d[|d| - 1])
    ensures Tail(c[..|c| - 1]) == Tail(d[..|d| - 1])
  {
    var e, f := c[|c| - 1], d[|d| - 1];
    assert e in rows && f in rows;
    TailIsFree(h, c[..|c| - 1]);
    TailIsFree(h, d[..|d| - 1]);
    BytesGivePrev(h, e, f);
  }

  /** Two chains that verify and end in the same SelfHash have the same length and the same
      canonical bytes row by row. */
  lemma {:induction false} TailDeterminesHistory(h: Hasher, rows: set<Event>, c: seq<Event>, d: seq<Event>)
    requires h.Valid() && Chained(h, c) && Chained(h, d) && Tail(c) == Tail(d)
    requires From(c, rows) && From(d, rows) && CollisionFree(h, rows) && forall e :: e in rows ==> FreePayload(h, e)
    ensures |c| == |d| && forall i :: 0 <= i < |c| ==> Canonical(h, c[i]) == Canonical(h, d[i])
    decreases |c|
  {
    hide *;
    TailIsFree(h, c);
    TailIsFree(h, d);
    if c != [] {
      var c', d' := c[..|c| - 1], d[..|d| - 1];
      LastRows(h, rows, c, d);
      Earlier(h, rows, c);
      Earlier(h, rows, d);
      TailDeterminesHistory(h, rows, c', d');
      forall i | 0 <= i < |c| ensures Canonical(h, c[i]) == Canonical(h, d[i]) {
        assert i < |c'| ==> c[i] == c'[i] && d[i] == d'[i];
      }
    }
  }

  lemma Earlier(h: Hasher, rows: set<Event>, c: seq<Event>)
    requires c != [] && Chained(h, c) && From(c, rows)
    ensures Chained(h, c[..|c| - 1]) && From(c[..|c| - 1], rows)
  {
  }

  // ----- from bytes to fields -----

  predicate FreeFields(e: Event) {
    Free(e.id) && Free(e.actor) && Free(e.action) && Free(e.resource)
  }

  predicate SameFields(e: Event, f: Event) {
    e.id == f.id && e.actor == f.actor && e.action == f.action && e.resource == f.resource && e.timestamp == f.timestamp
  }

  lemma HeadGivesFields(e: Event, f: Event)
    requires FreeFields(e) && FreeFields(f) && HeadBytes(e) == HeadBytes(f)
    ensures SameFields(e, f)
  {
    var er, fr := e.resource + [SEP] + e.timestamp, f.resource + [SEP] + f.timestamp;
    var ea, fa := e.action + [SEP] + er, f.action + [SEP] + fr;
    SplitFirst(e.id, e.actor + [SEP] + ea, f.id, f.actor + [SEP] + fa);
    SplitFirst(e.actor, ea, f.actor, fa);
    SplitFirst(e.action, er, f.action, fr);
    SplitFirst(e.resource, e.timestamp, f.resource, f.timestamp);
  }

  /** Two events that cannot be told apart by their bytes, though a caller sees them differ. */
  ghost predicate Confusable(h: Hasher, e: Event, f: Event) {
    Canonical(h, e) == Canonical(h, f) && !SameFields(e, f)
  }

  /** The event with one separator taken for a field boundary at the wrong place. */
  function Shifted(e: Event): Event
    requires !FreeFields(e)
  {
    if !Free(e.id) then
      var k := FirstSep(e.id);
      e.(id := e.id[..k], actor := e.id[k + 1..] + [SEP] + e.actor)
    else if !Free(e.actor) then
      var k := FirstSep(e.actor);
      e.(actor := e.actor[..k], action := e.actor[k + 1..] + [SEP] + e.action)
    else if !Free(e.action) then
      var k := FirstSep(e.action);
      e.(action := e.action[..k], resource := e.action[k + 1..] + [SEP] + e.resource)
    else
      var k := FirstSep(e.resource);
      e.(action := e.action + [SEP] + e.resource[..k], resource := e.resource[k + 1..])
  }

  function FirstSep(s: string): (k: nat)
    requires !Free(s)
    ensures k < |s| && s[k] == SEP
  {
    if s[0] == SEP then 0 else 1 + FirstSep(s[1..])
  }

  lemma Regroup(x: string, y: string, z: string)
    ensures (x + [SEP] + y) + [SEP] + z == x + [SEP] + (y + [SEP] + z)
  {
  }

  lemma Halves(s: string)
    requires !Free(s)
    ensures s == s[..FirstSep(s)] + [SEP] + s[FirstSep(s) + 1..] && s != s[..FirstSep(s)] && s != s[FirstSep(s) + 1..]
  {
  }

  lemma ShiftedLooksSame(e: Event)
    requires !FreeFields(e)
    ensures HeadBytes(Shifted(e)) == HeadBytes(e) && !SameFields(e, Shifted(e))
    ensures Shifted(e).prevHash == e.prevHash && Shifted(e).payload == e.payload && Shifted(e).timestamp == e.timestamp
  {
    var last := e.resource + [SEP] + e.timestamp;
    if !Free(e.id) {
      Halves(e.id);
      var k, rest := FirstSep(e.id), e.action + [SEP] + last;
      Regroup(e.id[..k], e.id[k + 1..], e.actor + [SEP] + rest);
      Regroup(e.id[k + 1..], e.actor, rest);
    } else if !Free(e.actor) {
      Halves(e.actor);
      var k := FirstSep(e.actor);
      Regroup(e.actor[..k], e.actor[k + 1..], e.action + [SEP] + last);
      Regroup(e.actor[k + 1..], e.action, last);
    } else if !Free(e.action) {
      Halves(e.action);
      var k := FirstSep(e.action);
      Regroup(e.action[..k], e.action[k + 1..], last);
      Regroup(e.action[k + 1..], e.resource, e.timestamp);
    } else {
      Halves(e.resource);
      var k := FirstSep(e.resource);
      Regroup(e.resource[..k], e.resource[k + 1..], e.timestamp);
      Regroup(e.action, e.resource[..k], e.resource[k + 1..] + [SEP] + e.timestamp);
    }
    hide Free, FirstSep;
  }

  /** The bytes of an event give back its fields exactly when none of them holds the
      separator: then no other event with separator-free timestamp has the same bytes,
      and otherwise one does. */
  lemma FieldsRecoverableExactly(h: Hasher, e: Event)
    requires Canonical(h, e).Some? && FreePayload(h, e) && Free(e.prevHash) && Free(e.timestamp)
    ensures FreeFields(e) <==>
            forall f :: FreePayload(h, f) && Free(f.prevHash) && Free(f.timestamp) ==> !Confusable(h, e, f)
  {
    if FreeFields(e) {
      forall f | FreePayload(h, f) && Free(f.prevHash) && Free(f.timestamp) ensures !Confusable(h, e, f) {
        if Canonical(h, e) == Canonical(h, f) {
          BytesGivePrev(h, e, f);
          FreeHeadGivesFields(e, f);
        }
      }
    } else {
      ShiftedLooksSame(e);
      var f := Shifted(e);
      hide Shifted, HeadBytes, SameFields;
      assert Confusable(h, e, f) && FreePayload(h, f);
    }
  }

  function Seps(s: string): nat {
    if s == "" then 0 else (if s[0] == SEP then 1 else 0) + Seps(s[1..])
  }

  lemma {:induction false} SepsAdd(s: string, t: string)
    ensures Seps(s + t) == Seps(s) + Seps(t)
  {
    if s == "" {
      assert s + t == t;
    } else {
      SepsAdd(s[1..], t);
      assert (s + t)[1..] == s[1..] + t;
    }
  }

  lemma {:induction false} SepsFree(s: string)
    ensures Seps(s) == 0 <==> Free(s)
  {
    if s != "" {
      SepsFree(s[1..]);
      assert s == [s[0]] + s[1..];
    }
  }

  lemma SepsOfHead(e: Event)
    ensures Seps(HeadBytes(e)) == 4 + Seps(e.id) + Seps(e.actor) + Seps(e.action) + Seps(e.resource) + Seps(e.timestamp)
  {
    var r := e.resource + [SEP] + e.timestamp;
    var a := e.action + [SEP] + r;
    var b := e.actor + [SEP] + a;
    assert Seps([SEP]) == 1;
    SepsOfPair(e.resource, e.timestamp);
    SepsOfPair(e.action, r);
    SepsOfPair(e.actor, a);
    SepsOfPair(e.id, b);
  }

  lemma SepsOfPair(s: string, t: string)
    ensures Seps(s + [SEP] + t) == Seps(s) + 1 + Seps(t)
  {
    SepsAdd(s + [SEP], t);
    SepsAdd(s, [SEP]);
    assert Seps([SEP]) == 1 + Seps([SEP][1..]);
  }

  lemma FreeHeadGivesFields(e: Event, f: Event)
    requires FreeFields(e) && Free(e.timestamp) && HeadBytes(e) == HeadBytes(f)
    ensures SameFields(e, f)
  {
    SepsOfHead(e);
    SepsOfHead(f);
    SepsFree(e.id); SepsFree(e.actor); SepsFree(e.action); SepsFree(e.resource); SepsFree(e.timestamp);
    SepsFree(f.id); SepsFree(f.actor); SepsFree(f.action); SepsFree(f.resource); SepsFree(f.timestamp);
    HeadGivesFields(e, f);
  }

  // ----- from the tail to the fields -----

  lemma {:induction false} RowFitsAt(h: Hasher, events: seq<Event>, i: nat)
    requires Chained(h, events) && i < |events|
    ensures Fits(h, Tail(events[..i]), events[i]) && Chained(h, events[..i])
    decreases |events|
  {
    if i < |events| - 1 {
      RowFitsAt(h, events[..|events| - 1], i);
      assert events[..|events| - 1][..i] == events[..i];
    }
  }

  /** Two chains that verify and end in the same SelfHash, one of them with separator-free
      fields and timestamps, have the same length and agree row by row on all fields, on both
      hashes and on the payload bytes. */
  lemma TailDeterminesRows(h: Hasher, rows: set<Event>, c: seq<Event>, d: seq<Event>)
    requires h.Valid() && Chained(h, c) && Chained(h, d) && Tail(c) == Tail(d)
    requires From(c, rows) && From(d, rows) && CollisionFree(h, rows) && forall e :: e in rows ==> FreePayload(h, e)
    requires forall e :: e in c ==> FreeFields(e) && Free(e.timestamp)
    ensures |c| == |d|
    ensures forall i :: 0 <= i < |c| ==>
              && SameFields(c[i], d[i]) && c[i].prevHash == d[i].prevHash && c[i].selfHash == d[i].selfHash
              && PayloadBytes(h, c[i].payload) == PayloadBytes(h, d[i].payload)
  {
    TailDeterminesHistory(h, rows, c, d);
    forall i | 0 <= i < |c|
      ensures SameFields(c[i], d[i]) && c[i].prevHash == d[i].prevHash && c[i].selfHash == d[i].selfHash
      ensures PayloadBytes(h, c[i].payload) == PayloadBytes(h, d[i].payload)
    {
      assert c[i] in c && c[i] in rows && d[i] in d && d[i] in rows;
      RowFitsAt(h, c, i);
      RowFitsAt(h, d, i);
      TailIsFree(h, c[..i]);
      TailIsFree(h, d[..i]);
      BytesGivePrev(h, c[i], d[i]);
      FreeHeadGivesFields(c[i], d[i]);
    }
  }
}
