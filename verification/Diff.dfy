/** The line diff of the edit preview: a longest-common-subsequence table with traceback,
    and the positional fallback for large inputs. */
module Diff {
  import opened Sequences

  datatype Op = Keep(text: string) | Remove(text: string) | Add(text: string)

  const TABLE_LIMIT: nat := 40000

  // ----- what a script means -----

  datatype Side = Old | New | Both

  /** The line an op shows on a side: the old one has those kept and removed, the new one
      those kept and added, and both have those kept. */
  function Line(op: Op, side: Side): seq<string> {
    if op.Keep? || (op.Remove? && side == Old) || (op.Add? && side == New) then [op.text] else []
  }

  function Lines(ops: seq<Op>, side: Side): seq<string> {
    if ops == [] then [] else Line(ops[0], side) + Lines(ops[1..], side)
  }

  function Olds(ops: seq<Op>): seq<string> {
    Lines(ops, Old)
  }

  function News(ops: seq<Op>): seq<string> {
    Lines(ops, New)
  }

  function Kept(ops: seq<Op>): seq<string> {
    Lines(ops, Both)
  }

  /** The number of added plus removed lines. */
  function Changes(ops: seq<Op>): nat {
    if ops == [] then 0 else (if ops[0].Keep? then 0 else 1) + Changes(ops[1..])
  }

  predicate IsScript(ops: seq<Op>, a: seq<string>, b: seq<string>) {
    Olds(ops) == a && News(ops) == b
  }

  predicate Subsequence(s: seq<string>, t: seq<string>) {
    s == [] || (t != [] && ((s[0] == t[0] && Subsequence(s[1..], t[1..])) || Subsequence(s, t[1..])))
  }

  predicate Common(s: seq<string>, a: seq<string>, b: seq<string>) {
    Subsequence(s, a) && Subsequence(s, b)
  }

  // ----- the table -----

  function Lcs(a: seq<string>, b: seq<string>): nat
    decreases |a| + |b|
  {
    if a == [] || b == [] then 0
    else if a[0] == b[0] then 1 + Lcs(a[1..], b[1..])
    else if Lcs(a[1..], b) >= Lcs(a, b[1..]) then Lcs(a[1..], b)
    else Lcs(a, b[1..])
  }

  lemma LcsStep(a: seq<string>, b: seq<string>, i: nat, j: nat)
    requires i < |a| && j < |b|
    ensures Lcs(a[i..], b[j..]) ==
            if a[i] == b[j] then 1 + Lcs(a[i + 1..], b[j + 1..])
            else if Lcs(a[i + 1..], b[j..]) >= Lcs(a[i..], b[j + 1..]) then Lcs(a[i + 1..], b[j..])
            else Lcs(a[i..], b[j + 1..])
  {
    assert a[i..][1..] == a[i + 1..] && b[j..][1..] == b[j + 1..];
  }

  lemma LcsAtEnd(a: seq<string>, b: seq<string>)
    ensures forall i, j :: 0 <= i <= |a| && 0 <= j <= |b| && (i == |a| || j == |b|) ==> Lcs(a[i..], b[j..]) == 0
  {
  }

  method FillTable(a: seq<string>, b: seq<string>) returns (dp: array2<nat>)
    ensures dp.Length0 == |a| + 1 && dp.Length1 == |b| + 1
    ensures forall i, j :: 0 <= i <= |a| && 0 <= j <= |b| ==> dp[i, j] == Lcs(a[i..], b[j..])
  {
    LcsAtEnd(a, b);
    hide Lcs;
    var n, m := |a|, |b|;
    dp := new nat[n + 1, m + 1]((_, _) => 0);
    var i: int := n - 1;
    while i >= 0
      invariant -1 <= i < n
      invariant forall k, j :: i < k <= n && 0 <= j <= m ==> dp[k, j] == Lcs(a[k..], b[j..])
      invariant forall k :: 0 <= k <= n ==> dp[k, m] == 0
      decreases i
    {
      var j: int := m - 1;
      while j >= 0
        invariant -1 <= j < m
        invariant forall k, l :: i < k <= n && 0 <= l <= m ==> dp[k, l] == Lcs(a[k..], b[l..])
        invariant forall l :: j < l <= m ==> dp[i, l] == Lcs(a[i..], b[l..])
        invariant forall k :: 0 <= k <= n ==> dp[k, m] == 0
        decreases j
      {
        LcsStep(a, b, i, j);
        if a[i] == b[j] {
          dp[i, j] := dp[i + 1, j + 1] + 1;
        } else if dp[i + 1, j] >= dp[i, j + 1] {
          dp[i, j] := dp[i + 1, j];
        } else {
          dp[i, j] := dp[i, j + 1];
        }
        j := j - 1;
      }
      i := i - 1;
    }
  }

  /** The script the traceback reads off the table: of two equally good steps, the removal. */
  function Trace(a: seq<string>, b: seq<string>): seq<Op>
    decreases |a| + |b|
  {
    if a == [] && b == [] then []
    else if a == [] then [Add(b[0])] + Trace(a, b[1..])
    else if b == [] then [Remove(a[0])] + Trace(a[1..], b)
    else if a[0] == b[0] then [Keep(a[0])] + Trace(a[1..], b[1..])
    else if Lcs(a[1..], b) >= Lcs(a, b[1..]) then [Remove(a[0])] + Trace(a[1..], b)
    else [Add(b[0])] + Trace(a, b[1..])
  }

  lemma TraceStep(ops: seq<Op>, a: seq<string>, b: seq<string>, i: nat, j: nat)
    requires i <= |a| && j <= |b|
    ensures i < |a| && j < |b| && a[i] == b[j] ==>
              ops + Trace(a[i..], b[j..]) == ops + [Keep(a[i])] + Trace(a[i + 1..], b[j + 1..])
    ensures i < |a| && (j < |b| ==> a[i] != b[j] && Lcs(a[i + 1..], b[j..]) >= Lcs(a[i..], b[j + 1..])) ==>
              ops + Trace(a[i..], b[j..]) == ops + [Remove(a[i])] + Trace(a[i + 1..], b[j..])
    ensures j < |b| && (i < |a| ==> a[i] != b[j] && Lcs(a[i + 1..], b[j..]) < Lcs(a[i..], b[j + 1..])) ==>
              ops + Trace(a[i..], b[j..]) == ops + [Add(b[j])] + Trace(a[i..], b[j + 1..])
  {
    assert i < |a| ==> a[i..][1..] == a[i + 1..];
    assert j < |b| ==> b[j..][1..] == b[j + 1..];
  }

  method TraceBack(a: seq<string>, b: seq<string>, dp: array2<nat>) returns (ops: seq<Op>)
    requires dp.Length0 == |a| + 1 && dp.Length1 == |b| + 1
    requires forall i, j :: 0 <= i <= |a| && 0 <= j <= |b| ==> dp[i, j] == Lcs(a[i..], b[j..])
    ensures ops == Trace(a, b)
  {
    hide Lcs, Trace;
    ops := [];
    var i, j := 0, 0;
    assert a[0..] == a && b[0..] == b;
    while i < |a| && j < |b|
      invariant i <= |a| && j <= |b|
      invariant ops + Trace(a[i..], b[j..]) == Trace(a, b)
      decreases |a| - i + |b| - j
    {
      TraceStep(ops, a, b, i, j);
      if a[i] == b[j] {
        ops := ops + [Keep(a[i])];
        i, j := i + 1, j + 1;
      } else if dp[i + 1, j] >= dp[i, j + 1] {
        ops := ops + [Remove(a[i])];
        i := i + 1;
      } else {
        ops := ops + [Add(b[j])];
        j := j + 1;
      }
    }
    while i < |a|
      invariant i <= |a| && j <= |b| && (i == |a| || j == |b|)
      invariant ops + Trace(a[i..], b[j..]) == Trace(a, b)
    {
      TraceStep(ops, a, b, i, j);
      ops := ops + [Remove(a[i])];
      i := i + 1;
    }
    while j < |b|
      invariant i == |a| && j <= |b|
      invariant ops + Trace(a[i..], b[j..]) == Trace(a, b)
    {
      TraceStep(ops, a, b, i, j);
      ops := ops + [Add(b[j])];
      j := j + 1;
    }
    TraceDone(a[i..], b[j..]);
  }

  lemma TraceDone(a: seq<string>, b: seq<string>)
    requires a == [] && b == []
    ensures Trace(a, b) == []
  {
  }

  // ----- the fallback -----

  function Rest(s: seq<string>): seq<string> {
    if s == [] then [] else s[1..]
  }

  /** Line `i` of the old text against line `i` of the new one. */
  function Paired(a: seq<string>, b: seq<string>): seq<Op>
    decreases |a| + |b|
  {
    if a == [] && b == [] then []
    else PairedHead(a, b) + Paired(Rest(a), Rest(b))
  }

  function PairedHead(a: seq<string>, b: seq<string>): seq<Op> {
    if a != [] && b != [] && a[0] == b[0] then [Keep(a[0])]
    else (if a != [] then [Remove(a[0])] else []) + if b != [] then [Add(b[0])] else []
  }

  function From(s: seq<string>, i: nat): seq<string> {
    if i <= |s| then s[i..] else []
  }

  lemma PairedStep(ops: seq<Op>, a: seq<string>, b: seq<string>, i: nat)
    requires i < |a| || i < |b|
    ensures ops + Paired(From(a, i), From(b, i)) ==
            ops + PairedHead(From(a, i), From(b, i)) + Paired(From(a, i + 1), From(b, i + 1))
  {
    var head, tail := PairedHead(From(a, i), From(b, i)), Paired(From(a, i + 1), From(b, i + 1));
    assert Rest(From(a, i)) == From(a, i + 1) && Rest(From(b, i)) == From(b, i + 1);
    assert Paired(From(a, i), From(b, i)) == head + tail;
    hide Paired, PairedHead;
    Regroup(ops, head, tail);
  }

  method AppendPair(ops: seq<Op>, a: seq<string>, b: seq<string>, i: nat) returns (r: seq<Op>)
    ensures r == ops + PairedHead(From(a, i), From(b, i))
  {
    r := ops;
    var hasOld, hasNew := i < |a|, i < |b|;
    if hasOld && hasNew && a[i] == b[i] {
      r := r + [Keep(a[i])];
    } else {
      if hasOld { r := r + [Remove(a[i])]; }
      if hasNew { r := r + [Add(b[i])]; }
    }
  }

  method FallbackDiffLines(a: seq<string>, b: seq<string>) returns (ops: seq<Op>)
    ensures ops == Paired(a, b)
  {
    var limit := if |b| > |a| then |b| else |a|;
    assert Paired(From(a, limit), From(b, limit)) == [];
    assert From(a, 0) == a && From(b, 0) == b;
    hide Paired, PairedHead, From;
    ops := [];
    for i := 0 to limit
      invariant ops + Paired(From(a, i), From(b, i)) == Paired(a, b)
    {
      PairedStep(ops, a, b, i);
      ops := AppendPair(ops, a, b, i);
    }
  }

  method DiffLines(a: seq<string>, b: seq<string>) returns (ops: seq<Op>)
    ensures ops == if |a| * |b| > TABLE_LIMIT then Paired(a, b) else Trace(a, b)
    ensures IsScript(ops, a, b)
    ensures |a| * |b| <= 40000 ==> forall other :: IsScript(other, a, b) ==> Changes(ops) <= Changes(other)
    ensures |a| * |b| > 40000 ==> Kept(ops) == InPlace(a, b)
  {
    TraceRebuilds(a, b);
    TraceIsMinimal(a, b);
    PairedRebuilds(a, b);
    PairedKeepsInPlace(a, b);
    if |a| == 0 && |b| == 0 {
      return [];
    }
    if |a| * |b| > TABLE_LIMIT {
      ops := FallbackDiffLines(a, b);
    } else {
      var dp := FillTable(a, b);
      ops := TraceBack(a, b, dp);
    }
  }

  method CountDiffOps(ops: seq<Op>) returns (added: nat, removed: nat)
    ensures added == |News(ops)| - |Kept(ops)| && removed == |Olds(ops)| - |Kept(ops)|
    ensures added + removed == Changes(ops)
  {
    hide Lines, Changes;
    added, removed := 0, 0;
    NoOps(Old);
    NoOps(New);
    NoOps(Both);
    for i := 0 to |ops|
      invariant added + |Kept(ops[..i])| == |News(ops[..i])| && removed + |Kept(ops[..i])| == |Olds(ops[..i])|
      invariant added + removed == Changes(ops[..i])
    {
      Appended(ops[..i], ops[i], Old);
      Appended(ops[..i], ops[i], New);
      Appended(ops[..i], ops[i], Both);
      assert ops[..i + 1] == ops[..i] + [ops[i]];
      match ops[i] {
        case Add(_) => added := added + 1;
        case Remove(_) => removed := removed + 1;
        case Keep(_) =>
      }
    }
    assert ops[..|ops|] == ops;
  }

  // ----- scripts in pieces -----

  lemma NoOps(side: Side)
    ensures Lines([], side) == [] && Changes([]) == 0
  {
  }

  lemma Headed(p: seq<Op>, side: Side)
    requires p != []
    ensures Lines(p, side) == Line(p[0], side) + Lines(p[1..], side)
    ensures Changes(p) == (if p[0].Keep? then 0 else 1) + Changes(p[1..])
  {
  }

  lemma {:induction false} Joined(p: seq<Op>, q: seq<Op>, side: Side)
    ensures Lines(p + q, side) == Lines(p, side) + Lines(q, side)
    ensures Changes(p + q) == Changes(p) + Changes(q)
  {
    if p == [] {
      assert p + q == q;
      assert Lines(p, side) + Lines(q, side) == Lines(q, side);
    } else {
      hide Line, Lines, Changes;
      var rest := p[1..];
      assert (p + q)[0] == p[0] && (p + q)[1..] == rest + q;
      Headed(p, side);
      Headed(p + q, side);
      Joined(rest, q, side);
      Regroup(Line(p[0], side), Lines(rest, side), Lines(q, side));
    }
  }

  lemma Appended(p: seq<Op>, op: Op, side: Side)
    ensures Lines(p + [op], side) == Lines(p, side) + Line(op, side)
    ensures Changes(p + [op]) == Changes(p) + (if op.Keep? then 0 else 1)
  {
    Joined(p, [op], side);
  }

  // ----- both branches rebuild both files -----

  lemma {:induction false} TraceRebuilds(a: seq<string>, b: seq<string>)
    ensures IsScript(Trace(a, b), a, b)
    decreases |a| + |b|
  {
    if a == [] && b == [] {
    } else if a == [] {
      TraceRebuilds(a, b[1..]);
    } else if b == [] {
      TraceRebuilds(a[1..], b);
    } else if a[0] == b[0] {
      TraceRebuilds(a[1..], b[1..]);
    } else if Lcs(a[1..], b) >= Lcs(a, b[1..]) {
      TraceRebuilds(a[1..], b);
    } else {
      TraceRebuilds(a, b[1..]);
    }
  }

  lemma {:induction false} PairedRebuilds(a: seq<string>, b: seq<string>)
    ensures IsScript(Paired(a, b), a, b)
    decreases |a| + |b|
  {
    if a != [] || b != [] {
      PairedRebuilds(Rest(a), Rest(b));
      Joined(PairedHead(a, b), Paired(Rest(a), Rest(b)), Old);
      Joined(PairedHead(a, b), Paired(Rest(a), Rest(b)), New);
      HeadRebuilds(a, b);
    }
  }

  /** The first line of a text, if it has one. */
  function First(s: seq<string>): seq<string> {
    if s == [] then [] else [s[0]]
  }

  lemma Single(op: Op, side: Side)
    ensures Lines([op], side) == Line(op, side)
  {
    Headed([op], side);
  }

  lemma HeadLines(a: seq<string>, b: seq<string>, side: Side)
    requires side != Both
    ensures Lines(PairedHead(a, b), side) == if side == Old then First(a) else First(b)
  {
    hide Lines;
    NoOps(side);
    if a != [] && b != [] && a[0] == b[0] {
      Single(Keep(a[0]), side);
    } else {
      var removed := if a == [] then [] else [Remove(a[0])];
      var added := if b == [] then [] else [Add(b[0])];
      assert PairedHead(a, b) == removed + added;
      Joined(removed, added, side);
      assert Lines(removed, side) == if a == [] then [] else Line(Remove(a[0]), side) by {
        if a != [] { Single(Remove(a[0]), side); }
      }
      assert Lines(added, side) == if b == [] then [] else Line(Add(b[0]), side) by {
        if b != [] { Single(Add(b[0]), side); }
      }
      assert Lines(removed, side) + Lines(added, side) == if side == Old then First(a) else First(b);
    }
  }

  lemma HeadRebuilds(a: seq<string>, b: seq<string>)
    ensures Olds(PairedHead(a, b)) + Rest(a) == a && News(PairedHead(a, b)) + Rest(b) == b
  {
    hide Lines, PairedHead;
    HeadLines(a, b, Old);
    HeadLines(a, b, New);
  }

  /** The lines that stand at the same position in both texts, in order. */
  function InPlace(a: seq<string>, b: seq<string>): seq<string> {
    if a == [] || b == [] then []
    else
      var n := (if |a| <= |b| then |a| else |b|) - 1;
      InPlace(a[..n], b[..n]) + if a[n] == b[n] then [a[n]] else []
  }

  lemma {:induction false} InPlaceFirst(a: seq<string>, b: seq<string>)
    requires a != [] && b != []
    ensures InPlace(a, b) == (if a[0] == b[0] then [a[0]] else []) + InPlace(a[1..], b[1..])
    decreases |a| + |b|
  {
    var n := (if |a| <= |b| then |a| else |b|) - 1;
    if n == 0 {
      assert InPlace(a[..0], b[..0]) == [] && InPlace(a[1..], b[1..]) == [];
    } else {
      InPlaceFirst(a[..n], b[..n]);
      assert a[..n][1..] == a[1..][..n - 1] && b[..n][1..] == b[1..][..n - 1];
      assert InPlace(a[1..], b[1..]) == InPlace(a[1..][..n - 1], b[1..][..n - 1]) + if a[n] == b[n] then [a[n]] else [];
      Regroup(if a[0] == b[0] then [a[0]] else [], InPlace(a[1..][..n - 1], b[1..][..n - 1]),
              if a[n] == b[n] then [a[n]] else []);
    }
  }

  lemma HeadKeeps(a: seq<string>, b: seq<string>)
    requires a != [] || b != []
    ensures Kept(PairedHead(a, b)) == if a != [] && b != [] && a[0] == b[0] then [a[0]] else []
  {
    hide Lines;
    NoOps(Both);
    if a != [] && b != [] && a[0] == b[0] {
      Single(Keep(a[0]), Both);
    } else {
      var removed := if a == [] then [] else [Remove(a[0])];
      var added := if b == [] then [] else [Add(b[0])];
      assert PairedHead(a, b) == removed + added;
      Joined(removed, added, Both);
      if a != [] { Single(Remove(a[0]), Both); }
      if b != [] { Single(Add(b[0]), Both); }
    }
  }

  /** The fallback keeps exactly the lines at equal positions. */
  lemma {:induction false} PairedKeepsInPlace(a: seq<string>, b: seq<string>)
    ensures Kept(Paired(a, b)) == InPlace(a, b)
    decreases |a| + |b|
  {
    if a != [] || b != [] {
      PairedKeepsInPlace(Rest(a), Rest(b));
      Joined(PairedHead(a, b), Paired(Rest(a), Rest(b)), Both);
      HeadKeeps(a, b);
      if a != [] && b != [] {
        InPlaceFirst(a, b);
      }
    } else {
      NoOps(Both);
    }
  }

  // ----- the table branch is minimal -----

  lemma {:induction false} TraceKeepsLcs(a: seq<string>, b: seq<string>)
    ensures |Kept(Trace(a, b))| == Lcs(a, b)
    decreases |a| + |b|
  {
    if a == [] && b == [] {
    } else if a == [] {
      TraceKeepsLcs(a, b[1..]);
    } else if b == [] {
      TraceKeepsLcs(a[1..], b);
    } else if a[0] == b[0] {
      TraceKeepsLcs(a[1..], b[1..]);
    } else if Lcs(a[1..], b) >= Lcs(a, b[1..]) {
      TraceKeepsLcs(a[1..], b);
    } else {
      TraceKeepsLcs(a, b[1..]);
    }
  }

  lemma {:induction false} WithoutFirst(s: seq<string>, t: seq<string>)
    requires s != [] && Subsequence(s, t)
    ensures t != [] && Subsequence(s[1..], t[1..])
    decreases t
  {
    if s[0] == t[0] && Subsequence(s[1..], t[1..]) {
    } else {
      WithoutFirst(s, t[1..]);
      Longer(s[1..], t[1..]);
    }
  }

  lemma Longer(s: seq<string>, t: seq<string>)
    requires t != [] && Subsequence(s, t[1..])
    ensures Subsequence(s, t)
  {
  }

  /** No common subsequence is longer than Lcs. */
  lemma {:induction false} LcsIsLongest(s: seq<string>, a: seq<string>, b: seq<string>)
    requires Common(s, a, b)
    ensures |s| <= Lcs(a, b)
    decreases |a| + |b|
  {
    if s == [] {
    } else if a[0] == b[0] {
      WithoutFirst(s, a);
      WithoutFirst(s, b);
      LcsIsLongest(s[1..], a[1..], b[1..]);
    } else if s[0] != a[0] {
      LcsIsLongest(s, a[1..], b);
    } else {
      LcsIsLongest(s, a, b[1..]);
    }
  }

  lemma LcsMonotone(a: seq<string>, b: seq<string>)
    requires b != []
    ensures Lcs(a, b[1..]) <= Lcs(a, b)
  {
    var kept := Kept(Trace(a, b[1..]));
    TraceKeepsLcs(a, b[1..]);
    TraceRebuilds(a, b[1..]);
    KeptIsCommon(Trace(a, b[1..]));
    Longer(kept, b);
    LcsIsLongest(kept, a, b);
  }

  /** No line is added right before one is removed. */
  predicate RemovesFirst(ops: seq<Op>) {
    forall k :: 0 <= k < |ops| - 1 ==> !(ops[k].Add? && ops[k + 1].Remove?)
  }

  lemma OneInFront(op: Op, ops: seq<Op>)
    requires RemovesFirst(ops) && !(op.Add? && ops != [] && ops[0].Remove?)
    ensures RemovesFirst([op] + ops)
  {
  }

  lemma {:induction false} OnlyAdds(b: seq<string>)
    ensures forall k :: 0 <= k < |Trace([], b)| ==> Trace([], b)[k].Add?
  {
    if b != [] {
      OnlyAdds(b[1..]);
    }
  }

  /** On the table branch removed lines stand in front of added ones. */
  lemma {:induction false} TraceRemovesFirst(a: seq<string>, b: seq<string>)
    ensures RemovesFirst(Trace(a, b))
    decreases |a| + |b|
  {
    hide Lcs, RemovesFirst;
    if a == [] && b == [] {
      NothingToRemove();
    } else if a == [] {
      TraceRemovesFirst(a, b[1..]);
      OnlyAdds(b[1..]);
      OneInFront(Add(b[0]), Trace(a, b[1..]));
    } else if b == [] {
      TraceRemovesFirst(a[1..], b);
      OneInFront(Remove(a[0]), Trace(a[1..], b));
    } else if a[0] == b[0] {
      TraceRemovesFirst(a[1..], b[1..]);
      OneInFront(Keep(a[0]), Trace(a[1..], b[1..]));
    } else if Lcs(a[1..], b) >= Lcs(a, b[1..]) {
      TraceRemovesFirst(a[1..], b);
      OneInFront(Remove(a[0]), Trace(a[1..], b));
    } else {
      TraceRemovesFirst(a, b[1..]);
      AddThenNoRemove(a, b);
      OneInFront(Add(b[0]), Trace(a, b[1..]));
    }
  }

  lemma NothingToRemove()
    ensures RemovesFirst([])
  {
  }

  lemma AddThenNoRemove(a: seq<string>, b: seq<string>)
    requires a != [] && b != [] && Lcs(a[1..], b) < Lcs(a, b[1..])
    ensures var rest := Trace(a, b[1..]); rest != [] && !rest[0].Remove?
  {
    LcsMonotone(a[1..], b);
  }

  lemma Extended(s: seq<string>, t: seq<string>, head: string)
    requires Subsequence(s, t)
    ensures Subsequence(s, [head] + t) && Subsequence([head] + s, [head] + t)
  {
    assert ([head] + t)[1..] == t && ([head] + s)[1..] == s;
  }

  /** What a script keeps is common to both of its files. */
  lemma {:induction false} KeptIsCommon(ops: seq<Op>)
    ensures Common(Kept(ops), Olds(ops), News(ops))
    ensures Changes(ops) == |Olds(ops)| + |News(ops)| - 2 * |Kept(ops)|
  {
    if ops != [] {
      var rest := ops[1..];
      KeptIsCommon(rest);
      Headed(ops, Old);
      Headed(ops, New);
      Headed(ops, Both);
      hide Lines;
      assert [] + Kept(rest) == Kept(rest) && [] + Olds(rest) == Olds(rest) && [] + News(rest) == News(rest);
      Extended(Kept(rest), Olds(rest), ops[0].text);
      Extended(Kept(rest), News(rest), ops[0].text);
    }
  }

  /** On the table branch the kept lines are a longest common subsequence of the two files,
      and no script that turns one into the other adds and removes fewer lines. */
  lemma TraceIsMinimal(a: seq<string>, b: seq<string>)
    ensures Common(Kept(Trace(a, b)), a, b)
    ensures forall s :: Common(s, a, b) ==> |s| <= |Kept(Trace(a, b))|
    ensures forall ops :: IsScript(ops, a, b) ==> Changes(Trace(a, b)) <= Changes(ops)
  {
    TraceRebuilds(a, b);
    TraceKeepsLcs(a, b);
    KeptIsCommon(Trace(a, b));
    forall s | Common(s, a, b) ensures |s| <= Lcs(a, b) {
      LcsIsLongest(s, a, b);
    }
    forall ops | IsScript(ops, a, b) ensures Changes(Trace(a, b)) <= Changes(ops) {
      KeptIsCommon(ops);
      LcsIsLongest(Kept(ops), a, b);
    }
  }
}
