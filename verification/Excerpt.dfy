/** The excerpt of a diff that the preview shows, with its hunk header. */
module Excerpt {
  import opened Diff
  import opened Sequences

  /** A shown line: its number and the op, whose kind decides the mark between them. */
  datatype Shown = Shown(number: nat, op: Op)

  datatype Hunk = Hunk(lines: seq<Shown>, truncated: bool, oldStart: nat, oldCount: nat, newStart: nat, newCount: nat)

  predicate Unchanged(ops: seq<Op>) {
    forall op :: op in ops ==> op.Keep?
  }

  /** The shown ops: from the line before the first change, `limit` of them, or one more if
      the window would end in a change. */
  ghost predicate IsWindow(ops: seq<Op>, limit: nat, start: nat, end: nat) {
    && 0 < limit && start < end <= |ops|
    && Unchanged(ops[..start])
    && ((start == 0 && !ops[0].Keep?) || (start + 1 < |ops| && ops[start].Keep? && !ops[start + 1].Keep?))
    && (if start + limit >= |ops| then end == |ops|
        else if ops[start + limit - 1].Keep? then end == start + limit
        else end == start + limit + 1)
  }

  function NumberOf(ops: seq<Op>, k: nat): nat
    requires k < |ops|
  {
    (if ops[k].Remove? then |Olds(ops[..k])| else |News(ops[..k])|) + 1
  }

  /** The hunk that shows ops[start..end]. */
  predicate Shows(hunk: Hunk, ops: seq<Op>, start: nat, end: nat)
    requires start <= end <= |ops|
  {
    && |hunk.lines| == end - start
    && (forall k :: 0 <= k < |hunk.lines| ==> hunk.lines[k] == Shown(NumberOf(ops, start + k), ops[start + k]))
    && hunk.oldStart == |Olds(ops[..start])| + 1 && hunk.oldCount == |Olds(ops[start..end])|
    && hunk.newStart == |News(ops[..start])| + 1 && hunk.newCount == |News(ops[start..end])|
    && (hunk.truncated <==> !Unchanged(ops[end..]))
  }

  lemma PrefixGrows(ops: seq<Op>, k: nat, side: Side)
    requires k < |ops|
    ensures Lines(ops[..k + 1], side) == Lines(ops[..k], side) + Line(ops[k], side)
  {
    assert ops[..k + 1] == ops[..k] + [ops[k]];
    Appended(ops[..k], ops[k], side);
  }

  lemma SliceGrows(ops: seq<Op>, start: nat, k: nat, side: Side)
    requires start <= k < |ops|
    ensures Lines(ops[start..k + 1], side) == Lines(ops[start..k], side) + Line(ops[k], side)
  {
    assert ops[start..k + 1] == ops[start..k] + [ops[k]];
    Appended(ops[start..k], ops[k], side);
  }

  method FindWindow(ops: seq<Op>, limit: nat) returns (start: nat, end: nat)
    requires limit > 0 && !Unchanged(ops)
    ensures IsWindow(ops, limit, start, end)
  {
    var firstDiff := 0;
    while firstDiff < |ops| && ops[firstDiff].Keep?
      invariant 0 <= firstDiff <= |ops| && Unchanged(ops[..firstDiff])
    {
      firstDiff := firstDiff + 1;
    }
    assert ops[..|ops|] == ops;
    start := firstDiff;
    if start > 0 {
      start := start - 1;
    }
    assert start <= firstDiff && forall op :: op in ops[..start] ==> op in ops[..firstDiff];
    assert start < firstDiff ==> ops[start] in ops[..firstDiff];
    end := start + limit;
    if end > |ops| {
      end := |ops|;
    }
    if end < |ops| && !ops[end - 1].Keep? {
      end := end + 1;
    }
  }

  /** The line numbers at which the shown part starts in the two files. */
  method StartLines(ops: seq<Op>, start: nat) returns (oldLine: nat, newLine: nat)
    requires start <= |ops|
    ensures oldLine == |Olds(ops[..start])| + 1 && newLine == |News(ops[..start])| + 1
  {
    oldLine, newLine := 1, 1;
    for k := 0 to start
      invariant oldLine == |Olds(ops[..k])| + 1 && newLine == |News(ops[..k])| + 1
    {
      PrefixGrows(ops, k, Old);
      PrefixGrows(ops, k, New);
      match ops[k] {
        case Keep(_) => oldLine, newLine := oldLine + 1, newLine + 1;
        case Remove(_) => oldLine := oldLine + 1;
        case Add(_) => newLine := newLine + 1;
      }
    }
  }

  method ShowLines(ops: seq<Op>, start: nat, end: nat, firstOld: nat, firstNew: nat)
    returns (lines: seq<Shown>, oldCount: nat, newCount: nat)
    requires start <= end <= |ops|
    requires firstOld == |Olds(ops[..start])| + 1 && firstNew == |News(ops[..start])| + 1
    ensures |lines| == end - start && oldCount == |Olds(ops[start..end])| && newCount == |News(ops[start..end])|
    ensures forall k :: 0 <= k < |lines| ==> lines[k] == Shown(NumberOf(ops, start + k), ops[start + k])
  {
    hide Lines;
    var oldLine, newLine := firstOld, firstNew;
    lines, oldCount, newCount := [], 0, 0;
    assert ops[start..start] == [] && Lines([], Old) == [] && Lines([], New) == [] by { NoOps(Old); NoOps(New); }
    for k := start to end
      invariant |lines| == k - start
      invariant oldLine == |Olds(ops[..k])| + 1 && newLine == |News(ops[..k])| + 1
      invariant oldCount == |Olds(ops[start..k])| && newCount == |News(ops[start..k])|
      invariant forall l :: 0 <= l < |lines| ==> lines[l] == Shown(NumberOf(ops, start + l), ops[start + l])
    {
      PrefixGrows(ops, k, Old);
      PrefixGrows(ops, k, New);
      SliceGrows(ops, start, k, Old);
      SliceGrows(ops, start, k, New);
      match ops[k] {
        case Keep(_) =>
          lines := lines + [Shown(newLine, ops[k])];
          oldLine, newLine := oldLine + 1, newLine + 1;
          oldCount, newCount := oldCount + 1, newCount + 1;
        case Remove(_) =>
          lines := lines + [Shown(oldLine, ops[k])];
          oldLine, oldCount := oldLine + 1, oldCount + 1;
        case Add(_) =>
          lines := lines + [Shown(newLine, ops[k])];
          newLine, newCount := newLine + 1, newCount + 1;
      }
    }
  }

  method HasChange(ops: seq<Op>) returns (r: bool)
    ensures r <==> !Unchanged(ops)
  {
    for i := 0 to |ops|
      invariant Unchanged(ops[..i])
    {
      if !ops[i].Keep? {
        assert ops[i] in ops;
        return true;
      }
    }
    assert ops[..|ops|] == ops;
    r := false;
  }

  /** excerptDiffOps: nothing to show without room, ops or changes; otherwise the hunk of the
      window around the first change. */
  method ExcerptDiffOps(ops: seq<Op>, maxLines: int) returns (hunk: Hunk)
    ensures maxLines <= 0 || ops == [] ==> hunk == Hunk([], ops != [], 0, 0, 0, 0)
    ensures maxLines > 0 && Unchanged(ops) ==> hunk == Hunk([], false, 0, 0, 0, 0)
    ensures maxLines > 0 && !Unchanged(ops) ==>
            exists start, end :: IsWindow(ops, maxLines, start, end) && Shows(hunk, ops, start, end)
  {
    if maxLines <= 0 || |ops| == 0 {
      return Hunk([], |ops| > 0, 0, 0, 0, 0);
    }
    var changed := HasChange(ops);
    if !changed {
      return Hunk([], false, 0, 0, 0, 0);
    }
    var start, end := FindWindow(ops, maxLines);
    var oldStart, newStart := StartLines(ops, start);
    var lines, oldCount, newCount := ShowLines(ops, start, end, oldStart, newStart);
    var truncated := HasChange(ops[end..]);
    hunk := Hunk(lines, truncated, oldStart, oldCount, newStart, newCount);
  }

  // ----- what the header means -----

  lemma SliceOf(ops: seq<Op>, start: nat, end: nat, side: Side)
    requires start <= end <= |ops|
    ensures var from := |Lines(ops[..start], side)|;
            from + |Lines(ops[start..end], side)| <= |Lines(ops, side)|
            && Lines(ops, side)[from..from + |Lines(ops[start..end], side)|] == Lines(ops[start..end], side)
  {
    hide Lines, Changes;
    Pieces(ops, start, end);
    Joined(ops[..start] + ops[start..end], ops[end..], side);
    Joined(ops[..start], ops[start..end], side);
  }

  lemma LineAt(ops: seq<Op>, k: nat, side: Side)
    requires k < |ops| && Line(ops[k], side) == [ops[k].text]
    ensures |Lines(ops[..k], side)| < |Lines(ops, side)| && Lines(ops, side)[|Lines(ops[..k], side)|] == ops[k].text
  {
    SliceOf(ops, k, k + 1, side);
    PrefixGrows(ops, k, side);
    assert ops[k..k + 1] == [ops[k]];
    Headed([ops[k]], side);
    hide Line;
    var from := |Lines(ops[..k], side)|;
    assert Lines(ops[k..k + 1], side) == [ops[k].text];
    hide Lines;
    assert Lines(ops, side)[from] == Lines(ops, side)[from..from + 1][0];
  }

  /** The shown ops of a hunk. */
  function ShownOps(hunk: Hunk): seq<Op> {
    seq(|hunk.lines|, k requires 0 <= k < |hunk.lines| => hunk.lines[k].op)
  }

  /** For every op list with a change and every positive limit: the starts and counts of the
      header cut exactly the shown lines out of the two files, every shown line stands at its
      number in its file, at most limit + 1 lines are shown, and nothing is cut off exactly
      when every change is shown. With room for one line only, that line is the context
      before the first change if there is any, so the excerpt then shows no change. */
  lemma HunkIsExact(ops: seq<Op>, limit: nat, start: nat, end: nat, hunk: Hunk)
    requires limit > 0 && IsWindow(ops, limit, start, end) && Shows(hunk, ops, start, end)
    ensures ShownOps(hunk) == ops[start..end] && 0 < |hunk.lines| <= limit + 1
    ensures hunk.oldStart - 1 + hunk.oldCount <= |Olds(ops)|
            && Olds(ops)[hunk.oldStart - 1..hunk.oldStart - 1 + hunk.oldCount] == Olds(ShownOps(hunk))
    ensures hunk.newStart - 1 + hunk.newCount <= |News(ops)|
            && News(ops)[hunk.newStart - 1..hunk.newStart - 1 + hunk.newCount] == News(ShownOps(hunk))
    ensures forall line :: line in hunk.lines ==>
              var file := if line.op.Remove? then Olds(ops) else News(ops);
              0 < line.number <= |file| && file[line.number - 1] == line.op.text
    ensures !hunk.truncated <==> Changes(ShownOps(hunk)) == Changes(ops)
    ensures Changes(ShownOps(hunk)) > 0 <==> limit > 1 || !ops[0].Keep?
  {
    hide Lines, Changes, Unchanged;
    assert ShownOps(hunk) == ops[start..end];
    SliceOf(ops, start, end, Old);
    SliceOf(ops, start, end, New);
    NumbersPoint(ops, start, end, hunk);
    ChangesLeftOut(ops, start, end);
    ChangeShown(ops, limit, start, end);
  }

  lemma NumbersPoint(ops: seq<Op>, start: nat, end: nat, hunk: Hunk)
    requires start <= end <= |ops| && Shows(hunk, ops, start, end)
    ensures forall line :: line in hunk.lines ==>
              var file := if line.op.Remove? then Olds(ops) else News(ops);
              0 < line.number <= |file| && file[line.number - 1] == line.op.text
  {
    hide Lines;
    forall line | line in hunk.lines
      ensures var file := if line.op.Remove? then Olds(ops) else News(ops);
              0 < line.number <= |file| && file[line.number - 1] == line.op.text
    {
      var k :| 0 <= k < |hunk.lines| && hunk.lines[k] == line;
      LineAt(ops, start + k, if line.op.Remove? then Old else New);
    }
  }

  /** The window shows a change, except when its one line is the context line. */
  lemma ChangeShown(ops: seq<Op>, limit: nat, start: nat, end: nat)
    requires IsWindow(ops, limit, start, end)
    ensures Changes(ops[start..end]) > 0 <==> limit > 1 || !ops[0].Keep?
  {
    NoChanges(ops[start..end]);
    hide Changes;
    if limit > 1 || !ops[0].Keep? {
      var first := if ops[start].Keep? then start + 1 else start;
      assert ops[start..end][first - start] == ops[first];
    }
  }

  lemma {:induction false} NoChanges(ops: seq<Op>)
    ensures Unchanged(ops) <==> Changes(ops) == 0
  {
    if ops != [] {
      NoChanges(ops[1..]);
      assert ops == [ops[0]] + ops[1..];
    }
  }

  lemma ChangesLeftOut(ops: seq<Op>, start: nat, end: nat)
    requires start <= end <= |ops| && Unchanged(ops[..start])
    ensures Changes(ops) == Changes(ops[start..end]) + Changes(ops[end..])
    ensures Unchanged(ops[end..]) <==> Changes(ops[start..end]) == Changes(ops)
  {
    hide Changes, Lines, Unchanged;
    Pieces(ops, start, end);
    Joined(ops[..start] + ops[start..end], ops[end..], Both);
    Joined(ops[..start], ops[start..end], Both);
    NoChanges(ops[..start]);
    NoChanges(ops[end..]);
  }
}
