/** The stuck-loop detector (loop/mem_loop_detector.go, loop/loop_detector.go). */
module LoopDetector {
  import opened Options

  datatype EventKind = ToolCallEvent | ContentEvent | LLMCallEvent | OtherEvent

  datatype LoopEvent = LoopEvent(kind: EventKind, toolName: string, contentHash: string)

  datatype Verdict = Clean | RepeatedToolCall | NoProgressTurn | ThoughtExplosion

  /** runLoopState: the counters kept for one run. */
  datatype LoopState = LoopState(lastSig: string, repeatCount: nat,
                                 lastHash: string, noProgress: nat, thoughtOnly: nat)

  const FRESH := LoopState("", 0, "", 0, 0)

  /** A threshold that is not positive switches its pattern off. */
  datatype Thresholds = Thresholds(repeated: int, noProgress: int, thoughtOnly: int)

  const DEFAULTS := Thresholds(3, 5, 3)

  function Signature(ev: LoopEvent): string {
    ev.toolName + "|" + ev.contentHash
  }

  predicate Tripped(threshold: int, count: nat) {
    threshold > 0 && count >= threshold
  }

  /** bumpNoProgress. */
  function BumpNoProgress(s: LoopState, hash: string): LoopState {
    if hash == "" then s
    else if hash == s.lastHash then s.(noProgress := s.noProgress + 1)
    else s.(lastHash := hash, noProgress := 1)
  }

  /** The counters after one event. */
  function Count(s: LoopState, ev: LoopEvent): LoopState {
    match ev.kind
    case ToolCallEvent =>
      var sig := Signature(ev);
      var counted := if sig == s.lastSig && sig != "" then s.(repeatCount := s.repeatCount + 1)
                     else s.(lastSig := sig, repeatCount := 1);
      BumpNoProgress(counted.(thoughtOnly := 0), ev.contentHash)
    case ContentEvent =>
      BumpNoProgress(s.(thoughtOnly := s.thoughtOnly + 1, lastSig := "", repeatCount := 0), ev.contentHash)
    case LLMCallEvent => s
    case OtherEvent => s
  }

  /** The verdict on an event, from the counters after it. */
  function Judge(th: Thresholds, s: LoopState, ev: LoopEvent): Verdict {
    match ev.kind
    case ToolCallEvent =>
      if Tripped(th.repeated, s.repeatCount) then RepeatedToolCall
      else if Tripped(th.noProgress, s.noProgress) then NoProgressTurn
      else Clean
    case ContentEvent =>
      if Tripped(th.thoughtOnly, s.thoughtOnly) then ThoughtExplosion
      else if Tripped(th.noProgress, s.noProgress) then NoProgressTurn
      else Clean
    case LLMCallEvent => Clean
    case OtherEvent => Clean
  }

  function StateOf(states: map<string, LoopState>, runId: string): LoopState {
    if runId in states then states[runId] else FRESH
  }

  function Observed(states: map<string, LoopState>, runId: string, ev: LoopEvent): map<string, LoopState> {
    states[runId := Count(StateOf(states, runId), ev)]
  }

  class MemLoopDetector {
    var thresholds: Thresholds
    var states: map<string, LoopState>

    constructor ()
      ensures thresholds == DEFAULTS && states == map[]
    {
      thresholds, states := DEFAULTS, map[];
    }

    /** Observe; None when the context is already done. */
    method Observe(ctxDone: bool, runId: string, ev: LoopEvent) returns (r: Option<Verdict>)
      modifies this`states
      ensures ctxDone ==> r == None && states == old(states)
      ensures !ctxDone ==>
                && states == Observed(old(states), runId, ev)
                && r == Some(Judge(thresholds, states[runId], ev))
    {
      if ctxDone { return None; }
      var s := FRESH;
      if runId in states {
        s := states[runId];
      }
      match ev.kind {
        case ToolCallEvent =>
          var sig := ev.toolName + "|" + ev.contentHash;
          if sig == s.lastSig && sig != "" {
            s := s.(repeatCount := s.repeatCount + 1);
          } else {
            s := s.(lastSig := sig, repeatCount := 1);
          }
          s := s.(thoughtOnly := 0);
          s := BumpNoProgress(s, ev.contentHash);
          states := states[runId := s];
          if thresholds.repeated > 0 && s.repeatCount >= thresholds.repeated { return Some(RepeatedToolCall); }
          if thresholds.noProgress > 0 && s.noProgress >= thresholds.noProgress { return Some(NoProgressTurn); }
        case ContentEvent =>
          s := s.(thoughtOnly := s.thoughtOnly + 1);
          s := s.(lastSig := "", repeatCount := 0);
          s := BumpNoProgress(s, ev.contentHash);
          states := states[runId := s];
          if thresholds.thoughtOnly > 0 && s.thoughtOnly >= thresholds.thoughtOnly { return Some(ThoughtExplosion); }
          if thresholds.noProgress > 0 && s.noProgress >= thresholds.noProgress { return Some(NoProgressTurn); }
        case LLMCallEvent =>
          states := states[runId := s];
        case OtherEvent =>
          states := states[runId := s];
      }
      return Some(Clean);
    }

    method Forget(runId: string)
      modifies this`states
      ensures states == old(states) - {runId}
    {
      states := states - {runId};
    }
  }

  // ----- the counters are what a scan of the history finds -----

  datatype Entry = Saw(runId: string, ev: LoopEvent) | Forgot(forgottenId: string)

  /** The detector's table after a history of calls, interleaved over any runs. */
  function Replay(history: seq<Entry>): map<string, LoopState> {
    if history == [] then map[]
    else
      var before := Replay(history[..|history| - 1]);
      match history[|history| - 1]
      case Saw(runId, ev) => Observed(before, runId, ev)
      case Forgot(runId) => before - {runId}
  }

  /** The events of one run since it was last forgotten. */
  function EventsOf(history: seq<Entry>, runId: string): seq<LoopEvent> {
    if history == [] then []
    else
      var before := EventsOf(history[..|history| - 1], runId);
      match history[|history| - 1]
      case Saw(id, ev) => if id == runId then before + [ev] else before
      case Forgot(id) => if id == runId then [] else before
  }

  /** One key per tool call (its signature) or thought (None); other events leave none. */
  function Keys(events: seq<LoopEvent>): seq<Option<string>> {
    if events == [] then []
    else
      var last := events[|events| - 1];
      Keys(events[..|events| - 1])
      + match last.kind
        case ToolCallEvent => [Some(Signature(last))]
        case ContentEvent => [None]
        case LLMCallEvent => []
        case OtherEvent => []
  }

  /** The non-empty content hashes of tool calls and thoughts. */
  function Hashes(events: seq<LoopEvent>): seq<string> {
    if events == [] then []
    else
      var last := events[|events| - 1];
      Hashes(events[..|events| - 1])
      + if (last.kind.ToolCallEvent? || last.kind.ContentEvent?) && last.contentHash != ""
        then [last.contentHash] else []
  }

  ghost predicate EndsWithRun<T>(s: seq<T>, n: int) {
    n <= |s| && forall k :: 0 <= |s| - n <= k < |s| ==> s[k] == s[|s| - 1]
  }

  /** n counts the equal elements at the end of s, all of them. */
  ghost predicate LongestRun<T>(s: seq<T>, n: nat) {
    && EndsWithRun(s, n)
    && (n < |s| ==> n > 0 && s[|s| - n - 1] != s[|s| - 1])
  }

  ghost predicate HashesScanned(st: LoopState, hs: seq<string>) {
    && LongestRun(hs, st.noProgress)
    && st.lastHash == (if hs == [] then "" else hs[|hs| - 1])
  }

  ghost predicate KeysScanned(st: LoopState, ks: seq<Option<string>>) {
    var endsInCall, endsInThought := ks != [] && ks[|ks| - 1].Some?, ks != [] && ks[|ks| - 1].None?;
    && st.lastSig == (if endsInCall then ks[|ks| - 1].value else "")
    && (if endsInCall then LongestRun(ks, st.repeatCount) else st.repeatCount == 0)
    && (if endsInThought then LongestRun(ks, st.thoughtOnly) else st.thoughtOnly == 0)
  }

  ghost predicate Scanned(st: LoopState, events: seq<LoopEvent>) {
    HashesScanned(st, Hashes(events)) && KeysScanned(st, Keys(events))
  }

  lemma LongestRunSnoc<T>(s: seq<T>, n: nat, x: T)
    requires LongestRun(s, n)
    ensures LongestRun(s + [x], if s != [] && s[|s| - 1] == x then n + 1 else 1)
  {
  }

  lemma HashesNonEmpty(events: seq<LoopEvent>)
    ensures forall k :: 0 <= k < |Hashes(events)| ==> Hashes(events)[k] != ""
  {
  }

  lemma HashesScannedStep(st: LoopState, events: seq<LoopEvent>, ev: LoopEvent)
    requires HashesScanned(st, Hashes(events))
    ensures HashesScanned(Count(st, ev), Hashes(events + [ev]))
  {
    var hs := Hashes(events);
    assert (events + [ev])[..|events|] == events;
    HashesNonEmpty(events);
    if (ev.kind.ToolCallEvent? || ev.kind.ContentEvent?) && ev.contentHash != "" {
      LongestRunSnoc(hs, st.noProgress, ev.contentHash);
    } else {
      assert hs + [] == hs;
    }
  }

  lemma KeysScannedSnoc(st: LoopState, ks: seq<Option<string>>, ev: LoopEvent)
    requires KeysScanned(st, ks)
    ensures ev.kind.ToolCallEvent? ==> KeysScanned(Count(st, ev), ks + [Some(Signature(ev))])
    ensures ev.kind.ContentEvent? ==> KeysScanned(Count(st, ev), ks + [None])
  {
    if ks != [] {
      if ks[|ks| - 1].Some? {
        LongestRunSnoc(ks, st.repeatCount, Some(Signature(ev)));
      } else {
        LongestRunSnoc(ks, st.thoughtOnly, None);
      }
    }
  }

  lemma KeysScannedStep(st: LoopState, events: seq<LoopEvent>, ev: LoopEvent)
    requires KeysScanned(st, Keys(events))
    ensures KeysScanned(Count(st, ev), Keys(events + [ev]))
  {
    assert (events + [ev])[..|events|] == events;
    KeysScannedSnoc(st, Keys(events), ev);
    assert Keys(events) + [] == Keys(events);
  }

  /** For every history, interleaved over any number of runs, the counters of each run
      are what a direct scan of its own events since Forget finds. */
  lemma {:induction false} CountersMatchScan(history: seq<Entry>, runId: string)
    ensures Scanned(StateOf(Replay(history), runId), EventsOf(history, runId))
  {
    if history != [] {
      var front := history[..|history| - 1];
      CountersMatchScan(front, runId);
      match history[|history| - 1]
      case Saw(id, ev) =>
        if id == runId {
          ScannedStep(StateOf(Replay(front), runId), EventsOf(front, runId), ev);
        }
      case Forgot(id) =>
    }
  }

  /** The verdict a direct scan gives on the last event of a run. */
  ghost function DirectVerdict(th: Thresholds, events: seq<LoopEvent>): Verdict
    requires events != []
  {
    var ev := events[|events| - 1];
    if ev.kind.ToolCallEvent? && th.repeated > 0 && EndsWithRun(Keys(events), th.repeated) then RepeatedToolCall
    else if ev.kind.ContentEvent? && th.thoughtOnly > 0 && EndsWithRun(Keys(events), th.thoughtOnly)
    then ThoughtExplosion
    else if (ev.kind.ToolCallEvent? || ev.kind.ContentEvent?) && th.noProgress > 0
      && EndsWithRun(Hashes(events), th.noProgress)
    then NoProgressTurn
    else Clean
  }

  lemma RunReaches<T>(s: seq<T>, n: nat, threshold: int)
    requires LongestRun(s, n) && threshold > 0
    ensures n >= threshold <==> EndsWithRun(s, threshold)
  {
    if n < threshold <= |s| {
      assert s[|s| - n - 1] != s[|s| - 1];
    }
  }

  lemma ScannedStep(st: LoopState, events: seq<LoopEvent>, ev: LoopEvent)
    requires Scanned(st, events)
    ensures Scanned(Count(st, ev), events + [ev])
  {
    HashesScannedStep(st, events, ev);
    KeysScannedStep(st, events, ev);
  }

  lemma ScannedJudge(th: Thresholds, st: LoopState, events: seq<LoopEvent>)
    requires events != [] && Scanned(st, events)
    ensures Judge(th, st, events[|events| - 1]) == DirectVerdict(th, events)
  {
    var ev := events[|events| - 1];
    if th.noProgress > 0 { RunReaches(Hashes(events), st.noProgress, th.noProgress); }
    if ev.kind.ToolCallEvent? && th.repeated > 0 { RunReaches(Keys(events), st.repeatCount, th.repeated); }
    if ev.kind.ContentEvent? && th.thoughtOnly > 0 { RunReaches(Keys(events), st.thoughtOnly, th.thoughtOnly); }
  }

  /** So is every verdict: it is the one a direct scan of the run's events gives. */
  lemma VerdictMatchesScan(th: Thresholds, history: seq<Entry>, runId: string, ev: LoopEvent)
    ensures var after := history + [Saw(runId, ev)];
            && EventsOf(after, runId) == EventsOf(history, runId) + [ev]
            && Judge(th, StateOf(Replay(after), runId), ev) == DirectVerdict(th, EventsOf(after, runId))
  {
    var after := history + [Saw(runId, ev)];
    assert after[..|after| - 1] == history;
    CountersMatchScan(after, runId);
    var st := StateOf(Replay(after), runId);
    var events := EventsOf(after, runId);
    assert events[..|events| - 1] == EventsOf(history, runId);
    ScannedJudge(th, st, events);
  }

  // ----- verdicts without signatures -----

  const BAR: char := '|'

  /** The tool calls and thoughts among the events. */
  function Acting(events: seq<LoopEvent>): (acting: seq<LoopEvent>)
    ensures forall ev :: ev in acting ==> ev in events
  {
    if events == [] then []
    else
      var last := events[|events| - 1];
      Acting(events[..|events| - 1]) + if last.kind.ToolCallEvent? || last.kind.ContentEvent? then [last] else []
  }

  /** The last n of them are calls of the same tool with the same content hash. */
  ghost predicate SameCalls(acting: seq<LoopEvent>, n: int) {
    n <= |acting| && forall k :: 0 <= |acting| - n <= k < |acting| ==>
      && acting[k].kind.ToolCallEvent?
      && acting[k].toolName == acting[|acting| - 1].toolName
      && acting[k].contentHash == acting[|acting| - 1].contentHash
  }

  /** The last n of them are thoughts. */
  ghost predicate OnlyThoughts(acting: seq<LoopEvent>, n: int) {
    n <= |acting| && forall k :: 0 <= |acting| - n <= k < |acting| ==> acting[k].kind.ContentEvent?
  }

  /** The content hashes of the calls can be told from the tool names in front of them. */
  predicate PlainHashes(events: seq<LoopEvent>) {
    forall ev :: ev in events && ev.kind.ToolCallEvent? ==> BAR !in ev.contentHash
  }

  /** The verdict on the last of these events. */
  ghost function Verdicted(th: Thresholds, events: seq<LoopEvent>): Verdict
    requires events != []
  {
    var kind, acting := events[|events| - 1].kind, Acting(events);
    if kind.ToolCallEvent? && th.repeated > 0 && SameCalls(acting, th.repeated) then RepeatedToolCall
    else if kind.ContentEvent? && th.thoughtOnly > 0 && OnlyThoughts(acting, th.thoughtOnly) then ThoughtExplosion
    else if (kind.ToolCallEvent? || kind.ContentEvent?) && th.noProgress > 0
      && EndsWithRun(Hashes(events), th.noProgress)
    then NoProgressTurn
    else Clean
  }

  lemma SameBar(name: string, hash: string, name': string, hash': string)
    requires BAR !in hash && BAR !in hash' && name + [BAR] + hash == name' + [BAR] + hash'
    ensures name == name' && hash == hash'
  {
    var s := name + [BAR] + hash;
    assert s[|name|] == BAR && s[|name'|] == BAR;
    assert forall k :: |name| < k < |s| ==> s[k] == hash[k - |name| - 1];
    assert forall k :: |name'| < k < |s| ==> s[k] == hash'[k - |name'| - 1];
    assert |name| == |name'|;
    assert name == s[..|name|] && hash == s[|name| + 1..];
  }

  function KeyOf(ev: LoopEvent): Option<string> {
    if ev.kind.ToolCallEvent? then Some(Signature(ev)) else None
  }

  lemma {:induction false} KeysOfActing(events: seq<LoopEvent>)
    ensures |Keys(events)| == |Acting(events)|
    ensures forall k :: 0 <= k < |Acting(events)| ==>
              && Keys(events)[k] == KeyOf(Acting(events)[k])
              && (Acting(events)[k].kind.ToolCallEvent? || Acting(events)[k].kind.ContentEvent?)
  {
    hide KeyOf, Signature;
    if events != [] {
      KeysOfActing(events[..|events| - 1]);
      LastKey(events[|events| - 1]);
    }
  }

  lemma LastKey(ev: LoopEvent)
    ensures KeyOf(ev) == if ev.kind.ToolCallEvent? then Some(Signature(ev)) else None
  {
  }

  lemma SameKeys(ev: LoopEvent, ev': LoopEvent)
    requires PlainHashes([ev, ev'])
    requires ev.kind.ToolCallEvent? || ev.kind.ContentEvent?
    requires ev'.kind.ToolCallEvent? || ev'.kind.ContentEvent?
    ensures KeyOf(ev) == KeyOf(ev') <==>
            ev.kind == ev'.kind
            && (ev.kind.ToolCallEvent? ==> ev.toolName == ev'.toolName && ev.contentHash == ev'.contentHash)
  {
    if ev.kind.ToolCallEvent? && ev'.kind.ToolCallEvent? {
      assert ev in [ev, ev'] && ev' in [ev, ev'];
      if Signature(ev) == Signature(ev') {
        SameBar(ev.toolName, ev.contentHash, ev'.toolName, ev'.contentHash);
      }
    }
  }

  lemma RunsOfActing(events: seq<LoopEvent>, n: int)
    requires PlainHashes(events) && Acting(events) != [] && n > 0
    ensures var acting := Acting(events);
            EndsWithRun(Keys(events), n) <==>
            if acting[|acting| - 1].kind.ToolCallEvent? then SameCalls(acting, n) else OnlyThoughts(acting, n)
  {
    KeysOfActing(events);
    var acting, keys := Acting(events), Keys(events);
    hide Acting, Keys, KeyOf;
    var last := acting[|acting| - 1];
    assert last in acting;
    forall k | 0 <= k < |acting|
      ensures keys[k] == keys[|keys| - 1] <==>
              acting[k].kind == last.kind
              && (last.kind.ToolCallEvent? ==>
                    acting[k].toolName == last.toolName && acting[k].contentHash == last.contentHash)
    {
      assert acting[k] in acting;
      SameKeys(acting[k], last);
    }
  }

  /** Every verdict, told from the run's own events since Forget: a tool call is judged repeated
      exactly when the last `repeated` calls and thoughts are calls of the same tool with the
      same hash, a thought an explosion exactly when the last `thoughtOnly` are thoughts, and
      otherwise either is judged no progress exactly when the last `noProgress` non-empty hashes
      are equal. */
  lemma VerdictExactly(th: Thresholds, history: seq<Entry>, runId: string, ev: LoopEvent)
    requires PlainHashes(EventsOf(history, runId) + [ev])
    ensures Judge(th, StateOf(Replay(history + [Saw(runId, ev)]), runId), ev)
         == Verdicted(th, EventsOf(history, runId) + [ev])
  {
    hide DirectVerdict, Verdicted, Judge, PlainHashes;
    VerdictMatchesScan(th, history, runId, ev);
    DirectIsVerdicted(th, EventsOf(history, runId) + [ev]);
  }

  lemma DirectIsVerdicted(th: Thresholds, events: seq<LoopEvent>)
    requires events != [] && PlainHashes(events)
    ensures DirectVerdict(th, events) == Verdicted(th, events)
  {
    hide Keys, Hashes, EndsWithRun, SameCalls, OnlyThoughts, PlainHashes;
    var ev := events[|events| - 1];
    if ev.kind.ToolCallEvent? || ev.kind.ContentEvent? {
      if th.repeated > 0 { RunsOfActing(events, th.repeated); }
      if th.thoughtOnly > 0 { RunsOfActing(events, th.thoughtOnly); }
    }
  }

  /** One observation from any scanned state. */
  lemma ScannedVerdict(th: Thresholds, st: LoopState, events: seq<LoopEvent>, ev: LoopEvent)
    requires Scanned(st, events) && PlainHashes(events + [ev])
    ensures Scanned(Count(st, ev), events + [ev])
    ensures Judge(th, Count(st, ev), ev) == Verdicted(th, events + [ev])
  {
    hide Scanned, Count, DirectVerdict, Verdicted, Judge, PlainHashes;
    ScannedStep(st, events, ev);
    ScannedJudge(th, Count(st, ev), events + [ev]);
    DirectIsVerdicted(th, events + [ev]);
  }

  /** A second call is judged a repetition of the first one. */
  ghost predicate TakenForRepeat(first: LoopEvent, second: LoopEvent) {
    Judge(Thresholds(2, 0, 0), StateOf(Replay([Saw("", first), Saw("", second)]), ""), second) == RepeatedToolCall
  }

  lemma TakenExactly(first: LoopEvent, second: LoopEvent)
    requires first.kind.ToolCallEvent? && second.kind.ToolCallEvent?
    ensures TakenForRepeat(first, second) <==>
            first.toolName + [BAR] + first.contentHash == second.toolName + [BAR] + second.contentHash
  {
    var history := [Saw("", first), Saw("", second)];
    assert history[..1][..0] == [] && history[..1] == [Saw("", first)];
    assert Replay(history[..1]) == Observed(map[], "", first);
    assert Replay(history) == Observed(Observed(map[], "", first), "", second);
    assert Signature(first) == first.toolName + [BAR] + first.contentHash;
    assert Signature(second) == second.toolName + [BAR] + second.contentHash;
    assert Signature(second)[|second.toolName|] == BAR;
  }

  /** Some other call can be taken for a repetition of this one exactly when its name or its
      hash holds the bar that the detector puts between the two. */
  lemma MistakenExactly(ev: LoopEvent)
    requires ev.kind.ToolCallEvent?
    ensures (exists other: LoopEvent ::
               && other.kind.ToolCallEvent? && TakenForRepeat(ev, other)
               && (other.toolName != ev.toolName || other.contentHash != ev.contentHash))
            <==> BAR in ev.toolName || BAR in ev.contentHash
  {
    hide TakenForRepeat;
    var s := ev.toolName + [BAR] + ev.contentHash;
    if BAR in ev.toolName || BAR in ev.contentHash {
      var k := OtherBar(ev);
      var other := LoopEvent(ToolCallEvent, s[..k], s[k + 1..]);
      assert s[..k] + [BAR] + s[k + 1..] == s;
      TakenExactly(ev, other);
    } else {
      forall other: LoopEvent | other.kind.ToolCallEvent? && TakenForRepeat(ev, other)
        ensures other.toolName == ev.toolName && other.contentHash == ev.contentHash
      {
        TakenExactly(ev, other);
        assert s[|other.toolName|] == BAR;
        assert s == other.toolName + [BAR] + other.contentHash;
        assert other.toolName == s[..|other.toolName|] && other.contentHash == s[|other.toolName| + 1..];
      }
    }
  }

  /** A bar other than the one between name and hash. */
  ghost function OtherBar(ev: LoopEvent): (k: nat)
    requires BAR in ev.toolName || BAR in ev.contentHash
    ensures var s := ev.toolName + [BAR] + ev.contentHash; k < |s| && s[k] == BAR && k != |ev.toolName|
  {
    if BAR in ev.toolName
    then var k :| 0 <= k < |ev.toolName| && ev.toolName[k] == BAR; k
    else var k :| 0 <= k < |ev.contentHash| && ev.contentHash[k] == BAR; |ev.toolName| + 1 + k
  }
}
