/** What Execute leaves behind, in terms of the objects it works on. */
module RunnerExecute {
  import opened Options
  import opened Chat
  import opened Stream
  import opened LoopDetector
  import opened Lifecycle
  import opened Runner
  import opened RunnerSafety
  import opened RunnerDialogue
  import opened RunnerEquivalence
  import opened RunnerOutcome

  /** The finished run as a state of the loop, with no transition error ignored. */
  function Ended(run: Run, detector: MemLoopDetector?, result: RunResult): Exec
    reads run, detector
  {
    Exec(run.Data(), result.finalMessages, result.turns, StatesOf(detector), 0, true)
  }

  lemma EndedIsReached(env: Env, id: string, budget: Budget, initial: seq<Message>, states: map<string, LoopState>,
                       run: Run, detector: MemLoopDetector?, result: RunResult)
    requires EndsIn(env, NewExec(env, id, budget, initial, states), run, detector, result)
    ensures Reached(env, NewExec(env, id, budget, initial, states), Ended(run, detector, result))
    ensures Lively(Ended(run, detector, result))
  {
    var init := NewExec(env, id, budget, initial, states);
    var s :| Reached(env, init, s) && s.done && Matches(s, run, detector, result.finalMessages, result.turns);
    LifecycleKept(env, id, budget, initial, states, s);
    assert s == Ended(run, detector, result);
    hide Reached;
  }

  /** Execute of a new run ends: completed, failed or canceled with an end time and no ignored
      transition error, with its counters the sums over its numbered turns, its caps kept up
      to the last turn, and a conversation in which every tool call is answered in turn; and
      it ends when, how and for the reason it has to, whatever the detector had seen before. */
  method ExecuteNew(cfg: Config, id: string, budget: Budget, provider: MockProvider, detector: MemLoopDetector?,
                    initial: seq<Message>, stream: bool, ghost history: seq<Entry>)
    returns (run: Run, result: RunResult)
    requires Unused(budget) && StatesOf(detector) == Replay(history)
    modifies provider`queue
    modifies if detector == null then {} else {detector}
    ensures fresh(run) && run.id == id
    ensures var s := Ended(run, detector, result);
            Lively(s) && Accounted(s) && WithinCaps(budget, s) && Conversed(cfg, initial, s)
    ensures var c := Setting(old(EnvOf(cfg, detector, provider, stream, 0)), budget, EventsOf(history, id));
            Legible(c) ==>
              && AllRight(c, result.turns) && result.finalMessages == initial + Transcript(cfg, result.turns)
              && Concluded(c, Ended(run, detector, result))
    ensures provider.queue == QueueLeft(cfg, old(provider.queue), 0, run.currentTurn)
  {
    hide EndsIn, Reached, Begin, Lively, Accounted, WithinCaps, Conversed, QueueLeft, QueueLLM, Replay, EventsOf,
         Legible, AllRight, Transcript, Concluded;
    ghost var env := EnvOf(cfg, detector, provider, stream, 0);
    ghost var states := StatesOf(detector);
    run := new Run(id, budget);
    var ended := Execute(cfg, run, provider, detector, initial, stream);
    result := ended.value;
    ghost var s := Ended(run, detector, result);
    EndedIsReached(env, id, budget, initial, states, run, detector, result);
    AccountingKept(env, id, budget, initial, states, s);
    OvershootOnlyByLastTurn(env, id, budget, initial, states, s);
    ConversationKept(env, id, budget, initial, states, s);
    ghost var c := Setting(env, budget, EventsOf(history, id));
    if Legible(c) {
      RunTold(c, id, initial, history, s);
    }
  }

  /** Two Executes of the same new run over equal queues and detectors, one with Stream off and
      one with Stream on, end alike. */
  method ExecuteBothWays(cfg: Config, id: string, budget: Budget, p: MockProvider, q: MockProvider,
                         d: MemLoopDetector?, f: MemLoopDetector?, initial: seq<Message>)
    returns (off: Run, offResult: RunResult, on: Run, onResult: RunResult)
    requires p != q && p.queue == q.queue && p.streamChunkSize == q.streamChunkSize
    requires ThresholdsOf(d) == ThresholdsOf(f) && StatesOf(d) == StatesOf(f) && (d != null ==> d != f)
    requires UninterruptedStreams(cfg, p.queue, p.streamChunkSize) && AllStreamable(p.queue)
    modifies p`queue, q`queue
    modifies if d == null then {} else {d}, if f == null then {} else {f}
    ensures Alike(Ended(off, d, offResult), Ended(on, f, onResult))
    ensures p.queue == q.queue
  {
    hide EndsIn, Reached, Begin, Lively, Alike, QueueLLM, UninterruptedStreams, AllStreamable;
    ghost var queue, chunkSize, thresholds, states := p.queue, p.streamChunkSize, ThresholdsOf(d), StatesOf(d);
    ghost var complete := QueueEnv(cfg, queue, chunkSize, thresholds, false);
    ghost var streamed := QueueEnv(cfg, queue, chunkSize, thresholds, true);
    ghost var init := NewExec(complete, id, budget, initial, states);
    off := new Run(id, budget);
    var first := Execute(cfg, off, p, d, initial, false);
    offResult := first.value;
    EndedIsReached(complete, id, budget, initial, states, off, d, offResult);
    ghost var s := Ended(off, d, offResult);
    on := new Run(id, budget);
    var second := Execute(cfg, on, q, f, initial, true);
    onResult := second.value;
    EndedIsReached(streamed, id, budget, initial, states, on, f, onResult);
    assert s == Ended(off, d, offResult);
    ExecutionsAgree(cfg, queue, chunkSize, thresholds, init, s, Ended(on, f, onResult));
  }
}
