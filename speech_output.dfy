/**
 * The text-to-speech scheduler: `stopSpeaking`, `speakText` and the callbacks
 * that `speakText` leaves with the browser's speech engine.
 *
 * A module-level counter `currentSpeechId` is the cancellation token. Every
 * call to `stopSpeaking` or `speakText` increments it; `speakText` captures the
 * new value as `myId` in its closures, and each of them (the chunk loop, the
 * utterance's `onend` and `onerror`, and the `onvoiceschanged` handler) returns
 * at once when `myId` is no longer current.
 *
 * The model keeps one object for the module state plus the closure state of
 * the latest `speakText` call (its chunks and chunk index): closures of earlier
 * calls can never act again, so their private state does not matter. Each
 * engine callback is a method that takes the id its closure captured. What the
 * engine is asked to say, and every call of the caller's `onEnd`, are recorded
 * in the ghost trace `log`, tagged with the generation that was current.
 */
module SpeechOutput {
  import opened Wrappers
  import opened JsText
  import opened SentenceSplit

  /** What the scheduler does that the outside world sees. */
  datatype Event =
    | Spoke(gen: nat, text: string)  // an utterance handed to the engine under generation `gen`
    | Ended(gen: nat)                // the caller's `onEnd` called by the closures of generation `gen`
    | EndedUnsupported               // `onEnd` called at once because the browser has no speech synthesis

  /** Where the playback of the current generation stands. */
  datatype Phase =
    | Stopped         // the current id was minted by `stopSpeaking`: no closure holds it
    | AwaitingVoices  // waiting for `onvoiceschanged` before the first chunk
    | Ready           // inside the chunk loop, about to look at chunk `index`
    | Speaking        // chunk `index` is with the engine, its `onend` or `onerror` is due
    | Finished        // every chunk done and `onEnd` called
    | Failed          // an engine error other than an interruption, `onEnd` called
    | Hung            // an `interrupted`/`canceled` error swallowed: no `onEnd` will come

  /** Chunk errors that are treated as intentional interruptions. */
  const Interrupted: string := "interrupted"
  const Canceled: string := "canceled"

  /** The texts spoken under generation `g`, in order. */
  ghost function PlayedBy(log: seq<Event>, g: nat): seq<string>
  {
    if log == [] then []
    else
      var last := log[|log| - 1];
      PlayedBy(log[..|log| - 1], g) + (if last.Spoke? && last.gen == g then [last.text] else [])
  }

  /** How many times `onEnd` was called for generation `g`. */
  ghost function EndsOf(log: seq<Event>, g: nat): nat
  {
    if log == [] then 0
    else EndsOf(log[..|log| - 1], g) + (if log[|log| - 1] == Ended(g) then 1 else 0)
  }

  /** Every tagged event belongs to generation `cur` or an earlier one. */
  ghost predicate GensBounded(log: seq<Event>, cur: nat)
  {
    forall k :: 0 <= k < |log| && !log[k].EndedUnsupported? ==> log[k].gen <= cur
  }

  /** Tagged events appear in generation order: nothing of an older generation follows a newer one. */
  ghost predicate GensOrdered(log: seq<Event>)
  {
    forall i, j :: 0 <= i < j < |log| && !log[i].EndedUnsupported? && !log[j].EndedUnsupported? ==>
      log[i].gen <= log[j].gen
  }

  /** `after` extends `before` with events of generation `g` only. */
  ghost predicate OnlyAppendedUnder(before: seq<Event>, after: seq<Event>, g: nat)
  {
    |before| <= |after| && after[..|before|] == before &&
    forall k :: |before| <= k < |after| && !after[k].EndedUnsupported? ==> after[k].gen == g
  }

  /** The trimmed, non-blank chunks among the first `n`, in order: what a playback that got that far has said. */
  function Played(chunks: seq<string>, n: nat): seq<string>
    requires n <= |chunks|
  {
    if n == 0 then []
    else Played(chunks, n - 1) + (if Trim(chunks[n - 1]) == [] then [] else [Trim(chunks[n - 1])])
  }

  /** The first chunk at or after `i` that is not blank once trimmed (or `|chunks|`). */
  function NextNonBlank(chunks: seq<string>, i: nat): (j: nat)
    requires i <= |chunks|
    ensures i <= j <= |chunks|
    ensures forall k :: i <= k < j ==> Trim(chunks[k]) == []
    ensures j < |chunks| ==> Trim(chunks[j]) != []
    decreases |chunks| - i
  {
    if i < |chunks| && Trim(chunks[i]) == [] then NextNonBlank(chunks, i + 1) else i
  }

  /** Skipping blank chunks says nothing: the played texts up to the next non-blank chunk are those up to `i`. */
  lemma {:induction false} PlayedSkipsBlanks(chunks: seq<string>, i: nat)
    requires i <= |chunks|
    ensures Played(chunks, NextNonBlank(chunks, i)) == Played(chunks, i)
    decreases |chunks| - i
  {
    if i < |chunks| && Trim(chunks[i]) == [] {
      PlayedSkipsBlanks(chunks, i + 1);
    }
  }

  /** Everything a playback says is a non-empty, already trimmed piece of one of its chunks. */
  lemma {:induction false} PlayedAreTrimmed(chunks: seq<string>, n: nat)
    requires n <= |chunks|
    ensures |Played(chunks, n)| <= n
    ensures forall t :: t in Played(chunks, n) ==> t != [] && Trim(t) == t
  {
    if n > 0 {
      PlayedAreTrimmed(chunks, n - 1);
      TrimIdempotent(chunks[n - 1]);
    }
  }

  /** A generation newer than every event in the trace has said nothing and ended nothing. */
  lemma {:induction false} FreshGeneration(log: seq<Event>, g: nat)
    requires forall k :: 0 <= k < |log| && !log[k].EndedUnsupported? ==> log[k].gen < g
    ensures PlayedBy(log, g) == [] && EndsOf(log, g) == 0
  {
    if log != [] {
      FreshGeneration(log[..|log| - 1], g);
    }
  }

  /** Appending one event adds to what that event's generation said or ended, and to nothing else. */
  lemma AppendEvent(log: seq<Event>, e: Event)
    ensures forall g :: PlayedBy(log + [e], g) == PlayedBy(log, g) + (if e.Spoke? && e.gen == g then [e.text] else [])
    ensures forall g :: EndsOf(log + [e], g) == EndsOf(log, g) + (if e == Ended(g) then 1 else 0)
  {
    assert (log + [e])[..|log|] == log;
  }

  /** Events appended under generation `cur` leave what every other generation said and ended as it was. */
  lemma {:induction false} OthersUnaffected(before: seq<Event>, after: seq<Event>, cur: nat, g: nat)
    requires OnlyAppendedUnder(before, after, cur) && g != cur
    ensures PlayedBy(after, g) == PlayedBy(before, g) && EndsOf(after, g) == EndsOf(before, g)
    decreases |after|
  {
    if |after| == |before| {
      assert after == after[..|before|];
    } else {
      var prefix := after[..|after| - 1];
      assert prefix[..|before|] == after[..|before|];
      OthersUnaffected(before, prefix, cur, g);
    }
  }

  /** The trace invariant: generations bounded by `cur` and in order, and no generation ended twice. */
  ghost predicate WellTagged(log: seq<Event>, cur: nat)
  {
    GensBounded(log, cur) && GensOrdered(log) && (forall g :: EndsOf(log, g) <= 1)
  }

  /** Appending an event of the current generation (an `onEnd` only if none came yet) keeps the trace invariant. */
  lemma AppendCurrent(log: seq<Event>, cur: nat, e: Event)
    requires WellTagged(log, cur)
    requires e.EndedUnsupported? || e.gen == cur
    requires e.Ended? ==> EndsOf(log, cur) == 0
    ensures WellTagged(log + [e], cur)
    ensures OnlyAppendedUnder(log, log + [e], cur)
    ensures PlayedBy(log + [e], cur) == PlayedBy(log, cur) + (if e.Spoke? then [e.text] else [])
    ensures EndsOf(log + [e], cur) == EndsOf(log, cur) + (if e.Ended? then 1 else 0)
  {
    AppendEvent(log, e);
    var log' := log + [e];
    forall k | 0 <= k < |log'| && !log'[k].EndedUnsupported? ensures log'[k].gen <= cur {
      if k < |log| { assert log'[k] == log[k]; }
    }
    forall i, j | 0 <= i < j < |log'| && !log'[i].EndedUnsupported? && !log'[j].EndedUnsupported?
      ensures log'[i].gen <= log'[j].gen
    {
      assert log'[i] == log[i];
      if j < |log| { assert log'[j] == log[j]; }
    }
  }

  /** Minting a newer generation keeps the trace invariant, and the new generation starts with a clean slate. */
  lemma NewGeneration(log: seq<Event>, cur: nat, next: nat)
    requires WellTagged(log, cur) && cur < next
    ensures WellTagged(log, next)
    ensures PlayedBy(log, next) == [] && EndsOf(log, next) == 0
  {
    FreshGeneration(log, next);
  }

  /** The scheduler's state: the module's counter, the latest call's closure state, and the ghost bookkeeping. */
  datatype Snapshot = Snapshot(
    currentId: nat,
    chunks: seq<string>,
    index: nat,
    voicesHandler: Option<nat>,
    issued: set<nat>,
    phase: Phase,
    log: seq<Event>)

  /** How many chunks the current playback has reached: those before it have been looked at. */
  function Frontier(s: Snapshot): nat
  {
    if s.phase == Speaking || s.phase == Failed || s.phase == Hung then s.index + 1 else s.index
  }

  /** The scheduler invariant. */
  ghost predicate Inv(s: Snapshot)
  {
    && (forall g :: g in s.issued ==> g <= s.currentId)
    && (s.phase == Stopped <==> s.currentId !in s.issued)
    && (s.phase != Stopped ==> Frontier(s) <= |s.chunks|)
    && (s.phase == AwaitingVoices ==> s.index == 0)
    && (s.phase == Speaking || s.phase == Failed || s.phase == Hung ==> Trim(s.chunks[s.index]) != [])
    && (s.phase == Finished ==> s.index == |s.chunks|)
    && (s.voicesHandler.Some? ==> s.voicesHandler.value in s.issued)
    && (s.voicesHandler == Some(s.currentId) <==> s.phase == AwaitingVoices)
    && WellTagged(s.log, s.currentId)
    // the current generation has said exactly its non-blank chunks up to the frontier, in order
    && PlayedBy(s.log, s.currentId) == (if s.phase == Stopped then [] else Played(s.chunks, Frontier(s)))
    // and has called `onEnd` once if it finished or failed, never otherwise
    && EndsOf(s.log, s.currentId) == (if s.phase == Finished || s.phase == Failed then 1 else 0)
  }

  /** `stopSpeaking` keeps the invariant. */
  lemma StopKeeps(s: Snapshot)
    requires Inv(s)
    ensures Inv(s.(currentId := s.currentId + 1, phase := Stopped))
  {
    NewGeneration(s.log, s.currentId, s.currentId + 1);
  }

  /** Calling `onEnd` at once for want of a speech engine keeps the invariant. */
  lemma UnsupportedKeeps(s: Snapshot)
    requires Inv(s)
    ensures Inv(s.(log := s.log + [EndedUnsupported]))
  {
    var t := s.(log := s.log + [EndedUnsupported]);
    AppendCurrent(s.log, s.currentId, EndedUnsupported);
    assert Frontier(t) == Frontier(s);
    assert PlayedBy(t.log, t.currentId) == PlayedBy(s.log, s.currentId);
    assert EndsOf(t.log, t.currentId) == EndsOf(s.log, s.currentId);
  }

  /** Starting a new playback of `chunks`, at once or after the voices load, keeps the invariant. */
  lemma StartKeeps(s: Snapshot, chunks: seq<string>, voicesLoaded: bool)
    requires Inv(s)
    ensures Inv(Started(s, chunks, voicesLoaded))
  {
    NewGeneration(s.log, s.currentId, s.currentId + 1);
  }

  /** Running out of chunks and calling `onEnd` keeps the invariant. */
  lemma FinishKeeps(s: Snapshot)
    requires Inv(s) && s.phase == Ready && s.index == |s.chunks|
    ensures Inv(s.(phase := Finished, log := s.log + [Ended(s.currentId)]))
  {
    AppendCurrent(s.log, s.currentId, Ended(s.currentId));
  }

  /** Skipping a blank chunk keeps the invariant. */
  lemma SkipKeeps(s: Snapshot)
    requires Inv(s) && s.phase == Ready && s.index < |s.chunks| && Trim(s.chunks[s.index]) == []
    ensures Inv(s.(index := s.index + 1))
  {
    assert Played(s.chunks, s.index + 1) == Played(s.chunks, s.index);
  }

  /** Looking at a non-blank chunk adds it, trimmed, to what has been said. */
  lemma PlayedNonBlank(chunks: seq<string>, i: nat)
    requires i < |chunks| && Trim(chunks[i]) != []
    ensures Played(chunks, i + 1) == Played(chunks, i) + [Trim(chunks[i])]
  {
  }

  /** Handing a non-blank chunk to the engine keeps the invariant. */
  lemma SpeakKeeps(s: Snapshot)
    requires Inv(s) && s.phase == Ready && s.index < |s.chunks| && Trim(s.chunks[s.index]) != []
    ensures Inv(s.(phase := Speaking, log := s.log + [Spoke(s.currentId, Trim(s.chunks[s.index]))]))
  {
    var said := Trim(s.chunks[s.index]);
    var t := s.(phase := Speaking, log := s.log + [Spoke(s.currentId, said)]);
    AppendCurrent(s.log, s.currentId, Spoke(s.currentId, said));
    assert Frontier(t) == s.index + 1;
    PlayedNonBlank(s.chunks, s.index);
    assert PlayedBy(t.log, t.currentId) == Played(s.chunks, s.index) + [said];
    assert EndsOf(t.log, t.currentId) == EndsOf(s.log, s.currentId);
  }

  /** Moving past a chunk the engine finished keeps the invariant. */
  lemma AdvanceKeeps(s: Snapshot)
    requires Inv(s) && s.phase == Speaking
    ensures Inv(s.(index := s.index + 1, phase := Ready))
  {
    var t := s.(index := s.index + 1, phase := Ready);
    assert Frontier(t) == Frontier(s) && t.log == s.log && t.currentId == s.currentId;
  }

  /** Swallowing an interruption keeps the invariant. */
  lemma HangKeeps(s: Snapshot)
    requires Inv(s) && s.phase == Speaking
    ensures Inv(s.(phase := Hung))
  {
  }

  /** Ending the playback on an engine error and calling `onEnd` keeps the invariant. */
  lemma FailKeeps(s: Snapshot)
    requires Inv(s) && s.phase == Speaking
    ensures Inv(s.(phase := Failed, log := s.log + [Ended(s.currentId)]))
  {
    AppendCurrent(s.log, s.currentId, Ended(s.currentId));
  }

  /** The voices handler of the current generation starting the chunk loop keeps the invariant. */
  lemma ResumeKeeps(s: Snapshot)
    requires Inv(s) && s.phase == AwaitingVoices
    ensures Inv(s.(voicesHandler := None, phase := Ready))
  {
  }

  /** The snapshot right after `speakText` minted a new id and split `chunks`, before anything is said. */
  function Started(s: Snapshot, chunks: seq<string>, voicesLoaded: bool): Snapshot
  {
    var id := s.currentId + 1;
    s.(currentId := id, chunks := chunks, index := 0, issued := s.issued + {id},
       voicesHandler := if voicesLoaded then s.voicesHandler else Some(id),
       phase := if voicesLoaded then Ready else AwaitingVoices)
  }

  /**
   * One run of `speakNextChunk` for the current generation, from chunk
   * `s.index` on: past the last chunk it calls `onEnd`; a chunk that is blank
   * once trimmed is skipped; otherwise the trimmed chunk goes to the engine.
   */
  function Loop(s: Snapshot): Snapshot
    requires s.index <= |s.chunks|
    decreases |s.chunks| - s.index
  {
    if s.index == |s.chunks| then s.(phase := Finished, log := s.log + [Ended(s.currentId)])
    else if Trim(s.chunks[s.index]) == [] then Loop(s.(index := s.index + 1))
    else s.(phase := Speaking, log := s.log + [Spoke(s.currentId, Trim(s.chunks[s.index]))])
  }

  /**
   * What one run of the chunk loop does: it stops at the next non-blank chunk
   * and hands exactly that chunk, trimmed, to the engine, or, with none left,
   * calls `onEnd` once; it touches nothing but the index, the phase and the trace.
   */
  lemma {:induction false} LoopAdvances(s: Snapshot)
    requires s.index <= |s.chunks|
    ensures var t := Loop(s);
      && t == s.(index := t.index, phase := t.phase, log := t.log)
      && t.index == NextNonBlank(s.chunks, s.index)
      && (t.index < |s.chunks| ==> t.phase == Speaking && t.log == s.log + [Spoke(s.currentId, Trim(s.chunks[t.index]))])
      && (t.index == |s.chunks| ==> t.phase == Finished && t.log == s.log + [Ended(s.currentId)])
    decreases |s.chunks| - s.index
  {
    if s.index < |s.chunks| && Trim(s.chunks[s.index]) == [] {
      LoopAdvances(s.(index := s.index + 1));
    }
  }

  /** The chunk loop keeps the invariant. */
  lemma {:induction false} LoopKeeps(s: Snapshot)
    requires Inv(s) && s.phase == Ready
    ensures Inv(Loop(s))
    decreases |s.chunks| - s.index
  {
    if s.index == |s.chunks| {
      FinishKeeps(s);
    } else if Trim(s.chunks[s.index]) == [] {
      SkipKeeps(s);
      LoopKeeps(s.(index := s.index + 1));
    } else {
      SpeakKeeps(s);
    }
  }

  /** The chunk loop only appends events of the current generation to the trace. */
  lemma LoopAppends(s: Snapshot)
    requires s.index <= |s.chunks|
    ensures OnlyAppendedUnder(s.log, Loop(s).log, s.currentId)
  {
    LoopAdvances(s);
    var t := Loop(s);
    if t.index < |s.chunks| {
      assert t.log == s.log + [Spoke(s.currentId, Trim(s.chunks[t.index]))];
    } else {
      assert t.log == s.log + [Ended(s.currentId)];
    }
  }

  /** A run of the chunk loop says and ends nothing for any generation but the current one. */
  lemma LoopLeavesOthers(s: Snapshot, g: nat)
    requires s.index <= |s.chunks| && g != s.currentId
    ensures PlayedBy(Loop(s).log, g) == PlayedBy(s.log, g) && EndsOf(Loop(s).log, g) == EndsOf(s.log, g)
  {
    LoopAppends(s);
    OthersUnaffected(s.log, Loop(s).log, s.currentId, g);
  }

  /** A finished playback has said every non-blank chunk of its text, trimmed and in order, and called `onEnd` exactly once. */
  lemma FinishedSaidAll(s: Snapshot)
    requires Inv(s) && s.phase == Finished
    ensures PlayedBy(s.log, s.currentId) == Played(s.chunks, |s.chunks|)
    ensures EndsOf(s.log, s.currentId) == 1
  {
  }

  class Synthesizer {
    /** Whether `window.speechSynthesis` exists. */
    const supported: bool
    /** `currentSpeechId`. */
    var currentId: nat
    /** The chunks of the latest `speakText` call. */
    var chunks: seq<string>
    /** The chunk index of the latest `speakText` call. */
    var index: nat
    /** The id captured by the handler installed in `window.speechSynthesis.onvoiceschanged`, if any. */
    var voicesHandler: Option<nat>
    /** The ids minted by `speakText` (ids minted by `stopSpeaking` have no closures). */
    ghost var issued: set<nat>
    ghost var phase: Phase
    ghost var log: seq<Event>

    ghost function State(): Snapshot
      reads this
    {
      Snapshot(currentId, chunks, index, voicesHandler, issued, phase, log)
    }

    ghost predicate Valid()
      reads this
    {
      Inv(State())
    }

    /** The page loads the module: `currentSpeechId` starts at 0 and nothing plays. */
    constructor (supported: bool)
      ensures Valid()
      ensures this.supported == supported && State() == Snapshot(0, [], 0, None, {}, Stopped, [])
    {
      this.supported := supported;
      currentId := 0;
      chunks := [];
      index := 0;
      voicesHandler := None;
      issued := {};
      phase := Stopped;
      log := [];
    }

    /**
     * `stopSpeaking`: cancels the engine (when there is one) and always mints a
     * new id, whether or not anything is playing, so that every pending closure
     * is stale from now on.
     */
    method Stop()
      requires Valid()
      modifies this
      ensures Valid()
      ensures State() == old(State()).(currentId := old(currentId) + 1, phase := Stopped)
    {
      ghost var before := State();
      StopKeeps(before);
      currentId := currentId + 1;
      phase := Stopped;
      assert State() == before.(currentId := before.currentId + 1, phase := Stopped);
    }

    /**
     * `speakText(text, onEnd)`: without speech synthesis, calls `onEnd` at once;
     * otherwise cancels the engine, mints and captures a new id, splits the text
     * into chunks and either starts the chunk loop or, while the browser has no
     * voices loaded yet, installs the `onvoiceschanged` handler. Returns the
     * captured id (the model's handle on the new closures).
     */
    method SpeakText(text: string, voicesLoaded: bool) returns (myId: Option<nat>)
      requires Valid()
      modifies this
      ensures Valid()
      ensures !supported ==> myId == None && State() == old(State()).(log := old(log) + [EndedUnsupported])
      ensures supported ==> myId == Some(currentId) && currentId == old(currentId) + 1
      ensures supported ==>
        var started := Started(old(State()), SplitSentences(text), voicesLoaded);
        State() == if voicesLoaded then Loop(started) else started
    {
      if !supported {
        UnsupportedKeeps(State());
        log := log + [EndedUnsupported];
        return None;
      }
      var split := SplitSentences(text);
      ghost var started := Started(State(), split, voicesLoaded);
      StartKeeps(State(), split, voicesLoaded);
      currentId := currentId + 1;
      var id := currentId;
      chunks := split;
      index := 0;
      issued := issued + {id};
      if !voicesLoaded {
        voicesHandler := Some(id);
        phase := AwaitingVoices;
        assert State() == started;
      } else {
        phase := Ready;
        assert State() == started;
        SpeakNextChunk(id);
        LoopAdvances(started);
      }
      myId := Some(id);
    }

    /** `speakNextChunk` of the closure holding `id`: stale ids do nothing, the current one runs the chunk loop. */
    method SpeakNextChunk(id: nat)
      requires Valid() && id in issued
      requires id == currentId ==> phase == Ready
      modifies this
      decreases |chunks| - index
      ensures Valid()
      ensures id != old(currentId) ==> unchanged(this)
      ensures id == old(currentId) ==> State() == Loop(old(State()))
    {
      if id != currentId {
        return;
      }
      ghost var before := State();
      LoopKeeps(before);
      if index == |chunks| {
        log := log + [Ended(id)];
        phase := Finished;
        assert State() == Loop(before);
        return;
      }
      var chunkText := Trim(chunks[index]);
      if chunkText == [] {
        SkipKeeps(before);
        index := index + 1;
        assert State() == before.(index := before.index + 1);
        SpeakNextChunk(id);
        return;
      }
      log := log + [Spoke(id, chunkText)];
      phase := Speaking;
      assert State() == Loop(before);
    }

    /** The engine finished an utterance of the closure holding `id` (`utterance.onend`): go on with the next chunk. */
    method OnUtteranceEnd(id: nat)
      requires Valid() && id in issued
      requires id == currentId ==> phase == Speaking
      modifies this
      ensures Valid()
      ensures id != old(currentId) ==> unchanged(this)
      ensures id == old(currentId) ==> State() == Loop(old(State()).(index := old(index) + 1, phase := Ready))
    {
      if id != currentId {
        return;
      }
      ghost var ready := State().(index := index + 1, phase := Ready);
      AdvanceKeeps(State());
      index := index + 1;
      phase := Ready;
      assert State() == ready;
      SpeakNextChunk(id);
    }

    /**
     * The engine reported an error on an utterance of the closure holding `id`
     * (`utterance.onerror`): an interruption is swallowed, any other error ends
     * the playback and calls `onEnd`.
     */
    method OnUtteranceError(id: nat, error: string)
      requires Valid() && id in issued
      requires id == currentId ==> phase == Speaking
      modifies this
      ensures Valid()
      ensures id != old(currentId) ==> unchanged(this)
      ensures id == old(currentId) && (error == Interrupted || error == Canceled) ==>
        State() == old(State()).(phase := Hung)
      ensures id == old(currentId) && error != Interrupted && error != Canceled ==>
        State() == old(State()).(phase := Failed, log := old(log) + [Ended(id)])
    {
      if id != currentId {
        return;
      }
      if error == Interrupted || error == Canceled {
        ghost var before := State();
        HangKeeps(before);
        phase := Hung;
        assert State() == before.(phase := Hung);
        return;
      }
      ghost var before := State();
      FailKeeps(before);
      log := log + [Ended(id)];
      phase := Failed;
      assert State() == before.(phase := Failed, log := before.log + [Ended(id)]);
    }

    /**
     * The browser fires `voiceschanged`: the installed handler, if any, does
     * nothing when its id is stale; otherwise it starts the chunk loop and
     * uninstalls itself. (The source clears the handler slot right after the
     * synchronous first step of the loop; clearing it just before is the same
     * to every observer.)
     */
    method VoicesChanged()
      requires Valid()
      modifies this
      ensures Valid()
      ensures old(voicesHandler) != Some(old(currentId)) ==> unchanged(this)
      ensures old(voicesHandler) == Some(old(currentId)) ==>
        State() == Loop(old(State()).(voicesHandler := None, phase := Ready))
    {
      if voicesHandler.None? {
        return;
      }
      var myId := voicesHandler.value;
      if myId != currentId {
        return;
      }
      ghost var ready := State().(voicesHandler := None, phase := Ready);
      ResumeKeeps(State());
      voicesHandler := None;
      phase := Ready;
      assert State() == ready;
      SpeakNextChunk(myId);
    }
  }

  /**
   * Speaking B right after A: whatever the engine then reports for A's
   * utterance changes nothing.
   */
  method SpeakThenSpeakAgain(a: string, b: string)
  {
    var synth := new Synthesizer(true);
    ghost var s0 := synth.State();
    var first := synth.SpeakText(a, true);
    LoopAdvances(Started(s0, SplitSentences(a), true));
    ghost var s1 := synth.State();
    var second := synth.SpeakText(b, true);
    LoopAdvances(Started(s1, SplitSentences(b), true));
    assert first.value in synth.issued && first.value < second.value == synth.currentId;
    ghost var afterB := synth.log;
    synth.OnUtteranceEnd(first.value);
    synth.OnUtteranceError(first.value, "synthesis-failed");
    assert synth.log == afterB;
  }

  /**
   * Stopping a playback, or one still waiting for its voices: no later report
   * of that playback says or ends anything.
   */
  method StopMidPlayback(text: string, error: string, voicesLoaded: bool)
  {
    var synth := new Synthesizer(true);
    ghost var s0 := synth.State();
    var id := synth.SpeakText(text, voicesLoaded);
    if voicesLoaded {
      LoopAdvances(Started(s0, SplitSentences(text), true));
    }
    synth.Stop();
    ghost var stopped := synth.log;
    synth.OnUtteranceEnd(id.value);
    synth.OnUtteranceError(id.value, error);
    synth.VoicesChanged();
    assert synth.log == stopped;
  }
}
