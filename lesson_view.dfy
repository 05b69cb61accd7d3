/**
 * The lesson screen's controller: on mount, resume a saved lesson or start a
 * new one; start, resume and save lessons; gate the microphone; and run one
 * spoken turn (optimistic learner entry, then the tutor's reply committed
 * only on success).
 *
 * The screen's state variables are the fields of `LessonController`. The
 * tutor service and `localStorage` are objects of their own; every answer
 * of the tutor, and whether a save or a chat creation succeeds, is an input.
 * A spoken turn is split at its one `await`: `SubmitAnswer` runs up to the
 * call to the tutor and leaves a pending turn holding what its closure
 * captured; `ReceiveReply` runs the rest once the answer is in. A closure
 * reads the state of the render that created it: the recognizer a
 * microphone click starts hands its result to the `submitAnswer` of the
 * click's render, which sees that render's transcript and scores
 * (`RenderView`). Where the screen would hand a text to `speakText`, the
 * method returns it.
 */
module LessonView {
  import opened Wrappers
  import opened JsText
  import opened LessonTypes
  import opened Dialogue
  import opened BrowserStorage
  import SpeechInput

  const SavePrefix: string := "lingo_save_"
  const LoadFailedMessage: string := "Failed to load lesson. Check connection/API Key."
  const ConnectionErrorMessage: string := "Connection error."
  const NoSpeechMessage: string := "Didn't catch that. Tap to try again."
  const MicFailedMessage: string := "Microphone error. Please try again."
  const ShortNoSpeechMessage: string := "Didn't catch that."
  const XPPerTurn: int := 10
  const ProgressPerTurn: int := 10
  const MaxProgress: int := 100

  /** The one `localStorage` key under which a unit's lesson is saved, read and removed. */
  function SaveKey(unitId: string): string
  {
    SavePrefix + unitId
  }

  /** Every key starts with the prefix, and different units never share a key. */
  lemma SaveKeyInjective(a: string, b: string)
    ensures SaveKey(a)[..|SavePrefix|] == SavePrefix && SaveKey(a)[|SavePrefix|..] == a
    ensures SaveKey(a) == SaveKey(b) <==> a == b
  {
    assert SaveKey(a)[|SavePrefix|..] == a;
    assert SaveKey(b)[|SavePrefix|..] == b;
  }

  /** The message shown for a recognition error code. */
  function MicErrorMessage(error: string): (m: string)
    ensures m == NoSpeechMessage <==> error == "no-speech"
    ensures m == NoSpeechMessage || m == MicFailedMessage
  {
    if error == "no-speech" then NoSpeechMessage else MicFailedMessage
  }

  /** `Math.min(progress + 10, 100)`. */
  function NextProgress(p: int): (q: int)
    ensures q <= MaxProgress
    ensures q == p + ProgressPerTurn || q == MaxProgress
    ensures q == MaxProgress <==> p >= MaxProgress - ProgressPerTurn
  {
    if p + ProgressPerTurn < MaxProgress then p + ProgressPerTurn else MaxProgress
  }

  /** Progress in range stays in range and never goes down; it stands still only when full. */
  lemma NextProgressInRange(p: int)
    requires 0 <= p <= MaxProgress
    ensures p <= NextProgress(p) <= MaxProgress
    ensures NextProgress(p) == p <==> p == MaxProgress
  {
  }

  /** Progress after `n` successful turns from `p`. */
  function ProgressAfter(p: int, n: nat): int
  {
    if n == 0 then p else NextProgress(ProgressAfter(p, n - 1))
  }

  /** After `n` successful turns, progress is `min(p + 10 n, 100)`: ten turns fill a lesson started from 0. */
  lemma {:induction false} ProgressAfterTurns(p: int, n: nat)
    requires p <= MaxProgress
    ensures ProgressAfter(p, n) == if p + ProgressPerTurn * n < MaxProgress then p + ProgressPerTurn * n else MaxProgress
  {
    if n > 0 {
      ProgressAfterTurns(p, n - 1);
    }
  }

  /** The first bubble of a new lesson: the tutor's opening question, with its voice script. */
  function OpeningEntry(r: LessonResponse): ChatEntry
  {
    ChatEntry(Model, r.nextQuestion, None, Some(r.voiceScript))
  }

  /** The learner's bubble for a transcript. */
  function LearnerEntry(transcript: string): ChatEntry
  {
    ChatEntry(User, transcript, None, None)
  }

  /** The tutor's bubble for a reply: the reply and the next question, the correction, the voice script. */
  function ReplyEntry(r: LessonResponse): ChatEntry
  {
    ChatEntry(Model, r.reply + " " + r.nextQuestion, r.correction, Some(r.voiceScript))
  }

  /** What is handed to `speakText` for a voice script: nothing when it is empty. */
  function SpeechRequest(voiceScript: string): (speak: Option<string>)
    ensures speak.Some? <==> voiceScript != ""
    ensures speak.Some? ==> speak.value == voiceScript
  {
    if voiceScript != "" then Some(voiceScript) else None
  }

  /**
   * What a render's `submitAnswer` reads of the screen: the transcript, the
   * scores and the hearts as they were in that render. The recognizer a
   * microphone click starts calls the `submitAnswer` of the click's render,
   * so a result arriving later still sees these values.
   */
  datatype RenderView = RenderView(entries: seq<ChatEntry>, progress: int, currentXP: int, hearts: int)

  /** What the closure of one `submitAnswer` call holds across its `await`. */
  datatype PendingTurn = PendingTurn(
    transcript: string,
    entries: seq<ChatEntry>,  // the transcript with the learner's entry appended
    progress: int,
    currentXP: int,
    hearts: int)

  /** The screen's state variables. */
  datatype ScreenState = ScreenState(
    hearts: int,
    loading: bool,
    listening: bool,
    processing: bool,
    showResumeDialog: bool,
    chatEntries: seq<ChatEntry>,
    progress: int,
    currentXP: int,
    errorMessage: string,
    savedState: Option<SavedLessonState>,
    hasInitialized: bool,
    pending: seq<PendingTurn>)


  /** Progress within [0, 100] and XP not negative. */
  predicate ScoresInRange(progress: int, xp: int)
  {
    0 <= progress <= MaxProgress && 0 <= xp
  }

  /** A snapshot, if there is one, with its scores in range. */
  predicate SnapshotInRange(saved: Option<SavedLessonState>)
  {
    saved.Some? ==> ScoresInRange(saved.value.progress, saved.value.currentXP)
  }

  /** The scores on screen, in every waiting turn and in the snapshot offered for resuming are in range. */
  predicate ScreenInRange(s: ScreenState)
  {
    && ScoresInRange(s.progress, s.currentXP)
    && (forall t :: t in s.pending ==> ScoresInRange(t.progress, t.currentXP))
    && SnapshotInRange(s.savedState)
  }

  /** The values a closure created in a render of screen `s` reads. */
  function ViewOf(s: ScreenState): RenderView
  {
    RenderView(s.chatEntries, s.progress, s.currentXP, s.hearts)
  }

  /** The snapshot a screen can resume from `items`: the value under `key`, if it parses. */
  function ResumableIn(items: map<string, Stored>, key: string): (saved: Option<SavedLessonState>)
    ensures saved.Some? <==> key in items && items[key].Snapshot?
    ensures saved.Some? ==> saved.value == items[key].state
  {
    if key in items && items[key].Snapshot? then Some(items[key].state) else None
  }

  /**
   * Saving and removing act on one unit only: what the mount check of a
   * unit finds after a save of it is exactly the saved snapshot, after a
   * removal nothing, and every other unit finds what it found before.
   */
  lemma SaveThenOffer(items: map<string, Stored>, id: string, st: SavedLessonState, other: string)
    ensures ResumableIn(items[SaveKey(id) := Snapshot(st)], SaveKey(id)) == Some(st)
    ensures ResumableIn(items - {SaveKey(id)}, SaveKey(id)) == None
    ensures other != id ==>
      && ResumableIn(items[SaveKey(id) := Snapshot(st)], SaveKey(other)) == ResumableIn(items, SaveKey(other))
      && ResumableIn(items - {SaveKey(id)}, SaveKey(other)) == ResumableIn(items, SaveKey(other))
  {
    SaveKeyInjective(id, other);
  }

  /** The mount check found `saved`: it is offered for resuming and the loading state ends. */
  function Offered(s: ScreenState, saved: SavedLessonState): ScreenState
  {
    s.(hasInitialized := true, loading := false, showResumeDialog := true, savedState := Some(saved))
  }

  /**
   * The screen after `startNewLesson`, given how the tutor answered: the
   * opening question as the only entry, or the load error; loading over and
   * the resume dialog closed either way. Nothing else changes: in
   * particular the scores on screen are not reset.
   */
  function NewLessonScreen(s: ScreenState, r: Result<LessonResponse>): ScreenState
  {
    if r.Ok? then s.(loading := false, showResumeDialog := false, chatEntries := [OpeningEntry(r.value)])
    else s.(loading := false, showResumeDialog := false, errorMessage := LoadFailedMessage)
  }

  /** `resumeLesson` once the tutor's chat is recreated: the snapshot's transcript, scores and hearts. */
  function Resumed(s: ScreenState, saved: SavedLessonState): ScreenState
  {
    s.(loading := false, showResumeDialog := false, chatEntries := saved.chatEntries,
       progress := saved.progress, currentXP := saved.currentXP, hearts := saved.hearts)
  }

  /**
   * A microphone click: refused while listening or processing; otherwise
   * listening with the error cleared, or, without a recognition API,
   * stopped again at once with the generic microphone error.
   */
  function MicClicked(s: ScreenState, available: bool): ScreenState
  {
    if s.listening || s.processing then s
    else if available then s.(listening := true, errorMessage := "")
    else s.(listening := false, errorMessage := MicFailedMessage)
  }

  /**
   * The `submitAnswer` of a render that saw `view`, up to its `await`: a
   * blank transcript changes nothing; otherwise the transcript that render
   * saw, with the learner's entry appended, is shown at once, and the turn
   * waits holding it and that render's scores and hearts.
   */
  function Submitted(s: ScreenState, view: RenderView, transcript: string): ScreenState
  {
    if Trim(transcript) == [] then s
    else
      var entries := view.entries + [LearnerEntry(transcript)];
      s.(processing := true, errorMessage := "", chatEntries := entries,
         pending := s.pending + [PendingTurn(transcript, entries, view.progress, view.currentXP, view.hearts)])
  }

  /**
   * The rest of the `k`-th waiting turn once the tutor's answer `r` is in:
   * on success the tutor's entry follows the learner's and the scores move
   * on from the captured ones; on failure only the error is shown.
   */
  function Replied(s: ScreenState, k: nat, r: Result<LessonResponse>): ScreenState
    requires k < |s.pending|
  {
    var turn := s.pending[k];
    var rest := s.pending[..k] + s.pending[k + 1..];
    if r.Ok? then
      s.(chatEntries := turn.entries + [ReplyEntry(r.value)], currentXP := turn.currentXP + XPPerTurn,
         progress := NextProgress(turn.progress), processing := false, pending := rest)
    else s.(errorMessage := ConnectionErrorMessage, processing := false, pending := rest)
  }

  /** A new lesson shows exactly one entry, the tutor's opening question, or else the load error over the old transcript; it leaves the scores, the hearts and any waiting turn alone. */
  lemma NewLessonShape(s: ScreenState, r: Result<LessonResponse>)
    ensures var t := NewLessonScreen(s, r);
      && !t.loading && !t.showResumeDialog
      && t.progress == s.progress && t.currentXP == s.currentXP && t.hearts == s.hearts
      && t.pending == s.pending && t.processing == s.processing && t.listening == s.listening
      && t.savedState == s.savedState && t.hasInitialized == s.hasInitialized
      && (r.Ok? ==> |t.chatEntries| == 1 && t.chatEntries[0].role == Model
                    && t.chatEntries[0].text == r.value.nextQuestion && t.errorMessage == s.errorMessage)
      && (r.Err? ==> t.chatEntries == s.chatEntries && t.errorMessage == LoadFailedMessage)
  {
  }

  /**
   * One spoken turn, start to end, with no other turn finishing in between:
   * the learner's entry stays whatever the tutor does; on success the
   * tutor's entry follows it, XP grows by exactly 10 and progress moves to
   * `min(progress + 10, 100)`; on failure the scores stay and the
   * connection error shows. No turn is left waiting that was not before.
   */
  lemma OneTurn(s: ScreenState, transcript: string, r: Result<LessonResponse>)
    requires Trim(transcript) != []
    ensures var k := |s.pending|;
      var after := Submitted(s, ViewOf(s), transcript);
      k < |after.pending| &&
      var t := Replied(after, k, r);
      && t.pending == s.pending && !t.processing && t.hearts == s.hearts
      && (r.Ok? ==>
            && t.chatEntries == s.chatEntries + [LearnerEntry(transcript), ReplyEntry(r.value)]
            && t.currentXP == s.currentXP + XPPerTurn && t.progress == NextProgress(s.progress)
            && t.errorMessage == "")
      && (r.Err? ==>
            && t.chatEntries == s.chatEntries + [LearnerEntry(transcript)]
            && t.currentXP == s.currentXP && t.progress == s.progress
            && t.errorMessage == ConnectionErrorMessage)
  {
    var k := |s.pending|;
    var after := Submitted(s, ViewOf(s), transcript);
    assert after.pending[..k] + after.pending[k + 1..] == s.pending;
  }

  /** A waiting turn is created in range from a screen, and a render's view, in range. */
  lemma SubmitKeepsRange(s: ScreenState, view: RenderView, transcript: string)
    requires ScreenInRange(s) && ScoresInRange(view.progress, view.currentXP)
    ensures ScreenInRange(Submitted(s, view, transcript))
  {
  }

  /**
   * Two results for recognizers started from the same render (two clicks
   * with no render in between that changed the transcript): both turns
   * start from that render's transcript and scores, so the second shows
   * only its own learner entry, and when both succeed the later reply's
   * transcript lacks the first learner entry and XP has grown by 10, not 20.
   */
  lemma SameRenderTurns(s: ScreenState, a: string, b: string, ra: LessonResponse, rb: LessonResponse)
    requires Trim(a) != [] && Trim(b) != []
    ensures var v := ViewOf(s);
      var k := |s.pending|;
      var t := Submitted(Submitted(s, v, a), v, b);
      && t.chatEntries == s.chatEntries + [LearnerEntry(b)]
      && |t.pending| == k + 2
      && t.pending[k].entries == s.chatEntries + [LearnerEntry(a)]
      && var u := Replied(Replied(t, k, Ok(ra)), k, Ok(rb));
      && u.pending == s.pending
      && u.chatEntries == s.chatEntries + [LearnerEntry(b), ReplyEntry(rb)]
      && u.currentXP == s.currentXP + XPPerTurn
  {
    var v := ViewOf(s);
    var k := |s.pending|;
    var t := Submitted(Submitted(s, v, a), v, b);
    var t1 := Replied(t, k, Ok(ra));
    assert t1.pending == s.pending + [t.pending[k + 1]];
    assert t1.pending[..k] + t1.pending[k + 1..] == s.pending;
  }

  /** A finished turn, successful or not, keeps every score in range. */
  lemma ReplyKeepsRange(s: ScreenState, k: nat, r: Result<LessonResponse>)
    requires ScreenInRange(s) && k < |s.pending|
    ensures ScreenInRange(Replied(s, k, r))
  {
    var turn := s.pending[k];
    assert turn in s.pending;
    NextProgressInRange(turn.progress);
    var rest := s.pending[..k] + s.pending[k + 1..];
    forall t | t in rest ensures ScoresInRange(t.progress, t.currentXP) {
      assert t in s.pending[..k] || t in s.pending[k + 1..];
    }
  }

  /** Offering a snapshot in range, or resuming from the offered one, keeps the scores in range. */
  lemma ResumeKeepsRange(s: ScreenState, saved: SavedLessonState)
    requires ScreenInRange(s)
    ensures SnapshotInRange(Some(saved)) ==> ScreenInRange(Offered(s, saved))
    ensures s.savedState == Some(saved) ==> ScreenInRange(Resumed(s, saved))
  {
  }

  /** The microphone guard: a click while listening or processing changes nothing, so a second click right after an accepted one is refused. */
  lemma MicGuard(s: ScreenState, available: bool, again: bool)
    ensures s.listening || s.processing ==> MicClicked(s, available) == s
    ensures MicClicked(MicClicked(s, true), again) == MicClicked(s, true)
    ensures MicClicked(s, available).processing == s.processing
    ensures ScreenInRange(s) ==> ScreenInRange(MicClicked(s, available))
  {
  }

  class LessonController {
    const unit: Unit
    /** The learner's level, sent with the opening prompt. */
    const level: string
    const storage: LocalStorage
    const client: DialogueClient
    /** The learner's hearts as the app holds them (`user.hearts`, set through `updateHearts`). */
    var hearts: int
    var loading: bool
    var listening: bool
    var processing: bool
    var showResumeDialog: bool
    var chatEntries: seq<ChatEntry>
    var progress: int
    var currentXP: int
    var errorMessage: string
    var savedState: Option<SavedLessonState>
    /** The `hasInitialized` ref: the mount check runs once. */
    var hasInitialized: bool
    /** The `submitAnswer` calls waiting for the tutor, oldest first. */
    var pending: seq<PendingTurn>

    ghost function Screen(): ScreenState
      reads this
    {
      ScreenState(hearts, loading, listening, processing, showResumeDialog, chatEntries, progress,
                  currentXP, errorMessage, savedState, hasInitialized, pending)
    }

    /** `processing` is only ever set while some turn waits for the tutor. */
    ghost predicate Valid()
      reads this
    {
      processing ==> pending != []
    }

    /** The snapshot `saveProgress` writes for these values, with the tutor's current context. */
    ghost function SnapshotOf(entries: seq<ChatEntry>, prog: int, xp: int, h: int): SavedLessonState
      reads client
    {
      SavedLessonState(unit.id, client.History(), entries, prog, xp, h)
    }

    /**
     * How a call of `startNewLesson` on a screen in state `base`, with the
     * chat created or not and the tutor answering `reply`, left things: a
     * fresh chat if one was created, the old one otherwise; the screen as
     * `NewLessonScreen` says; the unit's snapshot removed, and written back
     * with progress 0 and XP 0 around the one-entry transcript only when the
     * lesson started and the save went through.
     */
    twostate predicate StartedNewLesson(base: ScreenState, created: bool, reply: Reply, saveOk: bool, new speak: Option<string>)
      reads this, storage, client
    {
      var r := if created then Outcome(reply) else Err(CreateFailed);
      && client.session == (if created then Some(Exchanged([], OpeningPrompt(level, LessonTopic(unit)), reply))
                            else old(client.session))
      && Screen() == NewLessonScreen(base, r)
      && storage.items == (if r.Ok? && saveOk
          then old(storage.items)[SaveKey(unit.id) := Snapshot(SnapshotOf([OpeningEntry(r.value)], 0, 0, base.hearts))]
          else old(storage.items) - {SaveKey(unit.id)})
      && speak == (if r.Ok? then SpeechRequest(r.value.voiceScript) else None)
    }

    /** The screen as it first renders, before the mount check. */
    constructor (unit: Unit, level: string, hearts: int, storage: LocalStorage, client: DialogueClient)
      ensures Valid()
      ensures this.unit == unit && this.level == level && this.storage == storage && this.client == client
      ensures Screen() == ScreenState(hearts, true, false, false, false, [], 0, 0, "", None, false, [])
    {
      this.unit := unit;
      this.level := level;
      this.storage := storage;
      this.client := client;
      this.hearts := hearts;
      loading := true;
      listening := false;
      processing := false;
      showResumeDialog := false;
      chatEntries := [];
      progress := 0;
      currentXP := 0;
      errorMessage := "";
      savedState := None;
      hasInitialized := false;
      pending := [];
    }

    /**
     * `saveProgress`: one write of the tutor's context and the transcript,
     * with the scores, under the unit's key; a failure (of the context read
     * or of the write) is swallowed and leaves storage as it was.
     */
    method SaveProgress(entries: seq<ChatEntry>, prog: int, xp: int, h: int, ok: bool)
      modifies storage
      ensures ok ==> storage.items == old(storage.items)[SaveKey(unit.id) := Snapshot(SnapshotOf(entries, prog, xp, h))]
      ensures !ok ==> storage.items == old(storage.items)
    {
      if ok {
        var history := client.History();
        storage.SetItem(SaveKey(unit.id), Snapshot(SavedLessonState(unit.id, history, entries, prog, xp, h)));
      }
    }

    /**
     * `startNewLesson`: removes the unit's snapshot before contacting the
     * tutor; on an answer, shows the opening question as the only entry and
     * saves it with progress 0 and XP 0; otherwise (no chat created, or no
     * usable answer) shows the load error.
     */
    method StartNewLesson(created: bool, reply: Reply, saveOk: bool) returns (speak: Option<string>)
      requires Valid()
      modifies this, storage, client
      ensures Valid()
      ensures StartedNewLesson(old(Screen()), created, reply, saveOk, speak)
    {
      ghost var before := Screen();
      loading := true;
      showResumeDialog := false;
      storage.RemoveItem(SaveKey(unit.id));
      var r := client.StartLessonSession(level, LessonTopic(unit), created, reply);
      if r.Ok? {
        var entry := OpeningEntry(r.value);
        chatEntries := [entry];
        loading := false;
        SaveProgress([entry], 0, 0, hearts, saveOk);
        speak := SpeechRequest(r.value.voiceScript);
      } else {
        errorMessage := LoadFailedMessage;
        loading := false;
        speak := None;
      }
      assert Screen() == NewLessonScreen(before, r);
    }

    /**
     * The mount check, once per screen: a snapshot that parses is offered
     * for resuming, with no new session; a missing or unreadable one starts
     * a new lesson.
     */
    method Mount(created: bool, reply: Reply, saveOk: bool) returns (speak: Option<string>)
      requires Valid()
      modifies this, storage, client
      ensures Valid()
      ensures old(hasInitialized) ==> unchanged(this, storage, client) && speak == None
      ensures !old(hasInitialized) && ResumableIn(old(storage.items), SaveKey(unit.id)).Some? ==>
        && Screen() == Offered(old(Screen()), ResumableIn(old(storage.items), SaveKey(unit.id)).value)
        && unchanged(storage, client) && speak == None
      ensures !old(hasInitialized) && ResumableIn(old(storage.items), SaveKey(unit.id)).None? ==>
        StartedNewLesson(old(Screen()).(hasInitialized := true), created, reply, saveOk, speak)
    {
      if hasInitialized {
        return None;
      }
      ghost var before := Screen();
      hasInitialized := true;
      var saved := storage.GetItem(SaveKey(unit.id));
      if saved.Some? && saved.value.Snapshot? {
        savedState := Some(saved.value.state);
        showResumeDialog := true;
        loading := false;
        speak := None;
      } else {
        assert Screen() == before.(hasInitialized := true);
        speak := StartNewLesson(created, reply, saveOk);
      }
    }

    /**
     * `resumeLesson`: nothing without a saved state; otherwise recreates the
     * tutor's chat from the saved context and restores the transcript, the
     * scores and the hearts, or, if that fails (`recreated` false), starts a
     * new lesson, whose own chat creation is `created`.
     */
    method ResumeLesson(recreated: bool, created: bool, reply: Reply, saveOk: bool) returns (speak: Option<string>)
      requires Valid()
      modifies this, storage, client
      ensures Valid()
      ensures old(savedState).None? ==> unchanged(this, storage, client) && speak == None
      ensures old(savedState).Some? && recreated ==>
        && Screen() == Resumed(old(Screen()), old(savedState).value)
        && client.session == Some(old(savedState).value.history)
        && unchanged(storage) && speak == None
      ensures old(savedState).Some? && !recreated ==> StartedNewLesson(old(Screen()), created, reply, saveOk, speak)
    {
      if savedState.None? {
        return None;
      }
      ghost var before := Screen();
      var st := savedState.value;
      loading := true;
      showResumeDialog := false;
      var ok := client.ResumeLessonSession(st.history, recreated);
      if ok {
        chatEntries := st.chatEntries;
        progress := st.progress;
        currentXP := st.currentXP;
        hearts := st.hearts;
        loading := false;
        speak := None;
      } else {
        ghost var mid := Screen();
        assert mid == before.(loading := true, showResumeDialog := false);
        speak := StartNewLesson(created, reply, saveOk);
        ghost var r := if created then Outcome(reply) else Err(CreateFailed);
        assert NewLessonScreen(mid, r) == NewLessonScreen(before, r);
      }
    }

    /** One call of the callbacks the microphone click hands to `startListening`. */
    method Deliver(call: SpeechInput.ListenerCall)
      modifies this
      ensures call.OnResult? ==> unchanged(this)
      ensures call.OnEnd? ==> Screen() == old(Screen()).(listening := false)
      ensures call.OnError? ==>
        Screen() == old(Screen()).(listening := false, errorMessage := MicErrorMessage(call.error))
    {
      match call
      case OnResult(_) =>
      case OnEnd =>
        listening := false;
      case OnError(err) =>
        listening := false;
        errorMessage := MicErrorMessage(err);
    }

    /**
     * One event of the second recognizer that a microphone click, made in a
     * render that saw `view`, starts itself when the browser has a
     * recognition API: a result goes to that render's `submitAnswer`; an
     * error stops listening, showing the short message only for
     * `no-speech`; the end of speech stops listening; its `onend` has no
     * handler.
     */
    method HearInline(view: RenderView, e: SpeechInput.RecognitionEvent)
      requires Valid()
      modifies this
      ensures Valid()
      ensures e.Recognized? ==> Screen() == Submitted(old(Screen()), view, e.transcript)
      ensures e.Failed? ==> Screen() == old(Screen()).(listening := false,
        errorMessage := if e.error == "no-speech" then ShortNoSpeechMessage else old(errorMessage))
      ensures e.SpeechEnded? ==> Screen() == old(Screen()).(listening := false)
      ensures e.Closed? ==> unchanged(this)
    {
      match e
      case Recognized(t) =>
        SubmitAnswer(view, t);
      case Failed(err) =>
        listening := false;
        if err == "no-speech" {
          errorMessage := ShortNoSpeechMessage;
        }
      case SpeechEnded =>
        listening := false;
      case Closed =>
    }

    /**
     * `handleMicrophoneClick`: refused while listening or processing;
     * otherwise starts listening with the error message cleared. Without a
     * recognition API, `startListening` at once reports the error and ends;
     * with one, the click also starts its own recognizer, whose closures
     * hold the view of the click's render, returned as `recognizer`.
     */
    method MicrophoneClick(available: bool) returns (accepted: bool, recognizer: Option<RenderView>)
      requires Valid()
      modifies this
      ensures Valid()
      ensures accepted <==> !old(listening) && !old(processing)
      ensures recognizer.Some? <==> accepted && available
      ensures recognizer.Some? ==> recognizer.value == ViewOf(old(Screen()))
      ensures Screen() == MicClicked(old(Screen()), available)
    {
      if listening || processing {
        return false, None;
      }
      recognizer := if available then Some(RenderView(chatEntries, progress, currentXP, hearts)) else None;
      listening := true;
      errorMessage := "";
      if !available {
        var calls := SpeechInput.StartListening(false, []);
        SpeechInput.UnsupportedErrorThenEnd([]);
        Deliver(calls[0]);
        Deliver(calls[1]);
      }
      accepted := true;
    }

    /** The `submitAnswer` of a render that saw `view`, up to its `await`, as `Submitted` says. */
    method SubmitAnswer(view: RenderView, transcript: string)
      requires Valid()
      modifies this
      ensures Valid()
      ensures Screen() == Submitted(old(Screen()), view, transcript)
    {
      if Trim(transcript) == [] {
        return;
      }
      processing := true;
      errorMessage := "";
      var updated := view.entries + [LearnerEntry(transcript)];
      chatEntries := updated;
      pending := pending + [PendingTurn(transcript, updated, view.progress, view.currentXP, view.hearts)];
    }

    /**
     * The rest of the `k`-th waiting `submitAnswer` once the tutor answered
     * `reply`, as `Replied` says: the exchange goes to the tutor's chat (and
     * fails without one); on success the final transcript is saved with the
     * new scores and the voice script is to be spoken; on failure (no
     * session, a failed call, an empty or unparsable reply) nothing is saved.
     */
    method ReceiveReply(k: nat, reply: Reply, saveOk: bool) returns (speak: Option<string>)
      requires Valid() && k < |pending|
      modifies this, storage, client
      ensures Valid()
      ensures
        var turn := old(pending[k]);
        var r := if old(client.session).None? then Err(NoSession) else Outcome(reply);
        && Screen() == Replied(old(Screen()), k, r)
        && (old(client.session).Some? ==>
              client.session == Some(Exchanged(old(client.session).value, LearnerSaid(turn.transcript), reply)))
        && (old(client.session).None? ==> client.session == None)
        && (r.Ok? ==>
              && speak == SpeechRequest(r.value.voiceScript)
              && storage.items == if saveOk
                  then old(storage.items)[SaveKey(unit.id) := Snapshot(SnapshotOf(chatEntries, progress, currentXP, turn.hearts))]
                  else old(storage.items))
        && (r.Err? ==> speak == None && unchanged(storage))
    {
      var turn := pending[k];
      pending := pending[..k] + pending[k + 1..];
      var r := client.SubmitUserAudioText(turn.transcript, reply);
      if r.Ok? {
        var final := turn.entries + [ReplyEntry(r.value)];
        chatEntries := final;
        var newXP := turn.currentXP + XPPerTurn;
        var newProgress := NextProgress(turn.progress);
        currentXP := newXP;
        progress := newProgress;
        SaveProgress(final, newProgress, newXP, turn.hearts, saveOk);
        speak := SpeechRequest(r.value.voiceScript);
      } else {
        errorMessage := ConnectionErrorMessage;
        speak := None;
      }
      processing := false;
    }
  }

  /**
   * A first visit: with nothing saved, the mount check starts a new
   * lesson, which shows the tutor's opening question as the only entry,
   * with the scores at 0, and leaves a chat holding the opening exchange.
   */
  method OpenFirstLesson(unit: Unit, level: string, hearts: int, opening: LessonResponse)
    returns (screen: LessonController, storage: LocalStorage, client: DialogueClient)
    ensures fresh(screen) && fresh(storage) && fresh(client) && screen.Valid()
    ensures screen.unit == unit && screen.level == level && screen.storage == storage && screen.client == client
    ensures screen.Screen() == ScreenState(hearts, false, false, false, false, [OpeningEntry(opening)], 0, 0, "", None, true, [])
    ensures client.session == Some([Content(User, OpeningPrompt(level, LessonTopic(unit))), Content(Model, TutorText("{}"))])
  {
    storage := new LocalStorage(map[]);
    client := new DialogueClient();
    screen := new LessonController(unit, level, hearts, storage, client);
    var spoken := screen.Mount(true, Answered("{}", Some(opening)), true);
    var context := [Content(User, OpeningPrompt(level, LessonTopic(unit))), Content(Model, TutorText("{}"))];
    assert [] + context == context;
  }

  /**
   * A first visit with one spoken turn: the lesson opens, the learner
   * taps the microphone and answers, the tutor replies, and what ends up
   * saved under the unit's key is the three-entry transcript with progress
   * and XP at 10, the learner's hearts, and the tutor's context of both
   * exchanges.
   */
  method FirstTurnIsSaved(unit: Unit, level: string, hearts: int, opening: LessonResponse,
                          answer: LessonResponse, transcript: string) returns (storage: LocalStorage)
    requires Trim(transcript) != []
    ensures SaveKey(unit.id) in storage.items
    ensures storage.items[SaveKey(unit.id)] == Snapshot(SavedLessonState(
      unit.id,
      [Content(User, OpeningPrompt(level, LessonTopic(unit))), Content(Model, TutorText("{}")),
       Content(User, LearnerSaid(transcript)), Content(Model, TutorText("{}"))],
      [OpeningEntry(opening), LearnerEntry(transcript), ReplyEntry(answer)],
      10, 10, hearts))
  {
    var screen, client;
    screen, storage, client := OpenFirstLesson(unit, level, hearts, opening);
    var accepted, recognizer := screen.MicrophoneClick(true);
    screen.HearInline(recognizer.value, SpeechInput.Recognized(transcript));
    var spoken := screen.ReceiveReply(0, Answered("{}", Some(answer)), true);
  }

  /**
   * A saved lesson survives a reload: a new screen over the same storage,
   * with no chat yet, offers the snapshot for resuming, and resuming
   * restores the transcript, the scores, the hearts and the tutor's context.
   */
  method ReloadRestoresLesson(unit: Unit, level: string, hearts: int, storage: LocalStorage, saved: SavedLessonState)
    returns (entries: seq<ChatEntry>, progress: int, xp: int, restoredHearts: int, context: seq<Content>)
    requires SaveKey(unit.id) in storage.items && storage.items[SaveKey(unit.id)] == Snapshot(saved)
    modifies storage
    ensures entries == saved.chatEntries && progress == saved.progress && xp == saved.currentXP
    ensures restoredHearts == saved.hearts && context == saved.history
    ensures storage.items == old(storage.items)
  {
    var client := new DialogueClient();
    var screen := new LessonController(unit, level, hearts, storage, client);
    var spoken := screen.Mount(true, SendFailed, true);
    spoken := screen.ResumeLesson(true, true, SendFailed, true);
    entries, progress, xp, restoredHearts := screen.chatEntries, screen.progress, screen.currentXP, screen.hearts;
    context := client.History();
  }
}
