# Spoken lesson engine: a Dafny model

This project models the spoken-dialogue core of a language-lesson web app. A
learner talks to an AI tutor in English: the microphone produces a
transcript, the tutor answers with a structured reply, and the reply is read
aloud. The model covers three parts of that app:

- **The speech-output scheduler** (`services/speechService.ts`). It splits a
  text into sentence chunks and plays them one after another. It cancels
  every earlier playback through a module-wide counter, `currentSpeechId`,
  which works as a cancellation token.
- **The recognition wrapper** (`startListening`). It decides which of the
  caller's callbacks run, in which order.
- **The lesson screen's controller** (`components/LessonView.tsx`). It runs the
  mount check that offers a saved lesson, and it starts, resumes and saves
  lessons. It also holds the microphone guard and runs one spoken turn: the
  learner's entry appears at once, and the tutor's reply is committed and
  saved only on success.

The tutor service (`services/geminiService.ts`) and `localStorage` are
collaborators. Each is a small class whose behaviour the model takes as
given. Every answer of the tutor, and whether a save or a chat creation
succeeds, is an input.

Files, in dependency order:

| file | module | what it holds |
|---|---|---|
| `wrappers.dfy` | `Wrappers` | `Option`, `Result` |
| `js_text.dfy` | `JsText` | JavaScript whitespace and `String.prototype.trim` |
| `sentence_split.dfy` | `SentenceSplit` | the chunking regular expression `/[^.!?]+[.!?]+\|[^.!?]+$/g` with its `[text]` fallback, as a function, with its meaning and uniqueness proved |
| `speech_output.dfy` | `SpeechOutput` | the scheduler: its state, one value-level step per callback, the invariant and the `Synthesizer` class |
| `speech_input.dfy` | `SpeechInput` | recognition events and the callbacks they cause |
| `lesson_types.dfy` | `LessonTypes` | units, tutor replies, transcript entries, saved snapshots |
| `dialogue.dfy` | `Dialogue` | the tutor service's chat session as a class |
| `browser_storage.dfy` | `BrowserStorage` | `localStorage` as a class over a map |
| `lesson_view.dfy` | `LessonView` | the screen's state transitions as functions, their lemmas, and the `LessonController` class |

How the proofs are organised:

- **Scheduler and controller.** Both are classes whose methods change fields.
  Each method ensures that its new state, read as a datatype snapshot
  (`State()`, `Screen()`), equals a pure transition function applied to the
  old snapshot. The properties are then proved about those functions.
- **Scheduler trace.** The scheduler keeps a ghost trace of what it hands to
  the speech engine and of every `onEnd` call, each tagged with the
  generation (the `currentSpeechId` value) that was current. Its invariant
  (`SpeechOutput.Inv`) says two things:
  - the current generation has said exactly the trimmed non-blank chunks of
    its text, in order, up to where playback stands;
  - the current generation has called `onEnd` exactly once if it finished or
    failed, and never otherwise.
- **Stale generations.** Every method whose captured id is stale leaves the
  whole object unchanged.

## Model

| member | source | states |
|---|---|---|
| JsText.Trim | services/speechService.ts:47 | the trimmed text is empty exactly when the input is all whitespace; otherwise it starts and ends with non-whitespace |
| JsText.TrimUnique | components/LessonView.tsx:186 | trimming whitespace-surrounded core text gives back exactly that core, so `trim` is determined by what it keeps |
| JsText.TrimIdempotent | services/speechService.ts:47 | trimming twice is trimming once |
| JsText.TrimSplits | services/speechService.ts:47 | the input is leading whitespace, then the trimmed text, then trailing whitespace |
| SentenceSplit.RunEnd | services/speechService.ts:34 | the end of a maximal run of terminators (or non-terminators) from a position: everything before it matches, the character at it does not |
| SentenceSplit.SplitSentences | services/speechService.ts:34 | there is always at least one chunk; text made only of `.!?` (including the empty text) gives the `[text]` fallback; otherwise the chunks concatenate to the text minus its leading terminators |
| SentenceSplit.MatchFromConcat | services/speechService.ts:34 | the global match from a position covers the suffix after its leading terminators, with nothing lost or repeated |
| SentenceSplit.MatchFromWellSplit | services/speechService.ts:34 | every match is a sentence (non-terminators then terminators), except possibly a last fragment that runs to the end of the text |
| SentenceSplit.MatchFromEmpty | services/speechService.ts:34 | the match from a position is empty exactly when only terminators remain |
| SentenceSplit.MatchFromUnique | services/speechService.ts:34 | any sequence of sentences (plus an optional final fragment) that concatenates to the suffix is the match: the split is unique |
| SentenceSplit.MatchFromSkipsTerminators | services/speechService.ts:34 | terminators before a match are skipped: the match from a terminator equals the match after it |
| SentenceSplit.SplitWellFormed | services/speechService.ts:34 | unless the fallback applies, every chunk is a sentence except possibly a last fragment |
| SentenceSplit.SplitUnique | services/speechService.ts:34 | the chunks are the only well-formed split of the text after its leading terminators |
| SentenceSplit.ChunkInText | services/speechService.ts:34 | every chunk occurs in the text at the offset given by the lengths of the chunks before it |
| SpeechOutput.NextNonBlank | services/speechService.ts:47-52 | the loop stops at the first chunk at or after the index that is not blank once trimmed, and every chunk it skips is blank |
| SpeechOutput.PlayedSkipsBlanks | services/speechService.ts:47-52 | skipping blank chunks adds nothing to what has been said |
| SpeechOutput.PlayedAreTrimmed | services/speechService.ts:47-54 | everything a playback says is non-empty and already trimmed, and there is at most one utterance per chunk |
| SpeechOutput.FreshGeneration | services/speechService.ts:29-30 | a generation newer than everything in the trace has said nothing and ended nothing |
| SpeechOutput.AppendEvent | services/speechService.ts:43 | appending one event adds to what its own generation said or ended, and to nothing else |
| SpeechOutput.OthersUnaffected | services/speechService.ts:40 | events appended under the current generation leave every other generation's trace as it was |
| SpeechOutput.AppendCurrent | services/speechService.ts:43 | an event of the current generation (an `onEnd` only if none came yet) keeps generations bounded and ordered, and no generation ends twice |
| SpeechOutput.NewGeneration | services/speechService.ts:15 | minting a newer id keeps the trace invariant, and the new generation starts with a clean slate |
| SpeechOutput.StopKeeps | services/speechService.ts:10-16 | `stopSpeaking` keeps the scheduler invariant |
| SpeechOutput.UnsupportedKeeps | services/speechService.ts:19-23 | calling `onEnd` at once without speech synthesis keeps the invariant |
| SpeechOutput.StartKeeps | services/speechService.ts:26-34 | minting a new id and splitting the text keeps the invariant |
| SpeechOutput.FinishKeeps | services/speechService.ts:42-45 | past the last chunk, calling `onEnd` keeps the invariant |
| SpeechOutput.SkipKeeps | services/speechService.ts:47-52 | skipping a blank chunk keeps the invariant |
| SpeechOutput.PlayedNonBlank | services/speechService.ts:47-54 | looking at a non-blank chunk adds it, trimmed, to what has been said |
| SpeechOutput.SpeakKeeps | services/speechService.ts:54-100 | handing the trimmed chunk to the engine keeps the invariant, which then counts that chunk as said |
| SpeechOutput.AdvanceKeeps | services/speechService.ts:82-87 | moving past a finished utterance keeps the invariant |
| SpeechOutput.HangKeeps | services/speechService.ts:92-95 | swallowing an `interrupted`/`canceled` error keeps the invariant, with no `onEnd` |
| SpeechOutput.FailKeeps | services/speechService.ts:96-97 | ending on any other engine error and calling `onEnd` keeps the invariant |
| SpeechOutput.ResumeKeeps | services/speechService.ts:105-108 | the current voices handler starting the loop keeps the invariant |
| SpeechOutput.LoopAdvances | services/speechService.ts:37-101 | one run of `speakNextChunk` stops at the next non-blank chunk and hands exactly that chunk, trimmed, to the engine; with none left it calls `onEnd` once; nothing but the index, the phase and the trace changes |
| SpeechOutput.LoopKeeps | services/speechService.ts:37-101 | a run of the chunk loop keeps the invariant |
| SpeechOutput.LoopAppends | services/speechService.ts:37-101 | the chunk loop only appends events of the current generation |
| SpeechOutput.LoopLeavesOthers | services/speechService.ts:37-101 | a run of the chunk loop says and ends nothing for any generation but the current one |
| SpeechOutput.FinishedSaidAll | services/speechService.ts:42-45 | a finished playback has said every non-blank chunk of its text, trimmed and in order, and called `onEnd` exactly once |
| SpeechOutput.Synthesizer.constructor | services/speechService.ts:8 | the counter starts at 0 with nothing playing |
| SpeechOutput.Synthesizer.Stop | services/speechService.ts:10-16 | always mints a new id, whether or not anything plays; the invariant is kept |
| SpeechOutput.Synthesizer.SpeakText | services/speechService.ts:18-112 | without synthesis: `onEnd` once and nothing else; otherwise a new id, the split chunks, and either the first run of the loop or the wait for voices; returns the captured id |
| SpeechOutput.Synthesizer.SpeakNextChunk | services/speechService.ts:37-101 | a stale id changes nothing; the current one runs the loop as `Loop` says |
| SpeechOutput.Synthesizer.OnUtteranceEnd | services/speechService.ts:82-87 | a stale id changes nothing; the current one goes on with the next chunk |
| SpeechOutput.Synthesizer.OnUtteranceError | services/speechService.ts:89-98 | a stale id changes nothing; `interrupted`/`canceled` is swallowed; any other error calls `onEnd` once |
| SpeechOutput.Synthesizer.VoicesChanged | services/speechService.ts:104-109 | a stale or missing handler changes nothing; the current one starts the loop and uninstalls itself |
| SpeechInput.Forward | services/speechService.ts:140-156 | each engine event calls exactly one callback, except `onspeechend`, which only stops the engine |
| SpeechInput.UnsupportedErrorThenEnd | services/speechService.ts:129-133 | without a recognition API: `onError` with the fixed message, then `onEnd`, and nothing else |
| SpeechInput.ForwardAllAppend | services/speechService.ts:140-156 | forwarding is incremental over a run of events |
| SpeechInput.ForwardAllLength | services/speechService.ts:140-156 | one callback per event at most, exactly one each when there is no `onspeechend` |
| SpeechInput.ForwardAllReports | services/speechService.ts:140-156 | `onError(e)`, `onEnd` and `onResult(t)` are called if and only if the engine reported that error, its end, that transcript |
| LessonTypes.LessonTopicNonEmpty | components/LessonView.tsx:78 | the topic sent to the tutor (the first topic, or the description when that is missing or empty, as JavaScript `\|\|` decides) is empty only when the unit has neither |
| Dialogue.LearnerText | services/geminiService.ts:83 | the message is the fixed prefix, the learner's text verbatim, and a closing quote |
| Dialogue.LearnerTextInjective | services/geminiService.ts:83 | different learner texts give different messages |
| Dialogue.ExchangedKeepsAlternation | services/geminiService.ts:84 | an exchange keeps the context before it, grows it by exactly two turns when answered and by none when the call failed, and keeps a context of whole learner/tutor exchanges one; a fresh lesson's context is one |
| Dialogue.DialogueClient.constructor | services/geminiService.ts:26 | no session at load |
| Dialogue.DialogueClient.StartLessonSession | services/geminiService.ts:28-57 | when the chat is created, it replaces the old session whether or not the opening send succeeds, and the result is `Outcome` of the reply; when creating it fails, the old session, or none, stays and the call rejects |
| Dialogue.DialogueClient.ResumeLessonSession | services/geminiService.ts:60-75 | on creation, the session is one seeded with the saved history; on failure the old session stays |
| Dialogue.DialogueClient.SubmitUserAudioText | services/geminiService.ts:77-92 | without a session: "Session not started", and nothing changes; with one: the exchange is appended and the result is `Outcome` |
| BrowserStorage.LocalStorage.constructor | components/LessonView.tsx:52 | storage holds the given items |
| BrowserStorage.LocalStorage.SetItem | components/LessonView.tsx:132 | `getItem` afterwards returns the value for that key, and for every other key what it returned before |
| BrowserStorage.LocalStorage.RemoveItem | components/LessonView.tsx:75 | `getItem` afterwards finds nothing under that key, and for every other key what it found before |
| LessonView.SaveKeyInjective | components/LessonView.tsx:51 | the key is `lingo_save_` followed by the unit id, and two units share a key only if they are the same unit |
| LessonView.SaveThenOffer | components/LessonView.tsx:51-57 | after a save under a unit's key the mount check finds exactly the saved snapshot, after a removal nothing; every other unit finds what it found before |
| LessonView.NextProgress | components/LessonView.tsx:217 | `min(progress + 10, 100)`: never above 100, capped exactly from 90 up |
| LessonView.NextProgressInRange | components/LessonView.tsx:217 | progress in [0, 100] stays there and never decreases; it stands still only at 100 |
| LessonView.ProgressAfterTurns | components/LessonView.tsx:216-217 | after n successful turns, progress is `min(p + 10n, 100)` |
| LessonView.NewLessonShape | components/LessonView.tsx:72-101 | a new lesson shows only the tutor's opening question, or the load error over the old transcript; scores, hearts and waiting turns are untouched |
| LessonView.OneTurn | components/LessonView.tsx:185-234 | in one turn the learner's entry stays whatever the tutor does. On success the tutor's entry follows it, XP grows by exactly 10, progress moves to `min(p + 10, 100)` and the error clears. On failure the scores stay and "Connection error." shows. No turn is left waiting |
| LessonView.SubmitKeepsRange | components/LessonView.tsx:185-198 | a waiting turn is created with scores in range when the render it reads had them in range |
| LessonView.SameRenderTurns | components/LessonView.tsx:173-175 | two results handed to the `submitAnswer` of the same render both start from that render's transcript and scores: the second shows only its own learner entry, and when both succeed the final transcript lacks the first learner entry and XP has grown by 10, not 20 |
| LessonView.ReplyKeepsRange | components/LessonView.tsx:213-232 | a finished turn keeps progress in [0, 100] and XP non-negative, on screen and in every waiting turn |
| LessonView.ResumeKeepsRange | components/LessonView.tsx:103-114 | offering or resuming a snapshot in range keeps the screen in range |
| LessonView.MicGuard | components/LessonView.tsx:140-144 | a click while listening or processing changes nothing, so a second click right after an accepted one is refused |
| LessonView.LessonController.constructor | components/LessonView.tsx:17-34 | the first render: loading, no entries, scores at 0, not yet initialized |
| LessonView.LessonController.SaveProgress | components/LessonView.tsx:121-136 | one write of the tutor's context, the entries and the scores under the unit's key; a failure is swallowed and leaves storage unchanged |
| LessonView.LessonController.StartNewLesson | components/LessonView.tsx:72-101 | removes the snapshot first. With an answer: the opening question as the only entry, saved with progress 0 and XP 0, and its voice script to be spoken. Otherwise (no chat created, or no usable answer): the load error, and no snapshot left; a failed chat creation leaves the old session in place |
| LessonView.LessonController.Mount | components/LessonView.tsx:47-68 | runs once. A snapshot that parses is offered, with no session created and nothing written. A missing or unreadable one starts a new lesson |
| LessonView.LessonController.ResumeLesson | components/LessonView.tsx:103-119 | does nothing without a saved state. Otherwise it restores the snapshot's transcript, scores and hearts and seeds the tutor with its context, or, if recreating the chat fails, starts a new lesson |
| LessonView.LessonController.Deliver | components/LessonView.tsx:146-162 | `onResult` does nothing; `onEnd` stops listening; `onError` stops listening and shows the message for the code |
| LessonView.LessonController.HearInline | components/LessonView.tsx:164-182 | the click's own recognizer hands a result to the `submitAnswer` of the click's render, which reads that render's transcript and scores; it stops listening on an error (with the short message only for `no-speech`) or at the end of speech |
| LessonView.LessonController.MicrophoneClick | components/LessonView.tsx:140-162 | accepted exactly when neither listening nor processing; without a recognition API it ends at once with the microphone error; with one, it starts a recognizer that holds the view of the click's render |
| LessonView.LessonController.SubmitAnswer | components/LessonView.tsx:185-201 | a blank transcript does nothing; otherwise the transcript of the render the closure belongs to, plus the learner's entry, is shown at once, and the turn waits with that render's scores and hearts |
| LessonView.LessonController.ReceiveReply | components/LessonView.tsx:200-233 | the screen moves as `Replied` says. The exchange goes into the tutor's context, and without a session the turn fails. On success the final transcript and the new scores are saved and the voice script is to be spoken. On failure nothing is saved or spoken |
| LessonView.OpenFirstLesson | components/LessonView.tsx:47-101 | with nothing saved, the mount check opens a new lesson: the opening question as the only entry, scores at 0, and a chat holding the opening exchange |
| LessonView.FirstTurnIsSaved | components/LessonView.tsx:47-234 | a first visit with one successful turn saves the three-entry transcript with progress and XP at 10, the learner's hearts, and the tutor's context of both exchanges |
| LessonView.ReloadRestoresLesson | components/LessonView.tsx:47-119 | a saved lesson survives a reload: a new screen offers it, and resuming restores the transcript, the scores, the hearts and the tutor's context |

## Left out

- Voice selection, language, rate and pitch of an utterance (`services/speechService.ts:55-80`): they choose how a chunk sounds, not whether or when it is said.
- The 500 ms `setTimeout` before the opening question is spoken (`components/LessonView.tsx:94`). `StartNewLesson` returns the text to speak instead of calling `speakText`. The same holds for the reply's voice script.
- `Date.now()` entry ids, auto-scrolling, the settings panel, the voice-change test phrase and the rest of the screen's rendering: none of them affects the lesson state.
- Heart regeneration and the profile's own storage (`App.tsx`): the lesson screen only reads the hearts and writes them back on resume.
- String lengths: `string` is a sequence of characters, not of UTF-16 code units. Neither the chunker nor `trim` depends on the difference for the whitespace and terminators they look at.
- JSON: a stored value is either a snapshot or text that does not parse. Valid JSON of another shape is not modelled.
- The tutor service's network call, model and system prompt: each answer is an input (`Reply`). The rules by which the SDK records a failed or empty exchange in its history are not modelled. The model appends an exchange exactly when an answer came back.
- Asynchrony: a spoken turn is split at its one `await` into `SubmitAnswer` and `ReceiveReply`. Turns may finish in any order (`ReceiveReply` takes the index of the turn). A closure reads the state of the render that created it; the model assumes the screen has re-rendered after every completed step, so a closure made by a step reads the state that step left. `saveProgress` is one atomic step. `startNewLesson` and `resumeLesson` run to completion without interleaving.
- SpeechOutput.Synthesizer.OnUtteranceEnd and SpeechOutput.Synthesizer.OnUtteranceError require that a report carrying the current id arrives only while a chunk is being spoken. This stands for an assumption about the speech engine: it delivers exactly one `end` or `error` per utterance, and only while that utterance plays. The handlers at `services/speechService.ts:82-98` have no guard of their own, so an engine that sent `error` and then `end` for the same utterance would make them call `onEnd` twice. The at-most-once `onEnd` (`EndsOf(log, g) <= 1` in `SpeechOutput.WellTagged`) rests on this assumption.
- SpeechOutput.Synthesizer.VoicesChanged: the source clears the `onvoiceschanged` slot right after the first step of the chunk loop, and the model clears it just before. No observer can tell the two apart.
- `SpeechOutput.Event`: `Ended` and `EndedUnsupported` mark the point where `onEnd` is called if the caller passed one (`if (onEnd) onEnd()`). The lesson screen passes none, so for it they mark the end of playback only.
- Scenario methods `SpeechOutput.SpeakThenSpeakAgain` and `SpeechOutput.StopMidPlayback` have no `ensures`. They show, with assertions, that reports for a superseded or stopped playback say and end nothing.
- What the code does where a reader might expect otherwise, modelled as the code has it:
  - There is no mute flag.
  - A microphone click does not stop speech output.
  - `submitAnswer` has no guard of its own against a turn already in flight; only the microphone click is guarded, and two clicks before the first result give two turns over the same render (`LessonView.SameRenderTurns`).
  - The pronunciation note is not copied into the transcript entry.
  - `startNewLesson` does not reset the progress and XP on screen, only those it saves.
  - After a failed turn the learner's entry stays on screen, and it is saved with the next successful turn.
  - `startLessonSession` replaces the chat session even when its opening call fails.
