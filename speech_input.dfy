/**
 * `startListening` of the speech service: which of the caller's three
 * callbacks (`onResult`, `onEnd`, `onError`) run, in which order, for a given
 * run of the browser's recognition engine.
 *
 * The recognition engine is outside the model; what it reports is given as
 * the sequence of its events. When the browser has no recognition API at
 * all, `startListening` reports the fact through `onError` and then calls
 * `onEnd`, whatever else happens.
 */
module SpeechInput {
  import opened Wrappers

  /** The message handed to `onError` when the browser cannot recognise speech. */
  const NotSupportedMessage: string := "Speech recognition not supported in this browser."

  /** What the recognition engine reports to the handlers `startListening` installs. */
  datatype RecognitionEvent =
    | Recognized(transcript: string)  // `onresult`, carrying the transcript of the first alternative
    | SpeechEnded                     // `onspeechend`: the handler asks the engine to stop
    | Closed                          // `onend`
    | Failed(error: string)           // `onerror`, carrying the engine's error code

  /** A call of one of the caller's callbacks. */
  datatype ListenerCall =
    | OnResult(text: string)
    | OnEnd
    | OnError(error: string)

  /** The callback, if any, that the handler of one engine event calls. */
  function Forward(e: RecognitionEvent): (call: Option<ListenerCall>)
    ensures call.None? <==> e.SpeechEnded?
  {
    match e
    case Recognized(t) => Some(OnResult(t))
    case SpeechEnded => None  // `recognition.stop()` only; the engine's own `onend` follows
    case Closed => Some(OnEnd)
    case Failed(err) => Some(OnError(err))
  }

  /** The callbacks called, in order, while the engine reports `events`. */
  function ForwardAll(events: seq<RecognitionEvent>): seq<ListenerCall>
  {
    if events == [] then []
    else
      var rest := ForwardAll(events[1..]);
      match Forward(events[0])
      case None => rest
      case Some(c) => [c] + rest
  }

  /** `startListening`: without a recognition API, `onError` with the fixed message, then `onEnd`. */
  function StartListening(available: bool, events: seq<RecognitionEvent>): seq<ListenerCall>
  {
    if !available then [OnError(NotSupportedMessage), OnEnd]
    else ForwardAll(events)
  }

  /** Without a recognition API the caller hears of it through `onError` first and `onEnd` last, and nothing else. */
  lemma UnsupportedErrorThenEnd(events: seq<RecognitionEvent>)
    ensures var calls := StartListening(false, events);
      && |calls| == 2
      && calls[0] == OnError(NotSupportedMessage)
      && calls[|calls| - 1] == OnEnd
      && forall c :: c in calls ==> c.OnEnd? || c == OnError(NotSupportedMessage)
  {
  }

  /** Forwarding is incremental: the callbacks for a longer run extend those for its prefix. */
  lemma {:induction false} ForwardAllAppend(a: seq<RecognitionEvent>, b: seq<RecognitionEvent>)
    ensures ForwardAll(a + b) == ForwardAll(a) + ForwardAll(b)
  {
    if a != [] {
      assert (a + b)[1..] == a[1..] + b;
      ForwardAllAppend(a[1..], b);
    } else {
      assert a + b == b;
    }
  }

  /** One callback per engine event, except `onspeechend`, which calls none. */
  lemma {:induction false} ForwardAllLength(events: seq<RecognitionEvent>)
    ensures |ForwardAll(events)| <= |events|
    ensures (forall k :: 0 <= k < |events| ==> !events[k].SpeechEnded?) ==> |ForwardAll(events)| == |events|
  {
    if events != [] {
      ForwardAllLength(events[1..]);
    }
  }

  /**
   * With a recognition API, `onError` is called with exactly the error codes
   * the engine reports (so never with the not-supported message unless the
   * engine itself reports it), and `onEnd` only when the engine ends.
   */
  lemma {:induction false} ForwardAllReports(events: seq<RecognitionEvent>)
    ensures forall err :: OnError(err) in ForwardAll(events) <==> Failed(err) in events
    ensures OnEnd in ForwardAll(events) <==> Closed in events
    ensures forall t :: OnResult(t) in ForwardAll(events) <==> Recognized(t) in events
  {
    if events != [] {
      ForwardAllReports(events[1..]);
      assert events == [events[0]] + events[1..];
    }
  }
}
