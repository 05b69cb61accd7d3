/**
 * The tutor service as the lesson screen sees it: one module-level chat
 * session (or none), created fresh by `startLessonSession`, recreated from a
 * saved context by `resumeLessonSession`, used by `submitUserAudioText` and
 * read by `getChatHistory`.
 *
 * The remote model and its SDK are outside the model: every reply is an
 * input (`Reply`), and so is whether creating a chat succeeds.
 */
module Dialogue {
  import opened Wrappers
  import opened LessonTypes

  /** How one `sendMessage` call turned out. */
  datatype Reply =
    | SendFailed                                          // the SDK call rejected
    | Answered(text: string, parsed: Option<LessonResponse>)  // a reply text, and its JSON reading if it parses

  const NoSession: string := "Session not started"
  const CreateFailed: string := "chat creation failed"
  const NoResponse: string := "No response from Gemini"
  const NotJson: string := "reply is not valid JSON"

  const LearnerPrefix: string := "User said: \""

  /** The learner's words as sent: quoted after a fixed prefix. */
  function LearnerText(userText: string): (m: string)
    ensures |m| == |LearnerPrefix| + |userText| + 1
    ensures m[..|LearnerPrefix|] == LearnerPrefix && m[|m| - 1] == '"'
    ensures m[|LearnerPrefix|..|m| - 1] == userText
  {
    LearnerPrefix + userText + "\""
  }

  /** Different learner words make different messages: the tutor always receives exactly what was said. */
  lemma LearnerTextInjective(a: string, b: string)
    ensures LearnerText(a) == LearnerText(b) <==> a == b
  {
    if LearnerText(a) == LearnerText(b) {
      var m := LearnerText(a);
      assert a == m[|LearnerPrefix|..|m| - 1] == b;
    }
  }

  /**
   * What one exchange does to the chat's context: a reply text is recorded
   * with the message, a failed call records nothing.
   */
  function Exchanged(history: seq<Content>, message: Message, reply: Reply): (h: seq<Content>)
    ensures reply.SendFailed? ==> h == history
    ensures reply.Answered? ==> h == history + [Content(User, message), Content(Model, TutorText(reply.text))]
  {
    match reply
    case SendFailed => history
    case Answered(text, _) => history + [Content(User, message), Content(Model, TutorText(text))]
  }

  /** A context made of whole exchanges: each a learner turn followed by a tutor turn. */
  predicate Alternating(history: seq<Content>)
  {
    && |history| % 2 == 0
    && forall j :: 0 <= j < |history| / 2 ==> history[2 * j].role == User && history[2 * j + 1].role == Model
  }

  /** One more exchange on a context made of whole exchanges. */
  lemma AlternatingAppend(history: seq<Content>, asked: Content, answered: Content)
    requires Alternating(history) && asked.role == User && answered.role == Model
    ensures Alternating(history + [asked, answered])
  {
    var h := history + [asked, answered];
    assert |h| / 2 == |history| / 2 + 1;
    forall j | 0 <= j < |h| / 2 ensures h[2 * j].role == User && h[2 * j + 1].role == Model {
      if j < |history| / 2 {
        assert h[2 * j] == history[2 * j] && h[2 * j + 1] == history[2 * j + 1];
      }
    }
  }

  /**
   * An exchange keeps what came before and grows the context by exactly one
   * learner turn and one tutor turn when answered, by nothing when the call
   * failed, so a context of whole exchanges stays one; a fresh lesson's
   * context is one.
   */
  lemma ExchangedKeepsAlternation(history: seq<Content>, message: Message, reply: Reply)
    ensures var h := Exchanged(history, message, reply);
      && |h| == |history| + (if reply.Answered? then 2 else 0)
      && h[..|history|] == history
      && (Alternating(history) ==> Alternating(h))
    ensures Alternating(Exchanged([], message, reply))
  {
    if reply.Answered? {
      var asked, answered := Content(User, message), Content(Model, TutorText(reply.text));
      if Alternating(history) {
        AlternatingAppend(history, asked, answered);
      }
      AlternatingAppend([], asked, answered);
      assert [] + [asked, answered] == Exchanged([], message, reply);
    }
  }

  /** The outcome of one exchange for the caller: the parsed reply, or why there is none. */
  function Outcome(reply: Reply): (r: Result<LessonResponse>)
    ensures r.Ok? <==> reply.Answered? && reply.text != "" && reply.parsed.Some?
    ensures r.Ok? ==> r.value == reply.parsed.value
  {
    match reply
    case SendFailed => Err("sendMessage failed")
    case Answered(text, parsed) =>
      if text == "" then Err(NoResponse)
      else if parsed.None? then Err(NotJson)
      else Ok(parsed.value)
  }

  class DialogueClient {
    /** `chatSession`: absent, or a chat with its context so far. */
    var session: Option<seq<Content>>

    constructor ()
      ensures session == None
    {
      session := None;
    }

    /** `getChatHistory`: the context of the current chat, empty when there is none. */
    function History(): (h: seq<Content>)
      reads this
      ensures session.None? ==> h == []
      ensures session.Some? ==> h == session.value
    {
      if session.None? then [] else session.value
    }

    /**
     * `startLessonSession`: creates a fresh chat and sends it the opening
     * prompt; the tutor's parsed reply, or the error. The fresh chat replaces
     * the old one even when the send fails; when creating it fails (`created`
     * false), the old chat, or none, stays and the call rejects.
     */
    method StartLessonSession(level: string, topic: string, created: bool, reply: Reply) returns (r: Result<LessonResponse>)
      modifies this
      ensures created ==> session == Some(Exchanged([], OpeningPrompt(level, topic), reply)) && r == Outcome(reply)
      ensures !created ==> session == old(session) && r == Err(CreateFailed)
    {
      if !created {
        return Err(CreateFailed);
      }
      session := Some(Exchanged([], OpeningPrompt(level, topic), reply));
      r := Outcome(reply);
    }

    /**
     * `resumeLessonSession`: replaces the chat with one whose context is
     * `history`, unless creating the chat fails (then the old one stays).
     */
    method ResumeLessonSession(history: seq<Content>, created: bool) returns (ok: bool)
      modifies this
      ensures ok == created
      ensures created ==> session == Some(history)
      ensures !created ==> session == old(session)
    {
      if created {
        session := Some(history);
      }
      ok := created;
    }

    /**
     * `submitUserAudioText`: fails without a chat; otherwise sends the
     * learner's words and returns the parsed reply, or the error.
     */
    method SubmitUserAudioText(userText: string, reply: Reply) returns (r: Result<LessonResponse>)
      modifies this
      ensures old(session).None? ==> r == Err(NoSession) && session == None
      ensures old(session).Some? ==>
        r == Outcome(reply) && session == Some(Exchanged(old(session).value, LearnerSaid(userText), reply))
    {
      if session.None? {
        return Err(NoSession);
      }
      session := Some(Exchanged(session.value, LearnerSaid(userText), reply));
      r := Outcome(reply);
    }
  }
}
