/**
 * The records the lesson screen works with: a unit of the course, the
 * tutor's structured reply, the dialogue context the tutor service keeps,
 * the transcript shown on screen and the snapshot saved per unit.
 */
module LessonTypes {
  import opened Wrappers

  datatype Role = User | Model

  /**
   * A message of the tutor's dialogue context, by what it says: the opening
   * prompt of a lesson, the learner's words, or a text of the tutor's.
   */
  datatype Message =
    | OpeningPrompt(level: string, topic: string)
    | LearnerSaid(userText: string)
    | TutorText(text: string)

  /** One turn of the tutor's dialogue context (the model's own history, saved alongside the transcript). */
  datatype Content = Content(role: Role, message: Message)

  /** A unit of the course: only what the lesson screen reads. */
  datatype Unit = Unit(id: string, description: string, topics: seq<string>)

  /** The tutor's reply, as parsed from its JSON answer. */
  datatype LessonResponse = LessonResponse(
    reply: string,
    voiceScript: string,
    correction: Option<string>,
    pronunciationAnalysis: Option<string>,
    nextQuestion: string)

  /** One bubble of the on-screen transcript (its `Date.now()` id is not modelled). */
  datatype ChatEntry = ChatEntry(
    role: Role,
    text: string,
    correction: Option<string>,
    audioScript: Option<string>)

  /** What is saved under a unit's key: the dialogue context and the transcript, with the scores. */
  datatype SavedLessonState = SavedLessonState(
    unitId: string,
    history: seq<Content>,
    chatEntries: seq<ChatEntry>,
    progress: int,
    currentXP: int,
    hearts: int)

  /**
   * The topic a new lesson is about: the unit's first topic, unless there is
   * none or it is the empty string (which JavaScript's `||` treats as
   * missing), and then the unit's description.
   */
  function LessonTopic(unit: Unit): (topic: string)
    ensures topic == unit.description || (unit.topics != [] && topic == unit.topics[0])
    ensures unit.topics == [] || unit.topics[0] == "" ==> topic == unit.description
    ensures unit.topics != [] && unit.topics[0] != "" ==> topic == unit.topics[0]
  {
    if unit.topics != [] && unit.topics[0] != "" then unit.topics[0] else unit.description
  }

  /** The topic sent to the tutor is empty only for a unit with neither a first topic nor a description. */
  lemma LessonTopicNonEmpty(unit: Unit)
    ensures LessonTopic(unit) == "" <==> unit.description == "" && (unit.topics == [] || unit.topics[0] == "")
  {
  }
}
