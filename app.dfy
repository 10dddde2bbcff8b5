/**
 * The backend's endpoints over the in-memory profile store: the intake
 * dialogue (`chatbot_interact`), profile lookup, and the two recommendation
 * operations. The language model is a parameter: a function from a prompt, a
 * model name and a token budget to the text it answers with.
 */
module App {
  import opened Wrappers
  import opened Text
  import opened Values
  import opened Constants
  import opened Parsers
  import opened Prompts
  import opened AnswerFormat
  import opened AnswerReading

  /** The language model as the backend calls it: prompt, model name, token budget. */
  type Llm = (string, string, int) -> string

  const DEFAULT_MODEL := "gpt-4o"
  const FOCUS_MODEL := "gpt-4o-mini"
  const SUMMARY_TOKENS := 100
  const FOCUS_TOKENS := 350

  /** The steps of the intake dialogue, as stored under `chatbot_state["step"]`. */
  datatype Step = Initial | AskAge | AskPassion | PersonalityQuestions

  /**
   * `chatbot_state`: the step, the optional `question_index` entry (absent
   * until the personality questions start) and the recorded answers.
   */
  datatype ChatbotState = ChatbotState(step: Step, questionIndex: Option<int>, responses: seq<string>)

  /** `LearnerProfile`; every optional field starts out as `None`. */
  datatype LearnerProfile = LearnerProfile(
    age: Option<int>,
    educationalBackground: Option<string>,
    professionalExperience: Option<string>,
    passion: Option<string>,
    skills: Option<string>,
    interests: Option<string>,
    values: Option<string>,
    careerGoals: Option<string>,
    personalityTraits: Option<string>,
    chatbotState: Option<ChatbotState>,
    location: Option<string>,
    locationAsked: bool)

  /** `ChatbotResponse`. */
  datatype ChatbotResponse = ChatbotResponse(userId: string, response: string, isAssessmentComplete: bool)

  /** One call of the dialogue on one profile: the profile after it, the answer, and whether the store was saved. */
  datatype Turn = Turn(profile: LearnerProfile, outcome: Result<ChatbotResponse>, persist: bool)

  const AGE_PROMPT := "Hello! To get started, could you please tell me your age?"
  const PASSION_PROMPT_FIRST := "That's great. What are you most passionate about?"
  const PASSION_PROMPT := "Thank you. What are you most passionate about?"
  const INVALID_AGE := "Please enter a valid age (a number)."
  const LOCATION_PROMPT := "Thank you for answering the personality questions. Could you please tell me where you are currently located? This will help me provide more relevant career information."
  const LOCATION_THANKS_HEAD := "Thank you for sharing your location ("
  const LOCATION_THANKS_TAIL := "). We are now processing your information."
  const DONE := "Thank you for completing the personality questions. We are now processing your responses."
  const ANSWER_PREFIX := "User: "

  /** The profile a first message creates: `age=0`, `passion=""`, at the initial step with no answers. */
  function NewProfile(): (p: LearnerProfile)
    ensures p.age == Some(0) && p.passion == Some("")
    ensures p.chatbotState == Some(ChatbotState(Initial, None, []))
    ensures p.location.None? && !p.locationAsked
  {
    LearnerProfile(Some(0), None, None, Some(""), None, None, None, None, None,
                   Some(ChatbotState(Initial, None, [])), None, false)
  }

  /** `state.get("question_index", 0)`. */
  function QuestionIndex(state: ChatbotState): int {
    match state.questionIndex
    case Some(i) => i
    case None => 0
  }

  /** Python's `s[i]` on a list, negative positions counting from the end; `None` is an `IndexError`. */
  function PyIndex<T>(s: seq<T>, i: int): (r: Option<T>)
    ensures 0 <= i < |s| ==> r == Some(s[i])
    ensures -|s| <= i < 0 ==> r == Some(s[|s| + i])
    ensures r.None? <==> (i >= |s| || i < -|s|)
  {
    if 0 <= i < |s| then Some(s[i])
    else if -|s| <= i < 0 then Some(s[|s| + i])
    else None
  }

  function Reply(userId: string, text: string, complete: bool): Result<ChatbotResponse> {
    Ok(ChatbotResponse(userId, text, complete))
  }

  /** The answer once a location is given. */
  function LocationThanks(location: string): string {
    LOCATION_THANKS_HEAD + location + LOCATION_THANKS_TAIL
  }

  /** How an answer to a personality question is recorded. */
  function Answer(message: string): string {
    ANSWER_PREFIX + message
  }

  /**
   * One call of `chatbot_interact` on the caller's profile, dispatched on the
   * step. A missing `chatbot_state` makes the step lookup fail, which the
   * server turns into status 500.
   */
  function Advance(p: LearnerProfile, userId: string, message: string, llm: Llm): Turn
  {
    match p.chatbotState
    case None => Turn(p, Err(500), false)
    case Some(state) =>
      match state.step
      case Initial => Greet(p, state, userId)
      case AskAge => TakeAge(p, state, userId, message)
      case AskPassion => TakePassion(p, state, userId, message)
      case PersonalityQuestions => TakeAnswer(p, state, userId, message, llm)
  }

  /** The initial step: ask for the age while it is 0, else for the passion while it is empty, else start the questions. */
  function Greet(p: LearnerProfile, state: ChatbotState, userId: string): Turn {
    if p.age == Some(0) then
      Turn(p.(chatbotState := Some(state.(step := AskAge))), Reply(userId, AGE_PROMPT, false), false)
    else if p.passion == Some("") then
      Turn(p.(chatbotState := Some(state.(step := AskPassion))), Reply(userId, PASSION_PROMPT_FIRST, false), false)
    else
      Turn(p.(chatbotState := Some(state.(step := PersonalityQuestions, questionIndex := Some(0)))),
           Reply(userId, PERSONALITY_QUESTIONS[0], false), false)
  }

  /** The age step: `int(message)` is stored, or the question is repeated when it raises `ValueError`. */
  function TakeAge(p: LearnerProfile, state: ChatbotState, userId: string, message: string): Turn {
    match ParseInt(message)
    case Some(age) =>
      Turn(p.(age := Some(age), chatbotState := Some(state.(step := AskPassion))), Reply(userId, PASSION_PROMPT, false), false)
    case None =>
      Turn(p, Reply(userId, INVALID_AGE, false), false)
  }

  /** The passion step: the message is stored and the first personality question follows. */
  function TakePassion(p: LearnerProfile, state: ChatbotState, userId: string, message: string): Turn {
    Turn(p.(passion := Some(message), chatbotState := Some(state.(step := PersonalityQuestions, questionIndex := Some(0)))),
         Reply(userId, PERSONALITY_QUESTIONS[0], false), false)
  }

  /**
   * The personality step: record an answer while questions remain (an index
   * outside the list raises `IndexError` after the answer is recorded), then
   * ask for the location, store it, and finally summarise the answers.
   */
  function TakeAnswer(p: LearnerProfile, state: ChatbotState, userId: string, message: string, llm: Llm): Turn {
    var questionIndex := QuestionIndex(state);
    if questionIndex < |PERSONALITY_QUESTIONS| then
      var answered := state.(responses := state.responses + [Answer(message)], questionIndex := Some(questionIndex + 1));
      if questionIndex < |PERSONALITY_QUESTIONS| - 1 then
        match PyIndex(PERSONALITY_QUESTIONS, questionIndex + 1)
        case Some(question) => Turn(p.(chatbotState := Some(answered)), Reply(userId, question, false), false)
        case None => Turn(p.(chatbotState := Some(answered)), Err(500), false)
      else
        Turn(p.(chatbotState := Some(answered), locationAsked := true), Reply(userId, LOCATION_PROMPT, false), false)
    else if !p.locationAsked then
      Turn(p.(locationAsked := true), Reply(userId, LOCATION_PROMPT, false), false)
    else if !Truthy(OfOptionalString(p.location)) then
      Turn(p.(location := Some(message)), Reply(userId, LocationThanks(message), true), true)
    else
      var history := Join(state.responses, "\n");
      var traits := llm(PersonalityInferencePrompt(history), DEFAULT_MODEL, SUMMARY_TOKENS);
      var interests := llm(InterestsPrompt(history), DEFAULT_MODEL, SUMMARY_TOKENS);
      Turn(p.(personalityTraits := Some(traits), interests := Some(interests), chatbotState := None),
           Reply(userId, DONE, true), true)
  }

  /**
   * What holds of every profile the dialogue produces from a new one: one
   * recorded answer per question asked, at most ten, the location asked for
   * exactly when all ten are answered, and a cleared state only once a
   * location is known and the summaries are in.
   */
  ghost predicate DialogueInvariant(p: LearnerProfile) {
    match p.chatbotState
    case None =>
      p.locationAsked && Truthy(OfOptionalString(p.location)) && p.personalityTraits.Some? && p.interests.Some?
    case Some(state) =>
      && |state.responses| == QuestionIndex(state) <= |PERSONALITY_QUESTIONS|
      && (forall k :: 0 <= k < |state.responses| ==> StartsWith(state.responses[k], ANSWER_PREFIX))
      && (state.step == PersonalityQuestions ==>
            state.questionIndex.Some? && (p.locationAsked <==> QuestionIndex(state) == |PERSONALITY_QUESTIONS|))
      && (state.step != PersonalityQuestions ==> state.questionIndex.None? && !p.locationAsked)
      && (p.location.Some? ==> p.locationAsked)
  }

  lemma NewProfileInvariant()
    ensures DialogueInvariant(NewProfile())
  {
  }

  /** Recording one more answer keeps every recorded answer marked as the user's. */
  lemma RecordAnswer(responses: seq<string>, message: string)
    requires forall k :: 0 <= k < |responses| ==> StartsWith(responses[k], ANSWER_PREFIX)
    ensures var more := responses + [Answer(message)];
      forall k :: 0 <= k < |more| ==> StartsWith(more[k], ANSWER_PREFIX)
  {
    var more := responses + [Answer(message)];
    assert Answer(message)[..|ANSWER_PREFIX|] == ANSWER_PREFIX;
    forall k | 0 <= k < |more| ensures StartsWith(more[k], ANSWER_PREFIX) {
      if k < |responses| {
        assert more[k] == responses[k];
      }
    }
  }

  /** Every call keeps the dialogue invariant. */
  lemma AdvancePreservesInvariant(p: LearnerProfile, userId: string, message: string, llm: Llm)
    requires DialogueInvariant(p)
    ensures DialogueInvariant(Advance(p, userId, message, llm).profile)
  {
    if p.chatbotState.Some? {
      RecordAnswer(p.chatbotState.value.responses, message);
    }
  }

  /** A cleared dialogue state (after the summaries) makes every further call fail with status 500 and change nothing. */
  lemma ClearedStateFails(p: LearnerProfile, userId: string, message: string, llm: Llm)
    requires p.chatbotState.None?
    ensures Advance(p, userId, message, llm) == Turn(p, Err(500), false)
  {
  }

  /** The age step: an integer answer is stored and the passion question follows; anything else is asked again, with nothing changed. */
  lemma AskAgeOutcome(p: LearnerProfile, userId: string, message: string, llm: Llm)
    requires p.chatbotState.Some? && p.chatbotState.value.step == AskAge
    ensures var t := Advance(p, userId, message, llm);
      && !t.persist
      && (ParseInt(message).None? ==> t.profile == p && t.outcome == Reply(userId, INVALID_AGE, false))
      && (ParseInt(message).Some? ==>
            && t.profile.age == ParseInt(message)
            && t.profile.chatbotState == Some(p.chatbotState.value.(step := AskPassion))
            && t.outcome == Reply(userId, PASSION_PROMPT, false))
  {
  }

  /** The passion step takes any message as the passion and asks the first personality question. */
  lemma AskPassionOutcome(p: LearnerProfile, userId: string, message: string, llm: Llm)
    requires p.chatbotState.Some? && p.chatbotState.value.step == AskPassion
    ensures var t := Advance(p, userId, message, llm);
      && t.profile.passion == Some(message)
      && t.profile.chatbotState == Some(p.chatbotState.value.(step := PersonalityQuestions, questionIndex := Some(0)))
      && t.outcome == Reply(userId, PERSONALITY_QUESTIONS[0], false)
      && !t.persist
  {
  }

  /** A negative number is accepted as an age: `int()` takes a sign and nothing checks the range. */
  lemma NegativeAgeAccepted(p: LearnerProfile, userId: string, llm: Llm)
    requires p.chatbotState.Some? && p.chatbotState.value.step == AskAge
    ensures Advance(p, userId, "-5", llm).profile.age == Some(-5)
  {
    ParseIntToString(-5);
    assert NatToString(5) == "5";
    assert IntToString(-5) == "-5";
  }

  /** The dialogue is waiting for the location or for the final message: every answer recorded and the location asked for. */
  predicate AtCompletion(p: LearnerProfile) {
    && p.chatbotState.Some?
    && p.chatbotState.value.step == PersonalityQuestions
    && QuestionIndex(p.chatbotState.value) >= |PERSONALITY_QUESTIONS|
    && p.locationAsked
  }

  /**
   * A call reports the assessment complete exactly in the two last branches,
   * and exactly those save the store; the location branch stores the message
   * as the location, the other one stores the two summaries of the recorded
   * answers and clears the dialogue state.
   */
  lemma CompletionBranches(p: LearnerProfile, userId: string, message: string, llm: Llm)
    ensures var t := Advance(p, userId, message, llm);
      && ((t.outcome.Ok? && t.outcome.value.isAssessmentComplete) <==> AtCompletion(p))
      && (t.persist <==> AtCompletion(p))
    ensures var t := Advance(p, userId, message, llm);
      AtCompletion(p) && !Truthy(OfOptionalString(p.location)) ==>
        t.profile == p.(location := Some(message)) && t.outcome == Reply(userId, LocationThanks(message), true)
    ensures var t := Advance(p, userId, message, llm);
      AtCompletion(p) && Truthy(OfOptionalString(p.location)) ==>
        var history := Join(p.chatbotState.value.responses, "\n");
        && t.profile.chatbotState.None?
        && t.profile.personalityTraits == Some(llm(PersonalityInferencePrompt(history), DEFAULT_MODEL, SUMMARY_TOKENS))
        && t.profile.interests == Some(llm(InterestsPrompt(history), DEFAULT_MODEL, SUMMARY_TOKENS))
        && t.outcome == Reply(userId, DONE, true)
  {
  }

  /**
   * Under the dialogue invariant the branch that asks for the location
   * without a tenth answer (all questions answered but the location not yet
   * asked for) is never taken.
   */
  lemma LateLocationQuestionUnreachable(p: LearnerProfile)
    requires DialogueInvariant(p)
    requires p.chatbotState.Some? && p.chatbotState.value.step == PersonalityQuestions
    requires QuestionIndex(p.chatbotState.value) >= |PERSONALITY_QUESTIONS|
    ensures p.locationAsked
  {
  }

  /** An empty location counts as none: it is stored, reported complete, and the next message is taken as the location again. */
  lemma EmptyLocationAskedAgain(p: LearnerProfile, userId: string, next: string, llm: Llm)
    requires AtCompletion(p) && p.location.None?
    ensures var first := Advance(p, userId, "", llm);
      && first.profile.location == Some("")
      && first.outcome.Ok? && first.outcome.value.isAssessmentComplete
      && AtCompletion(first.profile)
      && Advance(first.profile, userId, next, llm).profile.location == Some(next)
  {
  }

  /** The answers as the dialogue records them: each message marked as the user's, and recoverable from its record. */
  function Answers(messages: seq<string>): (r: seq<string>)
    ensures |r| == |messages|
    ensures forall k :: 0 <= k < |r| ==> StartsWith(r[k], ANSWER_PREFIX) && r[k][|ANSWER_PREFIX|..] == messages[k]
  {
    seq(|messages|, k requires 0 <= k < |messages| => Answer(messages[k]))
  }

  /** The profile after a user sends `messages` one call at a time. */
  function Converse(p: LearnerProfile, userId: string, messages: seq<string>, llm: Llm): LearnerProfile
  {
    if messages == [] then p
    else Advance(Converse(p, userId, messages[..|messages| - 1], llm), userId, messages[|messages| - 1], llm).profile
  }

  /** Sending two batches of messages is sending their concatenation. */
  lemma {:induction false} ConverseAppend(p: LearnerProfile, userId: string, first: seq<string>, second: seq<string>, llm: Llm)
    ensures Converse(p, userId, first + second, llm) == Converse(Converse(p, userId, first, llm), userId, second, llm)
    decreases |second|
  {
    if second == [] {
      assert first + second == first;
    } else {
      var init := second[..|second| - 1];
      assert (first + second)[..|first + second| - 1] == first + init;
      ConverseAppend(p, userId, first, init, llm);
    }
  }

  /** The profile after recording `messages` as answers from `p`, at the personality questions. */
  function Answered(p: LearnerProfile, state: ChatbotState, messages: seq<string>): LearnerProfile {
    var asked := QuestionIndex(state) + |messages|;
    p.(chatbotState := Some(state.(responses := state.responses + Answers(messages), questionIndex := Some(asked))),
       locationAsked := p.locationAsked || asked == |PERSONALITY_QUESTIONS|)
  }

  /**
   * One answer to a personality question: it is recorded as the last
   * response and counted, and the reply is the next question, or after the
   * tenth answer the location question.
   */
  lemma AnswerStep(p: LearnerProfile, userId: string, message: string, llm: Llm)
    requires p.chatbotState.Some? && p.chatbotState.value.step == PersonalityQuestions
    requires 0 <= QuestionIndex(p.chatbotState.value) < |PERSONALITY_QUESTIONS|
    ensures Advance(p, userId, message, llm).profile == Answered(p, p.chatbotState.value, [message])
    ensures var next := QuestionIndex(p.chatbotState.value) + 1;
      Advance(p, userId, message, llm).outcome ==
        if next < |PERSONALITY_QUESTIONS| then Reply(userId, PERSONALITY_QUESTIONS[next], false)
        else Reply(userId, LOCATION_PROMPT, false)
  {
    assert Answers([message]) == [Answer(message)];
  }

  /**
   * During the personality questions every message is recorded, in order,
   * as the user's answer, and the question index counts them; the location
   * is asked for once the tenth answer is in, and nothing else changes.
   */
  lemma {:induction false} AnswersRecorded(p: LearnerProfile, userId: string, messages: seq<string>, llm: Llm)
    requires p.chatbotState.Some? && p.chatbotState.value.step == PersonalityQuestions
    requires 0 <= QuestionIndex(p.chatbotState.value)
    requires QuestionIndex(p.chatbotState.value) + |messages| <= |PERSONALITY_QUESTIONS|
    requires messages != []
    ensures Converse(p, userId, messages, llm) == Answered(p, p.chatbotState.value, messages)
    decreases |messages|
  {
    var state := p.chatbotState.value;
    var init := messages[..|messages| - 1];
    var last := messages[|messages| - 1];
    assert messages == init + [last];
    if init == [] {
      AnswerStep(p, userId, last, llm);
    } else {
      AnswersRecorded(p, userId, init, llm);
      var q := Answered(p, state, init);
      AnswerStep(q, userId, last, llm);
      AnsweredTwice(p, state, init, last);
    }
  }

  /** Recording a batch of answers and then one more is recording them all. */
  lemma AnsweredTwice(p: LearnerProfile, state: ChatbotState, init: seq<string>, last: string)
    requires 0 <= QuestionIndex(state) && QuestionIndex(state) + |init| < |PERSONALITY_QUESTIONS|
    ensures var q := Answered(p, state, init);
      Answered(q, q.chatbotState.value, [last]) == Answered(p, state, init + [last])
  {
    assert Answers([last]) == [Answer(last)];
    assert Answers(init) + [Answer(last)] == Answers(init + [last]);
    assert (state.responses + Answers(init)) + [Answer(last)] == state.responses + Answers(init + [last]);
  }

  lemma ConverseOne(p: LearnerProfile, userId: string, message: string, llm: Llm)
    ensures Converse(p, userId, [message], llm) == Advance(p, userId, message, llm).profile
  {
    assert [message][..0] == [];
  }

  /** A new user's first three messages: a greeting (ignored), the age and the passion lead to the first personality question. */
  lemma IntakeOpening(userId: string, greeting: string, ageText: string, passion: string, llm: Llm)
    requires ParseInt(ageText).Some?
    ensures Converse(NewProfile(), userId, [greeting, ageText, passion], llm) ==
      NewProfile().(age := ParseInt(ageText), passion := Some(passion),
                    chatbotState := Some(ChatbotState(PersonalityQuestions, Some(0), [])))
  {
    var p1 := Advance(NewProfile(), userId, greeting, llm).profile;
    var p2 := Advance(p1, userId, ageText, llm).profile;
    ConverseOne(NewProfile(), userId, greeting, llm);
    ConverseAppend(NewProfile(), userId, [greeting], [ageText], llm);
    ConverseOne(p1, userId, ageText, llm);
    ConverseAppend(NewProfile(), userId, [greeting, ageText], [passion], llm);
    ConverseOne(p2, userId, passion, llm);
    assert [greeting] + [ageText] == [greeting, ageText];
    assert [greeting, ageText] + [passion] == [greeting, ageText, passion];
  }

  /** After the tenth answer, a non-empty location and then any message complete the profile and clear the dialogue. */
  lemma IntakeClosing(p: LearnerProfile, userId: string, location: string, last: string, llm: Llm)
    requires AtCompletion(p) && p.location.None? && location != ""
    ensures var history := Join(p.chatbotState.value.responses, "\n");
      Converse(p, userId, [location, last], llm) ==
        p.(location := Some(location),
           personalityTraits := Some(llm(PersonalityInferencePrompt(history), DEFAULT_MODEL, SUMMARY_TOKENS)),
           interests := Some(llm(InterestsPrompt(history), DEFAULT_MODEL, SUMMARY_TOKENS)),
           chatbotState := None)
  {
    var p1 := Advance(p, userId, location, llm).profile;
    CompletionBranches(p, userId, location, llm);
    CompletionBranches(p1, userId, last, llm);
    ConverseOne(p, userId, location, llm);
    ConverseAppend(p, userId, [location], [last], llm);
    ConverseOne(p1, userId, last, llm);
    assert [location] + [last] == [location, last];
  }

  /**
   * A whole intake from a new user: greeting, age, passion, the ten answers,
   * a location and one more message. The profile ends with the age and the
   * passion given, the location, the two summaries computed from the ten
   * answers in order, and no dialogue state.
   */
  lemma FullIntake(userId: string, greeting: string, ageText: string, passion: string,
                   answers: seq<string>, location: string, last: string, llm: Llm)
    requires ParseInt(ageText).Some? && |answers| == |PERSONALITY_QUESTIONS| && location != ""
    ensures var p := Converse(NewProfile(), userId, [greeting, ageText, passion] + answers + [location, last], llm);
      var history := Join(Answers(answers), "\n");
      && p.chatbotState.None?
      && p.age == ParseInt(ageText)
      && p.passion == Some(passion)
      && p.location == Some(location)
      && p.personalityTraits == Some(llm(PersonalityInferencePrompt(history), DEFAULT_MODEL, SUMMARY_TOKENS))
      && p.interests == Some(llm(InterestsPrompt(history), DEFAULT_MODEL, SUMMARY_TOKENS))
  {
    var opening := [greeting, ageText, passion];
    var p3 := Converse(NewProfile(), userId, opening, llm);
    IntakeOpening(userId, greeting, ageText, passion, llm);
    AnswersRecorded(p3, userId, answers, llm);
    var p4 := Answered(p3, p3.chatbotState.value, answers);
    assert [] + Answers(answers) == Answers(answers);
    IntakeClosing(p4, userId, location, last, llm);
    ConverseAppend(NewProfile(), userId, opening, answers, llm);
    ConverseAppend(NewProfile(), userId, opening + answers, [location, last], llm);
  }

  /** The caller's profile, or the one a first message creates. */
  function ProfileOrNew(profiles: map<string, LearnerProfile>, userId: string): LearnerProfile {
    if userId in profiles then profiles[userId] else NewProfile()
  }

  /** The keys of `profile.dict()`: one per field of `LearnerProfile` other than `chatbot_state`. */
  const PROFILE_KEYS: set<string> := {
    "age", "educational_background", "professional_experience", "passion", "skills", "interests",
    "values", "career_goals", "personality_traits", "location", "location_asked"
  }

  /** `profile.dict()` as the prompt builders read it (the `chatbot_state` entry is not modelled). */
  function ProfileDict(p: LearnerProfile): (d: map<string, PyValue>)
    ensures d.Keys == PROFILE_KEYS
    ensures "chatbot_state" !in d
  {
    map[
      "age" := OfOptionalInt(p.age),
      "educational_background" := OfOptionalString(p.educationalBackground),
      "professional_experience" := OfOptionalString(p.professionalExperience),
      "passion" := OfOptionalString(p.passion),
      "skills" := OfOptionalString(p.skills),
      "interests" := OfOptionalString(p.interests),
      "values" := OfOptionalString(p.values),
      "career_goals" := OfOptionalString(p.careerGoals),
      "personality_traits" := OfOptionalString(p.personalityTraits),
      "location" := OfOptionalString(p.location),
      "location_asked" := PyBool(p.locationAsked)
    ]
  }

  /** The focus-recommendation prompt for a stored profile. */
  function FocusPrompt(p: LearnerProfile): string {
    Join(FocusPromptParts(ProfileDict(p), FOCUS_AREAS), " ")
  }

  /** `FocusRecommendationResponse`. */
  datatype FocusRecommendation = FocusRecommendation(recommendedFocusAreas: seq<string>, reasoning: string)

  /** `CareerRecommendationResponse`. */
  datatype CareerRecommendation = CareerRecommendation(recommendedCareers: seq<string>, softSkills: seq<string>, reasoning: string)

  /** One line of the focus reasoning: the area, a colon, and its reasoning or nothing. */
  function ReasoningLine(area: string, reasoning: map<string, string>): string {
    area + ": " + (if area in reasoning then reasoning[area] else "")
  }

  /**
   * The reasoning lines, one per area in order, each headed by its area; no
   * line breaks inside a line when neither the areas nor the reasoning hold one.
   */
  function ReasoningLines(areas: seq<string>, reasoning: map<string, string>): (lines: seq<string>)
    ensures |lines| == |areas|
    ensures forall k :: 0 <= k < |areas| ==> StartsWith(lines[k], areas[k] + ": ")
    ensures (forall k :: 0 <= k < |areas| ==> '\n' !in areas[k]) && FreeOf(reasoning, '\n') ==>
      forall k :: 0 <= k < |lines| ==> '\n' !in lines[k]
  {
    seq(|areas|, k requires 0 <= k < |areas| => ReasoningLine(areas[k], reasoning))
  }

  /** The reasoning text of the focus answer: one line per recommended area. */
  function ReasoningText(areas: seq<string>, reasoning: map<string, string>): string {
    Join(ReasoningLines(areas, reasoning), "\n")
  }

  const CAREERS_REASON_HEAD := "Based on your chosen focus area of "
  const CAREERS_REASON_TAIL := ", here are some potential career paths and soft skills to consider."

  /**
   * The personality branch of `chatbot_interact`, updating the profile and its
   * state step by step: the in-place form of `TakeAnswer`, proved equal to it.
   */
  method AnswerPersonality(profile: LearnerProfile, state: ChatbotState, userId: string, message: string, llm: Llm)
    returns (updated: LearnerProfile, outcome: Result<ChatbotResponse>, persist: bool)
    ensures Turn(updated, outcome, persist) == TakeAnswer(profile, state, userId, message, llm)
  {
    updated := profile;
    persist := false;
    var questionIndex := QuestionIndex(state);
    var responses := state.responses;
    if questionIndex < |PERSONALITY_QUESTIONS| {
      responses := responses + [Answer(message)];
      var answered := state.(responses := responses);
      answered := answered.(questionIndex := Some(questionIndex + 1));
      updated := updated.(chatbotState := Some(answered));
      if questionIndex < |PERSONALITY_QUESTIONS| - 1 {
        var nextQuestion := PyIndex(PERSONALITY_QUESTIONS, questionIndex + 1);
        outcome := if nextQuestion.Some? then Reply(userId, nextQuestion.value, false) else Err(500);
      } else {
        updated := updated.(locationAsked := true);
        outcome := Reply(userId, LOCATION_PROMPT, false);
      }
    } else if !updated.locationAsked {
      updated := updated.(locationAsked := true);
      outcome := Reply(userId, LOCATION_PROMPT, false);
    } else if !Truthy(OfOptionalString(updated.location)) {
      updated := updated.(location := Some(message));
      persist := true;
      outcome := Reply(userId, LocationThanks(message), true);
    } else {
      var conversationHistory := Join(responses, "\n");
      var personalitySummary := llm(PersonalityInferencePrompt(conversationHistory), DEFAULT_MODEL, SUMMARY_TOKENS);
      updated := updated.(personalityTraits := Some(personalitySummary));
      var interestsSummary := llm(InterestsPrompt(conversationHistory), DEFAULT_MODEL, SUMMARY_TOKENS);
      updated := updated.(interests := Some(interestsSummary));
      updated := updated.(chatbotState := None);
      persist := true;
      outcome := Reply(userId, DONE, true);
    }
  }

  /** A store whose profiles all keep the dialogue invariant still does after one call. */
  lemma StoreStaysValid(profiles: map<string, LearnerProfile>, userId: string, message: string, llm: Llm)
    requires forall u :: u in profiles ==> DialogueInvariant(profiles[u])
    ensures var after := profiles[userId := Advance(ProfileOrNew(profiles, userId), userId, message, llm).profile];
      forall u :: u in after ==> DialogueInvariant(after[u])
  {
    NewProfileInvariant();
    AdvancePreservesInvariant(ProfileOrNew(profiles, userId), userId, message, llm);
  }

  /** The store of learner profiles, keyed by user id, and the snapshots written to the profiles file. */
  class ProfileStore {
    var profiles: map<string, LearnerProfile>
    ghost var saved: seq<map<string, LearnerProfile>>

    /** Every stored profile is one the dialogue can reach. */
    ghost predicate Valid()
      reads this
    {
      forall userId :: userId in profiles ==> DialogueInvariant(profiles[userId])
    }

    /** An empty store, as when there is no profiles file. */
    constructor ()
      ensures profiles == map[] && saved == [] && Valid()
    {
      profiles := map[];
      saved := [];
    }

    /**
     * `chatbot_interact`: create the profile on a first message, then take
     * one step of the dialogue on it in place. Other users' profiles are
     * untouched, and the whole store is saved when the step completes. The
     * branches are the in-place form of `Advance`, proved equal to it.
     */
    method Interact(userId: string, message: string, llm: Llm) returns (outcome: Result<ChatbotResponse>)
      modifies this
      ensures var t := Advance(ProfileOrNew(old(profiles), userId), userId, message, llm);
        && outcome == t.outcome
        && profiles == old(profiles)[userId := t.profile]
        && saved == old(saved) + (if t.persist then [profiles] else [])
      ensures old(Valid()) ==> Valid()
    {
      ghost var wasValid := Valid();
      if userId !in profiles {
        profiles := profiles[userId := NewProfile()];
      }
      var profile := profiles[userId];
      if profile.chatbotState.None? {
        assert profiles == old(profiles)[userId := profile];
        return Err(500);
      }
      var state := profile.chatbotState.value;
      var persist := false;
      match state.step {
        case Initial =>
          if profile.age == Some(0) {
            profile := profile.(chatbotState := Some(state.(step := AskAge)));
            outcome := Reply(userId, AGE_PROMPT, false);
          } else if profile.passion == Some("") {
            profile := profile.(chatbotState := Some(state.(step := AskPassion)));
            outcome := Reply(userId, PASSION_PROMPT_FIRST, false);
          } else {
            profile := profile.(chatbotState := Some(state.(step := PersonalityQuestions, questionIndex := Some(0))));
            outcome := Reply(userId, PERSONALITY_QUESTIONS[0], false);
          }
        case AskAge =>
          var age := ParseInt(message);
          if age.Some? {
            profile := profile.(age := age);
            profile := profile.(chatbotState := Some(state.(step := AskPassion)));
            outcome := Reply(userId, PASSION_PROMPT, false);
          } else {
            outcome := Reply(userId, INVALID_AGE, false);
          }
        case AskPassion =>
          profile := profile.(passion := Some(message));
          profile := profile.(chatbotState := Some(state.(step := PersonalityQuestions, questionIndex := Some(0))));
          outcome := Reply(userId, PERSONALITY_QUESTIONS[0], false);
        case PersonalityQuestions =>
          profile, outcome, persist := AnswerPersonality(profile, state, userId, message, llm);
      }
      profiles := profiles[userId := profile];
      if persist {
        saved := saved + [profiles];
      }
      if wasValid {
        StoreStaysValid(old(profiles), userId, message, llm);
      }
    }

    /** `get_user_profile`: the stored profile's `dict()`, or status 404 for an unknown user. */
    function GetUserProfile(userId: string): (r: Result<map<string, PyValue>>)
      reads this
      ensures r.Err? <==> userId !in profiles
      ensures r.Err? ==> r.status == 404
      ensures r.Ok? ==> r.value == ProfileDict(profiles[userId])
    {
      if userId in profiles then Ok(ProfileDict(profiles[userId])) else Err(404)
    }

    /**
     * `recommend_focus_areas_llm`: ask the model for focus areas with the
     * profile and the catalogue, then read its answer with both parsers.
     */
    method RecommendFocusAreas(userId: string, llm: Llm) returns (r: Result<FocusRecommendation>)
      ensures userId !in profiles ==> r == Err(404)
      ensures userId in profiles ==>
        var answer := llm(FocusPrompt(profiles[userId]), FOCUS_MODEL, FOCUS_TOKENS);
        var areas := ListItems(Lines(answer));
        r == Ok(FocusRecommendation(areas, ReasoningText(areas, ReasoningOf(Lines(answer)))))
    {
      if userId !in profiles {
        return Err(404);
      }
      var profile := profiles[userId];
      var prompt := FocusRecommendationPrompt(ProfileDict(profile), FOCUS_AREAS);
      var llmResponse := llm(prompt, FOCUS_MODEL, FOCUS_TOKENS);
      var recommendedFocusAreas := ParseListResponse(llmResponse);
      var reasoningDict := ParseReasoningResponse(llmResponse);
      var reasoningText := ReasoningText(recommendedFocusAreas, reasoningDict);
      r := Ok(FocusRecommendation(recommendedFocusAreas, reasoningText));
    }

    /**
     * `recommend_careers` as written: its own 404 and 400 are raised inside
     * the catch-all handler, so every failure comes back as status 500.
     */
    function RecommendCareers(userId: string, chosenFocusArea: string): (r: Result<CareerRecommendation>)
      reads this
      ensures r.Ok? <==> userId in profiles && chosenFocusArea in CAREER_RECOMMENDATIONS
      ensures r.Err? ==> r.status == 500
      ensures r.Ok? ==> r.value.recommendedCareers == CAREER_RECOMMENDATIONS[chosenFocusArea]
      ensures r.Ok? ==> r.value.softSkills == EVERGREEN_SOFT_SKILLS
      ensures r.Ok? ==> OccursAt(r.value.reasoning, chosenFocusArea, |CAREERS_REASON_HEAD|)
    {
      if userId !in profiles || chosenFocusArea !in CAREER_RECOMMENDATIONS then Err(500)
      else
        var reasoning := CAREERS_REASON_HEAD + chosenFocusArea + CAREERS_REASON_TAIL;
        assert reasoning[|CAREERS_REASON_HEAD|..|CAREERS_REASON_HEAD| + |chosenFocusArea|] == chosenFocusArea;
        Ok(CareerRecommendation(CAREER_RECOMMENDATIONS[chosenFocusArea], EVERGREEN_SOFT_SKILLS, reasoning))
    }

    /** `recommend_careers` with the statuses its checks raise: 404 for an unknown user, then 400 for an unknown area. */
    function RecommendCareersIntended(userId: string, chosenFocusArea: string): (r: Result<CareerRecommendation>)
      reads this
      ensures r.Err? && r.status == 404 <==> userId !in profiles
      ensures r.Err? && r.status == 400 <==> userId in profiles && chosenFocusArea !in CAREER_RECOMMENDATIONS
      ensures r.Ok? ==> r == RecommendCareers(userId, chosenFocusArea)
    {
      if userId !in profiles then Err(404)
      else if chosenFocusArea !in CAREER_RECOMMENDATIONS then Err(400)
      else RecommendCareers(userId, chosenFocusArea)
    }
  }

  /** A first message from an unknown user only starts the dialogue: the age question, whatever was said. */
  lemma FirstMessageAsksAge(userId: string, message: string, llm: Llm)
    ensures Advance(NewProfile(), userId, message, llm) ==
      Turn(NewProfile().(chatbotState := Some(ChatbotState(AskAge, None, []))), Reply(userId, AGE_PROMPT, false), false)
  {
  }

  /** Every entry of `profile.dict()` is the profile's own field, under the field's name. */
  lemma ProfileDictEntries(p: LearnerProfile)
    ensures var d := ProfileDict(p);
      && Get(d, "age") == OfOptionalInt(p.age)
      && Get(d, "educational_background") == OfOptionalString(p.educationalBackground)
      && Get(d, "professional_experience") == OfOptionalString(p.professionalExperience)
      && Get(d, "passion") == OfOptionalString(p.passion)
      && Get(d, "skills") == OfOptionalString(p.skills)
      && Get(d, "interests") == OfOptionalString(p.interests)
      && Get(d, "values") == OfOptionalString(p.values)
      && Get(d, "career_goals") == OfOptionalString(p.careerGoals)
      && Get(d, "personality_traits") == OfOptionalString(p.personalityTraits)
      && Get(d, "location") == OfOptionalString(p.location)
      && Get(d, "location_asked") == PyBool(p.locationAsked)
  {
  }

  /**
   * The focus prompt reports the age exactly when it is set and not 0, and
   * the passion exactly when it is set and not empty; so a profile still at
   * its defaults reports neither.
   */
  lemma FocusPromptReportsProfile(p: LearnerProfile)
    ensures var details := ProfileDetails(ProfileDict(p));
      && (("Age: " + Format(OfOptionalInt(p.age)) in details) <==> p.age.Some? && p.age.value != 0)
      && (("Passion: " + Format(OfOptionalString(p.passion)) in details) <==> p.passion.Some? && p.passion.value != "")
  {
    ProfileDictEntries(p);
    ProfileDetailsFiltered(ProfileDict(p));
  }

  /** The reasoning text has one line per recommended area, in order: the area, a colon, and its reasoning. */
  lemma FocusReasoningLines(answer: string)
    requires ListItems(Lines(answer)) != []
    ensures var areas := ListItems(Lines(answer));
      var reasoning := ReasoningOf(Lines(answer));
      Lines(ReasoningText(areas, reasoning)) == ReasoningLines(areas, reasoning)
  {
    var lines := Lines(answer);
    var areas := ListItems(lines);
    var reasoning := ReasoningOf(lines);
    ListItemsWithin(lines, '\n');
    ReasoningWithin(START, lines, '\n');
    var out := ReasoningLines(areas, reasoning);
    SplitJoin(out, '\n');
  }

  /**
   * When the model answers in the requested format (a `Focus Area` line and
   * a `Reasoning` line per area), the endpoint returns those areas in order,
   * and the reasoning line of each area carries the last reasoning given for
   * it.
   */
  lemma FocusOfWellFormedAnswer(tags: seq<string>, areas: seq<string>, reasons: seq<string>)
    requires WellFormedPieces(tags, areas, reasons) && areas != []
    ensures var answer := Join(AnswerLines(tags, areas, reasons), "\n");
      && ListItems(Lines(answer)) == areas
      && Lines(ReasoningText(areas, ReasoningOf(Lines(answer)))) == ReasoningLines(areas, Pairs(areas, reasons))
      && forall k :: 0 <= k < |areas| ==> areas[k] in Pairs(areas, reasons)
  {
    var answer := Join(AnswerLines(tags, areas, reasons), "\n");
    ParseWellFormedAnswer(tags, areas, reasons);
    FocusReasoningLines(answer);
  }

  /** Every area of the catalogue gets careers for a known user. */
  lemma CareersForEveryFocusArea(store: ProfileStore, userId: string, area: string)
    requires userId in store.profiles && area in FOCUS_AREAS
    ensures store.RecommendCareers(userId, area).Ok?
  {
    CareerTableCoversFocusAreas();
  }

  /**
   * The careers endpoint reports an unknown user, and an unknown area, as an
   * internal error (500) where its checks raise 404 and 400.
   */
  lemma CareersErrorsMasked(store: ProfileStore, userId: string, area: string)
    requires userId !in store.profiles || (userId in store.profiles && area !in CAREER_RECOMMENDATIONS)
    ensures store.RecommendCareers(userId, area) == Err(500)
    ensures store.RecommendCareersIntended(userId, area) == Err(if userId !in store.profiles then 404 else 400)
  {
  }
}
