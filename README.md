# CareerCraft AI backend — a Dafny model

This project models the core of the backend of CareerCraft AI. The backend is a career-guidance chatbot:

- A learner chats with it through a scripted intake. The bot asks for the age, then for the passion, then asks ten fixed personality questions, then asks for the location.
- The language model then summarises the recorded answers into personality traits and interests.
- Two endpoints give advice from the stored profile:
  - the focus endpoint asks the language model for focus areas and parses its line-oriented answer;
  - the careers endpoint looks the chosen area up in a fixed table.

The model follows the source file by file.

| file | models |
|---|---|
| `wrappers.dfy` | `Option` and `Result`. A `Result` error carries the HTTP status the server answers with. |
| `text.dfy` | The Python string built-ins the core relies on. `split` (`Split`, `SplitOnce`) is stated by its contract and by round-trip lemmas with `str.join` (`JoinSplit`, `SplitJoin`); `Join` itself is stated only through those lemmas and `JoinContains`. `strip` is stated by its contract (exactly the surrounding whitespace removed) and by `StripUnchanged`. `int()` is stated by the round trip `ParseIntToString`. `startswith` is a plain definition. |
| `values.dfy` | The Python values stored in a profile's `dict()`, with Python truthiness and f-string formatting. |
| `constants.dfy` | `backend/utils/constants.py`: the four tables, with the same entries in the same order. |
| `helper_functions.dfy` | `backend/utils/helper_functions.py`: the two parsers of the model's answer. Each is an imperative loop proved equal to a fold over the lines. Lemmas about that fold give the order, membership and overwriting behaviour. |
| `answer_format.dfy` | The answer format that the focus prompt asks the model for. It proves that an answer in that format is parsed back into exactly the areas and reasons it was built from. |
| `prompt_templates.dfy` | `backend/prompts/prompt_templates.py`. The focus prompt is a method that inserts the profile bullets into a list, as the source does. The other prompts are functions whose contracts say where the inputs appear. |
| `app.dfy` | `backend/app.py`. |

`app.dfy` holds these parts of `backend/app.py`:

- The profile and response records.
- `chatbot_interact`, in two forms. The pure step function `Advance` is used for proofs. `ProfileStore.Interact` is a method on the class that owns the profile map, updates it in place and is proved to agree with `Advance`.
- The invariant that the dialogue keeps, and multi-turn lemmas, up to a whole intake from a first message.
- `get_user_profile` and the two recommendation endpoints.

How the source's outside dependencies are represented:

- **The language model.** `generate_llm_response` is a parameter `llm: (prompt, model, max_tokens) -> answer`. Every lemma holds for every such function.
- **Saving to the profiles file.** Each save appends a snapshot of the profile map to the ghost sequence `ProfileStore.saved`.
- **HTTP errors.** An `HTTPException`, or an exception the server turns into status 500, becomes `Err(status)`.

## Model

| member | source | states |
|---|---|---|
| App.NewProfile | backend/app.py:78-80 | A first message creates a profile with age 0, an empty passion, the initial step, no answers, no location, and the location not yet asked for. |
| App.Advance | backend/app.py:82-150 | One call of `chatbot_interact` on a profile, dispatched on the step. A cleared state (`chatbot_state = None`) fails with 500, because the step lookup raises an exception. Its properties are the lemmas below. |
| App.PyIndex | backend/app.py:119-121 | List indexing as Python does it: an index in range gives that element; an index from `-len` to -1 gives the element counted from the end; below `-len` or at least `len` gives an `IndexError`. |
| App.AnswerPersonality | backend/app.py:111-150 | The personality-question branch is written as statements that update the profile and its state. The result equals that branch of the pure step `TakeAnswer`. |
| App.NewProfileInvariant | backend/app.py:78-80 | A new profile satisfies the dialogue invariant. |
| App.RecordAnswer | backend/app.py:116-117 | If every recorded response starts with "User: ", that stays true after appending the next answer. |
| App.AdvancePreservesInvariant | backend/app.py:82-150 | Every call keeps the dialogue invariant. The invariant says: one recorded answer per question asked, and at most ten. The location is asked for exactly when all ten are answered. A location is only stored once it was asked for. The state is cleared only once a location is known and both summaries are set. |
| App.ClearedStateFails | backend/app.py:83-85 | Once the state is cleared, every further message fails with 500 and changes nothing. |
| App.AskAgeOutcome | backend/app.py:97-103 | Both directions of the age step. Text that `int()` accepts is stored as the age, the step becomes the passion question, and "Thank you. What are you most passionate about?" is the reply. Other text leaves the profile unchanged and gives the "valid age" reply. Neither saves. |
| App.AskPassionOutcome | backend/app.py:105-109 | Any message is stored as the passion. Question index 0 is set, and the first personality question is the reply. |
| App.NegativeAgeAccepted | backend/app.py:99 | "-5" is stored as age -5: `int()` accepts a sign and nothing checks the range. |
| App.CompletionBranches | backend/app.py:115-150 | A call reports the assessment complete if and only if the dialogue is at completion: all questions answered and the location asked for. The store is saved under exactly the same condition. With no (or an empty) location, the message is stored as the location and acknowledged. Otherwise, both summaries are computed from the newline-joined answers with `gpt-4o` and 100 tokens, and the state is cleared. |
| App.LateLocationQuestionUnreachable | backend/app.py:125-127 | Under the dialogue invariant, the branch that asks for the location after all answers are in is never taken: the location was already asked for. |
| App.EmptyLocationAskedAgain | backend/app.py:128-134 | An empty location is stored and reported complete. The next message is taken as the location again. |
| App.Answers | backend/app.py:116 | The records of a list of messages: one per message, in order, each starting with "User: " and giving back its message after that prefix. That they are what the dialogue stores is `App.AnswersRecorded`. |
| App.ConverseAppend | backend/app.py:73-150 | Sending two batches of messages gives the same result as sending their concatenation. |
| App.AnswerStep | backend/app.py:115-124 | One answer to a personality question is appended and counted. The reply is the next question; after the tenth answer, it is the location question and the location is marked as asked. |
| App.AnswersRecorded | backend/app.py:111-124 | During the questions, any run of messages is recorded in order and counted by the question index. The location is marked as asked exactly when the tenth answer is in. Nothing else changes. |
| App.AnsweredTwice | backend/app.py:116-118 | Recording a batch of answers and then one more is the same as recording them all at once. |
| App.ConverseOne | backend/app.py:73-150 | A one-message conversation is a single call. |
| App.FirstMessageAsksAge | backend/app.py:78-88 | A new user's first message, whatever it says, only moves to the age question and is answered with the greeting. |
| App.IntakeOpening | backend/app.py:85-109 | A greeting, a valid age and a passion bring a new profile to the first personality question, with the age and passion stored. |
| App.IntakeClosing | backend/app.py:128-150 | After the tenth answer, a non-empty location and one more message store the location and both summaries, and clear the state. |
| App.FullIntake | backend/app.py:73-150 | A whole intake from a new user ends with the given age, passion and location. The personality traits and interests are the model's summaries of the ten answers, recorded in order and joined by newlines. The dialogue state is cleared. |
| App.StoreStaysValid | backend/app.py:78-82 | If every profile in the store satisfies the dialogue invariant, that still holds after a call, including when the call creates the profile. |
| App.ProfileStore.constructor | backend/app.py:57-58 | With no profiles file, the store starts empty. |
| App.ProfileStore.Interact | backend/app.py:73-150 | `chatbot_interact` on the store, in place. It creates the caller's profile when missing and gives the outcome of `Advance`. It replaces only the caller's entry of the map. It appends a snapshot of the whole map to `saved` exactly when the step saves the file. It keeps the store's invariant. |
| App.ProfileStore.GetUserProfile | backend/app.py:65-71 | Returns 404 exactly for an unknown user. Otherwise returns the stored profile's `dict()` (`ProfileDict`). |
| App.ProfileDict | backend/app.py:69 | `profile.dict()`: one entry per profile field other than `chatbot_state`, under the field's name. `App.ProfileDictEntries` gives each entry's value. |
| App.ProfileStore.RecommendFocusAreas | backend/app.py:168-182 | Returns 404 for an unknown user. Otherwise it asks `gpt-4o-mini` with 350 tokens, using the focus prompt built from the profile and the catalogue. The areas are what the list parser reads from the answer. The reasoning has one line per area: the area, ": ", then its parsed reasoning or nothing. |
| App.ProfileStore.RecommendCareers | backend/app.py:203-220 | As written: Ok exactly for a known user and an area in the table. Every failure is 500. On Ok, the careers are the table's list, the soft skills are the evergreen list, and the chosen area is quoted in the reasoning. |
| App.ProfileStore.RecommendCareersIntended | backend/app.py:205-217 | Returns 404 exactly for an unknown user, and 400 exactly for a known user with an unknown area. Otherwise it gives the same answer as the endpoint. |
| App.ProfileDictEntries | backend/app.py:13-25 | Every entry of `profile.dict()` — the eleven fields other than `chatbot_state` — is the profile's own field under the field's name. |
| App.FocusPromptReportsProfile | backend/app.py:175 | The focus prompt lists the age if and only if the age is set and not 0. It lists the passion if and only if the passion is set and not empty. So a profile at its defaults reports neither. |
| App.ReasoningLines | backend/app.py:181 | One reasoning line per recommended area, in order, each starting with its area and ": ". No line holds a line break when neither the areas nor the reasoning values do. |
| App.FocusReasoningLines | backend/app.py:179-181 | When the model names at least one area, splitting the reasoning text on newlines gives back exactly one line per area. No area or reasoning contains a newline. |
| App.FocusOfWellFormedAnswer | backend/app.py:178-182 | When the model answers in the requested format, the endpoint returns exactly those areas in order. Each area's reasoning line carries the last reasoning given for that area. |
| App.CareersForEveryFocusArea | backend/app.py:210-217 | Every area of the catalogue gets careers for a known user. |
| App.CareersErrorsMasked | backend/app.py:205-220 | For an unknown user or an unknown area, the endpoint as written answers 500, while its own checks raise 404 and 400. |
| Parsers.Lines | backend/utils/helper_functions.py:3 | `split('\n')` gives at least one line, and no line contains a newline. |
| Parsers.AfterColon | backend/utils/helper_functions.py:5-7 | `split(":", 1)` has two parts exactly when the line has a colon, and the value is then the stripped second part: the text after the first colon. |
| Parsers.ParseListResponse | backend/utils/helper_functions.py:1-9 | The loop returns the fold `ListItems` over the answer's lines. |
| Parsers.ListItemsAppend | backend/utils/helper_functions.py:3-8 | The items of concatenated lines are the concatenated items, which gives line order. |
| Parsers.ListItemsMembers | backend/utils/helper_functions.py:4-8 | A string is an item if and only if some line is a "Focus Area" line with a colon whose stripped value is that string. |
| Parsers.ListItemsEmpty | backend/utils/helper_functions.py:4-8 | The list is empty if and only if no line yields an item. |
| Parsers.FocusItemAfterFirstColon | backend/utils/helper_functions.py:5-7 | A "Focus Area" line yields the stripped text after its first colon, whatever colons follow. |
| Parsers.IgnoredFocusLines | backend/utils/helper_functions.py:4-6 | An indented line, or a line without a colon, yields nothing. |
| Parsers.ParseReasoningResponse | backend/utils/helper_functions.py:11-23 | The loop returns the fold `ReasoningOf` over the answer's lines. |
| Parsers.RunReasoningAppend | backend/utils/helper_functions.py:14-22 | Reading concatenated lines is reading the first part, then the second. |
| Parsers.StepKeepsListed | backend/utils/helper_functions.py:15-22 | One line adds a key, or moves the current area, only to an area that the list parser also yields for that line. |
| Parsers.ReasoningKeysListed | backend/utils/helper_functions.py:11-23 | Every key of the reasoning map is an item of the list parser on the same text. |
| Parsers.ReasoningBeforeFocusDropped | backend/utils/helper_functions.py:13-21 | Lines before the first focus line record nothing: there is no current area yet. |
| Parsers.CursorStaysWithoutFocusLines | backend/utils/helper_functions.py:15-18 | Lines that are not "Focus Area" lines never move the current area. |
| Parsers.LaterReasoningOverwrites | backend/utils/helper_functions.py:19-22 | Under a non-empty current area, a later "Reasoning" line with a colon replaces that area's entry with its stripped value. |
| Parsers.FocusLineNeverReasoning | backend/utils/helper_functions.py:15-19 | A "Focus Area" line never records reasoning. Without a colon it changes nothing. |
| Parsers.ReasoningNeedsCursor | backend/utils/helper_functions.py:21 | With no current area, or an empty one, no other line changes anything. |
| Parsers.AfterColonWithin | backend/utils/helper_functions.py:5-7 | A parsed value only holds characters of its line. |
| Parsers.ListItemsWithin | backend/utils/helper_functions.py:1-9 | A character that no line contains appears in no item. |
| Parsers.ReasoningStepWithin | backend/utils/helper_functions.py:15-22 | A character absent from a line and from the map is absent after reading that line. |
| Parsers.ReasoningWithin | backend/utils/helper_functions.py:11-23 | A character that no line contains appears in no value of the reasoning map. |
| AnswerFormat.Pairs | backend/prompts/prompt_templates.py:13 | The map from areas to reasons that a formatted answer describes. Its keys are exactly the areas. |
| AnswerFormat.FocusLineRead | backend/prompts/prompt_templates.py:13 | A "Focus Area N: name" line starts with the prefix and is read back as the name. |
| AnswerFormat.ReasonLineRead | backend/prompts/prompt_templates.py:13 | A "Reasoning: text" line is not a focus line and is read back as the text. |
| AnswerFormat.AnswerLinesHaveNoBreaks | backend/prompts/prompt_templates.py:13 | A formatted answer has two lines per area, with no newline inside a line. |
| AnswerReading.ReadAnswerList | backend/utils/helper_functions.py:1-9 | The list parser reads the areas of a formatted answer in order. |
| AnswerReading.ReadAnswerReasoning | backend/utils/helper_functions.py:11-23 | The reasoning parser reads each area's last reason from a formatted answer. |
| AnswerReading.ParseWellFormedAnswer | backend/utils/helper_functions.py:1-23 | Round trip: joining a formatted answer with newlines and parsing it gives back exactly its areas and its area-to-reason map. |
| Prompts.FocusPromptTemplate | backend/prompts/prompt_templates.py:13 | The fifteen template parts: the intro first, and the catalogue joined by ", " third. |
| Prompts.Insert | backend/prompts/prompt_templates.py:27-31 | `list.insert(i, x)`: x at i, the earlier parts in place, the later ones shifted by one. |
| Prompts.CollectProfileDetails | backend/prompts/prompt_templates.py:15-24 | The detail-collecting statements return `ProfileDetails`. |
| Prompts.ProfileDetailsFiltered | backend/prompts/prompt_templates.py:15-24 | The age and passion are listed if and only if they are truthy. The interests and traits are listed if and only if they are truthy and not "Not specified". |
| Prompts.NewestFirstPush | backend/prompts/prompt_templates.py:28-29 | Inserting each detail at position 2 puts the newest detail's bullet first. |
| Prompts.InsertProfile | backend/prompts/prompt_templates.py:26-31 | The insertion loop returns the template with the profile block after its first part. |
| Prompts.FocusRecommendationPrompt | backend/prompts/prompt_templates.py:12-34 | The prompt is the parts of `FocusPromptParts`, joined by single spaces. |
| Prompts.FocusPromptLayout | backend/prompts/prompt_templates.py:26-31 | With no details, "Learner Profile: No specific information provided yet." is second and 16 parts result. Otherwise "Learner Profile:" is second, followed by one bullet per detail in reverse order, then the rest of the template: 16 + n parts. |
| Prompts.FocusPromptListsAreas | backend/prompts/prompt_templates.py:12-34 | The prompt contains the catalogue joined by ", ". |
| Prompts.PersonalityInfo | backend/prompts/prompt_templates.py:37 | It mentions the traits when they are truthy. Otherwise it is "No personality information inferred yet." |
| Prompts.LocationContext | backend/prompts/prompt_templates.py:38 | Empty if and only if the location is falsy; otherwise it names the location. |
| Prompts.CareerRecommendationPrompt | backend/prompts/prompt_templates.py:36-51 | The chosen area appears quoted right after the fixed opening. The prompt contains the personality information, and the location context followed by " suggest 3-5 potential career paths". |
| Prompts.InterestsPrompt | backend/prompts/prompt_templates.py:3-10 | The history appears verbatim after the fixed head. |
| Prompts.PersonalityInferencePrompt | backend/prompts/prompt_templates.py:53-57 | The history appears verbatim after the fixed head. |
| Text.SplitOnce | backend/utils/helper_functions.py:5 | `split(sep, 1)`: there is no split if and only if the separator is absent. Otherwise the parts rebuild the text and the first part has no separator. |
| Text.Split | backend/utils/helper_functions.py:3 | `split(sep)`: at least one part, and no part contains the separator. |
| Text.JoinSplit | backend/utils/helper_functions.py:3 | Joining the parts of a split with the separator gives back the text. |
| Text.SplitJoin | backend/app.py:181 | Splitting a join of separator-free parts gives back the parts. |
| Text.JoinContains | backend/prompts/prompt_templates.py:33 | A join contains each of its parts. |
| Text.Strip | backend/utils/helper_functions.py:7 | `strip()` removes exactly the leading and trailing whitespace. |
| Text.StripUnchanged | backend/utils/helper_functions.py:7 | A text with no whitespace at either end is its own strip. |
| Text.IntToString | backend/app.py:99 | The decimal text of an integer has no surrounding whitespace and starts with '-' exactly for a negative number. |
| Text.ParseInt | backend/app.py:99 | `int(text)`: empty or all-whitespace text raises `ValueError` (None), and a plain run of decimal digits reads as its value. `Text.ParseIntToString` reads back every integer's decimal text. |
| Text.ParseIntToString | backend/app.py:99 | `int()` reads back every integer's decimal text. |
| Text.DigitsValueOfNat | backend/app.py:99 | A digit string is read back as the number it was written from. |
| Constants.FocusAreasDistinct | backend/utils/constants.py:1-20 | There are 18 focus areas, no two alike. |
| Constants.CareerTableCoversFocusAreas | backend/utils/constants.py:1-41 | The career table has an entry for exactly the catalogued areas. |
| Constants.CareerListsNonEmpty | backend/utils/constants.py:22-41 | Every area has at least one career. |
| Constants.CivilEngineeringCareers | backend/utils/constants.py:38 | The Civil Engineering entry is exactly its six careers, in the table's order. |
| Constants.UrbanPlannerListedTwice | backend/utils/constants.py:38-39 | "Urban Planner" appears under both Civil Engineering and Architecture. |
| Constants.TableSizes | backend/utils/constants.py:43-67 | There are ten soft skills and ten personality questions. |

## Left out

- Reading and writing `user_profiles.json` is not modelled (app.py:48-62 and the two `json.dump` calls). The store starts empty. A save is a snapshot appended to the ghost log `saved`.
- App.ProfileStore.Interact: ensures `old(Valid()) ==> Valid()` rather than `Valid()`. Profiles loaded from a file are not bound by the dialogue invariant.
- FastAPI routing, request bodies, `async`, pydantic validation and the `print` logging are not modelled.
- The language model's internals (`backend/utils/model_generations.py`) are not part of this model. The model is a total function parameter, so an exception it would raise during the inference branch is not modelled.
- Text.ParseInt: takes ASCII digits with an optional sign and surrounding whitespace. Python's `int()` also accepts underscores between digits and non-ASCII digits; those are not modelled. CPython also raises `ValueError` for text of more than 4300 digits (the default `sys.set_int_max_str_digits` limit); the model accepts any length.
- App.ProfileStore.GetUserProfile: the returned map lacks the `chatbot_state` entry of `profile.dict()` (the dialogue state as a dict), since `ProfileDict` does not model it.
- App.ProfileDict: leaves out the `chatbot_state` entry of `profile.dict()`. No prompt reads it; only `get_user_profile` passes it on to the caller.
- Profiles are values in a map rather than shared objects. The source mutates the object it looked up; the model writes the updated value back under the same key, which has the same effect because nothing else holds a reference to it.
- Only the four step values the code writes (`initial`, `ask_age`, `ask_passion`, `personality_questions`) are modelled. A profile loaded with any other step would fall through every branch of `chatbot_interact` without a reply.
- The prompt builders at prompt_templates.py:59-81 are never called by the backend and are not modelled.
- The commented-out endpoints at app.py:152-166 and 184-201 are not modelled.
- The frontend is not modelled.

## Findings

| source | as written | input that shows it | evidently intended | confidence | as-written member | corrected member |
|---|---|---|---|---|---|---|
| backend/app.py:205-220 | The 404 and 400 `HTTPException`s are raised inside `try`, and the `except Exception` handler turns them into status 500 | a user id with no profile, or a known user with the area "Astrology" | 404 "User profile not found." and 400 "Invalid chosen_focus_area." | high, not executed | App.CareersErrorsMasked | App.ProfileStore.RecommendCareersIntended |
