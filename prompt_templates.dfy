/**
 * The prompts sent to the language model. The focus-recommendation prompt is
 * assembled in place, as the backend does it: profile details are appended to
 * a list, and then inserted one by one at a fixed position of the template, so
 * that they come out newest first. The other prompts are single templates.
 */
module Prompts {
  import opened Text
  import opened Values

  const PROFILE_HEADER := "Learner Profile:"
  const NO_PROFILE := "Learner Profile: No specific information provided yet."
  const NOT_SPECIFIED := PyStr("Not specified")

  const INTRO := "You are an expert career advisor. A learner with the following profile has requested your advice on potential focus areas:"
  const AREAS_HEADING := "\nAvailable Focus Areas:"
  const INSTRUCTIONS_HEADING := "\nInstructions:"
  const STEP_1 := "1. Carefully consider the learner's profile and the available focus areas."
  const STEP_2 := "2. **Select 3-5 focus areas from the list above that are the BEST FIT for this learner.**"
  const STEP_3 := "3. **For EACH selected focus area, provide a concise and UNIQUE explanation (1-2 sentences) of WHY it is a good fit, highlighting specific aspects of the learner's profile that align with the focus area.**"
  const STEP_4 := "4. **Do not repeat the same reasoning for different focus areas.**"
  const FORMAT_HEADING := "\nOutput Format:"
  const FORMAT_AREA_1 := "Focus Area 1: [Name of Focus Area from the list]"
  const FORMAT_REASONING := "Reasoning: [Your unique explanation]"
  const FORMAT_AREA_2 := "\nFocus Area 2: [Name of Focus Area from the list]"
  const FORMAT_MORE := "... (and so on)"
  const RECOMMENDATIONS_HEADING := "\nRecommendations:"

  /** The focus prompt's parts before the profile is inserted; the catalogue is the third. */
  function FocusPromptTemplate(focusAreas: seq<string>): (parts: seq<string>)
    ensures |parts| == 15 && parts[0] == INTRO && parts[2] == Join(focusAreas, ", ")
  {
    [ INTRO, AREAS_HEADING, Join(focusAreas, ", "), INSTRUCTIONS_HEADING, STEP_1, STEP_2, STEP_3, STEP_4,
      FORMAT_HEADING, FORMAT_AREA_1, FORMAT_REASONING, FORMAT_AREA_2, FORMAT_REASONING, FORMAT_MORE,
      RECOMMENDATIONS_HEADING ]
  }

  /** `parts.insert(i, x)` for a position inside the list: `x` lands at `i`, later parts move up one. */
  function Insert(parts: seq<string>, i: nat, x: string): (r: seq<string>)
    requires i <= |parts|
    ensures |r| == |parts| + 1 && r[i] == x
    ensures forall k :: 0 <= k < i ==> r[k] == parts[k]
    ensures forall k :: i < k < |r| ==> r[k] == parts[k - 1]
  {
    parts[..i] + [x] + parts[i..]
  }

  /** A profile value that is set and is not the `'Not specified'` placeholder. */
  predicate Informative(v: PyValue) {
    Truthy(v) && v != NOT_SPECIFIED
  }

  /** The details the focus prompt reports, in the order they are collected. */
  function ProfileDetails(profile: map<string, PyValue>): seq<string>
  {
    var age := Get(profile, "age");
    var passion := Get(profile, "passion");
    var interests := Get(profile, "interests");
    var traits := Get(profile, "personality_traits");
    (if Truthy(age) then ["Age: " + Format(age)] else [])
    + (if Truthy(passion) then ["Passion: " + Format(passion)] else [])
    + (if Informative(interests) then ["Interests: " + Format(interests)] else [])
    + (if Informative(traits) then ["Personality Traits: " + Format(traits)] else [])
  }

  /** The details as bullets, the last collected first. */
  function NewestFirst(details: seq<string>): seq<string>
  {
    seq(|details|, k requires 0 <= k < |details| => "- " + details[|details| - 1 - k])
  }

  /** The parts of the focus prompt once the profile has been inserted. */
  function FocusPromptParts(profile: map<string, PyValue>, focusAreas: seq<string>): seq<string>
  {
    WithProfile(FocusPromptTemplate(focusAreas), ProfileDetails(profile))
  }

  /** A template with the profile block placed after its first part. */
  function WithProfile(t: seq<string>, details: seq<string>): seq<string>
    requires |t| >= 1
  {
    if details == [] then [t[0], NO_PROFILE] + t[1..]
    else [t[0], PROFILE_HEADER] + NewestFirst(details) + t[1..]
  }

  /** Collecting one more detail puts its bullet in front of the others. */
  lemma NewestFirstPush(details: seq<string>, d: string)
    ensures NewestFirst(details + [d]) == ["- " + d] + NewestFirst(details)
  {
    var l := NewestFirst(details + [d]);
    var r := ["- " + d] + NewestFirst(details);
    assert |l| == |r|;
    forall k | 0 <= k < |l| ensures l[k] == r[k] {
      if k > 0 {
        assert (details + [d])[|details| - k] == details[|details| - 1 - (k - 1)];
      }
    }
  }

  /** Inserting at position 1 puts `x` right after the first part. */
  lemma InsertAfterFirst(t: seq<string>, x: string)
    requires |t| >= 1
    ensures Insert(t, 1, x) == [t[0], x] + t[1..]
  {
    assert t[..1] == [t[0]];
  }

  /** Inserting a bullet at position 2 puts it in front of the bullets already there. */
  lemma InsertBullet(first: string, details: seq<string>, d: string, rest: seq<string>)
    ensures Insert([first, PROFILE_HEADER] + NewestFirst(details) + rest, 2, "- " + d)
         == [first, PROFILE_HEADER] + NewestFirst(details + [d]) + rest
  {
    var p := [first, PROFILE_HEADER] + NewestFirst(details) + rest;
    NewestFirstPush(details, d);
    assert p[..2] == [first, PROFILE_HEADER];
    assert p[2..] == NewestFirst(details) + rest;
  }

  /**
   * The first half of `get_focus_recommendation_prompt`: the details worth
   * reporting, appended one by one in a fixed order.
   */
  method CollectProfileDetails(profile: map<string, PyValue>) returns (profileDetails: seq<string>)
    ensures profileDetails == ProfileDetails(profile)
  {
    profileDetails := [];
    if Truthy(Get(profile, "age")) {
      profileDetails := profileDetails + ["Age: " + Format(profile["age"])];
    }
    if Truthy(Get(profile, "passion")) {
      profileDetails := profileDetails + ["Passion: " + Format(profile["passion"])];
    }
    if Truthy(Get(profile, "interests")) && profile["interests"] != NOT_SPECIFIED {
      profileDetails := profileDetails + ["Interests: " + Format(profile["interests"])];
    }
    var personalityTraits := Get(profile, "personality_traits");
    if Truthy(personalityTraits) && personalityTraits != NOT_SPECIFIED {
      profileDetails := profileDetails + ["Personality Traits: " + Format(personalityTraits)];
    }
  }

  /**
   * The second half of `get_focus_recommendation_prompt`: the header (or the
   * fallback line) goes in at position 1, then each detail at position 2.
   */
  method InsertProfile(template: seq<string>, profileDetails: seq<string>) returns (promptParts: seq<string>)
    requires |template| >= 1
    ensures promptParts == WithProfile(template, profileDetails)
  {
    promptParts := template;
    if profileDetails != [] {
      promptParts := Insert(promptParts, 1, PROFILE_HEADER);
      InsertAfterFirst(template, PROFILE_HEADER);
      assert NewestFirst(profileDetails[..0]) == [];
      for i := 0 to |profileDetails|
        invariant promptParts == [template[0], PROFILE_HEADER] + NewestFirst(profileDetails[..i]) + template[1..]
      {
        InsertBullet(template[0], profileDetails[..i], profileDetails[i], template[1..]);
        assert profileDetails[..i + 1] == profileDetails[..i] + [profileDetails[i]];
        promptParts := Insert(promptParts, 2, "- " + profileDetails[i]);
      }
      assert profileDetails[..|profileDetails|] == profileDetails;
    } else {
      promptParts := Insert(promptParts, 1, NO_PROFILE);
      InsertAfterFirst(template, NO_PROFILE);
    }
  }

  /** `get_focus_recommendation_prompt`: the template with the profile inserted, joined by spaces. */
  method FocusRecommendationPrompt(profile: map<string, PyValue>, focusAreas: seq<string>) returns (prompt: string)
    ensures prompt == Join(FocusPromptParts(profile, focusAreas), " ")
  {
    var promptParts := FocusPromptTemplate(focusAreas);
    var profileDetails := CollectProfileDetails(profile);
    promptParts := InsertProfile(promptParts, profileDetails);
    prompt := Join(promptParts, " ");
  }

  /**
   * With details, part 1 is the header and the details follow newest first;
   * without, a single fallback part stands at 1. The template follows either way.
   */
  lemma FocusPromptLayout(profile: map<string, PyValue>, focusAreas: seq<string>)
    ensures var parts := FocusPromptParts(profile, focusAreas);
      var details := ProfileDetails(profile);
      var t := FocusPromptTemplate(focusAreas);
      && parts[0] == t[0]
      && (details == [] ==> |parts| == 16 && parts[1] == NO_PROFILE && parts[2..] == t[1..])
      && (details != [] ==>
            && |parts| == 16 + |details|
            && parts[1] == PROFILE_HEADER
            && (forall k :: 2 <= k < 2 + |details| ==> parts[k] == "- " + details[|details| + 1 - k])
            && parts[2 + |details|..] == t[1..])
  {
    var parts := FocusPromptParts(profile, focusAreas);
    var details := ProfileDetails(profile);
    var t := FocusPromptTemplate(focusAreas);
    if details != [] {
      var mid := NewestFirst(details);
      assert parts == [t[0], PROFILE_HEADER] + mid + t[1..];
      assert parts[2 + |details|..] == t[1..];
      forall k | 2 <= k < 2 + |details| ensures parts[k] == "- " + details[|details| + 1 - k] {
        assert parts[k] == mid[k - 2];
      }
    } else {
      assert parts[2..] == t[1..];
    }
  }

  /**
   * Which details are reported: the age when it is truthy (so not 0), the
   * passion when not empty, interests and personality traits when set and not
   * `'Not specified'`.
   */
  lemma ProfileDetailsFiltered(profile: map<string, PyValue>)
    ensures var d := ProfileDetails(profile);
      && (("Age: " + Format(Get(profile, "age")) in d) <==> Truthy(Get(profile, "age")))
      && (("Passion: " + Format(Get(profile, "passion")) in d) <==> Truthy(Get(profile, "passion")))
      && (("Interests: " + Format(Get(profile, "interests")) in d) <==> Informative(Get(profile, "interests")))
      && (("Personality Traits: " + Format(Get(profile, "personality_traits")) in d)
            <==> Informative(Get(profile, "personality_traits")))
  {
    var age := "Age: " + Format(Get(profile, "age"));
    var passion := "Passion: " + Format(Get(profile, "passion"));
    var interests := "Interests: " + Format(Get(profile, "interests"));
    var traits := "Personality Traits: " + Format(Get(profile, "personality_traits"));
    assert age[0] == 'A' && passion[0] == 'P' && interests[0] == 'I' && traits[0] == 'P';
    assert passion[1] == 'a' && traits[1] == 'e';
  }

  /** The focus prompt lists the whole catalogue, joined by `", "`. */
  lemma FocusPromptListsAreas(profile: map<string, PyValue>, focusAreas: seq<string>)
    ensures Contains(Join(FocusPromptParts(profile, focusAreas), " "), Join(focusAreas, ", "))
  {
    var parts := FocusPromptParts(profile, focusAreas);
    var details := ProfileDetails(profile);
    var t := FocusPromptTemplate(focusAreas);
    FocusPromptLayout(profile, focusAreas);
    var at := if details == [] then 3 else 3 + |details|;
    assert parts[at] == t[2];
    JoinContains(parts, " ", at);
  }

  const TRAITS_LABEL := "Personality Traits (inferred from chat): "
  const NO_TRAITS := "No personality information inferred yet."

  /** The personality line of the career prompt, with a fixed fallback. */
  function PersonalityInfo(profile: map<string, PyValue>): (r: string)
    ensures Truthy(Get(profile, "personality_traits")) ==> Contains(r, Format(Get(profile, "personality_traits")))
    ensures !Truthy(Get(profile, "personality_traits")) ==> r == NO_TRAITS
  {
    var traits := Get(profile, "personality_traits");
    if Truthy(traits) then
      ContainsMiddle(TRAITS_LABEL, Format(traits), "");
      assert TRAITS_LABEL + Format(traits) + "" == TRAITS_LABEL + Format(traits);
      TRAITS_LABEL + Format(traits)
    else NO_TRAITS
  }

  /** The location clause of the career prompt: empty exactly when the location is falsy. */
  function LocationContext(location: PyValue): (r: string)
    ensures r == "" <==> !Truthy(location)
    ensures Truthy(location) ==> Contains(r, Format(location))
  {
    if Truthy(location) then
      ContainsMiddle("Knowing the user is in ", Format(location), ",");
      "Knowing the user is in " + Format(location) + ","
    else ""
  }

  const LINE_BREAK := "\n    "
  const PARAGRAPH_BREAK := "\n\n    "

  /** A name between single quotes, as the career prompt writes the chosen area. */
  function Quoted(name: string): string {
    "'" + name + "'"
  }

  const CAREER_INTRO := "Based on the following learner profile with a chosen focus area of "
  const SUGGEST := " suggest 3-5 potential career paths within "
  const CAREER_CLOSING := ". Briefly explain why these careers might be a good fit.\n    "

  /** The eight profile lines of the career prompt, each with its own default for a missing key. */
  function ProfileLines(profile: map<string, PyValue>): string
  {
    "\n    Age: " + Format(GetOr(profile, "age", PyStr("Not specified")))
    + "\n    Educational Background: " + Format(GetOr(profile, "educational_background", PyStr("Not provided.")))
    + "\n    Professional Experience: " + Format(GetOr(profile, "professional_experience", PyStr("Not provided.")))
    + "\n    Passion: " + Format(GetOr(profile, "passion", PyStr("Not specified.")))
    + "\n    Skills: " + Format(GetOr(profile, "skills", PyStr("Not provided.")))
    + "\n    Interests: " + Format(GetOr(profile, "interests", PyStr("Not specified.")))
    + "\n    Values: " + Format(GetOr(profile, "values", PyStr("Not provided.")))
    + "\n    Career Goals: " + Format(GetOr(profile, "career_goals", PyStr("Not provided.")))
  }

  /** The three pieces the career prompt is built around sit where they were put. */
  lemma SevenPieces(intro: string, quoted: string, lines: string, traits: string, gap: string, request: string, closing: string)
    ensures var r := intro + quoted + lines + traits + gap + request + closing;
      && OccursAt(r, quoted, |intro|)
      && Contains(r, traits)
      && Contains(r, request)
  {
    var r := intro + quoted + lines + traits + gap + request + closing;
    var i := |intro| + |quoted| + |lines|;
    var j := i + |traits| + |gap|;
    assert r[|intro|..|intro| + |quoted|] == quoted;
    assert r[i..i + |traits|] == traits;
    assert OccursAt(r, traits, i);
    assert r[j..j + |request|] == request;
    assert OccursAt(r, request, j);
  }

  /**
   * `get_career_recommendation_prompt`: names the chosen area in quotes, and
   * carries the personality line and the location clause before the request.
   */
  function CareerRecommendationPrompt(profile: map<string, PyValue>, chosenFocusArea: string, location: PyValue): (r: string)
    ensures OccursAt(r, Quoted(chosenFocusArea), |CAREER_INTRO|)
    ensures Contains(r, PersonalityInfo(profile))
    ensures Contains(r, LocationContext(location) + SUGGEST)
  {
    var quoted := Quoted(chosenFocusArea);
    var lines := ":" + ProfileLines(profile) + LINE_BREAK;
    var traits := PersonalityInfo(profile);
    var request := LocationContext(location) + SUGGEST;
    var closing := quoted + CAREER_CLOSING;
    SevenPieces(CAREER_INTRO, quoted, lines, traits, PARAGRAPH_BREAK, request, closing);
    CAREER_INTRO + quoted + lines + traits + PARAGRAPH_BREAK + request + closing
  }

  const INTERESTS_HEAD := "Based on the following conversation history:\n\n    "
  const INTERESTS_TAIL := "\n\n    What are the user's primary interests? Provide a brief summary.\n    "

  /** `get_interests_prompt`: the conversation history appears in it verbatim, after a fixed heading. */
  function InterestsPrompt(conversationHistory: string): (r: string)
    ensures OccursAt(r, conversationHistory, |INTERESTS_HEAD|)
    ensures StartsWith(r, INTERESTS_HEAD)
  {
    var r := INTERESTS_HEAD + conversationHistory + INTERESTS_TAIL;
    assert r[..|INTERESTS_HEAD|] == INTERESTS_HEAD;
    assert r[|INTERESTS_HEAD|..|INTERESTS_HEAD| + |conversationHistory|] == conversationHistory;
    r
  }

  const PERSONALITY_HEAD := "Based on the following conversation, infer the user's key personality traits relevant to career choices:\n    "
  const PERSONALITY_TAIL := "\n    Provide a concise summary of their personality in 2-3 sentences.\n    "

  /** `get_personality_inference_prompt`: the conversation history appears in it verbatim, after a fixed heading. */
  function PersonalityInferencePrompt(conversationHistory: string): (r: string)
    ensures OccursAt(r, conversationHistory, |PERSONALITY_HEAD|)
    ensures StartsWith(r, PERSONALITY_HEAD)
  {
    var r := PERSONALITY_HEAD + conversationHistory + PERSONALITY_TAIL;
    assert r[..|PERSONALITY_HEAD|] == PERSONALITY_HEAD;
    assert r[|PERSONALITY_HEAD|..|PERSONALITY_HEAD| + |conversationHistory|] == conversationHistory;
    r
  }
}
