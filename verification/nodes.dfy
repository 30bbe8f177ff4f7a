/**
 * The five node functions of graph.py (graph.py:104-209), each with the
 * service call it makes replaced by an oracle, plus the story post-processing
 * of `generate_story`. Every node reads the current state and returns a
 * partial state holding only the keys it sets.
 */
module Nodes {
  import opened Wrappers
  import opened JsonValue
  import opened Text
  import opened Schema
  import opened StateModel
  import opened Prompts

  /**
   * What the text-generation service answers. The classifier, the
   * specification writer and the judge answer JSON: `None` stands for text
   * that `json.loads` rejects. The storyteller and the general responder
   * answer free text. `round` is the number of judge verdicts already given
   * in the current invocation, so a revision may be answered differently.
   */
  datatype Oracle = Oracle(
    classify: ClassifyPrompt -> Option<Json>,
    buildSpec: (SpecPrompt, nat) -> Option<Json>,
    write: (StorySpecifications, nat) -> string,
    review: (string, nat) -> Option<Json>,
    chat: GeneralPrompt -> string)

  /** Why a turn fails; each is an exception in the source. */
  datatype Error =
    | MissingKey(key: Key)            // `state[key]` on an absent key
    | NotJson                         // `json.loads` rejected the answer
    | Invalid(reason: SchemaError)    // validation of a record failed
    | UnknownBranch(branch: string)   // a router returned a label without an edge

  /** The end-of-story marker the storyteller is asked to emit. */
  const Sentinel: string := "<END>"

  /**
   * `text.split("<END>")[0].strip()`: the text before the first sentinel,
   * without surrounding whitespace. It never contains the sentinel.
   */
  function StoryText(raw: string): (story: string)
    ensures !Occurs(story, Sentinel)
    ensures story == [] || (!IsSpace(story[0]) && !IsSpace(story[|story| - 1]))
    ensures !Occurs(raw, Sentinel) ==> story == Strip(raw)
    ensures Occurs(raw, Sentinel) ==>
      exists i: nat :: OccursAt(raw, Sentinel, i) && story == Strip(raw[..i]) &&
                       forall j: nat :: j < i ==> !OccursAt(raw, Sentinel, j)
  {
    FirstPieceStripped(raw, Sentinel);
    Strip(BeforeFirst(raw, Sentinel))
  }

  /** What `StoryText` promises, for any non-empty separator. */
  lemma FirstPieceStripped(raw: string, sep: string)
    requires sep != []
    ensures !Occurs(Strip(BeforeFirst(raw, sep)), sep)
    ensures !Occurs(raw, sep) ==> BeforeFirst(raw, sep) == raw
    ensures Occurs(raw, sep) ==>
      exists i: nat :: OccursAt(raw, sep, i) && BeforeFirst(raw, sep) == raw[..i] &&
                       forall j: nat :: j < i ==> !OccursAt(raw, sep, j)
  {
    var before := BeforeFirst(raw, sep);
    NoOccurrenceInPrefix(raw, sep, |before|);
    StrippedKeepsAbsence(before, sep);
    if |before| < |raw| {
      assert OccursAt(raw, sep, |before|);
    } else {
      assert before == raw;
    }
  }

  /** Stripping a text without `p` leaves a text without `p`. */
  lemma StrippedKeepsAbsence(s: string, p: string)
    requires !Occurs(s, p)
    ensures !Occurs(Strip(s), p)
  {
    var r := Strip(s);
    NoOccurrenceInSlice(s, p, LeadingSpace(s), LeadingSpace(s) + |r|);
  }

  /**
   * Text written before the sentinel, trimmed, is the story; whatever the
   * storyteller adds after the sentinel is dropped. The text only has to
   * be free of the sentinel itself: "<END>" cannot overlap itself, so its
   * first occurrence is the one that follows the text.
   */
  lemma StoryTextDropsTail(text: string, tail: string)
    requires !Occurs(text, Sentinel)
    ensures StoryText(text + Sentinel + tail) == Strip(text)
  {
    var raw := text + Sentinel + tail;
    assert raw[..|text|] == text;
    assert raw[|text|..|text| + |Sentinel|] == Sentinel;
    forall i: nat | i < |text| ensures !OccursAt(raw, Sentinel, i) {
      NoEarlierSentinel(text, tail, i);
    }
    BeforeFirstAt(raw, Sentinel, |text|);
  }

  /** No sentinel starts inside a sentinel-free text followed by a sentinel. */
  lemma NoEarlierSentinel(text: string, tail: string, i: nat)
    requires !Occurs(text, Sentinel) && i < |text|
    ensures !OccursAt(text + Sentinel + tail, Sentinel, i)
  {
    var raw := text + Sentinel + tail;
    if i + |Sentinel| <= |text| {
      var inRaw, inText := raw[i..i + |Sentinel|], text[i..i + |Sentinel|];
      forall j | 0 <= j < |Sentinel| ensures inRaw[j] == inText[j] {
        assert inRaw[j] == raw[i + j];
      }
      assert inRaw == inText;
      assert !OccursAt(text, Sentinel, i);
    } else {
      var d := |text| - i;
      assert raw[i..i + |Sentinel|][d] == raw[|text|] == '<';
      assert Sentinel[d] != '<';
    }
  }

  /** A slice of a string without `p` has no `p` either. */
  lemma NoOccurrenceInSlice(s: string, p: string, lo: nat, hi: nat)
    requires lo <= hi <= |s| && !Occurs(s, p)
    ensures !Occurs(s[lo..hi], p)
  {
    forall i: nat | OccursAt(s[lo..hi], p, i)
      ensures false
    {
      assert i + |p| <= hi - lo;
      var inner, outer := s[lo..hi][i..i + |p|], s[lo + i..lo + i + |p|];
      forall j | 0 <= j < |p| ensures inner[j] == outer[j] {
        assert inner[j] == s[lo + i + j];
      }
      assert inner == outer;
      assert OccursAt(s, p, lo + i) && lo + i <= |s|;
    }
  }

  /** The result of `n_intent`; see the method of that name. */
  function IntentResult(s: State, classify: ClassifyPrompt -> Option<Json>): (r: Result<State, Error>)
    ensures s.message.None? ==> r == Failure(MissingKey(Message))
    ensures r.Success? <==>
      s.message.Some? &&
      var reply := classify(PromptClassifyIntent(s.message.value, s.history));
      reply.Some? && ParseUserIntent(reply.value).Success?
    ensures r.Success? ==>
      var reply := classify(PromptClassifyIntent(s.message.value, s.history));
      && r.value.intent == Some(Label(ParseUserIntent(reply.value).value.intent))
      && (r.value.feedback.Some? <==> r.value.intent == Some("feedback"))
      && (r.value.feedback.Some? ==> r.value.feedback == s.message)
      && forall k :: k != Intent && k != Feedback ==> !Present(r.value, k)
  {
    if s.message.None? then Failure(MissingKey(Message))
    else
      match classify(PromptClassifyIntent(s.message.value, s.history))
      case None => Failure(NotJson)
      case Some(j) =>
        match ParseUserIntent(j)
        case Failure(e) => Failure(Invalid(e))
        case Success(ui) =>
          var name := Label(ui.intent);
          Success(Empty.(intent := Some(name),
                         feedback := if ui.intent == FeedbackIntent then s.message else None))
  }

  /**
   * `n_intent`: classify the message in the light of the recent history,
   * record the intent, and when it is feedback also record the message as
   * the revision instruction.
   */
  method NIntent(s: State, classify: ClassifyPrompt -> Option<Json>) returns (r: Result<State, Error>)
    ensures r == IntentResult(s, classify)
  {
    if s.message.None? {
      return Failure(MissingKey(Message));
    }
    var reply := classify(PromptClassifyIntent(s.message.value, s.history));
    if reply.None? {
      return Failure(NotJson);
    }
    var userIntent := ParseUserIntent(reply.value);
    if userIntent.Failure? {
      return Failure(Invalid(userIntent.error));
    }
    var result := Empty.(intent := Some(Label(userIntent.value.intent)));
    if userIntent.value.intent == FeedbackIntent {
      result := result.(feedback := s.message);
    }
    return Success(result);
  }

  /**
   * `n_spec`: build or revise the specification from the message, the
   * prior specification and the pending feedback. The stored
   * specification validates back to exactly the record the writer
   * answered, and the feedback is always consumed (set to "").
   */
  function NSpec(s: State, buildSpec: (SpecPrompt, nat) -> Option<Json>, round: nat): (r: Result<State, Error>)
    ensures s.message.None? ==> r == Failure(MissingKey(Message))
    ensures r.Success? <==>
      s.message.Some? &&
      var reply := buildSpec(PromptBuildSpec(s.message.value, s.specifications, s.feedback), round);
      reply.Some? && ParseSpecifications(reply.value).Success?
    ensures r.Success? ==>
      var reply := buildSpec(PromptBuildSpec(s.message.value, s.specifications, s.feedback), round);
      && r.value.feedback == Some("")
      && r.value.specifications.Some?
      && ParseSpecifications(r.value.specifications.value) == ParseSpecifications(reply.value)
      && forall k :: k != Specifications && k != Feedback ==> !Present(r.value, k)
  {
    if s.message.None? then Failure(MissingKey(Message))
    else
      var request := StoryRequest(s.message.value);
      match buildSpec(PromptBuildSpec(request.request, s.specifications, s.feedback), round)
      case None => Failure(NotJson)
      case Some(j) =>
        match ParseSpecifications(j)
        case Failure(e) => Failure(Invalid(e))
        case Success(spec) =>
          SpecificationsRoundTrip(spec);
          Success(Empty.(specifications := Some(SpecificationsToJson(spec)), feedback := Some("")))
  }

  /**
   * `n_generate`: validate the stored specification, have the story
   * written from it, and keep the text before the sentinel.
   */
  function NGenerate(s: State, write: (StorySpecifications, nat) -> string, round: nat): (r: Result<State, Error>)
    ensures s.specifications.None? ==> r == Failure(MissingKey(Specifications))
    ensures r.Success? <==>
      s.specifications.Some? && ParseSpecifications(s.specifications.value).Success?
    ensures r.Success? ==>
      var spec := ParseSpecifications(s.specifications.value).value;
      && r.value.story == Some(StoryText(write(spec, round)))
      && forall k :: k != Story ==> !Present(r.value, k)
  {
    if s.specifications.None? then Failure(MissingKey(Specifications))
    else
      match ParseSpecifications(s.specifications.value)
      case Failure(e) => Failure(Invalid(e))
      case Success(spec) =>
        var generated := StoryGenerated(StoryText(write(spec, round)));
        Success(Empty.(story := Some(generated.story)))
  }

  /**
   * `n_judge`: record the verdict and the judge's explanation; the
   * explanation becomes the revision instruction only on rejection.
   */
  function NJudge(s: State, review: (string, nat) -> Option<Json>, round: nat): (r: Result<State, Error>)
    ensures s.story.None? ==> r == Failure(MissingKey(Story))
    ensures r.Success? <==>
      s.story.Some? &&
      var reply := review(s.story.value, round);
      reply.Some? && ParseJudgeEvaluation(reply.value).Success?
    ensures r.Success? ==>
      var je := ParseJudgeEvaluation(review(s.story.value, round).value).value;
      && r.value.judgeEvaluation == Some(je.isAppropriate)
      && r.value.judgeFeedback == Some(je.feedback)
      && (je.isAppropriate ==> r.value.feedback == Some(""))
      && (!je.isAppropriate ==> r.value.feedback == Some(je.feedback))
      && forall k :: k !in {Key.JudgeEvaluation, JudgeFeedback, Feedback} ==> !Present(r.value, k)
  {
    if s.story.None? then Failure(MissingKey(Story))
    else
      match review(StoryGenerated(s.story.value).story, round)
      case None => Failure(NotJson)
      case Some(j) =>
        match ParseJudgeEvaluation(j)
        case Failure(e) => Failure(Invalid(e))
        case Success(je) =>
          var ok := je.isAppropriate;
          Success(Empty.(judgeEvaluation := Some(ok),
                         judgeFeedback := Some(je.feedback),
                         feedback := Some(if ok then "" else je.feedback)))
  }

  /** `n_general`: answer the message in the light of the recent history. */
  function NGeneral(s: State, chat: GeneralPrompt -> string): (r: Result<State, Error>)
    ensures r.Success? <==> s.message.Some?
    ensures r.Success? ==>
      && r.value.generalResponse == Some(Strip(chat(PromptGeneralResponse(s.message.value, s.history))))
      && forall k :: k != GeneralResponse ==> !Present(r.value, k)
  {
    if s.message.None? then Failure(MissingKey(Message))
    else Success(Empty.(generalResponse := Some(Strip(chat(PromptGeneralResponse(s.message.value, s.history))))))
  }
}
