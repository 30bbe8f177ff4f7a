/**
 * The record schemas of schema.py as datatypes, each with a validating
 * constructor from a parsed JSON value (what `Model(**data)` does) and a
 * serialiser back to JSON (what `model_dump` produces).
 *
 * Validation accepts exactly the JSON types the fields declare; fields
 * the schema does not declare are ignored.
 */
module Schema {
  import opened Wrappers
  import opened JsonValue

  /** Why a record could not be built. */
  datatype SchemaError =
    | NotAnObject              // the JSON value is not an object
    | MissingField(name: string)
    | WrongType(name: string)
    | NotAllowed(name: string)  // a value outside a literal enumeration

  /** The three intents of `UserIntent.intent`. */
  datatype IntentKind = StoryIntent | FeedbackIntent | GeneralIntent

  /** The label under which an intent travels through the graph state. */
  function Label(k: IntentKind): (text: string)
    ensures text in {"story", "feedback", "general"}
  {
    match k
    case StoryIntent => "story"
    case FeedbackIntent => "feedback"
    case GeneralIntent => "general"
  }

  /** Reads a label back; only the three enumerated strings are intents. */
  function IntentOf(text: string): (r: Option<IntentKind>)
    ensures r.Some? <==> text in {"story", "feedback", "general"}
    ensures r.Some? ==> Label(r.value) == text
  {
    if text == "story" then Some(StoryIntent)
    else if text == "feedback" then Some(FeedbackIntent)
    else if text == "general" then Some(GeneralIntent)
    else None
  }

  lemma LabelRoundTrip(k: IntentKind)
    ensures IntentOf(Label(k)) == Some(k)
  {
  }

  datatype StoryRequest = StoryRequest(request: string)
  datatype UserIntent = UserIntent(intent: IntentKind)
  datatype StorySpecifications =
    StorySpecifications(topic: string, tone: string, length: int, style: string, plan: string)
  datatype StoryGenerated = StoryGenerated(story: string)
  datatype JudgeEvaluation = JudgeEvaluation(isAppropriate: bool, feedback: string)
  datatype UserFeedback = UserFeedback(feedback: string)

  /** The default of `StorySpecifications.length`. */
  const DefaultLength := 1000

  /** A required string field. */
  function StrField(j: Json, name: string): (r: Result<string, SchemaError>)
    requires j.JObject?
    ensures r.Success? <==> name in j.fields && j.fields[name].JStr?
    ensures r.Success? ==> j.fields[name] == JStr(r.value)
  {
    if name !in j.fields then Failure(MissingField(name))
    else if !j.fields[name].JStr? then Failure(WrongType(name))
    else Success(j.fields[name].s)
  }

  /** A single-string record `{name: str}`. */
  function SingleString(j: Json, name: string): (r: Result<string, SchemaError>)
    ensures r.Success? <==> j.JObject? && name in j.fields && j.fields[name].JStr?
    ensures r.Success? ==> j.fields[name] == JStr(r.value)
  {
    if !j.JObject? then Failure(NotAnObject) else StrField(j, name)
  }

  function ParseStoryRequest(j: Json): (r: Result<StoryRequest, SchemaError>)
    ensures r.Success? <==> j.JObject? && "request" in j.fields && j.fields["request"].JStr?
    ensures r.Success? ==> j.fields["request"] == JStr(r.value.request)
  {
    match SingleString(j, "request")
    case Success(s) => Success(StoryRequest(s))
    case Failure(e) => Failure(e)
  }

  function ParseStoryGenerated(j: Json): (r: Result<StoryGenerated, SchemaError>)
    ensures r.Success? <==> j.JObject? && "story" in j.fields && j.fields["story"].JStr?
    ensures r.Success? ==> j.fields["story"] == JStr(r.value.story)
  {
    match SingleString(j, "story")
    case Success(s) => Success(StoryGenerated(s))
    case Failure(e) => Failure(e)
  }

  function ParseUserFeedback(j: Json): (r: Result<UserFeedback, SchemaError>)
    ensures r.Success? <==> j.JObject? && "feedback" in j.fields && j.fields["feedback"].JStr?
    ensures r.Success? ==> j.fields["feedback"] == JStr(r.value.feedback)
  {
    match SingleString(j, "feedback")
    case Success(s) => Success(UserFeedback(s))
    case Failure(e) => Failure(e)
  }

  /** `UserIntent(**data)`: `intent` must be one of the three labels. */
  function ParseUserIntent(j: Json): (r: Result<UserIntent, SchemaError>)
    ensures r.Success? <==>
      j.JObject? && "intent" in j.fields && j.fields["intent"].JStr? &&
      j.fields["intent"].s in {"story", "feedback", "general"}
    ensures r.Success? ==> j.fields["intent"] == JStr(Label(r.value.intent))
  {
    match SingleString(j, "intent")
    case Failure(e) => Failure(e)
    case Success(text) =>
      match IntentOf(text)
      case Some(k) => Success(UserIntent(k))
      case None => Failure(NotAllowed("intent"))
  }

  /**
   * `StorySpecifications(**data)`: four required strings and an integer
   * length that defaults to 1000 when the key is absent.
   */
  function ParseSpecifications(j: Json): (r: Result<StorySpecifications, SchemaError>)
    ensures r.Success? <==>
      j.JObject? &&
      (forall name :: name in {"topic", "tone", "style", "plan"} ==>
         name in j.fields && j.fields[name].JStr?) &&
      ("length" in j.fields ==> j.fields["length"].JInt?)
    ensures r.Success? ==>
      && j.fields["topic"] == JStr(r.value.topic)
      && j.fields["tone"] == JStr(r.value.tone)
      && j.fields["style"] == JStr(r.value.style)
      && j.fields["plan"] == JStr(r.value.plan)
      && r.value.length == (if "length" in j.fields then j.fields["length"].i else DefaultLength)
  {
    if !j.JObject? then Failure(NotAnObject)
    else
      match (StrField(j, "topic"), StrField(j, "tone"), StrField(j, "style"), StrField(j, "plan"))
      case (Failure(e), _, _, _) => Failure(e)
      case (_, Failure(e), _, _) => Failure(e)
      case (_, _, Failure(e), _) => Failure(e)
      case (_, _, _, Failure(e)) => Failure(e)
      case (Success(topic), Success(tone), Success(style), Success(plan)) =>
        if "length" !in j.fields then
          Success(StorySpecifications(topic, tone, DefaultLength, style, plan))
        else if !j.fields["length"].JInt? then Failure(WrongType("length"))
        else Success(StorySpecifications(topic, tone, j.fields["length"].i, style, plan))
  }

  /** `JudgeEvaluation(**data)`: a required boolean; `feedback` defaults to "". */
  function ParseJudgeEvaluation(j: Json): (r: Result<JudgeEvaluation, SchemaError>)
    ensures r.Success? <==>
      j.JObject? && "is_appropriate" in j.fields && j.fields["is_appropriate"].JBool? &&
      ("feedback" in j.fields ==> j.fields["feedback"].JStr?)
    ensures r.Success? ==>
      && j.fields["is_appropriate"] == JBool(r.value.isAppropriate)
      && r.value.feedback == (if "feedback" in j.fields then j.fields["feedback"].s else "")
  {
    if !j.JObject? then Failure(NotAnObject)
    else if "is_appropriate" !in j.fields then Failure(MissingField("is_appropriate"))
    else if !j.fields["is_appropriate"].JBool? then Failure(WrongType("is_appropriate"))
    else if "feedback" !in j.fields then Success(JudgeEvaluation(j.fields["is_appropriate"].b, ""))
    else if !j.fields["feedback"].JStr? then Failure(WrongType("feedback"))
    else Success(JudgeEvaluation(j.fields["is_appropriate"].b, j.fields["feedback"].s))
  }

  /** `model_dump` of a specification: all five fields, the length included. */
  function SpecificationsToJson(spec: StorySpecifications): (j: Json)
    ensures j.JObject? && j.fields.Keys == {"topic", "tone", "length", "style", "plan"}
  {
    JObject(map[
      "topic" := JStr(spec.topic),
      "tone" := JStr(spec.tone),
      "length" := JInt(spec.length),
      "style" := JStr(spec.style),
      "plan" := JStr(spec.plan)])
  }

  /** Serialising a specification and validating it again gives it back. */
  lemma SpecificationsRoundTrip(spec: StorySpecifications)
    ensures ParseSpecifications(SpecificationsToJson(spec)) == Success(spec)
  {
    var j := SpecificationsToJson(spec);
    assert j.fields["topic"] == JStr(spec.topic);
    assert j.fields["length"] == JInt(spec.length);
  }

  /** Keys the schema does not declare do not change what validation yields. */
  lemma SpecificationsIgnoreExtraKeys(m: map<string, Json>, key: string, v: Json)
    requires key !in {"topic", "tone", "length", "style", "plan"}
    ensures ParseSpecifications(JObject(m[key := v])) == ParseSpecifications(JObject(m))
  {
  }
}
