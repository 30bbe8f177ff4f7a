/**
 * The conversation state of graph.py: a record whose fields are all
 * optional (an absent key is `None`), the partial updates the nodes
 * return, and the merge of an update into the state.
 */
module StateModel {
  import opened Wrappers
  import opened JsonValue

  /** One entry of the conversation history: `{"role": ..., "content": ...}`. */
  datatype Turn = Turn(role: string, content: string)

  /** The keys of the state dictionary. */
  datatype Key =
    | Message | Intent | Story | Specifications | Feedback
    | JudgeEvaluation | JudgeFeedback | GeneralResponse | History

  /**
   * The state dictionary. `specifications` holds the serialised
   * specification record, seen here as its parsed JSON value. Node results
   * have the same shape: a node returns the keys it sets.
   */
  datatype State = State(
    message: Option<string>,
    intent: Option<string>,
    story: Option<string>,
    specifications: Option<Json>,
    feedback: Option<string>,
    judgeEvaluation: Option<bool>,
    judgeFeedback: Option<string>,
    generalResponse: Option<string>,
    history: Option<seq<Turn>>)

  /** The dictionary with no keys. */
  const Empty: State := State(None, None, None, None, None, None, None, None, None)

  /** `k in s`. */
  predicate Present(s: State, k: Key)
  {
    match k
    case Message => s.message.Some?
    case Intent => s.intent.Some?
    case Story => s.story.Some?
    case Specifications => s.specifications.Some?
    case Feedback => s.feedback.Some?
    case JudgeEvaluation => s.judgeEvaluation.Some?
    case JudgeFeedback => s.judgeFeedback.Some?
    case GeneralResponse => s.generalResponse.Some?
    case History => s.history.Some?
  }

  /** `a` and `b` agree on key `k`: both lack it, or both hold the same value. */
  predicate Agree(a: State, b: State, k: Key)
  {
    match k
    case Message => a.message == b.message
    case Intent => a.intent == b.intent
    case Story => a.story == b.story
    case Specifications => a.specifications == b.specifications
    case Feedback => a.feedback == b.feedback
    case JudgeEvaluation => a.judgeEvaluation == b.judgeEvaluation
    case JudgeFeedback => a.judgeFeedback == b.judgeFeedback
    case GeneralResponse => a.generalResponse == b.generalResponse
    case History => a.history == b.history
  }

  /** `dst[k] = src[k]` when `k in src`; otherwise `dst` unchanged. */
  function CopyKey(dst: State, src: State, k: Key): (r: State)
    ensures Present(src, k) ==> Agree(r, src, k)
    ensures !Present(src, k) ==> r == dst
    ensures forall k' :: k' != k ==> Agree(r, dst, k')
  {
    match k
    case Message => if src.message.Some? then dst.(message := src.message) else dst
    case Intent => if src.intent.Some? then dst.(intent := src.intent) else dst
    case Story => if src.story.Some? then dst.(story := src.story) else dst
    case Specifications =>
      if src.specifications.Some? then dst.(specifications := src.specifications) else dst
    case Feedback => if src.feedback.Some? then dst.(feedback := src.feedback) else dst
    case JudgeEvaluation =>
      if src.judgeEvaluation.Some? then dst.(judgeEvaluation := src.judgeEvaluation) else dst
    case JudgeFeedback =>
      if src.judgeFeedback.Some? then dst.(judgeFeedback := src.judgeFeedback) else dst
    case GeneralResponse =>
      if src.generalResponse.Some? then dst.(generalResponse := src.generalResponse) else dst
    case History => if src.history.Some? then dst.(history := src.history) else dst
  }

  function Override<T>(current: Option<T>, update: Option<T>): Option<T>
  {
    if update.Some? then update else current
  }

  /**
   * The engine's merge of a node result into the state. No key has a
   * reducer, so every key of the update overwrites, and every key the
   * update lacks keeps its current value.
   */
  function Merge(s: State, u: State): State
  {
    State(
      Override(s.message, u.message),
      Override(s.intent, u.intent),
      Override(s.story, u.story),
      Override(s.specifications, u.specifications),
      Override(s.feedback, u.feedback),
      Override(s.judgeEvaluation, u.judgeEvaluation),
      Override(s.judgeFeedback, u.judgeFeedback),
      Override(s.generalResponse, u.generalResponse),
      Override(s.history, u.history))
  }

  /** Each key of the update overwrites; each key it lacks keeps its current value. */
  lemma MergeOverwrites(s: State, u: State, k: Key)
    ensures Present(u, k) ==> Agree(Merge(s, u), u, k)
    ensures !Present(u, k) ==> Agree(Merge(s, u), s, k)
  {
  }

  /** Two states that agree on every key are the same state. */
  lemma AgreeEverywhere(a: State, b: State)
    requires forall k :: Agree(a, b, k)
    ensures a == b
  {
    assert Agree(a, b, Message) && Agree(a, b, Intent) && Agree(a, b, Story);
    assert Agree(a, b, Specifications) && Agree(a, b, Feedback);
    assert Agree(a, b, JudgeEvaluation) && Agree(a, b, JudgeFeedback);
    assert Agree(a, b, GeneralResponse) && Agree(a, b, History);
  }

  /** Merging the empty update leaves the state as it is. */
  lemma MergeEmpty(s: State)
    ensures Merge(s, Empty) == s
  {
    forall k ensures Agree(Merge(s, Empty), s, k) {
      MergeOverwrites(s, Empty, k);
    }
    AgreeEverywhere(Merge(s, Empty), s);
  }
}
