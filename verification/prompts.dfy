/**
 * The structure of the prompts graph.py builds (graph.py:29-102): which
 * context blocks a prompt carries, not its wording.
 */
module Prompts {
  import opened Wrappers
  import opened JsonValue
  import opened StateModel

  /** How many of the most recent turns a prompt may quote. */
  const HistoryWindow: nat := 6

  /** `history[-6:]`: the last six turns, or all of them when there are fewer. */
  function RecentTurns(h: seq<Turn>): (r: seq<Turn>)
    ensures |r| == if |h| < HistoryWindow then |h| else HistoryWindow
    ensures r == h[|h| - |r|..]
  {
    if |h| <= HistoryWindow then h else h[|h| - HistoryWindow..]
  }

  /**
   * The conversation block of the intent and general prompts: present only
   * for a non-empty history (`if history:` is false for None and for []),
   * and then quoting at most the last six turns, in order.
   */
  function ContextBlock(history: Option<seq<Turn>>): (r: Option<seq<Turn>>)
    ensures r.None? <==> history.None? || history.value == []
    ensures r.Some? ==> 0 < |r.value| <= HistoryWindow
    ensures r.Some? ==> |r.value| <= |history.value| && r.value == history.value[|history.value| - |r.value|..]
    ensures r.Some? && |history.value| <= HistoryWindow ==> r.value == history.value
    ensures r.Some? ==> |r.value| == if |history.value| < HistoryWindow then |history.value| else HistoryWindow
  {
    if history.None? || history.value == [] then None else Some(RecentTurns(history.value))
  }

  /** What `prompt_classify_intent` puts in front of the classifier. */
  datatype ClassifyPrompt = ClassifyPrompt(message: string, context: Option<seq<Turn>>)

  /** What `prompt_general_response` puts in front of the general responder. */
  datatype GeneralPrompt = GeneralPrompt(message: string, context: Option<seq<Turn>>)

  /**
   * What `prompt_build_spec` puts in front of the specification writer:
   * the request, the CURRENT SPEC block and the USER FEEDBACK block.
   */
  datatype SpecPrompt = SpecPrompt(request: string, prior: Option<Json>, feedback: Option<string>)

  function PromptClassifyIntent(message: string, history: Option<seq<Turn>>): (p: ClassifyPrompt)
    ensures p.message == message
    ensures p.context.None? <==> history.None? || history.value == []
    ensures p.context.Some? ==> |p.context.value| <= HistoryWindow
    ensures p.context == ContextBlock(history)
  {
    ClassifyPrompt(message, ContextBlock(history))
  }

  function PromptGeneralResponse(message: string, history: Option<seq<Turn>>): (p: GeneralPrompt)
    ensures p.message == message
    ensures p.context.None? <==> history.None? || history.value == []
    ensures p.context.Some? ==> |p.context.value| <= HistoryWindow
    ensures p.context == ContextBlock(history)
  {
    GeneralPrompt(message, ContextBlock(history))
  }

  /**
   * `prompt_build_spec`: the prior-spec block appears exactly when a prior
   * specification is given (its JSON text is never empty), and the feedback
   * block exactly when the feedback is a non-empty string.
   */
  function PromptBuildSpec(request: string, specifications: Option<Json>, feedback: Option<string>): (p: SpecPrompt)
    ensures p.request == request
    ensures p.prior == specifications
    ensures p.feedback.Some? <==> feedback.Some? && feedback.value != ""
    ensures p.feedback.Some? ==> p.feedback == feedback
  {
    SpecPrompt(request, specifications, if feedback.Some? && feedback.value != "" then feedback else None)
  }
}
