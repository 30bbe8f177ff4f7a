/**
 * The console driver of main.py: the keys carried from one turn to the
 * next, the payload of each invocation, the history replies appended
 * after it, and the per-line loop that threads the carried state and the
 * history through the conversation.
 */
module Driver {
  import opened Wrappers
  import opened JsonValue
  import opened Prompts
  import opened Text
  import opened StateModel
  import opened Nodes
  import opened Graph
  import opened Engine

  /** `STATE_KEYS`: the keys a turn hands on to the next. */
  const StateKeys: seq<Key> := [Specifications, Story, Key.JudgeEvaluation, JudgeFeedback]

  /** The commands that end the conversation, compared after lower-casing. */
  const ExitWords: set<string> := {"exit", "quit"}

  const UserRole: string := "user"
  const AssistantRole: string := "assistant"
  const JudgePrefix: string := "Judge feedback: "

  /** The carried state holds no key other than those of `STATE_KEYS`. */
  predicate OnlyStateKeys(carry: State)
  {
    forall k :: k !in StateKeys ==> !Present(carry, k)
  }

  /**
   * `build_payload`: the message, the history, and each `STATE_KEYS` key
   * the carried state has, with its value, and nothing else.
   */
  function Payload(message: string, history: seq<Turn>, carry: State): (p: State)
    ensures p.message == Some(message) && p.history == Some(history)
    ensures forall k :: k in StateKeys ==> Agree(p, carry, k)
    ensures forall k :: k !in StateKeys && k != Message && k != History ==> !Present(p, k)
  {
    Empty.(message := Some(message), history := Some(history),
           specifications := carry.specifications, story := carry.story,
           judgeEvaluation := carry.judgeEvaluation, judgeFeedback := carry.judgeFeedback)
  }

  /** `build_payload` as written: a dictionary filled key by key. */
  method BuildPayload(message: string, history: seq<Turn>, carry: State) returns (payload: State)
    ensures payload == Payload(message, history, carry)
  {
    payload := Empty.(message := Some(message), history := Some(history));
    for i := 0 to |StateKeys|
      invariant payload.message == Some(message) && payload.history == Some(history)
      invariant forall k :: k in StateKeys[..i] ==> Agree(payload, carry, k)
      invariant forall k :: k !in StateKeys[..i] && k != Message && k != History ==> !Present(payload, k)
    {
      var key := StateKeys[i];
      if Present(carry, key) {
        payload := CopyKey(payload, carry, key);
      }
      assert StateKeys[..i + 1] == StateKeys[..i] + [key];
    }
    assert StateKeys[..|StateKeys|] == StateKeys;
    var p := Payload(message, history, carry);
    forall k ensures Agree(payload, p, k) {
      if k !in StateKeys && k != Message && k != History {
        assert !Present(payload, k) && !Present(p, k);
      }
    }
    AgreeEverywhere(payload, p);
  }

  /**
   * `update_carry`: each `STATE_KEYS` key the final state holds overwrites
   * the carried value; every other carried entry stays as it was.
   */
  function Carried(carry: State, state: State): (c: State)
    ensures forall k :: k in StateKeys && Present(state, k) ==> Agree(c, state, k)
    ensures forall k :: !(k in StateKeys && Present(state, k)) ==> Agree(c, carry, k)
  {
    carry.(specifications := Override(carry.specifications, state.specifications),
           story := Override(carry.story, state.story),
           judgeEvaluation := Override(carry.judgeEvaluation, state.judgeEvaluation),
           judgeFeedback := Override(carry.judgeFeedback, state.judgeFeedback))
  }

  /** What the next payload holds of a turn's final state: every `STATE_KEYS` value it had. */
  lemma CarryReachesNextPayload(carry: State, state: State, message: string, history: seq<Turn>)
    ensures forall k :: k in StateKeys && Present(state, k) ==>
      Agree(Payload(message, history, Carried(carry, state)), state, k)
    ensures forall k :: k in StateKeys && !Present(state, k) ==>
      Agree(Payload(message, history, Carried(carry, state)), carry, k)
  {
    var c := Carried(carry, state);
    var p := Payload(message, history, c);
    forall k | k in StateKeys
      ensures Present(state, k) ==> Agree(p, state, k)
      ensures !Present(state, k) ==> Agree(p, carry, k)
    {
      assert Agree(p, c, k);
      match k
      case Specifications =>
      case Story =>
      case JudgeEvaluation =>
      case JudgeFeedback =>
    }
  }

  /** Carrying a state over never adds a key outside `STATE_KEYS`. */
  lemma CarriedKeepsKeys(carry: State, state: State)
    requires OnlyStateKeys(carry)
    ensures OnlyStateKeys(Carried(carry, state))
  {
    forall k | k !in StateKeys ensures !Present(Carried(carry, state), k) {
      assert Agree(Carried(carry, state), carry, k);
      match k
      case Message =>
      case Intent =>
      case Feedback =>
      case GeneralResponse =>
      case History =>
    }
  }

  /** `handle_general_response`: the reply, as one assistant turn, when it is not empty. */
  function GeneralReplies(state: State): (r: seq<Turn>)
    ensures |r| <= 1
    ensures r == [] <==> state.generalResponse.GetOr("") == ""
    ensures r != [] ==> r[0] == Turn(AssistantRole, state.generalResponse.value)
  {
    var response := state.generalResponse.GetOr("");
    if response != "" then [Turn(AssistantRole, response)] else []
  }

  /**
   * `handle_story_response`: the story when it is not empty, then the
   * judge's feedback, prefixed, when it is not empty, as assistant turns.
   */
  function StoryReplies(state: State): (r: seq<Turn>)
    ensures |r| == (if state.story.GetOr("") != "" then 1 else 0) + (if state.judgeFeedback.GetOr("") != "" then 1 else 0)
    ensures forall i :: 0 <= i < |r| ==> r[i].role == AssistantRole
    ensures state.story.GetOr("") != "" ==> r[0].content == state.story.value
    ensures state.judgeFeedback.GetOr("") != "" ==>
      r[|r| - 1].content == JudgePrefix + state.judgeFeedback.value
  {
    var story := state.story.GetOr("");
    var feedback := state.judgeFeedback.GetOr("");
    (if story != "" then [Turn(AssistantRole, story)] else [])
      + (if feedback != "" then [Turn(AssistantRole, JudgePrefix + feedback)] else [])
  }

  /** The dispatch on the final intent: "general" to the general handler, anything else, absent included, to the story handler. */
  function Replies(state: State): (r: seq<Turn>)
    ensures state.intent == Some("general") ==> r == GeneralReplies(state)
    ensures state.intent != Some("general") ==> r == StoryReplies(state)
    ensures |r| <= 2
  {
    if state.intent == Some("general") then GeneralReplies(state) else StoryReplies(state)
  }

  /** What the loop keeps from one line to the next. */
  datatype Conversation = Conversation(carry: State, history: seq<Turn>)

  /** What became of one input line. */
  datatype LineOutcome =
    | Skipped
    | Quit
    | Answered
    | Crashed(status: Status)  // the graph raised, which ends the program

  /**
   * One pass of the `while True` loop of `main` on an input line: blank
   * lines are skipped, an exit command ends the loop, and anything else is
   * appended as a user turn, sent through the graph, answered and carried.
   */
  function LineStep(c: Conversation, line: string, h: Handlers, fuel: nat): (r: (LineOutcome, Conversation))
    ensures r.0 == Skipped <==> Strip(line) == []
    ensures r.0 == Quit <==> Strip(line) != [] && Lower(Strip(line)) in ExitWords
    ensures r.0 == Skipped || r.0 == Quit ==> r.1 == c
    ensures r.0 == Answered || r.0.Crashed? ==>
      |r.1.history| > |c.history| && r.1.history[|c.history|] == Turn(UserRole, Strip(line))
    ensures r.0.Crashed? ==> r.1.carry == c.carry && r.1.history == c.history + [Turn(UserRole, Strip(line))]
    ensures |c.history| <= |r.1.history| <= |c.history| + 3 && r.1.history[..|c.history|] == c.history
    ensures var asked := c.history + [Turn(UserRole, Strip(line))];
      var e := Run(StoryGraph(), h, IntentNode, Payload(Strip(line), asked, c.carry), 0, fuel);
      && (r.0 == Answered ==> e.status == Done && r.1 == Conversation(Carried(c.carry, e.state), asked + Replies(e.state)))
      && (r.0.Crashed? ==> e.status != Done && r.0.status == e.status)
  {
    var message := Strip(line);
    if message == [] then (Skipped, c)
    else if Lower(message) in ExitWords then (Quit, c)
    else
      var asked := c.history + [Turn(UserRole, message)];
      var e := Run(StoryGraph(), h, IntentNode, Payload(message, asked, c.carry), 0, fuel);
      if e.status != Done then (Crashed(e.status), c.(history := asked))
      else (Answered, Conversation(Carried(c.carry, e.state), asked + Replies(e.state)))
  }

  /** A conversation over the lines read, until an exit command, a crash, or the end of input. */
  function Converse(c: Conversation, lines: seq<string>, h: Handlers, fuel: nat): (r: Conversation)
    ensures |c.history| <= |r.history| && r.history[..|c.history|] == c.history
    ensures OnlyStateKeys(c.carry) ==> OnlyStateKeys(r.carry)
    decreases |lines|
  {
    if lines == [] then c
    else
      var step := LineStep(c, lines[0], h, fuel);
      CarryStaysWithinKeys(c, lines[0], h, fuel);
      if step.0 == Quit || step.0.Crashed? then step.1
      else
        var r := Converse(step.1, lines[1..], h, fuel);
        assert r.history[..|c.history|] == r.history[..|step.1.history|][..|c.history|];
        r
  }

  /** One line never puts a key outside `STATE_KEYS` into the carried state. */
  lemma CarryStaysWithinKeys(c: Conversation, line: string, h: Handlers, fuel: nat)
    ensures OnlyStateKeys(c.carry) ==> OnlyStateKeys(LineStep(c, line, h, fuel).1.carry)
  {
    var message := Strip(line);
    if OnlyStateKeys(c.carry) && message != [] && Lower(message) !in ExitWords {
      var asked := c.history + [Turn(UserRole, message)];
      var e := Run(StoryGraph(), h, IntentNode, Payload(message, asked, c.carry), 0, fuel);
      CarriedKeepsKeys(c.carry, e.state);
    }
  }

  /**
   * Exit commands are recognised in any mix of letter case and with any
   * surrounding whitespace: such a line quits and changes nothing.
   */
  lemma ExitInAnyCase(c: Conversation, pre: string, word: string, post: string, h: Handlers, fuel: nat)
    requires forall k :: 0 <= k < |pre| ==> IsSpace(pre[k])
    requires forall k :: 0 <= k < |post| ==> IsSpace(post[k])
    requires Lower(word) in ExitWords
    ensures LineStep(c, pre + word + post, h, fuel) == (Quit, c)
  {
    var line := pre + word + post;
    var lo, hi := |pre|, |pre| + |word|;
    assert |word| == 4;
    assert LowerChar(word[0]) == Lower(word)[0] && LowerChar(word[3]) == Lower(word)[3];
    assert line[lo] == word[0] && line[hi - 1] == word[3];
    forall k | 0 <= k < lo ensures IsSpace(line[k]) {
      assert line[k] == pre[k];
    }
    forall k | hi <= k < |line| ensures IsSpace(line[k]) {
      assert line[k] == post[k - hi];
    }
    StripExactly(line, lo, hi);
    assert line[lo..hi] == word;
  }

  /** A line of whitespace only, of any length, is skipped. */
  lemma BlankLineSkipped(c: Conversation, line: string, h: Handlers, fuel: nat)
    requires forall k :: 0 <= k < |line| ==> IsSpace(line[k])
    ensures LineStep(c, line, h, fuel).0 == Skipped
  {
    assert LeadingSpace(line) == |line|;
  }

  /**
   * A new story request on a later turn revises the carried specification
   * rather than starting afresh: the intent router sends it to spec, whose
   * prompt quotes the carried specification as the current one, with no
   * pending feedback (`feedback` is not a carried key).
   */
  lemma StoryTurnRevisesCarriedSpec(message: string, history: seq<Turn>, carry: State, classify: ClassifyPrompt -> Option<Json>)
    requires carry.specifications.Some?
    requires var p := Payload(message, history, carry);
      IntentResult(p, classify).Success? && IntentResult(p, classify).value.intent == Some("story")
    ensures var p := Payload(message, history, carry);
      var merged := Merge(p, IntentResult(p, classify).value);
      && Next(StoryGraph(), IntentNode, merged) == Success(To(SpecNode))
      && PromptBuildSpec(message, merged.specifications, merged.feedback).prior == carry.specifications
      && PromptBuildSpec(message, merged.specifications, merged.feedback).feedback.None?
  {
    var p := Payload(message, history, carry);
    var u := IntentResult(p, classify).value;
    assert Agree(p, carry, Specifications) && !Present(p, Feedback);
    MergeOverwrites(p, u, Specifications);
    MergeOverwrites(p, u, Feedback);
  }

  /**
   * A general turn of the story graph answers, appends the user turn and
   * at most one reply, and hands the carried state on unchanged.
   */
  lemma GeneralTurnKeepsCarry(c: Conversation, line: string, o: Oracle, fuel: nat)
    requires Strip(line) != [] && Lower(Strip(line)) !in ExitWords && fuel >= 2
    requires var payload := Payload(Strip(line), c.history + [Turn(UserRole, Strip(line))], c.carry);
      IntentResult(payload, o.classify).Success? && IntentResult(payload, o.classify).value.intent == Some("general")
    ensures LineStep(c, line, StoryHandlers(o), fuel).0 == Answered
    ensures LineStep(c, line, StoryHandlers(o), fuel).1.carry == c.carry
    ensures |LineStep(c, line, StoryHandlers(o), fuel).1.history| <= |c.history| + 2
  {
    var message := Strip(line);
    var asked := c.history + [Turn(UserRole, message)];
    var payload := Payload(message, asked, c.carry);
    var e := Run(StoryGraph(), StoryHandlers(o), IntentNode, payload, 0, fuel);
    GeneralRun(payload, o, fuel);
    CarryUnchangedByGeneral(c.carry, e.state, message, asked);
  }

  /** A final state that differs from the payload only in intent and response hands the carry on unchanged. */
  lemma CarryUnchangedByGeneral(carry: State, state: State, message: string, history: seq<Turn>)
    requires forall k :: k != Intent && k != GeneralResponse ==> Agree(state, Payload(message, history, carry), k)
    ensures Carried(carry, state) == carry
  {
    var payload := Payload(message, history, carry);
    var carried := Carried(carry, state);
    forall k ensures Agree(carried, carry, k) {
      if k in StateKeys && Present(state, k) {
        assert Agree(carried, state, k) && Agree(state, payload, k) && Agree(payload, carry, k);
        match k
        case Specifications =>
        case Story =>
        case JudgeEvaluation =>
        case JudgeFeedback =>
      }
    }
    AgreeEverywhere(carried, carry);
  }

  /**
   * A story answer is always an approved story: when the final intent is
   * not "general", the story replies are appended and the verdict handed
   * on to the next turn is an approval.
   */
  lemma StoryAnswerApproved(c: Conversation, line: string, h: Handlers, fuel: nat)
    requires WellBehaved(h)
    requires Strip(line) != [] && Lower(Strip(line)) !in ExitWords
    requires var asked := c.history + [Turn(UserRole, Strip(line))];
      var e := Run(StoryGraph(), h, IntentNode, Payload(Strip(line), asked, c.carry), 0, fuel);
      e.status == Done && e.state.intent != Some("general")
    ensures var asked := c.history + [Turn(UserRole, Strip(line))];
      var e := Run(StoryGraph(), h, IntentNode, Payload(Strip(line), asked, c.carry), 0, fuel);
      && LineStep(c, line, h, fuel).0 == Answered
      && LineStep(c, line, h, fuel).1.history == asked + StoryReplies(e.state)
      && LineStep(c, line, h, fuel).1.carry.judgeEvaluation == Some(true)
  {
    var asked := c.history + [Turn(UserRole, Strip(line))];
    var payload := Payload(Strip(line), asked, c.carry);
    DispatchMatchesRoute(h, payload, fuel);
    FinishedStoryRun(h, payload, fuel);
  }

  /**
   * The console session of `main`: the graph built once, the carried
   * state and the history list, both updated in place turn after turn.
   */
  class Session {
    const graph: CompiledGraph
    var carry: State
    var history: seq<Turn>

    constructor ()
      ensures graph == StoryGraph() && carry == Empty && history == []
    {
      var g := BuildGraph();
      graph := g;
      carry := Empty;
      history := [];
    }

    /** `update_carry`, key by key. */
    method UpdateCarry(state: State)
      modifies this`carry
      ensures carry == Carried(old(carry), state)
    {
      ghost var before := carry;
      for i := 0 to |StateKeys|
        invariant forall k :: k in StateKeys[..i] && Present(state, k) ==> Agree(carry, state, k)
        invariant forall k :: !(k in StateKeys[..i] && Present(state, k)) ==> Agree(carry, before, k)
      {
        var key := StateKeys[i];
        carry := CopyKey(carry, state, key);
        assert StateKeys[..i + 1] == StateKeys[..i] + [key];
      }
      assert StateKeys[..|StateKeys|] == StateKeys;
      var target := Carried(before, state);
      forall k ensures Agree(carry, target, k) {
        if k in StateKeys && Present(state, k) {
          assert Agree(carry, state, k) && Agree(target, state, k);
        } else {
          assert Agree(carry, before, k) && Agree(target, before, k);
        }
        match k
        case Message =>
        case Intent =>
        case Story =>
        case Specifications =>
        case Feedback =>
        case JudgeEvaluation =>
        case JudgeFeedback =>
        case GeneralResponse =>
        case History =>
      }
      AgreeEverywhere(carry, target);
    }

    /** `handle_general_response`: append the reply when there is one. */
    method HandleGeneral(state: State)
      modifies this`history
      ensures history == old(history) + GeneralReplies(state)
    {
      var response := state.generalResponse.GetOr("");
      if response != "" {
        history := history + [Turn(AssistantRole, response)];
      }
    }

    /** `handle_story_response`: append the story, then the judge's feedback, each when not empty. */
    method HandleStory(state: State)
      modifies this`history
      ensures history == old(history) + StoryReplies(state)
    {
      var story := state.story.GetOr("");
      var feedback := state.judgeFeedback.GetOr("");
      if story != "" {
        history := history + [Turn(AssistantRole, story)];
      }
      if feedback != "" {
        history := history + [Turn(AssistantRole, JudgePrefix + feedback)];
      }
    }

    /** One pass of the loop of `main` on the line read. */
    method HandleLine(line: string, h: Handlers, fuel: nat) returns (outcome: LineOutcome)
      requires graph == StoryGraph()
      modifies this
      ensures (outcome, Conversation(carry, history)) == LineStep(old(Conversation(carry, history)), line, h, fuel)
    {
      var message := Strip(line);
      if message == [] {
        return Skipped;
      }
      if Lower(message) in ExitWords {
        return Quit;
      }
      history := history + [Turn(UserRole, message)];
      var payload := BuildPayload(message, history, carry);
      var e := Invoke(graph, payload, h, fuel);
      if e.status != Done {
        return Crashed(e.status);
      }
      if e.state.intent == Some("general") {
        HandleGeneral(e.state);
      } else {
        HandleStory(e.state);
      }
      UpdateCarry(e.state);
      return Answered;
    }

    /** `main`'s loop over the lines read, until an exit command, a crash, or the end of input. */
    method Chat(lines: seq<string>, h: Handlers, fuel: nat)
      requires graph == StoryGraph()
      modifies this
      ensures Conversation(carry, history) == Converse(old(Conversation(carry, history)), lines, h, fuel)
    {
      var i := 0;
      while i < |lines|
        invariant i <= |lines|
        invariant Converse(old(Conversation(carry, history)), lines, h, fuel) ==
                  Converse(Conversation(carry, history), lines[i..], h, fuel)
        decreases |lines| - i
      {
        assert lines[i..][0] == lines[i] && lines[i..][1..] == lines[i + 1..];
        var outcome := HandleLine(lines[i], h, fuel);
        if outcome == Quit || outcome.Crashed? {
          return;
        }
        i := i + 1;
      }
    }
  }
}
