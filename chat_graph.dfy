/**
 * The `ChatBot` wrapper (backend/langgraph/graph.py): a conversation
 * history that grows by one user turn and one assistant turn per
 * successful call.  The graph call itself is not modelled: each call
 * receives its outcome, a reply or the text of the exception raised.
 */
module ChatGraph {
  import opened Text

  /** What the graph call did for one prompt. */
  datatype Outcome = Replied(response: string) | Failed(exception: string)

  /** One history entry, the dictionary with "role" and "content". */
  datatype Turn = Turn(role: string, content: string)

  const ErrorPrefix := "Error in ChatBot.invoke: "

  /** The history alternates user and assistant turns, starting with the user, and has whole exchanges. */
  predicate Alternating(history: seq<Turn>) {
    && |history| % 2 == 0
    && forall i :: 0 <= i < |history| ==> history[i].role == (if i % 2 == 0 then "user" else "assistant")
  }

  /** The history after one exchange. */
  function Exchange(history: seq<Turn>, prompt: string, response: string): (r: seq<Turn>)
    ensures Alternating(history) ==> Alternating(r)
    ensures |r| == |history| + 2 && r[..|history|] == history
  {
    history + [Turn("user", prompt), Turn("assistant", response)]
  }

  /** The text `invoke` returns for an outcome. */
  function Answer(outcome: Outcome): (r: string)
    ensures outcome.Replied? ==> r == outcome.response
    ensures outcome.Failed? ==> r == ErrorPrefix + outcome.exception
  {
    match outcome
    case Replied(response) => response
    case Failed(exception) => ErrorPrefix + exception
  }

  class ChatBot {
    var systemPrompt: Option<string>
    var history: seq<Turn>

    predicate Valid()
      reads this
    {
      Alternating(history)
    }

    constructor (systemPrompt: Option<string>)
      ensures this.systemPrompt == systemPrompt && history == []
      ensures Valid()
    {
      this.systemPrompt := systemPrompt;
      history := [];
    }

    /** `invoke`: on a reply, records the exchange and returns the reply; on a failure, only reports it. */
    method Invoke(prompt: string, outcome: Outcome) returns (answer: string)
      requires Valid()
      modifies this
      ensures Valid()
      ensures answer == Answer(outcome)
      ensures outcome.Replied? ==> history == Exchange(old(history), prompt, outcome.response)
      ensures outcome.Failed? ==> history == old(history)
      ensures systemPrompt == old(systemPrompt)
    {
      match outcome
      case Replied(response) =>
        history := history + [Turn("user", prompt)];
        history := history + [Turn("assistant", response)];
        answer := response;
      case Failed(exception) =>
        answer := ErrorPrefix + exception;
    }

    /** `chat`: the same as `invoke`. */
    method Chat(message: string, outcome: Outcome) returns (answer: string)
      requires Valid()
      modifies this
      ensures Valid()
      ensures answer == Answer(outcome)
      ensures outcome.Replied? ==> history == Exchange(old(history), message, outcome.response)
      ensures outcome.Failed? ==> history == old(history)
      ensures systemPrompt == old(systemPrompt)
    {
      answer := Invoke(message, outcome);
    }

    /**
     * `get_conversation_history`: a new list holding the turns.  The list is
     * not shared with the bot; the entries are values here, while the source
     * copies only the list and shares its entry dictionaries.
     */
    method GetConversationHistory() returns (copy: array<Turn>)
      ensures fresh(copy)
      ensures copy[..] == history
    {
      copy := new Turn[|history|](i requires 0 <= i < |history| reads this => history[i]);
    }

    /** `clear_history` */
    method ClearHistory()
      modifies this
      ensures history == [] && systemPrompt == old(systemPrompt)
      ensures Valid()
    {
      history := [];
    }

    /** `set_system_prompt`: only the prompt changes. */
    method SetSystemPrompt(prompt: string)
      modifies this
      ensures systemPrompt == Some(prompt) && history == old(history)
    {
      systemPrompt := Some(prompt);
    }
  }

  /** Replacing an entry of the list handed out leaves the bot's history as it was. */
  method CopyIsIndependent(bot: ChatBot, turn: Turn)
    requires bot.Valid() && |bot.history| > 0
    modifies bot
    ensures bot.history == old(bot.history)
  {
    var copy := bot.GetConversationHistory();
    copy[0] := turn;
  }

  /**
   * The replies of a conversation, in order, and the history they leave:
   * every successful outcome adds its exchange, failures add nothing.
   */
  function Conversation(history: seq<Turn>, prompts: seq<string>, outcomes: seq<Outcome>): (r: seq<Turn>)
    requires |prompts| == |outcomes|
    ensures Alternating(history) ==> Alternating(r)
    decreases |prompts|
  {
    if |prompts| == 0 then history
    else
      var n := |prompts| - 1;
      var before := Conversation(history, prompts[..n], outcomes[..n]);
      if outcomes[n].Replied? then Exchange(before, prompts[n], outcomes[n].response) else before
  }

  /** The number of successful outcomes. */
  function Replies(outcomes: seq<Outcome>): nat
    decreases |outcomes|
  {
    if |outcomes| == 0 then 0
    else Replies(outcomes[..|outcomes| - 1]) + (if outcomes[|outcomes| - 1].Replied? then 1 else 0)
  }

  /**
   * The history holds two turns per successful call and nothing for a
   * failed one, and what was there before stays at the front.
   */
  lemma {:induction false} ConversationLength(history: seq<Turn>, prompts: seq<string>, outcomes: seq<Outcome>)
    requires |prompts| == |outcomes|
    ensures |Conversation(history, prompts, outcomes)| == |history| + 2 * Replies(outcomes)
    ensures Conversation(history, prompts, outcomes)[..|history|] == history
    decreases |prompts|
  {
    if |prompts| > 0 {
      var n := |prompts| - 1;
      ConversationLength(history, prompts[..n], outcomes[..n]);
      var before := Conversation(history, prompts[..n], outcomes[..n]);
      if outcomes[n].Replied? {
        assert Exchange(before, prompts[n], outcomes[n].response)[..|history|] == before[..|history|];
      }
    }
  }
}
