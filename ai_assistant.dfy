/**
 * The chat widget (frontend/src/components/AIAssistant/AIAssistant.tsx):
 * a transcript that opens with three assistant messages, an input box, and
 * a send action that appends the user's text and, one second later, a
 * placeholder reply. The clock that makes message ids and the timer that
 * delivers replies are outside the model: ids are parameters, and each
 * scheduled reply is counted in `pendingReplies` until `ReplyArrives` runs.
 */
module AIAssistant {
  import opened Text

  datatype Role = Assistant | User

  /** A transcript entry; the display timestamp is left out. */
  datatype Message = Message(id: string, role: Role, content: string)

  const Welcome := "Hi there! I'm your Foodie AI assistant. I can help you with menu information, recommendations, order status, and more. What can I do for you today?"
  const Examples := "For example, you can ask me about today's specials, gluten-free options, or even ask for a recommendation under a certain price. I can also help you add items to your cart or check the status of your order."
  const Handoff := "If you need to speak to a human, just let me know, and I'll connect you."
  const PlaceholderReply := "I'm processing your request. This feature will be connected to the AI backend in the next sprint!"

  /** The transcript's initial state (lines 17-36). */
  const InitialMessages: seq<Message> := [
    Message("1", Assistant, Welcome),
    Message("2", Assistant, Examples),
    Message("3", Assistant, Handoff)
  ]

  /** The input is empty or whitespace only: exactly when `inputValue.trim()` is the falsy empty string. */
  predicate IsBlank(input: string)
    ensures IsBlank(input) <==> Strip(input) == []
  {
    StripEmptyIffBlank(input);
    forall i | 0 <= i < |input| :: IsSpace(input[i])
  }

  /** How many messages of the transcript have the given role. */
  function CountRole(msgs: seq<Message>, role: Role): (n: nat)
    ensures n <= |msgs|
  {
    if msgs == [] then 0
    else CountRole(msgs[..|msgs| - 1], role) + (if msgs[|msgs| - 1].role == role then 1 else 0)
  }

  lemma CountRoleSnoc(msgs: seq<Message>, m: Message, role: Role)
    ensures CountRole(msgs + [m], role) == CountRole(msgs, role) + (if m.role == role then 1 else 0)
  {
    assert (msgs + [m])[..|msgs|] == msgs;
  }

  /** The opening transcript holds three assistant messages and no user message. */
  lemma {:induction false} InitialCounts()
    ensures CountRole(InitialMessages, User) == 0
    ensures CountRole(InitialMessages, Assistant) == |InitialMessages|
  {
    var m1, m2, m3 := InitialMessages[0], InitialMessages[1], InitialMessages[2];
    assert [m1] == [] + [m1];
    assert [m1, m2] == [m1] + [m2];
    assert InitialMessages == [m1, m2] + [m3];
    CountRoleSnoc([], m1, User);
    CountRoleSnoc([], m1, Assistant);
    CountRoleSnoc([m1], m2, User);
    CountRoleSnoc([m1], m2, Assistant);
    CountRoleSnoc([m1, m2], m3, User);
    CountRoleSnoc([m1, m2], m3, Assistant);
  }

  /**
   * The transcript invariant: the transcript extends the initial three
   * messages, and every accepted user message is answered by exactly one
   * reply, delivered or pending.
   */
  ghost predicate Balanced(msgs: seq<Message>, pending: nat)
  {
    InitialMessages <= msgs &&
    CountRole(msgs, User) + |InitialMessages| == CountRole(msgs, Assistant) + pending
  }

  /** Appending a user message and scheduling its reply keeps the balance. */
  lemma SendKeepsBalance(msgs: seq<Message>, pending: nat, id: string, text: string)
    requires Balanced(msgs, pending)
    ensures Balanced(msgs + [Message(id, User, text)], pending + 1)
  {
    CountRoleSnoc(msgs, Message(id, User, text), User);
    CountRoleSnoc(msgs, Message(id, User, text), Assistant);
    assert (msgs + [Message(id, User, text)])[..|InitialMessages|] == msgs[..|InitialMessages|];
  }

  /** Delivering a scheduled reply keeps the balance. */
  lemma ReplyKeepsBalance(msgs: seq<Message>, pending: nat, id: string)
    requires pending > 0 && Balanced(msgs, pending)
    ensures Balanced(msgs + [Message(id, Assistant, PlaceholderReply)], pending - 1)
  {
    CountRoleSnoc(msgs, Message(id, Assistant, PlaceholderReply), User);
    CountRoleSnoc(msgs, Message(id, Assistant, PlaceholderReply), Assistant);
    assert (msgs + [Message(id, Assistant, PlaceholderReply)])[..|InitialMessages|] == msgs[..|InitialMessages|];
  }

  class ChatWidget {
    var messages: seq<Message>
    var inputValue: string
    /** Replies scheduled with `setTimeout` and not yet appended. */
    var pendingReplies: nat

    /** The transcript only grows from its initial messages, and replies balance user messages. */
    ghost predicate Valid()
      reads this
    {
      Balanced(messages, pendingReplies)
    }

    /** The widget as first rendered. */
    constructor ()
      ensures messages == InitialMessages && inputValue == "" && pendingReplies == 0
      ensures Valid()
    {
      messages := InitialMessages;
      InitialCounts();
      inputValue := "";
      pendingReplies := 0;
    }

    /** The input's `onChange` (line 155). */
    method ChangeInput(value: string)
      modifies this
      ensures inputValue == value && messages == old(messages) && pendingReplies == old(pendingReplies)
      ensures old(Valid()) ==> Valid()
    {
      inputValue := value;
    }

    /**
     * `handleSendMessage` (lines 46-69): a blank input does nothing; otherwise
     * the text, untrimmed, is appended as a user message, the input is
     * cleared and one reply is scheduled.
     */
    method HandleSendMessage(id: string)
      modifies this
      ensures IsBlank(old(inputValue)) ==>
        messages == old(messages) && inputValue == old(inputValue) && pendingReplies == old(pendingReplies)
      ensures !IsBlank(old(inputValue)) ==>
        messages == old(messages) + [Message(id, User, old(inputValue))] &&
        inputValue == "" && pendingReplies == old(pendingReplies) + 1
      ensures old(Valid()) ==> Valid()
    {
      if !IsBlank(inputValue) {
        if Valid() {
          SendKeepsBalance(messages, pendingReplies, id, inputValue);
        }
        messages := messages + [Message(id, User, inputValue)];
        inputValue := "";
        pendingReplies := pendingReplies + 1;
      }
    }

    /** The `setTimeout` callback (lines 59-67): the placeholder reply is appended. */
    method ReplyArrives(id: string)
      requires pendingReplies > 0
      modifies this
      ensures messages == old(messages) + [Message(id, Assistant, PlaceholderReply)]
      ensures pendingReplies == old(pendingReplies) - 1 && inputValue == old(inputValue)
      ensures old(Valid()) ==> Valid()
    {
      if Valid() {
        ReplyKeepsBalance(messages, pendingReplies, id);
      }
      messages := messages + [Message(id, Assistant, PlaceholderReply)];
      pendingReplies := pendingReplies - 1;
    }

    /** `handleKeyPress` (lines 71-76): Enter without Shift sends and suppresses the newline. */
    method HandleKeyPress(key: string, shiftKey: bool, id: string) returns (prevented: bool)
      modifies this
      ensures prevented <==> key == "Enter" && !shiftKey
      ensures !prevented ==>
        messages == old(messages) && inputValue == old(inputValue) && pendingReplies == old(pendingReplies)
      ensures prevented && IsBlank(old(inputValue)) ==>
        messages == old(messages) && inputValue == old(inputValue) && pendingReplies == old(pendingReplies)
      ensures prevented && !IsBlank(old(inputValue)) ==>
        messages == old(messages) + [Message(id, User, old(inputValue))] &&
        inputValue == "" && pendingReplies == old(pendingReplies) + 1
      ensures old(Valid()) ==> Valid()
    {
      prevented := key == "Enter" && !shiftKey;
      if prevented {
        HandleSendMessage(id);
      }
    }
  }
}
