/**
 * The beauty-assistant chat: the user's messages are appended as they are
 * sent, and a canned bot reply follows after a delay.
 *
 * Message ids are meant to be the 1-based positions in the list (the list
 * renders with the id as its key). The reply as written takes its id from
 * the list captured when the message was sent, which breaks that as soon as
 * a second message is sent before the first reply arrives. `ReplyAsWritten`
 * is that reply and the chat class uses it, so the clash is reachable there
 * (`SendTwiceThenReply`); `Reply` is the reply with the intended id.
 */
module AiChatbot {
  import opened JsString

  datatype Sender = User | Bot

  /** A chat message; its timestamp is not modelled. */
  datatype Message = Message(id: int, content: string, sender: Sender)

  const Greeting := "Hi there! I'm your AI beauty assistant. How can I help you today?"

  const InitialMessages := [Message(1, Greeting, Bot)]

  /** The five canned replies the bot picks from. */
  const BotResponses := [
    "Based on your skin type, I'd recommend a gentle cleanser with hyaluronic acid.",
    "That's a great question! The 'glass skin' trend is all about achieving a dewy, reflective complexion.",
    "For your concern, try incorporating a vitamin C serum in your morning routine.",
    "The current Gen Z makeup trend is focused on minimal base with bold graphic liner.",
    "I'd recommend trying the 'slugging' technique with a petroleum-based balm at night."
  ]

  /** Every message's id is its 1-based position. */
  predicate IdsArePositions(messages: seq<Message>)
  {
    forall i :: 0 <= i < |messages| ==> messages[i].id == i + 1
  }

  predicate UniqueIds(messages: seq<Message>)
  {
    forall i, j :: 0 <= i < j < |messages| ==> messages[i].id != messages[j].id
  }

  lemma PositionsAreUnique(messages: seq<Message>)
    requires IdsArePositions(messages)
    ensures UniqueIds(messages)
  {
  }

  /**
   * The list after handleSend: input that trims to nothing sends nothing;
   * otherwise one user message carrying the untrimmed input is appended.
   */
  function Send(messages: seq<Message>, input: string): (r: seq<Message>)
    ensures Trim(input) == [] ==> r == messages
    ensures Trim(input) != [] ==>
      |r| == |messages| + 1 && r[..|messages|] == messages
      && r[|messages|] == Message(|messages| + 1, input, User)
  {
    if Trim(input) == [] then messages
    else messages + [Message(|messages| + 1, input, User)]
  }

  /** The reply as written: its id is `sentWith + 2`, from the list captured at send time. */
  function ReplyAsWritten(messages: seq<Message>, sentWith: nat, choice: nat): (r: seq<Message>)
    requires choice < |BotResponses|
    ensures |r| == |messages| + 1 && r[..|messages|] == messages
    ensures r[|messages|] == Message(sentWith + 2, BotResponses[choice], Bot)
  {
    messages + [Message(sentWith + 2, BotResponses[choice], Bot)]
  }

  /** The reply with the id taken from the list it is appended to. */
  function Reply(messages: seq<Message>, choice: nat): (r: seq<Message>)
    requires choice < |BotResponses|
    ensures |r| == |messages| + 1 && r[..|messages|] == messages
    ensures r[|messages|] == Message(|messages| + 1, BotResponses[choice], Bot)
  {
    messages + [Message(|messages| + 1, BotResponses[choice], Bot)]
  }

  lemma SendKeepsPositions(messages: seq<Message>, input: string)
    requires IdsArePositions(messages)
    ensures IdsArePositions(Send(messages, input))
  {
  }

  lemma ReplyKeepsPositions(messages: seq<Message>, choice: nat)
    requires IdsArePositions(messages) && choice < |BotResponses|
    ensures IdsArePositions(Reply(messages, choice))
  {
  }

  /** With one message in flight at a time, the reply as written is the right one. */
  lemma ReplyAsWrittenAlone(messages: seq<Message>, input: string, choice: nat)
    requires Trim(input) != [] && choice < |BotResponses|
    ensures ReplyAsWritten(Send(messages, input), |messages|, choice) == Reply(Send(messages, input), choice)
  {
  }

  /**
   * Two messages sent before the first reply arrives: the first reply gets
   * the id of the second user message.
   */
  lemma ReplyIdClash(first: string, second: string)
    requires Trim(first) != [] && Trim(second) != []
    ensures var afterFirst := Send(InitialMessages, first);
      var afterSecond := Send(afterFirst, second);
      var replied := ReplyAsWritten(afterSecond, |InitialMessages|, 0);
      replied[2].id == replied[3].id && !UniqueIds(replied)
  {
  }

  /**
   * What holds however replies and sends interleave: a user message's id is
   * its position, and no id is beyond its position.
   */
  predicate IdsWithinPositions(messages: seq<Message>)
  {
    forall i :: 0 <= i < |messages| ==>
      1 <= messages[i].id <= i + 1 && (messages[i].sender == User ==> messages[i].id == i + 1)
  }

  lemma SendKeepsWithin(messages: seq<Message>, input: string)
    requires IdsWithinPositions(messages)
    ensures IdsWithinPositions(Send(messages, input)) && |Send(messages, input)| >= |messages|
  {
  }

  lemma ReplyKeepsWithin(messages: seq<Message>, sentWith: nat, choice: nat)
    requires IdsWithinPositions(messages) && sentWith < |messages| && choice < |BotResponses|
    ensures IdsWithinPositions(ReplyAsWritten(messages, sentWith, choice))
  {
  }

  class AiChatbot {
    var messages: seq<Message>
    var input: string
    var isTyping: bool
    /**
     * The reply timers still to fire, oldest first, each with the list
     * length its send captured. All wait the same 1500 ms, so they fire in
     * the order they were started.
     */
    var pending: seq<nat>

    predicate Valid()
      reads this
    {
      IdsWithinPositions(messages) && forall k :: 0 <= k < |pending| ==> pending[k] < |messages|
    }

    constructor ()
      ensures Valid()
      ensures messages == InitialMessages && input == "" && !isTyping && pending == []
    {
      messages := InitialMessages;
      input := "";
      isTyping := false;
      pending := [];
    }

    /** The input box's onChange. */
    method SetInput(text: string)
      modifies this
      ensures input == text && messages == old(messages) && isTyping == old(isTyping)
      ensures pending == old(pending)
    {
      input := text;
    }

    /**
     * handleSend: blank input changes nothing; otherwise the message is
     * appended, the box is cleared, the bot starts typing and a reply timer
     * starts with the current list length; `sent` says whether it did.
     */
    method HandleSend() returns (sent: bool)
      requires Valid()
      modifies this
      ensures Valid()
      ensures sent <==> Trim(old(input)) != []
      ensures messages == Send(old(messages), old(input))
      ensures !sent ==> input == old(input) && isTyping == old(isTyping) && pending == old(pending)
      ensures sent ==> input == "" && isTyping && pending == old(pending) + [|old(messages)|]
    {
      var next := Send(messages, input);
      SendKeepsWithin(messages, input);
      if Trim(input) == [] {
        return false;
      }
      assert |next| == |messages| + 1;
      pending := pending + [|messages|];
      messages := next;
      input := "";
      isTyping := true;
      sent := true;
    }

    /**
     * The oldest reply timer firing with the randomly chosen canned reply
     * `choice`: the reply takes its id from the length that timer captured,
     * and typing stops even if other replies are still due.
     */
    method BotReplied(choice: nat)
      requires Valid() && pending != [] && choice < |BotResponses|
      modifies this
      ensures Valid()
      ensures messages == ReplyAsWritten(old(messages), old(pending)[0], choice)
      ensures pending == old(pending)[1..]
      ensures !isTyping && input == old(input)
    {
      ReplyKeepsWithin(messages, pending[0], choice);
      messages := ReplyAsWritten(messages, pending[0], choice);
      pending := pending[1..];
      isTyping := false;
    }
  }

  /**
   * Two messages sent before the first reply arrives: the first reply
   * repeats the id of the second message, so two list keys clash.
   */
  method SendTwiceThenReply(chat: AiChatbot, first: string, second: string, choice: nat)
    requires chat.Valid() && chat.messages == InitialMessages && chat.pending == []
    requires Trim(first) != [] && Trim(second) != [] && choice < |BotResponses|
    modifies chat
    ensures |chat.messages| == 4 && chat.messages[2].id == 3 && chat.messages[3].id == 3
    ensures chat.messages[2].sender == User && chat.messages[3].sender == Bot
    ensures !UniqueIds(chat.messages) && chat.pending == [2]
  {
    chat.SetInput(first);
    var sentFirst := chat.HandleSend();
    chat.SetInput(second);
    var sentSecond := chat.HandleSend();
    chat.BotReplied(choice);
  }
}
