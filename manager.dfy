/**
  The process-wide conversation dictionary of index.js and the message
  handler that updates it in place.
*/
module Manager {

  import opened Wrappers
  import opened Conversation

  class ConversationManager {

    /** The dictionary from user id to history, created at start-up and mutated by every message. */
    var conversationHistory: Store

    /** Start-up: the store is whatever the snapshot file yields, or empty. */
    constructor (snapshot: FileRead<Option<Store>>)
      ensures conversationHistory == LoadConversationHistory(snapshot)
    {
      conversationHistory := LoadConversationHistory(snapshot);
    }

    /**
      Handle one inbound message. `instructions` is what reading the
      instructions file gives at this moment; `outcome` is what the
      completion request and the save after it do. Returns the text handed
      back to the chat client and the `messages` array that was sent.
    */
    method ProcessMessage(text: string, userId: string,
                          instructions: FileRead<string>, outcome: Outcome)
      returns (reply: string, prompt: seq<Turn>)
      modifies this
      ensures var r := Step(old(conversationHistory), userId, text, instructions, outcome);
        conversationHistory == r.store && prompt == r.prompt && reply == r.reply
      ensures userId in conversationHistory
      ensures forall k :: k != userId ==>
        (k in conversationHistory <==> k in old(conversationHistory))
      ensures forall k :: k != userId && k in old(conversationHistory) ==>
        conversationHistory[k] == old(conversationHistory)[k]
      ensures |conversationHistory[userId]| <= MaxTurns + 1
    {
      ghost var before := conversationHistory;
      ghost var start := HistoryOf(before, userId);
      if userId !in conversationHistory {
        conversationHistory := conversationHistory[userId := []];
      }
      assert conversationHistory == before[userId := start];
      conversationHistory := conversationHistory[userId := conversationHistory[userId] + [Turn(User, text)]];
      if |conversationHistory[userId]| > MaxTurns {
        var h := conversationHistory[userId];
        conversationHistory := conversationHistory[userId := h[|h| - RetainTurns..]];
      }
      assert conversationHistory == before[userId := AppendUserTurn(start, text)];
      ghost var afterUser := conversationHistory;
      assert afterUser == UserStep(before, userId, text);
      prompt := [Turn(System, ReadInstructions(instructions))] + conversationHistory[userId];
      UnfoldStepPrompt(before, userId, text, instructions, outcome);
      match outcome {
        case GatewayFailure =>
          reply := Apology;
          UnfoldStepGatewayFailure(before, userId, text, instructions);
        case Success(r) =>
          conversationHistory := conversationHistory[userId := conversationHistory[userId] + [Turn(Assistant, r)]];
          reply := r;
          UnfoldStepSuccess(before, userId, text, instructions, r);
          assert conversationHistory == AppendAssistantTurn(afterUser, userId, r);
        case SaveFailure(r) =>
          conversationHistory := conversationHistory[userId := conversationHistory[userId] + [Turn(Assistant, r)]];
          reply := Apology;
          UnfoldStepSaveFailure(before, userId, text, instructions, r);
          assert conversationHistory == AppendAssistantTurn(afterUser, userId, r);
      }
    }
  }
}
