/**
  The conversation state of the chat relay bot (index.js): turns, per-user
  histories, the two file fallbacks and one message's effect on the store,
  written as pure functions. The class in manager.dfy performs the same
  update in place and is proved equal to `Step`.
*/
module Conversation {

  import opened Wrappers

  /** The `role` field of a chat-completion message. */
  datatype Role = System | User | Assistant

  /** One `{ role, content }` entry of a history or a prompt. */
  datatype Turn = Turn(role: Role, content: string)

  type History = seq<Turn>

  /** The module-level dictionary from user id to that user's history. */
  type Store = map<string, History>

  /** A history longer than this is truncated right after the user turn is pushed. */
  const MaxTurns: nat := 20

  /** How many of the most recent turns a truncation keeps (`slice(-10)`). */
  const RetainTurns: nat := 10

  const FallbackInstructions: string :=
    "Você é um assistente útil que responde de forma natural e amigável."

  const Apology: string :=
    "Desculpe, estou tendo dificuldades para responder no momento."

  /**
    What reading a file gives: it does not exist (`existsSync` is false),
    reading it throws, or it is read.
  */
  datatype FileRead<T> = Missing | ReadError | Contents(value: T)

  /**
    The completion request and the save that follows it, as seen by the
    handler: the gateway answered and the store was written; the request
    failed (network, status, or no `choices[0]`); or the gateway answered
    but writing the store threw.
  */
  datatype Outcome = Success(reply: string) | GatewayFailure | SaveFailure(reply: string)

  /** The store after a message, the prompt that was sent, and the text handed back. */
  datatype StepResult = StepResult(store: Store, prompt: seq<Turn>, reply: string)

  predicate IsSuffix<T(==)>(a: seq<T>, b: seq<T>)
  {
    |a| <= |b| && a == b[|b| - |a|..]
  }

  /** The instructions file's text, or the fixed fallback when it is absent or unreadable. */
  function ReadInstructions(file: FileRead<string>): (r: string)
    ensures file.Contents? ==> r == file.value
    ensures !file.Contents? ==> r == FallbackInstructions
    ensures r == FallbackInstructions || file == Contents(r)
  {
    match file
    case Contents(text) => text
    case _ => FallbackInstructions
  }

  /**
    The store at start-up: the parsed snapshot when the file exists, is read
    and parses; the empty store otherwise. `None` stands for a parse that threw.
  */
  function LoadConversationHistory(file: FileRead<Option<Store>>): (r: Store)
    ensures file.Contents? && file.value.Some? ==> r == file.value.value
    ensures !(file.Contents? && file.value.Some?) ==> r == map[]
    ensures r == map[] || file == Contents(Some(r))
  {
    match file
    case Contents(Some(parsed)) => parsed
    case _ => map[]
  }

  /**
    Push the user turn onto one history, then cut it down to the last
    `RetainTurns` turns if it has grown past `MaxTurns`.
  */
  function AppendUserTurn(h: History, text: string): (r: History)
    ensures |r| > 0 && r[|r| - 1] == Turn(User, text)
    ensures IsSuffix(r, h + [Turn(User, text)])
    ensures |h| < MaxTurns ==> r == h + [Turn(User, text)]
    ensures |h| >= MaxTurns ==> |r| == RetainTurns
    ensures r == h + [Turn(User, text)] <==> |h| < MaxTurns
    ensures |r| <= MaxTurns
  {
    var pushed := h + [Turn(User, text)];
    if |pushed| > MaxTurns then pushed[|pushed| - RetainTurns..] else pushed
  }

  /** The history a user has: the stored one, or the empty list a first message starts from. */
  function HistoryOf(store: Store, userId: string): (h: History)
    ensures userId in store ==> h == store[userId]
    ensures userId !in store ==> h == []
  {
    if userId in store then store[userId] else []
  }

  /** The store after the user turn is recorded: lazy creation, push, truncation. */
  function UserStep(store: Store, userId: string, text: string): (s: Store)
    ensures s.Keys == store.Keys + {userId}
    ensures s[userId] == AppendUserTurn(HistoryOf(store, userId), text)
    ensures userId !in store ==> s[userId] == [Turn(User, text)]
    ensures forall k {:trigger s[k]} :: k in store && k != userId ==> s[k] == store[k]
  {
    store[userId := AppendUserTurn(HistoryOf(store, userId), text)]
  }

  /** The `messages` array of the completion request: the system turn, then the history. */
  function BuildPrompt(instructions: string, h: History): (p: seq<Turn>)
    ensures |p| == |h| + 1
    ensures p[0] == Turn(System, instructions)
    ensures p[1..] == h
  {
    [Turn(System, instructions)] + h
  }

  /** The store with the assistant's reply pushed onto one existing history, without truncation. */
  function AppendAssistantTurn(store: Store, userId: string, reply: string): (s: Store)
    requires userId in store
    ensures s.Keys == store.Keys
    ensures |s[userId]| == |store[userId]| + 1
    ensures s[userId][..|store[userId]|] == store[userId]
    ensures s[userId][|store[userId]|] == Turn(Assistant, reply)
    ensures forall k {:trigger s[k]} :: k in store && k != userId ==> s[k] == store[k]
  {
    store[userId := store[userId] + [Turn(Assistant, reply)]]
  }

  /**
    Everything one call of the message handler does, for a given outcome of
    the request: only the sender's history changes, the prompt ends with the
    new user turn, and the reply is handed back only on full success.
  */
  function Step(store: Store, userId: string, text: string,
                instructions: FileRead<string>, outcome: Outcome): (r: StepResult)
    ensures r.store.Keys == store.Keys + {userId}
    ensures forall k {:trigger r.store[k]} :: k in store && k != userId ==> r.store[k] == store[k]
    ensures |r.store[userId]| <= MaxTurns + 1
    ensures 2 <= |r.prompt| <= MaxTurns + 1
    ensures r.prompt[0] == Turn(System, ReadInstructions(instructions))
    ensures r.prompt[|r.prompt| - 1] == Turn(User, text)
    ensures outcome.Success? ==> r.reply == outcome.reply
    ensures !outcome.Success? ==> r.reply == Apology
  {
    var afterUser := UserStep(store, userId, text);
    var prompt := BuildPrompt(ReadInstructions(instructions), afterUser[userId]);
    match outcome
    case Success(reply) =>
      StepResult(AppendAssistantTurn(afterUser, userId, reply), prompt, reply)
    case GatewayFailure =>
      StepResult(afterUser, prompt, Apology)
    case SaveFailure(reply) =>
      StepResult(AppendAssistantTurn(afterUser, userId, reply), prompt, Apology)
  }

  // Proof helpers, not properties: each unfolds one branch of `Step` so that
  // callers reasoning about one outcome need not unfold the whole function.

  lemma UnfoldStepGatewayFailure(store: Store, userId: string, text: string, instructions: FileRead<string>)
    ensures Step(store, userId, text, instructions, GatewayFailure).store == UserStep(store, userId, text)
  {
  }

  lemma UnfoldStepSuccess(store: Store, userId: string, text: string,
                          instructions: FileRead<string>, reply: string)
    ensures Step(store, userId, text, instructions, Success(reply)).store
            == AppendAssistantTurn(UserStep(store, userId, text), userId, reply)
  {
  }

  lemma UnfoldStepSaveFailure(store: Store, userId: string, text: string,
                              instructions: FileRead<string>, reply: string)
    ensures Step(store, userId, text, instructions, SaveFailure(reply)).store
            == AppendAssistantTurn(UserStep(store, userId, text), userId, reply)
  {
  }

  /** Pushing the assistant turn onto a history just written is writing the longer history. */
  lemma AssistantAfterUpdate(a: Store, u: string, h: History, reply: string)
    ensures AppendAssistantTurn(a[u := h], u, reply) == a[u := h + [Turn(Assistant, reply)]]
  {
  }

  lemma UnfoldStepPrompt(store: Store, userId: string, text: string,
                         instructions: FileRead<string>, outcome: Outcome)
    ensures Step(store, userId, text, instructions, outcome).prompt
            == BuildPrompt(ReadInstructions(instructions), UserStep(store, userId, text)[userId])
  {
  }

  // ---------------------------------------------------------------------
  // Properties of one message.
  // ---------------------------------------------------------------------

  /** A first message from a user creates that user's history and touches nothing else. */
  lemma NewUser(store: Store, userId: string, text: string,
                instructions: FileRead<string>, outcome: Outcome)
    requires userId !in store
    ensures var r := Step(store, userId, text, instructions, outcome);
      r.store.Keys == store.Keys + {userId} &&
      r.prompt == [Turn(System, ReadInstructions(instructions)), Turn(User, text)] &&
      (forall k :: k in store ==> r.store[k] == store[k])
  {
    UnfoldStepPrompt(store, userId, text, instructions, outcome);
    assert UserStep(store, userId, text)[userId] == [Turn(User, text)];
  }

  /** The prompt is the system turn followed by the truncated history, ending in the new user turn. */
  lemma PromptShape(store: Store, userId: string, text: string,
                    instructions: FileRead<string>, outcome: Outcome)
    ensures var r := Step(store, userId, text, instructions, outcome);
      r.prompt == [Turn(System, ReadInstructions(instructions))] + UserStep(store, userId, text)[userId] &&
      2 <= |r.prompt| <= MaxTurns + 1 &&
      r.prompt[|r.prompt| - 1] == Turn(User, text) &&
      r.prompt[0] == Turn(System, ReadInstructions(instructions))
  {
  }

  /** Every other user's history is the same before and after a message. */
  lemma Isolation(store: Store, userId: string, text: string,
                  instructions: FileRead<string>, outcome: Outcome, other: string)
    requires other != userId
    ensures var r := Step(store, userId, text, instructions, outcome);
      (other in r.store <==> other in store) &&
      (other in store ==> r.store[other] == store[other])
  {
  }

  /**
    On success the reply is pushed after the (possibly truncated) history
    without a second truncation, and it is what the handler returns.
  */
  lemma SuccessStep(store: Store, userId: string, text: string,
                    instructions: FileRead<string>, reply: string)
    ensures var r := Step(store, userId, text, instructions, Success(reply));
      var afterUser := UserStep(store, userId, text)[userId];
      r.reply == reply &&
      r.store.Keys == store.Keys + {userId} &&
      r.store[userId] == afterUser + [Turn(Assistant, reply)] &&
      r.prompt[1..] == afterUser
  {
  }

  /**
    A failed request keeps the user turn (and any truncation) in the store,
    adds no assistant turn, and returns the apology.
  */
  lemma GatewayFailureStep(store: Store, userId: string, text: string,
                           instructions: FileRead<string>)
    ensures var r := Step(store, userId, text, instructions, GatewayFailure);
      r.reply == Apology &&
      r.store == UserStep(store, userId, text) &&
      r.store[userId][|r.store[userId]| - 1] == Turn(User, text) &&
      r.prompt[1..] == r.store[userId]
  {
  }

  /** A failed save comes after the reply was pushed: the turn stays, the apology is returned. */
  lemma SaveFailureStep(store: Store, userId: string, text: string,
                        instructions: FileRead<string>, reply: string)
    ensures var r := Step(store, userId, text, instructions, SaveFailure(reply));
      r.reply == Apology &&
      r.store == Step(store, userId, text, instructions, Success(reply)).store &&
      r.store[userId][|r.store[userId]| - 1] == Turn(Assistant, reply)
  {
  }

  /**
    Whatever the store held before, the sender's history is at most
    `MaxTurns + 1` long afterwards, and the history in the prompt at most `MaxTurns`.
  */
  lemma StepLengthBound(store: Store, userId: string, text: string,
                        instructions: FileRead<string>, outcome: Outcome)
    ensures var r := Step(store, userId, text, instructions, outcome);
      |r.store[userId]| <= MaxTurns + 1 && |r.prompt| - 1 <= MaxTurns
  {
  }

  /** The bound `MaxTurns + 1` is reached: a 19-turn history answered successfully has 21 turns. */
  lemma HistoryCanReach21(store: Store, userId: string, text: string,
                          instructions: FileRead<string>, reply: string)
    requires userId in store && |store[userId]| == MaxTurns - 1
    ensures |Step(store, userId, text, instructions, Success(reply)).store[userId]| == MaxTurns + 1
  {
  }

  /** A history of 20 or more turns comes out of the user step as the last 10 turns of the pushed one. */
  lemma TruncationKeepsLastTen(store: Store, userId: string, text: string)
    requires userId in store && |store[userId]| >= MaxTurns
    ensures var h := UserStep(store, userId, text)[userId];
      var pushed := store[userId] + [Turn(User, text)];
      |h| == RetainTurns &&
      (forall i :: 0 <= i < RetainTurns ==> h[i] == pushed[|pushed| - RetainTurns + i])
  {
  }

  /** A first exchange on an empty store leaves exactly the question and its answer. */
  lemma FirstExchange(userId: string, text: string, instructions: FileRead<string>, reply: string)
    ensures Step(map[], userId, text, instructions, Success(reply)).store
            == map[userId := [Turn(User, text), Turn(Assistant, reply)]]
  {
    var afterUser := UserStep(map[], userId, text);
    assert afterUser == map[userId := [Turn(User, text)]];
    assert afterUser[userId] + [Turn(Assistant, reply)] == [Turn(User, text), Turn(Assistant, reply)];
  }

  /** Turns 1..20 followed by turn 21 come out of the user step as turns 12..21. */
  lemma TruncationScenario(store: Store, userId: string, h: History, text: string)
    requires userId in store && store[userId] == h && |h| == MaxTurns
    ensures UserStep(store, userId, text)[userId] == h[11..] + [Turn(User, text)]
  {
  }
}
