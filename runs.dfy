/**
  Properties of a sequence of messages processed one after another, each
  atomically, as the handler in index.js processes them.
*/
module Runs {

  import opened Conversation

  /** One inbound message together with what the environment does while it is handled. */
  datatype Message = Message(userId: string, text: string,
                             instructions: FileRead<string>, outcome: Outcome)

  /** The users who send at least one of `msgs`. */
  function Senders(msgs: seq<Message>): set<string>
  {
    set i | 0 <= i < |msgs| :: msgs[i].userId
  }

  lemma SendersCons(msgs: seq<Message>)
    requires msgs != []
    ensures Senders(msgs) == {msgs[0].userId} + Senders(msgs[1..])
  {
    forall u | u in Senders(msgs[1..])
      ensures u in Senders(msgs)
    {
      var i :| 0 <= i < |msgs[1..]| && msgs[1..][i].userId == u;
      assert msgs[i + 1].userId == u;
    }
  }

  /** The store after one message, as `Step` leaves it. */
  function StoreAfter(store: Store, m: Message): Store
  {
    Step(store, m.userId, m.text, m.instructions, m.outcome).store
  }

  /** The store after handling `msgs` in order: it gains exactly the senders as keys. */
  function Run(store: Store, msgs: seq<Message>): (r: Store)
    ensures r.Keys == store.Keys + Senders(msgs)
    decreases |msgs|
  {
    if msgs == [] then store
    else
      SendersCons(msgs);
      Run(StoreAfter(store, msgs[0]), msgs[1..])
  }

  /** A user who sends none of `msgs` keeps their history through the whole run. */
  lemma {:induction false} RunLeavesOthers(store: Store, msgs: seq<Message>, userId: string)
    requires userId in store && userId !in Senders(msgs)
    ensures Run(store, msgs)[userId] == store[userId]
    decreases |msgs|
  {
    if msgs != [] {
      var m := msgs[0];
      SendersCons(msgs);
      var next := StoreAfter(store, m);
      assert next[userId] == store[userId];
      RunLeavesOthers(next, msgs[1..], userId);
    }
  }

  /** The assistant turn an outcome pushes, if any. */
  function ReplyTurns(o: Outcome): seq<Turn>
  {
    match o
    case GatewayFailure => []
    case Success(reply) => [Turn(Assistant, reply)]
    case SaveFailure(reply) => [Turn(Assistant, reply)]
  }

  /** The turns a message adds to its sender's history before any truncation. */
  function TurnsOf(m: Message): seq<Turn>
  {
    [Turn(User, m.text)] + ReplyTurns(m.outcome)
  }

  /** The turns `msgs` add to `userId`'s history before any truncation, in arrival order. */
  function TurnsFrom(msgs: seq<Message>, userId: string): seq<Turn>
    decreases |msgs|
  {
    if msgs == [] then []
    else (if msgs[0].userId == userId then TurnsOf(msgs[0]) else []) + TurnsFrom(msgs[1..], userId)
  }

  /** One message recorded without truncation. */
  function Record(store: Store, m: Message): Store
  {
    store[m.userId := HistoryOf(store, m.userId) + TurnsOf(m)]
  }

  /**
    The reference for ordering: the store as it would be if nothing were
    ever truncated. It has the same keys as `Run`; `TranscriptRecordsEveryTurn`
    shows each history holds all its turns in arrival order.
  */
  function Transcript(store: Store, msgs: seq<Message>): (r: Store)
    ensures r.Keys == store.Keys + Senders(msgs)
    decreases |msgs|
  {
    if msgs == [] then store
    else
      SendersCons(msgs);
      Transcript(Record(store, msgs[0]), msgs[1..])
  }

  /** Each untruncated history is the starting one followed by every turn its messages add, in order. */
  lemma {:induction false} TranscriptRecordsEveryTurn(store: Store, msgs: seq<Message>, userId: string)
    ensures HistoryOf(Transcript(store, msgs), userId) == HistoryOf(store, userId) + TurnsFrom(msgs, userId)
    decreases |msgs|
  {
    if msgs != [] {
      var m := msgs[0];
      var next := Record(store, m);
      TranscriptRecordsEveryTurn(next, msgs[1..], userId);
      var h, later := HistoryOf(store, userId), TurnsFrom(msgs[1..], userId);
      if m.userId == userId {
        assert HistoryOf(next, userId) == h + TurnsOf(m);
        assert TurnsFrom(msgs, userId) == TurnsOf(m) + later;
        AppendAssociative(h, TurnsOf(m), later);
      } else {
        assert HistoryOf(next, userId) == h;
        assert TurnsFrom(msgs, userId) == [] + later == later;
      }
    }
  }

  lemma AppendAssociative<T>(a: seq<T>, b: seq<T>, c: seq<T>)
    ensures a + b + c == a + (b + c)
  {
  }

  ghost predicate Bounded(store: Store, n: nat)
  {
    forall k :: k in store ==> |store[k]| <= n
  }

  /** `a` is `b` with some of each history's oldest turns dropped. */
  ghost predicate TruncatedFrom(a: Store, b: Store)
  {
    a.Keys == b.Keys && forall k :: k in a ==> IsSuffix(a[k], b[k])
  }

  lemma SuffixAppend<T>(a: seq<T>, b: seq<T>, tail: seq<T>)
    requires IsSuffix(a, b)
    ensures IsSuffix(a + tail, b + tail)
  {
    assert (b + tail)[|b + tail| - |a + tail|..] == b[|b| - |a|..] + tail;
  }

  lemma SuffixTransitive<T>(a: seq<T>, b: seq<T>, c: seq<T>)
    requires IsSuffix(a, b) && IsSuffix(b, c)
    ensures IsSuffix(a, c)
  {
    assert c[|c| - |b|..][|b| - |a|..] == c[|c| - |a|..];
  }

  /** The sender's history after a message, truncated as the handler truncates it. */
  function SenderHistory(h: History, m: Message): History
  {
    AppendUserTurn(h, m.text) + ReplyTurns(m.outcome)
  }

  /** After one message the store is the old one with only the sender's history replaced. */
  lemma StepStore(a: Store, m: Message)
    ensures StoreAfter(a, m) == a[m.userId := SenderHistory(HistoryOf(a, m.userId), m)]
  {
    var u := m.userId;
    var afterUser := AppendUserTurn(HistoryOf(a, u), m.text);
    assert UserStep(a, u, m.text) == a[u := afterUser];
    match m.outcome
    case GatewayFailure =>
      UnfoldStepGatewayFailure(a, u, m.text, m.instructions);
      assert ReplyTurns(m.outcome) == [];
      assert SenderHistory(HistoryOf(a, u), m) == afterUser + [] == afterUser;
    case Success(reply) =>
      UnfoldStepSuccess(a, u, m.text, m.instructions, reply);
      AssistantAfterUpdate(a, u, afterUser, reply);
    case SaveFailure(reply) =>
      UnfoldStepSaveFailure(a, u, m.text, m.instructions, reply);
      AssistantAfterUpdate(a, u, afterUser, reply);
  }

  /** The user step keeps a history a suffix of its untruncated counterpart. */
  lemma AppendUserTurnSuffix(ha: History, hb: History, text: string)
    requires IsSuffix(ha, hb)
    ensures IsSuffix(AppendUserTurn(ha, text), hb + [Turn(User, text)])
  {
    var user := Turn(User, text);
    SuffixAppend(ha, hb, [user]);
    SuffixTransitive(AppendUserTurn(ha, text), ha + [user], hb + [user]);
  }

  /** One message keeps the sender's history a suffix of its untruncated counterpart. */
  lemma SenderHistorySuffix(ha: History, hb: History, m: Message)
    requires IsSuffix(ha, hb)
    ensures IsSuffix(SenderHistory(ha, m), hb + TurnsOf(m))
  {
    var user, tail := Turn(User, m.text), ReplyTurns(m.outcome);
    AppendUserTurnSuffix(ha, hb, m.text);
    SuffixAppend(AppendUserTurn(ha, m.text), hb + [user], tail);
    assert hb + [user] + tail == hb + TurnsOf(m);
  }

  lemma UpdateOther(store: Store, u: string, h: History, k: string)
    requires k in store && k != u
    ensures k in store[u := h] && store[u := h][k] == store[k]
  {
  }

  /** Replacing one history by a truncation of its extension keeps the relation between the stores. */
  lemma UpdateTruncatedFrom(a: Store, b: Store, u: string, ha: History, hb: History)
    requires TruncatedFrom(a, b) && IsSuffix(ha, hb)
    ensures TruncatedFrom(a[u := ha], b[u := hb])
  {
    var a', b' := a[u := ha], b[u := hb];
    forall k | k in a'
      ensures IsSuffix(a'[k], b'[k])
    {
      if k != u {
        UpdateOther(a, u, ha, k);
        UpdateOther(b, u, hb, k);
      }
    }
  }

  /** Handling one message keeps every history a suffix of its untruncated counterpart. */
  lemma StepTruncatedFrom(a: Store, b: Store, m: Message)
    requires TruncatedFrom(a, b)
    ensures TruncatedFrom(StoreAfter(a, m), Record(b, m))
  {
    var u := m.userId;
    assert IsSuffix(HistoryOf(a, u), HistoryOf(b, u));
    SenderHistorySuffix(HistoryOf(a, u), HistoryOf(b, u), m);
    UpdateTruncatedFrom(a, b, u, SenderHistory(HistoryOf(a, u), m), HistoryOf(b, u) + TurnsOf(m));
    StepStore(a, m);
  }

  lemma {:induction false} RunTruncatedFromAux(a: Store, b: Store, msgs: seq<Message>)
    requires TruncatedFrom(a, b)
    ensures TruncatedFrom(Run(a, msgs), Transcript(b, msgs))
    decreases |msgs|
  {
    if msgs != [] {
      StepTruncatedFrom(a, b, msgs[0]);
      RunTruncatedFromAux(StoreAfter(a, msgs[0]), Record(b, msgs[0]), msgs[1..]);
    }
  }

  /**
    Truncation only ever drops a history's oldest turns: after any run, each
    history is a suffix of the one that records every turn in arrival order.
  */
  lemma RunKeepsTranscriptSuffix(store: Store, msgs: seq<Message>)
    ensures Run(store, msgs).Keys == Transcript(store, msgs).Keys
    ensures forall k :: k in Run(store, msgs) ==>
      IsSuffix(Run(store, msgs)[k], Transcript(store, msgs)[k])
  {
    RunTruncatedFromAux(store, store, msgs);
  }

  lemma {:induction false} RunBounded(store: Store, msgs: seq<Message>)
    requires Bounded(store, MaxTurns + 1)
    ensures Bounded(Run(store, msgs), MaxTurns + 1)
    decreases |msgs|
  {
    if msgs != [] {
      var m := msgs[0];
      var next := StoreAfter(store, m);
      forall k | k in next
        ensures |next[k]| <= MaxTurns + 1
      {
        if k != m.userId {
          assert next[k] == store[k];
        }
      }
      RunBounded(next, msgs[1..]);
    }
  }

  /**
    From an empty store every history has at most 21 turns after each
    message, and every prompt carries at most 20 history turns.
  */
  lemma FromEmptyBounded(msgs: seq<Message>, i: nat)
    requires i <= |msgs|
    ensures forall k :: k in Run(map[], msgs[..i]) ==> |Run(map[], msgs[..i])[k]| <= MaxTurns + 1
    ensures i < |msgs| ==>
      var m := msgs[i];
      |Step(Run(map[], msgs[..i]), m.userId, m.text, m.instructions, m.outcome).prompt| <= MaxTurns + 1
  {
    RunBounded(map[], msgs[..i]);
    if i < |msgs| {
      var m := msgs[i];
      StepLengthBound(Run(map[], msgs[..i]), m.userId, m.text, m.instructions, m.outcome);
    }
  }
}
