/** `ChatBot` and `history_to_messages` of caldera_agent.py: one history per
    user, a note added to the message when the last answer mentioned a call,
    one {human, ai} entry appended per answered turn, and the flattening of
    a history into alternating human and AI messages. The agent is a
    parameter: the text it is given maps to what its run returns or raises. */
module ChatSessions {
  import opened Wrappers
  import opened Text
  import opened Json

  /** One history item, a dict of which only the "human" and "ai" entries
      are ever read: None where the key is absent. */
  datatype Entry = Entry(human: Option<Json>, ai: Option<Json>)

  /** The item chat appends for an answered turn: {"human": ..., "ai": ...}. */
  function Turn(message: string, response: Json): Entry {
    Entry(Some(JStr(message)), Some(response))
  }

  /** Every item of a history made by chat holds both keys. */
  predicate WellFormed(history: seq<Entry>) {
    forall i :: 0 <= i < |history| ==> history[i].human.Some? && history[i].ai.Some?
  }

  /** What `agent_executor.run` does with the message: returns a value or
      raises an exception whose str() is `message`. */
  datatype AgentRun = Returned(result: Json) | Failed(message: string)

  /** The exception that escapes chat: the `in` test on a last answer that
      is not a str, list or dict, which sits before the try block. */
  datatype ChatError = TypeError

  /** The reply dict: {"response": ..., "history_length": ...}. */
  datatype Reply = Reply(response: Json, historyLength: nat)

  const MemoryNote: string := "\n\U{1F9E0} Last call saved - say 'same endpoint' to reuse!"
  const ErrorPrefix: string := "\U{274C} Error: "

  /** The Python test `needle in v` for a str needle. */
  function Mentions(v: Json, needle: string): (r: Result<bool, ChatError>)
    ensures r.Failure? <==> !(v.JStr? || v.JArr? || v.JObj?)
    ensures v.JStr? ==> r == Success(Contains(v.s, needle))
    ensures v.JArr? ==> r == Success(JStr(needle) in v.items)
    ensures v.JObj? ==> r == Success(needle in Keys(v.fields))
  {
    match v
    case JStr(s) => Success(Contains(s, needle))
    case JArr(xs) => Success(JStr(needle) in xs)
    case JObj(fs) => Success(Has(fs, needle))
    case _ => Failure(TypeError)
  }

  /** The memory note: present when the history is not empty and its last
      answer mentions "api_call". */
  function MemoryContext(history: seq<Entry>): Result<string, ChatError>
    requires WellFormed(history)
  {
    if history == [] then Success("")
    else
      match Mentions(history[|history| - 1].ai.value, "api_call")
      case Failure(e) => Failure(e)
      case Success(b) => Success(if b then MemoryNote else "")
  }

  /** f"{memory_context}\n\n{message}". */
  function FullMessage(context: string, message: string): string {
    context + "\n\n" + message
  }

  /** `result["output"]`, with str() of the exception subscripting raises
      when the result has no such entry (the messages of Python 3.12). */
  function Output(result: Json): Result<Json, string> {
    match result
    case JObj(fs) => if Has(fs, "output") then Success(Get(fs, "output").value) else Failure("'output'")
    case JStr(_) => Failure("string indices must be integers, not 'str'")
    case JArr(_) => Failure("list indices must be integers or slices, not str")
    case JNull => Failure("'NoneType' object is not subscriptable")
    case JNum(_) => Failure("'int' object is not subscriptable")
    case JBool(_) => Failure("'bool' object is not subscriptable")
  }

  /** The agent's answer: `result["output"]`, or str() of what was raised. */
  function Answer(outcome: AgentRun): Result<Json, string> {
    match outcome
    case Returned(result) => Output(result)
    case Failed(m) => Failure(m)
  }

  /** One chat turn on a user's history: the reply and the history after it. */
  function Exchange(history: seq<Entry>, message: string, run: string -> AgentRun)
    : Result<(Reply, seq<Entry>), ChatError>
    requires WellFormed(history)
  {
    match MemoryContext(history)
    case Failure(e) => Failure(e)
    case Success(context) =>
      match Answer(run(FullMessage(context, message)))
      case Failure(m) => Success((Reply(JStr(ErrorPrefix + m), |history|), history))
      case Success(response) =>
        Success((Reply(response, |history| + 1), history + [Turn(message, response)]))
  }

  /** A turn either raises before the agent runs (and changes nothing), or
      keeps every earlier item and adds exactly one {human, ai} item when
      the agent answers, none when it fails; the reported length is the
      length afterwards. */
  lemma ExchangeFacts(history: seq<Entry>, message: string, run: string -> AgentRun)
    requires WellFormed(history)
    ensures Exchange(history, message, run).Failure? <==> MemoryContext(history).Failure?
    ensures Exchange(history, message, run).Success? ==>
              var (reply, after) := Exchange(history, message, run).value;
              var answer := Answer(run(FullMessage(MemoryContext(history).value, message)));
              && WellFormed(after)
              && reply.historyLength == |after|
              && (answer.Success? ==> after == history + [Turn(message, reply.response)]
                                      && reply.response == answer.value)
              && (answer.Failure? ==> after == history && reply.response == JStr(ErrorPrefix + answer.error))
  {
    if Exchange(history, message, run).Success? {
      var (reply, after) := Exchange(history, message, run).value;
      if after != history {
        assert after[|history|] == Turn(message, reply.response);
      }
    }
  }

  /** A turn whose memory note is known, in terms of the agent's answer. */
  lemma ExchangeOfAnswer(history: seq<Entry>, message: string, run: string -> AgentRun, context: string)
    requires WellFormed(history) && MemoryContext(history) == Success(context)
    ensures var answer := Answer(run(FullMessage(context, message)));
            && (answer.Success? ==> Exchange(history, message, run)
                                    == Success((Reply(answer.value, |history| + 1), history + [Turn(message, answer.value)])))
            && (answer.Failure? ==> Exchange(history, message, run)
                                    == Success((Reply(JStr(ErrorPrefix + answer.error), |history|), history)))
  {
  }

  /** The agent is told about the last call exactly when the last answer, a
      string, mentions api_call. */
  lemma MemoryNoteWhen(history: seq<Entry>, answer: string)
    requires WellFormed(history) && history != [] && history[|history| - 1].ai.value == JStr(answer)
    ensures MemoryContext(history) == Success(if Contains(answer, "api_call") then MemoryNote else "")
  {
  }

  /** An agent returning a bare string, as a LangChain executor's run does,
      gets the subscripting error as its reply and leaves the history as it
      was. */
  lemma StringOutputIsError(history: seq<Entry>, message: string, run: string -> AgentRun)
    requires WellFormed(history) && MemoryContext(history).Success?
    requires run(FullMessage(MemoryContext(history).value, message)).Returned?
    requires run(FullMessage(MemoryContext(history).value, message)).result.JStr?
    ensures Exchange(history, message, run)
         == Success((Reply(JStr(ErrorPrefix + "string indices must be integers, not 'str'"), |history|), history))
  {
  }

  /** A chat message: HumanMessage or AIMessage with its content. */
  datatype Message = Human(content: Json) | AI(content: Json)

  /** The messages of one item: the human one first, each only when its key
      is present. */
  function ItemMessages(e: Entry): (ms: seq<Message>)
    ensures |ms| == (if e.human.Some? then 1 else 0) + (if e.ai.Some? then 1 else 0)
    ensures e.human.Some? ==> ms[0] == Human(e.human.value)
    ensures e.ai.Some? ==> ms[|ms| - 1] == AI(e.ai.value)
  {
    (if e.human.Some? then [Human(e.human.value)] else []) + (if e.ai.Some? then [AI(e.ai.value)] else [])
  }

  /** The messages of a history, item by item in order. */
  function Messages(history: seq<Entry>): seq<Message> {
    if history == [] then [] else Messages(history[..|history| - 1]) + ItemMessages(history[|history| - 1])
  }

  /** Flattening distributes over concatenation of histories. */
  lemma {:induction false} MessagesConcat(a: seq<Entry>, b: seq<Entry>)
    ensures Messages(a + b) == Messages(a) + Messages(b)
    decreases |b|
  {
    if b == [] {
      assert a + b == a;
    } else {
      assert (a + b)[..|a + b| - 1] == a + b[..|b| - 1];
      MessagesConcat(a, b[..|b| - 1]);
    }
  }

  /** A history made by chat flattens to human, AI, human, AI, ...: two
      messages per item, the k-th item's at 2k and 2k+1. */
  lemma {:induction false} MessagesOfTurns(history: seq<Entry>)
    requires WellFormed(history)
    ensures |Messages(history)| == 2 * |history|
    ensures forall k :: 0 <= k < |history| ==>
              Messages(history)[2 * k] == Human(history[k].human.value)
              && Messages(history)[2 * k + 1] == AI(history[k].ai.value)
  {
    if history != [] {
      var front := history[..|history| - 1];
      assert WellFormed(front) by {
        assert forall i :: 0 <= i < |front| ==> front[i] == history[i];
      }
      MessagesOfTurns(front);
      var last := history[|history| - 1];
      assert ItemMessages(last) == [Human(last.human.value), AI(last.ai.value)];
      forall k | 0 <= k < |history|
        ensures Messages(history)[2 * k] == Human(history[k].human.value)
        ensures Messages(history)[2 * k + 1] == AI(history[k].ai.value)
      {
        if k < |front| {
          assert front[k] == history[k];
        }
      }
    }
  }

  /** history[-6:]: the last six items, or all of them. */
  function LastSix(history: seq<Entry>): (r: seq<Entry>)
    ensures |r| == Min6(|history|) && r == history[|history| - |r|..]
  {
    if |history| <= 6 then history else history[|history| - 6..]
  }

  function Min6(n: nat): nat { if n <= 6 then n else 6 }

  /** history_to_messages: a loop appending each item's messages in turn. */
  method HistoryToMessages(history: seq<Entry>) returns (msgs: seq<Message>)
    ensures msgs == Messages(history)
  {
    msgs := [];
    var i := 0;
    while i < |history|
      invariant 0 <= i <= |history|
      invariant msgs == Messages(history[..i])
    {
      var item := history[i];
      assert history[..i + 1][..i] == history[..i];
      if item.human.Some? {
        msgs := msgs + [Human(item.human.value)];
      }
      if item.ai.Some? {
        msgs := msgs + [AI(item.ai.value)];
      }
      i := i + 1;
    }
    assert history[..i] == history;
  }

  /** The "Add memory context" step of chat: the note when the last
      answer mentions api_call, nothing otherwise. */
  method AddMemoryContext(history: seq<Entry>) returns (r: Result<string, ChatError>)
    requires WellFormed(history)
    ensures r == MemoryContext(history)
  {
    var memoryContext := "";
    if history != [] {
      var last := history[|history| - 1].ai.value;
      var mentions := Mentions(last, "api_call");
      if mentions.Failure? {
        return Failure(mentions.error);
      }
      if mentions.value {
        memoryContext := MemoryNote;
      }
    }
    return Success(memoryContext);
  }

  /** The sessions of all users: each user's history. */
  class ChatBot {
    var sessions: map<string, seq<Entry>>

    /** Every stored history was made by chat. */
    predicate Valid()
      reads this
    {
      forall u :: u in sessions ==> WellFormed(sessions[u])
    }

    constructor()
      ensures sessions == map[] && Valid()
    {
      sessions := map[];
    }

    /** get_session: an unseen user gets an empty history; a known user's
        history is returned as it is. */
    method GetSession(userId: string) returns (history: seq<Entry>)
      requires Valid()
      modifies this
      ensures Valid()
      ensures userId in old(sessions) ==> sessions == old(sessions)
      ensures userId !in old(sessions) ==> sessions == old(sessions)[userId := []]
      ensures userId in sessions && history == sessions[userId]
    {
      if userId !in sessions {
        sessions := sessions[userId := []];
      }
      history := sessions[userId];
    }

    /** chat: one turn for one user; no other user's history changes. */
    method Chat(userId: string, message: string, run: string -> AgentRun) returns (r: Result<Reply, ChatError>)
      requires Valid()
      modifies this
      ensures Valid()
      ensures var before := if userId in old(sessions) then old(sessions)[userId] else [];
              WellFormed(before) &&
              match Exchange(before, message, run)
              case Failure(e) => r == Failure(e) && sessions == old(sessions)[userId := before]
              case Success((reply, after)) => r == Success(reply) && sessions == old(sessions)[userId := after]
    {
      var history := GetSession(userId);
      var memory := AddMemoryContext(history);
      if memory.Failure? {
        return Failure(memory.error);
      }
      var memoryContext := memory.value;
      var fullMessage := FullMessage(memoryContext, message);
      var historyMessages := HistoryToMessages(LastSix(history));
      var answer := Answer(run(fullMessage));
      ExchangeOfAnswer(history, message, run, memoryContext);
      if answer.Failure? {
        return Success(Reply(JStr(ErrorPrefix + answer.error), |history|));
      }
      ExchangeFacts(history, message, run);
      history := history + [Turn(message, answer.value)];
      sessions := sessions[userId := history];
      return Success(Reply(answer.value, |history|));
    }
  }
}
