/**
 * chat_with_ollama and the two event handlers of the chat page. The chat
 * server is a parameter: a function from the request the chatbot would
 * send to what the POST produced.
 */
module Chatbot {
  import opened Wrappers
  import opened Text
  import opened Ollama
  import opened Conversation

  /** The reply used when no model name was given; no request is built. */
  const SelectModelFirst: string := "Please select a model first."

  /** The request chat_with_ollama sends for a message and the history before it. */
  function Request(message: string, history: seq<Turn>, modelName: string): (q: ChatRequest)
    ensures q.model == modelName && !q.stream
    ensures q.messages == Flatten(history, message)
    ensures ParseTurns(q.messages) == Some(history + [Turn(message, "")])
  {
    RequestReadsBack(history, message);
    ChatRequest(modelName, Flatten(history, message), false)
  }

  /** The bot text of a call: the fixed prompt for a blank model name, otherwise the reply to the request. */
  function BotText(message: string, history: seq<Turn>, modelName: string,
                   server: ChatRequest -> ChatOutcome): string
  {
    if IsBlank(modelName) then SelectModelFirst
    else Reply(server(Request(message, history, modelName)))
  }

  /** The history chat_with_ollama returns, as the code writes it: two new pairs, ("You", message) and ("Bot", reply). */
  function Chat(message: string, history: seq<Turn>, modelName: string,
                server: ChatRequest -> ChatOutcome): (r: seq<Turn>)
    ensures |r| == |history| + 2 && r[..|history|] == history
    ensures r[|history|] == Turn("You", message)
    ensures r[|history| + 1].user == "Bot"
    ensures IsBlank(modelName) ==> r[|history| + 1].bot == SelectModelFirst
    ensures !IsBlank(modelName) ==> r[|history| + 1].bot == Reply(server(Request(message, history, modelName)))
  {
    history + [Turn("You", message), Turn("Bot", BotText(message, history, modelName, server))]
  }

  /** With a blank model name the result does not depend on the server at all: nothing is sent. */
  lemma BlankModelSendsNothing(message: string, history: seq<Turn>, modelName: string,
                               server1: ChatRequest -> ChatOutcome, server2: ChatRequest -> ChatOutcome)
    requires IsBlank(modelName)
    ensures Chat(message, history, modelName, server1) == Chat(message, history, modelName, server2)
    ensures Chat(message, history, modelName, server1)
         == history + [Turn("You", message), Turn("Bot", SelectModelFirst)]
  {
  }

  /** chat_with_ollama: the guard, the message-building loop, one request and the reply. */
  method ChatWithOllama(message: string, history: seq<Turn>, modelName: string,
                        server: ChatRequest -> ChatOutcome) returns (newHistory: seq<Turn>)
    ensures newHistory == Chat(message, history, modelName, server)
  {
    if IsBlank(modelName) {
      return history + [Turn("You", message), Turn("Bot", SelectModelFirst)];
    }
    var messages := BuildMessages(history, message);
    var outcome := server(ChatRequest(modelName, messages, false));
    var botResponse := Reply(outcome);
    newHistory := history + [Turn("You", message), Turn("Bot", botResponse)];
  }

  /**
   * submit_message: a blank message leaves history and input box as they
   * are; anything else is sent and the input box is cleared.
   */
  function SubmitMessage(message: string, history: seq<Turn>, model: string,
                         server: ChatRequest -> ChatOutcome): (r: (seq<Turn>, string))
    ensures IsBlank(message) ==> r == (history, message)
    ensures !IsBlank(message) ==> r.0 == Chat(message, history, model, server) && r.1 == ""
  {
    if !IsBlank(message) then (Chat(message, history, model, server), "") else (history, message)
  }

  /** clear_chat: the empty history. */
  function ClearChat(): (r: seq<Turn>)
    ensures |r| == 0
  {
    []
  }

  /** A submit keeps the whole history as a prefix, and grows it exactly when the message is not blank. */
  lemma SubmitExtendsHistory(message: string, history: seq<Turn>, model: string,
                             server: ChatRequest -> ChatOutcome)
    ensures var (h, _) := SubmitMessage(message, history, model, server);
      && history <= h
      && (|h| == |history| + 2 <==> !IsBlank(message))
      && (|h| == |history| <==> IsBlank(message))
  {
  }

  /**
   * The shape of every history the page can hold: an even number of pairs,
   * alternately headed "You" and "Bot".
   */
  predicate WellPaired(history: seq<Turn>)
    decreases |history|
  {
    || history == []
    || (&& |history| >= 2
        && history[|history| - 2].user == "You"
        && history[|history| - 1].user == "Bot"
        && WellPaired(history[..|history| - 2]))
  }

  lemma ClearChatWellPaired()
    ensures WellPaired(ClearChat())
  {
  }

  /** Submitting keeps the pairing of the history. */
  lemma SubmitKeepsPairing(message: string, history: seq<Turn>, model: string,
                           server: ChatRequest -> ChatOutcome)
    requires WellPaired(history)
    ensures WellPaired(SubmitMessage(message, history, model, server).0)
  {
  }

  /**
   * The request after a Chat: the earlier message travels as an assistant
   * message, right after a user message "You".
   */
  lemma {:induction false} NextRequestMislabels(message: string, history: seq<Turn>, modelName: string,
                                                server: ChatRequest -> ChatOutcome, next: string)
    requires message != ""
    ensures var ms := Flatten(Chat(message, history, modelName, server), next);
      var k := |FlattenHistory(history)|;
      && k + 2 < |ms|
      && ms[k] == Message(User, "You")
      && ms[k + 1] == Message(Assistant, message)
      && ms[k + 2] == Message(User, "Bot")
  {
    var h := Chat(message, history, modelName, server);
    var h1 := history + [Turn("You", message)];
    assert h[..|h| - 1] == h1;
    assert h1[..|h1| - 1] == history;
    assert FlattenHistory(h) == FlattenHistory(history) + TurnMessages(h[|history|]) + TurnMessages(h[|history| + 1]);
  }

  /** The example exchange: the history gains ("You", "What's up?") and ("Bot", "hello"), not ("What's up?", "hello"). */
  lemma WhatsUpAsWritten(server: ChatRequest -> ChatOutcome)
    requires forall q :: server(q) == Answered(200, "", ChatJson(Some("hello")))
    ensures Chat("What's up?", [], "llama2", server) == [Turn("You", "What's up?"), Turn("Bot", "hello")]
    ensures |Chat("What's up?", [], "llama2", server)| != |[Turn("What's up?", "hello")]|
  {
  }

  /** chat_with_ollama as evidently intended: one new pair, the message with its reply. */
  function ChatIntended(message: string, history: seq<Turn>, modelName: string,
                        server: ChatRequest -> ChatOutcome): (r: seq<Turn>)
    ensures |r| == |history| + 1 && r[..|history|] == history
    ensures r[|history|].user == message
    ensures IsBlank(modelName) ==> r[|history|].bot == SelectModelFirst
    ensures !IsBlank(modelName) ==> r[|history|].bot == Reply(server(Request(message, history, modelName)))
  {
    history + [Turn(message, BotText(message, history, modelName, server))]
  }

  /**
   * The request after ChatIntended carries the exchange under the right
   * roles: the message as the user's, the reply (when non-empty) as the
   * assistant's, then the next input. Read back, it is the history with the
   * exchange and the next input as a pending pair.
   */
  lemma {:induction false} NextRequestIntended(message: string, history: seq<Turn>, modelName: string,
                                               server: ChatRequest -> ChatOutcome, next: string)
    ensures var reply := BotText(message, history, modelName, server);
      var ms := Flatten(ChatIntended(message, history, modelName, server), next);
      && ms == FlattenHistory(history) + TurnMessages(Turn(message, reply)) + [Message(User, next)]
      && ParseTurns(ms) == Some(history + [Turn(message, reply), Turn(next, "")])
  {
    var h := ChatIntended(message, history, modelName, server);
    assert h[..|h| - 1] == history;
    RequestReadsBack(h, next);
    assert h + [Turn(next, "")] == history + [Turn(message, BotText(message, history, modelName, server)), Turn(next, "")];
  }
}
