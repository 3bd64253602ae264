/**
 * The conversation as the chat widget holds it (a list of pairs) and the
 * role-tagged message list chat_with_ollama builds from it for the request.
 */
module Conversation {
  import opened Wrappers
  import opened Ollama

  /** One `(first, second)` pair of the displayed history. */
  datatype Turn = Turn(user: string, bot: string)

  /** The messages one pair contributes: its user text, then its bot text when that is non-empty. */
  function TurnMessages(t: Turn): seq<Message> {
    [Message(User, t.user)] + (if t.bot != "" then [Message(Assistant, t.bot)] else [])
  }

  /** The messages the loop has appended after walking all of `history`. */
  function FlattenHistory(history: seq<Turn>): seq<Message>
    decreases |history|
  {
    if history == [] then []
    else FlattenHistory(history[..|history| - 1]) + TurnMessages(history[|history| - 1])
  }

  /** The number of pairs whose second element is non-empty. */
  function Answered(history: seq<Turn>): nat
    decreases |history|
  {
    if history == [] then 0
    else Answered(history[..|history| - 1]) + (if history[|history| - 1].bot != "" then 1 else 0)
  }

  lemma {:induction false} FlattenHistoryLength(history: seq<Turn>)
    ensures |FlattenHistory(history)| == |history| + Answered(history)
    decreases |history|
  {
    if history != [] {
      FlattenHistoryLength(history[..|history| - 1]);
    }
  }

  /** The whole `messages` list of a request: the flattened history, then the new input as a user message. */
  function Flatten(history: seq<Turn>, message: string): (r: seq<Message>)
    ensures |r| == |history| + Answered(history) + 1
    ensures r[|r| - 1] == Message(User, message)
  {
    FlattenHistoryLength(history);
    FlattenHistory(history) + [Message(User, message)]
  }

  /** The loop of chat_with_ollama that builds the request's `messages` list in place. */
  method BuildMessages(history: seq<Turn>, message: string) returns (messages: seq<Message>)
    ensures messages == Flatten(history, message)
  {
    messages := [];
    var i := 0;
    while i < |history|
      invariant 0 <= i <= |history|
      invariant messages == FlattenHistory(history[..i])
    {
      var (userMsg, botMsg) := (history[i].user, history[i].bot);
      messages := messages + [Message(User, userMsg)];
      if botMsg != "" {
        messages := messages + [Message(Assistant, botMsg)];
      }
      assert history[..i + 1][..i] == history[..i];
      i := i + 1;
    }
    assert history[..i] == history;
    messages := messages + [Message(User, message)];
  }

  /** Flattening a longer history only appends: the messages of a prefix come first. */
  lemma {:induction false} FlattenHistoryPrefix(history: seq<Turn>, i: nat)
    requires i <= |history|
    ensures FlattenHistory(history[..i]) <= FlattenHistory(history)
    decreases |history| - i
  {
    if i < |history| {
      FlattenHistoryPrefix(history, i + 1);
      assert history[..i + 1][..i] == history[..i];
    } else {
      assert history[..i] == history;
    }
  }

  /** Where the messages of pair `i` start in the flattened list. */
  function Offset(history: seq<Turn>, i: nat): nat
    requires i <= |history|
  {
    i + Answered(history[..i])
  }

  /**
   * Pair `i` sits at Offset(history, i): its user message there, its
   * assistant message right after when its second element is non-empty,
   * and the next pair begins only after both. The new input comes after
   * every pair.
   */
  lemma FlattenOrder(history: seq<Turn>, message: string, i: nat)
    requires i < |history|
    ensures var r := Flatten(history, message);
      && Offset(history, i + 1) == Offset(history, i) + (if history[i].bot != "" then 2 else 1)
      && Offset(history, i + 1) < |r|
      && Offset(history, |history|) == |r| - 1
      && r[Offset(history, i)] == Message(User, history[i].user)
      && (history[i].bot != "" ==> r[Offset(history, i) + 1] == Message(Assistant, history[i].bot))
  {
    var r := Flatten(history, message);
    assert history[..i + 1][..i] == history[..i];
    assert history[..|history|] == history;
    FlattenHistoryLength(history[..i]);
    FlattenHistoryLength(history[..i + 1]);
    FlattenHistoryLength(history);
    FlattenHistoryPrefix(history, i + 1);
    var p := FlattenHistory(history[..i + 1]);
    assert p == FlattenHistory(history[..i]) + TurnMessages(history[i]);
    assert r[..|p|] == p;
  }

  /** The first message is a user message, and every assistant message directly follows a user message. */
  predicate Alternates(ms: seq<Message>) {
    && (|ms| > 0 ==> ms[0].role == User)
    && forall j :: 0 < j < |ms| && ms[j].role == Assistant ==> ms[j - 1].role == User
  }

  lemma {:induction false} FlattenHistoryAlternates(history: seq<Turn>)
    ensures Alternates(FlattenHistory(history))
    decreases |history|
  {
    if history != [] {
      FlattenHistoryAlternates(history[..|history| - 1]);
    }
  }

  /** No two assistant messages are ever adjacent in a request. */
  lemma NoAdjacentAssistants(history: seq<Turn>, message: string)
    ensures Alternates(Flatten(history, message))
    ensures forall j :: 0 < j < |Flatten(history, message)| ==>
      !(Flatten(history, message)[j - 1].role == Assistant && Flatten(history, message)[j].role == Assistant)
  {
    FlattenHistoryAlternates(history);
  }

  /**
   * Reads a message list back as pairs, from the end: a user message ends a
   * pair with an empty second element, an assistant message ends a pair
   * together with the user message before it; anything else is not a list
   * the chatbot builds.
   */
  function ParseTurns(ms: seq<Message>): Option<seq<Turn>>
    decreases |ms|
  {
    if ms == [] then Some([])
    else
      var last := ms[|ms| - 1];
      if last.role == User then
        match ParseTurns(ms[..|ms| - 1])
        case None => None
        case Some(h) => Some(h + [Turn(last.content, "")])
      else if |ms| >= 2 && ms[|ms| - 2].role == User then
        match ParseTurns(ms[..|ms| - 2])
        case None => None
        case Some(h) => Some(h + [Turn(ms[|ms| - 2].content, last.content)])
      else None
  }

  /** Flattening loses nothing: the history can be read back from its messages. */
  lemma {:induction false} FlattenHistoryRoundTrip(history: seq<Turn>)
    ensures ParseTurns(FlattenHistory(history)) == Some(history)
    decreases |history|
  {
    if history != [] {
      var init, t := history[..|history| - 1], history[|history| - 1];
      FlattenHistoryRoundTrip(init);
      var ms := FlattenHistory(history);
      if t.bot == "" {
        assert ms[..|ms| - 1] == FlattenHistory(init);
      } else {
        assert ms[..|ms| - 2] == FlattenHistory(init);
      }
      assert init + [t] == history;
    }
  }

  /** Every assistant message carries text. */
  predicate AnswersNonEmpty(ms: seq<Message>) {
    forall j :: 0 <= j < |ms| && ms[j].role == Assistant ==> ms[j].content != ""
  }

  /**
   * Conversely, every message list that reads back as a history and has no
   * empty assistant message is the flattening of that history.
   */
  lemma {:induction false} ParseTurnsFlattens(ms: seq<Message>, history: seq<Turn>)
    requires ParseTurns(ms) == Some(history)
    requires AnswersNonEmpty(ms)
    ensures FlattenHistory(history) == ms
    decreases |ms|
  {
    if ms != [] {
      var last := ms[|ms| - 1];
      var k := if last.role == User then 1 else 2;
      var init := ms[..|ms| - k];
      var h := ParseTurns(init).value;
      var t := if k == 1 then Turn(last.content, "") else Turn(ms[|ms| - 2].content, last.content);
      assert history == h + [t];
      assert AnswersNonEmpty(init) by {
        forall j | 0 <= j < |init| && init[j].role == Assistant ensures init[j].content != "" {
          assert init[j] == ms[j];
        }
      }
      ParseTurnsFlattens(init, h);
      assert history[..|history| - 1] == h;
      assert TurnMessages(t) == ms[|ms| - k..];
      assert init + ms[|ms| - k..] == ms;
    }
  }

  /** A request's messages read back as the history followed by the new input as a pending pair. */
  lemma RequestReadsBack(history: seq<Turn>, message: string)
    ensures ParseTurns(Flatten(history, message)) == Some(history + [Turn(message, "")])
  {
    FlattenHistoryRoundTrip(history);
    var ms := Flatten(history, message);
    assert ms[..|ms| - 1] == FlattenHistory(history);
  }
}
