/**
 * What the chatbot exchanges with the local Ollama server, and the two pure
 * decisions it takes on the server's answers: which model names to list
 * (get_ollama_models) and which text becomes the bot's reply
 * (chat_with_ollama). The HTTP calls themselves are not modelled: their
 * outcomes are the inputs of these functions.
 */
module Ollama {
  import opened Wrappers
  import opened Text

  /** The two roles the chatbot sends: "user" and "assistant". */
  datatype Role = User | Assistant

  /** One element of the `messages` list of a chat request. */
  datatype Message = Message(role: Role, content: string)

  /** The JSON body of the POST to /api/chat. */
  datatype ChatRequest = ChatRequest(model: string, messages: seq<Message>, stream: bool)

  /**
   * The decoded body of a chat answer. `BadJson` is any body on which
   * `response.json().get("message", {}).get("content", ...)` raises, with the
   * exception's text; `ChatJson` carries `message.content` when it is there.
   */
  datatype ChatBody = BadJson(error: string) | ChatJson(content: Option<string>)

  /** What the POST produced: an exception with its text, or an HTTP answer. */
  datatype ChatOutcome =
    | Raised(error: string)
    | Answered(status: nat, text: string, body: ChatBody)

  /** The fallback reply when a 200 answer carries no `message.content`. */
  const NoResponse: string := "Sorry, I couldn't generate a response."

  const ErrorPrefix: string := "Error: "
  const ConnectionErrorPrefix: string := "Connection error: "

  /** The text shown for an exception raised inside the request block. */
  function ConnectionError(error: string): (r: string)
    ensures |r| == |ConnectionErrorPrefix| + |error|
    ensures r[..|ConnectionErrorPrefix|] == ConnectionErrorPrefix && r[|ConnectionErrorPrefix|..] == error
  {
    ConnectionErrorPrefix + error
  }

  /** The text shown for an answer whose status is not 200: `f"Error: {code} - {text}"`. */
  function StatusError(status: nat, text: string): (r: string)
    ensures |r| == |ErrorPrefix| + |Decimal(status)| + 3 + |text|
    ensures r[..|ErrorPrefix|] == ErrorPrefix
    ensures r[|ErrorPrefix|..|ErrorPrefix| + |Decimal(status)|] == Decimal(status)
    ensures r[|ErrorPrefix| + |Decimal(status)|..] == " - " + text
  {
    ErrorPrefix + Decimal(status) + " - " + text
  }

  /** The bot's reply for a request outcome. */
  function Reply(outcome: ChatOutcome): (r: string)
    ensures outcome.Raised? ==> r == ConnectionError(outcome.error)
    ensures outcome.Answered? && outcome.status == 200 ==>
      match outcome.body
      case BadJson(e) => r == ConnectionError(e)
      case ChatJson(None) => r == NoResponse
      case ChatJson(Some(c)) => r == c
    ensures outcome.Answered? && outcome.status != 200 ==> r == StatusError(outcome.status, outcome.text)
  {
    match outcome
    case Raised(e) => ConnectionError(e)
    case Answered(status, text, body) =>
      if status == 200 then
        match body
        case BadJson(e) => ConnectionError(e)
        case ChatJson(content) => if content.Some? then content.value else NoResponse
      else StatusError(status, text)
  }

  /** The status code can be read back from the error reply to any non-200 answer. */
  lemma StatusErrorNamesStatus(status: nat, text: string, body: ChatBody)
    requires status != 200
    ensures var r := Reply(Answered(status, text, body));
      var digits := r[|ErrorPrefix|..|ErrorPrefix| + |Decimal(status)|];
      && (forall i :: 0 <= i < |digits| ==> IsDigit(digits[i]))
      && DigitsValue(digits) == status
  {
    var r := Reply(Answered(status, text, body));
    assert r[|ErrorPrefix|..|ErrorPrefix| + |Decimal(status)|] == Decimal(status);
    DecimalRoundTrip(status);
  }

  /** A mocked 404 answer gives a reply that shows the code 404 and the body. */
  lemma NotFoundReply(text: string)
    ensures Reply(Answered(404, text, ChatJson(None))) == "Error: 404 - " + text
  {
    assert Decimal(404) == "404" by {
      assert Decimal(4) == "4";
      assert Decimal(40) == "40";
    }
  }

  /**
   * One entry of the `models` list. `name` is absent when the entry is not a
   * JSON object or has no "name" key, which makes `model["name"]` raise.
   */
  datatype ModelEntry = ModelEntry(name: Option<string>)

  /**
   * The decoded body of a /api/tags answer. `BadTags` is any body on which
   * `response.json().get("models", [])` raises; `TagsJson` carries the
   * `models` list when the key is there.
   */
  datatype TagsBody = BadTags | TagsJson(models: Option<seq<ModelEntry>>)

  /** What the GET produced: an exception, or an HTTP answer. */
  datatype TagsOutcome = TagsFailed | TagsAnswered(status: nat, body: TagsBody)

  /** Every entry of the listing has a name. */
  predicate AllNamed(entries: seq<ModelEntry>) {
    forall i :: 0 <= i < |entries| ==> entries[i].name.Some?
  }

  /**
   * `[model["name"] for model in models]`: the names in listing order, or
   * `None` when an entry without a name makes the comprehension raise.
   */
  function EntryNames(entries: seq<ModelEntry>): (r: Option<seq<string>>)
    ensures r.Some? <==> AllNamed(entries)
    ensures r.Some? ==> |r.value| == |entries|
    ensures r.Some? ==> forall i :: 0 <= i < |entries| ==> r.value[i] == entries[i].name.value
  {
    if entries == [] then Some([])
    else if entries[0].name.None? then None
    else match EntryNames(entries[1..])
      case None => None
      case Some(rest) => Some([entries[0].name.value] + rest)
  }

  /** The model names get_ollama_models returns: every failure gives the empty list. */
  function ModelNames(outcome: TagsOutcome): (r: seq<string>)
    ensures (outcome.TagsFailed? || outcome.status != 200 || outcome.body.BadTags?) ==> r == []
    ensures outcome.TagsAnswered? && outcome.status == 200 && outcome.body.TagsJson? ==>
      match outcome.body.models
      case None => r == []
      case Some(entries) =>
        && (!AllNamed(entries) ==> r == [])
        && (AllNamed(entries) ==>
              && |r| == |entries|
              && forall i :: 0 <= i < |entries| ==> r[i] == entries[i].name.value)
  {
    match outcome
    case TagsFailed => []
    case TagsAnswered(status, body) =>
      if status != 200 then []
      else match body
        case BadTags => []
        case TagsJson(models) =>
          var entries := if models.Some? then models.value else [];
          match EntryNames(entries)
          case None => []
          case Some(names) => names
  }
}
