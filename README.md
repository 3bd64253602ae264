# Ollama chatbot: conversation handling

This project models the conversation-handling core of a small web chat front end
(`chatbot.py`). The front end forwards user messages to a local Ollama inference
server and shows the exchange in a chat widget. The model covers these pieces:

- the list of available model names that `get_ollama_models` extracts from the
  server's `/api/tags` answer (module `Ollama`);
- the reply text `chat_with_ollama` chooses from the outcome of its `/api/chat`
  request: the content, a fixed fallback, an HTTP error text or a connection-error
  text (module `Ollama`);
- the loop that flattens the displayed history of `(first, second)` pairs into the
  role-tagged `messages` list of the request (module `Conversation`). It is modelled
  as a method with a loop, proved equal to a recursive specification. The
  specification comes with its length, its order, its alternation, and a parser
  that reads the history back from it;
- `chat_with_ollama` itself: the blank-model guard, the request and the history it
  returns (module `Chatbot`);
- the two event handlers `submit_message` and `clear_chat` (module `Chatbot`).

The network is an input. The chat server is a function parameter from the request
the chatbot would send (`ChatRequest`) to what the POST produced (`ChatOutcome`).
So "no request is built when the model name is blank" is stated as "the result does
not depend on the server". Python's `str.strip()` and the f-string rendering of the
status code are written out in module `Text`.

## Model

| member | source | states |
|---|---|---|
| `Text.TrimStart` | chatbot.py:18 | the leading part `strip()` removes is all whitespace, and what remains is a suffix that does not start with whitespace |
| `Text.TrimEnd` | chatbot.py:18 | the trailing part `strip()` removes is all whitespace, and what remains is a prefix that does not end with whitespace |
| `Text.BlankIffAllWhitespace` | chatbot.py:18 | `not s.strip()` holds exactly when every character of `s` is whitespace, in both directions |
| `Text.Decimal` | chatbot.py:43 | the f-string text of a status code is a non-empty run of digits with no leading zero |
| `Text.DecimalRoundTrip` | chatbot.py:43 | reading the digits back gives the status code: the rendering loses nothing |
| `Ollama.ConnectionError` | chatbot.py:44-45 | an exception's reply is `"Connection error: "` followed by exactly the exception text |
| `Ollama.StatusError` | chatbot.py:43 | a non-200 reply starts with `"Error: "`, then the code's digits, and ends with `" - "` and the response body |
| `Ollama.Reply` | chatbot.py:40-45 | an exception or an undecodable 200 body gives the connection-error text; a 200 with `message.content` gives that content; a 200 without it gives the fixed fallback; any other status gives the status error text |
| `Ollama.StatusErrorNamesStatus` | chatbot.py:42-43 | for every non-200 status and every body, the reply holds the status as decimal digits right after `"Error: "`, and they read back as that status |
| `Ollama.NotFoundReply` | chatbot.py:42-43 | a 404 answer gives exactly `"Error: 404 - "` followed by the body |
| `Ollama.EntryNames` | chatbot.py:11 | the comprehension gives a list exactly when every entry has a name; the list has one name per entry, in listing order |
| `Ollama.ModelNames` | chatbot.py:5-14 | a 200 listing gives exactly the entries' names in order; a failure, another status, an undecodable body, a missing `models` key or an entry without a name gives the empty list |
| `Conversation.Flatten` | chatbot.py:23-28 | the request has `len(history)` + (pairs with a non-empty second element) + 1 messages, and the last is the user message holding the new input |
| `Conversation.BuildMessages` | chatbot.py:23-28 | the in-place loop builds exactly the flattened history followed by the new input as a user message |
| `Conversation.FlattenHistoryLength` | chatbot.py:24-27 | each pair contributes one message, plus one more when its second element is non-empty |
| `Conversation.FlattenHistoryPrefix` | chatbot.py:24-27 | the messages of the first `i` pairs are a prefix of the messages of all pairs |
| `Conversation.FlattenOrder` | chatbot.py:24-28 | pair `i` starts at offset `i` + (answered pairs before it) with its user message; its assistant message follows right after when present; pair `i+1` starts after both; the new input comes after every pair |
| `Conversation.FlattenHistoryAlternates` | chatbot.py:24-27 | the flattened history starts with a user message, and every assistant message directly follows a user message |
| `Conversation.NoAdjacentAssistants` | chatbot.py:23-28 | no two assistant messages are adjacent in a request |
| `Conversation.FlattenHistoryRoundTrip` | chatbot.py:24-27 | parsing the flattened history gives back the history exactly, including pairs with an empty second element |
| `Conversation.ParseTurnsFlattens` | chatbot.py:24-27 | every message list that parses as a history and has no empty assistant message is the flattening of that history |
| `Conversation.RequestReadsBack` | chatbot.py:23-28 | a request's messages parse as the history followed by the new input as a pending pair |
| `Chatbot.Request` | chatbot.py:31-38 | the request carries the model name, `stream: false` and exactly the flattened messages, which parse back as the history plus the pending input |
| `Chatbot.Chat` | chatbot.py:16-49 | the result keeps the history as an exact prefix, is exactly two entries longer, and the new entries are `("You", message)` and a `"Bot"` entry; with a blank model name the bot text is the fixed prompt, otherwise it is the reply to the request built from the history and the message |
| `Chatbot.BlankModelSendsNothing` | chatbot.py:18-19 | with a blank model name the result is the history plus `("You", message)` and `("Bot", "Please select a model first.")`, whatever the server would answer |
| `Chatbot.ChatWithOllama` | chatbot.py:16-49 | the guard, the message-building loop, the single request and the reply give exactly the history of `Chat` |
| `Chatbot.SubmitMessage` | chatbot.py:132-136 | a blank message returns history and message unchanged; otherwise the new history from `chat_with_ollama` and an empty input box |
| `Chatbot.ClearChat` | chatbot.py:138-139 | clearing gives the empty history |
| `Chatbot.SubmitExtendsHistory` | chatbot.py:132-136 | a submit keeps the history as a prefix; it adds two entries exactly when the message is not blank, and none otherwise |
| `Chatbot.ClearChatWellPaired` | chatbot.py:138-139 | the cleared history has the "You"/"Bot" pairing shape |
| `Chatbot.SubmitKeepsPairing` | chatbot.py:132-136 | from a history of alternating "You"/"Bot" entries, a submit leaves a history of that shape |
| `Chatbot.NextRequestMislabels` | chatbot.py:48 | after a chat turn, the next request sends `"You"` as a user message, the user's own message as an assistant message, then `"Bot"` as a user message |
| `Chatbot.WhatsUpAsWritten` | chatbot.py:48 | with a server that answers "hello", sending "What's up?" gives the pairs ("You", "What's up?") and ("Bot", "hello"), not the single pair ("What's up?", "hello") |
| `Chatbot.ChatIntended` | chatbot.py:48 | the corrected turn append: exactly one new pair, holding the message and its reply (the fixed prompt for a blank model name, otherwise the reply to the request) |
| `Chatbot.NextRequestIntended` | chatbot.py:48 | after the corrected append, the next request carries the message as the user's, the reply as the assistant's when non-empty, then the next input; it parses back as history, exchange and pending input |

## Left out

- The HTTP calls, the fixed localhost endpoints and JSON decoding (chatbot.py:8, chatbot.py:31-38) are network I/O. Their outcomes are inputs: `TagsOutcome` for the GET and `ChatOutcome` for the POST.
- The text of `str(e)` and of `response.text` is foreign formatting. Both are opaque strings carried in the outcome.
- A 200 chat body on which the `.get` chain raises (invalid JSON, or `message` not an object) is caught by the same `except` and gives the connection-error text. It is modelled as `BadJson` with the exception's text; which bodies raise is not modelled.
- A `message.content` that is not a string (a number, `null`) would become the reply as is. The model carries `content` as a string.
- A model entry that is not a JSON object, or has no `"name"` key, makes the comprehension raise, which the bare `except` turns into the empty list. The model has one case, "no name", for both. Names are modelled as strings only: an entry whose `"name"` is present but not a string (`null`, a number) would be returned as is, and is outside the model.
- Status codes are modelled as natural numbers. HTTP status codes are never negative, so the sign case of the f-string is not modelled.
- Python's `str.isspace()` is modelled by its fixed character list. That list is the one Python's `strip()` uses.
- The bare `except:` in `get_ollama_models` also catches interpreter signals such as `KeyboardInterrupt`. The model only has one failure outcome.
- The Gradio interface, CSS, the list of available models shown on the page, the event wiring and `launch` (chatbot.py:51-163 apart from the two handler bodies) are UI framework glue.
- A second entry point that shows the user's turn before the reply arrives is not part of this model.
- `Chatbot.SubmitMessage` and `Chatbot.ChatWithOllama` follow the code as written, with two appended pairs. The corrected `Chatbot.ChatIntended` is proved alongside them and is not wired into the handlers.

## Findings

| source | as written | input that shows it | evidently intended | confidence | as-written member | corrected member |
|---|---|---|---|---|---|---|
| chatbot.py:48 | the turn is appended as two pairs, `("You", message)` and `("Bot", bot_response)`. The history is a list of (user, bot) pairs, so on the next call the flattening loop sends `"You"` as a user message and the user's earlier message as an assistant message | message "What's up?", empty history, model "llama2", a server answering "hello": the history becomes [("You", "What's up?"), ("Bot", "hello")]. The next request's messages are user "You", assistant "What's up?", user "Bot", assistant "hello", then the new input | one pair `(message, bot_response)` per exchange, so the next request carries the message as the user's and the reply as the assistant's | high, not executed | `Chatbot.Chat`, `Chatbot.NextRequestMislabels`, `Chatbot.WhatsUpAsWritten` | `Chatbot.ChatIntended`, `Chatbot.NextRequestIntended` |
