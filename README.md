# openai-learning-companion — a Dafny model of its core

The repository is a small toolkit around a chat-completion HTTP API. This
project models and proves the parts of it that do more than forward calls:

- **`OpenAIClient`** (module `Client`, `client.dfy`). It resolves the API key
  from the argument or the environment and raises a configuration error when
  neither gives a non-empty key. It resolves the default model, token limit and
  temperature from the environment. It builds the request of `chat_completion`
  with Python's "falsy means absent" override selection. It turns every backend
  failure into a returned `"Error: ..."` string. `simple_completion` and
  `conversation` dispatch one-message and two-message transcripts. The vendor
  SDK is an arbitrary total function `Request -> Reply` passed to each call,
  so the same request always gets the same reply (see "Left out"). A `Reply` is either the list of
  choice texts or the text of a raised error.
- **`ChatBot`** (module `Chatbot`, `chatbot.dfy`). This is a class whose
  `history: seq<Message>` field is updated in place. The constructor seeds the
  history with an optional system message. `Chat` appends the user message,
  sends the whole transcript, then appends and returns the reply.
  `ResetConversation` cuts the history back to its leading system message.
  `Valid()` is the transcript shape every method keeps: an optional system
  message, then (user, assistant) pairs. The module also models the interactive
  loop over a given sequence of input lines, including its quit/reset/blank-line
  dispatch, and the conversation-memory demo.
- **The conversion script** (module `CreatePdf`, `create_pdf.dfy`). It covers
  the angle-bracket escaping of the document embedded in `<pre>…</pre>`, the
  loop that tries converters in order until one exits with 0, and the top
  level that builds the HTML fallback only when every converter failed.
  Shell commands are a given function from command line to outcome (an exit
  status or a raised exception).

`wrappers.dfy` holds the shared `Option` and `Result` datatypes.

The memory demo appends each question before calling the backend, so its
three calls send 2, 4 and 6 messages (`Chatbot.ConversationMemoryExample`).

## Model

| member | source | states |
|---|---|---|
| `Client.NewClient` | src/openai_client.py:19-33 | Fails with the "API key not found" error exactly when neither the argument nor OPENAI_API_KEY is truthy. A truthy argument wins whatever the environment holds; otherwise the environment's key is used. The key is never empty. DEFAULT_MODEL is used when set, even to "", and "gpt-3.5-turbo" only when it is unset. Token limit and temperature default to 1500 and 0.7 when unset. |
| `Client.BuildRequest` | src/openai_client.py:52-58 | The messages are forwarded unchanged. Each override is used when truthy. Otherwise the configured default is used, so an explicit "" model, 0 max tokens or 0.0 temperature falls back. |
| `Client.DefaultsWithoutOverrides` | src/openai_client.py:54-57 | With no overrides the request carries exactly the configured model, token limit and temperature. |
| `Client.ZeroOverridesFallBack` | src/openai_client.py:56-57 | An explicit max_tokens=0 and temperature=0.0 are replaced by the defaults. |
| `Client.ReplyText` | src/openai_client.py:59-61 | A reply with choices gives its first choice's text. A raised error gives "Error: " + its text. No choices gives Python's IndexError text after "Error: ". |
| `Client.ErrorsBecomePrefixedText` | src/openai_client.py:60-61 | Every failure reaches the caller as a string starting with "Error: ", never as an exception. |
| `Client.SuccessAndFailureConflated` | src/openai_client.py:59-61 | Success and failure share one channel: a genuine reply "Error: x" returns the same string as a failure with reason x. |
| `Client.ChatCompletion` | src/openai_client.py:35-61 | The backend receives the request built from exactly the given messages. The result is the first choice on success, "Error: " + reason on a raised error, and starts with "Error: " on any failure. |
| `Client.SimpleMessages` | src/openai_client.py:74 | The dispatched transcript is exactly one user message holding the prompt. |
| `Client.ConversationMessages` | src/openai_client.py:89-92 | The dispatched transcript is exactly the system message, then the user message. |
| `Client.SimpleCompletion` | src/openai_client.py:63-75 | The backend is sent [user prompt] with the caller's overrides passed on, and its reply is converted as in `chat_completion`. |
| `Client.Conversation` | src/openai_client.py:77-93 | The backend is sent [system prompt, user message], in that order, with the caller's overrides passed on. |
| `Chatbot.WellFormedAfterPair` | examples/chatbot.py:40-46 | Appending a user message and then an assistant message keeps the transcript shape. |
| `Chatbot.ResetHistory` | examples/chatbot.py:50-56 | The reset transcript is a prefix of the old one. It has at most one message, and that message is a system message. It is non-empty exactly when the old transcript started with a system message. It has the transcript shape. |
| `Chatbot.ResetIdempotent` | examples/chatbot.py:50-56 | Resetting twice equals resetting once. |
| `Chatbot.AfterTurnsShape` | examples/chatbot.py:29-48 | After n turns the transcript has grown by exactly 2n messages. The old transcript stays as a prefix. The k-th new user message is the k-th input, followed by an assistant message. The shape is kept. |
| `Chatbot.ChatBot.constructor` | examples/chatbot.py:16-27 | A truthy system prompt gives the history [system prompt]. None or "" gives []. |
| `Chatbot.ChatBot.Chat` | examples/chatbot.py:29-48 | The history becomes the old history plus {user, input} then {assistant, reply}. The reply returned is the one stored. It is the backend's answer to the old history followed by {user, input}. The shape invariant is kept. |
| `Chatbot.ChatBot.ResetConversation` | examples/chatbot.py:50-56 | The history becomes `ResetHistory` of the old history, and the invariant is kept. |
| `Chatbot.ConversationMemoryExample` | examples/chatbot.py:129-149 | Three turns from a system-prompted bot leave 7 messages. The k-th call is sent the first 1 + 2k messages plus the new question, and its reply is stored right after that question. |
| `Chatbot.TrimStartMeaning` | examples/chatbot.py:74 | Leading trimming removes a whitespace-only prefix and stops at a non-whitespace character. |
| `Chatbot.TrimEndMeaning` | examples/chatbot.py:74 | Trailing trimming removes a whitespace-only suffix and stops at a non-whitespace character. |
| `Chatbot.StripMeaning` | examples/chatbot.py:74 | `Strip`, the model of `str.strip()`, gives an empty line exactly when the line is all whitespace. Otherwise the result neither starts nor ends with whitespace. It is never longer than the line. |
| `Chatbot.LowerMeaning` | examples/chatbot.py:76-79 | `Lower`, the model of `str.lower()`, keeps the length and leaves no ASCII capital. Each capital becomes its small letter, and every other character is kept. |
| `Chatbot.Classify` | examples/chatbot.py:74-84 | A line quits or resets exactly when its stripped text is "quit" or "reset" in any case. It is skipped exactly when it is all whitespace. Otherwise it is sent as its non-empty stripped text, with its case kept. |
| `Chatbot.SaidTurns` | examples/chatbot.py:72-89 | At most one chat turn is sent per input line. |
| `Chatbot.SaidTurnsAreChatInput` | examples/chatbot.py:74-87 | No chat turn ever carries a quit, reset or blank line. Every turn is non-empty and has no surrounding whitespace. |
| `Chatbot.NothingSentAfterQuit` | examples/chatbot.py:76-78 | Once a line quits, no later line is sent. |
| `Chatbot.Session` | examples/chatbot.py:72-89 | Every transcript the loop goes through keeps the ChatBot shape. |
| `Chatbot.SessionReplies` | examples/chatbot.py:86-88 | The loop prints exactly one reply per chat turn it sends. |
| `Chatbot.QuitStep` | examples/chatbot.py:76-78 | A quit line ends the session: no turn is sent, no reply printed, and the transcript is left as it is. |
| `Chatbot.ResetStep` | examples/chatbot.py:79-82 | A reset line resets the transcript and sends nothing. |
| `Chatbot.SkipStep` | examples/chatbot.py:83-84 | A blank line changes nothing and sends nothing. |
| `Chatbot.SayStep` | examples/chatbot.py:86-88 | Any other line performs exactly one chat turn with its stripped text. The reply of that turn is printed. |
| `Chatbot.SessionWithoutReset` | examples/chatbot.py:72-89 | Without a reset line, the final transcript is the starting one followed by one chat turn per sent input, in order. |
| `Chatbot.SessionSoFarStep` | examples/chatbot.py:74-88 | Handling one more line keeps the turns sent, the replies printed and the transcript on course for the whole session. |
| `Chatbot.SessionSoFarEnd` | examples/chatbot.py:72-78 | When the loop stops at a quit line or at the end of input, it has sent, printed and stored exactly what the whole session defines. |
| `Chatbot.RunSession` | examples/chatbot.py:72-89 | From any valid bot, the loop sends exactly the turns `SaidTurns` selects. It prints the replies `SessionReplies` defines, one per turn. The bot's transcript becomes the one `Session` defines. The bot stays valid. |
| `Chatbot.InteractiveChat` | examples/chatbot.py:58-95 | The loop runs on a bot seeded with the session's system prompt. It sends exactly the turns `SaidTurns` selects and prints one reply per turn, as `SessionReplies` defines. Its final transcript is the one `Session` defines, and it has the ChatBot shape. |
| `CreatePdf.ChainedReplaceIsPerChar` | create_pdf.py:77 | The two chained replacements equal the character-by-character escaping. Each '<' becomes "&lt;", each '>' becomes "&gt;", and every other character is kept in order. |
| `CreatePdf.Escape` | create_pdf.py:77 | The escaped text is the character-by-character escaping. It contains no '<' and no '>'. Its length is the original length plus 3 per angle bracket. |
| `CreatePdf.EscapeKeepsPlainText` | create_pdf.py:77 | Text without angle brackets is embedded unchanged. |
| `CreatePdf.EscapeNotInjective` | create_pdf.py:77 | '&' is not escaped, so "<" and "&lt;" both escape to "&lt;". |
| `CreatePdf.EscapeInjectiveWithoutAmpersand` | create_pdf.py:77 | On text without '&', different texts escape differently. |
| `CreatePdf.PreBlockKeepsContentInside` | create_pdf.py:77 | In the `<pre>` block, the escaped text sits between the tags. The only '<' characters are those of the block's own opening and closing tags. |
| `CreatePdf.FirstSuccess` | create_pdf.py:27-37 | The index found is that of a command exiting with 0, and no earlier command did. None means no command exits with 0. |
| `CreatePdf.TryInOrder` | create_pdf.py:27-46 | Commands run in list order. The loop succeeds exactly when some command exits with 0, and it stops right after the first such command. Otherwise it runs every command and fails; raised exceptions count as failures. |
| `CreatePdf.ConvertToPdf` | create_pdf.py:10-46 | The script's three converters are tried in their order. Conversion stops right after the first converter that exits with 0: on success, the converters run are exactly those up to and including the first success, and the last one run exited with 0. Failure means all three were run and none exited with 0. |
| `CreatePdf.ProduceSubmission` | create_pdf.py:93-107 | A missing input stops before any converter runs. Otherwise the HTML fallback, holding the escaped document in a `<pre>` block, is produced exactly when PDF conversion failed. The converters run stop at the first success, or are all three when every one failed. |

## Left out

- The vendor SDK (`OpenAI(...)`, `chat.completions.create`), `load_dotenv` and the network are not modelled. The backend is an arbitrary total function from request to reply. A reply whose message content is `None` is not modelled.
- Parsing MAX_TOKENS and TEMPERATURE with `int(...)` and `float(...)` is left out, including the `ValueError` a malformed value raises. The environment supplies already-parsed numbers.
- Chatbot.InteractiveChat: the backend is deterministic. A request sent again, for example the same question asked again after a reset, is modelled as getting the same reply, and so are the replies of `Chatbot.ChatBot.Chat`, `Chatbot.SessionReplies` and `Chatbot.ConversationMemoryExample`. A real endpoint samples (temperature 0.7 by default) and need not give the same reply twice.
- Temperature is a `real`: no floating-point arithmetic is modelled, only the "is it 0.0" test behind `temperature or default`.
- Client.NewClient: the source's client is an object whose fields are set once in `__init__` and never changed. It is modelled as an immutable `Config` value returned in a `Result`, because a Dafny constructor cannot fail.
- Chatbot.ChatBot.constructor: it takes an already resolved `Config`. The configuration error the source's `ChatBot()` can raise while building its client is modelled by `Client.NewClient` alone.
- Chatbot.InteractiveChat: input is a finite sequence of lines, and the loop ends when they run out. In the source, end of input makes `input()` raise `EOFError`. The loop's `except Exception` catches it, prints it and reads again, so the source never leaves the loop this way. The model does not capture that endless loop, nor `KeyboardInterrupt`, nor the printing.
- Chatbot.Lower: only ASCII letters are lowered. For the comparisons with "quit" and "reset" this is exact. Python's full `lower()` maps no non-ASCII character to one of the ASCII letters of those words without adding a non-ASCII character. `strip()` follows Python's complete whitespace set.
- `specialized_chatbot_examples`, the menu `main` functions and the whole of examples/text_generation.py are not modelled: they only build clients and issue fixed calls already covered by `Chat`, `SimpleCompletion` and `Conversation`. text_generation.py is not part of this model.
- create_pdf.py: `os.path.exists`, reading the Markdown file, writing the HTML file, the HTML template around the `<pre>` block (including its CSS), the printed messages and the failure of `create_html_version` when reading the document or writing the page fails (it then returns False and produces no HTML) are not modelled.
