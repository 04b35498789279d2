# Streamlit Replicate chatbot — conversation core in Dafny

The chat script keeps a conversation of `{role, content}` messages in the
Streamlit session state. It seeds the conversation with the assistant
greeting "Stel mij een vraag." and resets it to that greeting on request.
A run in which a non-empty text is submitted while the chat input is enabled
appends that text as a user message. A run whose last message is the user's
renders the whole conversation as ChatML-style pieces
(`<|im_start|>role\ncontent<|im_end|>`), closes the list with an open
assistant marker and an empty piece, and joins it with newlines. A prompt of
3072 tokens or more stops the run before the remote model is contacted.
Otherwise the fragments streamed back by Replicate are concatenated and
appended as the assistant's answer. The sidebar checks
the shape of a hand-entered API token (`r8_` and 40 characters) and pins the
gemma model to one version.

Files and modules:

- `text.dfy`, module `Text`: the Python string operations the script uses.
  These are `str.startswith`, `"\n".join`, and the concatenation of streamed
  fragments into the text `st.write_stream` returns. `EndsWith` is a
  specification predicate in which the ending of the prompt is stated.
- `settings.dfy`, module `Settings`: the token shape check and the model-id
  resolution.
- `generation.dfy`, module `Generation`: `genereer_antwoord`. It holds the
  message and request types, the rendering, the prompt-building loop, the
  token gate and the consumption of the stream.
- `conversation.dfy`, module `Conversation`: the session state as a class
  `Session` whose `messages` field the methods replace or append to. Pure
  step functions specify what one run does, and lemmas prove the run's
  properties about them.
- `wrappers.dfy`, module `Wrappers`: `Option`, for an absent chat input.

Outside the model:

- The tokenizer is the parameter `countTokens: string -> nat`. The real
  tokenizer (`AutoTokenizer` for `huggyllama/llama-7b`) cannot be seen.
- The remote model is the parameter `remote: Request -> seq<string>`. It is
  the finite list of fragments Replicate streams back for a request, after
  `str(event)` has been applied to each.
- Temperature and top_p are passed through as `real` values.

Behaviour worth knowing:

- The chat input is disabled only when the API token is empty
  (`disabled=not replicate_api`, streamlit_replicate.py:96). A non-empty
  token of the wrong shape only produces a warning (lines 17-19) and still
  lets messages through (`Conversation.ShapeTestDoesNotGateChat`).
- A run that stopped at the token ceiling leaves the user's message in the
  conversation. The next run then finds a user message last and tries to
  generate again, even without new input. `RespondStep` models this.
- Roles are a two-valued datatype. Every message the script stores has role
  `user` or `assistant`, and the source renders every role other than `user`
  with the `assistant` tag, so nothing is lost.

## Model

| member | source | states |
|---|---|---|
| `Text.StartsWith` | streamlit_replicate.py:17 | `startswith` holds exactly when the prefix fits and the string's first characters are the prefix |
| `Text.Join` | streamlit_replicate.py:77 | `"\n".join`: the pieces in order with the separator between neighbours; `""` for no pieces, the piece itself for one |
| `Text.Concat` | streamlit_replicate.py:105 | the text `st.write_stream` returns: every fragment in order with nothing in between |
| `Text.JoinSnoc` | streamlit_replicate.py:77 | joining one more piece adds the separator and that piece at the end |
| `Text.JoinClosedBy` | streamlit_replicate.py:75-77 | closing the list with a piece and an empty piece appends separator, piece, separator, so the joined text ends with them |
| `Text.ConcatSnoc` | streamlit_replicate.py:105 | concatenating one more fragment appends it to the text so far |
| `Settings.IsWellFormedToken` | streamlit_replicate.py:17 | a token passes exactly when it is 40 characters long and begins with `r`, `8`, `_` |
| `Settings.WellFormedTokenIsPrefixPlus37` | streamlit_replicate.py:17 | a token passes exactly when it is `r8_` followed by some 37 characters |
| `Settings.ResolveModel` | streamlit_replicate.py:28-29 | the gemma name maps to its pinned versioned id, every other name to itself, and the id begins with the chosen name |
| `Settings.ResolveModelIsStable` | streamlit_replicate.py:28-29 | resolving an already resolved id changes nothing |
| `Settings.ModelChoicesResolveDistinctly` | streamlit_replicate.py:23-29 | any two different entries of the selection box, in its order, resolve to different ids |
| `Generation.Render` | streamlit_replicate.py:69-72 | a message as `<|im_start|>`, the tag `user` for a user message and `assistant` for any other, a newline, the content, then `<|im_end|>` |
| `Generation.RenderRoundTrip` | streamlit_replicate.py:70-73 | a rendered message reads back to the same role and the exact content |
| `Generation.RenderAllSnoc` | streamlit_replicate.py:69-73 | rendering one more message adds exactly its piece at the end |
| `Generation.RenderAll` | streamlit_replicate.py:69-73 | one rendered piece per message, at the message's own position |
| `Generation.PromptPieces` | streamlit_replicate.py:68-76 | the piece list has `|messages| + 2` entries: each message rendered in order, then `<|im_start|>assistant`, then `""` |
| `Generation.BuildPromptPieces` | streamlit_replicate.py:68-76 | the loop, which renders a user message under the user head and every other under the assistant head, produces exactly the specified piece list |
| `Generation.PromptText` | streamlit_replicate.py:77 | `prompt_str`: the prompt pieces joined with newlines |
| `Generation.PromptTextOfNoMessages` | streamlit_replicate.py:75-77 | with no messages the prompt is `<|im_start|>assistant` and a newline |
| `Generation.PromptTextEnding` | streamlit_replicate.py:75-77 | the prompt is the rendered messages joined by newlines, then `\n<|im_start|>assistant\n`, so it ends with that text |
| `Generation.Generate` | streamlit_replicate.py:67-93 | the prompt is refused exactly when its token count is at least 3072, and then no request exists; otherwise the request carries the built prompt, the model id, the template and the sampling values, and the fragments are the remote's answer to it |
| `Generation.WriteStream` | streamlit_replicate.py:105 | `st.write_stream(response)` consumes the fragments the generator yields one by one and returns their concatenation |
| `Conversation.ShapeTestDoesNotGateChat` | streamlit_replicate.py:16-19 | every non-empty token enables the chat input, well-formed or not, and a malformed non-empty token exists |
| `Conversation.ChatEnabled` | streamlit_replicate.py:96 | `disabled=not replicate_api`: the chat input is on exactly when the token is non-empty |
| `Conversation.Submits` | streamlit_replicate.py:96 | the `if prompt := st.chat_input(..)` guard: the input is enabled and holds a non-empty text |
| `Conversation.AfterSubmit` | streamlit_replicate.py:96-97 | the earlier messages are kept and at most one is added; one is added exactly when the input is enabled and the text non-empty, and it is that text under the user role; a well-formed conversation stays well formed |
| `Conversation.RequestFor` | streamlit_replicate.py:84-91 | the request of `replicate.stream`: the model id, `prompt_str`, the `{prompt}` template, the temperature and top_p |
| `Conversation.RespondStep` | streamlit_replicate.py:102-107 | earlier messages are kept; no reply is needed exactly when the assistant spoke last; the run stops exactly when the user spoke last and the prompt has at least 3072 tokens, and reports that count; an answer is appended exactly when the user spoke last and the prompt is under the ceiling, and it is the concatenation of the remote's fragments |
| `Conversation.TurnStep` | streamlit_replicate.py:96-107 | one run: the chat input is handled first, then the answering step runs with the resolved model id |
| `Conversation.TurnKeepsWellFormed` | streamlit_replicate.py:96-107 | a run keeps the conversation non-empty and opening with the greeting |
| `Conversation.SuccessfulTurn` | streamlit_replicate.py:96-107 | a run that submits and stays under the ceiling grows the conversation by two: the user text, then the concatenated answer, with every earlier message unchanged |
| `Conversation.TooLongIgnoresRemote` | streamlit_replicate.py:79-84 | at or above the ceiling the outcome does not depend on the remote at all and no message is appended |
| `Conversation.SubmittedMessageClosesPrompt` | streamlit_replicate.py:69-77 | the prompt of a run that just submitted ends with that message under the user tag, then the open assistant marker |
| `Conversation.IdleRunChangesNothing` | streamlit_replicate.py:96-102 | a run with nothing submitted after an answered turn leaves everything as it was |
| `Conversation.Session.constructor` | streamlit_replicate.py:42-43 | seeding produces the single assistant greeting |
| `Conversation.Session.Reset` | streamlit_replicate.py:50-51 | reset leaves exactly one message, the assistant greeting |
| `Conversation.Session.Submit` | streamlit_replicate.py:96-97 | the chat input appends the user message exactly when it is enabled and non-empty |
| `Conversation.Session.Respond` | streamlit_replicate.py:102-107 | answering the session changes it as `RespondStep` says and keeps it well formed |
| `Conversation.Session.Turn` | streamlit_replicate.py:96-107 | one run changes the session as `TurnStep` says and keeps it well formed |

## Left out

- The Streamlit interface: sidebar, titles, the history display loop, chat bubbles, warnings, errors and buttons. They only present state. `st.stop` is modelled as ending the run with nothing appended.
- The network call `replicate.stream`: it is the `remote` parameter. A failing stream is not modelled, because the source does not handle it.
- The tokenizer load and its caching with `st.cache_resource`: the count is the `countTokens` parameter.
- Reading `st.secrets` and writing `os.environ`: configuration input and output. The model takes the token as a parameter.
- The temperature and top_p sliders and their warnings: floating-point values that the widget itself clamps.
- Incremental display of fragments by `st.write_stream`: only the full text it returns is modelled.
