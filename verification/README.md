# Llama3 generator: prompt assembly and event protocol

A Dafny model of the answer-generation backend `Llama3Generator` of the Verba
retrieval-augmented chat pipeline. Two pieces are modelled:

- **Prompt assembly** (`prepare_messages`, module `Prompt`): a system message,
  the prior conversation copied through in order, and one user message built
  from a fixed template around the space-joined context passages and the
  space-joined queries. Python's `" ".join` is modelled in module `Text` as
  `Join`, with `Split` as its inverse.
- **The event protocol of `generate_stream`** (module `Llama3Generator`): the
  two configuration checks (`HUGGINGFACE_TOKEN`, `LLAMA3_MODEL_ID`), each of
  which yields a `"stop"` event when the value is empty or absent and then
  *falls through*; then the backend's outcome, which is either one event
  `{reply, ""}` or an exception that propagates with no event of its own.

The environment is a `map<string, string>` parameter in which an absent name
reads as `""`. The model loading and text-generation pipeline together are a
`Backend` parameter, a function from (model name, access token, messages) to an
`Outcome`: the generated transcript, or `Failure`. The reply is the content of
the transcript's last message. An empty transcript makes `[-1]` raise, and that
exception is re-raised like any other. The generator's `system_message` comes
from a base class that is not part of this model, so it is a string parameter.
A call's result is a `Stream`. It is `Completed(events)` when the generator is
exhausted normally, and `Raised(events)` when an exception reaches the caller
after `events` were yielded.

Two behaviours of the code are worth stating plainly:

- A configuration failure does not end the stream. Execution continues after
  each `"stop"` event, so both events can be emitted, and the backend's
  outcome always follows them (`StopDoesNotTerminate`, `BothMissingOrder`,
  `MissingTokenOnly`, `MissingModelOnly`). The missing values reach the
  backend as `""` (`Run`).
- Roles are plain strings. Each conversation entry's `type` is copied
  unchanged (line 144), although the docstring at line 134 speaks of only
  `system` and `user` roles.

## Model

| member | source | states |
|---|---|---|
| Text.Join | goldenverba/components/generation/Llama3Generator.py:146-147 | `" ".join`: an empty list joins to `""`; otherwise the length is the parts' total length plus one separator between each pair of neighbours, and the result starts with the first part |
| Text.Split | goldenverba/components/generation/Llama3Generator.py:146-147 | the inverse of joining with a one-character separator: always at least one piece, and no piece contains the separator |
| Text.JoinAppend | goldenverba/components/generation/Llama3Generator.py:146-147 | joining a concatenation of two non-empty lists is the two joins with one separator between them |
| Text.JoinContainsEach | goldenverba/components/generation/Llama3Generator.py:146-147 | every part occurs verbatim as a substring of the joined text |
| Text.SplitJoin | goldenverba/components/generation/Llama3Generator.py:146-147 | splitting a non-empty join gives back the parts when none of them contains the separator |
| Text.JoinSplit | goldenverba/components/generation/Llama3Generator.py:146-147 | joining the pieces of any split gives back the original string |
| Prompt.CopyTurns | goldenverba/components/generation/Llama3Generator.py:143-144 | the conversation loop yields one message per entry, in order, each with role = the entry's `type` and the same content |
| Prompt.PrepareMessages | goldenverba/components/generation/Llama3Generator.py:136-156 | exactly `|conversation| + 2` messages: first `{system, system_message}`, then entry `i` at position `i+1` unchanged, last a `user` message whose content is the context/query template |
| Prompt.ConversationRecoverable | goldenverba/components/generation/Llama3Generator.py:143-144 | the slice between the system and the user message reads back as exactly the input conversation |
| Prompt.UserPromptContainsInputs | goldenverba/components/generation/Llama3Generator.py:146-154 | every context passage and every query occurs verbatim in the final user message |
| Prompt.EmptyInputsPrompt | goldenverba/components/generation/Llama3Generator.py:146-152 | no queries and no passages give `With this provided context: '' Please answer this query: ''`, not an error |
| Prompt.SingleInputsPrompt | goldenverba/components/generation/Llama3Generator.py:136-156 | with one query, one passage and no history, the result is the system message and the template with both strings inserted unmodified |
| Prompt.QueriesRecoverable | goldenverba/components/generation/Llama3Generator.py:146 | the space-joined query text splits back into the queries when no query contains a space |
| Llama3Generator.EnvGet | goldenverba/components/generation/Llama3Generator.py:35-41 | `os.environ.get(key, "")`: a set name reads as its value, and the result is empty iff the name is absent or set to `""` |
| Llama3Generator.ConfigEvents | goldenverba/components/generation/Llama3Generator.py:35-46 | exactly one event per missing value; a missing-token event is present iff the token reads empty, a missing-model event iff the model id reads empty; the token event comes first; all of them are `"stop"` |
| Llama3Generator.Reply | goldenverba/components/generation/Llama3Generator.py:94 | a reply exists iff the backend produced a non-empty transcript, and it is the content of the transcript's last message |
| Llama3Generator.Messages | goldenverba/components/generation/Llama3Generator.py:76-78 | a `None` conversation is replaced by an empty one before assembly, giving two messages; a given conversation is assembled as is |
| Llama3Generator.Run | goldenverba/components/generation/Llama3Generator.py:56-93 | the backend is loaded with the configured model name and token, each `""` when missing because the checks do not stop the call, and run on the assembled messages |
| Llama3Generator.GenerateStream | goldenverba/components/generation/Llama3Generator.py:35-98 | the configuration events always form a prefix of the stream; the stream completes iff the backend replies, and then it has exactly one more event `{reply, ""}`; otherwise the exception follows the configuration events alone |
| Llama3Generator.StreamWellFormed | goldenverba/components/generation/Llama3Generator.py:35-98 | every stream has at most three events, every finish reason is `"stop"` or `""`, only the last event can be unfinished, and a raised stream holds only `"stop"` events |
| Llama3Generator.StopDoesNotTerminate | goldenverba/components/generation/Llama3Generator.py:35-98 | with the token missing and a replying backend, the stream starts with the `"stop"` event for the token and still ends with the unfinished event `{reply, ""}` carrying the backend's reply |
| Llama3Generator.BothMissingOrder | goldenverba/components/generation/Llama3Generator.py:35-46 | with both values missing, the first two events are the token event and then the model event |
| Llama3Generator.MissingTokenOnly | goldenverba/components/generation/Llama3Generator.py:35-98 | with only the token missing and a reply, the whole stream is the token's `"stop"` event followed by `{reply, ""}` |
| Llama3Generator.MissingModelOnly | goldenverba/components/generation/Llama3Generator.py:35-98 | with only the model id missing and a reply, the whole stream is the model's `"stop"` event followed by `{reply, ""}` |
| Llama3Generator.ValidConfigOnlyBackendEvents | goldenverba/components/generation/Llama3Generator.py:35-98 | with both values set, a raised stream is empty and a completed stream is one unfinished event |
| Llama3Generator.ValidConfigReply | goldenverba/components/generation/Llama3Generator.py:94-98 | with both values set and a reply, the whole stream is `[{reply, ""}]`, with no trailing `"stop"` |
| Llama3Generator.FailureEmitsNothing | goldenverba/components/generation/Llama3Generator.py:86-120 | a backend exception, or the `IndexError` of an empty transcript, is re-raised after the configuration events, with no event of its own |
| Llama3Generator.NoneConversationIsEmpty | goldenverba/components/generation/Llama3Generator.py:76-78 | a `None` conversation is assembled exactly as an empty one (two messages), so the stream is the same as for an empty conversation |

## Left out

- Model loading: the tokenizer and model loading, the 4-bit quantisation settings and the pipeline construction are calls into machine-learning libraries. They are folded into the `Backend` parameter, and any failure in them is a `Failure` outcome.
- Terminators: the end-of-sequence token ids are library internals, so they are not modelled.
- Sampling parameters: `max_new_tokens=256`, `do_sample`, `temperature=0.6` and `top_p=0.9` only affect what the backend generates, which is opaque here.
- The commented-out HTTP streaming and JSON-line parsing code is dead code.
- The asynchronous-generator mechanics are left out. Resuming, cancellation and blocking the event loop during inference are concurrency concerns. A call is modelled as its finite sequence of events plus how it ends.
- Reading `os.environ` is modelled as an explicit map parameter.
- Untyped inputs are not modelled. The conversation is a sequence of `ChatTurn` records, and queries and passages are strings. In the code, line 144 raises `AttributeError` for an entry without `type` or `content`. This includes any non-empty `dict`, the parameter's declared type, because iterating a dict yields its string keys. Lines 146-147 raise `TypeError` on a query or passage that is not a `str`. With typed inputs, assembly cannot fail.
- The order of loading and assembly: the model is loaded before the messages are assembled. With typed inputs, assembly cannot fail, so in the model the order is not observable and is not modelled.
- The backend is not constrained for an empty model name or token. In the code, `""` is passed to the model loader, which would almost certainly raise. The model still admits a backend that replies, so streams such as a `"stop"` event followed by a reply are allowed but unlikely in practice.
- Sampling randomness: generation samples (`do_sample=True`). A `Backend` value stands for one fixed draw of that randomness. So lemmas that compare two calls (`NoneConversationIsEmpty`) compare them under the same draw.
- The `Generator` base class is not part of this model, and its `system_message` is a parameter.
- The capability metadata (`name`, `description`, `requires_env`, `streamable`, `context_window = 8000`) has no behaviour: it is static data.
