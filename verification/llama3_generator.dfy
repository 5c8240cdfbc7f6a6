/**
 * The event protocol of the Llama3 generator's `generate_stream`, with the
 * environment, the loaded model and its text-generation pipeline passed in.
 *
 * The two configuration checks each emit a "stop" event but do not return:
 * execution falls through to the backend, whose outcome is appended after
 * them. A successful backend call emits one event with an empty finish
 * reason; a backend exception emits nothing and propagates.
 */
module Llama3Generator {
  import opened Wrappers
  import opened Prompt

  /** The process environment: a name is either set to a value or absent. */
  type Env = map<string, string>

  const TokenKey: string := "HUGGINGFACE_TOKEN"
  const ModelKey: string := "LLAMA3_MODEL_ID"

  /** `os.environ.get(key, "")`: an absent name reads as the empty string. */
  function EnvGet(env: Env, key: string): (r: string)
    ensures key in env ==> r == env[key]
    ensures r == "" <==> key !in env || env[key] == ""
  {
    if key in env then env[key] else ""
  }

  /** A configuration value counts as missing when it reads as empty. */
  predicate Missing(env: Env, key: string)
  {
    EnvGet(env, key) == ""
  }

  /** One `{message, finish_reason}` record yielded to the caller. */
  datatype Event = Event(message: string, finishReason: string)

  const Stop: string := "stop"
  const NotFinished: string := ""

  const MissingTokenEvent: Event := Event("Missing Hugging Face Token", Stop)
  const MissingModelEvent: Event := Event("Missing Llama3 Model", Stop)

  /**
   * What the model loading and the text-generation pipeline produce together:
   * the generated conversation (whose last entry is the assistant's reply),
   * or an exception raised anywhere on the way.
   */
  datatype Outcome = Generated(transcript: seq<Message>) | Failure

  /** Loads the model named by its first argument with the token in its second and runs it on the messages. */
  type Backend = (string, string, seq<Message>) -> Outcome

  /**
   * How a call ends: the stream is exhausted normally, or an exception
   * propagates to the caller after the events already yielded.
   */
  datatype Stream = Completed(events: seq<Event>) | Raised(events: seq<Event>)

  /** The events the two configuration checks yield, token check first. */
  function ConfigEvents(env: Env): (r: seq<Event>)
    ensures |r| == (if Missing(env, TokenKey) then 1 else 0) + (if Missing(env, ModelKey) then 1 else 0)
    ensures MissingTokenEvent in r <==> Missing(env, TokenKey)
    ensures MissingModelEvent in r <==> Missing(env, ModelKey)
    ensures Missing(env, TokenKey) ==> r[0] == MissingTokenEvent
    ensures Missing(env, ModelKey) ==> r[|r| - 1] == MissingModelEvent
    ensures forall i :: 0 <= i < |r| ==> r[i].finishReason == Stop
  {
    (if Missing(env, TokenKey) then [MissingTokenEvent] else [])
      + (if Missing(env, ModelKey) then [MissingModelEvent] else [])
  }

  /**
   * `outputs[0]["generated_text"][-1]["content"]`: the reply is the content
   * of the last generated message; an empty transcript raises an IndexError,
   * which the surrounding `except Exception: raise` re-raises.
   */
  function Reply(o: Outcome): (r: Option<string>)
    ensures r.Some? <==> o.Generated? && |o.transcript| > 0
    ensures r.Some? ==> r.value == o.transcript[|o.transcript| - 1].content
  {
    match o
    case Failure => None
    case Generated(t) => if |t| == 0 then None else Some(t[|t| - 1].content)
  }

  /** The messages the backend is run on: a `None` conversation becomes empty. */
  function Messages(systemMessage: string, queries: seq<string>, context: seq<string>,
                    conversation: Option<seq<ChatTurn>>): (r: seq<Message>)
    ensures conversation.None? ==> r == PrepareMessages(systemMessage, queries, context, [])
    ensures conversation.Some? ==> r == PrepareMessages(systemMessage, queries, context, conversation.value)
    ensures |r| == 2 + (if conversation.Some? then |conversation.value| else 0)
  {
    PrepareMessages(systemMessage, queries, context, conversation.GetOr([]))
  }

  /**
   * What the backend produces for this call. The configuration checks do not
   * stop the call, so a missing model name or token reaches the backend as "".
   */
  function Run(env: Env, systemMessage: string, queries: seq<string>, context: seq<string>,
               conversation: Option<seq<ChatTurn>>, backend: Backend): (r: Outcome)
    ensures Missing(env, ModelKey) && Missing(env, TokenKey)
            ==> r == backend("", "", Messages(systemMessage, queries, context, conversation))
    ensures !Missing(env, ModelKey) && !Missing(env, TokenKey)
            ==> r == backend(env[ModelKey], env[TokenKey], Messages(systemMessage, queries, context, conversation))
    ensures Missing(env, ModelKey) && !Missing(env, TokenKey)
            ==> r == backend("", env[TokenKey], Messages(systemMessage, queries, context, conversation))
    ensures !Missing(env, ModelKey) && Missing(env, TokenKey)
            ==> r == backend(env[ModelKey], "", Messages(systemMessage, queries, context, conversation))
  {
    backend(EnvGet(env, ModelKey), EnvGet(env, TokenKey),
            Messages(systemMessage, queries, context, conversation))
  }

  /**
   * `generate_stream(queries, context, conversation)`: the configuration
   * events come first and do not end the call; then the backend's reply is
   * yielded as one unfinished event, or its failure propagates.
   */
  function GenerateStream(env: Env, systemMessage: string, queries: seq<string>, context: seq<string>,
                          conversation: Option<seq<ChatTurn>>, backend: Backend): (r: Stream)
    ensures var cfg := ConfigEvents(env);
            |cfg| <= |r.events| && r.events[..|cfg|] == cfg
    ensures r.Completed? <==> Reply(Run(env, systemMessage, queries, context, conversation, backend)).Some?
    ensures r.Raised? ==> r.events == ConfigEvents(env)
    ensures r.Completed? ==>
              && |r.events| == |ConfigEvents(env)| + 1
              && r.events[|r.events| - 1]
                 == Event(Reply(Run(env, systemMessage, queries, context, conversation, backend)).value, NotFinished)
  {
    var cfg := ConfigEvents(env);
    match Reply(Run(env, systemMessage, queries, context, conversation, backend))
    case None => Raised(cfg)
    case Some(answer) => Completed(cfg + [Event(answer, NotFinished)])
  }

  /**
   * The shape every call's events have: each finish reason is "stop" or
   * empty, only the last event may be unfinished, and an exception follows
   * only "stop" events.
   */
  predicate WellFormed(s: Stream)
  {
    && (forall i :: 0 <= i < |s.events| ==>
          s.events[i].finishReason == Stop || s.events[i].finishReason == NotFinished)
    && (forall i :: 0 <= i < |s.events| - 1 ==> s.events[i].finishReason == Stop)
    && (s.Raised? ==> forall i :: 0 <= i < |s.events| ==> s.events[i].finishReason == Stop)
  }

  /** Every call yields a well-formed stream of at most three events. */
  lemma StreamWellFormed(env: Env, systemMessage: string, queries: seq<string>, context: seq<string>,
                         conversation: Option<seq<ChatTurn>>, backend: Backend)
    ensures var r := GenerateStream(env, systemMessage, queries, context, conversation, backend);
            WellFormed(r) && |r.events| <= 3
  {
  }

  /**
   * A missing configuration value does not end the stream: with the token
   * missing and a backend that replies, a "stop" event is followed by the reply.
   */
  lemma StopDoesNotTerminate(env: Env, systemMessage: string, queries: seq<string>, context: seq<string>,
                             conversation: Option<seq<ChatTurn>>, backend: Backend)
    requires Missing(env, TokenKey)
    requires Reply(Run(env, systemMessage, queries, context, conversation, backend)).Some?
    ensures var r := GenerateStream(env, systemMessage, queries, context, conversation, backend);
            && |r.events| >= 2
            && r.events[0] == MissingTokenEvent
            && r.events[|r.events| - 1]
               == Event(Reply(Run(env, systemMessage, queries, context, conversation, backend)).value, NotFinished)
  {
  }

  /** Both values missing: the token event, then the model event, then the backend's outcome. */
  lemma BothMissingOrder(env: Env, systemMessage: string, queries: seq<string>, context: seq<string>,
                         conversation: Option<seq<ChatTurn>>, backend: Backend)
    requires Missing(env, TokenKey) && Missing(env, ModelKey)
    ensures var r := GenerateStream(env, systemMessage, queries, context, conversation, backend);
            r.events[..2] == [MissingTokenEvent, MissingModelEvent]
  {
  }

  /** With both values set, the only events come from the backend. */
  lemma ValidConfigOnlyBackendEvents(env: Env, systemMessage: string, queries: seq<string>, context: seq<string>,
                                     conversation: Option<seq<ChatTurn>>, backend: Backend)
    requires !Missing(env, TokenKey) && !Missing(env, ModelKey)
    ensures var r := GenerateStream(env, systemMessage, queries, context, conversation, backend);
            && (r.Raised? ==> r.events == [])
            && (r.Completed? ==> |r.events| == 1 && r.events[0].finishReason == NotFinished)
  {
  }

  /** Only the token missing: one "stop" event for it, then the backend's reply. */
  lemma MissingTokenOnly(env: Env, systemMessage: string, queries: seq<string>, context: seq<string>,
                         conversation: Option<seq<ChatTurn>>, backend: Backend, answer: string)
    requires Missing(env, TokenKey) && !Missing(env, ModelKey)
    requires Reply(Run(env, systemMessage, queries, context, conversation, backend)) == Some(answer)
    ensures GenerateStream(env, systemMessage, queries, context, conversation, backend)
            == Completed([MissingTokenEvent, Event(answer, NotFinished)])
  {
  }

  /** Only the model id missing: one "stop" event for it, then the backend's reply. */
  lemma MissingModelOnly(env: Env, systemMessage: string, queries: seq<string>, context: seq<string>,
                         conversation: Option<seq<ChatTurn>>, backend: Backend, answer: string)
    requires !Missing(env, TokenKey) && Missing(env, ModelKey)
    requires Reply(Run(env, systemMessage, queries, context, conversation, backend)) == Some(answer)
    ensures GenerateStream(env, systemMessage, queries, context, conversation, backend)
            == Completed([MissingModelEvent, Event(answer, NotFinished)])
  {
  }

  /** With both values set, a reply becomes the whole stream: one unfinished event, no trailing "stop". */
  lemma ValidConfigReply(env: Env, systemMessage: string, queries: seq<string>, context: seq<string>,
                         conversation: Option<seq<ChatTurn>>, backend: Backend, answer: string)
    requires !Missing(env, TokenKey) && !Missing(env, ModelKey)
    requires Reply(Run(env, systemMessage, queries, context, conversation, backend)) == Some(answer)
    ensures GenerateStream(env, systemMessage, queries, context, conversation, backend)
            == Completed([Event(answer, NotFinished)])
  {
  }

  /** A backend failure, or an empty transcript, adds no event: the caller sees only the configuration events, then the exception. */
  lemma FailureEmitsNothing(env: Env, systemMessage: string, queries: seq<string>, context: seq<string>,
                            conversation: Option<seq<ChatTurn>>, backend: Backend)
    requires Reply(Run(env, systemMessage, queries, context, conversation, backend)).None?
    ensures GenerateStream(env, systemMessage, queries, context, conversation, backend)
            == Raised(ConfigEvents(env))
  {
  }

  /** A `None` conversation behaves exactly as an empty one. */
  lemma NoneConversationIsEmpty(env: Env, systemMessage: string, queries: seq<string>, context: seq<string>,
                                backend: Backend)
    ensures GenerateStream(env, systemMessage, queries, context, None, backend)
            == GenerateStream(env, systemMessage, queries, context, Some([]), backend)
    ensures Messages(systemMessage, queries, context, None)
            == Messages(systemMessage, queries, context, Some([]))
    ensures |Messages(systemMessage, queries, context, None)| == 2
  {
  }
}
