/**
 * Prompt assembly of the Llama3 generator (`prepare_messages`): a system
 * message, the prior conversation copied through, and one templated user
 * message carrying the retrieved context and the queries.
 */
module Prompt {
  import opened Text

  /** A role-tagged chat message handed to the text-generation backend. */
  datatype Message = Message(role: string, content: string)

  /**
   * One entry of the prior conversation, as the caller supplies it: an object
   * whose `type` attribute names the speaker and whose `content` is the text.
   */
  datatype ChatTurn = ChatTurn(kind: string, content: string)

  const SystemRole: string := "system"
  const UserRole: string := "user"

  /** The fixed pieces of the user-message template. */
  const ContextLead: string := "With this provided context: '"
  const QueryLead: string := "' Please answer this query: '"
  const Closing: string := "'"

  /** Queries and context passages are each joined with one space. */
  const Space: string := " "

  /** A conversation entry as a backend message: `type` becomes the role. */
  function FromTurn(t: ChatTurn): Message
  {
    Message(t.kind, t.content)
  }

  /** A backend message read back as a conversation entry. */
  function ToTurn(m: Message): ChatTurn
  {
    ChatTurn(m.role, m.content)
  }

  /** The content of the final user message. */
  function UserPrompt(queries: seq<string>, context: seq<string>): string
  {
    ContextLead + Join(context, Space) + QueryLead + Join(queries, Space) + Closing
  }

  /** The `for message in conversation: messages.append(...)` loop, in order. */
  function CopyTurns(conversation: seq<ChatTurn>): (r: seq<Message>)
    ensures |r| == |conversation|
    ensures forall i :: 0 <= i < |r| ==> r[i] == FromTurn(conversation[i])
  {
    if |conversation| == 0 then []
    else CopyTurns(conversation[..|conversation| - 1]) + [FromTurn(conversation[|conversation| - 1])]
  }

  /** Reads the conversation entries back out of a run of messages. */
  function ToTurns(ms: seq<Message>): (r: seq<ChatTurn>)
    ensures |r| == |ms|
    ensures forall i :: 0 <= i < |r| ==> r[i] == ToTurn(ms[i])
  {
    if |ms| == 0 then [] else [ToTurn(ms[0])] + ToTurns(ms[1..])
  }

  /**
   * `prepare_messages(queries, context, conversation)` with the generator's
   * system message: one system message, the conversation in order, and the
   * templated user message; nothing is truncated or reordered.
   */
  function PrepareMessages(systemMessage: string, queries: seq<string>, context: seq<string>,
                           conversation: seq<ChatTurn>): (r: seq<Message>)
    ensures |r| == |conversation| + 2
    ensures r[0] == Message(SystemRole, systemMessage)
    ensures forall i :: 0 <= i < |conversation| ==> r[i + 1] == FromTurn(conversation[i])
    ensures r[|r| - 1].role == UserRole
    ensures r[|r| - 1].content == UserPrompt(queries, context)
  {
    [Message(SystemRole, systemMessage)]
      + CopyTurns(conversation)
      + [Message(UserRole, UserPrompt(queries, context))]
  }

  /** The middle slice of the assembled messages gives back the conversation. */
  lemma ConversationRecoverable(systemMessage: string, queries: seq<string>, context: seq<string>,
                                conversation: seq<ChatTurn>)
    ensures var r := PrepareMessages(systemMessage, queries, context, conversation);
            ToTurns(r[1..|r| - 1]) == conversation
  {
  }

  /** Every passage and every query appears verbatim in the user message. */
  lemma UserPromptContainsInputs(queries: seq<string>, context: seq<string>)
    ensures forall i :: 0 <= i < |context| ==> Occurs(context[i], UserPrompt(queries, context))
    ensures forall i :: 0 <= i < |queries| ==> Occurs(queries[i], UserPrompt(queries, context))
  {
    var p := UserPrompt(queries, context);
    var jc := Join(context, Space);
    var jq := Join(queries, Space);
    var cOff := |ContextLead|;
    var qOff := |ContextLead| + |jc| + |QueryLead|;
    assert p[cOff..cOff + |jc|] == jc;
    assert p[qOff..qOff + |jq|] == jq;
    forall i | 0 <= i < |context|
      ensures Occurs(context[i], p)
    {
      JoinContainsEach(context, Space, i);
      var k :| OccursAt(context[i], jc, k);
      assert p[cOff + k..cOff + k + |context[i]|] == jc[k..k + |context[i]|];
      assert OccursAt(context[i], p, cOff + k);
    }
    forall i | 0 <= i < |queries|
      ensures Occurs(queries[i], p)
    {
      JoinContainsEach(queries, Space, i);
      var k :| OccursAt(queries[i], jq, k);
      assert p[qOff + k..qOff + k + |queries[i]|] == jq[k..k + |queries[i]|];
      assert OccursAt(queries[i], p, qOff + k);
    }
  }

  /** No queries and no passages still give a well-formed, empty-quoted prompt. */
  lemma EmptyInputsPrompt(systemMessage: string, conversation: seq<ChatTurn>)
    ensures var r := PrepareMessages(systemMessage, [], [], conversation);
            r[|r| - 1] == Message(UserRole, "With this provided context: '' Please answer this query: ''")
  {
  }

  /** A single query and a single passage are placed in the template unchanged. */
  lemma SingleInputsPrompt(systemMessage: string, query: string, passage: string)
    ensures PrepareMessages(systemMessage, [query], [passage], [])
            == [Message(SystemRole, systemMessage),
                Message(UserRole, "With this provided context: '" + passage
                                  + "' Please answer this query: '" + query + "'")]
  {
  }

  /** The space-joined query text splits back into the queries when none contains a space. */
  lemma QueriesRecoverable(queries: seq<string>)
    requires |queries| > 0
    requires forall i :: 0 <= i < |queries| ==> ' ' !in queries[i]
    ensures Split(Join(queries, Space), ' ') == queries
  {
    SplitJoin(queries, ' ');
  }
}
