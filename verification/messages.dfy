/** Chat messages and the `add_messages` merge rule that the `messages`
    field of every workflow state uses. */
module Messages {

  import opened Wrappers

  datatype Role = Human | Ai | Tool | System

  /** A chat message: who produced it, its text, and the optional tool name
      a `ToolMessage` carries. */
  datatype Message = Message(role: Role, content: string, name: Option<string>)

  function HumanMessage(content: string): Message {
    Message(Human, content, None)
  }

  function AiMessage(content: string): Message {
    Message(Ai, content, None)
  }

  function ToolMessage(content: string, name: string): Message {
    Message(Tool, content, Some(name))
  }

  /** The contents of a message list, in order. */
  function Contents(msgs: seq<Message>): (cs: seq<string>)
    ensures |cs| == |msgs|
    ensures forall i :: 0 <= i < |msgs| ==> cs[i] == msgs[i].content
  {
    if |msgs| == 0 then [] else [msgs[0].content] + Contents(msgs[1..])
  }

  /** The `messages` reducer: the update's messages go after the existing
      ones, in the order given. */
  function AddMessages(existing: seq<Message>, update: seq<Message>): (merged: seq<Message>)
    ensures |merged| == |existing| + |update|
    ensures merged[..|existing|] == existing
    ensures merged[|existing|..] == update
  {
    existing + update
  }

  /** An empty update leaves the list as it was. */
  lemma AddNothing(existing: seq<Message>)
    ensures AddMessages(existing, []) == existing
  {
    assert existing + [] == existing;
  }

  /** Two successive merges equal one merge of the concatenated updates, so a
      whole run folds into one conceptual merge. */
  lemma AddMessagesAssociative(existing: seq<Message>, a: seq<Message>, b: seq<Message>)
    ensures AddMessages(AddMessages(existing, a), b) == AddMessages(existing, a + b)
  {
    assert existing + a + b == existing + (a + b);
  }

  /** Contents of a concatenation are the concatenated contents. */
  lemma {:induction false} ContentsAppend(a: seq<Message>, b: seq<Message>)
    ensures Contents(a + b) == Contents(a) + Contents(b)
    decreases |a|
  {
    if |a| > 0 {
      assert (a + b)[1..] == a[1..] + b;
      ContentsAppend(a[1..], b);
    } else {
      assert a + b == b;
    }
  }
}
