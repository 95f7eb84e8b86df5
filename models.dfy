/**
 * The stored entities of the backend: a message and a conversation, with
 * the conversions that feed a conversation's history to the language model.
 */
module Models {
  import opened Wrappers

  /** A stored message; `id` is None until the database assigns one. */
  datatype Message = Message(id: Option<int>, conversationId: Option<int>, role: string, content: string)

  /** The `{"role": …, "content": …}` dictionary handed to the language model. */
  datatype Entry = Entry(role: string, content: string)

  /** `Message.to_dict`: keeps the role and the content, drops both identifiers. */
  function ToDict(m: Message): (r: Entry)
    ensures r.role == m.role && r.content == m.content
  {
    Entry(m.role, m.content)
  }

  /** Two messages give the same dictionary exactly when their roles and contents agree; identifiers play no part. */
  lemma ToDictKeepsRoleAndContent(m: Message, n: Message)
    ensures ToDict(m) == ToDict(n) <==> m.role == n.role && m.content == n.content
    ensures ToDict(m) == ToDict(m.(id := n.id, conversationId := n.conversationId))
  {
  }

  /** The dictionaries of a run of messages, one per message and in order. */
  function Dicts(ms: seq<Message>): (r: seq<Entry>)
    ensures |r| == |ms|
    ensures forall k :: 0 <= k < |ms| ==> r[k] == Entry(ms[k].role, ms[k].content)
  {
    if ms == [] then [] else [ToDict(ms[0])] + Dicts(ms[1..])
  }

  lemma {:induction false} DictsAppend(a: seq<Message>, b: seq<Message>)
    ensures Dicts(a + b) == Dicts(a) + Dicts(b)
  {
    if a == [] {
      assert a + b == b;
    } else {
      assert (a + b)[1..] == a[1..] + b;
      DictsAppend(a[1..], b);
    }
  }

  /** A stored conversation: its owner never changes, its messages grow. */
  class Conversation {
    const id: int
    const userId: int
    var messages: seq<Message>

    constructor(id: int, userId: int)
      ensures this.id == id && this.userId == userId && messages == []
    {
      this.id := id;
      this.userId := userId;
      messages := [];
    }

    /** `Conversation.to_list`: the history as the language model reads it. */
    function ToList(): (r: seq<Entry>)
      reads this
      ensures |r| == |messages|
      ensures forall k :: 0 <= k < |messages| ==> r[k].role == messages[k].role && r[k].content == messages[k].content
    {
      Dicts(messages)
    }
  }
}
