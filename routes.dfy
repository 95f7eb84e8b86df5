/**
 * The backend endpoints that the chat stream depends on: creating a
 * conversation, listing a user's conversations, listing a conversation's
 * messages and, above all, `chat`'s generator, which streams the language
 * model's fragments as NDJSON records and then stores the exchange.
 *
 * The session's `user_id` is a parameter (None when the session has none);
 * the language model's answer is a `Completion` parameter.
 */
module Routes {
  import opened Wrappers
  import JsonText
  import opened Models

  datatype HttpError = HttpError(status: int, detail: string)

  const Unauthorized := HttpError(403, "Unauthorized")
  const NotFound := HttpError(404, "Conversation not found.")
  const InternalError := HttpError(500, "Internal Server Error")
  const LlmError := HttpError(500, "Error processing chat message")

  const SystemPrompt := "You are a helpful assistant."

  /** The owner check of every endpoint: the stored owner must equal the session's user. */
  predicate Owns(owner: int, session: Option<int>): (r: bool)
    ensures session.None? ==> !r
    ensures r ==> session.value == owner
  {
    session == Some(owner)
  }

  /** The system prompt, the stored history, then the new user message. */
  function BuildPrompt(history: seq<Message>, content: string): (r: seq<Entry>)
    ensures |r| == |history| + 2
    ensures r[0] == Entry("system", SystemPrompt) && r[|r| - 1] == Entry("user", content)
    ensures r[1..|r| - 1] == Dicts(history)
  {
    [Entry("system", SystemPrompt)] + Dicts(history) + [Entry("user", content)]
  }

  /**
   * What the language model does with the request: the creation call fails
   * with an OpenAIError, or it streams deltas (None for a chunk without
   * content) and, if `broken`, fails while iterating after the last of them.
   */
  datatype Completion = CreateFailed | Streamed(deltas: seq<Option<string>>, broken: bool)

  function ContentRecord(fragment: string): seq<JsonText.Member> {
    [("type", "content"), ("data", fragment)]
  }

  const EndRecord: seq<JsonText.Member> := [("type", "end"), ("data", "")]

  /** The text the generator accumulates in `llmmessage`. */
  function Accumulate(deltas: seq<Option<string>>): (r: string)
    ensures ContentRecords(deltas) == [] ==> r == ""
  {
    if deltas == [] then ""
    else (if deltas[0].Some? then deltas[0].value else "") + Accumulate(deltas[1..])
  }

  /** One content record per delta that has content, in order. */
  function ContentRecords(deltas: seq<Option<string>>): (r: seq<seq<JsonText.Member>>)
    ensures |r| <= |deltas|
    ensures forall k :: 0 <= k < |r| ==> exists f :: r[k] == ContentRecord(f)
  {
    if deltas == [] then []
    else (if deltas[0].Some? then [ContentRecord(deltas[0].value)] else []) + ContentRecords(deltas[1..])
  }

  /** The generator's two accumulations, over a stream cut in two, are those of the parts joined. */
  lemma AccumulateAppend(a: seq<Option<string>>, b: seq<Option<string>>)
    ensures Accumulate(a + b) == Accumulate(a) + Accumulate(b)
    ensures ContentRecords(a + b) == ContentRecords(a) + ContentRecords(b)
  {
    TextAppend(a, b);
    RecordsAppend(a, b);
  }

  lemma {:induction false} TextAppend(a: seq<Option<string>>, b: seq<Option<string>>)
    ensures Accumulate(a + b) == Accumulate(a) + Accumulate(b)
  {
    if a == [] {
      assert a + b == b;
    } else {
      assert (a + b)[1..] == a[1..] + b;
      TextAppend(a[1..], b);
    }
  }

  lemma {:induction false} RecordsAppend(a: seq<Option<string>>, b: seq<Option<string>>)
    ensures ContentRecords(a + b) == ContentRecords(a) + ContentRecords(b)
  {
    if a == [] {
      assert a + b == b;
    } else {
      assert (a + b)[1..] == a[1..] + b;
      RecordsAppend(a[1..], b);
    }
  }

  /** A delta without content adds neither text nor a record. */
  lemma NoContentIsInert(deltas: seq<Option<string>>)
    ensures Accumulate(deltas + [None]) == Accumulate(deltas)
    ensures ContentRecords(deltas + [None]) == ContentRecords(deltas)
  {
    AccumulateAppend(deltas, [None]);
  }

  /**
   * A completed stream carries exactly one end record, and it is the last:
   * no content record is an end record.
   */
  lemma EndOnceAndLast(deltas: seq<Option<string>>)
    ensures var records := ContentRecords(deltas) + [EndRecord];
            records[|records| - 1] == EndRecord
            && forall k :: 0 <= k < |records| - 1 ==> records[k] != EndRecord
  {
    var records := ContentRecords(deltas) + [EndRecord];
    forall k | 0 <= k < |records| - 1 ensures records[k] != EndRecord {
      assert records[k] == ContentRecords(deltas)[k];
      var f :| records[k] == ContentRecord(f);
      assert records[k][0] != EndRecord[0];
    }
  }

  /** `get_conversation_messages`' guard: a trailing user message is dropped. */
  function TrimTrailingUser(ms: seq<Message>): (r: seq<Message>)
    ensures r == ms || (ms != [] && ms[|ms| - 1].role == "user" && r == ms[..|ms| - 1])
    ensures ms != [] && ms[|ms| - 1].role == "user" ==> |r| == |ms| - 1
  {
    if |ms| > 0 && ms[|ms| - 1].role == "user" then ms[..|ms| - 1] else ms
  }

  /** No two user messages in a row: the condition the inference backend needs. */
  predicate NoConsecutiveUsers(ms: seq<Message>) {
    forall k :: 0 < k < |ms| ==> !(ms[k - 1].role == "user" && ms[k].role == "user")
  }

  /**
   * A list without two consecutive user messages no longer ends with a user
   * message once trimmed, so the frontend cannot append a second one.
   */
  lemma TrimmedEndsWithoutUser(ms: seq<Message>)
    requires NoConsecutiveUsers(ms)
    ensures var r := TrimTrailingUser(ms); r == [] || r[|r| - 1].role != "user"
    ensures NoConsecutiveUsers(TrimTrailingUser(ms))
  {
    var r := TrimTrailingUser(ms);
    if r != [] && r != ms {
      assert r[|r| - 1] == ms[|ms| - 2];
    }
  }

  /** Histories stored only by `chat` with user messages: user, assistant, user, assistant, … */
  predicate Alternating(ms: seq<Message>) {
    |ms| % 2 == 0
    && forall k :: 0 <= k < |ms| ==> ms[k].role == (if k % 2 == 0 then "user" else "assistant")
  }

  lemma AlternatingAppend(ms: seq<Message>, u: Message, a: Message)
    requires Alternating(ms) && u.role == "user" && a.role == "assistant"
    ensures Alternating(ms + [u, a])
  {
  }

  /** An alternating history is returned whole: the trim never fires on it. */
  lemma AlternatingNotTrimmed(ms: seq<Message>)
    requires Alternating(ms)
    ensures TrimTrailingUser(ms) == ms && NoConsecutiveUsers(ms)
  {
    if ms != [] {
      assert ms[|ms| - 1].role == "assistant";
    }
  }

  /** The conversations table: conversation `i + 1` is stored at index `i`. */
  class Database {
    var conversations: seq<Conversation>

    predicate Valid()
      reads this
    {
      forall i :: 0 <= i < |conversations| ==> conversations[i].id == i + 1
    }

    constructor()
      ensures Valid() && conversations == []
    {
      conversations := [];
    }

    /** `db.get(Conversation, id)`. */
    function Get(id: int): (r: Option<Conversation>)
      requires Valid()
      reads this
      ensures r.Some? <==> exists i :: 0 <= i < |conversations| && conversations[i].id == id
      ensures r.Some? ==> r.value in conversations && r.value.id == id
    {
      if 1 <= id <= |conversations| then Some(conversations[id - 1]) else None
    }

    /** `select(Conversation).where(Conversation.user_id == user_id)`, in storage order. */
    static function OwnedBy(cs: seq<Conversation>, userId: int): (r: seq<Conversation>)
      ensures |r| <= |cs|
      ensures forall k :: 0 <= k < |r| ==> r[k] in cs && r[k].userId == userId
      ensures forall k :: 0 <= k < |cs| && cs[k].userId == userId ==> cs[k] in r
    {
      if cs == [] then []
      else (if cs[0].userId == userId then [cs[0]] else []) + OwnedBy(cs[1..], userId)
    }

    /**
     * The listing keeps storage order and multiplicity: storing one more
     * conversation extends it by that conversation exactly when the user
     * owns it.
     */
    static lemma {:induction false} OwnedByAppend(cs: seq<Conversation>, c: Conversation, userId: int)
      ensures OwnedBy(cs + [c], userId) == OwnedBy(cs, userId) + (if c.userId == userId then [c] else [])
    {
      if cs == [] {
        assert [c][1..] == [];
      } else {
        assert (cs + [c])[1..] == cs[1..] + [c];
        OwnedByAppend(cs[1..], c, userId);
      }
    }

    /** `new_conversation`: only for the session's own user; a user without id cannot own one. */
    method NewConversation(userId: Option<int>, session: Option<int>) returns (r: Result<Conversation, HttpError>)
      requires Valid()
      modifies this
      ensures Valid()
      ensures userId != session ==> r == Err(Unauthorized) && conversations == old(conversations)
      ensures userId == session && userId.None? ==> r == Err(InternalError) && conversations == old(conversations)
      ensures userId == session && userId.Some? ==>
                r.Ok? && fresh(r.value) && conversations == old(conversations) + [r.value]
                && r.value.id == |old(conversations)| + 1 && r.value.userId == userId.value && r.value.messages == []
    {
      if userId != session {
        return Err(Unauthorized);
      }
      if userId.None? {
        // Storing a conversation without an owner fails in the database.
        return Err(InternalError);
      }
      var c := new Conversation(|conversations| + 1, userId.value);
      conversations := conversations + [c];
      return Ok(c);
    }

    /** `get_conversations`: the session's own conversations, in storage order. */
    method GetConversations(userId: int, session: Option<int>) returns (r: Result<seq<Conversation>, HttpError>)
      ensures !Owns(userId, session) ==> r == Err(Unauthorized)
      ensures Owns(userId, session) ==> r == Ok(OwnedBy(conversations, userId))
    {
      if !Owns(userId, session) {
        return Err(Unauthorized);
      }
      return Ok(OwnedBy(conversations, userId));
    }

    /** `get_conversation_messages`: 404, 403, else the stored messages minus a trailing user message. */
    method GetConversationMessages(conversationId: int, session: Option<int>) returns (r: Result<seq<Message>, HttpError>)
      requires Valid()
      ensures Get(conversationId).None? ==> r == Err(NotFound)
      ensures Get(conversationId).Some? && !Owns(Get(conversationId).value.userId, session) ==> r == Err(Unauthorized)
      ensures Get(conversationId).Some? && Owns(Get(conversationId).value.userId, session) ==>
                r == Ok(TrimTrailingUser(Get(conversationId).value.messages))
    {
      var conversation := Get(conversationId);
      if conversation.None? {
        return Err(NotFound);
      }
      if !Owns(conversation.value.userId, session) {
        return Err(Unauthorized);
      }
      var messages := conversation.value.messages;
      if |messages| > 0 && messages[|messages| - 1].role == "user" {
        messages := messages[..|messages| - 1];
      }
      return Ok(messages);
    }

    /**
     * `chat`'s generator, run to its end: the checks, the prompt sent to the
     * language model, the records yielded (each sent as its line
     * `Ndjson.Line(record)`), the HTTPException raised if any,
     * and what is stored. The user message is stored only together with the
     * whole answer, after the end record.
     */
    method Chat(usermessage: Message, session: Option<int>, completion: Completion)
      returns (prompt: Option<seq<Entry>>, yielded: seq<seq<JsonText.Member>>, raised: Option<HttpError>)
      requires Valid()
      modifies conversations
      ensures Valid()
      ensures usermessage.conversationId.None? ==>
                raised == Some(InternalError) && prompt == None && yielded == []
      ensures usermessage.conversationId.Some? && Get(usermessage.conversationId.value).None? ==>
                raised == Some(NotFound) && prompt == None && yielded == []
      ensures usermessage.conversationId.Some? && Get(usermessage.conversationId.value).Some? ==>
                var c := Get(usermessage.conversationId.value).value;
                (!Owns(c.userId, session) ==> raised == Some(Unauthorized) && prompt == None && yielded == [])
                && (Owns(c.userId, session) ==>
                      prompt == Some(BuildPrompt(old(c.messages), usermessage.content))
                      && (completion.CreateFailed? ==> raised == Some(LlmError) && yielded == [])
                      && (completion.Streamed? && completion.broken ==>
                            raised == Some(InternalError) && yielded == ContentRecords(completion.deltas))
                      && (completion.Streamed? && !completion.broken ==>
                            raised == None
                            && yielded == ContentRecords(completion.deltas) + [EndRecord]
                            && c.messages == old(c.messages) + [usermessage, Message(None, Some(c.id), "assistant", Accumulate(completion.deltas))]))
      ensures forall d :: d in conversations ==>
                d.messages == old(d.messages) || (raised == None && Some(d.id) == usermessage.conversationId)
    {
      prompt, yielded, raised := None, [], None;
      if usermessage.conversationId.None? {
        // `int(None)` raises a TypeError, reported as a 500.
        raised := Some(InternalError);
        return;
      }
      var found := Get(usermessage.conversationId.value);
      if found.None? {
        raised := Some(NotFound);
        return;
      }
      var conversation := found.value;
      if !Owns(conversation.userId, session) {
        raised := Some(Unauthorized);
        return;
      }
      prompt := Some(BuildPrompt(conversation.messages, usermessage.content));
      if completion.CreateFailed? {
        raised := Some(LlmError);
        return;
      }
      var deltas := completion.deltas;
      var llmmessage;
      llmmessage, yielded := StreamDeltas(deltas);
      if completion.broken {
        // The exception escapes the loop; nothing is stored.
        raised := Some(InternalError);
        return;
      }
      yielded := yielded + [EndRecord];
      conversation.messages := conversation.messages + [usermessage];
      conversation.messages := conversation.messages + [Message(None, Some(conversation.id), "assistant", llmmessage)];
    }
  }

  /**
   * The generator's `for chunk in completion` loop: each delta with content
   * is added to `llmmessage` and yielded as a content record.
   */
  method StreamDeltas(deltas: seq<Option<string>>) returns (llmmessage: string, yielded: seq<seq<JsonText.Member>>)
    ensures llmmessage == Accumulate(deltas)
    ensures yielded == ContentRecords(deltas)
  {
    llmmessage, yielded := "", [];
    var i := 0;
    while i < |deltas|
      invariant 0 <= i <= |deltas|
      invariant llmmessage == Accumulate(deltas[..i])
      invariant yielded == ContentRecords(deltas[..i])
    {
      assert deltas[..i + 1] == deltas[..i] + [deltas[i]];
      DeltaStep(deltas[..i], deltas[i]);
      if deltas[i].Some? {
        llmmessage := llmmessage + deltas[i].value;
        yielded := yielded + [ContentRecord(deltas[i].value)];
      }
      i := i + 1;
    }
    assert deltas[..i] == deltas;
  }

  /** One more delta: its content, if any, is appended to the text and yielded as one more record. */
  lemma DeltaStep(prefix: seq<Option<string>>, d: Option<string>)
    ensures Accumulate(prefix + [d]) == Accumulate(prefix) + (if d.Some? then d.value else "")
    ensures ContentRecords(prefix + [d]) == ContentRecords(prefix) + (if d.Some? then [ContentRecord(d.value)] else [])
  {
    AccumulateAppend(prefix, [d]);
    assert Accumulate([d]) == (if d.Some? then d.value else "") + Accumulate([]);
    assert ContentRecords([d]) == (if d.Some? then [ContentRecord(d.value)] else []) + ContentRecords([]);
  }

  /**
   * A history kept by `chat` alone with user messages stays alternating, so
   * reading it back never drops a message.
   */
  lemma ChatKeepsAlternation(history: seq<Message>, usermessage: Message, id: int, answer: string)
    requires Alternating(history) && usermessage.role == "user"
    ensures var stored := history + [usermessage, Message(None, Some(id), "assistant", answer)];
            Alternating(stored) && TrimTrailingUser(stored) == stored
  {
    var stored := history + [usermessage, Message(None, Some(id), "assistant", answer)];
    AlternatingAppend(history, usermessage, Message(None, Some(id), "assistant", answer));
    AlternatingNotTrimmed(stored);
  }
}
