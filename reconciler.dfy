/**
 * The stream handling of ChatInterface's `handleSendMessage`, as pure
 * functions: how each parsed line, each chunk and each read changes the
 * accumulated assistant text and the bound message list. The component in
 * chat_interface.dfy runs the same steps with loops and is proved equal to
 * `Session`.
 */
module Reconciler {
  import opened Wrappers
  import JsonText
  import Ndjson

  /**
   * A message object of the bound list. Only the user message the component
   * builds carries a `conversation_id`; the assistant message has none.
   */
  datatype Message = Message(role: string, content: string, conversationId: Option<int>)

  function UserMessage(text: string, conversationId: int): Message {
    Message("user", text, Some(conversationId))
  }

  function BotMessage(text: string): Message {
    Message("assistant", text, None)
  }

  /**
   * The updater passed to `setMessages` after each fragment: when the last
   * message is an assistant message its content becomes the accumulated
   * text; otherwise an assistant message holding that text is appended.
   */
  function Reconcile(messages: seq<Message>, text: string): (r: seq<Message>)
    requires messages != []
    ensures |r| == if messages[|messages| - 1].role == "assistant" then |messages| else |messages| + 1
    ensures r[..|messages| - 1] == messages[..|messages| - 1]
    ensures messages[|messages| - 1].role == "assistant" ==>
              r[|r| - 1] == messages[|messages| - 1].(content := text)
    ensures messages[|messages| - 1].role != "assistant" ==>
              r[|messages| - 1] == messages[|messages| - 1] && r[|r| - 1] == BotMessage(text)
  {
    var rest, last := messages[..|messages| - 1], messages[|messages| - 1];
    if last.role == "assistant" then rest + [last.(content := text)]
    else rest + [last, BotMessage(text)]
  }

  /**
   * Reconciling twice is reconciling once with the later text: the assistant
   * message grows in place and is never duplicated.
   */
  lemma ReconcileAbsorbs(messages: seq<Message>, a: string, b: string)
    requires messages != []
    ensures Reconcile(Reconcile(messages, a), b) == Reconcile(messages, b)
  {
    var m := Reconcile(messages, a);
    assert m[|m| - 1].role == "assistant";
    assert m[..|m| - 1] == Reconcile(messages, b)[..|Reconcile(messages, b)| - 1];
  }

  /** After a message that is not the assistant's, reconciling appends one assistant message. */
  lemma ReconcileAfterUser(messages: seq<Message>, text: string)
    requires messages != [] && messages[|messages| - 1].role != "assistant"
    ensures Reconcile(messages, text) == messages + [BotMessage(text)]
  {
    var r := Reconcile(messages, text);
    assert r[..|messages|] == messages by {
      assert r[..|messages| - 1] == messages[..|messages| - 1];
    }
    assert r == r[..|messages|] + [r[|r| - 1]];
  }

  // ---------------------------------------------------------------------
  // One line: JSON.parse and the `type === 'content'` test
  // ---------------------------------------------------------------------

  /** The `type` and `data` properties of a parsed line; None stands for `undefined`. */
  datatype Record = Record(kind: Option<string>, data: Option<string>)

  /** The message of the SyntaxError JSON.parse throws; its exact words are the engine's. */
  const MalformedLineMessage := "Unexpected token in JSON"

  /** The only error is the SyntaxError; otherwise `type` and `data` are values of members with those keys. */
  function ParseLine(line: string): (r: Result<Record, string>)
    ensures r.Err? <==> JsonText.Parse(line).None?
    ensures r.Err? ==> r.error == MalformedLineMessage
    ensures r.Ok? && r.value.kind.Some? ==> ("type", r.value.kind.value) in JsonText.Parse(line).value
    ensures r.Ok? && r.value.data.Some? ==> ("data", r.value.data.value) in JsonText.Parse(line).value
  {
    match JsonText.Parse(line)
    case None => Err(MalformedLineMessage)
    case Some(members) => Ok(Record(JsonText.Lookup(members, "type"), JsonText.Lookup(members, "data")))
  }

  predicate IsContent(r: Record) {
    r.kind == Some("content")
  }

  /** `botMessageText += message.data`: an absent `data` appends the text "undefined". */
  function DataText(data: Option<string>): string {
    match data
    case Some(s) => s
    case None => "undefined"
  }

  /** The accumulated text and the bound list, between two fragments. */
  datatype Progress = Progress(text: string, messages: seq<Message>)

  /**
   * A content record appends its fragment and shows the whole text in an
   * assistant message at the end of the list; any other record changes
   * nothing.
   */
  function ApplyRecord(p: Progress, r: Record): (q: Progress)
    requires p.messages != []
    ensures q.messages != []
    ensures !IsContent(r) ==> q == p
    ensures IsContent(r) ==> q.text == p.text + DataText(r.data)
  {
    if IsContent(r) then
      var text := p.text + DataText(r.data);
      Progress(text, Reconcile(p.messages, text))
    else p
  }

  /** The outcome of a run of lines, chunks or events: where it got, and the error that stopped it. */
  datatype Outcome = Outcome(progress: Progress, error: Option<string>)

  /** The lines of one chunk in order; the first malformed line throws and stops everything. */
  function ApplyLines(p: Progress, lines: seq<string>): (o: Outcome)
    requires p.messages != []
    ensures o.progress.messages != []
    ensures o.error.Some? ==> o.error.value == MalformedLineMessage
    decreases |lines|, 1
  {
    if lines == [] then Outcome(p, None) else ApplyLine(p, lines[0], lines[1..])
  }

  /** `JSON.parse(line)` and the fragment it carries, then the lines after it. */
  function ApplyLine(p: Progress, line: string, more: seq<string>): (o: Outcome)
    requires p.messages != []
    ensures o.progress.messages != []
    ensures o.error.Some? ==> o.error.value == MalformedLineMessage
    decreases |more| + 1, 0
  {
    match ParseLine(line)
    case Err(e) => Outcome(p, Some(e))
    case Ok(r) => ApplyLines(ApplyRecord(p, r), more)
  }

  /** One chunk: decoded on its own, split on '\n', blank lines dropped. */
  function ApplyChunk(p: Progress, chunk: string): (o: Outcome)
    requires p.messages != []
    ensures o.progress.messages != []
    ensures o.error.Some? ==> o.error.value == MalformedLineMessage
  {
    ApplyLines(p, Ndjson.ChunkLines(chunk))
  }

  // ---------------------------------------------------------------------
  // The read loop
  // ---------------------------------------------------------------------

  /** What made another handler abort the controller while a read was pending. */
  datatype Interrupt = NewConversation | Unmount

  /**
   * What one `await stream.read()` meets: a chunk of text, the end of the
   * stream, a failure of the transport, or an abort issued by another
   * handler while the read was pending (the read then rejects with an
   * AbortError).
   */
  datatype ReadEvent = Chunk(text: string) | Done | Broken(message: string) | Interrupted(cause: Interrupt)

  /** The loop's safety bound on the number of events. */
  const MaxReads: nat := 10_000_000

  /**
   * The events of one stream with `budget` iterations left. A script that runs
   * out is a closed stream: the next read reports `done`.
   */
  function Stream(p: Progress, events: seq<ReadEvent>, budget: nat): (o: Outcome)
    requires p.messages != []
    ensures o.progress.messages != []
    decreases budget
  {
    if budget == 0 || events == [] then Outcome(p, None)
    else match events[0]
      case Done => Outcome(p, None)
      case Broken(m) => Outcome(p, Some(m))
      case Interrupted(_) => Outcome(p, None)
      case Chunk(c) =>
        var o := ApplyChunk(p, c);
        if o.error.Some? then o else Stream(o.progress, events[1..], budget - 1)
  }

  /** What `sendMessage` gives back: a reader over the body, or a thrown Error. */
  datatype Response = Refused(message: string) | Opened(events: seq<ReadEvent>)

  /**
   * One whole send: the user message is appended first, then the stream is
   * read. The error, if any, is the one message `setError` records.
   */
  function Session(messages: seq<Message>, conversationId: int, text: string, response: Response): (o: Outcome)
    ensures var sent := messages + [UserMessage(text, conversationId)];
            o.progress.messages == sent || o.progress.messages == sent + [BotMessage(o.progress.text)]
    ensures o.error.Some? ==>
              response == Refused(o.error.value) || o.error.value == MalformedLineMessage
              || (response.Opened? && Broken(o.error.value) in response.events)
  {
    var p := Progress("", messages + [UserMessage(text, conversationId)]);
    match response
    case Refused(m) => Outcome(p, Some(m))
    case Opened(events) =>
      StreamKeepsShape(p.messages, p, events, MaxReads);
      ShapedAfterUser(p.messages, Stream(p, events, MaxReads).progress);
      StreamErrors(p, events, MaxReads);
      Stream(p, events, MaxReads)
  }

  // ---------------------------------------------------------------------
  // Properties of the fold
  // ---------------------------------------------------------------------

  /** The fragments the handler appends for a run of records. */
  function ContentText(records: seq<Record>): string {
    if records == [] then ""
    else (if IsContent(records[0]) then DataText(records[0].data) else "") + ContentText(records[1..])
  }

  /** Whether some record of the run carries content. */
  predicate HasContent(records: seq<Record>) {
    records != [] && (IsContent(records[0]) || HasContent(records[1..]))
  }

  function FoldRecords(p: Progress, records: seq<Record>): (q: Progress)
    requires p.messages != []
    ensures q.messages != []
    decreases records
  {
    if records == [] then p else FoldRecords(ApplyRecord(p, records[0]), records[1..])
  }

  /**
   * Folding fragments F1..Fn appends F1+...+Fn to the text, and the list
   * ends up reconciled once with the final text: one assistant message,
   * and none at all when no record carried content.
   */
  lemma FoldRecordsResult(p: Progress, records: seq<Record>)
    requires p.messages != []
    ensures FoldRecords(p, records).text == p.text + ContentText(records)
    ensures FoldRecords(p, records).messages ==
              if HasContent(records) then Reconcile(p.messages, p.text + ContentText(records)) else p.messages
  {
    FoldRecordsText(p, records);
    FoldRecordsMessages(p, records);
  }

  lemma {:induction false} FoldRecordsText(p: Progress, records: seq<Record>)
    requires p.messages != []
    ensures FoldRecords(p, records).text == p.text + ContentText(records)
    decreases records
  {
    if records == [] {
      assert p.text + "" == p.text;
    } else {
      var r, rest := records[0], records[1..];
      var q := ApplyRecord(p, r);
      FoldRecordsText(q, rest);
      if IsContent(r) {
        assert ContentText(records) == DataText(r.data) + ContentText(rest);
        assert p.text + ContentText(records) == q.text + ContentText(rest);
      } else {
        assert q == p && HasContent(records) == HasContent(rest);
        assert ContentText(records) == ContentText(rest);
      }
    }
  }

  /** The list after a fold is reconciled once with the final text, or untouched when no record carried content. */
  lemma {:induction false} FoldRecordsMessages(p: Progress, records: seq<Record>)
    requires p.messages != []
    ensures var q := FoldRecords(p, records);
            q.messages == if HasContent(records) then Reconcile(p.messages, q.text) else p.messages
    decreases records
  {
    if records != [] {
      var r, rest := records[0], records[1..];
      var q := ApplyRecord(p, r);
      assert FoldRecords(p, records) == FoldRecords(q, rest);
      FoldRecordsMessages(q, rest);
      if IsContent(r) {
        if HasContent(rest) {
          ReconcileAbsorbs(p.messages, q.text, FoldRecords(q, rest).text);
        } else {
          NoContentUnchanged(q, rest);
        }
      } else {
        assert q == p;
      }
    }
  }

  lemma {:induction false} NoContentUnchanged(p: Progress, records: seq<Record>)
    requires p.messages != [] && !HasContent(records)
    ensures FoldRecords(p, records) == p
    decreases records
  {
    if records != [] {
      NoContentUnchanged(p, records[1..]);
    }
  }

  lemma {:induction false} NoContentNoText(records: seq<Record>)
    requires !HasContent(records)
    ensures ContentText(records) == ""
  {
    if records != [] {
      NoContentNoText(records[1..]);
    }
  }

  predicate AllParse(lines: seq<string>) {
    forall k :: 0 <= k < |lines| ==> ParseLine(lines[k]).Ok?
  }

  function Parsed(lines: seq<string>): (records: seq<Record>)
    requires AllParse(lines)
    ensures |records| == |lines|
  {
    if lines == [] then [] else [ParseLine(lines[0]).value] + Parsed(lines[1..])
  }

  /** A chunk whose lines all parse applies every record, in order, and reports no error. */
  lemma {:induction false} ApplyWellFormedLines(p: Progress, lines: seq<string>)
    requires p.messages != []
    requires AllParse(lines)
    ensures ApplyLines(p, lines) == Outcome(FoldRecords(p, Parsed(lines)), None)
    decreases lines
  {
    if lines != [] {
      assert AllParse(lines[1..]) by {
        forall k | 0 <= k < |lines[1..]| ensures ParseLine(lines[1..][k]).Ok? {
          assert lines[1..][k] == lines[k + 1];
        }
      }
      ApplyWellFormedLines(ApplyRecord(p, ParseLine(lines[0]).value), lines[1..]);
    }
  }

  /**
   * A malformed line stops the chunk: every record before it has been
   * applied, nothing after it is, and its SyntaxError is the outcome's error.
   */
  lemma {:induction false} MalformedLineStops(p: Progress, good: seq<string>, bad: string, rest: seq<string>)
    requires p.messages != []
    requires AllParse(good) && ParseLine(bad).Err?
    ensures ApplyLines(p, good + [bad] + rest) == Outcome(FoldRecords(p, Parsed(good)), Some(MalformedLineMessage))
    decreases good
  {
    if good == [] {
      assert good + [bad] + rest == [bad] + rest;
    } else {
      assert (good + [bad] + rest)[1..] == good[1..] + [bad] + rest;
      assert AllParse(good[1..]) by {
        forall k | 0 <= k < |good[1..]| ensures ParseLine(good[1..][k]).Ok? {
          assert good[1..][k] == good[k + 1];
        }
      }
      MalformedLineStops(ApplyRecord(p, ParseLine(good[0]).value), good[1..], bad, rest);
    }
  }

  function ChunkEvents(chunks: seq<string>): (events: seq<ReadEvent>)
    ensures |events| == |chunks|
    ensures forall k :: 0 <= k < |chunks| ==> events[k] == Chunk(chunks[k])
  {
    if chunks == [] then [] else [Chunk(chunks[0])] + ChunkEvents(chunks[1..])
  }

  /** The chunks in order, each on its own, stopping at the first error; no bound, no abort. */
  function Drain(p: Progress, chunks: seq<string>): (o: Outcome)
    requires p.messages != []
    ensures o.progress.messages != []
    decreases chunks
  {
    if chunks == [] then Outcome(p, None)
    else
      var o := ApplyChunk(p, chunks[0]);
      if o.error.Some? then o else Drain(o.progress, chunks[1..])
  }

  /**
   * Reads compose: a run of chunks within the bound is drained first, and
   * the events after it start from where the chunks left the list.
   */
  lemma {:induction false} StreamAfterChunks(p: Progress, chunks: seq<string>, rest: seq<ReadEvent>, budget: nat)
    requires p.messages != []
    requires |chunks| <= budget
    ensures Drain(p, chunks).error.Some? ==> Stream(p, ChunkEvents(chunks) + rest, budget) == Drain(p, chunks)
    ensures Drain(p, chunks).error.None? ==>
              Stream(p, ChunkEvents(chunks) + rest, budget) == Stream(Drain(p, chunks).progress, rest, budget - |chunks|)
    decreases chunks
  {
    if chunks == [] {
      assert ChunkEvents(chunks) + rest == rest;
    } else {
      var later := ChunkEvents(chunks[1..]) + rest;
      assert ChunkEvents(chunks) + rest == [Chunk(chunks[0])] + later;
      StreamChunkStep(p, chunks[0], later, budget);
      var o := ApplyChunk(p, chunks[0]);
      if o.error.None? {
        StreamAfterChunks(o.progress, chunks[1..], rest, budget - 1);
      }
    }
  }

  /** One read that delivers a chunk. */
  lemma StreamChunkStep(p: Progress, chunk: string, later: seq<ReadEvent>, budget: nat)
    requires p.messages != [] && budget > 0
    ensures Stream(p, [Chunk(chunk)] + later, budget) ==
              var o := ApplyChunk(p, chunk);
              if o.error.Some? then o else Stream(o.progress, later, budget - 1)
  {
    assert ([Chunk(chunk)] + later)[1..] == later;
  }

  /**
   * After an abort nothing more is applied: whatever the stream would have
   * delivered after the interrupted read, the outcome is the one of a
   * stream that ended there, and no error is reported.
   */
  lemma AbortStopsStream(p: Progress, chunks: seq<string>, cause: Interrupt, later: seq<ReadEvent>, budget: nat)
    requires p.messages != []
    requires |chunks| < budget
    ensures Stream(p, ChunkEvents(chunks) + [Interrupted(cause)] + later, budget) ==
              Stream(p, ChunkEvents(chunks) + [Done], budget)
    ensures Drain(p, chunks).error.None? ==>
              Stream(p, ChunkEvents(chunks) + [Interrupted(cause)] + later, budget) == Outcome(Drain(p, chunks).progress, None)
  {
    assert ChunkEvents(chunks) + [Interrupted(cause)] + later == ChunkEvents(chunks) + ([Interrupted(cause)] + later);
    StreamAfterChunks(p, chunks, [Interrupted(cause)] + later, budget);
    StreamAfterChunks(p, chunks, [Done], budget);
  }

  /**
   * A failing read records its message once, and keeps every fragment that
   * was reconciled before it.
   */
  lemma BrokenKeepsPartial(p: Progress, chunks: seq<string>, message: string, later: seq<ReadEvent>, budget: nat)
    requires p.messages != []
    requires |chunks| < budget
    requires Drain(p, chunks).error.None?
    ensures Stream(p, ChunkEvents(chunks) + [Broken(message)] + later, budget) ==
              Outcome(Drain(p, chunks).progress, Some(message))
  {
    assert ChunkEvents(chunks) + [Broken(message)] + later == ChunkEvents(chunks) + ([Broken(message)] + later);
    StreamAfterChunks(p, chunks, [Broken(message)] + later, budget);
  }

  /**
   * The loop bound: events beyond the first `budget` are never made, and
   * reaching the bound ends the stream without an error.
   */
  lemma {:induction false} StreamIgnoresBeyondBound(p: Progress, events: seq<ReadEvent>, budget: nat)
    requires p.messages != []
    requires |events| >= budget
    ensures Stream(p, events, budget) == Stream(p, events[..budget], budget)
    decreases budget
  {
    if budget > 0 {
      assert events[..budget][0] == events[0];
      assert events[..budget][1..] == events[1..][..budget - 1];
      match events[0]
      case Chunk(c) =>
        var o := ApplyChunk(p, c);
        if o.error.None? {
          StreamIgnoresBeyondBound(o.progress, events[1..], budget - 1);
        }
      case _ =>
    }
  }

  /** Reads that all deliver well-formed chunks up to the bound end silently at the bound. */
  lemma BoundEndsSilently(p: Progress, chunks: seq<string>, later: seq<ReadEvent>)
    requires p.messages != []
    requires |chunks| == MaxReads
    requires Drain(p, chunks).error.None?
    ensures Stream(p, ChunkEvents(chunks) + later, MaxReads) == Outcome(Drain(p, chunks).progress, None)
  {
    StreamAfterChunks(p, chunks, later, MaxReads);
  }

  /**
   * The list is `base` followed by at most one assistant message, which then
   * holds the accumulated text.
   */
  predicate Shaped(base: seq<Message>, p: Progress) {
    base != [] && base[|base| - 1].role != "assistant"
    && (p.messages == base || p.messages == Reconcile(base, p.text))
  }

  lemma {:induction false} LinesKeepShape(base: seq<Message>, p: Progress, lines: seq<string>)
    requires Shaped(base, p)
    ensures Shaped(base, ApplyLines(p, lines).progress)
    decreases lines
  {
    if lines != [] && ParseLine(lines[0]).Ok? {
      var r := ParseLine(lines[0]).value;
      if IsContent(r) && p.messages != base {
        ReconcileAbsorbs(base, p.text, ApplyRecord(p, r).text);
      }
      LinesKeepShape(base, ApplyRecord(p, r), lines[1..]);
    }
  }

  lemma ChunkKeepsShape(base: seq<Message>, p: Progress, chunk: string)
    requires Shaped(base, p)
    ensures Shaped(base, ApplyChunk(p, chunk).progress)
  {
    LinesKeepShape(base, p, Ndjson.ChunkLines(chunk));
  }

  lemma {:induction false} StreamKeepsShape(base: seq<Message>, p: Progress, events: seq<ReadEvent>, budget: nat)
    requires Shaped(base, p)
    ensures Shaped(base, Stream(p, events, budget).progress)
    decreases budget
  {
    if budget > 0 && events != [] && events[0].Chunk? {
      var o := ApplyChunk(p, events[0].text);
      ChunkKeepsShape(base, p, events[0].text);
      if o.error.None? {
        StreamKeepsShape(base, o.progress, events[1..], budget - 1);
      }
    }
  }

  /** Behind a message that is not the assistant's, the shape is that list, possibly with one assistant message appended. */
  lemma ShapedAfterUser(base: seq<Message>, p: Progress)
    requires Shaped(base, p)
    ensures p.messages == base || p.messages == base + [BotMessage(p.text)]
  {
    if p.messages != base {
      ReconcileAfterUser(base, p.text);
    }
  }

  /**
   * A stream stops with an error only when a line is malformed or the
   * transport fails; an abort or the end of the stream reports nothing.
   */
  lemma {:induction false} StreamErrors(p: Progress, events: seq<ReadEvent>, budget: nat)
    requires p.messages != []
    ensures var o := Stream(p, events, budget);
            o.error.Some? ==> o.error.value == MalformedLineMessage || Broken(o.error.value) in events
    decreases budget
  {
    if budget > 0 && events != [] && events[0].Chunk? {
      var o := ApplyChunk(p, events[0].text);
      if o.error.None? {
        StreamErrors(o.progress, events[1..], budget - 1);
        assert forall e :: e in events[1..] ==> e in events;
      }
    }
  }
}
