/**
 * Both ends of the wire together: the records `chat`'s generator yields,
 * written as NDJSON lines and delivered in reads that each hold whole
 * lines, are folded by the frontend into exactly the answer the backend
 * stores.
 */
module EndToEnd {
  import opened Wrappers
  import JsonText
  import Ndjson
  import opened Reconciler
  import Routes

  /** What the frontend's `JSON.parse` makes of a record the backend wrote. */
  function ReadBack(record: seq<JsonText.Member>): Record {
    Record(JsonText.Lookup(record, "type"), JsonText.Lookup(record, "data"))
  }

  /** A record of the shape the backend writes reads back as its type and its data. */
  lemma TypedReadBack(kind: string, data: string)
    ensures ReadBack([("type", kind), ("data", data)]) == Record(Some(kind), Some(data))
  {
    var first: seq<JsonText.Member> := [("type", kind)];
    assert [("type", kind), ("data", data)] == first + [("data", data)];
    assert first == [] + [("type", kind)];
    JsonText.LookupLast(first, "data", data);
    JsonText.LookupSkipsOther(first, ("data", data), "type");
    JsonText.LookupLast([], "type", kind);
  }

  function ReadBacks(records: seq<seq<JsonText.Member>>): (r: seq<Record>)
    ensures |r| == |records|
  {
    if records == [] then [] else [ReadBack(records[0])] + ReadBacks(records[1..])
  }

  /**
   * Every line the backend yields is one JSON object, a space and a line
   * feed: splitting it gives that object's text and nothing else but the
   * empty remainder after the line feed, and the text parses back to the
   * record.
   */
  lemma LineIsOneObject(record: seq<JsonText.Member>)
    ensures Ndjson.Line(record) == Ndjson.Payload(record) + "\n"
    ensures Ndjson.Split(Ndjson.Line(record)) == [Ndjson.Payload(record), ""]
    ensures JsonText.Parse(Ndjson.Payload(record)) == Some(record)
  {
    var p := Ndjson.Payload(record);
    JsonText.DumpsPrintable(record);
    assert Ndjson.NoLineFeed(p);
    assert Ndjson.Line(record) == p + "\n" + "";
    Ndjson.SplitAfterLineFeed(p, "");
    Ndjson.SplitNoLineFeed(p);
    JsonText.DumpsRoundTrip(record, " ");
  }

  /** A line the backend writes parses back to the record it was made from. */
  lemma PayloadParses(record: seq<JsonText.Member>)
    ensures ParseLine(Ndjson.Payload(record)) == Ok(ReadBack(record))
  {
    JsonText.DumpsRoundTrip(record, " ");
  }

  lemma {:induction false} PayloadsParse(records: seq<seq<JsonText.Member>>)
    ensures AllParse(Ndjson.Payloads(records))
    ensures Parsed(Ndjson.Payloads(records)) == ReadBacks(records)
    decreases records
  {
    var lines := Ndjson.Payloads(records);
    forall k | 0 <= k < |lines| ensures ParseLine(lines[k]).Ok? {
      PayloadParses(records[k]);
    }
    if records != [] {
      PayloadParses(records[0]);
      PayloadsParse(records[1..]);
      assert lines[1..] == Ndjson.Payloads(records[1..]);
    }
  }

  /** A read that holds whole lines applies every record in it, in order, without error. */
  lemma WholeLinesChunk(p: Progress, group: seq<seq<JsonText.Member>>)
    requires p.messages != []
    ensures ApplyChunk(p, Ndjson.Body(group)) == Outcome(FoldRecords(p, ReadBacks(group)), None)
  {
    Ndjson.ChunkOfWholeLines(group);
    PayloadsParse(group);
    ApplyWellFormedLines(p, Ndjson.Payloads(group));
  }

  lemma {:induction false} FoldRecordsAppend(p: Progress, a: seq<Record>, b: seq<Record>)
    requires p.messages != []
    ensures FoldRecords(p, a + b) == FoldRecords(FoldRecords(p, a), b)
    decreases a
  {
    if a == [] {
      assert a + b == b;
    } else {
      assert (a + b)[0] == a[0];
      assert (a + b)[1..] == a[1..] + b;
      FoldRecordsAppend(ApplyRecord(p, a[0]), a[1..], b);
    }
  }

  lemma {:induction false} ReadBacksAppend(a: seq<seq<JsonText.Member>>, b: seq<seq<JsonText.Member>>)
    ensures ReadBacks(a + b) == ReadBacks(a) + ReadBacks(b)
  {
    if a == [] {
      assert a + b == b;
    } else {
      assert (a + b)[0] == a[0];
      assert (a + b)[1..] == a[1..] + b;
      ReadBacksAppend(a[1..], b);
    }
  }

  /** The records of consecutive reads, in order. */
  function Flatten(groups: seq<seq<seq<JsonText.Member>>>): seq<seq<JsonText.Member>> {
    if groups == [] then [] else groups[0] + Flatten(groups[1..])
  }

  /** The text of each read: the lines of its records. */
  function Bodies(groups: seq<seq<seq<JsonText.Member>>>): (r: seq<string>)
    ensures |r| == |groups|
  {
    if groups == [] then [] else [Ndjson.Body(groups[0])] + Bodies(groups[1..])
  }

  /** Reads of whole lines, however the lines are grouped, fold every record in order. */
  lemma {:induction false} DrainWholeLines(p: Progress, groups: seq<seq<seq<JsonText.Member>>>)
    requires p.messages != []
    ensures Drain(p, Bodies(groups)) == Outcome(FoldRecords(p, ReadBacks(Flatten(groups))), None)
    decreases groups
  {
    if groups != [] {
      var chunks := Bodies(groups);
      assert chunks[0] == Ndjson.Body(groups[0]) && chunks[1..] == Bodies(groups[1..]);
      WholeLinesChunk(p, groups[0]);
      var q := FoldRecords(p, ReadBacks(groups[0]));
      DrainWholeLines(q, groups[1..]);
      ReadBacksAppend(groups[0], Flatten(groups[1..]));
      FoldRecordsAppend(p, ReadBacks(groups[0]), ReadBacks(Flatten(groups[1..])));
    }
  }

  predicate SomeContent(deltas: seq<Option<string>>) {
    exists k :: 0 <= k < |deltas| && deltas[k].Some?
  }

  /**
   * The records of a completed answer carry, as the frontend reads them,
   * exactly the backend's accumulated text, and carry content exactly when
   * some delta had content.
   */
  lemma {:induction false} AnswerText(deltas: seq<Option<string>>)
    ensures ContentText(ReadBacks(Routes.ContentRecords(deltas))) == Routes.Accumulate(deltas)
    ensures HasContent(ReadBacks(Routes.ContentRecords(deltas))) <==> SomeContent(deltas)
    decreases deltas
  {
    if deltas != [] {
      AnswerText(deltas[1..]);
      var head := if deltas[0].Some? then [Routes.ContentRecord(deltas[0].value)] else [];
      assert Routes.ContentRecords(deltas) == head + Routes.ContentRecords(deltas[1..]);
      ReadBacksAppend(head, Routes.ContentRecords(deltas[1..]));
      var rest := ReadBacks(Routes.ContentRecords(deltas[1..]));
      if deltas[0].Some? {
        var r := ReadBack(Routes.ContentRecord(deltas[0].value));
        TypedReadBack("content", deltas[0].value);
        assert ReadBacks(head) == [r];
        assert ([r] + rest)[1..] == rest;
      } else {
        assert ReadBacks(head) == [];
        assert [] + rest == rest;
        assert SomeContent(deltas) ==> SomeContent(deltas[1..]) by {
          if SomeContent(deltas) {
            var k :| 0 <= k < |deltas| && deltas[k].Some?;
            assert deltas[1..][k - 1] == deltas[k];
          }
        }
      }
      assert SomeContent(deltas[1..]) ==> SomeContent(deltas) by {
        if SomeContent(deltas[1..]) {
          var k :| 0 <= k < |deltas[1..]| && deltas[1..][k].Some?;
          assert deltas[k + 1] == deltas[1..][k];
        }
      }
    }
  }

  /** The end record adds neither text nor content on the frontend. */
  lemma EndRecordInert(records: seq<seq<JsonText.Member>>)
    ensures ContentText(ReadBacks(records + [Routes.EndRecord])) == ContentText(ReadBacks(records))
    ensures HasContent(ReadBacks(records + [Routes.EndRecord])) == HasContent(ReadBacks(records))
  {
    ReadBacksAppend(records, [Routes.EndRecord]);
    var end := ReadBack(Routes.EndRecord);
    TypedReadBack("end", "");
    assert [Routes.EndRecord][1..] == [];
    assert ReadBacks([Routes.EndRecord]) == [end];
    assert !IsContent(end) && [end][1..] == [];
    assert ContentText([end]) == "" && !HasContent([end]);
    ContentTextAppend(ReadBacks(records), [end]);
  }

  lemma {:induction false} ContentTextAppend(a: seq<Record>, b: seq<Record>)
    ensures ContentText(a + b) == ContentText(a) + ContentText(b)
    ensures HasContent(a + b) == (HasContent(a) || HasContent(b))
    decreases a
  {
    if a == [] {
      assert a + b == b;
    } else {
      assert (a + b)[0] == a[0];
      assert (a + b)[1..] == a[1..] + b;
      ContentTextAppend(a[1..], b);
    }
  }

  /**
   * The whole exchange: whatever deltas the language model streams and
   * however the lines are grouped into reads (each read holding whole
   * lines), the frontend ends with the user message followed by one
   * assistant message holding the text the backend stores, or no assistant
   * message when no delta had content, and reports no error.
   */
  lemma StreamedAnswerArrives(messages: seq<Message>, conversationId: int, text: string,
                              deltas: seq<Option<string>>, groups: seq<seq<seq<JsonText.Member>>>)
    requires Flatten(groups) == Routes.ContentRecords(deltas) + [Routes.EndRecord]
    requires |groups| < MaxReads
    ensures var sent := messages + [UserMessage(text, conversationId)];
            Session(messages, conversationId, text, Opened(ChunkEvents(Bodies(groups)) + [Done])) ==
              Outcome(Progress(Routes.Accumulate(deltas),
                               if SomeContent(deltas) then sent + [BotMessage(Routes.Accumulate(deltas))] else sent),
                      None)
  {
    var sent := messages + [UserMessage(text, conversationId)];
    var p := Progress("", sent);
    WholeLinesStream(p, groups);
    FoldAnswer(p, deltas);
    ReconcileAfterUser(sent, Routes.Accumulate(deltas));
  }

  /** Reads of whole lines followed by the end of the stream fold every record and report nothing. */
  lemma WholeLinesStream(p: Progress, groups: seq<seq<seq<JsonText.Member>>>)
    requires p.messages != []
    requires |groups| < MaxReads
    ensures Stream(p, ChunkEvents(Bodies(groups)) + [Done], MaxReads) ==
              Outcome(FoldRecords(p, ReadBacks(Flatten(groups))), None)
  {
    StreamAfterChunks(p, Bodies(groups), [Done], MaxReads);
    DrainWholeLines(p, groups);
  }

  /** Folding the records of a completed answer leaves its text, in one assistant message when it had content. */
  lemma FoldAnswer(p: Progress, deltas: seq<Option<string>>)
    requires p.messages != [] && p.text == ""
    ensures FoldRecords(p, ReadBacks(Routes.ContentRecords(deltas) + [Routes.EndRecord])) ==
              Progress(Routes.Accumulate(deltas),
                       if SomeContent(deltas) then Reconcile(p.messages, Routes.Accumulate(deltas)) else p.messages)
  {
    FoldRecordsResult(p, ReadBacks(Routes.ContentRecords(deltas) + [Routes.EndRecord]));
    EndRecordInert(Routes.ContentRecords(deltas));
    AnswerText(deltas);
    assert "" + Routes.Accumulate(deltas) == Routes.Accumulate(deltas);
  }

  /**
   * Reads are decoded on their own: a line split across two reads is not
   * put back together. When the split falls inside the record's JSON
   * object, the first read holds a proper prefix of that object, which
   * JSON.parse rejects: the stream stops there with a SyntaxError and
   * nothing of the record is applied.
   */
  lemma SplitLineIsMalformed(p: Progress, record: seq<JsonText.Member>, k: nat, later: seq<ReadEvent>, budget: nat)
    requires p.messages != [] && budget > 0
    requires 0 < k < |JsonText.Dumps(record)|
    ensures ApplyChunk(p, Ndjson.Line(record)[..k]) == Outcome(p, Some(MalformedLineMessage))
    ensures Stream(p, [Chunk(Ndjson.Line(record)[..k]), Chunk(Ndjson.Line(record)[k..])] + later, budget) ==
              Outcome(p, Some(MalformedLineMessage))
  {
    var first, second := Ndjson.Line(record)[..k], Ndjson.Line(record)[k..];
    SplitPrefixIsMalformedLine(record, k);
    MalformedChunkStops(p, first, [Chunk(second)] + later, budget);
    assert [Chunk(first), Chunk(second)] + later == [Chunk(first)] + ([Chunk(second)] + later);
  }

  /** The first read of a line split inside its object is one non-blank line JSON.parse rejects. */
  lemma SplitPrefixIsMalformedLine(record: seq<JsonText.Member>, k: nat)
    requires 0 < k < |JsonText.Dumps(record)|
    ensures JsonText.Parse(Ndjson.Line(record)[..k]) == None
    ensures Ndjson.ChunkLines(Ndjson.Line(record)[..k]) == [Ndjson.Line(record)[..k]]
  {
    var d := JsonText.Dumps(record);
    JsonText.DumpsPrintable(record);
    assert Ndjson.Line(record)[..k] == d[..k];
    JsonText.DumpsPrefixMalformed(record, k);
    PrefixIsOneLine(d, k);
  }

  /** A read that is one malformed line stops the stream with the SyntaxError's message. */
  lemma MalformedChunkStops(p: Progress, line: string, later: seq<ReadEvent>, budget: nat)
    requires p.messages != [] && budget > 0
    requires JsonText.Parse(line) == None && Ndjson.ChunkLines(line) == [line]
    ensures ApplyChunk(p, line) == Outcome(p, Some(MalformedLineMessage))
    ensures Stream(p, [Chunk(line)] + later, budget) == Outcome(p, Some(MalformedLineMessage))
  {
    assert ParseLine(line) == Err(MalformedLineMessage);
    var lines: seq<string> := [line];
    assert ApplyLines(p, lines) == ApplyLine(p, line, lines[1..]);
    StreamChunkStep(p, line, later, budget);
  }

  /** A non-empty prefix of an object's text is one line that is not blank. */
  lemma PrefixIsOneLine(d: string, k: nat)
    requires 0 < k <= |d| && d[0] == '{'
    requires forall i :: 0 <= i < |d| ==> d[i] != '\n'
    ensures Ndjson.ChunkLines(d[..k]) == [d[..k]]
  {
    var first := d[..k];
    assert Ndjson.NoLineFeed(first);
    Ndjson.SplitNoLineFeed(first);
    assert !Ndjson.IsBlank(first) by { assert first[0] == '{'; }
    var lines: seq<string> := [first];
    assert Ndjson.NonBlank(lines) == lines by {
      assert lines[1..] == [];
    }
  }
}
