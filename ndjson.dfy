/**
 * Newline-delimited framing of the chat stream.
 *
 * The backend yields one line per record: the record's JSON text, a space
 * and a line feed. The frontend decodes each chunk it reads on its own,
 * splits it on '\n' and drops the lines that are blank after `trim()`.
 */
module Ndjson {
  import JsonText

  /** One line of the response body, as the backend yields it. */
  function Line(record: seq<JsonText.Member>): (r: string)
    ensures |r| >= 2 && r[0] == '{' && r[|r| - 1] == '\n'
    ensures NoLineFeed(r[..|r| - 1])
  {
    JsonText.DumpsPrintable(record);
    JsonText.Dumps(record) + " \n"
  }

  /** The text of a run of lines, in order. */
  function Body(records: seq<seq<JsonText.Member>>): string {
    if records == [] then "" else Line(records[0]) + Body(records[1..])
  }

  // ---------------------------------------------------------------------
  // String.prototype.split('\n') and its inverse join('\n')
  // ---------------------------------------------------------------------

  predicate NoLineFeed(s: string) {
    forall i :: 0 <= i < |s| ==> s[i] != '\n'
  }

  /** `s.split('\n')`: the pieces between line feeds, always at least one. */
  function Split(s: string): (r: seq<string>)
    ensures |r| >= 1
    ensures forall k :: 0 <= k < |r| ==> NoLineFeed(r[k])
  {
    if s == [] then [""]
    else
      var t := Split(s[1..]);
      if s[0] == '\n' then [""] + t else [[s[0]] + t[0]] + t[1..]
  }

  /** `pieces.join('\n')`. */
  function Join(pieces: seq<string>): string
    requires |pieces| >= 1
  {
    if |pieces| == 1 then pieces[0] else pieces[0] + "\n" + Join(pieces[1..])
  }

  /** Splitting loses nothing: joining the pieces gives the chunk back. */
  lemma {:induction false} JoinSplit(s: string)
    ensures Join(Split(s)) == s
  {
    if s != [] {
      var t := Split(s[1..]);
      JoinSplit(s[1..]);
      if s[0] == '\n' {
        assert Split(s) == [""] + t;
        assert Split(s)[1..] == t;
      } else {
        var r := [[s[0]] + t[0]] + t[1..];
        assert Split(s) == r;
        if |t| == 1 {
          assert Join(r) == [s[0]] + t[0];
        } else {
          assert r[1..] == t[1..];
          assert Join(r) == [s[0]] + (t[0] + "\n" + Join(t[1..]));
        }
      }
    }
  }

  /** Pieces free of line feeds are exactly what splitting their join gives. */
  lemma {:induction false} SplitJoin(pieces: seq<string>)
    requires |pieces| >= 1
    requires forall k :: 0 <= k < |pieces| ==> NoLineFeed(pieces[k])
    ensures Split(Join(pieces)) == pieces
  {
    if |pieces| == 1 {
      SplitNoLineFeed(pieces[0]);
    } else {
      SplitJoin(pieces[1..]);
      SplitAfterLineFeed(pieces[0], Join(pieces[1..]));
      SplitNoLineFeed(pieces[0]);
      assert [pieces[0]] + pieces[1..] == pieces;
    }
  }

  lemma {:induction false} SplitNoLineFeed(s: string)
    requires NoLineFeed(s)
    ensures Split(s) == [s]
  {
    if s != [] {
      SplitNoLineFeed(s[1..]);
      assert [s[0]] + s[1..] == s;
    }
  }

  /** A line feed separates the pieces of what precedes it from those of what follows. */
  lemma {:induction false} SplitAfterLineFeed(a: string, b: string)
    ensures Split(a + "\n" + b) == Split(a) + Split(b)
  {
    if a == [] {
      assert a + "\n" + b == "\n" + b;
      assert ("\n" + b)[1..] == b;
    } else {
      var s := a + "\n" + b;
      assert s[0] == a[0];
      assert s[1..] == a[1..] + "\n" + b;
      SplitAfterLineFeed(a[1..], b);
    }
  }

  // ---------------------------------------------------------------------
  // line.trim() !== ''
  // ---------------------------------------------------------------------

  /** The white space and line terminators that String.prototype.trim removes. */
  predicate IsJsSpace(c: char) {
    c == '\t' || c == '\n' || c == '\U{B}' || c == '\U{C}' || c == '\r' || c == ' '
    || c == '\U{A0}' || c == '\U{1680}' || ('\U{2000}' <= c <= '\U{200A}')
    || c == '\U{2028}' || c == '\U{2029}' || c == '\U{202F}' || c == '\U{205F}'
    || c == '\U{3000}' || c == '\U{FEFF}'
  }

  /** `line.trim() === ''`. */
  predicate IsBlank(line: string) {
    forall i :: 0 <= i < |line| ==> IsJsSpace(line[i])
  }

  /** `lines.filter((line) => line.trim() !== '')`. */
  function NonBlank(lines: seq<string>): (r: seq<string>)
    ensures |r| <= |lines|
    ensures forall k :: 0 <= k < |r| ==> !IsBlank(r[k]) && r[k] in lines
  {
    if lines == [] then []
    else if IsBlank(lines[0]) then NonBlank(lines[1..])
    else [lines[0]] + NonBlank(lines[1..])
  }

  lemma {:induction false} NonBlankAppend(a: seq<string>, b: seq<string>)
    ensures NonBlank(a + b) == NonBlank(a) + NonBlank(b)
  {
    if a == [] {
      assert a + b == b;
    } else {
      assert (a + b)[1..] == a[1..] + b;
      NonBlankAppend(a[1..], b);
    }
  }

  /** The lines the frontend parses from one chunk (ChatInterface.js line 70). */
  function ChunkLines(chunk: string): (r: seq<string>)
    ensures forall k :: 0 <= k < |r| ==> NoLineFeed(r[k]) && !IsBlank(r[k])
  {
    NonBlank(Split(chunk))
  }

  /** The JSON text of a record followed by the backend's space: what the frontend parses. */
  function Payload(record: seq<JsonText.Member>): string {
    JsonText.Dumps(record) + " "
  }

  function Payloads(records: seq<seq<JsonText.Member>>): (r: seq<string>)
    ensures |r| == |records|
    ensures forall k :: 0 <= k < |r| ==> r[k] == Payload(records[k])
  {
    if records == [] then [] else [Payload(records[0])] + Payloads(records[1..])
  }

  /**
   * A chunk made of whole backend lines yields, after splitting and dropping
   * blank lines, exactly one line per record, in order.
   */
  lemma {:induction false} ChunkOfWholeLines(records: seq<seq<JsonText.Member>>)
    ensures ChunkLines(Body(records)) == Payloads(records)
  {
    if records != [] {
      var p := Payload(records[0]);
      PayloadIsOneLine(records[0]);
      BodyStep(records);
      LineThenMore(p, Body(records[1..]));
      ChunkOfWholeLines(records[1..]);
    }
  }

  lemma BodyStep(records: seq<seq<JsonText.Member>>)
    requires records != []
    ensures Body(records) == Payload(records[0]) + "\n" + Body(records[1..])
  {
    assert Line(records[0]) == Payload(records[0]) + "\n";
  }

  /** The text of a record holds no line feed and is not blank. */
  lemma PayloadIsOneLine(record: seq<JsonText.Member>)
    ensures NoLineFeed(Payload(record)) && !IsBlank(Payload(record))
  {
    JsonText.DumpsPrintable(record);
    assert Payload(record)[0] == '{';
  }

  /** A line that is not blank, then a line feed: that line comes first, then the lines of the rest. */
  lemma LineThenMore(line: string, rest: string)
    requires NoLineFeed(line) && !IsBlank(line)
    ensures ChunkLines(line + "\n" + rest) == [line] + ChunkLines(rest)
  {
    SplitAfterLineFeed(line, rest);
    SplitNoLineFeed(line);
    NonBlankAppend([line], Split(rest));
  }
}
