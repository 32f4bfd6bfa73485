/** Reading a JSON text sequence that arrives in chunks. */
module JsonSequence {
  import opened Wrappers
  import opened Bytes
  import opened Json

  const RS: Byte := 0x1e
  const LF: Byte := 0x0a

  datatype Error = NoSeparator | BadJson | NotAnObject | Incomplete

  /** What the caller of the generator sees: the records in order, and then the end or an error. */
  datatype Outcome = Outcome(records: seq<Json>, failure: Option<Error>)

  /** `json.loads`; None is a raised decoding error. */
  type Parser = seq<Byte> -> Option<Json>

  predicate OneLine(s: seq<Byte>)
  {
    forall k :: 0 <= k < |s| ==> s[k] != LF
  }

  /** `buffer.find(b"\n")`, with the length for -1. */
  function FindLf(s: seq<Byte>): (n: nat)
    ensures n <= |s| && OneLine(s[..n])
    ensures n < |s| ==> s[n] == LF
  {
    if s == [] || s[0] == LF then 0
    else
      var n := 1 + FindLf(s[1..]);
      assert s[..n] == [s[0]] + s[1..][..n - 1];
      n
  }

  /** One line without its line feed. */
  function Record(parse: Parser, line: seq<Byte>): Result<Json, Error>
  {
    if line == [] || line[0] != RS then Err(NoSeparator)
    else match parse(line[1..])
      case None => Err(BadJson)
      case Some(j) => if j.Obj? then Ok(j) else Err(NotAnObject)
  }

  function Prepend(records: seq<Json>, o: Outcome): Outcome
  {
    Outcome(records + o.records, o.failure)
  }

  /** A line that has been read, and what comes after it. */
  function After(line: Result<Json, Error>, rest: Outcome): Outcome
  {
    match line
    case Err(e) => Outcome([], Some(e))
    case Ok(j) => Prepend([j], rest)
  }

  /** The meaning of a whole byte stream. */
  function Read(parse: Parser, s: seq<Byte>): Outcome
    decreases |s|
  {
    var n := FindLf(s);
    if n == |s| then Outcome([], if s == [] then None else Some(Incomplete))
    else After(Record(parse, s[..n]), Read(parse, s[n + 1..]))
  }

  function Concat(chunks: seq<seq<Byte>>): seq<Byte>
  {
    if chunks == [] then [] else chunks[0] + Concat(chunks[1..])
  }

  lemma {:induction false} FindLfIs(line: seq<Byte>, rest: seq<Byte>)
    requires OneLine(line)
    ensures FindLf(line + [LF] + rest) == |line|
  {
    var s := line + [LF] + rest;
    if line == [] {
      assert s[0] == LF;
    } else {
      assert s[0] == line[0] && s[1..] == line[1..] + [LF] + rest;
      FindLfIs(line[1..], rest);
    }
  }

  /** The first line decides the first record. */
  lemma ReadLine(parse: Parser, line: seq<Byte>, rest: seq<Byte>)
    requires OneLine(line)
    ensures Read(parse, line + [LF] + rest) == After(Record(parse, line), Read(parse, rest))
  {
    var s := line + [LF] + rest;
    FindLfIs(line, rest);
    assert s[..|line|] == line && s[|line| + 1..] == rest;
  }

  lemma {:induction false} FindLfMissing(s: seq<Byte>)
    requires OneLine(s)
    ensures FindLf(s) == |s|
  {
    if s != [] {
      FindLfMissing(s[1..]);
    }
  }

  lemma PrependTwice(a: seq<Json>, b: seq<Json>, o: Outcome)
    ensures Prepend(a, Prepend(b, o)) == Prepend(a + b, o)
  {
    assert a + (b + o.records) == a + b + o.records;
  }

  /** Taking one line off the buffer. */
  lemma TakeLine(parse: Parser, records: seq<Json>, buffer: seq<Byte>, n: nat, rest: seq<Byte>)
    requires n < |buffer| && buffer[n] == LF && OneLine(buffer[..n])
    ensures var line := Record(parse, buffer[..n]);
            Prepend(records, Read(parse, buffer + rest)) ==
            if line.Err? then Outcome(records, Some(line.error))
            else Prepend(records + [line.value], Read(parse, buffer[n + 1..] + rest))
  {
    var line := Record(parse, buffer[..n]);
    var left := buffer[n + 1..] + rest;
    assert buffer + rest == buffer[..n] + [LF] + left;
    ReadLine(parse, buffer[..n], left);
    if line.Ok? {
      PrependTwice(records, [line.value], Read(parse, left));
    } else {
      assert records + [] == records;
    }
  }

  /** The inner loop: every whole line of the buffer is taken off it. The stream that the buffer begins
      keeps its meaning, `rest` being the part that has not arrived. */
  method TakeLines(parse: Parser, already: seq<Json>, arrived: seq<Byte>, ghost rest: seq<Byte>)
    returns (records: seq<Json>, buffer: seq<Byte>, failure: Option<Error>)
    ensures failure.Some? ==> Prepend(already, Read(parse, arrived + rest)) == Outcome(records, failure)
    ensures failure.None? ==>
      OneLine(buffer) && Prepend(already, Read(parse, arrived + rest)) == Prepend(records, Read(parse, buffer + rest))
  {
    records, buffer, failure := already, arrived, None;
    while true
      invariant Prepend(already, Read(parse, arrived + rest)) == Prepend(records, Read(parse, buffer + rest))
      decreases |buffer|
    {
      var newline := FindLf(buffer);
      if newline == |buffer| {
        return;
      }
      TakeLine(parse, records, buffer, newline, rest);
      var record := buffer[..newline];
      buffer := buffer[newline + 1..];
      var line := Record(parse, record);
      if line.Err? {
        failure := Some(line.error);
        return;
      }
      records := records + [line.value];
    }
  }

  lemma NextChunk(buffer: seq<Byte>, chunks: seq<seq<Byte>>, i: nat)
    requires i < |chunks|
    ensures buffer + Concat(chunks[i..]) == buffer + chunks[i] + Concat(chunks[i + 1..])
  {
    assert chunks[i..][1..] == chunks[i + 1..];
    var rest := Concat(chunks[i + 1..]);
    assert buffer + (chunks[i] + rest) == (buffer + chunks[i]) + rest;
  }

  /** At the end of the stream only an unfinished line can be left. */
  lemma EndOfStream(parse: Parser, buffer: seq<Byte>)
    requires OneLine(buffer)
    ensures Read(parse, buffer) == Outcome([], if buffer != [] then Some(Incomplete) else None)
  {
    FindLfMissing(buffer);
  }

  /** `iter_json_sequence_records`: the outcome depends on the stream alone, so every way of cutting it
      into chunks gives the same records and the same end. */
  method IterRecords(parse: Parser, chunks: seq<seq<Byte>>) returns (o: Outcome)
    ensures o == Read(parse, Concat(chunks))
  {
    var records: seq<Json> := [];
    var buffer: seq<Byte> := [];
    var i := 0;
    assert chunks[0..] == chunks && [] + Concat(chunks) == Concat(chunks);
    while i < |chunks|
      invariant 0 <= i <= |chunks|
      invariant OneLine(buffer)
      invariant Read(parse, Concat(chunks)) == Prepend(records, Read(parse, buffer + Concat(chunks[i..])))
    {
      ghost var rest := Concat(chunks[i + 1..]);
      NextChunk(buffer, chunks, i);
      buffer := buffer + chunks[i];
      var failure;
      records, buffer, failure := TakeLines(parse, records, buffer, rest);
      if failure.Some? {
        return Outcome(records, failure);
      }
      i := i + 1;
    }
    assert buffer + Concat(chunks[i..]) == buffer;
    EndOfStream(parse, buffer);
    assert records + [] == records;
    return Outcome(records, if buffer != [] then Some(Incomplete) else None);
  }

  // ----------------------------------------------------------------- the format

  /** A text that can stand in a record: it parses to an object and has no line feed. */
  predicate IsText(parse: Parser, text: seq<Byte>)
  {
    OneLine(text) && parse(text).Some? && parse(text).value.Obj?
  }

  predicate AreTexts(parse: Parser, texts: seq<seq<Byte>>)
  {
    forall i :: 0 <= i < |texts| ==> IsText(parse, texts[i])
  }

  function Write(texts: seq<seq<Byte>>): seq<Byte>
  {
    if texts == [] then [] else [RS] + texts[0] + [LF] + Write(texts[1..])
  }

  function Parsed(parse: Parser, texts: seq<seq<Byte>>): (r: seq<Json>)
    requires AreTexts(parse, texts)
    ensures |r| == |texts| && forall i :: 0 <= i < |r| ==> Some(r[i]) == parse(texts[i])
  {
    if texts == [] then [] else [parse(texts[0]).value] + Parsed(parse, texts[1..])
  }

  /** Section 2 of RFC 7464: reading back what was written yields the objects written, and then goes on
      with what follows. */
  lemma {:induction false} ReadBack(parse: Parser, texts: seq<seq<Byte>>, tail: seq<Byte>)
    requires AreTexts(parse, texts)
    ensures Read(parse, Write(texts) + tail) == Prepend(Parsed(parse, texts), Read(parse, tail))
  {
    if texts == [] {
      assert Write(texts) + tail == tail;
    } else {
      var line := [RS] + texts[0];
      var more := Write(texts[1..]) + tail;
      WriteStep(texts, tail);
      ReadLine(parse, line, more);
      ReadBack(parse, texts[1..], tail);
      assert line[1..] == texts[0];
      PrependTwice([parse(texts[0]).value], Parsed(parse, texts[1..]), Read(parse, tail));
    }
  }

  lemma WriteStep(texts: seq<seq<Byte>>, tail: seq<Byte>)
    requires texts != []
    ensures Write(texts) + tail == [RS] + texts[0] + [LF] + (Write(texts[1..]) + tail)
  {
  }

  /** Conversely every stream is some written texts, whose objects are exactly the records yielded, and a
      tail that yields none: the tail is empty exactly when the reader reports no error. */
  lemma {:induction false} EveryStreamSplits(parse: Parser, s: seq<Byte>)
    returns (texts: seq<seq<Byte>>, tail: seq<Byte>)
    ensures AreTexts(parse, texts) && s == Write(texts) + tail
    ensures Read(parse, s).records == Parsed(parse, texts) && Read(parse, tail).records == []
    ensures Read(parse, s).failure.None? <==> tail == []
    decreases |s|
  {
    var n := FindLf(s);
    texts, tail := [], s;
    if n < |s| && Record(parse, s[..n]).Ok? {
      var text := s[..n][1..];
      var more;
      more, tail := EveryStreamSplits(parse, s[n + 1..]);
      texts := [text] + more;
      SplitStep(parse, s, n, text, more, tail);
    }
  }

  lemma SplitStep(parse: Parser, s: seq<Byte>, n: nat, text: seq<Byte>, more: seq<seq<Byte>>, tail: seq<Byte>)
    requires n < |s| && s[n] == LF && OneLine(s[..n]) && Record(parse, s[..n]).Ok? && text == s[..n][1..]
    requires AreTexts(parse, more) && s[n + 1..] == Write(more) + tail
    ensures AreTexts(parse, [text] + more) && s == Write([text] + more) + tail
    ensures Parsed(parse, [text] + more) == [Record(parse, s[..n]).value] + Parsed(parse, more)
  {
    assert ([text] + more)[1..] == more;
    assert s[..n] == [RS] + text;
    assert s == s[..n] + [LF] + s[n + 1..];
    assert Write([text] + more) + tail == [RS] + text + [LF] + (Write(more) + tail);
  }

  /** So the reader accepts exactly the streams made of records. */
  lemma AcceptsExactly(parse: Parser, s: seq<Byte>)
    ensures Read(parse, s).failure.None? <==> exists texts :: s == Write(texts) && AreTexts(parse, texts)
  {
    var texts, tail := EveryStreamSplits(parse, s);
    if Read(parse, s).failure.None? {
      assert s == Write(texts);
    }
    if more :| s == Write(more) && AreTexts(parse, more) {
      ReadBack(parse, more, []);
      assert Write(more) + [] == s;
    }
  }

  // --------------------------------------------------------- texts over several lines

  /** A text that section 2.1 of RFC 7464 allows in a record: a JSON object, in which RS cannot occur. */
  predicate IsObjectText(parse: Parser, text: seq<Byte>)
  {
    parse(text).Some? && parse(text).value.Obj? && RS !in text
  }

  predicate AreObjectTexts(parse: Parser, texts: seq<seq<Byte>>)
  {
    forall i :: 0 <= i < |texts| ==> IsObjectText(parse, texts[i])
  }

  predicate AllOneLine(texts: seq<seq<Byte>>)
  {
    forall i :: 0 <= i < |texts| ==> OneLine(texts[i])
  }

  /** A line that does not begin with RS is refused. */
  lemma NoSeparatorFails(parse: Parser, s: seq<Byte>)
    requires s != [] && s[0] != RS
    ensures Read(parse, s).failure.Some? && Read(parse, s).records == []
  {
    var n := FindLf(s);
    if n < |s| {
      assert s[..n] == [] || s[..n][0] == s[0];
    }
  }

  /** A record whose text has a line feed is cut in two, and its second half is refused. */
  lemma ManyLinesFail(parse: Parser, text: seq<Byte>, more: seq<Byte>)
    requires RS !in text && !OneLine(text)
    ensures Read(parse, [RS] + text + [LF] + more).failure.Some?
  {
    var n := FindLf(text);
    assert text[..|text|] == text;
    var line, rest := [RS] + text[..n], text[n + 1..] + [LF] + more;
    assert [RS] + text + [LF] + more == line + [LF] + rest;
    ReadLine(parse, line, rest);
    assert rest[0] != RS by {
      if n + 1 < |text| {
        assert rest[0] == text[n + 1] && text[n + 1] in text;
      }
    }
    NoSeparatorFails(parse, rest);
  }

  /** A written sequence of objects is read back without error if and only if none of its texts has a line feed. */
  lemma {:induction false} ReadBackIff(parse: Parser, texts: seq<seq<Byte>>)
    requires AreObjectTexts(parse, texts)
    ensures Read(parse, Write(texts)).failure.None? <==> AllOneLine(texts)
    ensures AllOneLine(texts) ==> AreTexts(parse, texts) && Read(parse, Write(texts)) == Outcome(Parsed(parse, texts), None)
  {
    if AllOneLine(texts) {
      ReadBack(parse, texts, []);
      assert Write(texts) + [] == Write(texts) && Parsed(parse, texts) + [] == Parsed(parse, texts);
    } else {
      SomeTwoLinesFail(parse, texts);
    }
  }

  /** Reading stops at the first text with a line feed. */
  lemma {:induction false} SomeTwoLinesFail(parse: Parser, texts: seq<seq<Byte>>)
    requires AreObjectTexts(parse, texts) && !AllOneLine(texts)
    ensures Read(parse, Write(texts)).failure.Some?
  {
    var rest := texts[1..];
    WriteStep(texts, []);
    assert Write(texts) + [] == Write(texts) && Write(rest) + [] == Write(rest);
    if OneLine(texts[0]) {
      var i :| 0 <= i < |texts| && !OneLine(texts[i]);
      assert rest[i - 1] == texts[i];
      SomeTwoLinesFail(parse, rest);
      OneLineThenFailure(parse, texts[0], Write(rest));
    } else {
      ManyLinesFail(parse, texts[0], Write(rest));
    }
  }

  lemma OneLineThenFailure(parse: Parser, text: seq<Byte>, rest: seq<Byte>)
    requires OneLine(text) && Read(parse, rest).failure.Some?
    ensures Read(parse, [RS] + text + [LF] + rest).failure.Some?
  {
    ReadLine(parse, [RS] + text, rest);
  }

  /** The smallest such text: an object printed over two lines. */
  lemma TwoLineObjectIsRefused(parse: Parser)
    requires IsObjectText(parse, [0x7b, LF, 0x7d])
    ensures Read(parse, Write([[0x7b, LF, 0x7d]])).failure.Some?
  {
    var text := [0x7b, LF, 0x7d];
    assert !OneLine(text) by {
      assert text[1] == LF;
    }
    var texts := [text];
    assert !OneLine(texts[0]);
    ReadBackIff(parse, texts);
  }
}
