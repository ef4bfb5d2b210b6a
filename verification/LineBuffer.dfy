/**
 The streaming line splitter that turns a command's output chunks into log lines, and the batch
 split of the whole output that it agrees with under every chunking.
 */
module LineBuffer {

  // ---------- The batch split at /\r?\n/ ----------

  function FirstNewline(s: string): (i: nat)
    requires '\n' in s
    ensures i < |s| && s[i] == '\n' && forall k :: 0 <= k < i ==> s[k] != '\n'
  {
    if s[0] == '\n' then 0 else 1 + FirstNewline(s[1..])
  }

  function StripReturn(line: string): string {
    if line != "" && line[|line| - 1] == '\r' then line[..|line| - 1] else line
  }

  function Split(s: string): (parts: seq<string>)
    ensures parts != []
    decreases |s|
  {
    if '\n' !in s then [s]
    else
      var i := FirstNewline(s);
      [StripReturn(s[..i])] + Split(s[i + 1..])
  }

  function Last(parts: seq<string>): string
    requires parts != []
  {
    parts[|parts| - 1]
  }

  function Lines(parts: seq<string>): seq<string>
    requires parts != []
  {
    parts[..|parts| - 1]
  }

  // ---------- What the split means ----------

  /** The parts and the line ends between them, put together again. */
  function Join(parts: seq<string>, ends: seq<string>): string
    requires |parts| == |ends| + 1
  {
    if ends == [] then parts[0] else parts[0] + ends[0] + Join(parts[1..], ends[1..])
  }

  /**
   s reads as these parts with these ends: each end is a newline with or without a carriage return
   before it, no part holds a newline, and a carriage return before a newline belongs to the end.
   */
  predicate Reads(s: string, parts: seq<string>, ends: seq<string>) {
    |parts| == |ends| + 1 && Join(parts, ends) == s &&
    (forall k :: 0 <= k < |parts| ==> '\n' !in parts[k]) &&
    (forall k :: 0 <= k < |ends| ==> ends[k] == "\n" || ends[k] == "\r\n") &&
    (forall k :: 0 <= k < |ends| && ends[k] == "\n" ==> StripReturn(parts[k]) == parts[k])
  }

  /** There is only one way to read a text, and it is the split. */
  lemma {:induction false} ReadingIsSplit(s: string, parts: seq<string>, ends: seq<string>)
    requires Reads(s, parts, ends)
    ensures parts == Split(s)
    decreases |ends|
  {
    if ends != [] {
      var rest := Join(parts[1..], ends[1..]);
      FirstLineOf(parts[0], ends[0], rest);
      assert s == parts[0] + ends[0] + rest;
      ReadingIsSplit(rest, parts[1..], ends[1..]);
    }
  }

  lemma FirstLineOf(line: string, end: string, rest: string)
    requires '\n' !in line && (end == "\r\n" || (end == "\n" && StripReturn(line) == line))
    ensures Split(line + end + rest) == [line] + Split(rest)
  {
    var s, n := line + end + rest, |line| + |end| - 1;
    assert s[n] == '\n' && s[n + 1..] == rest;
    assert s[..n] == line + end[..|end| - 1];
    FirstNewlineIs(s, n);
    if end == "\r\n" { assert s[..n] == line + "\r"; } else { assert s[..n] == line; }
  }

  lemma FirstNewlineIs(s: string, n: nat)
    requires n < |s| && s[n] == '\n' && '\n' !in s[..n]
    ensures '\n' in s && FirstNewline(s) == n
  {
    forall k | 0 <= k < n ensures s[k] != '\n' { assert s[k] == s[..n][k]; }
  }

  lemma ReadsOneMore(line: string, end: string, s: string, parts: seq<string>, ends: seq<string>)
    requires Reads(s, parts, ends) && '\n' !in line
    requires end == "\r\n" || (end == "\n" && StripReturn(line) == line)
    ensures Reads(line + end + s, [line] + parts, [end] + ends)
  {
    assert ([line] + parts)[1..] == parts && ([end] + ends)[1..] == ends;
  }

  /** The end of a text's first line. */
  function FirstEnd(s: string): string
    requires '\n' in s
  {
    var line := s[..FirstNewline(s)];
    if StripReturn(line) == line then "\n" else "\r\n"
  }

  lemma FirstLineAndEnd(s: string)
    requires '\n' in s
    ensures var i := FirstNewline(s);
      StripReturn(s[..i]) + FirstEnd(s) + s[i + 1..] == s && '\n' !in StripReturn(s[..i]) &&
      (FirstEnd(s) == "\n" ==> StripReturn(StripReturn(s[..i])) == StripReturn(s[..i]))
  {
    var i := FirstNewline(s);
    var line := s[..i];
    assert s == line + "\n" + s[i + 1..];
    assert StripReturn(line) + FirstEnd(s) == line + "\n";
  }

  /** Every text can be read that way. */
  lemma {:induction false} SplitReads(s: string) returns (ends: seq<string>)
    ensures Reads(s, Split(s), ends)
    decreases |s|
  {
    if '\n' !in s {
      ends := [];
    } else {
      var i := FirstNewline(s);
      var rest := SplitReads(s[i + 1..]);
      FirstLineAndEnd(s);
      ReadsOneMore(StripReturn(s[..i]), FirstEnd(s), s[i + 1..], Split(s[i + 1..]), rest);
      ends := [FirstEnd(s)] + rest;
    }
  }

  // ---------- The stream ----------

  datatype Stream = Stream(buffer: string, emitted: seq<string>)

  function Written(st: Stream, chunk: string): Stream {
    var parts := Split(st.buffer + chunk);
    Stream(Last(parts), st.emitted + Lines(parts))
  }

  function Flushed(st: Stream): Stream {
    Stream("", if st.buffer == "" then st.emitted else st.emitted + [st.buffer])
  }

  function WrittenAll(st: Stream, chunks: seq<string>): Stream {
    if chunks == [] then st else Written(WrittenAll(st, chunks[..|chunks| - 1]), chunks[|chunks| - 1])
  }

  function Concat(chunks: seq<string>): string {
    if chunks == [] then "" else Concat(chunks[..|chunks| - 1]) + chunks[|chunks| - 1]
  }

  /** The batch result: the split of the whole text without an empty last part. */
  function BatchLines(s: string): seq<string> {
    if Last(Split(s)) == "" then Lines(Split(s)) else Split(s)
  }

  lemma SplitAfterNewline(x: string, y: string)
    requires '\n' in x
    ensures Split(x + y) == [StripReturn(x[..FirstNewline(x)])] + Split(x[FirstNewline(x) + 1..] + y)
  {
    var i := FirstNewline(x);
    assert (x + y)[..i] == x[..i] && (x + y)[i] == '\n' && (x + y)[i + 1..] == x[i + 1..] + y;
    FirstNewlineIs(x + y, i);
  }

  /** Splitting may stop anywhere, even between CR and LF, if the last part is carried over. */
  lemma {:induction false} SplitCarriesOver(x: string, y: string)
    ensures Split(x + y) == Lines(Split(x)) + Split(Last(Split(x)) + y)
    decreases |x|
  {
    if '\n' in x {
      var i := FirstNewline(x);
      var line, rest := StripReturn(x[..i]), Split(x[i + 1..]);
      SplitCarriesOver(x[i + 1..], y);
      SplitAfterNewline(x, y);
      assert Lines([line] + rest) == [line] + Lines(rest) && Last([line] + rest) == Last(rest);
    }
  }

  lemma {:induction false} LastHasNoNewline(s: string)
    ensures '\n' !in Last(Split(s))
    decreases |s|
  {
    if '\n' in s { LastHasNoNewline(s[FirstNewline(s) + 1..]); }
  }

  /** After any chunks, the lines emitted so far and the buffer are the split of what was written. */
  lemma {:induction false} StreamIsSplitSoFar(chunks: seq<string>)
    ensures WrittenAll(Stream("", []), chunks) == Stream(Last(Split(Concat(chunks))), Lines(Split(Concat(chunks))))
    ensures '\n' !in WrittenAll(Stream("", []), chunks).buffer
  {
    if chunks != [] {
      var n := |chunks| - 1;
      StreamIsSplitSoFar(chunks[..n]);
      SplitCarriesOver(Concat(chunks[..n]), chunks[n]);
    }
    LastHasNoNewline(Concat(chunks));
  }

  /** Streaming equals batch, under every chunking. */
  lemma StreamingEqualsBatch(chunks: seq<string>)
    ensures Flushed(WrittenAll(Stream("", []), chunks)) == Stream("", BatchLines(Concat(chunks)))
    ensures Flushed(Flushed(WrittenAll(Stream("", []), chunks))) == Flushed(WrittenAll(Stream("", []), chunks))
  {
    StreamIsSplitSoFar(chunks);
    FlushCompletes(Split(Concat(chunks)));
  }

  lemma FlushCompletes(parts: seq<string>)
    requires parts != []
    ensures Flushed(Stream(Last(parts), Lines(parts))) == Stream("", if Last(parts) == "" then Lines(parts) else parts)
  {
    assert Lines(parts) + [Last(parts)] == parts;
  }

  /** The line buffer of one output stream; `emitted` is what its callback has received. */
  class Buffer {
    var buffer: string
    var emitted: seq<string>

    function State(): Stream
      reads this
    {
      Stream(buffer, emitted)
    }

    constructor ()
      ensures State() == Stream("", [])
    {
      buffer, emitted := "", [];
    }

    method Write(chunk: string)
      modifies this
      ensures State() == Written(old(State()), chunk) && '\n' !in buffer
    {
      buffer := buffer + chunk;
      var parts := Split(buffer);
      LastHasNoNewline(buffer);
      buffer := parts[|parts| - 1];
      parts := parts[..|parts| - 1];
      for k := 0 to |parts|
        invariant buffer == old(Written(State(), chunk)).buffer && emitted == old(emitted) + parts[..k]
      {
        emitted := emitted + [parts[k]];
      }
      assert parts[..|parts|] == parts;
    }

    method Flush()
      modifies this
      ensures State() == Flushed(old(State()))
    {
      var remaining := buffer;
      buffer := "";
      if |remaining| > 0 { emitted := emitted + [remaining]; }
    }
  }

  /** A command's output, chunk by chunk and then closed, is logged as its batch lines. */
  method LogOutput(chunks: seq<string>) returns (logged: seq<string>)
    ensures logged == BatchLines(Concat(chunks))
  {
    var b := new Buffer();
    for k := 0 to |chunks|
      invariant fresh(b) && b.State() == WrittenAll(Stream("", []), chunks[..k])
    {
      b.Write(chunks[k]);
      assert chunks[..k + 1][..k] == chunks[..k];
    }
    assert chunks[..|chunks|] == chunks;
    b.Flush();
    StreamingEqualsBatch(chunks);
    logged := b.emitted;
  }
}
