/** framing.ts: newline-delimited frames over arbitrary chunks, and the writer they undo. */
module Framing {
  import opened Basics
  import opened Protocol

  /** The position of the first LF at or after i, or |s| when there is none. */
  function FindLFFrom(s: string, i: nat): (j: nat)
    requires i <= |s|
    ensures i <= j <= |s|
    ensures forall k :: i <= k < j ==> s[k] != '\n'
    ensures j < |s| ==> s[j] == '\n'
    decreases |s| - i
  {
    if i == |s| || s[i] == '\n' then i else FindLFFrom(s, i + 1)
  }

  function FindLF(s: string): (j: nat)
    ensures j <= |s|
    ensures forall k :: 0 <= k < j ==> s[k] != '\n'
    ensures j < |s| ==> s[j] == '\n'
  {
    FindLFFrom(s, 0)
  }

  /** The terminated lines of a text, and its unterminated tail. */
  function Lines(s: string): seq<string> {
    var i := FindLF(s);
    if i == |s| then [] else [s[..i]] + Lines(s[i + 1..])
  }

  function Tail(s: string): string {
    var i := FindLF(s);
    if i == |s| then s else Tail(s[i + 1..])
  }

  lemma FirstLF(s: string, i: nat)
    requires i <= |s|
    requires forall k :: 0 <= k < i ==> s[k] != '\n'
    requires i < |s| ==> s[i] == '\n'
    ensures FindLF(s) == i
  {
  }

  function Join(parts: seq<string>): string
    requires parts != []
  {
    if |parts| == 1 then parts[0] else parts[0] + "\n" + Join(parts[1..])
  }

  ghost predicate LFFree(parts: seq<string>) {
    forall p :: p in parts ==> '\n' !in p
  }

  lemma FirstSegment(s: string, parts: seq<string>)
    requires |parts| > 1 && Join(parts) == s && LFFree(parts)
    ensures FindLF(s) == |parts[0]| < |s|
  {
    var p := parts[0];
    assert s[|p|] == '\n';
    forall k | 0 <= k < |p| ensures s[k] != '\n' {
      assert s[k] == p[k] && p[k] in p && p in parts;
    }
    FirstLF(s, |p|);
  }

  /** Lines and Tail are the one splitting into LF-free parts that joins back to the text. */
  lemma {:induction false} SplitIsUnique(s: string, parts: seq<string>)
    requires parts != []
    ensures parts == Lines(s) + [Tail(s)] <==> Join(parts) == s && LFFree(parts)
    decreases |s|
  {
    var i := FindLF(s);
    if |parts| == 1 {
      if i == |s| {
        assert Join(parts) == s <==> parts == [s];
      } else {
        assert s[i] in s;
        assert |Lines(s)| >= 1;
      }
    } else {
      var p, rest := parts[0], parts[1..];
      assert parts == [p] + rest;
      if Join(parts) == s && LFFree(parts) {
        FirstSegment(s, parts);
      }
      if i < |s| {
        assert s == s[..i] + "\n" + s[i + 1..];
        SplitIsUnique(s[i + 1..], rest);
        assert Lines(s) + [Tail(s)] == [s[..i]] + (Lines(s[i + 1..]) + [Tail(s[i + 1..])]);
        if p == s[..i] {
          assert Join(parts) == s <==> Join(rest) == s[i + 1..] by {
            assert Join(parts)[i + 1..] == Join(rest);
          }
        } else {
          assert (Lines(s) + [Tail(s)])[0] == s[..i];
        }
      }
    }
  }

  function StripCR(line: string): string {
    if line != [] && line[|line| - 1] == '\r' then line[..|line| - 1] else line
  }

  /** The frames one terminated line gives: none when it is blank or does not decode. */
  function DecodeLine(lib: Lib, line: string): seq<Value> {
    var text := StripCR(line);
    if Blank(text) then [] else
    match lib.decode(text)
    case Some(v) => [v]
    case None => []
  }

  function DecodeLines(lib: Lib, lines: seq<string>): seq<Value> {
    if lines == [] then [] else DecodeLine(lib, lines[0]) + DecodeLines(lib, lines[1..])
  }

  /** The batch decoder: split everything, drop the tail, decode line by line. */
  function Batch(lib: Lib, text: string): seq<Value> { DecodeLines(lib, Lines(text)) }

  predicate AtLineBoundary(x: string) { x == [] || x[|x| - 1] == '\n' }

  lemma {:induction false} LinesOfConcat(x: string, y: string)
    ensures Lines(x + y) == Lines(x) + Lines(Tail(x) + y)
    ensures Tail(x + y) == Tail(Tail(x) + y)
    decreases |x|
  {
    var i := FindLF(x);
    if i == |x| {
      assert Lines(x) + Lines(Tail(x) + y) == Lines(x + y);
    } else {
      var rest, s := x[i + 1..], x + y;
      assert s[..i] == x[..i] && s[i + 1..] == rest + y;
      FirstLF(s, i);
      LinesOfConcat(rest, y);
      Associative([x[..i]], Lines(rest), Lines(Tail(rest) + y));
    }
  }

  lemma {:induction false} DecodeLinesOfConcat(lib: Lib, a: seq<string>, b: seq<string>)
    ensures DecodeLines(lib, a + b) == DecodeLines(lib, a) + DecodeLines(lib, b)
  {
    if a == [] {
      assert a + b == b;
    } else {
      DecodeLinesOfConcat(lib, a[1..], b);
      assert (a + b)[0] == a[0] && (a + b)[1..] == a[1..] + b;
      Associative(DecodeLine(lib, a[0]), DecodeLines(lib, a[1..]), DecodeLines(lib, b));
    }
  }

  /** Everything a reader needs to know to stop after x and go on with y: the unterminated tail. */
  lemma {:induction false} BatchOfConcat(lib: Lib, x: string, y: string)
    ensures Batch(lib, x + y) == Batch(lib, x) + Batch(lib, Tail(x) + y)
    ensures Tail(x + y) == Tail(Tail(x) + y)
  {
    LinesOfConcat(x, y);
    DecodeLinesOfConcat(lib, Lines(x), Lines(Tail(x) + y));
  }

  lemma {:induction false} TailAtBoundary(x: string)
    requires AtLineBoundary(x)
    ensures Tail(x) == []
    decreases |x|
  {
    var i := FindLF(x);
    if i < |x| {
      var rest := x[i + 1..];
      assert rest != [] ==> rest[|rest| - 1] == x[|x| - 1];
      TailAtBoundary(rest);
    }
  }

  /** Decoding is a homomorphism at line boundaries. */
  lemma BatchHomomorphism(lib: Lib, x: string, y: string)
    requires AtLineBoundary(x)
    ensures Batch(lib, x + y) == Batch(lib, x) + Batch(lib, y)
  {
    BatchOfConcat(lib, x, y);
    TailAtBoundary(x);
    assert Tail(x) + y == y;
  }

  lemma OneLine(lib: Lib, line: string)
    requires '\n' !in line
    ensures Batch(lib, line + "\n") == DecodeLine(lib, line)
    ensures AtLineBoundary(line + "\n")
  {
    var s := line + "\n";
    assert s[..|line|] == line && s[|line| + 1..] == [];
    FirstLF(s, |line|);
    assert Lines(s) == [line];
    assert DecodeLines(lib, [line]) == DecodeLine(lib, line) + DecodeLines(lib, []);
  }

  /** What one line of text gives: its value if it decodes, unless it is blank. */
  function LineGives(lib: Lib, text: string): seq<Value> {
    if Blank(text) || lib.decode(text).None? then [] else [lib.decode(text).value]
  }

  /**
   A line put at the end of a text adds the value its text decodes to, whoever encoded it, or nothing
   if it is blank or does not decode. One CR before the LF belongs to the line's end, no more.
   */
  lemma OneMoreLine(lib: Lib, x: string, text: string, end: string)
    requires AtLineBoundary(x) && '\n' !in text
    requires end == "\r\n" || (end == "\n" && (text == "" || text[|text| - 1] != '\r'))
    ensures Batch(lib, x + (text + end)) == Batch(lib, x) + LineGives(lib, text)
  {
    var line := if end == "\n" then text else text + "\r";
    assert text + end == line + "\n" by {
      if end != "\n" { assert "\r\n" == "\r" + "\n"; Associative(text, "\r", "\n"); }
    }
    assert (text + "\r")[..|text|] == text;
    assert StripCR(line) == text;
    OneLine(lib, line);
    BatchHomomorphism(lib, x, line + "\n");
  }

  /** A terminated line that does not decode, put in at a line boundary, changes nothing else. */
  lemma JunkLineIsInvisible(lib: Lib, x: string, junk: string, y: string)
    requires AtLineBoundary(x)
    requires '\n' !in junk
    requires DecodeLine(lib, junk) == []
    ensures Batch(lib, x + (junk + "\n") + y) == Batch(lib, x + y)
  {
    OneLine(lib, junk);
    BatchHomomorphism(lib, x, junk + "\n");
    BatchHomomorphism(lib, x + (junk + "\n"), y);
    BatchHomomorphism(lib, x, y);
  }

  /** The generator's outer loop, over its own buffer: the batch decoding of the whole input. */
  method ReadFrames(lib: Lib, chunks: seq<string>) returns (frames: seq<Value>)
    ensures frames == Batch(lib, Concat(chunks))
    ensures frames == Streamed(lib, chunks).0
  {
    var buffer := "";
    frames := [];
    for k := 0 to |chunks|
      invariant (frames, buffer) == Streamed(lib, chunks[..k])
    {
      assert chunks[..k + 1][..k] == chunks[..k];
      buffer := buffer + chunks[k];
      var more;
      more, buffer := TakeLines(lib, buffer);
      frames := frames + more;
    }
    assert chunks[..|chunks|] == chunks;
    StreamedIsBatch(lib, chunks);
  }

  /** Its inner loop: lines are taken while there is one, and the unterminated tail is kept. */
  method TakeLines(lib: Lib, text: string) returns (frames: seq<Value>, buffer: string)
    ensures frames == Batch(lib, text)
    ensures buffer == Tail(text)
  {
    buffer := text;
    frames := [];
    var idx := FindLF(buffer);
    while idx < |buffer|
      invariant idx == FindLF(buffer)
      invariant frames + Batch(lib, buffer) == Batch(lib, text)
      invariant Tail(buffer) == Tail(text)
      decreases |buffer|
    {
      TakeLine(lib, frames, buffer);
      var yielded := ParseLine(lib, buffer[..idx]);
      frames := frames + yielded;
      buffer := buffer[idx + 1..];
      idx := FindLF(buffer);
    }
  }

  /** Blank lines are skipped, and a line that does not parse is dropped. */
  method ParseLine(lib: Lib, raw: string) returns (frames: seq<Value>)
    ensures frames == DecodeLine(lib, raw)
  {
    var line := StripCR(raw);
    if Blank(line) { return []; }
    match lib.decode(line)
    case Some(v) => frames := [v];
    case None => frames := [];
  }

  lemma FirstLineOff(lib: Lib, buffer: string)
    requires FindLF(buffer) < |buffer|
    ensures var i := FindLF(buffer);
      Batch(lib, buffer) == DecodeLine(lib, buffer[..i]) + Batch(lib, buffer[i + 1..])
  {
    var i := FindLF(buffer);
    var line, rest := buffer[..i], Lines(buffer[i + 1..]);
    assert Lines(buffer) == [line] + rest;
    assert ([line] + rest)[0] == line && ([line] + rest)[1..] == rest;
  }

  /** One turn of the inner loop: the first line is decoded and the buffer shrinks past it. */
  lemma TakeLine(lib: Lib, frames: seq<Value>, buffer: string)
    requires FindLF(buffer) < |buffer|
    ensures var i := FindLF(buffer);
      && frames + Batch(lib, buffer) == frames + DecodeLine(lib, buffer[..i]) + Batch(lib, buffer[i + 1..])
      && Tail(buffer) == Tail(buffer[i + 1..])
  {
    var i := FindLF(buffer);
    FirstLineOff(lib, buffer);
    Associative(frames, DecodeLine(lib, buffer[..i]), Batch(lib, buffer[i + 1..]));
  }

  /** The reader as a fold over the chunks: what it has yielded, and what it keeps in its buffer. */
  function Streamed(lib: Lib, chunks: seq<string>): (seq<Value>, string) {
    if chunks == [] then ([], "") else
    var (frames, buffer) := Streamed(lib, chunks[..|chunks| - 1]);
    var text := buffer + chunks[|chunks| - 1];
    (frames + Batch(lib, text), Tail(text))
  }

  lemma {:induction false} StreamedIsBatch(lib: Lib, chunks: seq<string>)
    ensures Streamed(lib, chunks) == (Batch(lib, Concat(chunks)), Tail(Concat(chunks)))
  {
    if chunks != [] {
      var n := |chunks| - 1;
      StreamedIsBatch(lib, chunks[..n]);
      BatchOfConcat(lib, Concat(chunks[..n]), chunks[n]);
    }
  }

  /**
   The reader does not depend on where the chunks were cut: the same input leaves it with the same
   frames and the same buffer, and more input never takes a frame back.
   */
  lemma ChunkingDoesNotMatter(lib: Lib, a: seq<string>, b: seq<string>, y: string)
    requires Concat(b) == Concat(a) + y
    ensures Streamed(lib, a).0 <= Streamed(lib, b).0
    ensures y == [] ==> Streamed(lib, a) == Streamed(lib, b)
  {
    StreamedIsBatch(lib, a);
    StreamedIsBatch(lib, b);
    BatchOfConcat(lib, Concat(a), y);
    assert y == [] ==> Concat(a) + y == Concat(a);
  }

  /** The text of a log of frames, each line ended by its own terminator. */
  ghost function Text(lib: Lib, log: seq<Frame>, ends: seq<string>): string
    requires |ends| == |log|
    requires forall f :: f in log ==> lib.encode(f).Some?
  {
    if log == [] then "" else
      Text(lib, log[..|log| - 1], ends[..|log| - 1])
      + (lib.encode(log[|log| - 1]).value + ends[|log| - 1])
  }

  function Objects(log: seq<Frame>): seq<Value> {
    if log == [] then [] else Objects(log[..|log| - 1]) + [Object(log[|log| - 1])]
  }

  lemma EncodedText(lib: Lib, f: Frame)
    requires Lawful(lib) && lib.encode(f).Some?
    ensures var t := lib.encode(f).value;
      && '\n' !in t && StripCR(t) == t && StripCR(t + "\r") == t
      && DecodeLine(lib, t) == [Object(f)] && DecodeLine(lib, t + "\r") == [Object(f)]
  {
    var t := lib.encode(f).value;
    assert (t + "\r")[..|t|] == t;
    assert !Blank(t) by {
      assert lib.decode(t) != None;
    }
  }

  lemma EncodedLine(lib: Lib, f: Frame, end: string)
    requires Lawful(lib) && lib.encode(f).Some?
    requires end == "\n" || end == "\r\n"
    ensures Batch(lib, lib.encode(f).value + end) == [Object(f)]
    ensures AtLineBoundary(lib.encode(f).value + end)
  {
    var t := lib.encode(f).value;
    EncodedText(lib, f);
    var line := if end == "\n" then t else t + "\r";
    assert t + end == line + "\n" by {
      if end != "\n" { assert "\r\n" == "\r" + "\n"; Associative(t, "\r", "\n"); }
    }
    OneLine(lib, line);
  }

  /** What was written is what is read, with LF or CRLF after each frame. */
  lemma {:induction false} RoundTrip(lib: Lib, log: seq<Frame>, ends: seq<string>)
    requires Lawful(lib)
    requires |ends| == |log|
    requires forall f :: f in log ==> lib.encode(f).Some?
    requires forall i :: 0 <= i < |ends| ==> ends[i] == "\n" || ends[i] == "\r\n"
    ensures Batch(lib, Text(lib, log, ends)) == Objects(log)
    ensures AtLineBoundary(Text(lib, log, ends))
  {
    if log != [] {
      var n := |log| - 1;
      var before := Text(lib, log[..n], ends[..n]);
      var line := lib.encode(log[n]).value + ends[n];
      RoundTrip(lib, log[..n], ends[..n]);
      EncodedLine(lib, log[n], ends[n]);
      BatchHomomorphism(lib, before, line);
    }
  }

  // The pipe ------------------------------------------------------------------------------------

  /** Who wrote a frame: the main loop, a request's handler, a session, or an outbound call. */
  datatype Origin = ByMain | ByHandler(h: nat) | BySession(ref: nat) | ByRpc(id: int)
  datatype Record = Record(origin: Origin, frame: Frame)

  /** The bytes on the pipe, and the frames they were written for. */
  datatype Out = Out(bytes: string, log: seq<Record>)

  /** send: nothing is written when JSON.stringify throws. */
  function Write(lib: Lib, o: Out, origin: Origin, f: Frame): Out {
    match lib.encode(f)
    case Some(text) => Out(o.bytes + (text + "\n"), o.log + [Record(origin, f)])
    case None => o
  }

  /** At most one frame of one writer. */
  function Said(lib: Lib, o: Out, origin: Origin, frames: seq<Frame>): Out {
    if frames == [] then o else Write(lib, o, origin, frames[0])
  }

  function Frames(log: seq<Record>): seq<Frame> {
    if log == [] then [] else Frames(log[..|log| - 1]) + [log[|log| - 1].frame]
  }

  function LFs(n: nat): (r: seq<string>)
    ensures |r| == n
    ensures forall i :: 0 <= i < n ==> r[i] == "\n"
  {
    if n == 0 then [] else LFs(n - 1) + ["\n"]
  }

  /** The bytes are the encodings of the logged frames, each one whole and ended by LF. */
  ghost predicate WholeFrames(lib: Lib, o: Out) {
    var frames := Frames(o.log);
    && (forall f :: f in frames ==> lib.encode(f).Some?)
    && o.bytes == Text(lib, frames, LFs(|frames|))
  }

  lemma WriteKeepsFrames(lib: Lib, o: Out, origin: Origin, f: Frame)
    requires WholeFrames(lib, o)
    ensures WholeFrames(lib, Write(lib, o, origin, f))
  {
    if lib.encode(f).Some? {
      var p := Write(lib, o, origin, f);
      assert p.log[..|p.log| - 1] == o.log;
      var frames := Frames(o.log);
      assert Frames(p.log) == frames + [f];
      assert (frames + [f])[..|frames|] == frames;
      assert LFs(|frames| + 1)[..|frames|] == LFs(|frames|);
    }
  }

  /** The output stream shared by every writer. */
  class Wire {
    const lib: Lib
    var bytes: string
    ghost var log: seq<Record>

    ghost function View(): Out
      reads this
    {
      Out(bytes, log)
    }

    constructor (lib: Lib)
      ensures View() == Out("", []) && this.lib == lib
    {
      this.lib := lib;
      bytes := "";
      log := [];
    }

    /** send: false when JSON.stringify throws, and then nothing is written. */
    method Send(frame: Frame, ghost origin: Origin) returns (ok: bool)
      modifies this
      ensures ok == lib.encode(frame).Some?
      ensures View() == Write(lib, old(View()), origin, frame)
    {
      match lib.encode(frame)
      case None =>
        ok := false;
      case Some(text) =>
        bytes := bytes + (text + "\n");
        log := log + [Record(origin, frame)];
        ok := true;
    }
  }
}
