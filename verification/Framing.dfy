/** Newline framing of protocol/framing.go: one object encoding per line, with a
    size limit that both sides check. */
module Framing {
  import opened Bytes
  import opened Channels

  const LF: byte := 10
  const CR: byte := 13
  const OPEN_BRACE: byte := 123
  const CLOSE_BRACE: byte := 125

  datatype WriteResult = Written | MarshalFailed | NotAnObject | WriteTooLarge | SinkFailed

  datatype ReadResult =
    | Frame(data: seq<byte>)
    | EndOfInput
    | SourceFailed
    | TooLarge
    | Malformed

  /** Whether the JSON decoder takes a frame to be an object. */
  type ObjectTest = seq<byte> -> bool

  // ---- Encoder.Write -------------------------------------------------------

  class Encoder {
    var sink: seq<byte>
    var maxSize: int

    constructor (maxSize: int)
      ensures sink == [] && this.maxSize == maxSize
    {
      sink, this.maxSize := [], maxSize;
    }

    /** Write of a value whose JSON encoding is `encoding`, if it has one, to a
        writer that may break after some bytes. */
    method Write(encoding: Option<seq<byte>>, breaksAfter: Option<nat>) returns (r: WriteResult)
      modifies this`sink
      ensures r.Written? || r.SinkFailed? <==>
                && encoding.Some? && encoding.value != [] && encoding.value[0] == OPEN_BRACE
                && (maxSize > 0 ==> |encoding.value| <= maxSize)
      ensures r.SinkFailed? ==> breaksAfter.Some?
      ensures r.Written? ==> breaksAfter.None?
      ensures r.Written? ==> sink == old(sink) + encoding.value + [LF]
      ensures r.SinkFailed? ==> old(sink) <= sink <= old(sink) + encoding.value + [LF]
      ensures !r.Written? && !r.SinkFailed? ==> sink == old(sink)
      ensures r.WriteTooLarge? ==> encoding.Some? && maxSize > 0 && |encoding.value| > maxSize
      ensures r.MarshalFailed? <==> encoding.None?
      ensures r.NotAnObject? <==> encoding.Some? && (encoding.value == [] || encoding.value[0] != OPEN_BRACE)
      ensures r.SinkFailed? ==> sink == old(sink) + (encoding.value + [LF])[..|sink| - |old(sink)|]
    {
      if encoding.None? {
        return MarshalFailed;
      }
      var data := encoding.value;
      if data == [] || data[0] != OPEN_BRACE {
        return NotAnObject;
      }
      if maxSize > 0 && |data| > maxSize {
        return WriteTooLarge;
      }
      var line := data + [LF];
      assert sink + line == sink + data + [LF];
      if breaksAfter.Some? {
        sink := sink + line[..if breaksAfter.value < |line| then breaksAfter.value else |line|];
        return SinkFailed;
      }
      sink := sink + line;
      return Written;
    }
  }

  // ---- Decoder.ReadFrame ---------------------------------------------------

  /** Where the first line ends: the index of its LF, or the length of the input. */
  function LineEnd(input: seq<byte>): (n: nat)
    ensures n <= |input| && LF !in input[..n]
    ensures n < |input| ==> input[n] == LF
  {
    if input == [] || input[0] == LF then 0
    else
      var n := LineEnd(input[1..]);
      assert input[..n + 1] == [input[0]] + input[1..][..n];
      n + 1
  }

  function TrimCR(line: seq<byte>): seq<byte> {
    if line != [] && line[|line|-1] == CR then line[..|line|-1] else line
  }

  /** What one line, without its LF, means to the reader. */
  function Judge(line: seq<byte>, terminated: bool, maxSize: int, isObject: ObjectTest): ReadResult {
    var body := TrimCR(line);
    if maxSize > 0 && |line| + (if terminated then 1 else 0) > maxSize + 1 then TooLarge
    else if body == [] then Malformed
    else if maxSize > 0 && |body| > maxSize then TooLarge
    else if isObject(body) then Frame(body)
    else Malformed
  }

  /** One ReadFrame on what is left of the input: its result, and what is left. A
      source that breaks instead of ending spoils the unterminated rest. */
  function Parse(input: seq<byte>, breaks: bool, maxSize: int, isObject: ObjectTest): (ReadResult, seq<byte>) {
    var n := LineEnd(input);
    if n < |input| then (Judge(input[..n], true, maxSize, isObject), input[n + 1..])
    else if maxSize > 0 && n > maxSize + 1 then (TooLarge, [])
    else if breaks then (SourceFailed, [])
    else if n == 0 then (EndOfInput, [])
    else (Judge(input, false, maxSize, isObject), [])
  }

  datatype SourceError = NoError | AtEnd | Broken

  class Decoder {
    var input: seq<byte>
    const breaks: bool
    const maxSize: int
    const isObject: ObjectTest

    constructor (input: seq<byte>, breaks: bool, maxSize: int, isObject: ObjectTest)
      ensures this.input == input && this.breaks == breaks && this.maxSize == maxSize && this.isObject == isObject
    {
      this.input, this.breaks, this.maxSize, this.isObject := input, breaks, maxSize, isObject;
    }

    /** bufio.Reader.ReadBytes('\\n'): it fails exactly if it found no LF. */
    method ReadBytes() returns (part: seq<byte>, err: SourceError)
      modifies this`input
      ensures part + input == old(input)
      ensures var n := LineEnd(old(input));
              if n < |old(input)| then err == NoError && part == old(input)[..n + 1]
              else part == old(input) && err == if breaks then Broken else AtEnd
    {
      var n := 0;
      while n < |input| && input[n] != LF
        invariant n <= |input| && LF !in input[..n]
      {
        n := n + 1;
      }
      LineEndIs(input, n);
      if n < |input| {
        part, err := input[..n + 1], NoError;
      } else {
        part, err := input, if breaks then Broken else AtEnd;
      }
      input := input[|part|..];
    }

    method ReadFrame() returns (r: ReadResult)
      modifies this`input
      ensures (r, input) == Parse(old(input), breaks, maxSize, isObject)
    {
      var frame: seq<byte> := [];
      var reading := true;
      ghost var n := LineEnd(input);
      while reading
        invariant reading ==> frame == [] && input == old(input)
        invariant !reading ==>
                    && (if n < |old(input)| then frame == old(input)[..n + 1] && input == old(input)[n + 1..]
                        else frame == old(input) && frame != [] && input == [] && !breaks)
                    && (maxSize > 0 ==> |frame| <= maxSize + 1)
        decreases reading
      {
        var part, err := ReadBytes();
        frame := frame + part;
        assert frame == part;
        assert n < |old(input)| ==> input == old(input)[n + 1..];
        if maxSize > 0 && |frame| > maxSize + 1 {
          return TooLarge;
        }
        if err.AtEnd? && frame == [] {
          return EndOfInput;
        }
        if err.Broken? {
          return SourceFailed;
        }
        if frame == [] || frame[|frame|-1] == LF || err.AtEnd? {
          reading := false;
        }
      }
      assert n == |old(input)| ==> old(input)[..n] == old(input);
      if frame != [] && frame[|frame|-1] == LF {
        frame := frame[..|frame|-1];
      }
      assert frame == old(input)[..n];
      if frame != [] && frame[|frame|-1] == CR {
        frame := frame[..|frame|-1];
      }
      assert frame == TrimCR(old(input)[..n]);
      if frame == [] {
        return Malformed;
      }
      if maxSize > 0 && |frame| > maxSize {
        return TooLarge;
      }
      if !isObject(frame) {
        return Malformed;
      }
      return Frame(frame);
    }
  }

  lemma {:induction false} LineEndIs(input: seq<byte>, n: nat)
    requires n <= |input| && LF !in input[..n] && (n < |input| ==> input[n] == LF)
    ensures LineEnd(input) == n
  {
    var m := LineEnd(input);
    assert forall k :: 0 <= k < n ==> input[k] in input[..n];
    assert forall k :: 0 <= k < m ==> input[k] in input[..m];
  }

  // ---- the limit, exactly --------------------------------------------------

  /** With a limit, a line ended by LF is too large exactly when its body exceeds
      the limit; a CR before the LF costs one byte of it; and the unterminated rest
      of a source that ends is too large exactly when it is so without its CR. */
  lemma {:induction false} ExactLimit(body: seq<byte>, rest: seq<byte>, maxSize: int, isObject: ObjectTest)
    requires maxSize > 0 && LF !in body && (body == [] || body[|body|-1] != CR)
    ensures Parse(body + [LF] + rest, false, maxSize, isObject).0.TooLarge? <==> |body| > maxSize
    ensures Parse(body + [CR, LF] + rest, false, maxSize, isObject).0.TooLarge? <==> |body| > maxSize - 1
    ensures Parse(body, false, maxSize, isObject).0.TooLarge? <==> |body| > maxSize
    ensures Parse(body + [CR], false, maxSize, isObject).0.TooLarge? <==> |body| > maxSize
  {
    LineOf(body, rest);
    LineOf(body + [CR], rest);
    assert body + [CR, LF] + rest == (body + [CR]) + [LF] + rest;
    LineEndIs(body, |body|);
    LineEndIs(body + [CR], |body| + 1);
    assert TrimCR(body + [CR]) == body;
  }

  /** What a read of one line gives, whatever the source does later: a body beyond the
      limit is too large, an empty one or one that is no object is malformed, any other
      is the frame, and the rest of the input is left for the next read. */
  lemma {:induction false} ExactOutcome(body: seq<byte>, cr: bool, rest: seq<byte>, breaks: bool, maxSize: int, isObject: ObjectTest)
    requires LF !in body && (body == [] || body[|body|-1] != CR)
    ensures Parse(body + (if cr then [CR] else []) + [LF] + rest, breaks, maxSize, isObject)
            == (if maxSize > 0 && |body| + (if cr then 1 else 0) > maxSize then TooLarge
                else if body == [] || !isObject(body) then Malformed
                else Frame(body),
                rest)
  {
    var line := body + if cr then [CR] else [];
    LineOf(line, rest);
    assert TrimCR(line) == body;
  }

  /** And the last line without an end: of a source that ends it counts as a line, of
      one that breaks only its size does. An empty rest is the end, or the break. */
  lemma {:induction false} ExactOutcomeOfTheRest(body: seq<byte>, cr: bool, breaks: bool, maxSize: int, isObject: ObjectTest)
    requires LF !in body && (body == [] || body[|body|-1] != CR)
    ensures var line := body + if cr then [CR] else [];
            Parse(line, breaks, maxSize, isObject)
            == (if maxSize > 0 && |line| > maxSize + 1 then TooLarge
                else if breaks then SourceFailed
                else if line == [] then EndOfInput
                else if body == [] then Malformed
                else if maxSize > 0 && |body| > maxSize then TooLarge
                else if !isObject(body) then Malformed
                else Frame(body),
                [])
  {
    var line := body + if cr then [CR] else [];
    LineEndIs(line, |line|);
    assert TrimCR(line) == body;
  }

  lemma {:induction false} LineOf(line: seq<byte>, rest: seq<byte>)
    requires LF !in line
    ensures var input := line + [LF] + rest;
            LineEnd(input) == |line| && input[..|line|] == line && input[|line| + 1..] == rest
  {
    var input := line + [LF] + rest;
    assert input[..|line|] == line;
    LineEndIs(input, |line|);
  }

  /** Whatever the input, a frame that is returned is an object within the limit,
      without line ends, and it stood at the front of the input; and every result
      but the end of the input or a failure of the source consumes something. */
  lemma {:induction false} FramesAreSound(input: seq<byte>, breaks: bool, maxSize: int, isObject: ObjectTest)
    ensures var (r, rest) := Parse(input, breaks, maxSize, isObject);
            && (r.Frame? ==> r.data != [] && r.data <= input && LF !in r.data && isObject(r.data) && (maxSize > 0 ==> |r.data| <= maxSize))
            && (r.Frame? ==> |rest| < |input|)
            && (r.EndOfInput? <==> input == [] && !breaks)
            && |rest| <= |input| && rest == input[|input| - |rest|..]
  {
    var n := LineEnd(input);
    if n < |input| {
      assert input[n + 1..] == input[|input| - |input[n + 1..]|..];
    }
    assert input[..n] <= input;
  }

  // ---- round trip ----------------------------------------------------------

  /** What Encoder.Write accepts and json.Marshal produces for an object: no LF, a
      brace at either end, within the limit. */
  predicate Encoding(data: seq<byte>, maxSize: int) {
    && |data| >= 2 && data[0] == OPEN_BRACE && data[|data|-1] == CLOSE_BRACE
    && LF !in data && (maxSize > 0 ==> |data| <= maxSize)
  }

  function Lines(list: seq<seq<byte>>): seq<byte> {
    if list == [] then [] else list[0] + [LF] + Lines(list[1..])
  }

  /** Reading until something other than a frame comes. */
  function ReadAll(input: seq<byte>, breaks: bool, maxSize: int, isObject: ObjectTest): (seq<seq<byte>>, ReadResult)
    decreases |input|
  {
    FramesAreSound(input, breaks, maxSize, isObject);
    var (r, rest) := Parse(input, breaks, maxSize, isObject);
    if r.Frame? then
      var (more, last) := ReadAll(rest, breaks, maxSize, isObject);
      ([r.data] + more, last)
    else ([], r)
  }

  lemma {:induction false} OneLineBack(d: seq<byte>, rest: seq<byte>, maxSize: int, isObject: ObjectTest)
    requires Encoding(d, maxSize) && isObject(d)
    ensures Parse(d + [LF] + rest, false, maxSize, isObject) == (Frame(d), rest)
  {
    LineOf(d, rest);
    assert TrimCR(d) == d;
  }

  lemma {:induction false} OneMoreFrame(
      d: seq<byte>, rest: seq<byte>, list: seq<seq<byte>>, maxSize: int, isObject: ObjectTest)
    requires Encoding(d, maxSize) && isObject(d)
    requires ReadAll(rest, false, maxSize, isObject) == (list, EndOfInput)
    ensures ReadAll(d + [LF] + rest, false, maxSize, isObject) == ([d] + list, EndOfInput)
  {
    OneLineBack(d, rest, maxSize, isObject);
  }

  /** What was written comes back, frame by frame, and then the end. */
  lemma {:induction false} RoundTrip(list: seq<seq<byte>>, maxSize: int, isObject: ObjectTest)
    requires forall d :: d in list ==> Encoding(d, maxSize) && isObject(d)
    ensures ReadAll(Lines(list), false, maxSize, isObject) == (list, EndOfInput)
    decreases |list|
  {
    if list == [] {
      assert LineEnd([]) == 0;
    } else {
      RoundTrip(list[1..], maxSize, isObject);
      OneMoreFrame(list[0], Lines(list[1..]), list[1..], maxSize, isObject);
      assert list == [list[0]] + list[1..];
    }
  }

  /** The writer's side of it: writing the list leaves exactly its lines. */
  method WriteAll(list: seq<seq<byte>>, maxSize: int) returns (sink: seq<byte>)
    requires forall d :: d in list ==> Encoding(d, maxSize)
    ensures sink == Lines(list)
  {
    var e := new Encoder(maxSize);
    var k := 0;
    while k < |list|
      invariant k <= |list| && e.maxSize == maxSize && fresh(e)
      invariant e.sink == Lines(list[..k])
    {
      assert Encoding(list[k], maxSize);
      var r := e.Write(Some(list[k]), None);
      LinesExtend(list[..k], list[k]);
      assert list[..k + 1] == list[..k] + [list[k]];
      k := k + 1;
    }
    assert list[..k] == list;
    sink := e.sink;
  }

  lemma {:induction false} LinesExtend(list: seq<seq<byte>>, d: seq<byte>)
    ensures Lines(list + [d]) == Lines(list) + d + [LF]
    decreases |list|
  {
    if list == [] {
      assert Lines([d]) == d + [LF] + Lines([]);
    } else {
      assert (list + [d])[1..] == list[1..] + [d];
      LinesExtend(list[1..], d);
    }
  }
}
