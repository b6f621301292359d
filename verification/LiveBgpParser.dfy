/** The live parser (src/modules/live_bgp_parser.rs): lines are framed out of a byte stream that
    arrives in chunks, decoded, and sent to every session. */
module LiveBgpParsers {
  import opened Wrappers
  import opened Advertisements
  import opened BgpSessions

  type Byte = b: int | 0 <= b < 256

  const NEWLINE: Byte := 10

  /** What the decoder makes of one line, its newline included. */
  datatype Decoded = Malformed | Other | Message(ad: Advertisement)

  type Decoder = seq<Byte> -> Decoded

  // ---- framing, as a function ----

  /** The index of the first newline; the length when there is none. */
  function FirstNewline(bytes: seq<Byte>): (k: nat)
    ensures k <= |bytes| && (k < |bytes| ==> bytes[k] == NEWLINE)
    ensures forall j :: 0 <= j < k ==> bytes[j] != NEWLINE
  {
    if bytes == [] || bytes[0] == NEWLINE then 0 else 1 + FirstNewline(bytes[1..])
  }

  /** What `process_buffer` gets from a buffer: the advertisements, the bytes left over, and
      whether every line decoded. */
  datatype Frames = Frames(ads: seq<Advertisement>, rest: seq<Byte>, ok: bool)

  function Frame(bytes: seq<Byte>, decode: Decoder): Frames
    decreases |bytes|
  {
    var k := FirstNewline(bytes);
    if k == |bytes| then Frames([], bytes, true)
    else
      match decode(bytes[..k + 1])
      case Malformed => Frames([], bytes[k + 1..], false)
      case Other => Frame(bytes[k + 1..], decode)
      case Message(ad) =>
        var more := Frame(bytes[k + 1..], decode);
        more.(ads := [ad] + more.ads)
  }

  function Put(d: Decoded, more: Frames): Frames {
    if d.Message? then more.(ads := [d.ad] + more.ads) else more
  }

  lemma FrameStep(bytes: seq<Byte>, decode: Decoder)
    ensures var k := FirstNewline(bytes);
            if k == |bytes| then Frame(bytes, decode) == Frames([], bytes, true)
            else if decode(bytes[..k + 1]).Malformed? then Frame(bytes, decode) == Frames([], bytes[k + 1..], false)
            else Frame(bytes, decode) == Put(decode(bytes[..k + 1]), Frame(bytes[k + 1..], decode))
  {
  }

  // ---- the reference: lines ----

  predicate IsLine(line: seq<Byte>) {
    line != [] && FirstNewline(line) == |line| - 1
  }

  /** A line ends with the byte of `\n`, and has no other. */
  lemma IsLineIff(line: seq<Byte>)
    ensures IsLine(line)
       <==> && line != [] && line[|line| - 1] == '\n' as int
            && forall j :: 0 <= j < |line| - 1 ==> line[j] != '\n' as int
  {
  }

  /** The bytes are these complete lines, followed by the start of another. */
  ghost predicate Splits(bytes: seq<Byte>, lines: seq<seq<Byte>>, rest: seq<Byte>) {
    && (forall i :: 0 <= i < |lines| ==> IsLine(lines[i]))
    && FirstNewline(rest) == |rest| && bytes == Flatten(lines) + rest
  }

  function AdsOf(lines: seq<seq<Byte>>, decode: Decoder): seq<Advertisement> {
    if lines == [] then []
    else (if decode(lines[0]).Message? then [decode(lines[0]).ad] else []) + AdsOf(lines[1..], decode)
  }

  predicate AllDecode(lines: seq<seq<Byte>>, decode: Decoder) {
    forall line <- lines :: !decode(line).Malformed?
  }

  lemma NewlineFirst(line: seq<Byte>, more: seq<Byte>)
    requires IsLine(line)
    ensures FirstNewline(line + more) == |line| - 1
    ensures (line + more)[..|line|] == line && (line + more)[|line|..] == more
  {
    hide FirstNewline;
    assert (line + more)[|line| - 1] == NEWLINE;
  }

  /** Lines that decode come off the front of a buffer one by one. */
  lemma {:induction false} FrameLines(lines: seq<seq<Byte>>, tail: seq<Byte>, decode: Decoder)
    requires (forall i :: 0 <= i < |lines| ==> IsLine(lines[i])) && AllDecode(lines, decode)
    ensures var f := Frame(tail, decode);
            Frame(Flatten(lines) + tail, decode) == f.(ads := AdsOf(lines, decode) + f.ads)
    decreases |lines|
  {
    hide FirstNewline, Frame, IsLine;
    var f := Frame(tail, decode);
    if lines == [] {
      assert Flatten(lines) + tail == tail && [] + f.ads == f.ads;
    } else {
      assert lines[0] in lines;
      forall i | 0 <= i < |lines[1..]| ensures IsLine(lines[1..][i]) {
        assert IsLine(lines[i + 1]);
      }
      FrameLines(lines[1..], tail, decode);
      var more := Flatten(lines[1..]) + tail;
      assert Flatten(lines) + tail == lines[0] + more;
      FrameAfter(lines[0], more, decode);
      AdsJoin(if decode(lines[0]).Message? then [decode(lines[0]).ad] else [], AdsOf(lines[1..], decode), f.ads);
    }
  }

  /** A line in front of a buffer comes into the result through what the decoder makes of it. */
  lemma FrameAfter(line: seq<Byte>, more: seq<Byte>, decode: Decoder)
    requires IsLine(line)
    ensures Frame(line + more, decode) == if decode(line).Malformed? then Frames([], more, false)
                                          else Put(decode(line), Frame(more, decode))
  {
    hide FirstNewline;
    NewlineFirst(line, more);
    FrameStep(line + more, decode);
  }

  lemma AdsJoin(a: seq<Advertisement>, b: seq<Advertisement>, c: seq<Advertisement>)
    ensures a + (b + c) == (a + b) + c && [] + c == c && [] + (b + c) == b + c
  {
  }

  /** When the complete lines all decode, framing yields their advertisements and leaves the bytes
      after the last newline. */
  lemma FrameIsLines(bytes: seq<Byte>, lines: seq<seq<Byte>>, rest: seq<Byte>, decode: Decoder)
    requires Splits(bytes, lines, rest) && AllDecode(lines, decode)
    ensures Frame(bytes, decode) == Frames(AdsOf(lines, decode), rest, true)
  {
    FrameLines(lines, rest, decode);
    assert AdsOf(lines, decode) + [] == AdsOf(lines, decode);
  }

  /** Otherwise framing stops after the first line that does not decode: that line is consumed,
      the advertisements before it are kept, and everything after it is left. */
  lemma FrameStopsAt(lines: seq<seq<Byte>>, bad: seq<Byte>, more: seq<Byte>, decode: Decoder)
    requires (forall i :: 0 <= i < |lines| ==> IsLine(lines[i])) && AllDecode(lines, decode)
    requires IsLine(bad) && decode(bad).Malformed?
    ensures Frame(Flatten(lines) + (bad + more), decode) == Frames(AdsOf(lines, decode), more, false)
  {
    hide FirstNewline;
    NewlineFirst(bad, more);
    FrameLines(lines, bad + more, decode);
    assert AdsOf(lines, decode) + [] == AdsOf(lines, decode);
  }

  /** There is only one decomposition into lines. */
  lemma {:induction false} SplitIsUnique(bytes: seq<Byte>, lines: seq<seq<Byte>>, rest: seq<Byte>,
                                         lines': seq<seq<Byte>>, rest': seq<Byte>)
    requires Splits(bytes, lines, rest) && Splits(bytes, lines', rest')
    ensures lines == lines' && rest == rest'
    decreases |lines|
  {
    hide FirstNewline;
    FirstLineOf(bytes, lines, rest);
    FirstLineOf(bytes, lines', rest');
    if lines != [] {
      var more := Flatten(lines[1..]) + rest;
      SplitTail(bytes, lines, rest);
      SplitTail(bytes, lines', rest');
      SplitIsUnique(more, lines[1..], rest, lines'[1..], rest');
      assert lines == [lines[0]] + lines[1..] && lines' == [lines'[0]] + lines'[1..];
    }
  }

  lemma FirstLineOf(bytes: seq<Byte>, lines: seq<seq<Byte>>, rest: seq<Byte>)
    requires Splits(bytes, lines, rest)
    ensures lines == [] ==> FirstNewline(bytes) == |bytes| && bytes == rest
    ensures lines != [] ==> FirstNewline(bytes) < |bytes| && lines[0] == bytes[..FirstNewline(bytes) + 1]
  {
    hide FirstNewline;
    if lines == [] {
      assert bytes == rest;
    } else {
      assert IsLine(lines[0]);
      var more := Flatten(lines[1..]) + rest;
      assert bytes == lines[0] + more;
      NewlineFirst(lines[0], more);
    }
  }

  lemma SplitTail(bytes: seq<Byte>, lines: seq<seq<Byte>>, rest: seq<Byte>)
    requires Splits(bytes, lines, rest) && lines != []
    ensures FirstNewline(bytes) < |bytes| && Splits(bytes[FirstNewline(bytes) + 1..], lines[1..], rest)
    ensures bytes[FirstNewline(bytes) + 1..] == Flatten(lines[1..]) + rest
  {
    hide FirstNewline;
    assert IsLine(lines[0]);
    var more := Flatten(lines[1..]) + rest;
    assert bytes == lines[0] + more;
    NewlineFirst(lines[0], more);
    forall i | 0 <= i < |lines[1..]| ensures IsLine(lines[1..][i]) {
      assert IsLine(lines[i + 1]);
    }
  }

  /** Every byte sequence has a decomposition into lines. */
  lemma {:induction false} EveryStreamSplits(bytes: seq<Byte>) returns (lines: seq<seq<Byte>>, rest: seq<Byte>)
    ensures Splits(bytes, lines, rest)
    decreases |bytes|
  {
    var k := FirstNewline(bytes);
    if k == |bytes| {
      lines, rest := [], bytes;
    } else {
      lines, rest := EveryStreamSplits(bytes[k + 1..]);
      var line := bytes[..k + 1];
      LineOf(bytes);
      assert ([line] + lines)[1..] == lines;
      lines := [line] + lines;
    }
  }

  lemma LineOf(bytes: seq<Byte>)
    requires FirstNewline(bytes) < |bytes|
    ensures IsLine(bytes[..FirstNewline(bytes) + 1])
  {
    hide FirstNewline;
    var line := bytes[..FirstNewline(bytes) + 1];
    assert line[|line| - 1] == NEWLINE;
  }

  /** The first line of a buffer is that of any longer buffer. */
  lemma FirstLineStays(a: seq<Byte>, b: seq<Byte>)
    requires FirstNewline(a) < |a|
    ensures var k := FirstNewline(a);
            && FirstNewline(a + b) == k && (a + b)[..k + 1] == a[..k + 1] && (a + b)[k + 1..] == a[k + 1..] + b
  {
    hide FirstNewline;
    assert (a + b)[FirstNewline(a)] == NEWLINE;
  }

  // ---- chunks ----

  /** A buffer that decodes can be cut anywhere: framing the first part and then the rest of it
      with the second part is framing the whole. */
  lemma {:induction false} FrameAppend(a: seq<Byte>, b: seq<Byte>, decode: Decoder)
    requires Frame(a, decode).ok
    ensures var first := Frame(a, decode);
            var second := Frame(first.rest + b, decode);
            Frame(a + b, decode) == Frames(first.ads + second.ads, second.rest, second.ok)
    decreases |a|
  {
    hide FirstNewline, Frame;
    var k := FirstNewline(a);
    FrameStep(a, decode);
    if k < |a| {
      FirstLineStays(a, b);
      FrameStep(a + b, decode);
      FrameAppend(a[k + 1..], b, decode);
      var first := Frame(a, decode);
      var second := Frame(first.rest + b, decode);
      if decode(a[..k + 1]).Message? {
        var ad := decode(a[..k + 1]).ad;
        assert first.ads == [ad] + Frame(a[k + 1..], decode).ads;
        assert [ad] + (Frame(a[k + 1..], decode).ads + second.ads) == first.ads + second.ads;
      }
    }
  }

  /** The state between calls: the buffer, the advertisements and the two counters. */
  datatype Parser = Parser(bytes: seq<Byte>, ads: seq<Advertisement>, messages: nat, received: nat)

  /** One call on the chunks that have arrived. */
  function Processed(p: Parser, chunks: seq<seq<Byte>>, decode: Decoder): Parser {
    var f := Frame(p.bytes + Flatten(chunks), decode);
    Parser(f.rest, p.ads + f.ads, p.messages + |f.ads|, p.received + |Flatten(chunks)|)
  }

  function ProcessedAll(p: Parser, calls: seq<seq<seq<Byte>>>, decode: Decoder): Parser
    decreases |calls|
  {
    if calls == [] then p else ProcessedAll(Processed(p, calls[0], decode), calls[1..], decode)
  }

  lemma {:induction false} CallsAreOne(p: Parser, calls: seq<seq<seq<Byte>>>, decode: Decoder)
    requires Frame(p.bytes, decode) == Frames([], p.bytes, true)
    requires Frame(p.bytes + Flatten(Flatten(calls)), decode).ok
    ensures ProcessedAll(p, calls, decode) == Processed(p, Flatten(calls), decode)
    decreases |calls|
  {
    hide FirstNewline, Frame;
    if calls == [] {
      assert p.bytes + [] == p.bytes;
    } else {
      var first, later := Flatten(calls[0]), Flatten(Flatten(calls[1..]));
      FlattenAppend(calls[0], Flatten(calls[1..]));
      assert Flatten(Flatten(calls)) == first + later;
      assert p.bytes + (first + later) == (p.bytes + first) + later;
      FrameCut(p.bytes + first, later, decode);
      FrameAppend(p.bytes + first, later, decode);
      var q := Processed(p, calls[0], decode);
      CallsAreOne(q, calls[1..], decode);
      var f, g := Frame(p.bytes + first, decode), Frame(q.bytes + later, decode);
      assert p.ads + f.ads + g.ads == p.ads + (f.ads + g.ads);
    }
  }

  /** A prefix of a buffer that decodes decodes, and its leftover holds no line. */
  lemma {:induction false} FrameCut(a: seq<Byte>, b: seq<Byte>, decode: Decoder)
    requires Frame(a + b, decode).ok
    ensures Frame(a, decode).ok
    ensures Frame(Frame(a, decode).rest, decode) == Frames([], Frame(a, decode).rest, true)
    decreases |a|
  {
    hide FirstNewline, Frame;
    FrameStep(a, decode);
    if FirstNewline(a) < |a| {
      FirstLineStays(a, b);
      FrameStep(a + b, decode);
      FrameCut(a[FirstNewline(a) + 1..], b, decode);
    }
  }

  /** Chunking independence: when the complete lines of a stream all decode, then however the
      stream is cut into chunks and the chunks into calls, the calls yield the advertisements of
      its lines in order, leave exactly the bytes after the last newline, and count every byte and
      every message once. */
  lemma ChunksDoNotMatter(calls: seq<seq<seq<Byte>>>, lines: seq<seq<Byte>>, rest: seq<Byte>, decode: Decoder)
    requires Splits(Flatten(Flatten(calls)), lines, rest) && AllDecode(lines, decode)
    ensures ProcessedAll(Parser([], [], 0, 0), calls, decode)
         == Parser(rest, AdsOf(lines, decode), |AdsOf(lines, decode)|, |Flatten(Flatten(calls))|)
  {
    var stream := Flatten(Flatten(calls));
    FrameIsLines(stream, lines, rest, decode);
    assert [] + stream == stream;
    CallsAreOne(Parser([], [], 0, 0), calls, decode);
  }

  // ---- a download that is started again ----

  /** The decoder that knows one line. */
  function Knows(line: seq<Byte>, ad: Advertisement): Decoder {
    (bytes: seq<Byte>) => if bytes == line then Message(ad) else Malformed
  }

  lemma GluedLine(rest: seq<Byte>, line: seq<Byte>)
    requires FirstNewline(rest) == |rest| && IsLine(line)
    ensures IsLine(rest + line)
  {
    hide FirstNewline;
    var glued := rest + line;
    assert glued[|glued| - 1] == NEWLINE;
    forall j | 0 <= j < |glued| - 1 ensures glued[j] != NEWLINE {
      assert glued[j] == if j < |rest| then rest[j] else line[j - |rest|];
    }
  }

  lemma FrameOne(line: seq<Byte>, decode: Decoder)
    requires IsLine(line)
    ensures Frame(line, decode) == if decode(line).Malformed? then Frames([], [], false)
                                   else Put(decode(line), Frames([], [], true))
  {
    hide FirstNewline;
    assert line[..|line|] == line && line[|line|..] == [];
    FrameStep(line, decode);
    FrameStep([], decode);
  }

  /** A restart appends the new stream to the bytes of an unfinished line. Whatever bytes were left
      and whatever the first new line is, a decoder that knows that line reads it from the stream
      alone, and after the old bytes reads nothing and fails. */
  lemma RestartSpoilsLine(rest: seq<Byte>, line: seq<Byte>, ad: Advertisement)
    requires rest != [] && FirstNewline(rest) == |rest| && IsLine(line)
    ensures Frame(line, Knows(line, ad)) == Frames([ad], [], true)
    ensures Frame(rest + line, Knows(line, ad)) == Frames([], [], false)
  {
    hide FirstNewline, Frame, IsLine;
    FrameOne(line, Knows(line, ad));
    GluedLine(rest, line);
    assert |rest + line| != |line|;
    FrameOne(rest + line, Knows(line, ad));
  }

  /** The two beginnings make no difference, whatever follows. */
  ghost predicate ReadAlike(a: seq<Byte>, b: seq<Byte>, decode: Decoder) {
    forall more: seq<Byte> :: Frame(a + more, decode) == Frame(b + more, decode)
  }

  lemma LinesReadAlikeIff(a: seq<Byte>, b: seq<Byte>, decode: Decoder)
    requires IsLine(a) && IsLine(b)
    ensures ReadAlike(a, b, decode) <==> decode(a) == decode(b)
  {
    hide FirstNewline, Frame, IsLine;
    if decode(a) == decode(b) {
      forall more: seq<Byte> ensures Frame(a + more, decode) == Frame(b + more, decode) {
        FrameAfter(a, more, decode);
        FrameAfter(b, more, decode);
      }
    } else {
      assert a + [] == a && b + [] == b;
      FrameOne(a, decode);
      FrameOne(b, decode);
      assert Frame(a + [], decode) != Frame(b + [], decode) by {
        assert decode(a).Message? ==> Frame(a, decode).ads[0] == decode(a).ad;
        assert decode(b).Message? ==> Frame(b, decode).ads[0] == decode(b).ad;
      }
    }
  }

  /** A restart is clean exactly when the decoder makes the same of the first new line with the
      bytes of the unfinished line in front as of that line alone. Whatever follows that line is
      read as it would be without them. */
  lemma RestartIsCleanIff(rest: seq<Byte>, line: seq<Byte>, decode: Decoder)
    requires FirstNewline(rest) == |rest| && IsLine(line)
    ensures ReadAlike(rest + line, line, decode) <==> decode(rest + line) == decode(line)
  {
    hide FirstNewline, IsLine, ReadAlike;
    GluedLine(rest, line);
    LinesReadAlikeIff(rest + line, line, decode);
  }

  /** What a call leaves over holds no newline, so the results above apply to it. */
  lemma {:induction false} LeftoverIsUnfinished(bytes: seq<Byte>, decode: Decoder)
    requires Frame(bytes, decode).ok
    ensures var rest := Frame(bytes, decode).rest; FirstNewline(rest) == |rest|
    decreases |bytes|
  {
    hide FirstNewline, Frame;
    FrameStep(bytes, decode);
    if FirstNewline(bytes) < |bytes| {
      LeftoverIsUnfinished(bytes[FirstNewline(bytes) + 1..], decode);
    }
  }

  lemma {:induction false} LeftoverIsEmptyIff(bytes: seq<Byte>, decode: Decoder)
    requires Frame(bytes, decode).ok
    ensures Frame(bytes, decode).rest == [] <==> bytes == [] || bytes[|bytes| - 1] == NEWLINE
    decreases |bytes|
  {
    hide FirstNewline, Frame;
    var k := FirstNewline(bytes);
    FrameStep(bytes, decode);
    if k < |bytes| {
      LeftoverIsEmptyIff(bytes[k + 1..], decode);
    }
  }

  /** A restart after a call is clean under the same condition on what the call left over; it is
      met when the bytes so far ended with a newline, for then nothing is. */
  lemma RestartAfterCallIsCleanIff(bytes: seq<Byte>, line: seq<Byte>, decode: Decoder)
    requires Frame(bytes, decode).ok && IsLine(line)
    ensures var rest := Frame(bytes, decode).rest;
            && (rest == [] <==> bytes == [] || bytes[|bytes| - 1] == NEWLINE)
            && (ReadAlike(rest + line, line, decode) <==> decode(rest + line) == decode(line))
  {
    hide FirstNewline, Frame, IsLine, ReadAlike;
    LeftoverIsUnfinished(bytes, decode);
    LeftoverIsEmptyIff(bytes, decode);
    RestartIsCleanIff(Frame(bytes, decode).rest, line, decode);
  }

  // ---- the class ----

  /** The receiving end of the channel between the download task and the parser. */
  class ByteStream {
    var chunks: seq<seq<Byte>>

    constructor ()
      ensures chunks == []
    {
      chunks := [];
    }

    method TryRecv() returns (chunk: Option<seq<Byte>>)
      modifies this
      ensures old(chunks) == [] ==> chunk == None && chunks == []
      ensures old(chunks) != [] ==> chunk == Some(old(chunks[0])) && chunks == old(chunks[1..])
    {
      chunk := None;
      if chunks != [] {
        chunk := Some(chunks[0]);
        chunks := chunks[1..];
      }
    }
  }

  datatype ParserError = NoReceiver | ParseError

  datatype RestartPolicy = StopOnError | RestartOnError

  datatype Transition = Continue | Stop

  class LiveBgpParser {
    const decode: Decoder
    const restartPolicy: RestartPolicy
    var streaming: bool
    var receiver: ByteStream?
    var bytesBuffer: seq<Byte>
    var advertisements: seq<Advertisement>
    var messagesProcessed: nat
    var bytesReceived: nat
    var errorsEncountered: nat
    var bgpSessions: seq<BgpSession>

    ghost function Model(): Parser
      reads this
    {
      Parser(bytesBuffer, advertisements, messagesProcessed, bytesReceived)
    }

    ghost function Arrived(): seq<seq<Byte>>
      reads this, receiver
    {
      if receiver == null then [] else receiver.chunks
    }

    /** Reads every chunk that has arrived, then frames lines until none is left or one does not
        decode. */
    method ProcessBuffer() returns (error: Option<ParserError>)
      modifies this`bytesBuffer, this`advertisements, this`messagesProcessed, this`bytesReceived, receiver
      ensures receiver == null ==> error == Some(NoReceiver) && Model() == old(Model())
      ensures receiver != null ==>
                && Model() == Processed(old(Model()), old(Arrived()), decode) && receiver.chunks == []
                && error == (if Frame(old(bytesBuffer) + Flatten(old(Arrived())), decode).ok then None
                             else Some(ParseError))
    {
      if receiver == null {
        return Some(NoReceiver);
      }
      DrainReceiver();
      error := FrameLinesOfBuffer();
    }

    method DrainReceiver()
      requires receiver != null
      modifies this`bytesBuffer, this`bytesReceived, receiver
      ensures receiver.chunks == [] && bytesBuffer == old(bytesBuffer) + Flatten(old(receiver.chunks))
      ensures bytesReceived == old(bytesReceived) + |Flatten(old(receiver.chunks))|
    {
      ghost var arrived := Flatten(old(receiver.chunks));
      ghost var all, read := old(bytesBuffer) + arrived, old(bytesReceived) + |arrived|;
      while true
        invariant bytesBuffer + Flatten(receiver.chunks) == all
        invariant bytesReceived + |Flatten(receiver.chunks)| == read
        decreases |receiver.chunks|
      {
        var chunk := receiver.TryRecv();
        if chunk.None? {
          break;
        }
        bytesBuffer := bytesBuffer + chunk.value;
        bytesReceived := bytesReceived + |chunk.value|;
      }
    }

    method FrameLinesOfBuffer() returns (error: Option<ParserError>)
      modifies this`bytesBuffer, this`advertisements, this`messagesProcessed
      ensures var f := Frame(old(bytesBuffer), decode);
              && bytesBuffer == f.rest && advertisements == old(advertisements) + f.ads
              && messagesProcessed == old(messagesProcessed) + |f.ads|
              && error == if f.ok then None else Some(ParseError)
    {
      hide FirstNewline, Frame;
      ghost var all := Frame(bytesBuffer, decode);
      var position := FirstNewline(bytesBuffer);
      while position < |bytesBuffer|
        invariant position == FirstNewline(bytesBuffer)
        invariant var f := Frame(bytesBuffer, decode);
                  && all.rest == f.rest && all.ok == f.ok
                  && advertisements + f.ads == old(advertisements) + all.ads
                  && messagesProcessed + |f.ads| == old(messagesProcessed) + |all.ads|
        decreases |bytesBuffer|
      {
        FrameStep(bytesBuffer, decode);
        var line := bytesBuffer[..position + 1];
        bytesBuffer := bytesBuffer[position + 1..];
        match decode(line) {
          case Malformed =>
            return Some(ParseError);
          case Other =>
          case Message(ad) =>
            advertisements := advertisements + [ad];
            messagesProcessed := messagesProcessed + 1;
        }
        position := FirstNewline(bytesBuffer);
      }
      FrameStep(bytesBuffer, decode);
      error := None;
    }

    ghost predicate Valid()
      reads this, bgpSessions, InterfacesOf(bgpSessions), Footprint(bgpSessions)
    {
      && (streaming <==> receiver != null)
      && Apart(bgpSessions) && this !in Footprint(bgpSessions)
      && (receiver != null ==> receiver !in Footprint(bgpSessions))
    }

    constructor (decode: Decoder, restartPolicy: RestartPolicy)
      ensures Valid() && !streaming && bgpSessions == [] && errorsEncountered == 0
      ensures Model() == Parser([], [], 0, 0)
      ensures this.decode == decode && this.restartPolicy == restartPolicy
    {
      this.decode, this.restartPolicy := decode, restartPolicy;
      streaming, receiver, bgpSessions := false, null, [];
      bytesBuffer, advertisements := [], [];
      messagesProcessed, bytesReceived, errorsEncountered := 0, 0, 0;
    }

    /** A new download with a new receiver; chunks the old receiver still had are gone, and the
        bytes in the buffer stay. */
    method StartStream()
      modifies this`streaming, this`receiver
      ensures streaming && receiver != null && fresh(receiver) && Arrived() == []
    {
      receiver := new ByteStream();
      streaming := true;
    }

    method StopStream()
      modifies this`streaming, this`receiver, this`bytesBuffer
      ensures !streaming && receiver == null && bytesBuffer == []
    {
      streaming, receiver, bytesBuffer := false, null, [];
    }

    /** What the buffer and the arrived chunks hold when a step begins; a step that finds the
        download over starts with a new one, from which nothing has arrived. */
    ghost function Input(finished: bool): seq<Byte>
      reads this, receiver
    {
      bytesBuffer + if finished then [] else Flatten(Arrived())
    }

    /** One step. `finished` says whether the download task has ended. When every line decodes, the
        advertisements kept so far and the new ones go to every session, once; when one does not,
        nothing is sent, the advertisements are kept for a later step, and the bytes are dropped. */
    method Work(finished: bool) returns (next: Transition)
      requires Valid()
      modifies this, receiver, Footprint(bgpSessions)
      ensures Valid() && bgpSessions == old(bgpSessions)
      ensures Footprint(bgpSessions) == old(Footprint(bgpSessions))
      ensures receiver == null || receiver == old(receiver) || fresh(receiver)
      ensures var f := Frame(old(Input(finished)), decode);
              var ads := old(advertisements) + f.ads;
              && messagesProcessed == old(messagesProcessed) + |f.ads|
              && bytesReceived == old(bytesReceived) + |old(Input(finished))| - |old(bytesBuffer)|
              && (f.ok ==>
                    && next == Continue && streaming && advertisements == [] && bytesBuffer == f.rest
                    && errorsEncountered == old(errorsEncountered)
                    && AfterSends(old(Views(bgpSessions)), Views(bgpSessions), ads))
              && (!f.ok ==>
                    && next == (if restartPolicy == StopOnError then Stop else Continue)
                    && !streaming && advertisements == ads && bytesBuffer == []
                    && errorsEncountered == old(errorsEncountered) + 1
                    && Views(bgpSessions) == old(Views(bgpSessions)))
    {
      hide Frame, Views, Apart, Footprint, InterfacesOf, AllOk, Flatten;
      FootprintOwns(bgpSessions);
      assert allocated(Footprint(bgpSessions)) && allocated(InterfacesOf(bgpSessions));
      NoChunks();
      if !streaming || finished {
        StartStream();
      }
      var error := ProcessBuffer();
      if error.Some? {
        errorsEncountered := errorsEncountered + 1;
        StopStream();
        return match restartPolicy case StopOnError => Stop case RestartOnError => Continue;
      }
      SendAll(bgpSessions, advertisements);
      FootprintOwns(bgpSessions);
      advertisements := [];
      next := Continue;
    }
  }

  lemma NoChunks()
    ensures Flatten<Byte>([]) == []
  {
  }
}
