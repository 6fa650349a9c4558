// The serial-line test receiver (test_receiver.py): it splits what arrives on
// the port into SLCAN frames, parses each "tIIILDD.." frame and updates the
// dashboard from the bytes.  The port's reads are an input (a list of byte
// chunks); the dashboard updates are returned as a list of calls.

module SlcanReceiver {
  import opened Wrappers
  import opened Text
  import SimpleSimulator

  datatype Parsed = Parsed(id: nat, data: seq<byte>)

  // --------------------------------------------------------------- parsing

  /** How many of the declared byte slots 5 + 2i .. 5 + 2i + 2 fit inside the frame text. */
  function Slots(s: string, n: nat): (k: nat)
    requires |s| >= 5
    ensures k <= n && 5 + 2 * k <= |s|
    ensures k < n ==> 5 + 2 * k + 2 > |s|
  {
    if 5 + 2 * n <= |s| then n else (|s| - 5) / 2
  }

  /** The first k data bytes, or None if one of them is not two hex digits. */
  function ReadBytes(s: string, k: nat): (r: Option<seq<byte>>)
    requires 5 + 2 * k <= |s|
    ensures r.Some? ==> |r.value| == k
    decreases k
  {
    if k == 0 then Some([])
    else match ReadBytes(s, k - 1)
      case None => None
      case Some(prev) =>
        var field := s[5 + 2 * (k - 1)..5 + 2 * k];
        match ParseHex(field)
          case None => None
          case Some(b) => HexNumberBound(field); Some(prev + [b])
  }

  /** `parse_slcan_frame`: None where the source returns None or catches an exception. */
  function ParseFrame(s: string): Option<Parsed> {
    if !StartsWith(s, "t") || |s| < 5 then None
    else match ParseHex(s[1..4])
      case None => None
      case Some(id) =>
        match ParseDec(s[4..5])
          case None => None
          case Some(n) =>
            match ReadBytes(s, Slots(s, n))
              case None => None
              case Some(data) => Some(Parsed(id, data))
  }

  /** Once a byte fails to parse, reading further bytes still fails. */
  lemma {:induction false} ReadBytesFails(s: string, k: nat, j: nat)
    requires k <= j && 5 + 2 * j <= |s|
    requires ReadBytes(s, k).None?
    ensures ReadBytes(s, j).None?
    decreases j
  {
    if j > k {
      ReadBytesFails(s, k, j - 1);
    }
  }

  /** The parser as the source writes it, appending one byte per loop pass. */
  method ParseSlcanFrame(s: string) returns (r: Option<Parsed>)
    ensures r == ParseFrame(s)
  {
    if !StartsWith(s, "t") || |s| < 5 {
      return None;
    }
    var id := ParseHex(s[1..4]);
    if id.None? {
      return None;
    }
    var dataLen := ParseDec(s[4..5]);
    if dataLen.None? {
      return None;
    }
    var n := dataLen.value;
    var data: seq<byte> := [];
    for i := 0 to n
      invariant ReadBytes(s, Slots(s, i)) == Some(data)
    {
      var pos := 5 + i * 2;
      if pos + 2 <= |s| {
        assert Slots(s, i) == i && Slots(s, i + 1) == i + 1;
        var field := s[pos..pos + 2];
        var b := ParseHex(field);
        if b.None? {
          ReadBytesFails(s, i + 1, Slots(s, n));
          return None;
        }
        HexNumberBound(field);
        data := data + [b.value];
      } else {
        assert Slots(s, i + 1) == Slots(s, i);
      }
    }
    return Some(Parsed(id.value, data));
  }

  /** A frame cut short yields fewer bytes than declared; characters past the declared bytes are ignored. */
  lemma ParseLength(s: string)
    requires ParseFrame(s).Some?
    ensures |s| >= 5 && s[0] == 't' && '0' <= s[4] <= '9'
    ensures |ParseFrame(s).value.data| == Slots(s, s[4] as int - '0' as int)
  {
    var t := s[4..5];
    assert t[..0] == [];
    assert DecNumber(t) == DecNumber(t[..0]) * 10 + (t[0] as int - '0' as int);
  }

  /** Frames that do not start with 't', are shorter than five characters, or carry a bad ID or length give None. */
  lemma ParseRejects(s: string)
    ensures !StartsWith(s, "t") || |s| < 5 ==> ParseFrame(s).None?
    ensures |s| >= 5 && (!AllHex(s[1..4]) || !('0' <= s[4] <= '9')) ==> ParseFrame(s).None?
  {
  }

  // ------------------------------------------------------------ round trip

  /** The frame text without its terminating CR. */
  function Body(id: nat, data: seq<int>): string {
    "t" + FormatHex(id, 3) + DecOf(|data|) + SimpleSimulator.HexBytes(data)
  }

  /** What the simulator can serialise: a three-digit ID and one length digit over bytes. */
  predicate Sendable(id: nat, data: seq<int>) {
    id <= 0xFFF && |data| <= 9 && SimpleSimulator.Bytes(data)
  }

  /** A serialised frame is its body plus CR, two characters per byte after the five-character head, with no line break inside. */
  lemma BodyShape(id: nat, data: seq<int>)
    requires Sendable(id, data)
    ensures SimpleSimulator.SlcanFrame(id, data) == Body(id, data) + "\r"
    ensures |Body(id, data)| == 5 + 2 * |data|
    ensures '\r' !in Body(id, data) && '\n' !in Body(id, data)
  {
    FormatHexRoundTrip(id, 3);
    SimpleSimulator.HexBytesShape(data);
    var h := SimpleSimulator.HexBytes(data);
    var b := Body(id, data);
    forall j | 0 <= j < |b| ensures b[j] != '\r' && b[j] != '\n' {
      if j >= 5 { assert b[j] == h[j - 5]; }
    }
  }

  /** Text holding the two-digit hex of each byte in its slots reads back as those bytes. */
  lemma {:induction false} ReadBytesOfHex(s: string, data: seq<int>, k: nat)
    requires SimpleSimulator.Bytes(data) && k <= |data| && |s| == 5 + 2 * |data|
    requires forall j :: 0 <= j < |data| ==> s[5 + 2 * j..5 + 2 * j + 2] == FormatHex(data[j], 2)
    ensures ReadBytes(s, k) == Some(data[..k])
    decreases k
  {
    if k > 0 {
      ReadBytesOfHex(s, data, k - 1);
      assert s[5 + 2 * (k - 1)..5 + 2 * k] == FormatHex(data[k - 1], 2);
      FormatHexRoundTrip(data[k - 1], 2);
      assert data[..k] == data[..k - 1] + [data[k - 1]];
    }
  }

  /** Where the 't', the ID, the length digit and the data sit in a body. */
  lemma BodyParts(id: nat, data: seq<int>)
    requires Sendable(id, data)
    ensures var s := Body(id, data);
      |s| == 5 + 2 * |data| && s[0] == 't' && s[1..4] == FormatHex(id, 3) &&
      s[4..5] == DecOf(|data|) && s[5..] == SimpleSimulator.HexBytes(data)
  {
    FormatHexRoundTrip(id, 3);
    SimpleSimulator.HexBytesShape(data);
  }

  /** Parsing a serialised frame (ID at most 0xFFF, at most 9 bytes) gives back exactly its ID and bytes. */
  lemma ParseSerialised(id: nat, data: seq<int>)
    requires Sendable(id, data)
    ensures ParseFrame(Body(id, data)) == Some(Parsed(id, data))
  {
    var s := Body(id, data);
    BodyParts(id, data);
    FormatHexRoundTrip(id, 3);
    DecRoundTrip(|data|);
    var h := SimpleSimulator.HexBytes(data);
    SimpleSimulator.HexBytesShape(data);
    forall j | 0 <= j < |data| ensures s[5 + 2 * j..5 + 2 * j + 2] == FormatHex(data[j], 2) {
      assert s[5 + 2 * j..5 + 2 * j + 2] == h[2 * j..2 * j + 2];
    }
    ReadBytesOfHex(s, data, |data|);
    assert data[..|data|] == data;
    assert StartsWith(s, "t");
  }

  // ------------------------------------------------------------ dashboard

  datatype DashCall = SetRpm(krpm: real) | SetFuel(fuel: real) | SetSpeed(speed: real) | SetTemperature(percent: real)

  /** The coolant gauge value: (temp - 40) / 80 as a percentage, clamped to [0, 100]. */
  function TempPercent(temp: int): real {
    var x := ((temp - 40) as real / 80.0) * 100.0;
    if x < 0.0 then 0.0 else if x > 100.0 then 100.0 else x
  }

  /** `process_can_message`: the dashboard calls one frame causes (none without a dashboard). */
  function ProcessCanMessage(dashboard: bool, id: nat, data: seq<byte>): seq<DashCall> {
    if !dashboard then []
    else if id == 0x340 && |data| >= 8 then [SetRpm((data[6] as int * 256 + data[7]) as real / 1000.0)]
    else if id == 0x335 && |data| >= 8 then
      var fuel := data[7] as real * 0.3984;
      [SetFuel(if fuel > 100.0 then 100.0 else fuel)]
    else if id == 0x38A && |data| >= 1 then [SetSpeed(data[0] as real)]
    else if id == 0x7E8 && |data| >= 4 && data[1] == 0x41 && data[2] == 0x05 then
      [SetTemperature(TempPercent(data[3] as int - 40))]
    else []
  }

  /** At most one dashboard call per frame, each from its own ID and length guard; OBD engine-speed replies are only logged. */
  lemma ProcessProperties(dashboard: bool, id: nat, data: seq<byte>)
    ensures !dashboard ==> ProcessCanMessage(dashboard, id, data) == []
    ensures |ProcessCanMessage(dashboard, id, data)| <= 1
    ensures dashboard && id == 0x340 && |data| >= 8 ==>
      ProcessCanMessage(dashboard, id, data) == [SetRpm((256 * data[6] as int + data[7]) as real / 1000.0)]
    ensures dashboard && id == 0x38A && |data| >= 1 ==> ProcessCanMessage(dashboard, id, data) == [SetSpeed(data[0] as real)]
    ensures dashboard && id == 0x335 && |data| >= 8 ==>
      |ProcessCanMessage(dashboard, id, data)| == 1 &&
      ProcessCanMessage(dashboard, id, data)[0].SetFuel? && ProcessCanMessage(dashboard, id, data)[0].fuel <= 100.0
    ensures id == 0x7E8 && |data| >= 5 && data[2] == 0x0C ==> ProcessCanMessage(dashboard, id, data) == []
    ensures ProcessCanMessage(dashboard, id, data) != [] && ProcessCanMessage(dashboard, id, data)[0].SetTemperature? ==>
      id == 0x7E8 && data[1] == 0x41 && data[2] == 0x05 &&
      0.0 <= ProcessCanMessage(dashboard, id, data)[0].percent <= 100.0
  {
  }

  /** The simulator's engine-speed frame is read back as int(rpm)/1000 when int(rpm) fits in 16 bits. */
  lemma SimulatedRpmReadBack(rpm: real)
    requires 0 <= Trunc(rpm) < 65536
    ensures var p := SimpleSimulator.Payload340(rpm);
      SimpleSimulator.Bytes(p) &&
      ProcessCanMessage(true, 0x340, p) == [SetRpm(Trunc(rpm) as real / 1000.0)]
  {
    var v := Trunc(rpm);
    assert (v / 256) % 256 * 256 + v % 256 == v;
  }

  // --------------------------------------------------------------- framing

  /** The line-buffer loop: frames split off (empty ones skipped) and the unterminated rest. */
  function Frames(buf: string): (seq<string>, string)
    decreases |buf|
  {
    if '\r' in buf || '\n' in buf then
      var sep := if '\r' in buf then '\r' else '\n';
      var (frame, rest) := SplitOnce(buf, sep);
      var (more, left) := Frames(rest);
      ((if |frame| > 0 then [frame] else []) + more, left)
    else ([], buf)
  }

  /** One turn of the splitting loop. */
  lemma FramesUnfold(buf: string, sep: char)
    requires '\r' in buf || '\n' in buf
    requires sep == if '\r' in buf then '\r' else '\n'
    ensures var split := SplitOnce(buf, sep);
      Frames(buf).0 == (if |split.0| > 0 then [split.0] else []) + Frames(split.1).0 &&
      Frames(buf).1 == Frames(split.1).1
  {
  }

  lemma Associative(a: seq<string>, b: seq<string>, c: seq<string>)
    ensures a + (b + c) == (a + b) + c
  {
  }

  /** The inner `while '\r' in buffer or '\n' in buffer` loop of `serial_receiver`. */
  method SplitFrames(buffer: string) returns (frames: seq<string>, rest: string)
    ensures (frames, rest) == Frames(buffer)
  {
    frames := [];
    rest := buffer;
    assert [] + Frames(buffer).0 == Frames(buffer).0;
    while '\r' in rest || '\n' in rest
      invariant Frames(buffer).0 == frames + Frames(rest).0 && Frames(buffer).1 == Frames(rest).1
      decreases |rest|
    {
      var splitChar := if '\r' in rest then '\r' else '\n';
      var split := SplitOnce(rest, splitChar);
      var step := if |split.0| > 0 then [split.0] else [];
      FramesUnfold(rest, splitChar);
      Associative(frames, step, Frames(split.1).0);
      frames := frames + step;
      rest := split.1;
    }
    assert frames + [] == frames;
  }

  /** No frame is empty or holds a CR, and, when `noLf`, none holds an LF. */
  predicate CleanFrames(frames: seq<string>, noLf: bool) {
    forall k :: 0 <= k < |frames| ==> |frames[k]| > 0 && '\r' !in frames[k] && (noLf ==> '\n' !in frames[k])
  }

  /** Clean frame lists concatenate to a clean list. */
  lemma CleanAppend(head: seq<string>, more: seq<string>, noLf: bool)
    requires CleanFrames(head, noLf) && CleanFrames(more, noLf)
    ensures CleanFrames(head + more, noLf)
  {
    var all := head + more;
    forall k | 0 <= k < |all|
      ensures |all[k]| > 0 && '\r' !in all[k] && (noLf ==> '\n' !in all[k])
    {
      if k >= |head| { assert all[k] == more[k - |head|]; }
    }
  }

  /** The splitting loop leaves no separator in the rest and none inside a frame, except LFs when no CR was present. */
  lemma {:induction false} FramesClean(buf: string)
    ensures '\r' !in Frames(buf).1 && '\n' !in Frames(buf).1
    ensures CleanFrames(Frames(buf).0, '\r' !in buf)
    decreases |buf|
  {
    if '\r' in buf || '\n' in buf {
      var sep := if '\r' in buf then '\r' else '\n';
      var split := SplitOnce(buf, sep);
      var frame, rest := split.0, split.1;
      var noLf := '\r' !in buf;
      var head := if |frame| > 0 then [frame] else [];
      assert Frames(buf) == (head + Frames(rest).0, Frames(rest).1) by {
        FramesUnfold(buf, sep);
      }
      assert '\r' !in frame && (noLf ==> '\n' !in frame && '\r' !in rest) by {
        assert buf == frame + [sep] + rest;
      }
      FramesClean(rest);
      assert CleanFrames(Frames(rest).0, noLf);
      assert CleanFrames(head, noLf);
      CleanAppend(head, Frames(rest).0, noLf);
    }
  }

  /** No frame is empty or holds a CR, and the rest holds neither CR nor LF. */
  lemma FramesShape(buf: string)
    ensures '\r' !in Frames(buf).1 && '\n' !in Frames(buf).1
    ensures forall k :: 0 <= k < |Frames(buf).0| ==> |Frames(buf).0[k]| > 0 && '\r' !in Frames(buf).0[k]
    ensures '\r' !in buf ==> forall k :: 0 <= k < |Frames(buf).0| ==> '\n' !in Frames(buf).0[k]
  {
    FramesClean(buf);
  }

  /** A CR-terminated frame followed by more text splits off as that frame. */
  lemma FramesStep(body: string, more: string)
    requires |body| > 0 && '\r' !in body && '\n' !in body
    ensures Frames(body + "\r" + more) == ([body] + Frames(more).0, Frames(more).1)
  {
    var buf := body + "\r" + more;
    assert buf[|body|] == '\r';
    IndexOfAfter(body, '\r', more);
    assert body + ['\r'] + more == buf;
    assert buf[..|body|] == body && buf[|body| + 1..] == more;
    assert SplitOnce(buf, '\r') == (body, more);
  }

  /** Frames serialised back to back, as the simulator writes them. */
  function Encoded(ms: seq<Parsed>): string
    decreases |ms|
  {
    if |ms| == 0 then "" else SimpleSimulator.SlcanFrame(ms[0].id, ms[0].data) + Encoded(ms[1..])
  }

  /** The bodies of those frames. */
  function Bodies(ms: seq<Parsed>): (r: seq<string>)
    ensures |r| == |ms|
    decreases |ms|
  {
    if |ms| == 0 then [] else [Body(ms[0].id, ms[0].data)] + Bodies(ms[1..])
  }

  /** Frames the simulator serialised back to back split into exactly their bodies, with nothing left over. */
  lemma {:induction false} FramesOfEncoded(ms: seq<Parsed>, tail: string)
    requires forall k :: 0 <= k < |ms| ==> Sendable(ms[k].id, ms[k].data)
    requires '\r' !in tail && '\n' !in tail
    ensures Frames(Encoded(ms) + tail) == (Bodies(ms), tail)
    decreases |ms|
  {
    if |ms| == 0 {
      assert Encoded(ms) + tail == tail;
    } else {
      var b := Body(ms[0].id, ms[0].data);
      BodyShape(ms[0].id, ms[0].data);
      FramesOfEncoded(ms[1..], tail);
      assert Encoded(ms) + tail == b + "\r" + (Encoded(ms[1..]) + tail);
      FramesStep(b, Encoded(ms[1..]) + tail);
    }
  }

  // ------------------------------------------------------- receive loop

  /** The dashboard calls the split-off frames cause, in order. */
  function Handle(frames: seq<string>, dashboard: bool): seq<DashCall>
    decreases |frames|
  {
    if |frames| == 0 then []
    else
      var last := frames[|frames| - 1];
      Handle(frames[..|frames| - 1], dashboard) +
        match ParseFrame(last)
          case None => []
          case Some(p) => ProcessCanMessage(dashboard, p.id, p.data)
  }

  /** One read: append it to the buffer, split off the frames and handle them; the calls and the new buffer. */
  function Step(buffer: string, chunk: seq<byte>, dashboard: bool): (seq<DashCall>, string) {
    var (frames, rest) := Frames(buffer + AsciiIgnore(chunk));
    (Handle(frames, dashboard), rest)
  }

  /** What the receive loop does with the successive reads of the port, and the buffer it is left with. */
  function Feed(buffer: string, chunks: seq<seq<byte>>, dashboard: bool): (seq<DashCall>, string)
    decreases |chunks|
  {
    if |chunks| == 0 then ([], buffer)
    else
      var (calls, left) := Feed(buffer, chunks[..|chunks| - 1], dashboard);
      var (handled, rest) := Step(left, chunks[|chunks| - 1], dashboard);
      (calls + handled, rest)
  }

  /** The parse-and-dispatch loop over the frames split off one read. */
  method HandleFrames(frames: seq<string>, dashboard: bool) returns (handled: seq<DashCall>)
    ensures handled == Handle(frames, dashboard)
  {
    handled := [];
    for j := 0 to |frames|
      invariant handled == Handle(frames[..j], dashboard)
    {
      assert frames[..j + 1][..j] == frames[..j];
      var result := ParseSlcanFrame(frames[j]);
      if result.Some? {
        handled := handled + ProcessCanMessage(dashboard, result.value.id, result.value.data);
      }
    }
    assert frames[..|frames|] == frames;
  }

  /** One pass of `serial_receiver`: append the read, split off the frames, handle them. */
  method ReadChunk(bufferIn: string, chunk: seq<byte>, dashboard: bool) returns (handled: seq<DashCall>, buffer: string)
    ensures (handled, buffer) == Step(bufferIn, chunk, dashboard)
  {
    buffer := bufferIn + AsciiIgnore(chunk);
    var frames;
    frames, buffer := SplitFrames(buffer);
    handled := HandleFrames(frames, dashboard);
  }

  /** `serial_receiver` after the reads `chunks`, until the stop flag is set. */
  method SerialReceiver(chunks: seq<seq<byte>>, dashboard: bool) returns (calls: seq<DashCall>, buffer: string)
    ensures (calls, buffer) == Feed("", chunks, dashboard)
  {
    calls := [];
    buffer := "";
    for i := 0 to |chunks|
      invariant (calls, buffer) == Feed("", chunks[..i], dashboard)
    {
      assert chunks[..i + 1][..i] == chunks[..i];
      var handled;
      handled, buffer := ReadChunk(buffer, chunks[i], dashboard);
      calls := calls + handled;
    }
    assert chunks[..|chunks|] == chunks;
  }

  /** The dashboard calls a list of frames causes, in order. */
  function Calls(ms: seq<Parsed>, dashboard: bool): seq<DashCall>
    decreases |ms|
  {
    if |ms| == 0 then [] else Calls(ms[..|ms| - 1], dashboard) + ProcessCanMessage(dashboard, ms[|ms| - 1].id, ms[|ms| - 1].data)
  }

  /** The bodies of a list are those of its front and of its last frame. */
  lemma {:induction false} BodiesLast(ms: seq<Parsed>)
    requires |ms| > 0
    ensures Bodies(ms) == Bodies(ms[..|ms| - 1]) + [Body(ms[|ms| - 1].id, ms[|ms| - 1].data)]
    decreases |ms|
  {
    if |ms| > 1 {
      BodiesLast(ms[1..]);
      assert ms[1..][..|ms| - 2] == ms[..|ms| - 1][1..];
    }
  }

  /** Handling the bodies of serialised frames causes the calls of those frames. */
  lemma {:induction false} HandleBodies(ms: seq<Parsed>, dashboard: bool)
    requires forall k :: 0 <= k < |ms| ==> Sendable(ms[k].id, ms[k].data)
    ensures Handle(Bodies(ms), dashboard) == Calls(ms, dashboard)
    decreases |ms|
  {
    if |ms| > 0 {
      var init := ms[..|ms| - 1];
      BodiesLast(ms);
      HandleBodies(init, dashboard);
      var last := ms[|ms| - 1];
      ParseSerialised(last.id, last.data);
      assert Bodies(ms)[..|Bodies(ms)| - 1] == Bodies(init);
    }
  }

  /** End to end: frames written by the simulator in one read reach the dashboard exactly as sent. */
  lemma EndToEnd(ms: seq<Parsed>, dashboard: bool)
    requires forall k :: 0 <= k < |ms| ==> Sendable(ms[k].id, ms[k].data)
    requires forall j :: 0 <= j < |Encoded(ms)| ==> Encoded(ms)[j] as int < 128
    ensures AsciiIgnore(Ascii(Encoded(ms))) == Encoded(ms)
    ensures Feed("", [Ascii(Encoded(ms))], dashboard) == (Calls(ms, dashboard), "")
  {
    var e := Encoded(ms);
    AsciiRoundTrip(e);
    FramesOfEncoded(ms, "");
    assert e + "" == e && "" + e == e;
    HandleBodies(ms, dashboard);
    FeedOne("", Ascii(e), dashboard);
  }

  /** A single read is one step from the buffer. */
  lemma FeedOne(buffer: string, chunk: seq<byte>, dashboard: bool)
    ensures var (frames, rest) := Frames(buffer + AsciiIgnore(chunk));
      Feed(buffer, [chunk], dashboard) == (Handle(frames, dashboard), rest)
  {
    assert [chunk][..0] == [];
    var (frames, rest) := Frames(buffer + AsciiIgnore(chunk));
    assert [] + Handle(frames, dashboard) == Handle(frames, dashboard);
  }
}
