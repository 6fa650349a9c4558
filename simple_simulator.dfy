// The serial-line simulator (simple_simulator.py): LAWICEL/SLCAN ASCII frames
// "tIIILDD..\r" for the dashboard's 0x340, 0x335 and 0x38A frames, and an OBD
// reply pair whenever the dashboard's request shows up on the line.  The
// vehicle's state and what arrives on the serial port are inputs; the writes go
// out as a list of strings.

module SimpleSimulator {
  import opened Wrappers
  import opened Text

  /** The data bytes of a frame, two upper-case hex digits each (`f"{b:02X}"`). */
  function HexBytes(data: seq<int>): string
    decreases |data|
  {
    if |data| == 0 then "" else HexBytes(data[..|data| - 1]) + FormatHex(data[|data| - 1], 2)
  }

  /** An SLCAN standard frame: 't', the ID in 3 hex digits, the byte count in decimal, the data, CR. */
  function SlcanFrame(id: nat, data: seq<int>): string {
    "t" + FormatHex(id, 3) + DecOf(|data|) + HexBytes(data) + "\r"
  }

  /** `send_slcan_frame`: the text the line carries for one frame. */
  method SendSlcanFrame(id: nat, data: seq<int>) returns (frame: string)
    ensures frame == SlcanFrame(id, data)
  {
    var body := "";
    for i := 0 to |data|
      invariant body == HexBytes(data[..i])
    {
      assert data[..i + 1][..i] == data[..i];
      body := body + FormatHex(data[i], 2);
    }
    assert data[..|data|] == data;
    frame := "t" + FormatHex(id, 3) + DecOf(|data|) + body + "\r";
  }

  predicate Bytes(data: seq<int>) {
    forall k :: 0 <= k < |data| ==> 0 <= data[k] < 256
  }

  /** Byte k of the data sits at characters 2k and 2k+1 of the hex text, which never holds CR or LF. */
  lemma {:induction false} HexBytesShape(data: seq<int>)
    requires Bytes(data)
    ensures |HexBytes(data)| == 2 * |data|
    ensures forall k :: 0 <= k < |data| ==> HexBytes(data)[2 * k..2 * k + 2] == FormatHex(data[k], 2)
    ensures forall j :: 0 <= j < |HexBytes(data)| ==> HexBytes(data)[j] != '\r' && HexBytes(data)[j] != '\n'
    decreases |data|
  {
    if |data| > 0 {
      var init := data[..|data| - 1];
      HexBytesShape(init);
      FormatHexRoundTrip(data[|data| - 1], 2);
      var h := HexBytes(data);
      assert h == HexBytes(init) + FormatHex(data[|data| - 1], 2);
      forall k | 0 <= k < |data| ensures h[2 * k..2 * k + 2] == FormatHex(data[k], 2) {
        if k < |data| - 1 {
          assert h[2 * k..2 * k + 2] == HexBytes(init)[2 * k..2 * k + 2];
          assert init[k] == data[k];
        }
      }
    }
  }

  /** With an ID of at most 0xFFF and at most 9 bytes, the frame is 6 + 2·len(data) characters. */
  lemma FrameLength(id: nat, data: seq<int>)
    requires id <= 0xFFF && |data| <= 9 && Bytes(data)
    ensures |SlcanFrame(id, data)| == 6 + 2 * |data|
  {
    FormatHexRoundTrip(id, 3);
    HexBytesShape(data);
  }

  // ------------------------------------------------------------ the session

  /** The simulated vehicle at one cycle, and what the port had waiting (None: nothing). */
  datatype Cycle = Cycle(rpm: real, fuel: real, speed: real, temp: real, request: Option<string>)

  const SETUP: seq<string> := ["C\r", "S6\r", "O\r"]
  const CLOSE: string := "C\r"
  const FUEL_SCALE: real := 0.3984
  const OBD_REQUEST_TEXT: string := "t7DF"

  function Zeros8(): seq<int> {
    [0, 0, 0, 0, 0, 0, 0, 0]
  }

  function Payload340(rpm: real): seq<int> {
    var v := Trunc(rpm);
    Zeros8()[6 := (v / 256) % 256][7 := v % 256]
  }

  function Payload335(fuel: real): seq<int> {
    Zeros8()[7 := Trunc(fuel / FUEL_SCALE) % 256]
  }

  function Payload38A(speed: real): seq<int> {
    Zeros8()[0 := Trunc(speed) % 256]
  }

  function TempReply(temp: real): seq<int> {
    [0x03, 0x41, 0x05, Trunc(temp + 40.0), 0, 0, 0, 0]
  }

  function RpmReply(rpm: real): seq<int> {
    var v := Trunc(rpm * 4.0);
    [0x04, 0x41, 0x0C, (v / 256) % 256, v % 256, 0, 0, 0]
  }

  function Triggered(c: Cycle): bool {
    c.request.Some? && Contains(c.request.value, OBD_REQUEST_TEXT)
  }

  /** The frames one pass of the `while True` loop writes, in order. */
  function CycleWrites(c: Cycle): seq<string> {
    [SlcanFrame(0x340, Payload340(c.rpm)), SlcanFrame(0x335, Payload335(c.fuel)), SlcanFrame(0x38A, Payload38A(c.speed))]
    + (if Triggered(c) then [SlcanFrame(0x7E8, TempReply(c.temp)), SlcanFrame(0x7E8, RpmReply(c.rpm))] else [])
  }

  function Flatten(cycles: seq<Cycle>): seq<string>
    decreases |cycles|
  {
    if |cycles| == 0 then [] else Flatten(cycles[..|cycles| - 1]) + CycleWrites(cycles[|cycles| - 1])
  }

  /** One pass of the loop, filling zero payloads by index as the simulator does. */
  method RunCycle(c: Cycle) returns (writes: seq<string>)
    ensures writes == CycleWrites(c)
  {
    var rpmValue := Trunc(c.rpm);
    var data340 := Zeros8();
    data340 := data340[6 := (rpmValue / 256) % 256];
    data340 := data340[7 := rpmValue % 256];
    assert data340 == Payload340(c.rpm);
    var f1 := SendSlcanFrame(0x340, data340);

    var fuelRaw := Trunc(c.fuel / FUEL_SCALE);
    var data335 := Zeros8();
    data335 := data335[7 := fuelRaw % 256];
    assert data335 == Payload335(c.fuel);
    var f2 := SendSlcanFrame(0x335, data335);

    var speedValue := Trunc(c.speed);
    var data38a := Zeros8();
    data38a := data38a[0 := speedValue % 256];
    assert data38a == Payload38A(c.speed);
    var f3 := SendSlcanFrame(0x38A, data38a);
    writes := [f1, f2, f3];

    if Triggered(c) {
      var f4 := SendSlcanFrame(0x7E8, TempReply(c.temp));
      var f5 := SendSlcanFrame(0x7E8, RpmReply(c.rpm));
      writes := writes + [f4, f5];
    }
  }

  /** `simulate_can_data` until interrupted after `cycles`: setup, every cycle's frames, then close. */
  method Simulate(cycles: seq<Cycle>) returns (writes: seq<string>)
    ensures writes == SETUP + Flatten(cycles) + [CLOSE]
  {
    var sent: seq<string> := [];
    var i := 0;
    while i < |cycles|
      invariant 0 <= i <= |cycles|
      invariant sent == Flatten(cycles[..i])
    {
      assert cycles[..i + 1][..i] == cycles[..i];
      var w := RunCycle(cycles[i]);
      sent := sent + w;
      i := i + 1;
    }
    assert cycles[..|cycles|] == cycles;
    writes := SETUP + sent + [CLOSE];
  }

  /** The payload layouts: eight bytes, zero except the fields each ID carries. */
  lemma PayloadLayouts(c: Cycle)
    ensures var p := Payload340(c.rpm);
      |p| == 8 && Bytes(p) &&
      p[6] * 256 + p[7] == Trunc(c.rpm) % 65536 && forall k :: 0 <= k < 6 ==> p[k] == 0
    ensures var p := Payload335(c.fuel);
      |p| == 8 && Bytes(p) &&
      p[7] == Trunc(c.fuel / FUEL_SCALE) % 256 && forall k :: 0 <= k < 7 ==> p[k] == 0
    ensures var p := Payload38A(c.speed);
      |p| == 8 && Bytes(p) &&
      p[0] == Trunc(c.speed) % 256 && forall k :: 1 <= k < 8 ==> p[k] == 0
  {
    var v := Trunc(c.rpm);
    assert (v / 256) % 256 * 256 + v % 256 == v % 65536;
  }
}
