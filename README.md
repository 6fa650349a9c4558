# QTdashboard core, modelled in Dafny

QTdashboard is a Raspberry Pi car dashboard built with Qt. It reads a
Luxgen M7's CAN bus, either directly through python-can or as LAWICEL/SLCAN
text on a serial line. It shows engine speed, coolant temperature, fuel,
speed, gear, turn signals and doors. Around this it has GPS, power-loss
shutdown, Wi-Fi, Spotify and start-up helpers.

This project models the logic under the Qt and hardware plumbing. Every bus
receive, serial read, subprocess run, GPIO read and clock reading is an
input. Every Qt signal or callback the code emits is returned as a list of
events, or kept as a field of a class.

The files, one per component:

- `can_receiver.dfy` (`CanReceiver`) covers the receive loop of `datagrab.py`.
  - It decodes OBD-II PIDs 0x0C (engine speed) and 0x05 (coolant temperature) from 0x7E8/0x7E9.
  - It smooths RPM with an exponential moving average.
  - It maps 0x340 to the gear and 0x420 to turn signals and doors.
  - It keeps the consecutive-error counter that stops the loop.
  - It also covers the OBD query cycle.
- `can_simulator.dfy` (`CanSimulator`) covers the python-can simulator: the OBD reply frames and the gear-to-TRANS_MODE mapping.
- `simple_simulator.dfy` (`SimpleSimulator`) covers the SLCAN `t` frame writer and the frames the serial simulator sends.
- `slcan_receiver.dfy` (`SlcanReceiver`) covers the SLCAN parser, the line framer and the frame dispatch of `test_receiver.py`. It proves a round trip with the writer.
- `hex_parser.dfy` (`HexParser`) covers the 0x340 gear/RPM investigative decoder.
- `rpm_scanner.dfy` (`RpmScanner`) covers the RPM candidate scorer.
- `nmea.dfy` (`Nmea`) covers the NMEA 0183 checksum and sentence builder of the two GPS simulators, and the drive schedule of the virtual GPS.
- `location.dfy` (`Location`) covers:
  - GGA/RMC parsing into decimal degrees with a fix flag;
  - the wait for a fix;
  - the credential check before a Telegram report.
- `shutdown_monitor.dfy` (`Shutdown`) covers the power-loss monitor and the shutdown countdown dialog.
- `hardware_init.dfy` (`Hardware`) covers the start-up hardware detection loop and the `ip link` parser.
- `gpio_buttons.dfy` (`GpioButtons`) covers the short/long press handlers, the GPIO retry and the parking-brake polling.
- `parking_brake.dfy` (`ParkingBrake`) covers the stand-alone parking-brake monitor with its two-read debounce.
- `wifi_manager.dfy` (`Wifi`) covers:
  - the `nmcli -t` scan and status parsing;
  - the on-screen keyboard and password editing;
  - the connection error classification.
- `max_value_logger.dfy` (`MaxValues`) covers the running RPM/coolant maxima, the log file name and the five-file retention.
- `startup_progress.dfy` (`StartupProgress`) covers the start-up progress window, its QProgressBar range rule and the IPC command dispatch.
- `dashboard.dfy` (`Dashboard`) covers the gauge and dashboard setters of `main.py`, the tick layout, the keyboard simulation and the gear colours.
- `spotify_listener.dfy` (`SpotifyListener`) covers:
  - the playback poll and its error back-off;
  - the position interpolation;
  - the album-art choice and the stale-download guard.
- `turn_signal_simple.dfy` (`TurnSignalTest`) covers the turn-signal test window and its automatic sequence.
- `text.dfy` (`Wrappers`, `Text`) holds the `Option` type and the ASCII behaviour of the Python string builtins the code uses.

Floating-point code is modelled on `real`; no claim of bit-exact agreement
with IEEE doubles is made. Each imperative operation is a method or a class
method proved against a specification function, and the properties the
code promises are lemmas about those functions.

## Model

| member | source | states |
|---|---|---|
| CanReceiver.RawRpm | datagrab.py:150 | the PID $0C speed is (256·A + B)/4, never negative and never above 16383.75 |
| CanReceiver.Smooth | datagrab.py:153-156 | a zero average takes the raw reading outright; otherwise the average moves a quarter of the way towards the reading and stays between the two |
| CanReceiver.TempPercent | datagrab.py:179-180 | the coolant percentage is clamped to 0..100, is 0 at or below 40 °C, 100 at or above 120 °C and linear in between |
| CanReceiver.TransMode | datagrab.py:196 | the transmission mode is byte 0 modulo 32, below 32 |
| CanReceiver.Receive | datagrab.py:129-394 | the receive loop's final loop state, emitted signals and whether it broke out equal the pass-by-pass run of Step over the events |
| CanReceiver.StepErrorCounter | datagrab.py:132-138 | a timeout changes nothing; a received frame resets the error counter and never stops; a ValueError counts without stopping; a CAN or other error counts and stops exactly when the counter reaches 100; no error emits anything (also datagrab.py:375-394) |
| CanReceiver.RunStoppedExtends | datagrab.py:384-394 | once the loop has broken out, later events change nothing |
| CanReceiver.RunSnoc | datagrab.py:129-394 | one more event after a run that has not broken out is one more pass of the loop body |
| CanReceiver.RunErrorCount | datagrab.py:132-138 | after a run that has not broken out, the error counter is the number of failed receives since the last received frame (timeouts neither count nor reset), on top of the starting counter when no frame arrived (also datagrab.py:375-394) |
| CanReceiver.StopIndex | datagrab.py:381-394 | a run that broke out has a first event at which the pass stops, after a prefix that did not |
| CanReceiver.RunStopNeedsErrors | datagrab.py:381-394 | the loop breaks only at a CAN or unexpected error that brings the failed receives since the last received frame, on top of the starting counter when no frame arrived, to 100; so at least 100 events minus the starting counter were seen (also datagrab.py:116-117, 132-138) |
| CanReceiver.RunKeepsSmoothedInRange | datagrab.py:150-156 | over any run the smoothed engine speed stays within 0..16383.75 |
| CanReceiver.ObdRpmReply | datagrab.py:141-165 | a PID $0C reply of five or more bytes from 0x7E8 or 0x7E9 stores the raw speed, updates the average and emits exactly the average divided by 1000, leaving the error and frame counters alone |
| CanReceiver.ObdIgnored | datagrab.py:141-172 | a reply shorter than its PID needs, a coolant reply from the TCM or any other PID leaves the state unchanged and emits nothing |
| CanReceiver.ObdTempReply | datagrab.py:169-181 | a PID $05 reply of four or more bytes from the ECU stores A − 40 and emits its clamped percentage, leaving the average alone |
| CanReceiver.GearFrame | datagrab.py:189-236 | a 0x340 frame emits one gear exactly when indexing it does not fail, and never more than one |
| CanReceiver.GearLabels | datagrab.py:199-215 | mode 0 is N when byte 1's low nibble is 4 and P otherwise, mode 1 is D, mode 7 is R; a letter is shown iff the mode is 0, 1 or 7, and any other mode shows as its decimal number |
| CanReceiver.TurnSignalMapping | datagrab.py:309-316 | both_on, left_on and right_on are sent exactly for the bit pairs (1,1), (1,0) and (0,1); every other pair sends off |
| CanReceiver.TurnSignalTable | datagrab.py:309-316 | the four on/off pairs give off, left_on, right_on and both_on |
| CanReceiver.BodyFrame | datagrab.py:288-361 | a decoded body frame leaves the loop state alone and emits the turn state followed by FL, FR, RL, RR and BK, each closed iff its signal is 0 or absent |
| CanReceiver.QueryCycle | datagrab.py:403-429 | in CAN_ONLY mode no request is sent; otherwise the cycle sends the PID $0C then the PID $05 request, each an 8-byte single frame to 0x7DF for service $01, zero-padded |
| CanSimulator.TransModeFor | can_simulator.py:193-201 | the simulated TRANS_MODE is 7 exactly for gear 7, 1 exactly for gear 1 and 0 otherwise |
| CanSimulator.RpmSignals | can_simulator.py:190-211 | the engine-speed frame always carries TRANS_MODE, plus ENGINE_RPM_PN in P/N, or the base with a zero delta in D, or the R base with a zero R delta, and no other signal |
| CanSimulator.Answer | can_simulator.py:241-280 | a reply goes out only for a service $01 request of three or more bytes on 0x7DF; it comes from 0x7E8, is 8 bytes long, echoes the PID under service $41 with length byte 4 for PID $0C and 3 for PID $05; an unanswered valid request is neither PID $0C nor a coolant value that fits a byte |
| CanSimulator.HandleObdRequests | can_simulator.py:233-293 | the request loop sends exactly the replies to the received requests, in order, and nothing for a timeout |
| CanSimulator.QueriesAnswered | can_simulator.py:255-280 | both requests of the dashboard's query cycle are answered, each with its own PID (also datagrab.py:409-427) |
| CanSimulator.RpmRoundTrip | can_simulator.py:255-264 | the dashboard reads back int(rpm·4)/4 from the simulator's engine-speed reply whenever int(rpm·4) fits in 16 bits, and emits one update (also datagrab.py:147-165) |
| CanSimulator.CoolantRoundTrip | can_simulator.py:267-276 | the dashboard reads back int(temp + 40) − 40 from the simulator's coolant reply and emits its percentage (also datagrab.py:169-181) |
| SimpleSimulator.SendSlcanFrame | simple_simulator.py:71-93 | the frame written is 't', the ID in three upper-case hex digits, the byte count in decimal, two hex digits per byte and CR |
| SimpleSimulator.HexBytesShape | simple_simulator.py:84-85 | the hex text of n bytes has 2n characters, byte k formatted at positions 2k..2k+1, and contains no CR or LF |
| SimpleSimulator.FrameLength | simple_simulator.py:83-86 | a frame with an ID up to 0xFFF and up to 9 bytes is 6 + 2·len(data) characters long |
| SimpleSimulator.RunCycle | simple_simulator.py:131-176 | one pass writes the 0x340, 0x335 and 0x38A frames in that order and, when the waiting input contains "t7DF", the coolant reply and then the engine-speed reply |
| SimpleSimulator.Simulate | simple_simulator.py:109-195 | the line carries the setup commands C, S6 and O, then every pass's frames in order, then C when interrupted |
| SimpleSimulator.PayloadLayouts | simple_simulator.py:133-155 | each payload is eight bytes, zero except the big-endian engine speed in bytes 6-7, the fuel raw value in byte 7, or the speed in byte 0, each masked to its width |
| SlcanReceiver.Slots | test_receiver.py:49-52 | the bytes read are the declared count or as many two-character slots as fit after the five-character head, whichever is fewer |
| SlcanReceiver.ReadBytes | test_receiver.py:48-52 | reading k slots gives exactly k bytes, or nothing when a slot is not hex |
| SlcanReceiver.ReadBytesFails | test_receiver.py:52-58 | once a slot fails to parse, reading more slots still fails |
| SlcanReceiver.ParseSlcanFrame | test_receiver.py:26-58 | the byte loop returns what the frame parser gives: None for a short or non-'t' frame, a bad ID, length or data digit, else the ID and the bytes read |
| SlcanReceiver.ParseLength | test_receiver.py:38-52 | an accepted frame starts with 't', has a digit at position 4 and yields as many bytes as fit of the declared count |
| SlcanReceiver.ParseRejects | test_receiver.py:38-45 | frames not starting with 't', shorter than five characters, or with a non-hex ID or non-digit length give None |
| SlcanReceiver.BodyShape | simple_simulator.py:71-93 | a serialised frame is its body plus CR, 5 + 2·n characters long, with no line break inside |
| SlcanReceiver.ReadBytesOfHex | test_receiver.py:48-52 | text holding the two-digit hex of each byte reads back as those bytes (also simple_simulator.py:84-85) |
| SlcanReceiver.BodyParts | simple_simulator.py:80-88 | a body is 't', the three-digit ID, the length digit and the data hex, in that order |
| SlcanReceiver.ParseSerialised | test_receiver.py:26-54 | parsing a frame the simulator serialised, with an ID up to 0xFFF and at most 9 bytes, gives back exactly its ID and bytes (also simple_simulator.py:71-93) |
| SlcanReceiver.ProcessProperties | test_receiver.py:61-110 | without a dashboard nothing is called; otherwise at most one call per frame: 0x340 sets the RPM from bytes 6-7 / 1000, 0x335 a fuel level of at most 100, 0x38A the speed from byte 0, and an OBD 05 reply a temperature percentage in [0, 100]; an OBD 0C reply calls nothing |
| SlcanReceiver.SimulatedRpmReadBack | test_receiver.py:70-74 | the simulator's engine-speed frame is read back as int(rpm)/1000 when int(rpm) fits in 16 bits (also simple_simulator.py:133-137) |
| SlcanReceiver.FramesUnfold | test_receiver.py:136-141 | one turn of the splitting loop cuts at the first CR, or the first LF when there is no CR, and keeps the piece when it is not empty |
| SlcanReceiver.SplitFrames | test_receiver.py:136-141 | the splitting loop gives the frames and the rest of the framing function |
| SlcanReceiver.CleanAppend | test_receiver.py:136-141 | clean frame lists concatenate to a clean list |
| SlcanReceiver.FramesClean | test_receiver.py:136-141 | no frame is empty or holds a CR, frames hold no LF when the buffer had no CR, and the rest holds neither |
| SlcanReceiver.FramesShape | test_receiver.py:136-141 | the same shape properties stated for the framing function's result |
| SlcanReceiver.FramesStep | test_receiver.py:136-141 | a CR-terminated body followed by more text splits off as exactly that frame |
| SlcanReceiver.Bodies | simple_simulator.py:71-93 | one body per frame |
| SlcanReceiver.FramesOfEncoded | test_receiver.py:136-141 | frames the simulator wrote back to back split into exactly their bodies, with only the unterminated tail left over (also simple_simulator.py:71-93) |
| SlcanReceiver.HandleFrames | test_receiver.py:141-146 | the dispatch loop causes the calls the handling function gives, in order |
| SlcanReceiver.ReadChunk | test_receiver.py:131-146 | one read appends the ASCII-decoded chunk, splits off the frames and handles them, as the step function does |
| SlcanReceiver.SerialReceiver | test_receiver.py:124-155 | after the successive reads, the calls and buffer are those of feeding the reads to the step function in order |
| SlcanReceiver.BodiesLast | simple_simulator.py:71-93 | the bodies of a list are those of its front followed by the body of its last frame |
| SlcanReceiver.HandleBodies | test_receiver.py:141-146 | handling the bodies of serialised frames causes the calls of those frames |
| SlcanReceiver.EndToEnd | test_receiver.py:116-146 | frames written by the simulator and received in one read reach the dashboard exactly as sent, with an empty buffer after (also simple_simulator.py:71-93) |
| SlcanReceiver.FeedOne | test_receiver.py:131-146 | a single read is one step from the buffer |
| HexParser.Unspaced | test_hex_parser.py:10 | the text with its ASCII whitespace dropped is no longer than the text and holds no whitespace |
| HexParser.AllHexConcat | test_hex_parser.py:10 | a concatenation is all hex digits exactly when both parts are |
| HexParser.FromHexDigits | test_hex_parser.py:10 | an accepted text is hex digits once its ASCII whitespace is dropped, and decodes to one byte per two digits |
| HexParser.FromHexUnspaced | test_hex_parser.py:10 | a text without whitespace is accepted exactly when it has an even number of characters, all hex digits |
| HexParser.FromHexDefined | test_hex_parser.py:8-13 | `bytes.fromhex` accepts a text only if it is hex digits once its ASCII whitespace is dropped, and then gives one byte per two digits; a text without whitespace is accepted iff it has an even number of characters, all hex digits |
| HexParser.FromHexStep | test_hex_parser.py:10 | an accepted text that does not start with whitespace decodes to the byte of its first two digits followed by the decoding of the rest |
| HexParser.FromHexConcat | test_hex_parser.py:10 | an accepted prefix decodes independently of what follows |
| HexParser.FromHexSkipsSeparator | test_hex_parser.py:7-10 | whitespace left between two accepted texts after the spaces are removed (a tab, a line break) is skipped by `bytes.fromhex` |
| HexParser.FromHexSplitPair | test_hex_parser.py:10 | whitespace inside a pair of hex digits is rejected |
| HexParser.FromHexPair | test_hex_parser.py:10 | two upper-case digits of a byte decode back to that byte (also simple_simulator.py:85) |
| HexParser.FromHexBytes | test_hex_parser.py:10 | the simulator's hex text of a frame's data decodes back to exactly those bytes (also simple_simulator.py:84-85) |
| HexParser.GearOf | test_hex_parser.py:20-28 | P/N, D and R are reported exactly for modes 0, 1 and 7; any other mode is unknown with its own code |
| HexParser.RemoveConcat | test_hex_parser.py:8 | removing spaces distributes over concatenation |
| HexParser.RemoveAbsent | test_hex_parser.py:8 | removing a character that is absent changes nothing |
| HexParser.RemoveAcrossSpace | test_hex_parser.py:8 | removing spaces from a + " " + b, with b space-free, gives a without spaces followed by b |
| HexParser.RemoveDump | test_hex_parser.py:8-77 | a space-separated dump without its spaces is the unseparated hex text of the same bytes |
| HexParser.Decode | test_hex_parser.py:15-63 | a reading exists iff there are eight bytes; its gear comes from byte 0; P/N reads bytes 6-7 times 2, D and R read bytes 2-3 plus 6 times byte 7, any other mode reads bytes 2-3 |
| HexParser.ParseDump | test_hex_parser.py:3-17 | a space-separated dump of eight bytes parses to exactly those bytes' reading |
| HexParser.ParseRejects | test_hex_parser.py:9-17 | text that, without its whitespace, holds a non-hex character or is not 16 digits long gives no reading |
| HexParser.UnmaskedMode | test_hex_parser.py:27-28 | byte 0 is read unmasked here: 0x21 is an unknown mode while the receiver reads the same frame as D (also datagrab.py:196) |
| HexParser.Vectors | test_hex_parser.py:72-77 | the four recorded dumps read P/N 800, R 767, P/N 794 and D 767 |
| RpmScanner.ScaleIsProduct | rpm_scanner.py:111-115 | the per-factor scaling is the reading times the factor 1, 0.5, 0.25, 2 or 4 |
| RpmScanner.QueryIsEngineSpeedRequest | rpm_scanner.py:39 | the query frame is the receiver's OBD-II request for PID 0x0C on 0x7DF |
| RpmScanner.PairValue | rpm_scanner.py:106-108 | a byte pair read either way is a 16-bit value |
| RpmScanner.TrialCount | rpm_scanner.py:115-120 | a trial adds one point to its own key exactly when the scaled reading is strictly within 50 of the baseline, and touches no other key |
| RpmScanner.TrialHits | rpm_scanner.py:118-130 | a trial only appends, and it appends one report exactly when its point takes the count to 10 (the first confirmation) or to a multiple of 50 (a tracking line), carrying the key, the new count and the scaled reading |
| RpmScanner.FactorsCount | rpm_scanner.py:114-120 | the factor loop scores one point for a key of this ID, offset and byte order exactly when its factor was tried and its scaled reading is near the baseline |
| RpmScanner.EndiansCount | rpm_scanner.py:113-120 | the byte-order loop scores one point for a key at this offset exactly when its byte order was tried and the frame scores for it |
| RpmScanner.PairsCount | rpm_scanner.py:104-120 | the offset loop scores one point for a key exactly when its offset was reached and the frame scores for it |
| RpmScanner.ScanCount | rpm_scanner.py:104-130 | scanning a frame of two bytes or more scores exactly one point for each key it matches and none for any other |
| RpmScanner.BaselineUpdate | rpm_scanner.py:83-87 | an engine-speed reply of five or more bytes sets the baseline to (256·A + B)/4 and scores nothing |
| RpmScanner.NoScore | rpm_scanner.py:89-102 | nothing scores below a 300 rpm baseline, on frames under two bytes, or on 0x7E8, 0x7DF and 0x340 |
| RpmScanner.StepCounts | rpm_scanner.py:78-130 | no receive lowers a count, and a scanned frame adds exactly the point it scores for each key |
| RpmScanner.ShortReplyCrashes | rpm_scanner.py:83-84 | a 0x7E8 reply too short for data[2], or an engine-speed reply too short for data[4], raises an uncaught index error that ends the scan |
| RpmScanner.Scanner.constructor | rpm_scanner.py:16-73 | no candidates and a zero baseline at start |
| RpmScanner.Scanner.Receive | rpm_scanner.py:78-130 | one receive either crashes exactly when the step function says so or leaves the counts, baseline and reports the step function gives |
| RpmScanner.Scanner.ScanPair | rpm_scanner.py:105-113 | both byte orders of one pair leave the counts and reports of the byte-order loop |
| RpmScanner.Scanner.ScanReading | rpm_scanner.py:114-130 | the five factors on one reading leave the counts and reports of the factor loop |
| RpmScanner.Scanner.TryFactor | rpm_scanner.py:115-130 | one factor on one reading leaves the counts and reports of one trial |
| Nmea.Checksum | gps_simulator.py:18-23 | the loop's result is the two-digit upper-case hex rendering of the XOR of all character codes (also virtual_gps.py:7-12) |
| Nmea.XorConcat | gps_simulator.py:20-22 | the checksum of a concatenation is the XOR of the two checksums |
| Nmea.ChecksumEmpty | gps_simulator.py:20-23 | the empty payload's checksum is "00" |
| Nmea.XorAscii | gps_simulator.py:20-22 | the XOR of an ASCII string is below 128 |
| Nmea.ChecksumDigits | gps_simulator.py:23 | for an ASCII payload the checksum is exactly two hex digits and reads back as the XOR |
| Nmea.SameFrame | virtual_gps.py:14-18 | the two simulators' sentence builders give the same text for the same type and fields (also gps_simulator.py:26-28) |
| Nmea.ChecksumCoversPayload | gps_simulator.py:26-28 | in a built sentence the first '*' ends the payload, the two characters after it are the hex checksum of exactly the text between '$' and '*', and CR LF closes it |
| Nmea.PayloadFields | gps_simulator.py:27 | splitting the payload on commas gives back the type and the fields, when none holds a comma |
| Nmea.Hemispheres | gps_simulator.py:39 | the latitude letter is N iff the latitude is non-negative, else S; the longitude letter E iff non-negative, else W |
| Nmea.FixedSpeed | gps_simulator.py:42-45 | the fixed-mode speed is the base speed floored at zero |
| Nmea.Flags | gps_simulator.py:101-102 | status is "A" and quality "1" with a fix; "V" and "0" in no-fix mode |
| Nmea.ScheduleAsWritten | virtual_gps.py:51-70 | the loop's schedule as written: no tick at 60 s or later, every speed in [-50, 100], a negative speed only in ACCEL between 10 and 20 s, and a positive speed exactly after 20 s |
| Nmea.NegativeAccel | virtual_gps.py:55-60 | as written, the ACCEL phase between 10 and 20 seconds sends a negative speed (-50 km/h at 10 s) |
| Nmea.Schedule | virtual_gps.py:51-70 | the corrected schedule: no tick at 60 s or later, every speed in [0, 100], and a positive speed exactly after 20 s |
| Nmea.ScheduleAgrees | virtual_gps.py:51-70 | the corrected schedule sends in the same cases as written and agrees with it except between 10 and 20 s, where it sends ACCEL at 0 km/h |
| Nmea.Run | virtual_gps.py:43-99 | the loop over the clock readings, with the schedule as written, leaves the state the one-pass function replayed over them gives |
| Nmea.AdvanceSent | virtual_gps.py:51-97 | one pass as written keeps every sent tick fixed, with a speed in [-50, 100] that is negative only in ACCEL, and the latitude drifting one step exactly while the speed is positive; it only appends |
| Nmea.ReplaySent | virtual_gps.py:43-99 | any number of passes keep that invariant and only append to what was sent |
| Nmea.RewindLandsInAccel | virtual_gps.py:67-70 | the rewind after 60 s moves the clock origin so that the next ten seconds are ACCEL, not FIXED_STOP as the comment says: at the negative speed (later - now - 10) * 5 as written, and at 0 km/h in the corrected schedule |
| Location.DegreesOfDdmm | location_notifier.py:98-101 | a DDMM.MMMM value made of whole degrees times 100 plus minutes below 100 converts to exactly degrees plus minutes / 60 |
| Location.HemisphereRoundTrip | location_notifier.py:98-108 | the DDMM number and hemisphere letter the simulator writes for any latitude and longitude give the parser's formula the signed angle back (also gps_simulator.py:31-39) |
| Location.Coordinates | location_notifier.py:86-110 | coordinates come out iff both raw fields are non-empty, numeric and non-zero; then each is the DDMM conversion, negated for S or W, and the fix flag is passed through |
| Location.ParseRejects | location_notifier.py:48-84 | a line yields coordinates only if, decoded and stripped, it starts with '$', has a GGA or RMC type and at least seven comma fields (a six-field GGA raises at parts[6] and gives None) |
| Location.ParseFields | location_notifier.py:64-82 | a GGA line reads latitude, NS, longitude, EW from fields 2-5 and fixes when field 6 is not "0"; an RMC line reads fields 3-6 and fixes when field 2 is "A" |
| Location.BodyAscii | gps_simulator.py:26-28 | a simulator sentence is ASCII, is its body plus CR LF, and the body has no white space at either end (also location_notifier.py:49) |
| Location.BodyParts | gps_simulator.py:26-28 | the sentence body is the comma join of "$" + type and the fields, followed by "*" and the checksum |
| Location.BodySplit | gps_simulator.py:26-28 | splitting the body on commas gives "$" + type, the fields, and the last field glued to "*" and the checksum (also location_notifier.py:53) |
| Location.BodyType | gps_simulator.py:27-28 | the body starts with "$" and the sentence type |
| Location.BodyStrip | location_notifier.py:49 | decoding the sentence's ASCII bytes and stripping them leaves the body (also gps_simulator.py:138-139) |
| Location.BodyFields | location_notifier.py:53 | comma fields 2-6 of the body are the sentence's fields 1-5 (also gps_simulator.py:26-28) |
| Location.ParseLine | location_notifier.py:64-110 | a GGA or RMC line whose comma fields 2-6 are given parses exactly as those fields say |
| Location.TypePrefix | location_notifier.py:64-74 | the GPGGA/GNGGA type names pass the GGA test and GPRMC/GNRMC pass the RMC test and not the GGA one |
| Location.ReadsSentence | location_notifier.py:42-110 | any sentence the simulators build from plain fields is ASCII and parses as its fields say (also gps_simulator.py:26-28) |
| Location.ReadsGga | location_notifier.py:64-72 | a GGA sentence as the simulators build it is read back field for field, with the fix from the quality field (also gps_simulator.py:120-136; virtual_gps.py:96) |
| Location.ReadsRmc | location_notifier.py:74-82 | an RMC sentence as the simulators build it is read back field for field, with the fix from the status field (also gps_simulator.py:104-118; virtual_gps.py:90) |
| Location.SimulatorFlagsRead | gps_simulator.py:101-102 | the simulators' status and quality flags are read as a fix exactly when no-fix mode is off (also location_notifier.py:67, 77) |
| Location.SignatureCount | location_notifier.py:149-152 | the number of signature lines is at most the number of lines read |
| Location.Probe | location_notifier.py:143-157 | a probe locks iff at least two of the lines it read start with '$' and contain '*' after decoding and stripping |
| Location.SignatureGrows | location_notifier.py:145-153 | reading more lines never lowers the signature count |
| Location.WaitBudget | location_notifier.py:169-170 | the wait is what the timeout leaves, but never less than 5 seconds |
| Location.WaitForFix | location_notifier.py:174-205 | the second pass returns what the decision over the lines read gives, starting with no fallback |
| Location.FirstFixWins | location_notifier.py:184-190 | the first line with a fixed position decides: its coordinates, not approximate |
| Location.NothingParsed | location_notifier.py:180-205 | lines that give no coordinates leave the result to the fallback: none, or the last position as approximate |
| Location.DecideUnfixed | location_notifier.py:191-195 | a first line without a fix passes the decision on to the rest, remembering its position |
| Location.LastApproxOnTimeout | location_notifier.py:193-202 | without any fix, the last line that gave coordinates is returned, marked approximate |
| Location.FindLocation | location_notifier.py:115-205 | when no probe locked on a port, the search gives no location |
| Location.Notify | location_notifier.py:207-236 | a message goes out iff the credentials are present, non-empty and not a "YOUR_" placeholder and a location was found; it carries that position and the approximate note exactly when the position is approximate |
| Location.PlaceholderAborts | location_notifier.py:221-223 | a token containing "YOUR_" never sends a message, whatever the GPS reports |
| Shutdown.NewDialog | shutdown_monitor.py:42-57 | a new dialog holds the given countdown as both current and initial value and the test mode, hidden and with its timer stopped |
| Shutdown.ShowDialog | shutdown_monitor.py:209-214 | showing the dialog makes it visible, starts the timer and restarts the countdown from the initial value |
| Shutdown.CloseDialog | shutdown_monitor.py:238-241 | closing hides the dialog and stops the timer; the countdown is kept |
| Shutdown.ShutdownOutcome | shutdown_monitor.py:277-309 | the shutdown closes the dialog and emits exit_app in test mode, shutdown_confirmed otherwise |
| Shutdown.TickDialog | shutdown_monitor.py:243-250 | with the timer running a tick decrements the countdown, and on reaching zero or below it stops the timer and shuts down; with it stopped nothing happens |
| Shutdown.CancelDialog | shutdown_monitor.py:266-270 | cancel stops the timer, emits shutdown_cancelled and closes the dialog |
| Shutdown.ShutdownNowDialog | shutdown_monitor.py:272-275 | the shutdown button stops the timer and shuts down at once |
| Shutdown.CountingDown | shutdown_monitor.py:243-250 | while more than n seconds remain, n ticks only count down by n and emit nothing |
| Shutdown.StoppedStays | shutdown_monitor.py:241-249 | a stopped countdown stays where it is and emits nothing however many ticks pass |
| Shutdown.ShutdownAfterInitial | shutdown_monitor.py:212-250 | once shown, the dialog emits nothing for its first initial − 1 ticks, shuts down on exactly the initial-th tick (the first when initial is not positive), is then hidden, and emits nothing more afterwards |
| Shutdown.TicksSplit | shutdown_monitor.py:243-250 | n + m ticks are n ticks followed by m ticks, with the signals concatenated |
| Shutdown.CancelStopsCountdown | shutdown_monitor.py:266-270 | after a cancel no number of ticks emits anything |
| Shutdown.InitialMonitor | shutdown_monitor.py:355-371 | a new monitor has last voltage 0, was_powered false, low count 0, no trigger flags, no receipt time and no dialog |
| Shutdown.AfterVoltage | shutdown_monitor.py:506-575 | every reading records its time, clears both timeout flags and becomes the last voltage; a normal one sets was_powered, zeroes the count, clears the trigger and closes a visible dialog with power_restored, leaving a hidden or absent dialog as it was; a low one after power counts, and power_lost is emitted exactly when the count reaches the debounce limit with the trigger clear |
| Shutdown.AfterQuickCheck | shutdown_monitor.py:433-473 | the quick check fires exactly when power was seen, a receipt exists, no trigger is set, the dialog is not visible and 15 s have passed; then it sets both flags and emits power_lost, otherwise nothing changes |
| Shutdown.AfterNoSignalCheck | shutdown_monitor.py:475-501 | the no-signal check fires exactly when a receipt exists, all three flags are clear, the dialog is not visible and 180 s have passed; then it sets its own flag and emits no_signal_timeout, never power_lost |
| Shutdown.StartMonitoring | shutdown_monitor.py:394-408 | starting the monitoring sets the reference time to now and clears both timeout flags, and leaves the power state alone |
| Shutdown.Cancelled | shutdown_monitor.py:605-615 | a cancel clears the trigger, the low count and the no-signal flag and restarts the receipt time; was_powered and the quick flag stay |
| Shutdown.WithDialogShown | shutdown_monitor.py:577-589 | afterwards the dialog is visible; a visible one is left alone, a hidden one restarts its countdown, and the first one is created with 30 seconds and the monitor's test mode; nothing else changes |
| Shutdown.Step | shutdown_monitor.py:334-615 | no event changes the thresholds, the debounce limit or the test mode |
| Shutdown.RunKeepsConfig | shutdown_monitor.py:342-350 | the configuration is the same after any run of events |
| Shutdown.PowerLostOnce | shutdown_monitor.py:449-460 | between a normal reading and a cancel, power_lost is emitted at most once and not at all when already triggered, and the trigger is set exactly when it was or power_lost was emitted (also shutdown_monitor.py:554-555) |
| Shutdown.StepPowerLost | shutdown_monitor.py:449-460 | an event that does not re-arm emits power_lost only alone and only with the trigger clear, and afterwards the trigger is set exactly when it was or power_lost was emitted (also shutdown_monitor.py:554-567) |
| Shutdown.StepNoSignal | shutdown_monitor.py:483-501 | an event that does not restart the wait emits no_signal_timeout only alone and only with its flag clear, and afterwards the flag is set exactly when it was or the signal was emitted |
| Shutdown.NoSignalOnce | shutdown_monitor.py:475-501 | without a reading, a restart or a cancel, no_signal_timeout is emitted at most once |
| Shutdown.LowReadingsTrigger | shutdown_monitor.py:549-567 | after power was seen, k low readings raise the count by k and emit power_lost once exactly when the count reaches the debounce limit with the trigger clear |
| Shutdown.UnpoweredIgnoresLow | shutdown_monitor.py:549-573 | before the first normal reading, readings below the normal threshold never count, trigger or emit |
| Shutdown.MidVoltageKeepsCount | shutdown_monitor.py:515-575 | a reading between the two thresholds changes only the last voltage, the receipt time and the two timeout flags, and emits nothing |
| Shutdown.ShutdownDialog.constructor | shutdown_monitor.py:42-57 | the dialog object starts in the state of a new dialog |
| Shutdown.ShutdownDialog.Show | shutdown_monitor.py:209-214 | the object's new state is the shown dialog |
| Shutdown.ShutdownDialog.Close | shutdown_monitor.py:238-241 | the object's new state is the closed dialog |
| Shutdown.ShutdownDialog.DoShutdown | shutdown_monitor.py:277-309 | the object's new state and signals are the shutdown outcome |
| Shutdown.ShutdownDialog.OnTick | shutdown_monitor.py:243-250 | the object's new state and signals are those of one tick |
| Shutdown.ShutdownDialog.OnCancel | shutdown_monitor.py:266-270 | the object's new state and signals are those of a cancel |
| Shutdown.ShutdownDialog.OnShutdown | shutdown_monitor.py:272-275 | the object's new state and signals are those of the shutdown button |
| Shutdown.ShutdownMonitor.constructor | shutdown_monitor.py:334-371 | the object starts in the state of a new monitor |
| Shutdown.ShutdownMonitor.UpdateVoltage | shutdown_monitor.py:506-575 | the object's new state and signals are those of one reading, and the dialog object is the same |
| Shutdown.ShutdownMonitor.CheckQuickPowerLoss | shutdown_monitor.py:433-473 | the object's new state and signals are those of the quick check |
| Shutdown.ShutdownMonitor.CheckNoSignalTimeout | shutdown_monitor.py:475-504 | the object's new state and signals are those of the no-signal check |
| Shutdown.ShutdownMonitor.StartNoSignalMonitoring | shutdown_monitor.py:394-408 | the object's new state is that of starting the monitoring |
| Shutdown.ShutdownMonitor.OnShutdownCancelled | shutdown_monitor.py:605-615 | the object's new state is that of a cancel |
| Shutdown.ShutdownMonitor.ShowShutdownDialog | shutdown_monitor.py:577-589 | the dialog object is created once and then reused, and the new state has it shown |
| Hardware.AllReady | hardware_init.py:52-55 | the hardware is all ready iff CAN, GPS and GPIO are all in the ready set |
| Hardware.ReadySetSize | hardware_init.py:57-67 | the ready set has one member per ready flag |
| Hardware.ReadyCount | hardware_init.py:57-67 | the count is the size of the ready set, between 0 and 3, and is 3 exactly when everything is ready |
| Hardware.LinkLines | hardware_init.py:162-168 | the interface listing is read only when `ip` succeeds with non-blank output, and then it is the stripped output split at newlines |
| Hardware.InterfaceName | hardware_init.py:171-173 | the interface name never holds '@' and is the whole second field when that field has none |
| Hardware.UpIsLowerUp | hardware_init.py:174 | the "UP" test adds nothing: a line passes both tests iff it contains LOWER_UP |
| Hardware.FirstSocketCan | hardware_init.py:169-192 | no interface is found iff no header line is up with a bus that opens; a found one is the name on the first such line |
| Hardware.UsableTail | hardware_init.py:169-192 | past an unusable first line, usability of the rest and the position of the first usable line carry over |
| Hardware.FindSocketCan | hardware_init.py:169-192 | the SocketCAN loop returns FirstSocketCan of the listing |
| Hardware.FirstSlcan | hardware_init.py:195-213 | no adapter is found iff no port whose lower-cased description holds "canable" opens; a found one is such a port's device |
| Hardware.FindSlcan | hardware_init.py:195-213 | the SLCAN loop returns FirstSlcan of the ports |
| Hardware.CheckCan | hardware_init.py:148-216 | SocketCAN is tried first, and only on Linux, then SLCAN; the probe reports "SocketCAN (iface)", "SLCAN (device)" or the not-found error |
| Hardware.ReadsNmea | hardware_init.py:265-273 | a port counts as a GPS iff one of the lines read starts with "$GP" or "$GN" |
| Hardware.FirstGps | hardware_init.py:259-277 | no GPS is found iff no trial hears NMEA; a found one is reported as "port @ baud" of a trial that did |
| Hardware.CheckGps | hardware_init.py:225-280 | no candidate port gives the no-port error; otherwise the first trial that hears NMEA is reported, or the no-NMEA error |
| Hardware.Probed | hardware_init.py:368-376 | one pass probes only what is not ready, never un-readies a component or touches a ready one's fields, and a probed component becomes ready iff its probe found it |
| Hardware.RequiredReady | hardware_init.py:394-399 | the requirement holds iff CAN is ready, and GPS and GPIO as far as they are required |
| Hardware.Loop | hardware_init.py:355-415 | the loop succeeds iff CAN is ready when it ends, never un-readies anything, and makes at most one pass per attempt |
| Hardware.Initialization | hardware_init.py:322-415 | off a Pi the result is a failure with CAN not ready and GPS and GPIO marked ready; on a Pi it succeeds iff CAN ends ready |
| Hardware.NoTimeoutRunsOn | hardware_init.py:362-366 | with no positive timeout and no stop the loop ends early only by meeting its requirement |
| Hardware.ExpiryStops | hardware_init.py:362-366 | no pass runs at or after the first expired attempt |
| Hardware.ReadyStaysReady | hardware_init.py:368-376 | once a component is ready it stays ready and later passes leave its fields alone |
| Hardware.HardwareInitializer.constructor | hardware_init.py:108-134 | a new initializer keeps its timeout and requirements, holds the default status and no stop request |
| Hardware.HardwareInitializer.Stop | hardware_init.py:144-146 | a stop is requested and the status is unchanged |
| Hardware.HardwareInitializer.Initialize | hardware_init.py:322-415 | the result is what Initialization gives from the old status, and the stored status is the one returned |
| GpioButtons.Held | gpio_buttons.py:202-224 | a hold sets the button's flag and emits its long press |
| GpioButtons.Released | gpio_buttons.py:208-235 | a release always clears the flag; after a hold it emits nothing, otherwise it emits the short press |
| GpioButtons.OneSignalPerPress | gpio_buttons.py:70-72 | from a clear flag every press emits exactly one signal, the long press exactly for the presses that were held, and the flag ends clear (also gpio_buttons.py:202-235) |
| GpioButtons.Retry | gpio_buttons.py:174-195 | the retry loop never passes ten attempts, never goes back, succeeds only on an attempt whose set-up succeeded, and every attempt before the last one failed |
| GpioButtons.RetryExhausts | gpio_buttons.py:176-195 | without stop_retry the loop ends either with a success or after all ten attempts |
| GpioButtons.RetryStopsAtFirstSuccess | gpio_buttons.py:185-188 | without stop_retry the loop stops at the first attempt that succeeds, with that attempt's count |
| GpioButtons.GpioButtonHandler.constructor | gpio_buttons.py:62-82 | the handler starts with both hold flags clear, no retry running, a zero count, the brake released and nothing open |
| GpioButtons.GpioButtonHandler.OnHeld | gpio_buttons.py:202-224 | the hold handler does what Held says for its button and leaves the other button's flag alone |
| GpioButtons.GpioButtonHandler.OnReleased | gpio_buttons.py:208-235 | the release handler does what Released says for its button and leaves the other button's flag alone |
| GpioButtons.GpioButtonHandler.InitGpio | gpio_buttons.py:87-149 | a successful set-up opens the buttons and the sensor, reads the brake's first state, starts its monitor and marks the handler initialised; a failed one changes neither flag nor brake state |
| GpioButtons.GpioButtonHandler.StartRetry | gpio_buttons.py:157-172 | a retry is launched iff none is running, and a launched one starts from a zero count |
| GpioButtons.GpioButtonHandler.RetryGpioInit | gpio_buttons.py:174-195 | the attempt count afterwards is Retry's, a success leaves the handler initialised, and the retry is no longer running |
| GpioButtons.GpioButtonHandler.StopRetry | gpio_buttons.py:197-199 | the retry stops and nothing else changes |
| GpioButtons.GpioButtonHandler.MonitorParkingBrake | gpio_buttons.py:238-255 | with the sensor open the brake state and emitted changes are the two-read debounce of the polls; with it closed nothing is read |
| GpioButtons.GpioButtonHandler.Cleanup | gpio_buttons.py:262-280 | both loops are told to stop, every handle is dropped and the handler is no longer initialised |
| ParkingBrake.ReadState | parking_brake_monitor.py:63-76 | without GPIO the brake reads released; otherwise it reads engaged iff the level is LOW for an active-low line and HIGH for an active-high one |
| ParkingBrake.Debounce | parking_brake_monitor.py:112-125 | a poll reports a change iff both its reads differ from the stored state; a reported change flips the state to the value reported, otherwise the state stays |
| ParkingBrake.DebouncedAlternates | parking_brake_monitor.py:104-125 | after any run of polls the reported values alternate, the first differs from the starting state, and the final state is the last value reported |
| ParkingBrake.Reads | parking_brake_monitor.py:112-117 | every poll's two raw levels become the two states ReadState gives |
| ParkingBrake.ParkingBrakeMonitor.constructor | parking_brake_monitor.py:34-44 | a new monitor keeps its pin and polarity, reads released, is not running and has no callback |
| ParkingBrake.ParkingBrakeMonitor.SetCallback | parking_brake_monitor.py:78-83 | the monitor gets a callback and nothing else changes |
| ParkingBrake.ParkingBrakeMonitor.Start | parking_brake_monitor.py:85-93 | a thread is launched iff the monitor was not running, and afterwards it is running |
| ParkingBrake.ParkingBrakeMonitor.Stop | parking_brake_monitor.py:95-100 | the monitor stops running and nothing else changes |
| ParkingBrake.ParkingBrakeMonitor.Cleanup | parking_brake_monitor.py:129-136 | cleanup stops the monitor and nothing else changes |
| ParkingBrake.ParkingBrakeMonitor.MonitorLoop | parking_brake_monitor.py:102-127 | the final state is the debounced state of the reads from the initial read on, and the callback sees the initial state followed by every confirmed change, in order, or nothing without a callback |
| ParkingBrake.Registry.constructor | parking_brake_monitor.py:139-140 | there is no monitor at first |
| ParkingBrake.Registry.StartMonitoring | parking_brake_monitor.py:151-177 | an existing monitor is stopped first; the new monitor is fresh, active-high, on the given pin, has a callback iff a dashboard is given, and is running |
| ParkingBrake.Registry.StopMonitoring | parking_brake_monitor.py:180-185 | an existing monitor is stopped and the registry holds none |
| Wifi.SignalOf | wifi_manager.py:212 | an all-digit field is read as its decimal value; any other field, the empty one included, gives 0 |
| Wifi.SignalOfDec | wifi_manager.py:190-212 | a strength nmcli writes in decimal is read back as itself |
| Wifi.Entry | wifi_manager.py:199-215 | a kept line yields a network with a non-empty, ':'-free SSID and security, flagged secured iff the security names WPA or WEP |
| Wifi.EntryOfScanLine | wifi_manager.py:190-215 | a line `ssid:signal:security` written for a named network is read back as exactly that network |
| Wifi.SsidsAppend | wifi_manager.py:197-209 | appending a network adds its SSID to the set of those seen |
| Wifi.CollectDistinct | wifi_manager.py:197-209 | no SSID is kept twice |
| Wifi.CollectFromLines | wifi_manager.py:199-215 | every network kept is the entry of some scan line |
| Wifi.CollectCovers | wifi_manager.py:207-215 | the SSID of every usable scan line is among those kept |
| Wifi.CollectSound | wifi_manager.py:196-215 | the three above together: distinct SSIDs, nothing invented, nothing usable lost |
| Wifi.CollectKeepsFirst | wifi_manager.py:207-215 | the network kept for an SSID is the one from the first line that names it |
| Wifi.WithSignalAppend | wifi_manager.py:218 | the networks of one strength in a concatenation are those of each part, in order |
| Wifi.WithSignalWeaker | wifi_manager.py:218 | a list whose networks are all weaker than v has none of strength v |
| Wifi.Position | wifi_manager.py:218 | the insertion point lies after every leading network at least as strong and before the first weaker one |
| Wifi.InsertAtPosition | wifi_manager.py:218 | inserting by strength puts the network exactly at its insertion point |
| Wifi.WeakerAfterPosition | wifi_manager.py:218 | in a sorted list, everything after the insertion point is weaker |
| Wifi.SortedInsertAt | wifi_manager.py:218 | placing a network between the stronger-or-equal and the weaker ones keeps the list sorted |
| Wifi.InsertKeepsSorted | wifi_manager.py:218 | inserting by strength into a sorted list keeps it sorted |
| Wifi.NoTiesAfterPosition | wifi_manager.py:218 | in a sorted list nothing after the insertion point for v has strength v |
| Wifi.WithSignalSingle | wifi_manager.py:218 | a one-network list has that network at its own strength and none at any other |
| Wifi.InsertTiesAt | wifi_manager.py:218 | inserting at a point with no equal-strength networks after it adds the network after those of its strength |
| Wifi.InsertKeepsTies | wifi_manager.py:218 | inserting by strength puts the new network after every earlier one of equal strength |
| Wifi.InsertBySignalProperties | wifi_manager.py:218 | insertion keeps the list sorted, adds exactly the new network, and keeps ties in arrival order |
| Wifi.SortBySignalCorrect | wifi_manager.py:217-218 | the sort puts the strongest first, is a permutation, and keeps networks of equal strength in scan order |
| Wifi.KeepFirstSeen | wifi_manager.py:196-215 | the loop over the scan lines yields exactly `Collect` of them |
| Wifi.Scan | wifi_manager.py:175-223 | a failed nmcli run gives the empty list; otherwise the lines of the stripped output are collected and sorted by strength |
| Wifi.Bars | wifi_manager.py:617 | one bar character for every full 25 %, at most four, taken from the start of "▂▄▆█" |
| Wifi.BarsMonotone | wifi_manager.py:617 | a stronger signal shows at least the bars of a weaker one, and 100 % or more shows all four |
| Wifi.ListItems | wifi_manager.py:605-622 | no networks show the single "none found" row; otherwise there is one row per network with its icon, SSID, bars and strength |
| Wifi.Labels | wifi_manager.py:88-151 | one label per key: its Caps character when Caps is on, its normal one otherwise |
| Wifi.VirtualKeyboard.constructor | wifi_manager.py:25-30 | the key layout, Caps off, every key showing its normal character, and the Caps button's first text (also wifi_manager.py:73-98, 107) |
| Wifi.VirtualKeyboard.OnKeyClick | wifi_manager.py:132-137 | a key sends its Caps character exactly when Caps is on |
| Wifi.VirtualKeyboard.ToggleCaps | wifi_manager.py:139-168 | Caps flips, every key is relabelled for the new state, and the Caps button shows the matching text |
| Wifi.Edit | wifi_manager.py:369-378 | Back drops the last character (nothing on empty text), Clear empties the text, any other key is appended |
| Wifi.TypingAppends | wifi_manager.py:369-378 | keys other than Back and Clear append exactly what they say, in order |
| Wifi.BackspacesTrim | wifi_manager.py:373-374 | n presses of Back drop the last n characters and stop at the empty text |
| Wifi.BackspaceUndoes | wifi_manager.py:373-378 | a character key followed by Back leaves the text as it was |
| Wifi.PasswordDialog.constructor | wifi_manager.py:229-233 | the dialog's SSID, an empty field and password, not remembered, not accepted |
| Wifi.PasswordDialog.OnVirtualKey | wifi_manager.py:369-378 | the field becomes `Edit` of its old text; nothing else changes |
| Wifi.PasswordDialog.AcceptPassword | wifi_manager.py:387-394 | the password is the field and remember the checkbox; the dialog is accepted iff the password is not empty, and warns otherwise |
| Wifi.PasswordConnect | wifi_manager.py:698-730 | the plain connect's result is kept unless it failed over key-mgmt; then the `con add` result if that failed and the `con up` result if it did not |
| Wifi.ErrorMessage | wifi_manager.py:746 | stderr if not empty, else stdout if not empty, else the default failure text; never empty |
| Wifi.ClassifyIgnoresCase | wifi_manager.py:751-757 | upper-casing the message does not change which failure it is classified as |
| Wifi.PasswordWins | wifi_manager.py:752-753 | a message naming PSK is a wrong password whatever else it says |
| Wifi.RawKept | wifi_manager.py:751-757 | a message with none of the keywords is shown unchanged |
| Wifi.JudgeConnect | wifi_manager.py:738-757 | connected iff the return code is 0, to the SSID asked for; otherwise the friendly text of the error message |
| Wifi.ActiveSsid | wifi_manager.py:795-797 | an SSID is reported only from a line starting with "yes:" or "是:", and it is not empty |
| Wifi.ActiveSsidOf | wifi_manager.py:795-797 | an active line is read back as the SSID after the first ':', even one that holds ':' |
| Wifi.FirstActive | wifi_manager.py:793-806 | nothing is found iff no line reports an active SSID |
| Wifi.FirstActiveIsFirst | wifi_manager.py:793-801 | what is found is the SSID of an active line with no active line before it |
| Wifi.WifiManager.constructor | wifi_manager.py:402-407 | the test-mode flag as given, no current network, nothing emitted |
| Wifi.WifiManager.UpdateConnectionStatus | wifi_manager.py:771-806 | in test mode the current network is unchanged; otherwise it is the first active SSID in the output, or none |
| Wifi.WifiManager.DoConnect | wifi_manager.py:665-759 | the outcome is `JudgeConnect` of the result (a success in test mode); a success records the SSID and emits the connection change, a failure changes nothing |
| MaxValues.Max | max_value_logger.py:56-66 | the kept value is at least both the old maximum and the reading, and is one of them |
| MaxValues.RunningMaxIsMaximum | max_value_logger.py:50-66 | after a run of readings the maximum is at least the start and every reading, and is the start or one of the readings |
| MaxValues.RunningMaxGrows | max_value_logger.py:50-66 | more readings never lower the maximum |
| MaxValues.Digits2 | max_value_logger.py:79 | a two-digit strftime field is two characters |
| MaxValues.Digits4 | max_value_logger.py:79 | the four-digit year field is four characters |
| MaxValues.Stamp | max_value_logger.py:79 | the "%Y%m%d_%H%M%S" stamp is 15 characters |
| MaxValues.LessIrreflexive | max_value_logger.py:115 | Python's string order never puts a name before itself |
| MaxValues.LessTransitive | max_value_logger.py:115 | Python's string order is transitive |
| MaxValues.LessTotal | max_value_logger.py:115 | any two different names are ordered one way or the other |
| MaxValues.LessAsymmetric | max_value_logger.py:115 | no two names come before each other |
| MaxValues.LessConcat | max_value_logger.py:79-115 | for heads of equal width, the order of concatenations is decided by the heads first, then the tails |
| MaxValues.Digits2Order | max_value_logger.py:79 | two-digit fields compare and are equal exactly as their numbers |
| MaxValues.Digits4Order | max_value_logger.py:79 | four-digit fields compare and are equal exactly as their numbers |
| MaxValues.Field2 | max_value_logger.py:79 | a two-digit field followed by equal-width text compares by the number first, then the text |
| MaxValues.StampOrder | max_value_logger.py:79 | time stamps sort exactly as the times do, and different times give different stamps |
| MaxValues.FileNameOrder | max_value_logger.py:79-115 | log file names sort exactly as their times do, and one second gives one name |
| MaxValues.FileNameIsMaxLog | max_value_logger.py:80-115 | every name `save` writes matches the "max_*.txt" pattern that cleanup collects |
| MaxValues.MaxLogs | max_value_logger.py:115 | the collected names are exactly the directory's names matching "max_*.txt" |
| MaxValues.InsertPoint | max_value_logger.py:115 | the insertion point sits after every name not below the new one and before the first name below it |
| MaxValues.InsertDescendingAt | max_value_logger.py:115 | insertion puts the name at its insertion point, with the names before and after it unchanged |
| MaxValues.NotLessTransitive | max_value_logger.py:115 | "not before" is transitive |
| MaxValues.SmallerAfterPoint | max_value_logger.py:115 | in a descending list every name past the insertion point is below the new name |
| MaxValues.InsertAtPointOrdered | max_value_logger.py:115 | a name put at its insertion point into a descending list keeps it descending |
| MaxValues.InsertDescendingSorted | max_value_logger.py:115 | insertion keeps the list descending and adds exactly the one name |
| MaxValues.SortDescendingCorrect | max_value_logger.py:115 | `sorted(reverse=True)` gives a descending permutation of the names |
| MaxValues.Without | max_value_logger.py:118-119 | the directory after the deletions holds exactly its names that were not deleted |
| MaxValues.WithoutMore | max_value_logger.py:118-119 | deleting one more name after a batch is deleting the longer batch |
| MaxValues.WithoutNothing | max_value_logger.py:118 | deleting nothing leaves the directory as it was |
| MaxValues.Newest | max_value_logger.py:115-118 | at most five names are kept |
| MaxValues.CleanupKeepsNewest | max_value_logger.py:111-120 | after cleanup every log name left is among the five greatest, every name that is not a log is left alone, and no deleted name is greater than a kept log name; in a directory without repeated names all of the five greatest log names survive |
| MaxValues.NewestSurvive | max_value_logger.py:111-120 | in a directory without repeated names, every one of the five greatest log names is still there after the cleanup |
| MaxValues.MaxLogsDistinct | max_value_logger.py:115 | the log names collected from a directory without repeated names have no repeats |
| MaxValues.WithoutDistinct | max_value_logger.py:118-119 | deleting names keeps a directory without repeated names |
| MaxValues.MaxValueLogger.constructor | max_value_logger.py:29-43 | both maxima start at zero, with the start time and the existing directory |
| MaxValues.MaxValueLogger.UpdateRpm | max_value_logger.py:50-57 | the RPM maximum becomes the larger of itself and the reading; nothing else changes |
| MaxValues.MaxValueLogger.UpdateCoolant | max_value_logger.py:59-66 | the coolant maximum becomes the larger of itself and the reading; nothing else changes |
| MaxValues.MaxValueLogger.CleanupOldFiles | max_value_logger.py:111-120 | the loop of deletions leaves the directory without every log name past the fifth greatest and without repeated names if it had none; the maxima are unchanged |
| MaxValues.MaxValueLogger.Save | max_value_logger.py:68-109 | skipped when neither maximum is positive; otherwise the file for now is written, and only a successful write adds the name and runs the cleanup; a directory without repeated names keeps none; the maxima are unchanged |
| MaxValues.Singleton.constructor | max_value_logger.py:20 | no instance exists at first |
| MaxValues.Singleton.Get | max_value_logger.py:22-32 | the first call builds a fresh logger with both maxima at zero; later calls return the same logger with its maxima untouched (also max_value_logger.py:138-140) |
| StartupProgress.SetBarValue | startup_progress.py:151-199 | the range is kept; a value inside it is taken; a value outside it is ignored unless the range is 0..0 |
| StartupProgress.SetBarMaximum | startup_progress.py:150 | the maximum becomes the new one, the minimum never exceeds it, and a changed range leaves a value in [minimum - 1, maximum] |
| StartupProgress.SetStepsAsWritten | startup_progress.py:142-151 | `set_steps` as written: the steps are stored, the current step is 0, the bar's maximum becomes the step count (the minimum drops to it when larger), the bar goes to 0 when 0 is in range, and the texts and flags are unchanged |
| StartupProgress.Or | startup_progress.py:165-169 | a present, non-empty text is used; None or "" falls back |
| StartupProgress.Percent | startup_progress.py:172 | no steps give 0; otherwise the result is the floor of (index + 1) * 100 / count |
| StartupProgress.PercentBounds | startup_progress.py:172 | a step inside the list shows at most 100, and the last step exactly 100 |
| StartupProgress.PercentMonotone | startup_progress.py:172 | a later step never shows a smaller percentage |
| StartupProgress.Clamp | startup_progress.py:182 | the result lies in 0..100, equals the input inside that range, and is 0 below it and 100 above it |
| StartupProgress.SetSteps | startup_progress.py:142-151 | the corrected `set_steps`: the steps are stored, the current step is 0, the percentage range is kept and the bar goes to 0; the texts are unchanged |
| StartupProgress.StepTexts | startup_progress.py:161-169 | inside the list the given texts or the step's name and default detail; past it the given texts or "完成" and "" |
| StartupProgress.ShowStepBar | startup_progress.py:153-176 | on the percentage range, a step inside the list shows its percentage, the bar stays in range, and a percentage above 100 leaves the bar as it was |
| StartupProgress.UpdateAndCompleteBar | startup_progress.py:178-205 | on the percentage range `update_progress` shows the clamped value and `complete` shows 100 |
| StartupProgress.WalkShowsPercent | startup_progress.py:142-151 | after `set_steps` and `show_step(0)`, k steps on reach step k with the same steps and show its percentage (also startup_progress.py:193-195, 371-384) |
| StartupProgress.AsWrittenBarStuck | startup_progress.py:150-199 | with the range set to the step count (1 to 9 steps), every step's percentage and `complete`'s 100 are ignored and the bar stays at 0 |
| StartupProgress.StartupProgressWindow.constructor | startup_progress.py:47-66 | no steps, step 0, the initial status, an empty detail, the bar at 0 on 0..100, not closing (also startup_progress.py:68-140) |
| StartupProgress.StartupProgressWindow.SetStepsOf | startup_progress.py:142-151 | the new window state is `SetStepsAsWritten` of the old one: the class runs `set_steps` as written, range change included |
| StartupProgress.StartupProgressWindow.ShowStepAt | startup_progress.py:153-176 | the new window state is `ShowStep` of the old one: the step's texts and its percentage on the bar |
| StartupProgress.StartupProgressWindow.UpdateProgressTo | startup_progress.py:178-187 | the new window state has the message, the detail and the clamped progress |
| StartupProgress.StartupProgressWindow.Advance | startup_progress.py:193-195 | the new window state is that of showing the step after the current one |
| StartupProgress.StartupProgressWindow.CompleteNow | startup_progress.py:189-215 | the bar gets 100, the fixed completion texts are shown and the close timer is started |
| StartupProgress.StartupProgressWindow.OnCloseTimer | startup_progress.py:207-210 | the window is marked finished and nothing else changes |
| StartupProgress.Dispatch | startup_progress.py:247-258 | a close signal iff the message is an object whose cmd is "close"; an update only from an object whose cmd is "update" |
| StartupProgress.Serve | startup_progress.py:239-264 | the loop never makes more passes than it receives inputs |
| StartupProgress.ServeStep | startup_progress.py:239-264 | a first pass that brings no close adds nothing, or exactly one update, in front of what the rest of the loop emits |
| StartupProgress.UpdatesBeforeLast | startup_progress.py:250-258 | every signal but the last is an update |
| StartupProgress.CloseFromLastPass | startup_progress.py:256-258 | a close at the end came from the last pass the loop made |
| StartupProgress.StopsAtClose | startup_progress.py:239-258 | the loop stops before its input runs out only after a close |
| StartupProgress.CloseIsLast | startup_progress.py:239-264 | the three above together: only updates before a close, the close ends the loop, and an early stop means a close |
| StartupProgress.RequestsRoundTrip | startup_progress.py:247-258 | the server forwards exactly the message, detail and progress `run_update_command` sends, and closes on `run_close_command`'s message (also startup_progress.py:318-330) |
| StartupProgress.UpdateDefaults | startup_progress.py:250-255 | an update without its optional fields is forwarded with "", "" and 0 |
| StartupProgress.IpcServer.constructor | startup_progress.py:224-226 | a new server is running |
| StartupProgress.IpcServer.Stop | startup_progress.py:270-272 | the server is no longer running |
| StartupProgress.IpcServer.Run | startup_progress.py:228-268 | a running server emits what `Serve` gives; a stopped one emits nothing; it is still running afterwards iff it was and received no close |
| Dashboard.GaugeValue | main.py:38-40 | the stored gauge value is never below the minimum, never above the maximum of a well-formed range, equals the value inside the range and the nearer end outside it |
| Dashboard.GaugeValueIdempotentMonotone | main.py:38-40 | storing a stored value again changes nothing, and a larger input never shows lower |
| Dashboard.TickAt | main.py:78-92 | tick i is major iff i is a multiple of minor+1, is 12 long and 3 wide when major and 6 long and 1 wide otherwise, and is red iff a non-zero red zone is set and the tick's value reaches it |
| Dashboard.DrawTicks | main.py:71-99 | with no intervals the ratio divides by zero and nothing is drawn; otherwise total+1 ticks are drawn, tick i being TickAt(i) |
| Dashboard.MajorsCount | main.py:76-82 | among the indices 0 .. q·k + r with r < k exactly q + 1 are multiples of k |
| Dashboard.MajorTickCount | main.py:76-82 | a gauge with n major intervals draws n + 1 major ticks, one at each end of the arc |
| Dashboard.RedZoneIsSuffix | main.py:88-92 | on an increasing scale every tick after a red tick is red |
| Dashboard.AnalogGauge.constructor | main.py:22-36 | a gauge keeps its range and starts at its minimum |
| Dashboard.AnalogGauge.SetValue | main.py:38-40 | the gauge's value becomes the clamped input |
| Dashboard.SettersKeepRange | main.py:326-353 | each external setter keeps all readings in range and changes only its own reading; set_gear stores the upper-cased text |
| Dashboard.SettersExactInRange | main.py:326-348 | a setter given a value inside its range stores exactly that value |
| Dashboard.OnKey | main.py:355-396 | an unknown key or a digit outside 1..6 changes nothing; digits 1..6 select P, R, N, D, S, L; Q/E change only the temperature, A/D only the fuel, W/S only speed and engine speed |
| Dashboard.KeysKeepRange | main.py:359-382 | every key keeps the readings in range; W leaves the speed within 5..180 and the engine speed within 0.8..7; S never drops the engine speed below idle and idles at 0.8 below 5 km/h |
| Dashboard.SlowDownUndoesSpeedUp | main.py:360-370 | up to 175 km/h, S after W returns to the same speed, with the engine speed that speed implies and nothing else changed |
| Dashboard.KeysUndo | main.py:373-382 | away from the ends of the range E undoes Q, Q undoes E, D undoes A and A undoes D |
| Dashboard.GearColour | main.py:408-416 | a known gear gets its entry of the colour table, any other gear Park's blue |
| Dashboard.KeyGearColour | main.py:385-415 | the gear on each digit key 1..6 is in the colour table with that key's colour |
| Dashboard.GearKeysHaveColours | main.py:385-416 | every gear key's gear has a colour and no two gear keys share one; an unknown gear looks like P |
| Dashboard.IntText | main.py:405 | the speed label of a non-negative speed reads back as its whole part; a negative one with a non-zero whole part is a minus sign before the magnitude |
| Dashboard.ShownInRange | main.py:400-427 | on readings in range every needle shows its reading unclamped, the speed label reads back as the floor of the speed and the gear label is the gear |
| Dashboard.DashboardWindow.constructor | main.py:198-214 | the window starts with speed 0, engine speed 0, temperature 45, fuel 60 and gear P, and shows them (also main.py:317-324) |
| Dashboard.DashboardWindow.UpdateDisplay | main.py:400-427 | the gauges, labels and gear colour become what the current readings show, and the readings do not change |
| Dashboard.DashboardWindow.SetSpeed | main.py:326-329 | the readings become the speed setter's result and the display shows them |
| Dashboard.DashboardWindow.SetRpm | main.py:331-334 | the readings become the engine-speed setter's result and the display shows them |
| Dashboard.DashboardWindow.SetTemperature | main.py:336-343 | the readings become the temperature setter's result and the display shows them |
| Dashboard.DashboardWindow.SetFuel | main.py:345-348 | the readings become the fuel setter's result and the display shows them |
| Dashboard.DashboardWindow.SetGear | main.py:350-353 | the readings become the gear setter's result and the display shows them |
| Dashboard.DashboardWindow.KeyPressEvent | main.py:355-398 | the readings become OnKey of the old readings and the display shows them |
| SpotifyListener.SetCallback | spotify_listener.py:66-82 | a known event name gets the callback; an unknown name changes nothing |
| SpotifyListener.CallbackNamesFixed | spotify_listener.py:58-82 | the callback table always holds exactly the five names, and a name is registered afterwards iff it is one of them and the callback is set |
| SpotifyListener.JoinNames | spotify_listener.py:226 | no artists join to the empty string and one artist to its own name |
| SpotifyListener.ImageUrl | spotify_listener.py:240-244 | no image means no download; otherwise the second image when there are several, else the first |
| SpotifyListener.TrackChange | spotify_listener.py:219-254 | the track information without an image goes to on_track_change when it is set, and a download of the chosen image is started for this track's id exactly when the album has images |
| SpotifyListener.NoPlaybackClears | spotify_listener.py:171-180 | with no playback or no item the local copy stops playing and nothing is raised or downloaded; the last playback and track are cleared, and None reported, only when something had been seen before |
| SpotifyListener.AnswerSyncs | spotify_listener.py:182-204 | with an item the local progress, duration, play flag and sync time are taken from it; the track-change handler runs exactly when the id differs from the last one, which then becomes the last track; the state callback comes after it |
| SpotifyListener.SameAnswerTwice | spotify_listener.py:192-204 | the same answer twice: the second changes nothing, downloads nothing and announces no track change |
| SpotifyListener.Listen | spotify_listener.py:138-159 | a pass that does not raise resets the error count and back-off and sleeps one interval; one that raises adds an error, multiplies the back-off by 1.5 up to 30, sleeps interval × back-off and starts no download |
| SpotifyListener.Pow15 | spotify_listener.py:158 | 1.5 to a power is at least 1 |
| SpotifyListener.InitialValid | spotify_listener.py:42-64 | a new listener satisfies the invariants |
| SpotifyListener.ListenKeepsValid | spotify_listener.py:138-217 | every pass keeps the last track consistent with the last playback and the back-off at min(1.5^errors, 30), so the back-off stays in [1, 30] |
| SpotifyListener.TrailingFailures | spotify_listener.py:149 | the failures at the end of a run are at most the run's length |
| SpotifyListener.RunCountsErrors | spotify_listener.py:138-159 | the error count is the number of failures since the last poll that did not fail (added to the starting count when every poll failed), and the run keeps the invariants |
| SpotifyListener.FailuresReport | spotify_listener.py:149-217 | a run of failures reports only through on_error, and only for failures that find more than five errors before them: from zero, the first six are silent and every later one reports |
| SpotifyListener.DeliverArt | spotify_listener.py:259-306 | a downloaded image is cached, and delivered to on_album_art_loaded exactly when the download succeeded, its track is still the current one and the callback is set |
| SpotifyListener.StaleArtDropped | spotify_listener.py:271 | art for a track that a later answer has replaced is never delivered |
| SpotifyListener.FreshArtDelivered | spotify_listener.py:249-274 | a download launched by a poll delivers its art when nothing else has been polled meanwhile |
| SpotifyListener.Interpolate | spotify_listener.py:113-130 | a progress update is sent exactly while playing a track of known length with the callback set; it is the synced position plus the time since, but never beyond the track's end |
| SpotifyListener.InterpolationMonotone | spotify_listener.py:117-121 | between two polls the reported position never goes backwards |
| SpotifyListener.CurrentTrack | spotify_listener.py:313-333 | there is a current track exactly when the last playback has an item; it is that item with the cached image |
| SpotifyListener.CurrentTrackIsLast | spotify_listener.py:192-204 | on a consistent listener there is a current track exactly when a last track id is known, and it has that id (also spotify_listener.py:313-333) |
| SpotifyListener.Spotify.SetState | spotify_listener.py:42-55 | the object's fields become the given listener state; running is unchanged |
| SpotifyListener.Spotify.constructor | spotify_listener.py:24-64 | not running, with the initial listener state and the given interval |
| SpotifyListener.Spotify.SetCallbackOf | spotify_listener.py:66-82 | the object's new state is that of set_callback |
| SpotifyListener.Spotify.Start | spotify_listener.py:84-98 | threads are launched exactly when it was not running; afterwards it runs and nothing else changes |
| SpotifyListener.Spotify.Stop | spotify_listener.py:102-104 | afterwards it is not running and nothing else changes |
| SpotifyListener.Spotify.UpdatePlaybackState | spotify_listener.py:161-217 | the object's new state, the callbacks, the download and whether it raised are those of one update |
| SpotifyListener.Spotify.ListenLoop | spotify_listener.py:138-159 | while running, the loop's state, callbacks and downloads are those of the run over the polls, with one sleep per poll; when not running it does nothing |
| SpotifyListener.Spotify.ListenOnce | spotify_listener.py:140-159 | one pass leaves the state, callbacks, download and sleep of one listen step |
| SpotifyListener.Spotify.DownloadAlbumArtAsync | spotify_listener.py:259-277 | the new state and callbacks are those of delivering the art |
| SpotifyListener.Spotify.InterpolationLoop | spotify_listener.py:111-136 | while running, at each clock reading it sends the interpolated update when one is due, each within the track's length; when not running it sends nothing |
| SpotifyListener.Spotify.GetCurrentTrack | spotify_listener.py:313-333 | the result is the current track of the object's state |
| TurnSignalTest.Apply | test_turn_signal_simple.py:106-131 | each known state sets the flags and status text it names (left_off and right_off touch only their own side); an unknown state changes nothing |
| TurnSignalTest.ToggleCommand | test_turn_signal_simple.py:88-104 | left and right send their side's off when it is lit and its on otherwise; both sends off when both are lit and both_on otherwise; any other direction sends nothing |
| TurnSignalTest.ToggleFlips | test_turn_signal_simple.py:88-131 | a toggle flips its own side; switching a side on puts the other off, switching it off leaves the other alone; hazard turns both off when both are on and both on otherwise |
| TurnSignalTest.HazardTwice | test_turn_signal_simple.py:100-131 | pressing hazard twice from all off returns to all off |
| TurnSignalTest.ReceiverStatesShown | test_turn_signal_simple.py:106-131 | every state the CAN receiver sends lights exactly the sides whose bits say so, whatever was lit before (also datagrab.py:309-316) |
| TurnSignalTest.Replay | test_turn_signal_simple.py:196-205 | one set of flags per state replayed |
| TurnSignalTest.ReplayNext | test_turn_signal_simple.py:202-205 | replaying one more state appends the flags it leaves after the last ones |
| TurnSignalTest.AutoTestStart | test_turn_signal_simple.py:184-205 | the first three steps show all off, left, all off |
| TurnSignalTest.AutoTestSequence | test_turn_signal_simple.py:184-205 | the whole sequence shows off, left, off, right, off, hazard, off, whatever was lit at the start |
| TurnSignalTest.StatusIgnoresFlags | test_turn_signal_simple.py:110-131 | a known state always sets a status text, and the same one whatever the flags were |
| TurnSignalTest.AutoTestKnown | test_turn_signal_simple.py:184-192 | every state of the automatic sequence is one `set_turn_signal` knows |
| TurnSignalTest.SimpleDashboard.constructor | test_turn_signal_simple.py:22-83 | both flags off, the status "off", both indicators unlit |
| TurnSignalTest.SimpleDashboard.UpdateIndicators | test_turn_signal_simple.py:136-176 | each indicator is lit iff its flag is on; flags and status are unchanged |
| TurnSignalTest.SimpleDashboard.SetTurnSignal | test_turn_signal_simple.py:106-134 | the new flags and status are those `Apply` gives (an unknown state keeps the status), and the indicators follow the flags |
| TurnSignalTest.SimpleDashboard.ToggleSignal | test_turn_signal_simple.py:88-104 | the new flags are `Toggle` of the old ones; a known direction refreshes the indicators, any other changes nothing |
| TurnSignalTest.SimpleDashboard.AutoTestTick | test_turn_signal_simple.py:196-205 | one step appends the flags of the next state to those replayed so far and shows its status |
| TurnSignalTest.SimpleDashboard.RunAutoTest | test_turn_signal_simple.py:178-221 | the flags after each step are the replay of the sequence, and it ends with all off and the status "off" |
| Text.Find | spotify_listener.py:208 | a position is found iff the pattern occurs, and the pattern does occur there (also wifi_manager.py:705, 752-756) |
| Text.Split | wifi_manager.py:199-201 | at least one part, none holding the separator (also location_notifier.py:53) |
| Text.JoinSplit | wifi_manager.py:199-201 | joining the parts of a split with its separator gives the string back (also location_notifier.py:53) |
| Text.SplitJoinSuffix | location_notifier.py:53 | splitting separator-free parts joined by the separator gives the parts back |
| Text.SplitOnce | wifi_manager.py:796 | the text before and after the first separator, the first part free of it |
| Text.StripCrLf | location_notifier.py:49 | a line with printable text at both ends loses exactly its CR LF to `strip()` (also location_notifier.py:150) |
| Text.Lower | wifi_manager.py:705-756 | the same length, each ASCII letter lowered and every other character kept |
| Text.ParseHex | test_receiver.py:42-52 | a number exactly for a non-empty string of hex digits |
| Text.FormatHexRoundTrip | simple_simulator.py:83-85 | for 0 <= n < 16^w the zero-padded upper-case form has exactly w digits, no line break, and reads back as n (also test_receiver.py:42, 52) |
| Text.DecRoundTrip | wifi_manager.py:212 | the decimal form of a number reads back as that number |
| Text.AsciiRoundTrip | location_notifier.py:49 | decoding ASCII bytes while ignoring others gives back the string they encode (also location_notifier.py:150; test_receiver.py:132) |
| Text.Trunc | location_notifier.py:99-105 | truncation toward zero: the integer part below a positive number and above a negative one |
| Text.FloorMod100 | location_notifier.py:100-106 | the floored remainder lies in [0, 100) and differs from the input by a whole multiple of 100 |

## Left out

- Qt widgets, layouts, painting, styles, message boxes and event loops. Emitted signals are returned as events or kept as fields.
- Threads, locks, `QThread`, timers and sleeps. Each thread is a method over the events it sees, with the clock as an input; interleavings are not modelled.
- Hardware and operating-system I/O are inputs, not modelled:
  - the CAN bus, serial ports, pseudo-ttys and GPIO;
  - `nmcli`, `ip`, `/proc/cpuinfo`, the Unix socket;
  - HTTP (Telegram, Spotify, AssistNow image download), `os.sync`, `os.remove` and the poweroff subprocess.
- The DBC decoding (cantools with `luxgen_m7_2009.dbc`). The decoded FUEL, SPEED_FL, turn-signal and door values are inputs, because the DBC file is not part of this model.
- Python floats are modelled as exact reals, so results that depend on float rounding may differ by one unit in the last place.
- Python `float()` string parsing is modelled for sign, digits and one decimal point only. Exponents, `inf`, `nan`, underscores and surrounding whitespace are left out.
- `int(s, 16)` and `str.isdigit` are modelled for plain ASCII digits only. Signs, underscores, whitespace and non-ASCII digits are left out.
- `str.lower`, `str.upper` and `str.isspace` are modelled on ASCII only.
- Wi-Fi scan and status lines are split naively on ':'. nmcli's `\:` escaping of colons inside an SSID is ignored by the code and by the model.
- `PasswordDialog.constructor`: the password starts as `None` in the source and as the empty string in the model. The checkbox that feeds `remember` is an input of `AcceptPassword`. `toggle_password_visibility` only changes the echo mode and is not modelled.
- `Wifi.WifiManager.DoConnect`: the `TimeoutExpired` and other exception paths of `do_connect`, and the deletion of an existing connection profile, are not modelled. The nmcli results are inputs, chosen by `PasswordConnect`.
- `WiFiManagerWidget` `scan_networks`, `_load_test_networks`, `on_network_selected`, `connect_to_network` and the progress show/hide only wire widgets and timers together, so they are left out.
- `StartupProgress.Percent`: computed in exact arithmetic. The source's float expression can give one less when the float quotient rounds down (29 of 100 steps gives 28).
- `send_ipc_message`, `run_server_mode` and argument parsing are socket and process plumbing, so they are left out. Only the message `run_update_command` builds is modelled.
- The maximum-value file's text and its duration line are not modelled. `MaxValueLogger.get_stats` only formats text, so it is left out.
- An exception raised by `unlink` in the middle of the cleanup loop is not modelled.
- Shutdown monitor:
  - `stop_no_signal_monitoring` is modelled only as the absence of further check events;
  - the `get_shutdown_monitor` singleton is left out;
  - the speed-correction persist and `os.sync` in `_do_shutdown` are left out.
- `shutdown_monitor.py:466-471, 560-565` call `notify_current_location` with four arguments, while `location_notifier.py:207` takes none. Only the flags and emissions are modelled.
- The GPS probe's enumeration of candidate ports and baud rates, and its timeouts, are left out. `FindLocation` takes the lines the probes read; the time budget is modelled separately.
- The subprocess and import errors inside the hardware probes are not modelled. Each probe's outcome is an input.
- The printed reports of the hex parser, the RPM scanner and the simulators are not modelled. The functions return what is printed.
- The simulators' vehicle physics (random and trigonometric speed profiles), the sine speed profile of `gps_simulator.py`, its OBD injection and its argument parsing are left out.
- `format_lat_lon`'s text rounding is left out. The degrees/minutes split is modelled before the text is formatted.
- The serial simulator's temperature value is sent without masking, as in the source. A W-key speed above 180 drops to 180, as in the source.
- Spotify:
  - a malformed API dictionary (a `KeyError`) and exceptions raised by callbacks are not modelled;
  - the image download and PIL resize are left out, and the image is an input;
  - `on_error` fires from the seventh consecutive failure on, and `get_current_track` can return album art that is stale for the current track; both are modelled as written.
- The timer-driven automatic sequences (the turn-signal test, the start-up `--test` walk) are modelled as loops over their steps.
- MaxValues.Stamp: the clock reading must have a four-digit year; `strftime`'s unpadded years below 1000 are not modelled.
- Logging and `print` are left out.

## Findings

| source | as written | input that shows it | evidently intended | confidence | as-written member | corrected member |
|---|---|---|---|---|---|---|
| virtual_gps.py:55-60 | the ACCEL phase starts at 10 s but its progress is measured from 20 s | elapsed = 10 s gives speed (10 - 20) / 20 * 100 = -50 km/h, and the whole of [10, 20) is negative | a speed between 0 and 100 km/h: no negative speed while accelerating | not executed | Nmea.ScheduleAsWritten, Nmea.NegativeAccel | Nmea.Schedule, Nmea.ScheduleAgrees |
| startup_progress.py:142-151 | `set_steps` sets the bar's maximum to the number of steps, but `show_step` and `complete` write percentages up to 100 | the nine steps of the `--test` walk: a maximum of 9, and every percentage (11, 22, ... 100) lies above it, so Qt ignores it and the bar stays at 0 | the bar stays on its 0..100 percentage range | not executed | StartupProgress.SetStepsAsWritten, StartupProgress.AsWrittenBarStuck | StartupProgress.SetSteps, StartupProgress.WalkShowsPercent |
