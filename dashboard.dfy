// The dashboard window (main.py): three analog gauges (coolant temperature,
// engine speed and fuel) around a digital speed read-out and a gear letter.
// External data and the keyboard simulation both write the readings; every
// write is followed by `update_display`, which hands each reading to its
// gauge and rewrites the two labels.  Painting is left out except for the
// tick layout `draw_ticks` computes; the readings are Python numbers, here
// `real`.

module Dashboard {
  import opened Wrappers
  import Text

  // -------------------------------------------------------------- the gauge

  /** `max(min_val, min(max_val, val))` */
  function GaugeValue(lo: real, hi: real, v: real): (r: real)
    ensures r >= lo
    ensures lo <= hi ==> r <= hi
    ensures lo <= v <= hi ==> r == v
    ensures v < lo ==> r == lo
    ensures lo <= hi && v > hi ==> r == hi
  {
    var m := if hi < v then hi else v;
    if lo < m then m else lo
  }

  /** Storing a value twice stores it once, and a larger value never shows lower. */
  lemma GaugeValueIdempotentMonotone(lo: real, hi: real, v: real, w: real)
    requires lo <= hi
    ensures GaugeValue(lo, hi, GaugeValue(lo, hi, v)) == GaugeValue(lo, hi, v)
    ensures v <= w ==> GaugeValue(lo, hi, v) <= GaugeValue(lo, hi, w)
  {
  }

  /** `GaugeStyle`'s tick counts. */
  datatype GaugeStyle = GaugeStyle(majorTicks: nat, minorTicks: nat)

  /** One tick `draw_ticks` draws: major or minor, its length and pen width, and whether it is red. */
  datatype Tick = Tick(major: bool, length: nat, width: nat, red: bool)

  /** The number of intervals between ticks. */
  function TotalTicks(style: GaugeStyle): nat {
    style.majorTicks * (style.minorTicks + 1)
  }

  /** `red_zone_start` is truthy: given and not zero. */
  predicate RedZoneSet(redZone: Option<real>) {
    redZone.Some? && redZone.value != 0.0
  }

  /** The value tick `i` stands for. */
  function TickValue(style: GaugeStyle, minVal: real, maxVal: real, i: nat): real
    requires TotalTicks(style) > 0
  {
    minVal + (i as real / TotalTicks(style) as real) * (maxVal - minVal)
  }

  /** Tick `i` of `draw_ticks`. */
  function TickAt(style: GaugeStyle, minVal: real, maxVal: real, redZone: Option<real>, i: nat): (t: Tick)
    requires TotalTicks(style) > 0
    ensures t.major <==> i % (style.minorTicks + 1) == 0
    ensures t.length == (if t.major then 12 else 6) && t.width == (if t.major then 3 else 1)
    ensures t.red <==> RedZoneSet(redZone) && TickValue(style, minVal, maxVal, i) >= redZone.value
  {
    var major := i % (style.minorTicks + 1) == 0;
    Tick(major, if major then 12 else 6, if major then 3 else 1,
         RedZoneSet(redZone) && TickValue(style, minVal, maxVal, i) >= redZone.value)
  }

  /**
   * `draw_ticks` without the geometry: the ticks from the start of the arc to
   * its end.  With no major ticks the ratio divides by zero and painting
   * fails, which is `None` here.
   */
  method DrawTicks(style: GaugeStyle, minVal: real, maxVal: real, redZone: Option<real>)
    returns (ticks: Option<seq<Tick>>)
    ensures ticks.None? <==> TotalTicks(style) == 0
    ensures ticks.Some? ==> (|ticks.value| == TotalTicks(style) + 1 &&
      forall i | 0 <= i < |ticks.value| :: ticks.value[i] == TickAt(style, minVal, maxVal, redZone, i))
  {
    var total := style.majorTicks * (style.minorTicks + 1);
    if total == 0 {
      return None;
    }
    var drawn: seq<Tick> := [];
    for i := 0 to total + 1
      invariant |drawn| == i
      invariant forall j | 0 <= j < i :: drawn[j] == TickAt(style, minVal, maxVal, redZone, j)
    {
      var ratio := i as real / total as real;
      var isMajor := i % (style.minorTicks + 1) == 0;
      var currentVal := minVal + ratio * (maxVal - minVal);
      var red := redZone.Some? && redZone.value != 0.0 && currentVal >= redZone.value;
      var tick := Tick(isMajor, if isMajor then 12 else 6, if isMajor then 3 else 1, red);
      assert currentVal == TickValue(style, minVal, maxVal, i);
      assert tick == TickAt(style, minVal, maxVal, redZone, i);
      drawn := drawn + [tick];
    }
    ticks := Some(drawn);
  }

  /** The major ticks among `ticks`. */
  function Majors(ticks: seq<Tick>): nat
    decreases |ticks|
  {
    if |ticks| == 0 then 0 else Majors(ticks[..|ticks| - 1]) + (if ticks[|ticks| - 1].major then 1 else 0)
  }

  lemma MulLe(a: int, b: int, c: nat)
    requires a <= b
    ensures a * c <= b * c
  {
    assert b * c - a * c == (b - a) * c;
  }

  /** Euclidean division is unique. */
  lemma DivUnique(n: nat, k: nat, q: int, j: int)
    requires k > 0 && 0 <= j < k && n == q * k + j
    ensures n / k == q && n % k == j
  {
    var q', j' := n / k, n % k;
    assert n == q' * k + j';
    if q > q' {
      MulLe(q' + 1, q, k);
      assert false;
    }
    if q < q' {
      MulLe(q + 1, q', k);
      assert false;
    }
  }

  /** Among the indices 0 .. q*k + r, with r < k, exactly q + 1 are multiples of k. */
  lemma {:induction false} MajorsCount(ticks: seq<Tick>, k: nat, q: nat, r: nat)
    requires k > 0 && r < k && |ticks| == q * k + r + 1
    requires forall i | 0 <= i < |ticks| :: ticks[i].major <==> i % k == 0
    ensures Majors(ticks) == q + 1
    decreases |ticks|
  {
    var n := |ticks|;
    var init := ticks[..n - 1];
    if n == 1 {
      assert init == [];
      assert ticks[0].major;
    } else if r > 0 {
      MajorsCount(init, k, q, r - 1);
      DivUnique(n - 1, k, q, r);
    } else {
      assert q >= 1;
      assert (q - 1) * k == q * k - k;
      MajorsCount(init, k, q - 1, k - 1);
      DivUnique(n - 1, k, q, 0);
    }
  }

  /** A gauge with `major` major ticks draws `major + 1` of them: one at each end of the arc. */
  lemma MajorTickCount(style: GaugeStyle, ticks: seq<Tick>)
    requires |ticks| == TotalTicks(style) + 1
    requires forall i | 0 <= i < |ticks| :: ticks[i].major <==> i % (style.minorTicks + 1) == 0
    ensures Majors(ticks) == style.majorTicks + 1
  {
    MajorsCount(ticks, style.minorTicks + 1, style.majorTicks, 0);
  }

  /** On an increasing scale the red ticks are the end of the arc: every tick after a red one is red. */
  lemma RedZoneIsSuffix(style: GaugeStyle, minVal: real, maxVal: real, redZone: Option<real>, i: nat, j: nat)
    requires TotalTicks(style) > 0 && minVal <= maxVal && i <= j
    requires TickAt(style, minVal, maxVal, redZone, i).red
    ensures TickAt(style, minVal, maxVal, redZone, j).red
  {
    var t := TotalTicks(style) as real;
    var d := maxVal - minVal;
    assert i as real / t <= j as real / t;
    assert (j as real / t - i as real / t) * d >= 0.0;
    assert TickValue(style, minVal, maxVal, i) <= TickValue(style, minVal, maxVal, j);
  }

  class AnalogGauge {
    const minVal: real
    const maxVal: real
    var value: real

    /** A gauge starts at its minimum. */
    constructor(minVal: real, maxVal: real)
      ensures this.minVal == minVal && this.maxVal == maxVal && value == minVal
    {
      this.minVal := minVal;
      this.maxVal := maxVal;
      value := minVal;
    }

    /** `set_value` */
    method SetValue(v: real)
      modifies this
      ensures value == GaugeValue(minVal, maxVal, v)
    {
      value := if minVal < (if maxVal < v then maxVal else v) then (if maxVal < v then maxVal else v) else minVal;
    }
  }

  // ----------------------------------------------------------- the readings

  datatype Readings = Readings(speed: real, rpm: real, temp: real, fuel: real, gear: string)

  /** `init_data` */
  const INITIAL: Readings := Readings(0.0, 0.0, 45.0, 60.0, "P")

  /** Each reading inside its gauge's range: speed 0..200, rpm 0..8 (thousands), temperature and fuel 0..100. */
  predicate InRange(r: Readings) {
    0.0 <= r.speed <= 200.0 && 0.0 <= r.rpm <= 8.0 && 0.0 <= r.temp <= 100.0 && 0.0 <= r.fuel <= 100.0
  }

  /** The external setters `set_speed`, `set_rpm`, `set_temperature` and `set_fuel` clamp to those ranges; `set_gear` upper-cases. */
  function WithSpeed(r: Readings, v: real): Readings { r.(speed := GaugeValue(0.0, 200.0, v)) }
  function WithRpm(r: Readings, v: real): Readings { r.(rpm := GaugeValue(0.0, 8.0, v)) }
  function WithTemperature(r: Readings, v: real): Readings { r.(temp := GaugeValue(0.0, 100.0, v)) }
  function WithFuel(r: Readings, v: real): Readings { r.(fuel := GaugeValue(0.0, 100.0, v)) }
  function WithGear(r: Readings, g: string): Readings { r.(gear := Text.Upper(g)) }

  /** Every setter leaves the readings in range and changes only its own reading. */
  lemma SettersKeepRange(r: Readings, v: real, g: string)
    requires InRange(r)
    ensures InRange(WithSpeed(r, v)) && InRange(WithRpm(r, v)) && InRange(WithTemperature(r, v)) &&
      InRange(WithFuel(r, v)) && InRange(WithGear(r, g))
    ensures WithSpeed(r, v).(speed := r.speed) == r && WithRpm(r, v).(rpm := r.rpm) == r
    ensures WithTemperature(r, v).(temp := r.temp) == r && WithFuel(r, v).(fuel := r.fuel) == r
    ensures WithGear(r, g).gear == Text.Upper(g) && WithGear(r, g).(gear := r.gear) == r
  {
  }

  /** A setter given a value inside its range stores exactly that value. */
  lemma SettersExactInRange(r: Readings, v: real)
    ensures 0.0 <= v <= 200.0 ==> WithSpeed(r, v).speed == v
    ensures 0.0 <= v <= 8.0 ==> WithRpm(r, v).rpm == v
    ensures 0.0 <= v <= 100.0 ==> WithTemperature(r, v).temp == v && WithFuel(r, v).fuel == v
  {
  }

  /** The keys `keyPressEvent` looks at; `Digit(n)` is the key for the digit n. */
  datatype Key = W | S | Q | E | A | D | Digit(n: int) | Other(code: int)

  /** The gears on keys 1 to 6. */
  const GEAR_KEYS: string := "PRNDSL"

  /** The engine speed the simulation shows for a road speed: 0.8 idle plus 5 per 180 km/h. */
  function RpmFor(speed: real): real {
    0.8 + (speed / 180.0) * 5.0
  }

  /** `keyPressEvent` */
  function OnKey(r: Readings, key: Key): (n: Readings)
    ensures key.Other? || (key.Digit? && !(1 <= key.n <= 6)) ==> n == r
    ensures key.Digit? && 1 <= key.n <= 6 ==> n == r.(gear := [GEAR_KEYS[key.n - 1]])
    ensures key.Q? || key.E? ==> n == r.(temp := n.temp)
    ensures key.A? || key.D? ==> n == r.(fuel := n.fuel)
    ensures key.W? || key.S? ==> n == r.(speed := n.speed, rpm := n.rpm)
  {
    match key
      case W =>
        var speed := if 180.0 < r.speed + 5.0 then 180.0 else r.speed + 5.0;
        r.(speed := speed, rpm := if 7.0 < RpmFor(speed) then 7.0 else RpmFor(speed))
      case S =>
        var speed := if 0.0 < r.speed - 5.0 then r.speed - 5.0 else 0.0;
        r.(speed := speed, rpm := if speed < 5.0 then 0.8 else if 0.8 < RpmFor(speed) then RpmFor(speed) else 0.8)
      case Q => r.(temp := if 0.0 < r.temp - 3.0 then r.temp - 3.0 else 0.0)
      case E => r.(temp := if 100.0 < r.temp + 3.0 then 100.0 else r.temp + 3.0)
      case A => r.(fuel := if 0.0 < r.fuel - 5.0 then r.fuel - 5.0 else 0.0)
      case D => r.(fuel := if 100.0 < r.fuel + 5.0 then 100.0 else r.fuel + 5.0)
      case Digit(d) => if 1 <= d <= 6 then r.(gear := [GEAR_KEYS[d - 1]]) else r
      case Other(_) => r
  }

  /**
   * The keyboard keeps every reading in range: W tops out at 180 km/h and an
   * engine speed of 7; S bottoms out at 0 km/h and idles at 0.8 below 5 km/h;
   * temperature and fuel stay within 0..100.
   */
  lemma KeysKeepRange(r: Readings, key: Key)
    requires InRange(r)
    ensures InRange(OnKey(r, key))
    ensures key.W? ==> 5.0 <= OnKey(r, key).speed <= 180.0 && 0.8 <= OnKey(r, key).rpm <= 7.0
    ensures key.S? ==> 0.8 <= OnKey(r, key).rpm && (OnKey(r, key).speed < 5.0 ==> OnKey(r, key).rpm == 0.8)
  {
    if key.S? {
      var speed := OnKey(r, key).speed;
      assert speed <= 195.0;
      assert RpmFor(speed) <= 0.8 + (195.0 / 180.0) * 5.0;
    }
  }

  /** S undoes W below 175 km/h, and the engine speed follows the road speed it returns to. */
  lemma SlowDownUndoesSpeedUp(r: Readings)
    requires 0.0 <= r.speed <= 175.0
    ensures var back := OnKey(OnKey(r, W), S);
      back.speed == r.speed &&
      back.rpm == (if r.speed < 5.0 then 0.8 else RpmFor(r.speed)) &&
      back.(speed := r.speed, rpm := r.rpm) == r
  {
    assert RpmFor(r.speed) >= 0.8;
  }

  /** On readings in range, E undoes Q and Q undoes E away from the ends of the range; D and A likewise for fuel. */
  lemma KeysUndo(r: Readings)
    requires InRange(r)
    ensures 3.0 <= r.temp ==> OnKey(OnKey(r, Q), E) == r
    ensures r.temp <= 97.0 ==> OnKey(OnKey(r, E), Q) == r
    ensures 5.0 <= r.fuel ==> OnKey(OnKey(r, A), D) == r
    ensures r.fuel <= 95.0 ==> OnKey(OnKey(r, D), A) == r
  {
  }

  /** The gear colours `update_display` uses. */
  const GEAR_COLOURS: map<string, string> :=
    map["P" := "#6af", "R" := "#f66", "N" := "#fa6", "D" := "#6f6", "S" := "#f6f", "L" := "#ff6"]

  /** `gear_colors.get(self.gear, "#6af")` */
  function GearColour(gear: string): (c: string)
    ensures gear in GEAR_COLOURS ==> c == GEAR_COLOURS[gear]
    ensures gear !in GEAR_COLOURS ==> c == "#6af"
  {
    if gear in GEAR_COLOURS then GEAR_COLOURS[gear] else "#6af"
  }

  /** The colours of the gears on keys 1 to 6, in key order. */
  const KEY_COLOURS: seq<string> := ["#6af", "#f66", "#fa6", "#6f6", "#f6f", "#ff6"]

  lemma KeyGearColour(d: int)
    requires 1 <= d <= 6
    ensures [GEAR_KEYS[d - 1]] in GEAR_COLOURS && GEAR_COLOURS[[GEAR_KEYS[d - 1]]] == KEY_COLOURS[d - 1]
  {
    if d == 1 {
      assert [GEAR_KEYS[0]] == "P";
    } else if d == 2 {
      assert [GEAR_KEYS[1]] == "R";
    } else if d == 3 {
      assert [GEAR_KEYS[2]] == "N";
    } else if d == 4 {
      assert [GEAR_KEYS[3]] == "D";
    } else if d == 5 {
      assert [GEAR_KEYS[4]] == "S";
    } else {
      assert [GEAR_KEYS[5]] == "L";
    }
  }

  /** Every gear key gives a gear with its own colour; a gear the table does not know shows Park's blue. */
  lemma GearKeysHaveColours(r: Readings, d: int, e: int, gear: string)
    requires 1 <= d <= 6 && 1 <= e <= 6 && d != e
    ensures OnKey(r, Digit(d)).gear in GEAR_COLOURS
    ensures GearColour(OnKey(r, Digit(d)).gear) != GearColour(OnKey(r, Digit(e)).gear)
    ensures gear !in GEAR_COLOURS ==> GearColour(gear) == GearColour("P")
  {
    KeyGearColour(d);
    KeyGearColour(e);
    assert KEY_COLOURS[d - 1] != KEY_COLOURS[e - 1] by {
      assert forall a, b | 0 <= a < b < 6 :: KEY_COLOURS[a][1..] != KEY_COLOURS[b][1..];
    }
  }

  /** `str(int(x))` */
  function IntText(x: real): (s: string)
    ensures x >= 0.0 ==> Text.ParseDec(s) == Some(Text.Trunc(x))
    ensures x < 0.0 && Text.Trunc(x) != 0 ==> |s| > 0 && s[0] == '-' && Text.ParseDec(s[1..]) == Some(-Text.Trunc(x))
  {
    var n := Text.Trunc(x);
    Text.DecRoundTrip(if n >= 0 then n else -n);
    if n >= 0 then Text.DecOf(n) else "-" + Text.DecOf(-n)
  }

  /** What the window shows: the three gauges, the speed label and the gear label with its colour. */
  datatype Display = Display(rpmNeedle: real, tempNeedle: real, fuelNeedle: real, speedText: string, gearText: string, gearColour: string)

  /** `update_display` for some readings. */
  function Shown(r: Readings): Display {
    Display(GaugeValue(0.0, 8.0, r.rpm), GaugeValue(0.0, 100.0, r.temp), GaugeValue(0.0, 100.0, r.fuel),
            IntText(r.speed), r.gear, GearColour(r.gear))
  }

  /** On readings in range each needle shows its reading unclamped and the speed label reads back as the whole km/h. */
  lemma ShownInRange(r: Readings)
    requires InRange(r)
    ensures var d := Shown(r);
      d.rpmNeedle == r.rpm && d.tempNeedle == r.temp && d.fuelNeedle == r.fuel &&
      Text.ParseDec(d.speedText) == Some(r.speed.Floor) && d.gearText == r.gear
  {
  }

  class DashboardWindow {
    var speed: real
    var rpm: real
    var temp: real
    var fuel: real
    var gear: string
    const rpmGauge: AnalogGauge
    const tempGauge: AnalogGauge
    const fuelGauge: AnalogGauge
    var speedText: string
    var gearText: string
    var gearColour: string

    function ReadingsOf(): Readings
      reads this
    {
      Readings(speed, rpm, temp, fuel, gear)
    }

    function DisplayOf(): Display
      reads this, rpmGauge, tempGauge, fuelGauge
    {
      Display(rpmGauge.value, tempGauge.value, fuelGauge.value, speedText, gearText, gearColour)
    }

    /** Three separate gauges with the ranges `init_ui` gives them. */
    predicate Valid()
      reads this
    {
      rpmGauge != tempGauge && rpmGauge != fuelGauge && tempGauge != fuelGauge &&
      rpmGauge.minVal == 0.0 && rpmGauge.maxVal == 8.0 &&
      tempGauge.minVal == 0.0 && tempGauge.maxVal == 100.0 &&
      fuelGauge.minVal == 0.0 && fuelGauge.maxVal == 100.0
    }

    /** `__init__`: `init_ui`, then `init_data`. */
    constructor()
      ensures Valid() && ReadingsOf() == INITIAL && DisplayOf() == Shown(INITIAL)
      ensures fresh(rpmGauge) && fresh(tempGauge) && fresh(fuelGauge)
    {
      tempGauge := new AnalogGauge(0.0, 100.0);
      rpmGauge := new AnalogGauge(0.0, 8.0);
      fuelGauge := new AnalogGauge(0.0, 100.0);
      speed, rpm, temp, fuel, gear := 0.0, 0.0, 45.0, 60.0, "P";
      speedText, gearText, gearColour := "", "", "";
      new;
      UpdateDisplay();
    }

    /** `update_display` */
    method UpdateDisplay()
      requires Valid()
      modifies this, rpmGauge, tempGauge, fuelGauge
      ensures Valid() && ReadingsOf() == old(ReadingsOf()) && DisplayOf() == Shown(ReadingsOf())
    {
      rpmGauge.SetValue(rpm);
      tempGauge.SetValue(temp);
      fuelGauge.SetValue(fuel);
      speedText := IntText(speed);
      gearColour := GearColour(gear);
      gearText := gear;
    }

    method SetSpeed(v: real)
      requires Valid()
      modifies this, rpmGauge, tempGauge, fuelGauge
      ensures Valid() && ReadingsOf() == WithSpeed(old(ReadingsOf()), v) && DisplayOf() == Shown(ReadingsOf())
    {
      speed := if 0.0 < (if 200.0 < v then 200.0 else v) then (if 200.0 < v then 200.0 else v) else 0.0;
      UpdateDisplay();
    }

    method SetRpm(v: real)
      requires Valid()
      modifies this, rpmGauge, tempGauge, fuelGauge
      ensures Valid() && ReadingsOf() == WithRpm(old(ReadingsOf()), v) && DisplayOf() == Shown(ReadingsOf())
    {
      rpm := if 0.0 < (if 8.0 < v then 8.0 else v) then (if 8.0 < v then 8.0 else v) else 0.0;
      UpdateDisplay();
    }

    method SetTemperature(v: real)
      requires Valid()
      modifies this, rpmGauge, tempGauge, fuelGauge
      ensures Valid() && ReadingsOf() == WithTemperature(old(ReadingsOf()), v) && DisplayOf() == Shown(ReadingsOf())
    {
      temp := if 0.0 < (if 100.0 < v then 100.0 else v) then (if 100.0 < v then 100.0 else v) else 0.0;
      UpdateDisplay();
    }

    method SetFuel(v: real)
      requires Valid()
      modifies this, rpmGauge, tempGauge, fuelGauge
      ensures Valid() && ReadingsOf() == WithFuel(old(ReadingsOf()), v) && DisplayOf() == Shown(ReadingsOf())
    {
      fuel := if 0.0 < (if 100.0 < v then 100.0 else v) then (if 100.0 < v then 100.0 else v) else 0.0;
      UpdateDisplay();
    }

    method SetGear(g: string)
      requires Valid()
      modifies this, rpmGauge, tempGauge, fuelGauge
      ensures Valid() && ReadingsOf() == WithGear(old(ReadingsOf()), g) && DisplayOf() == Shown(ReadingsOf())
    {
      gear := Text.Upper(g);
      UpdateDisplay();
    }

    /** `keyPressEvent` */
    method KeyPressEvent(key: Key)
      requires Valid()
      modifies this, rpmGauge, tempGauge, fuelGauge
      ensures Valid() && ReadingsOf() == OnKey(old(ReadingsOf()), key) && DisplayOf() == Shown(ReadingsOf())
    {
      match key {
        case W =>
          speed := if 180.0 < speed + 5.0 then 180.0 else speed + 5.0;
          rpm := if 7.0 < 0.8 + (speed / 180.0) * 5.0 then 7.0 else 0.8 + (speed / 180.0) * 5.0;
        case S =>
          speed := if 0.0 < speed - 5.0 then speed - 5.0 else 0.0;
          if speed < 5.0 {
            rpm := 0.8;
          } else {
            rpm := if 0.8 < 0.8 + (speed / 180.0) * 5.0 then 0.8 + (speed / 180.0) * 5.0 else 0.8;
          }
        case Q => temp := if 0.0 < temp - 3.0 then temp - 3.0 else 0.0;
        case E => temp := if 100.0 < temp + 3.0 then 100.0 else temp + 3.0;
        case A => fuel := if 0.0 < fuel - 5.0 then fuel - 5.0 else 0.0;
        case D => fuel := if 100.0 < fuel + 5.0 then 100.0 else fuel + 5.0;
        case Digit(d) =>
          if d == 1 {
            gear := "P";
          } else if d == 2 {
            gear := "R";
          } else if d == 3 {
            gear := "N";
          } else if d == 4 {
            gear := "D";
          } else if d == 5 {
            gear := "S";
          } else if d == 6 {
            gear := "L";
          }
        case Other(_) =>
      }
      UpdateDisplay();
    }
  }
}
