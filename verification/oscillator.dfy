/** The oscillator formulas of the waveform engine (src/Wave.ts,
    `getWaveFunction`): a wave type name selects one of four periodic
    functions of time, scaled by an amplitude.

    `Math.sin(2 * Math.PI * x)` is left uninterpreted: every evaluation takes
    it as a parameter `sine` of type `TurnSine`, a function of the phase `x`
    counted in turns. Everything proved here holds for every such function.
 */
module Oscillator {
  import opened Common

  /** x |-> Math.sin(2 * Math.PI * x). */
  type TurnSine = real -> real

  datatype WaveKind = Sine | Square | Triangle | Sawtooth

  /** The string values of the `WAVE_TYPE` enumeration. */
  function KindName(k: WaveKind): string {
    match k
    case Sine => "sine"
    case Square => "square"
    case Triangle => "triangle"
    case Sawtooth => "sawtooth"
  }

  const KindNames: set<string> := {"sine", "square", "triangle", "sawtooth"}

  function KindOf(name: string): (r: Option<WaveKind>)
    ensures r.Some? <==> name in KindNames
    ensures r.Some? ==> KindName(r.value) == name
  {
    if name == "sine" then Some(Sine)
    else if name == "square" then Some(Square)
    else if name == "triangle" then Some(Triangle)
    else if name == "sawtooth" then Some(Sawtooth)
    else None
  }

  lemma {:induction false} KindNameRoundTrip(k: WaveKind)
    ensures KindOf(KindName(k)) == Some(k)
  {
  }

  /** A frequency as the engine receives it: a number of hertz, or
      `undefined` when a note table row has no entry for the octave. In
      arithmetic `undefined` behaves as NaN. */
  datatype Freq = Hz(hz: real) | Undefined

  /** One entry of the sample buffer: a number or NaN. */
  datatype Sample = Num(v: real) | NaN

  /** JavaScript `+` on samples: NaN absorbs everything. */
  function Plus(a: Sample, b: Sample): Sample {
    if a.Num? && b.Num? then Num(a.v + b.v) else NaN
  }

  function Abs(x: real): real {
    if x < 0.0 then -x else x
  }

  /** `Math.trunc`. */
  function Trunc(x: real): int {
    if x >= 0.0 then x.Floor else -((-x).Floor)
  }

  /** JavaScript `x % 1`: the remainder keeps the sign of `x`. */
  function Mod1(x: real): real {
    x - Trunc(x) as real
  }

  /** The phase, in turns, of a wave of frequency `f` at time `t`. */
  function Phase(f: real, t: real): real {
    f * t
  }

  /** `1 - 2 * Math.abs(((x + 0.25) % 1) - 0.5)`: the unscaled triangle. */
  function TriangleShape(x: real): real {
    1.0 - 2.0 * Abs(Mod1(x + 0.25) - 0.5)
  }

  /** `2 * (x - Math.floor(x + 0.5))`: the unscaled sawtooth. */
  function SawtoothShape(x: real): real {
    2.0 * (x - (x + 0.5).Floor as real)
  }

  /** One oscillator: what `getWaveFunction` closes over. */
  datatype Oscillator = Oscillator(kind: WaveKind, freq: Freq, amp: real) {

    /** The closure's value at time `t` (seconds). */
    function At(t: real, sine: TurnSine): Sample {
      match freq
      case Undefined =>
        // NaN >= 0 is false, so a square wave of undefined frequency is -amp
        if kind == Square then Num(-amp) else NaN
      case Hz(f) =>
        var x := Phase(f, t);
        match kind
        case Sine => Num(amp * sine(x))
        case Square => Num(amp * (if sine(x) >= 0.0 then 1.0 else -1.0))
        case Triangle => Num(amp * TriangleShape(x))
        case Sawtooth => Num(amp * SawtoothShape(x))
    }
  }

  /** `getWaveFunction(frequency, amplitude, type)`: one of the four wave
      types, or the "Invalid wave type" error for any other name. */
  function GetWaveFunction(freq: Freq, amp: real, typeName: string): (r: Result<Oscillator>)
    ensures r.Ok? <==> typeName in KindNames
    ensures r.Ok? ==> KindName(r.value.kind) == typeName && r.value.freq == freq && r.value.amp == amp
    ensures r.Err? ==> r.error == "Invalid wave type: " + typeName
  {
    match KindOf(typeName)
    case Some(k) => Ok(Oscillator(k, freq, amp))
    case None => Err("Invalid wave type: " + typeName)
  }

  lemma {:induction false} ScaleUnit(amp: real, m: real)
    requires amp >= 0.0 && 0.0 <= m <= 1.0
    ensures 0.0 <= amp * m <= amp
  {
    assert amp * m <= amp * 1.0;
  }

  /** A square wave only takes the values +amplitude and -amplitude, and is
      +amplitude exactly where the sine term is non-negative. */
  lemma {:induction false} SquareValues(f: real, amp: real, t: real, sine: TurnSine)
    ensures Oscillator(Square, Hz(f), amp).At(t, sine) == Num(amp) || Oscillator(Square, Hz(f), amp).At(t, sine) == Num(-amp)
    ensures Oscillator(Square, Hz(f), amp).At(t, sine) == Num(amp) <== sine(f * t) >= 0.0
    ensures amp != 0.0 ==> (Oscillator(Square, Hz(f), amp).At(t, sine) == Num(amp) <==> sine(f * t) >= 0.0)
  {
    var o := Oscillator(Square, Hz(f), amp);
    assert o.At(t, sine) == Num(amp * (if sine(f * t) >= 0.0 then 1.0 else -1.0));
    assert amp * 1.0 == amp && amp * -1.0 == -amp;
  }

  /** At t = 0 the sine term is sin(0) = 0, so a square wave starts at
      +amplitude. */
  lemma {:induction false} SquareAtZero(f: real, amp: real, sine: TurnSine)
    requires sine(0.0) == 0.0
    ensures Oscillator(Square, Hz(f), amp).At(0.0, sine) == Num(amp)
  {
    assert f * 0.0 == 0.0;
  }

  lemma {:induction false} Mod1Range(x: real)
    requires x >= 0.0
    ensures 0.0 <= Mod1(x) < 1.0
  {
    assert Trunc(x) == x.Floor;
    assert x.Floor as real <= x < x.Floor as real + 1.0;
  }

  /** The triangle formula is shifted up: for a non-negative phase it stays
      within [0, amplitude], never reaching -amplitude. */
  lemma {:induction false} TriangleRange(f: real, amp: real, t: real, sine: TurnSine)
    requires amp >= 0.0 && f * t >= 0.0
    ensures Oscillator(Triangle, Hz(f), amp).At(t, sine).Num?
    ensures 0.0 <= Oscillator(Triangle, Hz(f), amp).At(t, sine).v <= amp
  {
    var y := Mod1(f * t + 0.25);
    Mod1Range(f * t + 0.25);
    var m := TriangleShape(f * t);
    assert 0.0 <= m <= 1.0;
    ScaleUnit(amp, m);
    assert Oscillator(Triangle, Hz(f), amp).At(t, sine) == Num(amp * m);
  }

  /** Its lowest value is 0, reached a quarter period before each peak; its
      highest is the amplitude. */
  lemma {:induction false} TriangleExtremes(amp: real, sine: TurnSine)
    ensures Oscillator(Triangle, Hz(1.0), amp).At(0.75, sine) == Num(0.0)
    ensures Oscillator(Triangle, Hz(1.0), amp).At(0.25, sine) == Num(amp)
  {
    assert Trunc(1.0) == 1 && Trunc(0.5) == 0;
  }

  /** The sawtooth covers [-amplitude, amplitude): it reaches -amplitude at
      half periods and stays strictly below +amplitude. */
  lemma {:induction false} SawtoothRange(f: real, amp: real, t: real, sine: TurnSine)
    requires amp >= 0.0
    ensures Oscillator(Sawtooth, Hz(f), amp).At(t, sine).Num?
    ensures -amp <= Oscillator(Sawtooth, Hz(f), amp).At(t, sine).v <= amp
    ensures amp > 0.0 ==> Oscillator(Sawtooth, Hz(f), amp).At(t, sine).v < amp
  {
    var m := SawtoothShape(f * t);
    SawtoothShapeRange(f * t);
    SawtoothScale(amp, m);
    assert Oscillator(Sawtooth, Hz(f), amp).At(t, sine) == Num(amp * m);
  }

  lemma {:induction false} SawtoothShapeRange(x: real)
    ensures -1.0 <= SawtoothShape(x) < 1.0
  {
    assert (x + 0.5).Floor as real <= x + 0.5 < (x + 0.5).Floor as real + 1.0;
  }

  lemma {:induction false} SawtoothScale(amp: real, m: real)
    requires amp >= 0.0 && -1.0 <= m < 1.0
    ensures -amp <= amp * m <= amp
    ensures amp > 0.0 ==> amp * m < amp
  {
    if amp > 0.0 {
      assert amp * m < amp * 1.0;
      assert amp * -1.0 <= amp * m;
    }
  }

  lemma {:induction false} SawtoothAtHalf(amp: real, sine: TurnSine)
    ensures Oscillator(Sawtooth, Hz(1.0), amp).At(0.5, sine) == Num(-amp)
  {
    assert Phase(1.0, 0.5) == 0.5;
    assert (0.5 + 0.5).Floor == 1;
  }
}
