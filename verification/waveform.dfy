/** The `Waveform` class of src/Wave.ts as an immutable record with pure
    transition functions: a sample buffer, the list of components summed into
    it (`waves`), a LIFO `undoStack`, and whether a drawing canvas is
    attached. Drawing itself is not modelled; only the guard that makes
    `update` throw on a headless waveform is.

    Every caller builds its waveforms with a sample rate of 44100, so the
    rate is the constant `SAMPLE_RATE`. The buffer starts with `SIZE` = 1024
    entries; `resetWaveform` replaces it with `SAMPLE_RATE` zeros, of which
    only the first `SIZE` are ever written again.
 */
module Waveforms {
  import opened Common
  import opened Oscillator

  const SIZE: nat := 1024
  const SAMPLE_RATE: nat := 44100
  /** The default `amplitude` argument, and the one recomputation uses. */
  const AMPLITUDE: real := 0.1
  const NOT_LOADED: string := "Update must be called after window is loaded."

  /** One component `{freq, type}`. */
  datatype Wave = Wave(freq: Freq, kind: string)

  datatype Waveform = Waveform(samples: seq<Sample>, waves: seq<Wave>, undoStack: seq<Wave>, hasCanvas: bool)

  /** `t = i / this.sampleRate`. */
  function Time(i: nat): real {
    i as real / SAMPLE_RATE as real
  }

  function Zeros(n: nat): (s: seq<Sample>)
    ensures |s| == n && forall i :: 0 <= i < n ==> s[i] == Num(0.0)
  {
    seq(n, i => Num(0.0))
  }

  /** `new Waveform(44100, canvas)`. */
  function NewWaveform(hasCanvas: bool): (w: Waveform)
    ensures |w.samples| == SIZE && w.waves == [] && w.undoStack == []
    ensures forall i :: 0 <= i < SIZE ==> w.samples[i] == Num(0.0)
    ensures w.hasCanvas == hasCanvas
  {
    Waveform(Zeros(SIZE), [], [], hasCanvas)
  }

  /** Every component has one of the four wave type names. */
  predicate ValidWaves(ws: seq<Wave>) {
    forall j :: 0 <= j < |ws| ==> ws[j].kind in KindNames
  }

  predicate Valid(w: Waveform) {
    ValidWaves(w.waves) && ValidWaves(w.undoStack)
  }

  /** The loop `for (i = 0; i < SIZE; i++) waveform[i] += wave(i / sampleRate)`.
      Writes past the end of a typed array are ignored. */
  function Accumulate(samples: seq<Sample>, osc: Oscillator, sine: TurnSine): (r: seq<Sample>)
    ensures |r| == |samples|
    ensures forall i :: 0 <= i < |samples| && i < SIZE ==> r[i] == Plus(samples[i], osc.At(Time(i), sine))
    ensures forall i :: SIZE <= i < |samples| ==> r[i] == samples[i]
  {
    seq(|samples|, i requires 0 <= i < |samples| =>
      if i < SIZE then Plus(samples[i], osc.At(Time(i), sine)) else samples[i])
  }

  /** The same loop with `=` in place of `+=`. */
  function Overwrite(samples: seq<Sample>, osc: Oscillator, sine: TurnSine): (r: seq<Sample>)
    ensures |r| == |samples|
    ensures forall i :: 0 <= i < |samples| && i < SIZE ==> r[i] == osc.At(Time(i), sine)
    ensures forall i :: SIZE <= i < |samples| ==> r[i] == samples[i]
  {
    seq(|samples|, i requires 0 <= i < |samples| =>
      if i < SIZE then osc.At(Time(i), sine) else samples[i])
  }

  /** On a zeroed buffer the add loop and the overwrite loop write the
      same samples: adding to zero keeps the value, NaN included. */
  lemma {:induction false} AccumulateOnZeros(n: nat, osc: Oscillator, sine: TurnSine)
    ensures Accumulate(Zeros(n), osc, sine) == Overwrite(Zeros(n), osc, sine)
  {
    var a := Accumulate(Zeros(n), osc, sine);
    var b := Overwrite(Zeros(n), osc, sine);
    forall i | 0 <= i < n && i < SIZE
      ensures a[i] == b[i]
    {
      var x := osc.At(Time(i), sine);
      assert Plus(Num(0.0), x) == x;
    }
  }

  /** The overwrite loop erases whatever the add loop wrote before it. */
  lemma {:induction false} OverwriteAfterAccumulate(samples: seq<Sample>, osc1: Oscillator, osc2: Oscillator, sine: TurnSine)
    ensures Overwrite(Accumulate(samples, osc1, sine), osc2, sine) == Overwrite(samples, osc2, sine)
  {
    var a := Overwrite(Accumulate(samples, osc1, sine), osc2, sine);
    var b := Overwrite(samples, osc2, sine);
    assert forall i :: 0 <= i < |samples| ==> a[i] == b[i];
  }

  /** What one stored component contributes at index `i` when the buffer
      is recomputed (always at amplitude 0.1). */
  function WaveValue(w: Wave, i: nat, sine: TurnSine): Sample {
    match GetWaveFunction(w.freq, AMPLITUDE, w.kind)
    case Ok(osc) => osc.At(Time(i), sine)
    case Err(_) => NaN
  }

  /** Adding the components' contributions at index `i` to `start`, in list
      order. */
  function SumFrom(start: Sample, ws: seq<Wave>, i: nat, sine: TurnSine): Sample
    decreases |ws|
  {
    if |ws| == 0 then start else SumFrom(Plus(start, WaveValue(ws[0], i, sine)), ws[1..], i, sine)
  }

  /** The value the buffer should hold at index `i` for the components `ws`. */
  function Synth(ws: seq<Wave>, i: nat, sine: TurnSine): Sample {
    SumFrom(Num(0.0), ws, i, sine)
  }

  /** The buffer's render window equals the sum over its components. */
  predicate Consistent(w: Waveform, sine: TurnSine) {
    forall i :: 0 <= i < SIZE && i < |w.samples| ==> w.samples[i] == Synth(w.waves, i, sine)
  }

  lemma {:induction false} SumFromAppend(start: Sample, ws: seq<Wave>, last: Wave, i: nat, sine: TurnSine)
    ensures SumFrom(start, ws + [last], i, sine) == Plus(SumFrom(start, ws, i, sine), WaveValue(last, i, sine))
    decreases |ws|
  {
    if |ws| == 0 {
      assert ws + [last] == [last];
      assert ([last])[1..] == [];
    } else {
      assert (ws + [last])[1..] == ws[1..] + [last];
      SumFromAppend(Plus(start, WaveValue(ws[0], i, sine)), ws[1..], last, i, sine);
    }
  }

  /** `addWave(frequency, type, amplitude)`: an invalid type name throws
      before anything changes; otherwise the component's value at
      `i / 44100` is added to every sample `i < 1024`, the component is
      appended to `waves`, and nothing else changes. */
  function AddWave(w: Waveform, freq: Freq, kind: string, amp: real, sine: TurnSine): (c: Completion<Waveform>)
    ensures c.Thrown? <==> kind !in KindNames
    ensures c.Thrown? ==> c.state == w && c.error == "Invalid wave type: " + kind
    ensures c.Normal? ==>
      && c.state.waves == w.waves + [Wave(freq, kind)]
      && c.state.undoStack == w.undoStack
      && c.state.hasCanvas == w.hasCanvas
      && |c.state.samples| == |w.samples|
      && (forall i :: 0 <= i < |w.samples| && i < SIZE ==>
            c.state.samples[i] == Plus(w.samples[i], GetWaveFunction(freq, amp, kind).value.At(Time(i), sine)))
      && (forall i :: SIZE <= i < |w.samples| ==> c.state.samples[i] == w.samples[i])
  {
    match GetWaveFunction(freq, amp, kind)
    case Err(e) => Thrown(w, e)
    case Ok(osc) => Normal(w.(samples := Accumulate(w.samples, osc, sine), waves := w.waves + [Wave(freq, kind)]))
  }

  /** Adding a component at the default amplitude keeps the buffer equal
      to the sum over its components, and keeps every name valid. */
  lemma {:induction false} AddWaveKeepsConsistent(w: Waveform, freq: Freq, kind: string, sine: TurnSine)
    requires Consistent(w, sine) && Valid(w)
    requires AddWave(w, freq, kind, AMPLITUDE, sine).Normal?
    ensures Consistent(AddWave(w, freq, kind, AMPLITUDE, sine).state, sine)
    ensures Valid(AddWave(w, freq, kind, AMPLITUDE, sine).state)
  {
    var w' := AddWave(w, freq, kind, AMPLITUDE, sine).state;
    forall i | 0 <= i < SIZE && i < |w'.samples|
      ensures w'.samples[i] == Synth(w'.waves, i, sine)
    {
      SumFromAppend(Num(0.0), w.waves, Wave(freq, kind), i, sine);
    }
  }

  /** `setWave(frequency, type, amplitude)`: samples `0..1023` are
      overwritten with the new component alone, yet the component is
      appended to `waves` rather than replacing them. */
  function SetWave(w: Waveform, freq: Freq, kind: string, amp: real, sine: TurnSine): (c: Completion<Waveform>)
    ensures c.Thrown? <==> kind !in KindNames
    ensures c.Thrown? ==> c.state == w && c.error == "Invalid wave type: " + kind
    ensures c.Normal? ==>
      && c.state.waves == w.waves + [Wave(freq, kind)]
      && c.state.undoStack == w.undoStack
      && c.state.hasCanvas == w.hasCanvas
      && |c.state.samples| == |w.samples|
      && (forall i :: 0 <= i < |w.samples| && i < SIZE ==>
            c.state.samples[i] == GetWaveFunction(freq, amp, kind).value.At(Time(i), sine))
      && (forall i :: SIZE <= i < |w.samples| ==> c.state.samples[i] == w.samples[i])
  {
    match GetWaveFunction(freq, amp, kind)
    case Err(e) => Thrown(w, e)
    case Ok(osc) => Normal(w.(samples := Overwrite(w.samples, osc, sine), waves := w.waves + [Wave(freq, kind)]))
  }

  /** Because `setWave` keeps the old components, the buffer stops being
      their sum: at any index where the old components add up to a nonzero
      number, the sample differs from the sum over the new list. */
  lemma {:induction false} SetWaveBreaksConsistency(w: Waveform, freq: Freq, kind: string, sine: TurnSine, i: nat)
    requires kind in KindNames && freq.Hz?
    requires i < SIZE && i < |w.samples|
    requires Synth(w.waves, i, sine).Num? && Synth(w.waves, i, sine).v != 0.0
    ensures SetWave(w, freq, kind, AMPLITUDE, sine).state.samples[i]
         != Synth(SetWave(w, freq, kind, AMPLITUDE, sine).state.waves, i, sine)
  {
    SumFromAppend(Num(0.0), w.waves, Wave(freq, kind), i, sine);
    var v := WaveValue(Wave(freq, kind), i, sine);
    assert v == GetWaveFunction(freq, AMPLITUDE, kind).value.At(Time(i), sine);
    assert v.Num?;
  }

  /** For instance, after `setWave(440, "square")` on a fresh waveform,
      `setWave(880, "sine")` leaves sample 0 at the sine's value while the
      list sums to that plus the square's +0.1 or -0.1. */
  lemma {:induction false} SetWaveAfterSetWave(sine: TurnSine)
    ensures var w1 := SetWave(NewWaveform(true), Hz(440.0), "square", AMPLITUDE, sine).state;
            var w2 := SetWave(w1, Hz(880.0), "sine", AMPLITUDE, sine).state;
            w2.waves == [Wave(Hz(440.0), "square"), Wave(Hz(880.0), "sine")] && w2.samples[0] != Synth(w2.waves, 0, sine)
  {
    var w1 := SetWave(NewWaveform(true), Hz(440.0), "square", AMPLITUDE, sine).state;
    assert w1.waves == [Wave(Hz(440.0), "square")];
    SquareValues(440.0, AMPLITUDE, Time(0), sine);
    assert ([Wave(Hz(440.0), "square")])[1..] == [];
    assert Synth(w1.waves, 0, sine) == Plus(Num(0.0), WaveValue(Wave(Hz(440.0), "square"), 0, sine));
    SetWaveBreaksConsistency(w1, Hz(880.0), "sine", sine, 0);
  }

  /** `update()`: throws unless a canvas is attached; the drawing is not
      modelled. */
  function Update(w: Waveform): (c: Completion<Waveform>)
    ensures c.state == w
    ensures c.Thrown? <==> !w.hasCanvas
    ensures c.Thrown? ==> c.error == NOT_LOADED
  {
    if w.hasCanvas then Normal(w) else Thrown(w, NOT_LOADED)
  }

  /** The app's mount effect: `new Waveform(44100, canvas)`, then
      `setWave(0, 'sine')` and `update()`. The editor's waveform thus starts
      with one 0 Hz sine component, and its buffer is the one that adding
      that component to a fresh waveform gives, so it is their sum. */
  function Mounted(sine: TurnSine): (c: Completion<Waveform>)
    ensures c.Normal?
    ensures c.state.waves == [Wave(Hz(0.0), "sine")] && c.state.undoStack == [] && c.state.hasCanvas
    ensures c.state == AddWave(NewWaveform(true), Hz(0.0), "sine", AMPLITUDE, sine).state
    ensures Valid(c.state) && Consistent(c.state, sine)
  {
    var blank := NewWaveform(true);
    AccumulateOnZeros(SIZE, GetWaveFunction(Hz(0.0), AMPLITUDE, "sine").value, sine);
    assert blank.samples == Zeros(SIZE);
    AddWaveKeepsConsistent(blank, Hz(0.0), "sine", sine);
    Update(SetWave(blank, Hz(0.0), "sine", AMPLITUDE, sine).state)
  }

  /** `resetWaveform()`: a fresh zero buffer of `sampleRate` entries (not
      `SIZE`), then `update()`. */
  function ResetWaveform(w: Waveform): (c: Completion<Waveform>)
    ensures c.state == w.(samples := Zeros(SAMPLE_RATE))
    ensures c.Thrown? <==> !w.hasCanvas
  {
    Update(w.(samples := Zeros(SAMPLE_RATE)))
  }

  /** The loop of `addWavePriv` over a buffer: every component is added in
      order at amplitude 0.1; an invalid type name throws with the earlier
      components already added. */
  function AccumulateWaves(samples: seq<Sample>, ws: seq<Wave>, sine: TurnSine): (c: Completion<seq<Sample>>)
    ensures |c.state| == |samples|
    ensures c.Normal? <==> ValidWaves(ws)
    ensures c.Normal? ==> forall i :: 0 <= i < SIZE && i < |samples| ==> c.state[i] == SumFrom(samples[i], ws, i, sine)
    ensures forall i :: SIZE <= i < |samples| ==> c.state[i] == samples[i]
    decreases |ws|
  {
    if |ws| == 0 then Normal(samples)
    else
      match GetWaveFunction(ws[0].freq, AMPLITUDE, ws[0].kind)
      case Err(e) => Thrown(samples, e)
      case Ok(osc) =>
        var rest := AccumulateWaves(Accumulate(samples, osc, sine), ws[1..], sine);
        assert ValidWaves(ws) <==> ws[0].kind in KindNames && ValidWaves(ws[1..]) by {
          assert forall j :: 1 <= j < |ws| ==> ws[j] == ws[1..][j - 1];
        }
        rest
  }

  /** `addWavePriv()`. */
  function AddWavePriv(w: Waveform, sine: TurnSine): (c: Completion<Waveform>)
    ensures c.state.waves == w.waves && c.state.undoStack == w.undoStack && c.state.hasCanvas == w.hasCanvas
    ensures c.Normal? <==> ValidWaves(w.waves)
  {
    match AccumulateWaves(w.samples, w.waves, sine)
    case Normal(s) => Normal(w.(samples := s))
    case Thrown(s, e) => Thrown(w.(samples := s), e)
  }

  /** Reset, then add every component: the state `undo`, `redo` and
      `playAnimation` leave the buffer in. */
  function Recompute(w: Waveform, sine: TurnSine): (c: Completion<Waveform>)
    ensures c.state.waves == w.waves && c.state.undoStack == w.undoStack && c.state.hasCanvas == w.hasCanvas
    ensures |c.state.samples| == SAMPLE_RATE
  {
    match ResetWaveform(w)
    case Thrown(s, e) => Thrown(s, e)
    case Normal(s) => AddWavePriv(s, sine)
  }

  /** A successful recomputation leaves a buffer of `SAMPLE_RATE` entries
      whose render window is the sum over the components and whose tail is
      zero. */
  lemma {:induction false} RecomputeResult(w: Waveform, sine: TurnSine)
    ensures w.hasCanvas && ValidWaves(w.waves) ==>
      && Recompute(w, sine).Normal?
      && Consistent(Recompute(w, sine).state, sine)
      && forall i :: SIZE <= i < SAMPLE_RATE ==> Recompute(w, sine).state.samples[i] == Num(0.0)
  {
  }

  /** `undo()`: no-op on an empty list; otherwise the last component moves
      to the top of `undoStack`, and the buffer is rebuilt from the
      remaining ones. On a headless waveform the move happens and then
      `update` throws, leaving the zeroed buffer unrecomputed. */
  function Undo(w: Waveform, sine: TurnSine): (c: Completion<Waveform>)
    ensures |w.waves| == 0 ==> c == Normal(w)
    ensures |w.waves| > 0 ==>
      && c.state.waves == w.waves[..|w.waves| - 1]
      && c.state.undoStack == w.undoStack + [w.waves[|w.waves| - 1]]
      && c.state.hasCanvas == w.hasCanvas
    ensures |w.waves| > 0 && !w.hasCanvas ==>
      c.Thrown? && c.error == NOT_LOADED && c.state.samples == Zeros(SAMPLE_RATE)
    ensures |w.waves| > 0 && w.hasCanvas && Valid(w) ==>
      c.Normal? && Valid(c.state) && Consistent(c.state, sine) && |c.state.samples| == SAMPLE_RATE
  {
    if |w.waves| == 0 then Normal(w)
    else
      var n := |w.waves|;
      var moved := w.(waves := w.waves[..n - 1], undoStack := w.undoStack + [w.waves[n - 1]]);
      assert Valid(w) ==> Valid(moved);
      RecomputeResult(moved, sine);
      match Recompute(moved, sine)
      case Thrown(s, e) => Thrown(s, e)
      case Normal(s) => Update(s)
  }

  /** `redo()`: no-op on an empty `undoStack`; otherwise its top moves back
      to the end of `waves` and the buffer is rebuilt. */
  function Redo(w: Waveform, sine: TurnSine): (c: Completion<Waveform>)
    ensures |w.undoStack| == 0 ==> c == Normal(w)
    ensures |w.undoStack| > 0 ==>
      && c.state.waves == w.waves + [w.undoStack[|w.undoStack| - 1]]
      && c.state.undoStack == w.undoStack[..|w.undoStack| - 1]
      && c.state.hasCanvas == w.hasCanvas
    ensures |w.undoStack| > 0 && !w.hasCanvas ==>
      c.Thrown? && c.error == NOT_LOADED && c.state.samples == Zeros(SAMPLE_RATE)
    ensures |w.undoStack| > 0 && w.hasCanvas && Valid(w) ==>
      c.Normal? && Valid(c.state) && Consistent(c.state, sine) && |c.state.samples| == SAMPLE_RATE
  {
    if |w.undoStack| == 0 then Normal(w)
    else
      var n := |w.undoStack|;
      var moved := w.(waves := w.waves + [w.undoStack[n - 1]], undoStack := w.undoStack[..n - 1]);
      assert Valid(w) ==> Valid(moved);
      RecomputeResult(moved, sine);
      match Recompute(moved, sine)
      case Thrown(s, e) => Thrown(s, e)
      case Normal(s) => Update(s)
  }

  /** `undo` then `redo` gives back the component list and the undo stack
      exactly, and a buffer that is again the sum over the components. */
  lemma {:induction false} UndoThenRedo(w: Waveform, sine: TurnSine)
    requires |w.waves| > 0 && w.hasCanvas && Valid(w)
    ensures var u := Undo(w, sine).state;
            var r := Redo(u, sine);
            r.Normal? && r.state.waves == w.waves && r.state.undoStack == w.undoStack && Consistent(r.state, sine)
  {
    var n := |w.waves|;
    assert w.waves[..n - 1] + [w.waves[n - 1]] == w.waves;
    assert (w.undoStack + [w.waves[n - 1]])[..|w.undoStack|] == w.undoStack;
  }

  /** `redo` then `undo` does the same for a non-empty undo stack. */
  lemma {:induction false} RedoThenUndo(w: Waveform, sine: TurnSine)
    requires |w.undoStack| > 0 && w.hasCanvas && Valid(w)
    ensures var r := Redo(w, sine).state;
            var u := Undo(r, sine);
            u.Normal? && u.state.waves == w.waves && u.state.undoStack == w.undoStack && Consistent(u.state, sine)
  {
    var n := |w.undoStack|;
    assert w.undoStack[..n - 1] + [w.undoStack[n - 1]] == w.undoStack;
    assert (w.waves + [w.undoStack[n - 1]])[..|w.waves|] == w.waves;
  }

  /** Adding a component and undoing it restores the component list; the
      undone component stays on `undoStack` (new additions never clear it),
      and the render window holds the same values as before. */
  lemma {:induction false} AddThenUndo(w: Waveform, freq: Freq, kind: string, sine: TurnSine)
    requires w.hasCanvas && Valid(w) && Consistent(w, sine) && kind in KindNames
    ensures var a := AddWave(w, freq, kind, AMPLITUDE, sine);
            var u := Undo(a.state, sine);
            && a.Normal? && u.Normal?
            && u.state.waves == w.waves
            && u.state.undoStack == w.undoStack + [Wave(freq, kind)]
            && forall i :: 0 <= i < SIZE && i < |w.samples| ==> u.state.samples[i] == w.samples[i]
  {
    var a := AddWave(w, freq, kind, AMPLITUDE, sine).state;
    AddWaveKeepsConsistent(w, freq, kind, sine);
    assert a.waves[..|a.waves| - 1] == w.waves;
  }

  /** The animation loop of `playAnimation` from component `k` on: add it,
      redraw, wait, continue. */
  function AnimateFrom(w: Waveform, k: nat, sine: TurnSine): Completion<Waveform>
    requires k <= |w.waves|
    decreases |w.waves| - k
  {
    if k == |w.waves| then Normal(w)
    else
      match GetWaveFunction(w.waves[k].freq, AMPLITUDE, w.waves[k].kind)
      case Err(e) => Thrown(w, e)
      case Ok(osc) =>
        var next := w.(samples := Accumulate(w.samples, osc, sine));
        match Update(next)
        case Thrown(s, e) => Thrown(s, e)
        case Normal(s) => AnimateFrom(s, k + 1, sine)
  }

  /** `playAnimation()`, final state only (the 100 ms pauses are not
      modelled): reset, then one component at a time. */
  function PlayAnimation(w: Waveform, sine: TurnSine): (c: Completion<Waveform>)
    ensures c == Recompute(w, sine)
    ensures c.state.waves == w.waves && c.state.undoStack == w.undoStack
  {
    match ResetWaveform(w)
    case Thrown(s, e) => Thrown(s, e)
    case Normal(s) =>
      AnimateFromAccumulates(s, 0, sine);
      assert s.waves[0..] == s.waves;
      AnimateFrom(s, 0, sine)
  }

  lemma {:induction false} AnimateFromAccumulates(w: Waveform, k: nat, sine: TurnSine)
    requires k <= |w.waves| && w.hasCanvas
    ensures AnimateFrom(w, k, sine) ==
      match AccumulateWaves(w.samples, w.waves[k..], sine)
      case Normal(s) => Normal(w.(samples := s))
      case Thrown(s, e) => Thrown(w.(samples := s), e)
    decreases |w.waves| - k
  {
    if k < |w.waves| {
      assert w.waves[k..][0] == w.waves[k];
      assert w.waves[k..][1..] == w.waves[k + 1..];
      match GetWaveFunction(w.waves[k].freq, AMPLITUDE, w.waves[k].kind)
      case Err(e) =>
      case Ok(osc) =>
        var next := w.(samples := Accumulate(w.samples, osc, sine));
        AnimateFromAccumulates(next, k + 1, sine);
    }
  }

  /** The animation ends in exactly the state a recomputation produces, so
      `undo` ends where an animation of the remaining components would. */
  lemma {:induction false} AnimationEndsLikeUndo(w: Waveform, sine: TurnSine)
    requires w.hasCanvas && |w.waves| > 0
    ensures var n := |w.waves|;
            var moved := w.(waves := w.waves[..n - 1], undoStack := w.undoStack + [w.waves[n - 1]]);
            Undo(w, sine) == PlayAnimation(moved, sine)
  {
  }
}
