/** The value rules of src/Components/DraggableNumInput/DraggableNumInput.jsx:
    typing a value, dragging it up or down, and pressing a key in the field.
    Each rule yields what the component hands to `onChange` (or nothing).

    The tempo field of the player is the one instance, with `min` 10 and
    `max` 1000; the lemmas at the end connect its values to step durations. */
module NumInput {
  import opened Common
  import opened Text
  import opened Numbers
  import opened Players
  import opened Playback

  /** `!isNaN(text) ? parseInt(text) : ""`. */
  function ParsedInput(text: string): (v: Value)
    ensures v.NumberValue? <==> !ToNumber(text).NaN?
    ensures v.NumberValue? ==> v.n.Finite? || v.n.NaN?
    ensures v.StringValue? ==> Coerce(v) == Finite(0.0)
  {
    if !ToNumber(text).NaN? then NumberValue(ParseInt(text)) else StringValue("")
  }

  /** Lies in `[min, max]`: neither below `min` nor above `max`. */
  predicate Within(x: Number, min: Number, max: Number) {
    !Less(x, min) && !Less(max, x)
  }

  /** The comparisons of `handleChangeInput`: above `max` gives `max`, below
      `min` gives `min`, anything else (including NaN, which compares false
      both ways) passes through. Comparisons coerce the value to a number. */
  function Clamp(v: Value, min: Number, max: Number): (r: Value)
    ensures Coerce(v).NaN? ==> r == v
    ensures Within(Coerce(v), min, max) ==> r == v
    ensures r != v ==> r == NumberValue(min) || r == NumberValue(max)
    ensures Less(max, Coerce(v)) ==> r == NumberValue(max)
    ensures !min.NaN? && !max.NaN? && !Less(max, min) && !Coerce(r).NaN? ==> Within(Coerce(r), min, max)
  {
    var n := Coerce(v);
    if Less(max, n) then NumberValue(max)
    else if Less(n, min) then NumberValue(min)
    else v
  }

  /** `handleChangeInput(e)`: the parsed text, clamped. */
  function HandleChangeInput(text: string, min: Number, max: Number): Value {
    Clamp(ParsedInput(text), min, max)
  }

  /** Typing the digits of a number already in range hands on that number. */
  lemma {:induction false} DigitsInRangeKept(n: nat, min: Number, max: Number)
    requires Within(Finite(n as real), min, max)
    ensures HandleChangeInput(NatText(n), min, max) == NumberValue(Finite(n as real))
  {
    NatTextRoundTrip(n);
  }

  /** Typing digits above the limit gives the limit. */
  lemma {:induction false} DigitsAboveMaxClamped(n: nat, min: Number, max: real)
    requires max < n as real
    ensures HandleChangeInput(NatText(n), min, Finite(max)) == NumberValue(Finite(max))
  {
    NatTextRoundTrip(n);
  }

  /** An emptied field is not NaN for `isNaN` (it reads as 0), but
      `parseInt` of it is, and NaN passes through the clamp. */
  lemma {:induction false} EmptyInputGivesNaN(min: Number, max: Number)
    ensures HandleChangeInput("", min, max) == NumberValue(NaN)
  {
    assert Trim("") == "";
    assert DigitRun("", 10) == 0;
  }

  /** Text that `isNaN` rejects becomes the string "", which compares as 0:
      below the tempo field's `min`, so the handler hands on 10. The tempo
      field therefore only ever hands on a number. */
  lemma {:induction false} TempoInputIsNumber(text: string)
    ensures HandleChangeInput(text, Finite(10.0), Finite(1000.0)).NumberValue?
    ensures ToNumber(text).NaN? ==> HandleChangeInput(text, Finite(10.0), Finite(1000.0)) == NumberValue(Finite(10.0))
  {
  }

  /** For the tempo field, every typed value is NaN or a number from 10 to
      1000, and then every step of a non-negative length plays for a finite
      time between 60 and 6000 ms per step. */
  lemma {:induction false} TempoInputBounded(text: string, steps: real)
    requires steps >= 0.0
    ensures var bpm := Coerce(HandleChangeInput(text, Finite(10.0), Finite(1000.0)));
      bpm.NaN? || (bpm.Finite? && 10.0 <= bpm.value <= 1000.0 &&
        Duration(bpm, Finite(steps)).Finite? &&
        60.0 * steps <= Duration(bpm, Finite(steps)).value <= 6000.0 * steps)
  {
    var r := HandleChangeInput(text, Finite(10.0), Finite(1000.0));
    var bpm := Coerce(r);
    if !bpm.NaN? {
      assert Within(bpm, Finite(10.0), Finite(1000.0));
      assert bpm.Finite? by {
        var v := ParsedInput(text);
        assert r == v || r == NumberValue(Finite(10.0)) || r == NumberValue(Finite(1000.0));
      }
      DurationBounds(bpm.value, steps);
    }
  }

  /** `value + diff` for a numeric value. */
  function Shift(value: Number, diff: int): (r: Number)
    ensures r.Finite? <==> value.Finite?
    ensures r.Finite? ==> r.value - value.value == diff as real
    ensures !r.Finite? ==> r == value
  {
    match value
    case Finite(v) => Finite(v + diff as real)
    case _ => value
  }

  /** The timed body of `handleDrag(e)`: the pointer position becomes the new
      `currY`, and `value + diff` is handed on only when the pointer moved at
      most 10 pixels and the result stays within `[min, max]`. */
  function HandleDrag(currY: int, pageY: int, value: Number, min: Number, max: Number): (r: (int, Option<Number>))
    ensures r.0 == pageY
    ensures r.1.Some? <==>
      -10 <= currY - pageY <= 10 && Within(Shift(value, currY - pageY), min, max)
    ensures r.1.Some? ==> r.1.value == Shift(value, currY - pageY)
  {
    var diff := currY - pageY;
    if diff > 10 || diff < -10 || Less(Shift(value, diff), min) || Less(max, Shift(value, diff)) then (pageY, None)
    else (pageY, Some(Shift(value, diff)))
  }

  /** A series of drag events: each one sees the pointer position of the one
      before and the value the one before handed on. The result is the last
      pointer position and the final value. */
  function Drags(currY: int, value: Number, pageYs: seq<int>, min: Number, max: Number): (r: (int, Number))
    ensures |pageYs| > 0 ==> r.0 == pageYs[|pageYs| - 1]
    ensures |pageYs| == 0 ==> r == (currY, value)
    ensures Within(value, min, max) ==> Within(r.1, min, max)
    ensures value.Finite? ==> r.1.Finite?
    ensures value.NaN? ==> r.1.NaN?
    decreases |pageYs|
  {
    if |pageYs| == 0 then (currY, value)
    else
      var (y, out) := HandleDrag(currY, pageYs[0], value, min, max);
      Drags(y, out.GetOr(value), pageYs[1..], min, max)
  }

  /** Along any series of drags, a value that starts at a whole number of
      beats per minute stays a whole number: each accepted drag adds a whole
      pixel count. */
  lemma {:induction false} DragsStayWhole(currY: int, k: int, pageYs: seq<int>, min: Number, max: Number)
    ensures var v := Drags(currY, Finite(k as real), pageYs, min, max).1;
      v.Finite? && v.value == v.value.Floor as real
    decreases |pageYs|
  {
    if |pageYs| > 0 {
      var (y, out) := HandleDrag(currY, pageYs[0], Finite(k as real), min, max);
      var k' := if out.Some? then k + (currY - pageYs[0]) else k;
      assert out.GetOr(Finite(k as real)) == Finite(k' as real);
      DragsStayWhole(y, k', pageYs[1..], min, max);
    }
  }

  /** A NaN tempo compares false against both limits, so every small drag
      accepts it and hands NaN on again. */
  lemma {:induction false} DragKeepsNaN(currY: int, pageY: int, min: Number, max: Number)
    requires -10 <= currY - pageY <= 10
    ensures HandleDrag(currY, pageY, NaN, min, max).1 == Some(NaN)
  {
  }

  /** `handleEnter(e)`: an empty field hands on `min`; the Enter key leaves
      editing. The two are independent. */
  function HandleEnter(text: string, key: string, editing: bool, min: Number): (r: (Option<Number>, bool))
    ensures r.0.Some? <==> text == ""
    ensures r.0.Some? ==> r.0.value == min
    ensures r.1 <==> editing && key != "Enter"
  {
    (if text == "" then Some(min) else None, if key == "Enter" then false else editing)
  }

  /** Emptying the field and pressing Enter gives the lower limit, which is
      within the limits whenever they are ordered. */
  lemma {:induction false} EnterOnEmptyWithin(key: string, editing: bool, min: Number, max: Number)
    requires !min.NaN? && !max.NaN? && !Less(max, min)
    ensures HandleEnter("", key, editing, min).0 == Some(min)
    ensures Within(min, min, max)
  {
    LessTotal(min, min);
  }
}
