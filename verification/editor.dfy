/** The wave editor of src/Components/WaveEditor/WaveEditor.jsx: its state,
    the event handlers that change it, and `addToPlayer`.

    A handler runs to completion or throws. A throw keeps every change made
    before it: in-place pushes onto the `waves` and `undoStack` arrays, the
    waveform's own mutations, and state updates queued with a setter (the
    event handler's queued updates are still applied when it throws).

    The preview waveform is not part of the state; only its throws are: a
    chord preview looks up every note of the current chord, and an unknown
    note name throws there. */
module Editor {
  import opened Common
  import opened Oscillator
  import opened Numbers
  import opened Notes
  import opened Waveforms
  import opened Players

  /** The component's state and the main waveform it drives. `waves` is the
      list the editor shows; `undoStack` and `redoQueue` hold `None` where the
      source pushes `undefined`. */
  datatype Editor = Editor(
    freq: Freq,
    kind: string,
    waves: seq<Wave>,
    undoStack: seq<Option<Wave>>,
    redoQueue: seq<Option<Wave>>,
    octave: int,
    note: string,
    chord: seq<string>,
    chordEnabled: bool,
    noteEnabled: bool,
    disabled: bool,
    waveform: Waveform)

  /** The state on mount: C5 as a sine, single-note mode, chord C-E-G. */
  function Initial(waveform: Waveform): (e: Editor)
    ensures e.waves == [] && e.undoStack == [] && e.redoQueue == []
    ensures e.noteEnabled && !e.chordEnabled && !e.disabled
    ensures NoteFrequency(e.note, e.octave) == Ok(e.freq) && e.kind in KindNames
  {
    Editor(Hz(523.25), "sine", [], [], [], 5, "C", ["C", "E", "G"], false, true, false, waveform)
  }

  /** `notes[note][octave]` when the lookup does not throw. */
  function TableFreq(note: string, octave: int): Freq {
    match NoteFrequency(note, octave)
    case Ok(f) => f
    case Err(_) => Undefined
  }

  /** The components a chord contributes: one per note, in order. */
  function ChordEntries(notes: seq<string>, octave: int, kind: string): seq<Wave> {
    seq(|notes|, i requires 0 <= i < |notes| => Wave(TableFreq(notes[i], octave), kind))
  }

  predicate AllKnown(notes: seq<string>) {
    forall i :: 0 <= i < |notes| ==> notes[i] in NoteTable
  }

  /** The longest prefix of `notes` whose names are keys of `notes`: how far
      a loop that looks each one up gets before it throws. */
  function KnownPrefix(notes: seq<string>): (p: seq<string>)
    ensures |p| <= |notes| && p == notes[..|p|]
    ensures AllKnown(p)
    ensures |p| < |notes| ==> notes[|p|] !in NoteTable
    decreases |notes|
  {
    if |notes| == 0 || notes[0] !in NoteTable then []
    else [notes[0]] + KnownPrefix(notes[1..])
  }

  lemma {:induction false} KnownPrefixWhole(notes: seq<string>)
    ensures KnownPrefix(notes) == notes <==> AllKnown(notes)
  {
    var p := KnownPrefix(notes);
    if |p| < |notes| {
      assert notes[|p|] !in NoteTable;
    }
  }

  lemma {:induction false} ChordEntriesCons(n: string, rest: seq<string>, octave: int, kind: string)
    ensures ChordEntries([n] + rest, octave, kind) == [Wave(TableFreq(n, octave), kind)] + ChordEntries(rest, octave, kind)
  {
    assert forall i :: 1 <= i < |rest| + 1 ==> ([n] + rest)[i] == rest[i - 1];
  }

  /** The `forEach` of `addChord` and `setChordWave`: look the note up (which
      throws for an unknown name), push the component onto `acc`, add it to
      the waveform. The result pairs the waveform with `acc`. */
  function ChordLoop(wf: Waveform, acc: seq<Wave>, notes: seq<string>, octave: int, kind: string, sine: TurnSine)
    : (c: Completion<(Waveform, seq<Wave>)>)
    ensures c.state.0.undoStack == wf.undoStack && c.state.0.hasCanvas == wf.hasCanvas
    ensures kind in KindNames ==>
      var done := ChordEntries(KnownPrefix(notes), octave, kind);
      && (c.Normal? <==> KnownPrefix(notes) == notes)
      && c.state.1 == acc + done
      && c.state.0.waves == wf.waves + done
    ensures c.Thrown? && kind in KindNames ==> c.error == UNDEFINED_PROPERTY
    ensures kind !in KindNames ==> (c.Thrown? <==> |notes| > 0) && c.state.0 == wf
    decreases |notes|
  {
    if |notes| == 0 then Normal((wf, acc))
    else
      match NoteFrequency(notes[0], octave)
      case Err(err) => Thrown((wf, acc), err)
      case Ok(f) =>
        var acc1 := acc + [Wave(f, kind)];
        match Waveforms.AddWave(wf, f, kind, AMPLITUDE, sine)
        case Thrown(wf1, err) => Thrown((wf1, acc1), err)
        case Normal(wf1) =>
          var r := ChordLoop(wf1, acc1, notes[1..], octave, kind, sine);
          assert notes == [notes[0]] + notes[1..];
          ChordEntriesCons(notes[0], KnownPrefix(notes[1..]), octave, kind);
          r
  }

  /** `waveform.update()` after a handler's work. */
  function ThenUpdate(e: Editor): (c: Completion<Editor>)
    ensures c.state == e
    ensures c.Thrown? <==> !e.waveform.hasCanvas
  {
    match Update(e.waveform)
    case Normal(_) => Normal(e)
    case Thrown(_, err) => Thrown(e, err)
  }

  /** `addChord()`: every note of the chord is pushed onto the shown list
      and added to the waveform; the undo stack is left alone. An unknown
      note throws after the notes before it are in. */
  function AddChord(e: Editor, sine: TurnSine): (c: Completion<Editor>)
    ensures c.state.(waves := e.waves, waveform := e.waveform) == e
    ensures e.kind in KindNames ==>
      var done := ChordEntries(KnownPrefix(e.chord), e.octave, e.kind);
      && c.state.waves == e.waves + done
      && c.state.waveform.waves == e.waveform.waves + done
      && c.state.waveform.undoStack == e.waveform.undoStack
      && (c.Normal? <==> AllKnown(e.chord) && e.waveform.hasCanvas)
  {
    KnownPrefixWhole(e.chord);
    match ChordLoop(e.waveform, e.waves, e.chord, e.octave, e.kind, sine)
    case Thrown((wf, ws), err) => Thrown(e.(waveform := wf, waves := ws), err)
    case Normal((wf, ws)) => ThenUpdate(e.(waveform := wf, waves := ws))
  }

  /** `addWave()`: ignored while disabled; in chord mode `addChord`;
      otherwise the current frequency and type are pushed onto both the
      shown list and the undo stack, then added to the waveform. */
  function AddWave(e: Editor, sine: TurnSine): (c: Completion<Editor>)
    ensures e.disabled ==> c == Normal(e)
    ensures c.state.(waves := e.waves, undoStack := e.undoStack, waveform := e.waveform) == e
    ensures !e.disabled && e.chordEnabled && e.kind in KindNames ==>
      && c.state.waves == e.waves + ChordEntries(KnownPrefix(e.chord), e.octave, e.kind)
      && c.state.undoStack == e.undoStack
    ensures !e.disabled && !e.chordEnabled ==>
      var w := Wave(e.freq, e.kind);
      && c.state.waves == e.waves + [w]
      && c.state.undoStack == e.undoStack + [Some(w)]
      && (c.Normal? <==> e.kind in KindNames && e.waveform.hasCanvas)
      && (e.kind in KindNames ==> c.state.waveform.waves == e.waveform.waves + [w])
      && (e.kind in KindNames ==> c.state.waveform.undoStack == e.waveform.undoStack)
  {
    if e.disabled then Normal(e)
    else if e.chordEnabled then AddChord(e, sine)
    else
      var w := Wave(e.freq, e.kind);
      var e1 := e.(waves := e.waves + [w], undoStack := e.undoStack + [Some(w)]);
      match Waveforms.AddWave(e.waveform, e.freq, e.kind, AMPLITUDE, sine)
      case Thrown(wf, err) => Thrown(e1.(waveform := wf), err)
      case Normal(wf) => ThenUpdate(e1.(waveform := wf))
  }

  /** `setChordWave()`: the waveform is overwritten with a 0 Hz component,
      then every chord note is added; the shown list becomes the chord's
      components, but only once the whole loop succeeded. */
  function SetChordWave(e: Editor, sine: TurnSine): (c: Completion<Editor>)
    ensures c.state.(waves := e.waves, waveform := e.waveform) == e
    ensures c.state.waveform.undoStack == e.waveform.undoStack
    ensures e.kind in KindNames ==>
      && (c.Normal? <==> AllKnown(e.chord) && e.waveform.hasCanvas)
      && c.state.waveform.waves ==
           e.waveform.waves + [Wave(Hz(0.0), e.kind)] + ChordEntries(KnownPrefix(e.chord), e.octave, e.kind)
      && c.state.waves == (if AllKnown(e.chord) then ChordEntries(e.chord, e.octave, e.kind) else e.waves)
  {
    KnownPrefixWhole(e.chord);
    match Waveforms.SetWave(e.waveform, Hz(0.0), e.kind, AMPLITUDE, sine)
    case Thrown(wf, err) => Thrown(e.(waveform := wf), err)
    case Normal(wf) =>
      match ChordLoop(wf, [], e.chord, e.octave, e.kind, sine)
      case Thrown((wf1, _), err) => Thrown(e.(waveform := wf1), err)
      case Normal((wf1, ws)) => ThenUpdate(e.(waveform := wf1, waves := ws))
  }

  /** `setWave()`: ignored while disabled; in chord mode `setChordWave`;
      otherwise the shown list becomes the one current component, and the
      waveform is overwritten with it (its own list still grows). */
  function SetWave(e: Editor, sine: TurnSine): (c: Completion<Editor>)
    ensures e.disabled ==> c == Normal(e)
    ensures c.state.(waves := e.waves, waveform := e.waveform) == e
    ensures !e.disabled && !e.chordEnabled ==>
      var w := Wave(e.freq, e.kind);
      && c.state.waves == [w]
      && (c.Normal? <==> e.kind in KindNames && e.waveform.hasCanvas)
      && (e.kind in KindNames ==> c.state.waveform.waves == e.waveform.waves + [w])
    ensures !e.disabled && e.chordEnabled && e.kind in KindNames && AllKnown(e.chord) ==>
      c.state.waves == ChordEntries(e.chord, e.octave, e.kind)
  {
    if e.disabled then Normal(e)
    else if e.chordEnabled then SetChordWave(e, sine)
    else
      var w := Wave(e.freq, e.kind);
      var e1 := e.(waves := [w]);
      match Waveforms.SetWave(e.waveform, e.freq, e.kind, AMPLITUDE, sine)
      case Thrown(wf, err) => Thrown(e1.(waveform := wf), err)
      case Normal(wf) => ThenUpdate(e1.(waveform := wf))
  }

  /** `handleNote(newNote)`: the note is set, then its frequency is looked
      up (throwing for an unknown name); on success the editor switches to
      single-note mode at that frequency. */
  function HandleNote(e: Editor, newNote: string): (c: Completion<Editor>)
    ensures e.disabled ==> c == Normal(e)
    ensures !e.disabled ==>
      && c.state.note == newNote
      && (c.Normal? <==> newNote in NoteTable)
      && (c.Thrown? ==> c.state == e.(note := newNote))
      && (c.Normal? ==>
            c.state == e.(note := newNote, freq := TableFreq(newNote, e.octave), noteEnabled := true, chordEnabled := false))
  {
    if e.disabled then Normal(e)
    else
      var e1 := e.(note := newNote);
      match NoteFrequency(newNote, e.octave)
      case Err(err) => Thrown(e1, err)
      case Ok(f) => Normal(e1.(freq := f, noteEnabled := true, chordEnabled := false))
  }

  /** `handleChord(newChord)`: the preview of the CURRENT chord runs first
      and throws if one of its notes is unknown; otherwise chord mode is
      switched on and the new chord stored. */
  function HandleChord(e: Editor, newChord: seq<string>): (c: Completion<Editor>)
    ensures e.disabled ==> c == Normal(e)
    ensures !e.disabled ==>
      && (c.Normal? <==> AllKnown(e.chord))
      && (c.Thrown? ==> c.state == e)
      && (c.Normal? ==> c.state == e.(chord := newChord, chordEnabled := true, noteEnabled := false))
  {
    if e.disabled then Normal(e)
    else if !AllKnown(e.chord) then Thrown(e, UNDEFINED_PROPERTY)
    else Normal(e.(chord := newChord, chordEnabled := true, noteEnabled := false))
  }

  /** `handleOctave(octave)`: the current note's frequency at the new octave
      is looked up first (throwing for an unknown note); then the octave is
      set and, in chord mode, the chord preview runs, otherwise the
      frequency is set. */
  function HandleOctave(e: Editor, octave: int): (c: Completion<Editor>)
    ensures e.disabled ==> c == Normal(e)
    ensures !e.disabled ==>
      && (c.Thrown? <==> e.note !in NoteTable || (e.chordEnabled && !AllKnown(e.chord)))
      && (e.note !in NoteTable ==> c.state == e)
      && (e.note in NoteTable && e.chordEnabled ==> c.state == e.(octave := octave))
      && (e.note in NoteTable && !e.chordEnabled ==> c.state == e.(octave := octave, freq := TableFreq(e.note, octave)))
  {
    if e.disabled then Normal(e)
    else
      match NoteFrequency(e.note, octave)
      case Err(err) => Thrown(e, err)
      case Ok(f) =>
        var e1 := e.(octave := octave);
        if e.chordEnabled then
          if AllKnown(e.chord) then Normal(e1) else Thrown(e1, UNDEFINED_PROPERTY)
        else Normal(e1.(freq := f))
  }

  /** `undo()`: the waveform undoes first; if it does not throw, the top of
      the editor's undo stack (`undefined` when empty) moves to the front of
      the redo queue. The shown list is never touched. */
  function Undo(e: Editor, sine: TurnSine): (c: Completion<Editor>)
    ensures e.disabled ==> c == Normal(e)
    ensures c.state.(undoStack := e.undoStack, redoQueue := e.redoQueue, waveform := e.waveform) == e
    ensures c.Thrown? ==> c.state.undoStack == e.undoStack && c.state.redoQueue == e.redoQueue
    ensures !e.disabled && c.Normal? ==>
      var n := |e.undoStack|;
      && c.state.undoStack == (if n == 0 then [] else e.undoStack[..n - 1])
      && c.state.redoQueue == [if n == 0 then None else e.undoStack[n - 1]] + e.redoQueue
    ensures !e.disabled ==>
      && (|e.waveform.waves| == 0 || (e.waveform.hasCanvas && Valid(e.waveform)) ==> c.Normal?)
      && (|e.waveform.waves| > 0 && !e.waveform.hasCanvas ==> c.Thrown?)
  {
    if e.disabled then Normal(e)
    else
      match Waveforms.Undo(e.waveform, sine)
      case Thrown(wf, err) => Thrown(e.(waveform := wf), err)
      case Normal(wf) =>
        var n := |e.undoStack|;
        var top := if n == 0 then None else e.undoStack[n - 1];
        Normal(e.(waveform := wf, undoStack := if n == 0 then [] else e.undoStack[..n - 1], redoQueue := [top] + e.redoQueue))
  }

  /** `redo()`: the waveform redoes first; if it does not throw, the front
      of the redo queue (`undefined` when empty) is pushed onto the undo
      stack. The shown list is never touched. */
  function Redo(e: Editor, sine: TurnSine): (c: Completion<Editor>)
    ensures e.disabled ==> c == Normal(e)
    ensures c.state.(undoStack := e.undoStack, redoQueue := e.redoQueue, waveform := e.waveform) == e
    ensures c.Thrown? ==> c.state.undoStack == e.undoStack && c.state.redoQueue == e.redoQueue
    ensures !e.disabled && c.Normal? ==>
      && c.state.undoStack == e.undoStack + [if |e.redoQueue| == 0 then None else e.redoQueue[0]]
      && c.state.redoQueue == (if |e.redoQueue| == 0 then [] else e.redoQueue[1..])
    ensures !e.disabled ==>
      && (|e.waveform.undoStack| == 0 || (e.waveform.hasCanvas && Valid(e.waveform)) ==> c.Normal?)
      && (|e.waveform.undoStack| > 0 && !e.waveform.hasCanvas ==> c.Thrown?)
  {
    if e.disabled then Normal(e)
    else
      match Waveforms.Redo(e.waveform, sine)
      case Thrown(wf, err) => Thrown(e.(waveform := wf), err)
      case Normal(wf) =>
        var front := if |e.redoQueue| == 0 then None else e.redoQueue[0];
        Normal(e.(waveform := wf, undoStack := e.undoStack + [front], redoQueue := if |e.redoQueue| == 0 then [] else e.redoQueue[1..]))
  }

  /** The label `addToPlayer` gives: in chord mode the chord's name (looked
      up by `getChordNameFromNotes`), in note mode the note, else "wave". */
  function PlayerLabel(e: Editor): Option<string> {
    if e.chordEnabled then GetChordNameFromNotes(NoteList(e.chord))
    else if e.noteEnabled then Some(e.note)
    else Some("wave")
  }

  /** `addToPlayer(waves, waveform)`: appends a player with a fresh id, one
      step, the shown components written as note text by `freqText`, and
      the label above. Not guarded by `disabled`. */
  function AddToPlayer(e: Editor, players: seq<Player>, ids: IdGen, freqText: Freq -> string): (r: (seq<Player>, IdGen))
    ensures |r.0| == |players| + 1 && r.0[..|players|] == players
    ensures r.1.next == ids.next + 1
    ensures var p := r.0[|players|];
      && p.id == ids.next
      && p.steps == Finite(1.0)
      && |p.waves| == |e.waves|
      && (forall i :: 0 <= i < |e.waves| ==> p.waves[i] == TextWave(freqText(e.waves[i].freq), e.waves[i].kind))
      && (e.chordEnabled ==> p.labelText == None)
      && (!e.chordEnabled && e.noteEnabled ==> p.labelText == Some(e.note))
      && (!e.chordEnabled && !e.noteEnabled ==> p.labelText == Some("wave"))
  {
    var (id, ids') := NextId(ids);
    ChordNameNeverFound(NoteList(e.chord));
    var ws := seq(|e.waves|, i requires 0 <= i < |e.waves| => TextWave(freqText(e.waves[i].freq), e.waves[i].kind));
    (players + [Player(id, PlayerLabel(e), Finite(1.0), ws)], ids')
  }

  /** `animate()`, first half: with no components nothing happens; while
      disabled nothing happens; otherwise the editor is disabled. */
  function AnimateStart(e: Editor): (r: Editor)
    ensures r.(disabled := e.disabled) == e
    ensures r.disabled <==> e.disabled || |e.waves| > 0
  {
    if |e.waves| == 0 || e.disabled then e else e.(disabled := true)
  }

  /** `animate()`, second half: the animation plays on the waveform; the
      editor is enabled again only if the animation finishes without
      throwing. */
  function AnimateEnd(e: Editor, sine: TurnSine): (r: Editor)
    ensures r.(waveform := e.waveform, disabled := e.disabled) == e
    ensures r.waveform == PlayAnimation(e.waveform, sine).state
    ensures !r.disabled <==> PlayAnimation(e.waveform, sine).Normal?
  {
    match PlayAnimation(e.waveform, sine)
    case Normal(wf) => e.(waveform := wf, disabled := false)
    case Thrown(wf, _) => e.(waveform := wf, disabled := true)
  }

  /** While an animation runs, every guarded handler leaves the editor as it
      is; only `addToPlayer` still acts. */
  lemma {:induction false} AnimationBlocksEditing(e: Editor, sine: TurnSine, note: string, chord: seq<string>, octave: int)
    requires |e.waves| > 0
    ensures var a := AnimateStart(e);
      && AddWave(a, sine) == Normal(a) && SetWave(a, sine) == Normal(a)
      && Undo(a, sine) == Normal(a) && Redo(a, sine) == Normal(a)
      && HandleNote(a, note) == Normal(a) && HandleChord(a, chord) == Normal(a)
      && HandleOctave(a, octave) == Normal(a) && AnimateStart(a) == a
  {
  }

  /** Adding a single component and undoing it takes it off the waveform,
      but the shown list keeps it: `undo` never touches that list. */
  lemma {:induction false} UndoLeavesShownList(e: Editor, sine: TurnSine)
    requires !e.disabled && !e.chordEnabled && e.kind in KindNames
    requires e.waveform.hasCanvas && Valid(e.waveform)
    ensures var a := AddWave(e, sine);
      var u := Undo(a.state, sine);
      && a.Normal? && u.Normal?
      && u.state.waveform.waves == e.waveform.waves
      && u.state.waves == e.waves + [Wave(e.freq, e.kind)]
      && u.state.undoStack == e.undoStack
      && u.state.redoQueue == [Some(Wave(e.freq, e.kind))] + e.redoQueue
  {
    var a := AddWave(e, sine);
    assert a.state.waveform == Waveforms.AddWave(e.waveform, e.freq, e.kind, AMPLITUDE, sine).state;
    assert Valid(a.state.waveform);
    var n := |a.state.waveform.waves|;
    assert a.state.waveform.waves[..n - 1] == e.waveform.waves;
    assert a.state.undoStack[..|a.state.undoStack| - 1] == e.undoStack;
  }

  /** An undo followed by a redo gives the editor back its undo stack and
      redo queue. */
  lemma {:induction false} UndoThenRedoRestoresStacks(e: Editor, sine: TurnSine)
    requires !e.disabled && |e.undoStack| > 0
    requires e.waveform.hasCanvas && Valid(e.waveform)
    ensures var u := Undo(e, sine);
      var r := Redo(u.state, sine);
      && u.Normal? && r.Normal?
      && r.state.undoStack == e.undoStack && r.state.redoQueue == e.redoQueue
      && r.state.waves == e.waves
  {
    var u := Undo(e, sine);
    if |e.waveform.waves| > 0 {
      assert Valid(u.state.waveform);
    } else {
      assert u.state.waveform == e.waveform;
    }
    var n := |e.undoStack|;
    assert e.undoStack[..n - 1] + [e.undoStack[n - 1]] == e.undoStack;
  }

  /** `undo` and `redo` leave the shown list alone, so a player added right
      after an undo still holds the undone component. */
  lemma {:induction false} UndoneWavesReachPlayer(e: Editor, sine: TurnSine, players: seq<Player>, ids: IdGen, freqText: Freq -> string)
    ensures var u := Undo(e, sine).state;
      AddToPlayer(u, players, ids, freqText).0[|players|].waves == AddToPlayer(e, players, ids, freqText).0[|players|].waves
    ensures var r := Redo(e, sine).state;
      AddToPlayer(r, players, ids, freqText).0[|players|].waves == AddToPlayer(e, players, ids, freqText).0[|players|].waves
  {
    assert Undo(e, sine).state.waves == e.waves;
    assert Redo(e, sine).state.waves == e.waves;
  }

  /** An undo with an empty undo stack still puts an `undefined` entry at
      the front of the redo queue. */
  lemma {:induction false} UndoOnEmptyQueuesUndefined(e: Editor, sine: TurnSine)
    requires !e.disabled && |e.undoStack| == 0 && |e.waveform.waves| == 0
    ensures Undo(e, sine) == Normal(e.(redoQueue := [None] + e.redoQueue))
  {
  }

  /** Adding a chord leaves the editor's undo stack alone while the waveform
      gets every note, so an undo right after takes the chord's last note
      off the waveform yet queues the editor's previous single component
      for redo. */
  lemma {:induction false} UndoAfterChordMismatch(e: Editor, sine: TurnSine)
    requires !e.disabled && e.chordEnabled && e.kind in KindNames
    requires AllKnown(e.chord) && |e.chord| > 0
    requires e.waveform.hasCanvas && Valid(e.waveform) && |e.undoStack| > 0
    ensures var a := AddWave(e, sine);
      var u := Undo(a.state, sine);
      var entries := ChordEntries(e.chord, e.octave, e.kind);
      && a.Normal?
      && a.state.undoStack == e.undoStack
      && a.state.waveform.waves == e.waveform.waves + entries
      && (Valid(a.state.waveform) ==>
            && u.Normal?
            && u.state.waveform.waves == e.waveform.waves + entries[..|entries| - 1]
            && u.state.redoQueue[0] == e.undoStack[|e.undoStack| - 1])
  {
    KnownPrefixWhole(e.chord);
    var a := AddWave(e, sine);
    var entries := ChordEntries(e.chord, e.octave, e.kind);
    assert (e.waveform.waves + entries)[..|e.waveform.waves + entries| - 1] == e.waveform.waves + entries[..|entries| - 1];
  }

  /** The Fmin7 chord holds the note "Eb", which is not a key of `notes`:
      once it is the current chord, every chord change throws in the
      preview, so the chord can never be changed again, and adding it stops
      after its first three notes. */
  lemma {:induction false} Fmin7IsStuck(e: Editor, newChord: seq<string>, sine: TurnSine)
    requires !e.disabled && e.chord == ["F", "G#", "C", "Eb"]
    ensures HandleChord(e, newChord) == Thrown(e, UNDEFINED_PROPERTY)
    ensures e.chordEnabled && e.kind in KindNames ==>
      AddWave(e, sine).Thrown? &&
      AddWave(e, sine).state.waves == e.waves + ChordEntries(["F", "G#", "C"], e.octave, e.kind)
  {
    assert e.chord[3] !in NoteTable;
    var p := KnownPrefix(e.chord);
    assert e.chord[0] in NoteTable && e.chord[1] in NoteTable && e.chord[2] in NoteTable;
    assert KnownPrefix(e.chord[3..]) == [];
    assert e.chord[2..][1..] == e.chord[3..];
    assert e.chord[1..][1..] == e.chord[2..];
    assert e.chord[1..][1..][1..] == e.chord[3..];
    assert p == ["F", "G#", "C"];
  }

  /** The editor mounts with the waveform of the app's mount effect, which
      already holds a 0 Hz sine. A first `addWave` puts C5 as a sine on the
      shown list and the undo stack, and after the 0 Hz sine on the
      waveform. */
  lemma {:induction false} FirstAddWave(sine: TurnSine)
    ensures var c := AddWave(Initial(Mounted(sine).state), sine);
      && c.Normal?
      && c.state.waves == [Wave(Hz(523.25), "sine")]
      && c.state.undoStack == [Some(Wave(Hz(523.25), "sine"))]
      && c.state.waveform.waves == [Wave(Hz(0.0), "sine"), Wave(Hz(523.25), "sine")]
  {
  }

  /** From the same start a first `undo` finds the editor's undo stack
      empty: the waveform gives up the 0 Hz mount component, and `undefined`
      is queued for redo. */
  lemma {:induction false} FirstUndoTakesMountWave(sine: TurnSine)
    ensures var c := Undo(Initial(Mounted(sine).state), sine);
      && c.Normal?
      && c.state.waveform.waves == []
      && c.state.waveform.undoStack == [Wave(Hz(0.0), "sine")]
      && c.state.waves == [] && c.state.undoStack == []
      && c.state.redoQueue == [None]
  {
  }
}
