# SoundSeer core in Dafny

SoundSeer is a browser wave editor and step player. The editor builds a
waveform from components. A component is a frequency plus one of four wave
types. Notes come from an equal-temperament table (A4 = 440 Hz), and chords
come from a fixed table. Edits can be undone and redone. A snapshot of the
current components can be added to a player list. The player list plays its
entries one after another, each for a number of steps at a tempo in beats
per minute. The list can be written out as text, edited, and read back.

This project models that core as immutable data and pure functions:

- **Waveform engine.** `Waveforms` covers the `Waveform` class of
  `src/Wave.ts` and the mount effect of `src/App.jsx` that creates the
  app's waveform. `Oscillator` covers its four wave formulas.
- **Editor.** `Editor` covers the editor's state record and event handlers,
  from `src/Components/WaveEditor/WaveEditor.jsx`.
- **Tables and ids.** `Notes` covers the note and chord tables, the
  octave-note lookup, the chord-name search and the id generator, from
  `src/Utils.js`.
- **Player list.** `Players` covers the list operations of
  `src/Components/Player/Player.jsx` and the drag reorder.
- **Text format.** `Codec` covers the player-list text format and the save
  loop.
- **Playback.** `Playback` covers the playback scheduler as an event
  machine.
- **Tempo input.** `NumInput` covers the value rules of the tempo input.
- **Shared helpers.** `Common`, `Text` and `Numbers` model the JavaScript
  built-ins this code relies on:
  - `split`, `join`, `trim`, and case mapping;
  - `parseFloat`, `parseInt` and unary `+`;
  - number arithmetic and comparison, including NaN and the infinities.

A JavaScript `throw` is modelled as `Completion.Thrown(state, error)`. The
state it carries is the state mutated so far: an array changed in place, or
a waveform changed before the throw, keeps that change. React state updates
queued by an event handler before it throws are taken to be applied too.
`Math.sin` is the uninterpreted parameter `sine`. The time of a sample is an
exact real, `i / 44100`.

## Model

| member | source | states |
|---|---|---|
| Oscillator.KindOf | src/Wave.ts:5-10 | a name denotes a wave type exactly when it is one of the four enumeration values, and that type's name is the name |
| Oscillator.KindNameRoundTrip | src/Wave.ts:5-10 | every wave type's name reads back as that type |
| Oscillator.GetWaveFunction | src/Wave.ts:33-46 | the four type names yield an oscillator; any other name fails with "Invalid wave type: " followed by the name |
| Oscillator.SquareValues | src/Wave.ts:38 | a square wave takes only the values +amplitude and -amplitude, and takes +amplitude exactly where the sine term is non-negative |
| Oscillator.SquareAtZero | src/Wave.ts:38 | at t = 0 a square wave is at +amplitude |
| Oscillator.TriangleRange | src/Wave.ts:40 | for a non-negative amplitude and phase, the triangle lies in [0, amplitude], not in [-amplitude, amplitude] |
| Oscillator.TriangleExtremes | src/Wave.ts:40 | the triangle reaches 0 and +amplitude |
| Oscillator.SawtoothRange | src/Wave.ts:42 | the sawtooth lies in [-amplitude, amplitude) |
| Oscillator.SawtoothAtHalf | src/Wave.ts:42 | the sawtooth reaches -amplitude at half a period |
| Waveforms.NewWaveform | src/Wave.ts:25-31 | a new waveform has 1024 zero samples, two empty lists, and the canvas it was given |
| Waveforms.Accumulate | src/Wave.ts:52-55 | the add loop adds the oscillator's value at i/44100 to each of the first 1024 samples and leaves the rest alone |
| Waveforms.Overwrite | src/Wave.ts:86-89 | the overwrite loop replaces the first 1024 samples with the oscillator's values and leaves the rest alone |
| Waveforms.AccumulateOnZeros | src/Wave.ts:52-55 | adding an oscillator onto silence gives the same buffer as writing it over silence |
| Waveforms.OverwriteAfterAccumulate | src/Wave.ts:86-89 | writing an oscillator over a buffer discards whatever the add loop put there before |
| Waveforms.AddWave | src/Wave.ts:48-63 | an invalid type throws before any change; otherwise the component is appended to `waves`, each sample below 1024 gains the component's value, and the other samples and `undoStack` are unchanged |
| Waveforms.AddWaveKeepsConsistent | src/Wave.ts:48-63 | adding a component keeps the buffer equal to the sum over the component list |
| Waveforms.SetWave | src/Wave.ts:83-97 | samples below 1024 become the new component alone, yet the component is appended to `waves` |
| Waveforms.SetWaveBreaksConsistency | src/Wave.ts:83-97 | after `setWave`, wherever the old components summed to a nonzero value, the buffer differs from the sum over the list |
| Waveforms.SetWaveAfterSetWave | src/Wave.ts:83-97 | a concrete instance: two `setWave` calls leave a buffer that is not the sum of the two components |
| Waveforms.Mounted | src/App.jsx:12-17 | the mount effect never throws and leaves one 0 Hz sine component, an empty undo stack and a canvas; its buffer is the one adding that component to a fresh waveform gives, so it equals the sum over the components |
| Waveforms.AccumulateWaves | src/Wave.ts:144-155 | the rebuild loop adds every component in order at amplitude 0.1; it fails exactly when a component has an invalid type |
| Waveforms.AddWavePriv | src/Wave.ts:144-155 | the rebuild leaves both lists alone and fails exactly on an invalid type |
| Waveforms.Recompute | src/Wave.ts:118-120 | reset followed by the rebuild leaves both lists alone and a buffer of 44100 samples |
| Waveforms.RecomputeResult | src/Wave.ts:118-120 | with a canvas and valid types, the first 1024 samples hold the sum over the components and the tail is zero |
| Waveforms.Undo | src/Wave.ts:112-122 | with no components, nothing changes; otherwise the last component moves onto `undoStack`; without a canvas the move happens and then the call throws, with the buffer zeroed; with a canvas the buffer is the sum over the remaining components |
| Waveforms.Redo | src/Wave.ts:124-134 | with an empty `undoStack`, nothing changes; otherwise its top moves back to the end of `waves`, with the same headless and rebuild behaviour as `undo` |
| Waveforms.UndoThenRedo | src/Wave.ts:112-134 | `undo` then `redo` restores `waves` and `undoStack` exactly |
| Waveforms.RedoThenUndo | src/Wave.ts:112-134 | `redo` then `undo` restores both lists exactly |
| Waveforms.AddThenUndo | src/Wave.ts:112-122 | adding then undoing restores `waves` and the first 1024 samples; the undone component stays on `undoStack` |
| Waveforms.AnimateFromAccumulates | src/Wave.ts:68-80 | the animation loop from component k ends as the rebuild loop over the remaining components does, throw included |
| Waveforms.PlayAnimation | src/Wave.ts:65-81 | the animation (reset, then one add loop and one `update` per component) ends exactly as reset followed by the rebuild loop, throw included, and never changes either list |
| Waveforms.AnimationEndsLikeUndo | src/Wave.ts:65-81 | the animation ends in the same state as the rebuild that `undo` performs |
| Notes.NoteTableKeys | src/Utils.js:17-34 | the keys of `notes` are the twelve note names |
| Notes.NoteTableRows | src/Utils.js:18-33 | every row strictly increases; C to D# have 9 octaves and E to B have 8 |
| Notes.ARowDoubles | src/Utils.js:31 | A4 is 440 Hz, and each A is twice the one an octave below |
| Notes.GetFrequencyFromOctaveNote | src/Utils.js:11-15 | the last character is the octave and the rest is the note name; the lookup throws exactly when that name is not a key |
| Notes.GetFrequencyOfNoteAndDigit | src/Utils.js:11-15 | a note name followed by one digit reads the table entry, or `undefined` past the end of the row |
| Notes.GetFrequencyExamples | src/Utils.js:11-15 | "C#5" gives 554.37, "A4" gives 440, "E8" gives `undefined`, and "Eb4" and "" throw |
| Notes.ChordNotesKnown | src/Utils.js:36-93 | every chord's note names are keys of `notes`, except the "Eb" in Fmin7 |
| Notes.FindEntry | src/Utils.js:147-151 | the inner search finds a name exactly when some entry's value equals the selection |
| Notes.SearchMeetsOnlyPairs | src/Utils.js:145-153 | the outer loop compares only against category names and whole category tables |
| Notes.ChordNameNeverFound | src/Utils.js:145-153 | the search succeeds only for a category name or a whole table; for every array of note names it returns `undefined` |
| Notes.GetChordNameFromNotes | src/Utils.js:145-153 | a name is found only when the selection equals a category name or a whole category table; an array selection never gets a name |
| Notes.ChordNameOfCmaj | src/Utils.js:145-153 | the notes of Cmaj get no name |
| Notes.IdsCount | src/Utils.js:1-8 | the i-th id taken is the generator's start plus i |
| Notes.FreshIds | src/Utils.js:1-9 | a fresh generator yields 2, 3, 4, …, strictly increasing, so ids never repeat |
| Text.Split | src/Components/WavePlayer/WavePlayer.jsx:29 | `split` gives separator-free pieces that join back to the input |
| Text.SplitJoin | src/Components/WavePlayer/WavePlayer.jsx:106 | `split` undoes `join` when no piece contains the separator |
| Text.TrimStart | src/Components/WavePlayer/WavePlayer.jsx:30 | the result is a suffix of the input that does not start with whitespace, and only whitespace was removed |
| Text.TrimEnd | src/Components/WavePlayer/WavePlayer.jsx:30 | the result is a prefix of the input that does not end with whitespace, and only whitespace was removed |
| Text.TrimUnchanged | src/Components/WavePlayer/WavePlayer.jsx:30 | `trim` leaves a string unchanged exactly when it neither starts nor ends with whitespace |
| Text.TrimSpacePrefix | src/Components/WavePlayer/WavePlayer.jsx:33 | a leading space never survives `trim` |
| Text.Upper | src/Components/WavePlayer/WavePlayer.jsx:45 | upper-casing keeps the length, leaves no lower-case ASCII letter, keeps every other character, and lower-casing a changed letter gives it back |
| Text.Lower | src/Components/WavePlayer/WavePlayer.jsx:46 | lower-casing keeps the length, leaves no upper-case ASCII letter, and keeps every other character |
| Numbers.ParseFloatNaN | src/Components/WavePlayer/WavePlayer.jsx:33 | `parseFloat` gives NaN exactly when the text has no numeric prefix |
| Numbers.ParseFloatSkipsSpace | src/Components/WavePlayer/WavePlayer.jsx:126 | a leading space does not change what `parseFloat` reads |
| Numbers.NatTextRoundTrip | src/Components/Player/Player.jsx:18 | the decimal text of a natural number reads back as that number under `parseFloat`, unary `+` and `parseInt` |
| Numbers.Mul | src/Components/WavePlayer/WavePlayer.jsx:80 | the product of finite numbers is their product; the result is NaN exactly for a NaN operand or infinity times zero |
| Numbers.Div | src/Components/WavePlayer/WavePlayer.jsx:80 | finite division by a nonzero number is exact; the result is NaN exactly for a NaN operand, infinity over infinity, or 0 / 0 |
| Numbers.LessTotal | src/Components/DraggableNumInput/DraggableNumInput.jsx:54-57 | without NaN, `<` is a strict total order |
| Players.FindIndex | src/Components/Player/Player.jsx:22 | `findIndex` gives the first matching position, or -1 exactly when nothing matches |
| Players.RemoveAt | src/Components/Player/Player.jsx:24 | removing one element shortens the list by one and removes exactly that element |
| Players.SpliceOut | src/Components/Player/Player.jsx:24 | `splice(start, 1)` removes the element at `start` for an index in range and at `length + start` for a negative one; a start below `-length` removes the first element, and a start at or past the end removes nothing |
| Players.DeletePlayer | src/Components/Player/Player.jsx:21-26 | a present id removes its first player; an absent id removes the last player |
| Players.DeleteRemovesExactlyThatPlayer | src/Components/Player/Player.jsx:21-26 | with distinct ids, deleting the id of player k leaves exactly the players before k followed by the players after k, and none of them has that id |
| Players.DeleteAbsentDropsLast | src/Components/Player/Player.jsx:22-24 | deleting an id nobody has drops the last player |
| Players.SetAt | src/Components/Player/Player.jsx:30-32 | assigning at the found index throws exactly when the index is -1; otherwise only that player changes |
| Players.HandleSteps | src/Components/Player/Player.jsx:29-34 | only the matching player's steps change; the length, ids, labels, components and order stay the same; a missing id throws |
| Players.HandleStepsWrapper | src/Components/Player/Player.jsx:17-19 | the steps stored are the argument coerced to a number |
| Players.StepsFromDigits | src/Components/Player/Player.jsx:17-19 | a digit string is stored as its number, and an empty string as 0 |
| Players.HandleLabel | src/Components/Player/Player.jsx:36-41 | a found key changes only that player's label; a key not found throws |
| Players.LabelEditAlwaysThrows | src/Components/Player/Player.jsx:36-49 | wired as `onChange`, the handler gets the change event as its id, so every edit throws |
| Players.InsertAt | src/Components/WavePlayer/WavePlayer.jsx:179 | inserting adds exactly one element |
| Players.DropIndex | src/Components/WavePlayer/WavePlayer.jsx:179 | the drop position always lies within the list |
| Players.MoveFacts | src/Components/WavePlayer/WavePlayer.jsx:177-179 | taking an element out and reinserting it puts it at the target, and the other elements keep their order |
| Players.HandleDragDrop | src/Components/WavePlayer/WavePlayer.jsx:175-184 | the reorder is a permutation, the dragged player lands at the drop position, and the others keep their relative order |
| Players.DragDropInPlace | src/Components/WavePlayer/WavePlayer.jsx:175-184 | dropping a player where it was picked up changes nothing |
| Codec.FormatWave | src/Components/WavePlayer/WavePlayer.jsx:18-25 | a line ends with a line feed; before it comes the comma-join of the component fields, " steps" and " label" |
| Codec.ParseFieldsRoundTrip | src/Components/WavePlayer/WavePlayer.jsx:43-52 | components whose note and type are non-empty, free of commas and whitespace, and already in the case the parser forces, read back from their fields as the same components, in order |
| Codec.FormatJoin | src/Components/WavePlayer/WavePlayer.jsx:18-25 | the line without its line feed is the comma-join of the component fields, " steps" and " label" |
| Codec.ParseField | src/Components/WavePlayer/WavePlayer.jsx:44-46 | the frequency is the first space-separated word of the trimmed field, upper-cased; the type is the second word lower-cased, and "sine" when it is missing or empty; so the type is never empty, the frequency has no lower-case letter and the type no upper-case one |
| Codec.NumericIsParseFloat | src/Components/WavePlayer/WavePlayer.jsx:33 | the numeric test equals `!isNaN(parseFloat(x))` |
| Codec.DecodeFields | src/Components/WavePlayer/WavePlayer.jsx:29-53 | without a label, the last field is the steps and the label is "Wave"; otherwise the label is the trimmed last field and the steps are the untrimmed field before it; every other field is one component |
| Codec.DeformatWave | src/Components/WavePlayer/WavePlayer.jsx:28-54 | a line throws exactly when it has no comma and its text is numeric; otherwise it yields one component per comma without a label, and one fewer with a label (none for a line without a comma) |
| Codec.CheckWaves | src/Components/WavePlayer/WavePlayer.jsx:118-122 | the component loop throws exactly when some component is not playable: an unknown note name or an invalid type |
| Codec.MakePlayer | src/Components/WavePlayer/WavePlayer.jsx:109-133 | a line without components is skipped and takes no id; a line that fails the checks throws before taking an id; any other line takes exactly one id for a player with the decoded label, components and `parseFloat(steps)` |
| Codec.Outcome | src/Components/WavePlayer/WavePlayer.jsx:110-127 | the id-free part of one iteration: a line fails exactly when decoding throws or a component is not playable, is skipped only when it has no components, and otherwise yields the label, `parseFloat` of the steps (`"undefined"` when absent) and at least one component |
| Codec.TakeId | src/Components/WavePlayer/WavePlayer.jsx:114-133 | a failing line throws without taking an id, a skipped line leaves the generator alone, and a made line becomes a player with the next id while the generator moves by one |
| Codec.SaveFrom | src/Components/WavePlayer/WavePlayer.jsx:108-134 | the line loop from line k throws exactly when a later line fails; otherwise its players are the made lines in order, with consecutive ids from the generator, which moves by the number of players |
| Codec.SaveDecoded | src/Components/WavePlayer/WavePlayer.jsx:108-134 | the loop throws exactly when some line fails; otherwise player j is the j-th made line, in line order, with id start + j; the generator moves by exactly the number of players; there are never more players than lines |
| Codec.SaveLines | src/Components/WavePlayer/WavePlayer.jsx:106-134 | over the raw lines: a throw exactly when some decoded line fails; otherwise the made lines become players in order with consecutive ids, and the generator moves by their number |
| Codec.SaveModalText | src/Components/WavePlayer/WavePlayer.jsx:100-137 | on success the list is replaced by the new players; a throw keeps the old list, with the ids taken before it spent |
| Codec.ParseFieldRoundTrip | src/Components/WavePlayer/WavePlayer.jsx:44-46 | a safe component field reads back as that component |
| Codec.LineRoundTrip | src/Components/WavePlayer/WavePlayer.jsx:18-54 | a formatted line reads back as the same components and label, with steps " " + steps |
| Codec.Reloaded | src/Components/WavePlayer/WavePlayer.jsx:124-131 | the reloaded list has one player per original, player i carrying id next + i and the original's label, components and re-parsed steps |
| Codec.DecodeEncodable | src/Components/WavePlayer/WavePlayer.jsx:28-54 | the line of an encodable player decodes to its components, its label and " " + steps |
| Codec.MakePlayable | src/Components/WavePlayer/WavePlayer.jsx:114-131 | a decoded line whose components are non-empty and all playable is made into a player with its label, `parseFloat` of its steps and its components |
| Codec.MakeEncodable | src/Components/WavePlayer/WavePlayer.jsx:124-131 | the decoded line of an encodable player is made into a player with that player's label and components and its steps re-parsed from their text |
| Codec.PlayersTextJoin | src/Components/WavePlayer/WavePlayer.jsx:140-148 | the text is the line-feed join of the lines, followed by an empty last line |
| Codec.GetPlayersText | src/Components/WavePlayer/WavePlayer.jsx:140-148 | the text is empty exactly for an empty list, ends with a line feed otherwise, and holds at least one line feed per player |
| Codec.EmptyLineSkipped | src/Components/WavePlayer/WavePlayer.jsx:114-115 | the empty line decodes to no components and is skipped |
| Codec.DecodeLinesOfEncoded | src/Components/WavePlayer/WavePlayer.jsx:106-110 | the lines of an encodable list decode to the players' fields, then an empty line |
| Codec.OutcomesOfEncoded | src/Components/WavePlayer/WavePlayer.jsx:110-127 | the per-line results of an encodable list are one made line per player, matching the reloaded players, then a skipped empty line |
| Codec.SaveFromEach | src/Components/WavePlayer/WavePlayer.jsx:108-134 | when the lines from k on are made lines matching given players and the last is skipped, the loop from k yields exactly those players and leaves the generator after the last id |
| Codec.SaveFromAll | src/Components/WavePlayer/WavePlayer.jsx:108-134 | the same from the first line: the loop yields the given players and the generator ends after the last of them |
| Codec.SaveDecodedOfEncoded | src/Components/WavePlayer/WavePlayer.jsx:108-134 | the loop over those results rebuilds the list, and the generator moves by the list's length |
| Codec.SaveLinesOfEncoded | src/Components/WavePlayer/WavePlayer.jsx:106-134 | the same starting from the lines |
| Codec.SplitPlayersText | src/Components/WavePlayer/WavePlayer.jsx:106 | splitting the text at line feeds gives the lines and a final empty line |
| Codec.SaveModalTextNormal | src/Components/WavePlayer/WavePlayer.jsx:100-137 | a successful save replaces the list and moves the generator |
| Codec.PlayersTextRoundTrip | src/Components/WavePlayer/WavePlayer.jsx:100-148 | saving the text of an encodable list gives the same players in the same order, with re-parsed steps and fresh consecutive ids |
| Playback.Duration | src/Components/WavePlayer/WavePlayer.jsx:80 | for a finite non-zero tempo and finite steps the slot is 60000 / tempo × steps; it is NaN exactly when either operand is NaN, both are infinite, or both are zero |
| Playback.Resume | src/Components/WavePlayer/WavePlayer.jsx:73-88 | a slot starts exactly when playback is on and there is a next player or a non-empty loop; that slot is the next player with its duration at the current tempo, that player is marked playing, and the run is suspended after it; with no slot the suspended runs are unchanged; playback never turns on; the tempo never changes |
| Playback.Step | src/Components/WavePlayer/WavePlayer.jsx:186-195 | an event only ever appends at most one slot; a new slot means playback is on; only a tempo event changes the tempo |
| Playback.PlayWhilePlaying | src/Components/WavePlayer/WavePlayer.jsx:186-188 | play while playing changes nothing |
| Playback.StopSeenAtNextSlot | src/Components/WavePlayer/WavePlayer.jsx:74-78 | stop only clears the flag; a run that wakes afterwards ends without starting a slot |
| Playback.TempoReadAtSlotStart | src/Components/WavePlayer/WavePlayer.jsx:80 | a tempo change sets the length of the next slot, not of the current one |
| Playback.LoopStartsOver | src/Components/WavePlayer/WavePlayer.jsx:84-85 | a looping run that has played its last player starts over from the first |
| Playback.EmptyLoopStaysOn | src/Components/WavePlayer/WavePlayer.jsx:84-85 | looping over an empty list leaves playback on with no slot |
| Playback.StopThenPlayKeepsOldRun | src/Components/WavePlayer/WavePlayer.jsx:186-195 | stop then play within one slot leaves two runs alive |
| Playback.LoneRunPlaysNext | src/Components/WavePlayer/WavePlayer.jsx:79-82 | a lone run that wakes before player j plays player j |
| Playback.LoneRunEnds | src/Components/WavePlayer/WavePlayer.jsx:87-88 | a lone non-looping run that wakes after its last player turns playback off |
| Playback.RunPlaysInOrder | src/Components/WavePlayer/WavePlayer.jsx:73-88 | an undisturbed run plays the remaining players in order, then turns playback off |
| Playback.PlayStartsFirstSlot | src/Components/WavePlayer/WavePlayer.jsx:186-191 | play with nothing playing starts the first slot at once |
| Playback.PlayNothing | src/Components/WavePlayer/WavePlayer.jsx:87-88 | play on an empty list turns playback off at once |
| Playback.PlayRunsToCompletion | src/Components/WavePlayer/WavePlayer.jsx:70-89 | play followed by every wake plays the whole list once, in order, with the right durations, and ends with playback off |
| Playback.DurationBounds | src/Components/WavePlayer/WavePlayer.jsx:80 | at 10 to 1000 BPM, a slot lasts between 60 and 6000 ms per step |
| Editor.Initial | src/Components/WaveEditor/WaveEditor.jsx:13-25 | on mount the lists are empty, note mode is on, and the frequency is the table entry for C5 |
| Editor.KnownPrefix | src/Components/WaveEditor/WaveEditor.jsx:53-54 | the longest prefix of the chord whose names all look up; the next name does not |
| Editor.KnownPrefixWhole | src/Components/WaveEditor/WaveEditor.jsx:53-54 | the whole chord looks up exactly when every note is known |
| Editor.ChordLoop | src/Components/WaveEditor/WaveEditor.jsx:53-59 | the chord loop pushes one component per known note, in order, onto the list and onto the waveform; it throws at the first unknown note; it never touches the waveform's `undoStack` |
| Editor.AddChord | src/Components/WaveEditor/WaveEditor.jsx:51-65 | the chord components reach the shown list and the waveform, in order, and the undo stack stays as it was; notes pushed before an unknown one stay |
| Editor.AddWave | src/Components/WaveEditor/WaveEditor.jsx:34-49 | while disabled, nothing changes; in chord mode the undo stack stays as it was; otherwise the same component goes onto the shown list, the undo stack and the waveform |
| Editor.SetChordWave | src/Components/WaveEditor/WaveEditor.jsx:79-92 | the waveform gains a 0 Hz component and then the chord; the shown list becomes exactly the chord components, and only if the whole loop succeeds |
| Editor.SetWave | src/Components/WaveEditor/WaveEditor.jsx:67-77 | while disabled, nothing changes; otherwise the shown list becomes the single current component while the waveform's list still grows |
| Editor.HandleNote | src/Components/WaveEditor/WaveEditor.jsx:112-121 | while disabled, nothing changes; the note is set; an unknown note throws with only the note changed; otherwise the frequency is the table entry and note mode is on |
| Editor.HandleChord | src/Components/WaveEditor/WaveEditor.jsx:123-141 | while disabled, nothing changes; it throws with nothing changed exactly when the current chord has an unknown note; otherwise chord mode is on with the new chord |
| Editor.HandleOctave | src/Components/WaveEditor/WaveEditor.jsx:143-158 | while disabled, nothing changes; an unknown current note throws first; otherwise the octave is set, and outside chord mode the frequency too; in chord mode an unknown chord note throws |
| Editor.Undo | src/Components/WaveEditor/WaveEditor.jsx:160-171 | while disabled, nothing changes; if the waveform does not throw, the top of the undo stack (`undefined` when empty) moves to the front of the redo queue; the shown list never changes |
| Editor.Redo | src/Components/WaveEditor/WaveEditor.jsx:173-184 | while disabled, nothing changes; if the waveform does not throw, the front of the redo queue (`undefined` when empty) goes onto the undo stack; the shown list never changes |
| Editor.AddToPlayer | src/Components/WaveEditor/WaveEditor.jsx:206-236 | exactly one player is appended, with a fresh id, steps 1 and the shown components; its label is `undefined` in chord mode, the note in note mode, and "wave" otherwise |
| Editor.AnimateStart | src/Components/WaveEditor/WaveEditor.jsx:241-248 | with components and not yet disabled, the editor becomes disabled; otherwise nothing changes |
| Editor.AnimateEnd | src/Components/WaveEditor/WaveEditor.jsx:249-251 | the waveform ends as the animation leaves it, and the editor is enabled again only if the animation did not throw |
| Editor.AnimationBlocksEditing | src/Components/WaveEditor/WaveEditor.jsx:35-36 | once an animation has started, every guarded handler leaves the editor unchanged |
| Editor.UndoLeavesShownList | src/Components/WaveEditor/WaveEditor.jsx:160-171 | add then undo takes the component off the waveform, but it stays in the shown list and moves to the redo queue |
| Editor.UndoThenRedoRestoresStacks | src/Components/WaveEditor/WaveEditor.jsx:160-184 | undo then redo restores the undo stack and the redo queue when the undo stack is non-empty |
| Editor.UndoneWavesReachPlayer | src/Components/WaveEditor/WaveEditor.jsx:206-211 | a player added after an undo or a redo holds the same components as one added before it |
| Editor.UndoOnEmptyQueuesUndefined | src/Components/WaveEditor/WaveEditor.jsx:165-167 | undo on an empty undo stack puts `undefined` at the front of the redo queue |
| Editor.UndoAfterChordMismatch | src/Components/WaveEditor/WaveEditor.jsx:51-65 | after adding a chord, undo takes the chord's last note off the waveform but queues the editor's previous single component for redo |
| Editor.Fmin7IsStuck | src/Components/WaveEditor/WaveEditor.jsx:123-141 | once Fmin7 is the current chord, every chord change throws, and adding it stops after three notes |
| Editor.FirstAddWave | src/Components/WaveEditor/WaveEditor.jsx:34-49 | starting from the app's mounted waveform, which already holds a 0 Hz sine, the first add puts a C5 sine on the shown list and the undo stack, and after the 0 Hz sine on the waveform |
| Editor.FirstUndoTakesMountWave | src/Components/WaveEditor/WaveEditor.jsx:160-171 | from the same start, a first undo takes the 0 Hz mount component off the waveform onto the waveform's undo stack, and queues `undefined` for redo, because the editor's own undo stack is empty |
| NumInput.ParsedInput | src/Components/DraggableNumInput/DraggableNumInput.jsx:53 | text that is not NaN under unary `+` becomes the `parseInt` result (finite or NaN); other text becomes "", which compares as 0 |
| NumInput.Clamp | src/Components/DraggableNumInput/DraggableNumInput.jsx:54-58 | above max gives max, below min gives min, and NaN or an in-range value passes through; the result lies in [min, max] when min ≤ max and it is not NaN |
| NumInput.DigitsInRangeKept | src/Components/DraggableNumInput/DraggableNumInput.jsx:52-59 | typed digits of an in-range number give that number |
| NumInput.DigitsAboveMaxClamped | src/Components/DraggableNumInput/DraggableNumInput.jsx:52-59 | typed digits above max give max |
| NumInput.EmptyInputGivesNaN | src/Components/DraggableNumInput/DraggableNumInput.jsx:52-59 | an emptied field gives NaN, which passes through the clamp |
| NumInput.TempoInputIsNumber | src/Components/DraggableNumInput/DraggableNumInput.jsx:52-58 | the tempo field always hands on a number: text that `isNaN` rejects becomes "", which compares as 0 and is raised to the minimum 10 |
| NumInput.TempoInputBounded | src/Components/DraggableNumInput/DraggableNumInput.jsx:52-59 | a tempo typed into the 10 to 1000 field is NaN or lies in that range, and then a slot lasts 60 to 6000 ms per step |
| NumInput.Shift | src/Components/DraggableNumInput/DraggableNumInput.jsx:35 | `value + diff` moves a finite value by diff and leaves NaN and the infinities as they are |
| NumInput.HandleDrag | src/Components/DraggableNumInput/DraggableNumInput.jsx:29-36 | the pointer position becomes the new reference; the shifted value is handed on exactly when the pointer moved at most 10 pixels and the value stays within [min, max] |
| NumInput.Drags | src/Components/DraggableNumInput/DraggableNumInput.jsx:25-38 | over any series of drags, a value that starts within [min, max] stays within them, a finite value stays finite, and NaN stays NaN |
| NumInput.DragsStayWhole | src/Components/DraggableNumInput/DraggableNumInput.jsx:25-38 | a whole starting value stays whole over any series of drags |
| NumInput.DragKeepsNaN | src/Components/DraggableNumInput/DraggableNumInput.jsx:33-35 | a small drag accepts NaN and hands NaN on |
| NumInput.HandleEnter | src/Components/DraggableNumInput/DraggableNumInput.jsx:40-45 | an empty field hands on min; the Enter key ends editing; the two are independent |
| NumInput.EnterOnEmptyWithin | src/Components/DraggableNumInput/DraggableNumInput.jsx:40-42 | with ordered limits, the value an empty field resets to lies within them |

## Left out

- Canvas drawing in `update` (src/Wave.ts:161-186) is a side effect. Only the "has a canvas" flag is modelled, because it decides whether `update` throws. A canvas whose 2D context is missing counts as no canvas.
- Float32 rounding is not modelled: samples are exact reals, or NaN where an `undefined` frequency enters.
- `Math.sin` and `Math.PI` are not modelled: the parameter `sine` stands for x ↦ sin(2πx).
- Sound output is not modelled. This covers `playWaves` (src/Utils.js:155-182), the editor's `play` (src/Components/WaveEditor/WaveEditor.jsx:186-204) and each player's `play` closure. They call Web Audio, which is outside the model, so `play` has no model and its disabled guard is not stated.
- Timers are not modelled. `setTimeout` and `await` in `playPlayers` and `playAnimation`, and the 5 ms spacing, become an order of events. Playback keeps the order of slots and their durations. The animation keeps its final state, split into a start event and an end event.
- The 4 ms debounce of `handleDrag` is not modelled: each drag event is one step. Reading a stale `currY` out of the closure is modelled as "the previous event's position".
- Editor.AddToPlayer: the conversion of a frequency to note text (src/Components/WaveEditor/WaveEditor.jsx:212-218) is the parameter `freqText`. It depends on float `includes` and `Math.log2`.
- Editor.AddToPlayer: the sample snapshot `waveform.copyWaveform()` is not stored, and neither is the `play` closure.
- The player record has no samples either. `copyWaveform`/`setWaveform` aliasing (src/Wave.ts:99-105) is reference behaviour, and a value model has none.
- The preview waveform of the editor is not state. A preview throws only for an unknown note name, and those throws are modelled where the source reaches them: in Editor.HandleNote through its own lookup, in Editor.HandleChord, where the preview of the current chord (src/Components/WaveEditor/WaveEditor.jsx:136) is the only lookup, and in Editor.HandleOctave in chord mode, where the chord preview (src/Components/WaveEditor/WaveEditor.jsx:152) throws after the octave lookup has succeeded. This assumes the preview has a canvas and the current type is valid.
- `handleFreq` and `handleType` (src/Components/WaveEditor/WaveEditor.jsx:94-110) are not modelled. `handleFreq` stores the input's text, a string, as the frequency (line 97), which `Freq` cannot hold, and turns both note mode and chord mode off (lines 98-99). It is the only way into the free-frequency branches of Editor.AddWave and Editor.SetWave and to the "wave" label of Editor.AddToPlayer; those members state these branches for any editor state, but no modelled handler leads there. `handleType` sets the type and, in chord mode, runs the chord preview (line 106), which throws after the type is set when the current chord has an unknown note; outside chord mode it only refreshes the preview.
- `notesOptions` (src/Utils.js:130-143) is dropdown data and is not modelled. Its "D" entry carries the value "F".
- Number formatting inside template literals (`${steps}`, `${freq}`) is the parameter `show`, a function from number to text.
- `-0` is not modelled.
- Case mapping covers ASCII letters only.
- A note name that is an inherited property of a plain object, such as "constructor", is not modelled. Every name that is not a key throws.
- Codec.SaveLines decodes every line before the loop body runs. `deformatWave` only reads its line, so this order gives the same result as the source's interleaving.
- Codec.SaveModalText: stopping playback first (src/Components/WavePlayer/WavePlayer.jsx:101-103) is the scheduler's `Stop` event and is not repeated here.
- Playback.Resume: looping over an empty list overflows the stack in the source. The model ends that run silently, with playback left on.
- Playback.Resume: a run keeps the player list it was started with, as a value. In the source the suspended `playPlayers` holds the very array that `handleSteps` (src/Components/Player/Player.jsx:32), `deletePlayer` (src/Components/Player/Player.jsx:24) `handleDragDrop` (src/Components/WavePlayer/WavePlayer.jsx:178-179) and `addToPlayer`'s `push` (src/Components/WaveEditor/WaveEditor.jsx:234) mutate in place, so an edit made during playback changes the steps, the players or their order that a running loop still has to play. That aliasing is not modelled; only the list replacement by `saveModalText`, which builds a new array, matches the source.
- The tempo reaches the scheduler as a number. Text that `isNaN` rejects turns into the string "" in `handleChangeInput`, but "" compares as 0 and is raised to the minimum (NumInput.TempoInputIsNumber), so a string never reaches `handleBPM`.
- The `min`/`max` defaults of `null` are not modelled. The tempo field, the one instance, passes 10 and 1000.
- React rendering, context plumbing, the modal, the drag bookkeeping (`handleDragStart`/`handleDragEnter`), `src/Components/DropDown/DropDown.jsx`, and the player-list state, context provider and layout of `src/App.jsx` are UI glue and are not modelled.
- Text outside the Basic Multilingual Plane is not modelled. A Dafny `char` is one Unicode scalar value, while JavaScript strings count UTF-16 code units. For a note text ending in such a character, `slice(-1)` and `slice(0, -1)` (src/Utils.js:12-13) split a surrogate pair in the source but not in Notes.GetFrequencyFromOctaveNote, and `length` and `split` differ the same way.
- IEEE-754 double rounding and overflow are not modelled: a finite number is an exact real. `parseFloat` of a steps field such as "1e400" (src/Components/WavePlayer/WavePlayer.jsx:126) and `parseInt` of a field of some 400 digits (src/Components/DraggableNumInput/DraggableNumInput.jsx:53) give Infinity in the source but a finite value here, and Playback.Duration computes `(60000 / BPM) * steps` (src/Components/WavePlayer/WavePlayer.jsx:80) without rounding either step.
- Codec.GetPlayersText: its own contract gives only the empty case, the final line feed and the line-feed count. Which lines the text holds, in which order, is stated by Codec.PlayersTextJoin.
- Editor.Initial takes its waveform as a parameter. The app mounts the editor first with `waveform` still `null` and hands it the mounted waveform (src/App.jsx:13-16, with its 0 Hz sine from `setWave(0, 'sine')` at src/App.jsx:14) only after the mount effect has run; that first `null` render is not modelled. The lemmas about the app's first edits start from Waveforms.Mounted.
