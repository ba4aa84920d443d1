/** The note and id utilities of src/Utils.js: the equal-temperament
    frequency table, the chord tables, the id generator, the octave-note
    lookup, and `getChordNameFromNotes` as it is written.
 */
module Notes {
  import opened Common
  import opened Oscillator
  import opened Numbers

  /** `notes`: note name |-> frequencies in Hz, indexed by octave. */
  const NoteTable: map<string, seq<real>> := map[
    "C" := [16.35, 32.7, 65.41, 130.81, 261.63, 523.25, 1046.5, 2093.0, 4186.01],
    "C#" := [17.32, 34.65, 69.3, 138.59, 277.18, 554.37, 1108.73, 2217.46, 4434.92],
    "D" := [18.35, 36.71, 73.42, 146.83, 293.66, 587.33, 1174.66, 2349.32, 4698.64],
    "D#" := [19.45, 38.89, 77.78, 155.56, 311.13, 622.25, 1244.51, 2489.02, 4978.03],
    "E" := [20.6, 41.2, 82.41, 164.81, 329.63, 659.26, 1318.51, 2637.02],
    "F" := [21.83, 43.65, 87.31, 174.61, 349.23, 698.46, 1396.91, 2793.83],
    "F#" := [23.12, 46.25, 92.5, 185.0, 369.99, 739.99, 1479.98, 2959.96],
    "G" := [24.5, 49.0, 98.0, 196.0, 392.0, 783.99, 1567.98, 3135.96],
    "G#" := [25.96, 51.91, 103.83, 207.65, 415.3, 830.61, 1661.22, 3322.44],
    "A" := [27.5, 55.0, 110.0, 220.0, 440.0, 880.0, 1760.0, 3520.0],
    "A#" := [29.14, 58.27, 116.54, 233.08, 466.16, 932.33, 1864.66, 3729.31],
    "B" := [30.87, 61.74, 123.47, 246.94, 493.88, 987.77, 1975.53, 3951.07]
  ]

  /** The twelve keys of `notes`, in the table's order. */
  const NoteNames: seq<string> := ["C", "C#", "D", "D#", "E", "F", "F#", "G", "G#", "A", "A#", "B"]

  predicate Increasing(row: seq<real>) {
    forall i :: 0 < i < |row| ==> row[i - 1] < row[i]
  }

  /** The keys of `notes` are the twelve note names. */
  lemma {:induction false} NoteTableKeys()
    ensures NoteTable.Keys == set n | n in NoteNames
  {
  }

  /** Every row is strictly increasing; C to D# cover octaves 0 to 8 and E
      to B octaves 0 to 7. */
  lemma {:induction false} NoteTableRows(n: string)
    requires n in NoteTable
    ensures Increasing(NoteTable[n])
    ensures |NoteTable[n]| == if n in ["C", "C#", "D", "D#"] then 9 else 8
  {
    assert n in NoteNames by { NoteTableKeys(); }
  }

  /** The A row is tuned to A4 = 440 Hz and doubles from octave to octave. */
  lemma {:induction false} ARowDoubles()
    ensures NoteTable["A"][4] == 440.0
    ensures forall i :: 0 < i < |NoteTable["A"]| ==> NoteTable["A"][i] == 2.0 * NoteTable["A"][i - 1]
  {
  }

  /** `notes[note][octave]`: reading the row of an unknown note name throws;
      an octave that is not an index of the row reads `undefined`. */
  function NoteFrequency(note: string, octave: int): (r: Result<Freq>)
    ensures r.Ok? <==> note in NoteTable
    ensures r.Ok? ==> (r.value.Hz? <==> 0 <= octave < |NoteTable[note]|)
    ensures r.Ok? && r.value.Hz? ==> r.value.hz == NoteTable[note][octave]
  {
    if note !in NoteTable then Err(UNDEFINED_PROPERTY)
    else if 0 <= octave < |NoteTable[note]| then Ok(Hz(NoteTable[note][octave]))
    else Ok(Undefined)
  }

  /** `getFrequencyFromOctaveNote(octaveNote)`: the last character is the
      octave (an array index only when it is a digit), everything before it
      is the note name. */
  function GetFrequencyFromOctaveNote(octaveNote: string): (r: Result<Freq>)
    ensures r.Ok? <==> |octaveNote| > 0 && octaveNote[..|octaveNote| - 1] in NoteTable
    ensures r.Ok? && r.value.Hz? ==>
      var row := NoteTable[octaveNote[..|octaveNote| - 1]];
      var c := octaveNote[|octaveNote| - 1];
      && IsDigitIn(c, 10)
      && DigitValue(c) < |row|
      && r.value.hz == row[DigitValue(c)]
  {
    var note := if |octaveNote| == 0 then "" else octaveNote[..|octaveNote| - 1];
    var octave := if |octaveNote| == 0 then "" else [octaveNote[|octaveNote| - 1]];
    if note !in NoteTable then Err(UNDEFINED_PROPERTY)
    else if |octave| == 1 && IsDigitIn(octave[0], 10) then NoteFrequency(note, DigitValue(octave[0]))
    else Ok(Undefined)
  }

  /** Reading a note name followed by an octave digit gives the table entry,
      or `undefined` past the end of the row. */
  lemma {:induction false} GetFrequencyOfNoteAndDigit(note: string, octave: nat)
    requires note in NoteTable && octave < 10
    ensures GetFrequencyFromOctaveNote(note + NatText(octave)) ==
      if octave < |NoteTable[note]| then Ok(Hz(NoteTable[note][octave])) else Ok(Undefined)
  {
    var s := note + NatText(octave);
    assert s[..|s| - 1] == note;
    assert s[|s| - 1] == '0' + octave as char;
  }

  lemma {:induction false} GetFrequencyExamples()
    ensures GetFrequencyFromOctaveNote("C#5") == Ok(Hz(554.37))
    ensures GetFrequencyFromOctaveNote("A4") == Ok(Hz(440.0))
    ensures GetFrequencyFromOctaveNote("E8") == Ok(Undefined)
    ensures GetFrequencyFromOctaveNote("Eb4").Err?
    ensures GetFrequencyFromOctaveNote("").Err?
  {
    GetFrequencyOfNoteAndDigit("C#", 5);
    GetFrequencyOfNoteAndDigit("A", 4);
    GetFrequencyOfNoteAndDigit("E", 8);
    assert "C#" + NatText(5) == "C#5";
    assert "A" + NatText(4) == "A4";
    assert "E" + NatText(8) == "E8";
    assert "Eb4"[..2] == "Eb";
  }

  /** One chord: its name and its note names. */
  datatype Chord = Chord(name: string, notes: seq<string>)

  /** One entry of `chords`: a category name and its chords, in order. */
  datatype Category = Category(name: string, chords: seq<Chord>)

  const Chords: seq<Category> := [
    Category("major", [
      Chord("Cmaj", ["C", "E", "G"]), Chord("C#maj", ["C#", "F", "G#"]),
      Chord("Dmaj", ["D", "F#", "A"]), Chord("D#maj", ["D#", "G", "A#"]),
      Chord("Emaj", ["E", "G#", "B"]), Chord("Fmaj", ["F", "A", "C"]),
      Chord("F#maj", ["F#", "A#", "C#"]), Chord("Gmaj", ["G", "B", "D"]),
      Chord("G#maj", ["G#", "C", "D#"]), Chord("Amaj", ["A", "C#", "E"]),
      Chord("A#maj", ["A#", "D", "F"]), Chord("Bmaj", ["B", "D#", "F#"])]),
    Category("minor", [
      Chord("Cmin", ["C", "D#", "G"]), Chord("Cmin#", ["C#", "E", "G#"]),
      Chord("Dmin", ["D", "F", "A"]), Chord("D#min", ["D#", "F#", "A#"]),
      Chord("Emin", ["E", "G", "B"]), Chord("Fmin", ["F", "G#", "C"]),
      Chord("F#min", ["F#", "A", "C#"]), Chord("Gmin", ["G", "A#", "D"]),
      Chord("G#min", ["G#", "B", "D#"]), Chord("Amin", ["A", "C", "E"]),
      Chord("A#min", ["A#", "C#", "F"]), Chord("Bmin", ["B", "D", "F#"])]),
    Category("major7th", [
      Chord("Cmaj7", ["C", "E", "G", "B"]), Chord("C#maj7", ["C#", "F", "G#", "C"]),
      Chord("Dmaj7", ["D", "F#", "A", "C#"]), Chord("D#maj7", ["D#", "G", "A#", "D"]),
      Chord("Emaj7", ["E", "G#", "B", "D#"]), Chord("Fmaj7", ["F", "A", "C", "E"]),
      Chord("F#maj7", ["F#", "A#", "C#", "F"]), Chord("Gmaj7", ["G", "B", "D", "F#"]),
      Chord("G#maj7", ["G#", "C", "D#", "G"]), Chord("Amaj7", ["A", "C#", "E", "G#"]),
      Chord("A#maj7", ["A#", "D", "F", "A"]), Chord("Bmja7", ["B", "D#", "F#", "A#"])]),
    Category("minor7th", [
      Chord("Cmin7", ["C", "D#", "G", "A#"]), Chord("C#min7", ["C#", "E", "G#", "B"]),
      Chord("Dmin7", ["D", "F", "A", "C"]), Chord("D#min7", ["D#", "F#", "A#", "C#"]),
      Chord("Emin7", ["E", "G", "B", "D"]), Chord("Fmin7", ["F", "G#", "C", "Eb"]),
      Chord("F#min7", ["F#", "A", "C#", "E"]), Chord("Gmin7", ["G", "A#", "D", "F"]),
      Chord("G#min7", ["G#", "B", "D#", "G"]), Chord("Amin7", ["A", "C", "E", "G"]),
      Chord("A#min7", ["A#", "C#", "F", "G#"]), Chord("Bmin7", ["B", "D", "F#", "A"])])
  ]

  predicate NotesKnown(c: Chord) {
    forall j :: 0 <= j < |c.notes| ==> c.notes[j] in NoteTable
  }

  /** Every chord's note names are keys of `notes`, except the "Eb" of
      Fmin7, whose frequency lookup therefore throws. */
  lemma {:induction false} ChordNotesKnown()
    ensures forall k, i :: 0 <= k < |Chords| && 0 <= i < |Chords[k].chords| && Chords[k].chords[i].name != "Fmin7" ==>
      NotesKnown(Chords[k].chords[i])
    ensures Chords[3].chords[5] == Chord("Fmin7", ["F", "G#", "C", "Eb"]) && "Eb" !in NoteTable
  {
    forall k, i | 0 <= k < |Chords| && 0 <= i < |Chords[k].chords| && Chords[k].chords[i].name != "Fmin7"
      ensures NotesKnown(Chords[k].chords[i])
    {
      assert k == 0 || k == 1 || k == 2 || k == 3;
    }
  }

  /** The values `JSON.stringify` is applied to. Two values stringify alike
      exactly when they are equal, so the comparison of their texts is
      modelled as equality of values. */
  datatype Json = JStr(s: string) | JArr(items: seq<Json>) | JObj(fields: seq<(string, Json)>)

  function NoteList(notes: seq<string>): Json {
    JArr(seq(|notes|, i requires 0 <= i < |notes| => JStr(notes[i])))
  }

  function ChordTable(chords: seq<Chord>): Json {
    JObj(seq(|chords|, i requires 0 <= i < |chords| => (chords[i].name, NoteList(chords[i].notes))))
  }

  /** `Object.entries(chords)`: one `[category, table]` pair per category. */
  function CategoryEntries(): seq<Json> {
    seq(|Chords|, k requires 0 <= k < |Chords| => JArr([JStr(Chords[k].name), ChordTable(Chords[k].chords)]))
  }

  /** `Object.entries(x)`: (key, value) pairs; the keys of an array are its
      indices as strings. */
  function Entries(x: Json): seq<(string, Json)> {
    match x
    case JObj(fields) => fields
    case JArr(items) => seq(|items|, i requires 0 <= i < |items| => (NatText(i), items[i]))
    case JStr(s) => seq(|s|, i requires 0 <= i < |s| => (NatText(i), JStr([s[i]])))
  }

  /** The inner loop: the first entry whose value equals `selected`. */
  function FindEntry(entries: seq<(string, Json)>, selected: Json): (r: Option<string>)
    ensures r.Some? <==> exists i :: 0 <= i < |entries| && entries[i].1 == selected
    decreases |entries|
  {
    if |entries| == 0 then None
    else if entries[0].1 == selected then Some(entries[0].0)
    else
      var r := FindEntry(entries[1..], selected);
      assert forall i :: 1 <= i < |entries| ==> entries[i] == entries[1..][i - 1];
      r
  }

  /** The outer loop over the category pairs. */
  function SearchCategories(pairs: seq<Json>, selected: Json): Option<string>
    decreases |pairs|
  {
    if |pairs| == 0 then None
    else
      match FindEntry(Entries(pairs[0]), selected)
      case Some(name) => Some(name)
      case None => SearchCategories(pairs[1..], selected)
  }

  /** `getChordNameFromNotes(selectedNotes)` as written: because the outer
      loop walks `[category, table]` pairs, the inner loop compares against
      a category name and a whole table, never a chord's notes. */
  function GetChordNameFromNotes(selected: Json): (r: Option<string>)
    ensures r.Some? ==> exists k :: 0 <= k < |Chords| && (selected == JStr(Chords[k].name) || selected == ChordTable(Chords[k].chords))
    ensures selected.JArr? ==> r == None
  {
    SearchMeetsOnlyPairs(CategoryEntries(), selected);
    SearchCategories(CategoryEntries(), selected)
  }

  lemma {:induction false} SearchMeetsOnlyPairs(pairs: seq<Json>, selected: Json)
    requires forall k :: 0 <= k < |pairs| ==> pairs[k].JArr? && |pairs[k].items| == 2
    ensures SearchCategories(pairs, selected).Some? <==>
      exists k :: 0 <= k < |pairs| && (selected == pairs[k].items[0] || selected == pairs[k].items[1])
    decreases |pairs|
  {
    if |pairs| > 0 {
      var e := Entries(pairs[0]);
      assert e[0].1 == pairs[0].items[0] && e[1].1 == pairs[0].items[1];
      SearchMeetsOnlyPairs(pairs[1..], selected);
      assert forall k :: 1 <= k < |pairs| ==> pairs[k] == pairs[1..][k - 1];
    }
  }

  /** It finds something only for a category name or a whole category
      table; for every array of note names, in particular every chord of
      the tables, it returns `undefined`. */
  lemma {:induction false} ChordNameNeverFound(selected: Json)
    ensures GetChordNameFromNotes(selected).Some? <==>
      exists k :: 0 <= k < |Chords| && (selected == JStr(Chords[k].name) || selected == ChordTable(Chords[k].chords))
    ensures selected.JArr? ==> GetChordNameFromNotes(selected) == None
  {
    SearchMeetsOnlyPairs(CategoryEntries(), selected);
  }

  lemma {:induction false} ChordNameOfCmaj()
    ensures GetChordNameFromNotes(NoteList(["C", "E", "G"])) == None
    ensures GetChordNameFromNotes(JStr("major")) == Some("0")
  {
    ChordNameNeverFound(NoteList(["C", "E", "G"]));
    var pairs := CategoryEntries();
    assert Entries(pairs[0])[0] == ("0", JStr("major"));
  }

  /** The state of the `incrementID` generator: the next id it yields. */
  datatype IdGen = IdGen(next: nat)

  const FreshIdGen: IdGen := IdGen(2)

  /** `idgen.next().value`, with the advanced generator. */
  function NextId(g: IdGen): (r: (nat, IdGen))
    ensures r.1.next == r.0 + 1 && r.0 == g.next
  {
    (g.next, IdGen(g.next + 1))
  }

  /** The first `n` ids a generator yields. */
  function TakeIds(g: IdGen, n: nat): (ids: seq<nat>)
    ensures |ids| == n
    decreases n
  {
    if n == 0 then [] else [NextId(g).0] + TakeIds(NextId(g).1, n - 1)
  }

  /** The generator yields 2, 3, 4, ...: each id is one more than the one
      before, so no id repeats. */
  lemma {:induction false} IdsCount(g: IdGen, n: nat)
    ensures forall i :: 0 <= i < n ==> TakeIds(g, n)[i] == g.next + i
    decreases n
  {
    if n > 0 {
      IdsCount(NextId(g).1, n - 1);
    }
  }

  lemma {:induction false} FreshIds(n: nat)
    ensures forall i :: 0 <= i < n ==> TakeIds(FreshIdGen, n)[i] == 2 + i
    ensures forall i, j :: 0 <= i < j < n ==> TakeIds(FreshIdGen, n)[i] < TakeIds(FreshIdGen, n)[j]
  {
    IdsCount(FreshIdGen, n);
  }
}
