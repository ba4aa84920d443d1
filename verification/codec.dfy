/** The player-list text format of src/Components/WavePlayer/WavePlayer.jsx:
    one line per player, `"<freq> <type>,"` per component followed by
    `" <steps>, <label>\n"`; its parser `deformatWave`; the line loop of
    `saveModalText`; and `getPlayersText`.
 */
module Codec {
  import opened Common
  import opened Text
  import opened Numbers
  import opened Oscillator
  import opened Notes
  import opened Players

  /** `${freq} ${type}`: one component's field, without its comma. */
  function WaveField(w: TextWave): string {
    w.freq + " " + w.kind
  }

  /** The component fields of a line, in order. */
  function WaveFields(ws: seq<TextWave>): (fs: seq<string>)
    ensures |fs| == |ws|
    ensures forall i :: 0 <= i < |ws| ==> fs[i] == WaveField(ws[i])
  {
    seq(|ws|, i requires 0 <= i < |ws| => WaveField(ws[i]))
  }

  /** The `forEach` of `formatWave`: every component's field followed by a
      comma. */
  function FormatWaves(ws: seq<TextWave>): string
    decreases |ws|
  {
    if |ws| == 0 then "" else WaveField(ws[0]) + "," + FormatWaves(ws[1..])
  }

  /** A line without its line feed. */
  function FormatLine(ws: seq<TextWave>, stepsText: string, labelText: string): string {
    FormatWaves(ws) + " " + stepsText + ", " + labelText
  }

  /** `formatWave(wave, steps, label)`, with `steps` already turned into
      text. The comma fields of the line are the component fields, then
      `" " + steps`, then `" " + label`. */
  function FormatWave(ws: seq<TextWave>, stepsText: string, labelText: string): (r: string)
    ensures |r| > 0 && r[|r| - 1] == '\n'
    ensures r[..|r| - 1] == Join(WaveFields(ws) + [" " + stepsText, " " + labelText], ',')
  {
    var line := FormatLine(ws, stepsText, labelText);
    FormatJoin(ws, stepsText, labelText);
    assert (line + "\n")[..|line|] == line;
    line + "\n"
  }

  lemma {:induction false} FormatWavesJoin(ws: seq<TextWave>, rest: seq<string>)
    requires |rest| >= 1
    ensures FormatWaves(ws) + Join(rest, ',') == Join(WaveFields(ws) + rest, ',')
    decreases |ws|
  {
    if |ws| > 0 {
      FormatWavesJoin(ws[1..], rest);
      var parts := WaveFields(ws) + rest;
      assert parts[0] == WaveField(ws[0]);
      assert parts[1..] == WaveFields(ws[1..]) + rest;
    } else {
      assert WaveFields(ws) + rest == rest;
    }
  }

  lemma {:induction false} FormatJoin(ws: seq<TextWave>, stepsText: string, labelText: string)
    ensures FormatLine(ws, stepsText, labelText) == Join(WaveFields(ws) + [" " + stepsText, " " + labelText], ',')
  {
    var tail := [" " + stepsText, " " + labelText];
    assert tail[1..] == [" " + labelText];
    assert Join(tail, ',') == " " + stepsText + "," + " " + labelText;
    FormatWavesJoin(ws, tail);
  }

  /** The parsed form of one line: `steps` is `None` when it is
      `undefined`. */
  datatype Decoded = Decoded(steps: Option<string>, waves: seq<TextWave>, labelText: string)

  /** One component field: the first space-separated word upper-cased is
      the frequency, the second lower-cased is the type ("sine" when it is
      missing or empty). */
  function ParseField(token: string): (w: TextWave)
    ensures var words := Split(Trim(token), ' ');
      && w.freq == Upper(words[0])
      && w.kind == (if |words| > 1 && words[1] != "" then Lower(words[1]) else "sine")
    ensures w.kind != ""
    ensures forall i :: 0 <= i < |w.freq| ==> !('a' <= w.freq[i] <= 'z')
    ensures forall i :: 0 <= i < |w.kind| ==> !('A' <= w.kind[i] <= 'Z')
  {
    var sub := Split(Trim(token), ' ');
    var kind := if |sub| > 1 && sub[1] != "" then Lower(sub[1]) else "sine";
    TextWave(Upper(sub[0]), kind)
  }

  /** The components of the first `n` fields of a line. */
  function ParseFields(tokens: seq<string>, n: nat): (ws: seq<TextWave>)
    requires n <= |tokens|
    ensures |ws| == n
    ensures forall i :: 0 <= i < n ==> ws[i] == ParseField(tokens[i])
  {
    seq(n, i requires 0 <= i < n => ParseField(tokens[i]))
  }

  /** `!isNaN(parseFloat(x))`, stated through what `parseFloat` looks at
      (see `NumericIsParseFloat`). */
  predicate Numeric(x: string) {
    HasNumericPrefix(x)
  }

  lemma {:induction false} NumericIsParseFloat(x: string)
    ensures Numeric(x) <==> !ParseFloat(x).NaN?
  {
    ParseFloatNaN(x);
  }

  /** The test of `deformatWave` that decides that a line has no label:
      its last comma field, trimmed, is numeric and the one before it,
      trimmed, is not. */
  predicate HasNoLabel(fields: seq<string>)
    requires |fields| >= 1
  {
    |fields| >= 2 && Numeric(Trim(fields[|fields| - 1])) && !Numeric(Trim(fields[|fields| - 2]))
  }

  /** `deformatWave` after its `split(",")`. The last field, trimmed, is
      the label unless the line has no label, in which case it is the
      steps and the label is "Wave"; otherwise the field before it,
      untrimmed, is the steps. Every other field is one component. A single
      numeric field throws, because the field before it does not exist. */
  function DecodeFields(fields: seq<string>): (r: Result<Decoded>)
    requires |fields| >= 1
    ensures r.Err? <==> |fields| == 1 && Numeric(Trim(fields[0]))
    ensures r.Ok? && HasNoLabel(fields) ==>
      && r.value.labelText == "Wave"
      && r.value.steps == Some(Trim(fields[|fields| - 1]))
      && |r.value.waves| == |fields| - 1
    ensures r.Ok? && !HasNoLabel(fields) ==>
      && r.value.labelText == Trim(fields[|fields| - 1])
      && r.value.steps == (if |fields| >= 2 then Some(fields[|fields| - 2]) else None)
      && |r.value.waves| == (if |fields| >= 2 then |fields| - 2 else 0)
    ensures r.Ok? ==> forall i :: 0 <= i < |r.value.waves| ==> r.value.waves[i] == ParseField(fields[i])
  {
    var labelText := Trim(fields[|fields| - 1]);
    if Numeric(labelText) && |fields| == 1 then Err(UNDEFINED_PROPERTY)
    else if Numeric(labelText) && !Numeric(Trim(fields[|fields| - 2])) then
      Ok(Decoded(Some(labelText), ParseFields(fields, |fields| - 1), "Wave"))
    else if |fields| == 1 then Ok(Decoded(None, [], labelText))
    else Ok(Decoded(Some(fields[|fields| - 2]), ParseFields(fields, |fields| - 2), labelText))
  }

  /** `deformatWave(formatted)`: it throws exactly for a comma-free line
      whose text is numeric, and otherwise yields one component per comma
      when the line has no label and one fewer (none for a comma-free line)
      when it has one. */
  function DeformatWave(line: string): (r: Result<Decoded>)
    ensures r.Err? <==> Count(line, ',') == 0 && Numeric(Trim(line))
    ensures r.Ok? ==>
      |r.value.waves| == (if HasNoLabel(Split(line, ',')) then Count(line, ',') else if Count(line, ',') == 0 then 0 else Count(line, ',') - 1)
  {
    DecodeFields(Split(line, ','))
  }

  /** What the line loop needs of a component to accept it: a known note
      name before the octave character, and a valid wave type. */
  predicate Playable(w: TextWave) {
    GetFrequencyFromOctaveNote(w.freq).Ok? && w.kind in KindNames
  }

  /** The `waves.forEach` of the line loop: the note lookup, then the
      type check of `waveform.addWave`, for each component in order. The
      buffer of the player's headless waveform is not modelled. */
  function CheckWaves(ws: seq<TextWave>): (r: Result<()>)
    ensures r.Ok? <==> forall i :: 0 <= i < |ws| ==> Playable(ws[i])
    decreases |ws|
  {
    if |ws| == 0 then Ok(())
    else
      match GetFrequencyFromOctaveNote(ws[0].freq)
      case Err(e) => Err(e)
      case Ok(freq) =>
        match GetWaveFunction(freq, 0.1, ws[0].kind)
        case Err(e) => Err(e)
        case Ok(_) =>
          assert forall i :: 1 <= i < |ws| ==> ws[i] == ws[1..][i - 1];
          CheckWaves(ws[1..])
  }

  /** What one iteration of the loop does with a line before any id is
      taken: skip it, make a player from it, or throw. */
  datatype LineOutcome =
    | Skip
    | Make(labelText: string, steps: Number, waves: seq<TextWave>)
    | Fail(error: string)

  /** A line that throws in the loop: `deformatWave` threw on it, or one of
      its components has an unknown note name or wave type. */
  predicate LineFails(d: Result<Decoded>) {
    d.Err? || exists i :: 0 <= i < |d.value.waves| && !Playable(d.value.waves[i])
  }

  /** The id-free part of one iteration, given what `deformatWave` returned
      for the line: a line with no components is skipped; an unknown note
      name or wave type throws; otherwise a player is made with the decoded
      label and components and `parseFloat(steps)`. */
  function Outcome(d: Result<Decoded>): (o: LineOutcome)
    ensures o.Fail? <==> LineFails(d)
    ensures o.Skip? ==> d.Ok? && |d.value.waves| == 0
    ensures o.Make? ==>
      && d.Ok?
      && o == Make(d.value.labelText, ParseFloat(d.value.steps.GetOr("undefined")), d.value.waves)
      && |o.waves| > 0
  {
    match d
    case Err(e) => Fail(e)
    case Ok(d) =>
      if |d.waves| == 0 then Skip
      else
        match CheckWaves(d.waves)
        case Err(e) => Fail(e)
        case Ok(_) => Make(d.labelText, ParseFloat(d.steps.GetOr("undefined")), d.waves)
  }

  /** The rest of the iteration: a made player takes exactly one id. */
  function TakeId(o: LineOutcome, ids: IdGen): (c: Completion<(Option<Player>, IdGen)>)
    ensures c.Thrown? <==> o.Fail?
    ensures c.state.0.Some? <==> o.Make?
    ensures c.state.0.None? ==> c.state.1 == ids
    ensures c.state.0.Some? ==>
      && c.state.0.value == Player(ids.next, Some(o.labelText), o.steps, o.waves)
      && c.state.1.next == ids.next + 1
  {
    match o
    case Skip => Normal((None, ids))
    case Fail(e) => Thrown((None, ids), e)
    case Make(labelText, steps, waves) =>
      var (id, ids') := NextId(ids);
      Normal((Some(Player(id, Some(labelText), steps, waves)), ids'))
  }

  /** One iteration of the loop, given what `deformatWave` returned for
      the line: a line with no components is skipped; an unknown note name
      or wave type throws before an id is taken; otherwise exactly one id
      is taken for a player with the decoded label and components and
      `parseFloat(steps)`. */
  function MakePlayer(d: Result<Decoded>, ids: IdGen): (c: Completion<(Option<Player>, IdGen)>)
    ensures c.Thrown? <==> d.Err? || exists i :: 0 <= i < |d.value.waves| && !Playable(d.value.waves[i])
    ensures c.Thrown? ==> c.state.1 == ids
    ensures c.Normal? && c.state.0.None? ==> c.state.1 == ids && |d.value.waves| == 0
    ensures c.Normal? && c.state.0.Some? ==>
      && c.state.0.value == Player(ids.next, Some(d.value.labelText), ParseFloat(d.value.steps.GetOr("undefined")), d.value.waves)
      && c.state.1.next == ids.next + 1
      && |c.state.0.value.waves| > 0
  {
    TakeId(Outcome(d), ids)
  }

  /** The players of `ps` carry the ids `start`, `start + 1`, ... in order. */
  predicate Numbered(ps: seq<Player>, start: nat) {
    forall i :: 0 <= i < |ps| ==> ps[i].id == start + i
  }

  /** `deformatWave` of each line, in order. The function only reads its
      line and throws or returns, so decoding every line before the loop
      body runs changes nothing. */
  function DecodeLines(lines: seq<string>): (ds: seq<Result<Decoded>>)
    ensures |ds| == |lines|
    ensures forall i :: 0 <= i < |lines| ==> ds[i] == DeformatWave(lines[i])
  {
    seq(|lines|, i requires 0 <= i < |lines| => DeformatWave(lines[i]))
  }

  /** The id-free outcome of each decoded line, in order. */
  function Outcomes(ds: seq<Result<Decoded>>): (os: seq<LineOutcome>)
    ensures |os| == |ds|
    ensures forall i :: 0 <= i < |ds| ==> os[i] == Outcome(ds[i])
  {
    seq(|ds|, i requires 0 <= i < |ds| => Outcome(ds[i]))
  }

  /** The outcomes from `k` on that make a player, in order. */
  function Makes(os: seq<LineOutcome>, k: nat): (ms: seq<LineOutcome>)
    requires k <= |os|
    ensures |ms| <= |os| - k
    ensures forall j :: 0 <= j < |ms| ==> ms[j].Make?
    decreases |os| - k
  {
    if k == |os| then []
    else if os[k].Make? then [os[k]] + Makes(os, k + 1)
    else Makes(os, k + 1)
  }

  /** The loop from line `k` on. It throws exactly when some line from `k`
      on fails, abandoning the new list but not the ids already taken.
      Otherwise the new players are the lines that make a player, in line
      order, the `j`-th with id `ids.next + j`, and the generator has moved
      past the last of them. */
  function SaveFrom(os: seq<LineOutcome>, k: nat, ids: IdGen): (c: Completion<(seq<Player>, IdGen)>)
    requires k <= |os|
    ensures c.state.1.next >= ids.next
    ensures c.Thrown? <==> exists i :: k <= i < |os| && os[i].Fail?
    ensures c.Normal? ==>
      && c.state.1.next == ids.next + |c.state.0|
      && |c.state.0| == |Makes(os, k)|
      && forall j :: 0 <= j < |c.state.0| ==>
           c.state.0[j] == Player(ids.next + j, Some(Makes(os, k)[j].labelText), Makes(os, k)[j].steps, Makes(os, k)[j].waves)
    decreases |os| - k
  {
    if k == |os| then Normal(([], ids))
    else
      match TakeId(os[k], ids)
      case Thrown((_, ids1), e) => Thrown(([], ids1), e)
      case Normal((p, ids1)) =>
        match SaveFrom(os, k + 1, ids1)
        case Thrown((_, ids2), e) => Thrown(([], ids2), e)
        case Normal((ps, ids2)) =>
          if p.None? then Normal((ps, ids2)) else Normal(([p.value] + ps, ids2))
  }

  /** The whole loop over the decoded lines: it throws exactly when some
      line fails; otherwise the new players are, in line order, the
      players the non-empty lines make, under consecutive ids from
      `ids.next`. */
  function SaveDecoded(ds: seq<Result<Decoded>>, ids: IdGen): (c: Completion<(seq<Player>, IdGen)>)
    ensures c.state.1.next >= ids.next
    ensures c.Thrown? <==> exists i :: 0 <= i < |ds| && LineFails(ds[i])
    ensures c.Normal? ==>
      && c.state.1.next == ids.next + |c.state.0|
      && Numbered(c.state.0, ids.next)
      && |c.state.0| <= |ds|
    ensures c.Normal? ==>
      var ms := Makes(Outcomes(ds), 0);
      && |c.state.0| == |ms|
      && forall j :: 0 <= j < |ms| ==>
           c.state.0[j] == Player(ids.next + j, Some(ms[j].labelText), ms[j].steps, ms[j].waves)
  {
    var os := Outcomes(ds);
    assert (exists i :: 0 <= i < |os| && os[i].Fail?) <==> (exists i :: 0 <= i < |ds| && LineFails(ds[i]));
    SaveFrom(os, 0, ids)
  }

  /** The loop of `saveModalText` over all lines: it throws exactly when
      some line fails, and otherwise makes the players of the non-empty
      lines, in order, under consecutive ids. */
  function SaveLines(lines: seq<string>, ids: IdGen): (c: Completion<(seq<Player>, IdGen)>)
    ensures c.state.1.next >= ids.next
    ensures c.Thrown? <==> exists i :: 0 <= i < |lines| && LineFails(DecodeLines(lines)[i])
    ensures c.Normal? ==>
      var ms := Makes(Outcomes(DecodeLines(lines)), 0);
      && |c.state.0| == |ms|
      && forall j :: 0 <= j < |ms| ==>
           c.state.0[j] == Player(ids.next + j, Some(ms[j].labelText), ms[j].steps, ms[j].waves)
    ensures c.Normal? ==>
      && c.state.1.next == ids.next + |c.state.0|
      && Numbered(c.state.0, ids.next)
      && |c.state.0| <= |lines|
  {
    SaveDecoded(DecodeLines(lines), ids)
  }

  /** The list and id generator after `saveModalText`: the lines of the
      text become the new list; a throw leaves the old list in place, with
      the ids taken before it spent. (Stopping playback first is the
      scheduler's `Stop`.) */
  function SaveModalText(text: string, players: seq<Player>, ids: IdGen): (c: Completion<(seq<Player>, IdGen)>)
    ensures c.Thrown? ==> c.state.0 == players && c.state.1.next >= ids.next
    ensures c.Normal? ==>
      && c.state.1.next == ids.next + |c.state.0|
      && UniqueIds(c.state.0)
      && |c.state.0| <= Count(text, '\n') + 1
  {
    match SaveLines(Split(text, '\n'), ids)
    case Thrown((_, ids'), e) => Thrown((players, ids'), e)
    case Normal((ps, ids')) => Normal((ps, ids'))
  }

  /** `${label}`. */
  function LabelString(labelText: Option<string>): string {
    labelText.GetOr("undefined")
  }

  /** One player's line; `show` is the number-to-text conversion of the
      template literal. */
  function PlayerLine(p: Player, show: Number -> string): string {
    FormatLine(p.waves, show(p.steps), LabelString(p.labelText))
  }

  /** `getPlayersText`: every player's `formatWave`, in list order. */
  function GetPlayersText(players: seq<Player>, show: Number -> string): (r: string)
    ensures Count(r, '\n') >= |players|
    ensures r == "" <==> |players| == 0
    ensures |players| > 0 ==> r[|r| - 1] == '\n'
    decreases |players|
  {
    if |players| == 0 then ""
    else
      var first := FormatWave(players[0].waves, show(players[0].steps), LabelString(players[0].labelText));
      CountAppend(first, GetPlayersText(players[1..], show), '\n');
      assert first[|first| - 1] == '\n';
      CountLast(first, '\n');
      first + GetPlayersText(players[1..], show)
  }

  lemma {:induction false} CountAppend(a: string, b: string, c: char)
    ensures Count(a + b, c) == Count(a, c) + Count(b, c)
    decreases |a|
  {
    if |a| > 0 {
      assert (a + b)[1..] == a[1..] + b;
      CountAppend(a[1..], b, c);
    } else {
      assert a + b == b;
    }
  }

  lemma {:induction false} CountLast(a: string, c: char)
    requires |a| > 0 && a[|a| - 1] == c
    ensures Count(a, c) >= 1
  {
    assert a == a[..|a| - 1] + [c];
    CountAppend(a[..|a| - 1], [c], c);
  }

  /** A component whose field reads back as itself: non-empty words with no
      whitespace or comma, the frequency already upper case and the type
      lower case. */
  predicate FieldSafe(w: TextWave) {
    && |w.freq| > 0 && |w.kind| > 0
    && HasNoWhitespace(w.freq) && HasNoWhitespace(w.kind)
    && ',' !in w.freq && ',' !in w.kind
    && Upper(w.freq) == w.freq && Lower(w.kind) == w.kind
  }

  /** A steps text and label that read back as themselves. */
  predicate TailSafe(stepsText: string, labelText: string) {
    && ',' !in stepsText && ',' !in labelText
    && Trim(stepsText) == stepsText && Trim(labelText) == labelText
    && (Numeric(stepsText) || !Numeric(labelText))
  }

  lemma {:induction false} ParseFieldRoundTrip(w: TextWave)
    requires FieldSafe(w)
    ensures ParseField(WaveField(w)) == w
  {
    var f := WaveField(w);
    assert f[0] == w.freq[0] && f[|f| - 1] == w.kind[|w.kind| - 1];
    TrimUnchanged(f);
    assert IsWhitespace(' ');
    SplitOfPrefixed(w.freq, ' ', w.kind);
    SplitOfSeparatorFree(w.kind, ' ');
    assert f == w.freq + [' '] + w.kind;
  }

  lemma {:induction false} TrimLeadingSpace(s: string)
    requires Trim(s) == s
    ensures Trim(" " + s) == s
  {
    TrimSpacePrefix(s);
    assert " " + s == [' '] + s;
  }

  lemma {:induction false} FieldsSeparatorFree(ws: seq<TextWave>)
    requires forall i :: 0 <= i < |ws| ==> FieldSafe(ws[i])
    ensures forall i :: 0 <= i < |WaveFields(ws)| ==> ',' !in WaveFields(ws)[i]
  {
    forall i | 0 <= i < |ws|
      ensures ',' !in WaveFields(ws)[i]
    {
      assert WaveFields(ws)[i] == ws[i].freq + " " + ws[i].kind;
    }
  }

  /** The comma fields of a line whose parts have no comma. */
  function LineParts(ws: seq<TextWave>, stepsText: string, labelText: string): (parts: seq<string>)
    ensures |parts| == |ws| + 2
  {
    WaveFields(ws) + [" " + stepsText, " " + labelText]
  }

  lemma {:induction false} SplitOfLine(ws: seq<TextWave>, stepsText: string, labelText: string)
    requires forall i :: 0 <= i < |ws| ==> FieldSafe(ws[i])
    requires ',' !in stepsText && ',' !in labelText
    ensures Split(FormatLine(ws, stepsText, labelText), ',') == LineParts(ws, stepsText, labelText)
  {
    var parts := LineParts(ws, stepsText, labelText);
    FormatJoin(ws, stepsText, labelText);
    FieldsSeparatorFree(ws);
    forall i | 0 <= i < |parts|
      ensures ',' !in parts[i]
    {
      if i >= |ws| {
        assert parts[i] == " " + stepsText || parts[i] == " " + labelText;
      } else {
        assert parts[i] == WaveFields(ws)[i];
      }
    }
    SplitJoin(parts, ',');
  }

  lemma {:induction false} ParseFieldsRoundTrip(ws: seq<TextWave>)
    requires forall i :: 0 <= i < |ws| ==> FieldSafe(ws[i])
    ensures ParseFields(WaveFields(ws), |ws|) == ws
  {
    forall i | 0 <= i < |ws|
      ensures ParseFields(WaveFields(ws), |ws|)[i] == ws[i]
    {
      ParseFieldRoundTrip(ws[i]);
    }
  }

  lemma {:induction false} LinePartsTail(ws: seq<TextWave>, stepsText: string, labelText: string)
    requires TailSafe(stepsText, labelText)
    ensures var parts := LineParts(ws, stepsText, labelText);
            && Trim(parts[|parts| - 1]) == labelText
            && parts[|parts| - 2] == " " + stepsText
            && !HasNoLabel(parts)
  {
    var parts := LineParts(ws, stepsText, labelText);
    TrimLeadingSpace(labelText);
    TrimLeadingSpace(stepsText);
    assert parts[|parts| - 1] == " " + labelText;
    assert parts[|parts| - 2] == " " + stepsText;
  }

  lemma {:induction false} DecodeLineParts(ws: seq<TextWave>, stepsText: string, labelText: string)
    requires forall i :: 0 <= i < |ws| ==> FieldSafe(ws[i])
    requires TailSafe(stepsText, labelText)
    ensures DecodeFields(LineParts(ws, stepsText, labelText)) == Ok(Decoded(Some(" " + stepsText), ws, labelText))
  {
    var parts := LineParts(ws, stepsText, labelText);
    LinePartsTail(ws, stepsText, labelText);
    var r := DecodeFields(parts);
    assert r.Ok? && |r.value.waves| == |ws|;
    assert r.value.labelText == labelText && r.value.steps == Some(" " + stepsText);
    forall i | 0 <= i < |ws|
      ensures r.value.waves[i] == ws[i]
    {
      assert parts[i] == WaveField(ws[i]);
      ParseFieldRoundTrip(ws[i]);
    }
    assert r.value.waves == ws;
  }

  /** A formatted line parses back to the same components and label, with
      the steps field `" " + steps` left untrimmed. */
  lemma {:induction false} LineRoundTrip(ws: seq<TextWave>, stepsText: string, labelText: string)
    requires forall i :: 0 <= i < |ws| ==> FieldSafe(ws[i])
    requires TailSafe(stepsText, labelText)
    ensures DeformatWave(FormatLine(ws, stepsText, labelText)) == Ok(Decoded(Some(" " + stepsText), ws, labelText))
  {
    SplitOfLine(ws, stepsText, labelText);
    DecodeLineParts(ws, stepsText, labelText);
  }

  /** A player the text format carries over intact: safe fields, at least
      one component, playable components, a defined label. */
  predicate Encodable(p: Player, show: Number -> string) {
    && |p.waves| > 0
    && (forall i :: 0 <= i < |p.waves| ==> FieldSafe(p.waves[i]) && Playable(p.waves[i]))
    && p.labelText.Some?
    && '\n' !in p.labelText.value && '\n' !in show(p.steps)
    && TailSafe(show(p.steps), p.labelText.value)
  }

  /** The players the save loop makes from the lines of `players`, starting
      from generator state `next`: player `i` carries id `next + i` and the
      label, steps read back with `parseFloat`, and components of player `i`
      of `players`. */
  function Reloaded(players: seq<Player>, show: Number -> string, next: nat): (r: seq<Player>)
    ensures |r| == |players|
    ensures forall i :: 0 <= i < |players| ==>
      r[i] == Player(next + i, players[i].labelText, ParseFloat(show(players[i].steps)), players[i].waves)
  {
    seq(|players|, i requires 0 <= i < |players| =>
      Player(next + i, players[i].labelText, ParseFloat(show(players[i].steps)), players[i].waves))
  }

  /** What `deformatWave` returns for the line of an encodable player. */
  function DecodedOf(p: Player, show: Number -> string): Decoded {
    Decoded(Some(" " + show(p.steps)), p.waves, p.labelText.GetOr(""))
  }

  lemma {:induction false} DecodeEncodable(p: Player, show: Number -> string)
    requires Encodable(p, show)
    ensures DeformatWave(PlayerLine(p, show)) == Ok(DecodedOf(p, show))
  {
    LineRoundTrip(p.waves, show(p.steps), p.labelText.value);
  }

  /** A decoded line whose components are all playable makes a player. */
  lemma {:induction false} MakePlayable(d: Decoded)
    requires |d.waves| > 0 && forall i :: 0 <= i < |d.waves| ==> Playable(d.waves[i])
    ensures Outcome(Ok(d)) == Make(d.labelText, ParseFloat(d.steps.GetOr("undefined")), d.waves)
  {
    var o := Outcome(Ok(d));
    assert !o.Fail?;
  }

  /** The line of an encodable player makes a player with the same label,
      components and steps read back with `parseFloat`. */
  lemma {:induction false} MakeEncodable(p: Player, show: Number -> string)
    requires Encodable(p, show)
    ensures Outcome(Ok(DecodedOf(p, show))) == Make(p.labelText.value, ParseFloat(show(p.steps)), p.waves)
  {
    var d := DecodedOf(p, show);
    MakePlayable(d);
    ParseFloatSkipsSpace(show(p.steps));
    assert d.steps.GetOr("undefined") == [' '] + show(p.steps);
  }

  /** `Join` keeps out every character none of its parts has, other than
      the separator. */
  lemma {:induction false} JoinFree(parts: seq<string>, sep: char, c: char)
    requires |parts| >= 1 && c != sep
    requires forall i :: 0 <= i < |parts| ==> c !in parts[i]
    ensures c !in Join(parts, sep)
    decreases |parts|
  {
    if |parts| > 1 {
      JoinFree(parts[1..], sep, c);
    }
  }

  lemma {:induction false} LineFeedFree(p: Player, show: Number -> string)
    requires Encodable(p, show)
    ensures '\n' !in PlayerLine(p, show)
  {
    var ws := p.waves;
    var parts := WaveFields(ws) + [" " + show(p.steps), " " + LabelString(p.labelText)];
    FormatJoin(ws, show(p.steps), LabelString(p.labelText));
    forall i | 0 <= i < |parts|
      ensures '\n' !in parts[i]
    {
      if i < |ws| {
        assert parts[i] == ws[i].freq + " " + ws[i].kind;
        assert IsWhitespace('\n');
      }
    }
    JoinFree(parts, ',', '\n');
  }

  /** The lines of a list, without their line feeds. */
  function Lines(players: seq<Player>, show: Number -> string): (lines: seq<string>)
    ensures |lines| == |players|
    ensures forall i :: 0 <= i < |players| ==> lines[i] == PlayerLine(players[i], show)
  {
    seq(|players|, i requires 0 <= i < |players| => PlayerLine(players[i], show))
  }

  lemma {:induction false} LinesSplit(players: seq<Player>, show: Number -> string)
    requires |players| > 0
    ensures (Lines(players, show) + [""])[0] == PlayerLine(players[0], show)
    ensures (Lines(players, show) + [""])[1..] == Lines(players[1..], show) + [""]
  {
    assert Lines(players, show)[1..] == Lines(players[1..], show);
  }

  /** The text of a list is the join of its lines and a final empty line. */
  lemma {:induction false} PlayersTextJoin(players: seq<Player>, show: Number -> string)
    ensures GetPlayersText(players, show) == Join(Lines(players, show) + [""], '\n')
    decreases |players|
  {
    if |players| == 0 {
      assert Lines(players, show) + [""] == [""];
    } else {
      PlayersTextJoin(players[1..], show);
      LinesSplit(players, show);
    }
  }

  /** What the empty line after the last newline decodes to. */
  const EmptyLine := Decoded(None, [], "")

  /** The empty line decodes to no components and is skipped without
      taking an id. */
  lemma {:induction false} EmptyLineSkipped()
    ensures DeformatWave("") == Ok(EmptyLine)
    ensures Outcome(Ok(EmptyLine)) == Skip
  {
    assert Split("", ',') == [""];
    assert !Numeric("");
    assert DecodeFields([""]) == Ok(Decoded(None, [], ""));
  }

  /** What the lines of an encodable list decode to. */
  function DecodedList(players: seq<Player>, show: Number -> string): (ds: seq<Result<Decoded>>)
    ensures |ds| == |players|
    ensures forall i :: 0 <= i < |players| ==> ds[i] == Ok(DecodedOf(players[i], show))
  {
    seq(|players|, i requires 0 <= i < |players| => Ok(DecodedOf(players[i], show)))
  }

  lemma {:induction false} DecodeLinesOfEncoded(players: seq<Player>, show: Number -> string)
    requires forall i :: 0 <= i < |players| ==> Encodable(players[i], show)
    ensures DecodeLines(Lines(players, show) + [""]) == DecodedList(players, show) + [Ok(EmptyLine)]
  {
    var ls := Lines(players, show) + [""];
    var ds := DecodeLines(ls);
    var es := DecodedList(players, show) + [Ok(EmptyLine)];
    forall i | 0 <= i < |ls|
      ensures ds[i] == es[i]
    {
      if i < |players| {
        assert ls[i] == PlayerLine(players[i], show);
        DecodeEncodable(players[i], show);
      } else {
        EmptyLineSkipped();
      }
    }
  }

  /** From line `k` on, lines that each make the matching player of `ps`
      with the next id, followed by a skipped last line, make exactly the
      players from `k` on, and the generator ends past the last of them. */
  lemma {:induction false} SaveFromEach(os: seq<LineOutcome>, ps: seq<Player>, next: nat, k: nat)
    requires |os| == |ps| + 1 && os[|ps|] == Skip && k <= |ps|
    requires forall i :: k <= i < |ps| ==>
      os[i].Make? && ps[i] == Player(next + i, Some(os[i].labelText), os[i].steps, os[i].waves)
    ensures var c := SaveFrom(os, k, IdGen(next + k));
      && c == Normal((c.state.0, IdGen(next + |ps|)))
      && |c.state.0| == |ps| - k
      && forall j :: 0 <= j < |c.state.0| ==> c.state.0[j] == ps[k + j]
    decreases |ps| - k
  {
    if k < |ps| {
      SaveFromEach(os, ps, next, k + 1);
    }
  }

  /** The same from the first line, as one equation. */
  lemma {:induction false} SaveFromAll(os: seq<LineOutcome>, ps: seq<Player>, ids: IdGen, last: nat)
    requires |os| == |ps| + 1 && os[|ps|] == Skip && last == ids.next + |ps|
    requires forall i :: 0 <= i < |ps| ==>
      os[i].Make? && ps[i] == Player(ids.next + i, Some(os[i].labelText), os[i].steps, os[i].waves)
    ensures SaveFrom(os, 0, ids) == Normal((ps, IdGen(last)))
  {
    SaveFromEach(os, ps, ids.next, 0);
    assert ids == IdGen(ids.next + 0);
    var c := SaveFrom(os, 0, ids);
    assert c.state.0 == ps;
  }

  /** The decoded lines of an encodable list each make the matching
      reloaded player, and the empty last line is skipped. */
  lemma {:induction false} OutcomesOfEncoded(players: seq<Player>, show: Number -> string, next: nat)
    requires forall i :: 0 <= i < |players| ==> Encodable(players[i], show)
    ensures var os := Outcomes(DecodedList(players, show) + [Ok(EmptyLine)]);
      var ps := Reloaded(players, show, next);
      && |os| == |ps| + 1
      && os[|ps|] == Skip
      && forall i :: 0 <= i < |ps| ==>
           os[i].Make? && ps[i] == Player(next + i, Some(os[i].labelText), os[i].steps, os[i].waves)
  {
    var xs := DecodedList(players, show) + [Ok(EmptyLine)];
    var os := Outcomes(xs);
    var ps := Reloaded(players, show, next);
    forall i | 0 <= i < |ps|
      ensures os[i].Make? && ps[i] == Player(next + i, Some(os[i].labelText), os[i].steps, os[i].waves)
    {
      assert xs[i] == Ok(DecodedOf(players[i], show));
      MakeEncodable(players[i], show);
    }
    assert xs[|ps|] == Ok(EmptyLine);
  }

  /** The decoded lines of an encodable list, and the empty last line,
      make the reloaded players, and the generator moves by the length of
      the list. */
  lemma {:induction false} SaveDecodedOfEncoded(players: seq<Player>, show: Number -> string, ids: IdGen, last: nat)
    requires forall i :: 0 <= i < |players| ==> Encodable(players[i], show)
    requires last == ids.next + |players|
    ensures SaveDecoded(DecodedList(players, show) + [Ok(EmptyLine)], ids) ==
      Normal((Reloaded(players, show, ids.next), IdGen(last)))
  {
    var xs := DecodedList(players, show) + [Ok(EmptyLine)];
    OutcomesOfEncoded(players, show, ids.next);
    SaveFromAll(Outcomes(xs), Reloaded(players, show, ids.next), ids, last);
  }

  lemma {:induction false} SaveLinesOfEncoded(players: seq<Player>, show: Number -> string, ids: IdGen, last: nat)
    requires forall i :: 0 <= i < |players| ==> Encodable(players[i], show)
    requires last == ids.next + |players|
    ensures SaveLines(Lines(players, show) + [""], ids) == Normal((Reloaded(players, show, ids.next), IdGen(last)))
  {
    var ls := Lines(players, show) + [""];
    DecodeLinesOfEncoded(players, show);
    assert SaveLines(ls, ids) == SaveDecoded(DecodedList(players, show) + [Ok(EmptyLine)], ids);
    SaveDecodedOfEncoded(players, show, ids, last);
  }

  lemma {:induction false} LinesFeedFree(players: seq<Player>, show: Number -> string)
    requires forall i :: 0 <= i < |players| ==> Encodable(players[i], show)
    ensures forall i :: 0 <= i < |Lines(players, show) + [""]| ==> '\n' !in (Lines(players, show) + [""])[i]
  {
    var lines := Lines(players, show);
    forall i | 0 <= i < |lines + [""]|
      ensures '\n' !in (lines + [""])[i]
    {
      if i < |lines| { LineFeedFree(players[i], show); }
    }
  }

  /** The text of a list is its lines, each ended by a newline, so
      splitting it at newlines gives the lines and an empty last line. */
  lemma {:induction false} SplitPlayersText(players: seq<Player>, show: Number -> string)
    requires forall i :: 0 <= i < |players| ==> Encodable(players[i], show)
    ensures Split(GetPlayersText(players, show), '\n') == Lines(players, show) + [""]
  {
    PlayersTextJoin(players, show);
    LinesFeedFree(players, show);
    SplitJoin(Lines(players, show) + [""], '\n');
  }

  lemma {:induction false} SaveModalTextNormal(text: string, players: seq<Player>, ids: IdGen, ps: seq<Player>, last: nat)
    requires SaveLines(Split(text, '\n'), ids) == Normal((ps, IdGen(last)))
    ensures SaveModalText(text, players, ids) == Normal((ps, IdGen(last)))
  {
  }

  /** Saving the text of a list gives back a list of the same length with
      the same components, labels and steps (read back with `parseFloat`),
      in the same order, under fresh consecutive ids. */
  lemma {:induction false} PlayersTextRoundTrip(players: seq<Player>, previous: seq<Player>, show: Number -> string, ids: IdGen)
    requires forall i :: 0 <= i < |players| ==> Encodable(players[i], show)
    ensures var c := SaveModalText(GetPlayersText(players, show), previous, ids);
      c.Normal? && c.state.0 == Reloaded(players, show, ids.next) && c.state.1.next == ids.next + |players|
  {
    var last := ids.next + |players|;
    var text := GetPlayersText(players, show);
    SplitPlayersText(players, show);
    SaveLinesOfEncoded(players, show, ids, last);
    SaveModalTextNormal(text, previous, ids, Reloaded(players, show, ids.next), last);
  }
}
