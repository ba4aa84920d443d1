/** The player list and the operations of src/Components/Player/Player.jsx
    and the drag reorder of src/Components/WavePlayer/WavePlayer.jsx.

    A player's sample snapshot and its `play` closure are not part of the
    record: nothing in these operations reads them.
 */
module Players {
  import opened Common
  import opened Numbers

  /** A component as the player list keeps it: the text of a note name
      (`"C5"`) and a wave type name. */
  datatype TextWave = TextWave(freq: string, kind: string)

  /** `{id, label, steps, waves}`; `labelText` is `None` when the label is
      `undefined`. */
  datatype Player = Player(id: nat, labelText: Option<string>, steps: Number, waves: seq<TextWave>)

  /** The argument of an input handler: either a JavaScript number or a
      string. */
  datatype Value = NumberValue(n: Number) | StringValue(s: string)

  /** What a handler receives as `id`: a player id, or (when a handler is
      wired directly as `onChange`) the change event object, which equals
      no id. */
  datatype Key = Id(id: nat) | ChangeEvent

  function KeyMatches(p: Player, key: Key): bool {
    key.Id? && key.id == p.id
  }

  /** `players.findIndex(player => player.id === key)`: the first match, or
      -1. */
  function FindIndex(players: seq<Player>, key: Key): (k: int)
    ensures -1 <= k < |players|
    ensures k == -1 <==> forall i :: 0 <= i < |players| ==> !KeyMatches(players[i], key)
    ensures k >= 0 ==> KeyMatches(players[k], key) && forall i :: 0 <= i < k ==> !KeyMatches(players[i], key)
    decreases |players|
  {
    if |players| == 0 then -1
    else if KeyMatches(players[0], key) then 0
    else
      var k := FindIndex(players[1..], key);
      assert forall i :: 1 <= i < |players| ==> players[i] == players[1..][i - 1];
      if k == -1 then -1 else k + 1
  }

  /** Removes the element at position `i`. */
  function RemoveAt<T>(s: seq<T>, i: nat): (r: seq<T>)
    requires i < |s|
    ensures |r| == |s| - 1
    ensures multiset(r) + multiset{s[i]} == multiset(s)
  {
    assert s == s[..i] + [s[i]] + s[i + 1..];
    s[..i] + s[i + 1..]
  }

  /** `splice(start, 1)` on a list: a negative start counts from the end
      (and one before the first element means the first), a start past the
      end removes nothing. */
  function SpliceOut<T>(s: seq<T>, start: int): (r: seq<T>)
    ensures |s| > 0 && -|s| <= start < |s| ==> |r| == |s| - 1
    ensures 0 <= start < |s| ==> r == s[..start] + s[start + 1..]
    ensures -|s| <= start < 0 ==> r == s[..|s| + start] + s[|s| + start + 1..]
    ensures start < -|s| && |s| > 0 ==> r == s[1..]
    ensures start >= |s| ==> r == s
  {
    var i := if start < 0 then (if start + |s| < 0 then 0 else start + |s|) else start;
    if i < |s| then RemoveAt(s, i) else s
  }

  /** `deletePlayer(id)`: `splice(findIndex(...), 1)`. A missing id gives
      index -1, and `splice(-1, 1)` removes the last player. */
  function DeletePlayer(players: seq<Player>, id: nat): (r: seq<Player>)
    ensures FindIndex(players, Id(id)) >= 0 ==>
      var k := FindIndex(players, Id(id));
      r == RemoveAt(players, k) && multiset(r) + multiset{players[k]} == multiset(players)
    ensures FindIndex(players, Id(id)) == -1 ==>
      r == if |players| == 0 then [] else players[..|players| - 1]
  {
    SpliceOut(players, FindIndex(players, Id(id)))
  }

  /** Ids are pairwise distinct. */
  predicate UniqueIds(players: seq<Player>) {
    forall i, j :: 0 <= i < j < |players| ==> players[i].id != players[j].id
  }

  /** With distinct ids, deleting a present id removes the one player with
      that id and keeps every other player, in order. */
  lemma {:induction false} DeleteRemovesExactlyThatPlayer(players: seq<Player>, id: nat, k: nat)
    requires UniqueIds(players)
    requires k < |players| && players[k].id == id
    ensures DeletePlayer(players, id) == players[..k] + players[k + 1..]
    ensures forall i :: 0 <= i < |DeletePlayer(players, id)| ==> DeletePlayer(players, id)[i].id != id
  {
    var f := FindIndex(players, Id(id));
    assert f == k by {
      assert f >= 0 by { assert KeyMatches(players[k], Id(id)); }
      assert players[f].id == players[k].id;
    }
    var r := DeletePlayer(players, id);
    forall i | 0 <= i < |r|
      ensures r[i].id != id
    {
      if i < k { assert r[i] == players[i]; } else { assert r[i] == players[i + 1]; }
    }
  }

  /** A delete for an id nobody has still shortens a non-empty list: the
      last player goes. */
  lemma {:induction false} DeleteAbsentDropsLast(players: seq<Player>, id: nat)
    requires |players| > 0
    requires forall i :: 0 <= i < |players| ==> players[i].id != id
    ensures DeletePlayer(players, id) == players[..|players| - 1]
  {
  }

  /** `newPlayers[index].field = value` with `index` from `findIndex`: at
      index -1 the element is `undefined` and the assignment throws. */
  function SetAt(players: seq<Player>, key: Key, update: Player -> Player): (r: Result<seq<Player>>)
    ensures r.Err? <==> FindIndex(players, key) == -1
    ensures r.Ok? ==>
      var k := FindIndex(players, key);
      && |r.value| == |players|
      && r.value[k] == update(players[k])
      && forall i :: 0 <= i < |players| && i != k ==> r.value[i] == players[i]
  {
    var k := FindIndex(players, key);
    if k == -1 then Err(UNDEFINED_PROPERTY) else Ok(players[k := update(players[k])])
  }

  /** `handleSteps(id, steps)`: sets the steps of the first player with that
      id; a missing id throws. */
  function HandleSteps(players: seq<Player>, id: nat, steps: Number): (r: Result<seq<Player>>)
    ensures r.Err? <==> forall i :: 0 <= i < |players| ==> players[i].id != id
    ensures r.Ok? ==>
      && |r.value| == |players|
      && forall i :: 0 <= i < |players| ==>
           && r.value[i].id == players[i].id
           && r.value[i].labelText == players[i].labelText
           && r.value[i].waves == players[i].waves
           && r.value[i].steps == (if i == FindIndex(players, Id(id)) then steps else players[i].steps)
  {
    SetAt(players, Id(id), (p: Player) => p.(steps := steps))
  }

  /** Unary `+` on the handler's argument. */
  function Coerce(v: Value): (n: Number)
    ensures v.NumberValue? ==> n == v.n
  {
    match v
    case NumberValue(n) => n
    case StringValue(s) => ToNumber(s)
  }

  /** `handleStepsWrapper(steps)`: `handleSteps(playerWave.id, +steps)`. */
  function HandleStepsWrapper(players: seq<Player>, id: nat, v: Value): (r: Result<seq<Player>>)
    ensures r.Err? <==> forall i :: 0 <= i < |players| ==> players[i].id != id
    ensures r.Ok? ==> |r.value| == |players| && r.value[FindIndex(players, Id(id))].steps == Coerce(v)
  {
    HandleSteps(players, id, Coerce(v))
  }

  /** A numeric string is stored as its number, not as text. */
  lemma {:induction false} StepsFromDigits(players: seq<Player>, id: nat, n: nat)
    requires exists i :: 0 <= i < |players| && players[i].id == id
    ensures HandleStepsWrapper(players, id, StringValue(NatText(n))).Ok?
    ensures HandleStepsWrapper(players, id, StringValue(NatText(n))).value[FindIndex(players, Id(id))].steps == Finite(n as real)
    ensures HandleStepsWrapper(players, id, StringValue("")).value[FindIndex(players, Id(id))].steps == Finite(0.0)
  {
    NatTextRoundTrip(n);
  }

  /** `handleLabel(id, text)`. */
  function HandleLabel(players: seq<Player>, key: Key, text: Option<string>): (r: Result<seq<Player>>)
    ensures r.Err? <==> FindIndex(players, key) == -1
    ensures r.Ok? ==>
      var k := FindIndex(players, key);
      |r.value| == |players| && r.value[k] == players[k].(labelText := text)
  {
    SetAt(players, key, (p: Player) => p.(labelText := text))
  }

  /** Wired as `onChange`, the handler receives the change event as its
      `id`, so it throws on every edit and never changes a label. */
  lemma {:induction false} LabelEditAlwaysThrows(players: seq<Player>, text: Option<string>)
    ensures HandleLabel(players, ChangeEvent, text).Err?
  {
  }

  /** Inserts `x` before position `k` (`splice(k, 0, x)`; `null` reads as 0 and
      a start past the end appends). */
  function InsertAt<T>(s: seq<T>, k: nat, x: T): (r: seq<T>)
    ensures |r| == |s| + 1
    ensures multiset(r) == multiset(s) + multiset{x}
  {
    var i := if k > |s| then |s| else k;
    assert s == s[..i] + s[i..];
    s[..i] + [x] + s[i..]
  }

  /** Where the dragged player lands in a list of `n` players. */
  function DropIndex(n: nat, over: Option<nat>): (t: nat)
    requires n > 0
    ensures t < n
  {
    var k := over.GetOr(0);
    if k > n - 1 then n - 1 else k
  }

  /** Taking out the element at `from` and inserting it before `t` puts it
      at `t` and leaves the others in their order. */
  lemma {:induction false} MoveFacts<T>(s: seq<T>, from: nat, t: nat)
    requires from < |s| && t < |s|
    ensures var r := InsertAt(RemoveAt(s, from), t, s[from]);
            r[t] == s[from] && RemoveAt(r, t) == RemoveAt(s, from)
  {
    var rest := RemoveAt(s, from);
    var r := InsertAt(rest, t, s[from]);
    assert r == rest[..t] + [s[from]] + rest[t..];
    assert RemoveAt(r, t) == rest[..t] + rest[t..];
    assert rest[..t] + rest[t..] == rest;
  }

  /** `handleDragDrop()`: take out the player at `dragPlayer`, reinsert it at
      `dragOverPlayer` (`None` for `null`, which `splice` reads as 0). */
  function HandleDragDrop(players: seq<Player>, from: nat, over: Option<nat>): (r: seq<Player>)
    requires from < |players|
    ensures |r| == |players|
    ensures multiset(r) == multiset(players)
    ensures r[DropIndex(|players|, over)] == players[from]
    ensures RemoveAt(r, DropIndex(|players|, over)) == RemoveAt(players, from)
  {
    var rest := RemoveAt(players, from);
    var t := DropIndex(|players|, over);
    MoveFacts(players, from, t);
    InsertAt(rest, t, players[from])
  }

  /** Dropping a player where it was picked up changes nothing. */
  lemma {:induction false} DragDropInPlace(players: seq<Player>, from: nat)
    requires from < |players|
    ensures HandleDragDrop(players, from, Some(from)) == players
  {
    var r := HandleDragDrop(players, from, Some(from));
    assert RemoveAt(r, from) == RemoveAt(players, from);
    assert r[from] == players[from];
    assert r == RemoveAt(r, from)[..from] + [r[from]] + RemoveAt(r, from)[from..];
    assert players == RemoveAt(players, from)[..from] + [players[from]] + RemoveAt(players, from)[from..];
  }
}
