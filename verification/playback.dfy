/** Playback of the player list (src/Components/WavePlayer/WavePlayer.jsx,
    `playPlayers`, `handlePlay`, `handleStop`, `handleBPM`) as a sequential
    step relation.

    `playPlayers` is an `async` function that suspends at every
    `await timer(...)`. A suspended invocation is a `Run`: the player list
    and `loop` flag its closure captured, and the index of the next player.
    Time is not modelled: the environment chooses which suspended run wakes
    next (`Wake`), and between wakes the user may press play or stop or
    change the tempo. Every synchronous stretch of `playPlayers`, from a
    wake to its next `await` or its end, is one `Resume`.

    The sound itself (`players[i].play(...)`) is not modelled; what is
    recorded for each slot is the player shown as playing and the time the
    run waits before the next slot.
 */
module Playback {
  import opened Common
  import opened Numbers
  import opened Players

  /** One slot of a run: the id passed to `setPlayerPlaying` and the
      milliseconds passed to `timer`. */
  datatype Slot = Slot(id: nat, durationMs: Number)

  /** `(60000 / BPMRef.current) * players[i].steps`: exact for a finite
      non-zero tempo and finite steps; NaN exactly when either is NaN, both
      are infinite, or both are zero. */
  function Duration(bpm: Number, steps: Number): (r: Number)
    ensures bpm.Finite? && bpm.value != 0.0 && steps.Finite? ==> r == Finite(60000.0 / bpm.value * steps.value)
    ensures r.NaN? <==>
      bpm.NaN? || steps.NaN? || (bpm.Infinite? && steps.Infinite?) || (bpm == Finite(0.0) && steps == Finite(0.0))
  {
    Mul(Div(Finite(60000.0), bpm), steps)
  }

  /** A `playPlayers` invocation suspended before player `next`. */
  datatype Run = Run(players: seq<Player>, loop: bool, next: nat)

  /** `playing.current`, `BPMRef.current`, the `playerPlaying` state, the
      suspended runs, and every slot started so far, in order. */
  datatype State = State(playing: bool, bpm: Number, playerPlaying: Option<nat>, runs: seq<Run>, slots: seq<Slot>)

  datatype Event =
    | Play(players: seq<Player>, loop: bool)  // handlePlay, from the render whose list and loop flag it sees
    | Stop                                     // handleStop
    | SetBpm(bpm: Number)                      // handleBPM
    | Wake(k: nat)                             // the timer of suspended run k fires

  /** The tempo starts at 100 BPM, nothing playing. */
  const Initial := State(false, Finite(100.0), None, [], [])

  /** The index of the player a resumed run starts next: its `next`, or 0
      when a looping run starts over. */
  function NextIndex(r: Run): nat {
    if r.next < |r.players| then r.next else 0
  }

  /** Whether resuming `r` starts a slot while playback is on: there is a
      next player, or the run loops over a non-empty list. */
  predicate StartsSlot(r: Run) {
    r.next < |r.players| || (r.loop && |r.players| > 0)
  }

  /** One synchronous stretch of `playPlayers`. Before each player the run
      checks `playing.current`: when it is off the run ends. Otherwise the
      slot starts with the tempo of that moment and the run suspends. At
      the end of the list a looping run starts over (an empty looping list
      recurses without end and the run dies with a stack overflow, leaving
      `playing.current` on); a non-looping run switches playback off. */
  function Resume(s: State, r: Run): (t: State)
    ensures t.bpm == s.bpm
    ensures |s.slots| <= |t.slots| <= |s.slots| + 1 && t.slots[..|s.slots|] == s.slots
    ensures |t.slots| == |s.slots| + 1 <==> s.playing && StartsSlot(r)
    ensures |t.slots| == |s.slots| + 1 ==>
      var p := r.players[NextIndex(r)];
      && t.slots[|s.slots|] == Slot(p.id, Duration(s.bpm, p.steps))
      && t.playerPlaying == Some(p.id)
      && t.playing
      && t.runs == s.runs + [r.(next := NextIndex(r) + 1)]
    ensures |t.slots| == |s.slots| ==> t.runs == s.runs
    ensures !s.playing ==> !t.playing
    decreases if r.next < |r.players| then 0 else 1
  {
    if r.next < |r.players| then
      if !s.playing then s.(playerPlaying := None)
      else
        var p := r.players[r.next];
        s.(playerPlaying := Some(p.id),
           slots := s.slots + [Slot(p.id, Duration(s.bpm, p.steps))],
           runs := s.runs + [r.(next := r.next + 1)])
    else if r.loop then
      if |r.players| == 0 then s
      else Resume(s, r.(next := 0))
    else s.(playing := false, playerPlaying := None)
  }

  /** One event. */
  function Step(s: State, e: Event): (t: State)
    ensures |s.slots| <= |t.slots| <= |s.slots| + 1 && t.slots[..|s.slots|] == s.slots
    ensures |t.slots| == |s.slots| + 1 ==> t.playing
    ensures !e.SetBpm? ==> t.bpm == s.bpm
  {
    match e
    case Play(ps, loop) =>
      if s.playing then s else Resume(s.(playing := true), Run(ps, loop, 0))
    case Stop => s.(playing := false)
    case SetBpm(b) => s.(bpm := b)
    case Wake(k) =>
      if k < |s.runs| then Resume(s.(runs := RemoveAt(s.runs, k)), s.runs[k]) else s
  }

  /** `handlePlay` while playing returns at once. */
  lemma {:induction false} PlayWhilePlaying(s: State, ps: seq<Player>, loop: bool)
    requires s.playing
    ensures Step(s, Play(ps, loop)) == s
  {
  }

  /** Stopping only switches the flag: the slot in progress and the
      suspended runs are untouched, so a stop is seen only when a run wakes
      before its next slot. That run then ends without starting a slot. */
  lemma {:induction false} StopSeenAtNextSlot(s: State, k: nat)
    requires k < |s.runs|
    ensures Step(s, Stop).slots == s.slots && Step(s, Stop).runs == s.runs
    ensures Step(Step(s, Stop), Wake(k)).slots == s.slots
    ensures Step(Step(s, Stop), Wake(k)).runs == RemoveAt(s.runs, k)
    ensures !Step(Step(s, Stop), Wake(k)).playing
  {
  }

  /** The tempo is read when a slot starts: a change made while a slot
      plays sets the duration of the next slot, not of the current one. */
  lemma {:induction false} TempoReadAtSlotStart(s: State, b: Number, k: nat)
    requires s.playing && k < |s.runs| && s.runs[k].next < |s.runs[k].players|
    ensures Step(s, SetBpm(b)).slots == s.slots
    ensures var p := s.runs[k].players[s.runs[k].next];
      Step(Step(s, SetBpm(b)), Wake(k)).slots == s.slots + [Slot(p.id, Duration(b, p.steps))]
  {
    var t := Step(Step(s, SetBpm(b)), Wake(k));
    assert t.slots[..|s.slots|] == s.slots;
  }

  /** A looping run that has played its last player starts over with the
      first. */
  lemma {:induction false} LoopStartsOver(s: State, k: nat)
    requires s.playing && k < |s.runs|
    requires s.runs[k].loop && |s.runs[k].players| > 0 && s.runs[k].next >= |s.runs[k].players|
    ensures var r := s.runs[k]; var t := Step(s, Wake(k));
      && t.slots == s.slots + [Slot(r.players[0].id, Duration(s.bpm, r.players[0].steps))]
      && t.runs == RemoveAt(s.runs, k) + [r.(next := 1)]
  {
    var t := Step(s, Wake(k));
    assert t.slots[..|s.slots|] == s.slots;
  }

  /** Looping over an empty list overflows the stack before switching
      playback off, so the play button stays dead until stop is pressed. */
  lemma {:induction false} EmptyLoopStaysOn(s: State, ps: seq<Player>, loop: bool)
    requires !s.playing
    ensures var t := Step(s, Play([], true));
      && t == s.(playing := true)
      && Step(t, Play(ps, loop)) == t
  {
  }

  /** Stop and play pressed within one slot leave the old run suspended
      next to the new one: when it wakes it sees playback on and carries
      on, so two runs play at once. */
  lemma {:induction false} StopThenPlayKeepsOldRun(s: State, ps: seq<Player>, loop: bool)
    requires |s.runs| == 1 && s.runs[0].next < |s.runs[0].players| && |ps| > 0
    ensures var t := Step(Step(s, Stop), Play(ps, loop));
      && |t.runs| == 2 && t.runs[0] == s.runs[0] && t.runs[1] == Run(ps, loop, 1)
      && |Step(t, Wake(0)).slots| == |t.slots| + 1
  {
    var t := Step(Step(s, Stop), Play(ps, loop));
    assert t.runs == s.runs + [Run(ps, loop, 1)];
  }

  /** The slots a run plays from player `j` to the end, all at tempo `bpm`:
      the order and duration of `playPlayers` without timers. */
  function Schedule(ps: seq<Player>, bpm: Number, j: nat): (r: seq<Slot>)
    ensures |r| == if j < |ps| then |ps| - j else 0
    decreases |ps| - j
  {
    if j >= |ps| then []
    else [Slot(ps[j].id, Duration(bpm, ps[j].steps))] + Schedule(ps, bpm, j + 1)
  }

  /** `n` wakes of the first suspended run. */
  function Drive(s: State, n: nat): State
    decreases n
  {
    if n == 0 then s else Drive(Step(s, Wake(0)), n - 1)
  }

  /** A lone run that wakes before player `j` plays it. */
  lemma {:induction false} LoneRunPlaysNext(s: State, ps: seq<Player>, j: nat)
    requires s.playing && s.runs == [Run(ps, false, j)] && j < |ps|
    ensures Step(s, Wake(0)) ==
      s.(playerPlaying := Some(ps[j].id),
         slots := s.slots + [Slot(ps[j].id, Duration(s.bpm, ps[j].steps))],
         runs := [Run(ps, false, j + 1)])
  {
    assert RemoveAt(s.runs, 0) == [];
  }

  /** A lone non-looping run that wakes after its last player switches
      playback off. */
  lemma {:induction false} LoneRunEnds(s: State, ps: seq<Player>)
    requires s.runs == [Run(ps, false, |ps|)]
    ensures Step(s, Wake(0)) == s.(playing := false, playerPlaying := None, runs := [])
  {
    assert RemoveAt(s.runs, 0) == [];
  }

  /** A lone non-looping run left undisturbed plays the players from `j`
      on, in list order, each for its duration, then switches playback off. */
  lemma {:induction false} RunPlaysInOrder(s: State, ps: seq<Player>, j: nat, n: nat)
    requires s.playing && s.runs == [Run(ps, false, j)] && j <= |ps| && n == |ps| - j + 1
    ensures Drive(s, n) ==
      s.(playing := false, playerPlaying := None, runs := [], slots := s.slots + Schedule(ps, s.bpm, j))
    decreases |ps| - j
  {
    if j == |ps| {
      RunPlaysLast(s, ps);
    } else {
      var slot := Slot(ps[j].id, Duration(s.bpm, ps[j].steps));
      var s1 := s.(playerPlaying := Some(ps[j].id), slots := s.slots + [slot], runs := [Run(ps, false, j + 1)]);
      DriveLoneRun(s, ps, j, n);
      RunPlaysInOrder(s1, ps, j + 1, n - 1);
      SlotsAppend(s.slots, slot, ps, s.bpm, j);
    }
  }

  lemma {:induction false} DriveLoneRun(s: State, ps: seq<Player>, j: nat, n: nat)
    requires s.playing && s.runs == [Run(ps, false, j)] && j < |ps| && n > 0
    ensures Drive(s, n) ==
      Drive(s.(playerPlaying := Some(ps[j].id),
               slots := s.slots + [Slot(ps[j].id, Duration(s.bpm, ps[j].steps))],
               runs := [Run(ps, false, j + 1)]), n - 1)
  {
    LoneRunPlaysNext(s, ps, j);
  }

  lemma {:induction false} RunPlaysLast(s: State, ps: seq<Player>)
    requires s.runs == [Run(ps, false, |ps|)]
    ensures Drive(s, 1) ==
      s.(playing := false, playerPlaying := None, runs := [], slots := s.slots + Schedule(ps, s.bpm, |ps|))
  {
    LoneRunEnds(s, ps);
    assert s.slots + Schedule(ps, s.bpm, |ps|) == s.slots;
  }

  lemma {:induction false} SlotsAppend(slots: seq<Slot>, slot: Slot, ps: seq<Player>, bpm: Number, j: nat)
    requires j < |ps| && slot == Slot(ps[j].id, Duration(bpm, ps[j].steps))
    ensures slots + [slot] + Schedule(ps, bpm, j + 1) == slots + Schedule(ps, bpm, j)
  {
  }

  /** Pressing play with nothing playing starts the first slot at once. */
  lemma {:induction false} PlayStartsFirstSlot(s: State, ps: seq<Player>)
    requires !s.playing && |ps| > 0
    ensures Step(s, Play(ps, false)) ==
      s.(playing := true, playerPlaying := Some(ps[0].id),
         slots := s.slots + [Slot(ps[0].id, Duration(s.bpm, ps[0].steps))],
         runs := s.runs + [Run(ps, false, 1)])
  {
  }

  lemma {:induction false} PlayNothing(s: State)
    requires !s.playing && s.runs == []
    ensures Drive(Step(s, Play([], false)), 0) == s.(playerPlaying := None, slots := s.slots + Schedule([], s.bpm, 0))
  {
    assert s.slots + Schedule([], s.bpm, 0) == s.slots;
  }

  /** Pressing play with nothing playing and then letting every slot run
      out plays the whole list once, in order, and ends with playback off. */
  lemma {:induction false} PlayRunsToCompletion(s: State, ps: seq<Player>)
    requires !s.playing && s.runs == []
    ensures Drive(Step(s, Play(ps, false)), |ps|) ==
      s.(playerPlaying := None, slots := s.slots + Schedule(ps, s.bpm, 0))
  {
    if |ps| == 0 {
      PlayNothing(s);
    } else {
      var slot := Slot(ps[0].id, Duration(s.bpm, ps[0].steps));
      var t := s.(playing := true, playerPlaying := Some(ps[0].id), slots := s.slots + [slot], runs := [Run(ps, false, 1)]);
      PlayStartsFirstSlot(s, ps);
      assert Step(s, Play(ps, false)) == t;
      RunPlaysInOrder(t, ps, 1, |ps|);
      SlotsAppend(s.slots, slot, ps, s.bpm, 0);
    }
  }

  /** With a tempo the input accepts (10 to 1000) and a non-negative step
      count, a slot lasts between 60 and 6000 milliseconds per step. */
  lemma {:induction false} DurationBounds(bpm: real, steps: real)
    requires 10.0 <= bpm <= 1000.0 && steps >= 0.0
    ensures Duration(Finite(bpm), Finite(steps)).Finite?
    ensures 60.0 * steps <= Duration(Finite(bpm), Finite(steps)).value <= 6000.0 * steps
  {
    var q := 60000.0 / bpm;
    assert 60.0 <= q <= 6000.0 by {
      assert q * bpm == 60000.0;
    }
    assert Duration(Finite(bpm), Finite(steps)) == Finite(q * steps);
    assert 60.0 * steps <= q * steps <= 6000.0 * steps;
  }
}
