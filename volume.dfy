/**
 * The vertical swipe that changes the volume of the default audio sink
 * (`VolumeUpDownGesture`). Every update of the swipe tracker recomputes the
 * maximum volume, moves the sink's volume by the swipe (swiping down, a
 * positive delta, lowers it), pushes the volume and shows the on-screen
 * display unless it would repeat a percentage strictly between 0 and 100
 * that it showed last.
 */
module Volume {
  import opened Numeric
  import opened Shell

  /** The percentage that is always shown again. */
  const FULL_PERCENTAGE: int := 100

  /** The default sink: its stream id and its volume. */
  class Sink {
    const id: nat
    var volume: real

    constructor (id: nat, volume: real)
      ensures this.id == id && this.volume == volume
    {
      this.id := id;
      this.volume := volume;
    }
  }

  /** The amount one update lowers the volume by: the swipe's share of the maximum, rounded. */
  function Change(move: Move, maxVolume: real): int
    requires move.distance != 0.0
  {
    Round(move.delta / move.distance * maxVolume)
  }

  /** The volume after one update: moved down by the rounded share of the maximum, clamped to [0, max]. */
  function VolumeAfter(volume: real, move: Move, maxVolume: real): real
    requires move.distance != 0.0
  {
    Clamp(volume - Change(move, maxVolume) as real, 0.0, maxVolume)
  }

  /** A swipe down (positive share) lowers the volume by a non-negative amount, a swipe up by a non-positive one. */
  lemma ChangeSign(move: Move, maxVolume: real)
    requires move.distance != 0.0 && maxVolume >= 0.0
    ensures move.delta / move.distance >= 0.0 ==> Change(move, maxVolume) >= 0
    ensures move.delta / move.distance <= 0.0 ==> Change(move, maxVolume) <= 0
  {
    var share := move.delta / move.distance;
    var change := share * maxVolume;
    if share >= 0.0 {
      ProductNonNegative(share, maxVolume);
    }
    if share <= 0.0 {
      ProductNonNegative(-share, maxVolume);
      assert change == -((-share) * maxVolume);
    }
    RoundSign(change);
  }

  /**
   * An update keeps the volume within [0, max]; from a volume within range a
   * positive delta never raises it and a negative one never lowers it, and
   * when no bound is hit it moves by exactly the rounded share of the maximum.
   */
  lemma VolumeStep(volume: real, move: Move, maxVolume: real)
    requires move.distance != 0.0 && maxVolume >= 0.0
    ensures var r := VolumeAfter(volume, move, maxVolume);
      0.0 <= r <= maxVolume &&
      (0.0 <= volume <= maxVolume && move.delta / move.distance >= 0.0 ==> r <= volume) &&
      (0.0 <= volume <= maxVolume && move.delta / move.distance <= 0.0 ==> r >= volume) &&
      (0.0 <= volume - Change(move, maxVolume) as real <= maxVolume ==>
        r == volume - Change(move, maxVolume) as real)
  {
    ChangeSign(move, maxVolume);
    ClampedStep(volume, Change(move, maxVolume), maxVolume);
  }

  /** Moving a volume in range down by a non-negative amount, or up by a non-positive one, and clamping. */
  lemma ClampedStep(volume: real, amount: int, maxVolume: real)
    requires maxVolume >= 0.0
    ensures var r := Clamp(volume - amount as real, 0.0, maxVolume);
      0.0 <= r <= maxVolume &&
      (0.0 <= volume <= maxVolume && amount >= 0 ==> r <= volume) &&
      (0.0 <= volume <= maxVolume && amount <= 0 ==> r >= volume) &&
      (0.0 <= volume - amount as real <= maxVolume ==> r == volume - amount as real)
  {
  }

  /** The percentage the display shows: the volume's share of the maximum, rounded. */
  function Percentage(volume: real, maxVolume: real): int
    requires maxVolume > 0.0
  {
    Round(volume / maxVolume * 100.0)
  }

  /** A volume within [0, max] shows as a percentage within [0, 100]; silence is 0 and the maximum is 100. */
  lemma PercentageWithin(volume: real, maxVolume: real)
    requires maxVolume > 0.0 && 0.0 <= volume <= maxVolume
    ensures 0 <= Percentage(volume, maxVolume) <= FULL_PERCENTAGE
    ensures volume == 0.0 ==> Percentage(volume, maxVolume) == 0
    ensures volume == maxVolume ==> Percentage(volume, maxVolume) == FULL_PERCENTAGE
  {
    QuotientWithinUnit(volume, maxVolume);
    var share := volume / maxVolume;
    RoundBounds(share * 100.0, 0, FULL_PERCENTAGE);
    if volume == 0.0 {
      RoundBounds(share * 100.0, 0, 0);
    }
    if volume == maxVolume {
      RoundBounds(share * 100.0, FULL_PERCENTAGE, FULL_PERCENTAGE);
    }
  }

  /** The de-duplication rule of `_showVolumeOsd`. */
  function ShowsOsd(oldPercentage: int, current: int): bool
  {
    oldPercentage <= 0 || current == FULL_PERCENTAGE || oldPercentage != current
  }

  /** The remembered percentage after `_showVolumeOsd(current)`. */
  function NextOldPercentage(oldPercentage: int, current: int): int
  {
    if ShowsOsd(oldPercentage, current) then current else oldPercentage
  }

  /**
   * The display is skipped exactly when it would repeat the last shown
   * percentage strictly between 0 and 100; so the same such percentage
   * requested twice in a row is shown at most once.
   */
  lemma OsdSkippedOnlyOnRepeat(oldPercentage: int, current: int)
    ensures !ShowsOsd(oldPercentage, current) <==> oldPercentage == current && 0 < current && current != FULL_PERCENTAGE
    ensures 0 < current < FULL_PERCENTAGE ==> !ShowsOsd(NextOldPercentage(oldPercentage, current), current)
  {
  }

  /** The percentages shown by the display, in order. */
  function Osds(effects: seq<Effect>): (ps: seq<int>)
    ensures |ps| <= |effects|
  {
    if effects == [] then []
    else
      var last := effects[|effects| - 1];
      Osds(effects[..|effects| - 1]) + (if last.ShowOsd? then [last.percentage] else [])
  }

  /** Two consecutive displays show the same percentage only when it is at most 0 or exactly 100. */
  predicate NoRepeatedOsd(ps: seq<int>)
  {
    forall i :: 0 <= i < |ps| - 1 && ps[i] == ps[i + 1] ==> ps[i] <= 0 || ps[i] == FULL_PERCENTAGE
  }

  class VolumeUpDownGesture {
    var sink: Sink
    var maxVolume: real
    /** The percentage last shown, -1 before the first display. */
    var oldPercentage: int
    /** The external effects requested so far. */
    var log: seq<Effect>

    /** The maximum volume is the mixer's normal maximum times the slider's maximum level. */
    constructor (sink: Sink, volMaxNorm: real, maxLevel: real)
      requires volMaxNorm > 0.0 && maxLevel > 0.0
      ensures this.sink == sink && maxVolume == volMaxNorm * maxLevel && maxVolume > 0.0
      ensures oldPercentage == -1 && log == []
    {
      this.sink := sink;
      maxVolume := volMaxNorm * maxLevel;
      oldPercentage := -1;
      log := [];
      ProductPositive(volMaxNorm, maxLevel);
    }

    /** `_handle_sink_change`: the new default sink replaces the old one. */
    method HandleSinkChange(newSink: Sink)
      modifies this`sink
      ensures sink == newSink
    {
      sink := newSink;
    }

    /** `_gestureBegin`: the maximum volume is recomputed. */
    method GestureBegin(volMaxNorm: real, maxLevel: real)
      requires volMaxNorm > 0.0 && maxLevel > 0.0
      modifies this`maxVolume
      ensures maxVolume == volMaxNorm * maxLevel && maxVolume > 0.0
    {
      maxVolume := volMaxNorm * maxLevel;
      ProductPositive(volMaxNorm, maxLevel);
    }

    /** `_gestureUpdate`: the current sink's volume is moved by the swipe and clamped to [0, max]. */
    method GestureUpdate(delta: real, distance: real)
      requires distance != 0.0 && maxVolume >= 0.0
      modifies sink
      ensures sink.volume == VolumeAfter(old(sink.volume), Move(delta, distance), maxVolume)
      ensures 0.0 <= sink.volume <= maxVolume
    {
      sink.volume := VolumeAfter(sink.volume, Move(delta, distance), maxVolume);
    }

    /** `_gestureEnd`: the volume is pushed, then the display is offered its percentage. */
    method GestureEnd()
      requires maxVolume > 0.0
      modifies this`log, this`oldPercentage
      ensures var p := Percentage(sink.volume, maxVolume);
        log == old(log) + [PushVolume(sink.id, sink.volume)] + (if ShowsOsd(old(oldPercentage), p) then [ShowOsd(p)] else []) &&
        oldPercentage == NextOldPercentage(old(oldPercentage), p)
    {
      log := log + [PushVolume(sink.id, sink.volume)];
      ShowVolumeOsd(Round((sink.volume / maxVolume) * 100.0));
    }

    /** `_showVolumeOsd`: the display is shown, and remembered, unless it repeats the last percentage. */
    method ShowVolumeOsd(currentPercentage: int)
      modifies this`log, this`oldPercentage
      ensures log == old(log) + (if ShowsOsd(old(oldPercentage), currentPercentage) then [ShowOsd(currentPercentage)] else [])
      ensures oldPercentage == NextOldPercentage(old(oldPercentage), currentPercentage)
    {
      if oldPercentage <= 0 || currentPercentage == FULL_PERCENTAGE || oldPercentage != currentPercentage {
        log := log + [ShowOsd(currentPercentage)];
        oldPercentage := currentPercentage;
      }
    }

    /**
     * An 'update' signal of the swipe tracker: `apply` connects begin, update
     * and end to it, in that order, so each update recomputes the maximum,
     * moves and pushes the volume and offers the display.
     */
    method OnUpdate(delta: real, distance: real, volMaxNorm: real, maxLevel: real)
      requires distance != 0.0 && volMaxNorm > 0.0 && maxLevel > 0.0
      modifies this, sink
      ensures sink == old(sink) && maxVolume == volMaxNorm * maxLevel && maxVolume > 0.0
      ensures sink.volume == VolumeAfter(old(sink.volume), Move(delta, distance), maxVolume)
      ensures 0.0 <= sink.volume <= maxVolume
      ensures var p := Percentage(sink.volume, maxVolume);
        log == old(log) + [PushVolume(sink.id, sink.volume)] + (if ShowsOsd(old(oldPercentage), p) then [ShowOsd(p)] else []) &&
        oldPercentage == NextOldPercentage(old(oldPercentage), p)
    {
      GestureBegin(volMaxNorm, maxLevel);
      GestureUpdate(delta, distance);
      GestureEnd();
    }
  }

  /**
   * What a handler's log keeps over a session: only pushes and displays, every
   * pushed volume in [0, max], every displayed percentage in [0, 100], no
   * repeated display, and the remembered percentage is the last displayed one.
   */
  predicate WellFormedLog(log: seq<Effect>, oldPercentage: int, maxVolume: real)
  {
    PushesInRange(log, maxVolume) && DisplaysWellFormed(Osds(log), oldPercentage)
  }

  /** The log holds only pushes and displays, and every pushed volume lies in [0, max]. */
  predicate PushesInRange(log: seq<Effect>, maxVolume: real)
  {
    forall k :: 0 <= k < |log| ==>
      (log[k].PushVolume? || log[k].ShowOsd?) && (log[k].PushVolume? ==> 0.0 <= log[k].volume <= maxVolume)
  }

  /** Displayed percentages lie in [0, 100], never repeat, and the remembered one is the last. */
  predicate DisplaysWellFormed(ps: seq<int>, oldPercentage: int)
  {
    (forall i :: 0 <= i < |ps| ==> 0 <= ps[i] <= FULL_PERCENTAGE) &&
    NoRepeatedOsd(ps) &&
    oldPercentage == (if ps == [] then -1 else ps[|ps| - 1])
  }

  /** One update, pushing a volume in range and offering a percentage in range, keeps the log well formed and adds one push. */
  lemma LogStep(before: seq<Effect>, oldPercentage: int, push: Effect, p: int, maxVolume: real)
    requires WellFormedLog(before, oldPercentage, maxVolume)
    requires push.PushVolume? && 0.0 <= push.volume <= maxVolume && 0 <= p <= FULL_PERCENTAGE
    ensures var after := before + [push] + (if ShowsOsd(oldPercentage, p) then [ShowOsd(p)] else []);
      WellFormedLog(after, NextOldPercentage(oldPercentage, p), maxVolume) &&
      |after| - |Osds(after)| == |before| - |Osds(before)| + 1
  {
    var shows := ShowsOsd(oldPercentage, p);
    var tail := if shows then [ShowOsd(p)] else [];
    PushesStep(before, push, tail, maxVolume);
    OsdStep(before, push, p, shows);
    DisplaysStep(Osds(before), oldPercentage, p);
  }

  /** Appending a push in range and displays keeps the pushes in range. */
  lemma PushesStep(before: seq<Effect>, push: Effect, tail: seq<Effect>, maxVolume: real)
    requires PushesInRange(before, maxVolume)
    requires push.PushVolume? && 0.0 <= push.volume <= maxVolume
    requires forall k :: 0 <= k < |tail| ==> tail[k].ShowOsd?
    ensures PushesInRange(before + [push] + tail, maxVolume)
  {
    var after := before + [push] + tail;
    forall k | 0 <= k < |after|
      ensures (after[k].PushVolume? || after[k].ShowOsd?) && (after[k].PushVolume? ==> 0.0 <= after[k].volume <= maxVolume)
    {
      if k < |before| {
        assert after[k] == before[k];
      } else if k == |before| {
        assert after[k] == push;
      } else {
        assert after[k] == tail[k - |before| - 1];
      }
    }
  }

  /** Offering a percentage in range by the de-duplication rule keeps the displays well formed. */
  lemma DisplaysStep(ps: seq<int>, oldPercentage: int, p: int)
    requires DisplaysWellFormed(ps, oldPercentage) && 0 <= p <= FULL_PERCENTAGE
    ensures var shows := ShowsOsd(oldPercentage, p);
      DisplaysWellFormed(ps + (if shows then [p] else []), NextOldPercentage(oldPercentage, p))
  {
    if ShowsOsd(oldPercentage, p) {
      NoRepeatStep(ps, p);
    } else {
      assert ps + [] == ps;
    }
  }

  /** One update's effects add the displayed percentage, if any, to the displayed ones. */
  lemma OsdStep(before: seq<Effect>, push: Effect, p: int, shows: bool)
    requires push.PushVolume?
    ensures Osds(before + [push] + (if shows then [ShowOsd(p)] else [])) == Osds(before) + (if shows then [p] else [])
  {
    var pushed := before + [push];
    assert pushed[..|before|] == before;
    assert Osds(pushed) == Osds(before);
    if shows {
      assert (pushed + [ShowOsd(p)])[..|pushed|] == pushed;
    } else {
      assert pushed + [] == pushed;
    }
  }

  /** Displaying by the de-duplication rule, against the last displayed percentage, keeps the displays free of repeats. */
  lemma NoRepeatStep(ps: seq<int>, p: int)
    requires NoRepeatedOsd(ps)
    requires ShowsOsd(if ps == [] then -1 else ps[|ps| - 1], p)
    ensures NoRepeatedOsd(ps + [p])
  {
  }

  lemma ProductPositive(a: real, b: real)
    requires a > 0.0 && b > 0.0
    ensures a * b > 0.0
  {
  }

  /** The volume after a run of updates. */
  function VolumeAfterMoves(volume: real, moves: seq<Move>, maxVolume: real): real
    requires ValidMoves(moves)
  {
    if moves == [] then volume
    else VolumeAfter(VolumeAfterMoves(volume, moves[..|moves| - 1], maxVolume), moves[|moves| - 1], maxVolume)
  }

  /** One update within a session keeps the log well formed and adds one push. */
  method SessionStep(gesture: VolumeUpDownGesture, move: Move, volMaxNorm: real, maxLevel: real)
    requires volMaxNorm > 0.0 && maxLevel > 0.0 && move.distance != 0.0
    requires gesture.maxVolume == volMaxNorm * maxLevel
    requires WellFormedLog(gesture.log, gesture.oldPercentage, gesture.maxVolume)
    modifies gesture, gesture.sink
    ensures gesture.sink == old(gesture.sink) && gesture.maxVolume == old(gesture.maxVolume)
    ensures gesture.sink.volume == VolumeAfter(old(gesture.sink.volume), move, gesture.maxVolume)
    ensures WellFormedLog(gesture.log, gesture.oldPercentage, gesture.maxVolume)
    ensures |gesture.log| - |Osds(gesture.log)| == |old(gesture.log)| - |Osds(old(gesture.log))| + 1
  {
    ghost var before := gesture.log;
    ghost var oldPercentage := gesture.oldPercentage;
    gesture.OnUpdate(move.delta, move.distance, volMaxNorm, maxLevel);
    var sink := gesture.sink;
    var maxVolume := gesture.maxVolume;
    PercentageWithin(sink.volume, maxVolume);
    LogStep(before, oldPercentage, PushVolume(sink.id, sink.volume), Percentage(sink.volume, maxVolume), maxVolume);
  }

  /**
   * A run of swipe updates on a fresh handler and sink: the volume ends where
   * the updates take it, every pushed volume lies in [0, max], every displayed
   * percentage in [0, 100], one volume is pushed per update, and no two
   * consecutive displays repeat a percentage strictly between 0 and 100.
   */
  method VolumeSession(volume: real, volMaxNorm: real, maxLevel: real, moves: seq<Move>)
    returns (final: real, effects: seq<Effect>)
    requires volMaxNorm > 0.0 && maxLevel > 0.0 && ValidMoves(moves)
    ensures final == VolumeAfterMoves(volume, moves, volMaxNorm * maxLevel)
    ensures moves != [] ==> 0.0 <= final <= volMaxNorm * maxLevel
    ensures forall i :: 0 <= i < |effects| && effects[i].PushVolume? ==> 0.0 <= effects[i].volume <= volMaxNorm * maxLevel
    ensures forall i :: 0 <= i < |effects| ==> effects[i].PushVolume? || effects[i].ShowOsd?
    ensures forall i :: 0 <= i < |Osds(effects)| ==> 0 <= Osds(effects)[i] <= FULL_PERCENTAGE
    ensures NoRepeatedOsd(Osds(effects))
    ensures |effects| - |Osds(effects)| == |moves|
  {
    var sink := new Sink(0, volume);
    var gesture := new VolumeUpDownGesture(sink, volMaxNorm, maxLevel);
    var maxVolume := gesture.maxVolume;
    var i := 0;
    while i < |moves|
      invariant 0 <= i <= |moves|
      invariant gesture.sink == sink && gesture.maxVolume == maxVolume
      invariant sink.volume == VolumeAfterMoves(volume, moves[..i], maxVolume)
      invariant WellFormedLog(gesture.log, gesture.oldPercentage, maxVolume)
      invariant |gesture.log| - |Osds(gesture.log)| == i
    {
      SessionStep(gesture, moves[i], volMaxNorm, maxLevel);
      assert moves[..i + 1][..i] == moves[..i];
      i := i + 1;
    }
    assert moves[..|moves|] == moves;
    final := sink.volume;
    effects := gesture.log;
    if moves != [] {
      VolumeStep(VolumeAfterMoves(volume, moves[..|moves| - 1], maxVolume), moves[|moves| - 1], maxVolume);
    }
  }

  /**
   * A default-sink change between two updates: the first update acts on the
   * old sink only and the second on the new sink only.
   */
  method SinkChangeSession(oldVolume: real, newVolume: real, volMaxNorm: real, maxLevel: real, before: Move, after: Move)
    returns (oldFinal: real, newFinal: real, effects: seq<Effect>)
    requires volMaxNorm > 0.0 && maxLevel > 0.0 && before.distance != 0.0 && after.distance != 0.0
    ensures oldFinal == VolumeAfter(oldVolume, before, volMaxNorm * maxLevel)
    ensures newFinal == VolumeAfter(newVolume, after, volMaxNorm * maxLevel)
    ensures |effects| >= 2 && effects[0] == PushVolume(0, oldFinal)
    ensures exists k :: 0 <= k < |effects| && effects[k] == PushVolume(1, newFinal)
  {
    var first := new Sink(0, oldVolume);
    var second := new Sink(1, newVolume);
    var gesture := new VolumeUpDownGesture(first, volMaxNorm, maxLevel);
    gesture.OnUpdate(before.delta, before.distance, volMaxNorm, maxLevel);
    var afterFirst := |gesture.log|;
    gesture.HandleSinkChange(second);
    gesture.OnUpdate(after.delta, after.distance, volMaxNorm, maxLevel);
    oldFinal := first.volume;
    newFinal := second.volume;
    effects := gesture.log;
    assert effects[afterFirst] == PushVolume(1, newFinal);
  }
}
