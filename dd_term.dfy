/**
 * The four-finger vertical swipe that opens or closes the ddterm drop-down
 * terminal (`DropDownTerminal`). The terminal is toggled with F12: a gesture
 * that starts with the terminal hidden sends F12 at once, and the completion
 * of the end animation sends F12 again when the terminal has to be hidden
 * (a committed close or a cancelled open).
 */
module DdTerm {
  import opened Wrappers
  import opened Numeric
  import opened Shell

  const DDTERM_APP_ID: string := "com.github.amezin.ddterm"
  const CLOSE_OPACITY: real := 0.0
  const FULL_OPACITY: real := 255.0
  /** Progress a gesture must pass, away from where it started, to commit. */
  const SNAP_POINT_THRESHOLD: real := 0.2
  const COMMIT_DURATION: real := 400.0
  const CANCEL_DURATION: real := 100.0

  /** The direction of the current gesture, decided when it begins. */
  datatype TermAction = Closing | Opening

  function IsTerminal(focus: Option<Window>): bool
  {
    focus.Some? && focus.value.appId == DDTERM_APP_ID
  }

  function FocusActor(focus: Option<Window>): Actor?
  {
    if focus.Some? then focus.value.actor else null
  }

  /** One update of the progress: the delta, scaled by the distance, added and clamped to [0, 1]. */
  function Advance(progress: real, move: Move): real
    requires move.distance != 0.0
  {
    Clamp(progress + move.delta / move.distance, 0.0, 1.0)
  }

  /** The progress after a run of updates. */
  function Accumulate(progress: real, moves: seq<Move>): real
    requires ValidMoves(moves)
  {
    if moves == [] then progress
    else Advance(Accumulate(progress, moves[..|moves| - 1]), moves[|moves| - 1])
  }

  /** Progress that starts in [0, 1] stays in [0, 1] after any run of updates. */
  lemma {:induction false} AccumulateWithinUnit(progress: real, moves: seq<Move>)
    requires ValidMoves(moves) && 0.0 <= progress <= 1.0
    ensures 0.0 <= Accumulate(progress, moves) <= 1.0
  {
    if moves != [] {
      AccumulateWithinUnit(progress, moves[..|moves| - 1]);
    }
  }

  /** An update that stays inside [0, 1] moves the progress by exactly delta / distance. */
  lemma AdvanceUnclamped(progress: real, move: Move)
    requires move.distance != 0.0
    requires 0.0 <= progress + move.delta / move.distance <= 1.0
    ensures Advance(progress, move) - progress == move.delta / move.distance
  {
  }

  /**
   * The snap rule of `_gestureEnd`: an opening gesture commits past 0.2, a
   * closing one below 0.8; both comparisons are strict.
   */
  function Commits(action: TermAction, progress: real): bool
  {
    (action == Opening && progress > SNAP_POINT_THRESHOLD) ||
    (action == Closing && progress < 1.0 - SNAP_POINT_THRESHOLD)
  }

  /** The closing rule is the opening rule seen from the other end of the range. */
  lemma CommitsMirrored(progress: real)
    ensures Commits(Closing, 1.0 - progress) == Commits(Opening, progress)
    ensures Commits(Opening, 0.25) && !Commits(Opening, 0.15) && !Commits(Opening, SNAP_POINT_THRESHOLD)
    ensures Commits(Closing, 0.75) && !Commits(Closing, 0.8)
  {
  }

  /** Whether the end animation leaves the terminal shown: an open that commits or a close that is cancelled. */
  function ShowsTerminal(action: TermAction, committed: bool): bool
  {
    (action == Opening) == committed
  }

  /** Whether the completion of the end animation toggles the terminal (F12). */
  function TogglesOnCompletion(action: TermAction, committed: bool): bool
  {
    if committed then action == Closing else action == Opening
  }

  /**
   * Counting the F12 sent at the beginning of an opening gesture and the one
   * sent on completion, a gesture toggles the terminal an odd number of times
   * exactly when it commits, and the completion toggle fires exactly when the
   * animation hides the terminal.
   */
  lemma ToggleParity(action: TermAction, committed: bool)
    ensures var toggles := (if action == Opening then 1 else 0) + (if TogglesOnCompletion(action, committed) then 1 else 0);
      (toggles % 2 == 1 <==> committed) &&
      (TogglesOnCompletion(action, committed) <==> !ShowsTerminal(action, committed))
  {
  }

  /** The config of `_animateActor`: opacity and vertical scale to shown or hidden. */
  function TermConfig(props: Props, shown: bool): (config: seq<Tween>)
    ensures DistinctProps(config)
  {
    [Tween(Opacity, props.opacity, if shown then FULL_OPACITY else CLOSE_OPACITY),
     Tween(ScaleY, props.scaleY, if shown then 1.0 else 0.0)]
  }

  /** Once the end animation has run, the terminal is fully shown or fully hidden. */
  lemma TermTargets(props: Props, transitions: map<Prop, Transition>, shown: bool, duration: real)
    ensures var s := Settled(props, Schedule(transitions, TermConfig(props, shown), duration));
      s.opacity == (if shown then FULL_OPACITY else CLOSE_OPACITY) && s.scaleY == (if shown then 1.0 else 0.0)
  {
    var config := TermConfig(props, shown);
    ScheduleSpec(transitions, config, duration);
    assert config[0].prop == Opacity && config[1].prop == ScaleY;
  }

  class DropDownTerminal {
    var progress: real
    var focusWindow: Option<Window>
    var actor: Actor?
    var currentAction: TermAction
    /** Whether a 'window-created' listener has been connected (one is added by every opening gesture, none is removed). */
    var listening: bool
    /** The external effects requested so far. */
    var log: seq<Effect>

    constructor ()
      ensures progress == 0.0 && focusWindow == None && actor == null && currentAction == Closing
      ensures !listening && log == []
    {
      progress := 0.0;
      focusWindow := None;
      actor := null;
      currentAction := Closing;
      listening := false;
      log := [];
    }

    /**
     * `_gestureBegin`: with the terminal focused the gesture closes it,
     * starting from progress 1 with the terminal fully shown; otherwise it
     * opens it, starting from progress 0, and F12 is sent once.
     */
    method GestureBegin(focus: Option<Window>)
      modifies this, if IsTerminal(focus) then FocusActor(focus) else null
      ensures focusWindow == focus
      ensures IsTerminal(focus) ==>
        currentAction == Closing && progress == 1.0 && actor == focus.value.actor &&
        log == old(log) && listening == old(listening)
      ensures !IsTerminal(focus) ==>
        currentAction == Opening && progress == 0.0 && actor == null &&
        log == old(log) + [SendKeys([F12])] && listening
      ensures IsTerminal(focus) && actor != null ==>
        actor.props == old(FocusActor(focus).props).(scaleX := 1.0, scaleY := 1.0, opacity := FULL_OPACITY) &&
        actor.visible == old(FocusActor(focus).visible) && actor.transitions == old(FocusActor(focus).transitions) &&
        actor.handlers == old(FocusActor(focus).handlers)
    {
      progress := 0.0;
      focusWindow := focus;
      var isTermOpen := IsTerminal(focus);
      actor := if isTermOpen then focus.value.actor else null;
      currentAction := if isTermOpen then Closing else Opening;
      if !isTermOpen {
        ToggleDDTerm();
        listening := true;
      }
      if actor != null {
        actor.props := actor.props.(scaleX := 1.0, scaleY := if isTermOpen then 1.0 else 0.0);
      }
      progress := if isTermOpen then 1.0 else 0.0;
      if actor != null {
        actor.props := actor.props.(opacity := if isTermOpen then FULL_OPACITY else CLOSE_OPACITY);
      }
    }

    /** The 'window-created' listener: a new ddterm window becomes the gesture's window and actor. */
    method WindowCreated(window: Window)
      requires listening
      modifies this`focusWindow, this`actor
      ensures window.appId == DDTERM_APP_ID ==> focusWindow == Some(window) && actor == window.actor
      ensures window.appId != DDTERM_APP_ID ==> focusWindow == old(focusWindow) && actor == old(actor)
    {
      if window.appId == DDTERM_APP_ID {
        focusWindow := Some(window);
        actor := window.actor;
      }
    }

    /** `_gestureUpdate`: progress moves by delta / distance, clamped; the terminal's height and opacity follow it. */
    method GestureUpdate(delta: real, distance: real)
      requires distance != 0.0
      modifies this`progress, actor
      ensures progress == Advance(old(progress), Move(delta, distance))
      ensures 0.0 <= progress <= 1.0
      ensures actor != null ==>
        actor.props == old(actor.props).(scaleX := 1.0, scaleY := progress, opacity := Lerp(CLOSE_OPACITY, FULL_OPACITY, progress)) &&
        0.0 <= actor.props.opacity <= FULL_OPACITY &&
        actor.visible == old(actor.visible) && actor.transitions == old(actor.transitions) &&
        actor.handlers == old(actor.handlers)
    {
      progress := Clamp(progress + delta / distance, 0.0, 1.0);
      if actor != null {
        actor.props := actor.props.(scaleX := 1.0, scaleY := progress);
        LerpWithin(CLOSE_OPACITY, FULL_OPACITY, progress);
        actor.props := actor.props.(opacity := Lerp(CLOSE_OPACITY, FULL_OPACITY, progress));
      }
    }

    /**
     * `_gestureEnd`: a committed gesture animates over 400 ms and toggles on
     * completion if it was closing; a cancelled one animates back over 100 ms
     * and toggles on completion if it was opening.
     */
    method GestureEnd()
      modifies actor
      ensures var committed := Commits(currentAction, progress);
        actor != null ==>
          actor.transitions == Schedule(old(actor.transitions),
            TermConfig(old(actor.props), ShowsTerminal(currentAction, committed)),
            if committed then COMMIT_DURATION else CANCEL_DURATION) &&
          Appended(old(actor.handlers), actor.handlers, TogglesOnCompletion(currentAction, committed)) &&
          fresh(actor.handlers[|actor.handlers| - 1].id) &&
          actor.props == old(actor.props) && actor.visible == old(actor.visible)
    {
      if (currentAction == Opening && progress > SNAP_POINT_THRESHOLD) ||
         (currentAction == Closing && progress < 1.0 - SNAP_POINT_THRESHOLD) {
        AnimateActor(true, currentAction == Closing, COMMIT_DURATION);
      } else {
        AnimateActor(false, currentAction == Opening, CANCEL_DURATION);
      }
    }

    /** `_toggleDDTerm`: F12 is sent. */
    method ToggleDDTerm()
      modifies this`log
      ensures log == old(log) + [SendKeys([F12])]
    {
      log := log + [SendKeys([F12])];
    }

    /**
     * `_animateActor`: with an actor, opacity and vertical scale animate to
     * shown when the gesture's intent and its completion agree (an open that
     * commits, a close that is cancelled) and to hidden otherwise, and one
     * completion handler is connected; without an actor nothing happens.
     */
    method AnimateActor(completed: bool, toggle: bool, duration: real)
      modifies actor
      ensures actor != null ==>
        actor.transitions == Schedule(old(actor.transitions),
          TermConfig(old(actor.props), (currentAction == Opening) == completed), duration) &&
        Appended(old(actor.handlers), actor.handlers, toggle) &&
        fresh(actor.handlers[|actor.handlers| - 1].id) &&
        actor.props == old(actor.props) && actor.visible == old(actor.visible)
    {
      if actor != null {
        var config := TermConfig(actor.props, (currentAction == Opening) == completed);
        actor.ApplyConfig(config, duration);
        var id := actor.Connect(toggle);
      }
    }

    /**
     * One call of a completion handler connected by `_animateActor`: it
     * toggles the terminal if it was connected to, disconnects itself from the
     * actor the gesture currently holds, and that actor is dropped.
     */
    method OnTransitionsCompleted(a: Actor, id: HandlerId)
      requires Connected(a.handlers, id)
      modifies this`log, this`actor, actor
      ensures log == old(log) + (if Find(old(a.handlers), id).fire then [SendKeys([F12])] else [])
      ensures actor == null
      ensures old(actor) != null ==>
        old(actor).handlers == Disconnect(old(actor.handlers), id) &&
        old(actor).props == old(actor.props) && old(actor).visible == old(actor.visible) &&
        old(actor).transitions == old(actor.transitions)
    {
      if Find(a.handlers, id).fire {
        ToggleDDTerm();
      }
      if actor != null {
        actor.handlers := Disconnect(actor.handlers, id);
      }
      actor := null;
    }
  }

  /**
   * The start of a session on a fresh handler: begin with the terminal
   * focused or with no focused window, and the ddterm window appearing if it
   * is created while opening.
   */
  method BeginSession(act: Actor, terminalFocused: bool, windowCreated: bool) returns (gesture: DropDownTerminal)
    modifies act
    ensures fresh(gesture)
    ensures gesture.actor == (if terminalFocused || windowCreated then act else null)
    ensures gesture.currentAction == (if terminalFocused then Closing else Opening)
    ensures gesture.progress == (if terminalFocused then 1.0 else 0.0)
    ensures gesture.log == (if terminalFocused then [] else [SendKeys([F12])])
    ensures act.handlers == old(act.handlers)
  {
    var terminal := Window(1, DDTERM_APP_ID, act, false, false, Rect(0, 0, 0, 0));
    gesture := new DropDownTerminal();
    gesture.GestureBegin(if terminalFocused then Some(terminal) else None);
    if !terminalFocused && windowCreated {
      gesture.WindowCreated(terminal);
    }
  }

  /**
   * The end of a session: the end animation is scheduled, runs to its end,
   * and its completion handler is called.
   */
  method EndSession(gesture: DropDownTerminal, act: Actor, present: bool)
    requires gesture.actor == (if present then act else null) && act.handlers == []
    modifies gesture, act
    ensures var committed := Commits(old(gesture.currentAction), old(gesture.progress));
      var shown := ShowsTerminal(old(gesture.currentAction), committed);
      gesture.log == old(gesture.log) +
        (if present && TogglesOnCompletion(old(gesture.currentAction), committed) then [SendKeys([F12])] else []) &&
      (present ==>
        act.props.opacity == (if shown then FULL_OPACITY else CLOSE_OPACITY) &&
        act.props.scaleY == (if shown then 1.0 else 0.0))
  {
    var action := gesture.currentAction;
    var committed := Commits(action, gesture.progress);
    var props := act.props;
    var transitions := act.transitions;
    gesture.GestureEnd();
    if present {
      TermTargets(props, transitions, ShowsTerminal(action, committed), if committed then COMMIT_DURATION else CANCEL_DURATION);
      var h := act.handlers[0];
      act.FinishTransitions();
      assert Find(act.handlers, h.id) == h;
      gesture.OnTransitionsCompleted(act, h.id);
    }
  }

  /**
   * One whole gesture on a fresh handler: begin (with the terminal focused, or
   * with no focused window), the ddterm window appearing if it is created
   * while opening, the updates, the end, the animation running to its end and
   * the completion handler's call. The gesture commits by the snap rule on the
   * accumulated progress; only F12 is ever sent; and when the terminal's actor
   * was there to animate, F12 was sent an odd number of times exactly when the
   * gesture committed, and the terminal ends shown exactly when an open
   * committed or a close was cancelled.
   */
  method TerminalSession(terminalFocused: bool, windowCreated: bool, start: Props, moves: seq<Move>)
    returns (committed: bool, effects: seq<Effect>, settled: Props)
    requires ValidMoves(moves)
    ensures var action := if terminalFocused then Closing else Opening;
      committed == Commits(action, Accumulate(if terminalFocused then 1.0 else 0.0, moves))
    ensures forall i :: 0 <= i < |effects| ==> effects[i] == SendKeys([F12])
    ensures terminalFocused || windowCreated ==>
      (|effects| % 2 == 1 <==> committed) &&
      var shown := (!terminalFocused) == committed;
      settled.opacity == (if shown then FULL_OPACITY else CLOSE_OPACITY) &&
      settled.scaleY == (if shown then 1.0 else 0.0)
    ensures !terminalFocused && !windowCreated ==> |effects| == 1
  {
    var act := new Actor(start);
    var gesture := BeginSession(act, terminalFocused, windowCreated);
    var action := gesture.currentAction;
    var initial := gesture.progress;
    var present := terminalFocused || windowCreated;
    var i := 0;
    while i < |moves|
      invariant 0 <= i <= |moves|
      invariant gesture.actor == (if present then act else null)
      invariant act.handlers == []
      invariant gesture.currentAction == action
      invariant gesture.log == (if terminalFocused then [] else [SendKeys([F12])])
      invariant gesture.progress == Accumulate(initial, moves[..i])
    {
      gesture.GestureUpdate(moves[i].delta, moves[i].distance);
      assert moves[..i + 1][..i] == moves[..i];
      i := i + 1;
    }
    assert moves[..|moves|] == moves;
    committed := Commits(action, gesture.progress);
    EndSession(gesture, act, present);
    ToggleParity(action, committed);
    effects := gesture.log;
    settled := act.props;
  }

  /** Two committed closes of the focused terminal, the second ending before the first one's animation has completed. */
  method OverlappingCloseEnds(act: Actor) returns (gesture: DropDownTerminal)
    requires act.handlers == []
    modifies act
    ensures fresh(gesture)
    ensures gesture.actor == act && gesture.log == []
    ensures |act.handlers| == 2 && act.handlers[0].id != act.handlers[1].id
    ensures act.handlers[0].fire && act.handlers[1].fire
  {
    var terminal := Window(1, DDTERM_APP_ID, act, false, false, Rect(0, 0, 0, 0));
    gesture := new DropDownTerminal();
    gesture.GestureBegin(Some(terminal));
    gesture.GestureUpdate(-1.0, 2.0);
    gesture.GestureEnd();
    gesture.GestureBegin(Some(terminal));
    gesture.GestureUpdate(-1.0, 2.0);
    gesture.GestureEnd();
  }

  /**
   * Two closing gestures on the focused terminal, the second one ending before
   * the first one's animation has completed: each end connects its own
   * completion handler and neither is replaced, so when the transitions
   * complete both handlers toggle and F12 is sent twice (the terminal is
   * hidden and shown again). The second handler finds no actor held by the
   * gesture, so it stays connected to the terminal's actor, and having no
   * once-guard it sends F12 again on the next 'transitions-completed'.
   */
  method OverlappingClosesSession(start: Props) returns (effects: seq<Effect>, leftConnected: nat, later: seq<Effect>)
    ensures effects == [SendKeys([F12]), SendKeys([F12])]
    ensures leftConnected == 1
    ensures later == effects + [SendKeys([F12])]
  {
    var act := new Actor(start);
    var gesture := OverlappingCloseEnds(act);
    var first := act.handlers[0];
    var second := act.handlers[1];
    act.FinishTransitions();
    assert Find(act.handlers, first.id) == first;
    gesture.OnTransitionsCompleted(act, first.id);
    assert act.handlers == [second];
    assert Find(act.handlers, second.id) == second;
    gesture.OnTransitionsCompleted(act, second.id);
    effects := gesture.log;
    leftConnected := |act.handlers|;
    assert act.handlers == [second];
    gesture.OnTransitionsCompleted(act, second.id);
    later := gesture.log;
  }
}
