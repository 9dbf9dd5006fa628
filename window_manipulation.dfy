/**
 * The pinch gesture that closes, minimizes or maximizes the focused window
 * (`WindowManupulationGesture`). A pinch in previews closing (the window
 * shrinks and fades); on a maximized window, a pinch in that stays close to
 * the rest point (shaped progress at least 0.8) previews minimizing
 * (unmaximizing) instead, and a deeper one still closes. A pinch out previews maximizing by moving
 * the window towards the work area. When the gesture ends, one animation is
 * scheduled on the window's actor, and its completion handler fires the
 * chosen action at most once.
 */
module WindowManipulation {
  import opened Wrappers
  import opened Numeric
  import opened Shell

  const START_OPACITY: real := 0.0
  const FULL_OPACITY: real := 255.0
  /** Shaped pinch-in progress from which a maximized window is minimized rather than closed. */
  const MINIMIZE_THRESHOLD: real := 0.8
  /** The scale a minimized (unmaximized) window animates to. */
  const MINIMIZED_SCALE: real := 0.8
  /** The fraction of the work-area height trimmed at top and bottom for a fullscreen window. */
  const FULLSCREEN_MARGIN: real := 0.025

  /** Whether the completion closes the window itself or only the document in it (Ctrl+W). */
  datatype CloseType = CloseWindow | CloseDocument

  /** The snap points of the pinch tracker. */
  datatype PinchState = PinchIn | Default | PinchOut

  function StateValue(s: PinchState): int
  {
    match s
    case PinchIn => -1
    case Default => 0
    case PinchOut => 1
  }

  datatype EndAction = Close | Maximize | Minimize

  /** The geometry snapshot taken when the gesture begins. */
  datatype Box = Box(x: real, y: real, width: real, height: real)

  /**
   * Tracker progress shifted by the PINCH_IN value: the pinch-in half of the
   * tracker's range lands on [0, 1], the pinch-out half on (1, 2].
   */
  function Shifted(progress: real): (p: real)
    ensures -1.0 <= progress <= 0.0 ==> 0.0 <= p <= 1.0
    ensures 0.0 < progress <= 1.0 ==> 1.0 < p <= 2.0
    ensures p <= 1.0 <==> progress <= 0.0
  {
    progress - StateValue(PinchIn) as real
  }

  /** The outcome a pinch-in update records, from the shaped progress. */
  function PinchInAction(alreadyMaximized: bool, shaped: real): EndAction
  {
    if alreadyMaximized && shaped >= MINIMIZE_THRESHOLD then Minimize else Close
  }

  /** Cubing is monotone on the non-negative reals. */
  lemma CubeMonotone(p: real, q: real)
    requires 0.0 <= p <= q
    ensures Cube(p) <= Cube(q)
  {
    ProductNonNegative(p, p);
    assert p * p <= q * q by {
      ProductNonNegative(q - p, p);
      ProductNonNegative(q - p, q);
      assert q * q - p * p == (q - p) * p + (q - p) * q;
    }
    assert p * (p * p) <= q * (q * q) by {
      ProductNonNegative(q - p, p * p);
      ProductNonNegative(q, q * q - p * p);
      assert q * (q * q) - p * (p * p) == (q - p) * (p * p) + q * (q * q - p * p);
    }
  }

  /**
   * On the pinch-in half, a window that was not maximized always records
   * Close; a maximized one records Minimize once the pinch is released to
   * within 0.07 of the rest point and Close once it is pinched in past 0.08
   * (the cube root of 0.8 is about 0.928).
   */
  lemma PinchInOutcomeBands(alreadyMaximized: bool, progress: real)
    requires -1.0 <= progress <= 0.0
    ensures var action := PinchInAction(alreadyMaximized, Cube(Shifted(progress)));
      action != Maximize &&
      (!alreadyMaximized ==> action == Close) &&
      (alreadyMaximized && progress >= -0.07 ==> action == Minimize) &&
      (progress <= -0.08 ==> action == Close)
  {
    var p := Shifted(progress);
    if progress >= -0.07 {
      CubeMonotone(0.93, p);
      assert Cube(0.93) >= MINIMIZE_THRESHOLD;
    }
    if progress <= -0.08 {
      CubeMonotone(p, 0.92);
      assert Cube(0.92) < MINIMIZE_THRESHOLD;
    }
  }

  /** The preview of a pinch-in update: scale and opacity follow the shaped progress. */
  function PinchInPreview(props: Props, shaped: real): Props
  {
    props.(scaleX := shaped, scaleY := shaped, opacity := Lerp(START_OPACITY, FULL_OPACITY, shaped))
  }

  /** On the pinch-in half the preview scale lies in [0, 1] and the opacity in [0, 255]. */
  lemma PinchInPreviewBounds(props: Props, progress: real)
    requires -1.0 <= progress <= 0.0
    ensures var r := PinchInPreview(props, Cube(Shifted(progress)));
      0.0 <= r.scaleX == r.scaleY <= 1.0 && 0.0 <= r.opacity <= FULL_OPACITY &&
      r.x == props.x && r.y == props.y && r.width == props.width && r.height == props.height
  {
    CubeWithinUnit(Shifted(progress));
    LerpWithin(START_OPACITY, FULL_OPACITY, Cube(Shifted(progress)));
  }

  /** The preview of a pinch-out update: fully opaque, geometry moving from the snapshot towards the box. */
  function PinchOutPreview(props: Props, original: Box, box: Rect, t: real): Props
  {
    props.(opacity := FULL_OPACITY,
           x := Lerp(original.x, box.x as real, t),
           y := Lerp(original.y, box.y as real, t),
           width := Lerp(original.width, box.width as real, t),
           height := Lerp(original.height, box.height as real, t))
  }

  /** `v` lies between `a` and `b`, in either order. */
  predicate Between(v: real, a: real, b: real)
  {
    (a <= v <= b) || (b <= v <= a)
  }

  lemma LerpBetween(a: real, b: real, t: real)
    requires 0.0 <= t <= 1.0
    ensures Between(Lerp(a, b, t), a, b)
  {
    if a <= b {
      LerpWithin(a, b, t);
    } else {
      LerpWithin(b, a, 1.0 - t);
      assert Lerp(b, a, 1.0 - t) == Lerp(a, b, t);
    }
  }

  /**
   * A pinch-out preview starts at the snapshot geometry (t = 0), ends at the
   * box (t = 1) and in between keeps every coordinate between the two.
   */
  lemma PinchOutPreviewPath(props: Props, original: Box, box: Rect, t: real)
    requires 0.0 <= t <= 1.0
    ensures var r := PinchOutPreview(props, original, box, t);
      r.opacity == FULL_OPACITY && r.scaleX == props.scaleX && r.scaleY == props.scaleY &&
      Between(r.x, original.x, box.x as real) && Between(r.y, original.y, box.y as real) &&
      Between(r.width, original.width, box.width as real) && Between(r.height, original.height, box.height as real) &&
      (t == 0.0 ==> r.x == original.x && r.y == original.y && r.width == original.width && r.height == original.height) &&
      (t == 1.0 ==> r.x == box.x as real && r.y == box.y as real && r.width == box.width as real && r.height == box.height as real)
  {
    LerpBetween(original.x, box.x as real, t);
    LerpBetween(original.y, box.y as real, t);
    LerpBetween(original.width, box.width as real, t);
    LerpBetween(original.height, box.height as real, t);
  }

  /**
   * `box` is the maximized box of a window whose monitor has work area `area`:
   * same x and width, same vertical centre, and for a fullscreen window the
   * top moved down by the rounded 2.5% of the height.
   */
  predicate IsMaximizedBox(area: Rect, fullscreen: bool, box: Rect)
  {
    box.x == area.x && box.width == area.width &&
    2 * box.y + box.height == 2 * area.y + area.height &&
    box.y == area.y + (if fullscreen then Round(area.height as real * FULLSCREEN_MARGIN) else 0)
  }

  /** A box with the maximized-box shape of a non-fullscreen window is the work area itself. */
  lemma MaximizedBoxOfWindowed(area: Rect, box: Rect)
    requires IsMaximizedBox(area, false, box)
    ensures box == area
  {
  }

  /** For a work area of non-negative height, the fullscreen maximized box lies inside it. */
  lemma FullscreenBoxInsideWorkArea(area: Rect, box: Rect)
    requires IsMaximizedBox(area, true, box) && area.height >= 0
    ensures area.y <= box.y && box.y + box.height <= area.y + area.height && 0 <= box.height
  {
    var h := Round(area.height as real * FULLSCREEN_MARGIN);
    assert box.height == area.height - 2 * h;
    assert 0 <= h;
    if area.height == 0 || area.height == 1 {
      assert h == 0;
    } else {
      assert 2.0 * (h as real) <= area.height as real * 0.05 + 1.0;
    }
  }

  /** The animation config `_animatePreview` builds, starting each entry from the live value. */
  function AnimationConfig(props: Props, completed: bool, action: EndAction, alreadyMaximized: bool, original: Box, box: Rect): (config: seq<Tween>)
    ensures DistinctProps(config)
    ensures forall i :: 0 <= i < |config| ==> config[i].from == props.Get(config[i].prop)
  {
    if !completed then
      [Tween(X, props.x, original.x), Tween(Y, props.y, original.y),
       Tween(Width, props.width, original.width), Tween(Height, props.height, original.height),
       Tween(Opacity, props.opacity, FULL_OPACITY),
       Tween(ScaleX, props.scaleX, 1.0), Tween(ScaleY, props.scaleY, 1.0)]
    else if action == Close || action == Minimize then
      var scale := if alreadyMaximized && action == Minimize then MINIMIZED_SCALE else 0.0;
      [Tween(Opacity, props.opacity, if action == Close then START_OPACITY else FULL_OPACITY),
       Tween(ScaleX, props.scaleX, scale), Tween(ScaleY, props.scaleY, scale)]
    else
      [Tween(X, props.x, box.x as real), Tween(Y, props.y, box.y as real),
       Tween(Width, props.width, box.width as real), Tween(Height, props.height, box.height as real)]
  }

  /**
   * Where an animation leaves the window once it has run: a cancel restores the
   * snapshot geometry, full opacity and scale 1; a close fades and shrinks to
   * nothing; a minimize of a maximized window stays opaque and shrinks to 0.8;
   * a maximize takes the maximized box.
   */
  lemma AnimationTargets(props: Props, transitions: map<Prop, Transition>, completed: bool, action: EndAction,
                         alreadyMaximized: bool, original: Box, box: Rect, duration: real)
    ensures var s := Settled(props, Schedule(transitions, AnimationConfig(props, completed, action, alreadyMaximized, original, box), duration));
      (!completed ==> s == Props(original.x, original.y, original.width, original.height, FULL_OPACITY, 1.0, 1.0)) &&
      (completed && action == Close ==> s.opacity == START_OPACITY && s.scaleX == 0.0 && s.scaleY == 0.0) &&
      (completed && action == Minimize && alreadyMaximized ==> s.opacity == FULL_OPACITY && s.scaleX == MINIMIZED_SCALE && s.scaleY == MINIMIZED_SCALE) &&
      (completed && action == Maximize ==>
        s.x == box.x as real && s.y == box.y as real && s.width == box.width as real && s.height == box.height as real)
  {
    var config := AnimationConfig(props, completed, action, alreadyMaximized, original, box);
    if !completed {
      CancelTargets(props, transitions, config, original, duration);
    } else if action == Close || action == Minimize {
      ShrinkTargets(props, transitions, config, duration);
    } else {
      MaximizeTargets(props, transitions, config, box, duration);
    }
  }

  /** A cancel config, once run, gives back the snapshot geometry, opacity 255 and scale 1. */
  lemma CancelTargets(props: Props, transitions: map<Prop, Transition>, config: seq<Tween>, original: Box, duration: real)
    requires |config| == 7 && DistinctProps(config)
    requires config[0].prop == X && config[0].to == original.x
    requires config[1].prop == Y && config[1].to == original.y
    requires config[2].prop == Width && config[2].to == original.width
    requires config[3].prop == Height && config[3].to == original.height
    requires config[4].prop == Opacity && config[4].to == FULL_OPACITY
    requires config[5].prop == ScaleX && config[5].to == 1.0
    requires config[6].prop == ScaleY && config[6].to == 1.0
    ensures Settled(props, Schedule(transitions, config, duration)) ==
      Props(original.x, original.y, original.width, original.height, FULL_OPACITY, 1.0, 1.0)
  {
    ScheduleSpec(transitions, config, duration);
    var t := Schedule(transitions, config, duration);
    assert t[X].to == original.x && t[Y].to == original.y;
    assert t[Width].to == original.width && t[Height].to == original.height;
    assert t[Opacity].to == FULL_OPACITY && t[ScaleX].to == 1.0 && t[ScaleY].to == 1.0;
  }

  /** A close or minimize config, once run, gives its opacity and scale targets. */
  lemma ShrinkTargets(props: Props, transitions: map<Prop, Transition>, config: seq<Tween>, duration: real)
    requires |config| == 3 && DistinctProps(config)
    requires config[0].prop == Opacity && config[1].prop == ScaleX && config[2].prop == ScaleY
    ensures var s := Settled(props, Schedule(transitions, config, duration));
      s.opacity == config[0].to && s.scaleX == config[1].to && s.scaleY == config[2].to
  {
    ScheduleSpec(transitions, config, duration);
  }

  /** A maximize config, once run, gives the maximized box. */
  lemma MaximizeTargets(props: Props, transitions: map<Prop, Transition>, config: seq<Tween>, box: Rect, duration: real)
    requires |config| == 4 && DistinctProps(config)
    requires config[0] == Tween(X, props.x, box.x as real) && config[1] == Tween(Y, props.y, box.y as real)
    requires config[2] == Tween(Width, props.width, box.width as real) && config[3] == Tween(Height, props.height, box.height as real)
    ensures var s := Settled(props, Schedule(transitions, config, duration));
      s.x == box.x as real && s.y == box.y as real && s.width == box.width as real && s.height == box.height as real
  {
    ScheduleSpec(transitions, config, duration);
  }

  /** The action a completion effect requests of a window, and that window. */
  function RequestedAction(e: Effect): Option<(EndAction, nat)>
  {
    match e
    case DeleteWindow(w) => Some((Close, w))
    case UnmaximizeWindow(w) => Some((Minimize, w))
    case MaximizeWindow(w) => Some((Maximize, w))
    case _ => None
  }

  /**
   * `_invokeGestureCompleteAction`: in close-window mode, one request on the
   * focused window (none without one), telling which action was chosen; in
   * close-document mode, Ctrl+W whatever the action.
   */
  function Dispatch(closeType: CloseType, action: EndAction, focus: Option<nat>): (effects: seq<Effect>)
    ensures |effects| <= 1
    ensures closeType == CloseDocument ==> effects == [SendKeys([ControlL, KeyW])]
    ensures closeType == CloseWindow ==> |effects| == (if focus.Some? then 1 else 0)
    ensures closeType == CloseWindow && focus.Some? ==> RequestedAction(effects[0]) == Some((action, focus.value))
  {
    match closeType
    case CloseWindow =>
      if focus.None? then []
      else
        (match action
         case Close => [DeleteWindow(focus.value)]
         case Minimize => [UnmaximizeWindow(focus.value)]
         case Maximize => [MaximizeWindow(focus.value)])
    case CloseDocument => [SendKeys([ControlL, KeyW])]
  }

  class WindowManipulationGesture {
    const closeType: CloseType
    var focusWindow: Option<Window>
    var maximizedBox: Rect
    /** The outcome recorded by the last pinch-in update (or set by a pinch-out end); it outlives the gesture. */
    var endAction: EndAction
    var isAlreadyMaximized: bool
    var actor: Actor?
    var originalSize: Box
    /** Only ever false in this version of the extension. */
    var windowClosed: bool
    /** The external effects requested so far. */
    var log: seq<Effect>

    constructor (closeType: CloseType)
      ensures this.closeType == closeType && focusWindow == None
      ensures endAction == Close && !isAlreadyMaximized && maximizedBox == Rect(0, 0, 0, 0)
      ensures actor == null && originalSize == Box(0.0, 0.0, 0.0, 0.0) && !windowClosed && log == []
    {
      this.closeType := closeType;
      focusWindow := None;
      endAction := Close;
      isAlreadyMaximized := false;
      maximizedBox := Rect(0, 0, 0, 0);
      actor := null;
      originalSize := Box(0.0, 0.0, 0.0, 0.0);
      windowClosed := false;
      log := [];
    }

    /** `getMaximizedBox`: the work area of the window's monitor, trimmed top and bottom when fullscreen. */
    static method GetMaximizedBox(window: Window) returns (box: Rect)
      ensures IsMaximizedBox(window.workArea, window.fullscreen, box)
    {
      box := window.workArea;
      if !window.fullscreen {
        return;
      }
      var height := Round(box.height as real * FULLSCREEN_MARGIN);
      box := box.(y := box.y + height);
      box := box.(height := box.height - 2 * height);
    }

    /**
     * `gestureBegin`: with no focused window nothing but the focus is
     * recorded; otherwise the window's actor, its geometry, its maximized box
     * and whether it is already maximized are captured.
     */
    method GestureBegin(focus: Option<Window>)
      modifies this
      ensures !windowClosed && focusWindow == focus
      ensures focus.None? ==>
        actor == old(actor) && originalSize == old(originalSize) &&
        maximizedBox == old(maximizedBox) && isAlreadyMaximized == old(isAlreadyMaximized)
      ensures focus.Some? ==>
        actor == focus.value.actor &&
        originalSize == (if actor != null then Box(actor.props.x, actor.props.y, actor.props.width, actor.props.height)
                         else Box(0.0, 0.0, 0.0, 0.0)) &&
        IsMaximizedBox(focus.value.workArea, focus.value.fullscreen, maximizedBox) &&
        isAlreadyMaximized == focus.value.maximizedBoth
      ensures endAction == old(endAction) && log == old(log)
    {
      windowClosed := false;
      focusWindow := focus;
      if focus.None? {
        return;
      }
      var window := focus.value;
      actor := window.actor;
      originalSize :=
        if actor != null then Box(actor.props.x, actor.props.y, actor.props.width, actor.props.height)
        else Box(0.0, 0.0, 0.0, 0.0);
      maximizedBox := GetMaximizedBox(window);
      isAlreadyMaximized := window.maximizedBoth;
    }

    /**
     * `gestureUpdate`: on the pinch-in half the shaped progress decides the
     * outcome and drives scale and opacity; on the pinch-out half a window not
     * yet maximized moves towards the maximized box; otherwise the window is
     * just made opaque.
     */
    method GestureUpdate(progress: real)
      modifies this, actor
      ensures actor == old(actor) && focusWindow == old(focusWindow) && maximizedBox == old(maximizedBox)
      ensures isAlreadyMaximized == old(isAlreadyMaximized) && originalSize == old(originalSize)
      ensures windowClosed == old(windowClosed) && log == old(log)
      ensures var p := Shifted(progress);
        if p <= 1.0 && actor != null then
          endAction == PinchInAction(isAlreadyMaximized, Cube(p)) &&
          actor.props == PinchInPreview(old(actor.props), Cube(p))
        else
          endAction == old(endAction) &&
          (actor != null && !isAlreadyMaximized ==>
            actor.props == PinchOutPreview(old(actor.props), originalSize, maximizedBox, p - 1.0)) &&
          (actor != null && isAlreadyMaximized ==> actor.props == old(actor.props).(opacity := FULL_OPACITY))
      ensures actor != null ==>
        actor.visible == old(actor.visible) && actor.transitions == old(actor.transitions) && actor.handlers == old(actor.handlers)
    {
      var p := Shifted(progress);
      if p <= 1.0 && actor != null {
        p := Cube(p);
        endAction := PinchInAction(isAlreadyMaximized, p);
        actor.props := actor.props.(scaleX := p, scaleY := p);
        actor.props := actor.props.(opacity := Lerp(START_OPACITY, FULL_OPACITY, p));
      } else if !isAlreadyMaximized && actor != null {
        actor.props := actor.props.(opacity := FULL_OPACITY);
        actor.props := actor.props.(
          x := Lerp(originalSize.x, maximizedBox.x as real, p - 1.0),
          y := Lerp(originalSize.y, maximizedBox.y as real, p - 1.0),
          width := Lerp(originalSize.width, maximizedBox.width as real, p - 1.0),
          height := Lerp(originalSize.height, maximizedBox.height as real, p - 1.0));
      } else if actor != null {
        actor.props := actor.props.(opacity := FULL_OPACITY);
      }
    }

    /**
     * `gestureEnd`: at the rest point the window animates back with no action;
     * a pinch in completes with the recorded outcome; a pinch out first
     * records Maximize and then completes.
     */
    method GestureEnd(duration: real, state: PinchState)
      modifies this, actor
      ensures endAction == if state == PinchOut then Maximize else old(endAction)
      ensures actor == old(actor) && focusWindow == old(focusWindow) && maximizedBox == old(maximizedBox)
      ensures isAlreadyMaximized == old(isAlreadyMaximized) && originalSize == old(originalSize)
      ensures windowClosed == old(windowClosed) && log == old(log)
      ensures actor != null ==>
        actor.transitions == Schedule(old(actor.transitions),
          AnimationConfig(old(actor.props), state != Default, endAction, isAlreadyMaximized, originalSize, maximizedBox), duration) &&
        Appended(old(actor.handlers), actor.handlers, state != Default) &&
        fresh(actor.handlers[|actor.handlers| - 1].id) &&
        actor.props == old(actor.props) && actor.visible == old(actor.visible)
    {
      match state
      case Default =>
        AnimatePreview(false, false, duration);
      case PinchIn =>
        AnimatePreview(true, true, duration);
      case PinchOut =>
        endAction := Maximize;
        AnimatePreview(true, true, duration);
    }

    /**
     * `_animatePreview`: with an actor, the config's transitions are set and
     * one completion handler is connected; without one, nothing happens.
     */
    method AnimatePreview(completed: bool, invoke: bool, duration: real)
      modifies actor
      ensures actor != null ==>
        actor.transitions == Schedule(old(actor.transitions),
          AnimationConfig(old(actor.props), completed, endAction, isAlreadyMaximized, originalSize, maximizedBox), duration) &&
        Appended(old(actor.handlers), actor.handlers, invoke) &&
        fresh(actor.handlers[|actor.handlers| - 1].id) &&
        actor.props == old(actor.props) && actor.visible == old(actor.visible)
    {
      if actor != null {
        var config := AnimationConfig(actor.props, completed, endAction, isAlreadyMaximized, originalSize, maximizedBox);
        actor.ApplyConfig(config, duration);
        var id := actor.Connect(invoke);
      }
    }

    /**
     * One call of a completion handler connected by `_animatePreview`, after
     * `a` emitted 'transitions-completed': the action fires only if the
     * handler was connected to invoke it and has not fired before; a closed
     * window's actor gets its scale and opacity back; the handler disconnects
     * itself from the actor the gesture currently holds, and that actor is
     * dropped.
     */
    method OnTransitionsCompleted(a: Actor, id: HandlerId)
      requires Connected(a.handlers, id)
      modifies this`log, this`actor, a`handlers, actor
      ensures var h := Find(old(a.handlers), id);
        log == old(log) + (if h.fire && !h.alreadyCalled then Dispatch(closeType, endAction, IdOf(focusWindow)) else [])
      ensures actor == null
      ensures focusWindow == old(focusWindow) && maximizedBox == old(maximizedBox) && endAction == old(endAction)
      ensures isAlreadyMaximized == old(isAlreadyMaximized) && originalSize == old(originalSize) && windowClosed == old(windowClosed)
      ensures a != old(actor) ==>
        a.handlers == (if Find(old(a.handlers), id).fire && !Find(old(a.handlers), id).alreadyCalled
                       then MarkCalled(old(a.handlers), id) else old(a.handlers)) &&
        a.props == old(a.props) && a.visible == old(a.visible) && a.transitions == old(a.transitions)
      ensures old(actor) != null ==>
        old(actor).handlers == Disconnect(old(actor.handlers), id) &&
        old(actor).props == (if !windowClosed && endAction == Close
                             then old(actor.props).(scaleX := 1.0, scaleY := 1.0, opacity := FULL_OPACITY)
                             else old(actor.props)) &&
        old(actor).visible == old(actor.visible) && old(actor).transitions == old(actor.transitions)
    {
      FireOnce(a, id);
      if old(actor) != null && a == old(actor) {
        DisconnectMarked(old(a.handlers), id);
      }
      ReleaseActor(id);
    }

    /** The guarded part of a completion handler's call: fire the action unless already called, then mark the handler. */
    method FireOnce(a: Actor, id: HandlerId)
      requires Connected(a.handlers, id)
      modifies this`log, a`handlers
      ensures var h := Find(old(a.handlers), id);
        log == old(log) + (if h.fire && !h.alreadyCalled then Dispatch(closeType, endAction, IdOf(focusWindow)) else []) &&
        a.handlers == (if h.fire && !h.alreadyCalled then MarkCalled(old(a.handlers), id) else old(a.handlers))
    {
      var h := Find(a.handlers, id);
      if h.fire && !h.alreadyCalled {
        InvokeGestureCompleteAction();
        a.handlers := MarkCalled(a.handlers, id);
      }
    }

    /** `_invokeGestureCompleteAction`: the chosen action's effect is requested. */
    method InvokeGestureCompleteAction()
      modifies this`log
      ensures log == old(log) + Dispatch(closeType, endAction, IdOf(focusWindow))
    {
      log := log + Dispatch(closeType, endAction, IdOf(focusWindow));
    }

    /** The rest of a completion handler's call: reset after a close, disconnect, drop the actor. */
    method ReleaseActor(id: HandlerId)
      modifies this`actor, actor
      ensures actor == null
      ensures old(actor) != null ==>
        old(actor).handlers == Disconnect(old(actor.handlers), id) &&
        old(actor).props == (if !windowClosed && endAction == Close
                             then old(actor.props).(scaleX := 1.0, scaleY := 1.0, opacity := FULL_OPACITY)
                             else old(actor.props)) &&
        old(actor).visible == old(actor.visible) && old(actor).transitions == old(actor.transitions)
    {
      if !windowClosed && endAction == Close && actor != null {
        actor.props := actor.props.(scaleX := 1.0, scaleY := 1.0);
        actor.props := actor.props.(opacity := FULL_OPACITY);
      }
      if actor != null {
        actor.handlers := Disconnect(actor.handlers, id);
      }
      actor := null;
    }
  }

  /** The outcome left in `endAction` by a run of updates on a window with an actor. */
  function LastEndAction(alreadyMaximized: bool, progresses: seq<real>, initial: EndAction): EndAction
  {
    if progresses == [] then initial
    else
      var p := Shifted(progresses[|progresses| - 1]);
      if p <= 1.0 then PinchInAction(alreadyMaximized, Cube(p))
      else LastEndAction(alreadyMaximized, progresses[..|progresses| - 1], initial)
  }

  /** A window that was not maximized never records Minimize, whatever the updates. */
  lemma {:induction false} NotMaximizedNeverMinimizes(progresses: seq<real>, initial: EndAction)
    requires initial != Minimize
    ensures LastEndAction(false, progresses, initial) != Minimize
  {
    if progresses != [] {
      NotMaximizedNeverMinimizes(progresses[..|progresses| - 1], initial);
    }
  }

  /** The start of a session on a fresh handler: begin on the window, then the updates. */
  method PinchUpdates(act: Actor, closeType: CloseType, window: Window, progresses: seq<real>)
    returns (gesture: WindowManipulationGesture)
    requires window.actor == act && act.handlers == []
    modifies act
    ensures fresh(gesture)
    ensures gesture.actor == act && act.handlers == []
    ensures gesture.closeType == closeType && gesture.focusWindow == Some(window) && gesture.log == []
    ensures IsMaximizedBox(window.workArea, window.fullscreen, gesture.maximizedBox)
    ensures gesture.isAlreadyMaximized == window.maximizedBoth && !gesture.windowClosed
    ensures gesture.originalSize == Box(old(act.props).x, old(act.props).y, old(act.props).width, old(act.props).height)
    ensures gesture.endAction == LastEndAction(window.maximizedBoth, progresses, Close)
  {
    gesture := new WindowManipulationGesture(closeType);
    gesture.GestureBegin(Some(window));
    var i := 0;
    while i < |progresses|
      invariant 0 <= i <= |progresses|
      invariant gesture.actor == act && act.handlers == []
      invariant gesture.closeType == closeType && gesture.focusWindow == Some(window) && gesture.log == []
      invariant IsMaximizedBox(window.workArea, window.fullscreen, gesture.maximizedBox)
      invariant gesture.isAlreadyMaximized == window.maximizedBoth && !gesture.windowClosed
      invariant gesture.originalSize == Box(old(act.props).x, old(act.props).y, old(act.props).width, old(act.props).height)
      invariant gesture.endAction == LastEndAction(window.maximizedBoth, progresses[..i], Close)
    {
      gesture.GestureUpdate(progresses[i]);
      assert progresses[..i + 1][..i] == progresses[..i];
      i := i + 1;
    }
    assert progresses[..|progresses|] == progresses;
  }

  /**
   * The end of a session: the end animation is scheduled, runs to its end,
   * and its completion handler is called.
   */
  method EndPinchSession(gesture: WindowManipulationGesture, act: Actor, final: PinchState, duration: real)
    requires gesture.actor == act && act.handlers == [] && !gesture.windowClosed
    modifies gesture, act
    ensures gesture.focusWindow == old(gesture.focusWindow)
    ensures gesture.isAlreadyMaximized == old(gesture.isAlreadyMaximized) && gesture.originalSize == old(gesture.originalSize)
    ensures gesture.maximizedBox == old(gesture.maximizedBox)
    ensures var action := if final == PinchOut then Maximize else old(gesture.endAction);
      var s := Settled(old(act.props), Schedule(old(act.transitions),
        AnimationConfig(old(act.props), final != Default, action, gesture.isAlreadyMaximized, gesture.originalSize, gesture.maximizedBox),
        duration));
      gesture.log == old(gesture.log) + (if final != Default then Dispatch(gesture.closeType, action, IdOf(gesture.focusWindow)) else []) &&
      act.props == (if action == Close then s.(scaleX := 1.0, scaleY := 1.0, opacity := FULL_OPACITY) else s)
  {
    gesture.GestureEnd(duration, final);
    var h := act.handlers[0];
    act.FinishTransitions();
    assert Find(act.handlers, h.id) == h;
    gesture.OnTransitionsCompleted(act, h.id);
  }

  /**
   * One whole gesture on a fresh window and handler: begin, the updates, the
   * end, the animation running to its end and the completion handler's call.
   * A gesture released at the rest point requests nothing and restores the
   * window; a pinch in requests the outcome of the last pinch-in update; a
   * pinch out requests maximizing and leaves the window on the maximized box.
   */
  method PinchSession(closeType: CloseType, windowId: nat, start: Props, maximized: bool, fullscreen: bool,
                      workArea: Rect, progresses: seq<real>, final: PinchState, duration: real)
    returns (effects: seq<Effect>, settled: Props, box: Rect)
    ensures IsMaximizedBox(workArea, fullscreen, box)
    ensures final == Default ==>
      effects == [] && settled == start.(opacity := FULL_OPACITY, scaleX := 1.0, scaleY := 1.0)
    ensures final == PinchIn ==>
      effects == Dispatch(closeType, LastEndAction(maximized, progresses, Close), Some(windowId))
    ensures final == PinchIn && LastEndAction(maximized, progresses, Close) == Close ==>
      settled.opacity == FULL_OPACITY && settled.scaleX == 1.0 && settled.scaleY == 1.0
    ensures final == PinchIn && LastEndAction(maximized, progresses, Close) == Minimize ==>
      settled.opacity == FULL_OPACITY && settled.scaleX == MINIMIZED_SCALE && settled.scaleY == MINIMIZED_SCALE
    ensures final == PinchOut ==>
      effects == Dispatch(closeType, Maximize, Some(windowId)) &&
      settled.x == box.x as real && settled.y == box.y as real &&
      settled.width == box.width as real && settled.height == box.height as real
  {
    var act := new Actor(start);
    var window := Window(windowId, "", act, maximized, fullscreen, workArea);
    var gesture := PinchUpdates(act, closeType, window, progresses);
    box := gesture.maximizedBox;
    var props := act.props;
    var transitions := act.transitions;
    var action := if final == PinchOut then Maximize else gesture.endAction;
    EndPinchSession(gesture, act, final, duration);
    AnimationTargets(props, transitions, final != Default, action, maximized, gesture.originalSize, box, duration);
    if !maximized {
      NotMaximizedNeverMinimizes(progresses, Close);
    }
    effects := gesture.log;
    settled := act.props;
  }

  /** Two pinch-ins on the same window, the second ending before the first one's animation has completed. */
  method OverlappingPinchEnds(act: Actor, windowId: nat, workArea: Rect) returns (gesture: WindowManipulationGesture)
    requires act.handlers == []
    modifies act
    ensures fresh(gesture)
    ensures gesture.closeType == CloseWindow && gesture.actor == act && gesture.log == []
    ensures gesture.focusWindow == Some(Window(windowId, "", act, false, false, workArea))
    ensures gesture.endAction == Close && !gesture.windowClosed
    ensures |act.handlers| == 2 && act.handlers[0].id != act.handlers[1].id
    ensures act.handlers[0].fire && !act.handlers[0].alreadyCalled
    ensures act.handlers[1].fire && !act.handlers[1].alreadyCalled
  {
    var window := Window(windowId, "", act, false, false, workArea);
    gesture := new WindowManipulationGesture(CloseWindow);
    gesture.GestureBegin(Some(window));
    gesture.GestureEnd(250.0, PinchIn);
    gesture.GestureBegin(Some(window));
    gesture.GestureEnd(250.0, PinchIn);
  }

  /**
   * Two pinch-in gestures on the same window in close-window mode, the second
   * one ending before the first one's animation has completed. Each end
   * connects its own handler, so the completion closes the window twice; the
   * second handler finds no actor to disconnect from and stays connected, and
   * its `alreadyCalled` guard keeps a later 'transitions-completed' on the
   * window from closing it a third time.
   */
  method OverlappingPinchesSession(windowId: nat, start: Props, workArea: Rect)
    returns (effects: seq<Effect>, leftConnected: nat)
    ensures effects == [DeleteWindow(windowId), DeleteWindow(windowId)]
    ensures leftConnected == 1
  {
    var act := new Actor(start);
    var gesture := OverlappingPinchEnds(act, windowId, workArea);
    var first := act.handlers[0];
    var second := act.handlers[1];
    act.FinishTransitions();
    assert Find(act.handlers, first.id) == first;
    gesture.OnTransitionsCompleted(act, first.id);
    assert act.handlers == [second];
    assert Find(act.handlers, second.id) == second;
    gesture.OnTransitionsCompleted(act, second.id);
    assert act.handlers == [second.(alreadyCalled := true)];
    assert Find(act.handlers, second.id) == second.(alreadyCalled := true);
    gesture.OnTransitionsCompleted(act, second.id);
    effects := gesture.log;
    leftConnected := |act.handlers|;
  }
}
