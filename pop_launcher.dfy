/**
 * The pinch-out gesture that opens the Pop launcher (`PopLauncherExtension`).
 * A 725 x 180 preview is centred on the screen when the pinch begins, grows
 * and fades in with the pinch, and at the end animates either to fully shown
 * (the pinch-out was confirmed, and Super+slash is sent) or back to nothing;
 * when that animation stops the preview is hidden and reset.
 */
module PopLauncher {
  import opened Numeric
  import opened Shell

  const START_OPACITY: real := 0.0
  const FULL_OPACITY: real := 255.0
  const PREVIEW_WIDTH: real := 725.0
  const PREVIEW_HEIGHT: real := 180.0

  /** The states the pinch tracker may end in: the gesture is confirmed only as a pinch out. */
  datatype LauncherState = Default | PinchOut

  /** The preview follows the pinch three times as fast, clamped to [0, 1]. */
  function PreviewProgress(progress: real): (p: real)
    ensures 0.0 <= p <= 1.0
    ensures progress <= 0.0 ==> p == 0.0
    ensures 3.0 * progress >= 1.0 ==> p == 1.0
  {
    Clamp(progress * 3.0, 0.0, 1.0)
  }

  /**
   * The preview never shrinks while the pinch widens, and until it is full
   * it is exactly three times the pinch's progress.
   */
  lemma PreviewProgressMonotone(a: real, b: real)
    requires a <= b
    ensures PreviewProgress(a) <= PreviewProgress(b)
    ensures 0.0 <= 3.0 * a <= 1.0 ==> PreviewProgress(a) == 3.0 * a
  {
  }

  /** The preview's opacity follows its progress from transparent to opaque. */
  function PreviewOpacity(progress: real): (o: real)
  {
    Lerp(START_OPACITY, FULL_OPACITY, PreviewProgress(progress))
  }

  /** The preview's opacity during the pinch stays within [0, 255] and grows with the pinch. */
  lemma PreviewOpacityBounds(a: real, b: real)
    requires a <= b
    ensures START_OPACITY <= PreviewOpacity(a) <= PreviewOpacity(b) <= FULL_OPACITY
  {
    PreviewProgressMonotone(a, b);
    LerpWithin(START_OPACITY, FULL_OPACITY, PreviewProgress(a));
    LerpWithin(START_OPACITY, FULL_OPACITY, PreviewProgress(b));
  }

  /** The preview's box when the pinch begins: 725 x 180, centred on the screen. */
  function PreviewBox(props: Props, screenWidth: real, screenHeight: real): Props
  {
    props.(x := screenWidth / 2.0 - PREVIEW_WIDTH / 2.0, y := screenHeight / 2.0 - PREVIEW_HEIGHT / 2.0,
           width := PREVIEW_WIDTH, height := PREVIEW_HEIGHT)
  }

  /** The preview box is 725 x 180 and its centre is the screen's centre. */
  lemma PreviewBoxCentred(props: Props, screenWidth: real, screenHeight: real)
    ensures var b := PreviewBox(props, screenWidth, screenHeight);
      b.width == PREVIEW_WIDTH && b.height == PREVIEW_HEIGHT &&
      2.0 * b.x + b.width == screenWidth && 2.0 * b.y + b.height == screenHeight &&
      b.opacity == props.opacity && b.scaleX == props.scaleX && b.scaleY == props.scaleY
  {
  }

  /** The config of `_animatePreview`: opacity and both scales to fully shown, or to nothing. */
  function LauncherConfig(props: Props, completed: bool): (config: seq<Tween>)
    ensures DistinctProps(config)
  {
    [Tween(Opacity, props.opacity, if completed then FULL_OPACITY else START_OPACITY),
     Tween(ScaleX, props.scaleX, if completed then 1.0 else 0.0),
     Tween(ScaleY, props.scaleY, if completed then 1.0 else 0.0)]
  }

  /**
   * Once the end animation has run, a confirmed pinch shows the preview
   * opaque at full size and a cancelled one leaves it transparent at size 0;
   * a box property keeps its pending target if it has one, and its value
   * otherwise.
   */
  lemma LauncherTargets(props: Props, transitions: map<Prop, Transition>, completed: bool, duration: real)
    ensures var s := Settled(props, Schedule(transitions, LauncherConfig(props, completed), duration));
      s.opacity == (if completed then FULL_OPACITY else START_OPACITY) &&
      s.scaleX == (if completed then 1.0 else 0.0) && s.scaleY == (if completed then 1.0 else 0.0) &&
      s.x == (if X in transitions then transitions[X].to else props.x) &&
      s.y == (if Y in transitions then transitions[Y].to else props.y) &&
      s.width == (if Width in transitions then transitions[Width].to else props.width) &&
      s.height == (if Height in transitions then transitions[Height].to else props.height)
  {
    var config := LauncherConfig(props, completed);
    ScheduleSpec(transitions, config, duration);
    assert config[0].prop == Opacity && config[1].prop == ScaleX && config[2].prop == ScaleY;
    assert X !in PropsOf(config) && Y !in PropsOf(config);
    assert Width !in PropsOf(config) && Height !in PropsOf(config);
  }

  class PopLauncherExtension {
    /** The preview widget, created once and never replaced. */
    const preview: Actor
    /** The external effects requested so far. */
    var log: seq<Effect>

    /** The preview starts hidden and transparent, at its default scale of 1. */
    constructor (start: Props)
      ensures fresh(preview) && log == []
      ensures preview.props == start.(opacity := START_OPACITY, scaleX := 1.0, scaleY := 1.0)
      ensures !preview.visible && preview.transitions == map[] && preview.handlers == []
    {
      preview := new Actor(start.(opacity := START_OPACITY, scaleX := 1.0, scaleY := 1.0));
      log := [];
    }

    /** `gestureBegin`: the preview is placed in the middle of the screen at 725 x 180 and shown. */
    method GestureBegin(screenWidth: real, screenHeight: real)
      modifies preview
      ensures preview.props == PreviewBox(old(preview.props), screenWidth, screenHeight)
      ensures preview.visible
      ensures preview.transitions == old(preview.transitions) && preview.handlers == old(preview.handlers)
    {
      preview.props := preview.props.(x := screenWidth / 2.0 - PREVIEW_WIDTH / 2.0, y := screenHeight / 2.0 - PREVIEW_HEIGHT / 2.0);
      preview.props := preview.props.(width := PREVIEW_WIDTH, height := PREVIEW_HEIGHT);
      preview.visible := true;
    }

    /** `gestureUpdate`: both scales follow the preview progress and the opacity fades in with it. */
    method GestureUpdate(progress: real)
      modifies preview
      ensures var p := PreviewProgress(progress);
        preview.props == old(preview.props).(scaleX := p, scaleY := p, opacity := PreviewOpacity(progress))
      ensures START_OPACITY <= preview.props.opacity <= FULL_OPACITY
      ensures preview.visible == old(preview.visible)
      ensures preview.transitions == old(preview.transitions) && preview.handlers == old(preview.handlers)
    {
      var p := Clamp(progress * 3.0, 0.0, 1.0);
      preview.props := preview.props.(scaleX := p, scaleY := p);
      PreviewOpacityBounds(progress, progress);
      preview.props := preview.props.(opacity := Lerp(START_OPACITY, FULL_OPACITY, p));
    }

    /** `gestureEnd`: a confirmed pinch out animates to shown and sends the shortcut when it stops; otherwise the preview animates away. */
    method GestureEnd(duration: real, state: LauncherState)
      modifies preview
      ensures var completed := state == PinchOut;
        preview.transitions == Schedule(old(preview.transitions), LauncherConfig(old(preview.props), completed), duration) &&
        Appended(old(preview.handlers), preview.handlers, completed) &&
        fresh(preview.handlers[|preview.handlers| - 1].id)
      ensures preview.props == old(preview.props) && preview.visible == old(preview.visible)
    {
      match state {
        case Default => AnimatePreview(false, false, duration);
        case PinchOut => AnimatePreview(true, true, duration);
      }
    }

    /** `_animatePreview`: opacity and scales are eased to their targets and one stop callback is attached. */
    method AnimatePreview(completed: bool, callback: bool, duration: real)
      modifies preview
      ensures preview.transitions == Schedule(old(preview.transitions), LauncherConfig(old(preview.props), completed), duration)
      ensures Appended(old(preview.handlers), preview.handlers, callback)
      ensures fresh(preview.handlers[|preview.handlers| - 1].id)
      ensures preview.props == old(preview.props) && preview.visible == old(preview.visible)
    {
      var config := LauncherConfig(preview.props, completed);
      preview.ApplyConfig(config, duration);
      var id := preview.Connect(callback);
    }

    /**
     * The stop callback of `_animatePreview`, which the animation calls once:
     * it sends Super+slash if it was given the completion action, then hides
     * and resets the preview.
     */
    method OnAnimationStopped(id: HandlerId)
      requires Connected(preview.handlers, id)
      modifies this`log, preview
      ensures log == old(log) + (if Find(old(preview.handlers), id).fire then [SendKeys([SuperL, Slash])] else [])
      ensures preview.handlers == Disconnect(old(preview.handlers), id)
      ensures preview.props == old(preview.props).(opacity := START_OPACITY, scaleX := 1.0, scaleY := 1.0)
      ensures !preview.visible && preview.transitions == old(preview.transitions)
    {
      if Find(preview.handlers, id).fire {
        InvokeGestureCompleteAction();
      }
      GestureAnimationDone();
      preview.handlers := Disconnect(preview.handlers, id);
    }

    /** `_invokeGestureCompleteAction`: Super+slash is sent, which opens the launcher. */
    method InvokeGestureCompleteAction()
      modifies this`log
      ensures log == old(log) + [SendKeys([SuperL, Slash])]
    {
      log := log + [SendKeys([SuperL, Slash])];
    }

    /** `_gestureAnimationDone`: the preview is hidden, made transparent and given back its scale of 1. */
    method GestureAnimationDone()
      modifies preview
      ensures preview.props == old(preview.props).(opacity := START_OPACITY, scaleX := 1.0, scaleY := 1.0)
      ensures !preview.visible
      ensures preview.transitions == old(preview.transitions) && preview.handlers == old(preview.handlers)
    {
      preview.visible := false;
      preview.props := preview.props.(opacity := START_OPACITY);
      preview.props := preview.props.(scaleX := 1.0, scaleY := 1.0);
    }
  }

  /**
   * One whole pinch on a fresh handler: begin on a screen of the given size,
   * the updates, the end in the given state, the animation running to its end
   * and the stop callback. While pinching, the preview is centred at 725 x 180
   * and scaled and faded by the last update's preview progress; the end
   * animation leaves it fully shown exactly when the pinch out was confirmed;
   * Super+slash is sent exactly then, once; and afterwards the preview is
   * hidden, transparent and at scale 1 again.
   */
  method LauncherSession(screenWidth: real, screenHeight: real, start: Props, progresses: seq<real>,
                         state: LauncherState, duration: real)
    returns (pinched: Props, animated: Props, final: Props, visible: bool, effects: seq<Effect>)
    ensures 2.0 * pinched.x + pinched.width == screenWidth && 2.0 * pinched.y + pinched.height == screenHeight
    ensures pinched.width == PREVIEW_WIDTH && pinched.height == PREVIEW_HEIGHT
    ensures progresses != [] ==>
      var p := PreviewProgress(progresses[|progresses| - 1]);
      pinched.scaleX == p && pinched.scaleY == p && START_OPACITY <= pinched.opacity <= FULL_OPACITY &&
      pinched.opacity == PreviewOpacity(progresses[|progresses| - 1])
    ensures animated.opacity == (if state == PinchOut then FULL_OPACITY else START_OPACITY)
    ensures animated.scaleX == animated.scaleY == (if state == PinchOut then 1.0 else 0.0)
    ensures effects == (if state == PinchOut then [SendKeys([SuperL, Slash])] else [])
    ensures !visible && final == animated.(opacity := START_OPACITY, scaleX := 1.0, scaleY := 1.0)
  {
    var launcher := new PopLauncherExtension(start);
    var preview := launcher.preview;
    launcher.GestureBegin(screenWidth, screenHeight);
    PreviewBoxCentred(start.(opacity := START_OPACITY, scaleX := 1.0, scaleY := 1.0), screenWidth, screenHeight);
    var placed := preview.props;
    var i := 0;
    while i < |progresses|
      invariant 0 <= i <= |progresses|
      invariant launcher.preview == preview && launcher.log == []
      invariant preview.transitions == map[] && preview.handlers == [] && preview.visible
      invariant i == 0 ==> preview.props == placed
      invariant i > 0 ==>
        var p := PreviewProgress(progresses[i - 1]);
        preview.props == placed.(scaleX := p, scaleY := p, opacity := PreviewOpacity(progresses[i - 1])) &&
        START_OPACITY <= preview.props.opacity <= FULL_OPACITY
    {
      launcher.GestureUpdate(progresses[i]);
      i := i + 1;
    }
    pinched := preview.props;
    launcher.GestureEnd(duration, state);
    LauncherTargets(pinched, map[], state == PinchOut, duration);
    var h := preview.handlers[0];
    preview.FinishTransitions();
    animated := preview.props;
    assert Find(preview.handlers, h.id) == h;
    launcher.OnAnimationStopped(h.id);
    final := preview.props;
    visible := preview.visible;
    effects := launcher.log;
  }
}
