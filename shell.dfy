/**
 * The shell side that the gesture handlers drive and read: an actor (a
 * window's compositor actor or a preview widget) with its animatable
 * properties, the per-property transitions scheduled on it and the completion
 * handlers connected to it; the windows; the swipe tracker's updates; and the
 * external effects the handlers request.
 */
module Shell {
  import opened Wrappers

  /** The animatable properties the handlers name ('x', 'y', 'width', 'height', 'opacity', 'scale-x', 'scale-y'). */
  datatype Prop = X | Y | Width | Height | Opacity | ScaleX | ScaleY

  /** The current values of an actor's animatable properties. */
  datatype Props = Props(x: real, y: real, width: real, height: real, opacity: real, scaleX: real, scaleY: real)
  {
    function Get(p: Prop): real
    {
      match p
      case X => x
      case Y => y
      case Width => width
      case Height => height
      case Opacity => opacity
      case ScaleX => scaleX
      case ScaleY => scaleY
    }

    /** The same values with property `p` set to `v`. */
    function With(p: Prop, v: real): (r: Props)
      ensures r.Get(p) == v
      ensures forall q :: q != p ==> r.Get(q) == Get(q)
    {
      match p
      case X => this.(x := v)
      case Y => this.(y := v)
      case Width => this.(width := v)
      case Height => this.(height := v)
      case Opacity => this.(opacity := v)
      case ScaleX => this.(scaleX := v)
      case ScaleY => this.(scaleY := v)
    }
  }

  /** A transition on one property: its start value, its end value and its duration. */
  datatype Transition = Transition(from: real, to: real, duration: real)

  /** One entry of an animation config: the property, the value it starts from and its target. */
  datatype Tween = Tween(prop: Prop, from: real, to: real)

  /** The properties a config names, in order. */
  function PropsOf(config: seq<Tween>): (ps: seq<Prop>)
    ensures |ps| == |config|
    ensures forall i :: 0 <= i < |config| ==> ps[i] == config[i].prop
  {
    if config == [] then [] else PropsOf(config[..|config| - 1]) + [config[|config| - 1].prop]
  }

  /** No property is named twice (the config objects of the source are JavaScript object literals). */
  predicate DistinctProps(config: seq<Tween>)
  {
    forall i, j :: 0 <= i < j < |config| ==> config[i].prop != config[j].prop
  }

  /** The transitions after each config entry has been set, in order, with the given duration. */
  function Schedule(transitions: map<Prop, Transition>, config: seq<Tween>, duration: real): map<Prop, Transition>
  {
    if config == [] then transitions
    else
      var last := config[|config| - 1];
      Schedule(transitions, config[..|config| - 1], duration)[last.prop := Transition(last.from, last.to, duration)]
  }

  /**
   * Scheduling a config with distinct properties gives each named property
   * exactly its entry's transition and leaves every other property's
   * transition as it was.
   */
  lemma {:induction false} ScheduleSpec(transitions: map<Prop, Transition>, config: seq<Tween>, duration: real)
    requires DistinctProps(config)
    ensures forall i :: 0 <= i < |config| ==>
      config[i].prop in Schedule(transitions, config, duration) &&
      Schedule(transitions, config, duration)[config[i].prop] == Transition(config[i].from, config[i].to, duration)
    ensures forall p :: p !in PropsOf(config) ==>
      (p in Schedule(transitions, config, duration) <==> p in transitions) &&
      (p in transitions ==> Schedule(transitions, config, duration)[p] == transitions[p])
  {
    if config != [] {
      var init := config[..|config| - 1];
      assert DistinctProps(init);
      ScheduleSpec(transitions, init, duration);
      assert PropsOf(config) == PropsOf(init) + [config[|config| - 1].prop];
    }
  }

  /** The property values once every transition has run to its end. */
  function Settled(props: Props, transitions: map<Prop, Transition>): (r: Props)
    ensures forall p :: r.Get(p) == if p in transitions then transitions[p].to else props.Get(p)
  {
    Props(
      if X in transitions then transitions[X].to else props.x,
      if Y in transitions then transitions[Y].to else props.y,
      if Width in transitions then transitions[Width].to else props.width,
      if Height in transitions then transitions[Height].to else props.height,
      if Opacity in transitions then transitions[Opacity].to else props.opacity,
      if ScaleX in transitions then transitions[ScaleX].to else props.scaleX,
      if ScaleY in transitions then transitions[ScaleY].to else props.scaleY)
  }

  /** A signal-handler id; each connection allocates a fresh one, so ids are unique as in GLib. */
  class HandlerId { }

  /**
   * A connected 'transitions-completed' handler: its id, whether its call
   * fires the gesture's completion action, and the `alreadyCalled` flag it
   * captures (unused by handlers that have no such guard).
   */
  datatype Handler = Handler(id: HandlerId, fire: bool, alreadyCalled: bool)

  predicate Connected(handlers: seq<Handler>, id: HandlerId)
  {
    exists i :: 0 <= i < |handlers| && handlers[i].id == id
  }

  /** The first handler connected under `id`. */
  function Find(handlers: seq<Handler>, id: HandlerId): (h: Handler)
    requires Connected(handlers, id)
    ensures h in handlers && h.id == id
  {
    if handlers[0].id == id then handlers[0] else Find(handlers[1..], id)
  }

  /** `disconnect(id)`: every handler under `id` is removed, the others keep their order. */
  function Disconnect(handlers: seq<Handler>, id: HandlerId): (r: seq<Handler>)
    ensures !Connected(r, id)
    ensures forall i :: 0 <= i < |r| ==> r[i] in handlers && r[i].id != id
    ensures forall i :: 0 <= i < |handlers| && handlers[i].id != id ==> handlers[i] in r
    ensures |r| <= |handlers|
  {
    if handlers == [] then []
    else if handlers[0].id == id then Disconnect(handlers[1..], id)
    else [handlers[0]] + Disconnect(handlers[1..], id)
  }

  /** The handlers under `id` with their `alreadyCalled` flag set. */
  function MarkCalled(handlers: seq<Handler>, id: HandlerId): (r: seq<Handler>)
    ensures |r| == |handlers|
    ensures forall i :: 0 <= i < |r| ==>
      r[i] == if handlers[i].id == id then handlers[i].(alreadyCalled := true) else handlers[i]
  {
    if handlers == [] then [] else
      [if handlers[0].id == id then handlers[0].(alreadyCalled := true) else handlers[0]]
      + MarkCalled(handlers[1..], id)
  }

  /** A handler list grown by exactly one handler, not yet called, with the given fire flag. */
  predicate Appended(before: seq<Handler>, after: seq<Handler>, fire: bool)
  {
    |after| == |before| + 1 && after[..|before|] == before &&
    after[|before|].fire == fire && !after[|before|].alreadyCalled
  }

  /** Marking the handlers under `id` makes no difference once they are disconnected. */
  lemma {:induction false} DisconnectMarked(handlers: seq<Handler>, id: HandlerId)
    ensures Disconnect(MarkCalled(handlers, id), id) == Disconnect(handlers, id)
  {
    if handlers != [] {
      assert MarkCalled(handlers, id)[1..] == MarkCalled(handlers[1..], id);
      DisconnectMarked(handlers[1..], id);
    }
  }

  /** A compositor actor: its property values, visibility, running transitions and connected handlers. */
  class Actor {
    var props: Props
    var visible: bool
    var transitions: map<Prop, Transition>
    var handlers: seq<Handler>

    constructor (props: Props)
      ensures this.props == props && !visible
      ensures transitions == map[] && handlers == []
    {
      this.props := props;
      visible := false;
      transitions := map[];
      handlers := [];
    }

    /**
     * The loop of `_animatePreview` / `_animateActor` over the config entries:
     * each entry's transition gets the duration, the start value and the target.
     * (Creating a missing transition by toggling the property is left out.)
     */
    method ApplyConfig(config: seq<Tween>, duration: real)
      modifies this
      ensures transitions == Schedule(old(transitions), config, duration)
      ensures props == old(props) && visible == old(visible) && handlers == old(handlers)
    {
      var i := 0;
      while i < |config|
        invariant 0 <= i <= |config|
        invariant transitions == Schedule(old(transitions), config[..i], duration)
        invariant props == old(props) && visible == old(visible) && handlers == old(handlers)
      {
        var entry := config[i];
        assert config[..i + 1][..i] == config[..i];
        transitions := transitions[entry.prop := Transition(entry.from, entry.to, duration)];
        i := i + 1;
      }
      assert config[..|config|] == config;
    }

    /** `connect('transitions-completed', …)`: a new handler is appended under a fresh id. */
    method Connect(fire: bool) returns (id: HandlerId)
      modifies this
      ensures fresh(id)
      ensures handlers == old(handlers) + [Handler(id, fire, false)]
      ensures props == old(props) && visible == old(visible) && transitions == old(transitions)
    {
      id := new HandlerId;
      handlers := handlers + [Handler(id, fire, false)];
    }

    /**
     * The environment's part of an animation: every transition has run to its
     * target and is removed; 'transitions-completed' is then emitted to each
     * connected handler.
     */
    method FinishTransitions()
      modifies this
      ensures props == Settled(old(props), old(transitions))
      ensures transitions == map[]
      ensures visible == old(visible) && handlers == old(handlers)
    {
      props := Settled(props, transitions);
      transitions := map[];
    }
  }

  /** A Meta.Rectangle. */
  datatype Rect = Rect(x: int, y: int, width: int, height: int)

  /**
   * What the handlers read of a Meta.Window: an id, its GTK application id,
   * its compositor actor (possibly null), whether it is maximized in both
   * directions, whether it is fullscreen, and the work area of its monitor.
   */
  datatype Window = Window(id: nat, appId: string, actor: Actor?, maximizedBoth: bool, fullscreen: bool, workArea: Rect)

  function IdOf(w: Option<Window>): Option<nat>
  {
    if w.Some? then Some(w.value.id) else None
  }

  /** One update of a swipe tracker: the delta moved and the distance it is measured against. */
  datatype Move = Move(delta: real, distance: real)

  predicate ValidMoves(moves: seq<Move>)
  {
    forall i :: 0 <= i < |moves| ==> moves[i].distance != 0.0
  }

  /** The keys the handlers synthesize through the virtual keyboard. */
  datatype Key = ControlL | KeyW | F12 | SuperL | Slash

  /** An external effect, appended to a handler's effect log when it is requested. */
  datatype Effect =
    | SendKeys(keys: seq<Key>)
    | DeleteWindow(window: nat)
    | MaximizeWindow(window: nat)
    | UnmaximizeWindow(window: nat)
    | PushVolume(sink: nat, volume: real)
    | ShowOsd(percentage: int)
}
