/**
 * The volume state machine of the USB volume knob daemon, as pure functions.
 *
 * The controller keeps the current volume, the volume saved when mute was
 * engaged, the range the playback engine accepts, the step of one knob click
 * and the mute flag. Key presses from the knob change that state and issue
 * volume commands to the engine; notifications from the engine overwrite the
 * range or the volume. Decibel values are `double` in the program and `real`
 * here: only `+`, `-` and comparisons are applied to them.
 *
 * The class VolumeController (module Controller) updates its fields in place;
 * every one of its methods is proved to move between the states that the
 * functions of this module compute.
 */
module VolumeMachine {

  // ---------------------------------------------------------------------------
  // State, input and output
  // ---------------------------------------------------------------------------

  /** The controller's volume fields. */
  datatype VolumeState = VolumeState(
    current: real,    // currentVolume
    preMute: real,    // preMuteVolume, restored when mute is released
    minVolume: real,  // lower bound, also the level sent while muted
    maxVolume: real,  // upper bound
    stepSize: real,   // change per knob click
    muted: bool)      // isMuted

  /** While muted, the volume to restore is the volume the controller holds. */
  predicate MuteInvariant(s: VolumeState) {
    s.muted ==> s.current == s.preMute
  }

  /** The current volume lies in the allowed range. */
  predicate InRange(s: VolumeState) {
    s.minVolume <= s.current <= s.maxVolume
  }

  /** The key codes the controller reacts to; every other code is `OtherKey`. */
  datatype Key = VolumeUp | VolumeDown | Mute | OtherKey

  /** The two non-negative results of reading the next event from the device: a plain event or a resynchronisation event. */
  datatype ReadStatus = Success | Sync

  /** The event type of key events in the Linux input event interface. */
  const EV_KEY: int := 1

  /** One event drained from the input device. */
  datatype InputEvent = InputEvent(status: ReadStatus, evType: int, code: Key, value: int)

  /** A key press: a plainly read key event whose value is 1 (releases are 0, auto-repeats 2). */
  predicate IsPress(ev: InputEvent) {
    ev.status == Success && ev.evType == EV_KEY && ev.value == 1
  }

  /** A press of `key`. */
  function Press(key: Key): (ev: InputEvent)
    ensures IsPress(ev) && ev.code == key
  {
    InputEvent(Success, EV_KEY, key, 1)
  }

  /** The host and port of the playback engine's control endpoint, and the delay before reconnecting after an error. */
  const Host: string := "localhost"
  const Port: nat := 4321
  const RetryDelayMs: nat := 5000

  /** What the controller asks of the playback engine's control interface. */
  datatype Command =
    | SetVolume(db: real)                                 // volume(x)
    | QueryVolumeRange                                    // volumeRange()
    | QueryState                                          // state()
    | ConnectToHost(host: string, port: nat, delayMs: nat) // connectToHost, after delayMs milliseconds

  /** The state after an input and the commands it issued, in order. */
  datatype Outcome = Outcome(next: VolumeState, issued: seq<Command>)

  /** The engine's full state report; only `volume` is read by the controller. */
  datatype StateReport = StateReport(
    state: int, mode: int, filter: int, filter1x: int, filterNx: int, shaper: int, rate: int,
    volume: real, activeMode: nat, activeRate: nat,
    invert: bool, convolution: bool, repeat: int, random: bool, adaptive: bool, filter20k: bool,
    matrixProfile: string)

  /** The notifications the control interface delivers to the controller. */
  datatype Notification =
    | Connected
    | Error(message: string)
    | VolumeRangeResponse(min: real, max: real, enabled: bool, adaptive: bool)
    | StateResponse(report: StateReport)

  /** Everything that reaches the controller: one poll of the device, or one notification. */
  datatype Input = Poll(events: seq<InputEvent>) | Notify(notification: Notification)

  // ---------------------------------------------------------------------------
  // Clamping
  // ---------------------------------------------------------------------------

  /**
   * Qt's qBound(lo, v, hi), that is max(lo, min(v, hi)): `v` clamped into
   * [lo, hi] when lo <= hi, and `lo` whenever hi < lo.
   */
  function QBound(lo: real, v: real, hi: real): (r: real)
    ensures lo <= r
    ensures lo <= hi ==> r <= hi
    ensures lo <= v <= hi ==> r == v
    ensures hi < v ==> r == (if lo < hi then hi else lo)
    ensures v < lo ==> r == lo
  {
    var m := if hi < v then hi else v;
    if lo < m then m else lo
  }

  // ---------------------------------------------------------------------------
  // Key presses
  // ---------------------------------------------------------------------------

  /**
   * The reaction to one key press. Volume keys are ignored while muted; mute
   * toggles. Keys never change the range or the step, never issue more than
   * one command, and keep the mute invariant.
   */
  function OnKey(s: VolumeState, key: Key): (o: Outcome)
    ensures |o.issued| <= 1 && forall c | c in o.issued :: c.SetVolume?
    ensures o.next.minVolume == s.minVolume && o.next.maxVolume == s.maxVolume
    ensures o.next.stepSize == s.stepSize
    ensures MuteInvariant(s) ==> MuteInvariant(o.next)
    ensures key == OtherKey ==> o == Outcome(s, [])
    ensures s.muted && key != Mute ==> o == Outcome(s, [])
    ensures key != Mute ==> o.next.muted == s.muted && o.next.preMute == s.preMute
    ensures key == Mute ==> o.next.muted == !s.muted && o.next.current == s.current && |o.issued| == 1
  {
    match key
    case VolumeUp =>
      if s.muted then Outcome(s, [])
      else
        var newVolume := QBound(s.minVolume, s.current + s.stepSize, s.maxVolume);
        if newVolume != s.current then Outcome(s.(current := newVolume), [SetVolume(newVolume)])
        else Outcome(s, [])
    case VolumeDown =>
      if s.muted then Outcome(s, [])
      else
        var newVolume := QBound(s.minVolume, s.current - s.stepSize, s.maxVolume);
        if newVolume != s.current then Outcome(s.(current := newVolume), [SetVolume(newVolume)])
        else Outcome(s, [])
    case Mute =>
      if !s.muted then Outcome(s.(preMute := s.current, muted := true), [SetVolume(s.minVolume)])
      else Outcome(s.(muted := false), [SetVolume(s.preMute)])
    case OtherKey =>
      Outcome(s, [])
  }

  /** The reaction to one drained event: only key presses act. */
  function OnEvent(s: VolumeState, ev: InputEvent): (o: Outcome)
    ensures !IsPress(ev) ==> o == Outcome(s, [])
    ensures IsPress(ev) ==> o == OnKey(s, ev.code)
  {
    if IsPress(ev) then OnKey(s, ev.code) else Outcome(s, [])
  }

  /**
   * One poll of the device: the drained events handled strictly in arrival
   * order. At most one command per event, only volume commands, and the range,
   * the step and the mute invariant are kept.
   */
  function Drain(s: VolumeState, events: seq<InputEvent>): (o: Outcome)
    ensures |o.issued| <= |events|
    ensures forall c | c in o.issued :: c.SetVolume?
    ensures o.next.minVolume == s.minVolume && o.next.maxVolume == s.maxVolume
    ensures o.next.stepSize == s.stepSize
    ensures MuteInvariant(s) ==> MuteInvariant(o.next)
  {
    if |events| == 0 then Outcome(s, [])
    else
      var before := Drain(s, events[..|events| - 1]);
      var last := OnEvent(before.next, events[|events| - 1]);
      Outcome(last.next, before.issued + last.issued)
  }

  /** Handling one more event: the batch before it, then the event, with its command after theirs. */
  lemma DrainSnoc(s: VolumeState, events: seq<InputEvent>, ev: InputEvent)
    ensures var before := Drain(s, events);
            var last := OnEvent(before.next, ev);
            Drain(s, events + [ev]) == Outcome(last.next, before.issued + last.issued)
  {
    assert (events + [ev])[..|events|] == events;
  }

  // ---------------------------------------------------------------------------
  // Notifications from the playback engine
  // ---------------------------------------------------------------------------

  /**
   * The reaction to one notification. A connection asks for the range and the
   * state; an error schedules a reconnection; neither changes the volume
   * fields. A range report replaces the bounds and nothing else; a state report
   * replaces the current and the pre-mute volume and nothing else. The mute
   * flag and the step are never changed, no volume command is issued, and the
   * mute invariant holds afterwards whenever it held before (and always after a
   * state report).
   */
  function OnNotification(s: VolumeState, n: Notification): (o: Outcome)
    ensures o.next.muted == s.muted && o.next.stepSize == s.stepSize
    ensures forall c | c in o.issued :: !c.SetVolume?
    ensures n.Connected? || n.Error? ==> o.next == s
    ensures n.Connected? ==> o.issued == [QueryVolumeRange, QueryState]
    ensures n.Error? ==> o.issued == [ConnectToHost(Host, Port, RetryDelayMs)]
    ensures MuteInvariant(s) || n.StateResponse? ==> MuteInvariant(o.next)
    ensures n.VolumeRangeResponse? ==>
              o.next.minVolume == n.min && o.next.maxVolume == n.max
              && o.next.current == s.current && o.next.preMute == s.preMute && o.issued == []
    ensures n.StateResponse? ==>
              o.next.current == n.report.volume && o.next.preMute == n.report.volume
              && o.next.minVolume == s.minVolume && o.next.maxVolume == s.maxVolume && o.issued == []
  {
    match n
    case Connected => Outcome(s, [QueryVolumeRange, QueryState])
    case Error(_) => Outcome(s, [ConnectToHost(Host, Port, RetryDelayMs)])
    case VolumeRangeResponse(min, max, _, _) => Outcome(s.(minVolume := min, maxVolume := max), [])
    case StateResponse(report) => Outcome(s.(current := report.volume, preMute := report.volume), [])
  }

  /** The reaction to one input of either kind. */
  function OnInput(s: VolumeState, input: Input): Outcome {
    match input
    case Poll(events) => Drain(s, events)
    case Notify(n) => OnNotification(s, n)
  }

  /**
   * A run of the controller: inputs handled one after another, the commands
   * issued in order. The mute invariant holds after any run that starts in it,
   * and the step never changes.
   */
  function Run(s: VolumeState, inputs: seq<Input>): (o: Outcome)
    ensures MuteInvariant(s) ==> MuteInvariant(o.next)
    ensures o.next.stepSize == s.stepSize
  {
    if |inputs| == 0 then Outcome(s, [])
    else
      var before := Run(s, inputs[..|inputs| - 1]);
      var last := OnInput(before.next, inputs[|inputs| - 1]);
      Outcome(last.next, before.issued + last.issued)
  }
}
