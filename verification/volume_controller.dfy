/**
 * The VolumeController object: the six volume fields it updates in place, the
 * commands it has handed to the control interface, the constructor that reads
 * the volume settings, the poll of the input device and the four slots the
 * control interface calls back.
 */
module Controller {
  import opened VolumeMachine
  import opened ConfigParse

  /** The state a controller starts in: the configured settings and an upper bound of 0 dB, unmuted. */
  function InitialState(settings: VolumeSettings): (s: VolumeState)
    ensures !s.muted && MuteInvariant(s)
  {
    VolumeState(settings.defaultVolume, settings.muteVolume, settings.minVolume, 0.0, settings.stepSize, false)
  }

  class VolumeController {
    var currentVolume: real
    var preMuteVolume: real
    var minVolume: real
    var maxVolume: real
    var stepSize: real
    var isMuted: bool
    /** The commands handed to the control interface so far, oldest first. */
    var outbox: seq<Command>

    /** The volume fields as one value. */
    function State(): VolumeState
      reads this
    {
      VolumeState(currentVolume, preMuteVolume, minVolume, maxVolume, stepSize, isMuted)
    }

    /** While muted, the pre-mute volume is the current volume. */
    ghost predicate Valid()
      reads this
    {
      MuteInvariant(State())
    }

    /**
     * Starts from the defaults, lets the settings file (`configLines`, empty
     * when there is no file) override them, and connects to the engine.
     */
    constructor (configLines: seq<string>, toDouble: string -> real)
      ensures Valid()
      ensures State() == InitialState(ConfiguredVolumeSettings(configLines, toDouble))
      ensures outbox == [ConnectToHost(Host, Port, 0)]
    {
      var settings := ReadVolumeSettings(configLines, toDouble);
      currentVolume := settings.defaultVolume;
      preMuteVolume := settings.muteVolume;
      minVolume := settings.minVolume;
      maxVolume := 0.0;
      stepSize := settings.stepSize;
      isMuted := false;
      outbox := [ConnectToHost(Host, Port, 0)];
    }

    /**
     * One tick of the polling timer: handles the events drained from the
     * device, strictly in order, and issues the volume commands they cause.
     */
    method ReadInputEvents(events: seq<InputEvent>)
      requires Valid()
      modifies this
      ensures Valid()
      ensures State() == Drain(old(State()), events).next
      ensures outbox == old(outbox) + Drain(old(State()), events).issued
    {
      var i := 0;
      while i < |events|
        invariant 0 <= i <= |events|
        invariant Valid()
        invariant State() == Drain(old(State()), events[..i]).next
        invariant outbox == old(outbox) + Drain(old(State()), events[..i]).issued
      {
        HandleEvent(events[i]);
        assert events[..i + 1] == events[..i] + [events[i]];
        DrainSnoc(old(State()), events[..i], events[i]);
        i := i + 1;
      }
      assert events[..i] == events;
    }

    /**
     * The body of the polling loop for one event: a key press of volume up or
     * down moves the volume by one step within the bounds unless muted, and a
     * mute press saves and silences or restores.
     */
    method HandleEvent(ev: InputEvent)
      requires Valid()
      modifies this
      ensures Valid()
      ensures State() == OnEvent(old(State()), ev).next
      ensures outbox == old(outbox) + OnEvent(old(State()), ev).issued
    {
      if ev.status == Success && ev.evType == EV_KEY && ev.value == 1 {
        match ev.code {
          case VolumeUp =>
            if !isMuted {
              var newVolume := QBound(minVolume, currentVolume + stepSize, maxVolume);
              if newVolume != currentVolume {
                currentVolume := newVolume;
                outbox := outbox + [SetVolume(currentVolume)];
              }
            }
          case VolumeDown =>
            if !isMuted {
              var newVolume := QBound(minVolume, currentVolume - stepSize, maxVolume);
              if newVolume != currentVolume {
                currentVolume := newVolume;
                outbox := outbox + [SetVolume(currentVolume)];
              }
            }
          case Mute =>
            if !isMuted {
              preMuteVolume := currentVolume;
              isMuted := true;
              outbox := outbox + [SetVolume(minVolume)];
            } else {
              isMuted := false;
              outbox := outbox + [SetVolume(preMuteVolume)];
            }
          case OtherKey =>
        }
      }
    }

    /** Connected to the engine: asks for the volume range and the full state. */
    method OnConnected()
      requires Valid()
      modifies this
      ensures Valid()
      ensures State() == old(State())
      ensures outbox == old(outbox) + OnNotification(old(State()), Connected).issued
    {
      outbox := outbox + [QueryVolumeRange, QueryState];
    }

    /** The connection failed: a reconnection is scheduled after the retry delay. */
    method OnError(error: string)
      requires Valid()
      modifies this
      ensures Valid()
      ensures State() == old(State())
      ensures outbox == old(outbox) + OnNotification(old(State()), Error(error)).issued
    {
      outbox := outbox + [ConnectToHost(Host, Port, RetryDelayMs)];
    }

    /** The engine reported its volume range: the bounds are replaced; the current volume is not clamped. */
    method OnVolumeRangeResponse(min: real, max: real, enabled: bool, adaptive: bool)
      requires Valid()
      modifies this
      ensures Valid()
      ensures State() == OnNotification(old(State()), VolumeRangeResponse(min, max, enabled, adaptive)).next
      ensures outbox == old(outbox)
    {
      minVolume := min;
      maxVolume := max;
    }

    /** The engine reported its state: its volume becomes both the current and the pre-mute volume. */
    method OnStateResponse(report: StateReport)
      modifies this
      ensures Valid()
      ensures State() == OnNotification(old(State()), StateResponse(report)).next
      ensures outbox == old(outbox)
    {
      currentVolume := report.volume;
      preMuteVolume := report.volume;
    }
  }
}
