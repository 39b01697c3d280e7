/**
 * What the volume state machine guarantees: the effect of each key, the
 * clamping and its boundaries, the save-and-restore around mute, the
 * filtering and ordering of drained events, and how the engine's
 * notifications interact with the local state.
 */
module VolumeProperties {
  import opened VolumeMachine
  import opened ConfigParse
  import opened Controller

  // ---------------------------------------------------------------------------
  // Volume keys
  // ---------------------------------------------------------------------------

  /** With room above, volume up raises the volume by exactly one step and issues the new volume. */
  lemma VolumeUpByOneStep(s: VolumeState)
    requires !s.muted && s.stepSize > 0.0
    requires s.minVolume <= s.current && s.current + s.stepSize <= s.maxVolume
    ensures OnKey(s, VolumeUp) == Outcome(s.(current := s.current + s.stepSize), [SetVolume(s.current + s.stepSize)])
  {
  }

  /** With room below, volume down lowers the volume by exactly one step and issues the new volume. */
  lemma VolumeDownByOneStep(s: VolumeState)
    requires !s.muted && s.stepSize > 0.0
    requires s.minVolume <= s.current - s.stepSize && s.current <= s.maxVolume
    ensures OnKey(s, VolumeDown) == Outcome(s.(current := s.current - s.stepSize), [SetVolume(s.current - s.stepSize)])
  {
  }

  /** At the upper bound volume up, and at the lower bound volume down, change nothing and issue nothing. */
  lemma VolumeKeyAtBoundary(s: VolumeState)
    requires !s.muted && s.stepSize >= 0.0 && s.minVolume <= s.maxVolume
    ensures s.current == s.maxVolume ==> OnKey(s, VolumeUp) == Outcome(s, [])
    ensures s.current == s.minVolume ==> OnKey(s, VolumeDown) == Outcome(s, [])
  {
  }

  /**
   * When the range is not empty, an unmuted volume key always leaves the
   * volume inside it, even when it started outside; a command is issued
   * exactly when the volume changed, and it carries the new volume.
   */
  lemma VolumeKeyClampsIntoRange(s: VolumeState, key: Key)
    requires !s.muted && s.minVolume <= s.maxVolume
    requires key == VolumeUp || key == VolumeDown
    ensures var o := OnKey(s, key);
            InRange(o.next)
            && o.next == s.(current := o.next.current)
            && (o.issued == [] <==> o.next.current == s.current)
            && (o.issued != [] ==> o.issued == [SetVolume(o.next.current)])
  {
  }

  /**
   * Where an unmuted volume key puts the volume: one step up or down when that
   * stays inside the range, the upper bound when the step passes it, and the
   * lower bound when the step falls below it or the range is empty.
   */
  lemma VolumeKeyTarget(s: VolumeState, key: Key)
    requires !s.muted && (key == VolumeUp || key == VolumeDown)
    ensures var target := if key == VolumeUp then s.current + s.stepSize else s.current - s.stepSize;
            var v := OnKey(s, key).next.current;
            && (s.minVolume <= target <= s.maxVolume ==> v == target)
            && (s.minVolume <= s.maxVolume < target ==> v == s.maxVolume)
            && (target < s.minVolume || s.maxVolume < s.minVolume ==> v == s.minVolume)
  {
  }

  /**
   * Whatever the range, an unmuted volume key changes only the volume, and
   * issues a command exactly when the volume changed, carrying the new volume.
   */
  lemma VolumeKeyEffect(s: VolumeState, key: Key)
    requires !s.muted && (key == VolumeUp || key == VolumeDown)
    ensures var o := OnKey(s, key);
            && o.next == s.(current := o.next.current)
            && (o.issued == [] <==> o.next.current == s.current)
            && (o.issued != [] ==> o.issued == [SetVolume(o.next.current)])
  {
  }

  /** Just below the upper bound, volume up stops at the bound: from -0.5 dB with a 1 dB step and a 0 dB bound it sends 0 dB. */
  lemma VolumeUpStopsAtBound()
    ensures var s := VolumeState(-0.5, -0.5, -144.0, 0.0, 1.0, false);
            OnKey(s, VolumeUp) == Outcome(s.(current := 0.0), [SetVolume(0.0)])
  {
  }

  /** Volume up never lowers a volume that is not above the upper bound; volume down never raises one that is not below the lower bound. */
  lemma VolumeKeyDirection(s: VolumeState)
    requires s.stepSize >= 0.0
    ensures s.current <= s.maxVolume ==> OnKey(s, VolumeUp).next.current >= s.current
    ensures s.minVolume <= s.current ==> OnKey(s, VolumeDown).next.current <= s.current
  {
  }

  /**
   * The range is not re-clamped when the engine reports a narrower one, so
   * the next volume up can lower the volume: at -10 dB, a new upper bound of
   * -20 dB turns volume up into a command for -20 dB.
   */
  lemma NarrowedRangeThenVolumeUpLowers()
    ensures var s := VolumeState(-10.0, -10.0, -144.0, 0.0, 1.0, false);
            var r := OnNotification(s, VolumeRangeResponse(-144.0, -20.0, true, false)).next;
            !InRange(r) && r.current == -10.0
            && OnKey(r, VolumeUp) == Outcome(r.(current := -20.0), [SetVolume(-20.0)])
  {
  }

  /** Every key keeps the volume in range when it starts in a non-empty range. */
  lemma OnKeyKeepsRange(s: VolumeState, key: Key)
    requires s.minVolume <= s.maxVolume && InRange(s)
    ensures InRange(OnKey(s, key).next)
  {
  }

  // ---------------------------------------------------------------------------
  // Mute
  // ---------------------------------------------------------------------------

  /**
   * Engaging mute saves the current volume and sends the lower bound;
   * releasing it sends the saved volume, which by the mute invariant is the
   * volume the controller holds. Nothing else changes.
   */
  lemma MuteToggle(s: VolumeState)
    requires MuteInvariant(s)
    ensures !s.muted ==> OnKey(s, Mute) == Outcome(s.(preMute := s.current, muted := true), [SetVolume(s.minVolume)])
    ensures s.muted ==> OnKey(s, Mute) == Outcome(s.(muted := false), [SetVolume(s.current)])
  {
    if s.muted {
      assert s.preMute == s.current;
    }
  }

  /** Two mute presses in one poll send the lower bound and then the volume from before, which the controller still holds. */
  lemma MuteRoundTrip(s: VolumeState)
    requires MuteInvariant(s) && !s.muted
    ensures Drain(s, [Press(Mute), Press(Mute)]) == Outcome(s.(preMute := s.current), [SetVolume(s.minVolume), SetVolume(s.current)])
  {
    var press := Press(Mute);
    assert [press, press][..1] == [press];
    assert [press][..0] == [];
    var engage := OnKey(s, Mute);
    assert engage == Outcome(s.(preMute := s.current, muted := true), [SetVolume(s.minVolume)]);
    assert Drain(s, [press]) == Outcome(engage.next, [] + engage.issued);
  }

  /** An input that cannot end mute or overwrite the saved volume: no mute press and no state report. */
  predicate KeepsMute(input: Input) {
    match input
    case Poll(events) => forall k :: 0 <= k < |events| ==> !(IsPress(events[k]) && events[k].code == Mute)
    case Notify(n) => !n.StateResponse?
  }

  /** While muted, a poll without a mute press changes nothing and issues nothing. */
  lemma {:induction false} DrainWhileMuted(s: VolumeState, events: seq<InputEvent>)
    requires s.muted
    requires forall k :: 0 <= k < |events| ==> !(IsPress(events[k]) && events[k].code == Mute)
    ensures Drain(s, events) == Outcome(s, [])
  {
    if |events| > 0 {
      DrainWhileMuted(s, events[..|events| - 1]);
    }
  }

  /**
   * While muted, inputs that keep mute leave the current and the saved volume
   * as they are and send no volume command.
   */
  lemma {:induction false} RunWhileMuted(m: VolumeState, inputs: seq<Input>)
    requires m.muted
    requires forall k :: 0 <= k < |inputs| ==> KeepsMute(inputs[k])
    ensures var r := Run(m, inputs).next;
            r.muted && r.current == m.current && r.preMute == m.preMute
    ensures forall c | c in Run(m, inputs).issued :: !c.SetVolume?
  {
    if |inputs| > 0 {
      var init := inputs[..|inputs| - 1];
      RunWhileMuted(m, init);
      var before := Run(m, init);
      match inputs[|inputs| - 1]
      case Poll(events) => DrainWhileMuted(before.next, events);
      case Notify(n) =>
    }
  }

  /**
   * Mute followed, after any inputs that keep mute, by a second mute restores
   * exactly the volume from before: the first press sends the lower bound, the
   * inputs in between send no volume, and the second press sends the earlier
   * volume, which the controller holds again, unmuted.
   */
  lemma MuteRestoresVolume(s: VolumeState, inputs: seq<Input>)
    requires MuteInvariant(s) && !s.muted
    requires forall k :: 0 <= k < |inputs| ==> KeepsMute(inputs[k])
    ensures var engage := OnKey(s, Mute);
            var between := Run(engage.next, inputs);
            var release := OnKey(between.next, Mute);
            engage.issued == [SetVolume(s.minVolume)]
            && (forall c | c in between.issued :: !c.SetVolume?)
            && release.issued == [SetVolume(s.current)]
            && release.next.current == s.current && !release.next.muted
  {
    RunWhileMuted(OnKey(s, Mute).next, inputs);
  }

  /** A state report while muted resynchronises both volumes and keeps mute; the next mute press sends the reported volume. */
  lemma StateReportWhileMuted(s: VolumeState, report: StateReport)
    requires s.muted
    ensures var r := OnNotification(s, StateResponse(report)).next;
            r.muted && r.current == report.volume && r.preMute == report.volume
            && OnKey(r, Mute).issued == [SetVolume(report.volume)]
  {
  }

  /** Only the reported volume of a state report matters. */
  lemma StateReportReadsOnlyVolume(s: VolumeState, a: StateReport, b: StateReport)
    requires a.volume == b.volume
    ensures OnNotification(s, StateResponse(a)) == OnNotification(s, StateResponse(b))
  {
  }

  // ---------------------------------------------------------------------------
  // Polling: filtering and order
  // ---------------------------------------------------------------------------

  /** An event that can act: a press of one of the three keys. */
  predicate Acts(ev: InputEvent) {
    IsPress(ev) && ev.code != OtherKey
  }

  /** The events that can act, in their order. */
  function Acting(events: seq<InputEvent>): (r: seq<InputEvent>)
    ensures |r| <= |events|
    ensures forall k :: 0 <= k < |r| ==> Acts(r[k])
  {
    if |events| == 0 then []
    else if Acts(events[|events| - 1]) then Acting(events[..|events| - 1]) + [events[|events| - 1]]
    else Acting(events[..|events| - 1])
  }

  /** Releases, auto-repeats, synchronisation events, other event types and other keys have no effect on a poll. */
  lemma {:induction false} DrainOnlyActing(s: VolumeState, events: seq<InputEvent>)
    ensures Drain(s, events) == Drain(s, Acting(events))
  {
    if |events| > 0 {
      var init, e := events[..|events| - 1], events[|events| - 1];
      DrainOnlyActing(s, init);
      if Acts(e) {
        var a := Acting(init);
        assert (a + [e])[..|a|] == a;
      } else {
        assert Drain(s, events).issued == Drain(s, init).issued + [];
      }
    }
  }

  /**
   * Inputs of any kind handled one after another by `step`, the commands
   * collected in order: the shape `Drain` and `Run` share. Facts about this
   * shape are proved once here, for a step the solver knows nothing about.
   */
  function Fold<E>(step: (VolumeState, E) -> Outcome, s: VolumeState, xs: seq<E>): Outcome {
    if |xs| == 0 then Outcome(s, [])
    else
      var before := Fold(step, s, xs[..|xs| - 1]);
      var last := step(before.next, xs[|xs| - 1]);
      Outcome(last.next, before.issued + last.issued)
  }

  /** Folding two runs one after the other is folding their concatenation. */
  lemma {:induction false} FoldAppend<E>(step: (VolumeState, E) -> Outcome, s: VolumeState, a: seq<E>, b: seq<E>)
    ensures var first := Fold(step, s, a);
            var second := Fold(step, first.next, b);
            Fold(step, s, a + b) == Outcome(second.next, first.issued + second.issued)
  {
    if |b| == 0 {
      assert a + b == a;
    } else {
      var init := b[..|b| - 1];
      FoldAppend(step, s, a, init);
      assert (a + b)[..|a + b| - 1] == a + init;
      var first := Fold(step, s, a);
      var mid := Fold(step, first.next, init);
      var last := step(mid.next, b[|b| - 1]);
      assert (first.issued + mid.issued) + last.issued == first.issued + (mid.issued + last.issued);
    }
  }

  /** A poll is the fold of the single-event reaction. */
  lemma {:induction false} DrainIsFold(s: VolumeState, events: seq<InputEvent>)
    ensures Drain(s, events) == Fold(OnEvent, s, events)
  {
    if |events| > 0 {
      DrainIsFold(s, events[..|events| - 1]);
    }
  }

  /** Two batches drained one after the other act like their concatenation, in order. */
  lemma DrainAppend(s: VolumeState, a: seq<InputEvent>, b: seq<InputEvent>)
    ensures var first := Drain(s, a);
            var second := Drain(first.next, b);
            Drain(s, a + b) == Outcome(second.next, first.issued + second.issued)
  {
    DrainIsFold(s, a + b);
    DrainIsFold(s, a);
    DrainIsFold(Drain(s, a).next, b);
    FoldAppend(OnEvent, s, a, b);
  }

  /** A poll that starts in a non-empty range with the volume inside it ends inside it. */
  lemma {:induction false} DrainKeepsRange(s: VolumeState, events: seq<InputEvent>)
    requires s.minVolume <= s.maxVolume && InRange(s)
    ensures InRange(Drain(s, events).next)
  {
    if |events| > 0 {
      var init := events[..|events| - 1];
      DrainKeepsRange(s, init);
      var before := Drain(s, init);
      OnKeyKeepsRange(before.next, events[|events| - 1].code);
    }
  }

  /** `n` presses of `key`. */
  function Presses(key: Key, n: nat): (r: seq<InputEvent>)
    ensures |r| == n
  {
    seq(n, _ => Press(key))
  }

  /** The volume `n` steps of `st` above `c`. */
  function Raised(c: real, st: real, n: nat): (r: real)
    ensures st >= 0.0 ==> c <= r
  {
    if n == 0 then c else Raised(c, st, n - 1) + st
  }

  /** Raised is repeated addition: `n` steps of `st` add `n * st`. */
  lemma {:induction false} RaisedAddsSteps(c: real, st: real, n: nat)
    ensures Raised(c, st, n) == c + (n as real) * st
  {
    if n > 0 {
      RaisedAddsSteps(c, st, n - 1);
      assert ((n - 1) as real) * st + st == (n as real) * st;
    }
  }

  /** The volume commands of `n` successive steps of `st` above `c`. */
  function StepsUp(c: real, st: real, n: nat): (r: seq<Command>)
    ensures |r| == n
  {
    seq(n, k requires 0 <= k < n => SetVolume(Raised(c, st, k + 1)))
  }

  /**
   * `n` volume-up presses with room for all of them raise the volume by `n`
   * steps and issue each intermediate volume in turn.
   */
  lemma {:induction false} RepeatedVolumeUp(s: VolumeState, n: nat)
    requires !s.muted && s.stepSize > 0.0
    requires s.minVolume <= s.current && Raised(s.current, s.stepSize, n) <= s.maxVolume
    ensures Drain(s, Presses(VolumeUp, n)).next == s.(current := Raised(s.current, s.stepSize, n))
    ensures Drain(s, Presses(VolumeUp, n)).issued == StepsUp(s.current, s.stepSize, n)
  {
    if n > 0 {
      var m := n - 1;
      var st := s.stepSize;
      var c := Raised(s.current, st, m);
      RepeatedVolumeUp(s, m);
      var before := Drain(s, Presses(VolumeUp, m));
      var last := OnKey(before.next, VolumeUp);
      assert Drain(s, Presses(VolumeUp, n)) == Outcome(last.next, before.issued + last.issued) by {
        assert Presses(VolumeUp, n)[..m] == Presses(VolumeUp, m);
      }
      assert last == Outcome(s.(current := c + st), [SetVolume(c + st)]) by {
        VolumeUpByOneStep(before.next);
      }
      assert StepsUp(s.current, st, n) == StepsUp(s.current, st, m) + [SetVolume(c + st)];
    }
  }

  /** Five volume-up presses from -20 dB in [-144, 0] with a 1 dB step reach -15 dB, issuing -19 to -15 in order. */
  lemma FiveStepsUp()
    ensures var s := VolumeState(-20.0, -20.0, -144.0, 0.0, 1.0, false);
            Drain(s, Presses(VolumeUp, 5))
            == Outcome(s.(current := -15.0),
                       [SetVolume(-19.0), SetVolume(-18.0), SetVolume(-17.0), SetVolume(-16.0), SetVolume(-15.0)])
  {
    var s := VolumeState(-20.0, -20.0, -144.0, 0.0, 1.0, false);
    forall k: nat | k <= 5
      ensures Raised(-20.0, 1.0, k) == -20.0 + k as real
    {
      RaisedAddsSteps(-20.0, 1.0, k);
    }
    RepeatedVolumeUp(s, 5);
  }

  // ---------------------------------------------------------------------------
  // The saved volume is never observed while unmuted
  // ---------------------------------------------------------------------------

  /** Equal states, or unmuted states that differ at most in the saved volume. */
  predicate AlikeButSaved(a: VolumeState, b: VolumeState) {
    a == b || (!a.muted && !b.muted && a == b.(preMute := a.preMute))
  }

  lemma OnInputAlike(a: VolumeState, b: VolumeState, input: Input)
    requires AlikeButSaved(a, b)
    ensures AlikeButSaved(OnInput(a, input).next, OnInput(b, input).next)
    ensures OnInput(a, input).issued == OnInput(b, input).issued
  {
    if a != b {
      match input
      case Poll(events) => DrainAlike(a, b, events);
      case Notify(n) =>
    }
  }

  lemma {:induction false} DrainAlike(a: VolumeState, b: VolumeState, events: seq<InputEvent>)
    requires AlikeButSaved(a, b)
    ensures AlikeButSaved(Drain(a, events).next, Drain(b, events).next)
    ensures Drain(a, events).issued == Drain(b, events).issued
  {
    if |events| > 0 {
      var init := events[..|events| - 1];
      DrainAlike(a, b, init);
      OnKeyAlike(Drain(a, init).next, Drain(b, init).next, events[|events| - 1].code);
    }
  }

  lemma OnKeyAlike(a: VolumeState, b: VolumeState, key: Key)
    requires AlikeButSaved(a, b)
    ensures AlikeButSaved(OnKey(a, key).next, OnKey(b, key).next)
    ensures OnKey(a, key).issued == OnKey(b, key).issued
  {
  }

  /**
   * Unmuted, the saved volume never reaches a command: two unmuted states that
   * differ only in it issue the same commands for every run, since the first
   * mute press overwrites it before it is read.
   */
  lemma {:induction false} SavedVolumeUnobservedWhileUnmuted(s: VolumeState, saved: real, inputs: seq<Input>)
    requires !s.muted
    ensures Run(s, inputs).issued == Run(s.(preMute := saved), inputs).issued
    ensures AlikeButSaved(Run(s, inputs).next, Run(s.(preMute := saved), inputs).next)
  {
    if |inputs| > 0 {
      var init := inputs[..|inputs| - 1];
      SavedVolumeUnobservedWhileUnmuted(s, saved, init);
      OnInputAlike(Run(s, init).next, Run(s.(preMute := saved), init).next, inputs[|inputs| - 1]);
    }
  }

  /** Hence the configured MUTE_VOLUME has no effect on the commands a controller ever issues. */
  lemma MuteVolumeSettingUnobserved(settings: VolumeSettings, muteVolume: real, inputs: seq<Input>)
    ensures Run(InitialState(settings), inputs).issued
            == Run(InitialState(settings.(muteVolume := muteVolume)), inputs).issued
  {
    var s := InitialState(settings);
    assert InitialState(settings.(muteVolume := muteVolume)) == s.(preMute := muteVolume);
    SavedVolumeUnobservedWhileUnmuted(s, muteVolume, inputs);
  }
}
