/** The `Sonoff` device object and the button interrupt handler. The device
    keeps the logical relay state and the MQTT discovery flag; every
    `digitalWrite` it issues is recorded in a ghost log, so that what this
    device last drove the relay line to can be stated. */
module SonoffTH {
  import opened SonoffDefs
  import opened RelaySpec

  class Sonoff {
    /** The logical relay state (`m_state`). */
    var state: bool
    /** Whether the device was announced for MQTT discovery (`m_isDiscovered`). */
    var discovered: bool
    /** Every `digitalWrite` this device issued, oldest first. */
    ghost var writes: seq<PinWrite>

    /** The relay state and the writes as a value. */
    ghost function AsRelay(): Relay
      reads this
    {
      Relay(state, writes)
    }

    /** The object invariant: the relay line, once this device has driven
        it, shows the logical state, and no other line is written. Each
        mutator keeps it. */
    ghost predicate Valid()
      reads this
    {
      Mirrors(AsRelay())
    }

    /** Configures the button, relay and LED lines; the pin directions and
        the interrupt registration are not part of the model. Both flags
        start false and nothing has been written yet. */
    constructor ()
      ensures Valid()
      ensures state == false && discovered == false && writes == []
    {
      state := false;
      discovered := false;
      writes := [];
    }

    /** Drives the relay OFF, then sets the logical state to off. */
    method Init()
      modifies this`state, this`writes
      ensures old(Valid()) ==> Valid()
      ensures AsRelay() == InitStep(old(AsRelay()))
      ensures state == false && LineLevel(writes, RelayPin) == Some(RelayOff)
      ensures writes == old(writes) + [PinWrite(RelayPin, Low)]
                        + (if old(state) then [PinWrite(RelayPin, Low)] else [])
    {
      writes := writes + [RelayWrite(false)];
      var _ := SetState(false);
      InitStepOff(old(AsRelay()));
      if old(Valid()) {
        InitStepMirrors(old(AsRelay()));
      }
    }

    /** The logical relay state. */
    method GetState() returns (s: bool)
      ensures s == state
    {
      s := state;
    }

    /** Sets the logical relay state to `p`, and reports whether it was
        different; only then is the relay driven to the level of `p`. */
    method SetState(p: bool) returns (changed: bool)
      modifies this`state, this`writes
      ensures (AsRelay(), changed) == SetStep(old(AsRelay()), p)
      ensures changed <==> p != old(state)
      ensures state == p
      ensures writes == old(writes) + (if changed then [RelayWrite(p)] else [])
      ensures old(Valid()) ==> Valid()
    {
      if p != state {
        state := p;
        if state {
          writes := writes + [PinWrite(RelayPin, RelayOn)];
        } else {
          writes := writes + [PinWrite(RelayPin, RelayOff)];
        }
      } else {
        return false;
      }
      changed := true;
      if old(Valid()) {
        SetStepMirrors(old(AsRelay()), p);
      }
    }

    /** The discovery flag. */
    method IsDiscovered() returns (d: bool)
      ensures d == discovered
    {
      d := discovered;
    }

    /** Records whether the device has been announced; nothing else changes. */
    method SetDiscovered(p: bool)
      modifies this`discovered
      ensures old(Valid()) ==> Valid()
      ensures discovered == p
    {
      discovered := p;
    }
  }

  /** The process-wide state shared with the main loop: the one-byte
      command slot `cmd`. */
  class Globals {
    var cmd: uint8

    /** The slot's initial value is set where `cmd` is defined, which is
        not part of this model, so it is a parameter here. */
    constructor (initial: uint8)
      ensures cmd == initial
    {
      cmd := initial;
    }
  }

  /** The button interrupt handler: overwrites whatever command is pending
      with BUTTON_STATE_CHANGED and touches nothing else. */
  method ButtonStateChangedISR(g: Globals)
    modifies g`cmd
    ensures g.cmd == Ordinal(CmdButtonStateChanged)
    ensures CmdOf(g.cmd) == Some(CmdButtonStateChanged)
  {
    g.cmd := Ordinal(CmdButtonStateChanged);
  }

  /** Two button interrupts before the main loop consumes the slot leave
      the same single pending command as one, whatever was pending before;
      a device beside the slot keeps its relay state, write log and
      discovery flag. */
  method ButtonPressesCollapse(pending: uint8, on: bool) returns (afterOne: uint8, afterTwo: uint8, stateAfter: bool)
    ensures afterOne == afterTwo == Ordinal(CmdButtonStateChanged)
    ensures stateAfter == on
  {
    var device := new Sonoff();
    var _ := device.SetState(on);
    ghost var before := device.AsRelay();
    var g := new Globals(pending);
    ButtonStateChangedISR(g);
    afterOne := g.cmd;
    ButtonStateChangedISR(g);
    afterTwo := g.cmd;
    assert device.AsRelay() == before && !device.discovered;
    stateAfter := device.GetState();
  }

  /** The start-up sequence: construct, init, switch on, switch on again,
      switch off. The first switch-on and the switch-off report a change,
      the repeated switch-on does not, and the discovery flag, never set,
      reads false and then reads back what it was set to. */
  method StartUpScenario() returns (on1: bool, on2: bool, off: bool, finalState: bool, found0: bool, found1: bool)
    ensures on1 && !on2 && off && !finalState
    ensures !found0 && found1
  {
    var device := new Sonoff();
    device.Init();
    on1 := device.SetState(true);
    var s := device.GetState();
    assert s;
    on2 := device.SetState(true);
    off := device.SetState(false);
    finalState := device.GetState();
    found0 := device.IsDiscovered();
    device.SetDiscovered(true);
    found1 := device.IsDiscovered();
  }
}
