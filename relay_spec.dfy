/** A value-level description of the relay half of the device: the logical
    relay state together with the log of every digital write the device has
    issued, and what one `setState` or `init` call does to that pair. The
    `Sonoff` class is proved against these functions. */
module RelaySpec {
  import opened SonoffDefs

  /** One call of `digitalWrite(pin, level)`. */
  datatype PinWrite = PinWrite(pin: uint8, level: Level)

  /** The logical relay state and the writes issued so far, oldest first. */
  datatype Relay = Relay(on: bool, writes: seq<PinWrite>)

  /** The write `setState` and `init` issue to switch the relay to `on`. */
  function RelayWrite(on: bool): (w: PinWrite)
    ensures w.pin == RelayPin && RelayStateOf(w.level) == on
  {
    PinWrite(RelayPin, RelayLevel(on))
  }

  /** The level a line was last driven to by the log, None if never. */
  function LineLevel(log: seq<PinWrite>, pin: uint8): (r: Option<Level>)
    ensures r.None? <==> forall i :: 0 <= i < |log| ==> log[i].pin != pin
    ensures r.Some? ==> exists i :: 0 <= i < |log| && log[i] == PinWrite(pin, r.value) &&
                                    forall j :: i < j < |log| ==> log[j].pin != pin
  {
    if log == [] then None
    else if log[|log| - 1].pin == pin then Some(log[|log| - 1].level)
    else LineLevel(log[..|log| - 1], pin)
  }

  /** Every write in the log went to the relay line. */
  predicate RelayOnly(log: seq<PinWrite>)
  {
    forall i :: 0 <= i < |log| ==> log[i].pin == RelayPin
  }

  /** The device invariant: all writes go to the relay, and once the relay
      line has been driven, its level is the one the logical state stands
      for. */
  predicate Mirrors(r: Relay)
  {
    RelayOnly(r.writes) &&
    (LineLevel(r.writes, RelayPin).None? || LineLevel(r.writes, RelayPin) == Some(RelayLevel(r.on)))
  }

  /** `setState(x)`: the new relay value and whether anything changed. */
  function SetStep(r: Relay, x: bool): (Relay, bool)
  {
    if x != r.on then (Relay(x, r.writes + [RelayWrite(x)]), true)
    else (r, false)
  }

  /** `init()`: an unconditional OFF write, then `setState(false)`. */
  function InitStep(r: Relay): Relay
  {
    SetStep(Relay(r.on, r.writes + [RelayWrite(false)]), false).0
  }

  /** The relay value and the results of calling `setState` with each of
      `xs` in turn. */
  function Replay(r: Relay, xs: seq<bool>): (Relay, seq<bool>)
    decreases |xs|
  {
    if xs == [] then (r, [])
    else
      var (r1, c) := SetStep(r, xs[0]);
      var (r2, cs) := Replay(r1, xs[1..]);
      (r2, [c] + cs)
  }

  /** How many of the results report a change. */
  function CountChanges(cs: seq<bool>): nat
  {
    if cs == [] then 0 else (if cs[0] then 1 else 0) + CountChanges(cs[1..])
  }

  /** Appending a write changes the level of its own line only. */
  lemma LineLevelAppend(log: seq<PinWrite>, w: PinWrite, pin: uint8)
    ensures LineLevel(log + [w], pin) == if w.pin == pin then Some(w.level) else LineLevel(log, pin)
  {
    assert (log + [w])[..|log|] == log;
  }

  /** Relay writes leave the levels of the button and LED lines as they
      were, because the three pins are distinct. */
  lemma RelayWriteSparesOtherLines(log: seq<PinWrite>, on: bool)
    ensures LineLevel(log + [RelayWrite(on)], ButtonPin) == LineLevel(log, ButtonPin)
    ensures LineLevel(log + [RelayWrite(on)], LedPin) == LineLevel(log, LedPin)
    ensures LineLevel(log + [RelayWrite(on)], RelayPin) == Some(RelayLevel(on))
  {
    LineLevelAppend(log, RelayWrite(on), ButtonPin);
    LineLevelAppend(log, RelayWrite(on), LedPin);
    LineLevelAppend(log, RelayWrite(on), RelayPin);
  }

  /** A device that only writes the relay never drives the button or LED
      line. */
  lemma RelayOnlySparesOtherLines(log: seq<PinWrite>)
    requires RelayOnly(log)
    ensures LineLevel(log, ButtonPin).None? && LineLevel(log, LedPin).None?
  {
  }

  /** `setState(x)` with the current state reports no change, keeps the
      state and writes nothing. */
  lemma SetStepSame(r: Relay)
    ensures SetStep(r, r.on) == (r, false)
  {
  }

  /** `setState(x)` with a different state reports a change, takes the new
      state and issues exactly one write: the relay's ON level for true,
      its OFF level for false. */
  lemma SetStepDifferent(r: Relay, x: bool)
    requires x != r.on
    ensures SetStep(r, x).1
    ensures SetStep(r, x).0.on == x
    ensures SetStep(r, x).0.writes == r.writes + [PinWrite(RelayPin, if x then High else Low)]
  {
  }

  /** Whatever the call reports, the state afterwards is the argument, the
      report is true exactly when the state was different, and the same
      call again reports no change. */
  lemma SetStepIdempotent(r: Relay, x: bool)
    ensures SetStep(r, x).0.on == x
    ensures SetStep(r, x).1 <==> x != r.on
    ensures SetStep(SetStep(r, x).0, x) == (SetStep(r, x).0, false)
  {
  }

  /** `setState` keeps the device invariant, and after a change the relay
      line carries the level of the new state. */
  lemma SetStepMirrors(r: Relay, x: bool)
    requires Mirrors(r)
    ensures Mirrors(SetStep(r, x).0)
    ensures SetStep(r, x).1 ==> LineLevel(SetStep(r, x).0.writes, RelayPin) == Some(RelayLevel(x))
  {
    if x != r.on {
      RelayWriteSparesOtherLines(r.writes, x);
    }
  }

  /** After `init()`, whatever came before, the state is off and the relay
      line was last driven to the OFF level; `init` writes OFF once, and a
      second time when the relay was on. */
  lemma InitStepOff(r: Relay)
    ensures InitStep(r).on == false
    ensures LineLevel(InitStep(r).writes, RelayPin) == Some(RelayOff)
    ensures InitStep(r).writes
      == r.writes + [PinWrite(RelayPin, Low)] + (if r.on then [PinWrite(RelayPin, Low)] else [])
  {
    var w := r.writes + [RelayWrite(false)];
    RelayWriteSparesOtherLines(r.writes, false);
    if r.on {
      RelayWriteSparesOtherLines(w, false);
    }
  }

  /** `init` establishes the device invariant from any log that only wrote
      the relay, and a second `init` finds nothing left to change. */
  lemma InitStepMirrors(r: Relay)
    requires RelayOnly(r.writes)
    ensures Mirrors(InitStep(r))
    ensures InitStep(InitStep(r)).on == InitStep(r).on
    ensures LineLevel(InitStep(InitStep(r)).writes, RelayPin) == LineLevel(InitStep(r).writes, RelayPin)
    ensures InitStep(InitStep(r)).writes == InitStep(r).writes + [PinWrite(RelayPin, Low)]
  {
    InitStepOff(r);
    InitStepOff(InitStep(r));
  }

  /** Any run of `setState` calls keeps the device invariant. */
  lemma {:induction false} ReplayMirrors(r: Relay, xs: seq<bool>)
    requires Mirrors(r)
    ensures Mirrors(Replay(r, xs).0)
    decreases |xs|
  {
    if xs != [] {
      SetStepMirrors(r, xs[0]);
      ReplayMirrors(SetStep(r, xs[0]).0, xs[1..]);
    }
  }

  /** A run of `setState` calls issues exactly one write per call that
      reports a change, and no other. */
  lemma {:induction false} ReplayWriteCount(r: Relay, xs: seq<bool>)
    ensures |Replay(r, xs).1| == |xs|
    ensures |Replay(r, xs).0.writes| == |r.writes| + CountChanges(Replay(r, xs).1)
    ensures r.writes <= Replay(r, xs).0.writes
    decreases |xs|
  {
    if xs != [] {
      var (r1, c) := SetStep(r, xs[0]);
      ReplayWriteCount(r1, xs[1..]);
      var cs := Replay(r1, xs[1..]).1;
      assert Replay(r, xs).1 == [c] + cs;
      assert ([c] + cs)[1..] == cs;
    }
  }

  /** Repeating the current state any number of times changes nothing:
      every call reports false and the write log stays as it was. */
  lemma {:induction false} ReplaySameNoWrites(r: Relay, xs: seq<bool>)
    requires forall i :: 0 <= i < |xs| ==> xs[i] == r.on
    ensures Replay(r, xs).0 == r
    ensures CountChanges(Replay(r, xs).1) == 0
    decreases |xs|
  {
    if xs != [] {
      ReplaySameNoWrites(r, xs[1..]);
      var cs := Replay(r, xs[1..]).1;
      assert Replay(r, xs).1 == [false] + cs;
      assert ([false] + cs)[1..] == cs;
    }
  }

  /** After a non-empty run of `setState` calls the state is the last
      argument. */
  lemma {:induction false} ReplayLast(r: Relay, xs: seq<bool>)
    requires xs != []
    ensures Replay(r, xs).0.on == xs[|xs| - 1]
    decreases |xs|
  {
    if |xs| > 1 {
      ReplayLast(SetStep(r, xs[0]).0, xs[1..]);
    }
  }
}
