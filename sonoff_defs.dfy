/** The fixed definitions of the Sonoff TH board: the pin numbers of its
    three lines, the logic levels that switch the relay and the LED, and the
    commands that the button interrupt hands to the main loop through the
    one-byte `cmd` slot. */
module SonoffDefs {

  /** An Arduino `uint8_t`: pin numbers and the `cmd` slot are one byte wide. */
  newtype uint8 = x: int | 0 <= x < 0x100

  /** A digital logic level, Arduino's LOW and HIGH. */
  datatype Level = Low | High

  datatype Option<+T> = None | Some(value: T)

  // Pin assignments of the board.
  const ButtonPin: uint8 := 0
  const RelayPin: uint8 := 12
  const LedPin: uint8 := 13

  // Logical on/off mapped to physical levels: the LED is active low, the
  // relay active high.
  const LedOn: Level := Low
  const LedOff: Level := High
  const RelayOn: Level := High
  const RelayOff: Level := Low

  /** The relay level that stands for the logical relay state `on`; since
      RelayOn and RelayOff differ, the level gives the state back. */
  function RelayLevel(on: bool): (l: Level)
    ensures l == RelayOn <==> on
    ensures l == RelayOff <==> !on
  {
    if on then RelayOn else RelayOff
  }

  /** The logical relay state a relay level stands for. */
  function RelayStateOf(l: Level): (on: bool)
    ensures RelayLevel(on) == l
  {
    l == RelayOn
  }

  /** The commands of the `CMD` enumeration, in declaration order. */
  datatype Cmd =
    | CmdNotDefined
    | CmdStateChanged
    | CmdButtonStateChanged
    | CmdSaveState

  /** The value a command has as a C enumerator (its position, from 0),
      which is what is stored in the one-byte `cmd` slot. */
  function Ordinal(c: Cmd): (v: uint8)
    ensures v < 4
    ensures c.CmdNotDefined? <==> v == 0
    ensures c.CmdStateChanged? <==> v == 1
    ensures c.CmdButtonStateChanged? <==> v == 2
    ensures c.CmdSaveState? <==> v == 3
  {
    match c
    case CmdNotDefined => 0
    case CmdStateChanged => 1
    case CmdButtonStateChanged => 2
    case CmdSaveState => 3
  }

  /** Reads a byte of the `cmd` slot as a command; bytes past the last
      enumerator name no command. */
  function CmdOf(v: uint8): (r: Option<Cmd>)
    ensures r.Some? <==> v < 4
    ensures r.Some? ==> Ordinal(r.value) == v
  {
    if v == 0 then Some(CmdNotDefined)
    else if v == 1 then Some(CmdStateChanged)
    else if v == 2 then Some(CmdButtonStateChanged)
    else if v == 3 then Some(CmdSaveState)
    else None
  }

  /** Distinct commands are stored as distinct bytes, and reading the byte
      back gives the command. */
  lemma CmdRoundTrip(c: Cmd, d: Cmd)
    ensures CmdOf(Ordinal(c)) == Some(c)
    ensures Ordinal(c) == Ordinal(d) ==> c == d
  {
  }

  /** The three lines of the board are distinct pins. */
  lemma PinsDistinct()
    ensures ButtonPin != RelayPin && RelayPin != LedPin && ButtonPin != LedPin
  {
  }
}
