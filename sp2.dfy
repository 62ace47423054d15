/**
 * The SP2 smart plug driver. The plug reports one status byte whose low bit
 * is the relay and whose next bit is the night light; the driver reads it,
 * rewrites it with one of the two bits changed, and fires flow triggers when
 * a switch it shows changes. The capability values the host keeps are passed
 * in and out as a `Caps` value.
 */
module Sp2 {
  import opened Results
  import opened Bytes
  import opened Codec
  import opened Communicate

  /** The two switches the plug shows. */
  datatype Switch = Power | Nightlight

  /** The flow triggers the driver fires for a switch. */
  datatype Trigger = Toggled(sw: Switch) | TurnedOn(sw: Switch) | TurnedOff(sw: Switch)

  /** The capability values `onoff.power` and `onoff.nightlight`; `None` before the first write. */
  datatype Caps = Caps(power: Option<bool>, nightlight: Option<bool>)

  function CapOf(caps: Caps, sw: Switch): Option<bool>
  {
    match sw
    case Power => caps.power
    case Nightlight => caps.nightlight
  }

  function WithCap(caps: Caps, sw: Switch, mode: bool): (r: Caps)
    ensures CapOf(r, sw) == Some(mode)
    ensures forall other :: other != sw ==> CapOf(r, other) == CapOf(caps, other)
  {
    match sw
    case Power => caps.(power := Some(mode))
    case Nightlight => caps.(nightlight := Some(mode))
  }

  /** The relay is on when the status byte is 1 or 3; a missing byte reads as neither. */
  predicate PowerOn(status: seq<byte>)
  {
    ByteAt(status, 0) == 1 || ByteAt(status, 0) == 3
  }

  /** The night light is on when the status byte is 2 or 3. */
  predicate NightlightOn(status: seq<byte>)
  {
    ByteAt(status, 0) == 2 || ByteAt(status, 0) == 3
  }

  /** The status byte as two bits: bit 0 the relay, bit 1 the night light; other values show both off. */
  lemma StatusBits(status: seq<byte>)
    ensures PowerOn(status) <==> |status| > 0 && status[0] < 4 && status[0] % 2 == 1
    ensures NightlightOn(status) <==> |status| > 0 && status[0] < 4 && status[0] / 2 == 1
    ensures |status| > 0 && status[0] >= 4 ==> !PowerOn(status) && !NightlightOn(status)
  {
  }

  /** `check_power` once `read_status` is done: a read that throws reports off. */
  function PowerRead(read: Outcome<seq<byte>>): (on: bool)
    ensures read.Throw? ==> !on
    ensures on ==> read.Ok? && |read.value| > 0 && read.value[0] in {1, 3}
  {
    read.Ok? && PowerOn(read.value)
  }

  /** `check_nightlight` once `read_status` is done: a read that throws reports off. */
  function NightlightRead(read: Outcome<seq<byte>>): (on: bool)
    ensures read.Throw? ==> !on
    ensures on ==> read.Ok? && |read.value| > 0 && read.value[0] in {2, 3}
  {
    read.Ok? && NightlightOn(read.value)
  }

  /** The level `adjust_power(state)` writes, given the night light it read. */
  function PowerLevel(state: bool, nightlight: bool): (level: int)
    ensures level == (if state then 1 else 0) + (if nightlight then 2 else 0)
  {
    if nightlight then (if state then 3 else 2) else (if state then 1 else 0)
  }

  /** The level `adjust_nightlight(state)` writes, given the power it read. */
  function NightlightLevel(power: bool, state: bool): (level: int)
    ensures level == (if power then 1 else 0) + (if state then 2 else 0)
  {
    if power then (if state then 3 else 1) else (if state then 2 else 0)
  }

  /** Read back, the level `adjust_power` writes changes the relay to `state` and keeps the night light. */
  lemma PowerLevelRoundTrip(state: bool, nightlight: bool)
    ensures var s := [Uint8(PowerLevel(state, nightlight))];
      PowerOn(s) == state && NightlightOn(s) == nightlight
  {
  }

  /** Read back, the level `adjust_nightlight` writes changes the night light to `state` and keeps the relay. */
  lemma NightlightLevelRoundTrip(power: bool, state: bool)
    ensures var s := [Uint8(NightlightLevel(power, state))];
      PowerOn(s) == power && NightlightOn(s) == state
  {
  }

  /**
   * `generate_trigger_power` / `generate_trigger_nightlight`: nothing unless
   * the mode differs from the capability value (a value never written
   * differs from both), then the toggle and the on or off trigger.
   */
  function Triggers(sw: Switch, mode: bool, current: Option<bool>): (t: seq<Trigger>)
    ensures t == [] <==> current == Some(mode)
    ensures t != [] ==> |t| == 2 && t[0] == Toggled(sw)
    ensures TurnedOn(sw) in t <==> current != Some(mode) && mode
    ensures TurnedOff(sw) in t <==> current != Some(mode) && !mode
    ensures forall k :: 0 <= k < |t| ==> t[k].sw == sw
  {
    if current == Some(mode) then []
    else [Toggled(sw), if mode then TurnedOn(sw) else TurnedOff(sw)]
  }

  /** What a status poll shows and fires: the night light first, then the power. */
  datatype Report = Report(fired: seq<Trigger>, caps: Caps)

  /** `onCheckInterval` once its reads are done: a status read that throws changes nothing. */
  function IntervalReport(read: Outcome<seq<byte>>, caps: Caps): (r: Report)
    ensures read.Throw? ==> r == Report([], caps)
    ensures read.Ok? ==> r.caps == Caps(Some(PowerOn(read.value)), Some(NightlightOn(read.value)))
  {
    if read.Throw? then Report([], caps)
    else
      var nightlight := NightlightOn(read.value);
      var power := PowerOn(read.value);
      Report(Triggers(Nightlight, nightlight, caps.nightlight) + Triggers(Power, power, caps.power),
             Caps(Some(power), Some(nightlight)))
  }

  /** A poll fires a switch's toggle exactly when the switch it reads differs from the one shown. */
  lemma IntervalFires(status: seq<byte>, caps: Caps)
    ensures var r := IntervalReport(Ok(status), caps);
      && (Toggled(Power) in r.fired <==> caps.power != Some(PowerOn(status)))
      && (Toggled(Nightlight) in r.fired <==> caps.nightlight != Some(NightlightOn(status)))
      && (TurnedOn(Power) in r.fired <==> caps.power != Some(true) && PowerOn(status))
      && (TurnedOff(Nightlight) in r.fired <==> caps.nightlight != Some(false) && !NightlightOn(status))
  {
    var n := Triggers(Nightlight, NightlightOn(status), caps.nightlight);
    var p := Triggers(Power, PowerOn(status), caps.power);
    assert Toggled(Power) !in n && TurnedOn(Power) !in n;
    assert Toggled(Nightlight) !in p && TurnedOff(Nightlight) !in p;
    assert forall x :: x in n + p <==> x in n || x in p;
  }

  /** A second poll that reads the same status fires nothing. */
  lemma IntervalSettles(status: seq<byte>, caps: Caps)
    ensures var r := IntervalReport(Ok(status), caps);
      IntervalReport(Ok(status), r.caps) == Report([], r.caps)
  {
  }

  /** The status read of `check_power` and `check_nightlight`. */
  function StatusRun(c: Cipher, l: Link): Run<seq<byte>>
  {
    Expect0(SendPacketRun(c, l, CmdControl, Codec.ReadStatus))
  }

  /**
   * `adjust_power(state)` / `adjust_nightlight(state)`: read the other
   * switch (off if the read throws), then write the level. The write's
   * error propagates; otherwise the result is true.
   */
  function AdjustRun(c: Cipher, l: Link, sw: Switch, state: bool): (r: Run<bool>)
    ensures r.result.Ok? ==> r.result.value
  {
    var read := StatusRun(c, l);
    var level := match sw
      case Power => PowerLevel(state, NightlightRead(read.result))
      case Nightlight => NightlightLevel(PowerRead(read.result), state);
    var write := Discard(SendPacketRun(c, read.link, CmdControl, Codec.SetPowerState(level)));
    if write.result.Throw? then Run(Throw(write.result.error), write.link) else Run(Ok(true), write.link)
  }

  /**
   * What an adjustment writes: the status byte of the set-power payload
   * shows the adjusted switch at `state` and the other switch as it was read.
   */
  lemma AdjustWrites(c: Cipher, l: Link, sw: Switch, state: bool)
    ensures var read := StatusRun(c, l);
      var level := match sw
        case Power => PowerLevel(state, NightlightRead(read.result))
        case Nightlight => NightlightLevel(PowerRead(read.result), state);
      var status := [Codec.SetPowerState(level)[4]];
      && (sw == Power ==> PowerOn(status) == state && NightlightOn(status) == NightlightRead(read.result))
      && (sw == Nightlight ==> NightlightOn(status) == state && PowerOn(status) == PowerRead(read.result))
  {
    var read := StatusRun(c, l);
    PowerLevelRoundTrip(state, NightlightRead(read.result));
    NightlightLevelRoundTrip(PowerRead(read.result), state);
  }

  /** `check_power()` / `check_nightlight()`: one status read; off when it throws. */
  method CheckSwitch(comm: Communicate, sw: Switch) returns (on: bool)
    modifies comm
    ensures var read := StatusRun(comm.cipher, old(comm.Snapshot()));
      && comm.Snapshot() == read.link
      && on == (if sw == Power then PowerRead(read.result) else NightlightRead(read.result))
  {
    var response := comm.ReadStatus();
    if sw == Power {
      on := response.Ok? && PowerOn(response.value);
    } else {
      on := response.Ok? && NightlightOn(response.value);
    }
  }

  /** `adjust_power(state)` / `adjust_nightlight(state)`. */
  method Adjust(comm: Communicate, sw: Switch, state: bool) returns (r: Outcome<bool>)
    modifies comm
    ensures Run(r, comm.Snapshot()) == AdjustRun(comm.cipher, old(comm.Snapshot()), sw, state)
  {
    var other := comm.ReadStatus();
    var level: int;
    if sw == Power {
      var nightlight := other.Ok? && NightlightOn(other.value);
      level := if nightlight then (if state then 3 else 2) else (if state then 1 else 0);
    } else {
      var power := other.Ok? && PowerOn(other.value);
      level := if power then (if state then 3 else 1) else (if state then 2 else 0);
    }
    var written := comm.SetPowerState(level);
    if written.Throw? {
      return Throw(written.error);
    }
    r := Ok(true);
  }

  /**
   * `do_action_power_on/off` and `do_action_nightlight_on/off`: the triggers
   * fire against the value shown before, the capability then shows `mode`,
   * and the adjustment runs with any error it throws dropped.
   */
  method DoAction(comm: Communicate, caps: Caps, sw: Switch, mode: bool)
    returns (r: bool, fired: seq<Trigger>, shown: Caps)
    modifies comm
    ensures r
    ensures fired == Triggers(sw, mode, CapOf(caps, sw))
    ensures shown == WithCap(caps, sw, mode)
    ensures comm.Snapshot() == AdjustRun(comm.cipher, old(comm.Snapshot()), sw, mode).link
  {
    fired := Triggers(sw, mode, CapOf(caps, sw));
    var _ := Adjust(comm, sw, mode);
    shown := WithCap(caps, sw, mode);
    r := true;
  }

  /**
   * `onCheckInterval()`: the energy read (its value is left out, and its
   * errors are dropped), then the status read and the report.
   */
  method OnCheckInterval(comm: Communicate, caps: Caps) returns (report: Report)
    modifies comm
    ensures var energy := Expect0(SendPacketRun(comm.cipher, old(comm.Snapshot()), CmdControl, Sp2Energy));
      var read := StatusRun(comm.cipher, energy.link);
      comm.Snapshot() == read.link && report == IntervalReport(read.result, caps)
  {
    var _ := comm.Sp2GetEnergy();
    var response := comm.ReadStatus();
    if response.Throw? {
      return Report([], caps);
    }
    var nightlight := NightlightOn(response.value);
    var fired := Triggers(Nightlight, nightlight, caps.nightlight);
    var power := PowerOn(response.value);
    fired := fired + Triggers(Power, power, caps.power);
    report := Report(fired, Caps(Some(power), Some(nightlight)));
  }
}
