/**
 * The RM3 mini driver: sending a stored command with the prefix its
 * hardware wants, and starting infrared learning. The slot and name
 * bookkeeping it shares with the RM4 pro driver is in `RcCommands`.
 */
module Rm3Mini {
  import opened Results
  import opened Bytes
  import opened Decimal
  import opened Codec
  import opened Communicate
  import opened RcCommands

  /**
   * The device type given as decimal text is the RM mini 3 "Red Bean"
   * (0x5f36); text that does not parse is not.
   */
  predicate IsRedBean(devtype: string)
  {
    ParseIntOrZero(devtype) == 0x5f36
  }

  /** The sender `executeCommand` uses: the six-byte prefix for the Red Bean, else the general one. */
  function ExecuteVariant(devtype: string): (v: SendVariant)
    ensures v == MiniRed || v == General
  {
    if IsRedBean(devtype) then MiniRed else General
  }

  /** The payload `executeCommand` sends, prefix by prefix. */
  lemma ExecutePayload(devtype: string, deviceType: int, code: seq<byte>)
    ensures SendPayload(ExecuteVariant(devtype), deviceType, code) ==
      (if IsRedBean(devtype) then [0xd0, 0, 2, 0, 0, 0]
       else if deviceType == 0x5f36 then [0xd0, 0, 2, 0] else [2, 0, 0, 0]) + code
  {
  }

  /**
   * `executeCommand(name)`: always resolves true. A name with no stored code
   * makes the send throw before anything goes out; the flow triggers fire
   * (`fired`) only when the send did not throw.
   */
  method ExecuteCommand(d: RcDevice, name: string) returns (r: bool, fired: bool)
    modifies d.comm
    ensures r
    ensures Lookup(d.store, name).None? ==> !fired && d.comm.Snapshot() == old(d.comm.Snapshot())
    ensures Lookup(d.store, name).Some? ==>
      var run := Discard(SendPacketRun(d.comm.cipher, old(d.comm.Snapshot()), CmdControl,
                                       SendPayload(ExecuteVariant(d.devtype), old(d.comm.deviceType),
                                                   Lookup(d.store, name).value)));
      d.comm.Snapshot() == run.link && (fired <==> run.result.Ok?)
  {
    var data := Lookup(d.store, name);
    if data.None? {
      return true, false;
    }
    var sent: Outcome<()>;
    if IsRedBean(d.devtype) {
      sent := d.comm.SendIRRFData(MiniRed, data.value);
    } else {
      sent := d.comm.SendIRRFData(General, data.value);
    }
    return true, sent.Ok?;
  }

  /** `onCapabilityLearnIR` once its debounce timer fires: the red commands for the Red Bean only. */
  method LearnIR(d: RcDevice, onoff: bool) returns (r: bool)
    modifies d, d.comm
    ensures !onoff ==> r && !d.learn && d.store == old(d.store) && d.settings == old(d.settings)
    ensures onoff && old(d.learn) ==> !r && d.learn && d.store == old(d.store)
    ensures onoff && !old(d.learn) ==>
      var cap := IrCapture(d.comm.cipher, old(d.comm.Snapshot()), IsRedBean(d.devtype));
      && !d.learn && d.comm.Snapshot() == cap.link && (r <==> cap.result.Ok?)
      && (cap.result.Ok? ==> d.store == old(d.store) + [Command(NextCmdName(Names(old(d.store))), cap.result.value)])
  {
    r := d.LearnIR(onoff, IsRedBean(d.devtype));
  }
}
