/**
 * The RM4 pro driver: sending a stored command, infrared learning, and the
 * RF learning run with its busy flag. The slot and name bookkeeping it
 * shares with the RM3 mini driver is in `RcCommands`.
 */
module Rm4Pro {
  import opened Results
  import opened Bytes
  import opened Decimal
  import opened Codec
  import opened Communicate
  import opened RcCommands

  /** `executeCommand(name)`: always through the RM4 pro sender; the triggers fire when the send did not throw. */
  method ExecuteCommand(d: RcDevice, name: string) returns (r: bool, fired: bool)
    modifies d.comm
    ensures r
    ensures Lookup(d.store, name).None? ==> !fired && d.comm.Snapshot() == old(d.comm.Snapshot())
    ensures Lookup(d.store, name).Some? ==>
      var run := Discard(SendPacketRun(d.comm.cipher, old(d.comm.Snapshot()), CmdControl,
                                       [0xda, 0, 2, 0, 0, 0] + Lookup(d.store, name).value));
      d.comm.Snapshot() == run.link && (fired <==> run.result.Ok?)
  {
    var data := Lookup(d.store, name);
    if data.None? {
      return true, false;
    }
    var sent := d.comm.SendIRRFData(Rm4Pro, data.value);
    return true, sent.Ok?;
  }

  /** `onCapabilityLearnIR` once its debounce timer fires: always the red commands. */
  method LearnIR(d: RcDevice, onoff: bool) returns (r: bool)
    modifies d, d.comm
    ensures !onoff ==> r && !d.learn && d.store == old(d.store) && d.settings == old(d.settings)
    ensures onoff && old(d.learn) ==> !r && d.learn && d.store == old(d.store)
    ensures onoff && !old(d.learn) ==>
      var cap := IrCapture(d.comm.cipher, old(d.comm.Snapshot()), true);
      && !d.learn && d.comm.Snapshot() == cap.link && (r <==> cap.result.Ok?)
      && (cap.result.Ok? ==> d.store == old(d.store) + [Command(NextCmdName(Names(old(d.store))), cap.result.value)])
  {
    r := d.LearnIR(onoff, true);
  }

  /** `type == 0x279d || type == 0x27a9`: the models that learn RF codes with the infrared commands. */
  predicate LearnsRfAsIr(devtype: string)
  {
    var t := ParseIntOrZero(devtype);
    t == 0x279d || t == 0x27a9
  }

  /**
   * The exchanges of an RF learning run: the sweep, the frequency poll,
   * then either infrared learning or the RF code poll at that frequency.
   */
  function RfCapture(c: Cipher, l: Link, asIr: bool): Run<seq<byte>>
  {
    var sweep := Discard(SendPacketRun(c, l, CmdControl, EnterRfSweepRm4));
    if sweep.result.Throw? then Run(Throw(sweep.result.error), sweep.link)
    else
      var frequency := CheckRfRm4Run(c, sweep.link);
      if frequency.result.Throw? then frequency
      else if asIr then
        var enter := Discard(SendPacketRun(c, frequency.link, CmdControl, EnterLearning));
        if enter.result.Throw? then Run(Throw(enter.result.error), enter.link)
        else DropTwo(CheckDataRun(c, enter.link, CheckIrRed))
      else CheckRf2Rm4Run(c, frequency.link, frequency.result.value).run
  }

  /** The name a learned RF command gets as written: `rf-cmd` and one more than the number stored. */
  function RfCmdNameAsWritten(store: seq<Command>): string
  {
    Tag("rf-cmd", |store| + 1)
  }

  /**
   * After `rf-cmd1` and `rf-cmd2` were learned and `rf-cmd1` deleted, the
   * next RF command is named `rf-cmd2` again, and two commands share it.
   */
  lemma RfCmdNameCollides(a: seq<byte>, b: seq<byte>, c: seq<byte>)
    ensures var learned := [Command(RfCmdNameAsWritten([]), a)];
      var both := learned + [Command(RfCmdNameAsWritten(learned), b)];
      var left := Delete(both, RfCmdNameAsWritten([]));
      && DistinctNames(both)
      && left == [Command(RfCmdNameAsWritten(learned), b)]
      && RfCmdNameAsWritten(left) in Names(left)
      && !DistinctNames(left + [Command(RfCmdNameAsWritten(left), c)])
  {
    var n1 := RfCmdNameAsWritten([]);
    var n2 := RfCmdNameAsWritten([Command(n1, a)]);
    assert n1 != n2;
    var both := [Command(n1, a)] + [Command(n2, b)];
    assert both[0].name == n1 && both[1].name == n2;
    assert Find(both, n1) == 0;
    var left := Delete(both, n1);
    assert left == [Command(n2, b)];
    assert RfCmdNameAsWritten(left) == n2;
    assert Names(left)[0] == n2;
    var again := left + [Command(n2, c)];
    assert again[0].name == again[1].name;
  }

  /** Storing under the name as written keeps the names distinct exactly when that name is unused. */
  lemma RfCmdNameAsWrittenDistinct(store: seq<Command>, data: seq<byte>)
    requires DistinctNames(store)
    ensures DistinctNames(store + [Command(RfCmdNameAsWritten(store), data)])
            <==> RfCmdNameAsWritten(store) !in Names(store)
  {
    var name := RfCmdNameAsWritten(store);
    var s := store + [Command(name, data)];
    if name !in Names(store) {
      AddKeepsDistinct(store, name, data);
    } else {
      var k :| 0 <= k < |Names(store)| && Names(store)[k] == name;
      assert s[k].name == s[|store|].name;
    }
  }

  /** A store filled only by RF learning, `rf-cmd1` .. `rf-cmdN` in order, never meets the name as written. */
  lemma {:induction false} RfLearningOnlyFresh(store: seq<Command>)
    requires forall k :: 0 <= k < |store| ==> store[k].name == Tag("rf-cmd", k + 1)
    ensures RfCmdNameAsWritten(store) !in Names(store)
  {
    if RfCmdNameAsWritten(store) in Names(store) {
      var k :| 0 <= k < |Names(store)| && Names(store)[k] == RfCmdNameAsWritten(store);
      TagInjective("rf-cmd", k + 1, |store| + 1);
      assert false;
    }
  }

  /** The name a learned RF command gets: the first unused `rf-cmd<k>` from one more than the number stored. */
  function RfCmdName(store: seq<Command>): string
  {
    Tag("rf-cmd", FreeFrom("rf-cmd", Names(store), |store| + 1, |store| + 1))
  }

  /** The corrected name is new, and it is the name as written whenever that one is unused. */
  lemma RfCmdNameFresh(store: seq<Command>, data: seq<byte>)
    requires DistinctNames(store)
    ensures RfCmdName(store) !in Names(store)
    ensures DistinctNames(store + [Command(RfCmdName(store), data)])
    ensures RfCmdNameAsWritten(store) !in Names(store) ==> RfCmdName(store) == RfCmdNameAsWritten(store)
  {
    AddKeepsDistinct(store, RfCmdName(store), data);
  }

  /**
   * `onCapabilityLearnRF`: while a learning run is on it returns true and
   * starts nothing; otherwise it raises the flag and starts the run
   * (`started`), which the host then performs as `LearnRfJob`.
   */
  method OnCapabilityLearnRF(d: RcDevice) returns (r: bool, started: bool)
    modifies d
    ensures r && d.learn
    ensures started <==> !old(d.learn)
    ensures d.store == old(d.store) && d.settings == old(d.settings)
  {
    if d.learn {
      return true, false;
    }
    d.learn := true;
    return true, true;
  }

  /** `stopRfLearning`: cancel the sweep, whatever that gives, and lower the flag. */
  method StopRfLearning(d: RcDevice)
    modifies d, d.comm
    ensures !d.learn && d.store == old(d.store) && d.settings == old(d.settings)
    ensures d.comm.Snapshot() == SendPacketRun(d.comm.cipher, old(d.comm.Snapshot()), CmdControl, CancelRfSweepRm4).link
  {
    var _ := d.comm.CancelRFSweepRm4Pro();
    d.learn := false;
  }

  /** The exchanges of the learning job up to the captured code. */
  method CaptureRf(comm: Communicate, asIr: bool) returns (data: Outcome<seq<byte>>)
    modifies comm
    ensures Run(data, comm.Snapshot()) == RfCapture(comm.cipher, old(comm.Snapshot()), asIr)
  {
    var sweep := comm.EnterRFSweepRm4Pro();
    if sweep.Throw? {
      return Throw(sweep.error);
    }
    var frequency := comm.CheckRFDataRm4Pro();
    if frequency.Throw? {
      return frequency;
    }
    if asIr {
      var entered := comm.EnterLearning();
      if entered.Throw? {
        return Throw(entered.error);
      }
      data := comm.CheckIRDataRed();
    } else {
      data := comm.CheckRFData2Rm4Pro(frequency.value);
    }
  }

  /**
   * The RF learning run `onCapabilityLearnRF` starts. Whatever happens, it
   * ends with `stopRfLearning`; a captured code is stored under `rf-cmd`
   * and one more than the number stored (which may already be taken, see
   * `RfCmdNameCollides`), and shown in the first free slot.
   */
  method LearnRfJob(d: RcDevice)
    modifies d, d.comm
    ensures !d.learn
    ensures var cap := RfCapture(d.comm.cipher, old(d.comm.Snapshot()), LearnsRfAsIr(d.devtype));
      && d.comm.Snapshot() == SendPacketRun(d.comm.cipher, cap.link, CmdControl, CancelRfSweepRm4).link
      && (cap.result.Throw? ==> d.store == old(d.store) && d.settings == old(d.settings))
      && (cap.result.Ok? ==>
            d.store == old(d.store) + [Command(RfCmdNameAsWritten(old(d.store)), cap.result.value)]
            && d.settings == WithName(old(d.settings), RfCmdNameAsWritten(old(d.store))))
  {
    var data := CaptureRf(d.comm, LearnsRfAsIr(d.devtype));
    if data.Throw? {
      StopRfLearning(d);
      return;
    }
    var name := RfCmdNameAsWritten(d.store);
    d.store := d.store + [Command(name, data.value)];
    d.StoreCmdSetting(name);
    StopRfLearning(d);
  }
}
