/**
 * The session with one Broadlink device: its counter, ids and keys, the
 * `send_packet` exchange with its single retry, authentication, discovery,
 * the bounded pollers and the command senders.
 *
 * The network is a script: `replies` holds what the next `sendto` calls
 * meet, in order (a reply datagram or a timeout), and `sent` logs every
 * datagram handed to the socket. The run functions below describe each
 * operation on a snapshot of the session; the methods of the class are
 * proved to do exactly what they describe.
 */
module Communicate {
  import opened Results
  import opened Bytes
  import opened Codec

  /** What one `sendto` meets: a datagram from some address, or the timeout. */
  datatype Delivery = Reply(data: seq<byte>, address: string) | Timeout

  /** A datagram handed to the socket. */
  datatype Datagram = Datagram(packet: seq<byte>, address: string, port: int)

  /** The fields of a `Communicate` object, with the network script and log. */
  datatype Link = Link(count: int, deviceType: int, mac: seq<byte>, id: seq<byte>, key: seq<byte>,
                       iv: seq<byte>, ipAddress: string, checkRepeatCount: int,
                       replies: seq<Delivery>, sent: seq<Datagram>)
  {
    /** A configured session: a 16-bit counter and AES-128 key and iv. */
    predicate Valid()
    {
      0 <= count < 0x1_0000 && |key| == 16 && |iv| == 16
    }

    /** The fields that name the device and the keys. */
    predicate SameSession(other: Link)
    {
      deviceType == other.deviceType && mac == other.mac && id == other.id
      && key == other.key && iv == other.iv && ipAddress == other.ipAddress
    }
  }

  /** The result of an operation and the session after it. */
  datatype Run<T> = Run(result: Outcome<T>, link: Link)

  /** A poll and the number of rounds it took. */
  datatype Poll<T> = Poll(run: Run<T>, rounds: nat)

  /** The outcome of one `sendto` and the session after it. */
  datatype Step = Step(delivery: Delivery, link: Link)

  // ---------------------------------------------------------------- configure

  /** The options `configure` reads; a missing or falsy option is `None`. */
  datatype Options = Options(count: int, deviceType: int, ipAddress: Option<string>,
                             id: Option<seq<byte>>, mac: Option<seq<byte>>, key: Option<seq<byte>>)

  function Configured(l: Link, o: Options): (r: Link)
    ensures r.replies == l.replies && r.sent == l.sent
  {
    l.(count := o.count, deviceType := o.deviceType,
       ipAddress := if o.ipAddress.None? || o.ipAddress.value == "" then Broadcast else o.ipAddress.value,
       id := o.id.GetOr([0, 0, 0, 0]),
       mac := o.mac.GetOr([0, 0, 0, 0, 0, 0]),
       key := if o.key.Some? && |o.key.value| == 16 then o.key.value else DefaultKey,
       iv := InitialVector,
       checkRepeatCount := 0)
  }

  /**
   * After `configure` the key is the given one exactly when it has 16
   * bytes, otherwise the default key; so the session is valid whenever the
   * counter is 16-bit.
   */
  lemma ConfiguredSession(l: Link, o: Options)
    ensures var r := Configured(l, o);
      && |r.key| == 16 && r.iv == InitialVector && |r.iv| == 16
      && (r.key == DefaultKey || (o.key.Some? && r.key == o.key.value))
      && (o.key.Some? && |o.key.value| == 16 <==> o.key.Some? && r.key == o.key.value && |r.key| == 16)
      && (o.key.None? || |o.key.value| != 16 ==> r.key == DefaultKey)
      && (o.ipAddress.None? ==> r.ipAddress == Broadcast)
      && (0 <= o.count < 0x1_0000 <==> r.Valid())
  {
  }

  // ---------------------------------------------------------------- sendto and send_packet

  function First(replies: seq<Delivery>): Delivery
  {
    if replies == [] then Timeout else replies[0]
  }

  function Rest(replies: seq<Delivery>): seq<Delivery>
  {
    if replies == [] then [] else replies[1..]
  }

  /** `sendto`: the datagram goes out, and the next scripted delivery comes back. */
  function SendToRun(l: Link, packet: seq<byte>, address: string, port: int): Step
  {
    Step(First(l.replies), l.(replies := Rest(l.replies), sent := l.sent + [Datagram(packet, address, port)]))
  }

  /** The two attempts of `send_packet`: the second only when the first timed out. */
  function Deliver(l: Link, packet: seq<byte>): Step
  {
    var first := SendToRun(l, packet, l.ipAddress, DevicePort);
    if first.delivery.Reply? then first else SendToRun(first.link, packet, first.link.ipAddress, DevicePort)
  }

  /** The session with the counter advanced, as `send_packet` does before building a packet. */
  function Bump(l: Link): Link
  {
    l.(count := (l.count + 1) % 0x1_0000)
  }

  /** The datagram `send_packet` builds from the session (after the counter bump). */
  function PacketFor(c: Cipher, l: Link, command: int, payload: seq<byte>): seq<byte>
  {
    BuildPacket(command, l.deviceType, l.count, l.mac, l.id, Pad(payload), c.encrypt(l.key, l.iv, Pad(payload)))
  }

  /** `send_packet(command, payload)`. */
  function SendPacketRun(c: Cipher, l: Link, command: int, payload: seq<byte>): Run<Response>
  {
    var l0 := Bump(l);
    var step := Deliver(l0, PacketFor(c, l0, command, payload));
    if step.delivery.Timeout? then Run(Ok(NoReply), step.link)
    else Run(ParseReply(c, step.link.key, step.link.iv, step.delivery.data), step.link)
  }

  /** Both attempts time out. */
  predicate NoAnswer(replies: seq<Delivery>)
  {
    First(replies).Timeout? && First(Rest(replies)).Timeout?
  }

  /**
   * What one `send_packet` does to the session: the counter advances modulo
   * 2^16, the same packet goes once or (after a timeout) twice to the
   * device's address on port 80, and it resolves with error -1 and nothing
   * else exactly when both attempts timed out.
   */
  lemma SendPacketEffect(c: Cipher, l: Link, command: int, payload: seq<byte>)
    ensures var run := SendPacketRun(c, l, command, payload);
      var l' := run.link;
      var n := |l'.sent| - |l.sent|;
      && l'.count == (l.count + 1) % 0x1_0000
      && l'.SameSession(l) && l'.checkRepeatCount == l.checkRepeatCount
      && (l.Valid() ==> l'.Valid())
      && (n == 1 || n == 2) && l'.sent[..|l.sent|] == l.sent
      && (forall i :: |l.sent| <= i < |l'.sent| ==>
            l'.sent[i] == Datagram(PacketFor(c, l', command, payload), l.ipAddress, DevicePort))
      && (n == 2 <==> First(l.replies).Timeout?)
      && (run.result == Ok(NoReply) <==> NoAnswer(l.replies))
      && (run.result.Throw? ==> run.result.error == WrongFinalBlockLength)
      && (run.result.Ok? && run.result.value.error == 0 ==>
            run.result.value.payload.Some? && run.result.value.cmd.Some?)
  {
    var l0 := Bump(l);
    var packet := PacketFor(c, l0, command, payload);
    var first := SendToRun(l0, packet, l0.ipAddress, DevicePort);
    if first.delivery.Reply? {
      assert !NoAnswer(l.replies);
    } else {
      var second := SendToRun(first.link, packet, first.link.ipAddress, DevicePort);
      assert Rest(l0.replies) == first.link.replies;
      assert second.link.sent == l.sent + [Datagram(packet, l.ipAddress, DevicePort), Datagram(packet, l.ipAddress, DevicePort)];
      if second.delivery.Reply? {
        var r := ParseReply(c, second.link.key, second.link.iv, second.delivery.data);
        assert r.Ok? ==> r.value.data.Some?;
      }
    }
  }

  /** The part of `SendPacketEffect` the pollers need: one counter step and one or two datagrams. */
  lemma SendPacketBasics(c: Cipher, l: Link, command: int, payload: seq<byte>)
    ensures var l' := SendPacketRun(c, l, command, payload).link;
      && l'.count == (l.count + 1) % 0x1_0000
      && l'.SameSession(l) && l'.checkRepeatCount == l.checkRepeatCount
      && |l.sent| + 1 <= |l'.sent| <= |l.sent| + 2
      && (l.Valid() ==> l'.Valid())
  {
    SendPacketEffect(c, l, command, payload);
  }

  /** Every datagram `send_packet` sends is the counter's packet: command, counter and both checksums in place. */
  lemma SentPacketLayout(c: Cipher, l: Link, command: int, payload: seq<byte>)
    ensures var l' := Bump(l);
      var p := PacketFor(c, l', command, payload);
      && p[..8] == Magic
      && ReadLE16(p, 0x28) == l'.count
      && p[0x26] == Uint8(command)
      && ReadLE16(p, 0x34) == Checksum(payload)
      && Checksum(p[0x20 := 0][0x21 := 0]) == ReadLE16(p, 0x20)
  {
    var l' := Bump(l);
    var ciphertext := c.encrypt(l'.key, l'.iv, Pad(payload));
    var h := Header(command, l'.deviceType, l'.count, l'.mac, l'.id, Checksum(Pad(payload)));
    HeaderLayout(command, l'.deviceType, l'.count, l'.mac, l'.id, Checksum(Pad(payload)));
    PacketChecksumVerifies(command, l'.deviceType, l'.count, l'.mac, l'.id, Pad(payload), ciphertext);
    PayloadChecksumInHeader(command, l'.deviceType, l'.count, l'.mac, l'.id, payload, ciphertext);
    var p := PacketFor(c, l', command, payload);
    assert p[0x28] == h[0x28] && p[0x29] == h[0x29];
    assert h[0x28..0x2a] == LE16(l'.count);
    LE16RoundTrip(l'.count, h, 0x28);
    assert p[..8] == h[..8];
  }

  // ---------------------------------------------------------------- results of the commands

  /** A command whose reply is not looked at: only a throw of `send_packet` passes through. */
  function Discard(run: Run<Response>): Run<()>
  {
    if run.result.Throw? then Run(Throw(run.result.error), run.link) else Run(Ok(()), run.link)
  }

  /** A command whose reply must have error 0: its payload, or `invalid_response`. */
  function Expect0(run: Run<Response>): (r: Run<seq<byte>>)
    ensures r.link == run.link
    ensures r.result.Ok? <==> run.result.Ok? && run.result.value.error == 0
    ensures run.result.Ok? && run.result.value.error != 0 ==> r.result == Throw(InvalidResponse)
  {
    if run.result.Throw? then Run(Throw(run.result.error), run.link)
    else if run.result.value.error == 0 then Run(Ok(run.result.value.payload.GetOr([])), run.link)
    else Run(Throw(InvalidResponse), run.link)
  }

  /** `auth`: the session takes the id and key the check as written accepts. */
  function AuthRun(c: Cipher, l: Link): Run<AuthData>
  {
    var run := SendPacketRun(c, l, CmdAuth, AuthPayload());
    if run.result.Throw? then Run(Throw(run.result.error), run.link)
    else
      var a := AuthKeyAsWritten(run.result.value);
      if a.Throw? then Run(a, run.link)
      else Run(a, run.link.(id := a.value.id, key := a.value.key))
  }

  /**
   * After `auth` the counter and iv are still fit for use; on success the
   * session holds the reply's id and key, and it is valid again exactly when
   * that key has 16 bytes; on failure the id and key are the old ones.
   */
  lemma AuthKeepsValid(c: Cipher, l: Link)
    requires l.Valid()
    ensures var run := AuthRun(c, l);
      && 0 <= run.link.count < 0x1_0000 && |run.link.iv| == 16
      && (run.result.Ok? ==> run.link.key == run.result.value.key && run.link.id == run.result.value.id
                             && (run.link.Valid() <==> |run.result.value.key| == 16))
      && (run.result.Throw? ==> run.link.key == l.key && run.link.id == l.id && run.link.Valid())
  {
    SendPacketEffect(c, l, CmdAuth, AuthPayload());
  }

  /** A reply whose decrypted payload is empty leaves the session with the empty key. */
  lemma AuthStoresEmptyKey(c: Cipher, l: Link)
    requires var run := SendPacketRun(c, l, CmdAuth, AuthPayload());
      run.result.Ok? && run.result.value.payload == Some([])
    ensures var run := AuthRun(c, l);
      run.result.Ok? && run.link.key == [] && !run.link.Valid()
  {
  }

  /** A payload of at least 16 bytes gives its first 16 as the key, and a valid session. */
  lemma AuthStoresFullKey(c: Cipher, l: Link)
    requires l.Valid()
    requires var run := SendPacketRun(c, l, CmdAuth, AuthPayload());
      run.result.Ok? && run.result.value.payload.Some? && |run.result.value.payload.value| >= 16
    ensures var send := SendPacketRun(c, l, CmdAuth, AuthPayload());
      var run := AuthRun(c, l);
      && run.result.Ok? && run.link.key == send.result.value.payload.value[..16] && run.link.Valid()
  {
    SendPacketEffect(c, l, CmdAuth, AuthPayload());
  }

  /** `discover`: no local address throws; the device address defaults to the broadcast address. */
  function DiscoverRun(l: Link, t: LocalTime, timezone: int, local: Option<seq<int>>,
                       device: Option<string>): Run<DiscoveryInfo>
  {
    if local.None? then Run(Throw(DiscoverLocalIp), l)
    else
      var step := SendToRun(l, DiscoveryPacket(t, TimezoneBytesAsWritten(timezone), local.value), device.GetOr(Broadcast), DevicePort);
      if step.delivery.Timeout? then Run(Throw(SendingTimeout), step.link)
      else Run(Ok(ParseDiscoveryReply(step.delivery.data, step.delivery.address)), step.link)
  }

  /** Discovery leaves the session untouched apart from the network, and sends one datagram. */
  lemma DiscoverEffect(l: Link, t: LocalTime, timezone: int, local: Option<seq<int>>, device: Option<string>)
    ensures var run := DiscoverRun(l, t, timezone, local, device);
      && run.link.(replies := l.replies, sent := l.sent) == l
      && (local.None? <==> run.result == Throw(DiscoverLocalIp))
      && (local.None? ==> run.link == l)
      && (local.Some? ==>
            (|run.link.sent| == |l.sent| + 1 && run.link.sent[|l.sent|].address == device.GetOr(Broadcast)
             && run.link.sent[|l.sent|].packet == DiscoveryPacket(t, TimezoneBytesAsWritten(timezone), local.value)
             && |run.link.sent[|l.sent|].packet| == 0x30))
      && (run.result.Ok? <==> local.Some? && First(l.replies).Reply?)
  {
  }

  // ---------------------------------------------------------------- _check_data

  /**
   * The probes of `_check_data`, from a session whose `checkRepeatCount` is
   * the number of probes left: a throw of `send_packet` aborts, error 0
   * resolves with the payload, anything else counts down.
   */
  function Probes(c: Cipher, l: Link, payload: seq<byte>): Run<seq<byte>>
    decreases l.checkRepeatCount
  {
    var run := SendPacketRun(c, l, CmdControl, payload);
    if run.result.Throw? then Run(Throw(Aborted), run.link)
    else if run.result.value.error == 0 then Run(Ok(run.result.value.payload.GetOr([])), run.link)
    else
      var next := run.link.(checkRepeatCount := run.link.checkRepeatCount - 1);
      if next.checkRepeatCount <= 0 then Run(Throw(TriedLongEnough), next)
      else Probes(c, next, payload)
  }

  /** `_check_data(payload)`: at most 8 probes. */
  function CheckDataRun(c: Cipher, l: Link, payload: seq<byte>): Run<seq<byte>>
  {
    Probes(c, l.(checkRepeatCount := 8), payload)
  }

  /**
   * Counting the probes: with `k` probes left there are between 1 and `k` of
   * them, one counter step each. It gives up exactly after `k` (the count
   * is then 0), and any other end leaves a positive count; 1 or 2 datagrams
   * go out per probe.
   */
  lemma ProbesEffect(c: Cipher, l: Link, payload: seq<byte>)
    requires 0 < l.checkRepeatCount
    ensures var run := Probes(c, l, payload);
      var left := run.link.checkRepeatCount;
      var k := if run.result == Throw(TriedLongEnough) then l.checkRepeatCount else l.checkRepeatCount - left + 1;
      && (run.result.Ok? || run.result == Throw(Aborted) || run.result == Throw(TriedLongEnough))
      && (run.result == Throw(TriedLongEnough) <==> left == 0)
      && 0 <= left <= l.checkRepeatCount
      && 1 <= k <= l.checkRepeatCount
      && run.link.count == (l.count + k) % 0x1_0000
      && k <= |run.link.sent| - |l.sent| <= 2 * k
      && run.link.SameSession(l)
      && (l.Valid() ==> run.link.Valid())
  {
    ProbesOutcome(c, l, payload);
    ProbesCounts(c, l, payload);
    ProbesSent(c, l, payload);
  }

  /** How the probes end, and that they keep the session. */
  lemma {:induction false} ProbesOutcome(c: Cipher, l: Link, payload: seq<byte>)
    requires 0 < l.checkRepeatCount
    ensures var run := Probes(c, l, payload);
      var left := run.link.checkRepeatCount;
      && (run.result.Ok? || run.result == Throw(Aborted) || run.result == Throw(TriedLongEnough))
      && (run.result == Throw(TriedLongEnough) <==> left == 0)
      && 0 <= left <= l.checkRepeatCount
      && (run.result != Throw(TriedLongEnough) ==> 0 < left)
      && run.link.SameSession(l)
      && (l.Valid() ==> run.link.Valid())
    decreases l.checkRepeatCount
  {
    var run := SendPacketRun(c, l, CmdControl, payload);
    SendPacketBasics(c, l, CmdControl, payload);
    if run.result.Ok? && run.result.value.error != 0 {
      var next := run.link.(checkRepeatCount := run.link.checkRepeatCount - 1);
      if next.checkRepeatCount > 0 {
        assert Probes(c, l, payload) == Probes(c, next, payload);
        ProbesOutcome(c, next, payload);
      }
    }
  }

  /** The probes a run took: all of them when it gave up, else those up to the count it stopped at. */
  function ProbesTaken(l: Link, run: Run<seq<byte>>): int
  {
    if run.result == Throw(TriedLongEnough) then l.checkRepeatCount
    else l.checkRepeatCount - run.link.checkRepeatCount + 1
  }

  /** One counter step per probe. */
  lemma {:induction false} ProbesCounts(c: Cipher, l: Link, payload: seq<byte>)
    requires 0 < l.checkRepeatCount
    ensures var run := Probes(c, l, payload);
      run.link.count == (l.count + ProbesTaken(l, run)) % 0x1_0000
    decreases l.checkRepeatCount
  {
    var run := SendPacketRun(c, l, CmdControl, payload);
    SendPacketBasics(c, l, CmdControl, payload);
    if run.result.Ok? && run.result.value.error != 0 {
      var next := run.link.(checkRepeatCount := run.link.checkRepeatCount - 1);
      if next.checkRepeatCount > 0 {
        var rest := Probes(c, next, payload);
        assert Probes(c, l, payload) == rest;
        ProbesCounts(c, next, payload);
        assert ProbesTaken(l, rest) == ProbesTaken(next, rest) + 1;
        Mod16AddLeft(l.count + 1, ProbesTaken(next, rest));
      }
    }
  }

  /** One or two datagrams per probe. */
  lemma {:induction false} ProbesSent(c: Cipher, l: Link, payload: seq<byte>)
    requires 0 < l.checkRepeatCount
    ensures var run := Probes(c, l, payload);
      ProbesTaken(l, run) <= |run.link.sent| - |l.sent| <= 2 * ProbesTaken(l, run)
    decreases l.checkRepeatCount
  {
    var run := SendPacketRun(c, l, CmdControl, payload);
    SendPacketBasics(c, l, CmdControl, payload);
    if run.result.Ok? && run.result.value.error != 0 {
      var next := run.link.(checkRepeatCount := run.link.checkRepeatCount - 1);
      if next.checkRepeatCount > 0 {
        var rest := Probes(c, next, payload);
        assert Probes(c, l, payload) == rest;
        ProbesSent(c, next, payload);
        assert ProbesTaken(l, rest) == ProbesTaken(next, rest) + 1;
      }
    }
  }

  /** `_check_data` sends at most 8 probes, and gives up only after all 8. */
  lemma CheckDataBound(c: Cipher, l: Link, payload: seq<byte>)
    ensures var run := CheckDataRun(c, l, payload);
      && (run.result.Ok? || run.result == Throw(Aborted) || run.result == Throw(TriedLongEnough))
      && 1 <= |run.link.sent| - |l.sent| <= 16
      && (run.result == Throw(TriedLongEnough) ==>
            run.link.count == (l.count + 8) % 0x1_0000 && 8 <= |run.link.sent| - |l.sent|)
      && run.link.SameSession(l)
      && (l.Valid() ==> run.link.Valid())
  {
    ProbesEffect(c, l.(checkRepeatCount := 8), payload);
  }

  /** `check_IR_data_red`: the payload without its first two bytes. */
  function DropTwo(run: Run<seq<byte>>): Run<seq<byte>>
  {
    if run.result.Throw? then run else Run(Ok(Slice(run.result.value, 2, |run.result.value|)), run.link)
  }

  /** The bytes at two offsets of a reply, each possibly missing. */
  function At(s: seq<byte>, i: nat): Option<byte>
  {
    if i < |s| then Some(s[i]) else None
  }

  datatype TempHumidity = TempHumidity(temperature: seq<Option<byte>>, humidity: seq<Option<byte>>)

  /** `checkTempHumidity_rm4pro`: temperature from bytes 2..3, humidity from 4..5 of the payload. */
  function TempHumidityRun(c: Cipher, l: Link): (r: Run<TempHumidity>)
    ensures r.result.Ok? ==> |r.result.value.temperature| == 2 && |r.result.value.humidity| == 2
  {
    var run := CheckDataRun(c, l, CheckTempHumidity);
    if run.result.Throw? then Run(Throw(run.result.error), run.link)
    else
      var resp := run.result.value;
      Run(Ok(TempHumidity([At(resp, 2), At(resp, 3)], [At(resp, 4), At(resp, 5)])), run.link)
  }

  // ---------------------------------------------------------------- RF pollers

  /**
   * The do-while loops of `checkRFData` and `checkRFData_rm4pro`: poll with
   * `_check_data` until byte `ix` of the reply is 1 or the rounds run out.
   * A missing byte is not 1.
   */
  function RfRounds(c: Cipher, l: Link, payload: seq<byte>, ix: nat, retry: int): Poll<seq<byte>>
    decreases retry
  {
    var run := CheckDataRun(c, l, payload);
    if run.result.Throw? then Poll(run, 1)
    else if retry - 1 > 0 && ByteAt(run.result.value, ix) != 1 then
      var more := RfRounds(c, run.link, payload, ix, retry - 1);
      Poll(more.run, more.rounds + 1)
    else Poll(run, 1)
  }

  /** The rounds are at most `retry`, and they stop early only on a throw or a 1 at `ix`. */
  lemma {:induction false} RfRoundsBound(c: Cipher, l: Link, payload: seq<byte>, ix: nat, retry: int)
    requires retry >= 1
    ensures var p := RfRounds(c, l, payload, ix, retry);
      && 1 <= p.rounds <= retry
      && (p.run.result.Ok? && ByteAt(p.run.result.value, ix) != 1 ==> p.rounds == retry)
      && (p.run.result.Ok? || p.run.result == Throw(Aborted) || p.run.result == Throw(TriedLongEnough))
      && p.run.link.SameSession(l)
      && (l.Valid() ==> p.run.link.Valid())
    decreases retry
  {
    var run := CheckDataRun(c, l, payload);
    CheckDataBound(c, l, payload);
    if run.result.Ok? && retry - 1 > 0 && ByteAt(run.result.value, ix) != 1 {
      RfRoundsBound(c, run.link, payload, ix, retry - 1);
    }
  }

  /** `checkRFData`: 3 rounds for a 1 at byte 0, else `no_key_detected`. */
  function CheckRfRun(c: Cipher, l: Link): Run<()>
  {
    var run := RfRounds(c, l, CheckRf, 0, 3).run;
    if run.result.Throw? then Run(Throw(run.result.error), run.link)
    else if ByteAt(run.result.value, 0) != 1 then Run(Throw(NoKeyDetected), run.link)
    else Run(Ok(()), run.link)
  }

  /** `checkRFData_rm4pro`: 10 rounds for a 1 at byte 2, then the frequency bytes 3..6. */
  function CheckRfRm4Run(c: Cipher, l: Link): Run<seq<byte>>
  {
    var run := RfRounds(c, l, CheckRfRm4, 2, 10).run;
    if run.result.Throw? then run
    else if ByteAt(run.result.value, 2) != 1 then Run(Throw(NoKeyDetected), run.link)
    else Run(Ok(Slice(run.result.value, 3, 7)), run.link)
  }

  /** The RF pollers succeed only with the flag byte at 1, and the frequency has at most 4 bytes. */
  lemma RfPollers(c: Cipher, l: Link)
    ensures var r := CheckRfRun(c, l);
      var p := RfRounds(c, l, CheckRf, 0, 3);
      && (r.result.Ok? <==> p.run.result.Ok? && ByteAt(p.run.result.value, 0) == 1)
      && (r.result == Throw(NoKeyDetected) ==> p.rounds == 3)
    ensures var r := CheckRfRm4Run(c, l);
      var p := RfRounds(c, l, CheckRfRm4, 2, 10);
      && (r.result.Ok? <==> p.run.result.Ok? && ByteAt(p.run.result.value, 2) == 1)
      && (r.result.Ok? ==> |r.result.value| <= 4 && r.result.value == Slice(p.run.result.value, 3, 7))
      && (r.result == Throw(NoKeyDetected) ==> p.rounds == 10)
  {
    RfRoundsBound(c, l, CheckRf, 0, 3);
    RfRoundsBound(c, l, CheckRfRm4, 2, 10);
  }

  /** `response[k] !== 0` for some k < 4: a byte that is missing or not zero. */
  predicate Captured(resp: seq<byte>)
  {
    |resp| < 4 || resp[0] != 0 || resp[1] != 0 || resp[2] != 0 || resp[3] != 0
  }

  /** The payload of the later probes of `checkRFData2_rm4pro`: its first three bytes overwritten with 4 0 4. */
  function Rf2Probe(payload: seq<byte>): (p: seq<byte>)
    requires |payload| == 10
    ensures |p| == 10 && p[..3] == [4, 0, 4] && p[3..] == payload[3..]
  {
    [4, 0, 4] + payload[3..]
  }

  /**
   * The rounds of `checkRFData2_rm4pro`: each sends a `_check_data` with the
   * current payload, overwrites its first bytes with 4 0 4 and polls again.
   * A reply whose first four bytes are not all zero is taken, minus two bytes.
   */
  function Rf2Rounds(c: Cipher, l: Link, payload: seq<byte>, retry: int): Poll<seq<byte>>
    requires |payload| == 10
    decreases retry
  {
    var a := CheckDataRun(c, l, payload);
    if a.result.Throw? then Poll(a, 1)
    else
      var b := CheckDataRun(c, a.link, Rf2Probe(payload));
      if b.result.Throw? then Poll(b, 1)
      else if Captured(b.result.value) then Poll(Run(Ok(Slice(b.result.value, 2, |b.result.value|)), b.link), 1)
      else if retry - 1 > 0 then
        var more := Rf2Rounds(c, b.link, Rf2Probe(payload), retry - 1);
        Poll(more.run, more.rounds + 1)
      else Poll(Run(Throw(NoRfData), b.link), 1)
  }

  /** The first payload: 4 0 0x1b, then the frequency at byte 6; more than 4 frequency bytes throw. */
  function CheckRf2Rm4Run(c: Cipher, l: Link, frequency: seq<byte>): Poll<seq<byte>>
  {
    var first := CheckRf2Rm4(frequency);
    if first.Throw? then Poll(Run(Throw(first.error), l), 0)
    else Rf2Rounds(c, l, first.value, 10)
  }

  /**
   * `checkRFData2_rm4pro` takes at most 10 rounds; it gives up with
   * `no_rf_data` only after all 10, and a frequency of more than 4 bytes
   * throws before anything is sent.
   */
  lemma {:induction false} Rf2RoundsBound(c: Cipher, l: Link, payload: seq<byte>, retry: int)
    requires |payload| == 10 && retry >= 1
    ensures var p := Rf2Rounds(c, l, payload, retry);
      && 1 <= p.rounds <= retry
      && (p.run.result == Throw(NoRfData) ==> p.rounds == retry)
      && (p.run.result.Ok? || p.run.result in {Throw(NoRfData), Throw(Aborted), Throw(TriedLongEnough)})
      && p.run.link.SameSession(l)
    decreases retry
  {
    var a := CheckDataRun(c, l, payload);
    CheckDataBound(c, l, payload);
    if a.result.Ok? {
      var b := CheckDataRun(c, a.link, Rf2Probe(payload));
      CheckDataBound(c, a.link, Rf2Probe(payload));
      if b.result.Ok? && !Captured(b.result.value) && retry - 1 > 0 {
        Rf2RoundsBound(c, b.link, Rf2Probe(payload), retry - 1);
      }
    }
  }

  lemma CheckRf2Rm4Bound(c: Cipher, l: Link, frequency: seq<byte>)
    ensures var p := CheckRf2Rm4Run(c, l, frequency);
      && (|frequency| > 4 <==> p.run.result == Throw(RangeError))
      && (|frequency| > 4 ==> p.run.link == l && p.rounds == 0)
      && (|frequency| <= 4 ==> 1 <= p.rounds <= 10)
  {
    if |frequency| <= 4 {
      Rf2RoundsBound(c, l, CheckRf2Rm4(frequency).value, 10);
    }
  }

  /** `mp1_check_power`: byte 0x0a of the payload (missing when the payload is short). */
  function Mp1CheckPowerRun(c: Cipher, l: Link): Run<Option<byte>>
  {
    var run := Expect0(SendPacketRun(c, l, CmdControl, Mp1CheckPower));
    if run.result.Throw? then Run(Throw(run.result.error), run.link)
    else Run(Ok(At(run.result.value, 0x0a)), run.link)
  }

  /** `mp1_set_power_state`: every failure, a throw included, becomes `invalid_response`. */
  function Mp1SetPowerRun(c: Cipher, l: Link, sid: int, mode: bool): (r: Run<()>)
    ensures r.result.Throw? ==> r.result.error == InvalidResponse
  {
    var run := SendPacketRun(c, l, CmdControl, Mp1SetPower(sid, mode));
    if run.result.Throw? || run.result.value.error != 0 then Run(Throw(InvalidResponse), run.link)
    else Run(Ok(()), run.link)
  }

  /** `dooya_set_state`: the first payload byte, `invalid_response` when there is none. */
  function DooyaRun(c: Cipher, l: Link, cmd1: int, cmd2: int): Run<byte>
  {
    var run := Expect0(SendPacketRun(c, l, CmdControl, DooyaSetState(cmd1, cmd2)));
    if run.result.Throw? then Run(Throw(run.result.error), run.link)
    else if |run.result.value| > 0 then Run(Ok(run.result.value[0]), run.link)
    else Run(Throw(InvalidResponse), run.link)
  }

  /** The state readers and the MP1 and Dooya commands fail exactly on a reply with a non-zero error. */
  lemma CheckedCommands(c: Cipher, l: Link, sid: int, mode: bool, cmd1: int, cmd2: int)
    ensures var s := SendPacketRun(c, l, CmdControl, Mp1SetPower(sid, mode));
      Mp1SetPowerRun(c, l, sid, mode).result.Ok? <==> s.result.Ok? && s.result.value.error == 0
    ensures var s := SendPacketRun(c, l, CmdControl, Mp1CheckPower);
      Mp1CheckPowerRun(c, l).result.Ok? <==> s.result.Ok? && s.result.value.error == 0
    ensures var s := SendPacketRun(c, l, CmdControl, ReadStatus);
      Expect0(s).result == Throw(InvalidResponse) <==> s.result.Ok? && s.result.value.error != 0
    ensures var s := SendPacketRun(c, l, CmdControl, DooyaSetState(cmd1, cmd2));
      DooyaRun(c, l, cmd1, cmd2).result.Ok? ==>
        s.result.Ok? && s.result.value.error == 0 && |s.result.value.payload.value| > 0
        && DooyaRun(c, l, cmd1, cmd2).result.value == s.result.value.payload.value[0]
    ensures var s := SendPacketRun(c, l, CmdControl, Mp1SetPower(sid, mode));
      NoAnswer(l.replies) ==> Mp1SetPowerRun(c, l, sid, mode).result == Throw(InvalidResponse)
  {
    SendPacketEffect(c, l, CmdControl, Mp1SetPower(sid, mode));
    SendPacketEffect(c, l, CmdControl, Mp1CheckPower);
    SendPacketEffect(c, l, CmdControl, ReadStatus);
    SendPacketEffect(c, l, CmdControl, DooyaSetState(cmd1, cmd2));
  }

  // ---------------------------------------------------------------- the object

  class Communicate {
    const cipher: Cipher
    var count: int
    var deviceType: int
    var mac: seq<byte>
    var id: seq<byte>
    var key: seq<byte>
    var iv: seq<byte>
    var ipAddress: string
    var checkRepeatCount: int
    /** What the next `sendto` calls meet, in order. */
    var replies: seq<Delivery>
    /** Every datagram sent so far. */
    var sent: seq<Datagram>

    function Snapshot(): Link
      reads this
    {
      Link(count, deviceType, mac, id, key, iv, ipAddress, checkRepeatCount, replies, sent)
    }

    /** A session not yet configured, over the given cipher and network. */
    constructor (cipher: Cipher, replies: seq<Delivery>)
      ensures this.cipher == cipher
      ensures Snapshot() == Link(0, 0, [], [], [], [], "", 0, replies, [])
    {
      this.cipher := cipher;
      count, deviceType, mac, id, key, iv, ipAddress, checkRepeatCount := 0, 0, [], [], [], [], "", 0;
      this.replies := replies;
      sent := [];
    }

    method Configure(options: Options)
      modifies this
      ensures Snapshot() == Configured(old(Snapshot()), options)
    {
      count := options.count;
      deviceType := options.deviceType;
      ipAddress := if options.ipAddress.None? || options.ipAddress.value == "" then Broadcast else options.ipAddress.value;
      id := options.id.GetOr([0, 0, 0, 0]);
      mac := options.mac.GetOr([0, 0, 0, 0, 0, 0]);
      key := if options.key.Some? && |options.key.value| == 16 then options.key.value else DefaultKey;
      iv := InitialVector;
      checkRepeatCount := 0;
    }

    method SetIPaddress(address: string)
      modifies this
      ensures Snapshot() == old(Snapshot()).(ipAddress := address)
    {
      ipAddress := address;
    }

    /** `sendto`: hand the datagram to the network and take the next scripted delivery. */
    method SendTo(packet: seq<byte>, address: string, port: int) returns (d: Delivery)
      modifies this
      ensures Step(d, Snapshot()) == SendToRun(old(Snapshot()), packet, address, port)
    {
      sent := sent + [Datagram(packet, address, port)];
      if replies == [] {
        d := Timeout;
      } else {
        d := replies[0];
        replies := replies[1..];
      }
    }

    method SendPacket(command: int, payload: seq<byte>) returns (r: Outcome<Response>)
      modifies this
      ensures Run(r, Snapshot()) == SendPacketRun(cipher, old(Snapshot()), command, payload)
    {
      count := (count + 1) % 0x1_0000;
      var packet := AssemblePacket(cipher, key, iv, command, deviceType, count, mac, id, payload);
      ghost var l0 := Snapshot();
      assert packet == PacketFor(cipher, l0, command, payload);
      var response: Delivery := Timeout;
      var attempt := 1;
      while attempt <= 2
        invariant 1 <= attempt <= 3
        invariant attempt == 1 ==> Snapshot() == l0
        invariant attempt == 2 ==> Step(response, Snapshot()) == SendToRun(l0, packet, l0.ipAddress, DevicePort)
        invariant attempt >= 2 ==> response.Timeout?
        invariant attempt == 3 ==> Step(response, Snapshot()) == Deliver(l0, packet)
      {
        response := SendTo(packet, ipAddress, DevicePort);
        if response.Reply? {
          break;
        }
        attempt := attempt + 1;
      }
      assert Step(response, Snapshot()) == Deliver(l0, packet);
      if response.Timeout? {
        return Ok(NoReply);
      }
      r := ParseReply(cipher, key, iv, response.data);
    }

    method Auth() returns (r: Outcome<AuthData>)
      modifies this
      ensures Run(r, Snapshot()) == AuthRun(cipher, old(Snapshot()))
    {
      var response := SendPacket(CmdAuth, AuthPayload());
      if response.Throw? {
        return Throw(response.error);
      }
      r := AuthKeyAsWritten(response.value);
      if r.Ok? {
        id := r.value.id;
        key := r.value.key;
      }
    }

    method Discover(t: LocalTime, timezone: int, local: Option<seq<int>>, device: Option<string>)
      returns (r: Outcome<DiscoveryInfo>)
      modifies this
      ensures Run(r, Snapshot()) == DiscoverRun(old(Snapshot()), t, timezone, local, device)
    {
      if local.None? {
        return Throw(DiscoverLocalIp);
      }
      var address := if device.None? then Broadcast else device.value;
      var packet := BuildDiscoveryPacket(t, timezone, local.value);
      var d := SendTo(packet, address, DevicePort);
      if d.Timeout? {
        return Throw(SendingTimeout);
      }
      r := Ok(ParseDiscoveryReply(d.data, d.address));
    }

    /** `_check_data`: the probes, one after another (the interval timer is not modelled). */
    method CheckData(payload: seq<byte>) returns (r: Outcome<seq<byte>>)
      modifies this
      ensures Run(r, Snapshot()) == CheckDataRun(cipher, old(Snapshot()), payload)
    {
      ghost var target := CheckDataRun(cipher, Snapshot(), payload);
      checkRepeatCount := 8;
      while true
        invariant 0 < checkRepeatCount
        invariant Probes(cipher, Snapshot(), payload) == target
        decreases checkRepeatCount
      {
        var response := SendPacket(CmdControl, payload);
        if response.Throw? {
          return Throw(Aborted);
        }
        if response.value.error == 0 {
          return Ok(response.value.payload.GetOr([]));
        }
        checkRepeatCount := checkRepeatCount - 1;
        if checkRepeatCount <= 0 {
          return Throw(TriedLongEnough);
        }
      }
    }

    method CheckIRData() returns (r: Outcome<seq<byte>>)
      modifies this
      ensures Run(r, Snapshot()) == CheckDataRun(cipher, old(Snapshot()), CheckIr(old(deviceType)))
    {
      r := CheckData(CheckIr(deviceType));
    }

    method CheckIRDataRed() returns (r: Outcome<seq<byte>>)
      modifies this
      ensures Run(r, Snapshot()) == DropTwo(CheckDataRun(cipher, old(Snapshot()), CheckIrRed))
    {
      var response := CheckData(CheckIrRed);
      if response.Throw? {
        return response;
      }
      r := Ok(Slice(response.value, 2, |response.value|));
    }

    method CheckIRDataRm4Mini() returns (r: Outcome<seq<byte>>)
      modifies this
      ensures Run(r, Snapshot()) == CheckDataRun(cipher, old(Snapshot()), CheckIrRed)
    {
      r := CheckData(CheckIrRed);
    }

    method CheckTempHumidityRm4Pro() returns (r: Outcome<TempHumidity>)
      modifies this
      ensures Run(r, Snapshot()) == TempHumidityRun(cipher, old(Snapshot()))
    {
      var resp := CheckData(CheckTempHumidity);
      if resp.Throw? {
        return Throw(resp.error);
      }
      var v := resp.value;
      r := Ok(TempHumidity([At(v, 2), At(v, 3)], [At(v, 4), At(v, 5)]));
    }

    /** The do-while loop both RF frequency pollers share. */
    method PollRf(payload: seq<byte>, ix: nat, retry: int) returns (r: Outcome<seq<byte>>)
      requires retry >= 1
      modifies this
      ensures Run(r, Snapshot()) == RfRounds(cipher, old(Snapshot()), payload, ix, retry).run
    {
      ghost var target := RfRounds(cipher, Snapshot(), payload, ix, retry).run;
      var retryCount := retry;
      while true
        invariant retryCount >= 1
        invariant RfRounds(cipher, Snapshot(), payload, ix, retryCount).run == target
        decreases retryCount
      {
        var resp := CheckData(payload);
        if resp.Throw? {
          return resp;
        }
        retryCount := retryCount - 1;
        if !(retryCount > 0 && ByteAt(resp.value, ix) != 1) {
          return resp;
        }
      }
    }

    method CheckRFData() returns (r: Outcome<()>)
      modifies this
      ensures Run(r, Snapshot()) == CheckRfRun(cipher, old(Snapshot()))
    {
      var resp := PollRf(CheckRf, 0, 3);
      if resp.Throw? {
        return Throw(resp.error);
      }
      if ByteAt(resp.value, 0) != 1 {
        return Throw(NoKeyDetected);
      }
      r := Ok(());
    }

    method CheckRFDataRm4Pro() returns (r: Outcome<seq<byte>>)
      modifies this
      ensures Run(r, Snapshot()) == CheckRfRm4Run(cipher, old(Snapshot()))
    {
      var resp := PollRf(CheckRfRm4, 2, 10);
      if resp.Throw? {
        return resp;
      }
      if ByteAt(resp.value, 2) != 1 {
        return Throw(NoKeyDetected);
      }
      r := Ok(Slice(resp.value, 3, 7));
    }

    /** `checkRFData2`: one `_check_data` with 0x1b. */
    method CheckRFData2() returns (r: Outcome<seq<byte>>)
      modifies this
      ensures Run(r, Snapshot()) == CheckDataRun(cipher, old(Snapshot()), CheckRf2)
    {
      r := CheckData(CheckRf2);
    }

    /** The first payload of `checkRFData2_rm4pro`: `set` of 4 0 0x1b at 0 and of the frequency at 6, which fails past the end. */
    static method Rf2Payload(frequency: seq<byte>) returns (payload: array<byte>, fits: bool)
      ensures fresh(payload)
      ensures fits <==> CheckRf2Rm4(frequency).Ok?
      ensures fits ==> payload[..] == CheckRf2Rm4(frequency).value
    {
      payload := new byte[10](_ => 0);
      payload[0], payload[1], payload[2] := 4, 0, 0x1b;
      if |frequency| > 4 {
        return payload, false;
      }
      forall i | 0 <= i < |frequency| {
        payload[6 + i] := frequency[i];
      }
      fits := true;
      assert payload[..] == CheckRf2Rm4(frequency).value;
    }

    /** `checkRFData2_rm4pro`: the 10-byte payload is a buffer whose first bytes the loop overwrites. */
    method CheckRFData2Rm4Pro(frequency: seq<byte>) returns (r: Outcome<seq<byte>>)
      modifies this
      ensures Run(r, Snapshot()) == CheckRf2Rm4Run(cipher, old(Snapshot()), frequency).run
    {
      var payload, fits := Rf2Payload(frequency);
      if !fits {
        return Throw(RangeError);
      }
      r := PollRf2(payload);
    }

    /** The rounds of `checkRFData2_rm4pro` over its payload buffer. */
    method PollRf2(payload: array<byte>) returns (r: Outcome<seq<byte>>)
      requires payload.Length == 10
      modifies this, payload
      ensures Run(r, Snapshot()) == Rf2Rounds(cipher, old(Snapshot()), old(payload[..]), 10).run
    {
      ghost var target := Rf2Rounds(cipher, Snapshot(), payload[..], 10).run;
      var retryCount := 10;
      while true
        invariant retryCount >= 1
        invariant Rf2Rounds(cipher, Snapshot(), payload[..], retryCount).run == target
        decreases retryCount
      {
        ghost var before := payload[..];
        var first := CheckData(payload[..]);
        if first.Throw? {
          return Throw(first.error);
        }
        payload[0], payload[1], payload[2] := 4, 0, 4;
        assert payload[..] == Rf2Probe(before);
        var response := CheckData(payload[..]);
        if response.Throw? {
          return response;
        }
        if Captured(response.value) {
          return Ok(Slice(response.value, 2, |response.value|));
        }
        retryCount := retryCount - 1;
        if retryCount <= 0 {
          return Throw(NoRfData);
        }
        assert Rf2Probe(payload[..]) == payload[..];
      }
    }

    method EnterLearning() returns (r: Outcome<()>)
      modifies this
      ensures Run(r, Snapshot()) == Discard(SendPacketRun(cipher, old(Snapshot()), CmdControl, Codec.EnterLearning))
    {
      var response := SendPacket(CmdControl, Codec.EnterLearning);
      r := if response.Throw? then Throw(response.error) else Ok(());
    }

    method EnterLearningRed() returns (r: Outcome<()>)
      modifies this
      ensures Run(r, Snapshot()) == Discard(SendPacketRun(cipher, old(Snapshot()), CmdControl, Codec.EnterLearningRed))
    {
      var response := SendPacket(CmdControl, Codec.EnterLearningRed);
      r := if response.Throw? then Throw(response.error) else Ok(());
    }

    method EnterRFSweep() returns (r: Outcome<()>)
      modifies this
      ensures Run(r, Snapshot()) == Discard(SendPacketRun(cipher, old(Snapshot()), CmdControl, Codec.EnterRfSweep))
    {
      var response := SendPacket(CmdControl, Codec.EnterRfSweep);
      r := if response.Throw? then Throw(response.error) else Ok(());
    }

    method CancelRFSweep() returns (r: Outcome<()>)
      modifies this
      ensures Run(r, Snapshot()) == Discard(SendPacketRun(cipher, old(Snapshot()), CmdControl, Codec.CancelRfSweep))
    {
      var response := SendPacket(CmdControl, Codec.CancelRfSweep);
      r := if response.Throw? then Throw(response.error) else Ok(());
    }

    method EnterRFSweepRm4Pro() returns (r: Outcome<()>)
      modifies this
      ensures Run(r, Snapshot()) == Discard(SendPacketRun(cipher, old(Snapshot()), CmdControl, Codec.EnterRfSweepRm4))
    {
      var response := SendPacket(CmdControl, Codec.EnterRfSweepRm4);
      r := if response.Throw? then Throw(response.error) else Ok(());
    }

    method CancelRFSweepRm4Pro() returns (r: Outcome<()>)
      modifies this
      ensures Run(r, Snapshot()) == Discard(SendPacketRun(cipher, old(Snapshot()), CmdControl, Codec.CancelRfSweepRm4))
    {
      var response := SendPacket(CmdControl, Codec.CancelRfSweepRm4);
      r := if response.Throw? then Throw(response.error) else Ok(());
    }

    /** The four `send_IR_RF_data` variants: the variant's prefix, then the code. */
    method SendIRRFData(variant: SendVariant, data: seq<byte>) returns (r: Outcome<()>)
      modifies this
      ensures Run(r, Snapshot()) ==
        Discard(SendPacketRun(cipher, old(Snapshot()), CmdControl, SendPayload(variant, old(deviceType), data)))
    {
      var response := SendPacket(CmdControl, SendPayload(variant, deviceType, data));
      r := if response.Throw? then Throw(response.error) else Ok(());
    }

    method ReadStatus() returns (r: Outcome<seq<byte>>)
      modifies this
      ensures Run(r, Snapshot()) == Expect0(SendPacketRun(cipher, old(Snapshot()), CmdControl, Codec.ReadStatus))
    {
      var response := SendPacket(CmdControl, Codec.ReadStatus);
      if response.Throw? {
        return Throw(response.error);
      }
      if response.value.error == 0 {
        return Ok(response.value.payload.GetOr([]));
      }
      r := Throw(InvalidResponse);
    }

    method SetPowerState(state: int) returns (r: Outcome<()>)
      modifies this
      ensures Run(r, Snapshot()) == Discard(SendPacketRun(cipher, old(Snapshot()), CmdControl, Codec.SetPowerState(state)))
    {
      var response := SendPacket(CmdControl, Codec.SetPowerState(state));
      r := if response.Throw? then Throw(response.error) else Ok(());
    }

    method Sp2GetEnergy() returns (r: Outcome<seq<byte>>)
      modifies this
      ensures Run(r, Snapshot()) == Expect0(SendPacketRun(cipher, old(Snapshot()), CmdControl, Sp2Energy))
    {
      var response := SendPacket(CmdControl, Sp2Energy);
      if response.Throw? {
        return Throw(response.error);
      }
      if response.value.error == 0 {
        return Ok(response.value.payload.GetOr([]));
      }
      r := Throw(InvalidResponse);
    }

    method Mp1CheckPower() returns (r: Outcome<Option<byte>>)
      modifies this
      ensures Run(r, Snapshot()) == Mp1CheckPowerRun(cipher, old(Snapshot()))
    {
      var response := SendPacket(CmdControl, Codec.Mp1CheckPower);
      if response.Throw? {
        return Throw(response.error);
      }
      if response.value.error == 0 {
        return Ok(At(response.value.payload.GetOr([]), 0x0a));
      }
      r := Throw(InvalidResponse);
    }

    method Mp1SetPowerState(sid: int, mode: bool) returns (r: Outcome<()>)
      modifies this
      ensures Run(r, Snapshot()) == Mp1SetPowerRun(cipher, old(Snapshot()), sid, mode)
    {
      var response := SendPacket(CmdControl, Mp1SetPower(sid, mode));
      if response.Throw? || response.value.error != 0 {
        return Throw(InvalidResponse);
      }
      r := Ok(());
    }

    /** `sp1_set_power_state`: sent under command 0x66, every error swallowed. */
    method Sp1SetPowerState(mode: bool)
      modifies this
      ensures Snapshot() == SendPacketRun(cipher, old(Snapshot()), CmdSp1, Sp1SetPower(mode)).link
    {
      var _ := SendPacket(CmdSp1, Sp1SetPower(mode));
    }

    method DooyaSetState(cmd1: int, cmd2: int) returns (r: Outcome<byte>)
      modifies this
      ensures Run(r, Snapshot()) == DooyaRun(cipher, old(Snapshot()), cmd1, cmd2)
    {
      var response := SendPacket(CmdControl, Codec.DooyaSetState(cmd1, cmd2));
      if response.Throw? {
        return Throw(response.error);
      }
      if response.value.error == 0 {
        var p := response.value.payload.GetOr([]);
        if |p| > 0 {
          return Ok(p[0]);
        }
      }
      r := Throw(InvalidResponse);
    }
  }
}
