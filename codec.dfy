/**
 * The Broadlink datagram formats: the 0x38-byte command header with its two
 * checksums, AES padding, reply decoding, the discovery datagram, and the
 * fixed payloads each command sends.
 */
module Codec {
  import opened Results
  import opened Bytes

  const Magic: seq<byte> := [0x5a, 0xa5, 0xaa, 0x55, 0x5a, 0xa5, 0xaa, 0x55]
  const DefaultKey: seq<byte> :=
    [0x09, 0x76, 0x28, 0x34, 0x3f, 0xe9, 0x9e, 0x23, 0x76, 0x5c, 0x15, 0x13, 0xac, 0xcf, 0x8b, 0x02]
  const InitialVector: seq<byte> :=
    [0x56, 0x2e, 0x17, 0x99, 0x6d, 0x09, 0x3d, 0x28, 0xdd, 0xb3, 0xba, 0x69, 0x5a, 0x2e, 0x6f, 0x58]
  const Broadcast: string := "255.255.255.255"
  const DevicePort: int := 80
  const DiscoveryPort: int := 44488
  const HeaderLength: int := 0x38

  /** Commands of the header's byte 0x26. */
  const CmdAuth: int := 0x65
  const CmdSp1: int := 0x66
  const CmdControl: int := 0x6a

  /**
   * AES-128-CBC under a key and an initial vector, as two functions the model
   * does not look into.
   */
  datatype Cipher = Cipher(
    encrypt: (seq<byte>, seq<byte>, seq<byte>) -> seq<byte>,
    decrypt: (seq<byte>, seq<byte>, seq<byte>) -> seq<byte>)
  {
    /** Without padding, CBC keeps the length of whole blocks. */
    ghost predicate KeepsBlockLength()
    {
      forall key, iv, data :: |data| % 16 == 0 ==>
        |encrypt(key, iv, data)| == |data| && |decrypt(key, iv, data)| == |data|
    }
  }

  // ---------------------------------------------------------------- checksums

  /** The checksum both the device and the app use: 0xbeaf plus every byte, modulo 2^16. */
  function Checksum(s: seq<byte>): uint16
  {
    (0xBEAF + Sum(s)) % 0x1_0000
  }

  /** The checksum loop of `send_packet`, which masks to 16 bits after every byte. */
  method RunningChecksum(s: seq<byte>) returns (checksum: int)
    ensures checksum == Checksum(s)
  {
    checksum := 0xbeaf;
    var i := 0;
    while i < |s|
      invariant 0 <= i <= |s|
      invariant checksum == (0xBEAF + Sum(s[..i])) % 0x1_0000
    {
      assert s[..i + 1][..i] == s[..i];
      Mod16AddLeft(0xBEAF + Sum(s[..i]), s[i]);
      checksum := checksum + s[i];
      checksum := checksum % 0x1_0000;
      i := i + 1;
    }
    assert s[..|s|] == s;
  }

  // ---------------------------------------------------------------- padding

  /**
   * Padding for AES: a non-empty payload is extended with zeros to the next
   * multiple of 16, by a whole block when it already is one; an empty payload
   * stays empty.
   */
  function Pad(p: seq<byte>): (r: seq<byte>)
    ensures |r| % 16 == 0 && |p| <= |r| && r[..|p|] == p
    ensures forall i :: |p| <= i < |r| ==> r[i] == 0
    ensures |p| == 0 ==> r == []
    ensures |p| > 0 ==> |p| < |r| <= |p| + 16
  {
    if |p| > 0 then p + Zeros((|p| / 16 + 1) * 16 - |p|) else p
  }

  /** The zeros padding adds do not change the payload checksum. */
  lemma PadChecksum(p: seq<byte>)
    ensures Checksum(Pad(p)) == Checksum(p)
  {
    if |p| > 0 {
      var n := |Pad(p)| - |p|;
      assert Pad(p) == p + Zeros(n);
      SumAppend(p, Zeros(n));
      SumZeros(n);
    }
  }

  // ---------------------------------------------------------------- header

  /** The byte at offset `i` of a command header, field by field. */
  function HeaderByte(i: int, command: int, deviceType: int, count: int,
                      mac: seq<byte>, id: seq<byte>, payloadChecksum: int): byte
  {
    if 0 <= i < 8 then Magic[i]
    else if i == 0x24 then deviceType % 0x100
    else if i == 0x25 then (deviceType / 0x100) % 0x100
    else if i == 0x26 then command % 0x100
    else if i == 0x28 then count % 0x100
    else if i == 0x29 then (count / 0x100) % 0x100
    else if 0x2a <= i < 0x30 then ByteAt(mac, 0x2f - i)
    else if 0x30 <= i < 0x34 then ByteAt(id, i - 0x30)
    else if i == 0x34 then payloadChecksum % 0x100
    else if i == 0x35 then (payloadChecksum / 0x100) % 0x100
    else 0
  }

  function Header(command: int, deviceType: int, count: int,
                  mac: seq<byte>, id: seq<byte>, payloadChecksum: int): (h: seq<byte>)
    ensures |h| == HeaderLength
  {
    seq(0x38, i requires 0 <= i < 0x38 => HeaderByte(i, command, deviceType, count, mac, id, payloadChecksum))
  }

  /** The header's fields, each a little-endian value where it has two bytes; the mac is reversed. */
  lemma HeaderLayout(command: int, deviceType: int, count: int, mac: seq<byte>, id: seq<byte>, payloadChecksum: int)
    ensures var h := Header(command, deviceType, count, mac, id, payloadChecksum);
      && h[..8] == Magic
      && h[0x20] == 0 && h[0x21] == 0 && h[0x22] == 0 && h[0x23] == 0
      && h[0x24..0x26] == LE16(deviceType)
      && h[0x26] == Uint8(command)
      && h[0x28..0x2a] == LE16(count)
      && (|mac| == 6 ==> h[0x2a..0x30] == [mac[5], mac[4], mac[3], mac[2], mac[1], mac[0]])
      && (|id| >= 4 ==> h[0x30..0x34] == id[..4])
      && h[0x34..0x36] == LE16(payloadChecksum)
      && ReadLE16(h, 0x34) == payloadChecksum % 0x1_0000
  {
    var h := Header(command, deviceType, count, mac, id, payloadChecksum);
    assert h[0x34..0x36] == LE16(payloadChecksum);
    LE16RoundTrip(payloadChecksum, h, 0x34);
  }

  // ---------------------------------------------------------------- command packet

  /** `packet[0x20]`, `packet[0x21]` := the checksum of the packet as it stands, where they are still 0. */
  function Stamp(body: seq<byte>): (r: seq<byte>)
    requires |body| >= 0x22
    ensures |r| == |body|
  {
    var cs := Checksum(body);
    body[0x20 := cs % 0x100][0x21 := cs / 0x100]
  }

  /**
   * A command datagram: the header carrying the checksum of the padded
   * payload, then the ciphertext, then the checksum of all of it at 0x20.
   */
  function BuildPacket(command: int, deviceType: int, count: int, mac: seq<byte>, id: seq<byte>,
                       padded: seq<byte>, ciphertext: seq<byte>): (packet: seq<byte>)
    ensures |packet| == HeaderLength + |ciphertext|
  {
    Stamp(Header(command, deviceType, count, mac, id, Checksum(padded)) + ciphertext)
  }

  /**
   * The receiver's check: zero bytes 0x20..0x21 again, take the checksum, and
   * it equals the value stored there. The rest of the header is what it was.
   */
  lemma PacketChecksumVerifies(command: int, deviceType: int, count: int, mac: seq<byte>, id: seq<byte>,
                               padded: seq<byte>, ciphertext: seq<byte>)
    ensures var p := BuildPacket(command, deviceType, count, mac, id, padded, ciphertext);
      Checksum(p[0x20 := 0][0x21 := 0]) == ReadLE16(p, 0x20)
    ensures var p := BuildPacket(command, deviceType, count, mac, id, padded, ciphertext);
      var h := Header(command, deviceType, count, mac, id, Checksum(padded));
      (forall i :: 0 <= i < HeaderLength && i != 0x20 && i != 0x21 ==> p[i] == h[i])
      && p[HeaderLength..] == ciphertext
  {
    var h := Header(command, deviceType, count, mac, id, Checksum(padded));
    var body := h + ciphertext;
    var p := Stamp(body);
    assert body[0x20] == 0 && body[0x21] == 0;
    assert p[0x20 := 0][0x21 := 0] == body;
    assert p[HeaderLength..] == ciphertext;
  }

  /** The checksum in the header covers the payload before encryption. */
  lemma PayloadChecksumInHeader(command: int, deviceType: int, count: int, mac: seq<byte>, id: seq<byte>,
                                payload: seq<byte>, ciphertext: seq<byte>)
    ensures var p := BuildPacket(command, deviceType, count, mac, id, Pad(payload), ciphertext);
      ReadLE16(p, 0x34) == Checksum(payload)
    ensures payload == [] ==>
      ReadLE16(BuildPacket(command, deviceType, count, mac, id, Pad(payload), ciphertext), 0x34) == 0xbeaf
  {
    PadChecksum(payload);
    HeaderLayout(command, deviceType, count, mac, id, Checksum(Pad(payload)));
    PacketChecksumVerifies(command, deviceType, count, mac, id, Pad(payload), ciphertext);
  }

  /** A packet is the header and a whole number of cipher blocks. */
  lemma PacketLength(c: Cipher, key: seq<byte>, iv: seq<byte>, command: int, deviceType: int, count: int,
                     mac: seq<byte>, id: seq<byte>, payload: seq<byte>)
    requires c.KeepsBlockLength()
    ensures var p := BuildPacket(command, deviceType, count, mac, id, Pad(payload), c.encrypt(key, iv, Pad(payload)));
      |p| == HeaderLength + |Pad(payload)| && (|p| - HeaderLength) % 16 == 0
  {
  }

  /** The header as the writes of `send_packet` leave a zeroed buffer, one byte at a time. */
  lemma HeaderWrites(command: int, deviceType: int, count: int, mac: seq<byte>, id: seq<byte>, checksum: int)
    ensures Zeros(0x38)[0 := 0x5a][1 := 0xa5][2 := 0xaa][3 := 0x55][4 := 0x5a][5 := 0xa5][6 := 0xaa][7 := 0x55]
      [0x24 := deviceType % 0x100][0x25 := (deviceType / 0x100) % 0x100][0x26 := command % 0x100]
      [0x28 := count % 0x100][0x29 := (count / 0x100) % 0x100]
      [0x2a := ByteAt(mac, 5)][0x2b := ByteAt(mac, 4)][0x2c := ByteAt(mac, 3)]
      [0x2d := ByteAt(mac, 2)][0x2e := ByteAt(mac, 1)][0x2f := ByteAt(mac, 0)]
      [0x30 := ByteAt(id, 0)][0x31 := ByteAt(id, 1)][0x32 := ByteAt(id, 2)][0x33 := ByteAt(id, 3)]
      [0x34 := checksum % 0x100][0x35 := (checksum / 0x100) % 0x100]
      == Header(command, deviceType, count, mac, id, checksum)
  {
  }

  /** The header of `send_packet`: a zeroed 0x38-byte buffer, written field by field. */
  method NewHeader(command: int, deviceType: int, count: int, mac: seq<byte>, id: seq<byte>, checksum: int)
    returns (header: array<byte>)
    ensures fresh(header)
    ensures header[..] == Header(command, deviceType, count, mac, id, checksum)
  {
    header := new byte[0x38](_ => 0);
    assert header[..] == Zeros(0x38);
    header[0x00], header[0x01], header[0x02], header[0x03] := 0x5a, 0xa5, 0xaa, 0x55;
    header[0x04], header[0x05], header[0x06], header[0x07] := 0x5a, 0xa5, 0xaa, 0x55;
    header[0x24] := deviceType % 0x100;
    header[0x25] := (deviceType / 0x100) % 0x100;
    header[0x26] := command % 0x100;
    header[0x28] := count % 0x100;
    header[0x29] := (count / 0x100) % 0x100;
    header[0x2a], header[0x2b], header[0x2c] := ByteAt(mac, 5), ByteAt(mac, 4), ByteAt(mac, 3);
    header[0x2d], header[0x2e], header[0x2f] := ByteAt(mac, 2), ByteAt(mac, 1), ByteAt(mac, 0);
    header[0x30], header[0x31], header[0x32], header[0x33] := ByteAt(id, 0), ByteAt(id, 1), ByteAt(id, 2), ByteAt(id, 3);
    header[0x34] := checksum % 0x100;
    header[0x35] := (checksum / 0x100) % 0x100;
    HeaderWrites(command, deviceType, count, mac, id, checksum);
  }

  /**
   * The packet-building part of `send_packet`: the header filled byte by
   * byte, the payload padded and summed, encrypted, appended, and the whole
   * packet summed into 0x20..0x21.
   */
  method AssemblePacket(c: Cipher, key: seq<byte>, iv: seq<byte>, command: int, deviceType: int,
                        count: int, mac: seq<byte>, id: seq<byte>, payload: seq<byte>) returns (packet: seq<byte>)
    ensures packet == BuildPacket(command, deviceType, count, mac, id, Pad(payload), c.encrypt(key, iv, Pad(payload)))
  {
    var padded := payload;
    if |payload| > 0 {
      var numpad := (|payload| / 16 + 1) * 16 - |payload|;
      padded := payload + Zeros(numpad);
    }
    var checksum := RunningChecksum(padded);

    var header := NewHeader(command, deviceType, count, mac, id, checksum);

    var ciphertext := c.encrypt(key, iv, padded);
    var whole := header[..] + ciphertext;
    checksum := RunningChecksum(whole);
    packet := whole[0x20 := checksum % 0x100][0x21 := checksum / 0x100];
  }

  // ---------------------------------------------------------------- replies

  /**
   * What `send_packet` resolves with: the error code from bytes 0x22..0x23
   * (-1 when no reply came), and on error 0 the decrypted body split into
   * `cmd` (its first 4 bytes) and `payload` (the rest).
   */
  datatype Response = Response(error: int, data: Option<seq<byte>>, cmd: Option<seq<byte>>, payload: Option<seq<byte>>)

  const NoReply: Response := Response(-1, None, None, None)

  /**
   * Decoding a reply datagram. A datagram too short to hold the error bytes
   * reads them as 0. Decryption of a body that is not whole blocks throws.
   */
  function ParseReply(c: Cipher, key: seq<byte>, iv: seq<byte>, data: seq<byte>): (r: Outcome<Response>)
    ensures r.Throw? <==> ReadLE16(data, 0x22) == 0 && |Slice(data, 0x38, |data|)| % 16 != 0
    ensures r.Throw? ==> r.error == WrongFinalBlockLength
    ensures r.Ok? ==> r.value.error == ReadLE16(data, 0x22) && r.value.data == Some(data)
    ensures r.Ok? ==> (r.value.error == 0 <==> r.value.payload.Some? && r.value.cmd.Some?)
    ensures r.Ok? && r.value.error == 0 ==>
      var plain := c.decrypt(key, iv, Slice(data, 0x38, |data|));
      r.value.cmd.value + r.value.payload.value == plain && |r.value.cmd.value| == Min(4, |plain|)
  {
    var error := ReadLE16(data, 0x22);
    if error != 0 then Ok(Response(error, Some(data), None, None))
    else
      var body := Slice(data, 0x38, |data|);
      if |body| % 16 != 0 then Throw(WrongFinalBlockLength)
      else
        var plain := c.decrypt(key, iv, body);
        assert Slice(plain, 0, 4) + Slice(plain, 4, |plain|) == plain;
        Ok(Response(0, Some(data), Some(Slice(plain, 0, 4)), Some(Slice(plain, 4, |plain|))))
  }

  function Min(a: int, b: int): int { if a < b then a else b }

  /** With a cipher that keeps whole blocks, the payload is the body less the 4 `cmd` bytes. */
  lemma ReplyPayloadLength(c: Cipher, key: seq<byte>, iv: seq<byte>, data: seq<byte>)
    requires c.KeepsBlockLength()
    requires ParseReply(c, key, iv, data).Ok? && ParseReply(c, key, iv, data).value.error == 0
    ensures var r := ParseReply(c, key, iv, data).value;
      |r.payload.value| == if |data| >= HeaderLength + 4 then |data| - HeaderLength - 4 else 0
  {
  }

  // ---------------------------------------------------------------- authentication

  /** The `auth` request: 0x31 at 0x04..0x12, 1 at 0x1e and 0x2d, and "Test  1" at 0x30. */
  function AuthPayload(): (p: seq<byte>)
    ensures |p| == 0x50
    ensures forall i :: 0x04 <= i <= 0x12 ==> p[i] == 0x31
    ensures p[0x1e] == 1 && p[0x2d] == 1
    ensures p[0x30..0x37] == ['T' as byte, 'e' as byte, 's' as byte, 't' as byte, ' ' as byte, ' ' as byte, '1' as byte]
  {
    Zeros(4) + seq(15, _ => 0x31) + Zeros(0x1e - 0x13) + [1] + Zeros(0x2d - 0x1f) + [1] + Zeros(2)
      + [0x54, 0x65, 0x73, 0x74, 0x20, 0x20, 0x31] + Zeros(0x50 - 0x37)
  }

  /** The id and key `auth` hands out. */
  datatype AuthData = AuthData(id: seq<byte>, key: seq<byte>)

  /**
   * `auth` as written: no payload throws; the key is the first (at most) 16
   * payload bytes and is refused only when its length is not a multiple of 16.
   */
  function AuthKeyAsWritten(response: Response): (r: Outcome<AuthData>)
    ensures response.payload.None? ==> r == Throw(DecryptPayload)
    ensures response.payload.Some? ==>
      var payload := response.payload.value;
      && (r.Ok? <==> |payload| >= 16 || |payload| == 0)
      && (r.Throw? ==> r.error == DecryptKeyLength)
    ensures r.Ok? ==> r.value.id == response.cmd.GetOr([])
    ensures r.Ok? && |response.payload.value| >= 16 ==> r.value.key == response.payload.value[..16]
    ensures r.Ok? && |response.payload.value| == 0 ==> r.value.key == []
  {
    if response.payload.None? then Throw(DecryptPayload)
    else
      var key := Slice(response.payload.value, 0, 0x10);
      if |key| % 16 != 0 then Throw(DecryptKeyLength)
      else Ok(AuthData(response.cmd.GetOr([]), key))
  }

  /** An empty decrypted payload passes that test with an empty key. */
  lemma AuthAcceptsEmptyKey()
    ensures AuthKeyAsWritten(Response(0, Some(Zeros(HeaderLength)), Some([]), Some([]))) == Ok(AuthData([], []))
  {
  }

  /** `auth` as intended: the key must be exactly the first 16 payload bytes. */
  function AuthKey(response: Response): (r: Outcome<AuthData>)
    ensures response.payload.None? ==> r == Throw(DecryptPayload)
    ensures response.payload.Some? && |response.payload.value| < 16 ==> r == Throw(DecryptKeyLength)
    ensures response.payload.Some? && |response.payload.value| >= 16 ==>
      r == Ok(AuthData(response.cmd.GetOr([]), response.payload.value[..16]))
  {
    if response.payload.None? then Throw(DecryptPayload)
    else
      var key := Slice(response.payload.value, 0, 0x10);
      if |key| != 16 then Throw(DecryptKeyLength)
      else Ok(AuthData(response.cmd.GetOr([]), key))
  }

  /** The two differ only on an empty payload. */
  lemma AuthKeyAgrees(response: Response)
    requires response.payload.Some? ==> |response.payload.value| != 0
    ensures AuthKey(response) == AuthKeyAsWritten(response)
  {
  }

  // ---------------------------------------------------------------- discovery

  /** The local clock readings discovery sends (`getMonth` counts from 0, `getDay` from Sunday = 0). */
  datatype LocalTime = LocalTime(year: int, month: int, date: int, hours: int, minutes: int, day: int)

  /** `getIsoWeekday`: Monday = 1 .. Sunday = 7. */
  function IsoWeekday(day: int): (wd: int)
    ensures 0 <= day <= 6 ==> 1 <= wd <= 7
    ensures day == 0 ==> wd == 7
    ensures day != 0 ==> wd == day
  {
    if day == 0 then 7 else day
  }

  /** The signed 32-bit little-endian number four bytes denote. */
  function ReadLE32Signed(b: seq<byte>): int
    requires |b| == 4
  {
    var u := b[0] as int + 0x100 * b[1] as int + 0x1_0000 * b[2] as int + 0x100_0000 * b[3] as int;
    if u >= 0x8000_0000 then u - 0x1_0000_0000 else u
  }

  /** Bytes 0x08..0x0b of the discovery datagram as `discover` writes them. */
  function TimezoneBytesAsWritten(timezone: int): (b: seq<byte>)
    ensures |b| == 4
  {
    if timezone < 0 then [Uint8(0xff + timezone - 1), 0xff, 0xff, 0xff]
    else [Uint8(timezone), 0, 0, 0]
  }

  /** Written so, a negative offset reads back two hours too far west. */
  lemma TimezoneAsWrittenOffByTwo(timezone: int)
    requires -0xfe <= timezone < 0
    ensures ReadLE32Signed(TimezoneBytesAsWritten(timezone)) == timezone - 2
  {
  }

  /** The timezone field as a 32-bit two's complement number (the upper bytes 0xff for a negative offset). */
  function TimezoneBytes(timezone: int): (b: seq<byte>)
    ensures |b| == 4
    ensures 0 <= timezone ==> b == TimezoneBytesAsWritten(timezone)
  {
    if timezone < 0 then [Uint8(0x100 + timezone), 0xff, 0xff, 0xff]
    else [Uint8(timezone), 0, 0, 0]
  }

  /** Every offset a clock can have reads back unchanged. */
  lemma TimezoneRoundTrip(timezone: int)
    requires -0x100 <= timezone < 0x100
    ensures ReadLE32Signed(TimezoneBytes(timezone)) == timezone
  {
  }

  /** The byte at offset `i` of the discovery datagram before its checksum is written. */
  function DiscoveryByte(i: int, t: LocalTime, timezone: seq<byte>, local: seq<int>): byte
    requires |timezone| == 4
  {
    if 0x08 <= i < 0x0c then timezone[i - 0x08]
    else if i == 0x0c then Uint8(t.year)
    else if i == 0x0d then Uint8(t.year / 0x100)
    else if i == 0x0e then Uint8(t.minutes)
    else if i == 0x0f then Uint8(t.hours)
    else if i == 0x10 then Uint8(JsRem(t.year, 100))
    else if i == 0x11 then Uint8(IsoWeekday(t.day))
    else if i == 0x12 then Uint8(t.date)
    else if i == 0x13 then Uint8(t.month + 1)
    else if 0x18 <= i < 0x1c then (if i - 0x18 < |local| then Uint8(local[i - 0x18]) else 0)
    else if i == 0x1c then DiscoveryPort % 0x100
    else if i == 0x1d then DiscoveryPort / 0x100
    else if i == 0x26 then 6
    else 0
  }

  /** The discovery datagram: 0x30 bytes, stamped with their checksum at 0x20. */
  function DiscoveryPacket(t: LocalTime, timezone: seq<byte>, local: seq<int>): (p: seq<byte>)
    requires |timezone| == 4
    ensures |p| == 0x30
  {
    Stamp(seq(0x30, i requires 0 <= i < 0x30 => DiscoveryByte(i, t, timezone, local)))
  }

  /** A datagram stamped over zeros at 0x20..0x21 carries the checksum a receiver recomputes, and nothing else changes. */
  lemma StampChecks(body: seq<byte>)
    requires |body| >= 0x22 && body[0x20] == 0 && body[0x21] == 0
    ensures var p := Stamp(body);
      && p[0x20 := 0][0x21 := 0] == body
      && Checksum(p[0x20 := 0][0x21 := 0]) == ReadLE16(p, 0x20)
      && forall i :: 0 <= i < |body| && i != 0x20 && i != 0x21 ==> p[i] == body[i]
  {
    var p := Stamp(body);
    assert p[0x20 := 0][0x21 := 0] == body;
  }

  /** The bytes of the datagram `discover` writes nothing to. */
  predicate Unwritten(i: int)
  {
    !(0x08 <= i < 0x14) && !(0x18 <= i < 0x1e) && i != 0x20 && i != 0x21 && i != 0x26
  }

  /**
   * The datagram `discover` sends: its timezone bytes as written (a zone
   * east of Greenwich reads back as itself, one west of it two hours
   * further west), the clock fields, the local address, the port, command
   * 6, zeros everywhere else, and the checksum a receiver recomputes.
   */
  lemma DiscoveryLayout(t: LocalTime, timezone: int, local: seq<int>)
    requires |local| == 4 && forall k :: 0 <= k < 4 ==> 0 <= local[k] < 0x100
    ensures var p := DiscoveryPacket(t, TimezoneBytesAsWritten(timezone), local);
      && p[0x08..0x0c] == TimezoneBytesAsWritten(timezone)
      && (0 <= timezone < 0x100 ==> ReadLE32Signed(p[0x08..0x0c]) == timezone)
      && (-0xfe <= timezone < 0 ==> ReadLE32Signed(p[0x08..0x0c]) == timezone - 2)
      && ReadLE16(p, 0x0c) == t.year % 0x1_0000
      && p[0x0e] == Uint8(t.minutes) && p[0x0f] == Uint8(t.hours)
      && p[0x10] == Uint8(JsRem(t.year, 100)) && p[0x11] == Uint8(IsoWeekday(t.day))
      && p[0x12] == Uint8(t.date) && p[0x13] == Uint8(t.month + 1)
      && p[0x18..0x1c] == local
      && ReadLE16(p, 0x1c) == DiscoveryPort
      && p[0x26] == 6
      && (forall i :: 0 <= i < 0x30 && Unwritten(i) ==> p[i] == 0)
      && Checksum(p[0x20 := 0][0x21 := 0]) == ReadLE16(p, 0x20)
  {
    var tz := TimezoneBytesAsWritten(timezone);
    var b := seq(0x30, i requires 0 <= i < 0x30 => DiscoveryByte(i, t, tz, local));
    var p := Stamp(b);
    StampChecks(b);
    DiscoveryBodyFields(t, tz, local);
    if 0 <= timezone < 0x100 {
      assert tz == [timezone as byte, 0, 0, 0];
    } else if -0xfe <= timezone < 0 {
      TimezoneAsWrittenOffByTwo(timezone);
    }
    assert p[0x08..0x0c] == b[0x08..0x0c];
    assert p[0x18..0x1c] == b[0x18..0x1c];
    assert ReadLE16(p, 0x0c) == ReadLE16(b, 0x0c) && ReadLE16(p, 0x1c) == ReadLE16(b, 0x1c);
  }

  /** The fields of the discovery body before it is stamped. */
  lemma DiscoveryBodyFields(t: LocalTime, tz: seq<byte>, local: seq<int>)
    requires |tz| == 4
    requires |local| == 4 && forall k :: 0 <= k < 4 ==> 0 <= local[k] < 0x100
    ensures var b := seq(0x30, i requires 0 <= i < 0x30 => DiscoveryByte(i, t, tz, local));
      && b[0x08..0x0c] == tz
      && ReadLE16(b, 0x0c) == t.year % 0x1_0000
      && b[0x0e] == Uint8(t.minutes) && b[0x0f] == Uint8(t.hours)
      && b[0x10] == Uint8(JsRem(t.year, 100)) && b[0x11] == Uint8(IsoWeekday(t.day))
      && b[0x12] == Uint8(t.date) && b[0x13] == Uint8(t.month + 1)
      && b[0x18..0x1c] == local
      && ReadLE16(b, 0x1c) == DiscoveryPort
      && b[0x20] == 0 && b[0x21] == 0 && b[0x26] == 6
      && (forall i :: 0 <= i < 0x30 && Unwritten(i) ==> b[i] == 0)
  {
    var b := seq(0x30, i requires 0 <= i < 0x30 => DiscoveryByte(i, t, tz, local));
    assert b[0x08..0x0c] == tz;
    assert b[0x18..0x1c] == local by {
      forall k | 0 <= k < 4
        ensures b[0x18 + k] == local[k]
      {
        assert b[0x18 + k] == Uint8(local[k]);
      }
    }
    LE16Digits(t.year);
  }

  /** The discovery body as the writes of `discover` leave a zeroed buffer. */
  lemma DiscoveryWrites(t: LocalTime, tz: seq<byte>, local: seq<int>)
    requires |tz| == 4
    ensures Zeros(0x30)[0x08 := tz[0]][0x09 := tz[1]][0x0a := tz[2]][0x0b := tz[3]]
      [0x0c := Uint8(t.year)][0x0d := Uint8(t.year / 0x100)][0x0e := Uint8(t.minutes)][0x0f := Uint8(t.hours)]
      [0x10 := Uint8(JsRem(t.year, 100))][0x11 := Uint8(IsoWeekday(t.day))][0x12 := Uint8(t.date)]
      [0x13 := Uint8(t.month + 1)]
      [0x18 := if 0 < |local| then Uint8(local[0]) else 0][0x19 := if 1 < |local| then Uint8(local[1]) else 0]
      [0x1a := if 2 < |local| then Uint8(local[2]) else 0][0x1b := if 3 < |local| then Uint8(local[3]) else 0]
      [0x1c := DiscoveryPort % 0x100][0x1d := DiscoveryPort / 0x100][0x26 := 6]
      == seq(0x30, i requires 0 <= i < 0x30 => DiscoveryByte(i, t, tz, local))
  {
  }

  /** The body of the discovery datagram: a zeroed 0x30-byte buffer, written field by field. */
  method NewDiscoveryBody(t: LocalTime, tz: seq<byte>, local: seq<int>) returns (p: array<byte>)
    requires |tz| == 4
    ensures fresh(p)
    ensures p[..] == seq(0x30, i requires 0 <= i < 0x30 => DiscoveryByte(i, t, tz, local))
  {
    p := new byte[0x30](_ => 0);
    assert p[..] == Zeros(0x30);
    p[0x08], p[0x09], p[0x0a], p[0x0b] := tz[0], tz[1], tz[2], tz[3];
    p[0x0c] := Uint8(t.year);
    p[0x0d] := Uint8(t.year / 0x100);
    p[0x0e] := Uint8(t.minutes);
    p[0x0f] := Uint8(t.hours);
    p[0x10] := Uint8(JsRem(t.year, 100));
    p[0x11] := Uint8(IsoWeekday(t.day));
    p[0x12] := Uint8(t.date);
    p[0x13] := Uint8(t.month + 1);
    p[0x18] := if 0 < |local| then Uint8(local[0]) else 0;
    p[0x19] := if 1 < |local| then Uint8(local[1]) else 0;
    p[0x1a] := if 2 < |local| then Uint8(local[2]) else 0;
    p[0x1b] := if 3 < |local| then Uint8(local[3]) else 0;
    p[0x1c] := DiscoveryPort % 0x100;
    p[0x1d] := DiscoveryPort / 0x100;
    p[0x26] := 6;
    DiscoveryWrites(t, tz, local);
  }

  /**
   * The datagram-building part of `discover`, with its timezone bytes as
   * written. This checksum loop adds every byte first and masks once at the end.
   */
  method BuildDiscoveryPacket(t: LocalTime, timezone: int, local: seq<int>) returns (packet: seq<byte>)
    ensures packet == DiscoveryPacket(t, TimezoneBytesAsWritten(timezone), local)
  {
    var p := NewDiscoveryBody(t, TimezoneBytesAsWritten(timezone), local);
    ghost var body := p[..];

    var checksum: int := 0xbeaf;
    var i := 0;
    while i < 0x30
      invariant 0 <= i <= 0x30
      invariant p[..] == body
      invariant checksum == 0xbeaf + Sum(body[..i])
    {
      assert body[..i + 1][..i] == body[..i];
      checksum := checksum + p[i];
      i := i + 1;
    }
    assert body[..0x30] == body;
    checksum := checksum % 0x1_0000;
    p[0x20] := checksum % 0x100;
    p[0x21] := (checksum / 0x100) % 0x100;
    packet := p[..];
  }

  /** What `discover` reports: the sender's address, the mac at 0x3a and the device type at 0x34. */
  datatype DiscoveryInfo = DiscoveryInfo(ipAddress: string, mac: seq<byte>, devtype: int)

  function ParseDiscoveryReply(data: seq<byte>, address: string): (info: DiscoveryInfo)
    ensures |data| >= 0x40 ==> info.mac == data[0x3a..0x40]
    ensures |data| >= 0x36 ==> info.devtype == data[0x34] as int + 0x100 * data[0x35] as int
    ensures 0 <= info.devtype < 0x1_0000 && |info.mac| <= 6
  {
    DiscoveryInfo(address, Slice(data, 0x3a, 0x40), ReadLE16(data, 0x34))
  }

  // ---------------------------------------------------------------- command payloads

  /** A 16-byte payload starting with the given bytes, zeros after. */
  function Payload16(prefix: seq<byte>): (p: seq<byte>)
    requires |prefix| <= 16
    ensures |p| == 16 && p[..|prefix|] == prefix
    ensures forall i :: 0 <= i < |prefix| ==> p[i] == prefix[i]
    ensures forall i :: |prefix| <= i < 16 ==> p[i] == 0
  {
    prefix + Zeros(16 - |prefix|)
  }

  const EnterLearning: seq<byte> := Payload16([3])
  const EnterLearningRed: seq<byte> := Payload16([4, 0, 3])
  const CheckIrRed: seq<byte> := Payload16([4, 0, 4])
  const CheckTempHumidity: seq<byte> := Payload16([0, 0, 0x24])
  const EnterRfSweep: seq<byte> := Payload16([0x19])
  const CheckRf: seq<byte> := Payload16([0x1a])
  const CheckRf2: seq<byte> := Payload16([0x1b])
  const CancelRfSweep: seq<byte> := Payload16([0x1e])
  const EnterRfSweepRm4: seq<byte> := Payload16([4, 0, 0x19])
  const CheckRfRm4: seq<byte> := Payload16([4, 0, 0x1a])
  const CancelRfSweepRm4: seq<byte> := Payload16([4, 0, 0x1e])
  const ReadStatus: seq<byte> := Payload16([1])
  const Sp2Energy: seq<byte> := [8, 0, 254, 1, 5, 1, 0, 0, 0, 45]
  const Mp1CheckPower: seq<byte> := Payload16([0x0a, 0, 0xa5, 0xa5, 0x5a, 0x5a, 0xae, 0xc0, 0x01])

  /** The IR poll of `check_IR_data`: the Red Bean (0x5f36) sets byte 2, the others byte 0. */
  function CheckIr(deviceType: int): (p: seq<byte>)
    ensures |p| == 16
    ensures deviceType == 0x5f36 ==> p[0] == 0 && p[2] == 4
    ensures deviceType != 0x5f36 ==> p[0] == 4 && p[2] == 0
  {
    if deviceType == 0x5f36 then Payload16([0, 0, 4]) else Payload16([4])
  }

  /** `setPowerState(state)`: 2 at byte 0, the state at byte 4. */
  function SetPowerState(state: int): (p: seq<byte>)
    ensures |p| == 16 && p[0] == 2 && p[4] == Uint8(state)
  {
    Payload16([2, 0, 0, 0, Uint8(state)])
  }

  /** `sp1_set_power_state(mode)`, sent under command 0x66. */
  function Sp1SetPower(mode: bool): (p: seq<byte>)
    ensures |p| == 4 && p[1..] == [4, 4, 4] && (p[0] == 1 <==> mode)
  {
    [if mode then 1 else 0, 4, 4, 4]
  }

  /** `dooya_set_state(cmd1, cmd2)`. */
  function DooyaSetState(cmd1: int, cmd2: int): (p: seq<byte>)
    ensures |p| == 16 && p[3] == Uint8(cmd1) && p[4] == Uint8(cmd2) && p[9] == 0xfa && p[10] == 0x44
  {
    Payload16([9, 0, 0xbb, Uint8(cmd1), Uint8(cmd2), 0, 0, 0, 0, 0xfa, 0x44])
  }

  /**
   * `0x01 << (sid - 1)`: the shift count is taken modulo 32. Only the value
   * modulo 256 is ever stored, and there the 32-bit wrap-around of the shift
   * makes no difference.
   */
  function SocketMask(sid: int): nat
  {
    Pow2((sid - 1) % 32)
  }

  /** `mp1_set_power_state(sid, mode)`. */
  function Mp1SetPower(sid: int, mode: bool): (p: seq<byte>)
    ensures |p| == 16
  {
    var mask := SocketMask(sid);
    Payload16([0x0d, 0, 0xa5, 0xa5, 0x5a, 0x5a, Uint8(0xb2 + (if mode then 2 * mask else mask)),
               0xc0, 0x02, 0, 0x03, 0, 0, Uint8(mask), Uint8(if mode then mask else 0)])
  }

  /** Sockets 1..4 have one bit each, and the state byte says whether it is switched on. */
  lemma Mp1Sockets(sid: int, mode: bool)
    requires 1 <= sid <= 4
    ensures var p := Mp1SetPower(sid, mode);
      && p[0x0d] == Pow2(sid - 1) && p[0x0d] in {1, 2, 4, 8}
      && p[0x0e] == (if mode then p[0x0d] else 0)
      && p[6] == 0xb2 + (if mode then 2 * p[0x0d] else p[0x0d])
  {
    SocketMaskBits(sid);
    Mp1Bytes(sid, mode);
  }

  /** Where `mp1_set_power_state` puts the mask and the state byte, none of which wraps for sockets 1..4. */
  lemma Mp1Bytes(sid: int, mode: bool)
    requires 1 <= sid <= 4
    ensures var mask := SocketMask(sid);
      var p := Mp1SetPower(sid, mode);
      && p[0x0d] == mask
      && p[0x0e] == (if mode then mask else 0)
      && p[6] == 0xb2 + (if mode then 2 * mask else mask)
  {
    var mask := SocketMask(sid);
    SocketMaskBits(sid);
    var m := if mode then mask else 0;
    var s := 0xb2 + (if mode then 2 * mask else mask);
    assert 0 <= mask < 0x100 && 0 <= m < 0x100 && 0 <= s < 0x100;
    Uint8Small(mask);
    Uint8Small(m);
    Uint8Small(s);
  }

  /** Sockets 1..4 are the bits 1, 2, 4 and 8. */
  lemma SocketMaskBits(sid: int)
    requires 1 <= sid <= 4
    ensures SocketMask(sid) == Pow2(sid - 1) && SocketMask(sid) in {1, 2, 4, 8}
    ensures SocketMask(sid) == [1, 2, 4, 8][sid - 1]
  {
    assert (sid - 1) % 32 == sid - 1;
    assert Pow2(0) == 1 && Pow2(1) == 2 && Pow2(2) == 4 && Pow2(3) == 8;
  }

  /** Two different sockets never share a bit. */
  lemma Mp1SocketsDistinct(a: int, b: int)
    requires 1 <= a <= 4 && 1 <= b <= 4 && a != b
    ensures Mp1SetPower(a, true)[0x0d] != Mp1SetPower(b, true)[0x0d]
  {
    Mp1Sockets(a, true);
    Mp1Sockets(b, true);
    SocketMaskBits(a);
    SocketMaskBits(b);
  }

  /** Which of the `send_IR_RF_data` variants sends a stored code. */
  datatype SendVariant = General | Red | MiniRed | Rm4Pro

  /** The bytes each variant puts before the code. */
  function SendPrefix(v: SendVariant, deviceType: int): (prefix: seq<byte>)
    ensures |prefix| == (if v == MiniRed || v == Rm4Pro then 6 else 4)
  {
    match v
    case General => if deviceType == 0x5f36 then [0xd0, 0, 2, 0] else [2, 0, 0, 0]
    case Red => [0xd0, 0, 2, 0]
    case MiniRed => [0xd0, 0, 2, 0, 0, 0]
    case Rm4Pro => [0xda, 0, 2, 0, 0, 0]
  }

  function SendPayload(v: SendVariant, deviceType: int, code: seq<byte>): (p: seq<byte>)
    ensures |p| == |SendPrefix(v, deviceType)| + |code| && p[|SendPrefix(v, deviceType)|..] == code
  {
    SendPrefix(v, deviceType) + code
  }

  /** The first byte distinguishes RM4 pro codes (0xda), Red Bean codes (0xd0) and the rest (0x02). */
  lemma SendPrefixes(deviceType: int, code: seq<byte>)
    ensures SendPayload(Rm4Pro, deviceType, code)[0] == 0xda
    ensures SendPayload(MiniRed, deviceType, code)[0] == 0xd0 && SendPayload(Red, deviceType, code)[0] == 0xd0
    ensures SendPayload(General, deviceType, code)[0] == (if deviceType == 0x5f36 then 0xd0 else 2)
    ensures forall v :: SendPayload(v, deviceType, code)[2] == (if v == General && deviceType != 0x5f36 then 0 else 2)
  {
  }

  /**
   * The payload `checkRFData2_rm4pro` starts from: 10 bytes, 4 0 0x1b, then
   * the frequency bytes at 6. More than 4 of them do not fit and `set` throws.
   */
  function CheckRf2Rm4(frequency: seq<byte>): (r: Outcome<seq<byte>>)
    ensures |frequency| > 4 <==> r == Throw(RangeError)
    ensures r.Ok? ==> |r.value| == 10 && r.value[..3] == [4, 0, 0x1b] && r.value[6..6 + |frequency|] == frequency
  {
    if |frequency| > 4 then Throw(RangeError)
    else Ok([4, 0, 0x1b, 0, 0, 0] + frequency + Zeros(4 - |frequency|))
  }
}
