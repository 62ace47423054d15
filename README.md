# Broadlink for Homey — a Dafny model of the protocol engine and drivers

This project models the core of the Broadlink app for Homey. That core is:

- the packet codec and session state that talk to Broadlink devices over UDP (`lib/Communicate.js`);
- the byte and hex helpers (`lib/BroadlinkUtils.js`);
- the table from device id to device family (`lib/DeviceInfo.js`);
- the drivers for the RM3 mini and RM4 pro remotes, the SP2 plug and the A1 sensor.

Each part is proved against its own specification.

**Packets.** A packet is a 0x38-byte header followed by the AES-encrypted payload. The payload is padded
with zeros to a multiple of 16. The header carries:

- the magic bytes;
- the device type and the command;
- a 16-bit counter;
- the reversed MAC and the device id;
- two 16-bit checksums seeded with 0xbeaf, one over the padded payload and one over the whole packet.

`Codec` builds and parses packets as pure functions. `Communicate` is the session object: its fields are
those of the source class, and every method is proved equal to a run function over a snapshot of those fields.

**Network and cipher.** The network is a script of deliveries that the `sendto` calls meet in order (a
reply or a timeout), and every datagram sent is logged. AES is an abstract cipher given to the session.
With these, the model can state exactly which datagrams an operation sends and what it returns for every
script: the retrying `send_packet`, the eight-probe `_check_data` poller, and the RF pollers of the RM
family.

**The RM drivers.** The RM3 mini and RM4 pro drivers keep two things in step: a list of learned commands,
and the device settings whose `RcCmd0`, `RcCmd1`, … slots show a page of command names. `RcCommands`
holds this shared bookkeeping as the class `RcDevice`. The two driver files carry the same text for it,
and it is modelled once. It covers:

- storing a name in the first empty slot;
- filling a page;
- naming a learned command;
- the rename/delete/restore rules of `onSettings`.

`Rm3Mini` and `Rm4Pro` add each driver's sender and learning flow.

**The SP2 and A1 drivers.** `Sp2` decodes and rewrites the plug's two-bit status byte and fires its flow
triggers. `A1` maps the sensor bytes to levels that a device object keeps, and states the flow-card lists
and comparisons.

JavaScript semantics that matter here are written out:

- Uint8Array stores keep the value modulo 256;
- `& 0xffff` is `% 0x1_0000`;
- a missing typed-array element reads as 0 under `|` or as `undefined` in a comparison;
- `slice` clamps;
- `x || ""` follows truthiness;
- `parseInt(s, 10) || 0` and `String(n)` are modelled on decimal text.

`send_IR_RF_data` and `send_IR_RF_data_red` build their prefixes in a `Uint8Array(4)`, so every IR send
starts with four prefix bytes (`Codec.SendPrefix`).

The session, the drivers and the discovery datagram do what the code does, including the three defects
listed under "## Findings": the authentication key check, the negative timezone bytes and the learned
RF command name. The corrected definitions are stated beside them with their intended properties proved,
and nothing else uses them.

## Model

| member | source | states |
|---|---|---|
| Bytes.LE16RoundTrip | lib/Communicate.js:171-175 | a 16-bit field written low byte first reads back as the value modulo 65536 |
| Bytes.Slice | lib/Communicate.js:264-266 | `slice` clamps its bounds: past the end it is empty, within bounds it is the sub-sequence |
| Bytes.JsRem | lib/Communicate.js:455 | `%` truncates toward zero: for a non-negative year it is the remainder, and it is always within (-b, b) |
| Decimal.ParseIntString | drivers/RM3_mini/device.js:84-90 | `parseInt(String(n), 10)` gives back `n` for every integer, so a page offset written as text reads back unchanged |
| Decimal.TagInjective | drivers/RM3_mini/device.js:33-45 | the names `prefix + String(k)` are distinct for distinct `k` |
| Decimal.TagsFit | drivers/RM3_mini/device.js:34-46 | a run of consecutive tagged names held in a set is no longer than the set, so the slot scans end |
| DeviceInfo.TypeCode | lib/DeviceInfo.js:21-35 | every family's number lies in 0..12, and only UNKNOWN is 0 |
| DeviceInfo.DevType2Info | lib/DeviceInfo.js:39-51 | the result echoes the id, is not compatible and has a name; the range 0x7530..0x7918 is SP2 "SPMini2 (OEM)" |
| DeviceInfo.FamilyIff | lib/DeviceInfo.js:53-134 | outside the OEM range, an id is reported as a family exactly when a case of that family names it |
| DeviceInfo.UnknownIff | lib/DeviceInfo.js:136 | an id is UNKNOWN, named "unknown", exactly when neither the range nor any case names it |
| DeviceInfo.Sp3CaseShadowed | lib/DeviceInfo.js:64 | the 0x753e "SP3" case lies inside the OEM range, so no id is ever named "SP3" |
| DeviceInfo.NamedGroups | lib/DeviceInfo.js:59-134 | the Honeywell SP2 ids, the two SP3S ids, the Red Bean 0x5F36 and the RM4 pro ids get their family and name |
| BroadlinkUtils.Nibble | lib/BroadlinkUtils.js:51-54 | each nibble is written as the upper-case hex digit of its value |
| BroadlinkUtils.HexDigit | lib/BroadlinkUtils.js:50-55 | a byte is two upper-case hex digits, high nibble first, whose value is the byte |
| BroadlinkUtils.AsHex | lib/BroadlinkUtils.js:61-73 | a null array throws a TypeError; otherwise the hex digits joined by the separator, "," when none is given |
| BroadlinkUtils.HexTextLength | lib/BroadlinkUtils.js:61-89 | n bytes give 2n characters plus one separator between neighbours (3n - 1 with ",") |
| BroadlinkUtils.ArrToHex | lib/BroadlinkUtils.js:79-89 | null gives ""; otherwise the 2n-character hex text with no separator |
| BroadlinkUtils.HexBytes | lib/BroadlinkUtils.js:101-103 | one byte per two characters, the last chunk possibly one long |
| BroadlinkUtils.HexToArr | lib/BroadlinkUtils.js:96-105 | null gives null; otherwise the bytes of `parseInt` over each two-character chunk |
| BroadlinkUtils.ParseHexDigitPair | lib/BroadlinkUtils.js:102 | `parseInt` of two hex digits (either case) is 16 times the first plus the second |
| BroadlinkUtils.HexRoundTrip | lib/BroadlinkUtils.js:79-105 | `hexToArr(arrToHex(a))` gives back `a` |
| BroadlinkUtils.ConcatTypedArrays | lib/BroadlinkUtils.js:40-48 | a new array holding `a` then `b` |
| BroadlinkUtils.GetDeviceInfo | lib/BroadlinkUtils.js:155-176 | the table entry for the id, compatible exactly when its family is the expected one or the compat debug setting is on |
| Codec.RunningChecksum | lib/Communicate.js:196-202 | the masked running sum from 0xbeaf equals the checksum function |
| Codec.Pad | lib/Communicate.js:190-194 | the payload is kept as a prefix and zero-filled to a multiple of 16; it grows by 1 to 16 bytes, and an empty payload stays empty |
| Codec.PadChecksum | lib/Communicate.js:190-202 | zero padding leaves the payload checksum unchanged |
| Codec.HeaderLayout | lib/Communicate.js:159-187 | the header holds the magic, device type, command, counter, reversed MAC, id and payload checksum at their offsets |
| Codec.HeaderWrites | lib/Communicate.js:159-206 | the source's sequence of byte writes into a zeroed 0x38 array gives the header |
| Codec.NewHeader | lib/Communicate.js:159-206 | a fresh array holding the header |
| Codec.BuildPacket | lib/Communicate.js:208-221 | the packet is the header followed by the ciphertext |
| Codec.PacketChecksumVerifies | lib/Communicate.js:214-221 | with bytes 0x20-0x21 zeroed, the checksum of the packet is the value stored there; the other bytes are the header and the ciphertext |
| Codec.PayloadChecksumInHeader | lib/Communicate.js:196-206 | bytes 0x34-0x35 hold the payload checksum, 0xbeaf for an empty payload |
| Codec.StampChecks | lib/Communicate.js:214-221 | stamping the checksum over zeroed bytes 0x20-0x21 stores the value a receiver recomputes and changes no other byte |
| Codec.PacketLength | lib/Communicate.js:190-212 | with a cipher that keeps whole blocks, the body after the header is a multiple of 16 long |
| Codec.AssemblePacket | lib/Communicate.js:155-221 | `send_packet`'s packet: the header and checksums over the padded payload and its encryption |
| Codec.ParseReply | lib/Communicate.js:260-282 | the error is bytes 0x22-0x23; with error 0 an undecryptable body throws, otherwise `cmd` is the first 4 decrypted bytes and `payload` the rest |
| Codec.ReplyPayloadLength | lib/Communicate.js:264-266 | the payload is the reply less the header and the 4 `cmd` bytes |
| Codec.AuthPayload | lib/Communicate.js:334-358 | the 0x50-byte auth payload: 0x31 at 0x04-0x12, 1 at 0x1e and 0x2d, "Test  1" at 0x30 |
| Codec.AuthKeyAsWritten | lib/Communicate.js:361-373 | no payload throws decrypt_payload; a payload is accepted exactly when it has 16 bytes or more (key: its first 16) or none (key: empty), with `cmd` as the id; any other length throws decrypt_keylength |
| Codec.AuthAcceptsEmptyKey | lib/Communicate.js:366-370 | an empty reply payload passes the key-length check with an empty key |
| Codec.AuthKey | lib/Communicate.js:361-373 | a payload shorter than 16 bytes is refused; one of 16 bytes or more is accepted with its first 16 bytes as the key and `cmd` as the id |
| Codec.AuthKeyAgrees | lib/Communicate.js:361-373 | for every non-empty payload the corrected check decides as the source does |
| Codec.IsoWeekday | lib/Communicate.js:396-400 | Sunday (0) becomes 7, other days are unchanged |
| Codec.TimezoneBytesAsWritten | lib/Communicate.js:440-450 | the four timezone bytes of the discovery packet |
| Codec.TimezoneAsWrittenOffByTwo | lib/Communicate.js:440-444 | for a negative timezone the bytes read back, as a signed little-endian word, two hours lower |
| Codec.TimezoneBytes | lib/Communicate.js:440-450 | the two's-complement timezone, equal to the source's for non-negative zones |
| Codec.TimezoneRoundTrip | lib/Communicate.js:440-450 | the corrected bytes read back as the timezone |
| Codec.DiscoveryPacket | lib/Communicate.js:431-477 | a 0x30-byte discovery packet |
| Codec.DiscoveryLayout | lib/Communicate.js:440-477 | the timezone bytes as written (a zone of 0 or more reads back as itself, a negative one two hours lower), year, minutes, hours, year % 100, weekday, date, month, local address, port 44488, command 6, zeros elsewhere and a checksum that verifies |
| Codec.DiscoveryBodyFields | lib/Communicate.js:440-470 | the unstamped body holds the timezone bytes, year, minutes, hours, year % 100, weekday, date, month, local address, port and command, with zeros in the checksum and every unwritten byte |
| Codec.DiscoveryWrites | lib/Communicate.js:431-465 | the source's sequence of writes into a zeroed array gives the discovery body |
| Codec.NewDiscoveryBody | lib/Communicate.js:431-465 | a fresh array holding the discovery body |
| Codec.BuildDiscoveryPacket | lib/Communicate.js:431-477 | the discovery packet with its timezone bytes as written and its checksum |
| Codec.ParseDiscoveryReply | lib/Communicate.js:480-484 | the MAC is bytes 0x3a-0x3f and the device type the little-endian word at 0x34 |
| Codec.Payload16 | lib/Communicate.js:496-507 | a 16-byte payload starting with the given bytes, zero elsewhere |
| Codec.CheckIr | lib/Communicate.js:559-573 | the IR probe is [0,0,4,…] for device type 0x5f36 and [4,0,0,…] otherwise |
| Codec.SetPowerState | lib/Communicate.js:914-919 | 16 bytes with 2 at 0 and the state byte at 4 |
| Codec.Sp1SetPower | lib/Communicate.js:990-995 | 4 bytes: 1 or 0 for the mode, then 4, 4, 4 |
| Codec.DooyaSetState | lib/Communicate.js:1007-1014 | 16 bytes with the two commands at 3 and 4 and 0xfa, 0x44 at 9 and 10 |
| Codec.Mp1SetPower | lib/Communicate.js:958-975 | a 16-byte MP1 power payload |
| Codec.Mp1Sockets | lib/Communicate.js:962-975 | socket 1..4 sets the mask bit 1, 2, 4 or 8 at 0x0d, the mask at 0x0e only when on, and 0xb2 plus the mask, doubled when on, at 6 |
| Codec.Mp1SocketsDistinct | lib/Communicate.js:962-974 | different sockets have different masks |
| Codec.Mp1Bytes | lib/Communicate.js:962-975 | for sockets 1..4, byte 0x0d holds the mask, 0x0e the mask or 0, and 6 the mask added once or twice to 0xb2, none wrapping |
| Codec.SendPrefix | lib/Communicate.js:841-894 | the general and red prefixes are 4 bytes, the mini-red and RM4 pro prefixes 6 |
| Codec.SendPayload | lib/Communicate.js:841-894 | the payload is the prefix followed by the learned code |
| Codec.SendPrefixes | lib/Communicate.js:841-894 | 0xda leads for the RM4 pro, 0xd0 for the red variants and for type 0x5f36, 2 otherwise |
| Codec.CheckRf2Rm4 | lib/Communicate.js:740-742 | frequency bytes longer than 4 overflow the 10-byte payload and throw a RangeError; otherwise [4,0,0x1b] with the bytes at 6 |
| Communicate.Configured | lib/Communicate.js:38-72 | configuring leaves the network script and the sent log alone |
| Communicate.ConfiguredSession | lib/Communicate.js:38-72 | the key is the given one only when 16 long, else the default; the fixed IV; broadcast without an address |
| Communicate.SendPacketEffect | lib/Communicate.js:155-290 | the counter steps modulo 65536; the packet goes out once, or twice after a timeout; no answer gives error -1; only an undecryptable reply throws |
| Communicate.SendPacketBasics | lib/Communicate.js:155-239 | one or two datagrams, the counter stepped, the session otherwise unchanged |
| Communicate.SentPacketLayout | lib/Communicate.js:158-221 | the datagram sent carries the magic, the new counter, the command and both checksums |
| Communicate.Expect0 | lib/Communicate.js:903-907 | success exactly when the reply has error 0; a non-zero error throws invalid_response |
| Communicate.AuthKeepsValid | lib/Communicate.js:360-373 | on success the session key and id are those returned, and the session is valid exactly when the key has 16 bytes; on failure they are unchanged and the session stays valid |
| Communicate.AuthStoresEmptyKey | lib/Communicate.js:366-373 | a reply with an empty decrypted payload succeeds and leaves the session with the empty key, no longer valid |
| Communicate.AuthStoresFullKey | lib/Communicate.js:366-373 | a reply payload of 16 bytes or more gives its first 16 bytes as the key and a valid session |
| Communicate.DiscoverEffect | lib/Communicate.js:413-487 | no local address throws before sending; otherwise one 0x30-byte datagram, the discovery packet with the timezone bytes as written, to the device or broadcast address |
| Communicate.ProbesEffect | lib/Communicate.js:513-556 | the poller sends one probe per round until a reply has error 0, a send throws, or the repeat count reaches 0 ("tried long enough") |
| Communicate.CheckDataBound | lib/Communicate.js:513-556 | `_check_data` sends between 1 and 16 datagrams, 8 rounds before giving up |
| Communicate.TempHumidityRun | lib/Communicate.js:603-622 | the temperature and humidity are two reply bytes each |
| Communicate.RfRoundsBound | lib/Communicate.js:644-714 | the RF poll stops at the first reply whose flag byte is 1 or after the retry budget |
| Communicate.RfPollers | lib/Communicate.js:639-734 | `checkRFData` succeeds exactly when byte 0 is 1 within 3 rounds, `checkRFData_rm4pro` when byte 2 is 1 within 10, returning bytes 3-6 |
| Communicate.Rf2Probe | lib/Communicate.js:750 | the second probe rewrites the first three bytes to 4, 0, 4 and keeps the rest |
| Communicate.Rf2RoundsBound | lib/Communicate.js:744-768 | at most 10 rounds; no_rf_data only after all of them |
| Communicate.CheckRf2Rm4Bound | lib/Communicate.js:737-768 | too long a frequency throws RangeError before sending; otherwise 1 to 10 rounds |
| Communicate.Mp1SetPowerRun | lib/Communicate.js:977-984 | every failure becomes invalid_response |
| Communicate.CheckedCommands | lib/Communicate.js:898-1023 | read_status, mp1_check_power, mp1_set_power_state and dooya_set_state succeed exactly when the reply has error 0 (dooya also needs a payload byte) |
| Communicate.Communicate.constructor | lib/Communicate.js:26 | a session with no configuration over the given cipher and network |
| Communicate.Communicate.Configure | lib/Communicate.js:38-72 | the fields become the configured session |
| Communicate.Communicate.SetIPaddress | lib/Communicate.js:77-80 | only the address changes |
| Communicate.Communicate.SendTo | lib/Communicate.js:99-149 | one datagram logged and the next delivery of the script taken |
| Communicate.Communicate.SendPacket | lib/Communicate.js:155-290 | the reply and new session are those of the send run |
| Communicate.Communicate.Auth | lib/Communicate.js:333-391 | as the auth run |
| Communicate.Communicate.Discover | lib/Communicate.js:413-487 | as the discovery run |
| Communicate.Communicate.CheckData | lib/Communicate.js:513-556 | the polling loop equals the poller run |
| Communicate.Communicate.CheckIRData | lib/Communicate.js:559-573 | polls with the probe for the device type |
| Communicate.Communicate.CheckIRDataRed | lib/Communicate.js:575-589 | polls with [4,0,4] and drops the first two bytes |
| Communicate.Communicate.CheckIRDataRm4Mini | lib/Communicate.js:591-598 | polls with [4,0,4] |
| Communicate.Communicate.CheckTempHumidityRm4Pro | lib/Communicate.js:603-622 | polls with 0x24 at byte 2 and returns bytes 2-5 |
| Communicate.Communicate.PollRf | lib/Communicate.js:644-714 | the do-while RF loop equals the round function |
| Communicate.Communicate.CheckRFData | lib/Communicate.js:639-659 | as the `checkRFData` run |
| Communicate.Communicate.CheckRFDataRm4Pro | lib/Communicate.js:698-734 | as the `checkRFData_rm4pro` run |
| Communicate.Communicate.CheckRFData2 | lib/Communicate.js:664-669 | polls with 0x1b |
| Communicate.Communicate.Rf2Payload | lib/Communicate.js:740-742 | the 10-byte payload, or no payload when the frequency does not fit |
| Communicate.Communicate.CheckRFData2Rm4Pro | lib/Communicate.js:737-769 | as the `checkRFData2_rm4pro` run |
| Communicate.Communicate.PollRf2 | lib/Communicate.js:744-768 | the retry loop over the second RF check equals ten rounds of its run function |
| Communicate.Communicate.EnterLearning | lib/Communicate.js:494-499 | sends [3] |
| Communicate.Communicate.EnterLearningRed | lib/Communicate.js:501-508 | sends [4,0,3] |
| Communicate.Communicate.EnterRFSweep | lib/Communicate.js:628-634 | sends [0x19] |
| Communicate.Communicate.CancelRFSweep | lib/Communicate.js:674-679 | sends [0x1e] |
| Communicate.Communicate.EnterRFSweepRm4Pro | lib/Communicate.js:684-693 | sends [4,0,0x19] |
| Communicate.Communicate.CancelRFSweepRm4Pro | lib/Communicate.js:828-835 | sends [4,0,0x1e] |
| Communicate.Communicate.SendIRRFData | lib/Communicate.js:841-894 | sends the variant's prefix and the code |
| Communicate.Communicate.ReadStatus | lib/Communicate.js:898-908 | the payload of a reply with error 0, else invalid_response |
| Communicate.Communicate.SetPowerState | lib/Communicate.js:914-919 | sends the state byte |
| Communicate.Communicate.Sp2GetEnergy | lib/Communicate.js:924-931 | the energy payload of a reply with error 0, else invalid_response |
| Communicate.Communicate.Mp1CheckPower | lib/Communicate.js:936-952 | byte 0x0a of a reply with error 0 |
| Communicate.Communicate.Mp1SetPowerState | lib/Communicate.js:958-985 | as the MP1 set-power run |
| Communicate.Communicate.Sp1SetPowerState | lib/Communicate.js:990-1002 | sends under command 0x66 and drops any error |
| Communicate.Communicate.DooyaSetState | lib/Communicate.js:1007-1023 | the first payload byte of a reply with error 0 |
| RcCommands.Get | drivers/RM3_mini/device.js:354-355 | `setting || ""` is a truthy value or "" |
| RcCommands.Names | drivers/RM3_mini/device.js:67 | the command names in store order |
| RcCommands.Find | drivers/RM3_mini/device.js:361 | the index of the first command with the name, -1 exactly when there is none |
| RcCommands.RenameKeepsDistinct | drivers/RM3_mini/device.js:366 | renaming to an unused name keeps names distinct and moves the name in place |
| RcCommands.DeleteKeepsDistinct | drivers/RM3_mini/device.js:380 | deleting removes the name and one entry and keeps every other command |
| RcCommands.AddKeepsDistinct | drivers/RM3_mini/device.js:252 | adding an unused name keeps names distinct and the code is found under it |
| RcCommands.RunBound | drivers/RM3_mini/device.js:33-45 | a run of present slots is no longer than the settings |
| RcCommands.RunLength | drivers/RM3_mini/device.js:33-45 | the scan stops at the first absent `RcCmdN` |
| RcCommands.FirstFree | drivers/RM3_mini/device.js:34-43 | the first present slot with an empty value, and none before it is empty |
| RcCommands.WithNameEffect | drivers/RM3_mini/device.js:29-47 | the name goes into the first empty slot and nothing else changes; with no empty slot the settings are unchanged |
| RcCommands.SlotFillEffect | drivers/RM3_mini/device.js:68-74 | every present slot gets `names[offset + k]` or "" and other keys keep their value |
| RcCommands.PageKeysAreNotSlots | drivers/RM3_mini/device.js:66 | the five page keys are never slot names |
| RcCommands.FillPageLayout | drivers/RM3_mini/device.js:53-80 | the page keys, the label by offset band, the slot names of the page and every other setting unchanged |
| RcCommands.CurrentOffsetReads | drivers/RM3_mini/device.js:84-90 | the offset read after a fill is the one filled; with no page text the numeric offset is used |
| RcCommands.FreeBound | drivers/RM3_mini/device.js:288-290 | a run of used `cmdN` names is no longer than the list |
| RcCommands.FreeFrom | drivers/RM3_mini/device.js:287-291 | the first index from the start whose tag is unused, with every tag before it used |
| RcCommands.LearnedNameFresh | drivers/RM3_mini/device.js:251-252 | `getNextCmdName` is unused, so adding the code keeps names distinct and finds it |
| RcCommands.LearnKeepsPage | drivers/RM3_mini/device.js:254-257 | storing and refilling after learning keeps the page offset and writes the backup |
| RcCommands.OffsetOnly | drivers/RM3_mini/device.js:340-347 | when only the page keys changed, nothing changes but a refresh at the new offset |
| RcCommands.KeyStepRules | drivers/RM3_mini/device.js:354-390 | two names: existing target throws, else rename; new name without old throws; old without new deletes; the IP address is forwarded |
| RcCommands.KeyStepKeepsDistinct | drivers/RM3_mini/device.js:359-385 | one key's edit keeps the names distinct |
| RcCommands.KeysRunKeepsDistinct | drivers/RM3_mini/device.js:349-414 | the loop over changed keys keeps the names distinct |
| RcCommands.OnSettingsKeepsDistinct | drivers/RM3_mini/device.js:303-422 | `onSettings` keeps the names distinct |
| RcCommands.RestoreRules | drivers/RM3_mini/device.js:307-338 | a restore of non-text throws, of unparsable text fails, and of a list replaces the store and refreshes |
| RcCommands.RcDevice.constructor | drivers/RM3_mini/device.js:158-194 | a device with its settings and store and learning off |
| RcCommands.RcDevice.StoreCmdSetting | drivers/RM3_mini/device.js:29-47 | the scan loop writes the name into the first empty slot |
| RcCommands.RcDevice.FillRcCmdPage | drivers/RM3_mini/device.js:53-80 | the loop builds the page update |
| RcCommands.RcDevice.UpdateSettings | drivers/RM3_mini/device.js:82-86 | fills the page at the current offset |
| RcCommands.RcDevice.GetNextCmdName | drivers/RM3_mini/device.js:285-292 | the first unused `cmdN` from 1, never a stored name |
| RcCommands.RcDevice.OnAutoComplete | drivers/RM3_mini/device.js:136-146 | the names newest first |
| RcCommands.RcDevice.LearnIR | drivers/RM3_mini/device.js:200-283 | off stops learning; a second start is refused; otherwise the capture, then the code stored under a fresh name and the page refilled |
| RcCommands.RcDevice.CaptureIr | drivers/RM3_mini/device.js:231-246 | `enter_learning` (red or not), then the IR poll, equal to the capture run; an error in either ends it |
| RcCommands.RcDevice.StoreLearned | drivers/RM3_mini/device.js:250-258 | the code appended under the next free `cmdN`, its slot set, the page at the current offset redrawn, learning untouched |
| RcCommands.RcDevice.ChangeKey | drivers/RM3_mini/device.js:350-413 | one key's edit as the key rules say |
| RcCommands.RcDevice.ApplyKeys | drivers/RM3_mini/device.js:349-414 | the loop over the changed keys applies each key's edit in order and leaves the settings and the learning flag alone |
| RcCommands.RcDevice.ApplyChanges | drivers/RM3_mini/device.js:340-419 | an offset-only change refills the page; otherwise the key edits, as the run function says |
| RcCommands.RcDevice.OnSettings | drivers/RM3_mini/device.js:303-422 | the settings handler equals its run function |
| Rm3Mini.ExecuteVariant | drivers/RM3_mini/device.js:107-114 | the Red Bean uses the six-byte prefix, other devices the general one |
| Rm3Mini.ExecutePayload | drivers/RM3_mini/device.js:107-114 | the bytes sent: [0xd0,0,2,0,0,0], [0xd0,0,2,0] or [2,0,0,0], then the code |
| Rm3Mini.ExecuteCommand | drivers/RM3_mini/device.js:98-129 | always true; a missing name sends nothing; triggers fire only when the send did not throw |
| Rm3Mini.LearnIR | drivers/RM3_mini/device.js:200-283 | learning with the red commands exactly for the Red Bean |
| Rm4Pro.ExecuteCommand | drivers/RM4_pro/device.js:98-120 | sends [0xda,0,2,0,0,0] and the code; always true |
| Rm4Pro.LearnIR | drivers/RM4_pro/device.js:235-298 | learning always with the red commands |
| Rm4Pro.RfCmdNameCollides | drivers/RM4_pro/device.js:495-497 | after learning two RF codes and deleting the first, the next name is the one still stored |
| Rm4Pro.RfCmdNameFresh | drivers/RM4_pro/device.js:495-497 | the corrected RF name is unused, and equals the source's whenever that is unused |
| Rm4Pro.RfCmdNameAsWrittenDistinct | drivers/RM4_pro/device.js:495-497 | storing under `rf-cmd` + (count + 1) keeps the names distinct exactly when that name is not stored yet |
| Rm4Pro.RfLearningOnlyFresh | drivers/RM4_pro/device.js:495-497 | a store holding only `rf-cmd1` .. `rf-cmdN` in order never already holds the next name as written |
| Rm4Pro.OnCapabilityLearnRF | drivers/RM4_pro/device.js:449-458 | always true, learning on, and the job starts only when learning was off |
| Rm4Pro.StopRfLearning | drivers/RM4_pro/device.js:436-447 | sends the cancel and turns learning off |
| Rm4Pro.CaptureRf | drivers/RM4_pro/device.js:463-492 | the sweep, the frequency poll and the capture as IR or as RF, equal to the capture run |
| Rm4Pro.LearnRfJob | drivers/RM4_pro/device.js:458-520 | sweep, frequency, capture (as IR for 0x279d and 0x27a9), the code stored on success under `rf-cmd` + (count + 1) and shown in the first free slot, then always the cancel |
| Sp2.StatusBits | drivers/SP2/device.js:59-63 | power is bit 0 and the night light bit 1 of a status byte below 4; larger bytes show both off |
| Sp2.PowerRead | drivers/SP2/device.js:164-173 | `check_power` is false when the read throws, else byte 0 is 1 or 3 |
| Sp2.NightlightRead | drivers/SP2/device.js:136-144 | `check_nightlight` is false when the read throws, else byte 0 is 2 or 3 |
| Sp2.PowerLevel | drivers/SP2/device.js:180-186 | `adjust_power` writes (state?1:0) + (nightlight?2:0) |
| Sp2.NightlightLevel | drivers/SP2/device.js:150-156 | `adjust_nightlight` writes (power?1:0) + (state?2:0) |
| Sp2.PowerLevelRoundTrip | drivers/SP2/device.js:178-189 | the written level decodes to power = state with the night light unchanged |
| Sp2.NightlightLevelRoundTrip | drivers/SP2/device.js:149-159 | the written level decodes to night light = state with the power unchanged |
| Sp2.Triggers | drivers/SP2/device.js:26-48 | nothing when the mode equals the shown value; otherwise the toggle and exactly one of on/off |
| Sp2.IntervalReport | drivers/SP2/device.js:57-68 | a read that throws changes nothing; otherwise both switches show what the byte says |
| Sp2.IntervalFires | drivers/SP2/device.js:59-65 | a switch's toggle fires exactly when the value read differs from the one shown |
| Sp2.IntervalSettles | drivers/SP2/device.js:57-65 | a second poll of the same status fires nothing |
| Sp2.AdjustRun | drivers/SP2/device.js:149-189 | an adjustment that does not throw returns true |
| Sp2.AdjustWrites | drivers/SP2/device.js:149-189 | the written status shows the adjusted switch at the state and the other as it was read |
| Sp2.CheckSwitch | drivers/SP2/device.js:136-173 | one status read, off when it throws |
| Sp2.Adjust | drivers/SP2/device.js:149-189 | the read-then-write equals the adjustment run |
| Sp2.DoAction | drivers/SP2/device.js:194-245 | triggers against the value shown before, the capability then shows the mode, the adjustment's error dropped |
| Sp2.OnCheckInterval | drivers/SP2/device.js:50-69 | the energy read, then the status read and its report |
| A1.FourLevels | drivers/A1/device.js:190-208 | the air quality and the light byte 0..3 are levels 1..4; a missing or larger byte is 11 |
| A1.NoiseLevel | drivers/A1/device.js:214-219 | byte 0..2 is level 1..3; otherwise 11 |
| A1.LevelNamesDistinct | drivers/A1/device.js:27-46 | within a sensor the level names tell the levels apart |
| A1.Writes | drivers/A1/device.js:197-223 | a sensor's capabilities are written exactly when its level is not 11, with its name and number |
| A1.Fires | drivers/A1/device.js:229-231 | a sensor's trigger fires exactly when its level changed, carrying the new name |
| A1.FiresParts | drivers/A1/device.js:229-231 | the three optional triggers, concatenated, name exactly the changed sensors, each with its new level's name |
| A1.PollSettles | drivers/A1/device.js:184-231 | a second poll of the same status fires nothing |
| A1.ListsMatchConditions | drivers/A1/device.js:66-168 | each list offers, in order, exactly the known levels for which its condition can hold at some known level |
| A1.UnknownConditions | drivers/A1/device.js:89-168 | while a level is 11, every offered "worse", "brighter" or "louder" value holds and no opposite one does |
| A1.A1Device.constructor | drivers/A1/device.js:55-57 | all three levels start at 11 |
| A1.A1Device.OnCheckInterval | drivers/A1/device.js:174-237 | a read that throws changes no level; otherwise the levels of bytes 6, 4 and 8, their writes and the triggers of the changed ones |
| A1.A1Device.Check | drivers/A1/device.js:89-168 | each condition compares the chosen value with the current level in its own direction |

## Left out

- UDP transport (`sendto` sockets, the 20-second timeout, the 5-second retry sleep, `destroy`): a script of deliveries stands in for the network.
- AES-128-CBC: an abstract cipher. A body that is not a whole number of blocks throws, as Node does with auto-padding off.
- The unused `version` argument of `send_packet` is dropped.
- Time: the 2-second spacing of `_check_data` probes, the 300 ms learning debounce, `setImmediate`, and the 2-second wait in RF learning are not modelled. Probes run one after another.
- Deferred refreshes: `setTimeout` page refreshes in `onSettings` are returned as `Refresh` effects. The `Authenticate` branch is returned as a `Reauthenticate` effect. Its configure with a random counter and `authenticateDevice` are not modelled.
- Floating point: the A1 temperature and humidity, the RM4 pro `pollTempHumidity` values, the `/1000.0` RF frequency and the SP2 energy are left out. The SP2 `get_energy` result is floating point, and its `slice(0x07, 0x04)` is always empty.
- The command store: `lib/DataStore.js` is not part of this model. The store is a list of named codes with first-match rename and delete. A missing name's code makes the send throw before anything is sent.
- Restore and backup: JSON parsing of `RcCmdRestore` and the backup JSON are parameters of the model.
- Host state: capability values, warnings, speech output, flow-card registration and logging are left out. Exceptions are the SP2 switch values and triggers and the A1 writes and triggers, which are returned.
- Lifecycle: `onInit` and `onDeleted` of the RM drivers (DataStore loading, device registration, polling timers) are left out. So is the A1 `onSettings` (an IP update, a timer restart and a re-authentication) and `onCapabilityUpdateSensor`.
- `check_condition_specific_cmd_sent` and the SP2 `check_condition_*` functions are left out. The first is a name comparison; the others call `check_power`/`check_nightlight` (`Sp2.CheckSwitch`).
- Rm4Pro.OnCapabilityLearnRF: the `onoff` argument is unused by the source and not modelled.
- Rm4Pro.LearnsRfAsIr: the loose comparison `type == 0x279d` on the device-type text is modelled by decimal parsing. JavaScript's `Number` conversion differs on text with trailing junk.
- `Blank`, `SkipSpace`: only ASCII white space is recognised, not every Unicode space.
- Communicate.DiscoverRun: the local address is taken as four already-parsed numbers, and timezones are whole hours.
- BroadlinkUtils.ConcatTypedArrays: both arguments are arrays. The `null`/`undefined` case, which the source logs before it fails with a TypeError, is not modelled.
- The `if (data)` test after an IR capture is always true for the typed array the capture returns, so it is not modelled.
- Sp2.DoAction: `set_nightlight` does not await `adjust_nightlight`, so a failure there escapes its `catch`. The model drops the error for both switches.
- The commented-out second `checkRFData2_rm4pro` in `lib/Communicate.js` is not part of the program and is not modelled.
- `mp1_set_power_state`: `sid` is taken as an integer. The source's `sid !== Number` test is always true.
- `getHomeyIp`, `epochToTimeFormatter` and `debugLog` are host calls and logging.

## Findings

| source | as written | input that shows it | evidently intended | confidence | as-written member | corrected member |
|---|---|---|---|---|---|---|
| lib/Communicate.js:440-444 | a negative timezone is stored as `0xff + timezone - 1` in byte 0x08 with 0xff above | timezone -1 gives bytes fd ff ff ff, which read as -3 | the two's-complement word, ff ff ff ff for -1 | medium, not executed | Codec.TimezoneAsWrittenOffByTwo | Codec.TimezoneRoundTrip |
| lib/Communicate.js:366-370 | the key is accepted when its length is a multiple of 16, and 0 is one | a reply whose decrypted payload is empty gives key [] and id [] | refuse a key shorter than 16 bytes | medium, not executed | Codec.AuthAcceptsEmptyKey | Codec.AuthKey |
| drivers/RM4_pro/device.js:495-497 | a learned RF code is named `rf-cmd` + (number of stored commands + 1) | learn rf-cmd1 and rf-cmd2, delete rf-cmd1, learn again: the new name is rf-cmd2, already stored | the first unused `rf-cmdN`, as `getNextCmdName` does for IR | high, not executed | Rm4Pro.RfCmdNameCollides | Rm4Pro.RfCmdNameFresh |
