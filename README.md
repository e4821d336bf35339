# DMR master core, modelled in Dafny

This project models the protocol core of a small Homebrew/MMDVM DMR master.
The master is a UDP server that repeaters ("peers") log in to. It authenticates them
by salted SHA-256, keeps their sessions alive, and relays their voice and data
frames to each other. It also tracks calls and answers snapshot queries for a dashboard.

Modelled:

- **Packet codec** (`Fields`, `Enums`, `MmdvmL1`, `DmrdBits`, `Factory`, `LegacyProto`).
  - Fixed-offset byte fields over a mutable `array<byte>` buffer.
  - Every MMDVM L1 packet kind: login, salt, auth, config, ack, nak, ping, pong,
    close, DMRD voice/data, talker alias and beacon.
  - Signature recognition and length checks.
  - The packed DMRD flags byte (slot, call type, frame type, voice sequence).
  - The packet factories, including those of the older codec.
- **ETSI L2** (`EtsiL2`): the 33-byte DMR burst as 264 bits, and the slices taken
  from it:
  - the 98 + 98 bits of a full LC;
  - the two 108-bit voice halves;
  - the 32 embedded-LC bits.
- **Embedded LC and call LC decoding** (`EmbLc`, `LcDecoder`).
  - Assembling the embedded link-control fragments of a voice superframe.
  - Collecting the call's LCs by FLCO.
  - Looking up its call and location LCs.
  - Its talker alias text, with the character decoding as a parameter.
- **Number text** (`Text`): decimal and upper-case hexadecimal text of naturals, used
  for peer names and hex-dump offsets.
- **Peers** (`Peers`).
  - The peer status set and its "applicable" relation.
  - The peer record with its unit map and timeouts.
  - The peer registry: lookup by address (creating on a miss), by id, by unit,
    the active set, and the maintenance sweep.
- **Authentication policies** (`Auth`): allow-all, deny-all and the password list.
- **Peer controller** (`PeerControl`): the per-packet session state machine.
  - Close, data, ping, login, auth and config.
  - The close/salt/ack/pong replies it sends, collected in an `Outbox`.
- **Calls** (`Calls`): the call record (duration, dead and clean-up tests, end)
  and the call keeper (lookup by stream id, add, and the sweep that ends dead
  calls and prunes ended ones from the live set and the log).
- **Dispatcher** (`Dispatch`).
  - Receiving a datagram.
  - Dispatching data and talker-alias packets.
  - Fan-out to peers, skipping the sender's own address.
  - Packet injection by apps.
  - The periodic maintenance.
- **Parrot app** (`Parrot`): recording unit calls and group calls addressed to the
  parrot id, each kind only when enabled, and replaying the recording as a new
  stream. A unit call's answer is addressed from the parrot back to the caller. A
  group call's answer keeps its addressing and is fanned out to every ACTIVE peer.
- **API snapshots** (`Api`): the peer list and the call log (newest first, at
  most `CALLS_MAX`).
- **Hex dump** (`HexDump`): the diagnostic dump, a fixed number of bytes per line.
  The source defaults that width to 16; the model takes it as a parameter.

Wall-clock time is an integer parameter `now`. SHA-256 and the random salt are
parameters too. Each operation that changes state is a
method on a class. Its `ensures` ties the new state to a pure step function, and
the lemmas beside it prove what the step does.

### Behaviour of the code worth knowing

The code behaves as follows, and the model follows it:

- **Peer statuses.** A peer is LOGIN, AUTH, CONFIG, ACTIVE or DEAD. There is no
  TIMEOUT state: a peer silent for `PING_TIMEOUT` seconds is marked DEAD and
  removed in the same sweep.
- **Call identity.** The call id is the frame's stream id from the wire. The
  keeper does not assign it.
- **No collision rejection.** Nothing enforces one active call per timeslot. A
  frame whose stream id is unknown always opens a new call.
- **Group and broadcast routing.** Frames go to every ACTIVE peer except the
  sender's address, not to subscribed peers. A unit call is routed to every peer
  that has recently heard the destination unit, which may be more than one.
- **Refused handshake.** A failed login or auth kills the session and answers
  with a close (`MSTCL`), not a NAK.

## Model

| member | source | states |
|---|---|---|
| Fields.Get | dmrtools/dmrproto/base_fields.py:13-14 | the result has the field's length and byte i is buffer byte offset + i |
| Fields.Splice | dmrtools/dmrproto/base_fields.py:19 | the buffer keeps its length, the window reads back the new value and every byte outside the window is unchanged |
| Fields.Write | dmrtools/dmrproto/base_fields.py:16-19 | a value of the wrong length fails with FieldOutOfRange and leaves the array untouched; otherwise exactly the field's window of the array is overwritten |
| Fields.FromBigEndian | dmrtools/dmrproto/base_fields.py:63 | the value of n big-endian bytes is below 256^n |
| Fields.ToBigEndian | dmrtools/dmrproto/base_fields.py:68 | n bytes whose big-endian value is v |
| Fields.BigEndianInjective | dmrtools/dmrproto/base_fields.py:63 | two byte strings of equal length with the same big-endian value are equal |
| Fields.BigEndianRoundTrip | dmrtools/dmrproto/base_fields.py:62-68 | encoding the value of any n-byte string to n bytes gives that string back |
| Fields.GetInt | dmrtools/dmrproto/base_fields.py:62-63 | an int field reads as a value in the field's range 0 .. 256^bytelen - 1 |
| Fields.EncodeInt | dmrtools/dmrproto/base_fields.py:65-68 | succeeds exactly for 0 <= v < 256^bytelen, fails with FieldOutOfRange otherwise, and the bytes have the field's length and decode to v |
| Fields.SetInt | dmrtools/dmrproto/base_fields.py:65-68 | out-of-range values fail with FieldOutOfRange; otherwise the field reads back v and no byte outside it changes |
| Fields.GetOutsideWindow | dmrtools/dmrproto/base_fields.py:13-19 | a field clear of the written window reads the same bytes and integer afterwards |
| Fields.SetIntOverwrites | dmrtools/dmrproto/base_fields.py:65-68 | setting an int field gives the same buffer whatever the field held before |
| Fields.SetIntSameValue | dmrtools/dmrproto/base_fields.py:62-68 | writing back the value an int field holds leaves the buffer unchanged |
| Fields.Utf8Char | dmrtools/dmrproto/base_fields.py:50 | one to four bytes, a single byte exactly for code points below 0x80, and then the code point itself |
| Fields.Utf8 | dmrtools/dmrproto/base_fields.py:50 | the encoding is at least as long as the string |
| Fields.Utf8OfAscii | dmrtools/dmrproto/base_fields.py:50 | an ASCII string encodes to its own code points, one byte each |
| Fields.Utf8CharDecodes | dmrtools/dmrproto/base_fields.py:50 | a character's encoding announces its length in its lead byte and spells its code point back |
| Fields.Utf8FourDecodes | dmrtools/dmrproto/base_fields.py:50 | the same for code points above 0xFFFF, whose four-byte form keeps all 21 bits |
| Fields.Utf8Injective | dmrtools/dmrproto/base_fields.py:50 | two strings with the same encoding are the same string |
| Fields.FitTo | dmrtools/dmrproto/base_fields.py:51-53 | exactly n bytes: byte i is the input's byte i where there is one, the pad byte after that |
| Fields.EncodeStr | dmrtools/dmrproto/base_fields.py:49-53 | the bytes written for a string have exactly the field's length |
| Fields.SetStr | dmrtools/dmrproto/base_fields.py:49-54 | writing a string never fails; the field holds the encoded, cut and padded value and nothing else changes |
| Fields.StripLeft | dmrtools/dmrproto/base_fields.py:46 | a suffix of the input that starts with neither space nor NUL, and every dropped byte is a space or NUL |
| Fields.StripRight | dmrtools/dmrproto/base_fields.py:46 | a prefix of the input that ends with neither space nor NUL, and every dropped byte is a space or NUL |
| Fields.AsciiIgnore | dmrtools/dmrproto/base_fields.py:47 | the decoded text is no longer than the bytes and is pure ASCII |
| Fields.AsciiIgnoreAppend | dmrtools/dmrproto/base_fields.py:47 | decoding goes byte by byte: a byte below 0x80 adds its own character after the decoded prefix, and any other byte is dropped |
| Fields.AsciiIgnoreOfAscii | dmrtools/dmrproto/base_fields.py:47 | decoding the code points of an ASCII string gives the string back |
| Fields.StripFitTo | dmrtools/dmrproto/base_fields.py:46-53 | padding an already stripped byte string with spaces or NULs and stripping it again gives it back |
| Fields.StrRoundTrip | dmrtools/dmrproto/base_fields.py:45-54 | reading a string field after writing an ASCII string that fits and has no leading or trailing space or NUL gives the string back |
| Enums.Value | dmrtools/dmrproto/enums.py:9-18 | every VoiceType value fits in the six bits the codec masks with 0x3F |
| Enums.FromValue | dmrtools/dmrproto/enums.py:20-25 | a value that some member has gives that member; any other value gives NONE |
| Enums.ValueInjective | dmrtools/dmrproto/enums.py:9-18 | no two VoiceType members share a value |
| Enums.FromValueOfValue | dmrtools/dmrproto/enums.py:20-25 | from_value(m.value) is m for every member |
| EtsiL2.BitsOf | dmrtools/dmrproto/etsi_l2.py:24 | a byte expands to eight bits |
| EtsiL2.ByteOfBitsOf | dmrtools/dmrproto/etsi_l2.py:24-27 | regrouping the eight bits of a byte, most significant first, gives the byte back |
| EtsiL2.BytesToBits | dmrtools/dmrproto/etsi_l2.py:24 | n bytes expand to 8n bits |
| EtsiL2.BitsToBytes | dmrtools/dmrproto/etsi_l2.py:27 | n bits pack into ceil(n / 8) bytes |
| EtsiL2.BytesToBitsAt | dmrtools/dmrproto/etsi_l2.py:24 | bit 8i + j of the expansion is bit j of byte i, most significant first |
| EtsiL2.BitsToBytesAt | dmrtools/dmrproto/etsi_l2.py:27 | byte k of a whole number of bytes is the byte spelled by bits 8k .. 8k + 7 |
| EtsiL2.ChunkIsBitsOf | dmrtools/dmrproto/etsi_l2.py:24 | the k-th eight bits of the expansion are the bits of byte k |
| EtsiL2.BitsRoundTrip | dmrtools/dmrproto/etsi_l2.py:24-27 | packing the bit expansion of any byte string gives the byte string back |
| EtsiL2.SetDataAsWritten | dmrtools/dmrproto/etsi_l2.py:17-24 | as written: a view of the requested kind holding 8n bits for any n bytes, with no length check |
| EtsiL2.SetDataAcceptsShortBurst | dmrtools/dmrproto/etsi_l2.py:20-22 | a 32-byte burst gets through set_data as written and is returned by get_data as 32 bytes |
| EtsiL2.SetData | dmrtools/dmrproto/etsi_l2.py:20-24 | as intended: succeeds exactly for 33 bytes, fails with DMRPL2BadDataException otherwise, and then holds 264 bits |
| EtsiL2.GetDataOfSetData | dmrtools/dmrproto/etsi_l2.py:17-27 | get_data returns exactly the bytes the view was built from |
| EtsiL2.GetDataType | dmrtools/dmrproto/etsi_l2.py:30-44 | never UNKNOWN; FULL_LC exactly for the full-LC view and VOICE_BURST for the voice-burst view |
| EtsiL2.FullLcInput | dmrtools/dmrproto/etsi_l2.py:38-39 | for a 264-bit burst, the 196 bits handed to the BPTC decoder are the first 98 and the last 98 bits |
| EtsiL2.GetVoiceBits | dmrtools/dmrproto/etsi_l2.py:46-47 | for a 264-bit burst, two 108-bit halves that, with the 48 centre bits between them, make up the burst |
| EtsiL2.GetEmbLc | dmrtools/dmrproto/etsi_l2.py:49-50 | for a 264-bit burst, four bytes |
| EtsiL2.EmbLcOfBurst | dmrtools/dmrproto/etsi_l2.py:49-50 | the embedded-LC byte k of a 33-byte burst is the low nibble of byte 14 + k followed by the high nibble of byte 15 + k |
| EtsiL2.NibbleByte | dmrtools/dmrproto/etsi_l2.py:50 | the last four bits of one byte followed by the first four of the next regroup into low nibble * 16 + high nibble |
| Factory.FirstMatch | dmrtools/dmrproto/factory.py:47-49 | no class before the returned position accepts the data, and the class at that position, if there is one, does |
| Factory.Produce | dmrtools/dmrproto/factory.py:42-54 | succeeds exactly when some class accepts the data, and then gives the first accepting class in list order; otherwise the not_found error |
| Factory.RegisterNeverPreempts | dmrtools/dmrproto/factory.py:39-49 | appending a class never changes what is produced for data an earlier class accepts |
| Factory.RegisteredClassMatchesLeftovers | dmrtools/dmrproto/factory.py:39-49 | an appended class is chosen for data it accepts when no earlier class does |
| Factory.ProduceFirst | dmrtools/dmrproto/factory.py:47-49 | an accepting class with no accepting class before it is the one produced |
| Factory.Factory.constructor | dmrtools/dmrproto/factory.py:34-37 | classes=None gives an empty class list, otherwise the given list |
| Factory.Factory.Register | dmrtools/dmrproto/factory.py:39-40 | the class is appended at the end of the list |
| Factory.Factory.FromData | dmrtools/dmrproto/factory.py:42-54 | the loop returns what Produce says: the first accepting class, or the not_found error |
| Factory.Singleton.constructor | dmrtools/dmrproto/factory.py:22 | no factory instance exists yet |
| Factory.Singleton.Fd | dmrtools/dmrproto/factory.py:24-32 | the instance is created once, on first use, and afterwards kept; the result is that instance's from_data |
| DmrdBits.Unpack | dmrtools/dmrproto/mmdvm_l1.py:266-272 | the four sub-fields of byte 15 lie in their ranges: one bit each for slot and call type, two for frame type, four for vseq |
| DmrdBits.Pack | dmrtools/dmrproto/mmdvm_l1.py:266-272 | packing valid sub-fields gives a byte that unpacks to them |
| DmrdBits.PackUnpack | dmrtools/dmrproto/mmdvm_l1.py:266-272 | every byte is the packing of its sub-fields, so the layout covers all eight bits |
| DmrdBits.UnpackInjective | dmrtools/dmrproto/mmdvm_l1.py:266-272 | two bytes with the same sub-fields are equal |
| DmrdBits.Slot | dmrtools/dmrproto/mmdvm_l1.py:292-295 | the slot is 1 or 2, and 2 exactly when bit 7 is set |
| DmrdBits.SetSlot | dmrtools/dmrproto/mmdvm_l1.py:297-302 | only 1 and 2 are accepted, with FieldOutOfRange("slot") otherwise; only bit 7 changes and the slot reads back |
| DmrdBits.GetCallType | dmrtools/dmrproto/mmdvm_l1.py:307-310 | UNIT exactly when bit 6 is set |
| DmrdBits.SetCallType | dmrtools/dmrproto/mmdvm_l1.py:312-319 | only bit 6 changes and the call type reads back |
| DmrdBits.FrameType | dmrtools/dmrproto/mmdvm_l1.py:324-327 | bits 5-4, a value below 4 |
| DmrdBits.SetFrameType | dmrtools/dmrproto/mmdvm_l1.py:329-333 | only two-bit values are accepted, with FieldOutOfRange("frame_type") otherwise; only bits 5-4 change and the value reads back |
| DmrdBits.Vseq | dmrtools/dmrproto/mmdvm_l1.py:338-341 | bits 3-0, a value below 16 |
| DmrdBits.SetVseq | dmrtools/dmrproto/mmdvm_l1.py:343-347 | only four-bit values are accepted, with FieldOutOfRange("vseq") otherwise; only bits 3-0 change and the value reads back |
| DmrdBits.GetVoiceType | dmrtools/dmrproto/mmdvm_l1.py:352-353 | the voice type is from_value of frame type * 16 + vseq |
| DmrdBits.LowSixBits | dmrtools/dmrproto/mmdvm_l1.py:266-272 | the low six bits are the frame type followed by vseq |
| DmrdBits.SetVoiceType | dmrtools/dmrproto/mmdvm_l1.py:355-358 | slot and call type bits are kept and the voice type reads back |
| DmrdBits.HighBitsKept | dmrtools/dmrproto/mmdvm_l1.py:357-358 | replacing the low six bits keeps bits 7 and 6 |
| DmrdBits.VoiceTermAgrees | dmrtools/dmrproto.py:411-414 | the newer codec's is_voice_term (voice type TERM, mmdvm_l1.py:363-365) holds exactly when the older one's (frame type 2 and vseq 2) does |
| MmdvmL1.FourBytesIsUint32 | dmrtools/dmrproto/base_fields.py:60 | a four-byte int field holds exactly the uint32 values |
| MmdvmL1.Ascii | dmrtools/dmrproto/mmdvm_l1.py:35 | the bytes of an ASCII type tag are its code points, one byte each |
| MmdvmL1.PeerIdField | dmrtools/dmrproto/mmdvm_l1.py:111-131 | peer_id is a four-byte int field; on every peer packet except DMRD it sits right after the type tag |
| MmdvmL1.FieldsInsidePacket | dmrtools/dmrproto/mmdvm_l1.py:137-282 | every field of every packet class lies inside PKT_SIZE and after the type tag |
| MmdvmL1.ConfigFieldsInside | dmrtools/dmrproto/mmdvm_l1.py:213-234 | the fourteen RPTC string fields lie inside the 302-byte packet, after the tag |
| MmdvmL1.DataFieldsInside | dmrtools/dmrproto/mmdvm_l1.py:260-282 | the DMRD fields lie inside the 55-byte packet, after the tag |
| MmdvmL1.Detect | dmrtools/dmrproto/mmdvm_l1.py:51-61 | accepts exactly when the class has a type tag, the size matches or PKT_SIZE is 0, and the data starts with the tag |
| MmdvmL1.DetectThenAcceptable | dmrtools/dmrproto/mmdvm_l1.py:51-80 | data that a class of fixed size detects also passes that class's from_data checks |
| MmdvmL1.CreateData | dmrtools/dmrproto/mmdvm_l1.py:82-88 | a buffer that starts with the type tag and is PKT_SIZE long (longer only if the tag is), with every byte after the tag zero, or a space for RPTC (217-219) |
| MmdvmL1.CreateDetected | dmrtools/dmrproto/mmdvm_l1.py:51-88 | a freshly created packet is detected and accepted by its own class |
| MmdvmL1.DetectDisjoint | dmrtools/dmrproto/mmdvm_l1.py:137-262 | two codec classes that both detect the same data are the same class, or are the ack and the salt class, which share RPTACK and size 10 |
| MmdvmL1.IndexOfDefault | dmrtools/dmrproto/mmdvm_l1.py:451-457 | the position of each codec class in the packet factory's list, with no earlier occurrence |
| MmdvmL1.FirstDetectedWins | dmrtools/dmrproto/factory.py:47-49 | in a list of distinct codec classes, the first one that detects the data is produced; the ack class is produced for RPTACK data when the salt class does not come before it |
| MmdvmL1.ClassifyDetected | dmrtools/dmrproto/mmdvm_l1.py:447-457 | data that a codec class detects is classified as that class, except that 10-byte RPTACK data is always an ack, never a salt |
| MmdvmL1.ClassifyUnknown | dmrtools/dmrproto/mmdvm_l1.py:459-461 | data that no codec class detects fails with DMRPUnknownPacketTypeException |
| MmdvmL1.L2Of | dmrtools/dmrproto/mmdvm_l1.py:367-383 | a full-LC view exactly for HEAD and TERM, a voice-burst view exactly for bursts A-F, none exactly for NONE; the view returns the 33 dmr_data bytes and holds 264 bits |
| MmdvmL1.LcOf | dmrtools/dmrproto/mmdvm_l1.py:397-401 | empty bytes without a view; four bytes for a voice-burst view of a full burst |
| MmdvmL1.EmbLcOfVoiceBurst | dmrtools/dmrproto/mmdvm_l1.py:391-395 | a burst B-E frame seen with nothing cached yields the embedded-LC bytes: the low nibble of frame byte 34 + k followed by the high nibble of byte 35 + k |
| MmdvmL1.Packet.Create | dmrtools/dmrproto/mmdvm_l1.py:38-41 | a packet built without data holds the created buffer and caches nothing |
| MmdvmL1.Packet.Wrap | dmrtools/dmrproto/mmdvm_l1.py:80 | a packet holding a fresh buffer with exactly the given bytes, nothing cached |
| MmdvmL1.Packet.FromData | dmrtools/dmrproto/mmdvm_l1.py:63-80 | succeeds exactly when the data starts with the tag and has PKT_SIZE bytes, failing with DMRPBadPacketException otherwise; the packet holds exactly the data |
| MmdvmL1.Packet.Copy | dmrtools/dmrproto/mmdvm_l1.py:45-49 | a new packet of the same class with its own byte-identical buffer and nothing cached |
| MmdvmL1.Packet.SetBytes | dmrtools/dmrproto/base_fields.py:34-35 | a value of the wrong length fails with FieldOutOfRange and changes nothing; otherwise only the field's window changes |
| MmdvmL1.Packet.SetInt | dmrtools/dmrproto/base_fields.py:65-68 | an out-of-range value fails with FieldOutOfRange and changes nothing; otherwise the buffer is the pure SetInt of the old one |
| MmdvmL1.Packet.SetStr | dmrtools/dmrproto/base_fields.py:49-54 | the buffer becomes the pure SetStr of the old one |
| MmdvmL1.Packet.SetBitsByte | dmrtools/dmrproto/mmdvm_l1.py:279 | only byte 15 changes |
| MmdvmL1.Packet.SetSlot | dmrtools/dmrproto/mmdvm_l1.py:297-302 | fails with FieldOutOfRange("slot") and changes nothing exactly when the pure set_slot refuses the slot; otherwise only byte 15 changes, to the pure result |
| MmdvmL1.Packet.SetCallType | dmrtools/dmrproto/mmdvm_l1.py:312-319 | only byte 15 changes, to the pure set_call_type result |
| MmdvmL1.Packet.SetFrameType | dmrtools/dmrproto/mmdvm_l1.py:329-333 | fails with FieldOutOfRange("frame_type") and changes nothing for values outside two bits; otherwise only byte 15 changes |
| MmdvmL1.Packet.SetVseq | dmrtools/dmrproto/mmdvm_l1.py:343-347 | fails with FieldOutOfRange("vseq") and changes nothing for values outside four bits; otherwise only byte 15 changes |
| MmdvmL1.Packet.SetVoiceType | dmrtools/dmrproto/mmdvm_l1.py:355-358 | only byte 15 changes, to the pure set_voice_type result |
| MmdvmL1.Packet.GetL2 | dmrtools/dmrproto/mmdvm_l1.py:367-383 | a cached view is returned unchanged; otherwise the view built from the frame is cached and returned |
| MmdvmL1.Packet.GetFullLc | dmrtools/dmrproto/mmdvm_l1.py:385-389 | the decoded full LC when the view is a full-LC view, None otherwise; the view is cached |
| MmdvmL1.Packet.GetEmbLc | dmrtools/dmrproto/mmdvm_l1.py:391-395 | the embedded-LC bytes when the view is a voice burst, None otherwise; the view is cached |
| MmdvmL1.Packet.GetLc | dmrtools/dmrproto/mmdvm_l1.py:397-401 | with nothing cached: the decoded full LC for HEAD and TERM, the four embedded-LC bytes for bursts A-F, and empty bytes for NONE |
| MmdvmL1.NewPacketFactory | dmrtools/dmrproto/mmdvm_l1.py:447-457 | a factory over the thirteen codec classes in the source's order, reporting unknown packet types |
| MmdvmL1.ParsePacket | dmrtools/dmrproto/factory.py:42-54 | not_found's error when no class detects the data; otherwise the detected class's from_data, which fails with DMRPBadPacketException exactly when that class refuses the data |
| MmdvmL1.FromDatagram | dmrtools/dmrproto/factory.py:24-32 | the packet factory fails exactly when no codec class detects the datagram, and otherwise gives a fresh packet of the classified class holding exactly the datagram |
| MmdvmL1.SizedClassesParse | dmrtools/dmrproto/mmdvm_l1.py:51-80 | with classes of fixed size, the class the factory picks always accepts the data |
| MmdvmL1.ClassifiedParses | dmrtools/dmrproto/mmdvm_l1.py:447-461 | a datagram the packet factory classifies always parses as that codec class |
| MmdvmL1.DefaultClassesSized | dmrtools/dmrproto/mmdvm_l1.py:451-457 | every class of the packet factory is a codec class with a fixed size |
| LegacyProto.LegacyIndexOf | dmrtools/dmrproto.py:470-476 | the position of each class in the older factory's list, with no earlier occurrence and the ack class before the salt class |
| LegacyProto.LegacyRejectsBeacon | dmrtools/dmrproto.py:502-507 | an RPTSBKN beacon is an unknown packet type to the older factory, which has no beacon class |
| LegacyProto.LegacyHasNoBeacon | dmrtools/dmrproto.py:470-476 | no class of the older factory is the beacon class |
| LegacyProto.LegacyAgreesDetected | dmrtools/dmrproto.py:502-507 | data detected as any other class is classified by the older factory as by the packet factory |
| LegacyProto.LegacyClassifyAgrees | dmrtools/dmrproto.py:464-507 | the two factories classify every datagram alike, except beacons, which the older one reports as unknown |
| LegacyProto.NewLegacyFactory | dmrtools/dmrproto.py:464-476 | a factory over the older codec's twelve classes in the source's order |
| LegacyProto.CustomOnlyForLeftovers | dmrtools/dmrproto.py:478-486 | a registered custom class is produced only for data that no built-in class detects; all other data is classified as before |
| EmbLc.BurstIndex | dmrtools/dmrproto/util.py:16-21 | exactly bursts B, C, D and E have a position, below 4, and position 3 is burst E |
| EmbLc.Step | dmrtools/dmrproto/util.py:30-62 | a burst outside B-E is ignored and changes nothing; a burst is collected exactly when it is in order and its fragment can be read, and the fragment is then appended with its vseq stored, the call reporting completion exactly for burst E; any other burst resets the state |
| EmbLc.StepKeepsGood | dmrtools/dmrproto/util.py:30-62 | every step keeps at most four fragments and a four-bit vseq |
| EmbLc.CompleteHoldsFour | dmrtools/dmrproto/util.py:57-62 | a completed assembly holds exactly four fragments, so decode can use it |
| EmbLc.SuperframeCompletes | dmrtools/dmrproto/util.py:30-62 | from an empty state, bursts B, C, D and E with consecutive vseqs complete an assembly of exactly their four fragments |
| EmbLc.BurstVseq | dmrtools/dmrproto/mmdvm_l1.py:352-353 | bursts B-E of a DMRD frame carry vseq 1-4, one more than their position |
| EmbLc.StepKeepsTracks | dmrtools/dmrproto/util.py:30-62 | on DMRD frames the stored vseq always equals the number of fragments held |
| EmbLc.VseqCheckRedundant | dmrtools/dmrproto/util.py:36-48 | on DMRD frames the vseq check never decides anything: a burst is in order exactly when its position equals the number of fragments held |
| EmbLc.HeldFragmentsRefuseB | dmrtools/dmrproto/util.py:43-48 | burst B is refused, and the state reset, while any fragment is held |
| EmbLc.OutOfOrderRejected | dmrtools/dmrproto/util.py:36-48 | a burst out of order resets the assembler, whatever it carries |
| EmbLc.Join | dmrtools/dmrproto/util.py:68 | joining n four-byte fragments gives 4n bytes |
| EmbLc.DecodeOf | dmrtools/dmrproto/util.py:64-66 | nothing unless exactly four fragments are held |
| EmbLc.EmbLcAssembler.constructor | dmrtools/dmrproto/util.py:23-28 | a new assembler holds no fragment and vseq 0 |
| EmbLc.EmbLcAssembler.Reset | dmrtools/dmrproto/util.py:26-28 | no fragment and vseq 0 |
| EmbLc.EmbLcAssembler.Process | dmrtools/dmrproto/util.py:30-62 | the state and verdict are Step's, on the packet's voice type and vseq; the packet's layer-2 view is built only when the order checks pass; the invariant is kept |
| EmbLc.EmbLcAssembler.ProcessVoicedata | dmrtools/dmrproto/util.py:30-62 | the state follows Step and the result is True exactly when burst E completed the assembly, which then holds four fragments; the packet's layer-2 view is cached only once the order checks pass |
| EmbLc.EmbLcAssembler.ProcessVoicedataOrFail | dmrtools/dmrproto/lc_util.py:35-62 | as in util.py, but a refused burst resets the assembler and raises EmbLCAssemblerException; the view is cached as in util.py |
| EmbLc.EmbLcAssembler.Decode | dmrtools/dmrproto/lc_util.py:64-69 | nothing unless exactly four fragments are held; otherwise the decoder's result on the joined fragments' bits |
| LcDecoder.ProcessSpec | dmrtools/dmrproto/lc_util.py:81-100 | a frame of another stream raises CallLCDecoderException and changes nothing; an error otherwise comes only from parsing a full LC and changes nothing; a returned LC is stored under its FLCO and nothing else is stored; a full-LC frame leaves the assembler alone |
| LcDecoder.LcsOnlyGrow | dmrtools/dmrproto/lc_util.py:97-100 | stored LCs are never dropped, and one changes only when a new LC of its FLCO is returned |
| LcDecoder.EmbeddedLcResets | dmrtools/dmrproto/lc_util.py:89-92 | an LC decoded from the embedded assembly leaves the assembler empty |
| LcDecoder.ProcessKeepsAssembler | dmrtools/dmrproto/lc_util.py:81-95 | the decoder keeps its assembler's invariant |
| LcDecoder.FullLcStored | dmrtools/dmrproto/lc_util.py:85-86 | a header's or terminator's full LC that parses is returned and stored under its FLCO, and nothing else changes |
| LcDecoder.FullLcParseFails | dmrtools/dmrproto/lc_util.py:85-86 | a full LC that does not parse raises the parser's error and leaves the decoder as it was |
| LcDecoder.EmbeddedLcStored | dmrtools/dmrproto/lc_util.py:88-92 | a burst that completes the assembly, whose fragments decode and parse, is returned and stored under its FLCO, and the assembler is emptied |
| LcDecoder.SuperframeLcStored | dmrtools/dmrproto/lc_util.py:81-100 | from an assembler holding nothing, bursts B, C and D store nothing; burst E returns the LC decoded from the four joined fragments, stores it under its FLCO and empties the assembler |
| LcDecoder.FindCall | dmrtools/dmrproto/lc_util.py:102-108 | the call LC under the first call FLCO, in list order, that holds one; None exactly when no call FLCO holds a call LC |
| LcDecoder.FindLocation | dmrtools/dmrproto/lc_util.py:110-115 | the LC under the first location FLCO, exactly when it is a location LC |
| LcDecoder.CollectTaNothingHeld | dmrtools/dmrproto/lc_util.py:131-134 | with no TA LC held under the TA FLCOs, the collected alias bytes are empty |
| LcDecoder.CollectTaAllHeld | dmrtools/dmrproto/lc_util.py:131-134 | with all four TA LCs held, the alias bytes are their data concatenated in FLCO order |
| LcDecoder.TaOf | dmrtools/dmrproto/lc_util.py:121-153 | nothing unless the first TA FLCO holds a TA LC, and nothing for 7-bit text; otherwise the collected TA bytes are decoded, and the text cut to the declared length once it is that long, or while shorter the partial text if asked for and None if not |
| LcDecoder.TaOfAllHeld | dmrtools/dmrproto/lc_util.py:121-153 | with all four TA LCs held and a format other than 7-bit, the alias is the decoded join of their data in FLCO order, cut to the declared length |
| LcDecoder.TaPartialAgrees | dmrtools/dmrproto/lc_util.py:150-153 | asking for partial text changes nothing once the whole alias is there, and gives text whenever the full request does |
| LcDecoder.CallLcDecoder.constructor | dmrtools/dmrproto/lc_util.py:76-79 | a decoder for the stream holding no LC and an empty assembler |
| LcDecoder.CallLcDecoder.AddLc | dmrtools/dmrproto/lc_util.py:97-100 | the parser's result; a parsed LC replaces the one stored under its FLCO, and a parse error stores nothing |
| LcDecoder.CallLcDecoder.ProcessVoicedata | dmrtools/dmrproto/lc_util.py:81-95 | the result and new state are ProcessSpec's for the packet's stream id, cached view and bits byte, so a parsed full LC or completed assembly is returned and stored; a frame of the stream leaves the packet's layer-2 view cached, a foreign frame leaves the cache alone; the assembler invariant is kept |
| LcDecoder.CallLcDecoder.Call | dmrtools/dmrproto/lc_util.py:102-108 | the loop returns the LC FindCall picks: the first call FLCO, in list order, that holds a call LC |
| LcDecoder.CallLcDecoder.GetTa | dmrtools/dmrproto/lc_util.py:121-153 | the loop and checks return the alias TaOf describes: the decoded text cut to its length, the partial text, or None |
| Text.DigitChar | dmrtools/pphex.py:5 | the digit character of d reads back as d |
| Text.Digits | dmrtools/peer.py:77 | at least one digit, every character a digit of the base, and a leading zero only for 0 |
| Text.DigitsRoundTrip | dmrtools/peer.py:77 | reading the digits of n back in the same base gives n |
| Text.Decimal | dmrtools/peer.py:77 | str(n) is a non-empty string of decimal digits that reads back as n |
| Text.LeadingZeros | dmrtools/pphex.py:7 | leading zeros do not change the value of a digit string |
| Text.HexValue | dmrtools/pphex.py:7 | f"{n:0wX}" is at least w and at least one characters long, all of them hex digits, and reads back as n |
| Peers.IsApplicable | dmrtools/peer.py:31-55 | LOGIN and DEAD accept only themselves; AUTH, CONFIG and ACTIVE accept exactly the statuses from LOGIN up to themselves |
| Peers.LoginApplicableUnlessDead | dmrtools/peer.py:31-55 | a login is applicable in every status but DEAD, and DEAD accepts nothing but DEAD |
| Peers.ApplicablePreorder | dmrtools/peer.py:31-55 | applicability is reflexive and transitive |
| Peers.LiveUnits | dmrtools/peer.py:112-119 | exactly the units heard within the last 3600 seconds are kept, unchanged |
| Peers.NewPeerState | dmrtools/peer.py:60-68 | a new peer is at LOGIN with id 0, no salt, no config, no units and active now |
| Peers.Died | dmrtools/peer.py:95-97 | DEAD with peer id 0, nothing else changed |
| Peers.UnitUpdated | dmrtools/peer.py:89-93 | the unit is present and heard now; every other unit and every other part of the peer is unchanged |
| Peers.Maintained | dmrtools/peer.py:112-123 | the timed-out units are dropped, and the peer dies exactly when it was not heard within 130 seconds; nothing else changes |
| Peers.Peer.constructor | dmrtools/peer.py:60-68 | the new peer has the address, connects now and has the initial state |
| Peers.Peer.Name | dmrtools/peer.py:75-81 | the decimal peer id once one is bound, "host:port" before that |
| Peers.Peer.UpdateActive | dmrtools/peer.py:86-87 | only the activity time changes, to now |
| Peers.Peer.UpdateUnit | dmrtools/peer.py:89-93 | the state becomes UnitUpdated of the old one |
| Peers.Peer.Die | dmrtools/peer.py:95-97 | the state becomes Died of the old one |
| Peers.PeerKeeper.constructor | dmrtools/peer.py:107-108 | no peers |
| Peers.PeerKeeper.Maintain | dmrtools/peer.py:110-131 | each registered peer is maintained; exactly the peers that are not DEAD remain, all of them heard within 130 seconds; addresses stay unique |
| Peers.PeerKeeper.GetByAddr | dmrtools/peer.py:137-145 | the peer registered at the address, with nothing changed, or else a fresh LOGIN peer added for it; addresses stay unique, and a new peer adds only id 0 to the ids in use |
| Peers.PeerKeeper.GetById | dmrtools/peer.py:147-148 | exactly the registered peers with that id |
| Peers.PeerKeeper.GetByUnit | dmrtools/peer.py:150-151 | exactly the registered peers through which that unit was heard |
| Peers.PeerKeeper.GetActive | dmrtools/peer.py:156-158 | exactly the registered peers that are ACTIVE |
| Calls.NewCallState | dmrtools/call.py:22-26 | a new call is neither ended nor dead, has counted no packet and has no route |
| Calls.LogCleanedOnlyAfterCleaned | dmrtools/call.py:51-57 | a call ripe for leaving the log (six hours) is ripe for leaving the current set (one minute), and such a call is ended, never dead |
| Calls.Received | dmrtools/call.py:59-61 | after a packet the call is heard now, so neither dead nor to be cleaned; one more packet is counted; ended status and route are kept |
| Calls.Ended | dmrtools/call.py:66-67 | the call is ended and not dead; ended by timeout its duration runs to the last packet, otherwise to now; nothing but the end time changes |
| Calls.TimeoutKeepsDuration | dmrtools/call.py:45-49 | ending a running call by timeout leaves its reported duration unchanged |
| Calls.Maintained | dmrtools/call.py:88-94 | the call is not dead afterwards; it is ended exactly when it was ended or dead before; its duration, packets, last packet time and route are unchanged |
| Calls.Call.constructor | dmrtools/call.py:14-26 | the ids, type and start time are the given ones and the state is the new-call state |
| Calls.Call.PacketReceived | dmrtools/call.py:59-61 | the state becomes Received of the old one |
| Calls.Call.End | dmrtools/call.py:66-67 | the state becomes Ended of the old one |
| Calls.CallKeeper.constructor | dmrtools/call.py:82-84 | no calls and an empty log |
| Calls.CallKeeper.Maintain | dmrtools/call.py:86-109 | every current call is maintained; exactly the calls not to be cleaned stay current and exactly the logged calls not to be cleaned from the log stay logged; no current call is dead; every current call stays logged |
| Calls.CallKeeper.ByCallId | dmrtools/call.py:111-114 | a current call with that id, and None exactly when no current call has it |
| Calls.CallKeeper.Add | dmrtools/call.py:116-118 | the call joins both the current set and the log |
| Auth.NewListAuth | dmrtools/auth.py:47-52 | the list policy holds the given table, and without a table it admits no peer id |
| Auth.AllowPeerId | dmrtools/auth.py:17-55 | allow-all admits every id, deny-all none, the list policy exactly the listed ids |
| Auth.CheckPassword | dmrtools/auth.py:17-67 | allow-all accepts, deny-all refuses, the list policy refuses an unlisted id, accepts any hash for an empty password and otherwise exactly the hash of salt and password |
| Auth.CheckImpliesAllow | dmrtools/auth.py:17-67 | under every policy a passing password check implies the id is admitted |
| Auth.OnlyTheRightHashPasses | dmrtools/auth.py:57-67 | with an injective hash, the hash of a password passes for a listed id only if it is the configured password |
| Outbox.To | dmrtools/network.py:10-13 | the datagrams of the payloads in order, all to the one address |
| Outbox.Sender.constructor | dmrtools/network.py:10-13 | nothing sent yet |
| Outbox.Sender.SendDg | dmrtools/network.py:10-13 | exactly one datagram, with that data and address, is appended to what was sent |
| PeerControl.PeerIdOf | dmrtools/dmrproto.py:202-208 | the peer_id of a packet is the integer its peer_id field holds |
| PeerControl.IdPacket | dmrtools/peer_controller.py:191-210 | MSTCL, RPTACK or MSTPONG of the class's size whose peer_id reads back as the id, identical to the created packet outside that field |
| PeerControl.SaltPacket | dmrtools/peer_controller.py:196-200 | an RPTACK salt packet whose salt field holds the four salt bytes |
| PeerControl.ConfigFrom | dmrtools/peer_controller.py:157-172 | a dict with exactly the fields' names as keys, each mapped to the string its field holds |
| PeerControl.ConfigFieldsFit | dmrtools/dmrproto.py:285-306 | the fourteen RPTC fields are string fields that lie inside an RPTC packet |
| PeerControl.ConfigNamesDistinct | dmrtools/peer_controller.py:157-172 | the fourteen config names are pairwise different, so no key is overwritten |
| PeerControl.TagKept | dmrtools/dmrproto.py:178-194 | writing a field that starts after the type tag keeps the tag |
| PeerControl.IdPacketParses | dmrtools/peer_controller.py:191-210 | the MSTCL, RPTACK and MSTPONG the master sends classify, on the repeater's side, as exactly that class |
| PeerControl.SaltPacketDetected | dmrtools/dmrproto.py:249-256 | the salt packet is detected as RPTACK+salt |
| PeerControl.SaltPacketParsesAsAck | dmrtools/dmrproto.py:244-256 | the factory reads the salt packet as an RPTACK, since both share the tag and the size |
| PeerControl.AckPeerIdIsSalt | dmrtools/dmrproto.py:244-256 | an ack's peer_id field is the salt packet's salt field, bytes 6 to 9 |
| PeerControl.AckPeerIdOfSaltBytes | dmrtools/dmrproto.py:244-256 | read as an ack, the salt packet's peer_id is the big-endian number its salt bytes spell |
| PeerControl.RepeaterCloseOutcome | dmrtools/peer_controller.py:47-51 | RPTCL kills the peer, sends nothing and stops the packet |
| PeerControl.RefusalOutcome | dmrtools/peer_controller.py:55-155 | every refusal leaves the peer DEAD with id 0, stops the packet and sends one MSTCL carrying the refused packet's own peer_id |
| PeerControl.DeadIsFinal | dmrtools/peer_controller.py:39-181 | a DEAD peer stays DEAD under every packet, and a DEAD peer never holds an id |
| PeerControl.DataOutcome | dmrtools/peer_controller.py:53-67 | DMRD goes on exactly when the peer is ACTIVE, then refreshes its activity and the sending unit and sends nothing; otherwise the peer is refused |
| PeerControl.PingOutcome | dmrtools/peer_controller.py:69-84 | RPTPING never goes on; an ACTIVE peer is refreshed and gets one MSTPONG with its own id; any other peer is refused |
| PeerControl.LoginOutcome | dmrtools/peer_controller.py:86-117 | RPTL moves the peer to AUTH exactly when it is not DEAD, no registered peer holds the id and the policy admits it; it then keeps and is sent the salt; otherwise it is refused |
| PeerControl.LoginWithHeldIdRefused | dmrtools/peer_controller.py:98-104 | a login that claims an id the registry holds, including the peer's own, kills the peer |
| PeerControl.AuthOutcome | dmrtools/peer_controller.py:119-144 | RPTK moves the peer to CONFIG exactly when it is past login, holds a salt and the password check passes; it then takes the packet's id and is sent RPTACK with it; otherwise it is refused |
| PeerControl.ConfigOutcome | dmrtools/peer_controller.py:146-179 | RPTC activates exactly a CONFIG or ACTIVE peer, storing the fourteen config strings and sending RPTACK with its id; otherwise it is refused |
| PeerControl.OtherPassesThrough | dmrtools/peer_controller.py:181 | every other class goes on to the dispatcher with the peer untouched and nothing sent |
| PeerControl.RejectParses | dmrtools/peer_controller.py:191-194 | a refusal sends exactly one datagram, which classifies as MSTCL |
| PeerControl.DataReplies | dmrtools/peer_controller.py:53-67 | the DMRD branch sends at most one datagram, an MSTCL |
| PeerControl.PingReplies | dmrtools/peer_controller.py:69-84 | the RPTPING branch sends one datagram that classifies as MSTCL or MSTPONG |
| PeerControl.LoginReplies | dmrtools/peer_controller.py:86-117 | the RPTL branch sends one datagram that classifies as MSTCL or RPTACK |
| PeerControl.AuthReplies | dmrtools/peer_controller.py:119-144 | the RPTK branch sends one datagram that classifies as MSTCL or RPTACK |
| PeerControl.ConfigReplies | dmrtools/peer_controller.py:146-179 | the RPTC branch sends one datagram that classifies as MSTCL or RPTACK |
| PeerControl.RepliesParse | dmrtools/peer_controller.py:39-181 | every packet is answered by at most one datagram, and it classifies as MSTCL, RPTACK or MSTPONG |
| PeerControl.RunPrefix | dmrtools/peer_controller.py:39-181 | running the first k + 1 packets of a session is the first step followed by the next k |
| PeerControl.OnlyAuthAdmits | dmrtools/peer_controller.py:119-179 | the only packet that takes a peer into CONFIG or ACTIVE is an RPTK whose password check passes |
| PeerControl.AdmittedOnlyThroughAuth | dmrtools/peer_controller.py:39-181 | a peer that reaches CONFIG or ACTIVE over any session has passed the password check of some RPTK on the way |
| PeerControl.PeerController.constructor | dmrtools/peer_controller.py:34-37 | the controller holds the peer, the keeper, the policy and the sender |
| PeerControl.PeerController.HeldExactlyWhenInUse | dmrtools/peer_controller.py:98-99 | get_by_id finds a peer exactly when some registered peer holds the id |
| PeerControl.PeerController.SendIdPacket | dmrtools/peer_controller.py:183-189 | exactly one datagram, the id packet, is sent to the peer's address |
| PeerControl.PeerController.SendClose | dmrtools/peer_controller.py:191-194 | one MSTCL is sent with the given id, or the peer's own when that is 0 |
| PeerControl.PeerController.SendSalt | dmrtools/peer_controller.py:196-200 | the peer keeps the salt and is sent one salt packet carrying it |
| PeerControl.PeerController.Refuse | dmrtools/peer_controller.py:61-63 | the peer and the outbox end as a refusal says: DEAD and one MSTCL |
| PeerControl.PeerController.HandleData | dmrtools/peer_controller.py:53-67 | the peer, the outbox and the result end as the DMRD step says |
| PeerControl.PeerController.HandlePing | dmrtools/peer_controller.py:69-84 | the peer, the outbox and the result end as the RPTPING step says |
| PeerControl.PeerController.HandleLogin | dmrtools/peer_controller.py:86-117 | the peer, the outbox and the result end as the RPTL step says, with the keeper's ids and the policy consulted |
| PeerControl.PeerController.HandleAuth | dmrtools/peer_controller.py:119-144 | the peer, the outbox and the result end as the RPTK step says |
| PeerControl.PeerController.Admit | dmrtools/peer_controller.py:140-143 | the peer takes the id, moves to CONFIG and is sent one RPTACK with that id |
| PeerControl.PeerController.HandleConfig | dmrtools/peer_controller.py:146-179 | the peer, the outbox and the result end as the RPTC step says |
| PeerControl.PeerController.ProcessPacket | dmrtools/peer_controller.py:39-181 | the peer, the outbox and the return value end exactly as the transition Step says for the packet's class and bytes |
| Parrot.IdFieldsAlike | dmrtools/parrot_app.py:81-83 | the source and destination fields have the same width, so each id fits the other's field |
| Parrot.Swapped | dmrtools/parrot_app.py:81-83 | the unit-call answer is from the parrot to the caller, and no byte outside the two id fields changes |
| Parrot.Answer | dmrtools/parrot_app.py:78-85 | the answer exists exactly when the stream id plus one fits 32 bits; otherwise the field setter's range error for stream_id |
| Parrot.Addressed | dmrtools/parrot_app.py:78-85 | the answer is the next stream id written into the frame or its swapped copy, which differs from the frame only in the id fields |
| Parrot.AnswerStream | dmrtools/parrot_app.py:85 | the answer carries the frame's stream id plus one and the frame's call type |
| Parrot.AnswerAddressing | dmrtools/parrot_app.py:80-83 | a unit call is answered from the parrot to the caller; a group call keeps its source and destination |
| Parrot.AnswerKeepsRest | dmrtools/parrot_app.py:78 | every byte outside the id fields and the stream id is the frame's own |
| Parrot.IgnoredFrame | dmrtools/parrot_app.py:56-72 | a frame the filters turn away leaves the records, the replays and the own-call set unchanged |
| Parrot.RecordedOnce | dmrtools/parrot_app.py:74-87 | an accepted frame of a running call appends exactly its answer to its stream's recording, which is opened if absent; nothing else changes |
| Parrot.EndedCallScheduled | dmrtools/parrot_app.py:87-92 | the frame that ends a call completes its recording, which leaves the records and becomes the next replay |
| Parrot.LastStreamIdRaises | dmrtools/parrot_app.py:74-85 | recording stream id 0xFFFFFFFF raises the range error for stream_id after the stream's recording has been opened |
| Parrot.UnitAnswerNotRecorded | dmrtools/parrot_app.py:57-58 | the parrot never records its own answer to a unit call, whose source is the parrot |
| Parrot.RepeatStart | dmrtools/parrot_app.py:32-46 | an app without dispatcher raises; an empty recording is skipped; otherwise exactly the first frame's stream id joins the own calls |
| Parrot.ReplayNotRecorded | dmrtools/parrot_app.py:45-72 | while a replay runs, no frame of its stream is recorded |
| Parrot.ParrotApp.constructor | dmrtools/parrot_app.py:14-26 | the settings as given, no own calls, no records, no replays, no dispatcher |
| Parrot.ParrotApp.Record | dmrtools/parrot_app.py:56-92 | the bookkeeping and the outcome end as RecordStep says for the frame and the call's ended status |
| Parrot.ParrotApp.MakeAnswer | dmrtools/parrot_app.py:78-85 | the copy with its setters applied is the answer Answer describes, or its range error |
| Parrot.ParrotApp.SwapIds | dmrtools/parrot_app.py:81-83 | the copy becomes the swapped frame |
| Parrot.ParrotApp.BeginRepeat | dmrtools/parrot_app.py:32-46 | the result and the bookkeeping end as RepeatStart says |
| Parrot.ParrotApp.EndRepeat | dmrtools/parrot_app.py:54 | only the stream leaves the own-call set |
| Dispatch.Opened | dmrtools/dispatcher.py:53-62 | a new call is running with no packet counted, and it has a route exactly for a UNIT call whose destination some peer has heard, that route being those peers |
| Dispatch.Advanced | dmrtools/dispatcher.py:64-67 | the frame is counted at now, so the call is not dead; a terminator ends it at now, any other frame keeps its end time; the route is kept |
| Dispatch.WithPeerId | dmrtools/dispatcher.py:88 | the copy has the recipient's id in peer_id and no other byte changed |
| Dispatch.CopiesShape | dmrtools/dispatcher.py:78-91 | one datagram per recipient, in order, to the recipient's address, never to the origin and never two to one address; each is the packet with that recipient's id in peer_id and nothing else changed |
| Dispatch.Enumerate | dmrtools/dispatcher.py:85 | iterating a set visits every element exactly once |
| Dispatch.AwayMembers | dmrtools/dispatcher.py:85-87 | skipping the origin keeps exactly the peers away from it, each still once |
| Dispatch.AwayEnumerates | dmrtools/dispatcher.py:83-87 | skipping the origin in an enumeration of the pool enumerates exactly the pool's peers away from the origin |
| Dispatch.RecipientsAvoidOrigin | dmrtools/dispatcher.py:86-87 | no recipient of a fan-out sits at the origin address |
| Dispatch.RunFromShape | dmrtools/app.py:46-49 | the app loop from app k on: the apps it reaches take their step, the others are untouched, and it stops at the first app that raises, passing that error on |
| Dispatch.RecordAllShape | dmrtools/app.py:46-49 | the first n apps see the frame and the rest do not; the result is Pass exactly when every app passed, and otherwise the error of the last app reached |
| Dispatch.Dispatcher.constructor | dmrtools/dispatcher.py:21-26 | a new dispatcher denies every peer and has no peers, no calls and no apps |
| Dispatch.Dispatcher.RegisterApp | dmrtools/app.py:40-44 | an app not yet registered is appended to the list, learns its dispatcher and keeps its state; register returns True |
| Dispatch.Dispatcher.Maintain | dmrtools/dispatcher.py:32-34 | the peer keeper's and then the call keeper's maintenance, with their effects as stated for each |
| Dispatch.Dispatcher.FindOrCreateCall | dmrtools/dispatcher.py:51-62 | the current call of the frame's stream if there is one, otherwise a fresh call made from the frame's ids and type, added to the current set and the log and opened with its route |
| Dispatch.Dispatcher.ProcessCallPacket | dmrtools/app.py:46-49 | the apps' states and the outcome end as RecordAll says |
| Dispatch.Dispatcher.RecordOne | dmrtools/app.py:48-49 | one app takes its record step and no other app changes |
| Dispatch.Dispatcher.DistributeByPeers | dmrtools/dispatcher.py:78-91 | exactly the copies for the route's peers, or every ACTIVE peer without a route, except those at the origin, are sent, each once |
| Dispatch.Dispatcher.SendEach | dmrtools/dispatcher.py:85-91 | the copies for the recipients are sent, in order |
| Dispatch.Dispatcher.SendCopy | dmrtools/dispatcher.py:88-91 | the copy gets the recipient's id and exactly one datagram goes to its address |
| Dispatch.Dispatcher.DispatchTaPacket | dmrtools/dispatcher.py:74-76 | a talker alias is sent to every ACTIVE peer except the origin, each once |
| Dispatch.Dispatcher.AdvanceCall | dmrtools/dispatcher.py:51-67 | the frame's call is found or opened, counts the frame and ends on a terminator; no other call changes |
| Dispatch.Dispatcher.Deliver | dmrtools/dispatcher.py:69-72 | the apps record the frame; if one raised nothing is sent, otherwise the frame is fanned out along the call's route |
| Dispatch.Dispatcher.DispatchDataPacket | dmrtools/dispatcher.py:48-72 | the call is advanced, the apps record the frame, and unless one raised the frame goes to the route, or to every ACTIVE peer, except the origin |
| Dispatch.Dispatcher.DispatchDataPacketAsWritten | dmrtools/dispatcher.py:48-64 | as written, every frame raises TypeError once the call has been found or opened: nothing is counted, no app sees the frame and nothing is sent |
| Dispatch.Dispatcher.RouteData | dmrtools/dispatcher.py:117-118 | a DMRD frame sends nothing when an app raised, and otherwise copies only to addresses other than its origin |
| Dispatch.Dispatcher.RouteAlias | dmrtools/dispatcher.py:120-121 | a DMRA packet sends copies only to addresses other than its origin |
| Dispatch.Dispatcher.Route | dmrtools/dispatcher.py:117-121 | DMRD is dispatched as a call frame, DMRA as a talker alias, anything else is ignored and sends nothing |
| Dispatch.Dispatcher.Handle | dmrtools/dispatcher.py:112-121 | the controller handles the packet as the transition Step says, and the packet goes on only when the controller lets it through |
| Dispatch.Dispatcher.Receive | dmrtools/dispatcher.py:97-121 | data the factory refuses is dropped with nothing sent and the peer untouched; otherwise it is handled as Step and the routing say |
| Dispatch.Dispatcher.RecvDg | dmrtools/dispatcher.py:95-121 | the address always gets a peer entry first, new at LOGIN or existing; then the datagram is received from that peer's state |
| Dispatch.Dispatcher.InjectPacket | dmrtools/dispatcher.py:125-127 | an app's frame is dispatched like a received one from no address; without a route it reaches exactly every ACTIVE peer |
| Api.PeerInfoOf | api/dmrapi.py:23-31 | the entry's name is the peer's decimal id once bound and its address before; its units are the peer's unit ids and its status the peer's |
| Api.CallInfoOf | api/dmrapi.py:47-61 | broadcast exactly when the call has no route, with an empty route list then; the route names are exactly the routed peers' names; ended and duration are the call's own |
| Api.MinExists | api/dmrapi.py:20-21 | a non-empty set has an element with the least key |
| Api.SortBy | api/dmrapi.py:20-21 | every element of the set exactly once, in ascending key order |
| Api.GetPeers | api/dmrapi.py:16-33 | no entry without a dispatcher; otherwise one entry per registered peer, in ascending connect time |
| Api.GetCalls | api/dmrapi.py:36-63 | no entry without a dispatcher; otherwise the logged calls newest first, cut to the first fifty, and no call left out started later than one shown |
| Api.LengthOfEnumeration | api/dmrapi.py:44 | a list of distinct elements that covers a set has the set's size, so the cut is taken exactly when more than fifty calls are logged |
| HexDump.HexByte | dmrtools/pphex.py:5 | exactly two hex digits that read back as the byte |
| HexDump.HexColumn | dmrtools/pphex.py:5 | three characters per byte less the last separator, none for no byte |
| HexDump.HexColumnPair | dmrtools/pphex.py:5 | byte j's two digits sit at columns 3j and 3j+1, and a space follows every pair but the last |
| HexDump.HexColumnChars | dmrtools/pphex.py:5 | the hex column holds only hex digits and spaces |
| HexDump.JustifyAt | dmrtools/pphex.py:7 | left-justifying keeps the text and pads it with spaces up to the width, never cutting it |
| HexDump.AsciiChar | dmrtools/pphex.py:6 | a printable byte (32 to 126) is its own character, any other byte is '.', and never a newline |
| HexDump.AsciiColumn | dmrtools/pphex.py:6 | one character per byte |
| HexDump.AsciiColumnAt | dmrtools/pphex.py:6 | character j of the ASCII column is byte j's character |
| HexDump.Chunk | dmrtools/pphex.py:4 | a chunk starting inside the data holds between one and width bytes |
| HexDump.LayoutAt | dmrtools/pphex.py:7 | the offset, ": ", the hex column, a space and the ASCII column sit in that order at those columns |
| HexDump.Offsets | dmrtools/pphex.py:3 | every offset lies between the start and the data length |
| HexDump.OffsetColumn | dmrtools/pphex.py:7 | the offset text has at least four hex digits and reads back as the offset |
| HexDump.HexColumnJustified | dmrtools/pphex.py:5-7 | the justified hex column is width*3 characters, byte j's pair at 3j, hex digits and spaces only |
| HexDump.AsciiColumnText | dmrtools/pphex.py:6 | the ASCII column has one character per byte, byte j's at j |
| HexDump.LayoutLaidOut | dmrtools/pphex.py:7 | well-formed columns lay out into a line of length offset+3+3*width+chunk with every byte's pair and character at its column and no newline |
| HexDump.LineLayout | dmrtools/pphex.py:4-7 | every line is laid out from its chunk behind an offset text that reads back as its offset |
| HexDump.SplitJoin | dmrtools/pphex.py:8 | joining newline-free lines with '\n' and splitting at '\n' gives the lines back |
| HexDump.JoinLast | dmrtools/pphex.py:8 | the join ends with its last line |
| HexDump.LinesShape | dmrtools/pphex.py:3-7 | no line for no data; otherwise just enough lines to cover the data, line k being the line of the chunk at k*width |
| HexDump.DumpLines | dmrtools/pphex.py:1-8 | the dump of empty data is empty; otherwise it splits back into exactly its lines and does not end in a newline |
| HexDump.Hexdump | dmrtools/pphex.py:1-8 | the result is Dump's: ValueError for width 0, empty text for a negative width, the joined lines otherwise |
| HexDump.CollectLines | dmrtools/pphex.py:2-7 | the loop collects exactly the line of each offset of range(0, len(data), width), in order |

## Left out

- Asynchronous UDP I/O (`asyncnetwork.py`, `network.py` transports) and the UDP proxies (`udpproxy.py`, `udpproxylogger.py`). The sender is modelled as an outbox of (bytes, address) pairs.
- The asyncio maintenance task and task creation in the dispatcher. `Dispatch.Dispatcher.Maintain` models one tick of it.
- `Dispatcher.shutdown`: it only sends a close to each peer in set order during process exit.
- The body of the parrot replay loop: the `asyncio.sleep` pacing on a 60 ms monotonic schedule, and the `inject_packet` call per recorded frame. It is an asyncio task interleaved with other traffic. The model covers how a replay starts (`Parrot.ParrotApp.BeginRepeat`), how it ends (`Parrot.ParrotApp.EndRepeat`) and a single injection (`Dispatch.Dispatcher.InjectPacket`).
- Logging, `__str__`, `__repr__`, `logname` and the `{:.1f}s` duration formatting. Durations stay integers.
- SHA-256, the BPTC/Hamming decoders and the full LC classes from `lc_util.py`. They are parameters or opaque byte values, because they are arithmetic over external algorithms.
- Randomness (the auth salt): passed in as a parameter.
- Floating-point wall-clock time: replaced by an integer `now` supplied by the caller.
- Enum `.name` strings: statuses and types stay enum values.
- Iteration order of Python sets and dicts. Where the source iterates a set, the model takes some enumeration of it, and results are stated for every order.
- Exceptions: modelled as `Result`/`Outcome` error values. Python's traceback and logging paths are not modelled.
- The FastAPI/uvicorn HTTP layer of `api/dmrapi.py`. Only the snapshot functions behind the routes are modelled.
- The `__main__` demo in `pphex.py`.
- The entry points `dmrmaster.py`, `localmaster.py` and `relog.py`: configuration loading and process start-up.
- `IPCDispatcher.get_peer_keeper` and `get_peer_auth`: the controller reads the registry and the policy as fields of the dispatcher model.
- `set_receiver` wiring between transport and dispatcher.
- Dispatch.Dispatcher.RegisterApp: registering an app that is already registered is not modelled. The source appends it again, and it would then record every frame twice. The model keeps one entry per app object so that each app's state is updated once per frame.
- MmdvmL1.FromDatagram: builds a fresh packet factory for each datagram instead of reusing the lazily built singleton (`Factory.Singleton.Fd`). Nothing in the modelled core registers extra classes with it, so both classify with the default classes.

## Findings

| source | as written | input that shows it | evidently intended | confidence | as-written member | corrected member |
|---|---|---|---|---|---|---|
| dmrtools/dispatcher.py:64 | `call.packet_received(p)` passes a packet to `Call.packet_received`, which takes no argument (call.py:59), so the call raises TypeError | any DMRD data packet from an ACTIVE peer | update the call's last-packet time and count, then end on a terminator, notify the apps and fan the frame out | not executed | Dispatch.Dispatcher.DispatchDataPacketAsWritten | Dispatch.Dispatcher.DispatchDataPacket |
| dmrtools/dmrproto/etsi_l2.py:21-22 | the length check builds the exception object but does not `raise` it, so a burst of the wrong length is accepted | a 32-byte burst | reject any burst that is not 33 bytes | not executed | EtsiL2.SetDataAcceptsShortBurst | EtsiL2.SetData |
