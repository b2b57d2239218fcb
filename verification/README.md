# A verified model of the USB-2 device core

The repository is a USB 2.0 device in VHDL with a ULPI or full-speed serial front end, and
Python programs that build descriptors and network test vectors for it.  This project models
its transmit and receive path, its protocol engines and its two binary formats in Dafny and
proves what they promise, for every input, every run and every packet.

`dafny verify dfyconfig.toml` checks everything; nothing here is executed.

## How it is organised

Each VHDL entity is a module with a register record `Reg`, one next-state equation per
register collected in `Next`, the outputs as functions, and a class whose method `Step` is one
clock edge, written statement by statement like the process it models and proved equal to
`Next`.  A second module (`...Proof`) defines runs over sequences of inputs and holds the
invariants and theorems.  `std_logic` has two values, `L` and `H`; bytes in registers are bit
vectors; counters carry their width explicitly.

| modules | what they model |
|---|---|
| `Logic`, `Bytes` | bits, four-bit counters, little-endian fields |
| `LineCode` | bit stuffing, NRZI and the packet on the line, as pure functions |
| `FslsTx`, `FslsTxProof` | the serial transmitter `Usb2FSLSTx` |
| `FslsRx`, `FslsRxProof`, `FslsRxPacket`, `FslsRxLines`, `FslsRxDrift` | the sampling receiver `Usb2FSLSRxBitShift` with its hand-over, its line state and its clock recovery |
| `SerialLink` | transmitter and receiver joined by the line |
| `Crc`, `CrcDouble` | `UsbCrcTbl`, the bit-serial checksum of the test package, and error detection |
| `PktTx`, `PktTxProof`, `PktTxErrors`, `PktRx`, `PktRxProof`, `PktRules` | the packet layer |
| `PacketPath` | a data packet through all four layers |
| `UlpiIOBuf`, `UlpiIOBufProof`, `UlpiIOBufReg` | the two-byte output buffer of the ULPI port: packets, register operations, aborts |
| `CCSync`, `Mailbox`, `MailboxProof`, `MailboxReset` | the mailbox between two clocks and its resets |
| `LineState`, `LineStateProof`, `LineStateChirp`, `LineStateTimes`, `LineStateSleep`, `LineStateReach` | speed negotiation, start-up, suspend and resume |
| `NtbParser`, `NtbHangs`, `Ntb16`, `NtbProof`, `NtbSent`, `NtbEmitted` | the NTB16 reader and builder of `test/ncm.py` |
| `DescCompiler`, `DescProof`, `DescAccept`, `DescContext`, `DescWalk`, `DescTheorems`, `DescBytes` | the descriptor compiler and the functions that walk its table |

## Main results

- *Serial link.*  For every packet the transmitter's cycles are NRZI of the stuffed bits of
  SYNC, PID and data, the stuff bit owed at the end, two SE0 and J; four samples of each level
  make the receiver deliver exactly those bytes, in any stream of packets and idle time, and
  report the state of the line.  When levels are a sample too short or too long it still takes
  exactly the bits that were sent.
- *Packets.*  Under every schedule of `nxt` the packet transmitter emits TXCMD, payload and
  complemented checksum; the receiver forwards a data packet without its last two bytes and
  clears its error flag exactly when the residue is right; the two are joined through the line.
  Aborts and stream errors are reported once, and no more.
- *Checksum.*  The table form is the bit-serial form; any error confined to 16 consecutive
  bits, and any odd number of flipped bits, is detected.  Two flipped bits go unnoticed exactly
  when their distance is a multiple of 32767 (data) or 31 (tokens), so never within a packet.
- *Output buffer.*  While the link keeps the bus the buffer is a two-place queue that closes
  itself with one stop cycle and one report, for packets, register writes and register reads; it
  is known exactly when the PHY's taking the bus is an abort.
- *Mailbox.*  For any numbers of stages and any interleaving or coincidence of the two clocks
  there is one token; the sides alternate and every word is exchanged once, after an exact
  number of edges, also when the two resets are released one after the other.
- *Line state.*  High speed is entered from the handshake only after six clean phases K, J, K,
  J, K, J and in time.  A host that shows K and J in turn, each for more than 10 us and all of it
  within 1180 us, always gets there; listening always ends.  A busy high-speed link is kept
  and a silent one left after 3 ms.  Every timed state has exact bounds; the mode of the PHY always
  fits the state of the machine; the start-up writes the PHY's registers in order; runs from
  power-up reach each of these states.
- *Formats.*  A wrapped NTB16 block reads back as what was put in, if and only if its tables
  fit the reader's limit, and the reader's loops end exactly when no table and no position is met
  twice.  The descriptor compiler accepts a list exactly when every descriptor finds before it what
  it needs, and its single pass computes what the structure of the list defines; the VHDL walkers
  list a device's configurations if and only if no type from 0x80 on hides one.

## What was found

- The receiver's `err` output can rise *after* a good packet, once `active` is already low: the
  two SE0 bit times are read as two more bits, after five ones at K as the sixth and seventh one.
  `FslsRxPacket.GoodPacketReceived` gives the exact condition (the last five bits on the line,
  stuffed zeros counted, are ones that follow a zero, and the line rests at K) and
  `FslsRxPacket.LateFlagExample` a legal IN token that raises the flag.  While `active` is high no
  error is flagged.
- Switching `usb2HiSpeedEn` off while a high-speed device resumes leaves `usb2HiSpeed` up in
  full speed.  `LineStateProof.SpeedsStep` shows that this is the only situation,
  `LineStateProof.StaleFlagSurvives` the five clocks that lead on from it, and
  `LineStateReach.StaleIsReached` a run from power-up that meets it.
- A byte offered to the output buffer in its stop cycle is acknowledged, and then stuck or lost
  (`UlpiIOBufProof.StopCycleIsDeaf`).
- A reset of one side of the mailbox alone, in the middle of a run, does not always leave exactly
  one token in the ring; `MailboxReset.ResetAloneA` and `ResetAloneB` say exactly when it does.
- A byte that is stuck in the output buffer leaves behind the first byte of the next packet
  (`UlpiIOBufProof.StuckByte`).
- A packet whose stream reported an error leaves with a valid checksum when its end is taken
  without a pause (`PktTxErrors.ErrorIsOnlyNoted` and `ChecksumOfFailure`); at high speed nothing
  else tells of the error.
- The sequence counter of `NTH16` is counted in each header by itself: every block is number 1
  (`NtbEmitted.EmitWrapped`).
- A transfer block wrapped with `hasBlockLen=False` cannot be parsed by the same file
  (`NtbProof.NoLengthRaises`), and one with a table of more than 22 datagrams is refused
  (`NtbProof.RoundTrip`).
- `usb2DescIsSentinel` looks at one bit only, so a walk that should stop at the sentinel stops
  at any descriptor type from 0x80 on; the compiler's sentinel is 0xFF.  The configuration table
  is complete if and only if no such type stands before one of the device's configurations
  (`DescTheorems.ConfigTable`); `DescTheorems.HighTypeHidesConfig` is a list the compiler accepts
  and whose table misses one.
- The chain of tables in a received block may refer back to itself; the parser then never
  returns.  `NtbHangs.ChainHangsIff` and `BlockHangsIff` show that this happens exactly when the
  links lead to some table twice, and `NtbHangs.SelfLinkedHangs` is such a block of 28 bytes.
  The loop over blocks has a second endless case: a block without tables whose length is 0
  (`NtbHangs.BlocksHangIff`, `NtbHangs.EmptyBlockHangs`).
- Reading a table lets it grow, so that a missing terminator goes unnoticed from two datagrams on
  (`NtbEmitted.MissingTerminator`).

## Assumptions

- Serial transmitter: the user holds `data` from the `rdy` cycle until the byte is loaded, and
  brings the stop after the last byte, as the test bench does.  Receiver: exactly four samples
  per bit, an idle line between packets; `FslsRxDrift` is about the bits taken in between.
- Packet transmitter: no abort, underrun or error from the stream except in `PktTxErrors`.  Packet receiver: `nxt` only
  with `dir` high.
- Output buffer: the PHY leaves the bus to the link, the user offers its bytes without a gap and
  nothing in the stop cycle.
- Mailbox: after both resets are released neither is raised again; metastability is not modelled.
- Line state: the enable is constant in `EveryRun`; `SpeedsStep` says exactly why.
- NTB16: a block has a pointer table and is shorter than 65536 bytes, and every datagram attached
  to a listed table is listed.
- Descriptors: the numbers are right for compilable lists (`DescCompiler.Compilable`): devices have
  configurations, which have interfaces, and any other type may stand among them.  The walkers need
  well-formed ones (`DescCompiler.WellFormed`): at least one device, a sentinel between any two and
  none at the end; strings of at most 253 bytes.  Numbers that do not fit their field are reduced to
  its width, as in the original.

## Model

| member | source | states |
|---|---|---|
| `LineCode.UnstuffStuff` | core/hdl/Usb2FSLSTx.vhd:124-135 | un-stuffing a stuffed bit string gives the bits back, from any count of ones |
| `LineCode.UnstuffOwed` | core/hdl/Usb2FSLSTx.vhd:165-172 | with the stuff bit owed at the end of the packet nothing is left over and the count starts afresh |
| `LineCode.StuffInjective` | core/hdl/Usb2FSLSTx.vhd:124-135 | different bit strings stay different on the line |
| `LineCode.NoSevenOnes` | core/hdl/Usb2FSLSTx.vhd:124-135 | a stuffed line never shows seven ones in a row |
| `LineCode.UnNrziNrzi` | core/hdl/Usb2FSLSTx.vhd:130-135 | NRZI decoding undoes encoding, from either level |
| `LineCode.StuffSync` | core/hdl/Usb2FSLSTx.vhd:104-111 | the SYNC is sent unstuffed and its final one counts for what follows |
| `LineCode.StuffLength` | core/hdl/Usb2FSLSTx.vhd:124-135 | stuffing never shortens a bit string and adds at most one bit for every six |
| `FslsTx.Usb2FSLSTx.Step` | core/hdl/Usb2FSLSTx.vhd:85-203 | one clock of the transmitter, every register |
| `FslsTxProof.StartCycle` | core/hdl/Usb2FSLSTx.vhd:106-122 | the cycle that sees the command already sends the first level; the rest of the packet line is to come |
| `FslsTxProof.Advance` | core/hdl/Usb2FSLSTx.vhd:124-182 | every cycle sends the next level of the packet line and keeps the shift register, the stuff count and the `nxt`/`rdy`/`stp` pipeline in step with it, also when a stuffed bit comes between |
| `FslsTxProof.TransmitterSendsPacketLine` | core/hdl/Usb2FSLSTx.vhd:106-182 | over any honest run the levels sent are a beginning of the packet line, all of it once the machine is idle again, for good and for spoilt packets |
| `FslsTxProof.IdleCycle` | core/hdl/Usb2FSLSTx.vhd:106-122 | without a command the transmitter rests and holds J |
| `FslsTxProof.DrivesK` | core/hdl/Usb2FSLSTx.vhd:113-122 | while a K is asked for the line is driven to K in the same cycle, whatever else is offered, and the transmitter stays at rest |
| `FslsTxProof.ActiveWhileSending` | core/hdl/Usb2FSLSTx.vhd:113-151 | in every reachable state `active` is up exactly from the cycle after the command to the last bit, and the drivers are off exactly in IDLE without a command or a request for K |
| `FslsTxProof.DifferentialPair` | core/hdl/Usb2FSLSTx.vhd:186-208 | in every reachable state vm is the complement of j, or both are low for SE0 |
| `FslsTxProof.Send` | test/Usb2FSLSTb.vhd:343-372 | driving the entity as the test bench does puts exactly the packet line of PID and payload on the wire, with the filler if the status is set |
| `FslsRx.Usb2FSLSRxBitShift.Step` | core/hdl/Usb2FSLSRxBitShift.vhd:89-235 | one sample clock and, every fourth time, the output clock: all registers of both processes, the line state and the two resets |
| `FslsRxProof.RunBit` | core/hdl/Usb2FSLSRxBitShift.vhd:107-139 | four equal samples in RUN take exactly one bit: shift register, bit count, stuff count and error |
| `FslsRxProof.HandOver` | core/hdl/Usb2FSLSRxBitShift.vhd:218-235 | whatever the phase of the output clock, a completed byte is handed over exactly once before the next one |
| `FslsRxProof.ReceiveLine` | core/hdl/Usb2FSLSRxBitShift.vhd:107-139 | over any line the bytes delivered and pending are the whole bytes of the un-stuffed bits, and no error is flagged |
| `FslsRxPacket.Acquire` | core/hdl/Usb2FSLSRxBitShift.vhd:142-163 | the eight levels of SYNC bring a ready receiver into RUN at a bit boundary, with the final one counted |
| `FslsRxPacket.Close` | core/hdl/Usb2FSLSRxBitShift.vhd:183-201 | two SE0 and a J end the packet, deliver no further byte and leave the receiver ready |
| `FslsRxPacket.GoodPacketReceived` | core/hdl/Usb2FSLSRxBitShift.vhd:107-201 | the samples of any packet line deliver exactly its bytes, with no error while active; the flag rises afterwards if and only if the bits on the line, stuffed zeros counted, end in exactly five ones and the line rests at K |
| `FslsRxPacket.LateFlagExample` | core/hdl/Usb2FSLSRxBitShift.vhd:123-126 | the IN token 69 1F F8 (address 31, endpoint 0, valid check bits) is delivered, is clean while active, and raises the flag afterwards |
| `FslsRxPacket.SpoiltPacketReceived` | core/hdl/Usb2FSLSRxBitShift.vhd:123-138 | a packet with error status delivers all its bytes and not the filler, and the error flag is seen while the packet is active |
| `FslsRxPacket.IdleSample` | core/hdl/Usb2FSLSRxBitShift.vhd:142-155 | an idle line keeps a ready receiver ready and silent |
| `FslsRxPacket.PowerUp` | core/hdl/Usb2FSLSRxBitShift.vhd:60-75 | from power-up an idle line makes the receiver ready |
| `FslsRxLines.LinesReported` | core/hdl/Usb2FSLSRxBitShift.vhd:107-232 | for any levels of four samples each, the line state register shows the last level, 01 for J and 10 for K at full speed, reversed at low speed, 00 for SE0, and the output what the register showed at its latest edge |
| `FslsRxLines.SyncReported` | core/hdl/Usb2FSLSRxBitShift.vhd:107-115 | during the sync pattern every sampled level is shown at once |
| `FslsRxLines.ReadyReportsJ` | core/hdl/Usb2FSLSRxBitShift.vhd:183-190 | a ready receiver has just seen J |
| `FslsRxLines.PowerUpReportsJ` | core/hdl/Usb2FSLSRxBitShift.vhd:60-75 | from power-up one bit time of J makes the line state J |
| `FslsRxDrift.LevelTaken` | core/hdl/Usb2FSLSRxBitShift.vhd:165-181 | a level of m bits that lasts 4m-1 to 4m+1 samples gives exactly one zero and m-1 ones, from each of the four places of the sampling point, which is pulled back by a sample when it is first or last |
| `FslsRxDrift.DriftFollowed` | core/hdl/Usb2FSLSRxBitShift.vhd:107-181 | over any number of such levels exactly the bits of the line are taken and the receiver never loses step |
| `FslsRxDrift.SyncLost` | core/hdl/Usb2FSLSRxBitShift.vhd:167-181 | any other pattern around a sampling point is flagged, and the flag stays |
| `FslsRxDrift.StateChanges` | core/hdl/Usb2FSLSRxBitShift.vhd:142-201 | which five samples in a row change the receiver's state, and how |
| `FslsRxDrift.ErrorRises` | core/hdl/Usb2FSLSRxBitShift.vhd:107-181 | the error rises for a seventh one, or in a packet for a lost step, and for nothing else |
| `FslsRxDrift.ActiveExactlyInRun` | core/hdl/Usb2FSLSRxBitShift.vhd:157-201 | in every reachable state the receiver is active exactly in RUN |
| `FslsRxDrift.BufferKept` | core/hdl/Usb2FSLSRxBitShift.vhd:101-136 | a byte that waits to be handed over is not overwritten |
| `FslsRxDrift.ResetsActAlone` | core/hdl/Usb2FSLSRxBitShift.vhd:207-234 | what each of the two resets does, and that without them nothing is reset |
| `FslsRxDrift.HuntsForJ` | core/hdl/Usb2FSLSRxBitShift.vhd:183-194 | before it has seen a J the receiver takes nothing for a packet |
| `SerialLink.SerialRoundTrip` | core/hdl/Usb2FSLSTx.vhd:104-184 | for every PID and byte list, what the transmitter entity sends in any honest run makes the receiver entity deliver the PID byte and those bytes |
| `SerialLink.StreamReceived` | core/hdl/Usb2FSLSRxBitShift.vhd:107-201 | any number of packets with idle time between them arrive complete and in order |
| `Crc.CrcTbl` | core/hdl/UsbCrcTbl.vhd:25-40 | the loop computes eight steps of the shift register on the zero-extended byte |
| `Crc.TstCrc` | test/Usb2TstPkg.vhd:346-361 | the loop is the bit-serial checksum, least significant bit first |
| `Crc.UpdateIsSerial` | core/hdl/Usb2PktTx.vhd:158-158 | table value xor shifted state equals eight bit-serial steps, for every state, byte and polynomial |
| `Crc.UpdatesIsSerial` | test/Usb2TstPkg.vhd:346-361 | the byte form equals the bit-serial form for every message and start state |
| `Crc.ResidueConstant` | core/hdl/Usb2Pkg.vhd:133-135 | appending the complemented checksum to any message gives the residue B001 |
| `Crc.AcceptedIff` | core/hdl/Usb2PktRx.vhd:112-114 | a message with two further bytes has that residue if and only if they are its complemented checksum |
| `Crc.WindowDetected` | core/hdl/UsbCrcTbl.vhd:29-37 | two bit strings that differ only inside a window as wide as the polynomial end in different states, for any polynomial of full degree |
| `Crc.BurstDetected` | core/hdl/Usb2PktRx.vhd:183-183 | two data streams that differ only inside some 16 consecutive bits are never both accepted |
| `Crc.OddErrorDetected` | core/hdl/Usb2PktRx.vhd:183-183 | two data streams that differ in an odd number of bits are never both accepted |
| `Crc.TokenAcceptedIff` | core/hdl/Usb2PktRx.vhd:173-175 | a token's 16 bits pass the five bit check if and only if the last five are its complemented checksum |
| `CrcDouble.DoubleError` | core/hdl/UsbCrcTbl.vhd:29-37 | for any polynomial of full degree, start value and message, two wrong bits leave the register as it was if and only if the polynomial comes back after as many steps as lie between them |
| `CrcDouble.DataOrder` | core/hdl/Usb2Pkg.vhd:133-135 | the data polynomial comes back after every multiple of 32767 steps and at no other time |
| `CrcDouble.TokenOrder` | core/hdl/Usb2PktRx.vhd:173-175 | the token polynomial comes back after every multiple of 31 steps and at no other time |
| `CrcDouble.DoubleErrorDetected` | core/hdl/Usb2PktRx.vhd:183-183 | of two data streams of any length that differ in exactly two bits at most one is accepted, unless the bits are a multiple of 32767 apart, when they are accepted or refused together |
| `CrcDouble.PacketDoubleError` | core/hdl/Usb2PktRx.vhd:183-183 | of two data streams of up to 1024 bytes and checksum that differ in exactly two bits at most one is accepted |
| `CrcDouble.TokenDoubleError` | core/hdl/Usb2PktRx.vhd:173-175 | two wrong bits change the five bit checksum if and only if they are not a multiple of 31 apart; always within the 16 bits of a token |
| `PktTx.Usb2PktTx.Step` | core/hdl/Usb2PktTx.vhd:83-256 | one clock of the packet transmitter, every register |
| `PktTxProof.StartCycle` | core/hdl/Usb2PktTx.vhd:98-119 | a stream, or an empty packet, starts a frame, the command byte first on offer |
| `PktTxProof.SendCycleKeeps` | core/hdl/Usb2PktTx.vhd:137-198 | in every cycle the byte on offer is the next byte of the frame, or nothing once all are taken; register, multiplexer and checksum agree with the count of bytes taken |
| `PktTxProof.NoErrorBelow` | core/hdl/Usb2PktTx.vhd:224-224 | in every cycle of an honest stream no error is passed down, at either speed |
| `PktTxProof.TransmitterSendsFrame` | core/hdl/Usb2PktTx.vhd:97-245 | for every schedule of `nxt`, after n pulses exactly the first n bytes of command, payload and complemented checksum are taken, without error |
| `PktTxProof.PacketDone` | core/hdl/Usb2PktTx.vhd:204-218 | the report from below ends the packet with one `don` and no error and frees the transmitter |
| `PktTxProof.EmptyPackets` | core/hdl/Usb2PktTx.vhd:107-118 | an empty data packet carries a checksum field of zeros, a handshake none |
| `PktTxErrors.AbortedBelow` | core/hdl/Usb2PktTx.vhd:141-149 | a report from below in the middle of a frame ends it at once, with one `don` and `err`, and frees the transmitter |
| `PktTxErrors.ErrorKept` | core/hdl/Usb2PktTx.vhd:150-191 | the error is up if and only if the stream failed, and is passed down at full speed alone |
| `PktTxErrors.ErrorReported` | core/hdl/Usb2PktTx.vhd:150-191 | over any run of a packet the error is up at the end if and only if the stream failed somewhere |
| `PktTxErrors.ErrorIsOnlyNoted` | core/hdl/Usb2PktTx.vhd:181-191 | an error that the stream reports changes neither the bytes sent nor the checksum register, for any run of the stream |
| `PktTxErrors.RunsDry` | core/hdl/Usb2PktTx.vhd:150-160 | what a stream that runs dry sends, stores and notes |
| `PktTxErrors.DoneReported` | core/hdl/Usb2PktTx.vhd:141-218 | `don` comes exactly for a report from below |
| `PktTxErrors.ChecksumOfFailure` | core/hdl/Usb2PktTx.vhd:160-248 | the two checksum bytes taken after any waits are the complement of the register if and only if there was no error or neither byte had to wait |
| `PktRules.PidGroups` | core/hdl/Usb2Pkg.vhd:638-651 | which of the sixteen PIDs are tokens, handshakes and data |
| `PktRules.PidSent` | core/hdl/Usb2PktTx.vhd:103-111 | the transmitter's command byte carries the low nibble of the user's PID behind 0x4, and data PIDs are those of the receiver |
| `PktRules.PidValid` | core/hdl/Usb2PktRx.vhd:134-140 | a PID byte is valid if and only if its nibbles add up to fifteen |
| `PktRules.ActiveCycles` | core/hdl/UlpiPkg.vhd:214-230 | when a cycle of the bus belongs to a packet, and when it carries a status byte |
| `PktRules.StatusKept` | core/hdl/Usb2PktRx.vhd:76-95 | after any cycles the receiver keeps the last status byte |
| `PktRules.QuietReceiver` | core/hdl/Usb2PktRx.vhd:76-95 | from power-up, without a packet, nothing is announced, handed on or judged |
| `PktRules.FreeTransmitter` | core/hdl/Usb2PktTx.vhd:97-104 | without a command the transmitter stays free and silent |
| `PktRules.StatusIsZero` | core/hdl/Usb2PktTx.vhd:236-240 | the cycle that closes a frame carries the status zero |
| `PktRx.Usb2PktRx.Step` | core/hdl/Usb2PktRx.vhd:76-210 | one clock of the packet receiver, every register |
| `PktRxProof.DataReceived` | core/hdl/Usb2PktRx.vhd:107-194 | for every byte stream and pattern of waits a data packet is announced once, all bytes but the last two are forwarded in order, `don` comes once, and `err` is clear exactly when the stream is accepted |
| `PktRxProof.TokenReceived` | core/hdl/Usb2PktRx.vhd:140-176 | a token is announced, with its eleven bits, if and only if it has exactly two bytes and the right check bits |
| `PktRxProof.HandshakeReceived` | core/hdl/Usb2PktRx.vhd:97-103 | a handshake is announced if and only if nothing follows its PID |
| `PktRxProof.OthersIgnored` | core/hdl/Usb2PktRx.vhd:134-156 | a packet with a corrupted or special PID announces nothing and forwards nothing |
| `PacketPath.DataPacketPath` | core/hdl/Usb2PktTx.vhd:97-245 | for every data PID and payload: packetised, serialised, received and parsed, the same payload comes out, `don` once, no error |
| `UlpiIOBuf.UlpiIOBuf.Step` | core/hdl/UlpiIOBuf.vhd:120-288 | one clock of the output buffer, every register |
| `UlpiIOBufProof.BufferIsQueue` | core/hdl/UlpiIOBuf.vhd:140-196 | each clock is one move of a queue of two bytes: what is acknowledged, what the PHY takes, when `txDon` comes, never `txErr`; a buffered byte has a valid byte ahead of it |
| `UlpiIOBufProof.PacketLeaves` | core/hdl/UlpiIOBuf.vhd:140-196 | for any pattern of `nxt` the PHY gets the accepted bytes in order, then one stop cycle with the status; the packet is reported once; two pulses and two cycles after the last byte are always enough |
| `UlpiIOBufProof.StopCycleIsDeaf` | core/hdl/UlpiIOBuf.vhd:144-188 | a byte offered in the stop cycle is acknowledged and then stuck in the buffer or dropped |
| `UlpiIOBufProof.StuckByte` | core/hdl/UlpiIOBuf.vhd:144-158 | a stuck byte stays until the next packet, whose first byte it follows, or until a stray `nxt` drops it |
| `UlpiIOBufReg.RegisterLeaves` | core/hdl/UlpiIOBuf.vhd:140-193 | for any pattern of `nxt` a register operation's bytes leave in order, then one stop cycle with data 0 for a write and none for a read; it is reported once, without error, and two pulses and one cycle are always enough |
| `UlpiIOBufReg.BusTaken` | core/hdl/UlpiIOBuf.vhd:246-254 | the PHY's taking the bus in the middle of a packet is an abort if and only if a byte had been accepted or is in that cycle; it is reported once with an error and leaves nothing under way; otherwise the bytes stay |
| `UlpiIOBufReg.AcceptedBefore` | core/hdl/UlpiIOBuf.vhd:127-138 | over any run of a packet the PHY counts as having accepted a byte if and only if it has pulsed `nxt` |
| `UlpiIOBufReg.StartMissed` | core/hdl/UlpiIOBuf.vhd:194-254 | a first byte that meets the PHY's taking the bus for a status byte is kept back without an abort, for as long as that lasts |
| `UlpiIOBufReg.RegisterPreempted` | core/hdl/UlpiIOBuf.vhd:127-138 | a register operation is aborted by any takeover once it has been on the bus for a cycle |
| `UlpiIOBufReg.BusRegistered` | core/hdl/UlpiIOBuf.vhd:120-288 | the link sees the bus one clock late, and a turn-around exactly when the direction has just changed |
| `UlpiIOBufProof.ResetOutputs` | core/hdl/UlpiIOBuf.vhd:267-288 | in reset the PHY is stopped and nothing is reported, nor in the cycle after it |
| `UlpiIOBufProof.ResetIsIdle` | core/hdl/UlpiIOBuf.vhd:267-288 | one cycle after reset, with the bus free, the buffer is idle |
| `CCSync.Usb2CCSync.Step` | core/hdl/Usb2CCSync.vhd:41-50 | one clock of the chain |
| `CCSync.DelayLine` | core/hdl/Usb2CCSync.vhd:41-60 | after any inputs stage k holds the input of k clocks ago, so `q` lags by the number of stages |
| `Mailbox.Usb2MboxSync.ClockA` | core/hdl/Usb2MboxSync.vhd:80-111 | the edge of clock A, with reset: toggle, chain, posted and registered word |
| `Mailbox.Usb2MboxSync.ClockB` | core/hdl/Usb2MboxSync.vhd:69-140 | the edge of clock B, with reset |
| `Mailbox.Usb2MboxSync.Step` | core/hdl/Usb2MboxSync.vhd:94-140 | edges of either clock, or of both at once, with either side in reset or not, each side seeing what was there before |
| `MailboxProof.TokenMoves` | core/hdl/Usb2MboxSync.vhd:69-140 | the ring of toggles and chains has exactly one change of level, and every edge moves it by at most one place |
| `MailboxProof.StartsAtB` | core/hdl/Usb2MboxSync.vhd:42-43 | at power-up the token is at side B |
| `MailboxProof.EnabledByToken` | core/hdl/Usb2MboxSync.vhd:91-92 | a side is enabled exactly when the token has reached it; never both |
| `MailboxProof.EdgeExchanges` | core/hdl/Usb2MboxSync.vhd:94-140 | the data registers change only at an enabled edge, and only the register of that side |
| `MailboxProof.ExchangeIsLossless` | core/hdl/Usb2MboxSync.vhd:94-140 | over any run the enables alternate starting with B, and each reads exactly the word posted at the one before |
| `MailboxProof.TurnOfB` | core/hdl/Usb2MboxSync.vhd:91-140 | after A's enable B's comes at exactly the edge of clock B that follows as many as there are stages; the posted word stays put until it is read |
| `MailboxProof.TurnOfA` | core/hdl/Usb2MboxSync.vhd:91-140 | the same from B to A |
| `MailboxProof.RegisteredOutputs` | core/hdl/Usb2MboxSync.vhd:104-150 | the registered outputs show every word read, once and in order, one edge later |
| `MailboxReset.JointReset` | core/hdl/Usb2MboxSync.vhd:69-140 | from any state, one edge of each clock with both resets up leads to the power-up state |
| `MailboxReset.StaggeredRelease` | core/hdl/Usb2MboxSync.vhd:69-140 | from power-up, with the two resets released at any time and in any order, there is one token, B's use comes first, the sides alternate and every word is read once and in order |
| `MailboxReset.ResetAloneA` | core/hdl/Usb2MboxSync.vhd:94-111 | a reset of side A alone leaves one token if and only if no change from H back to L is on its way to B |
| `MailboxReset.ResetAloneB` | core/hdl/Usb2MboxSync.vhd:120-140 | a reset of side B alone leaves one token if and only if A's register is at L and the token is not past B's register |
| `LineState.UlpiLineState.Step` | core/hdl/UlpiLineState.vhd:294-628 | one clock of the machine, all 23 states, timers and requests |
| `LineStateProof.TickCounts` | core/hdl/UlpiLineState.vhd:324-333 | every clock brings every running timer exactly one clock nearer to expiry, for any phase of the prescaler |
| `LineStateProof.TicksAreClocks` | core/hdl/UlpiLineState.vhd:248-333 | left alone for any number of clocks, each of the four timers of the machine counts like a single timer behind the prescaler |
| `LineStateProof.TicksExpire` | core/hdl/UlpiLineState.vhd:248-333 | each of the four timers is seen expired after n clocks if and only if its time, computed from its value and the prescaler's phase, is over |
| `LineStateProof.TimerBound` | core/hdl/UlpiLineState.vhd:248-274 | a timer behind the prescaler, loaded with period p, is seen running for the first (p-2)*600+1 clocks and expired from clock (p-1)*600+1 on; in between exactly by the prescaler's phase |
| `LineStateProof.IdleLineDetected` | core/hdl/UlpiLineState.vhd:375-405 | uninterrupted SE0 in full speed leads to INIT_CHIRP between 1180 and 1190 us after it began and not earlier; uninterrupted J to SUSPEND between 3040 and 3050 us |
| `LineStateTimes.BusyLinkStays` | core/hdl/UlpiLineState.vhd:413-427 | a high-speed run stays in HS_RUN for as long as no stretch of SE0 lasts longer than 3040 us |
| `LineStateTimes.SilentLinkReverts` | core/hdl/UlpiLineState.vhd:413-427 | uninterrupted SE0 leaves HS_RUN between 3040 and 3050 us after the last other line state, or after it was entered, and not earlier, and writes the full-speed mode |
| `LineStateTimes.ReturnDecides` | core/hdl/UlpiLineState.vhd:429-441 | back in full-speed mode the line state between 100 and 110 us later alone decides between reset and suspend |
| `LineStateTimes.FallbackWaits` | core/hdl/UlpiLineState.vhd:443-456 | without high speed enabled a reset leads back to full speed between 3040 and 3050 us later, whatever the line does |
| `LineStateTimes.KIsDriven` | core/hdl/UlpiLineState.vhd:558-600 | K is driven for at least 1180 us, 0x40 and then zeros, and ends with the first byte consumed after 1190 us; the machine returns to the state that asked |
| `LineStateSleep.StartUpWrites` | core/hdl/UlpiLineState.vhd:342-372 | from power-up to the first connection exactly five registers are written, in order and however often a write is repeated, only the first within 5040 us |
| `LineStateSleep.WaitsForBus` | core/hdl/UlpiLineState.vhd:352-363 | nothing is written while the PHY has the bus |
| `LineStateSleep.LineKept` | core/hdl/UlpiLineState.vhd:319-322 | after any run from power-up the line state is that of the PHY's last status byte |
| `LineStateSleep.ConnectsWhenSeen` | core/hdl/UlpiLineState.vhd:365-373 | the first line state that is reported starts full speed with the flags down |
| `LineStateSleep.RemoteWakeup` | core/hdl/UlpiLineState.vhd:493-520 | a calm line keeps the device suspended; a standing request to wake the host is honoured between 5040 and 5050 us after suspend was entered and not earlier |
| `LineStateSleep.ResetFromSuspend` | core/hdl/UlpiLineState.vhd:505-540 | SE0 that stays brings a suspended device into INIT_CHIRP within 601 clocks |
| `LineStateSleep.GlitchIsIgnored` | core/hdl/UlpiLineState.vhd:522-540 | SE0 that is gone again leaves the device suspended between 5040 and 5050 us later |
| `LineStateSleep.ResumeEnds` | core/hdl/UlpiLineState.vhd:541-552 | K is sat out; then SE0 resumes high speed, if that was the speed and is enabled, and J full speed otherwise |
| `LineStateProof.WiredStep` | core/hdl/UlpiLineState.vhd:558-591 | a register request is up only in WRITE_REG, a transmission only in WAIT_K_DON, and the shared states never return to a shared state |
| `LineStateProof.SpeedsStep` | core/hdl/UlpiLineState.vhd:407-456 | each clock keeps the speed, reset and suspend flags in agreement with the state, if and only if it is not the one stale situation |
| `LineStateProof.ModesStep` | core/hdl/UlpiLineState.vhd:342-582 | each clock keeps the PHY's function control register, or the write under way, in agreement with the state |
| `LineStateProof.EveryRun` | core/hdl/UlpiLineState.vhd:342-585 | in every run with a constant enable: FS_RUN has the high-speed flag low and the PHY in full-speed mode, HS_RUN both high, HOST_CHIRP chirp mode and reset asserted, DISCONNECTED the terminations off |
| `LineStateProof.StaleFlagSurvives` | core/hdl/UlpiLineState.vhd:541-552 | from any stale situation full speed is reached with the high-speed flag up in five clocks |
| `LineStateReach.StaleIsReached` | core/hdl/UlpiLineState.vhd:541-552 | a run from power-up meets the stale situation and goes on to full speed with the high-speed flag up |
| `LineStateReach.ReachesEverything` | core/hdl/UlpiLineState.vhd:342-556 | one run from power-up, with the enable up, meets in turn full speed, the host's chirp, high speed, suspend and resume with the flag up |
| `LineStateProof.RequestHeld` | core/hdl/UlpiLineState.vhd:572-614 | a request keeps register, value and return state through any run until it is acknowledged without error, which takes it down |
| `LineStateProof.DisconnectedForEver` | core/hdl/UlpiLineState.vhd:582-614 | DISCONNECTED is never left, with `usb2DisconnectAck` and `usb2Rst` up |
| `LineStateChirp.HandshakeComplete` | core/hdl/UlpiLineState.vhd:458-485 | in every run HS_INIT is entered from HOST_CHIRP only after six phases K, J, K, J, K, J, each seen at least once and with no other line state since the filter timer was last loaded, less than 119*600 clocks after DETECT_CHIRP |
| `LineStateChirp.HighSpeedEntries` | core/hdl/UlpiLineState.vhd:541-546 | the only other way into HS_INIT is resuming a suspended high-speed connection |
| `LineStateChirp.ProperHostIsHeard` | core/hdl/UlpiLineState.vhd:458-485 | a host that in its own time shows K, J, K, J, K, J, each for more than 600 clocks, after any other line states and all within 1180 us, brings the machine into HS_INIT |
| `LineStateChirp.AnsweringHostIsHeard` | core/hdl/UlpiLineState.vhd:458-485 | a host that shows the wanted state whenever the machine looks needs at most 6*601 clocks |
| `LineStateChirp.HostChirpEnds` | core/hdl/UlpiLineState.vhd:458-485 | whatever the host does, every run from power-up that listens and stays connected is in HS_INIT or INIT1 after at most 119*600+1 clocks |
| `NtbParser.ParseDgrams` | test/ncm.py:37-42 | the inner loop, on a table that grows while datagrams are attached, gives the entries up to the first zero index |
| `NtbParser.ParseChain` | test/ncm.py:34-43 | the chain loop gives every table's datagrams, or an exception, or the outcome `Hangs` |
| `NtbHangs.ChainHangsIff` | test/ncm.py:34-43 | the outcome `Hangs` stands for exactly the chains on which the loop as written goes on for every number of turns, which are exactly those whose links lead to some table twice |
| `NtbHangs.DgramsNeverHang` | test/ncm.py:37-42 | the inner loop always ends |
| `NtbHangs.BlockHangsIff` | test/ncm.py:22-44 | reading a block never ends if and only if its header is good and its links lead to some table twice |
| `NtbHangs.RisingLinksReturn` | test/ncm.py:34-43 | a chain whose links lead further up, or are 0, wherever the loop stands is always left |
| `NtbSent.SentClimbs` | test/ncm.py:34-43 | the chain of a wrapped block does so, whatever its datagrams and what follows it contain |
| `NtbSent.SentReturns` | test/ncm.py:22-44 | reading a wrapped block always ends, also when its tables are too long for the reader |
| `NtbHangs.SelfLinkedHangs` | test/ncm.py:34-43 | a block of 28 bytes whose only table is linked to itself |
| `NtbParser.ParseBlocks` | test/ncm.py:432-442 | reading blocks back to back by their lengths |
| `NtbHangs.BlocksHangIff` | test/ncm.py:432-442 | the loop over blocks never ends if and only if it reaches a block whose chain never ends or one that reads well and has length 0 |
| `NtbHangs.LengthZeroIsEmpty` | test/ncm.py:22-44 | a block that reads well and has length 0 has no table |
| `NtbHangs.EmptyBlockHangs` | test/ncm.py:432-442 | twelve bytes of header on which the loop over blocks never ends |
| `Ntb16.Builder.NewNdp` | test/ncm.py:283-299 | a new table, whose fourth byte, 31 or 30, says whether it was made with checksums, which no other method changes |
| `Ntb16.Builder.NewDgram` | test/ncm.py:186-190 | a new datagram, which makes room for its entry in the table |
| `Ntb16.Builder.Add` | test/ncm.py:56-63 | an object is listed once, not in a closed block, and a table in one block only |
| `Ntb16.Place` | test/ncm.py:78-82 | every listed object gets the sum of the lengths before it as its index; nothing else changes |
| `Ntb16.Fixup` | test/ncm.py:348-354 | the entries of a table are written in order |
| `Ntb16.Patch` | test/ncm.py:88-93 | after the loop every table has its entries and the link to the next table in the list, and the header the link to the first |
| `Ntb16.Builder.Wrap` | test/ncm.py:65-93 | closing a block, also a second time: padding, placing, block length, patching; it fails without a table |
| `Ntb16.Builder.Emit` | test/ncm.py:101-103 | the bytes of the block, item after item |
| `NtbEmitted.EmittedHeader` | test/ncm.py:210-227 | an emitted block begins with NCMH, the header's length and its sequence number |
| `NtbEmitted.EmittedTable` | test/ncm.py:283-299 | every emitted table begins with NCM and the digit it was made with |
| `NtbEmitted.EmittedPad` | test/ncm.py:75-77 | padding is zeros |
| `NtbEmitted.EmitWrapped` | test/ncm.py:283-299 | from the builder to the bytes: a table's fourth byte is 31 if and only if it was made with checksums, 30 otherwise, and the block is number 1 |
| `NtbEmitted.FitsIs` | test/ncm.py:307-309 | a block is within the reader's limit if and only if no listed table has more than 22 datagrams |
| `NtbEmitted.FirstTablePlaced` | test/ncm.py:67-77 | the first table stands on the first multiple of 4 behind what is listed before it |
| `NtbEmitted.RefusedTables` | test/ncm.py:301-309 | which tables the reader accepts, byte by byte |
| `NtbEmitted.RefusedBlocks` | test/ncm.py:228-234 | a block that does not begin with NCMH and a header length of 12 is refused |
| `NtbEmitted.MissingTerminator` | test/ncm.py:37-42 | a full table without its terminator is read if it has two datagrams or more, and refused otherwise |
| `NtbProof.SentLaid` | test/ncm.py:65-93 | in a finished block the stored length is its size, every link the offset of the next table or 0, every entry the offset and size of its datagram |
| `NtbProof.FirstTableAligned` | test/ncm.py:68-77 | the header's link is not zero and a multiple of 4 |
| `NtbProof.OffsetsIncrease` | test/ncm.py:88-93 | in a finished block every link stored in a table is zero or points strictly further up, inside the block, and the header's link points inside it |
| `NtbProof.RoundTrip` | test/ncm.py:22-44 | a finished block, whatever follows it, is read back as exactly the datagrams attached to its tables, in the order of the list, if and only if no table exceeds 100 bytes; otherwise it is refused |
| `NtbProof.NoLengthRaises` | test/ncm.py:84-88 | a block wrapped without its length is always refused |
| `NtbProof.BlocksRoundTrip` | test/ncm.py:432-442 | any number of finished blocks back to back are read back block by block |
| `NtbProof.Loopback` | test/ncm.py:377-442 | building, wrapping, emitting and parsing gives back what was built |
| `DescContext.Usb2DescContext.Append` | scripts/Usb2Desc.py:304-310 | a descriptor is added at the end, unless the context is closed |
| `DescContext.Usb2DescContext.AddString` | scripts/Usb2Desc.py:131-140 | the index handed out for a string is its place in the table, the same for equal strings; older indices stay valid |
| `DescContext.Usb2DescContext.GetString` | scripts/Usb2Desc.py:142-145 | the string of an index, none below 1; it fails exactly above the table |
| `DescCompiler.Close` | scripts/Usb2Desc.py:168-181 | the numbers of the interface and the configuration under way are stored, or an exception when a variable is missing |
| `DescCompiler.Count` | scripts/Usb2Desc.py:161-211 | the loop over the list |
| `DescAccept.PassGoesIff` | scripts/Usb2Desc.py:161-211 | the pass raises no exception if and only if every descriptor, and the end, finds before it what it needs: a configuration its device, an interface a configuration, an endpoint an interface, a device or the end a complete device |
| `DescProof.PassFills` | scripts/Usb2Desc.py:157-213 | for every compilable list, with or without separating sentinels and with any other types among its descriptors, the loop succeeds and fills in exactly the counts and lengths that the structure of the list defines, and records the devices |
| `DescContext.Usb2DescContext.Wrapup` | scripts/Usb2Desc.py:157-241 | closing succeeds if and only if the list is accepted; the list is then what the pass made of it with crossed qualifiers, language table, strings and sentinel, which for a compilable list is the compiled table |
| `DescContext.InsertQualifiers` | scripts/Usb2Desc.py:220-231 | each of two devices is followed by the qualifier of the other |
| `DescBytes.QualifiersCrossed` | scripts/Usb2Desc.py:220-231 | in the finished table the descriptor after each of the two devices describes the other one: its bytes 2 to 7, its byte 17, which is the number of configurations found there, and a zero |
| `DescBytes.QualifierBytes` | scripts/Usb2Desc.py:516-527 | the same, byte by byte of the emitted table |
| `DescWalk.NextIsStep` | core/hdl/Usb2DescPkg.vhd:260-279 | the step from a descriptor's offset leads to the next descriptor's offset, or -1 at the end and, if asked, at a type with its top bit set |
| `DescWalk.FindType` | core/hdl/Usb2DescPkg.vhd:282-296 | the search gives the offset of the first descriptor of the type, or -1 |
| `DescWalk.FindsType` | core/hdl/Usb2DescPkg.vhd:282-296 | what is found is of the type, nothing before it is, and no sentinel was passed |
| `DescWalk.CountDescriptors` | core/hdl/Usb2DescPkg.vhd:387-403 | the number of descriptors of a type from a place on |
| `DescWalk.DeviceDescriptorIndex` | core/hdl/Usb2DescPkg.vhd:423-432 | the first device, or the one after it |
| `DescWalk.GetNumConfigurations` | core/hdl/Usb2DescPkg.vhd:407-421 | the configurations before the walk stops; it fails exactly when there are none |
| `DescWalk.GetConfigIdxTbl` | core/hdl/Usb2DescPkg.vhd:434-451 | the offsets of the chosen device and of as many configurations as were counted; it fails exactly when none were |
| `DescWalk.NthStringDescriptor` | core/hdl/Usb2DescPkg.vhd:459-485 | the walk over the strings |
| `DescWalk.Emit` | scripts/Usb2Desc.py:252-260 | the bytes in the order of the list |
| `DescTheorems.CompiledRight` | scripts/Usb2Desc.py:157-241 | in the finished table, with qualifiers and strings, every total length and count is that of the descriptors that follow, and configurations are numbered from 1 in each device |
| `DescTheorems.TotalLengthIsDistance` | scripts/Usb2Desc.py:180-211 | each wTotalLength is the distance in bytes to the next configuration, device, sentinel or string |
| `DescTheorems.CountIs` | core/hdl/Usb2DescPkg.vhd:387-403 | configurations are counted up to the first type with its top bit set |
| `DescTheorems.DeviceFound` | core/hdl/Usb2DescPkg.vhd:423-432 | the walker finds the device of the chosen speed, and -1 for high speed in a one-speed table |
| `DescTheorems.ConfigTable` | core/hdl/Usb2DescPkg.vhd:434-451 | the table lists exactly the configurations that precede the first stopping type; these are all of the device's if and only if no type from 0x80 on stands before one; the device states their number and each its place |
| `DescTheorems.HighTypeHidesConfig` | core/hdl/Usb2DescPkg.vhd:260-279 | a list the compiler accepts whose configuration table misses a configuration |
| `DescTheorems.StringFound` | core/hdl/Usb2DescPkg.vhd:459-485 | the n-th string is the one whose index was handed out as n, 0 is the language table, any other number gives -1 |
| `DescBytes.StringBytes` | scripts/Usb2Desc.py:233-238 | the bytes behind the header of the n-th string descriptor are the string handed out as n, and those of string 0 say US English |
| `DescBytes.TableEnds` | scripts/Usb2Desc.py:157-241 | the emitted table begins with a device descriptor, 18 and 1, and ends with the sentinel, 2 and 255 |
| `DescTheorems.CompileAndWalk` | core/hdl/Usb2DescPkg.vhd:434-485 | compiled, emitted and walked: the configuration table and the bytes of a string are those of the context; the table is complete when no high type hides a configuration |

## Left out

- Clock drift through a whole packet: `FslsRxDrift` proves the bits taken; that bytes are handed over is proved for exactly four samples per bit.
- `Usb2FSLSRx` (merging of RXCMD), `UlpiFSLSEmul`, `UlpiIO` register reads and the wiring in `Usb2Core`: the layers are joined at byte level instead.
- `Usb2PktProc`, `Usb2StdCtlEp`, `Usb2Fifo` and the endpoints are not part of this model.
- `Usb2StrmBuf`, the loggers and `Usb2UtilPkg`: they would only add easier members.
- The remaining functions of `Usb2DescPkg.vhd` (maximal endpoint, network and audio properties): more walks of the same kind.
- The many descriptor constructors of `Usb2Desc.py`: a descriptor is any byte sequence of the right length and size; cloning and putting one object into the list twice are not modelled.
- The bit that marks the last byte of a list in `ncm.py`: blocks are emitted without it.
- UTF-16 encoding: a string is its code units.
- The objects of `ncm.py` and `Usb2Desc.py` are numbered records in the fields of the builder and of the context; `Ntb16.Place`, `Ntb16.Patch` and `DescCompiler.Count` compute the records that `Wrap` and `Wrapup` then store, so updates of one object through two names are not modelled.
- `kSeen`, `txReq.err` and `regReq.extnd` of the line state machine never change and have no register here.
- The mailbox after a reset of one side alone: it is stated when one token is left, not which word is then read.
- Metastability, attributes and timing constraints; coinciding edges of the mailbox clocks are an event of their own.
- Ntb16.Builder.Wrap: after the failure without a table, and for a block wrapped twice, only the state is described; the round trip is about the first wrapping.
- DescContext.Usb2DescContext.Wrapup: the half-filled list that an exception leaves behind is not described.
- DescWalk.GetConfigIdxTbl: the simulator's range checks on the index variables (`frm` is a natural) are not modelled.
- FslsRxPacket.GoodPacketReceived: that `err` never rises is proved while `active` is high; afterwards it is false for some packets, and the exact condition is stated.
- LineStateProof.TimerBound: a period of 2, as used for the "20 us" filter, may expire after two clocks; nothing longer is claimed.
