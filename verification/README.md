# Verified model of the USB device test bench

This project models, in Dafny, the parts of the test bench that carry the protocol, and proves what they are
for.

- **The C model of a USB host** (`dv/cip_infra/usbdpi`). `usbdpi_host_to_device` sends transfers one bit interval
  at a time (`HostDriver`, `HostModel`), `usb_monitor` decodes the same wires with shift registers
  (`UsbMonitor`, and `FirstPacket` for the first packet it sees), and `HostRoundTrip` runs the two together;
  `HostLaws` has the last PID, the frame number, VBUS and recovery over runs. `HostDpi` has both as classes that update their
  fields in place, each call tied to its step function. Line coding itself (sections 7.1.7 to 7.1.10 of the USB 2.0
  specification) is `LineCode`; CRCs (section 8.3.5) are `UsbCrc` and `CrcRoutines`; descriptors are `Transfer`.
- **The SystemVerilog agent** (`dv/agent`). The driver codes the same packets with a counter of ones and mirrored CRC
  registers (`AgentDriver`); two decoders, one that drops stuff bits when they come and one that reads ahead, are
  `AgentReceivers` and `AgentMonitor`; `AgentTraffic` says what the monitor tells of the traffic, `AgentJudges` what it
  makes of packets that no driver would send. Signals are one sample per 48 MHz clock, four to the bit; the monitor reads the
  device's pins while the device drives, and the host's otherwise.
- **The streaming host** (`usbdpi_stream.c`). `Streams` says what one call of `streams_service` does, over the values
  that descriptors hold, with `Fault` for a failed assertion or undefined behaviour; `StreamPackets` says exactly what
  a stream makes of a packet; `StreamMoves`, `StreamRuns` and `StreamLaws` prove what that means for a stream over whole
  runs, `StreamAnswers` what the host answers and what the device's answers do, `StreamIso` the same for isochronous
  streams, `StreamRestart`, with the period of the LFSR from `LfsrPeriod`, what a frame does that begins too early, and
  `StreamExamples` has runs in which something goes wrong. `StreamWire` joins it to the transmitter, and `StreamSystem`
  to the whole bit level: one system, bit interval by bit interval, whose handshakes `StreamHandshake` follows from the
  wires to the wires. `PoolLinks` and `TransferPool` are the pool of 32 linked descriptors
  and `usb_transfer.c`; `StreamHost` is the service as the C code runs it, in place over the pool, proved to be that
  specification, and `StreamSession` runs it through whole tests. `Reception` is the reception callback.
- **Generic RTL** (`rtl/prim`): the cross counter (`PrimCount`), the FIFO (`PrimFifo`) and the one-hot checker
  (`PrimOnehot`), each for every parameter value.

A machine word whose bits matter is a sequence of 32 booleans, low bit first; a counter is a natural number with its
wrap-around written out. The context structure of the C host is two classes here: `HostDpi.Dpi` has the fields of the
bit level, `StreamHost.Host` those of the streams; they meet in the descriptor being sent. The driver's states are one
flag in the second, whether it transmits; `StreamSystem`, on the values both stand for, proves that the flag is right.

## What the code does at its edges

- The monitor does not clear its history of raw bits at SYNC. A monitor that has seen no packet yet counts one one
  fewer than the sender. If the first packet begins with five ones it takes a stuff bit for data, and reads 0xFF as
  0xDF; `FirstPacket.FirstReceived` says exactly which packets it gets right. No valid PID begins so.
- The EOP between a token and its data stage leaves out the stuff bit that a token ending in six ones owes. The two
  transmitters then differ; the C monitor and the lazy receiver decode the packet all the same.
- With a D- pull-up and RX_ENABLE together the monitor swaps a signal that was not inverted, and reports no packet.
- `stream_data_check` accepts a packet of PID and one byte as long enough and then subtracts three from its length.
  The model calls this a fault; `StreamPackets.VerdictBroken` says exactly when it happens.
- It also advances the expected toggle before it compares the content. A packet in turn whose content alone is wrong is
  answered with NAK, but the device's retransmission, under the same PID, is then out of turn for good:
  `StreamPackets.RefusedButAdvanced` and `LeftBehind`. The packets a stream keeps therefore carry DATA0 and DATA1 in turn
  only under the condition of `StreamRuns.KeptAlternate`; `StreamExamples` has a run in which it fails.
- `transfer_data_end` asserts room for one byte more than it writes: a reply can carry at most 66 payload bytes, while
  up to 69 are accepted and queued. A longer one fails when it is replied to (`StreamPackets.AcceptedUnanswerable`).
- A frame boundary while an OUT packet awaits its answer restarts the host and does not rewind the LFSR. The packet is
  then built again with other bytes under the same PID, unless it has no data: the LFSR does not come back to its value
  within a packet (`LfsrPeriod`). `StreamRestart` proves this for every stream and every run, and `StreamExamples` has
  one from initialisation to a full frame. The other laws about runs exclude this boundary, and allow all others.
- `streams_init` drops the lists of earlier streams with their descriptors. The model counts them as lost.

## Model

| member | source | states |
|---|---|---|
| CrcRoutines.CRC16 | dv/cip_infra/usbdpi/usb_crc.c:91-115 | the loop over bytes and bits of a 16-bit register computes the complemented register run of section 8.3.5, for every byte sequence and count, a negative count included |
| CrcRoutines.Crc16Byte | dv/cip_infra/usbdpi/usb_crc.c:96-111 | the inner loop consumes the eight bits of one byte, low bit first, from any register state |
| CrcRoutines.CRC5 | dv/cip_infra/usbdpi/usb_crc.c:64-89 | for every word and every width, the low bits first give the complemented 5-bit register run |
| CrcRoutines.CRC5_MSBfirst | dv/cip_infra/usbdpi/usb_crc.c:29-62 | for every word and every width 0..32, the loop from the high bit gives the mirror image of CRC5 of the reversed bits |
| CrcRoutines.CalcCrc5 | dv/agent/usb20_driver.sv:96-103 | the left-shifting 5-bit register gives the mirror image of the C routine's CRC5 of the same eleven bits |
| CrcRoutines.CalcCrc16 | dv/agent/usb20_driver.sv:106-115 | for every byte sequence the left-shifting register gives the mirror image of CRC16 |
| UsbCrc.CrcReflection | dv/cip_infra/usbdpi/usb_crc.c:29-115 | for every register width, polynomial and message, the generator that shifts the other way computes the mirrored check bits |
| CrcRoutines.Crc16Residue | dv/cip_infra/usbdpi/usb_crc.c:91-115 | every data field followed by its own CRC16, low byte first, has the CRC16 0x4FFE |
| CrcRoutines.Crc5Residue | dv/cip_infra/usbdpi/usb_crc.c:64-89 | every token field, of any width, followed by its own CRC5 has the CRC5 0x19 |
| UsbCrc.BurstDetected | dv/cip_infra/usbdpi/usb_crc.c:91-115 | two messages of any one length that differ only inside a window no longer than the register leave different registers, for every polynomial with a top coefficient |
| CrcRoutines.Crc16DetectsBursts | dv/cip_infra/usbdpi/usb_crc.c:91-115 | two different byte sequences of one length whose differences lie within 16 consecutive bits of the wire have different CRC16 bytes |
| Transfer.TokenBits | dv/cip_infra/usbdpi/usb_transfer.c:83-99 | the three token bytes are on the wire the PID, seven address bits, four endpoint bits and the CRC5 of those eleven, low bit first |
| Transfer.DataBits | dv/cip_infra/usbdpi/usb_transfer.c:104-151 | a data packet is on the wire the PID, the data field and its CRC16, low bit first |
| LineCode.NrziRoundTrip | dv/cip_infra/usbdpi/usb_monitor.c:318-319 | NRZI decoding, from the level the code began at, recovers every bit sequence |
| LineCode.StuffRoundTrip | dv/cip_infra/usbdpi/usb_monitor.c:320-327 | dropping the bit after six ones recovers every bit sequence from its stuffed form, whether or not the stuff bit owed at the end was sent |
| LineCode.EagerIsStuffed | dv/agent/usb20_driver.sv:69-83 | stuffing at once after the sixth one and stuffing before the next bit put the same bits on the line |
| LineCode.StuffedLength | dv/cip_infra/usbdpi/usbdpi.c:1375-1404 | stuffing never costs more than one bit in six |
| LineCode.PacketNoSE0 | dv/cip_infra/usbdpi/usbdpi.c:1363-1431 | every packet is J or K, never SE0, up to its end, and its end is SE0 SE0 J |
| LineCode.PacketKeepsMoving | dv/cip_infra/usbdpi/usbdpi.c:1363-1405 | from the closing K K of SYNC to the first SE0 the line never rests for more than six intervals, in every packet |
| HostDriver.Follows | dv/cip_infra/usbdpi/usbdpi.c:1363-1431 | one call of the transmitter from any state that stands for a position in a transfer drives that position's line state, or leaves it undriven at the interval behind a packet, and moves to the state that stands for the next position |
| HostDriver.Unrolls | dv/cip_infra/usbdpi/usbdpi.c:1363-1431 | what is still to come at a position is its line state followed by what is still to come at the next one |
| HostDriver.TransmitsWave | dv/cip_infra/usbdpi/usbdpi.c:1363-1431 | for every sendable descriptor and both pull-ups, the transmitter puts exactly the packet codes of the transfer on the wires, one state per interval, with output enable on for each state of a packet and off for the J behind it, without the stuff bit owed after the token of a two-packet transfer, and is idle at the end and not before |
| UsbMonitor.MonDecodesNrzi | dv/cip_infra/usbdpi/usb_monitor.c:318-319 | inside a packet the stepped monitor sees exactly the raw bits whose NRZI code is on the wires |
| UsbMonitor.RawUnstuffs | dv/cip_infra/usbdpi/usb_monitor.c:318-330 | the monitor, whose history of raw bits a SYNC does not reset, recovers the data bits if its count of ones is the sender's, or lower with a zero before six ones are counted |
| UsbMonitor.ManyBytes | dv/cip_infra/usbdpi/usb_monitor.c:328-368 | data bits become bytes, low bit first, the first reported as the PID and the others as data bytes |
| UsbMonitor.SyncDetected | dv/cip_infra/usbdpi/usb_monitor.c:248-262 | from any idle line the SYNC states cause one SYNC callback, at their last state, and leave the receiver waiting for a PID |
| UsbMonitor.EopDetected | dv/cip_infra/usbdpi/usb_monitor.c:264-316 | after whole bytes SE0 SE0 J causes one EOP callback and nothing else, however many stray bits the two SE0 add |
| UsbMonitor.PacketReceived | dv/cip_infra/usbdpi/usb_monitor.c:239-376 | with or without the stuff bit owed at its end, a packet's wave causes exactly the callbacks SYNC, PID, bytes, EOP and leaves the monitor ready for the next packet: for every byte sequence once the monitor has seen a packet, and for every one that does not begin with five ones if it has not |
| UsbMonitor.ValidPidBreaks | dv/cip_infra/usbdpi/usb_monitor.c:341-352 | no byte that the monitor takes for a valid PID begins with five ones |
| FirstPacket.FirstReceived | dv/cip_infra/usbdpi/usb_monitor.c:239-376 | a monitor that has seen no packet yet makes exactly the callbacks of the first one if and only if that is empty, does not begin with five ones, or has nothing but zeros behind them; either way it is ready for the next packet |
| FirstPacket.FirstReceivedExample | dv/cip_infra/usbdpi/usb_monitor.c:81-112 | a new monitor is such a one, and reports the packet 0xFF as the PID 0xDF |
| HostModel.IdleArmInsideFrame | dv/cip_infra/usbdpi/usbdpi.c:1159-1219 | whenever the idle arm runs, whatever the 32-bit clock has done, the frame has not run out and the remaining-time subtraction does not wrap: it is the true distance, between 1 and FRAME_INTERVAL |
| HostModel.FourTicks | dv/cip_infra/usbdpi/usbdpi.c:1128-1132 | of four clock calls three only count; the fourth does the work of one bit interval |
| HostLaws.LastPidFollows | dv/cip_infra/usbdpi/usb_monitor.c:339-350 | in every interval, whatever is on the wires, the host's last PID stays equal to the monitor's own |
| HostLaws.LastPidFollowsRun | dv/cip_infra/usbdpi/usb_monitor.c:339-350 | the same over every run |
| HostLaws.DevicePid | dv/cip_infra/usbdpi/usb_monitor.c:334-356 | behind any packet the device drives, in either way, the host's last PID is the packet's if that is valid and the one it had otherwise, whatever the host is doing |
| HostLaws.FrameNumber | dv/cip_infra/usbdpi/usbdpi.c:1159-1216 | a frame that begins has the next number modulo 65536 and, if signalled, its SOF carries that number; in every other interval the number stays; a frame that is due while the driver is busy is pending until it begins |
| HostLaws.FramesCounted | dv/cip_infra/usbdpi/usbdpi.c:1174-1176 | over every run the number has grown by the frames that began |
| HostLaws.SofOnWire | dv/cip_infra/usbdpi/usbdpi.c:1174-1194 | over every run the SOF of the frame behind n others carries on the wire the first number plus n + 1, modulo 2048, in the eleven bits in which the SystemVerilog driver sends a frame number |
| HostLaws.SenseOverRun | dv/cip_infra/usbdpi/usbdpi.c:1139-1141 | VBUS is off before bit interval 160 and on from then, over every run |
| HostLaws.Recovers | dv/cip_infra/usbdpi/usbdpi.c:1143-1157 | a device that has been attached for less than 48 bit intervals is left alone: the wires are undriven J, nothing is sent, and the frame is counted from there |
| HostLaws.IdleForgets | dv/cip_infra/usbdpi/usb_monitor.c:216-232 | when nobody drives, the monitor forgets the line: no packet is seen to begin before six more driven intervals |
| HostRoundTrip.HostTransmits | dv/cip_infra/usbdpi/usbdpi.c:1115-1451 | over any number of bit intervals of a transfer the wires that the whole host function returns carry exactly the states that are due, driven or undriven as they should be, and the rest is still to come, while the device is silent |
| HostRoundTrip.MonitorListens | dv/cip_infra/usbdpi/usbdpi.c:1134-1137 | the monitor inside the host function sees the driver's line states one interval late, and nothing else |
| HostRoundTrip.InvertedNeverEnds | dv/cip_infra/usbdpi/usb_monitor.c:210-244 | read inverted, no wave of the transmitter ever makes the monitor report an end of packet |
| HostRoundTrip.TransferHeard | dv/cip_infra/usbdpi/usbdpi.c:1134-1137 | for every sendable transfer the wires over its bit intervals are its wave, and the monitor's callbacks are exactly those of its packets if and only if the device does not combine a D- pull-up with RX_ENABLE; the transmitter ends idle either way, and the monitor ready in the good case |
| HostRoundTrip.DeviceHeard | dv/cip_infra/usbdpi/usb_monitor.c:178-376 | whatever the host is doing, its monitor sees, in the interval in which it happens, what the device drives with its differential or its single-ended outputs and either pull-up |
| HostRoundTrip.OutLength | dv/cip_infra/usbdpi/usbdpi.c:1363-1431 | a transfer with a data stage behind a token takes at most 677 bit intervals for 64 payload bytes, and at most 705 with the buffer full |
| HostRoundTrip.OutFitsInFrame | dv/cip_infra/usbdpi/usbdpi.c:1159-1219 | an OUT transfer begun with more than 800 intervals left in the frame is driven to its end, and the line idle, before the frame boundary |
| HostDpi.Monitor.constructor | dv/cip_infra/usbdpi/usb_monitor.c:81-112 | a new monitor is in the initial state of the stepping specification |
| HostDpi.Monitor.Step | dv/cip_infra/usbdpi/usb_monitor.c:178-376 | one in-place call makes the callbacks and leaves the state that the stepping specification gives, for every state and wire |
| HostDpi.Dpi.constructor | dv/cip_infra/usbdpi/usbdpi.c:108-136 | a new host is idle, with every wire undriven, all its clocks and numbers at zero, and a new monitor |
| HostDpi.Dpi.Transmit | dv/cip_infra/usbdpi/usbdpi.c:1363-1431 | the transmitting arms of the switch update driving, linebits, bit, byte and state as the transmitter's step, and nothing else |
| HostDpi.Dpi.Send | dv/cip_infra/usbdpi/usb_transfer.c:167-181 | handing over a transfer sets the first byte, the first bit and the SYNC state |
| HostDpi.Dpi.FrameBoundary | dv/cip_infra/usbdpi/usbdpi.c:1159-1194 | at a frame boundary the frame number advances and SOF is handed over if the driver is idle; otherwise the frame is only marked as pending |
| HostDpi.Dpi.Watch | dv/cip_infra/usbdpi/usbdpi.c:1134-1157 | the monitor call, sensing, the detached and the recovering device are handled as specified, and the early returns are taken exactly then |
| HostDpi.Dpi.Switch | dv/cip_infra/usbdpi/usbdpi.c:1221-1432 | the switch does one transmitter step, or what the idle arm decided |
| HostDpi.Dpi.HostToDevice | dv/cip_infra/usbdpi/usbdpi.c:1115-1451 | one in-place clock call returns the driven wires and makes the callbacks that the specification of the whole function gives, and leaves its state |
| AgentDriver.Driver.SendBit | dv/agent/usb20_driver.sv:69-83 | one bit adds its NRZI state, and the stuff transition at once after the sixth one, to the wire, four clocks each |
| AgentDriver.Driver.SendByte | dv/agent/usb20_driver.sv:86-90 | a byte adds the code of its bits, low bit first |
| AgentDriver.Driver.SendSync | dv/agent/usb20_driver.sv:121-125 | SYNC starts a new code on an idle line and is the code of 0x80 |
| AgentDriver.Driver.SendEop | dv/agent/usb20_driver.sv:128-132 | an end of packet is SE0 SE0 J |
| AgentDriver.Driver.DrivePacket | dv/agent/usb20_driver.sv:134-155 | every packet puts on the wire the packet code of its item: PID and complement, then fields and CRC5, or data and CRC16, check bits in the order the receiver takes them |
| AgentDriver.Driver.GetAndDrive | dv/agent/usb20_driver.sv:281-312 | over every list of commands and whatever the device answers, the wire is clock for clock the commands' waves in order, with the line at J after a DATA or IN packet to the end of the answer, or for 72 clocks if there is none, and only then |
| AgentTraffic.CmdTiming | dv/agent/usb20_driver.sv:281-296 | a packet is driven behind two bit intervals of J, an idle time lasts its bit intervals, and a reset is SE0 for its microseconds and J for a bit interval, at four clocks to the bit and 48 to the microsecond |
| AgentDriver.PidConstants | dv/agent/usb20_driver.sv:138-139 | the byte {~pid, pid} is the C constant of every PID |
| AgentDriver.SameTokenBits | dv/cip_infra/usbdpi/usb_transfer.c:83-99 | for every PID, address and endpoint the C token bytes are bit for bit what the SystemVerilog driver sends |
| AgentDriver.SameDataBits | dv/cip_infra/usbdpi/usb_transfer.c:104-151 | for both toggles and every data field the C data packet is bit for bit what the driver sends |
| AgentDriver.SameHandshakeBits | dv/cip_infra/usbdpi/usb_transfer.c:186-203 | a C status packet is bit for bit the driver's handshake |
| AgentDriver.SameSofBits | dv/cip_infra/usbdpi/usb_transfer.c:50-56 | for every frame number the SOF token of the C host, with the number split over the address and endpoint fields, is bit for bit the driver's with its 11-bit frame field |
| AgentDriver.SameWireAlone | dv/cip_infra/usbdpi/usbdpi.c:1363-1431 | for every transfer of one packet both transmitters drive the same states |
| AgentDriver.SameWireWithData | dv/cip_infra/usbdpi/usbdpi.c:1400-1404 | for every token with a data stage the C states are those of the driver's two packets, each followed by the idle interval, if and only if the token does not end in six ones |
| AgentDriver.StuffOwedExample | dv/cip_infra/usbdpi/usbdpi.c:1400-1404 | the exception is met: OUT to address 12, endpoint 8 ends in six ones |
| AgentReceivers.ReceiveFromDut | dv/agent/usb20_driver.sv:193-235 | from the clock in which the device begins to drive, the loop samples every fourth clock, collects exactly the whole bytes of the unstuffed data bits before SE0 and reports how many bits are left over, for every recording |
| AgentReceivers.ReceivesPacket | dv/agent/usb20_driver.sv:193-235 | on every driven packet, with or without the stuff bit owed before its end, those bytes are 0x80 and the packet's own, with the bits left over that the packet has |
| AgentReceivers.GetDeviceResponse | dv/agent/usb20_driver.sv:243-276 | for every recording: no response if no whole byte was received; else the PID of the second byte, for DATA0 and DATA1 the bytes between it and the last two, and an error for bits left over, a wrong SYNC, a missing or inconsistent PID and a data packet below four bytes |
| AgentReceivers.SilenceReturned | dv/agent/usb20_driver.sv:250-253 | of a device that drives nothing the driver says that there was no response, and reports no error |
| AgentReceivers.AnswerReturned | dv/agent/usb20_driver.sv:243-276 | for every item the device answers with, and whatever follows it, the driver's response has its PID, its data if it is a data packet, and no error |
| AgentReceivers.NextBitDecodes | dv/agent/usb20_monitor.sv:121-152 | one call recovers the next bit of a driven code, consumes its four clocks and its stuff bit's with them, and stands where the rest of the code begins, whichever side drives |
| AgentReceivers.ReadBitsDecodes | dv/agent/usb20_monitor.sv:166-181 | n calls recover the next n bits |
| AgentReceivers.ReadToEopDecodes | dv/agent/usb20_monitor.sv:214-225 | calls until the end of packet recover exactly the remaining bits, a stuff bit just before the end included |
| AgentMonitor.CollectInvertsDrive | dv/agent/usb20_monitor.sv:154-262 | collect_packet on a packet that host or device drives gives back the transaction that was driven and stands at the first clock of the J behind it, for every item but those whose PID it does not support, which it rejects |
| AgentMonitor.MonitorReportsTraffic | dv/agent/usb20_monitor.sv:25-79 | for every list of commands, and whatever packet the device answers with and on whatever clock it begins to, the monitor's endless loop reports the packets of both sides and the resets long enough to count, in order and with the side that drove them |
| AgentMonitor.Monitor.GetNextBit | dv/agent/usb20_monitor.sv:121-152 | the in-place call passes two clocks and looks, reports SE0 at once without touching the line reference and the count of ones, and else passes the rest of the bit and a stuff bit behind the sixth one, as specified, for every recording |
| AgentMonitor.Monitor.ReadData | dv/agent/usb20_monitor.sv:214-225 | the data loop collects the whole bytes before the end of packet and counts the bits left over |
| AgentMonitor.Monitor.CollectPacket | dv/agent/usb20_monitor.sv:154-262 | the in-place task gives the transaction and verdict of the specification, and stands where it does, for every recording, packets that break off in SYNC, PID or token included |
| AgentMonitor.Monitor.Run | dv/agent/usb20_monitor.sv:35-79 | the in-place loop reports what the specification reports, for every recording of the pins of both sides |
| AgentTraffic.TrafficTold | dv/agent/usb20_monitor.sv:35-79 | what it reports is the history of the bus, said without the monitor's bookkeeping: every event that counts once and in order, a token with its own direction and endpoint, every other packet with those of the last token since the last reset, and with OUT and zero if there is none |
| AgentTraffic.ReportedExact | dv/agent/usb20_monitor.sv:73-77 | the events that count are every packet of both sides and every reset of at least 2.5 microseconds |
| AgentTraffic.Observe | dv/agent/usb20_monitor.sv:35-79 | a monitor run on the driver's line and an answering device tells that history so |
| AgentJudges.CollectJudges | dv/agent/usb20_monitor.sv:154-262 | for any bits sent as a packet by either side: collect_packet takes exactly those with SYNC, a PID whose halves are complements and mean a PID it supports, and for data whole bytes with room for the CRC16; the transaction has the fields sent; taken or not, it stands at the J behind the packet |
| AgentJudges.ResetJudged | dv/agent/usb20_monitor.sv:98-117 | SE0 for any number of clocks, by either side, is reported as a reset exactly from 120 clocks on, with its whole microseconds, and direction and endpoint are forgotten in any case |
| AgentJudges.ComplainsExactly | dv/agent/usb20_driver.sv:233-275 | the driver complains of a response exactly of what there is cause for, in every combination |
| Streams.LfsrSeqConcat | dv/cip_infra/usbdpi/usbdpi_stream.c:19-23 | a stretch of an LFSR stream goes on where the stretch before it ended |
| Streams.ScrambleConcat | dv/cip_infra/usbdpi/usbdpi_stream.c:300-315 | combining two packets in a row with one stream is combining their data with it |
| StreamPackets.CheckedData | dv/cip_infra/usbdpi/usbdpi_stream.c:143-225 | without a signature in front, the check is undefined exactly for a PID and one byte; it accepts exactly the packets it is willing to take that are intact, in turn and, with checking, hold the next bytes of the device's LFSR; the toggle advances for every packet in turn that it is willing to take, whatever its content |
| StreamPackets.ExaminedPlain | dv/cip_infra/usbdpi/usbdpi_stream.c:723-750 | past its signature a stream keeps exactly the good packets: PID the expected toggle, CRC16 right, content right |
| StreamPackets.ExaminedSign | dv/cip_infra/usbdpi/usbdpi_stream.c:723-750 | before that it accepts exactly the signature in sequence, keeps nothing, and takes the device's LFSR from its fifth byte and the next toggle from its PID |
| StreamPackets.VerdictBroken | dv/cip_infra/usbdpi/usbdpi_stream.c:160-177 | the data length of the check underflows if and only if the packet is a PID and one byte, the stream is not isochronous and the packet is not refused on purpose |
| StreamPackets.VerdictBrokenExample | dv/cip_infra/usbdpi/usbdpi_stream.c:160-177 | DATA0 and one byte does it to every new bulk stream |
| StreamPackets.RefusedButAdvanced | dv/cip_infra/usbdpi/usbdpi_stream.c:143-225 | a stream past its signature refuses a packet and advances the expected toggle all the same if and only if the packet is in turn, its CRC16 is right and its content is wrong |
| StreamPackets.LeftBehind | dv/cip_infra/usbdpi/usbdpi_stream.c:143-225 | after that every packet under the same PID that the check is defined for is refused, the right one too, and toggle and LFSR stay where they are |
| StreamPackets.LeftBehindExample | dv/cip_infra/usbdpi/usbdpi_stream.c:143-225 | a wrong byte under DATA0 makes a stream refuse the byte it was waiting for under DATA0 |
| StreamPackets.GeneratorAgrees | dv/cip_infra/usbdpi/usbdpi_stream.c:143-246 | every packet the generator makes is accepted by the check from the same state, and both leave the same toggle and LFSR |
| StreamPackets.ReplyRoom | dv/cip_infra/usbdpi/usb_transfer.c:135-151 | the assertion of transfer_data_end holds for a kept packet if and only if it has at most 66 payload bytes |
| StreamPackets.AcceptedUnanswerable | dv/cip_infra/usbdpi/usbdpi_stream.c:254-320 | an accepted packet has at most 69 payload bytes, and its reply fails if and only if it has 67 to 69 |
| StreamPackets.AcceptedUnanswerableExample | dv/cip_infra/usbdpi/usbdpi_stream.c:254-320 | the generated packet of 67 bytes is accepted by every checking bulk stream past its signature, and does not fit a reply |
| StreamMoves.ServiceMoves | dv/cip_infra/usbdpi/usbdpi_stream.c:412-820 | every call of streams_service that returns leaves a well-formed context and, for every stream that sends and is not isochronous, rests, builds the reply to the oldest packet, retires it on ACK with the toggle advanced, rewinds the LFSR on NAK, takes a packet in turn with the right CRC16 and the device's next bytes, takes the signature, or refuses a packet whose content alone is wrong with its turn used up; and changes nothing else of that stream |
| StreamRuns.RunKeeps | dv/cip_infra/usbdpi/usbdpi_stream.c:412-820 | over every run, whatever the bus does in between and however the streams interleave, a stream's LFSR values, toggle, queue and history satisfy the delivery invariant |
| StreamRuns.ExactlyOnce | dv/cip_infra/usbdpi/usbdpi_stream.c:254-320 | over every run the packets taken are those retired, in order and once each, followed by those queued; the i-th byte the device accepts is the i-th byte it sent XOR the i-th value of the host's LFSR, and with checking the i-th value of the device's LFSR XOR that value, counted from the fifth byte of the stream's signature |
| StreamRuns.AcceptedAlternate | dv/cip_infra/usbdpi/usbdpi_stream.c:567-573 | over every run the packets the device accepts carry DATA0 and DATA1 in turn |
| StreamRuns.RunIncoming | dv/cip_infra/usbdpi/usbdpi_stream.c:647-807 | over every run the expected toggle of a stream has advanced once for each kept packet and once for each that was refused with its turn used up, starting from the signature's PID |
| StreamRuns.KeptInTurn | dv/cip_infra/usbdpi/usbdpi_stream.c:178-225 | over every run each packet kept from the device has a right CRC16 and the PID whose turn it was, the turns used up by refused packets counted |
| StreamRuns.KeptAlternate | dv/cip_infra/usbdpi/usbdpi_stream.c:178-225 | over every run the packets kept from the device carry DATA0 and DATA1 in turn if and only if the turns used up so before each of them are even in number |
| StreamRuns.NeverTaken | dv/cip_infra/usbdpi/usbdpi_stream.c:178-225 | over every run in which a stream past its signature is only offered the PID whose turn it is not, it keeps no packet and goes on waiting for the other PID |
| StreamRuns.RetriedIdentically | dv/cip_infra/usbdpi/usbdpi_stream.c:521-534 | over every run the OUT transfer built next after a NAK is the refused one, byte for byte |
| StreamRuns.Acknowledge | dv/cip_infra/usbdpi/usbdpi_stream.c:560-573 | an accepted reply moves its bytes from the queued to the delivered ones |
| StreamLaws.InitFresh | dv/cip_infra/usbdpi/usbdpi_stream.c:86-140 | initialisation of 1..15 streams leaves a well-formed context in which every stream has its seeds, an empty list and an expected signature |
| StreamLaws.InitialState | dv/cip_infra/usbdpi/usbdpi_stream.c:110-138 | every stream begins with the three seeds of its number, none of them zero, sequence number zero and the signature expected |
| StreamLaws.SignatureGivesBase | dv/cip_infra/usbdpi/usbdpi_stream.c:323-408 | a signature is taken only from a packet of exactly PID, 16 bytes and CRC with both marks, a sensible length and the next sequence number, and the device's LFSR is then followed from its fifth byte |
| StreamLaws.ServiceCounts | dv/cip_infra/usbdpi/usbdpi_stream.c:683-721 | only a look at a data packet changes a stream's retry counter; a feigned refusal counts it down, sends the PID NAK, keeps nothing and leaves the expected toggle; any other look draws the next number of refusals from the retry LFSR |
| StreamLaws.AtMostThreeRefusals | dv/cip_infra/usbdpi/usbdpi_stream.c:689-714 | over every run a stream's data packets are refused on purpose at most three times in a row |
| StreamLaws.RefusalsDrawn | dv/cip_infra/usbdpi/usbdpi_stream.c:689-714 | over every run the retry LFSR has advanced once for each packet considered, and the refusals made since the last one and those still to be made are together the number drawn then, by the table of its three low bits |
| StreamLaws.ConsideredTurns | dv/cip_infra/usbdpi/usbdpi_stream.c:66-83 | over every run the streams considered in one direction follow one another in round-robin order, always below nstreams |
| StreamLaws.EachStreamOnce | dv/cip_infra/usbdpi/usbdpi_stream.c:66-83 | among any nstreams consecutive considerations of a run, in either direction, each stream comes up exactly once |
| StreamLaws.ServiceFails | dv/cip_infra/usbdpi/usbdpi_stream.c:412-820 | a call of streams_service asserts or is undefined in exactly these cases: the host has given up, the stream to be served has a packet of more than 66 payload bytes, a packet of PID and one byte is looked at, a control stream is served, or a packet is acknowledged that is no longer there |
| StreamLaws.RunFails | dv/cip_infra/usbdpi/usbdpi_stream.c:412-820 | over every run of initialised streams that send and are neither isochronous nor control, only the first three of these happen |
| StreamLaws.ServiceKeepsLost | dv/cip_infra/usbdpi/usbdpi_stream.c:412-820 | no call of streams_service forgets a descriptor |
| StreamAnswers.HandshakeSent | dv/cip_infra/usbdpi/usbdpi_stream.c:770-784 | a call that takes a packet from the device hands the PID ACK to the driver if the packet was kept or was the signature, and NAK otherwise; for an isochronous stream nothing |
| StreamAnswers.AnswerTaken | dv/cip_infra/usbdpi/usbdpi_stream.c:491-575 | a bulk or interrupt stream that awaits an answer: on ACK in the right bus state the oldest packet is retired and the toggle advances, on NAK the LFSR is rewound, another PID or none in time is an error, and otherwise it waits; nothing else of the context changes |
| StreamAnswers.IsoRetired | dv/cip_infra/usbdpi/usbdpi_stream.c:551-573 | an isochronous packet is retired without an answer and with the toggle left alone; a bus state that shows an answer is an error |
| StreamAnswers.PollAnswered | dv/cip_infra/usbdpi/usbdpi_stream.c:647-676 | while a poll's answer is out, or was not data: a NAK makes the host go on to the next stream, another PID to the next frame, and an isochronous NAK or no answer in time is an error; nothing else of the context changes |
| StreamAnswers.BusStates | dv/cip_infra/usbdpi/usbdpi_stream.c:450-619 | the bus states of the three kinds of streams behind an OUT packet, an IN token and its data |
| StreamAnswers.Polls | dv/cip_infra/usbdpi/usbdpi_stream.c:580-615 | a call polls exactly the next stream in turn, if that retrieves, and the token has on the wire the PID IN, the device's address and endpoint 1 + id |
| StreamAnswers.OutCourse | dv/cip_infra/usbdpi/usbdpi_stream.c:427-488 | with 800 bit intervals or less to go in the frame the host waits for the next one; else exactly the next stream in turn is considered, and its packet is on its way, it is passed over, or what it was sent is dropped |
| StreamAnswers.InCourse | dv/cip_infra/usbdpi/usbdpi_stream.c:580-639 | the same for fetching: the next stream is polled if it retrieves, and else given a made-up packet of 64 bytes exactly if it sends, has none in hand and a descriptor is free |
| StreamIso.IsoReplyReadable | dv/cip_infra/usbdpi/usbdpi_stream.c:282-315 | the device can read an isochronous reply: the signature is the one it sent but for the fifth byte, and the data behind it combined with the LFSR stream from that byte are the data it sent |
| StreamIso.IsoSent | dv/cip_infra/usbdpi/usbdpi_stream.c:427-475 | so what the driver is handed reads, with the endpoint's toggle, and the next reply goes on where its LFSR stream ends |
| StreamIso.IsoTaken | dv/cip_infra/usbdpi/usbdpi_stream.c:323-408 | an isochronous stream takes exactly the packets whose signature has both marks, a sensible length and a number not below the expected one, with DATA0, a right CRC16 and with checking the bytes that follow from the LFSR value in the signature; expected number, LFSR and toggle behind every packet, taken or not |
| StreamIso.IsoLooked | dv/cip_infra/usbdpi/usbdpi_stream.c:680-764 | a call that takes a packet for an isochronous stream keeps it exactly if it is such a one |
| StreamIso.IsoInOrder | dv/cip_infra/usbdpi/usbdpi_stream.c:358-385 | over every run in which the numbers do not start over, the packets an isochronous stream keeps have ever higher numbers |
| LfsrPeriod.FullPeriod | dv/cip_infra/usbdpi/usbdpi_stream.c:19-23 | the LFSR is back at a nonzero value after n steps if and only if n is a multiple of 255 |
| StreamRestart.FrameRestart | dv/cip_infra/usbdpi/usbdpi.c:1202-1216 | whenever a host of any number of streams serves a stream again whose OUT packet awaited its answer when a frame restarted the host, the packet it builds is the one that awaited the answer if and only if that has no data |
| StreamRestart.RestartedRun | dv/cip_infra/usbdpi/usbdpi.c:1202-1216 | the same over every run from the restart to the next packet the stream builds, however many other streams are served and whatever else arrives in between |
| StreamRestart.FrameRestartGoesWrong | dv/cip_infra/usbdpi/usbdpi.c:1202-1216 | from initialisation through any run to such a restart and through any run to the next packet of the stream, for every stream that sends and is not isochronous: unless the packet has no data, the one built next is another one |
| StreamExamples.FrameRestartExample | dv/cip_infra/usbdpi/usbdpi.c:1159-1216 | it happens: a host that streams_init has set up, its run to an answer that is awaited when 12000 bit intervals of the frame have passed, with the driver idle and the wait not over, the restart, and the other packet built then |
| StreamExamples.KeptAlternateExample | dv/cip_infra/usbdpi/usbdpi_stream.c:178-225 | the condition of KeptAlternate fails in a run of an initialised stream: signature, a wrong byte, the right one, which is kept and carries the signature's PID |
| StreamWire.ReplySendable | dv/cip_infra/usbdpi/usbdpi_stream.c:272-319 | every reply is a sendable transfer of two packets, the OUT token and the data packet with the expected toggle, both with valid PIDs |
| StreamWire.ReplyHeard | dv/cip_infra/usbdpi/usbdpi_stream.c:427-475 | a reply begun with more than 800 intervals left is on the wire before the frame boundary, and the monitor calls back exactly for its two packets unless the device combines a D- pull-up with RX_ENABLE |
| StreamWire.AnswerHasTime | dv/cip_infra/usbdpi/usbdpi_stream.c:463-470 | the host waits for the answer to an OUT packet at least 138 bit intervals longer than the packet takes on the wire, however many stuff bits it needs |
| StreamWire.DataHasTime | dv/cip_infra/usbdpi/usbdpi_stream.c:641-645 | it waits for the answer to a poll 18 bit intervals and the time of SYNC and a data packet of 64 bytes |
| StreamSystem.ServiceSends | dv/cip_infra/usbdpi/usb_transfer.c:167-181 | whatever streams_service hands to the driver is a transfer that it can send, and a call leaves the clock alone |
| StreamSystem.IntervalCoupled | dv/cip_infra/usbdpi/usbdpi.c:1115-1451 | in every bit interval, whatever the device drives, the clocks of bit level and streams stay equal, and the driver is sending if and only if the streams have handed a transfer over, and that transfer |
| StreamSystem.SystemTrace | dv/cip_infra/usbdpi/usbdpi.c:1115-1451 | over every run of driver, monitor, frame clock and streams together, and of usbdpi_device_to_host when the device's wires change, the streams' contexts follow one another by the steps of a run, and a frame begins only when the last one has run out and the driver is idle |
| StreamSystem.SystemIsRun | dv/cip_infra/usbdpi/usbdpi.c:1202-1216 | they are a run of the stream laws if no answer is awaited at such a boundary |
| StreamSystem.ReplyOnTheWire | dv/cip_infra/usbdpi/usbdpi_stream.c:427-475 | a reply that streams_service builds while the system runs is made of the oldest packet kept, and if the device keeps quiet its wave is on the wires in the intervals that follow and nothing else happens; the frame is not over at its end, and the monitor has called back exactly for its two packets unless the device combines a D- pull-up with RX_ENABLE |
| StreamHandshake.PacketTold | dv/cip_infra/usbdpi/usbdpi.c:143-303 | a packet the device drives, in either way, reaches the streams of the running system as its PID and the bus state behind it, and changes nothing else of them |
| StreamHandshake.OutHandshake | dv/cip_infra/usbdpi/usbdpi_stream.c:491-575 | from the device's wires to the stream: a driven ACK retires the packet on its way and advances the toggle, a NAK rewinds the LFSR and keeps it, any other PID is an error |
| StreamHandshake.InHandshake | dv/cip_infra/usbdpi/usbdpi_stream.c:647-807 | from the device's wires to the host's: a driven data packet, collected as sent, is kept and the driver is about to send ACK if it has the PID due, a right CRC16 and the bytes expected; else it is dropped and the driver is about to send NAK |
| StreamHandshake.InNothing | dv/cip_infra/usbdpi/usbdpi_stream.c:786-794 | a driven NAK in answer to a poll makes the host go on with nothing kept, changed or sent |
| PoolLinks.MovePooled | dv/cip_infra/usbdpi/usb_transfer.c:23-37 | taking the first entry of one list and putting it first in another keeps every chain of links acyclic, the lists disjoint and the pool complete, and moves just that entry's content |
| PoolLinks.AppendPooled | dv/cip_infra/usbdpi/usbdpi_stream.c:757-764 | linking an entry behind the last one of a list does the same |
| PoolLinks.ForgetPooled | dv/cip_infra/usbdpi/usbdpi_stream.c:137 | dropping a list loses exactly its entries; every other entry stays where it is |
| PoolLinks.InOneChain | dv/cip_infra/usbdpi/usb_transfer.c:12-37 | an entry that is not lost is in exactly one chain, once |
| PoolLinks.WholePool | dv/cip_infra/usbdpi/usb_transfer.c:12-20 | with nothing forgotten the chains are all 32 entries of the pool |
| TransferPool.Pool.Setup | dv/cip_infra/usbdpi/usb_transfer.c:12-20 | setup links all 32 entries into the free list, in the order of their index, each to the next, and leaves every other pointer empty |
| TransferPool.Pool.Alloc | dv/cip_infra/usbdpi/usb_transfer.c:23-30 | allocation hands out the first free entry, blank and unlinked, or nothing exactly if none is free |
| TransferPool.Pool.Release | dv/cip_infra/usbdpi/usb_transfer.c:33-37 | a released entry becomes the first free one |
| TransferPool.Pool.ReleaseReceived | dv/cip_infra/usbdpi/usbdpi_stream.c:478-482 | the oldest packet of a stream becomes the first free entry, and the next one the oldest |
| TransferPool.Pool.Append | dv/cip_infra/usbdpi/usbdpi_stream.c:757-764 | a packet is linked behind the last one of its stream |
| TransferPool.Pool.Discard | dv/cip_infra/usbdpi/usbdpi_stream.c:476-483 | the loop frees every packet of the stream and none of another |
| TransferPool.Pool.Token | dv/cip_infra/usbdpi/usb_transfer.c:83-99 | a token replaces whatever the descriptor held, and no other descriptor changes |
| TransferPool.Pool.DataStart | dv/cip_infra/usbdpi/usb_transfer.c:104-131 | a data stage is begun behind what the descriptor holds if and only if the estimated size fits |
| TransferPool.Pool.DataEnd | dv/cip_infra/usbdpi/usb_transfer.c:135-151 | the data field is completed with its CRC16 |
| TransferPool.Pool.AppendBytes | dv/cip_infra/usbdpi/usb_transfer.c:154-164 | bytes are appended if and only if they fit, else nothing changes |
| TransferPool.Pool.Conserved | dv/cip_infra/usbdpi/usb_transfer.c:12-37 | free, used and forgotten entries always add up to 32 |
| Reception.PacketCollected | dv/cip_infra/usbdpi/usbdpi.c:312-371 | whatever the receive descriptor held, the callbacks of a packet leave just the packet's bytes in it, a data stage at 0 exactly if it is a data packet; they fit if and only if there are at most 73 |
| Reception.WireToDescriptor | dv/cip_infra/usbdpi/usbdpi.c:312-371 | a packet that the device drives on its pins, in either of its two ways and with either pull-up, arrives in the receive descriptor as it was sent, whatever the host is doing, if the monitor has seen a packet before or this one does not begin with five ones |
| StreamHost.Combine | dv/cip_infra/usbdpi/usbdpi_stream.c:304-315 | the loop combines every byte with the LFSR and leaves it after the last |
| StreamHost.Generate | dv/cip_infra/usbdpi/usbdpi_stream.c:239-242 | the loop writes the LFSR's stretch and leaves it after the last byte |
| StreamHost.Compare | dv/cip_infra/usbdpi/usbdpi_stream.c:199-211 | the loop finds exactly whether every byte is the LFSR's, and runs to the end even after a mismatch |
| StreamHost.Host.constructor | dv/cip_infra/usbdpi/usbdpi.c:108-136 | a new host has its whole pool free and no streams yet |
| StreamHost.Host.StreamsInit | dv/cip_infra/usbdpi/usbdpi_stream.c:86-140 | the loop initialises the first n streams, and loses exactly the descriptors their lists still held; false, with nothing changed, for no stream or more than 15 |
| StreamHost.Launch | dv/cip_infra/usbdpi/usbdpi_test.c:63-64 | after creation and one initialisation no descriptor is lost or in use, and every sending non-isochronous stream begins its history |
| StreamHost.Host.TransferSend | dv/cip_infra/usbdpi/usb_transfer.c:167-181 | its assertion, no other buffer in `sending`, is a precondition that every caller meets; afterwards `sending` owns the transfer |
| StreamHost.Host.StreamDataProcess | dv/cip_infra/usbdpi/usbdpi_stream.c:254-320 | the reply to the oldest packet is built in a fresh descriptor with the LFSR rewound and advanced as specified; it fails exactly where there is no room for the CRC16 |
| StreamHost.Host.StreamDataGen | dv/cip_infra/usbdpi/usbdpi_stream.c:228-246 | if and only if a descriptor is free, the generated packet becomes the stream's only one, and toggle and LFSR advance |
| StreamHost.Host.StreamDataCheck | dv/cip_infra/usbdpi/usbdpi_stream.c:143-225 | verdict, toggle and LFSR are those of the specification; without a signature in front it is undefined exactly for a PID and one byte |
| StreamHost.Host.StreamSigCheck | dv/cip_infra/usbdpi/usbdpi_stream.c:323-408 | verdict, sequence number, LFSR and toggle are those of the specification |
| StreamHost.Host.ServiceOut | dv/cip_infra/usbdpi/usbdpi_stream.c:427-488 | the arm fails exactly where the C code asserts; else the context is the specified one, the old buffer is back in the pool and `sending` owns the reply |
| StreamHost.Host.ServiceAck | dv/cip_infra/usbdpi/usbdpi_stream.c:491-575 | the arm retires, rewinds, waits or gives up as specified, and the retired packet is back in the pool |
| StreamHost.Host.ServiceIn | dv/cip_infra/usbdpi/usbdpi_stream.c:580-639 | the arm polls or pretends as specified; packets are made up exactly if a descriptor is free |
| StreamHost.Host.ServiceReply | dv/cip_infra/usbdpi/usbdpi_stream.c:647-807 | the arm takes, refuses or waits as specified, and the received descriptor ends in its stream's list or in the pool |
| StreamHost.Host.StreamsService | dv/cip_infra/usbdpi/usbdpi_stream.c:412-820 | the whole call fails exactly where the specification has a fault; else the context is the specified one, every pool entry has exactly one owner, and `sending` is set whenever the driver transmits |
| StreamHost.Host.Idle | dv/cip_infra/usbdpi/usbdpi.c:1223-1228 | a descriptor is at hand unless the other uses account for the whole pool, and only then does the assertion fail |
| StreamHost.Host.FrameStart | dv/cip_infra/usbdpi/usbdpi.c:1174-1216 | a frame start sends SOF in the descriptor at hand or a free one, restarts the host, and leaves streams, lists, toggles and LFSRs alone |
| StreamHost.Host.DataCallback | dv/cip_infra/usbdpi/usbdpi.c:312-371 | one callback's effect on the receive descriptor, taken from the pool if there is none, and when its assertions fail |
| StreamHost.Host.ReceivePacket | dv/cip_infra/usbdpi/usbdpi.c:312-371 | the callbacks of a whole packet leave it in the receive descriptor, and change nothing else of the context, if and only if it fits and a descriptor was free or at hand |
| StreamHost.Host.Observe | dv/cip_infra/usbdpi/usbdpi.c:1128-1137 | a report of PID, bus state and clock changes nothing else of the context |
| StreamSession.RunSession | dv/cip_infra/usbdpi/usbdpi.c:1115-1228 | for every list of operations (calls, transmissions ending, packets, frames, reports), up to the first that fails: nothing is forgotten, each of the 32 pool entries is in exactly one place, and the contexts form a run but for frames that interrupt an awaited answer |
| StreamSession.StreamingTest | dv/cip_infra/usbdpi/usbdpi_test.c:63-64 | the same from creation and initialisation on, with every sending non-isochronous stream at the begin of its history, so the laws about runs are laws about the host in memory |
| PrimCount.ClockCounts | rtl/prim/prim_count.sv:83-158 | one clock keeps the two counters complements, raises no error, and counts as the saturating counter with clear before set before counting and commit gating |
| PrimCount.CountsFrom | rtl/prim/prim_count.sv:83-158 | the same over every run from any consistent state |
| PrimCount.CrossCounter | rtl/prim/prim_count.sv:63-158 | for every width, reset value and run the counters add up to 2^Width - 1, err_o is never raised and cnt_o is the saturating counter's value |
| PrimCount.PrimCounter.Clock | rtl/prim/prim_count.sv:118-154 | the registers after an edge are the specified ones, and the primary one is the saturating counter's |
| PrimFifo.PointersAgree | rtl/prim/prim_fifo_sync_cnt.sv:74-143 | the hardened pointer moves as the plain one for every depth and raises no error |
| PrimFifo.Levels | rtl/prim/prim_fifo_sync_cnt.sv:60-63 | full and empty are exact, and the write pointer is the level's distance ahead of the read pointer |
| PrimFifo.DepthExact | rtl/prim/prim_fifo_sync_cnt.sv:65-72 | depth_o, computed in its own width, is the number of entries |
| PrimFifo.OutputsAgree | rtl/prim/prim_fifo_sync.sv:65-213 | ready, valid, full, depth and error are those of the queue, in every state that stands for it and for every input, and the data are its front, what passes through, or zero if that is asked for an empty FIFO |
| PrimFifo.ClockHolds | rtl/prim/prim_fifo_sync.sv:65-213 | one clock leaves a state that stands for the queue after the accepted write and read, or for the empty one after a clear |
| PrimFifo.RunsInOrder | rtl/prim/prim_fifo_sync.sv:65-213 | over every run what was read since the last clear, followed by what is queued, is what was written |
| PrimFifo.FifoIsQueue | rtl/prim/prim_fifo_sync.sv:65-213 | for every depth of at least one, pass-through and hardening and every run from reset: a queue of at most Depth entries, in order, with every output the queue's, the data also where they are not valid, and err_o low |
| PrimFifo.SecureIsPlain | rtl/prim/prim_fifo_sync_cnt.sv:74-143 | hardened and plain pointers give the same outputs over every run; the data too where they are valid or zero |
| PrimFifo.FifoSync.Edge | rtl/prim/prim_fifo_sync.sv:140-213 | for two entries and more, with plain or hardened pointers: the registers and storage array after an edge, and the outputs before it, are the specified ones, and stand for the queue after one step |
| PrimFifo.FifoOne.Edge | rtl/prim/prim_fifo_sync.sv:65-138 | the same for one entry |
| PrimOnehot.NodeSays | rtl/prim/prim_onehot_check.sv:56-101 | a node of any level says whether a bit below it is set, whether two are, and whether the addressed one is |
| PrimOnehot.TreeIsFlat | rtl/prim/prim_onehot_check.sv:103-138 | for every height, width and setting: err_o is low if and only if at most one bit is set, the enable agrees (strictly or not) and any set bit is at the address |
| PrimOnehot.TreesExist | rtl/prim/prim_onehot_check.sv:56-101 | the assignments have a solution for every input |

## Left out

- Control transfers, enumeration and the other test steps: fixed scripts of descriptors and waits; the streaming code asserts that it is never given a control stream.
- Bus reset, disconnection and re-enumeration during streaming: they also reset the toggles and the device address, and end the runs considered here. `HostDpi` does model disconnection and recovery for the bit level.
- Logging, diagnostics, waveform values and the compile-time error insertion, which is off.
- The monitor's own buffer of packet bytes, used only for its log, and its SE1 message.
- The count of tries at frame boundaries (`num_tries`), which fails the test when the host is not ready three frames in a row.
- The bytes of a descriptor's data array beyond `num_bytes`, and the partly written data stage between `transfer_data_start` and `transfer_data_end`: a descriptor's content is the sequence of its first `num_bytes` bytes, replaced as a whole; links and pointers are updated in place.
- A received packet with no byte at all, SYNC and EOP only: such a descriptor would be taken for an accepted packet, but no PID is then reported that makes the host look at it.
- Whose packets reach the reception callback: its methods are for packets from the device, and `StreamSystem` takes the packet collected as an input of each interval, while it computes the PID, the bus state and ST_GET itself.
- 32-bit wrap-around of the clock inside a transfer (`HostRoundTrip.TransferHeard`, `HostRoundTrip.OutFitsInFrame`): the transfer must end before the tick counter wraps; between transfers it may.
- The phase of the C host within a bit interval, SE1 on the pins of the agent, clock-domain crossing, X values and the assertion macros of the SystemVerilog sources.
- A device that begins to answer later than 72 clocks after the packet, or whose answer is no packet: the driver would then talk at the same time.
- The scoreboard, which consumes what the receivers modelled here deliver.
- StreamRuns.ExactlyOnce: is about streams that send and are not isochronous, as the exactly-once promise is; isochronous streams drop packets by design and are covered by the in-place methods only.
- PrimFifo.FifoIsQueue: does not model Depth = 0, where the FIFO is a wire.
- PrimFifo.FifoSync.Edge: updates a hardened pointer as one value of count, twin and error flag; in place it is `PrimCount.PrimCounter`.
- `fpv_force` of `prim_count`, which is zero outside formal runs.
