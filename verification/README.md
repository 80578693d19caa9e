# Verification of IPDBG

IPDBG connects tools on a PC with debug cores in an FPGA: a hub multiplexes seven byte
channels over one JTAG data register, cores such as a logic analyser, a bus master and a
waveform generator hang on the channels, and C libraries talk to the cores. This project
models the clocked processes and the library functions in Dafny and proves what they are
for.

A clocked process is a class whose methods update the registers edge by edge; each method is
proved equal to a step function on the values of the registers, and the theorems are about
all runs of the step functions. An edge of the model is a rising clock edge with `ce = '1'`;
an edge with `ce = '0'` changes nothing. Within an edge every register is read as it was
before, and the last assignment wins. A value `'-'` is an arbitrary input. Widths, lengths of
synchronizers and memory sizes are parameters. Library functions are methods on arrays and
handle fields, over an ideal byte stream.

| Files | Content |
|---|---|
| `Bytes`, `Numbers` | Bytes, little-endian numbers, registers of a width |
| `ClockCrossing` | IpdbgClockDomainCrossing: request/acknowledge handshake between two clocks |
| `JtagScan`, `JtagHub`, `JtagCdc`, `JtagProtocol`, `JtagArbiter`, `JtagProgress`, `JtagXoff` | The JtagHub: data register, clk side, and the protocol between hub and host: its safety, its progress, and when it says stop |
| `LaMemory`, `LaCapture`, `LaReadout`, `LaEndToEnd`, `LaActivation`, `LogicAnalyser`, `RunLength`, `LaCompressed` | Logic analyser: sample ring, readout, whole captures, the commands activate and fire, run-length coder, captures of coded samples |
| `Escaping` | The escaping stage in front of a core, and the sender's side |
| `BusMaster` | What a BusAccess core means, byte by byte |
| `BusCore`, `BusRefinement`, `BusRuns` | The clocked core with its Wishbone master refines it, for every timing |
| `BusCalls`, `BusHost`, `BusEndToEnd` | The host library, and host, core and bus together |
| `BusOpen`, `BusStray`, `BusSession` | Opening a connection, clock by clock, when an answer comes too late for the reset, and opening and calls as one run |
| `WaveController`, `WaveMemory`, `WaveUpload`, `WavePlayback`, `WaveSampled` | Waveform generator: commands, sample memories, playback, with a sample in every clock or not |
| `WaveBytes`, `WaveRuns`, `WaveHost`, `WaveEndToEnd`, `WaveSwitch` | The bytes of an upload, the escaping stage in front of the core, the host libraries, samples from the host to the output, and an upload during playback |
| `WaveCommands`, `WaveProgram`, `WaveAnswers` | Playback from the command byte on, upload and playback as one run, the answers of the core |
| `UartRx` | UART receiver |

## Main results

* **Hub.** Whatever the order of the channels, the pattern of empty scans and the readiness
  of the cores, a host that obeys xoff and xon never loses a byte, and a flow-controlled
  channel never holds more than three bytes, so the branch that loses data is never taken
  (`NothingLostDownwards`). Upwards every byte arrives exactly once and in order
  (`ExactlyOnceUpwards`); after each scan the hub's picture of the host's xoff state is right
  (`XoffAgreement`); a waiting channel is passed by every other source at most once
  (`PassedAtMostOnce`), so a byte handed over reaches the host within one round of words
  (`HeardWithinOneRound`). And a channel that was stopped goes on: if its core takes its bytes,
  the host receives the xon within 38 scans (`XonComes`). The hub says stop exactly when the
  channel keeps back at least two bytes (`XoffIffCrowded`), so never for a core that takes its
  bytes at once (`ReadyCoreIsNeverStopped`).
* **Clock crossing.** Over every interleaving of two clocks nothing is lost, duplicated or
  reordered, the transfer register is stable when it is sampled, and a transfer ends within
  4 * `MFF_LENGTH` + 5 rounds (`Lossless`, `TransferStableWhenSampled`, `TransferEnds`).
* **Logic analyser.** A capture reads out exactly the N samples around the trigger, through the
  ring, the look-ahead comparators and the RAM pipeline (`CaptureWindow`); controller and
  memory send them completely and in order, terminate, and never start a second readout
  (`ReadoutComplete`, `ByteTotal`, `ReadoutTerminates`). In terms of the input streams: once
  N - D samples from the trigger on have come in and the uplink has been ready often enough,
  the capture is over (`CaptureEnds`), and what was sent are the N samples of the stream that
  begin D before the trigger (`CaptureSends`); all that from the activate command on
  (`CommandCaptures`, `RegisterIffObeyed`). Run-length coding is lossless and maximal, and
  with the coder in front of the memory the bytes of a capture decode to consecutive samples of
  the probe (`CompressedCapture`), with the trigger where it was (`TriggerIsFirst`).
* **BusAccess.** For every timing of bytes, bus and uplink, the accesses on the bus are those of
  an ideal master whose every call carries its own address, although the library does not
  resend a repeated address (`SessionOnTheBus`); `lock_o` is '1' exactly from the start of a
  locked access to the end of the next unlocked one (`LockSpan`). Opening a connection resets
  the core whatever was going on, with the two reset symbols at any distance (`OpenRun`), and
  the width query, which may come at the edge right after them, and all calls are served from
  the reset values on (`OpenedSession`); it is known to the edge when an answer to the last
  connection still gets out (`StrayIffInTime`).
* **Waveform generator.** When the address takes at most one byte more than a sample, the samples
  a program writes are in the sample memory modulo 2**DATA_WIDTH when the upload is complete,
  through libraries, escaping stage and controller (`WriteSamples`, `WrittenSamplesAreStored`),
  and are what the output plays, once or again and again, with `first_sample` on sample 0
  (`WrittenSamplesArePlayed`), from the byte by which the host orders it on and until the byte
  that stops it (`CommandIsPlayed`, `StopIsObeyed`), also if the outputs are enabled in some
  clocks only (`SampledComesOut`). With two buffers an upload may come while the other buffer is
  played: the playback goes on to the end of its repetition and then takes up the new waveform
  from its first sample (`UploadSwitches`).
* **UART.** Every stream of 8N1 frames whose bit time is within 2/9 of a sample of 16 samples
  (1.38 %) is received without error, and the receiver is idle again inside each stop bit,
  also with glitches in the pauses (`StreamReceived`); it is known to the sample which low
  levels are no start bit (`PassesIffRejects`, `PulseIsRejected`).

Statements one might expect that are false of the code are stated with their exact condition:

* Repeated playback follows the ideal one exactly for at least two samples (`OneSampleRunsOn`).
* `first_sample` accompanies no sample exactly after a stop that meets the last sample of a
  repetition (`FirstWithoutSample`, `FirstWithoutSampleComesOut`).
* An upload succeeds exactly when `addr_size` is at most `data_size` + 1; otherwise `addr_size_s`
  leaves its declared range, nothing is stored and nothing is answered (`FeedUpload`,
  `WaveformUploaded`).
* Opening a BusAccess connection succeeds exactly when the first byte received is the protocol
  ID and the widths decoded are not all zero; the bytes of the last connection that are handed
  over before the reset come first (`Open`, `GetSizes`). After a connection that had all its
  answers there is such a byte in one case only: the decoder was left in the middle of an
  escape sequence in front of the last byte of a write, the bus answers the write that the
  first reset symbol completes, and the verdict is handed over before the second one resets the
  core (`DrainedStray`, `DrainedOpening`). A sender that stops there is enough to get into that
  state (`StaleIsReachable`, `StaleOnTheBus`); the verdict needs seven more edges and comes with
  a bus and an uplink that do not wait (`StaleTiming`).
* With TDI_HAS_EXT_REGISTER the hub gets the host's word exactly if TDI keeps its level over the
  pauses of a scan (`ExtScanExchange`, `NoPauseHolds`, `PauseLosesABit`).
* A read_modify_write whose read fails leaves the bus locked (`ReadModifyWriteLocks`).

## Model

| member | source | states |
|---|---|---|
| ClockCrossing.LinkStepKeeps | rtl/common/IpdbgClockDomainCrossing.vhd:84-161 | Any edge of either clock, or both at once, keeps the invariant: one front of '1' or '0' moves round request, synchronizer, acknowledge, synchronizer |
| ClockCrossing.RunStepKeeps | rtl/common/IpdbgClockDomainCrossing.vhd:84-161 | An edge keeps: bytes accepted are the bytes delivered and at most one in flight |
| ClockCrossing.Lossless | rtl/common/IpdbgClockDomainCrossing.vhd:66-179 | Over every interleaving, chain length and ready pattern, delivered plus at most one byte in flight is exactly what was accepted |
| ClockCrossing.LosslessFromReset | rtl/common/IpdbgClockDomainCrossing.vhd:78-82 | The same from reset, whatever the undefined registers hold |
| ClockCrossing.TransferStableWhenSampled | rtl/common/IpdbgClockDomainCrossing.vhd:152-154 | When transfer_register is sampled it holds the last accepted byte, not delivered before, and is not loaded at that instant |
| ClockCrossing.EdgeAdvances | rtl/common/IpdbgClockDomainCrossing.vhd:91-104 | No edge moves the front back, and an edge of the side that has it moves it on |
| ClockCrossing.TransferEnds | rtl/common/IpdbgClockDomainCrossing.vhd:91-158 | With a ready consumer a transfer is over within 4 * MFF_LENGTH + 5 rounds of one edge of each clock |
| ClockCrossing.CrossingLossless | rtl/common/IpdbgClockDomainCrossing.vhd:66-295 | Both directions at once over every run of the two clocks |
| ClockCrossing.Handshake.SenderProcess | rtl/common/IpdbgClockDomainCrossing.vhd:77-108 | The sending process computes its step and reports exactly the byte it accepts |
| ClockCrossing.Handshake.ReceiverProcess | rtl/common/IpdbgClockDomainCrossing.vhd:133-161 | The receiving process computes its step and reports exactly the byte it hands over |
| ClockCrossing.Handshake.Clock | rtl/common/IpdbgClockDomainCrossing.vhd:66-179 | One direction at an instant with one or both edges, each side reading the other as it was |
| ClockCrossing.ClockDomainCrossing.Clocks | rtl/common/IpdbgClockDomainCrossing.vhd:66-295 | Both directions over one pair of clocks |
| JtagScan.JtagDr.Edge | rtl/JtagHub/JtagCdc.vhd:131-215 | One DRCLK edge: the sent latches, the shift counter and the shift register, in place |
| JtagScan.JtagDr.ShiftRegister | rtl/JtagHub/JtagCdc.vhd:173-214 | The flip-flops load the captured word or shift by one with TDI last |
| JtagScan.ScanExchange | rtl/JtagHub/JtagCdc.vhd:112-171 | For any length and any pauses a scan exchanges the two words bit 0 first and latches the captured xoff and valid bits |
| JtagScan.ExtScanExchange | rtl/JtagHub/JtagCdc.vhd:118-130 | With TDI_HAS_EXT_REGISTER and any pauses the host gets the captured word; the hub gets the host's exactly if TDI still has the last bit at the edge in front of every further shift |
| JtagScan.NoPauseHolds | rtl/JtagHub/JtagCdc.vhd:118-130 | A scan without a pause meets that condition |
| JtagScan.PauseLosesABit | rtl/JtagHub/JtagCdc.vhd:118-130 | One pause with another level of TDI loses the bit before it |
| JtagScan.ChainHolds | rtl/JtagHub/JtagCdc.vhd:237-263 | A synchronizer of any length delays the update request by its length |
| JtagScan.OneUpdatePerRequest | rtl/JtagHub/JtagCdc.vhd:237-305 | Each rise of the request gives exactly one dwn_enable and one dwn_do_update, MFF_LENGTH + 1 and + 2 edges later |
| JtagHub.StageIsQueue | rtl/JtagHub/JtagCdc.vhd:345-389 | Output register and three slots are a queue of capacity 4, occupied slots a contiguous prefix; a byte is lost only if four others stay |
| JtagHub.TransferHolds | rtl/JtagHub/JtagCdc.vhd:265-305 | The transfer registers load at the edge after the synchronized request only |
| JtagCdc.ClkSide.Edge | rtl/JtagHub/JtagCdc.vhd:218-671 | All clk processes on the registers before the edge give the hub's step |
| JtagCdc.ClkSide.Stage | rtl/JtagHub/JtagCdc.vhd:349-389 | One flow-controlled output stage, last assignment wins |
| JtagCdc.ClkSide.OutputStages | rtl/JtagHub/JtagCdc.vhd:336-411 | Every channel steps on its own, with or without flow control |
| JtagCdc.ClkSide.XoffLogic | rtl/JtagHub/JtagCdc.vhd:420-473 | The xoff bit for the selected channel and the record that the host has seen it |
| JtagCdc.ClkSide.XoffStates | rtl/JtagHub/JtagCdc.vhd:475-497 | The mirrored xoff state of each channel |
| JtagCdc.ClkSide.InputBuffering | rtl/JtagHub/JtagCdc.vhd:551-575 | A slot is filled only when empty and freed only by a transmitted word |
| JtagCdc.ClkSide.Arbitrate | rtl/JtagHub/JtagCdc.vhd:577-669 | The round-robin arbiter with and without flow control |
| JtagProtocol.ClearDropsEverything | rtl/JtagHub/JtagCdc.vhd:315-632 | From any state a valid word to channel 7 empties the hub; its next word announces FLOW_CONTROL_ENABLE |
| JtagProtocol.StartInv | rtl/JtagHub/README.md:203-206 | After the clear the invariant of the protocol holds |
| JtagProtocol.StepKeeps | rtl/JtagHub/JtagCdc.vhd:308-669 | Every clk edge, Capture and Update keeps the invariant of all seven channels |
| JtagProtocol.RunKeeps | rtl/JtagHub/JtagCdc.vhd:308-669 | Every legal run keeps it |
| JtagProtocol.NothingLostDownwards | rtl/JtagHub/JtagCdc.vhd:336-473 | Each core has taken exactly the bytes sent to it but those queued or in flight, at most three with flow control: the losing case is unreachable |
| JtagProtocol.ExactlyOnceUpwards | rtl/JtagHub/JtagCdc.vhd:551-669 | Each byte handed over reaches the host once and in order; at most one per channel is in the hub |
| JtagProtocol.OnlyCapturedWordsRetire | rtl/JtagHub/JtagCdc.vhd:560-573 | A word that became valid after Capture is not retired by that scan, a captured one once |
| JtagProtocol.XoffAgreement | rtl/JtagHub/JtagCdc.vhd:420-497 | After each processed scan xoff_state_host is the host's own; while an xon is under way the host is stopped, nothing in flight, at most one byte queued |
| JtagProtocol.XoffAndXonExclude | rtl/JtagHub/JtagCdc.vhd:615-668 | One word never says stop and go on for the same channel |
| JtagArbiter.RunInTurn | rtl/JtagHub/JtagCdc.vhd:577-669 | In every legal run of the hub that begins with a clear the arbiter has gone on from the source of the word it holds |
| JtagArbiter.PassedAtMostOnce | rtl/JtagHub/JtagCdc.vhd:577-669 | A waiting channel is passed by at most one word of every other source, also after a clear, with or without flow control |
| JtagArbiter.AskedWithinOneRound | rtl/JtagHub/JtagCdc.vhd:577-669 | It waits at most one round of the arbiter, counted in edges without a waiting word |
| JtagProgress.ByteIsHeard | rtl/JtagHub/JtagCdc.vhd:551-669 | From any state of a run the byte in a slot is received at the latest with as many words as are still ahead of it, itself included |
| JtagProgress.HeardWithinOneRound | rtl/JtagHub/JtagCdc.vhd:551-669 | In every legal run from a clear on, a byte handed over is received within one round of words, and one more while the announcement after a clear waits |
| JtagProgress.EdgeRank | rtl/JtagHub/JtagCdc.vhd:420-497 | While the core is ready no edge moves a stopped channel away from its xon, and a scan that is due moves it nearer |
| JtagProgress.XonComes | rtl/JtagHub/JtagCdc.vhd:420-669 | A stopped channel with a ready core: within 38 scans the host receives its xon and goes on, whatever the other channels do |
| JtagXoff.XoffIffCrowded | rtl/JtagHub/JtagCdc.vhd:336-473 | In every legal run a captured word says xoff exactly if one edge before the capture the channel of the host's last valid word had flow control and held at least two bytes |
| JtagXoff.NeverStopped | rtl/JtagHub/JtagCdc.vhd:420-473 | A core that always takes a byte before a second one is queued behind it: the host is never told to stop |
| JtagXoff.ReadyCoreIsNeverStopped | rtl/JtagHub/JtagCdc.vhd:420-473 | A core that is ready at every edge is one |
| JtagXoff.HubSpeaksWhenNeeded | rtl/JtagHub/JtagCdc.vhd:615-668 | A word of the hub but the announcement says go on to at least one channel, and only to channels that were stopped |
| LaMemory.SettledStep | rtl/LogicAnalyser/LogicAnalyserMemory.vhd:237-270 | The RAM with its write pipeline behaves like a RAM written at once |
| LaMemory.HoldsNext | rtl/LogicAnalyser/LogicAnalyserMemory.vhd:102-122 | Recording into the ring keeps the youngest samples in place through the wrap |
| LaCapture.CountingStep | rtl/LogicAnalyser/LogicAnalyserMemory.vhd:124-196 | The look-ahead comparators switch the states exactly at the delay, the trigger and the end |
| LaCapture.CaptureStepKeeps | rtl/LogicAnalyser/LogicAnalyserMemory.vhd:115-235 | Every edge keeps the invariant of ring, counters, read pipeline and samples shown |
| LaCapture.CaptureWindow | rtl/LogicAnalyser/LogicAnalyserMemory.vhd:115-270 | Recording goes on until N-D samples from the trigger on are there and no longer, and nothing is shown before; what is shown is samples j-D .. j-D+N-1, oldest first |
| LogicAnalyser.LogicAnalyserMemory.Clock | rtl/LogicAnalyser/LogicAnalyserMemory.vhd:92-270 | The clocked memory with its RAM in place computes the step |
| LogicAnalyser.LogicAnalyserMemory.Buffer | rtl/LogicAnalyser/LogicAnalyserMemory.vhd:115-235 | The buffering state machine |
| LogicAnalyser.LogicAnalyserMemory.Ram | rtl/LogicAnalyser/LogicAnalyserMemory.vhd:237-270 | The RAM stage, old data on a read during write |
| LogicAnalyser.LogicAnalyserController.Clock | rtl/LogicAnalyser/LogicAnalyserController.vhd:333-343 | init and data_output of the controller |
| LogicAnalyser.LogicAnalyserController.DataOutput | rtl/LogicAnalyser/LogicAnalyserController.vhd:541-586 | The readout sub-machine, last assignment wins |
| LaReadout.HandshakeStep | rtl/LogicAnalyser/LogicAnalyserController.vhd:553-586 | Request and valid never let a sample be taken twice or skipped |
| LaReadout.StoreLowersRequest | rtl/LogicAnalyser/LogicAnalyserController.vhd:560-571 | The request falls at once, also while the uplink is not ready |
| LaReadout.StepKeeps | rtl/LogicAnalyser/LogicAnalyserController.vhd:541-586 | Every edge keeps the joint invariant of controller and memory |
| LaReadout.ReadoutComplete | rtl/LogicAnalyser/LogicAnalyserController.vhd:334-343 | On return to init all N samples are sent completely, in order, from D before the trigger, and full is '0' |
| LaReadout.DoneStays | rtl/LogicAnalyser/LogicAnalyserController.vhd:334-343 | No second readout starts by itself |
| LaReadout.UplinkRun | rtl/LogicAnalyser/LogicAnalyserController.vhd:329-332 | Under any uplink_ready pattern the uplink takes exactly the produced bytes |
| LaReadout.ByteTotal | rtl/LogicAnalyser/LogicAnalyserController.vhd:560-571 | A capture sends exactly N * ceil((DATA_WIDTH + RLC) / 8) bytes |
| LaReadout.ByteOut | rtl/LogicAnalyser/LogicAnalyserController.vhd:560-571 | The bytes of a sample go out least significant first |
| LaReadout.ReadoutTerminates | rtl/LogicAnalyser/LogicAnalyserController.vhd:541-586 | N * (bytes + 9) + 8 edges with uplink_ready end every readout |
| LaEndToEnd.RunRecords | rtl/LogicAnalyser/LogicAnalyserMemory.vhd:115-196 | What is recorded is the beginning of the streams of samples and triggers at the edges with sample_enable, all of them while recording |
| LaEndToEnd.RunHasRecorded | rtl/LogicAnalyser/LogicAnalyserMemory.vhd:115-196 | The same for every run from the activation, with the invariant of controller and memory |
| LaEndToEnd.CaptureEnds | rtl/LogicAnalyser/LogicAnalyserMemory.vhd:115-235 | N-D samples from the trigger on, and then enough edges with uplink_ready, end every capture |
| LaEndToEnd.CaptureSends | rtl/LogicAnalyser/LogicAnalyserController.vhd:541-586 | When it is over, the bytes sent are those of the N samples of the stream that begin D before the first trigger from number D on |
| LaActivation.RegisterIffObeyed | rtl/LogicAnalyser/LogicAnalyserController.vhd:334-359 | Over every run trigger_active is '1' exactly if activate came in init since the last finish, fire_trigger exactly if fire did; a finish in the readout clears both |
| LaActivation.RestsUntilActivate | rtl/LogicAnalyser/LogicAnalyserController.vhd:353-355 | Memory and controller at rest stay so until activate comes; then the capture starts at the next edge |
| LaActivation.RestsUntilByte | rtl/LogicAnalyser/LogicAnalyserController.vhd:193-231 | The byte FE starts it two edges later, the byte 00 (fire) does not |
| LaActivation.CommandRecords | rtl/LogicAnalyser/LogicAnalyserMemory.vhd:115-196 | From the activate command on the streams are recorded as RunHasRecorded says |
| LaActivation.CommandCaptures | rtl/LogicAnalyser/LogicAnalyserController.vhd:334-586 | And when the capture is over, the N samples from D before the trigger on have been sent |
| LaActivation.DoneRests | rtl/LogicAnalyser/LogicAnalyserController.vhd:541-551 | Then memory and controller are at rest, and the next activate starts the next capture |
| LaActivation.IdleWithoutTrigger | rtl/LogicAnalyser/LogicAnalyserMemory.vhd:115-235 | Without trigger_active the memory is idle at the next edge, records nothing and is neither full nor finished |
| RunLength.LogicAnalyserRunLengthCoder.Clock | rtl/LogicAnalyser/LogicAnalyserRunLengthCoder.vhd:53-91 | One edge of the coder |
| RunLength.Lossless | rtl/LogicAnalyser/LogicAnalyserRunLengthCoder.vhd:69-88 | From any start: expanded words plus the pending run are the run being counted at the start and all inputs, with their triggers |
| RunLength.RunsAreMaximal | rtl/LogicAnalyser/LogicAnalyserRunLengthCoder.vhd:75-86 | No run exceeds 2**RLC; equal neighbours only after a full word |
| RunLength.WindowDecodes | rtl/LogicAnalyser/LogicAnalyserRunLengthCoder.vhd:69-88 | Any window of consecutive words decodes to consecutive input samples |
| LaCompressed.WordsComeIn | rtl/LogicAnalyser/LogicAnalyserTop.vhd:209-245 | The words and triggers of the coder are the samples and triggers that go into the memory |
| LaCompressed.CompressedCapture | rtl/LogicAnalyser/LogicAnalyserTop.vhd:209-245 | When a capture behind the coder is over, the bytes sent decode to consecutive samples of the probe: those of the N words from D before the first word, from number D on, that triggers |
| LaCompressed.TriggerIsFirst | rtl/LogicAnalyser/LogicAnalyserRunLengthCoder.vhd:69-88 | That word begins with a sample that triggers, and no sample from word number D up to it does |
| Escaping.IpdbgEscaping.Clock | rtl/common/IpdbgEscaping.vhd:54-98 | One edge of the register stage |
| Escaping.DecodeEscape | rtl/common/IpdbgEscaping.vhd:77-91 | Escaped data decodes to itself, without a reset |
| Escaping.TwoResetsResynchronize | rtl/common/IpdbgEscaping.vhd:79-91 | Two reset symbols resynchronize from either state; only mid-escape the first passes as data |
| Escaping.StageDecodes | rtl/common/IpdbgEscaping.vhd:54-98 | For every valid/ready schedule the core sees exactly what the accepted bytes mean; a reset symbol drops no earlier byte |
| Escaping.EscapedDataArrives | rtl/common/IpdbgEscaping.vhd:54-98 | Escaped data arrives unchanged at the core |
| Escaping.NoResetEscape | sw/BusAccess/BusAccess.c:216-236 | Escaped data contains no reset symbol for a decoder in step |
| Escaping.NoByteWaits | rtl/common/IpdbgEscaping.vhd:52-56 | Behind an empty stage, or one whose byte the core takes, every byte is taken when it is offered |
| Escaping.TakesWhenEmptyOrPassedOn | rtl/common/IpdbgEscaping.vhd:52-56 | An empty stage takes an offered byte whatever ready is, a full one exactly when ready is '1' |
| Escaping.EscapedOnTheWire | rtl/common/IpdbgEscaping.vhd:77-91 | The symbols are 55 and EE (hexadecimal); they and no others are protected |
| BusMaster.FeedField | rtl/BusAccess/BusAccessStatemachine.vhd:378-397 | The bytes of a field in any split complete it with its little-endian value in the field's width |
| BusMaster.WordSlice | rtl/BusAccess/BusAccessStatemachine.vhd:280-317 | The answer to the width query holds the six words, four bytes each |
| BusMaster.WidthsOnTheWire | rtl/BusAccess/BusAccessStatemachine.vhd:47-56 | The answer to AB is 1D, 00, CORE_TYPE, 00 and the widths of write data, read data, address, misc and strobe, four bytes each |
| BusMaster.CommandsOnTheWire | rtl/BusAccess/BusAccessStatemachine.vhd:244-279 | Which byte is which command, with or without lock; a command for a field that does not exist does nothing |
| BusMaster.AnswerOnTheWire | rtl/BusAccess/BusAccessStatemachine.vhd:318-346 | 55 or 33, and for a read the data of the bus |
| BusCore.BusAccessStatemachine.Clock | rtl/BusAccess/BusAccessStatemachine.vhd:190-510 | One edge of the core: state machine, shift register, field registers |
| BusCore.BusAccessStatemachine.ReceiveCommand | rtl/BusAccess/BusAccessStatemachine.vhd:244-279 | The idle state: commands for fields that exist |
| BusCore.BusAccessStatemachine.SendWidths | rtl/BusAccess/BusAccessStatemachine.vhd:280-317 | The width serializer |
| BusCore.BusAccessStatemachine.Read | rtl/BusAccess/BusAccessStatemachine.vhd:318-346 | The read answer and its serializer |
| BusCore.BusAccessStatemachine.Write | rtl/BusAccess/BusAccessStatemachine.vhd:347-377 | Collecting a write, starting it, answering it |
| BusCore.BusAccessStatemachine.Set | rtl/BusAccess/BusAccessStatemachine.vhd:378-397 | Collecting address, misc and strobe |
| BusCore.BusAccessStatemachine.RxRegs | rtl/BusAccess/BusAccessStatemachine.vhd:401-508 | The shared shift register and the field registers behind it |
| BusCore.WbMaster.Clock | rtl/BusAccess/WbMaster.vhd:121-173 | The Wishbone master: cycle, done flags, lock |
| BusCore.WriteKeepsReadData | rtl/BusAccess/WbMaster.vhd:139-171 | A write leaves the data of the last read alone |
| BusRefinement.RemembersNext | rtl/BusAccess/BusAccessStatemachine.vhd:411-424 | The top bytes of the shift register are the youngest bytes, whenever they arrive |
| BusRefinement.WriteAccessRel | rtl/BusAccess/BusAccessStatemachine.vhd:347-377 | A write goes from the shift register to the start pulse to the bus cycle to the answer, in step with the master |
| BusRefinement.ReadAccessRel | rtl/BusAccess/BusAccessStatemachine.vhd:318-346 | The same for a read |
| BusRefinement.ReadAccessConserves | rtl/BusAccess/BusAccessStatemachine.vhd:318-346 | The answer of a read is neither lost nor doubled under any uplink_ready pattern |
| BusRefinement.EndsAsAsked | rtl/BusAccess/WbMaster.vhd:139-171 | The access that ends on the bus has the address, data, strobe, misc and lock that were asked for |
| BusRefinement.StepFollows | rtl/BusAccess/BusAccessStatemachine.vhd:190-510 | Any edge follows the byte-wise master, conserves its answers, and shows its accesses on the bus; a byte that comes while the core is busy is lost, and one for each write does no harm |
| BusRuns.ResetInStep | rtl/BusAccess/BusAccessStatemachine.vhd:199-227 | The reset from the escaping brings core and bus master in step from any state |
| BusRuns.ResetStarts | rtl/BusAccess/BusAccessStatemachine.vhd:199-227 | A run can start after a reset from any state |
| BusRuns.RunInStep | rtl/BusAccess/BusAccessStatemachine.vhd:190-510 | Over every run of a host that waits for its answers, bus accesses and answers are the master's |
| BusRuns.RunFeeds | rtl/BusAccess/BusAccessStatemachine.vhd:190-510 | Only the bytes matter, not their timing |
| BusCalls.CallCarried | sw/BusAccess/BusAccess.c:528-623 | A call does what the ideal master does with the call's own address, and cache and core address agree again |
| BusCalls.SessionCarried | sw/BusAccess/BusAccess.c:528-702 | Over any sequence of calls |
| BusCalls.AccessOnTheWire | sw/BusAccess/BusAccess.c:528-623 | The bytes of an access: the address with its command unless it was the one before, the command with or without lock, the data escaped |
| BusCalls.FieldOnTheWire | sw/BusAccess/BusAccess.c:668-702 | The bytes that set misc and strobe |
| BusCalls.PayloadArrives | sw/BusAccess/BusAccess.c:216-236 | Escaped payload arrives as it was |
| BusCalls.StaleIsReachable | sw/BusAccess/BusAccess.c:216-236 | A write command, all escaped data bytes but the last and an escape symbol leave the decoder in front of the last byte of a write |
| BusCalls.StrayAnswer | sw/BusAccess/BusAccess.c:238-242 | For a host that had all its answers, two reset symbols leave the verdict of a write that the first one completed, if it was answered and handed over before the reset, and nothing else |
| BusOpen.OpenRun | rtl/BusAccess/BusAccessController.vhd:96-142 | From every state a run can reach, also during an access or with answers on their way, two reset symbols at any distance end in step; what was handed over is the beginning of what was owed |
| BusOpen.OpeningRun | rtl/BusAccess/BusAccessStatemachine.vhd:190-227 | Between the symbols core and master stay in step, also when the first symbol is lost on a busy core |
| BusStray.CoreWayStep | rtl/BusAccess/BusAccessStatemachine.vhd:280-377 | In every state each edge brings the next answer one step nearer to the output register, but for waiting for the bus |
| BusStray.StrayIffInTime | rtl/BusAccess/BusAccessController.vhd:96-142 | Something is handed over from the first symbol on exactly if the next answer comes in time, counted in edges |
| BusStray.DrainedStray | rtl/BusAccess/BusAccessController.vhd:96-142 | For a host that had all its answers: exactly the verdict of a write completed by the first symbol, exactly if it comes in time |
| BusStray.StaleTiming | rtl/BusAccess/BusAccessStatemachine.vhd:347-377 | With fewer than seven edges after the first symbol it never does (an asynchronous reset is one edge earlier), with as many it does when bus and uplink do not wait |
| BusStray.StaleOnTheBus | rtl/BusAccess/BusAccessStatemachine.vhd:347-377 | Every run that stops after the escape symbol in front of the last data byte ends in that state |
| BusSession.RunFromReset | rtl/BusAccess/BusAccessStatemachine.vhd:199-227 | What is sent after the second symbol, from the edge of the reset on and in any timing, does what its bytes do to a master that has been reset |
| BusSession.OpenBytesArrive | sw/BusAccess/BusAccess.c:433-453 | The width query and the first address: the widths are answered, and cache and core agree on address 0 |
| BusSession.OpenedSession | sw/BusAccess/BusAccess.c:423-702 | One clocked run from any state: two reset symbols at any distance, width query, first address and any calls are served as the ideal master serves them |
| BusHost.Connection.Send | sw/BusAccess/BusAccess.c:166-186 | A byte goes down; it arrives when all answers have been received, otherwise nothing is said about the core |
| BusHost.BusAccess.SendWithEscaping | sw/BusAccess/BusAccess.c:216-236 | The loop sends exactly the escaped bytes, in step with a core that waits for them |
| BusHost.BusAccess.ReceiveInto | sw/BusAccess/BusAccess.c:189-214 | The next n answer bytes go into the buffer, the rest of it before offset is untouched |
| BusHost.BusAccess.GetSizes | sw/BusAccess/BusAccess.c:249-300 | The widths in the first 24 bytes received, which may begin with bytes of the last connection, or an error for a foreign first byte |
| BusHost.BusAccess.WidthsDecoded | sw/BusAccess/BusAccess.c:274-298 | The widths of the core come out of its own answer |
| BusHost.BusAccess.CoreIdentified | sw/BusAccess/BusAccess.c:43-48 | Protocol ID 1D, version 0, the core type of the core and 0 come out of its version word |
| BusHost.BusAccess.DrainedOpening | sw/BusAccess/BusAccess.c:430-436 | After a connection that had all its answers, the first byte is foreign exactly in the case of StrayAnswer |
| BusHost.BusAccess.SendAddress | sw/BusAccess/BusAccess.c:337-347 | The core takes the address, if it has one |
| BusHost.BusAccess.SetAddress | sw/BusAccess/BusAccess.c:528-543 | A cached address is not sent; cache and core agree afterwards either way |
| BusHost.BusAccess.WriteCtrlLock | sw/BusAccess/BusAccess.c:545-582 | One access as asked, ACK or NAK as the bus answered; error and no effect without write data |
| BusHost.BusAccess.ReadCtrlLock | sw/BusAccess/BusAccess.c:584-623 | The same for a read, with the bytes of the bus also on NAK |
| BusHost.BusAccess.ReadModifyWrite | sw/BusAccess/BusAccess.c:635-666 | A locked read, and only if it is acknowledged an unlocked write of the edited bytes |
| BusHost.BusAccess.SetMiscellaneousData | sw/BusAccess/BusAccess.c:668-684 | misc gets the value, or an error |
| BusHost.BusAccess.SetStrobe | sw/BusAccess/BusAccess.c:686-702 | strobe gets the value, or an error |
| BusHost.BusAccess.Open | sw/BusAccess/BusAccess.c:423-459 | From any state of core and decoder and with the resets at any time: succeeds exactly for a first byte with the protocol ID and widths that are not all zero; in sync and with version 0 and the type of the core when nothing of the last connection came before |
| BusEndToEnd.SessionOnTheBus | sw/BusAccess/BusAccess.c:528-702 | For any calls and any timing the accesses on the bus are the ideal master's, answers in sync, and the cache agrees with the address register of the core |
| BusEndToEnd.LockSpan | rtl/BusAccess/WbMaster.vhd:139-163 | lock_o is '1' exactly from the start of a locked access to the end of the next unlocked one |
| BusEndToEnd.ReadModifyWriteLocks | sw/BusAccess/BusAccess.c:653-665 | Both accesses see the lock held and the same address; after a failed read it stays held |
| WaveController.WaveformGeneratorController.Clock | rtl/WaveformGenerator/WaveformGeneratorController.vhd:93-295 | One edge of the controller and its shift registers, with the range of addr_size_s |
| WaveController.WaveformGeneratorController.ReceiveSample | rtl/WaveformGenerator/WaveformGeneratorController.vhd:199-225 | A sample byte: counters, alive message, end of the upload |
| WaveMemory.WaveformGeneratorMemory.Clock | rtl/WaveformGenerator/WaveformGeneratorMemory.vhd:94-356 | One edge of the memory with both RAMs in place |
| WaveMemory.WaveformGeneratorMemory.WriteFsm | rtl/WaveformGenerator/WaveformGeneratorMemory.vhd:100-137 | The write process |
| WaveMemory.WaveformGeneratorMemory.Play | rtl/WaveformGenerator/WaveformGeneratorMemory.vhd:266-318 | The playback states |
| WaveUpload.PipelineMoves | rtl/WaveformGenerator/WaveformGeneratorMemory.vhd:100-133 | Samples move through shift register, strobe and write port into the memory without loss |
| WaveUpload.StepRel | rtl/WaveformGenerator/WaveformGeneratorController.vhd:138-246 | Every edge of an upload follows the bytes, up to a range error of addr_size_s, and leaves the other buffer alone |
| WaveUpload.AnsweredStep | rtl/WaveformGenerator/WaveformGeneratorController.vhd:199-231 | At most one alive message for every 64 bytes but the last, then exactly one final answer |
| WaveUpload.RunUploads | rtl/WaveformGenerator/WaveformGeneratorController.vhd:138-246 | Over every timing controller and memory do what the bytes say |
| WaveUpload.UploadStarts | rtl/WaveformGenerator/WaveformGeneratorController.vhd:138-170 | An upload can start from any contents of memories and registers at rest |
| WaveUpload.UploadComplete | rtl/WaveformGenerator/WaveformGeneratorMemory.vhd:124-133 | Sample i is at address i, last address and buffer are published, the answers are complete |
| WaveUpload.SettlesSoon | rtl/WaveformGenerator/WaveformGeneratorController.vhd:243-244 | Three clocks after the last byte all samples are stored |
| WaveUpload.NextUpload | rtl/WaveformGenerator/WaveformGeneratorMemory.vhd:106-108 | The next upload starts in step, in the other buffer |
| WaveUpload.CountersFit | rtl/WaveformGenerator/WaveformGeneratorController.vhd:63-65 | The counters stay in their declared ranges but for addr_size_s, and that leaves it only for addr_size > data_size + 1 |
| WaveUpload.BrokenStoresNothing | rtl/WaveformGenerator/WaveformGeneratorController.vhd:232-241 | After it has, nothing has been stored and nothing answered |
| WaveBytes.FieldShiftedIn | rtl/WaveformGenerator/WaveformGeneratorController.vhd:250-296 | Bytes shifted in most significant first leave the field's value in the register's width, whatever it held |
| WaveBytes.UploadDecodes | sw/WaveformGenerator/WaveformGenerator.c:543-560 | The escaped upload decodes to the plain one |
| WaveBytes.FeedUpload | sw/WaveformGenerator/WaveformGenerator.c:543-560 | The bytes of an upload leave the samples and count - 1 in the core if addr_size <= data_size + 1, and a range error otherwise |
| WaveBytes.WaveformUploaded | rtl/WaveformGenerator/WaveformGeneratorController.vhd:199-241 | For any timing and addr_size <= data_size + 1, sample i is stored modulo 2**DATA_WIDTH at address i, last index count - 1, at most (bytes - 1) / 64 alive messages; otherwise nothing is stored or answered |
| WaveRuns.StageBytes | rtl/common/IpdbgEscaping.vhd:54-98 | Behind the clocked stage come the decoded bytes, but for one it may still hold |
| WaveRuns.EscapedUpload | rtl/common/IpdbgEscaping.vhd:54-98 | WaveformUploaded for the escaped bytes in front of the stage, offered in any clocks |
| WaveRuns.ResetStarts | rtl/WaveformGenerator/WaveformGeneratorController.vhd:96-118 | One clock after a reset, whatever was going on, the next upload can start |
| WavePlayback.PlayerFollows | rtl/WaveformGenerator/WaveformGeneratorMemory.vhd:266-318 | The player with its look-ahead is the ideal player of at least two samples |
| WavePlayback.OneSampleRunsOn | rtl/WaveformGenerator/WaveformGeneratorMemory.vhd:299-302 | Repeated playback follows the ideal one from sample 0 exactly when there are at least two samples |
| WavePlayback.FirstWithoutSample | rtl/WaveformGenerator/WaveformGeneratorMemory.vhd:299-312 | A first_sample with nothing playing comes exactly after a stop at the last sample of a repetition |
| WavePlayback.FirstWithoutSampleComesOut | rtl/WaveformGenerator/WaveformGeneratorMemory.vhd:214-355 | The same on the outputs, for every run |
| WavePlayback.RepetitionIsWhole | rtl/WaveformGenerator/WaveformGeneratorMemory.vhd:299-318 | A repetition plays its own waveform to the end whatever is written meanwhile |
| WavePlayback.RepetitionEnds | rtl/WaveformGenerator/WaveformGeneratorMemory.vhd:303-318 | A new length and buffer take effect at the boundary; a one-shot ends after one pass |
| WavePlayback.PlaysCyclically | rtl/WaveformGenerator/WaveformGeneratorMemory.vhd:299-312 | An unchanged waveform repeats with period last + 1 until stop |
| WavePlayback.OutputsAreAligned | rtl/WaveformGenerator/WaveformGeneratorMemory.vhd:321-351 | Sample, first_sample and output_active wait exactly as long as the RAM |
| WavePlayback.RunFollows | rtl/WaveformGenerator/WaveformGeneratorMemory.vhd:214-355 | Over every run the player is the ideal one |
| WavePlayback.PlaybackComesOut | rtl/WaveformGenerator/WaveformGeneratorMemory.vhd:214-355 | The outputs are those of the ideal player three clocks before |
| WavePlayback.PlayedBufferIsUntouched | rtl/WaveformGenerator/WaveformGeneratorMemory.vhd:113-121 | With two buffers an upload does not touch the one being played |
| WaveSampled.SampledFollows | rtl/WaveformGenerator/WaveformGeneratorMemory.vhd:266-318 | For every pattern of data_out_enable the player is the ideal one at the enabled clocks |
| WaveSampled.SampledComesOut | rtl/WaveformGenerator/WaveformGeneratorMemory.vhd:214-355 | The outputs at an enabled clock are those of the player three clocks before |
| WaveSampled.OutputsStay | rtl/WaveformGenerator/WaveformGeneratorMemory.vhd:340-352 | Without data_out_enable the outputs stay as they are |
| WaveSampled.GivenIffCame | rtl/WaveformGenerator/WaveformGeneratorMemory.vhd:248-262 | The player is given an order exactly if it comes now or came after the last enabled clock |
| WaveHost.EscapeInto | sw/WaveformGenerator/WaveformGenerator.c:198-205 | One or two bytes appended in place, the buffer before untouched |
| WaveHost.EscapeNumber | sw/WaveformGenerator/WaveformGenerator.c:549-551 | The last index, most significant byte first, escaped |
| WaveHost.WaveformGenerator.Fill | sw/WaveformGenerator/WaveformGenerator.c:536-559 | The buffer holds exactly the escaped upload and is never overrun |
| WaveHost.WaveformGenerator.BufferHasASize | sw/WaveformGenerator/WaveformGenerator.c:532-538 | The guard keeps the buffer size inside size_t |
| WaveHost.WaveformGenerator.AcceptsWhatFits | sw/WaveformGenerator/WaveformGenerator.c:514-538 | An upload is accepted exactly if it fits into the memory of the core and into size_t, and the escaped buffer has a size |
| WaveHost.WaveformGenerator.Write | sw/WaveformGenerator/WaveformGenerator.c:514-580 | Refuses exactly bad counts; otherwise the escaped upload is sent, and succeeds exactly if addr_size <= data_size + 1: the core has the samples and all answers are consumed |
| WaveHost.WaveformGenerator.ReceiveDone | sw/WaveformGenerator/WaveformGenerator.c:566-579 | The loop consumes exactly the alive messages and the final answer, or ends with a timeout when there is none |
| WaveHost.SampleField | sw/WaveformGenerator/WaveformGeneratorCxx.cpp:118-121 | The bytes of a signed sample stand for it modulo 2**bits |
| WaveHost.InRangeMeans | sw/WaveformGenerator/WaveformGeneratorCxx.cpp:102-122 | In range are exactly the values from -2**(bits - 1) to 2**bits - 1 |
| WaveHost.WaveformGeneratorCxx.FillBuffer | sw/WaveformGenerator/WaveformGeneratorCxx.cpp:102-122 | Throws exactly for a sample out of range; else the buffer holds all samples |
| WaveHost.WaveformGeneratorCxx.WriteSamples | sw/WaveformGenerator/WaveformGeneratorCxx.cpp:87-125 | The bytes sent are the escaped upload of the samples in two's complement; accepted samples are in the core modulo 2**bits, rejected ones leave everything alone |
| WaveEndToEnd.UploadIsPlayed | rtl/WaveformGenerator/WaveformGeneratorMemory.vhd:94-356 | A one-shot puts every sample out once and then nothing, repeated playback sample k mod count for ever, from the start order on or, with SYNC_MASTER = false, from the first sync_in after it; first_sample on sample 0 |
| WaveEndToEnd.WrittenSamplesAreStored | sw/WaveformGenerator/WaveformGeneratorCxx.cpp:87-125 | The bytes of WriteSamples, through the clocked stage in any timing, leave sample i modulo 2**DATA_WIDTH at address i and the other buffer alone |
| WaveEndToEnd.WrittenSamplesArePlayed | rtl/WaveformGenerator/WaveformGeneratorMemory.vhd:94-356 | And these come out of the generator, with either SYNC_MASTER |
| WaveCommands.OrderOfByte | rtl/WaveformGenerator/WaveformGeneratorController.vhd:138-170 | F0, F1 and F6 received in init order start, stop and one shot at the clock that follows, and nothing else does |
| WaveCommands.PlayerTold | rtl/WaveformGenerator/WaveformGeneratorMemory.vhd:94-108 | Over every run the player is told stop and one shot at once, start three clocks late |
| WaveCommands.CommandIsPlayed | rtl/WaveformGenerator/WaveformGeneratorMemory.vhd:94-356 | From the byte F6 or F0 on, through stage, controller and memory: the stored samples come out once, or again and again from start or the first sync_in after it |
| WaveCommands.StopIsObeyed | rtl/WaveformGenerator/WaveformGeneratorMemory.vhd:303-312 | The byte F1 ends repeated playback, and nothing comes out any more |
| WaveProgram.UploadOrdersNothing | rtl/WaveformGenerator/WaveformGeneratorController.vhd:138-241 | No byte of an upload orders anything |
| WaveProgram.WrittenSamplesArePlayed | sw/WaveformGenerator/WaveformGeneratorCxx.cpp:87-125 | One run: the bytes of WriteSamples and then the byte F6 or F0, in any clocks; what comes out are the samples modulo 2**DATA_WIDTH |
| WaveAnswers.Answered | rtl/WaveformGenerator/WaveformGeneratorController.vhd:172-197 | F2 is answered by DATA_WIDTH and ADDR_WIDTH, four bytes each, F5 by the bits enabled and DOUBLE_BUFFER, under any behaviour of the uplink |
| WaveAnswers.AnswersSoon | rtl/WaveformGenerator/WaveformGeneratorController.vhd:172-197 | Within eight edges at which the uplink is ready |
| WaveAnswers.AliveExactly | rtl/WaveformGenerator/WaveformGeneratorController.vhd:199-231 | With an uplink that is always ready, exactly one alive message for every 64 bytes but the last, and then the final answer |
| WaveSwitch.AlongRun | rtl/WaveformGenerator/WaveformGeneratorMemory.vhd:94-318 | During an upload in any timing the player keeps on with the old waveform or the new one, and the new one is announced only when its last sample is stored |
| WaveSwitch.SwitchesAtBoundary | rtl/WaveformGenerator/WaveformGeneratorMemory.vhd:299-312 | The output goes on to the end of the repetition and then shows the new waveform from its sample 0 on, again and again |
| WaveSwitch.UploadSwitches | rtl/WaveformGenerator/WaveformGeneratorMemory.vhd:94-356 | The same for the bytes of a whole upload that come in any clocks while the other buffer is played |
| UartRx.IpdbgUartRx.Sample | rtl/Uart/IpdbgUartRx.vhd:96-220 | One sample of both processes |
| UartRx.IpdbgUartRx.MajorityCounter | rtl/Uart/IpdbgUartRx.vhd:100-119 | The window, its counter and the majority |
| UartRx.IpdbgUartRx.Receive | rtl/Uart/IpdbgUartRx.vhd:134-219 | The receiver states for 8N1 |
| UartRx.CounterCounts | rtl/Uart/IpdbgUartRx.vhd:110-115 | The counter always equals the number of ones in the window |
| UartRx.SamplesInBit | rtl/Uart/README.md:34-36 | Twelve samples of every bit are inside it for any phase within the tolerance |
| UartRx.QuietLineIsReady | rtl/Uart/IpdbgUartRx.vhd:100-119 | Whatever window and idle receiver hold, 17 samples of a high line make the receiver ready for a frame, and nothing is received |
| UartRx.PassesIffRejects | rtl/Uart/IpdbgUartRx.vhd:162-184 | Over any stretch of the line a ready receiver delivers nothing and is ready again exactly if at each low sample that it takes for a start at least eight of the sixteen samples around it are high |
| UartRx.PulseIsRejected | rtl/Uart/IpdbgUartRx.vhd:177-184 | A single low pulse is rejected exactly if it has at most eight samples |
| UartRx.FrameReceived | rtl/Uart/IpdbgUartRx.vhd:162-216 | A frame is received and the receiver is idle 146 samples after the falling edge |
| UartRx.StreamReceived | rtl/Uart/IpdbgUartRx.vhd:96-220 | Every stream of frames, with rejected low levels in the pauses, gives exactly its bytes; idle again inside each stop bit, no false start |

## Left out

- Sockets, timeouts, name resolution, error texts, closing of connections and failing memory allocation: a byte stream is ideal, a receive waits for bytes that are owed.
- Power-up values, resets in the middle of a run other than by the reset symbols of BusAccess, metastability and timing: the synchronizers are ideal flip-flops and every interleaving of the clocks is allowed.
- Aborted or short DR scans, and a second reset of the hub within a run (`ClearDropsEverything` holds from any state). A scan is one Capture and one Update to the clk side; `ScanExchange` and `OneUpdatePerRequest` connect them with the shifts and the synchronizer. A Capture comes at least four edges after the synchronized request.
- Logic analyser: the other states of the controller (commands, masks, identification) and host commands during a capture; LogicAnalyserTrigger, whose output is an input here. Bits of the last byte beyond the sample width are undefined.
- LogicAnalyser.LogicAnalyserController.Clock: models init and data_output only, the states a capture goes through; the command states set masks, values, delay and trigger, which are inputs here, so no property depends on how they are received; of the command bytes only activate and fire are decoded.
- LogicAnalyserRunLengthCoder with RUN_LENGTH_COMPRESSION = 0, which passes the samples on.
- BusAccess: the other bus masters, IoProbe and the field helpers for AXI, APB, Avalon and AHB; a host that sends more than the two reset symbols before it has its answers; how long a run takes to come to rest (that depends on the bus).
- Waveform generator: more than one upload before the previous one is switched in, opening and closing the connection.
- BusHost.Connection.Send: says nothing about the core when a byte comes before all answers have been received, because that depends on the timing; Open sends such bytes only after it has decoded widths from bytes of the last connection.
- UartRx.IpdbgUartRx.Receive: parity is left out (PARITY = 0), with data_err, which only reports it, and rts. The clock divider and the synchronizer in front only shift all samples by the same time.
- IpdbgUartTx (sends a byte bit by bit), UartBridge (joins UART and channel), IoView (registers between channel and pins), the co-simulation, bindings, vendor primitives, port maps and build files: no property here depends on them.
