# MCP2515 CAN driver: a verified model

This project models the MCP2515 CAN controller driver of the repository, from DMA
completion interrupts up to the calls a user task makes, and proves what each layer
promises the one above it. Everything is Dafny 4.11; `dafny verify dfyconfig.toml`
checks it.

## The layers

- **Tasks** (`source/mcp2515Task.cpp`). `Protocol.dfy` is a state machine with the INT
  interrupt handler, the `canService` task, one reading task, one sending task and the
  chip, one atomic step each, in any interleaving. A run is `After(s, es)` for any
  sequence of events `es`; every result is about all of them. `Mcp2515Task.dfy` is the
  driver object with its fields and its methods as they are written; each statement is
  shown to be exactly one step of that machine, with anything the others do in between
  taken from a schedule, so every result about runs holds of the object. The results are in
  `InterruptProperties.dfy`, `BusOff.dfy`, `TimestampProperties.dfy`, `StampOrigin.dfy`,
  `ReceiveProperties.dfy`, `ExactlyOnceReceive.dfy`, `RefillLoss.dfy`, `ReadOrder.dfy`,
  `TransmitProperties.dfy`, `OneFrameAtATime.dfy`, `BusFrames.dfy`, `Settling.dfy` and
  `AtRest.dfy`.
- **Registers** (`source/mcp2515.cpp`). `CanFrame.dfy` says which CAN frame a message
  buffer stands for, independently of the driver's packing (section 3.2.1 of the Bosch
  CAN Specification 2.0 Part B). `Mcp2515.dfy` is the driver object over an SPI object
  it has to itself. `Filters.dfy`, `Acceptance.dfy` and `AppliedFilters.dfy` are about the
  acceptance filters (section 4.5 of the MCP2515 data sheet, DS20001801).
- **Bus** (`source/spi.cpp`, `source/dma.cpp`). `SpiDevice.dfy` is the chip's end of the
  SPI bus (section 12 of DS20001801). `Spi.dfy` and `Dma.dfy` are the two objects,
  and `Fifo.dfy` counts the bytes in the two FIFOs between a transfer and the wire.
  `BusRefinement.dfy` is the bus shared by any number of tasks, byte by byte; it is why
  the layers above may take a register command as one step, and `BusProgress.dfy` why that
  step can be made. `DmaTokens.dfy` is the completion protocol of a transfer, statement by
  statement.

What the chip does is written with the data sheet's numbers, what the driver does with the
names of `include/mcp2515reg.h`; so a wrong name, address or mask in the driver shows.

## What turned out not to hold as one would like

- One frame at a time. The transmit token of a send that was followed by a completion
  stays in the semaphore, so after send, completion, send, a third send finds the pending
  bit set, takes that token at once and rewrites TXB0 under an outstanding TXREQ:
  `OneFrameAtATime.ThirdSendCanRewrite`. `OneFrameAtATime.RewriteNeedsToken` is the exact
  condition after any run: with no error to come, a send can do that if and only if a TXREQ
  stands and TXB0 is unmarked, a token is stored, TX0IF or an error flag is set, or the
  service still owes the give of the pass it is in. While the service sleeps only the
  pending bit, the semaphore and the chip's registers matter. If no send has taken a token
  left over from an earlier one, what remains is a TXREQ with a token stored or about to be
  given: `OneFrameAtATime.DisciplinedRewriteNeedsStaleToken`. An error pass clears the
  pending bit and gives a token while TXREQ stands, so with errors to come a standing TXREQ
  alone is enough, and nothing less is: `OneFrameAtATime.RewriteAmidErrors`.
- Whole frames. What is requested is always whole, but when the chip sends in the middle of
  a load that rewrites TXB0, a frame nobody asked for can go out:
  `BusFrames.MixedFrameCanGoOut`. For a send that tests the bit after any run,
  `BusFrames.MixedFramesNeedRewrite` is the exact condition: the send can rewrite TXB0 under
  TXREQ, as above, and some first writes of it over what TXB0 holds give neither the old
  frame nor the new one. `BusFrames.MixedFramesAmidErrors` is the one with errors to come.
  As long as the chip does not send there, every frame on the bus is a requested one,
  errors included: `BusFrames.BusCarriesRequests`.
- Exactly-once receive. RXnIF is cleared before the user reads the buffer, so the chip can
  refill a buffer whose frame still waits, and that frame never reaches the user:
  `RefillLoss.RefillLosesAFrame`. `RefillLoss.OnlyRefillsLoseFrames` is the exact condition:
  a frame arriving now can spoil what the user gets if and only if the service is about to
  mark the buffer, its pending bit is set, or its last register has not been read yet.
- Order across buffers. Without refills a frame in RXB1 never overtakes an older one in
  RXB0: `ReadOrder.Rx1NeverOvertakes`. A frame that arrives in RXB0 while one waits in RXB1
  can be handed over first, and that is so if and only if the reader has not yet found
  RXB0's bit clear and gone for RXB1: `ReadOrder.Rx0OvertakesUntilTested`.
- Reverse round trip. An extended frame whose identifier fits in 11 bits goes on as a
  standard frame: `FrameRoundTrip.RepackedIsCanonical` is the exact condition.
- Payload and masks. A mask set as extended over a filter set as standard makes acceptance
  depend on the payload unless the mask's low 16 bits are clear:
  `Acceptance.MixedFormatsIgnorePayload`.
- Timestamps. A timestamp is the time of the handler run that was the latest one when the
  service last saw a receive flag. If the service saw the flag before the handler's first
  run, 0 can be handed out, even after the handler has run:
  `TimestampProperties.TimestampCanBeUnreal`. `StampOrigin.TimestampsAreOfReceivePasses` says
  from the schedule alone which run it is. `TimestampProperties.EarlyStampsAreUnreal` is
  the exact condition at every such statement of the service.
- Completion tokens. If the task can run while the handler does, on another core, the next
  transfer can start between a channel's give and its acknowledge; the completion is lost if
  and only if the channel also finishes before the acknowledge:
  `DmaTokens.OnlyOvertakingLosesCompletions` and `DmaTokens.OvertakingHappens`. On one core
  that never happens: `DmaTokens.OneCoreNeverOvertakes`. A transfer that lost a completion
  never returns; one that returns, in any run, leaves nothing behind:
  `DmaTokens.NoTransferReturnsOnAnOldToken`.
- Long transfers. A receive FIFO that is full when a byte is shifted loses it, and then the
  transfer does not return: `Spi.OverrunHangs`. Transfers of more than eight bytes, and only
  those, can come to that: `Fifo.OnlyLongTransfersOverrun`. The driver's have at most four.
- Comments in `include/mcp2515Task.h`. Line 27 says the receive semaphore is given once per
  received frame; the code gives it once per flag seen and loses gives beyond two. Line 30
  calls the bits of `_pendingTxBuf` "ready"; a set bit means a send is outstanding. The
  model follows the code.

## Assumptions

- One reading and one sending task, as the two calls are meant to be used. Each `|=` and
  `&=` on the pending bytes, each semaphore operation, each 64-bit time copy and, by
  `BusRefinement.InterleavedCommandsAreAtomic`, each register command is one step.
- The object starts as `initialInTask` leaves it: semaphores empty, bits clear, enabled
  interrupts 0xE7, no enabled flag set and no transmission requested.
- The chip: a message buffer is filled whole while its flag is clear, with a length of at
  most 8; flags are set at any time; TXREQ falls when the frame is sent; INT is low while
  an enabled flag is set, and its falling edge is latched until the handler runs.
- In `Spi.dfy` the interrupt handler preempts the task, which does not run while the handler
  does; `DmaTokens.dfy` does without that assumption.

## Model

| member | source | states |
|---|---|---|
| InterruptProperties.NoInterruptIsLost | source/mcp2515Task.cpp:39-87 | in every run, when the service is at or blocked on the take and INT is low, the semaphore is full or an edge or handler run is on its way |
| InterruptProperties.PassesAreBounded | source/mcp2515Task.cpp:55-84 | in every run from the loop head: passes of the inner loop are at most the flags then set plus the flags the chip set since |
| InterruptProperties.TwoQuietPassesAreEnough | source/mcp2515Task.cpp:55-84 | as long as the chip sets no new flag, at most two passes, and INT is high after the second |
| InterruptProperties.ServiceClears | source/mcp2515Task.cpp:60-74 | what each statement of the service leaves in CANINTF |
| InterruptProperties.ServicePays | source/mcp2515Task.cpp:55-84 | every pass clears a flag of those it read: passes are paid for by cleared flags, and flags set, standing and cleared balance |
| BusOff.BusOffIsRecovered | source/mcp2515Task.cpp:59-67 | in every interleaving, from any read of EFLG on: with TXBO set CANCTRL is written to 0x80 and then to 0x04 before the pass ends, with TXBO clear it stands |
| BusOff.ModeIsNormal | source/mcp2515Task.cpp:59-67 | in every run, whenever the service is not in an error pass CANCTRL is 0x04 or as at the start |
| BusOff.OnlyBusOffChangesMode | source/mcp2515Task.cpp:55-84 | in every run, only the service changes CANCTRL, and only in an error pass that read TXBO |
| StampOrigin.TimestampsAreOfReceivePasses | source/mcp2515Task.cpp:39-100 | in every run, read off the schedule alone: _lastRxTime, and every timestamp handed out, is the time of the handler run that was the latest at the last stamp of a pass that had read RX0IF or RX1IF |
| StampOrigin.MarkedFramesAreStamped | source/mcp2515Task.cpp:69-81 | in every run, by the time a pass marks a receive buffer or gives its token, _lastRxTime is of a handler run no older than the latest one when the pass read CANINTF |
| TimestampProperties.TimestampsAreHandlerRuns | source/mcp2515Task.cpp:39-70 | in every run each timestamp handed out is the time of the handler run it names; timestamps never decrease and are never in the future |
| TimestampProperties.EarlyStampsAreUnreal | source/mcp2515Task.cpp:69-100 | in every run, at a stamp for a received frame: from there on a timestamp that is no handler run's can be handed out after the handler has run if and only if the handler has not run by the time of the stamp |
| TimestampProperties.LateStampsAreReal | source/mcp2515Task.cpp:69-100 | in every run without such a stamp, every timestamp handed out is a handler run's |
| TimestampProperties.TimestampCanBeUnreal | source/mcp2515Task.cpp:69-100 | from every start, for any frame, a run in which the handler has run before the reader copies its timestamp, and what is handed out is 0 and no run's |
| ReceiveProperties.NoReceiveWakeupIsLost | source/mcp2515Task.cpp:72-107 | in every run, refills and dropped gives included: pending bits are at most tokens stored, gives owed and reads in progress; an idle service and an empty semaphore mean no pending bit |
| ExactlyOnceReceive.EveryFrameIsDeliveredOnce | source/mcp2515Task.cpp:69-108 | in every run without refills: pending bits equal tokens stored, owed and taken; per buffer, deliveries are the arrivals, once each, unaltered, in order |
| RefillLoss.OnlyRefillsLoseFrames | source/mcp2515Task.cpp:72-108 | after any run without refills, at a buffer with its flag clear: some frame arriving now and some continuation make the user's deliveries differ from the arrivals if and only if the last frame is marked, about to be, or not read to its last register |
| RefillLoss.RefillLosesAFrame | source/mcp2515Task.cpp:72-73 | from every start, for any two messages, a run that ends at rest with both frames received and the first never handed over |
| RefillLoss.ReadEnds | source/mcp2515.cpp:65-95 | a read, left alone, hands over what its buffer stands for |
| RefillLoss.ReaderReaches | source/mcp2515Task.cpp:98-107 | with tokens as many as pending bits the reader, left alone, comes to any pending buffer |
| RefillLoss.SpoiledIsOther | source/mcp2515.cpp:65-95 | changing the one register a read takes next changes the message it ends with |
| ReadOrder.Rx1NeverOvertakes | source/mcp2515Task.cpp:69-107 | in every run without refills, with one arrival order for both buffers: at each hand-over out of RXB1 a frame still unread in RXB0 is a younger one |
| ReadOrder.Rx0OvertakesUntilTested | source/mcp2515Task.cpp:98-107 | after any run without refills, with a frame unread in RXB1: one arriving in RXB0 now can be handed over first if and only if the reader has not yet tested the bit and gone for RXB1 |
| ExactlyOnceReceive.NoGiveIsDropped | source/mcp2515Task.cpp:76-81 | without refills the receive semaphore never drops a give |
| ExactlyOnceReceive.BufferStands | source/mcp2515Task.cpp:55-108 | no step but a receive into it changes a receive buffer |
| TransmitProperties.NoTransmitWakeupIsLost | source/mcp2515Task.cpp:58-96 | in every run, errors included: a sender waiting on an empty semaphore has a frame in flight, TX0IF or an error flag set, or a give still owed by the service |
| TransmitProperties.SendsAreBounded | source/mcp2515Task.cpp:58-96 | in every run: sends, stored and taken tokens and a clear bit are at most 1 plus unmarkings plus gives; so at most 1 + 2E sends after E completion or error passes |
| TransmitProperties.RequestedFrameIsWhole | source/mcp2515.cpp:50-63 | in every run, at the step that sets TXREQ TXB0 stands for exactly the caller's identifier, length and payload, as a data frame of lowest priority; no step of a load touches a register outside 0x30..0x3D |
| BusFrames.BusCarriesRequests | source/mcp2515Task.cpp:58-96 | in every run, rewrites and errors included, in which the chip does not send between a load's first and last write: the frames on the bus are requested ones, in order, at most once each |
| BusFrames.MixedFramesNeedRewrite | source/mcp2515Task.cpp:58-96 | after any run at all, a send at its test can lead, with no error to come, to a frame on the bus that is neither the standing one nor its own if and only if it can rewrite TXB0 under TXREQ and some first writes of it make such a frame of what TXB0 holds |
| BusFrames.MixedFramesAmidErrors | source/mcp2515Task.cpp:58-96 | the same with errors to come, if and only if a TXREQ stands and some first writes make such a frame |
| BusFrames.MixedFrameCanGoOut | source/mcp2515.cpp:50-63 | from every start, an error-free run that puts a frame on the bus that is no request's |
| OneFrameAtATime.FramesLeaveOnceInOrder | source/mcp2515Task.cpp:74-96 | without errors, and if no send finds the bit set while a token is stored or about to be given: TXB0 is never rewritten under TXREQ, and frames leave once each, in order |
| OneFrameAtATime.RewriteNeedsToken | source/mcp2515Task.cpp:58-96 | after any run at all, a send at its test can come to rewrite TXB0 under TXREQ with no error to come if and only if a TXREQ stands and TXB0 is unmarked, a token is stored, TX0IF or an error flag is set, or the service still owes a give |
| OneFrameAtATime.DisciplinedRewriteNeedsStaleToken | source/mcp2515Task.cpp:74-96 | after a run without errors in which no send found the bit set and a token around, that is so if and only if a TXREQ stands and a token is stored or about to be given |
| OneFrameAtATime.TokenArrives | source/mcp2515Task.cpp:54-87 | from any state of any run with a token stored, owed or due for a flag that is set: without errors some schedule stores it, with TXREQ and the sender as they were |
| OneFrameAtATime.RewriteAmidErrors | source/mcp2515Task.cpp:58-96 | after any run at all, a send at its test can come to rewrite TXB0 under TXREQ, errors permitting, if and only if a TXREQ stands |
| OneFrameAtATime.ErrorBringsToken | source/mcp2515Task.cpp:58-67 | from any state of any run an error leads to a stored transmit token, with TXREQ as it was |
| OneFrameAtATime.ThirdSendCanRewrite | source/mcp2515Task.cpp:90-96 | from every start, for any frame, a run of send, completion, send whose third send can rewrite TXB0 under TXREQ |
| AtRest.RestMeansNothingMissed | source/mcp2515Task.cpp:49-108 | in every run, with the service asleep: no handled flag is set, no pending bit waits for a sleeping reader, a sleeping sender has its frame in flight |
| AtRest.RestMeansAllDelivered | source/mcp2515Task.cpp:49-108 | without refills, a system at rest has handed over every frame it received, in order |
| AtRest.EveryFrameReachesTheUser | source/mcp2515Task.cpp:49-108 | after any run without refills, for every schedule of handler, service and reader: boundedly many moves, and when none is left every frame received has been handed over, in order |
| Settling.EveryScheduleComesToRest | source/mcp2515Task.cpp:39-108 | from every state of every run, refills and errors included, for every schedule of handler, service and reader: boundedly many moves, and when none is left service and reader are asleep |
| Settling.WorkDrops | source/mcp2515Task.cpp:39-108 | every step of handler, service or reader uses up some of the work that is left |
| Settling.RestIsReached | source/mcp2515Task.cpp:39-108 | from every state of every run some schedule of the three comes to rest |
| Mcp2515Task.Mcp2515Task.constructor | source/mcp2515Task.cpp:13-37 | the state initialInTask leaves behind is a start of the protocol |
| Mcp2515Task.Mcp2515Task.IrqHandler | source/mcp2515Task.cpp:39-44 | records the time of its own run and leaves the semaphore full, in two steps of the protocol |
| Mcp2515Task.Mcp2515Task.ErrorBranch | source/mcp2515Task.cpp:59-67 | clears error flags, unmarks TXB0 once, gives the transmit semaphore once, and marks or gives nothing else; if the EFLG read has bit 0x20, CANCTRL goes to 0x80 and back to 0x04, if not it stands |
| Mcp2515Task.Mcp2515Task.FlagBranch | source/mcp2515Task.cpp:69-82 | clears each of RX0IF, RX1IF and TX0IF it read once; one marking and one give for each receive flag, one unmarking and one give for TX0IF; _lastRxTime becomes the time of the last interrupt if a receive flag was read, and stands if not |
| Mcp2515Task.Mcp2515Task.Drain | source/mcp2515Task.cpp:55-84 | the inner loop ends for every schedule, after a bounded number of passes |
| Mcp2515Task.Mcp2515Task.Run | source/mcp2515Task.cpp:54-87 | for every schedule the service ends up blocked on an empty semaphore, after a bounded number of passes; then INT is high or a wake-up is on its way |
| Mcp2515Task.Mcp2515Task.RxReadInTask | source/mcp2515Task.cpp:98-108 | returns the one message just handed over out of one buffer, RXB0 if and only if its bit was set at the call's test, and the timestamp handed out with it, or has met a length its array does not hold, which takes an array shorter than 8 bytes or a refill; blocks for good only on an empty semaphore with nothing left to happen |
| Mcp2515Task.Mcp2515Task.ReadHeader | source/mcp2515.cpp:65-76 | the header reads, in the source's order, with the others running in between |
| Mcp2515Task.Mcp2515Task.TxBuffer0SendInTask | source/mcp2515Task.cpp:90-96 | admits exactly the caller's send and requests exactly the caller's frame; blocks for good only while a completion or error is still to come |
| Mcp2515Task.Mcp2515Task.TxBuffer0Send | source/mcp2515.cpp:50-63 | one register write a step, with the others running in between: the frame requested is the caller's |
| Mcp2515Task.FewPasses | source/mcp2515Task.cpp:55-84 | n scheduled events allow at most 6n passes beyond the flags set at the start |
| Mcp2515Task.OthersLeaveUntouched | source/mcp2515Task.cpp:39-108 | no step of another actor or the chip moves an actor or changes what only it records |
| BufferReads.AssembledIsUnpacked | source/mcp2515.cpp:65-79 | register values read one at a time, each chosen from those before, make up the message the buffer holds |
| BufferReads.LastReadAssembles | source/mcp2515.cpp:65-95 | a read whose values so far match its buffer ends with the message the buffer stands for |
| Registers.LengthsAreNumbers | source/mcp2515.cpp:60-68 | the low four bits and the length byte, as used in the model, are the numbers the source computes |
| Registers.WriteEffect | source/mcp2515.cpp:43-48 | a byte written is the one read back, unless it goes to a filter register outside configuration mode; every other register stands |
| Registers.BitModifyEffect | source/mcp2515.cpp:97-102 | the bits in the mask become the data's, the others and every other register stand |
| CanFrame.UnpackIsReceived | source/mcp2515.cpp:65-95 | the identifier arithmetic of a read gives the identifier the buffer stands for |
| CanFrame.LandedIsRequested | source/mcp2515.cpp:50-62 | once all writes but the last have landed, TXB0 stands for the frame asked for, whatever stale EID bytes it holds |
| CanFrame.LandedIsData | source/mcp2515.cpp:60 | and it is a data frame: RTR is clear |
| CanFrame.PrefixLands | source/mcp2515.cpp:50-63 | the first k writes of a send all stand, and nothing outside TXB0 has changed |
| CanFrame.SendStaysInBuffer | source/mcp2515.cpp:50-63 | the writes of a send hit distinct registers of TXB0, and only the last one TXB0CTRL |
| FrameRoundTrip.SentIsReceived | source/mcp2515.cpp:50-95 | for every identifier and payload: loaded, carried to either receive buffer and read, it is the same payload under the identifier cut to 29 bits, whatever SRR, unused bits and stale bytes hold |
| FrameRoundTrip.BuffersReadAlike | source/mcp2515.cpp:81-95 | reading RXB1 equals reading RXB0 on a register file shifted by 0x10 |
| FrameRoundTrip.RepackedIsCanonical | source/mcp2515.cpp:51-76 | re-encoding a decoded header gives its canonical registers if and only if the frame was standard or its identifier exceeds 0x7FF |
| Mcp2515.Mcp2515.ReadByte | source/mcp2515.cpp:33-41 | two transfers under one select are one READ: the register's value, nothing changed |
| Mcp2515.Mcp2515.WriteByte | source/mcp2515.cpp:43-48 | one register takes the byte |
| Mcp2515.Mcp2515.BitModify | source/mcp2515.cpp:97-102 | the masked bits of one register take the data |
| Mcp2515.Mcp2515.TxBuffer0Send | source/mcp2515.cpp:50-63 | TXB0 stands for the frame asked for, as a data frame, TXB0CTRL is 0x08, nothing outside TXB0 changes |
| Mcp2515.Mcp2515.RxBuffer0Read | source/mcp2515.cpp:65-79 | returns the frame RXB0 stands for in the caller's buffer, whose rest, like the chip, is unchanged |
| Mcp2515.Mcp2515.RxBuffer1Read | source/mcp2515.cpp:81-95 | the same for RXB1 |
| Mcp2515.Mcp2515.WriteFilterOrMask | source/mcp2515.cpp:104-116 | writes the four encoded bytes of a slot |
| Mcp2515.Mcp2515.SetFilter | source/mcp2515.cpp:118-128 | the whole effect on the chip, early return included |
| Mcp2515.Mcp2515.SetMask | source/mcp2515.cpp:130-140 | the whole effect on the chip, early return included |
| Mcp2515.SentIsRequested | source/mcp2515.cpp:50-63 | a whole send from any register file |
| AppliedFilters.Rxb0TakesWhatWasSet | source/mcp2515.cpp:104-140 | after any sequence of calls, by the chip's test on the registers 0x00, 0x04, 0x20, 0x60 and 0x0F: RXB0 takes exactly the frames that filter 0 or 1, as last set, takes by identifier under mask 0, as last set, in every combination of formats; what was never set stands |
| AppliedFilters.Rxb1TakesWhatWasSet | source/mcp2515.cpp:104-140 | the same for RXB1, filters 2 to 5 and mask 1 |
| AppliedFilters.PassesIsAccepts | source/mcp2515.cpp:104-116 | the chip's byte comparison of any header with any encoded filter and mask is the comparison of identifiers, each pair of formats included |
| Filters.LastSettingWins | source/mcp2515.cpp:104-140 | after any sequence of calls each slot encodes the last value set for it; calls out of range change nothing |
| Filters.ControlLosesRxm | source/mcp2515.cpp:126-138 | after any sequence of calls a receive buffer's control register has lost its RXM bits, and only those, if and only if one of its slots was named |
| Filters.RestStands | source/mcp2515.cpp:118-140 | no other register changes, and a touched chip is left with CANCTRL 0x04 |
| Filters.DifferentSlotsCommute | source/mcp2515.cpp:118-140 | calls on different slots commute |
| Filters.WriteSlotEffect | source/mcp2515.cpp:104-116 | in configuration mode the four bytes arrive and nothing else changes |
| Filters.ProgramEffect | source/mcp2515.cpp:118-140 | one call's effect on every register |
| Acceptance.ExtendedAcceptance | source/mcp2515.cpp:104-109 | with extended filter and mask the chip's byte comparison accepts exactly the extended frames whose identifier agrees on the mask's 29 bits |
| Acceptance.StandardAcceptance | source/mcp2515.cpp:110-115 | with standard filter and mask, exactly the standard frames that agree on the mask's 11 bits |
| Acceptance.StandardMaskIgnoresPayload | source/mcp2515.cpp:110-115 | a mask set as standard never makes acceptance depend on the payload |
| Acceptance.MixedFormatsIgnorePayload | source/mcp2515.cpp:104-116 | a standard filter under an extended mask ignores the payload if and only if the mask's low 16 bits are clear |
| SpiDevice.CommandRuns | source/mcp2515.cpp:33-102 | a command's bytes in one select do its effect, and a read's answer is the third byte |
| SpiDevice.CommandByteEffect | source/mcp2515.cpp:33-102 | a command does all its work with its last byte |
| SpiDevice.AcceptAllConcat | source/mcp2515.cpp:36-39 | transfers under one select are one transfer of their bytes |
| BusRefinement.InterleavedCommandsAreAtomic | source/spi.cpp:35-49 | for any number of tasks and any interleaving: no assertion fires, every select holds one command's bytes, in lock order, and registers and results are those of whole commands one by one |
| BusProgress.HolderReturns | source/spi.cpp:35-58 | in every run, whatever the others do: the task that holds the mutex returns with its own n-th step, n at most nine and set by its place, and is the next to return |
| BusProgress.EveryCallCanReturn | source/spi.cpp:35-58 | from every state of every run each started command can return, and leaves the mutex free |
| DmaTokens.NoTransferReturnsOnAnOldToken | source/spi.cpp:51-58 | in every run, on any cores, overtaking or not: when transfer has returned both channels have completed as often as transfers were started, and no token or interrupt is left over |
| DmaTokens.TokensAreConserved | source/spi.cpp:51-58 | without overtaking, during a transfer each channel is exactly one of running, pending, stored, taken |
| DmaTokens.OneCoreNeverOvertakes | source/dma.cpp:7-14 | if the task does not move while the handler runs, no channel overtakes its acknowledge |
| DmaTokens.OnlyOvertakingLosesCompletions | source/dma.cpp:9-12 | after any run without overtaking, when a channel finishes: its transfer can still return if and only if the channel does not overtake its acknowledge |
| DmaTokens.OvertakingHappens | source/dma.cpp:9-12 | over channels 1 and 0, a run in which the transmit channel comes to overtake |
| DmaTokens.LoopIsPass | source/dma.cpp:7-14 | the handler's loop, statement by statement, gives and acknowledges every raised channel |
| DmaTokens.SomeoneCanMove | source/dma.cpp:7-14 | without overtaking, a waiting transfer is never stuck |
| Dma.Dma.DmaHandler0 | source/dma.cpp:7-14 | every raised lower channel with a callback is given once and acknowledged, nothing else changes |
| Dma.Dma.EnableDma | source/dma.cpp:29-48 | the table entry, and the interrupt line by half of the range |
| Dma.Dma.ResetCallbackList | source/dma.cpp:25-27 | the table is empty |
| Spi.Spi.constructor | source/spi.cpp:20-26 | both channels registered with their own semaphores, on the interrupt line whose handler serves them |
| Spi.Spi.CsSelect | source/spi.cpp:35-41 | takes the recursive mutex once more and selects; a nested select is excluded by its precondition |
| Spi.Spi.CsDeselect | source/spi.cpp:43-49 | deselects and gives the mutex once; an unmatched one is excluded |
| Spi.Spi.Transfer | source/spi.cpp:51-65 | also with one array in both directions: the chip gets the array's original bytes, the array ends up with the chip's replies, and no token is left; or a byte is lost, which takes more than eight |
| Spi.Spi.Pump | source/spi.cpp:51-102 | the same for every order in which channels, wire, handler and task can move; it ends |
| Spi.PopFlows | source/spi.cpp:94-98 | storing a received byte never overwrites a byte still to be sent |
| Spi.OverrunHangs | source/spi.cpp:51-102 | a byte shifted into a full receive FIFO: the transfer is longer than eight bytes and its last byte is never stored |
| Fifo.LostByteIsMissed | source/spi.cpp:51-102 | at any point of a transfer, its last byte can still be stored if and only if none has been lost |
| Fifo.OnlyLongTransfersOverrun | source/spi.cpp:51-102 | a transfer of a given size can lose a byte if and only if it is longer than eight |
| Spi.Spi.RunHandler | source/dma.cpp:7-14 | one run of the handler does to the two channels what its loop does statement by statement |

## Left out

- Mcp2515Task.Mcp2515Task.RxReadInTask: ends at a length the caller's array does not hold, where the source would write past the buffer.
- Mcp2515Task.Mcp2515Task.TxBuffer0SendInTask: for lengths up to 8, as CAN frames have; the source does not check the length.
- Mcp2515.Mcp2515.TxBuffer0Send: likewise for lengths up to 8.
- InterruptProperties.NoInterruptIsLost: says a wake-up is on its way, not that it arrives; that needs a scheduler that lets every actor run.
- Spi.Spi.Transfer: sizes of at least 1, all that the driver uses; 8-bit DMA transfers with unbounded waits. Timeouts, 16-bit mode and the non-DMA branches are not part of this model.
- Spi.Spi.Pump: ends at a lost byte, where the source would wait for ever.
- Spi.Spi.CsSelect: counts the mutex as the running task holds it; waiting for another task's hold is in BusRefinement.
- Mcp2515.Mcp2515.SetFilter: without `SPI::lock` and `SPI::unlock`, which use plain semaphore calls on a recursive mutex; filters are programmed from one task.
- AppliedFilters.Rxb1TakesWhatWasSet: by RXB1's own filters; in rollover mode RXB1 also takes what RXB0 would have and has no room for.
- BIT MODIFY of a register that the chip only takes whole; the driver uses it on CANINTF alone.
- Mode changes of the chip take effect at once, and the delay after bus-off is a point where others run.
- A pending byte's `|=` and `&=` as separate load and store: an update between the two by another task could be lost.
- Several readers or senders at once.
- Reset, start-up races, bit rates, `readByte` before initialisation; `initialInTask` appears only as the state it leaves.
- `dma_handler1` and channels of the upper half; the handler runs of other channels' callbacks.
- `source/gpio.cpp` beyond "an edge runs the handler", `source/posix_time.c`, `source/taskinterface.cpp`, `source/udp_transport.cpp` and the prebuilt library's headers.
