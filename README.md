# A verified model of the Ather ASDK core

This project models, in Dafny, the core of the Ather ASDK embedded SDK for the
CYT2B75 microcontroller and of the small vehicle application built on it.
It covers:

- **Ring buffer library.** A byte FIFO over a caller-supplied array, moved in
  whole blocks, with an overwrite mode, peek and FULL/OVERWRITE events.
  File: `ring_buffer.dfy`.
- **CAN service middleware.** Per-channel transmit and receive queues of CAN
  frames built on the ring buffer. File: `can_service.dfy`.
- **Cooperative task scheduler and a millisecond tick.** File: `scheduler.dfy`.
- **Vehicle application state machine.** Riding mode, vehicle speed, hill
  hold, indicator blinking, and the horn and brake frames.
  File: `can_process.dfy`.
- **External EEPROM middleware.** Requests split into page-sized chunks, and
  the address bytes laid out in front of each page. File: `external_eeprom.dfy`.
- **Image footer tool.** The reflected CRC-32 of IEEE 802.3 (section 3.2.9)
  and the placement of the 8-byte footer. File: `image_magic.dfy`.
- **CYT2B75 drivers.** Each driver's validation chains, mapping tables,
  arithmetic and static state:
  - timer: `timer.dfy`
  - PWM: `pwm.dfy`
  - flash: `flash.dfy`
  - ADC: `adc.dfy`
  - system (reset reason, millisecond clock): `system.dfy`
  - CAN: `can_dal.dfy`
  - SPI: `spi.dfy`
- **Debug console state machine.** File: `debug_uart.dfy`.
- **Colour sensor filter cycle and pulse timing.** File: `colour.dfy`.
- **Host installer decision logic.** Download retry, archive choice, tool
  probes, and persistence of the environment. File: `setup_installer.dfy`.

`common.dfy` holds the shared vocabulary:

- an `Option` type;
- fixed-width integer ranges;
- the `asdk_errorcode_t` values;
- a first-failing-check helper;
- the timer event codes.

**Form.** The model follows the form of the source:

- Code that keeps static state becomes a class whose fields are that state.
  Its methods carry `modifies` clauses and state the new state in full.
- Loops become methods with loop invariants, proved against specification
  functions.
- Pure mapping and arithmetic code becomes functions, with lemmas that
  relate them.

**Inputs.** Calls into vendor code (Cy_* drivers, clock, pin mux, I2C, UART,
GPIO) are not executed. What they report is an input of the operation, and
what they are handed is its result.

**Integers.** Integers are unbounded. Where the C code's 8-, 16-, 32- or
64-bit arithmetic matters, the wrap-around is written out, or the range is
part of the precondition.

## Model

| member | source | states |
|---|---|---|
| RingBuffer.Window | asdk-gen2/lib/ring_buffer/ring_buffer.c:301-318 | the bytes read from the circle are exactly as many as asked for |
| RingBuffer.Written | asdk-gen2/lib/ring_buffer/ring_buffer.c:144-230 | the contents after a write never exceed the capacity |
| RingBuffer.NoOverwriteAppends | asdk-gen2/lib/ring_buffer/ring_buffer.c:155-174 | without overwrite a write never loses queued bytes: it appends what fits of the data |
| RingBuffer.OverwriteKeepsNewest | asdk-gen2/lib/ring_buffer/ring_buffer.c:165-230 | with overwrite the offered data goes in whole and ends the contents; only the oldest bytes are lost |
| RingBuffer.WriteAll | asdk-gen2/lib/ring_buffer/ring_buffer.c:107-237 | after any run of writes the contents still fit the capacity |
| RingBuffer.FifoOrder | asdk-gen2/lib/ring_buffer/ring_buffer.c:107-237 | first in, first out: while nothing overflows, successive writes queue their bytes behind each other in order |
| RingBuffer.RingBuffer.constructor | asdk-gen2/lib/ring_buffer/ring_buffer.c:67-97 | the structure as the caller fills it in before init: empty indexes and used count |
| RingBuffer.RingBuffer.Contents | asdk-gen2/lib/ring_buffer/ring_buffer.c:247-325 | the queued bytes are as many as the used count |
| RingBuffer.Init | asdk-gen2/lib/ring_buffer/ring_buffer.c:67-97 | INVALID_PTR exactly for a NULL buffer; INVALID_LEN exactly for a zero capacity or block size or a capacity that is not whole blocks; success empties the buffer |
| RingBuffer.WindowAfterWrite | asdk-gen2/lib/ring_buffer/ring_buffer.c:194-230 | reading the circle after a write gives the old contents followed by the data, cut to the newest bytes, from the read index the write leaves |
| RingBuffer.WindowAfterOverwrite | asdk-gen2/lib/ring_buffer/ring_buffer.c:218-230 | on overflow the read index follows the write index and the circle holds the newest bytes |
| RingBuffer.WindowAfterAppend | asdk-gen2/lib/ring_buffer/ring_buffer.c:194-211 | when everything fits, the data is appended behind the old contents |
| RingBuffer.WindowAfterRead | asdk-gen2/lib/ring_buffer/ring_buffer.c:301-318 | taking bytes off the front moves the read index on by as many |
| RingBuffer.Write | asdk-gen2/lib/ring_buffer/ring_buffer.c:107-237 | NULL pointers, a zero size or an oversized request store nothing; otherwise the contents become Written of the old contents and the data, the blocks stored are counted, and the callback is raised as the source does |
| RingBuffer.WriteBlocks | asdk-gen2/lib/ring_buffer/ring_buffer.c:140-237 | the same for valid pointers, keeping the configuration |
| RingBuffer.Offer | asdk-gen2/lib/ring_buffer/ring_buffer.c:155-174 | a full buffer without overwrite refuses; otherwise the data is cut to the free space, or stored whole with overwrite; the bytes stored are whole blocks |
| RingBuffer.Deposit | asdk-gen2/lib/ring_buffer/ring_buffer.c:194-237 | the accepted bytes end the contents, the used count is capped at the capacity, and the event is raised when the buffer ends up full |
| RingBuffer.CopyIn | asdk-gen2/lib/ring_buffer/ring_buffer.c:194-207 | the two memcpys put the data in at the write index, wrapping round the end |
| RingBuffer.Read | asdk-gen2/lib/ring_buffer/ring_buffer.c:247-325 | NULL pointers or a zero size move nothing; an empty buffer gives 0; otherwise the oldest blocks, at most those asked for, are moved out and the contents lose them |
| RingBuffer.Take | asdk-gen2/lib/ring_buffer/ring_buffer.c:283-324 | the copied bytes are the oldest queued ones and the contents keep the rest |
| RingBuffer.Peek | asdk-gen2/lib/ring_buffer/ring_buffer.c:335-405 | like read, but the contents are left unchanged |
| RingBuffer.IsEmpty | asdk-gen2/lib/ring_buffer/ring_buffer.c:415-417 | empty exactly when nothing is queued |
| RingBuffer.IsFull | asdk-gen2/lib/ring_buffer/ring_buffer.c:427-429 | full exactly when the used count is the capacity, and then a write without overwrite changes nothing |
| RingBuffer.BlockCount | asdk-gen2/lib/ring_buffer/ring_buffer.c:233-236 | byte counts are returned as whole blocks |
| CanFrame.Encode | asdk-gen2/middleware/can_service/asdk_can_service.h:64-68 | an asdk_can_frame_t occupies 16 bytes, one ring-buffer block |
| CanFrame.IdBytes | asdk-gen2/middleware/can_service/asdk_can_service.h:64-68 | a 32-bit identifier is the sum of its four little-endian bytes |
| CanFrame.DecodeEncode | asdk-gen2/middleware/can_service/asdk_can_service.h:64-68 | a frame read back from its bytes is the frame written |
| CanFrame.EncodeAll | asdk-gen2/middleware/can_service/asdk_can_service.c:89-93 | a queue of n frames occupies 16 n bytes of its pool |
| CanFrame.EncodeAllAppend | asdk-gen2/middleware/can_service/asdk_can_service.c:227 | writing one more frame appends its 16 bytes to the queue's bytes |
| CanFrame.EncodeAllFront | asdk-gen2/middleware/can_service/asdk_can_service.c:257 | the first 16 bytes of a queue decode to its oldest frame, and the rest are the remaining frames |
| CanService.ToFrame | asdk-gen2/middleware/can_service/asdk_can_service.c:112-115 | the frame built from a message keeps its identifier, length and its dlc payload bytes |
| CanService.WriteFrame | asdk-gen2/middleware/can_service/asdk_can_service.c:117 | one frame is stored exactly when the queue is set up and holds fewer than 40, and it is appended behind the queued frames |
| CanService.ReadFrame | asdk-gen2/middleware/can_service/asdk_can_service.c:257 | a queue that is set up and not empty yields its oldest frame and loses it; an empty queue yields nothing |
| CanService.SetupQueue | asdk-gen2/middleware/can_service/asdk_can_service.c:160-175 | the queue is attached to its 640-byte pool with 16-byte blocks, no overwrite and no event callback, and emptied |
| CanService.CanService.constructor | asdk-gen2/middleware/can_service/asdk_can_service.c:89-95 | no queue set up and no application callback |
| CanService.CanService.Init | asdk-gen2/middleware/can_service/asdk_can_service.c:146-178 | the driver's status is passed back; on success both queues of the channel are set up and empty; nothing else changes |
| CanService.CanService.InstallCallback | asdk-gen2/middleware/can_service/asdk_can_service.c:180-207 | a NULL callback is refused and the previous one kept; otherwise it is recorded and the driver's install status returned |
| CanService.CanService.Send | asdk-gen2/middleware/can_service/asdk_can_service.c:209-234 | an invalid channel is refused; a message is queued behind the pending ones exactly when the queue is set up and not full, else TX_QUEUE_FULL |
| CanService.CanService.SendIteration | asdk-gen2/middleware/can_service/asdk_can_service.c:236-271 | a busy mailbox sends nothing; otherwise the oldest queued frame is taken off and handed to the driver, whose status is returned; an empty queue reports TX_QUEUE_EMPTY |
| CanService.CanService.ReceiveIteration | asdk-gen2/middleware/can_service/asdk_can_service.c:273-303 | the oldest received frame is taken off and delivered as a receive event when a callback is installed; an empty queue reports RX_QUEUE_EMPTY |
| CanService.CanService.Handler | asdk-gen2/middleware/can_service/asdk_can_service.c:104-144 | a received message is queued (dropped when the queue is full or not set up); transmit completion and the error events reach the application callback, the error events without a message |
| Scheduler.DueTasksBelow | arsenal/scheduler.c:70 | an iteration over the first n tasks only runs tasks among them |
| Scheduler.DueTasksAscending | arsenal/scheduler.c:70-81 | tasks are run in table order, each at most once |
| Scheduler.DueTasksExact | arsenal/scheduler.c:70-81 | among the first n tasks, a task is run exactly when it is due |
| Scheduler.DueTasksSpec | arsenal/scheduler.c:70-81 | an iteration runs a task exactly when it is due (period 0, or at least its period elapsed in 64-bit arithmetic), in table order, each at most once |
| Scheduler.EveryIterationRunsPeriodZero | arsenal/scheduler.c:72-75 | a task with period 0 runs on every iteration |
| Scheduler.NoRerunWithinATick | arsenal/scheduler.c:76-80 | a periodic task that ran is not run again by an iteration at the same tick |
| Scheduler.Scheduler.constructor | arsenal/scheduler.c:51-56 | init remembers the task table and its size, with the tick at 0 |
| Scheduler.Scheduler.TimerCallback | arsenal/scheduler.c:38-49 | a terminal-count event advances the millisecond tick by one modulo 2^64; any other event leaves it |
| Scheduler.Scheduler.Iteration | arsenal/scheduler.c:66-82 | the current tick is taken from the counter, the tasks run are DueTasks of the old table, and each periodic task that ran records the tick; tasks past the size are untouched |
| CanProcess.StatusFramesDecode | app/src/can_process.c:27-37 | the horn and brake frames on 0x305 are told apart by their first byte, and each second byte is nonzero exactly when its flag is set |
| CanProcess.StartPress | app/src/can_process.c:86-102 | a start press keeps the motion state within its ranges |
| CanProcess.UpdateSpeed | app/src/can_process.c:104-135 | a speed update keeps the motion state within its ranges |
| CanProcess.HoldStep | app/src/can_process.c:137-183 | a hold step keeps the motion state within its ranges |
| CanProcess.IndicatorStep | app/src/can_process.c:39-84 | an indicator step keeps the blink counter below 3 and the latched request within 8 bits |
| CanProcess.StartAlternates | app/src/can_process.c:86-102 | outside hill hold, from neutral, the first press selects reverse or forward as the toggle says, the next returns to neutral, the one after selects the other direction |
| CanProcess.FirstPressIsReverse | app/src/can_process.c:91-94 | after power-on the first press selects reverse |
| CanProcess.StartIgnoredInHold | app/src/can_process.c:87-88 | during hill hold the start button changes nothing |
| CanProcess.SidestandStops | app/src/can_process.c:107-110 | side stand down with no throttle: speed 0 and neutral |
| CanProcess.ThrottleSpeed | app/src/can_process.c:111-120 | with throttle applied the riding mode is kept and the speed is 5 forward, 3 reverse, 0 otherwise |
| CanProcess.HoldEntry | app/src/can_process.c:146-164 | braking on a slope while riding, with no throttle, stops the vehicle and enters hold up or down by the pitch's sign, remembering the riding mode |
| CanProcess.HoldRelease | app/src/can_process.c:166-170 | hill hold ends exactly when throttle is applied, restoring the remembered mode; without throttle nothing changes |
| CanProcess.NoHoldFromNeutral | app/src/can_process.c:146-177 | in neutral and not holding, the hold logic changes nothing |
| CanProcess.BlinkCounts | app/src/can_process.c:49-60 | while an indicator is requested each call counts modulo 3 and flips the output when the count wraps |
| CanProcess.BlinkEveryThirdCall | app/src/can_process.c:54-60 | three calls with an indicator requested flip the output exactly once |
| CanProcess.VehicleApp.constructor | app/src/can_process.c:22 | the statics start as initialised: neutral, not holding, first press reverse, blinker off |
| CanProcess.VehicleApp.ProcessHornState | app/src/can_process.c:27-31 | sends the horn frame of the current horn state |
| CanProcess.VehicleApp.ProcessBrakeState | app/src/can_process.c:33-37 | sends the brake frame of the current brake state |
| CanProcess.VehicleApp.HandleStartButtonPress | app/src/can_process.c:86-102 | the motion state becomes StartPress of the old one |
| CanProcess.VehicleApp.UpdateVehicleSpeed | app/src/can_process.c:104-135 | the motion state becomes UpdateSpeed of the old one, and the 0x306 frame carries the new mode and speed |
| CanProcess.VehicleApp.ProcessHoldState | app/src/can_process.c:137-183 | the motion state becomes HoldStep of the old one, and the 0x306 frame carries the new mode and speed |
| CanProcess.VehicleApp.RequestStopStep | app/src/can_process.c:146-152 | braking on a slope while riding requests a stop |
| CanProcess.VehicleApp.EnterHoldStep | app/src/can_process.c:155-164 | a requested stop enters hold |
| CanProcess.VehicleApp.ReleaseHoldStep | app/src/can_process.c:167-170 | throttle releases the hold |
| CanProcess.VehicleApp.FailsafeStep | app/src/can_process.c:173-177 | a hold entered from neutral is undone |
| CanProcess.VehicleApp.ProcessIndicatorState | app/src/can_process.c:39-84 | the blinker becomes IndicatorStep of the old one, and the frame sent is the indicator frame of the blinker after counting |
| ExternalEeprom.AddressBytes | asdk-gen2/middleware/external_eeprom/asdk_external_eeprom.c:158-164 | the address prefix of a page transfer has exactly addr_width bytes |
| ExternalEeprom.Pow256 | asdk-gen2/middleware/external_eeprom/asdk_external_eeprom.c:158-164 | the range of an addr_width-byte address is at least 1 |
| ExternalEeprom.Reversed | asdk-gen2/middleware/external_eeprom/asdk_external_eeprom.c:162-164 | placing byte i at position width - 1 - i keeps the length |
| ExternalEeprom.AddressBytesTail | asdk-gen2/middleware/external_eeprom/asdk_external_eeprom.c:158-161 | with is_big_endian set, the prefix is the low address byte followed by the prefix of address / 256 |
| ExternalEeprom.AddressBytesLsbFirst | asdk-gen2/middleware/external_eeprom/asdk_external_eeprom.c:158-161 | with is_big_endian set, the prefix read least-significant-byte first is the address, for every address that fits in addr_width bytes |
| ExternalEeprom.MsbFirstOfReversed | asdk-gen2/middleware/external_eeprom/asdk_external_eeprom.c:162-164 | a byte string read most-significant-first, reversed, denotes what it denotes read least-significant-first |
| ExternalEeprom.AddressBytesMsbFirst | asdk-gen2/middleware/external_eeprom/asdk_external_eeprom.c:162-164 | with is_big_endian clear, the prefix is the reverse of the big-endian-flag prefix and read most-significant-first it is the address |
| ExternalEeprom.CheckAsWritten | asdk-gen2/middleware/external_eeprom/asdk_external_eeprom.c:399-403 | the two range checks in uint32_t arithmetic answer success, INVALID_ADDRESS or INVALID_LENGTH |
| ExternalEeprom.LastByteRefused | asdk-gen2/middleware/external_eeprom/asdk_external_eeprom.c:302-303 | as written, a one-byte request at the last address size - 1 is refused with INVALID_ADDRESS, while the corrected check accepts it |
| ExternalEeprom.LengthOverflowAccepted | asdk-gen2/middleware/external_eeprom/asdk_external_eeprom.c:305-306 | as written, 16 + 0xFFFF_FFF8 wraps, so a request far past a 256-byte memory passes, while the corrected check answers INVALID_LENGTH |
| ExternalEeprom.CheckAsWrittenAgrees | asdk-gen2/middleware/external_eeprom/asdk_external_eeprom.c:399-403 | away from the last address and from 32-bit wrap-around, the written checks and the corrected ones give the same answer |
| ExternalEeprom.CheckRange | asdk-gen2/middleware/external_eeprom/asdk_external_eeprom.c:399-403 | success exactly when [addr, addr + len) lies in the memory; INVALID_ADDRESS exactly when addr is past the end; INVALID_LENGTH exactly when the start is inside and the end is not |
| ExternalEeprom.Admission | asdk-gen2/middleware/external_eeprom/asdk_external_eeprom.c:396-412 | a non-blocking request is accepted exactly when the index is valid, the range is inside the memory, a buffer is given and no operation is pending; a range error is reported as such; an in-range request with an operation pending answers BUSY |
| ExternalEeprom.FirstChunk | asdk-gen2/middleware/external_eeprom/asdk_external_eeprom.c:416-422 | the first chunk does not leave the start page and is the whole request or runs to the page end |
| ExternalEeprom.NextChunk | asdk-gen2/middleware/external_eeprom/asdk_external_eeprom.c:516-522 | every later chunk is a whole page or what is left, and is non-empty while bytes remain |
| ExternalEeprom.Plan | asdk-gen2/middleware/external_eeprom/asdk_external_eeprom.c:512-532 | the chunks still to be served start with the current chunk |
| ExternalEeprom.PlanShape | asdk-gen2/middleware/external_eeprom/asdk_external_eeprom.c:512-532 | the remaining chunks are contiguous in the EEPROM and in the buffer and cover exactly the current length plus bytes_remaining |
| ExternalEeprom.PlanWithinPages | asdk-gen2/middleware/external_eeprom/asdk_external_eeprom.c:512-532 | once the current chunk stays in its page and ends on a page boundary, no later chunk crosses a page boundary |
| ExternalEeprom.PlanNonEmpty | asdk-gen2/middleware/external_eeprom/asdk_external_eeprom.c:516-522 | after a non-empty chunk every chunk is non-empty |
| ExternalEeprom.RequestPlanTiles | asdk-gen2/middleware/external_eeprom/asdk_external_eeprom.c:414-428 | a request of len bytes at addr is served as chunks that tile [addr, addr + len) and buffer offsets [0, len) in order, none crossing a page and none empty unless the request is |
| ExternalEeprom.AlignedAfterFirst | asdk-gen2/middleware/external_eeprom/asdk_external_eeprom.c:416-418 | the end of the start page is page aligned |
| ExternalEeprom.Request | asdk-gen2/middleware/external_eeprom/asdk_external_eeprom.c:414-428 | a successful request leaves the manager pending on the plan of the whole request, with the caller's buffer and the callback flag untouched |
| ExternalEeprom.Advance | asdk-gen2/middleware/external_eeprom/asdk_external_eeprom.c:515-532 | after a served chunk the manager is parked (no buffer, address ~0, index 0, callback armed) exactly when nothing remained; otherwise it keeps its buffer and callback flag |
| ExternalEeprom.AdvanceDropsHead | asdk-gen2/middleware/external_eeprom/asdk_external_eeprom.c:515-532 | the chunk a pending manager serves is the first of its plan, and after Advance the plan has lost exactly that chunk |
| ExternalEeprom.AdvanceKeepsManagerOk | asdk-gen2/middleware/external_eeprom/asdk_external_eeprom.c:515-532 | the bookkeeping after a served chunk keeps the manager consistent with the configuration |
| ExternalEeprom.RequestKeepsManagerOk | asdk-gen2/middleware/external_eeprom/asdk_external_eeprom.c:414-428 | an accepted request installs a consistent manager |
| ExternalEeprom.I2cSetup | asdk-gen2/middleware/external_eeprom/asdk_external_eeprom.c:99-109 | the I2C block becomes an interrupt-driven master, priorities 0 and 1 are raised to 2, others are kept |
| ExternalEeprom.InitStatus | asdk-gen2/middleware/external_eeprom/asdk_external_eeprom.c:246-297 | init succeeds exactly when size, page size and address width are non-zero, a tx buffer is given that holds a page plus the address, the index is valid, the protocol is I2C and the I2C driver accepts; each failed check gives its own code |
| ExternalEeprom.WriteAddress | asdk-gen2/middleware/external_eeprom/asdk_external_eeprom.c:158-164 | the address loop writes AddressBytes to the front of tx_buffer and nothing else |
| ExternalEeprom.CopyIn | asdk-gen2/middleware/external_eeprom/asdk_external_eeprom.c:166-168 | the data lands right after the address and the address is kept |
| ExternalEeprom.ExternalEeprom.constructor | asdk-gen2/middleware/external_eeprom/asdk_external_eeprom.c:71 | the zeroed static slot: no configuration, idle managers, completion flags clear |
| ExternalEeprom.ExternalEeprom.Init | asdk-gen2/middleware/external_eeprom/asdk_external_eeprom.c:246-297 | the status is InitStatus; a failure changes nothing; success stores the configuration with its I2C part adjusted and raises both completion flags |
| ExternalEeprom.ExternalEeprom.NonBlockingWrite | asdk-gen2/middleware/external_eeprom/asdk_external_eeprom.c:396-429 | the status is Admission with the corrected range check; a refusal leaves the write manager alone; success installs Request |
| ExternalEeprom.ExternalEeprom.NonBlockingRead | asdk-gen2/middleware/external_eeprom/asdk_external_eeprom.c:299-332 | the same as NonBlockingWrite for the read manager |
| ExternalEeprom.ExternalEeprom.PageWrite | asdk-gen2/middleware/external_eeprom/asdk_external_eeprom.c:147-189 | busy while a transfer is in flight, changing nothing; otherwise the write flag drops, tx_buffer holds the address then the data, and that frame goes to the I2C driver |
| ExternalEeprom.ExternalEeprom.OnI2cEvent | asdk-gen2/middleware/external_eeprom/asdk_external_eeprom.c:111-141 | a write or read completion raises its flag and notifies the user once when the manager armed the callback |
| ExternalEeprom.ExternalEeprom.PageRead | asdk-gen2/middleware/external_eeprom/asdk_external_eeprom.c:194-241 | busy while a transfer is in flight; otherwise the address bytes go out, the completion is awaited and the read is started, with each I2C failure passed back |
| ExternalEeprom.ExternalEeprom.ServeWrite | asdk-gen2/middleware/external_eeprom/asdk_external_eeprom.c:507-533 | the next chunk of the pending write, with its bytes of the caller's buffer, is handed to PageWrite; on success the manager becomes Advance of the old one, on failure it is unchanged |
| ExternalEeprom.ExternalEeprom.FinishWrite | asdk-gen2/middleware/external_eeprom/asdk_external_eeprom.c:515-532 | the write manager becomes Advance of the old one and stays consistent |
| ExternalEeprom.ExternalEeprom.ServeRead | asdk-gen2/middleware/external_eeprom/asdk_external_eeprom.c:533-555 | the next chunk of the pending read is handed to PageRead; on success the manager becomes Advance of the old one, on failure it is unchanged |
| ExternalEeprom.ExternalEeprom.FinishRead | asdk-gen2/middleware/external_eeprom/asdk_external_eeprom.c:539-555 | the read manager becomes Advance of the old one and stays consistent |
| ExternalEeprom.ExternalEeprom.Iteration | asdk-gen2/middleware/external_eeprom/asdk_external_eeprom.c:500-559 | an invalid index is refused; a pending write is served before a pending read, and a served chunk is the first of the plan, which loses it; with nothing pending the answer is ASDK_ERROR and nothing changes |
| ImageMagic.MaskStepIsBitStep | asdk-gen2/utils/image_magic/magic.c:45 | the branch-free step (crc >> 1) ^ (POLY & -(crc & 1)) equals shifting right and xoring the polynomial exactly when a one fell out |
| ImageMagic.Steps8 | asdk-gen2/utils/image_magic/magic.c:43-46 | the inner loop's eight iterations are eight applications of that step |
| ImageMagic.Crc32Empty | asdk-gen2/utils/image_magic/magic.c:34-49 | the CRC of no bytes is 0 |
| ImageMagic.RegisterAppend | asdk-gen2/utils/image_magic/magic.c:40-47 | absorbing one more byte continues from the register of the prefix |
| ImageMagic.RegisterConcat | asdk-gen2/utils/image_magic/magic.c:40-47 | absorbing s then t is absorbing s + t, so the CRC can be computed in pieces |
| ImageMagic.Crc32CheckValue | asdk-gen2/utils/image_magic/magic.c:34-49 | the CRC-32 check value: "123456789" gives 0xCBF43926 |
| ImageMagic.Absorb | asdk-gen2/utils/image_magic/magic.c:42-46 | one outer pass leaves the register of AbsorbByte |
| ImageMagic.GetCrc | asdk-gen2/utils/image_magic/magic.c:34-49 | the loops compute the CRC-32 of the first len bytes |
| ImageMagic.Le32 | asdk-gen2/utils/image_magic/magic.c:21-24 | the stored CRC takes four bytes |
| ImageMagic.Le32RoundTrip | asdk-gen2/utils/image_magic/magic.c:21-24 | reading the four stored bytes back gives the CRC |
| ImageMagic.MagicField | asdk-gen2/utils/image_magic/magic.c:107 | strncpy fills exactly the four magic bytes |
| ImageMagic.Footer | asdk-gen2/utils/image_magic/magic.c:103-107 | the footer is 8 bytes: the CRC read back from the first four, the magic field after them |
| ImageMagic.FooterReadFits | asdk-gen2/utils/image_magic/magic.c:61-62 | a footer read stays inside a buffer exactly when the buffer holds a whole footer and the magic field |
| ImageMagic.FooterReadOverflows | asdk-gen2/utils/image_magic/magic.c:61-95 | as written, the 8-byte fread lands in a 4-byte foot_buff and the compared magic lies 4 bytes past its end; an 8-byte buffer fits |
| ImageMagic.Stamp | asdk-gen2/utils/image_magic/magic.c:81-90 | the tool exits without writing exactly when the file is empty, since the fread of zero bytes reads no item |
| ImageMagic.StampAppends | asdk-gen2/utils/image_magic/magic.c:97-117 | a non-empty image without the magic keeps its bytes and gains a footer with the CRC of the whole image and the magic |
| ImageMagic.StampReplaces | asdk-gen2/utils/image_magic/magic.c:97-117 | an image ending in the magic keeps its length; its footer is rewritten with the CRC of the bytes before the footer |
| ImageMagic.MagicFieldMatches | asdk-gen2/utils/image_magic/magic.c:95-107 | the field strncpy writes compares equal to the magic under strncmp |
| ImageMagic.FileAfter | asdk-gen2/utils/image_magic/magic.c:81-117 | an empty file is left as it is; a stamped file keeps its length when it had the magic and grows by a footer otherwise |
| ImageMagic.StampHasMagic | asdk-gen2/utils/image_magic/magic.c:95-117 | a stamped image ends in a footer carrying the magic, after the image body that was checksummed |
| ImageMagic.StampIdempotent | asdk-gen2/utils/image_magic/magic.c:53-122 | running the tool twice with the same magic leaves the same file as running it once, the empty file included |
| Timer.GroupAndChannel | asdk-gen2/platform/cyt2b75/dal/src/asdk_timer.c:535-552 | every channel maps into one of the three counter groups |
| Timer.GroupAndChannelInverse | asdk-gen2/platform/cyt2b75/dal/src/asdk_timer.c:535-552 | every valid channel lands on an existing counter of its group, and that counter names the channel back |
| Timer.ChannelOfInverse | asdk-gen2/platform/cyt2b75/dal/src/asdk_timer.c:535-552 | every existing counter is reached from exactly one valid channel |
| Timer.GroupAndChannelInjective | asdk-gen2/platform/cyt2b75/dal/src/asdk_timer.c:535-552 | two distinct channels never share a counter |
| Timer.PeriodValidFitsCounter | asdk-gen2/platform/cyt2b75/dal/src/asdk_timer.c:554-570 | a 32-bit period is accepted exactly when it fits the counter width of its group (16 bits for groups 0 and 1, 32 for group 2) |
| Timer.PrescalerDivider | asdk-gen2/platform/cyt2b75/dal/src/asdk_timer.c:572-582 | the valid prescalers divide the counter clock by 1 to 128 |
| Timer.CounterInUs | asdk-gen2/platform/cyt2b75/dal/src/asdk_timer.c:481-507 | with a valid prescaler the microseconds returned are the elapsed time rounded down: r times the frequency is at most count times divider times 10^6, which is below r + 1 times it |
| Timer.CounterInUsExact | asdk-gen2/platform/cyt2b75/dal/src/asdk_timer.c:501-504 | the 64-bit shift-and-multiply divided by the frequency is the elapsed time rounded down |
| Timer.NoWrap | asdk-gen2/platform/cyt2b75/dal/src/asdk_timer.c:501-504 | for a 32-bit count and a valid prescaler neither the 64-bit shift nor the multiplication by 10^6 wraps |
| Timer.InitSucceedsIff | asdk-gen2/platform/cyt2b75/dal/src/asdk_timer.c:312-392 | init succeeds exactly when every requirement holds and the counter init succeeds |
| Timer.InitFailedIff | asdk-gen2/platform/cyt2b75/dal/src/asdk_timer.c:312-392 | INIT_FAILED is reported exactly when every check passes and the counter init fails |
| Timer.InitReportsClockError | asdk-gen2/platform/cyt2b75/dal/src/asdk_timer.c:312-392 | once the arguments are valid, a failed clock enable is reported unchanged |
| Timer.ProgrammedSetup | asdk-gen2/platform/cyt2b75/dal/src/asdk_timer.c:584-884 | a successful init leaves the counter configured and stopped, with period register period - 1 modulo 2^32, and capturing on at least one edge |
| Timer.CaptureEdgeDefault | asdk-gen2/platform/cyt2b75/dal/src/asdk_timer.c:857-868 | every edge value other than rising or both-edges captures on the falling edge only |
| Timer.InitAndSetPeriodDiffer | asdk-gen2/platform/cyt2b75/dal/src/asdk_timer.c:509-531 | init(period) leaves period - 1 in the period register, while set_period(period) writes period itself |
| Timer.TimerDriver.constructor | asdk-gen2/platform/cyt2b75/dal/src/asdk_timer.c:191-192 | both callback tables start NULL and no counter is configured |
| Timer.TimerDriver.Init | asdk-gen2/platform/cyt2b75/dal/src/asdk_timer.c:312-392 | status of InitStatus; a non-NULL callback is stored (in the capture table for capture mode) once the checks pass with interrupts on; the counter is configured only on success |
| Timer.TimerDriver.InitMode | asdk-gen2/platform/cyt2b75/dal/src/asdk_timer.c:584-884 | the three mode sub-inits and the switch default: status of ModeStatus with the same callback and counter effects |
| Timer.TimerDriver.Deinit | asdk-gen2/platform/cyt2b75/dal/src/asdk_timer.c:394-416 | a valid channel's counter is reset and both its callbacks cleared; an invalid channel is refused and nothing changes |
| Timer.TimerDriver.Trigger | asdk-gen2/platform/cyt2b75/dal/src/asdk_timer.c:418-458 | start and stop set a configured counter running or stopped; an invalid channel is refused |
| Timer.TimerDriver.GetCounter | asdk-gen2/platform/cyt2b75/dal/src/asdk_timer.c:460-479 | success exactly on a valid channel, with the counter's value |
| Timer.TimerDriver.GetCounterInUs | asdk-gen2/platform/cyt2b75/dal/src/asdk_timer.c:481-507 | success exactly on a valid channel, with the elapsed time rounded down to microseconds |
| Timer.TimerDriver.SetPeriod | asdk-gen2/platform/cyt2b75/dal/src/asdk_timer.c:509-531 | success exactly for a valid channel and a period fitting its group, and only then is the period register written |
| Pwm.PwmPeriod | asdk-gen2/platform/cyt2b75/dal/src/asdk_pwm.c:660-689 | a period exactly for the eight prescalers DIVBY_1..DIVBY_128, and it is the clock divided by 2^k and by the frequency |
| Pwm.PwmPeriodIsU32 | asdk-gen2/platform/cyt2b75/dal/src/asdk_pwm.c:660-689 | a period computed from a 32-bit clock fits in 32 bits |
| Pwm.DutyCompare | asdk-gen2/platform/cyt2b75/dal/src/asdk_pwm.c:748 | the compare value is the largest count whose share of the period does not exceed the duty percentage: 0 at 0 %, the full period at 100 %, never above the period |
| Pwm.DutyBounds | asdk-gen2/platform/cyt2b75/dal/src/asdk_pwm.c:477-482 | a duty cycle of at most 100 % gives a compare value within the period, 100 % exactly the period |
| Pwm.DutyCompareAgrees | asdk-gen2/platform/cyt2b75/dal/src/asdk_pwm.c:482 | while duty times period stays below 2^32, the wrapping 32-bit product gives the intended compare value |
| Pwm.DutyCompareAgreesOn16Bit | asdk-gen2/platform/cyt2b75/dal/src/asdk_pwm.c:482 | on the 16-bit counter groups every 8-bit duty cycle stays below 2^32 |
| Pwm.DutyCompareOverflows | asdk-gen2/platform/cyt2b75/dal/src/asdk_pwm.c:748 | on a 32-bit group with a period of 80 000 000 counts, 100 % wraps to a compare value of 37 050 327 instead of the full period |
| Pwm.DeadtimeOneSideSuffices | asdk-gen2/platform/cyt2b75/dal/src/asdk_pwm.c:796-807 | the 8-bit dead-time check of groups 0 and 2 accepts a 0x100 left side next to a zero right side, and refuses only when both sides are out of range |
| Pwm.InitNullConfig | asdk-gen2/platform/cyt2b75/dal/src/asdk_pwm.c:331-382 | a NULL configuration is reported as NULL_PTR whatever the channel |
| Pwm.InitSucceedsIff | asdk-gen2/platform/cyt2b75/dal/src/asdk_pwm.c:331-382 | init succeeds exactly when every requirement holds: channel, clock, prescaler, frequency fitting the counter, interrupt number, dead times, mode and counter init |
| Pwm.PrescalerIgnoredWithInterrupts | asdk-gen2/platform/cyt2b75/dal/src/asdk_pwm.c:736-744 | with interrupts enabled, DIVBY_8 on a fresh driver leaves the counter at DIVBY_1 while the period was computed for DIVBY_8, so a 1 kHz request runs at 8 kHz |
| Pwm.ProgrammedRegs | asdk-gen2/platform/cyt2b75/dal/src/asdk_pwm.c:736-790 | with the prescaler always programmed: the counter runs the computed period, and a duty cycle of at most 100 % gives a compare value within it |
| Pwm.PwmDriver.constructor | asdk-gen2/platform/cyt2b75/dal/src/asdk_pwm.c:193 | no callback is registered and the shared configuration holds its static initialiser |
| Pwm.PwmDriver.Init | asdk-gen2/platform/cyt2b75/dal/src/asdk_pwm.c:331-382 | status of InitStatus; the callback is registered once the interrupt number is checked, even when a later check fails; otherwise the callback table is unchanged |
| Pwm.PwmDriver.InitPwm | asdk-gen2/platform/cyt2b75/dal/src/asdk_pwm.c:652-886 | status of InitPwmStatus, the callback registration above, and the configuration handed to the counter init |
| Pwm.PwmDriver.Deinit | asdk-gen2/platform/cyt2b75/dal/src/asdk_pwm.c:385-409 | a valid channel's callback is cleared with success; an invalid channel is refused and nothing changes |
| Pwm.Trigger | asdk-gen2/platform/cyt2b75/dal/src/asdk_pwm.c:413-454 | start and stop succeed exactly on a valid channel, INVALID_CHANNEL otherwise |
| Pwm.GetCounter | asdk-gen2/platform/cyt2b75/dal/src/asdk_pwm.c:490-509 | success exactly on a valid channel, and then the counter's value |
| Pwm.SetDuty | asdk-gen2/platform/cyt2b75/dal/src/asdk_pwm.c:457-487 | INVALID_CHANNEL first, then INVALID_DUTY_CYCLE above 100 %; on success a compare value within the period that the duty share of it rounds down to |
| Pwm.SetOutputAlignment | asdk-gen2/platform/cyt2b75/dal/src/asdk_pwm.c:512-547 | success exactly for a valid channel and right, left or centre alignment; INVALID_CHANNEL, then INVALID_OUTPUT_ALIGN, otherwise |
| Pwm.SetFrequency | asdk-gen2/platform/cyt2b75/dal/src/asdk_pwm.c:550-611 | INVALID_CHANNEL, then INVALID_PRESCALER; success exactly when the computed period fits the channel's counter group, and only then is a period written |
| Flash.GetSectorSize | asdk-gen2/platform/cyt2b75/dal/src/asdk_flash.c:491-523 | a size exactly for code and work flash addresses: code flash sectors are at least the small sector size, work flash sectors at most the large work sector size |
| Flash.GetSectorSizeStatus | asdk-gen2/platform/cyt2b75/dal/src/asdk_flash.c:491-523 | success exactly inside code or work flash, INVALID_FLASH_ADDRESS everywhere else |
| Flash.SectorsTileRegions | asdk-gen2/platform/cyt2b75/dal/src/asdk_flash.c:491-523 | the sector holding an address lies wholly in its region, so its first and last byte report the same sector size |
| Flash.EraseSectorStatus | asdk-gen2/platform/cyt2b75/dal/src/asdk_flash.c:431-488 | INVALID_FLASH_ADDRESS exactly outside the four regions; success exactly inside them when the vendor erase succeeds; ERROR when it fails |
| Flash.EraseAllStatus | asdk-gen2/platform/cyt2b75/dal/src/asdk_flash.c:411-428 | the vendor erase status passed on: success exactly when it succeeds |
| Flash.SpanFitsMeansEveryByte | asdk-gen2/platform/cyt2b75/dal/src/asdk_flash.c:328-334 | a non-empty span fits a region exactly when each of its bytes lies in it |
| Flash.SpanFitsAsWrittenNeedsOneMore | asdk-gen2/platform/cyt2b75/dal/src/asdk_flash.c:328-334 | without wrap-around, the coded end-address check accepts a span exactly when one byte more would fit: it refuses every write ending on a region's last byte |
| Flash.LastWorkFlashWordRefused | asdk-gen2/platform/cyt2b75/dal/src/asdk_flash.c:331 | the last word of work flash fits, yet the coded check refuses to write it |
| Flash.WrappingSpanAccepted | asdk-gen2/platform/cyt2b75/dal/src/asdk_flash.c:328 | a size whose 32-bit end address wraps passes the coded check though the span leaves code flash |
| Flash.AcceptedSpanHasSectors | asdk-gen2/platform/cyt2b75/dal/src/asdk_flash.c:328-334 | every byte of a span the corrected check accepts has a sector |
| Flash.Granule | asdk-gen2/platform/cyt2b75/dal/src/asdk_flash.c:342-384 | the padded last row is a 4-byte word in work flash and an 8-byte word in code flash |
| Flash.NextChunk | asdk-gen2/platform/cyt2b75/dal/src/asdk_flash.c:337-384 | each row takes at least one and at most the remaining bytes; a row shorter than its size is the padded last granule |
| Flash.RowSizes | asdk-gen2/platform/cyt2b75/dal/src/asdk_flash.c:337-384 | work flash rows are one word; code flash rows are 512, 32 or 8 bytes, never a smaller row while a larger one fits |
| Flash.RowStep | asdk-gen2/platform/cyt2b75/dal/src/asdk_flash.c:322-404 | row k + 1 is the chunk of what the first k rows left |
| Flash.RowBuffer | asdk-gen2/platform/cyt2b75/dal/src/asdk_flash.c:342-384 | the row buffer holds the chunk's source bytes, then 0xFF up to the row size |
| Flash.Padded | asdk-gen2/platform/cyt2b75/dal/src/asdk_flash.c:351-384 | the programmed image is the buffer followed by 0xFF up to whole granules |
| Flash.PadLength | asdk-gen2/platform/cyt2b75/dal/src/asdk_flash.c:351-384 | the padding is less than one granule and completes a whole number of them |
| Flash.ProgrammedAll | asdk-gen2/platform/cyt2b75/dal/src/asdk_flash.c:322-404 | all rows together program the whole padded image |
| Flash.ReadCells | asdk-gen2/platform/cyt2b75/dal/src/asdk_flash.c:263-268 | the read copies size bytes from the address on |
| Flash.ReadBackOverlay | asdk-gen2/platform/cyt2b75/dal/src/asdk_flash.c:257-290 | whatever was written over a span reads back |
| Flash.WriteImageLength | asdk-gen2/platform/cyt2b75/dal/src/asdk_flash.c:322-404 | all rows of a request together program exactly its padded image |
| Flash.WriteStatusCases | asdk-gen2/platform/cyt2b75/dal/src/asdk_flash.c:293-407 | an empty write succeeds; a non-empty one is refused exactly when it fits neither flash, and fails exactly when the vendor call fails on one of its rows |
| Flash.ProgrammedBound | asdk-gen2/platform/cyt2b75/dal/src/asdk_flash.c:322-404 | the first k rows never program more than all rows |
| Flash.WriteSuccessStoresImage | asdk-gen2/platform/cyt2b75/dal/src/asdk_flash.c:293-407 | a write reporting success has programmed the whole padded image |
| Flash.WriteFailureIsPartial | asdk-gen2/platform/cyt2b75/dal/src/asdk_flash.c:392-400 | a failing vendor call stops the write short of its last row |
| Flash.ProgrammedShort | asdk-gen2/platform/cyt2b75/dal/src/asdk_flash.c:322-404 | fewer rows than all program strictly less than the image |
| Flash.WorkflashBlankCheck | asdk-gen2/platform/cyt2b75/dal/src/asdk_flash.c:115-146 | out of bounds exactly when the bounds check fails; erased exactly on vendor success; ready to read exactly on FLASH_NOT_ERASED |
| Flash.ErasedBytes | asdk-gen2/platform/cyt2b75/dal/src/asdk_flash.c:275-278 | the 0xFF bytes a blank span reads as |
| Flash.ErasedReadAgrees | asdk-gen2/platform/cyt2b75/dal/src/asdk_flash.c:269-283 | reading a blank span as 0xFF agrees with copying it |
| Flash.EraseThenRead | asdk-gen2/platform/cyt2b75/dal/src/asdk_flash.c:431-488 | after a successful sector erase the whole sector holding the address reads as 0xFF |
| Flash.WriteThenRead | asdk-gen2/platform/cyt2b75/dal/src/asdk_flash.c:293-407 | round trip: after a successful write the bytes read back from the destination are the source bytes |
| Flash.InitStatus | asdk-gen2/platform/cyt2b75/dal/src/asdk_flash.c:182-227 | success exactly for a valid interrupt number and flash type; INVALID_INTR_NUM exactly for an interrupt number past the last |
| Flash.DeinitUndoesInit | asdk-gen2/platform/cyt2b75/dal/src/asdk_flash.c:182-254 | de-init with init's flash type turns off exactly what init turned on, and a path neither names keeps its state |
| Flash.FlashController.constructor | asdk-gen2/platform/cyt2b75/dal/src/asdk_flash.c:45-46 | both flags start false, with no callback and writes disabled |
| Flash.FlashController.Init | asdk-gen2/platform/cyt2b75/dal/src/asdk_flash.c:182-227 | status of InitStatus; a valid interrupt number selects the mode even when the type is refused; only a valid type enables writes and raises the completion flag |
| Flash.FlashController.Deinit | asdk-gen2/platform/cyt2b75/dal/src/asdk_flash.c:230-254 | disables the paths its type names; INVALID_FLASH_TYPE for another type; nothing else changes |
| Flash.FlashController.InstallCallback | asdk-gen2/platform/cyt2b75/dal/src/asdk_flash.c:527-534 | always succeeds and installs the callback, NULL included |
| Flash.FlashController.ProgramRow | asdk-gen2/platform/cyt2b75/dal/src/asdk_flash.c:388-390 | one row of bytes replaces the cells from the address on |
| Flash.FlashController.EraseCells | asdk-gen2/platform/cyt2b75/dal/src/asdk_flash.c:476-480 | the erased cells read as 0xFF |
| Flash.FlashController.EraseSectorBlocking | asdk-gen2/platform/cyt2b75/dal/src/asdk_flash.c:431-488 | status of EraseSectorStatus; on success the sector holding the address is erased, otherwise flash is unchanged |
| Flash.FlashController.ProgramChunk | asdk-gen2/platform/cyt2b75/dal/src/asdk_flash.c:337-402 | one pass of the write loop: a padded row programmed at the current address, the cursor advanced, the programmed prefix of the image extended |
| Flash.FlashController.WriteBlocking | asdk-gen2/platform/cyt2b75/dal/src/asdk_flash.c:293-407 | NULL is refused; otherwise WriteStatus, an untouched flash on a refused address, and the programmed rows of the image over the destination otherwise |
| Flash.FlashController.ReadBlocking | asdk-gen2/platform/cyt2b75/dal/src/asdk_flash.c:257-290 | code flash is copied; work flash is copied, read as 0xFF or refused by the blank check; any other address is refused |
| Flash.FlashController.WriteRows | asdk-gen2/platform/cyt2b75/dal/src/asdk_flash.c:321-406 | the write loop gives WriteStatus and leaves the programmed rows of the image over the destination |
| Flash.Advance | asdk-gen2/platform/cyt2b75/dal/src/asdk_flash.c:386-403 | each pass counts one more row and consumes at least one byte |
| Flash.WriteRefused | asdk-gen2/platform/cyt2b75/dal/src/asdk_flash.c:328-334 | the address check can fail only on the first pass, and then the whole span is refused |
| Flash.WriteInterrupted | asdk-gen2/platform/cyt2b75/dal/src/asdk_flash.c:392-400 | a vendor error on the current row ends the write with the rows before it programmed |
| Flash.WriteCompleted | asdk-gen2/platform/cyt2b75/dal/src/asdk_flash.c:322 | leaving the loop, every row has been programmed and the write succeeds |
| Flash.RowAdvance | asdk-gen2/platform/cyt2b75/dal/src/asdk_flash.c:337-403 | one more row keeps the loop's row arithmetic and programs that row's size more |
| Flash.WriteStep | asdk-gen2/platform/cyt2b75/dal/src/asdk_flash.c:322-403 | one pass keeps the loop's state |
| Flash.ChunkProgrammed | asdk-gen2/platform/cyt2b75/dal/src/asdk_flash.c:388-390 | programming one pass's row extends the programmed prefix of the image by that row |
| Flash.RowIsImageSlice | asdk-gen2/platform/cyt2b75/dal/src/asdk_flash.c:337-384 | the row of one pass is the next slice of the padded image |
| Flash.PartialRowPad | asdk-gen2/platform/cyt2b75/dal/src/asdk_flash.c:351-384 | the last, partial row is padded exactly up to the image's end |
| Flash.ImageSlice | asdk-gen2/platform/cyt2b75/dal/src/asdk_flash.c:342-384 | a row taken from the source and padded with 0xFF is the matching slice of the padded image |
| Flash.SameTarget | asdk-gen2/platform/cyt2b75/dal/src/asdk_flash.c:328-337 | the span re-checked on each pass lands in the flash the whole request targets |
| Adc.PinMap | asdk-gen2/platform/cyt2b75/dal/src/asdk_adc.c:110-223 | only the first 100 MCU pins can have an ADC module and channel |
| Adc.PinMapInjective | asdk-gen2/platform/cyt2b75/dal/src/asdk_adc.c:110-223 | no two pins share a module channel, so the ISRs' reverse search of the map finds exactly one pin |
| Adc.GetModuleInfo | asdk-gen2/platform/cyt2b75/dal/src/asdk_adc.c:550-568 | found exactly for pins wired to the ADC, with that module and channel; INVALID_PIN for other table pins, DAL_INVALID_PIN_MAP past the table |
| Adc.InputCheckIsFirstFailure | asdk-gen2/platform/cyt2b75/dal/src/asdk_adc.c:488-548 | NULL config gives NULL_PTR; otherwise the code of the first failing check; success exactly when every check passes |
| Adc.InitPrecheck | asdk-gen2/platform/cyt2b75/dal/src/asdk_adc.c:318-335 | input check errors pass through; then a hardware trigger, then DMA, is refused; success implies neither is requested |
| Adc.AcceptedConfigIsSoftwareTriggered | asdk-gen2/platform/cyt2b75/dal/src/asdk_adc.c:314-335 | an accepted configuration has pins and interrupts enabled, and asks for neither DMA nor a hardware trigger |
| Adc.Unused | asdk-gen2/platform/cyt2b75/dal/src/asdk_adc.c:644-647 | the reset table has 32 slots, all MCU_PIN_NOT_DEFINED |
| Adc.FirstFreeFrom | asdk-gen2/platform/cyt2b75/dal/src/asdk_adc.c:651-658 | the index found is free, and every slot between the start and it is taken; the table length means no free slot |
| Adc.CompactFirstFree | asdk-gen2/platform/cyt2b75/dal/src/asdk_adc.c:651-658 | in a table whose used slots come first, the first free slot is just past them |
| Adc.PinSetup | asdk-gen2/platform/cyt2b75/dal/src/asdk_adc.c:685-722 | a pin's set-up goes on exactly when module, channel, an interrupt number below ASDK_EXTI_INTR_MAX and pinmux all succeed |
| Adc.AddPins | asdk-gen2/platform/cyt2b75/dal/src/asdk_adc.c:667-733 | the pin loop keeps the table size, adds at most the remaining pins, and succeeds if it adds them all |
| Adc.AddPinsStep | asdk-gen2/platform/cyt2b75/dal/src/asdk_adc.c:667-730 | one pin: a pin without ADC input, an already active pin, or a failing set-up ends the loop with its code; otherwise the pin is stored and the loop goes on |
| Adc.AddPinsWrites | asdk-gen2/platform/cyt2b75/dal/src/asdk_adc.c:730 | added pins land in order in the slots from the free one on; every other slot is unchanged |
| Adc.AddPinsStops | asdk-gen2/platform/cyt2b75/dal/src/asdk_adc.c:670-722 | a loop that stops early stopped at a pin without ADC input, an active pin or a failed set-up, and reports which |
| Adc.AddPinsKeepsTable | asdk-gen2/platform/cyt2b75/dal/src/asdk_adc.c:677-730 | the loop keeps the table compact (used slots first) and free of repeated pins |
| Adc.AddPinsAll | asdk-gen2/platform/cyt2b75/dal/src/asdk_adc.c:667-733 | distinct, inactive ADC pins whose set-up succeeds are all added, with success |
| Adc.SingleInitSpec | asdk-gen2/platform/cyt2b75/dal/src/asdk_adc.c:631-734 | single init keeps the 32-slot table size |
| Adc.SingleInitKeepsTable | asdk-gen2/platform/cyt2b75/dal/src/asdk_adc.c:631-734 | single init keeps the active-pin table compact and free of repeats, from the first call on |
| Adc.AddPinsSplices | asdk-gen2/platform/cyt2b75/dal/src/asdk_adc.c:667-733 | a loop that adds every pin splices the pins into the table at the free slot |
| Adc.SingleInitAppends | asdk-gen2/platform/cyt2b75/dal/src/asdk_adc.c:631-734 | a successful single init writes the pins in order into the free slots from the first free one and leaves every other slot as it was |
| Adc.FirstFreeHandle | asdk-gen2/platform/cyt2b75/dal/src/asdk_adc.c:576-590 | the handle found has no pins, and every earlier handle is taken |
| Adc.FirstFreeHandleUnique | asdk-gen2/platform/cyt2b75/dal/src/asdk_adc.c:576-590 | only one index has both of those properties |
| Adc.GroupInitSpec | asdk-gen2/platform/cyt2b75/dal/src/asdk_adc.c:570-629 | group init keeps the number of handles and the table size |
| Adc.GroupInitClaimsFreeHandle | asdk-gen2/platform/cyt2b75/dal/src/asdk_adc.c:570-629 | a successful group init hands out the first free handle, whose pins read back from the table as the configured pins |
| Adc.GroupInitBeforeSingleInitRefused | asdk-gen2/platform/cyt2b75/dal/src/asdk_adc.c:592-605 | before any single init the zeroed table has no free slot, so a group init is refused with PIN_BUFFER_NOT_AVAILABLE |
| Adc.StartConversionStatus | asdk-gen2/platform/cyt2b75/dal/src/asdk_adc.c:400-425 | success exactly for an ADC pin whose group is not busy; pin errors pass through; busy or failed status gives CONVERSION_FAIL |
| Adc.ReadConversionValue | asdk-gen2/platform/cyt2b75/dal/src/asdk_adc.c:434-452 | a value exactly for ADC pins, and it is the channel's result; other pins get the lookup's error |
| Adc.AdcDriver.constructor | asdk-gen2/platform/cyt2b75/dal/src/asdk_adc.c:101-225 | the statics start zeroed: not initialised, no callback, every slot MCU_PIN_0, every handle free |
| Adc.AdcDriver.InstallCallback | asdk-gen2/platform/cyt2b75/dal/src/asdk_adc.c:351-362 | NULL is refused and the installed callback kept; otherwise it is installed |
| Adc.AdcDriver.ResetPins | asdk-gen2/platform/cyt2b75/dal/src/asdk_adc.c:644-647 | the reset loop frees every slot |
| Adc.AdcDriver.FindFreeSlot | asdk-gen2/platform/cyt2b75/dal/src/asdk_adc.c:651-658 | the search loop returns the first free slot |
| Adc.AdcDriver.FindFreeHandle | asdk-gen2/platform/cyt2b75/dal/src/asdk_adc.c:576-590 | the search loop returns the first handle without pins |
| Adc.AdcDriver.IsActive | asdk-gen2/platform/cyt2b75/dal/src/asdk_adc.c:677-682 | the duplicate check finds a pin exactly when it is in the table |
| Adc.AdcDriver.SingleInit | asdk-gen2/platform/cyt2b75/dal/src/asdk_adc.c:631-734 | status and new table are those of SingleInitSpec; the statics are marked initialised |
| Adc.AdcDriver.AppendPins | asdk-gen2/platform/cyt2b75/dal/src/asdk_adc.c:667-733 | the loop's status and table are those of AddPins |
| Adc.AdcDriver.GroupInit | asdk-gen2/platform/cyt2b75/dal/src/asdk_adc.c:570-629 | status, handles, table and returned instance are those of GroupInitSpec |
| Adc.AdcDriver.Init | asdk-gen2/platform/cyt2b75/dal/src/asdk_adc.c:314-348 | a failed precheck changes nothing; otherwise group or single init as the configuration asks |
| System.LowestSetBit | asdk-gen2/platform/cyt2b75/dal/src/asdk_system.c:173-182 | isolates the lowest set bit of the cause register: 0 for 0, otherwise a single bit that is set in the register with no lower bit set |
| System.FirstMatchFinds | asdk-gen2/platform/cyt2b75/dal/src/asdk_system.c:184-264 | the switch answers the reason of the first case labelled with the cause |
| System.NoMatchIsUnknown | asdk-gen2/platform/cyt2b75/dal/src/asdk_system.c:261-263 | a cause no case is labelled with takes the default branch, UNKNOWN |
| System.EachCaseItsReason | asdk-gen2/platform/cyt2b75/dal/src/asdk_system.c:184-264 | with the distinct case labels of a C switch, each cause mask gives its own reason |
| System.UnlabelledIsUnknown | asdk-gen2/platform/cyt2b75/dal/src/asdk_system.c:261-263 | a cause none of the labels matches reads as UNKNOWN |
| System.ClockCauseTakesPrecedence | asdk-gen2/platform/cyt2b75/dal/src/asdk_system.c:175-182 | a nonzero clock-supervision cause decides the reason whatever the system cause is |
| System.LowestCauseDecides | asdk-gen2/platform/cyt2b75/dal/src/asdk_system.c:173-264 | with several system causes latched, the lowest one decides the reason, whatever higher bits are set |
| System.LowestBitIsUnique | asdk-gen2/platform/cyt2b75/dal/src/asdk_system.c:173 | a single bit present in the register with no lower bit set is exactly what the bit trick isolates |
| System.NoCauseIsUnknown | asdk-gen2/platform/cyt2b75/dal/src/asdk_system.c:167-270 | with no cause latched at all the reason is UNKNOWN |
| System.Replay | asdk-gen2/platform/cyt2b75/dal/src/asdk_system.c:273-283 | the millisecond counter never goes down under timer events |
| System.TerminalCounts | asdk-gen2/platform/cyt2b75/dal/src/asdk_system.c:276-278 | at most one millisecond per timer event |
| System.ReplayCounts | asdk-gen2/platform/cyt2b75/dal/src/asdk_system.c:273-283 | a run of timer events adds exactly its terminal-count events to the counter; every other event leaves it alone |
| System.TerminalCountsFront | asdk-gen2/platform/cyt2b75/dal/src/asdk_system.c:276-278 | the terminal-count tally counted from the front of the run |
| System.ReplayAppend | asdk-gen2/platform/cyt2b75/dal/src/asdk_system.c:273-283 | two runs of events, one after the other, act as their concatenation |
| System.TimeCountsTerminalEvents | asdk-gen2/platform/cyt2b75/dal/src/asdk_system.c:121-132 | after init restarts the counter at 0, the time read is the number of terminal-count events since |
| System.SystemClock.constructor | asdk-gen2/platform/cyt2b75/dal/src/asdk_system.c:110 | ms_counter_value starts at -1: no time before init |
| System.SystemClock.Init | asdk-gen2/platform/cyt2b75/dal/src/asdk_system.c:121-132 | always succeeds; with the system timer the counter restarts from 0, otherwise it is unchanged |
| System.SystemClock.OnTimerEvent | asdk-gen2/platform/cyt2b75/dal/src/asdk_system.c:273-283 | one callback adds one millisecond for a terminal-count event and nothing for any other |
| System.SystemClock.GetTimeMs | asdk-gen2/platform/cyt2b75/dal/src/asdk_system.c:154-165 | the RTOS's time when built with an RTOS; otherwise the counter with the system timer, else -1 |
| CanDal.ChannelMap | asdk-gen2/platform/cyt2b75/dal/src/asdk_can.c:213-220 | channels 0-2 are CANFD_0's channels 0-2 and channels 3-5 are CANFD_1's; the map is a bijection onto (controller, channel) |
| CanDal.MaxDlc | asdk-gen2/platform/cyt2b75/dal/src/asdk_can.c:265-333 | a supported maximum DLC (8, 12, 16, 20, 24, 32, 48, 64) sets all four buffer data sizes to it, and only those values are accepted |
| CanDal.NominalPrescaler | asdk-gen2/platform/cyt2b75/dal/src/asdk_can.c:335-372 | accepted exactly for the four nominal rates, and each prescaler divides the 40 MHz clock into 40 quanta per bit at that rate |
| CanDal.DataPrescaler | asdk-gen2/platform/cyt2b75/dal/src/asdk_can.c:374-424 | accepted exactly for the six data rates, and each prescaler divides the clock into that rate's quanta per bit |
| CanDal.WithBitTiming | asdk-gen2/platform/cyt2b75/dal/src/asdk_can.c:426-447 | the segment registers hold one less than the requested lengths (propagation and phase 1 together), truncated to 8 bits; the prescaler is kept |
| CanDal.BitrateConfigAsWritten | asdk-gen2/platform/cyt2b75/dal/src/asdk_can.c:449-467 | as written, FD mode hands the data baud rate to the nominal setter: it overwrites the nominal prescaler and the fast prescaler stays 0 |
| CanDal.ConfigureBitrates | asdk-gen2/platform/cyt2b75/dal/src/asdk_can.c:449-467 | with the data rate handed to the data setter: the nominal prescaler is the nominal rate's, the fast one the data rate's in FD mode and zero in classic mode |
| CanDal.NominalRateIsRequested | asdk-gen2/platform/cyt2b75/dal/src/asdk_can.c:335-372 | a supported nominal rate with a 40-quantum bit time runs the bus at exactly that rate |
| CanDal.DataRateIsRequested | asdk-gen2/platform/cyt2b75/dal/src/asdk_can.c:374-424 | a supported data rate with its bit time runs the data phase at exactly that rate |
| CanDal.ConfiguredRatesAreRequested | asdk-gen2/platform/cyt2b75/dal/src/asdk_can.c:449-467 | the configured controller runs arbitration at the nominal rate and, in FD mode, the data phase at the data rate |
| CanDal.FdDataBaudOverwritesNominal | asdk-gen2/platform/cyt2b75/dal/src/asdk_can.c:464 | at 500 kbit/s nominal and 500 kbit/s data, the code as written runs arbitration at 125 kbit/s and the data phase at 1 Mbit/s; the corrected configuration runs both at 500 kbit/s |
| CanDal.FilterSettingsFor | asdk-gen2/platform/cyt2b75/dal/src/asdk_can.c:469-570 | non-matching and remote frames are rejected; RX FIFO 0 has CAN_HW_RX_FIFO_SIZE elements, FIFO 1 none; one TX buffer without TX mailboxes; one filter without a list, else one per listed identifier, of the chosen identifier type |
| CanDal.ListFilters | asdk-gen2/platform/cyt2b75/dal/src/asdk_can.c:533-539 | one filter element is written per listed identifier |
| CanDal.FilterTableAfter | asdk-gen2/platform/cyt2b75/dal/src/asdk_can.c:506-548 | the static filter table keeps its size |
| CanDal.ListedFront | asdk-gen2/platform/cyt2b75/dal/src/asdk_can.c:533-539 | an identifier is listed when it is the first of the list or listed in the rest |
| CanDal.ClassicFilterMatches | asdk-gen2/platform/cyt2b75/dal/src/asdk_can.c:535-538 | the element written for an identifier matches just that identifier, as stored in 11 bits |
| CanDal.ExactFilterMatches | asdk-gen2/platform/cyt2b75/dal/src/asdk_can.c:536 | an element with the full 0x7FF mask matches only its own identifier |
| CanDal.FullMask | asdk-gen2/platform/cyt2b75/dal/src/asdk_can.c:536 | two 11-bit identifiers agree on every bit of the full mask exactly when they are equal |
| CanDal.ListFiltersAction | asdk-gen2/platform/cyt2b75/dal/src/asdk_can.c:533-539 | the elements written for a list store exactly the listed identifiers into RX FIFO 0 and reject the rest |
| CanDal.StandardFilterAccepts | asdk-gen2/platform/cyt2b75/dal/src/asdk_can.c:506-548 | with standard identifiers the programmed table accepts every identifier when no list is given, and exactly the listed ones otherwise |
| CanDal.ErrorEventOf | asdk-gen2/platform/cyt2b75/dal/src/asdk_can.c:662-682 | bus error code 5 is reported as bus-off, 7 (error passive) as a receive error, every other code as an error |
| CanDal.InitSucceedsIff | asdk-gen2/platform/cyt2b75/dal/src/asdk_can.c:691-808 | init succeeds exactly when the channel exists, pinmux and clock succeed, the maximum DLC is supported, the interrupt line exists and the vendor driver accepts |
| CanDal.InitChecksChannelFirst | asdk-gen2/platform/cyt2b75/dal/src/asdk_can.c:697-701 | an invalid channel is refused before anything else is looked at |
| CanDal.ControllerConfigFor | asdk-gen2/platform/cyt2b75/dal/src/asdk_can.c:733-796 | FD mode exactly for mode FD, the extended filter count forced to 0, and an interrupt line exactly when interrupts are used |
| CanDal.Deinit | asdk-gen2/platform/cyt2b75/dal/src/asdk_can.c:812-830 | INVALID_CHANNEL exactly for a missing channel; success exactly when the vendor de-init succeeds, DEINIT_FAILED otherwise |
| CanDal.IsTxBusy | asdk-gen2/platform/cyt2b75/dal/src/asdk_can.c:855-867 | an invalid channel is refused with busy false; otherwise success with the mailbox's pending-request bit |
| CanDal.CanDriver.constructor | asdk-gen2/platform/cyt2b75/dal/src/asdk_can.c:195-196 | the static filter table starts zeroed, with no callback installed |
| CanDal.CanDriver.InstallCallback | asdk-gen2/platform/cyt2b75/dal/src/asdk_can.c:833-845 | NULL is refused and the installed callback kept; otherwise it is installed |
| CanDal.CanDriver.SetHwFilter | asdk-gen2/platform/cyt2b75/dal/src/asdk_can.c:469-570 | always succeeds; the settings and the new filter table are those of FilterSettingsFor and FilterTableAfter |
| CanDal.CanDriver.Init | asdk-gen2/platform/cyt2b75/dal/src/asdk_can.c:691-808 | the status chain of InitStatus; the filter table is written once the DLC check passes; the vendor driver gets ControllerConfigFor once the interrupt line is accepted |
| CanDal.CanDriver.Write | asdk-gen2/platform/cyt2b75/dal/src/asdk_can.c:871-900 | an invalid channel is refused; otherwise the frame goes to the controller, the status is success exactly when the controller accepts, and the message is kept for the transmit-complete event |
| CanDal.CanDriver.Handler | asdk-gen2/platform/cyt2b75/dal/src/asdk_can.c:618-682 | the callback hears of an event exactly when one is installed, and is told the channel being served |
| CanDal.CanDriver.Isr | asdk-gen2/platform/cyt2b75/dal/src/asdk_can.c:574-614 | the callback is told the serving channel with the transmit-complete message, the received frame, or the bus error's event |
| Spi.TargetFrequency | asdk-gen2/platform/cyt2b75/dal/src/asdk_spi.c:278-325 | a transfer rate has a clock setting exactly when it is at most 8 MHz, and that setting is four times the bit rate |
| Spi.SclkModeOf | asdk-gen2/platform/cyt2b75/dal/src/asdk_spi.c:351-370 | SPI modes 0 to 3 map to their phase (low bit) and polarity (high bit); every other value is refused |
| Spi.InitRejectsAt | asdk-gen2/platform/cyt2b75/dal/src/asdk_spi.c:195-476 | when check i is the first to fail, init returns that check's error code |
| Spi.InitPassesAll | asdk-gen2/platform/cyt2b75/dal/src/asdk_spi.c:461-489 | when every check passes, init reports the vendor driver's verdict: success or INIT_FAIL |
| Spi.PassedUpToClock | asdk-gen2/platform/cyt2b75/dal/src/asdk_spi.c:195-332 | once the checks up to the clock pass, any failure comes after the clock |
| Spi.PassedThroughClock | asdk-gen2/platform/cyt2b75/dal/src/asdk_spi.c:195-332 | conversely, a first failure after the clock means every check up to the clock passed |
| Spi.InitChecksPassIff | asdk-gen2/platform/cyt2b75/dal/src/asdk_spi.c:195-455 | all of init's checks pass exactly when every parameter is in range, the rate is at most 8 MHz, the SCB is free, the interrupt is valid, the clock starts, the mode is 0 to 3 and every slave has one of the first four select lines with a pin |
| Spi.InitStatusSuccess | asdk-gen2/platform/cyt2b75/dal/src/asdk_spi.c:171-490 | with a clock status other than the SPI success code, init succeeds exactly when all checks pass and the vendor driver accepts |
| Spi.InitSucceedsIff | asdk-gen2/platform/cyt2b75/dal/src/asdk_spi.c:171-490 | init succeeds exactly when it accepts the configuration and the vendor driver accepts it too |
| Spi.AtMostFourSlaves | asdk-gen2/platform/cyt2b75/dal/src/asdk_spi.c:200-203 | although the slave count is checked against eight, a successful init never has more than four slaves |
| Spi.MasterGetsRequest | asdk-gen2/platform/cyt2b75/dal/src/asdk_spi.c:336-370 | a master is handed its own data width, clock phase and polarity, bit order and oversampling by four, whatever an earlier init left behind |
| Spi.SlaveGetsFixedConfig | asdk-gen2/platform/cyt2b75/dal/src/asdk_spi.c:461-476 | a slave is always handed the fixed slave configuration; its requested mode, width and order are written to SCB_SPI_cfg and not used |
| Spi.NoneRaisedKeeps | asdk-gen2/platform/cyt2b75/dal/src/asdk_spi.c:535-562 | when none of the tested flags is raised, the output keeps its value |
| Spi.LastRaisedWins | asdk-gen2/platform/cyt2b75/dal/src/asdk_spi.c:535-562 | the last raised flag in the test order decides the output |
| Spi.GetTransferStatus | asdk-gen2/platform/cyt2b75/dal/src/asdk_spi.c:515-570 | an out-of-range SPI is refused with the output untouched; a zero status word is an error with the output untouched; any other word is success |
| Spi.TransferStatusLastFlagWins | asdk-gen2/platform/cyt2b75/dal/src/asdk_spi.c:535-562 | with several flags raised, the last one tested wins: active, then in FIFO, slave error, overflow and underflow |
| Spi.TransferStatusNoFlag | asdk-gen2/platform/cyt2b75/dal/src/asdk_spi.c:535-569 | a nonzero word with none of the five flags reports success and leaves the output alone |
| Spi.Deinit | asdk-gen2/platform/cyt2b75/dal/src/asdk_spi.c:493-512 | deinit succeeds exactly for an SPI number in range; otherwise it answers RANGE_EXCEEDED |
| Spi.TransferNonBlocking | asdk-gen2/platform/cyt2b75/dal/src/asdk_spi.c:627-660 | an out-of-range SPI is refused; otherwise the call succeeds exactly when the vendor transfer starts, else TRANSFER_FAIL |
| Spi.TransferBlocking | asdk-gen2/platform/cyt2b75/dal/src/asdk_spi.c:663-683 | a blocking transfer never succeeds: FEATURE_NOT_IMPLEMENTED in range, RANGE_EXCEEDED otherwise |
| Spi.HandlerWidthAsWritten | asdk-gen2/platform/cyt2b75/dal/src/asdk_spi.c:701-1090 | the even-numbered handlers rewind at the width of SCB_SPI_cfg, the odd-numbered ones at the slave configuration's fixed 8 bits |
| Spi.CompletionAsWritten | asdk-gen2/platform/cyt2b75/dal/src/asdk_spi.c:852-885 | the completion reported by each handler as written, with SPI 3 rewinding SPI 1's context and the odd handlers rewinding at 8 bits |
| Spi.CompletionOf | asdk-gen2/platform/cyt2b75/dal/src/asdk_spi.c:701-885 | the completion of SPI N with its own context rewound |
| Spi.CompletionSpansReceivedWords | asdk-gen2/platform/cyt2b75/dal/src/asdk_spi.c:701-885 | the buffer the callback gets, filled with the reported count of words, ends where SPI N's receive pointer stands |
| Spi.CompletionAsWrittenAgrees | asdk-gen2/platform/cyt2b75/dal/src/asdk_spi.c:701-1090 | the even-numbered handlers report the intended completion at the width of SCB_SPI_cfg; the odd-numbered ones except SPI 3 do so at any width other than 16 |
| Spi.Spi3HandlerReadsSpi1Context | asdk-gen2/platform/cyt2b75/dal/src/asdk_spi.c:864-865 | SPI 3 finishing 4 bytes ending at 0x2000 while SPI 1's context holds 2 bytes ending at 0x1000: as written the callback gets 0x0FFE instead of 0x1FFC |
| Spi.OddHandlerRewindsSixteenBitWordsAsBytes | asdk-gen2/platform/cyt2b75/dal/src/asdk_spi.c:763-770 | SPI 1 as a 16-bit master finishing 2 words ending at 0x1000: as written the callback gets 0x0FFE instead of 0x0FFC |
| Spi.CheckUpToClock | asdk-gen2/platform/cyt2b75/dal/src/asdk_spi.c:190-332 | the checks run in the source's order up to the clock; the status is that of the first failing check, and passing means every check so far passed |
| Spi.SpiDriver.constructor | asdk-gen2/platform/cyt2b75/dal/src/asdk_spi.c:49-75 | the static SCB_SPI_cfg initialiser and no callbacks |
| Spi.SpiDriver.InstallCallback | asdk-gen2/platform/cyt2b75/dal/src/asdk_spi.c:572-624 | a callback, a NULL one included, is stored for any SPI number in range; other numbers are refused and nothing changes |
| Spi.SpiDriver.Init | asdk-gen2/platform/cyt2b75/dal/src/asdk_spi.c:171-490 | the status is InitStatus, the vendor driver gets HandedConfig, and SCB_SPI_cfg becomes MasterCfgAfter |
| DebugUart.ChunkSize | arsenal/debug_uart.c:98-108 | one SEND step takes all queued bytes up to 64, and at least one when any are queued |
| DebugUart.DebugUart.constructor | arsenal/debug_uart.c:12-47 | the static buffer: 4096 one-byte blocks, no overwrite, no callback, empty; state INIT; no usage recorded |
| DebugUart.DebugUart.DebugUartInit | arsenal/debug_uart.c:73-78 | the buffer is emptied and the machine restarts in INIT; the recorded maximum usage is kept |
| DebugUart.DebugUart.Putchar | arsenal/debug_uart.c:125-130 | a character is appended to the queue unless the 4096 bytes are full, when it is dropped |
| DebugUart.DebugUart.OnUartEvent | arsenal/debug_uart.c:49-71 | only a transmit-complete event of UART 0 moves the machine, and only from WAIT_FOR_TX_EVT to SEND |
| DebugUart.DebugUart.SendStep | arsenal/debug_uart.c:97-118 | an empty queue stays in SEND; otherwise the oldest ChunkSize bytes leave the queue, in order, as one UART write, and the machine waits for the transmitter |
| DebugUart.DebugUart.Iterate | arsenal/debug_uart.c:80-123 | the high-water mark becomes the larger of itself and the queue length; INIT moves to SEND when the driver calls succeed; SEND is SendStep; WAIT_FOR_TX_EVT changes nothing; every byte ever accepted is either sent, in order, or still queued |
| Colour.Sub64 | sensors/colour/colour.c:54 | the uint64_t difference of two edge times: the plain difference when the second is later, wrapped modulo 2^64 otherwise |
| Colour.NextFilterAsWritten | sensors/colour/colour.c:141 | as written, the filter after an iteration is one more, modulo MAX_FILTER |
| Colour.IterationAsWrittenLeavesFilters | sensors/colour/colour.c:141 | as written, the iteration after BLUE_FILTER selects 0, which is no filter |
| Colour.NextFilter | sensors/colour/colour.c:141 | the corrected cycle: clear, red, green and blue in order, then clear again |
| Colour.NextFilterAgreesBeforeBlue | sensors/colour/colour.c:141 | the corrected cycle and the code as written agree on every filter but BLUE_FILTER |
| Colour.Advance | sensors/colour/colour.c:138-144 | under the corrected cycle, n iterations from a filter always land on a filter |
| Colour.FilterCycle | sensors/colour/colour.c:138-144 | under the corrected cycle, four iterations return to the same filter, and any four in a row visit all four filters |
| Colour.AdvanceAsWritten | sensors/colour/colour.c:138-144 | as written, n iterations from a value below MAX_FILTER stay below MAX_FILTER |
| Colour.FilterCycleAsWritten | sensors/colour/colour.c:138-144 | as written, the iteration cycles through five values: four iterations do not return, five do, and five in a row visit the four filters and 0 |
| Colour.FilterLevels | sensors/colour/colour.c:77-105 | the S2 and S3 levels of each filter (clear: high, low; red: low, low; green: high, high; blue: low, high); a value outside the enumeration drives no pins |
| Colour.FilterLevelsDistinct | sensors/colour/colour.c:84-104 | different filters drive different levels, so the pins identify the filter |
| Colour.Reading | sensors/colour/colour.c:107-136 | the component of the selected filter takes the pulse width truncated to 16 bits and the others keep their values |
| Colour.CycleFillsComponents | sensors/colour/colour.c:107-144 | under the corrected cycle, four iterations from clear, each followed by a reading, fill the four components with the four pulse widths |
| Colour.CycleAsWrittenFillsComponents | sensors/colour/colour.c:107-144 | as written, the readings at clear, red, green and blue fill the four components, and the reading at the fifth value, 0, changes none of them |
| Colour.FreshFilterReadsZero | sensors/colour/colour.c:77-83 | until a rising edge is seen after a filter change, the reading reports 0 for the new filter |
| Colour.ColourSensor.constructor | sensors/colour/colour.c:16-18 | the statics before init: NO_FILTER, nothing timed |
| Colour.ColourSensor.SetFilter | sensors/colour/colour.c:77-105 | the filter value is selected and every timing value is cleared; a filter's levels are driven on S2 and S3, and the value 0 leaves the pins as they were |
| Colour.ColourSensor.Init | sensors/colour/colour.c:58-69 | a failing timer call hangs with nothing changed; otherwise NO_FILTER is selected |
| Colour.ColourSensor.Iterate | sensors/colour/colour.c:138-144 | the value one more modulo MAX_FILTER is selected and the timing restarts; a filter gets its levels, and the 0 after BLUE_FILTER leaves the pins alone |
| Colour.ColourSensor.OnEdge | sensors/colour/colour.c:44-56 | a high pin records the start time; a low pin after a start stores the 64-bit pulse width; a low pin before any start changes nothing; the filter never changes |
| Colour.ColourSensor.CurrentFilter | sensors/colour/colour.c:71-74 | the current filter is one of the four or the 0 the iteration reaches after BLUE_FILTER, not only the four values colour.h documents |
| Colour.ColourSensor.GetReading | sensors/colour/colour.c:107-136 | the result is Reading of the current filter and the last pulse width: every other component is unchanged, and under the value 0 every component is |
| SetupInstaller.Download | asdk-gen2/setup/setup.py:312-340 | at most retry attempts are made, stopping at the first success; the file is downloaded exactly when one of the allowed attempts succeeds, and otherwise the script exits with status 1 after all of them |
| SetupInstaller.ExtensionAsWritten | asdk-gen2/setup/setup.py:32 | as written, a match is a suffix of the name of 4, 7 or 8 characters, and there is one exactly when one of the four alternatives matches at the end with every `.` standing for any character but a newline |
| SetupInstaller.ArchiveKindAsWritten | asdk-gen2/setup/setup.py:343-382 | as written, a name is accepted exactly when the pattern matches, and only a ".zip" suffix is opened as a zip |
| SetupInstaller.UnescapedDotAcceptsNonArchive | asdk-gen2/setup/setup.py:32 | as written, "cmake_zip", which has no archive suffix, is accepted and opened as a tar file |
| SetupInstaller.UnescapedInnerDotAcceptsNonArchive | asdk-gen2/setup/setup.py:32 | as written, "cmake.tar-gz", which has no archive suffix, is accepted with the suffix ".tar-gz" and opened as a tar file |
| SetupInstaller.Bz2Extension | asdk-gen2/setup/setup.py:32 | a ".tar.bz2" name is matched as ".tar.bz2" and is not a ".zip" name |
| SetupInstaller.GzExtension | asdk-gen2/setup/setup.py:32 | a ".tar.gz" name is matched as ".tar.gz" and is not a ".zip" name |
| SetupInstaller.ShortExtension | asdk-gen2/setup/setup.py:32 | a ".zip" or ".tar" name is matched as exactly that suffix |
| SetupInstaller.ArchiveKindOf | asdk-gen2/setup/setup.py:343-382 | the intended choice: ".zip" names are zip files, ".tar", ".tar.gz" and ".tar.bz2" names are tar files, every other name is refused |
| SetupInstaller.KindAsWrittenAgreesOnArchives | asdk-gen2/setup/setup.py:343-382 | on every properly named archive the pattern as written makes the intended choice |
| SetupInstaller.CommonPrefix | asdk-gen2/setup/setup.py:355-367 | the common leading components of two paths lead both, and cannot be extended |
| SetupInstaller.CommonPath | asdk-gen2/setup/setup.py:355-367 | the root reported for an archive leads every member |
| SetupInstaller.CommonPrefixLongest | asdk-gen2/setup/setup.py:355-367 | every path leading two paths leads their common prefix |
| SetupInstaller.CommonPathLongest | asdk-gen2/setup/setup.py:355-367 | the reported root is the longest path that leads every member |
| SetupInstaller.Extract | asdk-gen2/setup/setup.py:343-384 | extraction succeeds exactly when the name is an archive name, the archive has members and the library unpacks it; the format is the one chosen from the name and the root leads every member |
| SetupInstaller.CmakeFound | asdk-gen2/setup/setup.py:403-412 | CMake counts as installed exactly when ASDK_CMAKE_ROOT is set and <root>/bin/cmake (with .exe on Windows) exists |
| SetupInstaller.NinjaFound | asdk-gen2/setup/setup.py:415-424 | Ninja counts as installed exactly when ASDK_NINJA_ROOT is set and <root>/ninja (with .exe on Windows) exists |
| SetupInstaller.ToolchainFound | asdk-gen2/setup/setup.py:427-446 | the toolchain counts as installed only when both of the platform's variables are set, and for ARM exactly when <root>/<version>/bin/arm-none-eabi-gcc exists |
| SetupInstaller.OpenocdProbeAsWritten | asdk-gen2/setup/setup.py:449-459 | as written, the probe raises exactly when ASDK_OPENOCD_ROOT is set and ASDK_OPENOCD_VERSION is not |
| SetupInstaller.OpenocdProbeRaisesWithoutVersion | asdk-gen2/setup/setup.py:450 | as written, an environment with only ASDK_OPENOCD_ROOT stops the installer with an exception |
| SetupInstaller.OpenocdFound | asdk-gen2/setup/setup.py:449-459 | OpenOCD counts as installed exactly when both variables are set and <root>/<version>/bin/openocd exists |
| SetupInstaller.OpenocdProbeAgrees | asdk-gen2/setup/setup.py:449-459 | wherever the probe as written answers, it answers as OpenocdFound |
| SetupInstaller.ExportLinesHasEach | asdk-gen2/setup/setup.py:587-596 | every variable gets its export line in ~/.asdk_environment |
| SetupInstaller.EnvFileAfter | asdk-gen2/setup/setup.py:587-596 | under --force the file holds exactly the export lines; otherwise the old contents are kept as a prefix; every variable's export line is present |
| SetupInstaller.RcAfter | asdk-gen2/setup/setup.py:604-620 | the rc file afterwards sources ~/.asdk_environment and keeps its old contents as a prefix |
| SetupInstaller.RcAfterIdempotent | asdk-gen2/setup/setup.py:604-620 | running the installer again leaves the rc file unchanged: the sourcing lines are added once |
| SetupInstaller.Setx | asdk-gen2/setup/setup.py:577-584 | on Windows the variables are set in order; the run succeeds exactly when every SETX succeeds, and the first failure exits with status 1 |
| SetupInstaller.Installer.constructor | asdk-gen2/setup/setup.py:56-60 | the module globals at start: no tool marked installed |
| SetupInstaller.Installer.CheckRequirements | asdk-gen2/setup/setup.py:387-461 | under --force the three downloadable tools are marked not installed; otherwise each tool found on the host is marked installed and the others keep their mark |
| SetupInstaller.Installer.SetEnvVariables | asdk-gen2/setup/setup.py:574-622 | nothing is written when all four tools are installed; on Windows the variables go through SETX; elsewhere ~/.asdk_environment becomes EnvFileAfter and the rc file RcAfter |

## Left out

- Vendor and hardware calls are not modelled. Their outcomes are inputs and what they are handed is a result. This covers the Cy_* drivers, NVIC and interrupt vectors, register reads and writes, the clock driver, the pin multiplexer, and the GPIO, I2C and UART drivers. The bodies of the vendor ISRs are out for the same reason.
- Concurrency is not modelled. Each method is one atomic step, and an interrupt handler is a separate method called between steps. Interrupt masking (asdk_sys_disable_interrupts) is what makes the colour sensor's steps atomic.
- ASDK_DEV_ERROR_ASSERT stops the program in an endless loop. The debug console and the colour sensor report this as `hung`.
- RingBuffer.Write: the event callback is returned as a notification, not invoked. In the source it runs before the new write index and used count are stored, and that ordering is not modelled.
- RingBuffer.Write: requires the byte count of the request to fit in 32 bits, as the uint32_t product does in the source.
- CanService.CanService.Send: requires dlc <= 8. A larger dlc overruns the frame's 8-byte payload in the source, which is not modelled.
- CanService: the three padding bytes of an in-memory frame are modelled as zero. In the source they are indeterminate.
- CanService: the frame layout assumes a little-endian core.
- Scheduler.Scheduler.constructor: the timer set-up of scheduler_init and its asserts are not modelled. The tick counter is an input of the timer callback.
- External EEPROM: the blocking read and write (asdk_external_eeprom_blocking_read/_write) are not modelled. They busy-wait on the millisecond clock and on interrupt-set flags. Their chunk arithmetic is that of FirstChunk and NextChunk.
- ExternalEeprom.ExternalEeprom.PageWrite: the retry loop on an address NACK is modelled as a single attempt, whose outcome is the I2C status parameter.
- ExternalEeprom.ExternalEeprom.PageRead: the busy-wait for the address write's completion is modelled as that completion arriving.
- ExternalEeprom.Admission: the index is checked first. The source checks it last, after reading g_ext_eeprom[eeprom_index], which is out of bounds for an invalid index (undefined behaviour).
- ExternalEeprom: the SPI protocol is only the FEATURE_NOT_IMPLEMENTED answer, as in the source.
- ExternalEeprom: only one EEPROM slot exists (ASDK_EXTERNAL_EEPROM_MAX is 1), so the callback's search always finds index 0.
- ExternalEeprom.AddressBytes: follows the code. With is_big_endian set, the address goes out least significant byte first.
- ExternalEeprom.ExternalEeprom.NonBlockingWrite: runs the corrected range check (Admission, CheckRange), not the check as written (CheckAsWritten), which refuses the last address and lets a wrapping length through (see Findings).
- ExternalEeprom.ExternalEeprom.NonBlockingRead: runs the corrected range check (Admission, CheckRange), not the check as written (CheckAsWritten) (see Findings).
- ImageMagic: command-line handling, fopen/fseek/fread/fwrite and printf are not modelled; the file is a byte sequence.
- ImageMagic: the footer CRC is laid out as on a little-endian host.
- ImageMagic.HasMagic: a file shorter than a footer is taken to have no magic. In the source the footer read then compares uninitialised bytes.
- ImageMagic.Stamp: stamps with the corrected 8-byte footer buffer.
- ImageMagic.Stamp: takes files of at most MAX_FILE_SIZE bytes; a larger file overruns fbuff in the source, which is undefined behaviour.
- Timer: the clock divider choice and the vendor counter init are inputs.
- Timer.TimerDriver.Trigger: start and stop are one method with a run flag.
- Timer: asdk_timer_init programs period - 1 while asdk_timer_set_period programs the period as given. Both are modelled as written.
- Pwm.PwmDriver.InitPwm: uses the corrected prescaler assignment and the corrected duty compare (see Findings).
- Pwm.SetDuty: uses the corrected DutyCompare, whose compare value never exceeds the period; the 32-bit wrapping product of the code as written is DutyCompareAsWritten (see Findings).
- Pwm: the dead-time check is kept as written, with `||`, so one side at most 0xFF is enough.
- Flash: the non-blocking write, read and erase entry points are not modelled; they return FEATURE_NOT_IMPLEMENTED. The flash interrupt handler is not modelled either.
- Flash.EraseAllStatus: erase-all is modelled by its status only. Its extent is defined by the vendor driver.
- Flash.WriteStatus: uses the corrected span check (InCodeSpan, InWorkSpan), not the end-address comparison as written (SpanFitsAsWritten) (see Findings).
- Flash.WriteStatusCases: states the status under the corrected span check, not under SpanFitsAsWritten.
- Flash.FlashController.WriteBlocking: accepts and refuses addresses by the corrected span check, not by SpanFitsAsWritten.
- Flash.FlashController.WriteRows: runs the write loop on requests the corrected span check accepts, not those SpanFitsAsWritten accepts.
- Adc: a pin number of 100 or more indexes past adc_pin_map in the source (undefined behaviour). The model answers DAL_INVALID_PIN_MAP.
- Adc: conversion results, and the interrupt and DMA paths of the SAR hardware, are not modelled.
- System: asdk_sys_sw_reset, the interrupt enable/disable calls and the core clock query are not modelled; they are vendor calls.
- System: the CY_SYSRESET_* masks are a parameter, because the vendor headers are not part of this model.
- CanDal: extended-ID filters are not modelled. Only standard-ID filter elements are written; the extended-ID settings are returned as computed.
- CanDal: the receive-FIFO handler's buffer handling inside the vendor ISR is not modelled.
- CanDal.ControllerConfigFor: uses the corrected ConfigureBitrates, not BitrateConfigAsWritten (see Findings).
- CanDal.CanDriver.Init: hands the vendor driver the bit timing of the corrected ConfigureBitrates, not that of BitrateConfigAsWritten.
- CanDal.Sleep, CanDal.Read: unsupported stubs in the source. They always answer their error and carry no contract.
- CanDal.SetHwFilter: requires the ID list to fit the 128-element static table. A longer list overruns it in the source, which is not modelled.
- CanDal.IsTxBusy: states the channel and status part only. The mailbox bit read is left to the body.
- Spi: the vendor driver, the clock and the pin multiplexer are inputs. The source ignores the pin-mux statuses, and so does the model.
- Spi: slave-select polarity is always 0 in the source and is not modelled.
- Spi: the masks of the vendor transfer-status word are a parameter.
- Spi: asdk_spi_init reads the configuration in its pin-mux initialisers before the NULL check (undefined behaviour). The model answers NULL_PTR.
- Spi: the even-numbered callback handlers take the word width from the shared SCB_SPI_cfg, which holds the width of the last master init, also for a slave initialised with the fixed 8-bit configuration; the odd-numbered ones always take 8 bits from the slave configuration. The width of SCB_SPI_cfg and of SPI N's own transfer are the parameter width here.
- Spi: the FIFO clear in the handlers is not modelled.
- Spi: a NULL callback installed by asdk_spi_install_callback is invoked by the handlers in the source. The model stores it and leaves the invocation out.
- Spi.InitSucceedsIff, Spi.AtMostFourSlaves: assume the clock driver does not report the SPI success code as its failure status.
- DebugUart: debug_uart_get_max_usage is a read of the maxBuffUsage field.
- DebugUart: the UART configuration record is not modelled; the driver's verdicts are inputs.
- Colour.ColourSensor.OnEdge: the timer count at the edge is a parameter; the timer driver is not modelled.
- Colour: the MAP macro of colour.h is not used by the modelled code.
- Colour.ColourSensor: the sensor's methods follow the code as written, so its filter reaches 0 after BLUE_FILTER. The corrected cycle (NextFilter, Advance, FilterCycle, CycleFillsComponents) is stated beside it and is not what Iterate runs.
- Colour.ColourSensor.SetFilter: takes values below MAX_FILTER, which are the only values its two callers pass. set_colour_sensor_filter is not declared in colour.h.
- SetupInstaller: logging, argument parsing, get_config, sys_supported, import_modules and the install orchestration are not modelled.
- SetupInstaller: the network transfer of _execute_download (and its Content-length handling) is an outcome per attempt.
- SetupInstaller.CommonPath: paths are sequences of components, and joining appends them. os.path.join restarting at an absolute component, and commonpath refusing a mix of absolute and relative paths, are not modelled.
- SetupInstaller.ExtensionAsWritten: `$` also matching before a final newline is not modelled.
- SetupInstaller.Extract: chooses the format by the corrected ArchiveKindOf, not by ArchiveKindAsWritten with its unescaped dots (see Findings).
- SetupInstaller.Installer.CheckRequirements: tests OpenOCD by the corrected OpenocdFound, which treats a missing version as not installed, not by OpenocdProbeAsWritten, whose join raises without a version (see Findings).
- SetupInstaller.Installer: only the rc file of the host's own OS is a field.
- SetupInstaller.Setx: the registry effects of SETX are not modelled, only its exit status.

## Findings

| source | as written | input that shows it | evidently intended | confidence | as-written member | corrected member |
|---|---|---|---|---|---|---|
| asdk-gen2/middleware/external_eeprom/asdk_external_eeprom.c:302-303 | `(memory_size_bytes - 1) <= eeprom_addr` refuses the last address | size 256, address 255, length 1: INVALID_ADDRESS | refuse only an address at or past the end | not executed | ExternalEeprom.CheckAsWritten, ExternalEeprom.LastByteRefused | ExternalEeprom.CheckRange, ExternalEeprom.CheckAsWrittenAgrees |
| asdk-gen2/middleware/external_eeprom/asdk_external_eeprom.c:305-306 | `eeprom_addr + length` is a uint32_t sum that wraps | size 256, address 16, length 0xFFFF_FFF8: accepted | refuse every request that ends past the memory | not executed | ExternalEeprom.CheckAsWritten, ExternalEeprom.LengthOverflowAccepted | ExternalEeprom.CheckRange, ExternalEeprom.Admission |
| asdk-gen2/utils/image_magic/magic.c:61-93 | an 8-byte footer is read into the 4-byte foot_buff, and the magic compared lies past its end | any image of at least 8 bytes | a footer-sized buffer | not executed | ImageMagic.FooterReadOverflows | ImageMagic.FooterReadFits, ImageMagic.StampIdempotent |
| asdk-gen2/platform/cyt2b75/dal/src/asdk_pwm.c:736-744 | the `else` whose body is commented out takes the prescaler assignment, so the prescaler is programmed only with interrupts disabled | DIVBY_8 with interrupts enabled, 80 MHz, 1 kHz: the counter runs at DIVBY_1, 8 kHz | program the prescaler the period was computed for | not executed | Pwm.ProgrammedPrescalerAsWritten, Pwm.PrescalerIgnoredWithInterrupts | Pwm.ProgrammedRegs |
| asdk-gen2/platform/cyt2b75/dal/src/asdk_pwm.c:482 | `duty * period` is a uint32_t product that wraps | 100 % on a 32-bit group with a period of 80 000 000: compare 37 050 327 | compare equal to the period | not executed | Pwm.DutyCompareAsWritten, Pwm.DutyCompareOverflows | Pwm.DutyCompare, Pwm.DutyBounds |
| asdk-gen2/platform/cyt2b75/dal/src/asdk_flash.c:328-331 | the end address `address + size` is compared with the region's last address, and is a uint32_t sum | 4 bytes at 0x1401_7FFC refused; 0xF000_0000 bytes at 0x1000_0000 accepted | accept exactly the spans whose every byte lies in the region | not executed | Flash.SpanFitsAsWritten, Flash.LastWorkFlashWordRefused, Flash.WrappingSpanAccepted | Flash.SpanFitsMeansEveryByte, Flash.AcceptedSpanHasSectors |
| asdk-gen2/platform/cyt2b75/dal/src/asdk_can.c:464 | in FD mode the data baud rate goes to the nominal setter | FD, 500 kbit/s nominal and data: arbitration at 125 kbit/s, data at 1 Mbit/s | the data rate goes to the data-phase setter | not executed | CanDal.BitrateConfigAsWritten, CanDal.FdDataBaudOverwritesNominal | CanDal.ConfigureBitrates, CanDal.ConfiguredRatesAreRequested |
| asdk-gen2/platform/cyt2b75/dal/src/asdk_spi.c:864-865 | the SPI 3 handler rewinds the receive pointer of SPI 1's context | SPI 3 done with 4 bytes ending at 0x2000, SPI 1 holding 2 ending at 0x1000: callback gets 0x0FFE | SPI 3's own context: 0x1FFC | not executed | Spi.CompletionAsWritten, Spi.Spi3HandlerReadsSpi1Context | Spi.CompletionOf, Spi.CompletionSpansReceivedWords |
| asdk-gen2/platform/cyt2b75/dal/src/asdk_spi.c:765-770 | the handlers of SPI 1, 3, 5 and 7 test the width of the fixed slave configuration, 8, also when the SPI is a 16-bit master | SPI 1 as a 16-bit master done with 2 words ending at 0x1000: callback gets 0x0FFE | rewind by the SPI's own width: 0x0FFC | not executed | Spi.HandlerWidthAsWritten, Spi.OddHandlerRewindsSixteenBitWordsAsBytes | Spi.CompletionOf, Spi.CompletionSpansReceivedWords |
| sensors/colour/colour.c:141 | `(current_filter + 1) % MAX_FILTER` on an enumeration that starts at 1 | BLUE_FILTER (4) is followed by 0, which is no filter | BLUE_FILTER is followed by NO_FILTER | not executed | Colour.NextFilterAsWritten, Colour.IterationAsWrittenLeavesFilters, Colour.FilterCycleAsWritten | Colour.NextFilter, Colour.FilterCycle, Colour.CycleFillsComponents |
| asdk-gen2/setup/setup.py:32 | the dots of the suffix pattern are not escaped | "cmake_zip" and "cmake.tar-gz" are accepted and opened as tar files | accept only .zip, .tar, .tar.gz and .tar.bz2 | not executed | SetupInstaller.ArchiveKindAsWritten, SetupInstaller.UnescapedDotAcceptsNonArchive, SetupInstaller.UnescapedInnerDotAcceptsNonArchive | SetupInstaller.ArchiveKindOf, SetupInstaller.KindAsWrittenAgreesOnArchives |
| asdk-gen2/setup/setup.py:450 | the OpenOCD version variable is joined without checking it is set | ASDK_OPENOCD_ROOT set, ASDK_OPENOCD_VERSION unset: os.path.join raises | treat a missing version as not installed, as for the toolchain | not executed | SetupInstaller.OpenocdProbeAsWritten, SetupInstaller.OpenocdProbeRaisesWithoutVersion | SetupInstaller.OpenocdFound, SetupInstaller.OpenocdProbeAgrees |
