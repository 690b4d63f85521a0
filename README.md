# Prime disk controller and small device handlers of emdev.h

This project models the device side of the Prime emulator's programmed I/O in
`emdev.h`. An I/O instruction names a class (OCP, SKS, INA, OTA), a function
code and a device address. The handler for that device either completes it or
ends the emulator. On success it signals the CPU with IOSKIP, which sets the
EQ condition code in condition-code modes and skips the next instruction
otherwise.

The model covers:

- **IOSKIP and BLOCKIO** (module `Io`): the success convention, and the test
  for "the program is about to busy-wait on this instruction".
- **devnull, devmt and devcp** (module `Io`): the null device, the magnetic
  tape stub and the control panel. Each is a method that updates a `Cpu`
  object's KEYS, A and RPL in place.
- **devdisk** (module `Disk`): the disk controller. INA returns the device
  address or the ready status. OTA '17 runs a channel program, which is a list
  of orders in main memory fetched through the Order Address Register (OAR).
  The orders are:
  - Halt (DHLT), Format, Read and Write (SFORM, SREAD, SWRITE);
  - Seek (SSEEK), Select unit (DSEL), Stall (DSTALL);
  - Store status (DSTAT), Store OAR (DOAR), Select DMA channel (SDMA);
  - Interrupt (DINT) and Jump (DTRAN).

  Any order can be made conditional ("execute if ..."), in which case it is
  stepped over. A Read translates track, head and record into a byte offset in
  the unit's backing file `dev<device>u<unit>`. It then moves the DMA
  channel's word count from there into memory at the channel's address. After
  the transfer it zeroes the count register and advances the address
  register.

The loop is written as the source writes it. The `DiskController` class keeps
the open backing file across calls. Memory and the DMA register file are
arrays written in place. OAR, the status, the DMA channel and the name of the
file this program opened are loop variables.

The module `Channel` gives the same interpreter as a function on values:
`Step` executes one order and `Run` executes orders until a halt. The methods
are proved against it. `RunChannelProgram` ensures that its final memory,
registers and open file are exactly those of `Run`. `ChannelProps` proves what
each order does and what holds over whole runs:

- the status only degrades to not ready;
- once the program has opened a file, any open file is the last one it
  opened; before its first DSEL, a file left open by an earlier program is
  used;
- a run halts at a Halt order;
- extra fuel does not change a finished run.

`Bits` proves the arithmetic the interpreter relies on:

- the DMA register index and count encoding;
- the address register's 16-bit wrap-around;
- the track/head/record layout, and that its byte offset fits the source's
  32-bit `int`.

`ChannelExample` works one four-order program through to its final state.

Files are: `wrappers.dfy` (Option), `backing.dfy` (backing file names),
`bits.dfy`, `io.dfy`, `channel.dfy`, `disk.dfy` and `channel_props.dfy`.

## Model

| member | source | states |
|---|---|---|
| Io.Skip | emdev.h:63-67 | in condition-code mode (KEYS bit '010000) EQ is set, other KEYS bits and RPL are kept; otherwise KEYS is kept and RPL advances by one; A never changes |
| Io.Cpu.IoSkip | emdev.h:63-67 | the CPU registers after the call are exactly `Skip` of those before it |
| Io.BlockIo | emdev.h:72-73 | definition only, no contract: the word at the program counter is `JMP *-1`, or `BCNE` with a target of RPL-2 compared as integers; BlockIoPatterns states its cases |
| Io.BlockIoPatterns | emdev.h:72-73 | `JMP *-1` ('03776) always blocks; `BCNE` ('141603) blocks when its target is RPL-2; no other first word does; with RPL below 2 only `JMP *-1` does |
| Io.DevNull | emdev.h:76-120 | OCP '00 and INA '00 do nothing; SKS '00 and OTA '00/'01 skip; every other function of those classes is fatal with its class, function and device |
| Io.DevMt | emdev.h:287-315 | no class changes the CPU registers; INA and OTA are fatal (the device hangs) exactly when BLOCKIO holds |
| Io.DevCp | emdev.h:325-361 | INA '16 loads the sense switches into A without skipping; OTA '17 skips; OCP, SKS and every other INA/OTA function are fatal |
| Backing.Octal | emdev.h:504 | `%o` of a device address: one digit below 8, else two, all octal digits, no leading zero unless the address is 0, and the digits' octal value is the address |
| Backing.DevFileName | emdev.h:504 | the file name is `dev`, then `Octal` of the device, then `u`, then the unit's decimal digit; it has six characters for a one-digit device and seven otherwise |
| Backing.ParseDevFileNameRoundTrip | emdev.h:504 | parsing the name a device and unit give back yields that device and unit |
| Backing.DevFileNameInjective | emdev.h:504-506 | distinct device/unit pairs give distinct file names, so the name comparison of DSEL identifies the unit |
| Bits.IsConditional | emdev.h:437 | definition only, no contract: the "execute if" bit '04000 of the first word; ChannelProps.ConditionalOrderSkipped states what it does to a step |
| Bits.OrderLength | emdev.h:438-441 | definition only, no contract: 3 words for kinds 2, 5 and 6, 2 for the rest; ChannelProps.ConditionalOrderSkipped states the resulting OAR |
| Bits.After | emdev.h:439-441 | definition only, no contract: OAR advanced by an order's length with 16-bit wrap-around |
| Bits.Track | emdev.h:453 | the track field is below 1024 (ten bits) |
| Bits.RecordNo | emdev.h:454 | the record field is below 256 (the high byte) |
| Bits.Head | emdev.h:455 | the head field is below 64 (six bits) |
| Bits.RecordAddress | emdev.h:479 | definition only, no contract: track * 360 + head * 9 + record; RecordAddressOrdered, RecordAddressSplit and RecordAddressAliases state its properties |
| Bits.Signed | emdev.h:464-465 | a word read as two's complement lies in -2^15..2^15-1 and is non-negative exactly when the top bit is clear |
| Bits.ArithShift4 | emdev.h:465 | definition only, no contract: the signed right shift by four that copies the sign bit |
| Bits.DmaCountWord | emdev.h:465 | definition only, no contract: `-(dmanw>>4)` as a 16-bit word; CountWordSigned states its signed value is DmaWordCount |
| Bits.AdvanceAddress | emdev.h:490 | definition only, no contract: the address register plus DmaCountWord with 16-bit wrap-around; CountWordSigned and DmaReadRegisters state its effect |
| Bits.OrderKind | emdev.h:435 | the order kind is below 16, and 0 (Halt) exactly when the first word is below '010000 |
| Bits.DmaRegIndex | emdev.h:463 | the register pair lies within the 64-word DMA register file; bit 0 of the channel picks the word within a group of four and bits 1-4 the group |
| Bits.DmaRegIndexSame | emdev.h:463 | two channel numbers share a register pair if and only if their low five bits agree |
| Bits.DmaWordCount | emdev.h:464-465 | the count lies in -2047..2048; it is positive exactly when the register is negative and zero exactly when the register is below '20 |
| Bits.CountRegister | emdev.h:464-465 | encoding n words (0..2048) as minus n shifted left four bits decodes back to n, with the low four bits clear |
| Bits.DmaWordCountIgnoresLowBits | emdev.h:465 | the low four bits of the count register do not affect the count |
| Bits.CountWordSigned | emdev.h:465 | the 16-bit word added to the address register is the transfer count in two's complement, so the address moves by the count modulo 2^16 |
| Bits.ByteOffset | emdev.h:477-481 | the byte offset is a multiple of the 2080-byte record and, for every field value an order can hold, below 2^31, so `phyra*2080` does not overflow |
| Bits.RecordAddressOrdered | emdev.h:477-479 | within 40 heads and 9 records, record addresses increase with track, then head, then record |
| Bits.RecordAddressSplit | emdev.h:477-479 | within 40 heads and 9 records the record address determines track, head and record (division by 360 and 9 recovers them) |
| Bits.RecordAddressAliases | emdev.h:453-455 | the head and record fields are not range-checked: record 9 of a head is record 0 of the next head, head 40 of a track is head 0 of the next track |
| Bits.UnitOf | emdev.h:502-503 | the selected unit is below 8 and never 4 |
| Bits.OneHotUnit | emdev.h:502-503 | the one-hot unit codes 0001, 0010, 0100, 1000 select units 0, 1, 2, 3 |
| Channel.Load | emdev.h:429-433 | a program starts with status ready, no DMA channel and no file opened by it |
| Channel.SelectUnit | emdev.h:501-517 | DSEL never changes memory, registers, OAR or the DMA channel, and any file left open exists |
| Channel.Overwrite | emdev.h:485 | the memory keeps its length; OverwriteAt states which words change |
| Channel.DmaDone | emdev.h:489-490 | the register file keeps its length; ChannelProps.DmaReadRegisters states the per-register effect |
| Channel.RecordOffset | emdev.h:477-481 | definition only, no contract: the record's word offset, 1040 words per record; RecordOffsetInBytes ties it to the byte offset |
| Channel.DmaRead | emdev.h:463-490 | a successful transfer keeps the lengths of memory and the register file; ChannelProps.DmaReadMemory, DmaReadRegisters and DmaReadFails state its effect and its failure cases |
| Channel.ReadRecord | emdev.h:473-494 | a Read that continues keeps the machine within its bounds with any open file present; ChannelProps.ReadOrderEffect and ReadFailsWhenShort state its effect |
| Channel.Transfer | emdev.h:449-495 | a Format/Read/Write that continues keeps the machine within its bounds; ChannelProps.TransferNotReady, FormatWriteNoEffect and ReadOrderEffect state its effect |
| Channel.Execute | emdev.h:444-553 | an order that continues keeps the machine within its bounds; ChannelProps.HaltOrder, JumpOrder, SeekStallOrders, FatalOrders, StoreStatusOrder, StoreOarOrder, SelectDmaOrder, SelectSameUnit and SelectNewUnit state the effect of each kind |
| Channel.Step | emdev.h:435-443 | a step that continues keeps the machine within its bounds; ChannelProps.ConditionalOrderSkipped and OnlyTheseOrdersFail state the conditional skip and which orders fail |
| Channel.Run | emdev.h:434-554 | definition only, no contract: repeats Step until a halt, a fault or the end of the fuel; ChannelProps.RunStatus, RunCoherent, HaltedAtHaltOrder and RunFuelMonotone state its properties |
| Channel.RunFrom | emdev.h:434-448 | definition only, no contract: one order of a run with fuel left, halting with the machine that fetched a Halt order |
| Channel.RecordWords | emdev.h:485-488 | the read succeeds exactly when the count is not negative and, unless zero, the file holds that many words from the offset; the words read are that many |
| Channel.RecordWordsAt | emdev.h:485 | the i-th word read is the file's word at offset + i |
| Channel.OverwriteAt | emdev.h:485 | a DMA write changes exactly the words from its address on and keeps every other word |
| Channel.RecordOffsetInBytes | emdev.h:477-481 | the word offset used is the byte offset the source seeks to, halved |
| Disk.StoreWord | emdev.h:525-531 | memory after a DSTAT or DOAR store is the old memory with one word replaced |
| Disk.DmaWrite | emdev.h:485 | memory after the transfer is the old memory overwritten by the words from the address on |
| Disk.DmaFinish | emdev.h:489-490 | the address register advances by the count and the count register becomes zero; nothing else changes |
| Disk.DmaTransfer | emdev.h:485-490 | memory and the DMA registers after a read are as `DmaRead` describes |
| Disk.ReadOrder | emdev.h:463-490 | with no DMA channel or too few words in the file the read is fatal; otherwise memory and the DMA registers become those `DmaRead` gives |
| Disk.DiskController.constructor | emdev.h:399 | no backing file is open at first and no file call has been made |
| Disk.DiskController.SelectUnitFile | emdev.h:501-517 | the status, this program's opened-file name, the open file and the file calls afterwards are those `SelectUnit` gives |
| Disk.DiskController.TransferOrder | emdev.h:449-495 | Format/Read/Write have the effect `Transfer` gives: not ready without a file, a record read for Read, nothing for Format and Write; never a halt |
| Disk.DiskController.ExecuteOrder | emdev.h:435-443 | the order's effect on memory, registers, OAR, status, DMA channel and files is `Step`'s; a halt changes nothing |
| Disk.DiskController.PerformOrder | emdev.h:444-553 | each unconditional order kind has the effect `Execute` gives it; a halt changes nothing |
| Disk.DiskController.RunOrder | emdev.h:434-554 | one loop pass: the run before it is the run after it with one less unit of fuel, or it is the halt or the fault the pass reported |
| Disk.DiskController.RunChannelProgram | emdev.h:429-555 | the loop ends halted, fatal or out of fuel exactly as `Run` from the loaded machine does, with the same memory, DMA registers, open file and file calls |
| Disk.DiskController.DiskInput | emdev.h:412-425 | INA '01 loads the device address, '11 ORs it into A, '17 loads the ready status, each then skips; any other function is fatal and changes nothing |
| Disk.DiskController.DiskOutput | emdev.h:427-559 | OTA '17 runs the program at A: when it halts, memory, DMA registers, open file and file calls are the run's and the CPU skips; when it fails, the outcome is the order's fault; any other function is fatal and leaves the CPU registers, memory, DMA registers, open file and file calls unchanged |
| Disk.DiskController.Devdisk | emdev.h:385-562 | OCP and SKS do nothing; INA and OTA as above; memory, registers and files change only under OTA |
| ChannelProps.ConditionalOrderSkipped | emdev.h:437-443 | an order with the "execute if" bit changes nothing but OAR, which moves 3 words for Format/Read/Write and 2 for every other kind |
| ChannelProps.HaltOrder | emdev.h:445-448 | an unconditional order of kind 0 stops the program, and the run halts with the machine unchanged |
| ChannelProps.JumpOrder | emdev.h:546-549 | DTRAN sets OAR to its second word and changes nothing else |
| ChannelProps.SeekStallOrders | emdev.h:496-521 | SSEEK and DSTALL only move OAR by two words |
| ChannelProps.FatalOrders | emdev.h:540-553 | kinds 1, 8, 10 and 12 are unrecognised orders and DINT is fatal with its vector |
| ChannelProps.OnlyTheseOrdersFail | emdev.h:444-553 | an order is fatal if and only if it is unconditional and is DINT, an unrecognised kind, or a Read with a file open whose read fails |
| ChannelProps.StoreStatusOrder | emdev.h:522-527 | DSTAT writes the status at the address in its second word, changes no other word, and only moves OAR by two |
| ChannelProps.StoreOarOrder | emdev.h:528-533 | DOAR writes its own address at the address in its second word, changes no other word, and only moves OAR by two |
| ChannelProps.SelectDmaOrder | emdev.h:534-539 | SDMA records its second word as the DMA channel and only moves OAR by two |
| ChannelProps.TransferNotReady | emdev.h:468-470 | Format/Read/Write with no file open set the status to not ready and only move OAR by three |
| ChannelProps.FormatWriteNoEffect | emdev.h:471-494 | Format and Write with a file open change nothing but OAR, which moves by three |
| ChannelProps.ReadWithoutChannel | emdev.h:463-466 | a Read with a file open before any SDMA is fatal |
| ChannelProps.ReadFailsWhenShort | emdev.h:485-488 | with a channel selected, a Read is fatal if and only if the file does not hold the words it asks for, and the fault is a failed read |
| ChannelProps.DmaReadFails | emdev.h:485-488 | the DMA read fails if and only if the count is negative or runs past the end of the file |
| ChannelProps.DmaReadMemory | emdev.h:485 | after a read, memory at the channel's address holds the file's words from the record's offset, and every other word is unchanged |
| ChannelProps.DmaReadRegisters | emdev.h:489-490 | after a read the count register is zero, the address register has advanced by the count, and no other register changed |
| ChannelProps.ReadOrderEffect | emdev.h:473-494 | a Read that can be satisfied does the DMA transfer and moves OAR by three, changing no other controller state |
| ChannelProps.SelectSameUnit | emdev.h:506 | DSEL of the unit this program opened, still open, closes and reopens nothing and only moves OAR |
| ChannelProps.SelectNewUnit | emdev.h:506-515 | any other DSEL closes the open file, then opens the unit's file; on success that file is open and recorded, on failure no file is open and the status is not ready |
| ChannelProps.SelectOpensUnitFile | emdev.h:501-517 | in a coherent state every DSEL leaves the selected unit's file open, or no file open and the status not ready |
| ChannelProps.StepStatus | emdev.h:470 | the only status an order sets is not ready |
| ChannelProps.RunStatus | emdev.h:432-512 | over a whole run the status is always ready or not ready, and once not ready it stays so |
| ChannelProps.StepCoherent | emdev.h:506-514 | every order keeps "the file this program opened, if open, is the open file" |
| ChannelProps.RunCoherent | emdev.h:434-554 | that coherence holds at the end of every run that starts coherent |
| ChannelProps.HaltedAtHaltOrder | emdev.h:434-448 | a run that halts stops with OAR at an unconditional Halt order |
| ChannelProps.RunFuelMonotone | emdev.h:434-554 | a run that halts or fails within its fuel ends the same way with any larger fuel |
| ChannelExample.SdmaStep | emdev.h:534-539 | in the sample program SDMA 0 selects channel 0 and moves to the DSEL |
| ChannelExample.DselStep | emdev.h:501-517 | in the sample program DSEL 0001 opens unit 0's file `dev26u0` |
| ChannelExample.ReadTransfer | emdev.h:463-490 | reading two words of record 0 puts them at '1000 and '1001, keeps other memory, zeroes the count and leaves the address at '1002 |
| ChannelExample.ReadReady | emdev.h:463-488 | before the sample Read, unit 0's file is open, channel 0 is selected, the order names record 0 and the file holds the two words asked for |
| ChannelExample.ReadStep | emdev.h:473-494 | in the sample program the Read does that transfer and moves to the DHLT |
| ChannelExample.ExampleRun | emdev.h:429-555 | the sample program halts at its DHLT with the file's first two words at '1000, the rest of memory unchanged, the registers finished, status ready and exactly one file opened |

## Left out

- devasr, the other device handlers and the CPU's I/O dispatch are not part of this model.
- Trace output to stderr is not modelled, including the order text and the `recsize` field, which is decoded only to be printed. The `nch-1` count of SDMA (`dmanch`) is only printed, so it is not modelled either.
- Host files are a map from names to sequences of 16-bit words. Byte order, partial reads and descriptors are not modelled. A failed `open` is recorded as `Open(name, false)`. `close` always succeeds.
- The `lseek` failure at line 481 is not modelled: the offset is never negative (`Bits.ByteOffset`), so the seek cannot fail on a regular file.
- A read with a negative word count is modelled as a failed read. The source passes a negative byte count to `read`, which then returns something other than the count.
- A Read before any SDMA uses `dmachan` uninitialised in the source. It is modelled as the fault `NoDmaChannel`.
- `devopened` is an uninitialised local array in the source, so it is modelled as "no file opened yet" at the start of each program. As a result, the first DSEL of a program always reopens.
- Main memory is assumed to hold at least '204000 words. An order fetch at any 16-bit OAR and a DMA transfer of up to 2048 words at any 16-bit address then stay inside it. The source indexes `mem` without bounds checks.
- The channel-program loop runs for at most `fuel` orders. A program that never halts ends with `FuelExhausted` rather than hanging the emulator, and `RunFuelMonotone` shows that fuel does not change a run that halts or fails.
- `exit(1)` is modelled as the outcome `Fatal(fault)`. The handler stops there; the state it leaves behind is not specified.
- The Format and Write orders are not implemented in the source, and they only move OAR here too.
- `static int devfd`, which persists across calls, is the `openFile` field of `DiskController`.
