/** The disk controller handler `devdisk` of emdev.h, in the imperative form
    of the source: the channel-program loop updates its local OAR, status,
    DMA channel and opened-file name, writes memory and the DMA register file
    in place, and keeps the open backing file in the controller across
    calls.  Each order is proved to do what `Channel.Step` says, and the
    whole loop to compute `Channel.Run`. */
module Disk {
  import opened Wrappers
  import opened Bits
  import opened Backing
  import opened Io
  import opened Channel

  /** What one order did to the loop: go on, halt, or end the emulator. */
  datatype Progress = Continue | Halt | Abort(fault: Fault)

  /** The step an order's progress reports, with `m'` the machine after it. */
  function Reported(p: Progress, m': Machine): StepResult
  {
    match p
    case Continue => Next(m')
    case Halt => Stop
    case Abort(f) => Fail(f)
  }

  /** The DMA side of a read: the words land in memory from `at` on. */
  method DmaWrite(mem: array<Word>, at: nat, words: seq<Word>)
    requires at + |words| <= mem.Length
    modifies mem
    ensures mem[..] == Overwrite(old(mem[..]), at, words)
  {
    forall i | at <= i < at + |words| {
      mem[i] := words[i - at];
    }
    OverwriteAt(old(mem[..]), at, words);
  }

  /** A controller store into memory (DSTAT, DOAR). */
  method StoreWord(mem: array<Word>, at: nat, w: Word)
    requires at < mem.Length
    modifies mem
    ensures mem[..] == old(mem[..])[at := w]
  {
    mem[at] := w;
  }

  /** The end of a DMA transfer on the register pair at `idx`: advance the
      address register by the count, then clear the count register. */
  method DmaFinish(regdmx: array<Word>, idx: nat)
    requires idx + 1 < regdmx.Length
    modifies regdmx
    ensures regdmx[..] == DmaDone(old(regdmx[..]), idx)
  {
    regdmx[idx + 1] := AdvanceAddress(regdmx[idx + 1], regdmx[idx]);
    regdmx[idx] := 0;
  }

  /** A whole DMA read: the words land in memory from `at` on, then the
      register pair at `idx` is finished. */
  method DmaTransfer(mem: array<Word>, regdmx: array<Word>, at: nat, words: seq<Word>, idx: nat)
    requires at + |words| <= mem.Length && idx + 1 < regdmx.Length && mem != regdmx
    modifies mem, regdmx
    ensures mem[..] == Overwrite(old(mem[..]), at, words)
    ensures regdmx[..] == DmaDone(old(regdmx[..]), idx)
  {
    DmaWrite(mem, at, words);
    DmaFinish(regdmx, idx);
  }

  /** SREAD with a file open, once the record's offset `off` in the open
      file `data` is known: read the DMA channel's word count from there
      into memory at the channel's address, then zero the count register
      and advance the address register. */
  method ReadOrder(mem: array<Word>, regdmx: array<Word>, data: seq<Word>, off: nat, dmachan: Option<Word>)
    returns (p: Progress)
    requires mem.Length >= MemWords && regdmx.Length == DmaRegWords && mem != regdmx
    modifies mem, regdmx
    ensures match DmaRead(old(mem[..]), old(regdmx[..]), data, dmachan, off)
            case ReadError(f) => p == Abort(f)
            case Transferred(mem', regs') => p == Continue && mem[..] == mem' && regdmx[..] == regs'
  {
    if dmachan.None? {
      return Abort(NoDmaChannel);
    }
    var dmareg := Addr(DmaRegIndex(dmachan.value));
    var dmanw := DmaWordCount(regdmx[dmareg]);
    var dmaaddr := regdmx[dmareg + 1];
    var read := RecordWords(data, off, dmanw);
    if read.None? {
      return Abort(ReadFailed);
    }
    var words, at := read.value, Addr(dmaaddr);
    assert DmaRead(mem[..], regdmx[..], data, dmachan, off)
           == Transferred(Overwrite(mem[..], at, words), DmaDone(regdmx[..], dmareg));
    DmaTransfer(mem, regdmx, at, words, dmareg);
    p := Continue;
  }

  class DiskController {
    /** The host's backing files, as 16-bit words. */
    const files: map<FileName, seq<Word>>

    /** The file open on the controller's descriptor, if any; it stays open
        from one channel program to the next. */
    var openFile: Option<FileName>

    /** The host file calls issued so far, in order. */
    var fileOps: seq<FileOp>

    ghost predicate Valid()
      reads this
    {
      openFile.Some? ==> openFile.value in files
    }

    constructor (files: map<FileName, seq<Word>>)
      ensures Valid() && this.files == files
      ensures openFile == None && fileOps == []
    {
      this.files := files;
      openFile := None;
      fileOps := [];
    }

    /** The interpreter state with the given program-local registers. */
    ghost function MachineAt(mem: array<Word>, regdmx: array<Word>, oar: Word, status: Word,
                             dmachan: Option<Word>, devopened: Option<FileName>): Machine
      reads this, mem, regdmx
    {
      Machine(mem[..], regdmx[..], oar, status, dmachan, devopened, openFile, fileOps)
    }

    /** DSEL: open the selected unit's file unless this program already has
        it open; close the previous file first. */
    method SelectUnitFile(ghost m: Machine, device: Device, unit: nat, status: Word, devopened: Option<FileName>)
      returns (status': Word, devopened': Option<FileName>)
      requires Valid() && unit < 10
      requires m.status == status && m.devopened == devopened && m.openFile == openFile && m.ops == fileOps
      modifies this`openFile, this`fileOps
      ensures Valid()
      ensures var m' := SelectUnit(m, Env(device, files), unit);
              status' == m'.status && devopened' == m'.devopened &&
              openFile == m'.openFile && fileOps == m'.ops
    {
      status', devopened' := status, devopened;
      var devfile := DevFileName(device, unit);
      if devopened != Some(devfile) || openFile.None? {
        if openFile.Some? {
          fileOps := fileOps + [Close(openFile.value)];
          openFile := None;
        }
        if devfile in files {
          openFile := Some(devfile);
          fileOps := fileOps + [Open(devfile, true)];
          devopened' := Some(devfile);
        } else {
          fileOps := fileOps + [Open(devfile, false)];
          status' := StatusNotReady;
        }
      }
    }

    /** SFORM, SREAD, SWRITE: with no file open the status becomes not
        ready; otherwise a Read transfers a record and Format and Write do
        nothing. */
    method TransferOrder(device: Device, mem: array<Word>, regdmx: array<Word>, order: Word, w1: Word, w2: Word,
                         oar: Word, status: Word, dmachan: Option<Word>, devopened: Option<FileName>)
      returns (p: Progress, status': Word)
      requires Valid() && mem.Length >= MemWords && regdmx.Length == DmaRegWords && mem != regdmx
      modifies mem, regdmx
      ensures p != Halt
      ensures Transfer(old(MachineAt(mem, regdmx, oar, status, dmachan, devopened)), Env(device, files), order, w1, w2)
              == Reported(p, MachineAt(mem, regdmx, After(oar, 3), status', dmachan, devopened))
    {
      p, status' := Continue, status;
      if openFile.None? {
        status' := StatusNotReady;
      } else if order == 5 {
        p := ReadOrder(mem, regdmx, files[openFile.value], RecordOffset(w1, w2), dmachan);
      }
    }

    /** Fetches the order at `oar` and executes it, or steps over it when it
        is conditional. */
    method ExecuteOrder(device: Device, mem: array<Word>, regdmx: array<Word>,
                        oar: Word, status: Word, dmachan: Option<Word>, devopened: Option<FileName>)
      returns (p: Progress, oar': Word, status': Word, dmachan': Option<Word>, devopened': Option<FileName>)
      requires Valid() && mem.Length >= MemWords && regdmx.Length == DmaRegWords && mem != regdmx
      modifies this`openFile, this`fileOps, mem, regdmx
      ensures Valid()
      ensures Step(old(MachineAt(mem, regdmx, oar, status, dmachan, devopened)), Env(device, files))
              == Reported(p, MachineAt(mem, regdmx, oar', status', dmachan', devopened'))
      ensures p == Halt ==> MachineAt(mem, regdmx, oar', status', dmachan', devopened')
                            == old(MachineAt(mem, regdmx, oar, status, dmachan, devopened))
    {
      StepFetches(MachineAt(mem, regdmx, oar, status, dmachan, devopened), Env(device, files));
      var w0 := mem[Addr(oar)];
      if IsConditional(w0) {
        return Continue, After(oar, OrderLength(OrderKind(w0))), status, dmachan, devopened;
      }
      p, oar', status', dmachan', devopened' :=
        PerformOrder(device, mem, regdmx, OrderKind(w0), mem[Addr(oar) + 1], mem[Addr(oar) + 2],
                     oar, status, dmachan, devopened);
    }

    /** Executes an unconditional order of kind `order` whose second and
        third words are w1 and w2. */
    method PerformOrder(device: Device, mem: array<Word>, regdmx: array<Word>, order: Word, w1: Word, w2: Word,
                        oar: Word, status: Word, dmachan: Option<Word>, devopened: Option<FileName>)
      returns (p: Progress, oar': Word, status': Word, dmachan': Option<Word>, devopened': Option<FileName>)
      requires Valid() && mem.Length >= MemWords && regdmx.Length == DmaRegWords && mem != regdmx
      modifies this`openFile, this`fileOps, mem, regdmx
      ensures Valid()
      ensures Execute(old(MachineAt(mem, regdmx, oar, status, dmachan, devopened)), Env(device, files), order, w1, w2)
              == Reported(p, MachineAt(mem, regdmx, oar', status', dmachan', devopened'))
      ensures p == Halt ==> MachineAt(mem, regdmx, oar', status', dmachan', devopened')
                            == old(MachineAt(mem, regdmx, oar, status, dmachan, devopened))
    {
      p, oar', status', dmachan', devopened' := Continue, oar, status, dmachan, devopened;
      if order == 0 {                                         // DHLT
        p := Halt;
      } else if order == 2 || order == 5 || order == 6 {      // SFORM, SREAD, SWRITE
        p, status' := TransferOrder(device, mem, regdmx, order, w1, w2, oar, status, dmachan, devopened);
        oar' := After(oar, 3);
      } else if order == 3 || order == 7 {                    // SSEEK, DSTALL
        oar' := After(oar, 2);
      } else if order == 4 {                                  // DSEL
        status', devopened' := SelectUnitFile(MachineAt(mem, regdmx, oar, status, dmachan, devopened),
                                              device, UnitOf(w1), status, devopened);
        oar' := After(oar, 2);
      } else if order == 9 {                                  // DSTAT
        StoreWord(mem, Addr(w1), status);
        oar' := After(oar, 2);
      } else if order == 11 {                                 // DOAR
        StoreWord(mem, Addr(w1), oar);
        oar' := After(oar, 2);
      } else if order == 13 {                                 // SDMA
        dmachan' := Some(w1);
        oar' := After(oar, 2);
      } else if order == 14 {                                 // DINT
        p := Abort(InterruptOrder(w1));
      } else if order == 15 {                                 // DTRAN
        oar' := w1;
      } else {
        p := Abort(UnrecognizedOrder(order));
      }
    }

    /** One pass of the channel-program loop with `left` orders of fuel:
        the run from the machine before it is the run after it. */
    method RunOrder(device: Device, mem: array<Word>, regdmx: array<Word>, left: nat,
                    oar: Word, status: Word, dmachan: Option<Word>, devopened: Option<FileName>)
      returns (p: Progress, oar': Word, status': Word, dmachan': Option<Word>, devopened': Option<FileName>)
      requires Valid() && mem.Length >= MemWords && regdmx.Length == DmaRegWords && mem != regdmx && left > 0
      modifies this`openFile, this`fileOps, mem, regdmx
      ensures Valid()
      ensures var before := Run(old(MachineAt(mem, regdmx, oar, status, dmachan, devopened)), Env(device, files), left);
              var m' := MachineAt(mem, regdmx, oar', status', dmachan', devopened');
              match p
              case Continue => before == Run(m', Env(device, files), left - 1)
              case Halt => before == Halted(m')
              case Abort(f) => before == Failed(f)
    {
      ghost var m := MachineAt(mem, regdmx, oar, status, dmachan, devopened);
      p, oar', status', dmachan', devopened' := ExecuteOrder(device, mem, regdmx, oar, status, dmachan, devopened);
      ghost var m' := MachineAt(mem, regdmx, oar', status', dmachan', devopened');
      match p
      case Halt => RunHalts(m, Env(device, files), left);
      case Abort(f) => RunFails(m, Env(device, files), left);
      case Continue => RunContinues(m, m', Env(device, files), left);
    }

    /** OTA '17: run the channel program at `start` for at most `fuel`
        orders. */
    method RunChannelProgram(device: Device, mem: array<Word>, regdmx: array<Word>, start: Word, fuel: nat)
      returns (r: Outcome)
      requires Valid() && mem.Length >= MemWords && regdmx.Length == DmaRegWords && mem != regdmx
      modifies this`openFile, this`fileOps, mem, regdmx
      ensures Valid()
      ensures match Run(Load(old(mem[..]), old(regdmx[..]), start, old(openFile), old(fileOps)), Env(device, files), fuel)
              case Halted(m) => r == Completed && mem[..] == m.mem && regdmx[..] == m.regs &&
                openFile == m.openFile && fileOps == m.ops
              case Failed(f) => r == Fatal(f)
              case OutOfFuel(m) => (r == FuelExhausted && mem[..] == m.mem && regdmx[..] == m.regs &&
                openFile == m.openFile && fileOps == m.ops)
    {
      ghost var env := Env(device, files);
      var oar, status, dmachan, devopened := start, StatusReady, None, None;
      ghost var outcome := Run(MachineAt(mem, regdmx, oar, status, dmachan, devopened), env, fuel);
      var left := fuel;
      var halt := false;
      while !halt && left > 0
        invariant Valid()
        invariant Fits(MachineAt(mem, regdmx, oar, status, dmachan, devopened), env)
        invariant !halt ==> outcome == Run(MachineAt(mem, regdmx, oar, status, dmachan, devopened), env, left)
        invariant halt ==> outcome == Halted(MachineAt(mem, regdmx, oar, status, dmachan, devopened))
        decreases left, !halt
      {
        var p;
        p, oar, status, dmachan, devopened := RunOrder(device, mem, regdmx, left, oar, status, dmachan, devopened);
        match p
        case Halt =>
          halt := true;
        case Abort(f) =>
          return Fatal(f);
        case Continue =>
          left := left - 1;
      }
      r := if halt then Completed else FuelExhausted;
    }

    /** devdisk's INA: '01 loads the device address into A, '11 ORs it in,
        '17 loads the ready status, and each then succeeds; any other
        function is fatal. */
    method DiskInput(cpu: Cpu, func: int, device: Device) returns (r: Outcome)
      modifies cpu
      ensures if func == 1 || func == 9 || func == 15 then
                r == Completed &&
                cpu.Regs() == Skip(old(cpu.Regs()).(a := if func == 1 then device as Word
                                                         else if func == 9 then old(cpu.a) | device as Word
                                                         else StatusReady))
              else r == Fatal(UnimplementedFunction(2, func, device)) && cpu.Regs() == old(cpu.Regs())
    {
      if func == 1 {
        cpu.a := device as Word;
      } else if func == 9 {
        cpu.a := cpu.a | device as Word;
      } else if func == 15 {
        cpu.a := StatusReady;
      } else {
        return Fatal(UnimplementedFunction(2, func, device));
      }
      cpu.IoSkip();
      r := Completed;
    }

    /** devdisk's OTA: '17 runs the channel program whose address is in A
        and succeeds when it halts; any other function is fatal. */
    method DiskOutput(cpu: Cpu, func: int, device: Device, mem: array<Word>, regdmx: array<Word>, fuel: nat)
      returns (r: Outcome)
      requires Valid() && mem.Length >= MemWords && regdmx.Length == DmaRegWords && mem != regdmx
      modifies this`openFile, this`fileOps, cpu, mem, regdmx
      ensures Valid()
      ensures func != 15 ==>
        r == Fatal(UnimplementedFunction(3, func, device)) && cpu.Regs() == old(cpu.Regs()) &&
        mem[..] == old(mem[..]) && regdmx[..] == old(regdmx[..]) && openFile == old(openFile) &&
        fileOps == old(fileOps)
      ensures func == 15 ==>
        match Run(Load(old(mem[..]), old(regdmx[..]), old(cpu.a), old(openFile), old(fileOps)), Env(device, files), fuel)
        case Halted(m) => r == Completed && cpu.Regs() == Skip(old(cpu.Regs())) &&
          mem[..] == m.mem && regdmx[..] == m.regs && openFile == m.openFile && fileOps == m.ops
        case Failed(f) => r == Fatal(f)
        case OutOfFuel(m) => r == FuelExhausted && cpu.Regs() == old(cpu.Regs())
    {
      if func == 15 {
        r := RunChannelProgram(device, mem, regdmx, cpu.a, fuel);
        if r == Completed {
          cpu.IoSkip();
        }
      } else {
        r := Fatal(UnimplementedFunction(3, func, device));
      }
    }

    /** devdisk: OCP and SKS do nothing and do not skip; INA and OTA as
        DiskInput and DiskOutput; any other class does nothing. */
    method Devdisk(cpu: Cpu, ioClass: int, func: int, device: Device,
                   mem: array<Word>, regdmx: array<Word>, fuel: nat) returns (r: Outcome)
      requires Valid() && mem.Length >= MemWords && regdmx.Length == DmaRegWords && mem != regdmx
      modifies this`openFile, this`fileOps, cpu, mem, regdmx
      ensures Valid()
      ensures ioClass != 3 ==> mem[..] == old(mem[..]) && regdmx[..] == old(regdmx[..]) &&
                               openFile == old(openFile) && fileOps == old(fileOps)
      ensures ioClass != 2 && ioClass != 3 ==> r == Completed && cpu.Regs() == old(cpu.Regs())
      ensures ioClass == 2 ==>
        if func == 1 || func == 9 || func == 15 then
          r == Completed &&
          cpu.Regs() == Skip(old(cpu.Regs()).(a := if func == 1 then device as Word
                                                   else if func == 9 then old(cpu.a) | device as Word
                                                   else StatusReady))
        else r == Fatal(UnimplementedFunction(ioClass, func, device)) && cpu.Regs() == old(cpu.Regs())
      ensures ioClass == 3 && func != 15 ==>
        r == Fatal(UnimplementedFunction(ioClass, func, device)) && cpu.Regs() == old(cpu.Regs()) &&
        mem[..] == old(mem[..]) && regdmx[..] == old(regdmx[..]) && openFile == old(openFile) &&
        fileOps == old(fileOps)
      ensures ioClass == 3 && func == 15 ==>
        match Run(Load(old(mem[..]), old(regdmx[..]), old(cpu.a), old(openFile), old(fileOps)), Env(device, files), fuel)
        case Halted(m) => r == Completed && cpu.Regs() == Skip(old(cpu.Regs())) &&
          mem[..] == m.mem && regdmx[..] == m.regs && openFile == m.openFile && fileOps == m.ops
        case Failed(f) => r == Fatal(f)
        case OutOfFuel(m) => r == FuelExhausted && cpu.Regs() == old(cpu.Regs())
    {
      r := Completed;
      if ioClass == 2 {
        r := DiskInput(cpu, func, device);
      } else if ioClass == 3 {
        r := DiskOutput(cpu, func, device, mem, regdmx, fuel);
      }
    }
  }
}
