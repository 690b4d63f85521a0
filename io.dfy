/** The programmed-I/O dispatch contract of emdev.h: the CPU registers a
    device handler touches, the success convention IOSKIP, the BLOCKIO test,
    the fatal outcomes, and the small handlers devnull, devmt and devcp. */
module Io {
  import opened Bits
  import opened Backing

  /** Why a handler would end the emulator with exit(1). */
  datatype Fault =
    | UnimplementedFunction(ioClass: int, func: int, device: Device)
    | UnrecognizedOrder(kind: Word)
    | InterruptOrder(vector: Word)
    | ReadFailed
    | NoDmaChannel
    | DeviceHangs

  /** How an I/O instruction ends: it completed (with or without a skip),
      it was fatal, or a channel program ran out of the fuel given to it. */
  datatype Outcome = Completed | Fatal(fault: Fault) | FuelExhausted

  /** Bit '010000 of the KEYS register: the CPU is in a mode with condition
      codes, where success sets EQ instead of skipping. */
  const CondCodeMode: Word := 0x1000

  /** Bit '0100 of the KEYS register: the EQ condition code. */
  const EqBit: Word := 0x0040

  /** The words of the CPU state that device handlers read or write. */
  datatype CpuRegs = CpuRegs(keys: Word, a: Word, rpl: Word)

  /** IOSKIP: in condition-code mode set EQ and leave the program counter
      alone; otherwise skip the next instruction.  The A register is never
      touched. */
  function Skip(s: CpuRegs): (t: CpuRegs)
    ensures t.a == s.a
    ensures s.keys & CondCodeMode != 0 ==>
      t.rpl == s.rpl && t.keys & EqBit != 0 && t.keys & !EqBit == s.keys & !EqBit
    ensures s.keys & CondCodeMode == 0 ==>
      t.keys == s.keys && t.rpl - s.rpl == 1
  {
    if s.keys & CondCodeMode != 0 then s.(keys := s.keys | EqBit) else s.(rpl := s.rpl + 1)
  }

  /** The CPU registers KEYS, A and the low half of the program counter. */
  class Cpu {
    var keys: Word
    var a: Word
    var rpl: Word

    constructor (keys: Word, a: Word, rpl: Word)
      ensures Regs() == CpuRegs(keys, a, rpl)
    {
      this.keys, this.a, this.rpl := keys, a, rpl;
    }

    function Regs(): CpuRegs
      reads this
    {
      CpuRegs(keys, a, rpl)
    }

    /** Signals success of the current I/O instruction. */
    method IoSkip()
      modifies this
      ensures Regs() == Skip(old(Regs()))
      ensures old(keys) & CondCodeMode != 0 ==> keys == old(keys) | EqBit && rpl == old(rpl)
      ensures old(keys) & CondCodeMode == 0 ==> keys == old(keys) && rpl == old(rpl) + 1
      ensures a == old(a)
    {
      if keys & CondCodeMode != 0 {
        keys := keys | EqBit;
      } else {
        rpl := rpl + 1;
      }
    }
  }

  /** BLOCKIO: the I/O instruction is followed by a loop that retries it,
      either `JMP *-1` ('03776) or `BCNE` ('141603) back to two words before
      the instruction after it.  `next0` and `next1` are the two words at the
      program counter.  The target is compared after integer promotion, so
      it never matches when RPL is below 2. */
  predicate BlockIo(next0: Word, next1: Word, rpl: Word)
  {
    next0 == 0x07FE || (next0 == 0xC383 && next1 as int == rpl as int - 2)
  }

  /** The two retry patterns BLOCKIO recognises, and nothing else. */
  lemma BlockIoPatterns(next0: Word, next1: Word, rpl: Word)
    ensures BlockIo(0x07FE, next1, rpl)
    ensures next1 as int + 2 == rpl as int ==> BlockIo(0xC383, next1, rpl)
    ensures rpl as int < 2 && next0 != 0x07FE ==> !BlockIo(next0, next1, rpl)
    ensures next0 != 0x07FE && next0 != 0xC383 ==> !BlockIo(next0, next1, rpl)
  {
  }

  /** devnull: OCP '00 and INA '00 do nothing, SKS '00 and OTA '00/'01
      always succeed, any other function is fatal. */
  method DevNull(cpu: Cpu, ioClass: int, func: int, device: Device) returns (r: Outcome)
    modifies cpu
    ensures r == (if (0 <= ioClass <= 2 && func != 0) || (ioClass == 3 && func != 0 && func != 1)
                  then Fatal(UnimplementedFunction(ioClass, func, device)) else Completed)
    ensures cpu.Regs() == (if (ioClass == 1 && func == 0) || (ioClass == 3 && (func == 0 || func == 1))
                           then Skip(old(cpu.Regs())) else old(cpu.Regs()))
  {
    r := Completed;
    if ioClass == 0 {
      if func != 0 {
        r := Fatal(UnimplementedFunction(ioClass, func, device));
      }
    } else if ioClass == 1 {
      if func == 0 {
        cpu.IoSkip();
      } else {
        r := Fatal(UnimplementedFunction(ioClass, func, device));
      }
    } else if ioClass == 2 {
      if func != 0 {
        r := Fatal(UnimplementedFunction(ioClass, func, device));
      }
    } else if ioClass == 3 {
      if func == 0 || func == 1 {
        cpu.IoSkip();
      } else {
        r := Fatal(UnimplementedFunction(ioClass, func, device));
      }
    }
  }

  /** devmt, the magnetic tape stub: control and status tests do nothing;
      input and output do nothing either, unless the program is about to
      wait for them (BLOCKIO), which would hang, so that is fatal.  No
      function ever skips. */
  method DevMt(cpu: Cpu, ioClass: int, func: int, device: Device, next0: Word, next1: Word) returns (r: Outcome)
    modifies cpu
    ensures r == (if (ioClass == 2 || ioClass == 3) && BlockIo(next0, next1, old(cpu.rpl))
                  then Fatal(DeviceHangs) else Completed)
    ensures cpu.Regs() == old(cpu.Regs())
  {
    r := Completed;
    if (ioClass == 2 || ioClass == 3) && BlockIo(next0, next1, cpu.rpl) {
      r := Fatal(DeviceHangs);
    }
  }

  /** devcp, the control panel: INA '16 loads the sense switches into A
      without skipping, OTA '17 (write the lights) succeeds, everything else,
      including every OCP and SKS, is fatal. */
  method DevCp(cpu: Cpu, ioClass: int, func: int, device: Device, switches: Word) returns (r: Outcome)
    modifies cpu
    ensures r == (if ioClass == 0 || ioClass == 1 || (ioClass == 2 && func != 14) || (ioClass == 3 && func != 15)
                  then Fatal(UnimplementedFunction(ioClass, func, device)) else Completed)
    ensures cpu.Regs() == (if ioClass == 2 && func == 14 then old(cpu.Regs()).(a := switches)
                           else if ioClass == 3 && func == 15 then Skip(old(cpu.Regs()))
                           else old(cpu.Regs()))
  {
    r := Completed;
    if ioClass == 0 || ioClass == 1 {
      r := Fatal(UnimplementedFunction(ioClass, func, device));
    } else if ioClass == 2 {
      if func == 14 {
        cpu.a := switches;
      } else {
        r := Fatal(UnimplementedFunction(ioClass, func, device));
      }
    } else if ioClass == 3 {
      if func == 15 {
        cpu.IoSkip();
      } else {
        r := Fatal(UnimplementedFunction(ioClass, func, device));
      }
    }
  }
}
