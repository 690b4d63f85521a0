/** What each channel-program order does, and what holds of whole runs:
    the status only ever degrades to not ready; once the program has opened
    a file, any open file is the last one it opened (before its first DSEL
    a file left open by an earlier program is used); a run stops at a Halt
    order; and more fuel does not change a run that already finished. */
module ChannelProps {
  import opened Wrappers
  import opened Bits
  import opened Backing
  import opened Io
  import opened Channel

  /** The first, second and third words of the order at OAR. */
  function Word0(m: Machine): Word
    requires |m.mem| >= MemWords
  {
    m.mem[Addr(m.oar)]
  }

  function Word1(m: Machine): Word
    requires |m.mem| >= MemWords
  {
    m.mem[Addr(m.oar) + 1]
  }

  function Word2(m: Machine): Word
    requires |m.mem| >= MemWords
  {
    m.mem[Addr(m.oar) + 2]
  }

  /** The order at OAR is unconditional and of the given kind. */
  predicate IsOrder(m: Machine, kind: Word)
    requires |m.mem| >= MemWords
  {
    !IsConditional(Word0(m)) && OrderKind(Word0(m)) == kind
  }

  /** `m'` differs from `m` at most in OAR. */
  predicate OnlyOarMoved(m: Machine, m': Machine)
  {
    && m'.mem == m.mem && m'.regs == m.regs && m'.status == m.status
    && m'.dmachan == m.dmachan && m'.devopened == m.devopened
    && m'.openFile == m.openFile && m'.ops == m.ops
  }

  /** An order with the "execute if" bit set is stepped over without
      effect: three words for Format, Read and Write, two for every other
      kind, Halt and Jump included. */
  lemma ConditionalOrderSkipped(m: Machine, env: Env)
    requires Fits(m, env) && IsConditional(Word0(m))
    ensures var k := OrderKind(Word0(m));
            && Step(m, env).Next?
            && OnlyOarMoved(m, Step(m, env).m)
            && Step(m, env).m.oar == After(m.oar, if k == 2 || k == 5 || k == 6 then 3 else 2)
  {
  }

  /** DHLT stops the program with nothing changed, OAR still at the halt. */
  lemma HaltOrder(m: Machine, env: Env, fuel: nat)
    requires Fits(m, env) && Word0(m) < 0x0800
    ensures Step(m, env) == Stop
    ensures fuel > 0 ==> Run(m, env, fuel) == Halted(m)
  {
    assert IsOrder(m, 0);
  }

  /** DTRAN sets OAR to the order's second word and changes nothing else. */
  lemma JumpOrder(m: Machine, env: Env)
    requires Fits(m, env) && IsOrder(m, 15)
    ensures Step(m, env).Next? && OnlyOarMoved(m, Step(m, env).m) && Step(m, env).m.oar == Word1(m)
  {
  }

  /** SSEEK and DSTALL only move OAR past their two words. */
  lemma SeekStallOrders(m: Machine, env: Env)
    requires Fits(m, env) && (IsOrder(m, 3) || IsOrder(m, 7))
    ensures Step(m, env).Next? && OnlyOarMoved(m, Step(m, env).m) && Step(m, env).m.oar == After(m.oar, 2)
  {
  }

  /** Order kinds 1, 8, 10 and 12 are unrecognised and DINT is fatal. */
  lemma FatalOrders(m: Machine, env: Env)
    requires Fits(m, env) && !IsConditional(Word0(m))
    ensures var k := OrderKind(Word0(m));
            (k == 1 || k == 8 || k == 10 || k == 12) ==> Step(m, env) == Fail(UnrecognizedOrder(k))
    ensures IsOrder(m, 14) ==> Step(m, env) == Fail(InterruptOrder(Word1(m)))
  {
  }

  /** The orders that can end a program with a fault are exactly DINT,
      an unrecognised kind, and a Read with an open file. */
  lemma OnlyTheseOrdersFail(m: Machine, env: Env)
    requires Fits(m, env)
    ensures Step(m, env).Fail? <==>
      !IsConditional(Word0(m)) &&
      var k := OrderKind(Word0(m));
      (k == 1 || k == 8 || k == 10 || k == 12 || k == 14 ||
       (k == 5 && m.openFile.Some? && ReadRecord(m, env, Word1(m), Word2(m)).Fail?))
  {
    if !IsConditional(Word0(m)) && OrderKind(Word0(m)) == 5 && m.openFile.Some? {
      StepIsRead(m, env);
    }
  }

  /** DSTAT writes the status into the word addressed by the order's second
      word, and changes nothing else. */
  lemma StoreStatusOrder(m: Machine, env: Env)
    requires Fits(m, env) && IsOrder(m, 9)
    ensures var s := Step(m, env);
            && s.Next?
            && |s.m.mem| == |m.mem|
            && (forall i | 0 <= i < |m.mem| :: s.m.mem[i] == if i == Addr(Word1(m)) then m.status else m.mem[i])
            && OnlyOarMoved(m, s.m.(mem := m.mem))
            && s.m.oar == After(m.oar, 2)
  {
  }

  /** DOAR writes the address of the DOAR order itself into the word
      addressed by its second word, and changes nothing else. */
  lemma StoreOarOrder(m: Machine, env: Env)
    requires Fits(m, env) && IsOrder(m, 11)
    ensures var s := Step(m, env);
            && s.Next?
            && |s.m.mem| == |m.mem|
            && (forall i | 0 <= i < |m.mem| :: s.m.mem[i] == if i == Addr(Word1(m)) then m.oar else m.mem[i])
            && OnlyOarMoved(m, s.m.(mem := m.mem))
            && s.m.oar == After(m.oar, 2)
  {
  }

  /** SDMA records the order's second word as the DMA channel. */
  lemma SelectDmaOrder(m: Machine, env: Env)
    requires Fits(m, env) && IsOrder(m, 13)
    ensures var s := Step(m, env);
            s.Next? && s.m.dmachan == Some(Word1(m)) && OnlyOarMoved(m, s.m.(dmachan := m.dmachan))
            && s.m.oar == After(m.oar, 2)
  {
  }

  /** Format, Read and Write with no file open make the status not ready
      and change nothing else. */
  lemma TransferNotReady(m: Machine, env: Env)
    requires Fits(m, env) && (IsOrder(m, 2) || IsOrder(m, 5) || IsOrder(m, 6)) && m.openFile.None?
    ensures var s := Step(m, env);
            s.Next? && s.m.status == StatusNotReady && OnlyOarMoved(m, s.m.(status := m.status))
            && s.m.oar == After(m.oar, 3)
  {
  }

  /** Format and Write with a file open change nothing but OAR. */
  lemma FormatWriteNoEffect(m: Machine, env: Env)
    requires Fits(m, env) && (IsOrder(m, 2) || IsOrder(m, 6)) && m.openFile.Some?
    ensures Step(m, env).Next? && OnlyOarMoved(m, Step(m, env).m) && Step(m, env).m.oar == After(m.oar, 3)
  {
  }

  /** With a file open, a Read order's step is the record read. */
  lemma StepIsRead(m: Machine, env: Env)
    requires Fits(m, env) && IsOrder(m, 5) && m.openFile.Some?
    ensures Step(m, env) == ReadRecord(m, env, Word1(m), Word2(m))
  {
  }

  /** A Read with a file open and no DMA channel selected is a fault. */
  lemma ReadWithoutChannel(m: Machine, env: Env)
    requires Fits(m, env) && IsOrder(m, 5) && m.openFile.Some? && m.dmachan.None?
    ensures Step(m, env) == Fail(NoDmaChannel)
  {
  }

  /** Whether the words a Read asks for are in the file: a count that is
      not negative and, unless zero, ends within the file. */
  predicate ReadFits(data: seq<Word>, off: nat, n: int)
  {
    0 <= n && (n == 0 || off + n <= |data|)
  }

  /** A Read with a channel selected fails exactly when the file does not
      hold the words it asks for. */
  lemma ReadFailsWhenShort(m: Machine, env: Env)
    requires Fits(m, env) && IsOrder(m, 5) && m.openFile.Some? && m.dmachan.Some?
    ensures var idx := Addr(DmaRegIndex(m.dmachan.value));
            Step(m, env).Fail? <==>
              !ReadFits(env.files[m.openFile.value], RecordOffset(Word1(m), Word2(m)), DmaWordCount(m.regs[idx]))
    ensures Step(m, env).Fail? ==> Step(m, env) == Fail(ReadFailed)
  {
    StepIsRead(m, env);
    DmaReadFails(m.mem, m.regs, env.files[m.openFile.value], m.dmachan.value, RecordOffset(Word1(m), Word2(m)));
  }

  /** A Read whose words are in the file transfers them and finishes the
      channel's register pair. */
  lemma DmaReadTransfers(mem: seq<Word>, regs: seq<Word>, data: seq<Word>, chan: Word, off: nat)
    requires |mem| >= MemWords && |regs| == DmaRegWords
    requires ReadFits(data, off, DmaWordCount(regs[Addr(DmaRegIndex(chan))]))
    ensures var idx := Addr(DmaRegIndex(chan));
            var words := RecordWords(data, off, DmaWordCount(regs[idx]));
            && words.Some?
            && DmaRead(mem, regs, data, Some(chan), off)
               == Transferred(Overwrite(mem, Addr(regs[idx + 1]), words.value), DmaDone(regs, idx))
  {
  }

  /** The memory side of a successful Read: the n words of the file from
      the record's offset land at the channel's address, and no other word
      of memory changes. */
  lemma DmaReadMemory(mem: seq<Word>, regs: seq<Word>, data: seq<Word>, chan: Word, off: nat)
    requires |mem| >= MemWords && |regs| == DmaRegWords
    requires ReadFits(data, off, DmaWordCount(regs[Addr(DmaRegIndex(chan))]))
    ensures var idx := Addr(DmaRegIndex(chan));
            var n, addr := DmaWordCount(regs[idx]), Addr(regs[idx + 1]);
            var r := DmaRead(mem, regs, data, Some(chan), off);
            && r.Transferred?
            && |r.mem| == |mem|
            && (forall i | 0 <= i < |mem| :: r.mem[i] == if addr <= i < addr + n then data[off + i - addr] else mem[i])
  {
    var idx := Addr(DmaRegIndex(chan));
    var n, addr := DmaWordCount(regs[idx]), Addr(regs[idx + 1]);
    DmaReadTransfers(mem, regs, data, chan, off);
    OverwriteAt(mem, addr, RecordWords(data, off, n).value);
    RecordWordsAt(data, off, n);
  }

  /** The register side of a successful Read: the count register becomes
      zero, the address register moves on by the count (see
      Bits.CountWordSigned), and no other register changes. */
  lemma DmaReadRegisters(mem: seq<Word>, regs: seq<Word>, data: seq<Word>, chan: Word, off: nat)
    requires |mem| >= MemWords && |regs| == DmaRegWords
    requires ReadFits(data, off, DmaWordCount(regs[Addr(DmaRegIndex(chan))]))
    ensures var idx := Addr(DmaRegIndex(chan));
            var r := DmaRead(mem, regs, data, Some(chan), off);
            && r.Transferred?
            && |r.regs| == |regs|
            && r.regs[idx] == 0
            && r.regs[idx + 1] == AdvanceAddress(regs[idx + 1], regs[idx])
            && (forall j | 0 <= j < |regs| && j != idx && j != idx + 1 :: r.regs[j] == regs[j])
  {
    DmaReadTransfers(mem, regs, data, chan, off);
  }

  /** A Read fails exactly when its words are not in the file. */
  lemma DmaReadFails(mem: seq<Word>, regs: seq<Word>, data: seq<Word>, chan: Word, off: nat)
    requires |mem| >= MemWords && |regs| == DmaRegWords
    ensures DmaRead(mem, regs, data, Some(chan), off).ReadError? <==>
            !ReadFits(data, off, DmaWordCount(regs[Addr(DmaRegIndex(chan))]))
    ensures DmaRead(mem, regs, data, Some(chan), off).ReadError? ==>
            DmaRead(mem, regs, data, Some(chan), off).fault == ReadFailed
  {
  }

  /** A successful Read order does its DMA transfer, moves OAR past its
      three words, and changes no other controller state. */
  lemma ReadOrderEffect(m: Machine, env: Env)
    requires Fits(m, env) && IsOrder(m, 5) && m.openFile.Some? && m.dmachan.Some?
    requires ReadFits(env.files[m.openFile.value], RecordOffset(Word1(m), Word2(m)),
                      DmaWordCount(m.regs[Addr(DmaRegIndex(m.dmachan.value))]))
    ensures var r := DmaRead(m.mem, m.regs, env.files[m.openFile.value], m.dmachan, RecordOffset(Word1(m), Word2(m)));
            && r.Transferred?
            && Step(m, env) == Next(m.(mem := r.mem, regs := r.regs, oar := After(m.oar, 3)))
  {
    StepIsRead(m, env);
    DmaReadTransfers(m.mem, m.regs, env.files[m.openFile.value], m.dmachan.value, RecordOffset(Word1(m), Word2(m)));
  }

  /** The backing file a DSEL order names. */
  function SelectedFile(m: Machine, env: Env): FileName
    requires |m.mem| >= MemWords
  {
    DevFileName(env.device, UnitOf(Word1(m)))
  }

  /** DSEL of the unit whose file this program opened and which is still
      open changes nothing but OAR: no file is closed or reopened. */
  lemma SelectSameUnit(m: Machine, env: Env)
    requires Fits(m, env) && IsOrder(m, 4)
    requires m.devopened == Some(SelectedFile(m, env)) && m.openFile.Some?
    ensures Step(m, env).Next? && OnlyOarMoved(m, Step(m, env).m) && Step(m, env).m.oar == After(m.oar, 2)
  {
  }

  /** Any other DSEL closes the open file, if there is one, then opens the
      unit's file: on success it is the open file and the one this program
      opened; on failure no file is open and the status is not ready. */
  lemma SelectNewUnit(m: Machine, env: Env)
    requires Fits(m, env) && IsOrder(m, 4)
    requires m.devopened != Some(SelectedFile(m, env)) || m.openFile.None?
    ensures var name, s := SelectedFile(m, env), Step(m, env);
            var ok := name in env.files;
            && s.Next?
            && s.m.ops == m.ops + (if m.openFile.Some? then [Close(m.openFile.value)] else []) + [Open(name, ok)]
            && s.m.openFile == (if ok then Some(name) else None)
            && s.m.devopened == (if ok then Some(name) else m.devopened)
            && s.m.status == (if ok then m.status else StatusNotReady)
            && s.m.mem == m.mem && s.m.regs == m.regs && s.m.dmachan == m.dmachan
            && s.m.oar == After(m.oar, 2)
  {
  }

  /** The status is ready or not ready, and once not ready it stays so. */
  predicate StatusOk(s: Word)
  {
    s == StatusReady || s == StatusNotReady
  }

  /** The only status an order sets is not ready. */
  lemma StepStatus(m: Machine, env: Env)
    requires Fits(m, env) && Step(m, env).Next?
    ensures var s := Step(m, env).m.status;
            s == m.status || s == StatusNotReady
  {
  }

  /** The machine a run ends with, if it does not fail. */
  function FinalMachine(r: RunResult): Option<Machine>
  {
    match r
    case Halted(m) => Some(m)
    case OutOfFuel(m) => Some(m)
    case Failed(_) => None
  }

  /** Over a whole run the status stays ready or not ready, and a program
      whose status went not ready never becomes ready again. */
  lemma {:induction false} RunStatus(m: Machine, env: Env, fuel: nat)
    requires Fits(m, env) && StatusOk(m.status)
    ensures var f := FinalMachine(Run(m, env, fuel));
            f.Some? ==> StatusOk(f.value.status) && (m.status == StatusNotReady ==> f.value.status == StatusNotReady)
    decreases fuel
  {
    if fuel > 0 && Step(m, env).Next? {
      var m' := Step(m, env).m;
      StepStatus(m, env);
      RunStatus(m', env, fuel - 1);
      RunContinues(m, m', env, fuel);
    }
  }

  /** The file this program opened, if it is still open, is the open file. */
  predicate Coherent(m: Machine)
  {
    m.devopened.Some? && m.openFile.Some? ==> m.openFile == m.devopened
  }

  /** With the open file coherent, a DSEL always leaves the selected unit's
      file open, or no file open and the status not ready. */
  lemma SelectOpensUnitFile(m: Machine, env: Env)
    requires Fits(m, env) && IsOrder(m, 4) && Coherent(m)
    ensures var name, s := SelectedFile(m, env), Step(m, env);
            && s.Next?
            && (if name in env.files then s.m.openFile == Some(name)
                else s.m.openFile == None && s.m.status == StatusNotReady)
  {
    if m.devopened == Some(SelectedFile(m, env)) && m.openFile.Some? {
      SelectSameUnit(m, env);
    } else {
      SelectNewUnit(m, env);
    }
  }

  /** Every order keeps the open file coherent. */
  lemma StepCoherent(m: Machine, env: Env)
    requires Fits(m, env) && Coherent(m) && Step(m, env).Next?
    ensures Coherent(Step(m, env).m)
  {
  }

  /** A program starts coherent (it has opened nothing) and stays so. */
  lemma {:induction false} RunCoherent(m: Machine, env: Env, fuel: nat)
    requires Fits(m, env) && Coherent(m)
    ensures var f := FinalMachine(Run(m, env, fuel));
            f.Some? ==> Coherent(f.value)
    decreases fuel
  {
    if fuel > 0 && Step(m, env).Next? {
      var m' := Step(m, env).m;
      StepCoherent(m, env);
      RunCoherent(m', env, fuel - 1);
      RunContinues(m, m', env, fuel);
    }
  }

  /** A run that halts stops at an unconditional Halt order. */
  lemma {:induction false} HaltedAtHaltOrder(m: Machine, env: Env, fuel: nat)
    requires Fits(m, env) && Run(m, env, fuel).Halted?
    ensures var h := Run(m, env, fuel).m;
            |h.mem| == |m.mem| && IsOrder(h, 0)
    decreases fuel
  {
    if Step(m, env).Next? {
      var m' := Step(m, env).m;
      RunContinues(m, m', env, fuel);
      HaltedAtHaltOrder(m', env, fuel - 1);
      assert |m'.mem| == |m.mem|;
    } else {
      assert Step(m, env).Stop?;
      RunHalts(m, env, fuel);
    }
  }

  /** A run that ends before its fuel does ends the same way with more. */
  lemma {:induction false} RunFuelMonotone(m: Machine, env: Env, fuel: nat, more: nat)
    requires Fits(m, env) && !Run(m, env, fuel).OutOfFuel? && fuel <= more
    ensures Run(m, env, more) == Run(m, env, fuel)
    decreases fuel
  {
    match Step(m, env)
    case Stop =>
      RunHalts(m, env, fuel);
      RunHalts(m, env, more);
    case Fail(f) =>
      RunFails(m, env, fuel);
      RunFails(m, env, more);
    case Next(m') =>
      RunContinues(m, m', env, fuel);
      RunContinues(m, m', env, more);
      RunFuelMonotone(m', env, fuel - 1, more - 1);
  }
}

/** A complete channel program, worked through: select DMA channel 0,
    select unit 0, read track 0, head 0, record 0 into memory, halt. */
module ChannelExample {
  import opened Wrappers
  import opened Bits
  import opened Backing
  import opened Channel
  import opened ChannelProps

  /** Memory holding, at '400, SDMA 0; DSEL 0001; SREAD 0 0 0; DHLT, and
      channel 0's register pair set to a count of two words and address
      '1000. */
  predicate Loaded(mem: seq<Word>, regs: seq<Word>)
  {
    && |mem| >= MemWords && |regs| == DmaRegWords
    && mem[0x100] == 0xD000 && mem[0x101] == 0      // SDMA 0
    && mem[0x102] == 0x4000 && mem[0x103] == 1      // DSEL, unit 0 one-hot
    && mem[0x104] == 0x5000 && mem[0x105] == 0 && mem[0x106] == 0   // SREAD
    && mem[0x107] == 0                              // DHLT
    && regs[0] == CountRegister(2) && regs[1] == 0x200
  }

  function UnitFile(): FileName { DevFileName(22, 0) }

  /** Controller '26 with the file of unit 0 holding three words. */
  function ExampleEnv(): Env { Env(22, map[UnitFile() := [7, 8, 9]]) }

  /** The machine before each order of the program. */
  function AtSdma(mem: seq<Word>, regs: seq<Word>): Machine
  {
    Load(mem, regs, 0x100, None, [])
  }
  function AtDsel(mem: seq<Word>, regs: seq<Word>): Machine
  {
    AtSdma(mem, regs).(dmachan := Some(0), oar := 0x102)
  }
  function AtRead(mem: seq<Word>, regs: seq<Word>): Machine
  {
    AtDsel(mem, regs).(openFile := Some(UnitFile()), devopened := Some(UnitFile()), ops := [Open(UnitFile(), true)], oar := 0x104)
  }
  function AtHalt(mem: seq<Word>, regs: seq<Word>): Machine
    requires Loaded(mem, regs)
  {
    var r := DmaRead(mem, regs, [7, 8, 9], Some(0), 0);
    if r.Transferred? then AtRead(mem, regs).(mem := r.mem, regs := r.regs, oar := 0x107)
    else AtRead(mem, regs)
  }

  lemma SdmaStep(mem: seq<Word>, regs: seq<Word>)
    requires Loaded(mem, regs)
    ensures Fits(AtSdma(mem, regs), ExampleEnv()) && Step(AtSdma(mem, regs), ExampleEnv()) == Next(AtDsel(mem, regs))
  {
    SelectDmaOrder(AtSdma(mem, regs), ExampleEnv());
  }

  lemma DselStep(mem: seq<Word>, regs: seq<Word>)
    requires Loaded(mem, regs)
    ensures Fits(AtDsel(mem, regs), ExampleEnv()) && Step(AtDsel(mem, regs), ExampleEnv()) == Next(AtRead(mem, regs))
  {
    assert UnitOf(1) == 0;
    SelectNewUnit(AtDsel(mem, regs), ExampleEnv());
  }

  /** The transfer the Read order does: two words from the start of the file. */
  lemma ReadTransfer(mem: seq<Word>, regs: seq<Word>)
    requires Loaded(mem, regs)
    ensures var r := DmaRead(mem, regs, [7, 8, 9], Some(0), 0);
            && r.Transferred?
            && r.mem[0x200] == 7 && r.mem[0x201] == 8
            && (forall i | 0 <= i < |mem| && i != 0x200 && i != 0x201 :: r.mem[i] == mem[i])
            && r.regs[0] == 0 && r.regs[1] == 0x202
  {
    assert DmaRegIndex(0) == 0;
    assert DmaWordCount(regs[0]) == 2;
    assert ReadFits([7, 8, 9], 0, 2);
    DmaReadTransfers(mem, regs, [7, 8, 9], 0, 0);
    DmaReadMemory(mem, regs, [7, 8, 9], 0, 0);
    DmaReadRegisters(mem, regs, [7, 8, 9], 0, 0);
  }

  /** Before the Read: unit 0's file is open, channel 0 is selected, the
      order names record 0, and the file holds the two words it asks for. */
  lemma ReadReady(mem: seq<Word>, regs: seq<Word>)
    requires Loaded(mem, regs)
    ensures var m := AtRead(mem, regs);
            && Fits(m, ExampleEnv()) && IsOrder(m, 5)
            && m.openFile == Some(UnitFile()) && m.dmachan == Some(0)
            && RecordOffset(Word1(m), Word2(m)) == 0
            && ReadFits(ExampleEnv().files[UnitFile()], 0, DmaWordCount(m.regs[Addr(DmaRegIndex(0))]))
  {
    var m := AtRead(mem, regs);
    assert Word1(m) == 0 && Word2(m) == 0;
    assert RecordOffset(0, 0) == 0;
    assert DmaRegIndex(0) == 0;
    assert DmaWordCount(regs[0]) == 2;
    assert ExampleEnv().files[UnitFile()] == [7, 8, 9];
  }

  lemma ReadStep(mem: seq<Word>, regs: seq<Word>)
    requires Loaded(mem, regs)
    ensures Fits(AtRead(mem, regs), ExampleEnv()) && Step(AtRead(mem, regs), ExampleEnv()) == Next(AtHalt(mem, regs))
  {
    var m := AtRead(mem, regs);
    ReadReady(mem, regs);
    ReadOrderEffect(m, ExampleEnv());
    ReadTransfer(mem, regs);
    assert After(0x104, 3) == 0x107;
  }

  /** The program halts at its DHLT with the unit's file open, the first two
      words of the file at '1000 and '1001 and the rest of memory as it was,
      the count register zero and the address register at '1002. */
  lemma ExampleRun(mem: seq<Word>, regs: seq<Word>)
    requires Loaded(mem, regs)
    ensures Run(AtSdma(mem, regs), ExampleEnv(), 4) == Halted(AtHalt(mem, regs))
    ensures var h := AtHalt(mem, regs);
            && h.oar == 0x107
            && h.mem[0x200] == 7 && h.mem[0x201] == 8
            && (forall i | 0 <= i < |mem| && i != 0x200 && i != 0x201 :: h.mem[i] == mem[i])
            && h.regs[0] == 0 && h.regs[1] == 0x202
            && h.status == StatusReady
            && h.openFile == Some(DevFileName(22, 0))
            && h.ops == [Open(DevFileName(22, 0), true)]
  {
    var env := ExampleEnv();
    SdmaStep(mem, regs);
    RunContinues(AtSdma(mem, regs), AtDsel(mem, regs), env, 4);
    DselStep(mem, regs);
    RunContinues(AtDsel(mem, regs), AtRead(mem, regs), env, 3);
    ReadStep(mem, regs);
    RunContinues(AtRead(mem, regs), AtHalt(mem, regs), env, 2);
    ReadTransfer(mem, regs);
    var h := AtHalt(mem, regs);
    assert Fits(h, env) && h.mem[0x107] == mem[0x107];
    HaltOrder(h, env, 1);
  }
}
