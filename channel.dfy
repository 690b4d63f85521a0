/** The disk controller's channel-program interpreter (emdev.h, `devdisk`,
    OTA '17) as a state machine over values: `Step` executes the order at
    the Order Address Register, `Run` repeats it until a Halt order, a fatal
    order, or the end of its fuel.  The imperative controller in module
    Disk is proved to compute exactly `Run`. */
module Channel {
  import opened Wrappers
  import opened Bits
  import opened Backing
  import opened Io

  /** Memory words the interpreter may index: every 16-bit address, the
      two words after it that an order fetch reads, and a DMA transfer of up
      to 2048 words at any 16-bit address. */
  const MemWords: nat := 0x10800

  /** A host file call issued by the controller. */
  datatype FileOp = Close(name: FileName) | Open(name: FileName, ok: bool)

  /** Everything a channel program reads or changes.
      - mem, regs: main memory and the DMA register file (shared with the CPU);
      - oar, status, dmachan, devopened: the controller's state for this
        program (dmachan is None until an SDMA order, devopened is the name
        of the last file this program opened);
      - openFile: the backing file open on the controller's descriptor, which
        outlives the program;
      - ops: the host file calls issued so far. */
  datatype Machine = Machine(
    mem: seq<Word>,
    regs: seq<Word>,
    oar: Word,
    status: Word,
    dmachan: Option<Word>,
    devopened: Option<FileName>,
    openFile: Option<FileName>,
    ops: seq<FileOp>)

  /** The controller's device address and the backing files that exist,
      each as the sequence of 16-bit words it holds. */
  datatype Env = Env(device: Device, files: map<FileName, seq<Word>>)

  predicate Fits(m: Machine, env: Env)
  {
    && |m.mem| >= MemWords
    && |m.regs| == DmaRegWords
    && (m.openFile.Some? ==> m.openFile.value in env.files)
  }

  /** The machine at an OTA '17: OAR loaded from A, status ready, no DMA
      channel and no file opened yet by this program. */
  function Load(mem: seq<Word>, regs: seq<Word>, a: Word, openFile: Option<FileName>, ops: seq<FileOp>): (m: Machine)
    ensures m.status == StatusReady && m.dmachan == None && m.devopened == None
  {
    Machine(mem, regs, a, StatusReady, None, None, openFile, ops)
  }

  /** `s` with `w` written over it from index `at` on. */
  function Overwrite(s: seq<Word>, at: nat, w: seq<Word>): (r: seq<Word>)
    requires at + |w| <= |s|
    ensures |r| == |s|
  {
    s[..at] + w + s[at + |w|..]
  }

  /** Overwrite replaces exactly the words from `at` on, and keeps the rest. */
  lemma OverwriteAt(s: seq<Word>, at: nat, w: seq<Word>)
    requires at + |w| <= |s|
    ensures forall i | 0 <= i < |s| :: Overwrite(s, at, w)[i] == if at <= i < at + |w| then w[i - at] else s[i]
  {
  }

  datatype StepResult = Next(m: Machine) | Stop | Fail(fault: Fault)

  /** DSEL: select a unit.  Unless this program already opened the unit's
      file and it is still open, close whatever file is open and open the
      unit's file; if that fails no file is open and the status becomes not
      ready. */
  function SelectUnit(m: Machine, env: Env, unit: nat): (r: Machine)
    requires unit < 10 && (m.openFile.Some? ==> m.openFile.value in env.files)
    ensures r.openFile.Some? ==> r.openFile.value in env.files
    ensures r.mem == m.mem && r.regs == m.regs && r.oar == m.oar && r.dmachan == m.dmachan
  {
    var name := DevFileName(env.device, unit);
    if m.devopened == Some(name) && m.openFile.Some? then m
    else
      var closed := if m.openFile.Some? then m.(openFile := None, ops := m.ops + [Close(m.openFile.value)]) else m;
      if name in env.files then
        closed.(openFile := Some(name), devopened := Some(name), ops := closed.ops + [Open(name, true)])
      else
        closed.(status := StatusNotReady, ops := closed.ops + [Open(name, false)])
  }

  /** The words a Read order transfers, or None when the read would fail:
      a negative count, or fewer words in the file than requested. */
  function RecordWords(data: seq<Word>, off: nat, n: int): (r: Option<seq<Word>>)
    ensures r.Some? <==> 0 <= n && (n == 0 || off + n <= |data|)
    ensures r.Some? ==> |r.value| == n
  {
    if n < 0 || (n > 0 && off + n > |data|) then None
    else if n == 0 then Some([])
    else Some(data[off..off + n])
  }

  /** The words read are the file's words from the offset on. */
  lemma RecordWordsAt(data: seq<Word>, off: nat, n: int)
    requires RecordWords(data, off, n).Some?
    ensures forall i | 0 <= i < n :: RecordWords(data, off, n).value[i] == data[off + i]
  {
  }

  /** The DMA register file after a transfer on the register pair at
      `idx`: the count register is zero and the address register has moved
      past the words transferred. */
  function DmaDone(regs: seq<Word>, idx: nat): (r: seq<Word>)
    requires idx + 1 < |regs|
    ensures |r| == |regs|
  {
    regs[idx := 0][idx + 1 := AdvanceAddress(regs[idx + 1], regs[idx])]
  }

  /** Word offset in the backing file of the record a Read order names:
      1040 words per record (see RecordOffsetInBytes). */
  function RecordOffset(w1: Word, w2: Word): nat
  {
    RecordAddress(Track(w1), Head(w2), RecordNo(w2)) * SectorWords
  }

  /** The word offset is the byte offset the source seeks to, halved. */
  lemma RecordOffsetInBytes(w1: Word, w2: Word)
    ensures RecordOffset(w1, w2) * 2 == ByteOffset(Track(w1), Head(w2), RecordNo(w2))
  {
  }

  /** What a Read order does to memory and the DMA registers: the new
      contents of both, or why the read fails. */
  datatype DmaReadResult = Transferred(mem: seq<Word>, regs: seq<Word>) | ReadError(fault: Fault)

  /** SREAD's DMA transfer from the backing file `data`: the channel's word
      count from the record's offset in the file to the channel's address,
      then the count register is zeroed and the address register advanced. */
  function DmaRead(mem: seq<Word>, regs: seq<Word>, data: seq<Word>, dmachan: Option<Word>, off: nat)
    : (r: DmaReadResult)
    requires |mem| >= MemWords && |regs| == DmaRegWords
    ensures r.Transferred? ==> |r.mem| == |mem| && |r.regs| == |regs|
  {
    if dmachan.None? then ReadError(NoDmaChannel)
    else
      var idx := Addr(DmaRegIndex(dmachan.value));
      var n := DmaWordCount(regs[idx]);
      match RecordWords(data, off, n)
      case None => ReadError(ReadFailed)
      case Some(words) => Transferred(Overwrite(mem, Addr(regs[idx + 1]), words), DmaDone(regs, idx))
  }

  /** SREAD with a file open: the DMA transfer, then OAR moves past the
      three-word order. */
  function ReadRecord(m: Machine, env: Env, w1: Word, w2: Word): (r: StepResult)
    requires Fits(m, env) && m.openFile.Some?
    ensures r.Next? ==> Fits(r.m, env)
  {
    match DmaRead(m.mem, m.regs, env.files[m.openFile.value], m.dmachan, RecordOffset(w1, w2))
    case ReadError(f) => Fail(f)
    case Transferred(mem', regs') => Next(m.(mem := mem', regs := regs', oar := After(m.oar, 3)))
  }

  /** SFORM, SREAD, SWRITE: with no file open the status becomes not ready;
      otherwise Read transfers and Format and Write do nothing. */
  function Transfer(m: Machine, env: Env, kind: Word, w1: Word, w2: Word): (r: StepResult)
    requires Fits(m, env)
    ensures r.Next? ==> Fits(r.m, env)
  {
    if m.openFile.None? then Next(m.(status := StatusNotReady, oar := After(m.oar, 3)))
    else if kind == 5 then ReadRecord(m, env, w1, w2)
    else Next(m.(oar := After(m.oar, 3)))
  }

  /** Executes the order at OAR. */
  function Step(m: Machine, env: Env): (r: StepResult)
    requires Fits(m, env)
    ensures r.Next? ==> Fits(r.m, env)
  {
    var w0 := m.mem[Addr(m.oar)];
    if IsConditional(w0) then Next(m.(oar := After(m.oar, OrderLength(OrderKind(w0)))))
    else Execute(m, env, OrderKind(w0), m.mem[Addr(m.oar) + 1], m.mem[Addr(m.oar) + 2])
  }

  /** Step fetches the order's three words at OAR, steps over a conditional
      order and otherwise executes it. */
  lemma StepFetches(m: Machine, env: Env)
    requires Fits(m, env)
    ensures var w0 := m.mem[Addr(m.oar)];
            Step(m, env) == if IsConditional(w0) then Next(m.(oar := After(m.oar, OrderLength(OrderKind(w0)))))
                            else Execute(m, env, OrderKind(w0), m.mem[Addr(m.oar) + 1], m.mem[Addr(m.oar) + 2])
  {
  }

  /** Executes an unconditional order of the given kind whose second and
      third words are w1 and w2. */
  function Execute(m: Machine, env: Env, kind: Word, w1: Word, w2: Word): (r: StepResult)
    requires Fits(m, env)
    ensures r.Next? ==> Fits(r.m, env)
  {
    if kind == 0 then Stop                                                   // DHLT
    else if kind == 2 || kind == 5 || kind == 6 then Transfer(m, env, kind, w1, w2)
    else if kind == 3 || kind == 7 then Next(m.(oar := After(m.oar, 2)))          // SSEEK, DSTALL
    else if kind == 4 then Next(SelectUnit(m, env, UnitOf(w1)).(oar := After(m.oar, 2)))
    else if kind == 9 then Next(m.(mem := m.mem[Addr(w1) := m.status], oar := After(m.oar, 2)))
    else if kind == 11 then Next(m.(mem := m.mem[Addr(w1) := m.oar], oar := After(m.oar, 2)))
    else if kind == 13 then Next(m.(dmachan := Some(w1), oar := After(m.oar, 2)))
    else if kind == 14 then Fail(InterruptOrder(w1))                        // DINT
    else if kind == 15 then Next(m.(oar := w1))                             // DTRAN
    else Fail(UnrecognizedOrder(kind))
  }

  datatype RunResult = Halted(m: Machine) | Failed(fault: Fault) | OutOfFuel(m: Machine)

  /** Executes orders until a Halt order (the machine is then the one that
      fetched it), a fatal order, or `fuel` orders without a halt. */
  function Run(m: Machine, env: Env, fuel: nat): (r: RunResult)
    requires Fits(m, env)
    decreases fuel, 1
  {
    if fuel == 0 then OutOfFuel(m) else RunFrom(m, env, fuel)
  }

  /** A run with fuel left: executes the order at OAR, then runs on. */
  function RunFrom(m: Machine, env: Env, fuel: nat): (r: RunResult)
    requires Fits(m, env) && fuel > 0
    decreases fuel, 0
  {
    match Step(m, env)
    case Stop => Halted(m)
    case Fail(f) => Failed(f)
    case Next(m') => Run(m', env, fuel - 1)
  }

  /** One order of a run that continues. */
  lemma RunContinues(m: Machine, m': Machine, env: Env, fuel: nat)
    requires Fits(m, env) && fuel > 0 && Step(m, env) == Next(m')
    ensures Run(m, env, fuel) == Run(m', env, fuel - 1)
  {
  }

  /** A run whose next order halts ends with the machine that fetched it. */
  lemma RunHalts(m: Machine, env: Env, fuel: nat)
    requires Fits(m, env) && fuel > 0 && Step(m, env).Stop?
    ensures Run(m, env, fuel) == Halted(m)
  {
  }

  /** A run whose next order is fatal fails with that order's fault. */
  lemma RunFails(m: Machine, env: Env, fuel: nat)
    requires Fits(m, env) && fuel > 0 && Step(m, env).Fail?
    ensures Run(m, env, fuel) == Failed(Step(m, env).fault)
  {
  }
}
