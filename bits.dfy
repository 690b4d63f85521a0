/** Bit fields of the disk controller's channel-program orders, the DMA
    register-pair conventions and the track/head/record translation used by
    `devdisk` in emdev.h.  Octal constants of the source are written in hex
    here, with the octal value beside them. */
module Bits {

  /** A 16-bit machine word: a memory word, an order word or a register. */
  type Word = bv16

  /** Bit '04000 of an order's first word: "execute if ...". */
  const CondExecBit: Word := 0x0800

  /** Controller status at the start of every channel program ('100000). */
  const StatusReady: Word := 0x8000

  /** Controller status once a unit is not ready ('100001). */
  const StatusNotReady: Word := 0x8001

  /** Disk geometry fixed in the source: heads per cylinder, records per
      track, and the size of one record in bytes and in 16-bit words. */
  const Heads: nat := 40
  const SectorsPerTrack: nat := 9
  const SectorBytes: nat := 2080
  const SectorWords: nat := 1040

  /** Words of the DMA register file (32 register pairs). */
  const DmaRegWords: nat := 64

  /** Largest transfer a DMA count register can describe, in words. */
  const MaxDmaWords: nat := 2048

  /** A word used as a memory address or register index. */
  function Addr(w: Word): (i: nat)
    ensures i < 0x10000
  {
    w as int
  }

  /** The address `len` words after `oar`, wrapping at 16 bits. */
  function After(oar: Word, len: Word): Word
  {
    oar + len
  }

  /** The order kind: the top four bits of an order's first word. */
  function OrderKind(w0: Word): (k: Word)
    ensures k < 16
    ensures k == 0 <==> w0 < 0x1000
  {
    w0 >> 12
  }

  /** The "execute if ..." flag of an order's first word. */
  predicate IsConditional(w0: Word)
  {
    w0 & CondExecBit != 0
  }

  /** Words an order occupies: three for Format, Read and Write, two for
      every other kind. */
  function OrderLength(kind: Word): Word
  {
    if kind == 2 || kind == 5 || kind == 6 then 3 else 2
  }

  /** Fields of a Format/Read/Write order, read from the words' values:
      track (low ten bits of the second word), record number (high byte of
      the third word) and head (low six bits of the third word). */
  function Track(w1: Word): (t: nat)
    ensures t < 1024
  {
    Addr(w1) % 1024
  }

  function RecordNo(w2: Word): (r: nat)
    ensures r < 256
  {
    Addr(w2) / 256
  }

  function Head(w2: Word): (h: nat)
    ensures h < 64
  {
    Addr(w2) % 64
  }

  /** Index of the count register of a DMA channel's register pair; the
      address register follows it.  Only the low five bits of the channel
      matter: bits 1-4 choose a group of four registers and bit 0 the first
      or second word of the group. */
  function DmaRegIndex(chan: Word): (i: Word)
    ensures i as int + 1 < DmaRegWords
    ensures i & 3 == chan & 1
    ensures i >> 2 == (chan & 0x1F) >> 1
  {
    ((chan & 0x1E) << 1) | (chan & 1)
  }

  lemma DmaRegIndexSamples()
    ensures DmaRegIndex(0) == 0 && DmaRegIndex(1) == 1
    ensures DmaRegIndex(2) == 4 && DmaRegIndex(3) == 5
  {
  }

  /** Two channels share a register pair exactly when their low five bits agree. */
  lemma DmaRegIndexSame(c: Word, d: Word)
    ensures DmaRegIndex(c) == DmaRegIndex(d) <==> c & 0x1F == d & 0x1F
  {
  }

  /** A word read as a two's-complement 16-bit integer. */
  function Signed(w: Word): (s: int)
    ensures -0x8000 <= s < 0x8000
    ensures w < 0x8000 <==> s >= 0
  {
    if w < 0x8000 then w as int else -((-w) as int)
  }

  /** A signed 16-bit right shift by four bits: the sign bit is copied into
      the four vacated high bits. */
  function ArithShift4(w: Word): Word
  {
    if w < 0x8000 then w >> 4 else (w >> 4) | 0xF000
  }

  /** The transfer count of a DMA count register as a 16-bit word, which
      is what the address register is advanced by. */
  function DmaCountWord(reg: Word): Word
  {
    -ArithShift4(reg)
  }

  /** The DMA address register after a transfer: advanced, with 16-bit
      wrap-around, by the count held in the count register. */
  function AdvanceAddress(addr: Word, countReg: Word): Word
  {
    addr + DmaCountWord(countReg)
  }

  /** Words to transfer, from a DMA count register: minus the register,
      read as a signed word, shifted right arithmetically by four bits.  The
      count is positive exactly when the register is negative and zero
      exactly when only its low four bits may be set. */
  function DmaWordCount(reg: Word): (n: int)
    ensures -(MaxDmaWords as int - 1) <= n <= MaxDmaWords
    ensures n > 0 <==> reg >= 0x8000
    ensures n == 0 <==> reg < 0x10
  {
    var q := ArithShift4(reg);
    assert q < 0x800 || q >= 0xF800;
    assert q == 0 <==> reg < 0x10;
    -Signed(q)
  }

  /** The hardware encoding of a count of n words: minus n in the top
      twelve bits, zero in the low four. */
  function CountRegister(n: Word): (reg: Word)
    requires n <= 0x800
    ensures DmaWordCount(reg) == n as int
    ensures reg & 0xF == 0
  {
    var reg := -(n << 4);
    assert ArithShift4(reg) == -n;
    assert n != 0 ==> -n >= 0x8000 && -(-n) == n;
    reg
  }

  /** The word the address register is advanced by is the transfer count
      as a two's-complement word, so the address moves on by the count
      modulo 2^16. */
  lemma CountWordSigned(reg: Word)
    ensures Signed(DmaCountWord(reg)) == DmaWordCount(reg)
  {
    var q := ArithShift4(reg);
    assert q < 0x800 || q >= 0xF800;
    if q != 0 && q < 0x800 {
      assert -(-q) == q;
    }
  }

  /** The low four bits of a count register do not affect the count. */
  lemma DmaWordCountIgnoresLowBits(reg: Word)
    ensures DmaWordCount(reg) == DmaWordCount(reg & 0xFFF0)
  {
    assert ArithShift4(reg) == ArithShift4(reg & 0xFFF0);
  }

  /** Linear record number of a track/head/record triple: Heads *
      SectorsPerTrack = 360 records per track, SectorsPerTrack = 9 per head
      (written as literals, which keeps the arithmetic linear). */
  function RecordAddress(track: nat, head: nat, rec: nat): nat
  {
    track * 360 + head * 9 + rec
  }

  /** Byte offset of a record in the backing file; for every value the order
      fields can hold it fits in a signed 32-bit integer. */
  function ByteOffset(track: nat, head: nat, rec: nat): (off: nat)
    requires track < 1024 && head < 64 && rec < 256
    ensures off % SectorBytes == 0
    ensures off < 0x8000_0000
  {
    RecordAddress(track, head, rec) * SectorBytes
  }

  /** Record addresses increase with the track, then the head, then the
      record, within the 40-head, 9-record geometry. */
  lemma {:induction false} RecordAddressOrdered(t: nat, h: nat, r: nat, t': nat, h': nat, r': nat)
    requires h < Heads && h' < Heads && r < SectorsPerTrack && r' < SectorsPerTrack
    requires t < t' || (t == t' && h < h') || (t == t' && h == h' && r < r')
    ensures RecordAddress(t, h, r) < RecordAddress(t', h', r')
  {
  }

  /** Within the geometry the record address determines the triple. */
  lemma {:induction false} RecordAddressSplit(t: nat, h: nat, r: nat)
    requires h < Heads && r < SectorsPerTrack
    ensures RecordAddress(t, h, r) / (Heads * SectorsPerTrack) == t
    ensures RecordAddress(t, h, r) % (Heads * SectorsPerTrack) / SectorsPerTrack == h
    ensures RecordAddress(t, h, r) % SectorsPerTrack == r
  {
    DivMod360(t, h * 9 + r);
    DivMod9(h, r);
    DivMod9(t * 40 + h, r);
    assert RecordAddress(t, h, r) == (t * Heads + h) * SectorsPerTrack + r;
  }

  /** The order's head and record fields are wider than the geometry and
      are not range-checked: record 9 of a head is record 0 of the next
      head, and head 40 of a track is head 0 of the next track. */
  lemma RecordAddressAliases(t: nat, h: nat, r: nat)
    ensures RecordAddress(t, h, r + SectorsPerTrack) == RecordAddress(t, h + 1, r)
    ensures RecordAddress(t, h + Heads, r) == RecordAddress(t + 1, h, r)
  {
  }

  lemma DivMod360(q: int, x: int)
    requires 0 <= x < 360
    ensures (q * 360 + x) / 360 == q && (q * 360 + x) % 360 == x
  {
  }

  lemma DivMod9(q: int, x: int)
    requires 0 <= x < 9
    ensures (q * 9 + x) / 9 == q && (q * 9 + x) % 9 == x
  {
  }

  /** The unit selected by a DSEL order: the 4-bit field of its second word
      shifted right by one, with 4 remapped to 3. */
  function UnitOf(w1: Word): (u: nat)
    ensures u < 8 && u != 4
  {
    var u := ((w1 & 0xF) >> 1) as int;
    if u == 4 then 3 else u
  }

  /** The one-hot unit codes 0001, 0010, 0100 and 1000 select units 0 to 3. */
  lemma OneHotUnit(w1: Word, k: nat)
    requires k < 4 && w1 & 0xF == (1 as Word) << k
    ensures UnitOf(w1) == k
  {
  }
}
