/** Backing-store naming for the disk controller: the file that stands for
    one unit of one controller is `dev<device in octal>u<unit>`
    (emdev.h, devdisk, DSEL order). */
module Backing {
  import opened Wrappers

  type FileName = string

  /** A device address as the CPU decodes it from an I/O instruction: six bits. */
  type Device = d: nat | d < 64

  function OctalDigit(d: nat): (c: char)
    requires d < 8
    ensures '0' <= c <= '7' && c as int - '0' as int == d
  {
    "01234567"[d]
  }

  predicate IsOctalDigit(c: char)
  {
    '0' <= c <= '7'
  }

  /** `%o` of a device address: one or two octal digits, no leading zero,
      whose octal value is the address. */
  function Octal(d: Device): (s: string)
    ensures |s| == if d < 8 then 1 else 2
    ensures forall i | 0 <= i < |s| :: IsOctalDigit(s[i])
    ensures OctalValue(s) == d
    ensures s[0] == '0' ==> d == 0
  {
    if d < 8 then
      var s := [OctalDigit(d)];
      assert s[..0] == [];
      s
    else
      var s := [OctalDigit(d / 8), OctalDigit(d % 8)];
      assert s[..1] == [OctalDigit(d / 8)] && s[..1][..0] == [];
      assert OctalValue(s[..1]) == d / 8;
      s
  }

  /** The value of a string of octal digits. */
  function OctalValue(s: string): nat
    requires forall i | 0 <= i < |s| :: IsOctalDigit(s[i])
  {
    if s == [] then 0
    else
      assert IsOctalDigit(s[|s| - 1]);
      8 * OctalValue(s[..|s| - 1]) + (s[|s| - 1] as int - '0' as int)
  }

  /** The backing file of a unit.  With a six-bit device and a one-digit
      unit it has at most seven characters, so the eight-byte buffer the
      name is formatted into never truncates it. */
  function DevFileName(device: Device, unit: nat): (name: FileName)
    requires unit < 10
    ensures |name| == if device < 8 then 6 else 7
    ensures name[..3] == "dev" && name[|name| - 2] == 'u'
    ensures name[3..|name| - 2] == Octal(device)
    ensures name[|name| - 1] as int - '0' as int == unit
  {
    "dev" + Octal(device) + "u" + [('0' as int + unit) as char]
  }

  /** Reads a device address and a unit back from a backing-file name. */
  function ParseDevFileName(name: FileName): Option<(nat, nat)>
  {
    if |name| < 6 || name[..3] != "dev" || name[|name| - 2] != 'u' then None
    else
      var digits, last := name[3..|name| - 2], name[|name| - 1];
      if !(forall i | 0 <= i < |digits| :: IsOctalDigit(digits[i])) || !('0' <= last <= '9') then None
      else Some((OctalValue(digits), last as int - '0' as int))
  }

  /** Parsing a backing-file name gives back the device and unit it was made from. */
  lemma {:induction false} ParseDevFileNameRoundTrip(device: Device, unit: nat)
    requires unit < 10
    ensures ParseDevFileName(DevFileName(device, unit)) == Some((device as nat, unit))
  {
    var oct, c := Octal(device), ('0' as int + unit) as char;
    var name := DevFileName(device, unit);
    assert name == "dev" + oct + "u" + [c];
    assert name[3..|name| - 2] == oct;
    assert name[|name| - 1] == c;
    if device >= 8 {
      assert oct[..1] == [OctalDigit(device / 8)];
      assert OctalValue(oct[..1]) == device / 8 by {
        assert oct[..1][..0] == [];
      }
    } else {
      assert oct[..|oct| - 1] == [];
      assert OctalValue(oct) == device;
    }
  }

  /** Two units have the same backing file exactly when they are the same
      unit of the same device, so comparing names compares units. */
  lemma DevFileNameInjective(d: Device, u: nat, d': Device, u': nat)
    requires u < 10 && u' < 10
    ensures DevFileName(d, u) == DevFileName(d', u') <==> d == d' && u == u'
  {
    if DevFileName(d, u) == DevFileName(d', u') {
      ParseDevFileNameRoundTrip(d, u);
      ParseDevFileNameRoundTrip(d', u');
    }
  }
}
