/**
 * The symbolic register/flag store as a value: the ten tri-state cells
 * A, X, Y, S, N, V, D, I, Z, C and the one-shot fault indicator
 * (src/em_6502.c:40-53), with the flag helpers that every handler shares
 * (src/em_6502.c:60-123).
 */
module Registers {
  import opened TriState
  import opened Bits

  datatype Regs = Regs(a: Tri, x: Tri, y: Tri, s: Tri,
                       n: Tri, v: Tri, d: Tri, i: Tri, z: Tri, c: Tri,
                       fail: bool)

  /** The state at program start: every cell unknown, no fault. */
  const Initial := Regs(Unknown, Unknown, Unknown, Unknown,
                        Unknown, Unknown, Unknown, Unknown, Unknown, Unknown, false)

  /** Known registers hold bytes and known flags hold bits. */
  predicate Valid(r: Regs) {
    KnownByte(r.a) && KnownByte(r.x) && KnownByte(r.y) && KnownByte(r.s) &&
    KnownBit(r.n) && KnownBit(r.v) && KnownBit(r.d) &&
    KnownBit(r.i) && KnownBit(r.z) && KnownBit(r.c)
  }

  datatype Reg = RegA | RegX | RegY | RegS

  datatype Flag = FlagN | FlagV | FlagD | FlagI | FlagZ | FlagC

  function GetReg(r: Regs, g: Reg): (t: Tri)
    ensures Valid(r) ==> KnownByte(t)
  {
    match g
    case RegA => r.a
    case RegX => r.x
    case RegY => r.y
    case RegS => r.s
  }

  function PutReg(r: Regs, g: Reg, t: Tri): (r': Regs)
    ensures GetReg(r', g) == t
    ensures forall h :: h != g ==> GetReg(r', h) == GetReg(r, h)
    ensures r'.(a := r.a, x := r.x, y := r.y, s := r.s) == r
    ensures Valid(r) && KnownByte(t) ==> Valid(r')
  {
    match g
    case RegA => r.(a := t)
    case RegX => r.(x := t)
    case RegY => r.(y := t)
    case RegS => r.(s := t)
  }

  function GetFlag(r: Regs, f: Flag): (t: Tri)
    ensures Valid(r) ==> KnownBit(t)
  {
    match f
    case FlagN => r.n
    case FlagV => r.v
    case FlagD => r.d
    case FlagI => r.i
    case FlagZ => r.z
    case FlagC => r.c
  }

  function PutFlag(r: Regs, f: Flag, t: Tri): (r': Regs)
    ensures GetFlag(r', f) == t
    ensures forall e :: e != f ==> GetFlag(r', e) == GetFlag(r, e)
    ensures r'.(n := r.n, v := r.v, d := r.d, i := r.i, z := r.z, c := r.c) == r
    ensures Valid(r) && KnownBit(t) ==> Valid(r')
  {
    match f
    case FlagN => r.(n := t)
    case FlagV => r.(v := t)
    case FlagD => r.(d := t)
    case FlagI => r.(i := t)
    case FlagZ => r.(z := t)
    case FlagC => r.(c := t)
  }

  /** Where each flag sits in a status byte: N=7, V=6, D=3, I=2, Z=1, C=0. */
  function FlagPos(f: Flag): (k: nat)
    ensures k <= 7
  {
    match f
    case FlagN => 7
    case FlagV => 6
    case FlagD => 3
    case FlagI => 2
    case FlagZ => 1
    case FlagC => 0
  }

  /** Some known flag differs from its bit of the status byte `b`. */
  predicate Mismatch(r: Regs, b: int) {
    exists f :: Contradicts(GetFlag(r, f), Bit(b, FlagPos(f)))
  }

  /** The six tests of check_NVDIZC, flag by flag in the order N, V, D, I, Z, C. */
  predicate AnyContradiction(r: Regs, b: int) {
    Contradicts(r.n, Bit(b, 7)) || Contradicts(r.v, Bit(b, 6)) ||
    Contradicts(r.d, Bit(b, 3)) || Contradicts(r.i, Bit(b, 2)) ||
    Contradicts(r.z, Bit(b, 1)) || Contradicts(r.c, Bit(b, 0))
  }

  /**
   * check_NVDIZC: cross-checks every known flag against its bit of `b`.
   * It changes no cell and raises the fault exactly when some known flag
   * disagrees; an unknown flag never causes a fault.
   */
  function CheckFlags(r: Regs, b: int): (r': Regs)
    ensures r' == r.(fail := r.fail || Mismatch(r, b))
    ensures r'.fail && !r.fail ==>
              exists f :: GetFlag(r, f).Known? && GetFlag(r, f).val != Bit(b, FlagPos(f))
  {
    var bad := AnyContradiction(r, b);
    assert bad ==> Mismatch(r, b) by {
      if Contradicts(r.n, Bit(b, 7)) { assert Contradicts(GetFlag(r, FlagN), Bit(b, FlagPos(FlagN))); }
      if Contradicts(r.v, Bit(b, 6)) { assert Contradicts(GetFlag(r, FlagV), Bit(b, FlagPos(FlagV))); }
      if Contradicts(r.d, Bit(b, 3)) { assert Contradicts(GetFlag(r, FlagD), Bit(b, FlagPos(FlagD))); }
      if Contradicts(r.i, Bit(b, 2)) { assert Contradicts(GetFlag(r, FlagI), Bit(b, FlagPos(FlagI))); }
      if Contradicts(r.z, Bit(b, 1)) { assert Contradicts(GetFlag(r, FlagZ), Bit(b, FlagPos(FlagZ))); }
      if Contradicts(r.c, Bit(b, 0)) { assert Contradicts(GetFlag(r, FlagC), Bit(b, FlagPos(FlagC))); }
    }
    r.(fail := r.fail || bad)
  }

  /** set_NVDIZC: all six flags become known, each equal to its bit of `b`. */
  function SetFlags(r: Regs, b: int): (r': Regs)
    ensures forall f :: GetFlag(r', f) == Known(Bit(b, FlagPos(f)))
    ensures r'.(n := r.n, v := r.v, d := r.d, i := r.i, z := r.z, c := r.c) == r
  {
    r.(n := Known(Bit(b, 7)), v := Known(Bit(b, 6)), d := Known(Bit(b, 3)),
       i := Known(Bit(b, 2)), z := Known(Bit(b, 1)), c := Known(Bit(b, 0)))
  }

  /**
   * set_NZ: N is bit 7 of the value and Z says whether it is zero. For a
   * value outside 0..255 (a comparison's difference) N is bit 7 of its low
   * byte, read in two's complement.
   */
  function SetNZ(r: Regs, value: int): (r': Regs)
    ensures r' == r.(n := Known(BoolBit(Low8(value) >= 128)), z := Known(BoolBit(value == 0)))
    ensures IsByte(value) ==> r'.n == Known(BoolBit(value >= 128))
  {
    Bit7Low8(value);
    r.(n := Known(Bit(value, 7)), z := Known(BoolBit(value == 0)))
  }

  /** set_NZ_unknown: N and Z become unknown, nothing else changes. */
  function ForgetNZ(r: Regs): (r': Regs)
    ensures r'.n.Unknown? && r'.z.Unknown?
    ensures r'.(n := r.n, z := r.z) == r
  {
    r.(n := Unknown, z := Unknown)
  }

  /** set_NZC_unknown: N, Z and C become unknown, nothing else changes. */
  function ForgetNZC(r: Regs): (r': Regs)
    ensures r'.n.Unknown? && r'.z.Unknown? && r'.c.Unknown?
    ensures r'.(n := r.n, z := r.z, c := r.c) == r
  {
    r.(n := Unknown, z := Unknown, c := Unknown)
  }

  /** set_NVZC_unknown: N, V, Z and C become unknown, nothing else changes. */
  function ForgetNVZC(r: Regs): (r': Regs)
    ensures r'.n.Unknown? && r'.v.Unknown? && r'.z.Unknown? && r'.c.Unknown?
    ensures r'.(n := r.n, v := r.v, z := r.z, c := r.c) == r
  {
    r.(n := Unknown, v := Unknown, z := Unknown, c := Unknown)
  }

  /** Bulk-setting the flags from `b` and then checking them against the same `b` never faults. */
  lemma SetThenCheckNoFault(r: Regs, b: int)
    ensures !Mismatch(SetFlags(r, b), b)
    ensures CheckFlags(SetFlags(r, b), b) == SetFlags(r, b)
  {
  }

  /** Bulk-set flags are bits, so a valid store stays valid. */
  lemma SetFlagsValid(r: Regs, b: int)
    requires Valid(r)
    ensures Valid(SetFlags(r, b))
  {
  }

  /**
   * The check is exactly as strict as the knowledge: with every flag known
   * it faults on every status byte but the one whose six flag bits equal the
   * flags; with every flag unknown it never faults.
   */
  lemma CheckAllKnown(r: Regs, b: int)
    requires forall f :: GetFlag(r, f).Known?
    ensures !Mismatch(r, b) <==> forall f :: GetFlag(r, f).val == Bit(b, FlagPos(f))
  {
  }

  lemma CheckAllUnknown(r: Regs, b: int)
    requires forall f :: GetFlag(r, f) == Unknown
    ensures CheckFlags(r, b) == r
  {
  }
}
