/**
 * The semantic handlers of src/em_6502.c:183-711 as functions on the store
 * value. There is one `Handler` constructor per `op_*` routine of the
 * source, named as there; handlers that share a pattern (the three stores,
 * the eight branches, ...) share one function with the register or flag
 * as a parameter. Every contract is stated for a valid store and an
 * operand in the domain its caller guarantees: a byte, or 0/1 for the
 * "branch taken" operand of a branch.
 */
module Handlers {
  import opened TriState
  import opened Bits
  import opened Registers

  datatype Handler =
    | ADC | AND | ASLA | ASL | BCC | BCS | BNE | BEQ | BPL | BMI | BVC | BVS
    | BRK | BIT_IMM | BIT | CLC | CLD | CLI | CLV | CMP | CPX | CPY
    | DECA | DEC | DEX | DEY | EOR | INCA | INC | INX | INY | JSR
    | LDA | LDX | LDY | LSRA | LSR | ORA | PHA | PHP | PHX | PHY
    | PLA | PLP | PLX | PLY | ROLA | ROL | RORA | ROR | RTS | RTI
    | SBC | SEC | SED | SEI | STA | STX | STY
    | TAX | TAY | TSB_TRB | TSX | TXA | TXS | TYA

  predicate IsBranch(h: Handler) {
    h.BCC? || h.BCS? || h.BNE? || h.BEQ? || h.BPL? || h.BMI? || h.BVC? || h.BVS?
  }

  /** The operand a handler is called with: "branch taken" (0 or 1) for a branch, otherwise a byte. */
  predicate OperandOk(h: Handler, operand: int) {
    if IsBranch(h) then IsBit(operand) else IsByte(operand)
  }

  /** A signed 8-bit result out of range: two's-complement overflow. */
  predicate Overflows(t: int) {
    t < -128 || t > 127
  }

  /** The overflow test of op_ADC, bit 7 of `A ^ operand` clear and bit 7 of `A ^ tmp` set, is signed overflow. */
  lemma AdcOverflowBit(a: int, operand: int, c: int)
    requires IsByte(a) && IsByte(operand) && IsBit(c)
    ensures (Bit(a, 7) == Bit(operand, 7) && Bit(a, 7) != Bit(a + operand + c, 7))
            <==> Overflows(Signed(a) + Signed(operand) + c)
    ensures Bit(a + operand + c, 8) == BoolBit(a + operand + c >= 256)
  {
    var sum := a + operand + c;
    Bit7Byte(a);
    Bit7Byte(operand);
    Bit7Low8(sum);
    Bit8Sum(sum);
    if a < 128 && operand < 128 {
      assert sum < 256 && Low8(sum) == sum;
    } else if a >= 128 && operand >= 128 {
      assert sum >= 256 && Low8(sum) == sum - 256;
    }
  }

  /** The overflow and carry tests of op_SBC, read as signed overflow and "no borrow". */
  lemma SbcOverflowBit(a: int, operand: int, c: int)
    requires IsByte(a) && IsByte(operand) && IsBit(c)
    ensures (Bit(a, 7) != Bit(operand, 7) && Bit(a, 7) != Bit(a - operand - (1 - c), 7))
            <==> Overflows(Signed(a) - Signed(operand) - (1 - c))
    ensures 1 - Bit(a - operand - (1 - c), 8) == BoolBit(a - operand - (1 - c) >= 0)
  {
    var diff := a - operand - (1 - c);
    Bit7Byte(a);
    Bit7Byte(operand);
    Bit7Low8(diff);
    Bit8Diff(diff);
    if a < 128 && operand >= 128 {
      assert diff < 0 && Low8(diff) == diff + 256;
    } else if a >= 128 && operand < 128 {
      assert diff >= 0 && Low8(diff) == diff;
    }
  }

  /** A takes a result byte and set_NZ follows it: N is its sign bit and Z says whether it is zero. */
  function SetResult(r: Regs, res: int): (r': Regs)
    requires IsByte(res)
    ensures r' == r.(a := Known(res), n := Known(BoolBit(res >= 128)), z := Known(BoolBit(res == 0)))
  {
    Bit7Byte(res);
    SetNZ(r.(a := Known(res)), res)
  }

  /**
   * The byte arithmetic of op_ADC: the result byte, the carry `(tmp >> 8) & 1`
   * and the overflow test on bit 7 of `A ^ operand` and `A ^ tmp`, which are
   * the carry out of the low byte and signed overflow.
   */
  function AddWithCarry(a: int, operand: int, c: int): (res: (int, int, int))
    requires IsByte(a) && IsByte(operand) && IsBit(c)
    ensures var sum := a + operand + c;
      res == (sum % 256, BoolBit(sum >= 256), BoolBit(Overflows(Signed(a) + Signed(operand) + c)))
  {
    var tmp := a + operand + c;
    AdcOverflowBit(a, operand, c);
    (Low8(tmp), Bit(tmp, 8), BoolBit(Bit(a, 7) == Bit(operand, 7) && Bit(a, 7) != Bit(tmp, 7)))
  }

  /**
   * op_ADC (binary mode only). With A and C known: A' is the low byte of
   * A + operand + C, C' its carry, V' signed overflow, N and Z from A'.
   * Otherwise A, N, V, Z and C all become unknown.
   */
  function Adc(r: Regs, operand: int): (r': Regs)
    requires Valid(r) && IsByte(operand)
    ensures Valid(r')
    ensures r'.fail == r.fail
    ensures r.a.Known? && r.c.Known? ==> r' == AdcKnown(r, operand)
    ensures !(r.a.Known? && r.c.Known?) ==>
      r' == r.(a := Unknown, n := Unknown, v := Unknown, z := Unknown, c := Unknown)
  {
    if r.a.Known? && r.c.Known? then AdcKnown(r, operand)
    else ForgetNVZC(r.(a := Unknown))
  }

  /** op_ADC with A and C known. */
  function AdcKnown(r: Regs, operand: int): (r': Regs)
    requires Valid(r) && IsByte(operand) && r.a.Known? && r.c.Known?
    ensures Valid(r')
    ensures var sum := r.a.val + operand + r.c.val;
      r' == r.(a := Known(sum % 256), c := Known(BoolBit(sum >= 256)),
               v := Known(BoolBit(Overflows(Signed(r.a.val) + Signed(operand) + r.c.val))),
               n := Known(BoolBit(sum % 256 >= 128)), z := Known(BoolBit(sum % 256 == 0)))
  {
    var res := AddWithCarry(r.a.val, operand, r.c.val);
    SetResult(r.(c := Known(res.1), v := Known(res.2)), res.0)
  }

  /**
   * The byte arithmetic of op_SBC: the result byte, the carry
   * `1 - ((tmp >> 8) & 1)` and the overflow test, which are "no borrow" and
   * signed overflow of A - operand - (1 - C).
   */
  function SubtractWithBorrow(a: int, operand: int, c: int): (res: (int, int, int))
    requires IsByte(a) && IsByte(operand) && IsBit(c)
    ensures var diff := a - operand - (1 - c);
      res == (diff % 256, BoolBit(diff >= 0), BoolBit(Overflows(Signed(a) - Signed(operand) - (1 - c))))
  {
    var tmp := a - operand - (1 - c);
    SbcOverflowBit(a, operand, c);
    (Low8(tmp), 1 - Bit(tmp, 8), BoolBit(Bit(a, 7) != Bit(operand, 7) && Bit(a, 7) != Bit(tmp, 7)))
  }

  /**
   * op_SBC (binary mode only). With A and C known: A' is the low byte of
   * A - operand - (1 - C), C' is 1 exactly when that difference is not
   * negative (no borrow), V' signed overflow, N and Z from A'. Otherwise A,
   * N, V, Z and C all become unknown.
   */
  function Sbc(r: Regs, operand: int): (r': Regs)
    requires Valid(r) && IsByte(operand)
    ensures Valid(r')
    ensures r'.fail == r.fail
    ensures r.a.Known? && r.c.Known? ==> r' == SbcKnown(r, operand)
    ensures !(r.a.Known? && r.c.Known?) ==>
      r' == r.(a := Unknown, n := Unknown, v := Unknown, z := Unknown, c := Unknown)
  {
    if r.a.Known? && r.c.Known? then SbcKnown(r, operand)
    else ForgetNVZC(r.(a := Unknown))
  }

  /** op_SBC with A and C known. */
  function SbcKnown(r: Regs, operand: int): (r': Regs)
    requires Valid(r) && IsByte(operand) && r.a.Known? && r.c.Known?
    ensures Valid(r')
    ensures var diff := r.a.val - operand - (1 - r.c.val);
      r' == r.(a := Known(diff % 256), c := Known(BoolBit(diff >= 0)),
               v := Known(BoolBit(Overflows(Signed(r.a.val) - Signed(operand) - (1 - r.c.val)))),
               n := Known(BoolBit(diff % 256 >= 128)), z := Known(BoolBit(diff % 256 == 0)))
  {
    var res := SubtractWithBorrow(r.a.val, operand, r.c.val);
    SetResult(r.(c := Known(res.1), v := Known(res.2)), res.0)
  }

  datatype Logic = LogicAnd | LogicOr | LogicXor

  function Combine(k: Logic, x: int, y: int): (res: int)
    requires IsByte(x) && IsByte(y)
    ensures IsByte(res)
  {
    match k
    case LogicAnd => And8(x, y)
    case LogicOr => Or8(x, y)
    case LogicXor => Xor8(x, y)
  }

  /**
   * op_AND, op_ORA, op_EOR: with A known, A' is the bitwise combination
   * and N, Z come from it; with A unknown only N and Z are forgotten
   * (A stays unknown).
   */
  function Bitwise(r: Regs, k: Logic, operand: int): (r': Regs)
    requires Valid(r) && IsByte(operand)
    ensures Valid(r')
    ensures r'.fail == r.fail
    ensures r.a.Known? ==>
      var res := Combine(k, r.a.val, operand);
      r' == r.(a := Known(res), n := Known(BoolBit(res >= 128)), z := Known(BoolBit(res == 0)))
    ensures r.a.Unknown? ==> r' == r.(n := Unknown, z := Unknown)
  {
    if r.a.Known? then
      var res := Combine(k, r.a.val, operand);
      Bit7Byte(res);
      SetNZ(r.(a := Known(res)), res)
    else
      ForgetNZ(r)
  }

  datatype Shift = ShiftAsl | ShiftLsr | ShiftRol | ShiftRor

  /** ROL and ROR shift the carry in; ASL and LSR do not read it. */
  predicate UsesCarry(k: Shift) {
    k == ShiftRol || k == ShiftRor
  }

  /**
   * The shifted byte and the bit shifted out, as the four handlers compute
   * them (`(v << 1) & 255`, `v >> 1`, `(v << 1) + C`, `(v >> 1) + (C << 7)`).
   * Read as nine-bit arithmetic: a left shift moves the value's top bit into
   * the carry, a right shift moves its bottom bit there, and a rotate also
   * brings the old carry in at the other end.
   */
  function ShiftOut(k: Shift, v: int, cin: int): (res: (int, int))
    requires IsByte(v) && IsBit(cin)
    ensures IsByte(res.0) && IsBit(res.1)
    ensures k == ShiftAsl ==> res.0 + 256 * res.1 == 2 * v
    ensures k == ShiftLsr ==> 2 * res.0 + res.1 == v
    ensures k == ShiftRol ==> res.0 + 256 * res.1 == 2 * v + cin
    ensures k == ShiftRor ==> 2 * res.0 + res.1 == v + 256 * cin
  {
    match k
    case ShiftAsl =>
      ShiftLeftCarry(v, 0);
      (Low8(v * 2), Bit(v, 7))
    case ShiftLsr => (v / 2, v % 2)
    case ShiftRol =>
      ShiftLeftCarry(v, cin);
      (Low8(v * 2 + cin), Bit(v * 2 + cin, 8))
    case ShiftRor => (v / 2 + cin * 128, v % 2)
  }

  /** Shifting a byte left (with a bit coming in) splits into a low byte and the old bit 7. */
  lemma ShiftLeftCarry(v: int, cin: int)
    requires IsByte(v) && IsBit(cin)
    ensures Low8(v * 2 + cin) + 256 * Bit(v, 7) == 2 * v + cin
    ensures Bit(v * 2 + cin, 8) == Bit(v, 7)
  {
    Bit7Byte(v);
    Bit8Sum(v * 2 + cin);
  }

  /**
   * op_ASLA, op_LSRA, op_ROLA, op_RORA: with A known (and C known for the
   * rotates) A' and C' are the shifted byte and the bit shifted out, N and Z
   * from A'. Otherwise A, N, Z and C are unknown afterwards.
   */
  function ShiftAcc(r: Regs, k: Shift): (r': Regs)
    requires Valid(r)
    ensures Valid(r')
    ensures r'.fail == r.fail
    ensures r.a.Known? && (UsesCarry(k) ==> r.c.Known?) ==>
      var out := ShiftOut(k, r.a.val, if r.c.Known? then r.c.val else 0);
      r' == r.(a := Known(out.0), c := Known(out.1),
               n := Known(BoolBit(out.0 >= 128)), z := Known(BoolBit(out.0 == 0)))
    ensures !(r.a.Known? && (UsesCarry(k) ==> r.c.Known?)) ==>
      r' == r.(a := Unknown, n := Unknown, z := Unknown, c := Unknown)
  {
    if r.a.Known? && (UsesCarry(k) ==> r.c.Known?) then
      var out := ShiftOut(k, r.a.val, if r.c.Known? then r.c.val else 0);
      Bit7Byte(out.0);
      SetNZ(r.(c := Known(out.1), a := Known(out.0)), out.0)
    else if UsesCarry(k) then
      ForgetNZC(r.(a := Unknown))
    else
      ForgetNZC(r)
  }

  /**
   * op_ASL, op_LSR, op_ROL, op_ROR on a memory operand: C, N and Z are
   * computed from the operand as the accumulator forms would, and the
   * shifted value itself is not kept. A rotate with C unknown forgets N, Z
   * and C instead.
   */
  function ShiftMem(r: Regs, k: Shift, operand: int): (r': Regs)
    requires Valid(r) && IsByte(operand)
    ensures Valid(r')
    ensures r'.fail == r.fail
    ensures !UsesCarry(k) || r.c.Known? ==>
      var out := ShiftOut(k, operand, if r.c.Known? then r.c.val else 0);
      r' == r.(c := Known(out.1), n := Known(BoolBit(out.0 >= 128)), z := Known(BoolBit(out.0 == 0)))
    ensures UsesCarry(k) && r.c.Unknown? ==> r' == r.(n := Unknown, z := Unknown, c := Unknown)
  {
    if UsesCarry(k) && r.c.Unknown? then
      ForgetNZC(r)
    else
      var out := ShiftOut(k, operand, if r.c.Known? then r.c.val else 0);
      Bit7Byte(out.0);
      SetNZ(r.(c := Known(out.1)), out.0)
  }

  /**
   * The eight branches. `whenSet` says whether the branch is taken when its
   * flag is 1 (BMI, BVS, BCS, BEQ) or when it is 0 (BPL, BVC, BCC, BNE).
   * A known flag is left as it is and the fault is raised exactly when the
   * observed outcome is not the one the flag predicts; an unknown flag
   * becomes the value the outcome reveals. Nothing else changes.
   */
  function Branch(r: Regs, f: Flag, whenSet: bool, taken: int): (r': Regs)
    requires Valid(r) && IsBit(taken)
    ensures Valid(r')
    ensures r.fail ==> r'.fail
    ensures GetFlag(r, f).Known? ==>
      r' == r.(fail := r.fail || BoolBit(GetFlag(r, f).val == BoolBit(whenSet)) != taken)
    ensures GetFlag(r, f).Unknown? ==>
      r' == PutFlag(r, f, Known(if whenSet then taken else 1 - taken))
    ensures BoolBit(GetFlag(r', f).val == BoolBit(whenSet)) == taken || r'.fail
  {
    var t := GetFlag(r, f);
    if t.Known? then
      if (if whenSet then t.val != taken else t.val == taken) then r.(fail := true) else r
    else
      PutFlag(r, f, Known(if whenSet then taken else 1 - taken))
  }

  /**
   * op_BIT_IMM and op_TSB_TRB: Z says whether A AND operand is zero when A
   * is known, and becomes unknown otherwise; nothing else changes.
   */
  function TestBits(r: Regs, operand: int): (r': Regs)
    requires Valid(r) && IsByte(operand)
    ensures Valid(r')
    ensures r'.fail == r.fail
    ensures r' == r.(z := if r.a.Known? then Known(BoolBit(And8(r.a.val, operand) == 0)) else Unknown)
  {
    if r.a.Known? then r.(z := Known(BoolBit(And8(r.a.val, operand) == 0))) else r.(z := Unknown)
  }

  /** op_BIT: N and V are bits 7 and 6 of the operand whatever A is; Z as for TestBits. */
  function BitMem(r: Regs, operand: int): (r': Regs)
    requires Valid(r) && IsByte(operand)
    ensures Valid(r')
    ensures r'.fail == r.fail
    ensures r'.n == Known(BoolBit(operand >= 128))
    ensures r'.v == Known(BoolBit(64 <= operand < 128 || 192 <= operand))
    ensures r' == TestBits(r, operand).(n := r'.n, v := r'.v)
  {
    Bit7Byte(operand);
    Bit6Byte(operand);
    TestBits(r.(n := Known(Bit(operand, 7)), v := Known(Bit(operand, 6))), operand)
  }

  /**
   * op_CMP, op_CPX, op_CPY. The compared register never changes. When it is
   * known, C says it is at least the operand, Z that it equals the operand,
   * and N is bit 7 of their difference modulo 256. When it is unknown
   * nothing at all changes.
   */
  function Compare(r: Regs, g: Reg, operand: int): (r': Regs)
    requires Valid(r) && IsByte(operand)
    ensures Valid(r')
    ensures r'.fail == r.fail
    ensures GetReg(r', g) == GetReg(r, g)
    ensures GetReg(r, g).Known? ==>
      var reg := GetReg(r, g).val;
      r' == r.(c := Known(BoolBit(reg >= operand)), z := Known(BoolBit(reg == operand)),
               n := Known(BoolBit((reg - operand) % 256 >= 128)))
    ensures GetReg(r, g).Unknown? ==> r' == r
  {
    var t := GetReg(r, g);
    if t.Known? then
      var tmp := t.val - operand;
      SetNZ(r.(c := Known(BoolBit(tmp >= 0))), tmp)
    else
      r
  }

  /**
   * op_INCA, op_DECA, op_INX, op_INY, op_DEX, op_DEY: a known register moves
   * by `delta` modulo 256 and N, Z follow it; an unknown register stays
   * unknown and N, Z are forgotten.
   */
  function Step(r: Regs, g: Reg, delta: int): (r': Regs)
    requires Valid(r) && g != RegS && (delta == 1 || delta == -1)
    ensures Valid(r')
    ensures r'.fail == r.fail
    ensures GetReg(r, g).Known? ==>
      var res := (GetReg(r, g).val + delta) % 256;
      r' == PutReg(r, g, Known(res)).(n := Known(BoolBit(res >= 128)), z := Known(BoolBit(res == 0)))
    ensures GetReg(r, g).Unknown? ==> r' == r.(n := Unknown, z := Unknown)
  {
    var t := GetReg(r, g);
    if t.Known? then
      var res := Low8(t.val + delta);
      Bit7Byte(res);
      SetNZ(PutReg(r, g, Known(res)), res)
    else
      ForgetNZ(r)
  }

  /** op_INC, op_DEC on memory: only N and Z change, from the operand moved by `delta` modulo 256. */
  function StepMem(r: Regs, delta: int, operand: int): (r': Regs)
    requires Valid(r) && IsByte(operand) && (delta == 1 || delta == -1)
    ensures Valid(r')
    ensures r'.fail == r.fail
    ensures var res := (operand + delta) % 256;
      r' == r.(n := Known(BoolBit(res >= 128)), z := Known(BoolBit(res == 0)))
  {
    var res := Low8(operand + delta);
    Bit7Byte(res);
    SetNZ(r, res)
  }

  /** op_LDA, op_LDX, op_LDY: the register becomes the operand, N and Z follow it. */
  function Load(r: Regs, g: Reg, operand: int): (r': Regs)
    requires Valid(r) && g != RegS && IsByte(operand)
    ensures Valid(r')
    ensures r'.fail == r.fail
    ensures r' == PutReg(r, g, Known(operand)).(n := Known(BoolBit(operand >= 128)),
                                                 z := Known(BoolBit(operand == 0)))
  {
    Bit7Byte(operand);
    SetNZ(PutReg(r, g, Known(operand)), operand)
  }

  /**
   * op_STA, op_STX, op_STY: the fault is raised exactly when the register is
   * known and differs from the byte observed being written; afterwards the
   * register is that byte, and no flag changes.
   */
  function Store(r: Regs, g: Reg, operand: int): (r': Regs)
    requires Valid(r) && g != RegS && IsByte(operand)
    ensures Valid(r')
    ensures GetReg(r', g) == Known(operand)
    ensures r'.fail == (r.fail || (GetReg(r, g).Known? && GetReg(r, g).val != operand))
    ensures r' == PutReg(r, g, Known(operand)).(fail := r'.fail)
  {
    var t := GetReg(r, g);
    var r1 := if t.Known? && operand != t.val then r.(fail := true) else r;
    PutReg(r1, g, Known(operand))
  }

  /** Moves a known S by `delta` modulo 256; an unknown S stays unknown. */
  function MoveS(r: Regs, delta: int): (r': Regs)
    requires Valid(r)
    ensures Valid(r')
    ensures r'.fail == r.fail
    ensures r.s.Known? ==> r' == r.(s := Known((r.s.val + delta) % 256))
    ensures r.s.Unknown? ==> r' == r
  {
    if r.s.Known? then r.(s := Known(Low8(r.s.val + delta))) else r
  }

  /** op_PHA, op_PHX, op_PHY: S moves down by one, then the register is stored as op_STA would. */
  function Push(r: Regs, g: Reg, operand: int): (r': Regs)
    requires Valid(r) && g != RegS && IsByte(operand)
    ensures Valid(r')
    ensures r' == Store(MoveS(r, -1), g, operand)
  {
    Store(MoveS(r, -1), g, operand)
  }

  /** op_PLA, op_PLX, op_PLY: the register is loaded as op_LDA would, then S moves up by one. */
  function Pull(r: Regs, g: Reg, operand: int): (r': Regs)
    requires Valid(r) && g != RegS && IsByte(operand)
    ensures Valid(r')
    ensures r'.fail == r.fail
    ensures r' == MoveS(Load(r, g, operand), 1)
  {
    MoveS(Load(r, g, operand), 1)
  }

  /**
   * op_PHP: S moves down by one; the pushed status byte is checked against
   * the known flags and then becomes the new flags.
   */
  function PushStatus(r: Regs, operand: int): (r': Regs)
    requires Valid(r) && IsByte(operand)
    ensures Valid(r')
    ensures r' == SetFlags(CheckFlags(MoveS(r, -1), operand), operand)
  {
    SetFlags(CheckFlags(MoveS(r, -1), operand), operand)
  }

  /**
   * op_PLP and op_RTI: the flags become the pulled status byte without any
   * check, then S moves up by `delta` (1 for PLP, 3 for RTI).
   */
  function PullStatus(r: Regs, operand: int, delta: int): (r': Regs)
    requires Valid(r) && IsByte(operand)
    ensures Valid(r')
    ensures r'.fail == r.fail
    ensures r' == MoveS(SetFlags(r, operand), delta)
  {
    MoveS(SetFlags(r, operand), delta)
  }

  /**
   * em_interrupt (and op_BRK): S moves down by three; the pushed status byte
   * is checked and becomes the flags; then I is 1 and D is 0 whatever the
   * byte said.
   */
  function Interrupt(r: Regs, operand: int): (r': Regs)
    requires Valid(r) && IsByte(operand)
    ensures Valid(r')
    ensures r'.i == Known(1) && r'.d == Known(0)
    ensures r'.n == Known(Bit(operand, 7)) && r'.v == Known(Bit(operand, 6))
    ensures r'.z == Known(Bit(operand, 1)) && r'.c == Known(Bit(operand, 0))
    ensures r'.fail == (r.fail || Mismatch(r, operand))
    ensures r'.a == r.a && r'.x == r.x && r'.y == r.y && r'.s == MoveS(r, -3).s
  {
    SetFlags(CheckFlags(MoveS(r, -3), operand), operand).(i := Known(1), d := Known(0))
  }

  /**
   * op_TAX, op_TAY, op_TSX, op_TXA, op_TYA: with the source known the
   * destination becomes it and N, Z follow; with the source unknown only N
   * and Z are forgotten and the destination keeps whatever it held.
   */
  function Transfer(r: Regs, src: Reg, dst: Reg): (r': Regs)
    requires Valid(r) && dst != RegS
    ensures Valid(r')
    ensures r'.fail == r.fail
    ensures GetReg(r, src).Known? ==>
      var v := GetReg(r, src).val;
      r' == PutReg(r, dst, Known(v)).(n := Known(BoolBit(v >= 128)), z := Known(BoolBit(v == 0)))
    ensures GetReg(r, src).Unknown? ==> r' == r.(n := Unknown, z := Unknown)
  {
    var t := GetReg(r, src);
    if t.Known? then
      Bit7Byte(t.val);
      SetNZ(PutReg(r, dst, t), t.val)
    else
      ForgetNZ(r)
  }

  /** op_TXS: with X known S becomes X; with X unknown S keeps whatever it held. No flag changes. */
  function Txs(r: Regs): (r': Regs)
    requires Valid(r)
    ensures Valid(r')
    ensures r'.fail == r.fail
    ensures r' == if r.x.Known? then r.(s := r.x) else r
  {
    if r.x.Known? then r.(s := r.x) else r
  }

  /** The only handlers that can raise the fault: the stores and pushes, PHP, BRK and the branches. */
  predicate CanFault(h: Handler) {
    h.STA? || h.STX? || h.STY? || h.PHA? || h.PHX? || h.PHY? || h.PHP? || h.BRK? || IsBranch(h)
  }

  /**
   * Runs one handler. The result is again a valid store, a fault already
   * raised is never cleared, and a new fault comes only from a handler that
   * compares an observation with the model.
   */
  function Exec(h: Handler, r: Regs, operand: int): (r': Regs)
    requires Valid(r) && OperandOk(h, operand)
    ensures Valid(r')
    ensures r.fail ==> r'.fail
    ensures r'.fail && !r.fail ==> CanFault(h)
  {
    match h
    case ADC => Adc(r, operand)
    case AND => Bitwise(r, LogicAnd, operand)
    case ASLA => ShiftAcc(r, ShiftAsl)
    case ASL => ShiftMem(r, ShiftAsl, operand)
    case BCC => Branch(r, FlagC, false, operand)
    case BCS => Branch(r, FlagC, true, operand)
    case BNE => Branch(r, FlagZ, false, operand)
    case BEQ => Branch(r, FlagZ, true, operand)
    case BPL => Branch(r, FlagN, false, operand)
    case BMI => Branch(r, FlagN, true, operand)
    case BVC => Branch(r, FlagV, false, operand)
    case BVS => Branch(r, FlagV, true, operand)
    case BRK => Interrupt(r, operand)
    case BIT_IMM => TestBits(r, operand)
    case BIT => BitMem(r, operand)
    case CLC => r.(c := Known(0))
    case CLD => r.(d := Known(0))
    case CLI => r.(i := Known(0))
    case CLV => r.(v := Known(0))
    case CMP => Compare(r, RegA, operand)
    case CPX => Compare(r, RegX, operand)
    case CPY => Compare(r, RegY, operand)
    case DECA => Step(r, RegA, -1)
    case DEC => StepMem(r, -1, operand)
    case DEX => Step(r, RegX, -1)
    case DEY => Step(r, RegY, -1)
    case EOR => Bitwise(r, LogicXor, operand)
    case INCA => Step(r, RegA, 1)
    case INC => StepMem(r, 1, operand)
    case INX => Step(r, RegX, 1)
    case INY => Step(r, RegY, 1)
    case JSR => MoveS(r, -2)
    case LDA => Load(r, RegA, operand)
    case LDX => Load(r, RegX, operand)
    case LDY => Load(r, RegY, operand)
    case LSRA => ShiftAcc(r, ShiftLsr)
    case LSR => ShiftMem(r, ShiftLsr, operand)
    case ORA => Bitwise(r, LogicOr, operand)
    case PHA => Push(r, RegA, operand)
    case PHP => PushStatus(r, operand)
    case PHX => Push(r, RegX, operand)
    case PHY => Push(r, RegY, operand)
    case PLA => Pull(r, RegA, operand)
    case PLP => PullStatus(r, operand, 1)
    case PLX => Pull(r, RegX, operand)
    case PLY => Pull(r, RegY, operand)
    case ROLA => ShiftAcc(r, ShiftRol)
    case ROL => ShiftMem(r, ShiftRol, operand)
    case RORA => ShiftAcc(r, ShiftRor)
    case ROR => ShiftMem(r, ShiftRor, operand)
    case RTS => MoveS(r, 2)
    case RTI => PullStatus(r, operand, 3)
    case SBC => Sbc(r, operand)
    case SEC => r.(c := Known(1))
    case SED => r.(d := Known(1))
    case SEI => r.(i := Known(1))
    case STA => Store(r, RegA, operand)
    case STX => Store(r, RegX, operand)
    case STY => Store(r, RegY, operand)
    case TAX => Transfer(r, RegA, RegX)
    case TAY => Transfer(r, RegA, RegY)
    case TSB_TRB => TestBits(r, operand)
    case TSX => Transfer(r, RegS, RegX)
    case TXA => Transfer(r, RegX, RegA)
    case TXS => Txs(r)
    case TYA => Transfer(r, RegY, RegA)
  }
}
