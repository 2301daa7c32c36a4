/**
 * What the tri-state store is for: it describes every processor whose
 * registers and flags equal its known cells. `Machine` is a concrete
 * processor state, `Run` is what a 65C02 in binary mode does on each
 * instruction the handlers stand for (written from the instruction set,
 * not from the handlers; BRK clears D as on the 65C02), and `Explains` says
 * which observed operand such a processor could have produced: the byte it
 * stored or pushed, the status byte it pushed, the branch outcome its flags
 * dictate, and ADC or SBC only with D clear.
 *
 * The main theorem: if the store describes the processor and the
 * processor explains the observation, the handler raises no fault and the
 * new store describes the new processor state. It holds for every handler
 * except on the paths where the source keeps a value it should have
 * forgotten (a transfer or TXS from an unknown register into a known one,
 * a compare with an unknown register while N, Z or C is known, see
 * `Stale`); `StaleBreaksAgreement` shows it fails on every one of them.
 */
module Soundness {
  import opened TriState
  import opened Bits
  import opened Registers
  import opened Handlers

  datatype Machine = Machine(a: int, x: int, y: int, s: int,
                             n: int, v: int, d: int, i: int, z: int, c: int)

  predicate MachineValid(m: Machine) {
    IsByte(m.a) && IsByte(m.x) && IsByte(m.y) && IsByte(m.s) &&
    IsBit(m.n) && IsBit(m.v) && IsBit(m.d) && IsBit(m.i) && IsBit(m.z) && IsBit(m.c)
  }

  /** A cell describes a value when it is unknown or holds exactly that value. */
  predicate Fits(t: Tri, value: int) {
    t.Known? ==> t.val == value
  }

  /** The store describes the machine: every known cell holds the machine's value. */
  predicate Agrees(r: Regs, m: Machine) {
    Fits(r.a, m.a) && Fits(r.x, m.x) && Fits(r.y, m.y) && Fits(r.s, m.s) &&
    Fits(r.n, m.n) && Fits(r.v, m.v) && Fits(r.d, m.d) &&
    Fits(r.i, m.i) && Fits(r.z, m.z) && Fits(r.c, m.c)
  }

  function RegOf(m: Machine, g: Reg): (value: int) {
    match g
    case RegA => m.a
    case RegX => m.x
    case RegY => m.y
    case RegS => m.s
  }

  function WithReg(m: Machine, g: Reg, value: int): (m': Machine)
    ensures RegOf(m', g) == value
    ensures MachineValid(m) && IsByte(value) ==> MachineValid(m')
  {
    match g
    case RegA => m.(a := value)
    case RegX => m.(x := value)
    case RegY => m.(y := value)
    case RegS => m.(s := value)
  }

  function FlagOf(m: Machine, f: Flag): (bit: int) {
    match f
    case FlagN => m.n
    case FlagV => m.v
    case FlagD => m.d
    case FlagI => m.i
    case FlagZ => m.z
    case FlagC => m.c
  }

  function WithFlag(m: Machine, f: Flag, b: int): (m': Machine)
    ensures FlagOf(m', f) == b
  {
    match f
    case FlagN => m.(n := b)
    case FlagV => m.(v := b)
    case FlagD => m.(d := b)
    case FlagI => m.(i := b)
    case FlagZ => m.(z := b)
    case FlagC => m.(c := b)
  }

  /** The pushed status byte carries N, V, D, I, Z, C in bits 7, 6, 3, 2, 1, 0. */
  predicate StatusMatches(m: Machine, b: int) {
    forall f :: Bit(b, FlagPos(f)) == FlagOf(m, f)
  }

  /** N is the sign bit of the result and Z says whether it is zero. */
  function WithNZ(m: Machine, res: int): (m': Machine)
    ensures MachineValid(m) ==> MachineValid(m')
  {
    m.(n := if res >= 128 then 1 else 0, z := if res == 0 then 1 else 0)
  }

  function MoveStack(m: Machine, delta: int): (m': Machine)
    ensures MachineValid(m) ==> MachineValid(m')
  {
    m.(s := (m.s + delta) % 256)
  }

  /** The byte a shift or rotate produces and the bit it moves into the carry. */
  function Shifted(k: Shift, v: int, cin: int): (res: (int, int))
    requires IsByte(v) && IsBit(cin)
    ensures IsByte(res.0) && IsBit(res.1)
  {
    match k
    case ShiftAsl => ((2 * v) % 256, v / 128)
    case ShiftLsr => (v / 2, v % 2)
    case ShiftRol => ((2 * v + cin) % 256, (2 * v + cin) / 256)
    case ShiftRor => (v / 2 + 128 * cin, v % 2)
  }

  function RunAdc(m: Machine, operand: int): (m': Machine)
    requires MachineValid(m) && IsByte(operand)
    ensures MachineValid(m')
  {
    var sum := m.a + operand + m.c;
    var wide := Signed(m.a) + Signed(operand) + m.c;
    WithNZ(m.(a := sum % 256, c := if sum > 255 then 1 else 0,
              v := if -128 <= wide <= 127 then 0 else 1), sum % 256)
  }

  function RunSbc(m: Machine, operand: int): (m': Machine)
    requires MachineValid(m) && IsByte(operand)
    ensures MachineValid(m')
  {
    var diff := m.a - operand - (1 - m.c);
    var wide := Signed(m.a) - Signed(operand) - (1 - m.c);
    WithNZ(m.(a := diff % 256, c := if diff < 0 then 0 else 1,
              v := if -128 <= wide <= 127 then 0 else 1), diff % 256)
  }

  function RunCompare(m: Machine, g: Reg, operand: int): (m': Machine)
    ensures MachineValid(m) ==> MachineValid(m')
  {
    var reg := RegOf(m, g);
    m.(c := if reg >= operand then 1 else 0, z := if reg == operand then 1 else 0,
       n := if (reg - operand) % 256 >= 128 then 1 else 0)
  }

  /** A register steps by one, modulo 256; N and Z follow the result. */
  function RunStep(m: Machine, g: Reg, delta: int): (m': Machine)
    ensures MachineValid(m) && g != RegS ==> MachineValid(m')
  {
    var res := (RegOf(m, g) + delta) % 256;
    WithNZ(WithReg(m, g, res), res)
  }

  /** A register receives a byte; N and Z follow it. */
  function RunLoad(m: Machine, g: Reg, value: int): (m': Machine)
    ensures MachineValid(m) && g != RegS && IsByte(value) ==> MachineValid(m')
  {
    WithNZ(WithReg(m, g, value), value)
  }

  /** AND, ORA, EOR: A combines with the operand bit by bit; N and Z follow. */
  function RunLogic(m: Machine, k: Logic, operand: int): (m': Machine)
    requires MachineValid(m) && IsByte(operand)
    ensures MachineValid(m')
  {
    RunLoad(m, RegA, Combine(k, m.a, operand))
  }

  /** A shift or rotate of A through the carry. */
  function RunShiftAcc(m: Machine, k: Shift): (m': Machine)
    requires MachineValid(m)
    ensures MachineValid(m')
  {
    var t := Shifted(k, m.a, m.c);
    WithNZ(m.(a := t.0, c := t.1), t.0)
  }

  /** A shift or rotate of a memory byte: only C, N and Z change in the processor. */
  function RunShiftMem(m: Machine, k: Shift, operand: int): (m': Machine)
    requires MachineValid(m) && IsByte(operand)
    ensures MachineValid(m')
  {
    var t := Shifted(k, operand, m.c);
    WithNZ(m.(c := t.1), t.0)
  }

  /** What a processor does on each instruction, given the operand it read or the branch outcome. */
  function Run(h: Handler, m: Machine, operand: int): (m': Machine)
    requires MachineValid(m) && OperandOk(h, operand)
    ensures MachineValid(m')
  {
    match h
    case ADC => RunAdc(m, operand)
    case SBC => RunSbc(m, operand)
    case AND => RunLogic(m, LogicAnd, operand)
    case ORA => RunLogic(m, LogicOr, operand)
    case EOR => RunLogic(m, LogicXor, operand)
    case ASLA => RunShiftAcc(m, ShiftAsl)
    case LSRA => RunShiftAcc(m, ShiftLsr)
    case ROLA => RunShiftAcc(m, ShiftRol)
    case RORA => RunShiftAcc(m, ShiftRor)
    case ASL => RunShiftMem(m, ShiftAsl, operand)
    case LSR => RunShiftMem(m, ShiftLsr, operand)
    case ROL => RunShiftMem(m, ShiftRol, operand)
    case ROR => RunShiftMem(m, ShiftRor, operand)
    case BCC => m
    case BCS => m
    case BNE => m
    case BEQ => m
    case BPL => m
    case BMI => m
    case BVC => m
    case BVS => m
    case BRK => MoveStack(m, -3).(i := 1, d := 0)
    case BIT_IMM => m.(z := if And8(m.a, operand) == 0 then 1 else 0)
    case TSB_TRB => m.(z := if And8(m.a, operand) == 0 then 1 else 0)
    case BIT => m.(n := operand / 128, v := (operand / 64) % 2, z := if And8(m.a, operand) == 0 then 1 else 0)
    case CLC => m.(c := 0)
    case CLD => m.(d := 0)
    case CLI => m.(i := 0)
    case CLV => m.(v := 0)
    case SEC => m.(c := 1)
    case SED => m.(d := 1)
    case SEI => m.(i := 1)
    case CMP => RunCompare(m, RegA, operand)
    case CPX => RunCompare(m, RegX, operand)
    case CPY => RunCompare(m, RegY, operand)
    case DECA => RunStep(m, RegA, -1)
    case DEX => RunStep(m, RegX, -1)
    case DEY => RunStep(m, RegY, -1)
    case INCA => RunStep(m, RegA, 1)
    case INX => RunStep(m, RegX, 1)
    case INY => RunStep(m, RegY, 1)
    case DEC => WithNZ(m, (operand + 255) % 256)
    case INC => WithNZ(m, (operand + 1) % 256)
    case LDA => RunLoad(m, RegA, operand)
    case LDX => RunLoad(m, RegX, operand)
    case LDY => RunLoad(m, RegY, operand)
    case STA => m
    case STX => m
    case STY => m
    case PHA => MoveStack(m, -1)
    case PHX => MoveStack(m, -1)
    case PHY => MoveStack(m, -1)
    case PHP => MoveStack(m, -1)
    case PLA => MoveStack(RunLoad(m, RegA, operand), 1)
    case PLX => MoveStack(RunLoad(m, RegX, operand), 1)
    case PLY => MoveStack(RunLoad(m, RegY, operand), 1)
    case PLP => MoveStack(PulledStatus(m, operand), 1)
    case RTI => MoveStack(PulledStatus(m, operand), 3)
    case JSR => MoveStack(m, -2)
    case RTS => MoveStack(m, 2)
    case TAX => RunLoad(m, RegX, m.a)
    case TAY => RunLoad(m, RegY, m.a)
    case TSX => RunLoad(m, RegX, m.s)
    case TXA => RunLoad(m, RegA, m.x)
    case TYA => RunLoad(m, RegA, m.y)
    case TXS => m.(s := m.x)
  }

  /** The flags after PLP or RTI: the pulled byte's bits 7, 6, 3, 2, 1, 0. */
  function PulledStatus(m: Machine, b: int): (m': Machine)
    ensures StatusMatches(m', b)
    ensures MachineValid(m) ==> MachineValid(m')
  {
    m.(n := Bit(b, 7), v := Bit(b, 6), d := Bit(b, 3), i := Bit(b, 2), z := Bit(b, 1), c := Bit(b, 0))
  }

  /**
   * The observations a processor in state `m` can produce: a store or push
   * writes the register, PHP and BRK push the status, a branch is taken
   * exactly when its flag has the value it tests for. Any operand read
   * from memory can be observed. ADC and SBC are explained only in binary
   * mode (D clear): `Run` has no decimal arithmetic.
   */
  predicate Explains(h: Handler, m: Machine, operand: int) {
    match h
    case ADC => m.d == 0
    case SBC => m.d == 0
    case STA => operand == m.a
    case PHA => operand == m.a
    case STX => operand == m.x
    case PHX => operand == m.x
    case STY => operand == m.y
    case PHY => operand == m.y
    case PHP => StatusMatches(m, operand)
    case BRK => StatusMatches(m, operand)
    case BCC => operand == (if m.c == 0 then 1 else 0)
    case BCS => operand == (if m.c == 1 then 1 else 0)
    case BNE => operand == (if m.z == 0 then 1 else 0)
    case BEQ => operand == (if m.z == 1 then 1 else 0)
    case BPL => operand == (if m.n == 0 then 1 else 0)
    case BMI => operand == (if m.n == 1 then 1 else 0)
    case BVC => operand == (if m.v == 0 then 1 else 0)
    case BVS => operand == (if m.v == 1 then 1 else 0)
    case _ => true
  }

  /**
   * The paths on which the source keeps a value it should forget: a
   * transfer or TXS from an unknown register into a known destination leaves
   * the destination as it was, and a compare with an unknown register leaves
   * N, Z and C as they were while one of them is known.
   */
  predicate Stale(h: Handler, r: Regs) {
    match h
    case TAX => r.a.Unknown? && r.x.Known?
    case TAY => r.a.Unknown? && r.y.Known?
    case TSX => r.s.Unknown? && r.x.Known?
    case TXA => r.x.Unknown? && r.a.Known?
    case TYA => r.y.Unknown? && r.a.Known?
    case TXS => r.x.Unknown? && r.s.Known?
    case CMP => r.a.Unknown? && FlagsKnownByCompare(r)
    case CPX => r.x.Unknown? && FlagsKnownByCompare(r)
    case CPY => r.y.Unknown? && FlagsKnownByCompare(r)
    case _ => false
  }

  /** One of the flags a compare sets is known. */
  predicate FlagsKnownByCompare(r: Regs) {
    r.n.Known? || r.z.Known? || r.c.Known?
  }

  lemma AgreesGet(r: Regs, m: Machine, g: Reg)
    requires Agrees(r, m)
    ensures Fits(GetReg(r, g), RegOf(m, g))
  {
  }

  lemma AgreesPut(r: Regs, m: Machine, g: Reg, value: int)
    requires Agrees(r, m)
    ensures Agrees(PutReg(r, g, Known(value)), WithReg(m, g, value))
  {
  }

  lemma AdcSound(r: Regs, m: Machine, operand: int)
    requires Valid(r) && MachineValid(m) && IsByte(operand) && Agrees(r, m)
    ensures Agrees(Adc(r, operand), RunAdc(m, operand))
  {
  }

  lemma SbcSound(r: Regs, m: Machine, operand: int)
    requires Valid(r) && MachineValid(m) && IsByte(operand) && Agrees(r, m)
    ensures Agrees(Sbc(r, operand), RunSbc(m, operand))
  {
    if r.a.Known? && r.c.Known? {
      var diff := m.a - operand - (1 - m.c);
      var wide := Signed(m.a) - Signed(operand) - (1 - m.c);
      assert BoolBit(Overflows(wide)) == if -128 <= wide <= 127 then 0 else 1;
      assert BoolBit(diff >= 0) == if diff < 0 then 0 else 1;
      assert BoolBit(diff % 256 >= 128) == if diff % 256 >= 128 then 1 else 0;
    }
  }

  lemma BitwiseSound(r: Regs, m: Machine, k: Logic, operand: int)
    requires Valid(r) && MachineValid(m) && IsByte(operand) && Agrees(r, m)
    ensures Agrees(Bitwise(r, k, operand), RunLogic(m, k, operand))
  {
  }

  /** The handlers' shift arithmetic is the processor's. */
  lemma ShiftOutIsShifted(k: Shift, v: int, cin: int)
    requires IsByte(v) && IsBit(cin)
    ensures ShiftOut(k, v, cin) == Shifted(k, v, cin)
  {
  }

  /** The handlers' shift with the carry they feed in is the processor's, whose carry it equals when it matters. */
  lemma ShiftOutFits(k: Shift, v: int, cin: int, c: int)
    requires IsByte(v) && IsBit(cin) && IsBit(c) && (UsesCarry(k) ==> cin == c)
    ensures ShiftOut(k, v, cin) == Shifted(k, v, c)
  {
    ShiftOutIsShifted(k, v, cin);
  }

  lemma ShiftAccSound(r: Regs, m: Machine, k: Shift)
    requires Valid(r) && MachineValid(m) && Agrees(r, m)
    ensures Agrees(ShiftAcc(r, k), RunShiftAcc(m, k))
  {
    if r.a.Known? && (UsesCarry(k) ==> r.c.Known?) {
      ShiftOutFits(k, m.a, if r.c.Known? then r.c.val else 0, m.c);
    }
  }

  lemma ShiftMemSound(r: Regs, m: Machine, k: Shift, operand: int)
    requires Valid(r) && MachineValid(m) && IsByte(operand) && Agrees(r, m)
    ensures Agrees(ShiftMem(r, k, operand), RunShiftMem(m, k, operand))
  {
    if !UsesCarry(k) || r.c.Known? {
      ShiftOutFits(k, operand, if r.c.Known? then r.c.val else 0, m.c);
    }
  }

  /** A branch whose outcome the processor's flag explains raises no fault and leaves a flag that fits. */
  lemma BranchSound(r: Regs, m: Machine, f: Flag, whenSet: bool, taken: int)
    requires Valid(r) && MachineValid(m) && IsBit(taken) && Agrees(r, m)
    requires taken == (if FlagOf(m, f) == (if whenSet then 1 else 0) then 1 else 0)
    ensures Branch(r, f, whenSet, taken).fail == r.fail
    ensures Agrees(Branch(r, f, whenSet, taken), m)
  {
    match f
    case FlagN =>
    case FlagV =>
    case FlagD =>
    case FlagI =>
    case FlagZ =>
    case FlagC =>
  }

  lemma CompareSound(r: Regs, m: Machine, g: Reg, operand: int)
    requires Valid(r) && MachineValid(m) && IsByte(operand) && Agrees(r, m)
    requires GetReg(r, g).Known? || !FlagsKnownByCompare(r)
    ensures Agrees(Compare(r, g, operand), RunCompare(m, g, operand))
  {
    AgreesGet(r, m, g);
  }

  /** A register that receives a known byte, with N and Z set from it, fits the processor's load. */
  lemma KnownLoadSound(r: Regs, m: Machine, g: Reg, value: int)
    requires Agrees(r, m) && g != RegS
    ensures Agrees(PutReg(r, g, Known(value)).(n := Known(BoolBit(value >= 128)), z := Known(BoolBit(value == 0))),
                   RunLoad(m, g, value))
  {
    AgreesPut(r, m, g, value);
  }

  /** A register left unknown, with N and Z forgotten, fits whatever byte the processor loaded. */
  lemma UnknownLoadSound(r: Regs, m: Machine, g: Reg, value: int)
    requires Agrees(r, m) && GetReg(r, g).Unknown?
    ensures Agrees(r.(n := Unknown, z := Unknown), RunLoad(m, g, value))
  {
  }

  lemma StepSound(r: Regs, m: Machine, g: Reg, delta: int)
    requires Valid(r) && MachineValid(m) && Agrees(r, m) && g != RegS && (delta == 1 || delta == -1)
    ensures Agrees(Step(r, g, delta), RunStep(m, g, delta))
  {
    var res := (RegOf(m, g) + delta) % 256;
    assert RunStep(m, g, delta) == RunLoad(m, g, res);
    if GetReg(r, g).Known? {
      StepKnownSound(r, m, g, delta);
    } else {
      UnknownLoadSound(r, m, g, res);
    }
  }

  lemma StepKnownSound(r: Regs, m: Machine, g: Reg, delta: int)
    requires Valid(r) && Agrees(r, m) && g != RegS && (delta == 1 || delta == -1) && GetReg(r, g).Known?
    ensures Agrees(Step(r, g, delta), RunLoad(m, g, (RegOf(m, g) + delta) % 256))
  {
    match g
    case RegA =>
    case RegX =>
    case RegY =>
  }

  lemma LoadSound(r: Regs, m: Machine, g: Reg, operand: int)
    requires Valid(r) && MachineValid(m) && IsByte(operand) && Agrees(r, m) && g != RegS
    ensures Agrees(Load(r, g, operand), RunLoad(m, g, operand))
  {
    AgreesPut(r, m, g, operand);
  }

  /** A store of the register's own value raises no fault and changes nothing the processor did not. */
  lemma StoreSound(r: Regs, m: Machine, g: Reg, operand: int)
    requires Valid(r) && MachineValid(m) && IsByte(operand) && Agrees(r, m) && g != RegS
    requires operand == RegOf(m, g)
    ensures Store(r, g, operand).fail == r.fail
    ensures Agrees(Store(r, g, operand), m)
  {
    AgreesGet(r, m, g);
    AgreesPut(r, m, g, operand);
    assert WithReg(m, g, operand) == m;
  }

  lemma MoveSSound(r: Regs, m: Machine, delta: int)
    requires Valid(r) && Agrees(r, m)
    ensures Agrees(MoveS(r, delta), MoveStack(m, delta))
  {
  }

  lemma StatusSound(r: Regs, m: Machine, b: int)
    requires Agrees(r, m) && StatusMatches(m, b)
    ensures !Mismatch(r, b)
    ensures Agrees(SetFlags(r, b), m)
  {
    forall f
      ensures Fits(GetFlag(r, f), FlagOf(m, f))
    {
      match f
      case FlagN =>
      case FlagV =>
      case FlagD =>
      case FlagI =>
      case FlagZ =>
      case FlagC =>
    }
    assert Bit(b, FlagPos(FlagN)) == m.n && Bit(b, FlagPos(FlagV)) == m.v && Bit(b, FlagPos(FlagD)) == m.d;
    assert Bit(b, FlagPos(FlagI)) == m.i && Bit(b, FlagPos(FlagZ)) == m.z && Bit(b, FlagPos(FlagC)) == m.c;
  }

  lemma PulledStatusSound(r: Regs, m: Machine, b: int)
    requires Agrees(r, m)
    ensures Agrees(SetFlags(r, b), PulledStatus(m, b))
  {
  }

  lemma TransferSound(r: Regs, m: Machine, src: Reg, dst: Reg)
    requires Valid(r) && MachineValid(m) && Agrees(r, m) && dst != RegS
    requires GetReg(r, src).Known? || GetReg(r, dst).Unknown?
    ensures Agrees(Transfer(r, src, dst), RunLoad(m, dst, RegOf(m, src)))
  {
    if GetReg(r, src).Known? {
      AgreesGet(r, m, src);
      KnownLoadSound(r, m, dst, RegOf(m, src));
    } else {
      UnknownLoadSound(r, m, dst, RegOf(m, src));
    }
  }

  lemma TestBitsSound(r: Regs, m: Machine, operand: int)
    requires Valid(r) && MachineValid(m) && IsByte(operand) && Agrees(r, m)
    ensures Agrees(TestBits(r, operand), m.(z := if And8(m.a, operand) == 0 then 1 else 0))
  {
  }

  lemma BitMemSound(r: Regs, m: Machine, operand: int)
    requires Valid(r) && MachineValid(m) && IsByte(operand) && Agrees(r, m)
    ensures Agrees(BitMem(r, operand),
                   m.(n := operand / 128, v := (operand / 64) % 2, z := if And8(m.a, operand) == 0 then 1 else 0))
  {
  }

  lemma StepMemSound(r: Regs, m: Machine, delta: int, operand: int)
    requires Valid(r) && MachineValid(m) && IsByte(operand) && Agrees(r, m) && (delta == 1 || delta == -1)
    ensures Agrees(StepMem(r, delta, operand), WithNZ(m, (operand + delta) % 256))
  {
  }

  lemma PushSound(r: Regs, m: Machine, g: Reg, operand: int)
    requires Valid(r) && MachineValid(m) && IsByte(operand) && Agrees(r, m) && g != RegS
    requires operand == RegOf(m, g)
    ensures Push(r, g, operand).fail == r.fail
    ensures Agrees(Push(r, g, operand), MoveStack(m, -1))
  {
    MoveSSound(r, m, -1);
    StoreSound(MoveS(r, -1), MoveStack(m, -1), g, operand);
  }

  lemma PullSound(r: Regs, m: Machine, g: Reg, operand: int)
    requires Valid(r) && MachineValid(m) && IsByte(operand) && Agrees(r, m) && g != RegS
    ensures Agrees(Pull(r, g, operand), MoveStack(RunLoad(m, g, operand), 1))
  {
    LoadSound(r, m, g, operand);
    MoveSSound(Load(r, g, operand), RunLoad(m, g, operand), 1);
  }

  lemma PushStatusSound(r: Regs, m: Machine, operand: int)
    requires Valid(r) && MachineValid(m) && IsByte(operand) && Agrees(r, m)
    requires StatusMatches(m, operand)
    ensures PushStatus(r, operand).fail == r.fail
    ensures Agrees(PushStatus(r, operand), MoveStack(m, -1))
  {
    MoveSSound(r, m, -1);
    StatusSound(MoveS(r, -1), MoveStack(m, -1), operand);
  }

  lemma PullStatusSound(r: Regs, m: Machine, operand: int, delta: int)
    requires Valid(r) && MachineValid(m) && IsByte(operand) && Agrees(r, m)
    ensures Agrees(PullStatus(r, operand, delta), MoveStack(PulledStatus(m, operand), delta))
  {
    PulledStatusSound(r, m, operand);
    SetFlagsValid(r, operand);
    MoveSSound(SetFlags(r, operand), PulledStatus(m, operand), delta);
  }

  lemma InterruptSound(r: Regs, m: Machine, operand: int)
    requires Valid(r) && MachineValid(m) && IsByte(operand) && Agrees(r, m)
    requires StatusMatches(m, operand)
    ensures Interrupt(r, operand).fail == r.fail
    ensures Agrees(Interrupt(r, operand), MoveStack(m, -3).(i := 1, d := 0))
  {
    MoveSSound(r, m, -3);
    StatusSound(MoveS(r, -3), MoveStack(m, -3), operand);
    StatusSound(r, m, operand);
  }

  lemma TxsSound(r: Regs, m: Machine)
    requires Valid(r) && Agrees(r, m) && (r.x.Known? || r.s.Unknown?)
    ensures Agrees(Txs(r), m.(s := m.x))
  {
  }

  /** The main theorem for ADC, SBC and the logical operations. */
  lemma ArithSound(h: Handler, r: Regs, m: Machine, operand: int)
    requires h == ADC || h == SBC || h == AND || h == ORA || h == EOR
    requires Valid(r) && MachineValid(m) && OperandOk(h, operand)
    requires Agrees(r, m) && Explains(h, m, operand) && !Stale(h, r)
    ensures Exec(h, r, operand).fail == r.fail
    ensures Agrees(Exec(h, r, operand), Run(h, m, operand))
  {
    match h
    case ADC => AdcSound(r, m, operand);
    case SBC => SbcSound(r, m, operand);
    case AND => BitwiseSound(r, m, LogicAnd, operand);
    case ORA => BitwiseSound(r, m, LogicOr, operand);
    case EOR => BitwiseSound(r, m, LogicXor, operand);
  }

  /** The main theorem for the shifts and rotates of A. */
  lemma ShiftAccSoundAll(h: Handler, r: Regs, m: Machine, operand: int)
    requires h == ASLA || h == LSRA || h == ROLA || h == RORA
    requires Valid(r) && MachineValid(m) && OperandOk(h, operand)
    requires Agrees(r, m) && Explains(h, m, operand) && !Stale(h, r)
    ensures Exec(h, r, operand).fail == r.fail
    ensures Agrees(Exec(h, r, operand), Run(h, m, operand))
  {
    match h
    case ASLA => ShiftAccSound(r, m, ShiftAsl);
    case LSRA => ShiftAccSound(r, m, ShiftLsr);
    case ROLA => ShiftAccSound(r, m, ShiftRol);
    case RORA => ShiftAccSound(r, m, ShiftRor);
  }

  /** The main theorem for the shifts and rotates of memory. */
  lemma ShiftMemSoundAll(h: Handler, r: Regs, m: Machine, operand: int)
    requires h == ASL || h == LSR || h == ROL || h == ROR
    requires Valid(r) && MachineValid(m) && OperandOk(h, operand)
    requires Agrees(r, m) && Explains(h, m, operand) && !Stale(h, r)
    ensures Exec(h, r, operand).fail == r.fail
    ensures Agrees(Exec(h, r, operand), Run(h, m, operand))
  {
    match h
    case ASL => ShiftMemSound(r, m, ShiftAsl, operand);
    case LSR => ShiftMemSound(r, m, ShiftLsr, operand);
    case ROL => ShiftMemSound(r, m, ShiftRol, operand);
    case ROR => ShiftMemSound(r, m, ShiftRor, operand);
  }

  /** The main theorem for the branches on C and Z. */
  lemma CarryZeroBranchSound(h: Handler, r: Regs, m: Machine, operand: int)
    requires h == BCC || h == BCS || h == BNE || h == BEQ
    requires Valid(r) && MachineValid(m) && OperandOk(h, operand)
    requires Agrees(r, m) && Explains(h, m, operand) && !Stale(h, r)
    ensures Exec(h, r, operand).fail == r.fail
    ensures Agrees(Exec(h, r, operand), Run(h, m, operand))
  {
    match h
    case BCC => BranchSound(r, m, FlagC, false, operand);
    case BCS => BranchSound(r, m, FlagC, true, operand);
    case BNE => BranchSound(r, m, FlagZ, false, operand);
    case BEQ => BranchSound(r, m, FlagZ, true, operand);
  }

  /** The main theorem for the branches on N and V. */
  lemma SignOverflowBranchSound(h: Handler, r: Regs, m: Machine, operand: int)
    requires h == BPL || h == BMI || h == BVC || h == BVS
    requires Valid(r) && MachineValid(m) && OperandOk(h, operand)
    requires Agrees(r, m) && Explains(h, m, operand) && !Stale(h, r)
    ensures Exec(h, r, operand).fail == r.fail
    ensures Agrees(Exec(h, r, operand), Run(h, m, operand))
  {
    match h
    case BPL => BranchSound(r, m, FlagN, false, operand);
    case BMI => BranchSound(r, m, FlagN, true, operand);
    case BVC => BranchSound(r, m, FlagV, false, operand);
    case BVS => BranchSound(r, m, FlagV, true, operand);
  }

  /** The main theorem for the flag set and clear instructions. */
  lemma FlagOpSound(h: Handler, r: Regs, m: Machine, operand: int)
    requires h == CLC || h == CLD || h == CLI || h == CLV || h == SEC || h == SED || h == SEI
    requires Valid(r) && MachineValid(m) && OperandOk(h, operand)
    requires Agrees(r, m) && Explains(h, m, operand) && !Stale(h, r)
    ensures Exec(h, r, operand).fail == r.fail
    ensures Agrees(Exec(h, r, operand), Run(h, m, operand))
  {
    match h
    case CLC => FlagOpFits(r, m, FlagC, 0);
    case CLD => FlagOpFits(r, m, FlagD, 0);
    case CLI => FlagOpFits(r, m, FlagI, 0);
    case CLV => FlagOpFits(r, m, FlagV, 0);
    case SEC => FlagOpFits(r, m, FlagC, 1);
    case SED => FlagOpFits(r, m, FlagD, 1);
    case SEI => FlagOpFits(r, m, FlagI, 1);
  }

  /** Setting a flag to the same bit in the store and the machine keeps agreement. */
  lemma FlagOpFits(r: Regs, m: Machine, f: Flag, b: int)
    requires Agrees(r, m)
    ensures Agrees(PutFlag(r, f, Known(b)), WithFlag(m, f, b))
  {
  }

  /** The main theorem for the bit tests. */
  lemma BitTestSound(h: Handler, r: Regs, m: Machine, operand: int)
    requires h == BIT_IMM || h == TSB_TRB || h == BIT
    requires Valid(r) && MachineValid(m) && OperandOk(h, operand)
    requires Agrees(r, m) && Explains(h, m, operand) && !Stale(h, r)
    ensures Exec(h, r, operand).fail == r.fail
    ensures Agrees(Exec(h, r, operand), Run(h, m, operand))
  {
    match h
    case BIT_IMM => TestBitsSound(r, m, operand);
    case TSB_TRB => TestBitsSound(r, m, operand);
    case BIT => BitMemSound(r, m, operand);
  }

  /** The main theorem for the comparisons. */
  lemma CompareSoundAll(h: Handler, r: Regs, m: Machine, operand: int)
    requires h == CMP || h == CPX || h == CPY
    requires Valid(r) && MachineValid(m) && OperandOk(h, operand)
    requires Agrees(r, m) && Explains(h, m, operand) && !Stale(h, r)
    ensures Exec(h, r, operand).fail == r.fail
    ensures Agrees(Exec(h, r, operand), Run(h, m, operand))
  {
    match h
    case CMP => CompareSound(r, m, RegA, operand);
    case CPX => CompareSound(r, m, RegX, operand);
    case CPY => CompareSound(r, m, RegY, operand);
  }

  /** The main theorem for the register increments and decrements. */
  lemma StepSoundAll(h: Handler, r: Regs, m: Machine, operand: int)
    requires h == DECA || h == DEX || h == DEY || h == INCA || h == INX || h == INY
    requires Valid(r) && MachineValid(m) && OperandOk(h, operand)
    requires Agrees(r, m) && Explains(h, m, operand) && !Stale(h, r)
    ensures Exec(h, r, operand).fail == r.fail
    ensures Agrees(Exec(h, r, operand), Run(h, m, operand))
  {
    match h
    case DECA => StepSound(r, m, RegA, -1);
    case DEX => StepSound(r, m, RegX, -1);
    case DEY => StepSound(r, m, RegY, -1);
    case INCA => StepSound(r, m, RegA, 1);
    case INX => StepSound(r, m, RegX, 1);
    case INY => StepSound(r, m, RegY, 1);
  }

  /** The main theorem for the memory increments and decrements. */
  lemma StepMemSoundAll(h: Handler, r: Regs, m: Machine, operand: int)
    requires h == DEC || h == INC
    requires Valid(r) && MachineValid(m) && OperandOk(h, operand)
    requires Agrees(r, m) && Explains(h, m, operand) && !Stale(h, r)
    ensures Exec(h, r, operand).fail == r.fail
    ensures Agrees(Exec(h, r, operand), Run(h, m, operand))
  {
    match h
    case DEC => StepMemSound(r, m, -1, operand);
    case INC => StepMemSound(r, m, 1, operand);
  }

  /** The main theorem for the loads. */
  lemma LoadSoundAll(h: Handler, r: Regs, m: Machine, operand: int)
    requires h == LDA || h == LDX || h == LDY
    requires Valid(r) && MachineValid(m) && OperandOk(h, operand)
    requires Agrees(r, m) && Explains(h, m, operand) && !Stale(h, r)
    ensures Exec(h, r, operand).fail == r.fail
    ensures Agrees(Exec(h, r, operand), Run(h, m, operand))
  {
    match h
    case LDA => LoadSound(r, m, RegA, operand);
    case LDX => LoadSound(r, m, RegX, operand);
    case LDY => LoadSound(r, m, RegY, operand);
  }

  /** The main theorem for the stores and register pushes. */
  lemma StorePushSound(h: Handler, r: Regs, m: Machine, operand: int)
    requires h == STA || h == STX || h == STY || h == PHA || h == PHX || h == PHY
    requires Valid(r) && MachineValid(m) && OperandOk(h, operand)
    requires Agrees(r, m) && Explains(h, m, operand) && !Stale(h, r)
    ensures Exec(h, r, operand).fail == r.fail
    ensures Agrees(Exec(h, r, operand), Run(h, m, operand))
  {
    match h
    case STA => StoreSound(r, m, RegA, operand);
    case STX => StoreSound(r, m, RegX, operand);
    case STY => StoreSound(r, m, RegY, operand);
    case PHA => PushSound(r, m, RegA, operand);
    case PHX => PushSound(r, m, RegX, operand);
    case PHY => PushSound(r, m, RegY, operand);
  }

  /** The main theorem for the pulls. */
  lemma PullSoundAll(h: Handler, r: Regs, m: Machine, operand: int)
    requires h == PLA || h == PLX || h == PLY || h == PLP || h == RTI
    requires Valid(r) && MachineValid(m) && OperandOk(h, operand)
    requires Agrees(r, m) && Explains(h, m, operand) && !Stale(h, r)
    ensures Exec(h, r, operand).fail == r.fail
    ensures Agrees(Exec(h, r, operand), Run(h, m, operand))
  {
    match h
    case PLA => PullSound(r, m, RegA, operand);
    case PLX => PullSound(r, m, RegX, operand);
    case PLY => PullSound(r, m, RegY, operand);
    case PLP => PullStatusSound(r, m, operand, 1);
    case RTI => PullStatusSound(r, m, operand, 3);
  }

  /** The main theorem for PHP, BRK, JSR and RTS. */
  lemma CallSound(h: Handler, r: Regs, m: Machine, operand: int)
    requires h == PHP || h == BRK || h == JSR || h == RTS
    requires Valid(r) && MachineValid(m) && OperandOk(h, operand)
    requires Agrees(r, m) && Explains(h, m, operand) && !Stale(h, r)
    ensures Exec(h, r, operand).fail == r.fail
    ensures Agrees(Exec(h, r, operand), Run(h, m, operand))
  {
    match h
    case PHP => PushStatusSound(r, m, operand);
    case BRK => InterruptSound(r, m, operand);
    case JSR => MoveSSound(r, m, -2);
    case RTS => MoveSSound(r, m, 2);
  }

  /** The main theorem for the transfers. */
  lemma TransferSoundAll(h: Handler, r: Regs, m: Machine, operand: int)
    requires h == TAX || h == TAY || h == TSX || h == TXA || h == TYA || h == TXS
    requires Valid(r) && MachineValid(m) && OperandOk(h, operand)
    requires Agrees(r, m) && Explains(h, m, operand) && !Stale(h, r)
    ensures Exec(h, r, operand).fail == r.fail
    ensures Agrees(Exec(h, r, operand), Run(h, m, operand))
  {
    match h
    case TAX => TransferSound(r, m, RegA, RegX);
    case TAY => TransferSound(r, m, RegA, RegY);
    case TSX => TransferSound(r, m, RegS, RegX);
    case TXA => TransferSound(r, m, RegX, RegA);
    case TYA => TransferSound(r, m, RegY, RegA);
    case TXS => TxsSound(r, m);
  }

  /**
   * The main theorem: a handler given an operand the processor explains,
   * off the stale paths, raises no fault, and the store it leaves describes
   * the processor's next state.
   */
  lemma ExecSound(h: Handler, r: Regs, m: Machine, operand: int)
    requires Valid(r) && MachineValid(m) && OperandOk(h, operand)
    requires Agrees(r, m) && Explains(h, m, operand) && !Stale(h, r)
    ensures Exec(h, r, operand).fail == r.fail
    ensures Agrees(Exec(h, r, operand), Run(h, m, operand))
  {
    if h == ADC || h == SBC || h == AND || h == ORA || h == EOR {
      ArithSound(h, r, m, operand);
    } else if h == ASLA || h == LSRA || h == ROLA || h == RORA {
      ShiftAccSoundAll(h, r, m, operand);
    } else if h == ASL || h == LSR || h == ROL || h == ROR {
      ShiftMemSoundAll(h, r, m, operand);
    } else if h == BCC || h == BCS || h == BNE || h == BEQ {
      CarryZeroBranchSound(h, r, m, operand);
    } else if h == BPL || h == BMI || h == BVC || h == BVS {
      SignOverflowBranchSound(h, r, m, operand);
    } else if h == CLC || h == CLD || h == CLI || h == CLV || h == SEC || h == SED || h == SEI {
      FlagOpSound(h, r, m, operand);
    } else if h == BIT_IMM || h == TSB_TRB || h == BIT {
      BitTestSound(h, r, m, operand);
    } else if h == CMP || h == CPX || h == CPY {
      CompareSoundAll(h, r, m, operand);
    } else if h == DECA || h == DEX || h == DEY || h == INCA || h == INX || h == INY {
      StepSoundAll(h, r, m, operand);
    } else if h == DEC || h == INC {
      StepMemSoundAll(h, r, m, operand);
    } else if h == LDA || h == LDX || h == LDY {
      LoadSoundAll(h, r, m, operand);
    } else if h == STA || h == STX || h == STY || h == PHA || h == PHX || h == PHY {
      StorePushSound(h, r, m, operand);
    } else if h == PLA || h == PLX || h == PLY || h == PLP || h == RTI {
      PullSoundAll(h, r, m, operand);
    } else if h == PHP || h == BRK || h == JSR || h == RTS {
      CallSound(h, r, m, operand);
    } else {
      TransferSoundAll(h, r, m, operand);
    }
  }

  /** The store at start-up describes every processor. */
  lemma InitialDescribesAll(m: Machine)
    ensures Agrees(Initial, m)
  {
  }

  /**
   * A transfer from an unknown register keeps the destination's old value:
   * after TAX with A unknown and X known to be 0, a processor whose A was 1
   * holds 1 in X while the store still says 0.
   */
  lemma TransferFromUnknownIsStale()
    ensures var r, m := Initial.(x := Known(0)), Machine(1, 0, 0, 0, 0, 0, 0, 0, 0, 0);
      Valid(r) && MachineValid(m) && Agrees(r, m) && Explains(TAX, m, 0) && Stale(TAX, r) &&
      !Agrees(Exec(TAX, r, 0), Run(TAX, m, 0))
  {
    var r, m := Initial.(x := Known(0)), Machine(1, 0, 0, 0, 0, 0, 0, 0, 0, 0);
    assert Exec(TAX, r, 0) == Transfer(r, RegA, RegX);
    assert Run(TAX, m, 0) == RunLoad(m, RegX, 1);
    assert Exec(TAX, r, 0).x == Known(0);
  }

  /** The same for TXS: S keeps its old value although the processor copied X into it. */
  lemma TxsFromUnknownIsStale()
    ensures var r, m := Initial.(s := Known(0)), Machine(0, 1, 0, 0, 0, 0, 0, 0, 0, 0);
      Valid(r) && MachineValid(m) && Agrees(r, m) && Explains(TXS, m, 0) && Stale(TXS, r) &&
      !Agrees(Exec(TXS, r, 0), Run(TXS, m, 0))
  {
    var r, m := Initial.(s := Known(0)), Machine(0, 1, 0, 0, 0, 0, 0, 0, 0, 0);
    assert Exec(TXS, r, 0) == Txs(r);
    assert Run(TXS, m, 0) == m.(s := 1);
    assert Exec(TXS, r, 0).s == Known(0);
  }

  /**
   * A comparison against an unknown register keeps C, Z and N: with A
   * unknown and C known to be 0, CMP #0 on a processor whose A is 1 sets
   * its carry, while the store still says 0.
   */
  lemma CompareUnknownIsStale()
    ensures var r, m := Initial.(c := Known(0)), Machine(1, 0, 0, 0, 0, 0, 0, 0, 0, 0);
      Valid(r) && MachineValid(m) && Agrees(r, m) && Explains(CMP, m, 0) && Stale(CMP, r) &&
      !Agrees(Exec(CMP, r, 0), Run(CMP, m, 0))
  {
    var r, m := Initial.(c := Known(0)), Machine(1, 0, 0, 0, 0, 0, 0, 0, 0, 0);
    assert Exec(CMP, r, 0) == Compare(r, RegA, 0);
    assert Run(CMP, m, 0).c == 1;
    assert Exec(CMP, r, 0).c == Known(0);
  }

  /** The machine value a cell shows, with 0 standing for an unknown cell. */
  function ValueOr(t: Tri): (v: int)
    ensures t.Known? ==> v == t.val
    ensures KnownByte(t) ==> IsByte(v)
  {
    if t.Known? then t.val else 0
  }

  /** A processor every valid store describes: the known cells' values, 0 elsewhere. */
  function Witness(r: Regs): (m: Machine)
    requires Valid(r)
    ensures MachineValid(m) && Agrees(r, m)
  {
    Machine(ValueOr(r.a), ValueOr(r.x), ValueOr(r.y), ValueOr(r.s),
            ValueOr(r.n), ValueOr(r.v), ValueOr(r.d), ValueOr(r.i), ValueOr(r.z), ValueOr(r.c))
  }

  /** An unknown register fits any value the processor holds there. */
  lemma AgreesAnyUnknownReg(r: Regs, m: Machine, g: Reg, value: int)
    requires Agrees(r, m) && GetReg(r, g).Unknown?
    ensures Agrees(r, WithReg(m, g, value))
  {
    match g
    case RegA =>
    case RegX =>
    case RegY =>
    case RegS =>
  }

  /** A cell that misfits its machine value breaks agreement. */
  lemma MisfitBreaks(r: Regs, m: Machine, g: Reg)
    requires !Fits(GetReg(r, g), RegOf(m, g))
    ensures !Agrees(r, m)
  {
    match g
    case RegA =>
    case RegX =>
    case RegY =>
    case RegS =>
  }

  /**
   * Every stale transfer is unsound: with the source unknown and the
   * destination known, a processor whose source holds another value agrees
   * with the store before the transfer and not after it.
   */
  lemma TransferStaleBreaks(r: Regs, src: Reg, dst: Reg) returns (m: Machine)
    requires Valid(r) && dst != RegS && src != dst
    requires GetReg(r, src).Unknown? && GetReg(r, dst).Known?
    ensures MachineValid(m) && Agrees(r, m)
    ensures !Agrees(Transfer(r, src, dst), RunLoad(m, dst, RegOf(m, src)))
  {
    var value := (GetReg(r, dst).val + 1) % 256;
    m := WithReg(Witness(r), src, value);
    AgreesAnyUnknownReg(r, Witness(r), src, value);
    var after := RunLoad(m, dst, RegOf(m, src));
    assert RegOf(after, dst) == value;
    MisfitBreaks(Transfer(r, src, dst), after, dst);
  }

  /** The same for TXS: with X unknown and S known, a processor whose X differs from S. */
  lemma TxsStaleBreaks(r: Regs) returns (m: Machine)
    requires Valid(r) && r.x.Unknown? && r.s.Known?
    ensures MachineValid(m) && Agrees(r, m)
    ensures !Agrees(Txs(r), m.(s := m.x))
  {
    m := Witness(r).(x := (r.s.val + 1) % 256);
  }

  /**
   * Every stale compare is unsound: with the register unknown and one of
   * C, Z, N known, some register value and operand set that flag the other
   * way on the processor.
   */
  lemma CompareStaleBreaks(r: Regs, g: Reg) returns (m: Machine, operand: int)
    requires Valid(r) && GetReg(r, g).Unknown? && FlagsKnownByCompare(r)
    ensures MachineValid(m) && IsByte(operand) && Agrees(r, m)
    ensures !Agrees(Compare(r, g, operand), RunCompare(m, g, operand))
  {
    var pick := if r.c.Known? then (if r.c.val == 0 then (1, 0) else (0, 1))
                else if r.z.Known? then (if r.z.val == 0 then (0, 0) else (1, 0))
                else (if r.n.val == 0 then (0, 1) else (0, 0));
    var value := pick.0;
    operand := pick.1;
    m := WithReg(Witness(r), g, value);
    AgreesAnyUnknownReg(r, Witness(r), g, value);
  }

  /**
   * The stale paths are exactly where the theorem fails: on each of them
   * some processor the store describes, with an observation it explains,
   * disagrees with the store after the handler.
   */
  lemma StaleBreaksAgreement(h: Handler, r: Regs) returns (m: Machine, operand: int)
    requires Valid(r) && Stale(h, r)
    ensures MachineValid(m) && OperandOk(h, operand) && Agrees(r, m) && Explains(h, m, operand)
    ensures !Agrees(Exec(h, r, operand), Run(h, m, operand))
  {
    match h
    case TAX => m := TransferStaleBreaks(r, RegA, RegX); operand := 0;
    case TAY => m := TransferStaleBreaks(r, RegA, RegY); operand := 0;
    case TSX => m := TransferStaleBreaks(r, RegS, RegX); operand := 0;
    case TXA => m := TransferStaleBreaks(r, RegX, RegA); operand := 0;
    case TYA => m := TransferStaleBreaks(r, RegY, RegA); operand := 0;
    case TXS => m := TxsStaleBreaks(r); operand := 0;
    case CMP => m, operand := CompareStaleBreaks(r, RegA);
    case CPX => m, operand := CompareStaleBreaks(r, RegX);
    case CPY => m, operand := CompareStaleBreaks(r, RegY);
  }

  /** One instruction as the driver reports it: the handler and its operand or branch outcome. */
  datatype Event = Event(h: Handler, operand: int)

  predicate EventsOk(events: seq<Event>) {
    forall k :: 0 <= k < |events| ==> OperandOk(events[k].h, events[k].operand)
  }

  /** The store after the handlers of a whole trace, in order. */
  function ExecAll(r: Regs, events: seq<Event>): (r': Regs)
    requires Valid(r) && EventsOk(events)
    ensures Valid(r')
    ensures r.fail ==> r'.fail
    decreases |events|
  {
    if |events| == 0 then r
    else ExecAll(Exec(events[0].h, r, events[0].operand), events[1..])
  }

  /** The processor state after the instructions of a whole trace. */
  function RunAll(m: Machine, events: seq<Event>): (m': Machine)
    requires MachineValid(m) && EventsOk(events)
    ensures MachineValid(m')
    decreases |events|
  {
    if |events| == 0 then m
    else RunAll(Run(events[0].h, m, events[0].operand), events[1..])
  }

  /** The processor explains every event of the trace and the store is never on a stale path. */
  predicate Consistent(r: Regs, m: Machine, events: seq<Event>)
    requires Valid(r) && MachineValid(m) && EventsOk(events)
    decreases |events|
  {
    |events| == 0 ||
    (Explains(events[0].h, m, events[0].operand) && !Stale(events[0].h, r) &&
     Consistent(Exec(events[0].h, r, events[0].operand), Run(events[0].h, m, events[0].operand), events[1..]))
  }

  /** The main theorem over a whole trace. */
  lemma {:induction false} TraceSound(r: Regs, m: Machine, events: seq<Event>)
    requires Valid(r) && MachineValid(m) && EventsOk(events)
    requires Agrees(r, m) && Consistent(r, m, events)
    ensures ExecAll(r, events).fail == r.fail
    ensures Agrees(ExecAll(r, events), RunAll(m, events))
    decreases |events|
  {
    if |events| > 0 {
      var e := events[0];
      ExecSound(e.h, r, m, e.operand);
      TraceSound(Exec(e.h, r, e.operand), Run(e.h, m, e.operand), events[1..]);
    }
  }

  /**
   * What "prediction failed" means: starting from the all-unknown store,
   * the fault is raised only by a trace that no binary-mode 65C02 could
   * have produced along a path off the stale cases.
   */
  lemma FaultRulesOutEveryMachine(m: Machine, events: seq<Event>)
    requires MachineValid(m) && EventsOk(events)
    requires ExecAll(Initial, events).fail
    ensures !Consistent(Initial, m, events)
  {
    if Consistent(Initial, m, events) {
      TraceSound(Initial, m, events);
    }
  }
}
