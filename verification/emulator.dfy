/**
 * The emulator itself: the ten global cells and the fault indicator of
 * src/em_6502.c:40-53 as the fields of one object, and every routine that
 * assigns them as a method. Each method follows the source's control flow
 * and is proved to leave exactly the store that the matching function of
 * Registers or Handlers describes, so everything proved about those
 * functions holds of the object.
 */
module Emulator {
  import opened TriState
  import opened Bits
  import opened Registers
  import opened Handlers
  import opened Renderer
  import opened Wrappers
  import opened Tables
  import opened Opcodes

  class Cpu {
    var A: Tri
    var X: Tri
    var Y: Tri
    var S: Tri
    var N: Tri
    var V: Tri
    var D: Tri
    var I: Tri
    var Z: Tri
    var C: Tri
    var failflag: bool

    /** The cells as a store value. */
    function Snapshot(): (r: Regs)
      reads this
    {
      Regs(A, X, Y, S, N, V, D, I, Z, C, failflag)
    }

    /** Known registers hold bytes and known flags hold bits. */
    predicate Valid()
      reads this
    {
      Registers.Valid(Snapshot())
    }

    /** Program start: every cell unknown, no fault pending. */
    constructor()
      ensures Snapshot() == Initial
    {
      A, X, Y, S := Unknown, Unknown, Unknown, Unknown;
      N, V, D, I, Z, C := Unknown, Unknown, Unknown, Unknown, Unknown, Unknown;
      failflag := false;
    }

    /** Assigns the cell of register `g`. */
    method SetReg(g: Reg, t: Tri)
      modifies this
      ensures Snapshot() == PutReg(old(Snapshot()), g, t)
    {
      match g
      case RegA => A := t;
      case RegX => X := t;
      case RegY => Y := t;
      case RegS => S := t;
    }

    /** Assigns the cell of flag `f`. */
    method SetFlag(f: Flag, t: Tri)
      modifies this
      ensures Snapshot() == PutFlag(old(Snapshot()), f, t)
    {
      match f
      case FlagN => N := t;
      case FlagV => V := t;
      case FlagD => D := t;
      case FlagI => I := t;
      case FlagZ => Z := t;
      case FlagC => C := t;
    }

    /** One test of check_NVDIZC: a known flag that differs from its bit of the status byte raises the fault. */
    method CheckBit(t: Tri, bit: int)
      modifies this
      ensures Snapshot() == old(Snapshot()).(fail := old(failflag) || Contradicts(t, bit))
    {
      if t.Known? {
        if t.val != bit {
          failflag := true;
        }
      }
    }

    /** check_NVDIZC (src/em_6502.c:60-91). */
    method CheckNVDIZC(operand: int)
      modifies this
      ensures Snapshot() == CheckFlags(old(Snapshot()), operand)
    {
      CheckBit(N, Bit(operand, 7));
      CheckBit(V, Bit(operand, 6));
      CheckBit(D, Bit(operand, 3));
      CheckBit(I, Bit(operand, 2));
      CheckBit(Z, Bit(operand, 1));
      CheckBit(C, Bit(operand, 0));
    }

    /** set_NVDIZC (src/em_6502.c:93-100). */
    method SetNVDIZC(operand: int)
      modifies this
      ensures Snapshot() == SetFlags(old(Snapshot()), operand)
    {
      N := Known(Bit(operand, 7));
      V := Known(Bit(operand, 6));
      D := Known(Bit(operand, 3));
      I := Known(Bit(operand, 2));
      Z := Known(Bit(operand, 1));
      C := Known(Bit(operand, 0));
    }

    /** set_NZ (src/em_6502.c:120-123): `(value & 128) > 0` is bit 7 of the value in two's complement. */
    method SetNZ(value: int)
      modifies this
      ensures Snapshot() == Registers.SetNZ(old(Snapshot()), value)
    {
      N := Known(Bit(value, 7));
      Z := Known(BoolBit(value == 0));
    }

    /** set_NZ_unknown */
    method ForgetNZ()
      modifies this
      ensures Snapshot() == Registers.ForgetNZ(old(Snapshot()))
    {
      N := Unknown;
      Z := Unknown;
    }

    /** set_NZC_unknown */
    method ForgetNZC()
      modifies this
      ensures Snapshot() == Registers.ForgetNZC(old(Snapshot()))
    {
      N := Unknown;
      Z := Unknown;
      C := Unknown;
    }

    /** set_NVZC_unknown */
    method ForgetNVZC()
      modifies this
      ensures Snapshot() == Registers.ForgetNVZC(old(Snapshot()))
    {
      N := Unknown;
      V := Unknown;
      Z := Unknown;
      C := Unknown;
    }

    /** A known S moves by `delta` modulo 256 (the stack bookkeeping shared by the push, pull, call and return handlers). */
    method MoveS(delta: int)
      requires Valid()
      modifies this
      ensures Snapshot() == Handlers.MoveS(old(Snapshot()), delta)
    {
      if S.Known? {
        S := Known(Low8(S.val + delta));
      }
    }

    /** em_interrupt (src/em_6502.c:125-133), also op_BRK. */
    method Interrupt(operand: int)
      requires Valid() && IsByte(operand)
      modifies this
      ensures Snapshot() == Handlers.Interrupt(old(Snapshot()), operand)
    {
      MoveS(-3);
      CheckNVDIZC(operand);
      SetNVDIZC(operand);
      I := Known(1);
      D := Known(0);
    }

    /** op_BRK (src/em_6502.c:302-304): the interrupt sequence. */
    method Brk(operand: int)
      requires Valid() && IsByte(operand)
      modifies this
      ensures Snapshot() == Exec(BRK, old(Snapshot()), operand)
    {
      Interrupt(operand);
    }

    /** op_JSR (src/em_6502.c:437-441): the return address takes two stack bytes. */
    method Jsr(operand: int)
      requires Valid() && IsByte(operand)
      modifies this
      ensures Snapshot() == Exec(JSR, old(Snapshot()), operand)
    {
      if S.Known? {
        S := Known(Low8(S.val - 2));
      }
    }

    /** op_RTS (src/em_6502.c:588-592). */
    method Rts(operand: int)
      requires Valid() && IsByte(operand)
      modifies this
      ensures Snapshot() == Exec(RTS, old(Snapshot()), operand)
    {
      if S.Known? {
        S := Known(Low8(S.val + 2));
      }
    }

    /** op_RTI (src/em_6502.c:594-599): the flags from the pulled byte, then three bytes off the stack. */
    method Rti(operand: int)
      requires Valid() && IsByte(operand)
      modifies this
      ensures Snapshot() == Exec(RTI, old(Snapshot()), operand)
    {
      SetNVDIZC(operand);
      if S.Known? {
        S := Known(Low8(S.val + 3));
      }
    }

    /** op_CLC (src/em_6502.c:324-326). */
    method Clc(operand: int)
      requires Valid() && IsByte(operand)
      modifies this
      ensures Snapshot() == Exec(CLC, old(Snapshot()), operand)
    {
      C := Known(0);
    }

    /** op_CLD (src/em_6502.c:328-330). */
    method Cld(operand: int)
      requires Valid() && IsByte(operand)
      modifies this
      ensures Snapshot() == Exec(CLD, old(Snapshot()), operand)
    {
      D := Known(0);
    }

    /** op_CLI (src/em_6502.c:332-334). */
    method Cli(operand: int)
      requires Valid() && IsByte(operand)
      modifies this
      ensures Snapshot() == Exec(CLI, old(Snapshot()), operand)
    {
      I := Known(0);
    }

    /** op_CLV (src/em_6502.c:336-338). */
    method Clv(operand: int)
      requires Valid() && IsByte(operand)
      modifies this
      ensures Snapshot() == Exec(CLV, old(Snapshot()), operand)
    {
      V := Known(0);
    }

    /** op_SEC (src/em_6502.c:615-617). */
    method Sec(operand: int)
      requires Valid() && IsByte(operand)
      modifies this
      ensures Snapshot() == Exec(SEC, old(Snapshot()), operand)
    {
      C := Known(1);
    }

    /** op_SED (src/em_6502.c:619-621). */
    method Sed(operand: int)
      requires Valid() && IsByte(operand)
      modifies this
      ensures Snapshot() == Exec(SED, old(Snapshot()), operand)
    {
      D := Known(1);
    }

    /** op_SEI (src/em_6502.c:623-625). */
    method Sei(operand: int)
      requires Valid() && IsByte(operand)
      modifies this
      ensures Snapshot() == Exec(SEI, old(Snapshot()), operand)
    {
      I := Known(1);
    }

    /** op_ADC (src/em_6502.c:183-195). */
    method Adc(operand: int)
      requires Valid() && IsByte(operand)
      modifies this
      ensures Snapshot() == Handlers.Adc(old(Snapshot()), operand)
    {
      if A.Known? && C.Known? {
        ghost var before := Snapshot();
        AdcOverflowBit(A.val, operand, C.val);
        var tmp := A.val + operand + C.val;
        C := Known(Bit(tmp, 8));
        V := Known(BoolBit(Bit(A.val, 7) == Bit(operand, 7) && Bit(A.val, 7) != Bit(tmp, 7)));
        A := Known(Low8(tmp));
        SetNZ(A.val);
        assert Snapshot() == AdcKnown(before, operand);
      } else {
        A := Unknown;
        ForgetNVZC();
      }
    }

    /** op_SBC (src/em_6502.c:601-613). */
    method Sbc(operand: int)
      requires Valid() && IsByte(operand)
      modifies this
      ensures Snapshot() == Handlers.Sbc(old(Snapshot()), operand)
    {
      if A.Known? && C.Known? {
        ghost var before := Snapshot();
        SbcOverflowBit(A.val, operand, C.val);
        var tmp := A.val - operand - (1 - C.val);
        C := Known(1 - Bit(tmp, 8));
        V := Known(BoolBit(Bit(A.val, 7) != Bit(operand, 7) && Bit(A.val, 7) != Bit(tmp, 7)));
        A := Known(Low8(tmp));
        SetNZ(A.val);
        assert Snapshot() == SbcKnown(before, operand);
      } else {
        A := Unknown;
        ForgetNVZC();
      }
    }

    /** op_AND, op_ORA, op_EOR (src/em_6502.c:197-204, 396-403, 474-481). */
    method Bitwise(k: Logic, operand: int)
      requires Valid() && IsByte(operand)
      modifies this
      ensures Snapshot() == Handlers.Bitwise(old(Snapshot()), k, operand)
    {
      if A.Known? {
        A := Known(Combine(k, A.val, operand));
        SetNZ(A.val);
      } else {
        ForgetNZ();
      }
    }

    /** op_ASLA, op_LSRA, op_ROLA, op_RORA: the shifts and rotates of A (src/em_6502.c:206-214, 458-466, 543-553, 566-576). */
    method ShiftAcc(k: Shift)
      requires Valid()
      modifies this
      ensures Snapshot() == Handlers.ShiftAcc(old(Snapshot()), k)
    {
      match k
      case ShiftAsl => Asla();
      case ShiftLsr => Lsra();
      case ShiftRol => Rola();
      case ShiftRor => Rora();
    }

    method Asla()
      requires Valid()
      modifies this
      ensures Snapshot() == Handlers.ShiftAcc(old(Snapshot()), ShiftAsl)
    {
      if A.Known? {
        C := Known(Bit(A.val, 7));
        A := Known(Low8(A.val * 2));
        SetNZ(A.val);
      } else {
        ForgetNZC();
      }
    }

    method Lsra()
      requires Valid()
      modifies this
      ensures Snapshot() == Handlers.ShiftAcc(old(Snapshot()), ShiftLsr)
    {
      if A.Known? {
        C := Known(A.val % 2);
        A := Known(A.val / 2);
        SetNZ(A.val);
      } else {
        ForgetNZC();
      }
    }

    method Rola()
      requires Valid()
      modifies this
      ensures Snapshot() == Handlers.ShiftAcc(old(Snapshot()), ShiftRol)
    {
      if A.Known? && C.Known? {
        var tmp := A.val * 2 + C.val;
        C := Known(Bit(tmp, 8));
        A := Known(Low8(tmp));
        SetNZ(A.val);
      } else {
        A := Unknown;
        ForgetNZC();
      }
    }

    method Rora()
      requires Valid()
      modifies this
      ensures Snapshot() == Handlers.ShiftAcc(old(Snapshot()), ShiftRor)
    {
      if A.Known? && C.Known? {
        var tmp := A.val / 2 + C.val * 128;
        assert ShiftOut(ShiftRor, A.val, C.val) == (tmp, A.val % 2);
        C := Known(A.val % 2);
        A := Known(tmp);
        SetNZ(A.val);
      } else {
        A := Unknown;
        ForgetNZC();
      }
    }

    /** op_ASL, op_LSR, op_ROL, op_ROR: the shifts and rotates of a memory operand (src/em_6502.c:216-220, 468-472, 555-564, 578-586). */
    method ShiftMem(k: Shift, operand: int)
      requires Valid() && IsByte(operand)
      modifies this
      ensures Snapshot() == Handlers.ShiftMem(old(Snapshot()), k, operand)
    {
      match k
      case ShiftAsl => Asl(operand);
      case ShiftLsr => Lsr(operand);
      case ShiftRol => Rol(operand);
      case ShiftRor => Ror(operand);
    }

    method Asl(operand: int)
      requires Valid() && IsByte(operand)
      modifies this
      ensures Snapshot() == Handlers.ShiftMem(old(Snapshot()), ShiftAsl, operand)
    {
      C := Known(Bit(operand, 7));
      var tmp := Low8(operand * 2);
      SetNZ(tmp);
    }

    method Lsr(operand: int)
      requires Valid() && IsByte(operand)
      modifies this
      ensures Snapshot() == Handlers.ShiftMem(old(Snapshot()), ShiftLsr, operand)
    {
      C := Known(operand % 2);
      var tmp := operand / 2;
      SetNZ(tmp);
    }

    method Rol(operand: int)
      requires Valid() && IsByte(operand)
      modifies this
      ensures Snapshot() == Handlers.ShiftMem(old(Snapshot()), ShiftRol, operand)
    {
      if C.Known? {
        var tmp := operand * 2 + C.val;
        C := Known(Bit(tmp, 8));
        tmp := Low8(tmp);
        SetNZ(tmp);
      } else {
        ForgetNZC();
      }
    }

    method Ror(operand: int)
      requires Valid() && IsByte(operand)
      modifies this
      ensures Snapshot() == Handlers.ShiftMem(old(Snapshot()), ShiftRor, operand)
    {
      if C.Known? {
        var tmp := operand / 2 + C.val * 128;
        C := Known(operand % 2);
        SetNZ(tmp);
      } else {
        ForgetNZC();
      }
    }

    /** The eight branch handlers (src/em_6502.c:222-300). */
    method Branch(f: Flag, whenSet: bool, taken: int)
      requires Valid() && IsBit(taken)
      modifies this
      ensures Snapshot() == Handlers.Branch(old(Snapshot()), f, whenSet, taken)
    {
      var t := GetFlag(Snapshot(), f);
      if t.Known? {
        if (whenSet && t.val != taken) || (!whenSet && t.val == taken) {
          failflag := true;
        }
      } else {
        SetFlag(f, Known(if whenSet then taken else 1 - taken));
      }
    }

    /** op_BIT_IMM and op_TSB_TRB (src/em_6502.c:306-312, 672-678). */
    method TestBits(operand: int)
      requires Valid() && IsByte(operand)
      modifies this
      ensures Snapshot() == Handlers.TestBits(old(Snapshot()), operand)
    {
      if A.Known? {
        Z := Known(BoolBit(And8(A.val, operand) == 0));
      } else {
        Z := Unknown;
      }
    }

    /** op_BIT (src/em_6502.c:314-322). */
    method BitMem(operand: int)
      requires Valid() && IsByte(operand)
      modifies this
      ensures Snapshot() == Handlers.BitMem(old(Snapshot()), operand)
    {
      N := Known(Bit(operand, 7));
      V := Known(Bit(operand, 6));
      TestBits(operand);
    }

    /** op_CMP, op_CPX, op_CPY (src/em_6502.c:340-362). */
    method Compare(g: Reg, operand: int)
      requires Valid() && IsByte(operand)
      modifies this
      ensures Snapshot() == Handlers.Compare(old(Snapshot()), g, operand)
    {
      var t := GetReg(Snapshot(), g);
      if t.Known? {
        var tmp := t.val - operand;
        C := Known(BoolBit(tmp >= 0));
        SetNZ(tmp);
      }
    }

    /** op_INCA, op_DECA, op_INX, op_INY, op_DEX, op_DEY (src/em_6502.c:364-371, 378-394, 405-412, 419-435). */
    method Step(g: Reg, delta: int)
      requires Valid() && g != RegS && (delta == 1 || delta == -1)
      modifies this
      ensures Snapshot() == Handlers.Step(old(Snapshot()), g, delta)
    {
      var t := GetReg(Snapshot(), g);
      if t.Known? {
        SetReg(g, Known(Low8(t.val + delta)));
        SetNZ(Low8(t.val + delta));
      } else {
        ForgetNZ();
      }
    }

    /** op_INC, op_DEC on memory (src/em_6502.c:373-376, 414-417). */
    method StepMem(delta: int, operand: int)
      requires Valid() && IsByte(operand) && (delta == 1 || delta == -1)
      modifies this
      ensures Snapshot() == Handlers.StepMem(old(Snapshot()), delta, operand)
    {
      var tmp := Low8(operand + delta);
      SetNZ(tmp);
    }

    /** op_LDA, op_LDX, op_LDY (src/em_6502.c:443-456). */
    method Load(g: Reg, operand: int)
      requires Valid() && g != RegS && IsByte(operand)
      modifies this
      ensures Snapshot() == Handlers.Load(old(Snapshot()), g, operand)
    {
      SetReg(g, Known(operand));
      SetNZ(operand);
    }

    /** op_STA, op_STX, op_STY (src/em_6502.c:627-652). */
    method Store(g: Reg, operand: int)
      requires Valid() && g != RegS && IsByte(operand)
      modifies this
      ensures Snapshot() == Handlers.Store(old(Snapshot()), g, operand)
    {
      var t := GetReg(Snapshot(), g);
      if t.Known? {
        if operand != t.val {
          failflag := true;
        }
      }
      SetReg(g, Known(operand));
    }

    /** op_PHA, op_PHX, op_PHY (src/em_6502.c:483-510). */
    method Push(g: Reg, operand: int)
      requires Valid() && g != RegS && IsByte(operand)
      modifies this
      ensures Snapshot() == Handlers.Push(old(Snapshot()), g, operand)
    {
      MoveS(-1);
      Store(g, operand);
    }

    /** op_PHP (src/em_6502.c:490-496). */
    method PushStatus(operand: int)
      requires Valid() && IsByte(operand)
      modifies this
      ensures Snapshot() == Handlers.PushStatus(old(Snapshot()), operand)
    {
      MoveS(-1);
      CheckNVDIZC(operand);
      SetNVDIZC(operand);
    }

    /** op_PLA, op_PLX, op_PLY (src/em_6502.c:512-518, 527-541). */
    method Pull(g: Reg, operand: int)
      requires Valid() && g != RegS && IsByte(operand)
      modifies this
      ensures Snapshot() == Handlers.Pull(old(Snapshot()), g, operand)
    {
      Load(g, operand);
      MoveS(1);
    }

    /** op_PLP and op_RTI (src/em_6502.c:520-525, 594-599). */
    method PullStatus(operand: int, delta: int)
      requires Valid() && IsByte(operand)
      modifies this
      ensures Snapshot() == Handlers.PullStatus(old(Snapshot()), operand, delta)
    {
      SetNVDIZC(operand);
      MoveS(delta);
    }

    /** op_TAX, op_TAY, op_TSX, op_TXA, op_TYA (src/em_6502.c:654-696, 704-711). */
    method Transfer(src: Reg, dst: Reg)
      requires Valid() && dst != RegS
      modifies this
      ensures Snapshot() == Handlers.Transfer(old(Snapshot()), src, dst)
    {
      var t := GetReg(Snapshot(), src);
      if t.Known? {
        SetReg(dst, t);
        SetNZ(t.val);
      } else {
        ForgetNZ();
      }
    }

    /** op_TXS (src/em_6502.c:698-702). */
    method Txs()
      requires Valid()
      modifies this
      ensures Snapshot() == Handlers.Txs(old(Snapshot()))
    {
      if X.Known? {
        S := X;
      }
    }

    /**
     * em_get_state (src/em_6502.c:143-180): returns the rendered snapshot of
     * the cells, with the annotation when a fault is pending, and clears the
     * fault indicator; nothing else changes. The characters the source writes
     * into its static buffer one cell at a time are those of `Render`.
     */
    method GetState() returns (text: string)
      requires Valid()
      modifies this
      ensures text == Render(old(Snapshot()))
      ensures Snapshot() == old(Snapshot()).(fail := false)
    {
      text := Render(Snapshot());
      failflag := false;
    }
  }
}
