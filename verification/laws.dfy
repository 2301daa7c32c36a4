/**
 * Laws relating the handlers of src/em_6502.c to one another: SBC is ADC
 * of the complemented operand, CMP computes SBC's flags with the carry
 * set, branches reveal their flag and then hold it, stack pointer moves
 * compose and cancel, and a store after a load faults exactly when the
 * bytes differ.
 */
module HandlerLaws {
  import opened TriState
  import opened Bits
  import opened Registers
  import opened Handlers

  /** Signed reading of the one's complement of a byte. */
  lemma SignedComplement(x: int)
    requires IsByte(x)
    ensures Signed(255 - x) == -1 - Signed(x)
  {
  }

  /** In binary mode SBC of a byte is ADC of its one's complement (255 - operand). */
  lemma {:induction false} SbcIsAdcOfComplement(r: Regs, operand: int)
    requires Valid(r) && IsByte(operand)
    ensures Sbc(r, operand) == Adc(r, 255 - operand)
  {
    if r.a.Known? && r.c.Known? {
      var a, c := r.a.val, r.c.val;
      var diff := a - operand - (1 - c);
      var sum := a + (255 - operand) + c;
      assert sum == diff + 256;
      assert sum % 256 == diff % 256;
      SignedComplement(operand);
      assert Signed(a) + Signed(255 - operand) + c == Signed(a) - Signed(operand) - (1 - c);
    }
  }

  /**
   * CMP, CPX and CPY set N, Z and C exactly as SBC would with the carry set
   * and the compared register in A; they keep the difference nowhere.
   */
  lemma CompareIsSubtraction(r: Regs, g: Reg, operand: int)
    requires Valid(r) && IsByte(operand) && g != RegS && GetReg(r, g).Known?
    ensures var cmp := Compare(r, g, operand);
            var sub := Sbc(r.(a := GetReg(r, g), c := Known(1)), operand);
            cmp.n == sub.n && cmp.z == sub.z && cmp.c == sub.c && GetReg(cmp, g) == GetReg(r, g)
  {
    var reg := GetReg(r, g).val;
    assert (reg - operand) % 256 == 0 <==> reg == operand;
  }

  /**
   * A branch on an unknown flag never faults and resolves the flag; after
   * that, the same branch with the same outcome changes nothing, and with
   * the other outcome raises the fault.
   */
  lemma BranchRevealsFlag(r: Regs, f: Flag, whenSet: bool, taken: int)
    requires Valid(r) && IsBit(taken) && GetFlag(r, f).Unknown?
    ensures var r1 := Branch(r, f, whenSet, taken);
            r1.fail == r.fail && GetFlag(r1, f).Known? &&
            Branch(r1, f, whenSet, taken) == r1 &&
            Branch(r1, f, whenSet, 1 - taken).fail
  {
  }

  /** Two moves of a known stack pointer add up modulo 256; an unknown one stays unknown. */
  lemma {:induction false} MoveSCompose(r: Regs, d1: int, d2: int)
    requires Valid(r)
    ensures MoveS(MoveS(r, d1), d2) == MoveS(r, d1 + d2)
  {
    if r.s.Known? {
      var s := r.s.val;
      var m := (s + d1) % 256;
      assert (m + d2) % 256 == (s + d1 + d2) % 256 by {
        assert s + d1 == 256 * ((s + d1) / 256) + m;
      }
    }
  }

  /** Moves by opposite amounts cancel: a push undone by a pull, JSR by RTS, an interrupt by RTI. */
  lemma MoveSCancel(r: Regs, d: int)
    requires Valid(r)
    ensures MoveS(MoveS(r, -d), d) == r
  {
    MoveSCompose(r, -d, d);
  }

  /** PHA (or PHX, PHY) followed by the matching pull puts S back where it was. */
  lemma PushThenPullRestoresS(r: Regs, g: Reg, pushed: int, pulled: int)
    requires Valid(r) && g != RegS && IsByte(pushed) && IsByte(pulled)
    ensures Pull(Push(r, g, pushed), g, pulled).s == r.s
  {
    MoveSCancel(r, 1);
  }

  /** Where S ends up after a move depends on nothing but where it started. */
  lemma MoveSDependsOnS(r1: Regs, r2: Regs, d: int)
    requires Valid(r1) && Valid(r2) && r1.s == r2.s
    ensures MoveS(r1, d).s == MoveS(r2, d).s
  {
  }

  /** PHP followed by PLP puts S back where it was. */
  lemma PhpThenPlpRestoresS(r: Regs, pushed: int, pulled: int)
    requires Valid(r) && IsByte(pushed) && IsByte(pulled)
    ensures PullStatus(PushStatus(r, pushed), pulled, 1).s == r.s
  {
    var r1 := PushStatus(r, pushed);
    assert r1.s == MoveS(r, -1).s;
    MoveSDependsOnS(SetFlags(r1, pulled), MoveS(r, -1), 1);
    MoveSCancel(r, 1);
  }

  /** An interrupt (or BRK) followed by RTI puts S back where it was. */
  lemma InterruptThenRtiRestoresS(r: Regs, pushed: int, pulled: int)
    requires Valid(r) && IsByte(pushed) && IsByte(pulled)
    ensures PullStatus(Interrupt(r, pushed), pulled, 3).s == r.s
  {
    var r1 := Interrupt(r, pushed);
    MoveSDependsOnS(SetFlags(r1, pulled), MoveS(r, -3), 3);
    MoveSCancel(r, 3);
  }

  /** JSR followed by RTS puts S back where it was. */
  lemma CallThenReturnRestoresS(r: Regs)
    requires Valid(r)
    ensures MoveS(MoveS(r, -2), 2) == r
  {
    MoveSCancel(r, 2);
  }

  /**
   * After a load the model predicts the register; storing it again faults
   * exactly when the stored byte is not the loaded one.
   */
  lemma LoadThenStore(r: Regs, g: Reg, loaded: int, stored: int)
    requires Valid(r) && g != RegS && IsByte(loaded) && IsByte(stored)
    ensures Store(Load(r, g, loaded), g, stored).fail == (r.fail || loaded != stored)
  {
  }

  /** Storing the same byte twice faults at most once: the second store agrees with the first. */
  lemma StoreTwice(r: Regs, g: Reg, operand: int)
    requires Valid(r) && g != RegS && IsByte(operand)
    ensures Store(Store(r, g, operand), g, operand) == Store(r, g, operand)
  {
  }
}
