/**
 * The stale paths corrected: a transfer or TXS from an unknown register
 * makes the destination unknown, and a compare with an unknown register
 * makes N, Z and C unknown, as the processor copies or compares a value
 * the emulator does not know. Every other handler is the source's. The
 * corrected interpreter agrees with the source off the stale paths and is
 * sound on every trace a binary-mode 65C02 explains.
 */
module Corrections {
  import opened TriState
  import opened Bits
  import opened Registers
  import opened Handlers
  import opened Soundness

  /** op_TAX, op_TAY, op_TSX, op_TXA, op_TYA, forgetting the destination when the source is unknown. */
  function CorrectedTransfer(r: Regs, src: Reg, dst: Reg): (r': Regs)
    requires Valid(r) && dst != RegS
    ensures Valid(r') && r'.fail == r.fail
    ensures GetReg(r, src).Known? ==> r' == Transfer(r, src, dst)
    ensures GetReg(r, src).Unknown? ==> GetReg(r', dst) == Unknown
    ensures GetReg(r, src).Unknown? ==> r' == PutReg(r, dst, Unknown).(n := Unknown, z := Unknown)
  {
    if GetReg(r, src).Known? then Transfer(r, src, dst)
    else ForgetNZ(PutReg(r, dst, Unknown))
  }

  /** op_TXS, forgetting S when X is unknown. */
  function CorrectedTxs(r: Regs): (r': Regs)
    requires Valid(r)
    ensures Valid(r') && r'.fail == r.fail
    ensures r'.s == r.x
    ensures r' == Txs(r).(s := r'.s)
  {
    r.(s := r.x)
  }

  /** op_CMP, op_CPX, op_CPY, forgetting N, Z and C when the register is unknown. */
  function CorrectedCompare(r: Regs, g: Reg, operand: int): (r': Regs)
    requires Valid(r) && IsByte(operand)
    ensures Valid(r') && r'.fail == r.fail
    ensures GetReg(r, g).Known? ==> r' == Compare(r, g, operand)
    ensures GetReg(r, g).Unknown? ==> !FlagsKnownByCompare(r')
    ensures GetReg(r, g).Unknown? ==> r' == r.(n := Unknown, z := Unknown, c := Unknown)
  {
    if GetReg(r, g).Known? then Compare(r, g, operand)
    else ForgetNZC(r)
  }

  /** The handlers the corrections replace: the transfers, TXS and the compares. */
  predicate IsCorrected(h: Handler) {
    h.TAX? || h.TAY? || h.TSX? || h.TXA? || h.TYA? || h.TXS? || h.CMP? || h.CPX? || h.CPY?
  }

  /**
   * The handlers with the three corrections in place: the corrected routine
   * on a stale path, the source's handler everywhere else (where the two
   * agree, `CorrectionOnlyOnStale`).
   */
  function CorrectedExec(h: Handler, r: Regs, operand: int): (r': Regs)
    requires Valid(r) && OperandOk(h, operand)
    ensures Valid(r')
    ensures r.fail ==> r'.fail
  {
    if Stale(h, r) then CorrectedHandler(h, r, operand) else Exec(h, r, operand)
  }

  /** The corrected routines, one per replaced handler. */
  function CorrectedHandler(h: Handler, r: Regs, operand: int): (r': Regs)
    requires IsCorrected(h) && Valid(r) && IsByte(operand)
    ensures Valid(r') && r'.fail == r.fail
  {
    match h
    case TAX => CorrectedTransfer(r, RegA, RegX)
    case TAY => CorrectedTransfer(r, RegA, RegY)
    case TSX => CorrectedTransfer(r, RegS, RegX)
    case TXA => CorrectedTransfer(r, RegX, RegA)
    case TYA => CorrectedTransfer(r, RegY, RegA)
    case TXS => CorrectedTxs(r)
    case CMP => CorrectedCompare(r, RegA, operand)
    case CPX => CorrectedCompare(r, RegX, operand)
    case CPY => CorrectedCompare(r, RegY, operand)
  }

  /**
   * The corrected routines differ from the source's only on the stale
   * paths: off them they leave exactly the store the source's handler does.
   */
  lemma CorrectionOnlyOnStale(h: Handler, r: Regs, operand: int)
    requires IsCorrected(h) && Valid(r) && IsByte(operand) && !Stale(h, r)
    ensures CorrectedHandler(h, r, operand) == Exec(h, r, operand)
  {
    if h == TAX || h == TAY || h == TSX {
      TransfersOnlyOnStale(h, r, operand);
    } else if h == TXA || h == TYA {
      TransfersFromXYOnlyOnStale(h, r, operand);
    } else if h == TXS {
      TxsOnlyOnStale(r, operand);
    } else if h == CMP || h == CPX || h == CPY {
      ComparesOnlyOnStale(h, r, operand);
    }
  }

  lemma TransfersOnlyOnStale(h: Handler, r: Regs, operand: int)
    requires h == TAX || h == TAY || h == TSX
    requires Valid(r) && IsByte(operand) && !Stale(h, r)
    ensures CorrectedHandler(h, r, operand) == Exec(h, r, operand)
  {
    match h
    case TAX =>
      CorrectedTransferOffStale(r, RegA, RegX);
      assert CorrectedHandler(h, r, operand) == CorrectedTransfer(r, RegA, RegX);
      assert Exec(h, r, operand) == Transfer(r, RegA, RegX);
    case TAY =>
      CorrectedTransferOffStale(r, RegA, RegY);
      assert CorrectedHandler(h, r, operand) == CorrectedTransfer(r, RegA, RegY);
      assert Exec(h, r, operand) == Transfer(r, RegA, RegY);
    case TSX =>
      CorrectedTransferOffStale(r, RegS, RegX);
      assert CorrectedHandler(h, r, operand) == CorrectedTransfer(r, RegS, RegX);
      assert Exec(h, r, operand) == Transfer(r, RegS, RegX);
  }

  lemma TransfersFromXYOnlyOnStale(h: Handler, r: Regs, operand: int)
    requires h == TXA || h == TYA
    requires Valid(r) && IsByte(operand) && !Stale(h, r)
    ensures CorrectedHandler(h, r, operand) == Exec(h, r, operand)
  {
    match h
    case TXA =>
      CorrectedTransferOffStale(r, RegX, RegA);
      assert CorrectedHandler(h, r, operand) == CorrectedTransfer(r, RegX, RegA);
      assert Exec(h, r, operand) == Transfer(r, RegX, RegA);
    case TYA =>
      CorrectedTransferOffStale(r, RegY, RegA);
      assert CorrectedHandler(h, r, operand) == CorrectedTransfer(r, RegY, RegA);
      assert Exec(h, r, operand) == Transfer(r, RegY, RegA);
  }

  lemma TxsOnlyOnStale(r: Regs, operand: int)
    requires Valid(r) && IsByte(operand) && !Stale(TXS, r)
    ensures CorrectedHandler(TXS, r, operand) == Exec(TXS, r, operand)
  {
    assert r.x.Known? || r.s.Unknown?;
    assert CorrectedTxs(r) == Txs(r);
    assert CorrectedHandler(TXS, r, operand) == CorrectedTxs(r);
    assert Exec(TXS, r, operand) == Txs(r);
  }

  lemma CorrectedTransferOffStale(r: Regs, src: Reg, dst: Reg)
    requires Valid(r) && dst != RegS && (GetReg(r, src).Known? || GetReg(r, dst).Unknown?)
    ensures CorrectedTransfer(r, src, dst) == Transfer(r, src, dst)
  {
    if GetReg(r, src).Unknown? {
      assert PutReg(r, dst, Unknown) == r by {
        match dst
        case RegA =>
        case RegX =>
        case RegY =>
      }
    }
  }

  lemma ComparesOnlyOnStale(h: Handler, r: Regs, operand: int)
    requires h == CMP || h == CPX || h == CPY
    requires Valid(r) && IsByte(operand) && !Stale(h, r)
    ensures CorrectedHandler(h, r, operand) == Exec(h, r, operand)
  {
    match h
    case CMP =>
      assert CorrectedHandler(h, r, operand) == CorrectedCompare(r, RegA, operand);
      assert Exec(h, r, operand) == Compare(r, RegA, operand);
    case CPX =>
      assert CorrectedHandler(h, r, operand) == CorrectedCompare(r, RegX, operand);
      assert Exec(h, r, operand) == Compare(r, RegX, operand);
    case CPY =>
      assert CorrectedHandler(h, r, operand) == CorrectedCompare(r, RegY, operand);
      assert Exec(h, r, operand) == Compare(r, RegY, operand);
  }

  lemma CorrectedTransferSound(r: Regs, m: Machine, src: Reg, dst: Reg)
    requires Valid(r) && MachineValid(m) && Agrees(r, m) && dst != RegS
    ensures Agrees(CorrectedTransfer(r, src, dst), RunLoad(m, dst, RegOf(m, src)))
  {
    if GetReg(r, src).Known? {
      TransferSound(r, m, src, dst);
    } else {
      UnknownLoadSound(PutReg(r, dst, Unknown), m, dst, RegOf(m, src));
    }
  }

  lemma CorrectedCompareSound(r: Regs, m: Machine, g: Reg, operand: int)
    requires Valid(r) && MachineValid(m) && IsByte(operand) && Agrees(r, m)
    ensures Agrees(CorrectedCompare(r, g, operand), RunCompare(m, g, operand))
  {
    if GetReg(r, g).Known? {
      CompareSound(r, m, g, operand);
    }
  }

  /** The corrected step needs no exclusion: every handler keeps agreement with every processor that explains it. */
  lemma CorrectedExecSound(h: Handler, r: Regs, m: Machine, operand: int)
    requires Valid(r) && MachineValid(m) && OperandOk(h, operand)
    requires Agrees(r, m) && Explains(h, m, operand)
    ensures CorrectedExec(h, r, operand).fail == r.fail
    ensures Agrees(CorrectedExec(h, r, operand), Run(h, m, operand))
  {
    if Stale(h, r) {
      match h
      case TAX => CorrectedTransferSound(r, m, RegA, RegX);
      case TAY => CorrectedTransferSound(r, m, RegA, RegY);
      case TSX => CorrectedTransferSound(r, m, RegS, RegX);
      case TXA => CorrectedTransferSound(r, m, RegX, RegA);
      case TYA => CorrectedTransferSound(r, m, RegY, RegA);
      case TXS =>
      case CMP => CorrectedCompareSound(r, m, RegA, operand);
      case CPX => CorrectedCompareSound(r, m, RegX, operand);
      case CPY => CorrectedCompareSound(r, m, RegY, operand);
    } else {
      ExecSound(h, r, m, operand);
    }
  }

  /** The corrected store after a whole trace. */
  function CorrectedExecAll(r: Regs, events: seq<Event>): (r': Regs)
    requires Valid(r) && EventsOk(events)
    ensures Valid(r')
    ensures r.fail ==> r'.fail
    decreases |events|
  {
    if |events| == 0 then r
    else CorrectedExecAll(CorrectedExec(events[0].h, r, events[0].operand), events[1..])
  }

  /** The processor explains every event of the trace, whatever the store. */
  predicate Explained(m: Machine, events: seq<Event>)
    requires MachineValid(m) && EventsOk(events)
    decreases |events|
  {
    |events| == 0 ||
    (Explains(events[0].h, m, events[0].operand) &&
     Explained(Run(events[0].h, m, events[0].operand), events[1..]))
  }

  lemma {:induction false} CorrectedTraceSound(r: Regs, m: Machine, events: seq<Event>)
    requires Valid(r) && MachineValid(m) && EventsOk(events)
    requires Agrees(r, m) && Explained(m, events)
    ensures CorrectedExecAll(r, events).fail == r.fail
    ensures Agrees(CorrectedExecAll(r, events), RunAll(m, events))
    decreases |events|
  {
    if |events| > 0 {
      var e := events[0];
      CorrectedExecSound(e.h, r, m, e.operand);
      CorrectedTraceSound(CorrectedExec(e.h, r, e.operand), Run(e.h, m, e.operand), events[1..]);
    }
  }

  /** With the corrections, "prediction failed" from start-up rules out every binary-mode 65C02. */
  lemma CorrectedFaultRulesOutEveryMachine(m: Machine, events: seq<Event>)
    requires MachineValid(m) && EventsOk(events)
    requires CorrectedExecAll(Initial, events).fail
    ensures !Explained(m, events)
  {
    if Explained(m, events) {
      CorrectedTraceSound(Initial, m, events);
    }
  }
}
