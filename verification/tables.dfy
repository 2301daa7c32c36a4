/**
 * The static tables of src/em_6502.c: the addressing-mode catalog
 * (lines 5-22), the 256-entry instruction table (lines 724-981) and
 * em_init (lines 713-721), which fills in each instruction's length and
 * disassembly template from its addressing mode.
 */
module Tables {
  import opened Wrappers
  import opened Handlers

  /**
   * The sixteen addressing modes in catalog order. The catalog's comments
   * call entry 13 IND1 and leave entry 15 unnamed; the instruction table
   * calls them IND16 (the three-byte `(abs)` form of JMP) and ZPR (zero
   * page plus relative target, used by BBRn/BBSn).
   */
  datatype Mode = IMP | IMPA | BRA | IMM | ZP | ZPX | ZPY | INDX | INDY | IND
                | ABS | ABSX | ABSY | IND16 | IND1X | ZPR

  /** A catalog entry: the instruction length in bytes and its disassembly template (kept as text only). */
  datatype AddrMode = AddrMode(len: int, fmt: string)

  /** addr_mode_table */
  const AddrModeTable: seq<AddrMode> := [
    AddrMode(1, "%1$s"),
    AddrMode(1, "%1$s A"),
    AddrMode(2, "%1$s %2$s"),
    AddrMode(2, "%1$s #%2$02X"),
    AddrMode(2, "%1$s %2$02X"),
    AddrMode(2, "%1$s %2$02X,X"),
    AddrMode(2, "%1$s %2$02X,Y"),
    AddrMode(2, "%1$s (%2$02X,X)"),
    AddrMode(2, "%1$s (%2$02X),Y"),
    AddrMode(2, "%1$s (%2$02X)"),
    AddrMode(3, "%1$s %3$02X%2$02X"),
    AddrMode(3, "%1$s %3$02X%2$02X,X"),
    AddrMode(3, "%1$s %3$02X%2$02X,Y"),
    AddrMode(3, "%1$s (%3$02X%2$02X)"),
    AddrMode(3, "%1$s (%3$02X%2$02X,X)"),
    AddrMode(3, "%1$s %2$02X,%3$s")
  ]

  /** The position of a mode in the catalog, which is the mode's value in the source's enum. */
  function ModeIndex(m: Mode): (k: nat)
    ensures k < |AddrModeTable|
  {
    match m
    case IMP => 0
    case IMPA => 1
    case BRA => 2
    case IMM => 3
    case ZP => 4
    case ZPX => 5
    case ZPY => 6
    case INDX => 7
    case INDY => 8
    case IND => 9
    case ABS => 10
    case ABSX => 11
    case ABSY => 12
    case IND16 => 13
    case IND1X => 14
    case ZPR => 15
  }

  /**
   * The catalog length of a mode: one byte for the implied forms, two for
   * a one-byte operand (immediate, zero page, relative, indirect zero
   * page), three for a two-byte operand (absolute forms, and ZPR's zero
   * page byte plus branch offset).
   */
  function ModeLength(m: Mode): (n: int)
    ensures 1 <= n <= 3
    ensures n == 1 <==> m == IMP || m == IMPA
    ensures n == 3 <==> m == ABS || m == ABSX || m == ABSY || m == IND16 || m == IND1X || m == ZPR
  {
    AddrModeTable[ModeIndex(m)].len
  }

  /** Distinct modes have distinct catalog entries, so the catalog is indexed by the mode. */
  lemma ModeIndexInjective(m1: Mode, m2: Mode)
    ensures ModeIndex(m1) == ModeIndex(m2) ==> m1 == m2
  {
  }

  datatype OpType = READOP | WRITEOP | BRANCHOP

  /**
   * An instruction table entry: mnemonic, addressing mode, operand class,
   * the optional handler, and the length and template that em_init fills in.
   */
  datatype Instr = Instr(mnemonic: string, mode: Mode, optype: OpType, emulate: Option<Handler>,
                         len: int, fmt: string)

  /** An entry as statically initialised: length 0 and empty template until em_init runs. */
  function Entry(mnemonic: string, mode: Mode, optype: OpType, emulate: Option<Handler>): (e: Instr) {
    Instr(mnemonic, mode, optype, emulate, 0, "")
  }

  /** One step of em_init: the entry's length and template become its mode's catalog entry. */
  function Resolved(e: Instr): (e': Instr)
    ensures 1 <= e'.len <= 3
  {
    e.(len := ModeLength(e.mode), fmt := AddrModeTable[ModeIndex(e.mode)].fmt)
  }

  /** Resolving changes only the length and the template, and is idempotent. */
  lemma ResolvedKeepsEntry(e: Instr)
    ensures Resolved(e).len == ModeLength(e.mode)
    ensures Resolved(e).fmt == AddrModeTable[ModeIndex(e.mode)].fmt
    ensures Resolved(e).(len := e.len, fmt := e.fmt) == e
    ensures Resolved(Resolved(e)) == Resolved(e)
  {
  }

  /**
   * em_init: walks all 256 entries in place and resolves each one, so that
   * afterwards every length is that of the entry's mode, in 1..3.
   */
  method EmInit(table: array<Instr>)
    requires table.Length == 256
    modifies table
    ensures forall k :: 0 <= k < 256 ==> table[k] == Resolved(old(table[k]))
    ensures forall k :: 0 <= k < 256 ==> 1 <= table[k].len <= 3
  {
    ghost var before := table[..];
    for i := 0 to 256
      invariant forall k :: 0 <= k < i ==> table[k] == Resolved(before[k])
      invariant forall k :: i <= k < 256 ==> table[k] == before[k]
    {
      table[i] := Resolved(table[i]);
    }
  }
}
