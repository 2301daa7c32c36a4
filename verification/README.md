# 6502 symbolic emulator core, in Dafny

This project models `src/em_6502.c` of the 6502Decoder repository. That file
is a three-valued abstract interpreter for the MOS 6502 / WDC 65C02 processors.
A decoder feeds it a trace of instructions, each with the operand byte seen on
the bus or, for a branch, whether the branch was taken. The emulator keeps
ten cells: registers A, X, Y, S and flags N, V, D, I, Z, C. Each cell is
either known or unknown (the source encodes unknown as -1). There is also a
fault indicator. A handler raises the fault when an observed value
contradicts a known cell: a store or push of a different byte, a pushed
status byte that disagrees with a known flag, or a branch that goes the
other way from what its known flag predicts.

The modules follow the parts of the source:

- `TriState`, `Bits`, `Wrappers`: the tri-state cell, the C bit operations
  on two's-complement `int`s, and `Option`.
- `Registers`: the store as a value, with the flag helpers `check_NVDIZC`,
  `set_NVDIZC`, `set_NZ` and `set_N*_unknown`.
- `Handlers`: every `op_*` handler as a function on the store. The handler
  kinds form the closed datatype `Handler`, one constructor per C routine.
  `Exec` dispatches a handler kind to its routine.
- `HandlerLaws`: laws relating handlers to each other. SBC is ADC of the
  complemented operand. CMP computes SBC's flags. Stack moves cancel.
  A branch reveals its flag.
- `Renderer`: `em_get_state`'s 44-character snapshot as a string function,
  with its layout and the fact that it can be read back.
- `Tables`, `Opcodes`: `addr_mode_table`, the 256-entry `instr_table` and
  the `em_init` loop over an array.
- `Emulator`: the global cells as the fields of the class `Cpu`. Every
  `op_*` routine and flag helper that assigns them is a method following
  the source's control flow. A method shared by several routines takes the
  register, flag or stack delta as a parameter: `Transfer` serves TAX, TAY,
  TSX, TXA and TYA, and `Store` serves STA, STX and STY. Each method is
  proved to leave exactly the store its `Registers` or `Handlers` function
  describes. The one-line routines BRK, JSR, RTS, RTI and the seven flag
  instructions are methods of their own, each proved against `Handlers.Exec`.
- `Soundness`: what the store means. `Machine` is the register and flag
  state of a 65C02 running in binary mode. `Run` gives the instruction
  semantics, written from the instruction set rather than from the
  handlers. `Agrees(r, m)` says every known cell of the store holds the
  machine's value. `ExecSound` shows that a handler fed an observation the
  machine explains raises no fault and keeps the store in agreement with
  the machine, off the stale paths. `TraceSound` shows the same over a
  whole trace. `FaultRulesOutEveryMachine` reads this as: a "prediction
  failed" rules out every such processor whose trace avoids the stale paths.
- **Stale paths.** On these paths the code keeps a known value it should
  forget:
  - a transfer or TXS from an unknown register into a known destination;
  - a compare with an unknown register while N, Z or C is known.

  `Stale` names exactly these cases. `ExecSound` holds everywhere else.
  `StaleBreaksAgreement` shows that on every stale store some processor
  the store describes disagrees with it after the handler.
- `Corrections`: the same interpreter with the stale paths fixed. A
  transfer from an unknown source makes the destination unknown. A compare
  with an unknown register makes N, Z and C unknown. `CorrectionOnlyOnStale`
  shows that the corrected routines change nothing off the stale paths.
  `CorrectedTraceSound` needs no exclusion: the corrected interpreter agrees
  with every binary-mode 65C02 that explains the trace.

Notes on the code as written, which the model follows:

- TAX, TAY, TSX, TXA and TYA with an unknown source only forget N and Z.
  The destination keeps its old, possibly known, value. A sound
  three-valued interpreter would make the destination unknown, because the
  processor copies a value the emulator does not know.
- TXS with X unknown leaves S as it was. A sound interpreter would make S
  unknown.
- CMP, CPX and CPY with an unknown register change no flag. A sound
  interpreter would make N, Z and C unknown.
- PLP and RTI set the flags from the pulled byte without checking them.
- ADC and SBC compute in binary whatever D says (a TODO at
  src/em_6502.c:184), and BRK clears D as a 65C02 does, not an NMOS 6502
  (a TODO at src/em_6502.c:132).

## Findings

| source | as written | input that shows it | evidently intended | confidence | as-written member | corrected member |
|---|---|---|---|---|---|---|
| src/em_6502.c:654-661 | with A unknown, op_TAX forgets only N and Z and X keeps its old value | X known 0, A unknown, a processor with A = 1: after TAX the processor's X is 1, the store says 0, and a later STX of 1 faults | X becomes unknown, like A | medium; not executed | `Soundness.TransferFromUnknownIsStale` | `Corrections.CorrectedTransferSound` |
| src/em_6502.c:698-702 | with X unknown, op_TXS leaves S as it was | S known 0, X unknown, a processor with X = 1: after TXS its S is 1, the store says 0 | S becomes unknown | medium; not executed | `Soundness.TxsFromUnknownIsStale` | `Corrections.CorrectedExecSound` |
| src/em_6502.c:340-346 | with A unknown, op_CMP leaves N, Z and C as they were | C known 0, A unknown, CMP #0 on a processor with A = 1: its carry is 1, the store says 0 | N, Z and C become unknown | medium; not executed | `Soundness.CompareUnknownIsStale` | `Corrections.CorrectedCompareSound` |

## Model

| member | source | states |
|---|---|---|
| `Bits.Bit7Low8` | src/em_6502.c:120-123 | `(value & 128) > 0` on any int is "the low byte of value is at least 128", so set_NZ reads N in two's complement |
| `Bits.Bit8Sum` | src/em_6502.c:183-195 | bit 8 of a nine-bit sum is 1 exactly when the sum is at least 256, the carry op_ADC reads |
| `Bits.Bit8Diff` | src/em_6502.c:601-613 | bit 8 of a difference of bytes is 1 exactly when it is negative, the borrow op_SBC reads |
| `Bits.Bit6Byte` | src/em_6502.c:314-322 | bit 6 of a byte is 1 exactly on 64..127 and 192..255, the V that op_BIT loads |
| `Registers.CheckFlags` | src/em_6502.c:60-91 | check_NVDIZC changes no cell; it raises the fault exactly when some known flag differs from its bit (7, 6, 3, 2, 1, 0) of the byte, and never because of an unknown flag |
| `Registers.SetFlags` | src/em_6502.c:93-100 | set_NVDIZC makes all six flags known, each equal to its bit of the byte; registers and the fault are untouched |
| `Registers.SetNZ` | src/em_6502.c:120-123 | set_NZ: N is the sign bit of the value's low byte (of the value itself for a byte), Z says whether the value is zero; nothing else changes |
| `Registers.ForgetNZ` | src/em_6502.c:102-105 | set_NZ_unknown: N and Z become unknown and every other cell, the fault included, is kept |
| `Registers.ForgetNZC` | src/em_6502.c:107-111 | set_NZC_unknown: N, Z and C become unknown and every other cell is kept |
| `Registers.ForgetNVZC` | src/em_6502.c:113-118 | set_NVZC_unknown: N, V, Z and C become unknown and every other cell is kept |
| `Registers.SetThenCheckNoFault` | src/em_6502.c:60-100 | checking the flags against the byte they were just bulk-set from never faults and changes nothing |
| `Registers.SetFlagsValid` | src/em_6502.c:93-100 | bulk-set flags are bits, so a valid store stays valid |
| `Registers.CheckAllKnown` | src/em_6502.c:60-91 | with every flag known, the check passes exactly for the bytes whose six flag bits equal the flags |
| `Registers.CheckAllUnknown` | src/em_6502.c:60-91 | with every flag unknown, the check never faults and changes nothing |
| `Handlers.AdcOverflowBit` | src/em_6502.c:183-195 | op_ADC's test "A and operand share bit 7 and the sum's bit 7 differs" is signed overflow of A + operand + C; its bit 8 is the unsigned carry |
| `Handlers.SbcOverflowBit` | src/em_6502.c:601-613 | op_SBC's test "A and operand differ in bit 7 and the result's bit 7 differs from A's" is signed overflow of A - operand - (1 - C); `1 - bit 8` is "no borrow" |
| `Handlers.AddWithCarry` | src/em_6502.c:183-195 | op_ADC's byte arithmetic: result byte = sum mod 256, carry = (sum >= 256), V = signed overflow |
| `Handlers.Adc` | src/em_6502.c:183-195 | with A and C known: the result of `AdcKnown`; otherwise A, N, V, Z and C all become unknown; never faults |
| `Handlers.AdcKnown` | src/em_6502.c:183-195 | A' = (A + op + C) mod 256, C' = 1 iff the sum is at least 256, V' = signed overflow, N and Z from A'; nothing else changes |
| `Handlers.SubtractWithBorrow` | src/em_6502.c:601-613 | op_SBC's byte arithmetic: result byte = t mod 256 for t = A - op - (1 - C), carry = (t >= 0), V = signed overflow |
| `Handlers.Sbc` | src/em_6502.c:601-613 | with A and C known: the result of `SbcKnown`; otherwise A, N, V, Z and C all become unknown; never faults |
| `Handlers.SbcKnown` | src/em_6502.c:601-613 | A' = t mod 256, C' = 1 iff t >= 0 (no borrow), V' = signed overflow, N and Z from A'; nothing else changes |
| `Handlers.Bitwise` | src/em_6502.c:197-204 | op_AND (and op_ORA, op_EOR): with A known, A' is the bitwise combination and N, Z follow it; with A unknown only N and Z are forgotten |
| `Handlers.ShiftOut` | src/em_6502.c:206-220 | the byte and carry of a shift or rotate: ASL gives `out + 256*carry = 2v`, LSR `2*out + carry = v`, ROL `out + 256*carry = 2v + cin`, ROR `2*out + carry = v + 256*cin` |
| `Handlers.ShiftLeftCarry` | src/em_6502.c:543-553 | shifting a byte left with a bit coming in splits into the low byte and the old bit 7 |
| `Handlers.ShiftAcc` | src/em_6502.c:206-214 | op_ASLA/LSRA/ROLA/RORA: with A known (and C, for the rotates) A and C take the shifted byte and carry and N, Z follow; otherwise A, N, Z and C become unknown |
| `Handlers.ShiftMem` | src/em_6502.c:216-220 | op_ASL/LSR/ROL/ROR on memory: C takes the bit shifted out and N, Z follow the shifted byte; a rotate with C unknown forgets N, Z and C; A never changes |
| `Handlers.Branch` | src/em_6502.c:222-300 | a known flag stays and the fault is raised iff it contradicts the outcome; an unknown flag becomes the value the outcome implies; afterwards the flag always explains the outcome unless faulted |
| `Handlers.TestBits` | src/em_6502.c:306-312 | op_BIT_IMM and op_TSB_TRB: Z = (A AND operand == 0) when A is known, unknown otherwise; nothing else changes |
| `Handlers.BitMem` | src/em_6502.c:314-322 | op_BIT: N and V are bits 7 and 6 of the operand whatever A is; Z as for TestBits |
| `Handlers.Compare` | src/em_6502.c:340-362 | the compared register never changes; when known C = (reg >= op), Z = (reg == op), N = bit 7 of (reg - op) mod 256; when unknown nothing changes |
| `Handlers.Step` | src/em_6502.c:364-435 | a known A, X or Y moves by one modulo 256 and N, Z follow; an unknown one stays unknown and N, Z are forgotten |
| `Handlers.StepMem` | src/em_6502.c:373-417 | op_INC/op_DEC on memory: only N and Z change, following (operand +/- 1) mod 256 |
| `Handlers.Load` | src/em_6502.c:443-456 | the register becomes the operand and N, Z follow it |
| `Handlers.Store` | src/em_6502.c:627-652 | the fault is raised iff the register is known and differs from the operand; afterwards the register is the operand and no flag changes |
| `Handlers.MoveS` | src/em_6502.c:437-441 | a known S moves by delta modulo 256 and an unknown S stays unknown; nothing else changes |
| `Handlers.Push` | src/em_6502.c:483-510 | op_PHA/PHX/PHY: S moves down by one, then the register is stored as by op_STA |
| `Handlers.Pull` | src/em_6502.c:512-541 | op_PLA/PLX/PLY: the register is loaded as by op_LDA, then S moves up by one; never faults |
| `Handlers.PushStatus` | src/em_6502.c:490-496 | op_PHP: S moves down by one, the byte is checked against the known flags, then the flags become the byte |
| `Handlers.PullStatus` | src/em_6502.c:520-525 | op_PLP (and RTI in `Handlers.Exec`): the flags become the byte without a check, then S moves up by 1 (3 for RTI); never faults |
| `Handlers.Interrupt` | src/em_6502.c:125-133 | em_interrupt and op_BRK: S moves down by three; the fault is raised iff a known flag contradicts the byte; N, V, Z, C become the byte's bits, I = 1 and D = 0 whatever the byte |
| `Handlers.Transfer` | src/em_6502.c:654-696 | with the source known the destination becomes it and N, Z follow; with it unknown only N and Z are forgotten and the destination keeps its value |
| `Handlers.Txs` | src/em_6502.c:698-702 | S becomes X when X is known and stays as it was otherwise; no flag changes |
| `Handlers.Exec` | src/em_6502.c:183-711 | every handler keeps a valid store, never clears the fault, and only stores, pushes, PHP, BRK and branches can raise it |
| `HandlerLaws.SignedComplement` | src/em_6502.c:601-613 | the signed reading of 255 - x is -1 minus that of x |
| `HandlerLaws.SbcIsAdcOfComplement` | src/em_6502.c:601-613 | in binary mode SBC of a byte equals ADC of its one's complement |
| `HandlerLaws.CompareIsSubtraction` | src/em_6502.c:340-362 | CMP/CPX/CPY set N, Z, C exactly as SBC with carry set would, and keep the register |
| `HandlerLaws.BranchRevealsFlag` | src/em_6502.c:222-230 | a branch on an unknown flag resolves it without a fault; the same branch with the same outcome then changes nothing, and with the other outcome faults |
| `HandlerLaws.MoveSCompose` | src/em_6502.c:437-441 | two moves of S add up modulo 256 |
| `HandlerLaws.MoveSCancel` | src/em_6502.c:588-592 | moves by opposite amounts cancel |
| `HandlerLaws.PushThenPullRestoresS` | src/em_6502.c:483-518 | PHA followed by PLA (likewise X, Y) puts S back |
| `HandlerLaws.MoveSDependsOnS` | src/em_6502.c:437-441 | where S ends up depends only on where it started |
| `HandlerLaws.PhpThenPlpRestoresS` | src/em_6502.c:490-525 | PHP followed by PLP puts S back |
| `HandlerLaws.InterruptThenRtiRestoresS` | src/em_6502.c:594-599 | an interrupt or BRK followed by RTI puts S back |
| `HandlerLaws.CallThenReturnRestoresS` | src/em_6502.c:588-592 | JSR followed by RTS puts S back |
| `HandlerLaws.LoadThenStore` | src/em_6502.c:627-634 | after a load, storing faults exactly when the stored byte differs from the loaded one |
| `HandlerLaws.StoreTwice` | src/em_6502.c:627-634 | storing the same byte twice is the same as storing it once |
| `Renderer.HexDigit` | src/em_6502.c:134-136 | write_hex1 yields an upper-case hex digit whose value is the nibble |
| `Renderer.Hex2` | src/em_6502.c:138-141 | write_hex2 yields two upper-case hex digits, the first worth the high nibble and the second the low one, that read back as the byte |
| `Renderer.Render` | src/em_6502.c:143-180 | the snapshot is 44 characters, or 62 with " prediction failed" when the fault is pending |
| `Renderer.WriteRegsFields` | src/em_6502.c:150-161 | the register digits land at offsets 2, 7, 12, 18 and nothing else changes |
| `Renderer.WriteFlagsFields` | src/em_6502.c:162-173 | the flag characters land at offsets 23, 27, 31, 35, 39, 43 and nothing else changes |
| `Renderer.OverlayFields` | src/em_6502.c:143-180 | every register and flag field of the overlaid template shows its cell |
| `Renderer.OverlayElsewhere` | src/em_6502.c:24-36 | every other position keeps the template's character |
| `Renderer.RenderLayout` | src/em_6502.c:143-180 | each field at its offset, the template elsewhere, and the annotation from offset 44 exactly when the fault is set |
| `Renderer.RenderInitial` | src/em_6502.c:24-24 | the all-unknown store without a fault shows exactly the template |
| `Renderer.ParseRegText` | src/em_6502.c:138-141 | a register's two characters read back as the cell, known or not |
| `Renderer.ParseRenderRegs` | src/em_6502.c:143-180 | the four registers read back from the snapshot |
| `Renderer.ParseRenderFlags` | src/em_6502.c:143-180 | the six flags read back from the snapshot |
| `Renderer.ParseRender` | src/em_6502.c:143-180 | the whole store, with the fault, reads back from the snapshot |
| `Renderer.RenderInjective` | src/em_6502.c:143-180 | two different stores never render the same |
| `Tables.ModeIndex` | src/em_6502.c:5-22 | every mode has an entry in the catalog |
| `Tables.ModeLength` | src/em_6502.c:5-22 | every length is 1..3; 1 exactly for IMP and IMPA, 3 exactly for the absolute, 16-bit indirect and ZPR modes |
| `Tables.ModeIndexInjective` | src/em_6502.c:5-22 | distinct modes have distinct catalog entries |
| `Tables.Resolved` | src/em_6502.c:716-720 | a filled-in entry has a length in 1..3 |
| `Tables.ResolvedKeepsEntry` | src/em_6502.c:716-720 | filling in takes length and template from the entry's mode, changes nothing else, and is idempotent |
| `Tables.EmInit` | src/em_6502.c:713-721 | every one of the 256 entries is filled in from its mode, so every length is 1..3 |
| `Opcodes.Initialize` | src/em_6502.c:724-981 | the table after em_init is instr_table with every entry filled in |
| `Emulator.Cpu.constructor` | src/em_6502.c:40-53 | every cell starts unknown and the fault clear |
| `Emulator.Cpu.SetReg` | src/em_6502.c:41-44 | assigning one register leaves the rest of the store as it was |
| `Emulator.Cpu.SetFlag` | src/em_6502.c:46-51 | assigning one flag leaves the rest of the store as it was |
| `Emulator.Cpu.CheckBit` | src/em_6502.c:60-66 | one test of check_NVDIZC: sets the fault iff the flag is known and differs from the bit |
| `Emulator.Cpu.CheckNVDIZC` | src/em_6502.c:60-91 | the six tests in order leave the store `CheckFlags` describes |
| `Emulator.Cpu.SetNVDIZC` | src/em_6502.c:93-100 | leaves the store `SetFlags` describes |
| `Emulator.Cpu.SetNZ` | src/em_6502.c:120-123 | leaves the store `Registers.SetNZ` describes |
| `Emulator.Cpu.ForgetNZ` | src/em_6502.c:102-105 | N and Z become unknown, nothing else changes |
| `Emulator.Cpu.ForgetNZC` | src/em_6502.c:107-111 | N, Z and C become unknown, nothing else changes |
| `Emulator.Cpu.ForgetNVZC` | src/em_6502.c:113-118 | N, V, Z and C become unknown, nothing else changes |
| `Emulator.Cpu.MoveS` | src/em_6502.c:437-441 | leaves the store `Handlers.MoveS` describes |
| `Emulator.Cpu.Interrupt` | src/em_6502.c:125-133 | leaves the store `Handlers.Interrupt` describes |
| `Emulator.Cpu.Brk` | src/em_6502.c:302-304 | op_BRK leaves the store `Handlers.Exec` gives for BRK: the interrupt sequence |
| `Emulator.Cpu.Jsr` | src/em_6502.c:437-441 | op_JSR leaves the store `Handlers.Exec` gives for JSR: a known S moves down by two modulo 256 |
| `Emulator.Cpu.Rts` | src/em_6502.c:588-592 | op_RTS leaves the store `Handlers.Exec` gives for RTS: a known S moves up by two modulo 256 |
| `Emulator.Cpu.Rti` | src/em_6502.c:594-599 | op_RTI leaves the store `Handlers.Exec` gives for RTI: flags from the byte unchecked, a known S up by three |
| `Emulator.Cpu.Clc` | src/em_6502.c:324-326 | op_CLC leaves the store `Handlers.Exec` gives for CLC: C known 0, nothing else changes |
| `Emulator.Cpu.Cld` | src/em_6502.c:328-330 | op_CLD leaves the store `Handlers.Exec` gives for CLD: D known 0 |
| `Emulator.Cpu.Cli` | src/em_6502.c:332-334 | op_CLI leaves the store `Handlers.Exec` gives for CLI: I known 0 |
| `Emulator.Cpu.Clv` | src/em_6502.c:336-338 | op_CLV leaves the store `Handlers.Exec` gives for CLV: V known 0 |
| `Emulator.Cpu.Sec` | src/em_6502.c:615-617 | op_SEC leaves the store `Handlers.Exec` gives for SEC: C known 1 |
| `Emulator.Cpu.Sed` | src/em_6502.c:619-621 | op_SED leaves the store `Handlers.Exec` gives for SED: D known 1 |
| `Emulator.Cpu.Sei` | src/em_6502.c:623-625 | op_SEI leaves the store `Handlers.Exec` gives for SEI: I known 1 |
| `Emulator.Cpu.Adc` | src/em_6502.c:183-195 | leaves the store `Handlers.Adc` describes |
| `Emulator.Cpu.Sbc` | src/em_6502.c:601-613 | leaves the store `Handlers.Sbc` describes |
| `Emulator.Cpu.Bitwise` | src/em_6502.c:197-204 | leaves the store `Handlers.Bitwise` describes |
| `Emulator.Cpu.ShiftAcc` | src/em_6502.c:206-214 | leaves the store `Handlers.ShiftAcc` describes |
| `Emulator.Cpu.Asla` | src/em_6502.c:206-214 | op_ASLA leaves the store `Handlers.ShiftAcc` describes for ASL |
| `Emulator.Cpu.Lsra` | src/em_6502.c:458-466 | op_LSRA leaves the store `Handlers.ShiftAcc` describes for LSR |
| `Emulator.Cpu.Rola` | src/em_6502.c:543-553 | op_ROLA leaves the store `Handlers.ShiftAcc` describes for ROL |
| `Emulator.Cpu.Rora` | src/em_6502.c:566-576 | op_RORA leaves the store `Handlers.ShiftAcc` describes for ROR |
| `Emulator.Cpu.ShiftMem` | src/em_6502.c:216-220 | leaves the store `Handlers.ShiftMem` describes |
| `Emulator.Cpu.Asl` | src/em_6502.c:216-220 | op_ASL leaves the store `Handlers.ShiftMem` describes for ASL |
| `Emulator.Cpu.Lsr` | src/em_6502.c:468-472 | op_LSR leaves the store `Handlers.ShiftMem` describes for LSR |
| `Emulator.Cpu.Rol` | src/em_6502.c:555-564 | op_ROL leaves the store `Handlers.ShiftMem` describes for ROL |
| `Emulator.Cpu.Ror` | src/em_6502.c:578-586 | op_ROR leaves the store `Handlers.ShiftMem` describes for ROR |
| `Emulator.Cpu.Branch` | src/em_6502.c:222-300 | leaves the store `Handlers.Branch` describes |
| `Emulator.Cpu.TestBits` | src/em_6502.c:306-312 | leaves the store `Handlers.TestBits` describes |
| `Emulator.Cpu.BitMem` | src/em_6502.c:314-322 | leaves the store `Handlers.BitMem` describes |
| `Emulator.Cpu.Compare` | src/em_6502.c:340-362 | leaves the store `Handlers.Compare` describes |
| `Emulator.Cpu.Step` | src/em_6502.c:364-435 | leaves the store `Handlers.Step` describes |
| `Emulator.Cpu.StepMem` | src/em_6502.c:373-417 | leaves the store `Handlers.StepMem` describes |
| `Emulator.Cpu.Load` | src/em_6502.c:443-456 | leaves the store `Handlers.Load` describes |
| `Emulator.Cpu.Store` | src/em_6502.c:627-652 | leaves the store `Handlers.Store` describes |
| `Emulator.Cpu.Push` | src/em_6502.c:483-510 | leaves the store `Handlers.Push` describes |
| `Emulator.Cpu.PushStatus` | src/em_6502.c:490-496 | leaves the store `Handlers.PushStatus` describes |
| `Emulator.Cpu.Pull` | src/em_6502.c:512-541 | leaves the store `Handlers.Pull` describes |
| `Emulator.Cpu.PullStatus` | src/em_6502.c:520-525 | leaves the store `Handlers.PullStatus` describes |
| `Emulator.Cpu.Transfer` | src/em_6502.c:654-696 | leaves the store `Handlers.Transfer` describes |
| `Emulator.Cpu.Txs` | src/em_6502.c:698-702 | leaves the store `Handlers.Txs` describes |
| `Emulator.Cpu.GetState` | src/em_6502.c:143-180 | returns `Render` of the store as it was, and clears the fault, changing nothing else |
| `Soundness.AgreesGet` | src/em_6502.c:41-44 | a known register of an agreeing store is the machine's |
| `Soundness.AgreesPut` | src/em_6502.c:41-44 | writing the same value into store and machine keeps agreement |
| `Soundness.AdcSound` | src/em_6502.c:183-195 | op_ADC keeps agreement with the processor's ADC |
| `Soundness.SbcSound` | src/em_6502.c:601-613 | op_SBC keeps agreement with the processor's SBC |
| `Soundness.BitwiseSound` | src/em_6502.c:197-204 | op_AND, op_ORA and op_EOR keep agreement |
| `Soundness.ShiftOutIsShifted` | src/em_6502.c:206-220 | the handlers' shift arithmetic is the processor's |
| `Soundness.ShiftOutFits` | src/em_6502.c:206-220 | the carry fed in when C is unknown does not matter to ASL and LSR |
| `Soundness.ShiftAccSound` | src/em_6502.c:206-214 | the shifts and rotates of A keep agreement |
| `Soundness.ShiftMemSound` | src/em_6502.c:216-220 | the shifts and rotates of memory keep agreement |
| `Soundness.BranchSound` | src/em_6502.c:222-300 | a branch whose outcome the machine's flag dictates never faults and keeps agreement |
| `Soundness.CompareSound` | src/em_6502.c:340-362 | a comparison keeps agreement when the register is known, or when it is unknown and N, Z and C are all unknown already |
| `Soundness.KnownLoadSound` | src/em_6502.c:120-123 | a register set to a byte with N, Z from it agrees with the machine's load |
| `Soundness.UnknownLoadSound` | src/em_6502.c:102-105 | an unknown register with N, Z forgotten agrees with any load |
| `Soundness.StepKnownSound` | src/em_6502.c:364-371 | a known register stepped by the handler agrees with the processor loading (value + delta) mod 256 into it |
| `Soundness.StepSound` | src/em_6502.c:364-435 | the register increments and decrements keep agreement |
| `Soundness.LoadSound` | src/em_6502.c:443-456 | the loads keep agreement |
| `Soundness.StoreSound` | src/em_6502.c:627-652 | a store of the register's own value never faults and keeps agreement |
| `Soundness.MoveSSound` | src/em_6502.c:437-441 | moving S keeps agreement |
| `Soundness.StatusSound` | src/em_6502.c:60-100 | a status byte whose bits are the machine's flags passes the check and bulk-sets flags that agree |
| `Soundness.PulledStatusSound` | src/em_6502.c:93-100 | bulk-setting the flags from a pulled byte agrees with the machine pulling it |
| `Soundness.TransferSound` | src/em_6502.c:654-696 | a transfer keeps agreement when the source is known, or when it is unknown and the destination is unknown already |
| `Soundness.TestBitsSound` | src/em_6502.c:306-312 | BIT #imm and TSB/TRB keep agreement |
| `Soundness.BitMemSound` | src/em_6502.c:314-322 | BIT keeps agreement |
| `Soundness.StepMemSound` | src/em_6502.c:373-376 | INC and DEC on memory keep agreement |
| `Soundness.PushSound` | src/em_6502.c:483-488 | a push of the register's own value never faults and keeps agreement |
| `Soundness.PullSound` | src/em_6502.c:512-518 | the pulls keep agreement |
| `Soundness.PushStatusSound` | src/em_6502.c:490-496 | PHP of the machine's status byte never faults and keeps agreement |
| `Soundness.PullStatusSound` | src/em_6502.c:520-525 | PLP and RTI keep agreement |
| `Soundness.InterruptSound` | src/em_6502.c:125-133 | an interrupt pushing the machine's status byte never faults and keeps agreement |
| `Soundness.TxsSound` | src/em_6502.c:698-702 | TXS keeps agreement when X is known, or when X is unknown and S is unknown already |
| `Soundness.ArithSound` | src/em_6502.c:183-204 | the main theorem for ADC, SBC, AND, ORA, EOR |
| `Soundness.ShiftAccSoundAll` | src/em_6502.c:206-214 | the main theorem for ASLA, LSRA, ROLA, RORA |
| `Soundness.ShiftMemSoundAll` | src/em_6502.c:216-220 | the main theorem for ASL, LSR, ROL, ROR |
| `Soundness.CarryZeroBranchSound` | src/em_6502.c:222-260 | the main theorem for BCC, BCS, BNE, BEQ |
| `Soundness.SignOverflowBranchSound` | src/em_6502.c:262-300 | the main theorem for BPL, BMI, BVC, BVS |
| `Soundness.FlagOpSound` | src/em_6502.c:324-338 | the main theorem for CLC, CLD, CLI, CLV, SEC, SED, SEI |
| `Soundness.BitTestSound` | src/em_6502.c:306-322 | the main theorem for BIT #imm, TSB/TRB and BIT |
| `Soundness.CompareSoundAll` | src/em_6502.c:340-362 | the main theorem for CMP, CPX, CPY off the stale paths |
| `Soundness.StepSoundAll` | src/em_6502.c:364-435 | the main theorem for DECA, DEX, DEY, INCA, INX, INY |
| `Soundness.StepMemSoundAll` | src/em_6502.c:373-417 | the main theorem for DEC and INC on memory |
| `Soundness.LoadSoundAll` | src/em_6502.c:443-456 | the main theorem for LDA, LDX, LDY |
| `Soundness.StorePushSound` | src/em_6502.c:627-652 | the main theorem for STA, STX, STY, PHA, PHX, PHY |
| `Soundness.PullSoundAll` | src/em_6502.c:512-541 | the main theorem for PLA, PLX, PLY, PLP, RTI |
| `Soundness.CallSound` | src/em_6502.c:437-441 | the main theorem for PHP, BRK, JSR, RTS |
| `Soundness.TransferSoundAll` | src/em_6502.c:654-711 | the main theorem for TAX, TAY, TSX, TXA, TYA, TXS off the stale paths |
| `Soundness.ExecSound` | src/em_6502.c:183-711 | for a binary-mode 65C02 the store describes, every handler fed an observation the processor explains raises no fault and leaves a store that agrees with the processor's next state, off the stale paths (where `StaleBreaksAgreement` shows it fails) |
| `Soundness.InitialDescribesAll` | src/em_6502.c:40-53 | the all-unknown start state agrees with every machine |
| `Soundness.TransferFromUnknownIsStale` | src/em_6502.c:654-661 | TAX with A unknown and X known breaks agreement on a concrete machine |
| `Soundness.TxsFromUnknownIsStale` | src/em_6502.c:698-702 | TXS with X unknown and S known breaks agreement on a concrete machine |
| `Soundness.CompareUnknownIsStale` | src/em_6502.c:340-346 | CMP with A unknown and C known breaks agreement on a concrete machine |
| `Soundness.Witness` | src/em_6502.c:40-53 | every valid store describes some processor: its known cells' values, 0 elsewhere |
| `Soundness.TransferStaleBreaks` | src/em_6502.c:654-696 | every transfer from an unknown source into a known destination breaks agreement on some processor the store describes |
| `Soundness.TxsStaleBreaks` | src/em_6502.c:698-702 | every TXS with X unknown and S known breaks agreement on some processor the store describes |
| `Soundness.CompareStaleBreaks` | src/em_6502.c:340-362 | every compare with an unknown register while N, Z or C is known breaks agreement for some register value and operand |
| `Soundness.StaleBreaksAgreement` | src/em_6502.c:340-702 | on every stale store some processor that the store describes and that explains the observation disagrees with the store after the handler, so `Stale` is exactly where `ExecSound` fails |
| `Soundness.ExecAll` | src/em_6502.c:183-711 | running the handlers of a trace in order keeps the store valid and never clears the fault |
| `Soundness.TraceSound` | src/em_6502.c:183-711 | over a whole trace a binary-mode 65C02 explains and that avoids the stale paths, no fault is raised and the final store agrees with the final processor |
| `Soundness.FaultRulesOutEveryMachine` | src/em_6502.c:143-180 | a "prediction failed" after a trace from start-up means no binary-mode 65C02 produced that trace while avoiding the stale paths |
| `Corrections.CorrectedTransfer` | src/em_6502.c:654-696 | as op_TAX..op_TYA with a known source; with an unknown source the destination, N and Z become unknown and nothing else changes |
| `Corrections.CorrectedTxs` | src/em_6502.c:698-702 | S takes X, known or not; everything else as op_TXS leaves it |
| `Corrections.CorrectedCompare` | src/em_6502.c:340-362 | as op_CMP/CPX/CPY with a known register; with an unknown one N, Z and C all become unknown and nothing else changes |
| `Corrections.CorrectedExec` | src/em_6502.c:183-711 | the corrected handlers keep a valid store and never clear the fault |
| `Corrections.CorrectedHandler` | src/em_6502.c:340-702 | the nine corrected routines keep a valid store and leave the fault as it was |
| `Corrections.CorrectionOnlyOnStale` | src/em_6502.c:340-702 | off the stale paths each corrected routine leaves exactly the store the source's handler does |
| `Corrections.TransfersOnlyOnStale` | src/em_6502.c:654-675 | the same for TAX, TAY, TSX |
| `Corrections.TransfersFromXYOnlyOnStale` | src/em_6502.c:677-696 | the same for TXA, TYA |
| `Corrections.TxsOnlyOnStale` | src/em_6502.c:698-702 | the same for TXS |
| `Corrections.ComparesOnlyOnStale` | src/em_6502.c:340-362 | the same for CMP, CPX, CPY |
| `Corrections.CorrectedTransferOffStale` | src/em_6502.c:654-696 | with a known source or an unknown destination the corrected transfer is op_TAX..op_TYA's |
| `Corrections.CorrectedTransferSound` | src/em_6502.c:654-696 | the corrected transfer keeps agreement with every processor, whatever is known |
| `Corrections.CorrectedCompareSound` | src/em_6502.c:340-362 | the corrected compare keeps agreement with every processor, whatever is known |
| `Corrections.CorrectedExecSound` | src/em_6502.c:183-711 | every corrected handler fed an observation a binary-mode 65C02 explains raises no fault and keeps agreement, with no path excluded |
| `Corrections.CorrectedExecAll` | src/em_6502.c:183-711 | running the corrected handlers of a trace keeps the store valid and never clears the fault |
| `Corrections.CorrectedTraceSound` | src/em_6502.c:183-711 | over every trace a binary-mode 65C02 explains, the corrected interpreter raises no fault and ends agreeing with the processor |
| `Corrections.CorrectedFaultRulesOutEveryMachine` | src/em_6502.c:143-180 | with the corrections, a "prediction failed" from start-up rules out every binary-mode 65C02 |

## Left out

- The disassembly templates of the addressing-mode catalog are copied as text and never interpreted; they serve a disassembler outside this file.
- `em_6502.h` is not part of this model. The mode enumeration is defined in catalog order, and the source's `InstrType` record becomes `Tables.Instr`.
- The static output buffer and `sprintf`/`strcpy` of `em_get_state`: the snapshot is returned as a string value, so the buffer's sharing between calls is not modelled.
- The decoder that picks an instruction and calls its handler through the table is outside this file. `Handlers.Exec` is that dispatch on the closed `Handler` datatype, as a function; `Cpu` has no dispatching method.
- Opcodes whose table entry has no handler (NOP, WAI, STP, RMB/SMB, BBR/BBS, JMP, STZ, BRA and the rest) change no state. They appear in the table with `None` and only their length is computed.
- `Opcodes.InstrTable` is stated only entry by entry. A property quantified over all 256 entries, such as "every branch handler sits on a BRA entry", is not proved.
- Soundness: the processor model `Run` covers the registers and flags only, not memory or the program counter.
- ExecSound: holds only off the stale paths (a transfer or TXS from an unknown register into a known one, a compare with an unknown register while N, Z or C is known), because the code keeps a stale value there; `StaleBreaksAgreement` shows it fails on every one of them. It covers a 65C02 in binary mode only: ADC and SBC are explained only with D clear, since neither the code nor `Run` has decimal arithmetic, and BRK clears D as on the 65C02, not as on the NMOS 6502.
- TraceSound: the same two limits, over a whole trace: the trace must avoid the stale paths, and decimal-mode ADC/SBC and NMOS BRK behaviour are not covered. `Corrections.CorrectedTraceSound` drops the first limit for the corrected interpreter.
- FaultRulesOutEveryMachine: rules out only binary-mode 65C02s whose trace avoids the stale paths; a decimal-mode or NMOS 6502 trace is not covered.
