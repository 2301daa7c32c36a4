/** The contents of instr_table in src/em_6502.c (lines 724-981), one entry per opcode. */
module Opcodes {
  import opened Wrappers
  import opened Handlers
  import opened Tables

  /** instr_table, indexed by opcode. */
  const InstrTable: seq<Instr> := [
      // 0x00
      Entry("BRK", IMM, WRITEOP, Some(BRK)),
      Entry("ORA", INDX, READOP, Some(ORA)),
      Entry("NOP", IMM, READOP, None),
      Entry("NOP", IMP, READOP, None),
      Entry("TSB", ZP, READOP, Some(TSB_TRB)),
      Entry("ORA", ZP, READOP, Some(ORA)),
      Entry("ASL", ZP, READOP, Some(ASL)),
      Entry("RMB0", ZP, READOP, None),
      Entry("PHP", IMP, WRITEOP, Some(PHP)),
      Entry("ORA", IMM, READOP, Some(ORA)),
      Entry("ASL", IMPA, READOP, Some(ASLA)),
      Entry("NOP", IMP, READOP, None),
      Entry("TSB", ABS, READOP, Some(TSB_TRB)),
      Entry("ORA", ABS, READOP, Some(ORA)),
      Entry("ASL", ABS, READOP, Some(ASL)),
      Entry("BBR0", ZPR, READOP, None),
      // 0x10
      Entry("BPL", BRA, BRANCHOP, Some(BPL)),
      Entry("ORA", INDY, READOP, Some(ORA)),
      Entry("ORA", IND, READOP, Some(ORA)),
      Entry("NOP", IMP, READOP, None),
      Entry("TRB", ZP, READOP, Some(TSB_TRB)),
      Entry("ORA", ZPX, READOP, Some(ORA)),
      Entry("ASL", ZPX, READOP, Some(ASL)),
      Entry("RMB1", ZP, READOP, None),
      Entry("CLC", IMP, READOP, Some(CLC)),
      Entry("ORA", ABSY, READOP, Some(ORA)),
      Entry("INC", IMPA, READOP, Some(INCA)),
      Entry("NOP", IMP, READOP, None),
      Entry("TRB", ABS, READOP, Some(TSB_TRB)),
      Entry("ORA", ABSX, READOP, Some(ORA)),
      Entry("ASL", ABSX, READOP, Some(ASL)),
      Entry("BBR1", ZPR, READOP, None),
      // 0x20
      Entry("JSR", ABS, READOP, Some(JSR)),
      Entry("AND", INDX, READOP, Some(AND)),
      Entry("NOP", IMM, READOP, None),
      Entry("NOP", IMP, READOP, None),
      Entry("BIT", ZP, READOP, Some(BIT)),
      Entry("AND", ZP, READOP, Some(AND)),
      Entry("ROL", ZP, READOP, Some(ROL)),
      Entry("RMB2", ZP, READOP, None),
      Entry("PLP", IMP, READOP, Some(PLP)),
      Entry("AND", IMM, READOP, Some(AND)),
      Entry("ROL", IMPA, READOP, Some(ROLA)),
      Entry("NOP", IMP, READOP, None),
      Entry("BIT", ABS, READOP, Some(BIT)),
      Entry("AND", ABS, READOP, Some(AND)),
      Entry("ROL", ABS, READOP, Some(ROL)),
      Entry("BBR2", ZPR, READOP, None),
      // 0x30
      Entry("BMI", BRA, BRANCHOP, Some(BMI)),
      Entry("AND", INDY, READOP, Some(AND)),
      Entry("AND", IND, READOP, Some(AND)),
      Entry("NOP", IMP, READOP, None),
      Entry("BIT", ZPX, READOP, Some(BIT)),
      Entry("AND", ZPX, READOP, Some(AND)),
      Entry("ROL", ZPX, READOP, Some(ROL)),
      Entry("RMB3", ZP, READOP, None),
      Entry("SEC", IMP, READOP, Some(SEC)),
      Entry("AND", ABSY, READOP, Some(AND)),
      Entry("DEC", IMPA, READOP, Some(DECA)),
      Entry("NOP", IMP, READOP, None),
      Entry("BIT", ABSX, READOP, Some(BIT)),
      Entry("AND", ABSX, READOP, Some(AND)),
      Entry("ROL", ABSX, READOP, Some(ROL)),
      Entry("BBR3", ZPR, READOP, None),
      // 0x40
      Entry("RTI", IMP, READOP, Some(RTI)),
      Entry("EOR", INDX, READOP, Some(EOR)),
      Entry("NOP", IMM, READOP, None),
      Entry("NOP", IMP, READOP, None),
      Entry("NOP", ZP, READOP, None),
      Entry("EOR", ZP, READOP, Some(EOR)),
      Entry("LSR", ZP, READOP, Some(LSR)),
      Entry("RMB4", ZP, READOP, None),
      Entry("PHA", IMP, WRITEOP, Some(PHA)),
      Entry("EOR", IMM, READOP, Some(EOR)),
      Entry("LSR", IMPA, READOP, Some(LSRA)),
      Entry("NOP", IMP, READOP, None),
      Entry("JMP", ABS, READOP, None),
      Entry("EOR", ABS, READOP, Some(EOR)),
      Entry("LSR", ABS, READOP, Some(LSR)),
      Entry("BBR4", ZPR, READOP, None),
      // 0x50
      Entry("BVC", BRA, BRANCHOP, Some(BVC)),
      Entry("EOR", INDY, READOP, Some(EOR)),
      Entry("EOR", IND, READOP, Some(EOR)),
      Entry("NOP", IMP, READOP, None),
      Entry("NOP", ZPX, READOP, None),
      Entry("EOR", ZPX, READOP, Some(EOR)),
      Entry("LSR", ZPX, READOP, Some(LSR)),
      Entry("RMB5", ZP, READOP, None),
      Entry("CLI", IMP, READOP, Some(CLI)),
      Entry("EOR", ABSY, READOP, Some(EOR)),
      Entry("PHY", IMP, WRITEOP, Some(PHY)),
      Entry("NOP", IMP, READOP, None),
      Entry("NOP", ABS, READOP, None),
      Entry("EOR", ABSX, READOP, Some(EOR)),
      Entry("LSR", ABSX, READOP, Some(LSR)),
      Entry("BBR5", ZPR, READOP, None),
      // 0x60
      Entry("RTS", IMP, READOP, Some(RTS)),
      Entry("ADC", INDX, READOP, Some(ADC)),
      Entry("NOP", IMM, READOP, None),
      Entry("NOP", IMP, READOP, None),
      Entry("STZ", ZP, WRITEOP, None),
      Entry("ADC", ZP, READOP, Some(ADC)),
      Entry("ROR", ZP, READOP, Some(ROR)),
      Entry("RMB6", ZP, READOP, None),
      Entry("PLA", IMP, READOP, Some(PLA)),
      Entry("ADC", IMM, READOP, Some(ADC)),
      Entry("ROR", IMPA, READOP, Some(RORA)),
      Entry("NOP", IMP, READOP, None),
      Entry("JMP", IND16, READOP, None),
      Entry("ADC", ABS, READOP, Some(ADC)),
      Entry("ROR", ABS, READOP, Some(ROR)),
      Entry("BBR6", ZPR, READOP, None),
      // 0x70
      Entry("BVS", BRA, BRANCHOP, Some(BVS)),
      Entry("ADC", INDY, READOP, Some(ADC)),
      Entry("ADC", IND, READOP, Some(ADC)),
      Entry("NOP", IMP, READOP, None),
      Entry("STZ", ZPX, WRITEOP, None),
      Entry("ADC", ZPX, READOP, Some(ADC)),
      Entry("ROR", ZPX, READOP, Some(ROR)),
      Entry("RMB7", ZP, READOP, None),
      Entry("SEI", IMP, READOP, Some(SEI)),
      Entry("ADC", ABSY, READOP, Some(ADC)),
      Entry("PLY", IMP, READOP, Some(PLY)),
      Entry("NOP", IMP, READOP, None),
      Entry("JMP", IND1X, READOP, None),
      Entry("ADC", ABSX, READOP, Some(ADC)),
      Entry("ROR", ABSX, READOP, Some(ROR)),
      Entry("BBR7", ZPR, READOP, None),
      // 0x80
      Entry("BRA", BRA, READOP, None),
      Entry("STA", INDX, WRITEOP, Some(STA)),
      Entry("NOP", IMM, READOP, None),
      Entry("NOP", IMP, READOP, None),
      Entry("STY", ZP, WRITEOP, Some(STY)),
      Entry("STA", ZP, WRITEOP, Some(STA)),
      Entry("STX", ZP, WRITEOP, Some(STX)),
      Entry("SMB0", ZP, READOP, None),
      Entry("DEY", IMP, READOP, Some(DEY)),
      Entry("BIT", IMM, READOP, Some(BIT_IMM)),
      Entry("TXA", IMP, READOP, Some(TXA)),
      Entry("NOP", IMP, READOP, None),
      Entry("STY", ABS, WRITEOP, Some(STY)),
      Entry("STA", ABS, WRITEOP, Some(STA)),
      Entry("STX", ABS, WRITEOP, Some(STX)),
      Entry("BBS0", ZPR, READOP, None),
      // 0x90
      Entry("BCC", BRA, BRANCHOP, Some(BCC)),
      Entry("STA", INDY, WRITEOP, Some(STA)),
      Entry("STA", IND, WRITEOP, Some(STA)),
      Entry("NOP", IMP, READOP, None),
      Entry("STY", ZPX, WRITEOP, Some(STY)),
      Entry("STA", ZPX, WRITEOP, Some(STA)),
      Entry("STX", ZPY, WRITEOP, Some(STX)),
      Entry("SMB1", ZP, READOP, None),
      Entry("TYA", IMP, READOP, Some(TYA)),
      Entry("STA", ABSY, WRITEOP, Some(STA)),
      Entry("TXS", IMP, READOP, Some(TXS)),
      Entry("NOP", IMP, READOP, None),
      Entry("STZ", ABS, WRITEOP, None),
      Entry("STA", ABSX, WRITEOP, Some(STA)),
      Entry("STZ", ABSX, WRITEOP, None),
      Entry("BBS1", ZPR, READOP, None),
      // 0xA0
      Entry("LDY", IMM, READOP, Some(LDY)),
      Entry("LDA", INDX, READOP, Some(LDA)),
      Entry("LDX", IMM, READOP, Some(LDX)),
      Entry("NOP", IMP, READOP, None),
      Entry("LDY", ZP, READOP, Some(LDY)),
      Entry("LDA", ZP, READOP, Some(LDA)),
      Entry("LDX", ZP, READOP, Some(LDX)),
      Entry("SMB2", ZP, READOP, None),
      Entry("TAY", IMP, READOP, Some(TAY)),
      Entry("LDA", IMM, READOP, Some(LDA)),
      Entry("TAX", IMP, READOP, Some(TAX)),
      Entry("NOP", IMP, READOP, None),
      Entry("LDY", ABS, READOP, Some(LDY)),
      Entry("LDA", ABS, READOP, Some(LDA)),
      Entry("LDX", ABS, READOP, Some(LDX)),
      Entry("BBS2", ZPR, READOP, None),
      // 0xB0
      Entry("BCS", BRA, BRANCHOP, Some(BCS)),
      Entry("LDA", INDY, READOP, Some(LDA)),
      Entry("LDA", IND, READOP, Some(LDA)),
      Entry("NOP", IMP, READOP, None),
      Entry("LDY", ZPX, READOP, Some(LDY)),
      Entry("LDA", ZPX, READOP, Some(LDA)),
      Entry("LDX", ZPY, READOP, Some(LDX)),
      Entry("SMB3", ZP, READOP, None),
      Entry("CLV", IMP, READOP, Some(CLV)),
      Entry("LDA", ABSY, READOP, Some(LDA)),
      Entry("TSX", IMP, READOP, Some(TSX)),
      Entry("NOP", IMP, READOP, None),
      Entry("LDY", ABSX, READOP, Some(LDY)),
      Entry("LDA", ABSX, READOP, Some(LDA)),
      Entry("LDX", ABSY, READOP, Some(LDX)),
      Entry("BBS3", ZPR, READOP, None),
      // 0xC0
      Entry("CPY", IMM, READOP, Some(CPY)),
      Entry("CMP", INDX, READOP, Some(CMP)),
      Entry("NOP", IMM, READOP, None),
      Entry("NOP", IMP, READOP, None),
      Entry("CPY", ZP, READOP, Some(CPY)),
      Entry("CMP", ZP, READOP, Some(CMP)),
      Entry("DEC", ZP, READOP, Some(DEC)),
      Entry("SMB4", ZP, READOP, None),
      Entry("INY", IMP, READOP, Some(INY)),
      Entry("CMP", IMM, READOP, Some(CMP)),
      Entry("DEX", IMP, READOP, Some(DEX)),
      Entry("WAI", IMP, READOP, None),
      Entry("CPY", ABS, READOP, Some(CPY)),
      Entry("CMP", ABS, READOP, Some(CMP)),
      Entry("DEC", ABS, READOP, Some(DEC)),
      Entry("BBS4", ZPR, READOP, None),
      // 0xD0
      Entry("BNE", BRA, BRANCHOP, Some(BNE)),
      Entry("CMP", INDY, READOP, Some(CMP)),
      Entry("CMP", IND, READOP, Some(CMP)),
      Entry("NOP", IMP, READOP, None),
      Entry("NOP", ZPX, READOP, None),
      Entry("CMP", ZPX, READOP, Some(CMP)),
      Entry("DEC", ZPX, READOP, Some(DEC)),
      Entry("SMB5", ZP, READOP, None),
      Entry("CLD", IMP, READOP, Some(CLD)),
      Entry("CMP", ABSY, READOP, Some(CMP)),
      Entry("PHX", IMP, WRITEOP, Some(PHX)),
      Entry("STP", IMP, READOP, None),
      Entry("NOP", ABS, READOP, None),
      Entry("CMP", ABSX, READOP, Some(CMP)),
      Entry("DEC", ABSX, READOP, Some(DEC)),
      Entry("BBS5", ZPR, READOP, None),
      // 0xE0
      Entry("CPX", IMM, READOP, Some(CPX)),
      Entry("SBC", INDX, READOP, Some(SBC)),
      Entry("NOP", IMM, READOP, None),
      Entry("NOP", IMP, READOP, None),
      Entry("CPX", ZP, READOP, Some(CPX)),
      Entry("SBC", ZP, READOP, Some(SBC)),
      Entry("INC", ZP, READOP, Some(INC)),
      Entry("SMB6", ZP, READOP, None),
      Entry("INX", IMP, READOP, Some(INX)),
      Entry("SBC", IMM, READOP, Some(SBC)),
      Entry("NOP", IMP, READOP, None),
      Entry("NOP", IMP, READOP, None),
      Entry("CPX", ABS, READOP, Some(CPX)),
      Entry("SBC", ABS, READOP, Some(SBC)),
      Entry("INC", ABS, READOP, Some(INC)),
      Entry("BBS6", ZPR, READOP, None),
      // 0xF0
      Entry("BEQ", BRA, BRANCHOP, Some(BEQ)),
      Entry("SBC", INDY, READOP, Some(SBC)),
      Entry("SBC", IND, READOP, Some(SBC)),
      Entry("NOP", IMP, READOP, None),
      Entry("NOP", ZPX, READOP, None),
      Entry("SBC", ZPX, READOP, Some(SBC)),
      Entry("INC", ZPX, READOP, Some(INC)),
      Entry("SMB7", ZP, READOP, None),
      Entry("SED", IMP, READOP, Some(SED)),
      Entry("SBC", ABSY, READOP, Some(SBC)),
      Entry("PLX", IMP, READOP, Some(PLX)),
      Entry("NOP", IMP, READOP, None),
      Entry("NOP", ABS, READOP, None),
      Entry("SBC", ABSX, READOP, Some(SBC)),
      Entry("INC", ABSX, READOP, Some(INC)),
      Entry("BBS7", ZPR, READOP, None)
    ]

  /** A fresh copy of instr_table with em_init applied. */
  method Initialize() returns (table: array<Instr>)
    ensures fresh(table) && table.Length == 256
    ensures forall k :: 0 <= k < 256 ==> table[k] == Resolved(InstrTable[k])
  {
    table := new Instr[256](k requires 0 <= k < 256 => InstrTable[k]);
    EmInit(table);
  }
}
