/**
 * The state renderer of src/em_6502.c:24-36 and 134-180: the store shown
 * on the fixed 44-character layout
 *   A=?? X=?? Y=?? SP=?? N=? V=? D=? I=? Z=? C=?
 * where each known register replaces its "??" by two upper-case hex digits,
 * each known flag replaces its "?" by '0' or '1', and " prediction failed"
 * follows when the fault indicator is set. `Render` writes the cells into
 * the template at the source's offsets (`WriteRegs`, `WriteFlags`) and
 * appends the annotation; `RenderLayout` states where each field lands.
 * The emulator's `GetState` returns `Render` of its cells: the buffer the
 * source fills in place is not modelled.
 */
module Renderer {
  import opened TriState
  import opened Bits
  import opened Registers
  import opened Wrappers

  /** default_state */
  const Template: string := "A=?? X=?? Y=?? SP=?? N=? V=? D=? I=? Z=? C=?"

  /** The annotation appended at OFFSET_FF when the fault indicator is set. */
  const FailText: string := " prediction failed"

  const OffsetA: nat := 2
  const OffsetX: nat := 7
  const OffsetY: nat := 12
  const OffsetS: nat := 18
  const OffsetN: nat := 23
  const OffsetV: nat := 27
  const OffsetD: nat := 31
  const OffsetI: nat := 35
  const OffsetZ: nat := 39
  const OffsetC: nat := 43
  const OffsetFail: nat := 44

  /** The value of an upper-case hex digit, -1 for any other character. */
  function HexValue(ch: char): (v: int) {
    if '0' <= ch <= '9' then ch as int - '0' as int
    else if 'A' <= ch <= 'F' then ch as int - 'A' as int + 10
    else -1
  }

  /** write_hex1: the upper-case hex digit of a nibble. */
  function HexDigit(v: int): (ch: char)
    requires 0 <= v < 16
    ensures '0' <= ch <= '9' || 'A' <= ch <= 'F'
    ensures HexValue(ch) == v
  {
    (v + (if v < 10 then '0' as int else 'A' as int - 10)) as char
  }

  /** write_hex2: the high nibble `(v >> 4) & 15`, then the low nibble `v & 15`. */
  function Hex2(v: int): (s: string)
    requires IsByte(v)
    ensures |s| == 2 && s != "??"
    ensures HexValue(s[0]) == v / 16 && HexValue(s[1]) == v % 16
    ensures HexValue(s[0]) * 16 + HexValue(s[1]) == v
  {
    [HexDigit((v / 16) % 16), HexDigit(v % 16)]
  }

  /** The two characters shown for a register. */
  function RegText(t: Tri): (s: string)
    requires KnownByte(t)
    ensures |s| == 2
  {
    if t.Known? then Hex2(t.val) else "??"
  }

  /** The character shown for a flag: `'0' + flag` when known. */
  function FlagChar(t: Tri): (ch: char)
    requires KnownBit(t)
  {
    if t.Known? then ('0' as int + t.val) as char else '?'
  }

  /** The offsets of the register digits and flag characters within the template. */
  predicate IsField(k: int) {
    k == OffsetA || k == OffsetA + 1 || k == OffsetX || k == OffsetX + 1 ||
    k == OffsetY || k == OffsetY + 1 || k == OffsetS || k == OffsetS + 1 ||
    k == OffsetN || k == OffsetV || k == OffsetD || k == OffsetI || k == OffsetZ || k == OffsetC
  }

  /** The register digits written over a 44-character line. */
  function WriteRegs(t: string, r: Regs): (s: string)
    requires |t| == 44 && Valid(r)
    ensures |s| == 44
  {
    var a, x, y, sp := RegText(r.a), RegText(r.x), RegText(r.y), RegText(r.s);
    t[OffsetA := a[0]][OffsetA + 1 := a[1]][OffsetX := x[0]][OffsetX + 1 := x[1]]
     [OffsetY := y[0]][OffsetY + 1 := y[1]][OffsetS := sp[0]][OffsetS + 1 := sp[1]]
  }

  /** The flag characters written over a 44-character line. */
  function WriteFlags(t: string, r: Regs): (s: string)
    requires |t| == 44 && Valid(r)
    ensures |s| == 44
  {
    t[OffsetN := FlagChar(r.n)][OffsetV := FlagChar(r.v)][OffsetD := FlagChar(r.d)]
     [OffsetI := FlagChar(r.i)][OffsetZ := FlagChar(r.z)][OffsetC := FlagChar(r.c)]
  }

  /** The template with every cell's characters written at its offset, registers first. */
  function Overlay(r: Regs): (s: string)
    requires Valid(r)
    ensures |s| == 44
  {
    WriteFlags(WriteRegs(Template, r), r)
  }

  /** The snapshot of a store: the overlaid template, then the annotation exactly when a fault is pending. */
  function Render(r: Regs): (s: string)
    requires Valid(r)
    ensures |s| == if r.fail then 62 else 44
  {
    Overlay(r) + (if r.fail then FailText else "")
  }

  lemma WriteRegsFields(t: string, r: Regs)
    requires |t| == 44 && Valid(r)
    ensures var s := WriteRegs(t, r);
      s[OffsetA] == RegText(r.a)[0] && s[OffsetA + 1] == RegText(r.a)[1] &&
      s[OffsetX] == RegText(r.x)[0] && s[OffsetX + 1] == RegText(r.x)[1] &&
      s[OffsetY] == RegText(r.y)[0] && s[OffsetY + 1] == RegText(r.y)[1] &&
      s[OffsetS] == RegText(r.s)[0] && s[OffsetS + 1] == RegText(r.s)[1]
    ensures forall k :: 0 <= k < 44 && k != OffsetA && k != OffsetA + 1 && k != OffsetX && k != OffsetX + 1 &&
                        k != OffsetY && k != OffsetY + 1 && k != OffsetS && k != OffsetS + 1 ==>
                        WriteRegs(t, r)[k] == t[k]
  {
  }

  lemma WriteFlagsFields(t: string, r: Regs)
    requires |t| == 44 && Valid(r)
    ensures var s := WriteFlags(t, r);
      s[OffsetN] == FlagChar(r.n) && s[OffsetV] == FlagChar(r.v) && s[OffsetD] == FlagChar(r.d) &&
      s[OffsetI] == FlagChar(r.i) && s[OffsetZ] == FlagChar(r.z) && s[OffsetC] == FlagChar(r.c)
    ensures forall k :: 0 <= k < 44 && k != OffsetN && k != OffsetV && k != OffsetD &&
                        k != OffsetI && k != OffsetZ && k != OffsetC ==>
                        WriteFlags(t, r)[k] == t[k]
  {
  }

  lemma OverlayFields(r: Regs)
    requires Valid(r)
    ensures var s := Overlay(r);
      s[OffsetA] == RegText(r.a)[0] && s[OffsetA + 1] == RegText(r.a)[1] &&
      s[OffsetX] == RegText(r.x)[0] && s[OffsetX + 1] == RegText(r.x)[1] &&
      s[OffsetY] == RegText(r.y)[0] && s[OffsetY + 1] == RegText(r.y)[1] &&
      s[OffsetS] == RegText(r.s)[0] && s[OffsetS + 1] == RegText(r.s)[1] &&
      s[OffsetN] == FlagChar(r.n) && s[OffsetV] == FlagChar(r.v) && s[OffsetD] == FlagChar(r.d) &&
      s[OffsetI] == FlagChar(r.i) && s[OffsetZ] == FlagChar(r.z) && s[OffsetC] == FlagChar(r.c)
  {
    WriteRegsFields(Template, r);
    WriteFlagsFields(WriteRegs(Template, r), r);
  }

  lemma OverlayElsewhere(r: Regs, k: int)
    requires Valid(r) && 0 <= k < 44 && !IsField(k)
    ensures Overlay(r)[k] == Template[k]
  {
    WriteRegsFields(Template, r);
    WriteFlagsFields(WriteRegs(Template, r), r);
  }

  /**
   * Where each field lands: the registers at offsets 2, 7, 12, 18, the
   * flags at 23, 27, 31, 35, 39, 43, the annotation from 44 on, and the
   * template's own characters everywhere else.
   */
  lemma RenderLayout(r: Regs)
    requires Valid(r)
    ensures var s := Render(r);
      s[OffsetA] == RegText(r.a)[0] && s[OffsetA + 1] == RegText(r.a)[1] &&
      s[OffsetX] == RegText(r.x)[0] && s[OffsetX + 1] == RegText(r.x)[1] &&
      s[OffsetY] == RegText(r.y)[0] && s[OffsetY + 1] == RegText(r.y)[1] &&
      s[OffsetS] == RegText(r.s)[0] && s[OffsetS + 1] == RegText(r.s)[1] &&
      s[OffsetN] == FlagChar(r.n) && s[OffsetV] == FlagChar(r.v) && s[OffsetD] == FlagChar(r.d) &&
      s[OffsetI] == FlagChar(r.i) && s[OffsetZ] == FlagChar(r.z) && s[OffsetC] == FlagChar(r.c) &&
      s[OffsetFail..] == (if r.fail then FailText else "")
    ensures forall k :: 0 <= k < 44 && !IsField(k) ==> Render(r)[k] == Template[k]
  {
    var s := Render(r);
    assert s[..44] == Overlay(r);
    OverlayFields(r);
    forall k | 0 <= k < 44 && !IsField(k) ensures s[k] == Template[k] {
      OverlayElsewhere(r, k);
    }
  }

  /** The all-unknown store without a fault shows exactly the template. */
  lemma RenderInitial()
    ensures Render(Initial) == Template
  {
    var s := Render(Initial);
    forall k | 0 <= k < 44 ensures s[k] == Template[k] {
      RenderLayout(Initial);
      if IsField(k) {
        assert Template[k] == '?';
      }
    }
  }

  function ParseReg(hi: char, lo: char): (t: Tri) {
    if hi == '?' && lo == '?' then Unknown else Known(HexValue(hi) * 16 + HexValue(lo))
  }

  function ParseFlag(ch: char): (t: Tri) {
    if ch == '?' then Unknown else Known(ch as int - '0' as int)
  }

  /** Reads a snapshot back: the cells from their offsets, the fault from the length. */
  function ParseState(s: string): (result: Option<Regs>) {
    if |s| != 44 && |s| != 62 then None
    else Some(Regs(ParseReg(s[OffsetA], s[OffsetA + 1]), ParseReg(s[OffsetX], s[OffsetX + 1]),
                   ParseReg(s[OffsetY], s[OffsetY + 1]), ParseReg(s[OffsetS], s[OffsetS + 1]),
                   ParseFlag(s[OffsetN]), ParseFlag(s[OffsetV]), ParseFlag(s[OffsetD]),
                   ParseFlag(s[OffsetI]), ParseFlag(s[OffsetZ]), ParseFlag(s[OffsetC]),
                   |s| == 62))
  }

  lemma ParseRegText(t: Tri)
    requires KnownByte(t)
    ensures ParseReg(RegText(t)[0], RegText(t)[1]) == t
  {
    if t.Known? {
      assert RegText(t)[0] != '?';
    }
  }

  lemma ParseRenderRegs(r: Regs)
    requires Valid(r)
    ensures var s := Render(r);
      ParseReg(s[OffsetA], s[OffsetA + 1]) == r.a && ParseReg(s[OffsetX], s[OffsetX + 1]) == r.x &&
      ParseReg(s[OffsetY], s[OffsetY + 1]) == r.y && ParseReg(s[OffsetS], s[OffsetS + 1]) == r.s
  {
    RenderLayout(r);
    ParseRegText(r.a);
    ParseRegText(r.x);
    ParseRegText(r.y);
    ParseRegText(r.s);
  }

  lemma ParseRenderFlags(r: Regs)
    requires Valid(r)
    ensures var s := Render(r);
      ParseFlag(s[OffsetN]) == r.n && ParseFlag(s[OffsetV]) == r.v && ParseFlag(s[OffsetD]) == r.d &&
      ParseFlag(s[OffsetI]) == r.i && ParseFlag(s[OffsetZ]) == r.z && ParseFlag(s[OffsetC]) == r.c
  {
    RenderLayout(r);
  }

  /**
   * The snapshot loses nothing: every cell, known or not, and the fault
   * indicator can be read back from it.
   */
  lemma ParseRender(r: Regs)
    requires Valid(r)
    ensures ParseState(Render(r)) == Some(r)
  {
    ParseRenderRegs(r);
    ParseRenderFlags(r);
  }

  /** So two different stores never render the same way. */
  lemma RenderInjective(r1: Regs, r2: Regs)
    requires Valid(r1) && Valid(r2) && Render(r1) == Render(r2)
    ensures r1 == r2
  {
    ParseRender(r1);
    ParseRender(r2);
  }
}
