/** The processor (`Cpu` in src/lib.rs): the register file and the
    fetch-and-dispatch step `exec`, which reads its opcode and operands
    from the cartridge. */
module Processor {
  import opened Types
  import opened Cartridge

  /** Why a step stops: with the exception of NOP and LD BC,n16 no
      instruction is implemented yet. */
  datatype ExecError = NotYetImplemented

  const NopOpcode: u8 := 0x00
  const LdBcN16Opcode: u8 := 0x01

  /** The program counter after one increment. The model takes the
      wrap-around of a 16-bit register. */
  function Inc16(x: u16): (y: u16)
    ensures y == (x + 1) % 0x1_0000
  {
    if x == 0xFFFF then 0 else x + 1
  }

  /** A snapshot of every register. */
  datatype Registers = Registers(
    a: u8, b: u8, c: u8, d: u8, e: u8, f: u8, h: u8, l: u8,
    sp: u16, pc: u16)
  {
    /** The 16-bit BC view, B being the high byte. */
    function BC(): u16 {
      b * 0x100 + c
    }
  }

  /** The registers after reset. */
  const Reset: Registers := Registers(0, 0, 0, 0, 0, 0, 0, 0, 0xFFFE, 0x0100)

  /** Reference definition of one `exec` step on a register snapshot: fetch
      the opcode at pc and dispatch on it. */
  function Step(s: Registers, rom: Rom): Result<Registers, ExecError> {
    match rom.GetValue(s.pc)
    case 0x00 =>
      Ok(s.(pc := Inc16(s.pc)))
    case 0x01 =>
      var p1 := Inc16(s.pc);
      var p2 := Inc16(p1);
      Ok(s.(b := rom.GetValue(p1), c := rom.GetValue(p2), pc := Inc16(p2)))
    case _ =>
      Err(NotYetImplemented)
  }

  /** How many bytes each implemented instruction occupies. */
  function InstructionLength(opcode: u8): nat {
    if opcode == LdBcN16Opcode then 3 else 1
  }

  /** Only NOP and LD BC,n16 execute; every other opcode fails, and the
      error is always NotYetImplemented. */
  lemma StepSucceedsIff(s: Registers, rom: Rom)
    ensures Step(s, rom).Ok? <==> rom.GetValue(s.pc) in {NopOpcode, LdBcN16Opcode}
    ensures Step(s, rom).Err? ==> Step(s, rom).error == NotYetImplemented
  {
  }

  /** A successful step moves pc past the instruction and its operands,
      modulo 2^16, and leaves A, D, E, F, H, L and SP as they were. */
  lemma StepFrame(s: Registers, rom: Rom)
    requires Step(s, rom).Ok?
    ensures Step(s, rom).value.pc == (s.pc + InstructionLength(rom.GetValue(s.pc))) % 0x1_0000
    ensures var t := Step(s, rom).value;
      t.a == s.a && t.d == s.d && t.e == s.e && t.f == s.f && t.h == s.h && t.l == s.l && t.sp == s.sp
  {
  }

  /** NOP changes nothing but pc, which it advances by one. */
  lemma NopOnlyAdvancesPc(s: Registers, rom: Rom)
    requires rom.GetValue(s.pc) == NopOpcode
    ensures Step(s, rom) == Ok(Registers(s.a, s.b, s.c, s.d, s.e, s.f, s.h, s.l, s.sp, (s.pc + 1) % 0x1_0000))
  {
  }

  /** LD BC,n16 takes B from the byte after the opcode and C from the one
      after that, so BC reads its operand high byte first; away from the
      top of the address space pc advances by exactly three. */
  lemma LdBcN16LoadsOperand(s: Registers, rom: Rom)
    requires rom.GetValue(s.pc) == LdBcN16Opcode
    ensures Step(s, rom).Ok?
    ensures var t := Step(s, rom).value;
      && t.b == rom.GetValue((s.pc + 1) % 0x1_0000)
      && t.c == rom.GetValue((s.pc + 2) % 0x1_0000)
      && t.BC() == rom.GetValue((s.pc + 1) % 0x1_0000) * 0x100 + rom.GetValue((s.pc + 2) % 0x1_0000)
    ensures s.pc <= 0xFFFC ==> Step(s, rom).value.pc == s.pc + 3
  {
  }

  /** With bytes 01 34 12 at pc, LD BC,n16 leaves BC = 0x3412: the operand
      is taken high byte first, so BC is not the little-endian 0x1234. */
  lemma LdBcN16ByteOrder(s: Registers, rom: Rom)
    requires s.pc <= 0xFFFC
    requires rom.GetValue(s.pc) == 0x01 && rom.GetValue(s.pc + 1) == 0x34 && rom.GetValue(s.pc + 2) == 0x12
    ensures Step(s, rom).Ok? && Step(s, rom).value.BC() == 0x3412
  {
  }

  /** At the top of the address space pc wraps around: LD BC,n16 at 0xFFFF
      reads its operands from 0x0000 and 0x0001 and resumes at 0x0002. */
  lemma LdBcN16Wraps(s: Registers, rom: Rom)
    requires s.pc == 0xFFFF && rom.GetValue(s.pc) == LdBcN16Opcode
    ensures Step(s, rom).Ok?
    ensures Step(s, rom).value.b == rom.GetValue(0) && Step(s, rom).value.c == rom.GetValue(1)
    ensures Step(s, rom).value.pc == 2
  {
  }

  /** The register file, updated in place by each executed instruction. */
  class Cpu {
    var a: u8
    var b: u8
    var c: u8
    var d: u8
    var e: u8
    var f: u8
    var h: u8
    var l: u8
    var sp: u16
    var pc: u16

    /** The current value of every register. */
    function Regs(): Registers
      reads this
    {
      Registers(a, b, c, d, e, f, h, l, sp, pc)
    }

    /** Power-on state: all 8-bit registers 0, SP = 0xFFFE, PC = 0x0100. */
    constructor ()
      ensures Regs() == Reset
    {
      a, b, c, d, e, f, h, l := 0, 0, 0, 0, 0, 0, 0, 0;
      sp, pc := 0xFFFE, 0x0100;
    }

    /** Opcode 0x00. */
    method Nop()
      modifies this`pc
      ensures pc == (old(pc) + 1) % 0x1_0000
      ensures Regs() == old(Regs()).(pc := (old(pc) + 1) % 0x1_0000)
    {
      pc := Inc16(pc);
    }

    /** Opcode 0x01: load B and C from the two bytes that follow the opcode. */
    method LdBcN16(rom: Rom)
      modifies this`pc, this`b, this`c
      ensures b == rom.GetValue((old(pc) + 1) % 0x1_0000)
      ensures c == rom.GetValue((old(pc) + 2) % 0x1_0000)
      ensures pc == (old(pc) + 3) % 0x1_0000
      ensures Regs() == old(Regs()).(b := b, c := c, pc := pc)
    {
      pc := Inc16(pc);
      b := rom.GetValue(pc);
      pc := Inc16(pc);
      c := rom.GetValue(pc);
      pc := Inc16(pc);
    }

    /** Opcode 0x02, a stub: it fails before touching any register. */
    method LdBcA(rom: Rom) returns (o: Result<(), ExecError>)
      ensures o == Err(NotYetImplemented)
    {
      o := Err(NotYetImplemented);
    }

    /** Opcode 0x03, a stub: it fails before touching any register. */
    method IncBc() returns (o: Result<(), ExecError>)
      ensures o == Err(NotYetImplemented)
    {
      o := Err(NotYetImplemented);
    }

    /** Opcode 0x04, a stub: it fails before touching any register. */
    method IncB() returns (o: Result<(), ExecError>)
      ensures o == Err(NotYetImplemented)
    {
      o := Err(NotYetImplemented);
    }

    /** Execute the instruction at pc. On success the registers are those
        of Step; on failure no register has changed. */
    method Exec(rom: Rom) returns (o: Result<(), ExecError>)
      modifies this
      ensures o.Ok? <==> Step(old(Regs()), rom).Ok?
      ensures o.Ok? ==> Regs() == Step(old(Regs()), rom).value
      ensures o.Err? ==> o.error == Step(old(Regs()), rom).error && Regs() == old(Regs())
    {
      var op := rom.GetValue(pc);
      match op
      case 0x00 =>
        Nop();
        o := Ok(());
      case 0x01 =>
        LdBcN16(rom);
        o := Ok(());
      case 0x02 =>
        o := LdBcA(rom);
      case 0x03 =>
        o := IncBc();
      case 0x04 =>
        o := IncB();
      case _ =>
        o := Err(NotYetImplemented);
    }
  }

  /** From reset, a cartridge whose entry point holds NOP runs it and
      stops at 0x0101 with every other register at its reset value. */
  method ResetThenNop(rom: Rom) returns (cpu: Cpu, o: Result<(), ExecError>)
    requires rom.GetValue(0x0100) == NopOpcode
    ensures o.Ok?
    ensures cpu.Regs() == Reset.(pc := 0x0101)
  {
    cpu := new Cpu();
    o := cpu.Exec(rom);
  }
}
