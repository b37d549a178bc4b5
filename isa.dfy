/** Semantics of the LS-8 instruction set as functions on snapshots of the
    machine state.  Register and memory values are unbounded integers: the
    machine performs no 8-bit masking anywhere, so an ADD or MUL may leave a
    register above 255 and a PUSH may store such a value in memory.

    Each handler requires the bounds under which the machine's own code
    indexes its memory and register file without an out-of-range access; the
    fetch/dispatch loop `RunFrom` checks the same bounds and reports `Fault`
    where the machine would fail instead. */
module Isa {

  datatype Option<T> = None | Some(value: T)

  const RamSize: int := 256
  const RegCount: int := 8
  /** R7 is the stack pointer. */
  const SP: int := 7
  /** Initial value of the stack pointer. */
  const StackStart: int := 0xF4

  // Opcode bytes of the thirteen instructions the dispatch table knows.
  const HLT: int := 1
  const LDI: int := 130
  const PRN: int := 71
  const MUL: int := 162
  const PUSH: int := 69
  const POP: int := 70
  const CALL: int := 80
  const RET: int := 17
  const ADD: int := 160
  const CMP: int := 167
  const JMP: int := 84
  const JEQ: int := 85
  const JNE: int := 86

  const Opcodes: set<int> := {HLT, LDI, PRN, MUL, PUSH, POP, CALL, RET, ADD, CMP, JMP, JEQ, JNE}

  // Values CMP stores in the flags register.
  const FlagEqual: int := 1
  const FlagGreater: int := 2
  const FlagLess: int := 3

  /** A snapshot of the machine: memory, registers, program counter, flags,
      the run flag and the values PRN has printed so far. */
  datatype Machine = Machine(ram: seq<int>, reg: seq<int>, pc: int, fl: int, status: bool, out: seq<int>)

  predicate IsAddr(a: int) { 0 <= a < RamSize }

  predicate IsReg(i: int) { 0 <= i < RegCount }

  predicate WellFormed(m: Machine) { |m.ram| == RamSize && |m.reg| == RegCount }

  /** Every register other than `k` holds the same value in `m` and `r`. */
  ghost predicate RegsAgreeExcept(m: Machine, r: Machine, k: int)
    requires WellFormed(m) && WellFormed(r)
  {
    forall i | IsReg(i) && i != k :: r.reg[i] == m.reg[i]
  }

  /** Every memory cell other than `a` holds the same value in `m` and `r`. */
  ghost predicate RamAgreesExcept(m: Machine, r: Machine, a: int)
    requires WellFormed(m) && WellFormed(r)
  {
    forall b | IsAddr(b) && b != a :: r.ram[b] == m.ram[b]
  }

  /** `s` is a prefix of `t`. */
  predicate IsPrefix(s: seq<int>, t: seq<int>) { |s| <= |t| && t[..|s|] == s }

  /** The state of a freshly constructed machine. */
  function Init(): (m: Machine)
    ensures WellFormed(m)
    ensures forall a | IsAddr(a) :: m.ram[a] == 0
    ensures m.reg[SP] == StackStart && forall i | IsReg(i) && i != SP :: m.reg[i] == 0
    ensures m.pc == 0 && m.fl == 0 && !m.status && m.out == []
  {
    Machine(seq(RamSize, _ => 0), seq(RegCount, i => if i == SP then StackStart else 0), 0, 0, false, [])
  }

  // ---------------------------------------------------------------------
  // Instruction handlers.  `opA` and `opB` are the two bytes the loop
  // fetched after the opcode; PUSH, POP, CALL, JMP, JEQ and JNE ignore them
  // and read their operand from memory at pc + 1 themselves.
  // ---------------------------------------------------------------------

  /** HLT: clears the run flag; nothing else changes, not even pc. */
  function Hlt(m: Machine): (r: Machine)
    ensures !r.status
    ensures r.ram == m.ram && r.reg == m.reg && r.pc == m.pc && r.fl == m.fl && r.out == m.out
  {
    m.(status := false)
  }

  /** LDI: loads the immediate `b` into register `a`. */
  function Ldi(m: Machine, a: int, b: int): (r: Machine)
    requires WellFormed(m) && IsReg(a)
    ensures WellFormed(r)
    ensures r.reg[a] == b && RegsAgreeExcept(m, r, a)
    ensures r.pc == m.pc + 3
    ensures r.ram == m.ram && r.fl == m.fl && r.status == m.status && r.out == m.out
  {
    m.(reg := m.reg[a := b], pc := m.pc + 3)
  }

  /** PRN: prints register `a`, modelled as appending it to `out`. */
  function Prn(m: Machine, a: int): (r: Machine)
    requires WellFormed(m) && IsReg(a)
    ensures WellFormed(r)
    ensures r.out == m.out + [m.reg[a]]
    ensures r.pc == m.pc + 2
    ensures r.ram == m.ram && r.reg == m.reg && r.fl == m.fl && r.status == m.status
  {
    m.(out := m.out + [m.reg[a]], pc := m.pc + 2)
  }

  /** The ALU, dispatched on an operation name.  `None` stands for the
      "Unsupported ALU operation" exception raised for any other name. */
  function Alu(m: Machine, op: string, a: int, b: int): (r: Option<Machine>)
    requires WellFormed(m) && IsReg(a) && IsReg(b)
    ensures r.Some? <==> op == "ADD" || op == "MUL"
    ensures r.Some? ==> WellFormed(r.value) && RegsAgreeExcept(m, r.value, a)
    ensures r.Some? && op == "ADD" ==> r.value.reg[a] == m.reg[a] + m.reg[b]
    ensures r.Some? && op == "MUL" ==> r.value.reg[a] == m.reg[a] * m.reg[b]
    ensures r.Some? ==> r.value.ram == m.ram && r.value.pc == m.pc && r.value.fl == m.fl
                        && r.value.status == m.status && r.value.out == m.out
  {
    if op == "ADD" then Some(m.(reg := m.reg[a := m.reg[a] + m.reg[b]]))
    else if op == "MUL" then Some(m.(reg := m.reg[a := m.reg[a] * m.reg[b]]))
    else None
  }

  /** MUL: register `a` becomes the unbounded product of registers `a` and `b`. */
  function Mul(m: Machine, a: int, b: int): (r: Machine)
    requires WellFormed(m) && IsReg(a) && IsReg(b)
    ensures WellFormed(r)
    ensures r.reg[a] == m.reg[a] * m.reg[b] && RegsAgreeExcept(m, r, a)
    ensures r.pc == m.pc + 3
    ensures r.ram == m.ram && r.fl == m.fl && r.status == m.status && r.out == m.out
  {
    var s := Alu(m, "MUL", a, b).value;
    s.(pc := s.pc + 3)
  }

  /** ADD: register `a` becomes the unbounded sum of registers `a` and `b`. */
  function Add(m: Machine, a: int, b: int): (r: Machine)
    requires WellFormed(m) && IsReg(a) && IsReg(b)
    ensures WellFormed(r)
    ensures r.reg[a] == m.reg[a] + m.reg[b] && RegsAgreeExcept(m, r, a)
    ensures r.pc == m.pc + 3
    ensures r.ram == m.ram && r.fl == m.fl && r.status == m.status && r.out == m.out
  {
    var s := Alu(m, "ADD", a, b).value;
    s.(pc := s.pc + 3)
  }

  /** The operand byte at pc + 1 can be read. */
  predicate HasOperand(m: Machine)
  {
    WellFormed(m) && 0 <= m.pc && m.pc + 1 < RamSize
  }

  /** PUSH can run: its operand names a register and SP - 1 is an address. */
  predicate CanPush(m: Machine)
  {
    HasOperand(m) && IsReg(m.ram[m.pc + 1]) && 0 < m.reg[SP] <= RamSize
  }

  /** PUSH: reads the named register, then decrements SP and stores the value
      read at the new top of the stack.  Pushing R7 stores the old SP. */
  function Push(m: Machine): (r: Machine)
    requires CanPush(m)
    ensures WellFormed(r)
    ensures r.reg[SP] == m.reg[SP] - 1 && RegsAgreeExcept(m, r, SP)
    ensures r.ram[m.reg[SP] - 1] == m.reg[m.ram[m.pc + 1]] && RamAgreesExcept(m, r, m.reg[SP] - 1)
    ensures r.pc == m.pc + 2
    ensures r.fl == m.fl && r.status == m.status && r.out == m.out
  {
    var v := m.reg[m.ram[m.pc + 1]];
    var sp := m.reg[SP] - 1;
    m.(reg := m.reg[SP := sp], ram := m.ram[sp := v], pc := m.pc + 2)
  }

  /** POP can run: its operand names a register and SP is an address. */
  predicate CanPop(m: Machine)
  {
    HasOperand(m) && IsReg(m.ram[m.pc + 1]) && IsAddr(m.reg[SP])
  }

  /** POP: stores the top of the stack in the named register, then increments
      R7.  Popping into R7 therefore leaves SP one above the popped value. */
  function Pop(m: Machine): (r: Machine)
    requires CanPop(m)
    ensures WellFormed(r)
    ensures m.ram[m.pc + 1] != SP ==>
              r.reg[m.ram[m.pc + 1]] == m.ram[m.reg[SP]] && r.reg[SP] == m.reg[SP] + 1
    ensures m.ram[m.pc + 1] == SP ==> r.reg[SP] == m.ram[m.reg[SP]] + 1
    ensures forall i | IsReg(i) && i != SP && i != m.ram[m.pc + 1] :: r.reg[i] == m.reg[i]
    ensures r.pc == m.pc + 2
    ensures r.ram == m.ram && r.fl == m.fl && r.status == m.status && r.out == m.out
  {
    var reg := m.reg[m.ram[m.pc + 1] := m.ram[m.reg[SP]]];
    m.(reg := reg[SP := reg[SP] + 1], pc := m.pc + 2)
  }

  /** The register CALL jumps through: the byte at pc + 1 as it reads after
      the return address has been stored at SP - 1. */
  function CallOperand(m: Machine): int
    requires HasOperand(m)
  {
    if m.reg[SP] - 1 == m.pc + 1 then m.pc + 2 else m.ram[m.pc + 1]
  }

  /** CALL can run: SP - 1 is an address and the late-read operand names a register. */
  predicate CanCall(m: Machine)
  {
    HasOperand(m) && 0 < m.reg[SP] <= RamSize && IsReg(CallOperand(m))
  }

  /** CALL: decrements SP, stores the return address pc + 2 at the new top of
      the stack and only then reads its operand and jumps through that
      register (so calling through R7 jumps to the new SP). */
  function Call(m: Machine): (r: Machine)
    requires CanCall(m)
    ensures WellFormed(r)
    ensures r.reg[SP] == m.reg[SP] - 1 && RegsAgreeExcept(m, r, SP)
    ensures r.ram[m.reg[SP] - 1] == m.pc + 2 && RamAgreesExcept(m, r, m.reg[SP] - 1)
    ensures r.pc == r.reg[r.ram[m.pc + 1]]
    ensures m.reg[SP] - 1 != m.pc + 1 ==>
              r.pc == (if m.ram[m.pc + 1] == SP then m.reg[SP] - 1 else m.reg[m.ram[m.pc + 1]])
    ensures r.fl == m.fl && r.status == m.status && r.out == m.out
  {
    var sp := m.reg[SP] - 1;
    var reg := m.reg[SP := sp];
    var ram := m.ram[sp := m.pc + 2];
    m.(reg := reg, ram := ram, pc := reg[ram[m.pc + 1]])
  }

  /** RET can run: SP is an address. */
  predicate CanRet(m: Machine)
  {
    WellFormed(m) && IsAddr(m.reg[SP])
  }

  /** RET: jumps to the value at the top of the stack and increments SP. */
  function Ret(m: Machine): (r: Machine)
    requires CanRet(m)
    ensures WellFormed(r)
    ensures r.pc == m.ram[m.reg[SP]]
    ensures r.reg[SP] == m.reg[SP] + 1 && RegsAgreeExcept(m, r, SP)
    ensures r.ram == m.ram && r.fl == m.fl && r.status == m.status && r.out == m.out
  {
    m.(pc := m.ram[m.reg[SP]], reg := m.reg[SP := m.reg[SP] + 1])
  }

  /** CMP: records in `fl` how register `a` compares with register `b`. */
  function Cmp(m: Machine, a: int, b: int): (r: Machine)
    requires WellFormed(m) && IsReg(a) && IsReg(b)
    ensures WellFormed(r)
    ensures r.fl == FlagLess <==> m.reg[a] < m.reg[b]
    ensures r.fl == FlagGreater <==> m.reg[a] > m.reg[b]
    ensures r.fl == FlagEqual <==> m.reg[a] == m.reg[b]
    ensures r.pc == m.pc + 3
    ensures r.ram == m.ram && r.reg == m.reg && r.status == m.status && r.out == m.out
  {
    if m.reg[a] < m.reg[b] then m.(fl := FlagLess, pc := m.pc + 3)
    else if m.reg[a] > m.reg[b] then m.(fl := FlagGreater, pc := m.pc + 3)
    // The machine's third test compares register b with itself, which always holds.
    else if m.reg[b] == m.reg[b] then m.(fl := FlagEqual, pc := m.pc + 3)
    else m
  }

  /** The register named at pc + 1 can be read as a jump target. */
  predicate CanJump(m: Machine)
  {
    HasOperand(m) && IsReg(m.ram[m.pc + 1])
  }

  /** JMP: jumps to the address held in the register named at pc + 1. */
  function Jmp(m: Machine): (r: Machine)
    requires CanJump(m)
    ensures r.pc == m.reg[m.ram[m.pc + 1]]
    ensures r.ram == m.ram && r.reg == m.reg && r.fl == m.fl && r.status == m.status && r.out == m.out
  {
    m.(pc := m.reg[m.ram[m.pc + 1]])
  }

  /** JEQ: jumps like JMP when the equal flag is set, else steps over its operand.
      The operand is only read when the jump is taken. */
  function Jeq(m: Machine): (r: Machine)
    requires WellFormed(m) && (m.fl == FlagEqual ==> CanJump(m))
    ensures m.fl == FlagEqual ==> r.pc == m.reg[m.ram[m.pc + 1]]
    ensures m.fl != FlagEqual ==> r.pc == m.pc + 2
    ensures r.ram == m.ram && r.reg == m.reg && r.fl == m.fl && r.status == m.status && r.out == m.out
  {
    if m.fl == FlagEqual then m.(pc := m.reg[m.ram[m.pc + 1]]) else m.(pc := m.pc + 2)
  }

  /** JNE: jumps like JMP when the equal flag is not set, else steps over its operand. */
  function Jne(m: Machine): (r: Machine)
    requires WellFormed(m) && (m.fl != FlagEqual ==> CanJump(m))
    ensures m.fl != FlagEqual ==> r.pc == m.reg[m.ram[m.pc + 1]]
    ensures m.fl == FlagEqual ==> r.pc == m.pc + 2
    ensures r.ram == m.ram && r.reg == m.reg && r.fl == m.fl && r.status == m.status && r.out == m.out
  {
    if m.fl != FlagEqual then m.(pc := m.reg[m.ram[m.pc + 1]]) else m.(pc := m.pc + 2)
  }

  // ---------------------------------------------------------------------
  // Dispatch and the fetch/execute loop.
  // ---------------------------------------------------------------------

  /** The handler for opcode `ir` can run on `m` with the fetched operands
      without an out-of-range access.  False for opcodes outside the table. */
  predicate Enabled(m: Machine, ir: int, opA: int, opB: int)
  {
    WellFormed(m) &&
    if ir == HLT then true
    else if ir == LDI || ir == PRN then IsReg(opA)
    else if ir == MUL || ir == ADD || ir == CMP then IsReg(opA) && IsReg(opB)
    else if ir == PUSH then CanPush(m)
    else if ir == POP then CanPop(m)
    else if ir == CALL then CanCall(m)
    else if ir == RET then CanRet(m)
    else if ir == JMP then CanJump(m)
    else if ir == JEQ then m.fl == FlagEqual ==> CanJump(m)
    else if ir == JNE then m.fl != FlagEqual ==> CanJump(m)
    else false
  }

  /** Runs the handler the dispatch table holds for `ir`. */
  function Execute(m: Machine, ir: int, opA: int, opB: int): (r: Machine)
    requires Enabled(m, ir, opA, opB)
    ensures WellFormed(r)
    ensures ir in Opcodes
    ensures r.status == (m.status && ir != HLT)
    ensures IsPrefix(m.out, r.out)
    // the opcode -> handler mapping of the dispatch table
    ensures ir == HLT ==> r == Hlt(m)
    ensures ir == LDI ==> r == Ldi(m, opA, opB)
    ensures ir == PRN ==> r == Prn(m, opA)
    ensures ir == MUL ==> r == Mul(m, opA, opB)
    ensures ir == ADD ==> r == Add(m, opA, opB)
    ensures ir == CMP ==> r == Cmp(m, opA, opB)
    ensures ir == PUSH ==> r == Push(m)
    ensures ir == POP ==> r == Pop(m)
    ensures ir == CALL ==> r == Call(m)
    ensures ir == RET ==> r == Ret(m)
    ensures ir == JMP ==> r == Jmp(m)
    ensures ir == JEQ ==> r == Jeq(m)
    ensures ir == JNE ==> r == Jne(m)
  {
    if ir == HLT then Hlt(m)
    else if ir == LDI then Ldi(m, opA, opB)
    else if ir == PRN then Prn(m, opA)
    else if ir == MUL then Mul(m, opA, opB)
    else if ir == ADD then Add(m, opA, opB)
    else if ir == CMP then Cmp(m, opA, opB)
    else if ir == PUSH then Push(m)
    else if ir == POP then Pop(m)
    else if ir == CALL then Call(m)
    else if ir == RET then Ret(m)
    else if ir == JMP then Jmp(m)
    else if ir == JEQ then Jeq(m)
    else Jne(m)
  }

  /** Why the fetch/execute loop stopped. */
  datatype Outcome =
    | Halted                  // the run flag was cleared by HLT
    | UnknownOpcode(ir: int)  // the opcode at pc is not in the dispatch table
    | Fault                   // the next access would fall outside memory or the register file
    | OutOfFuel               // the step bound ran out

  /** The three bytes at pc, pc + 1 and pc + 2 can all be fetched. */
  predicate CanFetch(m: Machine)
  {
    WellFormed(m) && 0 <= m.pc && m.pc + 2 < RamSize
  }

  /** What one turn of the loop does: stop, or continue from the next state. */
  datatype Turn = Stop(why: Outcome) | Go(next: Machine)

  /** One turn of the fetch/execute loop from `m` with `fuel` instructions
      left: the loop ends when the run flag is clear, when the fuel is spent,
      when the three bytes at pc cannot be fetched, when the opcode is not in
      the dispatch table or when its handler would access memory or the
      register file out of range; otherwise the handler runs. */
  function Step(m: Machine, fuel: nat): (t: Turn)
    requires WellFormed(m)
    ensures t == Stop(Halted) <==> !m.status
    ensures t == Stop(OutOfFuel) <==> m.status && fuel == 0
    ensures t.Go? <==> m.status && fuel > 0 && CanFetch(m) && m.ram[m.pc] in Opcodes
                       && Enabled(m, m.ram[m.pc], m.ram[m.pc + 1], m.ram[m.pc + 2])
    ensures t.Go? ==> t.next == Execute(m, m.ram[m.pc], m.ram[m.pc + 1], m.ram[m.pc + 2])
    ensures t.Stop? && t.why.UnknownOpcode? ==>
              CanFetch(m) && m.ram[m.pc] == t.why.ir && t.why.ir !in Opcodes
    ensures t.Go? ==> WellFormed(t.next) && IsPrefix(m.out, t.next.out)
                      && (t.next.status <==> m.ram[m.pc] != HLT)
  {
    if !m.status then Stop(Halted)
    else if fuel == 0 then Stop(OutOfFuel)
    else if !CanFetch(m) then Stop(Fault)
    else
      var opA, opB, ir := m.ram[m.pc + 1], m.ram[m.pc + 2], m.ram[m.pc];
      if ir !in Opcodes then Stop(UnknownOpcode(ir))
      else if !Enabled(m, ir, opA, opB) then Stop(Fault)
      else Go(Execute(m, ir, opA, opB))
  }

  /** The fetch/execute loop from state `m`, for at most `fuel` instructions. */
  function RunFrom(m: Machine, fuel: nat): (r: (Machine, Outcome))
    requires WellFormed(m)
    ensures WellFormed(r.0)
    ensures r.1 == Halted <==> !r.0.status
    ensures r.1.UnknownOpcode? ==> CanFetch(r.0) && r.0.ram[r.0.pc] == r.1.ir && r.1.ir !in Opcodes
    ensures IsPrefix(m.out, r.0.out)
    decreases fuel
  {
    match Step(m, fuel)
    case Stop(why) => (m, why)
    case Go(next) => RunFrom(next, fuel - 1)
  }

  /** A turn that stops ends the loop in the state it started from. */
  lemma RunFromStop(m: Machine, fuel: nat)
    requires WellFormed(m) && Step(m, fuel).Stop?
    ensures RunFrom(m, fuel) == (m, Step(m, fuel).why)
  {
  }

  /** A turn that continues leaves the rest of the loop to the next state. */
  lemma RunFromGo(m: Machine, fuel: nat)
    requires WellFormed(m) && Step(m, fuel).Go?
    ensures RunFrom(m, fuel) == RunFrom(Step(m, fuel).next, fuel - 1)
  {
  }

  /** A turn on a fetchable known opcode whose handler can run executes
      that handler and leaves the rest of the loop to the new state. */
  lemma RunFromExecute(m: Machine, fuel: nat)
    requires CanFetch(m) && m.status && fuel > 0
    requires m.ram[m.pc] in Opcodes && Enabled(m, m.ram[m.pc], m.ram[m.pc + 1], m.ram[m.pc + 2])
    ensures RunFrom(m, fuel) == RunFrom(Execute(m, m.ram[m.pc], m.ram[m.pc + 1], m.ram[m.pc + 2]), fuel - 1)
  {
    RunFromGo(m, fuel);
  }

  /** The state `run` starts its loop in: pc reset to 0 and the run flag set. */
  function Started(m: Machine): (r: Machine)
    ensures r.pc == 0 && r.status
    ensures r.ram == m.ram && r.reg == m.reg && r.fl == m.fl && r.out == m.out
  {
    m.(pc := 0, status := true)
  }
}
