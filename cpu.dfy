/** The LS-8 machine as an object whose methods update its memory, register
    file, pc, flags and run flag in place.  Every method is specified by the
    function of module Isa or Loader that gives the new state in terms of the
    old one; `State()` is the snapshot those functions work on. */
module Cpu {
  import opened Isa
  import opened Loader

  class CPU {
    var ram: array<int>
    var reg: array<int>
    var pc: int
    var fl: int
    var status: bool
    /** The values PRN has printed, oldest first (standard output). */
    var out: seq<int>

    ghost predicate Valid()
      reads this
    {
      ram.Length == RamSize && reg.Length == RegCount && ram != reg
    }

    function State(): (m: Machine)
      reads this, ram, reg
      ensures Valid() ==> WellFormed(m)
    {
      Machine(ram[..], reg[..], pc, fl, status, out)
    }

    /** A fresh machine: memory and registers zero, except SP at 0xF4. */
    constructor ()
      ensures Valid() && fresh(ram) && fresh(reg)
      ensures State() == Init()
    {
      ram := new int[RamSize](_ => 0);
      reg := new int[RegCount](i => if i == SP then StackStart else 0);
      pc, fl := 0, 0;
      status := false;
      out := [];
    }

    method RamRead(mar: int) returns (mdr: int)
      requires Valid() && IsAddr(mar)
      ensures mdr == ram[mar]
    {
      mdr := ram[mar];
    }

    method RamWrite(mar: int, mdr: int)
      requires Valid() && IsAddr(mar)
      modifies ram
      ensures ram[..] == old(ram[..])[mar := mdr]
    {
      ram[mar] := mdr;
    }

    /** Stores one byte per data line of `lines` at consecutive addresses
        from pc, advancing pc past each; stops at the first line that is
        empty or not a binary number, or that would be stored beyond the
        last address. */
    method Load(lines: seq<string>) returns (outcome: LoadOutcome)
      requires Valid() && 0 <= pc
      modifies ram, this`pc
      ensures LoadLines(old(ram[..]), old(pc), lines) == LoadState(ram[..], pc, outcome)
    {
      outcome := Loaded;
      for i := 0 to |lines|
        invariant LoadLines(old(ram[..]), old(pc), lines[..i]) == LoadState(ram[..], pc, Loaded)
      {
        ghost var done := LoadLines(old(ram[..]), old(pc), lines[..i]);
        assert lines[..i + 1][..i] == lines[..i];
        var x := lines[i];
        assert LoadLines(old(ram[..]), old(pc), lines[..i + 1]) == LoadLine(done, x, i);
        if |x| == 0 {
          // reading the first character of an empty line fails
          outcome := BadLine(i);
          LoadStopsAtError(old(ram[..]), old(pc), lines, i + 1);
          return;
        }
        if x[0] != '#' {
          var b := ParseByte(x);
          if b.None? {
            outcome := BadLine(i);
            LoadStopsAtError(old(ram[..]), old(pc), lines, i + 1);
            return;
          }
          if !(pc < RamSize) {
            outcome := MemoryFull(i);
            LoadStopsAtError(old(ram[..]), old(pc), lines, i + 1);
            return;
          }
          RamWrite(pc, b.value);
          pc := pc + 1;
        }
      }
      assert lines[..|lines|] == lines;
    }

    /** Runs the ALU operation `op` on registers `a` and `b`; `ok` is false
        where the machine raises "Unsupported ALU operation". */
    method Alu(op: string, a: int, b: int) returns (ok: bool)
      requires Valid() && IsReg(a) && IsReg(b)
      modifies reg
      ensures ok == Isa.Alu(old(State()), op, a, b).Some?
      ensures State() == if ok then Isa.Alu(old(State()), op, a, b).value else old(State())
    {
      if op == "ADD" {
        reg[a] := reg[a] + reg[b];
      } else if op == "MUL" {
        reg[a] := reg[a] * reg[b];
      } else {
        return false;
      }
      return true;
    }

    method Hlt(opA: int, opB: int)
      requires Valid()
      modifies this`status
      ensures State() == Isa.Hlt(old(State()))
    {
      status := false;
    }

    method Ldi(opA: int, opB: int)
      requires Valid() && IsReg(opA)
      modifies reg, this`pc
      ensures State() == Isa.Ldi(old(State()), opA, opB)
    {
      reg[opA] := opB;
      pc := pc + 3;
    }

    method Prn(opA: int, opB: int)
      requires Valid() && IsReg(opA)
      modifies this`out, this`pc
      ensures State() == Isa.Prn(old(State()), opA)
    {
      out := out + [reg[opA]];
      pc := pc + 2;
    }

    method Mul(opA: int, opB: int)
      requires Valid() && IsReg(opA) && IsReg(opB)
      modifies reg, this`pc
      ensures State() == Isa.Mul(old(State()), opA, opB)
    {
      var ok := Alu("MUL", opA, opB);
      pc := pc + 3;
    }

    method Add(opA: int, opB: int)
      requires Valid() && IsReg(opA) && IsReg(opB)
      modifies reg, this`pc
      ensures State() == Isa.Add(old(State()), opA, opB)
    {
      var ok := Alu("ADD", opA, opB);
      pc := pc + 3;
    }

    method Push(opA: int, opB: int)
      requires Valid() && CanPush(State())
      modifies ram, reg, this`pc
      ensures State() == Isa.Push(old(State()))
    {
      var r := RamRead(pc + 1);
      var v := reg[r];
      reg[SP] := reg[SP] - 1;
      ram[reg[SP]] := v;
      pc := pc + 2;
    }

    method Pop(opA: int, opB: int)
      requires Valid() && CanPop(State())
      modifies reg, this`pc
      ensures State() == Isa.Pop(old(State()))
    {
      var r := RamRead(pc + 1);
      var v := RamRead(reg[SP]);
      reg[r] := v;
      reg[SP] := reg[SP] + 1;
      pc := pc + 2;
    }

    method Call(opA: int, opB: int)
      requires Valid() && CanCall(State())
      modifies ram, reg, this`pc
      ensures State() == Isa.Call(old(State()))
    {
      reg[SP] := reg[SP] - 1;
      RamWrite(reg[SP], pc + 2);
      var r := RamRead(pc + 1);
      pc := reg[r];
    }

    method Ret(opA: int, opB: int)
      requires Valid() && CanRet(State())
      modifies reg, this`pc
      ensures State() == Isa.Ret(old(State()))
    {
      pc := ram[reg[SP]];
      reg[SP] := reg[SP] + 1;
    }

    method Cmp(opA: int, opB: int)
      requires Valid() && IsReg(opA) && IsReg(opB)
      modifies this`fl, this`pc
      ensures State() == Isa.Cmp(old(State()), opA, opB)
    {
      if reg[opA] < reg[opB] {
        fl := FlagLess;
        pc := pc + 3;
      } else if reg[opA] > reg[opB] {
        fl := FlagGreater;
        pc := pc + 3;
      } else if reg[opB] == reg[opB] {
        fl := FlagEqual;
        pc := pc + 3;
      }
    }

    method Jmp(opA: int, opB: int)
      requires Valid() && CanJump(State())
      modifies this`pc
      ensures State() == Isa.Jmp(old(State()))
    {
      var r := RamRead(pc + 1);
      pc := reg[r];
    }

    method Jeq(opA: int, opB: int)
      requires Valid() && (fl == FlagEqual ==> CanJump(State()))
      modifies this`pc
      ensures State() == Isa.Jeq(old(State()))
    {
      if fl == FlagEqual {
        var r := RamRead(pc + 1);
        pc := reg[r];
      } else {
        pc := pc + 2;
      }
    }

    method Jne(opA: int, opB: int)
      requires Valid() && (fl != FlagEqual ==> CanJump(State()))
      modifies this`pc
      ensures State() == Isa.Jne(old(State()))
    {
      if fl != FlagEqual {
        var r := RamRead(pc + 1);
        pc := reg[r];
      } else {
        pc := pc + 2;
      }
    }

    /** The dispatch table: calls the handler for opcode `ir`. */
    method Dispatch(ir: int, opA: int, opB: int)
      requires Valid() && Enabled(State(), ir, opA, opB)
      modifies ram, reg, this`pc, this`fl, this`status, this`out
      ensures State() == Execute(old(State()), ir, opA, opB)
    {
      if ir == HLT { Hlt(opA, opB); }
      else if ir == LDI { Ldi(opA, opB); }
      else if ir == PRN { Prn(opA, opB); }
      else if ir == MUL { Mul(opA, opB); }
      else if ir == ADD { Add(opA, opB); }
      else if ir == CMP { Cmp(opA, opB); }
      else if ir == PUSH { Push(opA, opB); }
      else if ir == POP { Pop(opA, opB); }
      else if ir == CALL { Call(opA, opB); }
      else if ir == RET { Ret(opA, opB); }
      else if ir == JMP { Jmp(opA, opB); }
      else if ir == JEQ { Jeq(opA, opB); }
      else { Jne(opA, opB); }
    }

    /** One turn of the fetch/execute loop: fetches the operands and the
        opcode at pc and either runs the opcode's handler (`stop` is None) or
        reports why the loop ends there, changing nothing. */
    method Cycle(left: nat) returns (stop: Option<Outcome>)
      requires Valid()
      modifies ram, reg, this`pc, this`fl, this`status, this`out
      ensures Valid()
      ensures Step(old(State()), left).Stop? ==>
                stop == Some(Step(old(State()), left).why) && State() == old(State())
      ensures Step(old(State()), left).Go? ==> stop == None && State() == Step(old(State()), left).next
    {
      if !status {
        return Some(Halted);
      }
      if left == 0 {
        return Some(OutOfFuel);
      }
      if !(0 <= pc && pc + 2 < RamSize) {
        return Some(Fault);
      }
      var opA := RamRead(pc + 1);
      var opB := RamRead(pc + 2);
      var ir := RamRead(pc);
      if ir !in Opcodes {
        return Some(UnknownOpcode(ir));
      }
      if !Enabled(State(), ir, opA, opB) {
        return Some(Fault);
      }
      Dispatch(ir, opA, opB);
      return None;
    }

    /** The fetch/execute loop: resets pc to 0, sets the run flag and executes
        instructions until HLT clears the flag, an opcode outside the table is
        fetched, an access would fall outside memory or the register file, or
        `fuel` instructions have run. */
    method Run(fuel: nat) returns (outcome: Outcome)
      requires Valid()
      modifies ram, reg, this`pc, this`fl, this`status, this`out
      ensures (State(), outcome) == RunFrom(Started(old(State())), fuel)
    {
      pc := 0;
      status := true;
      var left := fuel;
      while status
        invariant Valid()
        invariant RunFrom(State(), left) == RunFrom(Started(old(State())), fuel)
        decreases left
      {
        ghost var before := State();
        var stop := Cycle(left);
        if stop.Some? {
          RunFromStop(before, left);
          return stop.value;
        }
        RunFromGo(before, left);
        left := left - 1;
      }
      RunFromStop(State(), left);
      return Halted;
    }
  }
}
