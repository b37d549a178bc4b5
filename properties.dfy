/** Properties of the LS-8 model that relate several instructions, the
    fetch/execute loop and the loader. */
module Properties {
  import opened Isa
  import opened Loader

  // ---------------------------------------------------------------------
  // Instruction pairs
  // ---------------------------------------------------------------------

  /** LDI Ra, b followed by PRN Ra prints exactly b. */
  lemma LdiThenPrn(m: Machine, a: int, b: int)
    requires WellFormed(m) && IsReg(a)
    ensures Prn(Ldi(m, a, b), a).out == m.out + [b]
    ensures Prn(Ldi(m, a, b), a).pc == m.pc + 5
  {
  }

  /** PUSH Ri at pc followed by POP Rj at pc + 2, for j other than R7,
      copies Ri into Rj and leaves SP and every other register as before
      the PUSH; PUSH Ri then POP Ri restores the whole register file. */
  lemma PushThenPop(m: Machine)
    requires CanPush(m) && m.pc + 3 < RamSize
    requires m.reg[SP] - 1 != m.pc + 3   // the pushed value does not land on POP's operand
    requires IsReg(m.ram[m.pc + 3]) && m.ram[m.pc + 3] != SP
    ensures CanPop(Push(m))
    ensures Pop(Push(m)).reg == m.reg[m.ram[m.pc + 3] := m.reg[m.ram[m.pc + 1]]]
    ensures m.ram[m.pc + 3] == m.ram[m.pc + 1] ==> Pop(Push(m)).reg == m.reg
    ensures Pop(Push(m)).reg[SP] == m.reg[SP]
    ensures Pop(Push(m)).ram[m.reg[SP] - 1] == m.reg[m.ram[m.pc + 1]]
    ensures Pop(Push(m)).pc == m.pc + 4
  {
    var p := Push(m);
    var q := Pop(p);
    var i, j := m.ram[m.pc + 1], m.ram[m.pc + 3];
    assert p.ram[p.pc + 1] == j;
    forall k | 0 <= k < RegCount
      ensures q.reg[k] == m.reg[j := m.reg[i]][k]
    {
    }
  }

  /** PUSH R7 followed by POP R7 leaves SP one above its value before the
      PUSH: PUSH stores the old SP, POP loads it into R7 and then increments R7. */
  lemma PushThenPopStackPointer(m: Machine)
    requires CanPush(m) && m.ram[m.pc + 1] == SP && m.pc + 3 < RamSize
    requires m.reg[SP] - 1 != m.pc + 3 && m.ram[m.pc + 3] == SP
    ensures CanPop(Push(m))
    ensures Pop(Push(m)).reg[SP] == m.reg[SP] + 1
  {
  }

  /** CALL at pc followed, after a subroutine that leaves SP and the stacked
      return address as CALL left them, by RET: execution resumes at
      pc + 2 and SP is back at its value before the CALL. */
  lemma CallThenRet(m: Machine, n: Machine)
    requires CanCall(m) && WellFormed(n)
    requires n.reg[SP] == Call(m).reg[SP]
    requires n.ram[n.reg[SP]] == Call(m).ram[n.reg[SP]]
    ensures CanRet(n)
    ensures Ret(n).pc == m.pc + 2
    ensures Ret(n).reg[SP] == m.reg[SP]
  {
  }

  /** CALL immediately followed by RET: back at pc + 2 with the register
      file exactly as before the CALL. */
  lemma CallThenRetAtOnce(m: Machine)
    requires CanCall(m)
    ensures CanRet(Call(m))
    ensures Ret(Call(m)).pc == m.pc + 2 && Ret(Call(m)).reg == m.reg
  {
    CallThenRet(m, Call(m));
    var r := Ret(Call(m));
    forall k | 0 <= k < RegCount
      ensures r.reg[k] == m.reg[k]
    {
    }
  }

  /** JEQ and JNE complement each other: whichever one the flag selects
      behaves as JMP, the other only steps over its operand. */
  lemma JeqJneComplement(m: Machine)
    requires CanJump(m)
    ensures m.fl == FlagEqual ==> Jeq(m) == Jmp(m) && Jne(m) == m.(pc := m.pc + 2)
    ensures m.fl != FlagEqual ==> Jne(m) == Jmp(m) && Jeq(m) == m.(pc := m.pc + 2)
  {
  }

  /** CMP Ra, Rb at pc followed by a conditional jump at pc + 3: JEQ jumps
      exactly when the two registers were equal, JNE exactly when they were not. */
  lemma CmpThenBranch(m: Machine, a: int, b: int)
    requires WellFormed(m) && IsReg(a) && IsReg(b)
    requires 0 <= m.pc && m.pc + 4 < RamSize && IsReg(m.ram[m.pc + 4])
    ensures Jeq(Cmp(m, a, b)).pc ==
              if m.reg[a] == m.reg[b] then m.reg[m.ram[m.pc + 4]] else m.pc + 5
    ensures Jne(Cmp(m, a, b)).pc ==
              if m.reg[a] != m.reg[b] then m.reg[m.ram[m.pc + 4]] else m.pc + 5
  {
  }

  // ---------------------------------------------------------------------
  // The fetch/execute loop
  // ---------------------------------------------------------------------

  /** Fetching an opcode outside the table stops the loop at once: no
      handler runs and the state is returned unchanged. */
  lemma RunStopsOnUnknownOpcode(m: Machine, fuel: nat)
    requires CanFetch(m) && m.status && fuel > 0 && m.ram[m.pc] !in Opcodes
    ensures RunFrom(m, fuel) == (m, UnknownOpcode(m.ram[m.pc]))
  {
  }

  /** Fetching HLT stops the loop after that one instruction, with only the
      run flag changed. */
  lemma RunStopsAfterHlt(m: Machine, fuel: nat)
    requires CanFetch(m) && m.status && fuel > 0 && m.ram[m.pc] == HLT
    ensures RunFrom(m, fuel) == (m.(status := false), Halted)
  {
  }

  /** A run that starts with the run flag set ends Halted only at an HLT:
      the final pc holds the HLT opcode that cleared the flag. */
  lemma {:induction false} RunHaltsAtHlt(m: Machine, fuel: nat)
    requires WellFormed(m) && m.status
    ensures var r := RunFrom(m, fuel);
            r.1 == Halted ==> CanFetch(r.0) && r.0.ram[r.0.pc] == HLT
    decreases fuel
  {
    if fuel > 0 && CanFetch(m) {
      var opA, opB, ir := m.ram[m.pc + 1], m.ram[m.pc + 2], m.ram[m.pc];
      if ir in Opcodes && Enabled(m, ir, opA, opB) && ir != HLT {
        RunHaltsAtHlt(Execute(m, ir, opA, opB), fuel - 1);
      }
    }
  }

  /** Running for f1 + f2 steps is running for f1 steps and, if that ran out
      of fuel, f2 more from where it stopped. */
  lemma {:induction false} RunSplit(m: Machine, f1: nat, f2: nat)
    requires WellFormed(m)
    ensures RunFrom(m, f1 + f2) ==
              if RunFrom(m, f1).1 == OutOfFuel then RunFrom(RunFrom(m, f1).0, f2) else RunFrom(m, f1)
    decreases f1
  {
    if f1 > 0 {
      StepIgnoresFuel(m, f1, f1 + f2);
      if Step(m, f1).Go? {
        RunSplit(Step(m, f1).next, f1 - 1, f2);
        RunFromGo(m, f1);
        RunFromGo(m, f1 + f2);
      } else {
        RunFromStop(m, f1);
        RunFromStop(m, f1 + f2);
      }
    }
  }

  /** How much fuel is left matters to a turn only when none is. */
  lemma StepIgnoresFuel(m: Machine, f1: nat, f2: nat)
    requires WellFormed(m) && f1 > 0 && f2 > 0
    ensures Step(m, f1) == Step(m, f2)
  {
  }

  /** A run that stopped for any reason other than fuel gives the same
      result with any larger bound. */
  lemma RunMoreFuel(m: Machine, f1: nat, f2: nat)
    requires WellFormed(m) && f1 <= f2 && RunFrom(m, f1).1 != OutOfFuel
    ensures RunFrom(m, f2) == RunFrom(m, f1)
  {
    RunSplit(m, f1, f2 - f1);
  }

  /** LDI R0,8; LDI R1,9; ADD R0,R1; PRN R0; HLT. */
  const SumProgram: seq<int> := [LDI, 0, 8, LDI, 1, 9, ADD, 0, 1, PRN, 0, HLT]

  /** The machine of a fresh CPU whose memory starts with `program`. */
  function WithProgram(program: seq<int>): (m: Machine)
    requires |program| <= RamSize
    ensures WellFormed(m) && m.ram[..|program|] == program
  {
    Init().(ram := program + seq(RamSize - |program|, _ => 0))
  }

  /** Running the sum program prints the single value 17 and halts. */
  lemma SumProgramPrints17()
    ensures RunFrom(Started(WithProgram(SumProgram)), 6).1 == Halted
    ensures RunFrom(Started(WithProgram(SumProgram)), 6).0.out == [17]
  {
    var m0 := Started(WithProgram(SumProgram));
    var m1 := Ldi(m0, 0, 8);
    assert RunFrom(m0, 6) == RunFrom(m1, 5) by {
      assert m0.ram[0] == LDI && m0.ram[1] == 0 && m0.ram[2] == 8;
      RunFromExecute(m0, 6);
    }
    var m2 := Ldi(m1, 1, 9);
    assert RunFrom(m1, 5) == RunFrom(m2, 4) by {
      assert m1.ram[3] == LDI && m1.ram[4] == 1 && m1.ram[5] == 9;
      RunFromExecute(m1, 5);
    }
    var m3 := Add(m2, 0, 1);
    assert RunFrom(m2, 4) == RunFrom(m3, 3) by {
      assert m2.ram[6] == ADD && m2.ram[7] == 0 && m2.ram[8] == 1;
      RunFromExecute(m2, 4);
    }
    var m4 := Prn(m3, 0);
    assert RunFrom(m3, 3) == RunFrom(m4, 2) by {
      assert m3.ram[9] == PRN && m3.ram[10] == 0;
      RunFromExecute(m3, 3);
    }
    assert m4.out == [17];
    assert m4.ram[11] == HLT;
    RunStopsAfterHlt(m4, 2);
  }

  // ---------------------------------------------------------------------
  // The loader
  // ---------------------------------------------------------------------

  /** The data lines of `lines` are those of all but its last line, followed
      by the last line unless it is a comment. */
  lemma DataLinesLast(lines: seq<string>)
    requires |lines| > 0
    ensures var p := lines[..|lines| - 1];
            DataLines(lines) == DataLines(p) + (if IsComment(lines[|lines| - 1]) then [] else [lines[|lines| - 1]])
  {
  }

  /** Taking the data lines distributes over concatenation; with the
      single-line case of `DataLines`'s contract this fixes the result as
      the non-comment lines in their original order. */
  lemma {:induction false} DataLinesConcat(a: seq<string>, b: seq<string>)
    ensures DataLines(a + b) == DataLines(a) + DataLines(b)
    decreases |b|
  {
    if b == [] {
      assert a + b == a;
    } else {
      var n := |b|;
      var ab := a + b;
      assert ab[..|ab| - 1] == a + b[..n - 1];
      assert ab[|ab| - 1] == b[n - 1];
      DataLinesConcat(a, b[..n - 1]);
    }
  }

  /** Every data line is a binary number. */
  ghost predicate AllParse(d: seq<string>)
  {
    forall k | 0 <= k < |d| :: ParseByte(d[k]).Some?
  }

  /** The data lines fit in memory from address `pc`. */
  predicate Fits(pc: int, d: seq<string>)
  {
    |d| > 0 ==> pc + |d| <= RamSize
  }

  /** Appending a line keeps every data line a binary number exactly when
      the new line is one. */
  lemma AllParseSnoc(d: seq<string>, line: string)
    ensures AllParse(d + [line]) <==> AllParse(d) && ParseByte(line).Some?
  {
    assert forall k | 0 <= k < |d| :: (d + [line])[k] == d[k];
    assert (d + [line])[|d|] == line;
  }

  /** A load consumes every line exactly when each data line is a binary
      number and the data lines fit in memory from the starting pc. */
  lemma {:induction false} LoadSucceedsIff(ram: seq<int>, pc: int, lines: seq<string>)
    requires |ram| == RamSize && 0 <= pc
    ensures LoadLines(ram, pc, lines).outcome == Loaded <==>
              Fits(pc, DataLines(lines)) && AllParse(DataLines(lines))
    decreases |lines|
  {
    if lines != [] {
      var n := |lines|;
      var p := lines[..n - 1];
      var last := lines[n - 1];
      LoadSucceedsIff(ram, pc, p);
      LoadAdvancesPc(ram, pc, p);
      DataLinesLast(lines);
      var s, sp := LoadLines(ram, pc, lines), LoadLines(ram, pc, p);
      assert s == LoadLine(sp, last, n - 1);
      var d, dp := DataLines(lines), DataLines(p);
      if IsComment(last) {
        assert s == sp && d == dp;
      } else {
        assert d == dp + [last];
        AllParseSnoc(dp, last);
        if sp.outcome != Loaded {
          assert s == sp;
          assert Fits(pc, d) ==> Fits(pc, dp);
        } else if ParseByte(last).None? {
          assert s.outcome.BadLine?;
        } else {
          assert sp.pc == pc + |dp|;
          assert s.outcome == Loaded <==> sp.pc < RamSize;
        }
      }
    }
  }

  /** A load that consumed every line has advanced pc by the number of data
      lines; comment lines do not advance it. */
  lemma {:induction false} LoadAdvancesPc(ram: seq<int>, pc: int, lines: seq<string>)
    requires |ram| == RamSize && 0 <= pc
    ensures LoadLines(ram, pc, lines).outcome == Loaded ==>
              LoadLines(ram, pc, lines).pc == pc + |DataLines(lines)|
    decreases |lines|
  {
    if lines != [] {
      LoadAdvancesPc(ram, pc, lines[..|lines| - 1]);
      DataLinesLast(lines);
    }
  }

  /** A load that consumed every line has stored the k-th data line's byte
      at address pc + k. */
  lemma {:induction false} LoadPlacesBytes(ram: seq<int>, pc: int, lines: seq<string>)
    requires |ram| == RamSize && 0 <= pc
    requires LoadLines(ram, pc, lines).outcome == Loaded
    ensures var s, d := LoadLines(ram, pc, lines), DataLines(lines);
            forall k | 0 <= k < |d| ::
              pc + k < RamSize && ParseByte(d[k]).Some? && s.ram[pc + k] == ParseByte(d[k]).value
    decreases |lines|
  {
    if lines != [] {
      var n := |lines|;
      var p := lines[..n - 1];
      var last := lines[n - 1];
      var s, sp := LoadLines(ram, pc, lines), LoadLines(ram, pc, p);
      assert sp.outcome == Loaded;
      LoadPlacesBytes(ram, pc, p);
      LoadAdvancesPc(ram, pc, p);
      DataLinesLast(lines);
      var d, dp := DataLines(lines), DataLines(p);
      if IsComment(last) {
        assert s == sp && d == dp;
      } else {
        assert d == dp + [last];
        assert sp.pc == pc + |dp| < RamSize;
        assert s.ram == sp.ram[sp.pc := ParseByte(last).value];
        forall k | 0 <= k < |d|
          ensures pc + k < RamSize && ParseByte(d[k]).Some? && s.ram[pc + k] == ParseByte(d[k]).value
        {
          if k < |dp| {
            assert d[k] == dp[k];
          }
        }
      }
    }
  }

  /** A load that consumed every line has left every cell outside the
      addresses it stored to as it was. */
  lemma {:induction false} LoadKeepsOtherCells(ram: seq<int>, pc: int, lines: seq<string>)
    requires |ram| == RamSize && 0 <= pc
    requires LoadLines(ram, pc, lines).outcome == Loaded
    ensures var s, d := LoadLines(ram, pc, lines), DataLines(lines);
            forall a | IsAddr(a) && !(pc <= a < pc + |d|) :: s.ram[a] == ram[a]
    decreases |lines|
  {
    if lines != [] {
      var n := |lines|;
      var p := lines[..n - 1];
      var last := lines[n - 1];
      var s, sp := LoadLines(ram, pc, lines), LoadLines(ram, pc, p);
      assert sp.outcome == Loaded;
      LoadKeepsOtherCells(ram, pc, p);
      LoadAdvancesPc(ram, pc, p);
      DataLinesLast(lines);
      var d, dp := DataLines(lines), DataLines(p);
      if IsComment(last) {
        assert s == sp && d == dp;
      } else {
        assert |d| == |dp| + 1;
        assert s.ram == sp.ram[pc + |dp| := ParseByte(last).value];
      }
    }
  }

  // ---------------------------------------------------------------------
  // Program-line encoding
  // ---------------------------------------------------------------------

  /** Reading back the binary digits of v gives v. */
  lemma {:induction false} BinaryValueOfBits(v: nat, width: nat)
    requires v < Pow2(width)
    ensures BinaryValue(Bits(v, width)) == v
    decreases width
  {
    if width > 0 {
      var s := Bits(v, width);
      assert s[..width - 1] == Bits(v / 2, width - 1);
      BinaryValueOfBits(v / 2, width - 1);
    }
  }

  /** A line that starts with the eight binary digits of a byte v parses to
      v, whatever follows them (a comment, a line break). */
  lemma ParseEncodedByte(v: nat, rest: string)
    requires v < 256
    ensures ParseByte(Bits(v, 8) + rest) == Some(v)
  {
    var line := Bits(v, 8) + rest;
    assert line[..8] == Bits(v, 8);
    assert Pow2(8) == 256;
    BinaryValueOfBits(v, 8);
    var s := Bits(v, 8);
    assert !IsSpace(s[0]) && !IsSpace(s[7]);
    assert TrimStart(s) == s;
    assert TrimEnd(s) == s;
  }
}
