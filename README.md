# LS-8 virtual machine in Dafny

A model of the LS-8 emulator's `CPU` class (`ls8/cpu.py`): a machine with a
256-cell memory, eight registers of which R7 is the stack pointer (starting
at 0xF4), a program counter, a flags register and a run flag. A loader stores
one byte per non-comment line of a program text, and `run` is a
fetch/dispatch loop over a fixed table of thirteen opcodes (HLT, LDI, PRN,
ADD, MUL, PUSH, POP, CALL, RET, CMP, JMP, JEQ, JNE).

The project has four modules:

- `Isa` (`isa.dfy`) holds the instruction semantics as functions on a
  `Machine` snapshot: one function per handler, `Execute` for the dispatch
  table, `Step` for one turn of the loop and `RunFrom` for the loop itself.
- `Loader` (`loader.dfy`) holds the parsing of a program line into a byte
  and `LoadLines`, the effect of loading a sequence of lines.
- `Cpu` (`cpu.dfy`) holds the class `CPU`. Its `ram` and `reg` are arrays and
  its `pc`, `fl` and `status` are fields, all updated in place. Each method's
  `ensures` equates the new `State()` with the `Isa` or `Loader` function
  applied to the old one.
- `Properties` (`properties.dfy`) holds lemmas that relate several
  instructions, the loop and the loader.

Values are unbounded integers. The machine does no 8-bit masking: `alu`
adds and multiplies Python integers, so a register may exceed 255, and PUSH
may then store such a value in memory. (CALL stores only pc + 2, which is at
most 255 because the loop has already fetched the cell at pc + 2.) The model keeps that behaviour.
Any claim that ADD and MUL wrap modulo 256 does not match the code.

On an opcode outside the table, the code prints a diagnostic and a trace
and then leaves the loop with `break`. The statement before the `break`
(`self.status == False`) is a comparison with no effect, so the run flag
stays set, but the loop still ends after one diagnostic. It does not repeat
forever. The model follows the code: `RunFrom` stops with
`UnknownOpcode(ir)`, runs no handler and returns the state unchanged.

Accesses that Python would fail on with `IndexError` are not modelled, and
neither are negative indices, which Python wraps to the end of the list.
Examples are an operand register of 8 or more, a stack pointer outside
memory, or a pc whose fetch window passes address 255. Each handler
function requires the bounds it needs. The loop checks those bounds before
it dispatches and stops with `Fault` when they fail. The loop also takes a
`fuel` bound, because a looping program never halts.

## Model

| member | source | states |
|---|---|---|
| Isa.Init | ls8/cpu.py:9-15 | a fresh machine has 256 zero memory cells, registers zero except R7 = 0xF4, pc = 0 and fl = 0 |
| Isa.Hlt | ls8/cpu.py:93-94 | HLT clears the run flag and changes nothing else, not even pc |
| Isa.Ldi | ls8/cpu.py:96-98 | LDI sets register A to the immediate B and advances pc by 3; memory, flags and every other register are unchanged |
| Isa.Prn | ls8/cpu.py:100-102 | PRN appends register A to the output and advances pc by 2; memory, registers and flags are unchanged |
| Isa.Alu | ls8/cpu.py:47-56 | the ALU succeeds exactly for the tags "ADD" and "MUL"; ADD sets register A to the unbounded sum, MUL to the unbounded product; only register A changes; any other tag is the unsupported-operation error |
| Isa.Mul | ls8/cpu.py:104-106 | MUL sets register A to A * B with no masking and advances pc by 3; only register A and pc change |
| Isa.Add | ls8/cpu.py:108-110 | ADD sets register A to A + B with no masking and advances pc by 3; only register A and pc change |
| Isa.Push | ls8/cpu.py:112-116 | PUSH decrements SP, stores the named register's value as read before the decrement at the new SP, advances pc by 2; no other cell or register changes |
| Isa.Pop | ls8/cpu.py:118-122 | POP loads the top of the stack into the named register, then increments R7; popping into R7 leaves SP one above the popped value; memory is unchanged |
| Isa.Call | ls8/cpu.py:124-127 | CALL decrements SP, stores pc + 2 at the new SP, then reads its operand at pc + 1 after that store and jumps through the named register as updated |
| Isa.Ret | ls8/cpu.py:129-131 | RET jumps to the address at the top of the stack and increments SP; memory and the other registers are unchanged |
| Isa.Cmp | ls8/cpu.py:133-142 | CMP sets fl to 3 exactly when A < B, to 2 exactly when A > B and to 1 exactly when they are equal, advances pc by 3 and changes no register or memory cell |
| Isa.Jmp | ls8/cpu.py:144-145 | JMP sets pc to the register named at pc + 1 and changes nothing else |
| Isa.Jeq | ls8/cpu.py:147-151 | JEQ jumps like JMP when fl == 1 and otherwise advances pc by 2 |
| Isa.Jne | ls8/cpu.py:153-157 | JNE jumps like JMP when fl != 1 and otherwise advances pc by 2 |
| Isa.Execute | ls8/cpu.py:17-31 | the dispatch table maps each of the thirteen opcodes to its handler (1 to HLT, 130 to LDI, 71 to PRN, 162 to MUL, 69 to PUSH, 70 to POP, 80 to CALL, 17 to RET, 160 to ADD, 167 to CMP, 84 to JMP, 85 to JEQ, 86 to JNE) and runs nothing else; the run flag ends up cleared exactly when the opcode is HLT; output only grows |
| Isa.Step | ls8/cpu.py:82-91 | one turn of the loop stops with Halted exactly when the run flag is clear, with OutOfFuel exactly when it is set and no fuel is left, and with UnknownOpcode only on a fetched opcode outside the table; it continues exactly when the flag is set, fuel is left, the three bytes at pc can be fetched, the opcode is in the table and its handler can run, and then the next state is `Execute` of the fetched opcode and operands |
| Isa.RunFrom | ls8/cpu.py:82-91 | the loop ends Halted exactly when the run flag is clear; an UnknownOpcode end leaves pc on an opcode outside the table; output only grows |
| Isa.Started | ls8/cpu.py:80-81 | `run` resets pc to 0 and sets the run flag, leaving memory, registers and flags as they were |
| Loader.ParseByte | ls8/cpu.py:44 | a line's leading eight characters, read as a binary number, give a value in 0..255 |
| Loader.DataLines | ls8/cpu.py:42-43 | every kept line is a non-comment line of the input and every non-comment line is kept; a single line is kept exactly when it is not a comment |
| Properties.DataLinesConcat | ls8/cpu.py:42-43 | taking the data lines distributes over concatenation, so with the single-line case they are the non-comment lines in their original order |
| Loader.LoadLine | ls8/cpu.py:42-45 | one line of the load: a comment or a stopped load changes nothing; on a running load, a data line that is not a binary number stops it as a bad line, one whose byte fits stores it at pc and advances pc by 1, and one that finds pc past the last address stops it as a full memory |
| Loader.LoadLines | ls8/cpu.py:39-45 | a load never moves pc backwards, and a stop names a data line that is not a binary number, or one whose byte would go past the last address |
| Loader.LoadStopsAtError | ls8/cpu.py:41-45 | once a load has stopped, later lines change nothing |
| Cpu.CPU.constructor | ls8/cpu.py:9-31 | the constructed CPU's state is `Init()` |
| Cpu.CPU.RamRead | ls8/cpu.py:33-34 | reads the memory cell at the given address |
| Cpu.CPU.RamWrite | ls8/cpu.py:36-37 | writes the given address only; every other cell is unchanged |
| Cpu.CPU.Load | ls8/cpu.py:39-45 | the loop over the lines leaves memory, pc and outcome as `LoadLines` gives them |
| Cpu.CPU.Alu | ls8/cpu.py:47-56 | updates registers in place as `Isa.Alu`, and reports the unsupported-operation error for any other tag |
| Cpu.CPU.Hlt | ls8/cpu.py:93-94 | the new state is `Isa.Hlt` of the old |
| Cpu.CPU.Ldi | ls8/cpu.py:96-98 | the new state is `Isa.Ldi` of the old |
| Cpu.CPU.Prn | ls8/cpu.py:100-102 | the new state is `Isa.Prn` of the old |
| Cpu.CPU.Mul | ls8/cpu.py:104-106 | the new state is `Isa.Mul` of the old |
| Cpu.CPU.Add | ls8/cpu.py:108-110 | the new state is `Isa.Add` of the old |
| Cpu.CPU.Push | ls8/cpu.py:112-116 | the new state is `Isa.Push` of the old |
| Cpu.CPU.Pop | ls8/cpu.py:118-122 | the new state is `Isa.Pop` of the old |
| Cpu.CPU.Call | ls8/cpu.py:124-127 | the new state is `Isa.Call` of the old, with the operand read after the return address is written |
| Cpu.CPU.Ret | ls8/cpu.py:129-131 | the new state is `Isa.Ret` of the old |
| Cpu.CPU.Cmp | ls8/cpu.py:133-142 | the new state is `Isa.Cmp` of the old |
| Cpu.CPU.Jmp | ls8/cpu.py:144-145 | the new state is `Isa.Jmp` of the old |
| Cpu.CPU.Jeq | ls8/cpu.py:147-151 | the new state is `Isa.Jeq` of the old |
| Cpu.CPU.Jne | ls8/cpu.py:153-157 | the new state is `Isa.Jne` of the old |
| Cpu.CPU.Dispatch | ls8/cpu.py:91 | calling the handler that `func_dict` holds for the opcode gives `Isa.Execute` of the old state |
| Cpu.CPU.Cycle | ls8/cpu.py:83-91 | one pass of the loop body either runs the fetched opcode's handler, giving the next state `Step` gives, or reports why the loop ends and changes nothing |
| Cpu.CPU.Run | ls8/cpu.py:78-91 | the `while self.status` loop ends in the state and with the outcome `RunFrom` gives from the started state |
| Properties.LdiThenPrn | ls8/cpu.py:96-102 | LDI Ra, b followed by PRN Ra outputs exactly b |
| Properties.PushThenPop | ls8/cpu.py:112-122 | PUSH Ri then POP Rj, for j other than R7, copies Ri into Rj and restores SP; PUSH Rk then POP Rk restores the whole register file; after the PUSH, old SP - 1 holds the pushed value |
| Properties.PushThenPopStackPointer | ls8/cpu.py:112-122 | PUSH R7 then POP R7 leaves SP one above its value before the PUSH |
| Properties.CallThenRet | ls8/cpu.py:124-131 | after a CALL, a RET with SP and the return-address cell as CALL left them resumes at the CALL's pc + 2 with SP as before the CALL |
| Properties.CallThenRetAtOnce | ls8/cpu.py:124-131 | CALL directly followed by RET returns to pc + 2 with the register file exactly as before |
| Properties.JeqJneComplement | ls8/cpu.py:144-157 | whichever of JEQ and JNE the flag selects behaves as JMP, and the other only steps over its operand |
| Properties.CmpThenBranch | ls8/cpu.py:133-157 | CMP followed by JEQ jumps exactly when the registers were equal; followed by JNE, exactly when they were not |
| Properties.RunStopsOnUnknownOpcode | ls8/cpu.py:85-90 | fetching an opcode outside the table ends the loop at once with the state unchanged |
| Properties.RunStopsAfterHlt | ls8/cpu.py:82-94 | fetching HLT ends the loop after that one instruction, with only the run flag changed |
| Properties.RunHaltsAtHlt | ls8/cpu.py:82-94 | a run that ends Halted ends with pc on an HLT opcode |
| Properties.RunSplit | ls8/cpu.py:82-91 | running f1 + f2 turns is running f1 turns and, if those used up the fuel, f2 more from there |
| Properties.RunMoreFuel | ls8/cpu.py:82-91 | a run that stopped for a reason other than fuel gives the same result with more fuel |
| Properties.SumProgramPrints17 | ls8/cpu.py:78-110 | the program LDI R0,8; LDI R1,9; ADD R0,R1; PRN R0; HLT halts and outputs the single value 17 |
| Properties.LoadSucceedsIff | ls8/cpu.py:39-45 | a load consumes every line exactly when every data line is a binary number and the data lines fit in memory from the starting pc |
| Properties.LoadAdvancesPc | ls8/cpu.py:39-45 | a complete load advances pc by the number of non-comment lines; comment lines do not advance it |
| Properties.LoadPlacesBytes | ls8/cpu.py:39-45 | a complete load stores the k-th data line's byte at the starting pc + k |
| Properties.LoadKeepsOtherCells | ls8/cpu.py:39-45 | a complete load leaves every cell outside the addresses it wrote unchanged |
| Properties.BinaryValueOfBits | ls8/cpu.py:44 | reading back the binary digits of a number gives that number |
| Properties.ParseEncodedByte | ls8/cpu.py:44 | a line that starts with the eight binary digits of a byte parses to that byte, whatever follows |

## Left out

- The program file itself: opening, reading and the open error are not modelled. `Load` takes the file's lines as a sequence of strings.
- Loader.ParseByte: accepts only optional ASCII whitespace around binary digits. Python's `int(s, 2)` also accepts a sign, a `0b` prefix, underscores between digits and Unicode whitespace. Those forms are not modelled.
- Cpu.CPU.Load: an empty line stops the load as a bad line, which stands for Python's `IndexError` on `x[0]`. Iterating over a file never yields an empty line.
- Cpu.CPU.Load: requires a pc of 0 or more. `load` runs on a fresh CPU, whose pc is 0.
- Isa.RunFrom: out-of-range and negative indices end the loop with `Fault`, leaving the state as it was at the start of that instruction. Python raises `IndexError` there, or wraps a negative index. A handler's partial update before such an error is not modelled.
- Isa.Push, Isa.Pop, Isa.Call, Isa.Ret, Isa.Jmp, Isa.Jeq, Isa.Jne, Isa.Ldi, Isa.Prn, Isa.Add, Isa.Mul, Isa.Cmp: each requires its operands and stack pointer to be in range. They are not defined where Python would fail or wrap a negative index.
- Isa.RunFrom: the loop is bounded by `fuel`, and a run that uses it up ends with `OutOfFuel`. This stands for a program that never halts.
- PRN's `print`: modelled as appending to the `out` sequence of printed values. Decimal formatting is not modelled.
- `trace` and its `%02X` formatting, and the diagnostic printed for an unknown opcode, are not modelled. The model reads the same three cells before it stops.
- `status` does not exist on a Python `CPU` until `run` sets it. The constructor here sets it to false.
- `ls8/ls8.py` (argument check, exit codes, construct/load/run) is not part of this model.
