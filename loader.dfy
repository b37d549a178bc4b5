/** The program loader: one byte per non-comment line of a program text,
    stored at consecutive addresses starting at the current pc.  A line
    whose leading eight characters are not a binary number stops the load,
    and so does a byte that would be stored past the end of memory. */
module Loader {
  import opened Isa

  /** A comment line starts with '#'. */
  predicate IsComment(line: string)
  {
    |line| > 0 && line[0] == '#'
  }

  /** The ASCII whitespace the number parser ignores around the digits:
      space, tab, line feed, vertical tab, form feed and carriage return. */
  predicate IsSpace(c: char)
  {
    c == ' ' || '\t' <= c <= '\r'
  }

  function TrimStart(s: string): (t: string)
    ensures |t| <= |s|
    ensures |t| > 0 ==> !IsSpace(t[0])
    ensures t == s[|s| - |t|..]
  {
    if |s| > 0 && IsSpace(s[0]) then TrimStart(s[1..]) else s
  }

  function TrimEnd(s: string): (t: string)
    ensures |t| <= |s|
    ensures |t| > 0 ==> !IsSpace(t[|t| - 1])
    ensures t == s[..|t|]
  {
    if |s| > 0 && IsSpace(s[|s| - 1]) then TrimEnd(s[..|s| - 1]) else s
  }

  /** `s` without its leading and trailing whitespace. */
  function Trim(s: string): string
  {
    TrimEnd(TrimStart(s))
  }

  predicate IsBits(s: string)
  {
    forall i | 0 <= i < |s| :: s[i] == '0' || s[i] == '1'
  }

  function Pow2(n: nat): (p: nat)
    ensures p > 0
  {
    if n == 0 then 1 else 2 * Pow2(n - 1)
  }

  lemma {:induction false} Pow2Monotone(a: nat, b: nat)
    requires a <= b
    ensures Pow2(a) <= Pow2(b)
    decreases b
  {
    if a < b {
      Pow2Monotone(a, b - 1);
    }
  }

  /** The value of a string of binary digits, most significant digit first. */
  function BinaryValue(digits: string): (v: nat)
    requires IsBits(digits)
    ensures v < Pow2(|digits|)
    decreases |digits|
  {
    if digits == [] then 0
    else 2 * BinaryValue(digits[..|digits| - 1]) + (if digits[|digits| - 1] == '1' then 1 else 0)
  }

  /** The byte a program line stands for: its first eight characters, without
      surrounding whitespace, read as a base-2 number; `None` where the
      parser would raise an error. */
  function ParseByte(line: string): (r: Option<int>)
    ensures r.Some? ==> 0 <= r.value < 256
  {
    var t := Trim(line[..if |line| < 8 then |line| else 8]);
    if |t| > 0 && IsBits(t) then
      Pow2Monotone(|t|, 8);
      Some(BinaryValue(t))
    else None
  }

  /** The eight binary digits of `v`, most significant first: what a program
      line holds for the byte `v`. */
  function Bits(v: nat, width: nat): (s: string)
    ensures |s| == width && IsBits(s)
  {
    if width == 0 then "" else Bits(v / 2, width - 1) + [if v % 2 == 1 then '1' else '0']
  }

  /** The lines that carry a byte, in order: every non-comment line is
      kept and every comment line dropped. */
  function DataLines(lines: seq<string>): (d: seq<string>)
    ensures |d| <= |lines|
    ensures forall k | 0 <= k < |d| :: !IsComment(d[k]) && d[k] in lines
    ensures forall k | 0 <= k < |lines| && !IsComment(lines[k]) :: lines[k] in d
    ensures |lines| == 1 ==> d == if IsComment(lines[0]) then [] else lines
  {
    if lines == [] then []
    else
      var last := lines[|lines| - 1];
      DataLines(lines[..|lines| - 1]) + (if IsComment(last) then [] else [last])
  }

  /** How a load ended; `line` is the index of the line it stopped at. */
  datatype LoadOutcome =
    | Loaded                // every line was consumed
    | BadLine(line: nat)    // this line is empty, or is a data line that is not a binary number
    | MemoryFull(line: nat) // this data line would be stored past the last address

  datatype LoadState = LoadState(ram: seq<int>, pc: int, outcome: LoadOutcome)

  /** The effect of line `i` of the program on a load in progress: nothing
      once the load has stopped or for a comment line; otherwise its byte is
      stored at pc and pc advances, unless it is not a binary number or pc is
      already past the last address. */
  function LoadLine(s: LoadState, line: string, i: nat): (r: LoadState)
    requires |s.ram| == RamSize && 0 <= s.pc
    ensures |r.ram| == RamSize && s.pc <= r.pc
    ensures !s.outcome.Loaded? || IsComment(line) ==> r == s
    ensures s.outcome.Loaded? && !IsComment(line) && ParseByte(line).None? ==>
              r == s.(outcome := BadLine(i))
    ensures s.outcome.Loaded? && !IsComment(line) && ParseByte(line).Some? && s.pc < RamSize ==>
              r == LoadState(s.ram[s.pc := ParseByte(line).value], s.pc + 1, Loaded)
    ensures s.outcome.Loaded? && !IsComment(line) && ParseByte(line).Some? && RamSize <= s.pc ==>
              r == s.(outcome := MemoryFull(i))
    ensures s.outcome.Loaded? && r.outcome.BadLine? ==>
              r.outcome.line == i && !IsComment(line) && ParseByte(line).None?
    ensures s.outcome.Loaded? && r.outcome.MemoryFull? ==>
              r.outcome.line == i && !IsComment(line) && ParseByte(line).Some? && RamSize <= s.pc
  {
    if !s.outcome.Loaded? || IsComment(line) then s
    else
      match ParseByte(line)
      case None => s.(outcome := BadLine(i))
      case Some(b) =>
        if s.pc < RamSize then LoadState(s.ram[s.pc := b], s.pc + 1, Loaded)
        else s.(outcome := MemoryFull(i))
  }

  /** Memory, pc and outcome after loading `lines` into `ram` from address `pc`. */
  function LoadLines(ram: seq<int>, pc: int, lines: seq<string>): (s: LoadState)
    requires |ram| == RamSize && 0 <= pc
    ensures |s.ram| == RamSize && pc <= s.pc
    ensures s.outcome.BadLine? ==>
              s.outcome.line < |lines| && !IsComment(lines[s.outcome.line])
              && ParseByte(lines[s.outcome.line]).None?
    ensures s.outcome.MemoryFull? ==>
              s.outcome.line < |lines| && !IsComment(lines[s.outcome.line])
              && ParseByte(lines[s.outcome.line]).Some? && RamSize <= s.pc
    decreases |lines|
  {
    if lines == [] then LoadState(ram, pc, Loaded)
    else LoadLine(LoadLines(ram, pc, lines[..|lines| - 1]), lines[|lines| - 1], |lines| - 1)
  }

  /** Once a load has stopped, later lines change nothing. */
  lemma {:induction false} LoadStopsAtError(ram: seq<int>, pc: int, lines: seq<string>, j: nat)
    requires |ram| == RamSize && 0 <= pc
    requires j <= |lines| && !LoadLines(ram, pc, lines[..j]).outcome.Loaded?
    ensures LoadLines(ram, pc, lines) == LoadLines(ram, pc, lines[..j])
    decreases |lines| - j
  {
    if j == |lines| {
      assert lines[..j] == lines;
    } else {
      var p := lines[..|lines| - 1];
      assert p[..j] == lines[..j];
      LoadStopsAtError(ram, pc, p, j);
      LoadLineStopped(LoadLines(ram, pc, p), lines[|lines| - 1], |lines| - 1);
    }
  }

  /** A stopped load ignores any further line. */
  lemma LoadLineStopped(s: LoadState, line: string, i: nat)
    requires |s.ram| == RamSize && 0 <= s.pc && !s.outcome.Loaded?
    ensures LoadLine(s, line, i) == s
  {
  }
}
