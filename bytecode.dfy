/**
 * The virtual-machine instruction format (src/bytecode_gen.hpp) and the
 * lowering of an INSERT statement into a program of such instructions
 * (src/bytecode_gen.cpp).
 */
module Bytecode {
  import opened Wrappers
  import opened IR

  datatype Opcode =
    | Noop | Halt | VerifyCookie | Transaction | OpenWrite | NewRecno
    | Integer | MakeRecord | PutIntKey | Close | Commit

  /** The enumerator's underlying value, in declaration order. */
  function OpcodeValue(o: Opcode): (v: nat)
    ensures v < 11
  {
    match o
    case Noop => 0
    case Halt => 1
    case VerifyCookie => 2
    case Transaction => 3
    case OpenWrite => 4
    case NewRecno => 5
    case Integer => 6
    case MakeRecord => 7
    case PutIntKey => 8
    case Close => 9
    case Commit => 10
  }

  /** The enumeration is closed with exactly eleven distinct values: each value below 11 names one opcode. */
  lemma OpcodeValueBijective(o1: Opcode, o2: Opcode, v: nat)
    ensures OpcodeValue(o1) == OpcodeValue(o2) ==> o1 == o2
    ensures v < 11 ==> exists o :: OpcodeValue(o) == v
  {
    if v < 11 {
      var all := [Noop, Halt, VerifyCookie, Transaction, OpenWrite, NewRecno, Integer, MakeRecord, PutIntKey, Close, Commit];
      assert OpcodeValue(all[v]) == v;
    }
  }

  /** `std::int64_t`. */
  newtype Int64 = x: int | -0x8000_0000_0000_0000 <= x < 0x8000_0000_0000_0000

  /** `std::uint64_t`. */
  newtype UInt64 = x: int | 0 <= x < 0x1_0000_0000_0000_0000

  /** One instruction: an opcode, a signed and an unsigned operand, and a string payload. */
  datatype Instruction = Instruction(opcode: Opcode, p1: Int64, p2: UInt64, p3: string)

  /** A program: instructions in execution order. */
  type Program = seq<Instruction>

  function Opcodes(p: Program): seq<Opcode> {
    seq(|p|, i requires 0 <= i < |p| => p[i].opcode)
  }

  /** How many instructions of `p` carry opcode `o`. */
  function CountOpcode(p: Program, o: Opcode): nat {
    if |p| == 0 then 0 else (if p[0].opcode == o then 1 else 0) + CountOpcode(p[1..], o)
  }

  /** Counting from position `k`: the instruction at `k`, then the rest. */
  lemma CountOpcodeStep(p: Program, k: nat, o: Opcode)
    requires k < |p|
    ensures CountOpcode(p[k..], o) == (if p[k].opcode == o then 1 else 0) + CountOpcode(p[k + 1..], o)
  {
  }

  /** The fixed skeleton of an INSERT; NEWRECNO comes before OPENWRITE. */
  const InsertOpcodes: seq<Opcode> :=
    [Transaction, VerifyCookie, NewRecno, OpenWrite, Integer, Integer, MakeRecord, PutIntKey, Close, Commit]

  /**
   * The lowering of an INSERT: always the same ten instructions, whose only
   * statement-dependent part is the table name carried by OPENWRITE.
   */
  function InsertProgram(s: InsertStmt): (p: Program)
    ensures |p| == 10 && Opcodes(p) == InsertOpcodes
    ensures p[0].opcode == Transaction && p[|p| - 1].opcode == Commit
    ensures p[3].opcode == OpenWrite && p[3].p3 == s.target.table.tableName
    ensures forall i :: 0 <= i < |p| && i != 3 ==> p[i].p3 == ""
    ensures forall i :: 0 <= i < |p| ==> p[i].p1 == 0
    ensures forall i :: 0 <= i < |p| ==> p[i].p2 == if p[i].opcode == PutIntKey then 1 else 0
  {
    [ Instruction(Transaction, 0, 0, ""),
      Instruction(VerifyCookie, 0, 0, ""),
      Instruction(NewRecno, 0, 0, ""),
      Instruction(OpenWrite, 0, 0, s.target.table.tableName),
      Instruction(Integer, 0, 0, ""),
      Instruction(Integer, 0, 0, ""),
      Instruction(MakeRecord, 0, 0, ""),
      Instruction(PutIntKey, 0, 1, ""),
      Instruction(Close, 0, 0, ""),
      Instruction(Commit, 0, 0, "") ]
  }

  /** Exactly two INTEGER instructions, however many values the INSERT lists. */
  lemma InsertIntegerCount(s: InsertStmt)
    ensures CountOpcode(InsertProgram(s), Integer) == 2
  {
    var p := InsertProgram(s);
    var k := |p|;
    while k > 0
      invariant 0 <= k <= |p|
      invariant CountOpcode(p[k..], Integer) == if k <= 4 then 2 else if k == 5 then 1 else 0
    {
      k := k - 1;
      CountOpcodeStep(p, k, Integer);
    }
    assert p[0..] == p;
  }

  /** The lowering sees nothing of the statement but the target table's name. */
  lemma InsertProgramDependsOnlyOnTableName(s1: InsertStmt, s2: InsertStmt)
    ensures InsertProgram(s1) == InsertProgram(s2) <==> s1.target.table.tableName == s2.target.table.tableName
  {
  }

  /** The source's lowering: append the ten instructions one after another. */
  method GenerateInsert(s: InsertStmt) returns (program: Program)
    ensures program == InsertProgram(s)
  {
    program := [];
    program := program + [Instruction(Transaction, 0, 0, "")];
    program := program + [Instruction(VerifyCookie, 0, 0, "")];
    program := program + [Instruction(NewRecno, 0, 0, "")];
    program := program + [Instruction(OpenWrite, 0, 0, s.target.table.tableName)];

    program := program + [Instruction(Integer, 0, 0, "")];
    program := program + [Instruction(Integer, 0, 0, "")];
    program := program + [Instruction(MakeRecord, 0, 0, "")];

    program := program + [Instruction(PutIntKey, 0, 1, "")];
    program := program + [Instruction(Close, 0, 0, "")];
    program := program + [Instruction(Commit, 0, 0, "")];
  }

  /**
   * Lowering dispatch. Only an INSERT has a defined lowering; the SELECT and
   * CREATE TABLE lowerings return no value, so the model gives no program.
   */
  method GenerateBytecode(st: Statement) returns (r: Option<Program>)
    ensures r.Some? <==> st.Insert?
    ensures st.Insert? ==> r.value == InsertProgram(st.insertStmt)
  {
    match st {
      case Select(_) =>
        r := None;
      case CreateTable(_) =>
        r := None;
      case Insert(ins) =>
        var program := GenerateInsert(ins);
        r := Some(program);
    }
  }
}
