# bootleg-sql core in Dafny

A model of the core of bootleg-sql, a small C++ SQL front end for the SQLite
dialect. The core turns a parsed statement (SELECT, CREATE TABLE or INSERT)
into a typed intermediate representation (IR), prints the IR back as SQL
text, and lowers an INSERT into a fixed program of virtual-machine
instructions.

| file | module | models |
|---|---|---|
| `wrappers.dfy` | `Wrappers` | `Option` and `Result`, the stand-in for thrown exceptions |
| `ir.dfy` | `IR` | the IR types of `src/IR.hpp`, the error kinds raised through `fail`, and `collect` |
| `syntax.dfy` | `Syntax` | the grammar's syntax-tree nodes the builder reads: one datatype per production, `Option` for optional children, `bool` for keyword tokens, `seq` for repeated children |
| `builder.dfy` | `Builder` | every `SqlGrammarVisitor::visit*` conversion of `src/IR.cpp` |
| `printer.dfy` | `Printer` | `conflict_method_to_string` and every `to_string` of `src/printers.cpp` |
| `bytecode.dfy` | `Bytecode` | the instruction format of `src/bytecode_gen.hpp` and the lowering of `src/bytecode_gen.cpp` |
| `pipeline.dfy` | `Pipeline` | what the printer and the lowering make of built statements, and concrete statements taken through every stage |

Form follows the source. The IR is a set of datatypes. A conversion the
source writes as one returned expression is a function (`SelectOf`,
`ResultColumnOf`, `CteOf`, `SqlStmtOf`, ...). A conversion that fills local
variables and overwrites them when a child is present
(`visitInsert_stmt`, `visitCreate_table_stmt`, `visitColumn_def`,
`visitTable_or_subquery`) is a method (`VisitInsertStmt`, ...). Each such
method is proved equal to the function that specifies it. `collect` is the
function `Collect` plus the loop `CollectLoop` proved equal to it. The
printers that fill string vectors in loops (SELECT, CREATE TABLE) or build
the text with `+=` (INSERT) are methods proved to return the text functions
`SelectText`, `CreateTableText` and `InsertText`. INSERT lowering is the
method `GenerateInsert`, which appends ten instructions and is proved to
return `InsertProgram`.

An exception is a `Failure` carrying an `SqlError` tag. The message text is
not modelled. The statement text is kept where the message quotes it
(`InvalidStatement`, `UnknownResolutionMethod`). Errors are reported in the
order the C++ evaluates the parts. For an INSERT that order is the WITH
clause, the operation, the rows, then the column names.

The exclusivity properties of the IR hold by construction of the datatypes:
- a `Statement` is exactly one of its three kinds;
- a `ResultColumn` is exactly one of its three kinds, and only `ExprColumn` has an alias;
- only `InsertContainer` carries a conflict method;
- `InsertedTuples` is exactly one of its three sources.

`IR.DefaultInsertStmtOp` is the first alternative, `ReplaceContainer`, as
for a default-constructed `std::variant`. The operand widths of an
instruction are the newtypes `Int64` (P1) and `UInt64` (P2).

Where the project's documented design and the code disagree, the model follows the code:
- `InsertStmt.column_names` is always present, possibly empty. It is never
  absent, even though the design says an empty list is represented as absent.
  `Printer.InsertTextEmptyColumnsAsAbsent` shows the printer cannot tell the
  two apart.
- A conflict clause next to REPLACE is ignored, not rejected: see
  `Pipeline.ExampleInsert`.
- INSERT lowering emits NEWRECNO before OPENWRITE. It emits exactly two
  INTEGER instructions, whatever the statement holds.
- `SELECT a, b AS x FROM t1, t2` does not build. The alias child is cast
  without being visited, which throws `std::bad_any_cast`. The model gives
  this path the error `BadAliasCast`. The source does not catch this error
  as an `SqlError`.
- A table prints as schema name and table name with no separator (`st` for
  `s.t`). A column definition prints as its name alone. A WITH clause prints
  as nothing.

## Model

| member | source | states |
|---|---|---|
| `IR.Collect` | src/IR.hpp:164-174 | succeeds exactly when every child converts; the result has one element per child, element i being child i's conversion; on failure the error is that of the first failing child and nothing partial is returned |
| `IR.CollectFirstFailure` | src/IR.hpp:169-171 | when children 0..k-1 convert and child k fails, the whole collection fails with child k's error |
| `IR.CollectLoop` | src/IR.hpp:166-173 | the reserve-and-push_back loop returns exactly `Collect` of its input |
| `Builder.CollectNames` | src/IR.cpp:215-217 | collecting identifier leaves never fails and yields their texts in source order |
| `Builder.ResultColumnOf` | src/IR.cpp:122-140 | table name present gives `t.*`; else STAR gives `*`; else an expression gives an unaliased `ExprColumn` of that identifier, or fails when an alias is present; with none of them the build fails with `InvalidResultColumn` |
| `Builder.TableOrSubqueryOf` | src/IR.cpp:142-158 | never fails; table name, schema and alias are the node's, absent ones absent |
| `Builder.VisitTableOrSubquery` | src/IR.cpp:143-157 | starting unqualified and unaliased and filling in the present children gives exactly `TableOrSubqueryOf` |
| `Builder.ModifierOf` | src/IR.cpp:67-70 | ALL if that keyword is present, else DISTINCT if present, else none; each case if and only if |
| `Builder.SelectOf` | src/IR.cpp:66-77 | succeeds exactly when every result column builds; projections and sources have the length and order of their child lists; the modifier is `ModifierOf`; on failure the error is the first failing column's |
| `Builder.ColumnDefOf` | src/IR.cpp:104-120 | succeeds exactly when there is no constraint child, and then keeps name and type text with no constraints; otherwise fails with `ColumnConstraintsNotImplemented` |
| `Builder.VisitColumnDef` | src/IR.cpp:104-115 | the step-by-step conversion returns exactly `ColumnDefOf` |
| `Builder.CreateTableOf` | src/IR.cpp:79-102 | succeeds exactly when no column definition has a constraint; TEMPORARY and IF presence become the two flags; table options are empty; columns are the definitions in order |
| `Builder.VisitCreateTableStmt` | src/IR.cpp:79-102 | the step-by-step conversion returns exactly `CreateTableOf` |
| `Builder.ConflictMethodOf` | src/IR.cpp:181-189 | succeeds exactly when one of ABORT, FAIL, IGNORE, REPLACE, ROLLBACK is present, with a method whose keyword is present; otherwise fails quoting the node text |
| `Builder.ConflictMethodOneToOne` | src/IR.cpp:182-186 | a node carrying exactly the keyword of method m converts to m |
| `Builder.CteOf` | src/IR.cpp:160-172 | NOT gives NOT MATERIALIZED, else MATERIALIZED gives MATERIALIZED, else none; name, column names in order, and body SELECT; fails exactly when the body fails, with its error |
| `Builder.WithClauseOf` | src/IR.cpp:174-179 | RECURSIVE presence and the CTEs one for one in order; fails with the first failing CTE's error |
| `Builder.OperationOf` | src/IR.cpp:25-34 | INSERT keyword gives `InsertContainer` whose method is present exactly when the conflict clause is; otherwise `ReplaceContainer`, whether REPLACE is present or not; fails only on an unknown conflict method under INSERT |
| `Builder.TuplesOf` | src/IR.cpp:48-55 | VALUES gives the expressions in child order; else a nested SELECT gives that SELECT; else DEFAULT VALUES; fails only when that SELECT fails |
| `Builder.InsertOf` | src/IR.cpp:19-64 | succeeds exactly when WITH clause, operation and rows build; the first failing part decides the error; target table from name, schema and alias; column names always present and equal to the children in order |
| `Builder.VisitInsertStmt` | src/IR.cpp:19-64 | the step-by-step conversion with defaults overwritten returns exactly `InsertOf` |
| `Builder.SqlStmtOf` | src/IR.cpp:6-17 | SELECT child first, then CREATE TABLE, then INSERT, each wrapped in its statement kind; with none the build fails with `InvalidStatement` quoting the node text |
| `Printer.JoinConcat` | src/printers.cpp:58 | joining two non-empty lists is joining each, separated once |
| `Printer.JoinLength` | src/printers.cpp:58 | the joined text's length is the parts' total plus one separator between each two |
| `Printer.ConflictMethodTextInjective` | src/printers.cpp:7-16 | two methods print the same keyword only if they are the same method |
| `Printer.TableText` | src/printers.cpp:20-22 | the text ends with the table name, preceded directly by the schema name when there is one |
| `Printer.TableTextNotInjective` | src/printers.cpp:21 | two different tables (`a`+`bc`, `ab`+`c`) print the same text |
| `Printer.SelectProjectionsInOrder` | src/printers.cpp:50-58 | split anywhere, the projections' text is the first part's text, a comma, then the rest's text |
| `Printer.PrintSelect` | src/printers.cpp:44-59 | the loops that fill the projection and source vectors produce `SELECT `, the modifier keyword if any, the projections joined by commas, ` FROM ` and the sources joined by commas |
| `Printer.ColumnDefTextIgnoresTypeAndConstraints` | src/printers.cpp:61-67 | changing the type name or the constraints does not change the printed column |
| `Printer.PrintCreateTable` | src/printers.cpp:69-82 | produces `CREATE TABLE`, ` TEMPORARY ` or a space, `IF NOT EXISTS ` when flagged, the table, then the column names in order in parentheses |
| `Printer.PrintInsert` | src/printers.cpp:89-135 | the `+=` construction produces operation, ` INTO ` table, optional column list, a space, then the rows |
| `Printer.InsertTextIgnoresWith` | src/printers.cpp:84-94 | the printed INSERT is the same whatever its WITH clause |
| `Printer.InsertTextEmptyColumnsAsAbsent` | src/printers.cpp:111-113 | an empty column list prints exactly like an absent one |
| `Printer.InsertTextParts` | src/printers.cpp:89-135 | the printed INSERT is operation and ` INTO `, then table, columns and a space, then the rows |
| `Printer.InsertTextShape` | src/printers.cpp:96-132 | the printed INSERT starts with its operation and ` INTO ` and ends with the text of its rows |
| `Printer.InsertTextOperation` | src/printers.cpp:96-107 | it starts `REPLACE INTO`, `INSERT INTO`, or `INSERT OR <M>` exactly as the operation says |
| `Printer.PrintStatement` | src/printers.cpp:136-142 | each statement kind is printed by its own printer |
| `Bytecode.OpcodeValue` | src/bytecode_gen.hpp:7-19 | every opcode's value is below 11 |
| `Bytecode.OpcodeValueBijective` | src/bytecode_gen.hpp:7-19 | distinct opcodes have distinct values and every value below 11 names one: exactly eleven opcodes |
| `Bytecode.InsertProgram` | src/bytecode_gen.cpp:26-37 | ten instructions, opcodes TRANSACTION .. COMMIT with NEWRECNO before OPENWRITE; only OPENWRITE carries a P3, the target table's name; every P1 is 0; P2 is 1 for PUTINTKEY and 0 elsewhere |
| `Bytecode.InsertIntegerCount` | src/bytecode_gen.cpp:31-32 | exactly two INTEGER instructions, whatever the statement |
| `Bytecode.InsertProgramDependsOnlyOnTableName` | src/bytecode_gen.cpp:29 | two INSERTs lower alike exactly when their target table names agree |
| `Bytecode.GenerateInsert` | src/bytecode_gen.cpp:11-39 | appending the ten instructions one by one yields `InsertProgram` |
| `Bytecode.GenerateBytecode` | src/bytecode_gen.cpp:42-55 | an INSERT is lowered by the INSERT lowering; the SELECT and CREATE TABLE lowerings give no program |
| `Pipeline.BuiltValuesPrintInOrder` | src/printers.cpp:121-127 | a built VALUES list prints `VALUES(` the node's identifiers in order `)` |
| `Pipeline.BuiltColumnsPrinted` | src/printers.cpp:111-113 | a built INSERT prints ` (c1, ...)` from its column-name children in order, or nothing when there are none |
| `Pipeline.BuiltOperationPrinted` | src/IR.cpp:25-34 | a built INSERT prints `INSERT`, `INSERT OR ` plus the node's conflict keyword, or `REPLACE` when the INSERT keyword is absent |
| `Pipeline.BuiltResultColumnPrinted` | src/printers.cpp:24-33 | a built result column prints `*`, the table name followed by `.*`, or the expression's identifier, as the node had it |
| `Pipeline.BuiltSourcePrinted` | src/printers.cpp:35-42 | a built SELECT source prints schema and table name run together, then ` AS ` and the alias when present |
| `Pipeline.BuiltPlainSelectPrinted` | src/printers.cpp:50-58 | a SELECT of bare expressions builds and prints its expressions in source order |
| `Pipeline.BuiltCreateTablePrinted` | src/printers.cpp:61-77 | a built CREATE TABLE prints its column names in order and nothing of their types |
| `Pipeline.BuiltInsertLowered` | src/bytecode_gen.cpp:29 | the lowering of a built INSERT opens the node's table and depends on nothing else |
| `Pipeline.ExampleSelect` | src/printers.cpp:44-59 | `SELECT a, b FROM t1, t2` builds with no modifier and prints back exactly |
| `Pipeline.ExampleSelectWithAlias` | src/IR.cpp:129-133 | `SELECT a, b AS x FROM t1, t2` fails on the alias |
| `Pipeline.ExampleCreateTable` | src/IR.cpp:79-102 | `CREATE TABLE IF NOT EXISTS s.t (a, b INTEGER)` keeps schema and type and prints `CREATE TABLE IF NOT EXISTS st(a, b)` |
| `Pipeline.ExampleConstraintRejected` | src/IR.cpp:117-120 | a constraint on any column makes CREATE TABLE fail |
| `Pipeline.ExampleInsert` | src/IR.cpp:25-34 | `INSERT INTO t VALUES(a)` has no conflict method, prints back and opens `t`; REPLACE with a conflict clause stays a plain REPLACE |
| `Pipeline.ExampleInvalidStatement` | src/IR.cpp:16 | a statement node with no statement child fails quoting its text |

## Left out

- The grammar front end (lexer, parser, base visitor) is not part of this
  model. The builder reads the abstract syntax nodes of `Syntax`, whose leaf
  productions carry their IDENTIFIER text. The leaf conversions
  (`visitTable_name`, `visitColumn_name`, ...) therefore read that text.
- `std::any` boxing and `any_cast`: each conversion has its own result type.
  The one cast that throws, on the alias path of a result column, is the
  `BadAliasCast` failure. The alias text is never obtained there.
- `visitProgram` only forwards to the statement conversion; `SqlStmtOf` is
  the entry point.
- `src/main.cpp` (argument handling, printing, catching `SqlError`) and
  `src/printers.hpp` (declarations only) are not part of this model.
- The SELECT and CREATE TABLE lowerings have empty bodies with no return, so
  their result is undefined. `GenerateBytecode` returns no program for them
  rather than inventing one.
- The `default` branch of `conflict_method_to_string`, which prints
  `[UNKNOWN CONFLICT METHOD]`, cannot be reached with the closed enumeration.
- The model leaves out behaviour described for the system but absent from
  the code: arity checks (`ArityMismatch`), rejecting a conflict clause on
  REPLACE, skipping NEWRECNO for WITHOUT ROWID tables, catalog lookups,
  schema cookies, and `CREATE TABLE ... AS SELECT`.
- Build–print round trip and idempotent printing: there is no parser in the
  model. The printer also drops the schema separator, type names and WITH
  clauses, so the round trip does not hold for the code as written;
  `TableTextNotInjective` and `ColumnDefTextIgnoresTypeAndConstraints` show
  where.
- `fmt` formatting is modelled by string concatenation and `Join`. Error
  message wording is not modelled.
