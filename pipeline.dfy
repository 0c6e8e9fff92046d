/**
 * Properties of the pipeline as a whole: what the printer and the lowering
 * produce for statements the builder has built, and concrete statements
 * taken through every stage.
 */
module Pipeline {
  import opened Wrappers
  import opened IR
  import opened Syntax
  import opened Builder
  import opened Printer
  import opened Bytecode

  function ExprIdentifiers(es: seq<ExprNode>): seq<string> {
    seq(|es|, i requires 0 <= i < |es| => es[i].exprIdentifier)
  }

  /** The VALUES list of a built INSERT prints the expression texts in the order the node gave them. */
  lemma BuiltValuesPrintInOrder(n: InsertNode)
    requires n.valuesKw && InsertOf(n).Success?
    ensures TuplesText(InsertOf(n).value.tuples) == "VALUES(" + Join(ExprIdentifiers(n.exprs), ", ") + ")"
  {
    var es := InsertOf(n).value.tuples.expressions;
    assert ExprTexts(es) == ExprIdentifiers(n.exprs);
  }

  /** A built INSERT prints ` (c1, ...)` with the column-name children in order, and nothing when there are none. */
  lemma BuiltColumnsPrinted(n: InsertNode)
    requires InsertOf(n).Success?
    ensures ColumnListText(InsertOf(n).value.columnNames) ==
      if |n.columnNames| == 0 then "" else " (" + Join(Identifiers(n.columnNames), ", ") + ")"
  {
  }

  /** The keyword of a conflict-resolution node, spelt as the printer spells it. */
  function ConflictKeyword(n: ConflictNode): Option<string> {
    if n.abortKw then Some("ABORT")
    else if n.failKw then Some("FAIL")
    else if n.ignoreKw then Some("IGNORE")
    else if n.replaceKw then Some("REPLACE")
    else if n.rollbackKw then Some("ROLLBACK")
    else None
  }

  /**
   * A built INSERT begins with `INSERT`, followed by ` OR ` and the node's
   * conflict keyword when it has one, or with `REPLACE` when the INSERT
   * keyword is absent; a conflict clause next to REPLACE leaves no trace.
   */
  lemma BuiltOperationPrinted(n: InsertNode)
    requires InsertOf(n).Success?
    ensures !n.insertKw ==> OperationText(InsertOf(n).value.operation) == "REPLACE"
    ensures n.insertKw && n.conflict.None? ==> OperationText(InsertOf(n).value.operation) == "INSERT"
    ensures n.insertKw && n.conflict.Some? ==>
      ConflictKeyword(n.conflict.value).Some? &&
      OperationText(InsertOf(n).value.operation) == "INSERT OR " + ConflictKeyword(n.conflict.value).value
  {
    if n.insertKw && n.conflict.Some? {
      var c := n.conflict.value;
      var m := ConflictMethodOf(c).value;
      assert InsertOf(n).value.operation == InsertContainer(Some(m));
      assert ConflictKeyword(c) == Some(ConflictMethodText(m));
    }
  }

  /**
   * A built result column prints back the tokens it came from: `*`, the
   * table name followed by `.*`, or the expression's identifier.
   */
  lemma BuiltResultColumnPrinted(n: ResultColumnNode)
    requires ResultColumnOf(n).Success?
    ensures n.starTableName.Some? ==> ResultColumnText(ResultColumnOf(n).value) == n.starTableName.value.identifier + ".*"
    ensures n.starTableName.None? && n.star ==> ResultColumnText(ResultColumnOf(n).value) == "*"
    ensures n.starTableName.None? && !n.star ==> ResultColumnText(ResultColumnOf(n).value) == n.expr.value.exprIdentifier
  {
  }

  /** A built SELECT source prints its schema and table names run together, then ` AS ` and its alias if any. */
  lemma BuiltSourcePrinted(n: TableOrSubqueryNode)
    ensures TableOrSubqueryText(TableOrSubqueryOf(n).value) ==
      (if n.sourceSchema.Some? then n.sourceSchema.value.identifier else "") + n.sourceTable.identifier +
      (if n.sourceAlias.Some? then " AS " + n.sourceAlias.value.identifier else "")
  {
  }

  /** Every result column of the node is a bare, unaliased expression. */
  ghost predicate PlainProjections(n: SelectNode) {
    forall i :: 0 <= i < |n.resultColumns| ==>
      var rc := n.resultColumns[i];
      rc.starTableName.None? && !rc.star && rc.expr.Some? && rc.columnAlias.None?
  }

  function ProjectionIdentifiers(n: SelectNode): seq<string>
    requires forall i :: 0 <= i < |n.resultColumns| ==> n.resultColumns[i].expr.Some?
  {
    seq(|n.resultColumns|, i requires 0 <= i < |n.resultColumns| => n.resultColumns[i].expr.value.exprIdentifier)
  }

  /** A SELECT of bare expressions builds, and prints its expressions in source order. */
  lemma BuiltPlainSelectPrinted(n: SelectNode)
    requires PlainProjections(n)
    ensures SelectOf(n).Success?
    ensures Join(ProjectionTexts(SelectOf(n).value.projections), ", ") == Join(ProjectionIdentifiers(n), ", ")
  {
    var s := SelectOf(n).value;
    assert ProjectionTexts(s.projections) == ProjectionIdentifiers(n);
  }

  /** A built CREATE TABLE prints the column names only, in order; the type names are lost. */
  lemma BuiltCreateTablePrinted(n: CreateTableNode)
    requires CreateTableOf(n).Success?
    ensures ColumnDefTexts(CreateTableOf(n).value.columnDefinitions) == Identifiers(seq(|n.columnDefs|, i requires 0 <= i < |n.columnDefs| => n.columnDefs[i].defName))
  {
  }

  /** The lowering of a built INSERT opens the table the node names and ignores everything else. */
  lemma BuiltInsertLowered(n: InsertNode, m: InsertNode)
    requires InsertOf(n).Success? && InsertOf(m).Success?
    ensures InsertProgram(InsertOf(n).value)[3].p3 == n.insertTable.identifier
    ensures InsertProgram(InsertOf(n).value) == InsertProgram(InsertOf(m).value) <==>
      n.insertTable.identifier == m.insertTable.identifier
  {
    InsertProgramDependsOnlyOnTableName(InsertOf(n).value, InsertOf(m).value);
  }

  // ------------------------------------------------------------ examples

  function Col(name: string): ResultColumnNode {
    ResultColumnNode(None, false, Some(ExprNode(name)), None)
  }

  function Src(name: string): TableOrSubqueryNode {
    TableOrSubqueryNode(None, NameNode(name), None)
  }

  /** `SELECT a, b FROM t1, t2` builds with no modifier and prints back exactly. */
  lemma ExampleSelect()
    ensures var n := SqlStmtNode(Some(SelectNode(false, false, [Col("a"), Col("b")], [Src("t1"), Src("t2")])), None, None, "");
      SqlStmtOf(n) == Success(Select(SelectStmt(NoModifier,
          [ExprColumn(Expr("a"), None), ExprColumn(Expr("b"), None)],
          [Named(AliasedTable(Table("t1", None), None)), Named(AliasedTable(Table("t2", None), None))]))) &&
        StatementText(SqlStmtOf(n).value) == "SELECT a, b FROM t1, t2"
  {
    var s := SelectStmt(NoModifier,
      [ExprColumn(Expr("a"), None), ExprColumn(Expr("b"), None)],
      [Named(AliasedTable(Table("t1", None), None)), Named(AliasedTable(Table("t2", None), None))]);
    var sel := SelectNode(false, false, [Col("a"), Col("b")], [Src("t1"), Src("t2")]);
    assert SelectOf(sel).value.projections == s.projections;
    assert SelectOf(sel).value.sources == s.sources;
    assert ProjectionTexts(s.projections) == ["a", "b"];
    assert SourceTexts(s.sources) == ["t1", "t2"];
  }

  /** `SELECT a, b AS x FROM t1, t2` does not build: the alias of `b` is never turned into its text. */
  lemma ExampleSelectWithAlias()
    ensures var b := ResultColumnNode(None, false, Some(ExprNode("b")), Some(NameNode("x")));
      SelectOf(SelectNode(false, false, [Col("a"), b], [Src("t1"), Src("t2")])) == Failure(BadAliasCast)
  {
    var b := ResultColumnNode(None, false, Some(ExprNode("b")), Some(NameNode("x")));
    assert ResultColumnOf(b) == Failure(BadAliasCast);
  }

  /** `CREATE TABLE IF NOT EXISTS s.t (a, b INTEGER)` keeps schema and type, and prints `...st(a, b)`. */
  lemma ExampleCreateTable()
    ensures var n := CreateTableNode(false, true, Some(NameNode("s")), NameNode("t"),
        [ColumnDefNode(NameNode("a"), None, []), ColumnDefNode(NameNode("b"), Some(NameNode("INTEGER")), [])]);
      CreateTableOf(n) == Success(CreateTableStmt(false, true, Table("t", Some("s")),
          [ColumnDef("a", None, []), ColumnDef("b", Some("INTEGER"), [])], [])) &&
        CreateTableText(CreateTableOf(n).value) == "CREATE TABLE IF NOT EXISTS st(a, b)"
  {
    var s := CreateTableStmt(false, true, Table("t", Some("s")),
      [ColumnDef("a", None, []), ColumnDef("b", Some("INTEGER"), [])], []);
    var n := CreateTableNode(false, true, Some(NameNode("s")), NameNode("t"),
      [ColumnDefNode(NameNode("a"), None, []), ColumnDefNode(NameNode("b"), Some(NameNode("INTEGER")), [])]);
    assert CreateTableOf(n).value.columnDefinitions == s.columnDefinitions;
    assert ColumnDefTexts(s.columnDefinitions) == ["a", "b"];
  }

  /** A column constraint anywhere makes CREATE TABLE fail. */
  lemma ExampleConstraintRejected()
    ensures var n := CreateTableNode(false, false, None, NameNode("t"),
        [ColumnDefNode(NameNode("a"), None, []), ColumnDefNode(NameNode("b"), None, [ColumnConstraintNode])]);
      CreateTableOf(n) == Failure(ColumnConstraintsNotImplemented)
  {
  }

  function InsertExample(insertKw: bool, replaceKw: bool, conflict: Option<ConflictNode>): InsertNode {
    InsertNode(None, insertKw, replaceKw, conflict, None, NameNode("t"), None, [], true, [ExprNode("a")], None)
  }

  /**
   * `INSERT INTO t VALUES(a)` has no conflict method and lowers to the ten
   * instructions opening `t`; `REPLACE OR IGNORE INTO t VALUES(a)` is not an
   * error: the IGNORE is dropped.
   */
  lemma ExampleInsert()
    ensures InsertOf(InsertExample(true, false, None)).value.operation == InsertContainer(None)
    ensures InsertText(InsertOf(InsertExample(true, false, None)).value) == "INSERT INTO t VALUES(a)"
    ensures InsertProgram(InsertOf(InsertExample(true, false, None)).value)[3] == Instruction(OpenWrite, 0, 0, "t")
    ensures InsertOf(InsertExample(false, true, Some(ConflictNode(false, false, true, false, false, "IGNORE")))).value.operation
      == ReplaceContainer
  {
    var s := InsertOf(InsertExample(true, false, None)).value;
    assert ExprTexts(s.tuples.expressions) == ["a"];
  }

  /** A statement node with none of the three statement children fails, quoting its text. */
  lemma ExampleInvalidStatement(text: string)
    ensures SqlStmtOf(SqlStmtNode(None, None, None, text)) == Failure(InvalidStatement(text))
  {
  }
}
