/**
 * The canonical printer of src/printers.cpp: IR back to SQL text. The text
 * of each IR value is a function; the printers the source writes with
 * vector-filling loops or `+=` are methods proved to produce that text.
 */
module Printer {
  import opened Wrappers
  import opened IR

  // --------------------------------------------------------------- join

  /** `fmt::join`: the parts in order, separated by `sep`; nothing for no parts. */
  function Join(parts: seq<string>, sep: string): string {
    if |parts| == 0 then ""
    else if |parts| == 1 then parts[0]
    else parts[0] + sep + Join(parts[1..], sep)
  }

  /** Joining two non-empty lists is joining each and separating the two results once. */
  lemma {:induction false} JoinConcat(xs: seq<string>, ys: seq<string>, sep: string)
    requires |xs| > 0 && |ys| > 0
    ensures Join(xs + ys, sep) == Join(xs, sep) + sep + Join(ys, sep)
  {
    if |xs| == 1 {
      assert (xs + ys)[1..] == ys;
    } else {
      assert (xs + ys)[1..] == xs[1..] + ys;
      JoinConcat(xs[1..], ys, sep);
    }
  }

  /** The joined text is as long as the parts plus one separator between each two. */
  lemma {:induction false} JoinLength(parts: seq<string>, sep: string)
    requires |parts| > 0
    ensures |Join(parts, sep)| == LengthSum(parts) + (|parts| - 1) * |sep|
  {
    if |parts| > 1 {
      JoinLength(parts[1..], sep);
    }
  }

  function LengthSum(parts: seq<string>): nat {
    if |parts| == 0 then 0 else |parts[0]| + LengthSum(parts[1..])
  }

  // ------------------------------------------------------------- leaves

  /** The keyword of each conflict-resolution method. */
  function ConflictMethodText(m: ConflictResolutionMethod): string {
    match m
    case Abort => "ABORT"
    case Fail => "FAIL"
    case Ignore => "IGNORE"
    case Replace => "REPLACE"
    case Rollback => "ROLLBACK"
  }

  /** Distinct methods print as distinct keywords, so the keyword identifies the method. */
  lemma ConflictMethodTextInjective(m1: ConflictResolutionMethod, m2: ConflictResolutionMethod)
    ensures ConflictMethodText(m1) == ConflictMethodText(m2) <==> m1 == m2
  {
    if m1 != m2 {
      assert ConflictMethodText(m1)[0] != ConflictMethodText(m2)[0] ||
        ConflictMethodText(m1)[1] != ConflictMethodText(m2)[1] ||
        |ConflictMethodText(m1)| != |ConflictMethodText(m2)|;
    }
  }

  function ExprText(e: Expr): string {
    e.name
  }

  /** A table: its schema name, if any, immediately followed by the table name, with no separator. */
  function TableText(t: Table): (r: string)
    ensures |r| >= |t.tableName| && r[|r| - |t.tableName|..] == t.tableName
    ensures t.schemaName.None? ==> r == t.tableName
    ensures t.schemaName.Some? ==>
      |r| == |t.schemaName.value| + |t.tableName| && r[..|t.schemaName.value|] == t.schemaName.value
  {
    (if t.schemaName.Some? then t.schemaName.value else "") + t.tableName
  }

  /** Two different tables can print alike: the printed table does not determine the table. */
  lemma TableTextNotInjective()
    ensures Table("bc", Some("a")) != Table("c", Some("ab"))
    ensures TableText(Table("bc", Some("a"))) == TableText(Table("c", Some("ab")))
  {
    assert TableText(Table("bc", Some("a"))) == "abc";
    assert TableText(Table("c", Some("ab"))) == "abc";
  }

  function ResultColumnText(rc: ResultColumn): string {
    match rc
    case StarColumn => "*"
    case TableStarColumn(t) => t + ".*"
    case ExprColumn(e, alias) => if alias.Some? then ExprText(e) + " AS " + alias.value else ExprText(e)
  }

  /** A table with its alias: the table text, then ` AS alias` when there is one. */
  function AliasedTableText(a: AliasedTable): string {
    if a.tableAlias.Some? then TableText(a.table) + " AS " + a.tableAlias.value else TableText(a.table)
  }

  function TableOrSubqueryText(ts: TableOrSubquery): string {
    AliasedTableText(ts.aliased)
  }

  // ------------------------------------------------------------- SELECT

  function ModifierText(m: SelectModifier): string {
    match m
    case All => "ALL "
    case Distinct => "DISTINCT "
    case NoModifier => ""
  }

  function ProjectionTexts(ps: seq<ResultColumn>): seq<string> {
    seq(|ps|, i requires 0 <= i < |ps| => ResultColumnText(ps[i]))
  }

  function SourceTexts(ss: seq<TableOrSubquery>): seq<string> {
    seq(|ss|, i requires 0 <= i < |ss| => TableOrSubqueryText(ss[i]))
  }

  /** `SELECT [ALL |DISTINCT ]p1, p2, ... FROM s1, s2, ...`, projections and sources in IR order. */
  function SelectText(s: SelectStmt): string {
    "SELECT " + ModifierText(s.modifier) + Join(ProjectionTexts(s.projections), ", ") +
      " FROM " + Join(SourceTexts(s.sources), ", ")
  }

  /**
   * Order is kept: splitting the projections at any point, the text of the
   * first part comes before the text of the rest, separated by one comma.
   */
  lemma SelectProjectionsInOrder(s: SelectStmt, k: nat)
    requires 0 < k < |s.projections|
    ensures Join(ProjectionTexts(s.projections), ", ") ==
      Join(ProjectionTexts(s.projections[..k]), ", ") + ", " + Join(ProjectionTexts(s.projections[k..]), ", ")
  {
    var ps := s.projections;
    assert ProjectionTexts(ps) == ProjectionTexts(ps[..k]) + ProjectionTexts(ps[k..]);
    JoinConcat(ProjectionTexts(ps[..k]), ProjectionTexts(ps[k..]), ", ");
  }

  /** The printing loops: fill one vector of texts per list, then format them. */
  method PrintSelect(s: SelectStmt) returns (text: string)
    ensures text == SelectText(s)
  {
    var projStrings: seq<string> := [];
    for i := 0 to |s.projections|
      invariant projStrings == ProjectionTexts(s.projections[..i])
    {
      projStrings := projStrings + [ResultColumnText(s.projections[i])];
    }
    var srcStrings: seq<string> := [];
    for i := 0 to |s.sources|
      invariant srcStrings == SourceTexts(s.sources[..i])
    {
      srcStrings := srcStrings + [TableOrSubqueryText(s.sources[i])];
    }
    assert s.projections[..|s.projections|] == s.projections;
    assert s.sources[..|s.sources|] == s.sources;
    text := "SELECT " + ModifierText(s.modifier) + Join(projStrings, ", ") + " FROM " + Join(srcStrings, ", ");
  }

  // ------------------------------------------------------- CREATE TABLE

  /** A column definition prints as its name only. */
  function ColumnDefText(d: ColumnDef): string {
    d.columnName
  }

  /** The type name and the constraints of a column definition never reach the text. */
  lemma ColumnDefTextIgnoresTypeAndConstraints(d: ColumnDef, typeName: Option<string>, cs: seq<ColumnConstraint>)
    ensures ColumnDefText(d.(typeName := typeName, columnConstraints := cs)) == ColumnDefText(d)
  {
  }

  function ColumnDefTexts(ds: seq<ColumnDef>): seq<string> {
    seq(|ds|, i requires 0 <= i < |ds| => ColumnDefText(ds[i]))
  }

  /** `CREATE TABLE[ TEMPORARY | ][IF NOT EXISTS ]table(c1, c2, ...)`; the options are not printed. */
  function CreateTableText(s: CreateTableStmt): string {
    "CREATE TABLE" + (if s.temporary then " TEMPORARY " else " ") +
      (if s.ifNotExists then "IF NOT EXISTS " else "") +
      TableText(s.createdTable) + "(" + Join(ColumnDefTexts(s.columnDefinitions), ", ") + ")"
  }

  method PrintCreateTable(s: CreateTableStmt) returns (text: string)
    ensures text == CreateTableText(s)
  {
    var isTemporaryStr := if s.temporary then " TEMPORARY " else " ";
    var ifNotExistsStr := if s.ifNotExists then "IF NOT EXISTS " else "";
    var tableStr := TableText(s.createdTable);
    var columnDefStrs: seq<string> := [];
    for i := 0 to |s.columnDefinitions|
      invariant columnDefStrs == ColumnDefTexts(s.columnDefinitions[..i])
    {
      columnDefStrs := columnDefStrs + [ColumnDefText(s.columnDefinitions[i])];
    }
    assert s.columnDefinitions[..|s.columnDefinitions|] == s.columnDefinitions;
    text := "CREATE TABLE" + isTemporaryStr + ifNotExistsStr + tableStr + "(" + Join(columnDefStrs, ", ") + ")";
  }

  // ------------------------------------------------------------- INSERT

  /** A WITH clause is not printed at all. */
  function WithClauseText(w: WithClause): string {
    ""
  }

  /** `REPLACE`, or `INSERT` followed by ` OR <method>` exactly when a method is present. */
  function OperationText(op: InsertStmtOp): string {
    match op
    case ReplaceContainer => "REPLACE"
    case InsertContainer(m) => if m.Some? then "INSERT" + (" OR " + ConflictMethodText(m.value)) else "INSERT"
  }

  /** ` (c1, c2, ...)` when the column list is present and not empty, otherwise nothing. */
  function ColumnListText(cols: Option<seq<ColumnName>>): string {
    if cols.Some? && |cols.value| > 0 then " (" + Join(cols.value, ", ") + ")" else ""
  }

  function ExprTexts(es: seq<Expr>): seq<string> {
    seq(|es|, i requires 0 <= i < |es| => ExprText(es[i]))
  }

  function TuplesText(t: InsertedTuples): string {
    match t
    case DefaultValues => "DEFAULT VALUES"
    case ValuesExpr(es) => "VALUES(" + Join(ExprTexts(es), ", ") + ")"
    case SelectTuples(s) => SelectText(s)
  }

  /** The text of an optional WITH clause. */
  function OptionalWithText(w: Option<WithClause>): string {
    if w.Some? then WithClauseText(w.value) else ""
  }

  /** `<with><operation> INTO <table>[ (cols)] <rows>`. */
  function InsertText(s: InsertStmt): string {
    OptionalWithText(s.withClause) + OperationText(s.operation) + (" INTO " + AliasedTableText(s.target)) +
      ColumnListText(s.columnNames) + " " + TuplesText(s.tuples)
  }

  /** The step-by-step INSERT printer: one `result += ...` per part. */
  method PrintInsert(s: InsertStmt) returns (result: string)
    ensures result == InsertText(s)
  {
    result := "";
    if s.withClause.Some? {
      result := result + WithClauseText(s.withClause.value);
    }
    assert result == OptionalWithText(s.withClause);
    var opStr: string;
    match s.operation {
      case ReplaceContainer =>
        opStr := "REPLACE";
      case InsertContainer(m) =>
        opStr := "INSERT";
        if m.Some? {
          opStr := opStr + (" OR " + ConflictMethodText(m.value));
        }
    }
    assert opStr == OperationText(s.operation);
    result := result + opStr;
    result := result + (" INTO " + AliasedTableText(s.target));
    if s.columnNames.Some? && |s.columnNames.value| > 0 {
      result := result + (" (" + Join(s.columnNames.value, ", ") + ")");
    } else {
      assert ColumnListText(s.columnNames) == "";
      result := result + "";
    }
    result := result + " ";
    var rowsStr: string;
    match s.tuples {
      case DefaultValues =>
        rowsStr := "DEFAULT VALUES";
      case ValuesExpr(es) =>
        var exprStrings: seq<string> := [];
        for i := 0 to |es|
          invariant exprStrings == ExprTexts(es[..i])
        {
          exprStrings := exprStrings + [ExprText(es[i])];
        }
        assert es[..|es|] == es;
        rowsStr := "VALUES(" + Join(exprStrings, ", ") + ")";
      case SelectTuples(select) =>
        rowsStr := PrintSelect(select);
    }
    assert rowsStr == TuplesText(s.tuples);
    result := result + rowsStr;
  }

  /** The printed INSERT does not depend on its WITH clause. */
  lemma InsertTextIgnoresWith(s: InsertStmt, w: Option<WithClause>)
    ensures InsertText(s.(withClause := w)) == InsertText(s)
  {
  }

  /** A present but empty column list prints exactly like an absent one. */
  lemma InsertTextEmptyColumnsAsAbsent(s: InsertStmt)
    ensures InsertText(s.(columnNames := Some([]))) == InsertText(s.(columnNames := None))
  {
  }

  lemma ThreePartSlices(a: string, b: string, c: string)
    ensures (a + b + c)[..|a|] == a
    ensures (a + b + c)[|a| + |b|..] == c
  {
  }

  /** The printed INSERT without its (empty) WITH text, grouped as operation, middle, rows. */
  lemma InsertTextParts(s: InsertStmt)
    ensures InsertText(s) ==
      (OperationText(s.operation) + " INTO ") +
      (AliasedTableText(s.target) + ColumnListText(s.columnNames) + " ") +
      TuplesText(s.tuples)
  {
    var op := OperationText(s.operation);
    var tbl := AliasedTableText(s.target);
    var cols := ColumnListText(s.columnNames);
    var rows := TuplesText(s.tuples);
    var w := OptionalWithText(s.withClause);
    assert InsertText(s) == w + op + (" INTO " + tbl) + cols + " " + rows;
    RegroupInsertParts(w, op, tbl, cols, rows);
  }

  lemma RegroupInsertParts(w: string, op: string, tbl: string, cols: string, rows: string)
    requires w == ""
    ensures w + op + (" INTO " + tbl) + cols + " " + rows == (op + " INTO ") + (tbl + cols + " ") + rows
  {
    assert w + op == op;
  }

  /** The printed INSERT starts with its operation and ` INTO `, and ends with its rows. */
  lemma InsertTextShape(s: InsertStmt)
    ensures var t := InsertText(s); var op := OperationText(s.operation); var rows := TuplesText(s.tuples);
      |t| >= |op| + 6 + |rows| && t[..|op| + 6] == op + " INTO " && t[|t| - |rows|..] == rows
  {
    InsertTextParts(s);
    ThreePartSlices(OperationText(s.operation) + " INTO ",
      AliasedTableText(s.target) + ColumnListText(s.columnNames) + " ", TuplesText(s.tuples));
  }

  lemma PrefixOfPrefix(t: string, head: string, k: nat)
    requires k <= |head| <= |t| && t[..|head|] == head
    ensures t[..k] == head[..k]
  {
  }

  /** The three ways an INSERT can begin. */
  lemma InsertTextOperation(s: InsertStmt)
    ensures s.operation.ReplaceContainer? ==> InsertText(s)[..12] == "REPLACE INTO"
    ensures s.operation == InsertContainer(None) ==> InsertText(s)[..11] == "INSERT INTO"
    ensures s.operation.InsertContainer? && s.operation.conflictMethod.Some? ==>
      var m := ConflictMethodText(s.operation.conflictMethod.value);
      InsertText(s)[..10 + |m|] == "INSERT OR " + m
  {
    InsertTextShape(s);
    var t := InsertText(s);
    var head := OperationText(s.operation) + " INTO ";
    match s.operation {
      case ReplaceContainer =>
        assert head == "REPLACE INTO ";
        PrefixOfPrefix(t, head, 12);
      case InsertContainer(None) =>
        assert head == "INSERT INTO ";
        PrefixOfPrefix(t, head, 11);
      case InsertContainer(Some(cm)) =>
        var m := ConflictMethodText(cm);
        assert head == "INSERT OR " + m + " INTO ";
        PrefixOfPrefix(t, head, 10 + |m|);
    }
  }

  // ---------------------------------------------------------- statement

  function StatementText(s: Statement): string {
    match s
    case Select(st) => SelectText(st)
    case CreateTable(st) => CreateTableText(st)
    case Insert(st) => InsertText(st)
  }

  /** Each statement is printed by the printer of its own kind. */
  method PrintStatement(s: Statement) returns (text: string)
    ensures text == StatementText(s)
  {
    match s {
      case Select(st) => text := PrintSelect(st);
      case CreateTable(st) => text := PrintCreateTable(st);
      case Insert(st) => text := PrintInsert(st);
    }
  }
}
