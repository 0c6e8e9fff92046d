/**
 * The IR builder of src/IR.cpp: one conversion per grammar production, from
 * a syntax node to an IR value or the error the conversion raises. The
 * conversions the source writes as one returned expression are functions;
 * those that fill local variables step by step are methods, each proved
 * equal to the function that specifies it.
 */
module Builder {
  import opened Wrappers
  import opened IR
  import opened Syntax

  // ------------------------------------------------------------- leaves

  /** The text of an optional leaf child. */
  function TextOf(n: Option<NameNode>): Option<string> {
    if n.Some? then Some(n.value.identifier) else None
  }

  /** The texts of a list of leaf children, in order. */
  function Identifiers(ns: seq<NameNode>): seq<string> {
    seq(|ns|, i requires 0 <= i < |ns| => ns[i].identifier)
  }

  /** `column_name`, `table_name`, ...: the IDENTIFIER text; cannot fail. */
  function NameOf(n: NameNode): Result<string, SqlError> {
    Success(n.identifier)
  }

  /** `expr`: an identifier reference; cannot fail. */
  function ExprOf(e: ExprNode): Result<Expr, SqlError> {
    Success(Expr(e.exprIdentifier))
  }

  /** Collecting leaf children never fails and keeps their texts in order. */
  lemma CollectNames(ns: seq<NameNode>)
    ensures Collect(NameOf, ns) == Success(Identifiers(ns))
  {
    assert Collect(NameOf, ns).value == Identifiers(ns);
  }

  // ------------------------------------------------------------- SELECT

  /**
   * A result column: `t.*` when a table name is present, else `*` when STAR
   * is, else an expression. The alias child is cast without being visited,
   * which throws, so only an unaliased expression column can be built.
   */
  function ResultColumnOf(n: ResultColumnNode): (r: Result<ResultColumn, SqlError>)
    ensures r.Success? && r.value.TableStarColumn? <==> n.starTableName.Some?
    ensures n.starTableName.Some? ==> r.value.starTable == n.starTableName.value.identifier
    ensures r.Success? && r.value.StarColumn? <==> n.starTableName.None? && n.star
    ensures r.Success? && r.value.ExprColumn? <==>
      n.starTableName.None? && !n.star && n.expr.Some? && n.columnAlias.None?
    ensures r.Success? && r.value.ExprColumn? ==>
      r.value.expr.name == n.expr.value.exprIdentifier && r.value.alias.None?
    ensures r.Failure? && n.expr.Some? ==> r.error == BadAliasCast
    ensures r.Failure? && n.expr.None? ==> r.error == InvalidResultColumn
  {
    if n.starTableName.Some? then Success(TableStarColumn(n.starTableName.value.identifier))
    else if n.star then Success(StarColumn)
    else if n.expr.Some? then
      if n.columnAlias.Some? then Failure(BadAliasCast)
      else Success(ExprColumn(Expr(n.expr.value.exprIdentifier), None))
    else Failure(InvalidResultColumn)
  }

  /** A SELECT source: the named table with its optional schema and alias; cannot fail. */
  function TableOrSubqueryOf(n: TableOrSubqueryNode): (r: Result<TableOrSubquery, SqlError>)
    ensures r.Success?
    ensures r.value.aliased.table.tableName == n.sourceTable.identifier
    ensures r.value.aliased.table.schemaName == TextOf(n.sourceSchema)
    ensures r.value.aliased.tableAlias == TextOf(n.sourceAlias)
  {
    Success(Named(AliasedTable(Table(n.sourceTable.identifier, TextOf(n.sourceSchema)), TextOf(n.sourceAlias))))
  }

  /** The step-by-step form: start unqualified and unaliased, then fill in what is present. */
  method VisitTableOrSubquery(n: TableOrSubqueryNode) returns (t: TableOrSubquery)
    ensures Success(t) == TableOrSubqueryOf(n)
  {
    var source := AliasedTable(Table(n.sourceTable.identifier, None), None);
    if n.sourceSchema.Some? {
      source := source.(table := source.table.(schemaName := Some(n.sourceSchema.value.identifier)));
    }
    if n.sourceAlias.Some? {
      source := source.(tableAlias := Some(n.sourceAlias.value.identifier));
    }
    t := Named(source);
  }

  /** The SELECT modifier: ALL wins over DISTINCT; with neither keyword there is none. */
  function ModifierOf(n: SelectNode): (m: SelectModifier)
    ensures m == All <==> n.allKw
    ensures m == Distinct <==> !n.allKw && n.distinctKw
    ensures m == NoModifier <==> !n.allKw && !n.distinctKw
  {
    if n.allKw then All else if n.distinctKw then Distinct else NoModifier
  }

  /**
   * A SELECT: its projections and sources are the conversions of its
   * children, one for one and in order; the first result column that cannot
   * be built makes the whole SELECT fail with that column's error.
   */
  function SelectOf(n: SelectNode): (r: Result<SelectStmt, SqlError>)
    ensures r.Success? <==> forall i :: 0 <= i < |n.resultColumns| ==> ResultColumnOf(n.resultColumns[i]).Success?
    ensures r.Success? ==> r.value.modifier == ModifierOf(n)
    ensures r.Success? ==>
      |r.value.projections| == |n.resultColumns| &&
      forall i :: 0 <= i < |n.resultColumns| ==> r.value.projections[i] == ResultColumnOf(n.resultColumns[i]).value
    ensures r.Success? ==>
      |r.value.sources| == |n.sources| &&
      forall i :: 0 <= i < |n.sources| ==> r.value.sources[i] == TableOrSubqueryOf(n.sources[i]).value
    ensures r.Failure? ==>
      exists k :: 0 <= k < |n.resultColumns| && ResultColumnOf(n.resultColumns[k]) == Failure(r.error) &&
        forall j :: 0 <= j < k ==> ResultColumnOf(n.resultColumns[j]).Success?
  {
    var projections :- Collect(ResultColumnOf, n.resultColumns);
    var sources := Collect(TableOrSubqueryOf, n.sources).value;
    Success(SelectStmt(ModifierOf(n), projections, sources))
  }

  // ------------------------------------------------------- CREATE TABLE

  /** A column constraint is not supported: building one always fails. */
  function ConstraintOf(c: ColumnConstraintNode): Result<ColumnConstraint, SqlError> {
    Failure(ColumnConstraintsNotImplemented)
  }

  /** A column definition: its name and type text; any constraint child makes it fail. */
  function ColumnDefOf(n: ColumnDefNode): (r: Result<ColumnDef, SqlError>)
    ensures r.Success? <==> |n.constraints| == 0
    ensures r.Failure? ==> r.error == ColumnConstraintsNotImplemented
    ensures r.Success? ==> r.value == ColumnDef(n.defName.identifier, TextOf(n.defType), [])
  {
    var typeName := TextOf(n.defType);
    var constraints :- Collect(ConstraintOf, n.constraints);
    Success(ColumnDef(n.defName.identifier, typeName, constraints))
  }

  /** The step-by-step form: the type name is filled in only when its child is present. */
  method VisitColumnDef(n: ColumnDefNode) returns (r: Result<ColumnDef, SqlError>)
    ensures r == ColumnDefOf(n)
  {
    var typeName: Option<string> := None;
    if n.defType.Some? {
      typeName := Some(n.defType.value.identifier);
    }
    var constraints :- CollectLoop(ConstraintOf, n.constraints);
    r := Success(ColumnDef(n.defName.identifier, typeName, constraints));
  }

  /** No column definition carries a constraint child. */
  ghost predicate NoConstraints(defs: seq<ColumnDefNode>) {
    forall i :: 0 <= i < |defs| ==> |defs[i].constraints| == 0
  }

  /**
   * CREATE TABLE: the two flags are the presence of TEMPORARY and IF, the
   * options are always empty, and the columns are the definitions in order;
   * a single constraint anywhere makes the whole statement fail.
   */
  function CreateTableOf(n: CreateTableNode): (r: Result<CreateTableStmt, SqlError>)
    ensures r.Success? <==> NoConstraints(n.columnDefs)
    ensures r.Failure? ==> r.error == ColumnConstraintsNotImplemented
    ensures r.Success? ==>
      r.value.temporary == n.temporaryKw && r.value.ifNotExists == n.ifKw &&
      r.value.createdTable == Table(n.createTable.identifier, TextOf(n.createSchema)) &&
      r.value.tableOptions == []
    ensures r.Success? ==>
      |r.value.columnDefinitions| == |n.columnDefs| &&
      forall i :: 0 <= i < |n.columnDefs| ==>
        r.value.columnDefinitions[i] == ColumnDef(n.columnDefs[i].defName.identifier, TextOf(n.columnDefs[i].defType), [])
  {
    var table := Table(n.createTable.identifier, TextOf(n.createSchema));
    var columns :- Collect(ColumnDefOf, n.columnDefs);
    Success(CreateTableStmt(n.temporaryKw, n.ifKw, table, columns, []))
  }

  /** The step-by-step form of CREATE TABLE. */
  method VisitCreateTableStmt(n: CreateTableNode) returns (r: Result<CreateTableStmt, SqlError>)
    ensures r == CreateTableOf(n)
  {
    var schemaName: Option<string> := None;
    if n.createSchema.Some? {
      schemaName := Some(n.createSchema.value.identifier);
    }
    var table := Table(n.createTable.identifier, schemaName);
    var columns :- CollectLoop(ColumnDefOf, n.columnDefs);
    r := Success(CreateTableStmt(n.temporaryKw, n.ifKw, table, columns, []));
  }

  // ------------------------------------------------------------ INSERT

  /** Whether the keyword of method `m` is present on a conflict-resolution node. */
  predicate HasKeyword(n: ConflictNode, m: ConflictResolutionMethod) {
    match m
    case Abort => n.abortKw
    case Fail => n.failKw
    case Ignore => n.ignoreKw
    case Replace => n.replaceKw
    case Rollback => n.rollbackKw
  }

  /**
   * The conflict-resolution method named by the node's keyword, checked in the
   * order ABORT, FAIL, IGNORE, REPLACE, ROLLBACK; with none of them the
   * conversion fails quoting the node's text.
   */
  function ConflictMethodOf(n: ConflictNode): (r: Result<ConflictResolutionMethod, SqlError>)
    ensures r.Success? <==> n.abortKw || n.failKw || n.ignoreKw || n.replaceKw || n.rollbackKw
    ensures r.Success? ==> HasKeyword(n, r.value)
    ensures r.Failure? ==> r.error == UnknownResolutionMethod(n.conflictText)
  {
    if n.abortKw then Success(Abort)
    else if n.failKw then Success(Fail)
    else if n.ignoreKw then Success(Ignore)
    else if n.replaceKw then Success(Replace)
    else if n.rollbackKw then Success(Rollback)
    else Failure(UnknownResolutionMethod(n.conflictText))
  }

  /** A node carrying exactly the keyword of `m` converts to `m`: the mapping is one-to-one. */
  lemma ConflictMethodOneToOne(n: ConflictNode, m: ConflictResolutionMethod)
    requires forall m' :: HasKeyword(n, m') <==> m' == m
    ensures ConflictMethodOf(n) == Success(m)
  {
    assert HasKeyword(n, m);
    assert HasKeyword(n, ConflictMethodOf(n).value);
  }

  /** A common table expression: NOT wins over MATERIALIZED; its body is the converted SELECT. */
  function CteOf(n: CteNode): (r: Result<CommonTableExpression, SqlError>)
    ensures r.Success? <==> SelectOf(n.cteSelect).Success?
    ensures r.Failure? ==> r.error == SelectOf(n.cteSelect).error
    ensures r.Success? ==>
      r.value.cteName == n.cteTable.identifier && r.value.cteColumns == Identifiers(n.cteColumns) &&
      r.value.body == SelectOf(n.cteSelect).value
    ensures r.Success? ==>
      (r.value.materialized == NotMaterialized <==> n.notKw) &&
      (r.value.materialized == Materialized <==> !n.notKw && n.materializedKw)
  {
    var specifier :=
      if n.notKw then NotMaterialized
      else if n.materializedKw then Materialized
      else Unspecified;
    var columns := Collect(NameOf, n.cteColumns).value;
    var body :- SelectOf(n.cteSelect);
    CollectNames(n.cteColumns);
    Success(CommonTableExpression(n.cteTable.identifier, columns, specifier, body))
  }

  /** A WITH clause: the RECURSIVE flag and its CTEs in order; the first CTE that fails aborts it. */
  function WithClauseOf(n: WithNode): (r: Result<WithClause, SqlError>)
    ensures r.Success? <==> forall i :: 0 <= i < |n.cteNodes| ==> CteOf(n.cteNodes[i]).Success?
    ensures r.Success? ==>
      r.value.recursive == n.recursiveKw && |r.value.ctes| == |n.cteNodes| &&
      forall i :: 0 <= i < |n.cteNodes| ==> r.value.ctes[i] == CteOf(n.cteNodes[i]).value
    ensures r.Failure? ==>
      exists k :: 0 <= k < |n.cteNodes| && CteOf(n.cteNodes[k]) == Failure(r.error) &&
        forall j :: 0 <= j < k ==> CteOf(n.cteNodes[j]).Success?
  {
    var ctes :- Collect(CteOf, n.cteNodes);
    Success(WithClause(n.recursiveKw, ctes))
  }

  /** The optional WITH clause of an INSERT. */
  function OptionalWithOf(w: Option<WithNode>): Result<Option<WithClause>, SqlError> {
    if w.Some? then
      var clause :- WithClauseOf(w.value);
      Success(Some(clause))
    else Success(None)
  }

  /**
   * The INSERT operation: the INSERT keyword gives an InsertContainer whose
   * method is present exactly when the conflict sub-clause is; otherwise the
   * operation is a ReplaceContainer, whether the REPLACE keyword set it or it
   * kept its default. A conflict clause next to REPLACE is not looked at.
   */
  function OperationOf(n: InsertNode): (r: Result<InsertStmtOp, SqlError>)
    ensures r.Failure? <==> n.insertKw && n.conflict.Some? && ConflictMethodOf(n.conflict.value).Failure?
    ensures r.Failure? ==> r == Failure(ConflictMethodOf(n.conflict.value).error)
    ensures r.Success? ==> (r.value.InsertContainer? <==> n.insertKw)
    ensures r.Success? && r.value.InsertContainer? ==>
      (r.value.conflictMethod.Some? <==> n.conflict.Some?) &&
      (n.conflict.Some? ==> ConflictMethodOf(n.conflict.value) == Success(r.value.conflictMethod.value))
  {
    if n.insertKw then
      if n.conflict.Some? then
        var m :- ConflictMethodOf(n.conflict.value);
        Success(InsertContainer(Some(m)))
      else Success(InsertContainer(None))
    else if n.replaceKw then Success(ReplaceContainer)
    else Success(DefaultInsertStmtOp)
  }

  /**
   * The rows of an INSERT, by priority: VALUES gives the expressions in
   * child order, else a nested SELECT gives that SELECT, else DEFAULT VALUES.
   */
  function TuplesOf(n: InsertNode): (r: Result<InsertedTuples, SqlError>)
    ensures r.Failure? <==> !n.valuesKw && n.selectSource.Some? && SelectOf(n.selectSource.value).Failure?
    ensures r.Failure? ==> r.error == SelectOf(n.selectSource.value).error
    ensures r.Success? && n.valuesKw ==>
      r.value.ValuesExpr? && |r.value.expressions| == |n.exprs| &&
      forall i :: 0 <= i < |n.exprs| ==> r.value.expressions[i] == Expr(n.exprs[i].exprIdentifier)
    ensures r.Success? && !n.valuesKw && n.selectSource.Some? ==>
      r.value == SelectTuples(SelectOf(n.selectSource.value).value)
    ensures r.Success? && !n.valuesKw && n.selectSource.None? ==> r.value == DefaultValues
  {
    if n.valuesKw then
      var expressions := Collect(ExprOf, n.exprs).value;
      Success(ValuesExpr(expressions))
    else if n.selectSource.Some? then
      var select :- SelectOf(n.selectSource.value);
      Success(SelectTuples(select))
    else Success(DefaultValues)
  }

  /**
   * An INSERT statement. Its parts are converted in the order WITH clause,
   * operation, target table, rows, column names, so the first of them to fail
   * decides the error. The column-name list is always present, possibly
   * empty, and holds the column-name children in order.
   */
  function InsertOf(n: InsertNode): (r: Result<InsertStmt, SqlError>)
    ensures r.Success? <==> OptionalWithOf(n.withClause).Success? && OperationOf(n).Success? && TuplesOf(n).Success?
    ensures OptionalWithOf(n.withClause).Failure? ==> r == Failure(OptionalWithOf(n.withClause).error)
    ensures OptionalWithOf(n.withClause).Success? && OperationOf(n).Failure? ==> r == Failure(OperationOf(n).error)
    ensures OptionalWithOf(n.withClause).Success? && OperationOf(n).Success? && TuplesOf(n).Failure? ==>
      r == Failure(TuplesOf(n).error)
    ensures r.Success? ==>
      r.value.withClause == OptionalWithOf(n.withClause).value &&
      (r.value.withClause.Some? <==> n.withClause.Some?) &&
      r.value.operation == OperationOf(n).value &&
      r.value.tuples == TuplesOf(n).value
    ensures r.Success? ==>
      r.value.target == AliasedTable(Table(n.insertTable.identifier, TextOf(n.insertSchema)), TextOf(n.insertAlias))
    ensures r.Success? ==> r.value.columnNames == Some(Identifiers(n.columnNames))
  {
    var withClause :- OptionalWithOf(n.withClause);
    var operation :- OperationOf(n);
    var target := AliasedTable(Table(n.insertTable.identifier, TextOf(n.insertSchema)), TextOf(n.insertAlias));
    var tuples :- TuplesOf(n);
    var columns := Collect(NameOf, n.columnNames).value;
    CollectNames(n.columnNames);
    Success(InsertStmt(withClause, operation, target, Some(columns), tuples))
  }

  /**
   * The step-by-step form of INSERT: each local starts at its default
   * (no WITH clause, the default operation, DEFAULT VALUES) and is
   * overwritten when the corresponding child or keyword is present.
   */
  method VisitInsertStmt(n: InsertNode) returns (r: Result<InsertStmt, SqlError>)
    ensures r == InsertOf(n)
  {
    var withClause: Option<WithClause> := None;
    if n.withClause.Some? {
      var clause :- WithClauseOf(n.withClause.value);
      withClause := Some(clause);
    }

    var operation := DefaultInsertStmtOp;
    if n.insertKw {
      operation := InsertContainer(None);
      if n.conflict.Some? {
        var m :- ConflictMethodOf(n.conflict.value);
        operation := InsertContainer(Some(m));
      }
    } else if n.replaceKw {
      operation := ReplaceContainer;
    }

    var schemaName: Option<string> := None;
    if n.insertSchema.Some? {
      schemaName := Some(n.insertSchema.value.identifier);
    }
    var alias: Option<string> := None;
    if n.insertAlias.Some? {
      alias := Some(n.insertAlias.value.identifier);
    }
    var target := AliasedTable(Table(n.insertTable.identifier, schemaName), alias);

    var tuples := DefaultValues;
    if n.valuesKw {
      var expressions := CollectLoop(ExprOf, n.exprs);
      tuples := ValuesExpr(expressions.value);
    } else if n.selectSource.Some? {
      var select :- SelectOf(n.selectSource.value);
      tuples := SelectTuples(select);
    }

    var columns := CollectLoop(NameOf, n.columnNames);
    r := Success(InsertStmt(withClause, operation, target, Some(columns.value), tuples));
  }

  // --------------------------------------------------------- statement

  /**
   * Statement dispatch: the SELECT child is used if present, else the
   * CREATE TABLE child, else the INSERT child; a node with none of them fails
   * quoting its text.
   */
  function SqlStmtOf(n: SqlStmtNode): (r: Result<Statement, SqlError>)
    ensures n.selectStmt.Some? ==>
      (r.Success? <==> SelectOf(n.selectStmt.value).Success?) &&
      (r.Success? ==> r.value == Select(SelectOf(n.selectStmt.value).value)) &&
      (r.Failure? ==> r.error == SelectOf(n.selectStmt.value).error)
    ensures n.selectStmt.None? && n.createTableStmt.Some? ==>
      (r.Success? <==> CreateTableOf(n.createTableStmt.value).Success?) &&
      (r.Success? ==> r.value == CreateTable(CreateTableOf(n.createTableStmt.value).value)) &&
      (r.Failure? ==> r.error == CreateTableOf(n.createTableStmt.value).error)
    ensures n.selectStmt.None? && n.createTableStmt.None? && n.insertStmt.Some? ==>
      (r.Success? <==> InsertOf(n.insertStmt.value).Success?) &&
      (r.Success? ==> r.value == Insert(InsertOf(n.insertStmt.value).value)) &&
      (r.Failure? ==> r.error == InsertOf(n.insertStmt.value).error)
    ensures n.selectStmt.None? && n.createTableStmt.None? && n.insertStmt.None? ==>
      r == Failure(InvalidStatement(n.stmtText))
  {
    if n.selectStmt.Some? then
      var s :- SelectOf(n.selectStmt.value);
      Success(Select(s))
    else if n.createTableStmt.Some? then
      var c :- CreateTableOf(n.createTableStmt.value);
      Success(CreateTable(c))
    else if n.insertStmt.Some? then
      var i :- InsertOf(n.insertStmt.value);
      Success(Insert(i))
    else Failure(InvalidStatement(n.stmtText))
  }
}
