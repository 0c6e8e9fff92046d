/**
 * The concrete syntax tree the grammar front end hands to the IR builder,
 * one datatype per grammar production. A child the grammar always supplies is
 * a plain field, an optional child an `Option`, a keyword token a `bool`
 * (present or not), and a repeated child a `seq` in source order.
 */
module Syntax {
  import opened Wrappers

  /** A leaf production (table, column, schema, alias or type name): its IDENTIFIER token's text. */
  datatype NameNode = NameNode(identifier: string)

  /** `expr`: a single IDENTIFIER. */
  datatype ExprNode = ExprNode(exprIdentifier: string)

  datatype ResultColumnNode = ResultColumnNode(
    starTableName: Option<NameNode>,  // the `table_name` child of `t.*`
    star: bool,
    expr: Option<ExprNode>,
    columnAlias: Option<NameNode>)

  datatype TableOrSubqueryNode = TableOrSubqueryNode(
    sourceSchema: Option<NameNode>,
    sourceTable: NameNode,
    sourceAlias: Option<NameNode>)

  datatype SelectNode = SelectNode(
    allKw: bool,
    distinctKw: bool,
    resultColumns: seq<ResultColumnNode>,
    sources: seq<TableOrSubqueryNode>)

  /** `column_constraint`: its contents are never looked at. */
  datatype ColumnConstraintNode = ColumnConstraintNode

  datatype ColumnDefNode = ColumnDefNode(
    defName: NameNode,
    defType: Option<NameNode>,
    constraints: seq<ColumnConstraintNode>)

  datatype CreateTableNode = CreateTableNode(
    temporaryKw: bool,
    ifKw: bool,
    createSchema: Option<NameNode>,
    createTable: NameNode,
    columnDefs: seq<ColumnDefNode>)

  /** `confilct_resolution_method`: which of its keywords is present, and the node's text. */
  datatype ConflictNode = ConflictNode(
    abortKw: bool,
    failKw: bool,
    ignoreKw: bool,
    replaceKw: bool,
    rollbackKw: bool,
    conflictText: string)

  datatype CteNode = CteNode(
    cteTable: NameNode,
    cteColumns: seq<NameNode>,
    notKw: bool,
    materializedKw: bool,
    cteSelect: SelectNode)

  datatype WithNode = WithNode(recursiveKw: bool, cteNodes: seq<CteNode>)

  datatype InsertNode = InsertNode(
    withClause: Option<WithNode>,
    insertKw: bool,
    replaceKw: bool,
    conflict: Option<ConflictNode>,
    insertSchema: Option<NameNode>,
    insertTable: NameNode,
    insertAlias: Option<NameNode>,
    columnNames: seq<NameNode>,
    valuesKw: bool,
    exprs: seq<ExprNode>,
    selectSource: Option<SelectNode>)

  /** `sql_stmt`: at most one statement child is expected, and the node's text. */
  datatype SqlStmtNode = SqlStmtNode(
    selectStmt: Option<SelectNode>,
    createTableStmt: Option<CreateTableNode>,
    insertStmt: Option<InsertNode>,
    stmtText: string)
}
