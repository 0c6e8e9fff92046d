/**
 * The typed intermediate representation of one SQL statement (src/IR.hpp),
 * the errors a conversion can raise, and the `collect` helper that converts a
 * list of syntax children one by one.
 */
module IR {
  import opened Wrappers

  // ---------------------------------------------------------------- SELECT

  datatype SelectModifier = NoModifier | Distinct | All

  type ColumnName = string
  type TableName = string

  /** An expression is, for now, a bare identifier. */
  datatype Expr = Expr(name: string)

  /** `*`, `t.*`, or an expression with an optional alias; only the last can carry an alias. */
  datatype ResultColumn =
    | StarColumn
    | TableStarColumn(starTable: TableName)
    | ExprColumn(expr: Expr, alias: Option<string>)

  datatype Table = Table(tableName: TableName, schemaName: Option<string>)

  datatype AliasedTable = AliasedTable(table: Table, tableAlias: Option<string>)

  /** A source of a SELECT; the only alternative is a named (possibly aliased) table. */
  datatype TableOrSubquery = Named(aliased: AliasedTable)

  datatype SelectStmt = SelectStmt(
    modifier: SelectModifier,
    projections: seq<ResultColumn>,
    sources: seq<TableOrSubquery>)

  // ---------------------------------------------------------- CREATE TABLE

  datatype ConflictResolutionMethod = Abort | Fail | Ignore | Replace | Rollback

  /** Placeholder: no constraint can be built yet. */
  datatype ColumnConstraint = ColumnConstraint

  datatype ColumnDef = ColumnDef(
    columnName: ColumnName,
    typeName: Option<string>,
    columnConstraints: seq<ColumnConstraint>)

  datatype TableOption = WithoutRowid | Strict

  datatype CreateTableStmt = CreateTableStmt(
    temporary: bool,
    ifNotExists: bool,
    createdTable: Table,
    columnDefinitions: seq<ColumnDef>,
    tableOptions: seq<TableOption>)

  // ---------------------------------------------------------------- INSERT

  datatype MaterializedSpecifier = Materialized | NotMaterialized | Unspecified

  datatype CommonTableExpression = CommonTableExpression(
    cteName: TableName,
    cteColumns: seq<ColumnName>,
    materialized: MaterializedSpecifier,
    body: SelectStmt)

  datatype WithClause = WithClause(recursive: bool, ctes: seq<CommonTableExpression>)

  /** REPLACE, or INSERT with an optional conflict-resolution method; REPLACE has no fields. */
  datatype InsertStmtOp =
    | ReplaceContainer
    | InsertContainer(conflictMethod: Option<ConflictResolutionMethod>)

  /** A default-constructed operation is the first alternative of the variant. */
  const DefaultInsertStmtOp: InsertStmtOp := ReplaceContainer

  /** Exactly one source of rows: a list of expressions, a SELECT, or DEFAULT VALUES. */
  datatype InsertedTuples =
    | ValuesExpr(expressions: seq<Expr>)
    | SelectTuples(select: SelectStmt)
    | DefaultValues

  datatype InsertStmt = InsertStmt(
    withClause: Option<WithClause>,
    operation: InsertStmtOp,
    target: AliasedTable,
    columnNames: Option<seq<ColumnName>>,
    tuples: InsertedTuples)

  datatype Statement =
    | Select(selectStmt: SelectStmt)
    | CreateTable(createStmt: CreateTableStmt)
    | Insert(insertStmt: InsertStmt)

  // ---------------------------------------------------------------- errors

  /**
   * What a failed conversion raises. All but the last are `SqlError`s thrown
   * through `fail`; the message text is not modelled, only the kind and the
   * offending source text where the message quotes it.
   */
  datatype SqlError =
    | InvalidStatement(statementText: string)
    | ColumnConstraintsNotImplemented
    | InvalidResultColumn
    | UnknownResolutionMethod(methodText: string)
    | BadAliasCast  // std::bad_any_cast on the alias path of a result column

  // --------------------------------------------------------------- collect

  /** Every element of `xs` converts without error. */
  ghost predicate AllSucceed<U, T, E>(f: U -> Result<T, E>, xs: seq<U>) {
    forall i :: 0 <= i < |xs| ==> f(xs[i]).Success?
  }

  /**
   * Converts each child in order; the first failing child's error aborts the
   * whole conversion, and no partial list is returned.
   */
  function Collect<U, T, E>(f: U -> Result<T, E>, xs: seq<U>): (r: Result<seq<T>, E>)
    ensures r.Success? <==> AllSucceed(f, xs)
    ensures r.Success? ==> |r.value| == |xs| && forall i :: 0 <= i < |xs| ==> r.value[i] == f(xs[i]).value
    ensures r.Failure? ==>
      exists k :: 0 <= k < |xs| && f(xs[k]) == Failure(r.error) && forall j :: 0 <= j < k ==> f(xs[j]).Success?
  {
    if xs == [] then Success([])
    else
      var head :- f(xs[0]);
      var tail :- Collect(f, xs[1..]);
      Success([head] + tail)
  }

  /** When the first `k` children convert and child `k` fails, `Collect` reports child `k`'s error. */
  lemma CollectFirstFailure<U, T, E>(f: U -> Result<T, E>, xs: seq<U>, k: nat)
    requires k < |xs| && f(xs[k]).Failure?
    requires forall j :: 0 <= j < k ==> f(xs[j]).Success?
    ensures Collect(f, xs) == Failure(f(xs[k]).error)
  {
  }

  /** The loop of `collect`: reserve a vector, then append each converted child in turn. */
  method CollectLoop<U, T, E>(f: U -> Result<T, E>, xs: seq<U>) returns (r: Result<seq<T>, E>)
    ensures r == Collect(f, xs)
  {
    var vec: seq<T> := [];
    var i := 0;
    while i < |xs|
      invariant 0 <= i <= |xs|
      invariant |vec| == i
      invariant forall j :: 0 <= j < i ==> f(xs[j]).Success? && vec[j] == f(xs[j]).value
    {
      var converted := f(xs[i]);
      if converted.Failure? {
        CollectFirstFailure(f, xs, i);
        return Failure(converted.error);
      }
      vec := vec + [converted.value];
      i := i + 1;
    }
    var whole := Collect(f, xs);
    assert whole.value == vec;
    r := Success(vec);
  }
}
