/**
 * The SQLite migration SQL generator: its handlers append to a batch builder,
 * the CreateTable handler rewrites the operation object in place before
 * handing it to the base generator, and the refused operations fail before
 * anything is appended.
 */
module SqliteMigrations {
  import opened Wrappers
  import opened Operations
  import opened SqlText
  import opened SqlBatchBuilding
  import opened SqliteSql

  /** A CreateTable operation object, whose columns and primary key the SQLite handler updates. */
  class CreateTableOperation {
    var name: string
    var columns: seq<ColumnDef>
    var primaryKey: Option<PrimaryKeyDef>
    var constraints: TableConstraints

    constructor (definition: TableDef)
      ensures Value() == definition
    {
      name := definition.name;
      columns := definition.columns;
      primaryKey := definition.primaryKey;
      constraints := definition.constraints;
    }

    /** The operation's current fields as a value. */
    function Value(): TableDef
      reads this
    {
      TableDef(name, columns, primaryKey, constraints)
    }
  }

  class SqliteMigrationSqlGenerator {
    /** The identifier quoting service (`ISqlGenerator.DelimitIdentifier`). */
    const delimit: string -> string
    /** The optional operation transformer run before generation (`null` = `None`). */
    const transformer: Option<(seq<Operation>, Option<Model>) -> seq<Operation>>
    /** The base generator's list-level `Generate`, which dispatches and seals batches. */
    const baseGenerate: (seq<Operation>, Option<Model>) -> Result<seq<SqlBatch>, GenerationError>
    /** The base generator's per-operation handlers, for the kinds SQLite does not override; they may consult the model. */
    const baseSql: (Operation, Option<Model>) -> string

    constructor (
      delimit: string -> string,
      transformer: Option<(seq<Operation>, Option<Model>) -> seq<Operation>>,
      baseGenerate: (seq<Operation>, Option<Model>) -> Result<seq<SqlBatch>, GenerationError>,
      baseSql: (Operation, Option<Model>) -> string)
      ensures this.delimit == delimit && this.transformer == transformer
      ensures this.baseGenerate == baseGenerate && this.baseSql == baseSql
    {
      this.delimit := delimit;
      this.transformer := transformer;
      this.baseGenerate := baseGenerate;
      this.baseSql := baseSql;
    }

    /**
     * Generation of a whole operation list: a null list is rejected, then the
     * transformer (when there is one) replaces the list, and the base
     * generator receives the result.
     */
    function Generate(operations: Option<seq<Operation>>, model: Option<Model>): (r: Result<seq<SqlBatch>, GenerationError>)
      ensures operations.None? ==> r == Failure(ArgumentNull("operations"))
      ensures operations.Some? && transformer.None? ==> r == baseGenerate(operations.value, model)
      ensures operations.Some? && transformer.Some? ==>
        r == baseGenerate(transformer.value(operations.value, model), model)
    {
      match operations
      case None => Failure(ArgumentNull("operations"))
      case Some(ops) =>
        var input := if transformer.Some? then transformer.value(ops, model) else ops;
        baseGenerate(input, model)
    }

    /** DROP INDEX with the delimited index name and no table qualifier. */
    method GenerateDropIndex(operation: Operation, builder: SqlBatchBuilder)
      requires operation.DropIndex?
      modifies builder
      ensures builder.fragments == old(builder.fragments) + ["DROP INDEX ", delimit(operation.name)]
      ensures builder.fragments == old(builder.fragments) + DropIndexFragments(delimit, operation.name)
      ensures builder.Text() == old(builder.Text()) + "DROP INDEX " + delimit(operation.name)
    {
      ghost var before := builder.fragments;
      builder.Append("DROP INDEX ");
      builder.Append(delimit(operation.name));
      ConcatAppend(before, DropIndexFragments(delimit, operation.name));
      DropIndexStatement(delimit, operation.name);
    }

    /** ALTER TABLE … RENAME TO …, or nothing when the new name is null. */
    method GenerateRenameTable(operation: Operation, builder: SqlBatchBuilder)
      requires operation.RenameTable?
      modifies builder
      ensures operation.newName.None? ==> builder.fragments == old(builder.fragments)
      ensures operation.newName.Some? ==>
        builder.fragments == old(builder.fragments)
          + ["ALTER TABLE ", delimit(operation.name), " RENAME TO ", delimit(operation.newName.value)]
      ensures builder.fragments == old(builder.fragments) + RenameTableFragments(delimit, operation.name, operation.newName)
      ensures operation.newName.Some? ==>
        builder.Text() == old(builder.Text())
          + "ALTER TABLE " + delimit(operation.name) + " RENAME TO " + delimit(operation.newName.value)
    {
      ghost var before := builder.fragments;
      if operation.newName.Some? {
        builder.Append("ALTER TABLE ");
        builder.Append(delimit(operation.name));
        builder.Append(" RENAME TO ");
        builder.Append(delimit(operation.newName.value));
        ConcatAppend(before, RenameTableFragments(delimit, operation.name, operation.newName));
        RenameTableStatement(delimit, operation.name, operation.newName);
      }
    }

    /**
     * The row copy of a table rebuild: INSERT INTO the new table SELECT from
     * the old one, over the same column list; nothing for an empty column
     * array. A null array is not handled by the source (it fails inside the
     * column-list projection), hence the requirement.
     */
    method GenerateMoveData(operation: Operation, builder: SqlBatchBuilder)
      requires operation.MoveData? && operation.columns.Some?
      modifies builder
      ensures |operation.columns.value| == 0 ==> builder.fragments == old(builder.fragments)
      ensures builder.fragments == old(builder.fragments)
        + MoveDataFragments(delimit, operation.oldTable, operation.newTable, operation.columns.value)
      ensures |operation.columns.value| > 0 ==>
        builder.Text() == old(builder.Text())
          + "INSERT INTO " + delimit(operation.newTable) + " (" + ColumnList(delimit, operation.columns.value) + ")" + NewLine
          + "SELECT " + ColumnList(delimit, operation.columns.value) + " FROM " + delimit(operation.oldTable)
    {
      ghost var before := builder.fragments;
      var columns := operation.columns.value;
      if |columns| == 0 {
        return;
      }
      var columnList := ColumnList(delimit, columns);
      builder.Append("INSERT INTO ");
      builder.Append(delimit(operation.newTable));
      builder.Append(" (");
      builder.Append(columnList);
      builder.AppendLine(")");
      builder.Append("SELECT ");
      builder.Append(columnList);
      builder.Append(" FROM ");
      builder.Append(delimit(operation.oldTable));
      MoveDataAppended(delimit, before, operation.oldTable, operation.newTable, columns);
    }

    /**
     * CREATE TABLE: lifts the primary key into its column's type text, on the
     * operation object itself, then lets the base generator emit the table.
     */
    method GenerateCreateTable(operation: CreateTableOperation, model: Option<Model>, builder: SqlBatchBuilder)
      requires PrimaryKeyReadable(operation.Value())
      modifies operation, builder
      ensures operation.Value() == LiftPrimaryKey(old(operation.Value()))
      ensures builder.fragments == old(builder.fragments) + [baseSql(CreateTable(operation.Value()), model)]
    {
      ghost var before := operation.Value();
      var flag := InlinePrimaryKeyFlag(operation.columns);
      if flag == Some(true) {
        var found := KeyColumnIndex(operation.Value());
        if found.Some? {
          var k := found.value;
          var column := operation.columns[k];
          column := column.(columnType := Some(TypeText(column.columnType) + PrimaryKeyKeyword));
          operation.columns := operation.columns[k := column];

          var autoIncrement := operation.primaryKey.value.autoincrement;

          operation.primaryKey := None;

          if autoIncrement == Some(true) {
            column := column.(columnType := Some(TypeText(column.columnType) + AutoincrementKeyword));
            operation.columns := operation.columns[k := column];
            assert TypeText(before.columns[k].columnType) + PrimaryKeyKeyword + AutoincrementKeyword
              == TypeText(before.columns[k].columnType) + (PrimaryKeyKeyword + AutoincrementKeyword);
          }
        }
      }
      builder.Append(baseSql(CreateTable(operation.Value()), model));
    }

    /**
     * One operation through the SQLite handlers. A refused operation fails
     * with its reason and appends nothing; any other operation appends the
     * text its handler writes. The CreateTable handler works on an operation
     * object built from the value.
     */
    method GenerateOperation(operation: Operation, model: Option<Model>, builder: SqlBatchBuilder) returns (outcome: Outcome<GenerationError>)
      requires HandlerPrecondition(operation)
      modifies builder
      ensures outcome.Fail? <==> Refusal(operation).Some?
      ensures outcome.Fail? ==> outcome.error == NotSupported(Refusal(operation).value)
      ensures outcome.Fail? ==> builder.fragments == old(builder.fragments)
      ensures outcome.Pass? ==> builder.fragments == old(builder.fragments) + OperationFragments(delimit, baseSql, operation, model)
    {
      var refusal := Refusal(operation);
      if refusal.Some? {
        return Fail(NotSupported(refusal.value));
      }
      if operation.CreateTable? {
        var target := new CreateTableOperation(operation.definition);
        GenerateCreateTable(target, model, builder);
      } else if operation.DropIndex? {
        GenerateDropIndex(operation, builder);
      } else if operation.RenameTable? {
        GenerateRenameTable(operation, builder);
      } else if operation.MoveData? {
        GenerateMoveData(operation, builder);
      } else {
        builder.Append(baseSql(operation, model));
      }
      outcome := Pass;
    }
  }
}
