/**
 * The engine-neutral schema-change operations handed to a migration SQL
 * generator, and the values that travel with them.
 *
 * The source reads capability annotations through string-keyed lookups and
 * `(bool)` casts; here they are typed optional fields (`None` = annotation
 * absent).
 */
module Operations {
  import opened Wrappers

  /** A column of a table being created (the source's AddColumnOperation). */
  datatype ColumnDef = ColumnDef(
    name: string,
    /** Declared store type text; `None` models a null `Type`. */
    columnType: Option<string>,
    /** The SQLite "inline primary key" annotation, if present. */
    inlinePrimaryKey: Option<bool>,
    /** Everything else the base handlers read from a column: nullability, default value or SQL, computed SQL. */
    facets: ColumnFacets)

  /** A primary key: its name, its ordered key columns and the SQLite "autoincrement" annotation. */
  datatype PrimaryKeyDef = PrimaryKeyDef(
    name: string,
    columns: seq<string>,
    autoincrement: Option<bool>)

  /** The fields of a CreateTable operation; `primaryKey == None` models a null `PrimaryKey`. */
  datatype TableDef = TableDef(
    name: string,
    columns: seq<ColumnDef>,
    primaryKey: Option<PrimaryKeyDef>,
    /** Everything else the base CREATE TABLE handler reads: schema, foreign keys, unique constraints. */
    constraints: TableConstraints)

  /** The closed set of migration operations. */
  datatype Operation =
    | CreateTable(definition: TableDef)
    | DropTable(name: string)
    | RenameTable(name: string, newName: Option<string>)
    | AddColumn(table: string, column: ColumnDef)
    | DropColumn(table: string, name: string)
    | AlterColumn(table: string, column: ColumnDef)
    | RenameColumn(table: string, name: string, newColumnName: string)
    | AddPrimaryKey(table: string, primaryKey: PrimaryKeyDef)
    | DropPrimaryKey(table: string, name: string)
    | AddForeignKey(table: string, name: string, keyColumns: seq<string>, referencedTable: string)
    | DropForeignKey(table: string, name: string)
    | AddUniqueConstraint(table: string, name: string, keyColumns: seq<string>)
    | DropUniqueConstraint(table: string, name: string)
    | CreateIndex(name: string, table: string, keyColumns: seq<string>, unique: bool)
    | DropIndex(name: string, table: string)
    | RenameIndex(table: string, name: string, newIndexName: string)
    | CreateSchema(name: string)
    | DropSchema(name: string)
    | CreateSequence(name: string)
    | AlterSequence(name: string)
    | RestartSequence(name: string)
    | RenameSequence(name: string, newSequenceName: string)
    | DropSequence(name: string)
      /** Rebuild-only row copy; `columns == None` models a null `Columns` array. */
    | MoveData(oldTable: string, newTable: string, columns: Option<seq<string>>)

  /** One executable unit of generated SQL. */
  datatype SqlBatch = SqlBatch(sql: string, suppressTransaction: bool)

  /** Why the SQLite generator refuses an operation (the three exception messages). */
  datatype Unsupported = InvalidMigrationOperation | SchemasNotSupported | SequencesNotSupported

  /** The failures a generator call can end in. */
  datatype GenerationError =
    | ArgumentNull(parameter: string)
    | NotSupported(reason: Unsupported)

  /** The column settings the SQLite handlers pass through untouched to the base handlers. */
  type ColumnFacets

  /** The table-level settings the SQLite handlers pass through untouched to the base handler. */
  type TableConstraints

  /** Read-only schema metadata consulted by collaborators; its content is not modelled. */
  type Model
}
