# SQLite migration SQL generation and the `[Column]` attribute convention

This project is a Dafny model of two pieces of an Entity Framework build.

**The SQLite dialect of the migration SQL generator** (`SqliteMigrationSqlGenerator`).
It turns schema-change operations into SQLite DDL text, which its handlers
append to a batch builder.
- Before base generation, an optional operation transformer replaces the
  whole operation list.
- `DROP INDEX` is written without a table qualifier.
- `ALTER TABLE … RENAME TO …` is written only when there is a new name.
- The table-rebuild row copy `INSERT INTO new (cols) SELECT cols FROM old`
  is written only when the column array is non-empty.
- `CREATE TABLE` first rewrites the operation object in place. A primary key
  marked for inlining moves into its column's type text as `PRIMARY KEY`,
  optionally followed by `AUTOINCREMENT`, and the table-level key is dropped.
  This matches SQLite's `INTEGER PRIMARY KEY` rowid alias and its
  `AUTOINCREMENT` keyword.
- Seventeen operation kinds are refused, each with one of three reasons, and
  nothing is written for them.

**The relational `[Column]` attribute convention**
(`RelationalColumnAttributeConvention.Apply`). It copies an attribute's name,
order and type name onto the property's relational metadata. Each copy happens
only when the attribute sets that field.

Modules:
- `Wrappers`: `Option`, `Result`, `Outcome`.
- `Operations`: the operation variants, their table, column and primary-key
  definitions, SQL batches and the generation errors.
- `SqlText`: `string.Join(", ", …)` as `JoinList`, the text of appended
  fragments as `Concat`, and a reader for comma-separated lists with its round
  trip.
- `SqlBatchBuilding`: the batch builder. It is a class whose fragment list the
  handlers extend.
- `SqliteSql`: what each handler emits or refuses, and the primary-key lift,
  as functions with their lemmas.
- `SqliteMigrations`: the generator class. Its handlers are methods over the
  builder and over a mutable `CreateTableOperation`, each proved against the
  functions in `SqliteSql`.
- `RelationalColumnAttributes`: the convention, as a function plus the method
  that updates the metadata object in place.

The generator's collaborators are parameters of its constructor, held as
function-valued constants. They are the identifier quoting service
(`DelimitIdentifier`), the operation transformer, the base generator's
list-level `Generate`, and the base generator's per-operation handlers.
Nothing is assumed about any of them. The schema model (`IModel`) is an opaque
type. It is handed unchanged to the transformer, to the base list-level
`Generate`, and to every base per-operation handler the SQLite handlers reach.
The column and table settings that the SQLite handlers never read are opaque
values. These are nullability, defaults, computed SQL, the schema, foreign keys
and unique constraints. They are passed to the base handlers unchanged.

The CreateTable handler rewrites the caller's operation object. It changes a
column's type (:106, :115) and clears the primary key (:110).
`GenerateCreateTable` models that update. `LiftIsOneShot` shows that
generating from the rewritten object again would dereference the missing key.

## Model

| member | source | states |
|---|---|---|
| SqliteMigrations.SqliteMigrationSqlGenerator.Generate | src/EntityFramework.Sqlite/Migrations/SqliteMigrationSqlGenerator.cs:31-41 | A null operation list fails with an argument-null error naming `operations`. Otherwise, with no transformer the base generator gets the original list unchanged; with a transformer it gets the transformer's output for the list and model. |
| SqliteMigrations.SqliteMigrationSqlGenerator.GenerateDropIndex | src/EntityFramework.Sqlite/Migrations/SqliteMigrationSqlGenerator.cs:43-51 | Appends exactly `"DROP INDEX "` and the delimited index name, and nothing else. The table name is not used. The builder's text becomes its old text + `"DROP INDEX " + delimit(name)`. |
| SqliteSql.DropIndexStatement | src/EntityFramework.Sqlite/Migrations/SqliteMigrationSqlGenerator.cs:48-50 | The text DropIndex appends is `"DROP INDEX " + delimit(name)`. |
| SqliteMigrations.SqliteMigrationSqlGenerator.GenerateRenameTable | src/EntityFramework.Sqlite/Migrations/SqliteMigrationSqlGenerator.cs:53-66 | The builder is unchanged when the new name is null. Otherwise it gains exactly `ALTER TABLE`, the delimited old name, `RENAME TO` and the delimited new name, so its text becomes the old text + `"ALTER TABLE " + d(name) + " RENAME TO " + d(newName)`. |
| SqliteSql.RenameTableStatement | src/EntityFramework.Sqlite/Migrations/SqliteMigrationSqlGenerator.cs:58-65 | The appended text is empty if and only if the new name is null. Otherwise it is `"ALTER TABLE " + d(name) + " RENAME TO " + d(newName)`. |
| SqliteMigrations.SqliteMigrationSqlGenerator.GenerateMoveData | src/EntityFramework.Sqlite/Migrations/SqliteMigrationSqlGenerator.cs:68-89 | The builder is unchanged for an empty column array. Otherwise it gains the INSERT … SELECT fragments of `MoveDataFragments`, in order, with the line break after `")"`, and its text becomes the old text + `INSERT INTO d(new) (L)`, a newline, and `SELECT L FROM d(old)`. A null array is excluded by the precondition, because the source fails on it at :78. |
| SqliteSql.MoveDataStatement | src/EntityFramework.Sqlite/Migrations/SqliteMigrationSqlGenerator.cs:73-88 | The appended text is empty if and only if the column array is empty. Otherwise it is `INSERT INTO d(new) (L)`, a newline, then `SELECT L FROM d(old)`, where both occurrences of `L` are the same column list. |
| SqliteSql.MoveDataAppended | src/EntityFramework.Sqlite/Migrations/SqliteMigrationSqlGenerator.cs:80-88 | Appending the MoveData fragments after any earlier fragments spells the earlier text followed by the INSERT … SELECT statement. |
| SqliteSql.MoveDataColumnListReadsBack | src/EntityFramework.Sqlite/Migrations/SqliteMigrationSqlGenerator.cs:78-78 | When no delimited name contains a comma, the column list splits back at `", "` into exactly the delimited columns, in input order, one per column. |
| SqlText.SplitJoin | src/EntityFramework.Sqlite/Migrations/SqliteMigrationSqlGenerator.cs:78-78 | `string.Join(", ", …)` round trip: a non-empty list of comma-free items, joined and split again, gives back the same list. |
| SqliteSql.FirstIndex | src/EntityFramework.Sqlite/Migrations/SqliteMigrationSqlGenerator.cs:97-98 | `FirstOrDefault` as an index. A found index is in range and satisfies the predicate, and no earlier element does. None means no element satisfies it. |
| SqliteSql.FlagIsFirstAnnotation | src/EntityFramework.Sqlite/Migrations/SqliteMigrationSqlGenerator.cs:97-101 | The inline-primary-key test passes if and only if some column carries the annotation, the first such column's value is true, and no earlier column carries one. |
| SqliteSql.KeyColumnIndexIsKeyColumn | src/EntityFramework.Sqlite/Migrations/SqliteMigrationSqlGenerator.cs:103-104 | The column lookup finds the first column named like the key's first column. It finds none if and only if no column has that name. |
| SqliteSql.LiftPrimaryKey | src/EntityFramework.Sqlite/Migrations/SqliteMigrationSqlGenerator.cs:97-118 | The table name, the table-level constraints, the column count, and every column's name, annotation and other settings are kept. When the lift does not apply (no annotation, a false annotation, or no matching column), the operation is returned unchanged, key and all. When it applies, the key is cleared. Callers must supply a key with a column once the annotation is true, because :103 dereferences it. |
| SqliteSql.LiftedKeyColumn | src/EntityFramework.Sqlite/Migrations/SqliteMigrationSqlGenerator.cs:103-116 | When the lift applies, the key column's type becomes the old type text + `" PRIMARY KEY"`. `" AUTOINCREMENT"` follows it exactly when the key's autoincrement annotation is true. No other column changes, and the key is cleared. |
| SqliteSql.KeyColumnUnique | src/EntityFramework.Sqlite/Migrations/SqliteMigrationSqlGenerator.cs:103-103 | At most one position is the first column with the key's name, so only one column's type is rewritten. |
| SqliteSql.LiftIsOneShot | src/EntityFramework.Sqlite/Migrations/SqliteMigrationSqlGenerator.cs:97-110 | After a lift, the operation no longer meets the handler's precondition: the annotation is still true, but there is no key. |
| SqliteMigrations.SqliteMigrationSqlGenerator.GenerateCreateTable | src/EntityFramework.Sqlite/Migrations/SqliteMigrationSqlGenerator.cs:91-121 | The operation object is updated in place to `LiftPrimaryKey` of its old value. The autoincrement flag is read before the key is cleared. The base CREATE TABLE handler's text for the rewritten operation and the model is then appended. |
| SqliteSql.Refusal | src/EntityFramework.Sqlite/Migrations/SqliteMigrationSqlGenerator.cs:126-218 | Each of these if and only if: the ten column/constraint alterations, including RenameIndex, give InvalidMigrationOperation; CreateSchema and DropSchema give SchemasNotSupported; the five sequence operations give SequencesNotSupported; every other kind is emitted. |
| SqliteMigrations.SqliteMigrationSqlGenerator.GenerateOperation | src/EntityFramework.Sqlite/Migrations/SqliteMigrationSqlGenerator.cs:126-218 | One operation through the handlers. It fails exactly for refused kinds, with their reason, and then leaves the builder untouched. Any other operation appends the fragments of its handler, or the base handler's text for the operation and the model. |
| RelationalColumnAttributes.ApplyColumnAttribute | src/EntityFramework.Relational/Metadata/ModelConventions/AttributeConventions/PropertyAttributes/RelationalColumnAttributeConvention.cs:18-31 | Field by field, both ways. `column` becomes the attribute's name if the name is not null or white space, and is kept otherwise. `columnOrder` becomes the order if it is not -1, and is kept otherwise. `columnType` becomes the type name if it is not null or white space, and is kept otherwise. |
| RelationalColumnAttributes.ApplyIdempotent | src/EntityFramework.Relational/Metadata/ModelConventions/AttributeConventions/PropertyAttributes/RelationalColumnAttributeConvention.cs:18-31 | Applying the same attribute twice gives the same metadata as applying it once. |
| RelationalColumnAttributes.LaterAttributeWins | src/EntityFramework.Relational/Metadata/ModelConventions/AttributeConventions/PropertyAttributes/RelationalColumnAttributeConvention.cs:18-31 | Applying two attributes in turn: per field, the second attribute's setting wins, else the first attribute's, else the old value. The three fields are independent. |
| RelationalColumnAttributes.Apply | src/EntityFramework.Relational/Metadata/ModelConventions/AttributeConventions/PropertyAttributes/RelationalColumnAttributeConvention.cs:13-32 | A null builder, then a null attribute, is rejected with an argument-null error naming it, and no field is written. Otherwise the metadata object becomes `ApplyColumnAttribute` of its old value. Only the metadata object may change. |

## Left out

- Batch sealing, the base generator's dispatch, and the text of its own
  handlers (CREATE TABLE, DROP TABLE, ADD COLUMN, CREATE INDEX) are not part
  of this model. They are constructor parameters of the generator, and the
  model claims only what SQLite's handlers pass to them.
- The operation transformer (`SqliteOperationTransformer`) is not part of this
  model. It is an opaque function of the list and the model, and the
  table-rebuild synthesis is not modelled.
- `ISqlGenerator.DelimitIdentifier` is an uninterpreted parameter. SQLite
  quote escaping is not modelled.
- Annotations looked up by string key and cast with `(bool)` are typed
  optional booleans on the column and on the primary key. A non-boolean
  annotation value, which throws an invalid-cast exception in the source, is
  not modelled.
- Exception message text is left out. Errors are tags: an argument-null error
  naming the parameter, or one of three not-supported reasons.
- Null `operation` and null `builder` arguments to the per-operation handlers
  cannot arise, because the model's types exclude them.
- A null `Columns` array on CreateTable is not modelled; the source fails on
  it at :97. Column objects are values, so two list entries that alias the
  same column object are not modelled.
- For a composite primary key, only the first key column is moved into a
  column type. The remaining key columns are dropped together with the key
  clause, as in the source.
- SqliteMigrations.SqliteMigrationSqlGenerator.GenerateOperation: the
  CreateTable handler runs on a fresh `CreateTableOperation` built from the
  operation value. The caller's own object being rewritten is stated by
  `GenerateCreateTable` instead.
- SqliteMigrations.SqliteMigrationSqlGenerator.GenerateMoveData: a null column
  array is a precondition rather than an error result, because the source
  fails on it at :78 with an argument-null error inside `Select` and does not
  handle it.
- `AppendLine` is taken to write a line feed. The platform newline is not
  modelled.
- Strings are sequences of Unicode characters, not UTF-16 code units.
  White space is the set `char.IsWhiteSpace` accepts.
- The attribute's own setter check (a negative order other than -1 is
  rejected by `ColumnAttribute`) belongs to the attribute type, which is not
  part of this model. Any integer order is accepted.
- `ModificationCommandBatchFactoryTest.cs` tests the separate data-modification
  batching factory through mocks and object identity. It has no logic to
  model.
