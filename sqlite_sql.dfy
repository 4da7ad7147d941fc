/**
 * What the SQLite migration SQL generator emits or refuses, as functions of
 * the operation: the text of each SQLite-specific statement, the table of
 * refused operations, and the CreateTable rewrite that lifts a primary key
 * into its column's type text (SQLite's "INTEGER PRIMARY KEY" rowid alias,
 * optionally with the AUTOINCREMENT keyword).
 *
 * `delimit` stands for the identifier quoting service
 * (`ISqlGenerator.DelimitIdentifier`); it is a parameter because its escaping
 * rules are not part of this model.
 */
module SqliteSql {
  import opened Wrappers
  import opened Operations
  import opened SqlText

  const PrimaryKeyKeyword: string := " PRIMARY KEY"
  const AutoincrementKeyword: string := " AUTOINCREMENT"

  // ---------------------------------------------------------------------------
  // Directly emitted statements, as the fragments appended to the builder

  /** `DROP INDEX <name>`: SQLite index names are database-wide, so no table qualifier. */
  function DropIndexFragments(delimit: string -> string, name: string): seq<string>
  {
    ["DROP INDEX ", delimit(name)]
  }

  /** `ALTER TABLE <name> RENAME TO <newName>`, or nothing when there is no new name. */
  function RenameTableFragments(delimit: string -> string, name: string, newName: Option<string>): seq<string>
  {
    match newName
    case None => []
    case Some(n) => ["ALTER TABLE ", delimit(name), " RENAME TO ", delimit(n)]
  }

  /** The delimited columns, in order, separated by ", ". */
  function ColumnList(delimit: string -> string, columns: seq<string>): string
  {
    JoinList(MapAll(delimit, columns))
  }

  /** The row copy of a table rebuild, or nothing when there are no columns to copy. */
  function MoveDataFragments(delimit: string -> string, oldTable: string, newTable: string, columns: seq<string>): seq<string>
  {
    if |columns| == 0 then []
    else
      var columnList := ColumnList(delimit, columns);
      ["INSERT INTO ", delimit(newTable), " (", columnList, ")" + NewLine,
       "SELECT ", columnList, " FROM ", delimit(oldTable)]
  }

  /** The text of DropIndex: the keyword and the delimited index name, nothing else. */
  lemma DropIndexStatement(delimit: string -> string, name: string)
    ensures Concat(DropIndexFragments(delimit, name)) == "DROP INDEX " + delimit(name)
  {
    var f := DropIndexFragments(delimit, name);
    assert Concat(f[1..]) == delimit(name) + Concat(f[2..]);
  }

  /** The text of RenameTable: empty exactly when the new name is absent, otherwise the one rename statement. */
  lemma RenameTableStatement(delimit: string -> string, name: string, newName: Option<string>)
    ensures newName.None? ==> Concat(RenameTableFragments(delimit, name, newName)) == ""
    ensures newName.Some? ==>
      Concat(RenameTableFragments(delimit, name, newName)) == "ALTER TABLE " + delimit(name) + " RENAME TO " + delimit(newName.value)
    ensures Concat(RenameTableFragments(delimit, name, newName)) == "" <==> newName.None?
  {
    if newName.Some? {
      var f := RenameTableFragments(delimit, name, newName);
      ConcatStep(f, 0); ConcatStep(f, 1); ConcatStep(f, 2); ConcatStep(f, 3);
      assert f[4..] == [];
      assert Concat(f)[0] == 'A';
    }
  }

  /**
   * The text of MoveData: empty exactly when the column array is empty;
   * otherwise an INSERT INTO the new table over the column list, a line
   * break, and a SELECT of the same column list FROM the old table.
   */
  lemma MoveDataStatement(delimit: string -> string, oldTable: string, newTable: string, columns: seq<string>)
    ensures |columns| == 0 ==> Concat(MoveDataFragments(delimit, oldTable, newTable, columns)) == ""
    ensures |columns| > 0 ==>
      Concat(MoveDataFragments(delimit, oldTable, newTable, columns))
        == "INSERT INTO " + delimit(newTable) + " (" + ColumnList(delimit, columns) + ")" + NewLine
         + "SELECT " + ColumnList(delimit, columns) + " FROM " + delimit(oldTable)
    ensures Concat(MoveDataFragments(delimit, oldTable, newTable, columns)) == "" <==> |columns| == 0
  {
    if |columns| > 0 {
      var f := MoveDataFragments(delimit, oldTable, newTable, columns);
      ConcatStep(f, 0); ConcatStep(f, 1); ConcatStep(f, 2); ConcatStep(f, 3); ConcatStep(f, 4);
      ConcatStep(f, 5); ConcatStep(f, 6); ConcatStep(f, 7); ConcatStep(f, 8);
      assert f[9..] == [];
      assert Concat(f)[0] == 'I';
    }
  }

  /** The MoveData text, appended after whatever the batch already holds. */
  lemma MoveDataAppended(delimit: string -> string, before: seq<string>, oldTable: string, newTable: string, columns: seq<string>)
    requires |columns| > 0
    ensures Concat(before + MoveDataFragments(delimit, oldTable, newTable, columns))
      == Concat(before)
        + "INSERT INTO " + delimit(newTable) + " (" + ColumnList(delimit, columns) + ")" + NewLine
        + "SELECT " + ColumnList(delimit, columns) + " FROM " + delimit(oldTable)
  {
    ConcatAppend(before, MoveDataFragments(delimit, oldTable, newTable, columns));
    MoveDataStatement(delimit, oldTable, newTable, columns);
  }

  /**
   * The column list that MoveData writes in both its INSERT and its SELECT
   * clause names exactly the delimited columns, in input order, provided no
   * delimited name contains a comma.
   */
  lemma MoveDataColumnListReadsBack(delimit: string -> string, columns: seq<string>)
    requires |columns| > 0
    requires forall i :: 0 <= i < |columns| ==> NoComma(delimit(columns[i]))
    ensures SplitList(ColumnList(delimit, columns)) == MapAll(delimit, columns)
    ensures |SplitList(ColumnList(delimit, columns))| == |columns|
  {
    SplitJoin(MapAll(delimit, columns));
  }

  // ---------------------------------------------------------------------------
  // Refused operations

  /** Operations that change an existing table's columns or constraints in place. */
  predicate IsTableAlteration(operation: Operation)
  {
    || operation.AddForeignKey? || operation.AddPrimaryKey? || operation.AddUniqueConstraint?
    || operation.DropColumn? || operation.DropForeignKey? || operation.DropPrimaryKey?
    || operation.DropUniqueConstraint? || operation.RenameColumn? || operation.RenameIndex?
    || operation.AlterColumn?
  }

  predicate IsSchemaOperation(operation: Operation)
  {
    operation.CreateSchema? || operation.DropSchema?
  }

  predicate IsSequenceOperation(operation: Operation)
  {
    || operation.CreateSequence? || operation.AlterSequence? || operation.RestartSequence?
    || operation.RenameSequence? || operation.DropSequence?
  }

  /** Operations that produce SQL: SQLite's own handlers and the ones left to the base generator. */
  predicate IsEmitted(operation: Operation)
  {
    || operation.CreateTable? || operation.DropTable? || operation.RenameTable?
    || operation.AddColumn? || operation.CreateIndex? || operation.DropIndex?
    || operation.MoveData?
  }

  /** The refusal gate: which handler throws, and with which message. */
  function Refusal(operation: Operation): (r: Option<Unsupported>)
    ensures r == Some(InvalidMigrationOperation) <==> IsTableAlteration(operation)
    ensures r == Some(SchemasNotSupported) <==> IsSchemaOperation(operation)
    ensures r == Some(SequencesNotSupported) <==> IsSequenceOperation(operation)
    ensures r.None? <==> IsEmitted(operation)
  {
    match operation
    case AddForeignKey(_, _, _, _) => Some(InvalidMigrationOperation)
    case AddPrimaryKey(_, _) => Some(InvalidMigrationOperation)
    case AddUniqueConstraint(_, _, _) => Some(InvalidMigrationOperation)
    case DropColumn(_, _) => Some(InvalidMigrationOperation)
    case DropForeignKey(_, _) => Some(InvalidMigrationOperation)
    case DropPrimaryKey(_, _) => Some(InvalidMigrationOperation)
    case DropUniqueConstraint(_, _) => Some(InvalidMigrationOperation)
    case RenameColumn(_, _, _) => Some(InvalidMigrationOperation)
    case RenameIndex(_, _, _) => Some(InvalidMigrationOperation)
    case AlterColumn(_, _) => Some(InvalidMigrationOperation)
    case CreateSchema(_) => Some(SchemasNotSupported)
    case DropSchema(_) => Some(SchemasNotSupported)
    case RestartSequence(_) => Some(SequencesNotSupported)
    case CreateSequence(_) => Some(SequencesNotSupported)
    case RenameSequence(_, _) => Some(SequencesNotSupported)
    case AlterSequence(_) => Some(SequencesNotSupported)
    case DropSequence(_) => Some(SequencesNotSupported)
    case _ => None
  }

  // ---------------------------------------------------------------------------
  // CreateTable: lifting the primary key into the column type

  /** LINQ `FirstOrDefault` as an index: the first position whose element satisfies `p`. */
  function FirstIndex<T>(s: seq<T>, p: T -> bool): (r: Option<nat>)
    ensures r.Some? ==> r.value < |s| && p(s[r.value])
    ensures r.Some? ==> forall j :: 0 <= j < r.value ==> !p(s[j])
    ensures r.None? ==> forall j :: 0 <= j < |s| ==> !p(s[j])
  {
    if |s| == 0 then None
    else if p(s[0]) then Some(0)
    else match FirstIndex(s[1..], p)
      case None => None
      case Some(k) => Some(k + 1)
  }

  predicate HasInlineAnnotation(column: ColumnDef)
  {
    column.inlinePrimaryKey.Some?
  }

  /** The value of the inline-primary-key annotation on the FIRST column that carries one. */
  function InlinePrimaryKeyFlag(columns: seq<ColumnDef>): Option<bool>
  {
    match FirstIndex(columns, HasInlineAnnotation)
    case None => None
    case Some(i) => columns[i].inlinePrimaryKey
  }

  /**
   * What the rewrite demands of its caller: once the annotation says "inline",
   * the operation has a primary key with at least one column (the source
   * dereferences `PrimaryKey.Columns[0]` without a check).
   */
  predicate PrimaryKeyReadable(t: TableDef)
  {
    InlinePrimaryKeyFlag(t.columns) == Some(true) ==>
      t.primaryKey.Some? && |t.primaryKey.value.columns| > 0
  }

  /** The first column named like the primary key's first column. */
  function KeyColumnIndex(t: TableDef): Option<nat>
    requires t.primaryKey.Some? && |t.primaryKey.value.columns| > 0
  {
    var key := t.primaryKey.value.columns[0];
    FirstIndex(t.columns, (c: ColumnDef) => c.name == key)
  }

  /** C#'s `null + s == s`: the text a possibly-null type contributes to a concatenation. */
  function TypeText(columnType: Option<string>): string
  {
    match columnType
    case None => ""
    case Some(s) => s
  }

  /** The first annotated column exists and its annotation is true. */
  predicate FirstAnnotationTrue(columns: seq<ColumnDef>)
  {
    exists i :: 0 <= i < |columns| && columns[i].inlinePrimaryKey == Some(true)
      && forall j :: 0 <= j < i ==> columns[j].inlinePrimaryKey.None?
  }

  /** Column `k` is the first column named like the primary key's first column. */
  predicate IsKeyColumn(t: TableDef, k: int)
  {
    && t.primaryKey.Some? && |t.primaryKey.value.columns| > 0
    && 0 <= k < |t.columns| && t.columns[k].name == t.primaryKey.value.columns[0]
    && forall j :: 0 <= j < k ==> t.columns[j].name != t.primaryKey.value.columns[0]
  }

  /** The three conditions under which the rewrite happens, stated without the search. */
  predicate LiftApplies(t: TableDef)
  {
    && FirstAnnotationTrue(t.columns)
    && t.primaryKey.Some? && |t.primaryKey.value.columns| > 0
    && exists i :: 0 <= i < |t.columns| && t.columns[i].name == t.primaryKey.value.columns[0]
  }

  /**
   * The CreateTable rewrite: when it applies, the key column's type gains
   * " PRIMARY KEY" (then " AUTOINCREMENT" if the key is so annotated) and the
   * table-level key is dropped; otherwise the operation is unchanged. Names,
   * annotations and the column count never change.
   */
  function LiftPrimaryKey(t: TableDef): (r: TableDef)
    requires PrimaryKeyReadable(t)
    ensures r.name == t.name && |r.columns| == |t.columns|
    ensures r.constraints == t.constraints
    ensures forall i :: 0 <= i < |t.columns| ==>
      && r.columns[i].name == t.columns[i].name
      && r.columns[i].inlinePrimaryKey == t.columns[i].inlinePrimaryKey
      && r.columns[i].facets == t.columns[i].facets
    ensures !LiftApplies(t) ==> r == t
    ensures LiftApplies(t) ==> r.primaryKey.None?
  {
    if InlinePrimaryKeyFlag(t.columns) != Some(true) then
      assert !FirstAnnotationTrue(t.columns) by { FlagIsFirstAnnotation(t.columns); }
      t
    else
      match KeyColumnIndex(t)
      case None => t
      case Some(k) =>
        var pk := t.primaryKey.value;
        var suffix := if pk.autoincrement == Some(true) then PrimaryKeyKeyword + AutoincrementKeyword else PrimaryKeyKeyword;
        var column := t.columns[k].(columnType := Some(TypeText(t.columns[k].columnType) + suffix));
        t.(columns := t.columns[k := column], primaryKey := None)
  }

  /** The executable search for the annotation agrees with its declarative reading. */
  lemma FlagIsFirstAnnotation(columns: seq<ColumnDef>)
    ensures InlinePrimaryKeyFlag(columns) == Some(true) <==> FirstAnnotationTrue(columns)
  {
    var f := FirstIndex(columns, HasInlineAnnotation);
    if FirstAnnotationTrue(columns) {
      var i :| 0 <= i < |columns| && columns[i].inlinePrimaryKey == Some(true)
        && forall j :: 0 <= j < i ==> columns[j].inlinePrimaryKey.None?;
      assert HasInlineAnnotation(columns[i]);
    }
  }

  /** The executable search for the key column agrees with `IsKeyColumn`. */
  lemma KeyColumnIndexIsKeyColumn(t: TableDef)
    requires t.primaryKey.Some? && |t.primaryKey.value.columns| > 0
    ensures KeyColumnIndex(t).Some? ==> IsKeyColumn(t, KeyColumnIndex(t).value)
    ensures KeyColumnIndex(t).None? <==> forall i :: 0 <= i < |t.columns| ==> t.columns[i].name != t.primaryKey.value.columns[0]
  {
  }

  /**
   * When the rewrite applies, column `k` (the first column named like the
   * key's first column) is the only column whose type changes: it becomes the
   * old type text followed by " PRIMARY KEY", and " AUTOINCREMENT" follows
   * exactly when the key's autoincrement annotation is true.
   */
  lemma LiftedKeyColumn(t: TableDef, k: int)
    requires PrimaryKeyReadable(t) && LiftApplies(t) && IsKeyColumn(t, k)
    ensures t.primaryKey.value.autoincrement == Some(true) ==>
      LiftPrimaryKey(t).columns[k].columnType == Some(TypeText(t.columns[k].columnType) + " PRIMARY KEY AUTOINCREMENT")
    ensures t.primaryKey.value.autoincrement != Some(true) ==>
      LiftPrimaryKey(t).columns[k].columnType == Some(TypeText(t.columns[k].columnType) + " PRIMARY KEY")
    ensures forall i :: 0 <= i < |t.columns| && i != k ==> LiftPrimaryKey(t).columns[i] == t.columns[i]
    ensures LiftPrimaryKey(t).primaryKey.None?
  {
    FlagIsFirstAnnotation(t.columns);
    KeyColumnIndexIsKeyColumn(t);
    var f := KeyColumnIndex(t);
    assert f.Some?;
    KeyColumnUnique(t, k, f.value);
    assert PrimaryKeyKeyword + AutoincrementKeyword == " PRIMARY KEY AUTOINCREMENT";
  }

  /** There is only one first column with a given name. */
  lemma KeyColumnUnique(t: TableDef, k: int, m: int)
    requires IsKeyColumn(t, k) && IsKeyColumn(t, m)
    ensures k == m
  {
  }

  /**
   * The rewrite is one-shot: the rewritten operation keeps the inline
   * annotation but has no primary key, so generating CREATE TABLE from it a
   * second time would dereference the missing key.
   */
  lemma LiftIsOneShot(t: TableDef)
    requires PrimaryKeyReadable(t) && LiftApplies(t)
    ensures !PrimaryKeyReadable(LiftPrimaryKey(t))
  {
    var r := LiftPrimaryKey(t);
    FlagIsFirstAnnotation(t.columns);
    FlagIsFirstAnnotation(r.columns);
    var i :| 0 <= i < |t.columns| && t.columns[i].inlinePrimaryKey == Some(true)
      && forall j :: 0 <= j < i ==> t.columns[j].inlinePrimaryKey.None?;
    assert r.columns[i].inlinePrimaryKey == Some(true);
    assert FirstAnnotationTrue(r.columns);
  }

  // ---------------------------------------------------------------------------
  // One operation through the SQLite handlers

  /** What the handlers demand beyond the operation's kind. */
  predicate HandlerPrecondition(operation: Operation)
  {
    && (operation.MoveData? ==> operation.columns.Some?)
    && (operation.CreateTable? ==> PrimaryKeyReadable(operation.definition))
  }

  /**
   * The fragments appended for an operation the SQLite generator does not refuse;
   * `baseSql` stands for the base generator's handlers, which CreateTable,
   * DropTable, AddColumn and CreateIndex reach.
   */
  function OperationFragments(
    delimit: string -> string, baseSql: (Operation, Option<Model>) -> string, operation: Operation, model: Option<Model>): seq<string>
    requires Refusal(operation).None? && HandlerPrecondition(operation)
  {
    match operation
    case CreateTable(t) => [baseSql(CreateTable(LiftPrimaryKey(t)), model)]
    case DropIndex(name, _) => DropIndexFragments(delimit, name)
    case RenameTable(name, newName) => RenameTableFragments(delimit, name, newName)
    case MoveData(oldTable, newTable, columns) => MoveDataFragments(delimit, oldTable, newTable, columns.value)
    case _ => [baseSql(operation, model)]
  }
}
