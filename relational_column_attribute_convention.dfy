/**
 * The convention that copies a `[Column]` attribute's settings onto a
 * property's relational metadata: the column name, the column order and the
 * column store type, each copied only when the attribute actually sets it.
 */
module RelationalColumnAttributes {
  import opened Wrappers

  /** `char.IsWhiteSpace`: the Unicode space, line and paragraph separators and the controls U+0009–U+000D and U+0085. */
  predicate IsWhiteSpace(c: char)
  {
    || c == ' ' || ('\t' <= c <= '\r') || c == '\U{85}' || c == '\U{A0}' || c == '\U{1680}'
    || ('\U{2000}' <= c <= '\U{200A}') || c == '\U{2028}' || c == '\U{2029}' || c == '\U{202F}'
    || c == '\U{205F}' || c == '\U{3000}'
  }

  /** `string.IsNullOrWhiteSpace`: null, empty, or white space only. */
  predicate IsNullOrWhiteSpace(s: Option<string>)
  {
    s.None? || forall i :: 0 <= i < |s.value| ==> IsWhiteSpace(s.value[i])
  }

  /** The settings of a `[Column]` attribute; an unset order is -1, unset strings are null. */
  datatype ColumnAttribute = ColumnAttribute(name: Option<string>, order: int, typeName: Option<string>)

  /** The three relational settings of a property the convention writes. */
  datatype RelationalColumn = RelationalColumn(column: Option<string>, columnOrder: Option<int>, columnType: Option<string>)

  /** What the convention does to the metadata: each field is overwritten only when the attribute sets it. */
  function ApplyColumnAttribute(metadata: RelationalColumn, attribute: ColumnAttribute): (r: RelationalColumn)
    ensures !IsNullOrWhiteSpace(attribute.name) ==> r.column == attribute.name
    ensures IsNullOrWhiteSpace(attribute.name) ==> r.column == metadata.column
    ensures attribute.order != -1 ==> r.columnOrder == Some(attribute.order)
    ensures attribute.order == -1 ==> r.columnOrder == metadata.columnOrder
    ensures !IsNullOrWhiteSpace(attribute.typeName) ==> r.columnType == attribute.typeName
    ensures IsNullOrWhiteSpace(attribute.typeName) ==> r.columnType == metadata.columnType
  {
    var column := if !IsNullOrWhiteSpace(attribute.name) then attribute.name else metadata.column;
    var columnOrder := if attribute.order != -1 then Some(attribute.order) else metadata.columnOrder;
    var columnType := if !IsNullOrWhiteSpace(attribute.typeName) then attribute.typeName else metadata.columnType;
    RelationalColumn(column, columnOrder, columnType)
  }

  /** Applying the same attribute twice leaves what applying it once leaves. */
  lemma ApplyIdempotent(metadata: RelationalColumn, attribute: ColumnAttribute)
    ensures ApplyColumnAttribute(ApplyColumnAttribute(metadata, attribute), attribute)
         == ApplyColumnAttribute(metadata, attribute)
  {
  }

  /**
   * Applying two attributes in turn: per field, the later attribute's setting
   * wins when it has one, otherwise the earlier one's, otherwise the field
   * keeps its old value.
   */
  lemma LaterAttributeWins(metadata: RelationalColumn, first: ColumnAttribute, second: ColumnAttribute)
    ensures var r := ApplyColumnAttribute(ApplyColumnAttribute(metadata, first), second);
      && r.column == (if !IsNullOrWhiteSpace(second.name) then second.name
                      else if !IsNullOrWhiteSpace(first.name) then first.name
                      else metadata.column)
      && r.columnOrder == (if second.order != -1 then Some(second.order)
                           else if first.order != -1 then Some(first.order)
                           else metadata.columnOrder)
      && r.columnType == (if !IsNullOrWhiteSpace(second.typeName) then second.typeName
                          else if !IsNullOrWhiteSpace(first.typeName) then first.typeName
                          else metadata.columnType)
  {
  }

  /** The relational metadata of a property (`Metadata.Relational()`), updated in place. */
  class RelationalPropertyAnnotations {
    var column: Option<string>
    var columnOrder: Option<int>
    var columnType: Option<string>

    constructor (initial: RelationalColumn)
      ensures Value() == initial
    {
      column := initial.column;
      columnOrder := initial.columnOrder;
      columnType := initial.columnType;
    }

    function Value(): RelationalColumn
      reads this
    {
      RelationalColumn(column, columnOrder, columnType)
    }
  }

  /** The property builder the convention receives; only its relational metadata is modelled. */
  class InternalPropertyBuilder {
    const metadata: RelationalPropertyAnnotations

    constructor (metadata: RelationalPropertyAnnotations)
      ensures this.metadata == metadata
    {
      this.metadata := metadata;
    }
  }

  /** A failed argument check (`ArgumentNullException` naming the parameter). */
  datatype ArgumentError = ArgumentNull(parameter: string)

  /**
   * The convention's `Apply`: rejects a null builder, then a null attribute,
   * before writing anything; otherwise copies each setting the attribute
   * makes onto the property's relational metadata and touches nothing else.
   */
  method Apply(propertyBuilder: InternalPropertyBuilder?, attribute: Option<ColumnAttribute>)
    returns (outcome: Outcome<ArgumentError>)
    modifies if propertyBuilder == null then {} else {propertyBuilder.metadata}
    ensures propertyBuilder == null ==> outcome == Fail(ArgumentNull("propertyBuilder"))
    ensures propertyBuilder != null && attribute.None? ==>
      outcome == Fail(ArgumentNull("attribute")) && propertyBuilder.metadata.Value() == old(propertyBuilder.metadata.Value())
    ensures propertyBuilder != null && attribute.Some? ==>
      && outcome == Pass
      && propertyBuilder.metadata.Value() == ApplyColumnAttribute(old(propertyBuilder.metadata.Value()), attribute.value)
  {
    if propertyBuilder == null {
      return Fail(ArgumentNull("propertyBuilder"));
    }
    if attribute.None? {
      return Fail(ArgumentNull("attribute"));
    }
    var a := attribute.value;
    var relational := propertyBuilder.metadata;

    if !IsNullOrWhiteSpace(a.name) {
      relational.column := a.name;
    }

    if a.order != -1 {
      relational.columnOrder := Some(a.order);
    }

    if !IsNullOrWhiteSpace(a.typeName) {
      relational.columnType := a.typeName;
    }
    outcome := Pass;
  }
}
