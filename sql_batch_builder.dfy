/**
 * The text accumulator the generator's handlers write into. Only the two
 * operations the SQLite handlers use are modelled: appending a fragment and
 * appending a fragment followed by a line terminator. The builder keeps the
 * fragments in the order they were appended; the batch text is their
 * concatenation. Batch sealing belongs to the base generator and is not part
 * of this model.
 */
module SqlBatchBuilding {
  import opened SqlText

  class SqlBatchBuilder {
    /** The fragments appended to the current batch, oldest first. */
    var fragments: seq<string>

    constructor ()
      ensures fragments == []
    {
      fragments := [];
    }

    /** The text of the batch being built. */
    function Text(): string
      reads this
    {
      Concat(fragments)
    }

    method Append(fragment: string)
      modifies this
      ensures fragments == old(fragments) + [fragment]
    {
      fragments := fragments + [fragment];
    }

    method AppendLine(fragment: string)
      modifies this
      ensures fragments == old(fragments) + [fragment + NewLine]
    {
      fragments := fragments + [fragment + NewLine];
    }
  }
}
