/**
 * Text helpers the generator relies on: `string.Join(", ", …)` and the
 * line terminator `AppendLine` writes.
 */
module SqlText {

  /** The separator of an SQL column list. */
  const ListSeparator: string := ", "

  /** The line terminator appended by `AppendLine` (platform newline, taken as LF). */
  const NewLine: string := "\n"

  /** `string.Join(", ", items)`: the items in order, separated by ", ". */
  function JoinList(items: seq<string>): string
  {
    if |items| == 0 then ""
    else if |items| == 1 then items[0]
    else items[0] + ListSeparator + JoinList(items[1..])
  }

  /** The text a sequence of appended fragments spells out. */
  function Concat(fragments: seq<string>): string
  {
    if |fragments| == 0 then "" else fragments[0] + Concat(fragments[1..])
  }

  /** Appending fragments in two runs spells the two texts one after the other. */
  lemma {:induction false} ConcatAppend(a: seq<string>, b: seq<string>)
    ensures Concat(a + b) == Concat(a) + Concat(b)
    decreases |a|
  {
    if |a| == 0 {
      assert a + b == b;
    } else {
      ConcatAppend(a[1..], b);
      assert (a + b)[0] == a[0];
      assert (a + b)[1..] == a[1..] + b;
      calc {
        Concat(a + b);
        a[0] + Concat(a[1..] + b);
        a[0] + (Concat(a[1..]) + Concat(b));
        (a[0] + Concat(a[1..])) + Concat(b);
      }
    }
  }

  /** Peeling one fragment off the front of a suffix. */
  lemma ConcatStep(fragments: seq<string>, k: nat)
    requires k < |fragments|
    ensures Concat(fragments[k..]) == fragments[k] + Concat(fragments[k + 1..])
  {
    assert fragments[k..][1..] == fragments[k + 1..];
  }

  /** Every item of `items`, mapped through `f`, in order (LINQ `Select`). */
  function MapAll(f: string -> string, items: seq<string>): (r: seq<string>)
    ensures |r| == |items|
    ensures forall i :: 0 <= i < |items| ==> r[i] == f(items[i])
  {
    if |items| == 0 then [] else [f(items[0])] + MapAll(f, items[1..])
  }

  /** Reads a comma-separated list back into its items, cutting at every ", ". */
  function SplitList(s: string): (r: seq<string>)
    ensures |r| > 0
    decreases |s|
  {
    if |s| == 0 then [""]
    else if |s| >= 2 && s[0] == ',' && s[1] == ' ' then [""] + SplitList(s[2..])
    else
      var rest := SplitList(s[1..]);
      [[s[0]] + rest[0]] + rest[1..]
  }

  predicate NoComma(s: string)
  {
    forall i :: 0 <= i < |s| ==> s[i] != ','
  }

  /** An item without a comma, followed by the separator, is read back as one item. */
  lemma {:induction false} SplitItemThenRest(x: string, t: string)
    requires NoComma(x)
    ensures SplitList(x + ListSeparator + t) == [x] + SplitList(t)
    decreases |x|
  {
    var s := x + ListSeparator + t;
    if |x| == 0 {
      assert s == ", " + t;
      assert s[2..] == t;
    } else {
      assert s[0] == x[0];
      assert s[1..] == x[1..] + ListSeparator + t;
      SplitItemThenRest(x[1..], t);
      assert [x[0]] + x[1..] == x;
    }
  }

  /** An item without a comma is read back as itself. */
  lemma {:induction false} SplitSingle(x: string)
    requires NoComma(x)
    ensures SplitList(x) == [x]
    decreases |x|
  {
    if |x| > 0 {
      SplitSingle(x[1..]);
      assert [x[0]] + x[1..] == x;
    }
  }

  /**
   * Round trip: a non-empty list of comma-free items, joined with ", ", reads
   * back as exactly those items in the same order.
   */
  lemma {:induction false} SplitJoin(items: seq<string>)
    requires |items| > 0
    requires forall i :: 0 <= i < |items| ==> NoComma(items[i])
    ensures SplitList(JoinList(items)) == items
    decreases |items|
  {
    if |items| == 1 {
      SplitSingle(items[0]);
    } else {
      SplitItemThenRest(items[0], JoinList(items[1..]));
      SplitJoin(items[1..]);
      assert [items[0]] + items[1..] == items;
    }
  }
}
