/** The shape the tools' replies share: one line for each of the first `n`
    results (Python's `for item in items[:n]: response += line(item)`). */
module Listing {
  import opened Text

  /** The lines of `items[:n]`, in order. */
  function Lines<T>(line: T -> string, items: seq<T>, n: nat): (lines: seq<string>)
    ensures |lines| == if |items| < n then |items| else n
    ensures forall i :: 0 <= i < |lines| ==> lines[i] == line(items[i])
  {
    var m := if |items| < n then |items| else n;
    seq(m, i requires 0 <= i < m => line(items[i]))
  }

  /** Results after the `n`-th are never shown. */
  lemma LinesIgnoreRest<T>(line: T -> string, items: seq<T>, n: nat, more: seq<T>)
    requires |items| >= n
    ensures Lines(line, items + more, n) == Lines(line, items, n)
  {
    assert forall i :: 0 <= i < n ==> (items + more)[i] == items[i];
  }

  /** The `i`-th result's line sits after the lines of the results before
      it and before the lines of the results after it. */
  lemma LineAt<T>(line: T -> string, items: seq<T>, n: nat, i: nat)
    requires i < |items| && i < n
    ensures var lines := Lines(line, items, n);
      Concat(lines) == Concat(lines[..i]) + line(items[i]) + Concat(lines[i + 1..])
  {
    ConcatSplit(Lines(line, items, n), i);
  }

  /** One more turn of the loop appends one more line. */
  lemma ConcatStep(lines: seq<string>, i: nat)
    requires i < |lines|
    ensures Concat(lines[..i + 1]) == Concat(lines[..i]) + lines[i]
  {
    assert lines[..i + 1][..i] == lines[..i];
  }
}
