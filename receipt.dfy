/** The "receipt" breakdowns: ordered line items that add up to a metric. */
module Receipt {

  /** How a line is shown: the starting quantity, or a signed contribution. */
  datatype Kind = Base | Add | Sub

  /** A line's caption. The GST line interpolates the rate into its text;
      that number is kept as a number here. */
  datatype Label = Text(text: string) | LessGst(ratePercent: real)

  /** One row `{ label, val, type }`; `val` already carries its sign. */
  datatype Line = Line(caption: Label, val: real, kind: Kind)

  /** The sum of the signed values of a receipt. */
  function Total(lines: seq<Line>): real
  {
    if lines == [] then 0.0 else lines[0].val + Total(lines[1..])
  }

  /** A receipt opens with one base line, and every later line adds or
      subtracts. */
  predicate WellFormed(lines: seq<Line>) {
    |lines| > 0 && lines[0].kind == Base &&
    forall i :: 0 < i < |lines| ==> lines[i].kind != Base
  }

  /** Receipts may be read in pieces: the total of a concatenation is the sum
      of the totals. */
  lemma {:induction false} TotalAppend(a: seq<Line>, b: seq<Line>)
    ensures Total(a + b) == Total(a) + Total(b)
  {
    if a == [] {
      assert a + b == b;
    } else {
      assert (a + b)[1..] == a[1..] + b;
      TotalAppend(a[1..], b);
    }
  }

  /** A single line totals to its own value. */
  lemma TotalSingle(l: Line)
    ensures Total([l]) == l.val
  {
    assert [l][1..] == [];
  }
}
