/**
 * The drawing surface (jsPDF's `doc`, the canvas `ctx`, reportlab's `c`),
 * reduced to the log of primitives drawn on it. Fonts, colours and line
 * widths are not recorded; a box is recorded with whether it is filled.
 */
module Drawing {

  datatype Align = AlignLeft | AlignCenter | AlignRight

  datatype Op =
    | Rect(x: real, y: real, size: real, filled: bool)
    | Text(text: string, x: real, y: real, align: Align)

  lemma AppendAssociative(a: seq<Op>, b: seq<Op>, c: seq<Op>)
    ensures a + b + c == a + (b + c)
  {
  }

  predicate AllTexts(ops: seq<Op>) {
    forall i :: 0 <= i < |ops| ==> ops[i].Text?
  }

  lemma AllTextsAppend(a: seq<Op>, b: seq<Op>)
    requires AllTexts(a) && AllTexts(b)
    ensures AllTexts(a + b)
  {
    forall i | 0 <= i < |a + b|
      ensures (a + b)[i].Text?
    {
      if i >= |a| {
        assert (a + b)[i] == b[i - |a|];
      }
    }
  }

  /** Number of filled boxes in a log. */
  function CountFilled(ops: seq<Op>): nat
    decreases |ops|
  {
    if ops == [] then 0
    else CountFilled(ops[..|ops| - 1]) + (if ops[|ops| - 1].Rect? && ops[|ops| - 1].filled then 1 else 0)
  }

  /** `Math.min(Math.max(n, 0), bound)` */
  function Clamp(n: int, bound: nat): nat {
    if n <= 0 then 0 else if n >= bound then bound else n
  }

  lemma CountFilledAppend(a: seq<Op>, b: seq<Op>)
    ensures CountFilled(a + b) == CountFilled(a) + CountFilled(b)
    decreases |b|
  {
    if b != [] {
      CountFilledAppend(a, b[..|b| - 1]);
      assert (a + b)[..|a + b| - 1] == a + b[..|b| - 1];
    } else {
      assert a + b == a;
    }
  }

  /**
   * A log of boxes in which exactly the first n are filled holds
   * min(max(n, 0), |ops|) filled boxes.
   */
  lemma {:induction false} PrefixFilledCount(ops: seq<Op>, n: int)
    requires forall i :: 0 <= i < |ops| ==> ops[i].Rect? && (ops[i].filled <==> i < n)
    ensures CountFilled(ops) == Clamp(n, |ops|)
    decreases |ops|
  {
    if ops != [] {
      PrefixFilledCount(ops[..|ops| - 1], n);
    }
  }

  /** Text primitives add no filled box. */
  lemma {:induction false} TextsFillNothing(ops: seq<Op>)
    requires AllTexts(ops)
    ensures CountFilled(ops) == 0
    decreases |ops|
  {
    if ops != [] {
      TextsFillNothing(ops[..|ops| - 1]);
    }
  }

  class Surface {
    var ops: seq<Op>

    constructor ()
      ensures ops == []
    {
      ops := [];
    }

    /** `doc.rect(...)`, `ctx.fillRect`/`ctx.strokeRect`, `c.rect(...)` */
    method DrawRect(x: real, y: real, size: real, filled: bool)
      modifies this
      ensures ops == old(ops) + [Rect(x, y, size, filled)]
    {
      ops := ops + [Rect(x, y, size, filled)];
    }

    /** `doc.text(...)`, `ctx.fillText(...)`, `c.drawString(...)` and its right/centre variants */
    method DrawText(text: string, x: real, y: real, align: Align)
      modifies this
      ensures ops == old(ops) + [Text(text, x, y, align)]
    {
      ops := ops + [Text(text, x, y, align)];
    }
  }
}
