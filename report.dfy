/** The PDF report as the exporter draws it: a document that only ever grows, one
    drawing instruction at a time. Fonts, colours, spacing and image fitting are not
    part of the model; what is kept is which pages, headings, text and pictures are
    emitted, and in which order. */
module Report {
  import opened Json

  /** One piece of a text line. A line drawn with `continued: true` followed by more
      text is a single line of several cells. */
  datatype Cell =
    | Plain(s: string)               // text the exporter spells out itself
    | Shown(v: Value)                // a value handed to `doc.text` as it is
    | Interp(v: Value)               // `${v}` in a template literal, that is `String(v)`
    | DateOf(raw: Value)             // `formatDate(raw)`
    | Link(caption: string, target: Value)  // `caption` linked to the URL `target`

  datatype Instr =
    | NewPage                        // `doc.addPage()`
    | Heading(title: string)         // underlined text
    | Line(cells: seq<Cell>)         // one line of text
    | Picture(source: Value)         // `doc.image(...)` of the image downloaded from `source`

  /** What a drawing step leaves behind: the instructions it emitted and whether it ran
      to the end (`false`: it threw after emitting them). */
  datatype Drawing = Drawing(ops: seq<Instr>, done: bool)

  /** Running `a`, then, if it did not throw, `b`. */
  function Then(a: Drawing, b: Drawing): (r: Drawing)
    ensures r.done <==> a.done && b.done
    ensures a.done ==> r.ops == a.ops + b.ops
    ensures !a.done ==> r == a
  {
    if a.done then Drawing(a.ops + b.ops, b.done) else a
  }

  /** How many times `x` occurs in `ops`. */
  function Count(ops: seq<Instr>, x: Instr): nat
    decreases |ops|
  {
    if ops == [] then 0 else (if ops[0] == x then 1 else 0) + Count(ops[1..], x)
  }

  /** The number of pages a sequence of instructions adds. */
  function Pages(ops: seq<Instr>): nat {
    Count(ops, NewPage)
  }

  /** Drawing in two steps is drawing both parts at once. */
  lemma AppendAssoc(a: seq<Instr>, b: seq<Instr>, c: seq<Instr>)
    ensures a + b + c == a + (b + c)
  {
  }

  /** Counting in two parts. */
  lemma {:induction false} CountAppend(a: seq<Instr>, b: seq<Instr>, x: Instr)
    ensures Count(a + b, x) == Count(a, x) + Count(b, x)
    decreases |a|
  {
    if a == [] {
      assert a + b == b;
    } else {
      CountAppend(a[1..], b, x);
      assert (a + b)[1..] == a[1..] + b;
    }
  }

  /** `x` is counted exactly when it occurs. */
  lemma {:induction false} CountZero(ops: seq<Instr>, x: Instr)
    ensures Count(ops, x) == 0 <==> x !in ops
    decreases |ops|
  {
    if ops != [] {
      CountZero(ops[1..], x);
      assert ops == [ops[0]] + ops[1..];
    }
  }

  /** Two occurrences at different places are counted twice. */
  lemma CountTwo(ops: seq<Instr>, x: Instr, i: nat, j: nat)
    requires i < j < |ops| && ops[i] == x && ops[j] == x
    ensures Count(ops, x) >= 2
  {
    assert ops == ops[..j] + ops[j..];
    CountAppend(ops[..j], ops[j..], x);
    assert ops[..j][i] == x;
    assert ops[j..][0] == x;
    CountZero(ops[..j], x);
    CountZero(ops[j..], x);
  }

  /** The blocks `block(items[k], k)` for every `k < n`, one after the other: a list
      drawn item by item. */
  function Layout<T>(items: seq<T>, block: (T, nat) -> seq<Instr>, n: nat): seq<Instr>
    requires n <= |items|
  {
    if n == 0 then [] else Layout(items, block, n - 1) + block(items[n - 1], n - 1)
  }

  /** How many times `x` occurs in the first `n` blocks, block by block. */
  function LayoutCount<T>(items: seq<T>, block: (T, nat) -> seq<Instr>, n: nat, x: Instr): nat
    requires n <= |items|
  {
    if n == 0 then 0 else LayoutCount(items, block, n - 1, x) + Count(block(items[n - 1], n - 1), x)
  }

  /** Counting in a layout is counting in each of its blocks. */
  lemma {:induction false} LayoutCounted<T>(items: seq<T>, block: (T, nat) -> seq<Instr>, n: nat, x: Instr)
    requires n <= |items|
    ensures Count(Layout(items, block, n), x) == LayoutCount(items, block, n, x)
    decreases n
  {
    if n > 0 {
      LayoutCounted(items, block, n - 1, x);
      CountAppend(Layout(items, block, n - 1), block(items[n - 1], n - 1), x);
    }
  }

  /** Drawing the next block after the first `n` extends the layout by one item. */
  lemma LayoutStep<T>(start: seq<Instr>, items: seq<T>, block: (T, nat) -> seq<Instr>, n: nat)
    requires n < |items|
    ensures start + Layout(items, block, n) + block(items[n], n) == start + Layout(items, block, n + 1)
  {
    AppendAssoc(start, Layout(items, block, n), block(items[n], n));
  }

  /** A layout of one-instruction blocks holds one instruction per item, in order. */
  lemma {:induction false} LayoutSingles<T>(items: seq<T>, block: (T, nat) -> seq<Instr>, n: nat)
    requires n <= |items|
    requires forall k :: 0 <= k < n ==> |block(items[k], k)| == 1
    ensures |Layout(items, block, n)| == n
    ensures forall k :: 0 <= k < n ==> Layout(items, block, n)[k] == block(items[k], k)[0]
    decreases n
  {
    if n > 0 {
      LayoutSingles(items, block, n - 1);
    }
  }

  /** An instruction that no block holds is nowhere in the layout. */
  lemma {:induction false} LayoutFree<T>(items: seq<T>, block: (T, nat) -> seq<Instr>, n: nat, x: Instr)
    requires n <= |items|
    requires forall k :: 0 <= k < n ==> x !in block(items[k], k)
    ensures x !in Layout(items, block, n)
    decreases n
  {
    if n > 0 {
      LayoutFree(items, block, n - 1, x);
    }
  }

  /** Every block holding `x` at least once puts it in the layout at least once per item. */
  lemma {:induction false} LayoutAtLeast<T>(items: seq<T>, block: (T, nat) -> seq<Instr>, n: nat, x: Instr)
    requires n <= |items|
    requires forall k :: 0 <= k < n ==> Count(block(items[k], k), x) >= 1
    ensures Count(Layout(items, block, n), x) >= n
    decreases n
  {
    if n > 0 {
      LayoutAtLeast(items, block, n - 1, x);
      CountAppend(Layout(items, block, n - 1), block(items[n - 1], n - 1), x);
    }
  }

  /** The first `n` drawings made one after the other, stopping at the first that
      throws. */
  function Sequence(ds: seq<Drawing>, n: nat): Drawing
    requires n <= |ds|
  {
    if n == 0 then Drawing([], true) else Then(Sequence(ds, n - 1), ds[n - 1])
  }

  /** The sequence is drawn to the end exactly when no drawing in it throws. */
  lemma {:induction false} SequenceDone(ds: seq<Drawing>, n: nat)
    requires n <= |ds|
    ensures Sequence(ds, n).done <==> forall j :: 0 <= j < n ==> ds[j].done
    decreases n
  {
    if n > 0 {
      SequenceDone(ds, n - 1);
    }
  }

  /** Once a drawing throws, nothing after it is drawn. */
  lemma {:induction false} SequenceStop(ds: seq<Drawing>, m: nat, n: nat)
    requires m <= n <= |ds| && !Sequence(ds, m).done
    ensures Sequence(ds, n) == Sequence(ds, m)
    decreases n - m
  {
    if m < n {
      SequenceStop(ds, m, n - 1);
    }
  }

  /** Making one more drawing extends the sequence by its instructions. */
  lemma SequenceStep(start: seq<Instr>, ds: seq<Drawing>, n: nat)
    requires n < |ds| && Sequence(ds, n).done
    ensures Sequence(ds, n + 1).done == ds[n].done
    ensures start + Sequence(ds, n).ops + ds[n].ops == start + Sequence(ds, n + 1).ops
  {
    AppendAssoc(start, Sequence(ds, n).ops, ds[n].ops);
  }

  /** When every drawing that finishes holds `x`, a sequence drawn to the end holds it
      at least once per drawing. */
  lemma {:induction false} SequenceAtLeast(ds: seq<Drawing>, n: nat, x: Instr)
    requires n <= |ds| && Sequence(ds, n).done
    requires forall j :: 0 <= j < n && ds[j].done ==> Count(ds[j].ops, x) >= 1
    ensures Count(Sequence(ds, n).ops, x) >= n
    decreases n
  {
    if n > 0 {
      SequenceAtLeast(ds, n - 1, x);
      CountAppend(Sequence(ds, n - 1).ops, ds[n - 1].ops, x);
    }
  }

  /** The PDF document being drawn. */
  class Document {
    var ops: seq<Instr>

    /** `new PDFDocument()`: nothing drawn yet. */
    constructor()
      ensures ops == []
    {
      ops := [];
    }

    /** Draws `more` at the end of the document. */
    method Draw(more: seq<Instr>)
      modifies this
      ensures ops == old(ops) + more
    {
      ops := ops + more;
    }
  }
}
