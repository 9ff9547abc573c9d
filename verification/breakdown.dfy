/**
 Labelled energy figures, in the order the calculator inserts them into its
 breakdown dictionary, together with their sum and the positive-entry filter
 that feeds the pie chart.
 */
module Breakdown {

  /** One labelled contribution, in kilowatts. */
  datatype Entry = Entry(name: string, value: real)

  /** The labels of a breakdown, in order. */
  function Labels(es: seq<Entry>): (ls: seq<string>)
    ensures |ls| == |es|
    ensures forall i :: 0 <= i < |es| ==> ls[i] == es[i].name
  {
    seq(|es|, i requires 0 <= i < |es| => es[i].name)
  }

  /** No entry is negative. */
  predicate NonNegative(es: seq<Entry>) {
    forall i :: 0 <= i < |es| ==> es[i].value >= 0.0
  }

  /** The sum of all values of a breakdown. */
  function Sum(es: seq<Entry>): (r: real)
    ensures NonNegative(es) ==> r >= 0.0
  {
    if |es| == 0 then 0.0 else es[0].value + Sum(es[1..])
  }

  /** Sum distributes over concatenation. */
  lemma {:induction false} SumAppend(a: seq<Entry>, b: seq<Entry>)
    ensures Sum(a + b) == Sum(a) + Sum(b)
  {
    if |a| == 0 {
      assert a + b == b;
    } else {
      assert (a + b)[1..] == a[1..] + b;
      SumAppend(a[1..], b);
    }
  }

  /**
   The chart input: the entries whose value is strictly positive, in their
   original order. Every positive entry is kept, nothing else is, and when no
   entry is negative the dropped entries are exactly the zero ones, so the
   kept values still add up to the whole.
   */
  function KeepPositive(es: seq<Entry>): (r: seq<Entry>)
    ensures |r| <= |es|
    ensures forall e :: e in r <==> e in es && e.value > 0.0
    ensures NonNegative(es) ==> Sum(r) == Sum(es)
  {
    if |es| == 0 then []
    else if es[0].value > 0.0 then [es[0]] + KeepPositive(es[1..])
    else KeepPositive(es[1..])
  }

  /** Filtering twice keeps nothing more and drops nothing more. */
  lemma {:induction false} KeepPositiveIdempotent(es: seq<Entry>)
    ensures KeepPositive(KeepPositive(es)) == KeepPositive(es)
  {
    if |es| > 0 {
      KeepPositiveIdempotent(es[1..]);
      var rest := KeepPositive(es[1..]);
      if es[0].value > 0.0 {
        assert ([es[0]] + rest)[1..] == rest;
      }
    }
  }

  /** The filter keeps the order of the entries: it distributes over concatenation. */
  lemma {:induction false} KeepPositiveAppend(a: seq<Entry>, b: seq<Entry>)
    ensures KeepPositive(a + b) == KeepPositive(a) + KeepPositive(b)
  {
    if |a| == 0 {
      assert a + b == b;
    } else {
      assert (a + b)[0] == a[0];
      assert (a + b)[1..] == a[1..] + b;
      KeepPositiveAppend(a[1..], b);
    }
  }

  /** A name occurs among the labels when some entry carries it. */
  lemma NameInLabels(es: seq<Entry>, e: Entry)
    requires e in es
    ensures e.name in Labels(es)
  {
  }

  /** The filter on a single entry keeps it exactly when it is positive. */
  lemma KeepPositiveSingle(e: Entry)
    ensures KeepPositive([e]) == if e.value > 0.0 then [e] else []
  {
  }

  /** What the filter keeps of one entry. */
  function KeptOf(e: Entry): (r: seq<Entry>)
    ensures r == KeepPositive([e])
  {
    KeepPositiveSingle(e);
    if e.value > 0.0 then [e] else []
  }

  /** The filter applied to a list of five entries, one entry at a time. */
  lemma KeepPositiveFive(e0: Entry, e1: Entry, e2: Entry, e3: Entry, e4: Entry)
    ensures KeepPositive([e0, e1, e2, e3, e4])
         == KeptOf(e0) + KeptOf(e1) + KeptOf(e2) + KeptOf(e3) + KeptOf(e4)
  {
    assert [e0, e1, e2, e3, e4] == [e0] + [e1] + [e2] + [e3] + [e4];
    KeepPositiveAppend([e0] + [e1] + [e2] + [e3], [e4]);
    KeepPositiveAppend([e0] + [e1] + [e2], [e3]);
    KeepPositiveAppend([e0] + [e1], [e2]);
    KeepPositiveAppend([e0], [e1]);
  }

  /** A name survives the filter exactly when some positive entry carries it. */
  lemma NameSurvivesKeepPositive(es: seq<Entry>, n: string)
    ensures n in Labels(KeepPositive(es)) <==> exists e :: e in es && e.name == n && e.value > 0.0
  {
  }
}
