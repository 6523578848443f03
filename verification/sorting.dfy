/** The order in which result rows are listed. */
module Sorting {
  import opened RelativeSpeed

  /** `Command` keeps the order the commands were given in; `MeanTime` lists the
      fastest first. */
  datatype SortOrder = Command | MeanTime

  /** Means never decrease along `es`. */
  ghost predicate SortedByMean(es: seq<Entry>)
  {
    forall i, j :: 0 <= i < j < |es| ==> es[i].result.mean <= es[j].result.mean
  }

  /** The entries of `es` whose mean is `m`, in their order in `es`. */
  function WithMean(es: seq<Entry>, m: real): (sub: seq<Entry>)
    ensures |sub| <= |es|
  {
    if |es| == 0 then []
    else if es[0].result.mean == m then [es[0]] + WithMean(es[1..], m)
    else WithMean(es[1..], m)
  }

  /** `e` placed before the first entry of `es` whose mean is not below its own. */
  function Insert(e: Entry, es: seq<Entry>): (r: seq<Entry>)
    requires SortedByMean(es)
    ensures SortedByMean(r)
    ensures multiset(r) == multiset(es) + multiset{e}
    ensures |r| == |es| + 1 && (r[0] == e || (|es| > 0 && r[0] == es[0]))
  {
    if |es| == 0 || e.result.mean <= es[0].result.mean then [e] + es
    else
      var rest := Insert(e, es[1..]);
      assert es[0].result.mean <= rest[0].result.mean;
      assert es == [es[0]] + es[1..];
      [es[0]] + rest
  }

  /** Inserting `e` adds it to the entries with its own mean, after none of them,
      and leaves the entries with every other mean as they were. */
  lemma {:induction false} InsertWithMean(e: Entry, es: seq<Entry>, m: real)
    requires SortedByMean(es)
    ensures WithMean(Insert(e, es), m)
         == if e.result.mean == m then [e] + WithMean(es, m) else WithMean(es, m)
    decreases |es|
  {
    if |es| == 0 || e.result.mean <= es[0].result.mean {
      assert ([e] + es)[1..] == es;
    } else {
      InsertWithMean(e, es[1..], m);
      assert ([es[0]] + Insert(e, es[1..]))[1..] == Insert(e, es[1..]);
    }
  }

  /** Stable insertion sort by ascending mean. */
  function SortByMean(es: seq<Entry>): (r: seq<Entry>)
    ensures SortedByMean(r)
    ensures multiset(r) == multiset(es)
    ensures |r| == |es|
  {
    if |es| == 0 then []
    else
      assert es == [es[0]] + es[1..];
      Insert(es[0], SortByMean(es[1..]))
  }

  /** Sorting is stable: the entries sharing any one mean keep their relative order. */
  lemma {:induction false} SortByMeanStable(es: seq<Entry>, m: real)
    ensures WithMean(SortByMean(es), m) == WithMean(es, m)
    decreases |es|
  {
    if |es| > 0 {
      SortByMeanStable(es[1..], m);
      InsertWithMean(es[0], SortByMean(es[1..]), m);
    }
  }

  /** The rows in the requested order. */
  function Arrange(es: seq<Entry>, order: SortOrder): (r: seq<Entry>)
    ensures multiset(r) == multiset(es) && |r| == |es|
    ensures order == Command ==> r == es
    ensures order == MeanTime ==> SortedByMean(r)
  {
    match order
    case Command => es
    case MeanTime => SortByMean(es)
  }
}
