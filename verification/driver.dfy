/**
  The main loop of the gradient-table check script: the table is split into a
  first and a second half of `n / 2` lines each (floor division, as in Python 2),
  and line `v` of the first half is compared with line `v + n / 2`.

  With an odd number of lines the last line belongs to neither half and is
  never read; no index ever falls outside the table. A line with too few
  numbers makes the predicate raise an index error, which is not caught: the
  run stops there.
 */
module Driver {
  import opened Gradients

  /** The indices of the two table lines one comparison reads. */
  datatype Pair = Pair(first: nat, second: nat)

  /** One completed comparison: which lines, and whether they matched. */
  datatype Comparison = Comparison(pair: Pair, matches: bool)

  /**
    The observable result of a run: the comparisons made in order, and either
    normal completion or the pair whose comparison raised an index error.
   */
  datatype Trace =
    | Completed(comparisons: seq<Comparison>)
    | Aborted(comparisons: seq<Comparison>, failedAt: Pair)

  /** The pairs `(v, v + h)` for `v` in `range(0, k)`, in loop order. */
  function PairsBelow(k: nat, h: nat): (ps: seq<Pair>)
    ensures |ps| == k
    ensures forall v :: 0 <= v < k ==> ps[v].first == v && ps[v].second == v + h
  {
    if k == 0 then [] else PairsBelow(k - 1, h) + [Pair(k - 1, k - 1 + h)]
  }

  /** The pairs the main loop compares in a table of `n` lines. */
  function Pairs(n: nat): (ps: seq<Pair>)
    ensures |ps| == n / 2
    ensures forall v :: 0 <= v < |ps| ==> ps[v].first == v && ps[v].second == v + n / 2
    ensures forall p :: p in ps ==> p.first < n / 2 <= p.second < n
    ensures forall p :: p in ps ==> p.second - p.first == n / 2
    ensures n % 2 == 1 ==> forall p :: p in ps ==> p.first != n - 1 && p.second != n - 1
  {
    PairsBelow(n / 2, n / 2)
  }

  /** Is line `k` read by some comparison? */
  predicate Used(ps: seq<Pair>, k: nat)
  {
    exists v :: 0 <= v < |ps| && (ps[v].first == k || ps[v].second == k)
  }

  /** No line is read by two comparisons, nor twice by one. */
  predicate Disjoint(ps: seq<Pair>)
  {
    && (forall v :: 0 <= v < |ps| ==> ps[v].first != ps[v].second)
    && (forall v, w :: 0 <= v < w < |ps| ==>
          && ps[v].first != ps[w].first && ps[v].second != ps[w].second
          && ps[v].first != ps[w].second && ps[v].second != ps[w].first)
  }

  /**
    The pairs partition the first `2 * (n / 2)` lines: they are disjoint, and a
    line is read exactly when its index is below `2 * (n / 2)`. So with an even
    count every line is read once, and with an odd count only the last is skipped.
   */
  lemma PairsPartition(n: nat)
    ensures Disjoint(Pairs(n))
    ensures forall k: nat :: Used(Pairs(n), k) <==> k < 2 * (n / 2)
  {
    var ps, h := Pairs(n), n / 2;
    forall k: nat
      ensures Used(ps, k) <==> k < 2 * h
    {
      if k < h {
        assert ps[k].first == k;
      } else if k < 2 * h {
        assert ps[k - h].second == k;
      }
    }
  }

  /**
    The main loop over a parsed table. Each pair is compared in order; the
    first comparison that raises an index error ends the run.
   */
  method CheckTable(table: seq<Line>) returns (t: Trace)
    ensures |t.comparisons| <= |table| / 2
    ensures forall k :: 0 <= k < |t.comparisons| ==>
      && t.comparisons[k].pair == Pairs(|table|)[k]
      && GradsMatchList(table[k], table[k + |table| / 2]) == Returned(t.comparisons[k].matches)
    ensures t.Completed? ==> |t.comparisons| == |table| / 2
    ensures t.Aborted? ==>
      && |t.comparisons| < |table| / 2
      && t.failedAt == Pairs(|table|)[|t.comparisons|]
      && GradsMatchList(table[t.failedAt.first], table[t.failedAt.second]) == IndexError
    ensures (forall r :: r in table ==> |r| >= 4) ==> t.Completed?
  {
    var h := |table| / 2;
    var done: seq<Comparison> := [];
    var v := 0;
    while v < h
      invariant 0 <= v <= h
      invariant |done| == v
      invariant forall k :: 0 <= k < v ==>
        && done[k].pair == Pair(k, k + h)
        && GradsMatchList(table[k], table[k + h]) == Returned(done[k].matches)
    {
      var outcome := GradsMatchList(table[v], table[v + h]);
      match outcome
      case IndexError =>
        return Aborted(done, Pair(v, v + h));
      case Returned(m) =>
        done := done + [Comparison(Pair(v, v + h), m)];
      v := v + 1;
    }
    return Completed(done);
  }

  /**
    On a table whose every line carries at least four numbers, the run
    completes and each verdict is the record predicate on the paired lines.
   */
  method CheckWellFormedTable(table: seq<Line>) returns (verdicts: seq<bool>)
    requires forall r :: r in table ==> |r| >= 4
    ensures |verdicts| == |table| / 2
    ensures forall v :: 0 <= v < |verdicts| ==>
      verdicts[v] == GradsMatch(ToGradient(table[v]), ToGradient(table[v + |table| / 2]))
  {
    var t := CheckTable(table);
    verdicts := seq(|t.comparisons|, k requires 0 <= k < |t.comparisons| => t.comparisons[k].matches);
  }

  /**
    Four lines: a direction with b=1000, a b=0 volume, the same direction with
    b=1005, and another b=0 volume. Both pairs (0, 2) and (1, 3) match.
   */
  method FourLineExample() returns (t: Trace)
    ensures t == Completed([Comparison(Pair(0, 2), true), Comparison(Pair(1, 3), true)])
  {
    var table: seq<Line> := [[1.0, 0.0, 0.0, 1000.0], [0.0, 0.0, 0.0, 0.0],
                               [1.0, 0.0, 0.0, 1005.0], [0.0, 0.0, 0.0, 0.0]];
    t := CheckTable(table);
    assert GradsMatch(ToGradient(table[0]), ToGradient(table[2]));
    assert GradsMatch(ToGradient(table[1]), ToGradient(table[3]));
  }
}
