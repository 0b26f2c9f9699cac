/** The order in which the mapper visits token positions: the outer loop runs
    `i` over `0 .. n-1`, the inner loop runs `j` from `i+1` up to `n-1`, so
    the pairs `(i, j)` with `i < j < n` come out in lexicographic order. */
module PairOrder {

  /** Two token positions, the earlier one first. */
  datatype IndexPair = IndexPair(first: nat, second: nat)

  /** Strict lexicographic order on position pairs. */
  predicate Before(p: IndexPair, q: IndexPair) {
    p.first < q.first || (p.first == q.first && p.second < q.second)
  }

  predicate Ascending(ps: seq<IndexPair>) {
    forall a, b | 0 <= a < b < |ps| :: Before(ps[a], ps[b])
  }

  /** The pairs one run of the inner loop visits before `j` reaches `end`:
      `(i, i+1), (i, i+2), ..., (i, end-1)`. */
  function Row(i: nat, end: nat): (r: seq<IndexPair>)
    ensures |r| == if end > i then end - i - 1 else 0
    ensures forall k | 0 <= k < |r| :: r[k] == IndexPair(i, i + 1 + k)
    decreases end
  {
    if end <= i + 1 then [] else Row(i, end - 1) + [IndexPair(i, end - 1)]
  }

  /** The pairs the outer loop has visited once `i` rows of an `n`-token line
      are done: only pairs of positions `p < q < n` with `p < i`. */
  function PairsBelow(i: nat, n: nat): (r: seq<IndexPair>)
    requires i <= n
    ensures forall k | 0 <= k < |r| :: r[k].first < i && r[k].first < r[k].second < n
  {
    if i == 0 then [] else PairsBelow(i - 1, n) + Row(i - 1, n)
  }

  /** After `i` rows there are `(n-1) + (n-2) + ... + (n-i)` pairs, which is
      half of `i * (2n - i - 1)`. */
  lemma {:induction false} PairsBelowLength(i: nat, n: nat)
    requires i <= n
    ensures 2 * |PairsBelow(i, n)| == i * (2 * n - i - 1)
  {
    if i > 0 {
      PairsBelowLength(i - 1, n);
      assert |PairsBelow(i, n)| == |PairsBelow(i - 1, n)| + (n - i);
      assert (i - 1) * (2 * n - i) + 2 * (n - i) == i * (2 * n - i - 1);
    }
  }

  /** Every pair of positions `i < j` of an `n`-token line, in the order the
      mapper emits them. */
  function Pairs(n: nat): seq<IndexPair> {
    PairsBelow(n, n)
  }

  /** Where the pair `(i, j)` stands in `Pairs(n)`: after the `i` earlier rows
      and `j - i - 1` pairs into its own row. */
  function PairIndex(i: nat, j: nat, n: nat): nat
    requires i < j < n
  {
    var later: nat := 2 * n - i - 1;
    var product: nat := i * later;
    product / 2 + (j - i - 1)
  }

  /** A line of `n` tokens has exactly `n * (n - 1) / 2` pairs: none when it
      has fewer than two tokens. */
  lemma PairsCount(n: nat)
    ensures |Pairs(n)| == n * (n - 1) / 2
    ensures n < 2 ==> Pairs(n) == []
  {
    PairsBelowLength(n, n);
    assert 2 * |Pairs(n)| == n * (n - 1);
  }

  /** Rows are appended, never rewritten: the pairs visited by row `i` are a
      prefix of those visited by any later row `m`. */
  lemma {:induction false} PairsBelowPrefix(i: nat, m: nat, n: nat)
    requires i <= m <= n
    ensures |PairsBelow(i, n)| <= |PairsBelow(m, n)|
    ensures PairsBelow(m, n)[..|PairsBelow(i, n)|] == PairsBelow(i, n)
    decreases m - i
  {
    if i < m {
      PairsBelowPrefix(i, m - 1, n);
      var front := PairsBelow(m - 1, n);
      var k := |PairsBelow(i, n)|;
      assert PairsBelow(m, n) == front + Row(m - 1, n);
      assert PairsBelow(m, n)[..k] == front[..k];
    }
  }

  /** Each pair `i < j < n` is emitted, at position `PairIndex(i, j, n)`. */
  lemma PairsAt(i: nat, j: nat, n: nat)
    requires i < j < n
    ensures PairIndex(i, j, n) < |Pairs(n)|
    ensures Pairs(n)[PairIndex(i, j, n)] == IndexPair(i, j)
  {
    PairsBelowPrefix(i + 1, n, n);
    var before := PairsBelow(i, n);
    var upTo := PairsBelow(i + 1, n);
    PairsBelowLength(i, n);
    assert upTo == before + Row(i, n);
    assert |before| == i * (2 * n - i - 1) / 2;
    assert upTo[|before| + (j - i - 1)] == IndexPair(i, j);
  }

  /** The pairs emitted are exactly the pairs of positions `i < j < n`: both
      directions of the membership. */
  lemma PairsMembership(n: nat, p: IndexPair)
    ensures p in Pairs(n) <==> p.first < p.second < n
  {
    if p.first < p.second < n {
      PairsAt(p.first, p.second, n);
    }
  }

  /** Two ascending runs, every pair of the first before every pair of the
      second, make an ascending run. */
  lemma AscendingAppend(front: seq<IndexPair>, back: seq<IndexPair>)
    requires Ascending(front) && Ascending(back)
    requires forall p, q | p in front && q in back :: Before(p, q)
    ensures Ascending(front + back)
  {
    var all := front + back;
    forall a, b | 0 <= a < b < |all| ensures Before(all[a], all[b]) {
      if b < |front| {
        assert all[a] == front[a] && all[b] == front[b];
      } else if a < |front| {
        assert all[a] == front[a] && all[b] == back[b - |front|];
        assert all[a] in front && all[b] in back;
      } else {
        assert all[a] == back[a - |front|] && all[b] == back[b - |front|];
      }
    }
  }

  /** The pairs come out in strictly ascending lexicographic order, so no pair
      is emitted twice. */
  lemma {:induction false} PairsBelowAscending(i: nat, n: nat)
    requires i <= n
    ensures Ascending(PairsBelow(i, n))
  {
    if i > 0 {
      PairsBelowAscending(i - 1, n);
      var front := PairsBelow(i - 1, n);
      var row := Row(i - 1, n);
      assert Ascending(row);
      forall p, q | p in front && q in row ensures Before(p, q) {
      }
      AscendingAppend(front, row);
    }
  }

  lemma PairsAscending(n: nat)
    ensures Ascending(Pairs(n))
  {
    PairsBelowAscending(n, n);
  }
}
