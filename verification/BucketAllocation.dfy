/** How the Analyst splits its candidate pool: slots by largest remainder, then a backfill of what a
    thin bucket cannot supply. Buckets are numbered in the order of the source's dicts. */
module BucketAllocation {

  // ----- sums

  function Sum(s: seq<int>): int {
    if s == [] then 0 else Sum(s[..|s| - 1]) + s[|s| - 1]
  }

  function Total(s: seq<real>): real {
    if s == [] then 0.0 else Total(s[..|s| - 1]) + s[|s| - 1]
  }

  lemma {:induction false} SumUpdate(s: seq<int>, k: nat, v: int)
    requires k < |s|
    ensures Sum(s[k := v]) == Sum(s) - s[k] + v
  {
    var n := |s| - 1;
    if k == n {
      assert s[k := v][..n] == s[..n];
    } else {
      assert s[k := v][..n] == s[..n][k := v];
      SumUpdate(s[..n], k, v);
    }
  }

  lemma {:induction false} SumAtMost(s: seq<int>, t: seq<int>)
    requires |s| == |t| && forall k :: 0 <= k < |s| ==> s[k] <= t[k]
    ensures Sum(s) <= Sum(t)
  {
    if s != [] {
      SumAtMost(s[..|s| - 1], t[..|s| - 1]);
    }
  }

  // ----- sorted(…, key=…, reverse=True)

  /** Larger keys first, and among equal keys the earlier index: Python's sort is stable. */
  predicate Before(keys: seq<real>, i: nat, j: nat)
    requires i < |keys| && j < |keys|
  {
    keys[i] > keys[j] || (keys[i] == keys[j] && i < j)
  }

  ghost predicate Below(order: seq<nat>, n: nat) {
    forall i :: 0 <= i < |order| ==> order[i] < n
  }

  ghost predicate Sorted(keys: seq<real>, order: seq<nat>)
    requires Below(order, |keys|)
  {
    forall i, j :: 0 <= i < j < |order| ==> Before(keys, order[i], order[j])
  }

  lemma ComesBefore(keys: seq<real>, order: seq<nat>, k: nat, x: nat)
    requires k < |keys| && order != [] && Below(order, k) && Sorted(keys, order)
    requires keys[order[|order| - 1]] < keys[k] && (x in order[..|order| - 1] || x == k)
    ensures Before(keys, x, order[|order| - 1])
  {
    if x != k {
      var i :| 0 <= i < |order| - 1 && order[i] == x;
      assert Before(keys, order[i], order[|order| - 1]);
    }
  }

  function Insert(keys: seq<real>, order: seq<nat>, k: nat): (r: seq<nat>)
    requires k < |keys| && Below(order, k) && Sorted(keys, order)
    ensures |r| == |order| + 1 && Below(r, k + 1) && Sorted(keys, r)
    ensures forall i :: i in r <==> i in order || i == k
  {
    if order == [] then [k]
    else
      var n := |order| - 1;
      if keys[order[n]] >= keys[k] then order + [k]
      else
        var rest := Insert(keys, order[..n], k);
        assert forall i :: 0 <= i < |rest| ==> Before(keys, rest[i], order[n]) by {
          forall i | 0 <= i < |rest| ensures Before(keys, rest[i], order[n]) {
            assert rest[i] in rest;
            ComesBefore(keys, order, k, rest[i]);
          }
        }
        rest + [order[n]]
  }

  /** The first `n` indices in sorted order. */
  function Order(keys: seq<real>, n: nat): (r: seq<nat>)
    requires n <= |keys|
    ensures |r| == n && Below(r, n) && Sorted(keys, r)
    ensures forall i: nat :: i in r <==> i < n
  {
    if n == 0 then [] else Insert(keys, Order(keys, n - 1), n - 1)
  }

  // ----- sums in sorted order

  function TotalAlong(keys: seq<real>, order: seq<nat>): real
    requires Below(order, |keys|)
  {
    if order == [] then 0.0 else TotalAlong(keys, order[..|order| - 1]) + keys[order[|order| - 1]]
  }

  lemma {:induction false} InsertAlong(keys: seq<real>, order: seq<nat>, k: nat)
    requires k < |keys| && Below(order, k) && Sorted(keys, order)
    ensures TotalAlong(keys, Insert(keys, order, k)) == TotalAlong(keys, order) + keys[k]
  {
    if order != [] {
      var n := |order| - 1;
      if keys[order[n]] >= keys[k] {
        assert (order + [k])[..|order|] == order;
      } else {
        InsertAlong(keys, order[..n], k);
        var rest := Insert(keys, order[..n], k);
        assert (rest + [order[n]])[..|rest|] == rest;
      }
    }
  }

  lemma {:induction false} OrderAlong(keys: seq<real>, n: nat)
    requires n <= |keys|
    ensures TotalAlong(keys, Order(keys, n)) == Total(keys[..n])
  {
    if n > 0 {
      assert keys[..n][..n - 1] == keys[..n - 1];
      OrderAlong(keys, n - 1);
      InsertAlong(keys, Order(keys, n - 1), n - 1);
    }
  }

  ghost predicate Fractional(keys: seq<real>) {
    forall k :: 0 <= k < |keys| ==> 0.0 <= keys[k] < 1.0
  }

  lemma {:induction false} AlongBound(keys: seq<real>, order: seq<nat>)
    requires Fractional(keys) && Below(order, |keys|)
    ensures 0.0 <= TotalAlong(keys, order) <= |order| as real
    ensures order != [] ==> TotalAlong(keys, order) < |order| as real
  {
    if order != [] {
      AlongBound(keys, order[..|order| - 1]);
    }
  }

  lemma {:induction false} AlongZeros(keys: seq<real>, order: seq<nat>, j: nat)
    requires Below(order, |keys|) && j <= |order|
    requires forall i :: j <= i < |order| ==> keys[order[i]] == 0.0
    ensures TotalAlong(keys, order) == TotalAlong(keys, order[..j])
  {
    if j == |order| {
      assert order[..j] == order;
    } else {
      var init := order[..|order| - 1];
      assert init[..j] == order[..j];
      AlongZeros(keys, init, j);
    }
  }

  /** There are more non-zero fractions than slots to hand out, and they come first. */
  lemma LeadersPositive(keys: seq<real>, order: seq<nat>, remainder: int, j: nat)
    requires Fractional(keys) && Below(order, |keys|) && Sorted(keys, order)
    requires remainder as real == TotalAlong(keys, order) && j < remainder && j < |order|
    ensures keys[order[j]] > 0.0
  {
    if keys[order[j]] == 0.0 {
      forall i | j <= i < |order| ensures keys[order[i]] == 0.0 {
        assert i > j ==> Before(keys, order[j], order[i]);
      }
      AlongZeros(keys, order, j);
      AlongBound(keys, order[..j]);
    }
  }

  // ----- _allocate_bucket_counts

  function Share(pool: int, weight: real, total: real): real
    requires total != 0.0
  {
    pool as real * weight / total
  }

  function Trunc(x: real): int {
    if x >= 0.0 then x.Floor else -(-x).Floor
  }

  function Shares(pool: int, weights: seq<real>, total: real): (r: seq<real>)
    requires total != 0.0
    ensures |r| == |weights| && forall k :: 0 <= k < |r| ==> r[k] == Share(pool, weights[k], total)
  {
    seq(|weights|, k requires 0 <= k < |weights| => Share(pool, weights[k], total))
  }

  function Whole(shares: seq<real>): (r: seq<int>)
    ensures |r| == |shares| && forall k :: 0 <= k < |r| ==> r[k] == Trunc(shares[k])
  {
    seq(|shares|, k requires 0 <= k < |shares| => Trunc(shares[k]))
  }

  function Fractions(shares: seq<real>): (r: seq<real>)
    ensures |r| == |shares| && forall k :: 0 <= k < |r| ==> r[k] == shares[k] - Trunc(shares[k]) as real
  {
    seq(|shares|, k requires 0 <= k < |shares| => shares[k] - Trunc(shares[k]) as real)
  }

  function Times(x: real, y: real): real {
    x * y
  }

  lemma {:induction false} SharesTotal(pool: int, weights: seq<real>, total: real)
    requires total != 0.0
    ensures Times(Total(Shares(pool, weights, total)), total) == Times(pool as real, Total(weights))
  {
    if weights != [] {
      var n := |weights| - 1;
      SharesTotal(pool, weights[..n], total);
      assert Shares(pool, weights, total)[..n] == Shares(pool, weights[..n], total);
      assert Share(pool, weights[n], total) * total == pool as real * weights[n];
    }
  }

  lemma {:induction false} WholeAndFractions(shares: seq<real>)
    ensures Total(shares) == Sum(Whole(shares)) as real + Total(Fractions(shares))
  {
    if shares != [] {
      var n := |shares| - 1;
      WholeAndFractions(shares[..n]);
      assert Whole(shares)[..n] == Whole(shares[..n]);
      assert Fractions(shares)[..n] == Fractions(shares[..n]);
    }
  }

  ghost predicate NonNegative(weights: seq<real>) {
    forall k :: 0 <= k < |weights| ==> weights[k] >= 0.0
  }

  lemma SharesSumToPool(pool: int, weights: seq<real>)
    requires Total(weights) > 0.0
    ensures Total(Shares(pool, weights, Total(weights))) == pool as real
  {
    SharesTotal(pool, weights, Total(weights));
    Cancel(Total(Shares(pool, weights, Total(weights))), pool as real, Total(weights));
  }

  lemma Cancel(x: real, y: real, z: real)
    requires Times(x, z) == Times(y, z) && z != 0.0
    ensures x == y
  {
    assert (x - y) * z == 0.0;
  }

  lemma SharesNonNegative(pool: int, weights: seq<real>, total: real)
    requires pool >= 0 && NonNegative(weights) && total > 0.0
    ensures NonNegative(Shares(pool, weights, total))
  {
    forall k | 0 <= k < |weights| ensures Share(pool, weights[k], total) >= 0.0 {
      ShareNonNegative(pool, weights[k], total);
    }
  }

  lemma ShareNonNegative(pool: int, weight: real, total: real)
    requires pool >= 0 && weight >= 0.0 && total > 0.0
    ensures Share(pool, weight, total) >= 0.0
  {
    assert pool as real * weight >= 0.0;
  }

  /** A Python slice order[:n], n of either sign. */
  function Prefix(order: seq<nat>, n: int): seq<nat> {
    if n >= |order| then order else if n >= 0 then order[..n] else if |order| + n >= 0 then order[..|order| + n] else []
  }

  /** All slots are handed out, each count is its exact share rounded down or up, never up from a whole
      share, and rounded up where the fractions are largest. */
  ghost predicate LargestRemainder(shares: seq<real>, pool: int, counts: seq<int>) {
    && |counts| == |shares| && Sum(counts) == pool
    && (forall b :: 0 <= b < |counts| ==> shares[b].Floor <= counts[b] <= shares[b].Floor + 1)
    && (forall b :: 0 <= b < |counts| && counts[b] != shares[b].Floor ==> shares[b] != shares[b].Floor as real)
    && (forall b: nat, c: nat :: b < |counts| && c < |counts| && counts[b] != shares[b].Floor && counts[c] == shares[c].Floor
          ==> Before(Fractions(shares), b, c))
  }

  function Chosen(shares: seq<real>, pool: int): (r: seq<nat>)
    ensures Below(r, |shares|) && r <= Order(Fractions(shares), |shares|)
  {
    Prefix(Order(Fractions(shares), |shares|), pool - Sum(Whole(shares)))
  }

  /** The truncated shares, with one more slot for each bucket in `chosen`. */
  ghost predicate Bumped(shares: seq<real>, chosen: seq<nat>, counts: seq<int>) {
    && |counts| == |shares| && Sum(counts) == Sum(Whole(shares)) + |chosen|
    && (forall b: nat :: b < |counts| ==> counts[b] == Trunc(shares[b]) + if b in chosen then 1 else 0)
  }

  lemma ChosenBefore(keys: seq<real>, order: seq<nat>, m: nat, b: nat, c: nat)
    requires Below(order, |keys|) && Sorted(keys, order) && m <= |order| && b in order[..m] && c in order && c !in order[..m]
    ensures Before(keys, b, c)
  {
    var j :| 0 <= j < m && order[j] == b;
    var l :| 0 <= l < |order| && order[l] == c;
    assert l >= m;
  }

  /** The remainder is the fractions' sum, so the chosen prefix is that long and has only non-zero ones. */
  lemma ChosenLeaders(shares: seq<real>, pool: int)
    requires NonNegative(shares) && Total(shares) == pool as real
    ensures |Chosen(shares, pool)| == pool - Sum(Whole(shares))
    ensures forall b: nat :: b in Chosen(shares, pool) ==> Fractions(shares)[b] > 0.0
  {
    var keys := Fractions(shares);
    var order := Order(keys, |shares|);
    var remainder := pool - Sum(Whole(shares));
    WholeAndFractions(shares);
    OrderAlong(keys, |shares|);
    assert keys[..|shares|] == keys;
    AlongBound(keys, order);
    assert Chosen(shares, pool) == order[..remainder];
    forall b: nat | b in order[..remainder] ensures keys[b] > 0.0 {
      var j :| 0 <= j < remainder && order[j] == b;
      LeadersPositive(keys, order, remainder, j);
    }
  }

  /** Bumping the first buckets of the order meets the specification. */
  lemma BumpedIsLargestRemainder(shares: seq<real>, pool: int, counts: seq<int>)
    requires NonNegative(shares) && Total(shares) == pool as real && Bumped(shares, Chosen(shares, pool), counts)
    ensures LargestRemainder(shares, pool, counts)
  {
    ChosenLeaders(shares, pool);
    var keys, chosen := Fractions(shares), Chosen(shares, pool);
    var order := Order(keys, |shares|);
    forall b: nat, c: nat | b in chosen && c < |shares| && c !in chosen ensures Before(keys, b, c) {
      ChosenBefore(keys, order, |chosen|, b, c);
    }
  }

  lemma ChosenDistinct(shares: seq<real>, pool: int, i: nat)
    requires i < |Chosen(shares, pool)|
    ensures Chosen(shares, pool)[i] !in Chosen(shares, pool)[..i]
  {
    var keys := Fractions(shares);
    var order := Order(keys, |shares|);
    forall j | 0 <= j < i ensures order[j] != order[i] {
      assert Before(keys, order[j], order[i]);
    }
  }

  lemma BumpOne(shares: seq<real>, chosen: seq<nat>, i: nat, counts: seq<int>)
    requires i < |chosen| && chosen[i] < |shares| && chosen[i] !in chosen[..i] && Bumped(shares, chosen[..i], counts)
    ensures Bumped(shares, chosen[..i + 1], counts[chosen[i] := counts[chosen[i]] + 1])
  {
    assert chosen[..i + 1] == chosen[..i] + [chosen[i]];
    SumUpdate(counts, chosen[i], counts[chosen[i]] + 1);
  }

  /** The loop that hands out the remaining slots, one to each bucket of the sorted order's prefix. */
  method HandOut(shares: seq<real>, pool: int) returns (counts: seq<int>)
    ensures Bumped(shares, Chosen(shares, pool), counts)
  {
    counts := Whole(shares);
    var chosen := Prefix(Order(Fractions(shares), |shares|), pool - Sum(counts));
    assert chosen == Chosen(shares, pool);
    var i := 0;
    while i < |chosen|
      invariant 0 <= i <= |chosen|
      invariant Bumped(shares, chosen[..i], counts)
    {
      ChosenDistinct(shares, pool, i);
      BumpOne(shares, chosen, i, counts);
      counts := counts[chosen[i] := counts[chosen[i]] + 1];
      i := i + 1;
    }
    assert chosen[..i] == chosen;
  }

  lemma {:induction false} SumOfZeros(s: seq<int>)
    requires forall k :: 0 <= k < |s| ==> s[k] == 0
    ensures Sum(s) == 0
  {
    if s != [] {
      SumOfZeros(s[..|s| - 1]);
    }
  }

  /** Non-negative weights with a positive sum get exactly `pool` slots by largest remainder; weights
      that sum to nothing get none. So the counts sum to `pool` exactly when there is weight, or
      nothing to hand out. */
  method AllocateBucketCounts(pool: int, weights: seq<real>) returns (counts: seq<int>)
    ensures |counts| == |weights|
    ensures Total(weights) <= 0.0 ==> forall b :: 0 <= b < |counts| ==> counts[b] == 0
    ensures pool >= 0 && NonNegative(weights) && Total(weights) > 0.0
      ==> LargestRemainder(Shares(pool, weights, Total(weights)), pool, counts)
    ensures pool >= 0 && NonNegative(weights) ==> (Sum(counts) == pool <==> Total(weights) > 0.0 || pool == 0)
  {
    var total := Total(weights);
    if total <= 0.0 {
      counts := seq(|weights|, _ => 0);
      SumOfZeros(counts);
      return;
    }
    var shares := Shares(pool, weights, total);
    counts := HandOut(shares, pool);
    if pool >= 0 && NonNegative(weights) {
      SharesNonNegative(pool, weights, total);
      SharesSumToPool(pool, weights);
      BumpedIsLargestRemainder(shares, pool, counts);
    }
  }

  // ----- _fill_buckets_with_backfill

  function Less(m: int, n: int): int {
    if m < n then m else n
  }

  /** The length of a Python slice pool[:target], a target of either sign. */
  function Cut(len: nat, target: int): nat {
    if target >= len then len else if target >= 0 then target else if len + target >= 0 then len + target else 0
  }

  function Lens<T>(pools: seq<seq<T>>): (r: seq<int>)
    ensures |r| == |pools| && forall b :: 0 <= b < |r| ==> r[b] == |pools[b]|
  {
    seq(|pools|, b requires 0 <= b < |pools| => |pools[b]|)
  }

  /** What a bucket gives before any backfill, and what it lacks. */
  function Own<T>(pools: seq<seq<T>>, targets: seq<int>): (r: seq<int>)
    requires |pools| == |targets|
    ensures |r| == |pools| && forall b :: 0 <= b < |r| ==> r[b] == Cut(|pools[b]|, targets[b])
  {
    seq(|pools|, b requires 0 <= b < |pools| => Cut(|pools[b]|, targets[b]))
  }

  function Lacking<T>(pools: seq<seq<T>>, targets: seq<int>): (r: seq<int>)
    requires |pools| == |targets|
    ensures |r| == |pools| && forall b :: 0 <= b < |r| ==> r[b] == if targets[b] > |pools[b]| then targets[b] - |pools[b]| else 0
  {
    seq(|pools|, b requires 0 <= b < |pools| => if targets[b] > |pools[b]| then targets[b] - |pools[b]| else 0)
  }

  /** What the buckets give themselves and what they lack: the sum of the targets, when none is negative. */
  function Wanted<T>(pools: seq<seq<T>>, targets: seq<int>): int
    requires |pools| == |targets|
  {
    Sum(Own(pools, targets)) + Sum(Lacking(pools, targets))
  }

  function SpareKeys<T>(pools: seq<seq<T>>, targets: seq<int>): (r: seq<real>)
    requires |pools| == |targets|
    ensures |r| == |pools| && forall b :: 0 <= b < |r| ==> r[b] == (|pools[b]| - Cut(|pools[b]|, targets[b])) as real
  {
    seq(|pools|, b requires 0 <= b < |pools| => (|pools[b]| - Cut(|pools[b]|, targets[b])) as real)
  }

  lemma {:induction false} WantedIsTargets<T>(pools: seq<seq<T>>, targets: seq<int>)
    requires |pools| == |targets| && forall b :: 0 <= b < |targets| ==> targets[b] >= 0
    ensures Wanted(pools, targets) == Sum(targets)
  {
    if pools != [] {
      var n := |pools| - 1;
      WantedIsTargets(pools[..n], targets[..n]);
      assert Own(pools, targets)[..n] == Own(pools[..n], targets[..n]);
      assert Lacking(pools, targets)[..n] == Lacking(pools[..n], targets[..n]);
    }
  }

  /** Every bucket keeps a prefix of its own pool, its target's worth or more. */
  ghost predicate Prefixes<T>(pools: seq<seq<T>>, targets: seq<int>, taken: seq<seq<T>>) {
    && |pools| == |targets| == |taken|
    && forall b :: 0 <= b < |pools| ==> taken[b] <= pools[b] && |taken[b]| >= Cut(|pools[b]|, targets[b])
  }

  /** A bucket is backfilled only after every bucket before it in the order has given all it has. */
  ghost predicate Greedy<T>(pools: seq<seq<T>>, targets: seq<int>, taken: seq<seq<T>>, order: seq<nat>)
    requires Prefixes(pools, targets, taken) && Below(order, |pools|)
  {
    forall i, j :: 0 <= i < j < |order| && |taken[order[j]]| > Cut(|pools[order[j]]|, targets[order[j]])
      ==> taken[order[i]] == pools[order[i]]
  }

  /** The state of the backfill loop after the buckets in order[..i]. */
  ghost predicate Filling<T>(pools: seq<seq<T>>, targets: seq<int>, taken: seq<seq<T>>, order: seq<nat>, i: nat, shortfall: int) {
    && Prefixes(pools, targets, taken) && Below(order, |pools|) && i <= |order|
    && shortfall >= 0
    && Sum(Lens(taken)) + shortfall == Wanted(pools, targets)
    && (forall j :: i <= j < |order| ==> |taken[order[j]]| == Cut(|pools[order[j]]|, targets[order[j]]))
    && (shortfall > 0 ==> forall j :: 0 <= j < i ==> taken[order[j]] == pools[order[j]])
    && Greedy(pools, targets, taken, order)
  }

  function Extended<T>(pools: seq<seq<T>>, targets: seq<int>, taken: seq<seq<T>>, b: nat, shortfall: int): seq<seq<T>>
    requires |pools| == |targets| == |taken| && b < |pools| && shortfall > 0
  {
    var spare := pools[b][Cut(|pools[b]|, targets[b])..];
    taken[b := taken[b] + spare[..Less(shortfall, |spare|)]]
  }

  lemma FillOne<T>(pools: seq<seq<T>>, targets: seq<int>, taken: seq<seq<T>>, order: seq<nat>, i: nat, shortfall: int)
    requires Filling(pools, targets, taken, order, i, shortfall) && i < |order| && shortfall > 0
    requires forall j, k :: 0 <= j < k < |order| ==> order[j] != order[k]
    ensures var b := order[i];
      var taken' := Extended(pools, targets, taken, b, shortfall);
      Filling(pools, targets, taken', order, i + 1, shortfall - (|taken'[b]| - |taken[b]|))
  {
    var b := order[i];
    var taken' := Extended(pools, targets, taken, b, shortfall);
    SumUpdate(Lens(taken), b, |taken'[b]|);
    assert Lens(taken') == Lens(taken)[b := |taken'[b]|];
  }

  /** The backfill loop: the shortfall goes to the buckets in `order`, as far as their spare supply. */
  method Backfill<T>(pools: seq<seq<T>>, targets: seq<int>, own: seq<seq<T>>, order: seq<nat>, lacking: int)
    returns (taken: seq<seq<T>>)
    requires Filling(pools, targets, own, order, 0, lacking)
    requires forall j, k :: 0 <= j < k < |order| ==> order[j] != order[k]
    ensures exists i: nat, shortfall: int :: Ended(pools, targets, taken, order, i, shortfall)
  {
    taken := own;
    var shortfall := lacking;
    var i := 0;
    while i < |order|
      invariant Filling(pools, targets, taken, order, i, shortfall)
    {
      if shortfall <= 0 {
        break;
      }
      FillOne(pools, targets, taken, order, i, shortfall);
      var b := order[i];
      var spare := pools[b][Cut(|pools[b]|, targets[b])..];
      var extra := spare[..Less(shortfall, |spare|)];
      taken := taken[b := taken[b] + extra];
      shortfall := shortfall - |extra|;
      i := i + 1;
    }
    assert Ended(pools, targets, taken, order, i, shortfall);
  }

  ghost predicate Ended<T>(pools: seq<seq<T>>, targets: seq<int>, taken: seq<seq<T>>, order: seq<nat>, i: nat, shortfall: int) {
    Filling(pools, targets, taken, order, i, shortfall) && (shortfall == 0 || i == |order|)
  }

  /** Each bucket's share of the mix; together min(wanted, supply) candidates. */
  method FillBucketsWithBackfill<T>(pools: seq<seq<T>>, targets: seq<int>) returns (taken: seq<seq<T>>)
    requires |pools| == |targets|
    ensures Prefixes(pools, targets, taken)
    ensures Sum(Lens(taken)) == Less(Wanted(pools, targets), Sum(Lens(pools)))
    ensures Greedy(pools, targets, taken, Order(SpareKeys(pools, targets), |pools|))
  {
    taken := seq(|pools|, b requires 0 <= b < |pools| => pools[b][..Cut(|pools[b]|, targets[b])]);
    var shortfall := Sum(Lacking(pools, targets));
    var order := Order(SpareKeys(pools, targets), |pools|);
    StartsFilling(pools, targets, taken, order, shortfall);
    if shortfall > 0 {
      SortedDistinct(SpareKeys(pools, targets), order);
      taken := Backfill(pools, targets, taken, order, shortfall);
    } else {
      assert Ended(pools, targets, taken, order, 0, shortfall);
    }
    forall i: nat, s: int | Ended(pools, targets, taken, order, i, s) ensures Sum(Lens(taken)) == Less(Wanted(pools, targets), Sum(Lens(pools))) {
      EndTotal(pools, targets, taken, order, i, s);
    }
  }

  lemma StartsFilling<T>(pools: seq<seq<T>>, targets: seq<int>, own: seq<seq<T>>, order: seq<nat>, shortfall: int)
    requires |pools| == |targets| == |own| && Below(order, |pools|) && shortfall == Sum(Lacking(pools, targets))
    requires forall b :: 0 <= b < |pools| ==> own[b] == pools[b][..Cut(|pools[b]|, targets[b])]
    ensures Filling(pools, targets, own, order, 0, shortfall)
  {
    assert Lens(own) == Own(pools, targets);
    SumOfNaturals(Lacking(pools, targets));
  }

  lemma EndTotal<T>(pools: seq<seq<T>>, targets: seq<int>, taken: seq<seq<T>>, order: seq<nat>, i: nat, shortfall: int)
    requires Ended(pools, targets, taken, order, i, shortfall) && forall b: nat :: b < |pools| ==> b in order
    ensures Sum(Lens(taken)) == Less(Wanted(pools, targets), Sum(Lens(pools)))
  {
    AllTaken(pools, taken, order, shortfall);
    SumAtMost(Lens(taken), Lens(pools));
  }

  lemma AllTaken<T>(pools: seq<seq<T>>, taken: seq<seq<T>>, order: seq<nat>, shortfall: int)
    requires |taken| == |pools| && Below(order, |pools|) && forall b: nat :: b < |pools| ==> b in order
    requires shortfall > 0 ==> forall j :: 0 <= j < |order| ==> taken[order[j]] == pools[order[j]]
    ensures shortfall > 0 ==> taken == pools
  {
    forall b: nat | shortfall > 0 && b < |pools| ensures taken[b] == pools[b] {
      assert b in order;
    }
  }

  lemma SortedDistinct(keys: seq<real>, order: seq<nat>)
    requires Below(order, |keys|) && Sorted(keys, order)
    ensures forall j, k :: 0 <= j < k < |order| ==> order[j] != order[k]
  {
    forall j, k | 0 <= j < k < |order| ensures order[j] != order[k] {
      assert Before(keys, order[j], order[k]);
    }
  }

  lemma {:induction false} SumOfNaturals(s: seq<int>)
    requires forall k :: 0 <= k < |s| ==> s[k] >= 0
    ensures Sum(s) >= 0
  {
    if s != [] {
      SumOfNaturals(s[..|s| - 1]);
    }
  }

  // ----- the composed mix

  /** What `n` slots are worth beyond the weight's proportion of the pool, in units of the total weight. */
  function Excess(pool: int, weights: seq<real>, b: nat, n: int): real
    requires b < |weights|
  {
    Times(n as real, Total(weights)) - Times(pool as real, weights[b])
  }

  /** Each bucket's slots are its weight's proportion of the pool rounded down or up, all of them together
      the pool; and a bucket rounded up lacked no more to its last slot than one rounded down lacks to
      one more. */
  ghost predicate Apportioned(pool: int, weights: seq<real>, counts: seq<int>) {
    && |counts| == |weights| && Sum(counts) == pool
    && (forall b: nat :: b < |counts| ==> -Total(weights) < Excess(pool, weights, b, counts[b]) < Total(weights))
    && (forall b: nat, c: nat :: b < |counts| && c < |counts| ==> RoundedFairly(pool, weights, counts, b, c))
  }

  ghost predicate RoundedFairly(pool: int, weights: seq<real>, counts: seq<int>, b: nat, c: nat)
    requires b < |counts| == |weights| && c < |counts|
  {
    Excess(pool, weights, b, counts[b]) > 0.0 > Excess(pool, weights, c, counts[c]) ==> Excess(pool, weights, b, counts[b]) <= Excess(pool, weights, c, counts[c] + 1)
  }

  ghost predicate AllZero(counts: seq<int>) {
    forall b :: 0 <= b < |counts| ==> counts[b] == 0
  }

  lemma ShareTimes(pool: int, weight: real, total: real)
    requires total > 0.0
    ensures Times(Share(pool, weight, total), total) == Times(pool as real, weight)
  {
  }

  lemma Scaled(x: real, y: real, total: real)
    requires total > 0.0
    ensures x < y <==> Times(x, total) < Times(y, total)
  {
    if x < y {
      assert (y - x) * total > 0.0;
    } else {
      assert (x - y) * total >= 0.0;
    }
  }

  lemma ExcessIs(pool: int, weights: seq<real>, b: nat, n: int)
    requires b < |weights| && Total(weights) > 0.0
    ensures Excess(pool, weights, b, n) == Times(n as real - Share(pool, weights[b], Total(weights)), Total(weights))
  {
    var share, total := Share(pool, weights[b], Total(weights)), Total(weights);
    ShareTimes(pool, weights[b], total);
    Distributes(n as real, share, total);
  }

  lemma Distributes(x: real, y: real, z: real)
    ensures Times(x - y, z) == Times(x, z) - Times(y, z)
  {
  }

  lemma TimesOne(z: real)
    ensures Times(1.0, z) == z && Times(-1.0, z) == -z && Times(0.0, z) == 0.0
  {
  }

  lemma ExcessWithin(pool: int, weights: seq<real>, counts: seq<int>, b: nat)
    requires Total(weights) > 0.0 && LargestRemainder(Shares(pool, weights, Total(weights)), pool, counts) && b < |counts|
    ensures -Total(weights) < Excess(pool, weights, b, counts[b]) < Total(weights)
  {
    var total := Total(weights);
    var share := Shares(pool, weights, total)[b];
    ExcessIs(pool, weights, b, counts[b]);
    TimesOne(total);
    assert -1.0 < counts[b] as real - share < 1.0;
    Scaled(-1.0, counts[b] as real - share, total);
    Scaled(counts[b] as real - share, 1.0, total);
  }

  lemma ExcessFair(pool: int, weights: seq<real>, counts: seq<int>, b: nat, c: nat)
    requires pool >= 0 && NonNegative(weights) && Total(weights) > 0.0
    requires LargestRemainder(Shares(pool, weights, Total(weights)), pool, counts) && b < |counts| && c < |counts|
    ensures RoundedFairly(pool, weights, counts, b, c)
  {
    var total := Total(weights);
    var shares := Shares(pool, weights, total);
    SharesNonNegative(pool, weights, total);
    ExcessIs(pool, weights, b, counts[b]);
    ExcessIs(pool, weights, c, counts[c]);
    ExcessIs(pool, weights, c, counts[c] + 1);
    TimesOne(total);
    Scaled(0.0, counts[b] as real - shares[b], total);
    Scaled(counts[c] as real - shares[c], 0.0, total);
    if counts[b] as real > shares[b] && (counts[c] as real) < shares[c] {
      assert counts[b] != shares[b].Floor && counts[c] == shares[c].Floor;
      assert Before(Fractions(shares), b, c);
      assert counts[b] as real - shares[b] <= (counts[c] + 1) as real - shares[c];
      Scaled((counts[c] + 1) as real - shares[c], counts[b] as real - shares[b], total);
    }
  }

  lemma RemainderApportions(pool: int, weights: seq<real>, counts: seq<int>)
    requires pool >= 0 && NonNegative(weights) && Total(weights) > 0.0
    requires LargestRemainder(Shares(pool, weights, Total(weights)), pool, counts)
    ensures Apportioned(pool, weights, counts)
  {
    forall b: nat | b < |counts| ensures -Total(weights) < Excess(pool, weights, b, counts[b]) < Total(weights) {
      ExcessWithin(pool, weights, counts, b);
    }
    forall b: nat, c: nat | b < |counts| && c < |counts| ensures RoundedFairly(pool, weights, counts, b, c) {
      ExcessFair(pool, weights, counts, b, c);
    }
  }

  /** Allocation and backfill together lose no slot that any bucket could fill: for percentages that are
      not negative, with weight to go by, the mix has min(pool size, supply) candidates. */
  method ComposeMix<T>(poolSize: int, weights: seq<real>, pools: seq<seq<T>>) returns (mix: seq<seq<T>>, ghost counts: seq<int>)
    requires |weights| == |pools|
    ensures |counts| == |weights| && Prefixes(pools, counts, mix)
    ensures poolSize >= 0 && NonNegative(weights) ==> if Total(weights) > 0.0 then Apportioned(poolSize, weights, counts) else AllZero(counts)
    ensures poolSize >= 0 && NonNegative(weights) ==> forall b :: 0 <= b < |pools| ==> |mix[b]| >= Less(counts[b], |pools[b]|)
    ensures |mix| == |pools| && forall b :: 0 <= b < |pools| ==> mix[b] <= pools[b]
    ensures poolSize >= 0 && NonNegative(weights)
      ==> Sum(Lens(mix)) == if Total(weights) > 0.0 then Less(poolSize, Sum(Lens(pools))) else 0
  {
    var targets := AllocateBucketCounts(poolSize, weights);
    counts := targets;
    if poolSize >= 0 && NonNegative(weights) {
      SumOfNaturals(Lens(pools));
      if Total(weights) > 0.0 {
        SharesNonNegative(poolSize, weights, Total(weights));
        RemainderApportions(poolSize, weights, counts);
      } else {
        SumOfZeros(targets);
      }
      WantedIsTargets(pools, targets);
    }
    mix := FillBucketsWithBackfill(pools, targets);
  }
}
