/** Job budgets by running division, and the materialisation of random seeds. */
module Budgets {
  import opened Common
  import D = Decimals
  import P = Parameters

  // ---------- budgets ----------

  /** The sizes before the first empty axis. */
  function BeforeZero(sizes: seq<nat>): (r: seq<nat>)
    ensures |r| <= |sizes| && r == sizes[..|r|] && 0 !in r
    ensures |r| < |sizes| ==> sizes[|r|] == 0
  {
    if sizes == [] || sizes[0] == 0 then [] else [sizes[0]] + BeforeZero(sizes[1..])
  }

  /** The loop of check_materialization_budget: the count never passes the maximum. */
  method CheckBudget(sizes: seq<nat>, maxJobs: nat) returns (accepted: bool)
    requires maxJobs >= 1
    ensures accepted <==> P.Product(BeforeZero(sizes)) <= maxJobs
  {
    ghost var before := BeforeZero(sizes);
    var count := 1;
    for i := 0 to |sizes|
      invariant count == P.Product(sizes[..i]) <= maxJobs
      invariant i >= |before| ==> P.Product(before) <= maxJobs
    {
      var size := sizes[i];
      NextProduct(sizes, i);
      if size != 0 {
        P.QuotientBound(maxJobs, size, count);
        if count > maxJobs / size {
          TooManyBefore(sizes, i + 1, maxJobs);
          return false;
        }
      }
      count := count * size;
      if i + 1 == |before| { assert before == sizes[..i + 1]; }
    }
    return true;
  }

  lemma NextProduct(sizes: seq<nat>, i: nat)
    requires i < |sizes|
    ensures P.Product(sizes[..i + 1]) == P.Product(sizes[..i]) * sizes[i]
  {
    ProductAppend(sizes[..i], sizes[i]);
    assert sizes[..i + 1] == sizes[..i] + [sizes[i]];
  }

  lemma {:induction false} ProductAppend(a: seq<nat>, x: nat)
    ensures P.Product(a + [x]) == P.Product(a) * x
  {
    if a == [] {
      assert [x][1..] == [];
    } else {
      ProductAppend(a[1..], x);
      assert (a + [x])[1..] == a[1..] + [x];
      Associative(a[0], P.Product(a[1..]), x);
    }
  }

  lemma Associative(a: int, b: int, c: int)
    ensures a * (b * c) == (a * b) * c
  {
  }

  lemma {:induction false} ProductConcat(a: seq<nat>, b: seq<nat>)
    ensures P.Product(a + b) == P.Product(a) * P.Product(b)
  {
    if a == [] {
      assert a + b == b;
    } else {
      ProductConcat(a[1..], b);
      assert (a + b)[1..] == a[1..] + b;
      Associative(a[0], P.Product(a[1..]), P.Product(b));
    }
  }

  lemma {:induction false} ProductPositive(a: seq<nat>)
    ensures P.Product(a) >= 1 <==> 0 !in a
    ensures P.Product(a) == 0 <==> 0 in a
  {
    if a != [] {
      ProductPositive(a[1..]);
      assert a == [a[0]] + a[1..];
      if a[0] >= 1 && P.Product(a[1..]) >= 1 { P.MulMonotone(1, a[0], P.Product(a[1..])); }
    }
  }

  /** A prefix of positive sizes has at most the product of all of them. */
  lemma PrefixAtMost(sizes: seq<nat>, i: nat)
    requires i <= |sizes| && 0 !in sizes
    ensures P.Product(sizes[..i]) <= P.Product(sizes)
  {
    ProductConcat(sizes[..i], sizes[i..]);
    assert sizes[..i] + sizes[i..] == sizes;
    ProductPositive(sizes[i..]);
    P.MulMonotone(1, P.Product(sizes[i..]), P.Product(sizes[..i]));
  }

  lemma ZeroInPrefix(sizes: seq<nat>, i: nat)
    requires |BeforeZero(sizes)| < i <= |sizes|
    ensures P.Product(sizes[..i]) == 0
  {
    assert sizes[..i][|BeforeZero(sizes)|] == 0;
    ProductPositive(sizes[..i]);
  }

  lemma TooManyBefore(sizes: seq<nat>, i: nat, maxJobs: nat)
    requires i <= |sizes| && P.Product(sizes[..i]) > maxJobs
    ensures P.Product(BeforeZero(sizes)) > maxJobs
  {
    var before := BeforeZero(sizes);
    if |before| < i {
      ZeroInPrefix(sizes, i);
    } else {
      assert before[..i] == sizes[..i];
      PrefixAtMost(before, i);
    }
  }

  /** With no empty axis the loop accepts exactly when the full product is within the maximum. */
  lemma PositiveIsExact(sizes: seq<nat>)
    requires 0 !in sizes
    ensures BeforeZero(sizes) == sizes
  {
  }

  /** An empty axis behind a large one: no combination at all, and still refused. */
  lemma EmptyAxisRefused()
    ensures P.Product([10_001, 0]) <= 10_000 && P.Product(BeforeZero([10_001, 0])) > 10_000
  {
    assert [10_001, 0][1..] == [0] && [0][1..] == [];
    assert P.Product([0]) == 0;
    assert P.Product([10_001, 0]) == 10_001 * P.Product([0]);
    assert BeforeZero([0]) == [] && BeforeZero([10_001, 0]) == [10_001] + BeforeZero([0]);
    assert [10_001][1..] == [];
  }

  /** The loop and the full product disagree exactly when some axis is empty and the ones before the
      first empty one are already too many. */
  lemma BudgetIsExact(sizes: seq<nat>, maxJobs: nat)
    ensures (P.Product(BeforeZero(sizes)) <= maxJobs <==> P.Product(sizes) <= maxJobs)
      <==> !(0 in sizes && P.Product(BeforeZero(sizes)) > maxJobs)
  {
    ProductPositive(sizes);
    if 0 !in sizes { PositiveIsExact(sizes); }
  }

  /** Later the linked rows are divided out of the maximum first; for axes without an empty one that
      is the same bound as the product over everything. */
  lemma DividedBudgetAgrees(counts: seq<nat>, rows: seq<nat>, maxJobs: nat)
    requires 0 !in counts && 0 !in rows
    ensures P.Product(rows) >= 1
    ensures P.Product(counts) <= maxJobs / P.Product(rows) <==> P.Product(BeforeZero(counts + rows)) <= maxJobs
  {
    ProductPositive(rows);
    P.QuotientBound(maxJobs, P.Product(rows), P.Product(counts));
    ProductConcat(counts, rows);
    assert 0 !in counts + rows;
    PositiveIsExact(counts + rows);
  }

  /** An intent that counts has at least one alternative, so a validated definition has no empty axis. */
  lemma CountedAxesPositive(definitions: map<string, ValueType>, intents: seq<P.Intent>)
    requires P.AllCountable(definitions, intents)
    ensures 0 !in P.AxisSizes(definitions, intents)
  {
    forall i | 0 <= i < |intents| ensures P.AxisSizes(definitions, intents)[i] >= 1 {
      AxisPositive(definitions, intents[i]);
    }
  }

  /** check_materialization_budget for a definition whose linked sets all have rows, as every definition
      that reaches it does: the full product decides. */
  lemma DefinitionBudget(definitions: map<string, ValueType>, intents: seq<P.Intent>, rows: seq<nat>, maxJobs: nat)
    requires P.AllCountable(definitions, intents) && 0 !in rows
    ensures var sizes := P.AxisSizes(definitions, intents) + rows;
      && 0 !in sizes
      && BeforeZero(sizes) == sizes
      && (P.Product(BeforeZero(sizes)) <= maxJobs <==>
          P.Combinations(definitions, intents) * P.Product(rows) <= maxJobs)
  {
    hide P.AllCountable, P.AxisSizes;
    CountedAxesPositive(definitions, intents);
    ProductConcat(P.AxisSizes(definitions, intents), rows);
    PositiveIsExact(P.AxisSizes(definitions, intents) + rows);
  }

  /** The counts of the intents, then the numbers of linked rows, against the maximum. */
  method CheckMaterializationBudget(parameters: seq<P.WorkflowParameter>, intents: seq<P.Intent>, rows: seq<nat>,
                                    maxJobs: nat)
    returns (accepted: bool)
    requires maxJobs >= 1
    ensures accepted ==> P.AllCountable(P.Definitions(parameters), intents)
    ensures P.AllCountable(P.Definitions(parameters), intents) && 0 !in rows ==>
      (accepted <==> P.Combinations(P.Definitions(parameters), intents) * P.Product(rows) <= maxJobs)
  {
    hide P.Definitions, P.AllCountable, P.Product, P.Combinations;
    var counts := P.BindingCounts(parameters, intents);
    if counts.Err? {
      return false;
    }
    P.CountsAreSizes(P.Definitions(parameters), intents, counts.value);
    if 0 !in rows { DefinitionBudget(P.Definitions(parameters), intents, rows, maxJobs); }
    accepted := CheckBudget(P.Sizes(counts.value) + rows, maxJobs);
  }

  lemma AxisPositive(definitions: map<string, ValueType>, intent: P.Intent)
    requires intent.key in definitions && P.Countable(definitions[intent.key], intent)
    ensures P.SizeOrZero(definitions, intent) >= 1
  {
    hide P.MetaOf, P.AtScale, D.Parse;
    var t := definitions[intent.key];
    if intent.RangeIntent? {
      P.MetaFacts(t, D.Parse(intent.range.start), D.Parse(intent.range.end), D.Parse(intent.range.step));
    }
  }

  /** Dividing the smaller of the maximum and the seed space by the seed count bounds the whole preview. */
  lemma PreviewBudget(jobs: nat, seeds: nat, maxJobs: nat)
    requires seeds >= 1
    ensures var bound := if maxJobs < SEED_SPACE then maxJobs else SEED_SPACE;
      jobs <= bound / seeds <==> jobs * seeds <= maxJobs && jobs * seeds <= SEED_SPACE
  {
    P.QuotientBound(if maxJobs < SEED_SPACE then maxJobs else SEED_SPACE, seeds, jobs);
  }

  // ---------- random seeds ----------

  /** 2 ** 53 */
  const SEED_SPACE: nat := 0x20_0000_0000_0000

  /** The distinct values of a stream, in order of first occurrence. */
  function FirstDistinct(draws: seq<int>): seq<int> {
    if draws == [] then []
    else
      var earlier, last := FirstDistinct(draws[..|draws| - 1]), draws[|draws| - 1];
      if last in earlier then earlier else earlier + [last]
  }

  /** Where x first occurs. */
  function FirstAt(draws: seq<int>, x: int): (i: nat)
    requires x in draws
    ensures i < |draws| && draws[i] == x && x !in draws[..i]
  {
    if draws[0] == x then 0
    else
      assert draws == [draws[0]] + draws[1..];
      var i := FirstAt(draws[1..], x);
      assert forall j :: 0 < j <= i ==> draws[j] == draws[1..][j - 1];
      i + 1
  }

  lemma {:induction false} DistinctMembers(draws: seq<int>)
    ensures forall x :: x in FirstDistinct(draws) <==> x in draws
    ensures forall i, j :: 0 <= i < j < |FirstDistinct(draws)| ==> FirstDistinct(draws)[i] != FirstDistinct(draws)[j]
  {
    if draws != [] {
      var init, last := draws[..|draws| - 1], draws[|draws| - 1];
      DistinctMembers(init);
      assert draws == init + [last];
    }
  }

  /** FirstDistinct keeps each value once, and in the order in which the values first occur. */
  lemma {:induction false} DistinctOrder(draws: seq<int>, i: nat, j: nat)
    requires i < j < |FirstDistinct(draws)|
    ensures FirstDistinct(draws)[i] in draws && FirstDistinct(draws)[j] in draws
    ensures FirstAt(draws, FirstDistinct(draws)[i]) < FirstAt(draws, FirstDistinct(draws)[j])
  {
    DistinctMembers(draws);
    var init, last := draws[..|draws| - 1], draws[|draws| - 1];
    var all, earlier := FirstDistinct(draws), FirstDistinct(init);
    DistinctMembers(init);
    FirstAtPrefix(draws, all[i], |draws| - 1);
    if j < |earlier| {
      DistinctOrder(init, i, j);
      FirstAtPrefix(draws, all[j], |draws| - 1);
    } else {
      assert all[j] == last && last !in init;
    }
  }

  lemma {:induction false} FirstAtUnique(draws: seq<int>, x: int, k: nat)
    requires k < |draws| && draws[k] == x && x !in draws[..k]
    ensures FirstAt(draws, x) == k
  {
    if k > 0 {
      assert draws[..k][0] == draws[0];
      assert draws[..k] == [draws[0]] + draws[1..][..k - 1];
      FirstAtUnique(draws[1..], x, k - 1);
    }
  }

  lemma FirstAtPrefix(draws: seq<int>, x: int, n: nat)
    requires n <= |draws| && x in draws[..n]
    ensures x in draws && FirstAt(draws, x) == FirstAt(draws[..n], x)
  {
    var j := FirstAt(draws[..n], x);
    assert draws[..n][..j] == draws[..j];
    FirstAtUnique(draws, x, j);
  }

  datatype Seeds = Seeds(seeds: seq<int>) | NegativeCount | TooManySeeds | OutOfRange | NeedsMore

  predicate InSpace(draw: int) { 0 <= draw < SEED_SPACE }

  ghost predicate AllInSpace(draws: seq<int>) { forall i :: 0 <= i < |draws| ==> InSpace(draws[i]) }

  /** materialize_random_seeds over the draws that the source would make. */
  method MaterializeSeeds(count: int, draws: seq<int>) returns (r: Seeds)
    ensures r.NegativeCount? <==> count < 0
    ensures r.TooManySeeds? <==> count > SEED_SPACE
    ensures r.Seeds? ==> exists n :: 0 <= n <= |draws| && r.seeds == FirstDistinct(draws[..n]) && AllInSpace(draws[..n])
    ensures r.Seeds? ==> |r.seeds| == count
    ensures 0 <= count <= SEED_SPACE ==>
      (r.Seeds? <==> exists n :: 0 <= n <= |draws| && AllInSpace(draws[..n]) && |FirstDistinct(draws[..n])| >= count)
    ensures r.OutOfRange? ==> exists n :: 0 <= n < |draws| && !InSpace(draws[n]) && |FirstDistinct(draws[..n])| < count
  {
    if count < 0 {
      return NegativeCount;
    }
    if count > SEED_SPACE {
      return TooManySeeds;
    }
    var seeds: seq<int> := [];
    var used: set<int> := {};
    var n := 0;
    while |seeds| < count
      invariant n <= |draws| && |seeds| <= count
      invariant seeds == FirstDistinct(draws[..n])
      invariant used == set x | x in seeds
      invariant AllInSpace(draws[..n])
      decreases |draws| - n
    {
      if n == |draws| {
        NotEnough(draws, count, n);
        return NeedsMore;
      }
      var seed := draws[n];
      assert draws[..n + 1][..n] == draws[..n];
      if !InSpace(seed) {
        NotEnough(draws, count, n);
        return OutOfRange;
      }
      n := n + 1;
      if seed in used {
        continue;
      }
      used := used + {seed};
      seeds := seeds + [seed];
    }
    return Seeds(seeds);
  }

  /** If the first n draws are too few and the next one is unusable, no usable prefix is enough. */
  lemma NotEnough(draws: seq<int>, count: nat, n: nat)
    requires n <= |draws| && |FirstDistinct(draws[..n])| < count && (n == |draws| || !InSpace(draws[n]))
    ensures forall m :: 0 <= m <= |draws| && AllInSpace(draws[..m]) ==> |FirstDistinct(draws[..m])| < count
  {
    forall m | 0 <= m <= |draws| && AllInSpace(draws[..m]) ensures |FirstDistinct(draws[..m])| < count {
      if m > n { PrefixInSpace(draws, m, n); }
      DistinctGrows(draws, m, n);
    }
  }

  lemma PrefixInSpace(draws: seq<int>, m: nat, n: nat)
    requires n < m <= |draws| && AllInSpace(draws[..m])
    ensures InSpace(draws[n])
  {
    assert draws[..m][n] == draws[n];
  }

  lemma {:induction false} DistinctGrows(draws: seq<int>, m: nat, n: nat)
    requires m <= n <= |draws|
    ensures |FirstDistinct(draws[..m])| <= |FirstDistinct(draws[..n])|
  {
    if m < n {
      DistinctGrows(draws, m, n - 1);
      assert draws[..n][..n - 1] == draws[..n - 1];
    }
  }
}
