/** The list of blows a lasting damage is dealt in: from `start` down to 1, each value as often as brings
    the sum closer to its share of the whole. Rationals stand for the floating point numbers. */
module DamageList {
  import Arithmetic

  function Abs(a: int): nat
  {
    if a < 0 then -a else a
  }

  function AbsReal(x: real): real
  {
    if x < 0.0 then -x else x
  }

  function Sum(l: seq<int>): int
  {
    if l == [] then 0 else Sum(l[..|l| - 1]) + l[|l| - 1]
  }

  predicate Falling(l: seq<int>)
  {
    forall i, j :: 0 <= i < j < |l| ==> l[i] >= l[j]
  }

  /** The sum of the elements that are at least `i`. */
  function SumFrom(l: seq<int>, i: int): int
  {
    if l == [] then 0 else SumFrom(l[..|l| - 1], i) + if l[|l| - 1] >= i then l[|l| - 1] else 0
  }

  /** How often a value is dealt. */
  function Times(l: seq<int>, v: int): nat
  {
    if l == [] then 0 else Times(l[..|l| - 1], v) + if l[|l| - 1] == v then 1 else 0
  }

  /** 1 + 2 + ... + n: what is dealt when each value up to `n` comes once. */
  function Once(n: nat): nat
  {
    if n == 0 then 0 else n + Once(n - 1)
  }

  lemma {:induction false} OnceIs(n: nat)
    ensures 2 * Once(n) == n * (n + 1)
  {
    if n > 0 {
      OnceIs(n - 1);
    }
  }

  function Max(a: int, b: int): int
  {
    if a < b then b else a
  }

  /** How far a sum is off its share, measured as the program does. */
  function Miss(sum: int, med: int): real
    requires med != 0
  {
    AbsReal(1.0 - sum as real / med as real)
  }

  /** Adding `i` once more brings the sum closer to its share. */
  predicate Closer(sum: int, i: int, med: int)
  {
    med != 0 && Miss(sum + i, med) < Miss(sum, med)
  }

  /** Closer means that less than twice the distance is added. */
  lemma {:induction false} CloserIs(sum: int, i: int, med: int)
    requires 0 < i && 0 <= med
    ensures Closer(sum, i, med) <==> 2 * (med - sum) > i && med != 0
  {
    hide Miss;
    if med > 0 {
      Ratio(sum, med);
      Ratio(sum + i, med);
      Scaled(Miss(sum + i, med), Miss(sum, med), med as real, Abs(med - (sum + i)), Abs(med - sum));
    }
  }

  lemma {:induction false} Scaled(x: real, y: real, m: real, a: int, b: int)
    requires m > 0.0 && x * m == a as real && y * m == b as real
    ensures x < y <==> a < b
  {
    if x < y {
      assert (y - x) * m > 0.0;
    } else {
      assert (x - y) * m >= 0.0;
    }
  }

  lemma {:induction false} Ratio(a: int, med: int)
    requires med > 0
    ensures Miss(a, med) * med as real == Abs(med - a) as real
  {
    var m, q := med as real, a as real / med as real;
    assert q * m == a as real;
    assert (1.0 - q) * m == m - a as real;
  }

  /** A share of the whole: what the first `n` of `start` steps should have dealt. */
  function Share(n: nat, amount: nat, start: nat): nat
    requires start > 0
  {
    n * amount / start
  }

  lemma {:induction false} ShareBound(n: nat, amount: nat, start: nat)
    requires start > 0
    ensures Share(n, amount, start) * start <= n * amount
  {
  }

  lemma {:induction false} Cancel(a: int, b: int, k: int)
    requires k > 0 && a * k <= b * k
    ensures a <= b
  {
  }

  /** If a value is worth adding again, there is so much to deal that all that is left still fits afterwards. */
  lemma {:induction false} AgainFits(amount: nat, start: nat, i: nat, sum: int)
    requires 1 <= i <= start && sum >= Once(start) - Once(i - 1)
    requires 2 * (Share(start + 1 - i, amount, start) - sum) > i
    ensures sum + i + Once(i - 1) <= amount
  {
    hide Share, Once;
    var n, med := start + 1 - i, Share(start + 1 - i, amount, start);
    ShareBound(n, amount, start);
    OnceFrom(start, i);
    assert 2 * med > n * (start + i);
    Plenty(amount, start, i, n, med);
    Fits(amount, start, i, n, med);
    OnceIs(i - 1);
    Remains(i, Once(i - 1), sum, med, amount);
  }

  /** The sum of all values from `i` up. */
  lemma {:induction false} OnceFrom(start: nat, i: nat)
    requires 1 <= i <= start
    ensures 2 * (Once(start) - Once(i - 1)) == (start + 1 - i) * (start + i)
  {
    hide Once;
    OnceIs(start);
    OnceIs(i - 1);
  }

  lemma {:induction false} Remains(i: nat, o: nat, sum: int, med: nat, amount: nat)
    requires i >= 1 && 2 * o == (i - 1) * i && 2 * (med - sum) > i && 2 * med + (i - 1) * (i + 1) <= 2 * amount
    ensures sum + i + o <= amount
  {
  }

  lemma {:induction false} Plenty(amount: nat, start: nat, i: nat, n: nat, med: nat)
    requires 1 <= i <= start && n == start + 1 - i && med * start <= n * amount
    requires 2 * med > n * (start + i)
    ensures start * (i + 1) <= 2 * amount
  {
    assert n * (start + i) * start <= 2 * med * start <= 2 * (n * amount);
    assert (start * (start + i)) * n <= (2 * amount) * n;
    Cancel(start * (start + i), 2 * amount, n);
    assert start * (i + 1) <= start * (start + i);
  }

  lemma {:induction false} Fits(amount: nat, start: nat, i: nat, n: nat, med: nat)
    requires 1 <= i <= start && n == start + 1 - i && med * start <= n * amount
    requires start * (i + 1) <= 2 * amount
    ensures 2 * med + (i - 1) * (i + 1) <= 2 * amount
  {
    var k := i - 1;
    Weigh(k, i + 1, start, amount);
    Spread(med, k * (i + 1), start, n, k, amount);
    Cancel(2 * med + k * (i + 1), 2 * amount, start);
  }

  lemma {:induction false} Weigh(k: nat, b: nat, start: nat, amount: nat)
    requires start * b <= 2 * amount
    ensures k * b * start <= k * (2 * amount)
  {
    assert k * b * start == k * (start * b);
  }

  lemma {:induction false} Spread(med: nat, c: nat, start: nat, n: nat, k: nat, amount: nat)
    requires med * start <= n * amount && c * start <= k * (2 * amount) && n + k == start
    ensures (2 * med + c) * start <= 2 * amount * start
  {
    assert (2 * med + c) * start == 2 * (med * start) + c * start;
    assert 2 * amount * start == 2 * (n * amount) + k * (2 * amount);
  }

  /** How far the list has come once all values from `i` up have been dealt: either each of them once, or
      few enough that the rest fits into the amount. */
  predicate Dealt(amount: nat, start: nat, i: nat, sum: int)
    requires i > 0
  {
    && sum >= Once(start) - Once(i - 1)
    && (sum == Once(start) - Once(i - 1) || sum + Once(i - 1) <= amount)
  }

  lemma {:induction false} SumAppend(l: seq<int>, i: int)
    ensures Sum(l + [i]) == Sum(l) + i
  {
    assert (l + [i])[..|l|] == l;
  }

  lemma {:induction false} DealtFirst(amount: nat, start: nat, i: nat, sum: int)
    requires 1 <= i <= start && Dealt(amount, start, i + 1, sum)
    ensures Dealt(amount, start, i, sum + i)
  {
  }

  lemma {:induction false} DealtAgain(amount: nat, start: nat, i: nat, sum: int)
    requires 1 <= i <= start && Dealt(amount, start, i, sum)
    requires 2 * (Share(start + 1 - i, amount, start) - sum) > i
    ensures Dealt(amount, start, i, sum + i)
  {
    AgainFits(amount, start, i, sum);
  }

  lemma {:induction false} ShareAll(amount: nat, start: nat)
    requires start > 0
    ensures Share(start, amount, start) == amount
  {
    assert start * amount == amount * start;
    Arithmetic.DivExact(amount, start);
  }

  /** The values of the list so far, the last of them `i`. */
  predicate EndsIn(list: seq<int>, list0: seq<int>, i: int)
  {
    |list0| < |list| && list[..|list0|] == list0 && forall k :: |list0| <= k < |list| ==> list[k] == i
  }

  lemma {:induction false} OneMore(list: seq<int>, list0: seq<int>, i: int)
    requires list == list0 || EndsIn(list, list0, i)
    requires Falling(list) && forall k :: 0 <= k < |list| ==> list[k] >= i
    ensures EndsIn(list + [i], list0, i) && Falling(list + [i]) && Sum(list + [i]) == Sum(list) + i
    ensures forall k :: 0 <= k < |list + [i]| ==> (list + [i])[k] >= i
  {
    SumAppend(list, i);
    assert (list + [i])[..|list0|] == list[..|list0|];
  }

  /** The values from `i` up come as near to their share as adding `i` brings them, and `i` is dealt again only
      while that brings them nearer. */
  ghost predicate Shared(amount: nat, start: nat, list: seq<int>, i: int)
    requires 1 <= i <= start
  {
    var sum, med := SumFrom(list, i), Share(start + 1 - i, amount, start);
    && (med == 0 || 2 * (med - sum) <= i)
    && (Times(list, i) > 1 ==> 2 * (med - (sum - i)) > i)
  }

  lemma {:induction false} AppendFrom(l: seq<int>, i: int, v: int)
    ensures SumFrom(l + [v], i) == SumFrom(l, i) + if v >= i then v else 0
    ensures Times(l + [v], i) == Times(l, i) + if v == i then 1 else 0
  {
    assert (l + [v])[..|l|] == l;
  }

  /** When all are at least `i`, all count; what is nowhere in the list is dealt no time. */
  lemma {:induction false} AllFrom(l: seq<int>, i: int)
    ensures (forall k :: 0 <= k < |l| ==> l[k] >= i) ==> SumFrom(l, i) == Sum(l)
    ensures Times(l, i) == 0 <==> i !in l
  {
    if l != [] {
      AllFrom(l[..|l| - 1], i);
      assert l == l[..|l| - 1] + [l[|l| - 1]];
    }
  }

  /** Dealing a smaller value changes nothing of what has been shared. */
  lemma {:induction false} SmallerKeeps(list: seq<int>, list0: seq<int>, i: int, j: int)
    requires |list0| <= |list| && list[..|list0|] == list0 && forall k :: |list0| <= k < |list| ==> list[k] == i
    requires i < j
    ensures SumFrom(list, j) == SumFrom(list0, j) && Times(list, j) == Times(list0, j)
    decreases |list|
  {
    if |list| > |list0| {
      SmallerKeeps(list[..|list| - 1], list0, i, j);
    } else {
      assert list == list0;
    }
  }

  /** When the last value is dealt no more, the whole amount has been dealt. */
  lemma {:induction false} Enough(amount: nat, start: nat, med: nat, sum: int)
    requires start > 0 && Dealt(amount, start, 1, sum) && med == Share(start, amount, start)
    requires 2 * (med - sum) <= 1 || med == 0
    ensures sum >= amount
  {
    ShareAll(amount, start);
    OnceGrows(start);
  }

  lemma {:induction false} OnceGrows(n: nat)
    ensures Once(n) >= Once(0)
  {
    if n > 0 {
      OnceGrows(n - 1);
    }
  }

  /** Deals `i` once, and again while that brings the sum closer to its share. */
  method DealValue(i: int, med: nat, sum0: int, list0: seq<int>, ghost amount: nat, ghost start: nat)
    returns (sum: int, list: seq<int>)
    requires 1 <= i <= start && med == Share(start + 1 - i, amount, start)
    requires Dealt(amount, start, i + 1, sum0) && sum0 == Sum(list0) && Falling(list0)
    requires forall k :: 0 <= k < |list0| ==> list0[k] > i
    ensures Dealt(amount, start, i, sum) && sum == Sum(list) && Falling(list)
    ensures EndsIn(list, list0, i) && Shared(amount, start, list, i)
    ensures i == 1 ==> sum >= amount
  {
    hide Closer, Dealt, Share, Once, Max, Sum, SumFrom, Times;
    DealtFirst(amount, start, i, sum0);
    sum, list := sum0 + i, list0 + [i];
    OneMore(list0, list0, i);
    AppendFrom(list0, i, i);
    AllFrom(list0, i);
    CloserIs(sum, i, med);
    while Closer(sum, i, med)
      invariant Dealt(amount, start, i, sum)
      invariant sum == Sum(list) && Falling(list) && EndsIn(list, list0, i)
      invariant forall k :: 0 <= k < |list| ==> list[k] >= i
      invariant Times(list, i) > 1 ==> 2 * (med - (sum - i)) > i
      invariant Closer(sum, i, med) <==> 2 * (med - sum) > i && med != 0
      decreases med - sum
    {
      DealtAgain(amount, start, i, sum);
      OneMore(list, list0, i);
      sum, list := sum + i, list + [i];
      CloserIs(sum, i, med);
    }
    AllFrom(list, i);
    if i == 1 {
      Enough(amount, start, med, sum);
    }
  }

  lemma {:induction false} StillShared(amount: nat, start: nat, list: seq<int>, list0: seq<int>, i: int, j: int)
    requires EndsIn(list, list0, i) && 1 <= i < j <= start && Shared(amount, start, list0, j)
    ensures Shared(amount, start, list, j)
  {
    SmallerKeeps(list, list0, i, j);
  }

  lemma {:induction false} Members(list: seq<int>, list0: seq<int>, i: int)
    requires EndsIn(list, list0, i)
    ensures forall v :: v in list <==> v in list0 || v == i
  {
    assert list[|list0|] == i && list == list0 + list[|list0|..];
  }

  /** The values dealt so far are those from `start` down to `i + 1`. */
  ghost predicate Down(list: seq<int>, start: int, i: int)
  {
    forall v :: v in list <==> i < v <= start && v >= 1
  }

  /** What the values of the list sum up to. */
  function SumOfList(amount: int, start: int): nat
  {
    if start >= 1 then Max(Abs(amount), Once(start)) else 0
  }

  /** That is the amount exactly when there is a value to start from and the values dealt once each do not exceed
      the amount, as when it is at least the square of the first value; or when there is nothing to deal. */
  lemma {:induction false} SumIsAmount(amount: int, start: int)
    ensures SumOfList(amount, start) == Abs(amount) <==>
      if start >= 1 then start * (start + 1) <= 2 * Abs(amount) else amount == 0
    ensures start >= 1 && start * start <= Abs(amount) ==> SumOfList(amount, start) == Abs(amount)
  {
    if start >= 1 {
      OnceIs(start);
      assert start * (start + 1) <= 2 * (start * start);
    }
  }

  /** The list: falling, from `start` to 1 without a gap, summing up to the amount or, when the values dealt
      once each already exceed it, to their sum. With no value to start from it is empty. */
  method GenerateDamageList(amount0: int, start: int) returns (list: seq<int>)
    ensures Falling(list)
    ensures forall v :: v in list <==> 1 <= v <= start
    ensures Sum(list) == SumOfList(amount0, start)
    ensures Sum(list) == Abs(amount0) <==>
      if start >= 1 then start * (start + 1) <= 2 * Abs(amount0) else amount0 == 0
    ensures forall i :: 1 <= i <= start ==> Shared(Abs(amount0), start, list, i)
  {
    hide Shared;
    SumIsAmount(amount0, start);
    var amount := Abs(amount0);
    var sum;
    sum, list := 0, [];
    var i := start;
    while i > 0
      invariant i <= start && (start >= 1 ==> 0 <= i && Dealt(amount, start, i + 1, sum))
      invariant sum == Sum(list) && Falling(list) && Down(list, start, i)
      invariant i == 0 && start >= 1 ==> sum >= amount
      invariant start <= 0 ==> list == []
      invariant forall j :: 1 <= j && i < j <= start ==> Shared(amount, start, list, j)
    {
      var n := start + 1 - i;
      var med := Share(n, amount, start);
      ghost var list0 := list;
      forall k | 0 <= k < |list| ensures list[k] > i {
        assert list[k] in list;
      }
      sum, list := DealValue(i, med, sum, list, amount, start);
      Members(list, list0, i);
      forall j | i < j <= start ensures Shared(amount, start, list, j) {
        StillShared(amount, start, list, list0, i, j);
      }
      i := i - 1;
    }
  }

  // ----- There is only one such list

  /** What `GenerateDamageList` says of its list: values, order and shares. */
  ghost predicate IsList(amount: nat, start: nat, l: seq<int>)
  {
    && Falling(l) && (forall v :: v in l <==> 1 <= v <= start)
    && forall i :: 1 <= i <= start ==> Shared(amount, start, l, i)
  }

  lemma {:induction false} SumStep(l: seq<int>, i: int)
    ensures SumFrom(l, i) == SumFrom(l, i + 1) + i * Times(l, i)
  {
    if l != [] {
      SumStep(l[..|l| - 1], i);
    }
  }

  lemma {:induction false} NoneFrom(l: seq<int>, i: int)
    requires forall k :: 0 <= k < |l| ==> l[k] < i
    ensures SumFrom(l, i) == 0
  {
    if l != [] {
      NoneFrom(l[..|l| - 1], i);
    }
  }

  /** No fewer times than another list that keeps to the shares. */
  lemma {:induction false} NotFewer(amount: nat, start: nat, l: seq<int>, m: seq<int>, i: int)
    requires 1 <= i <= start && Shared(amount, start, l, i) && Shared(amount, start, m, i)
    requires SumFrom(l, i + 1) == SumFrom(m, i + 1) >= 0 && Times(l, i) >= 1
    ensures Times(l, i) >= Times(m, i)
  {
    hide Share;
    SumStep(l, i);
    SumStep(m, i);
    if Times(l, i) < Times(m, i) {
      OnceMore(i, Times(l, i), Times(m, i));
    }
  }

  lemma {:induction false} OnceMore(i: nat, a: nat, b: nat)
    requires a < b
    ensures i * a + i <= i * b
  {
    Arithmetic.Distributes(i, a, b - a);
    Arithmetic.AtLeast(b - a, i);
  }

  lemma {:induction false} SameTimes(amount: nat, start: nat, l: seq<int>, m: seq<int>, i: int)
    requires IsList(amount, start, l) && IsList(amount, start, m) && 1 <= i <= start + 1
    ensures SumFrom(l, i) == SumFrom(m, i) >= 0 && (i <= start ==> Times(l, i) == Times(m, i))
    decreases start + 1 - i
  {
    hide Shared;
    if i == start + 1 {
      forall k | 0 <= k < |l| ensures l[k] < i {
        assert l[k] in l;
      }
      forall k | 0 <= k < |m| ensures m[k] < i {
        assert m[k] in m;
      }
      NoneFrom(l, i);
      NoneFrom(m, i);
    } else {
      SameTimes(amount, start, l, m, i + 1);
      AllFrom(l, i);
      AllFrom(m, i);
      NotFewer(amount, start, l, m, i);
      NotFewer(amount, start, m, l, i);
      SumStep(l, i);
      SumStep(m, i);
      assert i * Times(l, i) >= 0;
    }
  }

  lemma {:induction false} NotEmpty(l: seq<int>)
    requires l != []
    ensures exists v :: Times(l, v) > 0
  {
    assert Times(l, l[|l| - 1]) > 0;
  }

  /** Falling lists with the same values as often are the same list. */
  lemma {:induction false} SameFalling(l: seq<int>, m: seq<int>)
    requires Falling(l) && Falling(m) && forall v :: Times(l, v) == Times(m, v)
    ensures l == m
  {
    if l == [] {
      if m != [] {
        NotEmpty(m);
      }
    } else {
      LastOf(l, m);
      var last, l', m' := l[|l| - 1], l[..|l| - 1], m[..|m| - 1];
      forall v ensures Times(l', v) == Times(m', v) {
        assert Times(l, v) == Times(m, v);
      }
      SameFalling(l', m');
      assert l == l' + [last] && m == m' + [last];
    }
  }

  /** The last of them is a value of the other, and so no smaller than its last. */
  lemma {:induction false} LastOf(l: seq<int>, m: seq<int>)
    requires l != [] && Falling(l) && Falling(m) && forall v :: Times(l, v) == Times(m, v)
    ensures m != [] && m[|m| - 1] == l[|l| - 1]
  {
    NotBelow(l, m);
    NotBelow(m, l);
  }

  lemma {:induction false} NotBelow(l: seq<int>, m: seq<int>)
    requires l != [] && Falling(m) && Times(l, l[|l| - 1]) == Times(m, l[|l| - 1])
    ensures m != [] && m[|m| - 1] <= l[|l| - 1]
  {
    var a := l[|l| - 1];
    AllFrom(l, a);
    AllFrom(m, a);
    assert a in l;
  }

  /** The shares leave no choice: there is one such list for an amount and a start. */
  lemma {:induction false} OnlyList(amount: nat, start: nat, l: seq<int>, m: seq<int>)
    requires IsList(amount, start, l) && IsList(amount, start, m)
    ensures l == m
  {
    forall v ensures Times(l, v) == Times(m, v) {
      AllFrom(l, v);
      AllFrom(m, v);
      if 1 <= v <= start {
        SameTimes(amount, start, l, m, v);
      }
    }
    SameFalling(l, m);
  }

  /** Seldom, but it happens: five points dealt from four on come to ten. */
  method TenForFive() returns (list: seq<int>)
    ensures Falling(list) && Sum(list) == 10
    ensures forall v :: v in list <==> 1 <= v <= 4
  {
    list := GenerateDamageList(5, 4);
    assert Once(4) == 4 + Once(3) && Once(3) == 3 + Once(2) && Once(2) == 2 + Once(1);
  }
}
