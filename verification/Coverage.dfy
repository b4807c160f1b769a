/** What a paged listing delivers: the loop as shipped, the loop as intended, and the difference. */
module Coverage {
  import opened Text
  import opened Paging

  /** One page as the client gets it from a server that lists `items`, and where to go on. */
  function FetchPage<T>(items: seq<T>, start: GoInt, perPage: GoInt): (seq<T>, Option<GoInt>)
    requires |items| < MAX_INT
  {
    var page := PageSlice(items, ClampStart(start), ClampCount(perPage));
    (page, NextCursor(start, |page|, |items|))
  }

  function Min(a: int, b: int): int { if a < b then a else b }

  // ---------- Arithmetic ----------

  /** k * p, by repeated addition. */
  function Times(k: nat, p: nat): nat {
    if k == 0 then 0 else Times(k - 1, p) + p
  }

  lemma {:induction false} TimesIsProduct(k: nat, p: nat)
    ensures Times(k, p) == k * p
  {
    if k > 0 {
      TimesIsProduct(k - 1, p);
      assert k * p == (k - 1) * p + p;
    }
  }

  lemma MultiplyMonotone(a: nat, b: nat, p: nat)
    requires a <= b
    ensures a * p <= b * p
  {
  }

  lemma Quotient(k: nat, p: nat, r: nat)
    requires r < p
    ensures (Times(k, p) + r) / p == k && (Times(k, p) + r) % p == r
  {
    TimesIsProduct(k, p);
    var a := Times(k, p) + r;
    assert a == a / p * p + a % p;
    SameQuotient(k, a / p, p, r, a % p);
  }

  lemma SameQuotient(k: nat, q: nat, p: nat, r: nat, s: nat)
    requires r < p && s < p && k * p + r == q * p + s
    ensures k == q && r == s
  {
    if q > k {
      MultiplyMonotone(k + 1, q, p);
    } else if q < k {
      MultiplyMonotone(q + 1, k, p);
    }
  }

  /** c pages of p positions are just enough for n items; an empty listing still takes one. */
  predicate JustEnough(c: nat, n: nat, p: nat) {
    c > 0 && n <= Times(c, p) && (c > 1 ==> Times(c - 1, p) < n)
  }

  lemma JustEnoughMeans(c: nat, n: nat, p: nat)
    requires p > 0 && JustEnough(c, n, p)
    ensures c == if n == 0 then 1 else (n + p - 1) / p
    ensures n > 0 ==> (n % p == 0 <==> n == Times(c, p))
  {
    if n > 0 {
      var r := n - Times(c - 1, p) - 1;
      assert Times(c, p) == Times(c - 1, p) + p;
      Quotient(c, p, r);
      if r + 1 < p { Quotient(c - 1, p, r + 1); } else { Quotient(c, p, 0); }
    }
  }

  // ---------- The two loops, step by step ----------

  /** The page of the shipped loop at cursor t: from the second on it starts one position early. */
  function ShippedPage<T>(items: seq<T>, p: nat, t: nat): seq<T>
    requires p > 0 && (t == 0 || t < |items|)
  {
    var from := if t == 0 then 0 else t - 1;
    items[from..Min(from + p, |items|)]
  }

  function IntendedPage<T>(items: seq<T>, p: nat, t: nat): seq<T>
    requires p > 0 && (t == 0 || t < |items|)
  {
    items[t..Min(t + p, |items|)]
  }

  /** With the cursor at t the two loops do the same one position apart, and both go on to t + P
      under the same condition. */
  lemma LockStep<T>(items: seq<T>, perPage: GoInt, t: nat)
    requires |items| < MAX_INT && (t == 0 || t < |items|)
    ensures var p := ClampCount(perPage);
            var intended := PageSlice(items, t + 1, p);
            && FetchPage(items, t, perPage)
               == (ShippedPage(items, p, t), if t + p < |items| then Some(t + p) else None)
            && intended == IntendedPage(items, p, t)
            && (t + 1 + |intended| <= |items| <==> t + p < |items|)
  {
    ShippedStep(items, perPage, t);
    IntendedStep(items, ClampCount(perPage), t);
  }

  lemma ShippedStep<T>(items: seq<T>, perPage: GoInt, t: nat)
    requires |items| < MAX_INT && (t == 0 || t < |items|)
    ensures var p := ClampCount(perPage);
            FetchPage(items, t, perPage)
            == (ShippedPage(items, p, t), if t + p < |items| then Some(t + p) else None)
  {
  }

  lemma IntendedStep<T>(items: seq<T>, p: GoInt, t: nat)
    requires 0 < p && |items| < MAX_INT && (t == 0 || t < |items|)
    ensures var page := PageSlice(items, t + 1, p);
            && page == IntendedPage(items, p, t)
            && (t + 1 + |page| <= |items| <==> t + p < |items|)
  {
  }

  /** The shipped loop stops one short of the end. */
  predicate MissesLast(n: nat, p: nat)
    requires p > 0
  {
    n % p == 0 && n >= 2 * p
  }

  /** What the shipped loop delivers. A listing of at most one page comes as it is. A longer one
      comes as its first page, then everything from position P on once more and to the end; except
      that the last item is left out when P divides N. */
  function Delivered<T>(items: seq<T>, p: nat): seq<T>
    requires p > 0
  {
    if |items| <= p then items
    else items[0..p] + items[p - 1..(if MissesLast(|items|, p) then |items| - 1 else |items|)]
  }

  /** The shipped loop before the request at cursor t, after k requests. */
  ghost predicate SoFar<T>(items: seq<T>, p: nat, t: nat, k: nat, delivered: seq<T>) {
    && p > 0 && t == Times(k, p)
    && (k == 0 ==> delivered == [])
    && (k > 0 ==> p <= t < |items| && delivered == items[0..p] + items[p - 1..t - 1])
  }

  /** One more page keeps the loop's invariant if the loop goes on. */
  lemma GoesOn<T>(items: seq<T>, p: nat, t: nat, k: nat, delivered: seq<T>)
    requires SoFar(items, p, t, k, delivered) && t + p < |items|
    ensures SoFar(items, p, t + p, k + 1, delivered + ShippedPage(items, p, t))
  {
    if k == 0 {
      assert items[p - 1..p - 1] == [];
    } else {
      assert items[p - 1..t - 1] + items[t - 1..t - 1 + p] == items[p - 1..t - 1 + p];
    }
  }

  /** ... and completes the listing if it does not. */
  lemma Finishes<T>(items: seq<T>, p: nat, t: nat, k: nat, delivered: seq<T>)
    requires SoFar(items, p, t, k, delivered) && t + p >= |items|
    ensures delivered + ShippedPage(items, p, t) == Delivered(items, p)
  {
    if k == 0 {
      assert items[0..|items|] == items;
    } else {
      LastPageEnds(|items|, p, t, k);
      SliceJoinAfter(items[0..p], items, p - 1, t - 1, Min(t - 1 + p, |items|));
    }
  }

  lemma SliceJoinAfter<T>(front: seq<T>, items: seq<T>, a: nat, b: nat, c: nat)
    requires a <= b <= c <= |items|
    ensures (front + items[a..b]) + items[b..c] == front + items[a..c]
  {
    SliceJoin(items, a, b, c);
    assert (front + items[a..b]) + items[b..c] == front + (items[a..b] + items[b..c]);
  }

  lemma FinishesInTime<T>(items: seq<T>, p: nat, t: nat, k: nat, delivered: seq<T>)
    requires SoFar(items, p, t, k, delivered) && t + p >= |items|
    ensures JustEnough(k + 1, |items|, p)
  {
    assert Times(k + 1, p) == t + p;
  }

  lemma LastPageEnds(n: nat, p: nat, t: nat, k: nat)
    requires 0 < p <= t < n <= t + p && t == Times(k, p) && k > 0
    ensures Min(t - 1 + p, n) == if MissesLast(n, p) then n - 1 else n
  {
    assert Times(k + 1, p) == t + p;
    JustEnoughMeans(k + 1, n, p);
    DividesMeansTwice(n, p);
  }

  /** The shipped loop: start at cursor 0, follow the cursors until there is none. It delivers
      exactly Delivered(items) in max(1, ceil(N / P)) requests. */
  method ShippedLoop<T>(items: seq<T>, perPage: GoInt) returns (delivered: seq<T>, requests: nat)
    requires |items| < MAX_INT
    ensures delivered == Delivered(items, ClampCount(perPage))
    ensures requests == if items == [] then 1 else (|items| + ClampCount(perPage) - 1) / ClampCount(perPage)
  {
    ghost var p := ClampCount(perPage);
    delivered, requests := [], 0;
    var cursor: Option<GoInt> := Some(0);
    while cursor.Some?
      invariant cursor.Some? ==> cursor.value >= 0 && (cursor.value == 0 || cursor.value < |items|)
      invariant cursor.Some? ==> SoFar(items, p, cursor.value, requests, delivered)
      invariant cursor.None? ==> delivered == Delivered(items, p) && JustEnough(requests, |items|, p)
      decreases if cursor.Some? then |items| + 1 - cursor.value else 0
    {
      ghost var t := cursor.value;
      ShippedStep(items, perPage, t);
      if t + p < |items| {
        GoesOn(items, p, t, requests, delivered);
      } else {
        Finishes(items, p, t, requests, delivered);
        FinishesInTime(items, p, t, requests, delivered);
      }
      var (page, next) := FetchPage(items, cursor.value, perPage);
      delivered, requests, cursor := delivered + page, requests + 1, next;
    }
    JustEnoughMeans(requests, |items|, p);
  }

  lemma DividesMeansTwice(n: nat, p: nat)
    requires p > 0 && n > p
    ensures n % p == 0 <==> MissesLast(n, p)
  {
    if n < 2 * p {
      assert Times(1, p) == p + Times(0, p);
      Quotient(1, p, n - p);
    }
  }

  ghost predicate Distinct<T>(items: seq<T>) {
    forall i, j :: 0 <= i < j < |items| ==> items[i] != items[j]
  }

  lemma {:induction false} CountInSlice<T>(items: seq<T>, lo: nat, hi: nat, i: nat)
    requires Distinct(items) && lo <= hi <= |items| && i < |items|
    ensures multiset(items[lo..hi])[items[i]] == if lo <= i < hi then 1 else 0
    decreases hi - lo
  {
    if lo < hi {
      CountInSlice(items, lo, hi - 1, i);
      assert items[lo..hi] == items[lo..hi - 1] + [items[hi - 1]];
    }
  }

  lemma CountTwice<T>(items: seq<T>, p: nat, end: nat, i: nat)
    requires Distinct(items) && 0 < p <= end + 1 && p <= |items| && end <= |items| && i < |items|
    ensures multiset(items[0..p] + items[p - 1..end])[items[i]]
            == (if i < p then 1 else 0) + (if p - 1 <= i < end then 1 else 0)
  {
    CountInSlice(items, 0, p, i);
    CountInSlice(items, p - 1, end, i);
  }

  lemma CountOnce<T>(items: seq<T>, i: nat)
    requires Distinct(items) && i < |items|
    ensures multiset(items)[items[i]] == 1
  {
    CountInSlice(items, 0, |items|, i);
    assert items[0..|items|] == items;
  }

  /** How often the item at 0-based position i is delivered when no item occurs twice: the one at
      the end of the first page twice if there is a second page, the last one never if P divides N
      and N >= 2P, every other one once. */
  lemma TimesDelivered<T>(items: seq<T>, p: nat, i: nat)
    requires p > 0 && Distinct(items) && i < |items|
    ensures multiset(Delivered(items, p))[items[i]]
            == (if i == |items| - 1 && MissesLast(|items|, p) then 0 else 1)
               + (if i == p - 1 && |items| > p then 1 else 0)
  {
    if |items| > p {
      CountTwice(items, p, if MissesLast(|items|, p) then |items| - 1 else |items|, i);
    } else {
      CountOnce(items, i);
    }
  }

  /** The number delivered hides the miss: it is N, and N + 1 exactly when there is more than one
      page and P does not divide N. */
  lemma TotalDelivered<T>(items: seq<T>, p: nat)
    requires p > 0
    ensures |Delivered(items, p)| == |items| + (if |items| > p && |items| % p != 0 then 1 else 0)
  {
    if |items| > p { DividesMeansTwice(|items|, p); }
  }

  // ---------- The intended loop ----------

  /** Section 3.4.2.4 of RFC 7644: the cursor is the 1-based index that is sent, and the loop goes on
      while the next index is not past the total. It delivers the whole list, for every N and P, and
      in as many requests as the shipped loop. */
  method IntendedLoop<T>(items: seq<T>, perPage: GoInt) returns (delivered: seq<T>, requests: nat)
    requires |items| < MAX_INT
    ensures delivered == items
    ensures requests == if items == [] then 1 else (|items| + ClampCount(perPage) - 1) / ClampCount(perPage)
  {
    var p := ClampCount(perPage);
    var index := 1;
    delivered, requests := [], 0;
    var more := true;
    while more
      invariant more ==> 1 <= index && (index == 1 || index <= |items|)
      invariant more ==> index - 1 == Times(requests, p) && delivered == items[0..index - 1]
      invariant !more ==> delivered == items && JustEnough(requests, |items|, p)
      decreases if more then |items| + 2 - index else 0
    {
      ghost var t := index - 1;
      IntendedStep(items, p, t);
      assert Times(requests + 1, p) == t + p;
      var page := PageSlice(items, index, p);
      SliceJoin(items, 0, t, Min(t + p, |items|));
      assert items[0..|items|] == items;
      delivered, requests, index := delivered + page, requests + 1, index + |page|;
      more := index <= |items|;
    }
    JustEnoughMeans(requests, |items|, p);
  }

  lemma SliceJoin<T>(items: seq<T>, a: nat, b: nat, c: nat)
    requires a <= b <= c <= |items|
    ensures items[a..b] + items[b..c] == items[a..c]
  {
  }

  lemma DeliveredAreItems<T>(items: seq<T>, p: nat, x: T)
    requires p > 0 && x in Delivered(items, p)
    ensures x in items
  {
  }

  /** An item is missed exactly when it is the last one and P divides N with N >= 2P. */
  lemma ItemsAreDelivered<T>(items: seq<T>, p: nat, x: T)
    requires p > 0 && Distinct(items) && x in items
    ensures x in Delivered(items, p) <==> !(MissesLast(|items|, p) && x == items[|items| - 1])
  {
    var i :| 0 <= i < |items| && items[i] == x;
    TimesDelivered(items, p, i);
    assert x in multiset(Delivered(items, p)) <==> x in Delivered(items, p);
  }

  /** The shipped loop delivers every item exactly when P does not divide N or N < 2P. */
  lemma SameItemsExactlyWhen<T>(items: seq<T>, p: nat)
    requires p > 0 && Distinct(items)
    ensures (forall x :: x in Delivered(items, p) <==> x in items) <==> !MissesLast(|items|, p)
  {
    forall x | x in Delivered(items, p) ensures x in items {
      DeliveredAreItems(items, p, x);
    }
    forall x | x in items
      ensures x in Delivered(items, p) <==> !(MissesLast(|items|, p) && x == items[|items| - 1])
    {
      ItemsAreDelivered(items, p, x);
    }
    if MissesLast(|items|, p) {
      assert items[|items| - 1] in items;
    }
  }
}
