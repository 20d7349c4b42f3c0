/**
 * A counter (Python's `defaultdict(int)` incremented one name at a time)
 * kept as the names it was given, in order. A name's count is how often it
 * occurs; the counter's keys are the distinct names in the order they first
 * occurred, which is the order Python's dict keeps them in.
 */
module Counters {
  import opened Ranking

  function Count(h: seq<string>, key: string): nat {
    multiset(h)[key]
  }

  /** The counter's keys, in insertion order. */
  function Keys(h: seq<string>): seq<string>
    decreases |h|
  {
    if h == [] then []
    else if h[|h| - 1] in h[..|h| - 1] then Keys(h[..|h| - 1])
    else Keys(h[..|h| - 1]) + [h[|h| - 1]]
  }

  ghost predicate NoDup(s: seq<string>) {
    forall i, j | 0 <= i < j < |s| :: s[i] != s[j]
  }

  /** In a list without duplicates, no element occurs before its own position. */
  lemma NoDupPrefix(s: seq<string>, j: nat)
    requires NoDup(s) && j < |s|
    ensures s[j] !in s[..j]
  {
    forall i | 0 <= i < j ensures s[..j][i] != s[j] {
      assert s[..j][i] == s[i];
    }
  }

  /** The keys are the names that occur, each listed once. */
  lemma {:induction false} KeysCorrect(h: seq<string>)
    ensures forall x :: x in Keys(h) <==> x in h
    ensures NoDup(Keys(h))
    decreases |h|
  {
    if h != [] {
      var init := h[..|h| - 1];
      KeysCorrect(init);
      assert h == init + [h[|h| - 1]];
    }
  }

  /** Counting one more name adds it as the last key exactly when it is new. */
  lemma KeysAppend(h: seq<string>, x: string)
    ensures Keys(h + [x]) == if x in Keys(h) then Keys(h) else Keys(h) + [x]
  {
    KeysCorrect(h);
    assert (h + [x])[..|h|] == h;
  }

  /** A name has a key exactly when its count is positive. */
  lemma KeyIffCounted(h: seq<string>, x: string)
    ensures x in Keys(h) <==> Count(h, x) > 0
  {
    KeysCorrect(h);
  }

  /** Adding the keys of `h` one count each gives the same key order as adding all of `h`. */
  lemma {:induction false} KeysOfKeys(c: seq<string>, h: seq<string>)
    ensures Keys(c + Keys(h)) == Keys(c + h)
    decreases |h|
  {
    if h == [] {
      assert c + [] == c;
    } else {
      var init, x := h[..|h| - 1], h[|h| - 1];
      KeysOfKeys(c, init);
      KeysCorrect(init);
      assert h == init + [x];
      assert c + h == (c + init) + [x];
      assert (c + h)[..|c + h| - 1] == c + init;
      if x in init {
        assert Keys(c + h) == Keys(c + init);
      } else {
        var ks := Keys(init);
        assert Keys(h) == ks + [x];
        assert c + Keys(h) == (c + ks) + [x];
        assert (c + Keys(h))[..|c + Keys(h)| - 1] == c + ks;
        assert x in c + ks <==> x in c + init;
      }
    }
  }

  /** The sum of the counts of `keys`. */
  function SumCounts(keys: seq<string>, h: seq<string>): nat
    decreases |keys|
  {
    if keys == [] then 0 else SumCounts(keys[..|keys| - 1], h) + Count(h, keys[|keys| - 1])
  }

  lemma {:induction false} SumCountsGrow(keys: seq<string>, h: seq<string>, x: string)
    requires NoDup(keys)
    ensures SumCounts(keys, h + [x]) == SumCounts(keys, h) + (if x in keys then 1 else 0)
    decreases |keys|
  {
    if keys != [] {
      var init := keys[..|keys| - 1];
      SumCountsGrow(init, h, x);
      assert multiset(h + [x]) == multiset(h) + multiset{x};
      assert x in keys <==> x in init || x == keys[|keys| - 1];
    }
  }

  /** The counts of all keys add up to the number of increments. */
  lemma {:induction false} SumOfCounts(h: seq<string>)
    ensures SumCounts(Keys(h), h) == |h|
    decreases |h|
  {
    if h != [] {
      var init, x := h[..|h| - 1], h[|h| - 1];
      SumOfCounts(init);
      KeysCorrect(init);
      assert h == init + [x];
      SumCountsGrow(Keys(init), init, x);
      if x !in init {
        assert multiset(h) == multiset(init) + multiset{x};
        assert Count(init, x) == 0;
      }
    }
  }

  lemma {:induction false} CountAtMostLength(h: seq<string>, k: string)
    ensures Count(h, k) <= |h|
    decreases |h|
  {
    if h != [] {
      CountAtMostLength(h[1..], k);
      assert h == [h[0]] + h[1..];
    }
  }

  lemma DistinctAfterPermutation(ks: seq<string>, names: seq<string>, i: int, j: int)
    requires NoDup(ks) && multiset(names) == multiset(ks)
    requires 0 <= i < j < |names|
    ensures names[i] != names[j]
  {
    if names[i] == names[j] {
      var x := names[i];
      assert multiset(names)[x] >= 2 by {
        assert names == names[..i] + [x] + names[i + 1..j] + [x] + names[j + 1..];
      }
      OnceInNoDup(ks, x);
      assert false;
    }
  }

  lemma {:induction false} OnceInNoDup(ks: seq<string>, x: string)
    requires NoDup(ks)
    ensures multiset(ks)[x] <= 1
    decreases |ks|
  {
    if ks != [] {
      OnceInNoDup(ks[1..], x);
      assert ks == [ks[0]] + ks[1..];
      if ks[0] == x {
        assert x !in ks[1..];
      }
    }
  }

  /** `count / total * 100`, or 0 when there is nothing to divide by. */
  function Percent(count: nat, total: nat): real {
    if total > 0 then count as real / total as real * 100.0 else 0.0
  }

  /** A count never above its total is a percentage between 0 and 100. */
  lemma PercentBounds(count: nat, total: nat)
    requires count <= total
    ensures 0.0 <= Percent(count, total) <= 100.0
    ensures total > 0 && count == total ==> Percent(count, total) == 100.0
  {
    if total > 0 {
      assert count as real / total as real <= 1.0;
    }
  }

  function CountOf(h: seq<string>): string -> int {
    (k: string) => Count(h, k)
  }

  /** A counter's keys, most counted first, keys with equal counts in insertion order. */
  function MostCountedFirst(h: seq<string>): seq<string> {
    SortDesc(Keys(h), CountOf(h))
  }

  /** Every name counted appears once, by non-increasing count. */
  lemma {:induction false} MostCountedFirstCorrect(h: seq<string>)
    ensures var names := MostCountedFirst(h);
      && (forall p :: p in names <==> p in h)
      && (forall i, j | 0 <= i < j < |names| :: names[i] != names[j] && Count(h, names[i]) >= Count(h, names[j]))
      && (forall i | 0 <= i < |names| :: 0 < Count(h, names[i]) <= |h|)
  {
    var ks := Keys(h);
    var names := MostCountedFirst(h);
    KeysCorrect(h);
    SortDescPermutes(ks, CountOf(h));
    SortDescSorted(ks, CountOf(h));
    forall p ensures p in names <==> p in h {
      assert p in names <==> p in multiset(names);
    }
    forall i, j | 0 <= i < j < |names| ensures names[i] != names[j] {
      DistinctAfterPermutation(ks, names, i, j);
    }
    forall i | 0 <= i < |names| ensures 0 < Count(h, names[i]) <= |h| {
      assert names[i] in multiset(ks);
      assert names[i] in h;
      CountAtMostLength(h, names[i]);
    }
  }

  /** A counter's keys in ascending order, as `sorted(counter.items())` lists them. */
  function KeysAscending(h: seq<string>): seq<string> {
    SortStrings(Keys(h))
  }

  /** Every name counted appears once, in ascending order. */
  lemma {:induction false} KeysAscendingCorrect(h: seq<string>)
    ensures var names := KeysAscending(h);
      && (forall p :: p in names <==> p in h)
      && (forall i, j | 0 <= i < j < |names| :: names[i] != names[j] && LexLeq(names[i], names[j]))
      && (forall i | 0 <= i < |names| :: 0 < Count(h, names[i]) <= |h|)
  {
    var ks := Keys(h);
    var names := KeysAscending(h);
    KeysCorrect(h);
    SortStringsCorrect(ks);
    forall p ensures p in names <==> p in h {
      assert p in names <==> p in multiset(names);
    }
    forall i, j | 0 <= i < j < |names| ensures names[i] != names[j] {
      DistinctAfterPermutation(ks, names, i, j);
    }
    forall i | 0 <= i < |names| ensures 0 < Count(h, names[i]) <= |h| {
      assert names[i] in multiset(ks);
      assert names[i] in h;
      CountAtMostLength(h, names[i]);
    }
  }
}
