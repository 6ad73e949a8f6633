/** The `{ correct, total }` counters that the assessment keeps per category and per
    difficulty. A JavaScript object with string keys lists its keys in the order they
    were first inserted, so a group table is modelled as a sequence of counters in that
    order. */
module Grouping {

  /** The counter record of one key. */
  datatype Counter<K> = Counter(key: K, correct: nat, total: nat)

  function Keys<K>(gs: seq<Counter<K>>): (ks: seq<K>)
    ensures |ks| == |gs| && forall i :: 0 <= i < |gs| ==> ks[i] == gs[i].key
  {
    seq(|gs|, i requires 0 <= i < |gs| => gs[i].key)
  }

  function Totals<K>(gs: seq<Counter<K>>): (ts: seq<nat>)
    ensures |ts| == |gs| && forall i :: 0 <= i < |gs| ==> ts[i] == gs[i].total
  {
    seq(|gs|, i requires 0 <= i < |gs| => gs[i].total)
  }

  function Corrects<K>(gs: seq<Counter<K>>): (cs: seq<nat>)
    ensures |cs| == |gs| && forall i :: 0 <= i < |gs| ==> cs[i] == gs[i].correct
  {
    seq(|gs|, i requires 0 <= i < |gs| => gs[i].correct)
  }

  function Sum(xs: seq<nat>): nat {
    if |xs| == 0 then 0 else Sum(xs[..|xs| - 1]) + xs[|xs| - 1]
  }

  /** Number of `true` entries. */
  function CountTrue(hits: seq<bool>): nat {
    if |hits| == 0 then 0
    else CountTrue(hits[..|hits| - 1]) + (if hits[|hits| - 1] then 1 else 0)
  }

  /** The positions at which `mask` holds, in increasing order. */
  function Indices(mask: seq<bool>): (pos: seq<nat>)
    ensures |pos| == CountTrue(mask)
    ensures forall k :: 0 <= k < |pos| ==> pos[k] < |mask| && mask[pos[k]]
    ensures forall k, l :: 0 <= k < l < |pos| ==> pos[k] < pos[l]
    ensures forall i :: 0 <= i < |mask| && mask[i] ==> i in pos
  {
    if |mask| == 0 then []
    else
      var n := |mask| - 1;
      Indices(mask[..n]) + (if mask[n] then [n] else [])
  }

  /** How often `k` occurs in `keys`. */
  function Occurrences<K(==)>(keys: seq<K>, k: K): nat {
    if |keys| == 0 then 0
    else Occurrences(keys[..|keys| - 1], k) + (if keys[|keys| - 1] == k then 1 else 0)
  }

  /** How many positions carry key `k` and a hit. */
  function HitsOf<K(==)>(keys: seq<K>, hits: seq<bool>, k: K): nat
    requires |keys| == |hits|
  {
    if |keys| == 0 then 0
    else HitsOf(keys[..|keys| - 1], hits[..|hits| - 1], k)
         + (if keys[|keys| - 1] == k && hits[|hits| - 1] then 1 else 0)
  }

  /** The distinct keys, each at the place of its first occurrence. */
  function FirstOccurrences<K(==)>(keys: seq<K>): seq<K> {
    if |keys| == 0 then []
    else
      var seen := FirstOccurrences(keys[..|keys| - 1]);
      if keys[|keys| - 1] in seen then seen else seen + [keys[|keys| - 1]]
  }

  /** Property lookup: the position of `key`'s counter, or `|gs|` when it has none. */
  function IndexOf<K(==)>(gs: seq<Counter<K>>, key: K): (i: nat)
    ensures i <= |gs|
    ensures i < |gs| ==> gs[i].key == key
    ensures forall j :: 0 <= j < i ==> gs[j].key != key
  {
    if |gs| == 0 then 0 else if gs[0].key == key then 0 else 1 + IndexOf(gs[1..], key)
  }

  /** One step of the grouping loop: a key seen for the first time gets a fresh
      counter `{ correct: 0, total: 0 }` at the end; then its `total` goes up by one,
      and its `correct` too when the answer was right. */
  function Bump<K(==)>(gs: seq<Counter<K>>, key: K, hit: bool): seq<Counter<K>> {
    var i := IndexOf(gs, key);
    var widened := if i == |gs| then gs + [Counter(key, 0, 0)] else gs;
    widened[i := Counter(key, widened[i].correct + (if hit then 1 else 0), widened[i].total + 1)]
  }

  /** The group table after the loop has visited every position: `keys[i]` is the
      group of question `i` and `hits[i]` says whether it was answered correctly. */
  function Tally<K(==)>(keys: seq<K>, hits: seq<bool>): seq<Counter<K>>
    requires |keys| == |hits|
  {
    if |keys| == 0 then []
    else Bump(Tally(keys[..|keys| - 1], hits[..|hits| - 1]), keys[|keys| - 1], hits[|hits| - 1])
  }

  /** Every counter has been incremented at least once and counts no more hits than
      visits; this is what makes its percentage well defined. */
  ghost predicate WellFormed<K>(gs: seq<Counter<K>>) {
    forall j :: 0 <= j < |gs| ==> 1 <= gs[j].total && gs[j].correct <= gs[j].total
  }

  ghost predicate DistinctKeys<K>(gs: seq<Counter<K>>) {
    forall i, j :: 0 <= i < j < |gs| ==> gs[i].key != gs[j].key
  }

  /** The table states, for each key, exactly its number of visits and of hits. */
  ghost predicate Counts<K>(gs: seq<Counter<K>>, keys: seq<K>, hits: seq<bool>)
    requires |keys| == |hits|
  {
    forall j :: 0 <= j < |gs| ==>
      gs[j].total == Occurrences(keys, gs[j].key) && gs[j].correct == HitsOf(keys, hits, gs[j].key)
  }

  /** Tallying one more position extends the table by one step of the loop. */
  lemma TallyPrefixStep<K>(keys: seq<K>, hits: seq<bool>, i: nat)
    requires |keys| == |hits| && i < |keys|
    ensures Tally(keys[..i + 1], hits[..i + 1]) == Bump(Tally(keys[..i], hits[..i]), keys[i], hits[i])
  {
    assert keys[..i + 1][..i] == keys[..i];
    assert hits[..i + 1][..i] == hits[..i];
  }

  /** One more question at the end of the list is one more step of the grouping loop. */
  lemma TallySnoc<K>(keys: seq<K>, hits: seq<bool>, key: K, hit: bool)
    requires |keys| == |hits|
    ensures Tally(keys + [key], hits + [hit]) == Bump(Tally(keys, hits), key, hit)
  {
    assert (keys + [key])[..|keys|] == keys;
    assert (hits + [hit])[..|hits|] == hits;
  }

  /** Bumping a key already in the table updates its counter in place. */
  lemma BumpAt<K>(gs: seq<Counter<K>>, i: nat, key: K, hit: bool)
    requires i < |gs| && gs[i].key == key && forall j :: 0 <= j < i ==> gs[j].key != key
    ensures Bump(gs, key, hit) == gs[i := Counter(key, gs[i].correct + (if hit then 1 else 0), gs[i].total + 1)]
  {
    assert IndexOf(gs, key) == i;
  }

  /** Bumping a new key appends a counter for it. */
  lemma BumpFresh<K>(gs: seq<Counter<K>>, key: K, hit: bool)
    requires forall j :: 0 <= j < |gs| ==> gs[j].key != key
    ensures Bump(gs, key, hit) == gs + [Counter(key, if hit then 1 else 0, 1)]
  {
    assert IndexOf(gs, key) == |gs|;
  }

  lemma {:induction false} IndexOfMembership<K>(gs: seq<Counter<K>>, key: K)
    ensures IndexOf(gs, key) < |gs| <==> key in Keys(gs)
  {
    var i := IndexOf(gs, key);
    if i < |gs| {
      assert Keys(gs)[i] == key;
    }
  }

  lemma BumpKeys<K>(gs: seq<Counter<K>>, key: K, hit: bool)
    ensures Keys(Bump(gs, key, hit)) == if key in Keys(gs) then Keys(gs) else Keys(gs) + [key]
  {
    IndexOfMembership(gs, key);
  }

  /** The distinct keys are exactly the keys that occur, and none is listed twice. */
  lemma {:induction false} FirstOccurrencesMembers<K>(keys: seq<K>)
    ensures forall k :: k in FirstOccurrences(keys) <==> k in keys
    ensures forall i, j :: 0 <= i < j < |FirstOccurrences(keys)| ==>
              FirstOccurrences(keys)[i] != FirstOccurrences(keys)[j]
  {
    if |keys| > 0 {
      var init := keys[..|keys| - 1];
      FirstOccurrencesMembers(init);
      assert keys == init + [keys[|keys| - 1]];
    }
  }

  /** The table lists its keys in order of first occurrence. */
  lemma {:induction false} TallyKeys<K>(keys: seq<K>, hits: seq<bool>)
    requires |keys| == |hits|
    ensures Keys(Tally(keys, hits)) == FirstOccurrences(keys)
  {
    if |keys| > 0 {
      var n := |keys| - 1;
      var gs := Tally(keys[..n], hits[..n]);
      TallyKeys(keys[..n], hits[..n]);
      BumpKeys(gs, keys[n], hits[n]);
      assert Tally(keys, hits) == Bump(gs, keys[n], hits[n]);
      assert FirstOccurrences(keys) ==
        if keys[n] in Keys(gs) then Keys(gs) else Keys(gs) + [keys[n]];
    }
  }

  lemma {:induction false} NoOccurrences<K>(keys: seq<K>, hits: seq<bool>, k: K)
    requires |keys| == |hits| && k !in keys
    ensures Occurrences(keys, k) == 0 && HitsOf(keys, hits, k) == 0
  {
    if |keys| > 0 {
      var n := |keys| - 1;
      assert keys[..n] <= keys;
      NoOccurrences(keys[..n], hits[..n], k);
    }
  }

  lemma HitsAtMostOccurrences<K>(keys: seq<K>, hits: seq<bool>, k: K)
    requires |keys| == |hits|
    ensures HitsOf(keys, hits, k) <= Occurrences(keys, k)
  {
  }

  /** Each counter holds the number of positions with its key and the number of those
      that were hits; no key has two counters. */
  lemma {:induction false} TallyCounts<K>(keys: seq<K>, hits: seq<bool>)
    requires |keys| == |hits|
    ensures Counts(Tally(keys, hits), keys, hits)
    ensures DistinctKeys(Tally(keys, hits))
  {
    if |keys| > 0 {
      var n := |keys| - 1;
      TallyCounts(keys[..n], hits[..n]);
      TallyKeys(keys[..n], hits[..n]);
      FirstOccurrencesMembers(keys[..n]);
      assert keys == keys[..n] + [keys[n]] && hits == hits[..n] + [hits[n]];
      BumpCounts(Tally(keys[..n], hits[..n]), keys[..n], hits[..n], keys[n], hits[n]);
    }
  }

  /** One step of the loop keeps the counters exact and the keys distinct. */
  lemma BumpCounts<K>(gs: seq<Counter<K>>, keys: seq<K>, hits: seq<bool>, k: K, h: bool)
    requires |keys| == |hits|
    requires Counts(gs, keys, hits) && DistinctKeys(gs)
    requires forall x :: x in Keys(gs) <==> x in keys
    ensures Counts(Bump(gs, k, h), keys + [k], hits + [h])
    ensures DistinctKeys(Bump(gs, k, h))
  {
    var keys', hits' := keys + [k], hits + [h];
    assert keys'[..|keys|] == keys && hits'[..|hits|] == hits;
    IndexOfMembership(gs, k);
    var i := IndexOf(gs, k);
    var gs' := Bump(gs, k, h);
    if i == |gs| {
      NoOccurrences(keys, hits, k);
    }
    forall j | 0 <= j < |gs'|
      ensures gs'[j].total == Occurrences(keys', gs'[j].key)
      ensures gs'[j].correct == HitsOf(keys', hits', gs'[j].key)
    {
      var x := gs'[j].key;
      assert Occurrences(keys', x) == Occurrences(keys, x) + (if k == x then 1 else 0);
      assert HitsOf(keys', hits', x) == HitsOf(keys, hits, x) + (if k == x && h then 1 else 0);
      if j != i {
        assert gs'[j] == gs[j];
        assert gs[j].key != k;
      }
    }
  }

  /** Every counter in the table is well formed. */
  lemma TallyWellFormed<K>(keys: seq<K>, hits: seq<bool>)
    requires |keys| == |hits|
    ensures WellFormed(Tally(keys, hits))
  {
    var gs := Tally(keys, hits);
    TallyCounts(keys, hits);
    TallyKeys(keys, hits);
    FirstOccurrencesMembers(keys);
    forall j | 0 <= j < |gs|
      ensures 1 <= gs[j].total && gs[j].correct <= gs[j].total
    {
      assert Keys(gs)[j] == gs[j].key;
      OccursPositive(keys, gs[j].key);
      HitsAtMostOccurrences(keys, hits, gs[j].key);
    }
  }

  lemma {:induction false} OccursPositive<K>(keys: seq<K>, k: K)
    requires k in keys
    ensures Occurrences(keys, k) >= 1
  {
    var n := |keys| - 1;
    if keys[n] != k {
      assert k in keys[..n] by {
        var i :| 0 <= i < |keys| && keys[i] == k;
        assert keys[..n][i] == k;
      }
      OccursPositive(keys[..n], k);
    }
  }

  lemma {:induction false} SumUpdate(xs: seq<nat>, i: nat, v: nat)
    requires i < |xs|
    ensures Sum(xs[i := v]) + xs[i] == Sum(xs) + v
  {
    var n := |xs| - 1;
    if i < n {
      assert xs[i := v][..n] == xs[..n][i := v];
      SumUpdate(xs[..n], i, v);
    } else {
      assert xs[i := v][..n] == xs[..n];
    }
  }

  /** A fresh zero counter at the end changes neither sum. */
  lemma WidenSums<K>(gs: seq<Counter<K>>, key: K)
    ensures Sum(Totals(gs + [Counter(key, 0, 0)])) == Sum(Totals(gs))
    ensures Sum(Corrects(gs + [Counter(key, 0, 0)])) == Sum(Corrects(gs))
  {
    var widened := gs + [Counter(key, 0, 0)];
    assert Totals(widened)[..|gs|] == Totals(gs);
    assert Corrects(widened)[..|gs|] == Corrects(gs);
  }

  lemma BumpSums<K>(gs: seq<Counter<K>>, key: K, hit: bool)
    ensures Sum(Totals(Bump(gs, key, hit))) == Sum(Totals(gs)) + 1
    ensures Sum(Corrects(Bump(gs, key, hit))) == Sum(Corrects(gs)) + (if hit then 1 else 0)
  {
    var i := IndexOf(gs, key);
    var widened := if i == |gs| then gs + [Counter(key, 0, 0)] else gs;
    assert Sum(Totals(widened)) == Sum(Totals(gs)) && Sum(Corrects(widened)) == Sum(Corrects(gs)) by {
      if i == |gs| {
        WidenSums(gs, key);
      }
    }
    var c := Counter(key, widened[i].correct + (if hit then 1 else 0), widened[i].total + 1);
    assert Bump(gs, key, hit) == widened[i := c];
    assert Sum(Totals(widened[i := c])) == Sum(Totals(widened)) + 1 by {
      assert Totals(widened[i := c]) == Totals(widened)[i := c.total];
      SumUpdate(Totals(widened), i, c.total);
    }
    assert Sum(Corrects(widened[i := c])) == Sum(Corrects(widened)) + (if hit then 1 else 0) by {
      assert Corrects(widened[i := c]) == Corrects(widened)[i := c.correct];
      SumUpdate(Corrects(widened), i, c.correct);
    }
  }

  /** The totals add up to the number of positions and the corrects to the number of
      hits. */
  lemma {:induction false} TallySums<K>(keys: seq<K>, hits: seq<bool>)
    requires |keys| == |hits|
    ensures Sum(Totals(Tally(keys, hits))) == |keys|
    ensures Sum(Corrects(Tally(keys, hits))) == CountTrue(hits)
  {
    if |keys| > 0 {
      var n := |keys| - 1;
      var gs := Tally(keys[..n], hits[..n]);
      assert Tally(keys, hits) == Bump(gs, keys[n], hits[n]);
      assert CountTrue(hits) == CountTrue(hits[..n]) + (if hits[n] then 1 else 0);
      TallySums(keys[..n], hits[..n]);
      BumpSums(gs, keys[n], hits[n]);
    }
  }
}
