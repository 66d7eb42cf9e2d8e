/**
 * The usage counters the aggregators keep per key, and the insertion-ordered
 * dictionaries that hold them. A Python dict remembers the order in which
 * its keys were first set; `Ledger` keeps that order in `keys`, so that
 * `d.values()` and `sorted(d.values(), ...)` can be stated exactly.
 */
module Ledgers {

  /**
   * The six counters of a usage row: `tokens`, `tokens_in`, `tokens_out`,
   * `tokens_cache`, `cost` and `messages`.
   */
  datatype Tally = Tally(tokens: int, tokensIn: int, tokensOut: int, tokensCache: int, cost: real, messages: int)

  /** The row `setdefault` creates: every counter 0. */
  const Zero: Tally := Tally(0, 0, 0, 0, 0.0, 0)

  /** Every counter of `b` added to the same counter of `a` (the `+=` lines). */
  function Plus(a: Tally, b: Tally): Tally {
    Tally(a.tokens + b.tokens, a.tokensIn + b.tokensIn, a.tokensOut + b.tokensOut,
          a.tokensCache + b.tokensCache, a.cost + b.cost, a.messages + b.messages)
  }

  /** A tally whose total is its input, output and cache tokens. */
  predicate Balanced(t: Tally) {
    t.tokens == t.tokensIn + t.tokensOut + t.tokensCache
  }

  /** A dict of tallies: `keys` lists each key once, in the order it was first set. */
  datatype Ledger<K> = Ledger(keys: seq<K>, rows: map<K, Tally>)

  function EmptyLedger<K(==)>(): Ledger<K> {
    Ledger([], map[])
  }

  predicate Distinct<K(==)>(s: seq<K>) {
    forall i, j :: 0 <= i < j < |s| ==> s[i] != s[j]
  }

  /** The order covers exactly the keys of the dict, each once. */
  predicate Valid<K(==)>(l: Ledger<K>) {
    && Distinct(l.keys)
    && l.rows.Keys == (set i | 0 <= i < |l.keys| :: l.keys[i])
  }

  /** `row = d.setdefault(k, zero); row += t` */
  function Bump<K(==)>(l: Ledger<K>, k: K, t: Tally): (r: Ledger<K>)
    ensures k in r.rows
  {
    if k in l.rows then Ledger(l.keys, l.rows[k := Plus(l.rows[k], t)])
    else Ledger(l.keys + [k], l.rows[k := Plus(Zero, t)])
  }

  /** The counters of `keys`' rows added up, in order. */
  function SumOver<K(==)>(keys: seq<K>, rows: map<K, Tally>): Tally
    requires forall k :: k in keys ==> k in rows
  {
    if keys == [] then Zero
    else Plus(SumOver(keys[..|keys| - 1], rows), rows[keys[|keys| - 1]])
  }

  /** `sum(row[c] for row in d.values())`, for every counter `c` at once. */
  function Total<K(==)>(l: Ledger<K>): Tally
    requires Valid(l)
  {
    SumOver(l.keys, l.rows)
  }

  /** `list(d.items())`: key and row, in insertion order. */
  function Items<K(==)>(l: Ledger<K>): (r: seq<(K, Tally)>)
    requires Valid(l)
    ensures |r| == |l.keys|
    ensures forall i :: 0 <= i < |r| ==> r[i] == (l.keys[i], l.rows[l.keys[i]])
  {
    seq(|l.keys|, i requires 0 <= i < |l.keys| => (l.keys[i], l.rows[l.keys[i]]))
  }

  /** The counters of a list of rows added up, in order. */
  function SumItems<K(==)>(items: seq<(K, Tally)>): Tally {
    if items == [] then Zero else Plus(SumItems(items[..|items| - 1]), items[|items| - 1].1)
  }

  // ---- what a bump does ----

  /** A bump keeps the ledger well formed: an old key keeps its place, a new one goes last. */
  lemma {:induction false} BumpValid<K>(l: Ledger<K>, k: K, t: Tally)
    requires Valid(l)
    ensures Valid(Bump(l, k, t))
    ensures k in l.rows ==> Bump(l, k, t).keys == l.keys
    ensures k !in l.rows ==> Bump(l, k, t).keys == l.keys + [k]
  {
    var r := Bump(l, k, t);
    if k !in l.rows {
      forall i, j | 0 <= i < j < |r.keys| ensures r.keys[i] != r.keys[j] {
        if j == |l.keys| {
          assert r.keys[i] == l.keys[i];
        }
      }
      var before := set i | 0 <= i < |l.keys| :: l.keys[i];
      var after := set i | 0 <= i < |r.keys| :: r.keys[i];
      assert r.keys[|l.keys|] == k;
      forall x | x in after ensures x in before + {k} {
        var i :| 0 <= i < |r.keys| && r.keys[i] == x;
        if i < |l.keys| { assert l.keys[i] == x; }
      }
      forall x | x in before ensures x in after {
        var i :| 0 <= i < |l.keys| && l.keys[i] == x;
        assert r.keys[i] == x;
      }
    }
  }

  /** A bump adds its tally to the total, whichever row it lands in. */
  lemma {:induction false} BumpTotal<K>(l: Ledger<K>, k: K, t: Tally)
    requires Valid(l)
    ensures Valid(Bump(l, k, t))
    ensures Total(Bump(l, k, t)) == Plus(Total(l), t)
  {
    BumpValid(l, k, t);
    BumpSum(l.keys, l.rows, k, t);
  }

  /** `BumpTotal` on the parts of a ledger. */
  lemma {:induction false} BumpSum<K>(keys: seq<K>, rows: map<K, Tally>, k: K, t: Tally)
    requires Valid(Ledger(keys, rows))
    ensures var r := Bump(Ledger(keys, rows), k, t); SumOver(r.keys, r.rows) == Plus(SumOver(keys, rows), t)
  {
    KeysListed(Ledger(keys, rows));
    if k in rows {
      SumOverUpdate(keys, rows, k, t);
    } else {
      SumOverAppend(keys, rows, k, Plus(Zero, t));
    }
  }

  /** A valid ledger lists exactly the keys of its dict. */
  lemma {:induction false} KeysListed<K>(l: Ledger<K>)
    requires Valid(l)
    ensures forall x :: x in l.keys <==> x in l.rows
  {
    forall x | x in l.keys ensures x in l.rows {
      var i :| 0 <= i < |l.keys| && l.keys[i] == x;
    }
  }

  /** A row under a new key, listed last, adds its counters to the sum. */
  lemma {:induction false} SumOverAppend<K>(keys: seq<K>, rows: map<K, Tally>, k: K, v: Tally)
    requires forall x :: x in keys ==> x in rows && x != k
    ensures SumOver(keys + [k], rows[k := v]) == Plus(SumOver(keys, rows), v)
  {
    var keys' := keys + [k];
    assert keys'[..|keys'| - 1] == keys;
    SumOverAgree(keys, rows, rows[k := v]);
  }

  /** Rows that agree on `keys` have the same sum over `keys`. */
  lemma {:induction false} SumOverAgree<K>(keys: seq<K>, a: map<K, Tally>, b: map<K, Tally>)
    requires forall k :: k in keys ==> k in a && k in b && a[k] == b[k]
    ensures SumOver(keys, a) == SumOver(keys, b)
  {
    if keys != [] {
      var init := keys[..|keys| - 1];
      assert forall k :: k in init ==> k in keys;
      SumOverAgree(init, a, b);
    }
  }

  /** Adding `t` to the row of a key that occurs once adds `t` to the sum. */
  lemma {:induction false} SumOverUpdate<K>(keys: seq<K>, rows: map<K, Tally>, k: K, t: Tally)
    requires Distinct(keys) && k in keys
    requires forall x :: x in keys ==> x in rows
    ensures SumOver(keys, rows[k := Plus(rows[k], t)]) == Plus(SumOver(keys, rows), t)
  {
    var rows' := rows[k := Plus(rows[k], t)];
    var init, last := keys[..|keys| - 1], keys[|keys| - 1];
    assert forall x :: x in init ==> x in keys;
    if last == k {
      assert k !in init by {
        forall i | 0 <= i < |init| ensures init[i] != k {
          assert keys[i] != keys[|keys| - 1];
        }
      }
      SumOverAgree(init, rows, rows');
    } else {
      assert k in init by {
        var i :| 0 <= i < |keys| && keys[i] == k;
        assert i < |keys| - 1;
        assert init[i] == k;
      }
      assert Distinct(init) by {
        forall i, j | 0 <= i < j < |init| ensures init[i] != init[j] {
          assert init[i] == keys[i] && init[j] == keys[j];
        }
      }
      SumOverUpdate(init, rows, k, t);
    }
  }

  /** The rows listed by `Items` add up to the total. */
  lemma {:induction false} SumItemsIsTotal<K>(l: Ledger<K>)
    requires Valid(l)
    ensures SumItems(Items(l)) == Total(l)
  {
    SumItemsOver(Items(l), l.keys, l.rows);
  }

  lemma {:induction false} SumItemsOver<K>(items: seq<(K, Tally)>, keys: seq<K>, rows: map<K, Tally>)
    requires forall k :: k in keys ==> k in rows
    requires |items| == |keys|
    requires forall i :: 0 <= i < |items| ==> items[i].1 == rows[keys[i]]
    ensures SumItems(items) == SumOver(keys, rows)
  {
    if keys != [] {
      var init := keys[..|keys| - 1];
      assert forall k :: k in init ==> k in keys;
      SumItemsOver(items[..|items| - 1], init, rows);
    }
  }

  // ---- sorted(rows, key=lambda x: x["cost"], reverse=True) ----

  /** Costs never increase along the list. */
  predicate ByCostDescending<K(==)>(items: seq<(K, Tally)>) {
    forall i, j :: 0 <= i < j < |items| ==> items[i].1.cost >= items[j].1.cost
  }

  /**
   * Python's stable sort by descending cost: each row, in input order, is
   * placed after every row already placed whose cost is at least its own,
   * so rows of equal cost keep their input order.
   */
  function SortByCost<K(==)>(items: seq<(K, Tally)>): seq<(K, Tally)> {
    if items == [] then [] else InsertByCost(SortByCost(items[..|items| - 1]), items[|items| - 1])
  }

  function InsertByCost<K(==)>(sorted: seq<(K, Tally)>, x: (K, Tally)): (r: seq<(K, Tally)>)
    ensures |r| == |sorted| + 1
  {
    if sorted == [] || sorted[|sorted| - 1].1.cost >= x.1.cost then sorted + [x]
    else InsertByCost(sorted[..|sorted| - 1], x) + [sorted[|sorted| - 1]]
  }

  /** The sorted rows are in descending cost order. */
  lemma {:induction false} SortByCostSorted<K>(items: seq<(K, Tally)>)
    ensures ByCostDescending(SortByCost(items))
  {
    if items != [] {
      SortByCostSorted(items[..|items| - 1]);
      InsertByCostSorted(SortByCost(items[..|items| - 1]), items[|items| - 1]);
    }
  }

  lemma {:induction false} InsertByCostSorted<K>(sorted: seq<(K, Tally)>, x: (K, Tally))
    requires ByCostDescending(sorted)
    ensures ByCostDescending(InsertByCost(sorted, x))
    ensures forall i :: 0 <= i < |InsertByCost(sorted, x)| ==>
      InsertByCost(sorted, x)[i].1.cost == x.1.cost || InsertByCost(sorted, x)[i] in sorted
  {
    if sorted != [] && sorted[|sorted| - 1].1.cost < x.1.cost {
      var init, last := sorted[..|sorted| - 1], sorted[|sorted| - 1];
      assert ByCostDescending(init);
      InsertByCostSorted(init, x);
      var mid := InsertByCost(init, x);
      forall i | 0 <= i < |mid| ensures mid[i].1.cost >= last.1.cost {
        if mid[i].1.cost != x.1.cost {
          var j :| 0 <= j < |init| && init[j] == mid[i];
          assert sorted[j] == init[j];
        }
      }
    }
  }

  /** Sorting only reorders: the same rows, each as often. */
  lemma {:induction false} SortByCostPermutes<K>(items: seq<(K, Tally)>)
    ensures multiset(SortByCost(items)) == multiset(items)
  {
    if items != [] {
      var init := items[..|items| - 1];
      SortByCostPermutes(init);
      InsertByCostPermutes(SortByCost(init), items[|items| - 1]);
      assert items == init + [items[|items| - 1]];
    }
  }

  lemma {:induction false} InsertByCostPermutes<K>(sorted: seq<(K, Tally)>, x: (K, Tally))
    ensures multiset(InsertByCost(sorted, x)) == multiset(sorted) + multiset{x}
  {
    if sorted != [] && sorted[|sorted| - 1].1.cost < x.1.cost {
      var init, last := sorted[..|sorted| - 1], sorted[|sorted| - 1];
      InsertByCostPermutes(init, x);
      assert sorted == init + [last];
    }
  }

  /** Sorting does not change the sums. */
  lemma {:induction false} SortByCostKeepsSum<K>(items: seq<(K, Tally)>)
    ensures SumItems(SortByCost(items)) == SumItems(items)
  {
    if items != [] {
      var init := items[..|items| - 1];
      SortByCostKeepsSum(init);
      InsertByCostSum(SortByCost(init), items[|items| - 1]);
    }
  }

  lemma {:induction false} InsertByCostSum<K>(sorted: seq<(K, Tally)>, x: (K, Tally))
    ensures SumItems(InsertByCost(sorted, x)) == Plus(SumItems(sorted), x.1)
  {
    if sorted != [] && sorted[|sorted| - 1].1.cost < x.1.cost {
      var init, last := sorted[..|sorted| - 1], sorted[|sorted| - 1];
      InsertByCostSum(init, x);
      var r := InsertByCost(sorted, x);
      assert r[..|r| - 1] == InsertByCost(init, x);
    } else {
      var r := sorted + [x];
      assert r[..|r| - 1] == sorted;
    }
  }

  // ---- sorted(keys) for day numbers ----

  /** Strictly increasing. */
  predicate Increasing(s: seq<int>) {
    forall i, j :: 0 <= i < j < |s| ==> s[i] < s[j]
  }

  /** `sorted(s)`: insertion sort, from the last element back. */
  function SortInts(s: seq<int>): seq<int> {
    if s == [] then [] else InsertInt(SortInts(s[..|s| - 1]), s[|s| - 1])
  }

  function InsertInt(sorted: seq<int>, x: int): seq<int> {
    if sorted == [] || x <= sorted[0] then [x] + sorted
    else [sorted[0]] + InsertInt(sorted[1..], x)
  }

  /** Sorting only reorders. */
  lemma {:induction false} SortIntsPermutes(s: seq<int>)
    ensures multiset(SortInts(s)) == multiset(s)
  {
    if s != [] {
      var init := s[..|s| - 1];
      SortIntsPermutes(init);
      InsertIntPermutes(SortInts(init), s[|s| - 1]);
      assert s == init + [s[|s| - 1]];
    }
  }

  lemma {:induction false} InsertIntPermutes(sorted: seq<int>, x: int)
    ensures multiset(InsertInt(sorted, x)) == multiset(sorted) + multiset{x}
  {
    if sorted != [] && x > sorted[0] {
      InsertIntPermutes(sorted[1..], x);
      assert sorted == [sorted[0]] + sorted[1..];
    }
  }

  /** Distinct keys come out strictly increasing. */
  lemma {:induction false} SortIntsIncreasing(s: seq<int>)
    requires Distinct(s)
    ensures Increasing(SortInts(s))
  {
    if s != [] {
      var init, x := s[..|s| - 1], s[|s| - 1];
      assert Distinct(init);
      SortIntsIncreasing(init);
      SortIntsPermutes(init);
      assert x !in init;
      assert x !in multiset(SortInts(init));
      InsertIntIncreasing(SortInts(init), x);
    }
  }

  lemma {:induction false} InsertIntIncreasing(sorted: seq<int>, x: int)
    requires Increasing(sorted) && x !in sorted
    ensures Increasing(InsertInt(sorted, x))
    ensures forall i :: 0 <= i < |InsertInt(sorted, x)| ==> InsertInt(sorted, x)[i] == x || InsertInt(sorted, x)[i] in sorted
  {
    if sorted != [] && x > sorted[0] {
      var tail := sorted[1..];
      assert Increasing(tail);
      InsertIntIncreasing(tail, x);
      var r := InsertInt(sorted, x);
      forall j | 0 < j < |r| ensures sorted[0] < r[j] {
        if r[j] != x {
          var k :| 0 <= k < |tail| && tail[k] == r[j];
          assert sorted[k + 1] == tail[k];
        }
      }
    }
  }

  // ---- a dict of dicts kept in step with its totals ----

  /** `inner[k]`, or an empty dict before `k`'s first row. */
  function InnerOf<K(==), J(==)>(inner: map<K, Ledger<J>>, k: K): Ledger<J> {
    if k in inner then inner[k] else EmptyLedger()
  }

  /**
   * Each row of `outer` is the total of the dict `inner` keeps under the
   * same key, and the two have the same keys.
   */
  ghost predicate Nested<K, J>(outer: Ledger<K>, inner: map<K, Ledger<J>>) {
    && inner.Keys == outer.rows.Keys
    && forall k :: k in inner ==> Valid(inner[k]) && outer.rows[k] == Total(inner[k])
  }

  lemma {:induction false} EmptyLedgerTotal<J>()
    ensures Valid(EmptyLedger<J>()) && Total(EmptyLedger<J>()) == Zero
  {
  }

  /** Bumping a key's row and the same tally into its inner dict keeps the two in step. */
  lemma {:induction false} BumpNested<K, J>(outer: Ledger<K>, inner: map<K, Ledger<J>>, k: K, j: J, t: Tally)
    requires Nested(outer, inner)
    ensures Nested(Bump(outer, k, t), inner[k := Bump(InnerOf(inner, k), j, t)])
  {
    var src := InnerOf(inner, k);
    var outer', inner' := Bump(outer, k, t), inner[k := Bump(src, j, t)];
    BumpNestedRow(outer, inner, k, j, t);
    forall x | x in inner' ensures Valid(inner'[x]) && outer'.rows[x] == Total(inner'[x]) {
      if x != k {
        assert inner'[x] == inner[x] && outer'.rows[x] == outer.rows[x];
      }
    }
  }

  /** The bumped key's row is the total of its bumped inner dict. */
  lemma {:induction false} BumpNestedRow<K, J>(outer: Ledger<K>, inner: map<K, Ledger<J>>, k: K, j: J, t: Tally)
    requires Nested(outer, inner)
    ensures Valid(Bump(InnerOf(inner, k), j, t))
    ensures Bump(outer, k, t).rows[k] == Total(Bump(InnerOf(inner, k), j, t))
  {
    var src := InnerOf(inner, k);
    EmptyLedgerTotal<J>();
    assert Valid(src) && outer.rows.Keys == inner.Keys;
    BumpTotal(src, j, t);
  }
}
