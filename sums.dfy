/**
 * Sums over sets and products over maps: the value of folding `+` or `*` over an
 * unordered collection (a `HashSet` or the values of a `HashMap`), which does not
 * depend on the order in which the collection is visited.
 */
module Sums {

  /** The sum of f over the elements of s. */
  ghost function SetSum<T>(s: set<T>, f: T -> int): int
    decreases |s|
  {
    if s == {} then 0 else var x :| x in s; f(x) + SetSum(s - {x}, f)
  }

  /** Any element can be taken out first: the sum does not depend on the visiting order. */
  lemma {:induction false} SetSumRemove<T>(s: set<T>, f: T -> int, y: T)
    requires y in s
    ensures SetSum(s, f) == f(y) + SetSum(s - {y}, f)
    decreases |s|
  {
    var x :| x in s && SetSum(s, f) == f(x) + SetSum(s - {x}, f);
    if x != y {
      SetSumRemove(s - {x}, f, y);
      SetSumRemove(s - {y}, f, x);
      assert s - {x} - {y} == s - {y} - {x};
    }
  }

  /** Adding a new element adds its value. */
  lemma SetSumInsert<T>(s: set<T>, f: T -> int, y: T)
    requires y !in s
    ensures SetSum(s + {y}, f) == SetSum(s, f) + f(y)
  {
    SetSumRemove(s + {y}, f, y);
    assert s + {y} - {y} == s;
  }

  /** One more element visited: the running sum over the visited elements grows by its value. */
  lemma SetSumStep<T>(all: set<T>, rest: set<T>, f: T -> int, y: T)
    requires y in rest && rest <= all
    ensures rest - {y} <= all && SetSum(all - (rest - {y}), f) == SetSum(all - rest, f) + f(y)
  {
    SetSumInsert(all - rest, f, y);
    assert all - (rest - {y}) == (all - rest) + {y};
  }

  /** The product of the values of m. */
  ghost function MapProduct<K>(m: map<K, nat>): nat
    decreases |m|
  {
    if m.Keys == {} then 1 else var k :| k in m.Keys; m[k] * MapProduct(m - {k})
  }

  /** Any key can be taken out first: the product does not depend on the visiting order. */
  lemma {:induction false} MapProductRemove<K>(m: map<K, nat>, y: K)
    requires y in m
    ensures MapProduct(m) == m[y] * MapProduct(m - {y})
    decreases |m|
  {
    var k :| k in m.Keys && MapProduct(m) == m[k] * MapProduct(m - {k});
    if k != y {
      MapProductRemove(m - {k}, y);
      MapProductRemove(m - {y}, k);
      assert m - {k} - {y} == m - {y} - {k};
    }
  }

  /** A new key multiplies the product by its value. */
  lemma MapProductInsert<K>(m: map<K, nat>, y: K, v: nat)
    requires y !in m
    ensures MapProduct(m[y := v]) == v * MapProduct(m)
  {
    MapProductRemove(m[y := v], y);
    assert m[y := v] - {y} == m;
  }

  /** A zero value makes the product zero. */
  lemma MapProductZero<K>(m: map<K, nat>, y: K)
    requires y in m && m[y] == 0
    ensures MapProduct(m) == 0
  {
    MapProductRemove(m, y);
  }
}
