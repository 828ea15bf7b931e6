/** Small helpers shared by every module: an option type and finite sums over maps. */
module Common {

  datatype Option<+T> = None | Some(value: T)

  /** The value stored under `k`, if any: what `map::find` answers. */
  function Lookup<K, V>(m: map<K, V>, k: K): (r: Option<V>)
    ensures r.Some? <==> k in m
    ensures r.Some? ==> r.value == m[k]
  {
    if k in m then Some(m[k]) else None
  }

  /** The sum of all values of a finite map. */
  ghost function Total<K>(m: map<K, nat>): nat {
    if m == map[] then 0
    else
      var k :| k in m;
      m[k] + Total(m - {k})
  }

  /** The sum does not depend on which key is taken out first. */
  lemma {:induction false} TotalRemove<K>(m: map<K, nat>, k: K)
    requires k in m
    ensures Total(m) == m[k] + Total(m - {k})
    decreases |m|
  {
    var j :| j in m && Total(m) == m[j] + Total(m - {j});
    if j != k {
      TotalRemove(m - {j}, k);
      TotalRemove(m - {k}, j);
      assert m - {j} - {k} == m - {k} - {j};
    }
  }

  lemma TotalPut<K>(m: map<K, nat>, k: K, n: nat)
    ensures Total(m[k := n]) == Total(m) - (if k in m then m[k] else 0) + n
  {
    TotalRemove(m[k := n], k);
    assert m[k := n] - {k} == m - {k};
    if k in m {
      TotalRemove(m, k);
    } else {
      assert m - {k} == m;
    }
  }

  lemma TotalDrop<K>(m: map<K, nat>, k: K)
    ensures Total(m - {k}) == Total(m) - (if k in m then m[k] else 0)
  {
    if k in m {
      TotalRemove(m, k);
    } else {
      assert m - {k} == m;
    }
  }

  /** What each element gives, one after another. */
  function Flat<L, T>(f: L -> seq<T>, lines: seq<L>): seq<T> {
    if lines == [] then [] else Flat(f, lines[..|lines| - 1]) + f(lines[|lines| - 1])
  }

  lemma {:induction false} FlatConcat<L, T>(f: L -> seq<T>, a: seq<L>, b: seq<L>)
    ensures Flat(f, a + b) == Flat(f, a) + Flat(f, b)
    decreases |b|
  {
    if b == [] {
      assert a + b == a;
    } else {
      FlatConcat(f, a, b[..|b| - 1]);
      assert (a + b)[..|a + b| - 1] == a + b[..|b| - 1];
    }
  }

  lemma FlatOne<L, T>(f: L -> seq<T>, line: L)
    ensures Flat(f, [line]) == f(line)
  {
    assert Flat(f, [line]) == Flat(f, []) + f(line);
  }

  lemma FlatCons<L, T>(f: L -> seq<T>, first: L, rest: seq<L>)
    ensures Flat(f, [first] + rest) == f(first) + Flat(f, rest)
  {
    FlatConcat(f, [first], rest);
    FlatOne(f, first);
  }

  lemma FlatFirst<L, T>(f: L -> seq<T>, xs: seq<L>)
    requires xs != []
    ensures Flat(f, xs) == f(xs[0]) + Flat(f, xs[1..])
  {
    FlatCons(f, xs[0], xs[1..]);
    assert [xs[0]] + xs[1..] == xs;
  }

  lemma FlatSplit<L, T>(f: L -> seq<T>, xs: seq<L>, tail: seq<T>)
    requires xs != []
    ensures Flat(f, xs) + tail == f(xs[0]) + (Flat(f, xs[1..]) + tail)
  {
    FlatFirst(f, xs);
    Regroup(f(xs[0]), Flat(f, xs[1..]), tail);
  }

  lemma Regroup<T>(a: seq<T>, b: seq<T>, c: seq<T>)
    ensures a + b + c == a + (b + c)
  {
  }

  lemma {:induction false} FlatSame<L, T>(f: L -> seq<T>, g: L -> seq<T>, xs: seq<L>)
    requires forall i :: 0 <= i < |xs| ==> f(xs[i]) == g(xs[i])
    ensures Flat(f, xs) == Flat(g, xs)
  {
    if xs != [] {
      FlatSame(f, g, xs[..|xs| - 1]);
    }
  }

  lemma {:induction false} FlatEmpty<L, T>(f: L -> seq<T>, xs: seq<L>)
    requires forall i :: 0 <= i < |xs| ==> f(xs[i]) == []
    ensures Flat(f, xs) == []
  {
    if xs != [] {
      FlatEmpty(f, xs[..|xs| - 1]);
    }
  }

  lemma {:induction false} FlatSingles<T>(f: T -> seq<T>, xs: seq<T>)
    requires forall i :: 0 <= i < |xs| ==> f(xs[i]) == [xs[i]]
    ensures Flat(f, xs) == xs
  {
    if xs != [] {
      FlatSingles(f, xs[..|xs| - 1]);
    }
  }

  predicate Every<T>(ok: T -> bool, xs: seq<T>) { forall i :: 0 <= i < |xs| ==> ok(xs[i]) }

  lemma EveryConcat<T>(ok: T -> bool, a: seq<T>, b: seq<T>)
    ensures Every(ok, a + b) <==> Every(ok, a) && Every(ok, b)
  {
    assert forall i :: 0 <= i < |b| ==> (a + b)[|a| + i] == b[i];
    assert forall i :: 0 <= i < |a| ==> (a + b)[i] == a[i];
  }

  lemma {:induction false} FlatEvery<L, T>(f: L -> seq<T>, ok: T -> bool, xs: seq<L>)
    ensures Every(ok, Flat(f, xs)) <==> forall i :: 0 <= i < |xs| ==> Every(ok, f(xs[i]))
  {
    if xs != [] {
      FlatEvery(f, ok, xs[..|xs| - 1]);
      EveryConcat(ok, Flat(f, xs[..|xs| - 1]), f(xs[|xs| - 1]));
    }
  }
}
