// Shared vocabulary of the model: optional values, plane points, squared
// distances (so that `distance <= r` is decided exactly over `real`), and the
// few JavaScript number and string behaviours the game code leans on.
module Common {

  datatype Option<T> = None | Some(value: T)

  datatype Result<T, E> = Success(value: T) | Failure(error: E)

  /** A position on the game plane (Phaser world coordinates). */
  datatype Point = Point(x: real, y: real)

  function Sq(a: real): (r: real)
    ensures r >= 0.0
  {
    a * a
  }

  /** Squared Euclidean distance; comparisons of distances are made on it. */
  function DistSq(p: Point, q: Point): (d: real)
    ensures d >= 0.0
  {
    Sq(p.x - q.x) + Sq(p.y - q.y)
  }

  /** `Phaser.Math.Distance.Between(p, q) <= r`, decided without a square root. */
  predicate WithinDist(p: Point, q: Point, r: real)
  {
    r >= 0.0 && DistSq(p, q) <= Sq(r)
  }

  /** `Phaser.Math.Distance.Between(p, q) < r`, decided without a square root. */
  predicate CloserThan(p: Point, q: Point, r: real)
  {
    r > 0.0 && DistSq(p, q) < Sq(r)
  }

  /** For non-negative distances, comparing squares is comparing distances. */
  lemma SqMonotone(a: real, b: real)
    requires 0.0 <= a && 0.0 <= b
    ensures a <= b <==> Sq(a) <= Sq(b)
    ensures a < b <==> Sq(a) < Sq(b)
  {
    if a < b {
      var u, v := b - a, b + a;
      MulPos(u, v);
      assert Sq(b) - Sq(a) == u * v;
    } else if b < a {
      var u, v := a - b, a + b;
      MulPos(u, v);
      assert Sq(a) - Sq(b) == u * v;
    }
  }

  lemma MulPos(x: real, y: real)
    requires x > 0.0 && y > 0.0
    ensures x * y > 0.0
  {
  }

  /** `d` is the Euclidean distance from p to q. */
  predicate IsDistance(p: Point, q: Point, d: real)
  {
    d >= 0.0 && Sq(d) == DistSq(p, q)
  }

  lemma IsDistanceWithin(p: Point, q: Point, d: real, r: real)
    requires IsDistance(p, q, d)
    ensures WithinDist(p, q, r) <==> d <= r
    ensures CloserThan(p, q, r) <==> d < r
  {
    if r >= 0.0 { SqMonotone(d, r); }
  }

  function Abs(a: int): (r: nat)
    ensures r == a || r == -a
  {
    if a < 0 then -a else a
  }

  /** `Math.max` on two numbers. */
  function MaxR(a: real, b: real): (r: real)
    ensures r >= a && r >= b && (r == a || r == b)
  {
    if a >= b then a else b
  }

  /** JavaScript `a % b` on integers: the sign follows the dividend. */
  function JsRem(a: int, b: int): (r: int)
    requires b != 0
    ensures a >= 0 ==> 0 <= r < Abs(b)
    ensures a < 0 ==> -(Abs(b) as int) < r <= 0
  {
    if a >= 0 then a % b else -((-a) % b)
  }

  /** ASCII part of `String.prototype.toLowerCase`. */
  function LowerChar(c: char): (d: char)
    ensures !('A' <= d <= 'Z')
    ensures !('A' <= c <= 'Z') ==> d == c
  {
    if 'A' <= c <= 'Z' then (c as int - 'A' as int + 'a' as int) as char else c
  }

  function Lower(s: string): (t: string)
    ensures |t| == |s|
    ensures forall i :: 0 <= i < |s| ==> t[i] == LowerChar(s[i])
  {
    if s == [] then [] else [LowerChar(s[0])] + Lower(s[1..])
  }

  lemma {:induction false} LowerIdempotent(s: string)
    ensures Lower(Lower(s)) == Lower(s)
  {
    if s != [] {
      LowerIdempotent(s[1..]);
      assert Lower(s)[1..] == Lower(s[1..]);
    }
  }

  /** JavaScript `Array.prototype.slice(0, end)`: a negative end counts from the back. */
  function JsSliceEnd(n: nat, end: int): (k: nat)
    ensures k <= n
    ensures 0 <= end ==> k == if end < n then end else n
    ensures end < 0 ==> k == if n + end > 0 then n + end else 0
  {
    if end >= 0 then (if end < n then end else n)
    else if n + end > 0 then n + end else 0
  }

  /** Sum of a sequence of integers. */
  function Sum(s: seq<int>): int
  {
    if s == [] then 0 else s[0] + Sum(s[1..])
  }

  lemma {:induction false} SumAppend(s: seq<int>, t: seq<int>)
    ensures Sum(s + t) == Sum(s) + Sum(t)
  {
    if s == [] {
      assert s + t == t;
    } else {
      assert (s + t)[1..] == s[1..] + t;
      SumAppend(s[1..], t);
    }
  }

  /** No element of `s` occurs before its own position. */
  predicate NoDuplicates<T(==)>(s: seq<T>)
  {
    forall j :: 0 <= j < |s| ==> s[j] !in s[..j]
  }

  lemma NoDuplicatesAt<T>(s: seq<T>, i: nat)
    requires NoDuplicates(s) && i < |s|
    ensures forall j :: 0 <= j < |s| && j != i ==> s[j] != s[i]
  {
    forall j | 0 <= j < |s| && j != i
      ensures s[j] != s[i]
    {
      if j < i {
        assert s[..i][j] == s[j];
      } else {
        assert s[..j][i] == s[i];
      }
    }
  }

  /** The elements of `s` with duplicates removed, first occurrence kept (what `new Set(s)` iterates). */
  function Distinct<T(==)>(s: seq<T>): (r: seq<T>)
    ensures forall i :: 0 <= i < |s| ==> s[i] in r
    ensures forall i :: 0 <= i < |r| ==> r[i] in s
    ensures forall i, j :: 0 <= i < j < |r| ==> r[i] != r[j]
    ensures |r| <= |s|
  {
    if s == [] then []
    else
      var rest := Distinct(s[..|s| - 1]);
      if s[|s| - 1] in rest then rest else rest + [s[|s| - 1]]
  }

  /** A sequence without repeats has as many distinct elements as it is long. */
  lemma {:induction false} DistinctElements<T>(s: seq<T>)
    requires forall i, j :: 0 <= i < j < |s| ==> s[i] != s[j]
    ensures |set x | x in s| == |s|
  {
    if s != [] {
      var t := s[..|s| - 1];
      DistinctElements(t);
      assert (set x | x in s) == (set x | x in t) + {s[|s| - 1]};
    }
  }

  /** A sequence without repeats, all of whose elements occur in another one without repeats, is no longer than it. */
  lemma DistinctWithin<T>(a: seq<T>, b: seq<T>)
    requires forall i, j :: 0 <= i < j < |a| ==> a[i] != a[j]
    requires forall i, j :: 0 <= i < j < |b| ==> b[i] != b[j]
    requires forall i :: 0 <= i < |a| ==> a[i] in b
    ensures |a| <= |b|
  {
    DistinctElements(a);
    DistinctElements(b);
    var sa, sb := set x | x in a, set x | x in b;
    assert sb == sa + (sb - sa);
  }

  /** `s.filter(e => e !== x)`: every element except x, in order. */
  function Without<T(==)>(s: seq<T>, x: T): (r: seq<T>)
    ensures x !in r
    ensures forall i :: 0 <= i < |r| ==> r[i] in s
    ensures forall i :: 0 <= i < |s| && s[i] != x ==> s[i] in r
    ensures |r| <= |s|
    ensures x !in s ==> r == s
  {
    if s == [] then [] else (if s[0] == x then [] else [s[0]]) + Without(s[1..], x)
  }

  lemma {:induction false} WithoutAppend<T>(s: seq<T>, t: seq<T>, x: T)
    ensures Without(s + t, x) == Without(s, x) + Without(t, x)
  {
    if s == [] {
      assert s + t == t;
    } else {
      assert (s + t)[1..] == s[1..] + t;
      WithoutAppend(s[1..], t, x);
    }
  }

  /** `Array.prototype.indexOf`: the first position of x, or -1. */
  function IndexOf<T(==)>(s: seq<T>, x: T): (k: int)
    ensures -1 <= k < |s|
    ensures k >= 0 ==> s[k] == x && x !in s[..k]
    ensures k < 0 ==> x !in s
  {
    if s == [] then -1
    else if s[0] == x then 0
    else
      var k := IndexOf(s[1..], x);
      if k < 0 then -1
      else
        assert s[..k + 1] == [s[0]] + s[1..][..k];
        k + 1
  }

  /** `const i = s.indexOf(x); if (i > -1) s.splice(i, 1)`: the first occurrence of x removed. */
  function RemoveFirst<T(==)>(s: seq<T>, x: T): (r: seq<T>)
    ensures x !in s ==> r == s
    ensures x in s ==> |r| == |s| - 1 && multiset(r) == multiset(s) - multiset{x}
  {
    var k := IndexOf(s, x);
    if k > -1 then
      assert s == s[..k] + [x] + s[k + 1..];
      s[..k] + s[k + 1..]
    else s
  }

  lemma NoDuplicatesRemoveFirst<T>(s: seq<T>, x: T)
    requires NoDuplicates(s)
    ensures NoDuplicates(RemoveFirst(s, x))
    ensures x !in RemoveFirst(s, x)
    ensures forall i :: 0 <= i < |RemoveFirst(s, x)| ==> RemoveFirst(s, x)[i] in s
  {
    var k := IndexOf(s, x);
    if k > -1 {
      NoDuplicatesDrop(s, k);
    }
  }

  /** Removing the last element of a list without duplicates drops it. */
  lemma RemoveFirstLast<T>(s: seq<T>)
    requires NoDuplicates(s) && |s| > 0
    ensures RemoveFirst(s, s[|s| - 1]) == s[..|s| - 1]
  {
    NoDuplicatesAt(s, |s| - 1);
    assert IndexOf(s, s[|s| - 1]) == |s| - 1;
  }

  /** The position in s of the j-th element once s[k] is dropped. */
  lemma DropAt<T>(s: seq<T>, k: nat, j: nat)
    requires k < |s| && j < |s| - 1
    ensures (s[..k] + s[k + 1..])[j] == s[if j < k then j else j + 1]
  {
  }

  lemma NoDuplicatesDrop<T>(s: seq<T>, k: nat)
    requires NoDuplicates(s) && k < |s|
    ensures NoDuplicates(s[..k] + s[k + 1..])
    ensures s[k] !in s[..k] + s[k + 1..]
    ensures forall x :: x in s[..k] + s[k + 1..] ==> x in s
  {
    var r := s[..k] + s[k + 1..];
    forall j | 0 <= j < |r|
      ensures r[j] !in r[..j] && r[j] in s
    {
      var jj := if j < k then j else j + 1;
      DropAt(s, k, j);
      NoDuplicatesAt(s, jj);
      forall m | 0 <= m < j
        ensures r[..j][m] != r[j]
      {
        DropAt(s, k, m);
      }
    }
    NoDuplicatesAt(s, k);
    forall m | 0 <= m < |r|
      ensures r[m] != s[k]
    {
      DropAt(s, k, m);
    }
  }

  lemma NoDuplicatesSnoc<T>(s: seq<T>, x: T)
    requires NoDuplicates(s) && x !in s
    ensures NoDuplicates(s + [x])
  {
    var r := s + [x];
    forall j | 0 <= j < |r|
      ensures r[j] !in r[..j]
    {
      assert r[..j] == if j < |s| then s[..j] else s;
    }
  }

  lemma NoDuplicatesGrow<T>(s: seq<T>, x: T)
    ensures NoDuplicates(s) && x !in s ==> NoDuplicates(s + [x])
  {
    if NoDuplicates(s) && x !in s {
      NoDuplicatesSnoc(s, x);
    }
  }

  lemma NoDuplicatesPrefix<T>(s: seq<T>, n: nat)
    requires NoDuplicates(s) && n <= |s|
    ensures NoDuplicates(s[..n])
  {
    forall j | 0 <= j < n
      ensures s[..n][j] !in s[..n][..j]
    {
      assert s[..n][..j] == s[..j];
    }
  }

  lemma ConcatAssoc<T>(a: seq<T>, b: seq<T>, c: seq<T>)
    ensures (a + b) + c == a + (b + c)
  {
  }

  lemma DropSnoc<T>(s: seq<T>, x: T, n: nat)
    requires n <= |s|
    ensures (s + [x])[n..] == s[n..] + [x]
  {
  }

  lemma TakeSnoc<T>(s: seq<T>, i: nat)
    requires i < |s|
    ensures s[..i + 1] == s[..i] + [s[i]]
  {
  }

  lemma TakeAll<T>(s: seq<T>)
    ensures s[..|s|] == s
  {
  }

  /**
   * A JavaScript `Map` with string keys: its entries, and its keys in
   * insertion order (the order `forEach`, `keys()` and `values()` visit them).
   */
  datatype OrderedMap<V> = OrderedMap(keys: seq<string>, entries: map<string, V>)

  ghost predicate MapValid<V>(m: OrderedMap<V>)
  {
    NoDuplicates(m.keys) && forall k :: k in m.entries <==> k in m.keys
  }

  function EmptyMap<V>(): (m: OrderedMap<V>)
    ensures MapValid(m) && m.entries == map[]
  {
    OrderedMap([], map[])
  }

  /** `m.set(k, v)`: a new key goes last; an existing key keeps its place and takes the new value. */
  function Put<V>(m: OrderedMap<V>, k: string, v: V): (r: OrderedMap<V>)
    ensures r.entries == m.entries[k := v]
    ensures k in m.keys ==> r.keys == m.keys
    ensures k !in m.keys ==> r.keys == m.keys + [k]
    ensures MapValid(m) ==> MapValid(r)
  {
    if k in m.keys then OrderedMap(m.keys, m.entries[k := v])
    else
      NoDuplicatesGrow(m.keys, k);
      OrderedMap(m.keys + [k], m.entries[k := v])
  }

  /** `entries.forEach(([k, v]) => m.set(k, v))`. */
  function PutAll<V>(m: OrderedMap<V>, kvs: seq<(string, V)>): (r: OrderedMap<V>)
    ensures MapValid(m) ==> MapValid(r)
  {
    if kvs == [] then m
    else
      var front := PutAll(m, kvs[..|kvs| - 1]);
      var last := kvs[|kvs| - 1];
      Put(front, last.0, last.1)
  }

  /** The items as key and value pairs, each keyed by `key`, in their own order. */
  function KeyedBy<T>(xs: seq<T>, key: T -> string): (kvs: seq<(string, T)>)
    ensures |kvs| == |xs|
    ensures forall i :: 0 <= i < |xs| ==> kvs[i] == (key(xs[i]), xs[i])
  {
    if xs == [] then [] else KeyedBy(xs[..|xs| - 1], key) + [(key(xs[|xs| - 1]), xs[|xs| - 1])]
  }

  /** Putting one more keyed item is one more `set`. */
  lemma PutAllKeyedStep<V>(m: OrderedMap<V>, xs: seq<V>, i: nat, key: V -> string)
    requires i < |xs|
    ensures PutAll(m, KeyedBy(xs[..i + 1], key)) == Put(PutAll(m, KeyedBy(xs[..i], key)), key(xs[i]), xs[i])
  {
    assert xs[..i + 1][..i] == xs[..i];
    assert KeyedBy(xs[..i + 1], key)[..i] == KeyedBy(xs[..i], key);
  }

  /** `Array.from(m.values())`. */
  function Values<V>(m: OrderedMap<V>): (vs: seq<V>)
    requires forall k :: k in m.keys ==> k in m.entries
    ensures |vs| == |m.keys|
    ensures forall i :: 0 <= i < |m.keys| ==> vs[i] == m.entries[m.keys[i]]
    decreases |m.keys|
  {
    if m.keys == [] then []
    else Values(OrderedMap(m.keys[..|m.keys| - 1], m.entries)) + [m.entries[m.keys[|m.keys| - 1]]]
  }

  // ---- decimal numerals, as `String(n)` writes an integer ----

  function DigitChar(d: nat): (c: char)
    requires d < 10
    ensures '0' <= c <= '9'
  {
    ('0' as int + d) as char
  }

  predicate IsDigits(s: string)
  {
    forall i :: 0 <= i < |s| ==> '0' <= s[i] <= '9'
  }

  /** The decimal numeral of n, without leading zeros. */
  function NatString(n: nat): (s: string)
    ensures s != [] && IsDigits(s)
  {
    if n < 10 then [DigitChar(n)] else NatString(n / 10) + [DigitChar(n % 10)]
  }

  /** Reads a decimal numeral back. */
  function ParseDigits(s: string): nat
    requires IsDigits(s)
  {
    if s == [] then 0 else ParseDigits(s[..|s| - 1]) * 10 + (s[|s| - 1] as int - '0' as int)
  }

  lemma {:induction false} ParseNatString(n: nat)
    ensures ParseDigits(NatString(n)) == n
  {
    if n >= 10 {
      var s := NatString(n);
      assert s[..|s| - 1] == NatString(n / 10);
      ParseNatString(n / 10);
    } else {
      assert NatString(n)[..0] == [];
    }
  }

  /** JavaScript's `String(i)` for an integer. */
  function IntString(i: int): (s: string)
    ensures s != [] && ',' !in s
  {
    if i < 0 then "-" + NatString(-i) else NatString(i)
  }

  lemma NatStringInjective(a: nat, b: nat)
    requires NatString(a) == NatString(b)
    ensures a == b
  {
    ParseNatString(a);
    ParseNatString(b);
  }

  /** Only the numeral of a negative integer starts with a minus sign. */
  lemma IntStringSign(i: int)
    ensures IntString(i)[0] == '-' <==> i < 0
    ensures i < 0 ==> IntString(i)[1..] == NatString(-i)
    ensures i >= 0 ==> IntString(i) == NatString(i)
  {
    if i >= 0 {
      assert '0' <= NatString(i)[0] <= '9';
    }
  }

  lemma IntStringInjective(i: int, j: int)
    requires IntString(i) == IntString(j)
    ensures i == j
  {
    IntStringSign(i);
    IntStringSign(j);
    if i < 0 {
      NatStringInjective(-i, -j);
    } else {
      NatStringInjective(i, j);
    }
  }
}
