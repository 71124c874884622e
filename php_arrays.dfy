/**
 PHP arrays as ordered lists of key/value entries, and the array union operator `+`
 that the directory list is built with. Only what the directory list needs is modelled.
 */
module PhpArrays {
  import opened Wrappers

  datatype Key = IntKey(i: int) | StrKey(s: string)

  /** An ordered PHP array: its entries in iteration order. */
  type PhpArray<V> = seq<(Key, V)>

  /** A string PHP stores as an integer key: a decimal integer in canonical form
      ("0", "17", "-3"; not "07", "-0" or "+3"). */
  predicate IsIntegerString(s: string) {
    s == "0"
    || (var digits := if |s| > 0 && s[0] == '-' then s[1..] else s;
        |digits| > 0 && digits[0] != '0' && forall i | 0 <= i < |digits| :: '0' <= digits[i] <= '9')
  }

  /** The entry lists PHP can build: every key occurs once, and no string key is
      one PHP would have stored as an integer. */
  predicate WellFormed<V>(a: PhpArray<V>) {
    && (forall i, j | 0 <= i < j < |a| :: a[i].0 != a[j].0)
    && (forall i | 0 <= i < |a| :: a[i].0.StrKey? ==> !IsIntegerString(a[i].0.s))
  }

  /** A PHP array value as a program holds it. */
  type ValidArray<V> = a: PhpArray<V> | WellFormed(a) witness []

  /** `$a[$k]`: the value stored under key k (the first entry with that key). */
  function Lookup<V>(a: PhpArray<V>, k: Key): Option<V> {
    if a == [] then None
    else if a[0].0 == k then Some(a[0].1)
    else Lookup(a[1..], k)
  }

  /** The values in iteration order, as `foreach ($a as $v)` visits them. */
  function Values<V>(a: PhpArray<V>): (r: seq<V>)
    ensures |r| == |a| && forall i | 0 <= i < |r| :: r[i] == a[i].1
  {
    seq(|a|, i requires 0 <= i < |a| => a[i].1)
  }

  /** A list literal `[x0, x1, ...]`: keys 0, 1, ... in order. */
  function List<V>(xs: seq<V>): (r: PhpArray<V>)
    ensures |r| == |xs| && forall i | 0 <= i < |r| :: r[i] == (IntKey(i), xs[i])
  {
    seq(|xs|, i requires 0 <= i < |xs| => (IntKey(i), xs[i]))
  }

  /** The entries of b whose key a does not have. */
  function Unshadowed<V>(b: PhpArray<V>, a: PhpArray<V>): PhpArray<V> {
    if b == [] then []
    else (if Lookup(a, b[0].0).None? then [b[0]] else []) + Unshadowed(b[1..], a)
  }

  /** `$a + $b`: the entries of a, then those entries of b whose key a lacks. */
  function Union<V>(a: PhpArray<V>, b: PhpArray<V>): (r: PhpArray<V>)
    ensures |r| >= |a| && r[..|a|] == a
  {
    a + Unshadowed(b, a)
  }

  lemma {:induction false} LookupSome<V>(a: PhpArray<V>, k: Key)
    ensures Lookup(a, k).Some? <==> exists j | 0 <= j < |a| :: a[j].0 == k
  {
    if a != [] {
      LookupSome(a[1..], k);
      assert forall j | 1 <= j < |a| :: a[j] == a[1..][j - 1];
    }
  }

  lemma {:induction false} LookupAppend<V>(a: PhpArray<V>, b: PhpArray<V>, k: Key)
    ensures Lookup(a + b, k) == if Lookup(a, k).Some? then Lookup(a, k) else Lookup(b, k)
  {
    if a != [] {
      assert (a + b)[1..] == a[1..] + b;
      LookupAppend(a[1..], b, k);
    } else {
      assert a + b == b;
    }
  }

  lemma {:induction false} LookupUnshadowed<V>(b: PhpArray<V>, a: PhpArray<V>, k: Key)
    requires Lookup(a, k).None?
    ensures Lookup(Unshadowed(b, a), k) == Lookup(b, k)
  {
    if b != [] {
      var head: PhpArray<V> := if Lookup(a, b[0].0).None? then [b[0]] else [];
      LookupAppend(head, Unshadowed(b[1..], a), k);
      LookupUnshadowed(b[1..], a, k);
    }
  }

  /** The defining property of PHP's array union: a key of the left operand keeps
      its left value, any other key takes its value from the right operand. */
  lemma UnionLookup<V>(a: PhpArray<V>, b: PhpArray<V>, k: Key)
    ensures Lookup(Union(a, b), k) == if Lookup(a, k).Some? then Lookup(a, k) else Lookup(b, k)
  {
    LookupAppend(a, Unshadowed(b, a), k);
    if Lookup(a, k).None? {
      LookupUnshadowed(b, a, k);
    }
  }

  /** When the first m entries of b have keys of a and the rest do not, the union
      appends exactly b[m..]. */
  lemma {:induction false} UnshadowedSuffix<V>(b: PhpArray<V>, a: PhpArray<V>, m: nat)
    requires m <= |b|
    requires forall j | 0 <= j < m :: Lookup(a, b[j].0).Some?
    requires forall j | m <= j < |b| :: Lookup(a, b[j].0).None?
    ensures Unshadowed(b, a) == b[m..]
  {
    if b != [] {
      assert forall j | 1 <= j < |b| :: b[1..][j - 1] == b[j];
      UnshadowedSuffix(b[1..], a, if m == 0 then 0 else m - 1);
      if m == 0 {
        assert b[m..] == [b[0]] + b[1..];
      } else {
        assert b[m..] == b[1..][m - 1..];
      }
    }
  }

  /** A list array has exactly the integer keys 0 .. |xs|-1. */
  lemma ListHasKey<V>(xs: seq<V>, i: int)
    ensures Lookup(List(xs), IntKey(i)).Some? <==> 0 <= i < |xs|
  {
    LookupSome(List(xs), IntKey(i));
    if 0 <= i < |xs| {
      assert List(xs)[i].0 == IntKey(i);
    }
  }

  /** On two list arrays `+` keeps the whole left list and appends only the right
      list's entries past the left one's length. */
  lemma UnionOfLists<V>(xs: seq<V>, ys: seq<V>)
    ensures Values(Union(List(xs), List(ys))) == xs + (if |ys| <= |xs| then [] else ys[|xs|..])
  {
    var a, b := List(xs), List(ys);
    var m := if |ys| <= |xs| then |ys| else |xs|;
    forall j | 0 <= j < |b| ensures Lookup(a, b[j].0).Some? <==> j < m {
      ListHasKey(xs, j);
    }
    UnshadowedSuffix(b, a, m);
    var u := a + b[m..];
    assert Union(a, b) == u;
    var expected := xs + (if |ys| <= |xs| then [] else ys[|xs|..]);
    assert |Values(u)| == |expected|;
    forall i | 0 <= i < |u| ensures Values(u)[i] == expected[i] {
      if i >= |a| {
        assert u[i] == b[m + (i - |a|)];
      }
    }
  }

  /** When no key of b is a key of a, the union is plain concatenation. */
  lemma UnionDisjoint<V>(a: PhpArray<V>, b: PhpArray<V>)
    requires forall j | 0 <= j < |b| :: Lookup(a, b[j].0).None?
    ensures Union(a, b) == a + b
  {
    UnshadowedSuffix(b, a, 0);
  }

  lemma ValuesAppend<V>(a: PhpArray<V>, b: PhpArray<V>)
    ensures Values(a + b) == Values(a) + Values(b)
  {
  }

  /** A list literal is an array PHP can build. */
  lemma ListWellFormed<V>(xs: seq<V>)
    ensures WellFormed(List(xs))
  {
  }
}
