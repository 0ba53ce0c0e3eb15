// Python's `sorted(xs, key=f)` over the values a timestamp can take: a
// stable sort that compares keys with `<`. Numbers (ints and bools) compare
// with numbers, strings with strings, code point by code point; a comparison
// across those kinds, or involving None or a dict, raises a TypeError.

module TimestampSort {

  /** The order class of a key as Python compares it. `Unordered` stands for
      a key no `<` accepts (None, a dict). */
  datatype SortKey = Unordered | Num(n: int) | Text(t: string)

  /** Python's `a <= b` on two strings: lexicographic by code point. */
  predicate TextLe(a: string, b: string)
    decreases |a|
  {
    |a| == 0 || (|b| > 0 && (a[0] < b[0] || (a[0] == b[0] && TextLe(a[1..], b[1..]))))
  }

  /** A total order on keys. Within one kind it is Python's `<=`; across
      kinds it is arbitrary, and used only where Python would have raised
      anyway or never compares (a list of at most one element). */
  predicate KeyLe(a: SortKey, b: SortKey)
  {
    match (a, b)
    case (Unordered, _) => true
    case (_, Unordered) => false
    case (Num(x), Num(y)) => x <= y
    case (Num(_), Text(_)) => true
    case (Text(_), Num(_)) => false
    case (Text(x), Text(y)) => TextLe(x, y)
  }

  lemma {:induction false} TextLeTotal(a: string, b: string)
    ensures TextLe(a, b) || TextLe(b, a)
    ensures TextLe(a, b) && TextLe(b, a) ==> a == b
    decreases |a|
  {
    if |a| > 0 && |b| > 0 && a[0] == b[0] {
      TextLeTotal(a[1..], b[1..]);
      if TextLe(a, b) && TextLe(b, a) {
        assert a == [a[0]] + a[1..] && b == [b[0]] + b[1..];
      }
    }
  }

  lemma {:induction false} TextLeTrans(a: string, b: string, c: string)
    requires TextLe(a, b) && TextLe(b, c)
    ensures TextLe(a, c)
    decreases |a|
  {
    if |a| > 0 && a[0] == b[0] && b[0] == c[0] {
      TextLeTrans(a[1..], b[1..], c[1..]);
    }
  }

  /** `KeyLe` is a total order: total (hence reflexive), antisymmetric and
      transitive. */
  lemma KeyLeOrder(a: SortKey, b: SortKey, c: SortKey)
    ensures KeyLe(a, b) || KeyLe(b, a)
    ensures KeyLe(a, b) && KeyLe(b, a) ==> a == b
    ensures KeyLe(a, b) && KeyLe(b, c) ==> KeyLe(a, c)
  {
    if a.Text? && b.Text? {
      TextLeTotal(a.t, b.t);
      if c.Text? && TextLe(a.t, b.t) && TextLe(b.t, c.t) {
        TextLeTrans(a.t, b.t, c.t);
      }
    }
  }

  /** `sorted` raises when it has two or more elements whose keys do not all
      belong to one comparable kind. */
  predicate Orderable<T>(s: seq<T>, key: T -> SortKey)
  {
    |s| <= 1
    || (forall i :: 0 <= i < |s| ==> key(s[i]).Num?)
    || (forall i :: 0 <= i < |s| ==> key(s[i]).Text?)
  }

  predicate SortedBy<T>(s: seq<T>, key: T -> SortKey)
  {
    forall i, j :: 0 <= i < j < |s| ==> KeyLe(key(s[i]), key(s[j]))
  }

  /** The elements of `s` whose key is `k`, in their order in `s`. */
  function WithKey<T>(s: seq<T>, key: T -> SortKey, k: SortKey): seq<T>
  {
    if s == [] then []
    else (if key(s[0]) == k then [s[0]] else []) + WithKey(s[1..], key, k)
  }

  /** Putting in front an element whose key is below every key of a sorted
      sequence keeps it sorted. */
  lemma SortedCons<T>(y: T, rest: seq<T>, key: T -> SortKey)
    requires SortedBy(rest, key)
    requires forall j :: 0 <= j < |rest| ==> KeyLe(key(y), key(rest[j]))
    ensures SortedBy([y] + rest, key)
  {
    var r := [y] + rest;
    forall i, j | 0 <= i < j < |r| ensures KeyLe(key(r[i]), key(r[j])) {
      assert r[j] == rest[j - 1];
      if i > 0 {
        assert r[i] == rest[i - 1];
      }
    }
  }

  /** Put `x` in front of the first element whose key is not smaller, so
      that `x` stays ahead of the elements with the same key. */
  function Insert<T>(x: T, t: seq<T>, key: T -> SortKey): (r: seq<T>)
    ensures multiset(r) == multiset(t) + multiset{x}
    ensures SortedBy(t, key) ==> SortedBy(r, key)
  {
    if t == [] || KeyLe(key(x), key(t[0])) then
      assert SortedBy(t, key) ==> SortedBy([x] + t, key) by {
        if SortedBy(t, key) {
          forall j | 0 <= j < |t| ensures KeyLe(key(x), key(t[j])) {
            KeyLeOrder(key(x), key(t[0]), key(t[j]));
          }
          SortedCons(x, t, key);
        }
      }
      [x] + t
    else
      var rest := Insert(x, t[1..], key);
      assert t == [t[0]] + t[1..];
      assert SortedBy(t, key) ==> SortedBy([t[0]] + rest, key) by {
        if SortedBy(t, key) {
          assert SortedBy(t[1..], key);
          forall j | 0 <= j < |rest| ensures KeyLe(key(t[0]), key(rest[j])) {
            assert rest[j] in multiset(rest);
            if rest[j] == x {
              KeyLeOrder(key(x), key(t[0]), key(t[0]));
            } else {
              assert rest[j] in multiset(t[1..]);
              var m :| 0 <= m < |t[1..]| && t[1..][m] == rest[j];
              assert t[m + 1] == rest[j];
            }
          }
          SortedCons(t[0], rest, key);
        }
      }
      [t[0]] + rest
  }

  /** `sorted(s, key=key)`: insertion sort, which is stable. */
  function SortBy<T>(s: seq<T>, key: T -> SortKey): (r: seq<T>)
    ensures multiset(r) == multiset(s)
    ensures |r| == |s|
    ensures SortedBy(r, key)
  {
    if s == [] then []
    else
      assert s == [s[0]] + s[1..];
      var r := Insert(s[0], SortBy(s[1..], key), key);
      assert |r| == |multiset(r)|;
      r
  }

  /** Two elements with strictly ordered keys come out smaller key first,
      whichever order they went in. */
  lemma SortTwo<T>(x: T, y: T, key: T -> SortKey)
    requires KeyLe(key(x), key(y)) && key(x) != key(y)
    ensures SortBy([x, y], key) == [x, y] && SortBy([y, x], key) == [x, y]
  {
    KeyLeOrder(key(x), key(y), key(x));
    assert [x, y][1..] == [y] && [y, x][1..] == [x];
    assert SortBy([y], key) == [y] && SortBy([x], key) == [x];
    assert Insert(y, [], key) == [y];
  }

  lemma {:induction false} WithKeyMembers<T>(s: seq<T>, key: T -> SortKey, k: SortKey, y: T)
    ensures y in WithKey(s, key, k) <==> y in s && key(y) == k
  {
    if s != [] {
      WithKeyMembers(s[1..], key, k, y);
      assert s == [s[0]] + s[1..];
    }
  }

  /** Inserting `x` adds it to its own key's group, ahead of the group's
      previous members, and leaves every other group as it was. */
  lemma {:induction false} InsertGroups<T>(x: T, t: seq<T>, key: T -> SortKey, k: SortKey)
    ensures WithKey(Insert(x, t, key), key, k) == WithKey([x], key, k) + WithKey(t, key, k)
  {
    var r := Insert(x, t, key);
    if t == [] || KeyLe(key(x), key(t[0])) {
      assert r == [x] + t && r[0] == x && r[1..] == t;
      WithKeyCons(r, key, k);
    } else {
      KeyLeOrder(key(x), key(t[0]), key(t[0]));
      assert r == [t[0]] + Insert(x, t[1..], key) && r[0] == t[0] && r[1..] == Insert(x, t[1..], key);
      InsertGroups(x, t[1..], key, k);
      WithKeyCons(r, key, k);
      WithKeyCons(t, key, k);
    }
  }

  lemma WithKeyCons<T>(s: seq<T>, key: T -> SortKey, k: SortKey)
    requires s != []
    ensures WithKey(s, key, k) == WithKey([s[0]], key, k) + WithKey(s[1..], key, k)
  {
    assert [s[0]][1..] == [];
  }

  /** The sort is stable: for every key, the elements with that key keep
      their input order. */
  lemma {:induction false} SortStable<T>(s: seq<T>, key: T -> SortKey, k: SortKey)
    ensures WithKey(SortBy(s, key), key, k) == WithKey(s, key, k)
  {
    if s != [] {
      SortStable(s[1..], key, k);
      InsertGroups(s[0], SortBy(s[1..], key), key, k);
      WithKeyCons(s, key, k);
    }
  }

  lemma HeadGroup<T>(s: seq<T>, key: T -> SortKey)
    ensures s != [] ==> WithKey(s, key, key(s[0])) != []
  {
  }

  /** A sorted sequence is determined by its groups: two sorted sequences
      whose elements of each key come in the same order are equal. */
  lemma {:induction false} SortedUnique<T>(a: seq<T>, b: seq<T>, key: T -> SortKey)
    requires SortedBy(a, key) && SortedBy(b, key)
    requires forall k :: WithKey(a, key, k) == WithKey(b, key, k)
    ensures a == b
    decreases |a|
  {
    if a == [] || b == [] {
      HeadGroup(a, key);
      HeadGroup(b, key);
    } else {
      var ka, kb := key(a[0]), key(b[0]);
      assert a[0] in WithKey(a, key, ka);
      WithKeyMembers(b, key, ka, a[0]);
      var j :| 0 <= j < |b| && b[j] == a[0];
      assert KeyLe(kb, ka) by {
        if j > 0 { assert KeyLe(key(b[0]), key(b[j])); } else { KeyLeOrder(kb, kb, kb); }
      }
      assert b[0] in WithKey(b, key, kb);
      WithKeyMembers(a, key, kb, b[0]);
      var i :| 0 <= i < |a| && a[i] == b[0];
      assert KeyLe(ka, kb) by {
        if i > 0 { assert KeyLe(key(a[0]), key(a[i])); } else { KeyLeOrder(ka, ka, ka); }
      }
      KeyLeOrder(ka, kb, ka);
      assert a[0] == b[0] by {
        assert WithKey(a, key, ka)[0] == a[0];
        assert WithKey(b, key, ka)[0] == b[0];
      }
      forall k ensures WithKey(a[1..], key, k) == WithKey(b[1..], key, k) {
        var p := if ka == k then [a[0]] else [];
        assert WithKey(a, key, k) == p + WithKey(a[1..], key, k);
        assert WithKey(b, key, k) == p + WithKey(b[1..], key, k);
        assert WithKey(a[1..], key, k) == WithKey(a, key, k)[|p|..];
        assert WithKey(b[1..], key, k) == WithKey(b, key, k)[|p|..];
      }
      SortedUnique(a[1..], b[1..], key);
      assert a == [a[0]] + a[1..] && b == [b[0]] + b[1..];
    }
  }

  predicate KeysDistinct<T>(s: seq<T>, key: T -> SortKey)
  {
    forall i, j :: 0 <= i < j < |s| ==> key(s[i]) != key(s[j])
  }

  /** Distinct keys are a property of the elements, not of their order. */
  lemma {:induction false} KeysDistinctPerm<T>(a: seq<T>, b: seq<T>, key: T -> SortKey)
    requires multiset(a) == multiset(b)
    requires KeysDistinct(a, key)
    ensures KeysDistinct(b, key)
    decreases |a|
  {
    if a == [] {
      assert |b| == |multiset(b)| == 0;
    } else {
      var x := a[0];
      assert x in multiset(a);
      assert x in b;
      var m :| 0 <= m < |b| && b[m] == x;
      var rest := RemoveAt(b, m);
      assert a == [x] + a[1..];
      assert multiset(a[1..]) == multiset(a) - multiset{x};
      KeysDistinctTail(a, key);
      KeysDistinctPerm(a[1..], rest, key);
      forall p | 0 <= p < |rest| ensures key(rest[p]) != key(x) {
        assert rest[p] in multiset(a[1..]);
        var q :| 0 <= q < |a[1..]| && a[1..][q] == rest[p];
      }
      KeysDistinctInsert(b, m, key);
    }
  }

  function RemoveAt<T>(b: seq<T>, m: nat): (r: seq<T>)
    requires m < |b|
    ensures multiset(r) == multiset(b) - multiset{b[m]}
    ensures |r| == |b| - 1
    ensures forall i :: 0 <= i < m ==> r[i] == b[i]
    ensures forall i :: m < i < |b| ==> r[i - 1] == b[i]
  {
    assert b == b[..m] + [b[m]] + b[m + 1..];
    b[..m] + b[m + 1..]
  }

  lemma KeysDistinctTail<T>(a: seq<T>, key: T -> SortKey)
    requires a != [] && KeysDistinct(a, key)
    ensures KeysDistinct(a[1..], key)
    ensures forall q :: 0 <= q < |a[1..]| ==> key(a[1..][q]) != key(a[0])
  {
    forall i, j | 0 <= i < j < |a[1..]| ensures key(a[1..][i]) != key(a[1..][j]) {
      assert a[1..][i] == a[i + 1] && a[1..][j] == a[j + 1];
    }
    forall q | 0 <= q < |a[1..]| ensures key(a[1..][q]) != key(a[0]) {
      assert a[1..][q] == a[q + 1];
    }
  }

  lemma KeysDistinctInsert<T>(b: seq<T>, m: nat, key: T -> SortKey)
    requires m < |b| && KeysDistinct(RemoveAt(b, m), key)
    requires forall p :: 0 <= p < |RemoveAt(b, m)| ==> key(RemoveAt(b, m)[p]) != key(b[m])
    ensures KeysDistinct(b, key)
  {
    var rest := RemoveAt(b, m);
    forall i, j | 0 <= i < j < |b| ensures key(b[i]) != key(b[j]) {
      if i == m {
        assert b[j] == rest[j - 1];
      } else if j == m {
        assert b[i] == rest[i];
      } else {
        var i' := if i < m then i else i - 1;
        var j' := if j < m then j else j - 1;
        assert b[i] == rest[i'] && b[j] == rest[j'];
      }
    }
  }

  lemma {:induction false} WithKeyAbsent<T>(s: seq<T>, key: T -> SortKey, k: SortKey)
    requires forall i :: 0 <= i < |s| ==> key(s[i]) != k
    ensures WithKey(s, key, k) == []
  {
    if s != [] {
      WithKeyAbsent(s[1..], key, k);
    }
  }

  lemma {:induction false} WithKeyDistinct<T>(s: seq<T>, key: T -> SortKey, k: SortKey)
    requires KeysDistinct(s, key)
    ensures |WithKey(s, key, k)| <= 1
  {
    if s != [] {
      if key(s[0]) == k {
        forall i | 0 <= i < |s[1..]| ensures key(s[1..][i]) != k {
          assert s[1..][i] == s[i + 1];
        }
        WithKeyAbsent(s[1..], key, k);
      } else {
        WithKeyDistinct(s[1..], key, k);
      }
    }
  }

  /** Two arrangements of the same elements with pairwise distinct keys have
      the same group for every key. */
  lemma SameGroups<T>(a: seq<T>, b: seq<T>, key: T -> SortKey, k: SortKey)
    requires multiset(a) == multiset(b)
    requires KeysDistinct(a, key) && KeysDistinct(b, key)
    ensures WithKey(a, key, k) == WithKey(b, key, k)
  {
    var wa, wb := WithKey(a, key, k), WithKey(b, key, k);
    WithKeyDistinct(a, key, k);
    WithKeyDistinct(b, key, k);
    if wa != [] {
      var x := wa[0];
      WithKeyMembers(a, key, k, x);
      assert x in multiset(b);
      WithKeyMembers(b, key, k, x);
      assert wb == [x];
    }
    if wb != [] {
      var y := wb[0];
      WithKeyMembers(b, key, k, y);
      assert y in multiset(a);
      WithKeyMembers(a, key, k, y);
    }
  }

  /** When no two keys are equal, the sorted result does not depend on the
      order the elements came in. */
  lemma OrderOfArrivalIrrelevant<T>(a: seq<T>, b: seq<T>, key: T -> SortKey)
    requires multiset(a) == multiset(b)
    requires KeysDistinct(a, key)
    ensures SortBy(a, key) == SortBy(b, key)
  {
    KeysDistinctPerm(a, b, key);
    forall k ensures WithKey(SortBy(a, key), key, k) == WithKey(SortBy(b, key), key, k) {
      SortStable(a, key, k);
      SortStable(b, key, k);
      SameGroups(a, b, key, k);
    }
    SortedUnique(SortBy(a, key), SortBy(b, key), key);
  }
}
