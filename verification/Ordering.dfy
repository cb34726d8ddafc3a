/**
 Sort keys and the stable sort behind Python's `sorted(xs, key=...)`: tuples of
 strings and integers compare lexicographically, strings by code point.
 */
module Ordering {

  datatype KeyPart = Num(n: int) | Text(s: string)

  type Key = seq<KeyPart>

  predicate TextLe(a: string, b: string)
  {
    a == [] || (b != [] && (a[0] < b[0] || (a[0] == b[0] && TextLe(a[1..], b[1..]))))
  }

  predicate PartLe(a: KeyPart, b: KeyPart)
  {
    match (a, b)
    case (Num(x), Num(y)) => x <= y
    case (Text(x), Text(y)) => TextLe(x, y)
    case (Num(_), Text(_)) => true
    case (Text(_), Num(_)) => false
  }

  predicate KeyLe(a: Key, b: Key)
  {
    a == [] || (b != [] && if a[0] == b[0] then KeyLe(a[1..], b[1..]) else PartLe(a[0], b[0]))
  }

  /** The texts differ first at `i`, where `a` has the lower code point. */
  predicate FirstLower(a: string, b: string, i: nat)
  {
    i < |a| && i < |b| && a[..i] == b[..i] && a[i] as int < b[i] as int
  }

  lemma {:induction false} FirstLowerShifts(c: char, a: string, b: string, i: nat)
    ensures FirstLower([c] + a, [c] + b, i + 1) <==> FirstLower(a, b, i)
  {
    var x, y := [c] + a, [c] + b;
    if i <= |a| && i <= |b| {
      assert x[..i + 1] == [c] + a[..i] && y[..i + 1] == [c] + b[..i];
      assert ([c] + a[..i])[1..] == a[..i] && ([c] + b[..i])[1..] == b[..i];
    }
  }

  lemma PrefixShifts(c: char, a: string, b: string)
    ensures [c] + a <= [c] + b <==> a <= b
  {
    if |a| <= |b| { assert ([c] + b)[..|a| + 1] == [c] + b[..|a|]; }
    if [c] + a <= [c] + b { assert a == ([c] + a)[1..]; }
  }

  /** By code point at the first difference, a prefix first. */
  lemma {:induction false} TextLeExactly(a: string, b: string)
    ensures TextLe(a, b) <==> a <= b || exists i: nat :: FirstLower(a, b, i)
  {
    if a != [] && b != [] {
      var x, y := a[1..], b[1..];
      assert a == [a[0]] + x && b == [b[0]] + y;
      if a[0] == b[0] {
        TextLeExactly(x, y);
        PrefixShifts(a[0], x, y);
        if i: nat :| FirstLower(a, b, i) {
          FirstLowerShifts(a[0], x, y, i - 1);
          assert FirstLower(x, y, i - 1);
        }
        if i: nat :| FirstLower(x, y, i) {
          FirstLowerShifts(a[0], x, y, i);
          assert FirstLower(a, b, i + 1);
        }
      } else {
        assert FirstLower(a, b, 0) <==> a[0] < b[0];
        assert forall i: nat :: 0 < i < |a| && i < |b| ==> a[..i][0] == a[0] && b[..i][0] == b[0];
      }
    }
  }

  lemma TextOrder(a: string, b: string)
    ensures TextLe(a, b) || TextLe(b, a)
    ensures TextLe(a, b) && TextLe(b, a) ==> a == b
  {
    if a != [] && b != [] {
      TextOrder(a[1..], b[1..]);
      assert a == [a[0]] + a[1..] && b == [b[0]] + b[1..];
    }
  }

  lemma TextTransitive(a: string, b: string, c: string)
    requires TextLe(a, b) && TextLe(b, c)
    ensures TextLe(a, c)
  {
    if a != [] && a[0] == b[0] == c[0] {
      TextTransitive(a[1..], b[1..], c[1..]);
    }
  }

  lemma PartOrder(a: KeyPart, b: KeyPart, c: KeyPart)
    ensures PartLe(a, b) || PartLe(b, a)
    ensures PartLe(a, b) && PartLe(b, a) ==> a == b
    ensures PartLe(a, b) && PartLe(b, c) ==> PartLe(a, c)
  {
    if a.Text? && b.Text? {
      TextOrder(a.s, b.s);
      if c.Text? && TextLe(a.s, b.s) && TextLe(b.s, c.s) {
        TextTransitive(a.s, b.s, c.s);
      }
    }
  }

  lemma KeyOrder(a: Key, b: Key)
    ensures KeyLe(a, b) || KeyLe(b, a)
    ensures KeyLe(a, b) && KeyLe(b, a) ==> a == b
  {
    if a != [] && b != [] {
      PartOrder(a[0], b[0], b[0]);
      KeyOrder(a[1..], b[1..]);
      assert a == [a[0]] + a[1..] && b == [b[0]] + b[1..];
    }
  }

  lemma KeyTransitive(a: Key, b: Key, c: Key)
    requires KeyLe(a, b) && KeyLe(b, c)
    ensures KeyLe(a, c)
  {
    if a != [] {
      PartOrder(a[0], b[0], c[0]);
      PartOrder(b[0], a[0], c[0]);
      if a[0] == b[0] == c[0] {
        KeyTransitive(a[1..], b[1..], c[1..]);
      }
    }
  }

  ghost predicate Sorted<T(!new)>(s: seq<T>, key: T -> Key)
  {
    forall i, j :: 0 <= i < j < |s| ==> KeyLe(key(s[i]), key(s[j]))
  }

  function Insert<T(!new)>(x: T, s: seq<T>, key: T -> Key): (r: seq<T>)
    ensures multiset(r) == multiset(s) + multiset{x}
    ensures Sorted(s, key) ==> Sorted(r, key)
  {
    if s == [] then [x]
    else if KeyLe(key(x), key(s[0])) then
      assert Sorted(s, key) ==> Sorted([x] + s, key) by { InsertFront(x, s, key); }
      [x] + s
    else
      assert s == [s[0]] + s[1..];
      var t := Insert(x, s[1..], key);
      assert Sorted(s, key) ==> Sorted([s[0]] + t, key) by { InsertBack(x, s, t, key); }
      [s[0]] + t
  }

  lemma InsertFront<T(!new)>(x: T, s: seq<T>, key: T -> Key)
    requires s != [] && KeyLe(key(x), key(s[0]))
    ensures Sorted(s, key) ==> Sorted([x] + s, key)
  {
    if Sorted(s, key) {
      forall j | 0 <= j < |s| ensures KeyLe(key(x), key(s[j])) {
        if j > 0 { KeyTransitive(key(x), key(s[0]), key(s[j])); }
      }
    }
  }

  lemma InsertBack<T(!new)>(x: T, s: seq<T>, t: seq<T>, key: T -> Key)
    requires s != [] && !KeyLe(key(x), key(s[0]))
    requires multiset(t) == multiset(s[1..]) + multiset{x}
    requires Sorted(s[1..], key) ==> Sorted(t, key)
    ensures Sorted(s, key) ==> Sorted([s[0]] + t, key)
  {
    if Sorted(s, key) {
      forall j | 0 <= j < |t| ensures KeyLe(key(s[0]), key(t[j])) {
        KeyOrder(key(x), key(s[0]));
        assert t[j] in multiset(t);
        if t[j] != x {
          assert t[j] in s[1..];
          var k :| 0 <= k < |s[1..]| && s[1..][k] == t[j];
          assert s[k + 1] == t[j];
        }
      }
    }
  }

  /** Stable: an element goes before the equal-keyed ones that follow it in `s`. */
  function SortBy<T(!new)>(s: seq<T>, key: T -> Key): (r: seq<T>)
    ensures multiset(r) == multiset(s)
    ensures Sorted(r, key)
  {
    if s == [] then [] else
      assert s == [s[0]] + s[1..];
      Insert(s[0], SortBy(s[1..], key), key)
  }

  lemma SortKeepsMembers<T(!new)>(s: seq<T>, key: T -> Key)
    ensures |SortBy(s, key)| == |s|
    ensures forall x :: x in SortBy(s, key) <==> x in s
  {
    var r := SortBy(s, key);
    assert |multiset(r)| == |multiset(s)|;
    forall x ensures x in r <==> x in s {
      assert x in r <==> x in multiset(r);
      assert x in s <==> x in multiset(s);
    }
  }

  ghost predicate KeyedApart<T(!new)>(s: seq<T>, key: T -> Key)
  {
    forall x, y :: x in s && y in s && key(x) == key(y) ==> x == y
  }

  lemma HeadIsLeast<T(!new)>(a: seq<T>, x: T, key: T -> Key)
    requires Sorted(a, key) && x in a
    ensures KeyLe(key(a[0]), key(x))
  {
    KeyOrder(key(a[0]), key(a[0]));
  }

  lemma TailKeeps<T(!new)>(a: seq<T>, key: T -> Key)
    requires a != []
    ensures Sorted(a, key) ==> Sorted(a[1..], key)
    ensures KeyedApart(a, key) ==> KeyedApart(a[1..], key)
    ensures multiset(a[1..]) == multiset(a) - multiset{a[0]}
  {
    assert a == [a[0]] + a[1..];
    assert forall x :: x in a[1..] ==> x in a;
  }

  /** Two sorted arrangements of the same elements agree when the key tells elements apart. */
  lemma {:induction false} SortedIsUnique<T(!new)>(a: seq<T>, b: seq<T>, key: T -> Key)
    requires multiset(a) == multiset(b)
    requires Sorted(a, key) && Sorted(b, key) && KeyedApart(a, key)
    ensures a == b
  {
    if a == [] {
      assert |multiset(b)| == 0;
    } else {
      assert |b| == |multiset(b)| == |multiset(a)| > 0;
      var x, y := a[0], b[0];
      assert x == y by {
        assert x in multiset(b) && y in multiset(a);
        HeadIsLeast(b, x, key);
        HeadIsLeast(a, y, key);
        KeyOrder(key(x), key(y));
      }
      TailKeeps(a, key);
      TailKeeps(b, key);
      SortedIsUnique(a[1..], b[1..], key);
      assert a == [x] + a[1..] && b == [y] + b[1..];
    }
  }

  lemma SortIgnoresOrder<T(!new)>(a: seq<T>, b: seq<T>, key: T -> Key)
    requires multiset(a) == multiset(b) && KeyedApart(a, key)
    ensures SortBy(a, key) == SortBy(b, key)
  {
    SortKeepsMembers(a, key);
    SortedIsUnique(SortBy(a, key), SortBy(b, key), key);
  }

  /** Sorting an already sorted sequence changes nothing. */
  lemma {:induction false} SortOfSorted<T(!new)>(s: seq<T>, key: T -> Key)
    requires Sorted(s, key)
    ensures SortBy(s, key) == s
  {
    if s != [] {
      SortOfSorted(s[1..], key);
      assert s == [s[0]] + s[1..];
      if |s| > 1 { assert KeyLe(key(s[0]), key(s[1])); }
    }
  }

  function WithKey<T(!new)>(s: seq<T>, key: T -> Key, k: Key): seq<T>
  {
    if s == [] then [] else (if key(s[0]) == k then [s[0]] else []) + WithKey(s[1..], key, k)
  }

  lemma {:induction false} WithKeyCons<T(!new)>(x: T, s: seq<T>, key: T -> Key, k: Key)
    ensures WithKey([x] + s, key, k) == (if key(x) == k then [x] else []) + WithKey(s, key, k)
  {
    assert ([x] + s)[1..] == s;
  }

  lemma {:induction false} PassesOver<T(!new)>(x: T, y: T, t: seq<T>, rest: seq<T>, key: T -> Key, k: Key)
    requires key(x) != key(y) && WithKey(t, key, k) == WithKey([x] + rest, key, k)
    ensures WithKey([y] + t, key, k) == WithKey([x] + ([y] + rest), key, k)
  {
    WithKeyCons(y, t, key, k);
    WithKeyCons(x, rest, key, k);
    WithKeyCons(y, rest, key, k);
    WithKeyCons(x, [y] + rest, key, k);
  }

  lemma {:induction false} InsertIsStable<T(!new)>(x: T, s: seq<T>, key: T -> Key, k: Key)
    ensures WithKey(Insert(x, s, key), key, k) == WithKey([x] + s, key, k)
  {
    if s != [] && !KeyLe(key(x), key(s[0])) {
      KeyOrder(key(x), key(s[0]));
      InsertIsStable(x, s[1..], key, k);
      PassesOver(x, s[0], Insert(x, s[1..], key), s[1..], key, k);
      assert s == [s[0]] + s[1..];
    }
  }

  /** Elements of one key keep the order they came in. */
  lemma {:induction false} SortIsStable<T(!new)>(s: seq<T>, key: T -> Key, k: Key)
    ensures WithKey(SortBy(s, key), key, k) == WithKey(s, key, k)
  {
    if s != [] {
      SortIsStable(s[1..], key, k);
      InsertIsStable(s[0], SortBy(s[1..], key), key, k);
      WithKeyCons(s[0], SortBy(s[1..], key), key, k);
    }
  }

  ghost predicate NoRepeats<T(!new)>(s: seq<T>) { forall i, k :: 0 <= i < k < |s| ==> s[i] != s[k] }

  lemma {:induction false} CountTwice<T(!new)>(s: seq<T>, i: nat, k: nat)
    requires i < k < |s| && s[i] == s[k]
    ensures multiset(s)[s[i]] >= 2
  {
    assert s == s[..k] + s[k..];
    assert s[i] in multiset(s[..k]) by { assert s[..k][i] == s[i]; }
    assert s[i] in multiset(s[k..]) by { assert s[k..][0] == s[i]; }
  }

  lemma {:induction false} CountOnce<T(!new)>(s: seq<T>, x: T)
    requires NoRepeats(s)
    ensures multiset(s)[x] <= 1
  {
    if s != [] {
      CountOnce(s[1..], x);
      assert s == [s[0]] + s[1..];
      if s[0] == x {
        assert x !in s[1..];
      }
    }
  }

  /** Rearranging does not repeat anything. */
  lemma {:induction false} StillNoRepeats<T(!new)>(a: seq<T>, b: seq<T>)
    requires multiset(a) == multiset(b) && NoRepeats(a)
    ensures NoRepeats(b)
  {
    forall i, k | 0 <= i < k < |b| ensures b[i] != b[k] {
      if b[i] == b[k] {
        CountTwice(b, i, k);
        CountOnce(a, b[i]);
      }
    }
  }

  function TextKey(s: string): Key { [Text(s)] }

  /** Each element once, in the order of first occurrence. */
  function Unique(s: seq<string>): (r: seq<string>)
    ensures forall x :: x in r <==> x in s
    ensures NoRepeats(r)
  {
    if s == [] then []
    else
      assert s == s[..|s| - 1] + [s[|s| - 1]];
      var r := Unique(s[..|s| - 1]);
      if s[|s| - 1] in r then r else r + [s[|s| - 1]]
  }

  /** `sorted(set(s))`. */
  function SortedSet(s: seq<string>): seq<string> { SortBy(Unique(s), TextKey) }

  lemma {:induction false} SortedSetFacts(s: seq<string>)
    ensures NoRepeats(SortedSet(s)) && forall x :: x in SortedSet(s) <==> x in s
    ensures forall i, k :: 0 <= i < k < |SortedSet(s)| ==> KeyLe(TextKey(SortedSet(s)[i]), TextKey(SortedSet(s)[k]))
  {
    SortKeepsMembers(Unique(s), TextKey);
    StillNoRepeats(Unique(s), SortedSet(s));
  }

  lemma {:induction false} SameCounts(a: seq<string>, b: seq<string>)
    requires NoRepeats(a) && NoRepeats(b) && forall x :: x in a <==> x in b
    ensures multiset(a) == multiset(b)
  {
    forall x ensures multiset(a)[x] == multiset(b)[x] {
      CountOnce(a, x);
      CountOnce(b, x);
      assert x in multiset(a) <==> x in a;
      assert x in multiset(b) <==> x in b;
    }
  }

  /** A sorted set depends on its members only. */
  lemma {:induction false} SortedSetIsCanonical(a: seq<string>, b: seq<string>)
    requires forall x :: x in a <==> x in b
    ensures SortedSet(a) == SortedSet(b)
  {
    SameCounts(Unique(a), Unique(b));
    forall x, y | x in Unique(a) && y in Unique(a) && TextKey(x) == TextKey(y) ensures x == y {
      assert TextKey(x)[0] == TextKey(y)[0];
    }
    SortIgnoresOrder(Unique(a), Unique(b), TextKey);
  }
}
