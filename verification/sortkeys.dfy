/**
 * The ordering map keys are rendered in.  Keys are int32, int64, uint32,
 * uint64, string or bool values; comparing any other kind, or keys of two
 * different kinds, panics.
 */
module SortKeys {
  datatype Key =
    | Int32Key(i: int)
    | Int64Key(i: int)
    | Uint32Key(n: nat)
    | Uint64Key(n: nat)
    | StringKey(s: string)
    | BoolKey(b: bool)
    | OtherKey(repr: string)  // a key of a kind the ordering has no case for

  /** Less can compare a and b: a is of a supported kind and b is of the same kind. */
  predicate Comparable(a: Key, b: Key)
  {
    match (a, b)
    case (Int32Key(_), Int32Key(_)) => true
    case (Int64Key(_), Int64Key(_)) => true
    case (Uint32Key(_), Uint32Key(_)) => true
    case (Uint64Key(_), Uint64Key(_)) => true
    case (StringKey(_), StringKey(_)) => true
    case (BoolKey(_), BoolKey(_)) => true
    case _ => false
  }

  /**
   * Go's `<` on strings: byte-wise lexicographic order, which on UTF-8 agrees
   * with the order of the code points compared here.
   */
  predicate StrLess(a: string, b: string)
  {
    if a == [] then b != []
    else if b == [] then false
    else if a[0] != b[0] then a[0] < b[0]
    else StrLess(a[1..], b[1..])
  }

  /** sortable.Less on two keys of one supported kind. */
  predicate KeyLess(a: Key, b: Key)
    requires Comparable(a, b)
  {
    match (a, b)
    case (Int32Key(x), Int32Key(y)) => x < y
    case (Int64Key(x), Int64Key(y)) => x < y
    case (Uint32Key(x), Uint32Key(y)) => x < y
    case (Uint64Key(x), Uint64Key(y)) => x < y
    case (StringKey(x), StringKey(y)) => StrLess(x, y)
    case (BoolKey(x), BoolKey(y)) => !x && y
  }

  lemma {:induction false} StrLessIrreflexive(a: string)
    ensures !StrLess(a, a)
  {
    if a != [] {
      StrLessIrreflexive(a[1..]);
    }
  }

  lemma {:induction false} StrLessTransitive(a: string, b: string, c: string)
    requires StrLess(a, b) && StrLess(b, c)
    ensures StrLess(a, c)
  {
    if a != [] && b != [] && c != [] && a[0] == b[0] && b[0] == c[0] {
      StrLessTransitive(a[1..], b[1..], c[1..]);
    }
  }

  lemma {:induction false} StrLessTotal(a: string, b: string)
    requires a != b
    ensures StrLess(a, b) || StrLess(b, a)
  {
    if a != [] && b != [] && a[0] == b[0] {
      assert a == [a[0]] + a[1..] && b == [b[0]] + b[1..];
      StrLessTotal(a[1..], b[1..]);
    }
  }

  /** No key is less than itself. */
  lemma Irreflexive(a: Key)
    requires Comparable(a, a)
    ensures !KeyLess(a, a)
  {
    if a.StringKey? {
      StrLessIrreflexive(a.s);
    }
  }

  /** Less is transitive on keys of one kind. */
  lemma Transitive(a: Key, b: Key, c: Key)
    requires Comparable(a, b) && Comparable(b, c)
    requires KeyLess(a, b) && KeyLess(b, c)
    ensures Comparable(a, c) && KeyLess(a, c)
  {
    if a.StringKey? {
      StrLessTransitive(a.s, b.s, c.s);
    }
  }

  /** Two different keys of one kind are ordered one way or the other. */
  lemma Total(a: Key, b: Key)
    requires Comparable(a, b) && a != b
    ensures KeyLess(a, b) || KeyLess(b, a)
  {
    if a.StringKey? {
      StrLessTotal(a.s, b.s);
    }
  }

  /** For bools, false comes before true and nothing else is less. */
  lemma FalseBeforeTrue(x: bool, y: bool)
    ensures KeyLess(BoolKey(x), BoolKey(y)) <==> (x == false && y == true)
  {
  }

  /** The keys of one map can be sorted: all of them are pairwise comparable. */
  predicate Homogeneous(ks: set<Key>)
  {
    forall a, b | a in ks && b in ks :: Comparable(a, b)
  }

  predicate IsLeast(ks: set<Key>, m: Key)
    requires Homogeneous(ks)
  {
    m in ks && forall k | k in ks && k != m :: KeyLess(m, k)
  }

  lemma {:induction false} LeastExists(ks: set<Key>)
    requires Homogeneous(ks) && ks != {}
    ensures exists m :: IsLeast(ks, m)
    decreases |ks|
  {
    var x :| x in ks;
    var rest := ks - {x};
    if rest == {} {
      assert ks == {x};
      assert IsLeast(ks, x);
    } else {
      LeastExists(rest);
      var m :| IsLeast(rest, m);
      if KeyLess(x, m) {
        forall k | k in ks && k != x
          ensures KeyLess(x, k)
        {
          if k != m {
            Transitive(x, m, k);
          }
        }
        assert IsLeast(ks, x);
      } else {
        Total(x, m);
        assert IsLeast(ks, m);
      }
    }
  }

  lemma LeastUnique(ks: set<Key>, m1: Key, m2: Key)
    requires Homogeneous(ks) && IsLeast(ks, m1) && IsLeast(ks, m2)
    ensures m1 == m2
  {
    if m1 != m2 {
      Transitive(m1, m2, m1);
      Irreflexive(m1);
    }
  }

  /** Strictly increasing: every key is less than every later one. */
  predicate Ascending(s: seq<Key>)
  {
    forall i, j | 0 <= i < j < |s| :: Comparable(s[i], s[j]) && KeyLess(s[i], s[j])
  }

  lemma LeastIsUnique(ks: set<Key>)
    requires Homogeneous(ks)
    ensures forall m1, m2 | IsLeast(ks, m1) && IsLeast(ks, m2) :: m1 == m2
  {
    forall m1, m2 | IsLeast(ks, m1) && IsLeast(ks, m2)
      ensures m1 == m2
    {
      LeastUnique(ks, m1, m2);
    }
  }

  lemma AscendingCons(ks: set<Key>, m: Key, rest: seq<Key>)
    requires Homogeneous(ks) && IsLeast(ks, m)
    requires Ascending(rest) && forall k :: k in rest <==> k in ks - {m}
    ensures Ascending([m] + rest)
  {
    var r := [m] + rest;
    forall i, j | 0 <= i < j < |r|
      ensures Comparable(r[i], r[j]) && KeyLess(r[i], r[j])
    {
      if i == 0 {
        assert r[j] == rest[j - 1] && rest[j - 1] in rest;
      } else {
        assert r[i] == rest[i - 1] && r[j] == rest[j - 1];
      }
    }
  }

  /**
   * The keys in the order sort.Sort(sortable(keys)) leaves them: the least
   * key first.  Any correct sort gives this sequence (see Unique).
   */
  function Sorted(ks: set<Key>): (r: seq<Key>)
    requires Homogeneous(ks)
    ensures |r| == |ks| && (forall k :: k in r <==> k in ks)
    ensures Ascending(r)
    decreases |ks|
  {
    if ks == {} then []
    else
      LeastExists(ks);
      LeastIsUnique(ks);
      var m :| IsLeast(ks, m);
      var rest := Sorted(ks - {m});
      AscendingCons(ks, m, rest);
      [m] + rest
  }

  lemma SameKeysBothEmpty(a: seq<Key>, b: seq<Key>)
    requires forall k :: k in a <==> k in b
    ensures a == [] <==> b == []
  {
    if a != [] {
      assert a[0] in a;
    }
    if b != [] {
      assert b[0] in b;
    }
  }

  /** Two ascending sequences holding the same keys start with the same key. */
  lemma SameHead(a: seq<Key>, b: seq<Key>)
    requires Ascending(a) && Ascending(b) && a != [] && b != []
    requires forall k :: k in a <==> k in b
    ensures a[0] == b[0]
  {
    assert a[0] in a && b[0] in b;
    if a[0] != b[0] {
      var i :| 0 <= i < |b| && b[i] == a[0];
      var j :| 0 <= j < |a| && a[j] == b[0];
      assert KeyLess(a[0], a[j]);
      assert KeyLess(b[0], b[i]);
      Transitive(a[0], b[0], a[0]);
      Irreflexive(a[0]);
    }
  }

  /** With the same head, a key after the head of one is after the head of the other. */
  lemma SameTail(a: seq<Key>, b: seq<Key>, k: Key)
    requires Ascending(a) && a != [] && b != [] && a[0] == b[0]
    requires forall k :: k in a <==> k in b
    ensures k in a[1..] ==> k in b[1..]
  {
    if k in a[1..] {
      var i :| 0 <= i < |a| - 1 && a[1..][i] == k;
      assert KeyLess(a[0], a[i + 1]);
      Irreflexive(a[0]);
      assert k in b && k != b[0];
      var l :| 0 <= l < |b| && b[l] == k;
      assert b[1..][l - 1] == k;
    }
  }

  /** Two ascending sequences holding the same keys are the same sequence. */
  lemma {:induction false} Unique(a: seq<Key>, b: seq<Key>)
    requires Ascending(a) && Ascending(b)
    requires forall k :: k in a <==> k in b
    ensures a == b
    decreases |a|
  {
    SameKeysBothEmpty(a, b);
    if a != [] {
      SameHead(a, b);
      forall k
        ensures k in a[1..] <==> k in b[1..]
      {
        SameTail(a, b, k);
        SameTail(b, a, k);
      }
      Unique(a[1..], b[1..]);
      assert a == [a[0]] + a[1..] && b == [b[0]] + b[1..];
    }
  }

  /** sortable.Len: the number of keys. */
  function Len(s: array<Key>): (n: int)
    ensures n == s.Length
  {
    s.Length
  }

  /** sortable.Less on positions i and j. */
  predicate Less(s: array<Key>, i: int, j: int)
    requires 0 <= i < s.Length && 0 <= j < s.Length && Comparable(s[i], s[j])
    reads s
  {
    KeyLess(s[i], s[j])
  }

  /** sortable.Swap: the two positions trade places and nothing else moves. */
  method Swap(s: array<Key>, i: int, j: int)
    requires 0 <= i < s.Length && 0 <= j < s.Length
    modifies s
    ensures s[i] == old(s[j]) && s[j] == old(s[i])
    ensures forall k | 0 <= k < s.Length && k != i && k != j :: s[k] == old(s[k])
    ensures multiset(s[..]) == multiset(old(s[..]))
  {
    s[i], s[j] := s[j], s[i];
  }
}
