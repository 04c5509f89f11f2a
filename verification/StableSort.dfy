/** The stable sort that every ranking in the system relies on (`sort_by`), and the algebra
    that lets sorts, filters and "take the first" be rearranged. */
module StableSort {
  import opened Basics

  ghost predicate TotalPreorder<T(!new)>(le: (T, T) -> bool) {
    && (forall x, y :: le(x, y) || le(y, x))
    && (forall x, y, z :: le(x, y) && le(y, z) ==> le(x, z))
  }

  ghost predicate Sorted<T>(le: (T, T) -> bool, s: seq<T>) {
    forall i, j :: 0 <= i < j < |s| ==> le(s[i], s[j])
  }

  /** Insert `x` before the first element it does not have to follow. */
  function Insert<T>(le: (T, T) -> bool, x: T, s: seq<T>): seq<T> {
    if s == [] || le(x, s[0]) then [x] + s else [s[0]] + Insert(le, x, s[1..])
  }

  function Sort<T>(le: (T, T) -> bool, s: seq<T>): seq<T> {
    if s == [] then [] else Insert(le, s[0], Sort(le, s[1..]))
  }

  lemma {:induction false} InsertMembers<T>(le: (T, T) -> bool, x: T, s: seq<T>)
    ensures multiset(Insert(le, x, s)) == multiset{x} + multiset(s)
    ensures forall y :: y in Insert(le, x, s) <==> y == x || y in s
    ensures |Insert(le, x, s)| == |s| + 1
  {
    if !(s == [] || le(x, s[0])) {
      InsertMembers(le, x, s[1..]);
      assert s == [s[0]] + s[1..];
    }
  }

  lemma {:induction false} InsertSorted<T(!new)>(le: (T, T) -> bool, x: T, s: seq<T>)
    requires TotalPreorder(le) && Sorted(le, s)
    ensures Sorted(le, Insert(le, x, s))
  {
    if s == [] {
    } else if le(x, s[0]) {
      assert forall k :: 0 <= k < |s| ==> le(s[0], s[k]);
    } else {
      InsertSorted(le, x, s[1..]);
      InsertMembers(le, x, s[1..]);
      var t := Insert(le, x, s[1..]);
      assert le(s[0], x);
      forall k | 0 <= k < |t| ensures le(s[0], t[k]) {
        assert t[k] in t;
      }
    }
  }

  /** `Sort` orders the input and rearranges it without adding or losing anything. */
  lemma {:induction false} SortOrders<T(!new)>(le: (T, T) -> bool, s: seq<T>)
    requires TotalPreorder(le)
    ensures Sorted(le, Sort(le, s))
    ensures multiset(Sort(le, s)) == multiset(s)
    ensures |Sort(le, s)| == |s|
    ensures forall x :: x in Sort(le, s) <==> x in s
  {
    if s != [] {
      SortOrders(le, s[1..]);
      InsertSorted(le, s[0], Sort(le, s[1..]));
      InsertMembers(le, s[0], Sort(le, s[1..]));
      assert s == [s[0]] + s[1..];
    }
  }

  // --- filters ---

  lemma {:induction false} InsertFilter<T(!new)>(le: (T, T) -> bool, p: T -> bool, x: T, s: seq<T>)
    requires TotalPreorder(le) && Sorted(le, s)
    ensures Filter(p, Insert(le, x, s)) ==
            if p(x) then Insert(le, x, Filter(p, s)) else Filter(p, s)
  {
    if s == [] {
    } else if le(x, s[0]) {
      assert ([x] + s)[1..] == s;
      FilterMembers(p, s);
      var f := Filter(p, s);
      if f != [] {
        assert f[0] in s;
        assert le(s[0], f[0]);
      }
    } else {
      InsertFilter(le, p, x, s[1..]);
      var t := Insert(le, x, s[1..]);
      assert ([s[0]] + t)[1..] == t;
    }
  }

  /** A stable sort commutes with every filter. */
  lemma {:induction false} SortCommutesWithFilter<T(!new)>(le: (T, T) -> bool, p: T -> bool, s: seq<T>)
    requires TotalPreorder(le)
    ensures Filter(p, Sort(le, s)) == Sort(le, Filter(p, s))
  {
    if s != [] {
      SortCommutesWithFilter(le, p, s[1..]);
      SortOrders(le, s[1..]);
      InsertFilter(le, p, s[0], Sort(le, s[1..]));
      if p(s[0]) {
        assert Filter(p, s)[1..] == Filter(p, s[1..]);
      }
    }
  }

  // --- two sorts in a row ---

  /** Order by `first`; break its ties by `second`. */
  function Lex<T>(first: (T, T) -> bool, second: (T, T) -> bool): (T, T) -> bool {
    (x, y) => first(x, y) && (first(y, x) ==> second(x, y))
  }

  lemma LexIsPreorder<T(!new)>(first: (T, T) -> bool, second: (T, T) -> bool)
    requires TotalPreorder(first) && TotalPreorder(second)
    ensures TotalPreorder(Lex(first, second))
  {
    var le := Lex(first, second);
    forall x, y, z | le(x, y) && le(y, z) ensures le(x, z) {
      assert first(x, z);
      if first(z, x) {
        assert first(y, x) && first(z, y);
      }
    }
  }

  lemma {:induction false} InsertSame<T>(le: (T, T) -> bool, le': (T, T) -> bool, x: T, s: seq<T>)
    requires forall y :: y in s ==> le(x, y) == le'(x, y)
    ensures Insert(le, x, s) == Insert(le', x, s)
  {
    if s != [] && !le(x, s[0]) {
      InsertSame(le, le', x, s[1..]);
    }
  }

  /** Elements that are strictly ordered may be inserted in either order. */
  lemma {:induction false} InsertSwap<T(!new)>(le: (T, T) -> bool, x: T, y: T, s: seq<T>)
    requires TotalPreorder(le) && Sorted(le, s)
    requires !le(y, x)
    ensures Insert(le, x, Insert(le, y, s)) == Insert(le, y, Insert(le, x, s))
  {
    if s == [] {
    } else if le(x, s[0]) {
      if !le(y, s[0]) {
        assert ([x] + s)[1..] == s;
      } else {
        assert ([x] + s)[1..] == s;
      }
    } else {
      assert !le(y, s[0]);
      InsertSwap(le, x, y, s[1..]);
      assert ([s[0]] + Insert(le, y, s[1..]))[1..] == Insert(le, y, s[1..]);
      assert ([s[0]] + Insert(le, x, s[1..]))[1..] == Insert(le, x, s[1..]);
    }
  }

  lemma {:induction false} SortAfterInsert<T(!new)>(first: (T, T) -> bool, second: (T, T) -> bool, x: T, s: seq<T>)
    requires TotalPreorder(first) && TotalPreorder(second) && Sorted(second, s)
    ensures Sort(first, Insert(second, x, s)) == Insert(Lex(first, second), x, Sort(first, s))
  {
    var lex := Lex(first, second);
    SortOrders(first, s);
    if s == [] {
    } else if second(x, s[0]) {
      assert ([x] + s)[1..] == s;
      assert forall y :: y in s ==> second(x, y);
      InsertSame(first, lex, x, Sort(first, s));
    } else {
      var y, t := s[0], s[1..];
      assert ([y] + Insert(second, x, t))[1..] == Insert(second, x, t);
      SortAfterInsert(first, second, x, t);
      var u := Sort(first, t);
      SortOrders(first, t);
      InsertMembers(lex, x, u);
      assert second(y, x);
      assert forall z :: z in t ==> second(y, z);
      InsertSame(first, lex, y, Insert(lex, x, u));
      InsertSame(first, lex, y, u);
      LexIsPreorder(first, second);
      SortIsLexSorted(first, second, t);
      if lex(x, y) {
        assert !lex(y, x);
        InsertSwap(lex, x, y, u);
      } else {
        InsertSwap(lex, y, x, u);
      }
    }
  }

  lemma {:induction false} SortIsLexSorted<T(!new)>(first: (T, T) -> bool, second: (T, T) -> bool, s: seq<T>)
    requires TotalPreorder(first) && TotalPreorder(second) && Sorted(second, s)
    ensures Sorted(Lex(first, second), Sort(first, s))
  {
    if s != [] {
      var lex := Lex(first, second);
      var u := Sort(first, s[1..]);
      SortIsLexSorted(first, second, s[1..]);
      SortOrders(first, s[1..]);
      assert forall y :: y in s[1..] ==> second(s[0], y);
      InsertSame(first, lex, s[0], u);
      LexIsPreorder(first, second);
      InsertSorted(lex, s[0], u);
    }
  }

  /** Sorting by `second` and then by `first` is one sort by the lexicographic order. */
  lemma {:induction false} SortsCompose<T(!new)>(first: (T, T) -> bool, second: (T, T) -> bool, s: seq<T>)
    requires TotalPreorder(first) && TotalPreorder(second)
    ensures Sort(first, Sort(second, s)) == Sort(Lex(first, second), s)
  {
    if s != [] {
      SortsCompose(first, second, s[1..]);
      SortOrders(second, s[1..]);
      SortAfterInsert(first, second, s[0], Sort(second, s[1..]));
    }
  }

  // --- the first element ---

  /** Position `i` holds a least element, and no earlier position ties with it. */
  ghost predicate IsFirstMin<T>(le: (T, T) -> bool, s: seq<T>, i: int) {
    && 0 <= i < |s|
    && (forall j :: 0 <= j < |s| ==> le(s[i], s[j]))
    && (forall j :: 0 <= j < i ==> !le(s[j], s[i]))
  }

  /** The head of a stable sort is the earliest least element. */
  lemma {:induction false} HeadIsFirstMin<T(!new)>(le: (T, T) -> bool, s: seq<T>) returns (i: nat)
    requires TotalPreorder(le) && s != []
    ensures IsFirstMin(le, s, i)
    ensures Sort(le, s)[0] == s[i]
  {
    var t := s[1..];
    SortOrders(le, t);
    if t == [] || le(s[0], Sort(le, t)[0]) {
      i := 0;
      forall j | 0 <= j < |s| ensures le(s[0], s[j]) {
        if j > 0 {
          assert s[j] == t[j - 1] && t[j - 1] in Sort(le, t);
        }
      }
    } else {
      var k := HeadIsFirstMin(le, t);
      i := k + 1;
      forall j | 0 <= j < |s| ensures le(s[i], s[j]) {
        if j > 0 {
          assert s[j] == t[j - 1];
        }
      }
      forall j | 0 <= j < i ensures !le(s[j], s[i]) {
        if j > 0 {
          assert s[j] == t[j - 1];
        }
      }
    }
  }

  lemma HeadIsSomeFirstMin<T(!new)>(le: (T, T) -> bool, s: seq<T>)
    requires TotalPreorder(le) && s != []
    ensures Sort(le, s) != []
    ensures exists i :: IsFirstMin(le, s, i) && Sort(le, s)[0] == s[i]
  {
    SortOrders(le, s);
    var i := HeadIsFirstMin(le, s);
  }

  lemma {:induction false} FilterPosition<T>(p: T -> bool, s: seq<T>, i: nat) returns (k: nat)
    requires i < |Filter(p, s)|
    ensures k < |s| && s[k] == Filter(p, s)[i] && p(s[k]) && Filter(p, s[..k]) == Filter(p, s)[..i]
  {
    if p(s[0]) && i == 0 {
      k := 0;
    } else {
      k := FilterPosition(p, s[1..], if p(s[0]) then i - 1 else i);
      k := k + 1;
      assert s[..k] == [s[0]] + s[1..][..k - 1];
      FilterAppend(p, [s[0]], s[1..][..k - 1]);
      assert [s[0]][1..] == [];
    }
  }

  /** The first least of the kept elements, by its place in the whole list. */
  lemma FirstMinAt<T>(le: (T, T) -> bool, p: T -> bool, s: seq<T>, i: nat, k: nat, j: nat)
    requires IsFirstMin(le, Filter(p, s), i)
    requires k < |s| && s[k] == Filter(p, s)[i] && Filter(p, s[..k]) == Filter(p, s)[..i]
    requires j < |s| && p(s[j])
    ensures le(s[k], s[j]) && (j < k ==> !le(s[j], s[k]))
  {
    var kept := Filter(p, s);
    FilterMembers(p, s);
    var n :| 0 <= n < |kept| && kept[n] == s[j];
    if j < k {
      FilterMembers(p, s[..k]);
      assert s[..k][j] in s[..k];
      var m :| 0 <= m < i && kept[..i][m] == s[j];
      assert kept[m] == s[j];
    }
  }

  // --- `Sort` is the only stable sort ---

  function Ties<T>(le: (T, T) -> bool, x: T): T -> bool {
    y => le(x, y) && le(y, x)
  }

  /** `t` is sorted and, within every class of tied elements, keeps the order of `s`. */
  ghost predicate IsStableSortOf<T(!new)>(le: (T, T) -> bool, s: seq<T>, t: seq<T>) {
    && Sorted(le, t)
    && forall x :: Filter(Ties(le, x), t) == Filter(Ties(le, x), s)
  }

  lemma SortIsStable<T(!new)>(le: (T, T) -> bool, s: seq<T>, x: T)
    requires TotalPreorder(le)
    ensures Filter(Ties(le, x), Sort(le, s)) == Filter(Ties(le, x), s)
  {
    var p := Ties(le, x);
    SortCommutesWithFilter(le, p, s);
    FilterMembers(p, s);
    SortTied(le, Filter(p, s));
  }

  lemma {:induction false} SortTied<T(!new)>(le: (T, T) -> bool, s: seq<T>)
    requires forall x, y :: x in s && y in s ==> le(x, y)
    ensures Sort(le, s) == s
  {
    if s != [] {
      SortTied(le, s[1..]);
      if |s| > 1 {
        assert s[1] in s;
      }
    }
  }

  lemma {:induction false} SortedByClassesEqual<T(!new)>(le: (T, T) -> bool, a: seq<T>, b: seq<T>)
    requires TotalPreorder(le) && Sorted(le, a) && Sorted(le, b)
    requires forall x :: Filter(Ties(le, x), a) == Filter(Ties(le, x), b)
    ensures a == b
  {
    SameMembers(le, a, b);
    SameMembers(le, b, a);
    assert b != [] ==> b[0] in b;
    if a != [] {
      assert a[0] in a && a[0] in b;
      assert b[0] in b && b[0] in a;
      assert le(a[0], b[0]) && le(b[0], a[0]);
      assert Filter(Ties(le, a[0]), a)[0] == a[0];
      assert Filter(Ties(le, a[0]), b)[0] == b[0];
      forall x ensures Filter(Ties(le, x), a[1..]) == Filter(Ties(le, x), b[1..]) {
        var fa, fb := Filter(Ties(le, x), a), Filter(Ties(le, x), b);
        assert fa == fb;
        if Ties(le, x)(a[0]) {
          assert fa[1..] == Filter(Ties(le, x), a[1..]);
          assert fb[1..] == Filter(Ties(le, x), b[1..]);
        }
      }
      SortedByClassesEqual(le, a[1..], b[1..]);
    }
  }

  lemma SameMembers<T(!new)>(le: (T, T) -> bool, a: seq<T>, b: seq<T>)
    requires TotalPreorder(le)
    requires forall x :: Filter(Ties(le, x), a) == Filter(Ties(le, x), b)
    ensures forall x :: x in a ==> x in b
  {
    forall x | x in a ensures x in b {
      FilterMembers(Ties(le, x), a);
      FilterMembers(Ties(le, x), b);
      assert x in Filter(Ties(le, x), a);
    }
  }

  /** A rearrangement is a stable sort of `s` exactly when it is `Sort(le, s)`. */
  lemma StableSortUnique<T(!new)>(le: (T, T) -> bool, s: seq<T>, t: seq<T>)
    requires TotalPreorder(le)
    ensures IsStableSortOf(le, s, t) <==> t == Sort(le, s)
  {
    SortOrders(le, s);
    forall x ensures Filter(Ties(le, x), Sort(le, s)) == Filter(Ties(le, x), s) {
      SortIsStable(le, s, x);
    }
    if IsStableSortOf(le, s, t) {
      SortedByClassesEqual(le, t, Sort(le, s));
    }
  }
}
