/** Small shared vocabulary: options, results, duplicate-free sequences and a canonical sort. */
module Prelude {

  datatype Option<+T> = None | Some(value: T)

  datatype Result<+T, +E> = Ok(value: T) | Err(error: E)

  /** Two positions never hold the same element. */
  ghost predicate Distinct<T(!new)>(s: seq<T>) {
    forall i, j :: 0 <= i < j < |s| ==> s[i] != s[j]
  }

  /** The same statement without positions, so that it is visibly blind to order. */
  lemma {:induction false} DistinctIsOrderBlind<T(!new)>(s: seq<T>)
    ensures Distinct(s) <==> forall x :: multiset(s)[x] <= 1
  {
    if s == [] {
    } else {
      var front, last := s[..|s| - 1], s[|s| - 1];
      assert s == front + [last];
      DistinctIsOrderBlind(front);
      if Distinct(s) {
        assert last !in front;
        assert multiset(front)[last] == 0;
      }
      if forall x :: multiset(s)[x] <= 1 {
        assert forall x :: multiset(front)[x] <= multiset(s)[x];
        assert multiset(s)[last] == multiset(front)[last] + 1;
        assert last !in front;
      }
    }
  }

  ghost predicate Prefix<T>(a: seq<T>, b: seq<T>) { a <= b }

  /** Where an element first is. */
  function PositionOf<T(==)>(s: seq<T>, x: T): (at: Option<nat>)
    ensures at.None? <==> x !in s
    ensures at.Some? ==> at.value < |s| && s[at.value] == x && x !in s[..at.value]
  {
    if s == [] then None
    else if s[0] == x then Some(0)
    else
      match PositionOf(s[1..], x)
      case None => None
      case Some(at) =>
        assert s[..at + 1] == [s[0]] + s[1..][..at];
        Some(at + 1)
  }

  /** The elements to keep, in their order. */
  function Filter<T>(s: seq<T>, keep: T -> bool): (r: seq<T>) {
    if s == [] then [] else Filter(s[..|s| - 1], keep) + if keep(s[|s| - 1]) then [s[|s| - 1]] else []
  }

  lemma {:induction false} FilterMembers<T(!new)>(s: seq<T>, keep: T -> bool)
    ensures forall x :: x in Filter(s, keep) <==> x in s && keep(x)
  {
    if s != [] {
      FilterMembers(s[..|s| - 1], keep);
      assert s == s[..|s| - 1] + [s[|s| - 1]];
    }
  }

  lemma {:induction false} FilterJoins<T>(a: seq<T>, b: seq<T>, keep: T -> bool)
    ensures Filter(a + b, keep) == Filter(a, keep) + Filter(b, keep)
  {
    if b == [] {
      assert a + b == a;
    } else {
      FilterJoins(a, b[..|b| - 1], keep);
      assert (a + b)[..|a + b| - 1] == a + b[..|b| - 1];
    }
  }

  lemma {:induction false} FilterAll<T(!new)>(s: seq<T>, keep: T -> bool)
    requires forall x :: x in s ==> keep(x)
    ensures Filter(s, keep) == s
  {
    if s != [] {
      FilterAll(s[..|s| - 1], keep);
      assert s == s[..|s| - 1] + [s[|s| - 1]];
    }
  }

  lemma {:induction false} FilterNone<T(!new)>(s: seq<T>, keep: T -> bool)
    requires forall x :: x in s ==> !keep(x)
    ensures Filter(s, keep) == []
  {
    if s != [] {
      FilterNone(s[..|s| - 1], keep);
    }
  }

  lemma {:induction false} FilterTwice<T(!new)>(s: seq<T>, first: T -> bool, second: T -> bool, both: T -> bool)
    requires forall x :: both(x) <==> first(x) && second(x)
    ensures Filter(Filter(s, first), second) == Filter(s, both)
  {
    if s != [] {
      var front, last := s[..|s| - 1], [s[|s| - 1]];
      FilterTwice(front, first, second, both);
      FilterJoins(Filter(front, first), last, second);
      assert last[..0] == [];
      assert Filter(front, first) + [] == Filter(front, first);
    }
  }

  lemma FilteredIsMember<T(!new)>(s: seq<T>, keep: T -> bool, i: nat) returns (a: nat)
    requires i < |Filter(s, keep)|
    ensures a < |s| && s[a] == Filter(s, keep)[i] && keep(s[a])
  {
    FilterMembers(s, keep);
    assert Filter(s, keep)[i] in s;
    a :| a < |s| && s[a] == Filter(s, keep)[i];
  }

  /** A property of every pair in order survives a filter. */
  lemma {:induction false} FilterKeepsPairs<T(!new)>(s: seq<T>, keep: T -> bool, holds: (T, T) -> bool)
    requires forall i, j :: 0 <= i < j < |s| && keep(s[i]) && keep(s[j]) ==> holds(s[i], s[j])
    ensures forall i, j :: 0 <= i < j < |Filter(s, keep)| ==> holds(Filter(s, keep)[i], Filter(s, keep)[j])
  {
    if s != [] {
      var front := s[..|s| - 1];
      FilterKeepsPairs(front, keep, holds);
      if keep(s[|s| - 1]) {
        forall i | 0 <= i < |Filter(front, keep)| ensures holds(Filter(front, keep)[i], s[|s| - 1]) {
          var a := FilteredIsMember(front, keep, i);
          assert s[a] == front[a];
        }
      }
    }
  }

  /** Runs a partial transition rule over a log, from the first entry to the last. */
  function Fold<M, A>(rule: (M, A) -> Option<M>, m: M, log: seq<A>): (r: Option<M>) {
    if log == [] then Some(m)
    else
      match Fold(rule, m, log[..|log| - 1])
      case None => None
      case Some(before) => rule(before, log[|log| - 1])
  }

  lemma {:induction false} FoldJoins<M, A>(rule: (M, A) -> Option<M>, m: M, a: seq<A>, b: seq<A>)
    ensures Fold(rule, m, a + b)
         == match Fold(rule, m, a) case None => None case Some(middle) => Fold(rule, middle, b)
  {
    if b == [] {
      assert a + b == a;
    } else {
      FoldJoins(rule, m, a, b[..|b| - 1]);
      assert (a + b)[..|a + b| - 1] == a + b[..|b| - 1];
    }
  }

  lemma FoldOneMore<M, A>(rule: (M, A) -> Option<M>, m: M, log: seq<A>, a: A)
    requires Fold(rule, m, log).Some?
    ensures Fold(rule, m, log + [a]) == rule(Fold(rule, m, log).value, a)
  {
    assert (log + [a])[..|log|] == log;
  }

  /** How many entries of a log are of a kind. */
  function CountOf<A>(log: seq<A>, kind: A -> bool): (r: nat) {
    if log == [] then 0 else CountOf(log[..|log| - 1], kind) + if kind(log[|log| - 1]) then 1 else 0
  }

  lemma {:induction false} CountOfJoins<A>(a: seq<A>, b: seq<A>, kind: A -> bool)
    ensures CountOf(a + b, kind) == CountOf(a, kind) + CountOf(b, kind)
  {
    if b == [] {
      assert a + b == a;
    } else {
      CountOfJoins(a, b[..|b| - 1], kind);
      assert (a + b)[..|a + b| - 1] == a + b[..|b| - 1];
    }
  }

  predicate IsLower(c: char) { 'a' <= c <= 'z' }

  predicate IsDigit(c: char) { '0' <= c <= '9' }

  /** Lexicographic order on texts, the order of the source's `String`. */
  predicate TextLe(a: string, b: string) {
    a == [] || (b != [] && (a[0] < b[0] || (a[0] == b[0] && TextLe(a[1..], b[1..]))))
  }

  lemma {:induction false} TextLeTotal(a: string, b: string)
    ensures TextLe(a, b) || TextLe(b, a)
  {
    if a != [] && b != [] && a[0] == b[0] {
      TextLeTotal(a[1..], b[1..]);
    }
  }

  lemma {:induction false} TextLeTransitive(a: string, b: string, c: string)
    requires TextLe(a, b) && TextLe(b, c)
    ensures TextLe(a, c)
  {
    if a != [] && b[0] == a[0] && c[0] == a[0] {
      TextLeTransitive(a[1..], b[1..], c[1..]);
    }
  }

  lemma {:induction false} TextLeAntisymmetric(a: string, b: string)
    requires TextLe(a, b) && TextLe(b, a)
    ensures a == b
  {
    if a != [] {
      TextLeAntisymmetric(a[1..], b[1..]);
      assert a == [a[0]] + a[1..] && b == [b[0]] + b[1..];
    }
  }

  /** Two positions never have the same key. */
  ghost predicate DistinctBy<T(!new)>(s: seq<T>, key: T -> string) {
    forall i, j :: 0 <= i < j < |s| ==> key(s[i]) != key(s[j])
  }

  lemma DistinctByIsOrderBlind<T(!new)>(s: seq<T>, key: T -> string)
    ensures DistinctBy(s, key) <==> KeysTellApart(s, key) && forall x :: multiset(s)[x] <= 1
  {
    DistinctIsOrderBlind(s);
    if DistinctBy(s, key) {
      assert Distinct(s) by {
        forall i, j | 0 <= i < j < |s| ensures s[i] != s[j] { assert key(s[i]) != key(s[j]); }
      }
    }
  }

  ghost predicate IsOrder<K(!new)>(le: (K, K) -> bool) {
    && (forall a, b :: le(a, b) || le(b, a))
    && (forall a, b, c :: le(a, b) && le(b, c) ==> le(a, c))
    && (forall a, b :: le(a, b) && le(b, a) ==> a == b)
  }

  lemma TextLeIsOrder()
    ensures IsOrder(TextLe)
  {
    forall a, b ensures TextLe(a, b) || TextLe(b, a) { TextLeTotal(a, b); }
    forall a, b, c | TextLe(a, b) && TextLe(b, c) ensures TextLe(a, c) { TextLeTransitive(a, b, c); }
    forall a, b | TextLe(a, b) && TextLe(b, a) ensures a == b { TextLeAntisymmetric(a, b); }
  }

  ghost predicate SortedBy<T, K>(s: seq<T>, key: T -> K, le: (K, K) -> bool) {
    forall i, j :: 0 <= i < j < |s| ==> le(key(s[i]), key(s[j]))
  }

  /** Stable insertion by key: `x` goes before the first element with a larger key. */
  function Insert<T, K>(x: T, s: seq<T>, key: T -> K, le: (K, K) -> bool): (r: seq<T>) {
    if s == [] then [x]
    else if le(key(s[0]), key(x)) then [s[0]] + Insert(x, s[1..], key, le)
    else [x] + s
  }

  function SortBy<T, K>(s: seq<T>, key: T -> K, le: (K, K) -> bool): (r: seq<T>) {
    if s == [] then [] else Insert(s[|s| - 1], SortBy(s[..|s| - 1], key, le), key, le)
  }

  lemma {:induction false} InsertKeepsMembers<T, K>(x: T, s: seq<T>, key: T -> K, le: (K, K) -> bool)
    ensures multiset(Insert(x, s, key, le)) == multiset(s) + multiset{x}
    ensures forall y :: y in Insert(x, s, key, le) ==> y == x || y in s
  {
    if s != [] && le(key(s[0]), key(x)) {
      InsertKeepsMembers(x, s[1..], key, le);
      assert s == [s[0]] + s[1..];
    }
  }

  lemma {:induction false} InsertKeepsSorted<T, K(!new)>(x: T, s: seq<T>, key: T -> K, le: (K, K) -> bool)
    requires IsOrder(le) && SortedBy(s, key, le)
    ensures SortedBy(Insert(x, s, key, le), key, le)
  {
    if s == [] {
    } else if le(key(s[0]), key(x)) {
      InsertKeepsSorted(x, s[1..], key, le);
      InsertKeepsMembers(x, s[1..], key, le);
      var rest := Insert(x, s[1..], key, le);
      forall j | 0 <= j < |rest| ensures le(key(s[0]), key(rest[j])) {
        assert rest[j] == x || rest[j] in s[1..];
      }
    } else {
      assert le(key(x), key(s[0]));
      forall j | 0 <= j < |s| ensures le(key(x), key(s[j])) {
        assert j > 0 ==> le(key(s[0]), key(s[j]));
      }
    }
  }

  lemma {:induction false} SortBySorts<T, K(!new)>(s: seq<T>, key: T -> K, le: (K, K) -> bool)
    requires IsOrder(le)
    ensures SortedBy(SortBy(s, key, le), key, le)
    ensures multiset(SortBy(s, key, le)) == multiset(s)
  {
    if s != [] {
      SortBySorts(s[..|s| - 1], key, le);
      InsertKeepsSorted(s[|s| - 1], SortBy(s[..|s| - 1], key, le), key, le);
      InsertKeepsMembers(s[|s| - 1], SortBy(s[..|s| - 1], key, le), key, le);
      assert s == s[..|s| - 1] + [s[|s| - 1]];
    }
  }

  lemma SameMembers<T>(a: seq<T>, b: seq<T>)
    requires multiset(a) == multiset(b)
    ensures |a| == |b|
    ensures forall x :: x in a <==> x in b
  {
    assert |multiset(a)| == |a| && |multiset(b)| == |b|;
    assert forall x :: x in a <==> x in multiset(a);
    assert forall x :: x in b <==> x in multiset(b);
  }

  lemma HeadIsLeast<T, K(!new)>(s: seq<T>, x: T, key: T -> K, le: (K, K) -> bool)
    requires IsOrder(le) && SortedBy(s, key, le) && x in s
    ensures le(key(s[0]), key(x))
  {
    var i :| 0 <= i < |s| && s[i] == x;
    assert i == 0 ==> le(key(x), key(x));
  }

  lemma MultisetOfTail<T>(s: seq<T>)
    requires s != []
    ensures s == [s[0]] + s[1..]
    ensures multiset(s[1..]) == multiset(s) - multiset{s[0]}
  {
    assert s == [s[0]] + s[1..];
  }

  ghost predicate KeysTellApart<T(!new), K>(s: seq<T>, key: T -> K) {
    forall x, y :: x in s && y in s && key(x) == key(y) ==> x == y
  }

  /** The elements of a multiset with pairwise different keys have one sorted arrangement. */
  lemma {:induction false} SortedIsUnique<T(!new), K(!new)>(a: seq<T>, b: seq<T>, key: T -> K, le: (K, K) -> bool)
    requires IsOrder(le) && SortedBy(a, key, le) && SortedBy(b, key, le)
    requires multiset(a) == multiset(b)
    requires KeysTellApart(a, key)
    ensures a == b
  {
    SameMembers(a, b);
    if a != [] {
      assert a[0] in b && b[0] in a;
      HeadIsLeast(a, b[0], key, le);
      HeadIsLeast(b, a[0], key, le);
      assert a[0] == b[0];
      MultisetOfTail(a);
      MultisetOfTail(b);
      assert KeysTellApart(a[1..], key);
      assert SortedBy(a[1..], key, le) && SortedBy(b[1..], key, le);
      SortedIsUnique(a[1..], b[1..], key, le);
    }
  }

  /** Sorting forgets the order it was given, as long as the keys tell the elements apart. */
  lemma SortIsOrderBlind<T(!new), K(!new)>(a: seq<T>, b: seq<T>, key: T -> K, le: (K, K) -> bool)
    requires IsOrder(le) && multiset(a) == multiset(b)
    requires KeysTellApart(a, key)
    ensures SortBy(a, key, le) == SortBy(b, key, le)
  {
    SortBySorts(a, key, le);
    SortBySorts(b, key, le);
    SameMembers(SortBy(a, key, le), a);
    SortedIsUnique(SortBy(a, key, le), SortBy(b, key, le), key, le);
  }
}
