/** A stable sort by a comparison, shared by the TaskList view and the tasks route:
    JavaScript's `Array.prototype.sort` is stable, and both callers compare
    through a key. `leq(a, b)` means that `a` may come before `b`. */
module Sorting {

  ghost predicate Total<T(!new)>(leq: (T, T) -> bool) {
    forall a, b :: leq(a, b) || leq(b, a)
  }

  ghost predicate Transitive<T(!new)>(leq: (T, T) -> bool) {
    forall a, b, c :: leq(a, b) && leq(b, c) ==> leq(a, c)
  }

  predicate SortedBy<T>(s: seq<T>, leq: (T, T) -> bool) {
    forall i, j | 0 <= i < j < |s| :: leq(s[i], s[j])
  }

  /** Inserts `x` before the first element it may precede. */
  function Insert<T(!new)>(x: T, s: seq<T>, leq: (T, T) -> bool): (r: seq<T>)
    requires Total(leq) && Transitive(leq)
    ensures multiset(r) == multiset(s) + multiset{x}
    ensures |r| == |s| + 1
    ensures SortedBy(s, leq) ==> SortedBy(r, leq)
  {
    if s == [] then [x]
    else if leq(x, s[0]) then
      var r := [x] + s;
      assert SortedBy(s, leq) ==> forall j | 0 < j < |r| :: leq(x, r[j]) by {
        if SortedBy(s, leq) {
          forall j | 0 < j < |r| ensures leq(x, r[j]) {
            if j > 1 {
              assert leq(s[0], s[j - 1]);
            }
          }
        }
      }
      r
    else
      var t := Insert(x, s[1..], leq);
      assert s == [s[0]] + s[1..];
      var r := [s[0]] + t;
      assert SortedBy(s, leq) ==> SortedBy(r, leq) by {
        if SortedBy(s, leq) {
          forall j | 0 < j < |r| ensures leq(s[0], r[j]) {
            var z := r[j];
            assert z in multiset(t);
            if z == x {
            } else {
              assert z in multiset(s[1..]);
              var k :| 0 <= k < |s[1..]| && s[1..][k] == z;
              assert leq(s[0], s[k + 1]);
            }
          }
        }
      }
      r
  }

  /** Insertion sort: a permutation of the input, ordered by `leq`. */
  function Sort<T(!new)>(s: seq<T>, leq: (T, T) -> bool): (r: seq<T>)
    requires Total(leq) && Transitive(leq)
    ensures multiset(r) == multiset(s)
    ensures |r| == |s|
    ensures SortedBy(r, leq)
  {
    if s == [] then []
    else
      assert s == [s[0]] + s[1..];
      Insert(s[0], Sort(s[1..], leq), leq)
  }

  /** The comparison "key of a at most key of b" for an integer key. */
  function ByKey<T>(key: T -> int): (T, T) -> bool {
    (a: T, b: T) => key(a) <= key(b)
  }

  lemma ByKeyIsPreorder<T(!new)>(key: T -> int)
    ensures Total(ByKey(key)) && Transitive(ByKey(key))
  {
  }

  // ---------------------------------------------------------------------------
  // Stability

  /** The elements of `s` that compare equal to `y`, in their order in `s`. */
  function EqualTo<T>(s: seq<T>, leq: (T, T) -> bool, y: T): (r: seq<T>)
    ensures |r| <= |s|
  {
    if s == [] then []
    else (if leq(s[0], y) && leq(y, s[0]) then [s[0]] else []) + EqualTo(s[1..], leq, y)
  }

  lemma {:induction false} InsertKeepsEqualOrder<T(!new)>(x: T, s: seq<T>, leq: (T, T) -> bool, y: T)
    requires Total(leq) && Transitive(leq)
    ensures EqualTo(Insert(x, s, leq), leq, y)
         == (if leq(x, y) && leq(y, x) then [x] else []) + EqualTo(s, leq, y)
  {
    if s == [] {
      assert Insert(x, s, leq) == [x];
      assert EqualTo([x], leq, y) == (if leq(x, y) && leq(y, x) then [x] else []) + EqualTo([x][1..], leq, y);
    } else if leq(x, s[0]) {
      var r := [x] + s;
      assert Insert(x, s, leq) == r;
      assert r[1..] == s;
    } else {
      var t := Insert(x, s[1..], leq);
      InsertKeepsEqualOrder(x, s[1..], leq, y);
      var r := [s[0]] + t;
      assert Insert(x, s, leq) == r;
      assert r[1..] == t;
      var ex := if leq(x, y) && leq(y, x) then [x] else [];
      var e0 := if leq(s[0], y) && leq(y, s[0]) then [s[0]] else [];
      assert EqualTo(r, leq, y) == e0 + (ex + EqualTo(s[1..], leq, y));
      assert EqualTo(s, leq, y) == e0 + EqualTo(s[1..], leq, y);
    }
  }

  /** The sort is stable: elements that compare equal keep their input order. */
  lemma {:induction false} SortIsStable<T(!new)>(s: seq<T>, leq: (T, T) -> bool, y: T)
    requires Total(leq) && Transitive(leq)
    ensures EqualTo(Sort(s, leq), leq, y) == EqualTo(s, leq, y)
  {
    if s != [] {
      SortIsStable(s[1..], leq, y);
      InsertKeepsEqualOrder(s[0], Sort(s[1..], leq), leq, y);
    }
  }
}
