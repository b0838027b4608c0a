/**
 * The allocation preference order of batches, `Batch.__gt__`, and the stable
 * `sorted(...)` that both allocation services apply to a product's batches
 * before taking the first one that can allocate a line.
 *
 * Python's `sorted` only asks `a < b`, which for a Batch falls back to
 * `b.__gt__(a)`; `__gt__` looks only at the eta, so the sort is a stable sort
 * on etas where a missing eta (warehouse stock) comes first.  Sort below is a
 * stable insertion sort; it is generic in the element type, with `eta`
 * reading the (never reassigned) eta of a batch.
 */
module Preference {
  import opened Common

  /** `Batch.__gt__` on the etas of two batches: true when the first is allocated after the second. */
  predicate Later(a: Option<int>, b: Option<int>)
  {
    if a.None? then false else if b.None? then true else a.value > b.value
  }

  /**
   * Later is a strict weak order, the condition under which a stable sort by
   * `<` is well defined: irreflexive, transitive, and "neither is later" is
   * transitive too.
   */
  lemma LaterIsStrictWeakOrder(a: Option<int>, b: Option<int>, c: Option<int>)
    ensures !Later(a, a)
    ensures Later(a, b) ==> !Later(b, a)
    ensures Later(a, b) && Later(b, c) ==> Later(a, c)
    ensures !Later(a, b) && !Later(b, c) ==> !Later(a, c)
  {
  }

  /** Puts `x` in front of the first element of `s` that `x` is not later than. */
  function Insert<T(==)>(x: T, s: seq<T>, eta: T -> Option<int>): (r: seq<T>)
    ensures multiset(r) == multiset(s) + multiset{x}
  {
    if s == [] || !Later(eta(x), eta(s[0])) then [x] + s
    else
      assert s == [s[0]] + s[1..];
      [s[0]] + Insert(x, s[1..], eta)
  }

  /** `sorted(batches)`: the stable sort of `s` by the preference order. */
  function Sort<T(==)>(s: seq<T>, eta: T -> Option<int>): (r: seq<T>)
    ensures multiset(r) == multiset(s)
  {
    if s == [] then []
    else
      assert s == [s[0]] + s[1..];
      Insert(s[0], Sort(s[1..], eta), eta)
  }

  /** No element is later than one that comes after it. */
  ghost predicate Ordered<T>(s: seq<T>, eta: T -> Option<int>)
  {
    forall i, j :: 0 <= i < j < |s| ==> !Later(eta(s[i]), eta(s[j]))
  }

  /** The elements of `s` whose eta is `k`, in the order of `s`. */
  function WithEta<T>(s: seq<T>, eta: T -> Option<int>, k: Option<int>): (r: seq<T>)
  {
    if s == [] then []
    else (if eta(s[0]) == k then [s[0]] else []) + WithEta(s[1..], eta, k)
  }

  /** `next(b for b in s if b in ok)`: the first element of `s` in `ok`, or None (StopIteration). */
  function FirstIn<T(==)>(s: seq<T>, ok: set<T>): (r: Option<T>)
    ensures r.None? <==> forall i :: 0 <= i < |s| ==> s[i] !in ok
    ensures r.Some? ==> exists i :: 0 <= i < |s| && s[i] == r.value && s[i] in ok && forall j :: 0 <= j < i ==> s[j] !in ok
  {
    if s == [] then None
    else if s[0] in ok then Some(s[0])
    else
      var r := FirstIn(s[1..], ok);
      assert forall i :: 1 <= i < |s| ==> s[i] == s[1..][i - 1];
      if r.Some? then
        var i :| 0 <= i < |s[1..]| && s[1..][i] == r.value && s[1..][i] in ok && forall j :: 0 <= j < i ==> s[1..][j] !in ok;
        assert s[i + 1] == r.value && forall j :: 0 <= j < i + 1 ==> s[j] !in ok;
        r
      else r
  }

  /** No position of `s` holds a candidate exactly when no element of `s` is one. */
  lemma NoneIn<T>(s: seq<T>, ok: set<T>)
    ensures (forall i :: 0 <= i < |s| ==> s[i] !in ok) <==> forall x :: x in s ==> x !in ok
  {
    if exists x :: x in s && x in ok {
      var x :| x in s && x in ok;
      var i :| 0 <= i < |s| && s[i] == x;
      assert s[i] in ok;
    }
  }

  /** The only candidate in `s` is the first one. */
  lemma OnlyIn<T>(s: seq<T>, ok: set<T>, c: T)
    requires c in s && c in ok
    requires forall x :: x in s && x != c ==> x !in ok
    ensures FirstIn(s, ok) == Some(c)
  {
    var i :| 0 <= i < |s| && s[i] == c;
    assert s[i] in ok;
  }

  /**
   * Position `i` of `s` holds the batch the allocation services choose among
   * the candidates `ok`: it is a candidate, no candidate has an earlier
   * preference, and every candidate listed before it is strictly later.
   */
  ghost predicate PreferredAt<T>(s: seq<T>, eta: T -> Option<int>, ok: set<T>, i: int)
  {
    && 0 <= i < |s|
    && s[i] in ok
    && (forall j :: 0 <= j < |s| && s[j] in ok ==> !Later(eta(s[i]), eta(s[j])))
    && (forall j :: 0 <= j < i && s[j] in ok ==> Later(eta(s[j]), eta(s[i])))
  }

  ghost predicate MostPreferred<T>(s: seq<T>, eta: T -> Option<int>, ok: set<T>, c: T)
  {
    exists i :: PreferredAt(s, eta, ok, i) && s[i] == c
  }

  lemma {:induction false} InsertOrdered<T>(x: T, s: seq<T>, eta: T -> Option<int>)
    requires Ordered(s, eta)
    ensures Ordered(Insert(x, s, eta), eta)
  {
    if s == [] || !Later(eta(x), eta(s[0])) {
      var r := [x] + s;
      forall i, j | 0 <= i < j < |r| ensures !Later(eta(r[i]), eta(r[j])) {
        if i == 0 && j > 1 {
          LaterIsStrictWeakOrder(eta(x), eta(s[0]), eta(s[j - 1]));
        }
      }
    } else {
      var t := Insert(x, s[1..], eta);
      InsertOrdered(x, s[1..], eta);
      var r := [s[0]] + t;
      forall i, j | 0 <= i < j < |r| ensures !Later(eta(r[i]), eta(r[j])) {
        if i == 0 {
          var e := t[j - 1];
          assert e in multiset(t);
          if e == x {
            LaterIsStrictWeakOrder(eta(x), eta(s[0]), eta(s[0]));
          } else {
            assert e in multiset(s[1..]);
            var k :| 0 <= k < |s[1..]| && s[1..][k] == e;
            assert s[k + 1] == e;
          }
        }
      }
    }
  }

  /** The sort puts warehouse stock (no eta) first, then shipments by ascending eta. */
  lemma {:induction false} SortIsOrdered<T>(s: seq<T>, eta: T -> Option<int>)
    ensures Ordered(Sort(s, eta), eta)
  {
    if s != [] {
      SortIsOrdered(s[1..], eta);
      InsertOrdered(s[0], Sort(s[1..], eta), eta);
    }
  }

  lemma WithEtaCons<T>(x: T, s: seq<T>, eta: T -> Option<int>, k: Option<int>)
    ensures WithEta([x] + s, eta, k) == (if eta(x) == k then [x] else []) + WithEta(s, eta, k)
  {
    assert ([x] + s)[1..] == s;
  }

  lemma {:induction false} InsertStable<T>(x: T, s: seq<T>, eta: T -> Option<int>, k: Option<int>)
    ensures WithEta(Insert(x, s, eta), eta, k) == WithEta([x] + s, eta, k)
  {
    if s == [] || !Later(eta(x), eta(s[0])) {
    } else {
      var y, t := s[0], s[1..];
      assert s == [y] + t;
      assert Insert(x, s, eta) == [y] + Insert(x, t, eta);
      InsertStable(x, t, eta, k);
      WithEtaCons(y, Insert(x, t, eta), eta, k);
      WithEtaCons(x, t, eta, k);
      WithEtaCons(y, t, eta, k);
      WithEtaCons(x, s, eta, k);
      if eta(y) == k {
        assert eta(x) != k;
        assert WithEta([x] + t, eta, k) == WithEta(t, eta, k);
      } else {
        assert WithEta(s, eta, k) == WithEta(t, eta, k);
      }
    }
  }

  /** The sort is stable: batches with equal etas keep their order in the product's list. */
  lemma {:induction false} SortIsStable<T>(s: seq<T>, eta: T -> Option<int>, k: Option<int>)
    ensures WithEta(Sort(s, eta), eta, k) == WithEta(s, eta, k)
  {
    if s != [] {
      SortIsStable(s[1..], eta, k);
      InsertStable(s[0], Sort(s[1..], eta), eta, k);
      assert ([s[0]] + Sort(s[1..], eta))[1..] == Sort(s[1..], eta);
    }
  }

  /** Taking the first candidate after inserting `x` into a sorted list. */
  lemma {:induction false} InsertFirst<T>(x: T, t: seq<T>, eta: T -> Option<int>, ok: set<T>)
    requires Ordered(t, eta)
    ensures FirstIn(Insert(x, t, eta), ok)
         == if x in ok && (FirstIn(t, ok).None? || !Later(eta(x), eta(FirstIn(t, ok).value)))
            then Some(x) else FirstIn(t, ok)
  {
    if t == [] || !Later(eta(x), eta(t[0])) {
      assert ([x] + t)[1..] == t;
      var c := FirstIn(t, ok);
      if x in ok && c.Some? {
        var i :| 0 <= i < |t| && t[i] == c.value && t[i] in ok && forall j :: 0 <= j < i ==> t[j] !in ok;
        LaterIsStrictWeakOrder(eta(x), eta(t[0]), eta(t[i]));
      }
    } else {
      assert ([t[0]] + Insert(x, t[1..], eta))[1..] == Insert(x, t[1..], eta);
      if t[0] !in ok {
        InsertFirst(x, t[1..], eta, ok);
      }
    }
  }

  /** A candidate in front that is not later than the best candidate behind it is preferred. */
  lemma PreferredFront<T>(x: T, rest: seq<T>, eta: T -> Option<int>, ok: set<T>, c: Option<T>)
    requires x in ok
    requires c.None? ==> forall i :: 0 <= i < |rest| ==> rest[i] !in ok
    requires c.Some? ==> MostPreferred(rest, eta, ok, c.value) && !Later(eta(x), eta(c.value))
    ensures PreferredAt([x] + rest, eta, ok, 0)
  {
    var s := [x] + rest;
    forall j | 0 <= j < |s| && s[j] in ok ensures !Later(eta(x), eta(s[j])) {
      if j == 0 {
        LaterIsStrictWeakOrder(eta(x), eta(x), eta(x));
      } else {
        assert s[j] == rest[j - 1];
        var i' :| PreferredAt(rest, eta, ok, i') && rest[i'] == c.value;
        LaterIsStrictWeakOrder(eta(x), eta(c.value), eta(s[j]));
      }
    }
  }

  /** The best candidate behind stays the best when the front element is not a better candidate. */
  lemma PreferredBehind<T>(x: T, rest: seq<T>, eta: T -> Option<int>, ok: set<T>, c: T)
    requires MostPreferred(rest, eta, ok, c)
    requires x in ok ==> Later(eta(x), eta(c))
    ensures MostPreferred([x] + rest, eta, ok, c)
  {
    var s := [x] + rest;
    var i' :| PreferredAt(rest, eta, ok, i') && rest[i'] == c;
    forall j | 0 <= j < |s| && s[j] in ok ensures !Later(eta(c), eta(s[j])) {
      if j == 0 {
        LaterIsStrictWeakOrder(eta(x), eta(c), eta(c));
      } else {
        assert s[j] == rest[j - 1];
      }
    }
    forall j | 0 <= j < i' + 1 && s[j] in ok ensures Later(eta(s[j]), eta(c)) {
      if j > 0 {
        assert s[j] == rest[j - 1];
      }
    }
    assert PreferredAt(s, eta, ok, i' + 1);
  }

  /**
   * What `next(b for b in sorted(s) if b in ok)` returns: None exactly when
   * no element of `s` is a candidate, and otherwise the most preferred
   * candidate, the earliest listed one among equally preferred candidates.
   */
  lemma {:induction false} SortedChoice<T>(s: seq<T>, eta: T -> Option<int>, ok: set<T>)
    ensures FirstIn(Sort(s, eta), ok).None? <==> forall i :: 0 <= i < |s| ==> s[i] !in ok
    ensures FirstIn(Sort(s, eta), ok).Some? ==> MostPreferred(s, eta, ok, FirstIn(Sort(s, eta), ok).value)
  {
    if s != [] {
      var x, rest := s[0], s[1..];
      assert s == [x] + rest;
      var t := Sort(rest, eta);
      assert Sort(s, eta) == Insert(x, t, eta);
      SortedChoice(rest, eta, ok);
      SortIsOrdered(rest, eta);
      InsertFirst(x, t, eta, ok);
      var c' := FirstIn(t, ok);
      if x in ok && (c'.None? || !Later(eta(x), eta(c'.value))) {
        PreferredFront(x, rest, eta, ok, c');
        assert s[0] in ok;
      } else if c'.Some? {
        PreferredBehind(x, rest, eta, ok, c'.value);
        var i :| PreferredAt(s, eta, ok, i) && s[i] == c'.value;
      } else {
        assert forall i :: 1 <= i < |s| ==> s[i] == rest[i - 1];
      }
    }
  }

  /** Of two listed elements, a candidate `a` that is not later than `b` is the preferred one. */
  lemma FirstOfTwo<T>(a: T, b: T, eta: T -> Option<int>, ok: set<T>, c: T)
    requires a in ok && !Later(eta(a), eta(b))
    requires MostPreferred([a, b], eta, ok, c)
    ensures c == a
  {
    var i :| PreferredAt([a, b], eta, ok, i) && [a, b][i] == c;
    assert [a, b][0] in ok;
  }

  /** When `a` is not a candidate, the preferred element of `[a, b]` is `b`. */
  lemma SecondOfTwo<T>(a: T, b: T, eta: T -> Option<int>, ok: set<T>, c: T)
    requires a !in ok
    requires MostPreferred([a, b], eta, ok, c)
    ensures c == b
  {
    var i :| PreferredAt([a, b], eta, ok, i) && [a, b][i] == c;
  }

  /** A candidate from warehouse stock is always chosen over every shipment. */
  lemma WarehouseFirst<T>(s: seq<T>, eta: T -> Option<int>, ok: set<T>, w: int)
    requires 0 <= w < |s| && s[w] in ok && eta(s[w]).None?
    ensures FirstIn(Sort(s, eta), ok).Some? && eta(FirstIn(Sort(s, eta), ok).value).None?
  {
    SortedChoice(s, eta, ok);
  }

  /** With no warehouse candidate, the shipment with the earliest eta is chosen. */
  lemma EarliestShipmentFirst<T>(s: seq<T>, eta: T -> Option<int>, ok: set<T>)
    requires exists i :: 0 <= i < |s| && s[i] in ok
    requires forall i :: 0 <= i < |s| && s[i] in ok ==> eta(s[i]).Some?
    ensures FirstIn(Sort(s, eta), ok).Some? && eta(FirstIn(Sort(s, eta), ok).value).Some?
    ensures forall i :: 0 <= i < |s| && s[i] in ok ==>
              eta(FirstIn(Sort(s, eta), ok).value).value <= eta(s[i]).value
  {
    SortedChoice(s, eta, ok);
    var c := FirstIn(Sort(s, eta), ok).value;
    var k :| PreferredAt(s, eta, ok, k) && s[k] == c;
  }

}
