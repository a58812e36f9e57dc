/** Vocabulary shared by every component: nullable columns, statement outcomes,
    the clock, and the few facts about finite sets that the counting arguments need. */
module Support {

  /** A nullable column. */
  datatype Option<+T> = None | Some(value: T)

  /** The outcome of a call that may raise. */
  datatype Result<+T, +E> = Ok(value: T) | Err(error: E)

  /** Row identifiers and tenants; the order stands for the order of the uuid column. */
  type Id = nat
  type Org = nat

  /** A timestamptz, in microseconds. */
  type Time = nat

  const SECOND: Time := 1_000_000
  const MINUTE: Time := 60 * SECOND
  const HOUR: Time := 60 * MINUTE
  const DAY: Time := 24 * HOUR

  function Coalesce<T>(column: Option<T>, fallback: T): T {
    if column.Some? then column.value else fallback
  }

  /** `column <= t` in a WHERE clause: a NULL column does not satisfy it. */
  predicate Reached(column: Option<Time>, t: Time) {
    column.Some? && column.value <= t
  }

  /** `column > t` in a WHERE clause: a NULL column does not satisfy it. */
  predicate After(column: Option<Time>, t: Time) {
    column.Some? && column.value > t
  }

  function Min(a: int, b: int): int {
    if a <= b then a else b
  }

  lemma SubsetCard<T>(a: set<T>, b: set<T>)
    requires a <= b
    ensures |a| <= |b|
  {
    assert b == a + (b - a);
  }

  lemma StrictSubsetCard<T>(a: set<T>, b: set<T>, lost: set<T>)
    requires a <= b - lost && lost <= b
    ensures |a| + |lost| <= |b|
  {
    SubsetCard(a, b - lost);
    assert b == (b - lost) + lost;
  }

  lemma TailOfAppend<T>(s: seq<T>, x: T)
    requires s != []
    ensures (s + [x])[0] == s[0] && (s + [x])[1..] == s[1..] + [x] && [s[0]] + (s[1..] + [x]) == s + [x]
  {
  }

  predicate IsMax(s: set<nat>, m: nat) {
    m in s && forall x | x in s :: x <= m
  }

  lemma {:induction false} MaxExists(s: set<nat>)
    requires |s| > 0
    ensures exists m :: IsMax(s, m)
  {
    var x :| x in s;
    var rest := s - {x};
    assert forall y | y in s :: y == x || y in rest;
    if |rest| == 0 {
      assert IsMax(s, x);
    } else {
      MaxExists(rest);
      var m :| IsMax(rest, m);
      assert IsMax(s, if x <= m then m else x);
    }
  }

  /** max(column) over a non-empty group. */
  function MaxOf(s: set<nat>): (m: nat)
    requires s != {}
    ensures m in s && forall x | x in s :: x <= m
  {
    NotEmpty(s);
    MaxExists(s);
    var m :| m in s && IsMax(s, m);
    m
  }

  predicate IsMin(s: set<nat>, m: nat) {
    m in s && forall x | x in s :: m <= x
  }

  lemma {:induction false} MinExists(s: set<nat>)
    requires |s| > 0
    ensures exists m :: IsMin(s, m)
  {
    var x :| x in s;
    var rest := s - {x};
    assert forall y | y in s :: y == x || y in rest;
    if |rest| == 0 {
      assert IsMin(s, x);
    } else {
      MinExists(rest);
      var m :| IsMin(rest, m);
      assert IsMin(s, if m <= x then m else x);
    }
  }

  /** min(column) over a non-empty group. */
  function MinOf(s: set<nat>): (m: nat)
    requires s != {}
    ensures m in s && forall x | x in s :: m <= x
  {
    NotEmpty(s);
    MinExists(s);
    var m :| m in s && IsMin(s, m);
    m
  }

  lemma NotEmpty<T>(s: set<T>)
    requires s != {}
    ensures |s| > 0
  {
    var x :| x in s;
    SubsetCard({x}, s);
  }
}
