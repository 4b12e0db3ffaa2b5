/** Deterministic `ORDER BY` over a finite set of row ids.
    Rows are ordered by an integer sort key, ascending; rows with equal keys
    are ordered by ascending id, so the enumeration of a set is unique. */
module OrderBy {

  /** Row `a` comes strictly before row `b`. */
  predicate Precedes(key: map<nat, int>, a: nat, b: nat)
    requires a in key && b in key
  {
    key[a] < key[b] || (key[a] == key[b] && a < b)
  }

  /** `m` is the first row of `s`. */
  predicate IsFirst(key: map<nat, int>, m: nat, s: set<nat>)
    requires s <= key.Keys
  {
    m in s && forall x :: x in s && x != m ==> Precedes(key, m, x)
  }

  /** Every non-empty set of rows has a first row. */
  lemma {:induction false} FirstExists(key: map<nat, int>, s: set<nat>)
    requires s != {} && s <= key.Keys
    ensures exists m :: IsFirst(key, m, s)
  {
    var y :| y in s;
    var rest := s - {y};
    if rest == {} {
      assert s == rest + {y};
      assert IsFirst(key, y, s);
    } else {
      FirstExists(key, rest);
      var m :| IsFirst(key, m, rest);
      if Precedes(key, y, m) {
        forall x | x in s && x != y ensures Precedes(key, y, x) {
          assert x in rest;
          if x != m { assert Precedes(key, m, x); }
        }
        assert IsFirst(key, y, s);
      } else {
        assert IsFirst(key, m, s);
      }
    }
  }

  /** A sequence is strictly ordered by `key`. */
  predicate Ordered(key: map<nat, int>, r: seq<nat>)
    requires forall i :: 0 <= i < |r| ==> r[i] in key
  {
    forall i, j :: 0 <= i < j < |r| ==> Precedes(key, r[i], r[j])
  }

  /** The rows of `s`, each exactly once, in `key` order. */
  function Enumerate(key: map<nat, int>, s: set<nat>): (r: seq<nat>)
    requires s <= key.Keys
    ensures |r| == |s|
    ensures forall x :: x in r <==> x in s
    ensures forall i, j :: 0 <= i < j < |r| ==> r[i] != r[j]
    ensures Ordered(key, r)
    decreases |s|
  {
    if s == {} then []
    else
      FirstExists(key, s);
      var m :| IsFirst(key, m, s);
      [m] + Enumerate(key, s - {m})
  }
}
