/** Identifiers, time and small sequence facts shared by the matching engine. */
module Common {

  /** Discord snowflakes are modelled as unbounded integers. */
  type UserId = int
  type GuildId = int
  type ChannelId = int
  type RoleId = int

  /** Whole seconds on the bot's clock. */
  type Time = int

  /** A value that may be absent (Python's `None`). */
  datatype Option<+T> = None | Some(value: T)

  /** No element of `s` occurs twice. */
  predicate Distinct<T(==)>(s: seq<T>)
  {
    forall i, j :: 0 <= i < j < |s| ==> s[i] != s[j]
  }

  /** `s` lists every element of `xs` exactly once, in some order: the shape of
      a list built from a set and then shuffled. */
  predicate Arranges<T(==)>(s: seq<T>, xs: set<T>)
  {
    && Distinct(s)
    && (forall x :: x in s ==> x in xs)
    && (forall x :: x in xs ==> x in s)
  }

  /** A list that arranges a set is as long as the set is large. */
  lemma {:induction false} ArrangementSize<T>(s: seq<T>, xs: set<T>)
    requires Arranges(s, xs)
    ensures |s| == |xs|
  {
    if s != [] {
      var last := s[|s| - 1];
      var init := s[..|s| - 1];
      assert s == init + [last];
      forall x
        ensures x in init <==> x in xs - {last}
      {
        if x in init {
          var k :| 0 <= k < |init| && init[k] == x;
          assert s[k] != s[|s| - 1];
        }
        if x in xs - {last} {
          assert x in s;
          var k :| 0 <= k < |s| && s[k] == x;
          assert k != |s| - 1;
          assert init[k] == x;
        }
      }
      assert Arranges(init, xs - {last});
      ArrangementSize(init, xs - {last});
    }
  }

  /** A suffix of a list without repetitions has none either. */
  lemma DistinctSuffix<T>(s: seq<T>, k: nat)
    requires Distinct(s) && k <= |s|
    ensures Distinct(s[k..])
  {
    forall i, j | 0 <= i < j < |s| - k
      ensures s[k..][i] != s[k..][j]
    {
      assert s[k..][i] == s[k + i] && s[k..][j] == s[k + j];
    }
  }

  /** The first `i + 1` elements are the first `i` and then element `i`; in a
      list without repetitions, element `i` is not among the first `i`. */
  lemma PrefixStep<T>(s: seq<T>, i: nat)
    requires i < |s|
    ensures s[..i + 1] == s[..i] + [s[i]]
    ensures s[..i + 1][..i] == s[..i]
    ensures Distinct(s) ==> s[i] !in s[..i]
  {
    assert s[..i + 1] == s[..i] + [s[i]];
  }

  /** A suffix is the same suffix of the list without its last element, and
      then that element. */
  lemma SuffixSnoc<T>(s: seq<T>, j: nat)
    requires j < |s|
    ensures s[j..] == s[..|s| - 1][j..] + [s[|s| - 1]]
  {
  }

  /** The set of elements of a list. */
  function Elems<T>(s: seq<T>): set<T>
  {
    set x | x in s
  }

  lemma ElemsSnoc<T>(s: seq<T>, a: T)
    ensures Elems(s + [a]) == Elems(s) + {a}
  {
    assert forall x :: x in s + [a] <==> x in s || x == a;
  }

  /** A list arranging a set has exactly that set's elements, and any of its
      suffixes a subset of them. */
  lemma ArrangesElems<T>(s: seq<T>, xs: set<T>, j: nat)
    requires Arranges(s, xs) && j <= |s|
    ensures Elems(s) == xs
    ensures Elems(s[j..]) <= xs
  {
    forall x | x in s[j..]
      ensures x in xs
    {
      var k :| 0 <= k < |s| - j && s[j..][k] == x;
      assert s[j + k] == x;
    }
  }

  /** Writing back the value a map already holds changes nothing. */
  lemma MapUpdateSame<K, V>(m: map<K, V>, k: K)
    requires k in m
    ensures m[k := m[k]] == m
  {
  }

  /** Some element of a non-empty set. */
  method Pick<T>(s: set<T>) returns (x: T)
    requires s != {}
    ensures x in s
  {
    x :| x in s;
  }

  function Min(a: int, b: int): int
  {
    if a <= b then a else b
  }
}
