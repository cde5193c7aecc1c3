/** Sorting and ranking of rows by a numeric column, largest first, as
    `DataFrame.sort_values(col, ascending=False)`, `head(n)` and the
    `range(1, len + 1)` rank columns do. Ties are ordered however the sort
    leaves them; the contracts speak only of order and contents. */
module Ranking {
  import opened Wrappers

  /** Keys never increase from one row to a later one. */
  predicate SortedDescBy<T>(s: seq<T>, key: T -> real) {
    forall i, j :: 0 <= i < j < |s| ==> key(s[i]) >= key(s[j])
  }

  /** Puts `x` into an already sorted sequence. */
  function InsertDescBy<T(==)>(x: T, s: seq<T>, key: T -> real): (r: seq<T>)
    requires SortedDescBy(s, key)
    ensures |r| == |s| + 1
    ensures multiset(r) == multiset(s) + multiset{x}
    ensures SortedDescBy(r, key)
    ensures r[0] == x || (|s| > 0 && r[0] == s[0])
  {
    if |s| == 0 then [x]
    else if key(x) >= key(s[0]) then [x] + s
    else
      var rest := InsertDescBy(x, s[1..], key);
      assert key(s[0]) >= key(rest[0]);
      ConsSorted(s[0], rest, key);
      assert s == [s[0]] + s[1..];
      assert multiset([s[0]] + rest) == multiset{s[0]} + multiset(rest);
      [s[0]] + rest
  }

  /** A head no smaller than the first key of a sorted tail keeps it sorted. */
  lemma ConsSorted<T>(h: T, t: seq<T>, key: T -> real)
    requires SortedDescBy(t, key) && (|t| > 0 ==> key(h) >= key(t[0]))
    ensures SortedDescBy([h] + t, key)
  {
    var r := [h] + t;
    forall i, j | 0 <= i < j < |r| ensures key(r[i]) >= key(r[j]) {
      if i == 0 {
        assert r[j] == t[j - 1];
        if j > 1 {
          assert key(t[0]) >= key(t[j - 1]);
        }
      } else {
        assert r[i] == t[i - 1] && r[j] == t[j - 1];
      }
    }
  }

  /** `sort_values(..., ascending=False)`: the same rows, largest key first. */
  function SortDescBy<T(==)>(s: seq<T>, key: T -> real): (r: seq<T>)
    ensures |r| == |s|
    ensures multiset(r) == multiset(s)
    ensures SortedDescBy(r, key)
  {
    if |s| == 0 then []
    else
      assert s == [s[0]] + s[1..];
      InsertDescBy(s[0], SortDescBy(s[1..], key), key)
  }

  /** Python's `s[:n]` and pandas' `head(n)`: a negative `n` drops the last `-n` rows. */
  function PySliceTo<T>(s: seq<T>, n: int): (r: seq<T>)
    ensures |r| <= |s| && r == s[..|r|]
    ensures 0 <= n ==> |r| == if n <= |s| then n else |s|
    ensures n < 0 ==> |r| == if -n <= |s| then |s| + n else 0
  {
    if 0 <= n then (if n <= |s| then s[..n] else s)
    else if -n <= |s| then s[..|s| + n]
    else []
  }

  /** The rows `head(n)` keeps after the sort outrank every row it drops. */
  lemma TopRowsOutrankTheRest<T>(s: seq<T>, key: T -> real, n: int)
    ensures var sorted := SortDescBy(s, key);
            var top := PySliceTo(sorted, n);
            forall i, j :: 0 <= i < |top| <= j < |sorted| ==> key(top[i]) >= key(sorted[j])
  {
  }

  /** `sort_values(key, ascending=False).head(n)`: the `n` rows with the
      largest keys, largest first; every row left out ranks no higher than
      any row kept. */
  function TopBy<T(==)>(s: seq<T>, key: T -> real, n: nat): (r: seq<T>)
    ensures |r| == if n <= |s| then n else |s|
    ensures multiset(r) <= multiset(s)
    ensures SortedDescBy(r, key)
    ensures forall x, i :: x in multiset(s) - multiset(r) && 0 <= i < |r| ==> key(x) <= key(r[i])
  {
    var sorted := SortDescBy(s, key);
    var r := PySliceTo(sorted, n);
    TopSplit(sorted, key, |r|);
    r
  }

  /** Cutting a sorted sequence: what is cut off is no larger than what is kept. */
  lemma TopSplit<T>(sorted: seq<T>, key: T -> real, k: nat)
    requires k <= |sorted| && SortedDescBy(sorted, key)
    ensures multiset(sorted[..k]) <= multiset(sorted)
    ensures forall x, i :: x in multiset(sorted) - multiset(sorted[..k]) && 0 <= i < k ==> key(x) <= key(sorted[i])
  {
    assert sorted == sorted[..k] + sorted[k..];
    assert multiset(sorted) == multiset(sorted[..k]) + multiset(sorted[k..]);
    forall x, i | x in multiset(sorted) - multiset(sorted[..k]) && 0 <= i < k
      ensures key(x) <= key(sorted[i])
    {
      assert x in multiset(sorted[k..]);
      var j :| k <= j < |sorted| && sorted[j] == x;
    }
  }

  /** Python's `s[k]`: a negative `k` counts from the end; out of range raises `IndexError`. */
  function PyAt<T>(s: seq<T>, k: int): (r: Option<T>)
    ensures 0 <= k < |s| ==> r == Some(s[k])
    ensures -|s| <= k < 0 ==> r == Some(s[|s| + k])
    ensures r.None? <==> k >= |s| || k < -|s|
  {
    if 0 <= k < |s| then Some(s[k])
    else if -|s| <= k < 0 then Some(s[|s| + k])
    else None
  }

  /** Keys strictly decrease along the sequence. */
  predicate StrictlyDescending(s: seq<int>) {
    forall i, j :: 0 <= i < j < |s| ==> s[i] > s[j]
  }

  lemma MaxExists(keys: set<int>)
    requires keys != {}
    ensures exists m :: m in keys && forall x :: x in keys ==> x <= m
    decreases |keys|
  {
    var x := PickKey(keys);
    if keys == {x} {
      assert forall y :: y in keys ==> y <= x;
    } else {
      var rest := keys - {x};
      MaxExists(rest);
      var m :| m in rest && forall y :: y in rest ==> y <= m;
      if x > m {
        assert forall y :: y in keys ==> y == x || y in rest;
        assert forall y :: y in keys ==> y <= x;
      } else {
        assert forall y :: y in keys ==> y == x || y in rest;
        assert forall y :: y in keys ==> y <= m;
      }
    }
  }

  lemma PickKey(keys: set<int>) returns (x: int)
    requires keys != {}
    ensures x in keys
  {
    if forall y :: y !in keys {
      assert false;
    }
    x :| x in keys;
  }

  /** The largest key of a non-empty set. */
  function MaxKey(keys: set<int>): (m: int)
    requires keys != {}
    ensures m in keys && forall x :: x in keys ==> x <= m
  {
    MaxExists(keys);
    var m :| m in keys && forall x :: x in keys ==> x <= m;
    m
  }

  /** `sorted(keys, reverse=True)` for distinct integer keys. */
  function SortedKeysDesc(keys: set<int>): (r: seq<int>)
    ensures |r| == |keys|
    ensures forall i :: 0 <= i < |r| ==> r[i] in keys
    ensures forall k :: k in keys ==> k in r
    ensures StrictlyDescending(r)
    decreases |keys|
  {
    if keys == {} then []
    else
      var m := MaxKey(keys);
      var rest := SortedKeysDesc(keys - {m});
      ConsStrict(m, rest);
      [m] + rest
  }

  /** A head larger than every element of a strictly descending tail keeps it so. */
  lemma ConsStrict(m: int, rest: seq<int>)
    requires StrictlyDescending(rest) && forall i :: 0 <= i < |rest| ==> rest[i] < m
    ensures StrictlyDescending([m] + rest)
  {
    var r := [m] + rest;
    forall i, j | 0 <= i < j < |r| ensures r[i] > r[j] {
      assert r[j] == rest[j - 1];
      if i > 0 {
        assert r[i] == rest[i - 1];
      }
    }
  }

  /** The reverse of a sequence (`sorted(keys)` is the reverse of the descending order). */
  function Reverse<T>(s: seq<T>): (r: seq<T>)
    ensures |r| == |s|
    ensures forall i :: 0 <= i < |s| ==> r[i] == s[|s| - 1 - i]
  {
    if |s| == 0 then [] else Reverse(s[1..]) + [s[0]]
  }

  /** `df['rank'] = range(1, len(df) + 1)`: row `i` gets rank `i + 1`, written
      into the row by `setRank`. */
  function Numbered<T>(rows: seq<T>, setRank: (T, nat) -> T): (r: seq<T>)
    ensures |r| == |rows|
    ensures forall i :: 0 <= i < |r| ==> r[i] == setRank(rows[i], i + 1)
  {
    seq(|rows|, i requires 0 <= i < |rows| => setRank(rows[i], i + 1))
  }

  /** The rows with their rank cleared to 0. */
  function Unnumbered<T>(rows: seq<T>, setRank: (T, nat) -> T): (r: seq<T>)
    ensures |r| == |rows|
    ensures forall i :: 0 <= i < |r| ==> r[i] == setRank(rows[i], 0)
  {
    seq(|rows|, i requires 0 <= i < |rows| => setRank(rows[i], 0))
  }

  /** Numbering rows drawn from an unranked pool and clearing the numbers
      again gives the rows back. */
  lemma NumberedRoundTrip<T>(top: seq<T>, pool: seq<T>, setRank: (T, nat) -> T)
    requires multiset(top) <= multiset(pool)
    requires forall row :: row in pool ==> setRank(row, 0) == row
    requires forall row, k :: setRank(setRank(row, k), 0) == setRank(row, 0)
    ensures Unnumbered(Numbered(top, setRank), setRank) == top
  {
    forall i | 0 <= i < |top| ensures setRank(top[i], 0) == top[i] {
      assert top[i] in multiset(pool);
    }
  }
}
