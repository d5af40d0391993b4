/** Small shared vocabulary: optional values, filtering, and sorting a finite set. */
module Collections {

  datatype Option<+T> = None | Some(value: T) {
    function GetOr(default: T): T {
      if Some? then value else default
    }
  }

  datatype Result<+T, +E> = Ok(value: T) | Err(error: E)

  function Min(a: int, b: int): int { if a <= b then a else b }

  function Max(a: int, b: int): int { if a >= b then a else b }

  lemma Regroup<T>(a: seq<T>, b: seq<T>, c: seq<T>)
    ensures (a + b) + c == a + (b + c)
  {
  }

  lemma SliceOfTake<T>(s: seq<T>, n: nat, lo: nat, hi: nat)
    requires lo <= hi <= n <= |s|
    ensures s[..n][lo..hi] == s[lo..hi]
  {
  }

  /** The elements of `s` that satisfy `keep`, in order. */
  function Filter<T>(keep: T -> bool, s: seq<T>): seq<T> {
    if s == [] then []
    else Filter(keep, s[..|s| - 1]) + (if keep(s[|s| - 1]) then [s[|s| - 1]] else [])
  }

  lemma {:induction false} FilterConcat<T>(keep: T -> bool, a: seq<T>, b: seq<T>)
    ensures Filter(keep, a + b) == Filter(keep, a) + Filter(keep, b)
    decreases |b|
  {
    if b == [] {
      assert a + b == a;
    } else {
      var s := a + b;
      assert s[..|s| - 1] == a + b[..|b| - 1] && s[|s| - 1] == b[|b| - 1];
      FilterConcat(keep, a, b[..|b| - 1]);
    }
  }

  lemma FilterOne<T>(keep: T -> bool, x: T)
    ensures Filter(keep, [x]) == if keep(x) then [x] else []
  {
    assert [x][..0] == [];
  }

  /** Elements that do not both pass may change places. */
  lemma FilterSwap<T>(keep: T -> bool, s: seq<T>, x: T, y: T)
    requires !keep(x) || !keep(y)
    ensures Filter(keep, (s + [x]) + [y]) == Filter(keep, (s + [y]) + [x])
  {
    FilterConcat(keep, s + [x], [y]);
    FilterConcat(keep, s + [y], [x]);
    FilterConcat(keep, s, [x]);
    FilterConcat(keep, s, [y]);
    FilterOne(keep, x);
    FilterOne(keep, y);
  }

  lemma {:induction false} FilterMembers<T>(keep: T -> bool, s: seq<T>)
    ensures forall x :: x in Filter(keep, s) <==> x in s && keep(x)
    decreases |s|
  {
    if s != [] {
      FilterMembers(keep, s[..|s| - 1]);
      assert s == s[..|s| - 1] + [s[|s| - 1]];
    }
  }

  lemma {:induction false} FilterAll<T>(keep: T -> bool, s: seq<T>)
    requires forall i :: 0 <= i < |s| ==> keep(s[i])
    ensures Filter(keep, s) == s
    decreases |s|
  {
    if s != [] {
      FilterAll(keep, s[..|s| - 1]);
      assert s == s[..|s| - 1] + [s[|s| - 1]];
    }
  }

  lemma {:induction false} FilterNone<T>(keep: T -> bool, s: seq<T>)
    requires forall i :: 0 <= i < |s| ==> !keep(s[i])
    ensures Filter(keep, s) == []
    decreases |s|
  {
    if s != [] {
      FilterNone(keep, s[..|s| - 1]);
    }
  }

  // ---- sorting a set ----

  ghost predicate TotalOrder<T(!new)>(le: (T, T) -> bool) {
    && (forall x, y :: le(x, y) || le(y, x))
    && (forall x, y :: le(x, y) && le(y, x) ==> x == y)
    && (forall x, y, z :: le(x, y) && le(y, z) ==> le(x, z))
  }

  lemma {:induction false} GreatestExists<T(!new)>(s: set<T>, le: (T, T) -> bool)
    requires TotalOrder(le) && s != {}
    ensures exists m :: m in s && forall x :: x in s ==> le(x, m)
    decreases |s|
  {
    var y :| y in s;
    var rest := s - {y};
    if rest == {} {
      assert s == {y};
      assert le(y, y);
    } else {
      GreatestExists(rest, le);
      var m :| m in rest && forall x :: x in rest ==> le(x, m);
      var g := if le(m, y) then y else m;
      forall x | x in s ensures le(x, g) {
        assert x == y || x in rest;
      }
    }
  }

  /** The greatest of a set of integers. */
  function MaxOf(s: set<int>): (m: int)
    requires s != {}
    ensures m in s && forall x :: x in s ==> x <= m
  {
    GreatestExists(s, (x: int, y: int) => x <= y);
    var m :| m in s && forall x :: x in s ==> x <= m;
    m
  }

  /** The integers of a set in ascending order. */
  function AscendingInts(s: set<int>): (r: seq<int>)
    ensures forall x :: x in r <==> x in s
    decreases |s|
  {
    if s == {} then [] else AscendingInts(s - {MaxOf(s)}) + [MaxOf(s)]
  }
}
