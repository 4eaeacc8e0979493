/**
 * The did-you-mean distance of src/cli/unknown-flags.ts:153-184: two rows of a table against the recursive
 * definition, the metric laws, and the meaning as a least number of single edits.
 */
module EditDistance {
  import opened Options

  function Min(x: int, y: int): int {
    if x < y then x else y
  }

  function Front(s: string): string
    requires s != []
  {
    s[..|s| - 1]
  }

  function Last(s: string): char
    requires s != []
  {
    s[|s| - 1]
  }

  function Cost(x: char, y: char): nat {
    if x == y then 0 else 1
  }

  /** Levenshtein's definition. */
  function Lev(a: string, b: string): nat
    decreases |a| + |b|
  {
    if a == [] then |b|
    else if b == [] then |a|
    else Min(Min(Lev(Front(a), b), Lev(a, Front(b))) + 1, Lev(Front(a), Front(b)) + Cost(Last(a), Last(b)))
  }

  // ---------------------------------------------------------------- two rows

  /** Row i of the table: the distances from a[..i] to every prefix of b. */
  predicate IsRow(row: seq<int>, a: string, b: string, i: nat, upTo: nat)
    requires i <= |a| && upTo <= |b| + 1
  {
    |row| == upTo && forall j | 0 <= j < upTo :: row[j] == Lev(a[..i], b[..j])
  }

  /** One cell from its three neighbours. */
  lemma CellFromNeighbours(a: string, b: string, i: nat, j: nat)
    requires 1 <= i <= |a| && 1 <= j <= |b|
    ensures Lev(a[..i], b[..j])
         == Min(Min(Lev(a[..i - 1], b[..j]), Lev(a[..i], b[..j - 1])) + 1,
                Lev(a[..i - 1], b[..j - 1]) + Cost(a[i - 1], b[j - 1]))
  {
    assert Front(a[..i]) == a[..i - 1] && Front(b[..j]) == b[..j - 1];
    assert Last(a[..i]) == a[i - 1] && Last(b[..j]) == b[j - 1];
  }

  method EditDistance(a: string, b: string) returns (distance: nat)
    ensures distance == Lev(a, b)
  {
    hide Lev;
    var previous: seq<int> := seq(|b| + 1, j => j);
    EdgeRows(a, b);
    var i := 1;
    while i <= |a|
      invariant 1 <= i <= |a| + 1
      invariant IsRow(previous, a, b, i - 1, |b| + 1)
    {
      var current: seq<int> := [i];
      var j := 1;
      while j <= |b|
        invariant 1 <= j <= |b| + 1
        invariant IsRow(current, a, b, i, j)
      {
        var cost := if a[i - 1] == b[j - 1] then 0 else 1;
        CellFromNeighbours(a, b, i, j);
        current := current + [Min(Min(previous[j] + 1, current[j - 1] + 1), previous[j - 1] + cost)];
        j := j + 1;
      }
      previous := current;
      i := i + 1;
    }
    assert a[..|a|] == a && b[..|b|] == b;
    distance := previous[|b|];
  }

  lemma EdgeRows(a: string, b: string)
    ensures forall j | 0 <= j <= |b| :: Lev(a[..0], b[..j]) == j
    ensures forall i | 0 <= i <= |a| :: Lev(a[..i], b[..0]) == i
  {
  }

  // -------------------------------------------------------------- metric laws

  lemma {:induction false} Bounds(a: string, b: string)
    ensures Lev(a, b) <= |a| + |b|
    ensures |a| - |b| <= Lev(a, b)
    ensures |b| - |a| <= Lev(a, b)
    decreases |a| + |b|
  {
    if a != [] && b != [] {
      Bounds(Front(a), b);
      Bounds(a, Front(b));
      Bounds(Front(a), Front(b));
    }
  }

  /** Distance zero is equality. */
  lemma {:induction false} ZeroIsEquality(a: string, b: string)
    ensures Lev(a, b) == 0 <==> a == b
    decreases |a| + |b|
  {
    if a != [] && b != [] {
      ZeroIsEquality(Front(a), Front(b));
      assert a == Front(a) + [Last(a)] && b == Front(b) + [Last(b)];
    }
  }

  lemma {:induction false} Symmetric(a: string, b: string)
    ensures Lev(a, b) == Lev(b, a)
    decreases |a| + |b|
  {
    if a != [] && b != [] {
      Symmetric(Front(a), b);
      Symmetric(a, Front(b));
      Symmetric(Front(a), Front(b));
    }
  }

  /** Dropping or adding one last character changes the distance by at most one. */
  lemma OneStep(a: string, b: string)
    ensures a != [] ==> Lev(a, b) <= Lev(Front(a), b) + 1
    ensures b != [] ==> Lev(a, b) <= Lev(a, Front(b)) + 1
    ensures a != [] && b != [] ==> Lev(a, b) <= Lev(Front(a), Front(b)) + Cost(Last(a), Last(b))
  {
  }

  lemma {:induction false} Triangle(a: string, b: string, c: string)
    ensures Lev(a, c) <= Lev(a, b) + Lev(b, c)
    decreases |a| + |b| + |c|
  {
    if a == [] || b == [] || c == [] {
      Bounds(a, c);
      Bounds(b, c);
      Bounds(a, b);
    } else {
      OneStep(a, c);
      if Lev(b, c) == Lev(b, Front(c)) + 1 {
        Triangle(a, b, Front(c));
      } else if Lev(a, b) == Lev(Front(a), b) + 1 {
        Triangle(Front(a), b, c);
      } else {
        TriangleAtLast(a, b, c);
      }
    }
  }

  /** The cases in which the middle word's last character is used by both sides. */
  lemma {:induction false} TriangleAtLast(a: string, b: string, c: string)
    requires a != [] && b != [] && c != []
    requires Lev(b, c) != Lev(b, Front(c)) + 1 && Lev(a, b) != Lev(Front(a), b) + 1
    ensures Lev(a, c) <= Lev(a, b) + Lev(b, c)
    decreases |a| + |b| + |c|, 0
  {
    OneStep(a, c);
    Triangle(a, Front(b), c);
    Triangle(a, Front(b), Front(c));
    Triangle(Front(a), Front(b), c);
    Triangle(Front(a), Front(b), Front(c));
  }

  // ------------------------------------------------------------ single edits

  predicate Deletes(s: string, t: string) {
    exists i :: 0 <= i < |s| && t == s[..i] + s[i + 1..]
  }

  predicate Changes(s: string, t: string) {
    exists i :: 0 <= i < |s| && |s| == |t| && t == s[..i] + [t[i]] + s[i + 1..]
  }

  /** One insertion, deletion or substitution. */
  predicate OneEdit(s: string, t: string) {
    Deletes(s, t) || Deletes(t, s) || Changes(s, t)
  }

  predicate EditPath(path: seq<string>, a: string, b: string) {
    && path != [] && path[0] == a && path[|path| - 1] == b
    && forall k | 0 <= k < |path| - 1 :: OneEdit(path[k], path[k + 1])
  }

  /** A common last character, or a common tail, costs nothing. */
  lemma {:induction false} TailIsFree(a: string, b: string, tail: string)
    ensures Lev(a + tail, b + tail) <= Lev(a, b)
    decreases |tail|
  {
    if tail == [] {
      assert a + tail == a && b + tail == b;
    } else {
      TailIsFree(a, b, Front(tail));
      assert Front(a + tail) == a + Front(tail) && Front(b + tail) == b + Front(tail);
      OneStep(a + tail, b + tail);
    }
  }

  lemma OneEditCostsOne(s: string, t: string)
    requires OneEdit(s, t)
    ensures Lev(s, t) <= 1
  {
    hide Lev;
    if Deletes(s, t) {
      var i :| 0 <= i < |s| && t == s[..i] + s[i + 1..];
      DeletionCostsOne(s, i);
    } else if Deletes(t, s) {
      var i :| 0 <= i < |t| && s == t[..i] + t[i + 1..];
      DeletionCostsOne(t, i);
      Symmetric(s, t);
    } else {
      ChangeCostsOne(s, t);
    }
  }

  lemma ChangeCostsOne(s: string, t: string)
    requires Changes(s, t)
    ensures Lev(s, t) <= 1
  {
    hide Lev;
    var i :| 0 <= i < |s| && |s| == |t| && t == s[..i] + [t[i]] + s[i + 1..];
    var head := s[..i];
    ZeroIsEquality(head, head);
    assert Front(s[..i + 1]) == head && Front(head + [t[i]]) == head;
    OneStep(s[..i + 1], head + [t[i]]);
    TailIsFree(s[..i + 1], head + [t[i]], s[i + 1..]);
    assert s == s[..i + 1] + s[i + 1..];
  }

  lemma DeletionCostsOne(s: string, i: nat)
    requires i < |s|
    ensures Lev(s, s[..i] + s[i + 1..]) <= 1
  {
    ZeroIsEquality(s[..i], s[..i]);
    assert Front(s[..i + 1]) == s[..i];
    OneStep(s[..i + 1], s[..i]);
    TailIsFree(s[..i + 1], s[..i], s[i + 1..]);
    assert s == s[..i + 1] + s[i + 1..];
  }

  /** No path of single edits is shorter than the distance. */
  lemma {:induction false} NoShorterPath(path: seq<string>, a: string, b: string)
    requires EditPath(path, a, b)
    ensures Lev(a, b) <= |path| - 1
    decreases |path|
  {
    if |path| == 1 {
      ZeroIsEquality(a, b);
    } else {
      var n := |path| - 1;
      assert EditPath(path[..n], a, path[n - 1]);
      NoShorterPath(path[..n], a, path[n - 1]);
      assert OneEdit(path[n - 1], path[n - 1 + 1]);
      OneEditCostsOne(path[n - 1], b);
      Triangle(a, path[n - 1], b);
    }
  }

  lemma EditFirst(a: string, rest: seq<string>, m: string, b: string)
    requires EditPath(rest, m, b) && OneEdit(a, m)
    ensures EditPath([a] + rest, a, b)
  {
    hide OneEdit;
    var path := [a] + rest;
    forall k | 0 <= k < |path| - 1 ensures OneEdit(path[k], path[k + 1]) {
      if k > 0 {
        assert OneEdit(rest[k - 1], rest[k - 1 + 1]);
      }
    }
  }

  lemma EditLast(a: string, rest: seq<string>, m: string, b: string)
    requires EditPath(rest, a, m) && OneEdit(m, b)
    ensures EditPath(rest + [b], a, b)
  {
    hide OneEdit;
  }

  /** A path of exactly that many edits exists. */
  lemma {:induction false} PathExists(a: string, b: string) returns (path: seq<string>)
    ensures EditPath(path, a, b) && |path| == Lev(a, b) + 1
    decreases |a| + |b|
  {
    hide OneEdit, EditPath;
    if a == [] && b == [] {
      path := [a];
      assert EditPath(path, a, b) by { StayingIsAPath(a); }
    } else if a != [] && (b == [] || Lev(a, b) == Lev(Front(a), b) + 1) {
      var rest := PathExists(Front(a), b);
      DropLastIsEdit(a);
      EditFirst(a, rest, Front(a), b);
      path := [a] + rest;
    } else if b != [] && (a == [] || Lev(a, b) == Lev(a, Front(b)) + 1) {
      var rest := PathExists(a, Front(b));
      DropLastIsEdit(b);
      EditLast(a, rest, Front(b), b);
      path := rest + [b];
    } else {
      var rest := PathExists(Front(a), Front(b));
      path := AppendAll(rest, Last(a), Front(a), Front(b));
      assert a == Front(a) + [Last(a)] && b == Front(b) + [Last(b)];
      if Last(a) != Last(b) {
        ChangeLastIsEdit(Front(b), Last(a), Last(b));
        EditLast(a, path, Front(b) + [Last(a)], b);
        path := path + [b];
      }
    }
  }

  lemma StayingIsAPath(a: string)
    ensures EditPath([a], a, a)
  {
  }

  lemma DropLastIsEdit(s: string)
    requires s != []
    ensures OneEdit(s, Front(s)) && OneEdit(Front(s), s)
  {
    var i := |s| - 1;
    assert Front(s) == s[..i] + s[i + 1..];
  }

  lemma ChangeLastIsEdit(s: string, x: char, y: char)
    ensures OneEdit(s + [x], s + [y])
  {
    var from, to := s + [x], s + [y];
    assert to == from[..|s|] + [to[|s|]] + from[|s| + 1..];
  }

  /** The same edits in front of one more character. */
  lemma AppendAll(path: seq<string>, x: char, a: string, b: string) returns (longer: seq<string>)
    requires EditPath(path, a, b)
    ensures EditPath(longer, a + [x], b + [x]) && |longer| == |path|
  {
    longer := seq(|path|, k requires 0 <= k < |path| => path[k] + [x]);
    forall k | 0 <= k < |longer| - 1 ensures OneEdit(longer[k], longer[k + 1]) {
      EditBeforeTail(path[k], path[k + 1], x);
    }
  }

  lemma EditBeforeTail(s: string, t: string, x: char)
    requires OneEdit(s, t)
    ensures OneEdit(s + [x], t + [x])
  {
    hide Deletes, Changes;
    if Deletes(s, t) {
      DeleteBeforeTail(s, t, x);
    } else if Deletes(t, s) {
      DeleteBeforeTail(t, s, x);
    } else {
      ChangeBeforeTail(s, t, x);
    }
  }

  lemma DeleteBeforeTail(s: string, t: string, x: char)
    requires Deletes(s, t)
    ensures Deletes(s + [x], t + [x])
  {
    var i :| 0 <= i < |s| && t == s[..i] + s[i + 1..];
    assert t + [x] == (s + [x])[..i] + (s + [x])[i + 1..];
  }

  lemma ChangeBeforeTail(s: string, t: string, x: char)
    requires Changes(s, t)
    ensures Changes(s + [x], t + [x])
  {
    var i :| 0 <= i < |s| && |s| == |t| && t == s[..i] + [t[i]] + s[i + 1..];
    var s', t' := s + [x], t + [x];
    assert t' == s'[..i] + [t'[i]] + s'[i + 1..];
  }

  // ------------------------------------------------------------ closest match

  /** The earliest candidate of least distance. */
  predicate EarliestNearest(attempted: string, candidates: seq<string>, k: nat) {
    && k < |candidates|
    && (forall j | 0 <= j < |candidates| :: Lev(attempted, candidates[k]) <= Lev(attempted, candidates[j]))
    && (forall j | 0 <= j < k :: Lev(attempted, candidates[k]) < Lev(attempted, candidates[j]))
  }

  /** Some suggestion exactly when some candidate is within the threshold, and then the earliest nearest one. */
  method ClosestMatch(attempted: string, candidates: seq<string>, threshold: int) returns (best: Option<string>)
    ensures best.Some? <==> exists j :: 0 <= j < |candidates| && Lev(attempted, candidates[j]) <= threshold
    ensures best.Some? ==>
              exists k: nat :: EarliestNearest(attempted, candidates, k) && best.value == candidates[k]
                               && Lev(attempted, candidates[k]) <= threshold
  {
    hide Lev;
    best := None;
    var bestDistance: int := -1;
    ghost var at: nat := 0;
    var i := 0;
    while i < |candidates|
      invariant 0 <= i <= |candidates|
      invariant best.None? <==> i == 0
      invariant best.Some? ==>
                  && at < i && best.value == candidates[at] && bestDistance == Lev(attempted, candidates[at])
                  && (forall j | 0 <= j < i :: bestDistance <= Lev(attempted, candidates[j]))
                  && (forall j | 0 <= j < at :: bestDistance < Lev(attempted, candidates[j]))
    {
      var distance := EditDistance(attempted, candidates[i]);
      if best.None? || distance < bestDistance {
        bestDistance := distance;
        best := Some(candidates[i]);
        at := i;
      }
      i := i + 1;
    }
    if best.Some? {
      assert EarliestNearest(attempted, candidates, at);
      if bestDistance > threshold {
        best := None;
      }
    }
  }
}
