/**
 * The LINQ operators the runner uses (`Where`, `Any`, `FirstOrDefault` and
 * `Count`), as functions on sequences.  Each keeps the enumeration order of
 * its source sequence.
 */
module Queries {
  import opened Wrappers

  /** `Enumerable.Where`: the elements of `s` that satisfy `p`, in their order in `s`. */
  function Where<T>(s: seq<T>, p: T -> bool): (r: seq<T>)
    ensures |r| <= |s|
    ensures forall i :: 0 <= i < |r| ==> p(r[i])
    ensures forall x | x in r :: x in s
    ensures forall i :: 0 <= i < |s| ==> (s[i] in r <==> p(s[i]))
    decreases |s|
  {
    if |s| == 0 then []
    else (if p(s[0]) then [s[0]] else []) + Where(s[1..], p)
  }

  /** `Enumerable.Any`: some element of `s` satisfies `p`. */
  predicate Any<T>(s: seq<T>, p: T -> bool)
  {
    exists i :: 0 <= i < |s| && p(s[i])
  }

  /** Index `i` holds the first element of `s` that satisfies `p`. */
  ghost predicate IsFirstMatch<T>(s: seq<T>, p: T -> bool, i: int)
  {
    0 <= i < |s| && p(s[i]) && forall j :: 0 <= j < i ==> !p(s[j])
  }

  /**
   * `Enumerable.FirstOrDefault` over reference types: the first element that
   * satisfies `p`, or `None` (C#'s `null`) when there is none.
   */
  function FirstOrDefault<T>(s: seq<T>, p: T -> bool): (r: Option<T>)
    decreases |s|
  {
    if |s| == 0 then None
    else if p(s[0]) then Some(s[0])
    else FirstOrDefault(s[1..], p)
  }

  /** `FirstOrDefault` finds the first match, and `None` exactly when nothing matches. */
  lemma {:induction false} FirstOrDefaultFindsFirstMatch<T>(s: seq<T>, p: T -> bool)
    ensures FirstOrDefault(s, p).None? <==> !Any(s, p)
    ensures FirstOrDefault(s, p).Some? ==> exists i :: IsFirstMatch(s, p, i) && s[i] == FirstOrDefault(s, p).value
    decreases |s|
  {
    if |s| == 0 {
    } else if p(s[0]) {
      assert IsFirstMatch(s, p, 0);
    } else {
      FirstOrDefaultFindsFirstMatch(s[1..], p);
      var r := FirstOrDefault(s[1..], p);
      if r.Some? {
        var i :| IsFirstMatch(s[1..], p, i) && s[1..][i] == r.value;
        assert IsFirstMatch(s, p, i + 1);
      }
      if Any(s, p) {
        var i :| 0 <= i < |s| && p(s[i]);
        assert p(s[1..][i - 1]);
      }
      if Any(s[1..], p) {
        var i :| 0 <= i < |s[1..]| && p(s[1..][i]);
        assert p(s[i + 1]);
      }
    }
  }

  /** `Enumerable.Count` with a predicate: how many elements of `s` satisfy `p`. */
  function Count<T>(s: seq<T>, p: T -> bool): (n: nat)
    ensures n <= |s|
    decreases |s|
  {
    if |s| == 0 then 0
    else (if p(s[0]) then 1 else 0) + Count(s[1..], p)
  }

  /** `Where` distributes over concatenation, so it never reorders elements. */
  lemma {:induction false} WhereAppend<T>(a: seq<T>, b: seq<T>, p: T -> bool)
    ensures Where(a + b, p) == Where(a, p) + Where(b, p)
    decreases |a|
  {
    if |a| == 0 {
      assert a + b == b;
    } else {
      assert (a + b)[0] == a[0];
      assert (a + b)[1..] == a[1..] + b;
      WhereAppend(a[1..], b, p);
    }
  }

  /** Filtering around one element: what comes before it, then it if it is kept, then what comes after. */
  lemma WhereAround<T>(a: seq<T>, x: T, b: seq<T>, p: T -> bool)
    ensures Where(a + [x] + b, p) == Where(a, p) + (if p(x) then [x] else []) + Where(b, p)
  {
    assert Where([x], p) == (if p(x) then [x] else []) by {
      assert [x][1..] == [];
    }
    WhereAppend(a, [x], p);
    WhereAppend(a + [x], b, p);
  }

  /** `Any` holds exactly when `Where` keeps something. */
  lemma {:induction false} AnyIffWhereNonEmpty<T>(s: seq<T>, p: T -> bool)
    ensures Any(s, p) <==> |Where(s, p)| > 0
    decreases |s|
  {
    if |s| > 0 {
      AnyIffWhereNonEmpty(s[1..], p);
      if Any(s, p) && !p(s[0]) {
        var i :| 0 <= i < |s| && p(s[i]);
        assert p(s[1..][i - 1]);
      }
      if Any(s[1..], p) {
        var i :| 0 <= i < |s[1..]| && p(s[1..][i]);
        assert p(s[i + 1]);
      }
    }
  }

  /** Nothing satisfies `p`, so `Where` keeps nothing. */
  lemma WhereNone<T>(s: seq<T>, p: T -> bool)
    requires forall i :: 0 <= i < |s| ==> !p(s[i])
    ensures Where(s, p) == []
  {
    AnyIffWhereNonEmpty(s, p);
  }

  /** `Count` is the length of what `Where` keeps. */
  lemma {:induction false} CountIsWhereLength<T>(s: seq<T>, p: T -> bool)
    ensures Count(s, p) == |Where(s, p)|
    decreases |s|
  {
    if |s| > 0 {
      CountIsWhereLength(s[1..], p);
    }
  }

  /** Counting a predicate and its negation splits the sequence. */
  lemma {:induction false} CountComplement<T>(s: seq<T>, p: T -> bool, q: T -> bool)
    requires forall x :: q(x) == !p(x)
    ensures Count(s, p) + Count(s, q) == |s|
    decreases |s|
  {
    if |s| > 0 {
      CountComplement(s[1..], p, q);
    }
  }

  /** `Count` distributes over concatenation. */
  lemma {:induction false} CountAppend<T>(a: seq<T>, b: seq<T>, p: T -> bool)
    ensures Count(a + b, p) == Count(a, p) + Count(b, p)
    decreases |a|
  {
    if |a| == 0 {
      assert a + b == b;
    } else {
      assert (a + b)[0] == a[0];
      assert (a + b)[1..] == a[1..] + b;
      CountAppend(a[1..], b, p);
    }
  }

  /** The first match is unique: `FirstOrDefault` is deterministic. */
  lemma FirstMatchUnique<T>(s: seq<T>, p: T -> bool, i: int, j: int)
    requires IsFirstMatch(s, p, i) && IsFirstMatch(s, p, j)
    ensures i == j
  {
  }
}
