/**
 * Document-order queries over a sequence of children: the first match
 * (what `querySelector` returns), the number of matches, and the sequence
 * that remains once the first match has removed itself (`element.remove()`).
 */
module Query {
  import opened Wrappers

  /** Index of the first element satisfying `p`, or None when there is none. */
  function First<T>(s: seq<T>, p: T -> bool): (r: Option<nat>)
    ensures r.Some? ==> r.value < |s| && p(s[r.value])
    ensures r.Some? ==> forall j :: 0 <= j < r.value ==> !p(s[j])
    ensures r.None? <==> forall j :: 0 <= j < |s| ==> !p(s[j])
    decreases |s|
  {
    if |s| == 0 then None
    else if p(s[0]) then Some(0)
    else match First(s[1..], p)
      case None => None
      case Some(i) => Some(i + 1)
  }

  /** Number of elements satisfying `p`. */
  function Count<T>(s: seq<T>, p: T -> bool): nat
    decreases |s|
  {
    if |s| == 0 then 0 else (if p(s[0]) then 1 else 0) + Count(s[1..], p)
  }

  /** `s` without its first element satisfying `p`; `s` itself when there is none. */
  function RemoveFirst<T>(s: seq<T>, p: T -> bool): seq<T>
    decreases |s|
  {
    if |s| == 0 then []
    else if p(s[0]) then s[1..]
    else [s[0]] + RemoveFirst(s[1..], p)
  }

  lemma {:induction false} CountAppend<T>(s: seq<T>, x: T, p: T -> bool)
    ensures Count(s + [x], p) == Count(s, p) + (if p(x) then 1 else 0)
    decreases |s|
  {
    if |s| == 0 {
      assert s + [x] == [x];
    } else {
      assert (s + [x])[1..] == s[1..] + [x];
      CountAppend(s[1..], x, p);
    }
  }

  /** There is no match exactly when the count is zero. */
  lemma {:induction false} CountZero<T>(s: seq<T>, p: T -> bool)
    ensures Count(s, p) == 0 <==> First(s, p).None?
    decreases |s|
  {
    if |s| > 0 {
      CountZero(s[1..], p);
      if First(s[1..], p).Some? {
        assert p(s[1..][First(s[1..], p).value]);
      }
    }
  }

  /** Removing the first match deletes exactly the element at the index `First` reports. */
  lemma {:induction false} RemoveFirstAt<T>(s: seq<T>, p: T -> bool)
    ensures First(s, p).None? ==> RemoveFirst(s, p) == s
    ensures First(s, p).Some? ==>
      var i := First(s, p).value; RemoveFirst(s, p) == s[..i] + s[i + 1..]
    decreases |s|
  {
    if |s| > 0 && !p(s[0]) {
      RemoveFirstAt(s[1..], p);
      match First(s[1..], p)
      case None =>
      case Some(i) =>
        assert s[..i + 1] == [s[0]] + s[1..][..i];
        assert s[i + 2..] == s[1..][i + 1..];
    }
  }

  /** Removing the first match lowers the number of matches by one, if there was any. */
  lemma {:induction false} CountRemoveFirst<T>(s: seq<T>, p: T -> bool)
    ensures Count(RemoveFirst(s, p), p) == if Count(s, p) == 0 then 0 else Count(s, p) - 1
    decreases |s|
  {
    if |s| > 0 && !p(s[0]) {
      CountRemoveFirst(s[1..], p);
      assert ([s[0]] + RemoveFirst(s[1..], p))[1..] == RemoveFirst(s[1..], p);
    }
  }

  /** Removing the first `p`-match leaves the elements of a disjoint kind `q` untouched in number. */
  lemma {:induction false} CountRemoveOther<T>(s: seq<T>, p: T -> bool, q: T -> bool)
    requires forall i :: 0 <= i < |s| ==> !(p(s[i]) && q(s[i]))
    ensures Count(RemoveFirst(s, p), q) == Count(s, q)
    decreases |s|
  {
    if |s| > 0 {
      if p(s[0]) {
        assert !q(s[0]);
      } else {
        CountRemoveOther(s[1..], p, q);
        assert ([s[0]] + RemoveFirst(s[1..], p))[1..] == RemoveFirst(s[1..], p);
      }
    }
  }
}
