/** `Array.prototype.find`: the first element of a sequence that satisfies a test. */
module Search {
  import opened Wrappers

  /** Index `i` holds the first element of `s` that satisfies `p`. */
  ghost predicate IsFirst<T>(s: seq<T>, p: T -> bool, i: int) {
    0 <= i < |s| && p(s[i]) && forall j :: 0 <= j < i ==> !p(s[j])
  }

  /** When the head fails the test, a first match in the tail is the first match of the whole. */
  lemma FirstOfTail<T>(s: seq<T>, p: T -> bool, v: T)
    requires |s| > 0 && !p(s[0])
    requires exists i :: IsFirst(s[1..], p, i) && s[1..][i] == v
    ensures exists i :: IsFirst(s, p, i) && s[i] == v
  {
    var i :| IsFirst(s[1..], p, i) && s[1..][i] == v;
    forall j | 0 <= j < i + 1
      ensures !p(s[j])
    {
      if j > 0 { assert s[j] == s[1..][j - 1]; }
    }
    assert IsFirst(s, p, i + 1);
  }

  /** Returns the first element satisfying `p`, or None when there is none. */
  function Find<T>(s: seq<T>, p: T -> bool): (r: Option<T>)
    ensures r.None? <==> forall i :: 0 <= i < |s| ==> !p(s[i])
    ensures r.Some? ==> exists i :: IsFirst(s, p, i) && s[i] == r.value
    decreases |s|
  {
    if s == [] then None
    else if p(s[0]) then
      assert IsFirst(s, p, 0);
      Some(s[0])
    else
      var r := Find(s[1..], p);
      if r.None? then
        assert forall i :: 1 <= i < |s| ==> s[i] == s[1..][i - 1];
        r
      else
        FirstOfTail(s, p, r.value);
        r
  }

  /** There is only one first match. */
  lemma FirstIsUnique<T>(s: seq<T>, p: T -> bool, i: int, k: int)
    requires IsFirst(s, p, i) && IsFirst(s, p, k)
    ensures i == k
  {
  }
}
