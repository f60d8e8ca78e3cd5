/**
 * Facts about sequences of functional options applied in order. Both client
 * generations apply their options one after another onto a base record, so for
 * every field the last option that sets it decides its value; these two
 * predicates name "the last option that sets the field" and "no option sets it".
 */
module LastWins {

  /** Position `k` holds the last element of `s` that satisfies `p`. */
  ghost predicate IsLast<T>(s: seq<T>, k: int, p: T -> bool) {
    0 <= k < |s| && p(s[k]) && forall j :: k < j < |s| ==> !p(s[j])
  }

  /** No element of `s` satisfies `p`. */
  ghost predicate NoneSatisfy<T>(s: seq<T>, p: T -> bool) {
    forall j :: 0 <= j < |s| ==> !p(s[j])
  }

  /** When the final element does not satisfy `p`, the last match lies in the prefix. */
  lemma LastInPrefix<T>(s: seq<T>, p: T -> bool)
    requires |s| > 0 && !p(s[|s| - 1])
    ensures forall k :: IsLast(s, k, p) ==> IsLast(s[..|s| - 1], k, p)
    ensures NoneSatisfy(s, p) <==> NoneSatisfy(s[..|s| - 1], p)
  {
    var init := s[..|s| - 1];
    assert forall j :: 0 <= j < |init| ==> init[j] == s[j];
  }

  /** When the final element satisfies `p`, it is the last match. */
  lemma LastIsFinal<T>(s: seq<T>, p: T -> bool)
    requires |s| > 0 && p(s[|s| - 1])
    ensures forall k :: IsLast(s, k, p) ==> k == |s| - 1
    ensures !NoneSatisfy(s, p)
  {
  }

  /** Some element satisfies `p`, so there is a last one. */
  lemma {:induction false} LastSatisfying<T>(s: seq<T>, p: T -> bool) returns (k: int)
    requires !NoneSatisfy(s, p)
    ensures IsLast(s, k, p)
    decreases |s|
  {
    if p(s[|s| - 1]) {
      k := |s| - 1;
    } else {
      LastInPrefix(s, p);
      k := LastSatisfying(s[..|s| - 1], p);
    }
  }

  /** There is at most one last match. */
  lemma LastIsUnique<T>(s: seq<T>, k: int, k': int, p: T -> bool)
    requires IsLast(s, k, p) && IsLast(s, k', p)
    ensures k == k'
  {
  }
}
