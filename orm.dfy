/**
 * The two lookup rules of the object-relational mapper that the accounts code
 * relies on: `QuerySet.get` and the `__iexact` field lookup.
 */
module Orm {

  /** Outcome of `QuerySet.get`: no row, exactly one row, or the error raised for several rows. */
  datatype Got<K> = DoesNotExist | Got(key: K) | MultipleObjectsReturned

  /** A set of cardinality one holds a single element. */
  lemma SingletonHasOneElement<K>(s: set<K>, k: K)
    requires |s| == 1 && k in s
    ensures s == {k}
  {
    var rest := s - {k};
    assert |rest| == 0;
    assert rest == {};
  }

  /**
   * `get` over the rows that match a filter, given as the set of their keys.
   * It succeeds only when exactly one row matches.
   */
  function Get<K>(matches: set<K>): (r: Got<K>)
    ensures r.DoesNotExist? <==> matches == {}
    ensures r.Got? ==> matches == {r.key}
    ensures r.MultipleObjectsReturned? <==> |matches| > 1
  {
    if matches == {} then DoesNotExist
    else if |matches| > 1 then MultipleObjectsReturned
    else
      var k :| k in matches;
      SingletonHasOneElement(matches, k);
      Got(k)
  }

  /** Case folding used by `__iexact`, on ASCII letters. */
  function Lower(c: char): char
  {
    if 'A' <= c <= 'Z' then (c as int + 32) as char else c
  }

  /** The case-folded string: same length, no upper-case ASCII letter left. */
  function Fold(s: string): (r: string)
    ensures |r| == |s|
    ensures forall i :: 0 <= i < |r| ==> !('A' <= r[i] <= 'Z')
  {
    seq(|s|, i requires 0 <= i < |s| => Lower(s[i]))
  }

  /** `a__iexact=b`: equality up to letter case. */
  predicate IExact(a: string, b: string)
  {
    Fold(a) == Fold(b)
  }

  lemma IExactIsEquivalence(a: string, b: string, c: string)
    ensures IExact(a, a)
    ensures IExact(a, b) ==> IExact(b, a)
    ensures IExact(a, b) && IExact(b, c) ==> IExact(a, c)
  {
  }

  /** Strings that agree letter by letter up to case are equal under `iexact`. */
  lemma IExactWhenLettersAgree(a: string, b: string)
    requires |a| == |b| && forall i :: 0 <= i < |a| ==> Lower(a[i]) == Lower(b[i])
    ensures IExact(a, b)
  {
  }

  /** One position whose characters differ other than by case makes the strings unequal. */
  lemma IExactFailsOnOtherDifference(a: string, b: string, i: nat)
    requires |a| == |b| && i < |a| && Lower(a[i]) != Lower(b[i])
    ensures !IExact(a, b)
  {
    assert Fold(a)[i] != Fold(b)[i];
  }

  /** Strings equal under `iexact` have the same length. */
  lemma IExactKeepsLength(a: string, b: string)
    requires IExact(a, b)
    ensures |a| == |b|
  {
  }

}
