/** The disposable-domain check (functions.go lines 98-109): a linear scan of the decoded
    list that stops at the first entry equal to the domain up to case.  Matching is exact
    equality after case folding; suffixes, subdomains and superstrings never match.
    strings.EqualFold folds Unicode; this model folds ASCII letters only. */
module Disposable {

  /** ASCII simple case folding: upper-case letters map to lower case, all else is kept. */
  function FoldChar(c: char): (f: char)
    ensures 'A' <= c <= 'Z' ==> f as int == c as int + 32
    ensures !('A' <= c <= 'Z') ==> f == c
  {
    if 'A' <= c <= 'Z' then (c as int + 32) as char else c
  }

  /** The case-folded form of a string, character by character. */
  function Fold(s: string): (r: string)
    ensures |r| == |s|
    ensures forall i :: 0 <= i < |s| ==> r[i] == FoldChar(s[i])
  {
    seq(|s|, i requires 0 <= i < |s| => FoldChar(s[i]))
  }

  /** strings.EqualFold: equal under case folding. */
  predicate EqualFold(a: string, b: string): (r: bool)
    ensures r <==> |a| == |b| && forall i :: 0 <= i < |a| ==> FoldChar(a[i]) == FoldChar(b[i])
  {
    Fold(a) == Fold(b)
  }

  /** The domain is disposable when some entry of the list equals it up to case. */
  predicate IsDisposable(domain: string, list: seq<string>)
  {
    exists i :: 0 <= i < |list| && EqualFold(domain, list[i])
  }

  /** The scan of functions.go lines 98-104: go through the list in order, skip entries
      that do not match, and stop at the first one that does. */
  method ScanDisposable(domain: string, list: seq<string>) returns (found: bool)
    ensures found <==> IsDisposable(domain, list)
  {
    found := false;
    var i := 0;
    while i < |list|
      invariant 0 <= i <= |list|
      invariant forall j :: 0 <= j < i ==> !EqualFold(domain, list[j])
    {
      if !EqualFold(domain, list[i]) {
        i := i + 1;
        continue;
      }
      found := true;
      break;
    }
  }

  /** Case folding is idempotent, so a string and its folded form are equal up to case. */
  lemma FoldIdempotent(s: string)
    ensures Fold(Fold(s)) == Fold(s)
  {
    forall i | 0 <= i < |s| ensures Fold(Fold(s))[i] == Fold(s)[i] {
      var c := s[i];
      if 'A' <= c <= 'Z' {
        assert !('A' <= FoldChar(c) <= 'Z');
      }
    }
  }

  /** Equality up to case relates only strings of the same length: an entry that is a
      proper suffix, a subdomain or any superstring of the domain never matches it. */
  lemma EqualFoldSameLength(a: string, b: string)
    requires EqualFold(a, b)
    ensures |a| == |b|
  {
    assert |Fold(a)| == |Fold(b)|;
  }

  /** Only entries of the domain's own length can make it disposable; in particular a list
      of parent domains or subdomains of `domain` never does. */
  lemma NoPartialMatch(domain: string, list: seq<string>)
    requires forall i :: 0 <= i < |list| ==> |list[i]| != |domain|
    ensures !IsDisposable(domain, list)
  {
  }

  /** The verdict does not depend on the case of the domain. */
  lemma DisposableIgnoresCase(domain: string, other: string, list: seq<string>)
    requires EqualFold(domain, other)
    ensures IsDisposable(domain, list) <==> IsDisposable(other, list)
  {
    if IsDisposable(domain, list) {
      var i :| 0 <= i < |list| && EqualFold(domain, list[i]);
      assert EqualFold(other, list[i]);
    }
    if IsDisposable(other, list) {
      var i :| 0 <= i < |list| && EqualFold(other, list[i]);
      assert EqualFold(domain, list[i]);
    }
  }

  /** The verdict depends only on which entries the list holds, not on their order or
      multiplicity: the list is treated as a set. */
  lemma DisposableIgnoresOrder(domain: string, l1: seq<string>, l2: seq<string>)
    requires forall x :: x in l1 <==> x in l2
    ensures IsDisposable(domain, l1) <==> IsDisposable(domain, l2)
  {
    if IsDisposable(domain, l1) {
      var i :| 0 <= i < |l1| && EqualFold(domain, l1[i]);
      assert l1[i] in l2;
      var j :| 0 <= j < |l2| && l2[j] == l1[i];
    }
    if IsDisposable(domain, l2) {
      var j :| 0 <= j < |l2| && EqualFold(domain, l2[j]);
      assert l2[j] in l1;
      var i :| 0 <= i < |l1| && l1[i] == l2[j];
    }
  }

  /** The published list holds lower-case domains: a domain whose lower-cased form is
      listed is disposable, whatever case it was written in. */
  lemma DisposableWhenListedLowerCase(domain: string, list: seq<string>, k: nat)
    requires k < |list| && list[k] == Fold(domain)
    ensures IsDisposable(domain, list)
  {
    FoldIdempotent(domain);
    DisposableWhenListed(domain, list, k);
  }

  /** A list that holds the domain in any mix of case makes it disposable. */
  lemma DisposableWhenListed(domain: string, list: seq<string>, k: nat)
    requires k < |list| && Fold(list[k]) == Fold(domain)
    ensures IsDisposable(domain, list)
  {
    assert EqualFold(domain, list[k]);
  }
}
