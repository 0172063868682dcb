/**
 Unique category slugs: the search for a free suffix is proved to end and to find the
 least one. That no two candidates are the same string rests on decimal printing being
 injective.
 */
module Slug {
  import opened Common
  import Decimal

  datatype Category = Category(id: nat, slug: string)

  // The rows the existence query looks at: all of the tenant's, without the one being renamed.
  predicate Taken(rows: seq<Category>, excludeId: Option<nat>, slug: string) {
    exists i :: 0 <= i < |rows| && rows[i].slug == slug && Counts(rows[i], excludeId)
  }

  // `->when($excludeId, ...)` skips the condition for null and for 0.
  predicate Counts(row: Category, excludeId: Option<nat>) {
    excludeId.GetOr(0) == 0 || row.id != excludeId.value
  }

  // `Str::slug($name) ?: 'category'`: the empty string and "0" are both falsy.
  function Base(slugged: string): string {
    if slugged == "" || slugged == "0" then "category" else slugged
  }

  function Candidate(base: string, k: nat): string {
    if k == 0 then base else base + "-" + Decimal.OfNat(k)
  }

  lemma CandidatesDiffer(base: string, j: nat, k: nat)
    requires Candidate(base, j) == Candidate(base, k)
    ensures j == k
  {
    if j > 0 && k > 0 {
      assert Candidate(base, j)[|base| + 1..] == Decimal.OfNat(j);
      assert Candidate(base, k)[|base| + 1..] == Decimal.OfNat(k);
      Decimal.OfNatInjective(j, k);
    }
  }

  // The rows that hold the first n candidates are different rows.
  lemma {:induction false} TakenCandidatesNeedRows(rows: seq<Category>, excludeId: Option<nat>, base: string, n: nat)
    returns (holders: set<nat>)
    requires forall k | 0 <= k < n :: Taken(rows, excludeId, Candidate(base, k))
    ensures |holders| == n
    ensures forall i :: i in holders ==> i < |rows| && exists k :: 0 <= k < n && rows[i].slug == Candidate(base, k)
  {
    holders := {};
    if n > 0 {
      holders := TakenCandidatesNeedRows(rows, excludeId, base, n - 1);
      var i := Holder(rows, excludeId, Candidate(base, n - 1));
      if i in holders {
        var k :| 0 <= k < n - 1 && rows[i].slug == Candidate(base, k);
        CandidatesDiffer(base, k, n - 1);
      }
      hide Taken, Candidate;
      holders := holders + {i};
    }
  }

  lemma Holder(rows: seq<Category>, excludeId: Option<nat>, slug: string) returns (i: nat)
    requires Taken(rows, excludeId, slug)
    ensures i < |rows| && rows[i].slug == slug
  {
    i :| 0 <= i < |rows| && rows[i].slug == slug && Counts(rows[i], excludeId);
  }

  lemma {:induction false} BoundedSet(s: set<nat>, n: nat)
    requires forall i :: i in s ==> i < n
    ensures |s| <= n
  {
    if n > 0 {
      BoundedSet(s - {n - 1}, n - 1);
      assert |s| <= |s - {n - 1}| + 1;
    }
  }

  lemma SomeCandidateIsFree(rows: seq<Category>, excludeId: Option<nat>, base: string, n: nat)
    requires forall k | 0 <= k < n :: Taken(rows, excludeId, Candidate(base, k))
    ensures n <= |rows|
  {
    var holders := TakenCandidatesNeedRows(rows, excludeId, base, n);
    BoundedSet(holders, |rows|);
  }

  ghost predicate IsLeastFree(rows: seq<Category>, excludeId: Option<nat>, base: string, k: nat) {
    && !Taken(rows, excludeId, Candidate(base, k))
    && forall j | 0 <= j < k :: Taken(rows, excludeId, Candidate(base, j))
  }

  // The base if it is free, otherwise the base with the least free suffix, after at most
  // one probe more than there are rows.
  method GenerateUniqueSlug(rows: seq<Category>, slugged: string, excludeId: Option<nat>)
    returns (slug: string, probes: nat)
    ensures 1 <= probes <= |rows| + 1
    ensures slug == Candidate(Base(slugged), probes - 1)
    ensures IsLeastFree(rows, excludeId, Base(slugged), probes - 1)
    ensures var base := if |slugged| == 0 || slugged == "0" then "category" else slugged;
            slug == if probes == 1 then base else base + "-" + Decimal.OfNat(probes - 1)
  {
    var base := Base(slugged);
    slug := base;
    probes := 1;
    var suffix := 1;
    while Taken(rows, excludeId, slug)
      invariant suffix == probes >= 1 && slug == Candidate(base, suffix - 1)
      invariant forall k | 0 <= k < suffix - 1 :: Taken(rows, excludeId, Candidate(base, k))
      invariant probes <= |rows| + 1
      decreases |rows| + 1 - suffix
    {
      SomeCandidateIsFree(rows, excludeId, base, suffix);
      slug := base + "-" + Decimal.OfNat(suffix);
      suffix := suffix + 1;
      probes := probes + 1;
    }
  }

  // ----- what the search is for -----

  predicate SlugsDiffer(rows: seq<Category>) {
    forall i, j | 0 <= i < j < |rows| :: rows[i].slug != rows[j].slug
  }

  // A free slug can be stored, for a new category or in place of the renamed one's.
  lemma StoringKeepsSlugsDifferent(rows: seq<Category>, excludeId: Option<nat>, slug: string, at: nat, id: nat)
    requires SlugsDiffer(rows) && !Taken(rows, excludeId, slug)
    ensures excludeId.None? ==> SlugsDiffer(rows + [Category(id, slug)])
    ensures excludeId.Some? && at < |rows| && rows[at].id == excludeId.value != 0 &&
            (forall i | 0 <= i < |rows| && i != at :: rows[i].id != rows[at].id) ==>
              SlugsDiffer(rows[at := Category(rows[at].id, slug)])
  {
    forall i | 0 <= i < |rows| && Counts(rows[i], excludeId) ensures rows[i].slug != slug {
    }
  }
}
