/**
 * The matcher of `lookup_medication`: normalise the query, then scan the
 * directory in order and stop at the first entry the query hits.
 */
module Matcher {
  import opened Wrappers
  import opened Text
  import opened Directory

  /** The query as the matcher compares it: lower-cased, then stripped. */
  function Normalize(query: string): (q: string)
    ensures NoUpper(q) && IsTrimmed(q)
    ensures exists i, j :: 0 <= i <= j <= |query| && q == Lower(query)[i..j]
                             && SpaceBetween(query, 0, i) && SpaceBetween(query, j, |query|)
  {
    Strip(Lower(query))
  }

  /** The brand names of an entry, each lower-cased. */
  function LoweredBrands(e: Entry): (bs: seq<string>)
    ensures |bs| == |e.brands|
    ensures forall k :: 0 <= k < |bs| ==> bs[k] == Lower(e.brands[k])
  {
    seq(|e.brands|, k requires 0 <= k < |e.brands| => Lower(e.brands[k]))
  }

  /** Whether `q` is one of `brands[k..]` lower-cased. */
  predicate BrandFrom(q: string, brands: seq<string>, k: nat)
    decreases |brands| - k
  {
    k < |brands| && (IsLowerOf(q, brands[k]) || BrandFrom(q, brands, k + 1))
  }

  /** The three ways a normalised query `q` selects an entry: it is the
      canonical name, it is one of the brands up to case, or it occurs
      inside the canonical name. Brands are never searched for substrings. */
  predicate Hits(q: string, e: Entry) {
    q == e.name || BrandFrom(q, e.brands, 0) || Contains(e.name, q)
  }

  lemma {:induction false} BrandFromIff(q: string, brands: seq<string>, k: nat)
    ensures BrandFrom(q, brands, k) <==> exists m :: k <= m < |brands| && q == Lower(brands[m])
    decreases |brands| - k
  {
    if k < |brands| {
      BrandFromIff(q, brands, k + 1);
      IsLowerOfIff(q, brands[k]);
      if BrandFrom(q, brands, k) && !IsLowerOf(q, brands[k]) {
        var m :| k + 1 <= m < |brands| && q == Lower(brands[m]);
        assert k <= m;
      }
      if exists m :: k <= m < |brands| && q == Lower(brands[m]) {
        var m :| k <= m < |brands| && q == Lower(brands[m]);
        if m != k {
          assert k + 1 <= m;
        }
      }
    }
  }

  /** The hit test is the rule of `lookup_medication` read literally: the
      query equals the name, is in the list of lower-cased brands, or is a
      substring of the name. */
  lemma HitsIff(q: string, e: Entry)
    ensures Hits(q, e) <==>
      q == e.name || q in LoweredBrands(e) || exists k :: OccursAt(e.name, q, k)
  {
    BrandFromIff(q, e.brands, 0);
    ContainsIff(e.name, q);
    var bs := LoweredBrands(e);
    if q in bs {
      var m :| 0 <= m < |bs| && bs[m] == q;
      assert q == Lower(e.brands[m]);
    }
  }

  /** The declarative answer of the scan: `r` names the first entry that
      `q` hits, or is `None` when `q` hits none. */
  ghost predicate IsFirstHit(q: string, dir: seq<Entry>, r: Option<nat>) {
    match r
    case Some(i) => i < |dir| && Hits(q, dir[i]) && forall j :: 0 <= j < i ==> !Hits(q, dir[j])
    case None => forall j :: 0 <= j < |dir| ==> !Hits(q, dir[j])
  }

  /** The scan from position `start` on: the first hit at or after `start`. */
  function FindFrom(q: string, dir: seq<Entry>, start: nat): (r: Option<nat>)
    requires start <= |dir|
    ensures r.Some? ==> start <= r.value < |dir| && Hits(q, dir[r.value])
    ensures r.Some? ==> forall j :: start <= j < r.value ==> !Hits(q, dir[j])
    ensures r.None? ==> forall j :: start <= j < |dir| ==> !Hits(q, dir[j])
    decreases |dir| - start
  {
    if start == |dir| then None
    else if Hits(q, dir[start]) then Some(start)
    else FindFrom(q, dir, start + 1)
  }

  /** The position the scan stops at, for an already normalised query. */
  function FirstHit(q: string, dir: seq<Entry>): (r: Option<nat>)
    ensures IsFirstHit(q, dir, r)
  {
    FindFrom(q, dir, 0)
  }

  /** The first-hit answer is unique, so the scan is the only answer. */
  lemma FirstHitUnique(q: string, dir: seq<Entry>, r: Option<nat>)
    requires IsFirstHit(q, dir, r)
    ensures r == FirstHit(q, dir)
  {
  }

  /** `lookup_medication`'s match: the entry the normalised raw query hits
      first in directory order, if any. */
  function Lookup(query: string, dir: seq<Entry>): (r: Option<Entry>)
    ensures r.None? <==> forall j :: 0 <= j < |dir| ==> !Hits(Normalize(query), dir[j])
    ensures r.Some? ==> exists i :: 0 <= i < |dir| && r.value == dir[i] && IsFirstHit(Normalize(query), dir, Some(i))
  {
    match FirstHit(Normalize(query), dir)
    case Some(i) => Some(dir[i])
    case None => None
  }

  /** The canonical-name rule is subsumed by the substring rule: every name
      occurs in itself. */
  lemma NameRuleSubsumed(q: string, e: Entry)
    ensures Hits(q, e) <==> BrandFrom(q, e.brands, 0) || Contains(e.name, q)
  {
    if q == e.name {
      assert OccursAt(e.name, q, 0);
      ContainsIff(e.name, q);
    }
  }

  /** A query made only of whitespace normalises to the empty string, which
      occurs in every name, so it always matches the first entry. */
  lemma BlankQueryMatchesFirst(query: string, dir: seq<Entry>)
    requires |dir| > 0
    requires AllSpace(query)
    ensures Lookup(query, dir) == Some(dir[0])
  {
    LowerOfSpace(query);
    StripOfPadded(query, "", "");
    assert query + "" + "" == query;
    assert Normalize(query) == "";
    assert Hits("", dir[0]);
  }

  /** Lower-casing first and then stripping gives the same key as stripping
      first and then lower-casing. */
  lemma NormalizeStripFirst(query: string)
    ensures Normalize(query) == Lower(Strip(query))
  {
    StripLowerCommute(query);
  }

  /** Case and surrounding whitespace do not matter: a query that lower-cases
      to a trimmed `y`, padded with whitespace, normalises to `y`. */
  lemma NormalizePadded(pre: string, x: string, post: string)
    requires AllSpace(pre) && AllSpace(post)
    requires IsTrimmed(Lower(x))
    ensures Normalize(pre + x + post) == Lower(x)
  {
    LowerAppend(pre + x, post);
    LowerAppend(pre, x);
    LowerOfSpace(pre);
    LowerOfSpace(post);
    StripOfPadded(pre, Lower(x), post);
  }
}
