/**
 * Cacheability metadata as the display variant uses it: the '#cache' entry of
 * a render array, the bubbleable tags/contexts/max-age value, the merge of
 * two such values and the mutable accumulator (Drupal core's
 * CacheableMetadata) that collects dependencies one at a time.
 *
 * Tags and contexts are sets merged by union. How two max-ages combine is a
 * parameter of type MaxAgeMerge; the model never assumes anything about it.
 */
module Cache {
  import opened Wrappers

  /** Drupal core's Cache::PERMANENT: the max-age read when '#cache' has none. */
  const PERMANENT: int := -1

  /** The bubbleable part of cacheability: invalidation tags, varying contexts, max-age. */
  datatype Cacheability = Cacheability(tags: set<string>, contexts: set<string>, maxAge: int)

  /** The '#cache' entry of a render array; every property may be absent. */
  datatype RenderCache = RenderCache(
    keys: Option<seq<string>>,
    tags: Option<set<string>>,
    contexts: Option<set<string>>,
    maxAge: Option<int>)

  /** A '#cache' entry with nothing set. */
  const NO_CACHE := RenderCache(None, None, None, None)

  /** The combination rule of two max-ages (Cache::mergeMaxAges), left abstract. */
  type MaxAgeMerge = (int, int) -> int

  /** Selects one of the two set-valued parts of a Cacheability. */
  datatype Facet = Tags | Contexts

  function Labels(c: Cacheability, f: Facet): set<string> {
    match f
    case Tags => c.tags
    case Contexts => c.contexts
  }

  /** CacheableMetadata::merge: union of tags and contexts, max-ages combined. */
  function Merge(a: Cacheability, b: Cacheability, mergeMaxAges: MaxAgeMerge): Cacheability {
    Cacheability(a.tags + b.tags, a.contexts + b.contexts, mergeMaxAges(a.maxAge, b.maxAge))
  }

  /** CacheableMetadata::createFromRenderArray: absent tags and contexts read as empty, absent max-age as PERMANENT. */
  function FromRenderArray(c: RenderCache): Cacheability {
    Cacheability(c.tags.GetOr({}), c.contexts.GetOr({}), c.maxAge.GetOr(PERMANENT))
  }

  /** CacheableMetadata::applyTo: overwrites tags, contexts and max-age; keys are left alone. */
  function ApplyTo(m: Cacheability, c: RenderCache): RenderCache {
    c.(tags := Some(m.tags), contexts := Some(m.contexts), maxAge := Some(m.maxAge))
  }

  /** Applying metadata and reading it back yields the same metadata, and keys survive. */
  lemma ApplyToRoundTrip(m: Cacheability, c: RenderCache)
    ensures FromRenderArray(ApplyTo(m, c)) == m
    ensures ApplyTo(m, c).keys == c.keys
    ensures ApplyTo(m, ApplyTo(m, c)) == ApplyTo(m, c)
  {
  }

  /** The value of an accumulator started at init after adding deps in order. */
  function Accumulate(init: Cacheability, deps: seq<Cacheability>, mergeMaxAges: MaxAgeMerge): Cacheability
    decreases |deps|
  {
    if deps == [] then init
    else Merge(Accumulate(init, deps[..|deps| - 1], mergeMaxAges), deps[|deps| - 1], mergeMaxAges)
  }

  /** Adding one more dependency is one more merge. */
  lemma AccumulateSnoc(init: Cacheability, deps: seq<Cacheability>, d: Cacheability, mergeMaxAges: MaxAgeMerge)
    ensures Accumulate(init, deps + [d], mergeMaxAges) == Merge(Accumulate(init, deps, mergeMaxAges), d, mergeMaxAges)
  {
  }

  /** Accumulating two lists one after the other is accumulating their concatenation. */
  lemma {:induction false} AccumulateAppend(init: Cacheability, a: seq<Cacheability>, b: seq<Cacheability>, mergeMaxAges: MaxAgeMerge)
    ensures Accumulate(init, a + b, mergeMaxAges) == Accumulate(Accumulate(init, a, mergeMaxAges), b, mergeMaxAges)
    decreases |b|
  {
    if b == [] {
      assert a + b == a;
    } else {
      var front := b[..|b| - 1];
      assert (a + b)[..|a + b| - 1] == a + front;
      AccumulateAppend(init, a, front, mergeMaxAges);
    }
  }

  /** Some dependency of the list carries the tag (or context) t. */
  predicate SomeLabels(deps: seq<Cacheability>, f: Facet, t: string) {
    exists k :: 0 <= k < |deps| && t in Labels(deps[k], f)
  }

  /** A tag is carried by a concatenation exactly when one of the two parts carries it. */
  lemma SomeLabelsConcat(a: seq<Cacheability>, b: seq<Cacheability>, f: Facet, t: string)
    ensures SomeLabels(a + b, f, t) <==> SomeLabels(a, f, t) || SomeLabels(b, f, t)
  {
    if SomeLabels(a + b, f, t) {
      var k :| 0 <= k < |a + b| && t in Labels((a + b)[k], f);
      if k >= |a| {
        assert b[k - |a|] == (a + b)[k];
      } else {
        assert a[k] == (a + b)[k];
      }
    }
    if SomeLabels(a, f, t) {
      var k :| 0 <= k < |a| && t in Labels(a[k], f);
      assert (a + b)[k] == a[k];
    }
    if SomeLabels(b, f, t) {
      var k :| 0 <= k < |b| && t in Labels(b[k], f);
      assert (a + b)[|a| + k] == b[k];
    }
  }

  /**
   * A tag (or context) is in the accumulated value exactly when it is in the
   * initial value or in one of the added dependencies.
   */
  lemma {:induction false} AccumulateLabels(init: Cacheability, deps: seq<Cacheability>, mergeMaxAges: MaxAgeMerge, f: Facet, t: string)
    ensures t in Labels(Accumulate(init, deps, mergeMaxAges), f) <==> t in Labels(init, f) || SomeLabels(deps, f, t)
    decreases |deps|
  {
    if deps != [] {
      var front := deps[..|deps| - 1];
      var last := deps[|deps| - 1];
      AccumulateLabels(init, front, mergeMaxAges, f, t);
      assert deps == front + [last];
      SomeLabelsConcat(front, [last], f, t);
      assert SomeLabels([last], f, t) <==> t in Labels(last, f) by {
        if t in Labels(last, f) {
          assert [last][0] == last;
        }
      }
    }
  }

  /**
   * The accumulator of CacheableMetadata: addCacheableDependency merges a
   * dependency into it in place.
   */
  class CacheableMetadata {
    var tags: set<string>
    var contexts: set<string>
    var maxAge: int
    const mergeMaxAges: MaxAgeMerge

    /** The metadata held so far. */
    function Value(): Cacheability
      reads this
    {
      Cacheability(tags, contexts, maxAge)
    }

    /** CacheableMetadata::createFromRenderArray. */
    constructor CreateFromRenderArray(c: RenderCache, mergeMaxAges: MaxAgeMerge)
      ensures Value() == FromRenderArray(c)
      ensures this.mergeMaxAges == mergeMaxAges
    {
      tags := c.tags.GetOr({});
      contexts := c.contexts.GetOr({});
      maxAge := c.maxAge.GetOr(PERMANENT);
      this.mergeMaxAges := mergeMaxAges;
    }

    /** CacheableMetadata::addCacheableDependency for a cacheable dependency. */
    method AddCacheableDependency(d: Cacheability)
      modifies this
      ensures Value() == Merge(old(Value()), d, mergeMaxAges)
    {
      tags := tags + d.tags;
      contexts := contexts + d.contexts;
      maxAge := mergeMaxAges(maxAge, d.maxAge);
    }
  }
}
