/**
 * Properties of the block page display: which blocks are placed and with
 * which weights and cache envelopes, which regions appear, what the page's
 * cacheability is made of, and what the token data holds.
 */
module DisplayVariantLemmas {
  import opened Wrappers
  import opened Cache
  import opened Render
  import opened PageBlockDisplayVariant

  // ---------------------------------------------------------------------
  // Placement within one region

  /**
   * Reference definition: the blocks of a region whose (context-mapped)
   * access result is allowed, in assignment order.
   */
  function Allowed(v: Variant, env: Env, bs: seq<BlockEntry>): seq<BlockEntry>
    decreases |bs|
  {
    if bs == [] then []
    else
      var b := Prepare(env, v.contexts, bs[0].block);
      (if b.access.allowed then [BlockEntry(bs[0].id, b)] else []) + Allowed(v, env, bs[1..])
  }

  lemma {:induction false} AllowedSnoc(v: Variant, env: Env, bs: seq<BlockEntry>)
    requires bs != []
    ensures var b := Prepare(env, v.contexts, bs[|bs| - 1].block);
      Allowed(v, env, bs) == Allowed(v, env, bs[..|bs| - 1]) + (if b.access.allowed then [BlockEntry(bs[|bs| - 1].id, b)] else [])
    decreases |bs|
  {
    if |bs| > 1 {
      AllowedSnoc(v, env, bs[1..]);
      assert bs[1..][..|bs[1..]| - 1] == bs[..|bs| - 1][1..];
    }
  }

  /** Every allowed block comes from the region's list, context-mapped. */
  lemma {:induction false} AllowedFrom(v: Variant, env: Env, bs: seq<BlockEntry>)
    ensures forall k :: 0 <= k < |Allowed(v, env, bs)| ==>
      exists j :: 0 <= j < |bs| && Allowed(v, env, bs)[k] == BlockEntry(bs[j].id, Prepare(env, v.contexts, bs[j].block))
    decreases |bs|
  {
    if bs != [] {
      AllowedFrom(v, env, bs[1..]);
      var head := Prepare(env, v.contexts, bs[0].block);
      var first := if head.access.allowed then [BlockEntry(bs[0].id, head)] else [];
      var a := Allowed(v, env, bs);
      var rest := Allowed(v, env, bs[1..]);
      assert a == first + rest;
      forall k | 0 <= k < |a|
        ensures exists j :: 0 <= j < |bs| && a[k] == BlockEntry(bs[j].id, Prepare(env, v.contexts, bs[j].block))
      {
        if k < |first| {
          assert a[k] == BlockEntry(bs[0].id, Prepare(env, v.contexts, bs[0].block));
        } else {
          assert a[k] == rest[k - |first|];
          var j :| 0 <= j < |bs[1..]| && rest[k - |first|] == BlockEntry(bs[1..][j].id, Prepare(env, v.contexts, bs[1..][j].block));
          assert bs[1..][j] == bs[j + 1];
        }
      }
    } else {
      assert Allowed(v, env, bs) == [];
    }
  }

  /** Every block kept is one whose access is allowed. */
  lemma {:induction false} AllowedAreAllowed(v: Variant, env: Env, bs: seq<BlockEntry>)
    ensures forall k :: 0 <= k < |Allowed(v, env, bs)| ==> Allowed(v, env, bs)[k].block.access.allowed
    decreases |bs|
  {
    if bs != [] {
      AllowedAreAllowed(v, env, bs[1..]);
      var head := Prepare(env, v.contexts, bs[0].block);
      var first := if head.access.allowed then [BlockEntry(bs[0].id, head)] else [];
      assert Allowed(v, env, bs) == first + Allowed(v, env, bs[1..]);
    } else {
      assert Allowed(v, env, bs) == [];
    }
  }

  /** Every block whose access is allowed is kept. */
  lemma {:induction false} AllowedContains(v: Variant, env: Env, bs: seq<BlockEntry>)
    ensures forall j :: 0 <= j < |bs| && Prepare(env, v.contexts, bs[j].block).access.allowed ==>
      BlockEntry(bs[j].id, Prepare(env, v.contexts, bs[j].block)) in Allowed(v, env, bs)
    decreases |bs|
  {
    if bs != [] {
      AllowedContains(v, env, bs[1..]);
      forall j | 0 <= j < |bs| && Prepare(env, v.contexts, bs[j].block).access.allowed
        ensures BlockEntry(bs[j].id, Prepare(env, v.contexts, bs[j].block)) in Allowed(v, env, bs)
      {
        if j > 0 {
          assert bs[1..][j - 1] == bs[j];
        }
      }
    }
  }

  /**
   * Placement within a region: the placed blocks are the allowed blocks in
   * order, the k-th placed block has weight k (0, 1, 2, ... with no gap, a
   * denied block taking no weight), its cache keys are the display key, the
   * variant id, "block" and its block id, its tags are the variant's and the
   * block's, and its contexts and max-age are the block's own.
   */
  lemma {:induction false} PlacedExact(v: Variant, env: Env, bs: seq<BlockEntry>)
    ensures |Placed(v, env, bs)| == |Allowed(v, env, bs)|
    ensures forall k :: 0 <= k < |Placed(v, env, bs)| ==>
      var e := Allowed(v, env, bs)[k];
      var p := Placed(v, env, bs)[k];
      && p.0 == e.id
      && p.1 == Placeholder(v, e.id, e.block, k)
      && p.1.weight == k
      && p.1.plugin == Some(e.block)
      && p.1.preRender == [BuildBlockCallback]
      && p.1.cache.keys == Some([DISPLAY_KEY, v.id, "block", e.id])
      && p.1.cache.tags == Some(v.cacheability.tags + e.block.cacheability.tags)
      && p.1.cache.contexts == Some(e.block.cacheability.contexts)
      && p.1.cache.maxAge == Some(e.block.cacheability.maxAge)
    decreases |bs|
  {
    if bs != [] {
      var front := bs[..|bs| - 1];
      PlacedExact(v, env, front);
      AllowedSnoc(v, env, bs);
    }
  }

  /** A denied block gets no entry among the placed blocks of its region (block ids being the keys of an array). */
  lemma DeniedNotPlaced(v: Variant, env: Env, bs: seq<BlockEntry>, j: nat)
    requires j < |bs|
    requires forall a, b :: 0 <= a < b < |bs| ==> bs[a].id != bs[b].id
    requires !Prepare(env, v.contexts, bs[j].block).access.allowed
    ensures forall k :: 0 <= k < |Placed(v, env, bs)| ==> Placed(v, env, bs)[k].0 != bs[j].id
  {
    PlacedExact(v, env, bs);
    AllowedFrom(v, env, bs);
    AllowedAreAllowed(v, env, bs);
    forall k | 0 <= k < |Placed(v, env, bs)|
      ensures Placed(v, env, bs)[k].0 != bs[j].id
    {
      var e := Allowed(v, env, bs)[k];
      var i :| 0 <= i < |bs| && e == BlockEntry(bs[i].id, Prepare(env, v.contexts, bs[i].block));
      assert e.block.access.allowed;
      assert i != j;
    }
  }

  /** Every allowed block is placed, under its own id. */
  lemma AllowedPlaced(v: Variant, env: Env, bs: seq<BlockEntry>, j: nat)
    requires j < |bs|
    requires Prepare(env, v.contexts, bs[j].block).access.allowed
    ensures exists k ::
              && 0 <= k < |Placed(v, env, bs)|
              && Placed(v, env, bs)[k].0 == bs[j].id
              && Placed(v, env, bs)[k].1.plugin == Some(Prepare(env, v.contexts, bs[j].block))
  {
    PlacedExact(v, env, bs);
    AllowedContains(v, env, bs);
    var e := BlockEntry(bs[j].id, Prepare(env, v.contexts, bs[j].block));
    var k :| 0 <= k < |Allowed(v, env, bs)| && Allowed(v, env, bs)[k] == e;
    assert Placed(v, env, bs)[k].0 == bs[j].id;
  }

  // ---------------------------------------------------------------------
  // Regions

  /** Every region entry of the output comes from an assignment that has blocks. */
  lemma {:induction false} RegionsFromNonEmpty(v: Variant, env: Env, assigns: seq<Assignment>)
    ensures forall k :: 0 <= k < |Regions(v, env, assigns)| ==>
      exists i :: 0 <= i < |assigns| && assigns[i].blocks != [] && Regions(v, env, assigns)[k] == RegionEntry(v, env, assigns[i])
    decreases |assigns|
  {
    if assigns != [] {
      var front := assigns[..|assigns| - 1];
      RegionsFromNonEmpty(v, env, front);
      var r := Regions(v, env, assigns);
      var last := assigns[|assigns| - 1];
      assert r == Regions(v, env, front) + (if last.blocks == [] then [] else [RegionEntry(v, env, last)]);
      forall k | 0 <= k < |r|
        ensures exists i :: 0 <= i < |assigns| && assigns[i].blocks != [] && r[k] == RegionEntry(v, env, assigns[i])
      {
        if k < |Regions(v, env, front)| {
          var i :| 0 <= i < |front| && front[i].blocks != [] && Regions(v, env, front)[k] == RegionEntry(v, env, front[i]);
          assert assigns[i] == front[i] && r[k] == Regions(v, env, front)[k];
        } else {
          assert last.blocks != [] && r[k] == RegionEntry(v, env, last);
        }
      }
    } else {
      assert Regions(v, env, assigns) == [];
    }
  }

  /** Every assignment that has blocks yields its region entry: wrapper markup and placed blocks. */
  lemma {:induction false} NonEmptyRegionPresent(v: Variant, env: Env, assigns: seq<Assignment>, i: nat)
    requires i < |assigns| && assigns[i].blocks != []
    ensures exists k :: 0 <= k < |Regions(v, env, assigns)| && Regions(v, env, assigns)[k] == RegionEntry(v, env, assigns[i])
    decreases |assigns|
  {
    var front := assigns[..|assigns| - 1];
    if i < |front| {
      NonEmptyRegionPresent(v, env, front, i);
      var k :| 0 <= k < |Regions(v, env, front)| && Regions(v, env, front)[k] == RegionEntry(v, env, front[i]);
      assert Regions(v, env, assigns)[k] == Regions(v, env, front)[k];
    } else {
      assert Regions(v, env, assigns)[|Regions(v, env, front)|] == RegionEntry(v, env, assigns[i]);
    }
  }

  /**
   * A region whose block list is empty leaves no trace in the output: no
   * entry under its name, so no prefix, suffix or children (region names
   * being the keys of an array).
   */
  lemma EmptyRegionAbsent(v: Variant, env: Env, assigns: seq<Assignment>, i: nat)
    requires i < |assigns| && assigns[i].blocks == []
    requires forall a, b :: 0 <= a < b < |assigns| ==> assigns[a].region != assigns[b].region
    ensures forall k :: 0 <= k < |Regions(v, env, assigns)| ==> Regions(v, env, assigns)[k].0 != assigns[i].region
  {
    RegionsFromNonEmpty(v, env, assigns);
  }

  /**
   * Every region in the output is wrapped in a div whose class is derived
   * from the region name, and its blocks carry weights 0, 1, 2, ... counted
   * afresh in that region.
   */
  lemma RegionShape(v: Variant, env: Env, assigns: seq<Assignment>, k: nat)
    requires k < |Regions(v, env, assigns)|
    ensures var (name, r) := Regions(v, env, assigns)[k];
      && r.prefix == "<div class=\"" + env.htmlClass("block-region-" + name) + "\">"
      && r.suffix == "</div>"
      && forall n :: 0 <= n < |r.blocks| ==> r.blocks[n].1.weight == n
  {
    RegionsFromNonEmpty(v, env, assigns);
    var i :| 0 <= i < |assigns| && assigns[i].blocks != [] && Regions(v, env, assigns)[k] == RegionEntry(v, env, assigns[i]);
    PlacedExact(v, env, assigns[i].blocks);
  }

  // ---------------------------------------------------------------------
  // Build() and the keys of the blocks

  /**
   * Each placed block's cache keys extend the page keys set by build() with
   * "block" and the block id, so two blocks of the page with different ids
   * never share a cache entry, and none shares the page's.
   */
  lemma BlockKeysExtendPageKeys(v: Variant, env: Env, bs: seq<BlockEntry>, k: nat, k': nat)
    requires k < |Placed(v, env, bs)| && k' < |Placed(v, env, bs)|
    ensures Placed(v, env, bs)[k].1.cache.keys == Some(Build(v).cache.keys.value + ["block", Placed(v, env, bs)[k].0])
    ensures Placed(v, env, bs)[k].1.cache.keys != Build(v).cache.keys
    ensures Placed(v, env, bs)[k].0 != Placed(v, env, bs)[k'].0 ==>
      Placed(v, env, bs)[k].1.cache.keys != Placed(v, env, bs)[k'].1.cache.keys
  {
    PlacedExact(v, env, bs);
    var id := Placed(v, env, bs)[k].0;
    assert Build(v).cache.keys.value + ["block", id] == [DISPLAY_KEY, v.id, "block", id];
    var keys := Placed(v, env, bs)[k].1.cache.keys.value;
    var keys' := Placed(v, env, bs)[k'].1.cache.keys.value;
    assert keys[3] == Placed(v, env, bs)[k].0 && keys'[3] == Placed(v, env, bs)[k'].0;
  }

  // ---------------------------------------------------------------------
  // The page's cacheability

  /** What a visited block contributes to the page: its access metadata always, its own metadata only when allowed. */
  predicate Contributes(b: Block, f: Facet, t: string) {
    t in Labels(b.access.cacheability, f) || (b.access.allowed && t in Labels(b.cacheability, f))
  }

  /** What one block adds carries t exactly when the block contributes t. */
  lemma BlockDepsLabels(b: Block, f: Facet, t: string)
    ensures SomeLabels(BlockDeps(b), f, t) <==> Contributes(b, f, t)
  {
    var d := BlockDeps(b);
    assert d[0] == b.access.cacheability;
    if b.access.allowed {
      assert d[1] == b.cacheability;
    }
  }

  lemma {:induction false} RegionDepsLabels(v: Variant, env: Env, bs: seq<BlockEntry>, f: Facet, t: string)
    ensures SomeLabels(RegionDeps(v, env, bs), f, t)
      <==> exists j :: 0 <= j < |bs| && Contributes(Prepare(env, v.contexts, bs[j].block), f, t)
    decreases |bs|
  {
    if bs != [] {
      var front := bs[..|bs| - 1];
      var last := Prepare(env, v.contexts, bs[|bs| - 1].block);
      RegionDepsLabels(v, env, front, f, t);
      SomeLabelsConcat(RegionDeps(v, env, front), BlockDeps(last), f, t);
      BlockDepsLabels(last, f, t);
      if exists j :: 0 <= j < |front| && Contributes(Prepare(env, v.contexts, front[j].block), f, t) {
        var j :| 0 <= j < |front| && Contributes(Prepare(env, v.contexts, front[j].block), f, t);
        assert front[j] == bs[j];
      }
      if exists j :: 0 <= j < |bs| && Contributes(Prepare(env, v.contexts, bs[j].block), f, t) {
        var j :| 0 <= j < |bs| && Contributes(Prepare(env, v.contexts, bs[j].block), f, t);
        if j < |front| {
          assert front[j] == bs[j];
        }
      }
    } else {
      assert RegionDeps(v, env, bs) == [];
    }
  }

  /** Some block of the assignment contributes the tag (or context) to the page. */
  predicate RegionContributes(v: Variant, env: Env, a: Assignment, f: Facet, t: string) {
    exists j :: 0 <= j < |a.blocks| && Contributes(Prepare(env, v.contexts, a.blocks[j].block), f, t)
  }

  lemma {:induction false} PageDepsLabels(v: Variant, env: Env, assigns: seq<Assignment>, f: Facet, t: string)
    ensures SomeLabels(PageDeps(v, env, assigns), f, t)
      <==> exists i :: 0 <= i < |assigns| && RegionContributes(v, env, assigns[i], f, t)
    decreases |assigns|
  {
    if assigns != [] {
      var front := assigns[..|assigns| - 1];
      var last := assigns[|assigns| - 1];
      PageDepsLabels(v, env, front, f, t);
      RegionDepsLabels(v, env, last.blocks, f, t);
      SomeLabelsConcat(PageDeps(v, env, front), RegionDeps(v, env, last.blocks), f, t);
      if exists i :: 0 <= i < |front| && RegionContributes(v, env, front[i], f, t) {
        var i :| 0 <= i < |front| && RegionContributes(v, env, front[i], f, t);
        assert front[i] == assigns[i];
      }
      if exists i :: 0 <= i < |assigns| && RegionContributes(v, env, assigns[i], f, t) {
        var i :| 0 <= i < |assigns| && RegionContributes(v, env, assigns[i], f, t);
        if i < |front| {
          assert front[i] == assigns[i];
        }
      }
    } else {
      assert PageDeps(v, env, assigns) == [];
    }
  }

  /**
   * The tags (and contexts) of the page after buildRegions are exactly those
   * of the incoming render array, of the variant, of every visited block's
   * access result, and of every placed block's own metadata. A denied block's
   * own tags and contexts reach the page only if some other source has them.
   */
  lemma RootLabels(v: Variant, env: Env, shell: Shell, f: Facet, t: string)
    ensures t in Labels(RootCacheability(v, env, shell), f) <==>
      || t in Labels(FromRenderArray(shell.cache), f)
      || t in Labels(v.cacheability, f)
      || exists i :: 0 <= i < |v.regionAssignments| && RegionContributes(v, env, v.regionAssignments[i], f, t)
  {
    var pd := PageDeps(v, env, v.regionAssignments);
    AccumulateLabels(FromRenderArray(shell.cache), [v.cacheability] + pd, env.mergeMaxAges, f, t);
    SomeLabelsConcat([v.cacheability], pd, f, t);
    PageDepsLabels(v, env, v.regionAssignments, f, t);
    assert SomeLabels([v.cacheability], f, t) <==> t in Labels(v.cacheability, f) by {
      if t in Labels(v.cacheability, f) {
        assert [v.cacheability][0] == v.cacheability;
      }
    }
  }

  /**
   * The page from build() followed by buildRegions keeps exactly the keys of
   * build() and gains the tags of the variant.
   */
  lemma ShellThenRegions(v: Variant, env: Env)
    ensures ApplyTo(RootCacheability(v, env, Build(v)), Build(v).cache).keys == Some([DISPLAY_KEY, v.id])
    ensures v.cacheability.tags <= RootCacheability(v, env, Build(v)).tags
    ensures v.cacheability.contexts <= RootCacheability(v, env, Build(v)).contexts
  {
    forall t | t in v.cacheability.tags ensures t in RootCacheability(v, env, Build(v)).tags {
      RootLabels(v, env, Build(v), Tags, t);
    }
    forall t | t in v.cacheability.contexts ensures t in RootCacheability(v, env, Build(v)).contexts {
      RootLabels(v, env, Build(v), Contexts, t);
    }
  }

  // ---------------------------------------------------------------------
  // Token data

  /** A token type is present exactly when some context of an entity data type maps to it. */
  lemma {:induction false} TokenDataKeys(cs: seq<Context>, key: string)
    ensures key in TokenData(cs) <==>
      exists i :: 0 <= i < |cs| && ENTITY_PREFIX <= cs[i].dataType && TokenType(cs[i].dataType) == key
    decreases |cs|
  {
    if cs != [] {
      var front := cs[..|cs| - 1];
      TokenDataKeys(front, key);
      if exists i :: 0 <= i < |front| && ENTITY_PREFIX <= front[i].dataType && TokenType(front[i].dataType) == key {
        var i :| 0 <= i < |front| && ENTITY_PREFIX <= front[i].dataType && TokenType(front[i].dataType) == key;
        assert cs[i] == front[i];
      }
      if exists i :: 0 <= i < |cs| && ENTITY_PREFIX <= cs[i].dataType && TokenType(cs[i].dataType) == key {
        var i :| 0 <= i < |cs| && ENTITY_PREFIX <= cs[i].dataType && TokenType(cs[i].dataType) == key;
        if i < |front| {
          assert front[i] == cs[i];
        }
      }
    }
  }

  /** The value under a token type is that of the last context mapping to it. */
  lemma {:induction false} TokenDataLastWins(cs: seq<Context>, i: nat)
    requires i < |cs| && ENTITY_PREFIX <= cs[i].dataType
    requires forall j :: i < j < |cs| && ENTITY_PREFIX <= cs[j].dataType ==> TokenType(cs[j].dataType) != TokenType(cs[i].dataType)
    ensures TokenType(cs[i].dataType) in TokenData(cs)
    ensures TokenData(cs)[TokenType(cs[i].dataType)] == cs[i].value
    decreases |cs|
  {
    var front := cs[..|cs| - 1];
    if i < |front| {
      assert front[i] == cs[i];
      forall j | i < j < |front| && ENTITY_PREFIX <= front[j].dataType
        ensures TokenType(front[j].dataType) != TokenType(front[i].dataType)
      {
        assert front[j] == cs[j];
      }
      TokenDataLastWins(front, i);
    }
  }

  /** A token type is the data type with the entity prefix dropped, taxonomy_term renamed to term. */
  lemma TokenTypeRule(s: string)
    ensures TokenType(ENTITY_PREFIX + s) == (if s == "taxonomy_term" then "term" else s)
    ensures TokenType(ENTITY_PREFIX + s) == "term" <==> s == "taxonomy_term" || s == "term"
  {
    assert (ENTITY_PREFIX + s)[|ENTITY_PREFIX|..] == s;
  }
}
