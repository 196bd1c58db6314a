/**
 * The block page display variant: build() returns a shell carrying only the
 * page cache keys and a deferred buildRegions step; buildRegions places the
 * accessible blocks into their regions and collects the page's cacheability;
 * buildBlock is the deferred step that renders one block.
 */
module PageBlockDisplayVariant {
  import opened Wrappers
  import opened Cache
  import opened Render

  /** The first cache key segment of the page and of every block in it. */
  const DISPLAY_KEY := "page_manager_block_display"

  /** The prefix a context data type needs to be offered as token data. */
  const ENTITY_PREFIX := "entity:"

  // ---------------------------------------------------------------------
  // build()

  /** The render array of the page before any region is built. */
  function Build(v: Variant): (shell: Shell)
    ensures shell.cache.keys == Some([DISPLAY_KEY, v.id])
    ensures shell.cache.tags.None? && shell.cache.contexts.None? && shell.cache.maxAge.None?
    ensures shell.preRender == [BuildRegionsCallback]
  {
    Shell(RenderCache(Some([DISPLAY_KEY, v.id]), None, None, None), [BuildRegionsCallback])
  }

  // ---------------------------------------------------------------------
  // Specification of buildRegions()

  /** The block after the context handler has mapped contexts into it, when it is context aware. */
  function Prepare(env: Env, contexts: seq<Context>, b: Block): Block {
    if b.contextAware then env.applyContextMapping(b, contexts) else b
  }

  /** The cache envelope of a placed block. */
  function BlockCache(v: Variant, id: string, b: Block): RenderCache {
    RenderCache(
      Some([DISPLAY_KEY, v.id, "block", id]),
      Some(v.cacheability.tags + b.cacheability.tags),
      Some(b.cacheability.contexts),
      Some(b.cacheability.maxAge))
  }

  /** The '#contextual_links' of the block's own build, copied when present. */
  function ContextualLinks(b: Block): Option<string> {
    if b.output.Some? then b.output.value.contextualLinks else None
  }

  /** The render array placed for an allowed block at the given weight. */
  function Placeholder(v: Variant, id: string, b: Block, weight: nat): BlockBuild {
    BlockBuild("block", map[], weight, b.configuration, b.pluginId, b.baseId, b.derivativeId,
               Some(b), [BuildBlockCallback], BlockCache(v, id, b), ContextualLinks(b), None)
  }

  /** The blocks of one region that are placed, in order, each weighted by the number placed before it. */
  function Placed(v: Variant, env: Env, bs: seq<BlockEntry>): seq<(string, BlockBuild)>
    decreases |bs|
  {
    if bs == [] then []
    else
      var before := Placed(v, env, bs[..|bs| - 1]);
      var e := bs[|bs| - 1];
      var b := Prepare(env, v.contexts, e.block);
      if b.access.allowed then before + [(e.id, Placeholder(v, e.id, b, |before|))] else before
  }

  /** The opening wrapper markup of a region. */
  function Prefix(env: Env, region: string): string {
    "<div class=\"" + env.htmlClass("block-region-" + region) + "\">"
  }

  /** The render array of a region that has blocks. */
  function RegionEntry(v: Variant, env: Env, a: Assignment): (string, RegionBuild) {
    (a.region, RegionBuild(Prefix(env, a.region), "</div>", Placed(v, env, a.blocks)))
  }

  /** The region render arrays, in assignment order, of the regions that have blocks. */
  function Regions(v: Variant, env: Env, assigns: seq<Assignment>): seq<(string, RegionBuild)>
    decreases |assigns|
  {
    if assigns == [] then []
    else
      var a := assigns[|assigns| - 1];
      Regions(v, env, assigns[..|assigns| - 1]) + (if a.blocks == [] then [] else [RegionEntry(v, env, a)])
  }

  /** What one visited (prepared) block adds to the page: its access metadata, and its own metadata when allowed. */
  function BlockDeps(b: Block): seq<Cacheability> {
    [b.access.cacheability] + (if b.access.allowed then [b.cacheability] else [])
  }

  /** What the blocks of one region add to the page, in visiting order. */
  function RegionDeps(v: Variant, env: Env, bs: seq<BlockEntry>): seq<Cacheability>
    decreases |bs|
  {
    if bs == [] then []
    else RegionDeps(v, env, bs[..|bs| - 1]) + BlockDeps(Prepare(env, v.contexts, bs[|bs| - 1].block))
  }

  /** What all regions add to the page, in visiting order. */
  function PageDeps(v: Variant, env: Env, assigns: seq<Assignment>): seq<Cacheability>
    decreases |assigns|
  {
    if assigns == [] then []
    else PageDeps(v, env, assigns[..|assigns| - 1]) + RegionDeps(v, env, assigns[|assigns| - 1].blocks)
  }

  /** The page accumulator once every region is visited: incoming metadata, then the variant, then the blocks. */
  function RootCacheability(v: Variant, env: Env, shell: Shell): Cacheability {
    Accumulate(FromRenderArray(shell.cache), [v.cacheability] + PageDeps(v, env, v.regionAssignments), env.mergeMaxAges)
  }

  // ---------------------------------------------------------------------
  // getContextAsTokenData()

  /** The token type of an entity data type: the prefix dropped, taxonomy_term renamed to term. */
  function TokenType(dataType: string): string
    requires ENTITY_PREFIX <= dataType
  {
    var t := dataType[|ENTITY_PREFIX|..];
    if t == "taxonomy_term" then "term" else t
  }

  /** The token data of a list of contexts, filled in order. */
  function TokenData(cs: seq<Context>): map<string, string>
    decreases |cs|
  {
    if cs == [] then map[]
    else
      var data := TokenData(cs[..|cs| - 1]);
      var c := cs[|cs| - 1];
      if ENTITY_PREFIX <= c.dataType then data[TokenType(c.dataType) := c.value] else data
  }

  /** getContextAsTokenData: the entity contexts keyed by token type, a later context overriding an earlier one. */
  method GetContextAsTokenData(contexts: seq<Context>) returns (data: map<string, string>)
    ensures data == TokenData(contexts)
  {
    data := map[];
    for i := 0 to |contexts|
      invariant data == TokenData(contexts[..i])
    {
      assert contexts[..i + 1][..i] == contexts[..i];
      var dataType := contexts[i].dataType;
      if ENTITY_PREFIX <= dataType {
        var tokenType := dataType[7..];
        if tokenType == "taxonomy_term" {
          tokenType := "term";
        }
        data := data[tokenType := contexts[i].value];
      }
    }
    assert contexts[..|contexts|] == contexts;
  }

  /** renderPageTitle: the configured title with tokens replaced from the context data. */
  function PageTitle(v: Variant, env: Env): string {
    env.tokenReplace(v.pageTitle, TokenData(v.contexts))
  }

  // ---------------------------------------------------------------------
  // buildRegions()

  /** One more block extends the placed blocks and the region dependencies by that block's part. */
  lemma PlacedStep(v: Variant, env: Env, bs: seq<BlockEntry>, j: nat)
    requires j < |bs|
    ensures var b := Prepare(env, v.contexts, bs[j].block);
      var before := Placed(v, env, bs[..j]);
      && Placed(v, env, bs[..j + 1])
         == before + (if b.access.allowed then [(bs[j].id, Placeholder(v, bs[j].id, b, |before|))] else [])
      && RegionDeps(v, env, bs[..j + 1]) == RegionDeps(v, env, bs[..j]) + BlockDeps(b)
  {
    assert bs[..j + 1][..j] == bs[..j];
  }

  /** Accumulating what one block adds: its access metadata, then its own metadata when allowed. */
  lemma AccumulateBlock(init: Cacheability, seen: seq<Cacheability>, b: Block, mergeMaxAges: MaxAgeMerge)
    ensures var afterAccess := Merge(Accumulate(init, seen, mergeMaxAges), b.access.cacheability, mergeMaxAges);
      Accumulate(init, seen + BlockDeps(b), mergeMaxAges)
        == if b.access.allowed then Merge(afterAccess, b.cacheability, mergeMaxAges) else afterAccess
  {
    AccumulateSnoc(init, seen, b.access.cacheability, mergeMaxAges);
    if b.access.allowed {
      AccumulateSnoc(init, seen + [b.access.cacheability], b.cacheability, mergeMaxAges);
      assert seen + BlockDeps(b) == seen + [b.access.cacheability] + [b.cacheability];
    } else {
      assert seen + BlockDeps(b) == seen + [b.access.cacheability];
    }
  }

  /**
   * The inner loop of buildRegions over one region's blocks: each block's
   * access metadata goes into the accumulator, and an allowed block is placed
   * with the next weight and adds its own metadata too.
   */
  method PlaceBlocks(v: Variant, env: Env, blocks: seq<BlockEntry>, cacheability: CacheableMetadata)
    returns (placed: seq<(string, BlockBuild)>)
    requires cacheability.mergeMaxAges == env.mergeMaxAges
    modifies cacheability
    ensures placed == Placed(v, env, blocks)
    ensures cacheability.Value() == Accumulate(old(cacheability.Value()), RegionDeps(v, env, blocks), env.mergeMaxAges)
  {
    ghost var init := cacheability.Value();
    placed := [];
    var weight := 0;
    for j := 0 to |blocks|
      invariant placed == Placed(v, env, blocks[..j])
      invariant weight == |placed|
      invariant cacheability.Value() == Accumulate(init, RegionDeps(v, env, blocks[..j]), env.mergeMaxAges)
    {
      PlacedStep(v, env, blocks, j);
      ghost var seen := RegionDeps(v, env, blocks[..j]);
      var id := blocks[j].id;
      var block := blocks[j].block;
      if block.contextAware {
        block := env.applyContextMapping(block, v.contexts);
      }
      var access := block.access;
      AccumulateBlock(init, seen, block, env.mergeMaxAges);
      cacheability.AddCacheableDependency(access.cacheability);
      if !access.allowed {
        continue;
      }

      var blockBuild := BlockBuild("block", map[], weight, block.configuration, block.pluginId,
                                   block.baseId, block.derivativeId, Some(block), [BuildBlockCallback],
                                   RenderCache(Some([DISPLAY_KEY, v.id, "block", id]),
                                               Some(v.cacheability.tags + block.cacheability.tags),
                                               Some(block.cacheability.contexts),
                                               Some(block.cacheability.maxAge)),
                                   None, None);
      weight := weight + 1;

      var originalBlockBuild := block.output;
      if originalBlockBuild.Some? && originalBlockBuild.value.contextualLinks.Some? {
        blockBuild := blockBuild.(contextualLinks := originalBlockBuild.value.contextualLinks);
      }
      assert blockBuild == Placeholder(v, id, block, weight - 1);

      cacheability.AddCacheableDependency(block.cacheability);

      placed := placed + [(id, blockBuild)];
    }
    assert blocks[..|blocks|] == blocks;
  }

  /** One more assignment extends the regions and the page dependencies by that assignment's part. */
  lemma PrefixStep(v: Variant, env: Env, assigns: seq<Assignment>, i: nat)
    requires i < |assigns|
    ensures Regions(v, env, assigns[..i + 1])
      == Regions(v, env, assigns[..i]) + (if assigns[i].blocks == [] then [] else [RegionEntry(v, env, assigns[i])])
    ensures [v.cacheability] + PageDeps(v, env, assigns[..i + 1])
      == [v.cacheability] + PageDeps(v, env, assigns[..i]) + RegionDeps(v, env, assigns[i].blocks)
    ensures assigns[i].blocks == [] ==> PageDeps(v, env, assigns[..i + 1]) == PageDeps(v, env, assigns[..i])
  {
    assert assigns[..i + 1][..i] == assigns[..i];
  }

  /** The '#pre_render' step that builds the regions of the page. */
  method BuildRegions(v: Variant, env: Env, shell: Shell) returns (page: Page)
    ensures page.cache == ApplyTo(RootCacheability(v, env, shell), shell.cache)
    ensures page.cache.keys == shell.cache.keys
    ensures page.preRender == shell.preRender
    ensures page.regions == Regions(v, env, v.regionAssignments)
    ensures page.title == PageTitle(v, env)
  {
    var assigns := v.regionAssignments;
    ghost var init := FromRenderArray(shell.cache);
    var cacheability := new CacheableMetadata.CreateFromRenderArray(shell.cache, env.mergeMaxAges);
    cacheability.AddCacheableDependency(v.cacheability);
    AccumulateSnoc(init, [], v.cacheability, env.mergeMaxAges);

    var regions: seq<(string, RegionBuild)> := [];
    for i := 0 to |assigns|
      invariant regions == Regions(v, env, assigns[..i])
      invariant cacheability.Value() == Accumulate(init, [v.cacheability] + PageDeps(v, env, assigns[..i]), env.mergeMaxAges)
    {
      PrefixStep(v, env, assigns, i);
      var region := assigns[i].region;
      var blocks := assigns[i].blocks;
      if blocks == [] {
        continue;
      }
      var prefix := "<div class=\"" + env.htmlClass("block-region-" + region) + "\">";
      var suffix := "</div>";

      ghost var before := [v.cacheability] + PageDeps(v, env, assigns[..i]);
      var placed := PlaceBlocks(v, env, blocks, cacheability);
      AccumulateAppend(init, before, RegionDeps(v, env, blocks), env.mergeMaxAges);
      regions := regions + [(region, RegionBuild(prefix, suffix, placed))];
    }
    assert assigns[..|assigns|] == assigns;

    var data := GetContextAsTokenData(v.contexts);
    var title := env.tokenReplace(v.pageTitle, data);

    page := Page(ApplyTo(cacheability.Value(), shell.cache), shell.preRender, regions, title);
  }

  // ---------------------------------------------------------------------
  // buildBlock()

  /** The '#cache' entry of a block once its content's cacheability is merged in, when the content array is non-empty. */
  function BlockCacheAfter(env: Env, cache: RenderCache, content: Option<Content>): RenderCache {
    if content.Some? && !IsEmptyArray(content.value) then
      ApplyTo(Merge(FromRenderArray(cache), ContentCacheability(content.value), env.mergeMaxAges), cache)
    else cache
  }

  /** The '#pre_render' step that renders one placed block. */
  method BuildBlock(env: Env, build: BlockBuild) returns (result: BlockElement)
    requires build.plugin.Some?
    requires build.plugin.value.output.Some? ==> WellFormedContent(build.plugin.value.output.value)
    ensures var content := build.plugin.value.output;
      && (result.Rendered? <==> content.Some? && !IsEmptyElement(content.value))
      && (result.Rendered? ==>
            result.node == build.(plugin := None, content := content,
                                  cache := BlockCacheAfter(env, build.cache, content)))
      && (result.EmptyMarkup? ==>
            result.markup == "" && result.emptyCache == BlockCacheAfter(env, build.cache, content))
    ensures result.CacheEntry().keys == build.cache.keys
    ensures FromRenderArray(build.cache).tags <= FromRenderArray(result.CacheEntry()).tags
    ensures FromRenderArray(build.cache).contexts <= FromRenderArray(result.CacheEntry()).contexts
    ensures var content := build.plugin.value.output;
      if content.Some? && !IsEmptyArray(content.value) then
        FromRenderArray(result.CacheEntry())
          == Merge(FromRenderArray(build.cache), ContentCacheability(content.value), env.mergeMaxAges)
      else result.CacheEntry() == build.cache
  {
    var content := build.plugin.value.output;
    var b := build.(plugin := None);
    if content.Some? && !IsEmptyElement(content.value) {
      b := b.(content := content);
      result := Rendered(b);
    } else {
      result := EmptyMarkup("", b.cache);
    }
    if content.Some? && !IsEmptyArray(content.value) {
      var merged := Merge(FromRenderArray(result.CacheEntry()), ContentCacheability(content.value), env.mergeMaxAges);
      result := match result
        case Rendered(n) => Rendered(n.(cache := ApplyTo(merged, n.cache)))
        case EmptyMarkup(m, c) => EmptyMarkup(m, ApplyTo(merged, c));
    }
  }

  // ---------------------------------------------------------------------
  // getRegionNames()

  /** The regions the display offers, machine name and label, in order. */
  function GetRegionNames(): (names: seq<(string, string)>)
    ensures |names| == 2 && names[0].0 == "top" && names[1].0 == "bottom"
  {
    [("top", "Top"), ("bottom", "Bottom")]
  }
}
