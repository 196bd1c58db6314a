/**
 * The values a block page display works on: blocks and what their plugin
 * calls return, region assignments, the display variant itself, the
 * external collaborators, and the render arrays it produces.
 */
module Render {
  import opened Wrappers
  import opened Cache

  /** The result of $block->access($account, TRUE): isAllowed() and its cacheability. */
  datatype AccessResult = AccessResult(allowed: bool, cacheability: Cacheability)

  /**
   * A render array returned by a block plugin's build(): its '#cache' entry,
   * its '#contextual_links' entry and all other entries (values abstracted to
   * strings). None in a field means the key is absent. The two named keys
   * live only in their own fields, so a well-formed value never has them in
   * others (WellFormedContent).
   */
  datatype Content = Content(
    cache: Option<RenderCache>,
    contextualLinks: Option<string>,
    others: map<string, string>)

  /** The keys '#cache' and '#contextual_links' are not duplicated among the other entries. */
  predicate WellFormedContent(c: Content) {
    "#cache" !in c.others && "#contextual_links" !in c.others
  }

  /** PHP empty() on the array: it has no entries at all. */
  predicate IsEmptyArray(c: Content) {
    c.cache.None? && c.contextualLinks.None? && c.others == map[]
  }

  /** Element::isEmpty: the array is empty or holds nothing but '#cache'. */
  predicate IsEmptyElement(c: Content) {
    c.contextualLinks.None? && c.others == map[]
  }

  /** The cacheability carried by a content array. */
  function ContentCacheability(c: Content): Cacheability {
    FromRenderArray(c.cache.GetOr(NO_CACHE))
  }

  /**
   * A block plugin. The fields hold what its methods return for the current
   * request: access() for the current account, getCacheTags/Contexts/MaxAge(),
   * and build() (None is NULL).
   */
  datatype Block = Block(
    pluginId: string,
    baseId: string,
    derivativeId: Option<string>,
    configuration: map<string, string>,
    contextAware: bool,
    access: AccessResult,
    cacheability: Cacheability,
    output: Option<Content>)

  /** One entry of a region's block list, keyed by block id. */
  datatype BlockEntry = BlockEntry(id: string, block: Block)

  /** One region and its blocks in assignment order. */
  datatype Assignment = Assignment(region: string, blocks: seq<BlockEntry>)

  /** A context of the variant: its data type name and its (opaque) value. */
  datatype Context = Context(dataType: string, value: string)

  /** The state of a block display variant that build and buildRegions read. */
  datatype Variant = Variant(
    id: string,
    cacheability: Cacheability,
    pageTitle: string,
    contexts: seq<Context>,
    regionAssignments: seq<Assignment>)

  /**
   * The collaborators the display calls and whose code is not modelled:
   * Html::getClass, the context handler's applyContextMapping, the token
   * service's replace, and Cache::mergeMaxAges.
   */
  datatype Env = Env(
    htmlClass: string -> string,
    applyContextMapping: (Block, seq<Context>) -> Block,
    tokenReplace: (string, map<string, string>) -> string,
    mergeMaxAges: MaxAgeMerge)

  /** A '#pre_render' callback of the display. */
  datatype Callback = BuildRegionsCallback | BuildBlockCallback

  /** The render array of one placed block. */
  datatype BlockBuild = BlockBuild(
    theme: string,
    attributes: map<string, string>,
    weight: int,
    configuration: map<string, string>,
    pluginId: string,
    baseId: string,
    derivativeId: Option<string>,
    plugin: Option<Block>,
    preRender: seq<Callback>,
    cache: RenderCache,
    contextualLinks: Option<string>,
    content: Option<Content>)

  /** The render array of one region: its wrapper markup and its placed blocks in order. */
  datatype RegionBuild = RegionBuild(prefix: string, suffix: string, blocks: seq<(string, BlockBuild)>)

  /** The page render array returned by build(), before buildRegions runs. */
  datatype Shell = Shell(cache: RenderCache, preRender: seq<Callback>)

  /** The page render array returned by buildRegions. */
  datatype Page = Page(cache: RenderCache, preRender: seq<Callback>, regions: seq<(string, RegionBuild)>, title: string)

  /** What buildBlock returns: the block with its content, or the empty-markup stand-in. */
  datatype BlockElement =
    | Rendered(node: BlockBuild)
    | EmptyMarkup(markup: string, emptyCache: RenderCache)
  {
    /** The '#cache' entry of the element, whichever form it has. */
    function CacheEntry(): RenderCache {
      match this
      case Rendered(n) => n.cache
      case EmptyMarkup(_, c) => c
    }
  }
}
