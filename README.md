# Block page display variant of Page Manager, modelled in Dafny

This project models the "block page" display variant of Drupal's Page Manager
module: the class `PageBlockDisplayVariant`. It covers how the variant puts a
page together from blocks, and how it works out when that page may be served
from cache.

- `build()` returns a cheap shell. The shell carries only the page's cache keys
  and one deferred `#pre_render` step, `buildRegions`.
- `buildRegions()` walks the region assignments in order and skips regions
  with no blocks. It wraps every other region in a `<div>`. It runs each
  block's access check and always merges the access result's cacheability into
  the page accumulator. Denied blocks are dropped. Each allowed block is placed
  under its block id with the next weight of its region and its own cache
  envelope, and that block's cacheability goes into the accumulator too.
  Finally it sets the page title and applies the accumulator to the page.
- `buildBlock()` is the deferred step for one block. It removes the plugin
  reference and keeps non-empty content. Empty or NULL content is replaced by
  empty markup that keeps the block's cache envelope. The content's
  cacheability is merged back whenever the content array is not empty.
- `getContextAsTokenData()` turns the variant's contexts into token data.
  `getRegionNames()` lists the two regions.

Files:

- `wrappers.dfy`: `Option`.
- `cache.dfy` (module `Cache`): cacheability values, the `#cache` entry of a
  render array, merge, `createFromRenderArray`/`applyTo`, the fold
  `Accumulate`, and the accumulator class `CacheableMetadata`, a class because
  `addCacheableDependency` updates it in place.
- `render.dfy` (module `Render`): blocks, access results, content arrays,
  region assignments, the variant's state, the collaborators (`Env`) and the
  render arrays that are produced.
- `display_variant.dfy` (module `PageBlockDisplayVariant`): the operations.
  `BuildRegions`, `PlaceBlocks` (its inner loop), `BuildBlock` and
  `GetContextAsTokenData` are methods, because the source builds its arrays
  step by step. Each method is proved equal to a specification function
  (`Regions`, `Placed`, `RootCacheability`, `TokenData`, `BlockCacheAfter`).
- `display_variant_lemmas.dfy` (module `DisplayVariantLemmas`): the properties
  of those specification functions.

Collaborators whose code is not part of this model are parameters (`Env`):
`Html::getClass`, the context handler's `applyContextMapping`, the token
service's `replace`, and the max-age combination `Cache::mergeMaxAges`. What a
block plugin's methods return for the current request (`access`, `build`,
`getCacheTags`/`getCacheContexts`/`getCacheMaxAge`, configuration and plugin
ids) is stored as fields of the `Block` value.

Behaviour of the code worth noting, which the model follows:

- The page cache keys are `page_manager_block_display` and the variant id.
- Blocks are not sorted by weight. Their order is the order of the region
  assignment.
- A placed block's tags are the variant's tags plus the block's own tags. The
  content's tags are merged only later, in `buildBlock`.
- "Empty content" is `Element::isEmpty`: the array is empty, or it holds only
  `#cache`. It is not "no markup and no non-empty children".

## Model

| member | source | states |
|---|---|---|
| `PageBlockDisplayVariant.Build` | modules/contrib/page_manager/src/Plugin/DisplayVariant/PageBlockDisplayVariant.php:31-38 | The shell's cache keys are exactly `['page_manager_block_display', id]`. It has no tags, contexts or max-age. Its only `#pre_render` step is `buildRegions`. |
| `PageBlockDisplayVariant.BuildRegions` | modules/contrib/page_manager/src/Plugin/DisplayVariant/PageBlockDisplayVariant.php:44-112 | The returned page keeps the incoming keys and `#pre_render`. Its regions are `Regions` of the assignments. Its title is the token-replaced page title. Its tags, contexts and max-age are the accumulator folded over the incoming metadata, the variant, and then every block's access metadata and every allowed block's own metadata, in visiting order. |
| `PageBlockDisplayVariant.PlaceBlocks` | modules/contrib/page_manager/src/Plugin/DisplayVariant/PageBlockDisplayVariant.php:59-104 | The inner loop over one region yields `Placed` of its blocks. It advances the accumulator by exactly `RegionDeps`: the access metadata of each block, then the block's own metadata if access is allowed. |
| `PageBlockDisplayVariant.BuildBlock` | modules/contrib/page_manager/src/Plugin/DisplayVariant/PageBlockDisplayVariant.php:120-146 | The plugin reference is always removed. The result holds the content if and only if the content is neither NULL nor `Element::isEmpty`. Otherwise it is exactly empty markup with the original `#cache`. The content's cacheability is merged into that `#cache` if and only if the content array is non-empty. Exactly then, the result's metadata is the block's `#cache` metadata merged with the content's; otherwise the result's `#cache` is the block's unchanged. Cache keys never change, and tags and contexts only grow. Content is taken to be well formed: `#cache` and `#contextual_links` appear only as such. |
| `PageBlockDisplayVariant.GetContextAsTokenData` | modules/contrib/page_manager/src/Plugin/DisplayVariant/PageBlockDisplayVariant.php:218-232 | The loop's result is the token data `TokenData` of the contexts. |
| `PageBlockDisplayVariant.GetRegionNames` | modules/contrib/page_manager/src/Plugin/DisplayVariant/PageBlockDisplayVariant.php:237-242 | The regions are `top` then `bottom`. |
| `DisplayVariantLemmas.PlacedExact` | modules/contrib/page_manager/src/Plugin/DisplayVariant/PageBlockDisplayVariant.php:59-89 | The placed blocks of a region are the allowed blocks in assignment order. The k-th one has weight k, so weights run 0, 1, 2, … with no gap and denied blocks take none. Its keys are `['page_manager_block_display', id, 'block', block_id]`. Its tags are the variant's tags plus the block's. Its contexts and max-age are the block's own. It keeps the plugin and the `buildBlock` pre-render step. |
| `DisplayVariantLemmas.DeniedNotPlaced` | modules/contrib/page_manager/src/Plugin/DisplayVariant/PageBlockDisplayVariant.php:64-68 | A block whose access is not allowed has no entry under its block id in its region. |
| `DisplayVariantLemmas.AllowedPlaced` | modules/contrib/page_manager/src/Plugin/DisplayVariant/PageBlockDisplayVariant.php:64-103 | Every block whose access is allowed is placed under its block id, with its context-mapped plugin. |
| `DisplayVariantLemmas.RegionsFromNonEmpty` | modules/contrib/page_manager/src/Plugin/DisplayVariant/PageBlockDisplayVariant.php:49-56 | Every region in the output comes from an assignment that has at least one block. |
| `DisplayVariantLemmas.NonEmptyRegionPresent` | modules/contrib/page_manager/src/Plugin/DisplayVariant/PageBlockDisplayVariant.php:49-56 | Every assignment with at least one block has its region entry in the output, even when all its blocks are denied. |
| `DisplayVariantLemmas.EmptyRegionAbsent` | modules/contrib/page_manager/src/Plugin/DisplayVariant/PageBlockDisplayVariant.php:49-52 | A region whose block list is empty has no entry in the output, so no prefix, suffix or children. |
| `DisplayVariantLemmas.RegionShape` | modules/contrib/page_manager/src/Plugin/DisplayVariant/PageBlockDisplayVariant.php:54-59 | Each output region has the prefix `<div class="` + getClass(`block-region-` + name) + `">` and the suffix `</div>`. Its block weights restart at 0 and run 0, 1, 2, … |
| `DisplayVariantLemmas.BlockKeysExtendPageKeys` | modules/contrib/page_manager/src/Plugin/DisplayVariant/PageBlockDisplayVariant.php:33-36 | A placed block's keys are the page keys from `build()` followed by `block` and the block id. They never equal the page's keys. Blocks with different ids get different keys. |
| `DisplayVariantLemmas.RootLabels` | modules/contrib/page_manager/src/Plugin/DisplayVariant/PageBlockDisplayVariant.php:45-109 | A tag (or context) is on the page after `buildRegions` if and only if it comes from the incoming render array, from the variant, from some visited block's access result, or from some allowed block's own metadata. A denied block's own metadata is not a source. |
| `DisplayVariantLemmas.ShellThenRegions` | modules/contrib/page_manager/src/Plugin/DisplayVariant/PageBlockDisplayVariant.php:109 | Running `buildRegions` on the shell from `build()` keeps exactly the keys of `build()`. The page gains the variant's tags and contexts. |
| `DisplayVariantLemmas.TokenDataKeys` | modules/contrib/page_manager/src/Plugin/DisplayVariant/PageBlockDisplayVariant.php:223-228 | A token type is present if and only if some context's data type starts with `entity:` and maps to it: the first 7 characters are dropped and `taxonomy_term` is renamed to `term`. |
| `DisplayVariantLemmas.TokenDataLastWins` | modules/contrib/page_manager/src/Plugin/DisplayVariant/PageBlockDisplayVariant.php:220-229 | When several contexts map to one token type, the value is that of the last one. |
| `DisplayVariantLemmas.TokenTypeRule` | modules/contrib/page_manager/src/Plugin/DisplayVariant/PageBlockDisplayVariant.php:224-227 | For every suffix `s`, the data type `entity:` + `s` has token type `s`, except `taxonomy_term`, which becomes `term`. So the token type `term` comes from exactly `entity:taxonomy_term` and `entity:term`. |
| `Cache.AccumulateLabels` | modules/contrib/page_manager/src/Plugin/DisplayVariant/PageBlockDisplayVariant.php:65 | After a sequence of `addCacheableDependency` calls, a tag (or context) is in the accumulator if and only if it was there at the start or some added dependency has it. |
| `Cache.ApplyToRoundTrip` | modules/contrib/page_manager/src/Plugin/DisplayVariant/PageBlockDisplayVariant.php:109 | Reading back metadata applied to a render array gives that metadata. The keys are untouched. Applying the same metadata twice is the same as applying it once. |
| `Cache.CacheableMetadata.CreateFromRenderArray` | modules/contrib/page_manager/src/Plugin/DisplayVariant/PageBlockDisplayVariant.php:45 | The accumulator starts from the render array's `#cache`. Absent tags and contexts count as empty, and an absent max-age counts as permanent. |
| `Cache.CacheableMetadata.AddCacheableDependency` | modules/contrib/page_manager/src/Plugin/DisplayVariant/PageBlockDisplayVariant.php:46 | The accumulator becomes its old value merged with the dependency: tags and contexts by union, max-ages by the combiner. |

## Left out

- `buildConfigurationForm`, `submitConfigurationForm` and `defaultConfiguration`: form and configuration glue with no bearing on rendering or caching.
- `renderPageTitle`: the token service is a parameter (`Env.tokenReplace`). The model only fixes what it is given: the configured title and the token data.
- Max-age rule: `Cache::mergeMaxAges` is a parameter, so nothing about max-age is proved beyond being the exact fold of that parameter. `PERMANENT` is used only as the value read when `#cache` has no max-age.
- Tag order: `Cache::mergeTags` sorts its result and removes duplicates. Tags and contexts are sets here, so their order is not modelled.
- `Html::getClass`: a parameter (`Env.htmlClass`), so its sanitisation is not modelled.
- `getRegionAssignments`: the parent class's method is not part of this model. Assignments are a given ordered sequence, and weight sorting is not modelled.
- Uniqueness of keys: region names and block ids are keys of PHP arrays, so they are unique. The lemmas that look entries up by name take that uniqueness as a precondition, and the output sequences keep insertion order.
- Other array keys: the incoming render array of `buildRegions` is taken to hold only `#cache` and `#pre_render`, as `build()` makes it. Regions are kept apart from `#` properties, so a region name equal to a property key is not modelled.
- `applyContextMapping`: an opaque function applied to context-aware blocks before their access check. The eager `$block->build()` of the "temporary fix" is modelled only as copying `#contextual_links` when present. `build()` is taken to return the same array both times it is called.
- The current account: each block's access result for that account is a field of the block.
- The render pipeline that runs `#pre_render` callbacks, and the cache store: framework I/O.
- Errors raised by collaborators (access checks, block builds): these abort the page in the source and are not modelled.
- `TokenType`: `substr('entity:', 7)` is taken to be the empty string, as in PHP 7. It returns FALSE in PHP 5.
- `BuildBlock`: a content array is taken to be well formed (`WellFormedContent`): the keys `#cache` and `#contextual_links` are held only in their own fields, never among the other entries, as a PHP array cannot hold a key twice.
