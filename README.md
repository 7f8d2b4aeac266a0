# Custom Facet Search — a verified model of the filter pipeline

This project models the core of the Custom Facet Search WordPress plugin in
Dafny. The core is the path from the filter parameters in a request to the
constraints placed on a WordPress query, together with the renderers, shortcodes,
AJAX endpoints and browser scripts that must agree with that path:

- **Php** (`php.dfy`): the PHP and JavaScript primitives the plugin relies
  on: `str_replace` of a needle, ordered PHP arrays (`seq` of key/value pairs
  where assigning an existing key keeps its place), `String.prototype.trim`,
  and the `Host` record of functions supplied by WordPress and PHP that the
  model leaves uninterpreted (`sanitize_text_field`, `sanitize_title`,
  `floatval`, `intval`, `is_numeric`, float-to-string, `parse_str` and the
  `cfs_should_filter_query` filter).
- **QueryFilters** (`query_filters.dfy`): `CFS_Query::get_active_filters`,
  the grammar of `cfs_` parameters (range bounds, date bounds, plain values,
  with PCRE's `$` matching before a final newline), and `get_meta_type`.
- **QueryHook** (`query_hook.dfy`): the `pre_get_posts` hook
  `CFS_Query::modify_query`. It decides whether a query is filtered, turns
  each active filter into a tax clause, a meta clause or a post-attribute query
  variable, and merges the clauses into the query with `array_merge` and
  `relation => AND`. `wpdb::esc_like` is defined exactly.
- **QueryUrls** (`query_urls.dfy`): `build_filter_url`,
  `get_active_filter_summary` and `get_remove_filter_url`, with the round trip
  from built parameters back to active filters.
- **Facets** (`facets.dfy`): `CFS_Facets`: the per-request slug cache, the
  current values read back from the URL, the choices listed for a facet, and
  each facet type's decision about which options are pre-checked, pre-selected
  or pre-filled.
- **Shortcodes** (`shortcodes.dfy`): the attribute handling of
  `[cfs_facet]`, `[cfs_results]` and `[cfs_active_filters]`, and the
  page-number window of the pagination.
- **Ajax** (`ajax.dfy`): `CFS_Ajax`: the filter request (defaults, posted
  filter string merged over the query parameters, response), load more, facet
  counts and both pagination modes.
- **Admin** (`admin.dfy`): `CFS_Admin`: the settings sanitiser, saving and
  deleting facets in the facets table, and the lists offered in the facet form.
- **Frontend** (`frontend.dfy`): the search-page controller in `frontend.js`:
  gathering control state into filters, rewriting the URL, detecting result
  grids, choosing the target grid and the results container, and the
  single-request `isLoading` guard.
- **AdminScript** (`admin_script.dfy`): the facet editor script in
  `admin.js`: slug generation, the panels shown per type and source, the
  submitted source key, and the reaction to a save.

Code that updates state in place is modelled imperatively:
- WP_Query's variables are the `WpQuery` class.
- The facet slug cache is the `FacetRegistry` class.
- The facets table is the `FacetTable` class.
- The browser controllers are the `Controller` and `AdminForm` classes.
- The AJAX request's `$_GET` is the `AjaxRequest` class.

Every loop that builds a filter, a query, a URL, a response or a table is a
method proved equal to a specification function. The renderers' loops over
choices only build markup; they are modelled as functions (`CheckboxBody`,
`RadioBody`, `DropdownBody`, `RatingItems`). The lemmas beside each function
prove what the plugin promises about it.

Database queries, `WP_Query` execution and the DOM are not modelled. They
appear as inputs: the facet rows, term and meta rows, found-post counts, and
uninterpreted DOM lookups (`Frontend.Dom`). PHP fatal errors, such as the
`TypeError` thrown by `count(null)` or `array_map` over a string, are an
explicit `Fatal` outcome, as PHP 8 raises them.

## Model

Some specification functions have no contract of their own and so no row:
`QueryHook.ShouldFilter`, `QueryHook.Hooked`, `QueryHook.Filtered`,
`Facets.Choices`, `Admin.SettingsFor`, `AdminScript.GenerateSlug`,
`Frontend.Gather`, `Frontend.UpdatedQuery`, `Frontend.GuardStep` and
`Frontend.Replay`. Each is stated by the rows of the method proved equal to
it (`RunHook`, `FilterQuery`, `GetChoices`, `GatherFilters`, `UpdateUrl`,
`AdminForm.OnNameBlur`) and of the lemmas about it (`SettingsKeysByType`,
`SlugCharset`, `SlugBeforeTrim`, `SlugIdempotent`, `UpdatedQueryShape`,
`AtMostOneInFlight` and the `Gather*` lemmas).

| member | source | states |
|---|---|---|
| Php.Put | includes/class-cfs-query.php:292-295 | Assigning `$filters[$slug]` sets that key's value. Every other key keeps its value and every existing key keeps its position. A new key is appended. Keys stay unique. |
| Php.RemoveAllFixedIff | includes/class-cfs-query.php:289 | `str_replace('cfs_', '', key)` leaves a string unchanged exactly when `cfs_` does not occur in it. |
| Php.RemoveAllShrinks | includes/class-cfs-query.php:289 | Whenever `cfs_` occurs, the replacement makes the string strictly shorter. |
| Php.RemoveAllLeading | includes/class-cfs-query.php:289 | Removing a leading `cfs_` gives the same result as removing all occurrences in the rest. |
| Php.SanitizedList | includes/class-cfs-query.php:290 | A scalar value becomes a one-element list and an array is sanitised element by element, with length and order kept. |
| Php.Trim | assets/js/admin.js:236 | The result is a contiguous slice of the input. Everything cut away is whitespace, and the result neither starts nor ends with whitespace. |
| QueryFilters.DollarBody | includes/class-cfs-query.php:253 | PCRE `$` matches at the end of the key or just before a final newline, so the matched body is the key or the key minus that newline. |
| QueryFilters.BoundMatchIff | includes/class-cfs-query.php:253-254 | A key matches `/^cfs_(.+)_<suffix>$/` with captured slug `s` if and only if `s` is non-empty, has no newline, and the key is `cfs_s_<suffix>`, optionally followed by one newline. |
| QueryFilters.BoundShape | includes/class-cfs-query.php:253-271 | A matching key starts with `cfs_` and its body ends in `_<suffix>`. |
| QueryFilters.BoundsExclusive | includes/class-cfs-query.php:253-271 | No key is both a `_max` and a `_min` bound, or both a date bound and a range bound, or both `_to` and `_from`, so the branch order in the loop never hides a match. |
| QueryFilters.RangeKeyIff | includes/class-cfs-query.php:253-268 | A key is classified as the min or max bound of slug `s` exactly when it is `cfs_s_min` or `cfs_s_max` (optionally followed by a newline) and `s` is non-empty with no newline. |
| QueryFilters.DateKeyIff | includes/class-cfs-query.php:271-286 | The same if-and-only-if for the `_from` and `_to` date bounds. |
| QueryFilters.PlainSlugIff | includes/class-cfs-query.php:289 | The parameter `cfs_<slug>` yields back `slug` exactly when `cfs_` does not occur inside the slug. |
| QueryFilters.PlainSlugNotRescanned | includes/class-cfs-query.php:289 | `str_replace` does not rescan its output, so `cfs_cfcfs_s_x` yields the slug `cfs_x`. |
| QueryFilters.EntryFor | includes/class-cfs-query.php:257-295 | The entry written for a parameter keeps the slug of an entry already stored under that slug, and otherwise carries the parameter's own slug. |
| QueryFilters.Step | includes/class-cfs-query.php:241-296 | One loop iteration. Ignored keys and empty values change nothing. Otherwise only the parameter's slug changes, slugs stay unique, and a new slug is appended at the end. |
| QueryFilters.StepEntry | includes/class-cfs-query.php:253-295 | After an iteration the slug's entry exists. A range bound sets `min` or `max` and keeps the other bound, the tag and the values. A date bound does the same for `from` and `to`. A plain parameter replaces the entry with its sanitised values. |
| QueryFilters.ReadParam | includes/class-cfs-query.php:241-296 | The imperative loop body produces exactly one `Step`. |
| QueryFilters.GetActiveFilters | includes/class-cfs-query.php:238-299 | The loop over `$_GET` produces the active filters in first-seen slug order (`array_values`). |
| QueryFilters.ParseWellKeyed | includes/class-cfs-query.php:238-298 | The filters array has unique keys and every entry is stored under its own slug. |
| QueryFilters.ActiveFiltersDistinct | includes/class-cfs-query.php:238-298 | No two active filters share a slug. |
| QueryFilters.ParseOnlyCfsKeys | includes/class-cfs-query.php:243-245 | Parameters not starting with `cfs_` have no influence on the result. |
| QueryFilters.ParsePlainValues | includes/class-cfs-query.php:238-298 | A slug's filter holds the sanitised values of the last non-empty plain parameter for it; bounds read later keep them. |
| QueryFilters.ParseSlugsFromKeys | includes/class-cfs-query.php:238-298 | Every active slug comes from some `cfs_` parameter that classifies to that slug. |
| QueryFilters.GetMetaType | includes/class-cfs-query.php:304-335 | `numeric`, `decimal` and `text` map to NUMERIC, DECIMAL and CHAR. Otherwise the type is DECIMAL exactly when all values are numeric and one contains a dot, NUMERIC exactly when all are numeric and none does, and CHAR in every other case. |
| QueryHook.EscLikeRoundTrip | includes/class-cfs-query.php:131 | `esc_like` can be undone, so the search text is recovered exactly, and it leaves no unescaped `%` or `_` wildcard. |
| QueryHook.SetNamed | includes/class-cfs-query.php:201 | Assigning `['relation']` never changes the numbered clauses. On an array of numbered clauses it appends the named entry. |
| QueryHook.ArrayMergeItems | includes/class-cfs-query.php:203 | `array_merge` with an array of numbered entries appends them after the first array. |
| QueryHook.ArrayMerge | includes/class-cfs-query.php:203 | The merged array holds the numbered entries of both arrays. |
| QueryHook.MergeDuplicatesExisting | includes/class-cfs-query.php:91-203 | Because the collected array starts as a copy of the query's clauses, every existing numbered clause appears twice after the merge. |
| QueryHook.MergeShapeAllItems | includes/class-cfs-query.php:199-203 | For numbered clauses the merge result is the existing clauses, then the existing clauses again, then the added clauses, then `relation => AND`. |
| QueryHook.MergeOverCopy | includes/class-cfs-query.php:199-216 | Merging a non-empty collected array that extends the existing numbered clauses gives the existing clauses, then the collected ones, then `relation => AND`. An empty collection leaves the array alone. |
| QueryHook.FilteredClauses | includes/class-cfs-query.php:91-223 | After a successful hook on numbered clauses, the collected meta and tax arrays extend the originals with only meta and tax clauses respectively. Each query array becomes the original, then the collected array, then `relation => AND`, and stays unchanged when nothing was collected. |
| QueryHook.MetaClauseFor | includes/class-cfs-query.php:112-174 | The clause built for a custom-field facet. A search facet gives a LIKE on the escaped text, with no meta type. A range gives a NUMERIC BETWEEN of the two bounds (null when missing). A date gives BETWEEN of exactly the two ends when both are set and `=` otherwise. A rating gives NUMERIC `>=`. Other types give `=` for one value and otherwise `IN` over the filter's values in order, with the inferred meta type. A non-special type without values is fatal (`count(null)`). |
| QueryHook.ApplyFilter | includes/class-cfs-query.php:94-196 | One filter on the accumulator. An unknown facet or source changes nothing. A taxonomy facet appends one tax clause. A custom field appends its meta clause. `post_author` sets `author__in`. `post_date` with a start sets the inclusive date window. The step is fatal exactly when the clause builder crashes, and clauses are only ever appended. |
| QueryHook.ApplyOne | includes/class-cfs-query.php:95-196 | The imperative loop body computes exactly `ApplyFilter`. |
| QueryHook.Collect | includes/class-cfs-query.php:94-197 | The loop is fatal exactly when some filter with a known facet crashes, and a successful run only appends clauses. |
| QueryHook.CollectClauses | includes/class-cfs-query.php:94-197 | The imperative loop over the active filters computes `Collect`, and also the accumulator as it stood when a filter crashed (`CollectUntilCrash`). |
| QueryHook.CollectUntilCrash | includes/class-cfs-query.php:94-197 | The accumulator left by the first loop: the full result when no filter crashes, otherwise what the filters before the crashing one collected. |
| QueryHook.UntilCrashSticky | includes/class-cfs-query.php:94-197 | Once a prefix of the filters crashes, the filters after it change nothing. |
| QueryHook.UntilCrashKeepsVars | includes/class-cfs-query.php:180-191 | Only post-attribute facets set `author__in` and `date_query`: without one, a crash leaves both as they were. |
| QueryHook.CrashState | includes/class-cfs-query.php:160-191 | The variables after a fatal error: meta query, tax query and search as before, `author__in` and `date_query` as the loop set them before the crash. |
| QueryHook.CrashStateUnchanged | includes/class-cfs-query.php:180-191 | When no active filter is on a post-attribute facet, a crash leaves every variable unchanged. |
| QueryHook.SearchOverride | includes/class-cfs-query.php:226-232 | The search variable changes only if some filter's facet is a post-attribute search facet, and is left alone otherwise. |
| QueryHook.SearchLastWins | includes/class-cfs-query.php:226-232 | When a filter's facet is a search facet on a post attribute and no later filter's is, `s` is that filter's first value, or null when it has none. |
| QueryHook.ApplySearch | includes/class-cfs-query.php:226-232 | The second loop computes `SearchOverride`. By `SearchLastWins`, the last search facet decides `s`. |
| QueryHook.SearchStep | includes/class-cfs-query.php:229-230 | A search facet sets `s` to its first value, or to null when it has none. Any other facet leaves `s` alone. |
| QueryHook.NoCfsParamsNoChange | includes/class-cfs-query.php:39-83 | A request without `cfs_` parameters leaves every query variable unchanged. |
| QueryHook.FindCfsParam | includes/class-cfs-query.php:40-46 | The scan finds a `cfs_` parameter exactly when one exists. |
| QueryHook.RunHook | includes/class-cfs-query.php:35-232 | Running the hook computes `Hooked`: admin requests are left alone, the should-filter decision is applied, an empty filter list makes no change, and otherwise the filters are applied. On a fatal error it also returns the variables as the crash leaves them (`CrashState`). |
| QueryHook.FilterQuery | includes/class-cfs-query.php:94-232 | The two loops and the merges compute `Filtered`, and on a fatal error the variables as the crash leaves them. |
| QueryHook.WpQuery.ModifyQuery | includes/class-cfs-query.php:31-233 | The query object's new variables are the hook's result. On a fatal error the meta query, tax query and search are unchanged, but `author__in` and `date_query` keep what the loop set before the crash (`CrashState`). |
| QueryUrls.FilterUrl | includes/class-cfs-query.php:387-390 | The URL keeps the given base's path, or the permalink's path when no base is given. |
| QueryUrls.BuildFilterUrl | includes/class-cfs-query.php:387-408 | The imperative builder computes `FilterUrl`. |
| QueryUrls.AddFilterParams | includes/class-cfs-query.php:394-404 | One filter adds `cfs_<slug>`, or the pair `_min`/`_max`, each by `add_query_arg` assignment. |
| QueryUrls.BuildThenParse | includes/class-cfs-query.php:394-405 | For distinct parseable slugs and non-empty values, parsing the built parameters gives back exactly the filters that were built: the same slugs, order, values and bounds. |
| QueryUrls.ParamsForClassify | includes/class-cfs-query.php:396-403 | Every parameter built for a slug is read back as belonging to that slug. |
| QueryUrls.BuildParamsKeys | includes/class-cfs-query.php:394-405 | Every built parameter name belongs to one of the filters passed in. |
| QueryUrls.StepMinFresh | includes/class-cfs-query.php:253-266 | A `_min` bound for a new slug appends a range entry holding only `min`. |
| QueryUrls.StepMaxExisting | includes/class-cfs-query.php:253-266 | A `_max` bound for a slug that already has an entry only sets `max`, in place. |
| QueryUrls.WithoutNames | includes/class-cfs-query.php:459 | Removing the names keeps exactly the parameters whose names are not listed. |
| QueryUrls.RemovedSlugGone | includes/class-cfs-query.php:450-462 | When all of a slug's parameters use the five standard names, the slug is no longer active after the removal. |
| QueryUrls.RenderedMatchesParse | includes/class-cfs-facets.php:155-171 | When `cfs_<slug>` is the only plain parameter for the slug and is non-empty, the facet's current values are the filter's values: a checkbox or dropdown choice is checked exactly when the query filters on its value, a radio choice exactly when it is the first value. |
| QueryUrls.AliasFiltersUnchecked | includes/class-cfs-facets.php:165-168 | `cfs_cfs_x` filters the query on `x`, yet the facet `x` has no current values and checks nothing. |
| QueryUrls.RemoveMissesAlias | includes/class-cfs-query.php:450-462 | `cfs_cfs_x` activates slug `x`, but removing `x` does not remove it. |
| QueryUrls.SummaryItemFor | includes/class-cfs-query.php:419-441 | A summary item carries the slug, the facet's label (or its name), the five remove names, the values joined by `, ` or the range text with prefix and suffix. It is fatal exactly when a non-range facet has no values. |
| QueryUrls.Summary | includes/class-cfs-query.php:413-445 | One item per filter with a known facet, all with known facets, and fatal exactly when some item breaks. |
| QueryUrls.DateRangeSummaryFatal | includes/class-cfs-query.php:270-281 | A filter made by a date bound has no values, so with a date facet the summary is fatal. |
| QueryUrls.SummaryIsMap | includes/class-cfs-query.php:413-445 | A successful summary is, in filter order, the `SummaryItemFor` entry of each filter whose facet exists (`KnownFilters`). |
| QueryUrls.ActiveFilterSummary | includes/class-cfs-query.php:413-445 | The loop computes `Summary` of the active filters. |
| Facets.FindRow | includes/class-cfs-facets.php:50-53 | The row found has the requested slug. No row is found only when no row has it. |
| Facets.RowsBySlugAgrees | includes/class-cfs-facets.php:33-36 | With unique slugs, the cached map agrees with a direct lookup. |
| Facets.FacetRegistry.CacheFacets | includes/class-cfs-facets.php:27-37 | Every row is added to the cache by slug, and the cache stays consistent with the table. |
| Facets.FacetRegistry.GetFacet | includes/class-cfs-facets.php:42-61 | Returns the row with that slug. The cache gains only the looked-up row, and only on a miss. |
| Facets.CurrentValues | includes/class-cfs-facets.php:155-171 | A range facet reads `_min` and `_max` exactly when they are present. Other facets read the sanitised `cfs_<slug>` list, or nothing when it is absent. |
| Facets.CountsOf | includes/class-cfs-facets.php:250-252 | The counts map has a key exactly for each counted value. |
| Facets.TermChoices | includes/class-cfs-facets.php:195-201 | One choice per term, in order: slug, name and count. |
| Facets.ListTerms | includes/class-cfs-facets.php:195-201 | The loop computes `TermChoices`. |
| Facets.AuthorChoices | includes/class-cfs-facets.php:269-277 | One choice per author, in order: id, display name and post count. |
| Facets.ListAuthors | includes/class-cfs-facets.php:269-277 | The loop computes `AuthorChoices`. |
| Facets.FieldChoices | includes/class-cfs-facets.php:255-266 | Field choices are exactly the non-falsy meta values, captioned by themselves, with their count when known. |
| Facets.FieldChoicesInOrder | includes/class-cfs-facets.php:255-266 | The field choices are one per non-empty meta value, in query order, each with that value as value and caption and with its count. |
| Facets.ListFieldValues | includes/class-cfs-facets.php:255-266 | The loop computes `FieldChoices`. |
| Facets.CountRows | includes/class-cfs-facets.php:250-252 | The loop computes `CountsOf`. |
| Facets.GetChoices | includes/class-cfs-facets.php:176-282 | The dispatch over source and key computes `Choices`. |
| Facets.ShownCount | includes/class-cfs-facets.php:309-311 | A count is shown exactly when `show_count` is on and a count exists. |
| Facets.CheckboxBody | includes/class-cfs-facets.php:287-316 | No choices renders the empty message. Otherwise there is one box per choice, all named `cfs_<slug>[]`, each checked exactly when its value is current. |
| Facets.RadioBody | includes/class-cfs-facets.php:321-352 | One radio per choice, checked exactly when its value equals the first current value. "All" is checked when there is no current value or it is falsy. |
| Facets.DropdownBody | includes/class-cfs-facets.php:357-381 | A multiple select is named `cfs_<slug>[]` and has no placeholder. A single select has a placeholder. An option is selected exactly when its value is current. |
| Facets.RangeBody | includes/class-cfs-facets.php:386-454 | Bounds default to 0, 100 and 1. The handles start at the current bounds, or at the limits when absent. Reset is disabled exactly at the limits. The inputs are read-only exactly when disabled in the settings. |
| Facets.SearchBody | includes/class-cfs-facets.php:459-475 | The box is filled with the first current value, and the clear button is hidden exactly when that value is falsy. |
| Facets.DateBody | includes/class-cfs-facets.php:480-510 | A range date facet renders `_from` and `_to` inputs filled from the first two values of `cfs_<slug>`. Otherwise one input is filled with the first value. |
| Facets.RatingItems | includes/class-cfs-facets.php:515-541 | Five down to one stars, each checked exactly when it equals the current rating. |
| Facets.RatingBody | includes/class-cfs-facets.php:515-541 | Five ratings from 5 down to 1. A rating is checked exactly when it equals `intval` of the current value. "Any" is checked when there is no rating or it is 0. |
| Facets.DataAttributes | includes/class-cfs-facets.php:98-111 | The facet, type and source attributes come first. Target grid, post type and page size appear exactly when non-empty. |
| Facets.View | includes/class-cfs-facets.php:113-117 | The label is shown exactly when requested and a non-empty label is configured. The attributes are the data attributes. |
| Facets.Render | includes/class-cfs-facets.php:66-150 | Nothing is rendered for an unknown slug. Otherwise the view of the row is built from its choices (for list types) and the current URL. |
| Facets.DateRangeDropsItsOwnParameters | includes/class-cfs-facets.php:480-498 | A range date facet reads `cfs_<slug>` rather than the `_from`/`_to` parameters it emits, so after a reload both inputs are empty. |
| Frontend.Selected | assets/js/frontend.js:465-475 | The facets used for a grid are exactly those targeting it or targeting nothing. With no grid id all facets are used. |
| Frontend.ControlsOf | assets/js/frontend.js:477-541 | Every control gathered belongs to one of the selected facets. |
| Frontend.ApplyEffect | assets/js/frontend.js:486-541 | One non-checkbox control sets its own names to its current value, or leaves them alone when it is empty. |
| Frontend.PassUntouched | assets/js/frontend.js:478-541 | A pass over one control kind leaves names not written by that kind unchanged. |
| Frontend.PassLastWriter | assets/js/frontend.js:478-541 | In a radio, select, search, range or date pass, the last control that writes a name decides its value. |
| Frontend.PassCheckboxes | assets/js/frontend.js:478-541 | The checkbox pass collects the checked values of a name in document order, and sets nothing when none is checked. |
| Frontend.ApplyPass | assets/js/frontend.js:478-541 | The jQuery `each` loop computes one pass. |
| Frontend.GatherFilters | assets/js/frontend.js:460-544 | The six passes over the selected facets compute `Gather`. |
| Frontend.GatherLastWriterWins | assets/js/frontend.js:486-541 | For a name written by one non-checkbox kind, the gathered value is the last effective write among the selected facets. |
| Frontend.GatherCheckboxes | assets/js/frontend.js:478-484 | For a checkbox name, the gathered value is the list of checked values, or absent when none is checked. |
| Frontend.GatherRangeBothOrNeither | assets/js/frontend.js:514-532 | A range slider contributes both bounds when either handle moved off its limit, and neither otherwise. |
| Frontend.GatherOnlySelected | assets/js/frontend.js:464-475 | Every gathered name comes from a control of a facet targeting the grid. |
| Frontend.GatherUnique | assets/js/frontend.js:460-544 | The gathered filter object has no repeated name. |
| Frontend.NonCfs | assets/js/frontend.js:551-558 | Exactly the parameters not starting with `cfs_` are kept. |
| Frontend.WithoutNames | assets/js/frontend.js:558 | Deleting names keeps exactly the parameters with other names. |
| Frontend.WithoutCfsNames | assets/js/frontend.js:551-558 | Deleting the collected names removes exactly the `cfs_` parameters. |
| Frontend.CollectCfsNames | assets/js/frontend.js:552-557 | The collected names are exactly those starting with `cfs_`. |
| Frontend.DeleteNames | assets/js/frontend.js:558 | The deletion loop removes exactly the listed names. |
| Frontend.AddAll | assets/js/frontend.js:561-568 | The loop adds each filter: `append` per array item, `set` otherwise. |
| Frontend.SetAbsent | assets/js/frontend.js:566 | `set` of a name not present appends it. |
| Frontend.UpdateUrl | assets/js/frontend.js:546-568 | The rewritten query computes `UpdatedQuery`. |
| Frontend.UpdatedQueryShape | assets/js/frontend.js:546-568 | With `cfs_` filter names, the new query is the old non-`cfs_` parameters followed by each filter's parameters in order, so no stale `cfs_` parameter survives. |
| Frontend.OverwriteTakesLast | assets/js/frontend.js:42-48 | Registering result wrappers lets the last wrapper with an id win. |
| Frontend.FirstWinsTakesFirst | assets/js/frontend.js:51-92 | A builder grid registers an id only if it is not taken, and the first candidate with that id wins. |
| Frontend.FirstWinsKeeps | assets/js/frontend.js:51-92 | Later detection steps never replace an already registered grid. |
| Frontend.DetectGridsFirstWins | assets/js/frontend.js:38-95 | Grids registered by an earlier step survive every later step, and the plugin's own wrappers take precedence. |
| Frontend.Controller.DetectGrids | assets/js/frontend.js:38-95 | The grid registry becomes exactly the detected map, and the loading flag is untouched. |
| Frontend.Controller.RegisterWrappers | assets/js/frontend.js:42-48 | Each wrapper is assigned by id, overwriting earlier entries. |
| Frontend.Controller.RegisterElementor | assets/js/frontend.js:51-63 | Elementor loops are registered when their id is free. |
| Frontend.Controller.RegisterBricks | assets/js/frontend.js:66-72 | Bricks loops are registered when their id is free. |
| Frontend.Controller.RegisterSelector | assets/js/frontend.js:84-92 | Common builder selectors are registered when their id is free. |
| Frontend.FirstHit | assets/js/frontend.js:100-146 | The search throws exactly when some lookup throws and every lookup before it ran and found nothing. Otherwise the result is the first non-empty lookup, or the default when all lookups found nothing. |
| Frontend.TargetGridOrder | assets/js/frontend.js:100-146 | With no `target-grid` the default wrapper is used. Otherwise the lookup order is the registry, then the four selector lookups, then the CSS attempt, then the default. The first non-empty result wins. The four selector lookups are unguarded, so an invalid selector among them throws; only the CSS attempt's exception is caught. |
| Frontend.First | assets/js/frontend.js:145 | `.first()` keeps only the first element, if any. |
| Frontend.ResultsContainer | assets/js/frontend.js:719-723 | A container is found exactly when the wrapper is non-empty. |
| Frontend.ResultsContainerPriority | assets/js/frontend.js:719-760 | The first selector in priority order with a match gives the container. With no match, the class-based fallback is used. |
| Frontend.FindResultsContainer | assets/js/frontend.js:719-760 | The loop over the selectors computes `ResultsContainer`. |
| Frontend.AtMostOneInFlight | assets/js/frontend.js:354-358 | Under the `isLoading` guard, at most one request is in flight at any point of an event sequence, and the flag says whether one is. |
| Frontend.Controller.BeginFilter | assets/js/frontend.js:348-396 | A filter call is refused while loading or when there is no wrapper. Otherwise it sets the flag and sends the request built from the wrapper and the gathered filters. |
| Frontend.Controller.BeginLoadMore | assets/js/frontend.js:583-612 | Load more is refused while loading, and otherwise sends the filters gathered for its grid. |
| Frontend.Controller.Complete | assets/js/frontend.js:453-456 | Completion clears the loading flag. |
| Frontend.LoadMoreNext | assets/js/frontend.js:618-622 | The button advances to `page + 1` exactly when more results remain, and is removed otherwise. |
| Frontend.SplitSort | assets/js/frontend.js:371-372 | Order-by is a dash-free prefix of the value that ends at the first dash. Order is a dash-free prefix of the rest after that dash, ending at the next dash or at the end. A value without a dash gives an empty order. |
| Frontend.FilterRequestFor | assets/js/frontend.js:364-396 | The request carries page 1 unless a non-zero page is given, the filters gathered for the wrapper's grid, and non-empty post type and page size. |
| Shortcodes.ShortcodeAtts | includes/class-cfs-shortcodes.php:35-40 | `shortcode_atts` keeps exactly the default keys, in order. |
| Shortcodes.ShortcodeAttsGet | includes/class-cfs-shortcodes.php:35-40 | Each known attribute takes the given value, or its default. Unknown attributes are dropped. |
| Shortcodes.FacetShortcodeArgs | includes/class-cfs-shortcodes.php:34-50 | A falsy slug renders an error. Otherwise the label is shown unless `show_label` is set to anything but `true`, and the class and target grid are passed through. |
| Shortcodes.FacetShortcode | includes/class-cfs-shortcodes.php:34-50 | `[cfs_facet]` reports a missing slug and renders nothing for an unknown facet. Otherwise it renders the facet's `View` with those data attributes, the choices for list types, and the caption exactly when `show_label` is absent or `true` and a non-empty label is configured. |
| Shortcodes.ResultsGridId | includes/class-cfs-shortcodes.php:70 | The grid id is the given `grid_id`, or `cfs-grid-` plus a unique suffix. It is never falsy. |
| Shortcodes.ResultsWrapperAttributes | includes/class-cfs-shortcodes.php:87-94 | The wrapper carries id and `data-grid-id` (both the grid id), then post type, page size, template (the `template` attribute, default empty), order-by and order, with their defaults. |
| Shortcodes.SortOptions | includes/class-cfs-shortcodes.php:106-122 | The five sort options in their fixed order. |
| Shortcodes.SortSelection | includes/class-cfs-shortcodes.php:107-119 | An option is selected exactly when it equals `orderby-order`. At most one is selected, and one is selected exactly when the pair is offered. |
| Shortcodes.ActiveFiltersView | includes/class-cfs-shortcodes.php:161-191 | With no active filters nothing is rendered. Otherwise every summary item is shown, with "clear all" unless it is turned off. |
| Shortcodes.ActiveFiltersShortcode | includes/class-cfs-shortcodes.php:161-196 | `[cfs_active_filters]` shows the summary of the active filters, and is fatal exactly when the summary is. |
| Shortcodes.Window | includes/class-cfs-shortcodes.php:350-353 | The page buttons from `lo` to `hi`, in order, with exactly the current one active. |
| Shortcodes.WindowButtons | includes/class-cfs-shortcodes.php:350-353 | The loop computes `Window`. |
| Shortcodes.Pagination | includes/class-cfs-shortcodes.php:322-371 | No pagination for a single page. Previous exists exactly after page 1 and next exactly before the last page, and both point to adjacent valid pages. |
| Shortcodes.RenderPagination | includes/class-cfs-shortcodes.php:322-371 | The renderer computes `Pagination`. |
| Shortcodes.PagesAscending | includes/class-cfs-shortcodes.php:339-360 | The page numbers shown are strictly increasing and lie between 1 and the total. |
| Shortcodes.ActiveIsCurrent | includes/class-cfs-shortcodes.php:350-353 | At most one button is active, it is the current page, and one is active exactly when the current page exists. |
| Shortcodes.RowCoversAllPages | includes/class-cfs-shortcodes.php:343-360 | When the current page is at most two past the end, the row starts at page 1 and ends at the last page, and every gap is marked with dots. |
| Shortcodes.LinksAreShown | includes/class-cfs-shortcodes.php:331-367 | For a valid current page, the pages behind the previous and next links appear as buttons. |
| Shortcodes.PastLastPage | includes/class-cfs-shortcodes.php:327-367 | A page more than two past the end shows only page 1, dots and a previous link to the page before it. |
| Ajax.FilterDefaults | includes/class-cfs-ajax.php:39-44 | With no posted settings the request uses post, 12, page 1, no template, date, DESC. |
| Ajax.PostedSettingsWin | includes/class-cfs-ajax.php:39-44 | Every posted setting overrides its default after sanitising. |
| Ajax.PostedFilters | includes/class-cfs-ajax.php:47-50 | A missing or falsy `filters` gives no filters. A non-empty array is fatal in `parse_str`. |
| Ajax.MergeOverrides | includes/class-cfs-ajax.php:63 | After `array_merge`, a posted filter overrides `$_GET` and other parameters keep their value and position. |
| Ajax.NoFiltersKeepGet | includes/class-cfs-ajax.php:47-63 | Without posted filters, `$_GET` is unchanged. |
| Ajax.AjaxPagination | includes/class-cfs-ajax.php:265-337 | No pagination for a single page. |
| Ajax.RenderAjaxPagination | includes/class-cfs-ajax.php:265-337 | The renderer computes `AjaxPagination`. |
| Ajax.PaginationModesAgree | includes/class-cfs-ajax.php:276-336 | The standard mode renders the same pager as the results shortcode. The load-more mode points to the same next page and reports the current page and total. |
| Ajax.FilterResponseFor | includes/class-cfs-ajax.php:105-114 | The response echoes the requested page, the found posts and page count, and the pagination. Its active filters are the summary of the merged parameters. It is fatal exactly when that summary is. |
| Ajax.AjaxRequest.HandleFilter | includes/class-cfs-ajax.php:35-115 | The posted filters are merged into `$_GET` before the query runs, and the response is built from the merged parameters. A fatal `parse_str` leaves `$_GET` untouched. |
| Ajax.AjaxRequest.LoadMore | includes/class-cfs-ajax.php:168-215 | Same merge. The answer is whether pages remain after the posted page. |
| Ajax.HasMore | includes/class-cfs-ajax.php:213 | More results remain exactly when the page is below the page count. |
| Ajax.HasMoreMatchesButton | includes/class-cfs-ajax.php:213 | `has_more` agrees with whether the load-more button has a next page. |
| Ajax.FacetCounts | includes/class-cfs-ajax.php:120-163 | An unknown facet gives nothing. Taxonomy counts have a key exactly for each term slug and custom-field counts one exactly for each meta value. Other sources give an empty map. |
| Ajax.TermRows | includes/class-cfs-ajax.php:140-142 | One (slug, count) row per term, in order. |
| Ajax.MetaRows | includes/class-cfs-ajax.php:157-159 | One (value, `intval` count) row per database row, in order. |
| Ajax.CountsLastWins | includes/class-cfs-ajax.php:140-159 | Each key's count is its last row's count. |
| Ajax.CountTerms | includes/class-cfs-ajax.php:140-142 | The loop computes the term counts. |
| Ajax.CountMetaValues | includes/class-cfs-ajax.php:157-159 | The loop computes the meta-value counts. |
| Ajax.GetFacetCounts | includes/class-cfs-ajax.php:120-163 | The endpoint returns `FacetCounts` of the posted facet's row. |
| Admin.SanitizeSettings | includes/class-cfs-admin.php:75-87 | Exactly the seven settings keys, in order. Each flag is true exactly when submitted, and the two texts are sanitised with their defaults. |
| Admin.UnsetPaginationTypeIsStandard | includes/class-cfs-admin.php:83 | Saving without a pagination type stores `standard`, and the AJAX pager then renders numbered pages. |
| Admin.PostedPostTypes | includes/class-cfs-admin.php:137 | `array_map` over a scalar `post_types` is fatal. |
| Admin.BaseKeysOf | includes/class-cfs-admin.php:136-147 | Every facet stores the ten base settings keys. |
| Admin.RangeKeysOf | includes/class-cfs-admin.php:150-158 | A range facet adds seven keys. |
| Admin.DateKeysOf | includes/class-cfs-admin.php:161-164 | A date facet adds two keys. |
| Admin.KeyListsDistinct | includes/class-cfs-admin.php:136-164 | The base keys and each type's extra keys never clash. |
| Admin.SettingsKeysByType | includes/class-cfs-admin.php:136-164 | The saved settings have exactly the base keys plus the range or date keys of the type, with no repeated key. |
| Admin.SavedBaseReadBack | includes/class-cfs-admin.php:136-147 | Reading the saved settings back gives the posted label (or the name), flags, post types and data type. |
| Admin.SavedRangeReadBack | includes/class-cfs-admin.php:150-158 | A range facet reads back its posted bounds (defaults 0, 100 and 1) and its inputs flag. |
| Admin.OnlyRangeStoresBounds | includes/class-cfs-admin.php:150-158 | Other types store no bounds. |
| Admin.SavedDateReadBack | includes/class-cfs-admin.php:161-164 | A date type is stored exactly for date facets, with the posted value or `single`. |
| Admin.LoadedFindsStored | includes/class-cfs-facets.php:27-61 | The facets the front end loads from the table have distinct slugs. Looking up a slug finds exactly the row stored under it, and nothing when no row has it. |
| Admin.FacetTable.Insert | includes/class-cfs-admin.php:180-181 | Insertion fails exactly on a taken slug. Otherwise it appends the row under the next id. Either way the AUTO_INCREMENT counter advances. |
| Admin.FacetTable.Update | includes/class-cfs-admin.php:177 | An update fails exactly when the row with that id exists and another row has the slug. Otherwise it replaces that id's row and leaves the rest. An id matching no row changes nothing. |
| Admin.FacetTable.Delete | includes/class-cfs-admin.php:208 | Exactly the rows with that id are removed. |
| Admin.SlugOf | includes/class-cfs-admin.php:130 | The slug is `sanitize_title` of the posted slug, or of the name when none is posted. An array is fatal. |
| Admin.FacetDataFor | includes/class-cfs-admin.php:128-173 | The stored row has that slug, the type and the settings. It is fatal exactly when the slug or the settings are. |
| Admin.SaveFacet | includes/class-cfs-admin.php:118-193 | Without permission, or on a fatal error, the table is unchanged. A positive id updates: it fails exactly when that row exists and another row has the slug (the table then unchanged), and otherwise rewrites only that id's row. Any other id inserts under the next id and fails exactly on a taken slug. Success reports the id and shortcode. |
| Admin.DeleteFacet | includes/class-cfs-admin.php:195-213 | Without permission nothing changes. A positive id deletes exactly that row. Anything else is rejected and changes nothing. |
| Admin.OfferedShortcodeRenders | includes/class-cfs-admin.php:191 | The shortcode shown after saving renders the facet with the default arguments. |
| Admin.FacetTypeNames | includes/class-cfs-admin.php:292-302 | The seven facet types offered. |
| Admin.OfferedTypesRender | includes/class-cfs-admin.php:292-302 | A facet renders a control exactly when its type is one of those offered. |
| Admin.CheckboxRenders | includes/class-cfs-facets.php:121-143 | Each offered type reaches its own renderer. |
| Admin.RadioRenders | includes/class-cfs-facets.php:121-143 | As above, for radio. |
| Admin.DropdownRenders | includes/class-cfs-facets.php:121-143 | As above, for dropdown. |
| Admin.RangeRenders | includes/class-cfs-facets.php:121-143 | As above, for range. |
| Admin.SearchRenders | includes/class-cfs-facets.php:121-143 | As above, for search. |
| Admin.DateRenders | includes/class-cfs-facets.php:121-143 | As above, for date. |
| Admin.RatingRenders | includes/class-cfs-facets.php:121-143 | As above, for rating. |
| Admin.OtherRendersNothing | includes/class-cfs-facets.php:121-143 | Any other type renders no control. |
| Admin.PublicPostTypes | includes/class-cfs-admin.php:261-273 | Exactly the public post types other than `attachment`. |
| Admin.PublicPostTypesLabels | includes/class-cfs-admin.php:261-273 | Each offered post type maps to the label of its last registration under that name (`LastLabel`). |
| Admin.GetPostTypes | includes/class-cfs-admin.php:261-273 | The loop computes `PublicPostTypes`. |
| AdminScript.LowerAll | assets/js/admin.js:232 | Lower-casing maps each character to a single character (ASCII letters by their lower case, others through a table that never yields an ASCII capital), so the length is kept. |
| AdminScript.Keep | assets/js/admin.js:233 | Only word characters, whitespace and dashes are kept, and a string of such characters is unchanged. |
| AdminScript.RunsToDash | assets/js/admin.js:234-235 | Every run of matching characters becomes one dash, and no other matching character remains. |
| AdminScript.CollapsedHasNoDoubleDash | assets/js/admin.js:235 | After collapsing, no two dashes are adjacent. |
| AdminScript.SlugBeforeTrim | assets/js/admin.js:230-237 | Trimming after the replacements changes nothing, and the slug has no double dash. |
| AdminScript.SlugCharset | assets/js/admin.js:230-237 | The slug holds only lower-case word characters and dashes. |
| AdminScript.SlugFixedPoint | assets/js/admin.js:230-237 | A slug made of those characters without double dashes is its own slug. |
| AdminScript.SlugIdempotent | assets/js/admin.js:230-237 | Generating a slug from a slug gives it back. |
| AdminScript.PanelsOfType | assets/js/admin.js:74-93 | The range panel shows exactly for range and the date panel exactly for date, the list panel for list types, and at most one panel at a time. |
| AdminScript.PanelsMatchSavedSettings | assets/js/admin.js:74-93 | The panel shown for a type matches the settings the server stores for it: bounds exactly with the range panel, date type exactly with the date panel. |
| AdminScript.OfferedSourcesHaveRows | assets/js/admin.js:95-107 | Each offered source shows its own field row, and no other value does. |
| AdminScript.AdminForm.constructor | templates/admin-facet-form.php:16-26 | The form starts with the template's values and the panels and rows of its type and source. The button reads "Create Facet" exactly when the hidden id is PHP-falsy, as for the new-facet id 0. |
| AdminScript.TemplateLabelAgrees | templates/admin-facet-form.php:316-318 | For every id the template prints, its button label equals the corrected script's label. |
| AdminScript.AdminForm.OnNameBlur | assets/js/admin.js:47-52 | An empty slug is filled with `generateSlug` of the name, and a non-empty one is kept. Nothing else changes. |
| AdminScript.AdminForm.OnTypeChange | assets/js/admin.js:74-93 | The panels follow the new type, and the multiple option is shown exactly for dropdowns. |
| AdminScript.AdminForm.OnSourceChange | assets/js/admin.js:95-107 | The field rows follow the new source. |
| AdminScript.AdminForm.SubmittedSourceKey | assets/js/admin.js:116-126 | The submitted key is the visible row's field, or empty when no row is visible. |
| AdminScript.AdminForm.OnSaveAnswered | assets/js/admin.js:140-159 | Corrected: the form redirects exactly after a successful save of a new facet (id not a positive integer, the server's test), and the button label says whether the facet exists. |
| AdminScript.NewFormLooksExisting | assets/js/admin.js:145 | A new facet's hidden id `0` is truthy, so the script as written never redirects and labels the button "Update Facet", while the server inserts a new row. |
| AdminScript.NewFacetAgreesWithServer | assets/js/admin.js:145-158 | The corrected test treats a form as new exactly when the server inserts, and labels it "Update Facet" exactly when the server updates. |

## Left out

- Running `WP_Query`, SQL (`$wpdb`, including the post types a custom-field query is restricted to), nonces, `wp_send_json`, output buffering and `uniqid`: results, rows and counts are inputs, and the unique suffix is a parameter.
- `custom_where` and `custom_join`: they return their input unchanged.
- `get_filtered_results`, `get_reset_url` and the reset, results-count and form-wrapper shortcodes: they only format output.
- `get_taxonomies`, `ajax_get_meta_keys` and `ajax_get_taxonomy_terms`: they are database and WordPress lookups without logic of their own.
- Debounce and timers, noUiSlider, scrolling, `removeFilter`, `resetAllFilters` and `updateActiveFilters`, and the full-page reload of `triggerFilter`: DOM effects and timing.
- HTML escaping and markup: renderers are modelled by the data they carry.
- PHP and JavaScript floating point: bounds are reals, and `floatval`, float-to-string and `Number` conversion are uninterpreted host functions, so NaN and rounding are not modelled.
- jQuery `.data()` numeric conversion: data values are strings.
- The `cfs_debug_mode` logging, the page-builder integrations (Elementor, Bricks), the widgets and the templates, except the id field and the button label of the facet form.
- Facets.CheckboxBody: `in_array` loose comparison is modelled as string equality.
- Facets.DropdownBody: `in_array` loose comparison is modelled as string equality.
- QueryHook.FilteredClauses: the hook is not idempotent. A second run on the same query adds every existing clause again (QueryHook.MergeDuplicatesExisting). The model follows the code.
- Facets.DateRangeDropsItsOwnParameters: a date-range facet does not show its own current values after a reload. This is recorded, not corrected.
- QueryUrls.FilterUrl: its contract states only the path. The parameters are characterised by QueryUrls.BuildThenParse.
- QueryHook.ArrayMerge: its contract states only the count of numbered entries. The shape is stated for numbered arrays by QueryHook.ArrayMergeItems.
- Facets.CountsOf: its contract states only the keys. The values are stated by Ajax.CountsLastWins.
- Frontend.ControlsOf: its contract states only where the controls come from, not their order.
- QueryUrls.RenderedMatchesParse: the rendered selection agrees with the filter only for the parameter `cfs_<slug>` itself. A parameter that reaches the slug through `str_replace` (`cfs_cfs_x`) filters the query but is not shown as selected (QueryUrls.AliasFiltersUnchecked). The model follows the code.
- QueryHook.ShouldFilter: the `cfs_should_filter_query` callback gets the default decision and whether `cfs_` parameters are present, but not the `WP_Query` object. A callback that decides by the query's flags or variables is not modelled.
- Ajax.MergeOver: parameter names are strings. `array_merge` renumbers integer keys, so a numeric name such as `5` is appended under a new number rather than overwritten. Such names never start with `cfs_`, so the active filters are not affected (QueryFilters.ParseOnlyCfsKeys).
- AdminScript.LowerAll: each character lower-cases to exactly one character. JavaScript's `toLowerCase` turns `İ` (U+0130) into two, so the slug generated from such a name may differ.
- Facets.FindRow and Admin.FacetTable.SlugTaken: slugs are compared exactly. MySQL's default `_ci` collation compares them without regard to case or trailing spaces, so the lookup and the UNIQUE slug key may match more rows than the model does.

## Findings

| source | as written | input that shows it | evidently intended | confidence | as-written member | corrected member |
|---|---|---|---|---|---|---|
| assets/js/admin.js:145 | The script takes any non-empty hidden `id` as an existing facet. The new-facet form (templates/admin-facet-form.php:16 and 26) fills it with `0`, so after creating a facet the script does not redirect and labels the button "Update Facet" (admin.js:158). | The form for a new facet, hidden id `"0"`. | A form is new exactly when its id is not a positive integer, the same test the server uses to choose between insert and update. | not executed | AdminScript.NewFormLooksExisting | AdminScript.NewFacetAgreesWithServer |
