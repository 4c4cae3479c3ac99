# Translation propagation, featured posts and theme helpers, in Dafny

This project models the logic of a set of WordPress plugins for a
multisite network. The main site holds the English content, and every
other site of the network is a language site.

- **Translation propagation.** Saving a wiki page, a link or a term on the main site sends
  it to every language site.
  - Wiki pages and links go over the REST API.
  - Terms go through `wp_insert_term()` and `wp_update_term()` on each site.
- **Remote IDs.** The IDs the language sites hand back are kept in meta under
  `language_site_<path>`.
- **The propagation counter.** `handle_data()` sets `_jpry_propagation_count` to
  one less than the number of language sites, whose list already leaves out the main site.
  Each acknowledgement lowers it, and a post whose counter is still truthy cannot be deleted.
  - With N ≥ 2 language sites, deletion is allowed after N−1 acknowledgements.
  - With one language site, deletion is never blocked.
  - With none, the counter is −1. That value is truthy and never lowered, so deletion stays blocked
    (`WikiPropagation.CounterDeletionSchedule`).
- **Asynchronous tasks.** They decide which saves, deletions and link edits are
  posted back for propagation, and what they carry.
- **Autoloaders.** Two autoloaders map class names to files.
- **The post-metabox plugin.** It caches featured-post queries in transients and
  invalidates them when a post's featured flags change.
- **Three theme widgets.** They whitelist and sanitize their settings, and load their
  media script once.
- **The must-use functions plugin.** It rebuilds the plugin row links,
  caches the main site's theme list and replaces the excerpt's "more" link.

## Structure

Each PHP file of the core is one Dafny module. Host state lives in one
class, `Host.Host`, whose fields are maps and sequences:

- post meta and term meta;
- transients and site transients;
- the cache of site lists;
- the outgoing HTTP requests, in order;
- term writes and object-term assignments;
- enqueued scripts and required files.

Methods that change state declare it in `modifies` at field granularity.

Code that works step by step is modelled as methods with loops, each
proved against a recursive specification function. The sequence
functions recurse on the last element, in the order the PHP `foreach`
walks the array. Pure PHP helpers are functions.

Answers from code that is not part of this model become function-typed
parameters:

- the remote sites' responses;
- `WP_Query` results;
- `wp_insert_term()`, `wp_update_term()` and `get_term()`;
- `get_post()` and `get_bookmark()`;
- `get_category_by_slug()`;
- `wp_get_themes()`;
- the sanitizers;
- the permalink.

`is_main_site()`, the IIS flag, capability checks and nonce verification
become inputs.

Dynamic PHP values are the datatype `Php.Value`. It has these cases:

- null, booleans, integers and strings;
- lists;
- string-keyed arrays;
- JSON-encoded text.

`empty()` is `Php.Truthy`, negated. `(int)` is `Php.IntOf`.
`wp_parse_args( $a, $d )` is `Php.ParseArgs`: the caller's keys win.

Behaviours modelled exactly as the code has them:

- `get_category_ids()` reads the transient `jpry_cateogory_ids` and writes
  `jpry_category_ids`, so its cache is never hit.
- `clear_transients()` never deletes the per-category keys
  `jpry_featured_category_on_home_<c>`.
- `get_cached_query()` spells its ID-query key `ignore_stikcy_posts`.
- `is_post_translated()` answers true for every post. `maybe_filter_content()`
  therefore strips every existing post.
- `update_each()` unsets the language keys of the sites before it maps the
  parents, so it never re-parents a term (`TaxonomyPropagation.UpdateEachKeepsArgs`).
- `send_to_each()` of the taxonomy class carries the term arguments from
  site to site. A site without a parent ID of its own inherits the
  previous site's parent (`TaxonomyPropagation.CarriedParent`).
- The link class deletes with the defaults of the object, whose body is the
  object's `data`. The merged delete arguments replace that body with the JSON
  naming the URL (`LinkPropagation.LinkDeleteArgsMerged`).

## Model

| member | source | states |
|---|---|---|
| Utility.DeepParseArgs | jpry-translation-propagation/includes/class-jpry-utility.php:211-226 | The result has exactly the keys of args and defaults. A default without an arg survives. An arg with no non-null default, or with a non-array value, is copied. An array arg over a set default is merged recursively with that default. |
| Utility.DeepParseArgsFlat | jpry-translation-propagation/includes/class-jpry-utility.php:211-226 | Without array-valued args, deep merging equals `wp_parse_args`. |
| Utility.DeepParseArgsSelf | jpry-translation-propagation/includes/class-jpry-utility.php:211-226 | Merging args with themselves as defaults gives them back. |
| Utility.DeepParseArgsIdempotent | jpry-translation-propagation/includes/class-jpry-utility.php:211-226 | Merging a second time with the same defaults changes nothing. |
| Utility.WithoutMainSiteAt | jpry-translation-propagation/includes/class-jpry-utility.php:136-145 | When the first entry whose blog ID equals its network ID (`blog_id == site_id`, the test the source uses for the main site) sits at i, exactly that entry is removed and the others keep their order. |
| Utility.WithoutMainSiteNone | jpry-translation-propagation/includes/class-jpry-utility.php:136-145 | With no entry whose blog ID equals its network ID, the list is returned unchanged. |
| Utility.RemoveMainSite | jpry-translation-propagation/includes/class-jpry-utility.php:136-145 | The loop returns the list without its first entry whose blog ID equals its network ID. |
| Utility.TrimSlashes | jpry-translation-propagation/includes/class-jpry-utility.php:156 | `trim( $path, '/' )` is a contiguous slice. Everything removed before and after it is `/`. A non-empty result neither starts nor ends with `/`. |
| Utility.StripPathSlashes | jpry-translation-propagation/includes/class-jpry-utility.php:154-160 | The same number of sites. Each entry has its path trimmed of `/` and every other field unchanged. |
| Utility.PropagationSitesArgs | jpry-translation-propagation/includes/class-jpry-abstract-translation-propagation.php:40 | The options of `initialize_sites()` strip slashes, leave out the main site and default to the main network. |
| Utility.GetNetworkSites | jpry-translation-propagation/includes/class-jpry-utility.php:97-127 | On a cache hit, it returns the cached list. On a miss, it returns the network's sites without the main site (unless asked to keep it), then stripped (if asked), and stores that under the options. |
| Utility.SitesLookupStable | jpry-translation-propagation/includes/class-jpry-utility.php:105-124 | Once a list is cached for some options, every later lookup with those options returns it, whatever else is cached. |
| Utility.IsPostTranslated | jpry-translation-propagation/includes/class-jpry-utility.php:238-241 | Every post counts as translated. |
| AbstractPropagation.MaybeFixIis | jpry-translation-propagation/includes/class-jpry-abstract-translation-propagation.php:99-116 | Off IIS, or for a method other than DELETE, PATCH or PUT, the args are unchanged. Otherwise the method becomes GET, the override header holds the original method, and every other key and header is kept. |
| AbstractPropagation.MaybeFixIisIdempotent | jpry-translation-propagation/includes/class-jpry-abstract-translation-propagation.php:104-113 | A second pass changes nothing, because GET is not rewritten. |
| AbstractPropagation.MaybeFixIisKeepsHeaders | jpry-translation-propagation/includes/class-jpry-abstract-translation-propagation.php:110-113 | Every header already present survives the rewrite with its value. |
| AbstractPropagation.DefaultApiArgsSurviveIis | jpry-translation-propagation/includes/class-jpry-abstract-translation-propagation.php:59-69 | The defaults are a non-blocking POST with timeout 1 and body `data`, so the IIS rewrite leaves them alone. |
| AbstractPropagation.JsonHeadersMerged | jpry-translation-propagation/includes/class-jpry-wiki-propagation.php:198-203 | Deep-merging the JSON content type into the default headers keeps the cookie and nonce headers next to it. |
| AbstractPropagation.SiteList.InitializeSites | jpry-translation-propagation/includes/class-jpry-abstract-translation-propagation.php:38-42 | While the field is empty, it is filled by `get_network_sites` with the propagation options. A non-empty field and the cache are left alone. |
| AbstractPropagation.SiteList.Sites | jpry-translation-propagation/includes/class-jpry-abstract-translation-propagation.php:49-52 | Returns the field, initializing it only on first use. |
| AbstractPropagation.SitesTwice | jpry-translation-propagation/includes/class-jpry-abstract-translation-propagation.php:49-52 | Two calls of `sites()` in a row return the same list. |
| TranslationPropagation.LanguageKey | jpry-translation-propagation/includes/class-jpry-translation-propagation.php:774 | The meta key of a path is `language_site_` followed by exactly that path. |
| TranslationPropagation.DecrementedCount | jpry-translation-propagation/includes/class-jpry-translation-propagation.php:475-494 | One acknowledgement lowers a positive counter by one and leaves a non-positive one alone. No other post and no other key changes. |
| TranslationPropagation.CountAfterAcknowledgements | jpry-translation-propagation/includes/class-jpry-translation-propagation.php:476-485 | After n ≤ c acknowledgements, a counter c reads c−n. After exactly c > 0 of them, the counter row is gone. |
| TranslationPropagation.DecrementPostMeta | jpry-translation-propagation/includes/class-jpry-translation-propagation.php:475-494 | The meta becomes the decremented store: deleted at zero, stored as count−1 otherwise. The returned count is count−1 for a positive count and the count as read otherwise. The update result is true on every path. |
| TranslationPropagation.NonPositiveCountStays | jpry-translation-propagation/includes/class-jpry-translation-propagation.php:476-478 | Acknowledgements leave a counter that is not positive, and all other meta, unchanged. |
| TranslationPropagation.NegativeCountBlocksDeletion | jpry-translation-propagation/includes/class-jpry-translation-propagation.php:794-801 | A counter of −1 survives any number of acknowledgements, and the post can never be deleted. |
| TranslationPropagation.DecrementedRow | jpry-translation-propagation/includes/class-jpry-translation-propagation.php:484 | A counter above one is stored back as the plain integer count−1. |
| TranslationPropagation.LanguageMetaWatcher | jpry-translation-propagation/includes/class-jpry-translation-propagation.php:832-842 | It decrements only on the main site and only for meta keys containing `language_site_`. Otherwise the meta is unchanged. |
| TranslationPropagation.PostTranslationCheck | jpry-translation-propagation/includes/class-jpry-translation-propagation.php:438-446 | False without a post ID. Otherwise true exactly when posting is allowed, the post has no `wds_link_check_ts` meta and the request is not propagating. |
| TranslationPropagation.GetNonceForRequest | jpry-translation-propagation/includes/class-jpry-translation-propagation.php:341-349 | A stored nonce other than false is returned and nothing changes. Otherwise a fresh nonce is created, stored in the site transient and returned. Afterwards the stored nonce is the one returned. |
| TranslationPropagation.RestCheckNonce | jpry-translation-propagation/includes/class-jpry-translation-propagation.php:359-401 | A non-empty incoming result passes through. Without a nonce the result is null. Otherwise it is true exactly when the nonce verifies or equals the nonce `get_nonce_for_request()` returns, and a 403 `rest_propagation_invalid_nonce` error when not. The fallback user is switched in exactly when the result is true and nobody is logged in. |
| TranslationPropagation.CheckRequestNonce | jpry-translation-propagation/includes/class-jpry-translation-propagation.php:359-401 | The verdict is RestCheckNonce's, compared against the nonce in the site transients afterwards. The site transients change only when a supplied nonce fails verification. In that case they become what `get_nonce_for_request()` leaves: a fresh nonce stored when none was. |
| TranslationPropagation.FreshNonceOnMiss | jpry-translation-propagation/includes/class-jpry-translation-propagation.php:378-393 | Without a stored network nonce, an unverified request passes exactly when it carries the nonce created for the comparison. |
| TranslationPropagation.RestCheckNoncePrefersParameter | jpry-translation-propagation/includes/class-jpry-translation-propagation.php:366-370 | When `_wpnonce` is supplied, the X-WP-Nonce header plays no part. |
| TranslationPropagation.PreDeletePost | jpry-translation-propagation/includes/class-jpry-translation-propagation.php:794-801 | False while the counter meta is truthy. `$delete` unchanged otherwise. |
| TranslationPropagation.DeletionWaitsForAcknowledgements | jpry-translation-propagation/includes/class-jpry-translation-propagation.php:794-801 | A post whose counter is c > 0 cannot be deleted after fewer than c acknowledgements. After exactly c, the deletion goes ahead. |
| TranslationPropagation.MaybeFilterContent | jpry-translation-propagation/includes/class-jpry-translation-propagation.php:852-869 | A new post (no ID) passes unchanged. An existing post loses exactly its content, title and excerpt. Every field kept keeps its value. |
| TranslationPropagation.FilterMeta | jpry-translation-propagation/includes/class-jpry-translation-propagation.php:884-924 | The loop that unsets or rewrites rows yields the specified filtered list for each case. The cases are: main site; new or untranslated post; no handler; empty whitelist; blacklist. |
| TranslationPropagation.FilterItemsUpdateOnly | jpry-translation-propagation/includes/class-jpry-translation-propagation.php:913-921 | With nothing blacklisted, every row stays in place. Only rows whose key has an update value change, to that value. |
| TranslationPropagation.FilterItemsDropOnly | jpry-translation-propagation/includes/class-jpry-translation-propagation.php:913-921 | With no updates, a row survives exactly when its key is not blacklisted. |
| TranslationPropagation.FilterMetaCases | jpry-translation-propagation/includes/class-jpry-translation-propagation.php:884-924 | On the main site, the rows are unchanged. For a new or untranslated post, only help-pane values become false and no row moves. For a translated post, exactly the blacklisted rows go. |
| WikiPropagation.ApiPath | jpry-translation-propagation/includes/class-jpry-wiki-propagation.php:377-383 | `/wp/v2/` followed by the REST base whenever one is set (not null). Without one, `/wp/v2/` followed by the post type. |
| WikiPropagation.ApiPathFalseRestBase | jpry-translation-propagation/includes/class-jpry-wiki-propagation.php:377-383 | A REST base of false counts as set and gives the bare `/wp/v2/`. |
| WikiPropagation.PostPathShape | jpry-translation-propagation/includes/class-jpry-wiki-propagation.php:320-325 | The path starts with the endpoint. It is extended exactly when the meta holds `language_site_<path>`. |
| WikiPropagation.Requests | jpry-translation-propagation/includes/class-jpry-wiki-propagation.php:281-283 | One request per site. |
| WikiPropagation.RequestsInOrder | jpry-translation-propagation/includes/class-jpry-wiki-propagation.php:281-283 | The k-th request goes to the k-th site with that site's path and the IIS-fixed args. |
| WikiPropagation.DeleteRequestsExactlyLinked | jpry-translation-propagation/includes/class-jpry-wiki-propagation.php:205-214 | A delete request goes to a site exactly when the meta links a post there. Sites without one are skipped. |
| WikiPropagation.SendArgsMethod | jpry-translation-propagation/includes/class-jpry-wiki-propagation.php:265-270 | A trashed post is sent as DELETE and any other post as POST. Every other default is kept. |
| WikiPropagation.DeleteArgsHeaders | jpry-translation-propagation/includes/class-jpry-wiki-propagation.php:193-203 | The merged delete request carries the JSON content type with the default cookie and nonce headers. |
| WikiPropagation.DeleteArgsMerged | jpry-translation-propagation/includes/class-jpry-wiki-propagation.php:193-203 | The merged delete request is a non-blocking DELETE with timeout 1. Its body is the JSON of `force` and the log ID. |
| WikiPropagation.AddLogPostLabels | jpry-translation-propagation/includes/class-jpry-wiki-propagation.php:445-454 | `Propagation` is present afterwards. No other key is added. Existing entries, including a set `Propagation`, are unchanged. |
| WikiPropagation.AddLogPostLabelsIdempotent | jpry-translation-propagation/includes/class-jpry-wiki-propagation.php:445-454 | Adding the labels twice is adding them once. |
| WikiPropagation.MappedTermsExactly | jpry-translation-propagation/includes/class-jpry-wiki-propagation.php:123-128 | A term ID is assigned exactly when some term of the mapping has a `language_site_<path>` entry whose first row it is. |
| WikiPropagation.AddTaxonomies | jpry-translation-propagation/includes/class-jpry-wiki-propagation.php:120-132 | One assignment per taxonomy, in order. Each holds the first mapped IDs of the linked terms, in mapping order. |
| WikiPropagation.HandleDataPayloadFields | jpry-translation-propagation/includes/class-jpry-wiki-propagation.php:248-263 | The payload keeps the connector's fields. It sets `wds_propagating` true and the log ID. It appends the `wds_english_id` row to the connector's `post_meta` list. A missing or non-list `post_meta` counts as empty (see Left out). |
| WikiPropagation.Wiki.Log | jpry-translation-propagation/includes/class-jpry-wiki-propagation.php:465-479 | Only the first non-null log ID is latched. Once set, it never changes. |
| WikiPropagation.Wiki.DefaultArgs | jpry-translation-propagation/includes/class-jpry-wiki-propagation.php:359-370 | The defaults carry the object's data, the cookie header and the main plugin's stored nonce. The site transients become exactly what `get_nonce_for_request()` leaves: a fresh nonce stored when there was none, nothing else changed. |
| WikiPropagation.Wiki.PostToSite | jpry-translation-propagation/includes/class-jpry-wiki-propagation.php:320-332 | It remembers the site's language meta key and sends exactly one request, to the site's path with the IIS-fixed args. |
| WikiPropagation.Wiki.SendToSites | jpry-translation-propagation/includes/class-jpry-wiki-propagation.php:281-283 | The sent list grows by one request per site, in order. The current site ends as the last one. |
| WikiPropagation.Wiki.SendByApi | jpry-translation-propagation/includes/class-jpry-wiki-propagation.php:278-286 | The args are the given ones over the defaults. They go to every site of the lazily fetched list. The site transients change only by the nonce being stored. |
| WikiPropagation.CounterDeletionSchedule | jpry-translation-propagation/includes/class-jpry-wiki-propagation.php:242 | With the counter at N−1 for N language sites: for N ≥ 2, deletion is blocked before N−1 acknowledgements and allowed after exactly N−1. For N = 1 it is always allowed. For N = 0 it is never allowed. |
| WikiPropagation.MarkedFields | jpry-translation-propagation/includes/class-jpry-wiki-propagation.php:242-245 | After the bookkeeping, the counter and the log ID hold their values. An existing flag row is kept. An absent one becomes `[true]`, so the flag is truthy unless an existing row was falsy. No other meta key changes. |
| WikiPropagation.Wiki.MarkPropagating | jpry-translation-propagation/includes/class-jpry-wiki-propagation.php:242-245 | The post's meta becomes exactly `Marked`: the counter holds the given count and the log ID is stored. A flag row that was there is kept. Otherwise the flag `true` is added. Every other key of the post, and every other post, is unchanged. |
| WikiPropagation.Wiki.PrepareData | jpry-translation-propagation/includes/class-jpry-wiki-propagation.php:227-263 | The post meta becomes exactly `Marked` with the counter at the number of language sites minus one: the flag `true` is added only when absent, and the log ID is latched and stored. Other keys and posts are unchanged. The payload is built from the connector data. |
| WikiPropagation.Wiki.HandleData | jpry-translation-propagation/includes/class-jpry-wiki-propagation.php:227-271 | The bookkeeping of PrepareData, then one request per site, in order, with the defaults switched to DELETE for a trashed post. The site transients change only by the nonce being stored. |
| WikiPropagation.Wiki.DeleteLanguagePosts | jpry-translation-propagation/includes/class-jpry-wiki-propagation.php:184-217 | It keeps the given meta and post type and latches the log ID. It sends the merged DELETE only to the sites the meta links. It leaves the last site current and the last linked site's meta key remembered. No other field of the object changes. The site transients change only by the nonce being stored. |
| WikiPropagation.Wiki.DeleteFromSites | jpry-translation-propagation/includes/class-jpry-wiki-propagation.php:205-214 | The loop sends exactly the requests of the linked sites, in order. The current site ends as the last one, and the meta key as that of the last linked site. |
| LinkPropagation.ConvertTermObjectToArray | jpry-translation-propagation/includes/class-jpry-link-propagation.php:161-175 | It keeps exactly the term's `name`, `slug` and `description`, with their values. |
| LinkPropagation.ConvertTermObjectToArrayIdempotent | jpry-translation-propagation/includes/class-jpry-link-propagation.php:161-175 | Converting twice is converting once. |
| LinkPropagation.RawCategories | jpry-translation-propagation/includes/class-jpry-link-propagation.php:97-98 | One converted entry per category, in order. |
| LinkPropagation.MapLinkDataFields | jpry-translation-propagation/includes/class-jpry-link-propagation.php:78-101 | The ten fixed fields come from their `link_*` columns, with `author` from `link_owner`. `target` is present exactly for a non-empty link target. The converted categories are present. There are no other keys. |
| LinkPropagation.IdFromResponse | jpry-translation-propagation/includes/class-jpry-link-propagation.php:259-264 | A 2xx answer with an `id` gives that ID as an int. Anything else gives 0. |
| LinkPropagation.TranslateArgs | jpry-translation-propagation/includes/class-jpry-link-propagation.php:316-319 | Only `body.name` is removed. Every other key and body field is unchanged. |
| LinkPropagation.TranslateArgsIdempotent | jpry-translation-propagation/includes/class-jpry-link-propagation.php:316-319 | Stripping the name twice is stripping it once. |
| LinkPropagation.LinkPath | jpry-translation-propagation/includes/class-jpry-link-propagation.php:329-337 | `/wds/v1/links`, with `/<id>` appended exactly when the ID is positive. |
| LinkPropagation.LinkDefaultArgs | jpry-translation-propagation/includes/class-jpry-link-propagation.php:362-370 | The shared defaults, but blocking with a 30-second timeout. |
| LinkPropagation.LinkDefaultArgsDeep | jpry-translation-propagation/includes/class-jpry-link-propagation.php:362-370 | The deep merge the source uses gives the same args as the plain merge. |
| LinkPropagation.Pluck | jpry-translation-propagation/includes/class-jpry-link-propagation.php:241 | The same keys, each replaced by its `update_id`, or null when it has none. |
| LinkPropagation.LanguageMappingUniform | jpry-translation-propagation/includes/class-jpry-link-propagation.php:229-248 | The early return for two empty lists equals the general mapping. |
| LinkPropagation.SiteRequestShape | jpry-translation-propagation/includes/class-jpry-link-propagation.php:188-196 | A translated site gets the name-stripped args and its translation's ID. Any other site gets the full args and its propagated ID, or the bare route. |
| LinkPropagation.LinkRequests | jpry-translation-propagation/includes/class-jpry-link-propagation.php:188-204 | One request per site. |
| LinkPropagation.LinkRequestsInOrder | jpry-translation-propagation/includes/class-jpry-link-propagation.php:188-204 | The k-th request is the k-th site's request. |
| LinkPropagation.LinkResultsExactly | jpry-translation-propagation/includes/class-jpry-link-propagation.php:197-205 | A path is in the results exactly when a site with that path answered a non-zero ID, and it maps to such an ID. |
| LinkPropagation.LinkResultsFromSites | jpry-translation-propagation/includes/class-jpry-link-propagation.php:197-205 | Every stored path and ID comes from a site that answered with that ID. |
| LinkPropagation.LinkResultsCoverSites | jpry-translation-propagation/includes/class-jpry-link-propagation.php:197-205 | Every site that answered a non-zero ID has its path stored. |
| LinkPropagation.LinkResultsNonZero | jpry-translation-propagation/includes/class-jpry-link-propagation.php:198-202 | No stored ID is 0. |
| LinkPropagation.LinkDeleteArgsMerged | jpry-translation-propagation/includes/class-jpry-link-propagation.php:288-300 | The merged delete request is a blocking DELETE with timeout 30 and a JSON body naming the URL. |
| LinkPropagation.LinkDeleteArgsHeaders | jpry-translation-propagation/includes/class-jpry-link-propagation.php:288-300 | The merged delete request keeps the default cookie and nonce headers next to the JSON content type. |
| LinkPropagation.Broadcast | jpry-translation-propagation/includes/class-jpry-link-propagation.php:303-306 | Each site gets a request to the bare route with the same args. |
| LinkPropagation.StoreResultsReadBack | jpry-translation-propagation/includes/class-jpry-link-propagation.php:58 | The IDs one propagation stores are the propagated IDs the next one reads. |
| LinkPropagation.Link.GetTranslationPostId | jpry-translation-propagation/includes/class-jpry-link-propagation.php:121-152 | A memoised ID, even 0, is returned without querying. Otherwise the first post found, or 0, is returned and memoised. |
| LinkPropagation.Link.GetTranslationPostIdTwice | jpry-translation-propagation/includes/class-jpry-link-propagation.php:121-152 | A second lookup returns the first answer, whatever the query would now find. |
| LinkPropagation.Link.PostToSite | jpry-translation-propagation/includes/class-jpry-link-propagation.php:329-337 | It sends exactly one request, to the current site at `LinkPath(id)`, and returns the site's answer. |
| LinkPropagation.Link.SendToSite | jpry-translation-propagation/includes/class-jpry-link-propagation.php:188-202 | It sends the site's request and returns the ID its answer gives. |
| LinkPropagation.Link.SendToSites | jpry-translation-propagation/includes/class-jpry-link-propagation.php:188-205 | The loop sends one request per site, in order. It returns exactly the non-zero IDs by path. |
| LinkPropagation.Link.SendToEach | jpry-translation-propagation/includes/class-jpry-link-propagation.php:182-206 | It uses the IIS-fixed link defaults and the translation post's mapping. The translation ID is memoised, and kept when already set. |
| LinkPropagation.Link.SendAndStore | jpry-translation-propagation/includes/class-jpry-link-propagation.php:57-58 | The requests are sent, and the IDs answered are stored on the translation post (nothing is written for post 0). |
| LinkPropagation.Link.Propagate | jpry-translation-propagation/includes/class-jpry-link-propagation.php:54-59 | The link ID and its mapped data are kept, then sent and stored as by SendAndStore. |
| LinkPropagation.Link.BroadcastToSites | jpry-translation-propagation/includes/class-jpry-link-propagation.php:303-306 | Every site gets the same request, in order. |
| LinkPropagation.Link.Delete | jpry-translation-propagation/includes/class-jpry-link-propagation.php:66-69 | Every site gets a DELETE naming the link's URL, over the link defaults and IIS-fixed. |
| TaxonomyPropagation.ParseTermArgs | jpry-translation-propagation/includes/class-jpry-taxonomy-propagation.php:221-232 | Exactly `description`, `parent` and `slug`. Each comes from the term when present, else `''`, `0` and `''`. |
| TaxonomyPropagation.ParseTermArgsIdempotent | jpry-translation-propagation/includes/class-jpry-taxonomy-propagation.php:221-232 | Parsing parsed args changes nothing. |
| TaxonomyPropagation.UpdateParent | jpry-translation-propagation/includes/class-jpry-taxonomy-propagation.php:201-207 | `parent` is set to the site's parent ID exactly when the site has one. Otherwise the args are unchanged. |
| TaxonomyPropagation.UpdateParentOnlyParent | jpry-translation-propagation/includes/class-jpry-taxonomy-propagation.php:201-207 | Only `parent` ever changes. |
| TaxonomyPropagation.LanguageKeyOfPath | jpry-translation-propagation/includes/class-jpry-taxonomy-propagation.php:181-182 | Removing the 14-character prefix of a `language_site_` key gives the path whose key it is. |
| TaxonomyPropagation.MapTermParents | jpry-translation-propagation/includes/class-jpry-taxonomy-propagation.php:173-188 | Empty for parent 0. Otherwise the keys are exactly the paths of `language_site_` keys of the term's meta that `$meta` also has, each mapped to those rows. |
| TaxonomyPropagation.PathAt | jpry-translation-propagation/includes/class-jpry-taxonomy-propagation.php:58 | `$this->sites[1]['path']`: the path of the entry with that key, or empty when there is none. |
| TaxonomyPropagation.CarriedArgsOnlyParent | jpry-translation-propagation/includes/class-jpry-taxonomy-propagation.php:66-70 | Carrying args from site to site changes nothing but `parent`. |
| TaxonomyPropagation.CarriedParent | jpry-translation-propagation/includes/class-jpry-taxonomy-propagation.php:66-70 | A site's insert uses the parent of the last site so far that has one. With none, the args are unchanged. |
| TaxonomyPropagation.Inserted | jpry-translation-propagation/includes/class-jpry-taxonomy-propagation.php:66-84 | One insert per site. |
| TaxonomyPropagation.InsertWritePrefix | jpry-translation-propagation/includes/class-jpry-taxonomy-propagation.php:66-72 | The insert of site k is the same whether the list is cut after it or not. |
| TaxonomyPropagation.InsertedWrites | jpry-translation-propagation/includes/class-jpry-taxonomy-propagation.php:66-84 | The k-th insert is the k-th site's insert, with the args carried up to it. |
| TaxonomyPropagation.InsertedResults | jpry-translation-propagation/includes/class-jpry-taxonomy-propagation.php:72-81 | The IDs collected are those the inserts answer. |
| TaxonomyPropagation.StoredResultsExactly | jpry-translation-propagation/includes/class-jpry-taxonomy-propagation.php:72-81 | A path is kept exactly when a site with that path got a new term or a `term_exists` error. It holds the ID of the last such site. Other errors record nothing. |
| TaxonomyPropagation.WithLanguageRows | jpry-translation-propagation/includes/class-jpry-taxonomy-propagation.php:86-90 | Each collected path gets one more `language_site_<path>` row with its ID. Other keys are unchanged. |
| TaxonomyPropagation.WithLanguageRowsNone | jpry-translation-propagation/includes/class-jpry-taxonomy-propagation.php:86-90 | No results add no rows. |
| TaxonomyPropagation.AppendedRowsAll | jpry-translation-propagation/includes/class-jpry-taxonomy-propagation.php:87-89 | Whatever order the paths are visited in, each gets exactly one row. |
| TaxonomyPropagation.LanguageKeyInjective | jpry-translation-propagation/includes/class-jpry-taxonomy-propagation.php:108 | Distinct paths have distinct language keys. |
| TaxonomyPropagation.SitePathsExactly | jpry-translation-propagation/includes/class-jpry-taxonomy-propagation.php:107-116 | A path is a site path exactly when some site has it. |
| TaxonomyPropagation.SiteKeysOfPaths | jpry-translation-propagation/includes/class-jpry-taxonomy-propagation.php:107-116 | A path is a site path exactly when its key is a site key. |
| TaxonomyPropagation.CollectedRest | jpry-translation-propagation/includes/class-jpry-taxonomy-propagation.php:107-116 | After the first loop of `update_each()`, the meta has lost exactly the sites' keys. |
| TaxonomyPropagation.CollectedIds | jpry-translation-propagation/includes/class-jpry-taxonomy-propagation.php:107-116 | It collects exactly the site paths whose key the meta has, each with the first row under that key. |
| TaxonomyPropagation.UpdateParentsMissSites | jpry-translation-propagation/includes/class-jpry-taxonomy-propagation.php:114-118 | The parents `update_each()` computes name none of its own sites. |
| TaxonomyPropagation.UpdatedWithoutParents | jpry-translation-propagation/includes/class-jpry-taxonomy-propagation.php:122-155 | With no parents, every update carries the parsed args and is of a site with a known ID and an existing term. A blog ID fails exactly when one of its sites fails, with that site's failure. |
| TaxonomyPropagation.UpdateEachKeepsArgs | jpry-translation-propagation/includes/class-jpry-taxonomy-propagation.php:102-161 | Every update `update_each()` makes is an update carrying exactly the parsed term args. |
| TaxonomyPropagation.Taxonomy.constructor | jpry-translation-propagation/includes/class-jpry-taxonomy-propagation.php:24-26 | Whether term meta is available is recorded once, when the object is built. |
| TaxonomyPropagation.Taxonomy.CollectLanguageSites | jpry-translation-propagation/includes/class-jpry-taxonomy-propagation.php:106-116 | The loop gives the collected IDs and the meta without the sites' keys. |
| TaxonomyPropagation.Taxonomy.UpdateSites | jpry-translation-propagation/includes/class-jpry-taxonomy-propagation.php:122-155 | The loop makes exactly the specified updates and returns exactly the failures by blog ID. |
| TaxonomyPropagation.Taxonomy.UpdateEach | jpry-translation-propagation/includes/class-jpry-taxonomy-propagation.php:102-161 | It fetches the sites lazily, then collects, maps parents, parses args and updates each site. It returns the failures. |
| TaxonomyPropagation.Taxonomy.CollectResult | jpry-translation-propagation/includes/class-jpry-taxonomy-propagation.php:72-81 | A new term's ID, or a `term_exists` error's data, is stored under the path. Anything else stores nothing. |
| TaxonomyPropagation.Taxonomy.InsertSites | jpry-translation-propagation/includes/class-jpry-taxonomy-propagation.php:66-84 | The loop makes exactly the specified inserts and returns the IDs they answer. |
| TaxonomyPropagation.Taxonomy.AddLanguageMeta | jpry-translation-propagation/includes/class-jpry-taxonomy-propagation.php:86-90 | Exactly one `language_site_<path>` row per collected path is added to the term. |
| TaxonomyPropagation.Taxonomy.InsertEach | jpry-translation-propagation/includes/class-jpry-taxonomy-propagation.php:63-90 | It inserts on every site, then adds the rows only when term meta is available. |
| TaxonomyPropagation.Taxonomy.SendToEach | jpry-translation-propagation/includes/class-jpry-taxonomy-propagation.php:54-91 | With more than one site and the key of the site with key 1 in the meta, it updates and adds no meta. Otherwise it inserts on every site, reports no failures and records the IDs. |
| TaxonomyPropagation.Taxonomy.HandleData | jpry-translation-propagation/includes/class-jpry-taxonomy-propagation.php:36-43 | The term's own meta goes along only when term meta is available. A term without language meta is inserted everywhere, and its IDs are added to the term. |
| AsyncPost.MaybeSkipPost | jpry-translation-propagation/includes/class-jpry-async-post.php:86-120 | It fails with the first guard that fails, in order: not the main site, data pending, not a post, then the type, status and capability guards unless the flag is set. It admits exactly the admitted posts. |
| AsyncPost.MaybeSkipPostOrder | jpry-translation-propagation/includes/class-jpry-async-post.php:107-119 | Without the flag, the checks run in order: an unregistered type, then a status other than `publish`, then no capability without the help-pane meta `on`. |
| AsyncPost.FlagOverridesGuards | jpry-translation-propagation/includes/class-jpry-async-post.php:103-105 | With the propagation flag set, type, status and capability play no part. |
| AsyncPost.UpdateFlag | jpry-translation-propagation/includes/class-jpry-async-post.php:58 | The flag travels as `yes` or `no`. |
| AsyncPost.UpdateFlagRoundTrip | jpry-translation-propagation/includes/class-jpry-async-post.php:58-71 | True comes back true and false comes back false. |
| AsyncPost.PrepareData | jpry-translation-propagation/includes/class-jpry-async-post.php:53-62 | A payload exactly for an admitted post, with `post_id` and `update` only. Otherwise the guard's exception. |
| AsyncPost.RunAction | jpry-translation-propagation/includes/class-jpry-async-post.php:69-77 | It fires only when the post exists, with the ID, the post and the parsed flag. |
| AsyncPost.PostbackRoundTrip | jpry-translation-propagation/includes/class-jpry-async-post.php:53-77 | An admitted save fires with its own ID and update flag, when the post exists. |
| AsyncLinkMain.Task.constructor | jpry-translation-propagation/includes/class-jpry-async-link-main.php:21-28 | A valid action is kept as the object's action. |
| AsyncLinkMain.NewTask | jpry-translation-propagation/includes/class-jpry-async-link-main.php:21-28 | An object exists exactly for `edit_link` and `add_link`. Any other action throws. |
| AsyncLinkMain.Task.Hook | jpry-translation-propagation/includes/class-jpry-async-link-main.php:78 | `wds_async_` followed by the action. |
| AsyncLinkMain.Task.PrepareData | jpry-translation-propagation/includes/class-jpry-async-link-main.php:50-64 | It throws off the main site, then when data is pending. Otherwise the payload is exactly `{link_id: data[0]}`. |
| AsyncLinkMain.Task.RunAction | jpry-translation-propagation/includes/class-jpry-async-link-main.php:74-81 | The link ID is cast to int. It fires exactly for a non-empty bookmark. |
| AsyncLinkMain.Task.PostbackRoundTrip | jpry-translation-propagation/includes/class-jpry-async-link-main.php:50-81 | An accepted link fires with `(int)` of its own ID when the bookmark exists. |
| AsyncDeletePost.MetaValue | jpry-translation-propagation/includes/class-jpry-async-delete-post.php:69 | All meta: every key with all its rows. |
| AsyncDeletePost.MetaValueTruthy | jpry-translation-propagation/includes/class-jpry-async-delete-post.php:85 | All meta is empty exactly when the post has no meta key. |
| AsyncDeletePost.PrepareData | jpry-translation-propagation/includes/class-jpry-async-delete-post.php:57-73 | It throws exactly for an unregistered post type. Otherwise the payload is exactly the post ID, its type and its full meta. |
| AsyncDeletePost.RunAction | jpry-translation-propagation/includes/class-jpry-async-delete-post.php:80-88 | It fires exactly for non-empty meta, with meta, type and ID in that order. |
| AsyncDeletePost.PostbackRoundTrip | jpry-translation-propagation/includes/class-jpry-async-delete-post.php:57-88 | A registered post fires with its own meta, type and ID exactly when it has meta. |
| TranslationAutoloader.FileChar | jpry-translation-propagation/jpry-translation-propagation.php:64 | A file-name character is never `_` and never upper case. Other characters are lower-cased. |
| TranslationAutoloader.FileName | jpry-translation-propagation/jpry-translation-propagation.php:64 | `class-`, then each class character with `_` as `-` and lower-cased, then `.php`. |
| TranslationAutoloader.FileNameClean | jpry-translation-propagation/jpry-translation-propagation.php:64 | The file name has no `_` and no upper-case letter. |
| TranslationAutoloader.FileNameFolds | jpry-translation-propagation/jpry-translation-propagation.php:64 | Class names that differ only in case or in `_` versus `-` share one file. |
| TranslationAutoloader.Target | jpry-translation-propagation/jpry-translation-propagation.php:59-70 | No file exactly for names not starting with `JPry_`. Otherwise `<dir>/includes/` followed by the file name. |
| TranslationAutoloader.Autoload | jpry-translation-propagation/jpry-translation-propagation.php:59-70 | The target is required exactly when it exists. Otherwise nothing changes. |
| MuAutoloader.Substr | mu-plugins/autoloader.php:23 | At most the first n characters, as a prefix. |
| MuAutoloader.PrefixTest | mu-plugins/autoloader.php:23-25 | The five-character test passes exactly for names starting with `JPry_`. |
| MuAutoloader.Target | mu-plugins/autoloader.php:21-31 | No file exactly for names without the prefix. Otherwise `<dir>/autoloaded_classes/`, the name verbatim, then `.php`. |
| MuAutoloader.TargetInjective | mu-plugins/autoloader.php:27 | Distinct classes map to distinct files. |
| MuAutoloader.Autoload | mu-plugins/autoloader.php:21-31 | The target is required exactly when it exists. Otherwise nothing changes. |
| PostMetabox.CachedStore | jpry-post-metabox/jpry-post-metabox.php:270-278 | A hit leaves the transients alone. No key but the query's changes. |
| PostMetabox.FinalQuery | jpry-post-metabox/jpry-post-metabox.php:280-291 | Exactly three keys. `post__in` is the IDs, or `[0]` when they are empty, so it is never empty. `orderby` comes from the args, else `date`. |
| PostMetabox.GetCachedQuery | jpry-post-metabox/jpry-post-metabox.php:270-292 | It queries and stores only on a miss, reuses the stored IDs on a hit, and builds the final query from them. |
| PostMetabox.CachedQueryHitsAfterMiss | jpry-post-metabox/jpry-post-metabox.php:271-278 | After a miss that found something other than false, the next call hits and gives the same query. |
| PostMetabox.GetHomeFeaturedPosts | jpry-post-metabox/jpry-post-metabox.php:199-209 | The home query, cached under `jpry_featured_on_home`. |
| PostMetabox.GetArchiveFeaturedPosts | jpry-post-metabox/jpry-post-metabox.php:221-232 | The category's query, cached under `jpry_featured_on_category_<c>`. |
| PostMetabox.CategoryMapExactly | jpry-post-metabox/jpry-post-metabox.php:315-318 | The array has exactly the slugs as keys, each mapped to its category's ID. |
| PostMetabox.SlugIdsInOrder | jpry-post-metabox/jpry-post-metabox.php:315-318 | The IDs follow the slugs' order. |
| PostMetabox.CategoryIdsCases | jpry-post-metabox/jpry-post-metabox.php:302-323 | A value other than false under `jpry_cateogory_ids` is returned as is. Otherwise the three slugs' IDs are built and stored under `jpry_category_ids`. |
| PostMetabox.CategoryIdsNeverHit | jpry-post-metabox/jpry-post-metabox.php:303-320 | A miss stays a miss, because the write goes to the other key. |
| PostMetabox.CategoryIdsKeysDiffer | jpry-post-metabox/jpry-post-metabox.php:303-320 | The key read and the key written differ. |
| PostMetabox.GetCategoryIds | jpry-post-metabox/jpry-post-metabox.php:302-323 | The IDs and transients are as CategoryIdsCases describes. |
| PostMetabox.BuildCategoryIds | jpry-post-metabox/jpry-post-metabox.php:315-318 | The loop builds the slug-to-ID array and the ID order. |
| PostMetabox.GetSingleCategoryPostId | jpry-post-metabox/jpry-post-metabox.php:336-354 | The first post of the category's cached query, or 0. The query is cached under `jpry_featured_category_on_home_<c>`. |
| PostMetabox.CategoryPicks | jpry-post-metabox/jpry-post-metabox.php:247-249 | One pick per category. |
| PostMetabox.CategoryPicksWrites | jpry-post-metabox/jpry-post-metabox.php:247-249 | Picking writes no transient but the per-category keys of the categories walked. |
| PostMetabox.GetHomeCategoryFeaturedPosts | jpry-post-metabox/jpry-post-metabox.php:242-257 | It takes the category IDs, picks one post per category while leaving out the earlier picks, and caches the query over the picks. |
| PostMetabox.PickCategoryPosts | jpry-post-metabox/jpry-post-metabox.php:247-249 | The loop yields the specified picks and transients. |
| PostMetabox.ArchiveKeysExactly | jpry-post-metabox/jpry-post-metabox.php:382-384 | The deleted archive keys are exactly those of the post's categories. |
| PostMetabox.FieldKeys | jpry-post-metabox/jpry-post-metabox.php:379 | `jpry_<field name>` is the key of the home and category caches. |
| PostMetabox.ClearTransients | jpry-post-metabox/jpry-post-metabox.php:370-396 | It returns `$value` unchanged and deletes exactly the cleared keys of the field. |
| PostMetabox.ClearOtherFieldsKeeps | jpry-post-metabox/jpry-post-metabox.php:371-376 | Any other field deletes nothing. |
| PostMetabox.ArchiveRefreshedAfterClear | jpry-post-metabox/jpry-post-metabox.php:222 | The archive key written for category c is deleted when a post in c changes its category flag, so the next lookup queries again. |
| PostMetabox.SingleCategoryKeysNeverCleared | jpry-post-metabox/jpry-post-metabox.php:337 | `jpry_featured_category_on_home_<c>` is never deleted. |
| WidgetSettings.Sanitize | html/pf/includes/content/widgets/where-to-buy.php:128-142 | The integer route is `intval()`. |
| WidgetSettings.Whitelist | html/pf/includes/content/widgets/where-to-buy.php:123-143 | The loop keeps exactly the valid keys of the new settings, each sanitized by its route. |
| WidgetSettings.WhitelistedIdempotent | html/pf/includes/content/widgets/where-to-buy.php:113-146 | With stable sanitizers, saving the saved settings again changes nothing. |
| WidgetSettings.EnqueueOnce.EnqueueScript | html/pf/includes/content/widgets/where-to-buy.php:153-169 | The first call enqueues the media script and raises the flag. Later calls do nothing, so the script is added at most once. |
| WhereToBuy.Update | html/pf/includes/content/widgets/where-to-buy.php:113-146 | The keys are exactly the new settings' keys among the five valid ones. `button_link` goes through `esc_url_raw`, `image` through `intval` and the rest through `sanitize_text_field`. The old settings play no part. |
| WhyWeBake.Update | html/pf/includes/content/widgets/why-we-bake.php:103-132 | The keys are exactly the new settings' keys among the four valid ones. `image` goes through `intval` and the rest through `sanitize_text_field`. The old settings play no part. |
| YearArchive.Update | html/pf/includes/content/widgets/year-archive.php:79-98 | `title` is present exactly when given, and is its `sanitize_text_field`. No other key is kept. The old settings play no part. |
| CommonFunctions.Anchor | mu-plugins/jpry-functions.php:101 | The anchor starts with `<a href="` and the href, holds the attributes before `>`, and ends with `</a>`. |
| CommonFunctions.AuthorText | mu-plugins/jpry-functions.php:99-103 | The author as is without an author URI. Otherwise a link to the URI that ends with the author. |
| CommonFunctions.SiteLink | mu-plugins/jpry-functions.php:107 | A link to the plugin URI. |
| CommonFunctions.SiteLinkNewTab | mu-plugins/jpry-functions.php:107 | The site link carries `target="_blank"`. |
| CommonFunctions.ForcePluginLinkNewTab | mu-plugins/jpry-functions.php:90-111 | Without a plugin URI, the row is unchanged. Otherwise it has 1–3 entries: the version when there is one, `By` and the author when there is one, and always the site link last. |
| CommonFunctions.FilterAllowedThemes | mu-plugins/jpry-functions.php:51-60 | Off the main site, the default. On it, the cached themes, read and stored when the cache holds nothing truthy. |
| CommonFunctions.ThemesCachedAfterMiss | mu-plugins/jpry-functions.php:53-56 | Once a non-empty list is stored, it keeps being offered, whatever `wp_get_themes()` later returns. |
| CommonFunctions.FilterExcerptMore | mu-plugins/jpry-functions.php:73-76 | A `[more...]` link to the permalink. The input string plays no part. |

## Left out

- Network I/O is not modelled. Requests are appended to a list, and the remote sites' answers are a function parameter.
- `switch_to_blog()` and `restore_current_blog()` are not modelled. This includes the taxonomy loop's error paths, which skip `restore_current_blog()`.
- Log output is not modelled: `error_log()` and the log-post writes. Only the log ID they return is kept.
- Translation functions and escaping are the identity, as in an English locale. Cookies are one fixed header string.
- The code of the JSON connector is not part of this model. `parse_data_for_json()` is an input.
- WikiPropagation.HandleDataPayloadFields: the connector's `post_meta` is assumed to be a list. A missing or non-list value counts as an empty list, so the payload's `post_meta` is just the `wds_english_id` row. PHP's `array_merge()` differs in both cases: a missing value gives null with a warning (PHP 7) or a TypeError (PHP 8), and a string-keyed array keeps its entries with the row appended.
- `ensure_connector()` is not modelled. It throws when the JSON connector class is missing, and here the connector is always available.
- `maybe_undo_iis_response()` is not modelled. It is subsumed by the function parameter that gives each site's answer.
- The `wp_die_handler` filter that `pre_delete_post()` installs is not modelled, because it only changes the error page.
- The code of `JPry_Language_Utility` and `JPry_Translation_Post` is not part of this model. The verdict and the whitelist they give are inputs.
- Utility.DeepParseArgs: recurses only into string-keyed arrays (`Arr`). PHP's `is_array()` also holds for lists, and the list-merging case is not modelled: a list argument over an array default is copied, not merged. `array_merge()`'s renumbering and appending of integer keys is not modelled either, because every key of `Args` is a string.
- Php.IntOf: integers are unbounded. `(int)` of a numeric string saturates at the 64-bit bounds, but `Int` values themselves are not kept in 64 bits, and exponent forms such as `"1e3"` are read only up to the `e`. No property of the model depends on values outside 64 bits or on exponent strings.
- The postback of an asynchronous task is taken to deliver exactly the payload, and its encoding is not modelled.
- Transient expiry is not modelled: a stored transient stays.
- WordPress's refusal of invalid post IDs is modelled only where the link class stores its results, which writes nothing for post 0. Elsewhere, post ID 0 is an ordinary key of the modelled meta store, and the meta primitives read and write it.
- `get_term_meta( $id, '', true )` in `map_term_parents()` is read as all the term's meta.
- The order of a cached category array in `get_home_category_featured_posts()` is an input, because the cache holds a PHP array.
- Widget `update()` results are maps, so the PHP array key order is not modelled.
- The widgets' `form()`, `widget()` and `wp_localize_script()` are not modelled, nor `register_metabox_fields()`. They only produce HTML or register fields.
- `jetpack_markdown_support()`, `json_page_login_check()`, `register_post_types()` and `register_hooks()` of the functions plugin are not modelled. They are hook wiring.
- Hook registration, constructors that only add hooks, singletons and `__get` are not modelled.
- Requirement checks, upgrade routines, admin notices and row actions are not modelled.
- `ping_meta_decrement()`, `update_english_meta()`, `maybe_strip_link_name()` and `maybe_localize_link_url()` are not modelled. They lie outside the modelled operations of the main class.
- The error of `maybe_filter_content()` on an exception is not modelled, because `is_post_translated()` never throws.
- AsyncLinkMain.Task.constructor: requires a valid action. The exception the PHP constructor throws for any other action is modelled by `AsyncLinkMain.NewTask`.
- WikiPropagation.Wiki.PostToSite: requires a current site. The source only calls it inside the loop over the sites, where one is always set.
- LinkPropagation.Link.PostToSite: requires a current site, for the same reason.
- TaxonomyPropagation.Taxonomy.HandleData: states the insert branch only. The update branch is stated by `TaxonomyPropagation.Taxonomy.SendToEach`, which it calls.
- TaxonomyPropagation.UpdatedWithoutParents: proved for the case with no parents, which is the only case `update_each()` produces (`TaxonomyPropagation.UpdateParentsMissSites`).
