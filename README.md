# Shopware storefront 404 cache, SEO URL update listener and admin API info controller

A Dafny model of three pieces of the Shopware platform:

- **The not-found subscriber** (`NotFound`, `not_found.dfy`). On a kernel exception in the
  storefront it stops propagation, resolves a sales-channel context when the request carries
  none, renders non-404 errors directly and serves 404 pages from a tag-aware cache: the page is
  rendered once per cache key (page name plus a digest of the context, passed through the key
  event), stored without its page data and context, and tagged with the traced tags, its own name
  and the global tag `error-page`, filtered through the tags event, with falsy and duplicate tags
  removed. A change of the `core.basicInformation.http404Page` setting invalidates the global tag.
  The cache, the request and the exception event are classes whose fields the methods update;
  the error renderer, the context service, the context-hash generator, `md5`, the cache
  tracer and the two extensibility events are functions given to the subscriber, with nothing
  assumed about them.
- **The SEO URL update listener** (`SeoUrlUpdate`, `seo_url_update.dfy`). Category, product and
  landing-page indexer events are forwarded to the SEO URL updater under the route of the
  navigation, product detail and landing page unless the event names that updater in its skip
  list; a category update is widened with every non-link category whose path contains one of the
  updated ids. A sales-channel write that changes the navigation, footer or service category asks
  the indexer registry for a full category and product re-index. The updater and the registry are
  observed through the calls they receive; the category table is a sequence of rows.
- **The admin API info controller** (`ApiInfo`, `api_info.dfy`). The grouping of an app's ACL
  privileges (`entity:key` goes under `key`, anything else under `additional`), the active-apps
  query, the administration assets and base URL of each kernel bundle, the `bundles` map of the
  config endpoint (plugins first, then apps overwriting by name), the queue statistics, the
  Content-Security-Policy header of the API browser page and the guards of the OpenAPI and
  flow-action endpoints.

`Php` (`php.dfy`) states the PHP builtins these rely on (`array_filter`, `array_unique`,
`substr_count`, `str_replace`, `trim`, `mb_strtolower`, the `getAlpha` filter) for ASCII strings;
`Wrappers` (`wrappers.dfy`) holds `Option` (PHP's `null`) and `Result`.

## Model

| member | source | states |
|---|---|---|
| NotFound.BuildName | src/Storefront/Framework/Routing/NotFound/NotFoundSubscriber.php:174-177 | the name is `error-page-` followed by sales channel, domain and language id; it starts with the global tag, differs from it and is never falsy |
| NotFound.UnhookedKey | src/Storefront/Framework/Routing/NotFound/NotFoundSubscriber.php:181 | the key is the page name followed by the context digest, split exactly at the name's length |
| NotFound.UnhookedKeySeparatesContexts | src/Storefront/Framework/Routing/NotFound/NotFoundSubscriber.php:179-188 | for one page, two contexts share a cache key (before the key event) exactly when their digests are equal |
| NotFound.GenerateTags | src/Storefront/Framework/Routing/NotFound/NotFoundSubscriber.php:193-205 | the tags have no duplicates and no falsy value, and are exactly the non-falsy tags the tags event returns for traced tags plus name plus global tag |
| NotFound.GeneratedTagsNamePage | src/Storefront/Framework/Routing/NotFound/NotFoundSubscriber.php:195-198 | when the tags event keeps them, a stored page is tagged with its own name and with the global tag |
| NotFound.GeneratedTagsUnchanged | src/Storefront/Framework/Routing/NotFound/NotFoundSubscriber.php:193-205 | with no listener on the tags event, a clean tag list (no falsy tag, no repeat) is stored as built: traced tags, page name, global tag, in that order |
| NotFound.Invalidated | src/Storefront/Framework/Routing/NotFound/NotFoundSubscriber.php:168 | invalidating tags keeps exactly the entries none of whose tags is invalidated, with their values |
| NotFound.GlobalInvalidationEmpties | src/Storefront/Framework/Routing/NotFound/NotFoundSubscriber.php:162-169 | invalidating the global tag empties a cache whose every entry carries it |
| NotFound.Detached | src/Storefront/Framework/Routing/NotFound/NotFoundSubscriber.php:153-154 | the stored page keeps content and status code and holds neither page data nor context |
| NotFound.TagCache.Get | src/Storefront/Framework/Routing/NotFound/NotFoundSubscriber.php:138 | the lookup half of get-or-compute: the stored value exactly when the key is present |
| NotFound.TagCache.Save | src/Storefront/Framework/Routing/NotFound/NotFoundSubscriber.php:138-157 | storing puts the value and its tags under the key and changes no other entry |
| NotFound.TagCache.Invalidate | src/Storefront/Framework/Routing/NotFound/NotFoundSubscriber.php:168 | the entries become `Invalidated` of the old entries |
| NotFound.ContextParametersFor | src/Storefront/Framework/Routing/NotFound/NotFoundSubscriber.php:209-218 | a missing sales-channel id is cast to the empty string; the token, language header, domain currency and domain are passed as given |
| NotFound.NotFoundSubscriber.Key | src/Storefront/Framework/Routing/NotFound/NotFoundSubscriber.php:179-188 | with no listener on the key event, the key is the page name followed by the md5 of the context hash, and so starts with the page name |
| NotFound.NotFoundSubscriber.SetSalesChannelContext | src/Storefront/Framework/Routing/NotFound/NotFoundSubscriber.php:207-222 | the request's context becomes the one resolved from its sales channel (empty when absent), the given token (standing for `Uuid::randomHex`), the language header, the domain currency and the domain |
| NotFound.NotFoundSubscriber.OnError | src/Storefront/Framework/Routing/NotFound/NotFoundSubscriber.php:101-160 | debug or store-API-proxy requests change nothing; otherwise propagation stops, a missing context is resolved and an existing one kept, a non-404 is rendered without touching the cache, a cached 404 is served without rendering, an uncached 404 is rendered once, stored detached under the key with the generated tags and served; every entry keeps carrying the global tag |
| NotFound.NotFoundSubscriber.OnSystemConfigChanged | src/Storefront/Framework/Routing/NotFound/NotFoundSubscriber.php:162-169 | only the 404-page setting invalidates the global tag, which then leaves no error page cached; any other key leaves the cache alone |
| NotFound.SecondNotFoundServedFromCache | src/Storefront/Framework/Routing/NotFound/NotFoundSubscriber.php:135-159 | a second 404 for the same request gets the first one's page from the cache; the page is rendered at most once |
| SeoUrlUpdate.SelectedRowsMembership | src/Storefront/Framework/Seo/SeoUrlRoute/SeoUrlUpdateListener.php:116-122 | a category is selected exactly when it is in the table, is not a link and has a path containing one of the ids |
| SeoUrlUpdate.LinksNeverSelected | src/Storefront/Framework/Seo/SeoUrlRoute/SeoUrlUpdateListener.php:118-122 | no link category is ever returned as a child |
| SeoUrlUpdate.NoIdsNoChildren | src/Storefront/Framework/Seo/SeoUrlRoute/SeoUrlUpdateListener.php:107-109 | no ids select no rows |
| SeoUrlUpdate.GetCategoryChildren | src/Storefront/Framework/Seo/SeoUrlRoute/SeoUrlUpdateListener.php:105-131 | the children are the ids of the selected rows, in table order (none for no ids) |
| SeoUrlUpdate.PrimaryKeysWithPropertyChange | src/Storefront/Framework/Seo/SeoUrlRoute/SeoUrlUpdateListener.php:49 | the keys of the writes to the entity whose payload holds one of the properties, in write order (see PropertyChangeReported) |
| SeoUrlUpdate.PropertyChangeReported | src/Storefront/Framework/Seo/SeoUrlRoute/SeoUrlUpdateListener.php:47-53 | some key is reported exactly when some write to the entity touches one of the properties |
| SeoUrlUpdate.SeoUrlUpdateListener.DetectSalesChannelEntryPoints | src/Storefront/Framework/Seo/SeoUrlRoute/SeoUrlUpdateListener.php:45-56 | exactly when a sales-channel write changes the navigation, footer or service category is one message for the category and product indexers sent; no SEO URL update happens |
| SeoUrlUpdate.SeoUrlUpdateListener.UpdateCategoryUrls | src/Storefront/Framework/Seo/SeoUrlRoute/SeoUrlUpdateListener.php:71-80 | skipped when the category updater is in the skip list; otherwise one navigation-route update with the event's ids followed by all their non-link descendants |
| SeoUrlUpdate.SeoUrlUpdateListener.UpdateProductUrls | src/Storefront/Framework/Seo/SeoUrlRoute/SeoUrlUpdateListener.php:82-89 | skipped when the product updater is in the skip list; otherwise one product-detail-route update with the event's ids |
| SeoUrlUpdate.SeoUrlUpdateListener.UpdateLandingPageUrls | src/Storefront/Framework/Seo/SeoUrlRoute/SeoUrlUpdateListener.php:91-98 | skipped when the landing-page updater is in the skip list; otherwise one landing-page-route update with the event's ids |
| ApiInfo.PlacePrivilege | src/Core/Framework/Api/Controller/InfoController.php:397-404 | a privilege with exactly one colon splits into entity and key around it, neither holding a colon; any other goes verbatim to `additional` |
| ApiInfo.GroupedBuckets | src/Core/Framework/Api/Controller/InfoController.php:394-405 | each bucket holds exactly the entries placed in it, in input order, and a bucket exists exactly when something was placed in it |
| ApiInfo.GroupedTotal | src/Core/Framework/Api/Controller/InfoController.php:396-405 | every privilege lands in exactly one bucket: bucket sizes add up to the number of privileges |
| ApiInfo.GroupPrivileges | src/Core/Framework/Api/Controller/InfoController.php:392-405 | the loop builds the grouping of the decoded privileges, none for a null column |
| ApiInfo.ActiveApps | src/Core/Framework/Api/Controller/InfoController.php:380-389 | at most one app per row, and every listed app is active |
| ApiInfo.ListedApp | src/Core/Framework/Api/Controller/InfoController.php:391-407 | a listed row keeps its name, active flag, integration id, base URL and version, with its privileges grouped |
| ApiInfo.ActiveAppsMembership | src/Core/Framework/Api/Controller/InfoController.php:380-408 | an app is listed exactly when it is the listed form of a row that is active (`active = 1`) and has a base URL |
| ApiInfo.ActiveAppsConcat | src/Core/Framework/Api/Controller/InfoController.php:380-408 | the listing keeps table order: the apps of two tables in a row are those of the first followed by those of the second |
| ApiInfo.GetActiveApps | src/Core/Framework/Api/Controller/InfoController.php:377-409 | the listed apps, each with its privileges grouped |
| ApiInfo.AdministrationAssetPath | src/Core/Framework/Api/Controller/InfoController.php:327 | the path is the asset folder, the container prefix with every `_` turned into `-`, and the extension |
| ApiInfo.AdministrationAssets | src/Core/Framework/Api/Controller/InfoController.php:325-350 | the asset path alone when the file exists under the bundle's public resources, nothing otherwise |
| ApiInfo.BundleDirectoryName | src/Core/Framework/Api/Controller/InfoController.php:274 | the lower-cased bundle name with one trailing `bundle` removed; no upper-case letter remains |
| ApiInfo.BaseUrl | src/Core/Framework/Api/Controller/InfoController.php:352-372 | none for non-plugins; a plugin's truthy admin base URL (neither empty nor `"0"`); else, an admin base URL of `"0"` included, the published entry file's URL when it exists |
| ApiInfo.AssetUrls | src/Core/Framework/Api/Controller/InfoController.php:279-289 | one URL per asset file, in order: the package URL of `bundles/<directory>/<file>` |
| ApiInfo.PluginEntry | src/Core/Framework/Api/Controller/InfoController.php:269-304 | a bundle contributes nothing exactly when it is not a platform bundle or has no style, no script and no base URL; otherwise its entry holds the package URLs of its style and script paths under its directory and its base URL |
| ApiInfo.PluginAssetsKeys | src/Core/Framework/Api/Controller/InfoController.php:269-305 | a name is a key of the plugin part exactly when a bundle of that name contributes an entry |
| ApiInfo.PluginAssetsLastBundleWins | src/Core/Framework/Api/Controller/InfoController.php:299-304 | under a name, the entry is the one the last contributing bundle of that name made |
| ApiInfo.AppEntry | src/Core/Framework/Api/Controller/InfoController.php:308-316 | an app's entry is active exactly when its flag is non-zero and carries its integration id, base URL, grouped privileges, version and name |
| ApiInfo.WithAppsOverwrites | src/Core/Framework/Api/Controller/InfoController.php:307-317 | every app gets an app entry under its name, and every key no app has keeps the plugin entry |
| ApiInfo.WithAppsLastAppWins | src/Core/Framework/Api/Controller/InfoController.php:307-317 | an app whose name no later app repeats leaves exactly its own entry under that name |
| ApiInfo.AppEntriesActive | src/Core/Framework/Api/Controller/InfoController.php:309 | app entries of listed apps are active |
| ApiInfo.GetBundles | src/Core/Framework/Api/Controller/InfoController.php:264-320 | the two loops build the plugin entries then overwrite by app name |
| ApiInfo.BundlesMapShape | src/Core/Framework/Api/Controller/InfoController.php:264-320 | in the config map every listed app has an app entry and every app entry is active |
| ApiInfo.QueueStats | src/Core/Framework/Api/Controller/InfoController.php:114-132 | empty without the message-queue pool; otherwise one statistic per entry, in order, with its key and count |
| ApiInfo.FlattenLineBreaks | src/Core/Framework/Api/Controller/InfoController.php:188 | line feeds and carriage returns become spaces, position by position |
| ApiInfo.CspHeader | src/Core/Framework/Api/Controller/InfoController.php:184-190 | no header exactly when the trimmed template is empty (a missing nonce taken as `""`, as on PHP 7.4); otherwise the trimmed template with the nonce substituted and line breaks flattened, holding no line break |
| ApiInfo.CspPlainTemplate | src/Core/Framework/Api/Controller/InfoController.php:184-190 | a template without placeholder and line breaks is sent as it is, trimmed |
| ApiInfo.CspNonceSubstituted | src/Core/Framework/Api/Controller/InfoController.php:184-190 | with one placeholder in the trimmed template, the header is the text before it, the nonce and the text after it, line breaks flattened |
| ApiInfo.Info | src/Core/Framework/Api/Controller/InfoController.php:96-103 | fails with an invalid `type` parameter exactly when the letters of the parameter (default `jsonapi`) name no API type |
| ApiInfo.FlowActions | src/Core/Framework/Api/Controller/InfoController.php:250-259 | nothing without a collector, otherwise what the collector returns |
| Php.ArrayFilter | src/Storefront/Framework/Routing/NotFound/NotFoundSubscriber.php:204 | keeps exactly the non-falsy values |
| Php.ArrayFilterKeepsTruthy | src/Storefront/Framework/Routing/NotFound/NotFoundSubscriber.php:204 | a list with no falsy value passes unchanged |
| Php.ArrayUnique | src/Storefront/Framework/Routing/NotFound/NotFoundSubscriber.php:204 | no duplicates, same values |
| Php.ArrayUniqueKeepsDistinct | src/Storefront/Framework/Routing/NotFound/NotFoundSubscriber.php:204 | a list without duplicates passes unchanged |
| Php.CountChar | src/Core/Framework/Api/Controller/InfoController.php:397 | the count is zero exactly when the character is absent (its value is fixed by CountCharMultiplicity) |
| Php.CountCharMultiplicity | src/Core/Framework/Api/Controller/InfoController.php:397 | the count is the character's multiplicity in the string |
| Php.CountCharAppend | src/Core/Framework/Api/Controller/InfoController.php:397 | the count of a concatenation is the sum of the counts |
| Php.CountCharOne | src/Core/Framework/Api/Controller/InfoController.php:397 | the count is one exactly when one position holds the character and no position before or after it does |
| Php.StrReplaceOneChar | src/Core/Framework/Api/Controller/InfoController.php:327 | replacing one character by one maps the string position by position |
| Php.StrReplaceAt | src/Core/Framework/Api/Controller/InfoController.php:187 | the first occurrence of a non-empty search string becomes the replacement, the text before it is kept and the scan goes on after it |
| Php.StrReplaceAbsent | src/Core/Framework/Api/Controller/InfoController.php:187 | a subject without the search string comes back unchanged |
| Php.StrReplace | src/Core/Framework/Api/Controller/InfoController.php:187-188 | every character of the result comes from the subject or the replacement; StrReplaceAt, StrReplaceAbsent and StrReplaceOneChar give the exact result |
| Php.Trim | src/Core/Framework/Api/Controller/InfoController.php:185 | the result is the part of the input between its leading and trailing trim characters, position by position: only trim characters lie outside it, and a non-empty result starts and ends with a non-trim character |
| Php.ToLower | src/Core/Framework/Api/Controller/InfoController.php:274 | same length, every character lowered |
| Php.KeepLetters | src/Core/Framework/Api/Controller/InfoController.php:98 | only letters of the input remain; a single character is kept exactly when it is a letter; an all-letter input is unchanged |
| Php.KeepLettersConcat | src/Core/Framework/Api/Controller/InfoController.php:98 | the filter distributes over concatenation, so together with the single-character case it keeps exactly the letters, in order |

## Left out

- Event subscription (`getSubscribedEvents`), the feature flag that enables `onError`, and the
  Symfony response objects, JSON encoding and template rendering.
- The cache's get-or-compute is a lookup followed by a store: single-flight computation, expiry,
  eviction and delayed invalidation are not modelled; invalidation takes effect at once.
- The error renderer reads the main request from the request stack; the model passes the
  exception and the context only.
- The error renderer, the context service, the cache, the SEO URL updater and the indexer
  registry are modelled as total. In the source an exception from the context service or the
  renderer propagates after propagation was already stopped, and on a cache miss it leaves
  neither a cache entry nor a response; the model has no such failure path.
- SeoUrlUpdate.PrimaryKeysWithPropertyChange: the event's own lookup of changed primary keys is
  not part of this model; it is taken to report the writes to the entity whose payload holds one
  of the properties, and the if-and-only-if of `DetectSalesChannelEntryPoints` rests on that.
- The key and tags events also receive the request and the context; the model's hooks see only
  the key or the tag list.
- `NotFound.NotFoundSubscriber.OnError`: the global tag is shown to stay on every entry only for
  a tags event that keeps it, since a listener may remove it.
- The SQL of the children query is a filter over an in-memory table: `LIKE` wildcards and
  collation (case-insensitive matching) inside an id, and the row order a database returns, are
  not modelled; binary ids are modelled as their hex form.
- The route names of the navigation, product detail and landing page routes and the default API
  type `jsonapi` are defined in files that are not part of this model; their values are stated
  as constants.
- `ApiInfo.QueueStats`: the `(int)` cast of the count is not modelled; counts are integers already.
- `json_decode` of the privileges column is not modelled; the column is the decoded list or null.
- `ApiInfo.BundleDirectoryName`: `mb_strtolower` is modelled for ASCII only, and the regular
  expression's `$` matching before a final newline is not modelled; the `RuntimeException` for a
  failed replacement cannot occur on such names and is left out.
- `ApiInfo.CspHeader`: a nonce placeholder can survive substitution (a template `%%nonce%%`
  with nonce `nonce`), so no "placeholder-free" property is claimed; the absence of line breaks is.
- `ApiInfo.CspHeader`: a missing nonce attribute (`null`) is substituted as the empty string,
  as PHP 7.4 does; on PHP 8 the file's `strict_types` makes `str_replace` with a `null`
  replacement throw a `TypeError`, so no header is set and the response is not returned. That
  failure is not modelled, and "no header exactly when the trimmed template is empty" holds only
  for a present nonce on PHP 8.
- The `bundles` map of the config endpoint and the privilege buckets are Dafny maps, so the
  key order of the PHP arrays (plugins in kernel order, then apps, an overwritten key keeping its
  first position; buckets in the order of first use) is not modelled; nothing in the modelled
  code depends on it.
- The other endpoints of the info controller (entity schema, business events, version, the
  config endpoint's other fields) only forward to services and are not modelled.
- The customer-birthday rule, the PHPStan collection extension and the two migrations are not
  part of this model.
