# funda-tracker, modelled in Dafny

funda-tracker scrapes house listings from the Funda search API and stores them in a
Postgres table. The repository holds two versions of the same pipeline: the current one
(`src/fundatracker/funda.py`) and an older one (`fundatracker/funda.py`). Each version has
five parts:

1. It builds a search request for a postal code, a radius in kilometres, a publication
   period and an offering type, and posts it.
2. It fetches per-neighbourhood and per-listing "insights" (inhabitants, asking price per
   m², views, saves).
   - The current version memoises them with `functools.lru_cache`.
   - Both versions keep a module-level dict of neighbourhood payloads keyed by an xxh64
     digest of the city and the normalised neighbourhood name.
3. It flattens every search hit into a flat row (`parse_funda_results`) and enriches the
   row with the insights.
4. It stores the rows (`store_results`).
   - Each row's id is a digest of its values, computed before the processing metadata is
     attached.
   - Inserts use `ON CONFLICT (id) DO NOTHING`.
   - A failing insert is logged and skipped.
5. It pages through the results (`tracker`, or the loop of `cli` in the older version),
   tagging every stored row with `"postal~radius~pubdate"`.

The project models both versions.

- **Pure parts become datatypes and functions.** This covers JSON values, Python dicts,
  name normalisation, the query builders, the listing literal, the fetchers, the caches
  and the loops as step functions.
- **State the source updates in place becomes classes.**
  - `Insights.Fetcher` holds the `neighbourhood_insights` dict and the request log.
  - `Store.Database` holds the table.
  - `Scraping.Scraper` holds the two caches.
  - `LegacyScraping.Scraper` runs the older pipeline.
- **Every method is proved equal to the function that specifies it.** Its loops (the source's
  `for` and `while`) carry invariants, and the properties the source promises are proved about those
  functions as lemmas.

Modules, in dependency order:

| module | file | what it holds |
|---|---|---|
| `Base` | base.dfy | `Option` and `Result` |
| `Dicts` | dicts.dfy | insertion-ordered Python dicts: assignment `d[k] = v` (`Put`) and dict displays with repeated keys (`FromPairs`) |
| `Text` | text.dfy | `str.replace`, `str.join`, `str(int)` |
| `Json` | json.dfy | JSON values; the Python accessors `v[k]`, `v.get(k, d)`, `v[0]`, `len`, `iter`, `str`, truthiness and comparison, each `None` where Python raises |
| `Schema` | schema.dfy | the 55 table columns, the two schema dicts and the order of the listing literal's keys |
| `Oracles` | oracles.dfy | the environment: HTTP endpoints, xxh64, formatting of floats and containers, clock, run id and the database's verdict on a row |
| `Lru` | lru.dfy | the bounded least-recently-used memo behind `lru_cache` |
| `Insights` | insights.dfy | name normalisation, the two uncached fetchers, the `Fetcher` class |
| `Listing` | listing.dfy | the listing literal of both versions (`Flatten`, `LegacyFlatten`) |
| `Store` | store.dfy | `store_results` and the `Database` class |
| `Funda` | funda.dfy | the current search request, the cached fetchers and `parse_funda_results` |
| `Paging` | paging.dfy | the tag, and the `while results_processed < results_total` loop over any body |
| `Pipeline` | pipeline.dfy | the loop body of `tracker` and its properties |
| `Legacy` | legacy.dfy | the older query, parsing and `cli` loop, and their properties |
| `Scraping` | scraper.dfy | the current pipeline on mutable state |
| `LegacyScraping` | legacy_scraper.dfy | the older pipeline on mutable state |

Three modelling decisions follow particular lines of the code:

- **The caches are bounded LRU caches.** `@lru_cache` at `src/fundatracker/funda.py:170`
  keeps at most 128 listings, and `@lru_cache(maxsize=2400)` at
  `src/fundatracker/funda.py:193` keeps at most 2400 neighbourhoods. A full cache evicts its
  least recently used entry.
- **`tracker` asks for listing insights.** The call `parse_funda_results(res)` at
  `src/fundatracker/funda.py:412` passes no second argument, so it uses the default
  `use_listing_insights=True` of `src/fundatracker/funda.py:220`.
- **The older radius path has no fallback.** `f"area_with_radius.{km_radius}"` at
  `fundatracker/funda.py:236` writes `area_with_radius.None` for a missing radius.

## Model

| member | source | states |
|---|---|---|
| Dicts.Put | src/fundatracker/funda.py:311-322 | one assignment `d[k] = v`: afterwards `k` maps to `v` and every other key keeps its value |
| Dicts.PutKeys | src/fundatracker/funda.py:311-322 | assignment keeps the key order and appends a key only when it is new |
| Dicts.LookupFromPairs | fundatracker/funda.py:343-392 | a key written more than once in a dict display takes the value of its last occurrence |
| Dicts.KeysFromPairs | fundatracker/funda.py:343-392 | the keys of a dict display are its keys in order of first occurrence |
| Dicts.FromPairsDistinct | src/fundatracker/funda.py:240-309 | a display without repeated keys is exactly its list of entries |
| Text.ReplaceChar | src/fundatracker/funda.py:196 | replacing one character by another is substitution at every position (against an independent definition) |
| Text.ReplaceShrinks | src/fundatracker/funda.py:196 | a replacement no longer than its pattern never lengthens the text |
| Text.ReplaceAbsent | src/fundatracker/funda.py:196 | text without the pattern is unchanged |
| Text.ReplaceAlphabet | src/fundatracker/funda.py:196 | `replace` introduces no character found in neither the input nor the replacement |
| Text.JoinLength | src/fundatracker/funda.py:354-357 | a joined text is as long as its parts plus one separator between each pair |
| Text.DecimalRoundTrip | src/fundatracker/funda.py:162-165 | reading back the digits of `str(n)` gives `n` |
| Text.DecimalInjective | src/fundatracker/funda.py:162-165 | different numbers print differently |
| Json.Index | src/fundatracker/funda.py:231-234 | `v[k]` succeeds exactly on a dict holding `k` and answers its first entry for `k` |
| Json.Get | src/fundatracker/funda.py:240-309 | `v.get(k, d)` succeeds exactly on a dict, answers `d` for a missing key and `v[k]` otherwise |
| Json.SizeCountsElements | src/fundatracker/funda.py:236-238 | `len` is defined exactly where iteration is and counts the iterated elements |
| Json.JoinWith | src/fundatracker/funda.py:286 | `sep.join(v)` succeeds exactly when every iterated element is a string, and joins them in order |
| Schema.FundaSchemaPos | src/fundatracker/funda.py:27-84 | the schema lists the 55 columns at positions 0 to 54 in table order |
| Schema.FundaSchemaDistinct | src/fundatracker/funda.py:27-84 | the schema has one entry per column |
| Schema.FundaSchemaCovers | src/fundatracker/funda.py:27-84 | every column a row can hold has a schema entry |
| Schema.LegacySchemaIsFundaSchema | fundatracker/funda.py:25-83 | the older literal writes 57 entries, repeating `offering_type` and `object_type`, yet evaluates to the same 55-column dict |
| Schema.ListingColumnsDistinct | src/fundatracker/funda.py:242-308 | the listing literal writes 45 distinct keys |
| Schema.ListingColumnsMembers | src/fundatracker/funda.py:242-308 | a column is written by the literal exactly when its position in a row is below 45 |
| Schema.OrdInverse | src/fundatracker/funda.py:27-84 | a column is recovered from its position in a row (against an independent inverse) |
| Schema.SchemaPosInverse | src/fundatracker/funda.py:27-84 | a column is recovered from its position in the schema (against an independent inverse) |
| Lru.Empty | src/fundatracker/funda.py:170 | a freshly decorated function has an empty, valid cache |
| Lru.Find | src/fundatracker/funda.py:193 | a memoised result exists exactly for the keys the cache holds |
| Lru.TouchValid | src/fundatracker/funda.py:193 | a hit keeps the cache valid, changes no memoised result and makes its key the most recent |
| Lru.InsertValid | src/fundatracker/funda.py:193 | a stored miss keeps the cache within `maxsize` with each key once, answers the new key from then on, and grows the cache unless it was full |
| Lru.InsertEvictsOldest | src/fundatracker/funda.py:193 | storing a miss in a full cache forgets exactly the least recently used entry, and in a cache that is not full forgets nothing |
| Lru.RemoveDistinct | src/fundatracker/funda.py:193 | removing a key keeps the keys distinct and shortens the entries by one exactly when the key was present |
| Insights.NormaliseClean | src/fundatracker/funda.py:196 | a normalised name holds no slash and no space, and is no longer than the name |
| Insights.NormalisePlain | src/fundatracker/funda.py:196 | a name without slash, space or `--` is its own normal form |
| Insights.NormaliseKeepsDoubleHyphen | src/fundatracker/funda.py:196 | `"a / b"` normalises to `"a--b"`, which itself normalises to `"a-b"`: normalising is not idempotent |
| Insights.SlashAndSpaceShareKey | src/fundatracker/funda.py:196-197 | any two names of equal length that differ, position by position, only in slash versus space share one key, so one stored payload |
| Insights.FetchNeighbourhood | src/fundatracker/funda.py:194-217 | a non-string name raises and changes nothing; a stored key answers its payload without a request; otherwise one request for the city and the normalised name; only a 200 stores (its payload, under this key); any other status answers `{}` |
| Insights.FetchListing | src/fundatracker/funda.py:171-190 | always one request and nothing stored; the payload on 200, `{}` on 204 or any other status |
| Insights.StoredPayloadIsReused | src/fundatracker/funda.py:198-209 | after a 200, the next call for the same neighbourhood answers the same payload and leaves the state as it is |
| Insights.FailureIsRetried | fundatracker/funda.py:307-330 | without a cache, a neighbourhood whose page failed is requested again on the next call |
| Insights.Sent | src/fundatracker/funda.py:160 | a search request adds one entry to the request log and changes nothing else |
| Insights.SentQuery | fundatracker/funda.py:281 | the older search request adds one entry to the request log and changes nothing else |
| Insights.Fetcher.constructor | src/fundatracker/funda.py:19 | the module starts with an empty `neighbourhood_insights` dict and no requests |
| Insights.Fetcher.Neighbourhood | src/fundatracker/funda.py:194-217 | the in-place fetcher returns and leaves exactly what `FetchNeighbourhood` specifies |
| Insights.Fetcher.Listing | src/fundatracker/funda.py:171-190 | the in-place fetcher returns and leaves exactly what `FetchListing` specifies |
| Insights.Fetcher.Post | src/fundatracker/funda.py:160 | returns the endpoint's response and logs the request |
| Insights.Fetcher.PostQuery | fundatracker/funda.py:281 | returns the older endpoint's response and logs the request |
| Listing.FirstOf | src/fundatracker/funda.py:274-275 | `d.get(k, [None])[0]`: `None` for a missing key, the first element of a non-empty list, a raise on an empty one or on a non-dict |
| Listing.AgentField | src/fundatracker/funda.py:243-250 | a field of the first agent: `""` without an agent list, a raise on an empty one, the agent's field (default `""`) otherwise |
| Listing.CommaJoined | src/fundatracker/funda.py:286 | a missing list joins to `""`; a list of strings joins in source order with commas |
| Listing.DateRange | src/fundatracker/funda.py:287 | a missing range renders as `"~"`; a present one as its `gte` and `lte` bounds around `~`, `""` for a missing bound |
| Listing.NestedText | src/fundatracker/funda.py:291-296 | `d.get(k, {}).get(s, "")`: `""` when the dict is missing, the nested field otherwise |
| Listing.AddressValuesDefined | src/fundatracker/funda.py:252-263 | the address part raises exactly when `address`, `address.country` or `address.postal_code` is missing |
| Listing.TermsValuesDefined | src/fundatracker/funda.py:276-283 | the terms part raises exactly when `publish_date`, the page URL or `price` is missing, or the selling price list is empty |
| Listing.AgentValuesDefined | src/fundatracker/funda.py:242-250 | the agent part raises exactly when `_id` is missing or the agent list is empty |
| Listing.FeatureValuesDefined | src/fundatracker/funda.py:264-275 | the feature part raises exactly when the floor-area or plot-area list is present but empty |
| Listing.OptionalValuesDefined | src/fundatracker/funda.py:284-309 | the remaining parts never raise on fields of the expected shape |
| Listing.Flatten | src/fundatracker/funda.py:240-309 | a flattened row has exactly the literal's 45 keys in order, with its values; it is `None` exactly when the literal raises |
| Listing.FlattenDefinedExactly | src/fundatracker/funda.py:240-309 | a hit is skipped exactly when a required path is missing or a list it takes element 0 of is empty |
| Listing.FlattenLookup | src/fundatracker/funda.py:240-309 | column `i` of a flattened row holds value `i` of the literal |
| Listing.FlattenAt | src/fundatracker/funda.py:240-309 | any listing column holds the literal's value at the column's position |
| Listing.FlattenAgent | src/fundatracker/funda.py:242-250 | the listing id is `_id`; agent id, URL, name and association are read from the first agent with `""` for a missing key, an absent agent list counting as `[{}]` |
| Listing.FlattenAddress | src/fundatracker/funda.py:251-269 | all nine address columns are read from `address`: country and postal code are required, the other seven default to `""` |
| Listing.FlattenFeatures | src/fundatracker/funda.py:270-275 | bedrooms, rooms, object type and energy label come from `get(…, None)`; floor area and plot area take element 0 of the list, `None` when the list is absent |
| Listing.FlattenTerms | src/fundatracker/funda.py:276-285 | publish date and URL are copied, `price` is required, the selling price is element 0 of its list, and status, price type, price condition, placement type and availability default to `""` |
| Listing.FlattenConstruction | src/fundatracker/funda.py:286-289 | amenities are comma-joined, the construction range is rendered `gte~lte`, and construction period and type default to `""` |
| Listing.FlattenOffering | src/fundatracker/funda.py:290-291 | offering type defaults to `""`; project is the project's id or `""` |
| Listing.FlattenSale | src/fundatracker/funda.py:292-299 | the sale range is rendered `gte~lte`; the Dutch description, its tags, selected area and zoning default to `""`; surroundings are comma-joined |
| Listing.FlattenExterior | src/fundatracker/funda.py:300-308 | the three outdoor-space and two garage columns are copied, defaulting to `""` |
| Listing.FlattenDefaults | src/fundatracker/funda.py:243-275 | a missing agent list gives `""` in all four agent columns, each missing optional address field gives `""`, each missing feature gives `None`, without skipping the hit |
| Listing.FlattenTermsDefaults | src/fundatracker/funda.py:278-291 | each missing status, price, availability, construction, offering or project path gives `""`, `None` for the selling price and `"~"` for the construction range |
| Listing.FlattenSaleDefaults | src/fundatracker/funda.py:292-308 | a missing sale range gives `"~"`; missing selected area, description (both columns), zoning, surroundings, outdoor space and garage paths give `""` |
| Listing.FlattenCopies | src/fundatracker/funda.py:242-279 | the id, country, postal code, publish date and URL are copied, and floor area, plot area and selling price are element 0 of a present list |
| Listing.FlattenRenders | src/fundatracker/funda.py:286-299 | present amenity and surrounding lists are joined with `,`, and present construction and sale ranges render as the `gte` text, `~`, the `lte` text |
| Listing.LegacyFlatten | fundatracker/funda.py:343-392 | the older row exists exactly when the newer literal would succeed and `",".join` of `offering_type` succeeds |
| Listing.LegacyFlattenPatchesFlatten | fundatracker/funda.py:343-392 | the older row is the newer row with the values of `publish_date`, `offering_type` and `object_type` replaced in place (last value, first position) |
| Listing.LegacyFlattenLookup | fundatracker/funda.py:343-392 | the older row has the same columns; `object_type` defaults to `""` instead of `None`, `offering_type` is comma-joined, every other column agrees with the newer row |
| Listing.LegacyOfferingSplitsString | fundatracker/funda.py:385 | an `offering_type` of `"buy"` is stored as `"b,u,y"` |
| Store.MetadataLayout | src/fundatracker/funda.py:354-361 | the stored record is the id, then the row's columns in order, then processing time and run id; every row column keeps its value |
| Store.InsertRow | src/fundatracker/funda.py:363-375 | one insert never overwrites; it adds the row's id exactly when the database accepts the row, with the record built from the row and the clock reading of this insert |
| Store.AcceptedIdsMembers | src/fundatracker/funda.py:352-375 | an id is added by a batch exactly when some accepted row of the batch digests to it |
| Store.StoreAllEffect | src/fundatracker/funda.py:349-375 | a store never changes a stored record, adds exactly the ids of the accepted rows, and reads the clock once per row |
| Store.StoreAllKeepsGoing | src/fundatracker/funda.py:371-375 | every accepted row ends up stored, whatever happens to the other rows |
| Store.StoreAllRecord | src/fundatracker/funda.py:354-369 | the record of a row new to the table and first with its id carries that row, its digest and its own clock reading |
| Store.StoreSettled | fundatracker/funda.py:414-436 | storing rows each of which is already stored or rejected changes no record |
| Store.StoreTwice | src/fundatracker/funda.py:363-369 | storing the same rows twice leaves the table as the first store left it |
| Store.StoreAllCarries | src/fundatracker/funda.py:354-369 | a column every row of the batch holds keeps its value in every record the batch adds |
| Store.Database.Insert | src/fundatracker/funda.py:354-375 | one pass of the loop body changes the table as `InsertRow` specifies |
| Store.Database.StoreResults | src/fundatracker/funda.py:349-375 | the loop leaves the table as `StoreAll` specifies, i.e. with every property proved of it above |
| Funda.PublicationDateMapShape | src/fundatracker/funda.py:114-121 | `"now-Nd"` selects the single flag `"N"`; `"no_preference"` and every unknown period select nothing |
| Funda.RadiusPathFallback | src/fundatracker/funda.py:129-131 | a radius of `None` or 0 falls back to one kilometre; any other integer radius is written out in decimal |
| Funda.QueryParamsLocation | src/fundatracker/funda.py:124-131 | the radius search uses the id `"{pc}-0"` and the radius path |
| Funda.QueryParamsFilters | src/fundatracker/funda.py:124-143 | the publication map and the offering type are passed on as given |
| Funda.QueryParamsPage | src/fundatracker/funda.py:138-140 | the page starts at the start index and carries no size |
| Funda.SearchBodyParams | src/fundatracker/funda.py:146-151 | the body is two NDJSON lines, the second carrying the query parameters |
| Funda.SearchBodyPages | src/fundatracker/funda.py:124-151 | two requests of one search are equal exactly when their offsets are |
| Funda.SearchFailureMessageContents | src/fundatracker/funda.py:162-165 | the raised message contains the status code and the response text |
| Funda.GetResults | src/fundatracker/funda.py:87-167 | exactly one search request is added to the request log |
| Funda.GetResultsRaises | src/fundatracker/funda.py:160-167 | raises exactly on a status other than 200, with the status code and the response text in the message; otherwise answers the decoded body |
| Funda.FreshSession | src/fundatracker/funda.py:170-194 | the two caches start empty and within their bounds |
| Funda.CachedNeighbourhood | src/fundatracker/funda.py:193-217 | unhashable arguments raise; a cached pair answers at once without a request; a miss runs the fetcher; the listing cache is untouched |
| Funda.CachedListing | src/fundatracker/funda.py:170-190 | the same policy for the listing cache; the neighbourhood cache is untouched |
| Funda.CachedNeighbourhoodValid | src/fundatracker/funda.py:193 | a cached call keeps both caches within their bounds with each key once |
| Funda.CachedListingValid | src/fundatracker/funda.py:170 | a cached call keeps both caches within their bounds with each key once |
| Funda.NeighbourhoodMemoised | src/fundatracker/funda.py:193-199 | asking for the same neighbourhood again right away answers the same and sends nothing |
| Funda.FailedNeighbourhoodIsNotRetried | src/fundatracker/funda.py:210-217 | behind the cache, a neighbourhood whose page failed answers `{}` and is not requested again |
| Funda.ListingMemoised | src/fundatracker/funda.py:170-171 | asking for the same listing again right away answers the same and sends nothing |
| Funda.Parse | src/fundatracker/funda.py:220-236 | parsing raises exactly when the hits path is missing or the hits have no length |
| Funda.WithNeighbourhoodAppends | src/fundatracker/funda.py:311-322 | the three neighbourhood fields are appended, read from the payload, `None` where absent |
| Funda.WithListingInsightsAppends | src/fundatracker/funda.py:324-339 | the insight fields appended are views and then saves, up to the first missing one |
| Funda.EnrichKeeps | src/fundatracker/funda.py:311-339 | a row is kept exactly when its neighbourhood lookup succeeds with a dict; listing insights never decide it |
| Funda.EnrichSteps | src/fundatracker/funda.py:311-339 | a kept row gets its neighbourhood fields, and then listing insights only when asked for and the row has an id |
| Funda.EnrichShape | src/fundatracker/funda.py:311-339 | a kept row is the literal's row, then the three neighbourhood entries, then the insight entries read, if asked for |
| Funda.ListingRowClean | src/fundatracker/funda.py:240-309 | a flattened row holds none of the columns added later, and none twice |
| Funda.KeptRow | src/fundatracker/funda.py:238-344 | a kept hit was flattened; its row starts with the flattened listing, has the three neighbourhood columns next and at most two insight columns, 48 columns without insights |
| Funda.ParseHitsRows | src/fundatracker/funda.py:238-344 | the loop keeps a sub-sequence of the hits, in order, one row each |
| Funda.ParseRows | src/fundatracker/funda.py:220-346 | the parsed rows come from increasing hit positions, so there are at most as many as hits, and a hit that does not flatten yields none |
| Funda.ParsedRowsUntagged | src/fundatracker/funda.py:220-346 | every parsed row is non-empty, has distinct columns and holds no tag or metadata column |
| Funda.ParseWithoutInsights | src/fundatracker/funda.py:324-339 | without listing insights no listing is requested and every row has exactly 48 columns |
| Paging.TaggedAppends | src/fundatracker/funda.py:410-414 | tagging appends the search query, changes no other column and leaves a row the store accepts |
| Paging.TagAllKeepsEveryRow | src/fundatracker/funda.py:410-414 | the `if x` filter drops only empty rows, so non-empty rows are all tagged, in order |
| Paging.TagAllRows | src/fundatracker/funda.py:410-414 | every tagged row carries the tag, and there are no more of them than parsed rows |
| Paging.LoopKeepsAndTags | src/fundatracker/funda.py:384-420 | when every iteration keeps stored records and tags new ones, so does the loop |
| Paging.LoopEnds | src/fundatracker/funda.py:384 | a loop that finishes has its offset at or past the total; one that reports no results saw a zero total |
| Paging.LoopPreserves | src/fundatracker/funda.py:384-420 | an invariant every iteration keeps holds when the loop ends |
| Paging.LoopEndsWithin | src/fundatracker/funda.py:384-420 | iterations that advance by at least a stride and report a fixed total end the loop before the fuel runs out |
| Pipeline.StepAdvances | src/fundatracker/funda.py:385-418 | an iteration that goes on saw a 200 with a non-zero total and advanced the offset by the length of the page |
| Pipeline.EmptyPageRepeats | src/fundatracker/funda.py:395-418 | a page with no hits leaves the offset unchanged, so the next iteration sends the same request |
| Pipeline.StepNoResults | src/fundatracker/funda.py:393-404 | an iteration reports no results exactly on a 200 whose total equals zero, and then stores nothing |
| Pipeline.ZeroTotalStoresNothing | src/fundatracker/funda.py:402-404 | a zero total ends the run at once with nothing stored |
| Pipeline.TrackerEnds | src/fundatracker/funda.py:378-422 | `tracker` returns normally only with the offset at or past the total, or on a zero total |
| Pipeline.PageTagsRecords | src/fundatracker/funda.py:410-416 | handling a page keeps every stored record and tags every record it adds |
| Pipeline.StepTagsRecords | src/fundatracker/funda.py:385-418 | one iteration keeps every stored record and tags every record it adds |
| Pipeline.TrackerTagsRecords | src/fundatracker/funda.py:378-422 | over a whole run no stored record changes and every added record is tagged `"pc~km~pd"` |
| Legacy.BuildQuery | fundatracker/funda.py:92-274 | the literal followed by the two conditional appends builds the query the properties below are about |
| Legacy.BlockIds | fundatracker/funda.py:104-274 | each block opens with its id |
| Legacy.QuerySections | fundatracker/funda.py:92-241 | the query holds the settings and, under `query`, the blocks |
| Legacy.QueryShape | fundatracker/funda.py:104-274 | result block first, location block second, then a publication block when a period is chosen, then an offering block when the type is not `"all"` |
| Legacy.QueryFilters | fundatracker/funda.py:243-274 | a publication block is sent exactly when the period is not `"no_preference"`, an offering block exactly when the type is not `"all"` |
| Legacy.SearchResultPaging | fundatracker/funda.py:150-151 | the result block pages with `from` = start index and `size` = page size |
| Legacy.LocationParams | fundatracker/funda.py:223-239 | the location is `"{pc}-0"` and the radius field `"area_with_radius.{km}"` |
| Legacy.LocationRadiusNone | fundatracker/funda.py:223-239 | a missing radius yields `"area_with_radius.None"`, where the current version falls back to 1 |
| Legacy.FilterParams | fundatracker/funda.py:243-274 | the publication block filters from the period to now, the offering block on the type as given |
| Legacy.LegacyGetResults | fundatracker/funda.py:90-286 | one request of the built query is logged and nothing else changes |
| Legacy.LegacyGetResultsRaises | fundatracker/funda.py:283-286 | the call raises exactly on a status other than 200, with a message containing status and text; otherwise it returns the body |
| Legacy.LegacyParse | fundatracker/funda.py:332-338 | parsing raises exactly when the `search_result.hits.hits` path is missing or has no length |
| Legacy.LegacyEnrichKeeps | fundatracker/funda.py:394-410 | a row is kept exactly when its (uncached) neighbourhood lookup answers a dict |
| Legacy.LegacyAlwaysAsksInsights | fundatracker/funda.py:399-404 | a kept row with an id always ends with a request for its listing insights |
| Legacy.LegacyEnrichSteps | fundatracker/funda.py:394-407 | a kept row gets its neighbourhood fields and then, when it has an id, whatever insights were read |
| Legacy.EnrichedRow | fundatracker/funda.py:394-404 | both enrichment steps append their entries to a row that had none of them |
| Legacy.LegacyEnrichShape | fundatracker/funda.py:394-407 | a kept row is the literal's row, the three neighbourhood entries, then the insight entries read |
| Legacy.LegacyFlatsRows | fundatracker/funda.py:343-392 | every hit the older literal flattens has the 45 listing columns in order |
| Legacy.LegacyKeptRow | fundatracker/funda.py:339-410 | a kept hit was flattened and its row starts with the flattened listing and the neighbourhood columns |
| Legacy.LegacyParseHitsRows | fundatracker/funda.py:339-410 | the loop keeps a sub-sequence of the hits, in order, one row each |
| Legacy.LegacyParseRows | fundatracker/funda.py:332-412 | the parsed rows come from increasing hit positions, and a hit that does not flatten yields none |
| Legacy.LegacyParsedRowsUntagged | fundatracker/funda.py:332-412 | every parsed row is non-empty with distinct columns and no tag or metadata column |
| Legacy.LegacyStorePageFacts | fundatracker/funda.py:476-483 | storing a page goes on exactly when it parses, and then advances the offset by 100 |
| Legacy.LegacyPageStepFacts | fundatracker/funda.py:465-483 | the rest of the body stops on a zero total with nothing stored and otherwise advances by 100 |
| Legacy.LegacyStepAdvances | fundatracker/funda.py:463-483 | an iteration that goes on saw a 200 with a non-zero total and advanced by exactly 100, however many hits the page held |
| Legacy.LegacyStepNoResults | fundatracker/funda.py:464-472 | an iteration reports no results exactly on a 200 whose total equals zero, and then stores nothing |
| Legacy.LegacyZeroTotalStoresNothing | fundatracker/funda.py:470-472 | a zero total ends the run at once with nothing stored |
| Legacy.LegacyCliEnds | fundatracker/funda.py:460-485 | the loop returns normally only with the offset at or past the total, or on a zero total |
| Legacy.LegacyPageTagsRecords | fundatracker/funda.py:476-481 | handling a page keeps every stored record and tags every record it adds |
| Legacy.LegacyStepTagsRecords | fundatracker/funda.py:463-483 | one iteration keeps every stored record and tags every record it adds |
| Legacy.LegacyCliTagsRecords | fundatracker/funda.py:460-485 | over a whole run no stored record changes and every added record is tagged `"pc~km~pd"` |
| Legacy.LegacyCliOffsets | fundatracker/funda.py:460-483 | the offset is always a non-negative multiple of 100 |
| Legacy.LegacyCliLeavesWithin | fundatracker/funda.py:460-483 | when every response reports the total `T`, the loop leaves within ceil(T / 100) iterations, unlike the current loop on an empty page |
| Scraping.Scraper.constructor | src/fundatracker/funda.py:170-194 | a fresh module has empty caches and an empty insights dict |
| Scraping.Scraper.NeighbourhoodInsights | src/fundatracker/funda.py:193-217 | the cached call on mutable state answers and leaves what `CachedNeighbourhood` specifies |
| Scraping.Scraper.ListingInsights | src/fundatracker/funda.py:170-190 | the cached call on mutable state answers and leaves what `CachedListing` specifies |
| Scraping.Scraper.ParseListing | src/fundatracker/funda.py:311-339 | the step-by-step enrichment of one row agrees with `ProcessListing` |
| Scraping.Scraper.ParseFlats | src/fundatracker/funda.py:238-344 | the append loop over the hits agrees with `ParseHits` |
| Scraping.Scraper.ParseResults | src/fundatracker/funda.py:220-346 | raises exactly when `Parse` does, with the same error and no state change; otherwise agrees with it |
| Scraping.Scraper.TrackPage | src/fundatracker/funda.py:385-391 | one pass of the loop body agrees with `TrackStep` |
| Scraping.Scraper.HandlePage | src/fundatracker/funda.py:393-404 | the total and length check agree with `PageStep` |
| Scraping.Scraper.StoreParsed | src/fundatracker/funda.py:410-418 | parse, tag, store and advance agree with `StorePage` |
| Scraping.Scraper.TrackTurn | src/fundatracker/funda.py:384-420 | one loop test and body agree with one unrolling of `TrackLoop` |
| Scraping.Scraper.Track | src/fundatracker/funda.py:378-422 | the whole `while` loop returns and leaves what `Tracker` specifies |
| LegacyScraping.Scraper.constructor | fundatracker/funda.py:23 | a fresh module has an empty insights dict and no requests |
| LegacyScraping.Scraper.GetResults | fundatracker/funda.py:90-286 | building, posting and checking the query agree with `LegacyGetResults` |
| LegacyScraping.Scraper.ParseListing | fundatracker/funda.py:394-407 | the step-by-step enrichment of one row agrees with `LegacyProcessListing` |
| LegacyScraping.Scraper.ParseFlats | fundatracker/funda.py:339-410 | the append loop over the hits agrees with `LegacyParseHits` |
| LegacyScraping.Scraper.ParseResults | fundatracker/funda.py:332-412 | raises exactly when `LegacyParse` does, with the same error and no state change; otherwise agrees with it |
| LegacyScraping.Scraper.TrackPage | fundatracker/funda.py:463-464 | one pass of the loop body agrees with `LegacyTrackStep` |
| LegacyScraping.Scraper.HandlePage | fundatracker/funda.py:465-472 | the total check agrees with `LegacyPageStep` |
| LegacyScraping.Scraper.StoreParsed | fundatracker/funda.py:476-483 | parse, tag, store and advance by 100 agree with `LegacyStorePage` |
| LegacyScraping.Scraper.TrackTurn | fundatracker/funda.py:463-485 | one loop test and body agree with one unrolling of `TrackLoop` |
| LegacyScraping.Scraper.Cli | fundatracker/funda.py:460-485 | the whole `while` loop of `cli` returns and leaves what `LegacyCli` specifies |

## Left out

- HTTP: `requests.post` and `requests.get` are the `Env` functions `search`, `legacySearch`, `neighbourhoodPage` and `listingPage`, which return a status, a decoded body and a text. URLs, headers and the user agent (picked with `random.choice` in the older version) are not modelled. `get_authorization_key` is not modelled.
- Failing HTTP calls: every request is assumed to return, and every `res.json()` is assumed to decode. A `requests` exception or an undecodable body is not modelled. The source would react in three ways. In `get_neighbourhood_insights` (`src/fundatracker/funda.py:207-209`, `fundatracker/funda.py:322-324`) it would drop the listing. In `get_listing_insights` (`src/fundatracker/funda.py:182`, `fundatracker/funda.py:299`) it would be swallowed by the inner `try` of `parse_funda_results` (`src/fundatracker/funda.py:325-338`, `fundatracker/funda.py:399-404`), and the row would be kept without views and saves. In `get_results` (`src/fundatracker/funda.py:167`, `fundatracker/funda.py:286`) it would end the run with that exception.
- Json.Index: a JSON object whose fields repeat a key is answered by the key's first entry. The oracles may return such an object. A dict decoded by `json.loads` keeps the last value of a repeated key instead, and the model does not restrict the oracles to objects with distinct keys.
- The NDJSON serialisation with `json.dumps` is not modelled. The body is the list of the two JSON lines.
- xxh64 is the uninterpreted `env.hash`, and `str()` of floats, lists and dicts is the uninterpreted `env.show`. Strings, integers, booleans and `None` are rendered as Python renders them.
- Floats are opaque `real` values; Python's float formatting and arithmetic are not modelled.
- The clock (`datetime.now`) is `env.clock`, read once per insert. The `uuid4` run id is `env.runId`.
- `time.sleep`, `logging` and `print` are left out, since they have no effect on the data.
- Postgres, psycopg and the SQL text are left out. The table is a map from id to row. Whether an insert raises (a type mismatch, say) is the oracle `env.rejects`, which depends on the row only. Commits and connection handling are not modelled.
- `cli` argument parsing with `argparse`, and the database setup at `fundatracker/funda.py:441-458`, are left out; the loop takes its arguments directly.
- Lru.Find: cache keys are compared structurally, so Python's equalities between `1`, `1.0` and `True` as cache keys are not modelled.
- Funda.Session: the two caches are keyed on the argument values. Keyword versus positional calls, which `lru_cache` keys differently, are not distinguished.
- Scraping.Scraper.Track: the `while` loops run on fuel. The current loop does not terminate on an empty page while the offset is below the total (see `Pipeline.EmptyPageRepeats`). `OutOfFuel` marks the end of the unrolled iterations; `Legacy.LegacyCliLeavesWithin` bounds the older loop.
- Scraping.Scraper.ParseResults: a hit is flattened by the pure `Flatten`, for all hits up front, before the enrichment loop. This is equivalent because flattening has no effect on the state.
- Listing.FlattenDefinedExactly: the exact characterisation of when a hit is skipped is proved only for listings whose fields have the shapes the search API gives them: dicts where the literal calls `get`, lists where it indexes or joins. `Flatten` itself follows Python on every shape.
- Listing.Flatten: a row's keys are constructors of `Schema.Column` named after the source's strings (`Schema.ColumnName`), not strings.
- Listing flattening: an exception raised while building the literal skips the hit in the model. The source prints the error and the offending listing, which the model leaves out.
- Monkey-patching in the test suite, and the fixtures it imports, are not part of this model.
