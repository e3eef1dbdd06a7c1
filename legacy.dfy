/**
 * The older pipeline (`fundatracker/funda.py`): the reactivesearch query with
 * its optional filter blocks, the uncached insight fetchers, the older
 * `parse_funda_results` and the pagination loop of `cli`, which moves the
 * offset on by a fixed 100. The `LegacyScraping` class runs the same steps on
 * mutable state and is proved against these functions.
 */
module Legacy {
  import opened Base
  import opened Dicts
  import opened Text
  import opened Json
  import opened Schema
  import opened Oracles
  import opened Insights
  import opened Listing
  import opened Store
  import opened Funda
  import opened Paging

  // ---------------------------------------------------------------- search request

  /** How many components the result list reacts to. */
  const ReactCount: nat := 35

  /** The `i`-th component the result list reacts to, in the order the query lists them. */
  function ReactComponent(i: nat): string
    requires i < ReactCount
  {
    [
      "selected_area", "offering_type", "sort", "price", "floor_area", "plot_area", "bedrooms",
      "rooms", "exterior_space_garden_size", "garage_capacity", "publication_date", "object_type",
      "availability", "construction_type", "construction_period", "surrounding", "garage_type",
      "exterior_space_type", "exterior_space_garden_orientation", "energy_label", "zoning",
      "amenities", "type", "nvm_open_house_day", "free_text_search", "agent_id", "map_results",
      "object_type", "object_type_house_orientation", "object_type_house",
      "object_type_apartment_orientation", "object_type_apartment", "object_type_parking",
      "object_type_parking_capacity", "search_result__internal"
    ][i]
  }

  /** The components the result list reacts to. */
  function ReactComponents(): (r: seq<string>)
    ensures |r| == ReactCount && forall i :: 0 <= i < ReactCount ==> r[i] == ReactComponent(i)
  {
    seq(ReactCount, i requires 0 <= i < ReactCount => ReactComponent(i))
  }

  /** How many `_source` fields the query asks for. */
  const IncludeCount: nat := 48

  /** The `i`-th `_source` field the query asks for. */
  function SourceInclude(i: nat): string
    requires i < IncludeCount
  {
    [
      "availability", "address", "agent", "available_media_types", "placement_type",
      "construction_date_range", "energy_label", "floor_area", "floor_area_range",
      "handover_date_range", "id", "name", "number_of_bedrooms", "number_of_rooms",
      "object_detail_page_relative_url", "offering_type", "open_house_datetime_slot", "plot_area",
      "plot_area_range", "price", "project", "publish_date", "sale_date_range", "status", "type",
      "object_type", "selected_area", "description", "offering_type", "exterior_space_garden_size",
      "garage_capacity", "garage_type", "object_type", "availability", "construction_type",
      "construction_period", "surrounding", "exterior_space_type",
      "exterior_space_garden_orientation", "zoning", "amenities", "map_results",
      "object_type_house_orientation", "object_type_house", "object_type_apartment_orientation",
      "object_type_apartment", "object_type_parking", "object_type_parking_capacity"
    ][i]
  }

  /** The `_source` fields the query asks for. */
  function SourceIncludes(): (r: seq<string>)
    ensures |r| == IncludeCount && forall i :: 0 <= i < IncludeCount ==> r[i] == SourceInclude(i)
  {
    seq(IncludeCount, i requires 0 <= i < IncludeCount => SourceInclude(i))
  }

  /** A list of strings as a JSON array. */
  function Strs(ss: seq<string>): (r: seq<Value>)
    ensures |r| == |ss| && forall i :: 0 <= i < |ss| ==> r[i] == Str(ss[i])
  {
    seq(|ss|, i requires 0 <= i < |ss| => Str(ss[i]))
  }

  /** How many entries the response filter excludes. */
  const FilterCount: nat := 8

  /** The `i`-th path the response filter excludes. */
  function FilterEntry(i: nat): string
    requires i < FilterCount
  {
    [
      "-responses.aggregations.results.grid.buckets.global_ids.hits.hits._source",
      "-responses._shards",
      "-responses.aggregations.results.doc_count",
      "-responses.**._index",
      "-responses.**._score",
      "-responses.**.doc_count_error_upper_bound",
      "-responses.**.sum_other_doc_count",
      "-responses.**._source.address.identifiers"
    ][i]
  }

  /** The response filter both the URL and the settings carry: its entries, comma-separated. */
  function FilterPath(): string {
    Join(",", seq(FilterCount, i requires 0 <= i < FilterCount => FilterEntry(i)))
  }

  /** `query["settings"]` */
  function Settings(): Value {
    Obj([
      ("recordAnalytics", Bool(false)),
      ("enableQueryRules", Bool(true)),
      ("emptyQuery", Bool(true)),
      ("suggestionAnalytics", Bool(false)),
      ("queryParams", Obj([("preference", Str("_local")), ("filter_path", Str(FilterPath()))]))])
  }

  /** The result block's `defaultQuery`: total hits tracked, a 3s timeout, the sort order and the fields. */
  function DefaultQuery(): Value {
    Obj([
      ("track_total_hits", Bool(true)),
      ("timeout", Str("3s")),
      ("sort", Arr([
        Obj([("publish_date", Str("desc"))]),
        Obj([("placement_type", Str("asc"))]),
        Obj([("relevancy_sort_order", Str("desc"))]),
        Obj([("id.number", Str("desc"))])])),
      ("_source", Obj([("includes", Arr(Strs(SourceIncludes())))]))])
  }

  /** The `search_result` block: one page of `size` hits starting at `from`. */
  function SearchResultBlock(size: int, from: int): Value {
    Obj([
      ("id", Str("search_result")),
      ("type", Str("search")),
      ("dataField", Arr([Str("availability")])),
      ("execute", Bool(true)),
      ("react", Obj([("and", Arr(Strs(ReactComponents())))])),
      ("size", Int(size)),
      ("from", Int(from)),
      ("defaultQuery", DefaultQuery())])
  }

  /** The `selected_area` block: the postal code's area and the radius, both formatted with `str`. */
  function LocationBlock(pc: Value, km: Value, show: Value -> string): Value {
    Obj([
      ("id", Str("selected_area")),
      ("type", Str("term")),
      ("dataField", Arr([Str("reactive_component_field")])),
      ("execute", Bool(true)),
      ("customQuery", Obj([
        ("id", Str("location-radius-query-v2")),
        ("params", Obj([
          ("searchField", Str("location")),
          ("geoIndex", Str("geo-wonen-alias-prod")),
          ("locationIdentifier", Str(Render(pc, show) + "-0")),
          ("radiusField", Str("area_with_radius." + Render(km, show)))]))]))])
  }

  /** The `publication_date` block: listings published between `pd` and now. */
  function PublicationBlock(pd: string): Value {
    Obj([
      ("id", Str("publication_date")),
      ("type", Str("term")),
      ("dataField", Arr([Str("publish_date_utc")])),
      ("execute", Bool(false)),
      ("customQuery", Obj([
        ("id", Str("publish-date-query-v2")),
        ("params", Obj([("date_to", Str("now")), ("date_from", Str(pd))]))]))])
  }

  /** The `offering_type` block: buy or rent. */
  function OfferingBlock(offering: string): Value {
    Obj([
      ("id", Str("offering_type")),
      ("type", Str("term")),
      ("dataField", Arr([Str("offering_type")])),
      ("execute", Bool(false)),
      ("defaultQuery", Obj([("timeout", Str("500ms"))])),
      ("value", Str(offering))])
  }

  /** The publication filter that adds no block. */
  const NoPreference: string := "no_preference"
  /** The offering type that adds no block. */
  const AllOfferings: string := "all"

  /** `query["query"]` once both conditional appends have run. */
  function QueryBlocks(pc: Value, km: Value, pd: string, offering: string, start: int, size: int, show: Value -> string): seq<Value> {
    [SearchResultBlock(size, start), LocationBlock(pc, km, show)]
      + (if pd != NoPreference then [PublicationBlock(pd)] else [])
      + (if offering != AllOfferings then [OfferingBlock(offering)] else [])
  }

  /** The JSON body `get_results` posts. */
  function Query(pc: Value, km: Value, pd: string, offering: string, start: int, size: int, show: Value -> string): Value {
    Obj([("settings", Settings()), ("query", Arr(QueryBlocks(pc, km, pd, offering, start, size, show)))])
  }

  /** The query literal, then the two conditional `query["query"].append(...)` calls. */
  method BuildQuery(pc: Value, km: Value, pd: string, offering: string, start: int, size: int, show: Value -> string)
    returns (query: Value)
    ensures query == Query(pc, km, pd, offering, start, size, show)
  {
    var blocks := [SearchResultBlock(size, start), LocationBlock(pc, km, show)];
    if pd != NoPreference {
      blocks := blocks + [PublicationBlock(pd)];
    }
    if offering != AllOfferings {
      blocks := blocks + [OfferingBlock(offering)];
    }
    assert blocks == QueryBlocks(pc, km, pd, offering, start, size, show);
    query := Obj([("settings", Settings()), ("query", Arr(blocks))]);
  }

  /** `q["id"]` of a block. */
  function BlockId(block: Value): Option<Value> {
    Index(block, "id")
  }

  /** Some block of `blocks` has the id `id`. */
  predicate HasBlock(blocks: seq<Value>, id: string) {
    exists i :: 0 <= i < |blocks| && BlockId(blocks[i]) == Some(Str(id))
  }

  /** Every block opens with its id. */
  lemma BlockIds(pc: Value, km: Value, pd: string, offering: string, size: int, start: int, show: Value -> string)
    ensures BlockId(SearchResultBlock(size, start)) == Some(Str("search_result"))
    ensures BlockId(LocationBlock(pc, km, show)) == Some(Str("selected_area"))
    ensures BlockId(PublicationBlock(pd)) == Some(Str("publication_date"))
    ensures BlockId(OfferingBlock(offering)) == Some(Str("offering_type"))
  {
  }

  /** The query holds the settings and, under "query", the blocks. */
  lemma QuerySections(pc: Value, km: Value, pd: string, offering: string, start: int, size: int, show: Value -> string)
    ensures var q := Query(pc, km, pd, offering, start, size, show);
      && Index(q, "settings") == Some(Settings())
      && Index(q, "query") == Some(Arr(QueryBlocks(pc, km, pd, offering, start, size, show)))
  {
    var q := Query(pc, km, pd, offering, start, size, show);
    LookupFirst(q.fields, 1, "query");
  }

  /**
   * The result block comes first, the location block second, then a
   * publication block exactly when a period is chosen, then an offering block
   * exactly when the type is not "all".
   */
  lemma QueryShape(pc: Value, km: Value, pd: string, offering: string, start: int, size: int, show: Value -> string)
    ensures var b := QueryBlocks(pc, km, pd, offering, start, size, show);
      && |b| == 2 + (if pd != NoPreference then 1 else 0) + (if offering != AllOfferings then 1 else 0)
      && b[0] == SearchResultBlock(size, start) && b[1] == LocationBlock(pc, km, show)
      && (pd != NoPreference ==> b[2] == PublicationBlock(pd))
      && (offering != AllOfferings ==> b[|b| - 1] == OfferingBlock(offering))
  {
  }

  /** Blocks with these ids in this arrangement hold a publication block exactly when `c1`, an offering block exactly when `c2`. */
  lemma ArrangedBlocks(a: Value, l: Value, p: Value, o: Value, c1: bool, c2: bool)
    requires BlockId(a) == Some(Str("search_result")) && BlockId(l) == Some(Str("selected_area"))
    requires BlockId(p) == Some(Str("publication_date")) && BlockId(o) == Some(Str("offering_type"))
    ensures var b := [a, l] + (if c1 then [p] else []) + (if c2 then [o] else []);
      && (HasBlock(b, "publication_date") <==> c1)
      && (HasBlock(b, "offering_type") <==> c2)
  {
    var b := [a, l] + (if c1 then [p] else []) + (if c2 then [o] else []);
    if c1 {
      assert BlockId(b[2]) == Some(Str("publication_date"));
    }
    if c2 {
      assert BlockId(b[|b| - 1]) == Some(Str("offering_type"));
    }
  }

  /** A publication block is sent exactly when the filter is not "no_preference", an offering block exactly when the type is not "all". */
  lemma QueryFilters(pc: Value, km: Value, pd: string, offering: string, start: int, size: int, show: Value -> string)
    ensures var b := QueryBlocks(pc, km, pd, offering, start, size, show);
      && (HasBlock(b, "publication_date") <==> pd != NoPreference)
      && (HasBlock(b, "offering_type") <==> offering != AllOfferings)
  {
    BlockIds(pc, km, pd, offering, size, start, show);
    ArrangedBlocks(SearchResultBlock(size, start), LocationBlock(pc, km, show), PublicationBlock(pd), OfferingBlock(offering),
      pd != NoPreference, offering != AllOfferings);
  }

  /** The result block, the first with id "search_result", pages with `from` = start index and `size` = page size. */
  lemma SearchResultPaging(size: int, start: int)
    ensures var block := SearchResultBlock(size, start);
      && Index(block, "from") == Some(Int(start))
      && Index(block, "size") == Some(Int(size))
  {
    var fs := SearchResultBlock(size, start).fields;
    LookupFirst(fs, 5, "size");
    LookupFirst(fs, 6, "from");
  }

  /** `block["customQuery"]["params"]` */
  function ParamsOf(block: Value): Option<Value> {
    var cq :- Index(block, "customQuery");
    Index(cq, "params")
  }

  /** The location is "{pc}-0" and the radius field "area_with_radius.{km}", with no fallback for a falsy radius. */
  lemma LocationParams(pc: Value, km: Value, show: Value -> string)
    ensures var ps := ParamsOf(LocationBlock(pc, km, show));
      && ps.Some?
      && Index(ps.value, "locationIdentifier") == Some(Str(Render(pc, show) + "-0"))
      && Index(ps.value, "radiusField") == Some(Str("area_with_radius." + Render(km, show)))
  {
    var fs := LocationBlock(pc, km, show).fields;
    LookupFirst(fs, 4, "customQuery");
    var cq := fs[4].1.fields;
    LookupFirst(cq, 1, "params");
    var ps := cq[1].1.fields;
    LookupFirst(ps, 2, "locationIdentifier");
    LookupFirst(ps, 3, "radiusField");
  }

  /** Where the current version falls back to one kilometre, the older query writes "None" into the path. */
  lemma LocationRadiusNone(pc: Value, show: Value -> string)
    ensures ParamsOf(LocationBlock(pc, Null, show)).Some?
    ensures Index(ParamsOf(LocationBlock(pc, Null, show)).value, "radiusField") == Some(Str("area_with_radius.None"))
    ensures RadiusPath(Null, show) == "area_with_radius.1"
  {
    LocationParams(pc, Null, show);
    RadiusPathFallback(Null, show);
    assert "area_with_radius." + Render(Null, show) == "area_with_radius.None";
  }

  /** The publication block filters from `pd` to now, the offering block on the type as given. */
  lemma FilterParams(pd: string, offering: string)
    ensures var ps := ParamsOf(PublicationBlock(pd));
      && ps.Some?
      && Index(ps.value, "date_from") == Some(Str(pd))
      && Index(ps.value, "date_to") == Some(Str("now"))
    ensures Index(OfferingBlock(offering), "value") == Some(Str(offering))
  {
    var fs := PublicationBlock(pd).fields;
    LookupFirst(fs, 4, "customQuery");
    var cq := fs[4].1.fields;
    LookupFirst(cq, 1, "params");
    var ps := cq[1].1.fields;
    LookupFirst(ps, 1, "date_from");
    LookupFirst(OfferingBlock(offering).fields, 5, "value");
  }

  /** `get_results(...)`: one POST of the query; any status but 200 raises. */
  function LegacyGetResults(g: Globals, pc: Value, km: Value, pd: string, offering: string, start: int, size: int, env: Env): (f: Fetched)
    ensures f.g == SentQuery(g, Query(pc, km, pd, offering, start, size, env.show))
  {
    var query := Query(pc, km, pd, offering, start, size, env.show);
    var res := env.legacySearch(query);
    Fetched(if res.status == 200 then Ok(res.body) else Err(SearchFailed(res.status, res.text)), SentQuery(g, query))
  }

  /**
   * The call raises exactly on a status other than 200, with that status and
   * the response text in its message; otherwise it returns the decoded body.
   */
  lemma LegacyGetResultsRaises(g: Globals, pc: Value, km: Value, pd: string, offering: string, start: int, size: int, env: Env)
    ensures var res := env.legacySearch(Query(pc, km, pd, offering, start, size, env.show));
      var f := LegacyGetResults(g, pc, km, pd, offering, start, size, env);
      && (f.result.Err? <==> res.status != 200)
      && (f.result.Ok? ==> f.result.value == res.body)
      && (f.result.Err? ==>
            && f.result.error == SearchFailed(res.status, res.text)
            && Contains(SearchFailureMessage(res.status, res.text), IntToDecimal(res.status))
            && Contains(SearchFailureMessage(res.status, res.text), res.text))
  {
    var res := env.legacySearch(Query(pc, km, pd, offering, start, size, env.show));
    SearchFailureMessageContents(res.status, res.text);
  }

  // ---------------------------------------------------------------- enrichment and parsing

  /** A hit's outcome: its row when it is kept, and the module state after its requests. */
  datatype Handled = Handled(row: Option<Row>, g: Globals)

  /**
   * The steps after the literal: the neighbourhood lookup (uncached here) drops
   * the listing when it raises or its payload has no `get`; then the listing
   * insights are always asked for, and their try block never drops it.
   */
  function LegacyEnrich(g: Globals, row: Row, env: Env): Handled {
    match (Lookup(row, AddressCity), Lookup(row, AddressNeighbourhood))
    case (Some(city), Some(nb)) =>
      var f := FetchNeighbourhood(g, city, nb, env);
      if f.result.Err? || !f.result.value.Obj? then Handled(None, f.g)
      else
        var r1 := WithNeighbourhood(row, f.result.value);
        (match Lookup(r1, ListingId)
         case None => Handled(Some(r1), f.g)
         case Some(id) =>
           var l := FetchListing(f.g, id, env);
           Handled(Some(WithListingInsights(r1, l.result)), l.g))
    case _ => Handled(None, g)
  }

  /** One iteration of the loop over the hits, given the hit's flattened row or `None`. */
  function LegacyProcessListing(g: Globals, flat: Option<Row>, env: Env): Handled {
    match flat
    case None => Handled(None, g)
    case Some(row) => LegacyEnrich(g, row, env)
  }

  /** Each hit flattened on its own by the older literal. */
  function LegacyFlats(hits: seq<Value>, show: Value -> string): (r: seq<Option<Row>>)
    ensures |r| == |hits| && forall i :: 0 <= i < |hits| ==> r[i] == LegacyFlatten(hits[i], show)
  {
    seq(|hits|, i requires 0 <= i < |hits| => LegacyFlatten(hits[i], show))
  }

  /** The rows the loop appends and the state it leaves. */
  datatype Gathered = Gathered(rows: seq<Row>, g: Globals)

  function LegacyParseHits(g: Globals, flats: seq<Option<Row>>, env: Env): Gathered
    decreases |flats|
  {
    if flats == [] then Gathered([], g)
    else
      var before := LegacyParseHits(g, flats[..|flats| - 1], env);
      var p := LegacyProcessListing(before.g, flats[|flats| - 1], env);
      Gathered(before.rows + if p.row.Some? then [p.row.value] else [], p.g)
  }

  /** `results_object["search_result"]["hits"]["hits"]` */
  function LegacyHits(results: Value): Option<Value> {
    var block :- Index(results, "search_result");
    var hits :- Index(block, "hits");
    Index(hits, "hits")
  }

  /**
   * The older `parse_funda_results(results_object)`: a missing hits path
   * raises, and so does a hits value without a length.
   */
  function LegacyParse(g: Globals, results: Value, env: Env): (r: Result<Gathered, Error>)
    ensures r.Err? <==> LegacyHits(results).None? || Size(LegacyHits(results).value).None?
  {
    match LegacyHits(results)
    case None => Err(HitsMissing(results))
    case Some(hits) =>
      match Elements(hits)
      case None => Err(NotSized(hits))
      case Some(items) => Ok(LegacyParseHits(g, LegacyFlats(items, env.show), env))
  }

  // ---------------------------------------------------------------- properties of parsing

  /** The neighbourhood lookup a row triggers, when the row has both address fields. */
  function LegacyNeighbourhoodOf(g: Globals, row: Row, env: Env): Option<Fetched> {
    match (Lookup(row, AddressCity), Lookup(row, AddressNeighbourhood))
    case (Some(city), Some(nb)) => Some(FetchNeighbourhood(g, city, nb, env))
    case _ => None
  }

  /** A row is kept exactly when its neighbourhood lookup answers with a dict; the listing insights never drop it. */
  lemma LegacyEnrichKeeps(g: Globals, row: Row, env: Env)
    ensures var n := LegacyNeighbourhoodOf(g, row, env);
      LegacyEnrich(g, row, env).row.Some? <==> n.Some? && n.value.result.Ok? && n.value.result.value.Obj?
  {
  }

  /** A kept row with a listing id always ends with a request for that listing's insights, whatever it answers. */
  lemma LegacyAlwaysAsksInsights(g: Globals, row: Row, env: Env)
    requires LegacyEnrich(g, row, env).row.Some? && Lookup(row, ListingId).Some?
    ensures var rs := LegacyEnrich(g, row, env).g.requests;
      |rs| > 0 && rs[|rs| - 1] == ListingPage(Render(Lookup(row, ListingId).value, env.show))
  {
    var n := LegacyNeighbourhoodOf(g, row, env).value;
    LegacyEnrichSteps(g, row, n, env);
  }

  /** How a row whose neighbourhood lookup answered `n` with a dict is built. */
  lemma LegacyEnrichSteps(g: Globals, row: Row, n: Fetched, env: Env)
    requires LegacyNeighbourhoodOf(g, row, env) == Some(n) && n.result.Ok? && n.result.value.Obj?
    ensures var r1 := WithNeighbourhood(row, n.result.value);
      && Lookup(r1, ListingId) == Lookup(row, ListingId)
      && (Lookup(row, ListingId).None? ==> LegacyEnrich(g, row, env) == Handled(Some(r1), n.g))
      && (Lookup(row, ListingId).Some? ==>
            var l := FetchListing(n.g, Lookup(row, ListingId).value, env);
            LegacyEnrich(g, row, env) == Handled(Some(WithListingInsights(r1, l.result)), l.g))
  {
    assert Lookup(WithNeighbourhood(row, n.result.value), ListingId) == Lookup(row, ListingId);
  }



  /** The two enrichment steps on a row that has none of their columns append their entries. */
  lemma EnrichedRow(row: Row, payload: Value, insights: Result<Value, Error>)
    requires Unenriched(row) && payload.Obj?
    ensures var r1 := WithNeighbourhood(row, payload);
      && r1 == row + NeighbourhoodEntries(payload)
      && Lookup(r1, ListingId) == Lookup(row, ListingId)
      && WithListingInsights(r1, insights) == row + NeighbourhoodEntries(payload) + InsightEntries(insights)
  {
    var e := NeighbourhoodEntries(payload);
    WithNeighbourhoodAppends(row, payload);
    var r1 := row + e;
    assert Lookup(r1, ListingId) == Lookup(row, ListingId) by {
      LookupAppend(row, e, ListingId);
      assert Keys(e) == [NeighbourhoodInhabitants, NeighbourhoodAvgAskingpriceM2, NeighbourhoodFamiliesWithChildrenPct];
    }
    assert ListingNrOfViews !in Keys(r1) && ListingNrOfSaves !in Keys(r1) by {
      KeysAppend(row, e);
    }
    WithListingInsightsAppends(r1, insights);
  }

  /**
   * A kept row is the literal's row, then the three neighbourhood fields read
   * from the payload (None where absent), then whatever listing insights were
   * read from the request that is always sent for a row with an id.
   */
  lemma LegacyEnrichShape(g: Globals, row: Row, env: Env)
    requires Unenriched(row)
    requires LegacyEnrich(g, row, env).row.Some?
    ensures var n := LegacyNeighbourhoodOf(g, row, env);
      && n.Some? && n.value.result.Ok? && n.value.result.value.Obj?
      && var r1 := row + NeighbourhoodEntries(n.value.result.value);
         var out := LegacyEnrich(g, row, env).row.value;
         && (Lookup(row, ListingId).None? ==> out == r1)
         && (Lookup(row, ListingId).Some? ==>
               out == r1 + InsightEntries(FetchListing(n.value.g, Lookup(row, ListingId).value, env).result))
  {
    var n := LegacyNeighbourhoodOf(g, row, env).value;
    LegacyEnrichSteps(g, row, n, env);
    var ins := if Lookup(row, ListingId).Some? then FetchListing(n.g, Lookup(row, ListingId).value, env).result else Err(Unhashable);
    EnrichedRow(row, n.result.value, ins);
  }

  /** A kept hit's row split into the flattened listing and the two kinds of appended entries. */
  lemma LegacyKeptRowParts(g: Globals, r0: Row, env: Env) returns (e: Row, ins: Row)
    requires Keys(r0) == ListingColumns() && LegacyEnrich(g, r0, env).row.Some?
    ensures LegacyEnrich(g, r0, env).row.value == r0 + e + ins
    ensures |e| == 3 && Keys(e) == NeighbourhoodColumns()
    ensures Keys(ins) == [] || Keys(ins) == [ListingNrOfViews] || Keys(ins) == [ListingNrOfViews, ListingNrOfSaves]
  {
    ListingRowClean(r0);
    LegacyEnrichShape(g, r0, env);
    var n := LegacyNeighbourhoodOf(g, r0, env).value;
    e := NeighbourhoodEntries(n.result.value);
    ins := if Lookup(r0, ListingId).Some?
      then InsightEntries(FetchListing(n.g, Lookup(r0, ListingId).value, env).result) else [];
  }

  /**
   * A hit the older `parse_funda_results` keeps flattened, and its row starts
   * with the flattened listing, has the three neighbourhood columns next, at
   * most the two insight columns after them, and no duplicate, tag or metadata column.
   */
  lemma LegacyKeptRow(g: Globals, flat: Option<Row>, env: Env)
    requires FlatRow(flat) && LegacyProcessListing(g, flat, env).row.Some?
    ensures var out := LegacyProcessListing(g, flat, env).row.value;
      && RowOfHit(out, flat)
      && Keys(out)[..48] == ListingColumns() + NeighbourhoodColumns()
  {
    var r0 := flat.value;
    ListingColumnsSlices();
    ListingRowClean(r0);
    var e, ins := LegacyKeptRowParts(g, r0, env);
    EnrichedKeys(r0, e, ins);
    PrefixesOfThree(r0, e, ins);
    PrefixesOfThree(ListingColumns(), NeighbourhoodColumns(), Keys(ins));
  }

  /** Every hit the older literal flattens has the 45 listing columns, in order. */
  lemma LegacyFlatsRows(hits: seq<Value>, show: Value -> string)
    ensures forall i :: 0 <= i < |hits| ==> FlatRow(LegacyFlats(hits, show)[i])
  {
    forall i | 0 <= i < |hits| ensures FlatRow(LegacyFlats(hits, show)[i]) {
      if LegacyFlatten(hits[i], show).Some? {
        LegacyFlattenLookup(hits[i], show, ListingId);
      }
    }
  }

  /** The loop keeps some of the hits, in their order, one row each; `k` lists the positions of the kept hits. */
  lemma {:induction false} LegacyParseHitsRows(g: Globals, flats: seq<Option<Row>>, env: Env) returns (k: seq<int>)
    requires forall i :: 0 <= i < |flats| ==> FlatRow(flats[i])
    ensures RowsOfHits(LegacyParseHits(g, flats, env).rows, k, flats)
    decreases |flats|
  {
    if flats == [] {
      k := [];
    } else {
      var n := |flats| - 1;
      var kb := LegacyParseHitsRows(g, flats[..n], env);
      var before := LegacyParseHits(g, flats[..n], env);
      var p := LegacyProcessListing(before.g, flats[n], env);
      if p.row.Some? {
        LegacyKeptRow(before.g, flats[n], env);
      }
      k := kb + if p.row.Some? then [n] else [];
      RowsOfHitsSnoc(before.rows, kb, flats, p.row);
    }
  }

  /**
   * The older `parse_funda_results` on a well-formed response: its rows come
   * from the hits at the increasing positions `k`, each row starting with its
   * hit's flattened listing; a hit that does not flatten yields no row.
   */
  lemma LegacyParseRows(g: Globals, results: Value, env: Env) returns (k: seq<int>)
    requires LegacyParse(g, results, env).Ok?
    ensures var hits := Elements(LegacyHits(results).value).value;
      && RowsOfHits(LegacyParse(g, results, env).value.rows, k, LegacyFlats(hits, env.show))
      && forall i :: 0 <= i < |hits| && LegacyFlatten(hits[i], env.show).None? ==> i !in k
  {
    var hits := Elements(LegacyHits(results).value).value;
    var flats := LegacyFlats(hits, env.show);
    LegacyFlatsRows(hits, env.show);
    k := LegacyParseHitsRows(g, flats, env);
    forall i, j | 0 <= i < |hits| && LegacyFlatten(hits[i], env.show).None? && 0 <= j < |k| ensures k[j] != i {
      assert RowOfHit(LegacyParse(g, results, env).value.rows[j], flats[k[j]]);
    }
  }

  /** Every parsed row is ready to be tagged: distinct columns, none of them the tag or metadata. */
  lemma LegacyParsedRowsUntagged(g: Globals, results: Value, env: Env)
    requires LegacyParse(g, results, env).Ok?
    ensures forall row :: row in LegacyParse(g, results, env).value.rows ==> Untagged(row) && row != []
  {
    var hits := Elements(LegacyHits(results).value).value;
    var rows := LegacyParse(g, results, env).value.rows;
    var k := LegacyParseRows(g, results, env);
    forall row | row in rows ensures Untagged(row) && row != [] {
      var j :| 0 <= j < |rows| && rows[j] == row;
      assert RowOfHit(rows[j], LegacyFlats(hits, env.show)[k[j]]);
    }
  }

  // ---------------------------------------------------------------- the pagination loop of `cli`

  /** `page_size = 100`; the offset also moves on by this literal 100. */
  const PageSize: int := 100

  /** `res["search_result"]["hits"]["total"]["value"]` */
  function LegacyTotalOf(res: Value): Option<Value> {
    var block :- Index(res, "search_result");
    var hits :- Index(block, "hits");
    var total :- Index(hits, "total");
    Index(total, "value")
  }

  /** The response to the request one iteration sends: every offering type, pages of 100. */
  function LegacyPageResponse(r: Run<Globals>, pc: Value, km: Value, pd: string, env: Env): Response {
    env.legacySearch(Query(pc, km, pd, AllOfferings, r.processed, PageSize, env.show))
  }

  /** The body of the while loop: the request, then what `LegacyPageStep` does with a 200 response. */
  function LegacyTrackStep(r: Run<Globals>, pc: Value, km: Value, pd: string, env: Env): Step<Globals> {
    var f := LegacyGetResults(r.s, pc, km, pd, AllOfferings, r.processed, PageSize, env);
    match f.result
    case Err(e) => Stop(Raised(e), r.(s := f.g))
    case Ok(res) => LegacyPageStep(r.(s := f.g), res, pc, km, pd, env)
  }

  /** The total is read in its own try block; a zero total returns; otherwise the page is stored. */
  function LegacyPageStep(r: Run<Globals>, res: Value, pc: Value, km: Value, pd: string, env: Env): Step<Globals> {
    match LegacyTotalOf(res)
    case None => Stop(Raised(TotalMissing(res)), r)
    case Some(total) =>
      if EqualsZero(total) then Stop(NoResults, r.(total := total))
      else LegacyStorePage(r.(total := total), res, pc, km, pd, env)
  }

  /** The page parsed, its rows tagged and stored, and the offset moved on by 100 whatever the page held. */
  function LegacyStorePage(r: Run<Globals>, res: Value, pc: Value, km: Value, pd: string, env: Env): Step<Globals> {
    match LegacyParse(r.s, res, env)
    case Err(e) => Stop(Raised(e), r)
    case Ok(p) =>
      var rows := TagAll(p.rows, SearchTag(pc, km, pd, env.show));
      Continue(Run(p.g, StoreAll(r.t, rows, env), r.processed + PageSize, r.total))
  }

  /** The body of the while loop as a function of the loop's state. */
  function LegacyIteration(pc: Value, km: Value, pd: string, env: Env): Run<Globals> -> Step<Globals> {
    r => LegacyTrackStep(r, pc, km, pd, env)
  }

  /** `step` is the older loop body for `pc`, `km` and `pd`, usable where the body is unfolded. */
  ghost predicate IsLegacyIteration(step: Run<Globals> -> Step<Globals>, pc: Value, km: Value, pd: string, env: Env) {
    forall x: Run<Globals> {:trigger LegacyTrackStep(x, pc, km, pd, env)} :: step(x) == LegacyTrackStep(x, pc, km, pd, env)
  }

  lemma LegacyIterationIsIteration(pc: Value, km: Value, pd: string, env: Env)
    ensures IsLegacyIteration(LegacyIteration(pc, km, pd, env), pc, km, pd, env)
  {
  }

  /** The loop of `cli()` for `--postal_code`, `--km_radius` and `--publication_date`. */
  function LegacyCli(g: Globals, t: Table, fuel: nat, pc: Value, km: Value, pd: string, env: Env): Tracked<Globals> {
    TrackLoop(InitialRun(g, t), fuel, LegacyIteration(pc, km, pd, env))
  }

  // ---------------------------------------------------------------- properties of the `cli` loop

  /** Storing a page goes on exactly when the page parses, and then moves the offset on by 100. */
  lemma LegacyStorePageFacts(r: Run<Globals>, res: Value, pc: Value, km: Value, pd: string, env: Env)
    ensures var step := LegacyStorePage(r, res, pc, km, pd, env);
      && (step.Continue? <==> LegacyParse(r.s, res, env).Ok?)
      && Reached(step).processed == (if step.Continue? then r.processed + PageSize else r.processed)
      && Reached(step).total == r.total
      && (step.Stop? ==> step.outcome.Raised? && step.last.t == r.t)
  {
  }

  /** What the rest of the body does with a 200 response `res`. */
  lemma LegacyPageStepFacts(r: Run<Globals>, res: Value, pc: Value, km: Value, pd: string, env: Env)
    ensures var step := LegacyPageStep(r, res, pc, km, pd, env);
      && (step.Continue? ==>
            LegacyTotalOf(res) == Some(step.next.total) && !EqualsZero(step.next.total) && LegacyParse(r.s, res, env).Ok?)
      && Reached(step).processed == (if step.Continue? then r.processed + PageSize else r.processed)
      && ((step.Stop? && step.outcome == NoResults) <==> LegacyTotalOf(res).Some? && EqualsZero(LegacyTotalOf(res).value))
      && (step.Stop? && step.outcome == NoResults ==> EqualsZero(step.last.total) && step.last.t == r.t)
      && StopsOnlyEarly(step)
  {
    match LegacyTotalOf(res)
    case None =>
    case Some(total) =>
      if !EqualsZero(total) {
        LegacyStorePageFacts(r.(total := total), res, pc, km, pd, env);
      }
  }

  /**
   * When an iteration goes on, the response was a 200 with a non-zero total
   * and a parsable page, the total is the one it reported, and the offset
   * grew by exactly 100, however many hits the page held. When it stops, the
   * offset stays where it was.
   */
  lemma LegacyStepAdvances(r: Run<Globals>, pc: Value, km: Value, pd: string, env: Env)
    ensures var res := LegacyPageResponse(r, pc, km, pd, env);
      var step := LegacyTrackStep(r, pc, km, pd, env);
      && (step.Continue? ==>
            && res.status == 200
            && LegacyTotalOf(res.body) == Some(step.next.total) && !EqualsZero(step.next.total)
            && LegacyParse(r.s, res.body, env).Ok?)
      && Reached(step).processed == (if step.Continue? then r.processed + 100 else r.processed)
      && StopsOnlyEarly(step)
  {
    var f := LegacyGetResults(r.s, pc, km, pd, AllOfferings, r.processed, PageSize, env);
    if f.result.Ok? {
      LegacyPageStepFacts(r.(s := f.g), f.result.value, pc, km, pd, env);
    }
  }

  /** An iteration reports no results exactly on a 200 response whose total equals zero, and then stores nothing. */
  lemma LegacyStepNoResults(r: Run<Globals>, pc: Value, km: Value, pd: string, env: Env)
    ensures var step := LegacyTrackStep(r, pc, km, pd, env);
      var res := LegacyPageResponse(r, pc, km, pd, env);
      (step.Stop? && step.outcome == NoResults) <==>
        (res.status == 200 && LegacyTotalOf(res.body).Some? && EqualsZero(LegacyTotalOf(res.body).value))
    ensures var step := LegacyTrackStep(r, pc, km, pd, env);
      step.Stop? && step.outcome == NoResults ==> EqualsZero(step.last.total) && step.last.t == r.t
    ensures StopsOnlyEarly(LegacyTrackStep(r, pc, km, pd, env))
  {
    var f := LegacyGetResults(r.s, pc, km, pd, AllOfferings, r.processed, PageSize, env);
    if f.result.Ok? {
      LegacyPageStepFacts(r.(s := f.g), f.result.value, pc, km, pd, env);
    }
  }
  /** A zero total ends the run at once, and nothing is stored. */
  lemma LegacyZeroTotalStoresNothing(r: Run<Globals>, fuel: nat, pc: Value, km: Value, pd: string, env: Env)
    requires IntLess(r.processed, r.total) == Some(true) && fuel > 0
    requires LegacyPageResponse(r, pc, km, pd, env).status == 200
    requires LegacyTotalOf(LegacyPageResponse(r, pc, km, pd, env).body) == Some(Int(0))
    ensures TrackLoop(r, fuel, LegacyIteration(pc, km, pd, env)).outcome == NoResults
    ensures TrackLoop(r, fuel, LegacyIteration(pc, km, pd, env)).run.t == r.t
  {
    LegacyStepNoResults(r, pc, km, pd, env);
  }

  /** The loop returns normally only once the offset has reached the total, or on a zero total. */
  lemma LegacyCliEnds(g: Globals, t: Table, fuel: nat, pc: Value, km: Value, pd: string, env: Env)
    ensures var e := LegacyCli(g, t, fuel, pc, km, pd, env);
      && (e.outcome == Finished ==> IntLess(e.run.processed, e.run.total) == Some(false))
      && (e.outcome == NoResults ==> EqualsZero(e.run.total))
  {
    forall x: Run<Globals> ensures StopsOnlyEarly(LegacyIteration(pc, km, pd, env)(x)) {
      LegacyStepNoResults(x, pc, km, pd, env);
    }
    LoopEnds(InitialRun(g, t), fuel, LegacyIteration(pc, km, pd, env));
  }

  /** Handling a page keeps every record already stored and tags every record it adds. */
  lemma LegacyPageTagsRecords(r: Run<Globals>, res: Value, pc: Value, km: Value, pd: string, env: Env)
    ensures KeepsAndTags(r.t, Reached(LegacyPageStep(r, res, pc, km, pd, env)).t, SearchTag(pc, km, pd, env.show))
  {
    var step := LegacyPageStep(r, res, pc, km, pd, env);
    if step.Continue? {
      var p := LegacyParse(r.s, res, env).value;
      var q := SearchTag(pc, km, pd, env.show);
      LegacyParsedRowsUntagged(r.s, res, env);
      var rows := TagAll(p.rows, q);
      TagAllRows(p.rows, q);
      StoreAllEffect(r.t, rows, env);
      StoreAllCarries(r.t, rows, env, SearchQuery, Str(q));
    }
  }

  lemma LegacyStepTagsRecords(r: Run<Globals>, pc: Value, km: Value, pd: string, env: Env)
    ensures KeepsAndTags(r.t, Reached(LegacyTrackStep(r, pc, km, pd, env)).t, SearchTag(pc, km, pd, env.show))
  {
    var f := LegacyGetResults(r.s, pc, km, pd, AllOfferings, r.processed, PageSize, env);
    if f.result.Ok? {
      LegacyPageTagsRecords(r.(s := f.g), f.result.value, pc, km, pd, env);
    }
  }

  /** Every turn of a loop whose body is `step` keeps the stored records and tags the new ones. */
  lemma LegacyLoopTagsRecords(r: Run<Globals>, fuel: nat, step: Run<Globals> -> Step<Globals>, pc: Value, km: Value, pd: string, env: Env)
    requires IsLegacyIteration(step, pc, km, pd, env)
    ensures KeepsAndTags(r.t, TrackLoop(r, fuel, step).run.t, SearchTag(pc, km, pd, env.show))
  {
    var q := SearchTag(pc, km, pd, env.show);
    forall x: Run<Globals> ensures KeepsAndTags(x.t, Reached(step(x)).t, q) {
      LegacyStepTagsRecords(x, pc, km, pd, env);
    }
    LoopKeepsAndTags(r, fuel, step, q);
  }

  /** Over a whole run no stored record is changed, and every record the run adds is tagged "pc~km~pd". */
  lemma LegacyCliTagsRecords(g: Globals, t: Table, fuel: nat, pc: Value, km: Value, pd: string, env: Env)
    ensures KeepsAndTags(t, LegacyCli(g, t, fuel, pc, km, pd, env).run.t, SearchTag(pc, km, pd, env.show))
  {
    LegacyIterationIsIteration(pc, km, pd, env);
    LegacyLoopTagsRecords(InitialRun(g, t), fuel, LegacyIteration(pc, km, pd, env), pc, km, pd, env);
  }

  /** The offset is a non-negative multiple of 100: 0, 100, 200, ... */
  predicate OnPageBoundary(r: Run<Globals>) {
    r.processed >= 0 && r.processed % PageSize == 0
  }

  /** A step that moves the offset by 0 or 100 stays on a page boundary. */
  lemma BoundaryAdvance(x: Run<Globals>, s: Step<Globals>)
    requires OnPageBoundary(x)
    requires Reached(s).processed == (if s.Continue? then x.processed + PageSize else x.processed)
    ensures OnPageBoundary(Reached(s))
  {
  }

  /** A loop whose body is `step`, started on a page boundary, ends on one. */
  lemma LegacyLoopOnBoundary(r: Run<Globals>, fuel: nat, step: Run<Globals> -> Step<Globals>, pc: Value, km: Value, pd: string, env: Env)
    requires IsLegacyIteration(step, pc, km, pd, env) && OnPageBoundary(r)
    ensures OnPageBoundary(TrackLoop(r, fuel, step).run)
  {
    forall x: Run<Globals> | OnPageBoundary(x) ensures OnPageBoundary(Reached(step(x))) {
      LegacyStepAdvances(x, pc, km, pd, env);
      BoundaryAdvance(x, step(x));
    }
    LoopPreserves(r, fuel, step, OnPageBoundary);
  }

  /** The loop only ever asks for offsets that are multiples of 100, and it ends on one. */
  lemma LegacyCliOffsets(g: Globals, t: Table, fuel: nat, pc: Value, km: Value, pd: string, env: Env)
    ensures OnPageBoundary(LegacyCli(g, t, fuel, pc, km, pd, env).run)
  {
    LegacyIterationIsIteration(pc, km, pd, env);
    LegacyLoopOnBoundary(InitialRun(g, t), fuel, LegacyIteration(pc, km, pd, env), pc, km, pd, env);
  }

  /** A loop whose body is `step` and whose every response reports the total `T` leaves within ceil(T / 100) turns. */
  lemma LegacyLoopLeavesWithin(r: Run<Globals>, fuel: nat, step: Run<Globals> -> Step<Globals>, pc: Value, km: Value, pd: string, env: Env, T: int)
    requires IsLegacyIteration(step, pc, km, pd, env)
    requires forall q: Value :: LegacyTotalOf(env.legacySearch(q).body).Some? ==> LegacyTotalOf(env.legacySearch(q).body) == Some(Int(T))
    requires r.total.Int? && r.total.i <= r.processed + 100 * fuel && T <= r.processed + 100 * fuel
    ensures TrackLoop(r, fuel, step).outcome != OutOfFuel
  {
    forall x: Run<Globals>
      ensures step(x).Continue? ==> step(x).next.processed >= x.processed + 100 && step(x).next.total == Int(T)
      ensures StopsOnlyEarly(step(x))
    {
      LegacyStepAdvances(x, pc, km, pd, env);
    }
    LoopEndsWithin(r, fuel, step, 100, T);
  }

  /**
   * Unlike the current loop, which asks for the same page again when a page
   * comes back empty, the older loop always moves on: when every response
   * reports the total `T`, it leaves within ceil(T / 100) iterations (at least one).
   */
  lemma LegacyCliLeavesWithin(g: Globals, t: Table, fuel: nat, pc: Value, km: Value, pd: string, env: Env, T: int)
    requires forall q: Value :: LegacyTotalOf(env.legacySearch(q).body).Some? ==> LegacyTotalOf(env.legacySearch(q).body) == Some(Int(T))
    requires fuel >= 1 && T <= 100 * fuel
    ensures LegacyCli(g, t, fuel, pc, km, pd, env).outcome != OutOfFuel
  {
    LegacyIterationIsIteration(pc, km, pd, env);
    LegacyLoopLeavesWithin(InitialRun(g, t), fuel, LegacyIteration(pc, km, pd, env), pc, km, pd, env, T);
  }
}
