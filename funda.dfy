/**
 * The current pipeline (`src/fundatracker/funda.py`): the search request,
 * the `lru_cache`d insight fetchers, `parse_funda_results` with its
 * enrichment steps, and the `tracker` pagination loop that tags and stores
 * every page. The functions state what one call computes; the `Pipeline`
 * class runs the same steps on mutable state and is proved against them.
 */
module Funda {
  import opened Base
  import opened Dicts
  import opened Text
  import opened Json
  import opened Schema
  import opened Oracles
  import opened Lru
  import opened Insights
  import opened Listing
  import opened Store

  // ---------------------------------------------------------------- search request

  /** `publication_date_map.get(publication_date, {})` */
  function PublicationDateMap(pd: string): Value {
    if pd == "now-1d" then Obj([("1", Bool(true))])
    else if pd == "now-3d" then Obj([("3", Bool(true))])
    else if pd == "now-5d" then Obj([("5", Bool(true))])
    else if pd == "now-10d" then Obj([("10", Bool(true))])
    else if pd == "now-30d" then Obj([("30", Bool(true))])
    else Obj([])
  }

  /** The filters the search endpoint knows by name. */
  predicate KnownPeriod(pd: string) {
    pd in {"now-1d", "now-3d", "now-5d", "now-10d", "now-30d"}
  }

  /** "now-Nd" selects the one flag "N"; "no_preference" and every unknown filter select nothing. */
  lemma PublicationDateMapShape(pd: string)
    ensures KnownPeriod(pd) ==> |pd| > 5 && PublicationDateMap(pd) == Obj([(pd[4..|pd| - 1], Bool(true))])
    ensures !KnownPeriod(pd) ==> PublicationDateMap(pd) == Obj([])
  {
    if pd == "now-10d" {
      assert pd[4..|pd| - 1] == "10";
    } else if pd == "now-30d" {
      assert pd[4..|pd| - 1] == "30";
    } else if KnownPeriod(pd) {
      assert pd[4..|pd| - 1] == [pd[4]];
    }
  }

  /** `f"area_with_radius.{km_radius}" if km_radius else "area_with_radius.1"` */
  function RadiusPath(km: Value, show: Value -> string): string {
    "area_with_radius." + if Truthy(km) then Render(km, show) else "1"
  }

  /** A radius of None or 0 falls back to one kilometre; any other radius is written out. */
  lemma RadiusPathFallback(km: Value, show: Value -> string)
    ensures RadiusPath(Null, show) == RadiusPath(Int(0), show) == RadiusPath(Int(1), show) == "area_with_radius.1"
    ensures km.Int? && km.i != 0 ==> RadiusPath(km, show) == "area_with_radius." + IntToDecimal(km.i)
  {
    assert IntToDecimal(1) == "1" by {
      assert NatToDecimal(1) == [DigitChar(1)];
    }
  }

  /** `query_params` */
  function QueryParams(pc: Value, km: Value, pd: string, offering: string, start: int, show: Value -> string): Value {
    Obj([
      ("collapse_projects", Bool(false)),
      ("radius_search", Obj([
        ("index", Str("geo-wonen-alias-prod")),
        ("id", Str(Render(pc, show) + "-0")),
        ("path", Str(RadiusPath(km, show)))])),
      ("offering_type", Str(offering)),
      ("project_phase", Obj([])),
      ("publication_date", PublicationDateMap(pd)),
      ("availability", Arr([Str("available"), Str("negotiations"), Str("unavailable")])),
      ("free_text_search", Str("")),
      ("page", Obj([("from", Int(start))])),
      ("zoning", Arr([Str("residential"), Str("recreational")])),
      ("type", Arr([Str("single"), Str("group")])),
      ("sort", Obj([("field", Null), ("order", Null)])),
      ("open_house", Obj([]))])
  }

  /** The two NDJSON lines posted to the search endpoint, in order. */
  function SearchBody(pc: Value, km: Value, pd: string, offering: string, start: int, show: Value -> string): Value {
    Arr([
      Obj([("index", Str("listings-wonen-searcher-alias-prod"))]),
      Obj([("id", Str("search_result_20250808")), ("params", QueryParams(pc, km, pd, offering, start, show))])])
  }

  /** The second NDJSON line carries the query parameters. */
  lemma SearchBodyParams(pc: Value, km: Value, pd: string, offering: string, start: int, show: Value -> string)
    ensures |SearchBody(pc, km, pd, offering, start, show).items| == 2
    ensures Index(SearchBody(pc, km, pd, offering, start, show).items[1], "params") == Some(QueryParams(pc, km, pd, offering, start, show))
  {
    var line := SearchBody(pc, km, pd, offering, start, show).items[1];
    LookupSkip(line.fields, 1, "params");
  }

  /** The location is the postal code's area and the radius path derived from the radius. */
  lemma QueryParamsLocation(pc: Value, km: Value, pd: string, offering: string, start: int, show: Value -> string)
    ensures var p := QueryParams(pc, km, pd, offering, start, show);
      && Index(p, "radius_search").Some?
      && Index(Index(p, "radius_search").value, "id") == Some(Str(Render(pc, show) + "-0"))
      && Index(Index(p, "radius_search").value, "path") == Some(Str(RadiusPath(km, show)))
  {
    var fs := QueryParams(pc, km, pd, offering, start, show).fields;
    LookupFirst(fs, 1, "radius_search");
    var rs := fs[1].1.fields;
    LookupFirst(rs, 1, "id");
    LookupFirst(rs, 2, "path");
  }

  /** The period and offering filters are passed on as given. */
  lemma QueryParamsFilters(pc: Value, km: Value, pd: string, offering: string, start: int, show: Value -> string)
    ensures var p := QueryParams(pc, km, pd, offering, start, show);
      && Index(p, "publication_date") == Some(PublicationDateMap(pd))
      && Index(p, "offering_type") == Some(Str(offering))
  {
    var fs := QueryParams(pc, km, pd, offering, start, show).fields;
    LookupFirst(fs, 2, "offering_type");
    LookupFirst(fs, 4, "publication_date");
  }

  /** The page starts at the offset and carries no size. */
  lemma QueryParamsPage(pc: Value, km: Value, pd: string, offering: string, start: int, show: Value -> string)
    ensures var p := QueryParams(pc, km, pd, offering, start, show);
      && Index(p, "page") == Some(Obj([("from", Int(start))]))
      && Index(Index(p, "page").value, "from") == Some(Int(start))
      && !Has(Index(p, "page").value, "size")
  {
    var fs := QueryParams(pc, km, pd, offering, start, show).fields;
    LookupFirst(fs, 7, "page");
  }

  /** Pages of one search differ only in their offset, and the offset determines the page. */
  lemma SearchBodyPages(pc: Value, km: Value, pd: string, offering: string, a: int, b: int, show: Value -> string)
    ensures SearchBody(pc, km, pd, offering, a, show) == SearchBody(pc, km, pd, offering, b, show) <==> a == b
  {
    if SearchBody(pc, km, pd, offering, a, show) == SearchBody(pc, km, pd, offering, b, show) {
      var p := QueryParams(pc, km, pd, offering, a, show);
      var q := QueryParams(pc, km, pd, offering, b, show);
      assert p.fields[7] == q.fields[7];
    }
  }

  /** The text of the exception a non-200 search response raises. */
  function SearchFailureMessage(status: int, text: string): string {
    "Failed to get results from funda. Status code: " + IntToDecimal(status) + ". Response: " + text
  }

  /** The message carries the status code and the response body. */
  lemma SearchFailureMessageContents(status: int, text: string)
    ensures Contains(SearchFailureMessage(status, text), IntToDecimal(status))
    ensures Contains(SearchFailureMessage(status, text), text)
  {
    var m := SearchFailureMessage(status, text);
    var pre := "Failed to get results from funda. Status code: ";
    var d := IntToDecimal(status);
    assert OccursAt(m, d, |pre|) by {
      assert m[|pre|..|pre| + |d|] == d;
    }
    var k := |m| - |text|;
    assert OccursAt(m, text, k) by {
      assert m[k..k + |text|] == text;
    }
  }

  /** `get_results(...)`: one POST; any status but 200 raises. */
  function GetResults(g: Globals, pc: Value, km: Value, pd: string, offering: string, start: int, env: Env): (f: Fetched)
    ensures f.g == Sent(g, SearchBody(pc, km, pd, offering, start, env.show))
  {
    var body := SearchBody(pc, km, pd, offering, start, env.show);
    var res := env.search(body);
    Fetched(if res.status == 200 then Ok(res.body) else Err(SearchFailed(res.status, res.text)), Sent(g, body))
  }

  /**
   * `get_results` raises exactly on a status other than 200, with the status
   * code and the response text in its message; otherwise it returns the body.
   */
  lemma GetResultsRaises(g: Globals, pc: Value, km: Value, pd: string, offering: string, start: int, env: Env)
    ensures var res := env.search(SearchBody(pc, km, pd, offering, start, env.show));
      var f := GetResults(g, pc, km, pd, offering, start, env);
      && (f.result.Err? <==> res.status != 200)
      && (f.result.Ok? ==> f.result.value == res.body)
      && (f.result.Err? ==>
            && f.result.error == SearchFailed(res.status, res.text)
            && Contains(SearchFailureMessage(res.status, res.text), IntToDecimal(res.status))
            && Contains(SearchFailureMessage(res.status, res.text), res.text))
  {
    var res := env.search(SearchBody(pc, km, pd, offering, start, env.show));
    SearchFailureMessageContents(res.status, res.text);
  }

  // ---------------------------------------------------------------- memoised insights

  /** `@lru_cache` without arguments keeps 128 results. */
  const ListingCacheSize: nat := 128
  /** `@lru_cache(maxsize=2400)` */
  const NeighbourhoodCacheSize: nat := 2400

  /** The module globals plus the two function caches. */
  datatype Session = Session(g: Globals, neighbourhoods: Cache<(Value, Value), Value>, listings: Cache<Value, Value>)

  predicate SessionValid(s: Session) {
    && Valid(s.neighbourhoods) && s.neighbourhoods.maxsize == NeighbourhoodCacheSize
    && Valid(s.listings) && s.listings.maxsize == ListingCacheSize
  }

  /** The state of a freshly imported module. */
  function FreshSession(): (s: Session)
    ensures SessionValid(s)
  {
    Session(Globals(map[], []), Empty(NeighbourhoodCacheSize), Empty(ListingCacheSize))
  }

  /** What a memoised call returns (or raises), with the state it leaves. */
  datatype Answer = Answer(result: Result<Value, Error>, s: Session)

  /**
   * `get_neighbourhood_insights` behind its `lru_cache`: the arguments must be
   * hashable; a cached pair answers at once and becomes the most recent entry;
   * otherwise the function runs and a value it returns (`{}` included) is
   * cached, while an exception is not.
   */
  function CachedNeighbourhood(s: Session, city: Value, nb: Value, env: Env): (a: Answer)
    ensures !Hashable(city) || !Hashable(nb) ==> a == Answer(Err(Unhashable), s)
    ensures Hashable(city) && Hashable(nb) && Find(s.neighbourhoods, (city, nb)).Some? ==>
      a.result == Ok(Find(s.neighbourhoods, (city, nb)).value) && a.s.g == s.g
    ensures Hashable(city) && Hashable(nb) && Find(s.neighbourhoods, (city, nb)).None? ==>
      Fetched(a.result, a.s.g) == FetchNeighbourhood(s.g, city, nb, env)
    ensures a.s.listings == s.listings
  {
    if !Hashable(city) || !Hashable(nb) then Answer(Err(Unhashable), s)
    else match Find(s.neighbourhoods, (city, nb))
      case Some(v) => Answer(Ok(v), s.(neighbourhoods := Touch(s.neighbourhoods, (city, nb))))
      case None =>
        var f := FetchNeighbourhood(s.g, city, nb, env);
        if f.result.Err? then Answer(f.result, s.(g := f.g))
        else Answer(f.result, s.(g := f.g, neighbourhoods := Insert(s.neighbourhoods, (city, nb), f.result.value)))
  }

  /** `get_listing_insights` behind its `lru_cache`: the same policy for one argument. */
  function CachedListing(s: Session, listingId: Value, env: Env): (a: Answer)
    ensures !Hashable(listingId) ==> a == Answer(Err(Unhashable), s)
    ensures Hashable(listingId) && Find(s.listings, listingId).Some? ==>
      a.result == Ok(Find(s.listings, listingId).value) && a.s.g == s.g
    ensures Hashable(listingId) && Find(s.listings, listingId).None? ==>
      Fetched(a.result, a.s.g) == FetchListing(s.g, listingId, env)
    ensures a.s.neighbourhoods == s.neighbourhoods
  {
    if !Hashable(listingId) then Answer(Err(Unhashable), s)
    else match Find(s.listings, listingId)
      case Some(v) => Answer(Ok(v), s.(listings := Touch(s.listings, listingId)))
      case None =>
        var f := FetchListing(s.g, listingId, env);
        Answer(f.result, s.(g := f.g, listings := Insert(s.listings, listingId, f.result.value)))
  }

  /** Both caches stay within their bounds and hold each argument once. */
  lemma CachedNeighbourhoodValid(s: Session, city: Value, nb: Value, env: Env)
    requires SessionValid(s)
    ensures SessionValid(CachedNeighbourhood(s, city, nb, env).s)
  {
    if Hashable(city) && Hashable(nb) {
      if Find(s.neighbourhoods, (city, nb)).Some? {
        TouchValid(s.neighbourhoods, (city, nb));
      } else {
        var f := FetchNeighbourhood(s.g, city, nb, env);
        if f.result.Ok? {
          InsertValid(s.neighbourhoods, (city, nb), f.result.value);
        }
      }
    }
  }

  lemma CachedListingValid(s: Session, listingId: Value, env: Env)
    requires SessionValid(s)
    ensures SessionValid(CachedListing(s, listingId, env).s)
  {
    if Hashable(listingId) {
      if Find(s.listings, listingId).Some? {
        TouchValid(s.listings, listingId);
      } else {
        InsertValid(s.listings, listingId, FetchListing(s.g, listingId, env).result.value);
      }
    }
  }

  /**
   * Asking for the same neighbourhood again right away answers what the first
   * call answered and sends no request, whatever status the first call saw.
   */
  lemma NeighbourhoodMemoised(s: Session, city: Value, nb: Value, env: Env)
    requires SessionValid(s)
    requires CachedNeighbourhood(s, city, nb, env).result.Ok?
    ensures var a := CachedNeighbourhood(s, city, nb, env);
      var b := CachedNeighbourhood(a.s, city, nb, env);
      b.result == a.result && b.s.g == a.s.g
  {
    var key := (city, nb);
    if Find(s.neighbourhoods, key).Some? {
      TouchValid(s.neighbourhoods, key);
    } else {
      InsertValid(s.neighbourhoods, key, CachedNeighbourhood(s, city, nb, env).result.value);
    }
  }

  /**
   * Unlike the uncached fetcher, a neighbourhood whose page answered with an
   * error status is not asked for again: the `{}` it produced is cached.
   */
  lemma FailedNeighbourhoodIsNotRetried(s: Session, city: Value, nb: string, env: Env)
    requires SessionValid(s) && Hashable(city)
    requires Find(s.neighbourhoods, (city, Str(nb))).None? && NeighbourhoodKey(city, nb, env) !in s.g.insights
    requires env.neighbourhoodPage(Render(city, env.show), Normalise(nb)).status != 200
    ensures var a := CachedNeighbourhood(s, city, Str(nb), env);
      && a.result == Ok(Obj([]))
      && |CachedNeighbourhood(a.s, city, Str(nb), env).s.g.requests| == |s.g.requests| + 1
  {
    NeighbourhoodMemoised(s, city, Str(nb), env);
  }

  /** Asking for the same listing again right away answers from the cache. */
  lemma ListingMemoised(s: Session, listingId: Value, env: Env)
    requires SessionValid(s) && Hashable(listingId)
    ensures var a := CachedListing(s, listingId, env);
      var b := CachedListing(a.s, listingId, env);
      b.result == a.result && b.s.g == a.s.g
  {
    if Find(s.listings, listingId).Some? {
      TouchValid(s.listings, listingId);
    } else {
      InsertValid(s.listings, listingId, CachedListing(s, listingId, env).result.value);
    }
  }

  // ---------------------------------------------------------------- enrichment and parsing

  /** The three neighbourhood columns, in the order the source assigns them. */
  function NeighbourhoodColumns(): seq<Column> {
    [NeighbourhoodInhabitants, NeighbourhoodAvgAskingpriceM2, NeighbourhoodFamiliesWithChildrenPct]
  }

  /** `listing_parsed[...] = insights.get(..., None)`, three times. */
  function WithNeighbourhood(row: Row, payload: Value): Row
    requires payload.Obj?
  {
    var r1 := Put(row, NeighbourhoodInhabitants, Get(payload, "inhabitants", Null).value);
    var r2 := Put(r1, NeighbourhoodAvgAskingpriceM2, Get(payload, "averageAskingPricePerM2", Null).value);
    Put(r2, NeighbourhoodFamiliesWithChildrenPct, Get(payload, "familiesWithChildren", Null).value)
  }

  /**
   * The inner try block: views are assigned before saves are read, so a
   * payload without `nrOfSaves` still leaves the views set; any failure
   * leaves the row as it was.
   */
  function WithListingInsights(row: Row, insights: Result<Value, Error>): Row {
    match insights
    case Err(_) => row
    case Ok(p) =>
      match Index(p, "nrOfViews")
      case None => row
      case Some(views) =>
        var r1 := Put(row, ListingNrOfViews, views);
        match Index(p, "nrOfSaves")
        case None => r1
        case Some(saves) => Put(r1, ListingNrOfSaves, saves)
  }

  /** A hit's outcome: its row when it is kept, and the state after its requests. */
  datatype Processed = Processed(row: Option<Row>, s: Session)

  /**
   * The steps after the literal: a failing neighbourhood lookup (unhashable or
   * non-string arguments, a payload without `get`) drops the listing; the
   * listing insights are optional and never drop it.
   */
  function Enrich(s: Session, row: Row, useInsights: bool, env: Env): (p: Processed)
  {
    match (Lookup(row, AddressCity), Lookup(row, AddressNeighbourhood))
    case (Some(city), Some(nb)) =>
      var a := CachedNeighbourhood(s, city, nb, env);
      if a.result.Err? || !a.result.value.Obj? then Processed(None, a.s)
      else
        var r1 := WithNeighbourhood(row, a.result.value);
        if !useInsights then Processed(Some(r1), a.s)
        else
          (match Lookup(r1, ListingId)
           case None => Processed(Some(r1), a.s)
           case Some(id) =>
             var b := CachedListing(a.s, id, env);
             Processed(Some(WithListingInsights(r1, b.result)), b.s))
    case _ => Processed(None, s)
  }

  /**
   * One iteration of the loop in `parse_funda_results`, given the hit's
   * flattened row (`None` when building the literal raised, which skips the
   * hit). Flattening is pure, so it is done for every hit up front (`Flats`).
   */
  function ProcessListing(s: Session, flat: Option<Row>, useInsights: bool, env: Env): Processed {
    match flat
    case None => Processed(None, s)
    case Some(row) => Enrich(s, row, useInsights, env)
  }

  /** Each hit flattened on its own. */
  function Flats(hits: seq<Value>, show: Value -> string): (r: seq<Option<Row>>)
    ensures |r| == |hits| && forall i :: 0 <= i < |hits| ==> r[i] == Flatten(hits[i], show)
  {
    seq(|hits|, i requires 0 <= i < |hits| => Flatten(hits[i], show))
  }

  /** The rows the loop appends and the state it leaves, hit after hit. */
  datatype Parsed = Parsed(rows: seq<Row>, s: Session)

  function ParseHits(s: Session, flats: seq<Option<Row>>, useInsights: bool, env: Env): Parsed
    decreases |flats|
  {
    if flats == [] then Parsed([], s)
    else
      var before := ParseHits(s, flats[..|flats| - 1], useInsights, env);
      var p := ProcessListing(before.s, flats[|flats| - 1], useInsights, env);
      Parsed(before.rows + if p.row.Some? then [p.row.value] else [], p.s)
  }

  /** `results_object["responses"][0]["hits"]` */
  function HitsBlock(results: Value): Option<Value> {
    var responses :- Index(results, "responses");
    var first :- Item0(responses);
    Index(first, "hits")
  }

  /**
   * `parse_funda_results(results_object, use_listing_insights)`: a missing
   * hits path raises, and so does a hits value without a length (the debug
   * line evaluates `len(listings)` before the loop).
   */
  function Parse(s: Session, results: Value, useInsights: bool, env: Env): (r: Result<Parsed, Error>)
    ensures r.Err? <==>
      (HitsBlock(results).None? || Index(HitsBlock(results).value, "hits").None?
       || Size(Index(HitsBlock(results).value, "hits").value).None?)
  {
    match HitsBlock(results)
    case None => Err(HitsMissing(results))
    case Some(block) =>
      match Index(block, "hits")
      case None => Err(HitsMissing(results))
      case Some(hits) =>
        match Elements(hits)
        case None => Err(NotSized(hits))
        case Some(items) => Ok(ParseHits(s, Flats(items, env.show), useInsights, env))
  }

  // ---------------------------------------------------------------- properties of one hit

  /** The columns of a row before it is tagged: distinct, and none of the tag or metadata columns. */
  predicate Untagged(row: Row) {
    Storable(row) && SearchQuery !in Keys(row)
  }

  /** A row none of whose keys is added later by the neighbourhood, insights or tagging steps. */
  predicate Unenriched(row: Row) {
    && NeighbourhoodInhabitants !in Keys(row) && NeighbourhoodAvgAskingpriceM2 !in Keys(row)
    && NeighbourhoodFamiliesWithChildrenPct !in Keys(row)
    && ListingNrOfViews !in Keys(row) && ListingNrOfSaves !in Keys(row) && SearchQuery !in Keys(row)
  }

  /** The entries the neighbourhood step appends. */
  function NeighbourhoodEntries(payload: Value): (e: seq<(Column, Value)>)
    requires payload.Obj?
    ensures |e| == 3 && Keys(e) == NeighbourhoodColumns()
  {
    var e := [(NeighbourhoodInhabitants, Get(payload, "inhabitants", Null).value),
              (NeighbourhoodAvgAskingpriceM2, Get(payload, "averageAskingPricePerM2", Null).value),
              (NeighbourhoodFamiliesWithChildrenPct, Get(payload, "familiesWithChildren", Null).value)];
    KeysAppend([e[0], e[1]], [e[2]]);
    KeysAppend([e[0]], [e[1]]);
    assert e == [e[0], e[1]] + [e[2]] && [e[0], e[1]] == [e[0]] + [e[1]];
    e
  }

  /** The entries the listing-insights step appends: views if present, then saves if present too. */
  function InsightEntries(insights: Result<Value, Error>): (e: seq<(Column, Value)>)
    ensures Keys(e) == [] || Keys(e) == [ListingNrOfViews] || Keys(e) == [ListingNrOfViews, ListingNrOfSaves]
  {
    match insights
    case Err(_) => []
    case Ok(p) =>
      match Index(p, "nrOfViews")
      case None => []
      case Some(views) =>
        match Index(p, "nrOfSaves")
        case None =>
          var e := [(ListingNrOfViews, views)];
          assert e[1..] == [];
          e
        case Some(saves) =>
          var e := [(ListingNrOfViews, views), (ListingNrOfSaves, saves)];
          KeysAppend([e[0]], [e[1]]);
          assert e == [e[0]] + [e[1]];
          e
  }

  /** Assigning a key the row does not hold appends it. */
  lemma PutFresh(row: Row, k: Column, v: Value)
    requires k !in Keys(row)
    ensures Put(row, k, v) == row + [(k, v)]
    ensures Keys(row + [(k, v)]) == Keys(row) + [k]
  {
    PutAbsent(row, k, v);
    KeysAppend(row, [(k, v)]);
  }

  /** A row without the neighbourhood columns gains them at its end, read from the payload. */
  lemma WithNeighbourhoodAppends(row: Row, payload: Value)
    requires payload.Obj?
    requires NeighbourhoodInhabitants !in Keys(row) && NeighbourhoodAvgAskingpriceM2 !in Keys(row)
    requires NeighbourhoodFamiliesWithChildrenPct !in Keys(row)
    ensures WithNeighbourhood(row, payload) == row + NeighbourhoodEntries(payload)
  {
    var e := NeighbourhoodEntries(payload);
    var r1 := row + [e[0]];
    var r2 := r1 + [e[1]];
    PutFresh(row, e[0].0, e[0].1);
    PutFresh(r1, e[1].0, e[1].1);
    PutFresh(r2, e[2].0, e[2].1);
    assert r2 + [e[2]] == row + e;
  }

  /** The inner try block appends what it managed to read before the first failure. */
  lemma WithListingInsightsAppends(row: Row, insights: Result<Value, Error>)
    requires ListingNrOfViews !in Keys(row) && ListingNrOfSaves !in Keys(row)
    ensures WithListingInsights(row, insights) == row + InsightEntries(insights)
  {
    if insights.Ok? && Index(insights.value, "nrOfViews").Some? {
      var views := Index(insights.value, "nrOfViews").value;
      PutFresh(row, ListingNrOfViews, views);
      if Index(insights.value, "nrOfSaves").Some? {
        PutFresh(row + [(ListingNrOfViews, views)], ListingNrOfSaves, Index(insights.value, "nrOfSaves").value);
      }
    }
  }

  /** The neighbourhood lookup a row triggers, when the row has both address fields. */
  function NeighbourhoodOf(s: Session, row: Row, env: Env): Option<Answer> {
    match (Lookup(row, AddressCity), Lookup(row, AddressNeighbourhood))
    case (Some(city), Some(nb)) => Some(CachedNeighbourhood(s, city, nb, env))
    case _ => None
  }

  /** Whether the neighbourhood step lets a row through. */
  predicate NeighbourhoodUsable(n: Option<Answer>) {
    n.Some? && n.value.result.Ok? && n.value.result.value.Obj?
  }

  /**
   * A row is kept exactly when its neighbourhood lookup succeeds with a dict;
   * whether listing insights are asked for, and what they return, makes no
   * difference to that.
   */
  lemma EnrichKeeps(s: Session, row: Row, useInsights: bool, env: Env)
    ensures Enrich(s, row, useInsights, env).row.Some? <==> NeighbourhoodUsable(NeighbourhoodOf(s, row, env))
    ensures Enrich(s, row, true, env).row.Some? == Enrich(s, row, false, env).row.Some?
  {
  }

  /** How a kept row is built: the neighbourhood fields first, then the listing insights if asked for. */
  lemma EnrichSteps(s: Session, row: Row, useInsights: bool, env: Env)
    requires Enrich(s, row, useInsights, env).row.Some?
    ensures NeighbourhoodUsable(NeighbourhoodOf(s, row, env))
    ensures var n := NeighbourhoodOf(s, row, env).value;
      var w := WithNeighbourhood(row, n.result.value);
      var out := Enrich(s, row, useInsights, env).row.value;
      && (!useInsights || Lookup(w, ListingId).None? ==> out == w)
      && (useInsights && Lookup(w, ListingId).Some? ==>
            out == WithListingInsights(w, CachedListing(n.s, Lookup(w, ListingId).value, env).result))
  {
  }

  /**
   * A kept row is the literal's row, then the three neighbourhood fields read
   * from the payload (None where absent), then whatever listing insights were
   * read, and only when they were asked for.
   */
  lemma EnrichShape(s: Session, row: Row, useInsights: bool, env: Env)
    requires Unenriched(row)
    requires Enrich(s, row, useInsights, env).row.Some?
    ensures NeighbourhoodUsable(NeighbourhoodOf(s, row, env))
    ensures var n := NeighbourhoodOf(s, row, env).value;
      var r1 := row + NeighbourhoodEntries(n.result.value);
      var out := Enrich(s, row, useInsights, env).row.value;
      && (!useInsights || Lookup(row, ListingId).None? ==> out == r1)
      && (useInsights && Lookup(row, ListingId).Some? ==>
            out == r1 + InsightEntries(CachedListing(n.s, Lookup(row, ListingId).value, env).result))
  {
    EnrichSteps(s, row, useInsights, env);
    var n := NeighbourhoodOf(s, row, env).value;
    var payload := n.result.value;
    var e := NeighbourhoodEntries(payload);
    WithNeighbourhoodAppends(row, payload);
    var r1 := row + e;
    assert Lookup(r1, ListingId) == Lookup(row, ListingId) by {
      LookupAppend(row, e, ListingId);
      assert Keys(e) == [NeighbourhoodInhabitants, NeighbourhoodAvgAskingpriceM2, NeighbourhoodFamiliesWithChildrenPct];
    }
    assert ListingNrOfViews !in Keys(r1) && ListingNrOfSaves !in Keys(r1) by {
      KeysAppend(row, e);
    }
    if useInsights && Lookup(row, ListingId).Some? {
      WithListingInsightsAppends(r1, CachedListing(n.s, Lookup(row, ListingId).value, env).result);
    }
  }

  /** A flattened listing holds the 45 literal columns once each, and none that a later step adds. */
  lemma ListingRowClean(row: Row)
    requires Keys(row) == ListingColumns()
    ensures Unenriched(row) && Untagged(row)
  {
    ListingColumnsDistinct();
    AddedColumnsOrd();
    ListingColumnsMembers(NeighbourhoodInhabitants);
    ListingColumnsMembers(NeighbourhoodAvgAskingpriceM2);
    ListingColumnsMembers(NeighbourhoodFamiliesWithChildrenPct);
    ListingColumnsMembers(ListingNrOfViews);
    ListingColumnsMembers(ListingNrOfSaves);
    ListingColumnsMembers(SearchQuery);
    ListingColumnsMembers(Id);
    ListingColumnsMembers(ProcessingTime);
    ListingColumnsMembers(RunId);
  }

  /** The literal's columns, then the neighbourhood columns, then the insight columns: all distinct. */
  lemma EnrichedKeys(r0: Row, e: Row, ins: Row)
    requires Keys(r0) == ListingColumns() && Unenriched(r0) && Untagged(r0)
    requires Keys(e) == NeighbourhoodColumns()
    requires Keys(ins) == [] || Keys(ins) == [ListingNrOfViews] || Keys(ins) == [ListingNrOfViews, ListingNrOfSaves]
    ensures Keys(r0 + e + ins) == ListingColumns() + NeighbourhoodColumns() + Keys(ins)
    ensures Untagged(r0 + e + ins)
  {
    KeysAppend(r0 + e, ins);
    KeysAppend(r0, e);
    var tail := NeighbourhoodColumns() + Keys(ins);
    assert Distinct(tail) by {
      DistinctConcat(NeighbourhoodColumns(), Keys(ins));
    }
    DistinctConcat(ListingColumns(), tail);
    assert ListingColumns() + NeighbourhoodColumns() + Keys(ins) == ListingColumns() + tail;
  }

  /** A flattened listing's row some hit yields. */
  predicate FlatRow(flat: Option<Row>) {
    flat.Some? ==> Keys(flat.value) == ListingColumns()
  }

  /** A kept hit's row split into the flattened listing and the two kinds of appended entries. */
  lemma KeptRowParts(s: Session, r0: Row, useInsights: bool, env: Env) returns (e: Row, ins: Row)
    requires Keys(r0) == ListingColumns() && Enrich(s, r0, useInsights, env).row.Some?
    ensures Enrich(s, r0, useInsights, env).row.value == r0 + e + ins
    ensures |e| == 3 && Keys(e) == NeighbourhoodColumns()
    ensures Keys(ins) == [] || Keys(ins) == [ListingNrOfViews] || Keys(ins) == [ListingNrOfViews, ListingNrOfSaves]
    ensures !useInsights ==> ins == []
  {
    ListingRowClean(r0);
    EnrichShape(s, r0, useInsights, env);
    var n := NeighbourhoodOf(s, r0, env).value;
    e := NeighbourhoodEntries(n.result.value);
    ins := if useInsights && Lookup(r0, ListingId).Some?
      then InsightEntries(CachedListing(n.s, Lookup(r0, ListingId).value, env).result) else [];
  }

  /** What a row kept from a hit looks like, given that hit flattened. */
  predicate RowOfHit(row: Row, flat: Option<Row>) {
    && flat.Some?
    && 48 <= |row| <= 50
    && row[..45] == flat.value
    && Untagged(row)
  }

  /**
   * A hit that `parse_funda_results` keeps flattened, and its row starts with
   * the flattened listing, has the three neighbourhood columns next, at most
   * the two insight columns after them, and no duplicate, tag or metadata column.
   */
  lemma KeptRow(s: Session, flat: Option<Row>, useInsights: bool, env: Env)
    requires FlatRow(flat) && ProcessListing(s, flat, useInsights, env).row.Some?
    ensures var out := ProcessListing(s, flat, useInsights, env).row.value;
      && RowOfHit(out, flat)
      && Keys(out)[..48] == ListingColumns() + NeighbourhoodColumns()
      && (!useInsights ==> |out| == 48)
  {
    var r0 := flat.value;
    ListingColumnsSlices();
    ListingRowClean(r0);
    var e, ins := KeptRowParts(s, r0, useInsights, env);
    EnrichedKeys(r0, e, ins);
    PrefixesOfThree(r0, e, ins);
    PrefixesOfThree(ListingColumns(), NeighbourhoodColumns(), Keys(ins));
  }

  // ---------------------------------------------------------------- properties of the hit loop

  /** `rows` come from the hits at the increasing positions `k`, one row each. */
  predicate RowsOfHits(rows: seq<Row>, k: seq<int>, flats: seq<Option<Row>>) {
    && |k| == |rows| <= |flats|
    && (forall j :: 0 <= j < |k| ==> 0 <= k[j] < |flats|)
    && (forall i, j :: 0 <= i < j < |k| ==> k[i] < k[j])
    && (forall j :: 0 <= j < |k| ==> RowOfHit(rows[j], flats[k[j]]))
  }

  lemma RowsOfHitsSnoc(rows: seq<Row>, k: seq<int>, flats: seq<Option<Row>>, row: Option<Row>)
    requires flats != [] && RowsOfHits(rows, k, flats[..|flats| - 1])
    requires row.Some? ==> RowOfHit(row.value, flats[|flats| - 1])
    ensures RowsOfHits(rows + (if row.Some? then [row.value] else []),
                       k + (if row.Some? then [|flats| - 1] else []), flats)
  {
    var n := |flats| - 1;
    assert forall j :: 0 <= j < |k| ==> flats[k[j]] == flats[..n][k[j]];
  }

  /**
   * The loop keeps some of the hits, in their order, one row each: every row
   * starts with its hit's flattened listing, so a hit that does not flatten
   * never yields a row. `k` lists the positions of the kept hits.
   */
  lemma {:induction false} ParseHitsRows(s: Session, flats: seq<Option<Row>>, useInsights: bool, env: Env)
    returns (k: seq<int>)
    requires forall i :: 0 <= i < |flats| ==> FlatRow(flats[i])
    ensures RowsOfHits(ParseHits(s, flats, useInsights, env).rows, k, flats)
    decreases |flats|
  {
    if flats == [] {
      k := [];
    } else {
      var n := |flats| - 1;
      var kb := ParseHitsRows(s, flats[..n], useInsights, env);
      var before := ParseHits(s, flats[..n], useInsights, env);
      var p := ProcessListing(before.s, flats[n], useInsights, env);
      if p.row.Some? {
        KeptRow(before.s, flats[n], useInsights, env);
      }
      k := kb + if p.row.Some? then [n] else [];
      RowsOfHitsSnoc(before.rows, kb, flats, p.row);
    }
  }

  /**
   * `parse_funda_results` on a well-formed response: its rows come from the
   * hits at the increasing positions `k`, each row starting with its hit's
   * flattened listing; a hit that does not flatten yields no row.
   */
  lemma ParseRows(s: Session, results: Value, useInsights: bool, env: Env) returns (k: seq<int>)
    requires Parse(s, results, useInsights, env).Ok?
    ensures var hits := Elements(Index(HitsBlock(results).value, "hits").value).value;
      && RowsOfHits(Parse(s, results, useInsights, env).value.rows, k, Flats(hits, env.show))
      && forall i :: 0 <= i < |hits| && Flatten(hits[i], env.show).None? ==> i !in k
  {
    var hits := Elements(Index(HitsBlock(results).value, "hits").value).value;
    var flats := Flats(hits, env.show);
    k := ParseHitsRows(s, flats, useInsights, env);
    forall i, j | 0 <= i < |hits| && Flatten(hits[i], env.show).None? && 0 <= j < |k| ensures k[j] != i {
      assert RowOfHit(Parse(s, results, useInsights, env).value.rows[j], flats[k[j]]);
    }
  }

  /** Every parsed row is ready to be tagged: distinct columns, none of them the tag or metadata. */
  lemma ParsedRowsUntagged(s: Session, results: Value, useInsights: bool, env: Env)
    requires Parse(s, results, useInsights, env).Ok?
    ensures forall row :: row in Parse(s, results, useInsights, env).value.rows ==> Untagged(row) && row != []
  {
    var hits := Elements(Index(HitsBlock(results).value, "hits").value).value;
    var rows := Parse(s, results, useInsights, env).value.rows;
    var k := ParseRows(s, results, useInsights, env);
    forall row | row in rows ensures Untagged(row) && row != [] {
      var j :| 0 <= j < |rows| && rows[j] == row;
      assert RowOfHit(rows[j], Flats(hits, env.show)[k[j]]);
    }
  }

  /** Without listing insights the loop asks for none, and every row has exactly 48 columns. */
  lemma {:induction false} ParseWithoutInsights(s: Session, flats: seq<Option<Row>>, env: Env)
    requires forall i :: 0 <= i < |flats| ==> FlatRow(flats[i])
    ensures ParseHits(s, flats, false, env).s.listings == s.listings
    ensures forall row :: row in ParseHits(s, flats, false, env).rows ==> |row| == 48
    decreases |flats|
  {
    if flats != [] {
      var n := |flats| - 1;
      ParseWithoutInsights(s, flats[..n], env);
      var before := ParseHits(s, flats[..n], false, env);
      var p := ProcessListing(before.s, flats[n], false, env);
      if p.row.Some? {
        KeptRow(before.s, flats[n], false, env);
      }
    }
  }
}
