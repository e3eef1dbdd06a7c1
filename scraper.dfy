/**
 * The current pipeline run on mutable state: the two `lru_cache`s and the
 * module-level insights dict are updated in place, `parse_funda_results`
 * builds its list and each listing's dict step by step, and `tracker` keeps
 * its offset and total in local variables. Every method is proved against the
 * function of the `Funda` and `Pipeline` modules that specifies it.
 */
module Scraping {
  import opened Base
  import opened Dicts
  import opened Json
  import opened Schema
  import opened Oracles
  import opened Lru
  import opened Insights
  import opened Listing
  import opened Store
  import opened Funda
  import opened Paging
  import opened Pipeline

  class Scraper {
    var neighbourhoods: Cache<(Value, Value), Value>
    var listings: Cache<Value, Value>
    const fetcher: Fetcher
    const db: Database

    /** A freshly imported module, writing to the given connection. */
    constructor (db: Database)
      ensures Session() == FreshSession() && this.db == db
    {
      neighbourhoods := Empty(NeighbourhoodCacheSize);
      listings := Empty(ListingCacheSize);
      fetcher := new Fetcher();
      this.db := db;
    }

    /** The caches and the module globals, as one value. */
    function Session(): Session
      reads this, fetcher
    {
      Funda.Session(fetcher.State(), neighbourhoods, listings)
    }

    /** `get_neighbourhood_insights(city, neighbourhood)` through its cache. */
    method NeighbourhoodInsights(city: Value, nb: Value, env: Env) returns (r: Result<Value, Error>)
      modifies this, fetcher
      ensures Answer(r, Session()) == CachedNeighbourhood(old(Session()), city, nb, env)
    {
      if !Hashable(city) || !Hashable(nb) {
        return Err(Unhashable);
      }
      var hit := Find(neighbourhoods, (city, nb));
      if hit.Some? {
        neighbourhoods := Touch(neighbourhoods, (city, nb));
        return Ok(hit.value);
      }
      r := fetcher.Neighbourhood(city, nb, env);
      if r.Ok? {
        neighbourhoods := Insert(neighbourhoods, (city, nb), r.value);
      }
    }

    /** `get_listing_insights(listing_id)` through its cache. */
    method ListingInsights(listingId: Value, env: Env) returns (r: Result<Value, Error>)
      modifies this, fetcher
      ensures Answer(r, Session()) == CachedListing(old(Session()), listingId, env)
    {
      if !Hashable(listingId) {
        return Err(Unhashable);
      }
      var hit := Find(listings, listingId);
      if hit.Some? {
        listings := Touch(listings, listingId);
        return Ok(hit.value);
      }
      r := fetcher.Listing(listingId, env);
      listings := Insert(listings, listingId, r.value);
    }

    /**
     * The body of the loop over the hits, after the literal: the neighbourhood
     * columns are assigned one by one, then views and saves inside their own
     * try block. `None` stands for a skipped hit.
     */
    method ParseListing(flat: Option<Row>, useInsights: bool, env: Env) returns (out: Option<Row>)
      modifies this, fetcher
      ensures Processed(out, Session()) == ProcessListing(old(Session()), flat, useInsights, env)
    {
      if flat.None? {
        return None;
      }
      var row := flat.value;
      var city := Lookup(row, AddressCity);
      var nb := Lookup(row, AddressNeighbourhood);
      if city.None? || nb.None? {
        return None;
      }
      var insights := NeighbourhoodInsights(city.value, nb.value, env);
      if insights.Err? || !insights.value.Obj? {
        return None;
      }
      var payload := insights.value;
      row := Put(row, NeighbourhoodInhabitants, Get(payload, "inhabitants", Null).value);
      row := Put(row, NeighbourhoodAvgAskingpriceM2, Get(payload, "averageAskingPricePerM2", Null).value);
      row := Put(row, NeighbourhoodFamiliesWithChildrenPct, Get(payload, "familiesWithChildren", Null).value);
      if useInsights {
        var id := Lookup(row, ListingId);
        if id.Some? {
          var li := ListingInsights(id.value, env);
          if li.Ok? {
            var views := Index(li.value, "nrOfViews");
            if views.Some? {
              row := Put(row, ListingNrOfViews, views.value);
              var saves := Index(li.value, "nrOfSaves");
              if saves.Some? {
                row := Put(row, ListingNrOfSaves, saves.value);
              }
            }
          }
        }
      }
      return Some(row);
    }

    /** `parse_funda_results(results_object, use_listing_insights)` */
    method ParseResults(results: Value, useInsights: bool, env: Env) returns (r: Result<seq<Row>, Error>)
      modifies this, fetcher
      ensures r.Err? <==> Parse(old(Session()), results, useInsights, env).Err?
      ensures r.Err? ==> r.error == Parse(old(Session()), results, useInsights, env).error && Session() == old(Session())
      ensures r.Ok? ==> Parsed(r.value, Session()) == Parse(old(Session()), results, useInsights, env).value
    {
      var block := HitsBlock(results);
      if block.None? {
        return Err(HitsMissing(results));
      }
      var hits := Index(block.value, "hits");
      if hits.None? {
        return Err(HitsMissing(results));
      }
      var items := Elements(hits.value);
      if items.None? {
        return Err(NotSized(hits.value));
      }
      var rows := ParseFlats(Flats(items.value, env.show), useInsights, env);
      return Ok(rows);
    }

    /** The loop over the hits, each already flattened (`None` for a hit whose literal raised). */
    method ParseFlats(flats: seq<Option<Row>>, useInsights: bool, env: Env) returns (rows: seq<Row>)
      modifies this, fetcher
      ensures Parsed(rows, Session()) == ParseHits(old(Session()), flats, useInsights, env)
    {
      rows := [];
      var i := 0;
      while i < |flats|
        invariant 0 <= i <= |flats|
        invariant Parsed(rows, Session()) == ParseHits(old(Session()), flats[..i], useInsights, env)
      {
        assert flats[..i + 1][..i] == flats[..i];
        var out := ParseListing(flats[i], useInsights, env);
        if out.Some? {
          rows := rows + [out.value];
        }
        i := i + 1;
      }
      assert flats[..i] == flats;
    }

    /**
     * One pass of the `while` body of `tracker`: request the page at the
     * offset; a status other than 200 raises. `stop` is `None` when the loop
     * goes on.
     */
    method TrackPage(pc: Value, km: Value, pd: string, processed: int, total: Value, env: Env, ghost step: Run<Session> -> Step<Session>)
      returns (stop: Option<Outcome>, processed': int, total': Value)
      requires IsIteration(step, pc, km, pd, env)
      modifies this, fetcher, db
      ensures Follows(stop, step(Run(old(Session()), old(db.State()), processed, total)), Run(Session(), db.State(), processed', total'))
    {
      ghost var before := Run(Session(), db.State(), processed, total);
      assert step(before) == TrackStep(before, pc, km, pd, env);
      var res := fetcher.Post(SearchBody(pc, km, pd, "buy", processed, env.show), env);
      if res.status != 200 {
        return Some(Raised(SearchFailed(res.status, res.text))), processed, total;
      }
      stop, processed', total' := HandlePage(res.body, pc, km, pd, processed, total, env);
    }

    /**
     * The rest of the body for a 200 response: read the total and the page
     * length, stop on a zero total, otherwise parse, tag and store the page
     * and advance the offset.
     */
    method HandlePage(res: Value, pc: Value, km: Value, pd: string, processed: int, total: Value, env: Env)
      returns (stop: Option<Outcome>, processed': int, total': Value)
      modifies this, fetcher, db
      ensures Follows(stop, PageStep(Run(old(Session()), old(db.State()), processed, total), res, pc, km, pd, env),
        Run(Session(), db.State(), processed', total'))
    {
      var t := TotalOf(res);
      var n := PageLength(res);
      if t.None? || n.None? {
        return Some(Raised(TotalMissing(res))), processed, total;
      }
      if EqualsZero(t.value) {
        return Some(NoResults), processed, t.value;
      }
      stop, processed', total' := StoreParsed(res, t.value, n.value, pc, km, pd, processed, env);
    }

    /** Parse the page, tag its rows, store them, and advance the offset by the page length `n`. */
    method StoreParsed(res: Value, total: Value, n: nat, pc: Value, km: Value, pd: string, processed: int, env: Env)
      returns (stop: Option<Outcome>, processed': int, total': Value)
      modifies this, fetcher, db
      ensures Follows(stop, StorePage(Run(old(Session()), old(db.State()), processed, total), res, n, pc, km, pd, env),
        Run(Session(), db.State(), processed', total'))
    {
      ghost var before := Run(Session(), db.State(), processed, total);
      StorePageOf(before, res, n, pc, km, pd, env, Parse(before.s, res, true, env));
      var parsed := ParseResults(res, true, env);
      if parsed.Err? {
        return Some(Raised(parsed.error)), processed, total;
      }
      db.StoreResults(TagAll(parsed.value, SearchTag(pc, km, pd, env.show)), env);
      return None, processed + n, total;
    }

    /**
     * One turn of the `while` loop of `tracker` with `left` turns still
     * allowed: the loop test, then the body. `done` is `None` when the loop
     * goes on, and the rest of the run is then the run from the new state.
     */
    method TrackTurn(pc: Value, km: Value, pd: string, left: nat, processed: int, total: Value, env: Env, ghost step: Run<Session> -> Step<Session>)
      returns (done: Option<Outcome>, left': nat, processed': int, total': Value)
      requires IsIteration(step, pc, km, pd, env)
      modifies this, fetcher, db
      ensures var run := TrackLoop(Run(old(Session()), old(db.State()), processed, total), left, step);
        && (done.Some? ==> run == Tracked(done.value, Run(Session(), db.State(), processed', total')))
        && (done.None? ==> left == left' + 1 && run == TrackLoop(Run(Session(), db.State(), processed', total'), left', step))
    {
      var less := IntLess(processed, total);
      if less.None? {
        return Some(Raised(Incomparable(total))), left, processed, total;
      }
      if !less.value {
        return Some(Finished), left, processed, total;
      }
      if left == 0 {
        return Some(OutOfFuel), left, processed, total;
      }
      ghost var before := Run(Session(), db.State(), processed, total);
      var stop;
      stop, processed', total' := TrackPage(pc, km, pd, processed, total, env, step);
      LoopUnrolls(before, left, left - 1, step, stop, Run(Session(), db.State(), processed', total'));
      return stop, left - 1, processed', total';
    }

    /**
     * `tracker(postal_code, km_radius, publication_date, connection)`, for at
     * most `fuel` pages.
     */
    method Track(pc: Value, km: Value, pd: string, fuel: nat, env: Env) returns (o: Outcome)
      modifies this, fetcher, db
      ensures var e := Tracker(old(Session()), old(db.State()), fuel, pc, km, pd, env);
        o == e.outcome && Session() == e.run.s && db.State() == e.run.t
    {
      ghost var spec := Tracker(Session(), db.State(), fuel, pc, km, pd, env);
      ghost var step := Iteration(pc, km, pd, env);
      IterationIsIteration(pc, km, pd, env);
      var processed := 0;
      var total := Int(1);
      var left := fuel;
      while true
        invariant TrackLoop(Run(Session(), db.State(), processed, total), left, step) == spec
        decreases left
      {
        var done;
        done, left, processed, total := TrackTurn(pc, km, pd, left, processed, total, env, step);
        if done.Some? {
          return done.value;
        }
      }
    }
  }
}
