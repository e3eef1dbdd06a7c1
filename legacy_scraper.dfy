/**
 * The older pipeline run on mutable state: the module-level insights dict is
 * written in place by the neighbourhood fetcher, `parse_funda_results` builds
 * its list and each listing's dict step by step, and the loop of `cli` keeps
 * its offset and total in local variables. Every method is proved against the
 * function of the `Legacy` module that specifies it.
 */
module LegacyScraping {
  import opened Base
  import opened Dicts
  import opened Json
  import opened Schema
  import opened Oracles
  import opened Insights
  import opened Store
  import opened Funda
  import opened Paging
  import opened Legacy

  class Scraper {
    const fetcher: Fetcher
    const db: Database

    /** A freshly imported module, writing to the given connection. */
    constructor (db: Database)
      ensures fetcher.State() == Globals(map[], []) && this.db == db
    {
      fetcher := new Fetcher();
      this.db := db;
    }

    /** `get_results(...)`: the query is built, posted, and any status but 200 raises. */
    method GetResults(pc: Value, km: Value, pd: string, offering: string, start: int, size: int, env: Env)
      returns (r: Result<Value, Error>)
      modifies fetcher
      ensures Fetched(r, fetcher.State()) == LegacyGetResults(old(fetcher.State()), pc, km, pd, offering, start, size, env)
    {
      var query := BuildQuery(pc, km, pd, offering, start, size, env.show);
      var res := fetcher.PostQuery(query, env);
      if res.status != 200 {
        return Err(SearchFailed(res.status, res.text));
      }
      return Ok(res.body);
    }

    /**
     * The body of the loop over the hits, after the literal: the neighbourhood
     * columns are assigned one by one, then views and saves inside their own
     * try block. `None` stands for a skipped hit.
     */
    method ParseListing(flat: Option<Row>, env: Env) returns (out: Option<Row>)
      modifies fetcher
      ensures Handled(out, fetcher.State()) == LegacyProcessListing(old(fetcher.State()), flat, env)
    {
      if flat.None? {
        return None;
      }
      var row := flat.value;
      var city := Lookup(row, AddressCity);
      var nb := Lookup(row, AddressNeighbourhood);
      if city.None? || nb.None? {
        return None;
      }
      var insights := fetcher.Neighbourhood(city.value, nb.value, env);
      if insights.Err? || !insights.value.Obj? {
        return None;
      }
      var payload := insights.value;
      row := Put(row, NeighbourhoodInhabitants, Get(payload, "inhabitants", Null).value);
      row := Put(row, NeighbourhoodAvgAskingpriceM2, Get(payload, "averageAskingPricePerM2", Null).value);
      row := Put(row, NeighbourhoodFamiliesWithChildrenPct, Get(payload, "familiesWithChildren", Null).value);
      var id := Lookup(row, ListingId);
      if id.Some? {
        var li := fetcher.Listing(id.value, env);
        var views := Index(li.value, "nrOfViews");
        if views.Some? {
          row := Put(row, ListingNrOfViews, views.value);
          var saves := Index(li.value, "nrOfSaves");
          if saves.Some? {
            row := Put(row, ListingNrOfSaves, saves.value);
          }
        }
      }
      return Some(row);
    }

    /** The older `parse_funda_results(results_object)`. */
    method ParseResults(results: Value, env: Env) returns (r: Result<seq<Row>, Error>)
      modifies fetcher
      ensures r.Err? <==> LegacyParse(old(fetcher.State()), results, env).Err?
      ensures r.Err? ==> r.error == LegacyParse(old(fetcher.State()), results, env).error && fetcher.State() == old(fetcher.State())
      ensures r.Ok? ==> Gathered(r.value, fetcher.State()) == LegacyParse(old(fetcher.State()), results, env).value
    {
      var hits := LegacyHits(results);
      if hits.None? {
        return Err(HitsMissing(results));
      }
      var items := Elements(hits.value);
      if items.None? {
        return Err(NotSized(hits.value));
      }
      var rows := ParseFlats(LegacyFlats(items.value, env.show), env);
      return Ok(rows);
    }

    /** The loop over the hits, each already flattened (`None` for a hit whose literal raised). */
    method ParseFlats(flats: seq<Option<Row>>, env: Env) returns (rows: seq<Row>)
      modifies fetcher
      ensures Gathered(rows, fetcher.State()) == LegacyParseHits(old(fetcher.State()), flats, env)
    {
      rows := [];
      var i := 0;
      while i < |flats|
        invariant 0 <= i <= |flats|
        invariant Gathered(rows, fetcher.State()) == LegacyParseHits(old(fetcher.State()), flats[..i], env)
      {
        assert flats[..i + 1][..i] == flats[..i];
        var out := ParseListing(flats[i], env);
        if out.Some? {
          rows := rows + [out.value];
        }
        i := i + 1;
      }
      assert flats[..i] == flats;
    }

    /**
     * One pass of the `while` body of `cli`: request the page of 100 at the
     * offset, over every offering type. `stop` is `None` when the loop goes on.
     */
    method TrackPage(pc: Value, km: Value, pd: string, processed: int, total: Value, env: Env, ghost step: Run<Globals> -> Step<Globals>)
      returns (stop: Option<Outcome>, processed': int, total': Value)
      requires IsLegacyIteration(step, pc, km, pd, env)
      modifies fetcher, db
      ensures Follows(stop, step(Run(old(fetcher.State()), old(db.State()), processed, total)), Run(fetcher.State(), db.State(), processed', total'))
    {
      ghost var before := Run(fetcher.State(), db.State(), processed, total);
      assert step(before) == LegacyTrackStep(before, pc, km, pd, env);
      var res := GetResults(pc, km, pd, AllOfferings, processed, PageSize, env);
      if res.Err? {
        return Some(Raised(res.error)), processed, total;
      }
      stop, processed', total' := HandlePage(res.value, pc, km, pd, processed, total, env);
    }

    /** The rest of the body: read the total, stop on a zero total, otherwise store the page. */
    method HandlePage(res: Value, pc: Value, km: Value, pd: string, processed: int, total: Value, env: Env)
      returns (stop: Option<Outcome>, processed': int, total': Value)
      modifies fetcher, db
      ensures Follows(stop, LegacyPageStep(Run(old(fetcher.State()), old(db.State()), processed, total), res, pc, km, pd, env),
        Run(fetcher.State(), db.State(), processed', total'))
    {
      var t := LegacyTotalOf(res);
      if t.None? {
        return Some(Raised(TotalMissing(res))), processed, total;
      }
      if EqualsZero(t.value) {
        return Some(NoResults), processed, t.value;
      }
      stop, processed', total' := StoreParsed(res, t.value, pc, km, pd, processed, env);
    }

    /** Parse the page, tag its rows, store them, and move the offset on by 100. */
    method StoreParsed(res: Value, total: Value, pc: Value, km: Value, pd: string, processed: int, env: Env)
      returns (stop: Option<Outcome>, processed': int, total': Value)
      modifies fetcher, db
      ensures Follows(stop, LegacyStorePage(Run(old(fetcher.State()), old(db.State()), processed, total), res, pc, km, pd, env),
        Run(fetcher.State(), db.State(), processed', total'))
    {
      var parsed := ParseResults(res, env);
      if parsed.Err? {
        return Some(Raised(parsed.error)), processed, total;
      }
      db.StoreResults(TagAll(parsed.value, SearchTag(pc, km, pd, env.show)), env);
      return None, processed + PageSize, total;
    }

    /**
     * One turn of the `while` loop of `cli` with `left` turns still allowed:
     * the loop test, then the body. `done` is `None` when the loop goes on,
     * and the rest of the run is then the run from the new state.
     */
    method TrackTurn(pc: Value, km: Value, pd: string, left: nat, processed: int, total: Value, env: Env, ghost step: Run<Globals> -> Step<Globals>)
      returns (done: Option<Outcome>, left': nat, processed': int, total': Value)
      requires IsLegacyIteration(step, pc, km, pd, env)
      modifies fetcher, db
      ensures var run := TrackLoop(Run(old(fetcher.State()), old(db.State()), processed, total), left, step);
        && (done.Some? ==> run == Tracked(done.value, Run(fetcher.State(), db.State(), processed', total')))
        && (done.None? ==> left == left' + 1 && run == TrackLoop(Run(fetcher.State(), db.State(), processed', total'), left', step))
    {
      var less := IntLess(processed, total);
      if less.None? {
        return Some(Raised(Incomparable(total))), left, processed, total;
      }
      if !less.value {
        return Some(Finished), left, processed, total;
      }
      if left == 0 {
        return Some(OutOfFuel), left, processed, total;
      }
      ghost var before := Run(fetcher.State(), db.State(), processed, total);
      var stop;
      stop, processed', total' := TrackPage(pc, km, pd, processed, total, env, step);
      LoopUnrolls(before, left, left - 1, step, stop, Run(fetcher.State(), db.State(), processed', total'));
      return stop, left - 1, processed', total';
    }

    /** The pagination loop of `cli()`, for at most `fuel` pages. */
    method Cli(pc: Value, km: Value, pd: string, fuel: nat, env: Env) returns (o: Outcome)
      modifies fetcher, db
      ensures var e := LegacyCli(old(fetcher.State()), old(db.State()), fuel, pc, km, pd, env);
        o == e.outcome && fetcher.State() == e.run.s && db.State() == e.run.t
    {
      ghost var spec := LegacyCli(fetcher.State(), db.State(), fuel, pc, km, pd, env);
      ghost var step := LegacyIteration(pc, km, pd, env);
      LegacyIterationIsIteration(pc, km, pd, env);
      var processed := 0;
      var total := Int(1);
      var left := fuel;
      while true
        invariant TrackLoop(Run(fetcher.State(), db.State(), processed, total), left, step) == spec
        decreases left
      {
        var done;
        done, left, processed, total := TrackTurn(pc, km, pd, left, processed, total, env, step);
        if done.Some? {
          return done.value;
        }
      }
    }
  }
}
