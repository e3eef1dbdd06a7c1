/**
 * The pagination loop of `tracker` in the current version: page after page
 * is requested with the offset reached so far, parsed, tagged with the search
 * query and stored, until the offset reaches the total the responses report.
 */
module Pipeline {
  import opened Base
  import opened Dicts
  import opened Text
  import opened Json
  import opened Schema
  import opened Oracles
  import opened Lru
  import opened Insights
  import opened Listing
  import opened Store
  import opened Funda
  import opened Paging

  // ---------------------------------------------------------------- the loop

  /** `res["responses"][0]["hits"]["total"]["value"]` */
  function TotalOf(res: Value): Option<Value> {
    var block :- HitsBlock(res);
    var total :- Index(block, "total");
    Index(total, "value")
  }

  /** `len(res["responses"][0]["hits"]["hits"])` */
  function PageLength(res: Value): Option<nat> {
    var block :- HitsBlock(res);
    var hits :- Index(block, "hits");
    Size(hits)
  }

  /** The response to the request one iteration sends. */
  function PageResponse(r: Run<Session>, pc: Value, km: Value, pd: string, env: Env): Response {
    env.search(SearchBody(pc, km, pd, "buy", r.processed, env.show))
  }

  /** The body of the while loop: the request, then what `PageStep` does with a 200 response. */
  function TrackStep(r: Run<Session>, pc: Value, km: Value, pd: string, env: Env): Step<Session> {
    var f := GetResults(r.s.g, pc, km, pd, "buy", r.processed, env);
    match f.result
    case Err(e) => Stop(Raised(e), r.(s := r.s.(g := f.g)))
    case Ok(res) => PageStep(r.(s := r.s.(g := f.g)), res, pc, km, pd, env)
  }

  /**
   * The rest of the body once the page `res` is in: the total and the page
   * length are read in one try block, a zero total returns, and otherwise the
   * page is parsed, tagged and stored and the offset advances.
   */
  function PageStep(r: Run<Session>, res: Value, pc: Value, km: Value, pd: string, env: Env): Step<Session> {
    match (TotalOf(res), PageLength(res))
    case (Some(total), Some(n)) =>
      if EqualsZero(total) then Stop(NoResults, r.(total := total))
      else StorePage(r.(total := total), res, n, pc, km, pd, env)
    case _ => Stop(Raised(TotalMissing(res)), r)
  }

  /** The page parsed, its rows tagged and stored, and the offset advanced by its length `n`. */
  function StorePage(r: Run<Session>, res: Value, n: nat, pc: Value, km: Value, pd: string, env: Env): Step<Session> {
    match Parse(r.s, res, true, env)
    case Err(e) => Stop(Raised(e), r)
    case Ok(p) =>
      var rows := TagAll(p.rows, SearchTag(pc, km, pd, env.show));
      Continue(Run(p.s, StoreAll(r.t, rows, env), r.processed + n, r.total))
  }

  /** What storing the page amounts to once its parse `p` is known. */
  lemma StorePageOf(r: Run<Session>, res: Value, n: nat, pc: Value, km: Value, pd: string, env: Env, p: Result<Parsed, Error>)
    requires p == Parse(r.s, res, true, env)
    ensures p.Err? ==> StorePage(r, res, n, pc, km, pd, env) == Stop(Raised(p.error), r)
    ensures p.Ok? ==>
      StorePage(r, res, n, pc, km, pd, env) == Continue(Run(p.value.s, StoreAll(r.t, TagAll(p.value.rows, SearchTag(pc, km, pd, env.show)), env), r.processed + n, r.total))
  {
  }

  /** The body of the while loop as a function of the loop's state. */
  function Iteration(pc: Value, km: Value, pd: string, env: Env): Run<Session> -> Step<Session> {
    r => TrackStep(r, pc, km, pd, env)
  }

  /**
   * `step` is the loop body of a search for `pc`, `km` and `pd`. The trigger
   * lets the fact be used where the body is unfolded, and nowhere else.
   */
  ghost predicate IsIteration(step: Run<Session> -> Step<Session>, pc: Value, km: Value, pd: string, env: Env) {
    forall x: Run<Session> {:trigger TrackStep(x, pc, km, pd, env)} :: step(x) == TrackStep(x, pc, km, pd, env)
  }

  lemma IterationIsIteration(pc: Value, km: Value, pd: string, env: Env)
    ensures IsIteration(Iteration(pc, km, pd, env), pc, km, pd, env)
  {
  }

  /** `tracker(postal_code, km_radius, publication_date, connection)` */
  function Tracker(s: Session, t: Table, fuel: nat, pc: Value, km: Value, pd: string, env: Env): Tracked<Session> {
    TrackLoop(InitialRun(s, t), fuel, Iteration(pc, km, pd, env))
  }

  // ---------------------------------------------------------------- properties of `tracker`

  /**
   * One iteration asks for the page at the current offset; when it goes on,
   * the response was a 200 with a non-zero total, the offset grows by the
   * number of hits that page returned, and the total is the one it reported.
   */
  lemma StepAdvances(r: Run<Session>, pc: Value, km: Value, pd: string, env: Env)
    requires TrackStep(r, pc, km, pd, env).Continue?
    ensures var res := PageResponse(r, pc, km, pd, env);
      var next := TrackStep(r, pc, km, pd, env).next;
      && res.status == 200
      && TotalOf(res.body) == Some(next.total) && !EqualsZero(next.total)
      && PageLength(res.body).Some?
      && next.processed == r.processed + PageLength(res.body).value
  {
  }

  /** A page with no hits leaves the offset where it was, so the next iteration sends the same request. */
  lemma EmptyPageRepeats(r: Run<Session>, pc: Value, km: Value, pd: string, env: Env)
    requires TrackStep(r, pc, km, pd, env).Continue?
    requires PageLength(PageResponse(r, pc, km, pd, env).body) == Some(0)
    ensures TrackStep(r, pc, km, pd, env).next.processed == r.processed
    ensures PageResponse(TrackStep(r, pc, km, pd, env).next, pc, km, pd, env) == PageResponse(r, pc, km, pd, env)
  {
  }

  /** An iteration reports no results exactly on a 200 response whose total equals zero, and then stores nothing. */
  lemma StepNoResults(r: Run<Session>, pc: Value, km: Value, pd: string, env: Env)
    ensures var step := TrackStep(r, pc, km, pd, env);
      var res := PageResponse(r, pc, km, pd, env);
      (step.Stop? && step.outcome == NoResults) <==>
        (res.status == 200 && TotalOf(res.body).Some? && PageLength(res.body).Some? && EqualsZero(TotalOf(res.body).value))
    ensures var step := TrackStep(r, pc, km, pd, env);
      step.Stop? && step.outcome == NoResults ==> EqualsZero(step.last.total) && step.last.t == r.t
    ensures StopsOnlyEarly(TrackStep(r, pc, km, pd, env))
  {
  }

  /** A zero total ends the run at once, and nothing is stored. */
  lemma ZeroTotalStoresNothing(r: Run<Session>, fuel: nat, pc: Value, km: Value, pd: string, env: Env)
    requires IntLess(r.processed, r.total) == Some(true) && fuel > 0
    requires PageResponse(r, pc, km, pd, env).status == 200
    requires TotalOf(PageResponse(r, pc, km, pd, env).body) == Some(Int(0))
    requires PageLength(PageResponse(r, pc, km, pd, env).body).Some?
    ensures TrackLoop(r, fuel, Iteration(pc, km, pd, env)).outcome == NoResults
    ensures TrackLoop(r, fuel, Iteration(pc, km, pd, env)).run.t == r.t
  {
    StepNoResults(r, pc, km, pd, env);
  }

  /** `tracker` returns normally only once the offset has reached the total, or on a zero total. */
  lemma TrackerEnds(s: Session, t: Table, fuel: nat, pc: Value, km: Value, pd: string, env: Env)
    ensures var e := Tracker(s, t, fuel, pc, km, pd, env);
      && (e.outcome == Finished ==> IntLess(e.run.processed, e.run.total) == Some(false))
      && (e.outcome == NoResults ==> EqualsZero(e.run.total))
  {
    forall x: Run<Session> ensures StopsOnlyEarly(Iteration(pc, km, pd, env)(x)) {
      StepNoResults(x, pc, km, pd, env);
    }
    LoopEnds(InitialRun(s, t), fuel, Iteration(pc, km, pd, env));
  }

  /** Handling a page keeps every record already stored and tags every record it adds. */
  lemma PageTagsRecords(r: Run<Session>, res: Value, pc: Value, km: Value, pd: string, env: Env)
    ensures KeepsAndTags(r.t, Reached(PageStep(r, res, pc, km, pd, env)).t, SearchTag(pc, km, pd, env.show))
  {
    var step := PageStep(r, res, pc, km, pd, env);
    if step.Continue? {
      var p := Parse(r.s, res, true, env).value;
      var q := SearchTag(pc, km, pd, env.show);
      ParsedRowsUntagged(r.s, res, true, env);
      var rows := TagAll(p.rows, q);
      TagAllRows(p.rows, q);
      StoreAllEffect(r.t, rows, env);
      StoreAllCarries(r.t, rows, env, SearchQuery, Str(q));
    }
  }

  /**
   * One iteration keeps every record already stored and tags every record it
   * adds with the search query.
   */
  lemma StepTagsRecords(r: Run<Session>, pc: Value, km: Value, pd: string, env: Env)
    ensures KeepsAndTags(r.t, Reached(TrackStep(r, pc, km, pd, env)).t, SearchTag(pc, km, pd, env.show))
  {
    var f := GetResults(r.s.g, pc, km, pd, "buy", r.processed, env);
    if f.result.Ok? {
      PageTagsRecords(r.(s := r.s.(g := f.g)), f.result.value, pc, km, pd, env);
    }
  }

  /**
   * Over a whole run no stored record is changed, and every record the run
   * adds is tagged "postal~radius~pubdate".
   */
  lemma TrackerTagsRecords(s: Session, t: Table, fuel: nat, pc: Value, km: Value, pd: string, env: Env)
    ensures KeepsAndTags(t, Tracker(s, t, fuel, pc, km, pd, env).run.t, SearchTag(pc, km, pd, env.show))
  {
    var q := SearchTag(pc, km, pd, env.show);
    forall x: Run<Session> ensures KeepsAndTags(x.t, Reached(Iteration(pc, km, pd, env)(x)).t, q) {
      StepTagsRecords(x, pc, km, pd, env);
    }
    LoopKeepsAndTags(InitialRun(s, t), fuel, Iteration(pc, km, pd, env), q);
  }
}
