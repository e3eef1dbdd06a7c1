/**
 * `get_neighbourhood_insights` and `get_listing_insights` without their
 * `lru_cache` decorators: neighbourhood-name normalisation, the module-level
 * `neighbourhood_insights` dict that only successful responses enter, and the
 * mapping of response statuses to a payload or `{}`.
 */
module Insights {
  import opened Base
  import opened Text
  import opened Json
  import opened Oracles

  /**
   * `nb.replace("/", "-").replace(" ", "-").replace("--", "-")`: the last
   * step is one left-to-right pass, so longer runs of hyphens survive.
   */
  function Normalise(nb: string): string {
    Replace(Replace(Replace(nb, "/", "-"), " ", "-"), "--", "-")
  }

  /** The result never holds a slash or a space and is never longer than the name. */
  lemma NormaliseClean(nb: string)
    ensures '/' !in Normalise(nb) && ' ' !in Normalise(nb)
    ensures |Normalise(nb)| <= |nb|
  {
    var a := Replace(nb, "/", "-");
    var b := Replace(a, " ", "-");
    ReplaceChar(nb, '/', '-');
    ReplaceChar(a, ' ', '-');
    assert '/' !in a;
    assert ' ' !in b && '/' !in b;
    ReplaceShrinks(b, "--", "-");
    if '/' in Normalise(nb) {
      ReplaceAlphabet(b, "--", "-", '/');
    }
    if ' ' in Normalise(nb) {
      ReplaceAlphabet(b, "--", "-", ' ');
    }
  }

  /** A name that needs no rewriting is its own normal form. */
  lemma NormalisePlain(nb: string)
    requires '/' !in nb && ' ' !in nb && !Contains(nb, "--")
    ensures Normalise(nb) == nb
  {
    ReplaceChar(nb, '/', '-');
    assert Replace(nb, "/", "-") == nb;
    ReplaceChar(nb, ' ', '-');
    assert Replace(nb, " ", "-") == nb;
    ReplaceAbsent(nb, "--", "-");
  }

  /** Hyphen runs are not fully collapsed, so normalising twice can differ from once. */
  lemma NormaliseKeepsDoubleHyphen()
    ensures Normalise("a / b") == "a--b"
    ensures Normalise("a--b") == "a-b"
  {
    assert Replace("a / b", "/", "-") == "a - b";
    assert Replace("a - b", " ", "-") == "a---b";
    assert Replace("-b", "--", "-") == "-b";
    assert Replace("---b", "--", "-") == "--b";
    assert Replace("a---b", "--", "-") == "a--b";
    assert Replace("a--b", "/", "-") == "a--b";
    assert Replace("a--b", " ", "-") == "a--b";
    assert Replace("b", "--", "-") == "b";
    assert Replace("--b", "--", "-") == "-b";
    assert Replace("a--b", "--", "-") == "a-b";
  }

  /** The key under which a neighbourhood's insights are kept: xxh64 of "{city}-{normalised name}". */
  function NeighbourhoodKey(city: Value, nb: string, env: Env): string {
    env.hash(Render(city, env.show) + "-" + Normalise(nb))
  }

  /** Names that differ only in slashes versus spaces share one key and so one cached payload. */
  lemma SlashAndSpaceShareKey(city: Value, s: string, t: string, env: Env)
    requires |s| == |t|
    requires forall i :: 0 <= i < |s| ==> s[i] == t[i] || (s[i] in "/ " && t[i] in "/ ")
    ensures NeighbourhoodKey(city, s, env) == NeighbourhoodKey(city, t, env)
  {
    ReplaceChar(s, '/', '-');
    ReplaceChar(t, '/', '-');
    var s1, t1 := Replace(s, "/", "-"), Replace(t, "/", "-");
    ReplaceChar(s1, ' ', '-');
    ReplaceChar(t1, ' ', '-');
    var s2, t2 := Replace(s1, " ", "-"), Replace(t1, " ", "-");
    assert forall i :: 0 <= i < |s2| ==> s2[i] == t2[i];
    assert s2 == t2;
  }

  /** The module-level state both fetchers share: the insights dict and the log of requests sent. */
  datatype Globals = Globals(insights: map<string, Value>, requests: seq<Request>)

  /** What a call returns (or raises), with the state it leaves. */
  datatype Fetched = Fetched(result: Result<Value, Error>, g: Globals)

  /**
   * `get_neighbourhood_insights(city, nb)`. A stored key answers without a
   * request; otherwise one request is sent, and only a 200 payload is stored.
   * A name that is not a string raises before anything else happens.
   */
  function FetchNeighbourhood(g: Globals, city: Value, nb: Value, env: Env): (f: Fetched)
    ensures f.result.Err? <==> !nb.Str?
    ensures f.result.Err? ==> f.g == g
    // a stored key answers with what is stored and sends nothing
    ensures nb.Str? && NeighbourhoodKey(city, nb.s, env) in g.insights ==>
      f == Fetched(Ok(g.insights[NeighbourhoodKey(city, nb.s, env)]), g)
    // otherwise exactly one request, for the city and the normalised name
    ensures nb.Str? && NeighbourhoodKey(city, nb.s, env) !in g.insights ==>
      f.g.requests == g.requests + [NeighbourhoodPage(Render(city, env.show), Normalise(nb.s))]
    // the dict only grows by a 200 payload under the key of this call
    ensures f.g.insights == g.insights || (nb.Str? &&
      var key := NeighbourhoodKey(city, nb.s, env);
      var res := env.neighbourhoodPage(Render(city, env.show), Normalise(nb.s));
      key !in g.insights && res.status == 200 &&
      f.g.insights == g.insights[key := res.body] && f.result == Ok(res.body))
    // any status but 200 answers with an empty dict
    ensures nb.Str? && NeighbourhoodKey(city, nb.s, env) !in g.insights ==>
      var res := env.neighbourhoodPage(Render(city, env.show), Normalise(nb.s));
      res.status != 200 ==> f.result == Ok(Obj([])) && f.g.insights == g.insights
  {
    if !nb.Str? then Fetched(Err(NotAString(nb)), g)
    else
      var key := NeighbourhoodKey(city, nb.s, env);
      if key in g.insights then Fetched(Ok(g.insights[key]), g)
      else
        var res := env.neighbourhoodPage(Render(city, env.show), Normalise(nb.s));
        var sent := g.(requests := g.requests + [NeighbourhoodPage(Render(city, env.show), Normalise(nb.s))]);
        if res.status == 200 then Fetched(Ok(res.body), sent.(insights := g.insights[key := res.body]))
        else Fetched(Ok(Obj([])), sent)
  }

  /**
   * `get_listing_insights(listing_id)`: always one request; the payload on
   * 200, an empty dict on 204 or any other status. Nothing is stored.
   */
  function FetchListing(g: Globals, listingId: Value, env: Env): (f: Fetched)
    ensures f.result.Ok? && f.g.insights == g.insights
    ensures f.g.requests == g.requests + [ListingPage(Render(listingId, env.show))]
    ensures env.listingPage(Render(listingId, env.show)).status == 200 ==>
      f.result.value == env.listingPage(Render(listingId, env.show)).body
    ensures env.listingPage(Render(listingId, env.show)).status != 200 ==> f.result.value == Obj([])
  {
    var res := env.listingPage(Render(listingId, env.show));
    var sent := g.(requests := g.requests + [ListingPage(Render(listingId, env.show))]);
    Fetched(Ok(if res.status == 200 then res.body else Obj([])), sent)
  }

  /** Once a 200 payload is stored, every later call for that neighbourhood answers from the dict. */
  lemma StoredPayloadIsReused(g: Globals, city: Value, nb: string, env: Env)
    requires env.neighbourhoodPage(Render(city, env.show), Normalise(nb)).status == 200
    ensures var f := FetchNeighbourhood(g, city, Str(nb), env);
      FetchNeighbourhood(f.g, city, Str(nb), env) == Fetched(f.result, f.g)
  {
  }

  /** A failed request leaves nothing behind but the log, so the next call asks again. */
  lemma FailureIsRetried(g: Globals, city: Value, nb: string, env: Env)
    requires NeighbourhoodKey(city, nb, env) !in g.insights
    requires env.neighbourhoodPage(Render(city, env.show), Normalise(nb)).status != 200
    ensures var f := FetchNeighbourhood(g, city, Str(nb), env);
      |FetchNeighbourhood(f.g, city, Str(nb), env).g.requests| == |g.requests| + 2
  {
  }

  /**
   * The module-level state as the source keeps it: the `neighbourhood_insights`
   * dict, which the neighbourhood fetcher writes in place, and the requests sent.
   */
  class Fetcher {
    var insights: map<string, Value>
    var requests: seq<Request>

    constructor ()
      ensures insights == map[] && requests == []
    {
      insights := map[];
      requests := [];
    }

    function State(): Globals
      reads this
    {
      Globals(insights, requests)
    }

    /** `get_neighbourhood_insights(city, neighbourhood)` */
    method Neighbourhood(city: Value, nb: Value, env: Env) returns (r: Result<Value, Error>)
      modifies this
      ensures Fetched(r, State()) == FetchNeighbourhood(old(State()), city, nb, env)
    {
      if !nb.Str? {
        return Err(NotAString(nb));
      }
      var name := Normalise(nb.s);
      var key := env.hash(Render(city, env.show) + "-" + name);
      if key in insights {
        return Ok(insights[key]);
      }
      var res := env.neighbourhoodPage(Render(city, env.show), name);
      requests := requests + [NeighbourhoodPage(Render(city, env.show), name)];
      if res.status == 200 {
        insights := insights[key := res.body];
        return Ok(insights[key]);
      }
      return Ok(Obj([]));
    }

    /** `get_listing_insights(listing_id)` */
    method Listing(listingId: Value, env: Env) returns (r: Result<Value, Error>)
      modifies this
      ensures Fetched(r, State()) == FetchListing(old(State()), listingId, env)
    {
      var res := env.listingPage(Render(listingId, env.show));
      requests := requests + [ListingPage(Render(listingId, env.show))];
      if res.status == 200 {
        return Ok(res.body);
      }
      return Ok(Obj([]));
    }

    /** `requests.post` to the search endpoint. */
    method Post(body: Value, env: Env) returns (res: Response)
      modifies this
      ensures res == env.search(body)
      ensures State() == Sent(old(State()), body)
    {
      res := env.search(body);
      requests := requests + [Search(body)];
    }

    /** `requests.post` of the older version's query to its search endpoint. */
    method PostQuery(query: Value, env: Env) returns (res: Response)
      modifies this
      ensures res == env.legacySearch(query)
      ensures State() == SentQuery(old(State()), query)
    {
      res := env.legacySearch(query);
      requests := requests + [LegacySearch(query)];
    }
  }

  /**
   * The state after a search request has gone out: only the request log grows.
   * `Pipeline.TrackerTagsRecords` and `Funda.GetResults` rely on the insights staying as they were.
   */
  function Sent(g: Globals, body: Value): (g': Globals)
    ensures g'.insights == g.insights && g'.requests == g.requests + [Search(body)]
  {
    g.(requests := g.requests + [Search(body)])
  }

  /**
   * The state after the older version's search request has gone out: only the
   * request log grows, which `Legacy.LegacyGetResults` relies on.
   */
  function SentQuery(g: Globals, query: Value): (g': Globals)
    ensures g'.insights == g.insights && g'.requests == g.requests + [LegacySearch(query)]
  {
    g.(requests := g.requests + [LegacySearch(query)])
  }
}
