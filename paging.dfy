/**
 * What the two pagination loops share: the search-query tag each stored record
 * receives, and the `while results_processed < results_total` loop itself,
 * over any module state `S` and any loop body.
 */
module Paging {
  import opened Base
  import opened Dicts
  import opened Json
  import opened Schema
  import opened Oracles
  import opened Store
  import opened Funda

  // ---------------------------------------------------------------- tagging

  /** `f"{postal_code}~{km_radius}~{publication_date}"` */
  function SearchTag(pc: Value, km: Value, pd: string, show: Value -> string): string {
    Render(pc, show) + "~" + Render(km, show) + "~" + pd
  }

  /** `{**x, "search_query": q}` */
  function Tagged(row: Row, q: string): Row {
    FromPairs(row + [(SearchQuery, Str(q))])
  }

  /** The list comprehension over the parsed rows, with its `if x` filter (an empty dict is falsy). */
  function TagAll(rows: seq<Row>, q: string): seq<Row>
    decreases |rows|
  {
    if rows == [] then []
    else
      var n := |rows| - 1;
      TagAll(rows[..n], q) + if rows[n] != [] then [Tagged(rows[n], q)] else []
  }

  /** Tagging an untagged row appends the tag and leaves a row the store accepts. */
  lemma TaggedAppends(row: Row, q: string)
    requires Untagged(row)
    ensures Tagged(row, q) == row + [(SearchQuery, Str(q))]
    ensures Storable(Tagged(row, q))
    ensures Lookup(Tagged(row, q), SearchQuery) == Some(Str(q))
    ensures forall c :: c != SearchQuery ==> Lookup(Tagged(row, q), c) == Lookup(row, c)
  {
    FromPairsSnoc(row, (SearchQuery, Str(q)));
    FromPairsDistinct(row);
    PutAbsent(row, SearchQuery, Str(q));
    KeysAppend(row, [(SearchQuery, Str(q))]);
    AddedColumnsOrd();
  }

  /** The `if x` filter drops only empty rows: when none is empty, every row is tagged, in order. */
  lemma {:induction false} TagAllKeepsEveryRow(rows: seq<Row>, q: string)
    requires forall i :: 0 <= i < |rows| ==> rows[i] != []
    ensures |TagAll(rows, q)| == |rows|
    ensures forall i :: 0 <= i < |rows| ==> TagAll(rows, q)[i] == Tagged(rows[i], q)
    decreases |rows|
  {
    if rows != [] {
      var n := |rows| - 1;
      var init := rows[..n];
      TagAllKeepsEveryRow(init, q);
      var out := TagAll(rows, q);
      assert out == TagAll(init, q) + [Tagged(rows[n], q)];
      forall i | 0 <= i < |rows| ensures out[i] == Tagged(rows[i], q) {
        if i < n {
          assert out[i] == TagAll(init, q)[i] && init[i] == rows[i];
        }
      }
    }
  }

  /** Every tagged row is accepted by the store and carries the tag. */
  lemma {:induction false} TagAllRows(rows: seq<Row>, q: string)
    requires forall i :: 0 <= i < |rows| ==> Untagged(rows[i])
    ensures |TagAll(rows, q)| <= |rows|
    ensures forall r :: r in TagAll(rows, q) ==> Storable(r) && Lookup(r, SearchQuery) == Some(Str(q))
    decreases |rows|
  {
    if rows != [] {
      var n := |rows| - 1;
      TagAllRows(rows[..n], q);
      TaggedAppends(rows[n], q);
    }
  }

  // ---------------------------------------------------------------- the loop

  /** The loop's variables: the module state, the table, the offset and the total. */
  datatype Run<S> = Run(s: S, t: Table, processed: int, total: Value)

  /** How the loop ends; `OutOfFuel` only marks the end of the iterations the model unrolls. */
  datatype Outcome = Finished | NoResults | Raised(error: Error) | OutOfFuel

  /** What one pass of the body does: go on from `next`, or leave the loop in state `last`. */
  datatype Step<S> = Continue(next: Run<S>) | Stop(outcome: Outcome, last: Run<S>)

  datatype Tracked<S> = Tracked(outcome: Outcome, run: Run<S>)

  /** `results_processed = 0`, `results_total = 1`. */
  function InitialRun<S>(s: S, t: Table): Run<S> {
    Run(s, t, 0, Int(1))
  }

  /**
   * `while results_processed < results_total:` with the body `step`, unrolled
   * at most `fuel` times; comparing the offset with a total that is not a
   * number raises.
   */
  function TrackLoop<S>(r: Run<S>, fuel: nat, step: Run<S> -> Step<S>): Tracked<S>
    decreases fuel
  {
    match IntLess(r.processed, r.total)
    case None => Tracked(Raised(Incomparable(r.total)), r)
    case Some(false) => Tracked(Finished, r)
    case Some(true) =>
      if fuel == 0 then Tracked(OutOfFuel, r)
      else
        match step(r)
        case Stop(o, last) => Tracked(o, last)
        case Continue(next) => TrackLoop(next, fuel - 1, step)
  }

  /** The state an iteration leaves, whether the loop goes on or not. */
  function Reached<S>(step: Step<S>): Run<S> {
    match step
    case Continue(next) => next
    case Stop(_, last) => last
  }

  /** Every record of `t` is still in `t'`, unchanged, and every record `t'` adds carries the tag `q`. */
  predicate KeepsAndTags(t: Table, t': Table, q: string) {
    && (forall id :: id in t.rows ==> id in t'.rows && t'.rows[id] == t.rows[id])
    && (forall id :: id in t'.rows && id !in t.rows ==> Lookup(t'.rows[id], SearchQuery) == Some(Str(q)))
  }

  /**
   * An iteration never finishes the loop itself nor runs out of fuel, and
   * reports no results only on a zero total.
   */
  predicate StopsOnlyEarly<S>(step: Step<S>) {
    step.Stop? ==>
      && step.outcome != Finished && step.outcome != OutOfFuel
      && (step.outcome == NoResults ==> EqualsZero(step.last.total))
  }

  /** `stop` reports how `step` ends the loop, if it does, and `r` is the state it reaches. */
  predicate Follows<S(==)>(stop: Option<Outcome>, step: Step<S>, r: Run<S>) {
    && (stop.None? <==> step.Continue?)
    && (stop.Some? ==> stop.value == step.outcome)
    && Reached(step) == r
  }

  // ---------------------------------------------------------------- properties of any such loop

  /** When every iteration keeps the stored records and tags the new ones, so does the loop. */
  lemma {:induction false} LoopKeepsAndTags<S>(r: Run<S>, fuel: nat, step: Run<S> -> Step<S>, q: string)
    requires forall x: Run<S> :: KeepsAndTags(x.t, Reached(step(x)).t, q)
    ensures KeepsAndTags(r.t, TrackLoop(r, fuel, step).run.t, q)
    decreases fuel
  {
    if IntLess(r.processed, r.total) == Some(true) && fuel > 0 && step(r).Continue? {
      LoopKeepsAndTags(step(r).next, fuel - 1, step, q);
    }
  }

  /**
   * One unrolling of the loop, told by what the iteration did (`stop`) and the
   * state it reached (`r'`), with `fuel'` the fuel that remains.
   */
  lemma LoopUnrolls<S>(r: Run<S>, fuel: nat, fuel': nat, step: Run<S> -> Step<S>, stop: Option<Outcome>, r': Run<S>)
    requires IntLess(r.processed, r.total) == Some(true) && fuel == fuel' + 1
    requires Follows(stop, step(r), r')
    ensures stop.None? ==> TrackLoop(r, fuel, step) == TrackLoop(r', fuel', step)
    ensures stop.Some? ==> TrackLoop(r, fuel, step) == Tracked(stop.value, r')
  {
  }

  /**
   * A loop that finishes stops because the offset is no longer below the
   * total, and one that reports no results stops on a zero total, provided
   * no iteration finishes the loop itself and each reports no results only then.
   */
  lemma {:induction false} LoopEnds<S>(r: Run<S>, fuel: nat, step: Run<S> -> Step<S>)
    requires forall x: Run<S> :: StopsOnlyEarly(step(x))
    ensures TrackLoop(r, fuel, step).outcome == Finished ==>
      IntLess(TrackLoop(r, fuel, step).run.processed, TrackLoop(r, fuel, step).run.total) == Some(false)
    ensures TrackLoop(r, fuel, step).outcome == NoResults ==> EqualsZero(TrackLoop(r, fuel, step).run.total)
    decreases fuel
  {
    if IntLess(r.processed, r.total) == Some(true) && fuel > 0 && step(r).Continue? {
      LoopEnds(step(r).next, fuel - 1, step);
    }
  }


  /** A property of the loop's state that holds at the start and that every iteration keeps holds at the end. */
  lemma {:induction false} LoopPreserves<S>(r: Run<S>, fuel: nat, step: Run<S> -> Step<S>, inv: Run<S> -> bool)
    requires inv(r)
    requires forall x: Run<S> :: inv(x) ==> inv(Reached(step(x)))
    ensures inv(TrackLoop(r, fuel, step).run)
    decreases fuel
  {
    if IntLess(r.processed, r.total) == Some(true) && fuel > 0 && step(r).Continue? {
      LoopPreserves(step(r).next, fuel - 1, step, inv);
    }
  }

  /**
   * A loop whose every iteration that goes on moves the offset by at least
   * `stride` and reports the total `T`, and whose every other iteration
   * stops early, leaves before its fuel runs out, once the fuel covers both
   * the current total and `T`.
   */
  lemma {:induction false} LoopEndsWithin<S>(r: Run<S>, fuel: nat, step: Run<S> -> Step<S>, stride: nat, T: int)
    requires forall x: Run<S> :: step(x).Continue? ==>
      step(x).next.processed >= x.processed + stride && step(x).next.total == Int(T)
    requires forall x: Run<S> :: StopsOnlyEarly(step(x))
    requires r.total.Int? && r.total.i <= r.processed + stride * fuel && T <= r.processed + stride * fuel
    ensures TrackLoop(r, fuel, step).outcome != OutOfFuel
    decreases fuel
  {
    if IntLess(r.processed, r.total) == Some(true) && fuel > 0 && step(r).Continue? {
      var next := step(r).next;
      assert stride * fuel == stride * (fuel - 1) + stride;
      assert next.processed + stride * (fuel - 1) >= r.processed + stride * fuel;
      LoopEndsWithin(next, fuel - 1, step, stride, T);
    }
  }
}
