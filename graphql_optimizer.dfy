/**
 * The GraphQL clients' bulk fetches, the same in both client generations: the single
 * all-data query (first pages only) and the "ultra-optimised" fetch, which reads both page
 * counts from the all-data query and then walks the remaining page lists with one index,
 * pairing a character page and a location page into one combined query where both exist.
 */
module GraphqlOptimizer {
  import opened Wrappers
  import opened Utils
  import opened Models
  import opened BaseClient
  import opened Graphql

  /** The all-data query's result: the first page of characters and of locations. */
  datatype FirstPages = FirstPages(characters: seq<Character>, locations: seq<Location>)

  /** `fetch_all_data_optimized`: one query; both result lists parsed, any failure propagating. */
  function OptimizedSpec(execute: Query -> Result<GqlData, string>): Result<FirstPages, Error> {
    var r := ExecuteQuery(execute, AllData);
    if r.Err? then Err(r.error)
    else
      var cs := ParseItems(CharItems(r.value), Graphql.ParseCharacter);
      if cs.Err? then Err(cs.error)
      else
        var ls := ParseItems(LocItems(r.value), Graphql.ParseLocation);
        if ls.Err? then Err(ls.error) else Ok(FirstPages(cs.value, ls.value))
  }

  /**
   * The all-data fetch: exactly the items of the one response, in order; it fails exactly
   * when the query or one item's parse fails.
   */
  method FetchAllDataOptimized(execute: Query -> Result<GqlData, string>)
    returns (result: Result<FirstPages, Error>)
    ensures result == OptimizedSpec(execute)
    ensures result.Ok? <==> (&& execute(AllData).Ok?
                             && (forall k :: 0 <= k < |CharItems(execute(AllData).value)| ==>
                                   Graphql.ParseCharacter(CharItems(execute(AllData).value)[k]).Ok?)
                             && (forall k :: 0 <= k < |LocItems(execute(AllData).value)| ==>
                                   Graphql.ParseLocation(LocItems(execute(AllData).value)[k]).Ok?))
    ensures result.Ok? ==> (&& |result.value.characters| == |CharItems(execute(AllData).value)|
                            && |result.value.locations| == |LocItems(execute(AllData).value)|)
  {
    var r := ExecuteQuery(execute, AllData);
    if r.Err? {
      return Err(r.error);
    }
    var characters := AppendParsed([], CharItems(r.value), Graphql.ParseCharacter);
    if characters.Err? {
      return Err(characters.error);
    }
    var locations := AppendParsed([], LocItems(r.value), Graphql.ParseLocation);
    if locations.Err? {
      return Err(locations.error);
    }
    assert [] + ParseItems(CharItems(r.value), Graphql.ParseCharacter).value
           == ParseItems(CharItems(r.value), Graphql.ParseCharacter).value;
    assert [] + ParseItems(LocItems(r.value), Graphql.ParseLocation).value
           == ParseItems(LocItems(r.value), Graphql.ParseLocation).value;
    result := Ok(FirstPages(characters.value, locations.value));
  }

  // ---------------------------------------------------------------------------------------
  // fetch_all_data_ultra_optimized

  /** The loop's accumulators: `all_characters`, `all_locations` and `queries_made`. */
  datatype Tally = Tally(characters: seq<Character>, locations: seq<Location>, apiCalls: int)

  /** The run of the ultra-optimised fetch: the final tally or the exception, and the queries sent. */
  datatype UltraRun = UltraRun(result: Result<Tally, Error>, queries: seq<Query>)

  /** The two item parsers the loop applies. */
  datatype Parsers = Parsers(character: GqlCharacter -> Result<Character, Error>,
                             location: GqlLocation -> Result<Location, Error>)

  /** The clients' parsers, `_parse_character` and `_parse_location`. */
  const GqlParsers: Parsers := Parsers(Graphql.ParseCharacter, Graphql.ParseLocation)

  /** A run that continues a log of queries already sent. */
  function After(log: seq<Query>, run: UltraRun): UltraRun {
    UltraRun(run.result, log + run.queries)
  }

  lemma AfterAfter(a: seq<Query>, b: seq<Query>, run: UltraRun)
    ensures After(a, After(b, run)) == After(a + b, run)
  {
    assert a + (b + run.queries) == (a + b) + run.queries;
  }

  const DefaultCharacterPages: int := 42
  const DefaultLocationPages: int := 7

  /**
   * The fallback after a failed combined query: the character page, then the location page,
   * each by itself; here every exception propagates.
   */
  function Fallback(execute: Query -> Result<GqlData, string>, ps: Parsers, charPage: int, locPage: int, t: Tally,
                    log: seq<Query>): UltraRun
  {
    var q1 := CharactersPage(charPage);
    var r1 := ExecuteQuery(execute, q1);
    if r1.Err? then UltraRun(Err(r1.error), log + [q1])
    else
      var chars := CharItems(r1.value);
      if FirstFailure(chars, ps.character).Some? then
        UltraRun(Err(FirstFailure(chars, ps.character).value), log + [q1])
      else
        var q2 := LocationsPage(locPage);
        var r2 := ExecuteQuery(execute, q2);
        if r2.Err? then UltraRun(Err(r2.error), log + [q1, q2])
        else
          var locs := LocItems(r2.value);
          if FirstFailure(locs, ps.location).Some? then
            UltraRun(Err(FirstFailure(locs, ps.location).value), log + [q1, q2])
          else
            UltraRun(Ok(Tally(t.characters + ParsedPrefix(chars, ps.character),
                              t.locations + ParsedPrefix(locs, ps.location), t.apiCalls + 2)),
                     log + [q1, q2])
  }

  /**
   * An index with both pages: one combined query.  Its counter step happens as soon as the
   * query returns; any exception in the query or in parsing its items (after the items parsed
   * so far were appended) falls back to the two single queries.
   */
  function CombinedStep(execute: Query -> Result<GqlData, string>, ps: Parsers, charPage: int, locPage: int, t: Tally)
    : UltraRun
  {
    var q := CombinedPage(charPage, locPage);
    var r := ExecuteQuery(execute, q);
    if r.Err? then Fallback(execute, ps, charPage, locPage, t, [q])
    else
      var chars := CharItems(r.value);
      var withChars := t.characters + ParsedPrefix(chars, ps.character);
      if FirstFailure(chars, ps.character).Some? then
        Fallback(execute, ps, charPage, locPage, Tally(withChars, t.locations, t.apiCalls + 1), [q])
      else
        var locs := LocItems(r.value);
        var withLocs := t.locations + ParsedPrefix(locs, ps.location);
        if FirstFailure(locs, ps.location).Some? then
          Fallback(execute, ps, charPage, locPage, Tally(withChars, withLocs, t.apiCalls + 1), [q])
        else UltraRun(Ok(Tally(withChars, withLocs, t.apiCalls + 1)), [q])
  }

  /**
   * An index with only a character page: one query; an exception is logged and the page
   * skipped, keeping whatever items were appended before it.
   */
  function CharOnlyStep(execute: Query -> Result<GqlData, string>, ps: Parsers, charPage: int, t: Tally): UltraRun {
    var q := CharactersPage(charPage);
    var r := ExecuteQuery(execute, q);
    if r.Err? then UltraRun(Ok(t), [q])
    else
      UltraRun(Ok(Tally(t.characters + ParsedPrefix(CharItems(r.value), ps.character),
                        t.locations, t.apiCalls + 1)), [q])
  }

  /** One pass of the loop body at index `i`; an index with only a location page does nothing. */
  function IndexStep(execute: Query -> Result<GqlData, string>, ps: Parsers, charPages: seq<int>, locPages: seq<int>,
                     i: nat, t: Tally): UltraRun
  {
    if i < |charPages| && i < |locPages| then CombinedStep(execute, ps, charPages[i], locPages[i], t)
    else if i < |charPages| then CharOnlyStep(execute, ps, charPages[i], t)
    else UltraRun(Ok(t), [])
  }

  /** `while i < len(remaining_char_pages) or i < len(remaining_loc_pages)` from index `i` on. */
  function UltraLoop(execute: Query -> Result<GqlData, string>, ps: Parsers, charPages: seq<int>, locPages: seq<int>,
                     i: nat, t: Tally): UltraRun
    decreases |charPages| + |locPages| - i
  {
    if !(i < |charPages| || i < |locPages|) then UltraRun(Ok(t), [])
    else
      var step := IndexStep(execute, ps, charPages, locPages, i, t);
      if step.result.Err? then step
      else After(step.queries, UltraLoop(execute, ps, charPages, locPages, i + 1, step.result.value))
  }

  /** `first_result.get('characters', {}).get('info', {}).get('pages', 42)`. */
  function CharPageCount(d: GqlData): int { PagesOr(d.characters, DefaultCharacterPages) }

  /** `first_result.get('locations', {}).get('info', {}).get('pages', 7)`. */
  function LocPageCount(d: GqlData): int { PagesOr(d.locations, DefaultLocationPages) }

  /** The all-data query succeeded and all its items parsed, so the loop runs. */
  predicate ReachesLoop(execute: Query -> Result<GqlData, string>, ps: Parsers) {
    && execute(AllData).Ok?
    && FirstFailure(CharItems(execute(AllData).value), ps.character).None?
    && FirstFailure(LocItems(execute(AllData).value), ps.location).None?
  }

  /** The tally before the loop: the first pages' items, and one query made. */
  function FirstTally(d: GqlData, ps: Parsers): Tally {
    Tally(ParsedPrefix(CharItems(d), ps.character), ParsedPrefix(LocItems(d), ps.location), 1)
  }

  /** The loop as it starts after the all-data query. */
  function LoopFromFirst(execute: Query -> Result<GqlData, string>, ps: Parsers, d: GqlData): UltraRun {
    UltraLoop(execute, ps, Range(2, CharPageCount(d) + 1), Range(2, LocPageCount(d) + 1), 0, FirstTally(d, ps))
  }

  /**
   * The whole fetch: the all-data query (its failures and its first pages' parse failures
   * propagate), page counts from its `info` (42 and 7 when absent), then the loop over
   * `[2..characterPages]` and `[2..locationPages]` with the counter starting at 1.
   */
  function UltraSpec(execute: Query -> Result<GqlData, string>, ps: Parsers): UltraRun {
    var first := ExecuteQuery(execute, AllData);
    if first.Err? then UltraRun(Err(first.error), [AllData])
    else
      var chars := CharItems(first.value);
      var locs := LocItems(first.value);
      if FirstFailure(chars, ps.character).Some? then
        UltraRun(Err(FirstFailure(chars, ps.character).value), [AllData])
      else if FirstFailure(locs, ps.location).Some? then
        UltraRun(Err(FirstFailure(locs, ps.location).value), [AllData])
      else After([AllData], LoopFromFirst(execute, ps, first.value))
  }

  /** The fetch either stops after the all-data query or continues into the loop. */
  lemma UltraSpecShape(execute: Query -> Result<GqlData, string>, ps: Parsers)
    ensures !ReachesLoop(execute, ps) ==> UltraSpec(execute, ps).result.Err? && UltraSpec(execute, ps).queries == [AllData]
    ensures ReachesLoop(execute, ps) ==>
              UltraSpec(execute, ps) == After([AllData], LoopFromFirst(execute, ps, execute(AllData).value))
    ensures ReachesLoop(execute, ps) ==>
              UltraSpec(execute, ps).queries == [AllData] + LoopFromFirst(execute, ps, execute(AllData).value).queries
  {
  }

  lemma UltraLoopUnfold(execute: Query -> Result<GqlData, string>, ps: Parsers, charPages: seq<int>, locPages: seq<int>,
                        i: nat, t: Tally, step: UltraRun)
    requires i < |charPages| || i < |locPages|
    requires step == IndexStep(execute, ps, charPages, locPages, i, t)
    ensures step.result.Err? ==> UltraLoop(execute, ps, charPages, locPages, i, t) == step
    ensures step.result.Ok? ==> UltraLoop(execute, ps, charPages, locPages, i, t)
                                == After(step.queries, UltraLoop(execute, ps, charPages, locPages, i + 1, step.result.value))
  {
  }

  /** The fallback, appending page by page. */
  method FallbackQueries(execute: Query -> Result<GqlData, string>, ps: Parsers, charPage: int, locPage: int,
                         t: Tally, log: seq<Query>) returns (run: UltraRun)
    ensures run == Fallback(execute, ps, charPage, locPage, t, log)
  {
    var q1 := CharactersPage(charPage);
    var r1 := ExecuteQuery(execute, q1);
    if r1.Err? {
      return UltraRun(Err(r1.error), log + [q1]);
    }
    var characters, failure := ExtendParsed(t.characters, CharItems(r1.value), ps.character);
    if failure.Some? {
      return UltraRun(Err(failure.value), log + [q1]);
    }
    var q2 := LocationsPage(locPage);
    var r2 := ExecuteQuery(execute, q2);
    if r2.Err? {
      return UltraRun(Err(r2.error), log + [q1, q2]);
    }
    var locations, failure2 := ExtendParsed(t.locations, LocItems(r2.value), ps.location);
    if failure2.Some? {
      return UltraRun(Err(failure2.value), log + [q1, q2]);
    }
    run := UltraRun(Ok(Tally(characters, locations, t.apiCalls + 2)), log + [q1, q2]);
  }

  /** The combined-query branch of the loop body. */
  method CombinedQuery(execute: Query -> Result<GqlData, string>, ps: Parsers, charPage: int, locPage: int, t: Tally)
    returns (run: UltraRun)
    ensures run == CombinedStep(execute, ps, charPage, locPage, t)
  {
    var q := CombinedPage(charPage, locPage);
    var r := ExecuteQuery(execute, q);
    if r.Err? {
      run := FallbackQueries(execute, ps, charPage, locPage, t, [q]);
      return;
    }
    var characters, failure := ExtendParsed(t.characters, CharItems(r.value), ps.character);
    if failure.Some? {
      run := FallbackQueries(execute, ps, charPage, locPage, Tally(characters, t.locations, t.apiCalls + 1), [q]);
      return;
    }
    var locations, failure2 := ExtendParsed(t.locations, LocItems(r.value), ps.location);
    if failure2.Some? {
      run := FallbackQueries(execute, ps, charPage, locPage, Tally(characters, locations, t.apiCalls + 1), [q]);
      return;
    }
    run := UltraRun(Ok(Tally(characters, locations, t.apiCalls + 1)), [q]);
  }

  /** The character-only branch of the loop body. */
  method CharacterQuery(execute: Query -> Result<GqlData, string>, ps: Parsers, charPage: int, t: Tally)
    returns (run: UltraRun)
    ensures run == CharOnlyStep(execute, ps, charPage, t)
  {
    var q := CharactersPage(charPage);
    var r := ExecuteQuery(execute, q);
    if r.Err? {
      return UltraRun(Ok(t), [q]);
    }
    var characters, _ := ExtendParsed(t.characters, CharItems(r.value), ps.character);
    run := UltraRun(Ok(Tally(characters, t.locations, t.apiCalls + 1)), [q]);
  }

  /** `fetch_all_data_ultra_optimized`, with the index loop spelled out. */
  method FetchAllDataUltraOptimized(execute: Query -> Result<GqlData, string>)
    returns (result: Result<Tally, Error>, queries: seq<Query>)
    ensures UltraRun(result, queries) == UltraSpec(execute, GqlParsers)
  {
    var ps := GqlParsers;
    queries := [AllData];
    var first := ExecuteQuery(execute, AllData);
    if first.Err? {
      return Err(first.error), queries;
    }
    var pc := CharPageCount(first.value);
    var pl := LocPageCount(first.value);
    var characters, failure := ExtendParsed([], CharItems(first.value), ps.character);
    if failure.Some? {
      return Err(failure.value), queries;
    }
    var locations, failure2 := ExtendParsed([], LocItems(first.value), ps.location);
    if failure2.Some? {
      return Err(failure2.value), queries;
    }
    assert [] + ParsedPrefix(CharItems(first.value), ps.character)
           == ParsedPrefix(CharItems(first.value), ps.character);
    assert [] + ParsedPrefix(LocItems(first.value), ps.location)
           == ParsedPrefix(LocItems(first.value), ps.location);
    var t := Tally(characters, locations, 1);
    assert t == FirstTally(first.value, ps);
    var loop := IndexLoop(execute, ps, Range(2, pc + 1), Range(2, pl + 1), t);
    UltraSpecShape(execute, ps);
    result, queries := loop.result, queries + loop.queries;
  }

  /** The `while` loop over the remaining page lists, starting at index 0 with tally `t0`. */
  method IndexLoop(execute: Query -> Result<GqlData, string>, ps: Parsers,
                   remainingCharPages: seq<int>, remainingLocPages: seq<int>, t0: Tally)
    returns (run: UltraRun)
    ensures run == UltraLoop(execute, ps, remainingCharPages, remainingLocPages, 0, t0)
  {
    var queries: seq<Query> := [];
    var t := t0;
    var i: nat := 0;
    assert queries + UltraLoop(execute, ps, remainingCharPages, remainingLocPages, 0, t0).queries
           == UltraLoop(execute, ps, remainingCharPages, remainingLocPages, 0, t0).queries;
    while i < |remainingCharPages| || i < |remainingLocPages|
      invariant UltraLoop(execute, ps, remainingCharPages, remainingLocPages, 0, t0)
                == After(queries, UltraLoop(execute, ps, remainingCharPages, remainingLocPages, i, t))
      decreases |remainingCharPages| + |remainingLocPages| - i
    {
      var step;
      if i < |remainingCharPages| && i < |remainingLocPages| {
        step := CombinedQuery(execute, ps, remainingCharPages[i], remainingLocPages[i], t);
      } else if i < |remainingCharPages| {
        step := CharacterQuery(execute, ps, remainingCharPages[i], t);
      } else {
        step := UltraRun(Ok(t), []);
      }
      UltraLoopUnfold(execute, ps, remainingCharPages, remainingLocPages, i, t, step);
      if step.result.Err? {
        return UltraRun(step.result, queries + step.queries);
      }
      AfterAfter(queries, step.queries, UltraLoop(execute, ps, remainingCharPages, remainingLocPages, i + 1, step.result.value));
      queries := queries + step.queries;
      t := step.result.value;
      i := i + 1;
    }
    assert queries + [] == queries;
    run := UltraRun(Ok(t), queries);
  }

  // ---------------------------------------------------------------------------------------
  // What the ultra-optimised fetch requests

  /**
   * A query the loop may send, given the two page counts: a combined query always pairs
   * equal page numbers, and no location page above the character page count is ever asked for.
   */
  predicate PagedWithin(q: Query, pc: int, pl: int) {
    match q
    case CombinedPage(c, l) => c == l && 2 <= c <= pc && c <= pl
    case CharactersPage(p) => 2 <= p <= pc
    case LocationsPage(p) => 2 <= p <= pc && p <= pl
    case _ => false
  }

  /** The queries one fallback sends after `log`, and its counter step when it succeeds. */
  lemma FallbackShape(execute: Query -> Result<GqlData, string>, ps: Parsers, charPage: int, locPage: int,
                      t: Tally, log: seq<Query>)
    ensures var run := Fallback(execute, ps, charPage, locPage, t, log);
      && (run.queries == log + [CharactersPage(charPage)]
          || run.queries == log + [CharactersPage(charPage), LocationsPage(locPage)])
      && (run.result.Ok? ==> && run.queries == log + [CharactersPage(charPage), LocationsPage(locPage)]
                             && execute(CharactersPage(charPage)).Ok? && execute(LocationsPage(locPage)).Ok?
                             && run.result.value.apiCalls == t.apiCalls + 2)
  {
  }

  /** The queries one combined step sends: the combined query, then possibly the fallback's. */
  lemma CombinedShape(execute: Query -> Result<GqlData, string>, ps: Parsers, charPage: int, locPage: int, t: Tally)
    ensures var run := CombinedStep(execute, ps, charPage, locPage, t);
      var q := CombinedPage(charPage, locPage);
      && (run.queries == [q] || run.queries == [q, CharactersPage(charPage)]
          || run.queries == [q, CharactersPage(charPage), LocationsPage(locPage)])
      && (run.result.Ok? && run.queries == [q] ==> execute(q).Ok? && run.result.value.apiCalls == t.apiCalls + 1)
      && (run.result.Ok? && run.queries != [q] ==>
            && run.queries == [q, CharactersPage(charPage), LocationsPage(locPage)]
            && execute(CharactersPage(charPage)).Ok? && execute(LocationsPage(locPage)).Ok?
            && run.result.value.apiCalls == t.apiCalls + 2 + (if execute(q).Ok? then 1 else 0))
  {
    var q := CombinedPage(charPage, locPage);
    var r := ExecuteQuery(execute, q);
    var run := CombinedStep(execute, ps, charPage, locPage, t);
    if r.Err? {
      FallbackShape(execute, ps, charPage, locPage, t, [q]);
      assert run == Fallback(execute, ps, charPage, locPage, t, [q]);
      assert !execute(q).Ok?;
    } else {
      var chars := CharItems(r.value);
      var withChars := t.characters + ParsedPrefix(chars, ps.character);
      var locs := LocItems(r.value);
      var withLocs := t.locations + ParsedPrefix(locs, ps.location);
      if FirstFailure(chars, ps.character).Some? {
        var t' := Tally(withChars, t.locations, t.apiCalls + 1);
        FallbackShape(execute, ps, charPage, locPage, t', [q]);
        assert run == Fallback(execute, ps, charPage, locPage, t', [q]);
      } else if FirstFailure(locs, ps.location).Some? {
        var t' := Tally(withChars, withLocs, t.apiCalls + 1);
        FallbackShape(execute, ps, charPage, locPage, t', [q]);
        assert run == Fallback(execute, ps, charPage, locPage, t', [q]);
      } else {
        assert run == UltraRun(Ok(Tally(withChars, withLocs, t.apiCalls + 1)), [q]);
      }
    }
  }

  lemma IndexStepWithin(execute: Query -> Result<GqlData, string>, ps: Parsers, pc: int, pl: int, i: nat, t: Tally)
    ensures var step := IndexStep(execute, ps, Range(2, pc + 1), Range(2, pl + 1), i, t);
      forall k :: 0 <= k < |step.queries| ==> PagedWithin(step.queries[k], pc, pl)
  {
    var rc, rl := Range(2, pc + 1), Range(2, pl + 1);
    var step := IndexStep(execute, ps, rc, rl, i, t);
    if i < |rc| && i < |rl| {
      CombinedShape(execute, ps, rc[i], rl[i], t);
      CombinedShapesWithin(step.queries, i + 2, pc, pl);
    } else if i < |rc| {
      assert step.queries == [CharactersPage(i + 2)];
    }
  }

  /** The queries of a combined step for page `p` are within the page counts when `p` is. */
  lemma CombinedShapesWithin(qs: seq<Query>, p: int, pc: int, pl: int)
    requires 2 <= p <= pc && p <= pl
    requires || qs == [CombinedPage(p, p)]
             || qs == [CombinedPage(p, p), CharactersPage(p)]
             || qs == [CombinedPage(p, p), CharactersPage(p), LocationsPage(p)]
    ensures forall k :: 0 <= k < |qs| ==> PagedWithin(qs[k], pc, pl)
  {
  }

  lemma {:induction false} UltraLoopWithin(execute: Query -> Result<GqlData, string>, ps: Parsers, pc: int, pl: int, i: nat, t: Tally)
    ensures var run := UltraLoop(execute, ps, Range(2, pc + 1), Range(2, pl + 1), i, t);
      forall k :: 0 <= k < |run.queries| ==> PagedWithin(run.queries[k], pc, pl)
    decreases |Range(2, pc + 1)| + |Range(2, pl + 1)| - i
  {
    var rc, rl := Range(2, pc + 1), Range(2, pl + 1);
    if i < |rc| || i < |rl| {
      var step := IndexStep(execute, ps, rc, rl, i, t);
      IndexStepWithin(execute, ps, pc, pl, i, t);
      UltraLoopUnfold(execute, ps, rc, rl, i, t, step);
      if step.result.Ok? {
        UltraLoopWithin(execute, ps, pc, pl, i + 1, step.result.value);
      }
    }
  }

  /** The loop started after the all-data query stays within the page counts that query reported. */
  lemma LoopFromFirstWithin(execute: Query -> Result<GqlData, string>, ps: Parsers, d: GqlData)
    ensures var loop := LoopFromFirst(execute, ps, d);
      forall k :: 0 <= k < |loop.queries| ==> PagedWithin(loop.queries[k], CharPageCount(d), LocPageCount(d))
  {
    var pc, pl := CharPageCount(d), LocPageCount(d);
    assert LoopFromFirst(execute, ps, d) == UltraLoop(execute, ps, Range(2, pc + 1), Range(2, pl + 1), 0, FirstTally(d, ps));
    UltraLoopWithin(execute, ps, pc, pl, 0, FirstTally(d, ps));
  }

  /**
   * Every query of the ultra-optimised fetch after the first all-data query stays within the
   * page counts that query reported (42 and 7 when it reported none); in particular no
   * location page beyond the character page count is ever requested.
   */
  lemma UltraQueriesWithin(execute: Query -> Result<GqlData, string>, ps: Parsers)
    ensures var run := UltraSpec(execute, ps);
      && |run.queries| >= 1 && run.queries[0] == AllData
      && (execute(AllData).Ok? ==>
            var pc := CharPageCount(execute(AllData).value);
            var pl := LocPageCount(execute(AllData).value);
            forall k :: 1 <= k < |run.queries| ==> PagedWithin(run.queries[k], pc, pl))
  {
    UltraSpecShape(execute, ps);
    if ReachesLoop(execute, ps) {
      var d := execute(AllData).value;
      var loop := LoopFromFirst(execute, ps, d);
      LoopFromFirstWithin(execute, ps, d);
      AllDataThenWithin(loop.queries, CharPageCount(d), LocPageCount(d));
    }
  }

  lemma AllDataThenWithin(qs: seq<Query>, pc: int, pl: int)
    requires forall k :: 0 <= k < |qs| ==> PagedWithin(qs[k], pc, pl)
    ensures var all := [AllData] + qs;
      forall k :: 1 <= k < |all| ==> PagedWithin(all[k], pc, pl)
  {
    var all := [AllData] + qs;
    forall k | 1 <= k < |all| ensures PagedWithin(all[k], pc, pl) {
      assert all[k] == qs[k - 1];
    }
  }

  // ---------------------------------------------------------------------------------------
  // What the counter counts

  /** The number of queries in `qs` that the server answered. */
  function CountOk(execute: Query -> Result<GqlData, string>, qs: seq<Query>): (n: nat)
    ensures n <= |qs|
  {
    if qs == [] then 0 else (if execute(qs[0]).Ok? then 1 else 0) + CountOk(execute, qs[1..])
  }

  lemma {:induction false} CountOkAppend(execute: Query -> Result<GqlData, string>, a: seq<Query>, b: seq<Query>)
    ensures CountOk(execute, a + b) == CountOk(execute, a) + CountOk(execute, b)
  {
    if a == [] {
      assert a + b == b;
    } else {
      assert (a + b)[1..] == a[1..] + b;
      CountOkAppend(execute, a[1..], b);
    }
  }

  lemma IndexStepCounts(execute: Query -> Result<GqlData, string>, ps: Parsers, charPages: seq<int>,
                        locPages: seq<int>, i: nat, t: Tally)
    ensures var step := IndexStep(execute, ps, charPages, locPages, i, t);
      step.result.Ok? ==> step.result.value.apiCalls == t.apiCalls + CountOk(execute, step.queries)
  {
    if i < |charPages| && i < |locPages| {
      var q := CombinedPage(charPages[i], locPages[i]);
      var c, l := CharactersPage(charPages[i]), LocationsPage(locPages[i]);
      CombinedShape(execute, ps, charPages[i], locPages[i], t);
      assert [q, c, l][1..] == [c, l] && [c, l][1..] == [l] && [l][1..] == [] && [q][1..] == [];
      assert CountOk(execute, [l]) == (if execute(l).Ok? then 1 else 0);
      assert CountOk(execute, [c, l]) == (if execute(c).Ok? then 1 else 0) + CountOk(execute, [l]);
      assert CountOk(execute, [q, c, l]) == (if execute(q).Ok? then 1 else 0) + CountOk(execute, [c, l]);
      assert CountOk(execute, [q]) == (if execute(q).Ok? then 1 else 0);
    } else if i < |charPages| {
      assert [CharactersPage(charPages[i])][1..] == [];
    }
  }

  /** The counter has counted exactly the answered queries of `run`, starting from `calls`. */
  ghost predicate Counted(execute: Query -> Result<GqlData, string>, run: UltraRun, calls: int) {
    run.result.Ok? ==> run.result.value.apiCalls == calls + CountOk(execute, run.queries)
  }

  /** The loop body at each index, as one function value. */
  function StepsOf(execute: Query -> Result<GqlData, string>, ps: Parsers, charPages: seq<int>,
                   locPages: seq<int>): (nat, Tally) -> UltraRun
  {
    (j: nat, u: Tally) => IndexStep(execute, ps, charPages, locPages, j, u)
  }

  /** The loop's shape over any body: run `step` at indices `i` to `n - 1`, stopping at the first error. */
  function Steps(step: (nat, Tally) -> UltraRun, n: nat, i: nat, t: Tally): UltraRun
    decreases n - i
  {
    if n <= i then UltraRun(Ok(t), [])
    else
      var s := step(i, t);
      if s.result.Err? then s else After(s.queries, Steps(step, n, i + 1, s.result.value))
  }

  /** The loop is that shape with the loop body as its step, up to the longer page list. */
  lemma {:induction false} UltraLoopSteps(execute: Query -> Result<GqlData, string>, ps: Parsers, charPages: seq<int>,
                                          locPages: seq<int>, i: nat, t: Tally)
    ensures UltraLoop(execute, ps, charPages, locPages, i, t)
            == Steps(StepsOf(execute, ps, charPages, locPages),
                     if |charPages| < |locPages| then |locPages| else |charPages|, i, t)
    decreases |charPages| + |locPages| - i
  {
    if i < |charPages| || i < |locPages| {
      var step := IndexStep(execute, ps, charPages, locPages, i, t);
      if step.result.Ok? {
        UltraLoopSteps(execute, ps, charPages, locPages, i + 1, step.result.value);
      }
    }
  }

  /** A loop whose every step counts its answered queries counts all of them. */
  lemma {:induction false} StepsCount(execute: Query -> Result<GqlData, string>, step: (nat, Tally) -> UltraRun,
                                      n: nat, i: nat, t: Tally)
    requires forall j: nat, u: Tally :: Counted(execute, step(j, u), u.apiCalls)
    ensures Counted(execute, Steps(step, n, i, t), t.apiCalls)
    decreases n - i
  {
    if i < n {
      var s := step(i, t);
      if s.result.Ok? {
        StepsCount(execute, step, n, i + 1, s.result.value);
        CountsAfter(execute, t.apiCalls, s, Steps(step, n, i + 1, s.result.value));
      }
    }
  }

  lemma UltraLoopCounts(execute: Query -> Result<GqlData, string>, ps: Parsers, charPages: seq<int>,
                        locPages: seq<int>, i: nat, t: Tally)
    ensures var run := UltraLoop(execute, ps, charPages, locPages, i, t);
      run.result.Ok? ==> run.result.value.apiCalls == t.apiCalls + CountOk(execute, run.queries)
  {
    var step := StepsOf(execute, ps, charPages, locPages);
    forall j: nat, u: Tally
      ensures Counted(execute, step(j, u), u.apiCalls)
    {
      IndexStepCounts(execute, ps, charPages, locPages, j, u);
    }
    UltraLoopSteps(execute, ps, charPages, locPages, i, t);
    StepsCount(execute, step, if |charPages| < |locPages| then |locPages| else |charPages|, i, t);
  }

  /** The counter over a step and the rest of the loop after it adds up. */
  lemma CountsAfter(execute: Query -> Result<GqlData, string>, calls: int, step: UltraRun, rest: UltraRun)
    requires step.result.Ok? && step.result.value.apiCalls == calls + CountOk(execute, step.queries)
    requires rest.result.Ok? ==> rest.result.value.apiCalls == step.result.value.apiCalls + CountOk(execute, rest.queries)
    ensures var run := After(step.queries, rest);
      run.result.Ok? ==> run.result.value.apiCalls == calls + CountOk(execute, run.queries)
  {
    CountOkAppend(execute, step.queries, rest.queries);
  }

  /**
   * `api_calls` counts exactly the queries that succeeded: the first query, and every later
   * one whose request returned, whether or not its items then parsed.
   */
  lemma UltraCounterCountsAnswers(execute: Query -> Result<GqlData, string>, ps: Parsers)
    ensures var run := UltraSpec(execute, ps);
      run.result.Ok? ==> run.result.value.apiCalls == CountOk(execute, run.queries)
  {
    UltraSpecShape(execute, ps);
    if ReachesLoop(execute, ps) {
      var d := execute(AllData).value;
      var loop := LoopFromFirst(execute, ps, d);
      UltraLoopCounts(execute, ps, Range(2, CharPageCount(d) + 1), Range(2, LocPageCount(d) + 1), 0, FirstTally(d, ps));
      CountOkAppend(execute, [AllData], loop.queries);
      assert [AllData][1..] == [];
    }
  }

  // ---------------------------------------------------------------------------------------
  // A run where nothing fails

  /** Every query is answered and every item of every answer parses. */
  ghost predicate NoFailures(execute: Query -> Result<GqlData, string>, ps: Parsers) {
    forall q :: && execute(q).Ok?
                && FirstFailure(CharItems(execute(q).value), ps.character).None?
                && FirstFailure(LocItems(execute(q).value), ps.location).None?
  }

  /** The query for page `page` when nothing fails: combined while there is a location page too. */
  function HappyQuery(page: int, pl: int): Query {
    if page <= pl then CombinedPage(page, page) else CharactersPage(page)
  }

  lemma HappyStep(execute: Query -> Result<GqlData, string>, ps: Parsers, pc: int, pl: int, i: nat, t: Tally)
    requires NoFailures(execute, ps)
    ensures var step := IndexStep(execute, ps, Range(2, pc + 1), Range(2, pl + 1), i, t);
      && step.result.Ok?
      && (i < |Range(2, pc + 1)| ==> step.queries == [HappyQuery(i + 2, pl)]
                                     && step.result.value.apiCalls == t.apiCalls + 1)
      && (i >= |Range(2, pc + 1)| ==> step.queries == [] && step.result.value == t)
  {
    var rc, rl := Range(2, pc + 1), Range(2, pl + 1);
    if i < |rc| && i < |rl| {
      var q := CombinedPage(rc[i], rl[i]);
      assert execute(q).Ok? && FirstFailure(CharItems(execute(q).value), ps.character).None?
             && FirstFailure(LocItems(execute(q).value), ps.location).None?;
    } else if i < |rc| {
      assert execute(CharactersPage(rc[i])).Ok?;
    }
  }

  lemma {:induction false} LoopNoFailures(execute: Query -> Result<GqlData, string>, ps: Parsers, pc: int, pl: int,
                                          i: nat, t: Tally)
    requires NoFailures(execute, ps)
    ensures var run := UltraLoop(execute, ps, Range(2, pc + 1), Range(2, pl + 1), i, t);
      && run.result.Ok?
      && |run.queries| == Max(0, pc - 1 - i)
      && (forall k :: 0 <= k < |run.queries| ==> run.queries[k] == HappyQuery(i + k + 2, pl))
      && run.result.value.apiCalls == t.apiCalls + |run.queries|
    decreases |Range(2, pc + 1)| + |Range(2, pl + 1)| - i
  {
    var rc, rl := Range(2, pc + 1), Range(2, pl + 1);
    if i < |rc| || i < |rl| {
      var step := IndexStep(execute, ps, rc, rl, i, t);
      HappyStep(execute, ps, pc, pl, i, t);
      UltraLoopUnfold(execute, ps, rc, rl, i, t, step);
      var rest := UltraLoop(execute, ps, rc, rl, i + 1, step.result.value);
      LoopNoFailures(execute, ps, pc, pl, i + 1, step.result.value);
      if i < |rc| {
        ConsHappy(i, pl, rest.queries, step.queries + rest.queries);
      }
    }
  }

  lemma ConsHappy(i: nat, pl: int, rest: seq<Query>, all: seq<Query>)
    requires all == [HappyQuery(i + 2, pl)] + rest
    requires forall k :: 0 <= k < |rest| ==> rest[k] == HappyQuery(i + 1 + k + 2, pl)
    ensures forall k :: 0 <= k < |all| ==> all[k] == HappyQuery(i + k + 2, pl)
  {
    forall k | 0 <= k < |all|
      ensures all[k] == HappyQuery(i + k + 2, pl)
    {
      if k > 0 {
        assert all[k] == rest[k - 1];
      }
    }
  }

  /**
   * When nothing fails, the fetch sends the all-data query and then exactly one query per
   * remaining character page, page 2 to the character page count, in order: a combined query
   * while a location page of the same number exists, a character query after that. Location
   * pages beyond the character page count are never requested, and the counter ends at the
   * number of queries sent.
   */
  lemma UltraNoFailures(execute: Query -> Result<GqlData, string>, ps: Parsers)
    requires NoFailures(execute, ps)
    ensures var run := UltraSpec(execute, ps);
      var pc := CharPageCount(execute(AllData).value);
      var pl := LocPageCount(execute(AllData).value);
      && run.result.Ok?
      && |run.queries| == 1 + Max(0, pc - 1)
      && run.queries[0] == AllData
      && (forall k :: 1 <= k < |run.queries| ==> run.queries[k] == HappyQuery(k + 1, pl))
      && run.result.value.apiCalls == |run.queries|
  {
    assert execute(AllData).Ok? && FirstFailure(CharItems(execute(AllData).value), ps.character).None?
           && FirstFailure(LocItems(execute(AllData).value), ps.location).None?;
    UltraSpecShape(execute, ps);
    var d := execute(AllData).value;
    var pc, pl := CharPageCount(d), LocPageCount(d);
    var loop := LoopFromFirst(execute, ps, d);
    LoopNoFailures(execute, ps, pc, pl, 0, FirstTally(d, ps));
    assert loop == UltraLoop(execute, ps, Range(2, pc + 1), Range(2, pl + 1), 0, FirstTally(d, ps));
    HappyAfterAllData(UltraSpec(execute, ps).queries, loop.queries, pl);
  }

  lemma HappyAfterAllData(qs: seq<Query>, rest: seq<Query>, pl: int)
    requires qs == [AllData] + rest
    requires forall k :: 0 <= k < |rest| ==> rest[k] == HappyQuery(k + 2, pl)
    ensures |qs| == 1 + |rest| && qs[0] == AllData
    ensures forall k :: 1 <= k < |qs| ==> qs[k] == HappyQuery(k + 1, pl)
  {
    forall k | 1 <= k < |qs|
      ensures qs[k] == HappyQuery(k + 1, pl)
    {
      assert qs[k] == rest[k - 1];
    }
  }

  /**
   * Without page counts in the first answer the defaults apply: 42 queries in all, pages 2
   * to 7 combined and pages 8 to 42 for characters alone.
   */
  lemma UltraDefaultPages(execute: Query -> Result<GqlData, string>, ps: Parsers)
    requires NoFailures(execute, ps)
    requires execute(AllData).Ok? && execute(AllData).value.characters == None
    requires execute(AllData).value.locations == None
    ensures var run := UltraSpec(execute, ps);
      && run.result.Ok? && run.result.value.apiCalls == |run.queries| == 42
      && (forall k :: 1 <= k <= 6 ==> run.queries[k] == CombinedPage(k + 1, k + 1))
      && (forall k :: 7 <= k < 42 ==> run.queries[k] == CharactersPage(k + 1))
  {
    UltraNoFailures(execute, ps);
  }
}
