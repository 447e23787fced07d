/**
 * The second-generation GraphQL client: list fetches go through the shared paginator, and a
 * character lookup sends a second query for the character's location.  Query execution, the
 * parse helpers and the optimised fetches are shared with the first generation (modules
 * Graphql and GraphqlOptimizer).
 */
module GraphqlV2 {
  import opened Wrappers
  import opened Text
  import opened Utils
  import opened Models
  import opened BaseClient
  import opened Graphql

  // ---------------------------------------------------------------------------------------
  // fetch_all_characters / fetch_all_locations

  /**
   * The page the paginator sees for a list query: the whole query result, whose only top-level
   * key is the root field (`characters` or `locations`), so it has neither `info` nor `results`.
   */
  function TopLevelPage<R>(r: Result<GqlData, Error>): (p: Result<Page<R>, Error>)
    ensures p.Ok? <==> r.Ok?
    ensures p.Ok? ==> TotalPages(p.value) == 1 && Results(p.value) == []
    ensures p.Err? ==> p.error == r.error
  {
    if r.Ok? then Ok(Page(None, None)) else Err(r.error)
  }

  /** `fetch_page(page)` of `fetch_all_characters`. */
  function CharacterPages(execute: Query -> Result<GqlData, string>): int -> Result<Page<GqlCharacter>, Error> {
    page => TopLevelPage(ExecuteQuery(execute, CharactersPage(page)))
  }

  /** `fetch_page(page)` of `fetch_all_locations`. */
  function LocationPages(execute: Query -> Result<GqlData, string>): int -> Result<Page<GqlLocation>, Error> {
    page => TopLevelPage(ExecuteQuery(execute, LocationsPage(page)))
  }

  /** `fetch_all_characters`: the shared paginator over the characters query. */
  method FetchAllCharacters(execute: Query -> Result<GqlData, string>)
    returns (result: Result<seq<Character>, Error>, pages: seq<int>)
    ensures FetchRun(result, pages) == Paginate(CharacterPages(execute), ParseCharacter, "characters")
  {
    result, pages := PaginateWithProgress(CharacterPages(execute), "characters", ParseCharacter);
  }

  /** `fetch_all_locations`: the shared paginator over the locations query. */
  method FetchAllLocations(execute: Query -> Result<GqlData, string>)
    returns (result: Result<seq<Location>, Error>, pages: seq<int>)
    ensures FetchRun(result, pages) == Paginate(LocationPages(execute), ParseLocation, "locations")
  {
    result, pages := PaginateWithProgress(LocationPages(execute), "locations", ParseLocation);
  }

  /**
   * As written, the list fetches never list anything: page 1 is the only page requested, and
   * the fetch returns no items when that query succeeds, or the query's failure unwrapped.
   */
  lemma FetchAllCharactersFindsNothing(execute: Query -> Result<GqlData, string>)
    ensures var run := Paginate(CharacterPages(execute), ParseCharacter, "characters");
      && run.requested == [1]
      && (execute(CharactersPage(1)).Ok? ==> run.result == Ok([]))
      && (execute(CharactersPage(1)).Err? ==> run.result == Err(ExecuteQuery(execute, CharactersPage(1)).error))
  {
    var first := CharacterPages(execute)(1);
    if first.Ok? {
      assert ParseItems(Results(first.value), ParseCharacter) == Ok([]);
    }
  }

  lemma FetchAllLocationsFindsNothing(execute: Query -> Result<GqlData, string>)
    ensures var run := Paginate(LocationPages(execute), ParseLocation, "locations");
      && run.requested == [1]
      && (execute(LocationsPage(1)).Ok? ==> run.result == Ok([]))
      && (execute(LocationsPage(1)).Err? ==> run.result == Err(ExecuteQuery(execute, LocationsPage(1)).error))
  {
    var first := LocationPages(execute)(1);
    if first.Ok? {
      assert ParseItems(Results(first.value), ParseLocation) == Ok([]);
    }
  }

  // ---------------------------------------------------------------------------------------
  // fetch_character_with_location

  const FetchFailurePrefix: string := "Failed to fetch character "

  /**
   * The outer handler: an exception whose text mentions "not found" (in any letter case)
   * becomes the 404 for the character; any other becomes an APIError without a status code
   * that quotes it.
   */
  function Rewrap(characterId: int, e: Error): (r: Error)
    ensures r.ApiError?
    ensures Contains(Lower(Message(e)), "not found") ==> r == NotFound(characterId)
    ensures !Contains(Lower(Message(e)), "not found") ==>
              r == ApiError(FetchFailurePrefix + IntToString(characterId) + ": " + Message(e), None)
  {
    if Contains(Lower(Message(e)), "not found") then NotFound(characterId)
    else ApiError(FetchFailurePrefix + IntToString(characterId) + ": " + Message(e), None)
  }

  /** The character's location id when the lookup goes on to the location, else None. */
  function LocationToFetch(c: Character): (r: Option<int>)
    ensures r.Some? <==> TruthyId(GetLocationId(c))
    ensures r.Some? ==> r == GetLocationId(c)
  {
    if TruthyId(GetLocationId(c)) then GetLocationId(c) else None
  }

  /**
   * The body inside the `try`: the character query (a null or empty character is the 404),
   * the character parse, then, when the location id is truthy, the location query, whose
   * APIError leaves the location None; a null or empty location is None too, while a
   * location that fails to parse raises.
   */
  function Lookup(execute: Query -> Result<GqlData, string>, characterId: int): (run: GqlRun<CharacterWithLocation>)
    ensures 1 <= |run.queries| <= 2 && run.queries[0] == CharacterQuery(characterId)
    ensures var r := ExecuteQuery(execute, CharacterQuery(characterId));
      && (r.Err? ==> run == GqlRun(Err(r.error), [CharacterQuery(characterId)]))
      && (r.Ok? && !PresentCharacter(r.value.character) ==>
            run == GqlRun(Err(NotFound(characterId)), [CharacterQuery(characterId)]))
      && (r.Ok? && PresentCharacter(r.value.character) ==>
            var c := ParseCharacter(r.value.character.value);
            && (c.Err? ==> run == GqlRun(Err(c.error), [CharacterQuery(characterId)]))
            && (c.Ok? ==> LookupAfterCharacter(execute, characterId, c.value, run)))
  {
    var q1 := CharacterQuery(characterId);
    var r1 := ExecuteQuery(execute, q1);
    if r1.Err? then GqlRun(Err(r1.error), [q1])
    else if !PresentCharacter(r1.value.character) then GqlRun(Err(NotFound(characterId)), [q1])
    else
      var c := ParseCharacter(r1.value.character.value);
      if c.Err? then GqlRun(Err(c.error), [q1])
      else
        var lid := LocationToFetch(c.value);
        if lid.None? then GqlRun(Ok(CharacterWithLocation(c.value, None)), [q1])
        else
          var q2 := LocationById(IntToString(lid.value));
          var r2 := ExecuteQuery(execute, q2);
          if r2.Err? || !PresentLocation(r2.value.location) then
            GqlRun(Ok(CharacterWithLocation(c.value, None)), [q1, q2])
          else
            var l := ParseLocation(r2.value.location.value);
            if l.Err? then GqlRun(Err(l.error), [q1, q2])
            else GqlRun(Ok(CharacterWithLocation(c.value, Some(l.value))), [q1, q2])
  }

  /**
   * What a lookup does once character `c` parsed: it keeps `c`; it sends the location query
   * exactly when `c`'s location id is truthy, for that id; and its location is the parsed
   * answer when the answer is present, None when the query failed or found nothing.
   */
  ghost predicate LookupAfterCharacter(execute: Query -> Result<GqlData, string>, characterId: int, c: Character,
                                       run: GqlRun<CharacterWithLocation>)
  {
    var lid := GetLocationId(c);
    && (!TruthyId(lid) ==> run == GqlRun(Ok(CharacterWithLocation(c, None)), [CharacterQuery(characterId)]))
    && (TruthyId(lid) ==>
          var q2 := LocationById(IntToString(lid.value));
          var r2 := ExecuteQuery(execute, q2);
          && run.queries == [CharacterQuery(characterId), q2]
          && (r2.Err? || !PresentLocation(r2.value.location) ==> run.result == Ok(CharacterWithLocation(c, None)))
          && (r2.Ok? && PresentLocation(r2.value.location) ==>
                var l := ParseLocation(r2.value.location.value);
                run.result == if l.Ok? then Ok(CharacterWithLocation(c, Some(l.value))) else Err(l.error)))
  }

  /**
   * `fetch_character_with_location`: the lookup, with every exception it raises rewrapped by
   * the outer handler.  Its failures are therefore always APIErrors: the 404 for the character,
   * or an APIError without a status code naming the character.
   */
  function FetchCharacterWithLocation(execute: Query -> Result<GqlData, string>, characterId: int)
    : (run: GqlRun<CharacterWithLocation>)
    ensures var inner := Lookup(execute, characterId);
      && run.queries == inner.queries
      && (run.result.Ok? <==> inner.result.Ok?)
      && (run.result.Ok? ==> run.result == inner.result)
      && (run.result.Err? ==> run.result.error == Rewrap(characterId, inner.result.error))
    ensures run.result.Err? ==>
      || run.result.error == NotFound(characterId)
      || (run.result.error.ApiError? && run.result.error.status.None?
          && |run.result.error.message| >= |FetchFailurePrefix|
          && run.result.error.message[..|FetchFailurePrefix|] == FetchFailurePrefix)
  {
    var inner := Lookup(execute, characterId);
    if inner.result.Ok? then inner
    else
      var e := Rewrap(characterId, inner.result.error);
      assert e != NotFound(characterId) ==>
        e.message == FetchFailurePrefix + (IntToString(characterId) + ": " + Message(inner.result.error));
      GqlRun(Err(e), inner.queries)
  }

  /** The 404's own text mentions "not found", so rewrapping it gives it back unchanged. */
  lemma NotFoundMentionsNotFound(characterId: int)
    ensures Contains(Lower(Message(NotFound(characterId))), "not found")
  {
    var m := Message(NotFound(characterId));
    assert m == ("Character " + IntToString(characterId) + " ") + "not found";
    LowerEndsWith("Character " + IntToString(characterId) + " ", "not found");
  }

  /** A null or empty character gives the 404 after the one character query. */
  lemma MissingCharacterIs404(execute: Query -> Result<GqlData, string>, characterId: int)
    requires execute(CharacterQuery(characterId)).Ok?
    requires !PresentCharacter(execute(CharacterQuery(characterId)).value.character)
    ensures FetchCharacterWithLocation(execute, characterId)
            == GqlRun(Err(NotFound(characterId)), [CharacterQuery(characterId)])
  {
    NotFoundMentionsNotFound(characterId);
  }

  /**
   * A failed character query whose message mentions "not found" is reported as the 404,
   * though the server's message was about something else entirely; any other failed
   * character query becomes "Failed to fetch character N: GraphQL query failed: ...".
   */
  lemma FailedQueryRewrapped(execute: Query -> Result<GqlData, string>, characterId: int)
    requires execute(CharacterQuery(characterId)).Err?
    ensures var run := FetchCharacterWithLocation(execute, characterId);
      var m := QueryFailurePrefix + execute(CharacterQuery(characterId)).error;
      && run.queries == [CharacterQuery(characterId)]
      && (Contains(Lower(m), "not found") ==> run.result == Err(NotFound(characterId)))
      && (!Contains(Lower(m), "not found") ==>
            run.result == Err(ApiError(FetchFailurePrefix + IntToString(characterId) + ": " + m, None)))
  {
  }

  /**
   * The location query follows the nested location id: when the character's nested location
   * has the non-zero id `n`, the second query asks for location `n`, and a failure of that
   * query still returns the character, without a location.
   */
  lemma LocationQueryFollowsNestedId(execute: Query -> Result<GqlData, string>, characterId: int, n: int)
    requires execute(CharacterQuery(characterId)).Ok?
    requires var d := execute(CharacterQuery(characterId)).value.character;
      && PresentCharacter(d) && ParseCharacter(d.value).Ok?
      && d.value.location.Some? && d.value.location.value.id == Some(IntToString(n)) && n != 0
    ensures var run := FetchCharacterWithLocation(execute, characterId);
      && run.queries == [CharacterQuery(characterId), LocationById(IntToString(n))]
      && (execute(LocationById(IntToString(n))).Err? ==>
            run.result == Ok(CharacterWithLocation(ParseCharacter(execute(CharacterQuery(characterId)).value.character.value).value, None)))
  {
    ParsedLocationId(execute(CharacterQuery(characterId)).value.character.value, n);
  }

  /** Without a nested location id the lookup is a single query and has no location. */
  lemma NoNestedIdSingleQuery(execute: Query -> Result<GqlData, string>, characterId: int)
    requires execute(CharacterQuery(characterId)).Ok?
    requires var d := execute(CharacterQuery(characterId)).value.character;
      && PresentCharacter(d) && ParseCharacter(d.value).Ok?
      && (d.value.location.None? || !TruthyText(d.value.location.value.id))
    ensures var run := FetchCharacterWithLocation(execute, characterId);
      && run.queries == [CharacterQuery(characterId)]
      && run.result.Ok? && run.result.value.location.None?
  {
    ParsedLocationIdFalsy(execute(CharacterQuery(characterId)).value.character.value);
  }
}
