/**
 * The first-generation GraphQL client: `while page < total_pages` loops over the list
 * queries, and a character lookup that takes the location from the character query itself.
 * Query execution, the parse helpers and the optimised fetches are shared with the second
 * generation (modules Graphql and GraphqlOptimizer).
 */
module GraphqlV1 {
  import opened Wrappers
  import opened Text
  import opened Utils
  import opened Models
  import opened BaseClient
  import opened PageLoop
  import opened Graphql

  /**
   * One characters page: `result.get('characters', {})`, its items parsed one by one (the
   * first failure raises), and `info.get('pages', 0)`.
   */
  function CharacterView(execute: Query -> Result<GqlData, string>): int -> Result<PageView<Character>, Error> {
    page =>
      var r := ExecuteQuery(execute, CharactersPage(page));
      if r.Err? then Err(r.error)
      else
        var items := ParseItems(CharItems(r.value), ParseCharacter);
        if items.Err? then Err(items.error) else Ok(PageView(items.value, PagesOr(r.value.characters, 0)))
  }

  /** One locations page, the same over `result.get('locations', {})`. */
  function LocationView(execute: Query -> Result<GqlData, string>): int -> Result<PageView<Location>, Error> {
    page =>
      var r := ExecuteQuery(execute, LocationsPage(page));
      if r.Err? then Err(r.error)
      else
        var items := ParseItems(LocItems(r.value), ParseLocation);
        if items.Err? then Err(items.error) else Ok(PageView(items.value, PagesOr(r.value.locations, 0)))
  }

  /** `fetch_all_characters`: pages 1, 2, … while below the total the first page reports. */
  method FetchAllCharacters(execute: Query -> Result<GqlData, string>)
    returns (result: Result<seq<Character>, Error>, pages: seq<int>)
    ensures FetchRun(result, pages) == FetchUpToTotal(CharacterView(execute))
  {
    result, pages := FetchWhileBelowTotal(CharacterView(execute));
  }

  /** `fetch_all_locations`: the same over the locations query. */
  method FetchAllLocations(execute: Query -> Result<GqlData, string>)
    returns (result: Result<seq<Location>, Error>, pages: seq<int>)
    ensures FetchRun(result, pages) == FetchUpToTotal(LocationView(execute))
  {
    result, pages := FetchWhileBelowTotal(LocationView(execute));
  }

  /**
   * A first characters page without a page count (or with 0) ends the fetch with
   * ZeroDivisionError once its items have parsed: the progress report divides by the total.
   */
  lemma MissingPageCountDivides(execute: Query -> Result<GqlData, string>)
    requires execute(CharactersPage(1)).Ok?
    requires PagesOr(execute(CharactersPage(1)).value.characters, 0) == 0
    requires ParseItems(CharItems(execute(CharactersPage(1)).value), ParseCharacter).Ok?
    ensures FetchUpToTotal(CharacterView(execute)) == FetchRun(Err(ZeroDivisionError), [1])
  {
    FetchUpToTotalContract(CharacterView(execute));
  }

  /** A failed list query ends the fetch with the wrapped query failure, for any page. */
  lemma FailedPageQueryPropagates(execute: Query -> Result<GqlData, string>, page: int)
    requires execute(CharactersPage(page)).Err?
    ensures CharacterView(execute)(page) == Err(ApiError(QueryFailurePrefix + execute(CharactersPage(page)).error, None))
  {
  }

  /**
   * `fetch_character_with_location`: one query.  A null or empty character is the 404; the
   * location is parsed from the nested location object when that object has a truthy id, and
   * is None otherwise; every failure propagates as raised.
   */
  function FetchCharacterWithLocation(execute: Query -> Result<GqlData, string>, characterId: int)
    : (run: GqlRun<CharacterWithLocation>)
    ensures run.queries == [CharacterQuery(characterId)]
    ensures var r := ExecuteQuery(execute, CharacterQuery(characterId));
      && (r.Err? ==> run.result == Err(r.error))
      && (r.Ok? && !PresentCharacter(r.value.character) ==> run.result == Err(NotFound(characterId)))
      && (r.Ok? && PresentCharacter(r.value.character) ==>
            var d := r.value.character.value;
            var c := ParseCharacter(d);
            && (c.Err? ==> run.result == Err(c.error))
            && (c.Ok? && !(PresentLocation(d.location) && TruthyText(d.location.value.id)) ==>
                  run.result == Ok(CharacterWithLocation(c.value, None)))
            && (c.Ok? && PresentLocation(d.location) && TruthyText(d.location.value.id) ==>
                  var l := ParseLocation(d.location.value);
                  run.result == if l.Ok? then Ok(CharacterWithLocation(c.value, Some(l.value))) else Err(l.error)))
  {
    var q := CharacterQuery(characterId);
    var r := ExecuteQuery(execute, q);
    if r.Err? then GqlRun(Err(r.error), [q])
    else if !PresentCharacter(r.value.character) then GqlRun(Err(NotFound(characterId)), [q])
    else
      var d := r.value.character.value;
      var c := ParseCharacter(d);
      if c.Err? then GqlRun(Err(c.error), [q])
      else if PresentLocation(d.location) && TruthyText(d.location.value.id) then
        var l := ParseLocation(d.location.value);
        if l.Err? then GqlRun(Err(l.error), [q])
        else GqlRun(Ok(CharacterWithLocation(c.value, Some(l.value))), [q])
      else GqlRun(Ok(CharacterWithLocation(c.value, None)), [q])
  }

  /**
   * The character and the location it comes back with agree: when the nested location id is
   * `n`, the character's location id is `n` and so is the returned location's id.
   */
  lemma LocationMatchesCharacter(execute: Query -> Result<GqlData, string>, characterId: int, n: int)
    requires FetchCharacterWithLocation(execute, characterId).result.Ok?
    requires var d := execute(CharacterQuery(characterId)).value.character.value;
      d.location.Some? && d.location.value.id == Some(IntToString(n))
    ensures var v := FetchCharacterWithLocation(execute, characterId).result.value;
      && GetLocationId(v.character) == Some(n)
      && v.location.Some? && v.location.value.id == n
  {
    var d := execute(CharacterQuery(characterId)).value.character.value;
    IntToStringRoundTrip(n);
    assert TruthyText(d.location.value.id);
    ParsedLocationId(d, n);
  }
}
