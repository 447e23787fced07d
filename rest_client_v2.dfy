/**
 * The second-generation REST client: list endpoints go through the shared paginator, and a
 * character lookup follows the character's location reference with a second request.
 */
module RestV2 {
  import opened Wrappers
  import opened Text
  import opened Utils
  import opened Models
  import opened BaseClient
  import opened RestRequest
  import Config

  const FailurePrefix: string := "HTTP request failed: "

  function ParseCharacter(d: RawCharacter): Result<Character, Error> { Ok(CharacterFromDict(d)) }

  function ParseLocation(d: RawLocation): Result<Location, Error> { Ok(LocationFromDict(d)) }

  class RestClient {
    const baseUrl: string
    /** Whether the HTTP session is still open; `close` closes it. */
    var sessionOpen: bool

    constructor (baseUrl: string)
      ensures this.baseUrl == baseUrl && sessionOpen
    {
      this.baseUrl := baseUrl;
      sessionOpen := true;
    }

    /** `close`: the session always exists, so it is closed. */
    method Close()
      modifies this
      ensures !sessionOpen
    {
      sessionOpen := false;
    }

    /** `_make_request(resource, {'page': page})`. */
    function FetchPage<R>(resource: string, transport: (Request, nat) -> Outcome<Page<R>>): int -> Result<Page<R>, Error> {
      page => MakeRequest(FailurePrefix, Request(RequestUrl(baseUrl, resource), Some(page)), transport)
    }

    /** `fetch_all_characters`: the paginator over the `character` endpoint, parsing with `from_dict`. */
    method FetchAllCharacters(transport: (Request, nat) -> Outcome<Page<RawCharacter>>)
      returns (result: Result<seq<Character>, Error>, pages: seq<int>)
      ensures FetchRun(result, pages) == Paginate(FetchPage("character", transport), ParseCharacter, "characters")
    {
      result, pages := PaginateWithProgress(FetchPage("character", transport), "characters", ParseCharacter);
    }

    /** `fetch_all_locations`: the paginator over the `location` endpoint. */
    method FetchAllLocations(transport: (Request, nat) -> Outcome<Page<RawLocation>>)
      returns (result: Result<seq<Location>, Error>, pages: seq<int>)
      ensures FetchRun(result, pages) == Paginate(FetchPage("location", transport), ParseLocation, "locations")
    {
      result, pages := PaginateWithProgress(FetchPage("location", transport), "locations", ParseLocation);
    }

    function CharacterRequest(characterId: int): Request {
      Request(RequestUrl(baseUrl, "character/" + IntToString(characterId)), None)
    }

    function LocationRequest(locationId: int): Request {
      Request(RequestUrl(baseUrl, "location/" + IntToString(locationId)), None)
    }

    /**
     * `fetch_character_with_location`.  The character is requested first; the location is
     * requested second and only when the character's location id is truthy.  A failed
     * location request leaves the location None; a failed character request fails the lookup,
     * re-raised as "Character N not found" when its status was 404 and unchanged otherwise.
     */
    function FetchCharacterWithLocation(characterId: int, characters: (Request, nat) -> Outcome<RawCharacter>,
                                        locations: (Request, nat) -> Outcome<RawLocation>)
      : (run: LookupRun<CharacterWithLocation>)
      ensures |run.requested| >= 1 && run.requested[0] == CharacterRequest(characterId)
    {
      var charRequest := CharacterRequest(characterId);
      var charData := MakeRequest(FailurePrefix, charRequest, characters);
      if charData.Err? then
        var e := charData.error;
        LookupRun(Err(if e.ApiError? && e.status == Some(404)
                      then ApiError("Character " + IntToString(characterId) + " not found", Some(404))
                      else e), [charRequest])
      else
        var character := CharacterFromDict(charData.value);
        var locationId := GetLocationId(character);
        if TruthyId(locationId) then
          var locRequest := LocationRequest(locationId.value);
          var locData := MakeRequest(FailurePrefix, locRequest, locations);
          LookupRun(Ok(CharacterWithLocation(character, if locData.Ok? then Some(LocationFromDict(locData.value)) else None)),
                    [charRequest, locRequest])
        else LookupRun(Ok(CharacterWithLocation(character, None)), [charRequest])
    }
  }

  /** The lookup fails exactly when the character request fails, and follows the location only when its id is truthy. */
  lemma FetchCharacterWithLocationFacts(client: RestClient, characterId: int,
                                        characters: (Request, nat) -> Outcome<RawCharacter>,
                                        locations: (Request, nat) -> Outcome<RawLocation>)
    ensures var run := client.FetchCharacterWithLocation(characterId, characters, locations);
      var c := MakeRequest(FailurePrefix, client.CharacterRequest(characterId), characters);
      && (run.result.Ok? <==> c.Ok?)
      && (c.Err? ==> |run.requested| == 1)
      && (c.Err? && c.error.status == Some(404) ==>
            run.result.error == ApiError("Character " + IntToString(characterId) + " not found", Some(404)))
      && (c.Err? && c.error.status != Some(404) ==> run.result.error == c.error)
      && (c.Ok? ==> run.result.value.character == CharacterFromDict(c.value))
    ensures var run := client.FetchCharacterWithLocation(characterId, characters, locations);
      run.result.Ok? ==>
      var lid := GetLocationId(run.result.value.character);
      && (|run.requested| == 2 <==> TruthyId(lid))
      && (TruthyId(lid) ==> (run.requested[1] == client.LocationRequest(lid.value)
            && var l := MakeRequest(FailurePrefix, client.LocationRequest(lid.value), locations);
               run.result.value.location == if l.Ok? then Some(LocationFromDict(l.value)) else None))
      && (!TruthyId(lid) ==> run.result.value.location.None?)
  {
  }

  /**
   * With the configured base, the location request of a lookup names the location it is for:
   * extracting the id from its URL gives back the character's location id.
   */
  lemma LocationRequestRoundTrip(client: RestClient, locationId: int)
    requires client.baseUrl == Config.RestBaseUrl
    ensures Utils.ExtractIdFromUrl(client.LocationRequest(locationId).url, "location") == Some(locationId)
  {
    RequestUrlConfigured("location", locationId);
    assert "location/" + IntToString(locationId) == "location" + "/" + IntToString(locationId);
    assert Config.RestBaseUrl + "/" + "location" + "/" + IntToString(locationId)
        == Config.RestBaseUrl + "/location/" + IntToString(locationId);
    Utils.ExtractIdFromLocationUrl(locationId);
  }
}
