/**
 * The first-generation REST client: single-page fetches that also return the pagination
 * info, `while page < total_pages` loops over them, and lookups by id.
 */
module RestV1 {
  import opened Wrappers
  import opened Text
  import opened Utils
  import opened Models
  import opened BaseClient
  import opened PageLoop
  import opened RestRequest
  import Config

  const FailurePrefix: string := "Request failed: "

  /**
   * `_parse_pagination_info`: count and pages default to 0 when absent; next and prev are
   * None when absent or `null`.
   */
  function ParsePaginationInfo(info: RawInfo): (r: PaginationInfo)
    ensures info.count.Some? ==> r.count == info.count.value
    ensures info.pages.Some? ==> r.pages == info.pages.value
    ensures info.count.None? ==> r.count == 0
    ensures info.pages.None? ==> r.pages == 0
    ensures r.next.Some? <==> info.next.Present?
    ensures r.prev.Some? <==> info.prev.Present?
    ensures info.next.Present? ==> r.next.value == info.next.value
    ensures info.prev.Present? ==> r.prev.value == info.prev.value
  {
    PaginationInfo(GetOr(info.count, 0), GetOr(info.pages, 0), JsonGet(info.next), JsonGet(info.prev))
  }

  /** `data.get('info', {})` parsed. */
  function PageInfo<R>(data: Page<R>): PaginationInfo {
    ParsePaginationInfo(if data.info.Some? then data.info.value else RawInfo(None, None, Missing, Missing))
  }

  class RestClient {
    const baseUrl: string
    var sessionOpen: bool

    constructor (baseUrl: string)
      ensures this.baseUrl == baseUrl && sessionOpen
    {
      this.baseUrl := baseUrl;
      sessionOpen := true;
    }

    method Close()
      modifies this
      ensures !sessionOpen
    {
      sessionOpen := false;
    }

    function PageRequest(endpoint: string, page: int): Request {
      Request(RequestUrl(baseUrl, endpoint), Some(page))
    }

    /**
     * `fetch_characters_page(page)`: one request to `/character?page=N`; the characters keep
     * the length and order of the response's `results` (none when absent).
     */
    function FetchCharactersPage(page: int, transport: (Request, nat) -> Outcome<Page<RawCharacter>>)
      : (r: Result<(seq<Character>, PaginationInfo), Error>)
      ensures var data := MakeRequest(FailurePrefix, PageRequest("/character", page), transport);
        && (r.Ok? <==> data.Ok?)
        && (r.Err? ==> r.error == data.error)
        && (r.Ok? ==> r.value.1 == PageInfo(data.value)
                      && |r.value.0| == |Results(data.value)|
                      && forall i :: 0 <= i < |r.value.0| ==> r.value.0[i] == CharacterFromDict(Results(data.value)[i]))
    {
      var data := MakeRequest(FailurePrefix, PageRequest("/character", page), transport);
      if data.Err? then Err(data.error)
      else
        var results := Results(data.value);
        Ok((seq(|results|, i requires 0 <= i < |results| => CharacterFromDict(results[i])), PageInfo(data.value)))
    }

    /** `fetch_locations_page(page)`, the same for `/location?page=N`. */
    function FetchLocationsPage(page: int, transport: (Request, nat) -> Outcome<Page<RawLocation>>)
      : (r: Result<(seq<Location>, PaginationInfo), Error>)
      ensures var data := MakeRequest(FailurePrefix, PageRequest("/location", page), transport);
        && (r.Ok? <==> data.Ok?)
        && (r.Err? ==> r.error == data.error)
        && (r.Ok? ==> r.value.1 == PageInfo(data.value)
                      && |r.value.0| == |Results(data.value)|
                      && forall i :: 0 <= i < |r.value.0| ==> r.value.0[i] == LocationFromDict(Results(data.value)[i]))
    {
      var data := MakeRequest(FailurePrefix, PageRequest("/location", page), transport);
      if data.Err? then Err(data.error)
      else
        var results := Results(data.value);
        Ok((seq(|results|, i requires 0 <= i < |results| => LocationFromDict(results[i])), PageInfo(data.value)))
    }

    function CharacterPages(transport: (Request, nat) -> Outcome<Page<RawCharacter>>): int -> Result<PageView<Character>, Error> {
      page => var r := FetchCharactersPage(page, transport);
              if r.Err? then Err(r.error) else Ok(PageView(r.value.0, r.value.1.pages))
    }

    function LocationPages(transport: (Request, nat) -> Outcome<Page<RawLocation>>): int -> Result<PageView<Location>, Error> {
      page => var r := FetchLocationsPage(page, transport);
              if r.Err? then Err(r.error) else Ok(PageView(r.value.0, r.value.1.pages))
    }

    /** `fetch_all_characters`: the page loop over `fetch_characters_page`. */
    method FetchAllCharacters(transport: (Request, nat) -> Outcome<Page<RawCharacter>>)
      returns (result: Result<seq<Character>, Error>, pages: seq<int>)
      ensures FetchRun(result, pages) == FetchUpToTotal(CharacterPages(transport))
    {
      result, pages := FetchWhileBelowTotal(CharacterPages(transport));
    }

    /** `fetch_all_locations`: the page loop over `fetch_locations_page`. */
    method FetchAllLocations(transport: (Request, nat) -> Outcome<Page<RawLocation>>)
      returns (result: Result<seq<Location>, Error>, pages: seq<int>)
      ensures FetchRun(result, pages) == FetchUpToTotal(LocationPages(transport))
    {
      result, pages := FetchWhileBelowTotal(LocationPages(transport));
    }

    function CharacterRequest(characterId: int): Request {
      Request(RequestUrl(baseUrl, "/character/" + IntToString(characterId)), None)
    }

    function LocationRequest(locationId: int): Request {
      Request(RequestUrl(baseUrl, "/location/" + IntToString(locationId)), None)
    }

    /** `fetch_character_by_id`. */
    function FetchCharacterById(characterId: int, transport: (Request, nat) -> Outcome<RawCharacter>)
      : (r: Result<Character, Error>)
      ensures var data := MakeRequest(FailurePrefix, CharacterRequest(characterId), transport);
        (r.Ok? <==> data.Ok?) && (r.Ok? ==> r.value == CharacterFromDict(data.value)) && (r.Err? ==> r.error == data.error)
    {
      var data := MakeRequest(FailurePrefix, CharacterRequest(characterId), transport);
      if data.Err? then Err(data.error) else Ok(CharacterFromDict(data.value))
    }

    /** `fetch_location_by_id`. */
    function FetchLocationById(locationId: int, transport: (Request, nat) -> Outcome<RawLocation>)
      : (r: Result<Location, Error>)
      ensures var data := MakeRequest(FailurePrefix, LocationRequest(locationId), transport);
        (r.Ok? <==> data.Ok?) && (r.Ok? ==> r.value == LocationFromDict(data.value)) && (r.Err? ==> r.error == data.error)
    {
      var data := MakeRequest(FailurePrefix, LocationRequest(locationId), transport);
      if data.Err? then Err(data.error) else Ok(LocationFromDict(data.value))
    }

    /**
     * `fetch_character_with_location`: a failed character request fails the lookup with its
     * own error; the location is requested only for a truthy location id, and a failed
     * location request leaves it None.
     */
    function FetchCharacterWithLocation(characterId: int, characters: (Request, nat) -> Outcome<RawCharacter>,
                                        locations: (Request, nat) -> Outcome<RawLocation>)
      : (run: LookupRun<CharacterWithLocation>)
      ensures |run.requested| >= 1 && run.requested[0] == CharacterRequest(characterId)
      ensures var c := FetchCharacterById(characterId, characters);
        && (run.result.Ok? <==> c.Ok?)
        && (c.Err? ==> run.result.error == c.error && |run.requested| == 1)
        && (c.Ok? ==> run.result.value.character == c.value)
      ensures run.result.Ok? ==>
        var lid := GetLocationId(run.result.value.character);
        && (|run.requested| == 2 <==> TruthyId(lid))
        && (TruthyId(lid) ==> (run.requested[1] == LocationRequest(lid.value)
              && var l := FetchLocationById(lid.value, locations);
                 run.result.value.location == if l.Ok? then Some(l.value) else None))
        && (!TruthyId(lid) ==> run.result.value.location.None?)
    {
      var character := FetchCharacterById(characterId, characters);
      if character.Err? then LookupRun(Err(character.error), [CharacterRequest(characterId)])
      else
        var locationId := GetLocationId(character.value);
        if TruthyId(locationId) then
          var location := FetchLocationById(locationId.value, locations);
          LookupRun(Ok(CharacterWithLocation(character.value, if location.Ok? then Some(location.value) else None)),
                    [CharacterRequest(characterId), LocationRequest(locationId.value)])
        else LookupRun(Ok(CharacterWithLocation(character.value, None)), [CharacterRequest(characterId)])
    }
  }

  /**
   * A first page that reports no page count (no `info`, or `pages` 0) makes `fetch_all_*`
   * fail with ZeroDivisionError from the progress report, after that one request, even though
   * the page itself was fetched and parsed.
   */
  lemma FetchAllWithoutPageCount(client: RestClient, transport: (Request, nat) -> Outcome<Page<RawCharacter>>)
    requires var data := MakeRequest(FailurePrefix, client.PageRequest("/character", 1), transport);
      data.Ok? && GetOr(data.value.info, RawInfo(None, None, Missing, Missing)).pages in {None, Some(0)}
    ensures FetchUpToTotal(client.CharacterPages(transport)) == FetchRun(Err(ZeroDivisionError), [1])
  {
    var data := MakeRequest(FailurePrefix, client.PageRequest("/character", 1), transport);
    assert client.CharacterPages(transport)(1).value.totalPages == PageInfo(data.value).pages == 0;
  }

  /** Pages are requested at `<base>/character`, the leading `/` of the endpoint notwithstanding. */
  lemma PageRequestUrl(client: RestClient, page: int)
    ensures client.PageRequest("/character", page).url == RequestUrl(client.baseUrl, "character")
  {
    RequestUrlSlashes(client.baseUrl, "character");
  }
}
