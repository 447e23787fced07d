/**
 * What the two GraphQL clients share: the shape of a query result, the queries they issue,
 * query execution with its error wrapping, and the parse helpers that turn GraphQL records
 * into the REST-shaped `Character` and `Location` by rebuilding URLs from ids.  The parse
 * helpers are the same in both client generations.
 */
module Graphql {
  import opened Wrappers
  import opened Text
  import opened Utils
  import opened Models
  import opened BaseClient
  import Config

  /** A nested `{ id }` selection (an episode, a resident). */
  datatype GqlRef = GqlRef(id: Option<string>)

  /** A location object as a query returns it; each field is None when it was not selected. */
  datatype GqlLocation = GqlLocation(
    id: Option<string>, name: Option<string>, type_: Option<string>, dimension: Option<string>,
    residents: Option<seq<GqlRef>>, created: Option<string>)

  /** A character object as a query returns it; its location is a nested location object. */
  datatype GqlCharacter = GqlCharacter(
    id: Option<string>, name: Option<string>, status: Option<string>, species: Option<string>,
    type_: Option<string>, gender: Option<string>, image: Option<string>, created: Option<string>,
    origin: Option<RawOrigin>, location: Option<GqlLocation>, episode: Option<seq<GqlRef>>)

  /**
   * The `data` object of a query result: its top-level keys are the root fields the query
   * selected (`characters`, `locations`, `character`, `location`), never `info` or `results`.
   */
  datatype GqlData = GqlData(
    characters: Option<Page<GqlCharacter>>, locations: Option<Page<GqlLocation>>,
    character: Option<GqlCharacter>, location: Option<GqlLocation>)

  /** The queries the clients send, with their variables. */
  datatype Query =
    | CharactersPage(page: int)
    | LocationsPage(page: int)
    | CharacterById(id: string)
    | LocationById(id: string)
    | AllData
    | CombinedPage(charPage: int, locPage: int)

  /** The record of a run: its outcome and the queries it sent, in order. */
  datatype GqlRun<+T> = GqlRun(result: Result<T, Error>, queries: seq<Query>)

  const QueryFailurePrefix: string := "GraphQL query failed: "

  /**
   * `_execute_query`: the client's `execute`, any exception it raises (given here by its
   * message) re-raised as an APIError without a status code.
   */
  function ExecuteQuery(execute: Query -> Result<GqlData, string>, q: Query): (r: Result<GqlData, Error>)
    ensures r.Ok? <==> execute(q).Ok?
    ensures r.Ok? ==> r.value == execute(q).value
    ensures r.Err? ==> r.error.ApiError? && r.error.status.None? && |r.error.message| >= |QueryFailurePrefix|
                       && r.error.message[..|QueryFailurePrefix|] == QueryFailurePrefix
                       && r.error.message[|QueryFailurePrefix|..] == execute(q).error
  {
    if execute(q).Ok? then Ok(execute(q).value) else Err(ApiError(QueryFailurePrefix + execute(q).error, None))
  }

  /** The query for a character, with its id sent as text. */
  function CharacterQuery(characterId: int): Query { CharacterById(IntToString(characterId)) }

  /** `APIError(f"Character {id} not found", status_code=404)`. */
  function NotFound(characterId: int): Error {
    ApiError("Character " + IntToString(characterId) + " not found", Some(404))
  }

  /** `result.get('characters', {}).get('results', [])`. */
  function CharItems(d: GqlData): seq<GqlCharacter> {
    if d.characters.Some? then Results(d.characters.value) else []
  }

  /** `result.get('locations', {}).get('results', [])`. */
  function LocItems(d: GqlData): seq<GqlLocation> {
    if d.locations.Some? then Results(d.locations.value) else []
  }

  /** `result.get(root, {}).get('info', {}).get('pages', default)`. */
  function PagesOr<R>(p: Option<Page<R>>, default: int): int {
    if p.Some? && p.value.info.Some? && p.value.info.value.pages.Some? then p.value.info.value.pages.value
    else default
  }

  /** An object is falsy when it is null or has no keys. */
  predicate PresentCharacter(o: Option<GqlCharacter>) {
    o.Some? && o.value != GqlCharacter(None, None, None, None, None, None, None, None, None, None, None)
  }

  predicate PresentLocation(o: Option<GqlLocation>) {
    o.Some? && o.value != GqlLocation(None, None, None, None, None, None)
  }

  /** An id selection is truthy when present and non-empty. */
  predicate TruthyText(o: Option<string>) { o.Some? && o.value != "" }

  // ---------------------------------------------------------------------------------------
  // Parse helpers

  /** `int(text)`, failing with Python's ValueError message. */
  function IntOf(text: string): (r: Result<int, Error>)
    ensures r.Ok? <==> ParseInt(text).Some?
    ensures r.Ok? ==> r.value == ParseInt(text).value
    ensures r.Err? ==> r.error.ValueError?
  {
    var n := ParseInt(text);
    if n.Some? then Ok(n.value) else Err(ValueError("invalid literal for int() with base 10: '" + text + "'"))
  }

  /**
   * `[f"{REST_BASE_URL}/{resource}/{r['id']}" for r in refs]`: one URL per reference, in
   * order, or KeyError('id') for the first reference without an id.
   */
  function RefUrls(refs: seq<GqlRef>, resource: string): (r: Result<seq<string>, Error>)
    ensures r.Ok? <==> forall k :: 0 <= k < |refs| ==> refs[k].id.Some?
    ensures r.Ok? ==> |r.value| == |refs|
                      && forall k :: 0 <= k < |refs| ==> r.value[k] == Config.RestBaseUrl + Marker(resource) + refs[k].id.value
    ensures r.Err? ==> r.error == KeyError("id")
  {
    if refs == [] then Ok([])
    else if refs[0].id.None? then Err(KeyError("id"))
    else
      var rest := RefUrls(refs[1..], resource);
      assert forall k :: 1 <= k < |refs| ==> refs[k] == refs[1..][k - 1];
      if rest.Err? then rest
      else Ok([Config.RestBaseUrl + "/" + resource + "/" + refs[0].id.value] + rest.value)
  }

  /** The string-valued keys of a nested location object; its residents are not among them. */
  function LocationDict(l: GqlLocation): map<string, string> {
    var m0: map<string, string> := map[];
    var m1 := if l.id.Some? then m0["id" := l.id.value] else m0;
    var m2 := if l.name.Some? then m1["name" := l.name.value] else m1;
    var m3 := if l.type_.Some? then m2["type" := l.type_.value] else m2;
    var m4 := if l.dimension.Some? then m3["dimension" := l.dimension.value] else m3;
    if l.created.Some? then m4["created" := l.created.value] else m4
  }

  /**
   * The character's location dict after `_parse_character` has added
   * `url = f"{REST_BASE_URL}/location/{id}"` to it, which it does only when the id is truthy.
   */
  function LocationWithUrl(l: GqlLocation): (m: map<string, string>)
    ensures "url" in m <==> TruthyText(l.id)
    ensures TruthyText(l.id) ==> m["url"] == Config.RestBaseUrl + Marker("location") + l.id.value
    ensures l.name.Some? ==> "name" in m && m["name"] == l.name.value
    ensures l.name.None? ==> "name" !in m
  {
    assert Marker("location") == "/location/";
    if TruthyText(l.id) then LocationDict(l)["url" := Config.RestBaseUrl + "/location/" + l.id.value]
    else LocationDict(l)
  }

  /**
   * `_parse_character`: episode ids become episode URLs, the location gains its URL, the
   * required fields `id` (through `int`), `name`, `status` and `species` are read in that
   * order after the episodes, and `Character.from_dict` does the rest.
   */
  function ParseCharacter(d: GqlCharacter): (r: Result<Character, Error>)
    ensures r.Ok? <==> (&& (d.episode.Some? ==> forall k :: 0 <= k < |d.episode.value| ==> d.episode.value[k].id.Some?)
                        && d.id.Some? && ParseInt(d.id.value).Some?
                        && d.name.Some? && d.status.Some? && d.species.Some?)
    ensures r.Err? ==> r.error.KeyError? || r.error.ValueError?
    ensures d.id.None? ==> r.Err? && r.error == KeyError("id")
    ensures r.Ok? ==> (&& r.value.id == ParseInt(d.id.value).value
                       && r.value.name == d.name.value && r.value.status == d.status.value
                       && r.value.species == d.species.value
                       && r.value.type_ == GetOr(d.type_, "") && r.value.gender == GetOr(d.gender, "")
                       && r.value.image == GetOr(d.image, "") && r.value.created == GetOr(d.created, "")
                       && r.value.url == "")
    ensures r.Ok? ==> r.value.location == (if d.location.Some? then LocationWithUrl(d.location.value) else map[])
    ensures r.Ok? ==> var eps := GetOr(d.episode, []);
      && |r.value.episode| == |eps|
      && forall k :: 0 <= k < |eps| ==> r.value.episode[k] == Config.RestBaseUrl + Marker("episode") + eps[k].id.value
  {
    var location := if d.location.Some? then LocationWithUrl(d.location.value) else map[];
    var episodes :- RefUrls(GetOr(d.episode, []), "episode");
    var idText :- Key(d.id, "id");
    var id :- IntOf(idText);
    var name :- Key(d.name, "name");
    var status :- Key(d.status, "status");
    var species :- Key(d.species, "species");
    Ok(CharacterFromDict(RawCharacter(
      Some(id), Some(name), Some(status), Some(species), Some(GetOr(d.type_, "")), Some(GetOr(d.gender, "")),
      Some(GetOr(d.origin, RawOrigin(None, None))), Some(location), Some(GetOr(d.image, "")),
      Some(episodes), None, Some(GetOr(d.created, "")))))
  }

  /**
   * `_parse_location`: resident ids become character URLs, then `id` (through `int`), `name`,
   * `type` and `dimension` are required; the record has no URL.
   */
  function ParseLocation(d: GqlLocation): (r: Result<Location, Error>)
    ensures r.Ok? <==> (&& (d.residents.Some? ==> forall k :: 0 <= k < |d.residents.value| ==> d.residents.value[k].id.Some?)
                        && d.id.Some? && ParseInt(d.id.value).Some?
                        && d.name.Some? && d.type_.Some? && d.dimension.Some?)
    ensures r.Err? ==> r.error.KeyError? || r.error.ValueError?
    ensures r.Ok? ==> (&& r.value.id == ParseInt(d.id.value).value && r.value.name == d.name.value
                       && r.value.type_ == d.type_.value && r.value.dimension == d.dimension.value
                       && r.value.url == "" && r.value.created == GetOr(d.created, ""))
    ensures r.Ok? ==> var res := GetOr(d.residents, []);
      && |r.value.residents| == |res|
      && forall k :: 0 <= k < |res| ==> r.value.residents[k] == Config.RestBaseUrl + Marker("character") + res[k].id.value
  {
    var residents :- RefUrls(GetOr(d.residents, []), "character");
    var idText :- Key(d.id, "id");
    var id :- IntOf(idText);
    var name :- Key(d.name, "name");
    var type_ :- Key(d.type_, "type");
    var dimension :- Key(d.dimension, "dimension");
    Ok(LocationFromDict(RawLocation(Some(id), Some(name), Some(type_), Some(dimension), None,
                                    Some(residents), Some(GetOr(d.created, "")))))
  }

  /**
   * The id normalisation round-trips: a parsed character whose nested location has id `n`
   * reports `n` as its location id, and its location id is None when the nested id is
   * missing or empty.
   */
  lemma ParsedLocationId(d: GqlCharacter, n: int)
    requires ParseCharacter(d).Ok? && d.location.Some? && d.location.value.id == Some(IntToString(n))
    ensures GetLocationId(ParseCharacter(d).value) == Some(n)
  {
    ExtractIdFromRestUrl("location", n);
  }

  lemma ParsedLocationIdFalsy(d: GqlCharacter)
    requires ParseCharacter(d).Ok? && (d.location.None? || !TruthyText(d.location.value.id))
    ensures GetLocationId(ParseCharacter(d).value).None?
  {
  }

  /** Episode `k` of a parsed character is the REST URL that names episode id `n` again. */
  lemma ParsedEpisodeIds(d: GqlCharacter, k: int, n: int)
    requires ParseCharacter(d).Ok? && d.episode.Some? && 0 <= k < |d.episode.value|
    requires d.episode.value[k].id == Some(IntToString(n))
    ensures k < |ParseCharacter(d).value.episode|
    ensures ExtractIdFromUrl(ParseCharacter(d).value.episode[k], "episode") == Some(n)
  {
    ExtractIdFromRestUrl("episode", n);
  }

  /** Resident `k` of a parsed location is the REST URL that names character id `n` again. */
  lemma ParsedResidentIds(d: GqlLocation, k: int, n: int)
    requires ParseLocation(d).Ok? && d.residents.Some? && 0 <= k < |d.residents.value|
    requires d.residents.value[k].id == Some(IntToString(n))
    ensures k < |ParseLocation(d).value.residents|
    ensures ExtractIdFromUrl(ParseLocation(d).value.residents[k], "character") == Some(n)
  {
    ExtractIdFromRestUrl("character", n);
  }

  /**
   * A character selected without `type`, `gender`, `image`, `created` and `episode` (as the
   * all-data query selects it) parses with empty strings and no episodes for them.
   */
  lemma ParseCharacterDefaults(d: GqlCharacter)
    requires d.type_.None? && d.gender.None? && d.image.None? && d.created.None? && d.episode.None?
    requires d.id.Some? && ParseInt(d.id.value).Some? && d.name.Some? && d.status.Some? && d.species.Some?
    ensures ParseCharacter(d).Ok?
    ensures var c := ParseCharacter(d).value;
      c.type_ == "" && c.gender == "" && c.image == "" && c.created == "" && c.episode == []
  {
  }

  // ---------------------------------------------------------------------------------------
  // Appending parsed items where a parse failure is caught after some items were appended

  /** The items parsed before the first failure: the part of a list the append loop got through. */
  function ParsedPrefix<R, T>(items: seq<R>, parse: R -> Result<T, Error>): (r: seq<T>)
    ensures |r| <= |items|
    ensures forall k :: 0 <= k < |r| ==> parse(items[k]) == Ok(r[k])
    ensures |r| < |items| ==> parse(items[|r|]).Err?
  {
    if items == [] then []
    else if parse(items[0]).Err? then []
    else
      var rest := ParsedPrefix(items[1..], parse);
      assert forall k :: 1 <= k < |items| ==> items[k] == items[1..][k - 1];
      [parse(items[0]).value] + rest
  }

  /** The exception that stops the append loop over `items`, if any. */
  function FirstFailure<R, T>(items: seq<R>, parse: R -> Result<T, Error>): (r: Option<Error>)
    ensures r.None? <==> |ParsedPrefix(items, parse)| == |items|
  {
    var p := ParsedPrefix(items, parse);
    if |p| < |items| then Some(parse(items[|p|]).error) else None
  }

  /**
   * The append loop agrees with parsing the whole list: it stops exactly where that fails,
   * with the same exception, and otherwise has parsed every item.
   */
  lemma ParsedPrefixStops<R, T>(items: seq<R>, parse: R -> Result<T, Error>)
    ensures FirstFailure(items, parse).Some? ==> ParseItems(items, parse) == Err(FirstFailure(items, parse).value)
    ensures FirstFailure(items, parse).None? ==> ParseItems(items, parse) == Ok(ParsedPrefix(items, parse))
  {
    var p := ParsedPrefix(items, parse);
    var r := ParseItems(items, parse);
    if |p| < |items| {
      assert r.Err?;
      var i :| 0 <= i < |items| && parse(items[i]) == Err(r.error) && forall j :: 0 <= j < i ==> parse(items[j]).Ok?;
    } else {
      assert forall k :: 0 <= k < |items| ==> parse(items[k]) == Ok(p[k]);
    }
  }

  /**
   * `for item in items: all.append(parse(item))`: the list as far as the loop got, and the
   * parse exception that ended it, if any.
   */
  method ExtendParsed<R, T>(all: seq<T>, items: seq<R>, parse: R -> Result<T, Error>)
    returns (acc: seq<T>, failure: Option<Error>)
    ensures acc == all + ParsedPrefix(items, parse)
    ensures failure == FirstFailure(items, parse)
  {
    ghost var p := ParsedPrefix(items, parse);
    acc := all;
    var i := 0;
    while i < |items|
      invariant i <= |p| && acc == all + p[..i]
    {
      var item := parse(items[i]);
      if item.Err? {
        assert p[..i] == p;
        return acc, Some(item.error);
      }
      assert p[..i + 1] == p[..i] + [item.value];
      acc := acc + [item.value];
      i := i + 1;
    }
    assert p[..i] == p;
    failure := None;
  }
}
