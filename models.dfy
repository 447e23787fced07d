/**
 * The record types the clients normalise API responses into: `Character`, `Location`, `Origin`
 * and `PaginationInfo`, with their `from_dict` constructors, the location-id lookup and the
 * CSV-row and summary projections.
 */
module Models {
  import opened Wrappers
  import opened Text
  import Config
  import Utils

  /** `d.get(key, default)` on a string-valued dict. */
  function Get(d: map<string, string>, key: string, default: string): string {
    if key in d then d[key] else default
  }

  /** `data.get(key, default)` on a decoded JSON object, where `None` stands for a missing key. */
  function GetOr<T>(o: Option<T>, default: T): T {
    if o.Some? then o.value else default
  }

  // ---------------------------------------------------------------------------------------
  // Raw API records: each field is None when the key is absent from the JSON object.

  datatype RawOrigin = RawOrigin(name: Option<string>, url: Option<string>)

  datatype RawCharacter = RawCharacter(
    id: Option<int>, name: Option<string>, status: Option<string>, species: Option<string>,
    type_: Option<string>, gender: Option<string>, origin: Option<RawOrigin>,
    location: Option<map<string, string>>, image: Option<string>, episode: Option<seq<string>>,
    url: Option<string>, created: Option<string>)

  datatype RawLocation = RawLocation(
    id: Option<int>, name: Option<string>, type_: Option<string>, dimension: Option<string>,
    url: Option<string>, residents: Option<seq<string>>, created: Option<string>)

  // ---------------------------------------------------------------------------------------
  // Normalised records

  datatype Origin = Origin(name: string, url: string)

  /** A location; `residents` holds character URLs. */
  datatype Location = Location(
    id: int, name: string, type_: string, dimension: string, url: string,
    residents: seq<string>, created: string)

  /** A character; `location` is the `{name, url}` dict the API returns, kept as a dict. */
  datatype Character = Character(
    id: int, name: string, status: string, species: string, type_: string, gender: string,
    origin: Origin, location: map<string, string>, image: string, episode: seq<string>,
    url: string, created: string)

  datatype PaginationInfo = PaginationInfo(count: int, pages: int, next: Option<string>, prev: Option<string>)

  /** `{}` as a raw location and a raw character. */
  const EmptyRawLocation: RawLocation := RawLocation(None, None, None, None, None, None, None)
  const EmptyRawCharacter: RawCharacter :=
    RawCharacter(None, None, None, None, None, None, None, None, None, None, None, None)

  /** `Location.from_dict`: every missing key takes its default (id 0, `''`, no residents). */
  function LocationFromDict(d: RawLocation): (r: Location)
    ensures d == EmptyRawLocation ==> r == Location(0, "", "", "", "", [], "")
  {
    Location(GetOr(d.id, 0), GetOr(d.name, ""), GetOr(d.type_, ""), GetOr(d.dimension, ""),
             GetOr(d.url, ""), GetOr(d.residents, []), GetOr(d.created, ""))
  }

  /** `Character.from_dict`: every missing key takes its default, the origin's fields included. */
  function CharacterFromDict(d: RawCharacter): (r: Character)
    ensures d == EmptyRawCharacter
            ==> r == Character(0, "", "", "", "", "", Origin("", ""), map[], "", [], "", "")
  {
    var origin := GetOr(d.origin, RawOrigin(None, None));
    Character(GetOr(d.id, 0), GetOr(d.name, ""), GetOr(d.status, ""), GetOr(d.species, ""),
              GetOr(d.type_, ""), GetOr(d.gender, ""),
              Origin(GetOr(origin.name, ""), GetOr(origin.url, "")),
              GetOr(d.location, map[]), GetOr(d.image, ""), GetOr(d.episode, []),
              GetOr(d.url, ""), GetOr(d.created, ""))
  }

  /** The JSON object the API would send for a character: every key present. */
  function CharacterToRaw(c: Character): RawCharacter {
    RawCharacter(Some(c.id), Some(c.name), Some(c.status), Some(c.species), Some(c.type_),
                 Some(c.gender), Some(RawOrigin(Some(c.origin.name), Some(c.origin.url))),
                 Some(c.location), Some(c.image), Some(c.episode), Some(c.url), Some(c.created))
  }

  function LocationToRaw(l: Location): RawLocation {
    RawLocation(Some(l.id), Some(l.name), Some(l.type_), Some(l.dimension), Some(l.url),
                Some(l.residents), Some(l.created))
  }

  /** `from_dict` reads a complete object back unchanged. */
  lemma CharacterFromDictComplete(c: Character)
    ensures CharacterFromDict(CharacterToRaw(c)) == c
  {
  }

  lemma LocationFromDictComplete(l: Location)
    ensures LocationFromDict(LocationToRaw(l)) == l
  {
  }

  // ---------------------------------------------------------------------------------------
  // get_location_id

  /**
   * `Character.get_location_id`: the id at the end of the location's URL.  It agrees with
   * `extract_id_from_url(url, "location")` whenever the dict has a `url`, and is None otherwise.
   */
  function GetLocationId(c: Character): (r: Option<int>)
    ensures "url" !in c.location ==> r.None?
    ensures "url" in c.location ==> r == Utils.ExtractIdFromUrl(c.location["url"], "location")
  {
    assert Utils.Marker("location") == "/location/";
    if |c.location| > 0 && "url" in c.location then
      var url := c.location["url"];
      if url != "" && Contains(url, "/location/") then ParseInt(SplitLast(url, "/location/"))
      else None
    else None
  }

  /** A character whose location URL is the API's URL for location `id` maps back to `id`. */
  lemma GetLocationIdOfApiUrl(c: Character, id: int)
    requires "url" in c.location && c.location["url"] == Config.RestBaseUrl + "/location/" + IntToString(id)
    ensures GetLocationId(c) == Some(id)
  {
    Utils.ExtractIdFromLocationUrl(id);
  }

  /** A trailing `/` on the location URL defeats the lookup. */
  lemma GetLocationIdTrailingSlash(c: Character, url: string)
    requires "url" in c.location && c.location["url"] == url + "/"
    ensures GetLocationId(c).None?
  {
    Utils.ExtractIdTrailingSlash(url, "location");
  }

  /** The two unit cases: `{'url': '…/api/location/3'}` gives 3 and `{}` gives None. */
  lemma GetLocationIdExamples(c: Character)
    ensures GetLocationId(c.(location := map["url" := "https://rickandmortyapi.com/api/location/3"])) == Some(3)
    ensures GetLocationId(c.(location := map[])).None?
  {
    assert IntToString(3) == "3";
    GetLocationIdOfApiUrl(c.(location := map["url" := "https://rickandmortyapi.com/api/location/3"]), 3);
  }

  // ---------------------------------------------------------------------------------------
  // Row and summary projections

  function IdOf(l: Location): int { l.id }

  /** Python truthiness of an optional id: None and 0 are both false. */
  predicate TruthyId(id: Option<int>) { id.Some? && id.value != 0 }

  /** `str(x) if x else ''` for an optional id. */
  function IdField(id: Option<int>): (r: string)
    ensures r == "" <==> !TruthyId(id)
    ensures r != "" ==> ParseInt(r) == id
  {
    if TruthyId(id) then (IntToStringRoundTrip(id.value); IntToString(id.value)) else ""
  }

  /** The location name a character row shows before any details are applied. */
  function LocationName(c: Character): string {
    if |c.location| > 0 then Get(c.location, "name", "") else ""
  }

  /**
   * `Character.to_csv_row(location_details)`: one field per configured header, in header
   * order.  The id fields read back as the character's id and location id (an absent or zero
   * location id gives `''`).  Truthy details replace the location name only when they have a
   * `name`, and supply type and dimension; otherwise those two are `''`.
   */
  function CharacterToCsvRow(c: Character, details: Option<map<string, string>>): (r: seq<string>)
    ensures |r| == |Config.CharacterCsvHeaders|
    ensures ParseInt(r[0]) == Some(c.id)
    ensures r[1] == c.name && r[2] == c.status && r[3] == c.species && r[4] == c.origin.name
    ensures r[5] == "" <==> !TruthyId(GetLocationId(c))
    ensures r[5] != "" ==> ParseInt(r[5]) == GetLocationId(c)
    ensures (details.None? || details.value == map[]) ==> r[6] == LocationName(c) && r[7] == "" && r[8] == ""
    ensures details.Some? && details.value != map[] ==>
              r[6] == Get(details.value, "name", LocationName(c))
              && r[7] == Get(details.value, "type", "") && r[8] == Get(details.value, "dimension", "")
  {
    IntToStringRoundTrip(c.id);
    var locationName := LocationName(c);
    var truthy := details.Some? && |details.value| > 0;
    assert truthy <==> details.Some? && details.value != map[];
    var name := if truthy then Get(details.value, "name", locationName) else locationName;
    var typ := if truthy then Get(details.value, "type", "") else "";
    var dim := if truthy then Get(details.value, "dimension", "") else "";
    [IntToString(c.id), c.name, c.status, c.species, c.origin.name, IdField(GetLocationId(c)),
     name, typ, dim]
  }

  /**
   * `Location.to_csv_row(character_names)`: one field per configured header.  The id and the
   * resident count read back as integers, the count being the number of resident URLs; the
   * names are joined with `'; '`, and absent or empty names give `''`.
   */
  function LocationToCsvRow(l: Location, names: Option<seq<string>>): (r: seq<string>)
    ensures |r| == |Config.LocationCsvHeaders|
    ensures ParseInt(r[0]) == Some(l.id)
    ensures r[1] == l.name && r[2] == l.type_ && r[3] == l.dimension
    ensures ParseInt(r[4]) == Some(|l.residents|)
    ensures (names.None? || names.value == []) ==> r[5] == ""
    ensures names.Some? && names.value != [] ==> r[5] == Join(names.value, "; ")
  {
    IntToStringRoundTrip(l.id);
    IntToStringRoundTrip(|l.residents|);
    var joined := if names.Some? && |names.value| > 0 then Join(names.value, "; ") else "";
    [IntToString(l.id), l.name, l.type_, l.dimension, IntToString(|l.residents|), joined]
  }

  /** The dict `Character.to_dict` returns. */
  datatype CharacterSummary = CharacterSummary(
    id: int, name: string, status: string, species: string, originName: string,
    locationId: Option<int>, locationName: string, image: string, episodeCount: nat)

  /**
   * `Character.to_dict`: the episode count is the number of episode URLs and the location id
   * is what `get_location_id` extracts; a character whose URL is the API's URL for location
   * `n` reports `n`.
   */
  function CharacterToDict(c: Character): (r: CharacterSummary)
    ensures r.episodeCount == |c.episode|
    ensures r.locationId == GetLocationId(c)
    ensures "url" !in c.location ==> r.locationId.None?
    ensures r.locationName == LocationName(c)
  {
    CharacterSummary(c.id, c.name, c.status, c.species, c.origin.name, GetLocationId(c),
                     Get(c.location, "name", ""), c.image, |c.episode|)
  }
}
