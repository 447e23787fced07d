/**
 * `EnhancedCSVExporter`: the rows written to the enhanced character and location CSV files,
 * which resolve each character's location and each location's residents through id lookup
 * maps, and the relationship summary that cross-checks the two directions.  The rows are
 * returned as data, header first; opening and writing the files is not part of the model.
 */
module EnhancedCsvExporter {
  import opened Wrappers
  import opened Text
  import opened Models
  import opened Tally
  import Config
  import Utils
  import DP = DataProcessor

  // ---------------------------------------------------------------------------------------
  // write_enhanced_characters

  function CharIdOf(c: Character): int { c.id }

  /**
   * The `location_details` passed to `to_csv_row`: name, type and dimension of the location
   * the character's location id resolves to, when it resolves.
   */
  function CharacterDetails(c: Character, locations: seq<Location>): Option<map<string, string>> {
    match DP.LocationOf(c, locations)
    case None => None
    case Some(l) => Some(map["name" := l.name, "type" := l.type_, "dimension" := l.dimension])
  }

  function CharacterRowOf(c: Character, locations: seq<Location>): seq<string> {
    CharacterToCsvRow(c, CharacterDetails(c, locations))
  }

  /**
   * The table `write_enhanced_characters` writes: the header, then one row per character in
   * input order, produced chunk by chunk.
   */
  method EnhancedCharacterRows(characters: seq<Character>, locations: seq<Location>) returns (table: seq<seq<string>>)
    ensures |table| == |characters| + 1 && table[0] == Config.CharacterCsvHeaders
    ensures forall i :: 0 <= i < |characters| ==> table[i + 1] == CharacterRowOf(characters[i], locations)
  {
    var chunks := Utils.Chunks(characters, Config.ChunkSize).value;
    var rows: seq<seq<string>> := [];
    ghost var done: seq<Character> := [];
    for k := 0 to |chunks|
      invariant done == Utils.Flatten(chunks[..k])
      invariant rows == DP.MapSeq(done, CharacterRowFor(locations))
    {
      var chunk := chunks[k];
      var chunkRows: seq<seq<string>> := [];
      for j := 0 to |chunk|
        invariant chunkRows == DP.MapSeq(chunk[..j], CharacterRowFor(locations))
      {
        DP.MapSeqStep(chunk, CharacterRowFor(locations), j);
        chunkRows := chunkRows + [CharacterRowOf(chunk[j], locations)];
      }
      assert chunk[..|chunk|] == chunk;
      DP.MapSeqAppend(done, chunk, CharacterRowFor(locations));
      rows := rows + chunkRows;
      assert chunks[..k + 1] == chunks[..k] + [chunk];
      Utils.FlattenSnoc(chunks[..k], chunk);
      done := done + chunk;
    }
    assert chunks[..|chunks|] == chunks;
    table := [Config.CharacterCsvHeaders] + rows;
  }

  /** The row function of the character export, for a fixed list of locations. */
  function CharacterRowFor(locations: seq<Location>): Character -> seq<string> {
    c => CharacterRowOf(c, locations)
  }

  /**
   * A character row carries location details exactly when the location id is truthy and some
   * location has it; they are then the name, type and dimension of the last such location,
   * and otherwise the row shows the character's own location name and empty type and dimension.
   */
  lemma CharacterRowLocation(c: Character, locations: seq<Location>)
    ensures CharacterDetails(c, locations).Some? <==>
      TruthyId(GetLocationId(c)) && GetLocationId(c).value in DP.LocationIds(locations)
    ensures var r := CharacterRowOf(c, locations);
      && (CharacterDetails(c, locations).None? ==> r[6] == LocationName(c) && r[7] == "" && r[8] == "")
      && (CharacterDetails(c, locations).Some? ==>
            var l := DP.LocationOf(c, locations).value;
            l in locations && r[6] == l.name && r[7] == l.type_ && r[8] == l.dimension)
  {
    if CharacterDetails(c, locations).Some? {
      assert CharacterDetails(c, locations).value != map[] by {
        assert "name" in CharacterDetails(c, locations).value;
      }
    }
  }

  // ---------------------------------------------------------------------------------------
  // write_enhanced_locations

  /** The name a resident URL contributes: that of the last character with the URL's truthy id. */
  function ResidentName(url: string, characters: seq<Character>): Option<string> {
    var id := Utils.ExtractIdFromUrl(url, "character");
    if TruthyId(id) then
      match LastWithKey(characters, CharIdOf, id.value)
      case None => None
      case Some(c) => Some(c.name)
    else None
  }

  /** The names the resident loop collects, in resident-URL order. */
  function ResidentNames(residents: seq<string>, characters: seq<Character>): (names: seq<string>)
    ensures |names| <= |residents|
    decreases |residents|
  {
    if residents == [] then []
    else
      var url := residents[|residents| - 1];
      ResidentNames(residents[..|residents| - 1], characters)
        + (match ResidentName(url, characters) case Some(n) => [n] case None => [])
  }

  /** The resident loop of `write_enhanced_locations`: one URL at a time, keeping the names found. */
  method CollectResidentNames(residents: seq<string>, characters: seq<Character>) returns (names: seq<string>)
    ensures names == ResidentNames(residents, characters)
  {
    names := [];
    for j := 0 to |residents|
      invariant names == ResidentNames(residents[..j], characters)
    {
      assert residents[..j + 1][..j] == residents[..j];
      var charId := Utils.ExtractIdFromUrl(residents[j], "character");
      if TruthyId(charId) {
        var found := LastWithKey(characters, CharIdOf, charId.value);
        if found.Some? {
          names := names + [found.value.name];
        }
      }
    }
    assert residents[..|residents|] == residents;
  }

  /** Every name collected is the name of a character whose id a resident URL carries. */
  lemma {:induction false} ResidentNamesFrom(residents: seq<string>, characters: seq<Character>)
    ensures forall n :: n in ResidentNames(residents, characters) ==>
      exists url :: url in residents && ResidentName(url, characters) == Some(n)
    ensures (forall url :: url in residents ==> ResidentName(url, characters).Some?) ==>
      |ResidentNames(residents, characters)| == |residents|
    decreases |residents|
  {
    if residents != [] {
      var init := residents[..|residents| - 1];
      var url := residents[|residents| - 1];
      ResidentNamesFrom(init, characters);
      forall n | n in ResidentNames(residents, characters)
        ensures exists u :: u in residents && ResidentName(u, characters) == Some(n)
      {
        if n in ResidentNames(init, characters) {
          var u :| u in init && ResidentName(u, characters) == Some(n);
          assert u in residents;
        } else {
          assert ResidentName(url, characters) == Some(n);
        }
      }
      if forall u :: u in residents ==> ResidentName(u, characters).Some? {
        assert forall u :: u in init ==> u in residents;
      }
    }
  }

  /** The most names a location row lists before summarising the rest. */
  const MaxNamesShown: nat := 20

  /** More than 20 names become the first 20 and a `... and K more` marker; shorter lists stay. */
  function TruncateNames(names: seq<string>): (r: seq<string>)
    ensures |r| <= MaxNamesShown + 1
  {
    if |names| > MaxNamesShown then
      names[..MaxNamesShown] + ["... and " + IntToString(|names| - MaxNamesShown) + " more"]
    else names
  }

  /**
   * A list of at most 20 names is kept whole; a longer one keeps its first 20 and ends with a
   * marker whose number reads back as the count of names left out.
   */
  lemma TruncateNamesFacts(names: seq<string>)
    ensures |names| <= MaxNamesShown ==> TruncateNames(names) == names
    ensures |names| > MaxNamesShown ==>
      var r := TruncateNames(names);
      var marker := r[MaxNamesShown];
      && |r| == MaxNamesShown + 1 && r[..MaxNamesShown] == names[..MaxNamesShown]
      && |marker| >= 13 && marker[..8] == "... and " && marker[|marker| - 5..] == " more"
      && ParseInt(marker[8..|marker| - 5]) == Some(|names| - MaxNamesShown)
  {
    if |names| > MaxNamesShown {
      var k := IntToString(|names| - MaxNamesShown);
      IntToStringRoundTrip(|names| - MaxNamesShown);
      var marker := "... and " + k + " more";
      assert marker[8..|marker| - 5] == k;
    }
  }

  function LocationRowOf(l: Location, characters: seq<Character>): seq<string> {
    LocationToCsvRow(l, Some(TruncateNames(ResidentNames(l.residents, characters))))
  }

  /**
   * The table `write_enhanced_locations` writes: the header, then one row per location in
   * input order, produced chunk by chunk.
   */
  method EnhancedLocationRows(locations: seq<Location>, characters: seq<Character>) returns (table: seq<seq<string>>)
    ensures |table| == |locations| + 1 && table[0] == Config.LocationCsvHeaders
    ensures forall i :: 0 <= i < |locations| ==> table[i + 1] == LocationRowOf(locations[i], characters)
  {
    var chunks := Utils.Chunks(locations, Config.ChunkSize).value;
    var rows: seq<seq<string>> := [];
    ghost var done: seq<Location> := [];
    for k := 0 to |chunks|
      invariant done == Utils.Flatten(chunks[..k])
      invariant rows == DP.MapSeq(done, LocationRowFor(characters))
    {
      var chunk := chunks[k];
      var chunkRows: seq<seq<string>> := [];
      for j := 0 to |chunk|
        invariant chunkRows == DP.MapSeq(chunk[..j], LocationRowFor(characters))
      {
        DP.MapSeqStep(chunk, LocationRowFor(characters), j);
        var names := CollectResidentNames(chunk[j].residents, characters);
        names := TruncateNames(names);
        chunkRows := chunkRows + [LocationToCsvRow(chunk[j], Some(names))];
      }
      assert chunk[..|chunk|] == chunk;
      DP.MapSeqAppend(done, chunk, LocationRowFor(characters));
      rows := rows + chunkRows;
      assert chunks[..k + 1] == chunks[..k] + [chunk];
      Utils.FlattenSnoc(chunks[..k], chunk);
      done := done + chunk;
    }
    assert chunks[..|chunks|] == chunks;
    table := [Config.LocationCsvHeaders] + rows;
  }

  /** The row function of the location export, for a fixed list of characters. */
  function LocationRowFor(characters: seq<Character>): Location -> seq<string> {
    l => LocationRowOf(l, characters)
  }

  /**
   * The names column is empty when no resident URL resolves to a known character, and joins
   * the names with `'; '` when there are between 1 and 20 of them.
   */
  lemma LocationRowNames(l: Location, characters: seq<Character>)
    ensures var r := LocationRowOf(l, characters);
      var names := ResidentNames(l.residents, characters);
      && (names == [] ==> r[5] == "")
      && (0 < |names| <= MaxNamesShown ==> r[5] == Join(names, "; "))
  {
    TruncateNamesFacts(ResidentNames(l.residents, characters));
  }

  // ---------------------------------------------------------------------------------------
  // create_relationship_summary

  /** An entry of `location_resident_summary`. */
  datatype ResidentSummary = ResidentSummary(name: string, residentCount: nat, residentsInCsv: nat, sampleResidents: seq<string>)

  datatype RelationshipSummary = RelationshipSummary(
    totalCharacters: nat, totalLocations: nat, charactersWithLocation: nat, locationsWithResidents: nat,
    characterLocationMapping: seq<(int, int)>, locationResidentSummary: seq<(int, ResidentSummary)>)

  /** How many entries each sample of the summary keeps. */
  const SampleSize: nat := 5

  predicate HasLocationId(c: Character) { TruthyId(GetLocationId(c)) }

  function LocationIdValue(c: Character): int {
    match GetLocationId(c) case Some(id) => id case None => 0
  }

  /** `char_location_map`: character id to location id, for characters with a truthy location id. */
  function CharLocationMap(characters: seq<Character>): seq<(int, int)> {
    PutAll(DP.FilterSeq(characters, HasLocationId), CharIdOf, LocationIdValue)
  }

  /** A resident URL counts when its character id parses to a truthy value. */
  predicate CountsResident(url: string) { TruthyId(Utils.ExtractIdFromUrl(url, "character")) }

  /** The name the summary takes for a resident URL: that of the first character with its id. */
  function FirstResidentName(url: string, characters: seq<Character>): Option<string> {
    var id := Utils.ExtractIdFromUrl(url, "character");
    if TruthyId(id) then
      match FirstWithKey(characters, CharIdOf, id.value)
      case None => None
      case Some(c) => Some(c.name)
    else None
  }

  function SummaryNames(residents: seq<string>, characters: seq<Character>): seq<string>
    decreases |residents|
  {
    if residents == [] then []
    else
      var url := residents[|residents| - 1];
      SummaryNames(residents[..|residents| - 1], characters)
        + (match FirstResidentName(url, characters) case Some(n) => [n] case None => [])
  }

  function ResidentSummaryOf(l: Location, characters: seq<Character>): ResidentSummary {
    var names := SummaryNames(l.residents, characters);
    ResidentSummary(l.name, DP.CountWhere(l.residents, CountsResident), |names|, DP.Take(names, SampleSize))
  }

  function SummaryFor(characters: seq<Character>): Location -> ResidentSummary {
    l => ResidentSummaryOf(l, characters)
  }

  /** `location_residents`: location id to its resident summary, the last location with an id winning. */
  function LocationResidents(locations: seq<Location>, characters: seq<Character>): seq<(int, ResidentSummary)> {
    PutAll(locations, IdOf, SummaryFor(characters))
  }

  predicate HasResidents(e: (int, ResidentSummary)) { e.1.residentCount > 0 }

  /** The summary `create_relationship_summary` returns. */
  function RelationshipSpec(characters: seq<Character>, locations: seq<Location>): RelationshipSummary {
    var m := CharLocationMap(characters);
    var lr := LocationResidents(locations, characters);
    RelationshipSummary(|characters|, |locations|, |m|, DP.CountWhere(lr, HasResidents),
                        DP.Take(m, SampleSize), DP.Take(lr, SampleSize))
  }

  /** The inner loop over one location's resident URLs. */
  method SummariseResidents(l: Location, characters: seq<Character>) returns (s: ResidentSummary)
    ensures s == ResidentSummaryOf(l, characters)
  {
    var residentCount: nat := 0;
    var residentNames: seq<string> := [];
    for j := 0 to |l.residents|
      invariant residentCount == DP.CountWhere(l.residents[..j], CountsResident)
      invariant residentNames == SummaryNames(l.residents[..j], characters)
    {
      assert l.residents[..j + 1][..j] == l.residents[..j];
      var charId := Utils.ExtractIdFromUrl(l.residents[j], "character");
      if TruthyId(charId) {
        residentCount := residentCount + 1;
        var found := FirstWithKey(characters, CharIdOf, charId.value);
        if found.Some? {
          residentNames := residentNames + [found.value.name];
        }
      }
    }
    assert l.residents[..|l.residents|] == l.residents;
    s := ResidentSummary(l.name, residentCount, |residentNames|, DP.Take(residentNames, SampleSize));
  }

  /** The first loop of `create_relationship_summary`, over the characters. */
  method BuildCharLocationMap(characters: seq<Character>) returns (charLocationMap: seq<(int, int)>)
    ensures charLocationMap == CharLocationMap(characters)
  {
    charLocationMap := [];
    for i := 0 to |characters|
      invariant charLocationMap == PutAll(DP.FilterSeq(characters[..i], HasLocationId), CharIdOf, LocationIdValue)
    {
      var c := characters[i];
      CharLocationStep(characters, i);
      var locationId := GetLocationId(c);
      if TruthyId(locationId) {
        charLocationMap := Put(charLocationMap, c.id, locationId.value);
      }
    }
    assert characters[..|characters|] == characters;
  }

  lemma CharLocationStep(characters: seq<Character>, i: nat)
    requires i < |characters|
    ensures var before := PutAll(DP.FilterSeq(characters[..i], HasLocationId), CharIdOf, LocationIdValue);
      var c := characters[i];
      PutAll(DP.FilterSeq(characters[..i + 1], HasLocationId), CharIdOf, LocationIdValue)
        == if TruthyId(GetLocationId(c)) then Put(before, c.id, GetLocationId(c).value) else before
  {
    var c := characters[i];
    DP.FilterSeqStep(characters, HasLocationId, i);
    if HasLocationId(c) {
      PutAllSnoc(DP.FilterSeq(characters[..i], HasLocationId), c, CharIdOf, LocationIdValue);
    } else {
      assert DP.FilterSeq(characters[..i], HasLocationId) + [] == DP.FilterSeq(characters[..i], HasLocationId);
    }
  }

  /** The second loop of `create_relationship_summary`, over the locations. */
  method BuildLocationResidents(locations: seq<Location>, characters: seq<Character>)
    returns (locationResidents: seq<(int, ResidentSummary)>)
    ensures locationResidents == LocationResidents(locations, characters)
  {
    locationResidents := [];
    for i := 0 to |locations|
      invariant locationResidents == PutAll(locations[..i], IdOf, SummaryFor(characters))
    {
      var s := SummariseResidents(locations[i], characters);
      assert locations[..i + 1] == locations[..i] + [locations[i]];
      PutAllSnoc(locations[..i], locations[i], IdOf, SummaryFor(characters));
      locationResidents := Put(locationResidents, locations[i].id, s);
    }
    assert locations[..|locations|] == locations;
  }

  /** `create_relationship_summary`: the two loops, then the counts and samples. */
  method CreateRelationshipSummary(characters: seq<Character>, locations: seq<Location>) returns (r: RelationshipSummary)
    ensures r == RelationshipSpec(characters, locations)
  {
    var charLocationMap := BuildCharLocationMap(characters);
    var locationResidents := BuildLocationResidents(locations, characters);
    r := RelationshipSummary(
      |characters|, |locations|, |charLocationMap|, DP.CountWhere(locationResidents, HasResidents),
      DP.Take(charLocationMap, SampleSize), DP.Take(locationResidents, SampleSize));
  }

  /** The keys of the items that pass `p`. */
  ghost function KeysWhere<K, V>(d: seq<(K, V)>, p: ((K, V)) -> bool): set<K> {
    set e | e in d && p(e) :: e.0
  }

  /** Of a dict's items, as many pass a test as there are distinct keys among those that pass. */
  lemma {:induction false} DistinctFilterCard<K, V>(d: seq<(K, V)>, p: ((K, V)) -> bool)
    requires DistinctKeys(d)
    ensures |DP.FilterSeq(d, p)| == |KeysWhere(d, p)|
    decreases |d|
  {
    if d != [] {
      var init := d[..|d| - 1];
      var e := d[|d| - 1];
      DistinctFilterCard(init, p);
      assert d == init + [e];
      if p(e) {
        assert KeysWhere(d, p) == KeysWhere(init, p) + {e.0};
        forall x | x in init ensures x.0 != e.0 {
          var i :| 0 <= i < |init| && init[i] == x;
          assert d[i] == x;
        }
      } else {
        assert KeysWhere(d, p) == KeysWhere(init, p);
      }
    }
  }

  /** The last location with id `id` has a resident URL with a truthy character id. */
  predicate LastHasResidents(locations: seq<Location>, id: int) {
    match LastWithKey(locations, IdOf, id)
    case Some(l) => DP.CountWhere(l.residents, CountsResident) > 0
    case None => false
  }

  /** The ids of the locations whose last location with that id has a counted resident. */
  ghost function IdsWithResidents(locations: seq<Location>): set<int> {
    set l | l in locations && LastHasResidents(locations, l.id) :: l.id
  }

  /**
   * `characters_with_location` is the number of distinct character ids with a truthy location
   * id; `locations_with_residents` the number of distinct location ids whose last location has
   * a resident URL with a truthy character id; the samples keep at most five entries.
   */
  lemma RelationshipFacts(characters: seq<Character>, locations: seq<Location>)
    ensures var r := RelationshipSpec(characters, locations);
      && r.totalCharacters == |characters| && r.totalLocations == |locations|
      && r.charactersWithLocation == |set c | c in characters && HasLocationId(c) :: c.id|
      && r.locationsWithResidents == |IdsWithResidents(locations)|
      && |r.characterLocationMapping| <= SampleSize && |r.locationResidentSummary| <= SampleSize
  {
    CharactersWithLocationCount(characters);
    LocationsWithResidentsCount(locations, characters);
  }

  lemma CharactersWithLocationCount(characters: seq<Character>)
    ensures |CharLocationMap(characters)| == |set c | c in characters && HasLocationId(c) :: c.id|
  {
    var f := DP.FilterSeq(characters, HasLocationId);
    var m := CharLocationMap(characters);
    PutAllDistinct(f, CharIdOf, LocationIdValue);
    DistinctKeysCard(m);
    CharLocationKeys(characters);
  }

  lemma CharLocationKeys(characters: seq<Character>)
    ensures (set k | k in Keys(CharLocationMap(characters))) == (set c | c in characters && HasLocationId(c) :: c.id)
  {
    var f := DP.FilterSeq(characters, HasLocationId);
    var m := CharLocationMap(characters);
    DP.FilterSeqFacts(characters, HasLocationId);
    PutAllKeys(f, CharIdOf, LocationIdValue);
    forall k | k in Keys(m) ensures k in (set c | c in characters && HasLocationId(c) :: c.id) {
      var c :| c in f && CharIdOf(c) == k;
    }
    forall c | c in characters && HasLocationId(c) ensures c.id in Keys(m) {
      assert c in f && CharIdOf(c) == c.id;
    }
  }

  lemma LocationsWithResidentsCount(locations: seq<Location>, characters: seq<Character>)
    ensures DP.CountWhere(LocationResidents(locations, characters), HasResidents) == |IdsWithResidents(locations)|
  {
    var lr := LocationResidents(locations, characters);
    PutAllDistinct(locations, IdOf, SummaryFor(characters));
    DistinctFilterCard(lr, HasResidents);
    ResidentKeysSound(locations, characters);
    ResidentKeysComplete(locations, characters);
    assert KeysWhere(lr, HasResidents) == IdsWithResidents(locations);
    assert DP.CountWhere(lr, HasResidents) == |DP.FilterSeq(lr, HasResidents)|;
  }

  lemma ResidentKeysSound(locations: seq<Location>, characters: seq<Character>)
    ensures KeysWhere(LocationResidents(locations, characters), HasResidents) <= IdsWithResidents(locations)
  {
    var lr := LocationResidents(locations, characters);
    PutAllValues(locations, IdOf, SummaryFor(characters));
    forall e | e in lr && HasResidents(e) ensures e.0 in IdsWithResidents(locations) {
      var i :| 0 <= i < |lr| && lr[i] == e;
      assert ValueIsLast(locations, IdOf, SummaryFor(characters), lr[i]);
      var l := LastWithKey(locations, IdOf, e.0).value;
      assert l in locations && l.id == e.0;
    }
  }

  lemma ResidentKeysComplete(locations: seq<Location>, characters: seq<Character>)
    ensures IdsWithResidents(locations) <= KeysWhere(LocationResidents(locations, characters), HasResidents)
  {
    var lr := LocationResidents(locations, characters);
    PutAllKeys(locations, IdOf, SummaryFor(characters));
    PutAllValues(locations, IdOf, SummaryFor(characters));
    forall l | l in locations && LastHasResidents(locations, l.id)
      ensures l.id in KeysWhere(lr, HasResidents)
    {
      assert IdOf(l) == l.id;
      assert l.id in Keys(lr);
      var i :| 0 <= i < |lr| && Keys(lr)[i] == l.id;
      assert ValueIsLast(locations, IdOf, SummaryFor(characters), lr[i]);
      assert lr[i] in lr && HasResidents(lr[i]);
    }
  }

  /** A location's summary never lists more names than it counts residents, and samples at most five. */
  lemma {:induction false} ResidentSummaryBounds(residents: seq<string>, characters: seq<Character>)
    ensures |SummaryNames(residents, characters)| <= DP.CountWhere(residents, CountsResident)
    decreases |residents|
  {
    if residents != [] {
      var init := residents[..|residents| - 1];
      ResidentSummaryBounds(init, characters);
    }
  }
}
