/**
 * `RESTDataProcessor`: the transformations the REST front end applies to the normalised
 * characters and locations — export dictionaries, the location-enriched character list, the
 * summary statistics and the case-insensitive filters.
 */
module RestDataProcessor {
  import opened Wrappers
  import opened Text
  import opened Models
  import opened Tally
  import DP = DataProcessor

  // ---------------------------------------------------------------------------------------
  // process_characters / process_locations

  /**
   * `process_characters`: one `to_dict()` summary per character, in order.  `to_dict` cannot
   * fail on a normalised character, so the skip-on-exception branch never drops one.
   */
  method ProcessCharacters(characters: seq<Character>) returns (processed: seq<CharacterSummary>)
    ensures processed == DP.MapSeq(characters, CharacterToDict)
  {
    processed := [];
    for i := 0 to |characters|
      invariant processed == DP.MapSeq(characters[..i], CharacterToDict)
    {
      DP.MapSeqStep(characters, CharacterToDict, i);
      processed := processed + [CharacterToDict(characters[i])];
    }
    assert characters[..|characters|] == characters;
  }

  /** An entry of `process_locations`: the residents list is replaced by its length. */
  datatype ProcessedLocation = ProcessedLocation(id: int, name: string, type_: string, dimension: string, residentCount: nat)

  /** The entry `process_locations` builds for one location. */
  function Processed(l: Location): (p: ProcessedLocation)
    ensures p.id == l.id && p.name == l.name && p.type_ == l.type_ && p.dimension == l.dimension
    ensures p.residentCount == |l.residents|
  {
    ProcessedLocation(l.id, l.name, l.type_, l.dimension, |l.residents|)
  }

  /** `process_locations`: one entry per location, in order, each with its own resident count. */
  method ProcessLocations(locations: seq<Location>) returns (processed: seq<ProcessedLocation>)
    ensures processed == DP.MapSeq(locations, Processed)
  {
    processed := [];
    for i := 0 to |locations|
      invariant processed == DP.MapSeq(locations[..i], Processed)
    {
      DP.MapSeqStep(locations, Processed, i);
      var l := locations[i];
      processed := processed + [ProcessedLocation(l.id, l.name, l.type_, l.dimension, |l.residents|)];
    }
    assert locations[..|locations|] == locations;
  }

  // ---------------------------------------------------------------------------------------
  // enrich_characters_with_locations

  /** The `location_details` attached to a character whose location is known. */
  datatype LocationDetails = LocationDetails(type_: string, dimension: string, residentCount: nat)

  datatype EnrichedCharacter = EnrichedCharacter(character: CharacterSummary, locationDetails: Option<LocationDetails>)

  function DetailsOf(l: Location): LocationDetails {
    LocationDetails(l.type_, l.dimension, |l.residents|)
  }

  /**
   * `location_details` for one character: present exactly when the character's location id is
   * truthy and some location carries it.
   */
  function LocationDetailsOf(c: Character, locations: seq<Location>): (r: Option<LocationDetails>)
    ensures r.Some? <==> TruthyId(GetLocationId(c)) && GetLocationId(c).value in DP.LocationIds(locations)
  {
    match DP.LocationOf(c, locations)
    case None => None
    case Some(l) => Some(DetailsOf(l))
  }

  function Enriched(c: Character, locations: seq<Location>): EnrichedCharacter {
    EnrichedCharacter(CharacterToDict(c), LocationDetailsOf(c, locations))
  }

  function EnrichFor(locations: seq<Location>): Character -> EnrichedCharacter {
    c => Enriched(c, locations)
  }

  /** `enrich_characters_with_locations`: one enriched summary per character, in order. */
  method EnrichCharactersWithLocations(characters: seq<Character>, locations: seq<Location>)
    returns (enriched: seq<EnrichedCharacter>)
    ensures enriched == DP.MapSeq(characters, EnrichFor(locations))
  {
    enriched := [];
    for i := 0 to |characters|
      invariant enriched == DP.MapSeq(characters[..i], EnrichFor(locations))
    {
      DP.MapSeqStep(characters, EnrichFor(locations), i);
      var c := characters[i];
      enriched := enriched + [EnrichedCharacter(CharacterToDict(c), LocationDetailsOf(c, locations))];
    }
    assert characters[..|characters|] == characters;
  }

  /** The details are those of the last location carrying the character's location id. */
  lemma DetailsFromLastLocation(c: Character, locations: seq<Location>, i: nat)
    requires TruthyId(GetLocationId(c))
    requires i < |locations| && locations[i].id == GetLocationId(c).value
    requires forall j :: i < j < |locations| ==> locations[j].id != locations[i].id
    ensures LocationDetailsOf(c, locations) == Some(DetailsOf(locations[i]))
  {
    DP.LocationOfLast(c, locations, i);
  }

  // ---------------------------------------------------------------------------------------
  // get_statistics

  /** The report of `get_statistics`; dicts are ordered key/count sequences. */
  datatype RestStatistics = RestStatistics(
    totalCharacters: nat, totalLocations: nat,
    characterStatus: seq<(string, nat)>, characterSpecies: seq<(string, nat)>,
    locationTypes: seq<(string, nat)>, locationDimensions: seq<(string, nat)>,
    mostPopulatedLocations: seq<DP.PopulatedLocation>)

  /** The number of entries the ranked parts of the report keep. */
  const TopN: nat := 10

  function ResidentCount(l: Location): int { |l.residents| }

  /** `sorted(locations, key=resident count, reverse=True)[:10]`, each as a populated-location entry. */
  function MostPopulatedTop(locations: seq<Location>): seq<DP.PopulatedLocation> {
    DP.MapSeq(DP.Take(SortDesc(locations, ResidentCount), TopN), DP.Populated)
  }

  /** What `get_statistics` reports for the given characters and locations. */
  function StatisticsSpec(characters: seq<Character>, locations: seq<Location>): RestStatistics {
    RestStatistics(
      |characters|, |locations|,
      CountAll(DP.MapSeq(characters, DP.StatusOf)),
      MostCommonN(DP.MapSeq(characters, DP.SpeciesOf), TopN),
      CountAll(DP.MapSeq(locations, DP.TypeOf)),
      MostCommonN(DP.MapSeq(locations, DP.DimensionOf), TopN),
      MostPopulatedTop(locations))
  }

  /** The counting loop over a prefix one element longer is one more `Bump`. */
  lemma CountStep<T>(s: seq<T>, f: T -> string, i: nat)
    requires i < |s|
    ensures CountAll(DP.MapSeq(s[..i + 1], f)) == Bump(CountAll(DP.MapSeq(s[..i], f)), f(s[i]))
  {
    assert DP.MapSeq(s[..i + 1], f) == DP.MapSeq(s[..i], f) + [f(s[i])];
    CountAllSnoc(DP.MapSeq(s[..i], f), f(s[i]));
  }

  /** `get_statistics`: the two counting loops, then the ranked views. */
  method GetStatistics(characters: seq<Character>, locations: seq<Location>) returns (r: RestStatistics)
    ensures r == StatisticsSpec(characters, locations)
  {
    var statusCounts, speciesCounts := CharacterTallies(characters);
    var typeCounts, dimensionCounts := LocationTallies(locations);
    var species := SortDesc(speciesCounts, (e: (string, nat)) => e.1);
    var dimensions := SortDesc(dimensionCounts, (e: (string, nat)) => e.1);
    r := RestStatistics(
      |characters|, |locations|, statusCounts, DP.Take(species, TopN), typeCounts,
      DP.Take(dimensions, TopN), MostPopulatedTop(locations));
  }

  /** The loop over the characters, counting statuses and species. */
  method CharacterTallies(characters: seq<Character>)
    returns (statusCounts: seq<(string, nat)>, speciesCounts: seq<(string, nat)>)
    ensures statusCounts == CountAll(DP.MapSeq(characters, DP.StatusOf))
    ensures speciesCounts == CountAll(DP.MapSeq(characters, DP.SpeciesOf))
  {
    statusCounts, speciesCounts := [], [];
    for i := 0 to |characters|
      invariant statusCounts == CountAll(DP.MapSeq(characters[..i], DP.StatusOf))
      invariant speciesCounts == CountAll(DP.MapSeq(characters[..i], DP.SpeciesOf))
    {
      CountStep(characters, DP.StatusOf, i);
      CountStep(characters, DP.SpeciesOf, i);
      statusCounts := Bump(statusCounts, characters[i].status);
      speciesCounts := Bump(speciesCounts, characters[i].species);
    }
    assert characters[..|characters|] == characters;
  }

  /** The loop over the locations, counting types and dimensions. */
  method LocationTallies(locations: seq<Location>)
    returns (typeCounts: seq<(string, nat)>, dimensionCounts: seq<(string, nat)>)
    ensures typeCounts == CountAll(DP.MapSeq(locations, DP.TypeOf))
    ensures dimensionCounts == CountAll(DP.MapSeq(locations, DP.DimensionOf))
  {
    typeCounts, dimensionCounts := [], [];
    for i := 0 to |locations|
      invariant typeCounts == CountAll(DP.MapSeq(locations[..i], DP.TypeOf))
      invariant dimensionCounts == CountAll(DP.MapSeq(locations[..i], DP.DimensionOf))
    {
      CountStep(locations, DP.TypeOf, i);
      CountStep(locations, DP.DimensionOf, i);
      typeCounts := Bump(typeCounts, locations[i].type_);
      dimensionCounts := Bump(dimensionCounts, locations[i].dimension);
    }
    assert locations[..|locations|] == locations;
  }

  /**
   * The status and type dicts tally their field over all characters and locations; the species
   * and dimension dicts are the ten most common values; the most populated locations are the
   * ten largest locations.
   */
  lemma StatisticsFacts(characters: seq<Character>, locations: seq<Location>)
    ensures var r := StatisticsSpec(characters, locations);
      && r.totalCharacters == |characters| && r.totalLocations == |locations|
      && Tallies(r.characterStatus, DP.MapSeq(characters, DP.StatusOf))
      && SumCounts(r.characterStatus) == |characters|
      && Tallies(r.locationTypes, DP.MapSeq(locations, DP.TypeOf))
      && SumCounts(r.locationTypes) == |locations|
      && TopCounts(r.characterSpecies, DP.MapSeq(characters, DP.SpeciesOf), TopN)
      && TopCounts(r.locationDimensions, DP.MapSeq(locations, DP.DimensionOf), TopN)
      && r.mostPopulatedLocations == DP.Take(DP.MostPopulated(locations), TopN)
      && TopPopulated(r.mostPopulatedLocations, locations, TopN)
  {
    CountAllFacts(DP.MapSeq(characters, DP.StatusOf));
    CountAllFacts(DP.MapSeq(locations, DP.TypeOf));
    MostCommonNFacts(DP.MapSeq(characters, DP.SpeciesOf), TopN);
    MostCommonNFacts(DP.MapSeq(locations, DP.DimensionOf), TopN);
    MostPopulatedFacts(locations);
  }

  /**
   * `r` is the `n` most populated of `locations`: as many entries as locations up to `n`, by
   * descending resident count, no entry kept more often than the locations produce it, every
   * entry left out (an occurrence of it beyond those kept) no larger than any kept, and the
   * entries of each count the first locations of that count in list order.
   */
  ghost predicate TopPopulated(r: seq<DP.PopulatedLocation>, locations: seq<Location>, n: nat) {
    var all := DP.MapSeq(locations, DP.Populated);
    && |r| == (if |locations| <= n then |locations| else n)
    && NonIncreasing(r, DP.Residents)
    && multiset(r) <= multiset(all)
    && (forall e, i :: multiset(r)[e] < multiset(all)[e] && 0 <= i < |r| ==> r[i].residentCount >= e.residentCount)
    && (forall c :: DP.FilterSeq(r, DP.KeyIs(DP.Residents, c)) <= DP.FilterSeq(all, DP.KeyIs(DP.Residents, c)))
  }

  /** Sorting the locations and then taking ten gives the first ten of the stable sort of the entries. */
  lemma MostPopulatedAgree(locations: seq<Location>)
    ensures MostPopulatedTop(locations) == DP.Take(DP.MostPopulated(locations), TopN)
  {
    var sorted := SortDesc(locations, ResidentCount);
    DP.SortDescMap(locations, ResidentCount, DP.Populated, DP.Residents);
    assert DP.MapSeq(sorted, DP.Populated) == DP.MostPopulated(locations);
  }

  /** The most populated locations of the report are the ten largest. */
  lemma MostPopulatedFacts(locations: seq<Location>)
    ensures MostPopulatedTop(locations) == DP.Take(DP.MostPopulated(locations), TopN)
    ensures TopPopulated(MostPopulatedTop(locations), locations, TopN)
  {
    MostPopulatedAgree(locations);
    TakeOfStableSort(DP.MostPopulated(locations), locations, TopN);
  }

  /** The first `n` entries of a stable descending sort of the locations' entries are the `n` largest. */
  lemma TakeOfStableSort(sorted: seq<DP.PopulatedLocation>, locations: seq<Location>, n: nat)
    requires |sorted| == |locations|
    requires multiset(sorted) == multiset(DP.MapSeq(locations, DP.Populated))
    requires NonIncreasing(sorted, DP.Residents)
    requires forall c ::
               DP.FilterSeq(sorted, DP.KeyIs(DP.Residents, c)) == DP.FilterSeq(DP.MapSeq(locations, DP.Populated), DP.KeyIs(DP.Residents, c))
    ensures TopPopulated(DP.Take(sorted, n), locations, n)
  {
    var all := DP.MapSeq(locations, DP.Populated);
    var r := DP.Take(sorted, n);
    assert r == sorted[..|r|];
    NonIncreasingPrefix(sorted, DP.Residents, |r|);
    SortedPrefixKeeps(sorted, all, |r|);
    SortedPrefixDominates(sorted, all, |r|);
  }

  /**
   * A prefix of a stable sort of `all` keeps entries of `all` no more often than `all` has them,
   * and of each count the first ones.
   */
  lemma SortedPrefixKeeps(sorted: seq<DP.PopulatedLocation>, all: seq<DP.PopulatedLocation>, m: nat)
    requires m <= |sorted| && multiset(sorted) == multiset(all)
    requires forall c :: DP.FilterSeq(sorted, DP.KeyIs(DP.Residents, c)) == DP.FilterSeq(all, DP.KeyIs(DP.Residents, c))
    ensures multiset(sorted[..m]) <= multiset(all)
    ensures forall c :: DP.FilterSeq(sorted[..m], DP.KeyIs(DP.Residents, c)) <= DP.FilterSeq(all, DP.KeyIs(DP.Residents, c))
  {
    assert sorted == sorted[..m] + sorted[m..];
    forall c ensures DP.FilterSeq(sorted[..m], DP.KeyIs(DP.Residents, c)) <= DP.FilterSeq(all, DP.KeyIs(DP.Residents, c)) {
      DP.FilterAppend(sorted[..m], sorted[m..], DP.KeyIs(DP.Residents, c));
    }
  }

  /** An entry occurring in the descending sort more often than in a prefix of it is no larger than one kept. */
  lemma SortedPrefixDominates(sorted: seq<DP.PopulatedLocation>, all: seq<DP.PopulatedLocation>, m: nat)
    requires m <= |sorted| && NonIncreasing(sorted, DP.Residents)
    requires multiset(sorted) == multiset(all)
    ensures forall e, i :: multiset(sorted[..m])[e] < multiset(all)[e] && 0 <= i < m ==>
      sorted[i].residentCount >= e.residentCount
  {
    assert sorted == sorted[..m] + sorted[m..];
    forall e, i | multiset(sorted[..m])[e] < multiset(all)[e] && 0 <= i < m
      ensures sorted[i].residentCount >= e.residentCount
    {
      assert e in multiset(sorted[m..]);
      var j :| m <= j < |sorted| && sorted[j] == e;
      assert DP.Residents(sorted[i]) >= DP.Residents(sorted[j]);
    }
  }

  // ---------------------------------------------------------------------------------------
  // filter_characters / filter_locations

  /** `criterion.lower() in field(x).lower()` when the criterion is truthy; anything passes otherwise. */
  predicate AcceptsPart<T>(criterion: Option<string>, field: T -> string, x: T) {
    DP.Given(criterion) ==> Contains(Lower(field(x)), Lower(criterion.value))
  }

  /** `if criterion: s = [x for x in s if criterion.lower() in field(x).lower()]`. */
  function FilterByPart<T>(s: seq<T>, criterion: Option<string>, field: T -> string): (r: seq<T>)
    ensures r == DP.FilterSeq(s, x => AcceptsPart(criterion, field, x))
  {
    if DP.Given(criterion) then DP.FilterSeq(s, x => AcceptsPart(criterion, field, x))
    else
      DP.FilterAll(s, x => AcceptsPart(criterion, field, x));
      s
  }

  function OriginNameOf(c: Character): string { c.origin.name }

  /** What `filter_characters` asks of one character: status and species equal, origin name containing the criterion, ignoring case. */
  predicate CharacterMatches(c: Character, status: Option<string>, species: Option<string>, originName: Option<string>) {
    && DP.Accepts(status, DP.StatusOf, c) && DP.Accepts(species, DP.SpeciesOf, c)
    && AcceptsPart(originName, OriginNameOf, c)
  }

  /** `filter_characters`: the order-preserving subsequence of the characters matching every truthy criterion. */
  function FilterCharacters(characters: seq<Character>, status: Option<string>, species: Option<string>,
                            originName: Option<string>): (r: seq<Character>)
    ensures r == DP.FilterSeq(characters, c => CharacterMatches(c, status, species, originName))
    ensures DP.IsSubsequence(r, characters)
    ensures forall c :: c in r <==> c in characters && CharacterMatches(c, status, species, originName)
  {
    var f1 := DP.FilterBy(characters, status, DP.StatusOf);
    var f2 := DP.FilterBy(f1, species, DP.SpeciesOf);
    var f3 := FilterByPart(f2, originName, OriginNameOf);
    FilterCharactersSpec(characters, status, species, originName);
    f3
  }

  lemma FilterCharactersSpec(characters: seq<Character>, status: Option<string>, species: Option<string>,
                             originName: Option<string>)
    ensures var r := FilterByPart(DP.FilterBy(DP.FilterBy(characters, status, DP.StatusOf), species, DP.SpeciesOf),
                                  originName, OriginNameOf);
      && r == DP.FilterSeq(characters, c => CharacterMatches(c, status, species, originName))
      && DP.IsSubsequence(r, characters)
      && forall c :: c in r <==> c in characters && CharacterMatches(c, status, species, originName)
  {
    var p1 := (c: Character) => DP.Accepts(status, DP.StatusOf, c);
    var p2 := (c: Character) => DP.Accepts(status, DP.StatusOf, c) && DP.Accepts(species, DP.SpeciesOf, c);
    var all := (c: Character) => CharacterMatches(c, status, species, originName);
    DP.FilterThen(characters, p1, c => DP.Accepts(species, DP.SpeciesOf, c), p2);
    DP.FilterThen(characters, p2, c => AcceptsPart(originName, OriginNameOf, c), all);
    DP.FilterSeqFacts(characters, all);
  }

  /** What `filter_locations` asks of one location: type equal and dimension containing the criterion, ignoring case, and enough residents. */
  predicate LocationMatches(l: Location, typeFilter: Option<string>, dimension: Option<string>, minResidents: Option<int>) {
    && DP.Accepts(typeFilter, DP.TypeOf, l) && AcceptsPart(dimension, DP.DimensionOf, l)
    && DP.HasMinResidents(l, minResidents)
  }

  /** `filter_locations`: the order-preserving subsequence of the locations matching every given criterion. */
  function FilterLocations(locations: seq<Location>, typeFilter: Option<string>, dimension: Option<string>,
                           minResidents: Option<int>): (r: seq<Location>)
    ensures r == DP.FilterSeq(locations, l => LocationMatches(l, typeFilter, dimension, minResidents))
    ensures DP.IsSubsequence(r, locations)
    ensures forall l :: l in r <==> l in locations && LocationMatches(l, typeFilter, dimension, minResidents)
  {
    var f1 := DP.FilterBy(locations, typeFilter, DP.TypeOf);
    var f2 := FilterByPart(f1, dimension, DP.DimensionOf);
    var f3 := DP.FilterByResidents(f2, minResidents);
    FilterLocationsSpec(locations, typeFilter, dimension, minResidents);
    f3
  }

  lemma FilterLocationsSpec(locations: seq<Location>, typeFilter: Option<string>, dimension: Option<string>,
                            minResidents: Option<int>)
    ensures var r := DP.FilterByResidents(FilterByPart(DP.FilterBy(locations, typeFilter, DP.TypeOf), dimension, DP.DimensionOf),
                                          minResidents);
      && r == DP.FilterSeq(locations, l => LocationMatches(l, typeFilter, dimension, minResidents))
      && DP.IsSubsequence(r, locations)
      && forall l :: l in r <==> l in locations && LocationMatches(l, typeFilter, dimension, minResidents)
  {
    var p1 := (l: Location) => DP.Accepts(typeFilter, DP.TypeOf, l);
    var p2 := (l: Location) => DP.Accepts(typeFilter, DP.TypeOf, l) && AcceptsPart(dimension, DP.DimensionOf, l);
    var all := (l: Location) => LocationMatches(l, typeFilter, dimension, minResidents);
    DP.FilterThen(locations, p1, l => AcceptsPart(dimension, DP.DimensionOf, l), p2);
    DP.FilterThen(locations, p2, l => DP.HasMinResidents(l, minResidents), all);
    DP.FilterSeqFacts(locations, all);
  }

  /** The dimension filter matches part of the name: a dimension equal to the criterion always passes. */
  lemma EqualDimensionPasses(l: Location, dimension: Option<string>)
    requires DP.Given(dimension) && Lower(l.dimension) == Lower(dimension.value)
    ensures AcceptsPart(dimension, DP.DimensionOf, l)
  {
    var s := Lower(l.dimension);
    assert s[0..|s|] == s;
    assert OccursAt(s, s, 0);
  }
}
