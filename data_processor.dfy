/**
 * The source-independent statistics, filters and data-quality report computed over the
 * normalised characters and locations: value distributions, the most populated locations,
 * the character-to-location mapping analysis and the completeness score.
 */
module DataProcessor {
  import opened Wrappers
  import opened Text
  import opened Models
  import opened Tally

  // ---------------------------------------------------------------------------------------
  // List comprehensions

  /** `[x for x in s if p(x)]`. */
  function FilterSeq<T>(s: seq<T>, p: T -> bool): (r: seq<T>)
    ensures |r| <= |s|
    decreases |s|
  {
    if s == [] then [] else FilterSeq(s[..|s| - 1], p) + (if p(s[|s| - 1]) then [s[|s| - 1]] else [])
  }

  /** `a` is `b` with some elements removed, the rest in their order. */
  predicate IsSubsequence<T(==)>(a: seq<T>, b: seq<T>)
    decreases |b|
  {
    || a == []
    || (&& b != []
        && ((a[|a| - 1] == b[|b| - 1] && IsSubsequence(a[..|a| - 1], b[..|b| - 1]))
            || IsSubsequence(a, b[..|b| - 1])))
  }

  /** A comprehension keeps exactly the elements that pass, in their order. */
  lemma {:induction false} FilterSeqFacts<T>(s: seq<T>, p: T -> bool)
    ensures IsSubsequence(FilterSeq(s, p), s)
    ensures forall x :: x in FilterSeq(s, p) <==> x in s && p(x)
    decreases |s|
  {
    if s != [] {
      var init := s[..|s| - 1];
      FilterSeqFacts(init, p);
      assert s == init + [s[|s| - 1]];
      var r := FilterSeq(s, p);
      assert s[..|s| - 1] == init;
      if p(s[|s| - 1]) {
        assert r[..|r| - 1] == FilterSeq(init, p);
      } else {
        assert r == FilterSeq(init, p);
      }
    }
  }

  /** A loop that filters element by element has, after element `i`, the comprehension of the prefix. */
  lemma FilterSeqStep<T>(s: seq<T>, p: T -> bool, i: nat)
    requires i < |s|
    ensures FilterSeq(s[..i + 1], p) == FilterSeq(s[..i], p) + (if p(s[i]) then [s[i]] else [])
  {
    assert s[..i + 1][..i] == s[..i];
  }

  /** Two comprehensions in a row keep what passes both. */
  lemma {:induction false} FilterFilter<T>(s: seq<T>, p: T -> bool, q: T -> bool)
    ensures FilterSeq(FilterSeq(s, p), q) == FilterSeq(s, x => p(x) && q(x))
    decreases |s|
  {
    if s != [] {
      var init := s[..|s| - 1];
      var x := s[|s| - 1];
      FilterFilter(init, p, q);
      var f := FilterSeq(init, p);
      if p(x) {
        assert (f + [x])[..|f + [x]| - 1] == f;
      } else {
        assert f + [] == f;
      }
    }
  }

  /** A comprehension whose condition always holds keeps everything. */
  lemma {:induction false} FilterAll<T>(s: seq<T>, p: T -> bool)
    requires forall x :: x in s ==> p(x)
    ensures FilterSeq(s, p) == s
    decreases |s|
  {
    if s != [] {
      FilterAll(s[..|s| - 1], p);
      assert s == s[..|s| - 1] + [s[|s| - 1]];
    }
  }

  /** A comprehension depends only on which elements pass. */
  lemma {:induction false} FilterSame<T>(s: seq<T>, p: T -> bool, q: T -> bool)
    requires forall x :: p(x) == q(x)
    ensures FilterSeq(s, p) == FilterSeq(s, q)
    decreases |s|
  {
    if s != [] {
      FilterSame(s[..|s| - 1], p, q);
    }
  }

  /** `[f(x) for x in s]`. */
  function MapSeq<T, U>(s: seq<T>, f: T -> U): (r: seq<U>)
    ensures |r| == |s| && forall i :: 0 <= i < |s| ==> r[i] == f(s[i])
  {
    seq(|s|, i requires 0 <= i < |s| => f(s[i]))
  }

  /** A loop that maps element by element has, after element `i`, the comprehension of the prefix. */
  lemma MapSeqStep<T, U>(s: seq<T>, f: T -> U, i: nat)
    requires i < |s|
    ensures MapSeq(s[..i + 1], f) == MapSeq(s[..i], f) + [f(s[i])]
  {
  }

  /** Mapping a concatenation maps each part. */
  lemma MapSeqAppend<T, U>(a: seq<T>, b: seq<T>, f: T -> U)
    ensures MapSeq(a + b, f) == MapSeq(a, f) + MapSeq(b, f)
  {
  }

  /** `s[:n]`. */
  function Take<T>(s: seq<T>, n: nat): (r: seq<T>)
    ensures |r| == if |s| <= n then |s| else n
    ensures forall i :: 0 <= i < |r| ==> r[i] == s[i]
  {
    if |s| <= n then s else s[..n]
  }

  /** The condition "the key of `x` is `c`". */
  function KeyIs<T>(key: T -> int, c: int): T -> bool {
    x => key(x) == c
  }

  /** Filtering a concatenation filters each part. */
  lemma {:induction false} FilterAppend<T>(a: seq<T>, b: seq<T>, p: T -> bool)
    ensures FilterSeq(a + b, p) == FilterSeq(a, p) + FilterSeq(b, p)
    decreases |b|
  {
    if b != [] {
      var init := b[..|b| - 1];
      FilterAppend(a, init, p);
      assert (a + b)[..|a + b| - 1] == a + init;
    } else {
      assert a + b == a;
    }
  }

  /** A comprehension whose condition never holds keeps nothing. */
  lemma {:induction false} FilterNone<T>(s: seq<T>, p: T -> bool)
    requires forall x :: x in s ==> !p(x)
    ensures FilterSeq(s, p) == []
    decreases |s|
  {
    if s != [] {
      FilterNone(s[..|s| - 1], p);
    }
  }

  /**
   * The sort is stable: for every key, the elements with that key come out in the order they
   * went in.
   */
  lemma SortDescKeepsTies<T>(s: seq<T>, key: T -> int)
    ensures forall c :: FilterSeq(SortDesc(s, key), KeyIs(key, c)) == FilterSeq(s, KeyIs(key, c))
  {
    forall c ensures FilterSeq(SortDesc(s, key), KeyIs(key, c)) == FilterSeq(s, KeyIs(key, c)) {
      SortDescKeyTies(s, key, c);
    }
  }

  lemma {:induction false} SortDescKeyTies<T>(s: seq<T>, key: T -> int, c: int)
    ensures FilterSeq(SortDesc(s, key), KeyIs(key, c)) == FilterSeq(s, KeyIs(key, c))
    decreases |s|
  {
    if s != [] {
      var p, x := s[..|s| - 1], s[|s| - 1];
      SortDescKeyTies(p, key, c);
      FilterSortLast(s, key, c);
      FilterSnocSame(SortDesc(s, key), SortDesc(p, key), s, p, x, KeyIs(key, c));
    }
  }

  /** Two sequences that filter alike still do after the same element is added to one of them. */
  lemma FilterSnocSame<T>(u: seq<T>, t: seq<T>, s: seq<T>, p: seq<T>, x: T, q: T -> bool)
    requires FilterSeq(u, q) == FilterSeq(t, q) + FilterSeq([x], q)
    requires FilterSeq(t, q) == FilterSeq(p, q) && s == p + [x]
    ensures FilterSeq(u, q) == FilterSeq(s, q)
  {
    FilterAppend(p, [x], q);
  }

  /** Sorting one more element adds it after the sorted elements of its key. */
  lemma FilterSortLast<T>(s: seq<T>, key: T -> int, c: int)
    requires s != []
    ensures FilterSeq(SortDesc(s, key), KeyIs(key, c)) ==
      FilterSeq(SortDesc(s[..|s| - 1], key), KeyIs(key, c)) + FilterSeq([s[|s| - 1]], KeyIs(key, c))
  {
    SortDescLast(s, key);
    SortDescNonIncreasing(s[..|s| - 1], key);
    FilterInsert(SortDesc(s[..|s| - 1], key), s[|s| - 1], key, c);
  }

  /** Inserting into a sorted sequence puts the new element after every element of its key. */
  lemma FilterInsert<T>(t: seq<T>, x: T, key: T -> int, c: int)
    requires NonIncreasing(t, key)
    ensures FilterSeq(InsertDesc(t, x, key), KeyIs(key, c)) == FilterSeq(t, KeyIs(key, c)) + FilterSeq([x], KeyIs(key, c))
  {
    InsertDescAt(t, x, key);
    FilterInsertAt(t, x, key, c);
  }

  lemma FilterInsertAt<T>(t: seq<T>, x: T, key: T -> int, c: int)
    requires NonIncreasing(t, key)
    ensures var k := InsertPos(t, x, key);
      FilterSeq(t[..k] + [x] + t[k..], KeyIs(key, c)) == FilterSeq(t, KeyIs(key, c)) + FilterSeq([x], KeyIs(key, c))
  {
    var k := InsertPos(t, x, key);
    if key(x) == c {
      FilterAfterInsertPos(t, x, key);
    } else {
      FilterNone([x], KeyIs(key, c));
    }
    FilterAround(t[..k], x, t[k..], KeyIs(key, c));
    assert t[..k] + t[k..] == t;
  }

  /**
   * Filtering `a + [x] + b` is filtering `a + b` and then `[x]`, when nothing of `b` or `x`
   * itself passes.
   */
  lemma FilterAround<T>(a: seq<T>, x: T, b: seq<T>, p: T -> bool)
    requires FilterSeq(b, p) == [] || FilterSeq([x], p) == []
    ensures FilterSeq(a + [x] + b, p) == FilterSeq(a + b, p) + FilterSeq([x], p)
  {
    FilterSplit3(a, x, b, p);
    FilterAppend(a, b, p);
    var fa, fx, fb := FilterSeq(a, p), FilterSeq([x], p), FilterSeq(b, p);
    if fb == [] {
      assert fa + fx + fb == fa + fx && fa + fb == fa;
    } else {
      assert fa + fx + fb == fa + fb && fx == [];
    }
  }

  lemma FilterSplit3<T>(a: seq<T>, x: T, b: seq<T>, p: T -> bool)
    ensures FilterSeq(a + [x] + b, p) == FilterSeq(a, p) + FilterSeq([x], p) + FilterSeq(b, p)
  {
    FilterAppend(a + [x], b, p);
    FilterAppend(a, [x], p);
  }

  /** Nothing after the insertion point has the inserted element's key. */
  lemma FilterAfterInsertPos<T>(t: seq<T>, x: T, key: T -> int)
    requires NonIncreasing(t, key)
    ensures FilterSeq(t[InsertPos(t, x, key)..], KeyIs(key, key(x))) == []
  {
    var k := InsertPos(t, x, key);
    forall y | y in t[k..] ensures !KeyIs(key, key(x))(y) {
      var m :| 0 <= m < |t[k..]| && t[k..][m] == y;
      assert t[k + m] == y && key(t[k]) >= key(t[k + m]);
    }
    FilterNone(t[k..], KeyIs(key, key(x)));
  }

  /** Inserting commutes with a map that keeps the keys. */
  lemma InsertDescMap<T, U>(t: seq<T>, x: T, keyT: T -> int, f: T -> U, keyU: U -> int)
    requires forall y :: keyT(y) == keyU(f(y))
    ensures MapSeq(InsertDesc(t, x, keyT), f) == InsertDesc(MapSeq(t, f), f(x), keyU)
  {
    InsertDescAt(t, x, keyT);
    InsertDescAt(MapSeq(t, f), f(x), keyU);
    InsertPosMap(t, x, keyT, f, keyU);
    MapAround(t, x, InsertPos(t, x, keyT), f);
  }

  /** The insertion point does not move under a map that keeps the keys. */
  lemma {:induction false} InsertPosMap<T, U>(t: seq<T>, x: T, keyT: T -> int, f: T -> U, keyU: U -> int)
    requires forall y :: keyT(y) == keyU(f(y))
    ensures InsertPos(MapSeq(t, f), f(x), keyU) == InsertPos(t, x, keyT)
    decreases |t|
  {
    if t != [] {
      InsertPosMap(t[1..], x, keyT, f, keyU);
      assert MapSeq(t, f)[1..] == MapSeq(t[1..], f);
    }
  }

  lemma MapAround<T, U>(t: seq<T>, x: T, k: nat, f: T -> U)
    requires k <= |t|
    ensures MapSeq(t[..k] + [x] + t[k..], f) == MapSeq(t, f)[..k] + [f(x)] + MapSeq(t, f)[k..]
  {
  }

  /** Sorting and then mapping is mapping and then sorting, when the map keeps the keys. */
  lemma {:induction false} SortDescMap<T, U>(s: seq<T>, keyT: T -> int, f: T -> U, keyU: U -> int)
    requires forall y :: keyT(y) == keyU(f(y))
    ensures MapSeq(SortDesc(s, keyT), f) == SortDesc(MapSeq(s, f), keyU)
    decreases |s|
  {
    if s != [] {
      var p := s[..|s| - 1];
      SortDescMap(p, keyT, f, keyU);
      SortDescLast(s, keyT);
      SortDescLast(MapSeq(s, f), keyU);
      assert MapSeq(s, f)[..|s| - 1] == MapSeq(p, f);
      InsertDescMap(SortDesc(p, keyT), s[|s| - 1], keyT, f, keyU);
    }
  }

  /** `len([x for x in s if p(x)])`. */
  function CountWhere<T>(s: seq<T>, p: T -> bool): (n: nat)
    ensures n <= |s|
  {
    |FilterSeq(s, p)|
  }

  // ---------------------------------------------------------------------------------------
  // filter_characters / filter_locations

  /** A filter argument is applied only when truthy: neither None nor `''`. */
  predicate Given(criterion: Option<string>) { criterion.Some? && criterion.value != "" }

  /** `field(x).lower() == criterion.lower()` when the criterion is truthy; anything passes otherwise. */
  predicate Accepts<T>(criterion: Option<string>, field: T -> string, x: T) {
    Given(criterion) ==> Lower(field(x)) == Lower(criterion.value)
  }

  /** `if criterion: s = [x for x in s if field(x).lower() == criterion.lower()]`. */
  function FilterBy<T>(s: seq<T>, criterion: Option<string>, field: T -> string): (r: seq<T>)
    ensures r == FilterSeq(s, x => Accepts(criterion, field, x))
  {
    if Given(criterion) then FilterSeq(s, x => Accepts(criterion, field, x))
    else
      FilterAll(s, x => Accepts(criterion, field, x));
      s
  }

  /** A comprehension over a comprehension is one comprehension over the conjunction. */
  lemma FilterThen<T>(s: seq<T>, p: T -> bool, q: T -> bool, both: T -> bool)
    requires forall x :: both(x) == (p(x) && q(x))
    ensures FilterSeq(FilterSeq(s, p), q) == FilterSeq(s, both)
  {
    FilterFilter(s, p, q);
    FilterSame(s, x => p(x) && q(x), both);
  }

  function StatusOf(c: Character): string { c.status }
  function SpeciesOf(c: Character): string { c.species }
  function GenderOf(c: Character): string { c.gender }

  /** The location name `filter_characters` compares: `c.location.get('name', '')`. */
  function CurrentLocationName(c: Character): string { Get(c.location, "name", "") }

  /** What `filter_characters` asks of one character: every truthy criterion matches, ignoring case. */
  predicate CharacterMatches(c: Character, status: Option<string>, species: Option<string>,
                             gender: Option<string>, locationName: Option<string>)
  {
    && Accepts(status, StatusOf, c) && Accepts(species, SpeciesOf, c)
    && Accepts(gender, GenderOf, c) && Accepts(locationName, CurrentLocationName, c)
  }

  /**
   * `filter_characters`: one comprehension per truthy criterion, in order.  The result is the
   * order-preserving subsequence of the characters matching every truthy criterion.
   */
  function FilterCharacters(characters: seq<Character>, status: Option<string>, species: Option<string>,
                            gender: Option<string>, locationName: Option<string>): (r: seq<Character>)
    ensures r == FilterSeq(characters, c => CharacterMatches(c, status, species, gender, locationName))
    ensures IsSubsequence(r, characters)
    ensures forall c :: c in r <==> c in characters && CharacterMatches(c, status, species, gender, locationName)
  {
    var f1 := FilterBy(characters, status, StatusOf);
    var f2 := FilterBy(f1, species, SpeciesOf);
    var f3 := FilterBy(f2, gender, GenderOf);
    var f4 := FilterBy(f3, locationName, CurrentLocationName);
    FilterCharactersSpec(characters, status, species, gender, locationName);
    f4
  }

  lemma FilterCharactersSpec(characters: seq<Character>, status: Option<string>, species: Option<string>,
                             gender: Option<string>, locationName: Option<string>)
    ensures var r := FilterBy(FilterBy(FilterBy(FilterBy(characters, status, StatusOf), species, SpeciesOf),
                                       gender, GenderOf), locationName, CurrentLocationName);
      && r == FilterSeq(characters, c => CharacterMatches(c, status, species, gender, locationName))
      && IsSubsequence(r, characters)
      && forall c :: c in r <==> c in characters && CharacterMatches(c, status, species, gender, locationName)
  {
    FilterCharactersChain(characters, status, species, gender, locationName);
    FilterSeqFacts(characters, c => CharacterMatches(c, status, species, gender, locationName));
  }

  /** The four comprehensions in a row are one comprehension over all four criteria. */
  lemma FilterCharactersChain(characters: seq<Character>, status: Option<string>, species: Option<string>,
                              gender: Option<string>, locationName: Option<string>)
    ensures FilterBy(FilterBy(FilterBy(FilterBy(characters, status, StatusOf), species, SpeciesOf),
                              gender, GenderOf), locationName, CurrentLocationName)
         == FilterSeq(characters, c => CharacterMatches(c, status, species, gender, locationName))
  {
    var p1 := (c: Character) => Accepts(status, StatusOf, c);
    var p2 := (c: Character) => Accepts(status, StatusOf, c) && Accepts(species, SpeciesOf, c);
    var p3 := (c: Character) => p2(c) && Accepts(gender, GenderOf, c);
    var all := (c: Character) => CharacterMatches(c, status, species, gender, locationName);
    FilterThen(characters, p1, c => Accepts(species, SpeciesOf, c), p2);
    FilterThen(characters, p2, c => Accepts(gender, GenderOf, c), p3);
    FilterThen(characters, p3, c => Accepts(locationName, CurrentLocationName, c), all);
  }

  function TypeOf(l: Location): string { l.type_ }
  function DimensionOf(l: Location): string { l.dimension }

  /** What `filter_locations` asks of one location; `min_residents` applies whenever it is given, 0 included. */
  predicate LocationMatches(l: Location, typeFilter: Option<string>, dimension: Option<string>, minResidents: Option<int>) {
    && Accepts(typeFilter, TypeOf, l) && Accepts(dimension, DimensionOf, l)
    && HasMinResidents(l, minResidents)
  }

  predicate HasMinResidents(l: Location, minResidents: Option<int>) {
    minResidents.Some? ==> |l.residents| >= minResidents.value
  }

  /** `if min_residents is not None: s = [l for l in s if len(l.residents) >= min_residents]`. */
  function FilterByResidents(s: seq<Location>, minResidents: Option<int>): (r: seq<Location>)
    ensures r == FilterSeq(s, l => HasMinResidents(l, minResidents))
  {
    if minResidents.Some? then FilterSeq(s, l => HasMinResidents(l, minResidents))
    else
      FilterAll(s, l => HasMinResidents(l, minResidents));
      s
  }

  /**
   * `filter_locations`: the order-preserving subsequence of the locations whose type and
   * dimension match the truthy criteria, ignoring case, and that have at least
   * `min_residents` residents when that is given.
   */
  function FilterLocations(locations: seq<Location>, typeFilter: Option<string>, dimension: Option<string>,
                           minResidents: Option<int>): (r: seq<Location>)
    ensures r == FilterSeq(locations, l => LocationMatches(l, typeFilter, dimension, minResidents))
    ensures IsSubsequence(r, locations)
    ensures forall l :: l in r <==> l in locations && LocationMatches(l, typeFilter, dimension, minResidents)
  {
    var f1 := FilterBy(locations, typeFilter, TypeOf);
    var f2 := FilterBy(f1, dimension, DimensionOf);
    var f3 := FilterByResidents(f2, minResidents);
    FilterLocationsSpec(locations, typeFilter, dimension, minResidents);
    f3
  }

  lemma FilterLocationsSpec(locations: seq<Location>, typeFilter: Option<string>, dimension: Option<string>,
                            minResidents: Option<int>)
    ensures var r := FilterByResidents(FilterBy(FilterBy(locations, typeFilter, TypeOf), dimension, DimensionOf), minResidents);
      && r == FilterSeq(locations, l => LocationMatches(l, typeFilter, dimension, minResidents))
      && IsSubsequence(r, locations)
      && forall l :: l in r <==> l in locations && LocationMatches(l, typeFilter, dimension, minResidents)
  {
    var p1 := (l: Location) => Accepts(typeFilter, TypeOf, l);
    var p2 := (l: Location) => Accepts(typeFilter, TypeOf, l) && Accepts(dimension, DimensionOf, l);
    var all := (l: Location) => LocationMatches(l, typeFilter, dimension, minResidents);
    FilterThen(locations, p1, l => Accepts(dimension, DimensionOf, l), p2);
    FilterThen(locations, p2, l => HasMinResidents(l, minResidents), all);
    FilterSeqFacts(locations, all);
  }

  /** `min_residents=0` is applied but keeps every location; no criteria keep everything. */
  lemma FilterLocationsKeepsAll(locations: seq<Location>)
    ensures FilterLocations(locations, None, None, Some(0)) == locations
    ensures FilterLocations(locations, Some(""), None, None) == locations
  {
    FilterAll(locations, l => LocationMatches(l, None, None, Some(0)));
    FilterAll(locations, l => LocationMatches(l, Some(""), None, None));
  }

  // ---------------------------------------------------------------------------------------
  // Distributions and the most populated locations

  /** An entry of `most_populated_locations`. */
  datatype PopulatedLocation = PopulatedLocation(name: string, type_: string, dimension: string, residentCount: nat)

  function Populated(l: Location): PopulatedLocation {
    PopulatedLocation(l.name, l.type_, l.dimension, |l.residents|)
  }

  function Residents(e: PopulatedLocation): int { e.residentCount }

  /**
   * `_get_most_populated_locations`: one entry per location, by descending resident count, and
   * the entries with the same count in location order (`list.sort` is stable).
   */
  function MostPopulated(locations: seq<Location>): (r: seq<PopulatedLocation>)
    ensures |r| == |locations|
    ensures multiset(r) == multiset(MapSeq(locations, Populated))
    ensures NonIncreasing(r, Residents)
    ensures forall c :: FilterSeq(r, KeyIs(Residents, c)) == FilterSeq(MapSeq(locations, Populated), KeyIs(Residents, c))
  {
    var r := SortDesc(MapSeq(locations, Populated), Residents);
    SortDescNonIncreasing(MapSeq(locations, Populated), Residents);
    SortDescKeepsTies(MapSeq(locations, Populated), Residents);
    r
  }

  // ---------------------------------------------------------------------------------------
  // _analyze_character_location_mapping

  /** An entry of `location_id_issues`. */
  datatype LocationIssue = LocationIssue(characterId: int, characterName: string, locationId: int, locationUrl: string)

  /** The mapping report; `successRate` is exact where the source computes a float. */
  datatype LocationMapping = LocationMapping(
    totalCharacters: nat, charactersWithLocation: nat, charactersWithValidLocation: nat,
    successRate: real, locationIdIssues: seq<LocationIssue>)

  /** `char.location and char.location.get('name')`. */
  predicate HasLocationName(c: Character) { |c.location| > 0 && Get(c.location, "name", "") != "" }

  /** A named location whose truthy id is among the location ids. */
  predicate ValidMapping(c: Character, ids: set<int>) {
    HasLocationName(c) && TruthyId(GetLocationId(c)) && GetLocationId(c).value in ids
  }

  function ValidFor(ids: set<int>): Character -> bool {
    c => ValidMapping(c, ids)
  }

  /** A named location whose truthy id is not among the location ids. */
  predicate MappingIssue(c: Character, ids: set<int>) {
    HasLocationName(c) && TruthyId(GetLocationId(c)) && GetLocationId(c).value !in ids
  }

  function IssueOf(c: Character): LocationIssue
    requires TruthyId(GetLocationId(c))
  {
    LocationIssue(c.id, c.name, GetLocationId(c).value, Get(c.location, "url", ""))
  }

  function LocationIds(locations: seq<Location>): (ids: set<int>)
    ensures forall l :: l in locations ==> l.id in ids
  {
    set l | l in locations :: l.id
  }

  /**
   * `location_map[location_id]` when `location_id and location_id in location_map`, with
   * `location_map = {loc.id: loc for loc in locations}`: the last location carrying the
   * character's truthy location id.
   */
  function LocationOf(c: Character, locations: seq<Location>): (r: Option<Location>)
    ensures r.Some? <==> TruthyId(GetLocationId(c)) && GetLocationId(c).value in LocationIds(locations)
    ensures r.Some? ==> r.value in locations && r.value.id == GetLocationId(c).value
  {
    var id := GetLocationId(c);
    if TruthyId(id) then
      var found := LastWithKey(locations, IdOf, id.value);
      if id.value in LocationIds(locations) then
        var l :| l in locations && l.id == id.value;
        assert IdOf(l) == id.value;
        found
      else found
    else None
  }

  /** The location found is the last one with the character's location id. */
  lemma LocationOfLast(c: Character, locations: seq<Location>, i: nat)
    requires TruthyId(GetLocationId(c))
    requires i < |locations| && locations[i].id == GetLocationId(c).value
    requires forall j :: i < j < |locations| ==> locations[j].id != locations[i].id
    ensures LocationOf(c, locations) == Some(locations[i])
  {
    LastWithKeyAt(locations, IdOf, GetLocationId(c).value, i);
  }

  /** Every issue of the characters, in character order. */
  function AllIssues(characters: seq<Character>, ids: set<int>): (r: seq<LocationIssue>)
    decreases |characters|
  {
    if characters == [] then []
    else
      var c := characters[|characters| - 1];
      AllIssues(characters[..|characters| - 1], ids) + (if MappingIssue(c, ids) then [IssueOf(c)] else [])
  }

  /** `valid / len(characters) * 100`, or 0 when there are no characters. */
  function SuccessRate(valid: nat, total: nat): real {
    if total == 0 then 0.0 else (valid as real) / (total as real) * 100.0
  }

  /** The report `_analyze_character_location_mapping` returns. */
  function MappingSpec(characters: seq<Character>, locations: seq<Location>): LocationMapping {
    var ids := LocationIds(locations);
    var valid := CountWhere(characters, ValidFor(ids));
    var issues := AllIssues(characters, ids);
    LocationMapping(|characters|, CountWhere(characters, HasLocationName), valid,
                    SuccessRate(valid, |characters|), issues[..if |issues| < 5 then |issues| else 5])
  }

  /** `_analyze_character_location_mapping`: one pass over the characters, counting and collecting issues. */
  method AnalyzeLocationMapping(characters: seq<Character>, locations: seq<Location>) returns (m: LocationMapping)
    ensures m == MappingSpec(characters, locations)
  {
    var ids := LocationIds(locations);
    var withLocation: nat := 0;
    var valid: nat := 0;
    var issues: seq<LocationIssue> := [];
    for i := 0 to |characters|
      invariant withLocation == CountWhere(characters[..i], HasLocationName)
      invariant valid == CountWhere(characters[..i], ValidFor(ids))
      invariant issues == AllIssues(characters[..i], ids)
    {
      var c := characters[i];
      MappingStep(characters, ids, i);
      if HasLocationName(c) {
        withLocation := withLocation + 1;
        var locationId := GetLocationId(c);
        if TruthyId(locationId) && locationId.value in ids {
          valid := valid + 1;
        } else if TruthyId(locationId) {
          issues := issues + [IssueOf(c)];
        }
      }
    }
    assert characters[..|characters|] == characters;
    m := LocationMapping(|characters|, withLocation, valid, SuccessRate(valid, |characters|),
                         issues[..if |issues| < 5 then |issues| else 5]);
  }

  /** The mapping loop over a prefix one character longer. */
  lemma MappingStep(characters: seq<Character>, ids: set<int>, i: nat)
    requires i < |characters|
    ensures var c := characters[i];
      && CountWhere(characters[..i + 1], HasLocationName)
         == CountWhere(characters[..i], HasLocationName) + (if HasLocationName(c) then 1 else 0)
      && CountWhere(characters[..i + 1], ValidFor(ids))
         == CountWhere(characters[..i], ValidFor(ids)) + (if ValidMapping(c, ids) then 1 else 0)
      && AllIssues(characters[..i + 1], ids)
         == AllIssues(characters[..i], ids) + (if MappingIssue(c, ids) then [IssueOf(c)] else [])
  {
    FilterSeqStep(characters, HasLocationName, i);
    FilterSeqStep(characters, ValidFor(ids), i);
    assert characters[..i + 1][..i] == characters[..i];
  }

  /** Valid mappings and issues are disjoint kinds of characters with a named location. */
  lemma {:induction false} MappingCounts(characters: seq<Character>, ids: set<int>)
    ensures CountWhere(characters, ValidFor(ids)) + |AllIssues(characters, ids)|
         <= CountWhere(characters, HasLocationName)
    decreases |characters|
  {
    if characters != [] {
      MappingCounts(characters[..|characters| - 1], ids);
    }
  }

  /**
   * The mapping report: every valid mapping is a character with a location name, at most 5
   * issues are kept, and the success rate is a percentage, 0 with no characters.
   */
  lemma MappingBounds(characters: seq<Character>, locations: seq<Location>)
    ensures var m := MappingSpec(characters, locations);
      && m.totalCharacters == |characters|
      && m.charactersWithValidLocation <= m.charactersWithLocation <= m.totalCharacters
      && |m.locationIdIssues| <= 5
      && 0.0 <= m.successRate <= 100.0
      && (characters == [] ==> m.successRate == 0.0)
  {
    var ids := LocationIds(locations);
    MappingCounts(characters, ids);
    var m := MappingSpec(characters, locations);
    if |characters| > 0 {
      RateBounded(m.charactersWithValidLocation, |characters|);
    }
  }

  lemma RateBounded(valid: nat, total: nat)
    requires 0 < total && valid <= total
    ensures 0.0 <= SuccessRate(valid, total) <= 100.0
  {
    DivAtMostOne(valid as real, total as real);
  }

  /** A character whose location is among the locations is a valid mapping, not an issue. */
  lemma KnownLocationIsValid(characters: seq<Character>, locations: seq<Location>, c: Character, l: Location)
    requires c in characters && l in locations && HasLocationName(c)
    requires "url" in c.location && c.location["url"] == Config.RestBaseUrl + "/location/" + IntToString(l.id)
    requires l.id != 0
    ensures ValidMapping(c, LocationIds(locations)) && !MappingIssue(c, LocationIds(locations))
  {
    GetLocationIdOfApiUrl(c, l.id);
  }

  // ---------------------------------------------------------------------------------------
  // _assess_data_quality

  datatype CharacterQuality = CharacterQuality(missingOrigin: nat, missingLocation: nat, missingSpecies: nat, unknownStatus: nat)

  datatype LocationQuality = LocationQuality(missingType: nat, missingDimension: nat, noResidents: nat, emptyNames: nat)

  datatype DataQuality = DataQuality(characters: CharacterQuality, locations: LocationQuality, completeness: real)

  function CharacterIssueTotal(q: CharacterQuality): nat {
    q.missingOrigin + q.missingLocation + q.missingSpecies + q.unknownStatus
  }

  function LocationIssueTotal(q: LocationQuality): nat {
    q.missingType + q.missingDimension + q.noResidents + q.emptyNames
  }

  /** The per-record issue counts; each is at most the number of records it counts over. */
  function AssessCharacters(characters: seq<Character>): (q: CharacterQuality)
    ensures q.missingOrigin <= |characters| && q.missingLocation <= |characters|
    ensures q.missingSpecies <= |characters| && q.unknownStatus <= |characters|
    ensures characters == [] ==> q == CharacterQuality(0, 0, 0, 0)
  {
    CharacterQuality(CountWhere(characters, (c: Character) => c.origin.name == ""),
                     CountWhere(characters, (c: Character) => Get(c.location, "name", "") == ""),
                     CountWhere(characters, (c: Character) => c.species == ""),
                     CountWhere(characters, (c: Character) => c.status == "unknown"))
  }

  function AssessLocations(locations: seq<Location>): (q: LocationQuality)
    ensures q.missingType <= |locations| && q.missingDimension <= |locations|
    ensures q.noResidents <= |locations| && q.emptyNames <= |locations|
    ensures locations == [] ==> q == LocationQuality(0, 0, 0, 0)
  {
    LocationQuality(CountWhere(locations, (l: Location) => l.type_ == ""),
                    CountWhere(locations, (l: Location) => l.dimension == ""),
                    CountWhere(locations, (l: Location) => |l.residents| == 0),
                    CountWhere(locations, (l: Location) => l.name == ""))
  }

  /**
   * `_calculate_completeness_score` before rounding: the share of the four checked fields per
   * record that are present, weighted by record count, as a percentage; 0 with no records.
   */
  function Completeness(charIssues: nat, locIssues: nat, totalChars: nat, totalLocs: nat): real {
    if totalChars == 0 && totalLocs == 0 then 0.0
    else WeightedMean(Share(charIssues, totalChars), totalChars as real, Share(locIssues, totalLocs), totalLocs as real) * 100.0
  }

  /** `(total * 4 - issues) / (total * 4)`, or 1 with no records. */
  function Share(issues: nat, total: nat): real {
    if total > 0 then Ratio((total * 4 - issues) as real, (total * 4) as real) else 1.0
  }

  /** `(a * n + b * m) / (n + m)`. */
  function WeightedMean(a: real, n: real, b: real, m: real): real
    requires n + m > 0.0
  {
    Ratio(a * n + b * m, n + m)
  }

  /** Real division by a positive amount. */
  function Ratio(w: real, d: real): real
    requires d > 0.0
  {
    w / d
  }

  /** `_assess_data_quality`. */
  function AssessDataQuality(characters: seq<Character>, locations: seq<Location>): DataQuality {
    var cq := AssessCharacters(characters);
    var lq := AssessLocations(locations);
    DataQuality(cq, lq, Completeness(CharacterIssueTotal(cq), LocationIssueTotal(lq), |characters|, |locations|))
  }

  lemma MulNonNeg(x: real, y: real)
    requires x >= 0.0 && y >= 0.0
    ensures x * y >= 0.0
  {
  }

  lemma SelfDiv(d: real)
    requires d > 0.0
    ensures Ratio(d, d) == 1.0
  {
  }

  /** A part over a positive whole lies between 0 and 1. */
  lemma DivAtMostOne(w: real, d: real)
    requires 0.0 <= w <= d && d > 0.0
    ensures 0.0 <= Ratio(w, d) <= 1.0
  {
    var q := Ratio(w, d);
    assert q * d == w;
    if q > 1.0 {
      MulNonNeg(q - 1.0, d);
      assert false;
    }
    if q < 0.0 {
      MulNonNeg(-q, d);
    }
  }

  /** A share of present fields lies between 0 and 1, and is 1 with no issues. */
  lemma ShareBounded(issues: nat, total: nat)
    requires issues <= 4 * total
    ensures 0.0 <= Share(issues, total) <= 1.0
    ensures issues == 0 ==> Share(issues, total) == 1.0
  {
    if total > 0 {
      DivAtMostOne((total * 4 - issues) as real, (total * 4) as real);
      if issues == 0 {
        SelfDiv((total * 4) as real);
      }
    }
  }

  /** A weighted mean of two shares is a share, and of two full shares is full. */
  lemma MeanBounded(a: real, n: real, b: real, m: real)
    requires 0.0 <= a <= 1.0 && 0.0 <= b <= 1.0 && n >= 0.0 && m >= 0.0 && n + m > 0.0
    ensures 0.0 <= WeightedMean(a, n, b, m) <= 1.0
    ensures a == 1.0 && b == 1.0 ==> WeightedMean(a, n, b, m) == 1.0
  {
    NumeratorBounded(a, n, b, m);
    DivAtMostOne(a * n + b * m, n + m);
    if a == 1.0 && b == 1.0 {
      FullMean(n, m);
    }
  }

  /** The numerator of a weighted mean of two shares is at most the total weight. */
  lemma NumeratorBounded(a: real, n: real, b: real, m: real)
    requires 0.0 <= a <= 1.0 && 0.0 <= b <= 1.0 && n >= 0.0 && m >= 0.0
    ensures 0.0 <= a * n + b * m <= n + m
  {
    ScaledAtMost(a, n);
    ScaledAtMost(b, m);
    AddBounds(a * n, n, b * m, m);
  }

  lemma AddBounds(x: real, X: real, y: real, Y: real)
    requires 0.0 <= x <= X && 0.0 <= y <= Y
    ensures 0.0 <= x + y <= X + Y
  {
  }

  lemma FullMean(n: real, m: real)
    requires n + m > 0.0
    ensures WeightedMean(1.0, n, 1.0, m) == 1.0
  {
    assert 1.0 * n + 1.0 * m == n + m;
    SelfDiv(n + m);
  }

  /** A share of a non-negative amount lies between 0 and that amount. */
  lemma ScaledAtMost(a: real, n: real)
    requires 0.0 <= a <= 1.0 && n >= 0.0
    ensures 0.0 <= a * n <= n
  {
    MulNonNeg(a, n);
    MulNonNeg(1.0 - a, n);
    assert (1.0 - a) * n == n - a * n;
  }

  /**
   * The completeness score is a percentage: 0 with no records at all, 100 when there are
   * records and none has any of the checked issues.
   */
  lemma CompletenessRange(charIssues: nat, locIssues: nat, totalChars: nat, totalLocs: nat)
    requires charIssues <= 4 * totalChars && locIssues <= 4 * totalLocs
    ensures 0.0 <= Completeness(charIssues, locIssues, totalChars, totalLocs) <= 100.0
    ensures totalChars + totalLocs == 0 ==> Completeness(charIssues, locIssues, totalChars, totalLocs) == 0.0
    ensures totalChars + totalLocs > 0 && charIssues == 0 && locIssues == 0 ==>
              Completeness(charIssues, locIssues, totalChars, totalLocs) == 100.0
  {
    if totalChars + totalLocs > 0 {
      ShareBounded(charIssues, totalChars);
      ShareBounded(locIssues, totalLocs);
      MeanBounded(Share(charIssues, totalChars), totalChars as real, Share(locIssues, totalLocs), totalLocs as real);
    }
  }

  /** The report's score is a percentage, 0 with no records, 100 with records and no issues. */
  lemma CompletenessBounds(characters: seq<Character>, locations: seq<Location>)
    ensures var d := AssessDataQuality(characters, locations);
      && 0.0 <= d.completeness <= 100.0
      && (characters == [] && locations == [] ==> d.completeness == 0.0)
      && ((|characters| + |locations| > 0 && CharacterIssueTotal(d.characters) == 0
           && LocationIssueTotal(d.locations) == 0) ==> d.completeness == 100.0)
  {
    var cq := AssessCharacters(characters);
    var lq := AssessLocations(locations);
    CompletenessRange(CharacterIssueTotal(cq), LocationIssueTotal(lq), |characters|, |locations|);
  }

  // ---------------------------------------------------------------------------------------
  // get_statistics

  datatype Statistics = Statistics(
    totalCharacters: nat, totalLocations: nat,
    characterStatus: seq<(string, nat)>, characterSpecies: seq<(string, nat)>, characterGender: seq<(string, nat)>,
    locationTypes: seq<(string, nat)>, locationDimensions: seq<(string, nat)>,
    mostPopulatedLocations: seq<PopulatedLocation>, mapping: LocationMapping, quality: DataQuality)

  /**
   * `get_statistics`: the totals are the input lengths, each distribution is the
   * `most_common()` ranking of its field's values, the most populated locations are the stable
   * descending sort of all locations by residents, and the mapping and data-quality parts are
   * those of the same records.
   */
  function GetStatistics(characters: seq<Character>, locations: seq<Location>): (r: Statistics)
    ensures r.totalCharacters == |characters| && r.totalLocations == |locations|
    ensures RankedCounts(r.characterStatus, MapSeq(characters, StatusOf))
    ensures RankedCounts(r.characterSpecies, MapSeq(characters, SpeciesOf))
    ensures RankedCounts(r.characterGender, MapSeq(characters, GenderOf))
    ensures RankedCounts(r.locationTypes, MapSeq(locations, TypeOf))
    ensures RankedCounts(r.locationDimensions, MapSeq(locations, DimensionOf))
    ensures r.mostPopulatedLocations == MostPopulated(locations)
    ensures r.mapping == MappingSpec(characters, locations)
    ensures r.quality == AssessDataQuality(characters, locations)
  {
    var status := MapSeq(characters, StatusOf);
    var species := MapSeq(characters, SpeciesOf);
    var gender := MapSeq(characters, GenderOf);
    var types := MapSeq(locations, TypeOf);
    var dimensions := MapSeq(locations, DimensionOf);
    MostCommonRanked(status);
    MostCommonRanked(species);
    MostCommonRanked(gender);
    MostCommonRanked(types);
    MostCommonRanked(dimensions);
    Statistics(|characters|, |locations|, MostCommon(status), MostCommon(species), MostCommon(gender),
               MostCommon(types), MostCommon(dimensions), MostPopulated(locations),
               MappingSpec(characters, locations), AssessDataQuality(characters, locations))
  }
}
