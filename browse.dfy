/** The browse page: the filter over the fetched pets (type, inclusive age
    range, case-insensitive search), the list of types offered in the type
    selector, and the handlers that change the filter. */
module Browse {
  import opened Seqs
  import opened Text
  import opened Store

  /** The age range the page starts with and resets to. */
  const DefaultMinAge: int := 0
  const DefaultMaxAge: int := 20

  /** The search test: the lower-cased query occurs in the lower-cased name,
      in the lower-cased breed when there is one, or in some lower-cased
      trait. */
  predicate MatchesQuery(p: Pet, query: string) {
    var q := ToLower(query);
    Contains(ToLower(p.name), q) ||
    (Truthy(p.breed) && Contains(ToLower(p.breed.value), q)) ||
    exists i | 0 <= i < |p.personality| :: Contains(ToLower(p.personality[i]), q)
  }

  /** The search ignores the case of the query: a query and its
      lower-cased form find the same pets. */
  lemma SearchIgnoresQueryCase(p: Pet, query: string)
    ensures MatchesQuery(p, ToLower(query)) == MatchesQuery(p, query)
  {
    var q := ToLower(query);
    forall i | 0 <= i < |q| ensures ToLower(q)[i] == q[i] {
      assert q[i] == ToLowerChar(query[i]);
    }
    assert ToLower(q) == q;
  }

  /** A pet passes the filter: the type matches unless none is selected, the
      age lies in the inclusive range, and the search matches unless the
      query is empty. */
  predicate Passes(p: Pet, petType: string, lo: int, hi: int, query: string) {
    (petType == "" || p.petType == petType) && lo <= p.age <= hi && (query == "" || MatchesQuery(p, query))
  }

  /** `applyFilters`, as the page runs it: a type filter when a type is
      selected, then the age filter, then a search filter when the query is
      not empty. The result keeps the input order and holds exactly the
      pets that pass. */
  function ApplyFilters(ps: seq<Pet>, petType: string, lo: int, hi: int, query: string): (r: seq<Pet>)
    ensures IsSubseq(r, ps)
    ensures forall p :: p in r <==> p in ps && Passes(p, petType, lo, hi, query)
  {
    ApplyFiltersIsOneFilter(ps, petType, lo, hi, query);
    Chain(ps, petType, lo, hi, query)
  }

  /** The three filters, one after the other. */
  function Chain(ps: seq<Pet>, petType: string, lo: int, hi: int, query: string): seq<Pet> {
    var byType := if petType != "" then Filter(ps, (p: Pet) => p.petType == petType) else ps;
    var byAge := Filter(byType, (p: Pet) => lo <= p.age <= hi);
    if query != "" then Filter(byAge, (p: Pet) => MatchesQuery(p, query)) else byAge
  }

  /** The chain of filters is a single filter by `Passes`. */
  lemma ApplyFiltersIsOneFilter(ps: seq<Pet>, petType: string, lo: int, hi: int, query: string)
    ensures Chain(ps, petType, lo, hi, query) == Filter(ps, (p: Pet) => Passes(p, petType, lo, hi, query))
  {
    var byTypeTest := (p: Pet) => p.petType == petType;
    var ageTest := (p: Pet) => lo <= p.age <= hi;
    var queryTest := (p: Pet) => MatchesQuery(p, query);
    var typeAndAge := (p: Pet) => (petType == "" || p.petType == petType) && lo <= p.age <= hi;
    var all := (p: Pet) => Passes(p, petType, lo, hi, query);
    var byType := if petType != "" then Filter(ps, byTypeTest) else ps;
    var byAge := Filter(byType, ageTest);
    if petType != "" {
      FilterFuse(ps, byTypeTest, ageTest, typeAndAge);
    } else {
      FilterCongruent(ps, ageTest, typeAndAge);
    }
    assert byAge == Filter(ps, typeAndAge);
    if query != "" {
      FilterFuse(ps, typeAndAge, queryTest, all);
    } else {
      FilterCongruent(ps, typeAndAge, all);
    }
  }

  /** A range whose lower bound exceeds its upper bound shows nothing. */
  lemma InvertedRangeShowsNothing(ps: seq<Pet>, petType: string, lo: int, hi: int, query: string)
    requires lo > hi
    ensures ApplyFilters(ps, petType, lo, hi, query) == []
  {
    ApplyFiltersIsOneFilter(ps, petType, lo, hi, query);
    FilterDropsAll(ps, (p: Pet) => Passes(p, petType, lo, hi, query));
  }

  /** The filter with the default settings drops every pet older than the
      default upper bound, whereas a reset shows the whole list: the two
      differ as soon as such a pet is listed. */
  lemma DefaultFilterDropsOlderPets(ps: seq<Pet>, p: Pet)
    requires p in ps && p.age > DefaultMaxAge
    ensures p !in ApplyFilters(ps, "", DefaultMinAge, DefaultMaxAge, "")
    ensures ApplyFilters(ps, "", DefaultMinAge, DefaultMaxAge, "") != ps
  {
  }

  /** The pets' types, in list order. */
  function TypesOf(ps: seq<Pet>): (ts: seq<string>)
    ensures |ts| == |ps| && forall i :: 0 <= i < |ps| ==> ts[i] == ps[i].petType
  {
    seq(|ps|, i requires 0 <= i < |ps| => ps[i].petType)
  }

  /** `[...new Set(pets.map(pet => pet.type))]`: every type of a listed pet,
      each once, in the order in which the types first appear in the list. */
  function UniqueTypes(ps: seq<Pet>): (ts: seq<string>)
    ensures NoDup(ts)
    ensures forall t :: t in ts <==> exists p :: p in ps && p.petType == t
    ensures forall t :: t in ts ==> t in TypesOf(ps)
    ensures forall i, j :: 0 <= i < j < |ts| ==> FirstIndex(TypesOf(ps), ts[i]) < FirstIndex(TypesOf(ps), ts[j])
  {
    var all := TypesOf(ps);
    assert forall t :: t in all <==> exists p :: p in ps && p.petType == t by {
      forall t ensures t in all <==> exists p :: p in ps && p.petType == t {
        if t in all {
          var i :| 0 <= i < |all| && all[i] == t;
          assert ps[i] in ps;
        }
        if exists p :: p in ps && p.petType == t {
          var p :| p in ps && p.petType == t;
          var i :| 0 <= i < |ps| && ps[i] == p;
          assert all[i] == t;
        }
      }
    }
    Distinct(all)
  }

  /** The page's state: the fetched pets, what is shown, the types offered,
      and the three filter settings. */
  class BrowsePage {
    var pets: seq<Pet>
    var shown: seq<Pet>
    var petTypes: seq<string>
    var selectedType: string
    var ageMin: int
    var ageMax: int
    var searchQuery: string

    /** The page before the fetch: nothing listed, the type taken from the
        address when present, the default age range, no query. */
    constructor(typeParam: Option<string>)
      ensures pets == [] && shown == [] && petTypes == []
      ensures selectedType == (if Truthy(typeParam) then typeParam.value else "")
      ensures ageMin == DefaultMinAge && ageMax == DefaultMaxAge && searchQuery == ""
    {
      pets, shown, petTypes := [], [], [];
      selectedType := if Truthy(typeParam) then typeParam.value else "";
      ageMin, ageMax, searchQuery := DefaultMinAge, DefaultMaxAge, "";
    }

    /** The fetch completing with `data`: everything is listed and every type
        offered; a type in the address is then selected and applied with the
        default age range and no query. */
    method Loaded(data: seq<Pet>, typeParam: Option<string>)
      modifies this
      ensures pets == data && petTypes == UniqueTypes(data)
      ensures ageMin == old(ageMin) && ageMax == old(ageMax) && searchQuery == old(searchQuery)
      ensures Truthy(typeParam) ==>
                selectedType == typeParam.value &&
                shown == ApplyFilters(data, typeParam.value, DefaultMinAge, DefaultMaxAge, "")
      ensures !Truthy(typeParam) ==> selectedType == old(selectedType) && shown == data
    {
      pets := data;
      shown := data;
      petTypes := UniqueTypes(data);
      if Truthy(typeParam) {
        selectedType := typeParam.value;
        shown := ApplyFilters(data, typeParam.value, DefaultMinAge, DefaultMaxAge, "");
      }
    }

    /** `handleTypeChange`: the new type selected and the filter re-run with
        the other settings as they are. */
    method HandleTypeChange(petType: string)
      modifies this`selectedType, this`shown
      ensures selectedType == petType
      ensures shown == ApplyFilters(pets, petType, ageMin, ageMax, searchQuery)
    {
      selectedType := petType;
      shown := ApplyFilters(pets, petType, ageMin, ageMax, searchQuery);
    }

    /** `handleAgeChange`: the bound at `index` (0 the minimum, 1 the
        maximum) replaced, the other bound kept, and the filter re-run; an
        index naming neither bound changes neither. */
    method HandleAgeChange(index: int, value: int)
      modifies this`ageMin, this`ageMax, this`shown
      ensures ageMin == if index == 0 then value else old(ageMin)
      ensures ageMax == if index == 1 then value else old(ageMax)
      ensures shown == ApplyFilters(pets, selectedType, ageMin, ageMax, searchQuery)
    {
      if index == 0 {
        ageMin := value;
      } else if index == 1 {
        ageMax := value;
      }
      shown := ApplyFilters(pets, selectedType, ageMin, ageMax, searchQuery);
    }

    /** `handleSearchChange`: the new query stored and the filter re-run. */
    method HandleSearchChange(query: string)
      modifies this`searchQuery, this`shown
      ensures searchQuery == query
      ensures shown == ApplyFilters(pets, selectedType, ageMin, ageMax, query)
    {
      searchQuery := query;
      shown := ApplyFilters(pets, selectedType, ageMin, ageMax, query);
    }

    /** `handleReset`: the settings back to their defaults and the whole
        list shown, without filtering. */
    method HandleReset()
      modifies this`selectedType, this`ageMin, this`ageMax, this`searchQuery, this`shown
      ensures selectedType == "" && ageMin == DefaultMinAge && ageMax == DefaultMaxAge && searchQuery == ""
      ensures shown == pets
    {
      selectedType, ageMin, ageMax, searchQuery := "", DefaultMinAge, DefaultMaxAge, "";
      shown := pets;
    }
  }
}
