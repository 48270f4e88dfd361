/** The in-memory store (app/lib/store.ts): three append-only lists of pets,
    users and matches, lookups by id, the per-user match query, and the
    sample-data seeder. */
module Store {
  import opened Seqs

  type Id = string

  datatype Pet = Pet(id: Id, name: string, petType: string, breed: Option<string>, age: int,
                     description: string, imageUrl: Option<string>, personality: seq<string>)

  /** A pet before the store has given it an id (`Omit<Pet, 'id'>`). */
  datatype NewPet = NewPet(name: string, petType: string, breed: Option<string>, age: int,
                           description: string, imageUrl: Option<string>, personality: seq<string>)
  {
    function WithId(id: Id): (p: Pet)
      ensures p.id == id && p.name == name && p.petType == petType && p.breed == breed
      ensures p.age == age && p.description == description && p.imageUrl == imageUrl
      ensures p.personality == personality
    {
      Pet(id, name, petType, breed, age, description, imageUrl, personality)
    }
  }

  datatype User = User(id: Id, email: string, name: string, preferences: seq<string>,
                       lifestyle: string, experience: string)

  /** A user before the store has given it an id (`Omit<User, 'id'>`). */
  datatype NewUser = NewUser(email: string, name: string, preferences: seq<string>,
                             lifestyle: string, experience: string)
  {
    function WithId(id: Id): (u: User)
      ensures u.id == id && u.email == email && u.name == name
      ensures u.preferences == preferences && u.lifestyle == lifestyle && u.experience == experience
    {
      User(id, email, name, preferences, lifestyle, experience)
    }
  }

  /** A match record; `score` is in hundredths (0.75 is 75). */
  datatype Match = Match(id: Id, petId: Id, userId: Id, score: int, status: string)

  /** A match joined with its pet, which is absent when no pet has that id. */
  datatype MatchView = MatchView(record: Match, pet: Option<Pet>)

  /** The catalog entries given ids drawn from `ids` starting at `start`, in
      catalog order. */
  function Stamped(catalog: seq<NewPet>, ids: nat -> Id, start: nat): (r: seq<Pet>)
    ensures |r| == |catalog|
    ensures forall i :: 0 <= i < |r| ==> r[i] == catalog[i].WithId(ids(start + i))
  {
    seq(|catalog|, i requires 0 <= i < |catalog| => catalog[i].WithId(ids(start + i)))
  }

  /** `addSampleData` inserts its catalog when the pet list is empty or when
      forced, and does nothing otherwise. */
  predicate Seeds(pets: seq<Pet>, force: bool) {
    |pets| == 0 || force
  }

  /** The pet list `addSampleData(force)` leaves behind. */
  function SampleDataResult(pets: seq<Pet>, force: bool, catalog: seq<NewPet>, ids: nat -> Id,
                            start: nat): (r: seq<Pet>)
    ensures !Seeds(pets, force) ==> r == pets
    ensures Seeds(pets, force) ==>
              |r| == |catalog| && forall i :: 0 <= i < |r| ==> r[i] == catalog[i].WithId(ids(start + i))
  {
    if Seeds(pets, force) then Stamped(catalog, ids, start) else pets
  }

  /** With a non-empty catalog the seeder never leaves the pet list empty, so
      the "still empty after initialization" branch cannot be taken. */
  lemma SampleDataNeverEmpty(pets: seq<Pet>, force: bool, catalog: seq<NewPet>, ids: nat -> Id,
                             start: nat)
    requires catalog != []
    ensures SampleDataResult(pets, force, catalog, ids, start) != []
  {
  }

  /** Seeding without force a second time changes nothing. */
  lemma SampleDataIdempotent(pets: seq<Pet>, force: bool, catalog: seq<NewPet>, ids: nat -> Id,
                             start: nat, start2: nat)
    requires catalog != []
    ensures var once := SampleDataResult(pets, force, catalog, ids, start);
            SampleDataResult(once, false, catalog, ids, start2) == once
  {
  }

  /** The four pieces of store state as one value. */
  datatype StoreState = StoreState(pets: seq<Pet>, users: seq<User>, matches: seq<Match>, idsDrawn: nat)

  /** The store state `addSampleData(force)` leaves: the pet list seeded as
      `SampleDataResult` says, one id drawn per inserted pet, users and
      matches as they were. */
  function SeedState(s: StoreState, force: bool, catalog: seq<NewPet>, ids: nat -> Id): (r: StoreState)
    ensures r.pets == SampleDataResult(s.pets, force, catalog, ids, s.idsDrawn)
    ensures r.users == s.users && r.matches == s.matches
    ensures r.idsDrawn == s.idsDrawn + if Seeds(s.pets, force) then |catalog| else 0
  {
    if Seeds(s.pets, force) then s.(pets := Stamped(catalog, ids, s.idsDrawn), idsDrawn := s.idsDrawn + |catalog|)
    else s
  }

  /** `pets.find(pet => pet.id === id)`. */
  function GetPetById(pets: seq<Pet>, id: Id): (r: Option<Pet>)
    ensures r.None? <==> forall i :: 0 <= i < |pets| ==> pets[i].id != id
    ensures r.Some? ==> r.value.id == id
    ensures r.Some? ==>
              exists i :: 0 <= i < |pets| && pets[i] == r.value && forall j :: 0 <= j < i ==> pets[j].id != id
  {
    FindFirst(pets, (p: Pet) => p.id == id)
  }

  /** `users.find(user => user.id === id)`. */
  function GetUserById(users: seq<User>, id: Id): (r: Option<User>)
    ensures r.None? <==> forall i :: 0 <= i < |users| ==> users[i].id != id
    ensures r.Some? ==> r.value.id == id
    ensures r.Some? ==>
              exists i :: 0 <= i < |users| && users[i] == r.value && forall j :: 0 <= j < i ==> users[j].id != id
  {
    FindFirst(users, (u: User) => u.id == id)
  }

  /** A user appended under an id no earlier user has is the one found by
      that id. */
  lemma NewUserIsFound(users: seq<User>, u: User)
    requires forall v :: v in users ==> v.id != u.id
    ensures GetUserById(users + [u], u.id) == Some(u)
  {
    FindFirstAppended(users, u, (v: User) => v.id == u.id);
  }

  /** The filter of `getMatchesByUserId`. */
  function BelongsTo(userId: Id): Match -> bool {
    (m: Match) => m.userId == userId
  }

  /** One match joined with its pet. */
  function View(m: Match, pets: seq<Pet>): MatchView {
    MatchView(m, GetPetById(pets, m.petId))
  }

  /** `.map(match => ({...match, pet: getPetById(match.petId)}))`. */
  function Join(ms: seq<Match>, pets: seq<Pet>): (r: seq<MatchView>)
    ensures |r| == |ms|
    ensures forall i :: 0 <= i < |ms| ==> r[i] == View(ms[i], pets)
  {
    seq(|ms|, i requires 0 <= i < |ms| => View(ms[i], pets))
  }

  /** Joining keeps the multiplicity of every match. */
  lemma {:induction false} JoinCounts(ms: seq<Match>, pets: seq<Pet>)
    ensures forall m :: multiset(Join(ms, pets))[View(m, pets)] == multiset(ms)[m]
  {
    if ms != [] {
      JoinCounts(ms[1..], pets);
      assert ms == [ms[0]] + ms[1..];
      assert Join(ms, pets) == [View(ms[0], pets)] + Join(ms[1..], pets);
    }
  }

  lemma JoinAppend(a: seq<Match>, b: seq<Match>, pets: seq<Pet>)
    ensures Join(a + b, pets) == Join(a, pets) + Join(b, pets)
  {
  }

  predicate SortedByScore(vs: seq<MatchView>) {
    forall i, j :: 0 <= i < j < |vs| ==> vs[i].record.score >= vs[j].record.score
  }

  /** Inserts `v` in front of the first element scoring no more than it. */
  function InsertByScore(v: MatchView, vs: seq<MatchView>): (r: seq<MatchView>)
    requires SortedByScore(vs)
    ensures SortedByScore(r)
    ensures multiset(r) == multiset(vs) + multiset{v}
    ensures forall x :: x in r ==> x == v || x in vs
  {
    if vs == [] || vs[0].record.score <= v.record.score then [v] + vs
    else
      var rest := InsertByScore(v, vs[1..]);
      assert vs == [vs[0]] + vs[1..];
      ConsKeepsSorted(vs[0], rest, v, vs[1..]);
      [vs[0]] + rest
  }

  /** A sorted list stays sorted behind a head scoring at least as much as
      each element it can hold. */
  lemma ConsKeepsSorted(h: MatchView, rest: seq<MatchView>, v: MatchView, tail: seq<MatchView>)
    requires SortedByScore(rest) && SortedByScore([h] + tail)
    requires h.record.score > v.record.score
    requires forall x :: x in rest ==> x == v || x in tail
    ensures SortedByScore([h] + rest)
  {
    var r := [h] + rest;
    forall i, j | 0 <= i < j < |r| ensures r[i].record.score >= r[j].record.score {
      assert r[j] == rest[j - 1] && r[j] in rest;
      if i == 0 && r[j] != v {
        var k :| 0 <= k < |tail| && tail[k] == r[j];
        assert ([h] + tail)[0] == h && ([h] + tail)[k + 1] == r[j];
      } else if i > 0 {
        assert r[i] == rest[i - 1];
      }
    }
  }

  /** `.sort((a, b) => b.score - a.score)`: the same views by non-increasing
      score. */
  function SortByScore(vs: seq<MatchView>): (r: seq<MatchView>)
    ensures SortedByScore(r)
    ensures multiset(r) == multiset(vs)
  {
    if vs == [] then []
    else
      assert vs == [vs[0]] + vs[1..];
      InsertByScore(vs[0], SortByScore(vs[1..]))
  }

  /** `getMatchesByUserId`: exactly the user's matches, each as often as it
      was recorded and joined with the first pet carrying its `petId`, by
      non-increasing score. */
  function MatchesForUser(matches: seq<Match>, pets: seq<Pet>, userId: Id): (r: seq<MatchView>)
    ensures SortedByScore(r)
    ensures forall v :: v in r ==> v.record.userId == userId && v == View(v.record, pets)
    ensures forall m :: multiset(r)[View(m, pets)] == if m.userId == userId then multiset(matches)[m] else 0
    ensures |r| == |Filter(matches, BelongsTo(userId))|
  {
    var own := Filter(matches, BelongsTo(userId));
    var joined := Join(own, pets);
    var r := SortByScore(joined);
    assert |r| == |multiset(r)| == |multiset(joined)| == |joined|;
    assert forall m :: multiset(r)[View(m, pets)] == if m.userId == userId then multiset(matches)[m] else 0 by {
      FilterCounts(matches, BelongsTo(userId));
      JoinCounts(own, pets);
    }
    assert forall v :: v in r ==> v.record.userId == userId && v == View(v.record, pets) by {
      forall v | v in r ensures v.record.userId == userId && v == View(v.record, pets) {
        assert v in multiset(joined);
        var k :| 0 <= k < |joined| && joined[k] == v;
        assert own[k] in own;
      }
    }
    r
  }

  /** Asking again for the same user adds to the answer: the earlier matches
      are all still listed, next to the newly recorded ones. */
  lemma RequestsAccumulate(matches: seq<Match>, extra: seq<Match>, pets: seq<Pet>, userId: Id)
    requires forall m :: m in extra ==> m.userId == userId
    ensures multiset(MatchesForUser(matches + extra, pets, userId)) ==
            multiset(MatchesForUser(matches, pets, userId)) + multiset(Join(extra, pets))
    ensures |MatchesForUser(matches + extra, pets, userId)| == |MatchesForUser(matches, pets, userId)| + |extra|
  {
    FilterAppend(matches, extra, BelongsTo(userId));
    FilterKeepsAll(extra, BelongsTo(userId));
    var own := Filter(matches, BelongsTo(userId));
    JoinAppend(own, extra, pets);
  }

  /** The store. `generateId` is an arbitrary stream of strings fixed when
      the store is made (`idSource`), of which `idsDrawn` have been used;
      nothing makes two ids differ. `catalog` is what the seeder inserts
      (`SampleCatalog()` in the application). */
  class Store {
    var pets: seq<Pet>
    var users: seq<User>
    var matches: seq<Match>
    var idsDrawn: nat
    const idSource: nat -> Id
    const catalog: seq<NewPet>

    /** The current state as a value. */
    function Snapshot(): StoreState
      reads this
    {
      StoreState(pets, users, matches, idsDrawn)
    }

    constructor(catalog: seq<NewPet>, idSource: nat -> Id)
      ensures pets == [] && users == [] && matches == [] && idsDrawn == 0
      ensures this.catalog == catalog && this.idSource == idSource
    {
      this.catalog := catalog;
      this.idSource := idSource;
      pets, users, matches, idsDrawn := [], [], [], 0;
    }

    /** `generateId()`. */
    method NextId() returns (id: Id)
      modifies this`idsDrawn
      ensures id == idSource(old(idsDrawn)) && idsDrawn == old(idsDrawn) + 1
    {
      id := idSource(idsDrawn);
      idsDrawn := idsDrawn + 1;
    }

    /** `getAllPets()` and `getPets()`: the pet list itself, unchanged. */
    method GetAllPets() returns (r: seq<Pet>)
      ensures r == pets
    {
      r := pets;
    }

    /** `getPetCount()`: how many pets the store holds. */
    method GetPetCount() returns (n: nat)
      ensures n == |pets|
    {
      n := |pets|;
    }

    /** `createPet`: appends the pet under a fresh id and returns it. */
    method CreatePet(p: NewPet) returns (pet: Pet)
      modifies this
      ensures pet == p.WithId(idSource(old(idsDrawn))) && idsDrawn == old(idsDrawn) + 1
      ensures pets == old(pets) + [pet]
      ensures users == old(users) && matches == old(matches)
    {
      var id := NextId();
      pet := p.WithId(id);
      pets := pets + [pet];
    }

    /** `createUser`: appends the user under a fresh id and returns it. */
    method CreateUser(u: NewUser) returns (user: User)
      modifies this
      ensures user == u.WithId(idSource(old(idsDrawn))) && idsDrawn == old(idsDrawn) + 1
      ensures users == old(users) + [user]
      ensures pets == old(pets) && matches == old(matches)
    {
      var id := NextId();
      user := u.WithId(id);
      users := users + [user];
    }

    /** `createMatch`: appends the match under a fresh id and returns it. */
    method CreateMatch(petId: Id, userId: Id, score: int, status: string) returns (m: Match)
      modifies this
      ensures m == Match(idSource(old(idsDrawn)), petId, userId, score, status)
      ensures idsDrawn == old(idsDrawn) + 1
      ensures matches == old(matches) + [m]
      ensures pets == old(pets) && users == old(users)
    {
      var id := NextId();
      m := Match(id, petId, userId, score, status);
      matches := matches + [m];
    }

    /** `addSampleData(force)`: when the pet list is empty or `force` is set,
        replaces it by the catalog (one `createPet` per entry, in order);
        otherwise leaves it alone. Users and matches are never touched. */
    method AddSampleData(force: bool)
      modifies this
      ensures pets == SampleDataResult(old(pets), force, catalog, idSource, old(idsDrawn))
      ensures idsDrawn == old(idsDrawn) + if Seeds(old(pets), force) then |catalog| else 0
      ensures users == old(users) && matches == old(matches)
      ensures Snapshot() == SeedState(old(Snapshot()), force, catalog, idSource)
    {
      if |pets| == 0 || force {
        if force && |pets| > 0 {
          pets := [];
        }
        var i := 0;
        while i < |catalog|
          invariant 0 <= i <= |catalog|
          invariant pets == Stamped(catalog[..i], idSource, old(idsDrawn))
          invariant idsDrawn == old(idsDrawn) + i
          invariant users == old(users) && matches == old(matches)
        {
          var pet := CreatePet(catalog[i]);
          i := i + 1;
        }
        assert catalog[..i] == catalog;
      }
    }
  }

  /** The ten pets `addSampleData` creates, in order. */
  function SampleCatalog(): (r: seq<NewPet>)
    ensures |r| == 10
  {
    [Max, Rocky, Bella, Charlie, Luna,
     Oliver, Milo, Coco, Nibbles, Tiki]
  }

  const Max: NewPet :=
    NewPet("Max", "Dog", Some("Golden Retriever"), 3,
      "Max is a friendly and energetic Golden Retriever who loves outdoor activities. He gets along well with children and other pets. He's trained and responds well to basic commands.",
      Some("https://images.unsplash.com/photo-1552053831-71594a27632d?q=80&w=624&auto=format&fit=crop"),
      ["Friendly", "Energetic", "Loyal"])

  const Rocky: NewPet :=
    NewPet("Rocky", "Dog", Some("German Shepherd"), 4,
      "Rocky is a loyal and protective German Shepherd with excellent training. He's great with families and makes an excellent watchdog. He needs regular exercise and mental stimulation.",
      Some("https://images.unsplash.com/photo-1605897472359-85e4b94d685d?q=80&w=624&auto=format&fit=crop"),
      ["Loyal", "Protective", "Intelligent"])

  const Bella: NewPet :=
    NewPet("Bella", "Dog", Some("Beagle"), 2,
      "Bella is a curious and playful Beagle who loves to explore. She has a friendly disposition and gets along well with everyone. She enjoys playing fetch and going for walks.",
      Some("https://images.unsplash.com/photo-1587300003388-59208cc962cb?q=80&w=624&auto=format&fit=crop"),
      ["Friendly", "Playful", "Curious"])

  const Charlie: NewPet :=
    NewPet("Charlie", "Dog", Some("French Bulldog"), 2,
      "Charlie is a charming French Bulldog with a lot of personality. He's affectionate, adaptable, and does well in apartments. He loves cuddles and short walks.",
      Some("https://images.unsplash.com/photo-1583337130417-3346a1be7dee?q=80&w=624&auto=format&fit=crop"),
      ["Affectionate", "Playful", "Calm"])

  const Luna: NewPet :=
    NewPet("Luna", "Cat", Some("Siamese"), 2,
      "Luna is a quiet and independent Siamese cat. She's very clean and enjoys peaceful environments. While she's not overly demanding of attention, she forms strong bonds with her owners.",
      Some("https://images.unsplash.com/photo-1574158622682-e40e69881006?q=80&w=624&auto=format&fit=crop"),
      ["Quiet", "Independent", "Affectionate"])

  const Oliver: NewPet :=
    NewPet("Oliver", "Cat", Some("Maine Coon"), 3,
      "Oliver is a gentle giant with a sociable personality. This Maine Coon loves being around people and isn't shy about seeking attention. He's good with children and other pets.",
      Some("https://images.unsplash.com/photo-1533738363-b7f9aef128ce?q=80&w=624&auto=format&fit=crop"),
      ["Gentle", "Sociable", "Intelligent"])

  const Milo: NewPet :=
    NewPet("Milo", "Cat", Some("Tabby"), 1,
      "Milo is a playful tabby cat with lots of energy. He loves interactive toys and climbing. He's young and adaptable, making him a great addition to most homes.",
      Some("https://images.unsplash.com/photo-1526336024174-e58f5cdd8e13?q=80&w=624&auto=format&fit=crop"),
      ["Playful", "Curious", "Energetic"])

  const Coco: NewPet :=
    NewPet("Coco", "Rabbit", Some("Holland Lop"), 1,
      "Coco is a calm and affectionate Holland Lop rabbit. She enjoys being handled and is litter-trained. She's ideal for someone looking for a gentle small pet.",
      Some("https://images.unsplash.com/photo-1535241749838-299277b6305f?q=80&w=624&auto=format&fit=crop"),
      ["Calm", "Affectionate", "Social"])

  const Nibbles: NewPet :=
    NewPet("Nibbles", "Hamster", Some("Syrian"), 1,
      "Nibbles is an active and curious Syrian hamster. He's fun to watch as he explores his habitat and enjoys running on his wheel. He's a great starter pet for responsible children.",
      Some("https://images.unsplash.com/photo-1425082661705-1834bfd09dca?q=80&w=624&auto=format&fit=crop"),
      ["Active", "Curious", "Independent"])

  const Tiki: NewPet :=
    NewPet("Tiki", "Bird", Some("Budgerigar"), 2,
      "Tiki is a colorful and cheerful budgie who loves to chirp and sing. He can learn to mimic words with patient training. He brings life and joy to any home.",
      Some("https://images.unsplash.com/photo-1501720804996-ae418d1ba820?q=80&w=624&auto=format&fit=crop"),
      ["Social", "Vocal", "Intelligent"])

  /** The application's store: empty lists, seeded from `SampleCatalog()`. */
  method NewAppStore(idSource: nat -> Id) returns (s: Store)
    ensures fresh(s) && s.catalog == SampleCatalog() && s.idSource == idSource
    ensures s.pets == [] && s.users == [] && s.matches == [] && s.idsDrawn == 0
  {
    s := new Store(SampleCatalog(), idSource);
  }
}
