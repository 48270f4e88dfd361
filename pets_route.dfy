/** The pets endpoint: `GET` lists the store's pets, `POST` validates a new
    pet, fills in its defaults and appends it. */
module PetsRoute {
  import opened Seqs
  import opened Text
  import opened Store
  import opened Init

  /** A 400-pixel-wide picture from the image host, by its photo id. */
  function PhotoUrl(photo: string): string {
    "https://images.unsplash.com/photo-" + photo + "?q=80&w=400&auto=format&fit=crop"
  }

  /** The image used for a type the table below does not know. */
  const GenericImage: string := PhotoUrl("1517849845537-4d257902454a")

  const DogImage: string := PhotoUrl("1543466835-00a7907e9de1")
  const CatImage: string := PhotoUrl("1543852786-1cf6624b9987")
  const RabbitImage: string := PhotoUrl("1535241749838-299277b6305f")
  const HamsterImage: string := PhotoUrl("1425082661705-1834bfd09dca")
  const BirdImage: string := PhotoUrl("1501720804996-ae418d1ba820")

  /** Two pictures whose photo ids differ at some position differ. */
  lemma PhotoUrlsDiffer(a: string, b: string, k: nat)
    requires k < |a| && k < |b| && a[k] != b[k]
    ensures PhotoUrl(a) != PhotoUrl(b)
  {
    var n := |"https://images.unsplash.com/photo-"|;
    assert PhotoUrl(a)[n + k] == a[k];
    assert PhotoUrl(b)[n + k] == b[k];
  }

  /** The generic picture is none of the five own pictures: its photo id
      differs from theirs in the third digit. */
  lemma GenericImageDiffers()
    ensures GenericImage != DogImage && GenericImage != CatImage && GenericImage != RabbitImage
    ensures GenericImage != HamsterImage && GenericImage != BirdImage
  {
    PhotoUrlsDiffer("1517849845537-4d257902454a", "1543466835-00a7907e9de1", 2);
    PhotoUrlsDiffer("1517849845537-4d257902454a", "1543852786-1cf6624b9987", 2);
    PhotoUrlsDiffer("1517849845537-4d257902454a", "1535241749838-299277b6305f", 2);
    PhotoUrlsDiffer("1517849845537-4d257902454a", "1425082661705-1834bfd09dca", 2);
    PhotoUrlsDiffer("1517849845537-4d257902454a", "1501720804996-ae418d1ba820", 2);
  }

  /** The five types that have an image of their own. */
  predicate HasOwnImage(petType: string) {
    petType == "Dog" || petType == "Cat" || petType == "Rabbit" || petType == "Hamster" || petType == "Bird"
  }

  /** `getDefaultImageForType`: each of the five known types has its own
      picture, and every other type, `Other` included, shares the generic
      one. */
  function DefaultImageForType(petType: string): (url: string)
    ensures url == GenericImage <==> !HasOwnImage(petType)
    ensures url != ""
  {
    GenericImageDiffers();
    if petType == "Dog" then DogImage
    else if petType == "Cat" then CatImage
    else if petType == "Rabbit" then RabbitImage
    else if petType == "Hamster" then HamsterImage
    else if petType == "Bird" then BirdImage
    else GenericImage
  }

  /** No two of the five known types share a picture: their photo ids
      differ in the fifth digit. */
  lemma OwnImagesDistinct(t1: string, t2: string)
    requires HasOwnImage(t1) && HasOwnImage(t2) && t1 != t2
    ensures DefaultImageForType(t1) != DefaultImageForType(t2)
  {
    var ids := ["1543466835-00a7907e9de1", "1543852786-1cf6624b9987", "1535241749838-299277b6305f",
                "1425082661705-1834bfd09dca", "1501720804996-ae418d1ba820"];
    assert ids[0][4] == '4' && ids[1][4] == '8' && ids[2][4] == '2' && ids[3][4] == '0' && ids[4][4] == '7';
    forall i, j | 0 <= i < 5 && 0 <= j < 5 && i != j
      ensures PhotoUrl(ids[i]) != PhotoUrl(ids[j])
    {
      PhotoUrlsDiffer(ids[i], ids[j], 4);
    }
    assert DogImage == PhotoUrl(ids[0]) && CatImage == PhotoUrl(ids[1]) && RabbitImage == PhotoUrl(ids[2]);
    assert HamsterImage == PhotoUrl(ids[3]) && BirdImage == PhotoUrl(ids[4]);
  }

  /** The `personality` field of a request: missing (or another falsy
      value), a single value, or an array. */
  datatype Personality = Absent | Single(one: string) | List(traits: seq<string>)

  /** The field's truthiness; an array, even an empty one, is truthy. */
  predicate PersonalityGiven(p: Personality) {
    match p
    case Absent => false
    case Single(t) => t != ""
    case List(_) => true
  }

  /** The field stored as a list: an array as it is, a single value as a
      one-element list. */
  function TraitList(p: Personality): (ts: seq<string>)
    requires PersonalityGiven(p)
    ensures p.List? ==> ts == p.traits
    ensures p.Single? ==> ts == [p.one] && ts != [] && "" !in ts
  {
    match p
    case Single(t) => [t]
    case List(ts) => ts
  }

  /** The JSON body of a `POST` to the pets endpoint. `age` is `None` when
      the field is absent and otherwise its numeric value. */
  datatype PetRequest = PetRequest(name: Option<string>, petType: Option<string>, breed: Option<string>,
                                   age: Option<int>, description: Option<string>,
                                   imageUrl: Option<string>, personality: Personality)

  /** The required-field check: name, type, description and personality
      truthy, and an age present (an age of 0 passes). */
  predicate ValidPetRequest(r: PetRequest) {
    Truthy(r.name) && Truthy(r.petType) && r.age.Some? && Truthy(r.description) &&
    PersonalityGiven(r.personality)
  }

  /** An otherwise complete request with age 0 is accepted, while one
      without an age is not: the check is for presence, not truthiness. */
  lemma AgeZeroAccepted(r: PetRequest)
    requires Truthy(r.name) && Truthy(r.petType) && Truthy(r.description) && PersonalityGiven(r.personality)
    ensures ValidPetRequest(r.(age := Some(0)))
    ensures !ValidPetRequest(r.(age := None))
  {
  }

  /** The pet a valid request describes: the given name, type, age and
      description; the breed only when truthy; the image supplied or else
      the type's default; the personality always as a list. */
  function BuildPet(r: PetRequest): (p: NewPet)
    requires ValidPetRequest(r)
    ensures p.name == r.name.value && p.petType == r.petType.value && p.age == r.age.value
    ensures p.description == r.description.value
    ensures p.breed == if Truthy(r.breed) then r.breed else None
    ensures p.breed.Some? ==> p.breed.value != ""
    ensures p.imageUrl.Some? && p.imageUrl.value != ""
    ensures p.imageUrl.value == if Truthy(r.imageUrl) then r.imageUrl.value else DefaultImageForType(r.petType.value)
    ensures p.personality == TraitList(r.personality)
  {
    NewPet(r.name.value, r.petType.value, if Truthy(r.breed) then r.breed else None, r.age.value,
           r.description.value,
           Some(if Truthy(r.imageUrl) then r.imageUrl.value else DefaultImageForType(r.petType.value)),
           TraitList(r.personality))
  }

  /** The answers of `POST`: 400 for missing fields, or the created pet. */
  datatype PetResponse = MissingFields | Created(pet: Pet)

  /** `GET /api/pets`: after the guard (which force-seeds an empty store),
      the whole pet list, unfiltered. */
  method Get(app: Initializer) returns (pets: seq<Pet>)
    modifies app, app.store
    ensures app.store.Snapshot() == Readied(old(app.store.Snapshot()), app.store.catalog, app.store.idSource)
    ensures pets == app.store.pets
    ensures app.State() == if |old(app.store.pets)| > 0 then old(app.State())
                           else AfterSeeding(old(app.State()), |app.store.pets|).flags
  {
    var ready := app.EnsureReady();
    pets := app.store.GetAllPets();
  }

  /** `POST /api/pets`: after the guard, a request failing the check is
      answered 400 and creates nothing; a valid one appends exactly one pet,
      built by `BuildPet` under the next id, and returns it. */
  method Post(app: Initializer, req: PetRequest) returns (resp: PetResponse)
    modifies app, app.store
    ensures var ready := Readied(old(app.store.Snapshot()), app.store.catalog, app.store.idSource);
            if ValidPetRequest(req) then
              var pet := BuildPet(req).WithId(app.store.idSource(ready.idsDrawn));
              resp == Created(pet) &&
              app.store.Snapshot() == ready.(pets := ready.pets + [pet], idsDrawn := ready.idsDrawn + 1)
            else
              resp == MissingFields && app.store.Snapshot() == ready
    ensures var ready := Readied(old(app.store.Snapshot()), app.store.catalog, app.store.idSource);
            app.State() == if |old(app.store.pets)| > 0 then old(app.State())
                           else AfterSeeding(old(app.State()), |ready.pets|).flags
  {
    var ready := app.EnsureReady();
    if !ValidPetRequest(req) {
      return MissingFields;
    }
    var pet := app.store.CreatePet(BuildPet(req));
    resp := Created(pet);
  }
}
