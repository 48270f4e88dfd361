/** The match endpoint: the heuristic compatibility score, worked in integer
    hundredths, and the `POST` and `GET` handlers over the store. Only the
    path taken without a language-model client is modelled; the score it
    uses is the one computed, in the same words, three times in the
    handler. */
module MatchRoute {
  import opened Seqs
  import opened Text
  import opened Store
  import opened Init

  /** Every score starts at 0.50. */
  const BaseScore: int := 50
  /** Added once when the user prefers the pet's type. */
  const TypeBonus: int := 15
  /** Added at most once when the pet's traits suit the user's lifestyle. */
  const ActivityBonus: int := 10
  /** `Math.random() * 0.15` after rounding to two places: 0.00 to 0.15. */
  const JitterMax: int := 15
  /** The clamp bounds 0.30 and 0.95. */
  const MinScore: int := 30
  const MaxScore: int := 95

  /** One random contribution, in hundredths. */
  type Jitter = j: int | 0 <= j <= JitterMax

  /** The types the "Small animals" preference covers. */
  const SmallAnimals: seq<string> := ["Rabbit", "Hamster", "Bird"]

  /** The type test of the scorer: the preferences name the type itself, or
      one of the three group names that cover it. */
  predicate PrefersType(prefs: seq<string>, petType: string) {
    petType in prefs ||
    ("Dogs" in prefs && petType == "Dog") ||
    ("Cats" in prefs && petType == "Cat") ||
    ("Small animals" in prefs && petType in SmallAnimals)
  }

  /** One preference covers a type: by naming it, or as the group that
      holds it. */
  predicate Covers(pref: string, petType: string) {
    pref == petType ||
    (pref == "Dogs" && petType == "Dog") ||
    (pref == "Cats" && petType == "Cat") ||
    (pref == "Small animals" && (petType == "Rabbit" || petType == "Hamster" || petType == "Bird"))
  }

  /** The type bonus applies exactly when some single preference covers the
      pet's type. */
  lemma PrefersTypeIffCovered(prefs: seq<string>, petType: string)
    ensures PrefersType(prefs, petType) <==> exists p :: p in prefs && Covers(p, petType)
  {
    if PrefersType(prefs, petType) {
      if petType in prefs {
        assert Covers(petType, petType);
      } else if "Dogs" in prefs && petType == "Dog" {
        assert Covers("Dogs", petType);
      } else if "Cats" in prefs && petType == "Cat" {
        assert Covers("Cats", petType);
      } else {
        assert Covers("Small animals", petType);
      }
    }
  }

  /** Some trait of the pet is in `wanted`. */
  predicate SharesTrait(traits: seq<string>, wanted: seq<string>) {
    exists i | 0 <= i < |traits| :: traits[i] in wanted
  }

  /** The activity test of the scorer, as the three branches of its
      `if … else if` chain. */
  function ActivityPoints(lifestyle: string, traits: seq<string>): (b: int)
    ensures b == 0 || b == ActivityBonus
  {
    if (lifestyle == "Very Active" || lifestyle == "Active") &&
       SharesTrait(traits, ["Energetic", "Active", "Playful"]) then ActivityBonus
    else if lifestyle == "Moderate" && SharesTrait(traits, ["Friendly", "Social", "Gentle"]) then ActivityBonus
    else if (lifestyle == "Relaxed" || lifestyle == "Sedentary") &&
            SharesTrait(traits, ["Calm", "Quiet", "Independent"]) then ActivityBonus
    else 0
  }

  /** The traits that suit each lifestyle tier; no trait suits a lifestyle
      outside the five named ones. */
  function TierTraits(lifestyle: string): (ts: seq<string>)
    ensures |ts| == 0 || |ts| == 3
  {
    if lifestyle == "Very Active" || lifestyle == "Active" then ["Energetic", "Active", "Playful"]
    else if lifestyle == "Moderate" then ["Friendly", "Social", "Gentle"]
    else if lifestyle == "Relaxed" || lifestyle == "Sedentary" then ["Calm", "Quiet", "Independent"]
    else []
  }

  /** The lifestyle selects exactly one tier, so the bonus is paid when a
      trait matches that tier's list, and a failed match in one tier never
      falls through to another. */
  lemma ActivityPointsByTier(lifestyle: string, traits: seq<string>)
    ensures ActivityPoints(lifestyle, traits) == if SharesTrait(traits, TierTraits(lifestyle)) then ActivityBonus else 0
  {
    if TierTraits(lifestyle) == [] {
      assert !SharesTrait(traits, []);
    }
  }

  /** The score before the clamp: the base plus the random part, plus at
      most the two bonuses; the type bonus outweighs the activity bonus, so
      the type test passed exactly when the sum reaches 0.65 plus the random
      part. */
  function RawScore(user: User, pet: Pet, jitter: Jitter): (r: int)
    ensures BaseScore + jitter <= r <= BaseScore + TypeBonus + ActivityBonus + jitter
    ensures PrefersType(user.preferences, pet.petType) <==> r >= BaseScore + TypeBonus + jitter
  {
    BaseScore + (if PrefersType(user.preferences, pet.petType) then TypeBonus else 0) +
    ActivityPoints(user.lifestyle, pet.personality) + jitter
  }

  /** `Math.max(0.3, Math.min(0.95, score))`. */
  function Clamp(x: int): (r: int)
    ensures MinScore <= r <= MaxScore
    ensures MinScore <= x <= MaxScore ==> r == x
  {
    if x < MinScore then MinScore else if x > MaxScore then MaxScore else x
  }

  /** The fallback score of `pet` for `user`: within the clamp bounds,
      indeed within 0.50 .. 0.90, so the clamp never changes the raw
      score, and the random part passes into the score unchanged. */
  function Score(user: User, pet: Pet, jitter: Jitter): (s: int)
    ensures MinScore <= s <= MaxScore
    ensures BaseScore <= s <= BaseScore + TypeBonus + ActivityBonus + JitterMax
    ensures s == RawScore(user, pet, jitter)
  {
    Clamp(RawScore(user, pet, jitter))
  }

  /** A user who ticked "Dogs" and lives an active life scores the first
      catalog pet, the energetic Golden Retriever, at 0.75 plus the random
      part. */
  lemma ActiveDogLoverScore(user: User, id: Id, jitter: Jitter)
    requires user.preferences == ["Dogs"] && user.lifestyle == "Active"
    ensures Score(user, SampleCatalog()[0].WithId(id), jitter) == 75 + jitter
  {
    var pet := SampleCatalog()[0].WithId(id);
    assert pet.personality[1] == "Energetic";
    assert SharesTrait(pet.personality, ["Energetic", "Active", "Playful"]);
  }

  /** The matches the fallback path creates, one per pet in list order:
      `ids` continues from `start`, and the `i`-th pet uses the `i`-th
      random draw. */
  function FallbackMatches(user: User, pets: seq<Pet>, userId: Id, jitter: nat -> Jitter,
                           ids: nat -> Id, start: nat): (r: seq<Match>)
    ensures |r| == |pets|
    ensures forall i :: 0 <= i < |r| ==>
              r[i] == Match(ids(start + i), pets[i].id, userId, Score(user, pets[i], jitter(i)), "pending")
  {
    seq(|pets|, i requires 0 <= i < |pets| =>
      Match(ids(start + i), pets[i].id, userId, Score(user, pets[i], jitter(i)), "pending"))
  }

  /** One more pet adds its match at the end. */
  lemma FallbackMatchesSnoc(user: User, pets: seq<Pet>, pet: Pet, userId: Id, jitter: nat -> Jitter,
                            ids: nat -> Id, start: nat)
    ensures FallbackMatches(user, pets + [pet], userId, jitter, ids, start) ==
            FallbackMatches(user, pets, userId, jitter, ids, start) +
            [Match(ids(start + |pets|), pet.id, userId, Score(user, pet, jitter(|pets|)), "pending")]
  {
    var pets' := pets + [pet];
    assert pets'[|pets|] == pet;
    assert forall i :: 0 <= i < |pets| ==> pets'[i] == pets[i];
  }

  /** The JSON body of a `POST` to the match endpoint; `forceReload` is its
      truthiness. */
  datatype MatchRequest = MatchRequest(userId: Option<string>, forceReload: bool)

  /** The answers of the match endpoint: status 500, 400 and 404, or a list
      of matches, with or without the fallback `warning`. */
  datatype MatchResponse =
    | ServerError
    | MissingUserId
    | UserNotFound
    | Matches(matches: seq<MatchView>, warning: bool)

  /** A handler's effect: the store state it leaves and its answer. */
  datatype Handled = Handled(state: StoreState, response: MatchResponse)

  /** What `POST` does once the guard has passed: reseed on `forceReload`,
      reject a missing `userId` (400) or an unknown user (404), answer an
      empty pet list with no matches, and otherwise append one pending match
      per pet and answer with all of the user's matches and the warning. */
  function Respond(s: StoreState, catalog: seq<NewPet>, ids: nat -> Id, req: MatchRequest,
                   jitter: nat -> Jitter): (h: Handled)
    ensures h.state.users == s.users
    ensures h.response.MissingUserId? <==> !Truthy(req.userId)
    ensures h.response.UserNotFound? <==> Truthy(req.userId) && GetUserById(s.users, req.userId.value).None?
    ensures !h.response.ServerError?
    ensures !(h.response.Matches? && h.response.warning) ==> h.state.matches == s.matches
    ensures h.state.pets == if req.forceReload then SampleDataResult(s.pets, true, catalog, ids, s.idsDrawn) else s.pets
    ensures Truthy(req.userId) && GetUserById(s.users, req.userId.value).Some? ==>
              var s1 := if req.forceReload then SeedState(s, true, catalog, ids) else s;
              h == if |s1.pets| == 0 then Handled(s1, Matches([], false))
                   else Fallback(s1, GetUserById(s.users, req.userId.value).value, req.userId.value, ids, jitter)
  {
    var s1 := if req.forceReload then SeedState(s, true, catalog, ids) else s;
    if !Truthy(req.userId) then Handled(s1, MissingUserId)
    else
      var userId := req.userId.value;
      match GetUserById(s1.users, userId)
      case None => Handled(s1, UserNotFound)
      case Some(user) =>
        if |s1.pets| == 0 then Handled(s1, Matches([], false))
        else Fallback(s1, user, userId, ids, jitter)
  }

  /** The fallback path on store state `s`: one pending match per pet
      appended, and the user's matches in the answer, with the warning. */
  function Fallback(s: StoreState, user: User, userId: Id, ids: nat -> Id, jitter: nat -> Jitter): Handled {
    var t := FallbackState(s, user, userId, ids, jitter);
    Handled(t, Matches(MatchesForUser(t.matches, t.pets, userId), true))
  }

  /** The store state the fallback path leaves: pets and users as they were,
      the new matches after the old ones, one id drawn per pet. */
  function FallbackState(s: StoreState, user: User, userId: Id, ids: nat -> Id, jitter: nat -> Jitter): (t: StoreState)
    ensures t.pets == s.pets && t.users == s.users && t.idsDrawn == s.idsDrawn + |s.pets|
    ensures t.matches == s.matches + FallbackMatches(user, s.pets, userId, jitter, ids, s.idsDrawn)
  {
    var created := FallbackMatches(user, s.pets, userId, jitter, ids, s.idsDrawn);
    s.(matches := s.matches + created, idsDrawn := s.idsDrawn + |created|)
  }

  /** The request that reaches the fallback path: a user id was given and
      names a known user, and the pet list (after any reload) is not
      empty. */
  lemma RespondTakesFallback(s: StoreState, catalog: seq<NewPet>, ids: nat -> Id,
                             req: MatchRequest, jitter: nat -> Jitter)
    requires Respond(s, catalog, ids, req, jitter).response.Matches?
    requires Respond(s, catalog, ids, req, jitter).response.warning
    ensures Truthy(req.userId) && GetUserById(s.users, req.userId.value).Some?
    ensures var s1 := if req.forceReload then SeedState(s, true, catalog, ids) else s;
            |s1.pets| > 0 &&
            Respond(s, catalog, ids, req, jitter) ==
              Fallback(s1, GetUserById(s.users, req.userId.value).value, req.userId.value, ids, jitter)
  {
  }

  /** A known user gets an answer without the warning and with no matches
      when there are no pets, and otherwise the warning and one new match per
      pet after the earlier ones. */
  lemma RespondToKnownUser(s: StoreState, catalog: seq<NewPet>, ids: nat -> Id,
                           req: MatchRequest, jitter: nat -> Jitter)
    requires Truthy(req.userId) && GetUserById(s.users, req.userId.value).Some?
    ensures var h := Respond(s, catalog, ids, req, jitter);
            var s1 := if req.forceReload then SeedState(s, true, catalog, ids) else s;
            h.response.Matches? && (h.response.warning <==> |s1.pets| > 0)
    ensures var h := Respond(s, catalog, ids, req, jitter);
            var s1 := if req.forceReload then SeedState(s, true, catalog, ids) else s;
            |s1.pets| == 0 ==> h.response.matches == [] && h.state == s1
    ensures var h := Respond(s, catalog, ids, req, jitter);
            var s1 := if req.forceReload then SeedState(s, true, catalog, ids) else s;
            |s1.pets| > 0 ==>
              |h.state.matches| == |s.matches| + |s1.pets| && h.state.matches[..|s.matches|] == s.matches
  {
    var s1 := if req.forceReload then SeedState(s, true, catalog, ids) else s;
    assert s1.matches == s.matches;
  }

  /** When a known user asks and there are pets, each new match is the
      user's pending match for the pet in the same position, and the answer
      is sorted and lists the user's earlier matches with the new ones. */
  lemma KnownUserGetsPendingMatches(s: StoreState, catalog: seq<NewPet>, ids: nat -> Id,
                                    req: MatchRequest, jitter: nat -> Jitter)
    requires Truthy(req.userId) && GetUserById(s.users, req.userId.value).Some?
    ensures var h := Respond(s, catalog, ids, req, jitter);
            var s1 := if req.forceReload then SeedState(s, true, catalog, ids) else s;
            |s1.pets| > 0 ==>
              forall i :: 0 <= i < |s1.pets| ==>
                |s.matches| + i < |h.state.matches| &&
                var m := h.state.matches[|s.matches| + i];
                m.petId == s1.pets[i].id && m.userId == req.userId.value && m.status == "pending"
    ensures var h := Respond(s, catalog, ids, req, jitter);
            var s1 := if req.forceReload then SeedState(s, true, catalog, ids) else s;
            |s1.pets| > 0 ==>
              SortedByScore(h.response.matches) &&
              |h.response.matches| == |Filter(s.matches, BelongsTo(req.userId.value))| + |s1.pets|
  {
    var h := Respond(s, catalog, ids, req, jitter);
    var s1 := if req.forceReload then SeedState(s, true, catalog, ids) else s;
    var userId := req.userId.value;
    var user := GetUserById(s.users, userId).value;
    assert s1.matches == s.matches;
    if |s1.pets| > 0 {
      assert h == Fallback(s1, user, userId, ids, jitter);
      forall i | 0 <= i < |s1.pets|
        ensures |s.matches| + i < |h.state.matches|
        ensures h.state.matches[|s.matches| + i].petId == s1.pets[i].id
        ensures h.state.matches[|s.matches| + i].userId == userId
        ensures h.state.matches[|s.matches| + i].status == "pending"
      {
        PendingMatchForPet(s1, user, userId, ids, jitter, i);
      }
      FallbackAnswerAccumulates(s1, user, userId, ids, jitter);
    }
  }

  /** The match the fallback path records for the pet at position `i`. */
  lemma PendingMatchForPet(s: StoreState, user: User, userId: Id, ids: nat -> Id,
                           jitter: nat -> Jitter, i: nat)
    requires i < |s.pets|
    ensures var t := FallbackState(s, user, userId, ids, jitter);
            |s.matches| + i < |t.matches| &&
            t.matches[|s.matches| + i] == Match(ids(s.idsDrawn + i), s.pets[i].id, userId, Score(user, s.pets[i], jitter(i)), "pending")
  {
    var created := FallbackMatches(user, s.pets, userId, jitter, ids, s.idsDrawn);
    assert FallbackState(s, user, userId, ids, jitter).matches[|s.matches| + i] == created[i];
  }

  /** The fallback path appends exactly one pending match per pet, in pet
      order, each for the requesting user, with a score in 0.50 .. 0.90;
      nothing earlier is changed. */
  lemma FallbackOnePendingMatchPerPet(s: StoreState, user: User, userId: Id, ids: nat -> Id,
                                      jitter: nat -> Jitter)
    ensures var t := FallbackState(s, user, userId, ids, jitter);
            |t.matches| == |s.matches| + |s.pets| &&
            t.matches[..|s.matches|] == s.matches &&
            forall i :: 0 <= i < |s.pets| ==>
              var m := t.matches[|s.matches| + i];
              m.petId == s.pets[i].id && m.userId == userId && m.status == "pending" &&
              BaseScore <= m.score <= BaseScore + TypeBonus + ActivityBonus + JitterMax
  {
    var created := FallbackMatches(user, s.pets, userId, jitter, ids, s.idsDrawn);
    var all := FallbackState(s, user, userId, ids, jitter).matches;
    assert all == s.matches + created;
    assert all[..|s.matches|] == s.matches;
    forall i | 0 <= i < |s.pets|
      ensures all[|s.matches| + i].petId == s.pets[i].id && all[|s.matches| + i].userId == userId
      ensures all[|s.matches| + i].status == "pending"
      ensures BaseScore <= all[|s.matches| + i].score <= BaseScore + TypeBonus + ActivityBonus + JitterMax
    {
      assert all[|s.matches| + i] == created[i];
    }
  }

  /** The answer of the fallback path lists every match of the user, those
      of earlier requests included, best score first: each earlier match of
      the user and each new one appears once per occurrence, and nothing
      else does. Repeated requests therefore accumulate. */
  lemma FallbackAnswerAccumulates(s: StoreState, user: User, userId: Id, ids: nat -> Id,
                                  jitter: nat -> Jitter)
    ensures var h := Fallback(s, user, userId, ids, jitter);
            var created := h.state.matches[|s.matches|..];
            h.response.Matches? &&
            SortedByScore(h.response.matches) &&
            multiset(h.response.matches) ==
              multiset(MatchesForUser(s.matches, s.pets, userId)) + multiset(Join(created, s.pets)) &&
            |h.response.matches| == |Filter(s.matches, BelongsTo(userId))| + |s.pets|
  {
    var h := Fallback(s, user, userId, ids, jitter);
    var created := FallbackMatches(user, s.pets, userId, jitter, ids, s.idsDrawn);
    assert h.state.matches[|s.matches|..] == created;
    RequestsAccumulate(s.matches, created, s.pets, userId);
    assert forall m :: m in created ==> m.userId == userId;
    FilterKeepsAll(created, BelongsTo(userId));
  }

  /** A request without a user id, or for an unknown user, creates no match
      and leaves the pets as only `forceReload` makes them. */
  lemma RejectedRequestCreatesNothing(s: StoreState, catalog: seq<NewPet>, ids: nat -> Id,
                                      req: MatchRequest, jitter: nat -> Jitter)
    requires !Truthy(req.userId) || GetUserById(s.users, req.userId.value).None?
    ensures Respond(s, catalog, ids, req, jitter).state.matches == s.matches
  {
  }

  /** `POST /api/match` without a language-model client: the guard, then
      `Respond`. A guard that cannot produce pets answers 500 and changes
      nothing more. */
  method Post(app: Initializer, req: MatchRequest, jitter: nat -> Jitter) returns (resp: MatchResponse)
    modifies app, app.store
    ensures var ready := Readied(old(app.store.Snapshot()), app.store.catalog, app.store.idSource);
            if |ready.pets| == 0 then resp == ServerError && app.store.Snapshot() == ready
            else Handled(app.store.Snapshot(), resp) == Respond(ready, app.store.catalog, app.store.idSource, req, jitter)
    ensures var ready := Readied(old(app.store.Snapshot()), app.store.catalog, app.store.idSource);
            app.State() == if |old(app.store.pets)| > 0 then old(app.State())
                           else AfterSeeding(old(app.State()), |ready.pets|).flags
  {
    var ok := app.EnsureReady();
    if !ok {
      return ServerError;
    }
    resp := Serve(app.store, req, jitter);
  }

  /** The body of `POST` after the guard, on the store itself. */
  method Serve(store: Store, req: MatchRequest, jitter: nat -> Jitter) returns (resp: MatchResponse)
    modifies store
    ensures Handled(store.Snapshot(), resp) == Respond(old(store.Snapshot()), store.catalog, store.idSource, req, jitter)
  {
    ghost var s0 := store.Snapshot();
    if req.forceReload {
      store.AddSampleData(true);
    }
    ghost var s1 := store.Snapshot();
    assert s1 == if req.forceReload then SeedState(s0, true, store.catalog, store.idSource) else s0;
    if !Truthy(req.userId) {
      return MissingUserId;
    }
    var userId := req.userId.value;
    var found := GetUserById(store.users, userId);
    if found.None? {
      return UserNotFound;
    }
    var user := found.value;
    var pets := store.GetAllPets();
    if |pets| == 0 {
      return Matches([], false);
    }
    CreateFallbackMatches(store, user, userId, jitter);
    resp := Matches(MatchesForUser(store.matches, store.pets, userId), true);
    assert Respond(s0, store.catalog, store.idSource, req, jitter) == Fallback(s1, user, userId, store.idSource, jitter);
  }

  /** The `pets.map(pet => createMatch(…))` loop of the fallback path. */
  method CreateFallbackMatches(store: Store, user: User, userId: Id, jitter: nat -> Jitter)
    modifies store
    ensures store.Snapshot() == FallbackState(old(store.Snapshot()), user, userId, store.idSource, jitter)
  {
    ghost var s1 := store.Snapshot();
    var pets := store.GetAllPets();
    var i := 0;
    while i < |pets|
      invariant 0 <= i <= |pets|
      invariant store.pets == pets && store.users == s1.users
      invariant store.idsDrawn == s1.idsDrawn + i
      invariant store.matches == s1.matches + FallbackMatches(user, pets[..i], userId, jitter, store.idSource, s1.idsDrawn)
    {
      var m := store.CreateMatch(pets[i].id, userId, Score(user, pets[i], jitter(i)), "pending");
      assert pets[..i + 1] == pets[..i] + [pets[i]];
      FallbackMatchesSnoc(user, pets[..i], pets[i], userId, jitter, store.idSource, s1.idsDrawn);
      i := i + 1;
    }
    assert pets[..i] == pets;
  }

  /** `GET /api/match?userId=…`: after the guard, 400 without a user id,
      otherwise the user's matches, best first; the store is not changed
      beyond the guard. */
  method Get(app: Initializer, userId: Option<string>) returns (resp: MatchResponse)
    modifies app, app.store
    ensures var ready := Readied(old(app.store.Snapshot()), app.store.catalog, app.store.idSource);
            app.store.Snapshot() == ready &&
            resp == if |ready.pets| == 0 then ServerError
                    else if !Truthy(userId) then MissingUserId
                    else Matches(MatchesForUser(ready.matches, ready.pets, userId.value), false)
    ensures app.State() == if |old(app.store.pets)| > 0 then old(app.State())
                           else AfterSeeding(old(app.State()), |app.store.pets|).flags
  {
    var ok := app.EnsureReady();
    if !ok {
      return ServerError;
    }
    if !Truthy(userId) {
      return MissingUserId;
    }
    resp := Matches(MatchesForUser(app.store.matches, app.store.pets, userId.value), false);
  }
}
