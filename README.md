# PetMatch core in Dafny

PetMatch is a Next.js pet-adoption site. Its server keeps pets, users and
matches in memory, seeds a catalog of sample pets at start-up, and scores
each pet for a user with a fixed heuristic. Its pages are a profile wizard,
a browse page with filters and an administrator's add-pet form. This
project models the following, and proves what each part promises:

- **Store.** The in-memory store with its three lists, id generation and
  lookups, and the sample-data seeder. It also covers the per-user match
  listing: the user's matches joined with their pets, best score first.
- **Start-up state machine.** The `initialized` flag, the retry counter
  bounded by `MAX_RETRIES`, the deferred retry, and the guard every API
  handler runs first.
- **Match endpoint.** The compatibility score in integer hundredths, and
  the `POST` and `GET` handlers. Only the path taken without a
  language-model client is modelled.
- **Pets and users endpoints.** Request validation, defaults (the image
  per pet type, the breed, the personality list) and record creation.
- **Browse page.** The type, age and search filter, the list of types
  offered, and the handlers that change the filter.
- **Profile wizard.** The step validator with its exact messages, the step
  counter, the preference checkboxes and the checks before submission.
- **Add-pet form.** The trait toggles, the custom trait box, the ordered
  checks with their messages, and the reset after a successful submission.

Files, one module each:

- `seqs.dfy`: `filter`, `find` and de-duplication over sequences.
- `text.dfy`: `trim`, `toLowerCase`, `includes`, truthiness of optional
  fields, the e-mail pattern `\S+@\S+\.\S+`, and what `Number` accepts.
- `store.dfy`: `app/lib/store.ts`.
- `init.dfy`: `app/lib/init.ts`.
- `match_route.dfy`: `app/api/match/route.ts`.
- `pets_route.dfy`: `app/api/pets/route.ts`.
- `users_route.dfy`: `app/api/users/route.ts`.
- `browse.dfy`: `app/browse/page.tsx`.
- `find_pet.dfy`: `app/find-pet/page.tsx`.
- `add_pet.dfy`: `app/admin/add-pet/page.tsx`.

Modelling choices:

- **Mutable state becomes classes.** Module-level state and React state
  that changes in place become classes whose fields the methods update:
  `Store.Store`, `Init.Initializer`, `Browse.BrowsePage`,
  `FindPet.FindPetWizard` and `AddPet.AddPetPage`.
- **Loops become verified loops.** The seeder's `createPet` sequence and
  the match route's `pets.map(… createMatch …)` are `while` loops proved
  against the functions `SeedState` and `FallbackState`.
- **Handlers are related to functions.** Each API handler's `ensures`
  ties the store's new state and its answer to a function of the old
  state: `Readied`, `Respond`, `BuildPet` or `BuildUser`.
- **Scores are integer hundredths.** The random part `Math.random() * 0.15`,
  after the final rounding to two places, is a `Jitter` value from 0 to 15
  supplied by the caller.
- **Ids are a parameter.** `generateId` is an arbitrary stream of ids fixed
  when the store is made. Nothing makes two ids differ, so lemmas that need
  a fresh id say so.
- **The catalog is 10 pets, as the code has it.** The catalog in
  `addSampleData` has ten pets: four dogs, three cats, a rabbit, a hamster
  and a bird.
- **Request fields follow JS truthiness.** An optional string field is
  `Option<string>` and counts as given when present and non-empty
  (`Text.Truthy`).
- **The seeder's catalog is a parameter.** It is a constant of the store,
  and the application's store uses `Store.SampleCatalog()`. This keeps the
  start-up machine's failure and retry branches stateable. With the real
  catalog they are unreachable, which `Init.AppSeedingNeverFails` and
  `Init.AppInitializeAlwaysSucceeds` prove.

## Model

| member | source | states |
|---|---|---|
| Text.Trim | app/admin/add-pet/page.tsx:54 | the trimmed string is empty exactly when the input is all white space, and otherwise starts and ends with a non-space character |
| Text.TrimIsInside | app/admin/add-pet/page.tsx:54-57 | only white space is removed: the trimmed string occurs in the input with nothing but white space before and after it |
| Text.TrimOffset | app/admin/add-pet/page.tsx:54 | the position where the trimmed string starts in the input, with white space only before and after it |
| Text.ToLower | app/browse/page.tsx:87-91 | same length; every ASCII capital lowered, every other character kept |
| Text.LooksLikeEmail | app/find-pet/page.tsx:61 | the pattern `\S+@\S+\.\S+` matches: an `@` and a later `.`, with a non-space character just before the `@`, only non-space characters between the two, and a non-space character just after the `.` |
| Text.EmailIsNotBlank | app/find-pet/page.tsx:61 | a string the e-mail pattern matches never trims to the empty string |
| Text.DigitsAreNumeric | app/admin/add-pet/page.tsx:77 | a string of decimal digits, or one of only white space, passes `!isNaN(Number(s))` |
| Text.IsNumeric | app/admin/add-pet/page.tsx:77 | `Number(s)` is not NaN: the trimmed string is empty, a decimal literal or infinity, or a `0x`/`0o`/`0b` integer |
| Text.NumericHasDigit | app/admin/add-pet/page.tsx:77 | every string `Number` accepts trims to the empty string, to a spelling of infinity, or to a string holding a decimal digit |
| Store.GetPetById | app/lib/store.ts:57-59 | nothing is found exactly when no pet has the id; otherwise the result has the id and is the first pet carrying it |
| Store.GetUserById | app/lib/store.ts:68-70 | nothing is found exactly when no user has the id; otherwise the result has the id and is the first user carrying it |
| Store.NewUserIsFound | app/lib/store.ts:62-70 | a user appended under an id no earlier user has is the one found by that id |
| Store.SampleDataResult | app/lib/store.ts:97-112 | without seeding the pet list is unchanged; with seeding it is exactly the catalog, in order, under consecutive ids |
| Store.SampleDataNeverEmpty | app/lib/store.ts:214-219 | with a non-empty catalog the pet list is never empty afterwards |
| Store.SampleDataIdempotent | app/lib/store.ts:100-101 | an unforced second call leaves the seeded list unchanged |
| Store.SeedState | app/lib/store.ts:97-112 | the seeder changes only the pets and the id count, by one id per inserted pet |
| Store.JoinCounts | app/lib/store.ts:86-92 | joining matches with their pets keeps every match's multiplicity |
| Store.InsertByScore | app/lib/store.ts:93 | inserting into a list sorted by non-increasing score keeps it sorted and adds exactly the new view |
| Store.SortByScore | app/lib/store.ts:93 | the result is sorted by non-increasing score and is a permutation of the input |
| Store.MatchesForUser | app/lib/store.ts:83-95 | sorted best first; only the user's matches, each joined with its pet and listed as often as it was recorded |
| Store.RequestsAccumulate | app/lib/store.ts:83-95 | new matches for a user are added to the listing, and the earlier ones all stay |
| Store.SampleCatalog | app/lib/store.ts:110-210 | the catalog holds ten pets |
| Store.Store.constructor | app/lib/store.ts:33-35 | the store starts with no pets, users or matches |
| Store.Store.NextId | app/lib/store.ts:44 | the next id of the stream is drawn |
| Store.Store.GetAllPets | app/lib/store.ts:53-55 | the pet list itself |
| Store.Store.GetPetCount | app/lib/store.ts:38 | the number of pets |
| Store.Store.CreatePet | app/lib/store.ts:47-51 | appends the pet under the next id and returns it; users and matches untouched |
| Store.Store.CreateUser | app/lib/store.ts:62-66 | appends the user under the next id and returns it; pets and matches untouched |
| Store.Store.CreateMatch | app/lib/store.ts:73-81 | appends the match under the next id and returns it; pets and users untouched |
| Store.Store.AddSampleData | app/lib/store.ts:97-223 | the store's new state is `SeedState` of the old one |
| Store.NewAppStore | app/lib/store.ts:33-35 | a fresh, empty store whose seeder inserts `SampleCatalog()` |
| Init.AfterSeeding | app/lib/init.ts:26-56 | success exactly when pets exist; success sets the flag and clears the counter; a failure counts an attempt, schedules a retry below `MAX_RETRIES` and resets the counter on reaching it |
| Init.AfterRetry | app/lib/init.ts:33-43 | a retry that finds pets sets the flag and clears the counter, and one that finds none changes neither |
| Init.RunKeepsRetriesInRange | app/lib/init.ts:26-50 | over any sequence of calls and retries the counter stays below `MAX_RETRIES` |
| Init.FailuresCountModulo | app/lib/init.ts:26-50 | consecutive failures count attempts modulo `MAX_RETRIES` and never set the flag |
| Init.ThirdFailureSchedulesNothing | app/lib/init.ts:30-50 | the k-th consecutive failure schedules a retry exactly when k is not a multiple of `MAX_RETRIES` |
| Init.SeedingNeverFails | app/lib/init.ts:21-26 | with a non-empty catalog a seeding call always succeeds |
| Init.AppSeedingNeverFails | app/lib/init.ts:21-56 | with the application's catalog a seeding call always returns true |
| Init.Readied | app/api/pets/route.ts:11-14 | the guard leaves a store with pets alone and turns an empty one into the force-seeded state (the catalog in order under consecutive ids); it never touches users or matches |
| Init.Initializer.constructor | app/lib/init.ts:4-5 | not initialized, no retries counted |
| Init.Initializer.InitializeApp | app/lib/init.ts:12-57 | an initialized application without `force` changes nothing; otherwise the store is seeded as `SeedState` says and the flags follow `AfterSeeding` |
| Init.Initializer.RetryStep | app/lib/init.ts:33-43 | the retry force-seeds the store and updates the flags as `AfterRetry` says |
| Init.Initializer.VerifyInitialization | app/lib/init.ts:63-70 | true exactly when the store holds a pet |
| Init.Initializer.EnsureReady | app/api/match/route.ts:31-42 | ready exactly when pets exist afterwards; the store becomes `Readied` of the old one |
| Init.AppInitializeAlwaysSucceeds | app/lib/init.ts:12-57 | on the application's catalog, every seeding call returns true, sets the flag and clears the counter |
| MatchRoute.PrefersType | app/api/match/route.ts:90-93 | the type test: the preferences name the type, or "Dogs", "Cats" or "Small animals" cover it |
| MatchRoute.PrefersTypeIffCovered | app/api/match/route.ts:90-95 | the type bonus applies exactly when a single preference names the type or its group |
| MatchRoute.ActivityPoints | app/api/match/route.ts:98-107 | the activity bonus is 0 or 0.10 |
| MatchRoute.ActivityPointsByTier | app/api/match/route.ts:98-107 | the lifestyle selects one tier, and the bonus is paid exactly when a trait is in that tier's list |
| MatchRoute.RawScore | app/api/match/route.ts:87-110 | the sum lies between 0.50 and 0.75 above the random part, and reaches 0.65 above it exactly when the type test passed |
| MatchRoute.Clamp | app/api/match/route.ts:113 | the result lies in 0.30 .. 0.95 and equals a value already inside |
| MatchRoute.Score | app/api/match/route.ts:87-114 | the score lies in 0.50 .. 0.90, so the clamp never changes the raw sum |
| MatchRoute.ActiveDogLoverScore | app/api/match/route.ts:87-114 | an active user preferring "Dogs" scores the first catalog pet at 0.75 plus the random part |
| MatchRoute.FallbackMatches | app/api/match/route.ts:85-122 | one pending match per pet, in pet order, with consecutive ids and that pet's score |
| MatchRoute.Respond | app/api/match/route.ts:44-131 | 400 exactly without a user id, 404 exactly for an unknown user, never 500; users never change; matches change only on the fallback path; pets are reseeded exactly on `forceReload`; a known user gets `{matches: []}` when the pet list is empty and the fallback path otherwise |
| MatchRoute.Fallback | app/api/match/route.ts:85-131 | the fallback path: the store in `FallbackState`, and the user's matches from `getMatchesByUserId` with the warning |
| MatchRoute.FallbackState | app/api/match/route.ts:85-122 | the fallback path appends its matches after the old ones and draws one id per pet, leaving pets and users alone |
| MatchRoute.RespondTakesFallback | app/api/match/route.ts:56-85 | an answer with the warning means a known user id and a non-empty pet list |
| MatchRoute.RespondToKnownUser | app/api/match/route.ts:64-131 | for a known user: no matches and no warning exactly when the pet list is empty; otherwise the warning and one new match per pet after the earlier ones |
| MatchRoute.KnownUserGetsPendingMatches | app/api/match/route.ts:85-131 | for a known user with pets: each new match is the user's pending match for the pet in the same position, and the answer is sorted and lists earlier and new matches |
| MatchRoute.PendingMatchForPet | app/api/match/route.ts:85-122 | the fallback records, for the pet at position `i`, a pending match under the `i`-th new id with that pet's score |
| MatchRoute.FallbackOnePendingMatchPerPet | app/api/match/route.ts:85-122 | exactly one new match per pet, each pending, for the user, scored in 0.50 .. 0.90; earlier matches unchanged |
| MatchRoute.FallbackAnswerAccumulates | app/api/match/route.ts:125-131 | the answer is sorted and lists the user's earlier matches together with the new ones |
| MatchRoute.RejectedRequestCreatesNothing | app/api/match/route.ts:56-69 | a missing user id or an unknown user creates no match |
| MatchRoute.Post | app/api/match/route.ts:28-131 | 500 when the guard finds no pets; otherwise the store and answer are `Respond` on the readied store; the initializer's flags unchanged when pets were present, otherwise as the seeding step leaves them |
| MatchRoute.Serve | app/api/match/route.ts:49-131 | the store's new state and the answer are `Respond` of the old state |
| MatchRoute.CreateFallbackMatches | app/api/match/route.ts:85-122 | the loop leaves the store in `FallbackState` of the old one |
| MatchRoute.Get | app/api/match/route.ts:299-334 | the store only readied; 500 without pets, 400 without a user id, otherwise the user's matches best first; the initializer's flags unchanged when pets were present, otherwise as the seeding step leaves them |
| PetsRoute.GenericImageDiffers | app/api/pets/route.ts:78-85 | the fallback image is none of the five per-type images |
| PetsRoute.DefaultImageForType | app/api/pets/route.ts:76-86 | the fallback image exactly for types other than Dog, Cat, Rabbit, Hamster and Bird; never empty |
| PetsRoute.OwnImagesDistinct | app/api/pets/route.ts:77-83 | no two known types share an image |
| PetsRoute.TraitList | app/api/pets/route.ts:60 | an array is kept as it is, a single value becomes a one-element list |
| PetsRoute.ValidPetRequest | app/api/pets/route.ts:45 | the required-field check: name, type, description truthy, an age present and a personality given |
| PetsRoute.AgeZeroAccepted | app/api/pets/route.ts:45 | age 0 passes the required-field check, a missing age does not |
| PetsRoute.BuildPet | app/api/pets/route.ts:53-61 | the stored pet has the request's fields, the breed only when truthy, the given image or the type's default, and the personality as a list |
| PetsRoute.Get | app/api/pets/route.ts:8-19 | after the guard, the whole pet list; the initializer's flags unchanged when pets were present, otherwise as the seeding step leaves them |
| PetsRoute.Post | app/api/pets/route.ts:29-65 | after the guard, 400 and nothing created for a failing request; otherwise exactly one pet, `BuildPet` under the next id, appended and returned; the initializer's flags unchanged when pets were present, otherwise as the seeding step leaves them |
| UsersRoute.ValidUserRequest | app/api/users/route.ts:9 | the required-field check: name, e-mail, lifestyle and experience truthy and a non-empty preference list |
| UsersRoute.EmptyPreferencesRejected | app/api/users/route.ts:9 | an empty preference list is rejected like a missing one |
| UsersRoute.BuildUser | app/api/users/route.ts:18-24 | the stored user has the request's fields, untrimmed |
| UsersRoute.Post | app/api/users/route.ts:4-28 | 400 and nothing created for a failing request; otherwise one user appended, its id returned, and the user found by that id when the id is fresh |
| Browse.MatchesQuery | app/browse/page.tsx:86-92 | the search test: the lower-cased query occurs in the lower-cased name, truthy breed or some trait |
| Browse.SearchIgnoresQueryCase | app/browse/page.tsx:87 | a query and its lower-cased form find the same pets |
| Browse.ApplyFilters | app/browse/page.tsx:69-96 | the result keeps input order and holds exactly the pets that pass type, inclusive age range and search |
| Browse.ApplyFiltersIsOneFilter | app/browse/page.tsx:75-93 | the chain of three filters is a single filter by the combined test |
| Browse.InvertedRangeShowsNothing | app/browse/page.tsx:83 | a minimum age above the maximum shows no pet |
| Browse.DefaultFilterDropsOlderPets | app/browse/page.tsx:29 | with the default settings a pet older than 20 is not shown, though a reset shows the whole list |
| Browse.UniqueTypes | app/browse/page.tsx:48 | every listed pet's type, each exactly once, in the order the types first appear in the list |
| Browse.BrowsePage.constructor | app/browse/page.tsx:21-30 | nothing listed, the type from the address, default ages, no query |
| Browse.BrowsePage.Loaded | app/browse/page.tsx:42-56 | all pets listed and their types offered; a type in the address is selected and applied |
| Browse.BrowsePage.HandleTypeChange | app/browse/page.tsx:98-102 | the type is selected and the filter re-run |
| Browse.BrowsePage.HandleAgeChange | app/browse/page.tsx:104-110 | index 0 sets the minimum, index 1 the maximum, and the filter is re-run |
| Browse.BrowsePage.HandleSearchChange | app/browse/page.tsx:112-116 | the query is stored and the filter re-run |
| Browse.BrowsePage.HandleReset | app/browse/page.tsx:118-123 | default settings and the whole list shown |
| FindPet.StepError | app/find-pet/page.tsx:52-102 | a step passes exactly when it is valid; on step 1 a blank name gives the name message, and the address message appears exactly when the pattern fails |
| FindPet.EmailCheckIsPattern | app/find-pet/page.tsx:61 | the blank test on the address never decides anything beyond the pattern |
| FindPet.SubmitError | app/find-pet/page.tsx:118-126 | the lifestyle message exactly when the lifestyle is missing, then the experience message |
| FindPet.SubmitErrorOrder | app/find-pet/page.tsx:118-141 | the preference message exactly when the first two steps are complete and no preference is ticked; the animal-type message exactly when, further, no ticked preference names an animal type |
| FindPet.SubmitRechecksLaterSteps | app/find-pet/page.tsx:118-141 | submission passes exactly when steps 2 and 3 are valid |
| FindPet.SubmitIgnoresContact | app/find-pet/page.tsx:114-141 | name and address do not affect the submit checks |
| FindPet.SetPreference | app/find-pet/page.tsx:304-308 | checking appends the preference; unchecking removes every occurrence and keeps the rest in order |
| FindPet.CheckThenUncheck | app/find-pet/page.tsx:304-308 | checking then unchecking an unchecked preference restores the list |
| FindPet.FindPetWizard.constructor | app/find-pet/page.tsx:11-19 | step 1, empty form, no error |
| FindPet.FindPetWizard.HandleNext | app/find-pet/page.tsx:104-108 | the error is the step's; the step advances exactly when valid |
| FindPet.FindPetWizard.HandlePrevious | app/find-pet/page.tsx:110-112 | one step back |
| FindPet.FindPetWizard.TogglePreference | app/find-pet/page.tsx:304-309 | the form's preferences change as `SetPreference` says |
| FindPet.FindPetWizard.Submit | app/find-pet/page.tsx:114-145 | the error is the submit checks'; the profile is sent exactly when steps 2 and 3 are valid |
| AddPet.ToggleTrait | app/admin/add-pet/page.tsx:44-51 | a listed trait is removed, every occurrence, with the rest kept in order; an unlisted one is appended |
| AddPet.ToggleTwiceRestores | app/admin/add-pet/page.tsx:44-51 | toggling an unlisted trait twice restores the list |
| AddPet.ToggleKeepsNoDup | app/admin/add-pet/page.tsx:44-51 | toggling keeps the trait list free of duplicates |
| AddPet.AddCustom | app/admin/add-pet/page.tsx:53-61 | a non-blank trimmed trait not yet listed is appended and the box cleared, else nothing changes; no duplicates and no untrimmed trait are introduced |
| AddPet.SubmitError | app/admin/add-pet/page.tsx:66-90 | no error exactly when the name and description are not blank, a type is chosen, the age is numeric and a trait is listed |
| AddPet.SubmitErrorOrder | app/admin/add-pet/page.tsx:66-90 | each message appears exactly when every earlier check passed and its own failed |
| AddPet.AgeOfDigitsOrSpacesPasses | app/admin/add-pet/page.tsx:77 | an age of digits, or of only spaces, passes the age check |
| AddPet.AgeWithoutDigitRejected | app/admin/add-pet/page.tsx:77 | an age with no digit that does not spell infinity is refused |
| AddPet.AddPetPage.constructor | app/admin/add-pet/page.tsx:17-29 | empty form, empty trait box, no error, no banner |
| AddPet.AddPetPage.HandlePersonalityChange | app/admin/add-pet/page.tsx:44-51 | the form's traits change as `ToggleTrait` says, and nothing else |
| AddPet.AddPetPage.AddCustomPersonality | app/admin/add-pet/page.tsx:53-61 | the traits and the box change as `AddCustom` says, and nothing else |
| AddPet.AddPetPage.Submit | app/admin/add-pet/page.tsx:63-132 | sent exactly when the form passes; a failing check shows its message; success empties the form and shows the banner; a server error is shown with the form kept |

## Left out

- The language-model path of the match endpoint (`app/api/match/route.ts:13-26, 134-286`): it calls an external service and parses its free-form answer. `MatchRoute.Post` models the endpoint as it runs without an API key.
- The 500 answers for an unparsable request body and for exceptions (`app/api/match/route.ts:44-47, 287-296`, and the matching blocks of the other routes): the model receives requests already parsed.
- The initialization run when a module is loaded (`app/lib/init.ts:73`, `app/api/match/route.ts:7`, `app/api/pets/route.ts:6`): it is a call of `InitializeApp(false)` at start-up.
- The 100 ms timer of the retry and the 5 s timer that hides the add-pet banner: the retry body is the separately callable `Init.Initializer.RetryStep`, and the banner reset is not modelled.
- `console` logging, `createdAt` timestamps, HTTP status plumbing, React rendering, loading flags, routing and `fetch`. The server's answer enters `FindPet`'s and `AddPet`'s submit methods as a parameter (add-pet) or is not modelled (the profile wizard's requests after its checks).
- `Math.random` and `generateId`: both are parameters (`Jitter`, and the store's `idSource`). Ids are not assumed to be distinct.
- Floating point: scores are integer hundredths, and the random part is the value after the final `toFixed(2)` rounding.
- `Number(age)` in `app/api/pets/route.ts:57`: the request's age is taken as an integer already.
- Text.IsNumeric: covers what `Number` accepts after trimming: decimal literals with an optional sign and exponent, `Infinity`, and unsigned `0x`/`0o`/`0b` literals. No other form is accepted.
- Text.ToLower: lowers ASCII capitals only; other Unicode case mappings are not modelled.
- PetsRoute.DefaultImageForType: inherited object keys such as `constructor` are ignored; in JavaScript such a key would return a function from `typeMap[type]`.
- Store.MatchesForUser: proves a sorted permutation, not the stability of `Array.prototype.sort` among equal scores.
- Browse.BrowsePage.HandleAgeChange: `parseInt` is taken as already applied. A non-numeric value (NaN) is not modelled, and neither is an index other than 0 or 1 growing the array.
- The generic field setter `handleChange` of the add-pet form (`app/admin/add-pet/page.tsx:39-42`), and the text inputs of the profile wizard: each replaces one field of the form.
- Store.SampleCatalog: the contract states the size; the ten entries are the function's body.
- The other pages and the debug endpoint (`app/page.tsx`, `app/admin/pets/page.tsx`, `app/list-pet/page.tsx`, `app/debug/page.tsx`, `app/matches/[userId]/page.tsx`, `app/api/debug/route.ts`) are not part of this model.
