/** The start-up state machine of the application: the module-level flags
    `initialized` and `initRetries`, the seeding call `initializeApp`, the
    body of its deferred retry, and the read-only `verifyInitialization`.
    The seeder's outcome enters the pure part of the model only as the pet
    count it leaves behind, so that every branch of the machine, including
    the failure and retry branches, can be stated and exercised; that the
    real seeder never takes them is proved separately. */
module Init {
  import opened Store

  /** `MAX_RETRIES`. */
  const MaxRetries: nat := 3

  /** The values of `initialized` and `initRetries`. */
  datatype Flags = Flags(initialized: bool, retries: nat)

  /** What a seeding `initializeApp` call leaves: the new flags, its return
      value, and whether it scheduled the deferred retry. */
  datatype Outcome = Outcome(flags: Flags, ok: bool, retryScheduled: bool)

  /** The module starts with `initialized` false and no retries counted. */
  const Start: Flags := Flags(false, 0)

  /** The retry counter stays below `MAX_RETRIES`. */
  predicate RetriesInRange(f: Flags) {
    f.retries < MaxRetries
  }

  /** The flags and return value of `initializeApp` once `addSampleData`
      has run and left `petCount` pets. Success sets the flag and clears the
      counter; a failure counts one more attempt and schedules a retry while
      the count is below `MAX_RETRIES`, and on reaching it schedules nothing
      and resets the counter. A failure never touches `initialized`. */
  function AfterSeeding(f: Flags, petCount: nat): (o: Outcome)
    ensures o.ok <==> petCount > 0
    ensures o.ok ==> o.flags == Flags(true, 0) && !o.retryScheduled
    ensures !o.ok ==> o.flags.initialized == f.initialized
    ensures !o.ok ==> (o.retryScheduled <==> f.retries + 1 < MaxRetries)
    ensures !o.ok ==> o.flags.retries == if o.retryScheduled then f.retries + 1 else 0
    ensures RetriesInRange(o.flags)
  {
    if petCount == 0 then
      var attempts := f.retries + 1;
      if attempts < MaxRetries then Outcome(Flags(f.initialized, attempts), false, true)
      else Outcome(Flags(f.initialized, 0), false, false)
    else
      Outcome(Flags(true, 0), true, false)
  }

  /** The flags after the deferred retry body has force-seeded and left
      `petCount` pets: success sets the flag and clears the counter, a
      failure changes neither. */
  function AfterRetry(f: Flags, petCount: nat): (r: Flags)
    ensures petCount > 0 ==> r == Flags(true, 0)
    ensures petCount == 0 ==> r == f
    ensures RetriesInRange(f) ==> RetriesInRange(r)
  {
    if petCount == 0 then f else Flags(true, 0)
  }

  /** One event of the machine: an `initializeApp(force)` call whose seeding
      (if it seeds) leaves `petCount` pets, or a run of the retry body. */
  datatype Event = Initialize(force: bool, petCount: nat) | Retry(petCount: nat)

  /** The flags after one event. An `initializeApp` call on an initialized
      application without `force` changes nothing. */
  function Step(f: Flags, e: Event): Flags {
    match e
    case Initialize(force, petCount) =>
      if f.initialized && !force then f else AfterSeeding(f, petCount).flags
    case Retry(petCount) => AfterRetry(f, petCount)
  }

  /** The flags after a sequence of events, in order. */
  function Run(f: Flags, es: seq<Event>): Flags
    decreases |es|
  {
    if es == [] then f else Run(Step(f, es[0]), es[1..])
  }

  /** Whatever calls and retries happen, in whatever order and with whatever
      seeding outcomes, `initRetries` stays in `0 .. MAX_RETRIES - 1`. */
  lemma {:induction false} RunKeepsRetriesInRange(f: Flags, es: seq<Event>)
    requires RetriesInRange(f)
    ensures RetriesInRange(Run(f, es))
    decreases |es|
  {
    if es != [] {
      var g := Step(f, es[0]);
      assert RetriesInRange(g) by {
        match es[0]
        case Initialize(force, petCount) =>
        case Retry(petCount) =>
      }
      RunKeepsRetriesInRange(g, es[1..]);
    }
  }

  /** `k` calls of `initializeApp(force)` that each leave the pet list
      empty. */
  function Failures(k: nat, force: bool): (es: seq<Event>)
    ensures |es| == k
    ensures forall i :: 0 <= i < k ==> es[i] == Initialize(force, 0)
  {
    seq(k, i => Initialize(force, 0))
  }

  /** On an application not yet initialized, consecutive failed calls count
      attempts modulo `MAX_RETRIES`: the counter starts over after every
      third failure, and `initialized` stays false. */
  lemma {:induction false} FailuresCountModulo(r: nat, k: nat, force: bool)
    requires r < MaxRetries
    ensures Run(Flags(false, r), Failures(k, force)) == Flags(false, (r + k) % MaxRetries)
    decreases k
  {
    if k > 0 {
      var es := Failures(k, force);
      assert es[1..] == Failures(k - 1, force);
      var next := (r + 1) % MaxRetries;
      assert Step(Flags(false, r), es[0]) == Flags(false, next);
      FailuresCountModulo(next, k - 1, force);
      assert (next + (k - 1)) % MaxRetries == (r + k) % MaxRetries;
    }
  }

  /** From a fresh start, the `k`-th consecutive failed call schedules the
      deferred retry exactly when `k` is not a multiple of `MAX_RETRIES`:
      the first and second failures schedule one, the third does not. */
  lemma ThirdFailureSchedulesNothing(k: nat, force: bool)
    requires k >= 1
    ensures var before := Run(Start, Failures(k - 1, force));
            AfterSeeding(before, 0).retryScheduled <==> k % MaxRetries != 0
  {
    FailuresCountModulo(0, k - 1, force);
  }

  /** With a non-empty catalog, an `initializeApp` call that reaches the
      seeder always succeeds: it returns true, sets `initialized` and clears
      the counter, so the failure branch is unreachable. */
  lemma SeedingNeverFails(f: Flags, pets: seq<Pet>, force: bool, catalog: seq<NewPet>,
                          ids: nat -> Id, start: nat)
    requires catalog != []
    ensures AfterSeeding(f, |SampleDataResult(pets, force, catalog, ids, start)|) ==
            Outcome(Flags(true, 0), true, false)
  {
    SampleDataNeverEmpty(pets, force, catalog, ids, start);
  }

  /** The application's own catalog is non-empty, so every seeding call of
      the application succeeds. */
  lemma AppSeedingNeverFails(f: Flags, pets: seq<Pet>, force: bool, ids: nat -> Id, start: nat)
    ensures AfterSeeding(f, |SampleDataResult(pets, force, SampleCatalog(), ids, start)|).ok
  {
    SeedingNeverFails(f, pets, force, SampleCatalog(), ids, start);
  }

  /** The store state after the guard the API handlers run first: a store
      holding pets is left alone, an empty one is force-seeded. */
  function Readied(s: StoreState, catalog: seq<NewPet>, ids: nat -> Id): (r: StoreState)
    ensures |s.pets| > 0 ==> r == s
    ensures |s.pets| == 0 ==> r == SeedState(s, true, catalog, ids)
    ensures |r.pets| > 0 <==> |s.pets| > 0 || catalog != []
    ensures r.users == s.users && r.matches == s.matches
  {
    if |s.pets| > 0 then s else SeedState(s, true, catalog, ids)
  }

  /** The module-level state of `app/lib/init.ts` over the store it seeds. */
  class Initializer {
    const store: Store
    var initialized: bool
    var initRetries: nat

    /** The two flags as a value. */
    function State(): Flags
      reads this
    {
      Flags(initialized, initRetries)
    }

    constructor(store: Store)
      ensures this.store == store && State() == Start
    {
      this.store := store;
      initialized, initRetries := false, 0;
    }

    /** `initializeApp(force)`. An initialized application without `force`
        returns true and changes nothing. Otherwise the store is seeded with
        `addSampleData(force)` and the flags, the return value and the retry
        decision follow `AfterSeeding` on the resulting pet count. */
    method InitializeApp(force: bool) returns (ok: bool, retryScheduled: bool)
      modifies this, store
      ensures old(initialized) && !force ==> ok && !retryScheduled && unchanged(this) && unchanged(store)
      ensures !(old(initialized) && !force) ==>
        store.Snapshot() == SeedState(old(store.Snapshot()), force, store.catalog, store.idSource)
      ensures !(old(initialized) && !force) ==>
        Outcome(State(), ok, retryScheduled) == AfterSeeding(old(State()), |store.pets|)
      ensures State() == Step(old(State()), Initialize(force, |store.pets|))
      ensures store.users == old(store.users) && store.matches == old(store.matches)
    {
      if initialized && !force {
        return true, false;
      }
      store.AddSampleData(force);
      var count := store.GetPetCount();
      if count == 0 {
        initRetries := initRetries + 1;
        if initRetries < MaxRetries {
          return false, true;
        } else {
          initRetries := 0;
          return false, false;
        }
      } else {
        initialized := true;
        initRetries := 0;
        return true, false;
      }
    }

    /** The body of the deferred retry: force-seeds the store, then on a
        non-empty pet list sets `initialized` and clears the counter; on an
        empty one leaves both flags alone. */
    method RetryStep()
      modifies this, store
      ensures store.Snapshot() == SeedState(old(store.Snapshot()), true, store.catalog, store.idSource)
      ensures State() == AfterRetry(old(State()), |store.pets|)
      ensures State() == Step(old(State()), Retry(|store.pets|))
      ensures store.users == old(store.users) && store.matches == old(store.matches)
    {
      store.AddSampleData(true);
      var count := store.GetPetCount();
      if count > 0 {
        initialized := true;
        initRetries := 0;
      }
    }

    /** `verifyInitialization()`: true exactly when the store holds a pet;
        it changes neither the flags nor the store. */
    method VerifyInitialization() returns (ok: bool)
      ensures ok <==> |store.pets| > 0
    {
      var count := store.GetPetCount();
      ok := count > 0;
    }

    /** The guard every API handler runs first: when verification fails,
        `initializeApp(true)` and verify again. The result says whether the
        handler may go on; a store that already had pets is left as it was. */
    method EnsureReady() returns (ready: bool)
      modifies this, store
      ensures ready <==> |store.pets| > 0
      ensures |old(store.pets)| > 0 ==> unchanged(this) && unchanged(store)
      ensures store.Snapshot() == Readied(old(store.Snapshot()), store.catalog, store.idSource)
      ensures State() == if |old(store.pets)| > 0 then old(State()) else AfterSeeding(old(State()), |store.pets|).flags
    {
      ready := VerifyInitialization();
      if !ready {
        var ok, scheduled := InitializeApp(true);
        ready := VerifyInitialization();
      }
    }
  }

  /** An application built on the real catalog: every `initializeApp` call
      that seeds returns true and leaves `initialized` set. */
  method AppInitializeAlwaysSucceeds(app: Initializer, force: bool) returns (ok: bool)
    requires app.store.catalog == SampleCatalog()
    requires !app.initialized || force
    modifies app, app.store
    ensures ok && app.initialized && app.initRetries == 0
  {
    var scheduled;
    ok, scheduled := app.InitializeApp(force);
    AppSeedingNeverFails(old(app.State()), old(app.store.pets), force, app.store.idSource, old(app.store.idsDrawn));
  }
}
