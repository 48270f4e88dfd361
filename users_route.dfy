/** The users endpoint: `POST` checks the profile's required fields and
    stores the user. */
module UsersRoute {
  import opened Seqs
  import opened Text
  import opened Store

  /** The JSON body of a `POST` to the users endpoint; a missing field is
      `None`. */
  datatype UserRequest = UserRequest(name: Option<string>, email: Option<string>,
                                     preferences: Option<seq<string>>, lifestyle: Option<string>,
                                     experience: Option<string>)

  /** The required-field check: name, email, lifestyle and experience
      truthy, and a non-empty preference list. */
  predicate ValidUserRequest(r: UserRequest) {
    Truthy(r.name) && Truthy(r.email) && r.preferences.Some? && |r.preferences.value| > 0 &&
    Truthy(r.lifestyle) && Truthy(r.experience)
  }

  /** An empty preference list fails the check like a missing one: the
      handler tests `preferences.length` as well as `preferences`. */
  lemma EmptyPreferencesRejected(r: UserRequest)
    requires r.preferences == Some([])
    ensures !ValidUserRequest(r)
  { }

  /** The user a valid request describes, every field stored exactly as
      given, nothing trimmed. */
  function BuildUser(r: UserRequest): (u: NewUser)
    requires ValidUserRequest(r)
    ensures u.name == r.name.value && u.email == r.email.value && u.preferences == r.preferences.value
    ensures u.lifestyle == r.lifestyle.value && u.experience == r.experience.value
    ensures u.name != "" && u.email != "" && u.preferences != [] && u.lifestyle != "" && u.experience != ""
  {
    NewUser(r.email.value, r.name.value, r.preferences.value, r.lifestyle.value, r.experience.value)
  }

  /** The answers of `POST`: 400 for missing fields, or the new user's id. */
  datatype UserResponse = MissingFields | Created(userId: Id)

  /** `POST /api/users`: a request failing the check is answered 400 and
      creates nothing; a valid one appends exactly one user and answers with
      its id, under which the user is then found whenever no earlier user
      had that id. */
  method Post(store: Store, req: UserRequest) returns (resp: UserResponse)
    modifies store
    ensures store.pets == old(store.pets) && store.matches == old(store.matches)
    ensures !ValidUserRequest(req) ==> resp == MissingFields && unchanged(store)
    ensures ValidUserRequest(req) ==>
              var user := BuildUser(req).WithId(store.idSource(old(store.idsDrawn)));
              resp == Created(user.id) && store.users == old(store.users) + [user] &&
              store.idsDrawn == old(store.idsDrawn) + 1
    ensures resp.Created? && (forall u :: u in old(store.users) ==> u.id != resp.userId) ==>
              GetUserById(store.users, resp.userId) == Some(BuildUser(req).WithId(resp.userId))
  {
    if !ValidUserRequest(req) {
      return MissingFields;
    }
    var user := store.CreateUser(BuildUser(req));
    if forall u :: u in old(store.users) ==> u.id != user.id {
      NewUserIsFound(old(store.users), user);
    }
    resp := Created(user.id);
  }
}
