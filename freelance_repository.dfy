/**
  `FreelanceRepository`: the marketplace operations the screens call. Registration, category
  creation, request creation, linking and suspension change the store held by a `FreelanceDb`;
  login and the freelancer's request feed are read-only lookups over its tables.
 */
module FreelanceRepository {
  import opened Optional
  import opened Tables
  import opened FreelanceEntities
  import opened FreelanceDao

  /**
    `registerUser`: a stored user with the email is returned as it is; otherwise a new user with
    the given fields is inserted and the stored row is read back.
   */
  method RegisterUser(db: FreelanceDb, name: string, email: string, password: string, role: string)
    returns (u: UserEntity)
    requires db.Valid()
    modifies db
    ensures db.Valid()
    ensures u.email == email && u in db.users.Values
    ensures EmailTaken(old(db.users), email) ==> db.users == old(db.users) && Some(u) == GetByEmail(old(db.users), email)
    ensures !EmailTaken(old(db.users), email) ==>
              u.id > 0 && u.id !in old(db.users) && db.users == old(db.users)[u.id := u]
              && u == NewUser(name, email, password, role).(id := u.id)
    ensures db.categories == old(db.categories) && db.freelancerCategories == old(db.freelancerCategories)
    ensures db.requests == old(db.requests) && db.interests == old(db.interests)
  {
    var existing := GetByEmail(db.users, email);
    if existing.Some? {
      u := existing.value;
      return;
    }
    var inserted := db.InsertUser(NewUser(name, email, password, role));
    assert inserted.Inserted?;
    var stored := GetById(db.users, inserted.id);
    u := stored.value;
  }

  /** The credentials match a stored user who is not suspended. */
  predicate CanLogIn(user: UserEntity, email: string, password: string) {
    user.email == email && user.password == password && !user.isSuspended
  }

  /** `login`: the user with the email, when the password is exactly right and the user is not suspended. */
  function Login(users: map<int, UserEntity>, email: string, password: string): (r: Option<UserEntity>)
    requires UsersValid(users)
    ensures r.Some? <==> exists k :: k in users && CanLogIn(users[k], email, password)
    ensures r.Some? ==> r.value in users.Values && CanLogIn(r.value, email, password)
  {
    var found := GetByEmail(users, email);
    if found.Some? && found.value.password == password && !found.value.isSuspended then
      found
    else
      assert forall k :: k in users && users[k].email == email ==> Some(users[k]) == found by {
        forall k | k in users && users[k].email == email
          ensures Some(users[k]) == found
        {
          GetByEmailFindsTheUser(users, k);
        }
      }
      None
  }

  /** A suspended user cannot log in, whatever password is given. */
  lemma SuspendedCannotLogIn(users: map<int, UserEntity>, id: int, password: string)
    requires UsersValid(users) && id in users
    ensures Login(WithSuspended(users, id, true), users[id].email, password) == None
  {
    var after := WithSuspended(users, id, true);
    forall k | k in after && after[k].email == users[id].email
      ensures k == id
    {
      assert users[k].email == users[id].email;
    }
  }

  /** A freshly registered user logs in with the credentials given at registration. */
  lemma RegisteredUserCanLogIn(users: map<int, UserEntity>, u: UserEntity)
    requires UsersValid(users) && u.id !in users && !EmailTaken(users, u.email) && !u.isSuspended
    ensures UsersValid(users[u.id := u])
    ensures Login(users[u.id := u], u.email, u.password) == Some(u)
  {
    var after := users[u.id := u];
    assert after[u.id] == u;
    GetByEmailFindsTheUser(after, u.id);
  }

  /** `addCategory`: the category is stored under a fresh id and returned with it. */
  method AddCategory(db: FreelanceDb, name: string) returns (c: CategoryEntity)
    requires db.Valid()
    modifies db
    ensures db.Valid()
    ensures c.name == name && c.id > 0 && c.id !in old(db.categories)
    ensures db.categories == old(db.categories)[c.id := c]
    ensures db.users == old(db.users) && db.freelancerCategories == old(db.freelancerCategories)
    ensures db.requests == old(db.requests) && db.interests == old(db.interests)
  {
    var id := db.InsertCategory(CategoryEntity(0, name));
    c := CategoryEntity(id, name);
  }

  /** `createRequest`: the request is stored and returned with only its id replaced by the stored one. */
  method CreateRequest(db: FreelanceDb, request: ServiceRequestEntity) returns (created: ServiceRequestEntity)
    requires db.Valid()
    modifies db
    ensures db.Valid()
    ensures created == request.(id := created.id)
    ensures request.id != 0 ==> created.id == request.id
    ensures request.id == 0 ==> created.id > 0 && created.id !in old(db.requests)
    ensures db.requests == old(db.requests)[created.id := created]
    ensures db.users == old(db.users) && db.categories == old(db.categories)
    ensures db.freelancerCategories == old(db.freelancerCategories) && db.interests == old(db.interests)
  {
    var id := db.CreateRequest(request);
    created := request.(id := id);
  }

  /** `adminSetSuspended` */
  method AdminSetSuspended(db: FreelanceDb, userId: int, suspended: bool)
    requires db.Valid()
    modifies db
    ensures db.Valid()
    ensures db.users == WithSuspended(old(db.users), userId, suspended)
    ensures db.categories == old(db.categories) && db.freelancerCategories == old(db.freelancerCategories)
    ensures db.requests == old(db.requests) && db.interests == old(db.interests)
  {
    db.SetSuspended(userId, suspended);
  }

  /** `linkFreelancerCategory`: afterwards exactly one link row ties the freelancer to the category. */
  method LinkFreelancerCategory(db: FreelanceDb, userId: int, categoryId: int)
    requires db.Valid()
    modifies db
    ensures db.Valid()
    ensures IsLinked(db.freelancerCategories, userId, categoryId)
    ensures forall a, b :: IsLinked(old(db.freelancerCategories), a, b) && (a, b) != (userId, categoryId)
                           ==> IsLinked(db.freelancerCategories, a, b)
    ensures forall a, b :: IsLinked(db.freelancerCategories, a, b) && (a, b) != (userId, categoryId)
                           ==> IsLinked(old(db.freelancerCategories), a, b)
    ensures db.users == old(db.users) && db.categories == old(db.categories)
    ensures db.requests == old(db.requests) && db.interests == old(db.interests)
  {
    var link := FreelancerCategoryEntity(0, userId, categoryId);
    var id := db.AddFreelancerCategory(link);
    assert db.freelancerCategories[id] == link.(id := id);
  }

  /** `unlinkFreelancerCategory`: afterwards no link row ties the freelancer to the category. */
  method UnlinkFreelancerCategory(db: FreelanceDb, userId: int, categoryId: int)
    requires db.Valid()
    modifies db
    ensures db.Valid()
    ensures !IsLinked(db.freelancerCategories, userId, categoryId)
    ensures forall a, b :: (a, b) != (userId, categoryId) ==>
              (IsLinked(db.freelancerCategories, a, b) <==> IsLinked(old(db.freelancerCategories), a, b))
    ensures db.users == old(db.users) && db.categories == old(db.categories)
    ensures db.requests == old(db.requests) && db.interests == old(db.interests)
  {
    db.RemoveFreelancerCategory(userId, categoryId);
  }

  /**
   * `addInterest`: stores an accepted interest of the freelancer in the request under a fresh id,
   * replacing the pair's old row and keeping every other interest.
   */
  method AddInterest(db: FreelanceDb, requestId: int, freelancerId: int) returns (id: int)
    requires db.Valid()
    modifies db
    ensures db.Valid()
    ensures id > 0 && id !in old(db.interests)
    ensures db.interests == InterestAdded(old(db.interests), NewInterest(requestId, freelancerId), id)
    ensures HasAcceptedInterest(db.interests, requestId, freelancerId)
    ensures forall u :: u in db.users.Values && u.id == freelancerId ==> u in GetInterestedFreelancers(db.users, db.interests, requestId)
    ensures db.users == old(db.users) && db.categories == old(db.categories)
    ensures db.freelancerCategories == old(db.freelancerCategories) && db.requests == old(db.requests)
  {
    var interest := NewInterest(requestId, freelancerId);
    id := db.AddInterest(interest);
    assert db.interests[id] == interest.(id := id);
  }

  /** The ids of a list of categories, in the same order (`map { it.id }`). */
  function CategoryIds(cs: seq<CategoryEntity>): (r: seq<int>)
    ensures |r| == |cs|
    ensures forall i :: 0 <= i < |cs| ==> r[i] == cs[i].id
  {
    seq(|cs|, i requires 0 <= i < |cs| => cs[i].id)
  }

  /** The freelancer is linked to the category, and the category exists. */
  predicate Serves(categories: map<int, CategoryEntity>, links: map<int, FreelancerCategoryEntity>, userId: int, categoryId: int) {
    categoryId in categories && IsLinked(links, userId, categoryId)
  }

  /** A category id is among the freelancer's categories exactly when the freelancer serves it. */
  lemma CategoryIdsOfFreelancer(categories: map<int, CategoryEntity>, links: map<int, FreelancerCategoryEntity>, userId: int, categoryId: int)
    requires KeyedBy(categories, CategoryKey)
    ensures categoryId in CategoryIds(GetCategories(categories, links, userId)) <==> Serves(categories, links, userId, categoryId)
  {
    var cs := GetCategories(categories, links, userId);
    var ids := CategoryIds(cs);
    if categoryId in ids {
      var i :| 0 <= i < |ids| && ids[i] == categoryId;
      assert cs[i] in cs;
    }
    if Serves(categories, links, userId, categoryId) {
      var c := categories[categoryId];
      assert c in categories.Values;
      assert c in cs;
      var i :| 0 <= i < |cs| && cs[i] == c;
      assert ids[i] == categoryId;
    }
  }

  /**
    `getOpenRequestsForFreelancer`: the open requests in the freelancer's categories, newest
    first; no query is made when the freelancer has no category.
   */
  function GetOpenRequestsForFreelancer(categories: map<int, CategoryEntity>, links: map<int, FreelancerCategoryEntity>,
                                        requests: map<int, ServiceRequestEntity>, userId: int): (r: seq<ServiceRequestEntity>)
    requires KeyedBy(categories, CategoryKey) && KeyedBy(requests, RequestKey)
    ensures (forall c :: c in categories ==> !IsLinked(links, userId, c)) ==> r == []
    ensures forall x :: x in r <==> x in requests.Values && x.status == StatusOpen && Serves(categories, links, userId, x.categoryId)
    ensures forall i, j :: 0 <= i < j < |r| ==> r[i].id > r[j].id
  {
    var cats := CategoryIds(GetCategories(categories, links, userId));
    assert forall c :: c in cats <==> Serves(categories, links, userId, c) by {
      forall c ensures c in cats <==> Serves(categories, links, userId, c) {
        CategoryIdsOfFreelancer(categories, links, userId, c);
      }
    }
    if |cats| == 0 then [] else GetOpenRequestsForCategories(requests, cats)
  }

  /** Once the freelancer links an existing category, its open requests show up in the feed. */
  lemma LinkedCategoryFeedsRequests(categories: map<int, CategoryEntity>, links: map<int, FreelancerCategoryEntity>,
                                    requests: map<int, ServiceRequestEntity>, userId: int, categoryId: int, id: int,
                                    x: ServiceRequestEntity)
    requires KeyedBy(categories, CategoryKey) && KeyedBy(requests, RequestKey)
    requires categoryId in categories && x in requests.Values && x.categoryId == categoryId && x.status == StatusOpen
    ensures x in GetOpenRequestsForFreelancer(categories, LinkAdded(links, FreelancerCategoryEntity(0, userId, categoryId), id), requests, userId)
  {
    var after := LinkAdded(links, FreelancerCategoryEntity(0, userId, categoryId), id);
    assert after[id].userId == userId && after[id].categoryId == categoryId;
  }

  /** Once the freelancer unlinks a category, none of its requests shows up in the feed. */
  lemma UnlinkedCategoryLeavesFeed(categories: map<int, CategoryEntity>, links: map<int, FreelancerCategoryEntity>,
                                   requests: map<int, ServiceRequestEntity>, userId: int, categoryId: int,
                                   x: ServiceRequestEntity)
    requires KeyedBy(categories, CategoryKey) && KeyedBy(requests, RequestKey)
    requires x.categoryId == categoryId
    ensures x !in GetOpenRequestsForFreelancer(categories, LinkRemoved(links, userId, categoryId), requests, userId)
  {
    var after := LinkRemoved(links, userId, categoryId);
    assert !IsLinked(after, userId, categoryId);
  }

  /**
    A request a client posts (built as `NewRequest`, stored by `createRequest` under its new id) in a
    category the freelancer serves shows up in that freelancer's feed.
   */
  lemma PostedRequestReachesFeed(categories: map<int, CategoryEntity>, links: map<int, FreelancerCategoryEntity>,
                                 requests: map<int, ServiceRequestEntity>, userId: int, id: int,
                                 clientId: int, categoryId: int, description: string, location: string,
                                 dateTime: int, budget: Option<real>)
    requires KeyedBy(categories, CategoryKey) && KeyedBy(requests, RequestKey)
    requires Serves(categories, links, userId, categoryId)
    ensures NewRequest(clientId, categoryId, description, location, dateTime, budget).(id := id)
            in GetOpenRequestsForFreelancer(categories, links,
                 requests[id := NewRequest(clientId, categoryId, description, location, dateTime, budget).(id := id)], userId)
  {
    var created := NewRequest(clientId, categoryId, description, location, dateTime, budget).(id := id);
    var after := requests[id := created];
    assert created in after.Values by { assert after[id] == created; }
  }
}
