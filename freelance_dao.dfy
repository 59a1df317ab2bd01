/**
  The marketplace store (`UserDao`, `CategoryDao`, `FreelancerDao`, `RequestsDao`): the five
  tables held in memory by `FreelanceDb`. Each update is a method whose new table is given by a
  pure function of the old one; queries are functions of the table contents.
 */
module FreelanceDao {
  import opened Optional
  import opened Tables
  import opened FreelanceEntities

  /** What an insert with the ABORT strategy reports: the stored row id, or a constraint failure. */
  datatype InsertResult = Inserted(id: int) | Aborted

  /** An ABORT insert of `user` fails: its explicit id or its email is already stored. */
  predicate UserInsertConflicts(users: map<int, UserEntity>, user: UserEntity) {
    (user.id != 0 && user.id in users) || EmailTaken(users, user.email)
  }

  /** `SELECT * FROM users WHERE email = :email LIMIT 1` */
  function GetByEmail(users: map<int, UserEntity>, email: string): (r: Option<UserEntity>)
    ensures r.Some? <==> EmailTaken(users, email)
    ensures r.Some? ==> r.value.email == email && exists k :: k in users && users[k] == r.value
  {
    var w := Where(users, (u: UserEntity) => u.email == email);
    if w == map[] then None
    else
      NonEmptyHasMember(w.Keys);
      var k := Min(w.Keys);
      Some(w[k])
  }

  /** With the unique email index, looking a stored user up by email finds exactly that user. */
  lemma GetByEmailFindsTheUser(users: map<int, UserEntity>, k: int)
    requires UsersValid(users) && k in users
    ensures GetByEmail(users, users[k].email) == Some(users[k])
  {
    var r := GetByEmail(users, users[k].email);
    var j :| j in users && users[j] == r.value;
  }

  /** `SELECT * FROM users WHERE id = :id LIMIT 1` */
  function GetById(users: map<int, UserEntity>, id: int): (r: Option<UserEntity>)
    requires KeyedBy(users, UserKey)
    ensures r.Some? <==> id in users
    ensures r.Some? ==> r.value.id == id && r.value in users.Values
  {
    if id in users then Some(users[id]) else None
  }

  /** `UPDATE users SET isSuspended = :suspended WHERE id = :id` */
  function WithSuspended(users: map<int, UserEntity>, id: int, suspended: bool): (r: map<int, UserEntity>)
    ensures r.Keys == users.Keys
    ensures id in users ==> r[id] == users[id].(isSuspended := suspended)
    ensures forall k :: k in users && k != id ==> r[k] == users[k]
    ensures UsersValid(users) ==> UsersValid(r)
  {
    if id in users then users[id := users[id].(isSuspended := suspended)] else users
  }

  /** `UPDATE service_requests SET status = :status WHERE id = :id` */
  function WithStatus(requests: map<int, ServiceRequestEntity>, id: int, status: string): (r: map<int, ServiceRequestEntity>)
    ensures r.Keys == requests.Keys
    ensures id in requests ==> r[id] == requests[id].(status := status)
    ensures forall k :: k in requests && k != id ==> r[k] == requests[k]
    ensures KeyedBy(requests, RequestKey) ==> KeyedBy(r, RequestKey)
  {
    if id in requests then requests[id := requests[id].(status := status)] else requests
  }

  /** `UPDATE service_requests SET selectedFreelancerId = :freelancerId, status = 'Aceito' WHERE id = :requestId` */
  function WithSelected(requests: map<int, ServiceRequestEntity>, requestId: int, freelancerId: int): (r: map<int, ServiceRequestEntity>)
    ensures r.Keys == requests.Keys
    ensures requestId in requests ==>
              r[requestId] == requests[requestId].(selectedFreelancerId := Some(freelancerId), status := StatusAccepted)
    ensures forall k :: k in requests && k != requestId ==> r[k] == requests[k]
    ensures KeyedBy(requests, RequestKey) ==> KeyedBy(r, RequestKey)
  {
    if requestId in requests then
      requests[requestId := requests[requestId].(selectedFreelancerId := Some(freelancerId), status := StatusAccepted)]
    else requests
  }

  /**
    `addCategory(link)` with REPLACE on the unique (userId, categoryId) index: the link is stored
    under `id` and any other row for the same pair is deleted.
   */
  function LinkAdded(links: map<int, FreelancerCategoryEntity>, link: FreelancerCategoryEntity, id: int): (r: map<int, FreelancerCategoryEntity>)
    ensures id in r && r[id] == link.(id := id)
    ensures forall k :: k in r && SameLink(r[k], link) ==> k == id
    ensures forall k :: k in links && k != id && !SameLink(links[k], link) ==> k in r && r[k] == links[k]
    ensures forall k :: k in r ==> k == id || k in links
    ensures UniqueLinks(links) ==> UniqueLinks(r)
    ensures KeyedBy(links, LinkKey) ==> KeyedBy(r, LinkKey)
  {
    ReplaceRow(links, id, link.(id := id), (x: FreelancerCategoryEntity) => SameLink(x, link))
  }

  /** Linking the same freelancer and category twice leaves a single link for that pair. */
  lemma LinkTwiceLeavesOne(links: map<int, FreelancerCategoryEntity>, first: FreelancerCategoryEntity,
                           second: FreelancerCategoryEntity, id1: int, id2: int)
    requires SameLink(first, second)
    ensures var after := LinkAdded(LinkAdded(links, first, id1), second, id2);
            forall k :: k in after && SameLink(after[k], first) <==> k == id2
  {
  }

  /** `DELETE FROM freelancer_categories WHERE userId = :userId AND categoryId = :categoryId` */
  function LinkRemoved(links: map<int, FreelancerCategoryEntity>, userId: int, categoryId: int): (r: map<int, FreelancerCategoryEntity>)
    ensures forall k :: k in r <==> k in links && !(links[k].userId == userId && links[k].categoryId == categoryId)
    ensures forall k :: k in r ==> r[k] == links[k]
    ensures UniqueLinks(links) ==> UniqueLinks(r)
    ensures KeyedBy(links, LinkKey) ==> KeyedBy(r, LinkKey)
  {
    Where(links, (l: FreelancerCategoryEntity) => !(l.userId == userId && l.categoryId == categoryId))
  }

  /**
    `addInterest` with REPLACE on the unique (requestId, freelancerId) index: the interest is
    stored under `id` and any other row for the same pair is deleted.
   */
  function InterestAdded(interests: map<int, ServiceInterestEntity>, interest: ServiceInterestEntity, id: int): (r: map<int, ServiceInterestEntity>)
    ensures id in r && r[id] == interest.(id := id)
    ensures forall k :: k in r && SameInterest(r[k], interest) ==> k == id
    ensures forall k :: k in interests && k != id && !SameInterest(interests[k], interest) ==> k in r && r[k] == interests[k]
    ensures forall k :: k in r ==> k == id || k in interests
    ensures UniqueInterests(interests) ==> UniqueInterests(r)
    ensures KeyedBy(interests, InterestKey) ==> KeyedBy(r, InterestKey)
  {
    ReplaceRow(interests, id, interest.(id := id), (x: ServiceInterestEntity) => SameInterest(x, interest))
  }

  /** `SELECT * FROM service_requests WHERE clientId = :clientId ORDER BY id DESC` */
  function GetRequestsByClient(requests: map<int, ServiceRequestEntity>, clientId: int): (r: seq<ServiceRequestEntity>)
    requires KeyedBy(requests, RequestKey)
    ensures forall x :: x in r <==> x in requests.Values && x.clientId == clientId
    ensures forall i, j :: 0 <= i < j < |r| ==> r[i].id > r[j].id
  {
    RowsDescending(Where(requests, (x: ServiceRequestEntity) => x.clientId == clientId), RequestKey)
  }

  /** `SELECT * FROM service_requests WHERE categoryId IN (:categoryIds) AND status = 'Aberto' ORDER BY id DESC` */
  function GetOpenRequestsForCategories(requests: map<int, ServiceRequestEntity>, categoryIds: seq<int>): (r: seq<ServiceRequestEntity>)
    requires KeyedBy(requests, RequestKey)
    ensures forall x :: x in r <==> x in requests.Values && x.categoryId in categoryIds && x.status == StatusOpen
    ensures forall i, j :: 0 <= i < j < |r| ==> r[i].id > r[j].id
  {
    RowsDescending(Where(requests, (x: ServiceRequestEntity) => x.categoryId in categoryIds && x.status == StatusOpen), RequestKey)
  }

  /** Some link row ties freelancer `userId` to category `categoryId`. */
  predicate IsLinked(links: map<int, FreelancerCategoryEntity>, userId: int, categoryId: int) {
    exists k :: k in links && links[k].userId == userId && links[k].categoryId == categoryId
  }

  /**
    `getCategories(userId)`: the categories joined to the freelancer's links, listed here in
    id order.
   */
  function GetCategories(categories: map<int, CategoryEntity>, links: map<int, FreelancerCategoryEntity>, userId: int): (r: seq<CategoryEntity>)
    requires KeyedBy(categories, CategoryKey)
    ensures forall c :: c in r <==> c in categories.Values && IsLinked(links, userId, c.id)
    ensures forall i, j :: 0 <= i < j < |r| ==> r[i].id < r[j].id
  {
    RowsAscending(Where(categories, (c: CategoryEntity) => IsLinked(links, userId, c.id)), CategoryKey)
  }

  /** Some interest row of request `requestId` by `freelancerId` has status "Aceito". */
  predicate HasAcceptedInterest(interests: map<int, ServiceInterestEntity>, requestId: int, freelancerId: int) {
    exists k :: k in interests && interests[k].requestId == requestId
                && interests[k].freelancerId == freelancerId && interests[k].status == StatusAccepted
  }

  /**
    `getInterestedFreelancers(requestId)`: the users joined to an accepted interest in the
    request. The query has no ORDER BY, so the model returns the set of rows.
   */
  function GetInterestedFreelancers(users: map<int, UserEntity>, interests: map<int, ServiceInterestEntity>, requestId: int): (r: set<UserEntity>)
    ensures forall u :: u in r <==> u in users.Values && HasAcceptedInterest(interests, requestId, u.id)
  {
    set u | u in users.Values && HasAcceptedInterest(interests, requestId, u.id)
  }

  class FreelanceDb {
    var users: map<int, UserEntity>
    var categories: map<int, CategoryEntity>
    var freelancerCategories: map<int, FreelancerCategoryEntity>
    var requests: map<int, ServiceRequestEntity>
    var interests: map<int, ServiceInterestEntity>

    /** Every table keyed by its primary key, and every unique index respected. */
    ghost predicate Valid()
      reads this
    {
      UsersValid(users)
      && KeyedBy(categories, CategoryKey)
      && KeyedBy(freelancerCategories, LinkKey) && UniqueLinks(freelancerCategories)
      && KeyedBy(requests, RequestKey)
      && KeyedBy(interests, InterestKey) && UniqueInterests(interests)
    }

    constructor ()
      ensures Valid()
      ensures users == map[] && categories == map[] && freelancerCategories == map[]
      ensures requests == map[] && interests == map[]
    {
      users := map[];
      categories := map[];
      freelancerCategories := map[];
      requests := map[];
      interests := map[];
    }

    /** `UserDao.insert` with ABORT: a clash on the id or on the email index changes nothing. */
    method InsertUser(user: UserEntity) returns (r: InsertResult)
      requires Valid()
      modifies this
      ensures Valid()
      ensures UserInsertConflicts(old(users), user) ==> r == Aborted && users == old(users)
      ensures !UserInsertConflicts(old(users), user) ==>
                r.Inserted? && r.id !in old(users) && users == old(users)[r.id := user.(id := r.id)]
                && (user.id != 0 ==> r.id == user.id) && (user.id == 0 ==> r.id > 0)
      ensures categories == old(categories) && freelancerCategories == old(freelancerCategories)
      ensures requests == old(requests) && interests == old(interests)
    {
      if UserInsertConflicts(users, user) {
        r := Aborted;
      } else {
        var id := AssignedKey(users, user.id);
        users := users[id := user.(id := id)];
        r := Inserted(id);
      }
    }

    /** `UserDao.setSuspended` */
    method SetSuspended(id: int, suspended: bool)
      requires Valid()
      modifies this
      ensures Valid()
      ensures users == WithSuspended(old(users), id, suspended)
      ensures categories == old(categories) && freelancerCategories == old(freelancerCategories)
      ensures requests == old(requests) && interests == old(interests)
    {
      if id in users {
        users := users[id := users[id].(isSuspended := suspended)];
      }
    }

    /** `CategoryDao.insert` with REPLACE: the row is stored under its id, or a fresh one. */
    method InsertCategory(category: CategoryEntity) returns (id: int)
      requires Valid()
      modifies this
      ensures Valid()
      ensures categories == old(categories)[id := category.(id := id)]
      ensures category.id != 0 ==> id == category.id
      ensures category.id == 0 ==> id > 0 && id !in old(categories)
      ensures users == old(users) && freelancerCategories == old(freelancerCategories)
      ensures requests == old(requests) && interests == old(interests)
    {
      id := AssignedKey(categories, category.id);
      categories := categories[id := category.(id := id)];
    }

    /** `FreelancerDao.addCategory` with REPLACE on the (userId, categoryId) index. */
    method AddFreelancerCategory(link: FreelancerCategoryEntity) returns (id: int)
      requires Valid()
      modifies this
      ensures Valid()
      ensures freelancerCategories == LinkAdded(old(freelancerCategories), link, id)
      ensures link.id != 0 ==> id == link.id
      ensures link.id == 0 ==> id > 0 && id !in old(freelancerCategories)
      ensures users == old(users) && categories == old(categories)
      ensures requests == old(requests) && interests == old(interests)
    {
      id := AssignedKey(freelancerCategories, link.id);
      freelancerCategories := LinkAdded(freelancerCategories, link, id);
    }

    /** `FreelancerDao.removeCategory` */
    method RemoveFreelancerCategory(userId: int, categoryId: int)
      requires Valid()
      modifies this
      ensures Valid()
      ensures freelancerCategories == LinkRemoved(old(freelancerCategories), userId, categoryId)
      ensures users == old(users) && categories == old(categories)
      ensures requests == old(requests) && interests == old(interests)
    {
      freelancerCategories := LinkRemoved(freelancerCategories, userId, categoryId);
    }

    /** `RequestsDao.createRequest` with REPLACE: the row is stored under its id, or a fresh one. */
    method CreateRequest(request: ServiceRequestEntity) returns (id: int)
      requires Valid()
      modifies this
      ensures Valid()
      ensures requests == old(requests)[id := request.(id := id)]
      ensures request.id != 0 ==> id == request.id
      ensures request.id == 0 ==> id > 0 && id !in old(requests)
      ensures users == old(users) && categories == old(categories)
      ensures freelancerCategories == old(freelancerCategories) && interests == old(interests)
    {
      id := AssignedKey(requests, request.id);
      requests := requests[id := request.(id := id)];
    }

    /** `RequestsDao.cancelRequest` */
    method CancelRequest(requestId: int)
      requires Valid()
      modifies this
      ensures Valid()
      ensures requests == WithStatus(old(requests), requestId, StatusCancelled)
      ensures users == old(users) && categories == old(categories)
      ensures freelancerCategories == old(freelancerCategories) && interests == old(interests)
    {
      if requestId in requests {
        requests := requests[requestId := requests[requestId].(status := StatusCancelled)];
      }
    }

    /** `RequestsDao.selectFreelancer` */
    method SelectFreelancer(requestId: int, freelancerId: int)
      requires Valid()
      modifies this
      ensures Valid()
      ensures requests == WithSelected(old(requests), requestId, freelancerId)
      ensures users == old(users) && categories == old(categories)
      ensures freelancerCategories == old(freelancerCategories) && interests == old(interests)
    {
      if requestId in requests {
        requests := requests[requestId := requests[requestId].(selectedFreelancerId := Some(freelancerId), status := StatusAccepted)];
      }
    }

    /** `RequestsDao.addInterest` with REPLACE on the (requestId, freelancerId) index. */
    method AddInterest(interest: ServiceInterestEntity) returns (id: int)
      requires Valid()
      modifies this
      ensures Valid()
      ensures interests == InterestAdded(old(interests), interest, id)
      ensures interest.id != 0 ==> id == interest.id
      ensures interest.id == 0 ==> id > 0 && id !in old(interests)
      ensures users == old(users) && categories == old(categories)
      ensures freelancerCategories == old(freelancerCategories) && requests == old(requests)
    {
      id := AssignedKey(interests, interest.id);
      interests := InterestAdded(interests, interest, id);
    }
  }
}
