/**
  Rows of the marketplace tables: `users`, `categories`, `freelancer_categories`,
  `service_requests` and `service_interests`, with the column defaults of the entity classes and
  the unique indices stated as table invariants.
 */
module FreelanceEntities {
  import opened Optional
  import opened Tables

  /** A row of `users`; `email` carries a unique index. */
  datatype UserEntity = UserEntity(
    id: int,
    name: string,
    email: string,
    password: string,
    role: string,
    phone: Option<string>,
    location: Option<string>,
    photoUri: Option<string>,
    isSuspended: bool)

  /** A user as the app builds one: id 0 (to be generated), no contact details, not suspended. */
  function NewUser(name: string, email: string, password: string, role: string): UserEntity {
    UserEntity(0, name, email, password, role, None, None, None, false)
  }

  /** A row of `categories`. */
  datatype CategoryEntity = CategoryEntity(id: int, name: string)

  /** A row of `freelancer_categories`; the pair (`userId`, `categoryId`) carries a unique index. */
  datatype FreelancerCategoryEntity = FreelancerCategoryEntity(id: int, userId: int, categoryId: int)

  /** Request statuses written by the app. */
  const StatusOpen: string := "Aberto"
  const StatusCancelled: string := "Cancelado"
  const StatusAccepted: string := "Aceito"

  /**
    A row of `service_requests`. `dateTime` is a Kotlin `Long` of epoch milliseconds; `budget`
    is a nullable `Double`, carried here without arithmetic.
   */
  datatype ServiceRequestEntity = ServiceRequestEntity(
    id: int,
    clientId: int,
    categoryId: int,
    description: string,
    location: string,
    dateTime: int,
    budget: Option<real>,
    status: string,
    selectedFreelancerId: Option<int>)

  /** A request as the app builds one: open, with no freelancer selected. */
  function NewRequest(clientId: int, categoryId: int, description: string, location: string,
                      dateTime: int, budget: Option<real>): ServiceRequestEntity {
    ServiceRequestEntity(0, clientId, categoryId, description, location, dateTime, budget, StatusOpen, None)
  }

  /** A row of `service_interests`; the pair (`requestId`, `freelancerId`) carries a unique index. */
  datatype ServiceInterestEntity = ServiceInterestEntity(id: int, requestId: int, freelancerId: int, status: string)

  /** An interest as the app builds one: id 0 (to be generated) and status "Aceito". */
  function NewInterest(requestId: int, freelancerId: int): ServiceInterestEntity {
    ServiceInterestEntity(0, requestId, freelancerId, StatusAccepted)
  }

  function UserKey(u: UserEntity): int { u.id }
  function CategoryKey(c: CategoryEntity): int { c.id }
  function LinkKey(l: FreelancerCategoryEntity): int { l.id }
  function RequestKey(r: ServiceRequestEntity): int { r.id }
  function InterestKey(i: ServiceInterestEntity): int { i.id }

  /** Some stored user has this email. */
  predicate EmailTaken(users: map<int, UserEntity>, email: string) {
    exists k :: k in users && users[k].email == email
  }

  /** The unique index on `users.email`. */
  predicate UniqueEmails(users: map<int, UserEntity>) {
    forall a, b :: a in users && b in users && users[a].email == users[b].email ==> a == b
  }

  /** The two links name the same freelancer and the same category. */
  predicate SameLink(a: FreelancerCategoryEntity, b: FreelancerCategoryEntity) {
    a.userId == b.userId && a.categoryId == b.categoryId
  }

  /** The unique index on `freelancer_categories(userId, categoryId)`. */
  predicate UniqueLinks(links: map<int, FreelancerCategoryEntity>) {
    forall a, b :: a in links && b in links && SameLink(links[a], links[b]) ==> a == b
  }

  /** The two interests are of the same freelancer in the same request. */
  predicate SameInterest(a: ServiceInterestEntity, b: ServiceInterestEntity) {
    a.requestId == b.requestId && a.freelancerId == b.freelancerId
  }

  /** The unique index on `service_interests(requestId, freelancerId)`. */
  predicate UniqueInterests(interests: map<int, ServiceInterestEntity>) {
    forall a, b :: a in interests && b in interests && SameInterest(interests[a], interests[b]) ==> a == b
  }

  /** The users table: keyed by id, one user per email. */
  ghost predicate UsersValid(users: map<int, UserEntity>) {
    KeyedBy(users, UserKey) && UniqueEmails(users)
  }
}
