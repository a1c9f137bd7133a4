/**
 * The relational tables the views and commands read and write: users,
 * customer enrollments, memberships, payments and membership packages.
 * Each table is a map from a row id to the row; fresh UUID primary keys are
 * drawn from one counter.  `Snapshot`/`Restore` give the all-or-nothing
 * behaviour of a database transaction that is rolled back.
 */
module Database {
  import opened Wrappers
  import opened Hashers

  type UserId = nat
  type OrgId = nat
  type BranchId = nat
  type EnrollmentId = nat
  type MembershipId = nat
  type PaymentId = nat
  type PackageId = nat

  datatype UserType = Unset | Customer | Employee

  datatype User = User(
    username: string,
    email: string,
    phoneNumber: string,
    userType: UserType,
    isSuperuser: bool,
    isStaff: bool,
    password: Option<PasswordHash>)   // None: created without a password

  datatype CustomerEnrollment = CustomerEnrollment(user: UserId, branch: BranchId, isActive: bool)

  datatype MembershipPackage = MembershipPackage(branch: BranchId, priceCents: nat)

  datatype Membership = Membership(
    customer: EnrollmentId,
    package: PackageId,
    startDate: int,
    accessSecret: string)

  datatype PaymentState = PaymentPending | PaymentSuccess | PaymentFailed

  datatype Payment = Payment(
    sourceMembership: MembershipId,
    paymentMethod: string,
    originalAmountCents: nat,
    discountAmountCents: nat,
    currency: string,
    paidDate: int,
    state: PaymentState)

  /** The content of every table at one instant. */
  datatype Tables = Tables(
    users: map<UserId, User>,
    enrollments: map<EnrollmentId, CustomerEnrollment>,
    packages: map<PackageId, MembershipPackage>,
    memberships: map<MembershipId, Membership>,
    payments: map<PaymentId, Payment>,
    nextId: nat)

  /** `User.objects.filter(username=name).exists()`. */
  predicate UsernameTaken(users: map<UserId, User>, name: string) {
    exists id :: id in users && users[id].username == name
  }

  /** The `username` column is unique. */
  ghost predicate UsernamesUnique(users: map<UserId, User>) {
    forall a, b :: a in users && b in users && users[a].username == users[b].username ==> a == b
  }

  /** `User.objects.filter(email=email).exists()`. */
  predicate EmailTaken(users: map<UserId, User>, email: string) {
    exists id :: id in users && users[id].email == email
  }

  /** The `email` column is unique. */
  ghost predicate EmailsUnique(users: map<UserId, User>) {
    forall a, b :: a in users && b in users && users[a].email == users[b].email ==> a == b
  }

  class Db {
    var users: map<UserId, User>
    var enrollments: map<EnrollmentId, CustomerEnrollment>
    var packages: map<PackageId, MembershipPackage>
    var memberships: map<MembershipId, Membership>
    var payments: map<PaymentId, Payment>
    var nextId: nat

    /** Every id in use is below the id counter, and usernames and e-mails
        are unique. */
    ghost predicate Valid()
      reads this
    {
      && (forall id :: id in users ==> id < nextId)
      && (forall id :: id in enrollments ==> id < nextId)
      && (forall id :: id in memberships ==> id < nextId)
      && (forall id :: id in payments ==> id < nextId)
      && UsernamesUnique(users)
      && EmailsUnique(users)
    }

    function Snapshot(): Tables
      reads this
    {
      Tables(users, enrollments, packages, memberships, payments, nextId)
    }

    constructor ()
      ensures Valid()
      ensures users == map[] && enrollments == map[] && memberships == map[] && payments == map[]
      ensures packages == map[] && nextId == 0
    {
      users, enrollments, packages, memberships, payments, nextId := map[], map[], map[], map[], map[], 0;
    }

    /** Rolls every table back to `t`. */
    method Restore(t: Tables)
      modifies this
      ensures Snapshot() == t
    {
      users, enrollments, packages, memberships, payments, nextId :=
        t.users, t.enrollments, t.packages, t.memberships, t.payments, t.nextId;
    }

    /** A fresh primary key, unused in every table. */
    method FreshId() returns (id: nat)
      requires Valid()
      modifies this`nextId
      ensures Valid()
      ensures id == old(nextId) && nextId == id + 1
      ensures id !in users && id !in enrollments && id !in memberships && id !in payments
    {
      id := nextId;
      nextId := nextId + 1;
    }

    /** Inserts `u` under a fresh primary key; its username and its e-mail
        must be free. */
    method CreateUser(u: User) returns (id: UserId)
      requires Valid() && !UsernameTaken(users, u.username) && !EmailTaken(users, u.email)
      modifies this
      ensures Valid()
      ensures id !in old(users) && id == old(nextId) && nextId == id + 1
      ensures users == old(users)[id := u]
      ensures Snapshot().(users := old(users), nextId := old(nextId)) == old(Snapshot())
    {
      id := FreshId();
      users := users[id := u];
    }

    /** Updates the phone number of user `id` (the username and the e-mail are unchanged). */
    method SetPhoneNumber(id: UserId, phone: string)
      requires Valid() && id in users
      modifies this
      ensures Valid()
      ensures users == old(users)[id := old(users)[id].(phoneNumber := phone)]
      ensures Snapshot().(users := old(users)) == old(Snapshot())
    {
      users := users[id := users[id].(phoneNumber := phone)];
    }

    /** Inserts enrollment `e` under a fresh primary key. */
    method CreateEnrollment(e: CustomerEnrollment) returns (id: EnrollmentId)
      requires Valid()
      modifies this
      ensures Valid()
      ensures id !in old(enrollments) && id == old(nextId) && nextId == id + 1
      ensures enrollments == old(enrollments)[id := e]
      ensures Snapshot().(enrollments := old(enrollments), nextId := old(nextId)) == old(Snapshot())
    {
      id := FreshId();
      enrollments := enrollments[id := e];
    }

    /** Sets `is_active` on enrollment `id` and saves it. */
    method ReactivateEnrollment(id: EnrollmentId)
      requires Valid() && id in enrollments
      modifies this
      ensures Valid()
      ensures enrollments == old(enrollments)[id := old(enrollments)[id].(isActive := true)]
      ensures Snapshot().(enrollments := old(enrollments)) == old(Snapshot())
    {
      enrollments := enrollments[id := enrollments[id].(isActive := true)];
    }

    /** Inserts membership `m` under a fresh primary key. */
    method CreateMembership(m: Membership) returns (id: MembershipId)
      requires Valid()
      modifies this
      ensures Valid()
      ensures id !in old(memberships) && id == old(nextId) && nextId == id + 1
      ensures memberships == old(memberships)[id := m]
      ensures Snapshot().(memberships := old(memberships), nextId := old(nextId)) == old(Snapshot())
    {
      id := FreshId();
      memberships := memberships[id := m];
    }

    /** Inserts payment `p` under a fresh primary key. */
    method CreatePayment(p: Payment) returns (id: PaymentId)
      requires Valid()
      modifies this
      ensures Valid()
      ensures id !in old(payments) && id == old(nextId) && nextId == id + 1
      ensures payments == old(payments)[id := p]
      ensures Snapshot().(payments := old(payments), nextId := old(nextId)) == old(Snapshot())
    {
      id := FreshId();
      payments := payments[id := p];
    }

    /** Blanks the access secret of membership `id` and saves it. */
    method ClearAccessSecret(id: MembershipId)
      requires Valid() && id in memberships
      modifies this
      ensures Valid()
      ensures memberships == old(memberships)[id := old(memberships)[id].(accessSecret := "")]
      ensures Snapshot().(memberships := old(memberships)) == old(Snapshot())
    {
      memberships := memberships[id := memberships[id].(accessSecret := "")];
    }
  }
}
