/**
 * The employee-side customer API of a branch admin: the customer list is
 * confined to the branches the employee may work on; `create` signs a walk-in
 * customer up with an enrollment, a membership and a paid payment in one
 * transaction; `unbind` forgets the customer's device; and
 * `check_phone_number` tells whether a customer already uses a number.
 */
module EmployeeViews {
  import opened Wrappers
  import opened Database
  import Permissions

  // ----- the customer list ------------------------------------------------------------

  /** The enrollments listed: those at one of `branchIds`. */
  function Listed(enrollments: map<EnrollmentId, CustomerEnrollment>, branchIds: set<BranchId>)
    : (r: set<EnrollmentId>)
    ensures forall id :: id in r <==> id in enrollments && enrollments[id].branch in branchIds
  {
    set id | id in enrollments && enrollments[id].branch in branchIds
  }

  /** `CustomerEnrollmentEmployeeViewSet.get_queryset` for a branch admin. */
  function ListedFor(enrollments: map<EnrollmentId, CustomerEnrollment>, requester: Permissions.RequestUser,
                     branchOrg: map<BranchId, OrgId>): (r: set<EnrollmentId>)
    requires Permissions.BranchAdmin(requester)
  {
    Listed(enrollments, Permissions.CurrentEmpBranchIds(requester, branchOrg).value)
  }

  /** A branch admin lists only enrollments at branches of their own
      organization, and an organization admin lists every enrollment at them. */
  lemma ListingStaysInOrganization(enrollments: map<EnrollmentId, CustomerEnrollment>,
                                   requester: Permissions.RequestUser, branchOrg: map<BranchId, OrgId>,
                                   id: EnrollmentId)
    requires Permissions.BranchAdmin(requester)
    ensures var org := requester.account.empOrganization.value;
            && (id in ListedFor(enrollments, requester, branchOrg) ==>
                  enrollments[id].branch in branchOrg && branchOrg[enrollments[id].branch] == org)
            && (Permissions.OrganizationAdmin(requester) && id in enrollments
                && enrollments[id].branch in branchOrg && branchOrg[enrollments[id].branch] == org ==>
                  id in ListedFor(enrollments, requester, branchOrg))
  {
    var ids := Permissions.CurrentEmpBranchIds(requester, branchOrg).value;
    var org := requester.account.empOrganization.value;
    assert ids <= Permissions.BranchesOf(branchOrg, org);
  }

  // ----- create ---------------------------------------------------------------------------

  const BranchField := "branch"
  const PackageField := "package"
  const DiscountField := "discount_amount"
  const BranchDenied := "You don't have permission to assign this branch."
  const PackageDenied := "You don't have permission to assign this package."
  const DiscountTooLarge := "Discount amount cannot be greater than package price."
  const Currency := "LKR"
  const EmailField := "email"
  const EmailExists := "user with this email address already exists."

  /** Why `create` fails: a `ValidationError` on a field, with its message
      (the serializer's unique-e-mail check or one of the view's own checks),
      or the `IntegrityError` the `username` column raises when the new user's
      username is already taken (the transaction is then rolled back). */
  datatype CreateError = FieldError(field: string, message: string) | UsernameConflict

  /** The checks of `create`, in the order the view makes them. */
  function CreateRefusal(branchIds: set<BranchId>, branch: BranchId, pkg: MembershipPackage, discountCents: nat)
    : (r: Option<CreateError>)
    ensures r.None? <==> branch in branchIds && pkg.branch in branchIds && discountCents <= pkg.priceCents
    ensures r == Some(FieldError(BranchField, BranchDenied)) <==> branch !in branchIds
    ensures r == Some(FieldError(PackageField, PackageDenied)) <==> branch in branchIds && pkg.branch !in branchIds
    ensures r == Some(FieldError(DiscountField, DiscountTooLarge)) <==>
              branch in branchIds && pkg.branch in branchIds && discountCents > pkg.priceCents
  {
    if branch !in branchIds then Some(FieldError(BranchField, BranchDenied))
    else if pkg.branch !in branchIds then Some(FieldError(PackageField, PackageDenied))
    else if discountCents > pkg.priceCents then Some(FieldError(DiscountField, DiscountTooLarge))
    else None
  }

  /** The rows `create` inserts. */
  datatype NewCustomer = NewCustomer(user: UserId, enrollment: EnrollmentId, membership: MembershipId,
                                     payment: PaymentId)

  /** The payment `create` records: the package price, the granted discount,
      in rupees, paid now and successful. */
  function SignUpPayment(membership: MembershipId, paymentMethod: string, pkg: MembershipPackage,
                         discountCents: nat, now: int): (p: Payment)
    ensures p.sourceMembership == membership && p.state == PaymentSuccess
    ensures p.originalAmountCents == pkg.priceCents && p.discountAmountCents == discountCents
    ensures p.currency == Currency && p.paidDate == now
  {
    Payment(membership, paymentMethod, pkg.priceCents, discountCents, Currency, now, PaymentSuccess)
  }

  /** `CustomerEnrollmentEmployeeViewSet.create`.  `profile` is the user the
      validated serializer data describe, `now` is `timezone.now()`; the
      permission class has admitted `requester` as a branch admin. */
  method Create(db: Db, requester: Permissions.RequestUser, branchOrg: map<BranchId, OrgId>, profile: User,
                branch: BranchId, package: PackageId, startDate: int, discountCents: nat,
                paymentMethod: string, now: int)
    returns (r: Result<NewCustomer, CreateError>)
    requires db.Valid() && Permissions.BranchAdmin(requester)
    requires package in db.packages
    modifies db
    ensures db.Valid()
    ensures EmailTaken(old(db.users), profile.email) ==>
              r == Err(FieldError(EmailField, EmailExists)) && db.Snapshot() == old(db.Snapshot())
    ensures var refusal := CreateRefusal(Permissions.CurrentEmpBranchIds(requester, branchOrg).value, branch,
                                         old(db.packages)[package], discountCents);
            && (!EmailTaken(old(db.users), profile.email) && refusal.Some? ==>
                  r == Err(refusal.value) && db.Snapshot() == old(db.Snapshot()))
            && (!EmailTaken(old(db.users), profile.email) && refusal.None? && UsernameTaken(old(db.users), profile.username) ==>
                  r == Err(UsernameConflict) && db.Snapshot() == old(db.Snapshot()))
    ensures r.Ok? ==>
              var c := r.value;
              && c.user !in old(db.users) && c.enrollment !in old(db.enrollments)
              && c.membership !in old(db.memberships) && c.payment !in old(db.payments)
              && db.users == old(db.users)[c.user := profile.(userType := Customer)]
              && db.enrollments == old(db.enrollments)[c.enrollment := CustomerEnrollment(c.user, branch, true)]
              && db.memberships == old(db.memberships)[c.membership := Membership(c.enrollment, package, startDate, "")]
              && db.payments == old(db.payments)[c.payment :=
                   SignUpPayment(c.membership, paymentMethod, old(db.packages)[package], discountCents, now)]
              && db.packages == old(db.packages)
              && db.payments[c.payment].discountAmountCents <= db.payments[c.payment].originalAmountCents
              && c.enrollment in ListedFor(db.enrollments, requester, branchOrg)
    ensures r.Ok? <==> !EmailTaken(old(db.users), profile.email)
                       && CreateRefusal(Permissions.CurrentEmpBranchIds(requester, branchOrg).value, branch,
                                    old(db.packages)[package], discountCents).None?
                       && !UsernameTaken(old(db.users), profile.username)
  {
    if exists id :: id in db.users && db.users[id].email == profile.email {
      return Err(FieldError(EmailField, EmailExists));
    }
    var branchIds := Permissions.CurrentEmpBranchIds(requester, branchOrg).value;
    var pkg := db.packages[package];
    if branch !in branchIds {
      return Err(FieldError(BranchField, BranchDenied));
    }
    if pkg.branch !in branchIds {
      return Err(FieldError(PackageField, PackageDenied));
    }
    if discountCents > pkg.priceCents {
      return Err(FieldError(DiscountField, DiscountTooLarge));
    }
    if exists id :: id in db.users && db.users[id].username == profile.username {
      return Err(UsernameConflict);
    }
    var user := db.CreateUser(profile.(userType := Customer));
    var customer := db.CreateEnrollment(CustomerEnrollment(user, branch, true));
    var membership := db.CreateMembership(Membership(customer, package, startDate, ""));
    var payment := db.CreatePayment(Payment(membership, paymentMethod, pkg.priceCents, discountCents,
                                            Currency, now, PaymentSuccess));
    r := Ok(NewCustomer(user, customer, membership, payment));
  }

  // ----- unbind ---------------------------------------------------------------------------

  /** `CustomerEnrollmentEmployeeViewSet.unbind`: `current` is what
      `current_membership` finds for the customer.  The response is always
      `204 No Content`. */
  method Unbind(db: Db, current: Option<MembershipId>) returns (status: nat)
    requires db.Valid()
    requires current.Some? ==> current.value in db.memberships
    modifies db
    ensures db.Valid() && status == 204
    ensures current.None? ==> db.Snapshot() == old(db.Snapshot())
    ensures current.Some? ==>
              && db.memberships == old(db.memberships)[current.value := old(db.memberships)[current.value].(accessSecret := "")]
              && db.Snapshot().(memberships := old(db.memberships)) == old(db.Snapshot())
  {
    if current.Some? {
      db.ClearAccessSecret(current.value);
    }
    status := 204;
  }

  // ----- check_phone_number ---------------------------------------------------------------

  /** `check_phone_number`: some customer account has the number. */
  function AlreadyUsed(users: map<UserId, User>, phoneNumber: string): (used: bool)
    ensures used <==> exists id :: id in users && users[id].userType == Customer && users[id].phoneNumber == phoneNumber
  {
    exists id :: id in users && users[id].userType == Customer && users[id].phoneNumber == phoneNumber
  }

  /** Signing a customer up with a number no customer had makes exactly that
      number used. */
  lemma SignedUpNumberIsUsed(users: map<UserId, User>, id: UserId, profile: User, phoneNumber: string)
    requires id !in users
    requires forall other :: other in users ==> users[other].phoneNumber != phoneNumber || users[other].userType != Customer
    ensures AlreadyUsed(users[id := profile.(userType := Customer)], phoneNumber) <==> profile.phoneNumber == phoneNumber
  {
    var after := users[id := profile.(userType := Customer)];
    if profile.phoneNumber == phoneNumber {
      assert after[id].userType == Customer && after[id].phoneNumber == phoneNumber;
    }
  }
}
