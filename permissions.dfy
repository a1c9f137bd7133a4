/**
 * The REST permission classes and the per-request helpers that find the
 * signed-in customer's enrollment and the signed-in employee's organization
 * and branches.  The per-request memoisation of the helpers is the cache
 * modelled in the `Cache` module; here they are plain functions of the
 * request's user.
 */
module Permissions {
  import opened Wrappers
  import Database

  datatype EmployeeRole = BranchAdminRole | OrgAdminRole

  /** The employee permission row a user may point to. */
  datatype EmpPermission = EmpPermission(coachAccess: bool)

  /** The fields of a signed-in user the permissions read. */
  datatype Account = Account(
    id: Database.UserId,
    userType: Database.UserType,
    empPermission: Option<EmpPermission>,
    cusEnrollment: Option<Database.EnrollmentId>,
    empOrganization: Option<Database.OrgId>,
    empRole: Option<EmployeeRole>,
    empBranches: seq<Database.BranchId>)   // branches of the user's employee enrollments

  /** `request.user`: Django's anonymous user, or an authenticated `User`. */
  datatype RequestUser = Anonymous | SignedIn(account: Account)

  /** `IsSameUser.has_object_permission`: the object is the requesting user. */
  function IsSameUser(requester: RequestUser, obj: Database.UserId): (r: bool)
    ensures r <==> requester.SignedIn? && requester.account.id == obj
  {
    match requester
    case Anonymous => false
    case SignedIn(a) => a.id == obj
  }

  predicate IsCustomer(requester: RequestUser) {
    requester.SignedIn? && requester.account.userType == Database.Customer
  }

  predicate IsCoach(requester: RequestUser) {
    && requester.SignedIn?
    && requester.account.userType == Database.Employee
    && requester.account.empPermission.Some?
    && requester.account.empPermission.value.coachAccess
  }

  predicate EnrolledCustomer(requester: RequestUser) {
    && requester.SignedIn?
    && requester.account.userType == Database.Customer
    && requester.account.cusEnrollment.Some?
  }

  predicate BranchAdmin(requester: RequestUser) {
    && requester.SignedIn?
    && requester.account.userType == Database.Employee
    && requester.account.empOrganization.Some?
  }

  predicate OrganizationAdmin(requester: RequestUser) {
    && requester.SignedIn?
    && requester.account.userType == Database.Employee
    && requester.account.empOrganization.Some?
    && requester.account.empRole == Some(OrgAdminRole)
  }

  /** The implications between the permission classes, and that no request
      is both a customer's and an employee's. */
  lemma PermissionHierarchy(requester: RequestUser)
    ensures EnrolledCustomer(requester) ==> IsCustomer(requester)
    ensures OrganizationAdmin(requester) ==> BranchAdmin(requester)
    ensures !(IsCustomer(requester) && (BranchAdmin(requester) || IsCoach(requester)))
    ensures requester.Anonymous? ==>
              !IsCustomer(requester) && !IsCoach(requester) && !BranchAdmin(requester)
  {
  }

  /** The failed `assert` of a helper called outside the views it is meant for. */
  datatype HelperError = NotAuthenticated | NotACustomer | OrganizationNotSet

  /** `get_current_customer`. */
  function CurrentCustomer(requester: RequestUser): (r: Result<Database.EnrollmentId, HelperError>)
    ensures EnrolledCustomer(requester) ==> r == Ok(requester.account.cusEnrollment.value)
    ensures r.Err? <==> requester.Anonymous? || requester.account.cusEnrollment.None?
  {
    match requester
    case Anonymous => Err(NotAuthenticated)
    case SignedIn(a) => if a.cusEnrollment.None? then Err(NotACustomer) else Ok(a.cusEnrollment.value)
  }

  /** `get_current_emp_organization`. */
  function CurrentEmpOrganization(requester: RequestUser): (r: Result<Database.OrgId, HelperError>)
    ensures BranchAdmin(requester) ==> r == Ok(requester.account.empOrganization.value)
    ensures r.Err? <==> requester.Anonymous? || requester.account.empOrganization.None?
  {
    match requester
    case Anonymous => Err(NotAuthenticated)
    case SignedIn(a) => if a.empOrganization.None? then Err(OrganizationNotSet) else Ok(a.empOrganization.value)
  }

  /** The branches of organization `org`, given the organization of every branch. */
  function BranchesOf(branchOrg: map<Database.BranchId, Database.OrgId>, org: Database.OrgId): set<Database.BranchId> {
    set b | b in branchOrg && branchOrg[b] == org
  }

  /** `get_current_emp_branch_ids`: the branches an employee may work on. */
  function CurrentEmpBranchIds(requester: RequestUser, branchOrg: map<Database.BranchId, Database.OrgId>)
    : (r: Result<set<Database.BranchId>, HelperError>)
    ensures r.Err? <==> requester.Anonymous?
    ensures r.Ok? ==>
              var a := requester.account;
              && (a.empOrganization.None? ==> r.value == {})
              && (a.empOrganization.Some? ==> r.value <= BranchesOf(branchOrg, a.empOrganization.value))
              && (a.empOrganization.Some? && a.empRole == Some(OrgAdminRole) ==>
                    r.value == BranchesOf(branchOrg, a.empOrganization.value))
              && (a.empOrganization.Some? && a.empRole != Some(OrgAdminRole) ==>
                    forall b :: b in r.value <==> b in a.empBranches && b in BranchesOf(branchOrg, a.empOrganization.value))
  {
    match requester
    case Anonymous => Err(NotAuthenticated)
    case SignedIn(a) =>
      if a.empOrganization.None? then Ok({})
      else if a.empRole == Some(OrgAdminRole) then Ok(BranchesOf(branchOrg, a.empOrganization.value))
      else Ok(set b | b in a.empBranches && b in branchOrg && branchOrg[b] == a.empOrganization.value)
  }

  /** Whatever their enrollments, an employee of an organization sees at most
      the branches an organization admin of it sees. */
  lemma BranchAdminSeesNoMoreThanOrgAdmin(a: Account, branchOrg: map<Database.BranchId, Database.OrgId>)
    requires a.empOrganization.Some?
    ensures CurrentEmpBranchIds(SignedIn(a), branchOrg).value
            <= CurrentEmpBranchIds(SignedIn(a.(empRole := Some(OrgAdminRole))), branchOrg).value
  {
  }
}
